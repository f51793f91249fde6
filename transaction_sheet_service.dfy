/** `TransactionSheetService`: the four worksheet handlers of one spreadsheet
    (transactions, e-mail history, WhatsApp history, states), message filing
    keyed by the transaction a message belongs to, and save/reload of all
    four at once. */
module TransactionSheet {
  import opened Values
  import opened Seqs
  import opened SheetsService
  import opened DateFormat
  import opened Worksheets
  import opened DomainTypes

  const EMAIL_ID := "EMAIL ID"
  const WP_ID := "WP ID"

  /** The service's own converter map. Its text step for amounts is the
      same `NumberText` as the domain schema's. */
  const CONVERTERS: map<string, Converter> := map[
    FECHA := ToStr, "Concepto" := ToStr, MOVEMENT := ToInt,
    "Referencia" := ToStr, "Monto" := ParseNumber, "QUERY" := ToStr,
    "CORREO" := ToStr, "TELEFONO" := ToStr, "REMITENTE" := ToStr,
    STATE := ToStr, "EMAIL ID" := ToStr, "WP ID" := ToStr,
    "ARCHIVO" := ToStr]

  /** The service's converters cover the same columns as the domain
      schema's, and the two disagree on exactly two of them: the movement
      number (read as an integer here, as text there) and the phone number
      (kept as read here, normalised there). */
  lemma ConvertersAgainstSchema()
    ensures CONVERTERS.Keys == TRANSACTIONS_CONVERTERS.Keys
    ensures (set c | c in CONVERTERS && CONVERTERS[c] != TRANSACTIONS_CONVERTERS[c]) == {MOVEMENT, "TELEFONO"}
  {
  }

  /** The movement number a message with identifier `id` is filed under: that
      of the first transaction whose `idColumn` holds `id`. Nothing when no
      transaction holds it, when the column is missing, or when the table
      has no movement-number column (the lookup of the first row's movement
      number then raises, and the error is caught). */
  function MessageMovement(t: Table, idColumn: string, id: string): Option<Value>
  {
    match FindRows(t, idColumn, Str(id))
    case None => None
    case Some(rows) => if MOVEMENT in t.columns then Some(Cell(rows[0], MOVEMENT)) else None
  }

  /** A message is filed exactly when some transaction carries its
      identifier and the table has a movement-number column; it is filed
      under the movement number of the FIRST such transaction. */
  lemma MessageMovementSpec(t: Table, idColumn: string, id: string)
    ensures MessageMovement(t, idColumn, id).Some? <==>
              idColumn in t.columns && MOVEMENT in t.columns && AnyMatch(t, idColumn, Str(id))
    ensures MessageMovement(t, idColumn, id).Some? ==>
              exists i :: 0 <= i < |t.rows| && Matches(t.rows[i], idColumn, Str(id)) &&
                MessageMovement(t, idColumn, id).value == Cell(t.rows[i], MOVEMENT) &&
                forall j :: 0 <= j < i ==> !Matches(t.rows[j], idColumn, Str(id))
  {
    FindRowsSpec(t, idColumn, Str(id));
    if MessageMovement(t, idColumn, id).Some? {
      var p := MatchPred(idColumn, Str(id));
      FilterFirst(t.rows, p);
      var i :| 0 <= i < |t.rows| && p(t.rows[i]) && Filter(t.rows, p)[0] == t.rows[i] &&
                forall j :: 0 <= j < i ==> !p(t.rows[j]);
      assert Matches(t.rows[i], idColumn, Str(id));
    }
  }

  /** Whether each of the four remote worksheets can be reached. */
  datatype Reachability = Reachability(transactions: bool, emailHistory: bool, whatsappHistory: bool, states: bool)

  class TransactionSheetService {
    const transactions: TransactionsWorksheet
    const emailHistory: HistoryWorksheet
    const whatsappHistory: HistoryWorksheet
    const states: StatesWorksheet

    /** Each handler has a store of its own, and the histories key their
        rows by the right identifier column. */
    predicate Valid()
    {
      emailHistory.idColumn == EMAIL_ID && whatsappHistory.idColumn == WP_ID &&
      transactions.service != emailHistory.service &&
      transactions.service != whatsappHistory.service &&
      transactions.service != states.service &&
      emailHistory.service != whatsappHistory.service &&
      emailHistory.service != states.service &&
      whatsappHistory.service != states.service
    }

    /** Opens one store per worksheet, whose remote contents are given, and
        lets each handler lay down its default header if needed. */
    constructor(transactionsRemote: Table, emailRemote: Table, whatsappRemote: Table, statesRemote: Table,
                reachable: bool)
      ensures Valid()
      ensures transactions.service.table == InitialTable(transactionsRemote, TRANSACTION_COLUMNS)
      ensures emailHistory.service.table == InitialTable(emailRemote, HistoryColumns(EMAIL_ID))
      ensures whatsappHistory.service.table == InitialTable(whatsappRemote, HistoryColumns(WP_ID))
      ensures states.service.table == InitialTable(statesRemote, STATE_COLUMNS)
    {
      var s1 := new GoogleSheetsService(transactionsRemote);
      var s2 := new GoogleSheetsService(emailRemote);
      var s3 := new GoogleSheetsService(whatsappRemote);
      var s4 := new GoogleSheetsService(statesRemote);
      transactions := new TransactionsWorksheet(s1, reachable);
      emailHistory := new HistoryWorksheet(s2, EMAIL_ID, reachable);
      whatsappHistory := new HistoryWorksheet(s3, WP_ID, reachable);
      states := new StatesWorksheet(s4, reachable);
    }

    /** Files a message in `history` under the movement number of the
        transaction whose `idColumn` holds `id`. */
    method FileMessage(history: HistoryWorksheet, idColumn: string, id: string, message: string, now: Timestamp)
      returns (ok: bool)
      requires Valid()
      requires history == emailHistory || history == whatsappHistory
      requires history.idColumn == idColumn
      modifies history.service`table
      ensures transactions.service.table == old(transactions.service.table)
      ensures ok == MessageMovement(transactions.service.table, idColumn, id).Some?
      ensures history.service.table ==
        if ok then WithRow(old(history.service.table),
                           HistoryEntry(idColumn, id, message, MessageMovement(transactions.service.table, idColumn, id).value, now))
        else old(history.service.table)
    {
      var found := transactions.Find(idColumn, Str(id));
      if found.None? || found.value == [] {
        return false;
      }
      var t := transactions.ReadAll();
      if MOVEMENT !in t.columns {
        return false;
      }
      var movement := Cell(found.value[0], MOVEMENT);
      ok := history.AddMessage(id, message, movement, now);
    }

    /** `add_email_message`. */
    method AddEmailMessage(emailId: string, message: string, now: Timestamp) returns (ok: bool)
      requires Valid()
      modifies emailHistory.service`table
      ensures transactions.service.table == old(transactions.service.table)
      ensures ok == MessageMovement(transactions.service.table, EMAIL_ID, emailId).Some?
      ensures emailHistory.service.table ==
        if ok then WithRow(old(emailHistory.service.table),
                           HistoryEntry(EMAIL_ID, emailId, message, MessageMovement(transactions.service.table, EMAIL_ID, emailId).value, now))
        else old(emailHistory.service.table)
    {
      ok := FileMessage(emailHistory, EMAIL_ID, emailId, message, now);
    }

    /** `add_whatsapp_message`. */
    method AddWhatsappMessage(wpId: string, message: string, now: Timestamp) returns (ok: bool)
      requires Valid()
      modifies whatsappHistory.service`table
      ensures transactions.service.table == old(transactions.service.table)
      ensures ok == MessageMovement(transactions.service.table, WP_ID, wpId).Some?
      ensures whatsappHistory.service.table ==
        if ok then WithRow(old(whatsappHistory.service.table),
                           HistoryEntry(WP_ID, wpId, message, MessageMovement(transactions.service.table, WP_ID, wpId).value, now))
        else old(whatsappHistory.service.table)
    {
      ok := FileMessage(whatsappHistory, WP_ID, wpId, message, now);
    }

    /** `save_all_changes`: all four saves are attempted, whatever the
        earlier ones gave; the result is true only when all four succeed. */
    method SaveAllChanges(r: Reachability) returns (ok: bool)
      requires Valid()
      modifies transactions.service`remote, emailHistory.service`remote
      modifies whatsappHistory.service`remote, states.service`remote
      ensures ok == (r.transactions && r.emailHistory && r.whatsappHistory && r.states)
      ensures transactions.service.remote ==
        if r.transactions then transactions.service.table else old(transactions.service.remote)
      ensures emailHistory.service.remote ==
        if r.emailHistory then emailHistory.service.table else old(emailHistory.service.remote)
      ensures whatsappHistory.service.remote ==
        if r.whatsappHistory then whatsappHistory.service.table else old(whatsappHistory.service.remote)
      ensures states.service.remote ==
        if r.states then states.service.table else old(states.service.remote)
    {
      var a := transactions.SaveChanges(r.transactions);
      var b := emailHistory.SaveChanges(r.emailHistory);
      var c := whatsappHistory.SaveChanges(r.whatsappHistory);
      var d := states.SaveChanges(r.states);
      ok := a && b && c && d;
    }

    /** `reload_all_data`: all four reloads are attempted, whatever the
        earlier ones gave; the result is true only when all four succeed. */
    method ReloadAllData(r: Reachability) returns (ok: bool)
      requires Valid()
      modifies transactions.service`table, emailHistory.service`table
      modifies whatsappHistory.service`table, states.service`table
      ensures ok == (r.transactions && r.emailHistory && r.whatsappHistory && r.states)
      ensures transactions.service.table ==
        if r.transactions then transactions.service.remote else old(transactions.service.table)
      ensures emailHistory.service.table ==
        if r.emailHistory then emailHistory.service.remote else old(emailHistory.service.table)
      ensures whatsappHistory.service.table ==
        if r.whatsappHistory then whatsappHistory.service.remote else old(whatsappHistory.service.table)
      ensures states.service.table ==
        if r.states then states.service.remote else old(states.service.table)
    {
      var a := transactions.ReloadData(r.transactions);
      var b := emailHistory.ReloadData(r.emailHistory);
      var c := whatsappHistory.ReloadData(r.whatsappHistory);
      var d := states.ReloadData(r.states);
      ok := a && b && c && d;
    }
  }
}
