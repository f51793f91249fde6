/** The three worksheet handlers: each wraps one record store, lays down its
    default header when the worksheet is found empty, and otherwise forwards
    to the store. The transactions handler adds a state update keyed by the
    movement number; the history handler adds a time-stamped message row. */
module Worksheets {
  import opened Values
  import opened SheetsService
  import opened DateFormat

  const MOVEMENT := "N° Movimiento"
  const STATE := "ESTADO DE REMEDIACION"
  const FECHA := "Fecha"
  const MENSAJE := "Mensaje"

  const TRANSACTION_COLUMNS: seq<string> := [
    FECHA, "Concepto", MOVEMENT, "Referencia", "Monto",
    "QUERY", "CORREO", "TELEFONO", "REMITENTE", STATE,
    "EMAIL ID", "WP ID", "ARCHIVO"
  ]

  const STATE_COLUMNS: seq<string> := ["Estado", "Descripción"]

  // The remediation states a transaction can be in.
  const NO_PROCESADO := "No Procesado"
  const EN_PROCESO := "En Proceso"
  const RESPUESTA_INVALIDA_1 := "Respuesta Invalida 1"
  const RESPUESTA_INVALIDA_2 := "Respuesta Invalida 2"
  const PROCESAMIENTO_MANUAL := "Procesamiento Manual"
  const COMPLETADO := "Completado"

  function States(): seq<string>
  {
    [NO_PROCESADO, EN_PROCESO, RESPUESTA_INVALIDA_1, RESPUESTA_INVALIDA_2, PROCESAMIENTO_MANUAL, COMPLETADO]
  }

  /** The header of a message history worksheet whose message identifier
      column is `idColumn` ("WP ID" or "EMAIL ID"). */
  function HistoryColumns(idColumn: string): (cols: seq<string>)
    ensures |cols| == 4 && cols[2] == idColumn
  {
    [FECHA, MOVEMENT, idColumn, MENSAJE]
  }

  predicate Distinct(s: seq<string>)
  {
    forall i, j :: 0 <= i < j < |s| ==> s[i] != s[j]
  }

  /** Every default header names each column once, and the six states are
      six different labels. */
  lemma HeadersDistinct()
    ensures Distinct(TRANSACTION_COLUMNS) && |TRANSACTION_COLUMNS| == 13
    ensures Distinct(STATE_COLUMNS)
    ensures Distinct(HistoryColumns("WP ID")) && Distinct(HistoryColumns("EMAIL ID"))
    ensures Distinct(States())
  {
  }

  /** The row `add_message` writes. */
  function HistoryEntry(idColumn: string, id: string, message: string, movement: Value, now: Timestamp): Fields
  {
    Pairs(HistoryColumns(idColumn), [Str(FormatFecha(now)), movement, Str(id), Str(message)])
  }

  /** The history row holds the time stamp, the movement number, the message
      identifier and the text, each under its own column, and mentions no
      other column. */
  lemma {:induction false} HistoryEntryCells(idColumn: string, id: string, message: string, movement: Value, now: Timestamp)
    requires idColumn !in {FECHA, MOVEMENT, MENSAJE}
    ensures var r := ToMap(HistoryEntry(idColumn, id, message, movement, now));
      && Cell(r, FECHA) == Str(FormatFecha(now))
      && ParseFecha(Cell(r, FECHA).s) == Option<DateTime>.Some(now)
      && Cell(r, MOVEMENT) == movement
      && Cell(r, idColumn) == Str(id)
      && Cell(r, MENSAJE) == Str(message)
      && r.Keys == {FECHA, MOVEMENT, idColumn, MENSAJE}
  {
    var cols := HistoryColumns(idColumn);
    PairsLookup(cols, [Str(FormatFecha(now)), movement, Str(id), Str(message)]);
    assert cols[0] == FECHA && cols[1] == MOVEMENT && cols[2] == idColumn && cols[3] == MENSAJE;
    FormatFechaRoundTrip(now);
  }

  /** The patch `update_state` applies. */
  function StatePatch(newState: string): Fields
  {
    [(STATE, Str(newState))]
  }

  /** A state update sets the remediation state of every transaction with
      that movement number, whatever state it was in before, and changes
      nothing else: other rows, other columns and the row count stay. */
  lemma UpdateStateSpec(t: Table, movement: Value, newState: string)
    ensures var u := Patched(t, MOVEMENT, movement, StatePatch(newState));
      && |u.rows| == |t.rows|
      && u.columns[..|t.columns|] == t.columns
      && STATE in u.columns
      && (forall i :: 0 <= i < |t.rows| && Matches(t.rows[i], MOVEMENT, movement) ==>
            Cell(u.rows[i], STATE) == Str(newState))
      && (forall i :: 0 <= i < |t.rows| && !Matches(t.rows[i], MOVEMENT, movement) ==>
            u.rows[i] == t.rows[i])
      && (forall i, k :: 0 <= i < |t.rows| && k != STATE ==> Cell(u.rows[i], k) == Cell(t.rows[i], k))
  {
    var p := StatePatch(newState);
    assert KeysOf(p) == [STATE];
    PatchedSpec(t, MOVEMENT, movement, p);
    ToMapLookup(p, 0);
  }

  /** The table a handler starts from: the one found, or the default header
      with no rows when the one found is empty. */
  function InitialTable(found: Table, columns: seq<string>): (t: Table)
    ensures !IsEmpty(found) ==> t == found
    ensures IsEmpty(found) ==> t.columns == columns && t.rows == []
  {
    if IsEmpty(found) then Table(columns, []) else found
  }

  /** `_initialize_columns`: a worksheet found empty (no rows or no columns)
      gets the default header with no rows, which is then saved; a non-empty
      one is left alone. */
  method InitializeColumns(service: GoogleSheetsService, columns: seq<string>, reachable: bool)
    modifies service
    ensures service.table == InitialTable(old(service.table), columns)
    ensures service.remote ==
      if IsEmpty(old(service.table)) && reachable then Table(columns, []) else old(service.remote)
  {
    var t := service.ReadAllData();
    if IsEmpty(t) {
      service.table := Table(columns, []);
      var _ := service.SaveChanges(reachable);
    }
  }

  /** `TransactionsWorksheet`. */
  class TransactionsWorksheet {
    const service: GoogleSheetsService

    constructor(service: GoogleSheetsService, reachable: bool)
      modifies service
      ensures this.service == service
      ensures service.table == InitialTable(old(service.table), TRANSACTION_COLUMNS)
      ensures service.remote ==
        if IsEmpty(old(service.table)) && reachable then Table(TRANSACTION_COLUMNS, []) else old(service.remote)
    {
      this.service := service;
      new;
      InitializeColumns(service, TRANSACTION_COLUMNS, reachable);
    }

    method ReadAll() returns (t: Table)
      ensures t == service.table
    {
      t := service.ReadAllData();
    }

    method Add(f: Fields) returns (ok: bool)
      modifies service`table
      ensures ok && service.table == WithRow(old(service.table), f)
    {
      ok := service.AddRow(f);
    }

    method Find(col: string, v: Value) returns (r: Option<seq<Row>>)
      ensures r == FindRows(service.table, col, v)
    {
      r := service.FindRow(col, v);
    }

    /** The transactions carrying a movement number, in table order. */
    method FindTransaction(movement: Value) returns (r: Option<seq<Row>>)
      ensures r.Some? <==> MOVEMENT in service.table.columns && AnyMatch(service.table, MOVEMENT, movement)
      ensures r.Some? ==> r.value == Matching(service.table, MOVEMENT, movement) && r.value != []
    {
      r := Find(MOVEMENT, movement);
      FindRowsSpec(service.table, MOVEMENT, movement);
    }

    method Update(col: string, v: Value, patch: Fields) returns (ok: bool)
      modifies service`table
      ensures ok == FindRows(old(service.table), col, v).Some?
      ensures service.table == if ok then Patched(old(service.table), col, v, patch) else old(service.table)
    {
      ok := service.UpdateRow(col, v, patch);
    }

    /** `update_state`: looks the movement number up first and reports false
        when it is absent; otherwise sets the remediation state of its rows. */
    method UpdateState(movement: Value, newState: string) returns (ok: bool)
      modifies service`table
      ensures ok == FindRows(old(service.table), MOVEMENT, movement).Some?
      ensures service.table ==
        if ok then Patched(old(service.table), MOVEMENT, movement, StatePatch(newState))
        else old(service.table)
    {
      var found := Find(MOVEMENT, movement);
      if found.None? || found.value == [] {
        return false;
      }
      ok := Update(MOVEMENT, movement, StatePatch(newState));
    }

    method Clear() returns (ok: bool)
      modifies service`table
      ensures ok && service.table == Cleared(old(service.table))
    {
      ok := service.ClearData();
    }

    method SaveChanges(reachable: bool) returns (ok: bool)
      modifies service`remote
      ensures ok == reachable
      ensures service.remote == if reachable then service.table else old(service.remote)
    {
      ok := service.SaveChanges(reachable);
    }

    method ReloadData(reachable: bool) returns (ok: bool)
      modifies service`table
      ensures ok == reachable
      ensures service.table == if reachable then service.remote else old(service.table)
    {
      ok := service.ReloadData(reachable);
    }
  }

  /** A message history worksheet: `WhatsAppHistoryWorksheet` with
      `idColumn` "WP ID"; the e-mail history is the same shape with
      "EMAIL ID". */
  class HistoryWorksheet {
    const service: GoogleSheetsService
    const idColumn: string

    constructor(service: GoogleSheetsService, idColumn: string, reachable: bool)
      modifies service
      ensures this.service == service && this.idColumn == idColumn
      ensures service.table == InitialTable(old(service.table), HistoryColumns(idColumn))
      ensures service.remote ==
        if IsEmpty(old(service.table)) && reachable then Table(HistoryColumns(idColumn), []) else old(service.remote)
    {
      this.service := service;
      this.idColumn := idColumn;
      new;
      InitializeColumns(service, HistoryColumns(idColumn), reachable);
    }

    method ReadAll() returns (t: Table)
      ensures t == service.table
    {
      t := service.ReadAllData();
    }

    method Add(f: Fields) returns (ok: bool)
      modifies service`table
      ensures ok && service.table == WithRow(old(service.table), f)
    {
      ok := service.AddRow(f);
    }

    method Find(col: string, v: Value) returns (r: Option<seq<Row>>)
      ensures r == FindRows(service.table, col, v)
    {
      r := service.FindRow(col, v);
    }

    method Update(col: string, v: Value, patch: Fields) returns (ok: bool)
      modifies service`table
      ensures ok == FindRows(old(service.table), col, v).Some?
      ensures service.table == if ok then Patched(old(service.table), col, v, patch) else old(service.table)
    {
      ok := service.UpdateRow(col, v, patch);
    }

    /** `add_message`: appends one row stamped with the current time `now`. */
    method AddMessage(id: string, message: string, movement: Value, now: Timestamp) returns (ok: bool)
      modifies service`table
      ensures ok
      ensures service.table == WithRow(old(service.table), HistoryEntry(idColumn, id, message, movement, now))
    {
      ok := Add(HistoryEntry(idColumn, id, message, movement, now));
    }

    method Clear() returns (ok: bool)
      modifies service`table
      ensures ok && service.table == Cleared(old(service.table))
    {
      ok := service.ClearData();
    }

    method SaveChanges(reachable: bool) returns (ok: bool)
      modifies service`remote
      ensures ok == reachable
      ensures service.remote == if reachable then service.table else old(service.remote)
    {
      ok := service.SaveChanges(reachable);
    }

    method ReloadData(reachable: bool) returns (ok: bool)
      modifies service`table
      ensures ok == reachable
      ensures service.table == if reachable then service.remote else old(service.table)
    {
      ok := service.ReloadData(reachable);
    }
  }

  /** `StatesWorksheet`: the catalogue of remediation states. */
  class StatesWorksheet {
    const service: GoogleSheetsService

    constructor(service: GoogleSheetsService, reachable: bool)
      modifies service
      ensures this.service == service
      ensures service.table == InitialTable(old(service.table), STATE_COLUMNS)
      ensures service.remote ==
        if IsEmpty(old(service.table)) && reachable then Table(STATE_COLUMNS, []) else old(service.remote)
    {
      this.service := service;
      new;
      InitializeColumns(service, STATE_COLUMNS, reachable);
    }

    method ReadAll() returns (t: Table)
      ensures t == service.table
    {
      t := service.ReadAllData();
    }

    method Add(f: Fields) returns (ok: bool)
      modifies service`table
      ensures ok && service.table == WithRow(old(service.table), f)
    {
      ok := service.AddRow(f);
    }

    method Find(col: string, v: Value) returns (r: Option<seq<Row>>)
      ensures r == FindRows(service.table, col, v)
    {
      r := service.FindRow(col, v);
    }

    method Update(col: string, v: Value, patch: Fields) returns (ok: bool)
      modifies service`table
      ensures ok == FindRows(old(service.table), col, v).Some?
      ensures service.table == if ok then Patched(old(service.table), col, v, patch) else old(service.table)
    {
      ok := service.UpdateRow(col, v, patch);
    }

    method Clear() returns (ok: bool)
      modifies service`table
      ensures ok && service.table == Cleared(old(service.table))
    {
      ok := service.ClearData();
    }

    method SaveChanges(reachable: bool) returns (ok: bool)
      modifies service`remote
      ensures ok == reachable
      ensures service.remote == if reachable then service.table else old(service.remote)
    {
      ok := service.SaveChanges(reachable);
    }

    method ReloadData(reachable: bool) returns (ok: bool)
      modifies service`table
      ensures ok == reachable
      ensures service.table == if reachable then service.remote else old(service.table)
    {
      ok := service.ReloadData(reachable);
    }
  }
}
