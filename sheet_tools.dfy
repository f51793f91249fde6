/** The agent's transaction tools: building the row an added transaction
    gets, building the column patch of an update from the fields the caller
    filled in, and the replies that report what the store answered. */
module SheetTools {
  import opened Values
  import opened SheetsService
  import opened DateFormat
  import opened Worksheets

  /** The add tool's input. The amount is a cell value: whatever number
      the caller gave, or the integer default 0. */
  datatype AddInput = AddInput(
    date: string, concept: string, movementNumber: int, reference: string, amount: Value,
    query: string, email: string, cellphone: string, sender: string, state: string,
    emailId: string, wpId: string, filePath: string)

  /** The input fields in the order of the transactions header. */
  function AddValues(input: AddInput): seq<Value>
  {
    [Str(input.date), Str(input.concept), Int(input.movementNumber), Str(input.reference), input.amount,
     Str(input.query), Str(input.email), Str(input.cellphone), Str(input.sender), Str(input.state),
     Str(input.emailId), Str(input.wpId), Str(input.filePath)]
  }

  /** The transaction `add_transaction_func` stores: one entry per column of
      the transactions header, in header order. */
  function NewTransaction(input: AddInput): Fields
  {
    Pairs(TRANSACTION_COLUMNS, AddValues(input))
  }

  /** The stored transaction names exactly the thirteen transaction
      columns, in header order and each once, and each column holds its own
      input field. */
  lemma NewTransactionSpec(input: AddInput)
    ensures KeysOf(NewTransaction(input)) == TRANSACTION_COLUMNS
    ensures DistinctKeys(NewTransaction(input))
    ensures var r := ToMap(NewTransaction(input));
      && r.Keys == set c | c in TRANSACTION_COLUMNS
      && (forall i :: 0 <= i < 13 ==> r[TRANSACTION_COLUMNS[i]] == AddValues(input)[i])
  {
    HeadersDistinct();
    PairsLookup(TRANSACTION_COLUMNS, AddValues(input));
  }

  /** "Transaction <n> <what>" as the tools word their replies. */
  function Reply(movementNumber: int, what: string): string
  {
    "Transaction " + IntText(movementNumber) + " " + what
  }

  /** `add_transaction_func`: the new transaction is appended to the store
      and the reply reports the store's answer. */
  method AddTransactionTool(ws: TransactionsWorksheet, input: AddInput) returns (reply: string)
    modifies ws.service`table
    ensures ws.service.table == WithRow(old(ws.service.table), NewTransaction(input))
    ensures reply == Reply(input.movementNumber, "added successfully.")
  {
    var added := ws.Add(NewTransaction(input));
    reply := if added then Reply(input.movementNumber, "added successfully.")
             else Reply(input.movementNumber, "not added.");
  }

  /** The update tool's input. Text fields default to the empty text, the
      movement number to 0 and the amount to the integer 0. */
  datatype UpdateInput = UpdateInput(
    columnToSearch: string, valueToSearch: string,
    date: string, concept: string, movementNumber: int, reference: string, amount: Value,
    query: string, email: string, cellphone: string, sender: string, state: string,
    emailId: string, wpId: string, filePath: string)

  /** A text field counts as given when it is not empty. */
  function NonEmpty(s: string): Option<Value>
  {
    if s != "" then Some(Str(s)) else None
  }

  /** Which column each field patches, and whether it is given: a text
      field when non-empty, the amount when it is a float, and the movement
      number always, since every integer passes `isinstance(_, int)`. The
      date is keyed "Date", a column the transactions header does not
      have. */
  function UpdateFields(input: UpdateInput): seq<(string, Option<Value>)>
  {
    [("Date", NonEmpty(input.date)), ("Concepto", NonEmpty(input.concept)),
     (MOVEMENT, Some(Int(input.movementNumber))), ("Referencia", NonEmpty(input.reference)),
     ("Monto", if input.amount.Num? then Some(input.amount) else None),
     ("QUERY", NonEmpty(input.query)), ("CORREO", NonEmpty(input.email)),
     ("TELEFONO", NonEmpty(input.cellphone)), ("REMITENTE", NonEmpty(input.sender)),
     (STATE, NonEmpty(input.state)), ("EMAIL ID", NonEmpty(input.emailId)),
     ("WP ID", NonEmpty(input.wpId)), ("ARCHIVO", NonEmpty(input.filePath))]
  }

  /** The patch: one entry per given field, in field order. */
  function UpdatesOf(input: UpdateInput): Fields
  {
    Entries(UpdateFields(input))
  }

  /** Thirteen optional entries, gathered one after the other. */
  lemma EntriesOfThirteen(l: seq<(string, Option<Value>)>)
    requires |l| == 13
    ensures Entries(l) == [] + Entry(l[0]) + Entry(l[1]) + Entry(l[2]) + Entry(l[3]) + Entry(l[4]) + Entry(l[5]) +
                          Entry(l[6]) + Entry(l[7]) + Entry(l[8]) + Entry(l[9]) + Entry(l[10]) + Entry(l[11]) + Entry(l[12])
  {
    GatheredFirst(l);
    GatheredMiddle(l);
    GatheredLast(l);
    GatheredAll(l);
  }

  /** The first four fields, gathered one after the other. */
  lemma GatheredFirst(l: seq<(string, Option<Value>)>)
    requires |l| == 13
    ensures Gathered(l, 4) == [] + Entry(l[0]) + Entry(l[1]) + Entry(l[2]) + Entry(l[3])
  {
    assert Gathered(l, 2) == Gathered(l, 1) + Entry(l[1]);
    assert Gathered(l, 3) == Gathered(l, 2) + Entry(l[2]);
    assert Gathered(l, 4) == Gathered(l, 3) + Entry(l[3]);
  }

  /** The next four. */
  lemma GatheredMiddle(l: seq<(string, Option<Value>)>)
    requires |l| == 13
    ensures Gathered(l, 8) == Gathered(l, 4) + Entry(l[4]) + Entry(l[5]) + Entry(l[6]) + Entry(l[7])
  {
    assert Gathered(l, 6) == Gathered(l, 5) + Entry(l[5]);
    assert Gathered(l, 7) == Gathered(l, 6) + Entry(l[6]);
    assert Gathered(l, 8) == Gathered(l, 7) + Entry(l[7]);
  }

  /** The last five. */
  lemma GatheredLast(l: seq<(string, Option<Value>)>)
    requires |l| == 13
    ensures Gathered(l, 13) == Gathered(l, 8) + Entry(l[8]) + Entry(l[9]) + Entry(l[10]) + Entry(l[11]) + Entry(l[12])
  {
    assert Gathered(l, 10) == Gathered(l, 9) + Entry(l[9]);
    assert Gathered(l, 11) == Gathered(l, 10) + Entry(l[10]);
    assert Gathered(l, 12) == Gathered(l, 11) + Entry(l[11]);
    assert Gathered(l, 13) == Gathered(l, 12) + Entry(l[12]);
  }

  /** One guarded assignment `updates[key] = value`: done only when the
      field was given. */
  method Put(updates: Fields, key: string, given: Option<Value>) returns (r: Fields)
    ensures r == updates + Entry((key, given))
  {
    r := updates;
    if given.Some? {
      r := r + [(key, given.value)];
    }
  }

  /** `update_transaction_func`'s `updates` dict, filled key by key. */
  method BuildUpdates(input: UpdateInput) returns (updates: Fields)
    ensures updates == UpdatesOf(input)
  {
    updates := [];
    updates := Put(updates, "Date", NonEmpty(input.date));
    updates := Put(updates, "Concepto", NonEmpty(input.concept));
    updates := Put(updates, MOVEMENT, Some(Int(input.movementNumber)));
    updates := Put(updates, "Referencia", NonEmpty(input.reference));
    updates := Put(updates, "Monto", if input.amount.Num? then Some(input.amount) else None);
    updates := Put(updates, "QUERY", NonEmpty(input.query));
    updates := Put(updates, "CORREO", NonEmpty(input.email));
    updates := Put(updates, "TELEFONO", NonEmpty(input.cellphone));
    updates := Put(updates, "REMITENTE", NonEmpty(input.sender));
    updates := Put(updates, STATE, NonEmpty(input.state));
    updates := Put(updates, "EMAIL ID", NonEmpty(input.emailId));
    updates := Put(updates, "WP ID", NonEmpty(input.wpId));
    updates := Put(updates, "ARCHIVO", NonEmpty(input.filePath));
    UpdatesOfSpelled(input);
  }

  /** The patch, one field after the other. */
  lemma UpdatesOfSpelled(input: UpdateInput)
    ensures UpdatesOf(input) == [] + Entry(("Date", NonEmpty(input.date))) + Entry(("Concepto", NonEmpty(input.concept)))
      + Entry((MOVEMENT, Some(Int(input.movementNumber)))) + Entry(("Referencia", NonEmpty(input.reference)))
      + Entry(("Monto", if input.amount.Num? then Some(input.amount) else None))
      + Entry(("QUERY", NonEmpty(input.query))) + Entry(("CORREO", NonEmpty(input.email)))
      + Entry(("TELEFONO", NonEmpty(input.cellphone))) + Entry(("REMITENTE", NonEmpty(input.sender)))
      + Entry((STATE, NonEmpty(input.state))) + Entry(("EMAIL ID", NonEmpty(input.emailId)))
      + Entry(("WP ID", NonEmpty(input.wpId))) + Entry(("ARCHIVO", NonEmpty(input.filePath)))
  {
    EntriesOfThirteen(UpdateFields(input));
  }

  /** Each field is in the patch exactly when it is given, and then
      holds the given value: the column names none of the other fields
      use. */
  lemma UpdatesSpec(input: UpdateInput, j: nat)
    requires j < |UpdateFields(input)|
    ensures var f := UpdateFields(input)[j]; var u := ToMap(UpdatesOf(input));
      && (f.0 in u <==> f.1.Some?)
      && (f.1.Some? ==> u[f.0] == f.1.value)
  {
    var l := UpdateFields(input);
    assert forall i, j :: 0 <= i < j < |l| ==> l[i].0 != l[j].0;
    EntryAt(l, j);
  }

  /** The movement number is always patched, and with the integer given. */
  lemma UpdatesMovement(input: UpdateInput)
    ensures var u := ToMap(UpdatesOf(input));
      MOVEMENT in u && u[MOVEMENT] == Int(input.movementNumber)
  {
    UpdatesSpec(input, 2);
  }

  /** The date is patched under "Date" when given, never under 'Fecha'. */
  lemma UpdatesDate(input: UpdateInput)
    ensures var u := ToMap(UpdatesOf(input));
      && FECHA !in u
      && ("Date" in u <==> input.date != "") && ("Date" in u ==> u["Date"] == Str(input.date))
  {
    UpdatesSpec(input, 0);
    EntryAbsent(UpdateFields(input), FECHA);
  }

  /** The amount is patched exactly when it is a float; the remediation
      state exactly when it is non-empty. */
  lemma UpdatesAmountAndState(input: UpdateInput)
    ensures var u := ToMap(UpdatesOf(input));
      && ("Monto" in u <==> input.amount.Num?) && ("Monto" in u ==> u["Monto"] == input.amount)
      && (STATE in u <==> input.state != "") && (STATE in u ==> u[STATE] == Str(input.state))
  {
    UpdatesSpec(input, 4);
    UpdatesSpec(input, 9);
  }

  /** `update_transaction_func`: the store is asked to update only when both
      the search column and the search value are given; the reply reports
      success only when it did update. */
  method UpdateTransactionTool(ws: TransactionsWorksheet, input: UpdateInput) returns (reply: string)
    modifies ws.service`table
    ensures var asked := input.columnToSearch != "" && input.valueToSearch != "";
      var success := asked && FindRows(old(ws.service.table), input.columnToSearch, Str(input.valueToSearch)).Some?;
      && ws.service.table == (if success
          then Patched(old(ws.service.table), input.columnToSearch, Str(input.valueToSearch), UpdatesOf(input))
          else old(ws.service.table))
      && reply == Reply(input.movementNumber, if success then "updated successfully." else "not found.")
  {
    var updates := BuildUpdates(input);
    var success := false;
    if input.columnToSearch != "" && input.valueToSearch != "" {
      success := ws.Update(input.columnToSearch, Str(input.valueToSearch), updates);
    }
    reply := if success then Reply(input.movementNumber, "updated successfully.")
             else Reply(input.movementNumber, "not found.");
  }

  /** `update_state_func`: the reply names the new status exactly when the
      state update succeeded. */
  method UpdateStateTool(ws: TransactionsWorksheet, movementNumber: int, newStatus: string) returns (reply: string)
    modifies ws.service`table
    ensures var success := FindRows(old(ws.service.table), MOVEMENT, Int(movementNumber)).Some?;
      && ws.service.table == (if success
          then Patched(old(ws.service.table), MOVEMENT, Int(movementNumber), StatePatch(newStatus))
          else old(ws.service.table))
      && reply == (if success then Reply(movementNumber, "status updated to '" + newStatus + "'.")
                   else Reply(movementNumber, "not found."))
  {
    var success := ws.UpdateState(Int(movementNumber), newStatus);
    reply := if success then Reply(movementNumber, "status updated to '" + newStatus + "'.")
             else Reply(movementNumber, "not found.");
  }
}
