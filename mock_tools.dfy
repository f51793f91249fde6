/** A list-backed stand-in for the spreadsheet (a header row followed by
    data rows), a transactions handler that keeps a record list in
    lock-step with it, the patch built by its update tool, and the scope
    filter that decides whether the agent answers a query at all. */
module MockTools {
  import opened Values
  import W = Worksheets
  import D = DomainTypes

  /** A sheet row: a list of cells. */
  type SheetRow = seq<Value>

  /** The mock sheet's header, which is also the order in which a record
      is written out as a row. */
  const HEADER: seq<string> := [W.MOVEMENT, "Date", "Amount", "Description", "EMAIL ID", "WP ID", W.STATE]

  const INITIAL_DATA: seq<SheetRow> := [
    [Str(W.MOVEMENT), Str("Date"), Str("Amount"), Str("Description"), Str("EMAIL ID"), Str("WP ID"), Str(W.STATE)],
    [Str("1001"), Str("2025-01-01"), Num("100.0"), Str("Payment from client A"), Str("email-123"), Str("wp-456"), Str("Pending")],
    [Str("1002"), Str("2025-01-02"), Num("250.5"), Str("Refund to client B"), Str("email-789"), Str(""), Str("Completed")],
    [Str("1003"), Str("2025-01-03"), Num("75.0"), Str("Chargeback from client C"), Str(""), Str("wp-999"), Str("In Progress")]
  ]

  /** `dict(zip(header, row))`: the row's cells under the header's names,
      as far as both reach. */
  function Zip(row: SheetRow): (r: Row)
    ensures forall i :: 0 <= i < |row| && i < |HEADER| ==> HEADER[i] in r && r[HEADER[i]] == row[i]
    ensures forall k :: k in r ==> k in HEADER
  {
    map i | 0 <= i < |row| && i < |HEADER| :: HEADER[i] := row[i]
  }

  /** A record written out as a sheet row: its value under each header
      name, `None` where it has none. */
  function Project(r: Row): (row: SheetRow)
    ensures |row| == |HEADER|
    ensures forall i :: 0 <= i < |HEADER| ==> row[i] == Cell(r, HEADER[i])
  {
    seq(|HEADER|, i requires 0 <= i < |HEADER| => Cell(r, HEADER[i]))
  }

  /** A full-width row survives the trip into a record and back. */
  lemma ZipProject(row: SheetRow)
    requires |row| == |HEADER|
    ensures Project(Zip(row)) == row
  {
  }

  /** A sheet whose every data row is as wide as the header. */
  predicate Shaped(data: seq<SheetRow>)
  {
    |data| >= 1 && forall i :: 1 <= i < |data| ==> |data[i]| == |HEADER|
  }

  lemma InitialShaped()
    ensures Shaped(INITIAL_DATA)
  {
  }

  /** Records read from a sheet whose rows are as wide as the header write
      back out as those rows. */
  lemma ZippedInStep(data: seq<SheetRow>, ts: seq<Row>)
    requires Shaped(data) && |ts| == |data| - 1
    requires forall i :: 0 <= i < |ts| ==> ts[i] == Zip(data[i + 1])
    ensures forall i :: 0 <= i < |ts| ==> data[i + 1] == Project(ts[i])
  {
    forall i | 0 <= i < |ts|
      ensures data[i + 1] == Project(ts[i])
    {
      ZipProject(data[i + 1]);
    }
  }

  /** The record a dict update leaves: each key of `updates` set to its
      value, a later entry winning; every other key kept. */
  function Patched(r: Row, updates: Fields): Row
  {
    r + ToMap(updates)
  }

  /** A patched record holds exactly the old keys and the patch's keys;
      a key the patch names holds the patch's value, every other key its old
      value. */
  lemma PatchedSpec(r: Row, updates: Fields)
    requires DistinctKeys(updates)
    ensures forall k :: k in Patched(r, updates) <==> k in r || k in KeysOf(updates)
    ensures forall i :: 0 <= i < |updates| ==> Cell(Patched(r, updates), updates[i].0) == updates[i].1
    ensures forall k :: k !in KeysOf(updates) ==> Cell(Patched(r, updates), k) == Cell(r, k)
  {
    forall i | 0 <= i < |updates|
      ensures Cell(Patched(r, updates), updates[i].0) == updates[i].1
    {
      ToMapLookup(updates, i);
    }
  }

  /** Where the first record with movement number `m` sits. */
  function FirstIndex(ts: seq<Row>, m: Value): Option<nat>
  {
    if ts == [] then None
    else if Cell(ts[0], W.MOVEMENT) == m then Some(0)
    else match FirstIndex(ts[1..], m)
      case None => None
      case Some(i) => Some(i + 1)
  }

  /** The first index is a match with no match before it; there is none
      exactly when no record matches. */
  lemma {:induction false} FirstIndexSpec(ts: seq<Row>, m: Value)
    ensures FirstIndex(ts, m).None? <==> forall j :: 0 <= j < |ts| ==> Cell(ts[j], W.MOVEMENT) != m
    ensures FirstIndex(ts, m).Some? ==>
      var i := FirstIndex(ts, m).value;
      i < |ts| && Cell(ts[i], W.MOVEMENT) == m && forall j :: 0 <= j < i ==> Cell(ts[j], W.MOVEMENT) != m
  {
    if ts != [] && Cell(ts[0], W.MOVEMENT) != m {
      FirstIndexSpec(ts[1..], m);
      assert forall j :: 1 <= j < |ts| ==> ts[j] == ts[1..][j - 1];
    }
  }

  /** The mock `GoogleSheetsService`: the whole sheet as a list of rows. */
  class GoogleSheetsService {
    const sheetId: string
    var data: seq<SheetRow>

    constructor(sheetId: string)
      ensures this.sheetId == sheetId && data == INITIAL_DATA
    {
      this.sheetId := sheetId;
      data := INITIAL_DATA;
    }

    /** `read_sheet`: every row but the header, in order. */
    method ReadSheet() returns (rows: seq<SheetRow>)
      ensures |rows| == if data == [] then 0 else |data| - 1
      ensures forall i :: 0 <= i < |rows| ==> rows[i] == data[i + 1]
    {
      rows := if data == [] then [] else data[1..];
    }

    /** `append_row`. */
    method AppendRow(row: SheetRow)
      modifies this`data
      ensures data == old(data) + [row]
    {
      data := data + [row];
    }

    /** `update_row`: replaces row `i` when it is a data row (the header is
        row 0); otherwise fails and changes nothing. */
    method UpdateRow(i: int, row: SheetRow) returns (ok: bool)
      modifies this`data
      ensures ok <==> 1 <= i < |old(data)|
      ensures data == if ok then old(data)[i := row] else old(data)
    {
      if 1 <= i < |data| {
        data := data[i := row];
        return true;
      }
      return false;
    }
  }

  /** The mock `TransactionsWorksheet`: a record per data row. */
  class TransactionsWorksheet {
    const sheetService: GoogleSheetsService
    var transactions: seq<Row>

    /** The records and the sheet are in lock-step: one header row, then
        sheet row i+1 is record i written out. */
    predicate Valid()
      reads this, sheetService
    {
      |sheetService.data| == |transactions| + 1 &&
      forall i :: 0 <= i < |transactions| ==> sheetService.data[i + 1] == Project(transactions[i])
    }

    /** Reads the sheet's data rows into records. On a sheet whose rows are
        as wide as the header, records and rows start in lock-step. */
    constructor(sheetService: GoogleSheetsService)
      ensures this.sheetService == sheetService
      ensures sheetService.data == old(sheetService.data)
      ensures |transactions| == if sheetService.data == [] then 0 else |sheetService.data| - 1
      ensures forall i :: 0 <= i < |transactions| ==> transactions[i] == Zip(sheetService.data[i + 1])
      ensures Shaped(sheetService.data) ==> Valid()
    {
      this.sheetService := sheetService;
      var raw := sheetService.ReadSheet();
      transactions := seq(|raw|, i requires 0 <= i < |raw| => Zip(raw[i]));
      new;
      if Shaped(sheetService.data) {
        ZippedInStep(sheetService.data, transactions);
      }
    }

    /** `get_all_transactions`: the record list itself. */
    method GetAllTransactions() returns (ts: seq<Row>)
      ensures ts == transactions
    {
      ts := transactions;
    }

    /** `find_transaction`: the first record whose movement number is `m`,
        or nothing when no record has it. */
    method FindTransaction(m: Value) returns (r: Option<Row>)
      ensures r.None? <==> forall j :: 0 <= j < |transactions| ==> Cell(transactions[j], W.MOVEMENT) != m
      ensures r.Some? ==> (exists i :: 0 <= i < |transactions| && r.value == transactions[i] &&
                            Cell(transactions[i], W.MOVEMENT) == m &&
                            forall j :: 0 <= j < i ==> Cell(transactions[j], W.MOVEMENT) != m)
    {
      for i := 0 to |transactions|
        invariant forall j :: 0 <= j < i ==> Cell(transactions[j], W.MOVEMENT) != m
      {
        if Cell(transactions[i], W.MOVEMENT) == m {
          return Some(transactions[i]);
        }
      }
      return None;
    }

    /** `add_transaction`: the record is appended to the list and, written
        out, to the sheet; lock-step is kept. */
    method AddTransaction(t: Row) returns (ok: bool)
      requires Valid()
      modifies this`transactions, sheetService`data
      ensures Valid() && ok
      ensures transactions == old(transactions) + [t]
      ensures sheetService.data == old(sheetService.data) + [Project(t)]
    {
      transactions := transactions + [t];
      sheetService.AppendRow(Project(t));
      return true;
    }

    /** `update_transaction`: only the first record with movement number
        `m` is patched, and its sheet row rewritten; without such a record
        nothing changes. Lock-step is kept. */
    method UpdateTransaction(m: Value, updates: Fields) returns (ok: bool)
      requires Valid()
      modifies this`transactions, sheetService`data
      ensures Valid()
      ensures ok <==> FirstIndex(old(transactions), m).Some?
      ensures ok ==> var i := FirstIndex(old(transactions), m).value;
        && i < |old(transactions)|
        && transactions == old(transactions)[i := Patched(old(transactions)[i], updates)]
        && sheetService.data == old(sheetService.data)[i + 1 := Project(transactions[i])]
      ensures !ok ==> transactions == old(transactions) && sheetService.data == old(sheetService.data)
    {
      FirstIndexSpec(transactions, m);
      var idx := 0;
      while idx < |transactions|
        invariant 0 <= idx <= |transactions|
        invariant transactions == old(transactions) && sheetService.data == old(sheetService.data)
        invariant forall j :: 0 <= j < idx ==> Cell(transactions[j], W.MOVEMENT) != m
      {
        var tx := transactions[idx];
        if Cell(tx, W.MOVEMENT) == m {
          var k := 0;
          while k < |updates|
            invariant 0 <= k <= |updates|
            invariant transactions == old(transactions) && sheetService.data == old(sheetService.data)
            invariant tx == Patched(transactions[idx], updates[..k])
          {
            PatchStep(transactions[idx], updates, k);
            tx := tx[updates[k].0 := updates[k].1];
            k := k + 1;
          }
          assert updates[..k] == updates;
          transactions := transactions[idx := tx];
          var _ := sheetService.UpdateRow(idx + 1, Project(tx));
          return true;
        }
        idx := idx + 1;
      }
      return false;
    }

    /** `update_status`: an update whose patch sets only the remediation
        state. */
    method UpdateStatus(m: Value, newStatus: string) returns (ok: bool)
      requires Valid()
      modifies this`transactions, sheetService`data
      ensures Valid()
      ensures ok <==> FirstIndex(old(transactions), m).Some?
      ensures ok ==> var i := FirstIndex(old(transactions), m).value;
        && i < |old(transactions)|
        && transactions == old(transactions)[i := old(transactions)[i][W.STATE := Str(newStatus)]]
        && sheetService.data == old(sheetService.data)[i + 1 := Project(transactions[i])]
      ensures !ok ==> transactions == old(transactions) && sheetService.data == old(sheetService.data)
    {
      ghost var ts := transactions;
      ok := UpdateTransaction(m, [(W.STATE, Str(newStatus))]);
      if ok {
        StatusPatch(ts[FirstIndex(ts, m).value], newStatus);
      }
    }
  }

  /** One more dict entry applied to a patched record. */
  lemma PatchStep(r: Row, updates: Fields, k: nat)
    requires k < |updates|
    ensures Patched(r, updates[..k + 1]) == Patched(r, updates[..k])[updates[k].0 := updates[k].1]
  {
    assert updates[..k + 1][..k] == updates[..k];
  }

  /** The status patch sets the state and nothing else. */
  lemma StatusPatch(r: Row, newStatus: string)
    ensures Patched(r, [(W.STATE, Str(newStatus))]) == r[W.STATE := Str(newStatus)]
  {
    var f := [(W.STATE, Str(newStatus))];
    assert f[..0] == [];
  }

  /** The update tool's input: the movement number, and each field either
      given or not. */
  datatype UpdateInput = UpdateInput(
    movementNumber: string, date: Option<string>, amount: Option<Value>, description: Option<string>,
    emailId: Option<string>, wpId: Option<string>, state: Option<string>)

  function Given(v: Option<string>): Option<Value>
  {
    if v.Some? then Some(Str(v.value)) else None
  }

  /** The tool's optional fields under the column each one patches. */
  function Supplied(input: UpdateInput): seq<(string, Option<Value>)>
  {
    [("Date", Given(input.date)), ("Amount", input.amount), ("Description", Given(input.description)),
     ("EMAIL ID", Given(input.emailId)), ("WP ID", Given(input.wpId)), (W.STATE, Given(input.state))]
  }

  /** `update_transaction_func`'s patch: one entry per field that was
      given. */
  function UpdatesOf(input: UpdateInput): Fields
  {
    Entries(Supplied(input))
  }

  /** The patch names each column at most once, holds a column exactly
      when its field was given, and maps it to the given value. */
  lemma UpdatesOfSpec(input: UpdateInput)
    ensures DistinctKeys(UpdatesOf(input))
    ensures forall k :: k in ToMap(UpdatesOf(input)) <==>
      exists j :: 0 <= j < 6 && Supplied(input)[j].0 == k && Supplied(input)[j].1.Some?
    ensures forall j :: 0 <= j < 6 && Supplied(input)[j].1.Some? ==>
      Supplied(input)[j].0 in ToMap(UpdatesOf(input)) &&
      ToMap(UpdatesOf(input))[Supplied(input)[j].0] == Supplied(input)[j].1.value
  {
    EntriesLookup(Supplied(input));
  }

  /** The update tool: the patch is applied to the first record with the
      given movement number, and the reply says whether there was one. */
  method UpdateTransactionTool(ws: TransactionsWorksheet, input: UpdateInput) returns (reply: string)
    requires ws.Valid()
    modifies ws`transactions, ws.sheetService`data
    ensures ws.Valid()
    ensures var i := FirstIndex(old(ws.transactions), Str(input.movementNumber));
      i.Some? ==>
        && i.value < |old(ws.transactions)|
        && ws.transactions == old(ws.transactions)[i.value := Patched(old(ws.transactions)[i.value], UpdatesOf(input))]
        && ws.sheetService.data == old(ws.sheetService.data)[i.value + 1 := Project(ws.transactions[i.value])]
    ensures FirstIndex(old(ws.transactions), Str(input.movementNumber)).None? ==>
      ws.transactions == old(ws.transactions) && ws.sheetService.data == old(ws.sheetService.data)
    ensures reply == if FirstIndex(old(ws.transactions), Str(input.movementNumber)).Some?
      then "Transaction " + input.movementNumber + " updated successfully."
      else "Transaction " + input.movementNumber + " not found."
  {
    var success := ws.UpdateTransaction(Str(input.movementNumber), UpdatesOf(input));
    reply := if success then "Transaction " + input.movementNumber + " updated successfully."
             else "Transaction " + input.movementNumber + " not found.";
  }

  /** ASCII lower-casing. */
  function LowerChar(c: char): char
  {
    if 'A' <= c <= 'Z' then (c as int + 32) as char else c
  }

  function Lower(s: string): (r: string)
    ensures |r| == |s| && forall i :: 0 <= i < |s| ==> r[i] == LowerChar(s[i])
  {
    seq(|s|, i requires 0 <= i < |s| => LowerChar(s[i]))
  }

  /** `sub` occurs in `s` at position `i`. */
  predicate OccursAt(s: string, sub: string, i: int)
  {
    0 <= i <= |s| - |sub| && s[i..i + |sub|] == sub
  }

  /** Python's `sub in s`. */
  predicate Contains(s: string, sub: string)
  {
    exists i | 0 <= i <= |s| - |sub| :: OccursAt(s, sub, i)
  }

  /** Python truth of a cell: a non-empty text, a non-zero integer; a float
      is taken as true; a missing value is false. */
  predicate Truthy(v: Value)
  {
    match v
    case Str(s) => s != ""
    case Int(i) => i != 0
    case Num(_) => true
    case Null => false
  }

  const KEYWORD_COLUMNS: seq<string> := [W.MOVEMENT, "EMAIL ID", "WP ID"]

  /** The keywords one record contributes: its movement number, e-mail
      identifier and WhatsApp identifier, those that are set, lower-cased. */
  function KeywordsOf(t: Row): set<string>
  {
    set c | c in KEYWORD_COLUMNS && Truthy(Cell(t, c)) :: Lower(D.Text(Cell(t, c)))
  }

  /** The keyword one identifier column of a record contributes, if set. */
  function Keyword(t: Row, c: string): set<string>
  {
    if Truthy(Cell(t, c)) then {Lower(D.Text(Cell(t, c)))} else {}
  }

  /** A record's keywords are those of its three identifier columns. */
  lemma KeywordsOfColumns(t: Row)
    ensures KeywordsOf(t) == Keyword(t, W.MOVEMENT) + Keyword(t, "EMAIL ID") + Keyword(t, "WP ID")
  {
  }

  /** The keywords of a record list: those of each of its records. */
  function Keywords(ts: seq<Row>): set<string>
  {
    if ts == [] then {} else Keywords(ts[..|ts| - 1]) + KeywordsOf(ts[|ts| - 1])
  }

  /** A keyword is the lower-cased identifier of some record. */
  lemma {:induction false} KeywordsSpec(ts: seq<Row>, k: string)
    ensures k in Keywords(ts) <==>
      exists i, c :: 0 <= i < |ts| && c in KEYWORD_COLUMNS && Truthy(Cell(ts[i], c)) && k == Lower(D.Text(Cell(ts[i], c)))
  {
    if ts != [] {
      var n := |ts| - 1;
      KeywordsSpec(ts[..n], k);
      assert forall i :: 0 <= i < n ==> ts[..n][i] == ts[i];
      if k in Keywords(ts) && k !in Keywords(ts[..n]) {
        var c :| c in KEYWORD_COLUMNS && Truthy(Cell(ts[n], c)) && k == Lower(D.Text(Cell(ts[n], c)));
      }
    }
  }

  /** `is_transaction_related`: the lower-cased query mentions a
      transaction, a movement, or one of the keywords. */
  predicate Related(keywords: set<string>, query: string)
  {
    var q := Lower(query);
    Contains(q, "transaction") || Contains(q, "movimiento") || exists k :: k in keywords && Contains(q, k)
  }

  lemma LowerIdempotent(s: string)
    ensures Lower(Lower(s)) == Lower(s)
  {
  }

  /** The filter ignores case. */
  lemma RelatedIgnoresCase(keywords: set<string>, query: string)
    ensures Related(keywords, query) <==> Related(keywords, Lower(query))
  {
    LowerIdempotent(query);
  }

  /** A query that names a record's identifier, in any case, is in scope. */
  lemma RelatedWhenNamed(ts: seq<Row>, query: string, i: nat, c: string)
    requires i < |ts| && c in KEYWORD_COLUMNS && Truthy(Cell(ts[i], c))
    requires Contains(Lower(query), Lower(D.Text(Cell(ts[i], c))))
    ensures Related(Keywords(ts), query)
  {
    KeywordsSpec(ts, Lower(D.Text(Cell(ts[i], c))));
  }

  /** One guarded `allowed_keywords.add(str(value).lower())`: done only
      when the column is set. */
  method AddKeyword(keywords: set<string>, t: Row, c: string) returns (r: set<string>)
    ensures r == keywords + Keyword(t, c)
  {
    r := keywords;
    if Truthy(Cell(t, c)) {
      r := r + {Lower(D.Text(Cell(t, c)))};
    }
  }

  /** The constructor's loop: each record's movement number, email id and
      WhatsApp id, when set, lower-cased into the keyword set. */
  method CollectKeywords(ts: seq<Row>) returns (keywords: set<string>)
    ensures keywords == Keywords(ts)
  {
    keywords := {};
    for i := 0 to |ts|
      invariant keywords == Keywords(ts[..i])
    {
      var tx := ts[i];
      KeywordsOfColumns(tx);
      keywords := AddKeyword(keywords, tx, W.MOVEMENT);
      keywords := AddKeyword(keywords, tx, "EMAIL ID");
      keywords := AddKeyword(keywords, tx, "WP ID");
      assert ts[..i + 1][..i] == ts[..i];
    }
    assert ts[..|ts|] == ts;
  }

  const REFUSAL := "I'm sorry, but I can only assist with transaction-related queries and linked client conversations."

  /** The `GeminiTextAgent` scope gate. The language-model chain is not
      part of this model: its answer is a parameter. */
  class GeminiTextAgent {
    const transactionsWs: TransactionsWorksheet
    var allowedKeywords: set<string>

    /** Collects the keywords of the records present at construction. */
    constructor(transactionsWs: TransactionsWorksheet)
      ensures this.transactionsWs == transactionsWs
      ensures allowedKeywords == Keywords(transactionsWs.transactions)
    {
      var keywords := CollectKeywords(transactionsWs.transactions);
      this.transactionsWs := transactionsWs;
      allowedKeywords := keywords;
    }

    /** `is_transaction_related`. */
    method IsTransactionRelated(query: string) returns (related: bool)
      ensures related <==> Related(allowedKeywords, query)
    {
      var q := Lower(query);
      if Contains(q, "transaction") || Contains(q, "movimiento") {
        return true;
      }
      related := exists k :: k in allowedKeywords && Contains(q, k);
    }

    /** `run`: an out-of-scope query is refused without consulting the
        chain; an in-scope query gets the chain's answer. */
    method Run(query: string, chainAnswer: string) returns (reply: string, consulted: bool)
      ensures consulted <==> Related(allowedKeywords, query)
      ensures reply == if consulted then chainAnswer else REFUSAL
    {
      var related := IsTransactionRelated(query);
      if !related {
        return REFUSAL, false;
      }
      return chainAnswer, true;
    }
  }
}
