/** The spreadsheet upload endpoint: the uploaded transactions whose movement
    number is not yet recorded are split by their QUERY code, stamped with a
    remediation state, appended to the transactions worksheet and saved. */
module FileProcessor {
  import opened Values
  import opened Seqs
  import opened SheetsService
  import opened Worksheets
  import opened TransactionSheet
  import opened XlsxParser

  const QUERY := "QUERY"

  // ---------------------------------------------------------------------
  // Classification and the rows written
  // ---------------------------------------------------------------------

  /** The mask `df['QUERY'] == q`. */
  function QueryIs(q: int): Row -> bool
  {
    (r: Row) => Cell(r, QUERY) == Int(q)
  }

  /** The mask `~df['QUERY'].isin([2, 3])`. */
  function QueryOther(): Row -> bool
  {
    (r: Row) => Cell(r, QUERY) != Int(2) && Cell(r, QUERY) != Int(3)
  }

  /** The remediation state an uploaded transaction starts in: protocols 2B
      and 3C start in process, everything else is left unprocessed. */
  function StateFor(r: Row): string
  {
    if Cell(r, QUERY) == Int(2) || Cell(r, QUERY) == Int(3) then EN_PROCESO else NO_PROCESADO
  }

  /** The order in which new transactions are appended: the 2B bucket, then
      the 3C bucket, then the rest, each in upload order. */
  function Order(rows: seq<Row>): seq<Row>
  {
    Filter(rows, QueryIs(2)) + Filter(rows, QueryIs(3)) + Filter(rows, QueryOther())
  }

  /** `row.to_dict()` for a frame with header `cols`: every column of the
      frame, NaN cells included. */
  function RowFields(cols: seq<string>, r: Row): Fields
  {
    seq(|cols|, i requires 0 <= i < |cols| => (cols[i], Cell(r, cols[i])))
  }

  /** The header of a bucket frame once its state column is assigned. */
  function StampedColumns(cols: seq<string>): seq<string>
  {
    Extend(cols, [STATE])
  }

  /** The dicts written for one bucket frame whose state column was set to
      `state`. */
  function Stamped(cols: seq<string>, rows: seq<Row>, state: string): seq<Fields>
  {
    seq(|rows|, i requires 0 <= i < |rows| => RowFields(StampedColumns(cols), rows[i][STATE := Str(state)]))
  }

  /** The table after `add_row` of each dict in turn. */
  function AddAll(t: Table, fs: seq<Fields>): Table
  {
    if fs == [] then t else WithRow(AddAll(t, fs[..|fs| - 1]), fs[|fs| - 1])
  }

  /** The dicts `fs` as rows, one per dict. */
  function Maps(fs: seq<Fields>): (rows: seq<Row>)
    ensures |rows| == |fs|
    ensures forall j :: 0 <= j < |fs| ==> rows[j] == ToMap(fs[j])
  {
    if fs == [] then [] else Maps(fs[..|fs| - 1]) + [ToMap(fs[|fs| - 1])]
  }

  /** What a stored row written for the uploaded row `x` holds in column
      `c`, when the upload's header is `cols`. */
  function Expected(cols: seq<string>, x: Row, c: string): Value
  {
    if c == STATE then Str(StateFor(x)) else if c in cols then Cell(x, c) else Null
  }

  // ---------------------------------------------------------------------
  // The ingestion, as a function of the stored and the uploaded table
  // ---------------------------------------------------------------------

  /** The uploaded transactions left after dropping those already stored;
      the check is skipped when the stored table is empty. Nothing when a
      movement-number column is missing (a KeyError). */
  function Deduped(existing: Table, incoming: Table): Option<Table>
  {
    if IsEmpty(existing) then Some(incoming) else NewRows(incoming, existing, MOVEMENT)
  }

  datatype Summary = Summary(total: nat, protocol2b: nat, protocol3c: nat, noProcesado: nat)

  datatype Ingestion = Failed | NothingNew | Added(table: Table, summary: Summary)

  /** The dicts an upload appends for its new transactions `d`: the 2B
      frame, the 3C frame and the rest, each with its state column set. */
  function Appended(d: Table): seq<Fields>
  {
    Stamped(d.columns, Filter(d.rows, QueryIs(2)), EN_PROCESO) +
    Stamped(d.columns, Filter(d.rows, QueryIs(3)), EN_PROCESO) +
    Stamped(d.columns, Filter(d.rows, QueryOther()), NO_PROCESADO)
  }

  /** The summary reported for the new transactions `d`. */
  function Counts(d: Table): Summary
  {
    Summary(|d.rows|, |Filter(d.rows, QueryIs(2))|, |Filter(d.rows, QueryIs(3))|, |Filter(d.rows, QueryOther())|)
  }

  /** The stored table and the counts an upload leads to. */
  function Ingest(existing: Table, incoming: Table): Ingestion
  {
    match Deduped(existing, incoming)
    case None => Failed
    case Some(d) =>
      if IsEmpty(d) then NothingNew
      else if QUERY !in d.columns then Failed
      else Added(AddAll(existing, Appended(d)), Counts(d))
  }

  // ---------------------------------------------------------------------
  // Properties
  // ---------------------------------------------------------------------

  /** A dict made from a row under a header has the header as its keys and,
      for each column of the header, the row's cell. */
  lemma {:induction false} RowFieldsSpec(cols: seq<string>, r: Row)
    ensures KeysOf(RowFields(cols, r)) == cols
    ensures forall c :: Cell(ToMap(RowFields(cols, r)), c) == if c in cols then Cell(r, c) else Null
  {
    var f := RowFields(cols, r);
    assert KeysOf(f) == cols;
    if cols != [] {
      var n := |cols| - 1;
      RowFieldsSpec(cols[..n], r);
      assert f[..n] == RowFields(cols[..n], r);
      assert cols == cols[..n] + [cols[n]];
    }
  }

  /** The dicts `fs` write the uploaded rows `src`, one dict per row, under
      the header `cols` plus the state column: each holds the row's cells,
      the state its QUERY calls for, and NaN elsewhere. */
  ghost predicate Writes(cols: seq<string>, src: seq<Row>, fs: seq<Fields>)
  {
    && |fs| == |src|
    && (forall j :: 0 <= j < |fs| ==> KeysOf(fs[j]) == StampedColumns(cols))
    && (forall j, c :: 0 <= j < |fs| ==> Cell(ToMap(fs[j]), c) == Expected(cols, src[j], c))
  }

  /** A bucket whose rows all call for `state` is written by its stamped
      dicts. */
  lemma StampedSpec(cols: seq<string>, rows: seq<Row>, state: string)
    requires forall i :: 0 <= i < |rows| ==> StateFor(rows[i]) == state
    ensures Writes(cols, rows, Stamped(cols, rows, state))
  {
    var sc := StampedColumns(cols);
    forall k | 0 <= k < |rows|
      ensures KeysOf(Stamped(cols, rows, state)[k]) == sc
      ensures forall c :: Cell(ToMap(Stamped(cols, rows, state)[k]), c) == Expected(cols, rows[k], c)
    {
      RowFieldsSpec(sc, rows[k][STATE := Str(state)]);
    }
  }

  lemma WritesAppend(cols: seq<string>, a: seq<Row>, fa: seq<Fields>, b: seq<Row>, fb: seq<Fields>)
    requires Writes(cols, a, fa) && Writes(cols, b, fb)
    ensures Writes(cols, a + b, fa + fb)
  {
    forall j | 0 <= j < |fa + fb|
      ensures KeysOf((fa + fb)[j]) == StampedColumns(cols)
      ensures forall c :: Cell(ToMap((fa + fb)[j]), c) == Expected(cols, (a + b)[j], c)
    {
      if j < |fa| {
        assert (fa + fb)[j] == fa[j] && (a + b)[j] == a[j];
      } else {
        assert (fa + fb)[j] == fb[j - |fa|] && (a + b)[j] == b[j - |fa|];
      }
    }
  }

  /** Adding dicts one after another appends one row per dict, in order. */
  lemma {:induction false} AddAllRows(t: Table, fs: seq<Fields>)
    ensures AddAll(t, fs).rows == t.rows + Maps(fs)
  {
    if fs != [] {
      var n := |fs| - 1;
      AddAllRows(t, fs[..n]);
      assert AddAll(t, fs).rows == AddAll(t, fs[..n]).rows + [ToMap(fs[n])];
      assert Maps(fs) == Maps(fs[..n]) + [ToMap(fs[n])];
    }
  }

  /** Adding dicts keeps every column already there and adds every key of
      the dicts. */
  lemma {:induction false} AddAllColumns(t: Table, fs: seq<Fields>)
    ensures forall c :: c in t.columns ==> c in AddAll(t, fs).columns
    ensures forall j, c :: 0 <= j < |fs| && c in KeysOf(fs[j]) ==> c in AddAll(t, fs).columns
  {
    if fs != [] {
      var n := |fs| - 1;
      AddAllColumns(t, fs[..n]);
      var u := AddAll(t, fs[..n]);
      assert AddAll(t, fs).columns == Extend(u.columns, KeysOf(fs[n]));
      forall j, c | 0 <= j < |fs| && c in KeysOf(fs[j]) ensures c in AddAll(t, fs).columns {
        if j < n {
          assert fs[..n][j] == fs[j];
        }
      }
    }
  }

  lemma {:induction false} AddAllAppend(t: Table, a: seq<Fields>, b: seq<Fields>)
    ensures AddAll(AddAll(t, a), b) == AddAll(t, a + b)
  {
    if b == [] {
      assert a + b == a;
    } else {
      var n := |b| - 1;
      AddAllAppend(t, a, b[..n]);
      assert (a + b)[..|a + b| - 1] == a + b[..n];
    }
  }

  /** The three buckets partition the new transactions: their sizes add up
      and together they hold every new transaction exactly once; each bucket
      holds only rows of its QUERY code. */
  lemma OrderIsPartition(rows: seq<Row>)
    ensures var b2, b3, bo := Filter(rows, QueryIs(2)), Filter(rows, QueryIs(3)), Filter(rows, QueryOther());
      && |b2| + |b3| + |bo| == |rows|
      && Order(rows) == b2 + b3 + bo
      && multiset(Order(rows)) == multiset(rows)
      && (forall i :: 0 <= i < |b2| ==> Cell(b2[i], QUERY) == Int(2))
      && (forall i :: 0 <= i < |b3| ==> Cell(b3[i], QUERY) == Int(3))
      && (forall i :: 0 <= i < |bo| ==> Cell(bo[i], QUERY) != Int(2) && Cell(bo[i], QUERY) != Int(3))
  {
    var b2, b3, bo := Filter(rows, QueryIs(2)), Filter(rows, QueryIs(3)), Filter(rows, QueryOther());
    FilterPartition3(rows, QueryIs(2), QueryIs(3), QueryOther());
    FilterMembers(rows, QueryIs(2));
    FilterMembers(rows, QueryIs(3));
    FilterMembers(rows, QueryOther());
    assert forall i :: 0 <= i < |b2| ==> b2[i] in b2;
    assert forall i :: 0 <= i < |b3| ==> b3[i] in b3;
    assert forall i :: 0 <= i < |bo| ==> bo[i] in bo;
  }

  /** `Order` lists the 2B rows, then the 3C rows, then the rest. */
  lemma OrderSegments(rows: seq<Row>)
    ensures var n2, n3 := |Filter(rows, QueryIs(2))|, |Filter(rows, QueryIs(3))|;
      var o := Order(rows);
      && (forall j :: 0 <= j < n2 ==> Cell(o[j], QUERY) == Int(2))
      && (forall j :: n2 <= j < n2 + n3 ==> Cell(o[j], QUERY) == Int(3))
      && (forall j :: n2 + n3 <= j < |o| ==> Cell(o[j], QUERY) != Int(2) && Cell(o[j], QUERY) != Int(3))
  {
    var b2, b3, bo := Filter(rows, QueryIs(2)), Filter(rows, QueryIs(3)), Filter(rows, QueryOther());
    OrderIsPartition(rows);
    var o := b2 + b3 + bo;
    forall j | 0 <= j < |o| ensures
      (j < |b2| ==> Cell(o[j], QUERY) == Int(2)) &&
      (|b2| <= j < |b2| + |b3| ==> Cell(o[j], QUERY) == Int(3)) &&
      (|b2| + |b3| <= j ==> Cell(o[j], QUERY) != Int(2) && Cell(o[j], QUERY) != Int(3))
    {
      if j < |b2| {
        assert o[j] == b2[j];
      } else if j < |b2| + |b3| {
        assert o[j] == b3[j - |b2|];
      } else {
        assert o[j] == bo[j - |b2| - |b3|];
      }
    }
  }

  /** The dicts an upload writes are those of the three buckets in order. */
  lemma OrderWritten(cols: seq<string>, rows: seq<Row>)
    ensures Writes(cols, Order(rows),
                   Stamped(cols, Filter(rows, QueryIs(2)), EN_PROCESO) +
                   Stamped(cols, Filter(rows, QueryIs(3)), EN_PROCESO) +
                   Stamped(cols, Filter(rows, QueryOther()), NO_PROCESADO))
  {
    var b2, b3, bo := Filter(rows, QueryIs(2)), Filter(rows, QueryIs(3)), Filter(rows, QueryOther());
    OrderIsPartition(rows);
    StampedSpec(cols, b2, EN_PROCESO);
    StampedSpec(cols, b3, EN_PROCESO);
    StampedSpec(cols, bo, NO_PROCESADO);
    WritesAppend(cols, b2, Stamped(cols, b2, EN_PROCESO), b3, Stamped(cols, b3, EN_PROCESO));
    WritesAppend(cols, b2 + b3, Stamped(cols, b2, EN_PROCESO) + Stamped(cols, b3, EN_PROCESO),
                 bo, Stamped(cols, bo, NO_PROCESADO));
  }

  /** Appending dicts that write `src` appends rows that hold what `src`
      calls for, after the stored rows. */
  lemma AppendedRows(t: Table, cols: seq<string>, src: seq<Row>, fs: seq<Fields>)
    requires Writes(cols, src, fs)
    ensures |AddAll(t, fs).rows| == |t.rows| + |src|
    ensures forall i :: 0 <= i < |t.rows| ==> AddAll(t, fs).rows[i] == t.rows[i]
    ensures forall j, c :: 0 <= j < |src| ==> Cell(AddAll(t, fs).rows[|t.rows| + j], c) == Expected(cols, src[j], c)
  {
    AddAllRows(t, fs);
  }

  /** Appending at least one dict that writes `src` keeps the stored columns
      and adds the upload's. */
  lemma AppendedColumns(t: Table, cols: seq<string>, src: seq<Row>, fs: seq<Fields>)
    requires Writes(cols, src, fs) && |fs| > 0
    ensures forall c :: c in t.columns || c in cols ==> c in AddAll(t, fs).columns
  {
    AddAllColumns(t, fs);
    forall c | c in cols ensures c in AddAll(t, fs).columns {
      assert c in KeysOf(fs[0]);
    }
  }

  /** The new transactions of an upload that adds some: a non-empty
      selection of the uploaded rows under the uploaded header. */
  lemma DedupedSpec(existing: Table, incoming: Table)
    requires Ingest(existing, incoming).Added?
    ensures Deduped(existing, incoming).Some?
    ensures var d := Deduped(existing, incoming).value;
      && d.columns == incoming.columns && |d.rows| > 0 && QUERY in d.columns
      && Ingest(existing, incoming) == Added(AddAll(existing, Appended(d)), Counts(d))
      && (forall x :: x in incoming.rows && x !in d.rows ==>
            !IsEmpty(existing) && Cell(x, MOVEMENT) in KeyValues(existing, MOVEMENT))
  {
    if !IsEmpty(existing) {
      NewRowsSpec(incoming, existing, MOVEMENT);
    }
  }

  /** The summary of an upload that adds transactions counts the buckets,
      which add up to the new transactions; `Order` lists them 2B first,
      then 3C, then the rest. */
  lemma IngestSummary(existing: Table, incoming: Table)
    requires Ingest(existing, incoming).Added?
    ensures Deduped(existing, incoming).Some?
    ensures var d := Deduped(existing, incoming).value;
      var s := Ingest(existing, incoming).summary;
      var o := Order(d.rows);
      && s.total == |d.rows| == s.protocol2b + s.protocol3c + s.noProcesado
      && |o| == |d.rows| && multiset(o) == multiset(d.rows)
      && (forall j :: 0 <= j < s.protocol2b ==> Cell(o[j], QUERY) == Int(2))
      && (forall j :: s.protocol2b <= j < s.protocol2b + s.protocol3c ==> Cell(o[j], QUERY) == Int(3))
      && (forall j :: s.protocol2b + s.protocol3c <= j < |o| ==>
            Cell(o[j], QUERY) != Int(2) && Cell(o[j], QUERY) != Int(3))
  {
    DedupedSpec(existing, incoming);
    var d := Deduped(existing, incoming).value;
    OrderIsPartition(d.rows);
    OrderSegments(d.rows);
  }

  /** An upload that adds transactions appends them after the stored ones,
      in `Order`; each appended row holds the uploaded row's cells and the
      state its QUERY calls for, and the header keeps the stored and the
      uploaded columns. */
  lemma IngestRows(existing: Table, incoming: Table)
    requires Ingest(existing, incoming).Added?
    ensures Deduped(existing, incoming).Some?
    ensures var d := Deduped(existing, incoming).value;
      var t := Ingest(existing, incoming).table;
      var o := Order(d.rows);
      && |t.rows| == |existing.rows| + |o|
      && (forall i :: 0 <= i < |existing.rows| ==> t.rows[i] == existing.rows[i])
      && (forall j, c :: 0 <= j < |o| ==> Cell(t.rows[|existing.rows| + j], c) == Expected(incoming.columns, o[j], c))
      && (forall c :: c in existing.columns || c in incoming.columns ==> c in t.columns)
  {
    DedupedSpec(existing, incoming);
    var d := Deduped(existing, incoming).value;
    OrderIsPartition(d.rows);
    OrderWritten(d.columns, d.rows);
    var o := Order(d.rows);
    assert |o| > 0 by {
      assert d.rows[0] in multiset(d.rows);
    }
    AppendedRows(existing, d.columns, o, Appended(d));
    AppendedColumns(existing, d.columns, o, Appended(d));
  }

  /** When every uploaded movement number is already stored, the upload adds
      nothing. */
  lemma NothingNewWhenAllKnown(existing: Table, incoming: Table)
    requires !IsEmpty(existing) && MOVEMENT in existing.columns && MOVEMENT in incoming.columns
    requires forall x :: x in incoming.rows ==> Cell(x, MOVEMENT) in KeyValues(existing, MOVEMENT)
    ensures Ingest(existing, incoming) == NothingNew
  {
    var p := AbsentFrom(MOVEMENT, KeyValues(existing, MOVEMENT));
    assert forall i :: 0 <= i < |incoming.rows| ==> incoming.rows[i] in incoming.rows;
    FilterEmpty(incoming.rows, p);
  }

  /** Uploading the same spreadsheet again, against the table the first
      upload produced, adds nothing: every uploaded movement number is then
      stored. */
  lemma ReingestAddsNothing(existing: Table, incoming: Table)
    requires Ingest(existing, incoming).Added?
    requires MOVEMENT in incoming.columns
    ensures Ingest(Ingest(existing, incoming).table, incoming) == NothingNew
  {
    DedupedSpec(existing, incoming);
    IngestRows(existing, incoming);
    var d := Deduped(existing, incoming).value;
    var t := Ingest(existing, incoming).table;
    OrderIsPartition(d.rows);
    StoredAfterwards(existing, incoming.rows, incoming.columns, d.rows, t, Order(d.rows));
    IngestedNotEmpty(existing, incoming);
    NothingNewWhenAllKnown(t, incoming);
  }

  /** After stored rows are kept and rows written for `o` are appended,
      every movement number of `uploaded` is stored: those of rows already
      stored before, and those of the rows in `o`. */
  lemma StoredAfterwards(existing: Table, uploaded: seq<Row>, cols: seq<string>, d: seq<Row>, t: Table, o: seq<Row>)
    requires MOVEMENT in cols && multiset(o) == multiset(d)
    requires forall x :: x in uploaded && x !in d ==> Cell(x, MOVEMENT) in KeyValues(existing, MOVEMENT)
    requires |t.rows| == |existing.rows| + |o|
    requires forall i :: 0 <= i < |existing.rows| ==> t.rows[i] == existing.rows[i]
    requires forall j, c :: 0 <= j < |o| ==> Cell(t.rows[|existing.rows| + j], c) == Expected(cols, o[j], c)
    ensures forall x :: x in uploaded ==> Cell(x, MOVEMENT) in KeyValues(t, MOVEMENT)
  {
    forall x | x in uploaded ensures Cell(x, MOVEMENT) in KeyValues(t, MOVEMENT) {
      if x in d {
        assert x in multiset(o);
        KeyAppended(t, |existing.rows|, o, cols, x);
      } else {
        KeyKept(existing, t, Cell(x, MOVEMENT));
      }
    }
  }

  /** A movement number stored before is still stored once the stored rows
      are kept as a prefix. */
  lemma KeyKept(existing: Table, t: Table, v: Value)
    requires |t.rows| >= |existing.rows|
    requires forall i :: 0 <= i < |existing.rows| ==> t.rows[i] == existing.rows[i]
    requires v in KeyValues(existing, MOVEMENT)
    ensures v in KeyValues(t, MOVEMENT)
  {
    var i :| 0 <= i < |existing.rows| && KeyValues(existing, MOVEMENT)[i] == v;
    assert KeyValues(t, MOVEMENT)[i] == v;
  }

  /** A row appended for an uploaded row carries that row's value in any
      uploaded column. */
  lemma KeyAppended(t: Table, n: nat, o: seq<Row>, cols: seq<string>, x: Row)
    requires |t.rows| == n + |o|
    requires forall j, c :: 0 <= j < |o| ==> Cell(t.rows[n + j], c) == Expected(cols, o[j], c)
    requires MOVEMENT in cols && x in multiset(o)
    ensures Cell(x, MOVEMENT) in KeyValues(t, MOVEMENT)
  {
    var j :| 0 <= j < |o| && o[j] == x;
    assert MOVEMENT != STATE;
    assert Cell(t.rows[n + j], MOVEMENT) == Expected(cols, x, MOVEMENT);
    assert KeyValues(t, MOVEMENT)[n + j] == Cell(x, MOVEMENT);
  }

  /** An upload that adds transactions leaves a non-empty table that has
      every uploaded column. */
  lemma IngestedNotEmpty(existing: Table, incoming: Table)
    requires Ingest(existing, incoming).Added?
    ensures var t := Ingest(existing, incoming).table;
      !IsEmpty(t) && forall c :: c in incoming.columns ==> c in t.columns
  {
    IngestSummary(existing, incoming);
    IngestRows(existing, incoming);
    var t := Ingest(existing, incoming).table;
    assert t.rows[|existing.rows|] in t.rows;
  }

  // ---------------------------------------------------------------------
  // The endpoint
  // ---------------------------------------------------------------------

  /** An uploaded file: its name and its parsed contents (nothing when the
      spreadsheet cannot be read). */
  datatype Upload = Upload(filename: string, sheet: Option<Table>)

  datatype Response =
    | MissingFilePart
    | NoSelectedFile
    | NoNewTransactions
    | ProcessingCompleted(summary: Summary, fileId: Option<string>)
    | ServerError

  /** The HTTP status of a response. */
  function Status(r: Response): int
  {
    match r
    case MissingFilePart => 400
    case NoSelectedFile => 400
    case ServerError => 500
    case _ => 200
  }

  /** Appends the dicts of one bucket frame, row by row; an empty frame is
      skipped. */
  method AddBucket(ws: TransactionsWorksheet, cols: seq<string>, rows: seq<Row>, state: string)
    modifies ws.service`table
    ensures ws.service.table == AddAll(old(ws.service.table), Stamped(cols, rows, state))
  {
    if rows == [] {
      assert Stamped(cols, rows, state) == [];
      return;
    }
    var k := 0;
    while k < |rows|
      invariant 0 <= k <= |rows|
      invariant ws.service.table == AddAll(old(ws.service.table), Stamped(cols, rows[..k], state))
    {
      var f := RowFields(StampedColumns(cols), rows[k][STATE := Str(state)]);
      var _ := ws.Add(f);
      ghost var s := Stamped(cols, rows[..k + 1], state);
      assert s[..k] == Stamped(cols, rows[..k], state) && s[k] == f;
      k := k + 1;
    }
    assert rows[..|rows|] == rows;
  }

  /** Appends the three bucket frames of the new transactions `d`, 2B
      first, then 3C, then the rest. */
  method AppendNew(ws: TransactionsWorksheet, d: Table)
    modifies ws.service`table
    ensures ws.service.table == AddAll(old(ws.service.table), Appended(d))
  {
    var b2 := Filter(d.rows, QueryIs(2));
    var b3 := Filter(d.rows, QueryIs(3));
    var bo := Filter(d.rows, QueryOther());
    AddBucket(ws, d.columns, b2, EN_PROCESO);
    AddBucket(ws, d.columns, b3, EN_PROCESO);
    AddBucket(ws, d.columns, bo, NO_PROCESADO);
    AddAllAppend(old(ws.service.table), Stamped(d.columns, b2, EN_PROCESO), Stamped(d.columns, b3, EN_PROCESO));
    AddAllAppend(old(ws.service.table), Stamped(d.columns, b2, EN_PROCESO) + Stamped(d.columns, b3, EN_PROCESO),
                 Stamped(d.columns, bo, NO_PROCESADO));
  }

  /** The response to an accepted upload once its outcome is known. */
  function ResponseFor(outcome: Ingestion, driveFileId: Option<string>): Response
  {
    match outcome
    case Failed => ServerError
    case NothingNew => NoNewTransactions
    case Added(_, s) => ProcessingCompleted(s, driveFileId)
  }

  /** The body of the endpoint once an upload has been accepted and parsed:
      reload everything, drop the known transactions, append the new ones
      with their states, save everything, and archive the file. */
  method ProcessUpload(svc: TransactionSheetService, incoming: Table,
                       reload: Reachability, save: Reachability, driveFileId: Option<string>)
    returns (resp: Response)
    requires svc.Valid()
    modifies svc.transactions.service, svc.emailHistory.service
    modifies svc.whatsappHistory.service, svc.states.service
    ensures var existing := if reload.transactions then old(svc.transactions.service.remote)
                            else old(svc.transactions.service.table);
      var outcome := Ingest(existing, incoming);
      && resp == ResponseFor(outcome, driveFileId)
      && svc.transactions.service.table == (if outcome.Added? then outcome.table else existing)
      && svc.transactions.service.remote ==
           (if outcome.Added? && save.transactions then outcome.table else old(svc.transactions.service.remote))
    ensures var added := Ingest(if reload.transactions then old(svc.transactions.service.remote)
                                else old(svc.transactions.service.table), incoming).Added?;
      && svc.emailHistory.service.table ==
           (if reload.emailHistory then old(svc.emailHistory.service.remote) else old(svc.emailHistory.service.table))
      && svc.emailHistory.service.remote ==
           (if added && save.emailHistory then svc.emailHistory.service.table else old(svc.emailHistory.service.remote))
      && svc.whatsappHistory.service.table ==
           (if reload.whatsappHistory then old(svc.whatsappHistory.service.remote) else old(svc.whatsappHistory.service.table))
      && svc.whatsappHistory.service.remote ==
           (if added && save.whatsappHistory then svc.whatsappHistory.service.table else old(svc.whatsappHistory.service.remote))
      && svc.states.service.table ==
           (if reload.states then old(svc.states.service.remote) else old(svc.states.service.table))
      && svc.states.service.remote ==
           (if added && save.states then svc.states.service.table else old(svc.states.service.remote))
  {
    var _ := svc.ReloadAllData(reload);
    var existing := svc.transactions.ReadAll();
    resp := StoreNew(svc, existing, incoming, save, driveFileId);
  }

  /** Drops the known transactions, appends the new ones with their states,
      saves everything and archives the file. */
  method StoreNew(svc: TransactionSheetService, existing: Table, incoming: Table,
                  save: Reachability, driveFileId: Option<string>)
    returns (resp: Response)
    requires svc.Valid()
    requires svc.transactions.service.table == existing
    modifies svc.transactions.service`table
    modifies svc.transactions.service`remote, svc.emailHistory.service`remote
    modifies svc.whatsappHistory.service`remote, svc.states.service`remote
    ensures var outcome := Ingest(existing, incoming);
      && resp == ResponseFor(outcome, driveFileId)
      && svc.transactions.service.table == (if outcome.Added? then outcome.table else existing)
      && svc.transactions.service.remote ==
           (if outcome.Added? && save.transactions then outcome.table else old(svc.transactions.service.remote))
    ensures var added := Ingest(existing, incoming).Added?;
      && svc.emailHistory.service.remote ==
           (if added && save.emailHistory then svc.emailHistory.service.table else old(svc.emailHistory.service.remote))
      && svc.whatsappHistory.service.remote ==
           (if added && save.whatsappHistory then svc.whatsappHistory.service.table else old(svc.whatsappHistory.service.remote))
      && svc.states.service.remote ==
           (if added && save.states then svc.states.service.table else old(svc.states.service.remote))
  {
    var deduped := Deduped(existing, incoming);
    if deduped.None? {
      return ServerError;
    }
    var d := deduped.value;
    if IsEmpty(d) {
      return NoNewTransactions;
    }
    if QUERY !in d.columns {
      return ServerError;
    }
    AppendNew(svc.transactions, d);
    var _ := svc.SaveAllChanges(save);
    resp := ProcessingCompleted(Counts(d), driveFileId);
  }

  /** `file_processor_api`, given the request, whether each worksheet can be
      reached during the reload and during the save, and the identifier the
      Drive upload returns (nothing when the upload fails, which still
      completes the processing with no file id). A request
      without a file, with an unnamed file or with an unreadable spreadsheet
      changes nothing. */
  method FileProcessorApi(svc: TransactionSheetService, request: Option<Upload>,
                          reload: Reachability, save: Reachability, driveFileId: Option<string>)
    returns (resp: Response)
    requires svc.Valid()
    modifies svc.transactions.service, svc.emailHistory.service
    modifies svc.whatsappHistory.service, svc.states.service
    ensures request.None? ==> resp == MissingFilePart
    ensures request.Some? && request.value.filename == "" ==> resp == NoSelectedFile
    ensures request.Some? && request.value.filename != "" && request.value.sheet.None? ==> resp == ServerError
    ensures request.None? || request.value.filename == "" || request.value.sheet.None? ==>
      unchanged(svc.transactions.service, svc.emailHistory.service, svc.whatsappHistory.service, svc.states.service)
    ensures request.Some? && request.value.filename != "" && request.value.sheet.Some? ==>
      var existing := if reload.transactions then old(svc.transactions.service.remote)
                      else old(svc.transactions.service.table);
      var outcome := Ingest(existing, request.value.sheet.value);
      && resp == ResponseFor(outcome, driveFileId)
      && svc.transactions.service.table == (if outcome.Added? then outcome.table else existing)
      && svc.transactions.service.remote ==
           (if outcome.Added? && save.transactions then outcome.table else old(svc.transactions.service.remote))
    ensures request.Some? && request.value.filename != "" && request.value.sheet.Some? ==>
      var added := Ingest(if reload.transactions then old(svc.transactions.service.remote)
                          else old(svc.transactions.service.table), request.value.sheet.value).Added?;
      && svc.emailHistory.service.table ==
           (if reload.emailHistory then old(svc.emailHistory.service.remote) else old(svc.emailHistory.service.table))
      && svc.emailHistory.service.remote ==
           (if added && save.emailHistory then svc.emailHistory.service.table else old(svc.emailHistory.service.remote))
      && svc.whatsappHistory.service.table ==
           (if reload.whatsappHistory then old(svc.whatsappHistory.service.remote) else old(svc.whatsappHistory.service.table))
      && svc.whatsappHistory.service.remote ==
           (if added && save.whatsappHistory then svc.whatsappHistory.service.table else old(svc.whatsappHistory.service.remote))
      && svc.states.service.table ==
           (if reload.states then old(svc.states.service.remote) else old(svc.states.service.table))
      && svc.states.service.remote ==
           (if added && save.states then svc.states.service.table else old(svc.states.service.remote))
  {
    if request.None? {
      return MissingFilePart;
    }
    var upload := request.value;
    if upload.filename == "" {
      return NoSelectedFile;
    }
    if upload.sheet.None? {
      return ServerError;
    }
    resp := ProcessUpload(svc, upload.sheet.value, reload, save, driveFileId);
  }
}
