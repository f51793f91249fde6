/** The in-memory record store over one worksheet: a table held in memory,
    changed by add, bulk update and clear, and synchronised with the remote
    worksheet only by an explicit save or reload. */
module SheetsService {
  import opened Values
  import opened Seqs

  // ---------------------------------------------------------------------
  // The store's operations on table values
  // ---------------------------------------------------------------------

  /** pandas' element-wise `df[col] == value`: NaN equals nothing, so a NaN
      cell never matches and searching for NaN matches no row. */
  predicate Matches(r: Row, col: string, v: Value)
  {
    v != Null && Cell(r, col) == v
  }

  /** The mask predicate of a search, as a function value. */
  function MatchPred(col: string, v: Value): Row -> bool
  {
    (r: Row) => Matches(r, col, v)
  }

  /** The rows whose column equals the value, in table order. */
  function Matching(t: Table, col: string, v: Value): seq<Row>
  {
    Filter(t.rows, MatchPred(col, v))
  }

  /** `find_row`: the matching rows, or nothing when none matches. A column
      the table lacks raises a KeyError, which is caught and also gives
      nothing. */
  function FindRows(t: Table, col: string, v: Value): Option<seq<Row>>
  {
    if col !in t.columns then None
    else
      var m := Matching(t, col, v);
      if m == [] then None else Some(m)
  }

  /** Some row of the table matches. */
  predicate AnyMatch(t: Table, col: string, v: Value)
  {
    exists i :: 0 <= i < |t.rows| && Matches(t.rows[i], col, v)
  }

  /** `add_row`: concatenating a one-row frame appends the row at the end and
      appends the dict's unseen keys to the header in dict order. */
  function WithRow(t: Table, f: Fields): Table
  {
    Table(Extend(t.columns, KeysOf(f)), t.rows + [ToMap(f)])
  }

  /** The rows after every row selected by `mask` has had `patch` written
      over it. */
  function PatchRows(rows: seq<Row>, mask: seq<bool>, patch: Row): (r: seq<Row>)
    requires |mask| == |rows|
    ensures |r| == |rows|
  {
    seq(|rows|, i requires 0 <= i < |rows| => if mask[i] then rows[i] + patch else rows[i])
  }

  /** One pass of `update_row`'s loop: `df.loc[mask, c] = x`. */
  function SetColumn(rows: seq<Row>, mask: seq<bool>, c: string, x: Value): (r: seq<Row>)
    requires |mask| == |rows|
    ensures |r| == |rows|
  {
    seq(|rows|, i requires 0 <= i < |rows| => if mask[i] then rows[i][c := x] else rows[i])
  }

  /** Writing the next patch entry extends the patch written so far, in the
      rows and in the header. */
  lemma {:induction false} PatchStep(cols: seq<string>, rows: seq<Row>, mask: seq<bool>, patch: Fields, k: nat)
    requires |mask| == |rows| && k < |patch|
    ensures SetColumn(PatchRows(rows, mask, ToMap(patch[..k])), mask, patch[k].0, patch[k].1)
              == PatchRows(rows, mask, ToMap(patch[..k + 1]))
    ensures (var e := Extend(cols, KeysOf(patch[..k])); if patch[k].0 in e then e else e + [patch[k].0])
              == Extend(cols, KeysOf(patch[..k + 1]))
  {
    assert patch[..k + 1][..k] == patch[..k];
    assert KeysOf(patch[..k + 1]) == KeysOf(patch[..k]) + [patch[k].0];
    var before := PatchRows(rows, mask, ToMap(patch[..k]));
    var after := SetColumn(before, mask, patch[k].0, patch[k].1);
    forall i | 0 <= i < |rows| && mask[i]
      ensures after[i] == rows[i] + ToMap(patch[..k + 1])
    {
      assert after[i] == (rows[i] + ToMap(patch[..k]))[patch[k].0 := patch[k].1];
    }
  }

  /** Before the first entry nothing has been written. */
  lemma PatchStart(cols: seq<string>, rows: seq<Row>, mask: seq<bool>, patch: Fields)
    requires |mask| == |rows|
    ensures Extend(cols, KeysOf(patch[..0])) == cols
    ensures PatchRows(rows, mask, ToMap(patch[..0])) == rows
  {
    assert KeysOf(patch[..0]) == [] && ToMap(patch[..0]) == map[];
    forall i | 0 <= i < |rows| ensures rows[i] + map[] == rows[i] { }
  }

  /** The selection mask of `update_row`, computed on the table before any
      column is written. */
  function MaskOf(t: Table, col: string, v: Value): (mask: seq<bool>)
    ensures |mask| == |t.rows|
  {
    seq(|t.rows|, i requires 0 <= i < |t.rows| => Matches(t.rows[i], col, v))
  }

  /** The mask selects some row exactly when some row matches. */
  lemma MaskSpec(t: Table, col: string, v: Value)
    ensures (true in MaskOf(t, col, v)) <==> AnyMatch(t, col, v)
  {
    var mask := MaskOf(t, col, v);
    if true in mask {
      var i :| 0 <= i < |mask| && mask[i];
      assert Matches(t.rows[i], col, v);
    }
    if AnyMatch(t, col, v) {
      var i :| 0 <= i < |t.rows| && Matches(t.rows[i], col, v);
      assert mask[i];
    }
  }

  /** `update_row` when some row matches: every row that matched before the
      update gets every patched column; a patched column the table lacked is
      appended to the header. */
  function Patched(t: Table, col: string, v: Value, patch: Fields): Table
  {
    Table(Extend(t.columns, KeysOf(patch)), PatchRows(t.rows, MaskOf(t, col, v), ToMap(patch)))
  }

  /** `clear_data`: a frame with the same columns and no rows. */
  function Cleared(t: Table): Table
  {
    Table(t.columns, [])
  }

  /** Every cell a row holds belongs to a column of the header, as in a
      DataFrame. */
  ghost predicate WellFormed(t: Table)
  {
    forall i, k :: 0 <= i < |t.rows| && k in t.rows[i] ==> k in t.columns
  }

  // ---------------------------------------------------------------------
  // Properties of the operations
  // ---------------------------------------------------------------------

  /** `find_row` gives exactly the rows whose column equals the value, in
      table order and with repetitions; it gives nothing when there are none
      and also when the column does not exist, so "not found" and "error"
      cannot be told apart. */
  lemma FindRowsSpec(t: Table, col: string, v: Value)
    ensures FindRows(t, col, v).None? <==> col !in t.columns || !AnyMatch(t, col, v)
    ensures FindRows(t, col, v).Some? ==>
              var m := FindRows(t, col, v).value;
              m != [] && Subsequence(m, t.rows) &&
              (forall x :: x in m ==> Matches(x, col, v)) &&
              (forall x :: Matches(x, col, v) ==> multiset(m)[x] == multiset(t.rows)[x])
  {
    var p := MatchPred(col, v);
    FilterEmpty(t.rows, p);
    FilterSubsequence(t.rows, p);
    FilterMembers(t.rows, p);
    FilterCounts(t.rows, p);
  }

  /** `update_row` finds something to update exactly when `find_row` finds
      something. */
  lemma AnyMatchIffFound(t: Table, col: string, v: Value)
    ensures (col in t.columns && AnyMatch(t, col, v)) <==> FindRows(t, col, v).Some?
  {
    FindRowsSpec(t, col, v);
  }

  /** `add_row` appends exactly one row, the dict, at the end; the earlier
      rows and the old header are unchanged. */
  lemma WithRowSpec(t: Table, f: Fields)
    ensures |WithRow(t, f).rows| == |t.rows| + 1
    ensures WithRow(t, f).rows[..|t.rows|] == t.rows
    ensures forall k :: Cell(WithRow(t, f).rows[|t.rows|], k) == Cell(ToMap(f), k)
    ensures WithRow(t, f).columns[..|t.columns|] == t.columns
    ensures forall c :: c in WithRow(t, f).columns <==> c in t.columns || c in KeysOf(f)
  {
    assert (t.rows + [ToMap(f)])[..|t.rows|] == t.rows;
  }

  /** A row just added is found again by any of its non-NaN cells: the
      search returns the earlier matches followed by the new row. */
  lemma FindAfterAdd(t: Table, f: Fields, col: string)
    requires Cell(ToMap(f), col) != Null
    ensures FindRows(WithRow(t, f), col, Cell(ToMap(f), col)) ==
              Some(Matching(t, col, Cell(ToMap(f), col)) + [ToMap(f)])
  {
    var v := Cell(ToMap(f), col);
    var p := MatchPred(col, v);
    assert col in WithRow(t, f).columns;
    FilterAppend(t.rows, [ToMap(f)], p);
    assert p(ToMap(f));
    assert Filter([ToMap(f)], p) == [ToMap(f)] + Filter([], p);
    assert Matching(WithRow(t, f), col, v) == Matching(t, col, v) + [ToMap(f)];
  }

  /** `update_row` keeps the row count; rows that did not match and columns
      the patch does not name are unchanged; every matched row holds every
      patched value. */
  lemma PatchedSpec(t: Table, col: string, v: Value, patch: Fields)
    ensures |Patched(t, col, v, patch).rows| == |t.rows|
    ensures forall i :: 0 <= i < |t.rows| && !Matches(t.rows[i], col, v) ==>
              Patched(t, col, v, patch).rows[i] == t.rows[i]
    ensures forall i, k :: 0 <= i < |t.rows| && Matches(t.rows[i], col, v) && k in KeysOf(patch) ==>
              Cell(Patched(t, col, v, patch).rows[i], k) == ToMap(patch)[k]
    ensures forall i, k :: 0 <= i < |t.rows| && k !in KeysOf(patch) ==>
              Cell(Patched(t, col, v, patch).rows[i], k) == Cell(t.rows[i], k)
    ensures Patched(t, col, v, patch).columns[..|t.columns|] == t.columns
  {
  }

  /** The matching rows are fixed before the patch is written: a patch that
      rewrites the search column to another value still reaches every row
      that matched, so afterwards no row matches the old value, and each of
      those rows now matches the new one. */
  lemma PatchOverSearchColumn(t: Table, col: string, v: Value, patch: Fields, w: Value)
    requires AnyMatch(t, col, v)
    requires col in KeysOf(patch) && ToMap(patch)[col] == w && w != v && w != Null
    ensures !AnyMatch(Patched(t, col, v, patch), col, v)
    ensures forall i :: 0 <= i < |t.rows| && Matches(t.rows[i], col, v) ==>
              Matches(Patched(t, col, v, patch).rows[i], col, w)
  {
    PatchedSpec(t, col, v, patch);
    var p := Patched(t, col, v, patch);
    forall i | 0 <= i < |p.rows| ensures !Matches(p.rows[i], col, v) {
      if Matches(t.rows[i], col, v) {
        assert Cell(p.rows[i], col) == w;
      } else {
        assert p.rows[i] == t.rows[i];
      }
    }
  }

  /** `clear_data` keeps the header and leaves no rows. */
  lemma ClearedSpec(t: Table)
    ensures Cleared(t).columns == t.columns && |Cleared(t).rows| == 0
    ensures IsEmpty(Cleared(t))
    ensures forall col, v :: FindRows(Cleared(t), col, v).None?
  {
  }

  /** Adding, patching and clearing keep every cell inside the header. */
  lemma OperationsKeepWellFormed(t: Table, f: Fields, col: string, v: Value, patch: Fields)
    requires WellFormed(t)
    ensures WellFormed(WithRow(t, f))
    ensures WellFormed(Patched(t, col, v, patch))
    ensures WellFormed(Cleared(t))
  {
    var a := WithRow(t, f);
    forall i, k | 0 <= i < |a.rows| && k in a.rows[i] ensures k in a.columns {
      if i < |t.rows| {
        assert a.rows[i] == t.rows[i];
      }
    }
    var p := Patched(t, col, v, patch);
    forall i, k | 0 <= i < |p.rows| && k in p.rows[i] ensures k in p.columns {
      assert p.rows[i] == if MaskOf(t, col, v)[i] then t.rows[i] + ToMap(patch) else t.rows[i];
    }
  }

  // ---------------------------------------------------------------------
  // The store object
  // ---------------------------------------------------------------------

  /** `GoogleSheetsService`: the in-memory table (`_df`) and the remote
      worksheet, which only `SaveChanges` writes and only `ReloadData` (and
      construction) reads. Whether the remote worksheet can be reached during
      a call is passed in as `reachable`. */
  class GoogleSheetsService {
    var table: Table
    var remote: Table

    /** Construction loads the remote worksheet into memory. */
    constructor(remote: Table)
      ensures this.table == remote && this.remote == remote
    {
      this.table := remote;
      this.remote := remote;
    }

    /** `read_all_data` returns a copy: the result is a value, so changing it
        can never change the store. */
    method ReadAllData() returns (t: Table)
      ensures t == table
    {
      t := table;
    }

    method AddRow(f: Fields) returns (ok: bool)
      modifies this`table
      ensures ok && table == WithRow(old(table), f)
    {
      table := WithRow(table, f);
      ok := true;
    }

    method FindRow(col: string, v: Value) returns (r: Option<seq<Row>>)
      ensures r == FindRows(table, col, v)
    {
      if col !in table.columns {
        return None;
      }
      var matches := Matching(table, col, v);
      r := if matches == [] then None else Some(matches);
    }

    /** `update_row`: nothing matches (or the column is missing) gives false
        and leaves the table as it was; otherwise the mask is computed once
        and each patched column is written, in dict order, into every masked
        row. */
    method UpdateRow(col: string, v: Value, patch: Fields) returns (ok: bool)
      modifies this`table
      ensures ok == FindRows(old(table), col, v).Some?
      ensures table == if ok then Patched(old(table), col, v, patch) else old(table)
    {
      var t0 := table;
      AnyMatchIffFound(t0, col, v);
      if col !in t0.columns {
        return false;
      }
      var mask := MaskOf(t0, col, v);
      MaskSpec(t0, col, v);
      if true !in mask {
        return false;
      }
      var cols, rows := t0.columns, t0.rows;
      PatchStart(t0.columns, t0.rows, mask, patch);
      var k := 0;
      while k < |patch|
        invariant 0 <= k <= |patch|
        invariant cols == Extend(t0.columns, KeysOf(patch[..k]))
        invariant rows == PatchRows(t0.rows, mask, ToMap(patch[..k]))
      {
        var (c, x) := patch[k];
        PatchStep(t0.columns, t0.rows, mask, patch, k);
        cols := if c in cols then cols else cols + [c];
        rows := SetColumn(rows, mask, c, x);
        k := k + 1;
      }
      assert patch[..|patch|] == patch;
      table := Table(cols, rows);
      ok := true;
    }

    method ClearData() returns (ok: bool)
      modifies this`table
      ensures ok && table == Cleared(old(table))
    {
      table := Table(table.columns, []);
      ok := true;
    }

    /** `save_changes`: writes the whole table to the remote worksheet; a
        failure is caught and reported as false, with nothing written. */
    method SaveChanges(reachable: bool) returns (ok: bool)
      modifies this`remote
      ensures ok == reachable
      ensures remote == if reachable then table else old(remote)
    {
      if reachable {
        remote := table;
      }
      ok := reachable;
    }

    /** `reload_data`: replaces the table by the remote worksheet, discarding
        unsaved changes; a failure is caught and reported as false, with the
        table unchanged. */
    method ReloadData(reachable: bool) returns (ok: bool)
      modifies this`table
      ensures ok == reachable
      ensures table == if reachable then remote else old(table)
    {
      if reachable {
        table := remote;
      }
      ok := reachable;
    }
  }

  /** A caller's view of the synchronisation boundary: changes made after a
      save are discarded by a reload, which restores the saved table. */
  method SaveEditReload(store: GoogleSheetsService, f: Fields, col: string, v: Value, patch: Fields)
    returns (saved: Table)
    modifies store
    ensures saved == old(store.table)
    ensures store.table == saved && store.remote == saved
  {
    var ok := store.SaveChanges(true);
    saved := store.ReadAllData();
    ok := store.AddRow(f);
    ok := store.UpdateRow(col, v, patch);
    ok := store.ReloadData(true);
  }
}
