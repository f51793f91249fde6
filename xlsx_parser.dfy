/** `XLSXParser.new_rows`: the rows of an uploaded table whose key does not
    occur among the keys of the current table (pandas `isin`, under which a
    NaN key does match a NaN key). */
module XlsxParser {
  import opened Values
  import opened Seqs

  /** The key column of a table, row by row (NaN where a row has no key). */
  function KeyValues(t: Table, key: string): (ks: seq<Value>)
    ensures |ks| == |t.rows|
    ensures forall i :: 0 <= i < |t.rows| ==> ks[i] == Cell(t.rows[i], key)
  {
    seq(|t.rows|, i requires 0 <= i < |t.rows| => Cell(t.rows[i], key))
  }

  /** The mask `~new_df[key].isin(keys)`, as a function value. */
  function AbsentFrom(key: string, keys: seq<Value>): Row -> bool
  {
    (r: Row) => Cell(r, key) !in keys
  }

  /** `new_rows`: nothing when either table lacks the key column (the
      KeyError propagates to the caller). */
  function NewRows(newT: Table, cur: Table, key: string): Option<Table>
  {
    if key !in newT.columns || key !in cur.columns then None
    else Some(Table(newT.columns, Filter(newT.rows, AbsentFrom(key, KeyValues(cur, key)))))
  }

  /** The result keeps the uploaded header; its rows are exactly the
      uploaded rows whose key the current table does not hold, in upload
      order and with their repetitions. */
  lemma NewRowsSpec(newT: Table, cur: Table, key: string)
    ensures NewRows(newT, cur, key).None? <==> key !in newT.columns || key !in cur.columns
    ensures NewRows(newT, cur, key).Some? ==>
      var r := NewRows(newT, cur, key).value;
      && r.columns == newT.columns
      && Subsequence(r.rows, newT.rows)
      && (forall x :: x in r.rows ==> x in newT.rows && Cell(x, key) !in KeyValues(cur, key))
      && (forall x :: x in newT.rows && Cell(x, key) !in KeyValues(cur, key) ==> x in r.rows)
      && (forall x :: Cell(x, key) !in KeyValues(cur, key) ==> multiset(r.rows)[x] == multiset(newT.rows)[x])
  {
    var p := AbsentFrom(key, KeyValues(cur, key));
    FilterSubsequence(newT.rows, p);
    FilterMembers(newT.rows, p);
    FilterCounts(newT.rows, p);
  }

  /** A table compared with itself has no new rows. */
  lemma NewRowsAgainstItself(t: Table, key: string)
    requires key in t.columns
    ensures NewRows(t, t, key) == Some(Table(t.columns, []))
  {
    var ks := KeyValues(t, key);
    var p := AbsentFrom(key, ks);
    forall i | 0 <= i < |t.rows| ensures !p(t.rows[i]) {
      assert ks[i] == Cell(t.rows[i], key);
    }
    FilterEmpty(t.rows, p);
  }

  /** Against a current table with a header but no rows, every uploaded row
      is new. */
  lemma NewRowsAgainstNoRows(newT: Table, cur: Table, key: string)
    requires key in newT.columns && key in cur.columns && cur.rows == []
    ensures NewRows(newT, cur, key) == Some(newT)
  {
    FilterAll(newT.rows, AbsentFrom(key, KeyValues(cur, key)));
  }

  /** Taking the new rows a second time against the same table changes
      nothing. */
  lemma NewRowsIdempotent(newT: Table, cur: Table, key: string)
    requires NewRows(newT, cur, key).Some?
    ensures NewRows(NewRows(newT, cur, key).value, cur, key) == NewRows(newT, cur, key)
  {
    FilterIdempotent(newT.rows, AbsentFrom(key, KeyValues(cur, key)));
  }
}
