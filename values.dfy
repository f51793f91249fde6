/** Values held in worksheet cells, the rows and tables built from them, and
    the Python dicts that callers pass to the record store. */
module Values {

  datatype Option<T> = None | Some(value: T)

  /** A cell value. `Null` stands for pandas' NaN and Python's None. `Num` is
      an opaque stand-in for a float: it is known only by its literal text and
      compared by equality. */
  datatype Value = Str(s: string) | Int(i: int) | Num(literal: string) | Null

  /** A stored row: its cells by column name. A column absent from the map
      reads as `Null`, as pandas fills a missing cell with NaN. */
  type Row = map<string, Value>

  /** A Python dict passed as an argument, with its entries in insertion
      order. */
  type Fields = seq<(string, Value)>

  /** An in-memory table: the column header and the rows, in order. */
  datatype Table = Table(columns: seq<string>, rows: seq<Row>)

  /** The value a row holds in a column (NaN when it holds none). */
  function Cell(r: Row, c: string): Value
  {
    if c in r then r[c] else Null
  }

  /** pandas' `DataFrame.empty`: true when either axis has length zero. */
  predicate IsEmpty(t: Table)
  {
    |t.rows| == 0 || |t.columns| == 0
  }

  /** The keys of a dict, in insertion order. */
  function KeysOf(f: Fields): (ks: seq<string>)
    ensures |ks| == |f|
    ensures forall i :: 0 <= i < |f| ==> ks[i] == f[i].0
  {
    seq(|f|, i requires 0 <= i < |f| => f[i].0)
  }

  /** The dict as a map from key to value: a later entry for a key wins. */
  function ToMap(f: Fields): (m: Row)
    ensures forall k :: k in m <==> k in KeysOf(f)
  {
    if f == [] then map[] else ToMap(f[..|f| - 1])[f[|f| - 1].0 := f[|f| - 1].1]
  }

  /** A dict whose keys are pairwise distinct, as every Python dict literal
      written with distinct keys is. */
  predicate DistinctKeys(f: Fields)
  {
    forall i, j :: 0 <= i < j < |f| ==> f[i].0 != f[j].0
  }

  /** With distinct keys, every entry is found in the map. */
  lemma {:induction false} ToMapLookup(f: Fields, i: nat)
    requires DistinctKeys(f) && i < |f|
    ensures f[i].0 in ToMap(f) && ToMap(f)[f[i].0] == f[i].1
  {
    var g := f[..|f| - 1];
    if i < |f| - 1 {
      ToMapLookup(g, i);
    }
  }

  /** The column header after the keys `keys` are met in order: an unseen
      key is appended once, at the end; a known key leaves it as it is. */
  function Extend(cols: seq<string>, keys: seq<string>): (r: seq<string>)
    ensures |cols| <= |r| && r[..|cols|] == cols
    ensures forall c :: c in r <==> c in cols || c in keys
  {
    if keys == [] then cols
    else
      var c := Extend(cols, keys[..|keys| - 1]);
      var k := keys[|keys| - 1];
      if k in c then c else c + [k]
  }

  /** Extending adds no duplicate: the appended columns are new and
      pairwise distinct. */
  lemma {:induction false} ExtendNoDuplicates(cols: seq<string>, keys: seq<string>)
    ensures forall i, j :: |cols| <= i < j < |Extend(cols, keys)| ==>
              Extend(cols, keys)[i] != Extend(cols, keys)[j]
    ensures forall i, j :: 0 <= i < |cols| <= j < |Extend(cols, keys)| ==>
              cols[i] != Extend(cols, keys)[j]
  {
    if keys != [] {
      var ks := keys[..|keys| - 1];
      ExtendNoDuplicates(cols, ks);
      assert keys == ks + [keys[|keys| - 1]];
    }
  }

  /** The dict built from optional entries: an entry for each key whose
      value is present, in the given order. */
  function Entries(l: seq<(string, Option<Value>)>): Fields
  {
    if l == [] then [] else Entry(l[0]) + Entries(l[1..])
  }

  /** One optional entry: its key and value when the value is present. */
  function Entry(e: (string, Option<Value>)): Fields
  {
    if e.1.Some? then [(e.0, e.1.value)] else []
  }

  /** The built dict holds a key exactly when some entry for it is present,
      and each of its entries comes from a present entry. */
  lemma {:induction false} EntriesSpec(l: seq<(string, Option<Value>)>)
    ensures forall k :: k in KeysOf(Entries(l)) <==> exists j :: 0 <= j < |l| && l[j].0 == k && l[j].1.Some?
    ensures forall i :: 0 <= i < |Entries(l)| ==>
              exists j :: 0 <= j < |l| && l[j].0 == Entries(l)[i].0 && l[j].1 == Some(Entries(l)[i].1)
  {
    if l == [] {
      assert |Entries(l)| == 0;
    } else {
      EntriesSpec(l[1..]);
      assert forall j :: 1 <= j < |l| ==> l[j] == l[1..][j - 1];
      var head := Entry(l[0]);
      assert Entries(l) == head + Entries(l[1..]);
      var e := Entries(l[1..]);
      assert KeysOf(Entries(l)) == KeysOf(head) + KeysOf(e);
      forall k
        ensures k in KeysOf(Entries(l)) <==> exists j :: 0 <= j < |l| && l[j].0 == k && l[j].1.Some?
      {
        if exists j :: 0 <= j < |l| && l[j].0 == k && l[j].1.Some? {
          var j :| 0 <= j < |l| && l[j].0 == k && l[j].1.Some?;
          if j > 0 {
            assert l[1..][j - 1].0 == k && l[1..][j - 1].1.Some?;
            assert k in KeysOf(e);
          } else {
            assert KeysOf(head) == [k];
          }
        }
        if k in KeysOf(head) {
          assert l[0].0 == k && l[0].1.Some?;
        } else if k in KeysOf(e) {
          var j :| 0 <= j < |l[1..]| && l[1..][j].0 == k && l[1..][j].1.Some?;
          assert l[j + 1].0 == k && l[j + 1].1.Some?;
        }
      }
      forall i | 0 <= i < |Entries(l)|
        ensures exists j :: 0 <= j < |l| && l[j].0 == Entries(l)[i].0 && l[j].1 == Some(Entries(l)[i].1)
      {
        if i >= |head| {
          assert Entries(l)[i] == e[i - |head|];
          var j :| 0 <= j < |l[1..]| && l[1..][j].0 == e[i - |head|].0 && l[1..][j].1 == Some(e[i - |head|].1);
          assert l[j + 1] == l[1..][j];
          assert l[j + 1].0 == Entries(l)[i].0 && l[j + 1].1 == Some(Entries(l)[i].1);
        } else {
          assert Entries(l)[i] == head[i] == (l[0].0, l[0].1.value);
          assert l[0].0 == Entries(l)[i].0 && l[0].1 == Some(Entries(l)[i].1);
        }
      }
    }
  }

  /** With distinct keys, the built dict maps each present key to its
      value, and names no key twice. */
  lemma EntriesLookup(l: seq<(string, Option<Value>)>)
    requires forall i, j :: 0 <= i < j < |l| ==> l[i].0 != l[j].0
    ensures DistinctKeys(Entries(l))
    ensures forall j :: 0 <= j < |l| && l[j].1.Some? ==> l[j].0 in ToMap(Entries(l)) && ToMap(Entries(l))[l[j].0] == l[j].1.value
    ensures forall k :: k in ToMap(Entries(l)) <==> exists j :: 0 <= j < |l| && l[j].0 == k && l[j].1.Some?
  {
    EntriesSpec(l);
    var f := Entries(l);
    forall a, b | 0 <= a < b < |f|
      ensures f[a].0 != f[b].0
    {
      EntriesOrder(l, a, b);
    }
    forall j | 0 <= j < |l| && l[j].1.Some?
      ensures l[j].0 in ToMap(f) && ToMap(f)[l[j].0] == l[j].1.value
    {
      assert l[j].0 in KeysOf(f);
      var i :| 0 <= i < |f| && KeysOf(f)[i] == l[j].0;
      ToMapLookup(f, i);
      var j' :| 0 <= j' < |l| && l[j'].0 == f[i].0 && l[j'].1 == Some(f[i].1);
      assert j' == j;
    }
  }

  /** Entries keep the order of the list they come from: the entries at
      two positions come from two different list positions, in the same
      order. */
  lemma {:induction false} EntriesOrder(l: seq<(string, Option<Value>)>, a: nat, b: nat)
    requires forall i, j :: 0 <= i < j < |l| ==> l[i].0 != l[j].0
    requires a < b < |Entries(l)|
    ensures Entries(l)[a].0 != Entries(l)[b].0
  {
    var head := Entry(l[0]);
    var e := Entries(l[1..]);
    assert Entries(l) == head + e;
    EntriesSpec(l[1..]);
    if a >= |head| {
      EntriesOrder(l[1..], a - |head|, b - |head|);
    } else {
      var j :| 0 <= j < |l[1..]| && l[1..][j].0 == e[b - 1].0 && l[1..][j].1 == Some(e[b - 1].1);
      assert l[j + 1].0 == Entries(l)[b].0;
    }
  }

  /** Building from two lists one after the other is building from the
      first and then from the second. */
  lemma {:induction false} EntriesAppend(a: seq<(string, Option<Value>)>, b: seq<(string, Option<Value>)>)
    ensures Entries(a + b) == Entries(a) + Entries(b)
  {
    if a == [] {
      assert a + b == b;
    } else {
      assert (a + b)[1..] == a[1..] + b;
      EntriesAppend(a[1..], b);
    }
  }

  /** One more optional entry adds its key and value when it is present. */
  lemma EntriesSnoc(l: seq<(string, Option<Value>)>, k: nat)
    requires k < |l|
    ensures Entries(l[..k + 1]) == Entries(l[..k]) + Entry(l[k])
  {
    assert l[..k + 1] == l[..k] + [l[k]];
    EntriesAppend(l[..k], [l[k]]);
    assert [l[k]][1..] == [];
  }

  /** With distinct keys, an entry's key is in the built dict exactly when
      its value is present, and then maps to that value. */
  lemma EntryAt(l: seq<(string, Option<Value>)>, j: nat)
    requires forall i, j :: 0 <= i < j < |l| ==> l[i].0 != l[j].0
    requires j < |l|
    ensures l[j].0 in ToMap(Entries(l)) <==> l[j].1.Some?
    ensures l[j].1.Some? ==> ToMap(Entries(l))[l[j].0] == l[j].1.value
  {
    EntriesLookup(l);
    if l[j].0 in ToMap(Entries(l)) {
      var j' :| 0 <= j' < |l| && l[j'].0 == l[j].0 && l[j'].1.Some?;
      assert j' == j;
    }
  }

  /** A key that no entry names is not in the built dict. */
  lemma EntryAbsent(l: seq<(string, Option<Value>)>, k: string)
    requires forall j :: 0 <= j < |l| ==> l[j].0 != k
    ensures k !in ToMap(Entries(l))
  {
    EntriesSpec(l);
  }

  /** The dict gathered from the first `n` optional entries, one after the
      other. */
  function Gathered(l: seq<(string, Option<Value>)>, n: nat): Fields
    requires n <= |l|
  {
    if n == 0 then [] else Gathered(l, n - 1) + Entry(l[n - 1])
  }

  /** Gathering one entry after the other builds the same dict. */
  lemma {:induction false} GatheredEntries(l: seq<(string, Option<Value>)>, n: nat)
    requires n <= |l|
    ensures Gathered(l, n) == Entries(l[..n])
  {
    if n == 0 {
      assert l[..0] == [];
    } else {
      GatheredEntries(l, n - 1);
      EntriesSnoc(l, n - 1);
    }
  }

  lemma GatheredAll(l: seq<(string, Option<Value>)>)
    ensures Gathered(l, |l|) == Entries(l)
  {
    GatheredEntries(l, |l|);
    assert l[..|l|] == l;
  }

  /** The dict literal pairing each key with the value at the same
      position. */
  function Pairs(keys: seq<string>, vals: seq<Value>): (f: Fields)
    requires |keys| == |vals|
    ensures KeysOf(f) == keys
  {
    seq(|keys|, i requires 0 <= i < |keys| => (keys[i], vals[i]))
  }

  /** With distinct keys, each key maps to the value at its position. */
  lemma PairsLookup(keys: seq<string>, vals: seq<Value>)
    requires |keys| == |vals|
    requires forall i, j :: 0 <= i < j < |keys| ==> keys[i] != keys[j]
    ensures DistinctKeys(Pairs(keys, vals))
    ensures ToMap(Pairs(keys, vals)).Keys == set k | k in keys
    ensures forall i :: 0 <= i < |keys| ==> ToMap(Pairs(keys, vals))[keys[i]] == vals[i]
  {
    var f := Pairs(keys, vals);
    forall i | 0 <= i < |keys|
      ensures keys[i] in ToMap(f) && ToMap(f)[keys[i]] == vals[i]
    {
      ToMapLookup(f, i);
    }
  }
}
