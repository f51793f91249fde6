/** The column schemas of the three worksheets and the cell converters used
    with them: phone-number normalisation, its pre-save inverse, and the
    text step of number parsing (Spanish-style "1.234,5" to "1234.5"). */
module DomainTypes {
  import opened Values
  import opened DateFormat
  import opened Worksheets
  import opened Seqs

  /** `str.replace(c, '')`: every occurrence of `c` deleted; what is left
      keeps its order. */
  function Without(s: string, c: char): (r: string)
    ensures c !in r && |r| <= |s|
    ensures Subsequence(r, s)
  {
    if s == [] then []
    else
      var rest := Without(s[1..], c);
      if s[0] == c then
        assert rest == [] || rest[0] != s[0];
        rest
      else
        assert ([s[0]] + rest)[1..] == rest;
        [s[0]] + rest
  }

  /** Deleting works piece by piece: the text of a concatenation loses `c`
      in each part separately. */
  lemma {:induction false} WithoutAppend(a: string, b: string, c: char)
    ensures Without(a + b, c) == Without(a, c) + Without(b, c)
  {
    if a == [] {
      assert a + b == b;
    } else {
      assert (a + b)[0] == a[0] && (a + b)[1..] == a[1..] + b;
      WithoutAppend(a[1..], b, c);
    }
  }

  /** Deleting `c` removes all of its occurrences and keeps every other
      character as often as it occurred. */
  lemma {:induction false} WithoutCounts(s: string, c: char)
    ensures forall x :: multiset(Without(s, c))[x] == if x == c then 0 else multiset(s)[x]
  {
    if s != [] {
      WithoutCounts(s[1..], c);
      assert s == [s[0]] + s[1..];
    }
  }

  /** A text without `c` is left as it is. */
  lemma {:induction false} WithoutAbsent(s: string, c: char)
    requires c !in s
    ensures Without(s, c) == s
  {
    if s != [] {
      assert c !in s[1..];
      WithoutAbsent(s[1..], c);
      assert s == [s[0]] + s[1..];
    }
  }

  /** `str.replace(a, b)` for single characters `a` and `b`. */
  function Replace(s: string, a: char, b: char): (r: string)
    ensures |r| == |s|
    ensures forall i :: 0 <= i < |s| ==> r[i] == if s[i] == a then b else s[i]
  {
    if s == [] then [] else [if s[0] == a then b else s[0]] + Replace(s[1..], a, b)
  }

  /** Replacing `a` by a different `b` leaves no `a`, adds to the `b`s one
      for every `a`, and keeps the count of every other character. */
  lemma {:induction false} ReplaceCounts(s: string, a: char, b: char)
    requires a != b
    ensures forall x :: multiset(Replace(s, a, b))[x] == (if x == a then 0 else if x == b then multiset(s)[a] + multiset(s)[b]
                                                    else multiset(s)[x])
  {
    if s != [] {
      ReplaceCounts(s[1..], a, b);
      assert s == [s[0]] + s[1..];
    }
  }

  /** `parse_number`'s text step: thousands dots deleted, then the decimal
      comma turned into a dot. What `float()` then makes of it is not part
      of this model. */
  function NumberText(s: string): string
  {
    Replace(Without(s, '.'), ',', '.')
  }

  /** The result has no comma; it has one dot per comma of the input and
      none of the input's dots; every other character keeps its count. */
  lemma NumberTextSpec(s: string)
    ensures ',' !in NumberText(s)
    ensures multiset(NumberText(s))['.'] == multiset(s)[',']
    ensures forall x :: x != '.' && x != ',' ==> multiset(NumberText(s))[x] == multiset(s)[x]
    ensures |NumberText(s)| == |s| - multiset(s)['.']
  {
    var w := Without(s, '.');
    WithoutCounts(s, '.');
    ReplaceCounts(w, ',', '.');
    var r := NumberText(s);
    assert multiset(r)[','] == 0;
    assert |multiset(s)| == |s| && |multiset(w)| == |w|;
    assert multiset(w) == multiset(s)[ '.' := 0];
  }

  /** The text step works character by character and in order: the text of
      a concatenation is the concatenation of the texts, a dot is dropped, a
      comma becomes a dot and any other character is kept. These facts fix
      the result of every input, so "1.234,5" can only give "1234.5". */
  lemma {:induction false} NumberTextByChar(a: string, b: string, x: char)
    ensures NumberText(a + b) == NumberText(a) + NumberText(b)
    ensures NumberText([x]) == if x == '.' then [] else if x == ',' then ['.'] else [x]
  {
    WithoutAppend(a, b, '.');
    ReplaceAppend(Without(a, '.'), Without(b, '.'), ',', '.');
    assert [x][1..] == [];
  }

  /** Replacing works piece by piece. */
  lemma {:induction false} ReplaceAppend(a: string, b: string, x: char, y: char)
    ensures Replace(a + b, x, y) == Replace(a, x, y) + Replace(b, x, y)
  {
    var l, r := Replace(a + b, x, y), Replace(a, x, y) + Replace(b, x, y);
    assert |l| == |r|;
    forall i | 0 <= i < |l| ensures l[i] == r[i] {
      if i < |a| {
        assert (a + b)[i] == a[i];
      } else {
        assert (a + b)[i] == b[i - |a|];
      }
    }
  }

  /** The worked example of the thousands and decimal separators. */
  lemma NumberTextExample()
    ensures NumberText("1.234,5") == "1234.5"
  {
    ExampleDotsDeleted();
    var w: string := "1234,5";
    assert Replace(w, ',', '.') == "1234.5" by {
      assert |Replace(w, ',', '.')| == 6;
    }
  }

  lemma ExampleDotsDeleted()
    ensures Without("1.234,5", '.') == "1234,5"
  {
    WithoutAbsent("234,5", '.');
    WithoutAppend("1.", "234,5", '.');
    assert "1." + "234,5" == "1.234,5";
    assert Without("1.", '.') == "1" by {
      assert "1."[1..] == "." && "."[1..] == [];
    }
  }

  /** A text with neither dot nor comma is left as it is. */
  lemma NumberTextPlain(s: string)
    requires '.' !in s && ',' !in s
    ensures NumberText(s) == s
  {
    WithoutAbsent(s, '.');
    assert Replace(s, ',', '.') == s;
  }

  /** `parse_phone_number`: a non-empty text loses its apostrophes and gets
      a leading '+' unless it already has one; anything else is returned as
      it is. */
  function ParsePhoneNumber(v: Value): Value
  {
    if v.Str? && v.s != "" then
      var t := Without(v.s, '\'');
      if |t| > 0 && t[0] == '+' then Str(t) else Str("+" + t)
    else v
  }

  /** Values that are not text, and the empty text, pass unchanged. */
  lemma PhoneNumberPassThrough(v: Value)
    requires !v.Str? || v.s == ""
    ensures ParsePhoneNumber(v) == v
  {
  }

  /** A non-empty text becomes a text that starts with '+' and holds no
      apostrophe; apart from apostrophes and '+' signs its characters are
      those of the input, in order, and at most one '+' is added. */
  lemma PhoneNumberShape(s: string)
    requires s != ""
    ensures ParsePhoneNumber(Str(s)).Str?
    ensures var r := ParsePhoneNumber(Str(s)).s;
      && |r| > 0 && r[0] == '+' && '\'' !in r
      && Without(r, '+') == Without(Without(s, '\''), '+')
      && 1 <= multiset(r)['+'] <= multiset(s)['+'] + 1
  {
    WithoutCounts(s, '\'');
    PrependPlus(Without(s, '\''));
  }

  /** A '+' put in front adds one '+' and nothing else. */
  lemma PrependPlus(t: string)
    ensures Without("+" + t, '+') == Without(t, '+')
    ensures multiset("+" + t)['+'] == multiset(t)['+'] + 1
    ensures '\'' !in t ==> '\'' !in "+" + t
  {
    var r := "+" + t;
    assert r[0] == '+' && r[1..] == t;
    assert multiset(r) == multiset{'+'} + multiset(t);
  }

  /** A text already free of apostrophes and starting with '+' is returned
      as it is: no second '+' is added. */
  lemma PhoneNumberFixed(s: string)
    requires s != "" && '\'' !in s && s[0] == '+'
    ensures ParsePhoneNumber(Str(s)) == Str(s)
  {
    WithoutAbsent(s, '\'');
  }

  /** Normalising twice is normalising once. */
  lemma PhoneNumberIdempotent(v: Value)
    ensures ParsePhoneNumber(ParsePhoneNumber(v)) == ParsePhoneNumber(v)
  {
    if v.Str? && v.s != "" {
      PhoneNumberShape(v.s);
      var r := ParsePhoneNumber(v).s;
      PhoneNumberFixed(r);
    }
  }

  /** `str(x)` of a non-null cell value. */
  function Text(v: Value): string
  {
    match v
    case Str(s) => s
    case Int(i) => IntText(i)
    case Num(l) => l
    case Null => ""
  }

  /** The pre-save converter of TELEFONO: an apostrophe before the value's
      text, so that the sheet keeps it as text; a null cell stays null. */
  function PreSaveTelefono(v: Value): Value
  {
    if v.Null? then v else Str("'" + Text(v))
  }

  /** Reading back what was saved gives the same phone number as reading
      the original non-empty text; a null cell stays null. */
  lemma PreSaveRoundTrip(s: string)
    requires s != ""
    ensures ParsePhoneNumber(PreSaveTelefono(Str(s))) == ParsePhoneNumber(Str(s))
    ensures PreSaveTelefono(Null) == Null
  {
    var p := "'" + s;
    assert p[0] == '\'' && p[1..] == s;
    assert Without(p, '\'') == Without(s, '\'');
  }

  /** The empty text is where the round trip stops: it is saved as a lone
      apostrophe and read back as a lone '+'. */
  lemma PreSaveEmptyText()
    ensures PreSaveTelefono(Str("")) == Str("'")
    ensures ParsePhoneNumber(PreSaveTelefono(Str(""))) == Str("+") != ParsePhoneNumber(Str(""))
  {
    assert Without("'", '\'') == [];
  }

  /** pandas column types. */
  datatype Dtype = StringDtype | Float64Dtype

  /** The cell converters applied on reading. */
  datatype Converter = ToStr | ToInt | ParseNumber | ParsePhone

  const TRANSACTIONS_TYPES: map<string, Dtype> := map[
    FECHA := StringDtype, "Concepto" := StringDtype, MOVEMENT := StringDtype,
    "Referencia" := StringDtype, "Monto" := Float64Dtype, "QUERY" := StringDtype,
    "CORREO" := StringDtype, "TELEFONO" := StringDtype, "REMITENTE" := StringDtype,
    STATE := StringDtype, "EMAIL ID" := StringDtype, "WP ID" := StringDtype,
    "ARCHIVO" := StringDtype]

  const TRANSACTIONS_CONVERTERS: map<string, Converter> := map[
    FECHA := ToStr, "Concepto" := ToStr, MOVEMENT := ToStr,
    "Referencia" := ToStr, "Monto" := ParseNumber, "QUERY" := ToStr,
    "CORREO" := ToStr, "TELEFONO" := ParsePhone, "REMITENTE" := ToStr,
    STATE := ToStr, "EMAIL ID" := ToStr, "WP ID" := ToStr,
    "ARCHIVO" := ToStr]

  const TRANSACTIONS_PRE_SAVE: set<string> := {"TELEFONO"}

  const EMAIL_HISTORY_TYPES: map<string, Dtype> := map[
    FECHA := StringDtype, MOVEMENT := StringDtype, "EMAIL ID" := StringDtype, MENSAJE := StringDtype]

  const EMAIL_HISTORY_CONVERTERS: map<string, Converter> := map[
    FECHA := ToStr, MOVEMENT := ToStr, "EMAIL ID" := ToStr, MENSAJE := ToStr]

  const WP_HISTORY_TYPES: map<string, Dtype> := map[
    FECHA := StringDtype, MOVEMENT := StringDtype, "WP ID" := StringDtype, MENSAJE := StringDtype]

  const WP_HISTORY_CONVERTERS: map<string, Converter> := map[
    FECHA := ToStr, MOVEMENT := ToStr, "WP ID" := ToStr, MENSAJE := ToStr]

  function ColumnSet(cols: seq<string>): set<string>
  {
    set c | c in cols
  }

  /** The transactions type map and converter map name the same columns,
      exactly those of the transactions header; the pre-save converters
      name columns of that header. */
  lemma TransactionSchemaCovers()
    ensures TRANSACTIONS_TYPES.Keys == TRANSACTIONS_CONVERTERS.Keys == ColumnSet(TRANSACTION_COLUMNS)
    ensures TRANSACTIONS_PRE_SAVE <= TRANSACTIONS_TYPES.Keys
  {
  }

  /** The email-history type map and converter map name exactly the
      email-history header's columns. */
  lemma EmailHistorySchemaCovers()
    ensures EMAIL_HISTORY_TYPES.Keys == EMAIL_HISTORY_CONVERTERS.Keys == ColumnSet(HistoryColumns("EMAIL ID"))
  {
  }

  /** The WhatsApp-history type map and converter map name exactly the
      WhatsApp-history header's columns. */
  lemma WpHistorySchemaCovers()
    ensures WP_HISTORY_TYPES.Keys == WP_HISTORY_CONVERTERS.Keys == ColumnSet(HistoryColumns("WP ID"))
  {
  }
}
