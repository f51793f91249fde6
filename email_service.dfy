/** The Gmail side of the e-mail service: reading the subject and the
    sender out of a message's headers, choosing the part that holds the
    body, and the base64url coding (section 5 of RFC 4648) that carries
    message bytes in both directions. */
module EmailService {
  import opened Values

  type Byte = b: int | 0 <= b < 256

  /** The character for a six-bit value in the URL- and filename-safe
      alphabet: A-Z, a-z, 0-9, '-', '_'. */
  function Char64(i: nat): (c: char)
    requires i < 64
    ensures c != '='
  {
    if i < 26 then ('A' as int + i) as char
    else if i < 52 then ('a' as int + (i - 26)) as char
    else if i < 62 then ('0' as int + (i - 52)) as char
    else if i == 62 then '-'
    else '_'
  }

  /** The six-bit value of an alphabet character; none for '=' and for any
      character outside the alphabet. */
  function Index64(c: char): (r: Option<nat>)
    ensures r.Some? ==> r.value < 64 && Char64(r.value) == c
  {
    if 'A' <= c <= 'Z' then Some(c as int - 'A' as int)
    else if 'a' <= c <= 'z' then Some(c as int - 'a' as int + 26)
    else if '0' <= c <= '9' then Some(c as int - '0' as int + 52)
    else if c == '-' then Some(62)
    else if c == '_' then Some(63)
    else None
  }

  /** Every six-bit value is read back from its character. */
  lemma Index64OfChar(i: nat)
    requires i < 64
    ensures Index64(Char64(i)) == Some(i)
  {
  }

  /** Three bytes as four characters, six bits each. */
  function EncodeGroup(b0: Byte, b1: Byte, b2: Byte): (q: string)
    ensures |q| == 4 && '=' !in q
  {
    [Char64(b0 / 4), Char64(b0 % 4 * 16 + b1 / 16), Char64(b1 % 16 * 4 + b2 / 64), Char64(b2 % 64)]
  }

  /** The last one or two bytes as four characters ending in '='
      padding. */
  function EncodeTail(b: seq<Byte>): (q: string)
    requires 1 <= |b| <= 2
    ensures |q| == 4 && q[3] == '=' && (|b| == 1 <==> q[2] == '=')
  {
    if |b| == 1 then [Char64(b[0] / 4), Char64(b[0] % 4 * 16), '=', '=']
    else [Char64(b[0] / 4), Char64(b[0] % 4 * 16 + b[1] / 16), Char64(b[1] % 16 * 4), '=']
  }

  /** `urlsafe_b64encode`: each three bytes become four characters; a final
      one or two bytes become four characters ending in '=' padding. */
  function Encode(b: seq<Byte>): (s: string)
    ensures |s| % 4 == 0 && (|s| == 0 <==> |b| == 0) && (|b| <= 3 ==> |s| <= 4)
  {
    if |b| == 0 then ""
    else if |b| <= 2 then EncodeTail(b)
    else EncodeGroup(b[0], b[1], b[2]) + Encode(b[3..])
  }

  /** One group of four characters: three bytes, or, in the last group,
      two bytes before one '=' or one byte before two. Bits below the last
      whole byte are ignored, as Python's decoder does. */
  function DecodeQuad(c0: char, c1: char, c2: char, c3: char, last: bool): Option<seq<Byte>>
  {
    var i0 := Index64(c0);
    var i1 := Index64(c1);
    if i0.None? || i1.None? then None
    else
      var b0 := i0.value * 4 + i1.value / 16;
      if c2 == '=' then
        if last && c3 == '=' then Some([b0]) else None
      else
        var i2 := Index64(c2);
        if i2.None? then None
        else
          var b1 := i1.value % 16 * 16 + i2.value / 4;
          if c3 == '=' then
            if last then Some([b0, b1]) else None
          else
            var i3 := Index64(c3);
            if i3.None? then None
            else Some([b0, b1, i2.value % 4 * 64 + i3.value])
  }

  /** `urlsafe_b64decode` of canonical input: groups of four alphabet
      characters, with '=' padding only in the last group; none for any
      other text, where Python raises or repairs the input. */
  function Decode(s: string): Option<seq<Byte>>
    decreases |s|
  {
    if s == [] then Some([])
    else if |s| < 4 then None
    else Join(DecodeQuad(s[0], s[1], s[2], s[3], |s| == 4), Decode(s[4..]))
  }

  /** Both parts decoded, one after the other; none when either failed. */
  function Join(a: Option<seq<Byte>>, b: Option<seq<Byte>>): (r: Option<seq<Byte>>)
    ensures r.Some? <==> a.Some? && b.Some?
  {
    if a.None? || b.None? then None else Some(a.value + b.value)
  }

  /** The padded last group decodes to its one or two bytes. */
  lemma DecodeTail(b: seq<Byte>)
    requires 1 <= |b| <= 2
    ensures var q := EncodeTail(b); DecodeQuad(q[0], q[1], q[2], q[3], true) == Some(b) && b + [] == b
  {
    Index64OfChar(b[0] / 4);
    if |b| == 1 {
      Index64OfChar(b[0] % 4 * 16);
      assert b[0] / 4 * 4 + b[0] % 4 * 16 / 16 == b[0];
      assert b == [b[0]];
    } else {
      var i0, i1, i2 := b[0] / 4, b[0] % 4 * 16 + b[1] / 16, b[1] % 16 * 4;
      Index64OfChar(i1);
      Index64OfChar(i2);
      assert i0 * 4 + i1 / 16 == b[0];
      assert i1 % 16 * 16 + i2 / 4 == b[1];
      assert b == [b[0], b[1]];
    }
  }

  /** A full group decodes to its three bytes, in any position. */
  lemma DecodeThreeBytes(b0: Byte, b1: Byte, b2: Byte, last: bool)
    ensures var q := EncodeGroup(b0, b1, b2); DecodeQuad(q[0], q[1], q[2], q[3], last) == Some([b0, b1, b2])
  {
    var i0, i1, i2, i3 := b0 / 4, b0 % 4 * 16 + b1 / 16, b1 % 16 * 4 + b2 / 64, b2 % 64;
    Index64OfChar(i0);
    Index64OfChar(i1);
    Index64OfChar(i2);
    Index64OfChar(i3);
    assert i0 * 4 + i1 / 16 == b0;
    assert i1 % 16 * 16 + i2 / 4 == b1;
    assert i2 % 4 * 64 + i3 == b2;
  }

  /** Decoding a group followed by more text is decoding the group and
      then the rest. */
  lemma DecodeConcat(q: string, t: string, bytes: seq<Byte>)
    requires |q| == 4 && DecodeQuad(q[0], q[1], q[2], q[3], t == []) == Some(bytes)
    requires Decode(t).Some?
    ensures Decode(q + t) == Some(bytes + Decode(t).value)
  {
    var s := q + t;
    assert s[0] == q[0] && s[1] == q[1] && s[2] == q[2] && s[3] == q[3];
    assert s[4..] == t;
  }

  /** Decoding what was encoded gives the bytes back. */
  lemma {:induction false} DecodeEncode(b: seq<Byte>)
    ensures Decode(Encode(b)) == Some(b)
  {
    if 1 <= |b| <= 2 {
      DecodeEncodeTail(b);
    } else if |b| >= 3 {
      DecodeEncode(b[3..]);
      DecodeEncodeGroup(b);
    }
  }

  /** One or two bytes come back from their padded group. */
  lemma {:induction false} DecodeEncodeTail(b: seq<Byte>)
    requires 1 <= |b| <= 2
    ensures Decode(Encode(b)) == Some(b)
  {
    DecodeTail(b);
    DecodeConcat(EncodeTail(b), [], b);
    assert EncodeTail(b) + [] == EncodeTail(b);
  }

  /** If the bytes after the first three come back, so do all of them. */
  lemma {:induction false} DecodeEncodeGroup(b: seq<Byte>)
    requires |b| >= 3 && Decode(Encode(b[3..])) == Some(b[3..])
    ensures Decode(Encode(b)) == Some(b)
  {
    assert b == [b[0], b[1], b[2]] + b[3..];
    var q, t := EncodeGroup(b[0], b[1], b[2]), Encode(b[3..]);
    DecodeThreeBytes(b[0], b[1], b[2], t == []);
    DecodeConcat(q, t, [b[0], b[1], b[2]]);
    assert Encode(b) == q + t;
  }

  /** One message header. */
  datatype Header = Header(name: string, value: string)

  /** Header `i` is the first one with that name. */
  predicate FirstNamed(headers: seq<Header>, name: string, i: int)
  {
    0 <= i < |headers| && headers[i].name == name && forall j :: 0 <= j < i ==> headers[j].name != name
  }

  /** `next((h['value'] for h in headers if h['name'] == name), default)`. */
  function HeaderValue(headers: seq<Header>, name: string, default: string): string
  {
    if headers == [] then default
    else if headers[0].name == name then headers[0].value
    else HeaderValue(headers[1..], name, default)
  }

  /** The value of the first header with that name, or the default when no
      header has it. */
  lemma {:induction false} HeaderValueSpec(headers: seq<Header>, name: string, default: string)
    ensures (forall i :: 0 <= i < |headers| ==> headers[i].name != name) ==> HeaderValue(headers, name, default) == default
    ensures forall i :: FirstNamed(headers, name, i) ==> HeaderValue(headers, name, default) == headers[i].value
  {
    if headers != [] {
      HeaderValueSpec(headers[1..], name, default);
      assert forall i :: 1 <= i < |headers| ==> headers[i] == headers[1..][i - 1];
    }
  }

  /** A message part: its MIME type (if it names one) and its body data. */
  datatype Part = Part(mimeType: Option<string>, data: Option<string>)

  /** A message payload: its parts, when it has a 'parts' entry, and its
      own body data. */
  datatype Payload = Payload(parts: Option<seq<Part>>, bodyData: Option<string>)

  /** Data that is present and not empty, as `if data:` reads it. */
  predicate Given(d: Option<string>)
  {
    d.Some? && d.value != ""
  }

  /** A text/plain part with data. */
  predicate PlainWithData(p: Part)
  {
    p.mimeType == Some("text/plain") && Given(p.data)
  }

  /** The loop over the parts: the data of the first text/plain part that
      has data. */
  function FirstPlainText(parts: seq<Part>): Option<string>
  {
    if parts == [] then None
    else if PlainWithData(parts[0]) then parts[0].data
    else FirstPlainText(parts[1..])
  }

  /** The search finds the first text/plain part with data, and nothing
      when no part is one. */
  lemma {:induction false} FirstPlainTextSpec(parts: seq<Part>)
    ensures FirstPlainText(parts).None? <==> forall i :: 0 <= i < |parts| ==> !PlainWithData(parts[i])
    ensures forall i :: 0 <= i < |parts| && PlainWithData(parts[i]) && (forall j :: 0 <= j < i ==> !PlainWithData(parts[j])) ==>
              FirstPlainText(parts) == parts[i].data
  {
    if parts != [] {
      FirstPlainTextSpec(parts[1..]);
      assert forall i :: 1 <= i < |parts| ==> parts[i] == parts[1..][i - 1];
      if !PlainWithData(parts[0]) && FirstPlainText(parts).None? {
        forall i | 0 <= i < |parts|
          ensures !PlainWithData(parts[i])
        {
          if i > 0 {
            assert parts[i] == parts[1..][i - 1];
          }
        }
      }
    }
  }

  /** The encoded data `_extract_body` decodes: with parts, the first
      text/plain part's; without, the payload's own body data. */
  function SelectedData(payload: Payload): Option<string>
  {
    if payload.parts.Some? then FirstPlainText(payload.parts.value)
    else if Given(payload.bodyData) then payload.bodyData
    else None
  }

  /** What `_extract_body` gives: the decoded body bytes, `NoBody` for its
      `None`, or `Undecodable` where the decoder raises. */
  datatype Body = BodyBytes(bytes: seq<Byte>) | NoBody | Undecodable

  /** `_extract_body`. */
  function ExtractBody(payload: Payload): (r: Body)
    ensures r.NoBody? <==> SelectedData(payload).None?
  {
    var d := SelectedData(payload);
    if d.None? then NoBody
    else
      var bytes := Decode(d.value);
      if bytes.None? then Undecodable else BodyBytes(bytes.value)
  }

  /** A payload with parts takes its body from the parts alone: when no
      part is text/plain with data there is no body, whatever the payload's
      own body data. */
  lemma PartsOverrideBody(parts: seq<Part>, bodyData: Option<string>)
    requires forall i :: 0 <= i < |parts| ==> !PlainWithData(parts[i])
    ensures ExtractBody(Payload(Some(parts), bodyData)) == NoBody
  {
    FirstPlainTextSpec(parts);
  }

  /** A body that was encoded is read back: from the payload's own data
      when it has no parts, and from the first text/plain part when it has
      parts; missing or empty data gives no body. */
  lemma ExtractBodyRoundTrip(b: seq<Byte>, before: seq<Part>, after: seq<Part>)
    requires b != []
    requires forall i :: 0 <= i < |before| ==> !PlainWithData(before[i])
    ensures ExtractBody(Payload(None, Some(Encode(b)))) == BodyBytes(b)
    ensures ExtractBody(Payload(Some(before + [Part(Some("text/plain"), Some(Encode(b)))] + after), None)) == BodyBytes(b)
    ensures ExtractBody(Payload(None, None)) == NoBody && ExtractBody(Payload(None, Some(""))) == NoBody
  {
    DecodeEncode(b);
    var parts := before + [Part(Some("text/plain"), Some(Encode(b)))] + after;
    FirstPlainTextSpec(parts);
    assert parts[|before|] == Part(Some("text/plain"), Some(Encode(b)));
    assert forall j :: 0 <= j < |before| ==> parts[j] == before[j];
  }

  /** The fields `_get_message_details` returns. */
  datatype Details = Details(id: string, subject: string, sender: string, body: Body)

  /** `_get_message_details`, after the message was fetched. */
  function MessageDetails(id: string, headers: seq<Header>, payload: Payload): (d: Details)
    ensures d.id == id && d.body == ExtractBody(payload)
  {
    Details(id, HeaderValue(headers, "Subject", "(No Subject)"), HeaderValue(headers, "From", "(No Sender)"),
            ExtractBody(payload))
  }

  /** Subject and sender are the first such headers, with the fixed
      placeholders when the message has none. */
  lemma MessageDetailsHeaders(id: string, headers: seq<Header>, payload: Payload)
    ensures var d := MessageDetails(id, headers, payload);
      && ((forall i :: 0 <= i < |headers| ==> headers[i].name != "Subject") ==> d.subject == "(No Subject)")
      && ((forall i :: 0 <= i < |headers| ==> headers[i].name != "From") ==> d.sender == "(No Sender)")
      && (forall i :: FirstNamed(headers, "Subject", i) ==> d.subject == headers[i].value)
      && (forall i :: FirstNamed(headers, "From", i) ==> d.sender == headers[i].value)
  {
    HeaderValueSpec(headers, "Subject", "(No Subject)");
    HeaderValueSpec(headers, "From", "(No Sender)");
  }
}
