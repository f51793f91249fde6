/** The WhatsApp webhook endpoint: every incoming message that passes the
    gateway's extraction is echoed back to its sender's phone number. */
module Webhook {
  import opened Values
  import opened DateFormat
  import opened WhatsApp

  /** `s.split('@')[0]`: the text before the first '@', or all of it. */
  function BeforeAt(s: string): (r: string)
    ensures |r| <= |s| && r == s[..|r|]
    ensures '@' !in r
    ensures |r| < |s| ==> s[|r|] == '@'
  {
    if s == [] then []
    else if s[0] == '@' then []
    else [s[0]] + BeforeAt(s[1..])
  }

  /** The text before the first '@' is exactly the part a split at that '@'
      leaves in front. */
  lemma {:induction false} BeforeAtSplit(a: string, b: string)
    requires '@' !in a
    ensures BeforeAt(a + "@" + b) == a
  {
    if a != [] {
      assert (a + "@" + b)[1..] == a[1..] + "@" + b;
      BeforeAtSplit(a[1..], b);
    }
  }

  /** A text without '@' is kept whole. */
  lemma {:induction false} BeforeAtWhole(s: string)
    requires '@' !in s
    ensures BeforeAt(s) == s
  {
    if s != [] {
      BeforeAtWhole(s[1..]);
    }
  }

  /** The number the echo goes to: '+' and the sender id's part before its
      first '@' (a WhatsApp id is "<number>@<server>"). */
  function ReplyPhone(senderId: string): (phone: string)
    ensures |phone| >= 1 && phone[0] == '+'
    ensures phone[1..] == BeforeAt(senderId)
  {
    "+" + BeforeAt(senderId)
  }

  const ECHO_PREFIX := "[ECHO] Received your message: "

  /** Python's `str()` of a message text. A list or a dict is shown only as
      its brackets: Python's full rendering of them is not modelled. */
  function Display(j: Json): string
  {
    match j
    case JStr(s) => s
    case JNum(n) => IntText(n)
    case JBool(b) => if b then "True" else "False"
    case JNull => "None"
    case JArr(_) => "[...]"
    case JObj(_) => "{...}"
  }

  /** The echo reply text. */
  function EchoText(text: Json): (reply: string)
    ensures |reply| >= |ECHO_PREFIX| && reply[..|ECHO_PREFIX|] == ECHO_PREFIX
    ensures text.JStr? ==> reply[|ECHO_PREFIX|..] == text.s
  {
    ECHO_PREFIX + Display(text)
  }

  /** What the endpoint does with one request: `Handled` with the message it
      sends (if any), answered with ('OK', 200); `Raised` when the sender
      id is not text, since `split` then raises and nothing catches it. */
  datatype Outcome = Handled(send: Option<(string, string)>) | Raised

  /** The endpoint's answer to a handled request. */
  function Response(o: Outcome): (string, int)
    requires o.Handled?
  {
    ("OK", 200)
  }

  /** `webhook`. */
  function HandleWebhook(data: Json): (o: Outcome)
    ensures o.Handled? && o.send.Some? ==> ProcessIncomingMessage(data).Some?
    ensures o.Raised? ==> ProcessIncomingMessage(data).Some? && !ProcessIncomingMessage(data).value.0.JStr?
  {
    var result := ProcessIncomingMessage(data);
    if result.None? then Handled(None)
    else
      var (sender, text) := result.value;
      if !sender.JStr? then Raised
      else Handled(Some((ReplyPhone(sender.s), EchoText(text))))
  }

  /** A reply is sent exactly when the gateway extracted a message with a
      textual sender id; it goes to '+' and the id's number part, and says
      the text back after the echo prefix. Every handled request is
      answered with ('OK', 200). */
  lemma WebhookReplies(data: Json)
    ensures var o := HandleWebhook(data); var r := ProcessIncomingMessage(data);
      && (o.Handled? ==> Response(o) == ("OK", 200))
      && (o.Handled? && o.send.Some? <==> r.Some? && r.value.0.JStr?)
      && (o.Handled? && o.send.Some? ==> o.send.value == (ReplyPhone(r.value.0.s), EchoText(r.value.1)))
  {
  }

  /** For an id "<number>@<server>" the reply goes to "+<number>"; an id
      without '@' is used whole. */
  lemma ReplyPhoneOfId(number: string, server: string)
    requires '@' !in number
    ensures ReplyPhone(number + "@" + server) == "+" + number
    ensures ReplyPhone(number) == "+" + number
  {
    BeforeAtSplit(number, server);
    BeforeAtWhole(number);
  }
}
