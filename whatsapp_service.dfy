/** The WhatsApp gateway: reading a sender and a text out of an incoming
    webhook payload, and the API-key guard in front of an outgoing send. */
module WhatsApp {
  import opened Values

  /** A decoded JSON value, as `request.get_json()` hands it over. */
  datatype Json =
    | JNull
    | JBool(b: bool)
    | JNum(n: int)
    | JStr(s: string)
    | JArr(items: seq<Json>)
    | JObj(members: map<string, Json>)

  /** Python truthiness of a JSON value. */
  predicate Truthy(j: Json)
  {
    match j
    case JNull => false
    case JBool(b) => b
    case JNum(n) => n != 0
    case JStr(s) => s != ""
    case JArr(items) => items != []
    case JObj(m) => m != map[]
  }

  /** `d.get(key, default)`: `None` when `d` is not a dict, where Python
      raises (only dicts have `get`). */
  function Get(d: Json, key: string, default: Json): (r: Option<Json>)
    ensures r.Some? <==> d.JObj?
    ensures d.JObj? && key !in d.members ==> r == Some(default)
  {
    if d.JObj? then Some(if key in d.members then d.members[key] else default) else None
  }

  /** `x[0]` followed by a `.get`: only a list yields a value that can go
      on; on a dict, a number or a bool the subscript raises, and a text's
      first character has no `get`. */
  function First(messages: Json): Option<Json>
    requires Truthy(messages)
  {
    if messages.JArr? then Some(messages.items[0]) else None
  }

  const EMPTY: Json := JObj(map[])

  /** `process_incoming_message`: the sender and the text of the first
      message of a "chats.update" event, when it was not sent by this
      account and both are present; `None` for anything else, including a
      payload whose shape makes a lookup raise. */
  function ProcessIncomingMessage(data: Json): (r: Option<(Json, Json)>)
    ensures r.Some? ==> data.JObj? && "event" in data.members && data.members["event"] == JStr("chats.update")
    ensures r.Some? ==> Truthy(r.value.0) && Truthy(r.value.1)
  {
    var event := Get(data, "event", JNull);
    if event.None? || event.value != JStr("chats.update") then None
    else
      var d := Get(data, "data", EMPTY);
      var chats := if d.Some? then Get(d.value, "chats", EMPTY) else None;
      var messages := if chats.Some? then Get(chats.value, "messages", JArr([])) else None;
      if messages.None? || !Truthy(messages.value) then None
      else
        var first := First(messages.value);
        var entry := if first.Some? then Get(first.value, "message", EMPTY) else None;
        var key := if entry.Some? then Get(entry.value, "key", EMPTY) else None;
        var fromMe := if key.Some? then Get(key.value, "fromMe", JBool(true)) else None;
        var sender := if key.Some? then Get(key.value, "remoteJid", JStr("")) else None;
        var inner := if entry.Some? then Get(entry.value, "message", EMPTY) else None;
        var text := if inner.Some? then Get(inner.value, "conversation", JStr("")) else None;
        if fromMe.None? || sender.None? || text.None? then None
        else if !Truthy(fromMe.value) && Truthy(sender.value) && Truthy(text.value) then Some((sender.value, text.value))
        else None
  }

  /** The payload of a "chats.update" event carrying `messages`. */
  function ChatsUpdate(messages: seq<Json>): Json
  {
    JObj(map["event" := JStr("chats.update"),
             "data" := JObj(map["chats" := JObj(map["messages" := JArr(messages)])])])
  }

  /** One message entry: its key (with the fields given) and its body. */
  function Message(key: map<string, Json>, body: map<string, Json>): Json
  {
    JObj(map["message" := JObj(map["key" := JObj(key), "message" := JObj(body)])])
  }

  /** For a well-formed event, the pair is returned exactly when the first
      message was not sent by this account and has a non-empty sender and
      text; a missing `fromMe` counts as sent by this account. */
  lemma ProcessWellFormed(key: map<string, Json>, body: map<string, Json>, rest: seq<Json>)
    ensures var r := ProcessIncomingMessage(ChatsUpdate([Message(key, body)] + rest));
      var fromMe := if "fromMe" in key then key["fromMe"] else JBool(true);
      var sender := if "remoteJid" in key then key["remoteJid"] else JStr("");
      var text := if "conversation" in body then body["conversation"] else JStr("");
      && (r.Some? <==> !Truthy(fromMe) && Truthy(sender) && Truthy(text))
      && (r.Some? ==> r.value == (sender, text))
  {
  }

  /** Only the first message is looked at: the ones after it never change
      the result. */
  lemma ProcessFirstOnly(m: Json, rest: seq<Json>)
    ensures ProcessIncomingMessage(ChatsUpdate([m] + rest)) == ProcessIncomingMessage(ChatsUpdate([m]))
  {
  }

  /** A sender's own message, and a message without `fromMe`, give nothing. */
  lemma ProcessOwnMessage(key: map<string, Json>, body: map<string, Json>, rest: seq<Json>)
    requires "fromMe" !in key || Truthy(key["fromMe"])
    ensures ProcessIncomingMessage(ChatsUpdate([Message(key, body)] + rest)).None?
  {
    ProcessWellFormed(key, body, rest);
  }

  /** An event without messages, an event of another kind, and a payload
      that is not a dict give nothing. */
  lemma ProcessRejects(data: Json, event: string)
    requires event != "chats.update"
    ensures ProcessIncomingMessage(ChatsUpdate([])).None?
    ensures !data.JObj? ==> ProcessIncomingMessage(data).None?
    ensures data.JObj? && "event" in data.members && data.members["event"] == JStr(event) ==>
              ProcessIncomingMessage(data).None?
  {
  }

  /** A message entry that is not a dict makes the lookup raise, which is
      caught: nothing is returned. */
  lemma ProcessMalformedEntry(m: Json, rest: seq<Json>)
    requires !m.JObj?
    ensures ProcessIncomingMessage(ChatsUpdate([m] + rest)).None?
  {
  }

  const BASE_URL := "https://www.wasenderapi.com/api"

  /** The HTTP request `send_message` posts. */
  datatype Request = Request(url: string, authorization: string, to: string, text: string)

  /** The request `send_message` would post: none when the API key is
      unset or empty. */
  function SendRequest(apiKey: Option<string>, to: string, message: string): (r: Option<Request>)
    ensures r.Some? <==> apiKey.Some? && apiKey.value != ""
    ensures r.Some? ==> r.value.to == to && r.value.text == message
  {
    if apiKey.None? || apiKey.value == "" then None
    else Some(Request(BASE_URL + "/send-message", "Bearer " + apiKey.value, to, message))
  }

  /** `send_message`: true exactly when a request was posted and the
      gateway accepted it (`accepted`: no error raised and a success
      status). */
  function SendMessage(apiKey: Option<string>, to: string, message: string, accepted: bool): (sent: bool)
    ensures sent <==> SendRequest(apiKey, to, message).Some? && accepted
    ensures apiKey.None? || apiKey == Some("") ==> !sent
  {
    if apiKey.None? || apiKey.value == "" then false else accepted
  }
}
