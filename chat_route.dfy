/** The `/api/chat` route: it reads `messages`, `model` (with a default) and
    `attachments` from the body, prepends one system message naming the
    attachments when there are any, and asks the provider for a streamed
    completion. */
module ChatRoute {
  import opened Common

  /** The model used when the body has no `model` field. */
  const DEFAULT_MODEL: string := "meta-llama/Meta-Llama-3.1-8B-Instruct-Turbo"
  const ATTACHMENT_PREFIX: string := "The user has attached the following image(s):\n"

  /** The completion request sent to the provider. */
  datatype CompletionRequest = CompletionRequest(model: Json, messages: Option<Json>, stream: bool)

  /** The destructuring default: it applies only when `model` is absent, so a
      `null` model is passed on as it is. */
  function ModelOf(body: Json): (m: Json)
    ensures Field(body, "model").None? ==> m == JStr(DEFAULT_MODEL)
    ensures Field(body, "model").Some? ==> m == body.fields["model"]
  {
    match Field(body, "model")
    case None => JStr(DEFAULT_MODEL)
    case Some(v) => v
  }

  /** How `attachments && attachments.length > 0` and the following `join`
      go: no system message, a list to name, or a truthy non-array with a
      positive `length` (a string, or an object with a numeric `length`
      field) whose missing `join` throws. */
  datatype AttachmentCheck = NoAttachments | Listed(items: seq<Json>) | NotJoinable

  function CheckAttachments(attachments: Option<Json>): (r: AttachmentCheck)
    ensures !TruthyOpt(attachments) ==> r == NoAttachments
    ensures r.Listed? <==> attachments.Some? && attachments.value.JArr? && |attachments.value.items| > 0
    ensures r.Listed? ==> r.items == attachments.value.items
    ensures attachments.Some? && attachments.value.JStr? ==> (r.NotJoinable? <==> attachments.value.s != "")
  {
    if !TruthyOpt(attachments) then NoAttachments
    else match attachments.value
      case JArr(items) => if |items| > 0 then Listed(items) else NoAttachments
      case JStr(s) => if |s| > 0 then NotJoinable else NoAttachments
      case JObj(fields) =>
        if "length" in fields && fields["length"].JNum? && fields["length"].n > 0.0 then NotJoinable
        else NoAttachments
      case _ => NoAttachments
  }

  /** How `join` renders one element: a string as itself, `null` as the
      empty string, a boolean as its name. */
  function ElementText(j: Json): (t: string)
    ensures j.JStr? ==> t == j.s
    ensures j.JNull? ==> t == ""
  {
    match j
    case JStr(s) => s
    case JBool(b) => if b then "true" else "false"
    case _ => ""
  }

  function Texts(items: seq<Json>): (r: seq<string>)
    ensures |r| == |items|
    ensures forall i :: 0 <= i < |items| ==> r[i] == ElementText(items[i])
  {
    seq(|items|, i requires 0 <= i < |items| => ElementText(items[i]))
  }

  /** The system message naming the attachments, one per line. */
  function SystemMessage(items: seq<Json>): (m: Json)
    ensures m.JObj? && m.fields.Keys == {"role", "content"}
    ensures m.fields["role"] == JStr("system")
    ensures m.fields["content"] == JStr(ATTACHMENT_PREFIX + Join(Texts(items), "\n"))
  {
    JObj(map["role" := JStr("system"), "content" := JStr(ATTACHMENT_PREFIX + Join(Texts(items), "\n"))])
  }

  /** `[...messages]`: an array gives its items, a string its characters;
      anything else is not iterable and throws. */
  function Spread(messages: Option<Json>): (r: Option<seq<Json>>)
    ensures messages.Some? && messages.value.JArr? ==> r == Some(messages.value.items)
    ensures messages.Some? && messages.value.JStr? ==>
              r.Some? && |r.value| == |messages.value.s| &&
              forall i :: 0 <= i < |r.value| ==> r.value[i] == JStr([messages.value.s[i]])
    ensures r.Some? <==> messages.Some? && (messages.value.JArr? || messages.value.JStr?)
  {
    match messages
    case Some(JArr(items)) => Some(items)
    case Some(JStr(s)) => Some(seq(|s|, i requires 0 <= i < |s| => JStr([s[i]])))
    case _ => None
  }

  const NOT_ITERABLE: Json := JStr("TypeError: messages is not iterable")
  const NO_JOIN: Json := JStr("TypeError: attachments.join is not a function")

  /** The request built from a parsed body; destructuring a `null` body
      throws. */
  function Assemble(body: Json): (r: Outcome<CompletionRequest>)
    ensures r.Done? ==> r.value.stream && r.value.model == ModelOf(body)
    ensures body.JNull? ==> r.Thrown?
    ensures !body.JNull? && CheckAttachments(Field(body, "attachments")).NoAttachments? ==>
              r == Done(CompletionRequest(ModelOf(body), Field(body, "messages"), true))
    ensures !body.JNull? && CheckAttachments(Field(body, "attachments")).NotJoinable? ==> r == Thrown(NO_JOIN)
    ensures !body.JNull? && CheckAttachments(Field(body, "attachments")).Listed? ==>
              var items := CheckAttachments(Field(body, "attachments")).items;
              var spread := Spread(Field(body, "messages"));
              (spread.None? ==> r == Thrown(NOT_ITERABLE)) &&
              (spread.Some? ==> r.Done? && r.value.messages == Some(JArr([SystemMessage(items)] + spread.value)))
  {
    if body.JNull? then Thrown(JStr("TypeError: cannot destructure null"))
    else
      var model := ModelOf(body);
      var messages := Field(body, "messages");
      match CheckAttachments(Field(body, "attachments"))
      case NoAttachments => Done(CompletionRequest(model, messages, true))
      case NotJoinable => Thrown(NO_JOIN)
      case Listed(items) =>
        match Spread(messages)
        case None => Thrown(NOT_ITERABLE)
        case Some(list) => Done(CompletionRequest(model, Some(JArr([SystemMessage(items)] + list)), true))
  }

  /** With a non-empty list of attachments and an array of messages exactly
      one message is added, a system one in front, and the messages follow
      unchanged and in order. */
  lemma OneSystemMessagePrepended(body: Json)
    requires body.JObj?
    requires CheckAttachments(Field(body, "attachments")).Listed?
    requires Field(body, "messages").Some? && Field(body, "messages").value.JArr?
    ensures var r := Assemble(body);
            var original := body.fields["messages"].items;
            r.Done? && r.value.messages.Some? && r.value.messages.value.JArr? &&
            |r.value.messages.value.items| == |original| + 1 &&
            r.value.messages.value.items[0].fields["role"] == JStr("system") &&
            r.value.messages.value.items[1..] == original
  {
    var r := Assemble(body);
    var items := CheckAttachments(Field(body, "attachments")).items;
    assert r.value.messages.value.items == [SystemMessage(items)] + body.fields["messages"].items;
  }

  /** `sub` occurs in `s` after anything is put in front of `s`. */
  lemma {:induction false} ContainsAfterPrefix(a: string, s: string, sub: string)
    requires Contains(s, sub)
    ensures Contains(a + s, sub)
    decreases |a|
  {
    if a != [] {
      ContainsAfterPrefix(a[1..], s, sub);
      assert (a + s)[1..] == a[1..] + s;
    } else {
      assert a + s == s;
    }
  }

  /** Every part of a join occurs in the joined text. */
  lemma {:induction false} JoinContainsEachPart(parts: seq<string>, sep: string, i: int)
    requires 0 <= i < |parts|
    ensures Contains(Join(parts, sep), parts[i])
    decreases |parts|
  {
    if |parts| == 1 {
      assert parts[0] <= parts[0];
    } else if i == 0 {
      assert parts[0] <= Join(parts, sep);
    } else {
      JoinContainsEachPart(parts[1..], sep, i - 1);
      ContainsAfterPrefix(parts[0] + sep, Join(parts[1..], sep), parts[i]);
      assert Join(parts, sep) == (parts[0] + sep) + Join(parts[1..], sep);
    }
  }

  /** The system message names every string attachment. */
  lemma SystemMessageNamesEachAttachment(items: seq<Json>, i: int)
    requires 0 <= i < |items| && items[i].JStr?
    ensures Contains(SystemMessage(items).fields["content"].s, items[i].s)
  {
    JoinContainsEachPart(Texts(items), "\n", i);
    ContainsAfterPrefix(ATTACHMENT_PREFIX, Join(Texts(items), "\n"), items[i].s);
  }
}
