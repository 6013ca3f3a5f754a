/**
 * The data model of the conversation-agent library: the message and
 * connection enumerations, `Message` and `AgentResponse`, and their
 * `to_dict` serialisation into JSON-shaped dictionaries.
 */
module Interfaces {
  import opened Wrappers
  import opened Json

  /** `MessageType`, with its string values. */
  datatype MessageType = User | Assistant | System | Error | Status

  function TypeValue(t: MessageType): (r: string)
    ensures ParseMessageType(r) == Some(t)
  {
    match t
    case User => "user"
    case Assistant => "assistant"
    case System => "system"
    case Error => "error"
    case Status => "status"
  }

  /** `MessageType(value)`: the member with that value, if any. */
  function ParseMessageType(s: string): (r: Option<MessageType>)
    ensures r.None? <==> s !in {"user", "assistant", "system", "error", "status"}
  {
    if s == "user" then Some(User)
    else if s == "assistant" then Some(Assistant)
    else if s == "system" then Some(System)
    else if s == "error" then Some(Error)
    else if s == "status" then Some(Status)
    else None
  }

  /** Parsing a string back yields the member whose value it is. */
  lemma ParseMessageTypeInverse(s: string)
    ensures ParseMessageType(s).Some? ==> TypeValue(ParseMessageType(s).value) == s
  {
  }

  /** The five message-type values are pairwise distinct. */
  lemma TypeValuesDistinct(a: MessageType, b: MessageType)
    ensures TypeValue(a) == TypeValue(b) <==> a == b
  {
    if TypeValue(a) == TypeValue(b) {
      assert ParseMessageType(TypeValue(a)) == Some(a) && ParseMessageType(TypeValue(b)) == Some(b);
    }
  }

  /** `ConnectionStatus`, with its string values. */
  datatype ConnectionStatus = Disconnected | Connecting | Connected | Failed | Reconnecting

  function StatusValue(s: ConnectionStatus): (r: string)
    ensures ParseConnectionStatus(r) == Some(s)
  {
    match s
    case Disconnected => "disconnected"
    case Connecting => "connecting"
    case Connected => "connected"
    case Failed => "error"
    case Reconnecting => "reconnecting"
  }

  /** `ConnectionStatus(value)`: the member with that value, if any. */
  function ParseConnectionStatus(s: string): (r: Option<ConnectionStatus>)
    ensures r.None? <==> s !in {"disconnected", "connecting", "connected", "error", "reconnecting"}
  {
    if s == "disconnected" then Some(Disconnected)
    else if s == "connecting" then Some(Connecting)
    else if s == "connected" then Some(Connected)
    else if s == "error" then Some(Failed)
    else if s == "reconnecting" then Some(Reconnecting)
    else None
  }

  /** Parsing a string back yields the member whose value it is. */
  lemma ParseConnectionStatusInverse(s: string)
    ensures ParseConnectionStatus(s).Some? ==> StatusValue(ParseConnectionStatus(s).value) == s
  {
  }

  /** The five connection-status values are pairwise distinct. */
  lemma StatusValuesDistinct(a: ConnectionStatus, b: ConnectionStatus)
    ensures StatusValue(a) == StatusValue(b) <==> a == b
  {
    if StatusValue(a) == StatusValue(b) {
      assert ParseConnectionStatus(StatusValue(a)) == Some(a) && ParseConnectionStatus(StatusValue(b)) == Some(b);
    }
  }

  /**
   * A point in time, carried as the two renderings the library prints:
   * `isoformat()` and `strftime("%H:%M:%S")`.
   */
  datatype Timestamp = Timestamp(iso: string, clock: string)

  /**
   * A conversation message. The timestamp is optional because nothing in
   * the dataclass keeps a caller from storing `None` there.
   */
  datatype Message = Message(
    id: string,
    msgType: MessageType,
    content: string,
    timestamp: Option<Timestamp>,
    metadata: Option<map<string, Json>>)

  /** What `to_dict` writes for the metadata: `self.metadata or {}`. */
  function MetadataOrEmpty(metadata: Option<map<string, Json>>): (r: map<string, Json>)
    ensures metadata.None? ==> r == map[]
    ensures metadata.Some? ==> r == metadata.value
  {
    if metadata.Some? && metadata.value != map[] then metadata.value else map[]
  }

  /** `Message.to_dict()`; `None` when the timestamp is missing, where `isoformat` raises. */
  function ToDict(m: Message): (r: Option<map<string, Json>>)
    ensures r.Some? <==> m.timestamp.Some?
    ensures r.Some? ==> r.value.Keys == {"id", "type", "content", "timestamp", "metadata"}
    ensures r.Some? ==> r.value["id"] == JStr(m.id) && r.value["content"] == JStr(m.content)
    ensures r.Some? ==> r.value["type"].JStr? && ParseMessageType(r.value["type"].s) == Some(m.msgType)
    ensures r.Some? ==> r.value["timestamp"] == JStr(m.timestamp.value.iso)
    ensures r.Some? ==> r.value["metadata"] == JObj(MetadataOrEmpty(m.metadata))
  {
    if m.timestamp.None? then None
    else Some(map[
      "id" := JStr(m.id),
      "type" := JStr(TypeValue(m.msgType)),
      "content" := JStr(m.content),
      "timestamp" := JStr(m.timestamp.value.iso),
      "metadata" := JObj(MetadataOrEmpty(m.metadata))])
  }

  /**
   * `to_dict` loses nothing but the difference between no metadata and empty
   * metadata (and the clock rendering, which is derived from the same instant).
   */
  lemma ToDictInjective(m1: Message, m2: Message)
    requires ToDict(m1).Some? && ToDict(m1) == ToDict(m2)
    ensures m1.id == m2.id && m1.msgType == m2.msgType && m1.content == m2.content
    ensures m1.timestamp.value.iso == m2.timestamp.value.iso
    ensures MetadataOrEmpty(m1.metadata) == MetadataOrEmpty(m2.metadata)
  {
    var d := ToDict(m1).value;
    assert d["type"] == JStr(TypeValue(m1.msgType)) == JStr(TypeValue(m2.msgType));
    TypeValuesDistinct(m1.msgType, m2.msgType);
  }

  /** No metadata and empty metadata serialise alike, so `to_dict` cannot be inverted exactly. */
  lemma MetadataNoneAndEmptyAgree(m: Message)
    ensures ToDict(m.(metadata := None)) == ToDict(m.(metadata := Some(map[])))
  {
  }

  /** `AgentResponse`; the constructor defaults are `is_final = True` and `usage = None`. */
  datatype AgentResponse = AgentResponse(
    message: Message,
    isFinal: bool,
    usage: Option<map<string, Json>>)

  function DefaultResponse(message: Message): (r: AgentResponse)
    ensures r.message == message && r.isFinal && r.usage.None?
  {
    AgentResponse(message, true, None)
  }

  /** `AgentResponse.to_dict()`: the message's own dictionary, nested, with `is_final` and `usage`. */
  function ResponseToDict(r: AgentResponse): (d: Option<map<string, Json>>)
    ensures d.Some? <==> ToDict(r.message).Some?
    ensures d.Some? ==> d.value.Keys == {"message", "is_final", "usage"}
    ensures d.Some? ==> d.value["message"] == JObj(ToDict(r.message).value)
    ensures d.Some? ==> d.value["is_final"] == JBool(r.isFinal)
    ensures d.Some? ==> (d.value["usage"] == JNull <==> r.usage.None?)
    ensures d.Some? && r.usage.Some? ==> d.value["usage"] == JObj(r.usage.value)
  {
    match ToDict(r.message)
    case None => None
    case Some(m) =>
      Some(map[
        "message" := JObj(m),
        "is_final" := JBool(r.isFinal),
        "usage" := if r.usage.Some? then JObj(r.usage.value) else JNull])
  }

  /** The contents of a run of responses, concatenated in order. */
  function Contents(responses: seq<AgentResponse>): string {
    if responses == [] then "" else Contents(responses[..|responses| - 1]) + responses[|responses| - 1].message.content
  }

  /** Concatenating two runs concatenates their contents. */
  lemma {:induction false} ContentsAppend(a: seq<AgentResponse>, b: seq<AgentResponse>)
    ensures Contents(a + b) == Contents(a) + Contents(b)
  {
    if b != [] {
      var ab := a + b;
      assert ab[..|ab| - 1] == a + b[..|b| - 1];
      ContentsAppend(a, b[..|b| - 1]);
    } else {
      assert a + b == a;
    }
  }

  /** The message types a conversation export or a provider request carries: USER, ASSISTANT and SYSTEM. */
  predicate Conversational(t: MessageType) {
    t == User || t == Assistant || t == System
  }

  /** How many of the messages are of a conversational type. */
  function ConversationalCount(messages: seq<Message>): nat {
    if messages == [] then 0
    else ConversationalCount(messages[..|messages| - 1]) + (if Conversational(messages[|messages| - 1].msgType) then 1 else 0)
  }
}
