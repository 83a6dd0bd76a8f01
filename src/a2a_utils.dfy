/** The record builders of utils/a2a_utils.py. The uuid and the timestamp a builder would
    generate are parameters. */
module A2AUtils {
  import opened Wrappers
  import opened JsonValues
  import opened Text
  import opened A2ATypes

  /** `construct_agent_url(host, port)`: `f"http://{host}:{port}"`. */
  function ConstructAgentUrl(host: string, port: int): (url: string)
    ensures StartsWith(url, "http://")
  {
    "http://" + host + ":" + IntToString(port)
  }

  /** Reads an agent URL back into host and port: the text between the scheme and the first
      colon, and the integer after it. */
  function ParseAgentUrl(url: string): Option<(string, int)> {
    if !StartsWith(url, "http://") then None
    else
      var rest := url[7..];
      match IndexOf(rest, ":")
      case None => None
      case Some(k) =>
        match ParseInt(rest[k + 1..])
        case None => None
        case Some(port) => Some((rest[..k], port))
  }

  /** The URL names the host and the port it was built from, whenever the host has no colon. */
  lemma UrlRoundTrip(host: string, port: int)
    requires ':' !in host
    ensures ParseAgentUrl(ConstructAgentUrl(host, port)) == Some((host, port))
  {
    var url := ConstructAgentUrl(host, port);
    var rest := url[7..];
    assert rest == host + ":" + IntToString(port);
    assert OccursAt(rest, ":", |host|) by { assert rest[|host|..|host| + 1] == ":"; }
    forall j | 0 <= j < |host|
      ensures !OccursAt(rest, ":", j)
    {
      assert rest[j] == host[j];
      assert rest[j..j + 1] == [host[j]];
    }
    IndexOfFirst(rest, ":", |host|);
    assert rest[|host| + 1..] == IntToString(port);
    assert rest[..|host|] == host;
    ParseIntToString(port);
  }

  /** `create_task_status(state, error)`: a status stamped with the current time. */
  function CreateTaskStatus(state: TaskState, now: string, error: Option<string> := None): (s: TaskStatus)
    ensures s.state == state && s.error == error && s.timestamp == Some(now) && s.message.None?
  {
    TaskStatus(state, Some(now), error, None)
  }

  /** `create_artifact(name, data)`: one `{"type": "data", "data": data}` part under `name`. */
  function CreateArtifact(name: string, data: Dict, artifactId: string): (a: Artifact)
    ensures a.name == name && |a.parts| == 1
    ensures a.parts[0] == DictPart(map["type" := JStr("data"), "data" := JObj(data)])
  {
    Artifact(artifactId, name, [DictPart(map["type" := JStr("data"), "data" := JObj(data)])])
  }

  /** `create_message(content, role, message_id)`: one text part holding the content; the
      supplied id when it is truthy, otherwise the generated one. */
  function CreateMessage(content: string, generatedId: string, role: string := "assistant",
                         messageId: Option<string> := None): (m: Message)
    ensures m.role == role && |m.parts| == 1
    ensures m.parts[0] == DictPart(map["type" := JStr("text"), "text" := JStr(content)])
    ensures m.messageId == (if Truthy(messageId) then messageId.value else generatedId)
  {
    Message(role, [DictPart(map["type" := JStr("text"), "text" := JStr(content)])],
            if Truthy(messageId) then messageId.value else generatedId)
  }

  /** The JSON-RPC 2.0 request envelope (section 4 of the JSON-RPC 2.0 Specification) the
      agents exchange: `{"jsonrpc", "id", "method", "params": {"message": ...}}`. */
  datatype Envelope = Envelope(jsonrpc: string, id: string, rpcMethod: string, params: MessageParams)
  datatype MessageParams = MessageParams(role: string, parts: seq<Part>, messageId: string)

  /** `get_a2a_message_send_payload(message, method)`. */
  function GetMessageSendPayload(message: Message, requestId: string, rpcMethod: string := "execute"): (p: Envelope)
    ensures p.jsonrpc == "2.0" && p.id == requestId && p.rpcMethod == rpcMethod
    ensures p.params.role == message.role && p.params.messageId == message.messageId
    ensures |p.params.parts| == |message.parts|
    ensures forall i :: 0 <= i < |message.parts| ==> p.params.parts[i] == message.parts[i]
  {
    Envelope("2.0", requestId, rpcMethod, MessageParams(message.role, message.parts, message.messageId))
  }

  /** `create_streaming_message(content, role)`. Its debug line slices `content[:100]`, which
      raises for a dict, so only a string content gets through. */
  function CreateStreamingMessage(content: LlmValue, generatedId: string, role: string := "assistant"): (r: Result<Event, Exc>)
    ensures r.Success? <==> content.StrValue?
    ensures r.Success? ==> r.value == MessageRecord(CreateMessage(content.s, generatedId, role))
  {
    match content
    case StrValue(s) => Success(MessageRecord(CreateMessage(s, generatedId, role)))
    case DictValue(_, _) => Failure(Exc("TypeError", "unhashable type: 'slice'"))
  }

  /** `create_streaming_message(content, role)` as written: its second debug line passes the
      result dict, which holds a `Message` model object, to `json.dumps`, which cannot
      serialise it; a dict content fails earlier, at the slice. */
  function CreateStreamingMessageAsWritten(content: LlmValue, generatedId: string, role: string := "assistant"): (r: Result<Event, Exc>)
    ensures r.Failure?
    ensures content.StrValue? ==> r.error == NotSerializable
  {
    match content
    case StrValue(_) => Failure(NotSerializable)
    case DictValue(_, _) => Failure(Exc("TypeError", "unhashable type: 'slice'"))
  }

  const NotSerializable := Exc("TypeError", "Object of type Message is not JSON serializable")

  /** A message that cannot be built is never streamed: the function as written fails on
      every input, where the intended one succeeds on every string. */
  lemma StreamingMessageAsWrittenAlwaysFails(s: string, generatedId: string, role: string)
    ensures CreateStreamingMessageAsWritten(StrValue(s), generatedId, role).Failure?
    ensures CreateStreamingMessage(StrValue(s), generatedId, role)
            == Success(MessageRecord(CreateMessage(s, generatedId, role)))
  {
  }

  /** The `except Exception as e:` handler the agents share: after the events of the `try`
      block, a failed status carrying `str(e)` is enqueued and the exception re-raised. */
  function Guard(taskId: string, now: string, body: seq<Event>, err: Option<Exc>): (r: Run)
    ensures EndsInFailure(r)
    ensures err.None? ==> r == Run(body, None)
    ensures err.Some? ==> r.raised == err && |r.events| == |body| + 1 && r.events[..|body|] == body
  {
    if err.None? then Run(body, None)
    else Run(body + [CreateTaskStatusEvent(taskId, CreateTaskStatus(Failed, now, Some(err.value.text)))], err)
  }

  /** `create_task_status_event(task_id, status)`: the status record, unchanged. */
  function CreateTaskStatusEvent(taskId: string, status: TaskStatus): (e: Event)
    ensures e.StatusRecord? && e.taskId == taskId && e.status == status
  {
    StatusRecord(taskId, status)
  }

  /** A call `create_task_status_event(task_id, status, final=...)`: the function declares no
      `final` parameter, so passing one raises before anything is built. */
  function CallCreateTaskStatusEvent(taskId: string, status: TaskStatus, final: Option<bool>): (r: Result<Event, Exc>)
    ensures r.Success? <==> final.None?
    ensures r.Success? ==> r.value == CreateTaskStatusEvent(taskId, status)
  {
    if final.Some? then
      Failure(Exc("TypeError", "create_task_status_event() got an unexpected keyword argument 'final'"))
    else Success(CreateTaskStatusEvent(taskId, status))
  }

  /** `create_artifact_event(task_id, artifact)`. */
  function CreateArtifactEvent(taskId: string, artifact: Artifact): (e: Event)
    ensures e.ArtifactRecord? && e.taskId == taskId && e.artifact == artifact
  {
    ArtifactRecord(taskId, artifact)
  }

  /** `create_artifact_part_text(text)`: `{"kind": "text", "text": text, "metadata": None}`. */
  function CreateArtifactPartText(text: string): (d: Dict)
    ensures d.Keys == {"kind", "text", "metadata"}
    ensures d["kind"] == JStr("text") && d["text"] == JStr(text) && d["metadata"] == JNull
  {
    map["kind" := JStr("text"), "text" := JStr(text), "metadata" := JNull]
  }
}
