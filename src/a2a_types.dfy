/** The records of the agent-to-agent (A2A) library that the core builds and enqueues, the
    event queue the agents write to, and the inputs that stand for what the model does not
    compute itself (the language model, the clock, uuid generation, JSON text). */
module A2ATypes {
  import opened Wrappers
  import opened JsonValues
  import Errors

  datatype TaskState = Submitted | Working | InputRequired | Completed | Cancelled | Failed

  /** A content part: the library's text, data and file parts, and the plain dicts that
      utils/a2a_utils.py builds in their place. */
  datatype Part =
    | TextPart(text: string)
    | DataPart(data: Json)
    | FilePart(uri: string)
    | DictPart(fields: Dict)

  datatype Artifact = Artifact(artifactId: string, name: string, parts: seq<Part>)

  /** The library's `Message` (role, parts, message id). */
  datatype Message = Message(role: string, parts: seq<Part>, messageId: string)

  /** The library's `TaskStatus`; `error` is the extra field `create_task_status` fills in,
      `message` the status message the orchestrator attaches on failure. */
  datatype TaskStatus = TaskStatus(state: TaskState, timestamp: Option<string>, error: Option<string>, message: Option<Message>)

  /** What the agents put on an event queue. */
  datatype Event =
      /** `TaskStatusUpdateEvent(contextId, taskId, status, final)` */
    | StatusUpdate(contextId: string, taskId: string, status: TaskStatus, final: bool)
      /** `TaskArtifactUpdateEvent(contextId, taskId, artifact)` */
    | ArtifactUpdate(contextId: string, taskId: string, artifact: Artifact)
      /** the dict `{"type": "task_status", "task_id", "status"}` */
    | StatusRecord(taskId: string, status: TaskStatus)
      /** the dict `{"type": "task_artifact", "task_id", "artifact"}` */
    | ArtifactRecord(taskId: string, artifact: Artifact)
      /** the dict `{"type": "message", "message"}` */
    | MessageRecord(message: Message)
      /** the library's agent text message */
    | AgentText(text: string)

  /** A raised Python exception: its class name and `str(e)`. */
  datatype Exc = Exc(name: string, text: string)

  function FromA2AError(e: Errors.A2AError): (x: Exc)
    ensures x.text == Errors.Message(e)
  {
    Exc(match e
        case TaskNotFoundError(_) => "TaskNotFoundError"
        case InvalidMessageError(_) => "InvalidMessageError"
        case AuthenticationError(_) => "AuthenticationError"
        case AuthorizationError(_) => "AuthorizationError"
        case RateLimitError(_) => "RateLimitError"
        case ValidationError(_) => "ValidationError",
        Errors.Message(e))
  }

  /** One agent invocation: the events it enqueued, in order, and the exception it raised. */
  datatype Run = Run(events: seq<Event>, raised: Option<Exc>)

  /** What an executor is handed: the ids and the parts of the incoming message. */
  datatype RequestContext = RequestContext(taskId: string, contextId: string, parts: seq<Part>)

  /** What a LangChain chain returns: a string, or a dict, with the text under "text" when
      present and its `str()` rendering. */
  datatype LlmValue = StrValue(s: string) | DictValue(text: Option<string>, rendered: string)

  /** One call to the language model: its value, or the exception it raised. */
  datatype LlmCall = Answered(value: LlmValue) | LlmFailed(error: Exc)

  /** The text the agents take from a model value: the string itself, else the dict's
      "text", else its `str()` rendering. */
  function TextOf(v: LlmValue): (text: string)
    ensures v.StrValue? ==> text == v.s
    ensures v.DictValue? && v.text.Some? ==> text == v.text.value
    ensures v.DictValue? && v.text.None? ==> text == v.rendered
  {
    match v
    case StrValue(s) => s
    case DictValue(t, rendered) => t.GetOr(rendered)
  }

  /** The nondeterministic and library inputs: the clock (`utcnow().isoformat()`), the k-th
      uuid generated during a call, `json.loads` (None for a decode error) and `json.dumps`. */
  datatype Runtime = Runtime(now: string, uuid: nat -> string, parse: string -> Option<Json>, dumps: Json -> string)

  /** `json.loads` reads back what `json.dumps` wrote. */
  ghost predicate RoundTrips(rt: Runtime) {
    forall j :: rt.parse(rt.dumps(j)) == Some(j)
  }

  /** `context.message.parts[0].root.text`, with the exceptions it raises. */
  function FirstText(ctx: RequestContext): (r: Result<string, Exc>)
    ensures r.Success? <==> |ctx.parts| > 0 && ctx.parts[0].TextPart?
  {
    if |ctx.parts| == 0 then Failure(Exc("IndexError", "list index out of range"))
    else match ctx.parts[0]
      case TextPart(t) => Success(t)
      case DataPart(_) => Failure(Exc("AttributeError", "'DataPart' object has no attribute 'text'"))
      case FilePart(_) => Failure(Exc("AttributeError", "'FilePart' object has no attribute 'text'"))
      case DictPart(_) => Failure(Exc("AttributeError", "'dict' object has no attribute 'root'"))
  }

  predicate IsStatus(e: Event, s: TaskState) {
    (e.StatusUpdate? || e.StatusRecord?) && e.status.state == s
  }

  /** The status event carries `text` as its error: in the `error` field, or as the single
      text part of its status message. */
  predicate CarriesError(e: Event, text: string) {
    (e.StatusRecord? && e.status.error == Some(text))
    || (e.StatusUpdate? && e.status.message.Some? && e.status.message.value.parts == [TextPart(text)])
  }

  function Last(events: seq<Event>): Event
    requires |events| > 0
  {
    events[|events| - 1]
  }

  /** The failure contract every agent keeps: if the invocation raised, the last event it
      enqueued is a `failed` status carrying the exception's text. */
  predicate EndsInFailure(r: Run) {
    r.raised.Some? ==> |r.events| > 0 && IsStatus(Last(r.events), Failed) && CarriesError(Last(r.events), r.raised.value.text)
  }

  /** An invocation that did not raise ended with a `completed` status. */
  predicate EndsInCompletion(r: Run) {
    r.raised.None? ==> |r.events| > 0 && IsStatus(Last(r.events), Completed)
  }

  /** The queue an executor writes to: events come out in the order they were put in. */
  class EventQueue {
    var events: seq<Event>

    constructor ()
      ensures events == []
    {
      events := [];
    }

    /** `event_queue.enqueue_event(e)` */
    method Enqueue(e: Event)
      modifies this
      ensures events == old(events) + [e]
    {
      events := events + [e];
    }
  }
}
