/** The shopping assistant's A2A executor (agents/shopping/agent.py): it answers the user's
    message through the language model, as a streamed message (`execute`) or as a
    `shopping_response` artifact (`stream`). */
module ShoppingAgent {
  import opened Wrappers
  import opened A2ATypes
  import opened A2AUtils
  import Errors

  const NoPartsDetail := "Message must contain at least one part"
  const EmptyPartMessage := "Part nie mo\U{17C}e by\U{107} pusty"

  /** The `try` block of `execute`, for `create_streaming_message` as written (`asWritten`)
      or as intended. */
  function ExecuteBody(ctx: RequestContext, rt: Runtime, llm: LlmCall, asWritten: bool): (seq<Event>, Option<Exc>) {
    if |ctx.parts| == 0 then ([], Some(FromA2AError(Errors.ValidationError(NoPartsDetail))))
    else
      var working := CreateTaskStatusEvent(ctx.taskId, CreateTaskStatus(Working, rt.now));
      match FirstText(ctx)
      case Failure(e) => ([working], Some(e))
      case Success(_) =>
        match llm
        case LlmFailed(e) => ([working], Some(e))
        case Answered(v) =>
          var streamed := if asWritten then CreateStreamingMessageAsWritten(v, rt.uuid(0))
                          else CreateStreamingMessage(v, rt.uuid(0));
          match streamed
          case Failure(e) => ([working], Some(e))
          case Success(m) => ([working, m, CreateTaskStatusEvent(ctx.taskId, CreateTaskStatus(Completed, rt.now))], None)
  }

  /** The events `execute` enqueues and the exception it raises. */
  function ExecuteRun(ctx: RequestContext, rt: Runtime, llm: LlmCall, asWritten: bool): Run {
    var (body, err) := ExecuteBody(ctx, rt, llm, asWritten);
    Guard(ctx.taskId, rt.now, body, err)
  }

  /** `execute(context, event_queue)`, with `create_streaming_message` as intended. */
  method Execute(ctx: RequestContext, rt: Runtime, llm: LlmCall, q: EventQueue) returns (raised: Option<Exc>)
    modifies q
    ensures q.events == old(q.events) + ExecuteRun(ctx, rt, llm, false).events
    ensures raised == ExecuteRun(ctx, rt, llm, false).raised
  {
    var err: Option<Exc> := None;
    if |ctx.parts| == 0 {
      err := Some(FromA2AError(Errors.ValidationError(NoPartsDetail)));
    } else {
      q.Enqueue(CreateTaskStatusEvent(ctx.taskId, CreateTaskStatus(Working, rt.now)));
      var text := FirstText(ctx);
      if text.Failure? {
        err := Some(text.error);
      } else if llm.LlmFailed? {
        err := Some(llm.error);
      } else {
        var streamed := CreateStreamingMessage(llm.value, rt.uuid(0));
        if streamed.Failure? {
          err := Some(streamed.error);
        } else {
          q.Enqueue(streamed.value);
          q.Enqueue(CreateTaskStatusEvent(ctx.taskId, CreateTaskStatus(Completed, rt.now)));
        }
      }
    }
    if err.Some? {
      q.Enqueue(CreateTaskStatusEvent(ctx.taskId, CreateTaskStatus(Failed, rt.now, Some(err.value.text))));
    }
    return err;
  }

  /** As written, `execute` never completes: every run re-raises and ends in `failed`. */
  lemma ExecuteAsWrittenNeverCompletes(ctx: RequestContext, rt: Runtime, llm: LlmCall)
    ensures var r := ExecuteRun(ctx, rt, llm, true);
            r.raised.Some? && IsStatus(Last(r.events), Failed)
            && forall e | e in r.events :: !IsStatus(e, Completed) && !e.MessageRecord?
  {
  }

  /** A message without parts enqueues only the failed status, with no `working` before it. */
  lemma ExecuteWithoutParts(ctx: RequestContext, rt: Runtime, llm: LlmCall, asWritten: bool)
    requires |ctx.parts| == 0
    ensures var r := ExecuteRun(ctx, rt, llm, asWritten);
            |r.events| == 1 && IsStatus(r.events[0], Failed)
            && r.raised == Some(Exc("ValidationError", "Validation error: " + NoPartsDetail))
  {
  }

  /** With the intended builder, a string answer gives working, the streamed message and
      completed, in that order; any failure ends in `failed` carrying the re-raised text. */
  lemma ExecuteOutcomes(ctx: RequestContext, rt: Runtime, llm: LlmCall)
    ensures EndsInFailure(ExecuteRun(ctx, rt, llm, false)) && EndsInCompletion(ExecuteRun(ctx, rt, llm, false))
    ensures |ctx.parts| > 0 && ctx.parts[0].TextPart? && llm.Answered? && llm.value.StrValue? ==>
              ExecuteRun(ctx, rt, llm, false).events
              == [CreateTaskStatusEvent(ctx.taskId, CreateTaskStatus(Working, rt.now)),
                  MessageRecord(CreateMessage(llm.value.s, rt.uuid(0))),
                  CreateTaskStatusEvent(ctx.taskId, CreateTaskStatus(Completed, rt.now))]
  {
  }

  /** The `try` block of `stream`. */
  function StreamBody(ctx: RequestContext, rt: Runtime, llm: LlmCall): (seq<Event>, Option<Exc>) {
    var working := CreateTaskStatusEvent(ctx.taskId, CreateTaskStatus(Working, rt.now));
    match FirstText(ctx)
    case Failure(e) => ([working], Some(e))
    case Success(_) =>
      match llm
      case LlmFailed(e) => ([working], Some(e))
      case Answered(v) =>
        var text := TextOf(v);
        if text == "" then ([working], Some(Exc("AssertionError", EmptyPartMessage)))
        else
          var artifact := Artifact(rt.uuid(0), "shopping_response", [TextPart(text)]);
          ([working, ArtifactUpdate(ctx.contextId, ctx.taskId, artifact),
            CreateTaskStatusEvent(ctx.taskId, CreateTaskStatus(Completed, rt.now))], None)
  }

  /** The events `stream` enqueues and the exception it raises. */
  function StreamRun(ctx: RequestContext, rt: Runtime, llm: LlmCall): Run {
    var (body, err) := StreamBody(ctx, rt, llm);
    Guard(ctx.taskId, rt.now, body, err)
  }

  /** `stream(context, event_queue)`. */
  method Stream(ctx: RequestContext, rt: Runtime, llm: LlmCall, q: EventQueue) returns (raised: Option<Exc>)
    modifies q
    ensures q.events == old(q.events) + StreamRun(ctx, rt, llm).events
    ensures raised == StreamRun(ctx, rt, llm).raised
  {
    q.Enqueue(CreateTaskStatusEvent(ctx.taskId, CreateTaskStatus(Working, rt.now)));
    var err: Option<Exc> := None;
    var message := FirstText(ctx);
    if message.Failure? {
      err := Some(message.error);
    } else if llm.LlmFailed? {
      err := Some(llm.error);
    } else {
      var text := TextOf(llm.value);
      if text == "" {
        err := Some(Exc("AssertionError", EmptyPartMessage));
      } else {
        q.Enqueue(ArtifactUpdate(ctx.contextId, ctx.taskId, Artifact(rt.uuid(0), "shopping_response", [TextPart(text)])));
        q.Enqueue(CreateTaskStatusEvent(ctx.taskId, CreateTaskStatus(Completed, rt.now)));
      }
    }
    if err.Some? {
      q.Enqueue(CreateTaskStatusEvent(ctx.taskId, CreateTaskStatus(Failed, rt.now, Some(err.value.text))));
    }
    return err;
  }

  /** A non-empty answer gives working, the `shopping_response` artifact holding the answer's
      text, and completed; an empty one fails the assertion and ends in `failed`. */
  lemma StreamOutcomes(ctx: RequestContext, rt: Runtime, message: string, v: LlmValue)
    requires |ctx.parts| > 0 && ctx.parts[0] == TextPart(message)
    ensures var r := StreamRun(ctx, rt, Answered(v));
            if TextOf(v) == "" then
              r.raised == Some(Exc("AssertionError", EmptyPartMessage)) && |r.events| == 2 && IsStatus(r.events[1], Failed)
            else
              r.raised.None? && |r.events| == 3 && IsStatus(r.events[0], Working)
              && r.events[1].ArtifactUpdate? && r.events[1].artifact.name == "shopping_response"
              && r.events[1].artifact.parts == [TextPart(TextOf(v))]
              && IsStatus(r.events[2], Completed)
  {
  }

  /** Any exception in `stream` leaves a failed status carrying its text as the last event. */
  lemma StreamEnds(ctx: RequestContext, rt: Runtime, llm: LlmCall)
    ensures EndsInFailure(StreamRun(ctx, rt, llm)) && EndsInCompletion(StreamRun(ctx, rt, llm))
  {
  }

  /** `cancel(context, event_queue)`: one cancelled status. */
  method Cancel(ctx: RequestContext, rt: Runtime, q: EventQueue)
    modifies q
    ensures q.events == old(q.events) + [CreateTaskStatusEvent(ctx.taskId, CreateTaskStatus(Cancelled, rt.now))]
  {
    q.Enqueue(CreateTaskStatusEvent(ctx.taskId, CreateTaskStatus(Cancelled, rt.now)));
  }
}
