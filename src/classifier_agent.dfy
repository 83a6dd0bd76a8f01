/** The classifier's A2A executor (agents/classifier/agent.py): it asks the language model to
    classify the user's message, expects JSON text back and forwards the classification as
    an artifact. */
module ClassifierAgent {
  import opened Wrappers
  import opened JsonValues
  import opened A2ATypes
  import opened A2AUtils
  import Errors

  const NotJsonDetail := "Invalid response format from classifier"
  const EmptyTextMessage := "Artifact part text cannot be empty"

  /** The `try` block of `stream`: what it enqueues and the exception that leaves it. */
  function StreamBody(ctx: RequestContext, rt: Runtime, llm: LlmCall): (seq<Event>, Option<Exc>) {
    var working := CreateTaskStatusEvent(ctx.taskId, CreateTaskStatus(Working, rt.now));
    match FirstText(ctx)
    case Failure(e) => ([working], Some(e))
    case Success(_) =>
      match llm
      case LlmFailed(e) => ([working], Some(e))
      case Answered(StrValue(_)) => ([working], Some(Exc("TypeError", "string indices must be integers, not 'str'")))
      case Answered(DictValue(None, _)) => ([working], Some(Exc("KeyError", "'text'")))
      case Answered(DictValue(Some(t), _)) =>
        match rt.parse(t)
        case None => ([working], Some(FromA2AError(Errors.ValidationError(NotJsonDetail))))
        case Some(classification) =>
          var text := rt.dumps(classification);
          if text == "" then ([working], Some(Exc("AssertionError", EmptyTextMessage)))
          else
            var artifact := Artifact(rt.uuid(0), "classifier_response", [TextPart(text)]);
            ([working, ArtifactUpdate(ctx.contextId, ctx.taskId, artifact),
              CreateTaskStatusEvent(ctx.taskId, CreateTaskStatus(Completed, rt.now))], None)
  }

  /** The events `stream` enqueues and the exception it raises. */
  function StreamRun(ctx: RequestContext, rt: Runtime, llm: LlmCall): Run {
    var (body, err) := StreamBody(ctx, rt, llm);
    Guard(ctx.taskId, rt.now, body, err)
  }

  /** `stream(context, event_queue)`. */
  method Stream(ctx: RequestContext, rt: Runtime, llm: LlmCall, q: EventQueue) returns (raised: Option<Exc>)
    modifies q
    ensures q.events == old(q.events) + StreamRun(ctx, rt, llm).events
    ensures raised == StreamRun(ctx, rt, llm).raised
  {
    var working := CreateTaskStatusEvent(ctx.taskId, CreateTaskStatus(Working, rt.now));
    q.Enqueue(working);
    var err: Option<Exc> := None;
    var text := FirstText(ctx);
    if text.Failure? {
      err := Some(text.error);
    } else if llm.LlmFailed? {
      err := Some(llm.error);
    } else if llm.value.StrValue? {
      err := Some(Exc("TypeError", "string indices must be integers, not 'str'"));
    } else if llm.value.text.None? {
      err := Some(Exc("KeyError", "'text'"));
    } else {
      var classification := rt.parse(llm.value.text.value);
      if classification.None? {
        err := Some(FromA2AError(Errors.ValidationError(NotJsonDetail)));
      } else {
        var serialised := rt.dumps(classification.value);
        if serialised == "" {
          err := Some(Exc("AssertionError", EmptyTextMessage));
        } else {
          q.Enqueue(ArtifactUpdate(ctx.contextId, ctx.taskId, Artifact(rt.uuid(0), "classifier_response", [TextPart(serialised)])));
          q.Enqueue(CreateTaskStatusEvent(ctx.taskId, CreateTaskStatus(Completed, rt.now)));
        }
      }
    }
    if err.Some? {
      q.Enqueue(CreateTaskStatusEvent(ctx.taskId, CreateTaskStatus(Failed, rt.now, Some(err.value.text))));
    }
    return err;
  }

  /** `execute(context, event_queue)` awaits `stream`: the same events, the same exception. */
  method Execute(ctx: RequestContext, rt: Runtime, llm: LlmCall, q: EventQueue) returns (raised: Option<Exc>)
    modifies q
    ensures q.events == old(q.events) + StreamRun(ctx, rt, llm).events
    ensures raised == StreamRun(ctx, rt, llm).raised
  {
    raised := Stream(ctx, rt, llm, q);
  }

  /** `cancel(context, event_queue)`: one cancelled status. */
  method Cancel(ctx: RequestContext, rt: Runtime, q: EventQueue)
    modifies q
    ensures q.events == old(q.events) + [CreateTaskStatusEvent(ctx.taskId, CreateTaskStatus(Cancelled, rt.now))]
  {
    q.Enqueue(CreateTaskStatusEvent(ctx.taskId, CreateTaskStatus(Cancelled, rt.now)));
  }

  /** Every run starts with `working`; it ends with `completed` when nothing was raised, and
      otherwise with `failed` carrying the re-raised exception's text. */
  lemma StreamEnds(ctx: RequestContext, rt: Runtime, llm: LlmCall)
    ensures var r := StreamRun(ctx, rt, llm);
            EndsInFailure(r) && EndsInCompletion(r) && IsStatus(r.events[0], Working)
  {
  }

  /** A model answer whose text parses as JSON gives exactly working, one artifact with the
      re-serialised classification as its only text part, and completed; an answer that is
      not JSON raises the classifier's ValidationError. */
  lemma StreamOutcomes(ctx: RequestContext, rt: Runtime, message: string, t: string, rendered: string)
    requires |ctx.parts| > 0 && ctx.parts[0] == TextPart(message)
    ensures var r := StreamRun(ctx, rt, Answered(DictValue(Some(t), rendered)));
            match rt.parse(t)
            case None =>
              r.raised == Some(Exc("ValidationError", "Validation error: " + NotJsonDetail)) && |r.events| == 2
            case Some(c) =>
              rt.dumps(c) != "" ==>
                r.raised.None? && |r.events| == 3 && IsStatus(r.events[0], Working)
                && r.events[1].ArtifactUpdate? && r.events[1].artifact.name == "classifier_response"
                && r.events[1].artifact.parts == [TextPart(rt.dumps(c))]
                && IsStatus(r.events[2], Completed)
  {
  }

  /** The artifact text reads back as the classification the model produced. */
  lemma ArtifactReadsBack(ctx: RequestContext, rt: Runtime, message: string, t: string, rendered: string)
    requires RoundTrips(rt)
    requires |ctx.parts| > 0 && ctx.parts[0] == TextPart(message)
    requires rt.parse(t).Some? && rt.dumps(rt.parse(t).value) != ""
    ensures var r := StreamRun(ctx, rt, Answered(DictValue(Some(t), rendered)));
            |r.events| == 3 && r.events[1].ArtifactUpdate? && |r.events[1].artifact.parts| == 1
            && r.events[1].artifact.parts[0].TextPart?
            && rt.parse(r.events[1].artifact.parts[0].text) == rt.parse(t)
  {
    var c := rt.parse(t).value;
    assert rt.parse(rt.dumps(c)) == Some(c);
  }

  /** No artifact with an empty text is ever enqueued. */
  lemma NoEmptyArtifact(ctx: RequestContext, rt: Runtime, llm: LlmCall)
    ensures forall e | e in StreamRun(ctx, rt, llm).events && e.ArtifactUpdate? ::
              |e.artifact.parts| == 1 && e.artifact.parts[0].TextPart? && e.artifact.parts[0].text != ""
  {
  }
}
