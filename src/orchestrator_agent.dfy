/** The orchestrator's A2A executor (agents/orchestrator/agent.py): it picks a target agent
    by keywords, reports its routing decision as an artifact, and either answers through the
    language model (`execute`) or relays the target agent's event stream (`stream`). */
module OrchestratorAgent {
  import opened Wrappers
  import opened JsonValues
  import opened Text
  import opened A2ATypes
  import opened A2AUtils
  import Errors

  /** The shopping keywords of `_determine_target_agent`. */
  const Keywords: seq<string> := ["kupi", "znajd", "szukaj", "zam\U{F3}w", "order", "buy", "find", "product", "price", "cost"]

  /** `_determine_target_agent(message)`. */
  function DetermineTargetAgent(message: string): (target: string)
    ensures target == "shopping" <==> exists i :: 0 <= i < |Keywords| && SearchIgnoreCase(message, Keywords[i])
    ensures target == "shopping" || target == "classifier"
  {
    if MatchesAny(message, Keywords) then "shopping" else "classifier"
  }

  /** The routing decision dict: the user's message, the target and the reason. */
  function RoutingDecision(message: string, target: string): Json {
    JObj(map["message" := JStr(message), "target_agent" := JStr(target),
             "reason" := JStr("Message contains keywords indicating " + target + " agent should handle it")])
  }

  /** The `routing_decision` artifact: one text part holding the JSON text of the decision. */
  function RoutingArtifact(rt: Runtime, message: string): Artifact {
    Artifact(rt.uuid(0), "routing_decision", [TextPart(rt.dumps(RoutingDecision(message, DetermineTargetAgent(message))))])
  }

  const NoPartsDetail := "Message must contain at least one part"

  /** The failed status `execute` enqueues: its message holds `str(e)` as its one text part. */
  function FailedUpdate(ctx: RequestContext, rt: Runtime, k: nat, e: Exc): Event {
    StatusUpdate(ctx.contextId, ctx.taskId,
                 TaskStatus(Failed, None, None, Some(Message("agent", [TextPart(e.text)], rt.uuid(k)))), true)
  }

  function WorkingUpdate(ctx: RequestContext): Event {
    StatusUpdate(ctx.contextId, ctx.taskId, TaskStatus(Working, None, None, None), false)
  }

  /** The events `execute` enqueues and the exception it raises. */
  function ExecuteRun(ctx: RequestContext, rt: Runtime, llm: LlmCall): Run {
    if |ctx.parts| == 0 then
      var e := FromA2AError(Errors.ValidationError(NoPartsDetail));
      Run([FailedUpdate(ctx, rt, 0, e)], Some(e))
    else
      match FirstText(ctx)
      case Failure(e) => Run([WorkingUpdate(ctx), FailedUpdate(ctx, rt, 0, e)], Some(e))
      case Success(message) =>
        var routing := ArtifactUpdate(ctx.contextId, ctx.taskId, RoutingArtifact(rt, message));
        match llm
        case LlmFailed(e) => Run([WorkingUpdate(ctx), routing, FailedUpdate(ctx, rt, 1, e)], Some(e))
        case Answered(v) =>
          var answer := Artifact(rt.uuid(1), "orchestrator_response", [TextPart(TextOf(v))]);
          Run([WorkingUpdate(ctx), routing, ArtifactUpdate(ctx.contextId, ctx.taskId, answer),
               StatusUpdate(ctx.contextId, ctx.taskId, TaskStatus(Completed, None, None, None), true)], None)
  }

  /** `execute(context, event_queue)`. */
  method Execute(ctx: RequestContext, rt: Runtime, llm: LlmCall, q: EventQueue) returns (raised: Option<Exc>)
    modifies q
    ensures q.events == old(q.events) + ExecuteRun(ctx, rt, llm).events
    ensures raised == ExecuteRun(ctx, rt, llm).raised
  {
    if |ctx.parts| == 0 {
      var e := FromA2AError(Errors.ValidationError(NoPartsDetail));
      q.Enqueue(FailedUpdate(ctx, rt, 0, e));
      return Some(e);
    }
    q.Enqueue(WorkingUpdate(ctx));
    var text := FirstText(ctx);
    if text.Failure? {
      q.Enqueue(FailedUpdate(ctx, rt, 0, text.error));
      return Some(text.error);
    }
    q.Enqueue(ArtifactUpdate(ctx.contextId, ctx.taskId, RoutingArtifact(rt, text.value)));
    if llm.LlmFailed? {
      q.Enqueue(FailedUpdate(ctx, rt, 1, llm.error));
      return Some(llm.error);
    }
    var answer := Artifact(rt.uuid(1), "orchestrator_response", [TextPart(TextOf(llm.value))]);
    q.Enqueue(ArtifactUpdate(ctx.contextId, ctx.taskId, answer));
    q.Enqueue(StatusUpdate(ctx.contextId, ctx.taskId, TaskStatus(Completed, None, None, None), true));
    return None;
  }

  /** Whatever happens, `execute` ends with one final status: `failed`, carrying the text of
      the exception it re-raises, or `completed` when nothing was raised. */
  lemma ExecuteEndsFinal(ctx: RequestContext, rt: Runtime, llm: LlmCall)
    ensures EndsInFailure(ExecuteRun(ctx, rt, llm)) && EndsInCompletion(ExecuteRun(ctx, rt, llm))
    ensures Last(ExecuteRun(ctx, rt, llm).events).StatusUpdate? && Last(ExecuteRun(ctx, rt, llm).events).final
  {
  }

  /** A message without parts is rejected before any `working` status. */
  lemma ExecuteWithoutParts(ctx: RequestContext, rt: Runtime, llm: LlmCall)
    requires |ctx.parts| == 0
    ensures var r := ExecuteRun(ctx, rt, llm);
            |r.events| == 1 && IsStatus(r.events[0], Failed) && r.events[0].final
            && r.raised == Some(Exc("ValidationError", "Validation error: " + NoPartsDetail))
  {
  }

  /** A successful `execute` enqueues working (not final), the routing decision, the model's
      answer and completed (final), in that order. */
  lemma ExecuteSucceeds(ctx: RequestContext, rt: Runtime, message: string, v: LlmValue)
    requires |ctx.parts| > 0 && ctx.parts[0] == TextPart(message)
    ensures var r := ExecuteRun(ctx, rt, Answered(v));
            r.raised.None? && |r.events| == 4
            && IsStatus(r.events[0], Working) && !r.events[0].final
            && r.events[1].ArtifactUpdate? && r.events[1].artifact.name == "routing_decision"
            && r.events[2].ArtifactUpdate? && r.events[2].artifact.name == "orchestrator_response"
            && r.events[2].artifact.parts == [TextPart(TextOf(v))]
            && IsStatus(r.events[3], Completed) && r.events[3].final
  {
  }

  /** The routing artifact's text reads back as an object naming the user's message and the
      target agent. */
  lemma RoutingDecisionRecorded(ctx: RequestContext, rt: Runtime, llm: LlmCall, message: string)
    requires RoundTrips(rt)
    requires |ctx.parts| > 0 && ctx.parts[0] == TextPart(message)
    ensures var r := ExecuteRun(ctx, rt, llm);
            |r.events| >= 2 && r.events[1].ArtifactUpdate? && |r.events[1].artifact.parts| == 1
            && r.events[1].artifact.parts[0].TextPart?
            && var decoded := rt.parse(r.events[1].artifact.parts[0].text);
            decoded.Some? && decoded.value.JObj?
            && decoded.value.fields["message"] == JStr(message)
            && decoded.value.fields["target_agent"] == JStr(DetermineTargetAgent(message))
  {
    var d := RoutingDecision(message, DetermineTargetAgent(message));
    assert rt.parse(rt.dumps(d)) == Some(d);
  }

  // ----- stream ---------------------------------------------------------------------------

  /** A line of the target agent's response body: bytes that are not UTF-8, or text. */
  datatype Line = Undecodable | LineText(text: string)

  /** The target agent's reply as received: its lines, then the exception the connection
      raised, if any. */
  datatype Remote = Remote(lines: seq<Line>, error: Option<Exc>)

  /** The library's model validation of a relayed artifact, status and `final` flag. */
  datatype Validators = Validators(artifact: Json -> Option<Artifact>, status: Json -> Option<TaskStatus>, flag: Json -> Option<bool>)

  /** The "result" object of a `data: ` line whose JSON is an object, if it has one. Any other
      line is skipped: `"result" in` and the indexing raise on a list or a string, and the
      relay loop catches the exception. */
  function ResultOf(parse: string -> Option<Json>, line: Line): (r: Option<Dict>)
    ensures r.Some? ==> line.LineText? && StartsWith(line.text, "data: ")
    ensures r.Some? ==> var p := parse(line.text[6..]);
                        p.Some? && p.value.JObj? && "result" in p.value.fields
                        && p.value.fields["result"] == JObj(r.value)
  {
    match line
    case Undecodable => None
    case LineText(s) =>
      if !StartsWith(s, "data: ") then None
      else match parse(s[6..])
        case Some(JObj(data)) =>
          if "result" in data && data["result"].JObj? then Some(data["result"].fields) else None
        case _ => None
  }

  /** The event relayed for one line, if any: a `data: ` line whose JSON is an object with a
      "result" object; "artifact" wins over "status"; `final` defaults to False; anything
      that fails to decode, parse or validate is skipped. */
  function RelayLine(ctx: RequestContext, v: Validators, parse: string -> Option<Json>, line: Line): (r: Option<Event>)
    ensures r.Some? ==> (r.value.ArtifactUpdate? || r.value.StatusUpdate?)
                        && r.value.taskId == ctx.taskId && r.value.contextId == ctx.contextId
  {
    match ResultOf(parse, line)
    case None => None
    case Some(result) =>
      if "artifact" in result then
        match v.artifact(result["artifact"])
        case Some(a) => Some(ArtifactUpdate(ctx.contextId, ctx.taskId, a))
        case None => None
      else if "status" in result then
        var final := if "final" in result then v.flag(result["final"]) else Some(false);
        match (v.status(result["status"]), final)
        case (Some(st), Some(f)) => Some(StatusUpdate(ctx.contextId, ctx.taskId, st, f))
        case _ => None
      else None
  }

  /** The relay rules of one line: only a `data: ` line whose JSON object has a "result"
      object can relay; when the result has an "artifact", it is relayed as an artifact update
      exactly when it validates, and the status is never looked at; a status update needs
      "status" without "artifact", and its `final` is the validated flag, False when absent. */
  lemma RelayLineRules(ctx: RequestContext, v: Validators, parse: string -> Option<Json>, line: Line)
    ensures var r := RelayLine(ctx, v, parse, line);
            var res := ResultOf(parse, line);
            && (r.Some? ==> res.Some?)
            && (res.Some? && "artifact" in res.value ==>
                  var a := v.artifact(res.value["artifact"]);
                  (r.Some? <==> a.Some?) && (r.Some? ==> r.value == ArtifactUpdate(ctx.contextId, ctx.taskId, a.value)))
            && (r.Some? && r.value.StatusUpdate? ==>
                  && "artifact" !in res.value && "status" in res.value
                  && v.status(res.value["status"]) == Some(r.value.status)
                  && ("final" in res.value ==> v.flag(res.value["final"]) == Some(r.value.final))
                  && ("final" !in res.value ==> !r.value.final))
  {
  }

  /** The events relayed for a sequence of lines, in arrival order. */
  function Relayed(ctx: RequestContext, v: Validators, parse: string -> Option<Json>, lines: seq<Line>): seq<Event> {
    if |lines| == 0 then []
    else
      var init := Relayed(ctx, v, parse, lines[..|lines| - 1]);
      match RelayLine(ctx, v, parse, lines[|lines| - 1])
      case Some(e) => init + [e]
      case None => init
  }

  /** Relaying is line by line: two stretches of the body relay as the two concatenated. */
  lemma {:induction false} RelayedAppend(ctx: RequestContext, v: Validators, parse: string -> Option<Json>, a: seq<Line>, b: seq<Line>)
    ensures Relayed(ctx, v, parse, a + b) == Relayed(ctx, v, parse, a) + Relayed(ctx, v, parse, b)
    decreases |b|
  {
    if |b| == 0 {
      assert a + b == a;
    } else {
      var b' := b[..|b| - 1];
      assert (a + b)[..|a + b| - 1] == a + b';
      assert (a + b)[|a + b| - 1] == b[|b| - 1];
      RelayedAppend(ctx, v, parse, a, b');
    }
  }

  lemma RelayedStep(ctx: RequestContext, v: Validators, parse: string -> Option<Json>, lines: seq<Line>, i: nat)
    requires i < |lines|
    ensures Relayed(ctx, v, parse, lines[..i + 1])
            == Relayed(ctx, v, parse, lines[..i]) + (match RelayLine(ctx, v, parse, lines[i]) case Some(e) => [e] case None => [])
  {
    assert lines[..i + 1][..i] == lines[..i];
  }

  /** The exception `create_task_status_event(..., final=True)` raises. */
  const FinalKeywordError: Exc := Exc("TypeError", "create_task_status_event() got an unexpected keyword argument 'final'")

  /** The events `stream` enqueues and the exception it raises, for the keyword argument the
      completion and failure enqueues pass as `final`: `Some(true)` as written, `None` for the
      call the function accepts. */
  function StreamRun(ctx: RequestContext, rt: Runtime, v: Validators, remote: Remote, final: Option<bool>): Run {
    var (body, err) := StreamBody(ctx, rt, v, remote, final);
    if err.None? then Run(body, None)
    else match CallCreateTaskStatusEvent(ctx.taskId, CreateTaskStatus(Failed, rt.now, Some(err.value.text)), final)
      case Success(failed) => Run(body + [failed], err)
      case Failure(e2) => Run(body, Some(e2))
  }

  /** The `try` block of `stream`: what it enqueues and the exception that leaves it. */
  function StreamBody(ctx: RequestContext, rt: Runtime, v: Validators, remote: Remote, final: Option<bool>): (seq<Event>, Option<Exc>) {
    var working := CreateTaskStatusEvent(ctx.taskId, CreateTaskStatus(Working, rt.now));
    match FirstText(ctx)
    case Failure(e) => ([working], Some(e))
    case Success(message) =>
      var relayed := [working, ArtifactUpdate(ctx.contextId, ctx.taskId, RoutingArtifact(rt, message))]
                     + Relayed(ctx, v, rt.parse, remote.lines);
      if remote.error.Some? then (relayed, remote.error)
      else match CallCreateTaskStatusEvent(ctx.taskId, CreateTaskStatus(Completed, rt.now), final)
        case Success(done) => (relayed + [done], None)
        case Failure(e) => (relayed, Some(e))
  }

  /** As written, every `stream` raises the keyword-argument TypeError and enqueues no
      terminal status of its own: the only status record it enqueues is `working`. */
  lemma StreamAsWrittenNeverTerminates(ctx: RequestContext, rt: Runtime, v: Validators, remote: Remote)
    ensures var r := StreamRun(ctx, rt, v, remote, Some(true));
            r.raised == Some(FinalKeywordError)
            && |r.events| > 0 && IsStatus(r.events[0], Working)
            && forall i :: 0 < i < |r.events| ==> !r.events[i].StatusRecord?
  {
    var r := StreamRun(ctx, rt, v, remote, Some(true));
    var relayed := Relayed(ctx, v, rt.parse, remote.lines);
    forall i | 0 <= i < |relayed|
      ensures relayed[i].ArtifactUpdate? || relayed[i].StatusUpdate?
    {
      RelayedKinds(ctx, v, rt.parse, remote.lines, i);
    }
  }

  /** Relayed events are artifact or status updates of this task. */
  lemma {:induction false} RelayedKinds(ctx: RequestContext, v: Validators, parse: string -> Option<Json>, lines: seq<Line>, i: nat)
    requires i < |Relayed(ctx, v, parse, lines)|
    ensures var e := Relayed(ctx, v, parse, lines)[i];
            (e.ArtifactUpdate? || e.StatusUpdate?) && e.taskId == ctx.taskId && e.contextId == ctx.contextId
    decreases |lines|
  {
    var init := Relayed(ctx, v, parse, lines[..|lines| - 1]);
    if i < |init| {
      RelayedKinds(ctx, v, parse, lines[..|lines| - 1], i);
    }
  }

  /** With the call the function accepts, `stream` ends in `completed` when nothing went
      wrong, and otherwise in `failed` carrying the text of the exception it re-raises. */
  lemma StreamTerminates(ctx: RequestContext, rt: Runtime, v: Validators, remote: Remote)
    ensures var r := StreamRun(ctx, rt, v, remote, None);
            EndsInFailure(r) && EndsInCompletion(r) && Last(r.events).StatusRecord?
            && (r.raised.None? <==> (|ctx.parts| > 0 && ctx.parts[0].TextPart? && remote.error.None?))
  {
  }

  /** The `async for line in response.content` loop: it enqueues the relayed event of each
      line, in arrival order. */
  method Relay(ctx: RequestContext, v: Validators, parse: string -> Option<Json>, lines: seq<Line>, q: EventQueue)
    modifies q
    ensures q.events == old(q.events) + Relayed(ctx, v, parse, lines)
  {
    var i := 0;
    while i < |lines|
      invariant 0 <= i <= |lines|
      invariant q.events == old(q.events) + Relayed(ctx, v, parse, lines[..i])
    {
      var e := RelayLine(ctx, v, parse, lines[i]);
      RelayedStep(ctx, v, parse, lines, i);
      if e.Some? {
        q.Enqueue(e.value);
      }
      i := i + 1;
    }
    assert lines[..i] == lines;
  }

  /** The status the corrected `stream` closes with once the reply has been relayed: failed
      with the connection's exception, or completed. */
  function Closing(ctx: RequestContext, rt: Runtime, remote: Remote): (e: Event)
    ensures remote.error.Some? ==> IsStatus(e, Failed) && CarriesError(e, remote.error.value.text)
    ensures remote.error.None? ==> IsStatus(e, Completed)
  {
    if remote.error.Some? then CreateTaskStatusEvent(ctx.taskId, CreateTaskStatus(Failed, rt.now, Some(remote.error.value.text)))
    else CreateTaskStatusEvent(ctx.taskId, CreateTaskStatus(Completed, rt.now))
  }

  /** What the corrected `stream` enqueues after working for a text message: the routing
      decision, the relayed events, and the closing status. */
  function Forwarded(ctx: RequestContext, rt: Runtime, v: Validators, remote: Remote, message: string): seq<Event> {
    [ArtifactUpdate(ctx.contextId, ctx.taskId, RoutingArtifact(rt, message))]
    + Relayed(ctx, v, rt.parse, remote.lines) + [Closing(ctx, rt, remote)]
  }

  /** The corrected stream trace, branch by branch: working, then either the failure of the
      text lookup, or the routing decision and the relayed events followed by the failure of
      the connection or by completed. */
  lemma StreamRunShape(ctx: RequestContext, rt: Runtime, v: Validators, remote: Remote)
    ensures var working := CreateTaskStatusEvent(ctx.taskId, CreateTaskStatus(Working, rt.now));
            var r := StreamRun(ctx, rt, v, remote, None);
            match FirstText(ctx)
            case Failure(e) =>
              r == Run([working, CreateTaskStatusEvent(ctx.taskId, CreateTaskStatus(Failed, rt.now, Some(e.text)))], Some(e))
            case Success(message) =>
              r == Run([working] + Forwarded(ctx, rt, v, remote, message), remote.error)
  {
    if FirstText(ctx).Success? {
      var message := FirstText(ctx).value;
      var working := CreateTaskStatusEvent(ctx.taskId, CreateTaskStatus(Working, rt.now));
      var relayed := [working, ArtifactUpdate(ctx.contextId, ctx.taskId, RoutingArtifact(rt, message))]
                     + Relayed(ctx, v, rt.parse, remote.lines);
      assert relayed + [Closing(ctx, rt, remote)] == [working] + Forwarded(ctx, rt, v, remote, message);
    }
  }

  /** The `async with` block of `stream` and the enqueue after it: the routing decision, the
      relayed lines, and the closing status. */
  method Forward(ctx: RequestContext, rt: Runtime, v: Validators, remote: Remote, message: string, q: EventQueue)
    returns (raised: Option<Exc>)
    modifies q
    ensures q.events == old(q.events) + Forwarded(ctx, rt, v, remote, message)
    ensures raised == remote.error
  {
    var routing := ArtifactUpdate(ctx.contextId, ctx.taskId, RoutingArtifact(rt, message));
    q.Enqueue(routing);
    Relay(ctx, v, rt.parse, remote.lines, q);
    ghost var relayed := Relayed(ctx, v, rt.parse, remote.lines);
    Associative(old(q.events), [routing], relayed);
    Associative(old(q.events), [routing] + relayed, [Closing(ctx, rt, remote)]);
    if remote.error.Some? {
      q.Enqueue(CreateTaskStatusEvent(ctx.taskId, CreateTaskStatus(Failed, rt.now, Some(remote.error.value.text))));
      return remote.error;
    }
    q.Enqueue(CreateTaskStatusEvent(ctx.taskId, CreateTaskStatus(Completed, rt.now)));
    return None;
  }

  /** `stream(context, event_queue)`, with the terminal enqueues calling
      `create_task_status_event` without the keyword it does not declare. */
  method Stream(ctx: RequestContext, rt: Runtime, v: Validators, remote: Remote, q: EventQueue) returns (raised: Option<Exc>)
    modifies q
    ensures q.events == old(q.events) + StreamRun(ctx, rt, v, remote, None).events
    ensures raised == StreamRun(ctx, rt, v, remote, None).raised
  {
    StreamRunShape(ctx, rt, v, remote);
    var working := CreateTaskStatusEvent(ctx.taskId, CreateTaskStatus(Working, rt.now));
    q.Enqueue(working);
    var text := FirstText(ctx);
    if text.Failure? {
      q.Enqueue(CreateTaskStatusEvent(ctx.taskId, CreateTaskStatus(Failed, rt.now, Some(text.error.text))));
      return Some(text.error);
    }
    raised := Forward(ctx, rt, v, remote, text.value, q);
    Associative(old(q.events), [working], Forwarded(ctx, rt, v, remote, text.value));
  }

  /** `cancel(context, event_queue)`: one cancelled status. */
  method Cancel(ctx: RequestContext, rt: Runtime, q: EventQueue)
    modifies q
    ensures q.events == old(q.events) + [CreateTaskStatusEvent(ctx.taskId, CreateTaskStatus(Cancelled, rt.now))]
  {
    q.Enqueue(CreateTaskStatusEvent(ctx.taskId, CreateTaskStatus(Cancelled, rt.now)));
  }
}
