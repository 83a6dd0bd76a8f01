/** The dialogue agent (agents/dialogue_agent.py): it echoes the user's message, or, when the
    message mentions buying or finding something, says it forwards it to the shopping agent. */
module DialogueAgent {
  import opened Wrappers
  import opened Text
  import opened A2ATypes
  import OrchestratorAgent

  /** The keywords of the dialogue agent's pattern. */
  const Keywords: seq<string> := ["kupi", "znajd", "szukaj", "zam\U{F3}w", "order", "buy", "find"]

  /** The reply `execute` builds for a message. */
  function Reply(message: string): string {
    if MatchesAny(message, Keywords) then
      "You want to find or buy something: '" + message + "'. Forwarding to shopping agent."
    else "Echo: " + message
  }

  /** Which reply is chosen, and that each quotes the message verbatim. */
  lemma ReplyChoice(message: string)
    ensures StartsWith(Reply(message), "You want to find or buy something: '")
            <==> exists i :: 0 <= i < |Keywords| && SearchIgnoreCase(message, Keywords[i])
    ensures Contains(Reply(message), message)
  {
    var r := Reply(message);
    if MatchesAny(message, Keywords) {
      assert r[36..36 + |message|] == message;
      assert OccursAt(r, message, 36);
    } else {
      assert r[6..6 + |message|] == message;
      assert OccursAt(r, message, 6);
      var prefix := "You want to find or buy something: '";
      assert r[0] == 'E' && prefix[0] == 'Y';
    }
  }

  /** Every dialogue keyword is an orchestrator keyword, so a message the dialogue agent says
      it forwards is one the orchestrator routes to the shopping agent. */
  lemma ForwardedIsShopping(message: string)
    requires MatchesAny(message, Keywords)
    ensures OrchestratorAgent.DetermineTargetAgent(message) == "shopping"
  {
    var i :| 0 <= i < |Keywords| && SearchIgnoreCase(message, Keywords[i]);
    assert Keywords[i] == OrchestratorAgent.Keywords[i];
  }

  /** `context.message.parts[0].text` as written: the library's parts are wrappers whose text
      sits under `.root`, so the attribute lookup fails on every part. */
  function PartTextAsWritten(ctx: RequestContext): (r: Result<string, Exc>)
    ensures r.Failure?
  {
    if |ctx.parts| == 0 then Failure(Exc("IndexError", "list index out of range"))
    else Failure(Exc("AttributeError", "'Part' object has no attribute 'text'"))
  }

  /** The event `execute` enqueues and the exception it raises, reading the text as written
      or, as the other agents do, through `.root`. */
  function ExecuteRun(ctx: RequestContext, asWritten: bool): Run {
    match (if asWritten then PartTextAsWritten(ctx) else FirstText(ctx))
    case Failure(e) => Run([], Some(e))
    case Success(message) => Run([AgentText(Reply(message))], None)
  }

  /** As written, `execute` raises on every message and enqueues nothing. */
  lemma ExecuteAsWrittenAlwaysRaises(ctx: RequestContext)
    ensures ExecuteRun(ctx, true).raised.Some? && ExecuteRun(ctx, true).events == []
  {
  }

  /** Reading the text through `.root`, a text message gets exactly one reply event. */
  lemma ExecuteReplies(ctx: RequestContext, message: string)
    requires |ctx.parts| > 0 && ctx.parts[0] == TextPart(message)
    ensures ExecuteRun(ctx, false) == Run([AgentText(Reply(message))], None)
  {
  }

  /** `execute(context, event_queue)`, reading the text through `.root`. */
  method Execute(ctx: RequestContext, q: EventQueue) returns (raised: Option<Exc>)
    modifies q
    ensures q.events == old(q.events) + ExecuteRun(ctx, false).events
    ensures raised == ExecuteRun(ctx, false).raised
  {
    var text := FirstText(ctx);
    if text.Failure? {
      return Some(text.error);
    }
    q.Enqueue(AgentText(Reply(text.value)));
    return None;
  }

  /** `cancel(context, event_queue)`: always raises, enqueues nothing. */
  function CancelRun(): (r: Run)
    ensures r.events == [] && r.raised == Some(Exc("Exception", "cancel not supported"))
  {
    Run([], Some(Exc("Exception", "cancel not supported")))
  }
}
