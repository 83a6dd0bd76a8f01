/** The in-process task router of protocols/a2a_handler.py: a registry of agents by name and
    a table of tasks, where each submitted message is handed to the agent it is addressed to,
    the agent's reply is appended to the history, and a reply that asks for forwarding sends
    the conversation on to another agent. */
module Handler {
  import opened Wrappers
  import opened Text
  import opened Schemas
  import A2ATypes

  /** The dict an agent's `process_message` returns; a key it leaves out, or sets to None, is None. */
  datatype Response = Response(response: Option<string>, status: Option<string>, toolUsed: Option<string>,
                               forwardTo: Option<string>, forwardContent: Option<string>)

  /** One call of `process_message`: the dict it returned, or the exception it raised. */
  datatype AgentCall = Returned(reply: Response) | Threw(error: A2ATypes.Exc)

  /** A registered agent: its `name` attribute and `process_message(content, task_id, messages)`. */
  datatype Agent = Agent(name: string, process: (string, string, seq<A2AMessage>) -> AgentCall)

  /** The timestamp given to the message created at a history position. */
  type Clock = nat -> string

  /** One turn of the routing loop: it stops (`break`), goes round again (`continue`) or lets
      an exception out. */
  datatype StepResult = Halt(task: A2ATask) | Continue(task: A2ATask) | Fail(task: A2ATask, error: A2ATypes.Exc)

  /** How `route_task` ends: it returns the task, it raises (the task keeps what was appended
      before), or it is still going after the given number of turns. */
  datatype Outcome = Finished(task: A2ATask) | Raised(task: A2ATask, error: A2ATypes.Exc) | OutOfFuel(task: A2ATask)

  function LastMessage(t: A2ATask): A2AMessage
    requires |t.messages| > 0
  {
    t.messages[|t.messages| - 1]
  }

  /** What the agent registered under `prev.receiver` returns when handed `prev` and the
      history ending in it. */
  function CallOn(agents: map<string, Agent>, taskId: string, history: seq<A2AMessage>): AgentCall
    requires |history| > 0 && history[|history| - 1].receiver in agents
  {
    var prev := history[|history| - 1];
    agents[prev.receiver].process(prev.content, taskId, history)
  }

  /** Message `k` is the reply to message `k - 1`: the agent registered under its receiver,
      called on the history up to it, returned a response, and the reply goes back with sender
      and receiver swapped, the response as content and that agent's debug info. */
  predicate Answers(agents: map<string, Agent>, taskId: string, msgs: seq<A2AMessage>, k: nat)
    requires 0 < k < |msgs|
  {
    var prev := msgs[k - 1];
    var m := msgs[k];
    && prev.receiver in agents
    && m.sender == prev.receiver && m.receiver == prev.sender
    && var call := CallOn(agents, taskId, msgs[..k]);
    && call.Returned? && call.reply.response == Some(m.content)
    && m.debug == Some(Debug(m.sender, m.receiver, Some(agents[prev.receiver].name), call.reply.toolUsed))
  }

  /** Message `k` passes on the reply at `k - 1`: that reply asked to be forwarded, and message
      `k` goes from the same agent to the forward target with the forward content, which
      differs from the reply's. */
  predicate PassesOn(agents: map<string, Agent>, taskId: string, msgs: seq<A2AMessage>, k: nat)
    requires 1 < k < |msgs|
  {
    && Answers(agents, taskId, msgs, k - 1)
    && var reply := msgs[k - 1];
    && var resp := CallOn(agents, taskId, msgs[..k - 1]).reply;
    && var m := msgs[k];
    && AsksForward(resp)
    && m.sender == reply.sender && m.receiver == resp.forwardTo.value
    && m.content == resp.forwardContent.value && m.content != reply.content
    && m.debug == Some(Debug(m.sender, m.receiver, Some(agents[reply.sender].name), resp.toolUsed))
  }

  /** The message at position `k` was added by the router: a reply, or a forward of the reply
      just before it. */
  predicate SignedAt(agents: map<string, Agent>, taskId: string, msgs: seq<A2AMessage>, k: nat)
    requires k < |msgs|
  {
    0 < k && (Answers(agents, taskId, msgs, k) || (1 < k && PassesOn(agents, taskId, msgs, k)))
  }

  /** Every message from position `from` on was added by the router. */
  predicate SignedFrom(agents: map<string, Agent>, taskId: string, msgs: seq<A2AMessage>, from: nat) {
    forall k: nat :: from <= k < |msgs| ==> SignedAt(agents, taskId, msgs, k)
  }

  /** Whether a message was added by the router depends only on the history up to it. */
  lemma SignedAtExtend(agents: map<string, Agent>, taskId: string, msgs: seq<A2AMessage>, ext: seq<A2AMessage>, k: nat)
    requires k < |msgs| <= |ext| && ext[..|msgs|] == msgs
    requires SignedAt(agents, taskId, msgs, k)
    ensures SignedAt(agents, taskId, ext, k)
  {
    assert ext[..k + 1] == msgs[..k + 1];
    assert ext[..k] == msgs[..k];
    assert ext[k] == msgs[k] && ext[k - 1] == msgs[k - 1];
    if 1 < k {
      assert ext[..k - 1] == msgs[..k - 1];
      assert ext[k - 2] == msgs[k - 2];
    }
  }

  /** The response asks to be passed on: status 'forward' with a truthy target and content. */
  predicate AsksForward(r: Response) {
    r.status == Some("forward") && Truthy(r.forwardTo) && Truthy(r.forwardContent)
  }

  /** Why the loop may stop on a task: nobody is registered under the last receiver (status
      'error'), or the last message is the reply of the agent registered under its sender,
      called on the history before it, and that reply does not ask to be passed on. */
  predicate HaltedAt(agents: map<string, Agent>, t: A2ATask)
    requires |t.messages| > 0
  {
    var m := LastMessage(t);
    (m.receiver !in agents && t.status == "error")
    || (|t.messages| >= 2 && m.sender in agents &&
        var h := t.messages[..|t.messages| - 1];
        var call := agents[m.sender].process(h[|h| - 1].content, t.taskId, h);
        && call.Returned?
        && call.reply.response == Some(m.content)
        && t.status == call.reply.status.GetOr("completed")
        && !AsksForward(call.reply))
  }

  /** One turn of the `while True` loop of `route_task`. */
  function Step(agents: map<string, Agent>, t: A2ATask, stamp: Clock): (r: StepResult)
    ensures r.task.taskId == t.taskId && r.task.context == t.context
    ensures |t.messages| <= |r.task.messages| <= |t.messages| + 2
    ensures r.task.messages[..|t.messages|] == t.messages
    ensures r.Fail? ==> r.task == t
    ensures r.Continue? ==> |r.task.messages| > |t.messages|
    ensures r.Halt? ==> |r.task.messages| > 0
    ensures |t.messages| > 0 && LastMessage(t).receiver !in agents ==> r == Halt(t.(status := "error"))
  {
    if |t.messages| == 0 then Fail(t, A2ATypes.Exc("IndexError", "list index out of range"))
    else
      var last := LastMessage(t);
      if last.receiver !in agents then Halt(t.(status := "error"))
      else
        var agent := agents[last.receiver];
        match agent.process(last.content, t.taskId, t.messages)
        case Threw(e) => Fail(t, e)
        case Returned(resp) =>
          if resp.response.None? then Fail(t, A2ATypes.Exc("KeyError", "'response'"))
          else
            var reply := A2AMessage(last.receiver, last.sender, resp.response.value, stamp(|t.messages|),
                                    Some(Debug(last.receiver, last.sender, Some(agent.name), resp.toolUsed)));
            var replied := t.(messages := t.messages + [reply], status := resp.status.GetOr("completed"));
            if !AsksForward(resp) then Halt(replied)
            else if resp.forwardContent.value == reply.content then Continue(replied)
            else
              var forward := A2AMessage(reply.sender, resp.forwardTo.value, resp.forwardContent.value,
                                        stamp(|t.messages| + 1),
                                        Some(Debug(reply.sender, resp.forwardTo.value, Some(agent.name), resp.toolUsed)));
              Continue(replied.(messages := replied.messages + [forward]))
  }

  /** Every message one turn adds is a reply or the forward of that reply. */
  lemma StepSigned(agents: map<string, Agent>, t: A2ATask, stamp: Clock)
    ensures SignedFrom(agents, t.taskId, Step(agents, t, stamp).task.messages, |t.messages|)
  {
  }

  /** One turn for every registered receiver: an exception of the agent is let out with the
      task untouched, a response without 'response' raises KeyError, and otherwise the reply
      goes back with sender and receiver swapped and the response as content, the status
      becomes the response's (default 'completed'), the loop goes on exactly when the reply
      asks to be forwarded, and then the forward is added exactly when its content differs
      from the reply. */
  lemma StepReplies(agents: map<string, Agent>, t: A2ATask, stamp: Clock)
    requires |t.messages| > 0 && LastMessage(t).receiver in agents
    ensures var last := LastMessage(t);
            var call := agents[last.receiver].process(last.content, t.taskId, t.messages);
            var r := Step(agents, t, stamp);
            var n := |t.messages|;
            && (call.Threw? ==> r == Fail(t, call.error))
            && (call.Returned? && call.reply.response.None? ==> r == Fail(t, A2ATypes.Exc("KeyError", "'response'")))
            && (call.Returned? && call.reply.response.Some? ==>
                  var resp := call.reply;
                  && n < |r.task.messages|
                  && r.task.messages[n].sender == last.receiver && r.task.messages[n].receiver == last.sender
                  && r.task.messages[n].content == resp.response.value
                  && r.task.status == resp.status.GetOr("completed")
                  && (r.Continue? <==> AsksForward(resp))
                  && (!AsksForward(resp) ==> r.Halt? && |r.task.messages| == n + 1)
                  && (AsksForward(resp) ==>
                        (|r.task.messages| == n + 2 <==> resp.forwardContent.value != resp.response.value))
                  && (|r.task.messages| == n + 2 ==>
                        && r.task.messages[n + 1].sender == last.receiver
                        && r.task.messages[n + 1].receiver == resp.forwardTo.value
                        && r.task.messages[n + 1].content == resp.forwardContent.value))
  {
  }

  /** The loop breaks only on a task it may stop on. */
  lemma StepHalted(agents: map<string, Agent>, t: A2ATask, stamp: Clock)
    requires Step(agents, t, stamp).Halt?
    ensures HaltedAt(agents, Step(agents, t, stamp).task)
  {
  }

  /** `route_task(task)`, run for at most `fuel` turns of its loop. */
  function Route(agents: map<string, Agent>, t: A2ATask, stamp: Clock, fuel: nat): (o: Outcome)
    ensures o.task.taskId == t.taskId && o.task.context == t.context
    ensures |t.messages| <= |o.task.messages| && o.task.messages[..|t.messages|] == t.messages
    decreases fuel
  {
    if fuel == 0 then OutOfFuel(t)
    else match Step(agents, t, stamp)
      case Halt(t1) => Finished(t1)
      case Fail(t1, e) => Raised(t1, e)
      case Continue(t1) => Route(agents, t1, stamp, fuel - 1)
  }

  /** Every message the router adds to the history is the reply of the agent registered
      under the receiver of the message before it, with sender and receiver swapped, or passes
      on the reply just before it to the forward target that reply asked for. */
  lemma {:induction false} RouteSigned(agents: map<string, Agent>, t: A2ATask, stamp: Clock, fuel: nat)
    ensures SignedFrom(agents, t.taskId, Route(agents, t, stamp, fuel).task.messages, |t.messages|)
    decreases fuel
  {
    var s := Step(agents, t, stamp);
    if fuel > 0 && s.Continue? {
      StepSigned(agents, t, stamp);
      RouteSigned(agents, s.task, stamp, fuel - 1);
      var final := Route(agents, s.task, stamp, fuel - 1).task.messages;
      forall k: nat | |t.messages| <= k < |final|
        ensures SignedAt(agents, t.taskId, final, k)
      {
        if k < |s.task.messages| {
          SignedAtExtend(agents, t.taskId, s.task.messages, final, k);
        }
      }
    }
  }

  /** A task the router returns is one the loop may stop on. */
  lemma {:induction false} FinishedHalted(agents: map<string, Agent>, t: A2ATask, stamp: Clock, fuel: nat)
    requires Route(agents, t, stamp, fuel).Finished?
    ensures |Route(agents, t, stamp, fuel).task.messages| > 0
    ensures HaltedAt(agents, Route(agents, t, stamp, fuel).task)
    decreases fuel
  {
    var s := Step(agents, t, stamp);
    if s.Halt? {
      StepHalted(agents, t, stamp);
    } else if s.Continue? {
      FinishedHalted(agents, s.task, stamp, fuel - 1);
    }
  }

  /** A run that ended within `f` turns ends the same way with any larger allowance. */
  lemma {:induction false} RouteFuelMonotone(agents: map<string, Agent>, t: A2ATask, stamp: Clock, f: nat, g: nat)
    requires !Route(agents, t, stamp, f).OutOfFuel? && f <= g
    ensures Route(agents, t, stamp, g) == Route(agents, t, stamp, f)
    decreases f
  {
    var s := Step(agents, t, stamp);
    if s.Continue? {
      RouteFuelMonotone(agents, s.task, stamp, f - 1, g - 1);
    }
  }

  /** An agent that always replies "ack" and asks to forward "again" to itself. */
  const SelfForwarder: Agent :=
    Agent("relay", (content: string, taskId: string, history: seq<A2AMessage>) =>
      Returned(Response(Some("ack"), Some("forward"), None, Some("relay"), Some("again"))))

  /** The loop has no bound of its own: with an agent that forwards to itself, no number of
      turns ends it. */
  lemma {:induction false} SelfForwardNeverEnds(t: A2ATask, stamp: Clock, fuel: nat)
    requires |t.messages| > 0 && LastMessage(t).receiver == "relay"
    ensures Route(map["relay" := SelfForwarder], t, stamp, fuel).OutOfFuel?
    decreases fuel
  {
    if fuel > 0 {
      var agents := map["relay" := SelfForwarder];
      var s := Step(agents, t, stamp);
      assert s.Continue? && LastMessage(s.task).receiver == "relay";
      SelfForwardNeverEnds(s.task, stamp, fuel - 1);
    }
  }

  /** A forward whose content equals the reply is not sent: the turn adds only the reply,
      the loop goes on, and the next turn goes to the reply's receiver (the sender of the
      message answered) instead of the forward target. */
  lemma BouncedForward(agents: map<string, Agent>, t: A2ATask, stamp: Clock, fuel: nat)
    requires |t.messages| > 0 && LastMessage(t).receiver in agents
    requires var call := agents[LastMessage(t).receiver].process(LastMessage(t).content, t.taskId, t.messages);
             call.Returned? && AsksForward(call.reply) && call.reply.response == call.reply.forwardContent
    ensures var s := Step(agents, t, stamp);
            && s.Continue? && |s.task.messages| == |t.messages| + 1
            && LastMessage(s.task).receiver == LastMessage(t).sender
            && Route(agents, t, stamp, fuel + 1) == Route(agents, s.task, stamp, fuel)
  {
  }

  /** An agent whose forward content repeats its own reply word for word. */
  const Repeater: Agent :=
    Agent("repeater", (content: string, taskId: string, history: seq<A2AMessage>) =>
      Returned(Response(Some("same"), Some("forward"), None, Some("shopping"), Some("same"))))

  /** An instance of the rule above: the forward to "shopping" is never sent, the next turn
      goes to the unregistered "user", and the task ends in 'error' although "shopping" is
      registered. */
  lemma BouncedForwardExample(shop: Agent, stamp: Clock, fuel: nat)
    requires fuel >= 2
    ensures var t := Create("user", "repeater", "hi", "t1", stamp(0));
            var o := Route(map["repeater" := Repeater, "shopping" := shop], t, stamp, fuel);
            o.Finished? && o.task.status == "error" && |o.task.messages| == 2
            && forall m | m in o.task.messages :: m.receiver != "shopping"
  {
    var agents := map["repeater" := Repeater, "shopping" := shop];
    var t := Create("user", "repeater", "hi", "t1", stamp(0));
    var s1 := Step(agents, t, stamp);
    assert s1.Continue? && |s1.task.messages| == 2 && LastMessage(s1.task).receiver == "user";
    assert Route(agents, t, stamp, 2).Finished?;
    RouteFuelMonotone(agents, t, stamp, 2, fuel);
  }

  /** No two tasks share a key, and every stored task has a history. */
  predicate Indexed(tasks: map<string, A2ATask>) {
    forall id :: id in tasks ==> tasks[id].taskId == id && |tasks[id].messages| > 0
  }

  /** The debug dict `submit_task` attaches to the user's message. */
  function UserDebug(sender: string, receiver: string): Debug {
    Debug(sender, receiver, None, None)
  }

  /** What `submit_task` hands to the router, and under which key it is stored: the known
      task with the message appended when the id is truthy and known, otherwise a new task
      under the given id (when truthy) or a fresh one. */
  function Submission(tasks: map<string, A2ATask>, sender: string, receiver: string, content: string,
                      taskId: Option<string>, newId: string, stamp: Clock): (s: (string, A2ATask))
    requires Indexed(tasks)
    ensures s.1.taskId == s.0 && |s.1.messages| > 0
    ensures LastMessage(s.1).sender == sender && LastMessage(s.1).receiver == receiver
    ensures LastMessage(s.1).content == content && LastMessage(s.1).debug == Some(UserDebug(sender, receiver))
    ensures Truthy(taskId) && taskId.value in tasks ==>
              s.0 == taskId.value && s.1.messages[..|s.1.messages| - 1] == tasks[s.0].messages
              && s.1.status == tasks[s.0].status
    ensures !(Truthy(taskId) && taskId.value in tasks) ==>
              s.0 == (if Truthy(taskId) then taskId.value else newId)
              && |s.1.messages| == 1 && s.1.status == "submitted"
  {
    if Truthy(taskId) && taskId.value in tasks then
      var task := tasks[taskId.value];
      var m := A2AMessage(sender, receiver, content, stamp(|task.messages|), Some(UserDebug(sender, receiver)));
      (taskId.value, task.(messages := task.messages + [m]))
    else
      var created := Create(sender, receiver, content, newId, stamp(0));
      var id := if Truthy(taskId) then taskId.value else created.taskId;
      var first := created.messages[0].(debug := Some(UserDebug(sender, receiver)));
      (id, created.(taskId := id, messages := [first]))
  }

  /** `A2AHandler`: the registered agents and the tasks submitted so far. */
  class A2AHandler {
    const agents: map<string, Agent>
    var tasks: map<string, A2ATask>

    predicate Valid()
      reads this
    {
      Indexed(tasks)
    }

    constructor (agents: map<string, Agent>)
      ensures this.agents == agents && tasks == map[] && Valid()
    {
      this.agents := agents;
      tasks := map[];
    }

    /** `get_task(task_id)`: the stored task, or None. */
    function GetTask(taskId: string): (r: Option<A2ATask>)
      reads this
      ensures r.Some? <==> taskId in tasks
      ensures r.Some? ==> r.value == tasks[taskId]
    {
      if taskId in tasks then Some(tasks[taskId]) else None
    }

    /** One pass through the body of the `while True` loop, updating the task as the source
        does: the reply is appended, the status set, and the forward appended when its
        content differs from the reply. */
    method Turn(task: A2ATask, stamp: Clock) returns (r: StepResult)
      ensures r == Step(agents, task, stamp)
    {
      var t := task;
      if |t.messages| == 0 {
        return Fail(t, A2ATypes.Exc("IndexError", "list index out of range"));
      }
      var last := t.messages[|t.messages| - 1];
      if last.receiver !in agents {
        t := t.(status := "error");
        return Halt(t);
      }
      var agent := agents[last.receiver];
      var call := agent.process(last.content, t.taskId, t.messages);
      if call.Threw? {
        return Fail(t, call.error);
      }
      var resp := call.reply;
      if resp.response.None? {
        return Fail(t, A2ATypes.Exc("KeyError", "'response'"));
      }
      var reply := A2AMessage(last.receiver, last.sender, resp.response.value, stamp(|t.messages|),
                              Some(Debug(last.receiver, last.sender, Some(agent.name), resp.toolUsed)));
      t := t.(messages := t.messages + [reply]);
      t := t.(status := resp.status.GetOr("completed"));
      if !AsksForward(resp) {
        return Halt(t);
      }
      var lastResponse := t.messages[|t.messages| - 1].content;
      if resp.forwardContent.value != lastResponse {
        var sender := t.messages[|t.messages| - 1].sender;
        var forward := A2AMessage(sender, resp.forwardTo.value, resp.forwardContent.value,
                                  stamp(|t.messages|),
                                  Some(Debug(sender, resp.forwardTo.value, Some(agent.name), resp.toolUsed)));
        t := t.(messages := t.messages + [forward]);
      }
      return Continue(t);
    }

    /** `route_task(task)`: the `while True` loop, run for at most `fuel` turns. */
    method RouteTask(task: A2ATask, stamp: Clock, fuel: nat) returns (o: Outcome)
      ensures o == Route(agents, task, stamp, fuel)
    {
      var t := task;
      var left := fuel;
      while true
        invariant Route(agents, t, stamp, left) == Route(agents, task, stamp, fuel)
        decreases left
      {
        if left == 0 {
          return OutOfFuel(t);
        }
        var r := Turn(t, stamp);
        match r
        case Halt(t1) => return Finished(t1);
        case Fail(t1, e) => return Raised(t1, e);
        case Continue(t1) =>
          t := t1;
          left := left - 1;
      }
    }

    /** `submit_task(sender, receiver, content, task_id)`: stores the task under its key and
        routes it; the stored task is the routed one, also when routing raised part-way. */
    method SubmitTask(sender: string, receiver: string, content: string, taskId: Option<string>,
                      newId: string, stamp: Clock, fuel: nat) returns (o: Outcome)
      requires Valid()
      modifies this
      ensures Valid()
      ensures var s := Submission(old(tasks), sender, receiver, content, taskId, newId, stamp);
              o == Route(agents, s.1, stamp, fuel) && tasks == old(tasks)[s.0 := o.task]
    {
      var s := Submission(tasks, sender, receiver, content, taskId, newId, stamp);
      tasks := tasks[s.0 := s.1];
      o := RouteTask(s.1, stamp, fuel);
      tasks := tasks[s.0 := o.task];
    }
  }
}
