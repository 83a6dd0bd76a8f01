/** The orchestrator's HTTP chat endpoint (agents/orchestrator/main.py): a greeting
    shortcut, a model call that names the agent to use, and a bounded retry loop for the
    call to that agent. */
module OrchestratorMain {
  import opened Wrappers
  import opened Text

  const MaxRetries: nat := 2

  /** How one POST to an agent's `/chat` went: an HTTP status, with, for 200, the value of
      `response.json()["response"]` or the text of the exception reading it raised; a
      timeout; or any other exception. */
  datatype Attempt =
    | Answer(status: int, body: Result<string, string>)
    | TimedOut
    | Failed(error: string)

  /** How `get_agent_response` ends: a return after some attempts, or the fall-through
      after the loop. */
  datatype RetryResult = Returned(text: string, attempts: nat) | FellThrough

  const FallbackText := "Failed to get response from agent after multiple attempts."
  const TimeoutText := "Agent response timeout. Please try again."

  predicate Succeeds(a: Attempt) {
    a.Answer? && a.status == 200 && a.body.Success?
  }

  /** What a failed attempt returns when it is the last one. A 200 whose body cannot be read
      raises inside the `try` and is reported like any other exception. */
  function FailureText(a: Attempt): string {
    match a
    case Answer(status, body) =>
      if status != 200 then "Agent communication error: " + IntToString(status)
      else if body.Failure? then "Agent connection error: " + body.error
      else ""
    case TimedOut => TimeoutText
    case Failed(e) => "Agent connection error: " + e
  }

  /** The loop `for attempt in range(maxRetries)` from `attempt` on, with the outcome of each
      attempt given by `outcome`. */
  function RetryFrom(outcome: nat -> Attempt, attempt: nat, maxRetries: nat): (r: RetryResult)
    ensures r.Returned? ==> attempt < r.attempts <= maxRetries
    decreases maxRetries - attempt
  {
    if attempt >= maxRetries then FellThrough
    else
      var a := outcome(attempt);
      if Succeeds(a) then Returned(a.body.value, attempt + 1)
      else if attempt < maxRetries - 1 then RetryFrom(outcome, attempt + 1, maxRetries)
      else Returned(FailureText(a), attempt + 1)
  }

  /** The fall-through return after the loop is dead code as soon as one attempt is allowed:
      the last attempt returns on every branch. */
  lemma {:induction false} FallbackUnreachable(outcome: nat -> Attempt, attempt: nat, maxRetries: nat)
    requires attempt < maxRetries
    ensures RetryFrom(outcome, attempt, maxRetries).Returned?
    decreases maxRetries - attempt
  {
    if !Succeeds(outcome(attempt)) && attempt < maxRetries - 1 {
      FallbackUnreachable(outcome, attempt + 1, maxRetries);
    }
  }

  /** The first successful attempt ends the loop with its response; later outcomes are never
      looked at. */
  lemma {:induction false} FirstSuccessWins(outcome: nat -> Attempt, attempt: nat, maxRetries: nat, i: nat)
    requires attempt <= i < maxRetries && Succeeds(outcome(i))
    requires forall j :: attempt <= j < i ==> !Succeeds(outcome(j))
    ensures RetryFrom(outcome, attempt, maxRetries) == Returned(outcome(i).body.value, i + 1)
    decreases i - attempt
  {
    if attempt < i {
      FirstSuccessWins(outcome, attempt + 1, maxRetries, i);
    }
  }

  /** With two attempts: the first success is returned; if both fail, the second failure is
      the one reported. */
  lemma TwoAttempts(outcome: nat -> Attempt)
    ensures RetryFrom(outcome, 0, MaxRetries)
            == if Succeeds(outcome(0)) then Returned(outcome(0).body.value, 1)
               else if Succeeds(outcome(1)) then Returned(outcome(1).body.value, 2)
               else Returned(FailureText(outcome(1)), 2)
  {
  }

  /** `get_agent_response(port, message)`: the reply, the number of attempts made and the
      number of one-second sleeps taken, which come only between attempts. */
  method GetAgentResponse(outcome: nat -> Attempt) returns (reply: string, attempts: nat, sleeps: nat)
    ensures RetryFrom(outcome, 0, MaxRetries) == Returned(reply, attempts)
    ensures 1 <= attempts <= MaxRetries && sleeps == attempts - 1
  {
    sleeps := 0;
    var attempt: nat := 0;
    while attempt < MaxRetries
      invariant attempt <= MaxRetries - 1
      invariant RetryFrom(outcome, attempt, MaxRetries) == RetryFrom(outcome, 0, MaxRetries)
      invariant sleeps == attempt
    {
      var a := outcome(attempt);
      var error: string;
      if a.Answer? {
        if a.status == 200 && a.body.Success? {
          return a.body.value, attempt + 1, sleeps;
        }
        if a.status == 200 {
          error := "Agent connection error: " + a.body.error;
        } else {
          error := "Agent communication error: " + IntToString(a.status);
        }
      } else if a.TimedOut? {
        error := TimeoutText;
      } else {
        error := "Agent connection error: " + a.error;
      }
      if attempt < MaxRetries - 1 {
        sleeps := sleeps + 1;
        attempt := attempt + 1;
      } else {
        return error, attempt + 1, sleeps;
      }
    }
    assert false;
    return FallbackText, attempt, sleeps;
  }

  // ----- chat -----------------------------------------------------------------------------

  /** The agents the chat endpoint can pick: port and display name. */
  datatype AgentInfo = AgentInfo(port: int, name: string)

  const Agents: map<string, AgentInfo> :=
    map["classifier" := AgentInfo(8001, "Needs Analyzer"), "shopping" := AgentInfo(8002, "Shopping Assistant")]

  const Greetings: seq<string> := ["hello", "hi", "hey"]
  const GreetingText := "Hello! I'm your shopping assistant. How can I help you today?"
  const TroubleText := "I'm having trouble analyzing your message. Please try again."
  const UndeterminedText := "I cannot determine which agent should handle this request. Please try rephrasing."

  /** What `/chat` returns: a `{"response": ...}` body, or an HTTP error. */
  datatype ChatResult = Reply(response: string) | HttpError(status: int, detail: string)

  /** The agent named by the model's reply: "classifier" or "analyzer" first, then "shopping"
      or "shop", in the lower-cased text. */
  function ChooseAgent(modelReply: string): (key: Option<string>)
    ensures key.Some? ==> key.value in Agents
  {
    var choice := Lower(modelReply);
    if Contains(choice, "classifier") || Contains(choice, "analyzer") then Some("classifier")
    else if Contains(choice, "shopping") || Contains(choice, "shop") then Some("shopping")
    else None
  }

  /** The choice in full: the classifier wins whenever it is named; otherwise any "shop"
      picks the shopping agent; otherwise nobody. */
  lemma ChooseAgentCases(modelReply: string)
    ensures var c := Lower(modelReply);
            (ChooseAgent(modelReply) == Some("classifier") <==> Contains(c, "classifier") || Contains(c, "analyzer"))
            && (ChooseAgent(modelReply) == Some("shopping")
                <==> !Contains(c, "classifier") && !Contains(c, "analyzer") && Contains(c, "shop"))
  {
    var c := Lower(modelReply);
    if Contains(c, "shopping") {
      var k := IndexOf(c, "shopping").value;
      assert c[k..k + 8] == "shopping";
      assert c[k..k + 4] == c[k..k + 8][..4] == "shopping"[..4] == "shop";
      assert OccursAt(c, "shop", k);
    }
  }

  /** The text `get_agent_response` hands back for an agent; the fall-through cannot happen. */
  function AgentResponse(outcome: nat -> Attempt): string {
    match RetryFrom(outcome, 0, MaxRetries)
    case Returned(text, _) => text
    case FellThrough => FallbackText
  }

  /** `chat(message)`: `promptFile` is the content of prompt.txt or the error opening it,
      `model` the Gemini call on the full prompt, `outcomes(port)` the attempts made against
      the agent on that port. The HTTP error raised for a missing prompt file is caught by
      the outer handler and raised again with `str()` of the first as its detail. */
  function ChatSpec(content: string, promptFile: Result<string, string>, model: string -> Result<string, string>,
                    outcomes: int -> (nat -> Attempt)): ChatResult {
    if Lower(content) in Greetings then Reply(GreetingText)
    else match promptFile
      case Failure(_) => HttpError(500, "500: Failed to load system prompt")
      case Success(prompt) =>
        match model(prompt + "\n\nUser message: " + content)
        case Failure(_) => Reply(TroubleText)
        case Success(text) =>
          match ChooseAgent(text)
          case None => Reply(UndeterminedText)
          case Some(key) =>
            Reply("Selected " + Agents[key].name + ":\n" + AgentResponse(outcomes(Agents[key].port)))
  }

  /** A greeting is answered without reading the prompt or calling any model or agent. */
  lemma GreetingShortcut(content: string, p1: Result<string, string>, p2: Result<string, string>,
                         m1: string -> Result<string, string>, m2: string -> Result<string, string>,
                         o1: int -> (nat -> Attempt), o2: int -> (nat -> Attempt))
    requires Lower(content) in Greetings
    ensures ChatSpec(content, p1, m1, o1) == ChatSpec(content, p2, m2, o2) == Reply(GreetingText)
  {
  }

  /** A routed reply is "Selected <name>:\n" followed by what the chosen agent returned. */
  lemma RoutedReply(content: string, prompt: string, model: string -> Result<string, string>,
                    outcomes: int -> (nat -> Attempt), key: string)
    requires Lower(content) !in Greetings
    requires model(prompt + "\n\nUser message: " + content).Success?
    requires ChooseAgent(model(prompt + "\n\nUser message: " + content).value) == Some(key)
    ensures var r := ChatSpec(content, Success(prompt), model, outcomes);
            var head := "Selected " + Agents[key].name + ":\n";
            r.Reply? && StartsWith(r.response, head) && r.response[|head|..] == AgentResponse(outcomes(Agents[key].port))
  {
  }

  /** `chat(message)`, calling the retry loop for the chosen agent. */
  method Chat(content: string, promptFile: Result<string, string>, model: string -> Result<string, string>,
              outcomes: int -> (nat -> Attempt)) returns (r: ChatResult)
    ensures r == ChatSpec(content, promptFile, model, outcomes)
  {
    if Lower(content) in Greetings {
      return Reply(GreetingText);
    }
    if promptFile.Failure? {
      return HttpError(500, "500: Failed to load system prompt");
    }
    var answer := model(promptFile.value + "\n\nUser message: " + content);
    if answer.Failure? {
      return Reply(TroubleText);
    }
    var key := ChooseAgent(answer.value);
    if key.None? {
      return Reply(UndeterminedText);
    }
    var info := Agents[key.value];
    var agentResponse, _, _ := GetAgentResponse(outcomes(info.port));
    return Reply("Selected " + info.name + ":\n" + agentResponse);
  }
}
