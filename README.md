# A2A shopping-assistant core, modelled in Dafny

This project models the core of a small multi-agent shopping assistant. Agents talk to each
other over the agent-to-agent (A2A) protocol, and the core has these parts:

- **Task router** (`protocols/a2a_handler.py`). An in-memory router keeps tasks keyed by id,
  each with an append-only message history. `route_task` hands the last message to the agent
  it is addressed to and appends the reply. When a reply asks to be forwarded, the router
  goes round again.
- **A2A executors.** The orchestrator, classifier, shopping and dialogue agents each push a
  fixed sequence of status and artifact events onto an event queue. On an exception they end
  with a `failed` status.
- **Routing rules.** The orchestrator picks an agent by keyword search. Its HTTP chat
  endpoint asks a language model which agent to use, with a greeting shortcut and a bounded
  retry loop.
- **Frontend stream reader.** It cuts the orchestrator's event stream into
  `data: ` frames at blank lines.
- **Helpers and tools.** Record builders and error classes sit beside three small tools:
  product search, the wishlist and conversation memory.

What the model leaves to its caller:

- The language model, HTTP calls, `json.loads`/`json.dumps`, uuids and the clock are all
  inputs: datatypes of outcomes, or function-valued parameters.
- Every agent operation that changes state is a `method`, and each is proved equal to a pure
  function. For an executor that function is its event trace (`Run`: the events enqueued and
  the exception raised). For the router it is the routing function `Route`, and for the tools
  it is the new file contents.
- The properties are proved as lemmas about those functions.

Files under `src/`, one module each:

| file | module | models |
|---|---|---|
| wrappers.dfy | Wrappers | Option and Result |
| json_values.dfy | JsonValues | decoded JSON values, a JSON file on disk |
| text.dfy | Text | Python `str` operations: find, split/join/replace, strip, lower/capitalize, `re.IGNORECASE` keyword search, `str(int)` |
| errors.dfy | Errors | `utils/errors.py` |
| a2a_types.dfy | A2ATypes | the library's records, the event queue, the runtime inputs |
| a2a_utils.dfy | A2AUtils | `utils/a2a_utils.py` (and the copy of `construct_agent_url` in `utils/helpers.py`) |
| helpers.dfy | Helpers | `utils/helpers.py` |
| schemas.dfy | Schemas | `schemas/a2a_message.py` |
| handler.dfy | Handler | `protocols/a2a_handler.py` |
| orchestrator_agent.dfy | OrchestratorAgent | `agents/orchestrator/agent.py` |
| orchestrator_main.dfy | OrchestratorMain | `agents/orchestrator/main.py` |
| classifier_agent.dfy | ClassifierAgent | `agents/classifier/agent.py` |
| shopping_agent.dfy | ShoppingAgent | `agents/shopping/agent.py` |
| dialogue_agent.dfy | DialogueAgent | `agents/dialogue_agent.py` |
| frontend_stream.dfy | FrontendStream | `frontend/a2a_utils.py` |
| search_tool.dfy | SearchTool | `tools/search_tool.py` |
| wishlist_tool.dfy | WishlistTool | `tools/wishlist_tool.py` |
| memory_tool.dfy | MemoryTool | `tools/memory/memory_tool.py` |

Where the system's design notes and the code disagree, the model follows the code:

- A cancel enqueues a plain `task_status` record without `final`.
- Not every failure ends in a terminal `failed` status (see Findings).
- Nothing checks that a message's sender, receiver or content is non-empty.
- An unreachable agent gives an "Agent connection error: ..." chat reply, not a failed task.
- The stream an agent produces is a sequence of status and artifact records, not a stream
  that stops after a `final: true` update.

Two behaviours of the router are worth knowing:

- `route_task` has no bound of its own. `Handler.SelfForwardNeverEnds` shows that an agent
  forwarding to itself keeps it going for any number of turns.
- When a forward's content equals the reply, only the append is skipped: the loop still goes
  round, and the next turn goes to the reply's receiver. `Handler.BouncedForward` states this
  for every agent and task; `Handler.BouncedForwardExample` shows such a task ending in
  `error` without the forward target being called.

## Model

| member | source | states |
|---|---|---|
| Errors.Code | utils/errors.py:12-40 | every error class's code lies in the JSON-RPC server-error range -32099..-32000 |
| Errors.ToJsonRpc | utils/errors.py:5-10 | the `error` record carries the class's code and `str(e)` |
| Errors.CodesDistinct | utils/errors.py:12-40 | two errors share a code exactly when they are of the same class |
| Errors.CodesAndMessages | utils/errors.py:12-40 | the six fixed codes, the message formats and the three default messages |
| A2ATypes.FromA2AError | utils/errors.py:5-10 | a raised A2AError's `str(e)` is its formatted message |
| A2ATypes.TextOf | agents/orchestrator/agent.py:167-170 | the text taken from a model value: the string, else the dict's "text", else its rendering |
| A2ATypes.FirstText | agents/orchestrator/agent.py:122 | `parts[0].root.text` succeeds exactly on a message whose first part is a text part |
| A2ATypes.EventQueue.Enqueue | agents/orchestrator/agent.py:111 | the queue keeps its events and gains the new one at the end |
| A2AUtils.ConstructAgentUrl | utils/a2a_utils.py:20-22 | the URL starts with the `http://` scheme |
| A2AUtils.UrlRoundTrip | utils/helpers.py:15-25 | the URL reads back as the host and port it was built from, for a host without a colon |
| A2AUtils.CreateTaskStatus | utils/a2a_utils.py:35-41 | the status has the given state and error, the current time and no message |
| A2AUtils.CreateArtifact | utils/a2a_utils.py:43-52 | one `{"type": "data", "data": data}` part under the given name |
| A2AUtils.CreateMessage | utils/a2a_utils.py:54-60 | one text part holding the content; the id is the supplied one when truthy, else a generated one |
| A2AUtils.GetMessageSendPayload | utils/a2a_utils.py:62-87 | a JSON-RPC 2.0 envelope with the given id and method whose message keeps role, parts (in order) and id |
| A2AUtils.CreateStreamingMessage | utils/a2a_utils.py:89-97 | corrected builder: succeeds exactly on string content, giving the message record of `create_message` |
| A2AUtils.CreateStreamingMessageAsWritten | utils/a2a_utils.py:89-97 | as written: fails on every content; on a string, because `json.dumps` cannot serialise the `Message` |
| A2AUtils.StreamingMessageAsWrittenAlwaysFails | utils/a2a_utils.py:89-97 | on the same string the as-written builder fails where the corrected one yields the message record |
| A2AUtils.Guard | agents/shopping/agent.py:152-164 | the shared exception handler: body events kept, one failed status carrying `str(e)` appended, exception re-raised |
| A2AUtils.CreateTaskStatusEvent | utils/a2a_utils.py:99-105 | a `task_status` record for the task with the status unchanged |
| A2AUtils.CallCreateTaskStatusEvent | utils/a2a_utils.py:99 | a call passing `final=` raises TypeError; without it, it yields the status record |
| A2AUtils.CreateArtifactEvent | utils/a2a_utils.py:107-113 | a `task_artifact` record for the task with the artifact unchanged |
| A2AUtils.CreateArtifactPartText | utils/a2a_utils.py:115-121 | exactly the keys kind/text/metadata, with kind "text", the text and None |
| Helpers.CreateA2AMessage | utils/helpers.py:39-62 | type and content as given; "task_id" present iff the id is truthy; no other keys |
| Helpers.CreatedMessageValidates | utils/helpers.py:27-62 | a created message passes `validate_a2a_message` exactly when a truthy task id was given |
| Helpers.CreateA2AError | utils/helpers.py:64-78 | type "error", content `{"error": error}`, task id iff truthy |
| Helpers.CreateA2ASuccess | utils/helpers.py:80-94 | type "message", content unchanged, task id iff truthy |
| Schemas.Create | schemas/a2a_message.py:21-28 | a fresh id, status 'submitted', an empty context, one message from sender to receiver with the content, the creation time and no debug |
| Handler.Step | protocols/a2a_handler.py:36-83 | one loop turn keeps the id, context and history prefix and adds at most two messages; an empty history raises IndexError; an unregistered receiver halts with 'error' |
| Handler.StepReplies | protocols/a2a_handler.py:36-80 | for a registered receiver: an agent exception or a missing 'response' raises with the task untouched; otherwise the reply swaps sender and receiver and carries the response, the status is the response's or 'completed', the loop goes on exactly when forwarding is asked for, and then the forward from the agent to `forward_to` is added exactly when its content differs from the reply |
| Handler.StepSigned | protocols/a2a_handler.py:44-78 | each message one turn adds is the agent's reply to the message before it, or the forward of that reply |
| Handler.StepHalted | protocols/a2a_handler.py:57-83 | a `break` happens only on an unregistered receiver or on a reply that does not ask for forwarding |
| Handler.Route | protocols/a2a_handler.py:34-84 | routing keeps the task's id and context and only appends to its history |
| Handler.RouteSigned | protocols/a2a_handler.py:44-78 | every message routing adds is either the reply of the agent registered under the previous receiver, sender and receiver swapped, holding that agent's response and debug info, or the forward of the reply just before it, sent by the same agent to the target the reply named, with content that differs from the reply |
| Handler.FinishedHalted | protocols/a2a_handler.py:80-84 | a returned task ends on a message the loop may stop on |
| Handler.RouteFuelMonotone | protocols/a2a_handler.py:35 | a run that ended within some number of turns ends identically with any larger allowance |
| Handler.SelfForwardNeverEnds | protocols/a2a_handler.py:35 | an agent that forwards to itself keeps the loop going for any number of turns |
| Handler.BouncedForward | protocols/a2a_handler.py:59-79 | for every agent and task, a forward request whose content equals the reply adds only the reply, keeps the loop going, and sends the next turn to the reply's receiver rather than the forward target |
| Handler.BouncedForwardExample | protocols/a2a_handler.py:62-83 | an agent repeating its reply as forward content never reaches the registered forward target; the task ends in 'error' at the unregistered user |
| Handler.Submission | protocols/a2a_handler.py:9-31 | a truthy known id appends one message with user debug info to that task; otherwise a new task under the given id, or a fresh one |
| Handler.A2AHandler.GetTask | protocols/a2a_handler.py:86-87 | the stored task for a known id, None otherwise |
| Handler.A2AHandler.Turn | protocols/a2a_handler.py:36-83 | one pass through the loop body updates the task exactly as one turn of `Route` does |
| Handler.A2AHandler.RouteTask | protocols/a2a_handler.py:34-84 | the imperative loop returns exactly what `Route` gives for the same allowance of turns |
| Handler.A2AHandler.SubmitTask | protocols/a2a_handler.py:9-32 | the task is stored under its key and routed; the store holds the routed task; the tasks stay keyed by their own ids |
| OrchestratorAgent.DetermineTargetAgent | agents/orchestrator/agent.py:89-95 | "shopping" exactly when some keyword occurs ignoring case, otherwise "classifier" |
| OrchestratorAgent.Execute | agents/orchestrator/agent.py:97-228 | the queue gains exactly the events of the execute trace and the method raises its exception |
| OrchestratorAgent.ExecuteEndsFinal | agents/orchestrator/agent.py:195-228 | every execute ends with one final status update: failed with the re-raised text, or completed |
| OrchestratorAgent.ExecuteWithoutParts | agents/orchestrator/agent.py:104-106 | a message without parts gives only a final failed update and the ValidationError |
| OrchestratorAgent.ExecuteSucceeds | agents/orchestrator/agent.py:108-206 | a successful execute enqueues working, routing decision, model answer, completed, in that order |
| OrchestratorAgent.RoutingDecisionRecorded | agents/orchestrator/agent.py:129-142 | the routing artifact's text reads back as the user's message and the chosen target |
| OrchestratorAgent.ResultOf | agents/orchestrator/agent.py:293-297 | only a `data: ` line whose JSON is an object with a "result" object has a result, and it is that object |
| OrchestratorAgent.RelayLine | agents/orchestrator/agent.py:288-312 | a relayed event is an artifact or status update of this task and context |
| OrchestratorAgent.RelayLineRules | agents/orchestrator/agent.py:293-312 | an event needs a parsed "result" object; with an "artifact" key it is that validated artifact, exactly when it validates, whatever the status; a status update needs "status" and no "artifact", and its `final` is the validated flag, False when absent |
| OrchestratorAgent.RelayedAppend | agents/orchestrator/agent.py:288-312 | relaying is line by line: two stretches of the body relay as the two concatenated |
| OrchestratorAgent.RelayedKinds | agents/orchestrator/agent.py:297-309 | every relayed event is an artifact or status update of this task and context |
| OrchestratorAgent.StreamAsWrittenNeverTerminates | agents/orchestrator/agent.py:314-328 | as written, every stream raises the `final` TypeError and enqueues no completed or failed record |
| OrchestratorAgent.StreamTerminates | agents/orchestrator/agent.py:230-328 | without the `final` keyword, stream ends in completed iff the text and the remote agent were fine, else failed with the text |
| OrchestratorAgent.Relay | agents/orchestrator/agent.py:288-312 | the `async for` loop enqueues exactly the relayed events of the received lines, in arrival order |
| OrchestratorAgent.Closing | agents/orchestrator/agent.py:314-327 | the closing status is failed with the connection's error text when there is one, else completed |
| OrchestratorAgent.StreamRunShape | agents/orchestrator/agent.py:230-328 | the corrected stream trace is working, then a failed status for a bad message, or the routing decision, the relayed events and failed or completed |
| OrchestratorAgent.Forward | agents/orchestrator/agent.py:253-327 | the queue gains the routing decision, the relayed events and the closing status, and the connection's exception is raised |
| OrchestratorAgent.Stream | agents/orchestrator/agent.py:230-328 | the relay loop enqueues exactly the corrected stream trace and raises its exception |
| OrchestratorAgent.Cancel | agents/orchestrator/agent.py:330-340 | one cancelled status record is enqueued |
| OrchestratorMain.RetryFrom | agents/orchestrator/main.py:79-120 | a return happens after at least one and at most the allowed number of attempts |
| OrchestratorMain.FallbackUnreachable | agents/orchestrator/main.py:100-120 | with at least one attempt allowed, the fall-through return after the loop is never reached |
| OrchestratorMain.FirstSuccessWins | agents/orchestrator/main.py:94-96 | the first successful attempt's body is returned, after exactly that many attempts |
| OrchestratorMain.TwoAttempts | agents/orchestrator/main.py:77-118 | with two retries: a first success returns at once; otherwise the second attempt's result or failure text is returned |
| OrchestratorMain.GetAgentResponse | agents/orchestrator/main.py:79-120 | the loop returns the retry rule's text after 1 to 2 attempts, sleeping once between attempts |
| OrchestratorMain.ChooseAgent | agents/orchestrator/main.py:164-177 | the chosen key is always a registered agent |
| OrchestratorMain.ChooseAgentCases | agents/orchestrator/main.py:164-177 | classifier iff "classifier" or "analyzer" occurs; shopping iff neither does and "shop" occurs |
| OrchestratorMain.GreetingShortcut | agents/orchestrator/main.py:128-129 | a greeting is answered without the prompt, the model or any agent |
| OrchestratorMain.RoutedReply | agents/orchestrator/main.py:167-174 | a routed reply is "Selected <name>:\n" followed by the chosen agent's response |
| OrchestratorMain.Chat | agents/orchestrator/main.py:122-183 | the endpoint's result equals the chat rule, including the 500 for a missing prompt file |
| ClassifierAgent.Stream | agents/classifier/agent.py:107-179 | the queue gains exactly the stream trace's events and the method raises its exception |
| ClassifierAgent.Execute | agents/classifier/agent.py:197-199 | execute gives the same events and exception as stream |
| ClassifierAgent.Cancel | agents/classifier/agent.py:182-187 | one cancelled status record is enqueued |
| ClassifierAgent.StreamEnds | agents/classifier/agent.py:110-179 | every run starts with working and ends in completed, or in failed with the re-raised text |
| ClassifierAgent.StreamOutcomes | agents/classifier/agent.py:128-170 | a JSON answer gives working, one classifier_response artifact, completed; a non-JSON answer raises the ValidationError |
| ClassifierAgent.ArtifactReadsBack | agents/classifier/agent.py:129-145 | the artifact text parses back to the model's classification |
| ClassifierAgent.NoEmptyArtifact | agents/classifier/agent.py:159-163 | no artifact with empty text is ever enqueued |
| ShoppingAgent.Execute | agents/shopping/agent.py:95-164 | with the corrected builder, the queue gains exactly the execute trace's events |
| ShoppingAgent.ExecuteAsWrittenNeverCompletes | agents/shopping/agent.py:131-164 | as written, execute always raises, enqueues no message and no completed status, and ends in failed |
| ShoppingAgent.ExecuteWithoutParts | agents/shopping/agent.py:100-103 | a message without parts gives only the failed status and the ValidationError |
| ShoppingAgent.ExecuteOutcomes | agents/shopping/agent.py:96-164 | the corrected execute ends in completed or failed; a string answer gives working, message, completed |
| ShoppingAgent.Stream | agents/shopping/agent.py:166-220 | the queue gains exactly the stream trace's events and the method raises its exception |
| ShoppingAgent.StreamOutcomes | agents/shopping/agent.py:186-212 | a non-empty answer gives working, a shopping_response artifact holding it, completed; an empty one fails the assertion |
| ShoppingAgent.StreamEnds | agents/shopping/agent.py:214-220 | any exception leaves a failed status carrying its text as the last event |
| ShoppingAgent.Cancel | agents/shopping/agent.py:222-232 | one cancelled status record is enqueued |
| DialogueAgent.ReplyChoice | agents/dialogue_agent.py:43-47 | the forwarding reply iff some keyword occurs ignoring case; each reply quotes the message verbatim |
| DialogueAgent.ForwardedIsShopping | agents/dialogue_agent.py:43 | a message the dialogue agent forwards is one the orchestrator routes to shopping |
| DialogueAgent.PartTextAsWritten | agents/dialogue_agent.py:42 | `parts[0].text` fails on every message |
| DialogueAgent.ExecuteAsWrittenAlwaysRaises | agents/dialogue_agent.py:41-48 | as written, execute raises on every message and enqueues nothing |
| DialogueAgent.ExecuteReplies | agents/dialogue_agent.py:41-48 | read through `.root`, a text message gets exactly one reply event |
| DialogueAgent.Execute | agents/dialogue_agent.py:41-48 | the queue gains exactly the corrected trace's events |
| DialogueAgent.CancelRun | agents/dialogue_agent.py:50-51 | cancel raises "cancel not supported" and enqueues nothing |
| FrontendStream.FrameResult | frontend/a2a_utils.py:35-47 | only a frame that strips to `data: ` and a non-blank JSON object holding a "result" object has a result, and it is that object |
| FrontendStream.FrameEvent | frontend/a2a_utils.py:35-58 | only a frame with a result can yield an event |
| FrontendStream.FrameEventKinds | frontend/a2a_utils.py:44-63 | "status-update" goes to the status builder and "artifact-update" to the artifact builder; no result, a missing or unknown kind give no event; with well-formed builders the event's kind is the result's kind |
| FrontendStream.DispatchAppend | frontend/a2a_utils.py:33-63 | frames are dispatched one by one: two runs of frames yield the two event runs joined |
| FrontendStream.FramesReassemble | frontend/a2a_utils.py:33-34 | frames and remainder rejoined with the delimiter are the text received; the remainder holds no delimiter |
| FrontendStream.FramesExtend | frontend/a2a_utils.py:30-34 | more text never changes the frames already complete |
| FrontendStream.DrainFrames | frontend/a2a_utils.py:33-58 | the inner loop yields the events of all complete frames of the buffer and keeps the remainder |
| FrontendStream.StreamAgentResponse | frontend/a2a_utils.py:24-63 | a non-200 raises with the error text; otherwise the events of every complete frame of all chunks, in order, and the remainder |
| SearchTool.SliceCount | tools/search_tool.py:15 | `x[:k]` keeps at most all elements, and min(k, n) for a non-negative k |
| SearchTool.Hit | tools/search_tool.py:16-22 | name is the title else the url; price and currency None; features the content else ""; url copied |
| SearchTool.SearchProducts | tools/search_tool.py:11-23 | min(k, n) hits in raw order; it succeeds iff every kept result has a url; otherwise KeyError 'url' |
| WishlistTool.Entry | tools/wishlist_tool.py:26-28 | the product's keys plus "alert_price" iff a price is given; otherwise the product itself |
| WishlistTool.Load | tools/wishlist_tool.py:13-17 | a missing file is the empty list; a garbled one raises the decoder's error |
| WishlistTool.AddAppendsOne | tools/wishlist_tool.py:25-35 | an add succeeds iff the wishlist loads as a list; it then appends exactly one entry at the end, earlier entries unchanged |
| WishlistTool.FirstAdd | tools/wishlist_tool.py:13-31 | with no file, the first add leaves a wishlist of that one entry |
| WishlistTool.Wishlist.List | tools/wishlist_tool.py:34-35 | listing with no file gives [] |
| WishlistTool.Wishlist.Add | tools/wishlist_tool.py:25-31 | the file becomes the appended list on success and is unchanged on failure |
| MemoryTool.FormatLines | tools/memory/memory_tool.py:32-34 | the formatted conversation splits at line breaks back into one "Role: content" line per turn, in order |
| MemoryTool.PlaceholderFilled | tools/memory/memory_tool.py:44 | a template with the placeholder yields a prompt containing the conversation; one without is unchanged |
| MemoryTool.LoadLatest | tools/memory/memory_tool.py:82-102 | "" for a missing file or an empty list; a garbled file raises RuntimeError; a non-empty list yields its last record's "summary", or a RuntimeError for a record without one; a non-empty summary needs a truthy file |
| MemoryTool.SaveAppendsOne | tools/memory/memory_tool.py:55-67 | saving keeps every earlier record and appends one; missing or garbled counts as empty; fails only on a non-list |
| MemoryTool.SaveThenLoad | tools/memory/memory_tool.py:55-99 | what was just saved is what loads back |
| MemoryTool.MemorySummarizer.Summarize | tools/memory/memory_tool.py:31-53 | the stripped model answer to the filled prompt; prompt and model failures become RuntimeErrors with the cause |
| MemoryTool.MemorySummarizer.SaveMemory | tools/memory/memory_tool.py:55-75 | the save file becomes the saved list on success and is unchanged on failure |
| MemoryTool.MemorySummarizer.ProcessAndSave | tools/memory/memory_tool.py:77-80 | summarise then save; once it returns a summary, the latest memory is that summary |

## Left out

- Language model, HTTP and timing: model calls, HTTP requests and responses, timeouts, `time.sleep` and async scheduling are inputs (`LlmCall`, `Attempt`, `Remote`, received chunks). Sleeps are only counted.
- JSON text: `json.loads` and `json.dumps` are function inputs. `A2ATypes.RoundTrips` is assumed only where a lemma states it as a requirement.
- Library validation: the library's pydantic checks are inputs (`Validators`, `EventBuilders`) or not modelled. This covers the `TaskStatus` extra `error` field, role values, dict parts in `Message`, and whether the installed library has `TaskState.cancelled`.
- Random ids and clock: uuids are the function `uuid: nat -> string` and timestamps are parameters. Each invocation reads the clock once.
- Handler.Route: runs for a fuel bound of loop turns. A run still going when the fuel ends is reported as `OutOfFuel`, because the source loop has no bound.
- Handler.A2AHandler.SubmitTask: the stored task is written back after routing, rather than shared by reference. An agent that mutates the history it is handed is not modelled.
- Logging, `print` and the agent cards are not modelled. Neither are server start-up, API-key checks or the constructors' LangChain set-up.
- frontend/a2a_utils.py raises at import time (line 7), so `stream_agent_response` cannot be reached as the file stands. FrontendStream.StreamAgentResponse describes the function as if that line were absent.
- FrontendStream.StreamAgentResponse: chunk decoding from bytes is not modelled; chunks arrive as text. Exceptions from the event builders are folded into "no event".
- Text.LowerChar, Text.FoldChar, Text.UpperChar, Text.TitleCase and Text.Capitalize: cover ASCII, Latin-1 (including `capitalize` turning "ß" into "Ss" and "ÿ", "µ" into "Ÿ", "Μ") and the few characters Python's `re.IGNORECASE` equates with ASCII letters. Other scripts' case mappings are left out.
- Handler.Step: an agent response whose "response" or "status" key is present with the value None is treated as if the key were missing. Python would append a message with content None, or set the status to None, where the model raises KeyError or sets 'completed'.
- Exception texts that depend on the Python version are fixed at one version's wording. This affects string indexing by `str` and slicing a dict.
- WishlistTool.Wishlist.Add and MemoryTool.MemorySummarizer.SaveMemory: writing the file cannot fail in the model. The "Could not write to memory file" error is not modelled.
- MemoryTool.Format: turns missing "role" or "content", and non-string contents, are not modelled.
- MemoryTool.LoadLatest: reading a file that exists but cannot be opened is not modelled. Nor is `json.load` turning a number like `3.0` into a float, beyond the type name used in messages.
- SearchTool.SearchProducts: raw results are dicts or a string. A list item that is not a dict is not modelled.
- The `MemorySummarizer` constructor's API-key check and prompt-path default are not modelled. The prompt file's content, or its read error, is an input.

## Findings

| source | as written | input that shows it | evidently intended | confidence | as-written member | corrected member |
|---|---|---|---|---|---|---|
| agents/orchestrator/agent.py:315-326 | passes `final=True` to `create_task_status_event`, which declares no such parameter | any message: the completion enqueue raises TypeError, and the failure enqueue in the handler raises again | enqueue the completed or failed status record | not executed | OrchestratorAgent.StreamAsWrittenNeverTerminates | OrchestratorAgent.StreamTerminates |
| utils/a2a_utils.py:96 | `json.dumps(result)` on a dict holding a `Message` model object | content "hi" raises "Object of type Message is not JSON serializable" | log the message and return it | not executed | A2AUtils.StreamingMessageAsWrittenAlwaysFails | A2AUtils.CreateStreamingMessage |
| agents/shopping/agent.py:132 | calls `create_streaming_message(response)`, which always raises as written | any text message with a model answer: execute ends in failed, never completed | enqueue the streamed answer, then completed | not executed | ShoppingAgent.ExecuteAsWrittenNeverCompletes | ShoppingAgent.ExecuteOutcomes |
| agents/dialogue_agent.py:42 | reads `context.message.parts[0].text`; the library's parts hold their text under `.root` | the text part "buy a laptop" raises AttributeError and nothing is enqueued | `parts[0].root.text`, as in the other agents | not executed | DialogueAgent.ExecuteAsWrittenAlwaysRaises | DialogueAgent.ExecuteReplies |
