/** The message and task records of the in-process router (schemas/a2a_message.py). */
module Schemas {
  import opened Wrappers
  import opened JsonValues

  /** The debug dict attached to a routed message: who sent it to whom, which agent produced
      it and which tool that agent reported. */
  datatype Debug = Debug(sender: string, receiver: string, agentUsed: Option<string>, toolUsed: Option<string>)

  datatype A2AMessage = A2AMessage(sender: string, receiver: string, content: string, timestamp: string, debug: Option<Debug>)

  /** A task: its id, its status string ('submitted', 'completed', 'forward', 'error', or
      whatever an agent reported) and its message history. */
  datatype A2ATask = A2ATask(taskId: string, status: string, messages: seq<A2AMessage>, context: Dict)

  /** `A2ATask.create(sender, receiver, content)`: a fresh id, status 'submitted', one message
      with no debug info, an empty context. */
  function Create(sender: string, receiver: string, content: string, newId: string, now: string): (t: A2ATask)
    ensures t.taskId == newId && t.status == "submitted" && t.context == map[]
    ensures |t.messages| == 1
    ensures t.messages[0].sender == sender && t.messages[0].receiver == receiver
    ensures t.messages[0].content == content && t.messages[0].timestamp == now && t.messages[0].debug.None?
  {
    A2ATask(newId, "submitted", [A2AMessage(sender, receiver, content, now, None)], map[])
  }
}
