/** The dict-shaped A2A message helpers of utils/helpers.py. */
module Helpers {
  import opened Wrappers
  import opened JsonValues
  import opened Text

  /** `validate_a2a_message(message)`: the three required keys are all present. */
  predicate ValidateA2AMessage(message: Dict) {
    "type" in message && "content" in message && "task_id" in message
  }

  /** `create_a2a_message(content, message_type, task_id)`: `task_id` is added only when it
      is truthy. */
  function CreateA2AMessage(content: Json, messageType: string := "message", taskId: Option<string> := None): (m: Dict)
    ensures "type" in m && m["type"] == JStr(messageType)
    ensures "content" in m && m["content"] == content
    ensures "task_id" in m <==> Truthy(taskId)
    ensures "task_id" in m ==> m["task_id"] == JStr(taskId.value)
    ensures m.Keys <= {"type", "content", "task_id"}
  {
    var base := map["type" := JStr(messageType), "content" := content];
    if Truthy(taskId) then base["task_id" := JStr(taskId.value)] else base
  }

  /** A message built by `create_a2a_message` passes validation exactly when a truthy task id
      was supplied. */
  lemma CreatedMessageValidates(content: Json, messageType: string, taskId: Option<string>)
    ensures ValidateA2AMessage(CreateA2AMessage(content, messageType, taskId)) <==> Truthy(taskId)
  {
  }

  /** `create_a2a_error(error, task_id)`: type "error", content `{"error": error}`. */
  function CreateA2AError(error: string, taskId: Option<string> := None): (m: Dict)
    ensures "type" in m && m["type"] == JStr("error")
    ensures "content" in m && m["content"] == JObj(map["error" := JStr(error)])
    ensures "task_id" in m <==> Truthy(taskId)
  {
    CreateA2AMessage(JObj(map["error" := JStr(error)]), "error", taskId)
  }

  /** `create_a2a_success(content, task_id)`: type "message", content unchanged. */
  function CreateA2ASuccess(content: Json, taskId: Option<string> := None): (m: Dict)
    ensures "type" in m && m["type"] == JStr("message")
    ensures "content" in m && m["content"] == content
    ensures "task_id" in m <==> Truthy(taskId)
  {
    CreateA2AMessage(content, "message", taskId)
  }
}
