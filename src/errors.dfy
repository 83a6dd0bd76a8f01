/** The `A2AError` exception hierarchy of utils/errors.py: each class fixes a JSON-RPC error
    code in the implementation-defined server-error range (section 5.1 of the JSON-RPC 2.0
    Specification) and formats its message. */
module Errors {

  datatype A2AError =
    | TaskNotFoundError(taskId: string)
    | InvalidMessageError(detail: string)
    | AuthenticationError(message: string := "Authentication failed")
    | AuthorizationError(message: string := "Authorization failed")
    | RateLimitError(message: string := "Rate limit exceeded")
    | ValidationError(detail: string)

  /** The `error` object every A2AError carries. */
  datatype JsonRpcError = JsonRpcError(code: int, message: string)

  /** The code each subclass passes to `A2AError.__init__`; all lie in the server-error range. */
  function Code(e: A2AError): (r: int)
    ensures -32099 <= r <= -32000
  {
    match e
    case TaskNotFoundError(_) => -32001
    case InvalidMessageError(_) => -32002
    case AuthenticationError(_) => -32003
    case AuthorizationError(_) => -32004
    case RateLimitError(_) => -32005
    case ValidationError(_) => -32006
  }

  /** The message passed to `A2AError.__init__`, which is also `str(e)`. */
  function Message(e: A2AError): string {
    match e
    case TaskNotFoundError(id) => "Task " + id + " not found"
    case InvalidMessageError(m) => "Invalid message: " + m
    case AuthenticationError(m) => m
    case AuthorizationError(m) => m
    case RateLimitError(m) => m
    case ValidationError(m) => "Validation error: " + m
  }

  /** The `self.error` record built in `A2AError.__init__`. */
  function ToJsonRpc(e: A2AError): (r: JsonRpcError)
    ensures r.code == Code(e) && r.message == Message(e)
  {
    JsonRpcError(Code(e), Message(e))
  }

  predicate SameClass(a: A2AError, b: A2AError) {
    a.TaskNotFoundError? == b.TaskNotFoundError? && a.InvalidMessageError? == b.InvalidMessageError?
    && a.AuthenticationError? == b.AuthenticationError? && a.AuthorizationError? == b.AuthorizationError?
    && a.RateLimitError? == b.RateLimitError? && a.ValidationError? == b.ValidationError?
  }

  /** The code identifies the class: two errors share a code exactly when they are of the
      same class. */
  lemma CodesDistinct(a: A2AError, b: A2AError)
    ensures Code(a) == Code(b) <==> SameClass(a, b)
  {
  }

  /** The fixed codes, the message formats and the three default messages. */
  lemma CodesAndMessages(id: string, m: string)
    ensures Code(TaskNotFoundError(id)) == -32001 && Message(TaskNotFoundError(id)) == "Task " + id + " not found"
    ensures Code(InvalidMessageError(m)) == -32002 && Message(InvalidMessageError(m)) == "Invalid message: " + m
    ensures Code(AuthenticationError()) == -32003 && Message(AuthenticationError()) == "Authentication failed"
    ensures Code(AuthorizationError()) == -32004 && Message(AuthorizationError()) == "Authorization failed"
    ensures Code(RateLimitError()) == -32005 && Message(RateLimitError()) == "Rate limit exceeded"
    ensures Code(ValidationError(m)) == -32006 && Message(ValidationError(m)) == "Validation error: " + m
  {
  }
}
