/**
 * The two operations every delivered message carries: `deleteMessage` and
 * `changeMessageVisibility`. Both close over the stream's queue URL and the
 * message's receipt handle, and each produces one call on the SQS client.
 */
module Messages {
  import opened Wrappers

  /** A message as `receiveMessage` returns it: a payload and its receipt handle. */
  datatype Msg = Msg(body: string, receiptHandle: string)

  /**
   * A message as the stream pushes it: the received message, augmented with
   * `QueueUrl` (the stream's queue URL), which the two attached operations also use.
   */
  datatype Delivered = Delivered(msg: Msg, queueUrl: Option<string>)

  /** An opaque function value a caller hands over; only its identity matters. */
  type FunctionId = nat

  /** The callback handed to the SQS client: the caller's own, or an empty function. */
  datatype Callback = UserCallback(id: FunctionId) | NoOp

  /** The first argument of `changeMessageVisibility`. */
  datatype VisibilityArg = Omitted | Seconds(n: int) | Function(id: FunctionId)

  /** A call the attached operations make on the SQS client. */
  datatype ClientCall =
    | DeleteMessageCall(queueUrl: Option<string>, receiptHandle: string, callback: Callback)
    | ChangeVisibilityCall(queueUrl: Option<string>, receiptHandle: string, visibilityTimeout: int, callback: Callback)

  /** `callback || function () {}`. */
  function CallbackOrNoOp(callback: Option<FunctionId>): (r: Callback)
    ensures r == NoOp <==> callback.None?
    ensures callback.Some? ==> r == UserCallback(callback.value)
  {
    match callback
    case Some(f) => UserCallback(f)
    case None => NoOp
  }

  /**
   * The argument shuffle of `changeMessageVisibility(visibility, callback)`: a
   * function in first position is the callback and the timeout is 0; otherwise
   * an omitted (or zero) timeout is 0.
   */
  function NormaliseVisibility(visibility: VisibilityArg, callback: Option<FunctionId>): (r: (int, Callback))
    ensures r.0 != 0 ==> visibility == Seconds(r.0)
    ensures visibility.Seconds? ==> r.0 == visibility.n
    ensures visibility.Function? ==> r.1 == UserCallback(visibility.id)
    ensures !visibility.Function? ==> r.1 == CallbackOrNoOp(callback)
  {
    match visibility
    case Function(f) => (0, UserCallback(f))
    case Seconds(n) => (n, CallbackOrNoOp(callback))
    case Omitted => (0, CallbackOrNoOp(callback))
  }

  /** `message.deleteMessage(callback)`. */
  function DeleteMessage(d: Delivered, callback: Option<FunctionId>): (call: ClientCall)
    ensures call.DeleteMessageCall?
    ensures call.queueUrl == d.queueUrl && call.receiptHandle == d.msg.receiptHandle
    ensures call.callback == NoOp <==> callback.None?
    ensures callback.Some? ==> call.callback == UserCallback(callback.value)
  {
    DeleteMessageCall(d.queueUrl, d.msg.receiptHandle, CallbackOrNoOp(callback))
  }

  /** `message.changeMessageVisibility(visibility, callback)`. */
  function ChangeMessageVisibility(d: Delivered, visibility: VisibilityArg, callback: Option<FunctionId>): (call: ClientCall)
    ensures call.ChangeVisibilityCall?
    ensures call.queueUrl == d.queueUrl && call.receiptHandle == d.msg.receiptHandle
    ensures call.visibilityTimeout != 0 ==> visibility == Seconds(call.visibilityTimeout)
    ensures visibility.Seconds? ==> call.visibilityTimeout == visibility.n
    ensures visibility.Function? ==> call.callback == UserCallback(visibility.id)
    ensures !visibility.Function? ==> call.callback == CallbackOrNoOp(callback)
  {
    var (timeout, cb) := NormaliseVisibility(visibility, callback);
    ChangeVisibilityCall(d.queueUrl, d.msg.receiptHandle, timeout, cb)
  }

  /**
   * The two accepted call shapes agree: `changeMessageVisibility(f)` is
   * `changeMessageVisibility(undefined, f)`, whatever second argument was also passed.
   */
  lemma CallbackFirstIsZeroTimeout(d: Delivered, f: FunctionId, ignored: Option<FunctionId>)
    ensures ChangeMessageVisibility(d, Function(f), ignored) == ChangeMessageVisibility(d, Omitted, Some(f))
    ensures ChangeMessageVisibility(d, Function(f), ignored).visibilityTimeout == 0
  {
  }
}
