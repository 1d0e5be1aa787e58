# SQS readable stream, modelled in Dafny

This project models `SQSReadableStream`, which turns an Amazon SQS queue into a Node `Readable`
stream in object mode. The stream is poll-driven: demand from the consumer (`_read`) calls
`receive`, and `receive` issues at most one `receiveMessage` request at a time. Its callback then
does one of three things:

- on an error, it backs off (emits `retry`, schedules `receive`, doubles the delay) or ends the
  stream (emits `error`, pushes `null`);
- on an empty response, it ends the stream (with `stopOnQueueEmpty`) or polls again at once;
- on a batch, it augments every message with `deleteMessage` and `changeMessageVisibility` and
  pushes the messages in turn until a push is refused, then polls again at once if every push was
  accepted. The messages after a refused push are never pushed (see Findings); the model's
  `OnSuccess` uses the corrected loop, which pushes all of them.

Modules, one per concern of `sqs-readable-stream.js`:

- `Wrappers`: `Option` (an argument or property that was not given) and `Result` (a throw).
- `StreamOptions`: the constructor's option record and its field-by-field defaults, the check for
  a usable SQS client, and the parameters of a `receiveMessage` request.
- `Messages`: the received message, its delivered (augmented) form, and the client calls that
  `deleteMessage` and `changeMessageVisibility` make, including their argument handling.
- `Backoff`: the retry delay after n consecutive failures, `initialBackoff * 2^n`.
- `Delivery`: the `Event` log of everything the stream does to the outside world, and the loop
  that pushes one batch, both as written and as intended (see Findings).
- `ReadableStream`: the class `SqsReadableStream`. Its fields are the stored options, the guard
  `readInProgress`, the delay `retryWait`, the Readable's end-of-stream flag `ended`, and the
  `log`. Its methods are the events: `Read` (`_read`), `FireRetry` (a retry timer fires),
  `OnError` and `OnSuccess` (the two outcomes of the outstanding request). Ghost fields count the
  outstanding requests, the pending timers and the consecutive failures. The invariant `Valid`
  states the following:
  - at most one request is outstanding;
  - `retryWait == initialBackoff * 2^failures`;
  - end of stream is logged once, as the last event;
  - once the stream ends, no request can follow.
- `Scenarios`: client methods in the shape of `tests.js` that check, from the contracts alone,
  the documented behaviour.

In these places the model follows the code, which does less than one might expect:

- The retry delay is never capped. `maxBackoff` is stored (`sqs-readable-stream.js:48`) and read
  nowhere, and `:71` only doubles. `Backoff.BackoffOutgrowsAnyCap` proves that the delay exceeds
  any bound, `maxBackoff` included.
- An empty response without `stopOnQueueEmpty` does not idle. `readMore` stays true, so
  `receive` runs again at once (`:81`, `:116-119`). The long poll's `WaitTimeSeconds` (20 by
  default) is the only pacing.
- `maxBackoff` defaults to 15000 when absent, but to 60000 when given as 0 (`:22`, `:48`).
- With underscore 1.7 or 1.8, a constructor call without an options object throws a `TypeError`
  before the client check (`OptionsMissing`).

`push`'s boolean result is an input (`accepts`), because Node's buffering is not modelled. An
empty array, a missing `Messages` property and a null response all take one branch (`:82`). Each is
the empty sequence. Option merging follows underscore's `defaults` in versions 1.7 and 1.8: only absent or undefined
properties are filled in.

## Model

| member | source | states |
|---|---|---|
| `StreamOptions.Defaults` | sqs-readable-stream.js:33-37 | the merged object has the union of both key sets; the object's own properties win, and missing ones come from the defaults |
| `StreamOptions.Configure` | sqs-readable-stream.js:9-53 | construction fails exactly when there is no options object (`OptionsMissing`), or the client is missing or its `receiveMessage` is not a function (`NotAnSqsClient`). Otherwise: `retryOnErrors` defaults to true and `stopOnQueueEmpty` to false. `initialBackoff` is never 0: absent or 0 gives 100. `maxBackoff` is 15000 when absent and 60000 when 0. The receive options keep every user value and gain the three defaults the user did not set |
| `StreamOptions.RequestParams` | sqs-readable-stream.js:63 | the request always carries the stream's `QueueUrl`, overriding any `QueueUrl` in the receive options, plus every other receive option unchanged and nothing else |
| `StreamOptions.ConfiguredRequestParams` | sqs-readable-stream.js:33-37 | a configured stream requests its own queue. It asks for `MaxNumberOfMessages` 10, `WaitTimeSeconds` 20 and `AttributeNames ['All']` unless the user set them, and passes every user option through |
| `Messages.CallbackOrNoOp` | sqs-readable-stream.js:89 | the caller's callback is forwarded unchanged; the empty function is used exactly when none was given |
| `Messages.NormaliseVisibility` | sqs-readable-stream.js:94-102 | a function as first argument becomes the callback, and the timeout is then 0. A nonzero timeout is only ever the number given, and an omitted timeout is 0 |
| `Messages.DeleteMessage` | sqs-readable-stream.js:85-90 | `deleteMessage` makes one `deleteMessage` call with the stream's queue URL and the message's own receipt handle. It forwards the user's callback, or the empty function when none is given |
| `Messages.ChangeMessageVisibility` | sqs-readable-stream.js:93-104 | `changeMessageVisibility` makes one call with the stream's queue URL and the message's receipt handle. `VisibilityTimeout` is the number given, else 0. The callback is the function given first, else the second argument, else the empty function |
| `Messages.CallbackFirstIsZeroTimeout` | sqs-readable-stream.js:94-97 | `changeMessageVisibility(f, g)` with a function `f` is the same call as `changeMessageVisibility(undefined, f)`, and has timeout 0 |
| `Backoff.BackoffDoubles` | sqs-readable-stream.js:71 | each failure doubles the delay: after n+1 failures it is twice the delay after n |
| `Backoff.BackoffOutgrowsAnyCap` | sqs-readable-stream.js:68-71 | for a positive initial delay, enough consecutive failures exceed any bound. No cap such as `maxBackoff` (stored at :48) applies |
| `Delivery.DeliveriesInOrder` | sqs-readable-stream.js:83-108 | the batch's pushes are exactly one per message, in received order. Each pushed message is the received one, with the stream's `QueueUrl` attached |
| `Delivery.AllTrueIffEveryPushAccepted` | sqs-readable-stream.js:81-108 | the accumulated `readMore` is true exactly when every push of the batch returned true |
| `Delivery.DeliverBatch` | sqs-readable-stream.js:81-109 | the intended batch loop pushes every message in order, even after a refused push. Its `readMore` is the conjunction of all push results |
| `Delivery.PushedCount` | sqs-readable-stream.js:108 | the number of pushes the loop as written performs is at most the batch size, 0 only for an empty batch, and the whole batch when every push is accepted |
| `Delivery.DeliverBatchAsWritten` | sqs-readable-stream.js:81-109 | the loop as written pushes the messages in order, up to and including the first refused one. Its `readMore` is still the conjunction of all push results |
| `Delivery.PushedCountStopsAtFirstRefusal` | sqs-readable-stream.js:108 | if the first refused push is that of message j, the loop as written performs exactly j+1 pushes |
| `Delivery.AsWrittenDropsTheTail` | sqs-readable-stream.js:83-109 | when a push before the last is refused, the loop as written pushes fewer messages than the batch holds. The last message, which `DeliverBatch` pushes, is never pushed |
| `Delivery.AsWrittenDropsSecondOfTwo` | sqs-readable-stream.js:108 | for a batch [a, b] whose first push is refused, the loop as written pushes only a; the intended loop pushes a then b |
| `ReadableStream.SqsReadableStream.constructor` | sqs-readable-stream.js:44-53 | the stream keeps the configured settings; initially `readInProgress` is false, `retryWait` is `initialBackoff`, the stream has not ended, and nothing has happened |
| `ReadableStream.SqsReadableStream.Create` | sqs-readable-stream.js:9-54 | construction throws exactly when the options are rejected, with that error. Otherwise it yields a fresh stream in the initial state with the configured settings |
| `ReadableStream.SqsReadableStream.Receive` | sqs-readable-stream.js:58-65 | while a request is in progress, nothing changes. Otherwise the guard is set and exactly one `receiveMessage` request, with the stream's parameters, is issued. At most one request is ever outstanding |
| `ReadableStream.SqsReadableStream.Read` | sqs-readable-stream.js:123-125 | demand behaves as `receive`: idempotent while a request is in progress, one new request otherwise |
| `ReadableStream.SqsReadableStream.FireRetry` | sqs-readable-stream.js:70 | a fired retry timer runs `receive`. After the stream has ended it changes nothing observable |
| `ReadableStream.SqsReadableStream.OnError` | sqs-readable-stream.js:66-77 | the guard is cleared. With retries on: `retry` is emitted and `receive` is scheduled after the current delay, which is `initialBackoff * 2^(n-1)` for the n-th consecutive failure; then the delay doubles, with no cap. With retries off: `error` is emitted once, end of stream follows, and no retry is scheduled |
| `ReadableStream.SqsReadableStream.OnSuccess` | sqs-readable-stream.js:79-119 | the delay is reset to `initialBackoff`, also for an empty response. An empty response with `stopOnQueueEmpty` pushes end of stream and leaves the guard set, so no request can follow. Otherwise every message is pushed in order with `QueueUrl` attached (the intended loop `DeliverBatch`, see Findings), and the guard is cleared. A new request is issued at once exactly when every push was accepted, which is always the case for an empty response |

## Left out

- Node's `Readable` internals: buffering, `highWaterMark` and `objectMode` (`streamOptions`,
  `:26`, `:32`, `:43`), pause and resume, and event dispatch. Push results are inputs, and events
  are log entries.
- `setTimeout` timing (`:70`): a retry is logged with its delay, and `FireRetry` fires any pending
  timer. Node's clamping of delays above 2^31-1 ms to 1 ms is not modelled.
- The aws-sdk calls: they appear only as logged requests or returned call records. The client
  is assumed to call each request's callback exactly once (`OnError` and `OnSuccess` require an
  outstanding request).
- Emitting `error` without an `error` listener throws in Node. The model assumes a listener.
- Callbacks are opaque function identities. JavaScript truthiness of non-boolean and non-number
  option values, `null` option values, and non-numeric visibility arguments are not modelled.
- Aliasing: `_.defaults` fills the caller's own options and `receiveMessageOptions` objects in
  place, even when construction then throws. The attached methods read `message.ReceiptHandle`
  when they are called, so a consumer that changes a message afterwards changes the call. Values
  are modelled instead.
- `util.inherits` and the `Readable.call` superclass set-up.
- Configure: the error for a missing options object depends on the underscore version. From 1.9
  on, `_.defaults(undefined, …)` returns a new object filled with the defaults, so the throw is
  the client check's `Error` (`NotAnSqsClient`), not `OptionsMissing`. The model follows 1.7 and 1.8.
- JavaScript numbers are doubles, but `initialBackoff`, `maxBackoff`, `retryWait` and
  `VisibilityTimeout` are integers here. Fractions, `NaN` (which `|| 100` turns into 100 at
  `:49`), `Infinity` and the rounding of very large doubled delays are not modelled.

## Findings

| source | as written | input that shows it | evidently intended | confidence | as-written member | corrected member |
|---|---|---|---|---|---|---|
| sqs-readable-stream.js:108 | the batch loop accumulates `readMore` with a short-circuiting `&&` whose right operand is the push. After the first push that returns false, the later messages of the batch are never pushed | a batch of 10 messages read by a paused stream with `highWaterMark` 5: the 5th push returns false, so messages 6 to 10 are not delivered and reappear only after their visibility timeout | push every message of the batch and AND the results (the push as the left operand) | high, not executed | `Delivery.DeliverBatchAsWritten` (exhibited by `Delivery.AsWrittenDropsTheTail`, `Delivery.AsWrittenDropsSecondOfTwo`) | `Delivery.DeliverBatch`, used by `ReadableStream.SqsReadableStream.OnSuccess` |
