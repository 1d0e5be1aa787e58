/**
 * The SQS readable stream: a poll-driven state machine. Demand (`_read`) or a
 * fired retry timer calls `receive`, which issues at most one `receiveMessage`
 * at a time; the request's callback either backs off, ends the stream, or
 * pushes the batch and polls again while the consumer keeps accepting.
 *
 * Everything the stream does to the outside world is appended to `log`.
 */
module ReadableStream {
  import opened Wrappers
  import opened StreamOptions
  import opened Messages
  import opened Backoff
  import opened Delivery

  class SqsReadableStream {
    const client: SqsClient
    const queueUrl: Option<string>
    const retryOnErrors: bool
    /** Kept from the options; no operation of the stream reads it. */
    const maxBackoff: int
    const initialBackoff: int
    const stopOnQueueEmpty: bool
    const receiveMessageOptions: Record

    /** The single-fetch guard. */
    var readInProgress: bool
    /** The delay before the next retry. */
    var retryWait: int
    /** Whether `push(null)` has been issued (the Readable's own end-of-stream state). */
    var ended: bool
    /** The effects so far, oldest first. */
    var log: seq<Event>

    /** The number of `receiveMessage` calls whose callback has not run yet. */
    ghost var inFlight: nat
    /** The number of scheduled retry timers that have not fired yet. */
    ghost var pendingRetries: nat
    /** The number of consecutive failed requests since construction or the last success. */
    ghost var failures: nat

    ghost predicate Valid()
      reads this
    {
      // the delay is the initial one doubled once per consecutive failure
      && retryWait == BackoffDelay(initialBackoff, failures)
      // single fetch: never two requests outstanding, and one only while the guard is set
      && inFlight <= 1
      && (inFlight == 1 ==> readInProgress && !ended)
      // the guard stays set without a request only once the stream has ended on an empty queue
      && (readInProgress && inFlight == 0 ==> ended)
      // without retries there are no timers and no backoff
      && (!retryOnErrors ==> pendingRetries == 0 && failures == 0)
      && (ended && !readInProgress ==> !retryOnErrors)
      // end of stream is signalled once, and it is the last thing that happens
      && (ended ==> |log| > 0 && log[|log| - 1] == EndOfStream && EndOfStream !in log[..|log| - 1])
      && (!ended ==> EndOfStream !in log)
    }

    /** The parameters of every `receiveMessage` request of this stream. */
    function Params(): (p: Record) {
      RequestParams(queueUrl, receiveMessageOptions)
    }

    /** The settings are those of `cfg`. */
    predicate HasConfig(cfg: Config) {
      && client == cfg.client && queueUrl == cfg.queueUrl
      && retryOnErrors == cfg.retryOnErrors && maxBackoff == cfg.maxBackoff
      && initialBackoff == cfg.initialBackoff && stopOnQueueEmpty == cfg.stopOnQueueEmpty
      && receiveMessageOptions == cfg.receiveMessageOptions
    }

    /** The state of a stream that has done nothing yet. */
    ghost predicate Fresh()
      reads this
    {
      && !readInProgress && retryWait == initialBackoff && !ended && log == []
      && inFlight == 0 && pendingRetries == 0 && failures == 0
    }

    /** The assignments that follow a successful option check. */
    constructor (cfg: Config)
      ensures Valid() && HasConfig(cfg) && Fresh()
    {
      client := cfg.client;
      receiveMessageOptions := cfg.receiveMessageOptions;
      queueUrl := cfg.queueUrl;
      retryOnErrors := cfg.retryOnErrors;
      maxBackoff := cfg.maxBackoff;
      initialBackoff := cfg.initialBackoff;
      stopOnQueueEmpty := cfg.stopOnQueueEmpty;
      readInProgress := false;
      retryWait := cfg.initialBackoff;
      ended := false;
      log := [];
      inFlight, pendingRetries, failures := 0, 0, 0;
    }

    /** `new SQSReadableStream(options)`: throws exactly when the options are rejected. */
    static method Create(opts: Option<UserOptions>) returns (r: Result<SqsReadableStream, ConstructError>)
      ensures r.Failure? <==> Configure(opts).Failure?
      ensures r.Failure? ==> r.error == Configure(opts).error
      ensures r.Success? ==>
        && fresh(r.value) && r.value.Valid() && r.value.Fresh()
        && r.value.HasConfig(Configure(opts).value)
    {
      var c := Configure(opts);
      match c
      case Failure(e) =>
        r := Failure(e);
      case Success(cfg) =>
        var s := new SqsReadableStream(cfg);
        r := Success(s);
    }

    /**
     * `receive`: does nothing while a request is in progress; otherwise sets
     * the guard and issues exactly one `receiveMessage` request.
     */
    method Receive()
      requires Valid() && (ended ==> readInProgress)
      modifies this
      ensures Valid()
      ensures old(readInProgress) ==> unchanged(this)
      ensures !old(readInProgress) ==>
        && readInProgress && inFlight == 1 && !ended
        && log == old(log) + [ReceiveRequest(Params())]
        && retryWait == old(retryWait) && failures == old(failures)
        && pendingRetries == old(pendingRetries)
    {
      if readInProgress {
        return;
      }
      readInProgress := true;
      log := log + [ReceiveRequest(Params())];
      inFlight := inFlight + 1;
    }

    /**
     * `_read`, the consumer's demand. The Readable never calls it once the
     * stream has ended.
     */
    method Read()
      requires Valid() && !ended
      modifies this
      ensures Valid()
      ensures old(readInProgress) ==> unchanged(this)
      ensures !old(readInProgress) ==>
        && readInProgress && inFlight == 1 && !ended
        && log == old(log) + [ReceiveRequest(Params())]
        && retryWait == old(retryWait) && failures == old(failures)
        && pendingRetries == old(pendingRetries)
    {
      Receive();
    }

    /** A scheduled retry timer fires and calls `receive`. */
    method FireRetry()
      requires Valid() && pendingRetries > 0
      modifies this
      ensures Valid() && pendingRetries == old(pendingRetries) - 1
      ensures old(ended) ==> ended && log == old(log)
      ensures old(readInProgress) ==>
        && readInProgress == old(readInProgress) && inFlight == old(inFlight) && ended == old(ended)
        && log == old(log) && retryWait == old(retryWait) && failures == old(failures)
      ensures !old(readInProgress) ==>
        && readInProgress && inFlight == 1 && !ended
        && log == old(log) + [ReceiveRequest(Params())]
        && retryWait == old(retryWait) && failures == old(failures)
    {
      pendingRetries := pendingRetries - 1;
      Receive();
    }

    /**
     * The request failed. With retries on: emit `retry`, schedule `receive`
     * after the current delay, double the delay. Otherwise: emit `error` and
     * end the stream. Either way the guard is cleared.
     */
    method OnError(err: string)
      requires Valid() && inFlight == 1
      modifies this
      ensures Valid() && !readInProgress && inFlight == 0
      ensures retryOnErrors ==>
        && log == old(log) + [RetryEmitted(err), RetryScheduled(BackoffDelay(initialBackoff, old(failures)))]
        && failures == old(failures) + 1 && retryWait == 2 * old(retryWait)
        && pendingRetries == old(pendingRetries) + 1 && !ended
      ensures !retryOnErrors ==>
        && log == old(log) + [ErrorEmitted(err), EndOfStream] && ended
        && failures == old(failures) && retryWait == old(retryWait)
        && pendingRetries == old(pendingRetries)
    {
      readInProgress := false;
      inFlight := 0;
      if retryOnErrors {
        log := log + [RetryEmitted(err), RetryScheduled(retryWait)];
        pendingRetries := pendingRetries + 1;
        BackoffDoubles(initialBackoff, failures);
        retryWait := retryWait * 2;
        failures := failures + 1;
      } else {
        log := log + [ErrorEmitted(err), EndOfStream];
        assert log[..|log| - 1] == old(log) + [ErrorEmitted(err)];
        ended := true;
      }
    }

    /**
     * The request succeeded with `messages` (a null response and a missing
     * or empty `Messages` all give the empty sequence); `accepts[i]` is what
     * the push of `messages[i]` returns. The delay is reset. An empty result
     * with `stopOnQueueEmpty` ends the stream and leaves the guard set;
     * otherwise every message is pushed in order (by `DeliverBatch`, the loop
     * as intended rather than as written), the guard is cleared, and a
     * new request is issued at once exactly when every push was accepted
     * (always, for an empty result).
     */
    method OnSuccess(messages: seq<Msg>, accepts: seq<bool>)
      requires Valid() && inFlight == 1 && |accepts| == |messages|
      modifies this
      ensures Valid()
      ensures retryWait == initialBackoff && failures == 0 && pendingRetries == old(pendingRetries)
      ensures messages == [] && stopOnQueueEmpty ==>
        && log == old(log) + [EndOfStream] && ended && readInProgress && inFlight == 0
      ensures !(messages == [] && stopOnQueueEmpty) ==>
        && !ended
        && log == old(log) + Deliveries(queueUrl, messages)
                           + (if AllTrue(accepts) then [ReceiveRequest(Params())] else [])
        && readInProgress == AllTrue(accepts)
        && inFlight == (if AllTrue(accepts) then 1 else 0)
    {
      retryWait := initialBackoff;
      failures := 0;
      var readMore := true;
      if |messages| > 0 {
        var pushed;
        pushed, readMore := DeliverBatch(queueUrl, messages, accepts);
        DeliveriesInOrder(queueUrl, messages);
        log := log + pushed;
      } else if stopOnQueueEmpty {
        log := log + [EndOfStream];
        inFlight := 0;
        ended := true;
        return;
      }
      readInProgress := false;
      inFlight := 0;
      if readMore {
        Receive();
      }
    }
  }
}
