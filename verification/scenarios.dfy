/**
 * Client code in the shape of the repository's test suite: each method drives
 * a stream through one documented situation and checks, from the contracts
 * alone, what the stream does.
 */
module Scenarios {
  import opened Wrappers
  import opened StreamOptions
  import opened Messages
  import opened Backoff
  import opened Delivery
  import opened ReadableStream

  const TestQueue: string := "http://aws.example.com/queue"

  /** The options of the suite's common stream: a one-millisecond initial backoff and one extra receive option. */
  function TestOptions(): (o: UserOptions) {
    UserOptions(Some(SqsClient(true)), Some(TestQueue), None, Some(1), None,
                Some(map["testOption" := Num(99)]), None)
  }

  /** A stream built from `opts`, which must be accepted. */
  method Start(opts: UserOptions) returns (s: SqsReadableStream)
    requires Configure(Some(opts)).Success?
    ensures fresh(s) && s.Valid() && s.Fresh() && s.HasConfig(Configure(Some(opts)).value)
  {
    var r := SqsReadableStream.Create(Some(opts));
    s := r.value;
  }

  method RejectsMissingClient() {
    var noClient := UserOptions(None, Some(TestQueue), None, None, None, None, None);
    var r := SqsReadableStream.Create(Some(noClient));
    assert r == Failure(NotAnSqsClient);
    var notAClient := UserOptions(Some(SqsClient(false)), Some(TestQueue), None, None, None, None, None);
    r := SqsReadableStream.Create(Some(notAClient));
    assert r == Failure(NotAnSqsClient);
    r := SqsReadableStream.Create(None);
    assert r == Failure(OptionsMissing);
  }

  method ResumeRequestsOnceWithQueueUrlAndOptions() {
    var s := Start(TestOptions());
    assert s.log == [];
    s.Read();
    assert s.log == [ReceiveRequest(s.Params())];
    assert s.Params()["QueueUrl"] == Str(TestQueue);
    assert s.Params()["testOption"] == Num(99);
    assert s.Params()["MaxNumberOfMessages"] == Num(10);
    s.Read();
    assert |s.log| == 1;
  }

  method BatchIsPushedInOrderThenPolledAgain(a: Msg, b: Msg, c: Msg) {
    var s := Start(TestOptions());
    s.Read();
    s.OnSuccess([a, b, c], [true, true, true]);
    AllTrueIffEveryPushAccepted([true, true, true]);
    DeliveriesInOrder(s.queueUrl, [a, b, c]);
    assert s.log[1] == Data(Delivered(a, Some(TestQueue)));
    assert s.log[2] == Data(Delivered(b, Some(TestQueue)));
    assert s.log[3] == Data(Delivered(c, Some(TestQueue)));
    assert s.log[4] == ReceiveRequest(s.Params()) && s.readInProgress;
    assert DeleteMessage(Delivered(a, s.queueUrl), Some(7)) == DeleteMessageCall(Some(TestQueue), a.receiptHandle, UserCallback(7));
    assert DeleteMessage(Delivered(a, s.queueUrl), None).callback == NoOp;
  }

  method BackpressureStopsPolling(a: Msg, b: Msg) {
    var s := Start(TestOptions());
    s.Read();
    s.OnSuccess([a, b], [false, false]);
    AllTrueIffEveryPushAccepted([false, false]);
    DeliveriesInOrder(s.queueUrl, [a, b]);
    assert !s.readInProgress && |s.log| == 3;
    s.Read();
    assert s.log[3] == ReceiveRequest(s.Params());
  }

  method RetriesDoubleTheDelayAndSuccessResetsIt() {
    var s := Start(TestOptions());
    s.Read();
    s.OnError("FAIL");
    assert s.log[2] == RetryScheduled(1) && !s.readInProgress;
    s.FireRetry();
    s.OnError("FAIL");
    assert s.log[5] == RetryScheduled(2);
    s.FireRetry();
    s.OnError("FAIL");
    assert s.log[8] == RetryScheduled(4);
    s.FireRetry();
    s.OnSuccess([], []);
    assert s.log[10] == ReceiveRequest(s.Params());
    s.OnError("FAIL");
    assert s.log[12] == RetryScheduled(1);
  }

  method ErrorWithoutRetriesEndsTheStream() {
    var s := Start(UserOptions(Some(SqsClient(true)), Some(TestQueue), Some(false), None, None, None, None));
    s.Read();
    s.OnError("FAIL");
    assert s.log == [ReceiveRequest(s.Params()), ErrorEmitted("FAIL"), EndOfStream];
    assert s.ended && s.pendingRetries == 0;
  }

  method EmptyQueueEndsOnlyWhenAsked() {
    var s := Start(UserOptions(Some(SqsClient(true)), Some(TestQueue), None, None, None, None, Some(true)));
    s.Read();
    s.OnSuccess([], []);
    assert s.log == [ReceiveRequest(s.Params()), EndOfStream] && s.ended && s.readInProgress;
    var t := Start(TestOptions());
    t.Read();
    t.OnSuccess([], []);
    assert t.log == [ReceiveRequest(t.Params()), ReceiveRequest(t.Params())] && !t.ended;
  }
}
