/**
 * What the stream reports to the outside world, and the delivery of one
 * received batch. As written, the messages are augmented and pushed in turn
 * until a push is refused (`DeliverBatchAsWritten`); as intended, every
 * message is pushed (`DeliverBatch`). The boolean results of the pushes
 * decide whether polling continues.
 */
module Delivery {
  import opened Wrappers
  import opened StreamOptions
  import opened Messages

  /** One observable effect of the stream, in the order it happens. */
  datatype Event =
    | ReceiveRequest(params: Record)   // a call of `sqsClient.receiveMessage`
    | Data(message: Delivered)         // `push(message)`
    | EndOfStream                      // `push(null)`
    | RetryEmitted(error: string)      // `emit('retry', err)`
    | ErrorEmitted(error: string)      // `emit('error', err)`
    | RetryScheduled(delay: int)       // `setTimeout(receive, delay)`

  /** The pushes that deliver `msgs`, in order. */
  function Deliveries(queueUrl: Option<string>, msgs: seq<Msg>): (pushes: seq<Event>) {
    if msgs == [] then []
    else Deliveries(queueUrl, msgs[..|msgs| - 1]) + [Data(Delivered(msgs[|msgs| - 1], queueUrl))]
  }

  /** The conjunction of all push results. */
  function AllTrue(bs: seq<bool>): (all: bool) {
    bs == [] || (AllTrue(bs[..|bs| - 1]) && bs[|bs| - 1])
  }

  /** Order preservation: the i-th push delivers the i-th received message, and nothing else is pushed. */
  lemma {:induction false} DeliveriesInOrder(queueUrl: Option<string>, msgs: seq<Msg>)
    ensures |Deliveries(queueUrl, msgs)| == |msgs|
    ensures forall i :: 0 <= i < |msgs| ==> Deliveries(queueUrl, msgs)[i] == Data(Delivered(msgs[i], queueUrl))
  {
    if msgs != [] {
      var init := msgs[..|msgs| - 1];
      DeliveriesInOrder(queueUrl, init);
      forall i | 0 <= i < |msgs|
        ensures Deliveries(queueUrl, msgs)[i] == Data(Delivered(msgs[i], queueUrl))
      {
        if i < |msgs| - 1 {
          assert init[i] == msgs[i];
        }
      }
    }
  }

  /** The conjunction is true exactly when every push was accepted. */
  lemma {:induction false} AllTrueIffEveryPushAccepted(bs: seq<bool>)
    ensures AllTrue(bs) <==> forall i :: 0 <= i < |bs| ==> bs[i]
  {
    if bs != [] {
      var init := bs[..|bs| - 1];
      AllTrueIffEveryPushAccepted(init);
      assert forall i :: 0 <= i < |init| ==> init[i] == bs[i];
    }
  }

  /**
   * Delivery of a non-empty batch (the loop over `data.Messages`), with every
   * message pushed: `pushed` are the pushes in order and `readMore` the
   * conjunction of their results, `accepts[i]` being what the push of
   * `msgs[i]` returns.
   */
  method DeliverBatch(queueUrl: Option<string>, msgs: seq<Msg>, accepts: seq<bool>)
    returns (pushed: seq<Event>, readMore: bool)
    requires |accepts| == |msgs|
    ensures pushed == Deliveries(queueUrl, msgs)
    ensures readMore == AllTrue(accepts)
  {
    pushed, readMore := [], true;
    var i := 0;
    while i < |msgs|
      invariant 0 <= i <= |msgs|
      invariant pushed == Deliveries(queueUrl, msgs[..i])
      invariant readMore == AllTrue(accepts[..i])
    {
      assert msgs[..i + 1][..i] == msgs[..i];
      assert accepts[..i + 1][..i] == accepts[..i];
      pushed := pushed + [Data(Delivered(msgs[i], queueUrl))];
      readMore := accepts[i] && readMore;
      i := i + 1;
    }
    assert msgs[..i] == msgs;
    assert accepts[..i] == accepts;
  }

  /**
   * How many pushes the batch loop as written performs: its accumulator is
   * `readMore && push(message)`, so once a push has returned false the
   * short-circuit skips the push of every later message.
   */
  function PushedCount(accepts: seq<bool>): (n: nat)
    ensures n <= |accepts|
    ensures n == 0 <==> accepts == []
    ensures AllTrue(accepts) ==> n == |accepts|
  {
    if accepts == [] then 0
    else if AllTrue(accepts[..|accepts| - 1]) then |accepts|
    else PushedCount(accepts[..|accepts| - 1])
  }

  /**
   * The batch loop as written: the pushes it performs are those of the
   * messages up to and including the first refused one.
   */
  method DeliverBatchAsWritten(queueUrl: Option<string>, msgs: seq<Msg>, accepts: seq<bool>)
    returns (pushed: seq<Event>, readMore: bool)
    requires |accepts| == |msgs|
    ensures pushed == Deliveries(queueUrl, msgs[..PushedCount(accepts)])
    ensures readMore == AllTrue(accepts)
  {
    pushed, readMore := [], true;
    var i := 0;
    while i < |msgs|
      invariant 0 <= i <= |msgs|
      invariant pushed == Deliveries(queueUrl, msgs[..PushedCount(accepts[..i])])
      invariant readMore == AllTrue(accepts[..i])
    {
      assert msgs[..i + 1][..i] == msgs[..i];
      assert accepts[..i + 1][..i] == accepts[..i];
      if readMore {
        pushed := pushed + [Data(Delivered(msgs[i], queueUrl))];
        readMore := accepts[i];
      }
      i := i + 1;
    }
    assert msgs[..i] == msgs;
    assert accepts[..i] == accepts;
  }

  /** The first refused push ends the pushing: exactly the messages up to and including it are pushed. */
  lemma {:induction false} PushedCountStopsAtFirstRefusal(accepts: seq<bool>, j: nat)
    requires j < |accepts| && !accepts[j]
    requires forall i :: 0 <= i < j ==> accepts[i]
    ensures PushedCount(accepts) == j + 1
  {
    var n := |accepts| - 1;
    var init := accepts[..n];
    if j == n {
      AllTrueIffEveryPushAccepted(init);
    } else {
      AllTrueIffEveryPushAccepted(init);
      assert init[j] == accepts[j];
      PushedCountStopsAtFirstRefusal(init, j);
    }
  }

  /**
   * The loss: when a push other than the last is refused, the batch loop as
   * written never pushes the last message, while `DeliverBatch` does.
   */
  lemma AsWrittenDropsTheTail(queueUrl: Option<string>, msgs: seq<Msg>, accepts: seq<bool>, j: nat)
    requires |accepts| == |msgs|
    requires j + 1 < |msgs| && !accepts[j]
    requires forall i :: 0 <= i < j ==> accepts[i]
    ensures |Deliveries(queueUrl, msgs[..PushedCount(accepts)])| == j + 1 < |Deliveries(queueUrl, msgs)|
    ensures Data(Delivered(msgs[|msgs| - 1], queueUrl)) in Deliveries(queueUrl, msgs)
  {
    PushedCountStopsAtFirstRefusal(accepts, j);
    DeliveriesInOrder(queueUrl, msgs[..j + 1]);
    DeliveriesInOrder(queueUrl, msgs);
    assert Deliveries(queueUrl, msgs)[|msgs| - 1] == Data(Delivered(msgs[|msgs| - 1], queueUrl));
  }

  /** A concrete case: of a batch [a, b] whose first push is refused, only a is pushed. */
  lemma AsWrittenDropsSecondOfTwo(queueUrl: Option<string>, a: Msg, b: Msg)
    ensures Deliveries(queueUrl, [a, b][..PushedCount([false, true])]) == [Data(Delivered(a, queueUrl))]
    ensures Deliveries(queueUrl, [a, b]) == [Data(Delivered(a, queueUrl)), Data(Delivered(b, queueUrl))]
  {
    assert [false, true][..1] == [false];
    assert [a, b][..1] == [a];
    assert [a, b][..2][..1] == [a];
  }
}
