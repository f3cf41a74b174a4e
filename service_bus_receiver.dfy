/** The receive side of `examples/02-service-bus/src/receiver.ts`: peek at
    the queue, stop early when it is empty, otherwise receive a batch of up
    to ten messages and settle each one — complete it when processing
    succeeds, abandon it when anything fails — then peek at the
    dead-letter queue and close everything.

    The broker is abstract: the messages a peek or a receive returns are
    inputs, and whether `completeMessage` / `abandonMessage` throws for the
    message at a given position is decided by the `Broker` functions. The
    observable behaviour is the sequence of calls made on the receivers and
    the client, together with `processedCount`. */
module ServiceBusReceiver {
  import opened Wrappers
  import Text
  import ServiceBusSender

  type OrderMessage = ServiceBusSender.OrderMessage

  const PeekCount: nat := 5
  const MaxMessages: nat := 10

  /** `String(error)` of the `Error` that `simulateProcessing` throws. */
  const SimulatedFailure := "Error: Simulated processing failure"

  /** The calls made on the receivers and the client. Messages are named by
      their position in the received batch. */
  datatype Call =
    | PeekMessages(maxCount: nat)
    | ReceiveMessages(maxCount: nat)
    | CompleteMessage(index: nat)
    | AbandonMessage(index: nat, processingError: string)
    | PeekDeadLetters(maxCount: nat)
    | CloseDeadLetterReceiver
    | CloseReceiver
    | CloseClient

  /** Whether settling the message at a position throws, and with what
      text. */
  datatype Broker = Broker(completeError: nat -> Option<string>, abandonError: nat -> Option<string>)

  /** `simulateProcessing` throws exactly for an order id containing
      "FAIL" (case-sensitive, anywhere in the id). */
  predicate ProcessingFails(order: OrderMessage) {
    Text.Contains(order.orderId, "FAIL")
  }

  /** "FAIL" anywhere in the id makes processing fail. */
  lemma FailAnywhere(order: OrderMessage, before: string, after: string)
    requires order.orderId == before + "FAIL" + after
    ensures ProcessingFails(order)
  {
    assert Text.OccursAt(order.orderId, "FAIL", |before|) by {
      assert order.orderId[|before|..|before| + 4] == "FAIL";
    }
  }

  /** An id without an upper-case 'F' never fails. */
  lemma NoFNoFailure(order: OrderMessage)
    requires 'F' !in order.orderId
    ensures !ProcessingFails(order)
  {
    var id := order.orderId;
    forall i | 0 <= i <= |id|
      ensures !Text.OccursAt(id, "FAIL", i)
    {
      if i + 4 <= |id| {
        assert id[i] in id;
        assert id[i..i + 4][0] == id[i];
      }
    }
  }

  /** The state of the receive loop: `processedCount`, the settle calls
      made so far, and the error thrown out of the loop, if any. */
  datatype Progress = Progress(processed: nat, calls: seq<Call>, thrown: Option<string>)

  /** One turn of the loop (lines 77-105) for the message at position `i`.
      A failure of `simulateProcessing` or of `completeMessage` is caught
      and the message is abandoned with the error's text; a failure of
      `abandonMessage` is not caught and ends the loop. */
  function Settle(p: Progress, order: OrderMessage, i: nat, broker: Broker): Progress {
    if p.thrown.Some? then p
    else
      var attempted := if ProcessingFails(order) then [] else [CompleteMessage(i)];
      var failure := if ProcessingFails(order) then Some(SimulatedFailure) else broker.completeError(i);
      match failure
      case None => Progress(p.processed + 1, p.calls + attempted, None)
      case Some(e) => Progress(p.processed, p.calls + attempted + [AbandonMessage(i, e)], broker.abandonError(i))
  }

  /** The loop after the first `k` received messages. */
  function SettleFirst(received: seq<OrderMessage>, k: nat, broker: Broker): Progress
    requires k <= |received|
  {
    if k == 0 then Progress(0, [], None)
    else Settle(SettleFirst(received, k - 1, broker), received[k - 1], k - 1, broker)
  }

  /** Once the loop has thrown, later messages change nothing. */
  lemma {:induction false} StaysThrown(received: seq<OrderMessage>, j: nat, k: nat, broker: Broker)
    requires j <= k <= |received| && SettleFirst(received, j, broker).thrown.Some?
    ensures SettleFirst(received, k, broker) == SettleFirst(received, j, broker)
  {
    if j < k {
      StaysThrown(received, j, k - 1, broker);
    }
  }

  /** The receive loop of lines 67-106. */
  method ProcessMessages(received: seq<OrderMessage>, broker: Broker)
    returns (processedCount: nat, calls: seq<Call>, thrown: Option<string>)
    ensures SettleFirst(received, |received|, broker) == Progress(processedCount, calls, thrown)
  {
    processedCount, calls, thrown := 0, [], None;
    var i := 0;
    while i < |received|
      invariant i <= |received|
      invariant SettleFirst(received, i, broker) == Progress(processedCount, calls, None)
    {
      var order := received[i];
      var failure: Option<string>;
      if ProcessingFails(order) {
        failure := Some(SimulatedFailure);
      } else {
        calls := calls + [CompleteMessage(i)];
        failure := broker.completeError(i);
      }
      if failure.None? {
        processedCount := processedCount + 1;
      } else {
        calls := calls + [AbandonMessage(i, failure.value)];
        var abandonFailure := broker.abandonError(i);
        if abandonFailure.Some? {
          thrown := abandonFailure;
          StaysThrown(received, i + 1, |received|, broker);
          return;
        }
      }
      i := i + 1;
    }
  }

  /** `processedCount` never exceeds the number of messages handled. */
  lemma {:induction false} ProcessedAtMostReceived(received: seq<OrderMessage>, k: nat, broker: Broker)
    requires k <= |received|
    ensures SettleFirst(received, k, broker).processed <= k
  {
    if k > 0 {
      ProcessedAtMostReceived(received, k - 1, broker);
    }
  }

  /** A message is counted exactly when processing succeeds and
      `completeMessage` returns. */
  predicate Completes(order: OrderMessage, i: nat, broker: Broker) {
    !ProcessingFails(order) && broker.completeError(i).None?
  }

  /** The number of the first `k` messages that complete. */
  function CompletedAmong(received: seq<OrderMessage>, k: nat, broker: Broker): nat
    requires k <= |received|
  {
    if k == 0 then 0
    else CompletedAmong(received, k - 1, broker) + (if Completes(received[k - 1], k - 1, broker) then 1 else 0)
  }

  /** While nothing has been thrown, `processedCount` is the number of
      messages that completed. */
  lemma {:induction false} ProcessedIsCompleted(received: seq<OrderMessage>, k: nat, broker: Broker)
    requires k <= |received| && SettleFirst(received, k, broker).thrown.None?
    ensures SettleFirst(received, k, broker).processed == CompletedAmong(received, k, broker)
  {
    if k > 0 {
      ProcessedIsCompleted(received, k - 1, broker);
    }
  }

  /** The calls the loop makes for the message at position `i`, when it
      reaches it. */
  function CallsFor(order: OrderMessage, i: nat, broker: Broker): (calls: seq<Call>)
    ensures 1 <= |calls| <= 2
  {
    if ProcessingFails(order) then [AbandonMessage(i, SimulatedFailure)]
    else if broker.completeError(i).None? then [CompleteMessage(i)]
    else [CompleteMessage(i), AbandonMessage(i, broker.completeError(i).value)]
  }

  /** The settle calls of the first messages concatenated, in order. */
  function CallsForFirst(received: seq<OrderMessage>, k: nat, broker: Broker): seq<Call>
    requires k <= |received|
  {
    if k == 0 then [] else CallsForFirst(received, k - 1, broker) + CallsFor(received[k - 1], k - 1, broker)
  }

  /** Messages are settled one after another in received order: the loop's
      calls are the per-message calls of the messages handled, in order. A
      failing order is abandoned with the simulated failure and never
      completed; any other message is completed first and abandoned only
      if completing threw. */
  lemma {:induction false} SettledInOrder(received: seq<OrderMessage>, k: nat, broker: Broker)
    requires k <= |received| && SettleFirst(received, k, broker).thrown.None?
    ensures SettleFirst(received, k, broker).calls == CallsForFirst(received, k, broker)
  {
    if k > 0 {
      SettledInOrder(received, k - 1, broker);
      var order := received[k - 1];
      if !ProcessingFails(order) && broker.completeError(k - 1).Some? {
        assert [CompleteMessage(k - 1)] + [AbandonMessage(k - 1, broker.completeError(k - 1).value)]
          == CallsFor(order, k - 1, broker);
      }
    }
  }

  /** The outcome of `main`. */
  datatype Outcome =
    | QueueEmpty
    | Finished(peeked: nat, received: nat, processed: nat, deadLettered: nat)
    | Failed(error: string)

  /** `main` (lines 37-152). `peeked` and `received` are what the first
      peek and the receive return; `deadLetters` is what the dead-letter
      peek (line 115) returns, its count or the error it rejects with. */
  method Receive(peeked: seq<OrderMessage>, received: seq<OrderMessage>, deadLetters: Result<nat>, broker: Broker)
    returns (calls: seq<Call>, outcome: Outcome)
    ensures calls == ReceiveCalls(peeked, received, deadLetters, broker)
    ensures peeked == [] ==> outcome == QueueEmpty
    ensures peeked != [] ==>
      var p := SettleFirst(received, |received|, broker);
      outcome == (if p.thrown.Some? then Failed(p.thrown.value)
                  else if deadLetters.Err? then Failed(deadLetters.error)
                  else Finished(|peeked|, |received|, p.processed, deadLetters.value))
  {
    calls := [PeekMessages(PeekCount)];
    if |peeked| == 0 {
      // Closed in the branch, and again by `finally`.
      calls := calls + [CloseReceiver, CloseClient];
      calls := calls + [CloseReceiver, CloseClient];
      return calls, QueueEmpty;
    }
    calls := calls + [ReceiveMessages(MaxMessages)];
    var processedCount, settleCalls, thrown := ProcessMessages(received, broker);
    calls := calls + settleCalls;
    if thrown.Some? {
      outcome := Failed(thrown.value);
    } else {
      calls := calls + [PeekDeadLetters(PeekCount)];
      if deadLetters.Err? {
        outcome := Failed(deadLetters.error);
      } else {
        calls := calls + [CloseDeadLetterReceiver];
        outcome := Finished(|peeked|, |received|, processedCount, deadLetters.value);
      }
    }
    calls := calls + [CloseReceiver, CloseClient];
  }

  /** The calls of `main`, as a function of its inputs: after an empty
      peek the receiver and client are closed in the branch and again by
      `finally`; otherwise one receive, the settle calls, the dead-letter
      peek unless the loop threw, the dead-letter receiver's close unless
      that peek rejected, and the closes of `finally`. */
  function ReceiveCalls(peeked: seq<OrderMessage>, received: seq<OrderMessage>, deadLetters: Result<nat>,
                        broker: Broker): seq<Call> {
    if peeked == [] then [PeekMessages(PeekCount), CloseReceiver, CloseClient, CloseReceiver, CloseClient]
    else
      var p := SettleFirst(received, |received|, broker);
      [PeekMessages(PeekCount), ReceiveMessages(MaxMessages)] + p.calls
        + (if p.thrown.None? then [PeekDeadLetters(PeekCount)] else [])
        + (if p.thrown.None? && deadLetters.Ok? then [CloseDeadLetterReceiver] else [])
        + [CloseReceiver, CloseClient]
  }

  /** The loop only completes and abandons messages. */
  lemma {:induction false} LoopOnlySettles(received: seq<OrderMessage>, k: nat, broker: Broker)
    requires k <= |received|
    ensures forall c | c in SettleFirst(received, k, broker).calls :: c.CompleteMessage? || c.AbandonMessage?
  {
    if k > 0 {
      LoopOnlySettles(received, k - 1, broker);
    }
  }

  /** An empty queue means nothing is received; and whatever happens, at
      most one receive is made and it asks for ten messages. */
  lemma ReceiveAtMostTen(peeked: seq<OrderMessage>, received: seq<OrderMessage>, deadLetters: Result<nat>, broker: Broker)
    ensures var calls := ReceiveCalls(peeked, received, deadLetters, broker);
      (peeked == [] ==> forall c | c in calls :: !c.ReceiveMessages?)
      && (forall j | 0 <= j < |calls| && calls[j].ReceiveMessages? :: j == 1 && calls[j].maxCount == 10)
  {
    var calls := ReceiveCalls(peeked, received, deadLetters, broker);
    if peeked != [] {
      LoopOnlySettles(received, |received|, broker);
      var p := SettleFirst(received, |received|, broker);
      forall j | 2 <= j < 2 + |p.calls|
        ensures !calls[j].ReceiveMessages?
      {
        assert calls[j] == p.calls[j - 2];
        assert p.calls[j - 2] in p.calls;
      }
    }
  }

  /** Whatever happens after a non-empty peek, the receiver and then the
      client are the last things closed. */
  lemma ClosesLast(peeked: seq<OrderMessage>, received: seq<OrderMessage>, deadLetters: Result<nat>, broker: Broker)
    ensures var calls := ReceiveCalls(peeked, received, deadLetters, broker);
      |calls| >= 2 && calls[|calls| - 2..] == [CloseReceiver, CloseClient]
  {
  }

  /** A rejected dead-letter peek skips the dead-letter receiver's close:
      the `finally` closes come straight after the peek, and the
      dead-letter receiver is never closed. */
  lemma DeadLetterPeekRejected(peeked: seq<OrderMessage>, received: seq<OrderMessage>, error: string, broker: Broker)
    requires peeked != [] && SettleFirst(received, |received|, broker).thrown.None?
    ensures var calls := ReceiveCalls(peeked, received, Err(error), broker);
      && calls[|calls| - 3..] == [PeekDeadLetters(PeekCount), CloseReceiver, CloseClient]
      && CloseDeadLetterReceiver !in calls
  {
    LoopOnlySettles(received, |received|, broker);
  }

  /** Orders containing "FAIL" are abandoned and never counted: with a
      single such order in the batch, nothing is processed and the only
      settle call abandons it with the simulated failure. */
  lemma FailingOrderAbandoned(order: OrderMessage, broker: Broker)
    requires ProcessingFails(order)
    ensures var p := SettleFirst([order], 1, broker);
      p.processed == 0 && p.calls == [AbandonMessage(0, SimulatedFailure)]
  {
  }
}
