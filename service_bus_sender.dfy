/** The batch-send loop of `examples/02-service-bus/src/sender.ts`: each
    order becomes a message that is offered to a batch with `tryAddMessage`;
    on rejection the batch is sent and a fresh batch is opened for the
    rejected message; after the loop a non-empty batch is flushed.

    The loop is modelled AS WRITTEN. The fresh batch is a local of the `if`
    block, so later messages are still offered to the FIRST batch, the
    message put into the fresh batch is never sent, and the final flush
    sends the first batch again. `SendsAsWritten` is that behaviour as a
    function; `SendsIntended` is the accumulator the comments describe,
    where the fresh batch replaces the first one.

    The queue's size limit is the abstract predicate `fits(contents, m)`:
    whether `tryAddMessage(m)` accepts `m` into a batch holding `contents`. */
module ServiceBusSender {
  import opened Wrappers

  datatype OrderItem = OrderItem(productId: string, quantity: int)

  /** `totalAmount` is a JavaScript number; it is only compared with 500. */
  datatype OrderMessage = OrderMessage(
    orderId: string,
    customerId: string,
    items: seq<OrderItem>,
    totalAmount: real,
    createdAt: string)

  datatype ServiceBusMessage = ServiceBusMessage(
    body: OrderMessage,
    contentType: string,
    subject: string,
    messageId: Option<string>,
    applicationProperties: map<string, string>)

  /** The queue's batch limit: does a batch holding the first argument
      accept the second? */
  type Fits = (seq<ServiceBusMessage>, ServiceBusMessage) -> bool

  /** The message built for each order inside the loop. */
  function OrderToMessage(order: OrderMessage): (m: ServiceBusMessage)
    ensures m.body == order && m.messageId == Some(order.orderId)
    ensures m.contentType == "application/json" && m.subject == "NewOrder"
    ensures m.applicationProperties.Keys == {"priority"}
    ensures m.applicationProperties["priority"] == "high" <==> order.totalAmount > 500.0
    ensures m.applicationProperties["priority"] == "normal" <==> order.totalAmount <= 500.0
  {
    ServiceBusMessage(
      order, "application/json", "NewOrder", Some(order.orderId),
      map["priority" := if order.totalAmount > 500.0 then "high" else "normal"])
  }

  function Messages(orders: seq<OrderMessage>): (ms: seq<ServiceBusMessage>)
    ensures |ms| == |orders|
    ensures forall k | 0 <= k < |orders| :: ms[k] == OrderToMessage(orders[k])
  {
    seq(|orders|, k requires 0 <= k < |orders| => OrderToMessage(orders[k]))
  }

  /** A batch object: its contents and the limit it was created with. */
  class MessageBatch {
    var messages: seq<ServiceBusMessage>
    const fits: Fits

    constructor (fits: Fits)
      ensures messages == [] && this.fits == fits
    {
      messages := [];
      this.fits := fits;
    }

    /** `batch.count`. */
    function Count(): nat
      reads this
    {
      |messages|
    }

    /** `batch.tryAddMessage(m)`: appends exactly when the limit allows. */
    method TryAddMessage(m: ServiceBusMessage) returns (added: bool)
      modifies this
      ensures added == fits(old(messages), m)
      ensures messages == if added then old(messages) + [m] else old(messages)
    {
      added := fits(messages, m);
      if added {
        messages := messages + [m];
      }
    }
  }

  /** The queue sender. `sent` records the contents of every
      `sendMessages(batch)` call, in call order. */
  class Sender {
    var sent: seq<seq<ServiceBusMessage>>
    const fits: Fits

    constructor (fits: Fits)
      ensures sent == [] && this.fits == fits
    {
      sent := [];
      this.fits := fits;
    }

    /** `sender.createMessageBatch()`. */
    method CreateMessageBatch() returns (b: MessageBatch)
      ensures fresh(b) && b.messages == [] && b.fits == fits
    {
      b := new MessageBatch(fits);
    }

    /** `sender.sendMessages(batch)`. */
    method SendMessages(b: MessageBatch)
      modifies this
      ensures sent == old(sent) + [b.messages]
    {
      sent := sent + [b.messages];
    }
  }

  /** Where the loop stands after some messages: the batches sent so far,
      the contents of the batch that the next message is offered to, and
      whether it stopped with 'Message too large for batch'. */
  datatype LoopState = LoopState(sends: seq<seq<ServiceBusMessage>>, batch: seq<ServiceBusMessage>, tooLarge: bool)

  /** One turn of the loop as written (lines 103-126). On rejection the
      batch is sent; the fresh batch holding `m` is dropped, and the next
      turn sees the same `batch` again. Once stopped, nothing changes. */
  function StepAsWritten(fits: Fits, s: LoopState, m: ServiceBusMessage): LoopState {
    if s.tooLarge then s
    else if fits(s.batch, m) then LoopState(s.sends, s.batch + [m], false)
    else LoopState(s.sends + [s.batch], s.batch, !fits([], m))
  }

  /** The loop as written after the messages `msgs`. */
  function LoopAsWritten(fits: Fits, msgs: seq<ServiceBusMessage>): LoopState {
    if msgs == [] then LoopState([], [], false)
    else StepAsWritten(fits, LoopAsWritten(fits, msgs[..|msgs| - 1]), msgs[|msgs| - 1])
  }

  /** The final flush (lines 128-132), which the throw skips. */
  function Flushed(s: LoopState): (sends: seq<seq<ServiceBusMessage>>) {
    if s.tooLarge || s.batch == [] then s.sends else s.sends + [s.batch]
  }

  /** Every `sendMessages` call of lines 100-132, in order. */
  function SendsAsWritten(fits: Fits, msgs: seq<ServiceBusMessage>): seq<seq<ServiceBusMessage>> {
    Flushed(LoopAsWritten(fits, msgs))
  }

  /** `msgs[..i + 1]` is `msgs[..i]` and then `msgs[i]`. */
  lemma PrefixStep(msgs: seq<ServiceBusMessage>, i: nat)
    requires i < |msgs|
    ensures msgs[..i + 1][..i] == msgs[..i] && msgs[..i + 1][i] == msgs[i]
  {
  }

  /** Lines 114-125 as written, for one message: offer it to `batch`; on
      rejection send `batch`, and offer the message to a fresh batch that
      nothing keeps. `ok` is false where the source throws. */
  method OfferAsWritten(sender: Sender, batch: MessageBatch, message: ServiceBusMessage,
                        ghost prior: seq<seq<ServiceBusMessage>>, ghost loopSends: seq<seq<ServiceBusMessage>>)
    returns (ok: bool, ghost after: LoopState)
    requires batch.fits == sender.fits && sender.sent == prior + loopSends
    modifies sender, batch
    ensures after == StepAsWritten(sender.fits, LoopState(loopSends, old(batch.messages), false), message)
    ensures sender.sent == prior + after.sends && batch.messages == after.batch && ok == !after.tooLarge
  {
    var added := batch.TryAddMessage(message);
    ok := true;
    if !added {
      sender.SendMessages(batch);
      var newBatch := sender.CreateMessageBatch();
      var fitsFresh := newBatch.TryAddMessage(message);
      if !fitsFresh {
        ok := false;
      }
    }
    after := StepAsWritten(sender.fits, LoopState(loopSends, old(batch.messages), false), message);
  }

  /** Lines 128-132: the final flush, only of a non-empty batch. */
  method FlushIfNonEmpty(sender: Sender, batch: MessageBatch)
    modifies sender
    ensures sender.sent == Flushed(LoopState(old(sender.sent), batch.messages, false))
  {
    if batch.Count() > 0 {
      sender.SendMessages(batch);
    }
  }

  /** Once the loop as written has stopped, later messages change nothing. */
  lemma {:induction false} StoppedAsWritten(fits: Fits, msgs: seq<ServiceBusMessage>, i: nat)
    requires i <= |msgs| && LoopAsWritten(fits, msgs[..i]).tooLarge
    ensures LoopAsWritten(fits, msgs) == LoopAsWritten(fits, msgs[..i])
  {
    if i < |msgs| {
      var n := |msgs| - 1;
      assert msgs[..n][..i] == msgs[..i];
      StoppedAsWritten(fits, msgs[..n], i);
    } else {
      assert msgs[..i] == msgs;
    }
  }

  /** The loop of lines 100-132, over the batch and sender objects. */
  method SendOrderBatch(sender: Sender, orders: seq<OrderMessage>) returns (r: Result<()>)
    modifies sender
    ensures sender.sent == old(sender.sent) + SendsAsWritten(sender.fits, Messages(orders))
    ensures r.Err? <==> LoopAsWritten(sender.fits, Messages(orders)).tooLarge
    ensures r.Err? ==> r.error == "Message too large for batch"
  {
    ghost var msgs := Messages(orders);
    ghost var fits := sender.fits;
    ghost var sent0 := sender.sent;
    ghost var loopSends: seq<seq<ServiceBusMessage>> := [];
    var batch := sender.CreateMessageBatch();
    var i := 0;
    while i < |orders|
      invariant 0 <= i <= |orders|
      invariant fresh(batch) && batch.fits == fits == sender.fits
      invariant LoopAsWritten(fits, msgs[..i]) == LoopState(loopSends, batch.messages, false)
      invariant sender.sent == sent0 + loopSends
    {
      var message := OrderToMessage(orders[i]);
      PrefixStep(msgs, i);
      var ok, after := OfferAsWritten(sender, batch, message, sent0, loopSends);
      loopSends := after.sends;
      if !ok {
        StoppedAsWritten(fits, msgs, i + 1);
        return Err("Message too large for batch");
      }
      i := i + 1;
    }
    assert msgs[..i] == msgs;
    FlushIfNonEmpty(sender, batch);
    return Ok(());
  }

  /** When every message fits the first batch as it grows, nothing is sent
      inside the loop, the loop does not stop, and the batch holds every
      message in submission order. */
  predicate EachFitsAfterThoseBefore(fits: Fits, msgs: seq<ServiceBusMessage>) {
    forall k | 0 <= k < |msgs| :: fits(msgs[..k], msgs[k])
  }

  lemma {:induction false} AllFitNoLoopSend(fits: Fits, msgs: seq<ServiceBusMessage>)
    requires EachFitsAfterThoseBefore(fits, msgs)
    ensures LoopAsWritten(fits, msgs) == LoopState([], msgs, false)
  {
    if msgs != [] {
      var n := |msgs| - 1;
      var init := msgs[..n];
      assert EachFitsAfterThoseBefore(fits, init) by {
        forall k | 0 <= k < n
          ensures fits(init[..k], init[k])
        {
          assert init[..k] == msgs[..k];
        }
      }
      AllFitNoLoopSend(fits, init);
      assert fits(msgs[..n], msgs[n]);
      assert init + [msgs[n]] == msgs;
    }
  }

  /** Hence exactly one send happens, at the end, containing all messages
      in order; and none at all for no messages. */
  lemma AllFitOneSend(fits: Fits, msgs: seq<ServiceBusMessage>)
    requires EachFitsAfterThoseBefore(fits, msgs)
    ensures SendsAsWritten(fits, msgs) == if msgs == [] then [] else [msgs]
  {
    AllFitNoLoopSend(fits, msgs);
  }

  /** Every batch sent inside the loop is a prefix of the batch that later
      messages are offered to: it is always the first batch. */
  predicate SendsArePrefixes(s: LoopState) {
    forall k | 0 <= k < |s.sends| :: s.sends[k] <= s.batch
  }

  lemma {:induction false} LoopSendsArePrefixes(fits: Fits, msgs: seq<ServiceBusMessage>)
    ensures SendsArePrefixes(LoopAsWritten(fits, msgs))
  {
    if msgs != [] {
      var n := |msgs| - 1;
      var s := LoopAsWritten(fits, msgs[..n]);
      LoopSendsArePrefixes(fits, msgs[..n]);
      var m := msgs[n];
      if !s.tooLarge && fits(s.batch, m) {
        forall k | 0 <= k < |s.sends|
          ensures s.sends[k] <= s.batch + [m]
        {
          PrefixTransitive(s.sends[k], s.batch, s.batch + [m]);
        }
      }
    }
  }

  lemma PrefixTransitive(a: seq<ServiceBusMessage>, b: seq<ServiceBusMessage>, c: seq<ServiceBusMessage>)
    requires a <= b && b <= c
    ensures a <= c
  {
    assert c[..|a|] == b[..|a|];
  }

  /** Every batch sent, inside the loop or by the final flush, is a prefix
      of the first batch's final contents: no message placed in a fresh
      batch is ever sent, and later sends repeat what earlier ones sent. */
  lemma EverySendIsFirstBatchPrefix(fits: Fits, msgs: seq<ServiceBusMessage>)
    ensures var sends := SendsAsWritten(fits, msgs);
      forall k | 0 <= k < |sends| :: sends[k] <= LoopAsWritten(fits, msgs).batch
  {
    LoopSendsArePrefixes(fits, msgs);
  }

  /** A message that the first batch rejects and that no other message
      equals is never sent: it is not in the first batch, the only batch
      that is ever sent. */
  lemma {:induction false} RejectedMessageNeverInFirstBatch(fits: Fits, msgs: seq<ServiceBusMessage>, j: nat)
    requires j < |msgs|
    requires !fits(LoopAsWritten(fits, msgs[..j]).batch, msgs[j])
    requires forall k | 0 <= k < |msgs| && k != j :: msgs[k] != msgs[j]
    ensures msgs[j] !in LoopAsWritten(fits, msgs).batch
  {
    var n := |msgs| - 1;
    var s := LoopAsWritten(fits, msgs[..n]);
    BatchDrawnFromPrefix(fits, msgs[..n]);
    if j == n {
      assert msgs[..n] == msgs[..j];
      assert forall x | x in s.batch :: x != msgs[j] by {
        forall x | x in s.batch ensures x != msgs[j] {
          var k :| 0 <= k < n && x == msgs[..n][k];
        }
      }
    } else {
      assert msgs[..n][..j] == msgs[..j];
      RejectedMessageNeverInFirstBatch(fits, msgs[..n], j);
      assert msgs[n] != msgs[j];
    }
  }

  /** Everything in the first batch is one of the messages offered. */
  lemma {:induction false} BatchDrawnFromPrefix(fits: Fits, msgs: seq<ServiceBusMessage>)
    ensures forall x | x in LoopAsWritten(fits, msgs).batch :: exists k | 0 <= k < |msgs| :: x == msgs[k]
  {
    if msgs != [] {
      var n := |msgs| - 1;
      BatchDrawnFromPrefix(fits, msgs[..n]);
      forall x | x in LoopAsWritten(fits, msgs).batch
        ensures exists k | 0 <= k < |msgs| :: x == msgs[k]
      {
        if x == msgs[n] {
        } else {
          assert x in LoopAsWritten(fits, msgs[..n]).batch;
          var k :| 0 <= k < n && x == msgs[..n][k];
          assert x == msgs[k];
        }
      }
    }
  }

  /** A run that does not stop never sends an empty batch: the first batch
      can be sent empty only for a message that fits no batch, which
      stops the loop. */
  predicate NoneEmpty(sends: seq<seq<ServiceBusMessage>>) {
    forall k | 0 <= k < |sends| :: sends[k] != []
  }

  lemma {:induction false} LoopSendsNoEmptyBatch(fits: Fits, msgs: seq<ServiceBusMessage>)
    requires !LoopAsWritten(fits, msgs).tooLarge
    ensures NoneEmpty(LoopAsWritten(fits, msgs).sends)
  {
    if msgs != [] {
      var n := |msgs| - 1;
      var s := LoopAsWritten(fits, msgs[..n]);
      LoopSendsNoEmptyBatch(fits, msgs[..n]);
      if !fits(s.batch, msgs[n]) {
        assert s.batch != [];
      }
    }
  }

  lemma CompletedRunSendsNoEmptyBatch(fits: Fits, msgs: seq<ServiceBusMessage>)
    requires !LoopAsWritten(fits, msgs).tooLarge
    ensures NoneEmpty(SendsAsWritten(fits, msgs))
  {
    LoopSendsNoEmptyBatch(fits, msgs);
  }

  /** If every message fits an empty batch, the loop never stops. */
  lemma {:induction false} NoAbortWhenEachFitsAlone(fits: Fits, msgs: seq<ServiceBusMessage>)
    requires forall k | 0 <= k < |msgs| :: fits([], msgs[k])
    ensures !LoopAsWritten(fits, msgs).tooLarge
  {
    if msgs != [] {
      var n := |msgs| - 1;
      NoAbortWhenEachFitsAlone(fits, msgs[..n]);
    }
  }

  /** A first message that fits no batch makes the loop send the still
      empty first batch and then throw. */
  lemma OversizedFirstMessage(fits: Fits, msgs: seq<ServiceBusMessage>)
    requires msgs != [] && !fits([], msgs[0])
    ensures LoopAsWritten(fits, msgs[..1]) == LoopState([[]], [], true)
    ensures SendsAsWritten(fits, msgs[..1]) == [[]]
  {
    assert msgs[..1][..0] == [];
  }

  // ---------------------------------------------------------------------
  // The accumulator the comments at lines 114-128 describe: the fresh batch
  // holding the rejected message becomes the batch that later messages are
  // offered to and that the final flush sends.

  function StepIntended(fits: Fits, s: LoopState, m: ServiceBusMessage): LoopState {
    if s.tooLarge then s
    else if fits(s.batch, m) then LoopState(s.sends, s.batch + [m], false)
    else if fits([], m) then LoopState(s.sends + [s.batch], [m], false)
    else LoopState(s.sends + [s.batch], [], true)
  }

  function LoopIntended(fits: Fits, msgs: seq<ServiceBusMessage>): LoopState {
    if msgs == [] then LoopState([], [], false)
    else StepIntended(fits, LoopIntended(fits, msgs[..|msgs| - 1]), msgs[|msgs| - 1])
  }

  function SendsIntended(fits: Fits, msgs: seq<ServiceBusMessage>): seq<seq<ServiceBusMessage>> {
    Flushed(LoopIntended(fits, msgs))
  }

  /** The concatenation of a sequence of batches. */
  function Flatten(batches: seq<seq<ServiceBusMessage>>): seq<ServiceBusMessage> {
    if batches == [] then [] else Flatten(batches[..|batches| - 1]) + batches[|batches| - 1]
  }

  /** While the intended loop runs, the batches sent and the open batch
      together hold exactly the messages offered, in order. */
  lemma {:induction false} IntendedKeepsEveryMessage(fits: Fits, msgs: seq<ServiceBusMessage>)
    requires !LoopIntended(fits, msgs).tooLarge
    ensures var s := LoopIntended(fits, msgs); Flatten(s.sends) + s.batch == msgs
  {
    if msgs != [] {
      var n := |msgs| - 1;
      var s := LoopIntended(fits, msgs[..n]);
      IntendedKeepsEveryMessage(fits, msgs[..n]);
      var m := msgs[n];
      assert msgs == msgs[..n] + [m];
      if !fits(s.batch, m) {
        var t := s.sends + [s.batch];
        assert t[..|t| - 1] == s.sends;
      }
    }
  }

  /** The intended loop, while it runs, has sent no empty batch: a batch
      is sent only when it rejects a message that fits an empty batch. */
  lemma {:induction false} IntendedSendsNoEmptyBatch(fits: Fits, msgs: seq<ServiceBusMessage>)
    requires !LoopIntended(fits, msgs).tooLarge
    ensures NoneEmpty(LoopIntended(fits, msgs).sends)
  {
    if msgs != [] {
      var n := |msgs| - 1;
      var s := LoopIntended(fits, msgs[..n]);
      IntendedSendsNoEmptyBatch(fits, msgs[..n]);
      if !fits(s.batch, msgs[n]) {
        assert s.batch != [];
      }
    }
  }

  /** The intended loop loses, duplicates and reorders nothing: when it
      does not throw, the batches sent, in order, concatenate to exactly
      the messages submitted, and none of them is empty. */
  lemma IntendedSendsEverythingInOrder(fits: Fits, msgs: seq<ServiceBusMessage>)
    requires !LoopIntended(fits, msgs).tooLarge
    ensures Flatten(SendsIntended(fits, msgs)) == msgs
    ensures NoneEmpty(SendsIntended(fits, msgs))
  {
    IntendedKeepsEveryMessage(fits, msgs);
    IntendedSendsNoEmptyBatch(fits, msgs);
    var s := LoopIntended(fits, msgs);
    if s.batch != [] {
      var t := s.sends + [s.batch];
      assert t[..|t| - 1] == s.sends;
    }
  }

  /** One message under the intended loop: on rejection the fresh batch
      holding the message is returned and replaces `batch`. */
  method OfferIntended(sender: Sender, batch: MessageBatch, message: ServiceBusMessage,
                       ghost prior: seq<seq<ServiceBusMessage>>, ghost loopSends: seq<seq<ServiceBusMessage>>)
    returns (ok: bool, current: MessageBatch, ghost after: LoopState)
    requires batch.fits == sender.fits && sender.sent == prior + loopSends
    modifies sender, batch
    ensures current.fits == sender.fits && (current == batch || fresh(current))
    ensures after == StepIntended(sender.fits, LoopState(loopSends, old(batch.messages), false), message)
    ensures sender.sent == prior + after.sends && current.messages == after.batch && ok == !after.tooLarge
  {
    var added := batch.TryAddMessage(message);
    ok, current := true, batch;
    if !added {
      sender.SendMessages(batch);
      current := sender.CreateMessageBatch();
      var fitsFresh := current.TryAddMessage(message);
      if !fitsFresh {
        ok := false;
      }
    }
    after := StepIntended(sender.fits, LoopState(loopSends, old(batch.messages), false), message);
  }

  lemma {:induction false} StoppedIntended(fits: Fits, msgs: seq<ServiceBusMessage>, i: nat)
    requires i <= |msgs| && LoopIntended(fits, msgs[..i]).tooLarge
    ensures LoopIntended(fits, msgs) == LoopIntended(fits, msgs[..i])
  {
    if i < |msgs| {
      var n := |msgs| - 1;
      assert msgs[..n][..i] == msgs[..i];
      StoppedIntended(fits, msgs[..n], i);
    } else {
      assert msgs[..i] == msgs;
    }
  }

  /** The intended loop, over the batch and sender objects. */
  method SendOrderBatchIntended(sender: Sender, orders: seq<OrderMessage>) returns (r: Result<()>)
    modifies sender
    ensures sender.sent == old(sender.sent) + SendsIntended(sender.fits, Messages(orders))
    ensures r.Err? <==> LoopIntended(sender.fits, Messages(orders)).tooLarge
    ensures r.Err? ==> r.error == "Message too large for batch"
  {
    ghost var msgs := Messages(orders);
    ghost var fits := sender.fits;
    ghost var sent0 := sender.sent;
    ghost var loopSends: seq<seq<ServiceBusMessage>> := [];
    var batch := sender.CreateMessageBatch();
    var i := 0;
    while i < |orders|
      invariant 0 <= i <= |orders|
      invariant fresh(batch) && batch.fits == fits == sender.fits
      invariant LoopIntended(fits, msgs[..i]) == LoopState(loopSends, batch.messages, false)
      invariant sender.sent == sent0 + loopSends
    {
      var message := OrderToMessage(orders[i]);
      PrefixStep(msgs, i);
      var ok; ghost var after;
      ok, batch, after := OfferIntended(sender, batch, message, sent0, loopSends);
      loopSends := after.sends;
      if !ok {
        StoppedIntended(fits, msgs, i + 1);
        return Err("Message too large for batch");
      }
      i := i + 1;
    }
    assert msgs[..i] == msgs;
    FlushIfNonEmpty(sender, batch);
    return Ok(());
  }

  /** A batch limit of two messages. */
  function AtMostTwo(contents: seq<ServiceBusMessage>, m: ServiceBusMessage): bool {
    |contents| < 2
  }

  /** Three messages against a two-message limit. As written, the first
      batch [a, b] is sent when c is rejected, c goes into a fresh batch
      that is dropped, and the final flush sends [a, b] again; the intended
      loop sends [a, b] and then [c]. */
  lemma ThreeMessagesTwoPerBatch(a: ServiceBusMessage, b: ServiceBusMessage, c: ServiceBusMessage)
    ensures SendsAsWritten(AtMostTwo, [a, b, c]) == [[a, b], [a, b]]
    ensures SendsIntended(AtMostTwo, [a, b, c]) == [[a, b], [c]]
  {
    var msgs := [a, b, c];
    assert msgs[..2] == [a, b] && [a, b][..1] == [a] && [a][..0] == [];
    assert LoopAsWritten(AtMostTwo, [a]) == LoopState([], [a], false);
    assert LoopAsWritten(AtMostTwo, [a, b]) == LoopState([], [a, b], false);
    assert LoopIntended(AtMostTwo, [a]) == LoopState([], [a], false);
    assert LoopIntended(AtMostTwo, [a, b]) == LoopState([], [a, b], false);
  }
}
