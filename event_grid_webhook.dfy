/** `examples/12-event-grid/src/webhook-handler.ts`: the `/api/events`
    endpoint that answers Event Grid's subscription handshake and otherwise
    hands each delivered event to the handler for its type. The handlers
    only log, so the model records which handler each event reached and
    with what data. */
module EventGridWebhook {
  import opened Wrappers
  import opened Json

  /** An Event Grid event; `data` is `JNull` when absent. */
  datatype Event = Event(eventType: string, subject: string, id: string, eventTime: string, data: Json)

  const ValidationEventType := "Microsoft.EventGrid.SubscriptionValidationEvent"

  /** The six handlers of the `switch`, and its default branch. */
  datatype Handler =
    | OrderCreated
    | OrderShipped
    | InventoryRestocked
    | InventoryDepleted
    | UserRegistered
    | PaymentCompleted
    | UnknownType(eventType: string)

  /** The event types the `switch` names, in its order. */
  const KnownTypes: seq<string> :=
    ["Order.Created", "Order.Shipped", "Inventory.Restocked", "Inventory.Depleted", "User.Registered", "Payment.Completed"]

  function HandlerFor(eventType: string): Handler {
    match eventType
    case "Order.Created" => OrderCreated
    case "Order.Shipped" => OrderShipped
    case "Inventory.Restocked" => InventoryRestocked
    case "Inventory.Depleted" => InventoryDepleted
    case "User.Registered" => UserRegistered
    case "Payment.Completed" => PaymentCompleted
    case _ => UnknownType(eventType)
  }

  /** Each known type has its own handler, and every other type reaches
      the default branch. */
  lemma HandlerForIsOneToOne(t1: string, t2: string)
    ensures HandlerFor(t1).UnknownType? <==> t1 !in KnownTypes
    ensures HandlerFor(t1) == HandlerFor(t2) ==> t1 == t2
  {
  }

  /** The `switch` has no case for the handshake's type. */
  lemma ValidationTypeIsUnknown()
    ensures HandlerFor(ValidationEventType) == UnknownType(ValidationEventType)
  {
    assert |ValidationEventType| > 20;
  }

  /** One call of a handler. */
  datatype Call = Call(handler: Handler, data: Json)

  /** The response: the handshake's JSON, the plain-text acknowledgement, or
      Express's error response when the handler throws. */
  datatype Reply = JsonReply(body: Json) | TextReply(status: int, text: string) | ServerError

  /** Whether the batch opens with the subscription handshake (line 19): an
      empty batch has no `events[0]`. */
  predicate IsHandshake(events: seq<Event>) {
    |events| > 0 && events[0].eventType == ValidationEventType
  }

  /** `res.json({ validationResponse: data.validationCode })`: reading the
      code of null data throws, and an undefined code is dropped by
      `JSON.stringify`. */
  function HandshakeReply(data: Json): Reply {
    if data.JNull? then ServerError
    else match Field(data, "validationCode")
      case Some(code) => JsonReply(JObject([("validationResponse", code)]))
      case None => JsonReply(JObject([]))
  }

  /** The call the `switch` (lines 39-60) makes for an event. */
  function CallFor(e: Event): Call {
    Call(HandlerFor(e.eventType), e.data)
  }

  /** Whether the event's handler throws: each of the six handlers reads a
      property of `data` (lines 71-104), which throws a `TypeError` when the
      data is null or absent; the default branch only logs. */
  predicate HandlerThrows(e: Event) {
    !HandlerFor(e.eventType).UnknownType? && e.data.JNull?
  }

  /** The handler for `POST /api/events` (lines 10-68). A handler that
      throws ends the loop, so later events are never dispatched, and
      Express answers with its error response. */
  method HandleEvents(events: seq<Event>) returns (calls: seq<Call>, reply: Reply)
    ensures IsHandshake(events) ==> calls == [] && reply == HandshakeReply(events[0].data)
    ensures !IsHandshake(events) ==>
      && |calls| <= |events|
      && (forall i | 0 <= i < |calls| :: calls[i] == CallFor(events[i]))
      && (forall i | 0 <= i < |calls| - 1 :: !HandlerThrows(events[i]))
      && (reply == ServerError <==> exists i | 0 <= i < |events| :: HandlerThrows(events[i]))
      && (reply == ServerError ==> |calls| > 0 && HandlerThrows(events[|calls| - 1]))
      && (reply != ServerError ==> reply == TextReply(200, "OK") && |calls| == |events|)
  {
    if |events| > 0 && events[0].eventType == ValidationEventType {
      return [], HandshakeReply(events[0].data);
    }
    calls := [];
    for i := 0 to |events|
      invariant |calls| == i
      invariant forall j | 0 <= j < i :: calls[j] == CallFor(events[j])
      invariant forall j | 0 <= j < i :: !HandlerThrows(events[j])
    {
      var event := events[i];
      var handler := HandlerFor(event.eventType);
      calls := calls + [Call(handler, event.data)];
      if !handler.UnknownType? && event.data.JNull? {
        return calls, ServerError;
      }
    }
    reply := TextReply(200, "OK");
  }

  /** An order created without data: any outcome `HandleEvents` allows
      dispatches that one event and answers with the error, so the event
      after it is never dispatched. */
  lemma NullDataStopsBatch(later: Event, calls: seq<Call>, reply: Reply)
    requires |calls| <= 2
    requires forall i | 0 <= i < |calls| - 1 :: !HandlerThrows([Event("Order.Created", "s", "1", "t", JNull), later][i])
    requires reply != ServerError ==> |calls| == 2
    requires reply == ServerError ==> |calls| > 0
    requires reply == ServerError <==> exists i | 0 <= i < 2 :: HandlerThrows([Event("Order.Created", "s", "1", "t", JNull), later][i])
    ensures reply == ServerError && |calls| == 1
  {
    var events := [Event("Order.Created", "s", "1", "t", JNull), later];
    var first := events[0];
    assert HandlerThrows(first);
    assert 0 < |calls| - 1 ==> !HandlerThrows(first);
  }

  /** A handshake that is not at position 0 is not answered: the event
      falls to the default branch like any unknown type. */
  lemma LateHandshakeIsUnknown(events: seq<Event>, k: nat, calls: seq<Call>)
    requires 0 < k < |events| && !IsHandshake(events) && events[k].eventType == ValidationEventType
    requires k < |calls| <= |events|
    requires forall i | 0 <= i < |calls| :: calls[i] == CallFor(events[i])
    ensures calls[k].handler == UnknownType(ValidationEventType)
  {
    ValidationTypeIsUnknown();
  }

  /** An event reaches a named handler exactly when its type is one of the
      six, and the handlers reached by a batch are those of its types. */
  lemma CallsMatchTypes(events: seq<Event>, calls: seq<Call>, i: nat)
    requires i < |calls| <= |events|
    requires forall j | 0 <= j < |calls| :: calls[j] == CallFor(events[j])
    ensures calls[i].handler.UnknownType? <==> events[i].eventType !in KnownTypes
    ensures calls[i].data == events[i].data
  {
    HandlerForIsOneToOne(events[i].eventType, events[i].eventType);
  }
}
