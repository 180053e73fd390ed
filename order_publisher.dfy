/** The order service's side of the `order.created` queue: each committed
    order is announced as an OrderCreatedEvent carrying, line by line, the
    product and the quantity to take off its stock. */
module OrderPublisher {
  import opened Common
  import opened Models
  import opened JsonCodec
  import opened Messaging

  const OrderCreatedQueue := "order.created"

  /** The event lines of the order lines, in order: product and quantity. */
  function ItemEvents(lines: seq<OrderItem>): (r: seq<OrderItemEvent>)
    ensures |r| == |lines|
    ensures forall i :: 0 <= i < |lines| ==> r[i] == OrderItemEvent(lines[i].productId, lines[i].quantity)
    decreases |lines|
  {
    if lines == [] then []
    else ItemEvents(lines[..|lines| - 1]) + [OrderItemEvent(lines[|lines| - 1].productId, lines[|lines| - 1].quantity)]
  }

  /** The event announcing an order. */
  function ToEvent(order: Order): OrderCreatedEvent {
    OrderCreatedEvent(order.id, order.customerName, order.totalAmount, ItemEvents(order.items))
  }

  /** The order's id and its lines' product ids and quantities fit Go's
      `int`, as the Go `Order` type guarantees. */
  predicate OrderFits(order: Order) {
    && FitsInt(order.id)
    && forall i :: 0 <= i < |order.items| ==> FitsInt(order.items[i].productId) && FitsInt(order.items[i].quantity)
  }

  /** The body a consumer receives for an order decodes to that order's id,
      customer, total and lines; it decodes at all exactly when the order's
      integers fit Go's `int`. */
  lemma PublishedEventDecodes(order: Order)
    ensures DecodeEvent(Doc(EncodeEvent(ToEvent(order)))).Ok? <==> OrderFits(order)
    ensures var e := DecodeEvent(Doc(EncodeEvent(ToEvent(order))));
      e.Ok? ==>
      && e.value.orderId == order.id && e.value.customerName == order.customerName
      && e.value.totalAmount == order.totalAmount
      && |e.value.items| == |order.items|
      && forall i :: 0 <= i < |order.items| ==>
           e.value.items[i].productId == order.items[i].productId && e.value.items[i].quantity == order.items[i].quantity
  {
    DecodeEncodeEvent(ToEvent(order));
    assert EventFits(ToEvent(order)) <==> OrderFits(order) by {
      var events := ItemEvents(order.items);
      assert forall i :: 0 <= i < |events| ==> events[i].productId == order.items[i].productId && events[i].quantity == order.items[i].quantity;
    }
  }

  class OrderPublisher {
    const mq: Broker

    constructor (mq: Broker)
      ensures this.mq == mq
    {
      this.mq := mq;
    }

    /** Project the order onto its event, marshal it, publish it.
        Marshalling integer fields cannot fail, so the only failure is the
        broker's, returned unchanged. */
    method PublishOrderCreated(order: Order) returns (r: Outcome)
      modifies mq`published
      ensures r.Pass? <==> mq.up
      ensures mq.published
        == if mq.up then old(mq.published) + [Publication(OrderCreatedQueue, Doc(EncodeEvent(ToEvent(order))))]
           else old(mq.published)
    {
      r := mq.Publish(OrderCreatedQueue, Doc(EncodeEvent(ToEvent(order))));
    }
  }
}
