/** The order pipeline end to end: the lines the order service builds, the
    event it publishes for them, and what the inventory consumer does with
    that event. */
module Pipeline {
  import opened Common
  import opened Models
  import opened JsonCodec
  import opened Cache
  import opened Messaging
  import opened CachedProductRepository
  import opened OrderPublisher
  import opened OrderHandler
  import opened InventoryConsumer

  const Healthy := Faults(true, {}, true)

  /** With every backend up and every product present, all lines succeed:
      stock goes down by the units ordered, and the keys of every product
      in the event, and the list key, are dropped. */
  lemma HealthyApplyItems(s: Inventory, events: seq<OrderItemEvent>)
    requires forall i :: 0 <= i < |events| ==> events[i].productId in s.rows
    ensures var (s1, ok) := ApplyItems(s, Healthy, events);
      && ok
      && s1.rows.Keys == s.rows.Keys
      && (forall p :: p in s.rows ==> s1.rows[p].quantity == s.rows[p].quantity - Ordered(events, p))
      && (forall i :: 0 <= i < |events| ==> ProductKey(events[i].productId) !in s1.entries)
      && (|events| > 0 ==> AllProductsKey() !in s1.entries)
  {
    ApplyItemsSucceeds(s, Healthy, events);
    ApplyItemsRows(s, Healthy, events);
    ApplyItemsCache(s, Healthy, events);
    forall i | 0 <= i < |events| ensures ProductKey(events[i].productId) in Invalidated(s, Healthy, events) {
      assert events[i].productId in SucceededIds(s, Healthy, events);
    }
    if |events| > 0 {
      assert Decrements(s, Healthy, events[0].productId);
    }
  }

  /** In a healthy system, where every ordered product has a row, the event
      published for an order is acked; every product loses exactly the
      units ordered of it, and the cached product and the cached list are
      gone for every product of the order. */
  lemma PublishedOrderIsConsumed(s: Inventory, o: Order)
    requires forall i :: 0 <= i < |o.items| ==> o.items[i].productId in s.rows
    ensures !OrderFits(o) ==> OnDelivery(s, Healthy, Delivery(Doc(EncodeEvent(ToEvent(o))))) == (s, NackDiscard)
    ensures var (s1, decision) := OnDelivery(s, Healthy, Delivery(Doc(EncodeEvent(ToEvent(o)))));
      OrderFits(o) ==>
      && decision == Ack
      && s1.rows.Keys == s.rows.Keys
      && (forall p :: p in s.rows ==> s1.rows[p].quantity == s.rows[p].quantity - Ordered(ItemEvents(o.items), p))
      && (forall i :: 0 <= i < |o.items| ==> ProductKey(o.items[i].productId) !in s1.entries)
      && (|o.items| > 0 ==> AllProductsKey() !in s1.entries)
  {
    var events := ItemEvents(o.items);
    var d := Delivery(Doc(EncodeEvent(ToEvent(o))));
    PublishedEventDecodes(o);
    DecodeEncodeEvent(ToEvent(o));
    if !OrderFits(o) {
      DeliveryDecision(s, Healthy, d);
      return;
    }
    HealthyApplyItems(s, events);
    assert OnDelivery(s, Healthy, Delivery(Doc(EncodeEvent(ToEvent(o))))) == (ApplyItems(s, Healthy, events).0, Ack);
    forall i | 0 <= i < |o.items| ensures ProductKey(o.items[i].productId) == ProductKey(events[i].productId) {
    }
  }

  const P1 := Product(1, "P1", 1000, 10, 0)
  const P2 := Product(2, "P2", 500, 5, 0)

  /** The product service as the order service sees it in the scenario. */
  function CatalogLookup(id: int): Result<Product> {
    if id == 1 then Ok(P1) else if id == 2 then Ok(P2) else Err("product 3 not found")
  }

  /** Two units of a 10.00 product and one of a 5.00 product make a 25.00
      order. */
  lemma CheckoutTotal()
    ensures Lines([CreateOrderItemRequest(1, 2), CreateOrderItemRequest(2, 1)], CatalogLookup)
            == Ok([LineOf(P1, 2), LineOf(P2, 1)])
    ensures Total([LineOf(P1, 2), LineOf(P2, 1)]) == 2500
  {
    var reqs := [CreateOrderItemRequest(1, 2), CreateOrderItemRequest(2, 1)];
    assert reqs[..1] == [CreateOrderItemRequest(1, 2)] && reqs[..1][..0] == [];
    assert CatalogLookup(1) == Ok(P1) && CatalogLookup(2) == Ok(P2);
    assert Lines(reqs[..1][..0], CatalogLookup) == Ok([]);
    assert [] + [LineOf(P1, 2)] == [LineOf(P1, 2)];
    assert Lines(reqs[..1], CatalogLookup) == Ok([LineOf(P1, 2)]);
    assert [LineOf(P1, 2)] + [LineOf(P2, 1)] == [LineOf(P1, 2), LineOf(P2, 1)];
    var lines := [LineOf(P1, 2), LineOf(P2, 1)];
    assert lines[..1] == [LineOf(P1, 2)] && lines[..1][..0] == [];
    assert Total(lines[..1]) == 2000;
  }

  /** Consuming that order takes the stocks from 10 and 5 to 8 and 4. */
  lemma CheckoutConsumption(entries: map<string, CacheValue>)
    ensures var o := PendingOrder("Alice", [LineOf(P1, 2), LineOf(P2, 1)]).(id := 7);
      var result := OnDelivery(Inventory(map[1 := P1, 2 := P2], entries), Healthy, Delivery(Doc(EncodeEvent(ToEvent(o)))));
      && result.1 == Ack
      && 1 in result.0.rows && result.0.rows[1].quantity == 8
      && 2 in result.0.rows && result.0.rows[2].quantity == 4
  {
    var lines := [LineOf(P1, 2), LineOf(P2, 1)];
    var o := PendingOrder("Alice", lines).(id := 7);
    var s := Inventory(map[1 := P1, 2 := P2], entries);
    var events := [OrderItemEvent(1, 2), OrderItemEvent(2, 1)];
    assert ItemEvents(o.items) == events by {
      assert ItemEvents(o.items)[0] == events[0] && ItemEvents(o.items)[1] == events[1];
    }
    assert forall i :: 0 <= i < |o.items| ==> o.items[i].productId in s.rows;
    assert OrderFits(o);
    PublishedOrderIsConsumed(s, o);
    OrderedOfTwo(events[0], events[1], 1);
    OrderedOfTwo(events[0], events[1], 2);
  }
}
