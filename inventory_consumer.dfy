/** The inventory consumer of the `order.created` queue. Each delivery is
    decoded; every line then gets a stock decrement, attempted even after an
    earlier line failed, and only a line whose decrement succeeded drops its
    cache keys. The delivery is acked when every line succeeded, requeued
    when one failed, and discarded when it did not decode. Nothing records
    which orders were already applied, so a redelivered event is applied
    again. */
module InventoryConsumer {
  import opened Common
  import opened Models
  import opened JsonCodec
  import opened Cache
  import opened Messaging
  import opened ProductRepository
  import opened CachedProductRepository

  /** What the consumer changes: the product rows and the cache entries. */
  datatype Inventory = Inventory(rows: map<int, Product>, entries: map<string, CacheValue>)

  /** The state of the backends while a delivery is handled: whether the
      store answers, which rows it refuses to update, whether the cache
      answers. It is fixed for the whole delivery, so a call's failure
      depends on the product alone, not on which call it is. */
  datatype Faults = Faults(storeUp: bool, rejected: set<int>, cacheUp: bool)

  /** Whether the decrement of this product's row succeeds. */
  predicate Decrements(s: Inventory, f: Faults, productId: int) {
    f.storeUp && productId !in f.rejected && productId in s.rows
  }

  /** One line: decrement the stock; on success drop `product:{id}` and the
      list key. The flag says whether the decrement succeeded. */
  function ApplyItem(s: Inventory, f: Faults, item: OrderItemEvent): (Inventory, bool) {
    match QuantityUpdate(s.rows, f.storeUp, f.rejected, item.productId, -item.quantity)
    case None => (s, false)
    case Some(rows) =>
      var e1 := AfterDelete(s.entries, f.cacheUp, ProductKey(item.productId));
      (Inventory(rows, AfterDelete(e1, f.cacheUp, AllProductsKey())), true)
  }

  /** The lines in event order; the flag is the conjunction of theirs. */
  function ApplyItems(s: Inventory, f: Faults, items: seq<OrderItemEvent>): (Inventory, bool)
    decreases |items|
  {
    if items == [] then (s, true)
    else
      var (s1, ok1) := ApplyItems(s, f, items[..|items| - 1]);
      var (s2, ok2) := ApplyItem(s1, f, items[|items| - 1]);
      (s2, ok1 && ok2)
  }

  /** One delivery and the decision taken on it. */
  function OnDelivery(s: Inventory, f: Faults, d: Delivery): (Inventory, Acknowledgement) {
    match DecodeEvent(d.body)
    case Err(_) => (s, NackDiscard)
    case Ok(e) =>
      var (s1, success) := ApplyItems(s, f, e.items);
      (s1, if success then Ack else NackRequeue)
  }

  /** The deliveries one at a time in channel order, one decision each. */
  function OnDeliveries(s: Inventory, f: Faults, ds: seq<Delivery>): (r: (Inventory, seq<Acknowledgement>))
    ensures |r.1| == |ds|
    decreases |ds|
  {
    if ds == [] then (s, [])
    else
      var (s1, acks) := OnDeliveries(s, f, ds[..|ds| - 1]);
      var (s2, ack) := OnDelivery(s1, f, ds[|ds| - 1]);
      (s2, acks + [ack])
  }

  /** Units of `productId` the lines ask for, over all its lines. */
  function Ordered(items: seq<OrderItemEvent>, productId: int): int
    decreases |items|
  {
    if items == [] then 0
    else Ordered(items[..|items| - 1], productId)
         + (if items[|items| - 1].productId == productId then items[|items| - 1].quantity else 0)
  }

  /** The products of the lines whose decrement succeeded. */
  function SucceededIds(s: Inventory, f: Faults, items: seq<OrderItemEvent>): set<int> {
    set i | 0 <= i < |items| && Decrements(s, f, items[i].productId) :: items[i].productId
  }

  /** `product:{id}` of each line whose decrement succeeded. */
  function DroppedProductKeys(s: Inventory, f: Faults, items: seq<OrderItemEvent>): set<string> {
    set id | id in SucceededIds(s, f, items) :: ProductKey(id)
  }

  /** Whether at least one line's decrement succeeded. */
  predicate AnySucceeds(s: Inventory, f: Faults, items: seq<OrderItemEvent>) {
    exists i :: 0 <= i < |items| && Decrements(s, f, items[i].productId)
  }

  /** The cache keys the lines drop: `product:{id}` of each line whose
      decrement succeeded, and the list key when at least one did. */
  function Invalidated(s: Inventory, f: Faults, items: seq<OrderItemEvent>): set<string> {
    DroppedProductKeys(s, f, items) + (if AnySucceeds(s, f, items) then {AllProductsKey()} else {})
  }

  /** What a single line does to the rows, the cache and the flag. */
  lemma ApplyItemEffect(s: Inventory, f: Faults, item: OrderItemEvent)
    ensures var (s1, ok) := ApplyItem(s, f, item);
      && ok == Decrements(s, f, item.productId)
      && s1.rows.Keys == s.rows.Keys
      && (forall p :: p in s.rows ==>
            s1.rows[p] == s.rows[p].(quantity := s.rows[p].quantity - (if ok && p == item.productId then item.quantity else 0)))
      && s1.entries == if ok && f.cacheUp then s.entries - {ProductKey(item.productId), AllProductsKey()} else s.entries
  {
    if Decrements(s, f, item.productId) && f.cacheUp {
      var e1 := AfterDelete(s.entries, f.cacheUp, ProductKey(item.productId));
      assert AfterDelete(e1, f.cacheUp, AllProductsKey()) == s.entries - {ProductKey(item.productId), AllProductsKey()};
    }
  }

  /** A line's flag is whether its decrement succeeds; no row appears or
      disappears. */
  lemma ApplyItemFlag(s: Inventory, f: Faults, item: OrderItemEvent)
    ensures ApplyItem(s, f, item).1 == Decrements(s, f, item.productId)
    ensures ApplyItem(s, f, item).0.rows.Keys == s.rows.Keys
  {
  }

  /** What a single line does to the cache. */
  lemma ApplyItemEntries(s: Inventory, f: Faults, item: OrderItemEvent)
    ensures ApplyItem(s, f, item).0.entries
      == if Decrements(s, f, item.productId) && f.cacheUp then s.entries - {ProductKey(item.productId), AllProductsKey()} else s.entries
  {
    if Decrements(s, f, item.productId) && f.cacheUp {
      var e1 := AfterDelete(s.entries, f.cacheUp, ProductKey(item.productId));
      assert AfterDelete(e1, f.cacheUp, AllProductsKey()) == s.entries - {ProductKey(item.productId), AllProductsKey()};
    }
  }

  /** Processing lines never adds or removes a product row. */
  lemma {:induction false} ApplyItemsKeys(s: Inventory, f: Faults, items: seq<OrderItemEvent>)
    ensures ApplyItems(s, f, items).0.rows.Keys == s.rows.Keys
    decreases |items|
  {
    if items != [] {
      ApplyItemsKeys(s, f, items[..|items| - 1]);
      ApplyItemFlag(ApplyItems(s, f, items[..|items| - 1]).0, f, items[|items| - 1]);
    }
  }

  /** Every product's stock goes down by all the units ordered of it when its
      decrement succeeds and stays put when it fails, whatever happened to
      the other lines; no row appears or disappears and no other field
      changes. */
  lemma {:induction false} ApplyItemsRows(s: Inventory, f: Faults, items: seq<OrderItemEvent>)
    ensures ApplyItems(s, f, items).0.rows.Keys == s.rows.Keys
    ensures forall p :: p in s.rows ==>
      ApplyItems(s, f, items).0.rows[p]
        == s.rows[p].(quantity := s.rows[p].quantity - (if Decrements(s, f, p) then Ordered(items, p) else 0))
    decreases |items|
  {
    if items != [] {
      var prefix, last := items[..|items| - 1], items[|items| - 1];
      ApplyItemsRows(s, f, prefix);
      ApplyItemEffect(ApplyItems(s, f, prefix).0, f, last);
    }
  }

  /** Every line decrements exactly when every line but the last does and
      the last does too. */
  lemma AllDecrementStep(s: Inventory, f: Faults, items: seq<OrderItemEvent>)
    requires items != []
    ensures var prefix, last := items[..|items| - 1], items[|items| - 1];
      (forall i :: 0 <= i < |items| ==> Decrements(s, f, items[i].productId))
        == ((forall i :: 0 <= i < |prefix| ==> Decrements(s, f, prefix[i].productId)) && Decrements(s, f, last.productId))
  {
    var prefix := items[..|items| - 1];
    if forall i :: 0 <= i < |prefix| ==> Decrements(s, f, prefix[i].productId) {
      forall i | 0 <= i < |prefix| ensures Decrements(s, f, items[i].productId) {
        assert items[i] == prefix[i];
      }
    }
  }

  /** The flag is true exactly when every line's decrement succeeds; an
      empty event succeeds. */
  lemma {:induction false} ApplyItemsSucceeds(s: Inventory, f: Faults, items: seq<OrderItemEvent>)
    ensures ApplyItems(s, f, items).1 <==> forall i :: 0 <= i < |items| ==> Decrements(s, f, items[i].productId)
    decreases |items|
  {
    if items != [] {
      var prefix, last := items[..|items| - 1], items[|items| - 1];
      ApplyItemsSucceeds(s, f, prefix);
      ApplyItemsKeys(s, f, prefix);
      var (s1, ok1) := ApplyItems(s, f, prefix);
      ApplyItemFlag(s1, f, last);
      assert ApplyItems(s, f, items).1 == (ok1 && Decrements(s, f, last.productId));
      AllDecrementStep(s, f, items);
    }
  }

  lemma SucceededIdsStep(s: Inventory, f: Faults, items: seq<OrderItemEvent>)
    requires items != []
    ensures var prefix, last := items[..|items| - 1], items[|items| - 1];
      SucceededIds(s, f, items)
        == SucceededIds(s, f, prefix) + (if Decrements(s, f, last.productId) then {last.productId} else {})
  {
    var prefix := items[..|items| - 1];
    assert forall i :: 0 <= i < |prefix| ==> prefix[i] == items[i];
    forall id | id in SucceededIds(s, f, items)
      ensures id in SucceededIds(s, f, prefix) || id == items[|items| - 1].productId
    {
      var i :| 0 <= i < |items| && Decrements(s, f, items[i].productId) && id == items[i].productId;
      if i < |prefix| {
        assert id == prefix[i].productId;
      }
    }
  }

  lemma KeysOfUnion(a: set<int>, b: set<int>)
    ensures (set id | id in a + b :: ProductKey(id)) == (set id | id in a :: ProductKey(id)) + (set id | id in b :: ProductKey(id))
  {
  }

  lemma DroppedProductKeysStep(s: Inventory, f: Faults, items: seq<OrderItemEvent>)
    requires items != []
    ensures var prefix, last := items[..|items| - 1], items[|items| - 1];
      DroppedProductKeys(s, f, items)
        == DroppedProductKeys(s, f, prefix) + (if Decrements(s, f, last.productId) then {ProductKey(last.productId)} else {})
  {
    var prefix, last := items[..|items| - 1], items[|items| - 1];
    SucceededIdsStep(s, f, items);
    var extra: set<int> := if Decrements(s, f, last.productId) then {last.productId} else {};
    KeysOfUnion(SucceededIds(s, f, prefix), extra);
    assert (set id | id in extra :: ProductKey(id)) == if Decrements(s, f, last.productId) then {ProductKey(last.productId)} else {};
  }

  lemma AnySucceedsStep(s: Inventory, f: Faults, items: seq<OrderItemEvent>)
    requires items != []
    ensures var prefix, last := items[..|items| - 1], items[|items| - 1];
      AnySucceeds(s, f, items) == (AnySucceeds(s, f, prefix) || Decrements(s, f, last.productId))
  {
    var prefix := items[..|items| - 1];
    if AnySucceeds(s, f, items) {
      var i :| 0 <= i < |items| && Decrements(s, f, items[i].productId);
      if i < |prefix| {
        assert Decrements(s, f, prefix[i].productId);
      }
    }
    if AnySucceeds(s, f, prefix) {
      var i :| 0 <= i < |prefix| && Decrements(s, f, prefix[i].productId);
      assert Decrements(s, f, items[i].productId);
    }
  }

  /** How the dropped keys grow by one line. */
  lemma InvalidatedStep(s: Inventory, f: Faults, items: seq<OrderItemEvent>)
    requires items != []
    ensures var prefix, last := items[..|items| - 1], items[|items| - 1];
      Invalidated(s, f, items)
        == Invalidated(s, f, prefix)
           + (if Decrements(s, f, last.productId) then {ProductKey(last.productId), AllProductsKey()} else {})
  {
    DroppedProductKeysStep(s, f, items);
    AnySucceedsStep(s, f, items);
  }

  /** Removing two key sets one after the other removes their union. */
  lemma RemoveTwice(m: map<string, CacheValue>, a: set<string>, b: set<string>)
    ensures (m - a) - b == m - (a + b)
  {
  }

  /** While the cache answers, the lines drop exactly the Invalidated keys;
      while it does not, the cache is untouched. */
  lemma {:induction false} ApplyItemsCache(s: Inventory, f: Faults, items: seq<OrderItemEvent>)
    ensures ApplyItems(s, f, items).0.entries == if f.cacheUp then s.entries - Invalidated(s, f, items) else s.entries
    decreases |items|
  {
    if items == [] {
      assert Invalidated(s, f, items) == {};
    } else {
      var prefix, last := items[..|items| - 1], items[|items| - 1];
      ApplyItemsCache(s, f, prefix);
      ApplyItemsKeys(s, f, prefix);
      var (s1, ok1) := ApplyItems(s, f, prefix);
      ApplyItemEntries(s1, f, last);
      assert ApplyItems(s, f, items).0.entries == ApplyItem(s1, f, last).0.entries;
      InvalidatedStep(s, f, items);
      if f.cacheUp && Decrements(s, f, last.productId) {
        RemoveTwice(s.entries, Invalidated(s, f, prefix), {ProductKey(last.productId), AllProductsKey()});
      }
    }
  }

  /** A line whose decrement fails does not drop its product's key: no line
      of the event drops it, since in this model a failure is decided by the
      product and the delivery's faults, so lines of the same product fail
      alike. */
  lemma FailedItemKeepsItsKey(s: Inventory, f: Faults, items: seq<OrderItemEvent>, k: nat)
    requires k < |items| && !Decrements(s, f, items[k].productId)
    ensures var entries := ApplyItems(s, f, items).0.entries;
      var key := ProductKey(items[k].productId);
      (key in entries <==> key in s.entries) && (key in entries ==> entries[key] == s.entries[key])
  {
    ApplyItemsCache(s, f, items);
    ProductKeyIsNotListKey(items[k].productId);
    var key := ProductKey(items[k].productId);
    forall i | 0 <= i < |items| && Decrements(s, f, items[i].productId)
      ensures ProductKey(items[i].productId) != key
    {
      assert items[i].productId != items[k].productId;
    }
  }

  /** A body that does not decode is discarded and changes nothing. A decoded
      event is acked when every decrement succeeds and requeued otherwise. */
  lemma DeliveryDecision(s: Inventory, f: Faults, d: Delivery)
    ensures DecodeEvent(d.body).Err? ==> OnDelivery(s, f, d) == (s, NackDiscard)
    ensures DecodeEvent(d.body).Ok? ==>
      var items := DecodeEvent(d.body).value.items;
      OnDelivery(s, f, d).1
        == if forall i :: 0 <= i < |items| ==> Decrements(s, f, items[i].productId) then Ack else NackRequeue
  {
    if DecodeEvent(d.body).Ok? {
      ApplyItemsSucceeds(s, f, DecodeEvent(d.body).value.items);
    }
  }

  /** Handling `ds1 + ds2` is handling `ds1`, then `ds2` from where it left
      off, with the decisions in the same order. */
  lemma {:induction false} OnDeliveriesAppend(s: Inventory, f: Faults, ds1: seq<Delivery>, ds2: seq<Delivery>)
    ensures var (s1, acks1) := OnDeliveries(s, f, ds1);
      var (s2, acks2) := OnDeliveries(s1, f, ds2);
      OnDeliveries(s, f, ds1 + ds2) == (s2, acks1 + acks2)
    decreases |ds2|
  {
    if ds2 != [] {
      var prefix := ds2[..|ds2| - 1];
      assert (ds1 + ds2)[..|ds1 + ds2| - 1] == ds1 + prefix;
      assert (ds1 + ds2)[|ds1 + ds2| - 1] == ds2[|ds2| - 1];
      OnDeliveriesAppend(s, f, ds1, prefix);
      var (s1, acks1) := OnDeliveries(s, f, ds1);
      var (sp, acksp) := OnDeliveries(s1, f, prefix);
      var (s2, ack) := OnDelivery(sp, f, ds2[|ds2| - 1]);
      assert OnDeliveries(s1, f, ds2) == (s2, acksp + [ack]);
      assert OnDeliveries(s, f, ds1 + ds2) == (s2, (acks1 + acksp) + [ack]);
      assert (acks1 + acksp) + [ack] == acks1 + (acksp + [ack]);
    } else {
      assert ds1 + ds2 == ds1;
      assert OnDeliveries(s, f, ds1).1 + [] == OnDeliveries(s, f, ds1).1;
    }
  }

  /** The k-th decision is the one taken on the k-th delivery, in the state
      the deliveries before it left. */
  lemma {:induction false} DecisionOfEachDelivery(s: Inventory, f: Faults, ds: seq<Delivery>, k: nat)
    requires k < |ds|
    ensures OnDeliveries(s, f, ds).1[k] == OnDelivery(OnDeliveries(s, f, ds[..k]).0, f, ds[k]).1
    decreases |ds|
  {
    var prefix := ds[..|ds| - 1];
    if k < |ds| - 1 {
      DecisionOfEachDelivery(s, f, prefix, k);
      assert prefix[..k] == ds[..k];
    } else {
      assert prefix == ds[..k];
    }
  }

  /** Redelivering an event applies it again: a product whose decrement
      succeeded both times loses the ordered units twice. */
  lemma RedeliveryAppliesAgain(s: Inventory, f1: Faults, f2: Faults, d: Delivery, p: int)
    requires DecodeEvent(d.body).Ok? && p in s.rows
    ensures var items := DecodeEvent(d.body).value.items;
      var s2 := OnDelivery(OnDelivery(s, f1, d).0, f2, d).0;
      p in s2.rows
      && s2.rows[p].quantity == s.rows[p].quantity
           - (if Decrements(s, f1, p) then Ordered(items, p) else 0)
           - (if Decrements(s, f2, p) then Ordered(items, p) else 0)
  {
    var items := DecodeEvent(d.body).value.items;
    ApplyItemsRows(s, f1, items);
    var s1 := OnDelivery(s, f1, d).0;
    ApplyItemsRows(s1, f2, items);
  }

  lemma OrderedOfTwo(a: OrderItemEvent, b: OrderItemEvent, p: int)
    ensures Ordered([a, b], p) == (if a.productId == p then a.quantity else 0) + (if b.productId == p then b.quantity else 0)
  {
    assert [a, b][..1] == [a] && [a][..0] == [];
    assert Ordered([a], p) == (if a.productId == p then a.quantity else 0);
  }

  /** A two-line event whose second line fails on the first delivery: it is
      requeued, and once the redelivery succeeds the first product has lost
      its units twice and the second product once. */
  lemma PartialFailureThenRedelivery(s: Inventory, d: Delivery, p1: int, q1: int, p2: int, q2: int)
    requires DecodeEvent(d.body).Ok?
    requires DecodeEvent(d.body).value.items == [OrderItemEvent(p1, q1), OrderItemEvent(p2, q2)]
    requires p1 != p2 && p1 in s.rows && p2 in s.rows
    ensures var first := OnDelivery(s, Faults(true, {p2}, true), d);
      var second := OnDelivery(first.0, Faults(true, {}, true), d);
      && first.1 == NackRequeue && second.1 == Ack
      && p1 in second.0.rows && p2 in second.0.rows
      && second.0.rows[p1].quantity == s.rows[p1].quantity - 2 * q1
      && second.0.rows[p2].quantity == s.rows[p2].quantity - q2
  {
    var items := DecodeEvent(d.body).value.items;
    var f1, f2 := Faults(true, {p2}, true), Faults(true, {}, true);
    var s1 := ApplyItems(s, f1, items).0;
    ApplyItemsSucceeds(s, f1, items);
    assert !Decrements(s, f1, items[1].productId);
    assert OnDelivery(s, f1, d) == (s1, NackRequeue);
    ApplyItemsKeys(s, f1, items);
    ApplyItemsSucceeds(s1, f2, items);
    forall i | 0 <= i < |items| ensures Decrements(s1, f2, items[i].productId) {
      assert i == 0 || i == 1;
    }
    assert OnDelivery(s1, f2, d).1 == Ack;
    OrderedOfTwo(items[0], items[1], p1);
    OrderedOfTwo(items[0], items[1], p2);
    RedeliveryAppliesAgain(s, f1, f2, d, p1);
    RedeliveryAppliesAgain(s, f1, f2, d, p2);
  }

  class InventoryConsumer {
    const repo: ProductStore
    const cache: RedisCache

    constructor (repo: ProductStore, cache: RedisCache)
      ensures this.repo == repo && this.cache == cache
    {
      this.repo := repo;
      this.cache := cache;
    }

    function State(): Inventory
      reads this, repo, cache
    {
      Inventory(repo.rows, cache.entries)
    }

    function CurrentFaults(): Faults
      reads this, repo, cache
    {
      Faults(repo.available, repo.rejected, cache.up)
    }

    /** One line of an event: decrement, and on success drop the keys; a
        failed cache delete is ignored. */
    method ProcessItem(item: OrderItemEvent) returns (ok: bool)
      requires repo.Valid()
      modifies repo`rows, cache`entries
      ensures repo.Valid()
      ensures (State(), ok) == ApplyItem(old(State()), CurrentFaults(), item)
    {
      var res := repo.UpdateQuantity(item.productId, -item.quantity);
      if res.Fail? {
        return false;
      }
      var _ := cache.Delete(ProductKey(item.productId));
      var _ := cache.Delete(AllProductsKey());
      return true;
    }

    /** The body of the channel loop for one delivery. */
    method ProcessDelivery(msg: Delivery) returns (decision: Acknowledgement)
      requires repo.Valid()
      modifies repo`rows, cache`entries
      ensures repo.Valid()
      ensures (State(), decision) == OnDelivery(old(State()), CurrentFaults(), msg)
    {
      var event := DecodeEvent(msg.body);
      if event.Err? {
        return NackDiscard;
      }
      var items := event.value.items;
      ghost var s0 := State();
      var success := true;
      var j := 0;
      while j < |items|
        invariant 0 <= j <= |items|
        invariant repo.Valid()
        invariant (State(), success) == ApplyItems(s0, CurrentFaults(), items[..j])
      {
        var item := items[j];
        assert items[..j + 1][..j] == items[..j] && items[..j + 1][j] == item;
        var ok := ProcessItem(item);
        success := success && ok;
        j := j + 1;
      }
      assert items[..j] == items;
      decision := if success then Ack else NackRequeue;
    }

    /** `for msg := range messages`: one decision per delivery, in order. */
    method ProcessOrderCreated(messages: seq<Delivery>) returns (decisions: seq<Acknowledgement>)
      requires repo.Valid()
      modifies repo`rows, cache`entries
      ensures repo.Valid()
      ensures (State(), decisions) == OnDeliveries(old(State()), CurrentFaults(), messages)
    {
      decisions := [];
      var k := 0;
      while k < |messages|
        invariant 0 <= k <= |messages|
        invariant repo.Valid()
        invariant (State(), decisions) == OnDeliveries(old(State()), CurrentFaults(), messages[..k])
      {
        assert messages[..k + 1][..k] == messages[..k] && messages[..k + 1][k] == messages[k];
        var decision := ProcessDelivery(messages[k]);
        decisions := decisions + [decision];
        k := k + 1;
      }
      assert messages[..k] == messages;
    }
  }
}
