/** The older consumer started by the product service. It reads each body
    as a generic object with top-level `product_id` and `quantity` numbers,
    decrements that one product, drops only that product's cache key, and
    acks every delivery, whether it used it or not. A present key whose
    value is not a number fails a type assertion: the process panics and
    consumes nothing more. */
module LegacyConsumer {
  import opened Common
  import opened JsonCodec
  import opened Models
  import opened Cache
  import opened Messaging
  import opened ProductRepository
  import opened CachedProductRepository
  import opened InventoryConsumer

  /** What became of one delivery: acked, or the process panicked on it. */
  datatype LegacyDecision = Acked | Panicked

  /** One delivery. */
  function LegacyOnDelivery(s: Inventory, f: Faults, d: Delivery): (Inventory, LegacyDecision) {
    match DecodeGeneric(d.body)
    case Err(_) => (s, Acked)
    case Ok(None) => (s, Acked)
    case Ok(Some(m)) =>
      if "product_id" !in m || "quantity" !in m then (s, Acked)
      else if !m["product_id"].JNum? || !m["quantity"].JNum? then (s, Panicked)
      else
        var productId, quantity := m["product_id"].n, m["quantity"].n;
        match QuantityUpdate(s.rows, f.storeUp, f.rejected, productId, -quantity)
        case None => (s, Acked)
        case Some(rows) => (Inventory(rows, AfterDelete(s.entries, f.cacheUp, ProductKey(productId))), Acked)
  }

  predicate Crashed(decisions: seq<LegacyDecision>) {
    Panicked in decisions
  }

  /** The deliveries in channel order until the first panic; the ones after
      it are never taken from the channel. */
  function LegacyRun(s: Inventory, f: Faults, ds: seq<Delivery>): (r: (Inventory, seq<LegacyDecision>))
    ensures |r.1| <= |ds|
    ensures !Crashed(r.1) ==> |r.1| == |ds|
    ensures forall i :: 0 <= i < |r.1| - 1 ==> r.1[i] == Acked
    decreases |ds|
  {
    if ds == [] then (s, [])
    else
      var (s1, decisions) := LegacyRun(s, f, ds[..|ds| - 1]);
      if Crashed(decisions) then (s1, decisions)
      else
        var (s2, d) := LegacyOnDelivery(s1, f, ds[|ds| - 1]);
        (s2, decisions + [d])
  }

  /** The event the order service publishes has no top-level `product_id`,
      so this consumer acks it without touching stock or cache. */
  lemma LegacyIgnoresOrderCreatedEvents(s: Inventory, f: Faults, e: OrderCreatedEvent)
    ensures LegacyOnDelivery(s, f, Delivery(Doc(EncodeEvent(e)))) == (s, Acked)
  {
    EncodedEventHasNoFlatFields(e);
  }

  /** A flat event `{"product_id": p, "quantity": q}`: the stock of p goes
      down by q when its update succeeds and the delivery is acked either
      way, so a failed update is lost; only `product:{p}` is dropped, so the
      cached product list keeps its old quantities. */
  lemma LegacyFlatEvent(s: Inventory, f: Faults, p: int, q: int)
    requires p in s.rows
    ensures var (s1, decision) := LegacyOnDelivery(s, f, Delivery(Doc(JObj(map["product_id" := JNum(p), "quantity" := JNum(q)]))));
      && decision == Acked
      && s1.rows.Keys == s.rows.Keys
      && s1.rows[p].quantity == s.rows[p].quantity - (if Decrements(s, f, p) then q else 0)
      && (forall k :: k in s.rows && k != p ==> s1.rows[k] == s.rows[k])
      && (AllProductsKey() in s.entries ==> AllProductsKey() in s1.entries && s1.entries[AllProductsKey()] == s.entries[AllProductsKey()])
      && (Decrements(s, f, p) && f.cacheUp ==> ProductKey(p) !in s1.entries)
  {
    ProductKeyIsNotListKey(p);
    FlatEventOutcome(s, f, p, q);
  }

  /** The flat event takes the decrement path with its two numbers. */
  lemma FlatEventOutcome(s: Inventory, f: Faults, p: int, q: int)
    ensures LegacyOnDelivery(s, f, Delivery(Doc(JObj(map["product_id" := JNum(p), "quantity" := JNum(q)]))))
      == if Decrements(s, f, p)
         then (Inventory(QuantityUpdate(s.rows, f.storeUp, f.rejected, p, -q).value, AfterDelete(s.entries, f.cacheUp, ProductKey(p))), Acked)
         else (s, Acked)
  {
    var m := map["product_id" := JNum(p), "quantity" := JNum(q)];
    assert DecodeGeneric(Doc(JObj(m))) == Ok(Some(m));
    assert m["product_id"] == JNum(p) && m["quantity"] == JNum(q);
  }

  /** After the first panic, later deliveries change nothing. */
  lemma {:induction false} LegacyRunAfterCrash(s: Inventory, f: Faults, ds: seq<Delivery>, k: nat)
    requires k <= |ds| && Crashed(LegacyRun(s, f, ds[..k]).1)
    ensures LegacyRun(s, f, ds) == LegacyRun(s, f, ds[..k])
    decreases |ds|
  {
    if k < |ds| {
      var prefix := ds[..|ds| - 1];
      assert prefix[..k] == ds[..k];
      LegacyRunAfterCrash(s, f, prefix, k);
    } else {
      assert ds[..k] == ds;
    }
  }

  class LegacyConsumer {
    const repo: ProductStore
    const cache: RedisCache

    constructor (repo: ProductStore, cache: RedisCache)
      ensures this.repo == repo && this.cache == cache
    {
      this.repo := repo;
      this.cache := cache;
    }

    function State(): Inventory
      reads this, repo, cache
    {
      Inventory(repo.rows, cache.entries)
    }

    function CurrentFaults(): Faults
      reads this, repo, cache
    {
      Faults(repo.available, repo.rejected, cache.up)
    }

    method HandleDelivery(msg: Delivery) returns (decision: LegacyDecision)
      requires repo.Valid()
      modifies repo`rows, cache`entries
      ensures repo.Valid()
      ensures (State(), decision) == LegacyOnDelivery(old(State()), CurrentFaults(), msg)
    {
      var event := DecodeGeneric(msg.body);
      if event.Err? || event.value.None? {
        return Acked;
      }
      var m := event.value.value;
      if "product_id" !in m || "quantity" !in m {
        return Acked;
      }
      if !m["product_id"].JNum? || !m["quantity"].JNum? {
        return Panicked;
      }
      var productId, quantity := m["product_id"].n, m["quantity"].n;
      var res := repo.UpdateQuantity(productId, -quantity);
      if res.Pass? {
        var _ := cache.Delete(ProductKey(productId));
      }
      return Acked;
    }

    /** `for msg := range messages`, until a panic ends the process. */
    method StartEventConsumer(messages: seq<Delivery>) returns (decisions: seq<LegacyDecision>)
      requires repo.Valid()
      modifies repo`rows, cache`entries
      ensures repo.Valid()
      ensures (State(), decisions) == LegacyRun(old(State()), CurrentFaults(), messages)
    {
      decisions := [];
      var k := 0;
      while k < |messages| && !Crashed(decisions)
        invariant 0 <= k <= |messages|
        invariant repo.Valid()
        invariant (State(), decisions) == LegacyRun(old(State()), CurrentFaults(), messages[..k])
      {
        assert messages[..k + 1][..k] == messages[..k] && messages[..k + 1][k] == messages[k];
        var decision := HandleDelivery(messages[k]);
        decisions := decisions + [decision];
        k := k + 1;
      }
      if k < |messages| {
        LegacyRunAfterCrash(old(State()), CurrentFaults(), messages, k);
      } else {
        assert messages[..k] == messages;
      }
    }
  }
}
