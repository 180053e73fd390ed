/** The orders and order_items tables. An order and its lines are written in
    one transaction, all or nothing; a listing carries no lines; a lookup by
    id brings the order's lines back with it. */
module OrderRepository {
  import opened Common
  import opened Models

  /** A row of the orders table; the lines live in their own table. */
  datatype OrderRow = OrderRow(id: int, customerName: string, totalAmount: int, status: string, createdAt: int)

  /** Where the transaction of Create breaks, if it does. A statement that
      fails uses no id; the ids that statements before it used stay used
      after the rollback, as sequences do. */
  datatype TxFault = NoFault | BeginFails | OrderInsertFails | ItemInsertFails(index: nat) | CommitFails

  /** Whether a transaction for `n` lines gets through under `fault`. */
  predicate Commits(fault: TxFault, n: nat) {
    fault.NoFault? || (fault.ItemInsertFails? && fault.index >= n)
  }

  /** An order row as a scanned `Order`: no lines. */
  function AsOrder(row: OrderRow): Order {
    Order(row.id, row.customerName, row.totalAmount, row.status, [], row.createdAt)
  }

  predicate Descending(s: seq<Order>) {
    forall i, j :: 0 <= i < j < |s| ==> s[i].id > s[j].id
  }

  /** `s` is the orders table in `ORDER BY id DESC` order, without lines. */
  predicate ListsOrders(s: seq<Order>, rows: map<int, OrderRow>) {
    && Descending(s)
    && (forall i :: 0 <= i < |s| ==> s[i].id in rows && s[i] == AsOrder(rows[s[i].id]))
    && (forall id :: id in rows ==> AsOrder(rows[id]) in s)
  }

  /** `s` holds the stored lines of order `orderId`, each once, in no
      promised order. */
  predicate LinesOf(s: seq<OrderItem>, items: map<int, OrderItem>, orderId: int) {
    && (forall i :: 0 <= i < |s| ==> s[i].id in items && items[s[i].id] == s[i] && s[i].orderId == orderId)
    && (forall k :: k in items && items[k].orderId == orderId ==> items[k] in s)
    && DistinctIds(s)
  }

  /** The lines as Create writes them: consecutive line ids from `firstItemId`,
      all pointing at `orderId`. */
  function Stamp(lines: seq<OrderItem>, orderId: int, firstItemId: int): (r: seq<OrderItem>)
    ensures |r| == |lines|
  {
    seq(|lines|, i requires 0 <= i < |lines| => lines[i].(id := firstItemId + i, orderId := orderId))
  }

  predicate DistinctIds(lines: seq<OrderItem>) {
    forall i, j :: 0 <= i < j < |lines| ==> lines[i].id != lines[j].id
  }

  /** The order_items rows that stamped lines add, keyed by line id. */
  function ItemRows(stamped: seq<OrderItem>): map<int, OrderItem>
    requires DistinctIds(stamped)
  {
    map i | 0 <= i < |stamped| :: stamped[i].id := stamped[i]
  }

  class OrderStore {
    var orders: map<int, OrderRow>
    var items: map<int, OrderItem>
    /** The next values of the two id sequences. */
    var nextOrderId: int
    var nextItemId: int
    /** False while the database is unreachable: every statement fails. */
    var available: bool

    ghost predicate Valid()
      reads this
    {
      && 1 <= nextOrderId && 1 <= nextItemId
      && (forall id :: id in orders ==> orders[id].id == id && 1 <= id < nextOrderId)
      && (forall id :: id in items ==> items[id].id == id && 1 <= id < nextItemId && items[id].orderId in orders)
    }

    constructor (available: bool)
      ensures Valid() && orders == map[] && items == map[]
      ensures nextOrderId == 1 && nextItemId == 1 && this.available == available
    {
      orders := map[];
      items := map[];
      nextOrderId := 1;
      nextItemId := 1;
      this.available := available;
    }

    /** The transaction: insert the order, then each line, then commit. The
        result is the order with its new id, creation time and stamped lines. */
    method Create(order: Order, createdAt: int, fault: TxFault) returns (r: Result<Order>)
      requires Valid()
      modifies this`orders, this`items, this`nextOrderId, this`nextItemId
      ensures Valid()
      ensures r.Ok? <==> available && Commits(fault, |order.items|)
      ensures r.Ok? ==>
        var id := old(nextOrderId);
        && id !in old(orders)
        && r.value == order.(id := id, createdAt := createdAt, items := Stamp(order.items, id, old(nextItemId)))
        && orders == old(orders)[id := OrderRow(id, order.customerName, order.totalAmount, order.status, createdAt)]
        && items == old(items) + ItemRows(r.value.items)
        && nextOrderId == id + 1 && nextItemId == old(nextItemId) + |order.items|
      ensures r.Err? ==> orders == old(orders) && items == old(items)
      ensures old(nextOrderId) <= nextOrderId && old(nextItemId) <= nextItemId
    {
      if !available || fault.BeginFails? {
        return Err("failed to begin transaction: connection refused");
      }
      if fault.OrderInsertFails? {
        return Err("failed to insert order: statement rejected");
      }
      var id := nextOrderId;
      nextOrderId := nextOrderId + 1;
      var first := nextItemId;
      var stamped: seq<OrderItem> := [];
      var i := 0;
      while i < |order.items|
        invariant 0 <= i <= |order.items|
        invariant nextOrderId == id + 1 && orders == old(orders) && items == old(items)
        invariant nextItemId == first + i
        invariant stamped == Stamp(order.items[..i], id, first)
        invariant fault.ItemInsertFails? ==> fault.index >= i
      {
        if fault == ItemInsertFails(i) {
          return Err("failed to insert order item: statement rejected");
        }
        stamped := stamped + [order.items[i].(id := nextItemId, orderId := id)];
        nextItemId := nextItemId + 1;
        i := i + 1;
      }
      assert order.items[..i] == order.items;
      if fault.CommitFails? {
        return Err("failed to commit transaction: connection reset");
      }
      orders := orders[id := OrderRow(id, order.customerName, order.totalAmount, order.status, createdAt)];
      items := items + ItemRows(stamped);
      r := Ok(order.(id := id, createdAt := createdAt, items := stamped));
    }

    /** `SELECT ... FROM orders ORDER BY id DESC`. */
    method GetAll() returns (r: Result<seq<Order>>)
      requires Valid()
      ensures r.Ok? <==> available
      ensures r.Ok? ==> ListsOrders(r.value, orders)
    {
      if !available {
        return Err("failed to query orders: connection refused");
      }
      var listed: seq<Order> := [];
      var id := nextOrderId - 1;
      while id >= 1
        invariant 0 <= id < nextOrderId
        invariant Descending(listed)
        invariant forall i :: 0 <= i < |listed| ==>
          listed[i].id > id && listed[i].id in orders && listed[i] == AsOrder(orders[listed[i].id])
        invariant forall k :: k in orders && k > id ==> AsOrder(orders[k]) in listed
      {
        if id in orders {
          listed := listed + [AsOrder(orders[id])];
        }
        id := id - 1;
      }
      r := Ok(listed);
    }

    /** The order row, then `SELECT ... FROM order_items WHERE order_id = $1`;
        no order row is `(nil, nil)`. */
    method GetByID(id: int) returns (r: Result<Option<Order>>)
      requires Valid()
      ensures r.Ok? <==> available
      ensures r.Ok? ==> (r.value.Some? <==> id in orders)
      ensures r.Ok? && r.value.Some? ==>
        && r.value.value == AsOrder(orders[id]).(items := r.value.value.items)
        && LinesOf(r.value.value.items, items, id)
    {
      if !available {
        return Err("failed to get order: connection refused");
      }
      if id !in orders {
        return Ok(None);
      }
      var lines: seq<OrderItem> := [];
      var k := 1;
      while k < nextItemId
        invariant 1 <= k <= nextItemId
        invariant forall i :: 0 <= i < |lines| ==>
          lines[i].id < k && lines[i].id in items && items[lines[i].id] == lines[i] && lines[i].orderId == id
        invariant forall j :: j in items && j < k && items[j].orderId == id ==> items[j] in lines
        invariant forall i, j :: 0 <= i < j < |lines| ==> lines[i].id < lines[j].id
      {
        if k in items && items[k].orderId == id {
          lines := lines + [items[k]];
        }
        k := k + 1;
      }
      r := Ok(Some(AsOrder(orders[id]).(items := lines)));
    }

    /** `UPDATE orders SET status = $1 WHERE id = $2`; no row affected is
        "order not found". */
    method UpdateStatus(id: int, status: string) returns (r: Outcome)
      requires Valid()
      modifies this`orders
      ensures Valid()
      ensures r.Pass? <==> available && id in old(orders)
      ensures r.Fail? && available ==> r.msg == "order not found"
      ensures orders == if r.Pass? then old(orders)[id := old(orders)[id].(status := status)] else old(orders)
    {
      if !available {
        r := Fail("failed to update order: connection refused");
      } else if id !in orders {
        r := Fail("order not found");
      } else {
        orders := orders[id := orders[id].(status := status)];
        r := Pass;
      }
    }
  }

  /** The lines a lookup returns for a freshly created order are exactly the
      lines Create wrote (each once, by LinesOf). */
  lemma ReadBackLines(before: map<int, OrderItem>, orders: map<int, OrderRow>, lines: seq<OrderItem>, created: Order, first: int, s: seq<OrderItem>)
    requires forall k :: k in before ==> k < first && before[k].orderId in orders
    requires created.id !in orders
    requires created.items == Stamp(lines, created.id, first)
    requires LinesOf(s, before + ItemRows(created.items), created.id)
    ensures forall x :: x in s <==> x in created.items
  {
    var after := before + ItemRows(created.items);
    forall x | x in s ensures x in created.items {
      var i :| 0 <= i < |s| && s[i] == x;
      assert x.id in ItemRows(created.items);
      ItemRowIsLine(created.items, x.id);
    }
    forall x | x in created.items ensures x in s {
      var i :| 0 <= i < |created.items| && created.items[i] == x;
      assert x.id == first + i;
      assert after[first + i] == x;
    }
  }

  /** Every row ItemRows adds is one of the stamped lines. */
  lemma ItemRowIsLine(stamped: seq<OrderItem>, k: int)
    requires DistinctIds(stamped) && k in ItemRows(stamped)
    ensures ItemRows(stamped)[k] in stamped && ItemRows(stamped)[k].id == k
  {
  }

  /** An order that Create commits is found by id straight afterwards, with
      the same fields and the same lines. */
  method CreateThenGet(store: OrderStore, order: Order, createdAt: int) returns (created: Result<Order>, fetched: Result<Option<Order>>)
    requires store.Valid()
    modifies store`orders, store`items, store`nextOrderId, store`nextItemId
    ensures store.Valid()
    ensures created.Ok? ==> fetched.Ok? && fetched.value.Some?
    ensures created.Ok? ==>
      var o := fetched.value.value;
      && o.(items := []) == created.value.(items := [])
      && (forall x :: x in o.items <==> x in created.value.items)
      && DistinctIds(o.items)
  {
    ghost var before, first := store.items, store.nextItemId;
    created := store.Create(order, createdAt, NoFault);
    fetched := store.GetByID(if created.Ok? then created.value.id else 0);
    if created.Ok? {
      ReadBackLines(before, old(store.orders), order.items, created.value, first, fetched.value.value.items);
    }
  }
}
