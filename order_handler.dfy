/** The order service's HTTP handlers. Creating an order resolves each
    requested product through the product service, snapshots its name and
    price into the line, totals the lines, stores the order with status
    "pending" and then announces it; a failed announcement does not fail the
    request. */
module OrderHandler {
  import opened Common
  import opened Models
  import opened JsonCodec
  import opened Decimal
  import opened Messaging
  import opened OrderRepository
  import opened OrderPublisher

  /** What a handler writes back. */
  datatype Payload =
    | ErrorMessage(error: string)
    | Message(message: string)
    | OrderBody(order: Order)
    | OrderList(orders: seq<Order>)

  datatype Response = Response(status: int, payload: Payload)

  const ValidStatuses: set<string> := {"pending", "confirmed", "shipped", "delivered", "cancelled"}

  function RequiredError(field: string): string {
    "Field validation for '" + field + "' failed on the 'required' tag"
  }

  /** The decoded lines of a request: `product_id` and `quantity` of each. */
  function AsRequests(lines: seq<OrderItemEvent>): (r: seq<CreateOrderItemRequest>)
    ensures |r| == |lines|
    ensures forall i :: 0 <= i < |lines| ==> r[i] == CreateOrderItemRequest(lines[i].productId, lines[i].quantity)
    decreases |lines|
  {
    if lines == [] then []
    else AsRequests(lines[..|lines| - 1]) + [CreateOrderItemRequest(lines[|lines| - 1].productId, lines[|lines| - 1].quantity)]
  }

  /** `ShouldBindJSON(&req)` for a CreateOrderRequest: decode, then check
      that `customer_name` is non-empty and `items` is present and not null
      (an empty array passes). */
  function BindCreateOrder(b: Body): (r: Result<CreateOrderRequest>)
    ensures r.Ok? ==> r.value.customerName != ""
    ensures r.Ok? ==> b.Doc? && b.json.JObj? && "items" in b.json.fields && b.json.fields["items"].JArr?
  {
    match b
    case Unparsable => Err("invalid character looking for beginning of value")
    case Doc(JNull) => Err(RequiredError("CustomerName"))
    case Doc(JObj(f)) =>
      var name :- StringField(f, "customer_name");
      var lines :- ItemsField(f);
      if name == "" then Err(RequiredError("CustomerName"))
      else if "items" !in f || f["items"].JNull? then Err(RequiredError("Items"))
      else Ok(CreateOrderRequest(name, AsRequests(lines)))
    case Doc(_) => Err(TypeError)
  }

  /** `ShouldBindJSON(&req)` for the status update: a non-empty `status`. */
  function BindStatus(b: Body): (r: Result<string>)
    ensures r.Ok? ==> r.value != ""
    ensures r.Ok? <==> b.Doc? && b.json.JObj? && "status" in b.json.fields
                       && b.json.fields["status"].JStr? && b.json.fields["status"].s != ""
  {
    match b
    case Unparsable => Err("invalid character looking for beginning of value")
    case Doc(JNull) => Err(RequiredError("Status"))
    case Doc(JObj(f)) =>
      var status :- StringField(f, "status");
      if status == "" then Err(RequiredError("Status")) else Ok(status)
    case Doc(_) => Err(TypeError)
  }

  /** A line as the handler builds it: the product's own id, name and price
      as the product service reported them, and the requested quantity. */
  function LineOf(p: Product, quantity: int): OrderItem {
    OrderItem(0, 0, p.id, p.name, quantity, p.price)
  }

  /** The lines of a request in request order, or the error of the first
      product that does not resolve. */
  function Lines(reqs: seq<CreateOrderItemRequest>, lookup: int -> Result<Product>): (r: Result<seq<OrderItem>>)
    ensures r.Ok? ==> |r.value| == |reqs|
    decreases |reqs|
  {
    if reqs == [] then Ok([])
    else
      var before :- Lines(reqs[..|reqs| - 1], lookup);
      var p :- lookup(reqs[|reqs| - 1].productId);
      Ok(before + [LineOf(p, reqs[|reqs| - 1].quantity)])
  }

  /** The order total: price times quantity, summed over the lines. */
  function Total(lines: seq<OrderItem>): int
    decreases |lines|
  {
    if lines == [] then 0
    else Total(lines[..|lines| - 1]) + lines[|lines| - 1].price * lines[|lines| - 1].quantity
  }

  /** The lines resolve exactly when every requested product resolves, and
      then line i snapshots product i with quantity i. */
  lemma {:induction false} LinesResolve(reqs: seq<CreateOrderItemRequest>, lookup: int -> Result<Product>)
    ensures Lines(reqs, lookup).Ok? <==> forall i :: 0 <= i < |reqs| ==> lookup(reqs[i].productId).Ok?
    ensures Lines(reqs, lookup).Ok? ==>
      forall i :: 0 <= i < |reqs| ==> Lines(reqs, lookup).value[i] == LineOf(lookup(reqs[i].productId).value, reqs[i].quantity)
    decreases |reqs|
  {
    if reqs != [] {
      var prefix := reqs[..|reqs| - 1];
      LinesResolve(prefix, lookup);
      assert forall i :: 0 <= i < |prefix| ==> prefix[i] == reqs[i];
    }
  }

  /** A failed lookup is reported as it came: the error is that of the first
      product that does not resolve. */
  lemma {:induction false} LinesFirstFailure(reqs: seq<CreateOrderItemRequest>, lookup: int -> Result<Product>, k: nat)
    requires k < |reqs| && lookup(reqs[k].productId).Err?
    requires forall i :: 0 <= i < k ==> lookup(reqs[i].productId).Ok?
    ensures Lines(reqs, lookup) == Err(lookup(reqs[k].productId).msg)
    decreases |reqs|
  {
    var prefix := reqs[..|reqs| - 1];
    if k < |reqs| - 1 {
      assert forall i :: 0 <= i < |prefix| ==> prefix[i] == reqs[i];
      LinesFirstFailure(prefix, lookup, k);
    } else {
      LinesResolve(prefix, lookup);
      assert forall i :: 0 <= i < |prefix| ==> prefix[i] == reqs[i];
    }
  }

  /** Once a prefix of the request fails, the whole request fails alike. */
  lemma {:induction false} LinesErrorPersists(reqs: seq<CreateOrderItemRequest>, lookup: int -> Result<Product>, k: nat)
    requires k <= |reqs| && Lines(reqs[..k], lookup).Err?
    ensures Lines(reqs, lookup) == Lines(reqs[..k], lookup)
    decreases |reqs|
  {
    if k < |reqs| {
      var prefix := reqs[..|reqs| - 1];
      assert prefix[..k] == reqs[..k];
      LinesErrorPersists(prefix, lookup, k);
    } else {
      assert reqs[..k] == reqs;
    }
  }

  /** The total of two runs of lines is the sum of their totals. */
  lemma {:induction false} TotalAppend(a: seq<OrderItem>, b: seq<OrderItem>)
    ensures Total(a + b) == Total(a) + Total(b)
    decreases |b|
  {
    if b != [] {
      var prefix := b[..|b| - 1];
      assert (a + b)[..|a + b| - 1] == a + prefix;
      assert (a + b)[|a + b| - 1] == b[|b| - 1];
      TotalAppend(a, prefix);
    } else {
      assert a + b == a;
    }
  }

  /** The order the handler stores: lines and total from the request,
      status "pending"; the store assigns the id and creation time. */
  function PendingOrder(customerName: string, lines: seq<OrderItem>): Order {
    Order(0, customerName, Total(lines), "pending", lines, 0)
  }

  class OrderHandler {
    const repo: OrderStore
    const publisher: OrderPublisher

    constructor (repo: OrderStore, publisher: OrderPublisher)
      ensures this.repo == repo && this.publisher == publisher
    {
      this.repo := repo;
      this.publisher := publisher;
    }

    /** `GET /orders`. */
    method ListOrders() returns (resp: Response)
      requires repo.Valid()
      ensures resp.status == StatusOK <==> repo.available
      ensures resp.status == StatusOK ==> resp.payload.OrderList? && ListsOrders(resp.payload.orders, repo.orders)
      ensures resp.status != StatusOK ==> resp.status == StatusInternalServerError && resp.payload.ErrorMessage?
    {
      var orders := repo.GetAll();
      if orders.Err? {
        return Response(StatusInternalServerError, ErrorMessage(orders.msg));
      }
      resp := Response(StatusOK, OrderList(orders.value));
    }

    /** `GET /orders/:id`. */
    method GetOrder(idParam: string) returns (resp: Response)
      requires repo.Valid()
      ensures Atoi(idParam).None? ==> resp == Response(StatusBadRequest, ErrorMessage("invalid order ID"))
      ensures Atoi(idParam).Some? && !repo.available ==> resp.status == StatusInternalServerError
      ensures Atoi(idParam).Some? && repo.available && Atoi(idParam).value !in repo.orders
        ==> resp == Response(StatusNotFound, ErrorMessage("order not found"))
      ensures Atoi(idParam).Some? && repo.available && Atoi(idParam).value in repo.orders ==>
        var id := Atoi(idParam).value;
        && resp.status == StatusOK && resp.payload.OrderBody?
        && resp.payload.order == AsOrder(repo.orders[id]).(items := resp.payload.order.items)
        && LinesOf(resp.payload.order.items, repo.items, id)
    {
      var id := Atoi(idParam);
      if id.None? {
        return Response(StatusBadRequest, ErrorMessage("invalid order ID"));
      }
      var order := repo.GetByID(id.value);
      if order.Err? {
        return Response(StatusInternalServerError, ErrorMessage(order.msg));
      }
      if order.value.None? {
        return Response(StatusNotFound, ErrorMessage("order not found"));
      }
      resp := Response(StatusOK, OrderBody(order.value.value));
    }

    /** The pricing loop of `POST /orders`: look each item up in turn, stop
        at the first failure, and keep a running total of price times
        quantity. */
    method PriceLines(reqs: seq<CreateOrderItemRequest>, lookup: int -> Result<Product>)
      returns (r: Result<seq<OrderItem>>, total: int)
      ensures r == Lines(reqs, lookup)
      ensures r.Ok? ==> total == Total(r.value)
    {
      var lines: seq<OrderItem> := [];
      total := 0;
      var i := 0;
      while i < |reqs|
        invariant 0 <= i <= |reqs|
        invariant Lines(reqs[..i], lookup) == Ok(lines)
        invariant total == Total(lines)
      {
        assert reqs[..i + 1][..i] == reqs[..i] && reqs[..i + 1][i] == reqs[i];
        var product := lookup(reqs[i].productId);
        if product.Err? {
          LinesErrorPersists(reqs, lookup, i + 1);
          return Err(product.msg), total;
        }
        var line := LineOf(product.value, reqs[i].quantity);
        TotalAppend(lines, [line]);
        assert [line][..0] == [];
        lines := lines + [line];
        total := total + product.value.price * reqs[i].quantity;
        i := i + 1;
      }
      assert reqs[..i] == reqs;
      r := Ok(lines);
    }

    /** `POST /orders`. */
    method CreateOrder(body: Body, lookup: int -> Result<Product>, now: int, fault: TxFault) returns (resp: Response)
      requires repo.Valid()
      modifies repo`orders, repo`items, repo`nextOrderId, repo`nextItemId, publisher.mq`published
      ensures repo.Valid()
      ensures BindCreateOrder(body).Err? ==>
        && resp == Response(StatusBadRequest, ErrorMessage(BindCreateOrder(body).msg))
        && repo.orders == old(repo.orders) && repo.items == old(repo.items)
        && publisher.mq.published == old(publisher.mq.published)
      ensures BindCreateOrder(body).Ok? && Lines(BindCreateOrder(body).value.items, lookup).Err? ==>
        && resp == Response(StatusBadRequest, ErrorMessage(Lines(BindCreateOrder(body).value.items, lookup).msg))
        && repo.orders == old(repo.orders) && repo.items == old(repo.items)
        && publisher.mq.published == old(publisher.mq.published)
      ensures BindCreateOrder(body).Ok? && Lines(BindCreateOrder(body).value.items, lookup).Ok? ==>
        var req := BindCreateOrder(body).value;
        var lines := Lines(req.items, lookup).value;
        var stored := old(repo.available) && Commits(fault, |lines|);
        && (!stored ==>
              && resp.status == StatusInternalServerError && resp.payload.ErrorMessage?
              && repo.orders == old(repo.orders) && repo.items == old(repo.items)
              && publisher.mq.published == old(publisher.mq.published))
        && (stored ==>
              var id := old(repo.nextOrderId);
              var created := PendingOrder(req.customerName, lines).(id := id, createdAt := now,
                                                                     items := Stamp(lines, id, old(repo.nextItemId)));
              && resp == Response(StatusCreated, OrderBody(created))
              && id !in old(repo.orders)
              && repo.orders == old(repo.orders)[id := OrderRow(id, req.customerName, Total(lines), "pending", now)]
              && repo.items == old(repo.items) + ItemRows(created.items)
              && publisher.mq.published
                   == if publisher.mq.up
                      then old(publisher.mq.published) + [Publication(OrderCreatedQueue, Doc(EncodeEvent(ToEvent(created))))]
                      else old(publisher.mq.published))
    {
      var req := BindCreateOrder(body);
      if req.Err? {
        return Response(StatusBadRequest, ErrorMessage(req.msg));
      }
      var priced, total := PriceLines(req.value.items, lookup);
      if priced.Err? {
        return Response(StatusBadRequest, ErrorMessage(priced.msg));
      }
      var lines := priced.value;
      var order := Order(0, req.value.customerName, total, "pending", lines, 0);
      var created := repo.Create(order, now, fault);
      if created.Err? {
        return Response(StatusInternalServerError, ErrorMessage(created.msg));
      }
      var _ := publisher.PublishOrderCreated(created.value);
      resp := Response(StatusCreated, OrderBody(created.value));
    }

    /** `PUT /orders/:id/status`. A failing update is answered 404 whatever
        the reason, an unreachable database included. */
    method UpdateOrderStatus(idParam: string, body: Body) returns (resp: Response)
      requires repo.Valid()
      modifies repo`orders
      ensures repo.Valid()
      ensures resp.status == StatusOK <==>
        && Atoi(idParam).Some? && BindStatus(body).Ok? && BindStatus(body).value in ValidStatuses
        && repo.available && Atoi(idParam).value in old(repo.orders)
      ensures resp.status == StatusOK ==>
        var id := Atoi(idParam).value;
        && resp.payload == Message("order status updated")
        && repo.orders == old(repo.orders)[id := old(repo.orders)[id].(status := BindStatus(body).value)]
      ensures resp.status != StatusOK ==> repo.orders == old(repo.orders)
      ensures Atoi(idParam).None? ==> resp == Response(StatusBadRequest, ErrorMessage("invalid order ID"))
      ensures Atoi(idParam).Some? && BindStatus(body).Ok? && BindStatus(body).value !in ValidStatuses
        ==> resp == Response(StatusBadRequest, ErrorMessage("invalid status"))
      ensures (Atoi(idParam).Some? && BindStatus(body).Ok? && BindStatus(body).value in ValidStatuses
               && resp.status != StatusOK) ==> resp.status == StatusNotFound
    {
      var id := Atoi(idParam);
      if id.None? {
        return Response(StatusBadRequest, ErrorMessage("invalid order ID"));
      }
      var status := BindStatus(body);
      if status.Err? {
        return Response(StatusBadRequest, ErrorMessage(status.msg));
      }
      if status.value !in ValidStatuses {
        return Response(StatusBadRequest, ErrorMessage("invalid status"));
      }
      var r := repo.UpdateStatus(id.value, status.value);
      if r.Fail? {
        return Response(StatusNotFound, ErrorMessage(r.msg));
      }
      resp := Response(StatusOK, Message("order status updated"));
    }
  }
}
