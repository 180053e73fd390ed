/** JSON as the services exchange it, and the encoding/json rules for the
    `OrderCreatedEvent` type that the publisher marshals and both consumers
    unmarshal. Numbers are integers (money is in cents). */
module JsonCodec {
  import opened Common
  import opened Models
  import opened Decimal

  datatype Json =
    | JNull
    | JBool(b: bool)
    | JNum(n: int)
    | JStr(s: string)
    | JArr(elems: seq<Json>)
    | JObj(fields: map<string, Json>)

  /** A message body: bytes that are not JSON at all, or a JSON document. */
  datatype Body = Unparsable | Doc(json: Json)

  const TypeError := "json: cannot unmarshal into Go value"

  /** A value Go's 64-bit `int` can hold. */
  predicate FitsInt(n: int) {
    MinInt64 <= n <= MaxInt64
  }

  // encoding/json, decoding into a struct field: a missing key or a JSON null
  // leaves the zero value; a value of the wrong JSON type is an error.

  /** An `int` field: a number it cannot hold is an error too. */
  function IntField(f: map<string, Json>, key: string): (r: Result<int>)
    ensures key !in f ==> r == Ok(0)
    ensures r.Ok? ==> FitsInt(r.value)
    ensures key in f && f[key].JNum? ==> (r.Ok? <==> FitsInt(f[key].n))
  {
    if key !in f then Ok(0)
    else match f[key]
      case JNull => Ok(0)
      case JNum(n) => if FitsInt(n) then Ok(n) else Err(TypeError)
      case _ => Err(TypeError)
  }

  /** A `float64` field, here holding cents: any number is accepted. */
  function AmountField(f: map<string, Json>, key: string): (r: Result<int>)
    ensures key !in f ==> r == Ok(0)
    ensures key in f && f[key].JNum? ==> r == Ok(f[key].n)
  {
    if key !in f then Ok(0)
    else match f[key]
      case JNull => Ok(0)
      case JNum(n) => Ok(n)
      case _ => Err(TypeError)
  }

  function StringField(f: map<string, Json>, key: string): (r: Result<string>)
    ensures key !in f ==> r == Ok("")
  {
    if key !in f then Ok("")
    else match f[key]
      case JNull => Ok("")
      case JStr(s) => Ok(s)
      case _ => Err(TypeError)
  }

  /** One element of the `items` array: null is the zero struct, an object is
      read field by field, anything else is an error. */
  function DecodeItem(j: Json): Result<OrderItemEvent> {
    match j
    case JNull => Ok(ZeroItemEvent)
    case JObj(f) =>
      var productId :- IntField(f, "product_id");
      var quantity :- IntField(f, "quantity");
      Ok(OrderItemEvent(productId, quantity))
    case _ => Err(TypeError)
  }

  /** Both fields of an item event fit Go's `int`. */
  predicate ItemFits(i: OrderItemEvent) {
    FitsInt(i.productId) && FitsInt(i.quantity)
  }

  predicate ItemsFit(items: seq<OrderItemEvent>) {
    forall i :: 0 <= i < |items| ==> ItemFits(items[i])
  }

  /** The `int` fields of an event fit Go's `int`; the amount is a float. */
  predicate EventFits(e: OrderCreatedEvent) {
    FitsInt(e.orderId) && ItemsFit(e.items)
  }

  function DecodeItems(js: seq<Json>): (r: Result<seq<OrderItemEvent>>)
    ensures r.Ok? ==> |r.value| == |js| && ItemsFit(r.value)
  {
    if js == [] then Ok([])
    else
      var first :- DecodeItem(js[0]);
      var rest :- DecodeItems(js[1..]);
      Ok([first] + rest)
  }

  function ItemsField(f: map<string, Json>): (r: Result<seq<OrderItemEvent>>)
    ensures r.Ok? ==> ItemsFit(r.value)
  {
    if "items" !in f then Ok([])
    else match f["items"]
      case JNull => Ok([])
      case JArr(js) => DecodeItems(js)
      case _ => Err(TypeError)
  }

  /** `json.Unmarshal(body, &event)`: malformed bytes and a document of the
      wrong shape are errors; a top-level `null` leaves the zero event. */
  function DecodeEvent(b: Body): (r: Result<OrderCreatedEvent>)
    ensures r.Ok? ==> EventFits(r.value)
  {
    match b
    case Unparsable => Err("invalid character looking for beginning of value")
    case Doc(JNull) => Ok(ZeroEvent)
    case Doc(JObj(f)) =>
      var orderId :- IntField(f, "order_id");
      var customerName :- StringField(f, "customer_name");
      var totalAmount :- AmountField(f, "total_amount");
      var items :- ItemsField(f);
      Ok(OrderCreatedEvent(orderId, customerName, totalAmount, items))
    case Doc(_) => Err(TypeError)
  }

  /** `json.Unmarshal(body, &m)` with `m` a `map[string]interface{}`: any object
      decodes, `null` gives the nil map (None), anything else is an error. */
  function DecodeGeneric(b: Body): (r: Result<Option<map<string, Json>>>)
    ensures r.Ok? <==> b.Doc? && (b.json.JNull? || b.json.JObj?)
  {
    match b
    case Unparsable => Err("invalid character looking for beginning of value")
    case Doc(JNull) => Ok(None)
    case Doc(JObj(f)) => Ok(Some(f))
    case Doc(_) => Err(TypeError)
  }

  function EncodeItem(i: OrderItemEvent): Json {
    JObj(map["product_id" := JNum(i.productId), "quantity" := JNum(i.quantity)])
  }

  function EncodeItems(items: seq<OrderItemEvent>): (js: seq<Json>)
    ensures |js| == |items|
  {
    if items == [] then [] else [EncodeItem(items[0])] + EncodeItems(items[1..])
  }

  /** `json.Marshal(event)`. The publisher builds `Items` by appending to a nil
      slice, so an order without lines marshals its items as `null`. */
  function EncodeEvent(e: OrderCreatedEvent): Json {
    JObj(map[
      "order_id" := JNum(e.orderId),
      "customer_name" := JStr(e.customerName),
      "total_amount" := JNum(e.totalAmount),
      "items" := if e.items == [] then JNull else JArr(EncodeItems(e.items))
    ])
  }

  /** Encoded items decode back unchanged exactly when they fit Go's `int`;
      otherwise decoding fails. */
  lemma {:induction false} DecodeEncodeItems(items: seq<OrderItemEvent>)
    ensures DecodeItems(EncodeItems(items)) == if ItemsFit(items) then Ok(items) else Err(TypeError)
  {
    if items != [] {
      var js := EncodeItems(items);
      assert js[0] == EncodeItem(items[0]) && js[1..] == EncodeItems(items[1..]);
      DecodeEncodeItems(items[1..]);
      if ItemsFit(items) {
        assert ItemsFit(items[1..]) by {
          forall i | 0 <= i < |items[1..]| ensures ItemFits(items[1..][i]) {
            assert items[1..][i] == items[i + 1];
          }
        }
        assert [items[0]] + items[1..] == items;
      } else if ItemFits(items[0]) {
        var k :| 0 <= k < |items| && !ItemFits(items[k]);
        assert !ItemFits(items[1..][k - 1]);
      }
    }
  }

  /** What the publisher marshals, a consumer unmarshals unchanged, provided
      its `int` fields fit Go's `int`; otherwise unmarshalling fails. */
  lemma DecodeEncodeEvent(e: OrderCreatedEvent)
    ensures DecodeEvent(Doc(EncodeEvent(e))) == if EventFits(e) then Ok(e) else Err(TypeError)
  {
    EncodedEventFields(e);
    DecodeEncodeItems(e.items);
  }

  /** What each field of an encoded event decodes to. */
  lemma EncodedEventFields(e: OrderCreatedEvent)
    ensures var f := EncodeEvent(e).fields;
      && IntField(f, "order_id") == (if FitsInt(e.orderId) then Ok(e.orderId) else Err(TypeError))
      && StringField(f, "customer_name") == Ok(e.customerName)
      && AmountField(f, "total_amount") == Ok(e.totalAmount)
      && ItemsField(f) == if e.items == [] then Ok([]) else DecodeItems(EncodeItems(e.items))
  {
    var f := EncodeEvent(e).fields;
    assert f["order_id"] == JNum(e.orderId);
    assert f["customer_name"] == JStr(e.customerName);
    assert f["total_amount"] == JNum(e.totalAmount);
  }

  /** An encoded event has no top-level `product_id` or `quantity` key. */
  lemma EncodedEventHasNoFlatFields(e: OrderCreatedEvent)
    ensures DecodeGeneric(Doc(EncodeEvent(e))) == Ok(Some(EncodeEvent(e).fields))
    ensures "product_id" !in EncodeEvent(e).fields && "quantity" !in EncodeEvent(e).fields
  {
  }
}
