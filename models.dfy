/** The records of the order pipeline, field for field as the service declares
    them. Prices and totals are integer cents, so sums are exact; timestamps
    are opaque integers supplied by the caller. */
module Models {

  /** A row of the products table. */
  datatype Product = Product(id: int, name: string, price: int, quantity: int, createdAt: int)

  /** The body of a product-creation request. */
  datatype CreateProductRequest = CreateProductRequest(name: string, price: int, quantity: int)

  /** A line of an order: a snapshot of the product's name and price at ordering time. */
  datatype OrderItem = OrderItem(id: int, orderId: int, productId: int, productName: string, quantity: int, price: int)

  datatype Order = Order(id: int, customerName: string, totalAmount: int, status: string,
                         items: seq<OrderItem>, createdAt: int)

  datatype CreateOrderItemRequest = CreateOrderItemRequest(productId: int, quantity: int)

  datatype CreateOrderRequest = CreateOrderRequest(customerName: string, items: seq<CreateOrderItemRequest>)

  /** One line of the event: which product, and how many units to take off its stock. */
  datatype OrderItemEvent = OrderItemEvent(productId: int, quantity: int)

  /** What the order service announces on the `order.created` queue. */
  datatype OrderCreatedEvent = OrderCreatedEvent(orderId: int, customerName: string, totalAmount: int,
                                                 items: seq<OrderItemEvent>)

  /** The zero values Go gives a fresh struct. */
  const ZeroProduct := Product(0, "", 0, 0, 0)
  const ZeroItemEvent := OrderItemEvent(0, 0)
  const ZeroEvent := OrderCreatedEvent(0, "", 0, [])
}
