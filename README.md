# Order fulfilment in minisys-go, and the go-mongo-api user store

This project is a Dafny model of the order-fulfilment pipeline of `minisys-go`, with proofs about it. The pipeline runs as follows:

- The order service prices an order from product snapshots and stores it in one transaction. It then publishes an `order.created` event to the message broker, on a best-effort basis.
- The inventory consumer in the product service takes each event and decrements the stock of every line. It then acks the message, nacks it with requeue, or nacks it without requeue.
- The product repository sits behind a Redis cache-aside layer. A decrement that succeeds invalidates the cached product and the cached product list.
- The API gateway routes to the two services, using addresses found in Consul or hard-coded fallbacks. It also aggregates their health.

The model also covers two smaller components:

- The older single-item consumer in `cmd/product-service/main.go`.
- The in-memory user CRUD of `go-mongo-api`.

External systems become in-memory state with explicit failure switches:

- **PostgreSQL** becomes maps from id to row.
  - `ProductStore.available` and `OrderStore.available` make every query fail.
  - `ProductStore.rejected` holds the ids whose quantity update fails.
  - A `TxFault` parameter says which statement of the order transaction fails.
- **Redis** becomes a map from key to cached value. `RedisCache.up` makes every cache operation fail.
- **RabbitMQ** becomes an append-only list of publications, switched by `Broker.up`. An acknowledgement is `Ack | NackDiscard | NackRequeue`.
- **The HTTP call to the product service** becomes a function from id to a product or an error.
- **A Consul health query** becomes a list of instances, or an error.
- **JSON** is a small value type, `Json`. A body that is not JSON at all is `Unparsable`. The event codec follows the struct tags of `models/events.go`.
- **Money** is integer cents, so totals are exact.
- **Clock readings, fresh ids and the outbound IP** are parameters.

Modules, one per source component:

- `Common`: Option, Result and status codes.
- `Decimal`: `strconv.Itoa`/`Atoi`.
- `Models`: the records.
- `JsonCodec`: the JSON value type and the event codec.
- `Cache`: the Redis stand-in.
- `Messaging`: the broker stand-in.
- `ProductRepository` and `CachedProductRepository`.
- `InventoryConsumer` and `LegacyConsumer`.
- `OrderRepository`, `OrderPublisher` and `OrderHandler`.
- `Discovery` and `ApiGateway`.
- `UserApi`.
- `Pipeline`: end-to-end properties.

The source's own style decides the form of each part:

- Repositories, consumers, handlers and the gateway are classes whose methods update fields in place.
- Each such method is proved against a specification function: `ApplyItems`, `OnDeliveries`, `LegacyRun`, `QuantityUpdate`, `AfterSet`/`AfterDelete`, `Lines`/`Total`, `Rediscover`. The promised properties are lemmas about those functions.
- Projections and Consul selection are pure functions.

Where the code and the documented design differ, the model follows the code:

- **Failed registry lookup.** The gateway installs the hard-coded fallback URL and replaces the previous route, rather than keeping it (`ApiGateway.Rediscover`, `ApiGateway.DiscoveryRoutes`).
- **Cache invalidation in the inventory consumer.** It happens only for items whose decrement succeeded. The list key `products:all` is dropped only if at least one item succeeded (`InventoryConsumer.ApplyItemsCache`).
- **Legacy consumer and `OrderCreatedEvent`.** The legacy consumer reads flat `product_id`/`quantity` fields. It therefore acks every `OrderCreatedEvent` without any change (`LegacyConsumer.LegacyIgnoresOrderCreatedEvents`).
- **Legacy consumer call sites.** These do not type-check as written:
  - `main.go:47` calls a three-parameter function with two arguments.
  - `main.go:118` calls `Delete` without its context argument.

  The model follows the evident intent: after a successful decrement, `product:{id}` is deleted.
- **Numeric assertions in the legacy consumer.** The `.(float64)` type assertions are modelled as a panic, `Panicked`, that ends the consume loop. They are not a precondition.
- **User ids in `CreateUser`.** A user id is `"user_"` followed by the clock's nanoseconds. A create whose id is already taken overwrites that user (`UserApi.UserStore.CreateUser`).

## Model

| member | source | states |
|---|---|---|
| Decimal.Itoa | minisys-go/internal/discovery/consul.go:121 | the decimal rendering of an int is non-empty and all digits exactly when the int is not negative |
| Decimal.Atoi | minisys-go/internal/handlers/order.go:47 | a parsed id is within the 64-bit range and agrees with the unbounded parse |
| Decimal.ParseItoa | minisys-go/internal/discovery/consul.go:139 | parsing the decimal rendering of any int gives that int back |
| Decimal.AtoiItoa | minisys-go/internal/handlers/order.go:47 | `Atoi(Itoa(n)) == n` for every 64-bit n |
| Decimal.ItoaInjective | minisys-go/internal/db/product_repository_cached.go:26-28 | distinct ints have distinct decimal renderings |
| Decimal.DigitsValueOfNatDigits | minisys-go/internal/discovery/consul.go:139 | the digit string of a natural number reads back as that number |
| Decimal.NatDigits | minisys-go/internal/discovery/consul.go:139 | digit strings are all digits, with no leading zero, and have one digit exactly below 10 |
| Decimal.DigitChar | minisys-go/internal/discovery/consul.go:139 | the character of a digit is a digit with that value |
| JsonCodec.IntField | minisys-go/internal/models/events.go:4-15 | an absent field decodes to the zero value 0; a decoded `int` field fits Go's 64-bit `int`, and a number decodes exactly when it fits (an unmarshal type error otherwise) |
| JsonCodec.AmountField | minisys-go/internal/models/events.go:7 | an absent `float64` amount decodes to 0 and any number is accepted as it is |
| JsonCodec.StringField | minisys-go/internal/models/events.go:4-15 | an absent field decodes to the empty string |
| JsonCodec.DecodeItems | minisys-go/internal/models/events.go:11-15 | a decoded item array has one event per element, each with a product id and quantity that fit Go's `int` |
| JsonCodec.ItemsField | minisys-go/internal/models/events.go:8 | a decoded `items` field holds only items whose fields fit Go's `int` |
| JsonCodec.DecodeEvent | minisys-go/internal/models/events.go:4-15 | a decoded event's order id and item fields fit Go's `int` |
| JsonCodec.EncodeItems | minisys-go/internal/publisher/order_publisher.go:34-41 | the encoded array has one element per item |
| JsonCodec.DecodeGeneric | minisys-go/cmd/product-service/main.go:81-87 | unmarshalling into a generic map succeeds exactly for an object or `null` |
| JsonCodec.DecodeEncodeItems | minisys-go/internal/models/events.go:11-15 | decoding the encoded item list gives the items back when every product id and quantity fits Go's `int`, and a type error otherwise |
| JsonCodec.DecodeEncodeEvent | minisys-go/internal/publisher/order_publisher.go:28-41 | decoding an encoded `OrderCreatedEvent` gives the same event back exactly when its `int` fields fit Go's `int`, and a type error otherwise |
| JsonCodec.EncodedEventFields | minisys-go/internal/models/events.go:4-9 | each field of a marshalled event unmarshals to the event's own value; the order id does so only when it fits Go's `int` |
| JsonCodec.EncodedEventHasNoFlatFields | minisys-go/cmd/product-service/main.go:81-99 | an encoded event unmarshals into a generic map without `product_id` or `quantity` keys |
| Cache.AsProduct | minisys-go/internal/cache/redis.go:38-45 | a cached product value is read back as that product |
| Cache.AsProductList | minisys-go/internal/cache/redis.go:38-45 | a cached value reads as a product list exactly when it holds one |
| Cache.AfterSet | minisys-go/internal/cache/redis.go:48-55 | a set by a reachable cache stores the value under the key and changes no other key; an unreachable cache keeps every entry |
| Cache.AfterDelete | minisys-go/internal/cache/redis.go:58-60 | a delete by a reachable cache removes the key and nothing else; an unreachable cache keeps every entry |
| Cache.RedisCache.Get | minisys-go/internal/cache/redis.go:38-45 | a get succeeds exactly when the cache is up and the key is present, and then returns the stored value |
| Cache.RedisCache.Set | minisys-go/internal/cache/redis.go:48-55 | a set succeeds exactly when the cache is up, and the new entries are `AfterSet` of the old |
| Cache.RedisCache.Delete | minisys-go/internal/cache/redis.go:58-60 | a delete succeeds exactly when the cache is up, and the new entries are `AfterDelete` of the old |
| Messaging.Broker.Publish | minisys-go/internal/messaging/rabbitmq.go:56-73 | a publish succeeds exactly when the broker is up, and then appends one publication to the queue's log; otherwise the log is unchanged |
| ProductRepository.ListsTableEmpty | minisys-go/internal/db/product_repository.go:19-39 | a listing is empty exactly when the table is |
| ProductRepository.ListsTableHead | minisys-go/internal/db/product_repository.go:20 | two ascending listings of a table start with the same row |
| ProductRepository.ListsTableTail | minisys-go/internal/db/product_repository.go:20 | the rest of an ascending listing lists the table without its first row |
| ProductRepository.ListsTableUnique | minisys-go/internal/db/product_repository.go:19-39 | the ascending listing of a table is unique |
| ProductRepository.QuantityUpdate | minisys-go/cmd/product-service/main.go:112 | a quantity update succeeds exactly when the store is up, the id is not rejected and the row exists; it changes only that row's quantity, by the delta |
| ProductRepository.ProductStore.GetAll | minisys-go/internal/db/product_repository.go:19-39 | with the store up, every row once in ascending id order; otherwise an error, never an empty success |
| ProductRepository.ProductStore.GetByID | minisys-go/internal/db/product_repository.go:42-55 | an unknown id gives `(nil, nil)`, a known one its row, and a store failure an error |
| ProductRepository.ProductStore.Create | minisys-go/internal/db/product_repository.go:58-73 | one row is added with the requested fields and a fresh id, and returned; on error nothing changes |
| ProductRepository.ProductStore.Delete | minisys-go/internal/db/product_repository.go:76-90 | an unknown id fails with "product not found" and changes nothing; a known id removes only that row |
| ProductRepository.ProductStore.UpdateQuantity | minisys-go/cmd/product-service/main.go:112 | the new rows are `QuantityUpdate` of the old on success; on failure they are unchanged |
| CachedProductRepository.ProductKey | minisys-go/internal/db/product_repository_cached.go:26-28 | the key is `product:` followed by the decimal id, which parses back to the id |
| CachedProductRepository.ProductKeyInjective | minisys-go/internal/db/product_repository_cached.go:26-28 | distinct ids have distinct product keys |
| CachedProductRepository.ProductKeyIsNotListKey | minisys-go/internal/db/product_repository_cached.go:26-32 | no product key equals `products:all` |
| CachedProductRepository.CachedList | minisys-go/internal/db/product_repository_cached.go:37-46 | a list hit happens exactly when the cache is up and holds a product list under `products:all` |
| CachedProductRepository.CachedProduct | minisys-go/internal/db/product_repository_cached.go:64-76 | a product hit needs the cache up and the product key present, and a stored product is always a hit |
| CachedProductRepository.CachedProductRepository.GetAll | minisys-go/internal/db/product_repository_cached.go:35-59 | a hit returns the cached list without consulting the store; on any cache failure the store answers, a store error leaves the cache unchanged, and rows read are returned whether or not caching them succeeds |
| CachedProductRepository.CachedProductRepository.GetByID | minisys-go/internal/db/product_repository_cached.go:62-94 | a hit returns the cached product; a miss returns the store's answer, caches a found row (best effort), and caches nothing for an absent row or a store error |
| CachedProductRepository.CachedProductRepository.Create | minisys-go/internal/db/product_repository_cached.go:97-111 | a created row drops only `products:all` and never writes `product:{id}`; a store error leaves table and cache unchanged |
| CachedProductRepository.CachedProductRepository.Delete | minisys-go/internal/db/product_repository_cached.go:114-127 | a deleted row drops `product:{id}` and `products:all` and no other key; a store error leaves table and cache unchanged |
| CachedProductRepository.CreateThenGetAll | minisys-go/internal/db/product_repository_cached.go:97-111 | when the cache is as reachable for the list as it was for the create, listing after a successful create succeeds and contains the new product |
| CachedProductRepository.StaleListAfterCacheFlap | minisys-go/internal/db/product_repository_cached.go:97-111 | when the cache is down during a successful create and up for the next list, the list cached before the create is returned unchanged, so a cached empty list hides the new product |
| InventoryConsumer.OnDeliveries | minisys-go/internal/consumer/inventory_consumer.go:29-67 | each delivered message gets exactly one decision |
| InventoryConsumer.ApplyItemEffect | minisys-go/internal/consumer/inventory_consumer.go:44-57 | one item either decrements its product and drops its key and the list key, or changes nothing |
| InventoryConsumer.ApplyItemFlag | minisys-go/internal/consumer/inventory_consumer.go:45-48 | a line's outcome is whether its product's decrement succeeds, and no row appears or disappears |
| InventoryConsumer.ApplyItemEntries | minisys-go/internal/consumer/inventory_consumer.go:49-57 | a line whose decrement succeeds drops its product key and the list key from a reachable cache; otherwise the cache is untouched |
| InventoryConsumer.ApplyItemsKeys | minisys-go/internal/consumer/inventory_consumer.go:44-58 | handling an event's lines never adds or removes a product row |
| InventoryConsumer.ApplyItemsRows | minisys-go/internal/consumer/inventory_consumer.go:44-48 | every item is attempted, even after a failure: each product loses the units of its lines whose decrement succeeds, and no row is added or removed |
| InventoryConsumer.ApplyItemsSucceeds | minisys-go/internal/consumer/inventory_consumer.go:41-48 | the success flag holds exactly when every item's decrement succeeds, so an empty item list succeeds |
| InventoryConsumer.SucceededIdsStep | minisys-go/internal/consumer/inventory_consumer.go:44-57 | the ids decremented by a list are those of its prefix plus the last item's when that one succeeds |
| InventoryConsumer.DroppedProductKeysStep | minisys-go/internal/consumer/inventory_consumer.go:49-53 | the product keys dropped by a list extend those of its prefix by the last item's key when it succeeds |
| InventoryConsumer.AnySucceedsStep | minisys-go/internal/consumer/inventory_consumer.go:54-57 | some item of a list succeeds exactly when one of the prefix does or the last does |
| InventoryConsumer.InvalidatedStep | minisys-go/internal/consumer/inventory_consumer.go:49-57 | the invalidated keys of a list are those of the prefix plus the last item's two keys when it succeeds |
| InventoryConsumer.ApplyItemsCache | minisys-go/internal/consumer/inventory_consumer.go:49-57 | with the cache up, exactly the keys of items whose decrement succeeded, plus `products:all` if any did, are removed; with it down, the cache is untouched |
| InventoryConsumer.FailedItemKeepsItsKey | minisys-go/internal/consumer/inventory_consumer.go:49-57 | a product none of whose lines succeeded keeps its cached entry |
| InventoryConsumer.DeliveryDecision | minisys-go/internal/consumer/inventory_consumer.go:32-66 | an undecodable body is nacked without requeue and changes nothing; otherwise it is acked when all items succeed and nacked with requeue when any fails |
| InventoryConsumer.OnDeliveriesAppend | minisys-go/internal/consumer/inventory_consumer.go:29 | messages are handled one at a time in channel order: two batches in sequence equal their concatenation |
| InventoryConsumer.DecisionOfEachDelivery | minisys-go/internal/consumer/inventory_consumer.go:29-67 | the k-th decision is that of the k-th message in the state left by the first k |
| InventoryConsumer.RedeliveryAppliesAgain | minisys-go/internal/consumer/inventory_consumer.go:44-46 | processing is not idempotent: a redelivered event decrements a successful product again, with no dedup on the order id |
| InventoryConsumer.OrderedOfTwo | minisys-go/internal/consumer/inventory_consumer.go:44-46 | the units ordered of a product by two lines are the sum of each line's units for it |
| InventoryConsumer.PartialFailureThenRedelivery | minisys-go/internal/consumer/inventory_consumer.go:44-66 | a two-item event whose second decrement fails is nacked with requeue after the first product was decremented; redelivered once the failure clears, it is acked and the first product has lost its units twice |
| InventoryConsumer.InventoryConsumer.constructor | minisys-go/internal/consumer/inventory_consumer.go:20-25 | the consumer holds the given repository and cache |
| InventoryConsumer.InventoryConsumer.ProcessItem | minisys-go/internal/consumer/inventory_consumer.go:44-57 | the new store and cache and the item's outcome are those of `ApplyItem` |
| InventoryConsumer.InventoryConsumer.ProcessDelivery | minisys-go/internal/consumer/inventory_consumer.go:30-66 | the new store and cache and the decision are those of `OnDelivery` |
| InventoryConsumer.InventoryConsumer.ProcessOrderCreated | minisys-go/internal/consumer/inventory_consumer.go:28-68 | the new store and cache and the decisions are those of `OnDeliveries` |
| LegacyConsumer.LegacyRun | minisys-go/cmd/product-service/main.go:80-123 | messages are handled in arrival order, one decision each, until a panic; every decision but the last is an ack |
| LegacyConsumer.LegacyIgnoresOrderCreatedEvents | minisys-go/cmd/product-service/main.go:92-97 | an `OrderCreatedEvent` lacks `product_id`, so it is acked with no store or cache change |
| LegacyConsumer.LegacyFlatEvent | minisys-go/cmd/product-service/main.go:106-122 | a flat event is acked whatever happens; it decrements the stock by `quantity` when the update succeeds, leaves `products:all` alone, and drops `product:{id}` only after a successful decrement |
| LegacyConsumer.FlatEventOutcome | minisys-go/cmd/product-service/main.go:92-122 | a flat event with numeric fields takes the decrement path: when the update succeeds the rows are updated and `product:{id}` is dropped, otherwise nothing changes; either way it is acked |
| LegacyConsumer.LegacyRunAfterCrash | minisys-go/cmd/product-service/main.go:80-107 | once a message panics, no later message is processed |
| LegacyConsumer.LegacyConsumer.constructor | minisys-go/cmd/product-service/main.go:64 | the consumer holds the given repository and cache |
| LegacyConsumer.LegacyConsumer.HandleDelivery | minisys-go/cmd/product-service/main.go:81-122 | the new store and cache and the decision are those of `LegacyOnDelivery` |
| LegacyConsumer.LegacyConsumer.StartEventConsumer | minisys-go/cmd/product-service/main.go:80-123 | the new store and cache and the decisions are those of `LegacyRun` |
| OrderRepository.Stamp | minisys-go/internal/db/order_repository.go:45-57 | stamping keeps one line per item |
| OrderRepository.OrderStore.constructor | minisys-go/internal/db/order_repository.go:14-16 | both tables start empty and both sequences start at 1 |
| OrderRepository.OrderStore.Create | minisys-go/internal/db/order_repository.go:19-65 | the insert commits exactly when the store is up and no statement fails; on commit the order row holds the given name, total and status under a fresh id, and one row per item carries that order id; on any failure both tables are unchanged |
| OrderRepository.OrderStore.GetAll | minisys-go/internal/db/order_repository.go:68-88 | every order once, in descending id order, without items |
| OrderRepository.OrderStore.GetByID | minisys-go/internal/db/order_repository.go:91-124 | an unknown id gives `(nil, nil)`; a known one gives its row with exactly the item rows whose order id matches |
| OrderRepository.OrderStore.UpdateStatus | minisys-go/internal/db/order_repository.go:127-141 | a missing order fails with "order not found"; otherwise only that order's status changes |
| OrderRepository.ReadBackLines | minisys-go/internal/db/order_repository.go:106-121 | the lines read back for a new order are exactly the rows it inserted |
| OrderRepository.CreateThenGet | minisys-go/internal/db/order_repository.go:19-124 | an order read back after a successful create has the stored fields and exactly the created items |
| OrderPublisher.ItemEvents | minisys-go/internal/publisher/order_publisher.go:34-39 | the event has one item per order line, in order, each carrying that line's product id and quantity only |
| OrderPublisher.PublishedEventDecodes | minisys-go/internal/publisher/order_publisher.go:28-41 | the published event decodes exactly when the order's id, product ids and quantities fit Go's `int`, and then yields the order's id, customer, total and the item events the consumer iterates over |
| OrderPublisher.OrderPublisher.constructor | minisys-go/internal/publisher/order_publisher.go:17-24 | the publisher holds the given broker |
| OrderPublisher.OrderPublisher.PublishOrderCreated | minisys-go/internal/publisher/order_publisher.go:27-47 | the encoded event is appended to queue `order.created` exactly when the broker is up, and a publish error is returned unchanged |
| OrderHandler.AsRequests | minisys-go/internal/models/order.go:23-32 | decoded request items keep their product id and quantity, in order |
| OrderHandler.BindCreateOrder | minisys-go/internal/handlers/order.go:69-73 | a bound request has a non-empty customer name and an items array |
| OrderHandler.BindStatus | minisys-go/internal/handlers/order.go:130-136 | a status binds exactly when the body is an object with a `status` field, and then it is non-empty |
| OrderHandler.Lines | minisys-go/internal/handlers/order.go:83-100 | a successful pricing has one line per request item |
| OrderHandler.LinesResolve | minisys-go/internal/handlers/order.go:83-100 | pricing succeeds exactly when every lookup does; then line i carries product i's id, name and price and the requested quantity |
| OrderHandler.LinesFirstFailure | minisys-go/internal/handlers/order.go:85-89 | the error returned is that of the first failing lookup |
| OrderHandler.LinesErrorPersists | minisys-go/internal/handlers/order.go:85-89 | once a lookup fails, later items do not change the outcome |
| OrderHandler.TotalAppend | minisys-go/internal/handlers/order.go:98-102 | the total of two line lists is the sum of their totals |
| OrderHandler.OrderHandler.constructor | minisys-go/internal/handlers/order.go:21-27 | the handler holds the given repository and publisher |
| OrderHandler.OrderHandler.ListOrders | minisys-go/internal/handlers/order.go:35-43 | 200 with every order in descending id order, or 500 when the store fails |
| OrderHandler.OrderHandler.GetOrder | minisys-go/internal/handlers/order.go:46-65 | a non-integer id gives 400, a store error 500, an absent order 404, and a found order 200 with exactly its items |
| OrderHandler.OrderHandler.PriceLines | minisys-go/internal/handlers/order.go:81-102 | the pricing loop returns the first lookup error, or the lines of `Lines` with the running total equal to their `Total` |
| OrderHandler.OrderHandler.CreateOrder | minisys-go/internal/handlers/order.go:68-120 | a bad body or failed lookup gives 400 with nothing stored or published; a failed insert gives 500 with nothing published; otherwise exactly one order row (new id, customer, total the sum of price × quantity, `pending`, the clock reading) and one item row per stamped line are added, 201 returns that order, and the event is published when the broker is up; the 201 does not depend on the publish |
| OrderHandler.OrderHandler.UpdateOrderStatus | minisys-go/internal/handlers/order.go:123-156 | a non-integer id, an unbindable body or a status outside the five gives 400 before the store is touched; a store error gives 404; otherwise only that order's status changes and 200 is returned |
| Pipeline.HealthyApplyItems | minisys-go/internal/consumer/inventory_consumer.go:41-62 | with every backend up and every product present, all items succeed, stock falls by the units ordered, and every item's key and the list key are dropped |
| Pipeline.PublishedOrderIsConsumed | minisys-go/internal/publisher/order_publisher.go:27-47 | the event published for an order whose integers fit Go's `int` is acked by a healthy consumer, which decrements each product by exactly the units ordered and drops its cache keys; any other event is discarded with nothing changed |
| Pipeline.CheckoutTotal | minisys-go/internal/handlers/order.go:83-102 | two units at 10.00 and one at 5.00 price to the two snapshot lines and a 25.00 total |
| Pipeline.CheckoutConsumption | minisys-go/internal/consumer/inventory_consumer.go:28-68 | consuming that order acks it and takes the stocks from 10 and 5 to 8 and 4 |
| Discovery.GetService | minisys-go/internal/discovery/consul.go:94-112 | a query error or no healthy instance is an error with the source's message; otherwise the first instance is returned with an empty address replaced by `localhost` |
| Discovery.GetServiceURL | minisys-go/internal/discovery/consul.go:115-122 | succeeds exactly when the lookup does and propagates its error |
| Discovery.GetServicePort | minisys-go/internal/discovery/consul.go:135-141 | succeeds exactly when the lookup does and propagates its error |
| Discovery.ServiceURLShape | minisys-go/internal/discovery/consul.go:115-122 | the URL is `http://` + address + `:` + decimal port, with the port string of `GetServicePort` |
| Discovery.ServicePortRoundTrip | minisys-go/internal/discovery/consul.go:135-141 | the port string parses back to the first instance's port |
| Discovery.Register | minisys-go/internal/discovery/consul.go:56-80 | registration succeeds exactly when the agent accepts it, with the config's id, name, port and tags, the outbound address, and a check every 10s with a 5s timeout, deregistered after 30s |
| Discovery.HealthCheckProbesServiceURL | minisys-go/internal/discovery/consul.go:59-71 | the health check probes `http://{ip}:{port}/health` |
| ApiGateway.AfterUpdate | minisys-go/cmd/api-gateway/main.go:56-76 | a parsable URL sets that name's route and no other; an unparsable one changes nothing |
| ApiGateway.FallbacksParse | minisys-go/cmd/api-gateway/main.go:44-49 | both fallback URLs parse |
| ApiGateway.RediscoverKnown | minisys-go/cmd/api-gateway/main.go:38-52 | a rediscovery updates the product service's route and then the order service's, each from its own lookup |
| ApiGateway.DiscoveryRoutes | minisys-go/cmd/api-gateway/main.go:37-54 | discovery changes only the two services' routes: a failed lookup installs the fixed fallback, replacing any previous route; a found URL that parses is installed; one that does not parse leaves the previous route |
| ApiGateway.Gateway.constructor | minisys-go/cmd/api-gateway/main.go:24-35 | the tables start empty and are filled by one discovery |
| ApiGateway.Gateway.UpdateProxy | minisys-go/cmd/api-gateway/main.go:56-76 | the route table becomes `AfterUpdate` of the old, and the proxy and URL tables stay in step |
| ApiGateway.Gateway.DiscoverServices | minisys-go/cmd/api-gateway/main.go:37-54 | the route table becomes `Rediscover` over the two services |
| ApiGateway.Gateway.GetProxy | minisys-go/cmd/api-gateway/main.go:85-89 | a proxy exists exactly for a routed name, targeting its URL |
| ApiGateway.Gateway.ProxyProducts | minisys-go/cmd/api-gateway/main.go:91-99 | an unrouted product service gives 503 and no forwarding; otherwise the request is forwarded to its URL |
| ApiGateway.Gateway.ProxyOrders | minisys-go/cmd/api-gateway/main.go:101-109 | an unrouted order service gives 503 and no forwarding; otherwise the request is forwarded to its URL |
| ApiGateway.Gateway.HealthCheck | minisys-go/cmd/api-gateway/main.go:111-143 | one status per routed service; overall "healthy" exactly when every probe returned 200, else "degraded", so an empty table is healthy |
| ApiGateway.Gateway.ListServices | minisys-go/cmd/api-gateway/main.go:145-149 | the route table as it is |
| UserApi.UserId | go-mongo-api/cmd/api/main.go:116 | a minted id starts with `user_` |
| UserApi.UserIdInjective | go-mongo-api/cmd/api/main.go:116 | different clock readings mint different ids |
| UserApi.UserStore.constructor | go-mongo-api/cmd/api/main.go:33 | the store starts empty |
| UserApi.UserStore.CreateUser | go-mongo-api/cmd/api/main.go:95-128 | an undecodable body or an empty name or email gives 400 with the map unchanged; otherwise the user is stored under the minted id with its creation time, other entries unchanged, and 201 returned |
| UserApi.UserStore.GetAllUsers | go-mongo-api/cmd/api/main.go:131-143 | exactly the map's users, each once, with count equal to the map's size |
| UserApi.UserStore.GetUser | go-mongo-api/cmd/api/main.go:146-166 | an absent id gives 404, a present one 200 with its user |
| UserApi.UserStore.UpdateUser | go-mongo-api/cmd/api/main.go:169-205 | an absent id gives 404 before the body is read; otherwise every field but the id and creation time is replaced, with no name or email check |
| UserApi.UserStore.DeleteUser | go-mongo-api/cmd/api/main.go:208-228 | an absent id gives 404 with the map unchanged; otherwise only that key is removed; every user stays stored under its own id |
| UserApi.UserStore.HomeHandler | go-mongo-api/cmd/api/main.go:83-92 | `total_users` is the number of stored users |
| UserApi.CreateThenRead | go-mongo-api/cmd/api/main.go:95-166 | a created user is found under the id in the reply, and the listing grows by one unless the minted id was taken |

## Left out

- HTTP transport, gin binding and JSON rendering: only the status code and payload chosen are modelled. `binding:"required"` is modelled for the fields the handlers rely on; validator tags on slice elements are not.
- `OrderHandler.OrderHandler.ListOrders`: Go renders an empty order list as `null`; the model returns an empty sequence.
- JSON decoding is over an abstract value type: floats, case-insensitive key matching, duplicate keys and `time.Time` parsing are not modelled; numbers are integers. Fields of Go type `int` reject numbers outside 64 bits; the `float64` amount accepts any number, with no rounding.
- Money is exact integer cents, not `float64`; rounding of the running total is not modelled.
- `OrderPublisher.OrderPublisher.PublishOrderCreated`: the marshal-error path is not modelled, because with integer money every event encodes.
- `NewOrderPublisher` and `DeclareQueue`, `Consume`, connection set-up and closing: process wiring over unseen client libraries.
- `cache/redis.go` TTL expiry, `DeleteByPattern` and `Close`: time-based or unused by the core.
- `ProductRepository.ProductStore.UpdateQuantity`: the repository method is not defined in the shown source; it is modelled as failing when the store is down, the id is in the `rejected` set, or no row matches.
- `client/product_client.go` is not part of this model: the product lookup is a parameter returning a product or an error.
- Consul `Deregister`, `GetAllServices` and `NewConsulClient`, and `getOutboundIP`'s UDP dial: the dialled address is a parameter, with `127.0.0.1` when the dial fails.
- The gateway's `watchServices` ticker, its `sync.RWMutex` and concurrent requests: table operations are modelled sequentially.
- The gateway's nil-Consul start-up path (`cmd/api-gateway/main.go:154-159`), which would dereference a nil client: the gateway always takes a registry query function.
- `ApiGateway.UrlParses`: `url.Parse` is modelled only by its rejections of control characters and of a leading colon.
- `httputil.ReverseProxy.ServeHTTP` and the proxy `ErrorHandler`: forwarding is a `Forward(target)` reply.
- `main` functions, signal handling, startup configuration and `cmd/order-service/main.go`.
- The health endpoints of the order service and the user API: each is a constant reply.
- `OrderRepository.OrderStore.GetByID`: the order of item rows is not promised, only which rows are returned.
- Clock readings and `time.Now`-derived ids are parameters.
- CachedProductRepository.CreateThenGetAll: promises the new product in the list only when the cache's reachability is the same for both calls. The two operations are sequential. A cache that fails for the create's invalidation and recovers for the list serves the stale list (`CachedProductRepository.StaleListAfterCacheFlap`). A list read racing the invalidation is not modelled.
- InventoryConsumer.ApplyItemsRows, InventoryConsumer.ApplyItemsCache, InventoryConsumer.FailedItemKeepsItsKey: a failure is decided per delivery and per product. It depends on whether the store and cache are up for the whole delivery and on a set of rejected product ids. Independent failures of separate `UpdateQuantity` calls, or of only one of a line's two cache deletes, are not captured.
- LegacyConsumer: `int(x.(float64))` is modelled as the integer itself. Truncation of fractional numbers and out-of-range conversions are not modelled.
