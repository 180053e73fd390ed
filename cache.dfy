/** The Redis cache as the services use it: a map from key to stored JSON value.
    While the backend is down every operation fails, and callers ignore or log
    the failure. Expiry is not modelled. */
module Cache {
  import opened Common
  import opened Models

  /** What a key holds: the JSON of one product, or of a list of products. */
  datatype CacheValue = ProductValue(product: Product) | ProductListValue(products: seq<Product>)

  /** Unmarshalling a cached value into a `Product`. A list is a JSON array,
      which is an error, except the empty list: the store hands back a nil
      slice for an empty table, it is cached as `null`, and `null` leaves the
      zero product without an error. */
  function AsProduct(v: CacheValue): (r: Result<Product>)
    ensures v.ProductValue? ==> r == Ok(v.product)
  {
    match v
    case ProductValue(p) => Ok(p)
    case ProductListValue(ps) => if ps == [] then Ok(ZeroProduct) else Err("json: cannot unmarshal array into Go value of type models.Product")
  }

  /** Unmarshalling a cached value into `[]Product`: an object is an error. */
  function AsProductList(v: CacheValue): (r: Result<seq<Product>>)
    ensures r.Ok? <==> v.ProductListValue?
  {
    match v
    case ProductListValue(ps) => Ok(ps)
    case ProductValue(_) => Err("json: cannot unmarshal object into Go value of type []models.Product")
  }

  function AfterSet(entries: map<string, CacheValue>, up: bool, key: string, v: CacheValue): (m: map<string, CacheValue>)
    ensures up ==> key in m && m[key] == v && m - {key} == entries - {key}
    ensures !up ==> m == entries
  {
    if up then entries[key := v] else entries
  }

  function AfterDelete(entries: map<string, CacheValue>, up: bool, key: string): (m: map<string, CacheValue>)
    ensures up ==> key !in m && m - {key} == entries - {key}
    ensures !up ==> m == entries
  {
    if up then entries - {key} else entries
  }

  class RedisCache {
    var entries: map<string, CacheValue>
    var up: bool

    constructor (up: bool)
      ensures entries == map[] && this.up == up
    {
      entries := map[];
      this.up := up;
    }

    /** A missing key reports `redis.Nil`; a down backend reports its error. */
    method Get(key: string) returns (r: Result<CacheValue>)
      ensures r.Ok? <==> up && key in entries
      ensures r.Ok? ==> r.value == entries[key]
    {
      if !up {
        r := Err("redis: connection refused");
      } else if key !in entries {
        r := Err("redis: nil");
      } else {
        r := Ok(entries[key]);
      }
    }

    method Set(key: string, v: CacheValue) returns (r: Outcome)
      modifies this`entries
      ensures r.Pass? <==> up
      ensures entries == AfterSet(old(entries), up, key, v)
    {
      if up {
        entries := entries[key := v];
        r := Pass;
      } else {
        r := Fail("redis: connection refused");
      }
    }

    method Delete(key: string) returns (r: Outcome)
      modifies this`entries
      ensures r.Pass? <==> up
      ensures entries == AfterDelete(old(entries), up, key)
    {
      if up {
        entries := entries - {key};
        r := Pass;
      } else {
        r := Fail("redis: connection refused");
      }
    }
  }
}
