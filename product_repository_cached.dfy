/** Cache-aside in front of the products table: reads try the cache first and
    fill it on a miss; writes go to the table and then drop the affected keys.
    Cache failures are logged and never reach the caller. */
module CachedProductRepository {
  import opened Common
  import opened Models
  import opened Decimal
  import opened Cache
  import opened ProductRepository

  /** `product:{id}`: the key of one product. */
  function ProductKey(id: int): (k: string)
    ensures |k| > 8 && k[..8] == "product:" && ParseInt(k[8..]) == Some(id)
  {
    ParseItoa(id);
    var k := "product:" + Itoa(id);
    assert k[8..] == Itoa(id);
    k
  }

  /** The key of the whole product list. */
  function AllProductsKey(): string {
    "products:all"
  }

  /** Distinct ids never share a key. */
  lemma ProductKeyInjective(a: int, b: int)
    requires ProductKey(a) == ProductKey(b)
    ensures a == b
  {
    var ka, kb := ProductKey(a), ProductKey(b);
    assert ka[8..] == kb[8..];
  }

  /** No product key is the list key. */
  lemma ProductKeyIsNotListKey(id: int)
    ensures ProductKey(id) != AllProductsKey()
  {
    var k := ProductKey(id);
    assert k[..8][7] == ':';
    assert k[7] != AllProductsKey()[7];
  }

  /** What a read of the list key yields: the cached list on a hit; None when
      the backend is down, the key is absent, or the value does not decode. */
  function CachedList(entries: map<string, CacheValue>, up: bool): (r: Option<seq<Product>>)
    ensures r.Some? <==> up && AllProductsKey() in entries && entries[AllProductsKey()].ProductListValue?
  {
    var key := AllProductsKey();
    if up && key in entries && AsProductList(entries[key]).Ok? then Some(AsProductList(entries[key]).value) else None
  }

  /** What a read of `product:{id}` yields, in the same way. */
  function CachedProduct(entries: map<string, CacheValue>, up: bool, id: int): (r: Option<Product>)
    ensures r.Some? ==> up && ProductKey(id) in entries
    ensures up && ProductKey(id) in entries && entries[ProductKey(id)].ProductValue? ==>
      r == Some(entries[ProductKey(id)].product)
  {
    var key := ProductKey(id);
    if up && key in entries && AsProduct(entries[key]).Ok? then Some(AsProduct(entries[key]).value) else None
  }

  class CachedProductRepository {
    const repo: ProductStore
    const cache: RedisCache

    constructor (repo: ProductStore, cache: RedisCache)
      ensures this.repo == repo && this.cache == cache
    {
      this.repo := repo;
      this.cache := cache;
    }

    /** A hit returns the cached list and leaves the store alone. On any
        failed read the store answers; its error is returned with the cache
        untouched, and its rows are cached (best effort) and returned. */
    method GetAll() returns (r: Result<seq<Product>>)
      requires repo.Valid()
      modifies cache`entries
      ensures old(CachedList(cache.entries, cache.up)).Some? ==>
        r == Ok(old(CachedList(cache.entries, cache.up)).value) && cache.entries == old(cache.entries)
      ensures old(CachedList(cache.entries, cache.up)).None? ==>
        && (r.Ok? <==> repo.available)
        && (r.Err? ==> cache.entries == old(cache.entries))
        && (r.Ok? ==> ListsTable(r.value, repo.rows)
                      && cache.entries == AfterSet(old(cache.entries), cache.up, AllProductsKey(), ProductListValue(r.value)))
    {
      var cached := cache.Get(AllProductsKey());
      if cached.Ok? && AsProductList(cached.value).Ok? {
        return Ok(AsProductList(cached.value).value);
      }
      var products := repo.GetAll();
      if products.Err? {
        return Err(products.msg);
      }
      var _ := cache.Set(AllProductsKey(), ProductListValue(products.value));
      r := Ok(products.value);
    }

    /** A hit returns the cached product. Otherwise the store answers: an
        error is returned, an absent row is `(nil, nil)` and caches nothing,
        and a found row is cached (best effort) and returned. */
    method GetByID(id: int) returns (r: Result<Option<Product>>)
      requires repo.Valid()
      modifies cache`entries
      ensures old(CachedProduct(cache.entries, cache.up, id)).Some? ==>
        r == Ok(Some(old(CachedProduct(cache.entries, cache.up, id)).value)) && cache.entries == old(cache.entries)
      ensures old(CachedProduct(cache.entries, cache.up, id)).None? ==>
        && (r.Ok? <==> repo.available)
        && (r.Ok? ==> (r.value.Some? <==> id in repo.rows))
        && (r.Ok? && r.value.Some? ==>
              r.value.value == repo.rows[id]
              && cache.entries == AfterSet(old(cache.entries), cache.up, ProductKey(id), ProductValue(repo.rows[id])))
        && (r.Err? || r.value.None? ==> cache.entries == old(cache.entries))
    {
      var cached := cache.Get(ProductKey(id));
      if cached.Ok? && AsProduct(cached.value).Ok? {
        return Ok(Some(AsProduct(cached.value).value));
      }
      var p := repo.GetByID(id);
      if p.Err? {
        return Err(p.msg);
      }
      if p.value.None? {
        return Ok(None);
      }
      var _ := cache.Set(ProductKey(id), ProductValue(p.value.value));
      r := Ok(p.value);
    }

    /** The row is written, then only the list key is dropped; the new
        product's own key is left for a later read to fill. */
    method Create(req: CreateProductRequest, createdAt: int) returns (r: Result<Product>)
      requires repo.Valid()
      modifies repo`rows, repo`nextId, cache`entries
      ensures repo.Valid()
      ensures r.Ok? <==> repo.available
      ensures r.Ok? ==>
        && r.value == Product(old(repo.nextId), req.name, req.price, req.quantity, createdAt)
        && repo.rows == old(repo.rows)[r.value.id := r.value]
        && repo.nextId == old(repo.nextId) + 1
        && cache.entries == AfterDelete(old(cache.entries), cache.up, AllProductsKey())
      ensures r.Err? ==> repo.rows == old(repo.rows) && repo.nextId == old(repo.nextId) && cache.entries == old(cache.entries)
    {
      r := repo.Create(req, createdAt);
      if r.Err? {
        return;
      }
      var _ := cache.Delete(AllProductsKey());
    }

    /** The row is deleted, then `product:{id}` and the list key are dropped;
        a failed delete touches neither table nor cache. */
    method Delete(id: int) returns (r: Outcome)
      requires repo.Valid()
      modifies repo`rows, cache`entries
      ensures repo.Valid()
      ensures r.Pass? <==> repo.available && id in old(repo.rows)
      ensures r.Pass? ==>
        && repo.rows == old(repo.rows) - {id}
        && cache.entries == AfterDelete(AfterDelete(old(cache.entries), cache.up, ProductKey(id)), cache.up, AllProductsKey())
      ensures r.Fail? ==> repo.rows == old(repo.rows) && cache.entries == old(cache.entries)
    {
      r := repo.Delete(id);
      if r.Fail? {
        return;
      }
      var _ := cache.Delete(ProductKey(id));
      var _ := cache.Delete(AllProductsKey());
    }
  }

  /** Listing after a successful create shows the new product when the cache
      is as reachable for the list as it was for the create: either the create
      dropped the stale list, or every read of the cache fails and goes to the
      store. StaleListAfterCacheFlap shows what happens otherwise. */
  method CreateThenGetAll(r: CachedProductRepository, req: CreateProductRequest, createdAt: int)
      returns (created: Result<Product>, listed: Result<seq<Product>>)
    requires r.repo.Valid()
    modifies r.repo`rows, r.repo`nextId, r.cache`entries
    ensures created.Ok? ==> listed.Ok? && created.value in listed.value
  {
    created := r.Create(req, createdAt);
    listed := r.GetAll();
    if created.Ok? {
      assert created.value.id in r.repo.rows;
    }
  }

  /** The cache is unreachable while a product is created and reachable again
      for the next list: the list key the create could not drop is served
      as it was, so a list cached before the create (an empty one, say) is
      returned without the new product. */
  method StaleListAfterCacheFlap(r: CachedProductRepository, req: CreateProductRequest, createdAt: int)
      returns (created: Result<Product>, listed: Result<seq<Product>>)
    requires r.repo.Valid()
    modifies r.repo`rows, r.repo`nextId, r.cache`entries, r.cache`up
    ensures created.Ok? && old(CachedList(r.cache.entries, true)).Some? ==>
      listed == Ok(old(CachedList(r.cache.entries, true)).value)
    ensures created.Ok? && old(r.cache.entries) == map[AllProductsKey() := ProductListValue([])] ==>
      created.value.id in r.repo.rows && listed == Ok([]) && created.value !in listed.value
  {
    r.cache.up := false;
    created := r.Create(req, createdAt);
    r.cache.up := true;
    listed := r.GetAll();
  }
}
