/** The products table: the system of record for products. An absent row is
    reported as "no product", never as an error; a store failure is always an
    error. */
module ProductRepository {
  import opened Common
  import opened Models

  /** Ids increase strictly along the sequence. */
  predicate Ascending(s: seq<Product>) {
    forall i, j :: 0 <= i < j < |s| ==> s[i].id < s[j].id
  }

  /** `s` is the table's rows in `ORDER BY id` order: every element is a row,
      every row is an element, ids ascending. */
  predicate ListsTable(s: seq<Product>, rows: map<int, Product>) {
    && Ascending(s)
    && (forall i :: 0 <= i < |s| ==> s[i].id in rows && rows[s[i].id] == s[i])
    && (forall id :: id in rows ==> rows[id] in s)
  }

  /** Every row is stored under its own id. */
  predicate KeyedById(rows: map<int, Product>) {
    forall id :: id in rows ==> rows[id].id == id
  }

  lemma ListsTableEmpty(s: seq<Product>, rows: map<int, Product>)
    requires ListsTable(s, rows)
    ensures s == [] <==> rows == map[]
  {
    if s != [] {
      assert s[0].id in rows;
    }
    if s == [] {
      assert forall id :: id !in rows;
      assert rows == map[];
    }
  }

  lemma ListsTableHead(s1: seq<Product>, s2: seq<Product>, rows: map<int, Product>)
    requires ListsTable(s1, rows) && ListsTable(s2, rows)
    requires s1 != [] && s2 != []
    ensures s1[0] == s2[0]
  {
    var x := s1[0].id;
    assert rows[x] in s2;
    var j :| 0 <= j < |s2| && s2[j] == rows[x];
    assert rows[s2[0].id] in s1;
    var i :| 0 <= i < |s1| && s1[i] == rows[s2[0].id];
    assert x <= s1[i].id == s2[0].id <= s2[j].id == x;
  }

  lemma ListsTableTail(s: seq<Product>, rows: map<int, Product>)
    requires KeyedById(rows) && ListsTable(s, rows) && s != []
    ensures KeyedById(rows - {s[0].id}) && ListsTable(s[1..], rows - {s[0].id})
  {
    var rest := rows - {s[0].id};
    forall id | id in rest ensures rest[id] in s[1..] {
      var k :| 0 <= k < |s| && s[k] == rows[id];
      assert k != 0;
      assert s[1..][k - 1] == rest[id];
    }
    forall i | 0 <= i < |s[1..]| ensures s[1..][i].id in rest {
      assert s[0].id < s[i + 1].id;
    }
  }

  /** There is only one way to list a table in id order. */
  lemma {:induction false} ListsTableUnique(s1: seq<Product>, s2: seq<Product>, rows: map<int, Product>)
    requires KeyedById(rows)
    requires ListsTable(s1, rows) && ListsTable(s2, rows)
    ensures s1 == s2
  {
    ListsTableEmpty(s1, rows);
    ListsTableEmpty(s2, rows);
    if s1 != [] {
      ListsTableHead(s1, s2, rows);
      ListsTableTail(s1, rows);
      ListsTableTail(s2, rows);
      ListsTableUnique(s1[1..], s2[1..], rows - {s1[0].id});
      assert s1 == [s1[0]] + s1[1..] && s2 == [s2[0]] + s2[1..];
    }
  }

  /** The abstract fallible stock update: it fails while the database is down,
      for a row the database currently rejects, and for a missing row (no row
      affected); otherwise it adds `delta` to that row's quantity. */
  function QuantityUpdate(rows: map<int, Product>, available: bool, rejected: set<int>, id: int, delta: int)
    : (r: Option<map<int, Product>>)
    ensures r.Some? <==> available && id !in rejected && id in rows
    ensures r.Some? ==> r.value.Keys == rows.Keys
    ensures r.Some? ==> forall k :: k in rows && k != id ==> r.value[k] == rows[k]
    ensures r.Some? ==> r.value[id] == rows[id].(quantity := rows[id].quantity + delta)
  {
    if available && id !in rejected && id in rows then
      Some(rows[id := rows[id].(quantity := rows[id].quantity + delta)])
    else None
  }

  class ProductStore {
    var rows: map<int, Product>
    /** The next value of the id sequence. */
    var nextId: int
    /** False while the database is unreachable: every statement fails. */
    var available: bool
    /** Ids whose quantity updates the database currently refuses. */
    var rejected: set<int>

    ghost predicate Valid()
      reads this
    {
      && 1 <= nextId
      && KeyedById(rows)
      && forall id :: id in rows ==> 1 <= id < nextId
    }

    constructor (available: bool)
      ensures Valid() && rows == map[] && nextId == 1
      ensures this.available == available && rejected == {}
    {
      rows := map[];
      nextId := 1;
      this.available := available;
      rejected := {};
    }

    /** `SELECT ... FROM products ORDER BY id`, appending each scanned row. */
    method GetAll() returns (r: Result<seq<Product>>)
      requires Valid()
      ensures r.Ok? <==> available
      ensures r.Ok? ==> ListsTable(r.value, rows)
    {
      if !available {
        return Err("failed to query products: connection refused");
      }
      var products: seq<Product> := [];
      var id := 1;
      while id < nextId
        invariant 1 <= id <= nextId
        invariant Ascending(products)
        invariant forall i :: 0 <= i < |products| ==>
          products[i].id < id && products[i].id in rows && rows[products[i].id] == products[i]
        invariant forall k :: k in rows && k < id ==> rows[k] in products
      {
        if id in rows {
          products := products + [rows[id]];
        }
        id := id + 1;
      }
      r := Ok(products);
    }

    /** `SELECT ... WHERE id = $1`: no row is `(nil, nil)`. */
    method GetByID(id: int) returns (r: Result<Option<Product>>)
      requires Valid()
      ensures r.Ok? <==> available
      ensures r.Ok? ==> (r.value.Some? <==> id in rows)
      ensures r.Ok? && r.value.Some? ==> r.value.value == rows[id] && r.value.value.id == id
    {
      if !available {
        r := Err("failed to get product: connection refused");
      } else if id !in rows {
        r := Ok(None);
      } else {
        r := Ok(Some(rows[id]));
      }
    }

    /** `INSERT ... RETURNING`: one new row with the next id. */
    method Create(req: CreateProductRequest, createdAt: int) returns (r: Result<Product>)
      requires Valid()
      modifies this`rows, this`nextId
      ensures Valid()
      ensures r.Ok? <==> available
      ensures r.Ok? ==> r.value == Product(old(nextId), req.name, req.price, req.quantity, createdAt)
      ensures r.Ok? ==> old(nextId) !in old(rows) && rows == old(rows)[old(nextId) := r.value] && nextId == old(nextId) + 1
      ensures r.Err? ==> rows == old(rows) && nextId == old(nextId)
    {
      if !available {
        return Err("failed to create product: connection refused");
      }
      var p := Product(nextId, req.name, req.price, req.quantity, createdAt);
      rows := rows[nextId := p];
      nextId := nextId + 1;
      r := Ok(p);
    }

    /** `DELETE ... WHERE id = $1`; no row affected is "product not found". */
    method Delete(id: int) returns (r: Outcome)
      requires Valid()
      modifies this`rows
      ensures Valid()
      ensures r.Pass? <==> available && id in old(rows)
      ensures r.Fail? && available ==> r.msg == "product not found"
      ensures rows == if r.Pass? then old(rows) - {id} else old(rows)
    {
      if !available {
        r := Fail("failed to delete product: connection refused");
      } else if id !in rows {
        r := Fail("product not found");
      } else {
        rows := rows - {id};
        r := Pass;
      }
    }

    /** The stock update the consumers call. */
    method UpdateQuantity(id: int, delta: int) returns (r: Outcome)
      requires Valid()
      modifies this`rows
      ensures Valid()
      ensures r.Pass? <==> QuantityUpdate(old(rows), available, rejected, id, delta).Some?
      ensures rows == if r.Pass? then QuantityUpdate(old(rows), available, rejected, id, delta).value else old(rows)
    {
      var u := QuantityUpdate(rows, available, rejected, id, delta);
      if u.Some? {
        rows := u.value;
        r := Pass;
      } else {
        r := Fail("failed to update quantity");
      }
    }
  }
}
