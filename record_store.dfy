/** The in-memory record store standing for the two MongoDB collections (`Order`, `Product`)
    and the queries the services issue against them. */
module Store {
  import opened Wrappers
  import opened Domain
  import opened Seqs

  /** Ids along a collection strictly increase: documents are appended with fresh ids. */
  ghost predicate IdsIncreasing<T>(s: seq<Stored<T>>) {
    forall i, j :: 0 <= i < j < |s| ==> s[i].oid < s[j].oid
  }

  ghost predicate IdsBelow<T>(s: seq<Stored<T>>, bound: nat) {
    forall x :: x in s ==> x.oid < bound
  }

  /** The ids of a collection's documents, in collection order. */
  function Oids<T>(s: seq<Stored<T>>): (r: seq<ObjectId>)
    ensures |r| == |s| && forall i :: 0 <= i < |s| ==> r[i] == s[i].oid
  {
    seq(|s|, i requires 0 <= i < |s| => s[i].oid)
  }

  /** `insertMany`: the documents stored with consecutive fresh ids from `start`. */
  function Allocate<T>(start: nat, docs: seq<T>): (r: seq<Stored<T>>)
    ensures |r| == |docs|
    ensures forall i :: 0 <= i < |docs| ==> r[i] == Stored(start + i, docs[i])
  {
    seq(|docs|, i requires 0 <= i < |docs| => Stored(start + i, docs[i]))
  }

  /** `{ date_created: { $lt: cutoff } }` */
  function IsOlder(cutoff: int): Stored<Order> -> bool {
    (o: Stored<Order>) => o.doc.dateCreated < cutoff
  }

  /** `{ _id: { $in: ids } }` */
  function HasIdIn<T>(ids: seq<ObjectId>): Stored<T> -> bool {
    (x: Stored<T>) => x.oid in ids
  }

  /** `{ _id: { $in: refs } }` where the refs are an order's line items (a null matches nothing) */
  function HasRefIn<T>(refs: seq<ProductRef>): Stored<T> -> bool {
    (x: Stored<T>) => Some(x.oid) in refs
  }

  /** Whether an order lists the product among its line items (`{ line_items: id }`). */
  predicate References(o: Stored<Order>, id: ObjectId) {
    Some(id) in o.doc.lineItems
  }

  /** `Order.findOne({ order_key: key })`: the first order with that key. */
  function FindOrderByKey(orders: seq<Stored<Order>>, key: string): (r: Option<Stored<Order>>)
    ensures r.Some? ==> r.value in orders && r.value.doc.orderKey == key
    ensures r.None? <==> forall i :: 0 <= i < |orders| ==> orders[i].doc.orderKey != key
  {
    if |orders| == 0 then None
    else if orders[0].doc.orderKey == key then Some(orders[0])
    else FindOrderByKey(orders[1..], key)
  }

  /** `Product.findOne({ product_id: id })`: the first product with that external id. */
  function FindProductByExternalId(products: seq<Stored<Product>>, productId: int): (r: Option<Stored<Product>>)
    ensures r.Some? ==> r.value in products && r.value.doc.productId == productId
    ensures r.None? <==> forall i :: 0 <= i < |products| ==> products[i].doc.productId != productId
  {
    if |products| == 0 then None
    else if products[0].doc.productId == productId then Some(products[0])
    else FindProductByExternalId(products[1..], productId)
  }

  /** Appending a product keeps every existing lookup and makes the new product findable
      by its external id when no earlier one has it. */
  lemma {:induction false} FindProductAfterAppend(products: seq<Stored<Product>>, s: Stored<Product>, productId: int)
    ensures FindProductByExternalId(products + [s], productId) ==
      if FindProductByExternalId(products, productId).Some? then FindProductByExternalId(products, productId)
      else if s.doc.productId == productId then Some(s)
      else None
  {
    if |products| == 0 {
      assert products + [s] == [s];
      assert [s][1..] == [];
    } else if products[0].doc.productId != productId {
      assert (products + [s])[1..] == products[1..] + [s];
      FindProductAfterAppend(products[1..], s, productId);
    }
  }

  /** `Order.countDocuments({ line_items: id })` */
  function RefCount(orders: seq<Stored<Order>>, id: ObjectId): (n: nat)
    ensures n <= |orders|
    ensures n == 0 <==> forall i :: 0 <= i < |orders| ==> !References(orders[i], id)
  {
    if |orders| == 0 then 0
    else (if References(orders[0], id) then 1 else 0) + RefCount(orders[1..], id)
  }

  /** The update of `findOneAndUpdate({ order_key: key }, { status })`: the first order with
      that key gets the new status, every other order is left alone. */
  function SetFirstStatus(orders: seq<Stored<Order>>, key: string, status: string): (r: seq<Stored<Order>>)
    ensures |r| == |orders|
    ensures forall i :: 0 <= i < |orders| ==>
      r[i].oid == orders[i].oid
      && (r[i] == orders[i] || (orders[i].doc.orderKey == key && r[i].doc == orders[i].doc.(status := status)))
  {
    if |orders| == 0 then []
    else if orders[0].doc.orderKey == key then [orders[0].(doc := orders[0].doc.(status := status))] + orders[1..]
    else [orders[0]] + SetFirstStatus(orders[1..], key, status)
  }

  /** After the update, looking the key up finds the same order, now with the new status. */
  lemma {:induction false} SetFirstStatusFound(orders: seq<Stored<Order>>, key: string, status: string)
    ensures FindOrderByKey(SetFirstStatus(orders, key, status), key) ==
      match FindOrderByKey(orders, key)
      case None => None
      case Some(o) => Some(o.(doc := o.doc.(status := status)))
  {
    if |orders| > 0 && orders[0].doc.orderKey != key {
      SetFirstStatusFound(orders[1..], key, status);
      assert SetFirstStatus(orders, key, status)[1..] == SetFirstStatus(orders[1..], key, status);
    }
  }

  lemma {:induction false} FilterKeepsIdsIncreasing<T>(p: Stored<T> -> bool, s: seq<Stored<T>>)
    requires IdsIncreasing(s)
    ensures IdsIncreasing(Filter(p, s))
  {
    if |s| > 0 {
      FilterKeepsIdsIncreasing(p, s[1..]);
      var r := Filter(p, s);
      if p(s[0]) {
        assert r == [s[0]] + Filter(p, s[1..]);
        forall j | 0 < j < |r| ensures r[0].oid < r[j].oid {
          assert r[j] in s[1..];
        }
      }
    }
  }

  lemma {:induction false} RejectKeepsIdsIncreasing<T>(p: Stored<T> -> bool, s: seq<Stored<T>>)
    requires IdsIncreasing(s)
    ensures IdsIncreasing(Reject(p, s))
  {
    if |s| > 0 {
      RejectKeepsIdsIncreasing(p, s[1..]);
      var r := Reject(p, s);
      if !p(s[0]) {
        assert r == [s[0]] + Reject(p, s[1..]);
        forall j | 0 < j < |r| ensures r[0].oid < r[j].oid {
          assert r[j] in s[1..];
        }
      }
    }
  }

  /** With unique ids, at most |ids| documents have an id among `ids`. */
  lemma MatchingIdsAtMost<T>(s: seq<Stored<T>>, ids: seq<ObjectId>)
    requires IdsIncreasing(s)
    ensures |Filter(HasIdIn(ids), s)| <= |ids|
  {
    var f := Filter(HasIdIn(ids), s);
    FilterKeepsIdsIncreasing(HasIdIn(ids), s);
    var fo := Oids(f);
    assert Distinct(fo);
    DistinctElements(fo);
    var a, b := Elements(fo), Elements(ids);
    assert a <= b by {
      forall x | x in fo ensures x in ids {
        var i :| 0 <= i < |fo| && fo[i] == x;
        assert f[i] in f;
      }
    }
    SubsetAtMost(a, b);
    ElementsAtMost(ids);
  }

  lemma SubsetAtMost<T>(a: set<T>, b: set<T>)
    requires a <= b
    ensures |a| <= |b|
  {
    assert b == a + (b - a);
  }

  /** The record store: both collections and the allocator of fresh `_id`s. */
  class RecordStore {
    var orders: seq<Stored<Order>>
    var products: seq<Stored<Product>>
    var nextId: nat

    ghost predicate Valid()
      reads this
    {
      IdsIncreasing(orders) && IdsBelow(orders, nextId)
      && IdsIncreasing(products) && IdsBelow(products, nextId)
    }

    constructor ()
      ensures Valid()
      ensures orders == [] && products == [] && nextId == 0
    {
      orders, products, nextId := [], [], 0;
    }

    /** `new Order(doc).save()` */
    method InsertOrder(doc: Order) returns (s: Stored<Order>)
      requires Valid()
      modifies this
      ensures Valid()
      ensures s == Stored(old(nextId), doc)
      ensures orders == old(orders) + [s] && products == old(products) && nextId == old(nextId) + 1
    {
      s := Stored(nextId, doc);
      orders := orders + [s];
      nextId := nextId + 1;
    }

    /** `new Product(doc).save()` */
    method InsertProduct(doc: Product) returns (s: Stored<Product>)
      requires Valid()
      modifies this
      ensures Valid()
      ensures s == Stored(old(nextId), doc)
      ensures products == old(products) + [s] && orders == old(orders) && nextId == old(nextId) + 1
    {
      s := Stored(nextId, doc);
      products := products + [s];
      nextId := nextId + 1;
    }

    /** `Order.insertMany(docs)` */
    method InsertManyOrders(docs: seq<Order>) returns (ss: seq<Stored<Order>>)
      requires Valid()
      modifies this
      ensures Valid()
      ensures ss == Allocate(old(nextId), docs)
      ensures orders == old(orders) + ss && products == old(products) && nextId == old(nextId) + |docs|
    {
      ss := Allocate(nextId, docs);
      orders := orders + ss;
      nextId := nextId + |docs|;
    }

    /** `Product.insertMany(docs)` */
    method InsertManyProducts(docs: seq<Product>) returns (ss: seq<Stored<Product>>)
      requires Valid()
      modifies this
      ensures Valid()
      ensures ss == Allocate(old(nextId), docs)
      ensures products == old(products) + ss && orders == old(orders) && nextId == old(nextId) + |docs|
    {
      ss := Allocate(nextId, docs);
      products := products + ss;
      nextId := nextId + |docs|;
    }

    /** `Order.deleteMany({ date_created: { $lt: cutoff } })`; returns `deletedCount`. */
    method DeleteOrdersOlderThan(cutoff: int) returns (deletedCount: nat)
      requires Valid()
      modifies this
      ensures Valid()
      ensures orders == Reject(IsOlder(cutoff), old(orders))
      ensures deletedCount == |old(orders)| - |orders|
      ensures products == old(products) && nextId == old(nextId)
    {
      RejectKeepsIdsIncreasing(IsOlder(cutoff), orders);
      var before := |orders|;
      orders := Reject(IsOlder(cutoff), orders);
      deletedCount := before - |orders|;
    }

    /** `Product.deleteMany({ _id: { $in: ids } })`; returns `deletedCount`. */
    method DeleteProductsIn(ids: seq<ObjectId>) returns (deletedCount: nat)
      requires Valid()
      modifies this
      ensures Valid()
      ensures products == Reject(HasIdIn(ids), old(products))
      ensures deletedCount == |old(products)| - |products|
      ensures orders == old(orders) && nextId == old(nextId)
    {
      RejectKeepsIdsIncreasing(HasIdIn(ids), products);
      var before := |products|;
      products := Reject(HasIdIn(ids), products);
      deletedCount := before - |products|;
    }

    /** `Order.findOneAndUpdate({ order_key: key }, { status }, { new: true })`: the updated
        document, or none when no order has the key. */
    method UpdateFirstStatus(key: string, status: string) returns (updated: Option<Stored<Order>>)
      requires Valid()
      modifies this
      ensures Valid()
      ensures orders == SetFirstStatus(old(orders), key, status)
      ensures updated == FindOrderByKey(orders, key)
      ensures updated.None? <==> FindOrderByKey(old(orders), key).None?
      ensures updated.Some? ==> updated.value.doc.status == status
      ensures products == old(products) && nextId == old(nextId)
    {
      SetFirstStatusFound(orders, key, status);
      orders := SetFirstStatus(orders, key, status);
      updated := FindOrderByKey(orders, key);
    }
  }
}
