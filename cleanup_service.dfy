/** server/src/services/cleanup.service.ts: the retention sweep. Orders created before a cutoff
    are deleted, then every product they referenced that no remaining order references is
    deleted too. `Sweep` is the reference definition; `CleanupOldOrders` performs it on the
    store, step by step, in the source's order. */
module Cleanup {
  import opened Wrappers
  import opened Domain
  import opened Seqs
  import opened Store

  /** `{ deletedOrders, deletedProducts }` */
  datatype CleanupResult = CleanupResult(deletedOrders: nat, deletedProducts: nat)

  /** One entry of the preview's `ordersToDelete`. */
  datatype OrderSummary = OrderSummary(id: string, number: string, dateCreated: int, lineItemsCount: nat)

  /** `previewCleanup`'s result; the two counts are its `summary`. */
  datatype Preview = Preview(
    ordersToDelete: seq<OrderSummary>, productsToCheck: seq<ObjectId>,
    ordersCount: nat, productsToCheckCount: nat)

  /** `getCleanupStats`' result (the cutoff date itself is the caller's parameter). */
  datatype CleanupStats = CleanupStats(totalOrders: nat, oldOrders: nat, totalProducts: nat)

  /** Both collections after a sweep, and what it reports. */
  datatype SweepOutcome = SweepOutcome(orders: seq<Stored<Order>>, products: seq<Stored<Product>>,
                                       result: CleanupResult)

  /** `Order.find({ date_created: { $lt: cutoff } })` */
  function OlderThan(orders: seq<Stored<Order>>, cutoff: int): (r: seq<Stored<Order>>)
    ensures forall o :: o in r <==> o in orders && o.doc.dateCreated < cutoff
  {
    FilterMembership(IsOlder(cutoff), orders);
    Filter(IsOlder(cutoff), orders)
  }

  /** What `Order.deleteMany({ date_created: { $lt: cutoff } })` leaves. */
  function Survivors(orders: seq<Stored<Order>>, cutoff: int): (r: seq<Stored<Order>>)
    ensures forall o :: o in r <==> o in orders && o.doc.dateCreated >= cutoff
  {
    RejectMembership(IsOlder(cutoff), orders);
    Reject(IsOlder(cutoff), orders)
  }

  /** `Set.add` of one line item: a null entry is skipped, a repeated id changes nothing. */
  function AddRef(acc: seq<ObjectId>, ref: ProductRef): seq<ObjectId> {
    if ref.Some? && ref.value !in acc then acc + [ref.value] else acc
  }

  /** The ids of one order's line items added to the set, in line-item order. */
  function AddRefs(acc: seq<ObjectId>, items: seq<ProductRef>): (r: seq<ObjectId>)
    ensures forall x :: x in r <==> x in acc || Some(x) in items
    ensures Distinct(acc) ==> Distinct(r)
    decreases |items|
  {
    if |items| == 0 then acc
    else
      var n := |items| - 1;
      assert items == items[..n] + [items[n]];
      AddRef(AddRefs(acc, items[..n]), items[n])
  }

  /** `productIdsToCheck`: the distinct non-null product ids of the orders' line items, in
      order of first occurrence (a JavaScript Set's iteration order). */
  function CandidateRefs(orders: seq<Stored<Order>>): (r: seq<ObjectId>)
    ensures Distinct(r)
    ensures forall x :: x in r <==> exists o :: o in orders && References(o, x)
    decreases |orders|
  {
    if |orders| == 0 then []
    else
      var n := |orders| - 1;
      var r := AddRefs(CandidateRefs(orders[..n]), orders[n].doc.lineItems);
      assert forall x :: x in r <==> exists o :: o in orders && References(o, x) by {
        assert orders == orders[..n] + [orders[n]];
        forall x | x in r ensures exists o :: o in orders && References(o, x) {
          if x !in CandidateRefs(orders[..n]) {
            assert References(orders[n], x);
          }
        }
      }
      r
  }

  /** `Order.countDocuments({ line_items: id }) === 0` */
  function IsOrphan(orders: seq<Stored<Order>>): ObjectId -> bool {
    (id: ObjectId) => RefCount(orders, id) == 0
  }

  /** `findOrphanedProducts`' result: the candidates no order references, in candidate order. */
  function Orphans(candidates: seq<ObjectId>, orders: seq<Stored<Order>>): seq<ObjectId> {
    Filter(IsOrphan(orders), candidates)
  }

  /** The reference definition of `cleanupOldOrders` for a given cutoff. */
  function Sweep(orders: seq<Stored<Order>>, products: seq<Stored<Product>>, cutoff: int): (r: SweepOutcome)
    ensures forall o :: o in r.orders ==> o in orders
    ensures forall p :: p in r.products ==> p in products
    ensures |r.orders| <= |orders| && |r.products| <= |products|
    ensures r.result == CleanupResult(|orders| - |r.orders|, |products| - |r.products|)
  {
    var older := OlderThan(orders, cutoff);
    if |older| == 0 then SweepOutcome(orders, products, CleanupResult(0, 0))
    else
      var survivors := Survivors(orders, cutoff);
      var orphans := Orphans(CandidateRefs(older), survivors);
      var remaining := if |orphans| > 0 then Reject(HasIdIn(orphans), products) else products;
      SweepOutcome(survivors, remaining, CleanupResult(|orders| - |survivors|, |products| - |remaining|))
  }

  /** A product the sweep deletes: one of the old orders listed it, and no order that
      survives the sweep lists it. */
  predicate Orphaned(id: ObjectId, orders: seq<Stored<Order>>, cutoff: int) {
    && id in CandidateRefs(OlderThan(orders, cutoff))
    && forall i :: 0 <= i < |Survivors(orders, cutoff)| ==> !References(Survivors(orders, cutoff)[i], id)
  }

  /** Exactly the orders created at or after the cutoff survive. */
  lemma SweepKeepsRecentOrders(orders: seq<Stored<Order>>, products: seq<Stored<Product>>, cutoff: int)
    ensures forall o :: o in Sweep(orders, products, cutoff).orders <==> o in orders && o.doc.dateCreated >= cutoff
  {
    if |OlderThan(orders, cutoff)| == 0 {
      assert OlderThan(orders, cutoff) == [];
    }
  }

  /** The order count reported is the number of orders created before the cutoff. */
  lemma SweepCountsOldOrders(orders: seq<Stored<Order>>, products: seq<Stored<Product>>, cutoff: int)
    ensures Sweep(orders, products, cutoff).result.deletedOrders == |OlderThan(orders, cutoff)|
  {
    FilterRejectSplit(IsOlder(cutoff), orders);
  }

  /** With no order older than the cutoff, the result is zero, zero and neither collection
      changes. */
  lemma SweepWithoutOldOrders(orders: seq<Stored<Order>>, products: seq<Stored<Product>>, cutoff: int)
    requires forall o :: o in orders ==> o.doc.dateCreated >= cutoff
    ensures Sweep(orders, products, cutoff) == SweepOutcome(orders, products, CleanupResult(0, 0))
  {
    NothingMatches(IsOlder(cutoff), orders);
  }

  /** A product is deleted exactly when it is orphaned: listed by an old order, listed by no
      surviving order. Every other product, in particular one outside the candidate set or
      one a surviving order lists, stays. */
  lemma SweepDeletesExactlyOrphans(orders: seq<Stored<Order>>, products: seq<Stored<Product>>, cutoff: int)
    ensures forall p :: p in Sweep(orders, products, cutoff).products <==> p in products && !Orphaned(p.oid, orders, cutoff)
  {
    var older := OlderThan(orders, cutoff);
    var survivors := Survivors(orders, cutoff);
    var orphans := Orphans(CandidateRefs(older), survivors);
    FilterMembership(IsOrphan(survivors), CandidateRefs(older));
    RejectMembership(HasIdIn<Product>(orphans), products);
  }

  /** A product that some surviving order lists is never deleted. */
  lemma SweepKeepsReferencedProducts(orders: seq<Stored<Order>>, products: seq<Stored<Product>>, cutoff: int,
                                     p: Stored<Product>, o: Stored<Order>)
    requires p in products && o in orders && o.doc.dateCreated >= cutoff && References(o, p.oid)
    ensures p in Sweep(orders, products, cutoff).products
  {
    SweepDeletesExactlyOrphans(orders, products, cutoff);
    var survivors := Survivors(orders, cutoff);
    var i :| 0 <= i < |survivors| && survivors[i] == o;
  }

  /** Only candidates can be deleted, each at most once: the product count reported is at
      most the size of the candidate set. */
  lemma SweepProductCountBound(orders: seq<Stored<Order>>, products: seq<Stored<Product>>, cutoff: int)
    requires IdsIncreasing(products)
    ensures Sweep(orders, products, cutoff).result.deletedProducts <= |CandidateRefs(OlderThan(orders, cutoff))|
  {
    var older := OlderThan(orders, cutoff);
    if |older| > 0 {
      var orphans := Orphans(CandidateRefs(older), Survivors(orders, cutoff));
      if |orphans| > 0 {
        FilterRejectSplit(HasIdIn<Product>(orphans), products);
        MatchingIdsAtMost(products, orphans);
      }
    }
  }

  /** A second sweep with the same cutoff deletes nothing and reports zero, zero. */
  lemma SweepIdempotent(orders: seq<Stored<Order>>, products: seq<Stored<Product>>, cutoff: int)
    ensures var once := Sweep(orders, products, cutoff);
      Sweep(once.orders, once.products, cutoff) == SweepOutcome(once.orders, once.products, CleanupResult(0, 0))
  {
    var once := Sweep(orders, products, cutoff);
    SweepKeepsRecentOrders(orders, products, cutoff);
    SweepWithoutOldOrders(once.orders, once.products, cutoff);
  }

  /** `findOrphanedProducts`' result: empty for no candidates; otherwise the candidates,
      in order, that no order lists. */
  lemma OrphansOfCandidates(candidates: seq<ObjectId>, orders: seq<Stored<Order>>)
    ensures candidates == [] ==> Orphans(candidates, orders) == []
    ensures IsSubsequence(Orphans(candidates, orders), candidates)
    ensures forall id :: id in Orphans(candidates, orders) <==>
      id in candidates && forall i :: 0 <= i < |orders| ==> !References(orders[i], id)
  {
    FilterIsSubsequence(IsOrphan(orders), candidates);
    FilterMembership(IsOrphan(orders), candidates);
  }

  /** The nested `forEach` that fills `productIdsToCheck`. */
  method CollectCandidates(oldOrders: seq<Stored<Order>>) returns (ids: seq<ObjectId>)
    ensures ids == CandidateRefs(oldOrders)
  {
    ids := [];
    var i := 0;
    while i < |oldOrders|
      invariant 0 <= i <= |oldOrders|
      invariant ids == CandidateRefs(oldOrders[..i])
    {
      var items := oldOrders[i].doc.lineItems;
      var j := 0;
      while j < |items|
        invariant 0 <= j <= |items|
        invariant ids == AddRefs(CandidateRefs(oldOrders[..i]), items[..j])
      {
        var productId := items[j];
        if productId.Some? && productId.value !in ids {
          ids := ids + [productId.value];
        }
        assert items[..j + 1][..j] == items[..j];
        j := j + 1;
      }
      assert items[..j] == items;
      assert oldOrders[..i + 1][..i] == oldOrders[..i];
      i := i + 1;
    }
    assert oldOrders[..i] == oldOrders;
  }

  /** `findOrphanedProducts`: reference-counts each candidate against the orders now stored. */
  method FindOrphanedProducts(store: RecordStore, productIdsToCheck: seq<ObjectId>) returns (orphanedProducts: seq<ObjectId>)
    ensures orphanedProducts == Orphans(productIdsToCheck, store.orders)
  {
    if |productIdsToCheck| == 0 {
      return [];
    }
    orphanedProducts := [];
    for k := 0 to |productIdsToCheck|
      invariant orphanedProducts == Orphans(productIdsToCheck[..k], store.orders)
    {
      var productId := productIdsToCheck[k];
      var ordersWithProduct := RefCount(store.orders, productId);
      if ordersWithProduct == 0 {
        orphanedProducts := orphanedProducts + [productId];
      }
      FilterSnoc(IsOrphan(store.orders), productIdsToCheck[..k], productId);
      assert productIdsToCheck[..k + 1] == productIdsToCheck[..k] + [productId];
    }
    assert productIdsToCheck[..|productIdsToCheck|] == productIdsToCheck;
  }

  /** `cleanupOldOrders`: select the old orders, collect their products, delete the orders,
      then delete the candidates no remaining order lists. The new state and the result are
      the reference sweep's. */
  method CleanupOldOrders(store: RecordStore, cutoff: int) returns (res: CleanupResult)
    requires store.Valid()
    modifies store
    ensures store.Valid()
    ensures var expected := Sweep(old(store.orders), old(store.products), cutoff);
      store.orders == expected.orders && store.products == expected.products && res == expected.result
    ensures store.nextId == old(store.nextId)
  {
    var oldOrders := OlderThan(store.orders, cutoff);
    if |oldOrders| == 0 {
      return CleanupResult(0, 0);
    }
    var productIdsToCheck := CollectCandidates(oldOrders);
    var deletedOrders := store.DeleteOrdersOlderThan(cutoff);
    var orphanedProducts := FindOrphanedProducts(store, productIdsToCheck);
    var deletedProductsCount := 0;
    if |orphanedProducts| > 0 {
      deletedProductsCount := store.DeleteProductsIn(orphanedProducts);
    }
    res := CleanupResult(deletedOrders, deletedProductsCount);
  }

  function Summarize(o: Stored<Order>): OrderSummary {
    OrderSummary(o.doc.id, o.doc.number, o.doc.dateCreated, |o.doc.lineItems|)
  }

  /** `previewCleanup`: what a sweep would select, without changing the store. */
  method PreviewCleanup(store: RecordStore, cutoff: int) returns (p: Preview)
    ensures p.ordersCount == |OlderThan(store.orders, cutoff)|
    ensures p.productsToCheck == CandidateRefs(OlderThan(store.orders, cutoff))
    ensures p.productsToCheckCount == |Elements(p.productsToCheck)|
    ensures |p.ordersToDelete| == p.ordersCount
    ensures forall i :: 0 <= i < |p.ordersToDelete| ==>
      var o := OlderThan(store.orders, cutoff)[i];
      p.ordersToDelete[i] == OrderSummary(o.doc.id, o.doc.number, o.doc.dateCreated, |o.doc.lineItems|)
  {
    var ordersToDelete := OlderThan(store.orders, cutoff);
    if |ordersToDelete| == 0 {
      return Preview([], [], 0, 0);
    }
    var productIdsToCheck := CollectCandidates(ordersToDelete);
    DistinctElements(productIdsToCheck);
    var summaries := seq(|ordersToDelete|, i requires 0 <= i < |ordersToDelete| => Summarize(ordersToDelete[i]));
    p := Preview(summaries, productIdsToCheck, |ordersToDelete|, |productIdsToCheck|);
  }

  /** `getCleanupStats`: the three counts; the old orders are among all orders. */
  function GetCleanupStats(store: RecordStore, cutoff: int): (r: CleanupStats)
    reads store
    ensures r.totalOrders == |store.orders| && r.totalProducts == |store.products|
    ensures r.oldOrders == |OlderThan(store.orders, cutoff)|
    ensures r.oldOrders <= r.totalOrders
    ensures r.oldOrders == 0 <==> forall o :: o in store.orders ==> o.doc.dateCreated >= cutoff
  {
    var old_ := OlderThan(store.orders, cutoff);
    assert old_ == [] <==> forall o :: o in store.orders ==> o.doc.dateCreated >= cutoff by {
      if old_ != [] {
        assert old_[0] in old_;
      }
    }
    CleanupStats(|store.orders|, |old_|, |store.products|)
  }
}
