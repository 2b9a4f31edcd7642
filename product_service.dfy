/** server/src/services/product.service.ts: the product query builder, the remote-to-stored
    mapping and the fetch-and-create path. Inserting (`createProduct`, `createManyProducts`)
    is the store's `InsertProduct`/`InsertManyProducts`; the lookup by external id is the
    store's `FindProductByExternalId`. */
module Products {
  import opened Wrappers
  import opened Domain
  import opened Seqs
  import opened Store

  /** The query string of `GET /products`. */
  datatype ProductQuery = ProductQuery(search: Option<string>, sortBy: Option<string>, sortOrder: Option<string>)

  /** One sort key and its direction (1 ascending, -1 descending). */
  datatype SortSpec = SortSpec(field: string, direction: int)

  /** The `find` filter and `sort` object `getProducts` builds; `None` is an absent key. */
  datatype ProductFind = ProductFind(textSearch: Option<string>, sort: Option<SortSpec>)

  /** `getProducts`' query and sort construction. The text filter is there only for a
      non-empty search; a sort only when both a field and an order are given, and then it
      is ascending exactly for "asc". */
  function GetProductsQuery(q: ProductQuery): (r: ProductFind)
    ensures r.textSearch.Some? <==> Truthy(q.search)
    ensures r.textSearch.Some? ==> r.textSearch == q.search
    ensures r.sort.Some? <==> Truthy(q.sortBy) && Truthy(q.sortOrder)
    ensures r.sort.Some? ==> r.sort.value.field == q.sortBy.value
    ensures r.sort.Some? ==> (r.sort.value.direction == 1 <==> q.sortOrder.value == "asc")
    ensures r.sort.Some? ==> (r.sort.value.direction == 1 || r.sort.value.direction == -1)
  {
    var text := if Truthy(q.search) then q.search else None;
    var sort :=
      if Truthy(q.sortBy) && Truthy(q.sortOrder)
      then Some(SortSpec(q.sortBy.value, if q.sortOrder.value == "asc" then 1 else -1))
      else None;
    ProductFind(text, sort)
  }

  /** `getProductsByIds` (`Product.find({ _id: { $in: ids } })`): the stored products whose
      `_id` is in the list, in store order (a null entry matches nothing). */
  function GetProductsByIds(products: seq<Stored<Product>>, ids: seq<ProductRef>): (r: seq<Stored<Product>>)
    ensures forall p :: p in r <==> p in products && Some(p.oid) in ids
    ensures IsSubsequence(r, products)
  {
    FilterMembership(HasRefIn(ids), products);
    FilterIsSubsequence(HasRefIn(ids), products);
    Filter(HasRefIn(ids), products)
  }

  /** The payload `fetchAndCreateProducts` builds from the remote record: the remote `id`
      becomes the external `product_id`, every other field is copied. */
  function ToProduct(rp: RemoteProduct): (p: Product)
    ensures p.productId == rp.id
    ensures p.name == rp.name && p.description == rp.description && p.metaData == rp.metaData
    ensures p.sku == rp.sku && p.stockStatus == rp.stockStatus && p.categories == rp.categories
    ensures p.price == rp.price && p.images == rp.images
  {
    Product(rp.id, rp.name, rp.description, rp.metaData, rp.sku, rp.stockStatus,
            rp.categories, rp.price, rp.images)
  }

  /** Two remote records map to the same stored product only when they are equal: the
      mapping drops no field. */
  lemma ToProductInjective(a: RemoteProduct, b: RemoteProduct)
    requires ToProduct(a) == ToProduct(b)
    ensures a == b
  {
    assert a.id == ToProduct(a).productId;
  }

  /** `fetchAndCreateProducts`: fetch the product with that external id from the remote
      catalog and store it. A remote failure is rethrown and nothing is stored; otherwise
      exactly one product is added, built from the remote record. */
  method FetchAndCreateProducts(store: RecordStore, productId: int, fetchProduct: int -> Result<RemoteProduct>)
    returns (r: Result<Stored<Product>>)
    requires store.Valid()
    modifies store
    ensures store.Valid()
    ensures fetchProduct(productId).Err? ==>
      r == Err(fetchProduct(productId).error)
      && store.products == old(store.products) && store.nextId == old(store.nextId)
    ensures fetchProduct(productId).Ok? ==>
      r.Ok?
      && r.value == Stored(old(store.nextId), ToProduct(fetchProduct(productId).value))
      && store.products == old(store.products) + [r.value] && store.nextId == old(store.nextId) + 1
    ensures store.orders == old(store.orders)
  {
    var response := fetchProduct(productId);
    if response.Err? {
      return Err(response.error);
    }
    var payload := ToProduct(response.value);
    var product := store.InsertProduct(payload);
    r := Ok(product);
  }

  /** `syncProducts`: the remote list, or an empty list when the remote call fails. */
  function SyncProducts(remote: Result<seq<RemoteProduct>>): (r: seq<RemoteProduct>)
    ensures remote.Err? ==> r == []
    ensures remote.Ok? ==> r == remote.value
  {
    match remote
    case Ok(data) => data
    case Err(_) => []
  }
}
