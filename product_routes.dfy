/** The product routes of `backend/routes/products.js`: every signed-in caller reads the
    catalogue, distributors (and admins) add products and update their own.

    The update handler writes `memoryDb.products[index]`, a table the store's module does
    not export, so as written it throws and answers 500; the model updates the store's own
    table, as the handler evidently intends. */
module ProductRoutes {
  import opened Wrappers
  import opened Seqs
  import opened Entities
  import opened Roles
  import opened MemoryDb
  import opened Access

  // ----- Error messages --------------------------------------------------------------------

  const ProductNotFound := "Product not found"
  const NameAndPriceMissing := "Please provide name and price"
  const NotProductOwner := "Not authorized to update this product"

  // ----- GET /api/products, GET /api/products/:id ------------------------------------------

  /** `GET /api/products`: the whole catalogue, for any verified caller. */
  function ListProducts(db: MemoryDatabase, token: Token): (r: Response<seq<Product>>)
    reads db
    ensures VerifyToken(db, token).Err? ==> r == Err(VerifyToken(db, token).error)
    ensures VerifyToken(db, token).Ok? ==> r == Ok(db.products)
  {
    match VerifyToken(db, token)
    case Err(e) => Err(e)
    case Ok(_) => Ok(db.products)
  }

  /** `GET /api/products/:id`: the product, or 404. */
  function ShowProduct(db: MemoryDatabase, token: Token, id: int): (r: Response<Product>)
    reads db
    ensures VerifyToken(db, token).Err? ==> r == Err(VerifyToken(db, token).error)
    ensures VerifyToken(db, token).Ok? && (forall i :: 0 <= i < |db.products| ==> db.products[i].id != id)
            ==> r == Fail(404, ProductNotFound)
    ensures r.Ok? <==> VerifyToken(db, token).Ok? && exists i :: 0 <= i < |db.products| && db.products[i].id == id
    ensures r.Ok? ==> r.value in db.products && r.value.id == id
  {
    match VerifyToken(db, token)
    case Err(e) => Err(e)
    case Ok(_) =>
      match db.GetProductById(id)
      case None => Fail(404, ProductNotFound)
      case Some(p) => Ok(p)
  }

  // ----- POST /api/products ----------------------------------------------------------------

  /** The body of `POST /api/products`. `""` and 0 stand for a missing `name` and `price`;
      `stockQuantity` is `None` when it is missing or not a number. */
  datatype ProductRequest = ProductRequest(name: string, description: string, price: int,
                                           category: string, manufacturer: string, sku: string,
                                           stockQuantity: Option<int>)

  /** The data `createProduct` receives: the caller becomes the product's distributor. */
  function ProductDraftFor(caller: Principal, req: ProductRequest): ProductDraft {
    ProductDraft(req.name, req.description, req.price, req.category, req.manufacturer, req.sku,
                 req.stockQuantity.GetOr(0), caller.id)
  }

  /** The checks of `POST /api/products`: token, distributor gate, a name and a price. */
  function CheckNewProduct(db: MemoryDatabase, token: Token, req: ProductRequest)
    : (r: Response<Principal>)
    reads db
    ensures Authorize(db, token, DistributorRoles).Err?
            ==> r == Err(Authorize(db, token, DistributorRoles).error)
    ensures Authorize(db, token, DistributorRoles).Ok? && (req.name == "" || req.price == 0)
            ==> r == Fail(400, NameAndPriceMissing)
    ensures r.Ok? <==> Authorize(db, token, DistributorRoles).Ok? && req.name != "" && req.price != 0
    ensures r.Ok? ==> r.value == Principal(token.id, token.role)
  {
    match Authorize(db, token, DistributorRoles)
    case Err(e) => Err(e)
    case Ok(p) =>
      if req.name == "" || req.price == 0 then Fail(400, NameAndPriceMissing)
      else Ok(p)
  }

  /** `POST /api/products`: appends the product, owned by the caller; a stock quantity that
      is missing or not a number becomes 0. */
  method PostProduct(db: MemoryDatabase, token: Token, req: ProductRequest, now: int)
    returns (r: Response<Product>)
    requires db.ProductsValid()
    modifies db`products, db`nextProductId
    ensures db.ProductsValid()
    ensures old(CheckNewProduct(db, token, req)).Err?
            ==> r == Err(old(CheckNewProduct(db, token, req)).error) && unchanged(db)
    ensures r.Ok? <==> old(CheckNewProduct(db, token, req)).Ok?
    ensures r.Ok? ==> && r.value == NewProduct(old(db.nextProductId), now,
                                               ProductDraftFor(Principal(token.id, token.role), req))
                      && db.products == old(db.products) + [r.value]
                      && db.nextProductId == old(db.nextProductId) + 1
    ensures r.Ok? ==> r.value.distributorId == token.id
                      && r.value.stockQuantity == (if req.stockQuantity.Some? then req.stockQuantity.value else 0)
  {
    var c := CheckNewProduct(db, token, req);
    if c.Err? {
      return Err(c.error);
    }
    var p := db.CreateProduct(ProductDraftFor(c.value, req), now);
    r := Ok(p);
  }

  // ----- PUT /api/products/:id -------------------------------------------------------------

  /** The keys of a product an update may change. */
  const AllowedFields: seq<string> :=
    ["name", "description", "price", "category", "manufacturer", "sku", "stockQuantity"]

  /** The `allowedFields.forEach` loop: copies into `updated` each allowed key the body
      holds, and no other key. */
  method CollectUpdates(body: Fields) returns (updated: Fields)
    ensures updated.Keys == body.Keys * (set f | f in AllowedFields)
    ensures forall f :: f in updated ==> updated[f] == body[f]
  {
    updated := map[];
    for i := 0 to |AllowedFields|
      invariant updated.Keys == body.Keys * (set f | f in AllowedFields[..i])
      invariant forall f :: f in updated ==> updated[f] == body[f]
    {
      var field := AllowedFields[i];
      assert AllowedFields[..i + 1] == AllowedFields[..i] + [field];
      if field in body {
        updated := updated[field := body[field]];
      }
    }
    assert AllowedFields[..|AllowedFields|] == AllowedFields;
  }

  /** The text of a string key of the update, or the current value. */
  function TextOr(u: Fields, key: string, current: string): string {
    if key in u && u[key].Str? then u[key].s else current
  }

  /** The number of a numeric key of the update, or the current value. */
  function NumberOr(u: Fields, key: string, current: int): int {
    if key in u && u[key].Num? then u[key].n else current
  }

  /** `{ ...product, ...updatedFields }`: each allowed key present with a value of its kind
      replaces the product's; the id, the owner and the creation time are never touched. */
  function ApplyFields(p: Product, u: Fields): (q: Product)
    ensures q.id == p.id && q.distributorId == p.distributorId && q.createdAt == p.createdAt
    ensures q.updatedAt == p.updatedAt
    // an allowed key the update lacks keeps the stored value
    ensures "name" !in u ==> q.name == p.name
    ensures "description" !in u ==> q.description == p.description
    ensures "price" !in u ==> q.price == p.price
    ensures "category" !in u ==> q.category == p.category
    ensures "manufacturer" !in u ==> q.manufacturer == p.manufacturer
    ensures "sku" !in u ==> q.sku == p.sku
    ensures "stockQuantity" !in u ==> q.stockQuantity == p.stockQuantity
    // an allowed key the update holds stores the update's value
    ensures "name" in u && u["name"].Str? ==> q.name == u["name"].s
    ensures "description" in u && u["description"].Str? ==> q.description == u["description"].s
    ensures "price" in u && u["price"].Num? ==> q.price == u["price"].n
    ensures "category" in u && u["category"].Str? ==> q.category == u["category"].s
    ensures "manufacturer" in u && u["manufacturer"].Str? ==> q.manufacturer == u["manufacturer"].s
    ensures "sku" in u && u["sku"].Str? ==> q.sku == u["sku"].s
    ensures "stockQuantity" in u && u["stockQuantity"].Num? ==> q.stockQuantity == u["stockQuantity"].n
  {
    p.(name := TextOr(u, "name", p.name),
       description := TextOr(u, "description", p.description),
       price := NumberOr(u, "price", p.price),
       category := TextOr(u, "category", p.category),
       manufacturer := TextOr(u, "manufacturer", p.manufacturer),
       sku := TextOr(u, "sku", p.sku),
       stockQuantity := NumberOr(u, "stockQuantity", p.stockQuantity))
  }

  /** An update with no allowed keys changes nothing but the time stamp. */
  lemma ApplyNothing(p: Product, body: Fields)
    requires forall f :: f in body ==> f !in AllowedFields
    ensures ApplyFields(p, body) == p
  {
    assert "name" !in body && "description" !in body && "price" !in body && "category" !in body;
    assert "manufacturer" !in body && "sku" !in body && "stockQuantity" !in body;
  }

  /** Applying the same update twice is applying it once. */
  lemma ApplyIdempotent(p: Product, u: Fields)
    ensures ApplyFields(ApplyFields(p, u), u) == ApplyFields(p, u)
  {
  }

  /** Keys outside the allowed list have no effect: the product is the same whether the
      whole body or only its allowed part is applied. */
  lemma ApplyAllowedOnly(p: Product, body: Fields, updated: Fields)
    requires updated.Keys == body.Keys * (set f | f in AllowedFields)
    requires forall f :: f in updated ==> updated[f] == body[f]
    ensures ApplyFields(p, updated) == ApplyFields(p, body)
  {
    assert forall f :: f in AllowedFields ==> (f in updated <==> f in body);
  }

  /** The checks of the update, in their order: token, distributor gate, an existing
      product, and ownership (admins may update any product). */
  function CheckProductUpdate(db: MemoryDatabase, token: Token, id: int): (r: Response<Product>)
    reads db
    ensures Authorize(db, token, DistributorRoles).Err?
            ==> r == Err(Authorize(db, token, DistributorRoles).error)
    ensures Authorize(db, token, DistributorRoles).Ok? && db.GetProductById(id).None?
            ==> r == Fail(404, ProductNotFound)
    ensures Authorize(db, token, DistributorRoles).Ok? && db.GetProductById(id).Some?
            && db.GetProductById(id).value.distributorId != token.id && token.role != "admin"
            ==> r == Fail(403, NotProductOwner)
    ensures r.Ok? <==> && Authorize(db, token, DistributorRoles).Ok? && db.GetProductById(id).Some?
                       && (db.GetProductById(id).value.distributorId == token.id || token.role == "admin")
    ensures r.Ok? ==> Some(r.value) == db.GetProductById(id)
  {
    match Authorize(db, token, DistributorRoles)
    case Err(e) => Err(e)
    case Ok(u) =>
      match db.GetProductById(id)
      case None => Fail(404, ProductNotFound)
      case Some(p) =>
        if p.distributorId != u.id && u.role != "admin" then
          Fail(403, NotProductOwner)
        else Ok(p)
  }

  /** `PUT /api/products/:id`: only that product changes, to the product with the allowed
      keys of the body applied and a new `updatedAt`. */
  method PutProduct(db: MemoryDatabase, token: Token, id: int, body: Fields, now: int)
    returns (r: Response<Product>)
    requires db.ProductsValid()
    modifies db`products
    ensures db.ProductsValid()
    ensures old(CheckProductUpdate(db, token, id)).Err?
            ==> r == Err(old(CheckProductUpdate(db, token, id)).error) && unchanged(db)
    ensures r.Ok? <==> old(CheckProductUpdate(db, token, id)).Ok?
    ensures r.Ok? ==>
              var p := old(CheckProductUpdate(db, token, id)).value;
              var k := IndexOf(old(db.products), ProductKey, id);
              && r.value == ApplyFields(p, body).(updatedAt := Some(now))
              && 0 <= k && db.products == old(db.products)[k := r.value]
  {
    var c := CheckProductUpdate(db, token, id);
    if c.Err? {
      return Err(c.error);
    }
    var updated := CollectUpdates(body);
    ApplyAllowedOnly(c.value, body, updated);
    var k := IndexOf(db.products, ProductKey, id);
    var q := ApplyFields(db.products[k], updated).(updatedAt := Some(now));
    NumberedUpdate(db.products, ProductKey, db.nextProductId, k, q);
    db.products := db.products[k := q];
    r := Ok(q);
  }
}
