/** The cart and product search of the React pharmacy marketplace screen,
    `frontend/src/screens/pharmacy/PharmacyMarketplace.jsx`.

    The screen keeps its cart in React state and never changes an array in place: each
    handler computes a new cart with `map`, `filter` or a spread and hands it to `setCart`.
    The model is therefore a set of functions from the current cart to the next one. The
    toasts, the modals and the rendering are not modelled. */
module PharmacyMarketplace {
  import opened Wrappers
  import opened Seqs
  import opened Text

  /** A product of the screen's catalogue; prices are in fils. */
  datatype Product = Product(id: string, name: string, manufacturer: string, description: string,
                             price: int, originalPrice: int, unit: string, image: string,
                             badge: string, stock: string)

  /** A cart entry, `{ ...product, quantity }`. */
  datatype CartLine = CartLine(product: Product, quantity: int)

  predicate HasId(cart: seq<CartLine>, id: string) {
    exists i :: 0 <= i < |cart| && cart[i].product.id == id
  }

  predicate UniqueIds(cart: seq<CartLine>) {
    forall i, j :: 0 <= i < j < |cart| ==> cart[i].product.id != cart[j].product.id
  }

  /** Every entry holds a quantity of at least one. */
  predicate Positive(cart: seq<CartLine>) {
    forall i :: 0 <= i < |cart| ==> cart[i].quantity >= 1
  }

  // ----- The cart handlers -----------------------------------------------------------------

  /** The entry with `q` more when it carries the id. */
  function Bumped(l: CartLine, id: string, q: int): CartLine {
    if l.product.id == id then l.(quantity := l.quantity + q) else l
  }

  /** `handleAddToCart(product, quantity = 1)`: when some entry carries the product's id,
      every entry with that id gains the quantity; otherwise the product is appended with
      it. */
  function HandleAddToCart(cart: seq<CartLine>, product: Product, quantity: Option<int>)
    : (r: seq<CartLine>)
    ensures HasId(cart, product.id)
            ==> && |r| == |cart|
                && forall i :: 0 <= i < |cart| ==>
                     && r[i].product == cart[i].product
                     && r[i].quantity == cart[i].quantity
                                         + (if cart[i].product.id == product.id
                                            then quantity.GetOr(1) else 0)
    ensures !HasId(cart, product.id) ==> r == cart + [CartLine(product, quantity.GetOr(1))]
  {
    var q := quantity.GetOr(1);
    if FindIndex(cart, (l: CartLine) => l.product.id == product.id) >= 0 then
      Map(cart, (l: CartLine) => Bumped(l, product.id, q))
    else
      cart + [CartLine(product, q)]
  }

  /** `handleRemoveFromCart(id)`: exactly the entries with that id go. */
  function HandleRemoveFromCart(cart: seq<CartLine>, id: string): (r: seq<CartLine>)
    ensures !HasId(r, id)
    ensures forall i :: 0 <= i < |cart| && cart[i].product.id != id ==> cart[i] in r
    ensures forall i :: 0 <= i < |r| ==> r[i] in cart
  {
    Filter(cart, (l: CartLine) => l.product.id != id)
  }

  /** The entry holding `q` when it carries the id. */
  function WithQuantity(l: CartLine, id: string, q: int): CartLine {
    if l.product.id == id then l.(quantity := q) else l
  }

  /** `handleUpdateQuantity(id, q)`: a quantity below one is refused and leaves the cart as
      it is (where the static page's cart would store 1); otherwise every entry with the id
      holds `q`. */
  function HandleUpdateQuantity(cart: seq<CartLine>, id: string, q: int): (r: seq<CartLine>)
    ensures q < 1 ==> r == cart
    ensures q >= 1 ==> && |r| == |cart|
                       && forall i :: 0 <= i < |cart| ==>
                            && r[i].product == cart[i].product
                            && r[i].quantity == (if cart[i].product.id == id then q
                                                 else cart[i].quantity)
  {
    if q < 1 then cart else Map(cart, (l: CartLine) => WithQuantity(l, id, q))
  }

  // ----- getTotalPrice ---------------------------------------------------------------------

  function LineTotal(l: CartLine): int {
    l.product.price * l.quantity
  }

  /** The `reduce` of `getTotalPrice`, from the running total `acc`. */
  function TotalFrom(cart: seq<CartLine>, acc: int): int {
    if |cart| == 0 then acc else TotalFrom(cart[1..], acc + LineTotal(cart[0]))
  }

  lemma {:induction false} TotalFromSum(cart: seq<CartLine>, acc: int)
    ensures TotalFrom(cart, acc) == acc + Sum(cart, LineTotal)
  {
    if |cart| > 0 {
      TotalFromSum(cart[1..], acc + LineTotal(cart[0]));
    }
  }

  /** `getTotalPrice`: the sum of price times quantity over the cart. */
  function GetTotalPrice(cart: seq<CartLine>): (r: int)
    ensures r == Sum(cart, LineTotal)
  {
    TotalFromSum(cart, 0);
    TotalFrom(cart, 0)
  }

  /** The sum of the prices of the entries carrying the id. */
  function PriceUnder(cart: seq<CartLine>, id: string): int {
    if |cart| == 0 then 0
    else (if cart[0].product.id == id then cart[0].product.price else 0) + PriceUnder(cart[1..], id)
  }

  /** The sum of the line totals of the entries carrying the id. */
  function TotalUnder(cart: seq<CartLine>, id: string): int {
    if |cart| == 0 then 0
    else (if cart[0].product.id == id then LineTotal(cart[0]) else 0) + TotalUnder(cart[1..], id)
  }

  lemma SumCons(l: CartLine, rest: seq<CartLine>)
    ensures Sum([l] + rest, LineTotal) == LineTotal(l) + Sum(rest, LineTotal)
  {
    assert ([l] + rest)[1..] == rest;
  }

  /** Raising the entries with the id by `q` raises the total by `q` times their prices. */
  lemma {:induction false} BumpTotal(cart: seq<CartLine>, id: string, q: int)
    ensures Sum(Map(cart, (l: CartLine) => Bumped(l, id, q)), LineTotal)
            == Sum(cart, LineTotal) + q * PriceUnder(cart, id)
  {
    if |cart| > 0 {
      var m := Map(cart, (l: CartLine) => Bumped(l, id, q));
      BumpTotal(cart[1..], id, q);
      assert m == [Bumped(cart[0], id, q)] + Map(cart[1..], (l: CartLine) => Bumped(l, id, q));
      SumCons(Bumped(cart[0], id, q), Map(cart[1..], (l: CartLine) => Bumped(l, id, q)));
      var p := cart[0].product.price;
      assert p * (cart[0].quantity + q) == p * cart[0].quantity + q * p;
    }
  }

  /** With unique ids the prices under an id are the one entry's price. */
  lemma {:induction false} PriceUnderUnique(cart: seq<CartLine>, id: string, k: int)
    requires UniqueIds(cart)
    requires 0 <= k < |cart| && cart[k].product.id == id
    ensures PriceUnder(cart, id) == cart[k].product.price
  {
    if k == 0 {
      PriceUnderAbsent(cart[1..], id);
    } else {
      PriceUnderUnique(cart[1..], id, k - 1);
    }
  }

  lemma {:induction false} PriceUnderAbsent(cart: seq<CartLine>, id: string)
    requires !HasId(cart, id)
    ensures PriceUnder(cart, id) == 0
  {
    if |cart| > 0 {
      PriceUnderAbsent(cart[1..], id);
    }
  }

  /** Adding `q` of a product raises the total by `q` times what the cart's entries with
      its id cost, or, when there is none, by `q` times the product's price. */
  lemma AddTotal(cart: seq<CartLine>, product: Product, quantity: Option<int>)
    ensures GetTotalPrice(HandleAddToCart(cart, product, quantity))
            == GetTotalPrice(cart)
               + quantity.GetOr(1) * (if HasId(cart, product.id) then PriceUnder(cart, product.id)
                                      else product.price)
  {
    var q := quantity.GetOr(1);
    if FindIndex(cart, (l: CartLine) => l.product.id == product.id) >= 0 {
      BumpTotal(cart, product.id, q);
    } else {
      SumAppend(cart, [CartLine(product, q)], LineTotal);
      assert [CartLine(product, q)][1..] == [];
    }
  }

  /** On a cart with unique ids whose entry for the product has the product's price,
      adding `q` of it raises the total by exactly `q` times that price. */
  lemma AddSameProductTotal(cart: seq<CartLine>, product: Product, quantity: Option<int>)
    requires UniqueIds(cart)
    requires forall i :: 0 <= i < |cart| && cart[i].product.id == product.id
                         ==> cart[i].product.price == product.price
    ensures GetTotalPrice(HandleAddToCart(cart, product, quantity))
            == GetTotalPrice(cart) + quantity.GetOr(1) * product.price
  {
    AddTotal(cart, product, quantity);
    if HasId(cart, product.id) {
      var k :| 0 <= k < |cart| && cart[k].product.id == product.id;
      PriceUnderUnique(cart, product.id, k);
    }
  }

  /** Removing takes off exactly the line totals of the entries with the id. */
  lemma {:induction false} RemoveTotal(cart: seq<CartLine>, id: string)
    ensures GetTotalPrice(HandleRemoveFromCart(cart, id)) == GetTotalPrice(cart) - TotalUnder(cart, id)
  {
    if |cart| > 0 {
      RemoveTotal(cart[1..], id);
      var rest := HandleRemoveFromCart(cart[1..], id);
      if cart[0].product.id != id {
        assert HandleRemoveFromCart(cart, id) == [cart[0]] + rest;
        SumCons(cart[0], rest);
      } else {
        assert HandleRemoveFromCart(cart, id) == rest;
      }
    }
  }

  /** Adding keeps the ids of a cart unique. */
  lemma AddKeepsUnique(cart: seq<CartLine>, product: Product, quantity: Option<int>)
    requires UniqueIds(cart)
    ensures UniqueIds(HandleAddToCart(cart, product, quantity))
  {
    var r := HandleAddToCart(cart, product, quantity);
    if HasId(cart, product.id) {
      assert forall i :: 0 <= i < |r| ==> r[i].product.id == cart[i].product.id;
    } else {
      assert forall i :: 0 <= i < |cart| ==> r[i] == cart[i];
    }
  }

  /** Updating keeps every quantity at least one: a quantity below one is refused, and
      adding keeps it too when the added quantity is at least one. */
  lemma OperationsKeepPositive(cart: seq<CartLine>, product: Product, quantity: Option<int>,
                               id: string, q: int)
    requires Positive(cart)
    ensures Positive(HandleUpdateQuantity(cart, id, q))
    ensures quantity.GetOr(1) >= 1 ==> Positive(HandleAddToCart(cart, product, quantity))
    ensures Positive(HandleRemoveFromCart(cart, id))
  {
    var removed := HandleRemoveFromCart(cart, id);
    forall i | 0 <= i < |removed| ensures removed[i].quantity >= 1 {
      var j :| 0 <= j < |cart| && cart[j] == removed[i];
    }
  }

  // ----- filteredProducts ------------------------------------------------------------------

  /** The search test: the query, lower-cased, occurs in the lower-cased name or
      manufacturer. */
  predicate Matches(p: Product, query: string) {
    || Includes(Lower(p.name), Lower(query))
    || Includes(Lower(p.manufacturer), Lower(query))
  }

  /** `filteredProducts`: the catalogue's products matching the query, in catalogue order. */
  function FilteredProducts(products: seq<Product>, query: string): (r: seq<Product>)
    ensures forall i :: 0 <= i < |r| ==> r[i] in products && Matches(r[i], query)
    ensures forall i :: 0 <= i < |products| && Matches(products[i], query) ==> products[i] in r
  {
    Filter(products, (p: Product) => Matches(p, query))
  }

  /** The search keeps the catalogue order: it works piece by piece, and a single product
      is kept exactly when it matches. */
  lemma FilteredProductsInOrder(a: seq<Product>, b: seq<Product>, p: Product, query: string)
    ensures FilteredProducts(a + b, query) == FilteredProducts(a, query) + FilteredProducts(b, query)
    ensures FilteredProducts([p], query) == if Matches(p, query) then [p] else []
  {
    FilterAppend(a, b, (x: Product) => Matches(x, query));
    assert [p][1..] == [];
  }

  /** An empty search shows the whole catalogue. */
  lemma EmptyQueryKeepsAll(products: seq<Product>)
    ensures FilteredProducts(products, "") == products
  {
    forall i | 0 <= i < |products| ensures Matches(products[i], "") {
      IncludesEmpty(Lower(products[i].name));
    }
    FilterAll(products, (p: Product) => Matches(p, ""));
  }

  lemma LowerIdempotent(s: string)
    ensures Lower(Lower(s)) == Lower(s)
  {
    LowerIdentity(Lower(s));
  }

  /** The search ignores the letter case of the query. */
  lemma QueryCaseIgnored(products: seq<Product>, query: string)
    ensures FilteredProducts(products, Lower(query)) == FilteredProducts(products, query)
  {
    LowerIdempotent(query);
    FilterEquiv(products, (p: Product) => Matches(p, Lower(query)), (p: Product) => Matches(p, query));
  }

  /** A product whose name contains the query is found, whatever the case of either. */
  lemma NameHitFound(products: seq<Product>, query: string, k: int)
    requires 0 <= k < |products|
    requires OccursAt(Lower(products[k].name), Lower(query), 0)
    ensures products[k] in FilteredProducts(products, query)
  {
  }
}
