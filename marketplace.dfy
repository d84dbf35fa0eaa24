/** The cart of the static pharmacy marketplace page, `frontend/pharmacy/marketplace.js`.

    The page keeps its cart as a JSON array under the `cart` key of the browser's local
    storage; every cart operation loads the array, changes it in place and stores it back.
    The model holds that array in the `items` field of a `Cart` object, one method per
    operation, and specifies each method by a function of the old cart. The storage round
    trip, the rendering of the cart and the page's other effects are not modelled. */
module Marketplace {
  import opened Wrappers
  import opened Seqs
  import opened Text

  /** A cart entry as the page builds it from a product card. `price` is in fils
      (thousandths of a dinar). */
  datatype CartItem = CartItem(id: string, name: string, manufacturer: string, price: int,
                               unit: string, quantity: int, imageUrl: string)

  // ----- generateProductId -----------------------------------------------------------------

  /** What is left of `s` once its leading whitespace is skipped. */
  function DropSpaces(s: string): (r: string)
    ensures |r| <= |s| && r == s[|s| - |r|..]
    ensures |r| > 0 ==> !IsJsSpace(r[0])
    ensures forall i :: 0 <= i < |s| - |r| ==> IsJsSpace(s[i])
  {
    if |s| > 0 && IsJsSpace(s[0]) then DropSpaces(s[1..]) else s
  }

  /** `replace(/\s+/g, '-')`: every maximal run of whitespace becomes a single `-`. */
  function Hyphenate(s: string): (r: string)
    ensures |r| <= |s|
    ensures forall i :: 0 <= i < |r| ==> !IsJsSpace(r[i])
    ensures (forall i :: 0 <= i < |s| ==> !IsUpperAscii(s[i]))
            ==> forall i :: 0 <= i < |r| ==> !IsUpperAscii(r[i])
    decreases |s|
  {
    if |s| == 0 then ""
    else if IsJsSpace(s[0]) then "-" + Hyphenate(DropSpaces(s[1..]))
    else [s[0]] + Hyphenate(s[1..])
  }

  /** `generateProductId`: the lower-cased name with its whitespace runs turned into `-`. */
  function GenerateProductId(name: string): (id: string)
    ensures |id| <= |name|
    ensures forall i :: 0 <= i < |id| ==> !IsJsSpace(id[i]) && !IsUpperAscii(id[i])
    ensures Filter(id, IsText) == Filter(Lower(name), IsText)
  {
    HyphenateKeepsText(Lower(name));
    Hyphenate(Lower(name))
  }

  /** A character of the name's text: neither whitespace nor the `-` the slug inserts. */
  predicate IsText(c: char) {
    !IsJsSpace(c) && c != '-'
  }

  lemma FilterCons(c: char, s: string, p: char -> bool)
    ensures Filter([c] + s, p) == if p(c) then [c] + Filter(s, p) else Filter(s, p)
  {
    assert ([c] + s)[1..] == s;
  }

  lemma {:induction false} DropSpacesKeepsText(s: string)
    ensures Filter(DropSpaces(s), IsText) == Filter(s, IsText)
    decreases |s|
  {
    if |s| > 0 && IsJsSpace(s[0]) {
      DropSpacesKeepsText(s[1..]);
    }
  }

  /** The step of `HyphenateKeepsText` at a whitespace character. */
  lemma KeepsTextAtSpace(c: char, t: string)
    requires IsJsSpace(c)
    requires Filter(Hyphenate(DropSpaces(t)), IsText) == Filter(DropSpaces(t), IsText)
    ensures Filter(Hyphenate([c] + t), IsText) == Filter([c] + t, IsText)
  {
    HyphenateSpace(c, t);
    DropSpacesKeepsText(t);
    FilterCons('-', Hyphenate(DropSpaces(t)), IsText);
    FilterCons(c, t, IsText);
  }

  /** The step of `HyphenateKeepsText` at a text character. */
  lemma KeepsTextAtText(c: char, t: string)
    requires !IsJsSpace(c)
    requires Filter(Hyphenate(t), IsText) == Filter(t, IsText)
    ensures Filter(Hyphenate([c] + t), IsText) == Filter([c] + t, IsText)
  {
    HyphenateText(c, t);
    FilterCons(c, Hyphenate(t), IsText);
    FilterCons(c, t, IsText);
  }

  /** The slug keeps the text of the string, in order: only whitespace and dashes differ. */
  lemma {:induction false} HyphenateKeepsText(s: string)
    ensures Filter(Hyphenate(s), IsText) == Filter(s, IsText)
    decreases |s|
  {
    if |s| > 0 {
      var c, t := s[0], s[1..];
      HeadTail(s);
      if IsJsSpace(c) {
        HyphenateKeepsText(DropSpaces(t));
        KeepsTextAtSpace(c, t);
      } else {
        HyphenateKeepsText(t);
        KeepsTextAtText(c, t);
      }
    }
  }

  /** A string without whitespace is its own slug. */
  lemma {:induction false} HyphenateSpaceless(s: string)
    requires forall i :: 0 <= i < |s| ==> !IsJsSpace(s[i])
    ensures Hyphenate(s) == s
  {
    if |s| > 0 {
      HyphenateSpaceless(s[1..]);
      assert s == [s[0]] + s[1..];
    }
  }

  /** Skipping the leading whitespace of a string that holds some text leaves whatever
      follows that string untouched. */
  lemma {:induction false} DropSpacesAppend(x: string, y: string)
    requires exists k :: 0 <= k < |x| && !IsJsSpace(x[k])
    ensures DropSpaces(x + y) == DropSpaces(x) + y
    decreases |x|
  {
    assert (x + y)[0] == x[0];
    if IsJsSpace(x[0]) {
      var k :| 0 <= k < |x| && !IsJsSpace(x[k]);
      assert x[1..][k - 1] == x[k];
      assert (x + y)[1..] == x[1..] + y;
      DropSpacesAppend(x[1..], y);
    }
  }

  /** Skipping whitespace skips a leading run of it entirely. */
  lemma {:induction false} DropSpacesAll(w: string, y: string)
    requires forall k :: 0 <= k < |w| ==> IsJsSpace(w[k])
    ensures DropSpaces(w + y) == DropSpaces(y)
    decreases |w|
  {
    if |w| > 0 {
      assert (w + y)[0] == w[0];
      assert (w + y)[1..] == w[1..] + y;
      DropSpacesAll(w[1..], y);
    } else {
      assert w + y == y;
    }
  }

  /** One step of `Hyphenate` on a text character. */
  lemma HyphenateText(c: char, s: string)
    requires !IsJsSpace(c)
    ensures Hyphenate([c] + s) == [c] + Hyphenate(s)
  {
    assert ([c] + s)[1..] == s;
  }

  /** One step of `Hyphenate` on a whitespace character. */
  lemma HyphenateSpace(c: char, s: string)
    requires IsJsSpace(c)
    ensures Hyphenate([c] + s) == "-" + Hyphenate(DropSpaces(s))
  {
    assert ([c] + s)[1..] == s;
  }

  /** The whitespace that `DropSpaces` skips in a string ending in text leaves a shorter
      string that still ends in that text. */
  lemma DropSpacesEndsInText(t: string)
    requires |t| > 0 && !IsJsSpace(t[|t| - 1])
    ensures 0 < |DropSpaces(t)| <= |t| && DropSpaces(t)[|DropSpaces(t)| - 1] == t[|t| - 1]
  {
  }

  /** Nothing is skipped in front of text. */
  lemma DropSpacesText(b: string)
    requires |b| == 0 || !IsJsSpace(b[0])
    ensures DropSpaces(b) == b
  {
  }

  /** The run at the start of a string becomes one `-`. */
  lemma LeadingRun(w: string, b: string)
    requires |w| > 0 && forall k :: 0 <= k < |w| ==> IsJsSpace(w[k])
    requires |b| == 0 || !IsJsSpace(b[0])
    ensures Hyphenate(w + b) == "-" + Hyphenate(b)
  {
    var x := w[1..] + b;
    HeadThen(w, b);
    HyphenateSpace(w[0], x);
    DropSpacesAll(w[1..], b);
    DropSpacesText(b);
  }

  /** A text character in front keeps its place in the slug. */
  lemma TextBeforeRun(c: char, t: string, rest: string, tail: string)
    requires !IsJsSpace(c)
    requires Hyphenate(t + rest) == Hyphenate(t) + tail
    ensures Hyphenate([c] + t + rest) == Hyphenate([c] + t) + tail
  {
    ConcatAssoc([c], t, rest);
    HyphenateText(c, t + rest);
    HyphenateText(c, t);
    ConcatAssoc([c], Hyphenate(t), tail);
  }

  /** Leading whitespace in front of text shrinks to one `-`, whatever follows. */
  lemma SpaceBeforeRun(c: char, t: string, rest: string, tail: string)
    requires IsJsSpace(c)
    requires DropSpaces(t + rest) == DropSpaces(t) + rest
    requires Hyphenate(DropSpaces(t) + rest) == Hyphenate(DropSpaces(t)) + tail
    ensures Hyphenate([c] + t + rest) == Hyphenate([c] + t) + tail
  {
    ConcatAssoc([c], t, rest);
    HyphenateSpace(c, t + rest);
    HyphenateSpace(c, t);
    ConcatAssoc("-", Hyphenate(DropSpaces(t)), tail);
  }

  /** The step of `HyphenateRun` for text that starts with whitespace. */
  lemma SpaceRunStep(a: string, w: string, b: string)
    requires |a| > 1 && IsJsSpace(a[0]) && !IsJsSpace(a[|a| - 1])
    requires Hyphenate(DropSpaces(a[1..]) + (w + b)) == Hyphenate(DropSpaces(a[1..])) + ("-" + Hyphenate(b))
    ensures Hyphenate(a + (w + b)) == Hyphenate(a) + ("-" + Hyphenate(b))
  {
    var t := a[1..];
    HeadTail(a);
    assert exists k :: 0 <= k < |t| && !IsJsSpace(t[k]) by {
      assert !IsJsSpace(t[|t| - 1]);
    }
    DropSpacesAppend(t, w + b);
    SpaceBeforeRun(a[0], t, w + b, "-" + Hyphenate(b));
  }

  /** Behind leading whitespace, a string ending in text still holds that text. */
  lemma SpaceThenText(a: string)
    requires |a| > 0 && IsJsSpace(a[0]) && !IsJsSpace(a[|a| - 1])
    ensures |a| > 1 && 0 < |DropSpaces(a[1..])| && !IsJsSpace(DropSpaces(a[1..])[|DropSpaces(a[1..])| - 1])
  {
    var t := a[1..];
    assert t[|t| - 1] == a[|a| - 1];
    DropSpacesEndsInText(t);
  }

  /** Each maximal run of whitespace becomes exactly one `-`, and the text on either side
      of the run is hyphenated on its own. With `HyphenateSpaceless` this determines the
      slug of every string. */
  lemma {:induction false} HyphenateRun(a: string, w: string, b: string)
    requires |a| == 0 || !IsJsSpace(a[|a| - 1])
    requires |w| > 0 && forall k :: 0 <= k < |w| ==> IsJsSpace(w[k])
    requires |b| == 0 || !IsJsSpace(b[0])
    ensures Hyphenate(a + (w + b)) == Hyphenate(a) + ("-" + Hyphenate(b))
    decreases |a|, 1
  {
    if |a| == 0 {
      assert a + (w + b) == w + b;
      LeadingRun(w, b);
    } else if !IsJsSpace(a[0]) {
      RunBehindText(a, w, b);
    } else {
      RunBehindSpace(a, w, b);
    }
  }

  /** `HyphenateRun` for a string that starts with text. */
  lemma {:induction false} RunBehindText(a: string, w: string, b: string)
    requires |a| > 0 && !IsJsSpace(a[0]) && !IsJsSpace(a[|a| - 1])
    requires |w| > 0 && forall k :: 0 <= k < |w| ==> IsJsSpace(w[k])
    requires |b| == 0 || !IsJsSpace(b[0])
    ensures Hyphenate(a + (w + b)) == Hyphenate(a) + ("-" + Hyphenate(b))
    decreases |a|, 0
  {
    var t := a[1..];
    HeadTail(a);
    if |t| > 0 {
      assert t[|t| - 1] == a[|a| - 1];
    }
    HyphenateRun(t, w, b);
    TextBeforeRun(a[0], t, w + b, "-" + Hyphenate(b));
  }

  /** `HyphenateRun` for a string that starts with whitespace. */
  lemma {:induction false} RunBehindSpace(a: string, w: string, b: string)
    requires |a| > 0 && IsJsSpace(a[0]) && !IsJsSpace(a[|a| - 1])
    requires |w| > 0 && forall k :: 0 <= k < |w| ==> IsJsSpace(w[k])
    requires |b| == 0 || !IsJsSpace(b[0])
    ensures Hyphenate(a + (w + b)) == Hyphenate(a) + ("-" + Hyphenate(b))
    decreases |a|, 0
  {
    SpaceThenText(a);
    HyphenateRun(DropSpaces(a[1..]), w, b);
    SpaceRunStep(a, w, b);
  }

  /** The two-character and the one-character run at the start of a string give the same slug. */
  lemma LeadingRunCollapses(c: char, d: char, b: string)
    requires IsJsSpace(c) && IsJsSpace(d)
    ensures Hyphenate([c, d] + b) == Hyphenate([c] + b)
  {
    var x := [d] + b;
    assert [c, d] + b == [c] + x;
    assert x[0] == d && x[1..] == b;
    assert DropSpaces(x) == DropSpaces(b);
    HyphenateSpace(c, x);
    HyphenateSpace(c, b);
  }

  /** Strings with the same slug keep the same slug behind the same text character. */
  lemma TextFront(e: char, x: string, y: string)
    requires !IsJsSpace(e) && Hyphenate(x) == Hyphenate(y)
    ensures Hyphenate([e] + x) == Hyphenate([e] + y)
  {
    HyphenateText(e, x);
    HyphenateText(e, y);
  }

  /** Strings whose text after leading whitespace has the same slug keep the same slug
      behind a whitespace character. */
  lemma SpaceFront(e: char, x: string, y: string)
    requires IsJsSpace(e) && Hyphenate(DropSpaces(x)) == Hyphenate(DropSpaces(y))
    ensures Hyphenate([e] + x) == Hyphenate([e] + y)
  {
    HyphenateSpace(e, x);
    HyphenateSpace(e, y);
  }

  lemma SkipShortRuns(c: char, d: char, b: string)
    requires IsJsSpace(c) && IsJsSpace(d)
    ensures DropSpaces([c, d] + b) == DropSpaces(b) && DropSpaces([c] + b) == DropSpaces(b)
  {
    assert ([c, d] + b)[1..] == [d] + b && ([d] + b)[1..] == b && ([c] + b)[1..] == b;
  }

  /** Skipping whitespace skips a run of either length. */
  lemma SkipBothRuns(t: string, c: char, d: char, b: string)
    requires IsJsSpace(c) && IsJsSpace(d)
    requires forall k :: 0 <= k < |t| ==> IsJsSpace(t[k])
    ensures DropSpaces(t + ([c, d] + b)) == DropSpaces(t + ([c] + b))
  {
    DropSpacesAll(t, [c, d] + b);
    DropSpacesAll(t, [c] + b);
    SkipShortRuns(c, d, b);
  }

  /** Behind whitespace only, both runs vanish into the same `-`. */
  lemma RunAfterSpaces(e: char, t: string, c: char, d: char, b: string)
    requires IsJsSpace(e) && IsJsSpace(c) && IsJsSpace(d)
    requires forall k :: 0 <= k < |t| ==> IsJsSpace(t[k])
    ensures Hyphenate([e] + (t + ([c, d] + b))) == Hyphenate([e] + (t + ([c] + b)))
  {
    SkipBothRuns(t, c, d, b);
    SpaceFront(e, t + ([c, d] + b), t + ([c] + b));
  }

  /** Behind whitespace and then text, the slugs agree when they agree after the text starts. */
  lemma RunAfterText(e: char, t: string, x: string, y: string)
    requires IsJsSpace(e) && exists k :: 0 <= k < |t| && !IsJsSpace(t[k])
    requires Hyphenate(DropSpaces(t) + x) == Hyphenate(DropSpaces(t) + y)
    ensures Hyphenate([e] + (t + x)) == Hyphenate([e] + (t + y))
  {
    DropSpacesAppend(t, x);
    DropSpacesAppend(t, y);
    SpaceFront(e, t + x, t + y);
  }

  /** A run of two whitespace characters anywhere in a name gives the same slug as one. */
  lemma {:induction false} RunCollapses(a: string, c: char, d: char, b: string)
    requires IsJsSpace(c) && IsJsSpace(d)
    ensures Hyphenate(a + ([c, d] + b)) == Hyphenate(a + ([c] + b))
    decreases |a|
  {
    if |a| == 0 {
      assert a + ([c, d] + b) == [c, d] + b && a + ([c] + b) == [c] + b;
      LeadingRunCollapses(c, d, b);
    } else {
      var e, t := a[0], a[1..];
      HeadThen(a, [c, d] + b);
      HeadThen(a, [c] + b);
      if !IsJsSpace(e) {
        RunCollapses(t, c, d, b);
        TextFront(e, t + ([c, d] + b), t + ([c] + b));
      } else if forall k :: 0 <= k < |t| ==> IsJsSpace(t[k]) {
        RunAfterSpaces(e, t, c, d, b);
      } else {
        RunCollapses(DropSpaces(t), c, d, b);
        RunAfterText(e, t, [c, d] + b, [c] + b);
      }
    }
  }

  /** The id of a product whose id is taken as its name is that same id. */
  lemma GenerateProductIdIdempotent(name: string)
    ensures GenerateProductId(GenerateProductId(name)) == GenerateProductId(name)
  {
    var id := GenerateProductId(name);
    LowerIdentity(id);
    HyphenateSpaceless(id);
  }

  lemma LowerSamples()
    ensures Lower("A  b") == "a  b" && Lower("a b") == "a b"
  {
  }

  /** One character of text is its own slug. */
  lemma HyphenateChar(b: char)
    requires !IsJsSpace(b)
    ensures Hyphenate([b]) == [b]
  {
    assert [b][1..] == [];
  }

  /** A single whitespace character followed by one character of text becomes `-` and that
      character. */
  lemma HyphenateSpaceChar(c: char, b: char)
    requires IsJsSpace(c) && !IsJsSpace(b)
    ensures Hyphenate([c, b]) == ['-', b]
  {
    assert [c, b][1..] == [b];
    DropSpacesText([b]);
    HyphenateChar(b);
  }

  /** One space between two characters of text becomes one `-`. */
  lemma HyphenateOneSpace(a: char, b: char)
    requires !IsJsSpace(a) && !IsJsSpace(b)
    ensures Hyphenate([a, ' ', b]) == [a, '-', b]
  {
    var tail := [' ', b];
    assert [a, ' ', b] == [a] + tail;
    HyphenateText(a, tail);
    HyphenateSpaceChar(' ', b);
    assert [a] + ['-', b] == [a, '-', b];
  }

  /** Two spaces between two characters of text also become one `-`. */
  lemma HyphenateTwoSpaces(a: char, b: char)
    requires !IsJsSpace(a) && !IsJsSpace(b)
    ensures Hyphenate([a, ' ', ' ', b]) == [a, '-', b]
  {
    assert [a, ' ', ' ', b] == [a] + ([' ', ' '] + [b]);
    assert [a, ' ', b] == [a] + ([' '] + [b]);
    RunCollapses([a], ' ', ' ', [b]);
    HyphenateOneSpace(a, b);
  }

  /** Two names that differ only in letter case and in the length of their whitespace runs
      get the same id, so the cart merges them into one entry. */
  lemma SpacingAndCaseShareId()
    ensures GenerateProductId("A  b") == GenerateProductId("a b") == "a-b"
  {
    LowerSamples();
    HyphenateOneSpace('a', 'b');
    HyphenateTwoSpaces('a', 'b');
  }

  // ----- The cart as a sequence ------------------------------------------------------------

  /** `cart.findIndex(item => item.id === id)`. */
  function Position(cart: seq<CartItem>, id: string): (k: int)
    ensures -1 <= k < |cart|
    ensures 0 <= k ==> cart[k].id == id && forall j :: 0 <= j < k ==> cart[j].id != id
    ensures k < 0 <==> forall j :: 0 <= j < |cart| ==> cart[j].id != id
  {
    FindIndex(cart, (it: CartItem) => it.id == id)
  }

  predicate HasId(cart: seq<CartItem>, id: string) {
    exists i :: 0 <= i < |cart| && cart[i].id == id
  }

  predicate UniqueIds(cart: seq<CartItem>) {
    forall i, j :: 0 <= i < j < |cart| ==> cart[i].id != cart[j].id
  }

  /** Every entry holds a quantity of at least one. */
  predicate Positive(cart: seq<CartItem>) {
    forall i :: 0 <= i < |cart| ==> cart[i].quantity >= 1
  }

  /** The cart after `addToCart(product)`: the first entry with the product's id gains the
      product's quantity, or, when there is none, the product is appended. */
  function AddedTo(cart: seq<CartItem>, product: CartItem): (r: seq<CartItem>)
    ensures HasId(cart, product.id) ==> |r| == |cart|
    ensures !HasId(cart, product.id) ==> r == cart + [product]
    ensures forall i :: 0 <= i < |cart| && cart[i].id != product.id ==> r[i] == cart[i]
  {
    var k := Position(cart, product.id);
    if k > -1 then cart[k := cart[k].(quantity := cart[k].quantity + product.quantity)]
    else cart + [product]
  }

  /** The cart after `removeFromCart(id)`: `cart.filter(item => item.id !== id)`. */
  function RemovedFrom(cart: seq<CartItem>, id: string): (r: seq<CartItem>)
    ensures !HasId(r, id)
    ensures forall i :: 0 <= i < |cart| && cart[i].id != id ==> cart[i] in r
    ensures forall i :: 0 <= i < |r| ==> r[i] in cart
  {
    Filter(cart, (it: CartItem) => it.id != id)
  }

  /** Removal works piece by piece: the entries kept from a cart are those kept from its
      front followed by those kept from its back, so their order is the cart's. */
  lemma RemovedFromAppend(a: seq<CartItem>, b: seq<CartItem>, id: string)
    ensures RemovedFrom(a + b, id) == RemovedFrom(a, id) + RemovedFrom(b, id)
  {
    FilterAppend(a, b, (it: CartItem) => it.id != id);
  }

  /** A single entry goes exactly when it carries the id. */
  lemma RemovedFromSingle(item: CartItem, id: string)
    ensures RemovedFrom([item], id) == if item.id == id then [] else [item]
  {
    assert [item][1..] == [];
  }

  /** The clamp of `updateCartItemQuantity`: a quantity below 1 is stored as 1. */
  function AtLeastOne(q: int): (r: int)
    ensures r >= 1
    ensures q >= 1 ==> r == q
    ensures q < 1 ==> r == 1
  {
    if q < 1 then 1 else q
  }

  /** The cart after `updateCartItemQuantity(id, q)`: the first entry with that id holds
      the clamped quantity; without such an entry nothing changes. */
  function UpdatedQuantity(cart: seq<CartItem>, id: string, q: int): (r: seq<CartItem>)
    ensures |r| == |cart|
    ensures !HasId(cart, id) ==> r == cart
    ensures forall i :: 0 <= i < |cart| && cart[i].id != id ==> r[i] == cart[i]
  {
    var k := Position(cart, id);
    if k > -1 then cart[k := cart[k].(quantity := AtLeastOne(q))] else cart
  }

  /** The first entry with the product's id is the one that gains its quantity. */
  lemma AddMerges(cart: seq<CartItem>, product: CartItem, i: int)
    requires 0 <= i < |cart| && cart[i].id == product.id
    requires forall j :: 0 <= j < i ==> cart[j].id != product.id
    ensures AddedTo(cart, product)[i] == cart[i].(quantity := cart[i].quantity + product.quantity)
  {
    assert Position(cart, product.id) == i;
  }

  /** The first entry with the id is the one whose quantity is set, clamped to at least one. */
  lemma UpdateSets(cart: seq<CartItem>, id: string, q: int, i: int)
    requires 0 <= i < |cart| && cart[i].id == id
    requires forall j :: 0 <= j < i ==> cart[j].id != id
    ensures UpdatedQuantity(cart, id, q)[i] == cart[i].(quantity := AtLeastOne(q))
  {
    assert Position(cart, id) == i;
  }

  /** Adding keeps the ids of a cart unique. */
  lemma AddKeepsUnique(cart: seq<CartItem>, product: CartItem)
    requires UniqueIds(cart)
    ensures UniqueIds(AddedTo(cart, product))
  {
    var r := AddedTo(cart, product);
    var k := Position(cart, product.id);
    if k > -1 {
      assert forall i :: 0 <= i < |r| ==> r[i].id == cart[i].id;
    } else {
      assert forall i :: 0 <= i < |cart| ==> r[i] == cart[i];
    }
  }

  /** Updating a quantity keeps the ids of a cart unique. */
  lemma UpdateKeepsUnique(cart: seq<CartItem>, id: string, q: int)
    requires UniqueIds(cart)
    ensures UniqueIds(UpdatedQuantity(cart, id, q))
  {
    var r := UpdatedQuantity(cart, id, q);
    assert forall i :: 0 <= i < |r| ==> r[i].id == cart[i].id;
  }

  /** The three operations keep every quantity at least one, adding when the added
      quantity is at least one. */
  lemma OperationsKeepPositive(cart: seq<CartItem>, product: CartItem, id: string, q: int)
    requires Positive(cart)
    ensures product.quantity >= 1 ==> Positive(AddedTo(cart, product))
    ensures Positive(RemovedFrom(cart, id))
    ensures Positive(UpdatedQuantity(cart, id, q))
  {
    var removed := RemovedFrom(cart, id);
    forall i | 0 <= i < |removed| ensures removed[i].quantity >= 1 {
      var j :| 0 <= j < |cart| && cart[j] == removed[i];
    }
  }

  // ----- updateCartCount -------------------------------------------------------------------

  function Quantity(it: CartItem): int {
    it.quantity
  }

  /** The cart count: `cart.reduce((total, item) => total + item.quantity, 0)`. */
  function Count(cart: seq<CartItem>): int {
    Sum(cart, Quantity)
  }

  /** The quantity held under one id. */
  function QuantityOf(cart: seq<CartItem>, id: string): int {
    if |cart| == 0 then 0
    else (if cart[0].id == id then cart[0].quantity else 0) + QuantityOf(cart[1..], id)
  }

  /** What `updateCartCount` shows: the count and whether checkout is disabled. */
  datatype Badge = Badge(count: int, checkoutDisabled: bool)

  function CartBadge(cart: seq<CartItem>): (b: Badge)
    ensures b.count == Count(cart)
  {
    var total := Count(cart);
    Badge(total, total == 0)
  }

  /** Adding raises the count by exactly the added quantity. */
  lemma AddCount(cart: seq<CartItem>, product: CartItem)
    ensures Count(AddedTo(cart, product)) == Count(cart) + product.quantity
  {
    var k := Position(cart, product.id);
    if k > -1 {
      SumUpdate(cart, k, cart[k].(quantity := cart[k].quantity + product.quantity), Quantity);
    } else {
      SumAppend(cart, [product], Quantity);
      assert [product][1..] == [];
    }
  }

  /** Setting a present entry's quantity changes the count by the difference. */
  lemma UpdateCount(cart: seq<CartItem>, id: string, q: int)
    ensures var k := Position(cart, id);
            Count(UpdatedQuantity(cart, id, q))
            == if k < 0 then Count(cart) else Count(cart) - cart[k].quantity + AtLeastOne(q)
  {
    var k := Position(cart, id);
    if k > -1 {
      SumUpdate(cart, k, cart[k].(quantity := AtLeastOne(q)), Quantity);
    }
  }

  /** Removing lowers the count by the quantity held under the id. */
  lemma {:induction false} RemoveCount(cart: seq<CartItem>, id: string)
    ensures Count(RemovedFrom(cart, id)) == Count(cart) - QuantityOf(cart, id)
  {
    if |cart| > 0 {
      RemoveCount(cart[1..], id);
      var rest := RemovedFrom(cart[1..], id);
      if cart[0].id != id {
        assert RemovedFrom(cart, id) == [cart[0]] + rest;
        assert ([cart[0]] + rest)[1..] == rest;
      } else {
        assert RemovedFrom(cart, id) == rest;
      }
    }
  }

  /** A cart whose quantities are all at least one counts at least one per entry. */
  lemma {:induction false} CountAtLeastLength(cart: seq<CartItem>)
    requires Positive(cart)
    ensures Count(cart) >= |cart|
  {
    if |cart| > 0 {
      assert Positive(cart[1..]);
      CountAtLeastLength(cart[1..]);
    }
  }

  /** On a cart whose quantities are all at least one, checkout is disabled exactly when
      the cart is empty. */
  lemma CheckoutDisabledIffEmpty(cart: seq<CartItem>)
    requires Positive(cart)
    ensures CartBadge(cart).checkoutDisabled <==> |cart| == 0
  {
    CountAtLeastLength(cart);
  }

  // ----- The quantity steppers -------------------------------------------------------------

  /** The minus button of a product card: a value above 1 goes down by one, any other
      value stays. */
  function StepDown(value: int): (r: int)
    ensures value > 1 ==> r == value - 1
    ensures value <= 1 ==> r == value
  {
    if value > 1 then value - 1 else value
  }

  /** The plus button of a product card. */
  function StepUp(value: int): (r: int)
    ensures r == value + 1
  {
    value + 1
  }

  /** The `change` handler of the quantity field: a value below 1, or one that is not a
      number (`None`), becomes 1. */
  function NormalizeInput(value: Option<int>): (r: int)
    ensures r >= 1
    ensures value.Some? && value.value >= 1 ==> r == value.value
  {
    if value.None? || value.value < 1 then 1 else value.value
  }

  /** Pressing the minus button `n` times. */
  function StepsDown(value: int, n: nat): int {
    if n == 0 then value else StepsDown(StepDown(value), n - 1)
  }

  /** However often the minus button is pressed, a value of at least one stays at least one. */
  lemma {:induction false} StepsDownStayPositive(value: int, n: nat)
    requires value >= 1
    ensures StepsDown(value, n) >= 1
    ensures StepsDown(value, n) == if n < value then value - n else 1
  {
    if n > 0 {
      StepsDownStayPositive(StepDown(value), n - 1);
    }
  }

  /** The `findIndex` of the cart operations, as a loop: the first position holding the
      id, or -1. */
  method FindItem(cart: seq<CartItem>, id: string) returns (k: int)
    ensures k == Position(cart, id)
  {
    k := 0;
    while k < |cart| && cart[k].id != id
      invariant 0 <= k <= |cart|
      invariant forall j :: 0 <= j < k ==> cart[j].id != id
    {
      k := k + 1;
    }
    if k == |cart| {
      k := -1;
    }
  }

  // ----- The stored cart -------------------------------------------------------------------

  /** The cart array held in local storage. */
  class Cart {
    var items: seq<CartItem>

    /** `loadCart` when nothing is stored yet: `'[]'`. */
    constructor()
      ensures items == []
    {
      items := [];
    }

    /** `addToCart(product)`. */
    method AddToCart(product: CartItem)
      modifies this
      ensures items == AddedTo(old(items), product)
      ensures Count(items) == old(Count(items)) + product.quantity
      ensures old(UniqueIds(items)) ==> UniqueIds(items)
    {
      AddCount(items, product);
      if UniqueIds(items) {
        AddKeepsUnique(items, product);
      }
      var k := FindItem(items, product.id);
      if k > -1 {
        items := items[k := items[k].(quantity := items[k].quantity + product.quantity)];
      } else {
        items := items + [product];
      }
    }

    /** `removeFromCart(id)`. */
    method RemoveFromCart(id: string)
      modifies this
      ensures items == RemovedFrom(old(items), id)
      ensures Count(items) == old(Count(items)) - old(QuantityOf(items, id))
    {
      RemoveCount(items, id);
      items := Filter(items, (it: CartItem) => it.id != id);
    }

    /** `updateCartItemQuantity(id, q)`. */
    method UpdateCartItemQuantity(id: string, q: int)
      modifies this
      ensures items == UpdatedQuantity(old(items), id, q)
      ensures old(UniqueIds(items)) ==> UniqueIds(items)
    {
      if UniqueIds(items) {
        UpdateKeepsUnique(items, id, q);
      }
      var k := FindItem(items, id);
      if k > -1 {
        items := items[k := items[k].(quantity := q)];
        if items[k].quantity < 1 {
          items := items[k := items[k].(quantity := 1)];
        }
      }
    }

    /** The minus button of a cart row showing quantity `shown`: only a quantity above one
        is lowered, so the button never stores a quantity below one. */
    method MinusClicked(id: string, shown: int)
      modifies this
      ensures shown > 1 ==> items == UpdatedQuantity(old(items), id, shown - 1)
      ensures shown <= 1 ==> items == old(items)
      ensures old(Positive(items)) ==> Positive(items)
    {
      if Positive(items) {
        OperationsKeepPositive(items, CartItem("", "", "", 0, "", 1, ""), id, shown - 1);
      }
      if shown > 1 {
        UpdateCartItemQuantity(id, shown - 1);
      }
    }

    /** The plus button of a cart row showing quantity `shown`. */
    method PlusClicked(id: string, shown: int)
      modifies this
      ensures items == UpdatedQuantity(old(items), id, shown + 1)
    {
      UpdateCartItemQuantity(id, shown + 1);
    }
  }
}
