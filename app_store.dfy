/**
 * The session store of src/store/appStore.js: survey answers, current
 * selections, cart, wishlist and two modal flags, changed by action methods.
 * Each action computes its new field value purely; those computations are
 * the functions below, and the `Store` class applies them to its fields.
 */
module StoreUpdates {
  import opened JsBuiltins
  import opened Catalog
  import opened RecommendationLogic

  /** A cart line: the product record with a quantity added to it. */
  datatype CartItem = CartItem(product: Product, quantity: int)

  // ---------------------------------------------------------------------------
  // answerQuestion
  // ---------------------------------------------------------------------------

  /**
   * `newAnswers[questionIndex] = answer` on a copy: past the end the array
   * grows, leaving unanswered holes before the new entry.
   */
  function SetAnswer(answers: Answers, i: nat, a: AnswerValue): (r: Answers)
    ensures At(r, i) == Some(a)
    ensures forall j: nat :: j != i ==> At(r, j) == At(answers, j)
    ensures |r| == if i < |answers| then |answers| else i + 1
  {
    if i < |answers| then answers[i := Some(a)]
    else answers + seq(i - |answers|, _ => None) + [Some(a)]
  }

  // ---------------------------------------------------------------------------
  // The cart
  // ---------------------------------------------------------------------------

  /** `cart.find(item => item.id === id)` finds something. */
  predicate InCart(cart: seq<CartItem>, id: int)
  {
    exists k | 0 <= k < |cart| :: cart[k].product.id == id
  }

  /** No two cart lines share a product id. */
  predicate UniqueCartIds(cart: seq<CartItem>)
  {
    forall k, l :: 0 <= k < l < |cart| ==> cart[k].product.id != cart[l].product.id
  }

  /** The cart invariant: ids are unique and every quantity is at least one. */
  predicate CartValid(cart: seq<CartItem>)
  {
    UniqueCartIds(cart) && forall k :: 0 <= k < |cart| ==> cart[k].quantity >= 1
  }

  /** How many lines of the cart carry product id `id`. */
  function Lines(cart: seq<CartItem>, id: int): nat
  {
    if cart == [] then 0
    else (if cart[0].product.id == id then 1 else 0) + Lines(cart[1..], id)
  }

  /** How many units of product `id` the cart holds, summed over its lines. */
  function Quantity(cart: seq<CartItem>, id: int): int
  {
    if cart == [] then 0
    else (if cart[0].product.id == id then cart[0].quantity else 0) + Quantity(cart[1..], id)
  }

  /** The line update of `addToCart`: one more unit on the lines of `id`. */
  function Bump(id: int): CartItem -> CartItem
  {
    (item: CartItem) => if item.product.id == id then item.(quantity := item.quantity + 1) else item
  }

  /** The line update of `updateCartQuantity`: quantity `q` on the lines of `id`. */
  function SetQuantity(id: int, q: int): CartItem -> CartItem
  {
    (item: CartItem) => if item.product.id == id then item.(quantity := q) else item
  }

  /** The filter of `removeFromCart`: lines of other products. */
  function OtherLine(id: int): CartItem -> bool
  {
    (item: CartItem) => item.product.id != id
  }

  /**
   * `addToCart`: a product already in the cart gets one more unit on its
   * line; a new product is appended with quantity one.
   */
  function AddToCart(cart: seq<CartItem>, p: Product): (r: seq<CartItem>)
    ensures InCart(r, p.id)
    ensures !InCart(cart, p.id) ==> |r| == |cart| + 1 && r[..|cart|] == cart && r[|cart|] == CartItem(p, 1)
    ensures InCart(cart, p.id) ==> (
      && |r| == |cart|
      && forall k :: 0 <= k < |cart| ==>
        r[k].product == cart[k].product &&
        r[k].quantity == if cart[k].product.id == p.id then cart[k].quantity + 1 else cart[k].quantity)
  {
    if InCart(cart, p.id) then
      var r := Map(cart, Bump(p.id));
      var k :| 0 <= k < |cart| && cart[k].product.id == p.id;
      assert r[k].product.id == p.id;
      r
    else
      var r := cart + [CartItem(p, 1)];
      assert r[|cart|].product.id == p.id;
      r
  }

  /** `removeFromCart`: every line of `id` goes, the others stay in order. */
  function RemoveFromCart(cart: seq<CartItem>, id: int): (r: seq<CartItem>)
    ensures !InCart(r, id)
    ensures SelectsExactly(r, cart, OtherLine(id))
  {
    FilterSelectsExactly(cart, OtherLine(id));
    Filter(cart, OtherLine(id))
  }

  /**
   * `updateCartQuantity`: a quantity of zero or less removes the product;
   * otherwise its lines take the new quantity and nothing else changes.
   */
  function UpdateCartQuantity(cart: seq<CartItem>, id: int, q: int): (r: seq<CartItem>)
    ensures q <= 0 ==> r == RemoveFromCart(cart, id)
    ensures q > 0 ==> (
      && |r| == |cart|
      && forall k :: 0 <= k < |cart| ==>
        r[k].product == cart[k].product &&
        r[k].quantity == if cart[k].product.id == id then q else cart[k].quantity)
  {
    if q <= 0 then RemoveFromCart(cart, id) else Map(cart, SetQuantity(id, q))
  }

  /** Quantity is additive over concatenation. */
  lemma {:induction false} QuantityConcat(a: seq<CartItem>, b: seq<CartItem>, id: int)
    ensures Quantity(a + b, id) == Quantity(a, id) + Quantity(b, id)
    ensures Lines(a + b, id) == Lines(a, id) + Lines(b, id)
  {
    if a == [] {
      assert a + b == b;
    } else {
      assert (a + b)[1..] == a[1..] + b;
      QuantityConcat(a[1..], b, id);
    }
  }

  /** A product is in the cart exactly when it has a line there. */
  lemma {:induction false} LinesCountMembership(cart: seq<CartItem>, id: int)
    ensures InCart(cart, id) <==> Lines(cart, id) > 0
    ensures UniqueCartIds(cart) ==> Lines(cart, id) <= 1
  {
    if cart != [] {
      LinesCountMembership(cart[1..], id);
      if InCart(cart[1..], id) {
        var k :| 0 <= k < |cart| - 1 && cart[1..][k].product.id == id;
        assert cart[k + 1].product.id == id;
      }
      if InCart(cart, id) && cart[0].product.id != id {
        var k :| 0 <= k < |cart| && cart[k].product.id == id;
        assert cart[1..][k - 1].product.id == id;
      }
    }
  }

  /** Bumping the lines of `id` adds one unit per line of `id` and leaves other products alone. */
  lemma {:induction false} QuantityAfterBump(cart: seq<CartItem>, id: int, x: int)
    ensures Quantity(Map(cart, Bump(id)), x) ==
      Quantity(cart, x) + (if x == id then Lines(cart, id) else 0)
  {
    if cart != [] {
      assert cart == [cart[0]] + cart[1..];
      MapConcat([cart[0]], cart[1..], Bump(id));
      QuantityAfterBump(cart[1..], id, x);
    }
  }

  /** Setting the lines of `id` to `q` gives `q` units per line of `id` and leaves other products alone. */
  lemma {:induction false} QuantityAfterSet(cart: seq<CartItem>, id: int, q: int, x: int)
    ensures Quantity(Map(cart, SetQuantity(id, q)), x) ==
      if x == id then q * Lines(cart, id) else Quantity(cart, x)
  {
    if cart != [] {
      assert cart == [cart[0]] + cart[1..];
      MapConcat([cart[0]], cart[1..], SetQuantity(id, q));
      QuantityAfterSet(cart[1..], id, q, x);
    }
  }

  /** Removing `id` leaves no unit of it and every other product's units as they were. */
  lemma {:induction false} QuantityAfterRemove(cart: seq<CartItem>, id: int, x: int)
    ensures Quantity(RemoveFromCart(cart, id), x) == if x == id then 0 else Quantity(cart, x)
  {
    if cart != [] {
      assert cart == [cart[0]] + cart[1..];
      FilterConcat([cart[0]], cart[1..], OtherLine(id));
      QuantityAfterRemove(cart[1..], id, x);
      QuantityConcat(Filter([cart[0]], OtherLine(id)), Filter(cart[1..], OtherLine(id)), x);
    }
  }

  /** Adding a product puts one more unit of it in the cart and changes no other product. */
  lemma AddToCartQuantity(cart: seq<CartItem>, p: Product, x: int)
    requires UniqueCartIds(cart)
    ensures Quantity(AddToCart(cart, p), x) == Quantity(cart, x) + (if x == p.id then 1 else 0)
  {
    LinesCountMembership(cart, p.id);
    if InCart(cart, p.id) {
      QuantityAfterBump(cart, p.id, x);
    } else {
      QuantityConcat(cart, [CartItem(p, 1)], x);
    }
  }

  /**
   * Updating the quantity of a product in the cart to a positive `q` leaves
   * exactly `q` units of it; a product not in the cart stays absent; other
   * products are untouched; zero or less removes it.
   */
  lemma UpdateCartQuantityEffect(cart: seq<CartItem>, id: int, q: int, x: int)
    requires UniqueCartIds(cart)
    ensures Quantity(UpdateCartQuantity(cart, id, q), x) ==
      if x != id then Quantity(cart, x)
      else if q <= 0 || !InCart(cart, id) then 0
      else q
  {
    LinesCountMembership(cart, id);
    if q <= 0 {
      QuantityAfterRemove(cart, id, x);
    } else {
      QuantityAfterSet(cart, id, q, x);
      if !InCart(cart, id) {
        assert Lines(cart, id) == 0;
      }
    }
  }

  /** Updating the quantity of a product that is not in the cart changes nothing. */
  lemma UpdateAbsentIsNoOp(cart: seq<CartItem>, id: int, q: int)
    requires !InCart(cart, id)
    ensures UpdateCartQuantity(cart, id, q) == cart
  {
    if q <= 0 {
      FilterKeepsAll(cart, OtherLine(id));
    } else {
      MapUnchanged(cart, SetQuantity(id, q));
    }
  }

  /** An order-preserving selection of a cart with unique ids has unique ids. */
  lemma SelectionKeepsUniqueIds(r: seq<CartItem>, cart: seq<CartItem>, keep: CartItem -> bool)
    requires UniqueCartIds(cart)
    requires SelectsExactly(r, cart, keep)
    ensures UniqueCartIds(r)
    ensures forall k :: 0 <= k < |r| ==> r[k] in cart
  {
    var idx :| OrderedSelection(r, cart, idx) && forall i :: 0 <= i < |cart| ==> (keep(cart[i]) <==> i in idx);
    forall k, l | 0 <= k < l < |r| ensures r[k].product.id != r[l].product.id {
      assert r[k] == cart[idx[k]] && r[l] == cart[idx[l]] && idx[k] < idx[l];
    }
  }

  /** `removeFromCart` keeps ids unique and quantities positive. */
  lemma RemoveFromCartKeepsCartValid(cart: seq<CartItem>, id: int)
    requires CartValid(cart)
    ensures CartValid(RemoveFromCart(cart, id))
  {
    SelectionKeepsUniqueIds(RemoveFromCart(cart, id), cart, OtherLine(id));
  }

  /** `addToCart` keeps ids unique and quantities positive. */
  lemma AddToCartKeepsCartValid(cart: seq<CartItem>, p: Product)
    requires CartValid(cart)
    ensures CartValid(AddToCart(cart, p))
  {
    var added := AddToCart(cart, p);
    if !InCart(cart, p.id) {
      forall k, l | 0 <= k < l < |added| ensures added[k].product.id != added[l].product.id {
        if l == |cart| {
          assert added[k] == cart[k];
        }
      }
    }
  }

  /** `updateCartQuantity` keeps ids unique and quantities positive. */
  lemma UpdateCartQuantityKeepsCartValid(cart: seq<CartItem>, id: int, q: int)
    requires CartValid(cart)
    ensures CartValid(UpdateCartQuantity(cart, id, q))
  {
    if q <= 0 {
      RemoveFromCartKeepsCartValid(cart, id);
    }
  }

  // ---------------------------------------------------------------------------
  // The wishlist
  // ---------------------------------------------------------------------------

  /** `wishlist.find(item => item.id === id)` finds something. */
  predicate InWishlist(wishlist: seq<Product>, id: int)
  {
    exists k | 0 <= k < |wishlist| :: wishlist[k].id == id
  }

  /** No two wishlist entries share a product id. */
  predicate UniqueWishlistIds(wishlist: seq<Product>)
  {
    forall k, l :: 0 <= k < l < |wishlist| ==> wishlist[k].id != wishlist[l].id
  }

  /** The filter of `removeFromWishlist`: entries of other products. */
  function OtherProduct(id: int): Product -> bool
  {
    (p: Product) => p.id != id
  }

  /** `addToWishlist`: append the product unless its id is already there. */
  function AddToWishlist(wishlist: seq<Product>, p: Product): (r: seq<Product>)
    ensures InWishlist(r, p.id)
    ensures forall id :: InWishlist(r, id) <==> InWishlist(wishlist, id) || id == p.id
    ensures InWishlist(wishlist, p.id) ==> r == wishlist
    ensures !InWishlist(wishlist, p.id) ==> r == wishlist + [p]
    ensures UniqueWishlistIds(wishlist) ==> UniqueWishlistIds(r)
  {
    if InWishlist(wishlist, p.id) then wishlist
    else
      var r := wishlist + [p];
      assert r[|wishlist|].id == p.id;
      assert forall id :: InWishlist(r, id) ==> InWishlist(wishlist, id) || id == p.id by {
        forall id | InWishlist(r, id) ensures InWishlist(wishlist, id) || id == p.id {
          var k :| 0 <= k < |r| && r[k].id == id;
          if k < |wishlist| { assert wishlist[k].id == id; }
        }
      }
      assert forall id :: InWishlist(wishlist, id) ==> InWishlist(r, id) by {
        forall id | InWishlist(wishlist, id) ensures InWishlist(r, id) {
          var k :| 0 <= k < |wishlist| && wishlist[k].id == id;
          assert r[k].id == id;
        }
      }
      r
  }

  /** `removeFromWishlist`: every entry of `id` goes, the others stay in order. */
  function RemoveFromWishlist(wishlist: seq<Product>, id: int): (r: seq<Product>)
    ensures forall x :: InWishlist(r, x) <==> InWishlist(wishlist, x) && x != id
    ensures SelectsExactly(r, wishlist, OtherProduct(id))
  {
    FilterSelectsExactly(wishlist, OtherProduct(id));
    FilteredWishlistIds(wishlist, id);
    Filter(wishlist, OtherProduct(id))
  }

  /** The ids left by the filter of `removeFromWishlist` are the old ones except `id`. */
  lemma FilteredWishlistIds(wishlist: seq<Product>, id: int)
    ensures forall x :: InWishlist(Filter(wishlist, OtherProduct(id)), x) <==> InWishlist(wishlist, x) && x != id
  {
    var r := Filter(wishlist, OtherProduct(id));
    forall x ensures InWishlist(r, x) ==> InWishlist(wishlist, x) && x != id {
      if InWishlist(r, x) {
        var k :| 0 <= k < |r| && r[k].id == x;
        assert r[k] in wishlist && OtherProduct(id)(r[k]);
        var i :| 0 <= i < |wishlist| && wishlist[i] == r[k];
      }
    }
    forall x ensures InWishlist(wishlist, x) && x != id ==> InWishlist(r, x) {
      if InWishlist(wishlist, x) && x != id {
        var i :| 0 <= i < |wishlist| && wishlist[i].id == x;
        assert OtherProduct(id)(wishlist[i]);
        assert wishlist[i] in r;
        var k :| 0 <= k < |r| && r[k] == wishlist[i];
      }
    }
  }

  /**
   * The heart button of a product card or detail page: remove the product
   * when its id is in the wishlist, add it otherwise.
   */
  function ToggleWishlistItem(wishlist: seq<Product>, p: Product): (r: seq<Product>)
    ensures InWishlist(r, p.id) <==> !InWishlist(wishlist, p.id)
    ensures forall x :: x != p.id ==> (InWishlist(r, x) <==> InWishlist(wishlist, x))
  {
    if InWishlist(wishlist, p.id) then RemoveFromWishlist(wishlist, p.id) else AddToWishlist(wishlist, p)
  }

  /** Adding the same product twice is adding it once. */
  lemma AddToWishlistIdempotent(wishlist: seq<Product>, p: Product)
    ensures AddToWishlist(AddToWishlist(wishlist, p), p) == AddToWishlist(wishlist, p)
  {
  }

  /** Removing keeps wishlist ids unique. */
  lemma RemoveFromWishlistKeepsUnique(wishlist: seq<Product>, id: int)
    requires UniqueWishlistIds(wishlist)
    ensures UniqueWishlistIds(RemoveFromWishlist(wishlist, id))
  {
    var r := RemoveFromWishlist(wishlist, id);
    var idx :| OrderedSelection(r, wishlist, idx) &&
      forall i :: 0 <= i < |wishlist| ==> (OtherProduct(id)(wishlist[i]) <==> i in idx);
    forall k, l | 0 <= k < l < |r| ensures r[k].id != r[l].id {
      assert r[k] == wishlist[idx[k]] && r[l] == wishlist[idx[l]] && idx[k] < idx[l];
    }
  }

  /** Toggling a product that is not in the wishlist twice gives the wishlist back. */
  lemma ToggleTwiceRestoresWishlist(wishlist: seq<Product>, p: Product)
    requires !InWishlist(wishlist, p.id)
    ensures ToggleWishlistItem(ToggleWishlistItem(wishlist, p), p) == wishlist
  {
    var added := wishlist + [p];
    assert ToggleWishlistItem(wishlist, p) == added;
    FilterConcat(wishlist, [p], OtherProduct(p.id));
    FilterKeepsAll(wishlist, OtherProduct(p.id));
    assert Filter([p], OtherProduct(p.id)) == [];
  }
}

/** The store object: its fields and its actions. */
module AppStore {
  import opened JsBuiltins
  import opened Catalog
  import opened RecommendationLogic
  import opened StoreUpdates


  /** Every field of the store, as one value. */
  datatype StoreState = StoreState(
    answers: Answers,
    selectedCelebrity: Option<Celebrity>,
    selectedCategory: Option<string>,
    selectedProduct: Option<Product>,
    recommendations: Recommendations,
    cart: seq<CartItem>,
    wishlist: seq<Product>,
    showCart: bool,
    showWishlist: bool)

  /** The store as created, and as `reset` leaves it. */
  const InitialState := StoreState([], None, None, None, Recommendations([], []), [], [], false, false)

  /** The store invariant: cart ids unique with positive quantities, wishlist ids unique. */
  predicate StateValid(s: StoreState)
  {
    CartValid(s.cart) && UniqueWishlistIds(s.wishlist)
  }

  /** The initial state satisfies the store invariant. */
  lemma InitialStateValid()
    ensures StateValid(InitialState)
  {
  }

  class Store {
    var answers: Answers
    var selectedCelebrity: Option<Celebrity>
    var selectedCategory: Option<string>
    var selectedProduct: Option<Product>
    var recommendations: Recommendations
    var cart: seq<CartItem>
    var wishlist: seq<Product>
    var showCart: bool
    var showWishlist: bool

    /** The current value of every field. */
    function State(): StoreState
      reads this
    {
      StoreState(answers, selectedCelebrity, selectedCategory, selectedProduct,
        recommendations, cart, wishlist, showCart, showWishlist)
    }

    ghost predicate Valid()
      reads this
    {
      StateValid(State())
    }

    constructor ()
      ensures State() == InitialState && Valid()
    {
      answers := [];
      selectedCelebrity, selectedCategory, selectedProduct := None, None, None;
      recommendations := Recommendations([], []);
      cart, wishlist := [], [];
      showCart, showWishlist := false, false;
    }

    method AnswerQuestion(questionIndex: nat, answer: AnswerValue)
      requires Valid()
      modifies this
      ensures Valid()
      ensures State() == old(State()).(answers := SetAnswer(old(answers), questionIndex, answer))
    {
      answers := SetAnswer(answers, questionIndex, answer);
    }

    method SelectCelebrity(celebrity: Celebrity)
      requires Valid()
      modifies this
      ensures Valid()
      ensures State() == old(State()).(selectedCelebrity := Some(celebrity))
    {
      selectedCelebrity := Some(celebrity);
    }

    method SelectCategory(category: Option<string>)
      requires Valid()
      modifies this
      ensures Valid()
      ensures State() == old(State()).(selectedCategory := category)
    {
      selectedCategory := category;
    }

    method ViewAllProducts()
      requires Valid()
      modifies this
      ensures Valid()
      ensures State() == old(State()).(selectedCategory := None)
    {
      selectedCategory := None;
    }

    method SelectProduct(product: Product)
      requires Valid()
      modifies this
      ensures Valid()
      ensures State() == old(State()).(selectedProduct := Some(product))
    {
      selectedProduct := Some(product);
    }

    method AddToCart(product: Product)
      requires Valid()
      modifies this
      ensures Valid()
      ensures State() == old(State()).(cart := StoreUpdates.AddToCart(old(cart), product))
      ensures Quantity(cart, product.id) == old(Quantity(cart, product.id)) + 1
    {
      AddToCartKeepsCartValid(cart, product);
      AddToCartQuantity(cart, product, product.id);
      cart := StoreUpdates.AddToCart(cart, product);
    }

    method AddToWishlist(product: Product)
      requires Valid()
      modifies this
      ensures Valid()
      ensures State() == old(State()).(wishlist := StoreUpdates.AddToWishlist(old(wishlist), product))
    {
      wishlist := StoreUpdates.AddToWishlist(wishlist, product);
    }

    method RemoveFromCart(productId: int)
      requires Valid()
      modifies this
      ensures Valid()
      ensures State() == old(State()).(cart := StoreUpdates.RemoveFromCart(old(cart), productId))
      ensures !InCart(cart, productId)
    {
      RemoveFromCartKeepsCartValid(cart, productId);
      cart := StoreUpdates.RemoveFromCart(cart, productId);
    }

    method RemoveFromWishlist(productId: int)
      requires Valid()
      modifies this
      ensures Valid()
      ensures State() == old(State()).(wishlist := StoreUpdates.RemoveFromWishlist(old(wishlist), productId))
    {
      RemoveFromWishlistKeepsUnique(wishlist, productId);
      wishlist := StoreUpdates.RemoveFromWishlist(wishlist, productId);
    }

    method UpdateCartQuantity(productId: int, quantity: int)
      requires Valid()
      modifies this
      ensures Valid()
      ensures State() == old(State()).(cart := StoreUpdates.UpdateCartQuantity(old(cart), productId, quantity))
    {
      UpdateCartQuantityKeepsCartValid(cart, productId, quantity);
      cart := StoreUpdates.UpdateCartQuantity(cart, productId, quantity);
    }

    method ToggleCart()
      requires Valid()
      modifies this
      ensures Valid()
      ensures State() == old(State()).(showCart := !old(showCart))
    {
      showCart := !showCart;
    }

    method ToggleWishlist()
      requires Valid()
      modifies this
      ensures Valid()
      ensures State() == old(State()).(showWishlist := !old(showWishlist))
    {
      showWishlist := !showWishlist;
    }

    /** The wishlist heart button (src/components/ProductCard.jsx, src/pages/ProductDetail.jsx). */
    method ToggleWishlistItem(product: Product)
      requires Valid()
      modifies this
      ensures Valid()
      ensures State() == old(State()).(wishlist := StoreUpdates.ToggleWishlistItem(old(wishlist), product))
    {
      if InWishlist(wishlist, product.id) {
        RemoveFromWishlist(product.id);
      } else {
        AddToWishlist(product);
      }
    }

    method Reset()
      requires Valid()
      modifies this
      ensures Valid()
      ensures State() == InitialState
    {
      answers := [];
      selectedCelebrity, selectedCategory, selectedProduct := None, None, None;
      recommendations := Recommendations([], []);
      cart, wishlist := [], [];
      showCart, showWishlist := false, false;
    }
  }

  /** Opening and closing the cart panel leaves the store as it was. */
  method ToggleCartTwice(store: Store)
    requires store.Valid()
    modifies store
    ensures store.Valid() && store.State() == old(store.State())
  {
    store.ToggleCart();
    store.ToggleCart();
  }
}
