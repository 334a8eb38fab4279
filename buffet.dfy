/**
 * The buffet page (src/pages/Buffet.tsx): the product search, the cart of
 * `{ productId, quantity }` entries, its total and its item count.
 */
module Buffet {
  import opened Wrappers
  import opened Seqs
  import opened JsText
  import opened Types

  /** `filteredProducts`: products whose name or category contains the query. */
  function FilteredProducts(products: seq<Product>, query: string): seq<Product>
  {
    Filter(products, Matching(query))
  }

  /** The search predicate: the name or the category contains the query. */
  function Matching(query: string): Product -> bool
  {
    (p: Product) => Contains(p.name, query) || Contains(p.category, query)
  }

  /** The search keeps exactly the matching products, in list order; an empty query keeps them all. */
  lemma SearchKeepsExactlyTheMatches(products: seq<Product>, query: string)
    ensures var r := FilteredProducts(products, query);
      (forall i :: 0 <= i < |r| ==> r[i] in products && (Contains(r[i].name, query) || Contains(r[i].category, query)))
      && (forall i :: 0 <= i < |products| && (Contains(products[i].name, query) || Contains(products[i].category, query)) ==>
            products[i] in r)
    ensures FilteredProducts(products, "") == products
  {
    EmptyQueryKeepsAll(products);
  }

  /**
   * The search keeps list order and multiplicity: searching two lists one after the other is
   * searching their concatenation, and a single product is kept exactly when it matches.
   */
  lemma {:induction false} SearchKeepsOrder(a: seq<Product>, b: seq<Product>, query: string)
    ensures FilteredProducts(a + b, query) == FilteredProducts(a, query) + FilteredProducts(b, query)
    ensures forall p: Product :: FilteredProducts([p], query)
              == if Contains(p.name, query) || Contains(p.category, query) then [p] else []
  {
    FilterAppend(a, b, Matching(query));
    forall p: Product
      ensures FilteredProducts([p], query) == if Contains(p.name, query) || Contains(p.category, query) then [p] else []
    {
      FilterSnoc([], p, Matching(query));
      assert [] + [p] == [p];
    }
  }

  lemma EmptyQueryKeepsAll(products: seq<Product>)
    ensures FilteredProducts(products, "") == products
  {
    forall i | 0 <= i < |products| ensures Matching("")(products[i]) {
      ContainsEmpty(products[i].name);
    }
    FilterAll(products, Matching(""));
  }

  predicate InCart(cart: seq<CartItem>, id: string)
  {
    exists i :: 0 <= i < |cart| && cart[i].productId == id
  }

  predicate DistinctIds(cart: seq<CartItem>)
  {
    forall i, j :: 0 <= i < j < |cart| ==> cart[i].productId != cart[j].productId
  }

  /** `prev.map(item => item.productId === id ? { ...item, quantity: item.quantity + 1 } : item)`. */
  function Increment(cart: seq<CartItem>, id: string): (r: seq<CartItem>)
    ensures |r| == |cart|
    ensures forall i :: 0 <= i < |cart| ==>
              r[i] == if cart[i].productId == id then cart[i].(quantity := cart[i].quantity + 1) else cart[i]
  {
    if cart == [] then []
    else
      var last := cart[|cart| - 1];
      Increment(cart[..|cart| - 1], id) + [if last.productId == id then last.(quantity := last.quantity + 1) else last]
  }

  /** `addToCart(id)`: one more of a product already in the cart, else a new entry of one at the end. */
  function AddToCart(cart: seq<CartItem>, id: string): seq<CartItem>
  {
    if InCart(cart, id) then Increment(cart, id) else cart + [CartItem(id, 1)]
  }

  function Quantity(item: CartItem): int { item.quantity }

  /** The entries for one product: `item.productId === id`. */
  function ForProduct(id: string): CartItem -> bool
  {
    (item: CartItem) => item.productId == id
  }

  /** `cart.reduce((sum, item) => sum + item.quantity, 0)`. */
  function ItemCount(cart: seq<CartItem>): int
  {
    SumOf(cart, Quantity)
  }

  /** `product?.price || 0`: an entry whose product is not listed is priced 0. */
  function PriceOf(products: seq<Product>, id: string): int
  {
    match FindProduct(products, id)
    case None => 0
    case Some(p) => p.price
  }

  /** One entry's share of the total: price times quantity. */
  function LineTotal(products: seq<Product>, item: CartItem): int
  {
    PriceOf(products, item.productId) * item.quantity
  }

  /** The reducer's term for one entry: its quantity times its product's price. */
  function LineCost(products: seq<Product>): CartItem -> int
  {
    (item: CartItem) => LineTotal(products, item)
  }

  /** `getCartTotal()`. */
  function CartTotal(products: seq<Product>, cart: seq<CartItem>): int
  {
    SumOf(cart, LineCost(products))
  }

  lemma LineTotalOfOneMore(products: seq<Product>, item: CartItem)
    ensures LineTotal(products, item.(quantity := item.quantity + 1)) == LineTotal(products, item) + PriceOf(products, item.productId)
  {
  }

  lemma LineTotalTimes(price: int, c: int)
    ensures price * (c + 1) == price * c + price
  {
  }

  /** `setCart([])`. */
  function ClearCart(): seq<CartItem>
  {
    []
  }

  /** Adding a product already in the cart changes only its entry, by one, and nothing moves. */
  lemma AddExisting(cart: seq<CartItem>, id: string, k: int)
    requires DistinctIds(cart) && 0 <= k < |cart| && cart[k].productId == id
    ensures var r := AddToCart(cart, id);
      |r| == |cart| && r[k] == CartItem(id, cart[k].quantity + 1)
      && forall i :: 0 <= i < |cart| && i != k ==> r[i] == cart[i]
  {
  }

  /** Adding a product not in the cart appends an entry of one. */
  lemma AddNew(cart: seq<CartItem>, id: string)
    requires !InCart(cart, id)
    ensures AddToCart(cart, id) == cart + [CartItem(id, 1)]
  {
  }

  /** Every `addToCart` keeps the cart's product ids pairwise distinct. */
  lemma AddKeepsIdsDistinct(cart: seq<CartItem>, id: string)
    requires DistinctIds(cart)
    ensures DistinctIds(AddToCart(cart, id))
  {
  }

  /** Incrementing adds one to the item count per matching entry. */
  lemma {:induction false} IncrementCount(cart: seq<CartItem>, id: string)
    ensures ItemCount(Increment(cart, id)) == ItemCount(cart) + Count(cart, ForProduct(id))
  {
    var f := Quantity;
    var p := ForProduct(id);
    if cart != [] {
      var init := cart[..|cart| - 1];
      var last := cart[|cart| - 1];
      IncrementCount(init, id);
      assert cart == init + [last];
      var r := Increment(cart, id);
      assert r == Increment(init, id) + [r[|cart| - 1]];
      SumSnoc(Increment(init, id), r[|cart| - 1], f);
      SumSnoc(init, last, f);
      FilterSnoc(init, last, p);
    }
  }

  /** In a cart with distinct ids, a product in the cart matches exactly one entry. */
  lemma {:induction false} CountOfDistinct(cart: seq<CartItem>, id: string)
    requires DistinctIds(cart)
    ensures Count(cart, ForProduct(id)) == if InCart(cart, id) then 1 else 0
  {
    var p := ForProduct(id);
    if cart != [] {
      var init := cart[..|cart| - 1];
      var last := cart[|cart| - 1];
      CountOfDistinct(init, id);
      assert cart == init + [last];
      FilterSnoc(init, last, p);
      if last.productId == id {
        assert !InCart(init, id);
      } else {
        assert InCart(cart, id) ==> InCart(init, id);
      }
    }
  }

  /** The item count rises by exactly one per `addToCart`. */
  lemma AddCountsOne(cart: seq<CartItem>, id: string)
    requires DistinctIds(cart)
    ensures ItemCount(AddToCart(cart, id)) == ItemCount(cart) + 1
  {
    if InCart(cart, id) {
      IncrementCount(cart, id);
      CountOfDistinct(cart, id);
    } else {
      SumSnoc(cart, CartItem(id, 1), Quantity);
    }
  }

  /** Incrementing adds the product's price to the total per matching entry. */
  lemma {:induction false} IncrementTotal(products: seq<Product>, cart: seq<CartItem>, id: string)
    ensures CartTotal(products, Increment(cart, id))
         == CartTotal(products, cart) + PriceOf(products, id) * Count(cart, ForProduct(id))
  {
    var f := LineCost(products);
    var p := ForProduct(id);
    if cart != [] {
      var init := cart[..|cart| - 1];
      var last := cart[|cart| - 1];
      IncrementTotal(products, init, id);
      assert cart == init + [last];
      var changed := if last.productId == id then last.(quantity := last.quantity + 1) else last;
      assert Increment(cart, id) == Increment(init, id) + [changed];
      SumSnoc(Increment(init, id), changed, f);
      SumSnoc(init, last, f);
      FilterSnoc(init, last, p);
      if last.productId == id {
        LineTotalOfOneMore(products, last);
        LineTotalTimes(PriceOf(products, id), Count(init, p));
      }
    }
  }

  /** With distinct ids, `addToCart` raises the total by the product's price (0 if it is not listed). */
  lemma AddRaisesTotalByPrice(products: seq<Product>, cart: seq<CartItem>, id: string)
    requires DistinctIds(cart)
    ensures CartTotal(products, AddToCart(cart, id)) == CartTotal(products, cart) + PriceOf(products, id)
  {
    if InCart(cart, id) {
      IncrementTotal(products, cart, id);
      CountOfDistinct(cart, id);
    } else {
      SumSnoc(cart, CartItem(id, 1), LineCost(products));
    }
  }

  /** A cleared cart is empty, with no items and a total of 0. */
  lemma ClearedCartIsEmpty(products: seq<Product>)
    ensures ClearCart() == [] && ItemCount(ClearCart()) == 0 && CartTotal(products, ClearCart()) == 0
  {
  }
}
