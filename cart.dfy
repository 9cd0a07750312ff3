/** The cart of the point-of-sale page and its pricing: the pure part of
    `addToCart`, `removeFromCart`, `updateQuantity`, `getSubtotal`,
    `getTax` and `getTotal`. */
module Cart {
  import opened Common

  type ProductId = string

  /** A catalog product as the cart sees it (names, image and category
      only matter for rendering). */
  datatype Product = Product(id: ProductId, price: Money)

  datatype CartItem = CartItem(product: Product, quantity: int)

  /** The cart holds a product on at most one line, and every line has at
      least one unit. */
  ghost predicate CartValid(cart: seq<CartItem>) {
    && (forall i, j :: 0 <= i < j < |cart| ==> cart[i].product.id != cart[j].product.id)
    && (forall i :: 0 <= i < |cart| ==> cart[i].quantity >= 1)
  }

  /** `cart.find(item => item.product.id === id)` found a line. */
  predicate HasProduct(cart: seq<CartItem>, id: ProductId) {
    exists i :: 0 <= i < |cart| && cart[i].product.id == id
  }

  /** `cart.map`: every line of product `id` gets one more unit; the line
      keeps the product it was first added with. */
  function Incremented(cart: seq<CartItem>, id: ProductId): seq<CartItem> {
    seq(|cart|, i requires 0 <= i < |cart| =>
      if cart[i].product.id == id then cart[i].(quantity := cart[i].quantity + 1) else cart[i])
  }

  /** The cart after `addToCart(p)`. */
  function Added(cart: seq<CartItem>, p: Product): seq<CartItem> {
    if HasProduct(cart, p.id) then Incremented(cart, p.id) else cart + [CartItem(p, 1)]
  }

  /** `cart.filter(item => item.product.id !== id)`: the cart after
      `removeFromCart(id)`. */
  function Without(cart: seq<CartItem>, id: ProductId): seq<CartItem> {
    if cart == [] then []
    else (if cart[0].product.id == id then [] else [cart[0]]) + Without(cart[1..], id)
  }

  /** `cart.map` in `updateQuantity(id, q)` for a positive `q`. */
  function Requantified(cart: seq<CartItem>, id: ProductId, q: int): seq<CartItem> {
    seq(|cart|, i requires 0 <= i < |cart| =>
      if cart[i].product.id == id then cart[i].(quantity := q) else cart[i])
  }

  function LineTotal(item: CartItem): Money {
    item.product.price * item.quantity as real
  }

  /** `getSubtotal`: a left fold `reduce((sum, item) => sum + price * quantity, 0)`. */
  function Subtotal(cart: seq<CartItem>): (r: Money)
    ensures cart == [] ==> r == 0.0
    ensures (forall i :: 0 <= i < |cart| ==> cart[i].product.price >= 0.0 && cart[i].quantity >= 0) ==> r >= 0.0
  {
    if cart == [] then 0.0
    else
      var last := cart[|cart| - 1];
      assert last.product.price >= 0.0 && last.quantity >= 0 ==> LineTotal(last) >= 0.0;
      Subtotal(cart[..|cart| - 1]) + LineTotal(last)
  }

  /** `getTax`: a flat 7% VAT of the subtotal. */
  function Tax(subtotal: Money): (t: Money)
    ensures t * 100.0 == subtotal * 7.0
    ensures subtotal >= 0.0 ==> 0.0 <= t <= subtotal
  {
    subtotal * 7.0 / 100.0
  }

  /** `getTotal`: subtotal plus tax minus the discount, with no clamp. */
  function Total(subtotal: Money, discount: Money): (total: Money)
    ensures total < 0.0 <==> discount > subtotal * 107.0 / 100.0
    ensures total + discount == subtotal * 107.0 / 100.0
  {
    subtotal + Tax(subtotal) - discount
  }

  // ---------------------------------------------------------------------
  // addToCart

  /** Adding a product already in a valid cart adds one unit to its line,
      which keeps its captured product, and touches no other line. */
  lemma AddExisting(cart: seq<CartItem>, p: Product, k: nat)
    requires CartValid(cart)
    requires k < |cart| && cart[k].product.id == p.id
    ensures Added(cart, p) == cart[k := CartItem(cart[k].product, cart[k].quantity + 1)]
  {
    assert HasProduct(cart, p.id);
    var r, u := Incremented(cart, p.id), cart[k := CartItem(cart[k].product, cart[k].quantity + 1)];
    assert |r| == |u|;
    forall j | 0 <= j < |cart| ensures r[j] == u[j] {
      if j != k { assert cart[j].product.id != p.id; }
    }
  }

  /** Adding a product not in the cart appends a line with one unit. */
  lemma AddNew(cart: seq<CartItem>, p: Product)
    requires !HasProduct(cart, p.id)
    ensures Added(cart, p) == cart + [CartItem(p, 1)]
  {
  }

  lemma AddedValid(cart: seq<CartItem>, p: Product)
    requires CartValid(cart)
    ensures CartValid(Added(cart, p))
    ensures HasProduct(Added(cart, p), p.id)
  {
    var r := Added(cart, p);
    if !HasProduct(cart, p.id) {
      assert r[|cart|].product.id == p.id;
    } else {
      var k :| 0 <= k < |cart| && cart[k].product.id == p.id;
      AddExisting(cart, p, k);
      assert r[k].product.id == p.id;
    }
  }

  // ---------------------------------------------------------------------
  // removeFromCart

  /** The filter keeps only lines of other products, each one taken from the
      cart, and drops no line of another product. */
  lemma {:induction false} WithoutLines(cart: seq<CartItem>, id: ProductId)
    ensures !HasProduct(Without(cart, id), id)
    ensures |Without(cart, id)| <= |cart|
    ensures forall x :: x in Without(cart, id) <==> x in cart && x.product.id != id
  {
    if cart != [] {
      WithoutLines(cart[1..], id);
      assert cart == [cart[0]] + cart[1..];
    }
  }

  /** Removing an absent product leaves the cart as it is. */
  lemma {:induction false} WithoutAbsent(cart: seq<CartItem>, id: ProductId)
    requires !HasProduct(cart, id)
    ensures Without(cart, id) == cart
  {
    if cart != [] {
      assert cart[0].product.id != id;
      assert !HasProduct(cart[1..], id) by {
        forall i | 0 <= i < |cart[1..]| ensures cart[1..][i].product.id != id {
          assert cart[1..][i] == cart[i + 1];
        }
      }
      WithoutAbsent(cart[1..], id);
      assert cart == [cart[0]] + cart[1..];
    }
  }

  /** In a valid cart, removing the product on line `k` drops exactly that
      line and keeps the others in their order. */
  lemma {:induction false} WithoutPresent(cart: seq<CartItem>, id: ProductId, k: nat)
    requires CartValid(cart)
    requires k < |cart| && cart[k].product.id == id
    ensures Without(cart, id) == cart[..k] + cart[k + 1..]
  {
    if k == 0 {
      assert !HasProduct(cart[1..], id) by {
        forall i | 0 <= i < |cart[1..]| ensures cart[1..][i].product.id != id {
          assert cart[1..][i] == cart[i + 1];
        }
      }
      WithoutAbsent(cart[1..], id);
    } else {
      var tail := cart[1..];
      assert CartValid(tail) by {
        forall i, j | 0 <= i < j < |tail| ensures tail[i].product.id != tail[j].product.id {
          assert tail[i] == cart[i + 1] && tail[j] == cart[j + 1];
        }
        forall i | 0 <= i < |tail| ensures tail[i].quantity >= 1 {
          assert tail[i] == cart[i + 1];
        }
      }
      WithoutPresent(tail, id, k - 1);
      assert cart[0].product.id != id;
      assert cart[..k] == [cart[0]] + tail[..k - 1];
      assert tail[k..] == cart[k + 1..];
    }
  }

  lemma WithoutValid(cart: seq<CartItem>, id: ProductId)
    requires CartValid(cart)
    ensures CartValid(Without(cart, id))
  {
    var k :| (0 <= k < |cart| && cart[k].product.id == id) || (k == 0 && !HasProduct(cart, id));
    if HasProduct(cart, id) {
      WithoutPresent(cart, id, k);
      var r := Without(cart, id);
      forall i, j | 0 <= i < j < |r| ensures r[i].product.id != r[j].product.id {
        var i' := if i < k then i else i + 1;
        var j' := if j < k then j else j + 1;
        assert r[i] == cart[i'] && r[j] == cart[j'];
      }
      forall i | 0 <= i < |r| ensures r[i].quantity >= 1 {
        assert r[i] == cart[if i < k then i else i + 1];
      }
    } else {
      WithoutAbsent(cart, id);
    }
  }

  // ---------------------------------------------------------------------
  // updateQuantity

  /** A positive quantity sets the line of `id` and nothing else, and keeps
      the cart valid. */
  lemma RequantifiedLines(cart: seq<CartItem>, id: ProductId, q: int)
    requires CartValid(cart) && q >= 1
    ensures CartValid(Requantified(cart, id, q))
    ensures |Requantified(cart, id, q)| == |cart|
    ensures forall j :: 0 <= j < |cart| ==>
      Requantified(cart, id, q)[j].product == cart[j].product &&
      Requantified(cart, id, q)[j].quantity == (if cart[j].product.id == id then q else cart[j].quantity)
  {
  }

  // ---------------------------------------------------------------------
  // Pricing

  lemma {:induction false} SubtotalAppend(a: seq<CartItem>, b: seq<CartItem>)
    ensures Subtotal(a + b) == Subtotal(a) + Subtotal(b)
  {
    if b != [] {
      var ab := a + b;
      assert ab[..|ab| - 1] == a + b[..|b| - 1];
      assert ab[|ab| - 1] == b[|b| - 1];
      SubtotalAppend(a, b[..|b| - 1]);
    } else {
      assert a + b == a;
    }
  }

  /** Replacing one line changes the subtotal by the difference of the two
      line totals. */
  lemma SubtotalReplace(cart: seq<CartItem>, k: nat, x: CartItem)
    requires k < |cart|
    ensures Subtotal(cart[k := x]) == Subtotal(cart) - LineTotal(cart[k]) + LineTotal(x)
  {
    var pre, post := cart[..k], cart[k + 1..];
    assert cart == pre + [cart[k]] + post;
    assert cart[k := x] == pre + [x] + post;
    SubtotalAppend(pre + [cart[k]], post);
    SubtotalAppend(pre + [x], post);
    SubtotalAppend(pre, [cart[k]]);
    SubtotalAppend(pre, [x]);
    assert [cart[k]][..0] == [] && [x][..0] == [];
  }

  /** `addToCart` raises the subtotal by the price of one more unit: the
      price captured on the existing line, or the new product's price. */
  lemma SubtotalAfterAdd(cart: seq<CartItem>, p: Product)
    requires CartValid(cart)
    ensures !HasProduct(cart, p.id) ==> Subtotal(Added(cart, p)) == Subtotal(cart) + p.price
    ensures forall k :: 0 <= k < |cart| && cart[k].product.id == p.id ==>
      Subtotal(Added(cart, p)) == Subtotal(cart) + cart[k].product.price
  {
    forall k | 0 <= k < |cart| && cart[k].product.id == p.id
      ensures Subtotal(Added(cart, p)) == Subtotal(cart) + cart[k].product.price
    {
      SubtotalAfterAddAt(cart, p, k);
    }
    if !HasProduct(cart, p.id) {
      SubtotalAppend(cart, [CartItem(p, 1)]);
      assert [CartItem(p, 1)][..0] == [];
    }
  }

  lemma SubtotalAfterAddAt(cart: seq<CartItem>, p: Product, k: nat)
    requires CartValid(cart)
    requires k < |cart| && cart[k].product.id == p.id
    ensures Subtotal(Added(cart, p)) == Subtotal(cart) + cart[k].product.price
  {
    AddExisting(cart, p, k);
    SubtotalOneMore(cart, k);
  }

  /** One more unit on line `k` adds that line's price to the subtotal. */
  lemma SubtotalOneMore(cart: seq<CartItem>, k: nat)
    requires k < |cart|
    ensures Subtotal(cart[k := CartItem(cart[k].product, cart[k].quantity + 1)])
         == Subtotal(cart) + cart[k].product.price
  {
    var x := CartItem(cart[k].product, cart[k].quantity + 1);
    SubtotalReplace(cart, k, x);
    var price, q := cart[k].product.price, cart[k].quantity as real;
    assert LineTotal(x) == price * (q + 1.0);
    assert LineTotal(cart[k]) == price * q;
    assert price * (q + 1.0) == price * q + price;
  }

  /** `removeFromCart` lowers the subtotal by the removed line's total, and
      leaves it as it is when the product is absent. */
  lemma SubtotalAfterRemove(cart: seq<CartItem>, id: ProductId)
    requires CartValid(cart)
    ensures !HasProduct(cart, id) ==> Subtotal(Without(cart, id)) == Subtotal(cart)
    ensures forall k :: 0 <= k < |cart| && cart[k].product.id == id ==>
      Subtotal(Without(cart, id)) == Subtotal(cart) - LineTotal(cart[k])
  {
    if HasProduct(cart, id) {
      var k :| 0 <= k < |cart| && cart[k].product.id == id;
      WithoutPresent(cart, id, k);
      assert cart == cart[..k] + [cart[k]] + cart[k + 1..];
      SubtotalAppend(cart[..k] + [cart[k]], cart[k + 1..]);
      SubtotalAppend(cart[..k], [cart[k]]);
      SubtotalAppend(cart[..k], cart[k + 1..]);
      assert [cart[k]][..0] == [];
    } else {
      WithoutAbsent(cart, id);
    }
  }

  /** The worked example: 100 x 2 and 50 x 1 with a discount of 10 give
      subtotal 250, tax 17.5 and total 257.5. */
  lemma PricingExample(a: Product, b: Product)
    requires a.price == 100.0 && b.price == 50.0
    ensures var cart := [CartItem(a, 2), CartItem(b, 1)];
      Subtotal(cart) == 250.0 && Tax(Subtotal(cart)) == 17.5 && Total(Subtotal(cart), 10.0) == 257.5
  {
    var cart := [CartItem(a, 2), CartItem(b, 1)];
    assert cart[..1] == [CartItem(a, 2)];
    assert cart[..1][..0] == [];
    assert Subtotal(cart[..1]) == 200.0;
    assert Subtotal(cart) == 250.0;
  }
}
