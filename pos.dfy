/** The state of the point-of-sale page: the cart, the discount and
    payment fields, and the order tables the payment handler writes. */
module Pos {
  import opened Common
  import opened Cart
  import opened Orders

  /** How `handlePayment` ended. */
  datatype PaymentOutcome =
    | NoUser                           // no signed-in user: nothing written
    | OrderInsertFailed                // the order insert failed: nothing written
    | ItemsInsertFailed(id: OrderId)   // the item insert failed: the pending order stays behind
    | Paid(id: OrderId)                // items written; the cart is cleared

  class PosPage {
    var user: Option<UserId>
    var cart: seq<CartItem>
    var discount: Money
    var paymentMethod: PaymentMethod
    var paymentOpen: bool
    var db: OrderStore

    ghost predicate Valid()
      reads this
    {
      CartValid(cart) && WellFormed(db)
    }

    constructor (user: Option<UserId>, db: OrderStore)
      requires WellFormed(db)
      ensures Valid()
      ensures this.user == user && this.db == db
      ensures cart == [] && discount == 0.0 && paymentMethod == Cash && !paymentOpen
    {
      this.user := user;
      this.db := db;
      cart := [];
      discount := 0.0;
      paymentMethod := Cash;
      paymentOpen := false;
    }

    /** `addToCart`: one more unit of a product already in the cart, or a
        new line with one unit at the end. */
    method AddToCart(p: Product)
      requires Valid()
      modifies this`cart
      ensures Valid()
      ensures cart == Added(old(cart), p)
    {
      AddedValid(cart, p);
      if HasProduct(cart, p.id) {
        cart := Incremented(cart, p.id);
      } else {
        cart := cart + [CartItem(p, 1)];
      }
    }

    /** `removeFromCart`: drop the product's line. */
    method RemoveFromCart(id: ProductId)
      requires Valid()
      modifies this`cart
      ensures Valid()
      ensures cart == Without(old(cart), id)
    {
      WithoutValid(cart, id);
      cart := Without(cart, id);
    }

    /** `updateQuantity`: a quantity of zero or less removes the line,
        any other replaces the line's quantity. */
    method UpdateQuantity(id: ProductId, quantity: int)
      requires Valid()
      modifies this`cart
      ensures Valid()
      ensures quantity <= 0 ==> cart == Without(old(cart), id)
      ensures quantity > 0 ==> cart == Requantified(old(cart), id, quantity)
    {
      if quantity <= 0 {
        RemoveFromCart(id);
        return;
      }
      RequantifiedLines(cart, id, quantity);
      cart := Requantified(cart, id, quantity);
    }

    /** The discount field of the payment sheet, taken as entered. */
    method SetDiscount(amount: Money)
      requires Valid()
      modifies this`discount
      ensures Valid()
      ensures discount == amount
    {
      discount := amount;
    }

    method SetPaymentMethod(m: PaymentMethod)
      requires Valid()
      modifies this`paymentMethod
      ensures Valid()
      ensures paymentMethod == m
    {
      paymentMethod := m;
    }

    /** `handleCheckout`: the payment sheet opens only for a non-empty cart. */
    method Checkout() returns (shown: bool)
      requires Valid()
      modifies this`paymentOpen
      ensures Valid()
      ensures shown <==> cart != []
      ensures paymentOpen == (old(paymentOpen) || shown)
    {
      if |cart| == 0 {
        return false;
      }
      paymentOpen := true;
      return true;
    }

    /** `handlePayment`: insert the order as pending, insert one item per
        cart line, then mark the order completed; each database call may
        fail. The result of the completing update is not checked. */
    method Pay(orderFails: bool, itemsFail: bool, updateFails: bool, now: Timestamp)
      returns (outcome: PaymentOutcome)
      requires Valid()
      modifies this`cart, this`discount, this`paymentOpen, this`db
      ensures Valid()
      ensures Consistent(old(db)) ==> Consistent(db)
      ensures old(user).None? ==> outcome == NoUser && unchanged(this)
      ensures old(user).Some? && orderFails ==> outcome == OrderInsertFailed && unchanged(this)
      ensures old(user).Some? && !orderFails ==>
        var id := |old(db.orders)|;
        var pending := PendingOrder(id, old(user).value, old(cart), old(discount), old(paymentMethod));
        && (itemsFail ==>
              && outcome == ItemsInsertFailed(id)
              && db == OrderStore(old(db.orders) + [pending], old(db.items))
              && cart == old(cart) && discount == old(discount) && paymentOpen == old(paymentOpen))
        && (!itemsFail ==>
              && outcome == Paid(id)
              && db.items == old(db.items) + OrderItemsFor(old(cart), id)
              && db.orders == old(db.orders) +
                   [if updateFails then pending else pending.(status := Completed, completedAt := Some(now))]
              && cart == [] && discount == 0.0 && !paymentOpen)
    {
      if user.None? {
        return NoUser;
      }
      var id := |db.orders|;
      var pending := PendingOrder(id, user.value, cart, discount, paymentMethod);
      if orderFails {
        return OrderInsertFailed;
      }
      PendingKeepsConsistent(db, pending);
      CompletionKeepsConsistent(db, pending, cart, now);
      MarkCompletedLast(db.orders, pending, now);
      db := db.(orders := db.orders + [pending]);
      var items := OrderItemsFor(cart, id);
      if itemsFail {
        return ItemsInsertFailed(id);
      }
      db := db.(items := db.items + items);
      if !updateFails {
        db := db.(orders := MarkCompleted(db.orders, id, now));
      }
      cart := [];
      discount := 0.0;
      paymentOpen := false;
      return Paid(id);
    }
  }

  /** The worked example through the page: adding a 100-baht product twice
      and a 50-baht product once, with a discount of 10, prices the cart at
      subtotal 250, tax 17.5 and total 257.5. */
  method PricingScenario(a: Product, b: Product) returns (subtotal: Money, tax: Money, total: Money)
    requires a.id != b.id && a.price == 100.0 && b.price == 50.0
    ensures subtotal == 250.0 && tax == 17.5 && total == 257.5
  {
    var page := new PosPage(None, OrderStore([], []));
    page.AddToCart(a);
    AddNew([], a);
    assert page.cart == [CartItem(a, 1)];
    page.AddToCart(a);
    AddExisting([CartItem(a, 1)], a, 0);
    assert page.cart == [CartItem(a, 2)];
    page.AddToCart(b);
    AddNew([CartItem(a, 2)], b);
    assert page.cart == [CartItem(a, 2), CartItem(b, 1)];
    page.SetDiscount(10.0);
    PricingExample(a, b);
    subtotal := Subtotal(page.cart);
    tax := Tax(subtotal);
    total := Total(subtotal, page.discount);
  }
}
