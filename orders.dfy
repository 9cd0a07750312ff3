/** The `orders` and `order_items` tables as the point-of-sale page writes
    them in `handlePayment`: the records it builds and the store they go
    into. */
module Orders {
  import opened Common
  import opened Cart

  type OrderId = nat

  datatype OrderStatus = Pending | Completed | Cancelled

  datatype PaymentMethod = Cash | CreditCard | QrCode

  /** The page writes every order as a dine-in order, already paid. */
  const DineIn: string := "dine-in"
  const PaidStatus: string := "paid"

  datatype Order = Order(
    id: OrderId,
    cashierId: UserId,
    orderType: string,
    status: OrderStatus,
    subtotal: Money,
    taxAmount: Money,
    discountAmount: Money,
    totalAmount: Money,
    paymentMethod: PaymentMethod,
    paymentStatus: string,
    completedAt: Option<Timestamp>)

  datatype OrderItem = OrderItem(
    orderId: OrderId,
    productId: ProductId,
    quantity: int,
    unitPrice: Money,
    totalPrice: Money)

  /** The two tables; the database gives a new order the next id. */
  datatype OrderStore = OrderStore(orders: seq<Order>, items: seq<OrderItem>)

  /** The row inserted first: `pending`, priced from the cart and the
      discount as they stand. */
  function PendingOrder(id: OrderId, cashier: UserId, cart: seq<CartItem>, discount: Money,
                        payment: PaymentMethod): (o: Order)
    ensures o.id == id && o.cashierId == cashier && o.paymentMethod == payment
    ensures o.status == Pending && o.completedAt == None
    ensures o.orderType == DineIn && o.paymentStatus == PaidStatus
    ensures o.subtotal == Subtotal(cart) && o.discountAmount == discount
    ensures o.taxAmount * 100.0 == o.subtotal * 7.0
    ensures o.totalAmount == o.subtotal + o.taxAmount - o.discountAmount
  {
    var subtotal := Subtotal(cart);
    Order(id, cashier, DineIn, Pending, subtotal, Tax(subtotal), discount,
          Total(subtotal, discount), payment, PaidStatus, None)
  }

  /** `cart.map(...)`: one item per cart line, with the unit price captured
      from the line's product. */
  function OrderItemsFor(cart: seq<CartItem>, id: OrderId): seq<OrderItem> {
    seq(|cart|, i requires 0 <= i < |cart| =>
      OrderItem(id, cart[i].product.id, cart[i].quantity, cart[i].product.price,
                cart[i].product.price * cart[i].quantity as real))
  }

  /** The sum of `total_price` over the items of order `id`. */
  function ItemsTotal(items: seq<OrderItem>, id: OrderId): Money {
    if items == [] then 0.0
    else
      var last := items[|items| - 1];
      ItemsTotal(items[..|items| - 1], id) + (if last.orderId == id then last.totalPrice else 0.0)
  }

  /** `update({status: 'completed', completed_at}).eq('id', id)`. */
  function MarkCompleted(orders: seq<Order>, id: OrderId, now: Timestamp): seq<Order> {
    seq(|orders|, i requires 0 <= i < |orders| =>
      if orders[i].id == id then orders[i].(status := Completed, completedAt := Some(now)) else orders[i])
  }

  /** The shape of the tables: ids are positions and every item belongs to
      a stored order. */
  ghost predicate WellFormed(db: OrderStore) {
    && (forall i :: 0 <= i < |db.orders| ==> db.orders[i].id == i)
    && (forall j :: 0 <= j < |db.items| ==> db.items[j].orderId < |db.orders|)
  }

  /** What the payment handler keeps of tables it found that way: a
      completed order's items add up to its subtotal. Other writers of the
      tables may break it; the handler never does. */
  ghost predicate Consistent(db: OrderStore) {
    && WellFormed(db)
    && (forall i :: 0 <= i < |db.orders| && db.orders[i].status == Completed ==>
          ItemsTotal(db.items, i) == db.orders[i].subtotal)
  }

  // ---------------------------------------------------------------------

  /** Each item records its line: the product, the quantity, the unit price
      from the cart, and the line total. */
  lemma OrderItemsLines(cart: seq<CartItem>, id: OrderId)
    ensures |OrderItemsFor(cart, id)| == |cart|
    ensures forall i :: 0 <= i < |cart| ==>
      var it := OrderItemsFor(cart, id)[i];
      it.orderId == id && it.productId == cart[i].product.id && it.quantity == cart[i].quantity &&
      it.unitPrice == cart[i].product.price && it.totalPrice == LineTotal(cart[i])
  {
  }

  lemma {:induction false} ItemsTotalAppend(a: seq<OrderItem>, b: seq<OrderItem>, id: OrderId)
    ensures ItemsTotal(a + b, id) == ItemsTotal(a, id) + ItemsTotal(b, id)
  {
    if b == [] {
      assert a + b == a;
    } else {
      var ab := a + b;
      assert ab[..|ab| - 1] == a + b[..|b| - 1];
      assert ab[|ab| - 1] == b[|b| - 1];
      ItemsTotalAppend(a, b[..|b| - 1], id);
    }
  }

  /** Items of other orders contribute nothing. */
  lemma {:induction false} ItemsTotalOther(items: seq<OrderItem>, id: OrderId)
    requires forall j :: 0 <= j < |items| ==> items[j].orderId != id
    ensures ItemsTotal(items, id) == 0.0
  {
    if items != [] {
      ItemsTotalOther(items[..|items| - 1], id);
    }
  }

  /** The items written for a cart add up to the cart's subtotal, which is
      the subtotal stored on the order. */
  lemma {:induction false} ItemsTotalOfCart(cart: seq<CartItem>, id: OrderId)
    ensures ItemsTotal(OrderItemsFor(cart, id), id) == Subtotal(cart)
  {
    if cart != [] {
      var n := |cart|;
      var items := OrderItemsFor(cart, id);
      var front := OrderItemsFor(cart[..n - 1], id);
      assert |items[..n - 1]| == |front|;
      forall i | 0 <= i < n - 1 ensures items[..n - 1][i] == front[i] {
        assert cart[..n - 1][i] == cart[i];
      }
      assert items[..n - 1] == front;
      ItemsTotalOfCart(cart[..n - 1], id);
    }
  }

  /** Completing the newest order changes only that order. */
  lemma MarkCompletedLast(orders: seq<Order>, o: Order, now: Timestamp)
    requires forall i :: 0 <= i < |orders| ==> orders[i].id == i
    requires o.id == |orders|
    ensures MarkCompleted(orders + [o], o.id, now)
         == orders + [o.(status := Completed, completedAt := Some(now))]
  {
    var r, u := MarkCompleted(orders + [o], o.id, now), orders + [o.(status := Completed, completedAt := Some(now))];
    assert |r| == |u|;
    forall i | 0 <= i < |r| ensures r[i] == u[i] {
      if i < |orders| { assert (orders + [o])[i] == orders[i]; }
    }
  }

  /** Inserting the pending order keeps the tables well formed, and
      consistent if they were. */
  lemma PendingKeepsConsistent(db: OrderStore, o: Order)
    requires WellFormed(db)
    requires o.id == |db.orders| && o.status == Pending
    ensures WellFormed(OrderStore(db.orders + [o], db.items))
    ensures Consistent(db) ==> Consistent(OrderStore(db.orders + [o], db.items))
  {
    var orders' := db.orders + [o];
    if Consistent(db) {
      forall i | 0 <= i < |orders'| && orders'[i].status == Completed
        ensures ItemsTotal(db.items, i) == orders'[i].subtotal
      {
        assert orders'[i] == db.orders[i];
      }
    }
  }

  /** Inserting the order's items and then completing it keeps the tables
      well formed, and consistent if they were: the completed order's items
      add up to its subtotal. */
  lemma CompletionKeepsConsistent(db: OrderStore, o: Order, cart: seq<CartItem>, now: Timestamp)
    requires WellFormed(db)
    requires o.id == |db.orders| && o.status == Pending && o.subtotal == Subtotal(cart)
    ensures WellFormed(OrderStore(db.orders + [o], db.items + OrderItemsFor(cart, o.id)))
    ensures WellFormed(OrderStore(MarkCompleted(db.orders + [o], o.id, now), db.items + OrderItemsFor(cart, o.id)))
    ensures Consistent(db) ==>
      Consistent(OrderStore(db.orders + [o], db.items + OrderItemsFor(cart, o.id)))
    ensures Consistent(db) ==>
      Consistent(OrderStore(MarkCompleted(db.orders + [o], o.id, now), db.items + OrderItemsFor(cart, o.id)))
  {
    var added := OrderItemsFor(cart, o.id);
    var items' := db.items + added;
    var done := o.(status := Completed, completedAt := Some(now));
    MarkCompletedLast(db.orders, o, now);
    var pending, completed := db.orders + [o], db.orders + [done];
    assert WellFormed(OrderStore(pending, items')) && WellFormed(OrderStore(completed, items')) by {
      forall j | 0 <= j < |items'| ensures items'[j].orderId < |pending| {
        if j < |db.items| { assert items'[j] == db.items[j]; }
      }
    }
    if Consistent(db) {
      forall i | 0 <= i < |db.orders|
        ensures ItemsTotal(items', i) == ItemsTotal(db.items, i)
      {
        ItemsTotalAppend(db.items, added, i);
        ItemsTotalOther(added, i);
      }
      ItemsTotalAppend(db.items, added, o.id);
      assert forall j :: 0 <= j < |db.items| ==> db.items[j].orderId != o.id;
      ItemsTotalOther(db.items, o.id);
      ItemsTotalOfCart(cart, o.id);
      forall i | 0 <= i < |pending| && pending[i].status == Completed
        ensures ItemsTotal(items', i) == pending[i].subtotal
      {
        assert pending[i] == db.orders[i];
      }
      forall i | 0 <= i < |completed| && completed[i].status == Completed
        ensures ItemsTotal(items', i) == completed[i].subtotal
      {
        if i < |db.orders| { assert completed[i] == db.orders[i]; }
      }
    }
  }
}
