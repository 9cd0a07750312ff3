# Point-of-sale cart, checkout and cash-drawer ledger

A Dafny model of the business logic inside two React pages of a
point-of-sale front end that writes straight to a hosted database:

- **The POS page** (`client/src/pages/POS.tsx`): a cart of
  `{product, quantity}` lines, its pricing (subtotal, a flat 7% VAT,
  total after discount), the checkout guard, and the payment handler that
  inserts an order as `pending`, inserts one order item per cart line and
  then marks the order `completed`.
- **The cashier page** (`client/src/pages/Cashier.tsx`): the current
  shift and its cash-drawer transactions, the handlers that open a shift,
  add or withdraw cash and close the shift, the running balance, the
  reconciliation difference shown when closing, and the rule that picks
  the current shift when the page loads.

Layout, one module per file:

| file | module | contents |
|---|---|---|
| `common.dfy` | `Common` | money (`real`), timestamps, user ids, `Option` |
| `cart.dfy` | `Cart` | cart lines, add / remove / set-quantity as functions on the line sequence, pricing, and their lemmas |
| `orders.dfy` | `Orders` | order and order-item records, the order tables, the consistency invariant of the tables |
| `pos.dfy` | `Pos` | class `PosPage`: the page's state (`cart`, `discount`, `paymentMethod`, the payment sheet flag, the tables) and its handlers |
| `ledger.dfy` | `Ledger` | shifts, drawer transactions, the balance fold, reading transactions back, choosing the current shift, closing a shift record |
| `cashier.dfy` | `Cashier` | class `CashierPage`: the page's state (`currentShift`, `transactions`, the tables) and its handlers |

The database is a value held by each page class (`OrderStore`,
`ShiftStore`): sequences of rows in insertion order, where a new row gets
the next position as its id. Every insert, update and read that can fail
takes a boolean `...Fails` parameter, so that each failure path of the
handlers is stated. Timestamps (`new Date()`, the database's `now()`) are
`now` parameters. Amounts arrive already parsed.

What the code does, and the model with it, differs from an idealised
ledger in several places. These are stated as contracts, not corrected:

- Opening a shift never checks for a shift already open
  (`Ledger.OpenAgain`, `Cashier.CashierPage.OpenShift` has no such guard).
- Amounts and the opening balance are not validated; any number is stored.
- Closing a shift writes only `status`, `closed_at` and `closing_balance`;
  the expected balance and the difference are displayed but never stored
  (`Ledger.CloseRecord`).
- The total is `subtotal + tax - discount` with no clamp, so a large
  discount gives a negative total (`Cart.Total`).
- When the item insert fails the pending order is left in the table, and
  the completing update's result is not checked: a failed update still
  clears the cart and leaves a `pending` order with all its items
  (`Pos.PosPage.Pay`).
- The payment handler itself does not refuse an empty cart; only the
  checkout button does (`Pos.PosPage.Checkout`).
- Checkout posts no `sale` transaction to the cash drawer; `sale` and
  `refund` rows only enter the balance when something else wrote them.
- Tax is not rounded to the minor unit.

## Model

| member | source | states |
|---|---|---|
| `Cart.AddExisting` | client/src/pages/POS.tsx:113-119 | adding a product already in a valid cart gives that line one more unit, keeping the product it was first added with, and leaves length and every other line unchanged |
| `Cart.AddNew` | client/src/pages/POS.tsx:120-121 | adding a product not in the cart appends `{product, 1}` at the end |
| `Cart.AddedValid` | client/src/pages/POS.tsx:112-122 | adding keeps product ids unique and every quantity at least 1, and the product is then in the cart |
| `Cart.WithoutLines` | client/src/pages/POS.tsx:126-128 | after removal no line of the product is left, no line is added, and every line of another product is kept |
| `Cart.WithoutAbsent` | client/src/pages/POS.tsx:126-128 | removing a product that is not in the cart leaves the cart unchanged |
| `Cart.WithoutPresent` | client/src/pages/POS.tsx:126-128 | in a valid cart, removing the product on line k gives exactly the cart without line k, the rest in their original order |
| `Cart.WithoutValid` | client/src/pages/POS.tsx:126-128 | removal keeps ids unique and quantities at least 1 |
| `Cart.RequantifiedLines` | client/src/pages/POS.tsx:135-137 | a positive quantity becomes the matching line's quantity; every line keeps its product, other lines keep their quantity, and the cart stays valid |
| `Cart.Subtotal` | client/src/pages/POS.tsx:140-142 | `getSubtotal` as a left fold of price x quantity: 0 for the empty cart, never negative when prices and quantities are not; its additivity is `Cart.SubtotalAppend` |
| `Cart.Tax` | client/src/pages/POS.tsx:144-146 | `getTax`: the tax times 100 is the subtotal times 7 (a flat 7%, unrounded), and lies between 0 and the subtotal for a non-negative subtotal |
| `Cart.SubtotalAppend` | client/src/pages/POS.tsx:140-142 | the subtotal fold is additive over concatenation (0 for the empty cart) |
| `Cart.SubtotalAfterAdd` | client/src/pages/POS.tsx:112-142 | adding a product raises the subtotal by the unit price of the line it lands on (the captured price for an existing line, the product's price for a new one) |
| `Cart.SubtotalAfterRemove` | client/src/pages/POS.tsx:126-142 | removing a product lowers the subtotal by that line's price x quantity, and not at all when absent |
| `Cart.Total` | client/src/pages/POS.tsx:144-150 | total + discount is 107% of the subtotal, and the total is negative exactly when the discount exceeds subtotal + tax (no clamp) |
| `Cart.PricingExample` | client/src/pages/POS.tsx:140-150 | lines 100 x 2 and 50 x 1 with discount 10 give subtotal 250, tax 17.5, total 257.5 |
| `Orders.PendingOrder` | client/src/pages/POS.tsx:168-182 | the first row is `pending`, dine-in, paid, for the signed-in cashier and chosen method, with the cart's subtotal, 7% tax, the discount and total = subtotal + tax - discount |
| `Orders.OrderItemsLines` | client/src/pages/POS.tsx:186-193 | one order item per cart line, in order, carrying the order id, product id, quantity, `unit_price` = the line's product price and `total_price` = price x quantity |
| `Orders.ItemsTotalOfCart` | client/src/pages/POS.tsx:186-193 | the items written for a cart add up to that cart's subtotal, which is the subtotal stored on the order |
| `Orders.MarkCompletedLast` | client/src/pages/POS.tsx:201-205 | the completing update by id changes only the newest order, to `completed` with its completion time |
| `Orders.PendingKeepsConsistent` | client/src/pages/POS.tsx:168-184 | inserting the pending order keeps the tables well formed (ids are positions, items belong to stored orders), and keeps completed orders' items summing to their subtotal if they did |
| `Orders.CompletionKeepsConsistent` | client/src/pages/POS.tsx:186-205 | inserting the items and then completing the order keeps the tables well formed, and, on tables where every completed order's items sum to its subtotal, the newly completed order's items sum to its subtotal too |
| `Pos.PosPage.constructor` | client/src/pages/POS.tsx:49-62 | the page starts with an empty cart, discount 0, cash payment and the payment sheet closed |
| `Pos.PosPage.AddToCart` | client/src/pages/POS.tsx:112-124 | the cart becomes `Added(old cart, p)` and stays valid |
| `Pos.PosPage.RemoveFromCart` | client/src/pages/POS.tsx:126-128 | the cart becomes the old cart without the product's lines and stays valid |
| `Pos.PosPage.UpdateQuantity` | client/src/pages/POS.tsx:130-138 | a quantity of 0 or less is exactly a removal; a positive one replaces the matching line's quantity; the cart stays valid |
| `Pos.PosPage.SetDiscount` | client/src/pages/POS.tsx:480 | the discount is taken as entered, unchecked |
| `Pos.PosPage.SetPaymentMethod` | client/src/pages/POS.tsx:489 | the payment method is the one chosen |
| `Pos.PosPage.Checkout` | client/src/pages/POS.tsx:152-158 | the payment sheet opens exactly when the cart is non-empty; nothing else changes |
| `Pos.PosPage.Pay` | client/src/pages/POS.tsx:160-221 | without a user, or when the order insert fails, nothing changes; when the item insert fails the pending order stays and the cart is kept; otherwise the items are the cart's lines, the order is completed unless the unchecked update fails, and the cart and discount are reset; the tables stay well formed, and if every completed order's items summed to its subtotal before, they still do |
| `Pos.PricingScenario` | client/src/pages/POS.tsx:112-150 | adding a 100 product twice and a 50 product once through the page, with discount 10, prices at 250 / 17.5 / 257.5 |
| `Ledger.Balance` | client/src/pages/Cashier.tsx:212-225 | 0 without a current shift, otherwise opening balance + sum of add and sale amounts - sum of withdraw and refund amounts |
| `Ledger.NetIsInflowMinusOutflow` | client/src/pages/Cashier.tsx:215-222 | the fold equals total inflow (add, sale) minus total outflow (withdraw, refund) |
| `Ledger.NetPermutation` | client/src/pages/Cashier.tsx:215-222 | any reordering of the transactions gives the same balance |
| `Ledger.BalanceAfterNewest` | client/src/pages/Cashier.tsx:215-224 | one more transaction moves the balance by +amount for add/sale and -amount for withdraw/refund |
| `Ledger.Reload` | client/src/pages/Cashier.tsx:91-104 | `loadTransactions`: the rows read back are exactly the stored rows of that shift, each as often as stored (their newest-first order is `Ledger.ReloadOrder`) |
| `Ledger.ReloadOrder` | client/src/pages/Cashier.tsx:91-104 | the rows read back are the shift's rows in reverse creation order: of a shift's n rows, the one at position i is the one created (n - 1 - i)-th, counting from 0 |
| `Ledger.ReloadAfterAppend` | client/src/pages/Cashier.tsx:91-104 | after a row of a shift is inserted, reading the shift back lists it first, ahead of the earlier rows |
| `Ledger.NewestFirstBalance` | client/src/pages/Cashier.tsx:91-104 | listing the rows newest first does not change the balance |
| `Ledger.Difference` | client/src/pages/Cashier.tsx:495-505 | the shown difference is counted - balance, and is non-negative exactly when counted >= balance |
| `Ledger.LatestOpenShift` | client/src/pages/Cashier.tsx:70-78 | the shift chosen is a stored open shift of the cashier with the latest `opened_at`; none exactly when the cashier has no open shift |
| `Ledger.CloseRecord` | client/src/pages/Cashier.tsx:136-143 | closing sets only status, close time and closing balance of that shift (expected balance and difference untouched), and it is no longer chosen as current |
| `Ledger.OpenAgain` | client/src/pages/Cashier.tsx:110-118 | with an open shift of the cashier already stored, appending a later-opened shift leaves both stored and open, and the new one is the one then chosen as current |
| `Ledger.ReconciliationExample` | client/src/pages/Cashier.tsx:212-225 | opening 1000, add 200, withdraw 50 give balance 1150, and a count of 1140 a difference of -10 |
| `Cashier.CashierPage.constructor` | client/src/pages/Cashier.tsx:44-57 | the page starts with no current shift and no transactions |
| `Cashier.CashierPage.LoadCurrentShift` | client/src/pages/Cashier.tsx:70-89 | a failed query or no open shift changes nothing; otherwise the latest open shift becomes current and its rows are read back (kept as they were if that read fails) |
| `Cashier.CashierPage.OpenShift` | client/src/pages/Cashier.tsx:106-130 | without a user or on a failed insert nothing changes; otherwise one open shift with the entered opening balance is appended and made current, and from no current shift the balance is the opening balance |
| `Cashier.CashierPage.CloseShift` | client/src/pages/Cashier.tsx:132-156 | without a current shift or on a failed update nothing changes; otherwise that shift's record is closed with the counted cash, and the current shift and transactions are cleared |
| `Cashier.CashierPage.AddCash` | client/src/pages/Cashier.tsx:158-183 | without a shift or user, or on a failed insert, nothing changes; otherwise exactly one `add` row for the current shift is appended, with the default description when none was given, the rows are read back, and the balance rises by the amount |
| `Cashier.CashierPage.WithdrawCash` | client/src/pages/Cashier.tsx:185-210 | as for adding cash, with a `withdraw` row, its own default description, and the balance falling by the amount |
| `Cashier.CashierPage.Record` | client/src/pages/Cashier.tsx:158-210 | what the add and withdraw handlers share: without a current shift or user, or on a failed insert, nothing changes; otherwise exactly one row of the given type for the current shift is appended (default description when empty), the rows are read back or kept on a failed read, and from an up-to-date list the new row comes first and the balance moves by its signed amount |
| `Cashier.ReconciliationScenario` | client/src/pages/Cashier.tsx:106-225 | opening 1000, adding 200 and withdrawing 50 through the page leaves a balance of 1150, and a count of 1140 shows -10 |

## Left out

- Floating point: money is exact `real`. The source multiplies JavaScript numbers by `0.07` and sums them, and formats with `toFixed(2)`; that rounding is not modelled.
- Parsing of the input fields (`parseFloat`, `Number(...)`): amounts, quantities and the discount arrive as numbers. Quantities are integers.
- The database client itself (query builders, `.select().single()`, the `PGRST116` "no rows" code): replaced by the value stores and failure flags. A batch insert of order items is all-or-nothing.
- `Ledger.Reload` lists a shift's rows newest first by reversing insertion order; the source orders by `created_at`, which agrees as long as rows are created in time order. Rows with equal `created_at` may come back in another order; the balance does not depend on it (`Ledger.NetPermutation`).
- `Ledger.LatestOpenShift`: among open shifts with equal `opened_at` the database may return any; the contract states only that the one returned is a latest.
- `loadTransactions` is not awaited by the handlers; the model runs the read right after the insert.
- Notifications (`toast`), `console.error`, reading the user from `localStorage`, redirection, dialogs and sheets, language switching, view mode, icons and labels, the catalog loading (`loadCategories`, `loadProducts`), and the `tableNo` field, which is never stored.
- The display of the current shift, opening balance and transaction count on the cashier page (rendering of values the model already holds).
- The description field's reset after a cash movement: the description is a parameter of each handler call.
- Concurrency: the pages do none; two cashiers or two tabs writing at once are not modelled.
- `client/src/pages/erp/CMS.tsx` is not part of this model: it holds only a tab selection and static content.
