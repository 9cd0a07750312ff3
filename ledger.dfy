/** The cash-drawer ledger of the cashier page: shifts, drawer
    transactions, the running balance (`getCurrentBalance`), the
    reconciliation difference of the close dialog, and the rule that picks
    the current shift (`loadCurrentShift`). */
module Ledger {
  import opened Common

  type ShiftId = nat

  datatype ShiftStatus = Open | Closed

  datatype Shift = Shift(
    id: ShiftId,
    cashierId: UserId,
    openedAt: Timestamp,
    closedAt: Option<Timestamp>,
    openingBalance: Money,
    closingBalance: Option<Money>,
    expectedBalance: Option<Money>,
    difference: Option<Money>,
    status: ShiftStatus,
    notes: Option<string>)

  datatype TransactionType = Add | Withdraw | Sale | Refund

  datatype CashDrawerTransaction = CashDrawerTransaction(
    id: nat,
    shiftId: ShiftId,
    kind: TransactionType,
    amount: Money,
    description: string,
    createdAt: Timestamp,
    createdBy: UserId)

  /** The `shifts` and `cash_drawer_transactions` tables, in insertion
      order; the database gives each new row the next id. */
  datatype ShiftStore = ShiftStore(shifts: seq<Shift>, log: seq<CashDrawerTransaction>)

  ghost predicate StoreValid(db: ShiftStore) {
    && (forall i :: 0 <= i < |db.shifts| ==> db.shifts[i].id == i)
    && (forall j :: 0 <= j < |db.log| ==> db.log[j].id == j && db.log[j].shiftId < |db.shifts|)
  }

  // ---------------------------------------------------------------------
  // The balance

  /** What one transaction does to the drawer: adds and sales put cash in,
      withdrawals and refunds take it out. */
  function Signed(t: CashDrawerTransaction): Money {
    match t.kind
    case Add => t.amount
    case Sale => t.amount
    case Withdraw => -t.amount
    case Refund => -t.amount
  }

  /** The `transactions.reduce(...)` of `getCurrentBalance`, a left fold. */
  function Net(txs: seq<CashDrawerTransaction>): Money {
    if txs == [] then 0.0 else Net(txs[..|txs| - 1]) + Signed(txs[|txs| - 1])
  }

  /** Total of the `add` and `sale` amounts. */
  function Inflow(txs: seq<CashDrawerTransaction>): Money {
    if txs == [] then 0.0
    else Inflow(txs[1..]) + (if txs[0].kind == Add || txs[0].kind == Sale then txs[0].amount else 0.0)
  }

  /** Total of the `withdraw` and `refund` amounts. */
  function Outflow(txs: seq<CashDrawerTransaction>): Money {
    if txs == [] then 0.0
    else Outflow(txs[1..]) + (if txs[0].kind == Withdraw || txs[0].kind == Refund then txs[0].amount else 0.0)
  }

  /** `getCurrentBalance`: nothing without a current shift, otherwise the
      opening balance plus what came in minus what went out. */
  function Balance(current: Option<Shift>, txs: seq<CashDrawerTransaction>): (b: Money)
    ensures current.None? ==> b == 0.0
    ensures current.Some? ==> b == current.value.openingBalance + Inflow(txs) - Outflow(txs)
  {
    if current.None? then 0.0
    else
      NetIsInflowMinusOutflow(txs);
      current.value.openingBalance + Net(txs)
  }

  /** The difference shown in the close dialog: counted cash minus the
      balance; shown as a surplus exactly when the count reaches the
      balance. */
  function Difference(counted: Money, balance: Money): (d: Money)
    ensures d >= 0.0 <==> counted >= balance
    ensures balance + d == counted
  {
    counted - balance
  }

  lemma {:induction false} NetAppend(a: seq<CashDrawerTransaction>, b: seq<CashDrawerTransaction>)
    ensures Net(a + b) == Net(a) + Net(b)
  {
    if b == [] {
      assert a + b == a;
    } else {
      var ab := a + b;
      assert ab[..|ab| - 1] == a + b[..|b| - 1];
      assert ab[|ab| - 1] == b[|b| - 1];
      NetAppend(a, b[..|b| - 1]);
    }
  }

  /** The fold is the sum of the inflows minus the sum of the outflows. */
  lemma {:induction false} NetIsInflowMinusOutflow(txs: seq<CashDrawerTransaction>)
    ensures Net(txs) == Inflow(txs) - Outflow(txs)
  {
    if txs != [] {
      NetIsInflowMinusOutflow(txs[1..]);
      NetAppend([txs[0]], txs[1..]);
      assert [txs[0]] + txs[1..] == txs;
      assert [txs[0]][..0] == [];
    }
  }

  /** The balance does not depend on the order of the transactions. */
  lemma {:induction false} NetPermutation(a: seq<CashDrawerTransaction>, b: seq<CashDrawerTransaction>)
    requires multiset(a) == multiset(b)
    ensures Net(a) == Net(b)
    decreases |a|
  {
    if a == [] {
      assert |b| == |multiset(b)| == 0;
    } else {
      var n := |a|;
      var x := a[n - 1];
      assert a == a[..n - 1] + [x];
      assert x in multiset(b);
      var k :| 0 <= k < |b| && b[k] == x;
      var rest := b[..k] + b[k + 1..];
      assert b == b[..k] + [x] + b[k + 1..];
      assert multiset(rest) == multiset(b) - multiset{x};
      assert multiset(a[..n - 1]) == multiset(a) - multiset{x};
      NetPermutation(a[..n - 1], rest);
      NetAppend(b[..k] + [x], b[k + 1..]);
      NetAppend(b[..k], [x]);
      NetAppend(b[..k], b[k + 1..]);
      assert [x][..0] == [];
    }
  }

  /** One more transaction at the front (the page lists the newest first)
      moves the balance by that transaction alone. */
  lemma BalanceAfterNewest(s: Shift, txs: seq<CashDrawerTransaction>, t: CashDrawerTransaction)
    ensures Balance(Some(s), [t] + txs) == Balance(Some(s), txs) + Signed(t)
    ensures t.kind == Add ==> Balance(Some(s), [t] + txs) == Balance(Some(s), txs) + t.amount
    ensures t.kind == Withdraw ==> Balance(Some(s), [t] + txs) == Balance(Some(s), txs) - t.amount
  {
    NetAppend([t], txs);
    assert [t][..0] == [];
  }

  // ---------------------------------------------------------------------
  // Reading transactions back

  /** The rows of one shift, in insertion order. */
  function ForShift(log: seq<CashDrawerTransaction>, id: ShiftId): seq<CashDrawerTransaction> {
    if log == [] then []
    else ForShift(log[..|log| - 1], id) + (if log[|log| - 1].shiftId == id then [log[|log| - 1]] else [])
  }

  function NewestFirst(s: seq<CashDrawerTransaction>): seq<CashDrawerTransaction> {
    if s == [] then [] else [s[|s| - 1]] + NewestFirst(s[..|s| - 1])
  }

  /** `loadTransactions`: the shift's rows, newest first (the log is in
      creation order). */
  function Reload(log: seq<CashDrawerTransaction>, id: ShiftId): (r: seq<CashDrawerTransaction>)
    ensures forall t :: t in r <==> t in log && t.shiftId == id
    ensures multiset(r) == multiset(ForShift(log, id))
    ensures |r| == |ForShift(log, id)|
  {
    ForShiftMembers(log, id);
    NewestFirstMultiset(ForShift(log, id));
    assert forall t :: t in NewestFirst(ForShift(log, id)) <==> t in multiset(ForShift(log, id));
    NewestFirst(ForShift(log, id))
  }

  /** The filter keeps exactly the rows of the shift. */
  lemma {:induction false} ForShiftMembers(log: seq<CashDrawerTransaction>, id: ShiftId)
    ensures forall t :: t in ForShift(log, id) <==> t in log && t.shiftId == id
  {
    if log != [] {
      ForShiftMembers(log[..|log| - 1], id);
      assert log == log[..|log| - 1] + [log[|log| - 1]];
    }
  }

  /** Position i of the newest-first list is position |s| - 1 - i of the
      list in creation order. */
  lemma {:induction false} NewestFirstAt(s: seq<CashDrawerTransaction>)
    ensures |NewestFirst(s)| == |s|
    ensures forall i :: 0 <= i < |s| ==> NewestFirst(s)[i] == s[|s| - 1 - i]
  {
    if s != [] {
      var n := |s|;
      var front := s[..n - 1];
      var r := NewestFirst(front);
      NewestFirstAt(front);
      assert NewestFirst(s) == [s[n - 1]] + r;
      forall i | 0 <= i < n ensures NewestFirst(s)[i] == s[n - 1 - i] {
        if i > 0 {
          assert NewestFirst(s)[i] == r[i - 1] == front[n - 1 - i];
        }
      }
    }
  }

  /** `loadTransactions` lists the shift's rows in reverse creation order:
      the first row read back is the last one created. */
  lemma ReloadOrder(log: seq<CashDrawerTransaction>, id: ShiftId)
    ensures |Reload(log, id)| == |ForShift(log, id)|
    ensures forall i :: 0 <= i < |Reload(log, id)| ==>
      Reload(log, id)[i] == ForShift(log, id)[|ForShift(log, id)| - 1 - i]
  {
    NewestFirstAt(ForShift(log, id));
  }

  lemma {:induction false} ForShiftOther(log: seq<CashDrawerTransaction>, id: ShiftId)
    requires forall j :: 0 <= j < |log| ==> log[j].shiftId != id
    ensures ForShift(log, id) == []
  {
    if log != [] {
      ForShiftOther(log[..|log| - 1], id);
    }
  }

  /** Appending a row of shift `id` to the log puts it first in the reload,
      ahead of what was there. */
  lemma ReloadAfterAppend(log: seq<CashDrawerTransaction>, t: CashDrawerTransaction)
    ensures Reload(log + [t], t.shiftId) == [t] + Reload(log, t.shiftId)
  {
    var log' := log + [t];
    assert log'[..|log'| - 1] == log;
  }

  lemma {:induction false} NewestFirstMultiset(s: seq<CashDrawerTransaction>)
    ensures multiset(NewestFirst(s)) == multiset(s)
  {
    if s != [] {
      NewestFirstMultiset(s[..|s| - 1]);
      assert s == s[..|s| - 1] + [s[|s| - 1]];
    }
  }

  /** Listing the rows newest first does not change the balance. */
  lemma NewestFirstBalance(s: Shift, txs: seq<CashDrawerTransaction>)
    ensures Balance(Some(s), NewestFirst(txs)) == Balance(Some(s), txs)
  {
    NewestFirstMultiset(txs);
    NetPermutation(NewestFirst(txs), txs);
  }

  // ---------------------------------------------------------------------
  // Choosing the current shift

  /** `loadCurrentShift`: among the cashier's open shifts, one opened last;
      none when the cashier has no open shift. */
  function LatestOpenShift(shifts: seq<Shift>, cashier: UserId): (r: Option<Shift>)
    ensures r.Some? ==> r.value in shifts && r.value.cashierId == cashier && r.value.status == Open
    ensures r.Some? ==> forall s :: s in shifts && s.cashierId == cashier && s.status == Open ==>
                          s.openedAt <= r.value.openedAt
    ensures r.None? ==> forall s :: s in shifts ==> !(s.cashierId == cashier && s.status == Open)
  {
    if shifts == [] then None
    else
      var rest := LatestOpenShift(shifts[..|shifts| - 1], cashier);
      var s := shifts[|shifts| - 1];
      assert shifts == shifts[..|shifts| - 1] + [s];
      if !(s.cashierId == cashier && s.status == Open) then rest
      else if rest.None? || rest.value.openedAt < s.openedAt then Some(s)
      else rest
  }

  // ---------------------------------------------------------------------
  // Writing shifts

  /** The row `handleOpenShift` inserts: open, with the entered opening
      balance, opened now. */
  function NewShift(id: ShiftId, cashier: UserId, openingBalance: Money, now: Timestamp): Shift {
    Shift(id, cashier, now, None, openingBalance, None, None, None, Open, None)
  }

  /** `update({status: 'closed', closed_at, closing_balance}).eq('id', id)`:
      the expected balance and the difference are not written. */
  function ClosedShifts(shifts: seq<Shift>, id: ShiftId, now: Timestamp, counted: Money): seq<Shift> {
    seq(|shifts|, i requires 0 <= i < |shifts| =>
      if shifts[i].id == id
      then shifts[i].(status := Closed, closedAt := Some(now), closingBalance := Some(counted))
      else shifts[i])
  }

  /** Closing changes only the closed shift's status, close time and
      closing balance; the expected balance and difference stay as they
      were, and the shift is no longer a candidate for the current shift. */
  lemma CloseRecord(shifts: seq<Shift>, id: ShiftId, now: Timestamp, counted: Money)
    requires forall i :: 0 <= i < |shifts| ==> shifts[i].id == i
    requires id < |shifts|
    ensures ClosedShifts(shifts, id, now, counted)
         == shifts[id := shifts[id].(status := Closed, closedAt := Some(now), closingBalance := Some(counted))]
    ensures forall c :: LatestOpenShift(ClosedShifts(shifts, id, now, counted), c).Some? ==>
                          LatestOpenShift(ClosedShifts(shifts, id, now, counted), c).value.id != id
  {
    var r := ClosedShifts(shifts, id, now, counted);
    var u := shifts[id := shifts[id].(status := Closed, closedAt := Some(now), closingBalance := Some(counted))];
    assert |r| == |u|;
    forall i | 0 <= i < |r| ensures r[i] == u[i] {
    }
    forall c | LatestOpenShift(r, c).Some? ensures LatestOpenShift(r, c).value.id != id {
      var s := LatestOpenShift(r, c).value;
      var i :| 0 <= i < |r| && r[i] == s;
    }
  }

  /** Opening never checks for an open shift already stored: after a second
      open the cashier's earlier open shift is still stored and open next to
      the new one, and the new one, opened last, is the one picked as
      current. */
  lemma OpenAgain(shifts: seq<Shift>, s: Shift)
    requires s.status == Open
    requires exists x :: x in shifts && x.cashierId == s.cashierId && x.status == Open
    requires forall x :: x in shifts ==> x.openedAt < s.openedAt
    ensures exists x :: x in shifts + [s] && x != s && x.cashierId == s.cashierId && x.status == Open
    ensures LatestOpenShift(shifts + [s], s.cashierId) == Some(s)
  {
    var x :| x in shifts && x.cashierId == s.cashierId && x.status == Open;
    assert x in shifts + [s] && x != s;
    assert s in shifts + [s];
  }

  /** The worked example: opening 1000, an add of 200 and a withdrawal of
      50 leave 1150 in the drawer; a count of 1140 is 10 short. */
  lemma ReconciliationExample(s: Shift, add: CashDrawerTransaction, withdraw: CashDrawerTransaction)
    requires s.openingBalance == 1000.0
    requires add.kind == Add && add.amount == 200.0
    requires withdraw.kind == Withdraw && withdraw.amount == 50.0
    ensures Balance(Some(s), [withdraw, add]) == 1150.0
    ensures Difference(1140.0, Balance(Some(s), [withdraw, add])) == -10.0
  {
    BalanceAfterNewest(s, [add], withdraw);
    BalanceAfterNewest(s, [], add);
    assert [add] == [add] + [];
  }
}
