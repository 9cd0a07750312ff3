/** The state of the cashier page: the current shift, its transactions as
    last read back, and the shift tables its handlers write. */
module Cashier {
  import opened Common
  import opened Ledger

  /** Descriptions written when the cashier leaves the field empty
      ("add cash" and "withdraw cash"). */
  const AddCashDescription: string := "เพิ่มเงินสด"
  const WithdrawCashDescription: string := "ถอนเงินสด"

  class CashierPage {
    var user: Option<UserId>
    var currentShift: Option<Shift>
    var transactions: seq<CashDrawerTransaction>
    var db: ShiftStore

    /** The store keeps its ids, the current shift is a stored one, and with
        no current shift the page lists no transactions. */
    ghost predicate Valid()
      reads this
    {
      && StoreValid(db)
      && (currentShift.Some? ==> currentShift.value.id < |db.shifts|)
      && (currentShift.None? ==> transactions == [])
    }

    /** The listed transactions are those of the current shift as stored,
        newest first (true unless a reload failed). */
    ghost predicate Synced()
      reads this
    {
      currentShift.Some? ==> transactions == Reload(db.log, currentShift.value.id)
    }

    constructor (user: Option<UserId>, db: ShiftStore)
      requires StoreValid(db)
      ensures Valid() && Synced()
      ensures this.user == user && this.db == db
      ensures currentShift == None && transactions == []
    {
      this.user := user;
      this.db := db;
      currentShift := None;
      transactions := [];
    }

    /** `loadCurrentShift`: make the cashier's latest open shift current
        and read its transactions back. A failed query, or no open shift,
        changes nothing. */
    method LoadCurrentShift(cashier: UserId, queryFails: bool, reloadFails: bool)
      requires Valid()
      modifies this`currentShift, this`transactions
      ensures Valid()
      ensures queryFails || LatestOpenShift(db.shifts, cashier).None? ==>
                currentShift == old(currentShift) && transactions == old(transactions)
      ensures !queryFails && LatestOpenShift(db.shifts, cashier).Some? ==>
                && currentShift == LatestOpenShift(db.shifts, cashier)
                && transactions == (if reloadFails then old(transactions) else Reload(db.log, currentShift.value.id))
      ensures !queryFails && !reloadFails && LatestOpenShift(db.shifts, cashier).Some? ==> Synced()
    {
      if queryFails {
        return;
      }
      var found := LatestOpenShift(db.shifts, cashier);
      if found.Some? {
        ghost var i :| 0 <= i < |db.shifts| && db.shifts[i] == found.value;
        currentShift := found;
        if !reloadFails {
          transactions := Reload(db.log, found.value.id);
        }
      }
    }

    /** `handleOpenShift`: insert an open shift with the entered opening
        balance and make it current. Nothing checks for a shift already
        open; the page offers the action only when none is current. */
    method OpenShift(openingBalance: Money, now: Timestamp, insertFails: bool)
      requires Valid()
      modifies this`currentShift, this`db
      ensures Valid()
      ensures old(user).None? || insertFails ==> unchanged(this)
      ensures old(user).Some? && !insertFails ==>
                var s := NewShift(|old(db.shifts)|, old(user).value, openingBalance, now);
                && db == old(db).(shifts := old(db.shifts) + [s])
                && currentShift == Some(s)
                && transactions == old(transactions)
      ensures old(user).Some? && !insertFails && old(currentShift).None? ==>
                Synced() && Balance(currentShift, transactions) == openingBalance
    {
      if user.None? || insertFails {
        return;
      }
      var s := NewShift(|db.shifts|, user.value, openingBalance, now);
      ForShiftOther(db.log, s.id);
      db := db.(shifts := db.shifts + [s]);
      currentShift := Some(s);
    }

    /** `handleCloseShift`: mark the current shift closed with the counted
        cash, then forget it and its transactions. */
    method CloseShift(counted: Money, now: Timestamp, updateFails: bool)
      requires Valid()
      modifies this`currentShift, this`transactions, this`db
      ensures Valid()
      ensures old(currentShift).None? || updateFails ==> unchanged(this)
      ensures old(currentShift).Some? && !updateFails ==>
                var id := old(currentShift).value.id;
                && db.log == old(db.log)
                && db.shifts == old(db.shifts)[id := old(db.shifts)[id].(status := Closed, closedAt := Some(now),
                                                                          closingBalance := Some(counted))]
                && currentShift == None && transactions == []
    {
      if currentShift.None? || updateFails {
        return;
      }
      var id := currentShift.value.id;
      CloseRecord(db.shifts, id, now, counted);
      db := db.(shifts := ClosedShifts(db.shifts, id, now, counted));
      currentShift := None;
      transactions := [];
    }

    /** `handleAddCash`: record cash put into the drawer. */
    method AddCash(amount: Money, description: string, now: Timestamp, insertFails: bool, reloadFails: bool)
      requires Valid()
      modifies this`transactions, this`db
      ensures Valid()
      ensures old(currentShift).None? || old(user).None? || insertFails ==> unchanged(this)
      ensures old(currentShift).Some? && old(user).Some? && !insertFails ==>
                var t := CashDrawerTransaction(|old(db.log)|, old(currentShift).value.id, Add, amount,
                           if description == "" then AddCashDescription else description, now, old(user).value);
                && db == old(db).(log := old(db.log) + [t])
                && transactions == (if reloadFails then old(transactions) else Reload(db.log, t.shiftId))
      ensures old(currentShift).Some? && old(user).Some? && !insertFails && !reloadFails && old(Synced()) ==>
                Synced() && Balance(currentShift, transactions) == old(Balance(currentShift, transactions)) + amount
    {
      Record(Add, amount, description, AddCashDescription, now, insertFails, reloadFails);
    }

    /** `handleWithdrawCash`: record cash taken out of the drawer. */
    method WithdrawCash(amount: Money, description: string, now: Timestamp, insertFails: bool, reloadFails: bool)
      requires Valid()
      modifies this`transactions, this`db
      ensures Valid()
      ensures old(currentShift).None? || old(user).None? || insertFails ==> unchanged(this)
      ensures old(currentShift).Some? && old(user).Some? && !insertFails ==>
                var t := CashDrawerTransaction(|old(db.log)|, old(currentShift).value.id, Withdraw, amount,
                           if description == "" then WithdrawCashDescription else description, now, old(user).value);
                && db == old(db).(log := old(db.log) + [t])
                && transactions == (if reloadFails then old(transactions) else Reload(db.log, t.shiftId))
      ensures old(currentShift).Some? && old(user).Some? && !insertFails && !reloadFails && old(Synced()) ==>
                Synced() && Balance(currentShift, transactions) == old(Balance(currentShift, transactions)) - amount
    {
      Record(Withdraw, amount, description, WithdrawCashDescription, now, insertFails, reloadFails);
    }

    /** What the two cash handlers share: without a current shift and a
        user nothing happens; otherwise insert one row for the current shift
        and read the shift's rows back. */
    method Record(kind: TransactionType, amount: Money, description: string, fallback: string,
                  now: Timestamp, insertFails: bool, reloadFails: bool)
      requires Valid()
      modifies this`transactions, this`db
      ensures Valid()
      ensures old(currentShift).None? || old(user).None? || insertFails ==> unchanged(this)
      ensures old(currentShift).Some? && old(user).Some? && !insertFails ==>
                var t := CashDrawerTransaction(|old(db.log)|, old(currentShift).value.id, kind, amount,
                           if description == "" then fallback else description, now, old(user).value);
                && db == old(db).(log := old(db.log) + [t])
                && transactions == (if reloadFails then old(transactions) else Reload(db.log, t.shiftId))
                && (!reloadFails && old(Synced()) ==>
                      Synced() && transactions == [t] + old(transactions) &&
                      Balance(currentShift, transactions) == old(Balance(currentShift, transactions)) + Signed(t))
    {
      if currentShift.None? || user.None? || insertFails {
        return;
      }
      var shift := currentShift.value;
      var t := CashDrawerTransaction(|db.log|, shift.id, kind, amount,
                 if description == "" then fallback else description, now, user.value);
      var log' := db.log + [t];
      assert StoreValid(ShiftStore(db.shifts, log')) by {
        forall j | 0 <= j < |log'| ensures log'[j].id == j && log'[j].shiftId < |db.shifts| {
          if j < |db.log| { assert log'[j] == db.log[j]; }
        }
      }
      ReloadAfterAppend(db.log, t);
      BalanceAfterNewest(shift, transactions, t);
      db := db.(log := log');
      if !reloadFails {
        transactions := Reload(db.log, shift.id);
      }
    }
  }

  /** The worked example through the page: open with 1000, add 200,
      withdraw 50; the drawer holds 1150 and a count of 1140 shows a
      difference of -10. */
  method ReconciliationScenario(cashier: UserId) returns (balance: Money, difference: Money)
    ensures balance == 1150.0 && difference == -10.0
  {
    var page := new CashierPage(Some(cashier), ShiftStore([], []));
    page.OpenShift(1000.0, 1, false);
    assert page.user == Some(cashier) && page.currentShift.Some?;
    assert page.Synced() && Balance(page.currentShift, page.transactions) == 1000.0;
    page.AddCash(200.0, "", 2, false, false);
    assert page.user == Some(cashier) && page.currentShift.Some?;
    assert page.Synced() && Balance(page.currentShift, page.transactions) == 1200.0;
    page.WithdrawCash(50.0, "", 3, false, false);
    assert Balance(page.currentShift, page.transactions) == 1150.0;
    balance := Balance(page.currentShift, page.transactions);
    difference := Difference(1140.0, balance);
  }
}
