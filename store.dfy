/** The order and balance documents as mutable state, with the transactional
    read-modify-write operations of the order service. Each method body runs
    as one atomic transaction; its postcondition states the ledger deltas and
    ties the new state to the functions of module Ledger. */
module OrderStore {
  import opened Wrappers
  import opened Types
  import opened Ledger

  class Store {
    var orders: map<string, Order>
    var balances: map<CourierName, CourierBalance>

    function State(): Db
      reads this
    {
      Db(orders, balances)
    }

    constructor (db: Db)
      ensures State() == db
    {
      orders := db.orders;
      balances := db.balances;
    }

    /** `performSettlement`: read the courier's record (zero when missing),
        add the cash of a cash order and the delivery fee, write it back. */
    method PerformSettlement(o: Order)
      modifies this
      ensures orders == old(orders)
      ensures o.courier in balances
      ensures balances == old(balances)[o.courier := Settle(Lookup(old(balances), o.courier), o)]
      ensures balances[o.courier].cashCollected ==
        Lookup(old(balances), o.courier).GetOr(ZeroBalance).cashCollected + (if o.paymentMethod == Cash then o.totalValue else 0)
      ensures balances[o.courier].feesOwed ==
        Lookup(old(balances), o.courier).GetOr(ZeroBalance).feesOwed + o.deliveryCost
    {
      var newCashCollected := 0;
      var newFeesOwed := 0;
      if o.courier in balances {
        newCashCollected := balances[o.courier].cashCollected;
        newFeesOwed := balances[o.courier].feesOwed;
      }
      if o.paymentMethod == Cash {
        newCashCollected := newCashCollected + o.totalValue;
      }
      newFeesOwed := newFeesOwed + o.deliveryCost;
      balances := balances[o.courier := CourierBalance(newCashCollected, newFeesOwed)];
    }

    /** `reverseSettlement`: subtract what settling added; with no record it
        writes nothing and reports nothing. */
    method ReverseSettlement(o: Order)
      modifies this
      ensures orders == old(orders)
      ensures o.courier !in old(balances) ==> balances == old(balances)
      ensures o.courier in old(balances) ==>
        balances == old(balances)[o.courier := Reverse(old(balances)[o.courier], o)]
      ensures o.courier in old(balances) ==>
        balances[o.courier].cashCollected ==
          old(balances)[o.courier].cashCollected - (if o.paymentMethod == Cash then o.totalValue else 0)
      ensures o.courier in old(balances) ==>
        balances[o.courier].feesOwed == old(balances)[o.courier].feesOwed - o.deliveryCost
    {
      if o.courier !in balances {
        return;
      }
      var current := balances[o.courier];
      var newCashCollected := current.cashCollected;
      if o.paymentMethod == Cash {
        newCashCollected := newCashCollected - o.totalValue;
      }
      var newFeesOwed := current.feesOwed - o.deliveryCost;
      balances := balances[o.courier := CourierBalance(newCashCollected, newFeesOwed)];
    }

    /** `updateOrderStatus`. */
    method UpdateOrderStatus(id: string, status: OrderStatus) returns (err: Option<LedgerError>)
      modifies this
      ensures err == None <==> id in old(orders)
      ensures err.Some? ==> err.value == OrderNotFound && State() == old(State())
      ensures err.None? ==> Success(State()) == Ledger.UpdateOrderStatus(old(State()), id, status)
    {
      if id !in orders {
        return Some(OrderNotFound);
      }
      var order := orders[id];
      var oldStatus := order.status;
      if oldStatus == status {
        return None;
      }
      if oldStatus == Cancelled || oldStatus == Returned {
        return None;
      }
      if oldStatus == Delivered && status != Returned {
        return None;
      }
      orders := orders[id := order.(status := status)];
      var updatedOrder := order.(status := status);
      if status == Delivered && oldStatus != Delivered {
        PerformSettlement(updatedOrder);
      } else if status == Returned && oldStatus == Delivered {
        ReverseSettlement(order);
      }
      return None;
    }

    /** `deliverOrder`. */
    method DeliverOrder(id: string, pay: DeliveryMethod, receiptUrl: Option<string>) returns (err: Option<LedgerError>)
      modifies this
      ensures err == None <==> id in old(orders)
      ensures err.Some? ==> err.value == OrderNotFound && State() == old(State())
      ensures err.None? ==> Success(State()) == Ledger.DeliverOrder(old(State()), id, pay, receiptUrl)
      ensures err.None? ==> orders[id].status == Delivered && orders[id].paymentStatus == Paid
      ensures err.None? && old(orders)[id].status == Delivered ==> balances == old(balances)
    {
      if id !in orders {
        return Some(OrderNotFound);
      }
      var order := orders[id];
      var receipt := order.transferReceiptUrl;
      if receiptUrl.Some? && receiptUrl.value != [] {
        receipt := receiptUrl;
      }
      var updated := order.(paymentMethod := pay, paymentStatus := Paid, status := Delivered,
                            transferReceiptUrl := receipt);
      orders := orders[id := updated];
      if order.status != Delivered {
        PerformSettlement(updated);
      }
      return None;
    }

    /** `settleCourierCash`: an update of the existing record. */
    method SettleCourierCash(c: CourierName) returns (err: Option<LedgerError>)
      modifies this
      ensures err == None <==> c in old(balances)
      ensures orders == old(orders)
      ensures err.Some? ==> balances == old(balances)
      ensures err.None? ==> balances == old(balances)[c := CourierBalance(0, old(balances)[c].feesOwed)]
      ensures err.None? ==> Success(State()) == Ledger.SettleCourierCash(old(State()), c)
    {
      if c !in balances {
        return Some(BalanceNotFound);
      }
      balances := balances[c := balances[c].(cashCollected := 0)];
      return None;
    }

    /** `payCourierFees`: an update of the existing record. */
    method PayCourierFees(c: CourierName) returns (err: Option<LedgerError>)
      modifies this
      ensures err == None <==> c in old(balances)
      ensures orders == old(orders)
      ensures err.Some? ==> balances == old(balances)
      ensures err.None? ==> balances == old(balances)[c := CourierBalance(old(balances)[c].cashCollected, 0)]
      ensures err.None? ==> Success(State()) == Ledger.PayCourierFees(old(State()), c)
    {
      if c !in balances {
        return Some(BalanceNotFound);
      }
      balances := balances[c := balances[c].(feesOwed := 0)];
      return None;
    }

    /** The i-th transaction of the bulk change. */
    method BulkStep(ghost db: Db, ids: seq<string>, i: nat, status: OrderStatus) returns (found: bool)
      requires i < |ids|
      requires State() == BulkResult(db, ids[..i], status)
      requires State().orders.Keys == db.orders.Keys
      modifies this
      ensures found <==> ids[i] in db.orders
      ensures State() == BulkResult(db, ids[..i + 1], status)
      ensures State().orders.Keys == db.orders.Keys
    {
      var err := UpdateOrderStatus(ids[i], status);
      found := err.None?;
      BulkAdvance(db, ids, i, status, State());
    }

    /** The bulk status change: one transaction per selected id, all of them
        attempted; the whole action fails if any id is missing. */
    method BulkUpdateStatus(ids: seq<string>, status: OrderStatus) returns (ok: bool)
      modifies this
      ensures ok <==> forall i :: 0 <= i < |ids| ==> ids[i] in old(orders)
      ensures State() == BulkResult(old(State()), ids, status)
    {
      ok := true;
      var i := 0;
      while i < |ids|
        invariant 0 <= i <= |ids|
        invariant State() == BulkResult(old(State()), ids[..i], status)
        invariant State().orders.Keys == old(State()).orders.Keys
        invariant ok <==> forall j :: 0 <= j < i ==> ids[j] in old(orders)
      {
        var found := BulkStep(old(State()), ids, i, status);
        ok := ok && found;
        i := i + 1;
      }
      assert ids[..i] == ids;
    }
  }

  /** The state after applying `updateOrderStatus` to each id in turn, a
      missing id leaving the state as it was. */
  function BulkResult(db: Db, ids: seq<string>, status: OrderStatus): Db
    decreases |ids|
  {
    if ids == [] then db
    else
      var prev := BulkResult(db, ids[..|ids| - 1], status);
      match Ledger.UpdateOrderStatus(prev, ids[|ids| - 1], status)
      case Success(next) => next
      case Failure(_) => prev
  }

  /** One step of the bulk loop: the state after the i-th update is the
      bulk result of the first i + 1 ids, and no order was added or removed. */
  lemma {:induction false} BulkAdvance(db: Db, ids: seq<string>, i: nat, status: OrderStatus, next: Db)
    requires i < |ids|
    requires BulkResult(db, ids[..i], status).orders.Keys == db.orders.Keys
    requires Ledger.UpdateOrderStatus(BulkResult(db, ids[..i], status), ids[i], status).Success? ==>
      next == Ledger.UpdateOrderStatus(BulkResult(db, ids[..i], status), ids[i], status).value
    requires Ledger.UpdateOrderStatus(BulkResult(db, ids[..i], status), ids[i], status).Failure? ==>
      next == BulkResult(db, ids[..i], status)
    ensures next == BulkResult(db, ids[..i + 1], status)
    ensures next.orders.Keys == db.orders.Keys
  {
    var prev := BulkResult(db, ids[..i], status);
    if Ledger.UpdateOrderStatus(prev, ids[i], status).Success? {
      Ledger.UpdateOrderStatusFrame(prev, ids[i], status);
    }
    BulkResultStep(db, ids[..i], ids[i], status);
    assert ids[..i + 1] == ids[..i] + [ids[i]];
  }

  lemma {:induction false} BulkResultStep(db: Db, ids: seq<string>, id: string, status: OrderStatus)
    ensures BulkResult(db, ids + [id], status) ==
      match Ledger.UpdateOrderStatus(BulkResult(db, ids, status), id, status)
      case Success(next) => next
      case Failure(_) => BulkResult(db, ids, status)
  {
    assert (ids + [id])[..|ids|] == ids;
  }
}
