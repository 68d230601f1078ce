/** The order-status state machine and the per-courier cash/fee ledger, as
    functions over a snapshot of the two stores: orders by id and courier
    balances by courier. Each operation is one atomic transaction: it
    either fails and writes nothing, or yields the next snapshot. */
module Ledger {
  import opened Wrappers
  import opened Types
  import Constants

  datatype Db = Db(orders: map<string, Order>, balances: map<CourierName, CourierBalance>)

  datatype LedgerError = OrderNotFound | BalanceNotFound

  /** The two payment methods a courier can confirm on delivery. */
  type DeliveryMethod = m: PaymentMethod | m == Cash || m == Transfer witness Cash

  function Lookup(balances: map<CourierName, CourierBalance>, c: CourierName): Option<CourierBalance> {
    if c in balances then Some(balances[c]) else None
  }

  /** The cash a delivered order leaves in the courier's hands. */
  function CashDelta(o: Order): int {
    if o.paymentMethod == Cash then o.totalValue else 0
  }

  /** `performSettlement`: the new balance record; a missing record counts
      as zero. */
  function Settle(b: Option<CourierBalance>, o: Order): CourierBalance {
    var cur := b.GetOr(ZeroBalance);
    CourierBalance(cur.cashCollected + CashDelta(o), cur.feesOwed + o.deliveryCost)
  }

  /** `reverseSettlement` on an existing record (no clamping at zero). */
  function Reverse(b: CourierBalance, o: Order): CourierBalance {
    CourierBalance(b.cashCollected - CashDelta(o), b.feesOwed - o.deliveryCost)
  }

  /** Settling then reversing the same order restores the record exactly,
      for every payment method; a missing record comes back as zero. */
  lemma {:induction false} ReverseUndoesSettle(b: Option<CourierBalance>, o: Order)
    ensures Reverse(Settle(b, o), o) == b.GetOr(ZeroBalance)
  {
  }

  /** Fees grow by the delivery cost whatever the payment method; cash grows
      only for cash orders. */
  lemma {:induction false} SettleDeltas(b: CourierBalance, o: Order)
    ensures Settle(Some(b), o).feesOwed == b.feesOwed + o.deliveryCost
    ensures o.paymentMethod != Cash ==> Settle(Some(b), o).cashCollected == b.cashCollected
    ensures o.paymentMethod == Cash ==> Settle(Some(b), o).cashCollected == b.cashCollected + o.totalValue
    ensures Settle(None, o) == Settle(Some(ZeroBalance), o)
  {
  }

  datatype LedgerEffect = NoLedger | SettleLedger | ReverseLedger

  /** What `updateOrderStatus` does for a requested change of status. */
  datatype Decision = Ignore | Apply(effect: LedgerEffect)

  function StatusDecision(current: OrderStatus, target: OrderStatus): Decision {
    if current == target then Ignore
    else if current == Cancelled || current == Returned then Ignore
    else if current == Delivered && target != Returned then Ignore
    else if target == Delivered && current != Delivered then Apply(SettleLedger)
    else if target == Returned && current == Delivered then Apply(ReverseLedger)
    else Apply(NoLedger)
  }

  /** The accepted changes are exactly: any change away from Pending, Packed
      or InTransit (backwards moves included), and Delivered to Returned. */
  lemma {:induction false} StatusDecisionAccepts(current: OrderStatus, target: OrderStatus)
    ensures StatusDecision(current, target).Apply? <==>
      current != target &&
      ((current in {Pending, Packed, InTransit}) || (current == Delivered && target == Returned))
    ensures StatusDecision(current, target) == Apply(SettleLedger) <==>
      current in {Pending, Packed, InTransit} && target == Delivered
    ensures StatusDecision(current, target) == Apply(ReverseLedger) <==>
      current == Delivered && target == Returned
  {
  }

  function UpdateOrderStatus(db: Db, id: string, target: OrderStatus): Result<Db, LedgerError> {
    if id !in db.orders then Failure(OrderNotFound)
    else
      var o := db.orders[id];
      match StatusDecision(o.status, target)
      case Ignore => Success(db)
      case Apply(effect) =>
        var orders := db.orders[id := o.(status := target)];
        match effect
        case NoLedger => Success(Db(orders, db.balances))
        case SettleLedger =>
          Success(Db(orders, db.balances[o.courier := Settle(Lookup(db.balances, o.courier), o)]))
        case ReverseLedger =>
          if o.courier in db.balances then
            Success(Db(orders, db.balances[o.courier := Reverse(db.balances[o.courier], o)]))
          else Success(Db(orders, db.balances))
  }

  /** The order as `deliverOrder` rewrites it. */
  function MarkDelivered(o: Order, pay: DeliveryMethod, receiptUrl: Option<string>): Order {
    o.(paymentMethod := pay, paymentStatus := Paid, status := Delivered,
       transferReceiptUrl := if Truthy(receiptUrl) then receiptUrl else o.transferReceiptUrl)
  }

  function DeliverOrder(db: Db, id: string, pay: DeliveryMethod, receiptUrl: Option<string>): Result<Db, LedgerError> {
    if id !in db.orders then Failure(OrderNotFound)
    else
      var o := db.orders[id];
      var o' := MarkDelivered(o, pay, receiptUrl);
      var balances :=
        if o.status != Delivered then db.balances[o.courier := Settle(Lookup(db.balances, o.courier), o')]
        else db.balances;
      Success(Db(db.orders[id := o'], balances))
  }

  /** `settleCourierCash`: an update of an existing balance record. */
  function SettleCourierCash(db: Db, c: CourierName): Result<Db, LedgerError> {
    if c !in db.balances then Failure(BalanceNotFound)
    else Success(db.(balances := db.balances[c := db.balances[c].(cashCollected := 0)]))
  }

  /** `payCourierFees`: an update of an existing balance record. */
  function PayCourierFees(db: Db, c: CourierName): Result<Db, LedgerError> {
    if c !in db.balances then Failure(BalanceNotFound)
    else Success(db.(balances := db.balances[c := db.balances[c].(feesOwed := 0)]))
  }

  // ---------------------------------------------------------------------
  // Properties of the transitions
  // ---------------------------------------------------------------------

  /** A missing order is an error and the only one `updateOrderStatus` and
      `deliverOrder` raise. */
  lemma {:induction false} MissingOrderFails(db: Db, id: string, target: OrderStatus, m: DeliveryMethod, u: Option<string>)
    ensures UpdateOrderStatus(db, id, target).Failure? <==> id !in db.orders
    ensures DeliverOrder(db, id, m, u).Failure? <==> id !in db.orders
    ensures UpdateOrderStatus(db, id, target).Failure? ==> UpdateOrderStatus(db, id, target).error == OrderNotFound
  {
  }

  /** Cancelled and Returned absorb every request; Delivered ignores every
      target but Returned; asking for the current status changes nothing. */
  lemma {:induction false} AbsorbingStatuses(db: Db, id: string, target: OrderStatus)
    requires id in db.orders
    requires db.orders[id].status in {Cancelled, Returned}
      || (db.orders[id].status == Delivered && target != Returned)
      || db.orders[id].status == target
    ensures UpdateOrderStatus(db, id, target) == Success(db)
  {
  }

  /** An accepted change writes the requested status; an ignored one leaves
      the whole snapshot as it was. So the order ends in the target and the
      snapshot changes exactly when the status rule accepts the change. */
  lemma {:induction false} StatusWritten(db: Db, id: string, target: OrderStatus)
    requires id in db.orders
    ensures var d := StatusDecision(db.orders[id].status, target);
      var db' := UpdateOrderStatus(db, id, target).value;
      && (d.Apply? ==> db'.orders[id].status == target)
      && (d == Ignore ==> db' == db)
    ensures var current := db.orders[id].status;
      var db' := UpdateOrderStatus(db, id, target).value;
      && (db'.orders[id].status == target <==>
            current == target || current in {Pending, Packed, InTransit} || (current == Delivered && target == Returned))
      && (db' != db <==>
            current != target && (current in {Pending, Packed, InTransit} || (current == Delivered && target == Returned)))
  {
    var d := StatusDecision(db.orders[id].status, target);
    var db' := UpdateOrderStatus(db, id, target).value;
    if d.Apply? {
      assert db'.orders[id].status == target != db.orders[id].status;
      assert db'.orders != db.orders;
    }
  }

  /** Only the status field of the one order is written, the status written
      is the one requested, and balances other than the order's courier's
      are untouched. */
  lemma {:induction false} UpdateOrderStatusFrame(db: Db, id: string, target: OrderStatus)
    requires UpdateOrderStatus(db, id, target).Success?
    ensures var db' := UpdateOrderStatus(db, id, target).value;
      && db'.orders.Keys == db.orders.Keys
      && db'.orders[id] == db.orders[id].(status := db'.orders[id].status)
      && (StatusDecision(db.orders[id].status, target).Apply? ==> db'.orders[id].status == target)
      && (StatusDecision(db.orders[id].status, target) == Ignore ==> db' == db)
      && (forall k :: k in db.orders && k != id ==> db'.orders[k] == db.orders[k])
      && (forall c :: c != db.orders[id].courier ==> Lookup(db'.balances, c) == Lookup(db.balances, c))
  {
  }

  /** Balances move only when an order enters Delivered (settle, with the
      order's stored payment method) or leaves it for Returned (reverse). */
  lemma {:induction false} UpdateOrderStatusLedger(db: Db, id: string, target: OrderStatus)
    requires id in db.orders
    ensures var o := db.orders[id]; var db' := UpdateOrderStatus(db, id, target).value;
      && (StatusDecision(o.status, target) == Apply(SettleLedger) ==>
            db'.balances == db.balances[o.courier := Settle(Lookup(db.balances, o.courier), o)])
      && (StatusDecision(o.status, target) == Apply(ReverseLedger) && o.courier in db.balances ==>
            db'.balances == db.balances[o.courier := Reverse(db.balances[o.courier], o)])
      && (StatusDecision(o.status, target) == Apply(ReverseLedger) && o.courier !in db.balances ==>
            db'.balances == db.balances && db'.orders[id].status == Returned)
      && (StatusDecision(o.status, target) in {Ignore, Apply(NoLedger)} ==> db'.balances == db.balances)
  {
  }

  /** `deliverOrder` always records the payment and the delivery, and settles
      only when the order was not already Delivered; Cancelled and Returned
      orders are not protected. No other order and no other courier's
      balance is written. */
  lemma {:induction false} DeliverOrderEffect(db: Db, id: string, m: DeliveryMethod, u: Option<string>)
    requires id in db.orders
    ensures var o := db.orders[id]; var db' := DeliverOrder(db, id, m, u).value;
      && db'.orders == db.orders[id := MarkDelivered(o, m, u)]
      && (forall c :: c != o.courier ==> Lookup(db'.balances, c) == Lookup(db.balances, c))
      && db'.orders[id].status == Delivered
      && db'.orders[id].paymentStatus == Paid
      && db'.orders[id].paymentMethod == m
      && (Truthy(u) ==> db'.orders[id].transferReceiptUrl == u)
      && (!Truthy(u) ==> db'.orders[id].transferReceiptUrl == o.transferReceiptUrl)
      && (o.status == Delivered ==> db'.balances == db.balances)
      && (o.status != Delivered ==>
            db'.balances[o.courier].feesOwed ==
            Lookup(db.balances, o.courier).GetOr(ZeroBalance).feesOwed + o.deliveryCost)
      && (o.status != Delivered ==>
            db'.balances[o.courier].cashCollected ==
            Lookup(db.balances, o.courier).GetOr(ZeroBalance).cashCollected + (if m == Cash then o.totalValue else 0))
  {
  }

  /** Confirming a delivery twice settles the ledger once: the second call
      leaves every balance as the first left it. */
  lemma {:induction false} DeliverTwiceSettlesOnce(db: Db, id: string, m1: DeliveryMethod, u1: Option<string>,
                                                    m2: DeliveryMethod, u2: Option<string>)
    requires id in db.orders
    ensures DeliverOrder(db, id, m1, u1).Success?
    ensures var db1 := DeliverOrder(db, id, m1, u1).value;
      DeliverOrder(db1, id, m2, u2).Success? &&
      DeliverOrder(db1, id, m2, u2).value.balances == db1.balances
  {
    var db1 := DeliverOrder(db, id, m1, u1).value;
    assert db1.orders[id].status == Delivered;
  }

  /** Setting Delivered twice settles once: the second request is ignored. */
  lemma {:induction false} UpdateDeliveredTwice(db: Db, id: string)
    requires UpdateOrderStatus(db, id, Delivered).Success?
    ensures var db1 := UpdateOrderStatus(db, id, Delivered).value;
      UpdateOrderStatus(db1, id, Delivered) == Success(db1)
  {
    var db1 := UpdateOrderStatus(db, id, Delivered).value;
    assert db1.orders[id].status in {Delivered, Cancelled, Returned};
  }

  /** Delivering an open order and then returning it brings the courier's
      balance back to what it was (zero if there was no record). */
  lemma {:induction false} DeliverThenReturnRestores(db: Db, id: string, m: DeliveryMethod, u: Option<string>)
    requires id in db.orders && db.orders[id].status in {Pending, Packed, InTransit}
    ensures var db1 := DeliverOrder(db, id, m, u).value;
      var c := db.orders[id].courier;
      UpdateOrderStatus(db1, id, Returned).Success? &&
      UpdateOrderStatus(db1, id, Returned).value.balances ==
        db.balances[c := Lookup(db.balances, c).GetOr(ZeroBalance)]
  {
    var o := db.orders[id];
    var db1 := DeliverOrder(db, id, m, u).value;
    var o1 := db1.orders[id];
    assert o1 == MarkDelivered(o, m, u);
    assert o1.courier == o.courier && o1.status == Delivered;
    assert o.courier in db1.balances;
    ReverseUndoesSettle(Lookup(db.balances, o.courier), o1);
  }

  /** The same round trip through `updateOrderStatus` alone. */
  lemma {:induction false} SetDeliveredThenReturnRestores(db: Db, id: string)
    requires id in db.orders && db.orders[id].status in {Pending, Packed, InTransit}
    ensures var db1 := UpdateOrderStatus(db, id, Delivered).value;
      var c := db.orders[id].courier;
      UpdateOrderStatus(db1, id, Returned).Success? &&
      UpdateOrderStatus(db1, id, Returned).value.balances ==
        db.balances[c := Lookup(db.balances, c).GetOr(ZeroBalance)]
  {
    var o := db.orders[id];
    var db1 := UpdateOrderStatus(db, id, Delivered).value;
    assert db1.orders[id] == o.(status := Delivered);
    assert o.courier in db1.balances;
    ReverseUndoesSettle(Lookup(db.balances, o.courier), o);
  }

  /** The zeroing actions fail without a balance record; otherwise they reset
      one field of that record, keep its other field, and change no order and
      no other courier's balance. */
  lemma {:induction false} ZeroingActions(db: Db, c: CourierName)
    ensures SettleCourierCash(db, c).Failure? <==> c !in db.balances
    ensures PayCourierFees(db, c).Failure? <==> c !in db.balances
    ensures c in db.balances ==>
      SettleCourierCash(db, c).value.balances[c] == CourierBalance(0, db.balances[c].feesOwed)
    ensures c in db.balances ==>
      PayCourierFees(db, c).value.balances[c] == CourierBalance(db.balances[c].cashCollected, 0)
    ensures c in db.balances ==> SettleCourierCash(db, c).value.orders == db.orders
    ensures c in db.balances ==> PayCourierFees(db, c).value.orders == db.orders
    ensures c in db.balances ==> forall c' :: c' != c ==>
      Lookup(SettleCourierCash(db, c).value.balances, c') == Lookup(db.balances, c')
    ensures c in db.balances ==> forall c' :: c' != c ==>
      Lookup(PayCourierFees(db, c).value.balances, c') == Lookup(db.balances, c')
  {
  }

  /** Every stored order keeps its zone's courier and fee through every
      transition: the state machine never rewrites zone, courier or cost. */
  predicate AllZoneConsistent(db: Db) {
    forall id :: id in db.orders ==> Constants.ZoneConsistent(db.orders[id])
  }

  lemma {:induction false} TransitionsKeepZoneConsistency(db: Db, id: string, target: OrderStatus, m: DeliveryMethod, u: Option<string>)
    requires AllZoneConsistent(db)
    ensures UpdateOrderStatus(db, id, target).Success? ==> AllZoneConsistent(UpdateOrderStatus(db, id, target).value)
    ensures DeliverOrder(db, id, m, u).Success? ==> AllZoneConsistent(DeliverOrder(db, id, m, u).value)
  {
    if id in db.orders {
      StatusUpdateKeepsZones(db, id, target);
      DeliveryKeepsZones(db, id, m, u);
    }
  }

  lemma {:induction false} StatusUpdateKeepsZones(db: Db, id: string, target: OrderStatus)
    requires AllZoneConsistent(db) && id in db.orders
    ensures AllZoneConsistent(UpdateOrderStatus(db, id, target).value)
  {
    var db' := UpdateOrderStatus(db, id, target).value;
    UpdateOrderStatusFrame(db, id, target);
    ConsistentAfterRewrite(db, db'.orders, id);
    assert db' == Db(db'.orders, db'.balances);
  }

  lemma {:induction false} DeliveryKeepsZones(db: Db, id: string, m: DeliveryMethod, u: Option<string>)
    requires AllZoneConsistent(db) && id in db.orders
    ensures AllZoneConsistent(DeliverOrder(db, id, m, u).value)
  {
    var o' := MarkDelivered(db.orders[id], m, u);
    assert DeliverOrder(db, id, m, u).value.orders == db.orders[id := o'];
    ConsistentAfterRewrite(db, db.orders[id := o'], id);
  }

  /** Replacing one order by a copy with the same zone, courier and cost
      keeps every order zone-consistent. */
  lemma {:induction false} ConsistentAfterRewrite(db: Db, orders: map<string, Order>, id: string)
    requires AllZoneConsistent(db) && id in db.orders
    requires orders.Keys == db.orders.Keys
    requires orders[id].zone == db.orders[id].zone && orders[id].courier == db.orders[id].courier
    requires orders[id].deliveryCost == db.orders[id].deliveryCost
    requires forall k :: k in db.orders && k != id ==> orders[k] == db.orders[k]
    ensures AllZoneConsistent(Db(orders, db.balances))
  {
    forall k | k in orders
      ensures Constants.ZoneConsistent(orders[k])
    {
      assert Constants.ZoneConsistent(db.orders[k]);
    }
  }

  // ---------------------------------------------------------------------
  // Worked examples
  // ---------------------------------------------------------------------

  function SampleOrder(id: string, courier: CourierName, zone: Zone, total: int, m: PaymentMethod, s: OrderStatus): Order {
    Order(id, None, "Cliente", "300", "Calle 1", "N/A", total, m, PendingPayment,
          courier, zone, Constants.DeliveryCost(zone), s, 0, None, [])
  }

  /** A 50000 cash order in the 9000 zone, delivered and then returned:
      the courier goes from {0,0} to {50000,9000} and back to {0,0}. */
  lemma {:induction false} CashDeliveryExample()
    ensures var db := Db(map["x" := SampleOrder("x", James, AreaMetropolitana, 50000, Cash, InTransit)],
                         map[James := ZeroBalance]);
      var db1 := UpdateOrderStatus(db, "x", Delivered).value;
      db1.balances[James] == CourierBalance(50000, 9000) &&
      UpdateOrderStatus(db1, "x", Returned).value.balances[James] == ZeroBalance
  {
  }

  /** A transfer order only adds its fee: {20000,5000} becomes {20000,18500}. */
  lemma {:induction false} TransferDeliveryExample()
    ensures var db := Db(map["y" := SampleOrder("y", James, SanAntonio, 80000, Transfer, InTransit)],
                         map[James := CourierBalance(20000, 5000)]);
      UpdateOrderStatus(db, "y", Delivered).value.balances[James] == CourierBalance(20000, 18500)
  {
  }
}
