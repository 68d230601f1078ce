/** The buttons of the order detail window (`renderActions`). */
module OrderDetail {
  import opened Wrappers
  import opened Types
  import opened Ledger
  import opened ViewActions
  import OrderCard

  /** The buttons as written. On the courier's screen an order already paid
      shows a "deliver (already paid)" button that opens the same question
      about how the customer paid as an unpaid one. */
  function DetailActions(view: View, o: Order, confirming: bool): set<Action> {
    if view == Central && !IsTerminal(o.status) then
      if o.status == Pending then {SetStatus(Packed)} else {SetStatus(Cancelled)}
    else if view == Central && o.status == Delivered then {SetStatus(Returned)}
    else if view == Courier && IsActionableByCourier(o.status) && !IsTerminal(o.status) then
      if o.status == Packed then {SetStatus(InTransit)}
      else if o.paymentStatus == Paid && !confirming then {BeginConfirm}
      else if confirming then {PayCash, PayTransfer, CancelConfirm}
      else {BeginConfirm}
    else {}
  }

  /** The decision table: in the office a pending order can only be packed,
      any other open order only cancelled, a delivered one only returned; on
      the courier's screen a packed order can only be taken, and an order on
      the way, paid or not, leads to the cash-or-transfer question;
      cancelled and returned orders, and courier orders neither packed nor
      on the way, get nothing. */
  lemma {:induction false} DetailTable(view: View, o: Order, confirming: bool)
    ensures view == Central && o.status == Pending ==> DetailActions(view, o, confirming) == {SetStatus(Packed)}
    ensures view == Central && o.status in {Packed, InTransit} ==> DetailActions(view, o, confirming) == {SetStatus(Cancelled)}
    ensures view == Central && o.status == Delivered ==> DetailActions(view, o, confirming) == {SetStatus(Returned)}
    ensures view == Courier && o.status == Packed ==> DetailActions(view, o, confirming) == {SetStatus(InTransit)}
    ensures view == Courier && o.status == InTransit ==>
      DetailActions(view, o, confirming) == if confirming then {PayCash, PayTransfer, CancelConfirm} else {BeginConfirm}
    ensures o.status in {Cancelled, Returned} ==> DetailActions(view, o, confirming) == {}
    ensures view == Courier && !(o.status in {Packed, InTransit}) ==> DetailActions(view, o, confirming) == {}
  {
  }

  /** Nothing in the detail window asks for a change the service ignores. */
  lemma {:induction false} DetailActionsAccepted(view: View, o: Order, confirming: bool, a: Action)
    requires a in DetailActions(view, o, confirming)
    ensures Accepted(o.status, a)
  {
  }

  /** The detail window offers a subset of what the card offers in the
      office. */
  lemma {:induction false} DetailWithinCardInOffice(o: Order, confirming: bool)
    ensures DetailActions(Central, o, confirming) <= OrderCard.CardActions(Central, o, confirming)
  {
  }

  /** As written, an order paid online and confirmed from the detail window
      with "paid in cash" is re-labelled cash and its whole value is added to
      the courier's cash to hand in, although the card confirms the same
      order by a plain status change that leaves the ledger's cash alone. */
  lemma {:induction false} PaidOrderChargedAsCash(db: Db, id: string)
    requires id in db.orders
    requires db.orders[id].status == InTransit && db.orders[id].paymentStatus == Paid
    requires db.orders[id].paymentMethod == Wompi
    ensures PayCash in DetailActions(Courier, db.orders[id], true)
    ensures SetStatus(Delivered) in OrderCard.CardActions(Courier, db.orders[id], true)
    ensures var o := db.orders[id];
      var before := Lookup(db.balances, o.courier).GetOr(ZeroBalance).cashCollected;
      && Perform(db, id, EffectOf(PayCash, None)).Success?
      && Perform(db, id, EffectOf(PayCash, None)).value.balances[o.courier].cashCollected == before + o.totalValue
      && Perform(db, id, UpdateStatus(Delivered)).Success?
      && Perform(db, id, UpdateStatus(Delivered)).value.balances[o.courier].cashCollected == before
  {
  }

  /** The buttons as evidently intended: an order already paid is confirmed
      by a plain status change, as on the card. */
  function DetailActionsCorrected(view: View, o: Order, confirming: bool): set<Action> {
    if view == Courier && o.status == InTransit && o.paymentStatus == Paid && confirming then {SetStatus(Delivered)}
    else DetailActions(view, o, confirming)
  }

  /** With the correction, confirming a paid order never adds to the
      courier's cash, and the courier's buttons match the card's. */
  lemma {:induction false} CorrectedPaidDeliveryLeavesCash(db: Db, id: string, a: Action, receiptUrl: Option<string>)
    requires id in db.orders
    requires db.orders[id].status == InTransit && db.orders[id].paymentStatus == Paid
    requires a in DetailActionsCorrected(Courier, db.orders[id], true)
    ensures var o := db.orders[id];
      var r := Perform(db, id, EffectOf(a, receiptUrl));
      r.Success? && r.value.orders[id].paymentMethod == o.paymentMethod
      && (o.paymentMethod != Cash ==>
            r.value.balances[o.courier].cashCollected == Lookup(db.balances, o.courier).GetOr(ZeroBalance).cashCollected)
    ensures forall c: bool :: DetailActionsCorrected(Courier, db.orders[id], c) == OrderCard.CardActions(Courier, db.orders[id], c)
  {
  }
}
