/** The order card of the lists: the checkbox and the buttons each view
    shows for the order. */
module OrderCard {
  import opened Wrappers
  import opened Types
  import opened Ledger
  import opened ViewActions

  /** `isCheckboxDisabled`. */
  predicate CheckboxDisabled(view: View, s: OrderStatus) {
    if IsTerminal(s) then true
    else if view == Central then false
    else !IsActionableByCourier(s)
  }

  /** Terminal orders cannot be selected; in the office every other order
      can; on the courier's screen exactly the packed and on-the-way ones. */
  lemma {:induction false} CheckboxRule(view: View, s: OrderStatus)
    ensures !CheckboxDisabled(view, s) <==>
      if view == Central then !IsTerminal(s) else s == Packed || s == InTransit
  {
  }

  /** `renderCourierActions`, shown only for an order the courier can act on. */
  function CourierActions(o: Order, confirming: bool): set<Action> {
    if !IsActionableByCourier(o.status) || IsTerminal(o.status) then {}
    else if o.status == Packed then {SetStatus(InTransit)}
    else if !confirming then {BeginConfirm}
    else if o.paymentStatus == Paid then {SetStatus(Delivered)}
    else {PayCash, PayTransfer, CancelConfirm}
  }

  /** The office buttons. */
  function CentralActions(o: Order): set<Action> {
    if !IsTerminal(o.status) then
      {SetStatus(Cancelled)} + (if o.status == Packed then {PrintGuide} else {})
      + (if o.status == Pending then {SetStatus(Packed)} else {})
    else if o.status == Delivered then {SetStatus(Returned)}
    else {}
  }

  function CardActions(view: View, o: Order, confirming: bool): set<Action> {
    if view == Central then CentralActions(o) else CourierActions(o, confirming)
  }

  /** What each card offers: on the courier's screen, a packed order only the
      hand-over to the courier, and one on the way the delivery steps (a
      paid order is confirmed by a plain status change, an unpaid one by
      cash or a transfer); in the office, cancelling any open order, packing
      only pending ones, printing only packed ones, and only the return of a
      delivered one. */
  lemma {:induction false} CardOffers(view: View, o: Order, confirming: bool)
    ensures view == Courier && o.status == Packed ==> CardActions(view, o, confirming) == {SetStatus(InTransit)}
    ensures view == Courier && o.status == InTransit && confirming && o.paymentStatus == Paid ==>
      CardActions(view, o, confirming) == {SetStatus(Delivered)}
    ensures view == Courier && o.status == InTransit && confirming && o.paymentStatus != Paid ==>
      PayCash in CardActions(view, o, confirming) && PayTransfer in CardActions(view, o, confirming)
      && SetStatus(Delivered) !in CardActions(view, o, confirming)
    ensures view == Courier && !(o.status == Packed || o.status == InTransit) ==> CardActions(view, o, confirming) == {}
    ensures view == Central && !IsTerminal(o.status) ==> SetStatus(Cancelled) in CardActions(view, o, confirming)
    ensures view == Central ==> (SetStatus(Packed) in CardActions(view, o, confirming) <==> o.status == Pending)
    ensures view == Central ==> (PrintGuide in CardActions(view, o, confirming) <==> o.status == Packed)
    ensures view == Central && o.status == Delivered ==> CardActions(view, o, confirming) == {SetStatus(Returned)}
    ensures o.status in {Cancelled, Returned} ==> CardActions(view, o, confirming) == {}
  {
  }

  /** No card offers a status change the service would ignore. */
  lemma {:induction false} CardActionsAccepted(view: View, o: Order, confirming: bool, a: Action)
    requires a in CardActions(view, o, confirming)
    ensures Accepted(o.status, a)
  {
  }

  /** The courier's delivery steps on an order on the way, whichever is
      taken, leave it delivered and paid. */
  lemma {:induction false} CourierDeliveryCompletes(db: Db, id: string, a: Action, receiptUrl: Option<string>)
    requires id in db.orders && db.orders[id].status == InTransit
    requires a in CourierActions(db.orders[id], true)
    requires EffectOf(a, receiptUrl).UpdateStatus? || EffectOf(a, receiptUrl).Deliver?
    ensures var r := Perform(db, id, EffectOf(a, receiptUrl));
      r.Success? && r.value.orders[id].status == Delivered && r.value.orders[id].paymentStatus == Paid
  {
  }
}
