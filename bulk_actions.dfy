/** The bar shown over a multiple selection of orders. */
module BulkActions {
  import opened Types
  import opened Ledger
  import opened ViewActions

  function CanPack(view: View, sel: seq<Order>): bool {
    view == Central && |sel| > 0 && forall o :: o in sel ==> o.status == Pending
  }

  function CanPrint(view: View, sel: seq<Order>): bool {
    view == Central && |sel| > 0 && forall o :: o in sel ==> o.status == Packed
  }

  function CanAccept(view: View, sel: seq<Order>): bool {
    view == Courier && |sel| > 0 && forall o :: o in sel ==> o.status == Packed
  }

  function CanCancel(view: View, sel: seq<Order>): bool {
    view == Central && |sel| > 0 && forall o :: o in sel ==> !IsTerminal(o.status)
  }

  /** The buttons of the bar; nothing at all for an empty selection. */
  function BulkOffers(view: View, sel: seq<Order>): (r: set<Action>)
    ensures sel == [] ==> r == {}
    ensures SetStatus(Packed) in r <==> CanPack(view, sel)
    ensures PrintGuide in r <==> CanPrint(view, sel)
    ensures SetStatus(Cancelled) in r <==> CanCancel(view, sel)
    ensures SetStatus(InTransit) in r <==> CanAccept(view, sel)
  {
    if |sel| == 0 then {}
    else if view == Central then
      (if CanPack(view, sel) then {SetStatus(Packed)} else {})
      + (if CanPrint(view, sel) then {PrintGuide} else {})
      + (if CanCancel(view, sel) then {SetStatus(Cancelled)} else {})
    else if CanAccept(view, sel) then {SetStatus(InTransit)} else {}
  }

  /** An empty selection enables nothing; the courier's bar can only take
      orders on the road, the office's only pack, print or cancel; packing
      and printing never both apply. */
  lemma {:induction false} BulkOfferShape(view: View, sel: seq<Order>)
    ensures sel == [] ==> !CanPack(view, sel) && !CanPrint(view, sel) && !CanAccept(view, sel) && !CanCancel(view, sel)
    ensures view == Courier ==> BulkOffers(view, sel) <= {SetStatus(InTransit)}
    ensures view == Central ==> BulkOffers(view, sel) <= {SetStatus(Packed), PrintGuide, SetStatus(Cancelled)}
    ensures !(CanPack(view, sel) && CanPrint(view, sel))
  {
    if |sel| > 0 {
      assert sel[0] in sel;
    }
  }

  /** Every status a bulk button sets is carried out for every selected
      order: none of them is ignored by the service, and the order's stored
      status becomes the button's target. */
  lemma {:induction false} BulkTargetsAccepted(db: Db, view: View, sel: seq<Order>, a: Action, id: string)
    requires a in BulkOffers(view, sel) && id in db.orders && db.orders[id] in sel
    ensures Accepted(db.orders[id].status, a)
    ensures a.SetStatus? ==>
      UpdateOrderStatus(db, id, a.target).Success? &&
      UpdateOrderStatus(db, id, a.target).value.orders[id].status == a.target
  {
    if a.SetStatus? {
      StatusWritten(db, id, a.target);
    }
  }
}
