/** What the order screens let a user do, and what each choice asks of the
    order service. Shared by the order card, the detail view and the bulk
    bar. */
module ViewActions {
  import opened Wrappers
  import opened Types
  import opened Ledger

  /** The office screens or the courier's screen. */
  datatype View = Central | Courier

  /** A button offered for one order. */
  datatype Action =
    | SetStatus(target: OrderStatus)
    | PrintGuide
    | BeginConfirm
    | CancelConfirm
    | PayCash
    | PayTransfer

  /** The call a button makes. */
  datatype Effect =
    | UpdateStatus(status: OrderStatus)
    | Deliver(pay: DeliveryMethod, receiptUrl: Option<string>)
    | Print
    | SetConfirming(on: bool)
    | NoEffect

  /** The effect of pressing a button; `receiptUrl` is the uploaded receipt
      when a file was chosen. Confirming a transfer with no file does
      nothing. */
  function EffectOf(a: Action, receiptUrl: Option<string>): (e: Effect)
    ensures a == PayTransfer && receiptUrl.None? ==> e == NoEffect
    ensures e.Deliver? ==> a in {PayCash, PayTransfer}
  {
    match a
    case SetStatus(t) => UpdateStatus(t)
    case PrintGuide => Print
    case BeginConfirm => SetConfirming(true)
    case CancelConfirm => SetConfirming(false)
    case PayCash => Deliver(Cash, None)
    case PayTransfer => if receiptUrl.Some? then Deliver(Transfer, receiptUrl) else NoEffect
  }

  /** What the service does with an effect on order `id`. */
  function Perform(db: Db, id: string, e: Effect): Result<Db, LedgerError> {
    match e
    case UpdateStatus(s) => UpdateOrderStatus(db, id, s)
    case Deliver(m, u) => DeliverOrder(db, id, m, u)
    case _ => Success(db)
  }

  /** A status change the service would carry out rather than ignore. */
  predicate Accepted(current: OrderStatus, a: Action) {
    a.SetStatus? ==> StatusDecision(current, a.target).Apply?
  }

  predicate IsActionableByCourier(s: OrderStatus) {
    s == Packed || s == InTransit
  }
}
