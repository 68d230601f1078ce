/** The enumerations and records shared by every part of the back office
    (orders, courier balances, users and in-app notifications). Money is an
    integer number of pesos; timestamps are epoch milliseconds. */
module Types {
  import opened Wrappers

  datatype CourierName = James | Beltran | Ismael

  datatype PaymentMethod = Cash | Wompi | Transfer

  datatype PaymentStatus = Paid | PendingPayment

  datatype OrderStatus = Pending | Packed | InTransit | Delivered | Cancelled | Returned

  datatype Zone = AreaMetropolitana | SanAntonio | Oriente | Bogota

  /** `UserRoleType`: 'Logística' | 'Superadmin' | 'Domiciliario'. */
  datatype Role = Logistica | Superadmin | Domiciliario

  datatype User = User(
    id: string,
    name: string,
    username: string,
    email: string,
    role: Role,
    zones: Option<seq<Zone>>,
    courierName: Option<CourierName>)

  datatype LineItem = LineItem(name: string, quantity: int)

  datatype Order = Order(
    id: string,
    orderNumber: Option<string>,
    customerName: string,
    phone: string,
    address: string,
    customerId: string,
    totalValue: int,
    paymentMethod: PaymentMethod,
    paymentStatus: PaymentStatus,
    courier: CourierName,
    zone: Zone,
    deliveryCost: int,
    status: OrderStatus,
    createdAt: int,
    transferReceiptUrl: Option<string>,
    lineItems: seq<LineItem>)

  /** A courier's running balance; the courier's name is the key under
      which the record is stored. */
  datatype CourierBalance = CourierBalance(cashCollected: int, feesOwed: int)

  const ZeroBalance := CourierBalance(0, 0)

  datatype Priority = Low | High

  datatype RelatedType = OrderRef | CourierDebt | CourierPayment

  datatype NoteKind = SuccessNote | ErrorNote | InfoNote

  datatype Notification = Notification(
    id: string,
    priority: Priority,
    title: string,
    message: string,
    createdAt: int,
    isRead: bool,
    isTaskCompleted: bool,
    relatedId: Option<string>,
    relatedType: Option<RelatedType>,
    kind: Option<NoteKind>)

  /** JavaScript truthiness of an optional string: present and non-empty. */
  predicate Truthy(s: Option<string>) {
    s.Some? && s.value != []
  }

  /** `a || b` on optional strings. */
  function OrElse(a: Option<string>, b: Option<string>): Option<string> {
    if Truthy(a) then a else b
  }

  /** Delivered, Cancelled and Returned: the statuses no screen offers to
      move an order out of, except Delivered to Returned. */
  predicate IsTerminal(s: OrderStatus) {
    s == Delivered || s == Cancelled || s == Returned
  }

  /** `orders.map(o => o.id)`. */
  function IdsOf(orders: seq<Order>): (ids: seq<string>)
    ensures |ids| == |orders|
    ensures forall k :: 0 <= k < |orders| ==> ids[k] == orders[k].id
    ensures forall id :: id in ids <==> exists o :: o in orders && o.id == id
  {
    if orders == [] then [] else [orders[0].id] + IdsOf(orders[1..])
  }

  /** The text each enumeration value stands for in stored documents and
      exports. */
  function CourierText(c: CourierName): string {
    match c
    case James => "James"
    case Beltran => "Beltran"
    case Ismael => "Ismael"
  }

  function PaymentMethodText(m: PaymentMethod): string {
    match m
    case Cash => "Efectivo"
    case Wompi => "Wompi"
    case Transfer => "Transferencia"
  }

  function PaymentStatusText(p: PaymentStatus): string {
    match p
    case Paid => "Pagado"
    case PendingPayment => "Pendiente de Pago"
  }

  function StatusText(s: OrderStatus): string {
    match s
    case Pending => "Pendiente"
    case Packed => "Empacado"
    case InTransit => "En Ruta"
    case Delivered => "Entregado"
    case Cancelled => "Cancelado"
    case Returned => "Devolución"
  }

  function ZoneText(z: Zone): string {
    match z
    case AreaMetropolitana => "Área Metropolitana"
    case SanAntonio => "San Antonio y Alrededores"
    case Oriente => "Oriente"
    case Bogota => "Bogotá"
  }

  /** What a `catch` block receives from a failed call: an `Error` with its
      message, or any other thrown value. */
  datatype Thrown = ErrorThrown(message: string) | OtherThrown

  /** The text shown for a caught value: the error's own message, or the
      screen's fallback text for anything else. */
  function ThrownText(t: Thrown, fallback: string): string {
    match t
    case ErrorThrown(m) => m
    case OtherThrown => fallback
  }
}
