/** What each signed-in user sees: orders of their zones, the balances of
    the couriers serving those zones, the notifications about entities in
    scope, and the three order tabs. */
module Scoping {
  import opened Wrappers
  import opened Types
  import opened Constants
  import opened Seqs

  function AllowedZones(u: User): seq<Zone> {
    u.zones.GetOr([])
  }

  /** The couriers mapped from the user's zones. */
  function AllowedCouriers(u: User): (cs: set<CourierName>)
    ensures forall z :: z in AllowedZones(u) ==> ZoneCourier(z) in cs
  {
    set z | z in AllowedZones(u) :: ZoneCourier(z)
  }

  function OrdersForUser(user: Option<User>, orders: seq<Order>): seq<Order> {
    if user.None? then []
    else if user.value.role == Superadmin then orders
    else Filter(orders, (o: Order) => o.zone in AllowedZones(user.value))
  }

  /** Nobody signed in sees nothing; a Superadmin sees every order; anyone
      else sees exactly the orders of their zones, in the same order. */
  lemma {:induction false} OrdersForUserScope(user: Option<User>, orders: seq<Order>)
    ensures user.None? ==> OrdersForUser(user, orders) == []
    ensures user.Some? && user.value.role == Superadmin ==> OrdersForUser(user, orders) == orders
    ensures user.Some? && user.value.role != Superadmin ==>
      forall o :: o in OrdersForUser(user, orders) <==> o in orders && o.zone in AllowedZones(user.value)
  {
  }

  function BalancesForUser(user: Option<User>, balances: map<CourierName, CourierBalance>)
    : (r: map<CourierName, CourierBalance>)
    ensures r.Keys <= balances.Keys
    ensures forall c :: c in r ==> r[c] == balances[c]
  {
    if user.None? then map[]
    else if user.value.role == Superadmin then balances
    else map c | c in balances && c in AllowedCouriers(user.value) :: balances[c]
  }

  /** A non-Superadmin sees the balance of a courier exactly when one of
      their zones maps to that courier. */
  lemma {:induction false} BalancesForUserScope(u: User, balances: map<CourierName, CourierBalance>, c: CourierName)
    requires u.role != Superadmin
    ensures c in BalancesForUser(Some(u), balances) <==>
      c in balances && exists z :: z in AllowedZones(u) && ZoneCourier(z) == c
  {
  }

  /** The first order with the given id (`orders.find`). */
  function FindOrder(orders: seq<Order>, id: string): (r: Option<Order>)
    ensures r.Some? ==> r.value in orders && r.value.id == id
    ensures r.None? <==> forall o :: o in orders ==> o.id != id
  {
    if orders == [] then None
    else if orders[0].id == id then Some(orders[0])
    else FindOrder(orders[1..], id)
  }

  predicate NotificationVisible(u: User, orders: seq<Order>, n: Notification) {
    if n.relatedType.None? || !Truthy(n.relatedId) then true
    else if n.relatedType.value == OrderRef then
      var o := FindOrder(orders, n.relatedId.value);
      o.Some? && o.value.zone in AllowedZones(u)
    else if n.relatedType.value == CourierDebt then
      exists c :: c in AllowedCouriers(u) && CourierText(c) == n.relatedId.value
    else true
  }

  function NotificationsForUser(user: Option<User>, notes: seq<Notification>, orders: seq<Order>)
    : (r: seq<Notification>)
    ensures forall n :: n in r ==> n in notes
  {
    if user.None? then []
    else if user.value.role == Superadmin then notes
    else Filter(notes, (n: Notification) => NotificationVisible(user.value, orders, n))
  }

  /** Notifications follow the order and balance scopes: for a
      non-Superadmin, an order alert is listed exactly when the order it
      names is among the user's orders, and a debt alert exactly when the
      courier's balance is among the user's balances; entries about no
      entity are always listed. */
  lemma {:induction false} NotificationsFollowScope(u: User, notes: seq<Notification>, orders: seq<Order>,
                                 balances: map<CourierName, CourierBalance>, n: Notification)
    requires u.role != Superadmin
    requires n in notes
    ensures n.relatedType.None? ==> n in NotificationsForUser(Some(u), notes, orders)
    ensures n.relatedType == Some(OrderRef) && Truthy(n.relatedId) ==>
      (n in NotificationsForUser(Some(u), notes, orders) <==>
       FindOrder(orders, n.relatedId.value).Some?
       && FindOrder(orders, n.relatedId.value).value in OrdersForUser(Some(u), orders))
    ensures n.relatedType == Some(CourierDebt) && Truthy(n.relatedId) ==>
      forall c :: c in balances && CourierText(c) == n.relatedId.value ==>
        (n in NotificationsForUser(Some(u), notes, orders) <==> c in BalancesForUser(Some(u), balances))
  {
    if n.relatedType == Some(OrderRef) && Truthy(n.relatedId) {
      var f := FindOrder(orders, n.relatedId.value);
      if n in NotificationsForUser(Some(u), notes, orders) {
        assert f.value in OrdersForUser(Some(u), orders);
      }
    }
    if n.relatedType == Some(CourierDebt) && Truthy(n.relatedId) {
      forall c | c in balances && CourierText(c) == n.relatedId.value
        ensures n in NotificationsForUser(Some(u), notes, orders) <==> c in BalancesForUser(Some(u), balances)
      {
        CourierTextInjective(c);
      }
    }
  }

  lemma {:induction false} CourierTextInjective(c: CourierName)
    ensures forall d :: CourierText(d) == CourierText(c) ==> d == c
  {
    forall d | CourierText(d) == CourierText(c)
      ensures d == c
    {
      assert CourierText(d)[0] == CourierText(c)[0];
    }
  }

  // ---- Tabs ----

  datatype OrderTab = ActiveTab | CompletedTab | CancelledTab

  predicate InTab(t: OrderTab, o: Order) {
    match t
    case CompletedTab => o.status == Delivered || o.status == Returned
    case CancelledTab => o.status == Cancelled
    case ActiveTab => !(o.status == Delivered || o.status == Returned || o.status == Cancelled)
  }

  function CreatedAt(o: Order): int {
    o.createdAt
  }

  /** `filteredOrdersByTab`: newest first, then the tab's statuses. */
  function OrdersInTab(orders: seq<Order>, t: OrderTab): seq<Order> {
    TabFilter(SortDesc(orders, CreatedAt), t)
  }

  /** The orders of `s` that belong in tab `t`, in the order of `s`. */
  function TabFilter(s: seq<Order>, t: OrderTab): seq<Order> {
    Filter(s, (o: Order) => InTab(t, o))
  }

  lemma {:induction false} TabFilterStep(s: seq<Order>, t: OrderTab)
    requires s != []
    ensures multiset(TabFilter(s, t)) ==
      (if InTab(t, s[0]) then multiset{s[0]} else multiset{}) + multiset(TabFilter(s[1..], t))
  {
  }

  /** Every tab is newest first and holds exactly the orders of its
      statuses. */
  lemma {:induction false} TabContents(orders: seq<Order>, t: OrderTab)
    ensures SortedDesc(OrdersInTab(orders, t), CreatedAt)
    ensures forall o :: o in OrdersInTab(orders, t) <==> o in orders && InTab(t, o)
  {
    var sorted := SortDesc(orders, CreatedAt);
    FilterKeepsSorted(sorted, (o: Order) => InTab(t, o), CreatedAt);
    forall o
      ensures o in sorted <==> o in orders
    {
      assert o in sorted <==> o in multiset(sorted);
    }
  }

  /** Together the three tabs hold every order exactly once. */
  lemma {:induction false} TabsPartition(orders: seq<Order>)
    ensures multiset(OrdersInTab(orders, ActiveTab)) + multiset(OrdersInTab(orders, CompletedTab))
            + multiset(OrdersInTab(orders, CancelledTab)) == multiset(orders)
  {
    TabsSplit(SortDesc(orders, CreatedAt));
  }

  lemma {:induction false} TabsSplit(s: seq<Order>)
    ensures multiset(TabFilter(s, ActiveTab)) + multiset(TabFilter(s, CompletedTab))
            + multiset(TabFilter(s, CancelledTab)) == multiset(s)
  {
    if s != [] {
      TabsSplit(s[1..]);
      TabFilterStep(s, ActiveTab);
      TabFilterStep(s, CompletedTab);
      TabFilterStep(s, CancelledTab);
      OneTabEach(s[0], multiset(TabFilter(s[1..], ActiveTab)), multiset(TabFilter(s[1..], CompletedTab)),
        multiset(TabFilter(s[1..], CancelledTab)));
      MultisetCons(s);
    }
  }

  /** Adding one order to the three tabs adds it to exactly one of them. */
  lemma {:induction false} OneTabEach(x: Order, a: multiset<Order>, c: multiset<Order>, k: multiset<Order>)
    ensures (if InTab(ActiveTab, x) then multiset{x} else multiset{}) + a
      + ((if InTab(CompletedTab, x) then multiset{x} else multiset{}) + c)
      + ((if InTab(CancelledTab, x) then multiset{x} else multiset{}) + k)
      == multiset{x} + (a + c + k)
  {
  }

}
