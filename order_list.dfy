/** The office order list: free-text search, the filter panel, the date
    window, pagination of the completed tab, the filter badge and the
    select-all box. */
module OrderList {
  import opened Wrappers
  import opened Types
  import opened Text
  import opened Seqs
  import opened Scoping
  import Selection
  import opened Constants

  const DayMs: int := 86400000
  const OrdersPerPage: nat := 10

  /** The filter panel. `None` stands for "all" (or an empty date field);
      a date is the timestamp of midnight UTC of the chosen day. */
  datatype Filters = Filters(
    query: string,
    courier: Option<CourierName>,
    zone: Option<Zone>,
    status: Option<OrderStatus>,
    paymentStatus: Option<PaymentStatus>,
    startDay: Option<int>,
    endDay: Option<int>)

  /** What "clear filters" leaves. */
  const NoFilters := Filters([], None, None, None, None, None, None)

  /** The query as it is compared: lower-cased, then trimmed. */
  function SearchTerm(query: string): string {
    Trim(Lower(query))
  }

  /** The name, the phone, the order number (when there is one) or the
      address contains the term; all but the phone are lower-cased. */
  predicate SearchMatch(o: Order, term: string) {
    || Contains(Lower(o.customerName), term)
    || Contains(o.phone, term)
    || (Truthy(o.orderNumber) && Contains(Lower(o.orderNumber.value), term))
    || Contains(Lower(o.address), term)
  }

  /** From midnight of the first day up to, but not including, midnight
      after the last day. With no first day the window starts at 0. */
  predicate InDateWindow(o: Order, f: Filters) {
    && o.createdAt >= (if f.startDay.Some? then f.startDay.value else 0)
    && (f.endDay.Some? ==> o.createdAt < f.endDay.value + DayMs)
  }

  /** The search box is empty or the order matches its term. */
  predicate QueryMatch(o: Order, term: string) {
    term == [] || SearchMatch(o, term)
  }

  /** The choices of the filter panel. */
  predicate PanelMatch(o: Order, f: Filters) {
    && (f.courier.Some? ==> o.courier == f.courier.value)
    && (f.zone.Some? ==> o.zone == f.zone.value)
    && (f.status.Some? ==> o.status == f.status.value)
    && (f.paymentStatus.Some? ==> o.paymentStatus == f.paymentStatus.value)
    && InDateWindow(o, f)
  }

  predicate Matches(o: Order, f: Filters) {
    QueryMatch(o, SearchTerm(f.query)) && PanelMatch(o, f)
  }

  function FilteredOrders(orders: seq<Order>, f: Filters): seq<Order> {
    Filter(orders, (o: Order) => Matches(o, f))
  }

  /** The list shows, in their order, exactly the orders that pass every
      chosen filter; with both dates chosen, those created from the first
      day's midnight to the end of the last day. */
  lemma {:induction false} FilteredContents(orders: seq<Order>, f: Filters, o: Order)
    ensures o in FilteredOrders(orders, f) <==> o in orders && Matches(o, f)
    ensures o in FilteredOrders(orders, f) && f.startDay.Some? && f.endDay.Some? ==>
      f.startDay.value <= o.createdAt < f.endDay.value + DayMs
    ensures o in FilteredOrders(orders, f) && f.courier.Some? ==> o.courier == f.courier.value
    ensures o in FilteredOrders(orders, f) && f.status.Some? ==> o.status == f.status.value
    ensures |FilteredOrders(orders, f)| <= |orders|
  {
  }

  /** Two filter settings that pass the same orders list the same. */
  lemma {:induction false} FilteredSame(orders: seq<Order>, f: Filters, g: Filters)
    requires forall o :: o in orders ==> Matches(o, f) == Matches(o, g)
    ensures FilteredOrders(orders, f) == FilteredOrders(orders, g)
  {
    FilterSame(orders, (o: Order) => Matches(o, f), (o: Order) => Matches(o, g));
  }

  /** After "clear filters" every order dated from the epoch on is listed
      again, in its original order. */
  lemma {:induction false} ClearedFiltersShowAll(orders: seq<Order>)
    requires forall o :: o in orders ==> o.createdAt >= 0
    ensures FilteredOrders(orders, NoFilters) == orders
  {
    assert SearchTerm([]) == [];
    FilterAll(orders, (o: Order) => Matches(o, NoFilters));
  }

  /** Two queries with the same search term pass the same orders. */
  lemma {:induction false} SameTermSameMatch(o: Order, f: Filters, g: Filters)
    requires SearchTerm(f.query) == SearchTerm(g.query)
    requires g == f.(query := g.query)
    ensures Matches(o, f) == Matches(o, g)
  {
    assert PanelMatch(o, f) == PanelMatch(o, g);
  }

  /** The search ignores the letter case of what is typed. */
  lemma {:induction false} SearchIgnoresQueryCase(orders: seq<Order>, f: Filters)
    ensures FilteredOrders(orders, f.(query := Lower(f.query))) == FilteredOrders(orders, f)
  {
    var g := f.(query := Lower(f.query));
    LowerIdempotent(f.query);
    forall o | o in orders
      ensures Matches(o, g) == Matches(o, f)
    {
      SameTermSameMatch(o, g, f);
    }
    FilteredSame(orders, g, f);
  }

  /** A query of spaces only filters nothing. */
  lemma {:induction false} BlankQueryIgnored(orders: seq<Order>, f: Filters)
    requires Blank(Lower(f.query))
    ensures FilteredOrders(orders, f) == FilteredOrders(orders, f.(query := []))
  {
    assert SearchTerm([]) == [];
    forall o | o in orders
      ensures Matches(o, f) == Matches(o, f.(query := []))
    {
    }
    FilteredSame(orders, f, f.(query := []));
  }

  /** `Math.ceil(n / 10)`. */
  function TotalPages(n: nat): (p: nat)
    ensures p * OrdersPerPage >= n
    ensures p == 0 || (p - 1) * OrdersPerPage < n
  {
    (n + OrdersPerPage - 1) / OrdersPerPage
  }

  function Min(a: int, b: int): int {
    if a <= b then a else b
  }

  /** The orders shown: everything on the active and cancelled tabs, page
      `page` (counted from 1) of ten on the completed tab. */
  function PageOf(filtered: seq<Order>, tab: OrderTab, page: nat): (r: seq<Order>)
    requires page >= 1
    ensures tab != CompletedTab ==> r == filtered
    ensures tab == CompletedTab ==> |r| <= OrdersPerPage
  {
    if tab != CompletedTab then filtered
    else
      var start := (page - 1) * OrdersPerPage;
      if start >= |filtered| then [] else filtered[start..Min(start + OrdersPerPage, |filtered|)]
  }

  /** The completed pages 1 to `k` one after the other. */
  function PagesUpTo(filtered: seq<Order>, k: nat): seq<Order> {
    if k == 0 then [] else PagesUpTo(filtered, k - 1) + PageOf(filtered, CompletedTab, k)
  }

  lemma {:induction false} PagesUpToPrefix(filtered: seq<Order>, k: nat)
    ensures PagesUpTo(filtered, k) == filtered[..Min(k * OrdersPerPage, |filtered|)]
  {
    if k > 0 {
      PagesUpToPrefix(filtered, k - 1);
      var a := Min((k - 1) * OrdersPerPage, |filtered|);
      var b := Min(k * OrdersPerPage, |filtered|);
      if (k - 1) * OrdersPerPage >= |filtered| {
        assert PageOf(filtered, CompletedTab, k) == [];
      } else {
        assert PageOf(filtered, CompletedTab, k) == filtered[a..b];
        assert filtered[..a] + filtered[a..b] == filtered[..b];
      }
    }
  }

  /** The page buttons reach every filtered order exactly once, in order:
      the pages laid end to end are the whole list. */
  lemma {:induction false} PagesCoverList(filtered: seq<Order>)
    ensures PagesUpTo(filtered, TotalPages(|filtered|)) == filtered
  {
    PagesUpToPrefix(filtered, TotalPages(|filtered|));
  }

  /** The page buttons appear only on the completed tab and only when more
      than ten orders pass the filters. */
  predicate ShowsPagination(tab: OrderTab, filteredCount: nat) {
    tab == CompletedTab && TotalPages(filteredCount) > 1
  }

  lemma {:induction false} PaginationWhenMoreThanAPage(tab: OrderTab, n: nat)
    ensures ShowsPagination(tab, n) <==> tab == CompletedTab && n > OrdersPerPage
  {
  }

  /** Only pending orders among those listed can be selected all at once. */
  function ActionableOrders(filtered: seq<Order>): seq<Order> {
    Filter(filtered, (o: Order) => o.status == Pending)
  }

  /** The select-all box of the list picks, when it selects, exactly the
      pending orders that pass the filters. */
  lemma {:induction false} SelectAllPicksFilteredPending(orders: seq<Order>, f: Filters, selected: set<string>, id: string)
    requires !Selection.AreAllSelected(IdsOf(ActionableOrders(FilteredOrders(orders, f))), selected)
    ensures id in Selection.SelectAllClick(ActionableOrders(FilteredOrders(orders, f)), selected) <==>
      exists o :: o in orders && Matches(o, f) && o.status == Pending && o.id == id
  {
    var act := ActionableOrders(FilteredOrders(orders, f));
    forall o
      ensures o in act <==> o in orders && Matches(o, f) && o.status == Pending
    {
      ActionableMember(orders, f, o);
    }
  }

  lemma {:induction false} ActionableMember(orders: seq<Order>, f: Filters, o: Order)
    ensures o in ActionableOrders(FilteredOrders(orders, f)) <==> o in orders && Matches(o, f) && o.status == Pending
  {
    FilteredContents(orders, f, o);
  }

  datatype FilterKind = ByCourier | ByZone | ByPayment | ByStatus | ByStart | ByEnd

  /** The status filter counts only on the active tab, where it is shown. */
  predicate IsActive(f: Filters, tab: OrderTab, k: FilterKind) {
    match k
    case ByCourier => f.courier.Some?
    case ByZone => f.zone.Some?
    case ByPayment => f.paymentStatus.Some?
    case ByStatus => tab == ActiveTab && f.status.Some?
    case ByStart => f.startDay.Some?
    case ByEnd => f.endDay.Some?
  }

  const AllKinds: seq<FilterKind> := [ByCourier, ByZone, ByPayment, ByStatus, ByStart, ByEnd]

  lemma {:induction false} AllKindsListedOnce()
    ensures forall k :: k in AllKinds
    ensures NoDuplicates(AllKinds)
  {
    forall k: FilterKind
      ensures k in AllKinds
    {
      match k
      case ByCourier => assert AllKinds[0] == k;
      case ByZone => assert AllKinds[1] == k;
      case ByPayment => assert AllKinds[2] == k;
      case ByStatus => assert AllKinds[3] == k;
      case ByStart => assert AllKinds[4] == k;
      case ByEnd => assert AllKinds[5] == k;
    }
  }

  /** The kinds of `ks` that are in use, in the order of `ks`. */
  function KindsInUse(ks: seq<FilterKind>, f: Filters, tab: OrderTab): seq<FilterKind> {
    if ks == [] then []
    else (if IsActive(f, tab, ks[0]) then [ks[0]] else []) + KindsInUse(ks[1..], f, tab)
  }

  lemma {:induction false} KindsInUseMembers(ks: seq<FilterKind>, f: Filters, tab: OrderTab)
    ensures forall k :: k in KindsInUse(ks, f, tab) <==> k in ks && IsActive(f, tab, k)
  {
    if ks != [] {
      KindsInUseMembers(ks[1..], f, tab);
      assert ks == [ks[0]] + ks[1..];
    }
  }

  lemma {:induction false} KindsInUseDistinct(ks: seq<FilterKind>, f: Filters, tab: OrderTab)
    requires NoDuplicates(ks)
    ensures NoDuplicates(KindsInUse(ks, f, tab))
  {
    if ks != [] {
      KindsInUseDistinct(ks[1..], f, tab);
      KindsInUseMembers(ks[1..], f, tab);
      var rest := KindsInUse(ks[1..], f, tab);
      assert ks[0] !in ks[1..];
      assert ks[0] !in rest;
      if IsActive(f, tab, ks[0]) {
        var r := [ks[0]] + rest;
        forall i, j | 0 <= i < j < |r|
          ensures r[i] != r[j]
        {
          if i == 0 {
            assert r[0] == ks[0];
            assert r[j] == rest[j - 1] && rest[j - 1] in rest;
          } else {
            assert r[i] == rest[i - 1] && r[j] == rest[j - 1];
          }
        }
      } else {
        assert KindsInUse(ks, f, tab) == rest;
      }
    }
  }

  /** The filters in use, each once. */
  function ActiveKinds(f: Filters, tab: OrderTab): (r: seq<FilterKind>)
    ensures forall k :: k in r <==> IsActive(f, tab, k)
    ensures NoDuplicates(r)
  {
    AllKindsListedOnce();
    KindsInUseMembers(AllKinds, f, tab);
    KindsInUseDistinct(AllKinds, f, tab);
    KindsInUse(AllKinds, f, tab)
  }

  lemma {:induction false} KindsInUseStep(ks: seq<FilterKind>, f: Filters, tab: OrderTab)
    requires ks != []
    ensures |KindsInUse(ks, f, tab)| == (if IsActive(f, tab, ks[0]) then 1 else 0) + |KindsInUse(ks[1..], f, tab)|
  {
  }

  /** One for each filter in use, taken in the panel's order. */
  lemma {:induction false} ActiveKindsCount(f: Filters, tab: OrderTab)
    ensures |ActiveKinds(f, tab)| ==
      (if f.courier.Some? then 1 else 0) + (if f.zone.Some? then 1 else 0)
      + (if f.paymentStatus.Some? then 1 else 0) + (if tab == ActiveTab && f.status.Some? then 1 else 0)
      + (if f.startDay.Some? then 1 else 0) + (if f.endDay.Some? then 1 else 0)
  {
    EarlyKindsCount(f, tab);
    LateKindsCount(f, tab);
  }

  lemma {:induction false} EarlyKindsCount(f: Filters, tab: OrderTab)
    ensures |ActiveKinds(f, tab)| ==
      (if f.courier.Some? then 1 else 0) + (if f.zone.Some? then 1 else 0)
      + (if f.paymentStatus.Some? then 1 else 0) + |KindsInUse([ByStatus, ByStart, ByEnd], f, tab)|
  {
    var ks := AllKinds;
    KindsInUseStep(ks, f, tab);
    assert ks[1..] == [ByZone, ByPayment, ByStatus, ByStart, ByEnd];
    KindsInUseStep(ks[1..], f, tab);
    assert ks[1..][1..] == [ByPayment, ByStatus, ByStart, ByEnd];
    KindsInUseStep(ks[1..][1..], f, tab);
    assert ks[1..][1..][1..] == [ByStatus, ByStart, ByEnd];
  }

  lemma {:induction false} LateKindsCount(f: Filters, tab: OrderTab)
    ensures |KindsInUse([ByStatus, ByStart, ByEnd], f, tab)| ==
      (if tab == ActiveTab && f.status.Some? then 1 else 0)
      + (if f.startDay.Some? then 1 else 0) + (if f.endDay.Some? then 1 else 0)
  {
    var ks := [ByStatus, ByStart, ByEnd];
    KindsInUseStep(ks, f, tab);
    assert ks[1..] == [ByStart, ByEnd];
    KindsInUseStep(ks[1..], f, tab);
    assert ks[1..][1..] == [ByEnd];
    KindsInUseStep(ks[1..][1..], f, tab);
    assert ks[1..][1..][1..] == [];
  }

  /** The number on the filter button: one per filter in use. */
  method ActiveFilterCount(f: Filters, tab: OrderTab) returns (count: nat)
    ensures count == |ActiveKinds(f, tab)|
    ensures count <= 6
    ensures count == 0 <==> forall k :: !IsActive(f, tab, k)
  {
    count := 0;
    count := count + (if f.courier.Some? then 1 else 0);
    count := count + (if f.zone.Some? then 1 else 0);
    count := count + (if f.paymentStatus.Some? then 1 else 0);
    count := count + (if tab == ActiveTab && f.status.Some? then 1 else 0);
    count := count + (if f.startDay.Some? then 1 else 0);
    count := count + (if f.endDay.Some? then 1 else 0);
    ActiveKindsCount(f, tab);
    if count != 0 {
      var r := ActiveKinds(f, tab);
      assert r[0] in r;
    }
  }

  /** The status filter, hidden outside the active tab, does not count
      there. */
  lemma {:induction false} StatusFilterCountsOnlyWhenShown(f: Filters, tab: OrderTab)
    requires tab != ActiveTab
    ensures ActiveKinds(f, tab) == ActiveKinds(f.(status := None), tab)
  {
    KindsInUseIgnoresStatus(AllKinds, f, tab);
  }

  lemma {:induction false} KindsInUseIgnoresStatus(ks: seq<FilterKind>, f: Filters, tab: OrderTab)
    requires tab != ActiveTab
    ensures KindsInUse(ks, f, tab) == KindsInUse(ks, f.(status := None), tab)
  {
    if ks != [] {
      KindsInUseIgnoresStatus(ks[1..], f, tab);
    }
  }

  /** Printing one order from its card prints that order alone, or nothing
      when it is no longer in the list. */
  function PrintSingle(orders: seq<Order>, id: string): (r: seq<Order>)
    ensures |r| <= 1
    ensures r == [] <==> forall o :: o in orders ==> o.id != id
    ensures forall o :: o in r ==> o in orders && o.id == id
  {
    match FindOrder(orders, id)
    case Some(o) => [o]
    case None => []
  }
}
