/** The courier's own screen: the three order buckets, the balance shown
    when none is stored, the delivery history split into deliveries already
    paid for and the unpaid ones with their running total, and payday. */
module CourierView {
  import opened Wrappers
  import opened Types
  import opened Seqs
  import Notifications

  function WithStatus(orders: seq<Order>, st: OrderStatus): seq<Order> {
    Filter(orders, (o: Order) => o.status == st)
  }

  /** The buckets: packed orders to accept, orders on the way, delivered
      orders. They hold exactly the orders of their status, so no order is
      in two of them. */
  lemma {:induction false} BucketsByStatus(orders: seq<Order>, o: Order)
    ensures o in WithStatus(orders, Packed) <==> o in orders && o.status == Packed
    ensures o in WithStatus(orders, InTransit) <==> o in orders && o.status == InTransit
    ensures o in WithStatus(orders, Delivered) <==> o in orders && o.status == Delivered
  {
  }

  /** The figures shown for a missing balance record are zero. */
  function ShownBalance(b: Option<CourierBalance>): (r: CourierBalance)
    ensures b.None? ==> r == ZeroBalance
    ensures b.Some? ==> r == b.value
  {
    if b.Some? then b.value else ZeroBalance
  }

  function NegCreatedAt(o: Order): int {
    -o.createdAt
  }

  function Cost(o: Order): int {
    o.deliveryCost
  }

  /** Delivered orders oldest first. */
  function OldestFirst(delivered: seq<Order>): seq<Order> {
    SortDesc(delivered, NegCreatedAt)
  }

  /** What has been paid out of the fees earned: earned minus still owed. */
  function TotalPaid(delivered: seq<Order>, feesOwed: int): int {
    Sum(delivered, Cost) - feesOwed
  }

  /** The greedy walk: an order counts as paid when its fee still fits in
      the budget on top of the fees already counted as paid. */
  function PaidFlags(s: seq<Order>, budget: int, spent: int): (flags: seq<bool>)
    ensures |flags| == |s|
    decreases |s|
  {
    if s == [] then []
    else if spent + s[0].deliveryCost <= budget then [true] + PaidFlags(s[1..], budget, spent + s[0].deliveryCost)
    else [false] + PaidFlags(s[1..], budget, spent)
  }

  /** The fees of the orders flagged paid. */
  function PaidSum(s: seq<Order>, flags: seq<bool>): int
    requires |flags| == |s|
  {
    if s == [] then 0 else (if flags[0] then s[0].deliveryCost else 0) + PaidSum(s[1..], flags[1..])
  }

  function UnpaidSum(s: seq<Order>, flags: seq<bool>): int
    requires |flags| == |s|
  {
    if s == [] then 0 else (if flags[0] then 0 else s[0].deliveryCost) + UnpaidSum(s[1..], flags[1..])
  }

  /** Whatever the flags, the paid and unpaid fees add up to all fees. */
  lemma {:induction false} PaidPlusUnpaid(s: seq<Order>, flags: seq<bool>)
    requires |flags| == |s|
    ensures PaidSum(s, flags) + UnpaidSum(s, flags) == Sum(s, Cost)
  {
    if s != [] {
      PaidPlusUnpaid(s[1..], flags[1..]);
    }
  }

  /** The fees counted as paid never exceed the budget once anything is
      counted: with a negative budget only a walk that pays nothing stays
      at zero. */
  lemma {:induction false} PaidWithinBudget(s: seq<Order>, budget: int, spent: int)
    ensures spent <= budget ==> spent + PaidSum(s, PaidFlags(s, budget, spent)) <= budget
    ensures PaidSum(s, PaidFlags(s, budget, spent)) == 0 || spent + PaidSum(s, PaidFlags(s, budget, spent)) <= budget
    decreases |s|
  {
    if s != [] {
      var c := s[0].deliveryCost;
      if spent + c <= budget {
        PaidWithinBudget(s[1..], budget, spent + c);
      } else {
        PaidWithinBudget(s[1..], budget, spent);
      }
    }
  }

  /** With nothing owed and no negative fee, every delivery is paid. */
  lemma {:induction false} NothingOwedAllPaid(s: seq<Order>, spent: int, budget: int)
    requires forall o :: o in s ==> o.deliveryCost >= 0
    requires spent + Sum(s, Cost) <= budget
    ensures forall k :: 0 <= k < |s| ==> PaidFlags(s, budget, spent)[k]
    decreases |s|
  {
    if s != [] {
      assert s[0] in s;
      assert forall o :: o in s[1..] ==> o in s;
      SumNonNegative(s[1..]);
      NothingOwedAllPaid(s[1..], spent + s[0].deliveryCost, budget);
    }
  }

  lemma {:induction false} SumNonNegative(s: seq<Order>)
    requires forall o :: o in s ==> o.deliveryCost >= 0
    ensures Sum(s, Cost) >= 0
  {
    if s != [] {
      assert s[0] in s;
      assert forall o :: o in s[1..] ==> o in s;
      SumNonNegative(s[1..]);
    }
  }

  /** With positive fees and at least as much owed as earned, no delivery
      is paid. */
  lemma {:induction false} AllOwedNonePaid(s: seq<Order>, budget: int, spent: int)
    requires forall o :: o in s ==> o.deliveryCost > 0
    requires spent >= budget
    ensures forall k :: 0 <= k < |s| ==> !PaidFlags(s, budget, spent)[k]
    decreases |s|
  {
    if s != [] {
      assert s[0] in s;
      assert forall o :: o in s[1..] ==> o in s;
      AllOwedNonePaid(s[1..], budget, spent);
    }
  }

  /** The walk may pass over an order that does not fit and still pay a
      later, cheaper one. */
  lemma {:induction false} GreedySkipsThenPays()
    ensures var big := Order("a", None, "A", "1", "x", "c", 0, Cash, Paid, James, Oriente, 25000, Delivered, 1, None, []);
      var small := Order("b", None, "B", "2", "y", "d", 0, Cash, Paid, James, AreaMetropolitana, 9000, Delivered, 2, None, []);
      PaidFlags([big, small], 9000, 0) == [false, true]
  {
  }

  /** One line of the history. */
  datatype HistoryItem = HistoryItem(order: Order, isPaid: bool, runningTotal: Option<int>)

  /** The fees of the unpaid lines among the first `k` lines. */
  function UnpaidPrefix(items: seq<HistoryItem>, k: nat): int
    requires k <= |items|
  {
    if k == 0 then 0
    else UnpaidPrefix(items, k - 1) + (if items[k - 1].isPaid then 0 else items[k - 1].order.deliveryCost)
  }

  /** `historyItemsWithTotals`: flag oldest first, reverse in place, then
      walk newest first adding up the unpaid fees. */
  method HistoryItemsWithTotals(delivered: seq<Order>, feesOwed: int) returns (items: seq<HistoryItem>)
    ensures var oldest := OldestFirst(delivered);
      var flags := PaidFlags(oldest, TotalPaid(delivered, feesOwed), 0);
      && |items| == |delivered|
      && (forall k :: 0 <= k < |items| ==> items[k].order == oldest[|oldest| - 1 - k])
      && (forall k :: 0 <= k < |items| ==> items[k].isPaid == flags[|oldest| - 1 - k])
      && (forall k :: 0 <= k < |items| ==>
            items[k].runningTotal == if items[k].isPaid then None else Some(UnpaidPrefix(items, k + 1)))
  {
    var oldest := OldestFirst(delivered);
    var totalEarned := Sum(oldest, Cost);
    SumSort(delivered, NegCreatedAt, Cost);
    var totalPaid := totalEarned - feesOwed;
    assert totalPaid == TotalPaid(delivered, feesOwed);
    items := FlagAndTotal(oldest, totalPaid);
  }

  /** The two walks over the orders sorted oldest first. */
  method FlagAndTotal(oldest: seq<Order>, totalPaid: int) returns (items: seq<HistoryItem>)
    ensures var flags := PaidFlags(oldest, totalPaid, 0);
      && |items| == |oldest|
      && (forall k :: 0 <= k < |items| ==> items[k].order == oldest[|oldest| - 1 - k])
      && (forall k :: 0 <= k < |items| ==> items[k].isPaid == flags[|oldest| - 1 - k])
      && (forall k :: 0 <= k < |items| ==>
            items[k].runningTotal == if items[k].isPaid then None else Some(UnpaidPrefix(items, k + 1)))
  {
    var flagged := FlagPaid(oldest, totalPaid);
    ghost var before := flagged[..];
    ReverseInPlace(flagged);
    ghost var flags := PaidFlags(oldest, totalPaid, 0);
    var after := flagged[..];
    ReversedLines(before, after, oldest, flags);
    items := RunningTotals(after);
    LinesCarried(after, items, oldest, flags);
  }

  lemma {:induction false} LinesCarried(after: seq<HistoryItem>, items: seq<HistoryItem>, oldest: seq<Order>, flags: seq<bool>)
    requires |after| == |oldest| == |flags| && |items| == |after|
    requires forall k :: 0 <= k < |after| ==> after[k].order == oldest[|oldest| - 1 - k] && after[k].isPaid == flags[|oldest| - 1 - k]
    requires forall k :: 0 <= k < |items| ==> items[k].order == after[k].order && items[k].isPaid == after[k].isPaid
    ensures forall k :: 0 <= k < |items| ==> items[k].order == oldest[|oldest| - 1 - k]
    ensures forall k :: 0 <= k < |items| ==> items[k].isPaid == flags[|oldest| - 1 - k]
  {
  }

  lemma {:induction false} ReversedLines(before: seq<HistoryItem>, after: seq<HistoryItem>, oldest: seq<Order>, flags: seq<bool>)
    requires after == Reverse(before) && |before| == |oldest| == |flags|
    requires forall k :: 0 <= k < |before| ==> before[k] == HistoryItem(oldest[k], flags[k], None)
    ensures |after| == |oldest|
    ensures forall k :: 0 <= k < |after| ==> after[k].order == oldest[|oldest| - 1 - k] && after[k].isPaid == flags[|oldest| - 1 - k]
  {
  }

  /** The first walk: one line per order, oldest first, flagged greedily. */
  method FlagPaid(oldest: seq<Order>, totalPaid: int) returns (flagged: array<HistoryItem>)
    ensures fresh(flagged) && flagged.Length == |oldest|
    ensures forall k :: 0 <= k < |oldest| ==>
      flagged[k] == HistoryItem(oldest[k], PaidFlags(oldest, totalPaid, 0)[k], None)
  {
    var n := |oldest|;
    var lines: seq<HistoryItem> := [];
    var paidAmountCounter := 0;
    ghost var done: seq<bool> := [];
    var i := 0;
    while i < n
      invariant 0 <= i <= n && |done| == i && |lines| == i
      invariant PaidFlags(oldest, totalPaid, 0) == done + PaidFlags(oldest[i..], totalPaid, paidAmountCounter)
      invariant forall k :: 0 <= k < i ==> lines[k] == HistoryItem(oldest[k], done[k], None)
    {
      var order := oldest[i];
      var isPaid := false;
      FlagStep(oldest, i, totalPaid, paidAmountCounter, done);
      if paidAmountCounter + order.deliveryCost <= totalPaid {
        isPaid := true;
        paidAmountCounter := paidAmountCounter + order.deliveryCost;
      }
      lines := lines + [HistoryItem(order, isPaid, None)];
      done := done + [isPaid];
      i := i + 1;
    }
    FlagsComplete(oldest, totalPaid, paidAmountCounter, done);
    flagged := new HistoryItem[n](k requires 0 <= k < n => lines[k]);
  }

  lemma {:induction false} FlagsComplete(s: seq<Order>, budget: int, spent: int, done: seq<bool>)
    requires |done| == |s|
    requires PaidFlags(s, budget, 0) == done + PaidFlags(s[|s|..], budget, spent)
    ensures PaidFlags(s, budget, 0) == done
  {
    assert s[|s|..] == [];
  }

  /** One step of the walk keeps the flags found so far a prefix of the
      whole walk's flags. */
  lemma {:induction false} FlagStep(s: seq<Order>, i: nat, budget: int, spent: int, done: seq<bool>)
    requires i < |s|
    requires PaidFlags(s, budget, 0) == done + PaidFlags(s[i..], budget, spent)
    ensures var c := s[i].deliveryCost;
      PaidFlags(s, budget, 0) ==
        (done + [spent + c <= budget]) + PaidFlags(s[i + 1..], budget, if spent + c <= budget then spent + c else spent)
  {
    PaidFlagsStep(s, i, budget, spent);
    var c := s[i].deliveryCost;
    var rest := PaidFlags(s[i + 1..], budget, if spent + c <= budget then spent + c else spent);
    assert done + ([spent + c <= budget] + rest) == (done + [spent + c <= budget]) + rest;
  }

  lemma {:induction false} PaidFlagsStep(s: seq<Order>, i: nat, budget: int, spent: int)
    requires i < |s|
    ensures var c := s[i].deliveryCost;
      PaidFlags(s[i..], budget, spent) ==
        [spent + c <= budget] + PaidFlags(s[i + 1..], budget, if spent + c <= budget then spent + c else spent)
  {
    assert s[i..][0] == s[i] && s[i..][1..] == s[i + 1..];
  }

  /** The second walk, newest first: each unpaid line gets the unpaid fees
      so far, each paid line none. */
  method RunningTotals(lines: seq<HistoryItem>) returns (items: seq<HistoryItem>)
    ensures |items| == |lines|
    ensures forall k :: 0 <= k < |items| ==> items[k].order == lines[k].order && items[k].isPaid == lines[k].isPaid
    ensures forall k :: 0 <= k < |items| ==>
      items[k].runningTotal == if items[k].isPaid then None else Some(UnpaidPrefix(items, k + 1))
  {
    items := [];
    var unpaidRunningTotal := 0;
    var j := 0;
    while j < |lines|
      invariant 0 <= j <= |lines| && |items| == j
      invariant forall k :: 0 <= k < j ==> items[k].order == lines[k].order && items[k].isPaid == lines[k].isPaid
      invariant unpaidRunningTotal == UnpaidPrefix(items, j)
      invariant TotalsKept(items)
    {
      var item := lines[j];
      var next;
      if !item.isPaid {
        unpaidRunningTotal := unpaidRunningTotal + item.order.deliveryCost;
        next := item.(runningTotal := Some(unpaidRunningTotal));
      } else {
        next := item.(runningTotal := None);
      }
      TotalsExtend(items, next, unpaidRunningTotal);
      items := items + [next];
      j := j + 1;
    }
  }

  /** Every unpaid line carries the unpaid fees up to and including it. */
  ghost predicate TotalsKept(items: seq<HistoryItem>) {
    forall k :: 0 <= k < |items| ==>
      items[k].runningTotal == if items[k].isPaid then None else Some(UnpaidPrefix(items, k + 1))
  }

  lemma {:induction false} TotalsExtend(items: seq<HistoryItem>, next: HistoryItem, total: int)
    requires TotalsKept(items)
    requires next.runningTotal == if next.isPaid then None else Some(total)
    requires total == UnpaidPrefix(items, |items|) + (if next.isPaid then 0 else next.order.deliveryCost)
    ensures TotalsKept(items + [next])
    ensures UnpaidPrefix(items + [next], |items| + 1) == total
  {
    var j := |items|;
    UnpaidPrefixExtend(items, next, j);
    forall k | 0 <= k < j + 1
      ensures (items + [next])[k].runningTotal ==
        if (items + [next])[k].isPaid then None else Some(UnpaidPrefix(items + [next], k + 1))
    {
      if k < j {
        assert (items + [next])[k] == items[k];
      }
    }
  }

  lemma {:induction false} UnpaidPrefixExtend(items: seq<HistoryItem>, next: HistoryItem, j: nat)
    requires j == |items|
    ensures forall k :: 0 <= k <= j ==> UnpaidPrefix(items + [next], k) == UnpaidPrefix(items, k)
    ensures UnpaidPrefix(items + [next], j + 1) == UnpaidPrefix(items, j) + (if next.isPaid then 0 else next.order.deliveryCost)
  {
    forall k | 0 <= k <= j
      ensures UnpaidPrefix(items + [next], k) == UnpaidPrefix(items, k)
    {
      UnpaidPrefixSame(items + [next], items, k);
    }
  }

  lemma {:induction false} UnpaidPrefixSame(a: seq<HistoryItem>, b: seq<HistoryItem>, k: nat)
    requires k <= |a| && k <= |b| && a[..k] == b[..k]
    ensures UnpaidPrefix(a, k) == UnpaidPrefix(b, k)
  {
    if k > 0 {
      assert a[..k - 1] == b[..k - 1];
      assert a[k - 1] == a[..k][k - 1];
      UnpaidPrefixSame(a, b, k - 1);
    }
  }

  function UnpaidCost(it: HistoryItem): int {
    if it.isPaid then 0 else it.order.deliveryCost
  }

  /** In lines totalled as `HistoryItemsWithTotals` leaves them, the last
      unpaid line's running total is the total of unpaid fees. */
  lemma {:induction false} UnpaidTotal(items: seq<HistoryItem>, k: nat)
    requires forall j :: 0 <= j < |items| ==>
      items[j].runningTotal == if items[j].isPaid then None else Some(UnpaidPrefix(items, j + 1))
    requires k < |items| && !items[k].isPaid
    requires forall j :: k < j < |items| ==> items[j].isPaid
    ensures items[k].runningTotal == Some(Sum(items, UnpaidCost))
  {
    UnpaidPrefixPaidTail(items, k + 1, |items|);
    UnpaidTotalFrom(items, |items|);
    assert items[..|items|] == items;
  }

  /** Paid lines add nothing to the unpaid prefix. */
  lemma {:induction false} UnpaidPrefixPaidTail(items: seq<HistoryItem>, lo: nat, hi: nat)
    requires lo <= hi <= |items|
    requires forall j :: lo <= j < hi ==> items[j].isPaid
    ensures UnpaidPrefix(items, hi) == UnpaidPrefix(items, lo)
    decreases hi - lo
  {
    if hi > lo {
      UnpaidPrefixPaidTail(items, lo, hi - 1);
    }
  }

  lemma {:induction false} UnpaidTotalFrom(items: seq<HistoryItem>, k: nat)
    requires k <= |items|
    ensures UnpaidPrefix(items, k) == Sum(items[..k], UnpaidCost)
  {
    if k > 0 {
      UnpaidTotalFrom(items, k - 1);
      assert items[..k] == items[..k - 1] + [items[k - 1]];
      SumAppend(items[..k - 1], [items[k - 1]], UnpaidCost);
    } else {
      assert items[..0] == [];
    }
  }

  predicate IsPayday(day: int) {
    day == 15 || day == 30
  }

  /** The courier's payday is the day the Superadmin is reminded to pay. */
  lemma {:induction false} PaydayMatchesReminder(day: int)
    ensures IsPayday(day) <==> Notifications.ReminderDue(day, Some(Superadmin))
  {
  }
}
