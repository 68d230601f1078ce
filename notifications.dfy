/** The in-app notification list: adding a notification, the periodic sweep
    that raises stale-order, courier-debt and payday alerts, marking the
    tasks of an entity done, and clearing read notifications. */
module Notifications {
  import opened Wrappers
  import opened Text
  import opened Types

  const HourMs: int := 3600000

  /** The instant `h` hours before `now`, in milliseconds. */
  function HoursAgo(now: int, h: int): int {
    now - h * HourMs
  }

  /** What a caller passes to `addNotification`: everything but the id, the
      creation time and the two flags. `requestedId` is an id the caller
      would like the entry to keep. */
  datatype Draft = Draft(
    priority: Priority,
    title: string,
    message: string,
    relatedId: Option<string>,
    relatedType: Option<RelatedType>,
    kind: Option<NoteKind>,
    requestedId: Option<string>)

  /** The generated id `notif-<now>-<nonce>`; the nonce stands for the random
      suffix and is never reused. */
  function GeneratedId(now: int, nonce: nat): (id: string)
    ensures StartsWith(id, "notif-")
  {
    StartsWithPrefix("notif-", IntToString(now) + "-" + NatToString(nonce));
    "notif-" + (IntToString(now) + "-" + NatToString(nonce))
  }

  function Entry(d: Draft, id: string, now: int): Notification {
    Notification(id, d.priority, d.title, d.message, now, false, false, d.relatedId, d.relatedType,
                 Some(d.kind.GetOr(InfoNote)))
  }

  /** Which program a definition follows: the code as written, or the code
      with its two notification defects corrected (a caller's id is kept,
      and the level of an existing stale alert is read from its title). */
  datatype Variant = AsWritten | Corrected

  /** The entry `addNotification` builds. As written the generated id always
      replaces whatever id the caller passed; corrected, a caller's id is
      kept. */
  function NewNote(v: Variant, d: Draft, now: int, nonce: nat): Notification {
    Entry(d, if v == Corrected && d.requestedId.Some? then d.requestedId.value else GeneratedId(now, nonce), now)
  }

  /** The notification list with the id counter and the toasts raised so far. */
  datatype Inbox = Inbox(notes: seq<Notification>, nonce: nat, toasts: seq<Notification>)

  /** `addNotification`: prepend the new entry; a High entry is also toasted. */
  function Add(v: Variant, s: Inbox, d: Draft, now: int): Inbox {
    var n := NewNote(v, d, now, s.nonce);
    Inbox([n] + s.notes, s.nonce + 1, if d.priority == High then s.toasts + [n] else s.toasts)
  }

  /** A new entry goes first, unread and with its task open, carrying the
      draft's fields and the kind `info` when none was given; as written its
      id is always a generated `notif-` id, corrected it is the caller's id
      when one was passed; exactly the High entries are toasted; nothing
      already listed changes. */
  lemma {:induction false} AddPrepends(v: Variant, s: Inbox, d: Draft, now: int)
    ensures var r := Add(v, s, d, now);
      && |r.notes| == |s.notes| + 1 && r.notes[1..] == s.notes
      && r.nonce == s.nonce + 1
      && (v == AsWritten || d.requestedId.None? ==> StartsWith(r.notes[0].id, "notif-"))
      && (v == Corrected && d.requestedId.Some? ==> r.notes[0].id == d.requestedId.value)
      && !r.notes[0].isRead && !r.notes[0].isTaskCompleted
      && r.notes[0].createdAt == now
      && r.notes[0].priority == d.priority && r.notes[0].title == d.title && r.notes[0].message == d.message
      && r.notes[0].relatedId == d.relatedId && r.notes[0].relatedType == d.relatedType
      && r.notes[0].kind == (if d.kind.Some? then d.kind else Some(InfoNote))
      && (r.toasts == s.toasts + [r.notes[0]] <==> d.priority == High)
      && (d.priority == Low ==> r.toasts == s.toasts)
  {
  }

  /** The first entry about the given entity (`notifications.find`). */
  function FindRelated(ns: seq<Notification>, id: string, t: RelatedType): (r: Option<Notification>)
    ensures r.Some? ==> r.value in ns && r.value.relatedId == Some(id) && r.value.relatedType == Some(t)
    ensures r.None? <==> forall n :: n in ns ==> !(n.relatedId == Some(id) && n.relatedType == Some(t))
  {
    if ns == [] then None
    else if ns[0].relatedId == Some(id) && ns[0].relatedType == Some(t) then Some(ns[0])
    else FindRelated(ns[1..], id, t)
  }

  /** Every entry but those with the given id (`filter(n => n.id !== id)`). */
  function RemoveId(ns: seq<Notification>, id: string): (r: seq<Notification>)
    ensures |r| <= |ns|
    ensures forall n :: n in r <==> n in ns && n.id != id
  {
    if ns == [] then []
    else if ns[0].id == id then RemoveId(ns[1..], id)
    else [ns[0]] + RemoveId(ns[1..], id)
  }

  // ---- Stale pending orders ----

  datatype StaleLevel = Late24 | Late48 | Late72

  function LevelHours(l: StaleLevel): int {
    match l
    case Late24 => 24
    case Late48 => 48
    case Late72 => 72
  }

  function StaleTitle(l: StaleLevel): string {
    match l
    case Late24 => "Pedido Atrasado"
    case Late48 => "Pedido Muy Atrasado"
    case Late72 => "Pedido Cr\U{00ED}ticamente Atrasado"
  }

  function StaleMessage(customerName: string, l: StaleLevel): string {
    "El pedido de " + customerName + " lleva m\U{00E1}s de " + IntToString(LevelHours(l)) + "h sin empacar."
  }

  /** The draft of a stale-order alert: High and of kind error at 72 hours,
      Low and of the default kind otherwise. */
  function StaleDraft(o: Order, l: StaleLevel): Draft {
    Draft(if l == Late72 then High else Low, StaleTitle(l), StaleMessage(o.customerName, l),
          Some(o.id), Some(OrderRef), if l == Late72 then Some(ErrorNote) else None, None)
  }

  /** What the sweep does for one order: nothing, or replace the existing
      alert (if any) with one of the given level. */
  datatype StaleMove = Keep | Raise(level: StaleLevel)

  /** Whether an existing alert reads as one of the 24- or 48-hour level. As
      written the level is recognised by its digits anywhere in the message,
      which also holds the customer's name; corrected, by the title. */
  predicate ShowsLevel(v: Variant, n: Notification, l: StaleLevel) {
    match v
    case AsWritten => Contains(n.message, if l == Late48 then "48" else "24")
    case Corrected => n.title == StaleTitle(l)
  }

  /** The decision for one order: a new alert at the highest level its age
      has passed, or an escalation from the alert of the level just below. */
  function StaleAction(v: Variant, o: Order, existing: Option<Notification>, now: int): StaleMove {
    if o.status != Pending then Keep
    else if o.createdAt < HoursAgo(now, 72) && (existing.None? || ShowsLevel(v, existing.value, Late48)) then Raise(Late72)
    else if o.createdAt < HoursAgo(now, 48) && (existing.None? || ShowsLevel(v, existing.value, Late24)) then Raise(Late48)
    else if o.createdAt < HoursAgo(now, 24) && existing.None? then Raise(Late24)
    else Keep
  }

  predicate LevelBelow(a: StaleLevel, b: StaleLevel) {
    LevelHours(a) < LevelHours(b)
  }

  /** In both programs only pending orders get alerts, an alert's level is
      one the order's age has passed, and an order with no alert yet gets
      the highest level its age has passed. Corrected, an existing alert of
      some level is only ever replaced by one of a higher level, so an order
      at 72 hours is left alone. */
  lemma {:induction false} StaleActionRules(v: Variant, o: Order, existing: Option<Notification>, now: int, l: StaleLevel)
    ensures StaleAction(v, o, existing, now) != Keep ==> o.status == Pending
    ensures StaleAction(v, o, existing, now) == Raise(l) ==> o.createdAt < HoursAgo(now, LevelHours(l))
    ensures o.status == Pending && existing.None? && o.createdAt < HoursAgo(now, LevelHours(l))
      ==> StaleAction(v, o, existing, now).Raise? && !LevelBelow(StaleAction(v, o, existing, now).level, l)
    ensures v == Corrected && existing.Some?
      && existing.value == StaleNote(v, o, l, existing.value.createdAt, 0).(id := existing.value.id)
      && StaleAction(v, o, existing, now).Raise?
      ==> LevelBelow(l, StaleAction(v, o, existing, now).level)
    ensures v == Corrected && existing.Some? && existing.value.title == StaleTitle(Late72)
      ==> StaleAction(v, o, existing, now) == Keep
  {
  }

  /** A stale alert as the sweep adds it. */
  function StaleNote(v: Variant, o: Order, l: StaleLevel, now: int, nonce: nat): Notification {
    NewNote(v, StaleDraft(o, l), now, nonce)
  }

  /** A pending order of a customer whose name holds "48", and the 72-hour
      alert the sweep gave it at 73 hours. */
  const Local48 := Order("o1", None, "Local 48", "300", "Calle 1", "c1", 50000, Cash, PendingPayment,
                         James, AreaMetropolitana, 9000, Pending, 0, None, [])
  const Local48Alert := StaleNote(AsWritten, Local48, Late72, 73 * HourMs, 7)

  /** As written, a pending customer whose name contains "48" has the 72-hour
      alert removed and raised again, with a new toast, on every sweep;
      corrected, the alert is kept. */
  lemma {:induction false} StaleAlertRepeatsAsWritten()
    ensures StaleAction(AsWritten, Local48, Some(Local48Alert), 73 * HourMs + 60000) == Raise(Late72)
    ensures StaleAction(Corrected, Local48, Some(Local48Alert), 73 * HourMs + 60000) == Keep
  {
    Local48AlertReraised();
    Local48AlertKept();
  }

  lemma {:induction false} Local48AlertReraised()
    ensures StaleAction(AsWritten, Local48, Some(Local48Alert), 73 * HourMs + 60000) == Raise(Late72)
  {
    assert Local48Alert.message == StaleMessage("Local 48", Late72);
    NameDigitsInMessage();
  }

  lemma {:induction false} Local48AlertKept()
    ensures StaleAction(Corrected, Local48, Some(Local48Alert), 73 * HourMs + 60000) == Keep
  {
    StaleNoteTitle(AsWritten, Local48, Late72, 73 * HourMs, 7);
    StaleTitlesDiffer();
  }

  lemma {:induction false} StaleNoteTitle(v: Variant, o: Order, l: StaleLevel, now: int, nonce: nat)
    ensures StaleNote(v, o, l, now, nonce).title == StaleTitle(l)
  {
  }

  lemma {:induction false} StaleTitlesDiffer()
    ensures StaleTitle(Late72) != StaleTitle(Late48) && StaleTitle(Late72) != StaleTitle(Late24)
  {
    assert |StaleTitle(Late72)| == 28 && |StaleTitle(Late48)| == 19 && |StaleTitle(Late24)| == 15;
  }

  lemma {:induction false} NameDigitsInMessage()
    ensures Contains(StaleMessage("Local 48", Late72), "48")
  {
    var head := "El pedido de " + "Local 48";
    assert head[19..21] == "48";
    ContainsAt(head, "48", 19);
    ContainsInLeft(head, " lleva m\U{00E1}s de ", "48");
    ContainsInLeft(head + " lleva m\U{00E1}s de ", IntToString(72), "48");
    ContainsInLeft(head + " lleva m\U{00E1}s de " + IntToString(72), "h sin empacar.", "48");
  }

  /** One order's turn in the sweep: the existing alert is looked up in the
      list as it was when the sweep started. */
  function StaleStep(v: Variant, s: Inbox, snapshot: seq<Notification>, o: Order, now: int): Inbox {
    var existing := FindRelated(snapshot, o.id, OrderRef);
    match StaleAction(v, o, existing, now)
    case Keep => s
    case Raise(l) =>
      var kept := if existing.Some? then RemoveId(s.notes, existing.value.id) else s.notes;
      Add(v, s.(notes := kept), StaleDraft(o, l), now)
  }

  function SweepOrders(v: Variant, s: Inbox, snapshot: seq<Notification>, orders: seq<Order>, now: int): Inbox
    decreases |orders|
  {
    if orders == [] then s
    else StaleStep(v, SweepOrders(v, s, snapshot, orders[..|orders| - 1], now), snapshot, orders[|orders| - 1], now)
  }

  /** Every entry after the order sweep was listed before it or is an alert
      about a pending order of the sweep at least 24 hours old. */
  lemma {:induction false} SweepOrdersAddsOnlyStaleAlerts(v: Variant, s: Inbox, snapshot: seq<Notification>, orders: seq<Order>, now: int)
    ensures forall n :: n in SweepOrders(v, s, snapshot, orders, now).notes ==>
      n in s.notes
      || exists o :: o in orders && o.status == Pending && o.createdAt < HoursAgo(now, 24)
                     && n.relatedId == Some(o.id) && n.relatedType == Some(OrderRef)
    decreases |orders|
  {
    if orders != [] {
      var prefix := orders[..|orders| - 1];
      var o := orders[|orders| - 1];
      SweepOrdersAddsOnlyStaleAlerts(v, s, snapshot, prefix, now);
      var p := SweepOrders(v, s, snapshot, prefix, now);
      StaleStepMembers(v, p, snapshot, o, now);
      forall n | n in SweepOrders(v, s, snapshot, orders, now).notes
        ensures n in s.notes
          || exists o' :: o' in orders && o'.status == Pending && o'.createdAt < HoursAgo(now, 24)
                          && n.relatedId == Some(o'.id) && n.relatedType == Some(OrderRef)
      {
        if n !in p.notes {
          assert o in orders;
        } else if n !in s.notes {
          var o' :| o' in prefix && o'.status == Pending && o'.createdAt < HoursAgo(now, 24)
                    && n.relatedId == Some(o'.id) && n.relatedType == Some(OrderRef);
          assert o' in orders;
        }
      }
    }
  }

  /** One order's turn adds at most one alert, about that order, and only
      when it is pending and at least 24 hours old. When it raises one, the
      new alert goes first and the order's earlier alert is gone from the
      rest of the list; when it does not, nothing changes. */
  lemma {:induction false} StaleStepMembers(v: Variant, p: Inbox, snapshot: seq<Notification>, o: Order, now: int)
    ensures forall n :: n in StaleStep(v, p, snapshot, o, now).notes ==>
      n in p.notes
      || (o.status == Pending && o.createdAt < HoursAgo(now, 24)
          && n.relatedId == Some(o.id) && n.relatedType == Some(OrderRef))
    ensures |StaleStep(v, p, snapshot, o, now).notes| <= |p.notes| + 1
    ensures StaleAction(v, o, FindRelated(snapshot, o.id, OrderRef), now) == Keep ==>
      StaleStep(v, p, snapshot, o, now) == p
    ensures var existing := FindRelated(snapshot, o.id, OrderRef);
      var r := StaleStep(v, p, snapshot, o, now);
      StaleAction(v, o, existing, now).Raise? ==>
        && r.notes[0] == StaleNote(v, o, StaleAction(v, o, existing, now).level, now, p.nonce)
        && (forall k :: 1 <= k < |r.notes| ==> r.notes[k] in p.notes)
        && (existing.Some? ==> forall k :: 1 <= k < |r.notes| ==> r.notes[k].id != existing.value.id)
  {
    var existing := FindRelated(snapshot, o.id, OrderRef);
    if StaleAction(v, o, existing, now).Raise? {
      var l := StaleAction(v, o, existing, now).level;
      var kept := if existing.Some? then RemoveId(p.notes, existing.value.id) else p.notes;
      assert StaleStep(v, p, snapshot, o, now).notes == [StaleNote(v, o, l, now, p.nonce)] + kept;
    }
  }

  lemma {:induction false} SweepOrdersStep(v: Variant, s: Inbox, snapshot: seq<Notification>, orders: seq<Order>, i: nat, now: int)
    requires i < |orders|
    ensures SweepOrders(v, s, snapshot, orders[..i + 1], now) ==
      StaleStep(v, SweepOrders(v, s, snapshot, orders[..i], now), snapshot, orders[i], now)
  {
    assert orders[..i + 1][..i] == orders[..i];
  }

  /** With no pending order the order sweep changes nothing. */
  lemma {:induction false} SweepOrdersNoPending(v: Variant, s: Inbox, snapshot: seq<Notification>, orders: seq<Order>, now: int)
    requires forall o :: o in orders ==> o.status != Pending
    ensures SweepOrders(v, s, snapshot, orders, now) == s
    decreases |orders|
  {
    if orders != [] {
      var prefix := orders[..|orders| - 1];
      assert forall o :: o in prefix ==> o in orders;
      SweepOrdersNoPending(v, s, snapshot, prefix, now);
    }
  }

  // ---- Courier debts ----

  function DebtDraft(c: CourierName): Draft {
    Draft(Low, "Deuda de Domiciliario", CourierText(c) + " tiene un saldo de efectivo por consignar.",
          Some(CourierText(c)), Some(CourierDebt), None, None)
  }

  /** One courier's turn: alert when cash is held and no debt alert about
      the courier was listed when the sweep started. */
  function DebtStep(v: Variant, s: Inbox, snapshot: seq<Notification>, c: CourierName, b: CourierBalance, now: int): Inbox {
    if b.cashCollected <= 0 then s
    else if FindRelated(snapshot, CourierText(c), CourierDebt).Some? then s
    else Add(v, s, DebtDraft(c), now)
  }

  function SweepDebts(v: Variant, s: Inbox, snapshot: seq<Notification>, balances: seq<(CourierName, CourierBalance)>, now: int): Inbox
    decreases |balances|
  {
    if balances == [] then s
    else
      var last := balances[|balances| - 1];
      DebtStep(v, SweepDebts(v, s, snapshot, balances[..|balances| - 1], now), snapshot, last.0, last.1, now)
  }

  /** A Low debt alert about a courier of `balances` that holds cash and
      had no debt alert listed in `snapshot`. */
  predicate DebtAlertFor(n: Notification, snapshot: seq<Notification>, balances: seq<(CourierName, CourierBalance)>) {
    n.priority == Low && n.relatedType == Some(CourierDebt) && n.relatedId.Some?
    && OwingUnalerted(n.relatedId.value, snapshot, balances)
  }

  /** `id` names a courier of `balances` that holds cash and had no debt
      alert listed in `snapshot`. */
  predicate OwingUnalerted(id: string, snapshot: seq<Notification>, balances: seq<(CourierName, CourierBalance)>)
    decreases |balances|
  {
    balances != [] &&
    var last := balances[|balances| - 1];
    || (last.1.cashCollected > 0 && id == CourierText(last.0) && FindRelated(snapshot, id, CourierDebt).None?)
    || OwingUnalerted(id, snapshot, balances[..|balances| - 1])
  }

  lemma {:induction false} OwingUnalertedMeans(id: string, snapshot: seq<Notification>,
                                               balances: seq<(CourierName, CourierBalance)>)
    ensures OwingUnalerted(id, snapshot, balances) <==>
      exists j :: 0 <= j < |balances| && balances[j].1.cashCollected > 0 && id == CourierText(balances[j].0)
                  && FindRelated(snapshot, id, CourierDebt).None?
    decreases |balances|
  {
    if balances != [] {
      var prefix := balances[..|balances| - 1];
      OwingUnalertedMeans(id, snapshot, prefix);
      assert forall j :: 0 <= j < |prefix| ==> prefix[j] == balances[j];
      if OwingUnalerted(id, snapshot, prefix) {
        var j :| 0 <= j < |prefix| && prefix[j].1.cashCollected > 0 && id == CourierText(prefix[j].0)
                 && FindRelated(snapshot, id, CourierDebt).None?;
        assert balances[j] == prefix[j];
      }
    }
  }

  lemma {:induction false} DebtAlertGrows(n: Notification, snapshot: seq<Notification>,
                                          balances: seq<(CourierName, CourierBalance)>)
    requires balances != []
    requires DebtAlertFor(n, snapshot, balances[..|balances| - 1])
    ensures DebtAlertFor(n, snapshot, balances)
  {
  }

  /** One courier's turn either changes nothing or prepends its alert. */
  lemma {:induction false} DebtStepShape(v: Variant, p: Inbox, snapshot: seq<Notification>, c: CourierName, b: CourierBalance, now: int)
    ensures var r := DebtStep(v, p, snapshot, c, b, now);
      r == p ||
      (b.cashCollected > 0 && FindRelated(snapshot, CourierText(c), CourierDebt).None? &&
       r.notes == [NewNote(v, DebtDraft(c), now, p.nonce)] + p.notes)
  {
  }

  lemma {:induction false} SweepDebtsPrepends(v: Variant, s: Inbox, snapshot: seq<Notification>,
                                              balances: seq<(CourierName, CourierBalance)>, now: int)
    ensures var r := SweepDebts(v, s, snapshot, balances, now);
      |r.notes| >= |s.notes| && r.notes[|r.notes| - |s.notes|..] == s.notes
    decreases |balances|
  {
    if balances != [] {
      var prefix := balances[..|balances| - 1];
      var last := balances[|balances| - 1];
      SweepDebtsPrepends(v, s, snapshot, prefix, now);
      var p := SweepDebts(v, s, snapshot, prefix, now);
      var r := SweepDebts(v, s, snapshot, balances, now);
      DebtStepShape(v, p, snapshot, last.0, last.1, now);
      if r != p {
        assert r.notes[|r.notes| - |s.notes|..] == p.notes[|p.notes| - |s.notes|..];
      }
    }
  }

  /** The debt sweep only prepends, and each entry it adds is a Low debt
      alert about a courier that holds cash and had no debt alert listed. */
  lemma {:induction false} SweepDebtsAddsOnlyDebts(v: Variant, s: Inbox, snapshot: seq<Notification>,
                                                   balances: seq<(CourierName, CourierBalance)>, now: int)
    ensures var r := SweepDebts(v, s, snapshot, balances, now);
      && |r.notes| >= |s.notes| && r.notes[|r.notes| - |s.notes|..] == s.notes
      && forall k :: 0 <= k < |r.notes| - |s.notes| ==> DebtAlertFor(r.notes[k], snapshot, balances)
    decreases |balances|
  {
    SweepDebtsPrepends(v, s, snapshot, balances, now);
    if balances != [] {
      var prefix := balances[..|balances| - 1];
      var j := |balances| - 1;
      SweepDebtsAddsOnlyDebts(v, s, snapshot, prefix, now);
      var p := SweepDebts(v, s, snapshot, prefix, now);
      var r := SweepDebts(v, s, snapshot, balances, now);
      DebtStepShape(v, p, snapshot, balances[j].0, balances[j].1, now);
      var m := |p.notes| - |s.notes|;
      DebtAlertsGrow(p.notes, m, snapshot, balances);
      if r != p {
        assert DebtAlertFor(r.notes[0], snapshot, balances) by {
          assert r.notes[0].relatedId == Some(CourierText(balances[j].0));
        }
        DebtAlertPrepended(r.notes[0], p.notes, m, snapshot, balances);
      }
    }
  }

  lemma {:induction false} DebtAlertsGrow(ns: seq<Notification>, m: int, snapshot: seq<Notification>,
                                           balances: seq<(CourierName, CourierBalance)>)
    requires balances != []
    requires m <= |ns|
    requires forall k :: 0 <= k < m ==> DebtAlertFor(ns[k], snapshot, balances[..|balances| - 1])
    ensures forall k :: 0 <= k < m ==> DebtAlertFor(ns[k], snapshot, balances)
  {
    forall k | 0 <= k < m
      ensures DebtAlertFor(ns[k], snapshot, balances)
    {
      DebtAlertGrows(ns[k], snapshot, balances);
    }
  }

  lemma {:induction false} DebtAlertPrepended(n: Notification, ns: seq<Notification>, m: int,
                                              snapshot: seq<Notification>,
                                              balances: seq<(CourierName, CourierBalance)>)
    requires 0 <= m <= |ns|
    requires DebtAlertFor(n, snapshot, balances)
    requires forall k :: 0 <= k < m ==> DebtAlertFor(ns[k], snapshot, balances)
    ensures forall k :: 0 <= k < m + 1 ==> DebtAlertFor(([n] + ns)[k], snapshot, balances)
  {
    forall k | 0 <= k < m + 1
      ensures DebtAlertFor(([n] + ns)[k], snapshot, balances)
    {
      if k > 0 {
        assert ([n] + ns)[k] == ns[k - 1];
      }
    }
  }

  lemma {:induction false} SweepDebtsStep(v: Variant, s: Inbox, snapshot: seq<Notification>,
                                          balances: seq<(CourierName, CourierBalance)>, j: nat, now: int)
    requires j < |balances|
    ensures SweepDebts(v, s, snapshot, balances[..j + 1], now) ==
      DebtStep(v, SweepDebts(v, s, snapshot, balances[..j], now), snapshot, balances[j].0, balances[j].1, now)
  {
    assert balances[..j + 1][..j] == balances[..j];
  }

  /** Debt alerts carry no id of their own, so the debt sweep is the same in
      both programs. */
  lemma {:induction false} SweepDebtsVariantsAgree(s: Inbox, snapshot: seq<Notification>,
                                                   balances: seq<(CourierName, CourierBalance)>, now: int)
    ensures SweepDebts(AsWritten, s, snapshot, balances, now) == SweepDebts(Corrected, s, snapshot, balances, now)
    decreases |balances|
  {
    if balances != [] {
      SweepDebtsVariantsAgree(s, snapshot, balances[..|balances| - 1], now);
    }
  }

  // ---- Payday reminder ----

  function ReminderId(year: int, month: int, day: int): (id: string)
    ensures StartsWith(id, "payment-reminder-")
  {
    var rest := IntToString(year) + "-" + IntToString(month) + "-" + IntToString(day);
    StartsWithPrefix("payment-reminder-", rest);
    "payment-reminder-" + rest
  }

  function ReminderDraft(year: int, month: int, day: int): Draft {
    Draft(High, "Recordatorio de Pago", "Hoy es d\U{00ED}a de pago. Recuerda liquidar los domicilios pendientes.",
          None, None, None, Some(ReminderId(year, month, day)))
  }

  predicate ReminderDue(day: int, role: Option<Role>) {
    (day == 15 || day == 30) && role == Some(Superadmin)
  }

  predicate HasId(ns: seq<Notification>, id: string) {
    exists n :: n in ns && n.id == id
  }

  /** The reminder's turn: add it on a payday for a Superadmin unless an entry
      with its id was listed when the sweep started. */
  function ReminderStep(v: Variant, s: Inbox, snapshot: seq<Notification>, now: int,
                        year: int, month: int, day: int, role: Option<Role>): Inbox {
    if ReminderDue(day, role) && !HasId(snapshot, ReminderId(year, month, day))
    then Add(v, s, ReminderDraft(year, month, day), now)
    else s
  }

  /** As written the stored reminder never carries the id the check looks
      for, so every sweep of a payday adds one more reminder and toast. */
  lemma {:induction false} ReminderRepeatsAsWritten(s: Inbox, now: int, later: int, year: int, month: int, day: int)
    requires ReminderDue(day, Some(Superadmin)) && !HasId(s.notes, ReminderId(year, month, day))
    ensures var once := ReminderStep(AsWritten, s, s.notes, now, year, month, day, Some(Superadmin));
      var twice := ReminderStep(AsWritten, once, once.notes, later, year, month, day, Some(Superadmin));
      |twice.notes| == |s.notes| + 2 && |twice.toasts| == |s.toasts| + 2
  {
    var id := ReminderId(year, month, day);
    var once := ReminderStep(AsWritten, s, s.notes, now, year, month, day, Some(Superadmin));
    GeneratedIdIsNoReminder(now, s.nonce, year, month, day);
    assert once.notes == [NewNote(AsWritten, ReminderDraft(year, month, day), now, s.nonce)] + s.notes;
    assert !HasId(once.notes, id);
  }

  lemma {:induction false} GeneratedIdIsNoReminder(now: int, nonce: nat, year: int, month: int, day: int)
    ensures GeneratedId(now, nonce) != ReminderId(year, month, day)
  {
    PrefixesDiffer(GeneratedId(now, nonce), ReminderId(year, month, day), "notif-", "payment-reminder-", 1);
  }

  /** With the id kept, a payday reminder is added at most once: the sweep
      after one that added it adds nothing. */
  lemma {:induction false} ReminderOnce(s: Inbox, now: int, later: int, year: int, month: int, day: int, role: Option<Role>)
    ensures var once := ReminderStep(Corrected, s, s.notes, now, year, month, day, role);
      ReminderStep(Corrected, once, once.notes, later, year, month, day, role) == once
  {
    var id := ReminderId(year, month, day);
    var once := ReminderStep(Corrected, s, s.notes, now, year, month, day, role);
    if ReminderDue(day, role) && !HasId(s.notes, id) {
      var n := NewNote(Corrected, ReminderDraft(year, month, day), now, s.nonce);
      assert n.id == id;
      assert once.notes == [n] + s.notes;
      assert n in once.notes;
    }
  }

  /** The whole sweep: orders, then balances, then the payday reminder, each
      consulting the list as it was when the sweep started. */
  function Sweep(v: Variant, s: Inbox, orders: seq<Order>, balances: seq<(CourierName, CourierBalance)>, now: int,
                 year: int, month: int, day: int, role: Option<Role>): Inbox {
    var afterOrders := SweepOrders(v, s, s.notes, orders, now);
    var afterDebts := SweepDebts(v, afterOrders, s.notes, balances, now);
    ReminderStep(v, afterDebts, s.notes, now, year, month, day, role)
  }

  // ---- Task completion and clearing ----

  /** `handleTaskCompleted`: every entry about the entity gets its task
      marked done; nothing else changes. */
  function MarkTaskCompleted(ns: seq<Notification>, t: RelatedType, id: string): (r: seq<Notification>)
    ensures |r| == |ns|
    ensures forall k :: 0 <= k < |ns| ==>
      r[k] == if ns[k].relatedId == Some(id) && ns[k].relatedType == Some(t)
              then ns[k].(isTaskCompleted := true) else ns[k]
  {
    if ns == [] then []
    else
      var head := if ns[0].relatedId == Some(id) && ns[0].relatedType == Some(t) then ns[0].(isTaskCompleted := true) else ns[0];
      var rest := MarkTaskCompleted(ns[1..], t, id);
      assert forall k :: 1 <= k < |ns| ==> ([head] + rest)[k] == rest[k - 1] && ns[k] == ns[1..][k - 1];
      [head] + rest
  }

  predicate KeptOnClear(n: Notification) {
    !n.isRead || (n.priority == High && !n.isTaskCompleted)
  }

  /** `handleClearAllNotifications`: keep the unread entries and the High
      ones whose task is still open, in their order. */
  function ClearAll(ns: seq<Notification>): (r: seq<Notification>)
    ensures |r| <= |ns|
    ensures forall n :: n in r <==> n in ns && KeptOnClear(n)
  {
    if ns == [] then []
    else if KeptOnClear(ns[0]) then [ns[0]] + ClearAll(ns[1..])
    else ClearAll(ns[1..])
  }

  /** Clearing twice is clearing once. */
  lemma {:induction false} ClearAllIdempotent(ns: seq<Notification>)
    ensures ClearAll(ClearAll(ns)) == ClearAll(ns)
  {
    if ns != [] {
      ClearAllIdempotent(ns[1..]);
    }
  }

  /** Once the task of an entity is done and its entries are read, clearing
      removes every entry about it. */
  lemma {:induction false} CompletedTaskCleared(ns: seq<Notification>, t: RelatedType, id: string)
    requires forall n :: n in ns && n.relatedId == Some(id) && n.relatedType == Some(t) ==> n.isRead
    ensures forall n :: n in ClearAll(MarkTaskCompleted(ns, t, id)) ==>
      !(n.relatedId == Some(id) && n.relatedType == Some(t))
  {
    var m := MarkTaskCompleted(ns, t, id);
    forall n | n in ClearAll(m)
      ensures !(n.relatedId == Some(id) && n.relatedType == Some(t))
    {
      var k :| 0 <= k < |m| && m[k] == n;
      assert ns[k] in ns;
    }
  }

  /** The notification state of the app shell. */
  class NotificationCenter {
    var notifications: seq<Notification>
    var nonce: nat
    var toasts: seq<Notification>

    function State(): Inbox
      reads this
    {
      Inbox(notifications, nonce, toasts)
    }

    constructor ()
      ensures State() == Inbox([], 0, [])
    {
      notifications := [];
      nonce := 0;
      toasts := [];
    }

    /** `addNotification` as written: the entry always gets a generated id. */
    method AddNotification(d: Draft, now: int)
      modifies this
      ensures State() == Add(AsWritten, old(State()), d, now)
      ensures notifications[1..] == old(notifications) && !notifications[0].isRead
      ensures StartsWith(notifications[0].id, "notif-")
    {
      var id := GeneratedId(now, nonce);
      var entry := Entry(d, id, now);
      notifications := [entry] + notifications;
      nonce := nonce + 1;
      if d.priority == High {
        toasts := toasts + [entry];
      }
    }

    /** `checkNotifications`, run once with the clock, the calendar and the
        signed-in user's role given as inputs. */
    method CheckNotifications(orders: seq<Order>, balances: seq<(CourierName, CourierBalance)>, now: int,
                              year: int, month: int, day: int, role: Option<Role>)
      modifies this
      ensures State() == Sweep(AsWritten, old(State()), orders, balances, now, year, month, day, role)
    {
      var snapshot := notifications;
      CheckOrders(snapshot, orders, now);
      CheckDebts(snapshot, balances, now);
      if ReminderDue(day, role) && !HasId(snapshot, ReminderId(year, month, day)) {
        AddNotification(ReminderDraft(year, month, day), now);
      }
    }

    /** The stale-order part of the sweep. */
    method CheckOrders(snapshot: seq<Notification>, orders: seq<Order>, now: int)
      modifies this
      ensures State() == SweepOrders(AsWritten, old(State()), snapshot, orders, now)
    {
      var i := 0;
      while i < |orders|
        invariant 0 <= i <= |orders|
        invariant State() == SweepOrders(AsWritten, old(State()), snapshot, orders[..i], now)
      {
        var order := orders[i];
        SweepOrdersStep(AsWritten, old(State()), snapshot, orders, i, now);
        var existing := FindRelated(snapshot, order.id, OrderRef);
        var action := StaleAction(AsWritten, order, existing, now);
        if action.Raise? {
          if existing.Some? {
            notifications := RemoveId(notifications, existing.value.id);
          }
          AddNotification(StaleDraft(order, action.level), now);
        }
        i := i + 1;
      }
      assert orders[..i] == orders;
    }

    /** The courier-debt part of the sweep. */
    method CheckDebts(snapshot: seq<Notification>, balances: seq<(CourierName, CourierBalance)>, now: int)
      modifies this
      ensures State() == SweepDebts(AsWritten, old(State()), snapshot, balances, now)
    {
      var j := 0;
      while j < |balances|
        invariant 0 <= j <= |balances|
        invariant State() == SweepDebts(AsWritten, old(State()), snapshot, balances[..j], now)
      {
        var (c, b) := balances[j];
        SweepDebtsStep(AsWritten, old(State()), snapshot, balances, j, now);
        if b.cashCollected > 0 && FindRelated(snapshot, CourierText(c), CourierDebt).None? {
          AddNotification(DebtDraft(c), now);
        }
        j := j + 1;
      }
      assert balances[..j] == balances;
    }

    method TaskCompleted(t: RelatedType, id: string)
      modifies this
      ensures notifications == MarkTaskCompleted(old(notifications), t, id)
      ensures nonce == old(nonce) && toasts == old(toasts)
    {
      var updated: seq<Notification> := [];
      var k := 0;
      while k < |notifications|
        invariant 0 <= k <= |notifications|
        invariant |updated| == k
        invariant forall m :: 0 <= m < k ==>
          updated[m] == if notifications[m].relatedId == Some(id) && notifications[m].relatedType == Some(t)
                        then notifications[m].(isTaskCompleted := true) else notifications[m]
      {
        var n := notifications[k];
        if n.relatedId == Some(id) && n.relatedType == Some(t) {
          updated := updated + [n.(isTaskCompleted := true)];
        } else {
          updated := updated + [n];
        }
        k := k + 1;
      }
      notifications := updated;
    }

    method ClearAllNotifications()
      modifies this
      ensures notifications == ClearAll(old(notifications))
      ensures nonce == old(nonce) && toasts == old(toasts)
    {
      notifications := ClearAll(notifications);
    }
  }
}
