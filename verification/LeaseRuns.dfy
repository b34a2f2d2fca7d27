/**
 * Runs of the lease tables: requests for leases, changes of settings and the clock
 * interleave with the turns of a reaper pass. Only the reaper ends leases.
 */
module LeaseRuns {
  import opened Options
  import opened Sequences
  import opened Leases

  datatype Entry = Entry(id: nat, lease: Lease)

  /** `queue` is what the running pass still has to visit: rows as its snapshot read them. */
  datatype Site = Site(tables: Tables, settings: map<OrgId, Settings>, now: int, queue: seq<Entry>)

  datatype Event =
    | Wait(until: int)
    | Configure(org: OrgId, settings: Settings)
    | Request(org: OrgId, id: nat, worker: nat)
    | BeginPass(order: seq<nat>)
    | ReapNext

  function SettingsOf(s: Site, org: OrgId): Settings {
    if org in s.settings then s.settings[org] else Settings(None, false, None, false)
  }

  predicate Possible(s: Site, e: Event) {
    match e
    case Wait(until) => until >= s.now
    case Configure(_, _) => true
    case Request(_, id, worker) => id !in s.tables.leases && worker !in s.tables.workers
    case BeginPass(order) =>
      && s.queue == []
      && Distinct(order)
      && (forall i :: 0 <= i < |order| ==> Active(s.tables, order[i]))
      && (forall id :: id in s.tables.leases && Active(s.tables, id) ==> id in order)
    case ReapNext => s.queue != []
  }

  function Snapshot(s: Tables, order: seq<nat>): (q: seq<Entry>)
    requires forall i :: 0 <= i < |order| ==> order[i] in s.leases
    ensures |q| == |order|
    ensures forall i :: 0 <= i < |q| ==> q[i] == Entry(order[i], s.leases[order[i]])
  {
    seq(|order|, i requires 0 <= i < |order| => Entry(order[i], s.leases[order[i]]))
  }

  function TurnOf(s: Site, e: Entry): Turn {
    Turn(e.id, e.lease, SettingsOf(s, e.lease.org), s.now)
  }

  function After(s: Site, e: Event, c: Enforcement): Site
    requires Possible(s, e)
  {
    match e
    case Wait(until) => s.(now := until)
    case Configure(org, settings) => s.(settings := s.settings[org := settings])
    case Request(org, id, worker) =>
      s.(tables := TryGrant(s.tables, org, SettingsOf(s, org), c, s.now, id, worker))
    case BeginPass(order) => s.(queue := Snapshot(s.tables, order))
    case ReapNext => s.(tables := Reap(s.tables, TurnOf(s, s.queue[0]), c), queue := s.queue[1..])
  }

  predicate IsRun(s: Site, events: seq<Event>, c: Enforcement)
    decreases |events|
  {
    events == [] || (Possible(s, events[0]) && IsRun(After(s, events[0], c), events[1..], c))
  }

  function RunEnd(s: Site, events: seq<Event>, c: Enforcement): Site
    requires IsRun(s, events, c)
    decreases |events|
  {
    if events == [] then s else RunEnd(After(s, events[0], c), events[1..], c)
  }

  const NO_TABLES := Tables(map[], map[], map[], [])

  function Opening(settings: map<OrgId, Settings>, now: int): Site {
    Site(NO_TABLES, settings, now, [])
  }

  // ---------- the snapshot stays true ----------

  ghost predicate QueueTrue(s: Site) {
    && (forall i :: 0 <= i < |s.queue| ==>
          Active(s.tables, s.queue[i].id) && s.tables.leases[s.queue[i].id] == s.queue[i].lease)
    && (forall i, j :: 0 <= i < j < |s.queue| ==> s.queue[i].id != s.queue[j].id)
  }

  lemma ReapTouchesOnlyItsLease(s: Tables, t: Turn, c: Enforcement, id: nat)
    requires id != t.id
    ensures id in Reap(s, t, c).leases <==> id in s.leases
    ensures id in s.leases ==> Reap(s, t, c).leases[id] == s.leases[id]
  {
  }

  lemma KeepsQueue(s: Site, e: Event, c: Enforcement)
    requires QueueTrue(s) && Possible(s, e)
    ensures QueueTrue(After(s, e, c))
  {
    match e {
      case ReapNext =>
        var s' := After(s, e, c);
        forall i | 0 <= i < |s'.queue|
          ensures Active(s'.tables, s'.queue[i].id) && s'.tables.leases[s'.queue[i].id] == s'.queue[i].lease
        {
          assert s'.queue[i] == s.queue[i + 1];
          ReapTouchesOnlyItsLease(s.tables, TurnOf(s, s.queue[0]), c, s'.queue[i].id);
        }
      case _ =>
    }
  }

  /** What the running pass has still to visit is, in every run, active and as its rows are now. */
  lemma {:induction false} QueueStaysTrue(s: Site, events: seq<Event>, c: Enforcement)
    requires QueueTrue(s) && IsRun(s, events, c)
    ensures QueueTrue(RunEnd(s, events, c))
    decreases |events|
  {
    if events != [] {
      KeepsQueue(s, events[0], c);
      QueueStaysTrue(After(s, events[0], c), events[1..], c);
    }
  }

  // ---------- what one event does to the meter of an organisation ----------

  lemma GrantMeter(s: Tables, org: OrgId, set_: Settings, c: Enforcement, now: int, id: nat, worker: nat, o: OrgId)
    requires id !in s.leases
    ensures var s' := TryGrant(s, org, set_, c, now, id, worker);
            && s'.used == s.used
            && ActiveIds(s', o)
               == ActiveIds(s, o) + if org == o && Decide(s, org, set_, c, now).Granted? then {id} else {}
  {
  }

  /** A turn adds its seconds to its organisation, and the lease it revokes leaves that organisation's active set. */
  lemma ReapMeter(s: Tables, t: Turn, c: Enforcement, o: OrgId, at: int)
    requires Active(s, t.id) && s.leases[t.id] == t.lease
    ensures var s' := Reap(s, t, c);
            var s1 := Add(s, t.lease.org, t.now, c.tick);
            && WeekUsed(s', o, at)
               == WeekUsed(s, o, at) + (if t.lease.org == o && WeekOf(at) == WeekOf(t.now) then c.tick else 0)
            && ActiveIds(s', o)
               == ActiveIds(s, o) - (if t.lease.org == o && Verdict(s1, t, c).Some? then {t.id} else {})
  {
  }

  // ---------- the weekly cap ----------

  /** The counters only know weeks that have begun. */
  ghost predicate NoFutureWeeks(s: Site) {
    forall k :: k in s.tables.used ==> k.1 <= WeekOf(s.now)
  }

  lemma WeeksGrow(a: int, b: int)
    requires a <= b
    ensures WeekOf(a) <= WeekOf(b)
  {
  }

  lemma KeepsWeeks(s: Site, e: Event, c: Enforcement)
    requires NoFutureWeeks(s) && Possible(s, e)
    ensures NoFutureWeeks(After(s, e, c))
  {
    if e.Wait? {
      WeeksGrow(s.now, e.until);
    }
  }

  /** The plan has a weekly cap of `cap` seconds: its hours, unless a cap is configured. */
  predicate CapsAt(l: Limits, c: Enforcement, cap: nat) {
    l.weeklyHours.Some? && cap == if c.capOverride > 0 then c.capOverride else 3600 * l.weeklyHours.value
  }

  predicate Allows(l: Limits, c: Enforcement, w: nat, cap: nat) {
    l.maxWorkers == Some(w) && CapsAt(l, c, cap)
  }

  /** The organisation is on a plan with `w` workers and a weekly cap of `cap` seconds. */
  predicate OnPlan(s: Site, o: OrgId, c: Enforcement, w: nat, cap: nat) {
    var l := SettingsOf(s, o).limits;
    l.Some? && Allows(l.value, c, w, cap)
  }

  /** The event leaves the organisation on that plan, whatever else it changes. */
  predicate SamePlan(e: Event, o: OrgId, c: Enforcement, w: nat, cap: nat) {
    e.Configure? && e.org == o ==>
      var l := e.settings.limits;
      l.Some? && Allows(l.value, c, w, cap)
  }

  /**
   * Under the plan: no more active leases than workers, and the seconds used stay
   * below the cap, or so little above it that every lease still active can have one
   * more tick without passing `cap + tick * w`.
   */
  predicate Metered(s: Site, o: OrgId, c: Enforcement, w: nat, cap: nat) {
    var used, active := WeekUsed(s.tables, o, s.now), |ActiveIds(s.tables, o)|;
    active <= w && (used < cap || used + c.tick * active <= cap - 1 + c.tick * w)
  }

  lemma TickTimes(tick: nat, n: nat, w: nat)
    requires n <= w
    ensures tick * n <= tick * w
    ensures n > 0 ==> tick * (n - 1) == tick * n - tick
  {
  }

  lemma TurnMetered(used: nat, active: nat, tick: nat, w: nat, cap: nat, used': nat, active': nat)
    requires cap > 0 && active > 0 && active <= w
    requires used < cap || used + tick * active <= cap - 1 + tick * w
    requires used' == used + tick && (active' == active || active' == active - 1)
    requires used' >= cap ==> active' == active - 1
    ensures active' <= w && (used' < cap || used' + tick * active' <= cap - 1 + tick * w)
  {
    TickTimes(tick, active, w);
    if used' >= cap && used < cap {
      TickTimes(tick, active - 1, w - 1);
      TickTimes(tick, w, w);
    }
  }

  lemma RemovedOne(a: set<nat>, id: nat)
    requires id in a
    ensures |a - {id}| == |a| - 1
  {
  }

  lemma ReapKeepsMeter(s: Site, o: OrgId, c: Enforcement, w: nat, cap: nat)
    requires s.queue != [] && QueueTrue(s) && cap > 0 && OnPlan(s, o, c, w, cap) && Metered(s, o, c, w, cap)
    ensures Metered(After(s, ReapNext, c), o, c, w, cap)
  {
    var t := TurnOf(s, s.queue[0]);
    ReapMeter(s.tables, t, c, o, s.now);
    if t.lease.org == o {
      var a := ActiveIds(s.tables, o);
      assert t.id in a;
      RemovedOne(a, t.id);
      var s' := Reap(s.tables, t, c);
      TurnMetered(WeekUsed(s.tables, o, s.now), |a|, c.tick, w, cap, WeekUsed(s', o, s.now), |ActiveIds(s', o)|);
    }
  }

  lemma KeepsMeter(s: Site, e: Event, o: OrgId, c: Enforcement, w: nat, cap: nat)
    requires QueueTrue(s) && NoFutureWeeks(s) && cap > 0 && Possible(s, e) && SamePlan(e, o, c, w, cap)
    requires OnPlan(s, o, c, w, cap) && Metered(s, o, c, w, cap)
    ensures OnPlan(After(s, e, c), o, c, w, cap) && Metered(After(s, e, c), o, c, w, cap)
  {
    match e {
      case ReapNext => ReapKeepsMeter(s, o, c, w, cap);
      case Request(org, id, worker) =>
        GrantMeter(s.tables, org, SettingsOf(s, org), c, s.now, id, worker, o);
        assert id !in ActiveIds(s.tables, o);
      case Wait(until) =>
        WeeksGrow(s.now, until);
        assert WeekOf(until) > WeekOf(s.now) ==> (o, WeekOf(until)) !in s.tables.used;
      case _ =>
    }
  }

  lemma {:induction false} RunKeepsMeter(s: Site, events: seq<Event>, o: OrgId, c: Enforcement, w: nat, cap: nat)
    requires QueueTrue(s) && NoFutureWeeks(s) && cap > 0 && IsRun(s, events, c)
    requires forall e :: e in events ==> SamePlan(e, o, c, w, cap)
    requires OnPlan(s, o, c, w, cap) && Metered(s, o, c, w, cap)
    ensures Metered(RunEnd(s, events, c), o, c, w, cap)
    decreases |events|
  {
    if events != [] {
      assert events[0] in events;
      KeepsMeter(s, events[0], o, c, w, cap);
      KeepsQueue(s, events[0], c);
      KeepsWeeks(s, events[0], c);
      RunKeepsMeter(After(s, events[0], c), events[1..], o, c, w, cap);
    }
  }

  /**
   * Weekly cap: while an organisation stays on a plan with `w` workers and a cap,
   * its week never reaches `cap + tick * w` seconds and it never has more than `w`
   * leases, whatever else is reconfigured, however requests fall into a pass, and
   * across the turn of the week.
   */
  lemma WeeklyOvershootIsBounded(
    settings: map<OrgId, Settings>, now: int, events: seq<Event>, o: OrgId, c: Enforcement, w: nat, cap: nat)
    requires cap > 0 && IsRun(Opening(settings, now), events, c)
    requires OnPlan(Opening(settings, now), o, c, w, cap)
    requires forall e :: e in events ==> SamePlan(e, o, c, w, cap)
    ensures var s := RunEnd(Opening(settings, now), events, c);
            && |ActiveIds(s.tables, o)| <= w
            && WeekUsed(s.tables, o, s.now) < cap + c.tick * w
            && (WeekUsed(s.tables, o, s.now) >= cap ==>
                  WeekUsed(s.tables, o, s.now) + c.tick * |ActiveIds(s.tables, o)| <= cap - 1 + c.tick * w)
  {
    var s0 := Opening(settings, now);
    assert ActiveIds(s0.tables, o) == {};
    RunKeepsMeter(s0, events, o, c, w, cap);
    assert c.tick * w >= 0 && c.tick * |ActiveIds(RunEnd(s0, events, c).tables, o)| >= 0;
  }

  // ---------- the ceiling and the pause ----------

  /** Whatever mode the organisation is in, it may have at most `b` leases. */
  predicate CeilingAtMost(set_: Settings, b: nat) {
    set_.limits.Some? ==>
      || (set_.limits.value.maxWorkers.Some? && set_.limits.value.maxWorkers.value <= b)
      || (set_.pinned.Some? && set_.pinned.value <= b)
  }

  lemma EventKeepsCeiling(s: Site, e: Event, o: OrgId, c: Enforcement, b: nat)
    requires QueueTrue(s) && Possible(s, e) && CeilingAtMost(SettingsOf(s, o), b)
    requires |ActiveIds(s.tables, o)| <= b
    ensures |ActiveIds(After(s, e, c).tables, o)| <= b
  {
    match e {
      case ReapNext =>
        var t := TurnOf(s, s.queue[0]);
        ReapMeter(s.tables, t, c, o, s.now);
        if t.lease.org == o {
          RemovedOne(ActiveIds(s.tables, o), t.id);
        }
      case Request(org, id, worker) => GrantMeter(s.tables, org, SettingsOf(s, org), c, s.now, id, worker, o);
      case _ =>
    }
  }

  /**
   * While plan and pinned workers together never allow more than `b` leases, however
   * they change, an organisation never has more than `b`.
   */
  lemma {:induction false} NeverAboveTheCeiling(s: Site, events: seq<Event>, o: OrgId, c: Enforcement, b: nat)
    requires QueueTrue(s) && IsRun(s, events, c) && CeilingAtMost(SettingsOf(s, o), b)
    requires forall e :: e in events && e.Configure? && e.org == o ==> CeilingAtMost(e.settings, b)
    requires |ActiveIds(s.tables, o)| <= b
    ensures |ActiveIds(RunEnd(s, events, c).tables, o)| <= b
    decreases |events|
  {
    if events != [] {
      assert events[0] in events;
      EventKeepsCeiling(s, events[0], o, c, b);
      KeepsQueue(s, events[0], c);
      NeverAboveTheCeiling(After(s, events[0], c), events[1..], o, c, b);
    }
  }

  /** While its pool is paused, an organisation gets no lease: the active ones can only become fewer. */
  lemma {:induction false} PausedGetsNothing(s: Site, events: seq<Event>, o: OrgId, c: Enforcement)
    requires QueueTrue(s) && IsRun(s, events, c) && SettingsOf(s, o).paused
    requires forall e :: e in events && e.Configure? && e.org == o ==> e.settings.paused
    ensures ActiveIds(RunEnd(s, events, c).tables, o) <= ActiveIds(s.tables, o)
    decreases |events|
  {
    if events != [] {
      var e := events[0];
      assert e in events;
      if e.ReapNext? {
        ReapMeter(s.tables, TurnOf(s, s.queue[0]), c, o, s.now);
      } else if e.Request? {
        GrantMeter(s.tables, e.org, SettingsOf(s, e.org), c, s.now, e.id, e.worker, o);
      }
      KeepsQueue(s, e, c);
      PausedGetsNothing(After(s, e, c), events[1..], o, c);
    }
  }

  // ---------- the usage ledger ----------

  function Count(ledger: seq<Usage>, org: OrgId, kind: UsageKind): nat {
    if ledger == [] then 0
    else Count(ledger[..|ledger| - 1], org, kind)
         + if ledger[|ledger| - 1].org == org && ledger[|ledger| - 1].kind == kind then 1 else 0
  }

  function CountLease(ledger: seq<Usage>, id: nat, kind: UsageKind): nat {
    if ledger == [] then 0
    else CountLease(ledger[..|ledger| - 1], id, kind)
         + if ledger[|ledger| - 1].lease == id && ledger[|ledger| - 1].kind == kind then 1 else 0
  }

  lemma CountPair(ledger: seq<Usage>, a: Usage, b: Usage, org: OrgId, id: nat, kind: UsageKind)
    ensures Count(ledger + [a, b], org, kind)
            == Count(ledger, org, kind)
               + (if a.org == org && a.kind == kind then 1 else 0) + if b.org == org && b.kind == kind then 1 else 0
    ensures CountLease(ledger + [a, b], id, kind)
            == CountLease(ledger, id, kind)
               + (if a.lease == id && a.kind == kind then 1 else 0) + if b.lease == id && b.kind == kind then 1 else 0
  {
    var l2 := ledger + [a, b];
    assert l2[..|l2| - 1] == ledger + [a];
    assert (ledger + [a])[..|ledger|] == ledger;
  }

  /** The row of a lease and the ledger tell the same story. */
  predicate Recorded(s: Tables, id: nat) {
    && CountLease(s.ledger, id, LeaseIssued) == (if id in s.leases then 1 else 0)
    && CountLease(s.ledger, id, LeaseExpired) == (if id in s.leases && s.leases[id].ended.Some? then 1 else 0)
  }

  predicate Balanced(s: Tables, o: OrgId, up: UsageKind, down: UsageKind) {
    Count(s.ledger, o, up) == Count(s.ledger, o, down) + |ActiveIds(s, o)|
  }

  /** Events that go together, at the grant and at the end of a lease. */
  predicate Pairs(up: UsageKind, down: UsageKind) {
    (up == LeaseIssued && down == LeaseExpired) || (up == WorkerStarted && down == WorkerStopped)
  }

  lemma ReapRecords(s: Tables, t: Turn, c: Enforcement, id: nat)
    requires Active(s, t.id) && s.leases[t.id] == t.lease
    requires Recorded(s, id)
    ensures Recorded(Reap(s, t, c), id)
  {
    var a, b := Usage(t.lease.org, t.id, LeaseExpired), Usage(t.lease.org, t.id, WorkerStopped);
    CountPair(s.ledger, a, b, t.lease.org, id, LeaseIssued);
    CountPair(s.ledger, a, b, t.lease.org, id, LeaseExpired);
  }

  lemma EndBalances(
    ledger: seq<Usage>, t: Turn, ends: bool, o: OrgId, up: UsageKind, down: UsageKind, active: nat, left: nat)
    requires Pairs(up, down) && Count(ledger, o, up) == Count(ledger, o, down) + active
    requires active == left + if ends && t.lease.org == o then 1 else 0
    ensures var l := ledger + if ends then EndNotes(t) else [];
            Count(l, o, up) == Count(l, o, down) + left
  {
    CountPair(ledger, EndNotes(t)[0], EndNotes(t)[1], o, t.id, up);
    CountPair(ledger, EndNotes(t)[0], EndNotes(t)[1], o, t.id, down);
    assert ledger + [] == ledger;
  }

  /** The events of a lease's end. */
  function EndNotes(t: Turn): seq<Usage> {
    [Usage(t.lease.org, t.id, LeaseExpired), Usage(t.lease.org, t.id, WorkerStopped)]
  }

  lemma ReapNotes(s: Tables, t: Turn, c: Enforcement)
    ensures Reap(s, t, c).ledger
            == s.ledger + if Verdict(Add(s, t.lease.org, t.now, c.tick), t, c).Some? then EndNotes(t) else []
  {
    assert s.ledger + [] == s.ledger;
  }

  lemma ReapBalances(s: Tables, t: Turn, c: Enforcement, o: OrgId, up: UsageKind, down: UsageKind)
    requires Active(s, t.id) && s.leases[t.id] == t.lease
    requires Pairs(up, down) && Balanced(s, o, up, down)
    ensures Balanced(Reap(s, t, c), o, up, down)
  {
    var s' := Reap(s, t, c);
    var ends := Verdict(Add(s, t.lease.org, t.now, c.tick), t, c).Some?;
    ReapNotes(s, t, c);
    ReapMeter(s, t, c, o, t.now);
    if t.lease.org == o && ends {
      RemovedOne(ActiveIds(s, o), t.id);
    }
    EndBalances(s.ledger, t, ends, o, up, down, |ActiveIds(s, o)|, |ActiveIds(s', o)|);
  }

  lemma GrantRecords(s: Tables, org: OrgId, set_: Settings, c: Enforcement, now: int, id: nat, worker: nat, other: nat)
    requires id !in s.leases && Recorded(s, other)
    ensures Recorded(TryGrant(s, org, set_, c, now, id, worker), other)
  {
    var a, b := Usage(org, id, WorkerStarted), Usage(org, id, LeaseIssued);
    CountPair(s.ledger, a, b, org, other, LeaseIssued);
    CountPair(s.ledger, a, b, org, other, LeaseExpired);
  }

  lemma GrantBalances(
    s: Tables, org: OrgId, set_: Settings, c: Enforcement, now: int, id: nat, worker: nat,
    o: OrgId, up: UsageKind, down: UsageKind)
    requires id !in s.leases && Pairs(up, down) && Balanced(s, o, up, down)
    ensures Balanced(TryGrant(s, org, set_, c, now, id, worker), o, up, down)
  {
    var a, b := Usage(org, id, WorkerStarted), Usage(org, id, LeaseIssued);
    CountPair(s.ledger, a, b, o, id, up);
    CountPair(s.ledger, a, b, o, id, down);
    GrantMeter(s, org, set_, c, now, id, worker, o);
    assert id !in ActiveIds(s, o);
  }

  lemma KeepsRecord(s: Site, e: Event, c: Enforcement, id: nat)
    requires QueueTrue(s) && Possible(s, e) && Recorded(s.tables, id)
    ensures Recorded(After(s, e, c).tables, id)
  {
    match e {
      case ReapNext => ReapRecords(s.tables, TurnOf(s, s.queue[0]), c, id);
      case Request(org, lease, worker) => GrantRecords(s.tables, org, SettingsOf(s, org), c, s.now, lease, worker, id);
      case _ =>
    }
  }

  lemma KeepsBalance(s: Site, e: Event, c: Enforcement, o: OrgId, up: UsageKind, down: UsageKind)
    requires QueueTrue(s) && Possible(s, e) && Pairs(up, down) && Balanced(s.tables, o, up, down)
    ensures Balanced(After(s, e, c).tables, o, up, down)
  {
    match e {
      case ReapNext => ReapBalances(s.tables, TurnOf(s, s.queue[0]), c, o, up, down);
      case Request(org, lease, worker) =>
        GrantBalances(s.tables, org, SettingsOf(s, org), c, s.now, lease, worker, o, up, down);
      case _ =>
    }
  }

  lemma {:induction false} RunKeepsLedger(
    s: Site, events: seq<Event>, c: Enforcement, o: OrgId, up: UsageKind, down: UsageKind, id: nat)
    requires QueueTrue(s) && IsRun(s, events, c) && Recorded(s.tables, id)
    requires Pairs(up, down) && Balanced(s.tables, o, up, down)
    ensures Recorded(RunEnd(s, events, c).tables, id) && Balanced(RunEnd(s, events, c).tables, o, up, down)
    decreases |events|
  {
    if events != [] {
      KeepsRecord(s, events[0], c, id);
      KeepsBalance(s, events[0], c, o, up, down);
      KeepsQueue(s, events[0], c);
      RunKeepsLedger(After(s, events[0], c), events[1..], c, o, up, down, id);
    }
  }

  /**
   * Usage ledger: in every reachable state, leases issued minus leases expired is the
   * number of active leases, for every organisation, and so is the number of workers
   * started minus workers stopped; each lease is issued once and
   * revoked at most once, exactly when its row has ended.
   */
  lemma LedgerIsConserved(
    settings: map<OrgId, Settings>, now: int, events: seq<Event>, c: Enforcement, o: OrgId, id: nat)
    requires IsRun(Opening(settings, now), events, c)
    ensures var t := RunEnd(Opening(settings, now), events, c).tables;
            && Count(t.ledger, o, LeaseIssued) - Count(t.ledger, o, LeaseExpired) == |ActiveIds(t, o)|
            && Count(t.ledger, o, WorkerStarted) - Count(t.ledger, o, WorkerStopped) == |ActiveIds(t, o)|
            && CountLease(t.ledger, id, LeaseIssued) == (if id in t.leases then 1 else 0)
            && CountLease(t.ledger, id, LeaseExpired) == (if id in t.leases && t.leases[id].ended.Some? then 1 else 0)
  {
    assert ActiveIds(NO_TABLES, o) == {};
    RunKeepsLedger(Opening(settings, now), events, c, o, LeaseIssued, LeaseExpired, id);
    RunKeepsLedger(Opening(settings, now), events, c, o, WorkerStarted, WorkerStopped, id);
  }

  // ---------- a lease through its life ----------

  /** What never changes in the row of a lease that is not renewed, and the state of its worker. */
  predicate SameLease(before: Lease, after: Lease) {
    && after.org == before.org && after.worker == before.worker && after.autoRenew == before.autoRenew
    && (!before.autoRenew ==> after.expires == before.expires)
    && (before.ended.Some? ==> after.ended == before.ended)
  }

  lemma EventKeepsLease(s: Site, e: Event, c: Enforcement, id: nat)
    requires QueueTrue(s) && Possible(s, e) && id in s.tables.leases
    ensures var s' := After(s, e, c);
            id in s'.tables.leases && SameLease(s.tables.leases[id], s'.tables.leases[id])
  {
    if e.ReapNext? && id != s.queue[0].id {
      ReapTouchesOnlyItsLease(s.tables, TurnOf(s, s.queue[0]), c, id);
    }
  }

  /** From grant to end, a non-renewable lease keeps its expiry; a lease that has ended stays ended as it did. */
  lemma {:induction false} LeaseKeepsItsTerms(s: Site, events: seq<Event>, c: Enforcement, id: nat)
    requires QueueTrue(s) && IsRun(s, events, c) && id in s.tables.leases
    ensures var s' := RunEnd(s, events, c);
            id in s'.tables.leases && SameLease(s.tables.leases[id], s'.tables.leases[id])
    decreases |events|
  {
    if events != [] {
      EventKeepsLease(s, events[0], c, id);
      KeepsQueue(s, events[0], c);
      LeaseKeepsItsTerms(After(s, events[0], c), events[1..], c, id);
    }
  }

  function StatusFor(ended: Option<EndReason>): WorkerStatus {
    match ended
    case None => Working
    case Some(Expired) => Paused
    case Some(_) => Stopped
  }

  /** Every lease has a worker of its own, running, paused or stopped as the lease says. */
  ghost predicate WorkersAgree(s: Tables) {
    && (forall id :: id in s.leases ==>
          var l := s.leases[id];
          l.worker in s.workers && s.workers[l.worker] == WorkerRow(l.org, StatusFor(l.ended)))
    && (forall a, b :: a in s.leases && b in s.leases && s.leases[a].worker == s.leases[b].worker ==> a == b)
  }

  lemma ReapKeepsWorkers(s: Tables, t: Turn, c: Enforcement)
    requires WorkersAgree(s) && Active(s, t.id) && s.leases[t.id] == t.lease
    ensures WorkersAgree(Reap(s, t, c))
  {
    var s' := Reap(s, t, c);
    forall id | id in s'.leases
      ensures s'.leases[id].worker in s'.workers
      ensures s'.workers[s'.leases[id].worker] == WorkerRow(s'.leases[id].org, StatusFor(s'.leases[id].ended))
      ensures s'.leases[id].worker == s.leases[id].worker
    {
      if id != t.id {
        ReapTouchesOnlyItsLease(s, t, c, id);
        assert s.leases[id].worker != t.lease.worker;
      }
    }
  }

  lemma {:induction false} WorkersFollowLeases(s: Site, events: seq<Event>, c: Enforcement)
    requires QueueTrue(s) && WorkersAgree(s.tables) && IsRun(s, events, c)
    ensures WorkersAgree(RunEnd(s, events, c).tables)
    decreases |events|
  {
    if events != [] {
      if events[0].ReapNext? {
        ReapKeepsWorkers(s.tables, TurnOf(s, s.queue[0]), c);
      }
      KeepsQueue(s, events[0], c);
      WorkersFollowLeases(After(s, events[0], c), events[1..], c);
    }
  }
}
