/**
 * Passes start on the ticks of a clock: a ticker delivers one tick per period, keeps at
 * most one that nobody has taken, and drops the others. Under this pacing an organisation
 * cannot use more than so many seconds in a week, whatever its cap; and the bound of
 * `Overshoot` is reached exactly when that leaves room for it.
 */
module Pacing {
  import opened Options
  import opened Sequences
  import opened Leases
  import opened LeaseRuns
  import opened Overshoot

  // ---------- runs on a ticker ----------

  /** When the next tick comes, and whether one waits to be taken. */
  datatype Ticker = Ticker(next: int, pending: bool)

  datatype Clocked = Clocked(site: Site, ticker: Ticker)

  /** The ticks up to `now` have come; the next one stays on the grid. */
  function Delivered(t: Ticker, now: int, tick: nat): Ticker
    requires tick > 0
  {
    if now < t.next then t else Ticker(t.next + tick * ((now - t.next) / tick + 1), true)
  }

  predicate May(x: Clocked, e: Event) {
    Possible(x.site, e) && (e.BeginPass? ==> x.ticker.pending)
  }

  function Then(x: Clocked, e: Event, c: Enforcement): Clocked
    requires c.tick > 0 && May(x, e)
  {
    Clocked(After(x.site, e, c),
            match e
            case Wait(until) => Delivered(x.ticker, until, c.tick)
            case BeginPass(_) => x.ticker.(pending := false)
            case _ => x.ticker)
  }

  predicate IsPaced(x: Clocked, events: seq<Event>, c: Enforcement)
    requires c.tick > 0
    decreases |events|
  {
    events == [] || (May(x, events[0]) && IsPaced(Then(x, events[0], c), events[1..], c))
  }

  function PacedEnd(x: Clocked, events: seq<Event>, c: Enforcement): Clocked
    requires c.tick > 0 && IsPaced(x, events, c)
    decreases |events|
  {
    if events == [] then x else PacedEnd(Then(x, events[0], c), events[1..], c)
  }

  /** The server starts: no tables, and the first tick a period away. */
  function Started(settings: map<OrgId, Settings>, now: int, c: Enforcement): Clocked {
    Clocked(Opening(settings, now), Ticker(now + c.tick, false))
  }

  /** Paced runs are runs. */
  lemma {:induction false} PacedIsRun(x: Clocked, events: seq<Event>, c: Enforcement)
    requires c.tick > 0 && IsPaced(x, events, c)
    ensures IsRun(x.site, events, c) && RunEnd(x.site, events, c) == PacedEnd(x, events, c).site
    decreases |events|
  {
    if events != [] {
      PacedIsRun(Then(x, events[0], c), events[1..], c);
    }
  }

  // ---------- weeks and ticks ----------

  function WeekStart(week: int): int {
    week * WEEK - MONDAY_OFFSET
  }

  lemma InWeek(now: int)
    ensures WeekStart(WeekOf(now)) <= now < WeekStart(WeekOf(now)) + WEEK
  {
  }

  lemma WeekIs(week: int, now: int)
    requires WeekStart(week) <= now < WeekStart(week) + WEEK
    ensures WeekOf(now) == week
  {
  }

  lemma DeliveredNext(t: Ticker, now: int, tick: nat) returns (n: nat)
    requires tick > 0 && now >= t.next
    ensures Delivered(t, now, tick).next == t.next + tick * n && n > 0
    ensures now < Delivered(t, now, tick).next <= now + tick
  {
    var gone := (now - t.next) / tick;
    assert tick * gone <= now - t.next < tick * gone + tick;
    n := gone + 1;
    assert tick * n == tick * gone + tick;
  }

  // ---------- how much a week can hold ----------

  /** What is still to be visited for the organisation. */
  function OwnIds(q: seq<Entry>, o: OrgId): set<nat> {
    set i | 0 <= i < |q| && q[i].lease.org == o :: q[i].id
  }

  lemma OwnTail(q: seq<Entry>, o: OrgId)
    requires q != [] && forall i, j :: 0 <= i < j < |q| ==> q[i].id != q[j].id
    ensures OwnIds(q[1..], o) == OwnIds(q, o) - {q[0].id}
    ensures q[0].lease.org == o ==> |OwnIds(q, o)| == |OwnIds(q[1..], o)| + 1
    ensures q[0].lease.org != o ==> OwnIds(q[1..], o) == OwnIds(q, o)
  {
    forall id | id in OwnIds(q, o) - {q[0].id} ensures id in OwnIds(q[1..], o) {
      var i :| 0 <= i < |q| && q[i].lease.org == o && q[i].id == id;
      assert q[1..][i - 1] == q[i];
    }
    forall id | id in OwnIds(q[1..], o) ensures id in OwnIds(q, o) - {q[0].id} {
      var i :| 0 <= i < |q[1..]| && q[1..][i].lease.org == o && q[1..][i].id == id;
      assert q[i + 1] == q[1..][i];
    }
    if q[0].lease.org == o {
      assert q[0].id in OwnIds(q, o);
    }
  }

  lemma Within(a: set<nat>, b: set<nat>)
    requires a <= b
    ensures |a| <= |b|
    decreases |b|
  {
    if a != b {
      var x :| x in b && x !in a;
      Within(a, b - {x});
    }
  }

  lemma OwnAreActive(s: Site, o: OrgId)
    requires QueueTrue(s)
    ensures |OwnIds(s.queue, o)| <= |ActiveIds(s.tables, o)|
  {
    Within(OwnIds(s.queue, o), ActiveIds(s.tables, o));
  }

  /** The seconds of `n` passes with `w` leases each. */
  function Passes(c: Enforcement, w: nat, n: nat): nat {
    c.tick * w * n
  }

  lemma OnePass(c: Enforcement, w: nat, n: nat)
    ensures Passes(c, w, n + 1) == Passes(c, w, n) + c.tick * w
  {
  }

  lemma {:induction false} PassesGrow(c: Enforcement, w: nat, m: nat, n: nat)
    requires m <= n
    ensures Passes(c, w, m) <= Passes(c, w, n)
    decreases n - m
  {
    if m < n {
      PassesGrow(c, w, m, n - 1);
      OnePass(c, w, n - 1);
    }
  }

  function Waiting(x: Clocked, o: OrgId, c: Enforcement, w: nat): nat {
    c.tick * |OwnIds(x.site.queue, o)| + if x.ticker.pending then c.tick * w else 0
  }

  /**
   * `d` ticks have come in this week after its first second. What was used in it, what the
   * running pass will still use and what the waiting tick may start fit into two passes more:
   * one that was running when the week began and one whose tick had come before.
   */
  predicate Fits(x: Clocked, o: OrgId, c: Enforcement, w: nat, d: nat) {
    && c.tick * d < x.ticker.next - WeekStart(WeekOf(x.site.now))
    && WeekUsed(x.site.tables, o, x.site.now) + Waiting(x, o, c, w) <= Passes(c, w, d + 2)
  }

  ghost predicate Paced(x: Clocked, o: OrgId, c: Enforcement, w: nat) {
    && x.site.now < x.ticker.next <= x.site.now + c.tick
    && |OwnIds(x.site.queue, o)| <= w
    && exists d: nat :: Fits(x, o, c, w, d)
  }

  /** At most `w` leases, in whatever way that is ensured. */
  ghost predicate Sound(x: Clocked, o: OrgId, w: nat) {
    QueueTrue(x.site) && NoFutureWeeks(x.site) && |ActiveIds(x.site.tables, o)| <= w
  }

  lemma Fraction(c: Enforcement, w: nat, n: nat)
    requires n <= w
    ensures c.tick * n <= c.tick * w
  {
  }

  lemma SameWeekWait(x: Clocked, until: int, o: OrgId, c: Enforcement, w: nat)
    requires c.tick > 0 && Sound(x, o, w) && Paced(x, o, c, w) && May(x, Wait(until))
    requires WeekOf(until) == WeekOf(x.site.now)
    ensures Paced(Then(x, Wait(until), c), o, c, w)
  {
    var y := Then(x, Wait(until), c);
    var d: nat :| Fits(x, o, c, w, d);
    if until < x.ticker.next {
      assert Fits(y, o, c, w, d);
    } else {
      var n := DeliveredNext(x.ticker, until, c.tick);
      assert c.tick * (d + n) == c.tick * d + c.tick * n;
      OnePass(c, w, d + 2);
      PassesGrow(c, w, d + 3, d + n + 2);
      assert Fits(y, o, c, w, d + n);
    }
  }

  lemma NewWeekWait(x: Clocked, until: int, o: OrgId, c: Enforcement, w: nat)
    requires c.tick > 0 && Sound(x, o, w) && Paced(x, o, c, w) && May(x, Wait(until))
    requires WeekOf(until) != WeekOf(x.site.now)
    ensures Paced(Then(x, Wait(until), c), o, c, w)
  {
    var y := Then(x, Wait(until), c);
    WeeksGrow(x.site.now, until);
    InWeek(until);
    if until >= x.ticker.next {
      var n := DeliveredNext(x.ticker, until, c.tick);
    }
    assert (o, WeekOf(until)) !in x.site.tables.used;
    Fraction(c, w, |OwnIds(x.site.queue, o)|);
    OnePass(c, w, 0);
    OnePass(c, w, 1);
    assert Fits(y, o, c, w, 0);
  }

  lemma BeginIsPaced(x: Clocked, order: seq<nat>, o: OrgId, c: Enforcement, w: nat)
    requires c.tick > 0 && Sound(x, o, w) && Paced(x, o, c, w) && May(x, BeginPass(order))
    ensures Paced(Then(x, BeginPass(order), c), o, c, w)
  {
    var y := Then(x, BeginPass(order), c);
    var d: nat :| Fits(x, o, c, w, d);
    KeepsQueue(x.site, BeginPass(order), c);
    OwnAreActive(y.site, o);
    Fraction(c, w, |OwnIds(y.site.queue, o)|);
    assert OwnIds(x.site.queue, o) == {};
    assert Fits(y, o, c, w, d);
  }

  lemma OneLess(tick: nat, n: nat)
    requires n > 0
    ensures tick * n == tick + tick * (n - 1)
  {
  }

  lemma ReapIsPaced(x: Clocked, o: OrgId, c: Enforcement, w: nat)
    requires c.tick > 0 && Sound(x, o, w) && Paced(x, o, c, w) && May(x, ReapNext)
    ensures Paced(Then(x, ReapNext, c), o, c, w)
  {
    var y := Then(x, ReapNext, c);
    var d: nat :| Fits(x, o, c, w, d);
    OwnTail(x.site.queue, o);
    ReapMeter(x.site.tables, TurnOf(x.site, x.site.queue[0]), c, o, x.site.now);
    if x.site.queue[0].lease.org == o {
      OneLess(c.tick, |OwnIds(x.site.queue, o)|);
    }
    assert Fits(y, o, c, w, d);
  }

  lemma EventIsPaced(x: Clocked, e: Event, o: OrgId, c: Enforcement, w: nat)
    requires c.tick > 0 && Sound(x, o, w) && Paced(x, o, c, w) && May(x, e)
    ensures Paced(Then(x, e, c), o, c, w)
  {
    match e {
      case Wait(until) =>
        if WeekOf(until) == WeekOf(x.site.now) {
          SameWeekWait(x, until, o, c, w);
        } else {
          NewWeekWait(x, until, o, c, w);
        }
      case BeginPass(order) => BeginIsPaced(x, order, o, c, w);
      case ReapNext => ReapIsPaced(x, o, c, w);
      case Request(org, id, worker) =>
        var d: nat :| Fits(x, o, c, w, d);
        GrantMeter(x.site.tables, org, SettingsOf(x.site, org), c, x.site.now, id, worker, o);
        assert Fits(Then(x, e, c), o, c, w, d);
      case Configure(_, _) =>
        var d: nat :| Fits(x, o, c, w, d);
        assert Fits(Then(x, e, c), o, c, w, d);
    }
  }

  /** The passes with a turn in one week: those of its ticks, and two more. */
  function MaxPasses(tick: nat): nat
    requires tick > 0
  {
    3 + (WEEK - 2) / tick
  }

  lemma TicksOfAWeek(x: Clocked, c: Enforcement, d: nat)
    requires c.tick > 0 && x.ticker.next <= x.site.now + c.tick
    requires c.tick * d < x.ticker.next - WeekStart(WeekOf(x.site.now))
    ensures d + 2 <= MaxPasses(c.tick)
  {
    InWeek(x.site.now);
    var q := (WEEK - 2) / c.tick;
    assert c.tick * q <= WEEK - 2 < c.tick * q + c.tick;
    if d >= q + 2 {
      assert c.tick * d == c.tick * q + 2 * c.tick + c.tick * (d - q - 2);
      TimesIsNat(c.tick, d - q - 2);
      assert false;
    }
  }

  lemma {:induction false} RunIsPaced(x: Clocked, events: seq<Event>, o: OrgId, c: Enforcement, w: nat)
    requires c.tick > 0 && Sound(x, o, w) && Paced(x, o, c, w) && IsPaced(x, events, c)
    requires CeilingAtMost(SettingsOf(x.site, o), w)
    requires forall e :: e in events && e.Configure? && e.org == o ==> CeilingAtMost(e.settings, w)
    ensures Paced(PacedEnd(x, events, c), o, c, w)
    decreases |events|
  {
    if events != [] {
      assert events[0] in events;
      EventIsPaced(x, events[0], o, c, w);
      EventKeepsCeiling(x.site, events[0], o, c, w);
      KeepsQueue(x.site, events[0], c);
      KeepsWeeks(x.site, events[0], c);
      RunIsPaced(Then(x, events[0], c), events[1..], o, c, w);
    }
  }

  lemma StartIsPaced(settings: map<OrgId, Settings>, now: int, o: OrgId, c: Enforcement, w: nat)
    requires c.tick > 0
    ensures Paced(Started(settings, now, c), o, c, w) && Sound(Started(settings, now, c), o, w)
  {
    var x := Started(settings, now, c);
    InWeek(now);
    assert OwnIds([], o) == {} && ActiveIds(NO_TABLES, o) == {};
    assert Fits(x, o, c, w, 0);
  }

  /**
   * Whatever its cap, an organisation that may have at most `w` leases uses at most
   * `tick * w` seconds of a week for each of its ticks and two more.
   */
  lemma {:induction false} WeeklySecondsArePaced(
    settings: map<OrgId, Settings>, now: int, events: seq<Event>, o: OrgId, c: Enforcement, w: nat)
    requires c.tick > 0 && IsPaced(Started(settings, now, c), events, c)
    requires CeilingAtMost(SettingsOf(Opening(settings, now), o), w)
    requires forall e :: e in events && e.Configure? && e.org == o ==> CeilingAtMost(e.settings, w)
    ensures var s := PacedEnd(Started(settings, now, c), events, c).site;
            WeekUsed(s.tables, o, s.now) <= Passes(c, w, MaxPasses(c.tick))
  {
    StartIsPaced(settings, now, o, c, w);
    RunIsPaced(Started(settings, now, c), events, o, c, w);
    var x := PacedEnd(Started(settings, now, c), events, c);
    var d: nat :| Fits(x, o, c, w, d);
    TicksOfAWeek(x, c, d);
    PassesGrow(c, w, d + 2, MaxPasses(c.tick));
  }
}
