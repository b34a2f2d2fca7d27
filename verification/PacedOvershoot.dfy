/**
 * When the weekly bound is reached by passes that start on ticks: exactly when the ticks
 * of the cap fit into the passes a week can hold. The run that reaches it uses few leases
 * first and all of them at the end, grants again what has expired, and begins with a pass
 * and a waiting tick from the week before.
 */
module PacedOvershoot {
  import opened Options
  import opened Sequences
  import opened Leases
  import opened LeaseRuns
  import opened Overshoot
  import opened Pacing

  // ---------- building paced runs ----------

  /** A paced run from `x` to `y` in which nobody changes a setting. */
  ghost predicate Leads(x: Clocked, events: seq<Event>, y: Clocked, c: Enforcement)
    requires c.tick > 0
  {
    IsPaced(x, events, c) && PacedEnd(x, events, c) == y && forall e :: e in events ==> !e.Configure?
  }

  lemma Stay(x: Clocked, c: Enforcement)
    requires c.tick > 0
    ensures Leads(x, [], x, c)
  {
  }

  lemma First(x: Clocked, e: Event, events: seq<Event>, y: Clocked, c: Enforcement)
    requires c.tick > 0 && May(x, e) && !e.Configure? && Leads(Then(x, e, c), events, y, c)
    ensures Leads(x, [e] + events, y, c)
  {
    assert ([e] + events)[1..] == events;
  }

  lemma {:induction false} Join(x: Clocked, first: seq<Event>, y: Clocked, rest: seq<Event>, z: Clocked, c: Enforcement)
    requires c.tick > 0 && Leads(x, first, y, c) && Leads(y, rest, z, c)
    ensures Leads(x, first + rest, z, c)
    decreases |first|
  {
    if first == [] {
      assert first + rest == rest;
    } else {
      var x' := Then(x, first[0], c);
      assert first[0] in first && forall e :: e in first[1..] ==> e in first;
      Join(x', first[1..], y, rest, z, c);
      First(x, first[0], first[1..] + rest, z, c);
      HeadFirst(first, rest);
    }
  }

  // ---------- one round: fill up, begin, wait, take every turn ----------

  /** Settings under which requests are only refused at the ceiling and at the cap. */
  predicate Plenty(set_: Settings, c: Enforcement, w: nat, cap: nat) {
    && !set_.paused && set_.pinned == None && !set_.deviceRevoked
    && set_.limits.Some? && Allows(set_.limits.value, c, w, cap)
    && cap > 0
  }

  /** The organisation is alone, and the names of its leases and workers are below `n`. */
  ghost predicate Alone(s: Site, o: OrgId, set_: Settings, n: nat) {
    && s.settings == map[o := set_] && QueueTrue(s)
    && (forall id: nat :: id in s.tables.leases ==> id < n && s.tables.leases[id].org == o)
    && (forall id: nat :: id in s.tables.workers ==> id < n)
  }

  /** At rest with at most `k` active leases. */
  ghost predicate Resting(s: Site, o: OrgId, set_: Settings, n: nat, k: nat) {
    Alone(s, o, set_, n) && s.queue == [] && |ActiveIds(s.tables, o)| <= k
  }

  lemma GrantOne(s: Site, o: OrgId, set_: Settings, c: Enforcement, n: nat, k: nat, w: nat, cap: nat)
    requires Plenty(set_, c, w, cap) && Resting(s, o, set_, n, k) && |ActiveIds(s.tables, o)| < k <= w
    requires WeekUsed(s.tables, o, s.now) < cap
    ensures Possible(s, Request(o, n, n)) && Resting(After(s, Request(o, n, n), c), o, set_, n + 1, k)
    ensures var r := After(s, Request(o, n, n), c);
            r.now == s.now && r.tables.used == s.tables.used
            && |ActiveIds(r.tables, o)| == |ActiveIds(s.tables, o)| + 1
  {
    GrantMeter(s.tables, o, set_, c, s.now, n, n, o);
    assert n !in ActiveIds(s.tables, o);
    KeepsQueue(s, Request(o, n, n), c);
  }

  /** Requests until `k` leases are active. */
  lemma {:induction false} Fill(x: Clocked, o: OrgId, set_: Settings, c: Enforcement, n: nat, k: nat, w: nat, cap: nat)
    returns (events: seq<Event>, y: Clocked, m: nat)
    requires c.tick > 0 && Plenty(set_, c, w, cap) && k <= w
    requires Resting(x.site, o, set_, n, k) && WeekUsed(x.site.tables, o, x.site.now) < cap
    ensures Leads(x, events, y, c) && Resting(y.site, o, set_, m, k) && |ActiveIds(y.site.tables, o)| == k
    ensures y.site.now == x.site.now && y.site.tables.used == x.site.tables.used && y.ticker == x.ticker
    decreases k - |ActiveIds(x.site.tables, o)|
  {
    if |ActiveIds(x.site.tables, o)| == k {
      Stay(x, c);
      return [], x, n;
    }
    GrantOne(x.site, o, set_, c, n, k, w, cap);
    events, y, m := Fill(Then(x, Request(o, n, n), c), o, set_, c, n + 1, k, w, cap);
    First(x, Request(o, n, n), events, y, c);
    events := [Request(o, n, n)] + events;
  }

  lemma {:induction false} Listing(a: set<nat>) returns (order: seq<nat>)
    ensures Distinct(order) && |order| == |a| && forall id :: id in order <==> id in a
    decreases |a|
  {
    order := [];
    if id: nat :| id in a {
      var rest := Listing(a - {id});
      order := [id] + rest;
    }
  }

  /** The snapshot holds the organisation's active leases. */
  lemma BeginAll(x: Clocked, o: OrgId, set_: Settings, c: Enforcement, n: nat, k: nat) returns (e: Event)
    requires c.tick > 0 && Resting(x.site, o, set_, n, k) && |ActiveIds(x.site.tables, o)| == k && x.ticker.pending
    ensures May(x, e) && !e.Configure?
    ensures var y := Then(x, e, c);
            && y == Clocked(x.site.(queue := y.site.queue), x.ticker.(pending := false))
            && |y.site.queue| == k && Alone(y.site, o, set_, n)
  {
    var order := Listing(ActiveIds(x.site.tables, o));
    e := BeginPass(order);
    forall i | 0 <= i < |order| ensures Active(x.site.tables, order[i]) {
      assert order[i] in order;
    }
    KeepsQueue(x.site, e, c);
  }

  /** A turn costs a tick, and ends a lease at most. */
  lemma OneTurn(s: Site, o: OrgId, set_: Settings, c: Enforcement, n: nat)
    requires Alone(s, o, set_, n) && s.queue != []
    ensures var r := After(s, ReapNext, c);
            && Alone(r, o, set_, n) && r.now == s.now && r.queue == s.queue[1..]
            && WeekUsed(r.tables, o, r.now) == WeekUsed(s.tables, o, s.now) + c.tick
            && |ActiveIds(r.tables, o)| <= |ActiveIds(s.tables, o)|
  {
    ReapMeter(s.tables, TurnOf(s, s.queue[0]), c, o, s.now);
    Within(ActiveIds(After(s, ReapNext, c).tables, o), ActiveIds(s.tables, o));
    KeepsQueue(s, ReapNext, c);
  }

  lemma {:induction false} Turns(x: Clocked, o: OrgId, set_: Settings, c: Enforcement, n: nat)
    returns (events: seq<Event>, y: Clocked)
    requires c.tick > 0 && Alone(x.site, o, set_, n)
    ensures Leads(x, events, y, c) && y.site.now == x.site.now && y.ticker == x.ticker
    ensures Resting(y.site, o, set_, n, |ActiveIds(x.site.tables, o)|)
    ensures WeekUsed(y.site.tables, o, y.site.now)
            == WeekUsed(x.site.tables, o, x.site.now) + c.tick * |x.site.queue|
    decreases |x.site.queue|
  {
    if x.site.queue == [] {
      Stay(x, c);
      return [], x;
    }
    OneTurn(x.site, o, set_, c, n);
    events, y := Turns(Then(x, ReapNext, c), o, set_, c, n);
    First(x, ReapNext, events, y, c);
    events := [ReapNext] + events;
    OneLess(c.tick, |x.site.queue|);
  }

  /** A round with `k` leases that begins now, on the waiting tick, and takes its turns at `pause`. */
  lemma Round(x: Clocked, o: OrgId, set_: Settings, c: Enforcement, n: nat, k: nat, w: nat, cap: nat, pause: int)
    returns (events: seq<Event>, y: Clocked, m: nat)
    requires c.tick > 0 && Plenty(set_, c, w, cap) && k <= w && x.ticker.pending && pause >= x.site.now
    requires Resting(x.site, o, set_, n, k) && WeekUsed(x.site.tables, o, x.site.now) < cap
    ensures Leads(x, events, y, c) && Resting(y.site, o, set_, m, k) && y.site.now == pause
    ensures y.ticker == Delivered(x.ticker.(pending := false), pause, c.tick)
    ensures WeekUsed(y.site.tables, o, pause) == WeekUsed(x.site.tables, o, pause) + c.tick * k
  {
    var a, x1;
    a, x1, m := Fill(x, o, set_, c, n, k, w, cap);
    var begin := BeginAll(x1, o, set_, c, m, k);
    var x2 := Then(x1, begin, c);
    var x3 := Then(x2, Wait(pause), c);
    var b;
    b, y := Turns(x3, o, set_, c, m);
    First(x2, Wait(pause), b, y, c);
    First(x1, begin, [Wait(pause)] + b, y, c);
    Join(x, a, x1, [begin] + ([Wait(pause)] + b), y, c);
    events := a + ([begin] + ([Wait(pause)] + b));
  }

  // ---------- how many leases each round uses ----------

  /** With `left` ticks to use up in `r` rounds of `w` at most: as few as possible now. */
  function Share(left: nat, r: nat, w: nat): nat {
    if left <= w * (r - 1) then 0 else left - w * (r - 1)
  }

  lemma ShareFits(left: nat, r: nat, w: nat)
    requires r > 0 && left <= w * r
    ensures Share(left, r, w) <= w && Share(left, r, w) <= left
    ensures left - Share(left, r, w) <= w * (r - 1)
    ensures r > 1 ==> Share(left, r, w) <= Share(left - Share(left, r, w), r - 1, w)
    ensures r == 1 ==> left == Share(left, r, w)
  {
    assert w * r == w * (r - 1) + w;
    if r > 1 {
      assert w * (r - 1) == w * (r - 2) + w;
    }
  }

  /** The leases the next round uses; after the last one all `w`. */
  function NextShare(left: nat, r: nat, w: nat): nat {
    if r == 0 then w else Share(left, r, w)
  }

  // ---------- the rounds of a week ----------

  /** Between two rounds of the week of `week`: the next tick will come in it, if one is needed. */
  ghost predicate Ready(
    x: Clocked, o: OrgId, set_: Settings, c: Enforcement, n: nat, left: nat, r: nat, w: nat, week: int)
  {
    && Resting(x.site, o, set_, n, NextShare(left, r, w)) && left <= w * r
    && WeekOf(x.site.now) == week && x.site.now < x.ticker.next
    && x.ticker.next + c.tick * r < WeekStart(week) + WEEK
  }

  lemma TickComes(x: Clocked, c: Enforcement, week: int, r: nat)
    requires c.tick > 0 && WeekOf(x.site.now) == week && x.site.now < x.ticker.next
    requires x.ticker.next + c.tick * r < WeekStart(week) + WEEK
    ensures var y := Then(x, Wait(x.ticker.next), c);
            && May(x, Wait(x.ticker.next)) && WeekOf(y.site.now) == week
            && y == Clocked(x.site.(now := x.ticker.next), Ticker(x.ticker.next + c.tick, true))
  {
    InWeek(x.site.now);
    TimesIsNat(c.tick, r);
    WeekIs(week, x.ticker.next);
    assert (x.ticker.next - x.ticker.next) / c.tick == 0;
  }

  /** A round on the next tick. */
  lemma TickRound(
    x: Clocked, o: OrgId, set_: Settings, c: Enforcement, n: nat, k: nat, r: nat, w: nat, cap: nat, week: int)
    returns (events: seq<Event>, y: Clocked, m: nat)
    requires c.tick > 0 && Plenty(set_, c, w, cap) && k <= w && Resting(x.site, o, set_, n, k)
    requires WeekOf(x.site.now) == week && x.site.now < x.ticker.next
    requires x.ticker.next + c.tick * r < WeekStart(week) + WEEK
    requires WeekUsed(x.site.tables, o, x.site.now) < cap
    ensures Leads(x, events, y, c) && Resting(y.site, o, set_, m, k) && WeekOf(y.site.now) == week
    ensures y.site.now < y.ticker.next == x.ticker.next + c.tick
    ensures WeekUsed(y.site.tables, o, y.site.now) == WeekUsed(x.site.tables, o, x.site.now) + c.tick * k
  {
    TickComes(x, c, week, r);
    var x1 := Then(x, Wait(x.ticker.next), c);
    events, y, m := Round(x1, o, set_, c, n, k, w, cap, x1.site.now);
    First(x, Wait(x.ticker.next), events, y, c);
    events := [Wait(x.ticker.next)] + events;
  }

  lemma Split(tick: nat, left: nat, k: nat)
    requires k <= left
    ensures tick * left == tick * k + tick * (left - k)
  {
  }

  /** The remaining rounds, one on each tick, and a last one with all workers. */
  lemma {:induction false} Rounds(
    x: Clocked, o: OrgId, set_: Settings, c: Enforcement, n: nat, left: nat, r: nat, w: nat, cap: nat, week: int)
    returns (events: seq<Event>, y: Clocked)
    requires c.tick > 0 && Plenty(set_, c, w, cap) && Ready(x, o, set_, c, n, left, r, w, week)
    requires WeekUsed(x.site.tables, o, x.site.now) + c.tick * left < cap
    ensures Leads(x, events, y, c)
    ensures WeekUsed(y.site.tables, o, y.site.now)
            == WeekUsed(x.site.tables, o, x.site.now) + c.tick * left + c.tick * w
    decreases r
  {
    TimesIsNat(c.tick, left);
    var m;
    if r == 0 {
      events, y, m := TickRound(x, o, set_, c, n, w, 0, w, cap, week);
      return;
    }
    var k := Share(left, r, w);
    ShareFits(left, r, w);
    Split(c.tick, left, k);
    TimesIsNat(c.tick, left - k);
    var a, x1;
    a, x1, m := TickRound(x, o, set_, c, n, k, r, w, cap, week);
    OneLess(c.tick, r);
    var b;
    b, y := Rounds(x1, o, set_, c, m, left - k, r - 1, w, cap, week);
    Join(x, a, x1, b, y, c);
    events := a + b;
  }

  // ---------- the two passes from the week before ----------

  /** What the first two of `r + 2` rounds use, and what is left for the others. */
  lemma TwoShares(left: nat, r: nat, w: nat, tick: nat, cap: nat) returns (k1: nat, k2: nat)
    requires left <= w * (r + 2) && tick * left < cap
    ensures k1 <= k2 <= w && k1 + k2 <= left && left - k1 - k2 <= w * r
    ensures k2 <= NextShare(left - k1 - k2, r, w)
    ensures tick * k1 < cap && tick * k1 + tick * k2 == tick * (k1 + k2)
    ensures tick * (k1 + k2) + tick * (left - k1 - k2) == tick * left
  {
    k1 := Share(left, r + 2, w);
    ShareFits(left, r + 2, w);
    k2 := Share(left - k1, r + 1, w);
    ShareFits(left - k1, r + 1, w);
    Split(tick, left, k1);
    TimesIsNat(tick, left - k1);
    Split(tick, k1 + k2, k1);
    Split(tick, left, k1 + k2);
  }

  /**
   * A pass is running and a tick waits when the week begins: its turns, and a second pass,
   * fall into its first second.
   */
  lemma TwoRoundsAtOnce(
    x: Clocked, o: OrgId, set_: Settings, c: Enforcement, k1: nat, k2: nat, w: nat, cap: nat, week: int)
    returns (events: seq<Event>, y: Clocked, n: nat)
    requires c.tick > 0 && Plenty(set_, c, w, cap) && k1 <= k2 <= w && c.tick * k1 < cap
    requires Resting(x.site, o, set_, 0, 0) && x.site.tables.used == map[] && x.ticker.pending
    requires x.site.now <= WeekStart(week)
    requires x.ticker.next <= WeekStart(week)
    requires Delivered(x.ticker, WeekStart(week), c.tick).next == WeekStart(week) + 1
    ensures Leads(x, events, y, c) && Resting(y.site, o, set_, n, k2)
    ensures y.site.now == WeekStart(week) && y.ticker.next == WeekStart(week) + 1
    ensures WeekUsed(y.site.tables, o, y.site.now) == c.tick * k1 + c.tick * k2
  {
    var a, x1, m;
    a, x1, m := Round(x, o, set_, c, 0, k1, w, cap, WeekStart(week));
    var b;
    b, y, n := Round(x1, o, set_, c, m, k2, w, cap, WeekStart(week));
    Join(x, a, x1, b, y, c);
    events := a + b;
  }

  /** The first tick after the start. */
  lemma FirstTick(o: OrgId, set_: Settings, c: Enforcement, week: int) returns (e: Event, x: Clocked)
    requires c.tick > 0
    ensures var start := Started(map[o := set_], WeekStart(week) + 1 - 3 * c.tick, c);
            May(start, e) && !e.Configure? && x == Then(start, e, c)
    ensures Resting(x.site, o, set_, 0, 0) && x.site.tables.used == map[] && x.ticker.pending
    ensures x.site.now <= WeekStart(week) && x.ticker.next <= WeekStart(week)
    ensures Delivered(x.ticker, WeekStart(week), c.tick).next == WeekStart(week) + 1
  {
    var at := WeekStart(week) + 1 - 2 * c.tick;
    e := Wait(at);
    var start := Started(map[o := set_], at - c.tick, c);
    assert (at - at) / c.tick == 0;
    x := Then(start, e, c);
    assert ActiveIds(NO_TABLES, o) == {};
    assert x.ticker == Ticker(WeekStart(week) + 1 - c.tick, true);
    var gone := WeekStart(week) - x.ticker.next;
    assert gone == c.tick - 1 && gone / c.tick == 0;
  }

  /** After the two rounds: the rest of the week. */
  lemma FromFirstTick(
    x: Clocked, o: OrgId, set_: Settings, c: Enforcement, left: nat, r: nat, w: nat, cap: nat, week: int)
    returns (events: seq<Event>, y: Clocked)
    requires c.tick > 0 && Plenty(set_, c, w, cap)
    requires left <= w * (r + 2) && c.tick * left < cap && c.tick * r <= WEEK - 2
    requires Resting(x.site, o, set_, 0, 0) && x.site.tables.used == map[] && x.ticker.pending
    requires x.site.now <= WeekStart(week)
    requires x.ticker.next <= WeekStart(week)
    requires Delivered(x.ticker, WeekStart(week), c.tick).next == WeekStart(week) + 1
    ensures Leads(x, events, y, c)
    ensures WeekUsed(y.site.tables, o, y.site.now) == c.tick * left + c.tick * w
  {
    var k1, k2 := TwoShares(left, r, w, c.tick, cap);
    var a, x1, n := TwoRoundsAtOnce(x, o, set_, c, k1, k2, w, cap, week);
    WeekIs(week, WeekStart(week));
    var b;
    b, y := Rounds(x1, o, set_, c, n, left - k1 - k2, r, w, cap, week);
    Join(x, a, x1, b, y, c);
    events := a + b;
  }

  /** The ticks of the cap, and those of a week, as numbers. */
  lemma Room(cap: nat, tick: nat, w: nat) returns (left: nat, r: nat)
    requires tick > 0 && cap > 0 && (cap - 1) / tick <= w * (MaxPasses(tick) - 1)
    ensures left <= w * (r + 2) && tick * left == Below(cap, tick) < cap && tick * r <= WEEK - 2
  {
    left, r := (cap - 1) / tick, (WEEK - 2) / tick;
    BelowIsLargest(cap, tick, 0);
    assert r + 2 == MaxPasses(tick) - 1;
    assert tick * r <= WEEK - 2;
  }

  /** The run that reaches the bound. */
  lemma Reaches(o: OrgId, set_: Settings, c: Enforcement, w: nat, cap: nat, week: int)
    returns (events: seq<Event>, y: Clocked)
    requires c.tick > 0 && Plenty(set_, c, w, cap)
    requires (cap - 1) / c.tick <= w * (MaxPasses(c.tick) - 1)
    ensures Leads(Started(map[o := set_], WeekStart(week) + 1 - 3 * c.tick, c), events, y, c)
    ensures WeekUsed(y.site.tables, o, y.site.now) == Below(cap, c.tick) + c.tick * w
  {
    var left, r := Room(cap, c.tick, w);
    var e, x := FirstTick(o, set_, c, week);
    events, y := FromFirstTick(x, o, set_, c, left, r, w, cap, week);
    First(Started(map[o := set_], WeekStart(week) + 1 - 3 * c.tick, c), e, events, y, c);
    events := [e] + events;
  }

  // ---------- exactly when ----------

  /** Some paced run, in which the organisation stays on the plan, ends at the bound. */
  ghost predicate BoundReached(o: OrgId, set_: Settings, c: Enforcement, w: nat, cap: nat)
    requires c.tick > 0 && cap > 0
  {
    exists now: int, events: seq<Event> :: EndsAtBound(o, set_, c, w, cap, now, events)
  }

  ghost predicate EndsAtBound(o: OrgId, set_: Settings, c: Enforcement, w: nat, cap: nat, now: int, events: seq<Event>)
    requires c.tick > 0 && cap > 0
  {
    var start := Started(map[o := set_], now, c);
    && IsPaced(start, events, c)
    && (forall e :: e in events ==> SamePlan(e, o, c, w, cap))
    && var s := PacedEnd(start, events, c).site;
       WeekUsed(s.tables, o, s.now) == Below(cap, c.tick) + c.tick * w
  }

  lemma PlanIsCeiling(set_: Settings, w: nat)
    requires set_.limits.Some? && set_.limits.value.maxWorkers == Some(w)
    ensures CeilingAtMost(set_, w)
  {
  }

  lemma NoRoom(c: Enforcement, w: nat, q: nat)
    requires c.tick > 0 && c.tick * q + c.tick * w <= Passes(c, w, MaxPasses(c.tick))
    ensures q <= w * (MaxPasses(c.tick) - 1)
  {
    var most := w * (MaxPasses(c.tick) - 1);
    assert Passes(c, w, MaxPasses(c.tick)) == c.tick * (most + w);
    Cancel(c.tick, q + w, most + w);
  }

  lemma Cancel(tick: nat, a: nat, b: nat)
    requires tick > 0 && tick * a <= tick * b
    ensures a <= b
  {
  }

  /**
   * The bound on the overshoot is reached, for any time to live and renewing or not, if
   * and only if the ticks below the cap fit into all passes of a week but one, with all
   * workers. At thirty seconds a tick that is so for every cap of up to a week per worker.
   */
  lemma BoundReachedIff(o: OrgId, set_: Settings, c: Enforcement, w: nat, cap: nat)
    requires c.tick > 0 && Plenty(set_, c, w, cap)
    ensures BoundReached(o, set_, c, w, cap) <==> (cap - 1) / c.tick <= w * (MaxPasses(c.tick) - 1)
  {
    if (cap - 1) / c.tick <= w * (MaxPasses(c.tick) - 1) {
      var events, y := Reaches(o, set_, c, w, cap, 0);
      assert EndsAtBound(o, set_, c, w, cap, WeekStart(0) + 1 - 3 * c.tick, events);
    }
    if BoundReached(o, set_, c, w, cap) {
      var now: int, events: seq<Event> :| EndsAtBound(o, set_, c, w, cap, now, events);
      forall e | e in events && e.Configure? && e.org == o ensures CeilingAtMost(e.settings, w) {
        assert SamePlan(e, o, c, w, cap);
      }
      PlanIsCeiling(set_, w);
      WeeklySecondsArePaced(map[o := set_], now, events, o, c, w);
      NoRoom(c, w, (cap - 1) / c.tick);
    }
  }
}
