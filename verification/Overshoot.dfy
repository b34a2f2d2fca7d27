/**
 * How far beyond its weekly cap an organisation can get. Every counter is a multiple of
 * the tick, so the bound is the largest multiple below the cap plus one tick for each
 * worker of the plan.
 */
module Overshoot {
  import opened Options
  import opened Leases
  import opened LeaseRuns

  // ---------- the bound ----------

  /** The largest multiple of the tick below the cap. */
  function Below(cap: nat, tick: nat): nat
    requires cap > 0 && tick > 0
  {
    tick * ((cap - 1) / tick)
  }

  lemma BelowIsLargest(cap: nat, tick: nat, n: int)
    requires cap > 0 && tick > 0
    ensures Below(cap, tick) < cap
    ensures tick * n < cap ==> tick * n <= Below(cap, tick)
  {
    var q := (cap - 1) / tick;
    assert tick * q <= cap - 1 < tick * q + tick;
    if n > q {
      assert tick * n == tick * (n - q - 1) + tick * q + tick;
      TimesIsNat(tick, n - q - 1);
    } else {
      assert tick * q == tick * n + tick * (q - n);
      TimesIsNat(tick, q - n);
    }
  }

  lemma TimesIsNat(a: nat, b: nat)
    ensures a * b >= 0
  {
  }

  ghost predicate IsTicks(seconds: nat, tick: nat) {
    exists n: nat :: seconds == tick * n
  }

  lemma OneMoreTick(seconds: nat, tick: nat)
    requires IsTicks(seconds, tick)
    ensures IsTicks(seconds + tick, tick)
  {
    var n: nat :| seconds == tick * n;
    assert seconds + tick == tick * (n + 1);
  }

  ghost predicate Ticked(s: Tables, tick: nat) {
    forall k :: k in s.used ==> IsTicks(s.used[k], tick)
  }

  lemma ReapTicks(s: Tables, t: Turn, c: Enforcement)
    requires Ticked(s, c.tick)
    ensures Ticked(Reap(s, t, c), c.tick)
  {
    var key := (t.lease.org, WeekOf(t.now));
    assert 0 == c.tick * 0;
    OneMoreTick(WeekUsed(s, t.lease.org, t.now), c.tick);
    var s' := Reap(s, t, c);
    forall k | k in s'.used ensures IsTicks(s'.used[k], c.tick) {
      if k != key {
        assert k in s.used && s'.used[k] == s.used[k];
      }
    }
  }

  lemma {:induction false} RunTicks(s: Site, events: seq<Event>, c: Enforcement)
    requires Ticked(s.tables, c.tick) && IsRun(s, events, c)
    ensures Ticked(RunEnd(s, events, c).tables, c.tick)
    decreases |events|
  {
    if events != [] {
      if events[0].ReapNext? {
        ReapTicks(s.tables, TurnOf(s, s.queue[0]), c);
      }
      RunTicks(After(s, events[0], c), events[1..], c);
    }
  }

  lemma TicksWithin(used: nat, active: nat, w: nat, cap: nat, tick: nat)
    requires cap > 0 && tick > 0 && IsTicks(used, tick) && active <= w
    requires used < cap || used + tick * active <= cap - 1 + tick * w
    ensures used <= Below(cap, tick) + tick * w
    ensures used >= cap ==> used + tick * active <= Below(cap, tick) + tick * w
  {
    var n: nat :| used == tick * n;
    TimesIsNat(tick, w);
    TimesIsNat(tick, active);
    if used < cap {
      BelowIsLargest(cap, tick, n);
    } else {
      assert tick * (n + active - w) == used + tick * active - tick * w;
      BelowIsLargest(cap, tick, n + active - w);
    }
  }

  /**
   * Weekly cap, sharply: while an organisation stays on a plan with `w` workers and a
   * cap, the seconds of its week never exceed the largest multiple of the tick below the
   * cap plus `tick * w`.
   */
  lemma {:induction false} WeeklyOvershootIsSharp(
    settings: map<OrgId, Settings>, now: int, events: seq<Event>, o: OrgId, c: Enforcement, w: nat, cap: nat)
    requires cap > 0 && c.tick > 0 && IsRun(Opening(settings, now), events, c)
    requires OnPlan(Opening(settings, now), o, c, w, cap)
    requires forall e :: e in events ==> SamePlan(e, o, c, w, cap)
    ensures var s := RunEnd(Opening(settings, now), events, c);
            && WeekUsed(s.tables, o, s.now) <= Below(cap, c.tick) + c.tick * w
            && (WeekUsed(s.tables, o, s.now) >= cap ==>
                  WeekUsed(s.tables, o, s.now) + c.tick * |ActiveIds(s.tables, o)| <= Below(cap, c.tick) + c.tick * w)
  {
    WeeklyOvershootIsBounded(settings, now, events, o, c, w, cap);
    RunTicks(Opening(settings, now), events, c);
    var s := RunEnd(Opening(settings, now), events, c);
    assert 0 == c.tick * 0;
    TicksWithin(WeekUsed(s.tables, o, s.now), |ActiveIds(s.tables, o)|, w, cap, c.tick);
  }
}
