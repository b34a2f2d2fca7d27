/**
 * A whole reaper pass: which leases survive it, how far it can push the weekly
 * seconds, and that what it does to one organisation does not depend on the others.
 */
module LeasePass {
  import opened Options
  import opened Sequences
  import opened Leases
  import opened LeaseRuns

  /** The turns are about distinct leases that are active, as their rows say. */
  ghost predicate TrueTurns(s: Tables, turns: seq<Turn>) {
    && (forall i :: 0 <= i < |turns| ==> Active(s, turns[i].id) && s.leases[turns[i].id] == turns[i].lease)
    && (forall i, j :: 0 <= i < j < |turns| ==> turns[i].id != turns[j].id)
  }

  /** How many of the turns are about leases of the organisation and fall in the week. */
  function TurnsOf(turns: seq<Turn>, org: OrgId, week: int): nat {
    if turns == [] then 0
    else
      var t := turns[|turns| - 1];
      TurnsOf(turns[..|turns| - 1], org, week) + if t.lease.org == org && WeekOf(t.now) == week then 1 else 0
  }

  function Seconds(s: Tables, org: OrgId, week: int): nat {
    if (org, week) in s.used then s.used[(org, week)] else 0
  }

  lemma ReapSeconds(s: Tables, t: Turn, c: Enforcement, org: OrgId, week: int)
    ensures Seconds(Reap(s, t, c), org, week)
            == Seconds(s, org, week) + if t.lease.org == org && WeekOf(t.now) == week then c.tick else 0
  {
  }

  /** Every lease of the snapshot costs its organisation one tick in the week of its turn, revoked or not. */
  lemma {:induction false} PassSeconds(s: Tables, turns: seq<Turn>, c: Enforcement, org: OrgId, week: int)
    ensures Seconds(Pass(s, turns, c), org, week) == Seconds(s, org, week) + c.tick * TurnsOf(turns, org, week)
    decreases |turns|
  {
    if turns != [] {
      var n := |turns| - 1;
      PassSeconds(s, turns[..n], c, org, week);
      var mid := Pass(s, turns[..n], c);
      ReapSeconds(mid, turns[n], c, org, week);
      TickMore(c.tick, TurnsOf(turns[..n], org, week));
    }
  }

  lemma TickMore(tick: nat, n: nat)
    ensures tick * (n + 1) == tick * n + tick
  {
  }

  /** A pass leaves alone the rows of leases it has no turn for. */
  lemma {:induction false} PassLeavesOthers(s: Tables, turns: seq<Turn>, c: Enforcement, id: nat)
    requires forall i :: 0 <= i < |turns| ==> turns[i].id != id
    ensures id in Pass(s, turns, c).leases <==> id in s.leases
    ensures id in s.leases ==> Pass(s, turns, c).leases[id] == s.leases[id]
    decreases |turns|
  {
    if turns != [] {
      var n := |turns| - 1;
      PassLeavesOthers(s, turns[..n], c, id);
      ReapTouchesOnlyItsLease(Pass(s, turns[..n], c), turns[n], c, id);
    }
  }

  /**
   * The seconds turn `k` finds in the counter of its week, from the state before the
   * pass: one tick more for each lease of the organisation visited in that week, up
   * to and including this one.
   */
  function SecondsAt(s: Tables, turns: seq<Turn>, k: nat, c: Enforcement): nat
    requires k < |turns|
  {
    var t := turns[k];
    Seconds(s, t.lease.org, WeekOf(t.now)) + c.tick * TurnsOf(turns[..k + 1], t.lease.org, WeekOf(t.now))
  }

  /**
   * Why turn `k` of the pass ends its lease, if it does, from the state before the
   * pass: a revoked device; else the cap reached by the seconds of its week; else an
   * expiry passed by a lease that does not renew.
   */
  function Fate(s: Tables, turns: seq<Turn>, k: nat, c: Enforcement): Option<EndReason>
    requires k < |turns|
  {
    var t := turns[k];
    var cap := CapSec(c, t.settings.limits);
    if t.settings.deviceRevoked then Some(Killed)
    else if cap > 0 && SecondsAt(s, turns, k, c) >= cap then Some(HoursCap)
    else if PastExpiry(t) && !t.lease.autoRenew then Some(Expired)
    else None
  }

  /** The verdict of turn `k`, reached in the middle of the pass, is its fate. */
  lemma TurnMeetsItsFate(s: Tables, turns: seq<Turn>, k: nat, c: Enforcement)
    requires k < |turns| && TrueTurns(s, turns)
    ensures var mid := Pass(s, turns[..k], c);
            var t := turns[k];
            && Active(mid, t.id) && mid.leases[t.id] == t.lease
            && Verdict(Add(mid, t.lease.org, t.now, c.tick), t, c) == Fate(s, turns, k, c)
  {
    var t := turns[k];
    var week := WeekOf(t.now);
    PassLeavesOthers(s, turns[..k], c, t.id);
    PassSeconds(s, turns[..k], c, t.lease.org, week);
    assert turns[..k + 1][..k] == turns[..k];
    TickMore(c.tick, TurnsOf(turns[..k], t.lease.org, week));
  }

  /** The row of a lease after its turn: ended with its fate, or renewed, or as it was. */
  function Outcome(t: Turn, fate: Option<EndReason>, c: Enforcement): Lease {
    if fate.Some? then t.lease.(ended := fate)
    else if PastExpiry(t) then t.lease.(expires := Some(t.now + TtlSec(c, t.settings.limits)))
    else t.lease
  }

  lemma ReapDecides(mid: Tables, t: Turn, c: Enforcement, fate: Option<EndReason>)
    requires Active(mid, t.id) && mid.leases[t.id] == t.lease
    requires Verdict(Add(mid, t.lease.org, t.now, c.tick), t, c) == fate
    ensures var leases := Reap(mid, t, c).leases; t.id in leases && leases[t.id] == Outcome(t, fate, c)
  {
  }

  lemma FateOfPrefix(s: Tables, turns: seq<Turn>, k: nat, n: nat, c: Enforcement)
    requires k < n <= |turns|
    ensures Fate(s, turns[..n], k, c) == Fate(s, turns, k, c)
  {
    TakeTake(turns, k + 1, n);
  }

  /**
   * What a pass does to each lease of its snapshot, in closed form: the row ends
   * with its fate, or stays active, with a new expiry only if it was past the old one
   * (and so, by its fate, renews). So no lease is left active that is expired and
   * non-renewable, in an organisation with a revoked device, or found at the cap.
   */
  lemma {:induction false} PassDecides(s: Tables, turns: seq<Turn>, k: nat, c: Enforcement)
    requires k < |turns| && TrueTurns(s, turns)
    ensures var t := turns[k];
            var fate := Fate(s, turns, k, c);
            var leases := Pass(s, turns, c).leases;
            t.id in leases && leases[t.id] == Outcome(t, fate, c)
    decreases |turns|
  {
    var n := |turns| - 1;
    if k == n {
      TurnMeetsItsFate(s, turns, k, c);
      ReapDecides(Pass(s, turns[..n], c), turns[n], c, Fate(s, turns, k, c));
    } else {
      FateOfPrefix(s, turns, k, n, c);
      PassDecides(s, turns[..n], k, c);
      ReapTouchesOnlyItsLease(Pass(s, turns[..n], c), turns[n], c, turns[k].id);
    }
  }

  /** Survival, as an operator would ask for it. */
  lemma SurvivesIff(s: Tables, turns: seq<Turn>, k: nat, c: Enforcement)
    requires k < |turns| && TrueTurns(s, turns)
    ensures var t := turns[k];
            var hours := if t.settings.limits == None then None else t.settings.limits.value.weeklyHours;
            var cap := if hours == None then 0 else if c.capOverride > 0 then c.capOverride else 3600 * hours.value;
            Active(Pass(s, turns, c), t.id) <==>
              && !t.settings.deviceRevoked
              && (cap == 0 || SecondsAt(s, turns, k, c) < cap)
              && (t.lease.autoRenew || t.lease.expires == None || t.now <= t.lease.expires.value)
  {
    PassDecides(s, turns, k, c);
  }

  /**
   * The same turn by turn, in runs where requests and changes of settings fall into
   * the pass: a lease that its turn finds with a revoked device, at the cap, or expired
   * without renewal is ended for that reason, and stays so for the rest of any run.
   */
  lemma EndedForGood(s: Site, events: seq<Event>, c: Enforcement)
    requires QueueTrue(s) && s.queue != [] && IsRun(After(s, ReapNext, c), events, c)
    ensures var t := TurnOf(s, s.queue[0]);
            var why := Verdict(Add(s.tables, t.lease.org, t.now, c.tick), t, c);
            var leases := RunEnd(After(s, ReapNext, c), events, c).tables.leases;
            t.id in leases && (why.Some? ==> leases[t.id].ended == why)
  {
    var t := TurnOf(s, s.queue[0]);
    ReapDecides(s.tables, t, c, Verdict(Add(s.tables, t.lease.org, t.now, c.tick), t, c));
    KeepsQueue(s, ReapNext, c);
    LeaseKeepsItsTerms(After(s, ReapNext, c), events, c, t.id);
  }

  /** The turns up to one of the organisation's own include at least that one. */
  lemma OwnTurnCounts(turns: seq<Turn>, k: nat, org: OrgId, week: int)
    requires k < |turns| && turns[k].lease.org == org && WeekOf(turns[k].now) == week
    ensures TurnsOf(turns[..k + 1], org, week) > 0
  {
    assert turns[..k + 1][..k] == turns[..k];
  }

  lemma AtLeastATick(tick: nat, n: nat)
    requires n > 0
    ensures tick * n >= tick
  {
  }

  /**
   * A pass over any organisations in which the counter of one crosses its cap with the
   * first of that organisation's turns ends every one of its leases, and still counts a
   * tick for each.
   */
  lemma {:induction false} CrossingEndsThemAll(
    s: Tables, turns: seq<Turn>, c: Enforcement, org: OrgId, cap: nat, week: int)
    requires TrueTurns(s, turns) && cap > 0
    requires forall i :: 0 <= i < |turns| && turns[i].lease.org == org ==>
               && WeekOf(turns[i].now) == week
               && turns[i].settings.limits.Some? && CapsAt(turns[i].settings.limits.value, c, cap)
    requires Seconds(s, org, week) + c.tick >= cap
    ensures Seconds(Pass(s, turns, c), org, week) == Seconds(s, org, week) + c.tick * TurnsOf(turns, org, week)
    ensures forall i :: 0 <= i < |turns| && turns[i].lease.org == org ==> !Active(Pass(s, turns, c), turns[i].id)
  {
    PassSeconds(s, turns, c, org, week);
    forall k | 0 <= k < |turns| && turns[k].lease.org == org ensures !Active(Pass(s, turns, c), turns[k].id) {
      SurvivesIff(s, turns, k, c);
      OwnTurnCounts(turns, k, org, week);
      AtLeastATick(c.tick, TurnsOf(turns[..k + 1], org, week));
    }
  }

  // ---------- tenants do not interfere ----------

  function OwnLedger(ledger: seq<Usage>, org: OrgId): seq<Usage> {
    if ledger == [] then []
    else OwnLedger(ledger[..|ledger| - 1], org)
         + if ledger[|ledger| - 1].org == org then [ledger[|ledger| - 1]] else []
  }

  function OwnTurns(turns: seq<Turn>, org: OrgId): seq<Turn> {
    if turns == [] then []
    else OwnTurns(turns[..|turns| - 1], org)
         + if turns[|turns| - 1].lease.org == org then [turns[|turns| - 1]] else []
  }

  /** The rows of one organisation. */
  function Slice(s: Tables, org: OrgId): Tables {
    Tables(
      map id | id in s.leases && s.leases[id].org == org :: s.leases[id],
      map w | w in s.workers && s.workers[w].org == org :: s.workers[w],
      map k | k in s.used && k.0 == org :: s.used[k],
      OwnLedger(s.ledger, org))
  }

  /** The rows a turn touches belong to its lease's organisation. */
  predicate Owned(s: Tables, t: Turn) {
    && (t.id in s.leases ==> s.leases[t.id].org == t.lease.org)
    && (t.lease.worker in s.workers ==> s.workers[t.lease.worker].org == t.lease.org)
  }

  lemma ReapKeepsOwned(s: Tables, t: Turn, c: Enforcement, u: Turn)
    requires Owned(s, t) && Owned(s, u)
    ensures Owned(Reap(s, t, c), u)
  {
  }

  lemma OwnPair(ledger: seq<Usage>, a: Usage, b: Usage, org: OrgId)
    requires a.org == b.org
    ensures OwnLedger(ledger + [a, b], org) == OwnLedger(ledger, org) + if a.org == org then [a, b] else []
  {
    var l2 := ledger + [a, b];
    assert l2[..|l2| - 1] == ledger + [a];
    assert (ledger + [a])[..|ledger|] == ledger;
  }

  lemma AddOwn(s: Tables, org: OrgId, now: int, seconds: nat, o: OrgId)
    ensures Slice(Add(s, org, now, seconds), o) == if org == o then Add(Slice(s, o), org, now, seconds) else Slice(s, o)
    ensures WeekUsed(Slice(s, o), o, now) == WeekUsed(s, o, now)
  {
  }

  lemma EndOwn(s: Tables, t: Turn, why: EndReason, o: OrgId)
    requires Owned(s, t)
    ensures Slice(End(s, t.id, why), o) == if t.lease.org == o then End(Slice(s, o), t.id, why) else Slice(s, o)
  {
    assert t.lease.org == o ==> Slice(End(s, t.id, why), o).leases == End(Slice(s, o), t.id, why).leases;
    assert t.lease.org != o ==> Slice(End(s, t.id, why), o).leases == Slice(s, o).leases;
  }

  lemma HaltOwn(s: Tables, t: Turn, why: EndReason, o: OrgId)
    requires Owned(s, t)
    ensures Slice(Halt(s, t.lease.worker, why), o)
            == if t.lease.org == o then Halt(Slice(s, o), t.lease.worker, why) else Slice(s, o)
  {
    var w := t.lease.worker;
    assert t.lease.org == o ==> Slice(Halt(s, w, why), o).workers == Halt(Slice(s, o), w, why).workers;
    assert t.lease.org != o ==> Slice(Halt(s, w, why), o).workers == Slice(s, o).workers;
  }

  lemma NoteOwn(s: Tables, a: Usage, b: Usage, o: OrgId)
    requires a.org == b.org
    ensures Slice(s.(ledger := s.ledger + [a, b]), o)
            == if a.org == o then Slice(s, o).(ledger := Slice(s, o).ledger + [a, b]) else Slice(s, o)
  {
    OwnPair(s.ledger, a, b, o);
  }

  lemma RevokeOwn(s: Tables, t: Turn, why: EndReason, o: OrgId)
    requires Owned(s, t)
    ensures Slice(Revoke(s, t.id, t.lease, why), o)
            == if t.lease.org == o then Revoke(Slice(s, o), t.id, t.lease, why) else Slice(s, o)
  {
    var s1 := End(s, t.id, why);
    EndOwn(s, t, why, o);
    HaltOwn(s1, t, why, o);
    NoteOwn(Halt(s1, t.lease.worker, why),
            Usage(t.lease.org, t.id, LeaseExpired), Usage(t.lease.org, t.id, WorkerStopped), o);
  }

  lemma RenewOwn(s: Tables, t: Turn, until: int, o: OrgId)
    requires Owned(s, t)
    ensures Slice(Renew(s, t.id, until), o) == if t.lease.org == o then Renew(Slice(s, o), t.id, until) else Slice(s, o)
  {
  }

  lemma ReapOwn(s: Tables, t: Turn, c: Enforcement, o: OrgId)
    requires Owned(s, t)
    ensures Slice(Reap(s, t, c), o) == if t.lease.org == o then Reap(Slice(s, o), t, c) else Slice(s, o)
  {
    var s1 := Add(s, t.lease.org, t.now, c.tick);
    AddOwn(s, t.lease.org, t.now, c.tick, o);
    AddOwn(s1, t.lease.org, t.now, 0, o);
    var v := Verdict(s1, t, c);
    if v.Some? {
      RevokeOwn(s1, t, v.value, o);
    } else if PastExpiry(t) {
      RenewOwn(s1, t, t.now + TtlSec(c, t.settings.limits), o);
    }
  }

  lemma {:induction false} PassKeepsOwned(s: Tables, turns: seq<Turn>, c: Enforcement, u: Turn)
    requires Owned(s, u) && forall i :: 0 <= i < |turns| ==> Owned(s, turns[i])
    ensures Owned(Pass(s, turns, c), u)
    decreases |turns|
  {
    if turns != [] {
      var n := |turns| - 1;
      PassKeepsOwned(s, turns[..n], c, u);
      PassKeepsOwned(s, turns[..n], c, turns[n]);
      ReapKeepsOwned(Pass(s, turns[..n], c), turns[n], c, u);
    }
  }

  lemma PassMore(s: Tables, turns: seq<Turn>, t: Turn, c: Enforcement)
    ensures Pass(s, turns + [t], c) == Reap(Pass(s, turns, c), t, c)
    ensures turns + [] == turns
  {
    InitOfSnoc(turns, t);
  }

  /**
   * For any snapshot mixing organisations in any order, what the pass leaves of one
   * organisation (leases, workers, counters, usage events) is what a pass over its
   * own leases alone would leave.
   */
  lemma {:induction false} TenantsDoNotInterfere(s: Tables, turns: seq<Turn>, c: Enforcement, o: OrgId)
    requires forall i :: 0 <= i < |turns| ==> Owned(s, turns[i])
    ensures Slice(Pass(s, turns, c), o) == Pass(Slice(s, o), OwnTurns(turns, o), c)
    decreases |turns|
  {
    if turns != [] {
      var n := |turns| - 1;
      TenantsDoNotInterfere(s, turns[..n], c, o);
      PassKeepsOwned(s, turns[..n], c, turns[n]);
      ReapOwn(Pass(s, turns[..n], c), turns[n], c, o);
      PassMore(Slice(s, o), OwnTurns(turns[..n], o), turns[n], c);
    }
  }
}
