/**
 * The terms of a lease, from the plan it was granted on to its end, in every run: who is
 * granted one, which leases run out and when, and which are renewed instead.
 */
module Terms {
  import opened Options
  import opened Leases
  import opened LeaseRuns
  import LeasePass
  import opened ReaperPasses
  import Billing

  // ---------- who is granted a lease ----------

  /** The plan's workers, and the pinned ones if there are any, leave room for one more lease. */
  predicate HasRoom(set_: Settings, active: nat)
    requires set_.limits.Some?
  {
    && (set_.limits.value.maxWorkers.Some? ==> active < set_.limits.value.maxWorkers.value)
    && (set_.pinned.Some? ==> active < set_.pinned.value)
  }

  /** The plan has no weekly hours, or its week has seconds left. */
  predicate HasHours(l: Limits, c: Enforcement, used: nat) {
    var cap :=
      if l.weeklyHours == None then 0 else if c.capOverride > 0 then c.capOverride else 3600 * l.weeklyHours.value;
    cap == 0 || used < cap
  }

  /** A request is granted exactly if nothing stands against it, and else denied for the first thing that does. */
  lemma GrantedIff(s: Tables, org: OrgId, set_: Settings, c: Enforcement, now: int)
    ensures var d := Decide(s, org, set_, c, now);
            var active, used := |ActiveIds(s, org)|, WeekUsed(s, org, now);
            && (d == Denied(PoolPaused) <==> set_.paused)
            && (d == Denied(NoPlan) <==> !set_.paused && set_.limits == None)
            && (d == Denied(AtCeiling) <==> !set_.paused && set_.limits.Some? && !HasRoom(set_, active))
            && (d == Denied(OutOfHours) <==>
                && !set_.paused && set_.limits.Some? && HasRoom(set_, active)
                && !HasHours(set_.limits.value, c, used))
            && (d.Granted? <==>
                && !set_.paused && set_.limits.Some? && HasRoom(set_, active) && HasHours(set_.limits.value, c, used))
  {
  }

  /** The same from the tables a request is decided by: the plan is looked up in the catalogue. */
  lemma GrantedByTheTables(s: Tables, org: OrgId, r: Rules, c: Enforcement, now: int)
    ensures var d := Decide(s, org, SettingsIn(r, org), c, now);
            && (d.Granted? <==>
                && org !in r.paused && org in r.plans && r.plans[org] in r.catalogue
                && var l := r.catalogue[r.plans[org]];
                   && (l.maxWorkers.Some? ==> |ActiveIds(s, org)| < l.maxWorkers.value)
                   && (org in r.pinned ==> |ActiveIds(s, org)| < r.pinned[org])
                   && HasHours(l, c, WeekUsed(s, org, now)))
            && (d.Granted? ==>
                  var l := r.catalogue[r.plans[org]];
                  && d.autoRenew == (l.plan != Free)
                  && d.expires == if Seconds(l, c) > 0 then Some(now + Seconds(l, c)) else None)
  {
    GrantedIff(s, org, SettingsIn(r, org), c, now);
  }

  // ---------- which leases run out ----------

  /** Seconds a lease on this plan may last; 0 if for ever. */
  function Seconds(l: Limits, c: Enforcement): nat {
    if l.ttlMin == None then 0 else if c.ttlOverride > 0 then c.ttlOverride else 60 * l.ttlMin.value
  }

  /** The lease as it was granted, and it has run out only if it does not renew and is past its expiry. */
  predicate Fair(granted: Lease, s: Site, id: nat) {
    && id in s.tables.leases && SameLease(granted, s.tables.leases[id])
    && (s.tables.leases[id].ended == Some(Expired) ==>
          !granted.autoRenew && granted.expires.Some? && s.now > granted.expires.value)
  }

  lemma TurnIsFair(granted: Lease, s: Site, c: Enforcement, id: nat)
    requires QueueTrue(s) && Fair(granted, s, id) && s.queue != [] && s.queue[0].id == id
    ensures Fair(granted, After(s, ReapNext, c), id)
  {
    var t := TurnOf(s, s.queue[0]);
    LeasePass.ReapDecides(s.tables, t, c, Verdict(Add(s.tables, t.lease.org, t.now, c.tick), t, c));
  }

  lemma EventIsFair(granted: Lease, s: Site, e: Event, c: Enforcement, id: nat)
    requires QueueTrue(s) && Possible(s, e) && Fair(granted, s, id)
    ensures Fair(granted, After(s, e, c), id)
  {
    if e.ReapNext? && s.queue[0].id == id {
      TurnIsFair(granted, s, c, id);
    } else if e.ReapNext? {
      ReapTouchesOnlyItsLease(s.tables, TurnOf(s, s.queue[0]), c, id);
    }
  }

  lemma {:induction false} RunIsFair(granted: Lease, s: Site, events: seq<Event>, c: Enforcement, id: nat)
    requires QueueTrue(s) && IsRun(s, events, c) && Fair(granted, s, id)
    ensures Fair(granted, RunEnd(s, events, c), id)
    decreases |events|
  {
    if events != [] {
      EventIsFair(granted, s, events[0], c, id);
      KeepsQueue(s, events[0], c);
      RunIsFair(granted, After(s, events[0], c), events[1..], c, id);
    }
  }

  /** The request was granted in `s` on the plan `l`, and `events` followed. */
  ghost predicate GrantedOn(
    s: Site, org: OrgId, l: Limits, id: nat, worker: nat, events: seq<Event>, c: Enforcement)
  {
    && QueueTrue(s) && SettingsOf(s, org).limits == Some(l)
    && Possible(s, Request(org, id, worker))
    && id in After(s, Request(org, id, worker), c).tables.leases
    && IsRun(After(s, Request(org, id, worker), c), events, c)
  }

  ghost function Later(s: Site, org: OrgId, id: nat, worker: nat, events: seq<Event>, c: Enforcement): Site
    requires Possible(s, Request(org, id, worker)) && IsRun(After(s, Request(org, id, worker), c), events, c)
  {
    RunEnd(After(s, Request(org, id, worker), c), events, c)
  }

  lemma GrantedRow(s: Site, org: OrgId, l: Limits, id: nat, worker: nat, c: Enforcement)
    requires SettingsOf(s, org).limits == Some(l) && Possible(s, Request(org, id, worker))
    requires id in After(s, Request(org, id, worker), c).tables.leases
    ensures After(s, Request(org, id, worker), c).tables.leases[id]
            == Lease(org, worker, if Seconds(l, c) > 0 then Some(s.now + Seconds(l, c)) else None, l.plan != Free, None)
  {
  }

  lemma StillFair(s: Site, org: OrgId, l: Limits, id: nat, worker: nat, events: seq<Event>, c: Enforcement)
    returns (granted: Lease)
    requires GrantedOn(s, org, l, id, worker, events, c)
    ensures QueueTrue(Later(s, org, id, worker, events, c)) && Fair(granted, Later(s, org, id, worker, events, c), id)
    ensures granted
            == Lease(org, worker, if Seconds(l, c) > 0 then Some(s.now + Seconds(l, c)) else None, l.plan != Free, None)
  {
    var s1 := After(s, Request(org, id, worker), c);
    GrantedRow(s, org, l, id, worker, c);
    granted := s1.tables.leases[id];
    KeepsQueue(s, Request(org, id, worker), c);
    QueueStaysTrue(s1, events, c);
    RunIsFair(granted, s1, events, c, id);
  }

  /** Only a lease granted on the Free plan, with a time limit that has passed since, is ever ended as expired. */
  lemma ExpiredOnlyOnFree(
    s: Site, org: OrgId, l: Limits, id: nat, worker: nat, events: seq<Event>, c: Enforcement)
    requires GrantedOn(s, org, l, id, worker, events, c)
    ensures var s' := Later(s, org, id, worker, events, c);
            && id in s'.tables.leases
            && (s'.tables.leases[id].ended == Some(Expired) ==>
                  && l.plan == Free && l.ttlMin.Some?
                  && s'.now > s.now + if c.ttlOverride > 0 then c.ttlOverride else 60 * l.ttlMin.value)
  {
    var granted := StillFair(s, org, l, id, worker, events, c);
  }

  /**
   * A lease granted on the Free plan with a time limit does not outlive the first turn
   * after it, whatever plan its organisation has moved to, and keeps its expiry until then.
   */
  lemma FreeLeaseEnds(
    s: Site, org: OrgId, l: Limits, id: nat, worker: nat, events: seq<Event>, c: Enforcement)
    requires GrantedOn(s, org, l, id, worker, events, c)
    requires l.plan == Free && l.ttlMin.Some? && (c.ttlOverride > 0 || l.ttlMin.value > 0)
    ensures var s' := Later(s, org, id, worker, events, c);
            var limit := s.now + if c.ttlOverride > 0 then c.ttlOverride else 60 * l.ttlMin.value;
            && id in s'.tables.leases && s'.tables.leases[id].expires == Some(limit)
            && (s'.queue != [] && s'.queue[0].id == id && s'.now > limit ==>
                  var after := After(s', ReapNext, c).tables.leases;
                  id in after && after[id].ended.Some?)
  {
    var granted := StillFair(s, org, l, id, worker, events, c);
    var s' := Later(s, org, id, worker, events, c);
    if s'.queue != [] && s'.queue[0].id == id {
      var t := TurnOf(s', s'.queue[0]);
      LeasePass.ReapDecides(s'.tables, t, c, Verdict(Add(s'.tables, t.lease.org, t.now, c.tick), t, c));
    }
  }

  /**
   * A lease granted on any other plan is renewed by the turn that finds it past its expiry,
   * for as long as the plan of that time says, unless that turn ends it for another reason.
   */
  lemma PaidLeaseRenews(
    s: Site, org: OrgId, l: Limits, id: nat, worker: nat, events: seq<Event>, c: Enforcement)
    requires GrantedOn(s, org, l, id, worker, events, c) && l.plan != Free
    ensures var s' := Later(s, org, id, worker, events, c);
            && id in s'.tables.leases && s'.tables.leases[id].ended != Some(Expired)
            && (s'.queue != [] && s'.queue[0].id == id ==>
                  var before := s'.tables.leases[id];
                  var after := After(s', ReapNext, c).tables.leases;
                  var then_ := SettingsOf(s', org);
                  && id in after && after[id].ended != Some(Expired)
                  && (then_.deviceRevoked ==> after[id].ended == Some(Killed))
                  && (after[id].ended == None ==>
                        after[id].expires
                        == if before.expires == None || s'.now <= before.expires.value then before.expires
                           else Some(s'.now + if then_.limits == None then 0 else Seconds(then_.limits.value, c))))
  {
    var granted := StillFair(s, org, l, id, worker, events, c);
    var s' := Later(s, org, id, worker, events, c);
    if s'.queue != [] && s'.queue[0].id == id {
      var t := TurnOf(s', s'.queue[0]);
      LeasePass.ReapDecides(s'.tables, t, c, Verdict(Add(s'.tables, t.lease.org, t.now, c.tick), t, c));
    }
  }

  /**
   * Which leases a whole pass leaves active, from the tables: those of organisations
   * without a revoked device, whose week has not come to the cap of the plan the dunning
   * has left them, and that renew or are not past their expiry.
   */
  lemma SurvivesByTheTables(e: Estate, r: Rules, now: int, visits: seq<Visit>, k: nat, c: Enforcement)
    requires k < |visits|
    requires LeasePass.TrueTurns(e.tables, TurnsAt(visits, r.(plans := Billing.Dun(e.accounts, now).plans)))
    ensures var l, at := visits[k].entry.lease, visits[k].at;
            var plans := Billing.Dun(e.accounts, now).plans;
            var turns := TurnsAt(visits, r.(plans := plans));
            var hours := if l.org in plans && plans[l.org] in r.catalogue
                         then r.catalogue[plans[l.org]].weeklyHours else None;
            var cap := if hours == None then 0 else if c.capOverride > 0 then c.capOverride else 3600 * hours.value;
            Active(PassOver(e, r, now, visits, c).tables, visits[k].entry.id) <==>
              && l.org !in r.revokedDevices
              && (cap == 0 || LeasePass.SecondsAt(e.tables, turns, k, c) < cap)
              && (l.autoRenew || l.expires == None || at <= l.expires.value)
  {
    LeasePass.SurvivesIff(e.tables, TurnsAt(visits, r.(plans := Billing.Dun(e.accounts, now).plans)), k, c);
  }

  // ---------- when the week turns ----------

  /** The week turns on Mondays at midnight and at no other moment; day 0 was a Thursday. */
  lemma WeekTurnsOnMonday(now: int)
    ensures WeekOf(now) == WeekOf(now - 1) + if now % 86400 == 0 && now / 86400 % 7 == 4 then 1 else 0
  {
    var days, seconds := now / 86400, now % 86400;
    var weeks, day := days / 7, days % 7;
    assert now == 604800 * weeks + 86400 * day + seconds;
    var shifted := 86400 * (day + 3) + seconds;
    assert now + 259200 == 604800 * weeks + shifted;
  }
}
