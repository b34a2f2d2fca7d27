/**
 * Worker leases and their enforcement: what granting a lease and one turn of the
 * reaper do to the tables. A pass of the reaper is a fold of turns over the
 * snapshot of active leases it starts with.
 */
module Leases {
  import opened Options

  type OrgId = string

  const WEEK := 604800
  const MONDAY_OFFSET := 259200 // the epoch was a Thursday; weeks start on Monday

  /** The number of the week (UTC) a moment falls in. */
  function WeekOf(now: int): int {
    (now + MONDAY_OFFSET) / WEEK
  }

  datatype Plan = Free | Pro | Team | Enterprise

  /** A row of the plan catalogue; None means unlimited. */
  datatype Limits = Limits(plan: Plan, maxWorkers: Option<nat>, ttlMin: Option<nat>, weeklyHours: Option<nat>)

  /** Overrides are 0 when not set. */
  datatype Enforcement = Enforcement(ttlOverride: nat, capOverride: nat, tick: nat)

  /** 0: the plan's leases do not expire. */
  function TtlSec(c: Enforcement, pl: Option<Limits>): nat {
    if pl == None || pl.value.ttlMin == None then 0
    else if c.ttlOverride > 0 then c.ttlOverride
    else pl.value.ttlMin.value * 60
  }

  /** 0: the plan has no weekly cap. */
  function CapSec(c: Enforcement, pl: Option<Limits>): nat {
    if pl == None || pl.value.weeklyHours == None then 0
    else if c.capOverride > 0 then c.capOverride
    else pl.value.weeklyHours.value * 3600
  }

  /** What enforcement looks up for an organisation. */
  datatype Settings = Settings(
    limits: Option<Limits>,
    paused: bool,
    pinned: Option<nat>, // Some: pinned mode, with the summed concurrency of the enabled workers
    deviceRevoked: bool
  )

  datatype EndReason = Expired | Killed | HoursCap

  datatype Lease = Lease(org: OrgId, worker: nat, expires: Option<int>, autoRenew: bool, ended: Option<EndReason>)

  datatype WorkerStatus = Working | Paused | Stopped

  datatype WorkerRow = WorkerRow(org: OrgId, status: WorkerStatus)

  datatype UsageKind = WorkerStarted | LeaseIssued | LeaseExpired | WorkerStopped

  datatype Usage = Usage(org: OrgId, lease: nat, kind: UsageKind)

  datatype Tables = Tables(
    leases: map<nat, Lease>,
    workers: map<nat, WorkerRow>,
    used: map<(OrgId, int), nat>, // worker seconds by organisation and week
    ledger: seq<Usage>            // append-only
  )

  predicate Active(s: Tables, id: nat) {
    id in s.leases && s.leases[id].ended == None
  }

  function ActiveIds(s: Tables, org: OrgId): set<nat> {
    set id | id in s.leases && s.leases[id].ended == None && s.leases[id].org == org
  }

  function WeekUsed(s: Tables, org: OrgId, now: int): nat {
    if (org, WeekOf(now)) in s.used then s.used[(org, WeekOf(now))] else 0
  }

  // ---------- granting ----------

  /** The ceiling on simultaneous leases: in pinned mode never above the plan's. */
  function Ceiling(set_: Settings): Option<nat>
    requires set_.limits.Some?
  {
    var plan := set_.limits.value.maxWorkers;
    if set_.pinned.Some? && (plan == None || set_.pinned.value < plan.value) then set_.pinned else plan
  }

  datatype Denial = PoolPaused | NoPlan | AtCeiling | OutOfHours

  datatype Decision = Denied(why: Denial) | Granted(expires: Option<int>, autoRenew: bool)

  function Decide(s: Tables, org: OrgId, set_: Settings, c: Enforcement, now: int): Decision {
    if set_.paused then Denied(PoolPaused)
    else if set_.limits == None then Denied(NoPlan)
    else if Ceiling(set_).Some? && |ActiveIds(s, org)| >= Ceiling(set_).value then Denied(AtCeiling)
    else if CapSec(c, set_.limits) > 0 && WeekUsed(s, org, now) >= CapSec(c, set_.limits) then Denied(OutOfHours)
    else
      var ttl := TtlSec(c, set_.limits);
      Granted(if ttl > 0 then Some(now + ttl) else None, set_.limits.value.plan != Free)
  }

  /** A granted lease, its worker and the two usage events. `id` and `worker` are fresh. */
  function Issue(s: Tables, org: OrgId, d: Decision, id: nat, worker: nat): Tables
    requires d.Granted?
  {
    Tables(
      s.leases[id := Lease(org, worker, d.expires, d.autoRenew, None)],
      s.workers[worker := WorkerRow(org, Working)],
      s.used,
      s.ledger + [Usage(org, id, WorkerStarted), Usage(org, id, LeaseIssued)])
  }

  function TryGrant(s: Tables, org: OrgId, set_: Settings, c: Enforcement, now: int, id: nat, worker: nat): Tables {
    var d := Decide(s, org, set_, c, now);
    if d.Granted? then Issue(s, org, d, id, worker) else s
  }

  // ---------- reaping ----------

  function Add(s: Tables, org: OrgId, now: int, seconds: nat): Tables {
    s.(used := s.used[(org, WeekOf(now)) := WeekUsed(s, org, now) + seconds])
  }

  /** UPDATE lease SET ended WHERE it has not ended. */
  function End(s: Tables, id: nat, why: EndReason): Tables {
    if Active(s, id) then s.(leases := s.leases[id := s.leases[id].(ended := Some(why))]) else s
  }

  /** An expired lease pauses its worker (unless stopped already); any other end stops it. */
  function Halt(s: Tables, worker: nat, why: EndReason): Tables {
    if worker !in s.workers || (why == Expired && s.workers[worker].status == Stopped) then s
    else s.(workers := s.workers[worker := s.workers[worker].(status := if why == Expired then Paused else Stopped)])
  }

  function Revoke(s: Tables, id: nat, l: Lease, why: EndReason): Tables {
    var s' := Halt(End(s, id, why), l.worker, why);
    s'.(ledger := s'.ledger + [Usage(l.org, id, LeaseExpired), Usage(l.org, id, WorkerStopped)])
  }

  function Renew(s: Tables, id: nat, until: int): Tables {
    if id in s.leases then s.(leases := s.leases[id := s.leases[id].(expires := Some(until))]) else s
  }

  /** One lease of the snapshot, with what its turn looks up and the time it is. */
  datatype Turn = Turn(id: nat, lease: Lease, settings: Settings, now: int)

  predicate OverCap(s: Tables, t: Turn, c: Enforcement) {
    var cap := CapSec(c, t.settings.limits);
    cap > 0 && WeekUsed(s, t.lease.org, t.now) >= cap
  }

  predicate PastExpiry(t: Turn) {
    t.lease.expires.Some? && t.now > t.lease.expires.value
  }

  /** Why the turn revokes its lease, if it does; `s` has the turn's seconds already. */
  function Verdict(s: Tables, t: Turn, c: Enforcement): Option<EndReason> {
    if t.settings.deviceRevoked then Some(Killed)
    else if OverCap(s, t, c) then Some(HoursCap)
    else if PastExpiry(t) && !t.lease.autoRenew then Some(Expired)
    else None
  }

  function Reap(s: Tables, t: Turn, c: Enforcement): Tables {
    var s1 := Add(s, t.lease.org, t.now, c.tick);
    var v := Verdict(s1, t, c);
    if v.Some? then Revoke(s1, t.id, t.lease, v.value)
    else if PastExpiry(t) then Renew(s1, t.id, t.now + TtlSec(c, t.settings.limits))
    else s1
  }

  /** A pass: the turns one after the other. */
  function Pass(s: Tables, turns: seq<Turn>, c: Enforcement): Tables {
    if turns == [] then s else Reap(Pass(s, turns[..|turns| - 1], c), turns[|turns| - 1], c)
  }
}
