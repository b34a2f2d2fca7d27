/**
 * The enforcement loop as it is written: a request for a lease walks through the
 * checks, and `ReapOnce` runs the dunning and then visits the active leases one by
 * one, with four ways to leave a turn. Both are proved against `Leases` and `Billing`.
 */
module Enforcer {
  import opened Options
  import opened Sequences
  import opened Leases
  import LeaseRuns
  import opened ReaperPasses
  import Billing

  lemma {:induction false} PassOneMore(s: Tables, turns: seq<Turn>, i: nat, c: Enforcement)
    requires i < |turns|
    ensures Pass(s, turns[..i + 1], c) == Reap(Pass(s, turns[..i], c), turns[i], c)
  {
    TakeTake(turns, i, i + 1);
  }

  class Db {
    var plans: map<OrgId, Plan>
    var subs: seq<Billing.Sub>
    var catalogue: map<Plan, Limits>
    var paused: set<OrgId>            // orgs whose pool is paused
    var pinned: map<OrgId, nat>       // orgs in pinned mode, with the concurrency of their workers
    var revokedDevices: set<OrgId>    // orgs with a revoked device
    var leases: map<nat, Lease>
    var workers: map<nat, WorkerRow>
    var used: map<(OrgId, int), nat>
    var ledger: seq<Usage>

    constructor ()
    {
      plans, subs, catalogue, paused, pinned, revokedDevices := map[], [], map[], {}, map[], {};
      leases, workers, used, ledger := map[], map[], map[], [];
    }

    ghost function View(): Tables
      reads this
    {
      Tables(leases, workers, used, ledger)
    }

    ghost function Accounts(): Billing.Accounts
      reads this
    {
      Billing.Accounts(plans, subs)
    }

    ghost function All(): Estate
      reads this
    {
      Estate(Accounts(), View())
    }

    function Looked(): Rules
      reads this
    {
      Rules(plans, catalogue, paused, pinned, revokedDevices)
    }

    function GetPlanLimits(org: OrgId): Option<Limits>
      reads this
    {
      LimitsIn(Looked(), org)
    }

    function WeekSecondsUsed(org: OrgId, now: int): (n: nat)
      reads this
      ensures n == WeekUsed(View(), org, now)
    {
      if (org, WeekOf(now)) in used then used[(org, WeekOf(now))] else 0
    }

    function ActiveLeaseCount(org: OrgId): (n: nat)
      reads this
      ensures n == |ActiveIds(View(), org)|
    {
      ghost var ids := ActiveIds(View(), org);
      var mine := set id | id in leases && leases[id].ended == None && leases[id].org == org;
      assert mine == ids;
      |mine|
    }

    method AddWorkerSeconds(org: OrgId, now: int, seconds: nat)
      modifies this`used
      ensures View() == Add(old(View()), org, now, seconds)
    {
      used := used[(org, WeekOf(now)) := WeekSecondsUsed(org, now) + seconds];
    }

    method RecordUsage(org: OrgId, lease: nat, kind: UsageKind)
      modifies this`ledger
      ensures ledger == old(ledger) + [Usage(org, lease, kind)]
    {
      ledger := ledger + [Usage(org, lease, kind)];
    }

    method GrantLease(org: OrgId, id: nat, worker: nat, ttl: nat, autoRenew: bool, now: int)
      modifies this`leases, this`workers
      ensures leases
              == old(leases)[id := Lease(org, worker, if ttl > 0 then Some(now + ttl) else None, autoRenew, None)]
      ensures workers == old(workers)[worker := WorkerRow(org, Working)]
    {
      workers := workers[worker := WorkerRow(org, Working)];
      var expires := None;
      if ttl > 0 {
        expires := Some(now + ttl);
      }
      leases := leases[id := Lease(org, worker, expires, autoRenew, None)];
    }

    method EndLease(id: nat, why: EndReason)
      modifies this`leases
      ensures View() == End(old(View()), id, why)
    {
      if id in leases && leases[id].ended == None {
        leases := leases[id := leases[id].(ended := Some(why))];
      }
    }

    method RenewLease(id: nat, until: int)
      modifies this`leases
      ensures View() == Renew(old(View()), id, until)
    {
      if id in leases {
        leases := leases[id := leases[id].(expires := Some(until))];
      }
    }

    method PauseWorker(worker: nat)
      modifies this`workers
      ensures View() == Halt(old(View()), worker, Expired)
    {
      if worker in workers && workers[worker].status != Stopped {
        workers := workers[worker := workers[worker].(status := Paused)];
      }
    }

    method StopWorker(worker: nat, ghost why: EndReason)
      requires why != Expired
      modifies this`workers
      ensures View() == Halt(old(View()), worker, why)
    {
      if worker in workers {
        workers := workers[worker := workers[worker].(status := Stopped)];
      }
    }

    /** The active leases, in whatever order the database returns them. */
    method ActiveLeases() returns (rows: seq<LeaseRuns.Entry>)
      ensures IsSnapshot(View(), rows)
    {
      rows := [];
      var left: set<nat> := set id | id in leases && leases[id].ended == None;
      while left != {}
        invariant forall id :: id in left ==> id in leases && leases[id].ended == None
        invariant forall i :: 0 <= i < |rows| ==>
                    && rows[i].id in leases && leases[rows[i].id] == rows[i].lease && rows[i].lease.ended == None
                    && rows[i].id !in left
        invariant forall i, j :: 0 <= i < j < |rows| ==> rows[i].id != rows[j].id
        invariant forall id :: id in leases && leases[id].ended == None ==>
                    id in left || exists i :: 0 <= i < |rows| && rows[i].id == id
        decreases |left|
      {
        var id: nat :| id in left;
        var before := rows;
        left := left - {id};
        rows := rows + [LeaseRuns.Entry(id, leases[id])];
        forall other | other in leases && leases[other].ended == None && other !in left
          ensures exists i :: 0 <= i < |rows| && rows[i].id == other
        {
          if other == id {
            assert rows[|before|].id == other;
          } else {
            var i :| 0 <= i < |before| && before[i].id == other;
            assert rows[i].id == other;
          }
        }
      }
    }

    /** UPDATE subscription ... WHERE org_id; how many rows it changed. */
    method UpdateSubs(org: OrgId, ch: Billing.Change) returns (rows: nat)
      modifies this`subs
      ensures subs == Billing.Update(old(subs), org, ch)
      ensures rows > 0 <==> Billing.HasSub(old(subs), org)
    {
      rows := 0;
      for i := 0 to |subs|
        invariant rows > 0 <==> exists k :: 0 <= k < i && subs[k].org == org
      {
        if subs[i].org == org {
          rows := rows + 1;
        }
      }
      subs := Billing.Update(subs, org, ch);
    }

    /** Sets the plan of the organisation and of its subscription, inserting one if there is none. */
    method SetPlans(org: OrgId, plan: Plan, ch: Billing.Change)
      requires ch.plan == Some(plan) && ch.status == Billing.SubActive
      modifies this`plans, this`subs
      ensures Accounts() == Billing.Upsert(old(Accounts()), org, plan, ch)
    {
      if org !in plans {
        return; // the insert would violate the foreign key
      }
      plans := plans[org := plan];
      var rows := UpdateSubs(org, ch);
      if rows == 0 {
        assert forall i :: 0 <= i < |subs| ==> subs[i] == old(subs)[i];
        subs := subs + [Billing.Sub(org, plan, Billing.SubActive, ch.customer, None)];
      }
    }

    method DowngradeToFree(org: OrgId)
      modifies this`plans, this`subs
      ensures Accounts() == Billing.Downgrade(old(Accounts()), org)
    {
      if org in plans {
        plans := plans[org := Free];
      }
      subs := Billing.Update(subs, org, Billing.Change(Some(Free), Billing.SubCanceled, "", Some(None)));
    }
  }

  /** The billing endpoints. */
  class Api {
    const db: Db
    const graceSetting: int

    constructor (db: Db, graceSetting: int)
      ensures this.db == db && this.graceSetting == graceSetting
    {
      this.db := db;
      this.graceSetting := graceSetting;
    }

    /** A Stripe event whose signature has been checked. */
    method Webhook(h: Billing.Hook, now: int)
      modifies db`plans, db`subs
      ensures db.Accounts() == Billing.OnHook(old(db.Accounts()), h, now, graceSetting)
    {
      var org := h.metadataOrg;
      if org == "" {
        org := h.clientReference;
      }
      if org == "" {
        org := Billing.OrgByCustomer(db.subs, h.customer);
      }
      if org == "" {
        return;
      }
      match h.kind {
        case CheckoutCompleted(field) =>
          if field == Billing.UnknownPlan {
            return;
          }
          var plan := if field == Billing.NoPlanField then Pro else field.plan;
          db.SetPlans(org, plan, Billing.Change(Some(plan), Billing.SubActive, h.customer, Some(None)));
        case InvoiceFailed =>
          var grace := graceSetting;
          if grace <= 0 {
            grace := 7 * 24 * 3600;
          }
          var _ := db.UpdateSubs(org, Billing.Change(None, Billing.PastDue, "", Some(Some(now + grace))));
        case InvoicePaid =>
          var _ := db.UpdateSubs(org, Billing.Change(None, Billing.SubActive, "", Some(None)));
        case SubscriptionDeleted =>
          db.DowngradeToFree(org);
        case OtherHook =>
      }
    }

    method SetPlan(org: OrgId, plan: Plan)
      modifies db`plans, db`subs
      ensures db.Accounts() == Billing.SetPlan(old(db.Accounts()), org, plan)
    {
      db.SetPlans(org, plan, Billing.Change(Some(plan), Billing.SubActive, "", None));
    }
  }

  class Server {
    const db: Db
    const cfg: Enforcement

    constructor (db: Db, cfg: Enforcement)
      ensures this.db == db && this.cfg == cfg
    {
      this.db := db;
      this.cfg := cfg;
    }

    /** The checks in order; the first that fails is the reason of the denial. `id` and `worker` are new. */
    method TryGrant(org: OrgId, now: int, id: nat, worker: nat) returns (d: Decision)
      requires id !in db.leases && worker !in db.workers
      modifies db`leases, db`workers, db`ledger
      ensures d == Decide(old(db.View()), org, SettingsIn(db.Looked(), org), cfg, now)
      ensures db.View() == Leases.TryGrant(old(db.View()), org, SettingsIn(db.Looked(), org), cfg, now, id, worker)
    {
      if org in db.paused {
        return Denied(PoolPaused);
      }
      var pl := db.GetPlanLimits(org);
      if pl == None {
        return Denied(NoPlan);
      }
      var ceiling: int := -1;
      if pl.value.maxWorkers.Some? {
        ceiling := pl.value.maxWorkers.value;
      }
      if org in db.pinned {
        var pc := db.pinned[org];
        if ceiling < 0 || pc < ceiling {
          ceiling := pc;
        }
      }
      if ceiling >= 0 {
        var n := db.ActiveLeaseCount(org);
        if n >= ceiling {
          return Denied(AtCeiling);
        }
      }
      var cap := CapSec(cfg, pl);
      if cap > 0 {
        var used := db.WeekSecondsUsed(org, now);
        if used >= cap {
          return Denied(OutOfHours);
        }
      }
      var ttl := TtlSec(cfg, pl);
      var autoRenew := pl.value.plan != Free;
      db.GrantLease(org, id, worker, ttl, autoRenew, now);
      db.RecordUsage(org, id, WorkerStarted);
      db.RecordUsage(org, id, LeaseIssued);
      return Granted(if ttl > 0 then Some(now + ttl) else None, autoRenew);
    }

    method RevokeLease(id: nat, l: Lease, why: EndReason)
      modifies db`leases, db`workers, db`ledger
      ensures db.View() == Revoke(old(db.View()), id, l, why)
    {
      db.EndLease(id, why);
      if why == Expired {
        db.PauseWorker(l.worker);
      } else {
        db.StopWorker(l.worker, why);
      }
      db.RecordUsage(l.org, id, LeaseExpired);
      db.RecordUsage(l.org, id, WorkerStopped);
    }

    /** The body of the loop over leases: each `return` is a `continue` there. */
    method ReapLease(id: nat, l: Lease, now: int)
      modifies db`leases, db`workers, db`used, db`ledger
      ensures db.View() == Reap(old(db.View()), Turn(id, l, SettingsIn(db.Looked(), l.org), now), cfg)
    {
      db.AddWorkerSeconds(l.org, now, cfg.tick);
      if l.org in db.revokedDevices {
        RevokeLease(id, l, Killed);
        return;
      }
      var pl := db.GetPlanLimits(l.org);
      var cap := CapSec(cfg, pl);
      if cap > 0 {
        var used := db.WeekSecondsUsed(l.org, now);
        if used >= cap {
          RevokeLease(id, l, HoursCap);
          return;
        }
      }
      if l.expires.Some? && now > l.expires.value {
        if l.autoRenew {
          db.RenewLease(id, now + TtlSec(cfg, pl));
        } else {
          RevokeLease(id, l, Expired);
        }
      }
    }

    method DunAll(now: int)
      modifies db`plans, db`subs
      ensures db.Accounts() == Billing.Dun(old(db.Accounts()), now)
    {
      var orgs := Billing.PastDueExpired(db.subs, now);
      ghost var before := db.Accounts();
      for i := 0 to |orgs|
        invariant db.Accounts() == Billing.DowngradeAll(before, orgs[..i])
      {
        db.DowngradeToFree(orgs[i]);
        assert orgs[..i + 1][..i] == orgs[..i];
      }
      assert orgs[..|orgs|] == orgs;
    }

    method VisitAll(rows: seq<LeaseRuns.Entry>, clock: nat -> int)
      modifies db`leases, db`workers, db`used, db`ledger
      ensures db.View() == Pass(old(db.View()), TurnsAt(Visits(rows, clock), old(db.Looked())), cfg)
    {
      ghost var looked, before := db.Looked(), db.View();
      ghost var turns := TurnsAt(Visits(rows, clock), looked);
      for i := 0 to |rows|
        invariant db.Looked() == looked
        invariant db.View() == Pass(before, turns[..i], cfg)
      {
        ghost var t := turns[i];
        assert t == Turn(rows[i].id, rows[i].lease, SettingsIn(looked, rows[i].lease.org), clock(i));
        PassOneMore(before, turns, i, cfg);
        ReapLease(rows[i].id, rows[i].lease, clock(i));
      }
      assert turns[..|rows|] == turns;
    }

    /**
     * One pass; `clock(i)` is the time of the i-th turn. `rows` is returned for the
     * contract: the active leases, one turn for each, with the plans after the dunning.
     * It leaves each organisation as a pass over that organisation alone would.
     */
    method ReapOnce(now: int, clock: nat -> int) returns (rows: seq<LeaseRuns.Entry>)
      modifies db`plans, db`subs, db`leases, db`workers, db`used, db`ledger
      ensures IsSnapshot(old(db.View()), rows)
      ensures db.All() == PassOver(old(db.All()), old(db.Looked()), now, Visits(rows, clock), cfg)
      ensures LeaseRuns.WorkersAgree(old(db.View())) ==>
                forall o :: OwnEstate(db.All(), o)
                            == PassOver(OwnEstate(old(db.All()), o), OwnRules(old(db.Looked()), o), now,
                                        OwnVisits(Visits(rows, clock), o), cfg)
    {
      ghost var before, looked := db.All(), db.Looked();
      DunAll(now);
      rows := db.ActiveLeases();
      VisitAll(rows, clock);
      if LeaseRuns.WorkersAgree(before.tables) {
        SnapshotVisitsOwned(before.tables, rows, clock);
        forall o
          ensures OwnEstate(db.All(), o)
                  == PassOver(OwnEstate(before, o), OwnRules(looked, o), now, OwnVisits(Visits(rows, clock), o), cfg)
        {
          PassByItself(before, looked, now, Visits(rows, clock), cfg, o);
        }
      }
    }
  }
}
