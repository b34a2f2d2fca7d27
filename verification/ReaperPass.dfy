/**
 * One whole pass of the reaper: the dunning, and then a turn for every active lease
 * with the settings that follow from the plans the dunning leaves. What it does to one
 * organisation depends on that organisation alone, and it is a run of `LeaseRuns`.
 */
module ReaperPasses {
  import opened Options
  import opened Sequences
  import opened Leases
  import LeaseRuns
  import opened LeasePass
  import Billing

  /** What enforcement looks up, apart from the leases themselves. */
  datatype Rules = Rules(
    plans: map<OrgId, Plan>, catalogue: map<Plan, Limits>,
    paused: set<OrgId>, pinned: map<OrgId, nat>, revokedDevices: set<OrgId>)

  /** The catalogue row of the organisation's plan. */
  function LimitsIn(r: Rules, org: OrgId): Option<Limits> {
    if org in r.plans && r.plans[org] in r.catalogue then Some(r.catalogue[r.plans[org]]) else None
  }

  function SettingsIn(r: Rules, org: OrgId): Settings {
    Settings(LimitsIn(r, org), org in r.paused,
             if org in r.pinned then Some(r.pinned[org]) else None, org in r.revokedDevices)
  }

  /** A lease of the snapshot and the time of its turn. */
  datatype Visit = Visit(entry: LeaseRuns.Entry, at: int)

  function Visits(rows: seq<LeaseRuns.Entry>, clock: nat -> int): (visits: seq<Visit>)
    ensures |visits| == |rows|
    ensures forall i :: 0 <= i < |rows| ==> visits[i] == Visit(rows[i], clock(i))
  {
    seq(|rows|, i requires 0 <= i < |rows| => Visit(rows[i], clock(i)))
  }

  function TurnAt(v: Visit, r: Rules): Turn {
    Turn(v.entry.id, v.entry.lease, SettingsIn(r, v.entry.lease.org), v.at)
  }

  function TurnsAt(visits: seq<Visit>, r: Rules): (turns: seq<Turn>)
    ensures |turns| == |visits|
    ensures forall i :: 0 <= i < |visits| ==> turns[i] == TurnAt(visits[i], r)
  {
    seq(|visits|, i requires 0 <= i < |visits| => TurnAt(visits[i], r))
  }

  /** Everything a pass changes. */
  datatype Estate = Estate(accounts: Billing.Accounts, tables: Tables)

  /** A pass at `now`: the plans the turns look up are those after the dunning. */
  function PassOver(e: Estate, r: Rules, now: int, visits: seq<Visit>, c: Enforcement): Estate {
    var a := Billing.Dun(e.accounts, now);
    Estate(a, Pass(e.tables, TurnsAt(visits, r.(plans := a.plans)), c))
  }

  // ---------- one organisation's part ----------

  function OwnSubs(subs: seq<Billing.Sub>, o: OrgId): seq<Billing.Sub> {
    if subs == [] then []
    else OwnSubs(subs[..|subs| - 1], o) + if subs[|subs| - 1].org == o then [subs[|subs| - 1]] else []
  }

  function OwnVisits(visits: seq<Visit>, o: OrgId): seq<Visit> {
    if visits == [] then []
    else OwnVisits(visits[..|visits| - 1], o)
         + if visits[|visits| - 1].entry.lease.org == o then [visits[|visits| - 1]] else []
  }

  function OwnAccounts(a: Billing.Accounts, o: OrgId): Billing.Accounts {
    Billing.Accounts(map x | x in a.plans && x == o :: a.plans[x], OwnSubs(a.subs, o))
  }

  function OwnRules(r: Rules, o: OrgId): Rules {
    Rules(map x | x in r.plans && x == o :: r.plans[x], r.catalogue,
          r.paused * {o}, map x | x in r.pinned && x == o :: r.pinned[x], r.revokedDevices * {o})
  }

  function OwnEstate(e: Estate, o: OrgId): Estate {
    Estate(OwnAccounts(e.accounts, o), Slice(e.tables, o))
  }

  // ---------- dunning one organisation ----------

  lemma {:induction false} OwnRows(subs: seq<Billing.Sub>, o: OrgId, r: Billing.Sub)
    ensures r in OwnSubs(subs, o) <==> r in subs && r.org == o
    decreases |subs|
  {
    if subs != [] {
      OwnRows(subs[..|subs| - 1], o, r);
      assert subs == subs[..|subs| - 1] + [subs[|subs| - 1]];
    }
  }

  lemma ListedIff(subs: seq<Billing.Sub>, now: int, o: OrgId)
    ensures o in Billing.PastDueExpired(subs, now) <==> exists r :: r in subs && r.org == o && Billing.GraceOver(r, now)
  {
    Billing.ExpiredIff(subs, now, o);
    if r :| r in subs && r.org == o && Billing.GraceOver(r, now) {
      var i :| 0 <= i < |subs| && subs[i] == r;
    }
  }

  /** An organisation is listed or not by its own rows. */
  lemma ListedByItself(subs: seq<Billing.Sub>, now: int, o: OrgId)
    ensures o in Billing.PastDueExpired(subs, now) <==> o in Billing.PastDueExpired(OwnSubs(subs, o), now)
  {
    ListedIff(subs, now, o);
    ListedIff(OwnSubs(subs, o), now, o);
    forall r ensures r in OwnSubs(subs, o) <==> r in subs && r.org == o {
      OwnRows(subs, o, r);
    }
  }

  function Fallen(r: Billing.Sub): Billing.Sub {
    r.(plan := Free, status := Billing.SubCanceled, graceUntil := None)
  }

  /** If only the rows of listed organisations fall, the own rows of `o` all fall or all stay. */
  lemma {:induction false} OwnRowsFall(subs: seq<Billing.Sub>, d: seq<Billing.Sub>, o: OrgId, listed: bool)
    requires |d| == |subs|
    requires forall i :: 0 <= i < |d| ==>
               d[i].org == subs[i].org && (subs[i].org == o ==> d[i] == if listed then Fallen(subs[i]) else subs[i])
    ensures var own, ownD := OwnSubs(subs, o), OwnSubs(d, o);
            && |ownD| == |own|
            && forall i :: 0 <= i < |own| ==> own[i].org == o && ownD[i] == if listed then Fallen(own[i]) else own[i]
    decreases |subs|
  {
    if subs != [] {
      var n := |subs| - 1;
      OwnRowsFall(subs[..n], d[..n], o, listed);
    }
  }

  lemma DunsByItself(a: Billing.Accounts, now: int, o: OrgId)
    ensures OwnAccounts(Billing.Dun(a, now), o) == Billing.Dun(OwnAccounts(a, o), now)
  {
    var orgs := Billing.PastDueExpired(a.subs, now);
    var own := OwnAccounts(a, o);
    var ownOrgs := Billing.PastDueExpired(own.subs, now);
    ListedByItself(a.subs, now, o);
    Billing.DowngradeAllRows(a, orgs);
    Billing.DowngradeAllRows(own, ownOrgs);
    OwnRowsFall(a.subs, Billing.Dun(a, now).subs, o, o in orgs);
    OwnPlans(Billing.Dun(a, now).plans, Billing.Dun(own, now).plans, o);
    assert OwnSubs(Billing.Dun(a, now).subs, o) == Billing.Dun(own, now).subs;
  }

  lemma OwnPlans(plans: map<OrgId, Plan>, own: map<OrgId, Plan>, o: OrgId)
    requires forall x :: x in own <==> x in plans && x == o
    requires o in plans ==> o in own && own[o] == plans[o]
    ensures own == map x | x in plans && x == o :: plans[x]
  {
  }

  // ---------- the turns of one organisation ----------

  lemma SettingsByItself(r: Rules, o: OrgId)
    ensures SettingsIn(OwnRules(r, o), o) == SettingsIn(r, o)
  {
  }

  lemma TurnsSnoc(visits: seq<Visit>, v: Visit, r: Rules)
    ensures TurnsAt(visits + [v], r) == TurnsAt(visits, r) + [TurnAt(v, r)]
  {
  }

  lemma {:induction false} OwnTurnsAt(visits: seq<Visit>, r: Rules, o: OrgId)
    ensures OwnTurns(TurnsAt(visits, r), o) == TurnsAt(OwnVisits(visits, o), OwnRules(r, o))
    decreases |visits|
  {
    if visits != [] {
      var n := |visits| - 1;
      OwnTurnsAt(visits[..n], r, o);
      SettingsByItself(r, o);
      assert TurnsAt(visits, r)[..n] == TurnsAt(visits[..n], r);
      TurnsSnoc(OwnVisits(visits[..n], o), visits[n], OwnRules(r, o));
      AppendEmpty(OwnVisits(visits[..n], o));
      AppendEmpty(TurnsAt(OwnVisits(visits[..n], o), OwnRules(r, o)));
    }
  }

  /**
   * For any snapshot mixing organisations in any order, what a whole pass leaves of one
   * organisation (its plan, subscriptions, leases, workers, counters and usage events)
   * is what a pass over that organisation alone leaves, dunning included.
   */
  lemma PassByItself(e: Estate, r: Rules, now: int, visits: seq<Visit>, c: Enforcement, o: OrgId)
    requires forall i :: 0 <= i < |visits| ==> VisitOwned(e.tables, visits[i])
    ensures OwnEstate(PassOver(e, r, now, visits, c), o)
            == PassOver(OwnEstate(e, o), OwnRules(r, o), now, OwnVisits(visits, o), c)
  {
    var a := Billing.Dun(e.accounts, now);
    var looked := r.(plans := a.plans);
    DunsByItself(e.accounts, now, o);
    OwnTurnsAt(visits, looked, o);
    assert OwnRules(looked, o) == OwnRules(r, o).(plans := Billing.Dun(OwnAccounts(e.accounts, o), now).plans);
    forall i | 0 <= i < |visits| ensures Owned(e.tables, TurnsAt(visits, looked)[i]) {
      assert VisitOwned(e.tables, visits[i]);
    }
    TenantsDoNotInterfere(e.tables, TurnsAt(visits, looked), c, o);
  }

  /** The rows a visit touches belong to its lease's organisation. */
  predicate VisitOwned(s: Tables, v: Visit) {
    && (v.entry.id in s.leases ==> s.leases[v.entry.id].org == v.entry.lease.org)
    && (v.entry.lease.worker in s.workers ==> s.workers[v.entry.lease.worker].org == v.entry.lease.org)
  }

  // ---------- a pass is a run ----------

  lemma {:induction false} PassHead(s: Tables, t: Turn, turns: seq<Turn>, c: Enforcement)
    ensures Pass(s, [t] + turns, c) == Pass(Reap(s, t, c), turns, c)
    decreases |turns|
  {
    if turns == [] {
      assert [t] + turns == [t] && [t][..0] == [];
    } else {
      var n := |turns| - 1;
      PassHead(s, t, turns[..n], c);
      assert ([t] + turns)[..n + 1] == [t] + turns[..n];
    }
  }

  lemma TurnsHead(visits: seq<Visit>, r: Rules)
    requires visits != []
    ensures TurnsAt(visits, r) == [TurnAt(visits[0], r)] + TurnsAt(visits[1..], r)
  {
  }

  lemma OneFirst(s: LeaseRuns.Site, e: LeaseRuns.Event, events: seq<LeaseRuns.Event>, c: Enforcement)
    requires LeaseRuns.Possible(s, e) && LeaseRuns.IsRun(LeaseRuns.After(s, e, c), events, c)
    ensures LeaseRuns.IsRun(s, [e] + events, c)
    ensures LeaseRuns.RunEnd(s, [e] + events, c) == LeaseRuns.RunEnd(LeaseRuns.After(s, e, c), events, c)
  {
    assert ([e] + events)[1..] == events;
  }

  ghost predicate Queued(s: LeaseRuns.Site, visits: seq<Visit>, r: Rules) {
    && |s.queue| == |visits|
    && (forall i :: 0 <= i < |visits| ==>
          && s.queue[i] == visits[i].entry
          && s.now <= visits[i].at
          && LeaseRuns.SettingsOf(s, visits[i].entry.lease.org) == SettingsIn(r, visits[i].entry.lease.org))
    && (forall i, j :: 0 <= i < j < |visits| ==> visits[i].at <= visits[j].at)
  }

  /** What is queued is reaped by waiting for each turn and taking it. */
  lemma {:induction false} QueueRuns(s: LeaseRuns.Site, visits: seq<Visit>, r: Rules, c: Enforcement)
    returns (events: seq<LeaseRuns.Event>)
    requires Queued(s, visits, r)
    ensures LeaseRuns.IsRun(s, events, c)
    ensures LeaseRuns.RunEnd(s, events, c).tables == Pass(s.tables, TurnsAt(visits, r), c)
    ensures LeaseRuns.RunEnd(s, events, c).queue == []
    decreases |visits|
  {
    events := [];
    if visits != [] {
      var wait, reap := LeaseRuns.Wait(visits[0].at), LeaseRuns.ReapNext;
      var s1 := LeaseRuns.After(s, wait, c);
      var s2 := LeaseRuns.After(s1, reap, c);
      assert LeaseRuns.TurnOf(s1, s1.queue[0]) == TurnAt(visits[0], r);
      events := QueueRuns(s2, visits[1..], r, c);
      TurnsHead(visits, r);
      PassHead(s.tables, TurnAt(visits[0], r), TurnsAt(visits[1..], r), c);
      OneFirst(s1, reap, events, c);
      OneFirst(s, wait, [reap] + events, c);
      events := [wait] + ([reap] + events);
    }
  }

  function Ids(rows: seq<LeaseRuns.Entry>): (ids: seq<nat>)
    ensures |ids| == |rows|
    ensures forall i :: 0 <= i < |rows| ==> ids[i] == rows[i].id
  {
    seq(|rows|, i requires 0 <= i < |rows| => rows[i].id)
  }

  /** The rows are the active leases, each once, as their rows are. */
  ghost predicate IsSnapshot(s: Tables, rows: seq<LeaseRuns.Entry>) {
    && (forall i :: 0 <= i < |rows| ==>
          rows[i].id in s.leases && s.leases[rows[i].id] == rows[i].lease && rows[i].lease.ended == None)
    && (forall i, j :: 0 <= i < j < |rows| ==> rows[i].id != rows[j].id)
    && (forall id :: id in s.leases && s.leases[id].ended == None ==> exists i :: 0 <= i < |rows| && rows[i].id == id)
  }

  /** The visits of a reachable snapshot stay within their organisations. */
  lemma SnapshotVisitsOwned(s: Tables, rows: seq<LeaseRuns.Entry>, clock: nat -> int)
    requires LeaseRuns.WorkersAgree(s) && IsSnapshot(s, rows)
    ensures forall i :: 0 <= i < |rows| ==> VisitOwned(s, Visits(rows, clock)[i])
  {
  }

  lemma BeginsPass(s: LeaseRuns.Site, rows: seq<LeaseRuns.Entry>, c: Enforcement)
    requires s.queue == [] && IsSnapshot(s.tables, rows)
    ensures LeaseRuns.Possible(s, LeaseRuns.BeginPass(Ids(rows)))
    ensures LeaseRuns.After(s, LeaseRuns.BeginPass(Ids(rows)), c) == s.(queue := rows)
  {
    var ids := Ids(rows);
    forall id | id in s.tables.leases && Active(s.tables, id) ensures id in ids {
      var i :| 0 <= i < |rows| && rows[i].id == id;
      assert ids[i] == id;
    }
    assert LeaseRuns.Snapshot(s.tables, ids) == rows;
  }

  /** The settings of the organisations visited are brought up to date first. */
  function Settled(settings: map<OrgId, Settings>, rows: seq<LeaseRuns.Entry>, r: Rules): (m: map<OrgId, Settings>)
    ensures forall i :: 0 <= i < |rows| ==>
              rows[i].lease.org in m && m[rows[i].lease.org] == SettingsIn(r, rows[i].lease.org)
  {
    if rows == [] then settings
    else
      var org := rows[|rows| - 1].lease.org;
      Settled(settings, rows[..|rows| - 1], r)[org := SettingsIn(r, org)]
  }

  lemma {:induction false} Settles(
    s: LeaseRuns.Site, rows: seq<LeaseRuns.Entry>, r: Rules, rest: seq<LeaseRuns.Event>, c: Enforcement)
    returns (events: seq<LeaseRuns.Event>)
    requires LeaseRuns.IsRun(s.(settings := Settled(s.settings, rows, r)), rest, c)
    ensures LeaseRuns.IsRun(s, events, c)
    ensures LeaseRuns.RunEnd(s, events, c) == LeaseRuns.RunEnd(s.(settings := Settled(s.settings, rows, r)), rest, c)
    decreases |rows|
  {
    events := rest;
    if rows != [] {
      var n := |rows| - 1;
      var org := rows[n].lease.org;
      var e := LeaseRuns.Configure(org, SettingsIn(r, org));
      OneFirst(s.(settings := Settled(s.settings, rows[..n], r)), e, rest, c);
      events := Settles(s, rows[..n], r, [e] + rest, c);
    }
  }

  /**
   * A pass of the loop is a run of the lease tables, from any state at rest: the settings
   * that changed, the snapshot, and a wait and a turn for each of its leases. So whatever
   * runs keep (the cap, the ledger, the expiry of leases) passes keep.
   */
  lemma PassIsRun(s: LeaseRuns.Site, r: Rules, rows: seq<LeaseRuns.Entry>, clock: nat -> int, c: Enforcement)
    returns (events: seq<LeaseRuns.Event>)
    requires s.queue == [] && IsSnapshot(s.tables, rows)
    requires forall i, j :: 0 <= i <= j ==> s.now <= clock(i) <= clock(j)
    ensures LeaseRuns.IsRun(s, events, c)
    ensures LeaseRuns.RunEnd(s, events, c).queue == []
    ensures LeaseRuns.RunEnd(s, events, c).tables == Pass(s.tables, TurnsAt(Visits(rows, clock), r), c)
  {
    var ready := s.(settings := Settled(s.settings, rows, r));
    var begin := LeaseRuns.BeginPass(Ids(rows));
    BeginsPass(ready, rows, c);
    events := QueueRuns(ready.(queue := rows), Visits(rows, clock), r, c);
    OneFirst(ready, begin, events, c);
    events := Settles(s, rows, r, [begin] + events, c);
  }
}
