/**
 * Plans, subscriptions and dunning. The subscription table has no uniqueness
 * constraint on the organisation, so it is a sequence of rows that statements
 * update by organisation.
 */
module Billing {
  import opened Options
  import opened Sequences
  import opened Leases

  datatype SubStatus = SubActive | PastDue | SubCanceled

  datatype Sub = Sub(org: OrgId, plan: Plan, status: SubStatus, customer: string, graceUntil: Option<int>)

  /** The plan column of the org table, and the subscription table, oldest row first. */
  datatype Accounts = Accounts(plans: map<OrgId, Plan>, subs: seq<Sub>)

  predicate HasSub(subs: seq<Sub>, org: OrgId) {
    exists i :: 0 <= i < |subs| && subs[i].org == org
  }

  /** What a statement may assign in a row: any of the four columns. */
  datatype Change = Change(plan: Option<Plan>, status: SubStatus, customer: string, grace: Option<Option<int>>)

  function Changed(r: Sub, ch: Change): Sub {
    r.(plan := if ch.plan.Some? then ch.plan.value else r.plan,
       status := ch.status,
       customer := if ch.customer != "" then ch.customer else r.customer,
       graceUntil := if ch.grace.Some? then ch.grace.value else r.graceUntil)
  }

  /** UPDATE subscription ... WHERE org_id. */
  function Update(subs: seq<Sub>, org: OrgId, ch: Change): (r: seq<Sub>)
    ensures |r| == |subs|
    ensures forall i :: 0 <= i < |subs| ==> r[i] == if subs[i].org == org then Changed(subs[i], ch) else subs[i]
  {
    seq(|subs|, i requires 0 <= i < |subs| => if subs[i].org == org then Changed(subs[i], ch) else subs[i])
  }

  /** UPDATE, and INSERT if no row was there; the row's organisation has to exist. */
  function Upsert(a: Accounts, org: OrgId, plan: Plan, ch: Change): Accounts {
    if org !in a.plans then a
    else Accounts(
           a.plans[org := plan],
           if HasSub(a.subs, org) then Update(a.subs, org, ch)
           else a.subs + [Sub(org, plan, SubActive, ch.customer, None)])
  }

  /** A completed checkout. */
  function Checkout(a: Accounts, org: OrgId, plan: Plan, customer: string): Accounts {
    Upsert(a, org, plan, Change(Some(plan), SubActive, customer, Some(None)))
  }

  /** The direct change of plan; it leaves an old grace period in place. */
  function SetPlan(a: Accounts, org: OrgId, plan: Plan): Accounts {
    Upsert(a, org, plan, Change(Some(plan), SubActive, "", None))
  }

  function PaymentFailed(a: Accounts, org: OrgId, until: int): Accounts {
    a.(subs := Update(a.subs, org, Change(None, PastDue, "", Some(Some(until)))))
  }

  function PaymentSucceeded(a: Accounts, org: OrgId): Accounts {
    a.(subs := Update(a.subs, org, Change(None, SubActive, "", Some(None))))
  }

  function Downgrade(a: Accounts, org: OrgId): Accounts {
    Accounts(
      if org in a.plans then a.plans[org := Free] else a.plans,
      Update(a.subs, org, Change(Some(Free), SubCanceled, "", Some(None))))
  }

  predicate GraceOver(r: Sub, now: int) {
    r.status == PastDue && r.graceUntil.Some? && r.graceUntil.value < now
  }

  /** The organisations whose grace period is over, one for each such row. */
  function PastDueExpired(subs: seq<Sub>, now: int): seq<OrgId> {
    if subs == [] then []
    else (if GraceOver(subs[0], now) then [subs[0].org] else []) + PastDueExpired(subs[1..], now)
  }

  function DowngradeAll(a: Accounts, orgs: seq<OrgId>): Accounts {
    if orgs == [] then a else Downgrade(DowngradeAll(a, orgs[..|orgs| - 1]), orgs[|orgs| - 1])
  }

  /** The dunning part of a reaper pass. */
  function Dun(a: Accounts, now: int): Accounts {
    DowngradeAll(a, PastDueExpired(a.subs, now))
  }

  // ---------- Stripe events ----------

  datatype PlanField = NoPlanField | Named(plan: Plan) | UnknownPlan

  datatype HookType = CheckoutCompleted(plan: PlanField) | InvoiceFailed | InvoicePaid | SubscriptionDeleted | OtherHook

  datatype Hook = Hook(kind: HookType, metadataOrg: string, clientReference: string, customer: string)

  /** The latest subscription row of a Stripe customer. */
  function OrgByCustomer(subs: seq<Sub>, customer: string): string {
    if customer == "" || subs == [] then ""
    else if subs[|subs| - 1].customer == customer then subs[|subs| - 1].org
    else OrgByCustomer(subs[..|subs| - 1], customer)
  }

  /** The organisation an event is about; "" if none can be told. */
  function HookOrg(a: Accounts, h: Hook): OrgId {
    if h.metadataOrg != "" then h.metadataOrg
    else if h.clientReference != "" then h.clientReference
    else OrgByCustomer(a.subs, h.customer)
  }

  /** Seven days unless set. */
  function GraceSec(setting: int): int {
    if setting <= 0 then 7 * 24 * 3600 else setting
  }

  function OnHook(a: Accounts, h: Hook, now: int, graceSetting: int): Accounts {
    var org := HookOrg(a, h);
    if org == "" then a
    else
      match h.kind
      case CheckoutCompleted(NoPlanField) => Checkout(a, org, Pro, h.customer)
      case CheckoutCompleted(Named(plan)) => Checkout(a, org, plan, h.customer)
      case CheckoutCompleted(UnknownPlan) => a // the first statement fails and the error is dropped
      case InvoiceFailed => PaymentFailed(a, org, now + GraceSec(graceSetting))
      case InvoicePaid => PaymentSucceeded(a, org)
      case SubscriptionDeleted => Downgrade(a, org)
      case OtherHook => a
  }

  // ---------- runs ----------

  datatype Event =
    | Hooked(hook: Hook, at: int)
    | PlanSet(org: OrgId, plan: Plan)
    | Dunned(at: int)
    | OrgCreated(org: OrgId)

  /** What is remembered about an organisation's billing. */
  datatype Note =
    | Failed(org: OrgId, at: int, until: int) // a failed payment opened a grace period
    | Settled(org: OrgId)                     // checkout, payment, change of plan or cancellation
    | DowngradedAt(org: OrgId, at: int)       // by the reaper

  datatype Books = Books(accounts: Accounts, notes: seq<Note>)

  predicate Possible(b: Books, e: Event) {
    e.OrgCreated? ==> e.org !in b.accounts.plans
  }

  function HookNotes(a: Accounts, h: Hook, at: int, graceSetting: int): seq<Note> {
    var org := HookOrg(a, h);
    if org == "" then []
    else
      match h.kind
      case InvoiceFailed => [Failed(org, at, at + GraceSec(graceSetting))]
      case CheckoutCompleted(UnknownPlan) => []
      case OtherHook => []
      case _ => [Settled(org)]
  }

  function DunNotes(orgs: seq<OrgId>, at: int): seq<Note> {
    if orgs == [] then [] else DunNotes(orgs[..|orgs| - 1], at) + [DowngradedAt(orgs[|orgs| - 1], at)]
  }

  function After(b: Books, e: Event, graceSetting: int): Books {
    var a := b.accounts;
    match e
    case Hooked(h, at) => Books(OnHook(a, h, at, graceSetting), b.notes + HookNotes(a, h, at, graceSetting))
    case PlanSet(org, plan) => Books(SetPlan(a, org, plan), b.notes + [Settled(org)])
    case Dunned(at) => Books(Dun(a, at), b.notes + DunNotes(PastDueExpired(a.subs, at), at))
    case OrgCreated(org) => Books(a.(plans := a.plans[org := Free]), b.notes)
  }

  predicate IsRun(b: Books, events: seq<Event>, graceSetting: int)
    decreases |events|
  {
    events == [] || (Possible(b, events[0]) && IsRun(After(b, events[0], graceSetting), events[1..], graceSetting))
  }

  function RunEnd(b: Books, events: seq<Event>, graceSetting: int): Books
    requires IsRun(b, events, graceSetting)
    decreases |events|
  {
    if events == [] then b else RunEnd(After(b, events[0], graceSetting), events[1..], graceSetting)
  }

  /** The last thing remembered about an organisation. */
  function Last(notes: seq<Note>, org: OrgId): Option<Note> {
    if notes == [] then None
    else if notes[|notes| - 1].org == org then Some(notes[|notes| - 1])
    else Last(notes[..|notes| - 1], org)
  }

  ghost predicate OneRowEach(subs: seq<Sub>) {
    forall i, j :: 0 <= i < j < |subs| ==> subs[i].org != subs[j].org
  }

  ghost predicate PlansAgree(a: Accounts) {
    forall i :: 0 <= i < |a.subs| ==> a.subs[i].org in a.plans && a.plans[a.subs[i].org] == a.subs[i].plan
  }

  /**
   * A row is past due if and only if the last event about its organisation is a failed
   * payment, which set its grace.
   */
  predicate RowExplained(r: Sub, last: Option<Note>, graceSetting: int) {
    && (r.status == PastDue <==> last.Some? && last.value.Failed?)
    && (r.status == PastDue ==>
          r.graceUntil == Some(last.value.until) && last.value.until == last.value.at + GraceSec(graceSetting))
  }

  ghost predicate Explained(subs: seq<Sub>, notes: seq<Note>, graceSetting: int) {
    forall i :: 0 <= i < |subs| ==> RowExplained(subs[i], Last(notes, subs[i].org), graceSetting)
  }

  ghost predicate Sound(b: Books, graceSetting: int) {
    OneRowEach(b.accounts.subs) && PlansAgree(b.accounts) && Explained(b.accounts.subs, b.notes, graceSetting)
  }

  lemma LastNote(notes: seq<Note>, n: Note, org: OrgId)
    ensures Last(notes + [n], org) == if n.org == org then Some(n) else Last(notes, org)
  {
    InitOfSnoc(notes, n);
  }

  lemma UpdateSound(b: Books, org: OrgId, ch: Change, plans: map<OrgId, Plan>, n: Note, graceSetting: int)
    requires Sound(b, graceSetting) && n.org == org
    requires ch.status == PastDue <==> n.Failed?
    requires n.Failed? ==> ch.grace == Some(Some(n.until)) && n.until == n.at + GraceSec(graceSetting)
    requires plans == (if ch.plan.Some? && org in b.accounts.plans
                       then b.accounts.plans[org := ch.plan.value] else b.accounts.plans)
    ensures Sound(Books(Accounts(plans, Update(b.accounts.subs, org, ch)), b.notes + [n]), graceSetting)
  {
    var subs := Update(b.accounts.subs, org, ch);
    forall i | 0 <= i < |subs|
      ensures Last(b.notes + [n], subs[i].org) == if subs[i].org == org then Some(n) else Last(b.notes, subs[i].org)
    {
      LastNote(b.notes, n, subs[i].org);
    }
  }

  lemma InsertSound(b: Books, org: OrgId, plan: Plan, customer: string, n: Note, graceSetting: int)
    requires Sound(b, graceSetting) && n.org == org && !n.Failed?
    requires org in b.accounts.plans && !HasSub(b.accounts.subs, org)
    ensures Sound(Books(Accounts(b.accounts.plans[org := plan],
                                 b.accounts.subs + [Sub(org, plan, SubActive, customer, None)]),
                        b.notes + [n]), graceSetting)
  {
    var subs := b.accounts.subs;
    forall i | 0 <= i < |subs|
      ensures subs[i].org != org && Last(b.notes + [n], subs[i].org) == Last(b.notes, subs[i].org)
    {
      LastNote(b.notes, n, subs[i].org);
    }
  }

  lemma UpsertSound(b: Books, org: OrgId, plan: Plan, ch: Change, n: Note, graceSetting: int)
    requires Sound(b, graceSetting) && n.org == org && !n.Failed? && ch.plan == Some(plan) && ch.status == SubActive
    ensures Sound(Books(Upsert(b.accounts, org, plan, ch), b.notes + [n]), graceSetting)
  {
    if org !in b.accounts.plans {
      forall i | 0 <= i < |b.accounts.subs|
        ensures Last(b.notes + [n], b.accounts.subs[i].org) == Last(b.notes, b.accounts.subs[i].org)
      {
        LastNote(b.notes, n, b.accounts.subs[i].org);
      }
    } else if HasSub(b.accounts.subs, org) {
      UpdateSound(b, org, ch, b.accounts.plans[org := plan], n, graceSetting);
    } else {
      InsertSound(b, org, plan, ch.customer, n, graceSetting);
    }
  }

  lemma DowngradeSound(b: Books, org: OrgId, n: Note, graceSetting: int)
    requires Sound(b, graceSetting) && n.org == org && !n.Failed?
    ensures Sound(Books(Downgrade(b.accounts, org), b.notes + [n]), graceSetting)
  {
    UpdateSound(b, org, Change(Some(Free), SubCanceled, "", Some(None)),
                Downgrade(b.accounts, org).plans, n, graceSetting);
  }

  lemma {:induction false} DunSound(b: Books, orgs: seq<OrgId>, at: int, graceSetting: int)
    requires Sound(b, graceSetting)
    ensures Sound(Books(DowngradeAll(b.accounts, orgs), b.notes + DunNotes(orgs, at)), graceSetting)
    decreases |orgs|
  {
    if orgs == [] {
      AppendEmpty(b.notes);
    } else {
      var n := |orgs| - 1;
      DunSound(b, orgs[..n], at, graceSetting);
      DowngradeSound(Books(DowngradeAll(b.accounts, orgs[..n]), b.notes + DunNotes(orgs[..n], at)),
                     orgs[n], DowngradedAt(orgs[n], at), graceSetting);
      assert b.notes + DunNotes(orgs, at) == b.notes + DunNotes(orgs[..n], at) + [DowngradedAt(orgs[n], at)];
    }
  }

  lemma {:induction false} HookSound(b: Books, h: Hook, at: int, graceSetting: int)
    requires Sound(b, graceSetting)
    ensures Sound(After(b, Hooked(h, at), graceSetting), graceSetting)
  {
    var a, org := b.accounts, HookOrg(b.accounts, h);
    AppendEmpty(b.notes);
    if org != "" {
      match h.kind {
        case CheckoutCompleted(NoPlanField) =>
          UpsertSound(b, org, Pro, Change(Some(Pro), SubActive, h.customer, Some(None)), Settled(org), graceSetting);
        case CheckoutCompleted(Named(plan)) =>
          UpsertSound(b, org, plan, Change(Some(plan), SubActive, h.customer, Some(None)), Settled(org), graceSetting);
        case CheckoutCompleted(UnknownPlan) =>
        case InvoiceFailed =>
          var until := at + GraceSec(graceSetting);
          UpdateSound(b, org, Change(None, PastDue, "", Some(Some(until))), a.plans,
                      Failed(org, at, until), graceSetting);
        case InvoicePaid =>
          UpdateSound(b, org, Change(None, SubActive, "", Some(None)), a.plans, Settled(org), graceSetting);
        case SubscriptionDeleted => DowngradeSound(b, org, Settled(org), graceSetting);
        case OtherHook =>
      }
    }
  }

  lemma {:induction false} EventSound(b: Books, e: Event, graceSetting: int)
    requires Sound(b, graceSetting) && Possible(b, e)
    ensures Sound(After(b, e, graceSetting), graceSetting)
  {
    match e {
      case Hooked(h, at) => HookSound(b, h, at, graceSetting);
      case PlanSet(org, plan) =>
        UpsertSound(b, org, plan, Change(Some(plan), SubActive, "", None), Settled(org), graceSetting);
      case Dunned(at) => DunSound(b, PastDueExpired(b.accounts.subs, at), at, graceSetting);
      case OrgCreated(_) =>
    }
  }

  lemma {:induction false} RunSound(b: Books, events: seq<Event>, graceSetting: int)
    requires Sound(b, graceSetting) && IsRun(b, events, graceSetting)
    ensures Sound(RunEnd(b, events, graceSetting), graceSetting)
    decreases |events|
  {
    if events != [] {
      EventSound(b, events[0], graceSetting);
      RunSound(After(b, events[0], graceSetting), events[1..], graceSetting);
    }
  }

  // ---------- what dunning does ----------

  lemma {:induction false} ExpiredIff(subs: seq<Sub>, now: int, org: OrgId)
    ensures org in PastDueExpired(subs, now)
            <==> exists i ::
                   && 0 <= i < |subs| && subs[i].org == org && subs[i].status == PastDue
                   && subs[i].graceUntil.Some? && subs[i].graceUntil.value < now
    decreases |subs|
  {
    if subs != [] {
      ExpiredIff(subs[1..], now, org);
      if exists i :: 0 <= i < |subs| && subs[i].org == org && GraceOver(subs[i], now) {
        var i :| 0 <= i < |subs| && subs[i].org == org && GraceOver(subs[i], now);
        assert i > 0 ==> subs[1..][i - 1] == subs[i];
      }
      if org in PastDueExpired(subs[1..], now) {
        var i :| 0 <= i < |subs[1..]| && subs[1..][i].org == org && GraceOver(subs[1..][i], now);
        assert subs[i + 1] == subs[1..][i];
      }
    }
  }

  /** What downgrading a list of organisations makes of the tables. */
  lemma {:induction false} DowngradeAllRows(a: Accounts, orgs: seq<OrgId>)
    ensures var d := DowngradeAll(a, orgs);
            && |d.subs| == |a.subs|
            && d.plans.Keys == a.plans.Keys
            && (forall org :: org in a.plans ==> d.plans[org] == if org in orgs then Free else a.plans[org])
            && (forall i :: 0 <= i < |a.subs| ==>
                  d.subs[i] == if a.subs[i].org in orgs
                               then a.subs[i].(plan := Free, status := SubCanceled, graceUntil := None)
                               else a.subs[i])
    decreases |orgs|
  {
    if orgs != [] {
      var n := |orgs| - 1;
      DowngradeAllRows(a, orgs[..n]);
      assert forall org :: org in orgs <==> org in orgs[..n] || org == orgs[n];
    }
  }

  /** The last event about the organisation is a failed payment whose grace ended before `now`. */
  predicate GraceRanOut(notes: seq<Note>, org: OrgId, now: int, graceSetting: int) {
    var why := Last(notes, org);
    && why.Some? && why.value.Failed? && why.value.until < now
    && why.value.until == why.value.at + if graceSetting <= 0 then 604800 else graceSetting
  }

  /** An organisation is downgraded if and only if it has a subscription and its last event is such a failure. */
  lemma ListedIffRanOut(b: Books, graceSetting: int, now: int, org: OrgId)
    requires Sound(b, graceSetting)
    ensures org in PastDueExpired(b.accounts.subs, now)
            <==> HasSub(b.accounts.subs, org) && GraceRanOut(b.notes, org, now, graceSetting)
  {
    ExpiredIff(b.accounts.subs, now, org);
    if HasSub(b.accounts.subs, org) {
      var i :| 0 <= i < |b.accounts.subs| && b.accounts.subs[i].org == org;
      assert RowExplained(b.accounts.subs[i], Last(b.notes, org), graceSetting);
    }
  }

  /**
   * Dunning over whole runs: there is one subscription row per organisation at most,
   * and its plan is the organisation's. A pass at `now` downgrades exactly the
   * organisations that have a subscription and whose last billing event is a failed
   * payment with a grace that ended before `now`, so that no reactivation came in
   * between; the plans of all others stay. After it, no past-due row has an expired grace.
   */
  lemma DunningIsDeserved(b0: Books, events: seq<Event>, graceSetting: int, now: int, org: OrgId)
    requires b0.accounts.subs == [] && IsRun(b0, events, graceSetting)
    ensures var b := RunEnd(b0, events, graceSetting);
            var d := Dun(b.accounts, now);
            var deserved := HasSub(b.accounts.subs, org) && GraceRanOut(b.notes, org, now, graceSetting);
            && OneRowEach(d.subs) && PlansAgree(d)
            && (forall i :: 0 <= i < |d.subs| ==> !GraceOver(d.subs[i], now))
            && (org in PastDueExpired(b.accounts.subs, now) <==> deserved)
            && (org in b.accounts.plans <==> org in d.plans)
            && (org in d.plans ==> d.plans[org] == if deserved then Free else b.accounts.plans[org])
  {
    RunSound(b0, events, graceSetting);
    var b := RunEnd(b0, events, graceSetting);
    EventSound(b, Dunned(now), graceSetting);
    DowngradeAllRows(b.accounts, PastDueExpired(b.accounts.subs, now));
    ListedIffRanOut(b, graceSetting, now, org);
    NoGraceOver(b.accounts, now);
  }

  lemma NoGraceOver(a: Accounts, now: int)
    ensures forall i :: 0 <= i < |Dun(a, now).subs| ==> !GraceOver(Dun(a, now).subs[i], now)
  {
    DowngradeAllRows(a, PastDueExpired(a.subs, now));
    forall i | 0 <= i < |a.subs| ensures !GraceOver(Dun(a, now).subs[i], now) {
      ExpiredIff(a.subs, now, a.subs[i].org);
    }
  }

  /** A failed payment of an organisation without a subscription leaves nothing to downgrade. */
  lemma FailureWithoutSubscription(now: int)
    ensures var hook := Hook(InvoiceFailed, "a", "", "");
            var b := After(After(Books(Accounts(map[], []), []), OrgCreated("a"), 0), Hooked(hook, 0), 0);
            Last(b.notes, "a").Some? && Last(b.notes, "a").value.Failed? && PastDueExpired(b.accounts.subs, now) == []
  {
    var b := After(Books(Accounts(map[], []), []), OrgCreated("a"), 0);
    var f := Failed("a", 0, GraceSec(0));
    LastNote([], f, "a");
    AppendEmpty([f]);
  }
}
