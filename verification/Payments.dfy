/**
 * Whose subscription a Stripe event changes, and how: the organisation it names, or else
 * the one of its customer's latest row, and the columns of that organisation's rows.
 */
module Payments {
  import opened Options
  import opened Sequences
  import opened Leases
  import opened Billing

  // ---------- whose event it is ----------

  /** Row `i` is the latest one of the Stripe customer. */
  predicate LatestOf(subs: seq<Sub>, customer: string, i: nat) {
    && i < |subs| && subs[i].customer == customer
    && forall j :: i < j < |subs| ==> subs[j].customer != customer
  }

  /** The look-up finds the organisation of the customer's latest row, and nothing if there is no such row. */
  lemma {:induction false} CustomerIsFound(subs: seq<Sub>, customer: string)
    requires customer != ""
    ensures (forall i :: 0 <= i < |subs| ==> subs[i].customer != customer) ==> OrgByCustomer(subs, customer) == ""
    ensures forall i: nat :: LatestOf(subs, customer, i) ==> OrgByCustomer(subs, customer) == subs[i].org
    decreases |subs|
  {
    if subs != [] && subs[|subs| - 1].customer != customer {
      var rest := subs[..|subs| - 1];
      CustomerIsFound(rest, customer);
      forall i: nat | LatestOf(subs, customer, i) ensures OrgByCustomer(subs, customer) == subs[i].org {
        assert LatestOf(rest, customer, i);
      }
    }
  }

  lemma {:induction false} SomeRowIsLatest(subs: seq<Sub>, customer: string, i: nat) returns (last: nat)
    requires i < |subs| && subs[i].customer == customer
    ensures i <= last && LatestOf(subs, customer, last)
    decreases |subs| - i
  {
    if j: nat :| i < j < |subs| && subs[j].customer == customer {
      last := SomeRowIsLatest(subs, customer, j);
    } else {
      last := i;
    }
  }

  /**
   * The event is about the organisation: its metadata name it; or they name none and its
   * client reference does; or neither names any, and the latest row of its customer is the
   * organisation's.
   */
  ghost predicate IsAbout(subs: seq<Sub>, h: Hook, org: OrgId) {
    if h.metadataOrg != "" then org == h.metadataOrg
    else if h.clientReference != "" then org == h.clientReference
    else h.customer != "" && exists i: nat :: LatestOf(subs, h.customer, i) && subs[i].org == org
  }

  lemma AboutIff(a: Accounts, h: Hook, org: OrgId)
    requires org != ""
    ensures HookOrg(a, h) == org <==> IsAbout(a.subs, h, org)
  {
    if h.metadataOrg == "" && h.clientReference == "" && h.customer != "" {
      CustomerIsFound(a.subs, h.customer);
      if i: nat :| i < |a.subs| && a.subs[i].customer == h.customer {
        var last := SomeRowIsLatest(a.subs, h.customer, i);
      }
    }
  }

  /** What the history of billing remembers of an event. */
  lemma NotedIff(a: Accounts, h: Hook, at: int, graceSetting: int, org: OrgId)
    requires org != ""
    ensures var notes := HookNotes(a, h, at, graceSetting);
            var until := at + if graceSetting > 0 then graceSetting else 604800;
            var settles :=
              || h.kind == InvoicePaid || h.kind == SubscriptionDeleted
              || (h.kind.CheckoutCompleted? && h.kind.plan != UnknownPlan);
            && (notes == [Failed(org, at, until)] <==> h.kind == InvoiceFailed && IsAbout(a.subs, h, org))
            && (notes == [Settled(org)] <==> settles && IsAbout(a.subs, h, org))
            && |notes| <= 1
  {
    AboutIff(a, h, org);
  }

  // ---------- what it does ----------

  /** An event that is about no organisation changes nothing. */
  lemma NobodysEvent(a: Accounts, h: Hook, now: int, graceSetting: int)
    requires forall org :: org != "" ==> !IsAbout(a.subs, h, org)
    ensures OnHook(a, h, now, graceSetting) == a
  {
    if HookOrg(a, h) != "" {
      AboutIff(a, h, HookOrg(a, h));
    }
  }

  /** A failed payment puts the rows of its organisation past due, for the grace set or seven days, and no others. */
  lemma FailureFallsOn(a: Accounts, h: Hook, now: int, graceSetting: int, org: OrgId)
    requires h.kind == InvoiceFailed && org != "" && IsAbout(a.subs, h, org)
    ensures var b := OnHook(a, h, now, graceSetting);
            var until := now + if graceSetting > 0 then graceSetting else 604800;
            && b.plans == a.plans && |b.subs| == |a.subs|
            && forall i :: 0 <= i < |a.subs| ==>
                 b.subs[i] == if a.subs[i].org == org
                              then a.subs[i].(status := PastDue, graceUntil := Some(until)) else a.subs[i]
  {
    AboutIff(a, h, org);
  }

  /**
   * A failed payment known only by its customer puts the customer's latest row past due
   * and changes no row of an organisation that has no row of that customer.
   */
  lemma FailureOfCustomer(a: Accounts, h: Hook, now: int, graceSetting: int, k: nat)
    requires h.kind == InvoiceFailed && h.metadataOrg == "" && h.clientReference == "" && h.customer != ""
    requires LatestOf(a.subs, h.customer, k) && a.subs[k].org != ""
    ensures var b := OnHook(a, h, now, graceSetting);
            && |b.subs| == |a.subs| && b.subs[k].status == PastDue
            && forall i :: 0 <= i < |a.subs| && b.subs[i] != a.subs[i] ==>
                 exists j :: 0 <= j < |a.subs| && a.subs[j].org == a.subs[i].org && a.subs[j].customer == h.customer
  {
    FailureFallsOn(a, h, now, graceSetting, a.subs[k].org);
  }

  /** A payment ends the past-due time; a deleted subscription takes the organisation back to the Free plan. */
  lemma PaymentOrEnd(a: Accounts, h: Hook, now: int, graceSetting: int, org: OrgId)
    requires (h.kind == InvoicePaid || h.kind == SubscriptionDeleted) && org != "" && IsAbout(a.subs, h, org)
    ensures var b := OnHook(a, h, now, graceSetting);
            && |b.subs| == |a.subs|
            && b.plans == (if h.kind == SubscriptionDeleted && org in a.plans then a.plans[org := Free] else a.plans)
            && forall i :: 0 <= i < |a.subs| ==>
                 b.subs[i] == if a.subs[i].org != org then a.subs[i]
                              else if h.kind == InvoicePaid
                              then a.subs[i].(status := SubActive, graceUntil := None)
                              else a.subs[i].(plan := Free, status := SubCanceled, graceUntil := None)
  {
    AboutIff(a, h, org);
  }

  /** The row of an organisation that has bought a plan, before and after. */
  predicate Bought(before: Sub, after: Sub, plan: Plan, customer: string) {
    after == Sub(before.org, plan, SubActive, if customer != "" then customer else before.customer, None)
  }

  /** A checkout sets the plan it names, or Pro if it names none, in the organisation and in its row, old or new. */
  lemma CheckoutBuys(a: Accounts, h: Hook, now: int, graceSetting: int, org: OrgId)
    requires h.kind.CheckoutCompleted? && h.kind.plan != UnknownPlan
    requires org != "" && IsAbout(a.subs, h, org) && org in a.plans
    ensures var b := OnHook(a, h, now, graceSetting);
            var plan := if h.kind.plan.Named? then h.kind.plan.plan else Pro;
            && b.plans == a.plans[org := plan]
            && (forall i :: 0 <= i < |a.subs| ==>
                  && i < |b.subs|
                  && if a.subs[i].org == org then Bought(a.subs[i], b.subs[i], plan, h.customer)
                     else b.subs[i] == a.subs[i])
            && (if HasSub(a.subs, org) then |b.subs| == |a.subs|
                else b.subs == a.subs + [Sub(org, plan, SubActive, h.customer, None)])
  {
    AboutIff(a, h, org);
  }

  /** The direct change of plan activates the organisation's rows but leaves their grace as it is. */
  lemma PlanChanges(a: Accounts, org: OrgId, plan: Plan)
    requires org in a.plans && HasSub(a.subs, org)
    ensures var b := SetPlan(a, org, plan);
            && b.plans == a.plans[org := plan] && |b.subs| == |a.subs|
            && forall i :: 0 <= i < |a.subs| ==>
                 b.subs[i] == if a.subs[i].org == org then a.subs[i].(plan := plan, status := SubActive) else a.subs[i]
  {
  }
}
