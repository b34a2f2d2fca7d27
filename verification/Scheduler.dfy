/**
 * The routine scheduler: a pass lists the due routines and then fires them one after
 * another, while people create, switch and delete routines between its steps.
 */
module Schedules {
  import opened Options
  import opened Sequences

  type Id = string

  datatype Trigger = Schedule | Event | Manual

  datatype Action = Action(title: string, prompt: string, refs: seq<string>, repo: string)

  datatype Routine = Routine(
    org: string, trigger: Trigger, interval: int, action: Action,
    enabled: bool, lastRun: Option<int>, next: Option<int>)

  /** An entry of a pass: what was listed, as it was when it was listed. */
  datatype Due = Due(id: Id, org: string, interval: int, action: Action)

  datatype Firing = Firing(id: Id, org: string, action: Action, at: int)

  function NextAfter(interval: int, now: int): Option<int> {
    if interval > 0 then Some(now + interval) else None
  }

  function NewRoutine(org: string, trigger: Trigger, interval: int, action: Action, now: int): Routine {
    Routine(org, trigger, interval, action, true, None, if trigger == Schedule then NextAfter(interval, now) else None)
  }

  predicate IsDue(r: Routine, now: int) {
    r.enabled && r.trigger == Schedule && r.next.Some? && r.next.value <= now
  }

  function MarkedRan(r: Routine, interval: int, now: int): Routine {
    r.(lastRun := Some(now), next := NextAfter(interval, now))
  }

  function Switched(r: Routine, enabled: bool, now: int): Routine {
    r.(enabled := enabled, next := if enabled then NextAfter(r.interval, now) else None)
  }

  /** The due routines in the order of a scan of the table. */
  function DueIn(rows: map<Id, Routine>, scan: seq<Id>, now: int): (due: seq<Due>)
    ensures |due| <= |scan|
    ensures forall k :: 0 <= k < |due| ==>
              due[k].id in scan && due[k].id in rows && IsDue(rows[due[k].id], now)
              && due[k].org == rows[due[k].id].org && due[k].interval == rows[due[k].id].interval
              && due[k].action == rows[due[k].id].action
  {
    if scan == [] then []
    else
      var id, due := scan[|scan| - 1], DueIn(rows, scan[..|scan| - 1], now);
      if id in rows && IsDue(rows[id], now)
      then due + [Due(id, rows[id].org, rows[id].interval, rows[id].action)]
      else due
  }

  // ---------- the table and the pass in progress ----------

  /** When a routine was created, and the interval it keeps for life. */
  datatype Birth = Birth(at: int, interval: int)

  datatype State = State(now: int, rows: map<Id, Routine>, pass: seq<Due>, fired: seq<Firing>, born: map<Id, Birth>)

  datatype Act =
    | Create(newId: Id, org: string, trigger: Trigger, interval: int, action: Action)
    | Switch(id: Id, org: string, on: bool)
    | Delete(id: Id, org: string)
    | RunByHand(id: Id)
    | List(scan: seq<Id>)
    | Fire

  datatype Timed = Timed(at: int, act: Act)

  predicate OwnedBy(rows: map<Id, Routine>, id: Id, org: string) {
    id in rows && rows[id].org == org
  }

  /** One act, at its own time; a pass is listed only when the previous one has ended. */
  function Acted(s: State, a: Act): State {
    match a
    case Create(id, org, trigger, interval, action) =>
      if id in s.born then s
      else s.(rows := s.rows[id := NewRoutine(org, trigger, interval, action, s.now)],
              born := s.born[id := Birth(s.now, interval)])
    case Switch(id, org, on) =>
      if OwnedBy(s.rows, id, org) then s.(rows := s.rows[id := Switched(s.rows[id], on, s.now)]) else s
    case Delete(id, org) =>
      if OwnedBy(s.rows, id, org) then s.(rows := s.rows - {id}) else s
    case RunByHand(_) => s
    case List(scan) =>
      if s.pass == [] && Distinct(scan) then s.(pass := DueIn(s.rows, scan, s.now)) else s
    case Fire =>
      if s.pass == [] then s
      else
        var d := s.pass[0];
        s.(pass := s.pass[1..],
           fired := s.fired + [Firing(d.id, d.org, d.action, s.now)],
           rows := if d.id in s.rows then s.rows[d.id := MarkedRan(s.rows[d.id], d.interval, s.now)] else s.rows)
  }

  function Step(s: State, e: Timed): State {
    if e.at < s.now then s else Acted(s.(now := e.at), e.act)
  }

  function RunAll(s: State, es: seq<Timed>): State {
    if es == [] then s else Step(RunAll(s, es[..|es| - 1]), es[|es| - 1])
  }

  function Start(t: int): State {
    State(t, map[], [], [], map[])
  }

  /** When a routine was fired by a pass. */
  function FiredAt(fired: seq<Firing>, id: Id): seq<int> {
    if fired == [] then []
    else
      var f := fired[|fired| - 1];
      FiredAt(fired[..|fired| - 1], id) + if f.id == id then [f.at] else []
  }

  // ---------- spacing ----------

  function Last(b: Birth, ts: seq<int>): int {
    if ts == [] then b.at else ts[|ts| - 1]
  }

  /** Every firing is an interval after the one before it, or after the creation. */
  ghost predicate Spaced(b: Birth, ts: seq<int>) {
    forall i :: 0 <= i < |ts| ==> Last(b, ts[..i]) + b.interval <= ts[i]
  }

  predicate Listed(pass: seq<Due>, id: Id) {
    exists k :: 0 <= k < |pass| && pass[k].id == id
  }

  ghost predicate Timely(s: State, id: Id, b: Birth) {
    var ts := FiredAt(s.fired, id);
    && Spaced(b, ts) && Last(b, ts) <= s.now
    && (ts != [] ==> b.interval > 0)
    && (id in s.rows ==> RowTimely(s.rows[id], b, Last(b, ts)))
    && (Listed(s.pass, id) ==> b.interval > 0 && Last(b, ts) + b.interval <= s.now)
  }

  ghost predicate RowTimely(r: Routine, b: Birth, last: int) {
    r.interval == b.interval && (r.next.Some? ==> b.interval > 0 && last + b.interval <= r.next.value)
  }

  /** What a pass holds: routines once created, each once, with their own interval. */
  ghost predicate PassOk(pass: seq<Due>, born: map<Id, Birth>) {
    && (forall k :: 0 <= k < |pass| ==> pass[k].id in born && pass[k].interval == born[pass[k].id].interval)
    && EachOnce(pass)
  }

  ghost predicate EachOnce(pass: seq<Due>) {
    forall j, k :: 0 <= j < k < |pass| ==> pass[j].id != pass[k].id
  }

  ghost predicate Inv(s: State) {
    && s.rows.Keys <= s.born.Keys
    && PassOk(s.pass, s.born)
    && (forall f :: f in s.fired ==> f.id in s.born)
    && forall id :: id in s.born ==> Timely(s, id, s.born[id])
  }

  lemma {:induction false} NotFired(fired: seq<Firing>, id: Id)
    requires forall f :: f in fired ==> f.id != id
    ensures FiredAt(fired, id) == []
    decreases |fired|
  {
    if fired != [] {
      NotFired(fired[..|fired| - 1], id);
    }
  }

  lemma {:induction false} DueOnce(rows: map<Id, Routine>, scan: seq<Id>, now: int)
    requires Distinct(scan)
    ensures EachOnce(DueIn(rows, scan, now))
    decreases |scan|
  {
    if scan != [] {
      var n := |scan| - 1;
      DueOnce(rows, scan[..n], now);
      var due, r := DueIn(rows, scan[..n], now), DueIn(rows, scan, now);
      forall j, k | 0 <= j < k < |r| ensures r[j].id != r[k].id {
        assert r[j] == due[j] && due[j].id in scan[..n];
        var i :| 0 <= i < n && scan[..n][i] == due[j].id;
        assert scan[i] != scan[n];
        assert if k < |due| then r[k] == due[k] else r[k].id == scan[n];
      }
    }
  }

  lemma {:induction false} DueHasAll(rows: map<Id, Routine>, scan: seq<Id>, now: int, id: Id)
    ensures Listed(DueIn(rows, scan, now), id) <==>
              && id in scan && id in rows
              && rows[id].enabled && rows[id].trigger == Schedule
              && rows[id].next.Some? && rows[id].next.value <= now
    decreases |scan|
  {
    if scan != [] {
      var due := DueIn(rows, scan[..|scan| - 1], now);
      DueHasAll(rows, scan[..|scan| - 1], now, id);
      assert scan == scan[..|scan| - 1] + [scan[|scan| - 1]];
      if Listed(due, id) {
        var k :| 0 <= k < |due| && due[k].id == id;
        assert DueIn(rows, scan, now)[k].id == id;
      }
      if id == scan[|scan| - 1] && id in rows && IsDue(rows[id], now) {
        assert DueIn(rows, scan, now)[|due|].id == id;
      }
    }
  }

  /** What is listed comes in the order of the scan. */
  lemma {:induction false} DueInOrder(rows: map<Id, Routine>, scan: seq<Id>, now: int, j: nat, k: nat)
    requires j < k < |DueIn(rows, scan, now)|
    ensures exists a, b ::
              0 <= a < b < |scan| && scan[a] == DueIn(rows, scan, now)[j].id && scan[b] == DueIn(rows, scan, now)[k].id
    decreases |scan|
  {
    var n := |scan| - 1;
    var before, due := DueIn(rows, scan[..n], now), DueIn(rows, scan, now);
    assert due[j] == before[j];
    if k < |before| {
      DueInOrder(rows, scan[..n], now, j, k);
    } else {
      var a :| 0 <= a < n && scan[..n][a] == before[j].id;
      assert scan[a] == due[j].id && scan[n] == due[k].id;
    }
  }

  // ---------- when a routine is due again ----------

  /** A routine of the organisation, scheduled for `n` and enabled. */
  predicate Armed(s: State, id: Id, org: string, n: int) {
    && id in s.born && id in s.rows && s.rows[id].org == org
    && s.rows[id].enabled && s.rows[id].trigger == Schedule && s.rows[id].next == Some(n)
  }

  /** A new scheduled routine is armed for one interval after its creation, if it has one. */
  lemma CreationArms(s: State, t: int, id: Id, org: string, interval: int, action: Action)
    requires t >= s.now && id !in s.born
    ensures var s' := Step(s, Timed(t, Create(id, org, Schedule, interval, action)));
            && (interval > 0 ==> Armed(s', id, org, t + interval))
            && (interval <= 0 ==> forall n :: !Armed(s', id, org, n))
  {
  }

  /** So is one that is enabled, from then on. */
  lemma EnablingArms(s: State, t: int, id: Id, org: string)
    requires t >= s.now && id in s.born && id in s.rows && s.rows[id].org == org && s.rows[id].trigger == Schedule
    ensures var s' := Step(s, Timed(t, Switch(id, org, true)));
            && (s.rows[id].interval > 0 ==> Armed(s', id, org, t + s.rows[id].interval))
            && (s.rows[id].interval <= 0 ==> forall n :: !Armed(s', id, org, n))
  {
  }

  /** And one that has been fired, from the moment it was. */
  lemma FiringArms(s: State, t: int, id: Id, org: string)
    requires t >= s.now && s.pass != [] && s.pass[0].id == id && OwnedBy(s.rows, id, org)
    requires id in s.born && id in s.rows && s.rows[id].enabled && s.rows[id].trigger == Schedule
    ensures var s' := Step(s, Timed(t, Fire));
            var interval := s.pass[0].interval;
            && (interval > 0 ==> Armed(s', id, org, t + interval))
            && (interval <= 0 ==> forall n :: !Armed(s', id, org, n))
            && s'.rows[id].lastRun == Some(t)
  {
  }

  /** The routine is neither switched nor deleted by its organisation, whatever others try. */
  predicate Leaves(e: Timed, id: Id, org: string) {
    (e.act.Switch? || e.act.Delete?) ==> e.act.id != id || e.act.org != org
  }

  lemma OnlyFiringFires(s: State, e: Timed)
    requires e.at < s.now || !e.act.Fire? || s.pass == []
    ensures Step(s, e).fired == s.fired
  {
  }

  lemma FiredGrows(s: State, e: Timed, id: Id)
    ensures |FiredAt(Step(s, e).fired, id)| >= |FiredAt(s.fired, id)|
  {
    if e.at < s.now || !e.act.Fire? || s.pass == [] {
      OnlyFiringFires(s, e);
    } else {
      FiredSnoc(s.fired, Firing(s.pass[0].id, s.pass[0].org, s.pass[0].action, e.at), id);
    }
  }

  /** The step fires the routine. */
  predicate Takes(s: State, e: Timed, id: Id) {
    e.at >= s.now && e.act.Fire? && s.pass != [] && s.pass[0].id == id
  }

  lemma FiringIsCounted(s: State, e: Timed, id: Id)
    requires Takes(s, e, id)
    ensures |FiredAt(Step(s, e).fired, id)| > |FiredAt(s.fired, id)|
  {
    FiredSnoc(s.fired, Firing(id, s.pass[0].org, s.pass[0].action, e.at), id);
  }

  lemma RowStays(s: State, e: Timed, id: Id, org: string)
    requires id in s.born && OwnedBy(s.rows, id, org) && Leaves(e, id, org) && !Takes(s, e, id)
    ensures id in Step(s, e).born && id in Step(s, e).rows && Step(s, e).rows[id] == s.rows[id]
  {
  }

  lemma StepStaysArmed(s: State, e: Timed, id: Id, org: string, n: int)
    requires Armed(s, id, org, n) && Leaves(e, id, org)
    ensures Armed(Step(s, e), id, org, n) || |FiredAt(Step(s, e).fired, id)| > |FiredAt(s.fired, id)|
  {
    if Takes(s, e, id) {
      FiringIsCounted(s, e, id);
    } else {
      RowStays(s, e, id, org);
    }
  }

  lemma {:induction false} StaysArmed(s: State, es: seq<Timed>, id: Id, org: string, n: int)
    requires Armed(s, id, org, n) && forall e :: e in es ==> Leaves(e, id, org)
    ensures Armed(RunAll(s, es), id, org, n) || |FiredAt(RunAll(s, es).fired, id)| > |FiredAt(s.fired, id)|
    ensures |FiredAt(RunAll(s, es).fired, id)| >= |FiredAt(s.fired, id)|
    decreases |es|
  {
    if es != [] {
      var r := RunAll(s, es[..|es| - 1]);
      var e := es[|es| - 1];
      StaysArmed(s, es[..|es| - 1], id, org, n);
      FiredGrows(r, e, id);
      if Armed(r, id, org, n) {
        StepStaysArmed(r, e, id, org, n);
      }
    }
  }

  /**
   * A routine that is armed, and then neither switched nor deleted by its organisation nor
   * fired, is listed by the next pass that scans it exactly if its time has come by then:
   * not before, and without fail after.
   */
  lemma ListedExactlyWhenDue(s: State, es: seq<Timed>, id: Id, org: string, n: int, u: int, scan: seq<Id>)
    requires Armed(s, id, org, n) && forall e :: e in es ==> Leaves(e, id, org)
    requires var r := RunAll(s, es);
             r.pass == [] && u >= r.now && |FiredAt(r.fired, id)| == |FiredAt(s.fired, id)|
    requires Distinct(scan) && id in scan
    ensures Listed(Step(RunAll(s, es), Timed(u, List(scan))).pass, id) <==> u >= n
  {
    StaysArmed(s, es, id, org, n);
    DueHasAll(RunAll(s, es).rows, scan, u, id);
  }

  // ---------- every act keeps the spacing ----------

  lemma LaterKeeps(s: State, t: int)
    requires Inv(s) && t >= s.now
    ensures Inv(s.(now := t))
  {
    forall id | id in s.born ensures Timely(s.(now := t), id, s.born[id]) {
      assert Timely(s, id, s.born[id]);
    }
  }

  lemma CreateKeeps(s: State, a: Act)
    requires Inv(s) && a.Create?
    ensures Inv(Acted(s, a))
  {
    var r := Acted(s, a);
    if a.newId !in s.born {
      NotFired(s.fired, a.newId);
      forall id | id in r.born ensures Timely(r, id, r.born[id]) {
        assert id != a.newId ==> Timely(s, id, s.born[id]);
      }
    }
  }

  lemma RowsKeep(s: State, a: Act)
    requires Inv(s) && (a.Switch? || a.Delete?)
    ensures Inv(Acted(s, a))
  {
    var r := Acted(s, a);
    forall id | id in r.born ensures Timely(r, id, r.born[id]) {
      assert Timely(s, id, s.born[id]);
    }
  }

  lemma ListedPassOk(s: State, scan: seq<Id>)
    requires Inv(s) && Distinct(scan)
    ensures PassOk(DueIn(s.rows, scan, s.now), s.born)
  {
    var due := DueIn(s.rows, scan, s.now);
    DueOnce(s.rows, scan, s.now);
    forall k | 0 <= k < |due| ensures due[k].id in s.born && due[k].interval == s.born[due[k].id].interval {
      assert Timely(s, due[k].id, s.born[due[k].id]);
    }
  }

  lemma ListedTimely(s: State, scan: seq<Id>, id: Id, b: Birth)
    requires Timely(s, id, b)
    ensures Timely(s.(pass := DueIn(s.rows, scan, s.now)), id, b)
  {
    DueHasAll(s.rows, scan, s.now, id);
  }

  lemma ListKeeps(s: State, scan: seq<Id>)
    requires Inv(s) && Distinct(scan)
    ensures Inv(s.(pass := DueIn(s.rows, scan, s.now)))
  {
    ListedPassOk(s, scan);
    forall id | id in s.born ensures Timely(s.(pass := DueIn(s.rows, scan, s.now)), id, s.born[id]) {
      ListedTimely(s, scan, id, s.born[id]);
    }
  }

  lemma SpacedSnoc(b: Birth, ts: seq<int>, t: int)
    requires Spaced(b, ts) && Last(b, ts) + b.interval <= t
    ensures Spaced(b, ts + [t])
  {
    forall i | 0 <= i < |ts + [t]| ensures Last(b, (ts + [t])[..i]) + b.interval <= (ts + [t])[i] {
      assert (ts + [t])[..i] == ts[..i];
      if i == |ts| {
        assert ts[..i] == ts;
      }
    }
  }

  lemma FiredSnoc(fired: seq<Firing>, f: Firing, id: Id)
    ensures FiredAt(fired + [f], id) == if f.id == id then FiredAt(fired, id) + [f.at] else FiredAt(fired, id)
  {
    InitOfSnoc(fired, f);
    AppendEmpty(FiredAt(fired, id));
  }

  lemma Popped(pass: seq<Due>, id: Id)
    requires pass != []
    ensures Listed(pass[1..], id) ==> Listed(pass, id)
    ensures Listed(pass, id) && !Listed(pass[1..], id) ==> pass[0].id == id
  {
    if Listed(pass, id) {
      var k :| 0 <= k < |pass| && pass[k].id == id;
      assert k > 0 ==> pass[1..][k - 1].id == id;
    }
    if Listed(pass[1..], id) {
      var k :| 0 <= k < |pass[1..]| && pass[1..][k].id == id;
      assert pass[k + 1].id == id;
    }
  }

  lemma PoppedOnce(pass: seq<Due>)
    requires pass != [] && EachOnce(pass)
    ensures Listed(pass, pass[0].id) && !Listed(pass[1..], pass[0].id) && EachOnce(pass[1..])
  {
  }

  lemma FireKeepsFired(s: State, b: Birth)
    requires s.pass != [] && s.pass[0].interval == b.interval && Timely(s, s.pass[0].id, b)
    requires Listed(s.pass, s.pass[0].id) && !Listed(s.pass[1..], s.pass[0].id)
    ensures Timely(Acted(s, Fire), s.pass[0].id, b)
  {
    var d := s.pass[0];
    FiredSnoc(s.fired, Firing(d.id, d.org, d.action, s.now), d.id);
    SpacedSnoc(b, FiredAt(s.fired, d.id), s.now);
  }

  lemma FireKeepsOther(s: State, id: Id)
    requires s.pass != [] && id in s.born && id != s.pass[0].id && Timely(s, id, s.born[id])
    ensures Timely(Acted(s, Fire), id, s.born[id])
  {
    var d := s.pass[0];
    FiredSnoc(s.fired, Firing(d.id, d.org, d.action, s.now), id);
    Popped(s.pass, id);
  }

  lemma {:induction false} FireKeeps(s: State)
    requires Inv(s)
    ensures Inv(Acted(s, Fire))
  {
    if s.pass != [] {
      PoppedOnce(s.pass);
      forall id | id in s.born ensures Timely(Acted(s, Fire), id, s.born[id]) {
        if id == s.pass[0].id {
          FireKeepsFired(s, s.born[id]);
        } else {
          FireKeepsOther(s, id);
        }
      }
    }
  }

  lemma {:induction false} StepKeeps(s: State, e: Timed)
    requires Inv(s)
    ensures Inv(Step(s, e))
  {
    if e.at >= s.now {
      LaterKeeps(s, e.at);
      var t := s.(now := e.at);
      match e.act {
        case Create(_, _, _, _, _) => CreateKeeps(t, e.act);
        case Switch(_, _, _) => RowsKeep(t, e.act);
        case Delete(_, _) => RowsKeep(t, e.act);
        case RunByHand(_) =>
        case List(scan) =>
          if t.pass == [] && Distinct(scan) {
            ListKeeps(t, scan);
          }
        case Fire => FireKeeps(t);
      }
    }
  }

  lemma {:induction false} RunKeeps(s: State, es: seq<Timed>)
    requires Inv(s)
    ensures Inv(RunAll(s, es))
    decreases |es|
  {
    if es != [] {
      RunKeeps(s, es[..|es| - 1]);
      StepKeeps(RunAll(s, es[..|es| - 1]), es[|es| - 1]);
    }
  }

  lemma {:induction false} SpacedSince(b: Birth, ts: seq<int>, i: nat)
    requires Spaced(b, ts) && i < |ts|
    ensures b.at + (i + 1) * b.interval <= ts[i]
  {
    assert Last(b, ts[..i]) + b.interval <= ts[i];
    if i > 0 {
      SpacedSince(b, ts, i - 1);
      assert (i + 1) * b.interval == i * b.interval + b.interval;
    }
  }

  lemma {:induction false} SpacedApart(b: Birth, ts: seq<int>, i: nat, j: nat)
    requires Spaced(b, ts) && i <= j < |ts|
    ensures ts[i] + (j - i) * b.interval <= ts[j]
    decreases j
  {
    if i < j {
      assert Last(b, ts[..j]) + b.interval <= ts[j];
      SpacedApart(b, ts, i, j - 1);
      assert (j - i) * b.interval == (j - 1 - i) * b.interval + b.interval;
    }
  }

  /**
   * Over any run, the firings of a routine with interval `I` are at least `I` apart and
   * the n-th comes at least `n * I` after its creation: `N * I` never exceeds the time
   * elapsed since then, whatever was switched, deleted or run by hand between.
   */
  lemma FiringsAreSpaced(t: int, es: seq<Timed>, id: Id)
    ensures var s := RunAll(Start(t), es);
            var ts := FiredAt(s.fired, id);
            if id !in s.born then ts == [] else
              && |ts| * s.born[id].interval <= Elapsed(s, id, ts)
              && (ts != [] ==> s.born[id].interval > 0)
              && forall i, j :: 0 <= i <= j < |ts| ==> ts[i] + (j - i) * s.born[id].interval <= ts[j]
  {
    var s := RunAll(Start(t), es);
    var ts := FiredAt(s.fired, id);
    RunKeeps(Start(t), es);
    if id !in s.born {
      NotFired(s.fired, id);
    } else {
      assert Timely(s, id, s.born[id]);
      forall i, j | 0 <= i <= j < |ts| ensures ts[i] + (j - i) * s.born[id].interval <= ts[j] {
        SpacedApart(s.born[id], ts, i, j);
      }
      if ts != [] {
        SpacedSince(s.born[id], ts, |ts| - 1);
      }
    }
  }

  /** The time from a routine's creation to its last firing, or to now if it has none. */
  function Elapsed(s: State, id: Id, ts: seq<int>): int
    requires id in s.born
  {
    (if ts == [] then s.now else ts[|ts| - 1]) - s.born[id].at
  }

  // ---------- disabled routines ----------

  /** No pass will fire the routine unless someone enables it. */
  predicate Resting(s: State, id: Id) {
    id in s.born && !Listed(s.pass, id) && (id in s.rows ==> !s.rows[id].enabled)
  }

  predicate Enables(e: Timed, id: Id) {
    e.act.Switch? && e.act.id == id && e.act.on
  }

  lemma ListRests(s: State, scan: seq<Id>, id: Id)
    requires Resting(s, id)
    ensures Resting(Acted(s, List(scan)), id)
  {
    DueHasAll(s.rows, scan, s.now, id);
  }

  lemma FireRests(s: State, id: Id)
    requires Resting(s, id)
    ensures Resting(Acted(s, Fire), id) && FiredAt(Acted(s, Fire).fired, id) == FiredAt(s.fired, id)
  {
    if s.pass != [] {
      var d := s.pass[0];
      FiredSnoc(s.fired, Firing(d.id, d.org, d.action, s.now), id);
      Popped(s.pass, id);
      assert Listed(s.pass, d.id);
    }
  }

  lemma RestsOn(s: State, e: Timed, id: Id)
    requires Resting(s, id) && !Enables(e, id)
    ensures Resting(Step(s, e), id) && FiredAt(Step(s, e).fired, id) == FiredAt(s.fired, id)
  {
    if e.at >= s.now {
      var t := s.(now := e.at);
      match e.act {
        case List(scan) => ListRests(t, scan, id);
        case Fire => FireRests(t, id);
        case _ =>
      }
    }
  }

  lemma {:induction false} StaysAtRest(s: State, es: seq<Timed>, id: Id)
    requires Resting(s, id) && forall e :: e in es ==> !Enables(e, id)
    ensures Resting(RunAll(s, es), id) && FiredAt(RunAll(s, es).fired, id) == FiredAt(s.fired, id)
    decreases |es|
  {
    if es != [] {
      StaysAtRest(s, es[..|es| - 1], id);
      RestsOn(RunAll(s, es[..|es| - 1]), es[|es| - 1], id);
    }
  }

  /** `n` firings of the pass in progress, all at time `t`. */
  function Fires(n: nat, t: int): seq<Timed> {
    if n == 0 then [] else Fires(n - 1, t) + [Timed(t, Fire)]
  }

  lemma {:induction false} FiresGoOn(s: State, n: nat)
    requires n <= |s.pass|
    ensures var r := RunAll(s, Fires(n, s.now));
            && r.pass == s.pass[n..] && r.now == s.now && |r.fired| == |s.fired| + n
            && r.fired[..|s.fired|] == s.fired
            && (n > 0 ==> r.fired[|r.fired| - 1].id == s.pass[n - 1].id)
            && forall e :: e in Fires(n, s.now) ==> e.act.Fire?
  {
    if n > 0 {
      FiresGoOn(s, n - 1);
      InitOfSnoc(Fires(n - 1, s.now), Timed(s.now, Fire));
    }
  }

  lemma {:induction false} MoreFired(a: seq<Firing>, b: seq<Firing>, id: Id)
    requires |a| <= |b| && b[..|a|] == a
    ensures |FiredAt(b, id)| >= |FiredAt(a, id)|
    ensures |a| < |b| && b[|b| - 1].id == id ==> |FiredAt(b, id)| > |FiredAt(a, id)|
    decreases |b|
  {
    if |a| < |b| {
      var n := |b| - 1;
      TakeTake(b, |a|, n);
      MoreFired(a, b[..n], id);
    } else {
      assert b == a;
    }
  }

  /** Some continuation in which nobody enables the routine fires it. */
  ghost predicate MayFire(s: State, id: Id) {
    exists es ::
      (forall e :: e in es ==> !Enables(e, id)) && |FiredAt(RunAll(s, es).fired, id)| > |FiredAt(s.fired, id)|
  }

  lemma ListedFires(s: State, id: Id)
    requires Listed(s.pass, id)
    ensures MayFire(s, id)
  {
    var k :| 0 <= k < |s.pass| && s.pass[k].id == id;
    FiresGoOn(s, k + 1);
    var es := Fires(k + 1, s.now);
    MoreFired(s.fired, RunAll(s, es).fired, id);
    assert forall e :: e in es ==> !Enables(e, id);
  }

  /**
   * A disabled routine can still be fired exactly when the pass in progress has already
   * listed it; one that is disabled between passes never fires until it is enabled.
   */
  lemma DisabledFiresIff(s: State, id: Id)
    requires id in s.rows && id in s.born && !s.rows[id].enabled
    ensures MayFire(s, id) <==> Listed(s.pass, id)
  {
    if Listed(s.pass, id) {
      ListedFires(s, id);
    } else if MayFire(s, id) {
      var es :| (forall e :: e in es ==> !Enables(e, id))
                && |FiredAt(RunAll(s, es).fired, id)| > |FiredAt(s.fired, id)|;
      StaysAtRest(s, es, id);
    }
  }

  lemma RunThree(s: State, a: Timed, b: Timed, c: Timed)
    ensures RunAll(s, [a, b, c]) == Step(Step(Step(s, a), b), c)
  {
    assert [a, b, c][..2] == [a, b] && [a, b][..1] == [a] && [a][..0] == [];
    assert RunAll(s, [a]) == Step(s, a);
    assert RunAll(s, [a, b]) == Step(Step(s, a), b);
  }

  lemma DueAlone(rows: map<Id, Routine>, id: Id, now: int)
    requires id in rows && IsDue(rows[id], now)
    ensures DueIn(rows, [id], now) == [Due(id, rows[id].org, rows[id].interval, rows[id].action)]
  {
    assert [id][..0] == [];
  }

  /** Created at 0 with an interval of 60, listed at 60, disabled at 61: fired at 62 all the same. */
  lemma DisabledWhileListed(id: Id, org: string, action: Action)
    ensures var s := RunAll(Start(0), [Timed(0, Create(id, org, Schedule, 60, action)),
                                       Timed(60, List([id])), Timed(61, Switch(id, org, false))]);
            && id in s.rows && !s.rows[id].enabled && id in s.born && Listed(s.pass, id)
            && FiredAt(s.fired, id) == [] && FiredAt(Step(s, Timed(62, Fire)).fired, id) == [62]
  {
    var s0, s1 := Start(0), Step(Start(0), Timed(0, Create(id, org, Schedule, 60, action)));
    RunThree(s0, Timed(0, Create(id, org, Schedule, 60, action)), Timed(60, List([id])),
             Timed(61, Switch(id, org, false)));
    DueAlone(s1.rows, id, 60);
    var s2 := Step(s1, Timed(60, List([id])));
    assert s2.pass == [Due(id, org, 60, action)];
    var s3 := Step(s2, Timed(61, Switch(id, org, false)));
    assert s3.pass[0].id == id;
    FiredSnoc(s3.fired, Firing(id, org, action, 62), id);
  }
}

/** The scheduler's pass as it is written, over the table of routines. */
module Scheduler {
  import opened Options
  import opened Sequences
  import opened Schedules
  import Pipeline
  import Hubs
  import Orchestrator

  class Db {
    var rows: map<Id, Routine>

    constructor ()
      ensures rows == map[]
    {
      rows := map[];
    }

    method CreateRoutine(id: Id, org: string, trigger: Trigger, interval: int, action: Action, now: int)
      modifies this
      ensures rows == old(rows)[id := NewRoutine(org, trigger, interval, action, now)]
    {
      var next := None;
      if trigger == Schedule && interval > 0 {
        next := Some(now + interval);
      }
      rows := rows[id := Routine(org, trigger, interval, action, true, None, next)];
    }

    method DueRoutines(scan: seq<Id>, now: int) returns (due: seq<Due>)
      ensures due == DueIn(rows, scan, now)
    {
      due := [];
      for i := 0 to |scan|
        invariant due == DueIn(rows, scan[..i], now)
      {
        InitOfSnoc(scan[..i], scan[i]);
        assert scan[..i] + [scan[i]] == scan[..i + 1];
        if scan[i] in rows {
          var r := rows[scan[i]];
          if r.enabled && r.trigger == Schedule && r.next.Some? && r.next.value <= now {
            due := due + [Due(scan[i], r.org, r.interval, r.action)];
          }
        }
      }
      assert scan[..|scan|] == scan;
    }

    method MarkRoutineRan(id: Id, interval: int, now: int)
      modifies this
      ensures rows == if id in old(rows) then old(rows)[id := MarkedRan(old(rows)[id], interval, now)] else old(rows)
    {
      var next := None;
      if interval > 0 {
        next := Some(now + interval);
      }
      if id in rows {
        rows := rows[id := rows[id].(lastRun := Some(now), next := next)];
      }
    }

    method SetRoutineEnabled(org: string, id: Id, enabled: bool, now: int)
      modifies this
      ensures rows == if OwnedBy(old(rows), id, org) then old(rows)[id := Switched(old(rows)[id], enabled, now)]
                      else old(rows)
    {
      var next := None;
      if enabled {
        var interval := if id in rows then rows[id].interval else 0;
        if interval > 0 {
          next := Some(now + interval);
        }
      }
      if id in rows && rows[id].org == org {
        rows := rows[id := rows[id].(enabled := enabled, next := next)];
      }
    }

    method DeleteRoutine(org: string, id: Id)
      modifies this
      ensures rows == if OwnedBy(old(rows), id, org) then old(rows) - {id} else old(rows)
    {
      if id in rows && rows[id].org == org {
        rows := rows - {id};
      }
    }
  }

  /** The steps of one pass: the listing and then a firing for every entry, each at its own time. */
  ghost function PassSteps(scan: seq<Id>, clock: nat -> int, n: nat): seq<Timed> {
    if n == 0 then [Timed(clock(0), List(scan))] else PassSteps(scan, clock, n - 1) + [Timed(clock(n), Fire)]
  }

  // ---------- the tasks a pass creates ----------

  function RepoOf(a: Action): Option<string> {
    if a.repo == "" then None else Some(a.repo)
  }

  /** The tasks, where they belong, and the hub. */
  datatype Work = Work(
    tasks: map<string, Pipeline.Task>,
    origins: map<string, Orchestrator.Origin>,
    hub: Hubs.State<Orchestrator.Envelope>)

  /** A new task of the routine's organisation and repository, and its plan request. */
  function Ordered(w: Work, r: Due, task: string): Work {
    Work(w.tasks[task := Pipeline.NEW_TASK],
         w.origins[task := Orchestrator.Origin(r.org, RepoOf(r.action))],
         Hubs.Sent(w.hub, r.org, Orchestrator.Envelope(task, Pipeline.AskPlan)))
  }

  /** After the first `n` firings of what was listed; `ids` are the new tasks' names. */
  function OrderedAll(w: Work, due: seq<Due>, ids: seq<string>, n: nat): Work
    requires n <= |due| && n <= |ids|
  {
    if n == 0 then w else Ordered(OrderedAll(w, due, ids, n - 1), due[n - 1], ids[n - 1])
  }

  /** The names are new and each is used once. */
  predicate NewNames(w: Work, ids: seq<string>) {
    Distinct(ids) && forall i :: 0 <= i < |ids| ==> ids[i] !in w.tasks
  }

  /** New names stay new until they are used. */
  lemma {:induction false} StillNew(w: Work, due: seq<Due>, ids: seq<string>, n: nat, i: nat)
    requires n <= |due| && n <= i < |ids| && NewNames(w, ids)
    ensures ids[i] !in OrderedAll(w, due, ids, n).tasks
    decreases n
  {
    if n > 0 {
      StillNew(w, due, ids, n - 1, i);
    }
  }

  class Server {
    const db: Db
    const tasks: Orchestrator.Server
    var fired: seq<Firing>
    ghost var born: map<Id, Birth>

    constructor (db: Db, tasks: Orchestrator.Server)
      ensures this.db == db && this.tasks == tasks && fired == [] && born == map[]
    {
      this.db, this.tasks, fired, born := db, tasks, [], map[];
    }

    ghost function View(now: int, pass: seq<Due>): State
      reads this, db
    {
      State(now, db.rows, pass, fired, born)
    }

    ghost function Tasks(): Work
      reads tasks.db, tasks.hub
    {
      Work(tasks.db.tasks, tasks.db.origins, tasks.hub.View())
    }

    /** A new task of the routine's organisation and repository, and its plan request. */
    method FireRoutine(r: Due, task: string, now: int)
      requires tasks.Ready() && task !in tasks.db.tasks
      modifies this`fired, tasks.db`tasks, tasks.db`origins, tasks.hub`channels
      ensures tasks.Ready()
      ensures Tasks() == Ordered(old(Tasks()), r, task)
      ensures fired == old(fired) + [Firing(r.id, r.org, r.action, now)]
      ensures tasks.db.tasks.Keys == old(tasks.db.tasks.Keys) + {task}
      ensures tasks.db.origins[task]
              == Orchestrator.Origin(r.org, if r.action.repo == "" then None else Some(r.action.repo))
    {
      var _ := tasks.CreateAndPlan(task, r.org, RepoOf(r.action));
      fired := fired + [Firing(r.id, r.org, r.action, now)];
    }

    /** The body of the loop over the due routines: one firing of the pass. */
    method FireNext(due: seq<Due>, i: nat, task: string, clock: nat -> int, ghost s: State, ghost scan: seq<Id>)
      requires i < |due| && clock(i) <= clock(i + 1)
      requires tasks.Ready() && task !in tasks.db.tasks
      requires View(clock(i), due[i..]) == RunAll(s, PassSteps(scan, clock, i))
      modifies this`fired, db, tasks.db`tasks, tasks.db`origins, tasks.hub`channels
      ensures tasks.Ready()
      ensures View(clock(i + 1), due[i + 1..]) == RunAll(s, PassSteps(scan, clock, i + 1))
      ensures Tasks() == Ordered(old(Tasks()), due[i], task)
    {
      FireRoutine(due[i], task, clock(i + 1));
      db.MarkRoutineRan(due[i].id, due[i].interval, clock(i + 1));
      OneFiring(s, scan, clock, i, due);
    }

    /** The loop over what was listed. */
    method FireAll(due: seq<Due>, clock: nat -> int, ids: seq<string>, ghost s: State, ghost scan: seq<Id>)
      requires forall i, j :: 0 <= i <= j ==> clock(i) <= clock(j)
      requires View(clock(0), due) == RunAll(s, PassSteps(scan, clock, 0))
      requires tasks.Ready() && NewNames(Tasks(), ids) && |due| <= |ids|
      modifies this`fired, db, tasks.db`tasks, tasks.db`origins, tasks.hub`channels
      ensures View(clock(|due|), []) == RunAll(s, PassSteps(scan, clock, |due|))
      ensures tasks.Ready()
      ensures Tasks() == OrderedAll(old(Tasks()), due, ids, |due|)
    {
      ghost var before := Tasks();
      assert due[0..] == due && OrderedAll(before, due, ids, 0) == before;
      for i := 0 to |due|
        invariant View(clock(i), due[i..]) == RunAll(s, PassSteps(scan, clock, i))
        invariant tasks.Ready()
        invariant Tasks() == OrderedAll(before, due, ids, i)
      {
        StillNew(before, due, ids, i, i);
        assert clock(i) <= clock(i + 1);
        FireNext(due, i, ids[i], clock, s, scan);
      }
      assert due[|due|..] == [];
    }

    /**
     * One tick: the due routines of the scan are fired in its order, each once, while the
     * clock goes on. It takes exactly the steps of a pass, and ends with none left; each
     * firing creates one task, named by `ids`, and asks its organisation for the plan.
     */
    method RunOnce(scan: seq<Id>, clock: nat -> int, ids: seq<string>) returns (n: nat)
      requires Distinct(scan) && forall i, j :: 0 <= i <= j ==> clock(i) <= clock(j)
      requires tasks.Ready() && NewNames(Tasks(), ids) && |scan| <= |ids|
      modifies this`fired, db, tasks.db`tasks, tasks.db`origins, tasks.hub`channels
      ensures n == |DueIn(old(db.rows), scan, clock(0))|
      ensures View(clock(n), []) == RunAll(old(View(clock(0), [])), PassSteps(scan, clock, n))
      ensures tasks.Ready()
      ensures Tasks() == OrderedAll(old(Tasks()), DueIn(old(db.rows), scan, clock(0)), ids, n)
    {
      ghost var s := View(clock(0), []);
      var due := db.DueRoutines(scan, clock(0));
      n := |due|;
      assert PassSteps(scan, clock, 0) == [Timed(clock(0), List(scan))];
      assert RunAll(s, PassSteps(scan, clock, 0)) == View(clock(0), due);
      FireAll(due, clock, ids, s, scan);
    }
  }

  lemma OneFiring(s: State, scan: seq<Id>, clock: nat -> int, i: nat, due: seq<Due>)
    requires i < |due|
    requires clock(i) <= clock(i + 1)
    requires var r := RunAll(s, PassSteps(scan, clock, i)); r.now == clock(i) && r.pass == due[i..]
    ensures var r := RunAll(s, PassSteps(scan, clock, i));
            var d := due[i];
            RunAll(s, PassSteps(scan, clock, i + 1))
            == State(clock(i + 1),
                     if d.id in r.rows then r.rows[d.id := MarkedRan(r.rows[d.id], d.interval, clock(i + 1))]
                     else r.rows,
                     due[i + 1..], r.fired + [Firing(d.id, d.org, d.action, clock(i + 1))], r.born)
  {
    InitOfSnoc(PassSteps(scan, clock, i), Timed(clock(i + 1), Fire));
    assert due[i..][1..] == due[i + 1..];
  }
}
