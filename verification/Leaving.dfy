/**
 * When a merged or failed task stays as it is, in runs of the whole system: exactly when
 * the reconnection that meets the blocked task finds it asleep. The runs that leave
 * `merged` answer every command in the order of the shared queues, other tasks' included.
 */
module Leaving {
  import opened Options
  import opened Sequences
  import opened Multisets
  import opened Pipeline
  import opened TaskRuns
  import opened Connections
  import opened System
  import opened Sessions

  // ---------- building sessions ----------

  ghost predicate Ends(beats: seq<Beat>, s: Session) {
    IsSession(beats) && SessionEnd(beats) == s
  }

  lemma AddBeat(beats: seq<Beat>, s: Session, b: Beat)
    requires Ends(beats, s) && Permitted(s, b)
    ensures Ends(beats + [b], Beaten(s, b))
  {
    InitOfSnoc(beats, b);
  }

  /** No beat from the `n`-th on opens a stream. */
  predicate Unopened(beats: seq<Beat>, n: nat) {
    forall i :: n <= i < |beats| ==> !beats[i].Reopen?
  }

  /** One exchange at the heads of the queues: the oldest command is answered and the answer handled. */
  function Exchanged(s: Sys, r: Reply): Sys
    requires WellFormed(s) && s.down != [] && s.down[0].id in s.tasks
  {
    var id := s.down[0].id;
    var e := OnReply(s.tasks[id], s.cfgs[id], r);
    s.(tasks := s.tasks[id := e.task],
       down := s.down[1..] + if e.send.Some? then [Order(id, e.send.value)] else [],
       workdirs := if s.down[0].step == DoExec then s.workdirs + {id} else s.workdirs)
  }

  predicate SameButAccounts(s: Sys, r: Sys) {
    r.(accounts := s.accounts) == s && WellFormed(r)
  }

  lemma ExchangeBeats(s: Session, r: Reply)
    requires WellFormed(s.sys) && s.up && s.sys.up == [] && s.sys.down != [] && s.sys.down[0].id in s.sys.tasks
    requires Answers(s.sys.down[0].step, r)
    ensures Permitted(s, Plain(ExecutorRuns(r, true)))
    ensures var s1 := Beaten(s, Plain(ExecutorRuns(r, true)));
            && WellFormed(s1.sys) && Permitted(s1, Plain(ServerReads(true)))
            && var s2 := Beaten(s1, Plain(ServerReads(true)));
               s2.up && SameButAccounts(Exchanged(s.sys, r), s2.sys)
  {
    var o := s.sys.down[0];
    var s1 := Beaten(s, Plain(ExecutorRuns(r, true)));
    assert s1.sys.up == [Answer(o.id, r)];
    assert [Answer(o.id, r)][1..] == [];
    var e := OnReply(s.sys.tasks[o.id], s.sys.cfgs[o.id], r);
    AppendEmpty(s.sys.down[1..]);
  }

  /** The exchange at the heads of the queues, as two beats more. */
  lemma Exchange(beats: seq<Beat>, s: Session, r: Reply) returns (more: seq<Beat>, n: Session)
    requires Ends(beats, s) && s.up && s.sys.up == [] && s.sys.down != [] && s.sys.down[0].id in s.sys.tasks
    requires Answers(s.sys.down[0].step, r)
    ensures Ends(beats + more, n) && n.up && Unopened(more, 0)
    ensures SameButAccounts(Exchanged(s.sys, r), n.sys)
  {
    var run, read := Plain(ExecutorRuns(r, true)), Plain(ServerReads(true));
    ExchangeBeats(s, r);
    AddBeat(beats, s, run);
    AddBeat(beats + [run], Beaten(s, run), read);
    n := Beaten(Beaten(s, run), read);
    more := [run, read];
    assert beats + [run] + [read] == beats + more;
  }

  // ---------- one task among the others ----------

  /** The task's row and configuration, and the one stream's queues. */
  predicate At(s: Session, id: string, t: Task, cfg: Config, down: seq<Order>) {
    && WellFormed(s.sys) && s.up && s.sys.up == [] && s.sys.down == down
    && id in s.sys.tasks && s.sys.tasks[id] == t && s.sys.cfgs[id] == cfg
  }

  /** Commands for other tasks that may fail, as everything but a plan may. */
  predicate Others(down: seq<Order>, id: string) {
    forall i :: 0 <= i < |down| ==> down[i].id != id && down[i].step != AskPlan
  }

  predicate AllKnown(s: Sys, down: seq<Order>) {
    forall i :: 0 <= i < |down| ==> down[i].id in s.tasks
  }

  lemma OtherFails(beats: seq<Beat>, s: Session, id: string, t: Task, cfg: Config, o: Order, rest: seq<Order>)
    returns (more: seq<Beat>, n: Session)
    requires Ends(beats, s) && At(s, id, t, cfg, [o] + rest) && o.id != id && o.step != AskPlan
    requires AllKnown(s.sys, [o] + rest)
    ensures Ends(beats + more, n) && Unopened(more, 0) && At(n, id, t, cfg, rest) && AllKnown(n.sys, rest)
  {
    TailOfAppend([o], rest);
    AppendEmpty(rest);
    KnownTail(s.sys, o, rest);
    more, n := Exchange(beats, s, StepFailed(o.step));
  }

  lemma {:induction false} OthersFail(
    beats: seq<Beat>, s: Session, id: string, t: Task, cfg: Config, before: seq<Order>, rest: seq<Order>)
    returns (more: seq<Beat>, n: Session)
    requires Ends(beats, s) && At(s, id, t, cfg, before + rest) && Others(before, id) && AllKnown(s.sys, before + rest)
    ensures Ends(beats + more, n) && Unopened(more, 0) && At(n, id, t, cfg, rest) && AllKnown(n.sys, rest)
    decreases |before|
  {
    if before == [] {
      AppendEmpty(rest);
      AppendEmpty(beats);
      return [], s;
    }
    HeadFirst(before, rest);
    var first, m := OtherFails(beats, s, id, t, cfg, before[0], before[1..] + rest);
    var after;
    after, n := OthersFail(beats + first, m, id, t, cfg, before[1..], rest);
    more := first + after;
    assert beats + first + after == beats + more;
  }

  /** The task's own exchange, when its command has come to the head. */
  lemma OwnExchange(
    beats: seq<Beat>, s: Session, id: string, t: Task, cfg: Config, step: Command, rest: seq<Order>, r: Reply)
    returns (more: seq<Beat>, n: Session)
    requires Ends(beats, s) && At(s, id, t, cfg, [Order(id, step)] + rest) && Answers(step, r)
    requires AllKnown(s.sys, rest)
    ensures Ends(beats + more, n) && Unopened(more, 0)
    ensures var e := OnReply(t, cfg, r);
            var down := rest + if e.send.Some? then [Order(id, e.send.value)] else [];
            At(n, id, e.task, cfg, down) && AllKnown(n.sys, down)
    ensures s.sys.workdirs <= n.sys.workdirs && (step == DoExec ==> id in n.sys.workdirs)
  {
    TailOfAppend([Order(id, step)], rest);
    AppendEmpty(rest);
    more, n := Exchange(beats, s, r);
  }

  /** The next command of the task, behind those of others. */
  lemma NextExchange(
    beats: seq<Beat>, s: Session, id: string, t: Task, cfg: Config,
    before: seq<Order>, step: Command, rest: seq<Order>, r: Reply)
    returns (more: seq<Beat>, n: Session)
    requires Ends(beats, s) && At(s, id, t, cfg, before + ([Order(id, step)] + rest)) && Answers(step, r)
    requires Others(before, id) && AllKnown(s.sys, before + ([Order(id, step)] + rest))
    ensures Ends(beats + more, n) && Unopened(more, 0)
    ensures var e := OnReply(t, cfg, r);
            var down := rest + if e.send.Some? then [Order(id, e.send.value)] else [];
            At(n, id, e.task, cfg, down) && AllKnown(n.sys, down)
  {
    var a, s1 := OthersFail(beats, s, id, t, cfg, before, [Order(id, step)] + rest);
    KnownTail(s1.sys, Order(id, step), rest);
    var b;
    b, n := OwnExchange(beats + a, s1, id, t, cfg, step, rest, r);
    more := a + b;
    assert beats + a + b == beats + more;
  }

  lemma KnownTail(s: Sys, o: Order, rest: seq<Order>)
    requires AllKnown(s, [o] + rest)
    ensures AllKnown(s, rest)
  {
    forall i | 0 <= i < |rest| ensures rest[i].id in s.tasks {
      assert ([o] + rest)[i + 1] == rest[i];
    }
  }

  // ---------- leaving a terminal row ----------

  /** The task is merged at the end of `merged`, and failed after `failed` beats more. */
  ghost predicate LeavesMerged(beats: seq<Beat>, merge: seq<Beat>, fail: seq<Beat>, id: string) {
    && Unopened(merge, 0) && Unopened(fail, 0)
    && IsSession(beats + merge) && IsSession(beats + merge + fail)
    && var m, n := SessionEnd(beats + merge).sys, SessionEnd(beats + merge + fail).sys;
       id in m.tasks && id in n.tasks && m.tasks[id].status == Merged && n.tasks[id].status == Failed
  }

  /** A woken MERGE: it is done, and the approval's MERGE behind the others fails. */
  lemma MergeWoken(
    beats: seq<Beat>, s: Session, id: string, t: Task, cfg: Config, before: seq<Order>, after: seq<Order>)
    returns (merge: seq<Beat>, fail: seq<Beat>)
    requires Ends(beats, s) && Others(before, id) && Others(after, id)
    requires At(s, id, t, cfg, before + ([Order(id, DoMerge)] + (after + [Order(id, DoMerge)])))
    requires AllKnown(s.sys, before + ([Order(id, DoMerge)] + (after + [Order(id, DoMerge)])))
    ensures LeavesMerged(beats, merge, fail, id)
  {
    var last := [Order(id, DoMerge)];
    AppendEmpty(last);
    AppendEmpty(after + last);
    var n, x;
    merge, n := NextExchange(beats, s, id, t, cfg, before, DoMerge, after + last, MergeDone);
    fail, x := NextExchange(beats + merge, n, id, n.sys.tasks[id], cfg, after, DoMerge, [], StepFailed(DoMerge));
  }

  /** The woken TEST passes; its REVIEW stands behind the approval's MERGE. */
  lemma TestPasses(
    beats: seq<Beat>, s: Session, id: string, t: Task, cfg: Config, before: seq<Order>, after: seq<Order>)
    returns (more: seq<Beat>, n: Session)
    requires Ends(beats, s) && cfg.cloneUrl && Others(before, id)
    requires At(s, id, t, cfg, before + ([Order(id, DoTest)] + (after + [Order(id, DoMerge)])))
    requires AllKnown(s.sys, before + ([Order(id, DoTest)] + (after + [Order(id, DoMerge)])))
    ensures Ends(beats + more, n) && Unopened(more, 0)
    ensures var down := after + ([Order(id, DoMerge)] + [Order(id, DoReview)]);
            At(n, id, WithCi(t, true), cfg, down) && AllKnown(n.sys, down)
  {
    more, n := NextExchange(beats, s, id, t, cfg, before, DoTest, after + [Order(id, DoMerge)], TestDone(true));
    assert after + [Order(id, DoMerge)] + [Order(id, DoReview)]
        == after + ([Order(id, DoMerge)] + [Order(id, DoReview)]);
  }

  lemma StepFails(beats: seq<Beat>, s: Session, id: string, t: Task, cfg: Config, step: Command)
    returns (more: seq<Beat>, n: Session)
    requires Ends(beats, s) && At(s, id, t, cfg, [Order(id, step)]) && step != AskPlan
    ensures Ends(beats + more, n) && Unopened(more, 0) && id in n.sys.tasks && n.sys.tasks[id].status == Failed
  {
    AppendEmpty([Order(id, step)]);
    more, n := OwnExchange(beats, s, id, t, cfg, step, [], StepFailed(step));
  }

  /** Then the MERGE is done, and the REVIEW fails. */
  lemma TestWoken(
    beats: seq<Beat>, s: Session, id: string, t: Task, cfg: Config, before: seq<Order>, after: seq<Order>)
    returns (merge: seq<Beat>, fail: seq<Beat>)
    requires Ends(beats, s) && cfg.cloneUrl && Others(before, id) && Others(after, id)
    requires At(s, id, t, cfg, before + ([Order(id, DoTest)] + (after + [Order(id, DoMerge)])))
    requires AllKnown(s.sys, before + ([Order(id, DoTest)] + (after + [Order(id, DoMerge)])))
    ensures LeavesMerged(beats, merge, fail, id)
  {
    var review := [Order(id, DoReview)];
    var a, s1 := TestPasses(beats, s, id, t, cfg, before, after);
    var b, s2 := NextExchange(beats + a, s1, id, WithCi(t, true), cfg, after, DoMerge, review, MergeDone);
    merge := a + b;
    assert beats + a + b == beats + merge;
    var x;
    AppendEmpty(review);
    fail, x := StepFails(beats + merge, s2, id, s2.sys.tasks[id], cfg, DoReview);
  }

  // ---------- what a reconnection leaves in the queues ----------

  /** Snapshots dispatch late steps, for tasks the system has. */
  predicate LateOrders(s: Sys) {
    forall i :: 0 <= i < |s.down| ==> s.down[i].id in s.tasks && s.down[i].step != AskPlan
  }

  lemma ReadKeepsLate(s: Sys, accepted: bool)
    requires WellFormed(s) && LateOrders(s) && s.up != [] && s.up[0].Workdir?
    ensures LateOrders(After(s, ServerReads(accepted)))
  {
  }

  lemma {:induction false} ReadAllKeepsLate(s: Sys, found: seq<string>, accepts: seq<bool>)
    requires WellFormed(s) && LateOrders(s) && s.up == Reports(found) && |accepts| == |found|
    ensures LateOrders(ReadAll(s, accepts)) && ReadAll(s, accepts).up == []
    decreases |found|
  {
    if found != [] {
      ReadKeepsShape(s, accepts[0]);
      ReportsTail(found);
      ReadKeepsLate(s, accepts[0]);
      ReadAllKeepsLate(After(s, ServerReads(accepts[0])), found[1..], accepts[1..]);
    }
  }

  /** Where the only command of a task stands in a queue. */
  lemma {:induction false} OnlyOrder(down: seq<Order>, id: string, step: Command)
    returns (before: seq<Order>, after: seq<Order>)
    requires DownOf(down, id) == multiset{ToExecutor(step)}
    requires forall i :: 0 <= i < |down| ==> down[i].step != AskPlan
    ensures down == before + ([Order(id, step)] + after) && Others(before, id) && Others(after, id)
    decreases |down|
  {
    if down[0].id == id {
      HeadOnly(down, id, step);
      NoneOf(down[1..], id);
      return [], down[1..];
    }
    Nothing(DownOf(down[1..], id));
    before, after := OnlyOrder(down[1..], id, step);
    assert [down[0]] + (before + ([Order(id, step)] + after)) == ([down[0]] + before) + ([Order(id, step)] + after);
    assert [down[0]] + down[1..] == down;
    before := [down[0]] + before;
  }

  lemma HeadOnly(down: seq<Order>, id: string, step: Command)
    requires down != [] && down[0].id == id && DownOf(down, id) == multiset{ToExecutor(step)}
    ensures down[0] == Order(id, step) && DownOf(down[1..], id) == multiset{}
  {
    var rest := DownOf(down[1..], id);
    assert ToExecutor(down[0].step) in DownOf(down, id);
    assert DownOf(down, id) == multiset{ToExecutor(step)} + rest;
    assert |multiset{ToExecutor(step)} + rest| == 1 + |rest|;
  }

  lemma HeadCounts(down: seq<Order>, id: string)
    requires down != [] && down[0].id == id
    ensures DownOf(down, id) != multiset{}
  {
    assert ToExecutor(down[0].step) in DownOf(down, id);
  }

  lemma {:induction false} NoneOf(down: seq<Order>, id: string)
    requires DownOf(down, id) == multiset{}
    ensures forall i :: 0 <= i < |down| ==> down[i].id != id
    decreases |down|
  {
    if down != [] {
      if down[0].id == id {
        HeadCounts(down, id);
      } else {
        Nothing(DownOf(down[1..], id));
        NoneOf(down[1..], id);
      }
    }
  }

  /** After a reconnection that woke the task: it is still blocked, and its command stands among others in the queue. */
  lemma Woken(s: Session, found: seq<string>, accepts: seq<bool>, id: string)
    returns (step: Command, before: seq<Order>, after: seq<Order>)
    requires WellFormed(s.sys) && Silent(s) && Permitted(s, Reopen(found, accepts)) && id in s.sys.tasks
    requires id in found && AcceptsFor(found, accepts, id)
    requires OneStep(Link(s, id)) && BlockedShape(s.sys.tasks[id]) && !Sleeps(Share(s.sys, id))
    ensures var n := Beaten(s, Reopen(found, accepts));
            && At(n, id, s.sys.tasks[id], s.sys.cfgs[id], before + ([Order(id, step)] + after))
            && AllKnown(n.sys, n.sys.down)
    ensures Others(before, id) && Others(after, id) && (step == DoTest || step == DoMerge)
    ensures s.sys.tasks[id].Listed() && s.sys.cfgs[id].cloneUrl
  {
    var n := Beaten(s, Reopen(found, accepts));
    ReopenIsMove(s, found, accepts, id);
    step := WokenState(Link(s, id));
    var s1 := After(s.sys, Reconnects(found));
    EventKeepsShape(s.sys, Reconnects(found));
    AppendEmpty(Reports(found));
    ReadAllKeepsLate(s1, found, accepts);
    assert DownOf(n.sys.down, id) + UpOf([], id) == DownOf(n.sys.down, id);
    before, after := OnlyOrder(n.sys.down, id, step);
  }

  /** The approval's beat. */
  lemma Approval(s: Session, id: string, t: Task, cfg: Config, down: seq<Order>)
    requires At(s, id, t, cfg, down) && t.Listed() && cfg.cloneUrl && AllKnown(s.sys, down)
    ensures Permitted(s, Plain(Approves(id, true)))
    ensures var n := Beaten(s, Plain(Approves(id, true)));
            At(n, id, OnApprove(t, cfg).task, cfg, down + [Order(id, DoMerge)])
            && AllKnown(n.sys, down + [Order(id, DoMerge)])
  {
  }

  /** The woken task is approved: the two commands of the task, among those of others. */
  lemma WokenAndApproved(beats: seq<Beat>, s: Session, found: seq<string>, accepts: seq<bool>, id: string)
    returns (n: Session, t: Task, step: Command, before: seq<Order>, after: seq<Order>)
    requires Ends(beats, s) && Silent(s) && Permitted(s, Reopen(found, accepts)) && id in s.sys.tasks
    requires id in found && AcceptsFor(found, accepts, id)
    requires OneStep(Link(s, id)) && BlockedShape(s.sys.tasks[id]) && !Sleeps(Share(s.sys, id))
    ensures Ends(beats + [Reopen(found, accepts)] + [Plain(Approves(id, true))], n)
    ensures var down := before + ([Order(id, step)] + (after + [Order(id, DoMerge)]));
            At(n, id, t, s.sys.cfgs[id], down) && AllKnown(n.sys, down)
    ensures Others(before, id) && Others(after, id) && (step == DoTest || step == DoMerge) && s.sys.cfgs[id].cloneUrl
  {
    var b, approve := Reopen(found, accepts), Plain(Approves(id, true));
    step, before, after := Woken(s, found, accepts, id);
    AddBeat(beats, s, b);
    var woken := Beaten(s, b);
    Approval(woken, id, s.sys.tasks[id], s.sys.cfgs[id], woken.sys.down);
    AddBeat(beats + [b], woken, approve);
    n, t := Beaten(woken, approve), OnApprove(s.sys.tasks[id], s.sys.cfgs[id]).task;
    assert before + ([Order(id, step)] + after) + [Order(id, DoMerge)]
        == before + ([Order(id, step)] + (after + [Order(id, DoMerge)]));
  }

  lemma ApprovedFirst(beats: seq<Beat>, approve: Beat, rest: seq<Beat>, fail: seq<Beat>, id: string)
    requires LeavesMerged(beats + [approve], rest, fail, id) && !approve.Reopen?
    ensures LeavesMerged(beats, [approve] + rest, fail, id)
  {
    assert beats + [approve] + rest == beats + ([approve] + rest);
  }

  /** A reconnection that wakes a blocked task: an approval later it is merged, and then fails. */
  lemma WokenLeaves(beats: seq<Beat>, s: Session, found: seq<string>, accepts: seq<bool>, id: string)
    returns (merge: seq<Beat>, fail: seq<Beat>)
    requires Ends(beats, s) && Silent(s) && Permitted(s, Reopen(found, accepts)) && id in s.sys.tasks
    requires id in found && AcceptsFor(found, accepts, id)
    requires OneStep(Link(s, id)) && BlockedShape(s.sys.tasks[id]) && !Sleeps(Share(s.sys, id))
    ensures LeavesMerged(beats + [Reopen(found, accepts)], merge, fail, id)
  {
    var b, approve := Reopen(found, accepts), Plain(Approves(id, true));
    var n, t, step, before, after := WokenAndApproved(beats, s, found, accepts, id);
    var rest;
    if step == DoMerge {
      rest, fail := MergeWoken(beats + [b] + [approve], n, id, t, s.sys.cfgs[id], before, after);
    } else {
      rest, fail := TestWoken(beats + [b] + [approve], n, id, t, s.sys.cfgs[id], before, after);
    }
    ApprovedFirst(beats + [b], approve, rest, fail, id);
    merge := [approve] + rest;
  }

  // ---------- the exact condition ----------

  /** After `first` the task's row is terminal, and after `rest` it is another one; both runs are guarded. */
  ghost predicate Leaves(beats: seq<Beat>, first: seq<Beat>, rest: seq<Beat>, id: string) {
    && IsSession(beats + first) && IsSession(beats + first + rest)
    && GuardedSince(beats + first + rest, |beats|, id)
    && var m, n := SessionEnd(beats + first).sys, SessionEnd(beats + first + rest).sys;
       id in m.tasks && id in n.tasks && m.tasks[id].Terminal() && n.tasks[id] != m.tasks[id]
  }

  /** Whatever guarded continuation: a terminal row of the task is never left. */
  ghost predicate FinalAfter(beats: seq<Beat>, id: string) {
    forall first, rest :: !Leaves(beats, first, rest, id)
  }

  lemma {:induction false} UnopenedIsGuarded(beats: seq<Beat>, more: seq<Beat>, id: string)
    requires IsSession(beats + more) && Unopened(more, 0)
    ensures GuardedSince(beats + more, |beats|, id)
    decreases |more|
  {
    if more != [] {
      var n := |more| - 1;
      assert (beats + more)[..|beats + more| - 1] == beats + more[..n];
      assert (beats + more)[|beats + more| - 1] == more[n];
      UnopenedIsGuarded(beats, more[..n], id);
    } else {
      AppendEmpty(beats);
    }
  }

  lemma {:induction false} GuardedJoin(beats: seq<Beat>, more: seq<Beat>, id: string)
    requires IsSession(beats) && SessionGuarded(beats, id) && IsSession(beats + more)
    requires GuardedSince(beats + more, |beats|, id)
    ensures SessionGuarded(beats + more, id)
    decreases |more|
  {
    if more == [] {
      AppendEmpty(beats);
    } else {
      var n := |more| - 1;
      assert (beats + more)[..|beats + more| - 1] == beats + more[..n];
      GuardedJoin(beats, more[..n], id);
    }
  }

  lemma MergedThenFailedLeaves(beats: seq<Beat>, merge: seq<Beat>, fail: seq<Beat>, id: string)
    requires LeavesMerged(beats, merge, fail, id)
    ensures Leaves(beats, merge, fail, id)
  {
    assert beats + merge + fail == beats + (merge + fail);
    UnopenedIsGuarded(beats, merge + fail, id);
  }

  /** One guarded beat keeps one outstanding step, and a terminal row. */
  lemma GuardedBeat(s: Session, b: Beat, id: string, k: Marks) returns (k': Marks)
    requires WellFormed(s.sys) && Silent(s) && id in s.sys.tasks && Permitted(s, b) && BeatGuarded(s, b, id)
    requires OneStep(Link(s, id)) && Kept(Share(s.sys, id), k)
    ensures WellFormed(Beaten(s, b).sys) && id in Beaten(s, b).sys.tasks && Silent(Beaten(s, b))
    ensures OneStep(Link(Beaten(s, b), id)) && Kept(Share(Beaten(s, b).sys, id), k')
    ensures s.sys.tasks[id].Terminal() ==> Beaten(s, b).sys.tasks[id] == s.sys.tasks[id]
  {
    BeatIsMove(s, b, id);
    BeatKeepsSilent(s, b);
    k' := k;
    var mv := MoveFor(s, b, id);
    if mv.Some? {
      MoveForBeat(s, b, id);
      MoveKeepsOneStep(Link(s, id), mv.value);
      k' := MoveKeeps(Link(s, id), mv.value, k);
    }
  }

  lemma {:induction false} GuardedRest(beats: seq<Beat>, more: seq<Beat>, id: string, k: Marks) returns (k': Marks)
    requires IsSession(beats) && IsSession(beats + more) && GuardedSince(beats + more, |beats|, id)
    requires var s := SessionEnd(beats);
             id in s.sys.tasks && OneStep(Link(s, id)) && Kept(Share(s.sys, id), k)
    ensures var s, n := SessionEnd(beats), SessionEnd(beats + more);
            && id in n.sys.tasks && OneStep(Link(n, id)) && Kept(Share(n.sys, id), k')
            && (s.sys.tasks[id].Terminal() ==> n.sys.tasks[id] == s.sys.tasks[id])
    decreases |more|
  {
    k' := k;
    if more == [] {
      AppendEmpty(beats);
    } else {
      var n := |more| - 1;
      assert (beats + more)[..|beats + more| - 1] == beats + more[..n];
      assert (beats + more)[|beats + more| - 1] == more[n];
      k' := GuardedRest(beats, more[..n], id, k);
      SessionSilent(beats + more[..n]);
      k' := GuardedBeat(SessionEnd(beats + more[..n]), more[n], id, k');
    }
  }

  lemma {:induction false} GuardedPrefix(beats: seq<Beat>, more: seq<Beat>, rest: seq<Beat>, id: string)
    requires IsSession(beats + more + rest) && GuardedSince(beats + more + rest, |beats|, id)
    ensures IsSession(beats + more) && GuardedSince(beats + more, |beats|, id)
    ensures GuardedSince(beats + more + rest, |beats + more|, id)
    decreases |rest|
  {
    if rest == [] {
      AppendEmpty(beats + more);
    } else {
      var all, n := beats + more + rest, |rest| - 1;
      assert all[..|all| - 1] == beats + more + rest[..n];
      GuardedPrefix(beats, more, rest[..n], id);
    }
  }

  lemma OneStepIsFinal(beats: seq<Beat>, id: string, k: Marks)
    requires IsSession(beats) && id in SessionEnd(beats).sys.tasks
    requires OneStep(Link(SessionEnd(beats), id)) && Kept(Share(SessionEnd(beats).sys, id), k)
    ensures FinalAfter(beats, id)
  {
    forall first, rest ensures !Leaves(beats, first, rest, id) {
      if Leaves(beats, first, rest, id) {
        GuardedPrefix(beats, first, rest, id);
        var k1 := GuardedRest(beats, first, id, k);
        var k2 := GuardedRest(beats + first, rest, id, k1);
      }
    }
  }

  /**
   * After every guarded session that ends without a stream: the reconnection that reports
   * the task, and whose dispatch is taken, leaves `merged` and `failed` final in all guarded
   * continuations if and only if it finds the task asleep. Otherwise an approval, one merge
   * and one failed step leave `merged`, with all queues served in order.
   */
  lemma TerminalIsFinalIff(beats: seq<Beat>, found: seq<string>, accepts: seq<bool>, id: string)
    requires IsSession(beats) && SessionGuarded(beats, id)
    requires Permitted(SessionEnd(beats), Reopen(found, accepts)) && id in SessionEnd(beats).sys.tasks
    requires id in found && AcceptsFor(found, accepts, id)
    ensures FinalAfter(beats + [Reopen(found, accepts)], id) <==> Sleeps(Share(SessionEnd(beats).sys, id))
  {
    var s, b := SessionEnd(beats), Reopen(found, accepts);
    SessionSilent(beats);
    SessionsHaveOneStep(beats, id);
    var k := SessionKept(beats, id);
    AddBeat(beats, s, b);
    if Sleeps(Share(s.sys, id)) {
      var k' := GuardedBeat(s, b, id, k);
      OneStepIsFinal(beats + [b], id, k');
    } else {
      var merge, fail := WokenLeaves(beats, s, found, accepts, id);
      MergedThenFailedLeaves(beats + [b], merge, fail, id);
    }
  }

  lemma SessionKept(beats: seq<Beat>, id: string) returns (k: Marks)
    requires IsSession(beats) && id in SessionEnd(beats).sys.tasks
    ensures Kept(Share(SessionEnd(beats).sys, id), k)
  {
    var t := SessionTraces(beats, id);
    k := FromCreation(t.cfg, t.accepted, []);
    k := LinkedRunKeeps(t.From(), t.moves, k);
  }
}
