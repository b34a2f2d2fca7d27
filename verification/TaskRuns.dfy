/**
 * Every run of one task, with no assumption about the network: commands and
 * replies in flight form a bag, so any of them may be lost, overtaken or left
 * waiting, snapshots may arrive at any time, and the configuration may change
 * between any two steps. The one assumption about people is that they answer
 * only interventions that are listed.
 *
 * Proved for every such run: the merge gates, one pull request per task, the
 * shape of a blocked task, and a bound on the number of dispatched steps.
 */
module TaskRuns {
  import opened Options
  import opened Pipeline

  /** What the history of a task records. */
  datatype Note =
    | ExecReported
    | TestsSkipped(cfg: Config) // the configuration TEST was skipped in
    | TestReported(passed: bool)
    | ReviewReported(approved: bool)
    | HumanAnswered(approved: bool)
    | MergeSent(cfg: Config) // the configuration MERGE was dispatched in
    | MergeReported

  /** A message on its way, or a command the executor is still running. */
  datatype Message = ToExecutor(step: Command) | ToServer(reply: Reply)

  datatype World = World(
    task: Task,
    cfg: Config,
    flight: multiset<Message>,
    reports: nat,      // workdir reports on their way to the server
    history: seq<Note>,
    dispatched: nat,   // steps dispatched so far, dropped ones included
    reconciled: nat    // snapshots handled so far
  )

  datatype Act =
    | Receive(reply: Reply, accepted: bool) // accepted: the hub took what the handler sent
    | Execute(step: Command, answer: Reply)
    | Report
    | Reconcile(accepted: bool)
    | Approve(accepted: bool)
    | Reject
    | Reconfigure(cfg: Config)
    | Lose(message: Message)
    | LoseReport
    | LoseAll

  /** What the executor may answer to a command. */
  predicate Answers(step: Command, r: Reply) {
    StepOf(r) == step && (step == AskPlan ==> r.Planned?)
  }

  predicate Enabled(w: World, a: Act) {
    && (Source(a).Some? ==> Source(a).value in w.flight)
    && match a
       case Execute(c, r) => Answers(c, r)
       case Reconcile(_) => w.reports > 0
       case LoseReport => w.reports > 0
       case Approve(_) => w.task.Listed()
       case Reject => w.task.Listed()
       case _ => true
  }

  /** The message a step takes out of flight. */
  function Source(a: Act): Option<Message> {
    match a
    case Receive(r, _) => Some(ToServer(r))
    case Execute(c, _) => Some(ToExecutor(c))
    case Lose(m) => Some(m)
    case _ => None
  }

  /** What the server does to the row in a step. */
  function EffectOf(w: World, a: Act): Effect {
    match a
    case Receive(r, _) => OnReply(w.task, w.cfg, r)
    case Reconcile(_) => OnSnapshot(w.task, w.cfg)
    case Approve(_) => OnApprove(w.task, w.cfg)
    case Reject => OnReject(w.task)
    case _ => Effect(w.task, None)
  }

  predicate Accepted(a: Act) {
    match a
    case Receive(_, accepted) => accepted
    case Reconcile(accepted) => accepted
    case Approve(accepted) => accepted
    case _ => false
  }

  /** The message a step puts in flight: a command only if the hub accepts it. */
  function Product(w: World, a: Act): Option<Message> {
    if a.Execute? then Some(ToServer(a.answer))
    else if Accepted(a) && EffectOf(w, a).send.Some? then Some(ToExecutor(EffectOf(w, a).send.value))
    else None
  }

  function Bag(m: Option<Message>): multiset<Message> {
    if m.Some? then multiset{m.value} else multiset{}
  }

  function FlightAfter(w: World, a: Act): multiset<Message> {
    if a.LoseAll? then multiset{} else w.flight - Bag(Source(a)) + Bag(Product(w, a))
  }

  function ReportsAfter(w: World, a: Act): nat
    requires Enabled(w, a)
  {
    match a
    case Report => w.reports + 1
    case Reconcile(_) => w.reports - 1
    case LoseReport => w.reports - 1
    case LoseAll => 0
    case _ => w.reports
  }

  function SentNote(cfg: Config, e: Effect): seq<Note> {
    if e.send == Some(DoMerge) then [MergeSent(cfg)] else []
  }

  function ReplyNotes(t: Task, cfg: Config, r: Reply): (notes: seq<Note>)
    ensures |notes| <= 2
  {
    match r
    case ExecDone => [ExecReported] + if RunsTests(cfg) then [] else [TestsSkipped(cfg)]
    case TestDone(passed) => [TestReported(passed)]
    case ReviewDone(approved) => [ReviewReported(approved)] + SentNote(cfg, OnReply(t, cfg, r))
    case MergeDone => [MergeReported]
    case _ => []
  }

  /** What a step adds to the history. */
  function NotesOf(w: World, a: Act): (notes: seq<Note>)
    ensures |notes| <= 2
  {
    match a
    case Receive(r, _) => ReplyNotes(w.task, w.cfg, r)
    case Reconcile(_) => SentNote(w.cfg, OnSnapshot(w.task, w.cfg))
    // dispatchMerge asks no gate: the approval stands for it
    case Approve(_) => [HumanAnswered(true)] + if w.cfg.cloneUrl then [MergeSent(w.cfg)] else []
    case Reject => [HumanAnswered(false)]
    case _ => []
  }

  function Step(w: World, a: Act): World
    requires Enabled(w, a)
  {
    World(
      EffectOf(w, a).task,
      if a.Reconfigure? then a.cfg else w.cfg,
      FlightAfter(w, a),
      ReportsAfter(w, a),
      w.history + NotesOf(w, a),
      w.dispatched + if EffectOf(w, a).send.Some? then 1 else 0,
      w.reconciled + if a.Reconcile? then 1 else 0)
  }

  /** A task just created: its plan request is in flight if an executor was connected. */
  function Created(cfg: Config, accepted: bool): World {
    World(NEW_TASK, cfg, if accepted then multiset{ToExecutor(AskPlan)} else multiset{}, 0, [], 0, 0)
  }

  predicate IsRun(w: World, acts: seq<Act>)
    decreases |acts|
  {
    acts == [] || (Enabled(w, acts[0]) && IsRun(Step(w, acts[0]), acts[1..]))
  }

  function End(w: World, acts: seq<Act>): World
    requires IsRun(w, acts)
    decreases |acts|
  {
    if acts == [] then w else End(Step(w, acts[0]), acts[1..])
  }

  // ---------- milestones in a history ----------

  datatype Milestone = Exec | Tested | AiApproved | HumanApproval | SentUngated | Sent | Done

  /** No worker forbids a merge without a person, and the server or the pool of the org allows it. */
  predicate MergesAlone(cfg: Config) {
    && (cfg.worker.None? || cfg.worker.value.autoMerge)
    && (!cfg.requireHuman || cfg.poolAutoMerge)
  }

  /** The repository has a worker, and its worker runs no tests. */
  predicate Untested(cfg: Config) {
    cfg.worker.Some? && !cfg.worker.value.runTests
  }

  predicate Meets(n: Note, m: Milestone) {
    match m
    case Exec => n.ExecReported?
    case Tested => n == TestReported(true) || (n.TestsSkipped? && Untested(n.cfg))
    case AiApproved => n == ReviewReported(true)
    case HumanApproval => n == HumanAnswered(true)
    case SentUngated => n.MergeSent? && MergesAlone(n.cfg)
    case Sent => n.MergeSent?
    case Done => n.MergeReported?
  }

  /** The milestones of `path` are met in this order by notes of `h`, not necessarily adjacent. */
  predicate Passed(h: seq<Note>, path: seq<Milestone>)
    decreases |h|
  {
    if path == [] then true
    else if h == [] then false
    else
      || Passed(h[..|h| - 1], path)
      || (Meets(h[|h| - 1], path[|path| - 1]) && Passed(h[..|h| - 1], path[..|path| - 1]))
  }

  const TESTED: seq<Milestone> := [Exec, Tested]
  const AI_APPROVED: seq<Milestone> := [Exec, Tested, AiApproved]
  const HUMAN_APPROVED: seq<Milestone> := [Exec, Tested, AiApproved, HumanApproval]
  const SENT_UNGATED: seq<Milestone> := [Exec, Tested, AiApproved, SentUngated]
  const SENT_APPROVED: seq<Milestone> := [Exec, Tested, AiApproved, HumanApproval, Sent]
  const MERGED_UNGATED: seq<Milestone> := [Exec, Tested, AiApproved, SentUngated, Done]
  const MERGED_APPROVED: seq<Milestone> := [Exec, Tested, AiApproved, HumanApproval, Sent, Done]

  /** `at` picks one note of `h` for each milestone of `path`, at rising positions. */
  ghost predicate Picks(h: seq<Note>, path: seq<Milestone>, at: seq<nat>) {
    && |at| == |path|
    && (forall i :: 0 <= i < |at| ==> at[i] < |h| && Meets(h[at[i]], path[i]))
    && (forall i, j :: 0 <= i < j < |at| ==> at[i] < at[j])
  }

  /** `Passed` is what it claims to be: positions in the history exist, in order. */
  lemma {:induction false} PassedMeansInOrder(h: seq<Note>, path: seq<Milestone>)
    ensures Passed(h, path) <==> exists at :: Picks(h, path, at)
    decreases |h|
  {
    if path == [] {
      assert Picks(h, path, []);
    } else if h == [] {
      var first := path[0];
      assert forall at :: !Picks(h, path, at);
    } else {
      var n := |h| - 1;
      var p := |path| - 1;
      PassedMeansInOrder(h[..n], path);
      PassedMeansInOrder(h[..n], path[..p]);
      if Passed(h[..n], path) {
        var at :| Picks(h[..n], path, at);
        assert Picks(h, path, at);
      } else if Passed(h, path) {
        var at :| Picks(h[..n], path[..p], at);
        assert Picks(h, path, at + [n]);
      }
      forall at | Picks(h, path, at) ensures Passed(h, path) {
        assert at[p] <= n;
        if at[p] == n {
          assert Picks(h[..n], path[..p], at[..p]) by {
            forall i | 0 <= i < p ensures at[i] < n && Meets(h[..n][at[i]], path[..p][i]) {
              assert at[i] < at[p];
            }
          }
        } else {
          assert Picks(h[..n], path, at) by {
            forall i | 0 <= i <= p ensures at[i] < n && Meets(h[..n][at[i]], path[i]) {
              assert i < p ==> at[i] < at[p];
            }
          }
        }
      }
    }
  }

  // ---------- what the history has reached so far ----------

  datatype Marks = Marks(exec: bool, tested: bool, ai: bool, human: bool, cleared: bool, done: bool)

  const NO_MARKS := Marks(false, false, false, false, false, false)

  function Mark(m: Marks, n: Note): Marks {
    Marks(
      m.exec || Meets(n, Exec),
      m.tested || (m.exec && Meets(n, Tested)),
      m.ai || (m.tested && Meets(n, AiApproved)),
      m.human || (m.ai && Meets(n, HumanApproval)),
      m.cleared || (m.ai && Meets(n, SentUngated)) || (m.human && Meets(n, Sent)),
      m.done || (m.cleared && Meets(n, Done)))
  }

  function MarkAll(m: Marks, notes: seq<Note>): Marks
    requires |notes| <= 2
  {
    if |notes| == 0 then m
    else if |notes| == 1 then Mark(m, notes[0])
    else Mark(Mark(m, notes[0]), notes[1])
  }

  /** Marks are only set by milestones met in order. */
  predicate Sound(m: Marks, h: seq<Note>) {
    && (m.exec ==> Passed(h, [Exec]))
    && (m.tested ==> Passed(h, TESTED))
    && (m.ai ==> Passed(h, AI_APPROVED))
    && (m.human ==> Passed(h, HUMAN_APPROVED))
    && (m.cleared ==> Passed(h, SENT_UNGATED) || Passed(h, SENT_APPROVED))
    && (m.done ==> Passed(h, MERGED_UNGATED) || Passed(h, MERGED_APPROVED))
  }

  lemma NoteAdded(h: seq<Note>, n: Note, path: seq<Milestone>, m: Milestone)
    ensures Passed(h, path) ==> Passed(h + [n], path)
    ensures Passed(h, path) && Meets(n, m) ==> Passed(h + [n], path + [m])
    ensures Passed(h, path + [m]) ==> Passed(h + [n], path + [m])
  {
    assert (h + [n])[..|h|] == h;
    assert (path + [m])[..|path|] == path;
  }

  lemma MarkSound(m: Marks, h: seq<Note>, n: Note)
    requires Sound(m, h)
    ensures Sound(Mark(m, n), h + [n])
  {
    NoteAdded(h, n, [], Exec);
    NoteAdded(h, n, [Exec], Tested);
    NoteAdded(h, n, TESTED, AiApproved);
    NoteAdded(h, n, AI_APPROVED, HumanApproval);
    NoteAdded(h, n, AI_APPROVED, SentUngated);
    NoteAdded(h, n, HUMAN_APPROVED, Sent);
    NoteAdded(h, n, SENT_UNGATED, Done);
    NoteAdded(h, n, SENT_APPROVED, Done);
    assert [] + [Exec] == [Exec] && [Exec] + [Tested] == TESTED && TESTED + [AiApproved] == AI_APPROVED;
    assert AI_APPROVED + [HumanApproval] == HUMAN_APPROVED && AI_APPROVED + [SentUngated] == SENT_UNGATED;
    assert HUMAN_APPROVED + [Sent] == SENT_APPROVED;
    assert SENT_UNGATED + [Done] == MERGED_UNGATED && SENT_APPROVED + [Done] == MERGED_APPROVED;
  }

  lemma MarkAllSound(m: Marks, h: seq<Note>, notes: seq<Note>)
    requires Sound(m, h) && |notes| <= 2
    ensures Sound(MarkAll(m, notes), h + notes)
  {
    if |notes| == 0 {
      assert h + notes == h;
    } else if |notes| == 1 {
      MarkSound(m, h, notes[0]);
      assert notes == [notes[0]];
    } else {
      MarkSound(m, h, notes[0]);
      MarkSound(Mark(m, notes[0]), h + [notes[0]], notes[1]);
      assert h + notes == h + [notes[0]] + [notes[1]];
    }
  }

  // ---------- one pull request per task ----------

  /** The step a message is about. */
  function StepIn(m: Message): Command {
    match m
    case ToExecutor(c) => c
    case ToServer(r) => StepOf(r)
  }

  function Token(m: Message): nat {
    if StepIn(m) == AskPlan || StepIn(m) == DoExec then 1 else 0
  }

  /** Plan requests, plans, EXEC commands and their results in flight. */
  function TokensIn(flight: multiset<Message>): nat {
    flight[ToExecutor(AskPlan)] + flight[ToServer(Planned)] + flight[ToServer(StepFailed(AskPlan))]
    + flight[ToExecutor(DoExec)] + flight[ToServer(ExecDone)] + flight[ToServer(StepFailed(DoExec))]
  }

  /** One token: the task is still on its way to a pull request, or it has the only one. */
  predicate OneToken(w: World) {
    TokensIn(w.flight) + |w.task.prs| <= 1
  }

  function BagTokens(m: Option<Message>): nat {
    if m.Some? then Token(m.value) else 0
  }

  lemma TokenAdded(flight: multiset<Message>, m: Message)
    ensures TokensIn(flight + multiset{m}) == TokensIn(flight) + Token(m)
  {
  }

  lemma {:induction false} TokensMove(flight: multiset<Message>, source: Option<Message>, product: Option<Message>)
    requires source.Some? ==> source.value in flight
    ensures TokensIn(flight - Bag(source) + Bag(product)) + BagTokens(source) == TokensIn(flight) + BagTokens(product)
  {
    var rest := flight - Bag(source);
    assert flight == rest + Bag(source);
    assert rest + multiset{} == rest;
    if source.Some? { TokenAdded(rest, source.value); }
    if product.Some? { TokenAdded(rest, product.value); }
  }

  lemma HandlerKeepsToken(w: World, a: Act)
    requires Enabled(w, a)
    ensures |EffectOf(w, a).task.prs| + BagTokens(Product(w, a)) <= |w.task.prs| + BagTokens(Source(a))
  {
  }

  lemma {:induction false} StepKeepsToken(w: World, a: Act)
    requires OneToken(w) && Enabled(w, a)
    ensures OneToken(Step(w, a))
  {
    HandlerKeepsToken(w, a);
    TokensMove(w.flight, Source(a), Product(w, a));
  }

  // ---------- what stands behind a column or a message ----------

  predicate AfterPr(m: Message) {
    StepIn(m) == DoTest || StepIn(m) == DoReview || StepIn(m) == DoMerge
  }

  predicate BlockedShape(t: Task) {
    t.status == Blocked ==>
      && t.reason == HumanReview
      && |t.prs| == 1
      && t.Latest().ai == Approved
      && t.Latest().human != Approved
  }

  /** A message about a late step needs the pull request and a stretch of the history. */
  predicate MessageBacked(m: Message, t: Task, k: Marks) {
    && (AfterPr(m) ==> |t.prs| == 1)
    && (StepIn(m) == DoTest ==> k.exec)
    && (StepIn(m) == DoReview ==> k.tested)
    && (StepIn(m) == DoMerge ==> k.cleared)
  }

  predicate TaskBacked(t: Task, k: Marks) {
    && (t.prs != [] ==>
         && k.exec
         && (t.Latest().ci == CiPassed ==> k.tested)
         && (t.Latest().ai == Approved ==> k.ai)
         && (t.Latest().human == Approved ==> k.human))
    && (t.status == Merged ==> k.done)
  }

  ghost predicate Backed(w: World, k: Marks) {
    && BlockedShape(w.task)
    && TaskBacked(w.task, k)
    && forall m :: m in w.flight ==> MessageBacked(m, w.task, k)
  }

  function MarksAfter(w: World, a: Act, k: Marks): Marks {
    MarkAll(k, NotesOf(w, a))
  }

  /** Marks and the number of pull requests only grow. */
  lemma BackingGrows(w: World, a: Act, k: Marks, m: Message)
    requires OneToken(w) && Enabled(w, a) && MessageBacked(m, w.task, k)
    ensures MessageBacked(m, EffectOf(w, a).task, MarksAfter(w, a, k))
  {
  }

  lemma HandlerBlocked(w: World, a: Act, k: Marks)
    requires Backed(w, k) && Enabled(w, a) && |EffectOf(w, a).task.prs| <= 1
    ensures BlockedShape(EffectOf(w, a).task)
  {
  }

  /** What a handler leaves, and the command it sends, are backed. */
  predicate EffectBacked(e: Effect, k: Marks) {
    TaskBacked(e.task, k) && (e.send.Some? ==> MessageBacked(ToExecutor(e.send.value), e.task, k))
  }

  lemma ReviewBacked(t: Task, cfg: Config, approved: bool, k: Marks)
    requires TaskBacked(t, k) && |t.prs| == 1 && k.tested
    ensures EffectBacked(OnReply(t, cfg, ReviewDone(approved)), MarkAll(k, ReplyNotes(t, cfg, ReviewDone(approved))))
  {
  }

  lemma ReplyBacked(t: Task, cfg: Config, r: Reply, k: Marks)
    requires TaskBacked(t, k) && MessageBacked(ToServer(r), t, k)
    requires r.ExecDone? ==> t.prs == []
    ensures EffectBacked(OnReply(t, cfg, r), MarkAll(k, ReplyNotes(t, cfg, r)))
  {
    if r.ReviewDone? {
      ReviewBacked(t, cfg, r.approved, k);
    }
  }

  lemma SnapshotBacked(t: Task, cfg: Config, k: Marks)
    requires TaskBacked(t, k) && |t.prs| <= 1
    ensures EffectBacked(OnSnapshot(t, cfg), MarkAll(k, SentNote(cfg, OnSnapshot(t, cfg))))
  {
  }

  lemma AnswerBacked(w: World, a: Act, k: Marks)
    requires Backed(w, k) && Enabled(w, a) && |w.task.prs| <= 1 && !a.Receive?
    ensures TaskBacked(EffectOf(w, a).task, MarksAfter(w, a, k))
    ensures Product(w, a).Some? ==> MessageBacked(Product(w, a).value, EffectOf(w, a).task, MarksAfter(w, a, k))
  {
    if a.Reconcile? {
      SnapshotBacked(w.task, w.cfg, k);
    } else {
      assert a.Execute? ==> MessageBacked(ToExecutor(a.step), w.task, k);
    }
  }

  lemma {:induction false} StepKeepsBacked(w: World, a: Act, k: Marks)
    requires OneToken(w) && Backed(w, k) && Enabled(w, a)
    ensures Backed(Step(w, a), MarksAfter(w, a, k))
  {
    StepKeepsToken(w, a);
    HandlerBlocked(w, a, k);
    if a.Receive? { ReplyBacked(w.task, w.cfg, a.reply, k); } else { AnswerBacked(w, a, k); }
    forall m | m in Step(w, a).flight ensures MessageBacked(m, Step(w, a).task, MarksAfter(w, a, k)) {
      if m in w.flight {
        BackingGrows(w, a, k, m);
      } else {
        assert Product(w, a) == Some(m);
      }
    }
  }

  // ---------- how much a task can cause to be dispatched ----------

  function Weight(m: Message): nat {
    match m
    case ToExecutor(AskPlan) => 4
    case ToServer(Planned) => 4
    case ToExecutor(DoExec) => 3
    case ToServer(ExecDone) => 3
    case ToExecutor(DoTest) => 2
    case ToServer(TestDone(_)) => 2
    case ToExecutor(DoReview) => 1
    case ToServer(ReviewDone(_)) => 1
    case _ => 0
  }

  /** What the messages in flight may still cause to be dispatched. */
  function WeightIn(flight: multiset<Message>): nat {
    4 * (flight[ToExecutor(AskPlan)] + flight[ToServer(Planned)])
    + 3 * (flight[ToExecutor(DoExec)] + flight[ToServer(ExecDone)])
    + 2 * (flight[ToExecutor(DoTest)] + flight[ToServer(TestDone(true))] + flight[ToServer(TestDone(false))])
    + flight[ToExecutor(DoReview)] + flight[ToServer(ReviewDone(true))] + flight[ToServer(ReviewDone(false))]
  }

  function BagWeight(m: Option<Message>): nat {
    if m.Some? then Weight(m.value) else 0
  }

  /** A blocked task may still have its merge dispatched by a person. */
  function Held(t: Task): nat {
    if t.status == Blocked then 1 else 0
  }

  predicate WithinBudget(w: World) {
    w.dispatched + WeightIn(w.flight) + Held(w.task) <= 4 + 3 * w.reconciled
  }

  lemma WeightAdded(flight: multiset<Message>, m: Message)
    ensures WeightIn(flight + multiset{m}) == WeightIn(flight) + Weight(m)
  {
  }

  lemma {:induction false} WeightMove(flight: multiset<Message>, source: Option<Message>, product: Option<Message>)
    requires source.Some? ==> source.value in flight
    ensures WeightIn(flight - Bag(source) + Bag(product)) + BagWeight(source) == WeightIn(flight) + BagWeight(product)
  {
    var rest := flight - Bag(source);
    assert flight == rest + Bag(source);
    assert rest + multiset{} == rest;
    if source.Some? { WeightAdded(rest, source.value); }
    if product.Some? { WeightAdded(rest, product.value); }
  }

  /** A handler pays for what it dispatches with the message it consumes; a snapshot brings three. */
  lemma HandlerPays(w: World, a: Act)
    requires Enabled(w, a)
    ensures (if EffectOf(w, a).send.Some? then 1 else 0)
            + BagWeight(Product(w, a)) + Held(EffectOf(w, a).task)
            <= Held(w.task) + BagWeight(Source(a)) + if a.Reconcile? then 3 else 0
  {
  }

  lemma {:induction false} StepKeepsBudget(w: World, a: Act)
    requires WithinBudget(w) && Enabled(w, a)
    ensures WithinBudget(Step(w, a))
  {
    HandlerPays(w, a);
    WeightMove(w.flight, Source(a), Product(w, a));
  }

  // ---------- every run ----------

  ghost predicate Kept(w: World, k: Marks) {
    OneToken(w) && Backed(w, k) && Sound(k, w.history) && WithinBudget(w)
  }

  lemma {:induction false} StepKeeps(w: World, a: Act, k: Marks)
    requires Kept(w, k) && Enabled(w, a)
    ensures Kept(Step(w, a), MarksAfter(w, a, k))
  {
    StepKeepsToken(w, a);
    StepKeepsBacked(w, a, k);
    StepKeepsBudget(w, a);
    MarkAllSound(k, w.history, NotesOf(w, a));
  }

  lemma {:induction false} RunKeeps(w: World, acts: seq<Act>, k: Marks) returns (k': Marks)
    requires Kept(w, k) && IsRun(w, acts)
    ensures Kept(End(w, acts), k')
    decreases |acts|
  {
    k' := k;
    if acts != [] {
      StepKeeps(w, acts[0], k);
      k' := RunKeeps(Step(w, acts[0]), acts[1..], MarksAfter(w, acts[0], k));
    }
  }

  lemma FromCreation(cfg: Config, accepted: bool, acts: seq<Act>) returns (k: Marks)
    requires IsRun(Created(cfg, accepted), acts)
    ensures Kept(End(Created(cfg, accepted), acts), k)
  {
    k := RunKeeps(Created(cfg, accepted), acts, NO_MARKS);
  }

  /**
   * A task is only merged if its history shows, in this order: an exec result, a
   * passing test (or a skip while the repository's worker runs none), an approving AI
   * review, a MERGE dispatched after a later human approval or while no worker forbade
   * it and the server or the pool allowed it, and the executor's merge result.
   */
  lemma MergedOnlyThroughTheGates(cfg: Config, accepted: bool, acts: seq<Act>)
    requires IsRun(Created(cfg, accepted), acts)
    ensures var w := End(Created(cfg, accepted), acts);
            w.task.status == Merged ==> Passed(w.history, MERGED_UNGATED) || Passed(w.history, MERGED_APPROVED)
  {
    var k := FromCreation(cfg, accepted, acts);
  }

  /** A MERGE in flight has passed the same gates, however it was dispatched. */
  lemma MergeInFlightIsCleared(cfg: Config, accepted: bool, acts: seq<Act>)
    requires IsRun(Created(cfg, accepted), acts)
    requires ToExecutor(DoMerge) in End(Created(cfg, accepted), acts).flight
    ensures var h := End(Created(cfg, accepted), acts).history; Passed(h, SENT_UNGATED) || Passed(h, SENT_APPROVED)
  {
    var k := FromCreation(cfg, accepted, acts);
    assert MessageBacked(ToExecutor(DoMerge), End(Created(cfg, accepted), acts).task, k);
  }

  /** At most one plan request, plan, EXEC, exec result or pull request exists at any time. */
  lemma OnePullRequest(cfg: Config, accepted: bool, acts: seq<Act>)
    requires IsRun(Created(cfg, accepted), acts)
    ensures var w := End(Created(cfg, accepted), acts);
            TokensIn(w.flight) + |w.task.prs| <= 1
  {
    var k := FromCreation(cfg, accepted, acts);
  }

  /** The steps dispatched, plus what outstanding work may still cause, stay within 4 + 3 per snapshot. */
  lemma DispatchesAreBounded(cfg: Config, accepted: bool, acts: seq<Act>)
    requires IsRun(Created(cfg, accepted), acts)
    ensures var w := End(Created(cfg, accepted), acts);
            w.dispatched + WeightIn(w.flight) + Held(w.task) <= 4 + 3 * w.reconciled
  {
    var k := FromCreation(cfg, accepted, acts);
  }

  /**
   * A blocked task is listed, and has one pull request that the AI approved and no
   * person has. So approving it dispatches the one merge whose review gates hold
   * (unless its repository has lost its clone URL), and rejecting it dispatches nothing.
   */
  lemma BlockedTasksAwaitAPerson(cfg: Config, accepted: bool, acts: seq<Act>)
    requires IsRun(Created(cfg, accepted), acts)
    requires End(Created(cfg, accepted), acts).task.status == Blocked
    ensures var w := End(Created(cfg, accepted), acts);
            && w.task.Listed()
            && |w.task.prs| == 1 && w.task.Latest().ai == Approved && w.task.Latest().human != Approved
            && (var yes := OnApprove(w.task, w.cfg);
                && yes.task.Latest().ai == Approved && yes.task.Latest().human == Approved
                && yes.task.status == Running
                && yes.send == if w.cfg.cloneUrl then Some(DoMerge) else None)
            && (var no := OnReject(w.task); no.task.status == Failed && no.send == None)
  {
    var k := FromCreation(cfg, accepted, acts);
  }
}
