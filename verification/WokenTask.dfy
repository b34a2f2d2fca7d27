/**
 * Runs from creation that show the conditions of `Leaving` and `Recovery` are needed:
 * with tests switched off for a repository, or with the gate switched off while a task
 * waits for a person, a snapshot wakes the blocked task; and a lost REVIEW of a task
 * whose tests never ran is not retaken.
 */
module WokenTask {
  import opened Options
  import opened Pipeline
  import opened TaskRuns
  import opened Connections
  import opened LinkedRuns
  import opened Recovery
  import opened Sequences
  import opened System
  import opened Sessions
  import Leaving

  const TESTS_OFF := Config(true, Some(Worker(false, false)), false, false)
  const GATE_ON := Config(true, None, true, false)
  const GATE_OFF := Config(true, None, true, true)

  const PLANNED := Task(InReview, NoReason, [])
  const OPENED := Task(InReview, NoReason, [NEW_PR])
  const TESTED_OK := Task(InReview, NoReason, [PullRequest(CiPassed, Unreviewed, Unreviewed, false)])
  const BLOCKED_UNTESTED := Task(Blocked, HumanReview, [PullRequest(CiNone, Approved, Unreviewed, false)])
  const BLOCKED_TESTED := Task(Blocked, HumanReview, [PullRequest(CiPassed, Approved, Unreviewed, false)])

  function Sent(step: Command): multiset<Message> {
    multiset{ToExecutor(step)}
  }

  lemma Alone(step: Command, e: Effect)
    ensures FlightBeyond(Sent(step), step, e) == if e.send.Some? then Sent(e.send.value) else multiset{}
  {
    assert Sent(step) - multiset{ToExecutor(step)} == multiset{};
  }

  /** An exchange of the only command in flight. */
  lemma Answer(l: Linked, t: Task, cfg: Config, step: Command, r: Reply) returns (moves: seq<Move>, n: Linked)
    requires At(l, t, cfg, Sent(step), true) && Answers(step, r)
    ensures RunsTo(l, moves, n) && !Opens(moves)
    ensures var e := OnReply(t, cfg, r);
            At(n, e.task, cfg, if e.send.Some? then Sent(e.send.value) else multiset{}, true)
  {
    moves, n := Exchange(l, t, cfg, Sent(step), step, r);
    Alone(step, OnReply(t, cfg, r));
  }

  lemma PlanAndExec(cfg: Config)
    requires cfg.cloneUrl
    ensures OnReply(NEW_TASK, cfg, Planned) == Effect(PLANNED, Some(DoExec))
    ensures OnReply(PLANNED, cfg, ExecDone) == Effect(OPENED, Some(if RunsTests(cfg) then DoTest else DoReview))
  {
  }

  /** Planned and executed: a fresh pull request and the step after it in flight. */
  lemma Opened(cfg: Config) returns (moves: seq<Move>, n: Linked)
    requires cfg.cloneUrl
    ensures RunsTo(Start(cfg, true, true), moves, n) && !Opens(moves)
    ensures At(n, OPENED, cfg, Sent(if RunsTests(cfg) then DoTest else DoReview), true)
  {
    var start := Start(cfg, true, true);
    PlanAndExec(cfg);
    var a, l1 := Answer(start, NEW_TASK, cfg, AskPlan, Planned);
    var b;
    b, n := Answer(l1, PLANNED, cfg, DoExec, ExecDone);
    Join(start, a, l1, b, n);
    moves := a + b;
  }

  // ---------- sessions from the empty system ----------

  const ID := "tsk_1"

  /** A stream is opened, and a task created that is asked for its plan. */
  function Opening(cfg: Config): seq<Beat> {
    [Reopen([], [])] + [Plain(Create(ID, cfg, true))]
  }

  /** A session that goes on from there without opening another stream, and where its only task is. */
  ghost predicate Stage(beats: seq<Beat>, s: Session, t: Task, cfg: Config, down: seq<Order>) {
    && Leaving.Ends(beats, s) && SessionGuarded(beats, ID) && Leaving.At(s, ID, t, cfg, down)
  }

  function Sole(send: Option<Command>): seq<Order> {
    if send.Some? then [Order(ID, send.value)] else []
  }

  lemma Begun(cfg: Config) returns (s: Session)
    ensures Stage(Opening(cfg), s, NEW_TASK, cfg, Sole(Some(AskPlan)))
  {
    var open, create := Reopen([], []), Plain(Create(ID, cfg, true));
    var s0 := Beaten(BEGIN, open);
    Leaving.AddBeat([], BEGIN, open);
    assert [] + [open] == [open];
    Leaving.AddBeat([open], s0, create);
    s := Beaten(s0, create);
    AppendEmpty(Sole(Some(AskPlan)));
    BeginGuarded(open, create);
  }

  lemma BeginGuarded(open: Beat, create: Beat)
    requires open == Reopen([], []) && create.Plain? && IsSession([open] + [create])
    ensures SessionGuarded([open] + [create], ID)
  {
    assert ([open] + [create])[..1] == [open] && [open][..0] == [];
  }

  /** The only command is answered, and the answer handled. */
  lemma Goes(beats: seq<Beat>, s: Session, t: Task, cfg: Config, step: Command, r: Reply)
    returns (more: seq<Beat>, n: Session)
    requires Stage(beats, s, t, cfg, Sole(Some(step))) && Answers(step, r)
    ensures var e := OnReply(t, cfg, r); Stage(beats + more, n, e.task, cfg, Sole(e.send))
    ensures s.sys.workdirs <= n.sys.workdirs && (step == DoExec ==> ID in n.sys.workdirs)
  {
    AppendEmpty(Sole(Some(step)));
    more, n := Leaving.OwnExchange(beats, s, ID, t, cfg, step, [], r);
    AppendEmpty(Sole(OnReply(t, cfg, r).send));
    Leaving.UnopenedIsGuarded(beats, more, ID);
    Leaving.GuardedJoin(beats, more, ID);
  }

  /** Planned and executed. */
  lemma Executed(cfg: Config) returns (beats: seq<Beat>, s: Session)
    requires cfg.cloneUrl
    ensures Stage(beats, s, OPENED, cfg, Sole(Some(if RunsTests(cfg) then DoTest else DoReview)))
    ensures ID in s.sys.workdirs
  {
    PlanAndExec(cfg);
    var s0 := Begun(cfg);
    var a, s1 := Goes(Opening(cfg), s0, NEW_TASK, cfg, AskPlan, Planned);
    var b;
    b, s := Goes(Opening(cfg) + a, s1, PLANNED, cfg, DoExec, ExecDone);
    beats := Opening(cfg) + a + b;
  }

  lemma Reviews()
    ensures OnReply(OPENED, TESTS_OFF, ReviewDone(true)) == Effect(BLOCKED_UNTESTED, None)
    ensures OnReply(OPENED, GATE_ON, TestDone(true)) == Effect(TESTED_OK, Some(DoReview))
    ensures OnReply(TESTED_OK, GATE_ON, ReviewDone(true)) == Effect(BLOCKED_TESTED, None)
  {
    assert WithAi(OPENED, true).prs == BLOCKED_UNTESTED.prs;
    assert WithCi(OPENED, true).prs == TESTED_OK.prs;
    assert WithAi(TESTED_OK, true).prs == BLOCKED_TESTED.prs;
  }

  /** Tests skipped, approved by the AI: blocked on a person with `ci` still none. */
  lemma BlockedUntested() returns (beats: seq<Beat>, s: Session)
    ensures Stage(beats, s, BLOCKED_UNTESTED, TESTS_OFF, []) && ID in s.sys.workdirs
  {
    Reviews();
    var a, s1 := Executed(TESTS_OFF);
    var b;
    b, s := Goes(a, s1, OPENED, TESTS_OFF, DoReview, ReviewDone(true));
    beats := a + b;
  }

  /** Tested, approved by the AI and blocked on a person. */
  lemma BlockedTested() returns (beats: seq<Beat>, s: Session)
    ensures Stage(beats, s, BLOCKED_TESTED, GATE_ON, []) && ID in s.sys.workdirs
  {
    Reviews();
    var a, s1 := Executed(GATE_ON);
    var b, s2 := Goes(a, s1, OPENED, GATE_ON, DoTest, TestDone(true));
    var c;
    c, s := Goes(a + b, s2, TESTED_OK, GATE_ON, DoReview, ReviewDone(true));
    beats := a + b + c;
  }

  /**
   * A guarded session from the empty system that ends without a stream; the reconnection
   * after it lets `merged` be left.
   */
  ghost predicate LeadsToLeaving(beats: seq<Beat>) {
    && IsSession(beats) && SessionGuarded(beats, ID) && ID in SessionEnd(beats).sys.tasks
    && Permitted(SessionEnd(beats), Reopen([ID], [true]))
    && exists merge, fail :: Leaving.LeavesMerged(beats + [Reopen([ID], [true])], merge, fail, ID)
  }

  /** A beat that opens no stream keeps the session guarded. */
  lemma PlainBeat(beats: seq<Beat>, s: Session, b: Beat)
    requires Leaving.Ends(beats, s) && SessionGuarded(beats, ID) && Permitted(s, b) && !b.Reopen?
    ensures Leaving.Ends(beats + [b], Beaten(s, b)) && SessionGuarded(beats + [b], ID)
  {
    Leaving.AddBeat(beats, s, b);
    Leaving.UnopenedIsGuarded(beats, [b], ID);
    Leaving.GuardedJoin(beats, [b], ID);
  }

  lemma CutLeaves(beats: seq<Beat>, s: Session, t: Task, cfg: Config)
    requires Stage(beats, s, t, cfg, []) && ID in s.sys.workdirs
    requires BlockedShape(t) && t.status == Blocked && cfg.cloneUrl && (t.Latest().ci == CiNone || !MergeGate(cfg))
    ensures LeadsToLeaving(beats + [Drop])
  {
    var l := Beaten(s, Drop);
    PlainBeat(beats, s, Drop);
    SessionSilent(beats + [Drop]);
    SessionsHaveOneStep(beats + [Drop], ID);
    assert AcceptsFor([ID], [true], ID);
    var merge, fail := Leaving.WokenLeaves(beats + [Drop], l, [ID], [true], ID);
  }

  /** With tests switched off for the repository `merged` can be left. */
  lemma WithTestsOffMergedIsLeft() returns (beats: seq<Beat>)
    ensures LeadsToLeaving(beats)
  {
    var a, s := BlockedUntested();
    CutLeaves(a, s, BLOCKED_UNTESTED, TESTS_OFF);
    beats := a + [Drop];
  }

  /** With tests on, but the gate switched off while the task waits for a person, it can too. */
  lemma WithGateSwitchedOffMergedIsLeft() returns (beats: seq<Beat>)
    ensures LeadsToLeaving(beats)
  {
    var a, s := BlockedTested();
    var switch := Plain(Configures(ID, GATE_OFF));
    PlainBeat(a, s, switch);
    CutLeaves(a + [switch], Beaten(s, switch), BLOCKED_TESTED, GATE_OFF);
    beats := a + [switch] + [Drop];
  }

  // ---------- a lost step that is not retaken ----------

  /** What is in flight after a guarded run from creation is owed. */
  lemma {:induction false} OwedInFlight(cfg: Config, moves: seq<Move>, n: Linked, step: Command)
    requires RunsTo(Start(cfg, true, true), moves, n) && Guarded(Start(cfg, true, true), moves)
    requires ToExecutor(step) in n.world.flight
    ensures OwedEnd(Start(cfg, true, true), moves, NEW_OWES) == Some(step)
  {
    RunTracked(cfg, true, true, moves);
  }

  lemma SnapshotTestsInstead()
    ensures !Retakes(OPENED, TESTS_OFF, DoReview) && OnSnapshot(OPENED, TESTS_OFF).send == Some(DoTest)
  {
  }

  /** A REVIEW lost while `ci` is still none is owed, and not retaken: the snapshot sends a TEST. */
  lemma UntestedReviewIsNotRetaken() returns (moves: seq<Move>, l: Linked)
    ensures RunsTo(Start(TESTS_OFF, true, true), moves, l) && Guarded(Start(TESTS_OFF, true, true), moves)
    ensures OwedEnd(Start(TESTS_OFF, true, true), moves, NEW_OWES) == Some(DoReview)
    ensures l.world.task == OPENED && !Retakes(OPENED, l.world.cfg, DoReview)
    ensures OnSnapshot(OPENED, l.world.cfg).send == Some(DoTest)
  {
    moves, l := Opened(TESTS_OFF);
    UnopenedIsGuarded(Start(TESTS_OFF, true, true), moves);
    OwedInFlight(TESTS_OFF, moves, l, DoReview);
    SnapshotTestsInstead();
  }
}
