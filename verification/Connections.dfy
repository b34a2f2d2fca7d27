/**
 * Runs of one task over real connections: commands and replies only travel while
 * a stream is open, losing the stream loses everything in flight, and opening one
 * handles the executor's report of its workdirs before anything else.
 *
 * Under this discipline a task has at most one outstanding step and terminal states
 * are final, except that the snapshot handler may wake a task that is blocked on a
 * person. `Sleeps` is the exact condition: `Leaving` shows what happens without it.
 */
module Connections {
  import opened Options
  import opened Sequences
  import opened Multisets
  import opened Pipeline
  import opened TaskRuns

  datatype Linked = Linked(world: World, up: bool)

  datatype Move =
    | Do(act: Act)
    | Cut
    | Open(reported: bool, accepted: bool) // reported: the executor has a workdir of the task

  predicate Allowed(l: Linked, mv: Move) {
    match mv
    case Do(a) =>
      && Enabled(l.world, a)
      && (match a
          case Receive(_, _) => l.up
          case Execute(_, _) => l.up
          case Approve(accepted) => accepted ==> l.up
          case Reject => true
          case Reconfigure(_) => true
          case _ => false)
    case Cut => l.up
    case Open(_, _) => !l.up
  }

  /** Losing the stream loses everything in flight. */
  function Emptied(w: World): World {
    w.(flight := multiset{}, reports := 0)
  }

  /** A workdir report of the task is sent and handled. */
  function Snapshotted(w: World, accepted: bool): World {
    var e := OnSnapshot(w.task, w.cfg);
    World(
      e.task,
      w.cfg,
      w.flight + Bag(if accepted && e.send.Some? then Some(ToExecutor(e.send.value)) else None),
      w.reports,
      w.history + SentNote(w.cfg, e),
      w.dispatched + if e.send.Some? then 1 else 0,
      w.reconciled + 1)
  }

  function Next(l: Linked, mv: Move): Linked
    requires Allowed(l, mv)
  {
    match mv
    case Do(a) => Linked(Step(l.world, a), l.up)
    case Cut => Linked(Emptied(l.world), false)
    case Open(reported, accepted) => Linked(if reported then Snapshotted(l.world, accepted) else l.world, true)
  }

  predicate IsLinkedRun(l: Linked, moves: seq<Move>)
    decreases |moves|
  {
    moves == [] || (Allowed(l, moves[0]) && IsLinkedRun(Next(l, moves[0]), moves[1..]))
  }

  function LinkedEnd(l: Linked, moves: seq<Move>): Linked
    requires IsLinkedRun(l, moves)
    decreases |moves|
  {
    if moves == [] then l else LinkedEnd(Next(l, moves[0]), moves[1..])
  }

  /** A task created while a stream is open (and then perhaps asked for a plan) or while none is. */
  function Start(cfg: Config, up: bool, accepted: bool): Linked
    requires accepted ==> up
  {
    Linked(Created(cfg, accepted), up)
  }

  /** Both are steps of the task. */
  lemma CutIsStep(w: World)
    ensures Emptied(w) == Step(w, LoseAll)
  {
    AppendEmpty(w.history);
  }

  lemma SnapshotIsSteps(w: World, accepted: bool)
    ensures Enabled(Step(w, Report), Reconcile(accepted))
    ensures Snapshotted(w, accepted) == Step(Step(w, Report), Reconcile(accepted))
  {
    var w1 := Step(w, Report);
    assert w1 == w.(reports := w.reports + 1) by {
      AppendEmpty(w.history);
      Nothing(w.flight);
    }
    Nothing(w.flight);
  }

  /** Every move consists of steps of the task, so what all its runs keep is kept here too. */
  lemma MoveKeeps(l: Linked, mv: Move, k: Marks) returns (k': Marks)
    requires Kept(l.world, k) && Allowed(l, mv)
    ensures Kept(Next(l, mv).world, k')
  {
    match mv {
      case Do(a) =>
        StepKeeps(l.world, a, k);
        k' := MarksAfter(l.world, a, k);
      case Cut =>
        CutIsStep(l.world);
        StepKeeps(l.world, LoseAll, k);
        k' := MarksAfter(l.world, LoseAll, k);
      case Open(reported, accepted) =>
        k' := k;
        if reported {
          k' := OpenKeeps(l.world, accepted, k);
        }
    }
  }

  lemma OpenKeeps(w: World, accepted: bool, k: Marks) returns (k': Marks)
    requires Kept(w, k)
    ensures Kept(Snapshotted(w, accepted), k')
  {
    SnapshotIsSteps(w, accepted);
    StepKeeps(w, Report, k);
    var w1, k1 := Step(w, Report), MarksAfter(w, Report, k);
    StepKeeps(w1, Reconcile(accepted), k1);
    k' := MarksAfter(w1, Reconcile(accepted), k1);
  }

  lemma {:induction false} LinkedRunKeeps(l: Linked, moves: seq<Move>, k: Marks) returns (k': Marks)
    requires Kept(l.world, k) && IsLinkedRun(l, moves)
    ensures Kept(LinkedEnd(l, moves).world, k')
    decreases |moves|
  {
    k' := k;
    if moves != [] {
      k' := MoveKeeps(l, moves[0], k);
      k' := LinkedRunKeeps(Next(l, moves[0]), moves[1..], k');
    }
  }

  // ---------- at most one outstanding step ----------

  /** At most one step is outstanding, and none for a task that waits for a person or is over. */
  predicate OneStep(l: Linked) {
    && |l.world.flight| <= 1
    && l.world.reports == 0
    && (l.world.task.status == Blocked || l.world.task.Terminal() || !l.up ==> l.world.flight == multiset{})
  }

  /**
   * A blocked task sleeps through a snapshot: its tests were run and the gate it
   * waits at is still on (or its repository cannot be dispatched to at all).
   */
  predicate Sleeps(w: World) {
    w.task.status == Blocked && w.task.prs != [] && w.cfg.cloneUrl ==>
      w.task.Latest().ci != CiNone && MergeGate(w.cfg)
  }

  /** Every snapshot whose dispatch would be accepted finds the task asleep or not blocked. */
  predicate Guarded(l: Linked, moves: seq<Move>)
    requires IsLinkedRun(l, moves)
    decreases |moves|
  {
    moves != [] ==>
      && (moves[0].Open? && moves[0].reported && moves[0].accepted ==> Sleeps(l.world))
      && Guarded(Next(l, moves[0]), moves[1..])
  }

  lemma SingleFlight(flight: multiset<Message>, m: Message)
    requires |flight| <= 1 && m in flight
    ensures flight == multiset{m}
  {
    assert flight == multiset{m} + (flight - multiset{m});
    assert |flight - multiset{m}| == 0;
  }

  predicate Idle(t: Task) {
    t.status == Blocked || t.Terminal()
  }

  lemma {:induction false} DoKeepsOneStep(l: Linked, a: Act)
    requires OneStep(l) && Allowed(l, Do(a))
    ensures OneStep(Next(l, Do(a)))
  {
    var w := l.world;
    if Source(a).Some? {
      SingleFlight(w.flight, Source(a).value);
      assert !Idle(w.task) && w.flight - Bag(Source(a)) == multiset{};
    } else if !a.Reconfigure? {
      assert Idle(w.task) && w.flight - Bag(Source(a)) == multiset{};
    } else {
      assert w.flight - multiset{} + multiset{} == w.flight;
    }
    assert Product(w, a).Some? ==> !Idle(EffectOf(w, a).task);
  }

  lemma {:induction false} OpenKeepsOneStep(l: Linked, reported: bool, accepted: bool)
    requires OneStep(l) && BlockedShape(l.world.task) && !l.up
    requires reported && accepted ==> Sleeps(l.world)
    ensures OneStep(Next(l, Open(reported, accepted)))
  {
    OpenIsSnapshot(l, reported, accepted);
  }

  /** Opening a stream hands the row to the snapshot handler once. */
  lemma {:induction false} OpenIsSnapshot(l: Linked, reported: bool, accepted: bool)
    requires !l.up && l.world.flight == multiset{} && l.world.reports == 0
    ensures var n := Next(l, Open(reported, accepted));
            var e := if reported then OnSnapshot(l.world.task, l.world.cfg) else Effect(l.world.task, None);
            && n.up && n.world.task == e.task && n.world.cfg == l.world.cfg && n.world.reports == 0
            && n.world.flight == if e.send.Some? && accepted then multiset{ToExecutor(e.send.value)} else multiset{}
  {
    if reported {
      var e := OnSnapshot(l.world.task, l.world.cfg);
      assert multiset{} + Bag(if accepted && e.send.Some? then Some(ToExecutor(e.send.value)) else None)
          == if e.send.Some? && accepted then multiset{ToExecutor(e.send.value)} else multiset{};
    }
  }

  lemma {:induction false} MoveKeepsOneStep(l: Linked, mv: Move)
    requires OneStep(l) && BlockedShape(l.world.task) && Allowed(l, mv)
    requires mv.Open? && mv.reported && mv.accepted ==> Sleeps(l.world)
    ensures OneStep(Next(l, mv))
    ensures l.world.task.Terminal() ==> Next(l, mv).world.task == l.world.task
  {
    match mv {
      case Do(a) => DoKeepsOneStep(l, a);
      case Cut =>
      case Open(reported, accepted) =>
        OpenKeepsOneStep(l, reported, accepted);
        OpenIsSnapshot(l, reported, accepted);
    }
  }

  lemma {:induction false} GuardedKeepsOneStep(l: Linked, moves: seq<Move>, k: Marks)
    requires Kept(l.world, k)
    requires OneStep(l) && IsLinkedRun(l, moves) && Guarded(l, moves)
    ensures OneStep(LinkedEnd(l, moves))
    ensures l.world.task.Terminal() ==> LinkedEnd(l, moves).world.task == l.world.task
    decreases |moves|
  {
    if moves != [] {
      MoveKeepsOneStep(l, moves[0]);
      var k' := MoveKeeps(l, moves[0], k);
      GuardedKeepsOneStep(Next(l, moves[0]), moves[1..], k');
    }
  }

  /** In a guarded run a task has at most one outstanding step, and none once it is blocked or over. */
  lemma AtMostOneStep(cfg: Config, up: bool, accepted: bool, moves: seq<Move>)
    requires accepted ==> up
    requires IsLinkedRun(Start(cfg, up, accepted), moves) && Guarded(Start(cfg, up, accepted), moves)
    ensures OneStep(LinkedEnd(Start(cfg, up, accepted), moves))
  {
    var k := FromCreation(cfg, accepted, []);
    GuardedKeepsOneStep(Start(cfg, up, accepted), moves, k);
  }

  /** `merged` and `failed` are never left: the row does not change any more. */
  lemma {:induction false} TerminalIsFinal(cfg: Config, up: bool, accepted: bool, first: seq<Move>, rest: seq<Move>)
    requires accepted ==> up
    requires IsLinkedRun(Start(cfg, up, accepted), first) && Guarded(Start(cfg, up, accepted), first)
    requires var l := LinkedEnd(Start(cfg, up, accepted), first);
             l.world.task.Terminal() && IsLinkedRun(l, rest) && Guarded(l, rest)
    ensures var l := LinkedEnd(Start(cfg, up, accepted), first);
            LinkedEnd(l, rest).world.task == l.world.task
  {
    var l := LinkedEnd(Start(cfg, up, accepted), first);
    AtMostOneStep(cfg, up, accepted, first);
    var k := FromCreation(cfg, accepted, []);
    k := LinkedRunKeeps(Start(cfg, up, accepted), first, k);
    GuardedKeepsOneStep(l, rest, k);
  }

  /** Approving a listed task of a repository with a clone URL sends a MERGE, whatever else is in flight. */
  lemma ApproveAddsMerge(l: Linked)
    requires l.up && l.world.task.Listed() && l.world.cfg.cloneUrl
    ensures Allowed(l, Do(Approve(true)))
    ensures Next(l, Do(Approve(true))).world.flight == l.world.flight + multiset{ToExecutor(DoMerge)}
  {
    assert l.world.flight - multiset{} == l.world.flight;
  }

  /** A task that does not sleep is sent a step and stays blocked. */
  lemma Wakes(w: World)
    requires !Sleeps(w) && BlockedShape(w.task)
    ensures OnSnapshot(w.task, w.cfg).task == w.task && w.task.Listed()
    ensures OnSnapshot(w.task, w.cfg).send == Some(DoTest) || OnSnapshot(w.task, w.cfg).send == Some(DoMerge)
  {
  }

  lemma WokenState(l: Linked) returns (step: Command)
    requires OneStep(l) && BlockedShape(l.world.task) && !l.up && !Sleeps(l.world)
    ensures var n := Next(l, Open(true, true));
            && n.up && n.world.task == l.world.task && n.world.cfg == l.world.cfg
            && n.world.flight == multiset{ToExecutor(step)}
    ensures l.world.task.Listed() && l.world.cfg.cloneUrl && (step == DoTest || step == DoMerge)
  {
    OpenIsSnapshot(l, true, true);
    Wakes(l.world);
    step := OnSnapshot(l.world.task, l.world.cfg).send.value;
  }

  /**
   * The guard is exact: opening a stream and handling the snapshot keeps `OneStep`
   * if and only if the task sleeps; and if it does not, a person who then approves
   * the intervention, which is still listed, makes two steps outstanding.
   */
  lemma {:induction false} OpenKeepsOneStepIff(l: Linked)
    requires OneStep(l) && BlockedShape(l.world.task) && !l.up
    ensures OneStep(Next(l, Open(true, true))) <==> Sleeps(l.world)
    ensures !Sleeps(l.world) ==>
              && Allowed(Next(l, Open(true, true)), Do(Approve(true)))
              && |Next(Next(l, Open(true, true)), Do(Approve(true))).world.flight| == 2
  {
    if Sleeps(l.world) {
      OpenKeepsOneStep(l, true, true);
    } else {
      var step := WokenState(l);
      ApproveAddsMerge(Next(l, Open(true, true)));
    }
  }
}
