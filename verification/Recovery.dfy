/**
 * What reconnecting recovers. A task owes a step once the server has dispatched it,
 * whether or not the hub took it, until its answer is handled: a command dropped by
 * the hub, lost with a stream or lost a second time on reconnecting is owed like one
 * that is still travelling. Proved: exactly when the snapshot handler dispatches the
 * owed step again, and that it always does with tests enabled and a fixed configuration.
 */
module Recovery {
  import opened Options
  import opened Pipeline
  import opened TaskRuns
  import opened Connections

  // ---------- the owed step ----------

  /** The step dispatched last and not answered yet, after a move. */
  function OwedAfter(l: Linked, mv: Move, owed: Option<Command>): Option<Command>
    requires Allowed(l, mv)
  {
    match mv
    case Do(a) =>
      if EffectOf(l.world, a).send.Some? then EffectOf(l.world, a).send
      else if a.Receive? then None
      else owed
    case Cut => owed
    case Open(reported, _) =>
      var e := OnSnapshot(l.world.task, l.world.cfg);
      if reported && e.send.Some? then e.send else owed
  }

  function OwedEnd(l: Linked, moves: seq<Move>, owed: Option<Command>): Option<Command>
    requires IsLinkedRun(l, moves)
    decreases |moves|
  {
    if moves == [] then owed else OwedEnd(Next(l, moves[0]), moves[1..], OwedAfter(l, moves[0], owed))
  }

  /** A new task owes its plan. */
  const NEW_OWES := Some(AskPlan)

  predicate Late(step: Command) {
    step == DoTest || step == DoReview || step == DoMerge
  }

  /** The gates of a task that is not over have nothing against it. */
  predicate Consistent(t: Task) {
    t.prs != [] && !t.Terminal() ==>
      t.Latest().ci != CiFailed && t.Latest().ai != Changes && t.Latest().human != Changes
  }

  /** What an owed step says about the gates of an open pull request. */
  predicate Suits(step: Command, t: Task) {
    t.prs != [] && !t.Terminal() ==>
      && Late(step)
      && (step == DoTest ==> t.Latest().ci == CiNone)
      && (step == DoMerge ==> t.Latest().ai == Approved)
  }

  predicate RowTracks(t: Task, owed: Option<Command>) {
    Consistent(t) && (owed.Some? ==> Suits(owed.value, t))
  }

  /** Whatever is in flight is about the owed step. */
  ghost predicate FlightTracks(flight: multiset<Message>, owed: Option<Command>) {
    forall m :: m in flight ==> owed == Some(StepIn(m))
  }

  ghost predicate Tracked(w: World, owed: Option<Command>) {
    RowTracks(w.task, owed) && FlightTracks(w.flight, owed)
  }

  lemma ReplyTracks(t: Task, cfg: Config, r: Reply)
    requires Consistent(t) && Suits(StepOf(r), t) && !Idle(t)
    requires r.Planned? || r.ExecDone? ==> t.prs == []
    ensures var e := OnReply(t, cfg, r); RowTracks(e.task, e.send)
  {
  }

  lemma AnswerTracks(t: Task, cfg: Config, owed: Option<Command>)
    requires RowTracks(t, owed) && BlockedShape(t) && t.Listed()
    ensures var yes := OnApprove(t, cfg); RowTracks(yes.task, if yes.send.Some? then yes.send else owed)
    ensures RowTracks(OnReject(t).task, owed)
  {
  }

  lemma SnapshotTracks(t: Task, cfg: Config, owed: Option<Command>)
    requires RowTracks(t, owed)
    ensures var e := OnSnapshot(t, cfg); RowTracks(e.task, if e.send.Some? then e.send else owed)
  {
  }

  /** The only reply in flight, when it is handled, and what is in flight after it. */
  lemma OnlyReply(l: Linked, r: Reply, accepted: bool)
    requires OneStep(l) && OneToken(l.world) && Allowed(l, Do(Receive(r, accepted)))
    ensures !Idle(l.world.task) && (r.Planned? || r.ExecDone? ==> l.world.task.prs == [])
    ensures Next(l, Do(Receive(r, accepted))).world.flight == Bag(Product(l.world, Receive(r, accepted)))
  {
    var w := l.world;
    SingleFlight(w.flight, ToServer(r));
    assert w.flight[ToServer(r)] == 1;
    assert w.flight - multiset{ToServer(r)} == multiset{};
    assert multiset{} + Bag(Product(w, Receive(r, accepted))) == Bag(Product(w, Receive(r, accepted)));
  }

  lemma ReceiveKeepsTracked(l: Linked, r: Reply, accepted: bool, owed: Option<Command>)
    requires OneStep(l) && OneToken(l.world) && Tracked(l.world, owed) && Allowed(l, Do(Receive(r, accepted)))
    ensures Tracked(Next(l, Do(Receive(r, accepted))).world, OnReply(l.world.task, l.world.cfg, r).send)
  {
    OnlyReply(l, r, accepted);
    assert ToServer(r) in l.world.flight;
    ReplyTracks(l.world.task, l.world.cfg, r);
  }

  /** What an answer of a person leaves in flight: nothing else is. */
  lemma AnswerAlone(l: Linked, a: Act)
    requires OneStep(l) && Allowed(l, Do(a)) && (a.Approve? || a.Reject?)
    ensures Next(l, Do(a)).world.flight == Bag(Product(l.world, a))
  {
    assert l.world.flight == multiset{};
  }

  lemma ExecuteKeepsTracked(l: Linked, step: Command, r: Reply, owed: Option<Command>)
    requires Tracked(l.world, owed) && Allowed(l, Do(Execute(step, r)))
    ensures Tracked(Next(l, Do(Execute(step, r))).world, owed)
  {
    assert ToExecutor(step) in l.world.flight;
  }

  lemma AnswerKeepsTracked(l: Linked, a: Act, owed: Option<Command>)
    requires OneStep(l) && BlockedShape(l.world.task) && Tracked(l.world, owed)
    requires Allowed(l, Do(a)) && (a.Approve? || a.Reject?)
    ensures Tracked(Next(l, Do(a)).world, OwedAfter(l, Do(a), owed))
  {
    AnswerAlone(l, a);
    AnswerTracks(l.world.task, l.world.cfg, owed);
  }

  lemma DoKeepsTracked(l: Linked, a: Act, owed: Option<Command>)
    requires OneStep(l) && OneToken(l.world) && BlockedShape(l.world.task) && Tracked(l.world, owed)
    requires Allowed(l, Do(a))
    ensures Tracked(Next(l, Do(a)).world, OwedAfter(l, Do(a), owed))
  {
    match a {
      case Receive(r, accepted) => ReceiveKeepsTracked(l, r, accepted, owed);
      case Execute(step, r) => ExecuteKeepsTracked(l, step, r, owed);
      case Approve(_) => AnswerKeepsTracked(l, a, owed);
      case Reject => AnswerKeepsTracked(l, a, owed);
      case Reconfigure(_) =>
    }
  }

  lemma OpenKeepsTracked(l: Linked, reported: bool, accepted: bool, owed: Option<Command>)
    requires OneStep(l) && Tracked(l.world, owed) && !l.up
    ensures Tracked(Next(l, Open(reported, accepted)).world, OwedAfter(l, Open(reported, accepted), owed))
  {
    OpenIsSnapshot(l, reported, accepted);
    SnapshotTracks(l.world.task, l.world.cfg, owed);
  }

  lemma MoveKeepsTracked(l: Linked, mv: Move, owed: Option<Command>)
    requires OneStep(l) && OneToken(l.world) && BlockedShape(l.world.task) && Tracked(l.world, owed)
    requires Allowed(l, mv)
    ensures Tracked(Next(l, mv).world, OwedAfter(l, mv, owed))
  {
    match mv {
      case Do(a) => DoKeepsTracked(l, a, owed);
      case Cut =>
      case Open(reported, accepted) => OpenKeepsTracked(l, reported, accepted, owed);
    }
  }

  lemma {:induction false} RunKeepsTracked(l: Linked, moves: seq<Move>, k: Marks, owed: Option<Command>)
    requires Kept(l.world, k) && OneStep(l) && Tracked(l.world, owed)
    requires IsLinkedRun(l, moves) && Guarded(l, moves)
    ensures Tracked(LinkedEnd(l, moves).world, OwedEnd(l, moves, owed))
    decreases |moves|
  {
    if moves != [] {
      MoveKeepsOneStep(l, moves[0]);
      MoveKeepsTracked(l, moves[0], owed);
      var k' := MoveKeeps(l, moves[0], k);
      RunKeepsTracked(Next(l, moves[0]), moves[1..], k', OwedAfter(l, moves[0], owed));
    }
  }

  // ---------- exactly when the owed step is retaken ----------

  /** The row alone says that `step` is the one to retake. */
  predicate Retakes(t: Task, cfg: Config, step: Command)
    requires t.prs != []
  {
    && cfg.cloneUrl
    && (step == DoReview ==> t.Latest().ci == CiPassed && t.Latest().ai == Unreviewed)
    && (step == DoMerge ==> t.Latest().ci == CiPassed && (MergeGate(cfg) ==> t.Latest().human == Approved))
  }

  lemma SnapshotRetakesIff(t: Task, cfg: Config, step: Command)
    requires Consistent(t) && Suits(step, t) && t.prs != [] && !t.Terminal()
    ensures OnSnapshot(t, cfg).send == Some(step) <==> Retakes(t, cfg, step)
  {
  }

  /** The stream is gone. */
  function Lost(l: Linked): Linked {
    if l.up then Next(l, Cut) else l
  }

  lemma Reopened(l: Linked, accepted: bool)
    requires OneStep(l)
    ensures var n := Next(Lost(l), Open(true, accepted));
            var e := OnSnapshot(l.world.task, l.world.cfg);
            && Lost(l).world.task == l.world.task && Lost(l).world.cfg == l.world.cfg
            && n.world.task == e.task
            && n.world.flight == if e.send.Some? && accepted then multiset{ToExecutor(e.send.value)} else multiset{}
  {
    OpenIsSnapshot(Lost(l), true, accepted);
  }

  lemma SingleCommand(send: Option<Command>, step: Command)
    ensures (if send.Some? then multiset{ToExecutor(send.value)} else multiset{}) == multiset{ToExecutor(step)}
            <==> send == Some(step)
  {
    var bag := if send.Some? then multiset{ToExecutor(send.value)} else multiset{};
    if bag == multiset{ToExecutor(step)} {
      assert ToExecutor(step) in bag;
    }
  }

  lemma {:induction false} RunTracked(cfg: Config, up: bool, accepted: bool, moves: seq<Move>)
    requires accepted ==> up
    requires IsLinkedRun(Start(cfg, up, accepted), moves) && Guarded(Start(cfg, up, accepted), moves)
    ensures var l := LinkedEnd(Start(cfg, up, accepted), moves);
            OneStep(l) && Tracked(l.world, OwedEnd(Start(cfg, up, accepted), moves, NEW_OWES))
  {
    var k := FromCreation(cfg, accepted, []);
    GuardedKeepsOneStep(Start(cfg, up, accepted), moves, k);
    RunKeepsTracked(Start(cfg, up, accepted), moves, k, NEW_OWES);
  }

  /**
   * In every guarded run, whatever happens to the configuration, and wherever the owed
   * step of an open pull request was lost (dropped by the hub, in flight, or in an
   * earlier reconnection): the next snapshot dispatches that same step if and only if
   * `Retakes` holds. What is in flight is never about another step.
   */
  lemma {:induction false} OwedStepIsRetakenIff(cfg: Config, up: bool, accepted: bool, moves: seq<Move>)
    requires accepted ==> up
    requires IsLinkedRun(Start(cfg, up, accepted), moves) && Guarded(Start(cfg, up, accepted), moves)
    ensures var l := LinkedEnd(Start(cfg, up, accepted), moves);
            var owed := OwedEnd(Start(cfg, up, accepted), moves, NEW_OWES);
            && FlightTracks(l.world.flight, owed)
            && (l.world.task.prs != [] && !l.world.task.Terminal() && owed.Some? ==>
                  (Next(Lost(l), Open(true, true)).world.flight == multiset{ToExecutor(owed.value)}
                   <==> Retakes(l.world.task, l.world.cfg, owed.value)))
  {
    RunTracked(cfg, up, accepted, moves);
    RetakenIff(LinkedEnd(Start(cfg, up, accepted), moves), OwedEnd(Start(cfg, up, accepted), moves, NEW_OWES));
  }

  lemma RetakenIff(l: Linked, owed: Option<Command>)
    requires OneStep(l) && Tracked(l.world, owed)
    ensures l.world.task.prs != [] && !l.world.task.Terminal() && owed.Some? ==>
              (Next(Lost(l), Open(true, true)).world.flight == multiset{ToExecutor(owed.value)}
               <==> Retakes(l.world.task, l.world.cfg, owed.value))
  {
    if l.world.task.prs != [] && !l.world.task.Terminal() && owed.Some? {
      Reopened(l, true);
      SnapshotRetakesIff(l.world.task, l.world.cfg, owed.value);
      SingleCommand(OnSnapshot(l.world.task, l.world.cfg).send, owed.value);
    }
  }

  // ---------- a fixed configuration with tests ----------

  /** Nobody changes the configuration during the run. */
  predicate Steady(moves: seq<Move>) {
    forall mv :: mv in moves && mv.Do? ==> !mv.act.Reconfigure?
  }

  /**
   * The row is where its owed step left it: an open pull request that waits for nobody
   * owes exactly the step its snapshot would dispatch, and a blocked one sleeps.
   */
  predicate RowOwes(t: Task, cfg: Config, owed: Option<Command>) {
    && (t.prs != [] || owed == Some(DoExec) ==> cfg.cloneUrl)
    && (t.prs != [] && t.Latest().ci == CiNone ==> t.Latest().ai == Unreviewed)
    && (t.prs != [] && !Idle(t) ==> owed.Some? && OnSnapshot(t, cfg) == Effect(t, owed))
    && (t.status == Blocked && t.prs != [] ==> t.Latest().ci == CiPassed && MergeGate(cfg))
  }

  ghost predicate SteadyAt(l: Linked, owed: Option<Command>) {
    RunsTests(l.world.cfg) && Tracked(l.world, owed) && RowOwes(l.world.task, l.world.cfg, owed)
  }

  lemma ReplyOwes(t: Task, cfg: Config, r: Reply)
    requires RunsTests(cfg) && Consistent(t) && RowOwes(t, cfg, Some(StepOf(r))) && !Idle(t)
    requires r.Planned? || r.ExecDone? ==> t.prs == []
    requires Late(StepOf(r)) ==> t.prs != []
    ensures var e := OnReply(t, cfg, r); RowOwes(e.task, cfg, e.send)
  {
  }

  lemma AnswerOwes(t: Task, cfg: Config, owed: Option<Command>)
    requires Consistent(t) && RowOwes(t, cfg, owed) && BlockedShape(t) && t.Listed()
    ensures var yes := OnApprove(t, cfg); yes.send == Some(DoMerge) && RowOwes(yes.task, cfg, yes.send)
    ensures RowOwes(OnReject(t).task, cfg, owed)
  {
  }

  /** With a steady configuration a snapshot dispatches what is owed and leaves the row. */
  lemma SnapshotOwes(t: Task, cfg: Config, owed: Option<Command>)
    requires RowOwes(t, cfg, owed) && BlockedShape(t)
    ensures OnSnapshot(t, cfg) == Effect(t, if t.prs != [] && !Idle(t) then owed else None)
  {
  }

  lemma SteadySleeps(l: Linked, owed: Option<Command>)
    requires SteadyAt(l, owed)
    ensures Sleeps(l.world)
  {
  }

  lemma ReceiveKeepsSteady(l: Linked, r: Reply, accepted: bool, owed: Option<Command>, k: Marks)
    requires OneStep(l) && Kept(l.world, k) && SteadyAt(l, owed) && Allowed(l, Do(Receive(r, accepted)))
    ensures RowOwes(OnReply(l.world.task, l.world.cfg, r).task, l.world.cfg, OnReply(l.world.task, l.world.cfg, r).send)
  {
    OnlyReply(l, r, accepted);
    assert ToServer(r) in l.world.flight;
    assert MessageBacked(ToServer(r), l.world.task, k);
    ReplyOwes(l.world.task, l.world.cfg, r);
  }

  lemma DoKeepsOwing(l: Linked, a: Act, owed: Option<Command>, k: Marks)
    requires OneStep(l) && Kept(l.world, k) && SteadyAt(l, owed) && Allowed(l, Do(a)) && !a.Reconfigure?
    ensures RowOwes(EffectOf(l.world, a).task, l.world.cfg, OwedAfter(l, Do(a), owed))
  {
    match a {
      case Receive(r, accepted) => ReceiveKeepsSteady(l, r, accepted, owed, k);
      case Execute(_, _) =>
      case Approve(_) => AnswerOwes(l.world.task, l.world.cfg, owed);
      case Reject => AnswerOwes(l.world.task, l.world.cfg, owed);
    }
  }

  lemma MoveKeepsSteady(l: Linked, mv: Move, owed: Option<Command>, k: Marks)
    requires OneStep(l) && Kept(l.world, k) && SteadyAt(l, owed) && Allowed(l, mv)
    requires mv.Do? ==> !mv.act.Reconfigure?
    ensures SteadyAt(Next(l, mv), OwedAfter(l, mv, owed))
  {
    MoveKeepsTracked(l, mv, owed);
    match mv {
      case Do(a) => DoKeepsOwing(l, a, owed, k);
      case Cut =>
      case Open(reported, accepted) =>
        OpenIsSnapshot(l, reported, accepted);
        SnapshotOwes(l.world.task, l.world.cfg, owed);
    }
  }

  lemma {:induction false} SteadyRun(l: Linked, moves: seq<Move>, owed: Option<Command>, k: Marks)
    requires OneStep(l) && Kept(l.world, k) && SteadyAt(l, owed)
    requires IsLinkedRun(l, moves) && Steady(moves)
    ensures Guarded(l, moves)
    ensures OneStep(LinkedEnd(l, moves)) && SteadyAt(LinkedEnd(l, moves), OwedEnd(l, moves, owed))
    ensures BlockedShape(LinkedEnd(l, moves).world.task)
    decreases |moves|
  {
    if moves != [] {
      assert moves[0] in moves;
      SteadySleeps(l, owed);
      MoveKeepsOneStep(l, moves[0]);
      MoveKeepsSteady(l, moves[0], owed, k);
      var k' := MoveKeeps(l, moves[0], k);
      SteadyRun(Next(l, moves[0]), moves[1..], OwedAfter(l, moves[0], owed), k');
    }
  }

  /** With tests enabled and the configuration left alone, every run is guarded. */
  lemma {:induction false} SteadyRunsAreGuarded(cfg: Config, up: bool, accepted: bool, moves: seq<Move>)
    requires accepted ==> up
    requires RunsTests(cfg) && Steady(moves) && IsLinkedRun(Start(cfg, up, accepted), moves)
    ensures Guarded(Start(cfg, up, accepted), moves)
    ensures OneStep(LinkedEnd(Start(cfg, up, accepted), moves))
  {
    var k := FromCreation(cfg, accepted, []);
    SteadyRun(Start(cfg, up, accepted), moves, NEW_OWES, k);
  }

  /** What the next snapshot does about the step that is owed. */
  ghost predicate Recovers(l: Linked, owed: Option<Command>) {
    var after := Next(Lost(l), Open(true, true)).world;
    && after.task == l.world.task
    && (if l.world.task.prs != [] && !Idle(l.world.task)
        then owed.Some? && Late(owed.value) && after.flight == multiset{ToExecutor(owed.value)}
        else after.flight == multiset{})
  }

  /**
   * With tests enabled and the configuration left alone, reconnecting recovers exactly
   * what was lost, wherever it was lost: an open pull request that waits for nobody owes
   * a step, and the next snapshot dispatches that step; a task without a pull request is
   * given up, and a blocked or finished one is left alone. The row never changes.
   */
  lemma {:induction false} ReconnectRecovers(cfg: Config, up: bool, accepted: bool, moves: seq<Move>)
    requires accepted ==> up
    requires RunsTests(cfg) && Steady(moves) && IsLinkedRun(Start(cfg, up, accepted), moves)
    ensures var owed := OwedEnd(Start(cfg, up, accepted), moves, NEW_OWES);
            var l := LinkedEnd(Start(cfg, up, accepted), moves);
            Recovers(l, owed) && FlightTracks(l.world.flight, owed)
  {
    var k := FromCreation(cfg, accepted, []);
    SteadyRun(Start(cfg, up, accepted), moves, NEW_OWES, k);
    SteadyRecovers(LinkedEnd(Start(cfg, up, accepted), moves), OwedEnd(Start(cfg, up, accepted), moves, NEW_OWES));
  }

  lemma SteadyRecovers(l: Linked, owed: Option<Command>)
    requires OneStep(l) && SteadyAt(l, owed) && BlockedShape(l.world.task)
    ensures Recovers(l, owed)
  {
    Reopened(l, true);
    SnapshotOwes(l.world.task, l.world.cfg, owed);
  }
}
