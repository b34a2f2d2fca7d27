/**
 * The whole system as its connections run it: nothing travels without a stream, losing
 * one empties both queues, and the reports a new one begins with are all handled before
 * anything else. Each such run is, for every task, a connected run of that task, so one
 * outstanding step and the recovery of lost steps hold with many tasks on shared queues.
 */
module Sessions {
  import opened Options
  import opened Sequences
  import opened Pipeline
  import opened TaskRuns
  import opened Connections
  import opened Recovery
  import LinkedRuns
  import opened System

  datatype Session = Session(sys: Sys, up: bool)

  datatype Beat =
    | Plain(event: Event)
    | Drop
    | Reopen(found: seq<string>, accepts: seq<bool>) // whether the hub takes what each report dispatches

  /** What may happen with and without a stream. */
  predicate Travels(s: Session, e: Event) {
    match e
    case Create(_, _, accepted) => accepted ==> s.up
    case ServerReads(_) => s.up && s.sys.up != [] && s.sys.up[0].Answer?
    case ExecutorRuns(_, _) => s.up
    case Approves(_, accepted) => accepted ==> s.up
    case Rejects(_) => true
    case Configures(_, _) => true
    case _ => false
  }

  predicate Permitted(s: Session, b: Beat) {
    match b
    case Plain(e) => Possible(s.sys, e) && Travels(s, e)
    case Drop => s.up
    case Reopen(found, accepts) => !s.up && Possible(s.sys, Reconnects(found)) && |accepts| == |found|
  }

  /** The server handles as many of the oldest messages as there are entries in `accepts`. */
  function ReadAll(s: Sys, accepts: seq<bool>): Sys
    requires WellFormed(s)
    decreases |accepts|
  {
    if accepts == [] || s.up == [] then s
    else
      ReadKeepsShape(s, accepts[0]);
      ReadAll(After(s, ServerReads(accepts[0])), accepts[1..])
  }

  lemma ReadKeepsShape(s: Sys, accepted: bool)
    requires WellFormed(s) && s.up != []
    ensures WellFormed(After(s, ServerReads(accepted)))
    ensures After(s, ServerReads(accepted)).up == s.up[1..]
    ensures After(s, ServerReads(accepted)).tasks.Keys == s.tasks.Keys
  {
  }

  function Beaten(s: Session, b: Beat): Session
    requires WellFormed(s.sys) && Permitted(s, b)
  {
    match b
    case Plain(e) => Session(After(s.sys, e), s.up)
    case Drop => Session(After(s.sys, Disconnects), false)
    case Reopen(found, accepts) => Session(ReadAll(After(s.sys, Reconnects(found)), accepts), true)
  }

  const BEGIN := Session(EMPTY, false)

  predicate IsSession(beats: seq<Beat>)
    decreases |beats|, 0
  {
    beats == []
    || (IsSession(beats[..|beats| - 1])
        && Permitted(SessionEnd(beats[..|beats| - 1]), beats[|beats| - 1]))
  }

  function SessionEnd(beats: seq<Beat>): (s: Session)
    requires IsSession(beats)
    ensures WellFormed(s.sys)
    decreases |beats|, 1
  {
    if beats == [] then BEGIN
    else
      var s := SessionEnd(beats[..|beats| - 1]);
      BeatKeepsShape(s, beats[|beats| - 1]);
      Beaten(s, beats[|beats| - 1])
  }

  lemma {:induction false} ReadAllKeepsShape(s: Sys, accepts: seq<bool>)
    requires WellFormed(s)
    ensures WellFormed(ReadAll(s, accepts)) && ReadAll(s, accepts).tasks.Keys == s.tasks.Keys
    decreases |accepts|
  {
    if accepts != [] && s.up != [] {
      ReadKeepsShape(s, accepts[0]);
      ReadAllKeepsShape(After(s, ServerReads(accepts[0])), accepts[1..]);
    }
  }

  lemma EventKeepsShape(s: Sys, e: Event)
    requires WellFormed(s) && Possible(s, e)
    ensures WellFormed(After(s, e)) && s.tasks.Keys <= After(s, e).tasks.Keys
  {
  }

  lemma BeatKeepsShape(s: Session, b: Beat)
    requires WellFormed(s.sys) && Permitted(s, b)
    ensures WellFormed(Beaten(s, b).sys) && s.sys.tasks.Keys <= Beaten(s, b).sys.tasks.Keys
  {
    match b {
      case Plain(e) => EventKeepsShape(s.sys, e);
      case Drop =>
      case Reopen(found, accepts) =>
        EventKeepsShape(s.sys, Reconnects(found));
        ReadAllKeepsShape(After(s.sys, Reconnects(found)), accepts);
    }
  }

  // ---------- without a stream nothing is in flight ----------

  predicate Silent(s: Session) {
    !s.up ==> s.sys.down == [] && s.sys.up == []
  }

  lemma BeatKeepsSilent(s: Session, b: Beat)
    requires WellFormed(s.sys) && Permitted(s, b) && Silent(s)
    ensures Silent(Beaten(s, b))
  {
  }

  // ---------- one task's part ----------

  function Link(s: Session, id: string): Linked
    requires WellFormed(s.sys) && id in s.sys.tasks
  {
    Linked(Share(s.sys, id), s.up)
  }

  /** What the hub does with the dispatch of this task's report. */
  predicate AcceptsFor(found: seq<string>, accepts: seq<bool>, id: string)
    requires |accepts| == |found|
  {
    found != [] && if found[0] == id then accepts[0] else AcceptsFor(found[1..], accepts[1..], id)
  }

  /** What a beat is for the task, if anything. */
  function MoveFor(s: Session, b: Beat, id: string): Option<Move>
    requires Permitted(s, b)
  {
    match b
    case Plain(e) => var a := ActFor(s.sys, e, id); if a.Some? then Some(Do(a.value)) else None
    case Drop => Some(Cut)
    case Reopen(found, accepts) => Some(Open(id in found, AcceptsFor(found, accepts, id)))
  }

  lemma ReportsTail(found: seq<string>)
    requires found != []
    ensures Reports(found)[1..] == Reports(found[1..]) && Reports(found)[0] == Workdir(found[0])
  {
  }

  lemma TailDistinct(found: seq<string>)
    requires found != [] && Distinct(found)
    ensures Distinct(found[1..]) && found[0] !in found[1..]
    ensures forall id :: id in found <==> id == found[0] || id in found[1..]
  {
    assert found == [found[0]] + found[1..];
    assert forall i :: 0 <= i < |found[1..]| ==> found[1..][i] == found[i + 1] != found[0];
  }

  /** Reading all the reports reconciles each task that was reported, once. */
  lemma {:induction false} ReadAllShare(s: Sys, found: seq<string>, accepts: seq<bool>, id: string)
    requires WellFormed(s) && id in s.tasks && s.up == Reports(found) && Distinct(found) && |accepts| == |found|
    ensures var r := ReadAll(s, accepts);
            && WellFormed(r) && id in r.tasks
            && (id !in found ==> Share(r, id) == Share(s, id))
            && (id in found ==>
                  var a := Reconcile(AcceptsFor(found, accepts, id));
                  Enabled(Share(s, id), a) && Share(r, id) == Step(Share(s, id), a))
    decreases |found|
  {
    if found != [] {
      var s' := After(s, ServerReads(accepts[0]));
      ReadKeepsShape(s, accepts[0]);
      EventIsStep(s, ServerReads(accepts[0]), id);
      ReportsTail(found);
      TailDistinct(found);
      ReadAllShare(s', found[1..], accepts[1..], id);
    }
  }

  lemma Reconnected(s: Sys, found: seq<string>, id: string)
    requires WellFormed(s) && s.up == [] && id in s.tasks && Possible(s, Reconnects(found))
    ensures var r := After(s, Reconnects(found));
            && WellFormed(r) && id in r.tasks && r.up == Reports(found) && Distinct(found)
            && Share(r, id) == if id in found then Step(Share(s, id), TaskRuns.Report) else Share(s, id)
  {
    EventIsStep(s, Reconnects(found), id);
    assert [] + Reports(found) == Reports(found);
  }

  lemma ReopenIsMove(s: Session, found: seq<string>, accepts: seq<bool>, id: string)
    requires WellFormed(s.sys) && Silent(s) && id in s.sys.tasks && Permitted(s, Reopen(found, accepts))
    ensures var n := Beaten(s, Reopen(found, accepts));
            && WellFormed(n.sys) && id in n.sys.tasks
            && Link(n, id) == Next(Link(s, id), Open(id in found, AcceptsFor(found, accepts, id)))
  {
    Reconnected(s.sys, found, id);
    SnapshotIsSteps(Share(s.sys, id), AcceptsFor(found, accepts, id));
    ReadAllShare(After(s.sys, Reconnects(found)), found, accepts, id);
  }

  lemma PlainIsMove(s: Session, e: Event, id: string)
    requires WellFormed(s.sys) && id in s.sys.tasks && Permitted(s, Plain(e))
    ensures WellFormed(After(s.sys, e)) && id in After(s.sys, e).tasks
    ensures var a := ActFor(s.sys, e, id);
            var l := Linked(Share(After(s.sys, e), id), s.up);
            if a == None then l == Link(s, id)
            else Allowed(Link(s, id), Do(a.value)) && l == Next(Link(s, id), Do(a.value))
  {
    EventIsStep(s.sys, e, id);
  }

  /** Every beat is, for a task the system already has, nothing or one move of that task. */
  lemma BeatIsMove(s: Session, b: Beat, id: string)
    requires WellFormed(s.sys) && Silent(s) && id in s.sys.tasks && Permitted(s, b)
    ensures WellFormed(Beaten(s, b).sys) && id in Beaten(s, b).sys.tasks
    ensures var mv := MoveFor(s, b, id);
            if mv == None then Link(Beaten(s, b), id) == Link(s, id)
            else Allowed(Link(s, id), mv.value) && Link(Beaten(s, b), id) == Next(Link(s, id), mv.value)
  {
    match b {
      case Plain(e) => PlainIsMove(s, e, id);
      case Drop =>
        EventIsStep(s.sys, Disconnects, id);
        CutIsStep(Share(s.sys, id));
      case Reopen(found, accepts) => ReopenIsMove(s, found, accepts, id);
    }
  }

  /** A new task starts as connected runs assume. */
  lemma BeatCreates(s: Session, b: Beat, id: string)
    requires WellFormed(s.sys) && Permitted(s, b) && id !in s.sys.tasks
    requires WellFormed(Beaten(s, b).sys) && id in Beaten(s, b).sys.tasks
    ensures b.Plain? && b.event.Create? && b.event.id == id
    ensures b.event.accepted ==> s.up
    ensures Link(Beaten(s, b), id) == Start(b.event.cfg, s.up, b.event.accepted)
  {
    match b {
      case Plain(e) =>
        OnlyCreationAdds(s.sys, e, id);
        CreateShare(s.sys, id, e.cfg, e.accepted);
      case Drop =>
        assert false;
      case Reopen(found, accepts) =>
        ReadAllKeepsShape(After(s.sys, Reconnects(found)), accepts);
        assert false;
    }
  }

  // ---------- whole runs ----------

  /** The snapshot of this task, if there is one and its dispatch is accepted, finds it asleep. */
  predicate BeatGuarded(s: Session, b: Beat, id: string)
    requires WellFormed(s.sys) && Permitted(s, b)
  {
    b.Reopen? && id in b.found && AcceptsFor(b.found, b.accepts, id) && id in s.sys.tasks ==> Sleeps(Share(s.sys, id))
  }

  /** From the `n`-th beat on, every accepted snapshot finds the task asleep or not blocked. */
  predicate GuardedSince(beats: seq<Beat>, n: nat, id: string)
    requires IsSession(beats)
    decreases |beats|
  {
    |beats| > n ==>
      && GuardedSince(beats[..|beats| - 1], n, id)
      && BeatGuarded(SessionEnd(beats[..|beats| - 1]), beats[|beats| - 1], id)
  }

  predicate SessionGuarded(beats: seq<Beat>, id: string)
    requires IsSession(beats)
  {
    GuardedSince(beats, 0, id)
  }

  /** Nobody changes what the handlers of this task look up. */
  predicate Undisturbed(beats: seq<Beat>, id: string) {
    forall b :: b in beats && b.Plain? ==> !(b.event.Configures? && b.event.id == id)
  }

  /** How a task came to be where it is: a connected run from its creation. */
  datatype Trace = Trace(cfg: Config, up: bool, accepted: bool, moves: seq<Move>) {
    function From(): Linked
      requires accepted ==> up
    {
      Start(cfg, up, accepted)
    }
  }

  ghost predicate Traced(t: Trace, l: Linked) {
    && (t.accepted ==> t.up) && LinkedRuns.RunsTo(t.From(), t.moves, l)
  }

  ghost predicate TraceGuarded(t: Trace) {
    (t.accepted ==> t.up) && IsLinkedRun(t.From(), t.moves) && Guarded(t.From(), t.moves)
  }

  lemma {:induction false} GuardedSnoc(l: Linked, moves: seq<Move>, n: Linked, mv: Move)
    requires LinkedRuns.RunsTo(l, moves, n) && Allowed(n, mv) && Guarded(l, moves)
    requires mv.Open? && mv.reported && mv.accepted ==> Sleeps(n.world)
    ensures LinkedRuns.RunsTo(l, moves + [mv], Next(n, mv)) && Guarded(l, moves + [mv])
    decreases |moves|
  {
    if moves == [] {
      assert moves + [mv] == [mv];
      LinkedRuns.One(l, mv);
    } else {
      var l' := LinkedRuns.Uncons(l, moves, n);
      GuardedSnoc(l', moves[1..], n, mv);
      LinkedRuns.Cons(l, moves[0], l', moves[1..] + [mv], Next(n, mv));
      assert [moves[0]] + (moves[1..] + [mv]) == moves + [mv];
      assert (moves + [mv])[1..] == moves[1..] + [mv];
    }
  }

  lemma RunSnoc(l: Linked, moves: seq<Move>, n: Linked, mv: Move)
    requires LinkedRuns.RunsTo(l, moves, n) && Allowed(n, mv)
    ensures LinkedRuns.RunsTo(l, moves + [mv], Next(n, mv))
  {
    LinkedRuns.One(n, mv);
    LinkedRuns.Join(l, moves, n, [mv], Next(n, mv));
  }

  /** One move more. */
  lemma TraceMoves(t: Trace, l: Linked, mv: Move) returns (t': Trace)
    requires Traced(t, l) && Allowed(l, mv)
    ensures t' == t.(moves := t.moves + [mv]) && Traced(t', Next(l, mv))
    ensures TraceGuarded(t) && (mv.Open? && mv.reported && mv.accepted ==> Sleeps(l.world)) ==> TraceGuarded(t')
  {
    t' := t.(moves := t.moves + [mv]);
    RunSnoc(t.From(), t.moves, l, mv);
    if TraceGuarded(t) && (mv.Open? && mv.reported && mv.accepted ==> Sleeps(l.world)) {
      GuardedSnoc(t.From(), t.moves, l, mv);
    }
  }

  /** What a beat is for the task is a change of its configuration, or an unguarded snapshot, only if the beat is. */
  lemma MoveForBeat(s: Session, b: Beat, id: string)
    requires WellFormed(s.sys) && id in s.sys.tasks && Permitted(s, b) && MoveFor(s, b, id).Some?
    ensures var mv := MoveFor(s, b, id).value;
            && (BeatGuarded(s, b, id) && mv.Open? && mv.reported && mv.accepted ==> Sleeps(Link(s, id).world))
            && (mv.Do? && mv.act.Reconfigure? ==> b.Plain? && b.event.Configures? && b.event.id == id)
  {
  }

  lemma SteadySnoc(moves: seq<Move>, mv: Move)
    requires Steady(moves) && !(mv.Do? && mv.act.Reconfigure?)
    ensures Steady(moves + [mv])
  {
  }

  /** One beat more. */
  lemma TraceGoesOn(s: Session, b: Beat, id: string, t: Trace) returns (t': Trace)
    requires WellFormed(s.sys) && Silent(s) && id in s.sys.tasks && Permitted(s, b) && Traced(t, Link(s, id))
    ensures WellFormed(Beaten(s, b).sys) && id in Beaten(s, b).sys.tasks && Traced(t', Link(Beaten(s, b), id))
    ensures TraceGuarded(t) && BeatGuarded(s, b, id) ==> TraceGuarded(t')
    ensures Steady(t.moves) && Undisturbed([b], id) ==> Steady(t'.moves)
  {
    BeatIsMove(s, b, id);
    t' := t;
    var mv := MoveFor(s, b, id);
    if mv.Some? {
      MoveForBeat(s, b, id);
      t' := TraceMoves(t, Link(s, id), mv.value);
      assert b in [b];
      if Steady(t.moves) && Undisturbed([b], id) {
        SteadySnoc(t.moves, mv.value);
      }
    }
  }

  lemma {:induction false} SessionSilent(beats: seq<Beat>)
    requires IsSession(beats)
    ensures Silent(SessionEnd(beats))
    decreases |beats|
  {
    if beats != [] {
      SessionSilent(beats[..|beats| - 1]);
      BeatKeepsSilent(SessionEnd(beats[..|beats| - 1]), beats[|beats| - 1]);
    }
  }

  /**
   * In every session each task has come where it is by a connected run from its creation,
   * guarded if the session is, and with the configuration it was created with if nobody
   * changed it. So everything proved of connected runs holds of every task of the system.
   */
  lemma {:induction false} SessionTraces(beats: seq<Beat>, id: string) returns (t: Trace)
    requires IsSession(beats) && id in SessionEnd(beats).sys.tasks
    ensures Traced(t, Link(SessionEnd(beats), id))
    ensures SessionGuarded(beats, id) ==> TraceGuarded(t)
    ensures Undisturbed(beats, id) ==> Steady(t.moves)
    decreases |beats|
  {
    var n := |beats| - 1;
    var before, b := beats[..n], beats[n];
    var s := SessionEnd(before);
    assert beats == before + [b];
    BeatKeepsShape(s, b);
    if id in s.sys.tasks {
      SessionSilent(before);
      var t0 := SessionTraces(before, id);
      t := TraceGoesOn(s, b, id, t0);
    } else {
      BeatCreates(s, b, id);
      t := Trace(b.event.cfg, s.up, b.event.accepted, []);
    }
  }

  /** In a guarded session every task has at most one outstanding step, and none when blocked, over or disconnected. */
  lemma SessionsHaveOneStep(beats: seq<Beat>, id: string)
    requires IsSession(beats) && id in SessionEnd(beats).sys.tasks && SessionGuarded(beats, id)
    ensures OneStep(Link(SessionEnd(beats), id))
  {
    var t := SessionTraces(beats, id);
    AtMostOneStep(t.cfg, t.up, t.accepted, t.moves);
  }

  /**
   * In every session, for every task with tests enabled whose configuration nobody changed:
   * whatever the other tasks do, losing the stream and opening another one dispatches again
   * exactly the step the task was owed, wherever it was lost.
   */
  lemma SessionsRecover(beats: seq<Beat>, id: string) returns (owed: Option<Command>)
    requires IsSession(beats) && id in SessionEnd(beats).sys.tasks && Undisturbed(beats, id)
    requires RunsTests(SessionEnd(beats).sys.cfgs[id])
    ensures var l := Link(SessionEnd(beats), id); Recovers(l, owed) && FlightTracks(l.world.flight, owed)
  {
    var t := SessionTraces(beats, id);
    SteadyCfg(t.From(), t.moves);
    ReconnectRecovers(t.cfg, t.up, t.accepted, t.moves);
    owed := OwedEnd(t.From(), t.moves, NEW_OWES);
  }

  /** The connection is lost, if there is one. */
  function Dropped(s: Session): Session
    requires WellFormed(s.sys)
  {
    if s.up then Beaten(s, Drop) else s
  }

  lemma DroppedIsLost(s: Session, id: string)
    requires WellFormed(s.sys) && Silent(s) && id in s.sys.tasks
    ensures WellFormed(Dropped(s).sys) && Silent(Dropped(s)) && id in Dropped(s).sys.tasks
    ensures Link(Dropped(s), id) == Lost(Link(s, id))
  {
    if s.up {
      BeatIsMove(s, Drop, id);
    }
  }

  /**
   * The same in beats: after the stream is lost, a reconnection that reports the task and
   * whose dispatch for it is taken leaves its row, and exactly the owed step in flight.
   */
  lemma ReopeningRecovers(beats: seq<Beat>, found: seq<string>, accepts: seq<bool>, id: string)
    returns (owed: Option<Command>)
    requires IsSession(beats) && id in SessionEnd(beats).sys.tasks && Undisturbed(beats, id)
    requires RunsTests(SessionEnd(beats).sys.cfgs[id])
    requires Permitted(Dropped(SessionEnd(beats)), Reopen(found, accepts))
    requires id in found && AcceptsFor(found, accepts, id)
    ensures FlightTracks(Share(SessionEnd(beats).sys, id).flight, owed)
    ensures WellFormed(Dropped(SessionEnd(beats)).sys)
    ensures var t, n := SessionEnd(beats).sys.tasks[id], Beaten(Dropped(SessionEnd(beats)), Reopen(found, accepts)).sys;
            && WellFormed(n) && id in n.tasks && n.tasks[id] == t
            && (if t.prs != [] && !Idle(t)
                then owed.Some? && Late(owed.value) && Share(n, id).flight == multiset{ToExecutor(owed.value)}
                else Share(n, id).flight == multiset{})
  {
    var s := SessionEnd(beats);
    SessionSilent(beats);
    owed := SessionsRecover(beats, id);
    DroppedIsLost(s, id);
    BeatIsMove(Dropped(s), Reopen(found, accepts), id);
  }

  lemma {:induction false} SteadyCfg(l: Linked, moves: seq<Move>)
    requires IsLinkedRun(l, moves) && Steady(moves)
    ensures LinkedEnd(l, moves).world.cfg == l.world.cfg
    decreases |moves|
  {
    if moves != [] {
      assert moves[0] in moves;
      assert Steady(moves[1..]) by { assert forall mv :: mv in moves[1..] ==> mv in moves; }
      SteadyCfg(Next(l, moves[0]), moves[1..]);
    }
  }
}
