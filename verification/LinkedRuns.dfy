/**
 * Building runs of `Connections` out of shorter ones.
 */
module LinkedRuns {
  import opened Sequences
  import opened Pipeline
  import opened TaskRuns
  import opened Connections

  /** A run from `l` to `n`. */
  predicate RunsTo(l: Linked, moves: seq<Move>, n: Linked) {
    IsLinkedRun(l, moves) && LinkedEnd(l, moves) == n
  }

  predicate Opens(moves: seq<Move>) {
    exists mv :: mv in moves && mv.Open?
  }

  lemma One(l: Linked, mv: Move)
    requires Allowed(l, mv)
    ensures RunsTo(l, [mv], Next(l, mv))
  {
    assert IsLinkedRun(Next(l, mv), []);
    assert [mv][1..] == [];
  }

  lemma Cons(l: Linked, mv: Move, l': Linked, rest: seq<Move>, n: Linked)
    requires Allowed(l, mv) && Next(l, mv) == l' && RunsTo(l', rest, n)
    ensures RunsTo(l, [mv] + rest, n)
  {
    assert ([mv] + rest)[1..] == rest;
  }

  lemma Uncons(l: Linked, moves: seq<Move>, n: Linked) returns (l': Linked)
    requires RunsTo(l, moves, n) && moves != []
    ensures Allowed(l, moves[0]) && Next(l, moves[0]) == l' && RunsTo(l', moves[1..], n)
  {
    l' := Next(l, moves[0]);
  }

  lemma {:induction false} Join(l: Linked, first: seq<Move>, m: Linked, rest: seq<Move>, n: Linked)
    requires RunsTo(l, first, m) && RunsTo(m, rest, n)
    ensures RunsTo(l, first + rest, n)
    decreases |first|
  {
    if first == [] {
      assert first + rest == rest;
    } else {
      var l' := Uncons(l, first, m);
      Join(l', first[1..], m, rest, n);
      Cons(l, first[0], l', first[1..] + rest, n);
      HeadFirst(first, rest);
    }
  }

  /** A stage of a run: the row, the configuration, what is in flight and whether the stream is open. */
  predicate At(l: Linked, t: Task, cfg: Config, flight: multiset<Message>, up: bool) {
    l.up == up && l.world.task == t && l.world.cfg == cfg && l.world.flight == flight && l.world.reports == 0
  }

  /** What is left in flight when the answer to `step` has been handled. */
  function FlightBeyond(flight: multiset<Message>, step: Command, e: Effect): multiset<Message> {
    flight - multiset{ToExecutor(step)} + if e.send.Some? then multiset{ToExecutor(e.send.value)} else multiset{}
  }

  lemma ExecuteFlight(w: World, c: Command, r: Reply)
    requires Enabled(w, Execute(c, r))
    ensures Step(w, Execute(c, r)).flight == w.flight - multiset{ToExecutor(c)} + multiset{ToServer(r)}
    ensures Step(w, Execute(c, r)).task == w.task && Step(w, Execute(c, r)).cfg == w.cfg
    ensures Step(w, Execute(c, r)).reports == w.reports
  {
  }

  lemma ReceivedFlight(w: World, r: Reply, rest: multiset<Message>)
    requires w.flight == rest + multiset{ToServer(r)}
    ensures FlightAfter(w, Receive(r, true)) == rest + Bag(Product(w, Receive(r, true)))
  {
    assert w.flight - multiset{ToServer(r)} == rest;
  }

  lemma ReceiveFlight(w: World, r: Reply, rest: multiset<Message>)
    requires w.flight == rest + multiset{ToServer(r)}
    ensures Enabled(w, Receive(r, true))
    ensures var e := OnReply(w.task, w.cfg, r);
            var w' := Step(w, Receive(r, true));
            && w'.task == e.task && w'.cfg == w.cfg && w'.reports == w.reports
            && w'.flight == rest + if e.send.Some? then multiset{ToExecutor(e.send.value)} else multiset{}
  {
    ReceivedFlight(w, r, rest);
  }

  /** The executor takes a command in flight, answers it, and the server handles the answer. */
  lemma Exchange(l: Linked, t: Task, cfg: Config, flight: multiset<Message>, c: Command, r: Reply)
    returns (moves: seq<Move>, n: Linked)
    requires At(l, t, cfg, flight, true) && ToExecutor(c) in flight && Answers(c, r)
    ensures RunsTo(l, moves, n) && !Opens(moves)
    ensures var e := OnReply(t, cfg, r); At(n, e.task, cfg, FlightBeyond(flight, c, e), true)
  {
    var run, handle := Do(Execute(c, r)), Do(Receive(r, true));
    ExecuteFlight(l.world, c, r);
    var m := Next(l, run);
    ReceiveFlight(m.world, r, flight - multiset{ToExecutor(c)});
    n := Next(m, handle);
    One(l, run);
    One(m, handle);
    Join(l, [run], m, [handle], n);
    moves := [run] + [handle];
  }

  lemma {:induction false} UnopenedIsGuarded(l: Linked, moves: seq<Move>)
    requires IsLinkedRun(l, moves) && !Opens(moves)
    ensures Guarded(l, moves)
    decreases |moves|
  {
    if moves != [] {
      assert moves[0] in moves;
      assert forall mv :: mv in moves[1..] ==> mv in moves;
      UnopenedIsGuarded(Next(l, moves[0]), moves[1..]);
    }
  }
}
