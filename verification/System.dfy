/**
 * One organisation's server and executor with all their tasks, sharing one queue in
 * each direction. The executor answers the oldest command, the server handles the
 * oldest message; losing the connection empties both queues, and a new connection
 * reports every local workdir. Each step of this system is, for each task, either
 * nothing or one step of that task as `TaskRuns` describes it, so what was proved
 * task by task holds for the system.
 */
module System {
  import opened Options
  import opened Sequences
  import opened Multisets
  import opened Pipeline
  import opened TaskRuns

  datatype Order = Order(id: string, step: Command)
  datatype Report = Answer(id: string, reply: Reply) | Workdir(id: string)

  /** What is counted for a task. */
  datatype Account = Account(history: seq<Note>, dispatched: nat, reconciled: nat)

  datatype Sys = Sys(
    tasks: map<string, Task>,
    cfgs: map<string, Config>,
    accounts: map<string, Account>,
    down: seq<Order>,
    up: seq<Report>,
    workdirs: set<string>
  )

  const EMPTY := Sys(map[], map[], map[], [], [], {})

  predicate WellFormed(s: Sys) {
    s.cfgs.Keys == s.tasks.Keys && s.accounts.Keys == s.tasks.Keys
  }

  datatype Event =
    | Create(id: string, cfg: Config, accepted: bool)
    | ServerReads(accepted: bool)
    | ExecutorRuns(reply: Reply, workdirLeft: bool) // a failed EXEC may or may not leave a workdir
    | Approves(id: string, accepted: bool)
    | Rejects(id: string)
    | Configures(id: string, cfg: Config)
    | Disconnects
    | Reconnects(found: seq<string>)

  predicate Possible(s: Sys, e: Event) {
    match e
    case Create(id, _, _) =>
      && id !in s.tasks
      && (forall i :: 0 <= i < |s.down| ==> s.down[i].id != id)
      && (forall i :: 0 <= i < |s.up| ==> s.up[i].id != id)
    case ServerReads(_) => s.up != []
    case ExecutorRuns(r, _) => s.down != [] && Answers(s.down[0].step, r)
    case Approves(id, _) => id in s.tasks && s.tasks[id].Listed()
    case Rejects(id) => id in s.tasks && s.tasks[id].Listed()
    case Configures(id, _) => id in s.tasks
    case Disconnects => true
    case Reconnects(found) => Distinct(found) && forall i :: 0 <= i < |found| ==> found[i] in s.workdirs
  }

  /** What the event is for the task with this id, if anything. */
  function ActFor(s: Sys, e: Event, id: string): Option<Act>
    requires Possible(s, e)
  {
    match e
    case Create(_, _, _) => None
    case ServerReads(accepted) =>
      if s.up[0].id != id then None
      else if s.up[0].Answer? then Some(Receive(s.up[0].reply, accepted))
      else Some(Reconcile(accepted))
    case ExecutorRuns(r, _) => if s.down[0].id == id then Some(Execute(s.down[0].step, r)) else None
    case Approves(i, accepted) => if i == id then Some(Approve(accepted)) else None
    case Rejects(i) => if i == id then Some(Reject) else None
    case Configures(i, cfg) => if i == id then Some(Reconfigure(cfg)) else None
    case Disconnects => Some(LoseAll)
    case Reconnects(found) => if id in found then Some(TaskRuns.Report) else None
  }

  /** A handler's effect on the row, the account and the outgoing queue. */
  function Handle(s: Sys, id: string, e: Effect, accepted: bool, notes: seq<Note>, snapshot: bool): Sys
    requires WellFormed(s)
  {
    if id !in s.tasks then s
    else
      var a := s.accounts[id];
      s.(tasks := s.tasks[id := e.task],
         accounts := s.accounts[id := Account(
           a.history + notes,
           a.dispatched + if e.send.Some? then 1 else 0,
           a.reconciled + if snapshot then 1 else 0)],
         down := if accepted && e.send.Some? then s.down + [Order(id, e.send.value)] else s.down)
  }

  /** Answers and reports about unknown tasks are dropped. */
  function Read(s: Sys, m: Report, accepted: bool): Sys
    requires WellFormed(s)
  {
    if m.id !in s.tasks then s
    else
      var t, cfg := s.tasks[m.id], s.cfgs[m.id];
      match m
      case Answer(id, r) => Handle(s, id, OnReply(t, cfg, r), accepted, ReplyNotes(t, cfg, r), false)
      case Workdir(id) => Handle(s, id, OnSnapshot(t, cfg), accepted, SentNote(cfg, OnSnapshot(t, cfg)), true)
  }

  function Reports(found: seq<string>): (r: seq<Report>)
    ensures |r| == |found|
  {
    seq(|found|, i requires 0 <= i < |found| => Workdir(found[i]))
  }

  function After(s: Sys, e: Event): Sys
    requires WellFormed(s) && Possible(s, e)
  {
    match e
    case Create(id, cfg, accepted) =>
      s.(tasks := s.tasks[id := NEW_TASK],
         cfgs := s.cfgs[id := cfg],
         accounts := s.accounts[id := Account([], 0, 0)],
         down := if accepted then s.down + [Order(id, AskPlan)] else s.down)
    case ServerReads(accepted) => Read(s.(up := s.up[1..]), s.up[0], accepted)
    case ExecutorRuns(r, left) =>
      s.(down := s.down[1..],
         up := s.up + [Answer(s.down[0].id, r)],
         workdirs := if s.down[0].step != DoExec then s.workdirs
                     else if r.ExecDone? || left then s.workdirs + {s.down[0].id}
                     else s.workdirs - {s.down[0].id})
    case Approves(id, accepted) =>
      var cfg := s.cfgs[id];
      Handle(s, id, OnApprove(s.tasks[id], cfg), accepted,
             [HumanAnswered(true)] + if cfg.cloneUrl then [MergeSent(cfg)] else [], false)
    case Rejects(id) => Handle(s, id, OnReject(s.tasks[id]), false, [HumanAnswered(false)], false)
    case Configures(id, cfg) => s.(cfgs := s.cfgs[id := cfg])
    case Disconnects => s.(down := [], up := [])
    case Reconnects(found) => s.(up := s.up + Reports(found))
  }

  // ---------- one task's share of the system ----------

  function DownOf(q: seq<Order>, id: string): multiset<Message> {
    if q == [] then multiset{}
    else (if q[0].id == id then multiset{ToExecutor(q[0].step)} else multiset{}) + DownOf(q[1..], id)
  }

  function UpOf(q: seq<Report>, id: string): multiset<Message> {
    if q == [] then multiset{}
    else (if q[0].id == id && q[0].Answer? then multiset{ToServer(q[0].reply)} else multiset{}) + UpOf(q[1..], id)
  }

  function WorkdirsOf(q: seq<Report>, id: string): nat {
    if q == [] then 0 else (if q[0] == Workdir(id) then 1 else 0) + WorkdirsOf(q[1..], id)
  }

  function Share(s: Sys, id: string): World
    requires WellFormed(s) && id in s.tasks
  {
    var a := s.accounts[id];
    World(s.tasks[id], s.cfgs[id], DownOf(s.down, id) + UpOf(s.up, id), WorkdirsOf(s.up, id),
          a.history, a.dispatched, a.reconciled)
  }

  lemma {:induction false} DownAppend(q: seq<Order>, r: seq<Order>, id: string)
    ensures DownOf(q + r, id) == DownOf(q, id) + DownOf(r, id)
    decreases |q|
  {
    if q == [] {
      AppendEmpty(r);
    } else {
      DownAppend(q[1..], r, id);
      TailOfAppend(q, r);
    }
  }

  lemma {:induction false} UpAppend(q: seq<Report>, r: seq<Report>, id: string)
    ensures UpOf(q + r, id) == UpOf(q, id) + UpOf(r, id)
    ensures WorkdirsOf(q + r, id) == WorkdirsOf(q, id) + WorkdirsOf(r, id)
    decreases |q|
  {
    if q == [] {
      AppendEmpty(r);
    } else {
      UpAppend(q[1..], r, id);
      TailOfAppend(q, r);
    }
  }

  /** A report names a task once, as a directory does. */
  lemma {:induction false} ReportsOnce(found: seq<string>, id: string)
    requires Distinct(found)
    ensures UpOf(Reports(found), id) == multiset{}
    ensures WorkdirsOf(Reports(found), id) == if id in found then 1 else 0
    decreases |found|
  {
    if found != [] {
      var rest := found[1..];
      ReportsOnce(rest, id);
      assert Reports(found)[1..] == Reports(rest);
      if found[0] == id {
        assert forall i :: 0 <= i < |rest| ==> rest[i] == found[i + 1] != id;
      }
    }
  }

  lemma {:induction false} NotAddressed(down: seq<Order>, up: seq<Report>, id: string)
    requires forall i :: 0 <= i < |down| ==> down[i].id != id
    requires forall i :: 0 <= i < |up| ==> up[i].id != id
    ensures DownOf(down, id) == multiset{} && UpOf(up, id) == multiset{} && WorkdirsOf(up, id) == 0
    decreases |down| + |up|
  {
    if down != [] {
      NotAddressed(down[1..], up, id);
    } else if up != [] {
      NotAddressed(down, up[1..], id);
    }
  }

  predicate Follows(w: World, a: Option<Act>, w': World) {
    if a == None then w' == w else Enabled(w, a.value) && w' == Step(w, a.value)
  }

  function Outgoing(e: Effect, accepted: bool): Option<Message> {
    if accepted && e.send.Some? then Some(ToExecutor(e.send.value)) else None
  }

  /** What a handler does to the share of the task it handles. */
  function Handled(w: World, e: Effect, accepted: bool, notes: seq<Note>, snapshot: bool): World {
    World(
      e.task,
      w.cfg,
      w.flight + Bag(Outgoing(e, accepted)),
      w.reports,
      w.history + notes,
      w.dispatched + if e.send.Some? then 1 else 0,
      w.reconciled + if snapshot then 1 else 0)
  }

  lemma SentShare(down: seq<Order>, who: string, e: Effect, accepted: bool, id: string)
    ensures DownOf(if accepted && e.send.Some? then down + [Order(who, e.send.value)] else down, id)
            == DownOf(down, id) + Bag(if who == id then Outgoing(e, accepted) else None)
  {
    Nothing(DownOf(down, id));
    if accepted && e.send.Some? {
      var o := Order(who, e.send.value);
      DownAppend(down, [o], id);
      assert [o][1..] == [];
      Nothing(Bag(if who == id then Outgoing(e, accepted) else None));
    }
  }

  lemma Regroup(a: multiset<Message>, b: multiset<Message>, c: multiset<Message>)
    ensures (a + c) + b == (a + b) + c
    ensures a + multiset{} == a
  {
  }

  lemma HandleShare(s: Sys, id: string, who: string, e: Effect, accepted: bool, notes: seq<Note>, snapshot: bool)
    requires WellFormed(s) && id in s.tasks && who in s.tasks
    ensures var s' := Handle(s, who, e, accepted, notes, snapshot);
            && WellFormed(s') && s'.tasks.Keys == s.tasks.Keys
            && Share(s', id) == if who == id then Handled(Share(s, id), e, accepted, notes, snapshot) else Share(s, id)
  {
    SentShare(s.down, who, e, accepted, id);
    var sent := Bag(if who == id then Outgoing(e, accepted) else None);
    Regroup(DownOf(s.down, id), UpOf(s.up, id), sent);
    Nothing(DownOf(s.down, id) + UpOf(s.up, id));
  }

  lemma PutBack(m: Message, rest: multiset<Message>)
    ensures multiset{m} + rest - multiset{m} == rest
  {
  }

  lemma {:induction false} ReceiveShare(w: World, popped: World, r: Reply, accepted: bool)
    requires w == popped.(flight := multiset{ToServer(r)} + popped.flight)
    ensures Enabled(w, Receive(r, accepted))
    ensures Step(w, Receive(r, accepted))
            == Handled(popped, OnReply(w.task, w.cfg, r), accepted, ReplyNotes(w.task, w.cfg, r), false)
  {
    PutBack(ToServer(r), popped.flight);
    var a := Receive(r, accepted);
    assert Product(w, a) == Outgoing(EffectOf(w, a), accepted);
    assert FlightAfter(w, a) == popped.flight + Bag(Outgoing(EffectOf(w, a), accepted));
  }

  lemma ReconcileFlight(w: World, accepted: bool)
    ensures FlightAfter(w, Reconcile(accepted)) == w.flight + Bag(Outgoing(OnSnapshot(w.task, w.cfg), accepted))
  {
    Nothing(w.flight);
    assert Product(w, Reconcile(accepted)) == Outgoing(OnSnapshot(w.task, w.cfg), accepted);
  }

  lemma {:induction false} ReconcileShare(w: World, popped: World, accepted: bool)
    requires w == popped.(reports := popped.reports + 1)
    ensures Enabled(w, Reconcile(accepted))
    ensures Step(w, Reconcile(accepted))
            == Handled(popped, OnSnapshot(w.task, w.cfg), accepted, SentNote(w.cfg, OnSnapshot(w.task, w.cfg)), true)
  {
    ReconcileFlight(w, accepted);
  }

  predicate IsStep(s: Sys, s': Sys, e: Event, id: string)
    requires WellFormed(s) && id in s.tasks && Possible(s, e)
  {
    && WellFormed(s') && id in s'.tasks
    && Follows(Share(s, id), ActFor(s, e, id), Share(s', id))
  }

  lemma PoppedAnswer(s: Sys, id: string)
    requires WellFormed(s) && id in s.tasks && s.up != [] && s.up[0].Answer?
    ensures var w := Share(s.(up := s.up[1..]), id);
            Share(s, id) == if s.up[0].id == id then w.(flight := multiset{ToServer(s.up[0].reply)} + w.flight) else w
  {
    Swap(multiset{ToServer(s.up[0].reply)}, DownOf(s.down, id), UpOf(s.up[1..], id));
    Nothing(UpOf(s.up[1..], id));
  }

  lemma {:induction false} ReadAnswer(s: Sys, accepted: bool, id: string)
    requires WellFormed(s) && id in s.tasks && s.up != [] && s.up[0].Answer?
    ensures IsStep(s, After(s, ServerReads(accepted)), ServerReads(accepted), id)
  {
    var who, r := s.up[0].id, s.up[0].reply;
    var popped := s.(up := s.up[1..]);
    PoppedAnswer(s, id);
    if who in s.tasks {
      var t, cfg := s.tasks[who], s.cfgs[who];
      HandleShare(popped, id, who, OnReply(t, cfg, r), accepted, ReplyNotes(t, cfg, r), false);
    }
    if who == id {
      ReceiveShare(Share(s, id), Share(popped, id), r, accepted);
    }
  }

  lemma Swap(m: multiset<Message>, a: multiset<Message>, b: multiset<Message>)
    ensures a + (m + b) == m + (a + b)
  {
  }

  lemma PoppedWorkdir(s: Sys, id: string)
    requires WellFormed(s) && id in s.tasks && s.up != [] && s.up[0].Workdir?
    ensures var w := Share(s.(up := s.up[1..]), id);
            Share(s, id) == if s.up[0].id == id then w.(reports := w.reports + 1) else w
  {
    Nothing(UpOf(s.up[1..], id));
  }

  lemma {:induction false} ReadWorkdir(s: Sys, accepted: bool, id: string)
    requires WellFormed(s) && id in s.tasks && s.up != [] && s.up[0].Workdir?
    ensures IsStep(s, After(s, ServerReads(accepted)), ServerReads(accepted), id)
  {
    var who := s.up[0].id;
    var popped := s.(up := s.up[1..]);
    PoppedWorkdir(s, id);
    if who in s.tasks {
      var t, cfg := s.tasks[who], s.cfgs[who];
      HandleShare(popped, id, who, OnSnapshot(t, cfg), accepted, SentNote(cfg, OnSnapshot(t, cfg)), true);
    }
    if who == id {
      ReconcileShare(Share(s, id), Share(popped, id), accepted);
    }
  }

  lemma Moved(c: multiset<Message>, d: multiset<Message>, u: multiset<Message>, r: multiset<Message>)
    ensures (c + d) + u - c + r == d + (u + r)
  {
  }

  lemma ExecuteStep(w: World, c: Command, r: Reply)
    requires Enabled(w, Execute(c, r))
    ensures Step(w, Execute(c, r)) == w.(flight := w.flight - multiset{ToExecutor(c)} + multiset{ToServer(r)})
  {
    AppendEmpty(w.history);
  }

  lemma ReportStep(w: World)
    ensures Step(w, TaskRuns.Report) == w.(reports := w.reports + 1)
  {
    AppendEmpty(w.history);
    Nothing(w.flight);
  }

  lemma LoseStep(w: World)
    ensures Step(w, LoseAll) == w.(flight := multiset{}, reports := 0)
  {
    AppendEmpty(w.history);
  }

  lemma ReconfigureStep(w: World, cfg: Config)
    ensures Step(w, Reconfigure(cfg)) == w.(cfg := cfg)
  {
    AppendEmpty(w.history);
    Nothing(w.flight);
  }

  lemma ApproveFlight(w: World, accepted: bool)
    ensures FlightAfter(w, Approve(accepted)) == w.flight + Bag(Outgoing(OnApprove(w.task, w.cfg), accepted))
  {
    Nothing(w.flight);
    assert Product(w, Approve(accepted)) == Outgoing(OnApprove(w.task, w.cfg), accepted);
  }

  lemma ApproveStep(w: World, accepted: bool)
    requires w.task.Listed()
    ensures Step(w, Approve(accepted))
            == Handled(w, OnApprove(w.task, w.cfg), accepted, NotesOf(w, Approve(accepted)), false)
  {
    ApproveFlight(w, accepted);
  }

  lemma RejectStep(w: World)
    requires w.task.Listed()
    ensures Step(w, Reject) == Handled(w, OnReject(w.task), false, NotesOf(w, Reject), false)
  {
    Nothing(w.flight);
  }

  lemma Answered(r: Reply, who: string, id: string)
    ensures UpOf([Answer(who, r)], id) == if who == id then multiset{ToServer(r)} else multiset{}
    ensures WorkdirsOf([Answer(who, r)], id) == 0
  {
    assert [Answer(who, r)][1..] == [];
    Nothing(multiset{ToServer(r)});
  }

  lemma QueuesAfterExecute(s: Sys, r: Reply, left: bool, id: string)
    requires s.down != []
    ensures var o := s.down[0];
            && DownOf(s.down, id)
               == (if o.id == id then multiset{ToExecutor(o.step)} else multiset{}) + DownOf(s.down[1..], id)
            && UpOf(s.up + [Answer(o.id, r)], id)
               == UpOf(s.up, id) + (if o.id == id then multiset{ToServer(r)} else multiset{})
            && WorkdirsOf(s.up + [Answer(o.id, r)], id) == WorkdirsOf(s.up, id)
  {
    UpAppend(s.up, [Answer(s.down[0].id, r)], id);
    Answered(r, s.down[0].id, id);
  }

  lemma ExecuteShare(s: Sys, r: Reply, left: bool, id: string)
    requires WellFormed(s) && id in s.tasks && Possible(s, ExecutorRuns(r, left))
    ensures var s' := After(s, ExecutorRuns(r, left));
            var w := Share(s, id);
            var c := s.down[0].step;
            && WellFormed(s') && s'.tasks == s.tasks
            && (s.down[0].id == id ==> ToExecutor(c) in w.flight)
            && Share(s', id) == if s.down[0].id != id then w
                                else w.(flight := w.flight - multiset{ToExecutor(c)} + multiset{ToServer(r)})
  {
    var o := s.down[0];
    var d, u := DownOf(s.down[1..], id), UpOf(s.up, id);
    QueuesAfterExecute(s, r, left, id);
    if o.id == id {
      Moved(multiset{ToExecutor(o.step)}, d, u, multiset{ToServer(r)});
    } else {
      Nothing(u);
      Nothing(d);
    }
  }

  lemma ReconnectShare(s: Sys, found: seq<string>, id: string)
    requires WellFormed(s) && id in s.tasks && Possible(s, Reconnects(found))
    ensures var w := Share(s, id);
            Share(After(s, Reconnects(found)), id) == if id in found then w.(reports := w.reports + 1) else w
  {
    UpAppend(s.up, Reports(found), id);
    ReportsOnce(found, id);
    Nothing(UpOf(s.up, id));
  }

  lemma OtherCreated(s: Sys, id: string, cfg: Config, accepted: bool, other: string)
    requires WellFormed(s) && other in s.tasks && Possible(s, Create(id, cfg, accepted))
    ensures WellFormed(After(s, Create(id, cfg, accepted)))
    ensures Share(After(s, Create(id, cfg, accepted)), other) == Share(s, other)
  {
    if accepted {
      var o := Order(id, AskPlan);
      DownAppend(s.down, [o], other);
      assert [o][1..] == [] && DownOf([o], other) == multiset{};
      Nothing(DownOf(s.down, other));
    }
  }

  lemma {:induction false} ApproveShare(s: Sys, who: string, accepted: bool, id: string)
    requires WellFormed(s) && id in s.tasks && Possible(s, Approves(who, accepted))
    ensures IsStep(s, After(s, Approves(who, accepted)), Approves(who, accepted), id)
  {
    var cfg := s.cfgs[who];
    HandleShare(s, id, who, OnApprove(s.tasks[who], cfg), accepted,
                [HumanAnswered(true)] + if cfg.cloneUrl then [MergeSent(cfg)] else [], false);
    if who == id {
      ApproveStep(Share(s, id), accepted);
    }
  }

  lemma RejectShare(s: Sys, who: string, id: string)
    requires WellFormed(s) && id in s.tasks && Possible(s, Rejects(who))
    ensures IsStep(s, After(s, Rejects(who)), Rejects(who), id)
  {
    HandleShare(s, id, who, OnReject(s.tasks[who]), false, [HumanAnswered(false)], false);
    if who == id {
      RejectStep(Share(s, id));
    }
  }

  lemma ExecutorEvent(s: Sys, r: Reply, left: bool, id: string)
    requires WellFormed(s) && id in s.tasks && Possible(s, ExecutorRuns(r, left))
    ensures IsStep(s, After(s, ExecutorRuns(r, left)), ExecutorRuns(r, left), id)
  {
    ExecuteShare(s, r, left, id);
    if s.down[0].id == id { ExecuteStep(Share(s, id), s.down[0].step, r); }
  }

  lemma ReconnectEvent(s: Sys, found: seq<string>, id: string)
    requires WellFormed(s) && id in s.tasks && Possible(s, Reconnects(found))
    ensures IsStep(s, After(s, Reconnects(found)), Reconnects(found), id)
  {
    ReconnectShare(s, found, id);
    ReportStep(Share(s, id));
  }

  lemma ConfigureEvent(s: Sys, who: string, cfg: Config, id: string)
    requires WellFormed(s) && id in s.tasks && who in s.tasks
    ensures IsStep(s, After(s, Configures(who, cfg)), Configures(who, cfg), id)
  {
    ReconfigureStep(Share(s, id), cfg);
  }

  lemma DisconnectEvent(s: Sys, id: string)
    requires WellFormed(s) && id in s.tasks
    ensures IsStep(s, After(s, Disconnects), Disconnects, id)
  {
    LoseStep(Share(s, id));
  }

  /** Every event of the system is, for a task it already has, nothing or one step of that task. */
  lemma EventIsStep(s: Sys, e: Event, id: string)
    requires WellFormed(s) && id in s.tasks && Possible(s, e)
    ensures IsStep(s, After(s, e), e, id)
  {
    match e {
      case ServerReads(accepted) =>
        if s.up[0].Answer? {
          ReadAnswer(s, accepted, id);
        } else {
          ReadWorkdir(s, accepted, id);
        }
      case Approves(who, accepted) => ApproveShare(s, who, accepted, id);
      case Rejects(who) => RejectShare(s, who, id);
      case ExecutorRuns(r, left) => ExecutorEvent(s, r, left, id);
      case Reconnects(found) => ReconnectEvent(s, found, id);
      case Create(who, cfg, accepted) => OtherCreated(s, who, cfg, accepted, id);
      case Configures(who, cfg) => ConfigureEvent(s, who, cfg, id);
      case Disconnects => DisconnectEvent(s, id);
    }
  }

  /** A task enters the system as `TaskRuns` creates it. */
  lemma CreateShare(s: Sys, id: string, cfg: Config, accepted: bool)
    requires WellFormed(s) && Possible(s, Create(id, cfg, accepted))
    ensures WellFormed(After(s, Create(id, cfg, accepted)))
    ensures Share(After(s, Create(id, cfg, accepted)), id) == Created(cfg, accepted)
  {
    NotAddressed(s.down, s.up, id);
    if accepted {
      DownAppend(s.down, [Order(id, AskPlan)], id);
      assert [Order(id, AskPlan)][1..] == [];
      Nothing(multiset{ToExecutor(AskPlan)});
    }
  }

  // ---------- runs of the system ----------

  predicate IsSystemRun(s: Sys, events: seq<Event>)
    requires WellFormed(s)
    decreases |events|
  {
    events == [] ||
    (Possible(s, events[0]) && WellFormed(After(s, events[0])) && IsSystemRun(After(s, events[0]), events[1..]))
  }

  function SystemEnd(s: Sys, events: seq<Event>): Sys
    requires WellFormed(s) && IsSystemRun(s, events)
    decreases |events|
  {
    if events == [] then s else SystemEnd(After(s, events[0]), events[1..])
  }

  ghost predicate AllKept(s: Sys)
    requires WellFormed(s)
  {
    forall id :: id in s.tasks ==> exists k :: Kept(Share(s, id), k)
  }

  lemma {:induction false} ShareKeeps(s: Sys, e: Event, id: string)
    requires WellFormed(s) && AllKept(s) && Possible(s, e) && WellFormed(After(s, e)) && id in After(s, e).tasks
    ensures exists k :: Kept(Share(After(s, e), id), k)
  {
    if id in s.tasks {
      EventIsStep(s, e, id);
      var k :| Kept(Share(s, id), k);
      var a := ActFor(s, e, id);
      if a.Some? {
        StepKeeps(Share(s, id), a.value, k);
      }
    } else {
      OnlyCreationAdds(s, e, id);
      CreateShare(s, id, e.cfg, e.accepted);
      var k := FromCreation(e.cfg, e.accepted, []);
    }
  }

  lemma OnlyCreationAdds(s: Sys, e: Event, id: string)
    requires WellFormed(s) && Possible(s, e) && id !in s.tasks && id in After(s, e).tasks
    ensures e.Create? && e.id == id
  {
  }

  lemma {:induction false} SystemKeeps(s: Sys, events: seq<Event>)
    requires WellFormed(s) && AllKept(s) && IsSystemRun(s, events)
    ensures WellFormed(SystemEnd(s, events)) && AllKept(SystemEnd(s, events))
    decreases |events|
  {
    if events != [] {
      var s' := After(s, events[0]);
      forall id | id in s'.tasks ensures exists k :: Kept(Share(s', id), k) {
        ShareKeeps(s, events[0], id);
      }
      SystemKeeps(s', events[1..]);
    }
  }

  /**
   * In every run of the whole system, for every task: it is merged only through the
   * gates, it has at most one pull request, and the steps dispatched for it are
   * bounded by its snapshots.
   */
  lemma SystemIsSafe(events: seq<Event>, id: string)
    requires IsSystemRun(EMPTY, events) && id in SystemEnd(EMPTY, events).tasks
    ensures var s := SystemEnd(EMPTY, events);
            && id in s.accounts
            && (s.tasks[id].status == Merged ==>
                  Passed(s.accounts[id].history, MERGED_UNGATED) || Passed(s.accounts[id].history, MERGED_APPROVED))
            && |s.tasks[id].prs| <= 1
            && s.accounts[id].dispatched <= 4 + 3 * s.accounts[id].reconciled
  {
    SystemKeeps(EMPTY, events);
    var s := SystemEnd(EMPTY, events);
    var k :| Kept(Share(s, id), k);
  }
}
