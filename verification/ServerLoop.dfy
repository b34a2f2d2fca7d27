/**
 * The server's receive loop and REST calls, seen from one organisation: handling the
 * oldest message, creating a task or answering an intervention is one event of `System`,
 * with the buffer of the organisation's channel as the queue of commands.
 */
module ServerLoop {
  import opened Options
  import opened Sequences
  import opened Pipeline
  import opened TaskRuns
  import opened System
  import Hubs
  import Orchestrator

  type Wire = Hubs.State<Orchestrator.Envelope>

  function OrdersOf(buffer: seq<Orchestrator.Envelope>): (q: seq<Order>)
    ensures |q| == |buffer|
    ensures forall i :: 0 <= i < |q| ==> q[i] == Order(buffer[i].task, buffer[i].step)
  {
    seq(|buffer|, i requires 0 <= i < |buffer| => Order(buffer[i].task, buffer[i].step))
  }

  /** The commands that wait in the organisation's channel. */
  function Waiting(hub: Wire, org: string): seq<Order> {
    if org in hub.byOrg && hub.byOrg[org] in hub.channels then OrdersOf(hub.channels[hub.byOrg[org]].buffer) else []
  }

  lemma SentWaits(hub: Wire, org: string, e: Orchestrator.Envelope)
    ensures Waiting(Hubs.Sent(hub, org, e), org)
            == Waiting(hub, org) + if Hubs.Takes(hub, org) then [Order(e.task, e.step)] else []
  {
    if Hubs.Takes(hub, org) {
      var c := hub.channels[hub.byOrg[org]];
      assert OrdersOf(c.buffer + [e]) == OrdersOf(c.buffer) + [Order(e.task, e.step)];
    } else {
      AppendEmpty(Waiting(hub, org));
    }
  }

  lemma HandedWaits(hub: Wire, org: string, id: string, send: Option<Command>)
    ensures Waiting(Orchestrator.Handed(hub, org, id, send), org)
            == if Hubs.Takes(hub, org) && send.Some? then Waiting(hub, org) + [Order(id, send.value)]
               else Waiting(hub, org)
  {
    if send.Some? {
      SentWaits(hub, org, Orchestrator.Envelope(id, send.value));
      AppendEmpty(Waiting(hub, org));
    }
  }

  // ---------- one organisation's part of the tables ----------

  predicate Belongs(origins: map<string, Orchestrator.Origin>, id: string, org: string) {
    id in origins && origins[id].org == org
  }

  function OwnTasks(tasks: map<string, Task>, origins: map<string, Orchestrator.Origin>, org: string)
    : map<string, Task>
  {
    map id | id in tasks && Belongs(origins, id, org) :: tasks[id]
  }

  /** What the handlers look up besides the task tables. */
  datatype Settings = Settings(
    cloneUrls: set<string>, workers: map<(string, string), Worker>, autoMerge: set<string>, requireHuman: bool)

  ghost function SettingsOf(server: Orchestrator.Server): Settings
    reads server.db
  {
    Settings(server.db.cloneUrls, server.db.workers, server.db.autoMerge, server.requireHuman)
  }

  function CfgOf(o: Orchestrator.Origin, s: Settings): Config {
    Config(
      o.repo.Some? && o.repo.value in s.cloneUrls,
      if o.repo.Some? && (o.org, o.repo.value) in s.workers then Some(s.workers[(o.org, o.repo.value)]) else None,
      s.requireHuman,
      o.org in s.autoMerge)
  }

  function OwnCfgs(origins: map<string, Orchestrator.Origin>, s: Settings, org: string): map<string, Config> {
    map id | id in origins && origins[id].org == org :: CfgOf(origins[id], s)
  }

  /** The system of an organisation; what is counted, on its way up or on the executor's disk is given. */
  ghost function Seen(
    server: Orchestrator.Server, org: string,
    accounts: map<string, Account>, up: seq<System.Report>, workdirs: set<string>): Sys
    reads server.db, server.hub
  {
    Sys(OwnTasks(server.db.tasks, server.db.origins, org), OwnCfgs(server.db.origins, SettingsOf(server), org),
        accounts, Waiting(server.hub.View(), org), up, workdirs)
  }

  lemma OwnCreated(
    tasks: map<string, Task>, origins: map<string, Orchestrator.Origin>, s: Settings,
    org: string, id: string, o: Orchestrator.Origin)
    requires id !in tasks && o.org == org && tasks.Keys == origins.Keys
    ensures OwnTasks(tasks[id := NEW_TASK], origins[id := o], org) == OwnTasks(tasks, origins, org)[id := NEW_TASK]
    ensures OwnCfgs(origins[id := o], s, org) == OwnCfgs(origins, s, org)[id := CfgOf(o, s)]
  {
  }

  lemma OwnUpdate(tasks: map<string, Task>, origins: map<string, Orchestrator.Origin>, org: string, id: string, t: Task)
    requires id in tasks && Belongs(origins, id, org)
    ensures OwnTasks(tasks[id := t], origins, org) == OwnTasks(tasks, origins, org)[id := t]
  {
  }

  /** `after` is what `e` and the hub make of `before`, the accounts aside. */
  predicate Became(before: Sys, id: string, e: Effect, accepted: bool, after: Sys) {
    && after.tasks == before.tasks[id := e.task] && after.cfgs == before.cfgs
    && after.down == (if accepted && e.send.Some? then before.down + [Order(id, e.send.value)] else before.down)
    && after.up == before.up && after.workdirs == before.workdirs
  }

  function EffectOn(t: Task, cfg: Config, m: System.Report): Effect {
    if m.Answer? then OnReply(t, cfg, m.reply) else OnSnapshot(t, cfg)
  }

  lemma MessageRead(before: Sys, m: System.Report, rest: seq<System.Report>, accepted: bool, after: Sys)
    requires WellFormed(before) && before.up == [m] + rest
    requires if m.id in before.tasks
             then Became(before.(up := rest), m.id, EffectOn(before.tasks[m.id], before.cfgs[m.id], m), accepted, after)
             else after == before.(up := rest)
    ensures WasRead(before, accepted, after)
  {
    assert ([m] + rest)[1..] == rest;
  }

  /** Up to the accounts, `after` is what reading the oldest message makes of `before`. */
  predicate WasRead(before: Sys, accepted: bool, after: Sys) {
    && WellFormed(before) && before.up != []
    && var r := After(before, ServerReads(accepted)); after.(accounts := r.accounts) == r
  }

  lemma InterventionAnswered(before: Sys, id: string, approve: bool, accepted: bool, after: Sys)
    requires WellFormed(before) && id in before.tasks && before.tasks[id].Listed()
    requires var t, cfg := before.tasks[id], before.cfgs[id];
             Became(before, id, AnswerEffect(t, cfg, approve), accepted, after)
    ensures Answered(before, id, approve, accepted, after)
  {
  }

  /** Up to the accounts, `after` is what the answer's event makes of `before`. */
  predicate Answered(before: Sys, id: string, approve: bool, accepted: bool, after: Sys) {
    && WellFormed(before) && id in before.tasks && before.tasks[id].Listed()
    && var r := After(before, if approve then Approves(id, accepted) else Rejects(id));
       after.(accounts := r.accounts) == r
  }

  lemma TaskCreated(before: Sys, id: string, cfg: Config, accepted: bool, after: Sys)
    requires WellFormed(before) && Possible(before, Create(id, cfg, accepted))
    requires after.tasks == before.tasks[id := NEW_TASK] && after.cfgs == before.cfgs[id := cfg]
    requires after.down == before.down + if accepted then [Order(id, AskPlan)] else []
    requires after.up == before.up && after.workdirs == before.workdirs
    ensures WasCreated(before, id, cfg, accepted, after)
  {
    AppendEmpty(before.down);
  }

  /** Up to the accounts, `after` is what the creation makes of `before`. */
  predicate WasCreated(before: Sys, id: string, cfg: Config, accepted: bool, after: Sys) {
    && WellFormed(before) && Possible(before, Create(id, cfg, accepted))
    && var r := After(before, Create(id, cfg, accepted)); after.(accounts := r.accounts) == r
  }

  // ---------- the receive loop ----------

  method Dispatch(server: Orchestrator.Server, org: string, m: System.Report)
    requires server.Ready() && (m.id in server.db.tasks ==> Belongs(server.db.origins, m.id, org))
    modifies server.db`tasks, server.hub`channels
    ensures server.Ready()
    ensures m.id !in old(server.db.tasks) ==>
              server.db.tasks == old(server.db.tasks) && server.hub.View() == old(server.hub.View())
    ensures m.id in old(server.db.tasks) ==>
              var e := EffectOn(old(server.db.tasks[m.id]), old(server.db.ConfigOf(m.id, server.requireHuman)), m);
              && server.db.tasks == old(server.db.tasks)[m.id := e.task]
              && server.hub.View() == Orchestrator.Handed(old(server.hub.View()), org, m.id, e.send)
  {
    match m {
      case Workdir(id) => server.ReconcileTask(id);
      case Answer(id, Planned) =>
        var own := server.HandlePlanResult(id);
        if own.Some? {
          var _ := server.hub.Push(org, own.value); // the stream's own channel
        }
      case Answer(id, StepFailed(step)) => server.HandleStepFailed(id, step);
      case Answer(id, r) => server.AdvancePipeline(id, r);
    }
  }

  /**
   * Handling the oldest message is one `ServerReads` of the organisation's system; the
   * accounts, which the program does not keep, are those after it.
   */
  method HandleNext(
    server: Orchestrator.Server, org: string, m: System.Report,
    ghost accounts: map<string, Account>, ghost rest: seq<System.Report>, ghost workdirs: set<string>)
    requires server.Ready() && (m.id in server.db.tasks ==> Belongs(server.db.origins, m.id, org))
    requires WellFormed(Seen(server, org, accounts, [m] + rest, workdirs))
    modifies server.db`tasks, server.hub`channels
    ensures server.Ready()
    ensures WasRead(old(Seen(server, org, accounts, [m] + rest, workdirs)),
                    Hubs.Takes(old(server.hub.View()), org), Seen(server, org, accounts, rest, workdirs))
  {
    ghost var tasks, hub := server.db.tasks, server.hub.View();
    ghost var before := Seen(server, org, accounts, [m] + rest, workdirs);
    Dispatch(server, org, m);
    if m.id in tasks {
      ghost var e := EffectOn(tasks[m.id], before.cfgs[m.id], m);
      OwnUpdate(tasks, server.db.origins, org, m.id, e.task);
      HandedWaits(hub, org, m.id, e.send);
    }
    MessageRead(before, m, rest, Hubs.Takes(hub, org), Seen(server, org, accounts, rest, workdirs));
  }

  // ---------- REST calls ----------

  /** A new task is one `Create`. */
  method CreateTask(
    server: Orchestrator.Server, id: string, org: string, repo: Option<string>,
    ghost accounts: map<string, Account>, ghost up: seq<System.Report>, ghost workdirs: set<string>)
    requires server.Ready() && id !in server.db.tasks
    requires WellFormed(Seen(server, org, accounts, up, workdirs))
    requires forall i :: 0 <= i < |Waiting(server.hub.View(), org)| ==> Waiting(server.hub.View(), org)[i].id != id
    requires forall i :: 0 <= i < |up| ==> up[i].id != id
    modifies server.db`tasks, server.db`origins, server.hub`channels
    ensures server.Ready() && id in server.db.origins
    ensures WasCreated(old(Seen(server, org, accounts, up, workdirs)), id, server.db.ConfigOf(id, server.requireHuman),
                       Hubs.Takes(old(server.hub.View()), org), Seen(server, org, accounts, up, workdirs))
  {
    ghost var tasks, origins, hub := server.db.tasks, server.db.origins, server.hub.View();
    ghost var before := Seen(server, org, accounts, up, workdirs);
    var _ := server.CreateAndPlan(id, org, repo);
    OwnCreated(tasks, origins, SettingsOf(server), org, id, Orchestrator.Origin(org, repo));
    SentWaits(hub, org, Orchestrator.Envelope(id, AskPlan));
    TaskCreated(before, id, server.db.ConfigOf(id, server.requireHuman), Hubs.Takes(hub, org),
                Seen(server, org, accounts, up, workdirs));
  }

  function AnswerEffect(t: Task, cfg: Config, approve: bool): Effect {
    if approve then OnApprove(t, cfg) else OnReject(t)
  }

  method Decide(server: Orchestrator.Server, id: string, org: string, approve: bool)
    requires server.Ready() && id in server.db.tasks && Belongs(server.db.origins, id, org)
    modifies server.db`tasks, server.hub`channels
    ensures server.Ready()
    ensures var e := AnswerEffect(old(server.db.tasks[id]), old(server.db.ConfigOf(id, server.requireHuman)), approve);
            && server.db.tasks == old(server.db.tasks)[id := e.task]
            && server.hub.View() == Orchestrator.Handed(old(server.hub.View()), org, id, e.send)
  {
    server.InterventionAnswer(id, if approve then Orchestrator.ApproveDecision else Orchestrator.RejectDecision);
  }

  /** The answer to a listed intervention is one `Approves` or `Rejects`. */
  method AnswerIntervention(
    server: Orchestrator.Server, id: string, org: string, approve: bool,
    ghost accounts: map<string, Account>, ghost up: seq<System.Report>, ghost workdirs: set<string>)
    requires server.Ready() && id in server.db.tasks && Belongs(server.db.origins, id, org)
    requires server.db.tasks[id].Listed() && WellFormed(Seen(server, org, accounts, up, workdirs))
    modifies server.db`tasks, server.hub`channels
    ensures server.Ready()
    ensures Answered(old(Seen(server, org, accounts, up, workdirs)), id, approve,
                     Hubs.Takes(old(server.hub.View()), org), Seen(server, org, accounts, up, workdirs))
  {
    ghost var tasks, hub := server.db.tasks, server.hub.View();
    ghost var before := Seen(server, org, accounts, up, workdirs);
    ghost var e := AnswerEffect(tasks[id], before.cfgs[id], approve);
    Decide(server, id, org, approve);
    OwnUpdate(tasks, server.db.origins, org, id, e.task);
    HandedWaits(hub, org, id, e.send);
    InterventionAnswered(before, id, approve, Hubs.Takes(hub, org), Seen(server, org, accounts, up, workdirs));
  }
}
