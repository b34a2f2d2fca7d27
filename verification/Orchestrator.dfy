/**
 * The server's handlers as they are written: methods that read and update rows one
 * statement at a time and push commands through the hub. Each is proved to do to
 * the task's row, and to hand to the hub, exactly what the functions of `Pipeline`
 * say, and nothing to any other task.
 */
module Orchestrator {
  import opened Options
  import opened Pipeline
  import opened Hubs

  /** The org and repository columns of a task. */
  datatype Origin = Origin(org: string, repo: Option<string>)

  datatype Envelope = Envelope(task: string, step: Command)

  /** A state of the pipeline as the reconciliation reads it: no gates without a pull request. */
  datatype PipelineState = PipelineState(status: Status, gates: Option<PullRequest>)

  datatype Decision = ApproveDecision | RejectDecision | OtherDecision

  /** The tables the pipeline touches. */
  class Db {
    var tasks: map<string, Task>
    var origins: map<string, Origin>
    var cloneUrls: set<string>                   // repositories with a clone URL
    var workers: map<(string, string), Worker>   // newest dedicated worker by org and repository
    var autoMerge: set<string>                   // orgs whose pool merges without a person

    ghost predicate Valid()
      reads this
    {
      tasks.Keys == origins.Keys
    }

    /** What the handlers of a task look up. */
    function ConfigOf(id: string, requireHuman: bool): Config
      requires id in origins
      reads this
    {
      var o := origins[id];
      Config(
        o.repo.Some? && o.repo.value in cloneUrls,
        if o.repo.Some? && (o.org, o.repo.value) in workers then Some(workers[(o.org, o.repo.value)]) else None,
        requireHuman,
        o.org in autoMerge)
    }

    method CreateRealTask(id: string, org: string, repo: Option<string>)
      requires Valid() && id !in tasks
      modifies this`tasks, this`origins
      ensures Valid()
      ensures tasks == old(tasks)[id := NEW_TASK] && origins == old(origins)[id := Origin(org, repo)]
    {
      tasks := tasks[id := NEW_TASK];
      origins := origins[id := Origin(org, repo)];
    }

    method SavePlan(id: string)
      modifies this`tasks
      ensures id in old(tasks) ==> tasks == old(tasks)[id := old(tasks)[id].(status := InReview)]
      ensures id !in old(tasks) ==> tasks == old(tasks)
    {
      if id in tasks {
        tasks := tasks[id := tasks[id].(status := InReview)];
      }
    }

    method SaveExecResult(id: string)
      modifies this`tasks
      ensures id in old(tasks) ==>
                tasks == old(tasks)[id := old(tasks)[id].(status := InReview, prs := old(tasks)[id].prs + [NEW_PR])]
      ensures id !in old(tasks) ==> tasks == old(tasks)
    {
      if id !in tasks {
        return;
      }
      tasks := tasks[id := tasks[id].(prs := tasks[id].prs + [NEW_PR])];
      tasks := tasks[id := tasks[id].(status := InReview)];
    }

    method FailTask(id: string, why: Reason)
      modifies this`tasks
      ensures id in old(tasks) ==> tasks == old(tasks)[id := FailedFor(old(tasks)[id], why)]
      ensures id !in old(tasks) ==> tasks == old(tasks)
    {
      if id in tasks {
        tasks := tasks[id := tasks[id].(status := Failed, reason := why)];
      }
    }

    method SetTaskBlocked(id: string)
      modifies this`tasks
      ensures id in old(tasks) ==> tasks == old(tasks)[id := AwaitingHuman(old(tasks)[id])]
      ensures id !in old(tasks) ==> tasks == old(tasks)
    {
      if id in tasks {
        tasks := tasks[id := tasks[id].(status := Blocked, reason := HumanReview)];
      }
    }

    /** UPDATE pull_request ... WHERE id = the task's latest one. */
    method UpdateLatest(id: string, pr: PullRequest)
      requires id in tasks && tasks[id].prs != []
      modifies this`tasks
      ensures tasks == old(tasks)[id := old(tasks)[id].WithLatest(pr)]
    {
      var t := tasks[id];
      tasks := tasks[id := t.(prs := t.prs[|t.prs| - 1 := pr])];
    }

    method SetCIResult(id: string, passed: bool)
      modifies this`tasks
      ensures id in old(tasks) ==> tasks == old(tasks)[id := WithCi(old(tasks)[id], passed)]
      ensures id !in old(tasks) ==> tasks == old(tasks)
    {
      if id in tasks && tasks[id].prs != [] {
        UpdateLatest(id, tasks[id].Latest().(ci := if passed then CiPassed else CiFailed));
      } else {
        assert id in tasks ==> tasks[id := tasks[id]] == tasks;
      }
    }

    method SetAIReview(id: string, approved: bool)
      modifies this`tasks
      ensures id in old(tasks) ==> tasks == old(tasks)[id := WithAi(old(tasks)[id], approved)]
      ensures id !in old(tasks) ==> tasks == old(tasks)
    {
      if id in tasks && tasks[id].prs != [] {
        UpdateLatest(id, tasks[id].Latest().(ai := if approved then Approved else Changes));
      } else {
        assert id in tasks ==> tasks[id := tasks[id]] == tasks;
      }
    }

    method IsHumanApproved(id: string) returns (ok: bool)
      ensures ok == (id in tasks && HumanApproved(tasks[id]))
    {
      if id in tasks && tasks[id].prs != [] {
        return tasks[id].Latest().human == Approved;
      }
      return false;
    }

    method MarkMerged(id: string)
      modifies this`tasks
      ensures id in old(tasks) ==> tasks == old(tasks)[id := WithMerged(old(tasks)[id]).(status := Merged)]
      ensures id !in old(tasks) ==> tasks == old(tasks)
    {
      if id in tasks && tasks[id].prs != [] {
        UpdateLatest(id, tasks[id].Latest().(merged := true));
      }
      if id in tasks {
        tasks := tasks[id := tasks[id].(status := Merged)];
      }
    }

    method ApproveHumanReview(id: string)
      modifies this`tasks
      ensures id in old(tasks) ==>
                tasks == old(tasks)[id := WithHuman(old(tasks)[id], true).(status := Running, reason := NoReason)]
      ensures id !in old(tasks) ==> tasks == old(tasks)
    {
      if id in tasks && tasks[id].prs != [] {
        UpdateLatest(id, tasks[id].Latest().(human := Approved));
      }
      if id in tasks {
        tasks := tasks[id := tasks[id].(status := Running, reason := NoReason)];
      }
    }

    method RejectHumanReview(id: string)
      modifies this`tasks
      ensures id in old(tasks) ==>
                tasks == old(tasks)[id := FailedFor(WithHuman(old(tasks)[id], false), HumanRejected)]
      ensures id !in old(tasks) ==> tasks == old(tasks)
    {
      if id in tasks && tasks[id].prs != [] {
        UpdateLatest(id, tasks[id].Latest().(human := Changes));
      }
      if id in tasks {
        tasks := tasks[id := tasks[id].(status := Failed, reason := HumanRejected)];
      }
    }

    method GetTaskPipelineState(id: string) returns (ps: Option<PipelineState>)
      ensures ps.Some? <==> id in tasks
      ensures ps.Some? ==>
                && ps.value.status == tasks[id].status
                && ps.value.gates == if tasks[id].prs == [] then None else Some(tasks[id].Latest())
    {
      if id !in tasks {
        return None;
      }
      var t := tasks[id];
      return Some(PipelineState(t.status, if t.prs == [] then None else Some(t.Latest())));
    }
  }

  /** The hub after a handler has tried to push `send` for the task. */
  function Handed(hub: State<Envelope>, org: string, id: string, send: Option<Command>): State<Envelope> {
    if send.Some? then Sent(hub, org, Envelope(id, send.value)) else hub
  }

  class Server {
    const db: Db
    const hub: Hub<Envelope>
    const requireHuman: bool

    constructor (db: Db, hub: Hub<Envelope>, requireHuman: bool)
      ensures this.db == db && this.hub == hub && this.requireHuman == requireHuman
    {
      this.db := db;
      this.hub := hub;
      this.requireHuman := requireHuman;
    }

    ghost predicate Ready()
      reads db, hub
    {
      db.Valid() && Hubs.Valid(hub.View())
    }

    /** The tables and the hub are what `e` makes of the task and the hub before. */
    twostate predicate Did(id: string, e: Effect)
      reads db, hub
    {
      && id in old(db.origins)
      && db.tasks == old(db.tasks)[id := e.task]
      && hub.View() == Handed(old(hub.View()), old(db.origins)[id].org, id, e.send)
    }

    twostate predicate DidNothing()
      reads db, hub
    {
      db.tasks == old(db.tasks) && hub.View() == old(hub.View())
    }

    method DispatchStep(id: string, step: Command)
      requires Ready()
      modifies hub`channels
      ensures Ready()
      ensures id in db.tasks ==>
                hub.View()
                == Handed(old(hub.View()), db.origins[id].org, id, Dispatch(db.ConfigOf(id, requireHuman), step))
      ensures id in db.tasks ==>
                var o := db.origins[id];
                hub.View() == if o.repo.Some? && o.repo.value in db.cloneUrls
                              then Sent(old(hub.View()), o.org, Envelope(id, step)) else old(hub.View())
      ensures id !in db.tasks ==> hub.View() == old(hub.View())
    {
      if id !in db.tasks {
        return;
      }
      var o := db.origins[id];
      if o.repo == None || o.repo.value !in db.cloneUrls {
        return;
      }
      var _ := hub.Push(o.org, Envelope(id, step)); // the result is not looked at
    }

    /** For a task that does not exist the answer is immaterial: no row is left to block or to merge. */
    method NeedsHuman(id: string) returns (gate: bool)
      requires db.Valid()
      ensures id in db.tasks ==> gate == MergeGate(db.ConfigOf(id, requireHuman))
      ensures id in db.tasks ==>
                var o := db.origins[id];
                var forbids := o.repo.Some? && (o.org, o.repo.value) in db.workers
                               && !db.workers[(o.org, o.repo.value)].autoMerge;
                gate == (forbids || (requireHuman && o.org !in db.autoMerge))
    {
      if id !in db.tasks {
        return requireHuman;
      }
      var o := db.origins[id];
      if o.repo.Some? && (o.org, o.repo.value) in db.workers && !db.workers[(o.org, o.repo.value)].autoMerge {
        return true;
      }
      if !requireHuman {
        return false;
      }
      return o.org !in db.autoMerge;
    }

    method AfterExec(id: string)
      requires Ready()
      modifies db`tasks, hub`channels
      ensures Ready()
      ensures id in old(db.tasks) ==> Did(id, OnReply(old(db.tasks[id]), old(db.ConfigOf(id, requireHuman)), ExecDone))
      ensures id in old(db.tasks) ==>
                var o := db.origins[id];
                o.repo.Some? && o.repo.value in db.cloneUrls ==>
                  var untested := (o.org, o.repo.value) in db.workers && !db.workers[(o.org, o.repo.value)].runTests;
                  hub.View() == Sent(old(hub.View()), o.org, Envelope(id, if untested then DoReview else DoTest))
      ensures id !in old(db.tasks) ==> DidNothing()
    {
      db.SaveExecResult(id);
      if id in db.tasks {
        var o := db.origins[id];
        if o.repo.Some? && (o.org, o.repo.value) in db.workers && !db.workers[(o.org, o.repo.value)].runTests {
          DispatchStep(id, DoReview);
          return;
        }
      }
      DispatchStep(id, DoTest);
    }

    method AfterTest(id: string, passed: bool)
      requires Ready()
      modifies db`tasks, hub`channels
      ensures Ready()
      ensures id in old(db.tasks) ==>
                Did(id, OnReply(old(db.tasks[id]), old(db.ConfigOf(id, requireHuman)), TestDone(passed)))
      ensures id !in old(db.tasks) ==> DidNothing()
    {
      db.SetCIResult(id, passed);
      if passed {
        DispatchStep(id, DoReview);
      } else {
        db.FailTask(id, TestsFailed);
      }
    }

    /** The merge gate; a task it stops is blocked on a person. */
    method PassesGate(id: string) returns (ok: bool)
      requires db.Valid()
      modifies db`tasks
      ensures id in old(db.tasks) ==>
                && ok == !(MergeGate(old(db.ConfigOf(id, requireHuman))) && !HumanApproved(old(db.tasks[id])))
                && db.tasks == if ok then old(db.tasks) else old(db.tasks)[id := AwaitingHuman(old(db.tasks[id]))]
      ensures id !in old(db.tasks) ==> db.tasks == old(db.tasks)
    {
      var gate := NeedsHuman(id);
      if gate {
        var approved := db.IsHumanApproved(id);
        if !approved {
          db.SetTaskBlocked(id);
          return false;
        }
      }
      return true;
    }

    method AfterReview(id: string, approved: bool)
      requires Ready()
      modifies db`tasks, hub`channels
      ensures Ready()
      ensures id in old(db.tasks) ==>
                Did(id, OnReply(old(db.tasks[id]), old(db.ConfigOf(id, requireHuman)), ReviewDone(approved)))
      ensures id !in old(db.tasks) ==> DidNothing()
    {
      db.SetAIReview(id, approved);
      if !approved {
        db.FailTask(id, AiChanges);
        return;
      }
      var ok := PassesGate(id);
      if ok {
        DispatchStep(id, DoMerge);
      }
    }

    /** A step reported its result; the next one follows from the gates. */
    method AdvancePipeline(id: string, r: Reply)
      requires Ready() && !r.Planned? && !r.StepFailed?
      modifies db`tasks, hub`channels
      ensures Ready()
      ensures id in old(db.tasks) ==> Did(id, OnReply(old(db.tasks[id]), old(db.ConfigOf(id, requireHuman)), r))
      ensures id !in old(db.tasks) ==> DidNothing()
    {
      match r {
        case ExecDone => AfterExec(id);
        case TestDone(passed) => AfterTest(id, passed);
        case ReviewDone(approved) => AfterReview(id, approved);
        case MergeDone => db.MarkMerged(id);
      }
    }

    method HandleStepFailed(id: string, step: Command)
      requires Ready()
      modifies db`tasks
      ensures Ready()
      ensures id in old(db.tasks) ==>
                Did(id, OnReply(old(db.tasks[id]), old(db.ConfigOf(id, requireHuman)), StepFailed(step)))
      ensures id !in old(db.tasks) ==> DidNothing()
    {
      db.FailTask(id, StepError);
    }

    /** EXEC is not sent through the hub but on the stream that brought the plan: it is returned. */
    method HandlePlanResult(id: string) returns (own: Option<Envelope>)
      requires Ready()
      modifies db`tasks
      ensures Ready() && hub.View() == old(hub.View())
      ensures id in old(db.tasks) ==>
                var e := OnReply(old(db.tasks[id]), old(db.ConfigOf(id, requireHuman)), Planned);
                && db.tasks == old(db.tasks)[id := e.task]
                && own == if e.send.Some? then Some(Envelope(id, e.send.value)) else None
      ensures id !in old(db.tasks) ==> DidNothing() && own == None
    {
      db.SavePlan(id);
      if id !in db.tasks {
        return None;
      }
      var o := db.origins[id];
      if o.repo.Some? && o.repo.value in db.cloneUrls {
        return Some(Envelope(id, DoExec));
      }
      return None;
    }

    /** The executor reported a workdir of the task: retake the step its row is waiting for. */
    method ReconcileTask(id: string)
      requires Ready()
      modifies db`tasks, hub`channels
      ensures Ready()
      ensures id in old(db.tasks) ==> Did(id, OnSnapshot(old(db.tasks[id]), old(db.ConfigOf(id, requireHuman))))
      ensures id !in old(db.tasks) ==> DidNothing()
    {
      var ps := db.GetTaskPipelineState(id);
      if ps == None {
        return;
      }
      assert db.tasks[id := db.tasks[id]] == db.tasks;
      var status := ps.value.status;
      if status == Merged || status == Failed || status == Canceled {
        return;
      }
      if ps.value.gates == None {
        return;
      }
      var pr := ps.value.gates.value;
      if pr.ci == CiNone {
        DispatchStep(id, DoTest);
      } else if pr.ci == CiPassed && pr.ai == Unreviewed {
        DispatchStep(id, DoReview);
      } else if pr.ai == Approved {
        var gate := NeedsHuman(id);
        if gate && pr.human != Approved {
          db.SetTaskBlocked(id);
          return;
        }
        DispatchStep(id, DoMerge);
      }
    }

    // ---------- REST side ----------

    /** A new task and its plan request; the task exists even if no executor is connected. */
    method CreateAndPlan(id: string, org: string, repo: Option<string>) returns (dispatched: bool)
      requires Ready() && id !in db.tasks
      modifies db`tasks, db`origins, hub`channels
      ensures Ready()
      ensures db.tasks == old(db.tasks)[id := NEW_TASK] && db.origins == old(db.origins)[id := Origin(org, repo)]
      ensures dispatched == Takes(old(hub.View()), org)
      ensures hub.View() == Sent(old(hub.View()), org, Envelope(id, AskPlan))
    {
      db.CreateRealTask(id, org, repo);
      dispatched := hub.Push(org, Envelope(id, AskPlan));
    }

    /** The answer to an intervention; nothing checks that the task is waiting for one. */
    method InterventionAnswer(id: string, decision: Decision)
      requires Ready()
      modifies db`tasks, hub`channels
      ensures Ready()
      ensures decision == ApproveDecision && id in old(db.tasks) ==>
                Did(id, OnApprove(old(db.tasks[id]), old(db.ConfigOf(id, requireHuman))))
      ensures decision == RejectDecision && id in old(db.tasks) ==> Did(id, OnReject(old(db.tasks[id])))
      ensures decision == OtherDecision || id !in old(db.tasks) ==> DidNothing()
    {
      match decision {
        case ApproveDecision =>
          db.ApproveHumanReview(id);
          DispatchStep(id, DoMerge); // dispatchMerge
        case RejectDecision =>
          db.RejectHumanReview(id);
        case OtherDecision =>
      }
    }
  }
}
