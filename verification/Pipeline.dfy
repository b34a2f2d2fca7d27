/**
 * One task of the pipeline plan -> exec -> test -> review -> merge: its row, the
 * gate columns of its pull requests, and what each of the server's handlers does
 * to them. A handler is a function from the row and the configuration in force
 * to an `Effect`: the new row and the one command it tries to push, if any.
 */
module Pipeline {
  import opened Options

  // `Canceled` is in the schema's enum and is tested by reconcile; nothing writes it.
  datatype Status = Queued | Running | Blocked | InReview | Merged | Failed | Canceled
  datatype Reason = NoReason | HumanReview | StepError | TestsFailed | AiChanges | HumanRejected
  datatype Ci = CiNone | CiPassed | CiFailed
  datatype Verdict = Unreviewed | Approved | Changes

  datatype PullRequest = PullRequest(ci: Ci, ai: Verdict, human: Verdict, merged: bool)

  /** The row of a task; `prs` lists its pull requests, oldest first. */
  datatype Task = Task(status: Status, reason: Reason, prs: seq<PullRequest>) {
    predicate Terminal() {
      status == Merged || status == Failed || status == Canceled
    }

    /** The task appears in the list of pending interventions. */
    predicate Listed() {
      status == Blocked && reason == HumanReview
    }

    function Latest(): PullRequest
      requires prs != []
    {
      prs[|prs| - 1]
    }

    function WithLatest(pr: PullRequest): Task
      requires prs != []
    {
      this.(prs := prs[|prs| - 1 := pr])
    }
  }

  /** The dedicated worker of the task's repository. */
  datatype Worker = Worker(runTests: bool, autoMerge: bool)

  /** What the handlers look up besides the row; it may change between any two of them. */
  datatype Config = Config(cloneUrl: bool, worker: Option<Worker>, requireHuman: bool, poolAutoMerge: bool)

  datatype Command = AskPlan | DoExec | DoTest | DoReview | DoMerge

  datatype Reply =
    | Planned
    | ExecDone
    | TestDone(passed: bool)
    | ReviewDone(approved: bool)
    | MergeDone
    | StepFailed(step: Command)

  datatype Effect = Effect(task: Task, send: Option<Command>)

  const NEW_TASK := Task(Queued, NoReason, [])
  const NEW_PR := PullRequest(CiNone, Unreviewed, Unreviewed, false)

  predicate RunsTests(cfg: Config) {
    cfg.worker.Some? ==> cfg.worker.value.runTests
  }

  /** A human has to approve before a merge is dispatched. */
  predicate MergeGate(cfg: Config) {
    || (cfg.worker.Some? && !cfg.worker.value.autoMerge)
    || (cfg.requireHuman && !cfg.poolAutoMerge)
  }

  /** A step is only dispatched for a task whose repository has a clone URL. */
  function Dispatch(cfg: Config, step: Command): Option<Command> {
    if cfg.cloneUrl then Some(step) else None
  }

  predicate HumanApproved(t: Task) {
    t.prs != [] && t.Latest().human == Approved
  }

  function WithCi(t: Task, passed: bool): Task {
    if t.prs == [] then t else t.WithLatest(t.Latest().(ci := if passed then CiPassed else CiFailed))
  }

  function WithAi(t: Task, approved: bool): Task {
    if t.prs == [] then t else t.WithLatest(t.Latest().(ai := if approved then Approved else Changes))
  }

  function WithHuman(t: Task, approved: bool): Task {
    if t.prs == [] then t else t.WithLatest(t.Latest().(human := if approved then Approved else Changes))
  }

  function WithMerged(t: Task): Task {
    if t.prs == [] then t else t.WithLatest(t.Latest().(merged := true))
  }

  function FailedFor(t: Task, why: Reason): Task {
    t.(status := Failed, reason := why)
  }

  function AwaitingHuman(t: Task): Task {
    t.(status := Blocked, reason := HumanReview)
  }

  /** The server handles a reply of the executor. */
  function OnReply(t: Task, cfg: Config, r: Reply): Effect {
    match r
    case Planned => Effect(t.(status := InReview), Dispatch(cfg, DoExec))
    case ExecDone =>
      Effect(t.(status := InReview, prs := t.prs + [NEW_PR]),
             Dispatch(cfg, if RunsTests(cfg) then DoTest else DoReview))
    case TestDone(passed) =>
      if passed then Effect(WithCi(t, true), Dispatch(cfg, DoReview))
      else Effect(FailedFor(WithCi(t, false), TestsFailed), None)
    case ReviewDone(approved) =>
      var t' := WithAi(t, approved);
      if !approved then Effect(FailedFor(t', AiChanges), None)
      else if MergeGate(cfg) && !HumanApproved(t') then Effect(AwaitingHuman(t'), None)
      else Effect(t', Dispatch(cfg, DoMerge))
    case MergeDone => Effect(WithMerged(t).(status := Merged), None)
    case StepFailed(_) => Effect(FailedFor(t, StepError), None)
  }

  /** The server handles the report of a local workdir (reconciliation). */
  function OnSnapshot(t: Task, cfg: Config): Effect {
    if t.Terminal() || t.prs == [] then Effect(t, None)
    else
      var pr := t.Latest();
      if pr.ci == CiNone then Effect(t, Dispatch(cfg, DoTest))
      else if pr.ci == CiPassed && pr.ai == Unreviewed then Effect(t, Dispatch(cfg, DoReview))
      else if pr.ai == Approved then
        if MergeGate(cfg) && pr.human != Approved then Effect(AwaitingHuman(t), None)
        else Effect(t, Dispatch(cfg, DoMerge))
      else Effect(t, None)
  }

  /** A person approves the intervention: the gate column is set and a merge dispatched. */
  function OnApprove(t: Task, cfg: Config): Effect {
    Effect(WithHuman(t, true).(status := Running, reason := NoReason), Dispatch(cfg, DoMerge))
  }

  /** A person rejects the intervention. */
  function OnReject(t: Task): Effect {
    Effect(FailedFor(WithHuman(t, false), HumanRejected), None)
  }

  /** The step a reply answers. */
  function StepOf(r: Reply): Command {
    match r
    case Planned => AskPlan
    case ExecDone => DoExec
    case TestDone(_) => DoTest
    case ReviewDone(_) => DoReview
    case MergeDone => DoMerge
    case StepFailed(step) => step
  }
}
