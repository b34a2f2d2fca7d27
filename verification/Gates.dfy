/**
 * What the steps of a task mean, said in the columns and settings themselves: which
 * act dispatches which step, which act blocks, fails or merges the task, what the
 * gate columns tell of the history, and what work of the executor stands behind them.
 */
module Gates {
  import opened Options
  import opened Pipeline
  import opened TaskRuns

  function Newest(t: Task): Option<PullRequest> {
    if t.prs == [] then None else Some(t.prs[|t.prs| - 1])
  }

  /** Every dispatched step has exactly these causes. */
  lemma DispatchedIff(w: World, a: Act)
    requires Enabled(w, a)
    ensures var t, cfg, send := w.task, w.cfg, EffectOf(w, a).send;
            var live := t.status != Merged && t.status != Failed && t.status != Canceled;
            var pr := Newest(t);
            var resumed := a.Reconcile? && live && pr.Some?;
            var reviewed :=
              || (a.Receive? && a.reply == ReviewDone(true))
              || (resumed && pr.value.ci != CiNone && pr.value.ai == Approved);
            var approved := pr.Some? && pr.value.human == Approved;
            var alone :=
              && (cfg.worker == None || cfg.worker.value.autoMerge)
              && (!cfg.requireHuman || cfg.poolAutoMerge);
            && send != Some(AskPlan)
            && (send == Some(DoExec) <==> cfg.cloneUrl && a.Receive? && a.reply == Planned)
            && (send == Some(DoTest) <==>
                && cfg.cloneUrl
                && (|| (a.Receive? && a.reply == ExecDone && (cfg.worker == None || cfg.worker.value.runTests))
                    || (resumed && pr.value.ci == CiNone)))
            && (send == Some(DoReview) <==>
                && cfg.cloneUrl
                && (|| (a.Receive? && a.reply == ExecDone && cfg.worker.Some? && !cfg.worker.value.runTests)
                    || (a.Receive? && a.reply == TestDone(true))
                    || (resumed && pr.value.ci == CiPassed && pr.value.ai == Unreviewed)))
            && (send == Some(DoMerge) <==>
                && cfg.cloneUrl
                && (a.Approve? || (reviewed && (approved || alone))))
  {
  }

  /** A task comes to be blocked exactly when its merge is due and the person it needs has not approved. */
  lemma BlockedIff(w: World, a: Act)
    requires Enabled(w, a) && w.task.status != Blocked
    ensures var t, t', cfg := w.task, EffectOf(w, a).task, w.cfg;
            var pr := Newest(t);
            var live := t.status != Merged && t.status != Failed && t.status != Canceled;
            var reviewed :=
              || (a.Receive? && a.reply == ReviewDone(true))
              || (a.Reconcile? && live && pr.Some? && pr.value.ci != CiNone && pr.value.ai == Approved);
            var approved := pr.Some? && pr.value.human == Approved;
            var needed :=
              || (cfg.worker.Some? && !cfg.worker.value.autoMerge)
              || (cfg.requireHuman && !cfg.poolAutoMerge);
            && (t'.status == Blocked <==> reviewed && !approved && needed)
            && (t'.status == Blocked ==> t'.reason == HumanReview)
  {
  }

  /** A task comes to any other status exactly by these acts, and fails for the matching reason. */
  lemma StatusIff(w: World, a: Act)
    requires Enabled(w, a)
    ensures var before, t := w.task.status, EffectOf(w, a).task;
            var failed :=
              a.Receive? && (a.reply == TestDone(false) || a.reply == ReviewDone(false) || a.reply.StepFailed?);
            && (before != Queued ==> t.status != Queued)
            && (before != InReview ==>
                (t.status == InReview <==> a.Receive? && (a.reply == Planned || a.reply == ExecDone)))
            && (before != Running ==> (t.status == Running <==> a.Approve?))
            && (before != Merged ==> (t.status == Merged <==> a.Receive? && a.reply == MergeDone))
            && (before != Failed ==> (t.status == Failed <==> a.Reject? || failed))
            && (before != Canceled ==> t.status != Canceled)
            && (a.Reject? ==> t.reason == HumanRejected)
            && (failed ==>
                t.reason == match a.reply case TestDone(_) => TestsFailed case ReviewDone(_) => AiChanges
                                          case _ => StepError)
  {
  }

  // ---------- the gate columns are the last reports ----------

  /** The pull request a history tells of: opened by the last exec result, marked by what came after. */
  function Told(h: seq<Note>): Option<PullRequest>
    decreases |h|
  {
    if h == [] then None
    else Retold(Told(h[..|h| - 1]), h[|h| - 1])
  }

  function Retold(pr: Option<PullRequest>, n: Note): Option<PullRequest> {
    if n == ExecReported then Some(PullRequest(CiNone, Unreviewed, Unreviewed, false))
    else if pr == None then None
    else
      match n
      case TestReported(passed) => Some(pr.value.(ci := if passed then CiPassed else CiFailed))
      case ReviewReported(approved) => Some(pr.value.(ai := if approved then Approved else Changes))
      case HumanAnswered(approved) => Some(pr.value.(human := if approved then Approved else Changes))
      case MergeReported => Some(pr.value.(merged := true))
      case _ => pr
  }

  predicate Tells(t: Task, pr: Option<PullRequest>) {
    t.prs == if pr == None then [] else [pr.value]
  }

  function RetoldAll(pr: Option<PullRequest>, notes: seq<Note>): Option<PullRequest>
    requires |notes| <= 2
  {
    if |notes| == 0 then pr
    else if |notes| == 1 then Retold(pr, notes[0])
    else Retold(Retold(pr, notes[0]), notes[1])
  }

  lemma ToldSnoc(h: seq<Note>, n: Note)
    ensures Told(h + [n]) == Retold(Told(h), n)
  {
    assert (h + [n])[..|h|] == h;
  }

  lemma ToldAppend(h: seq<Note>, notes: seq<Note>)
    requires |notes| <= 2
    ensures Told(h + notes) == RetoldAll(Told(h), notes)
  {
    if |notes| == 0 {
      assert h + notes == h;
    } else if |notes| == 1 {
      ToldSnoc(h, notes[0]);
      assert h + notes == h + [notes[0]];
    } else {
      ToldSnoc(h, notes[0]);
      ToldSnoc(h + [notes[0]], notes[1]);
      assert h + notes == h + [notes[0]] + [notes[1]];
    }
  }

  lemma ReplyTells(t: Task, cfg: Config, r: Reply, pr: Option<PullRequest>)
    requires Tells(t, pr) && (r.ExecDone? ==> t.prs == [])
    ensures Tells(OnReply(t, cfg, r).task, RetoldAll(pr, ReplyNotes(t, cfg, r)))
  {
  }

  lemma ActTells(w: World, a: Act, pr: Option<PullRequest>)
    requires Enabled(w, a) && !a.Receive? && Tells(w.task, pr)
    ensures Tells(EffectOf(w, a).task, RetoldAll(pr, NotesOf(w, a)))
  {
  }

  lemma StepTells(w: World, a: Act)
    requires Enabled(w, a) && Tells(w.task, Told(w.history))
    requires a.Receive? && a.reply.ExecDone? ==> w.task.prs == []
    ensures Tells(Step(w, a).task, Told(Step(w, a).history))
  {
    ToldAppend(w.history, NotesOf(w, a));
    if a.Receive? {
      ReplyTells(w.task, w.cfg, a.reply, Told(w.history));
    } else {
      ActTells(w, a, Told(w.history));
    }
  }

  lemma {:induction false} RunTells(w: World, acts: seq<Act>)
    requires IsRun(w, acts) && OneToken(w) && Tells(w.task, Told(w.history))
    ensures var v := End(w, acts); Tells(v.task, Told(v.history))
    decreases |acts|
  {
    if acts != [] {
      StepKeepsToken(w, acts[0]);
      StepTells(w, acts[0]);
      RunTells(Step(w, acts[0]), acts[1..]);
    }
  }

  /**
   * In every run the row's pull request is the one its history tells of: each gate column
   * holds the last report, review or answer since the exec result, and none if there was none.
   */
  lemma ColumnsAreReports(cfg: Config, accepted: bool, acts: seq<Act>)
    requires IsRun(Created(cfg, accepted), acts)
    ensures var w := End(Created(cfg, accepted), acts);
            w.task.prs == if Told(w.history) == None then [] else [Told(w.history).value]
  {
    RunTells(Created(cfg, accepted), acts);
  }

  // ---------- the work behind the reports ----------

  /** The note that stands for a reply having been handled. */
  function NoteOf(r: Reply): Option<Note> {
    match r
    case ExecDone => Some(ExecReported)
    case TestDone(passed) => Some(TestReported(passed))
    case ReviewDone(approved) => Some(ReviewReported(approved))
    case MergeDone => Some(MergeReported)
    case _ => None
  }

  lemma NoteIsReceived(w: World, a: Act, r: Reply)
    requires Enabled(w, a) && NoteOf(r).Some? && NoteOf(r).value in NotesOf(w, a)
    ensures ToServer(r) in w.flight
  {
  }

  lemma ReplyIsAnswer(w: World, a: Act, r: Reply)
    requires Enabled(w, a) && ToServer(r) in Step(w, a).flight
    ensures ToServer(r) in w.flight || a == Execute(StepOf(r), r)
  {
  }

  /** Whatever the history reports was answered by the executor, unless it was there or on its way before. */
  lemma {:induction false} ReportsAreAnswers(w: World, acts: seq<Act>, r: Reply)
    requires IsRun(w, acts) && NoteOf(r).Some? && NoteOf(r).value in End(w, acts).history
    ensures NoteOf(r).value in w.history || ToServer(r) in w.flight || Execute(StepOf(r), r) in acts
    decreases |acts|
  {
    if acts != [] {
      var w' := Step(w, acts[0]);
      ReportsAreAnswers(w', acts[1..], r);
      if NoteOf(r).value in NotesOf(w, acts[0]) { NoteIsReceived(w, acts[0], r); }
      if ToServer(r) in w'.flight { ReplyIsAnswer(w, acts[0], r); }
    }
  }

  lemma {:induction false} PassedHas(h: seq<Note>, path: seq<Milestone>, m: Milestone)
    requires Passed(h, path) && m in path
    ensures exists n :: n in h && Meets(n, m)
    decreases |h|
  {
    var n := |h| - 1;
    if Passed(h[..n], path) {
      PassedHas(h[..n], path, m);
    } else if m == path[|path| - 1] {
      assert h[n] in h;
    } else {
      PassedHas(h[..n], path[..|path| - 1], m);
    }
  }

  /** What the history of a merged task must have. */
  ghost predicate HasAll(h: seq<Note>) {
    && ExecReported in h && ReviewReported(true) in h && MergeReported in h
    && exists n :: n in h && Meets(n, Tested)
  }

  lemma MergedHas(h: seq<Note>)
    requires Passed(h, MERGED_UNGATED) || Passed(h, MERGED_APPROVED)
    ensures HasAll(h)
  {
    var path := if Passed(h, MERGED_UNGATED) then MERGED_UNGATED else MERGED_APPROVED;
    assert path[0] == Exec && path[1] == Tested && path[2] == AiApproved && path[|path| - 1] == Done;
    PassedHas(h, path, Exec);
    PassedHas(h, path, Tested);
    PassedHas(h, path, AiApproved);
    PassedHas(h, path, Done);
  }

  /** Tests were skipped while the repository had a worker that runs none. */
  ghost predicate SkippedIn(h: seq<Note>) {
    exists c: Config :: TestsSkipped(c) in h && c.worker.Some? && !c.worker.value.runTests
  }

  /** Whatever the history reports was answered by the executor in the run. */
  ghost predicate AllAnswered(acts: seq<Act>, h: seq<Note>) {
    forall r :: NoteOf(r).Some? && NoteOf(r).value in h ==> Execute(StepOf(r), r) in acts
  }

  lemma CreatedAnswersAll(cfg: Config, accepted: bool, acts: seq<Act>)
    requires IsRun(Created(cfg, accepted), acts)
    ensures AllAnswered(acts, End(Created(cfg, accepted), acts).history)
  {
    var w := Created(cfg, accepted);
    forall r | NoteOf(r).Some? && NoteOf(r).value in End(w, acts).history ensures Execute(StepOf(r), r) in acts {
      ReportsAreAnswers(w, acts, r);
    }
  }

  lemma WorkBehind(acts: seq<Act>, h: seq<Note>)
    requires AllAnswered(acts, h) && HasAll(h)
    ensures Execute(DoExec, ExecDone) in acts && Execute(DoMerge, MergeDone) in acts
    ensures Execute(DoReview, ReviewDone(true)) in acts
    ensures Execute(DoTest, TestDone(true)) in acts || SkippedIn(h)
  {
    assert NoteOf(ExecDone) == Some(ExecReported) && NoteOf(MergeDone) == Some(MergeReported);
    assert NoteOf(ReviewDone(true)) == Some(ReviewReported(true));
    var n :| n in h && Meets(n, Tested);
    if n == TestReported(true) {
      assert NoteOf(TestDone(true)) == Some(n);
    } else {
      assert TestsSkipped(n.cfg) in h;
    }
  }

  lemma MergedHistory(cfg: Config, accepted: bool, acts: seq<Act>)
    requires IsRun(Created(cfg, accepted), acts)
    requires End(Created(cfg, accepted), acts).task.status == Merged
    ensures HasAll(End(Created(cfg, accepted), acts).history)
  {
    MergedOnlyThroughTheGates(cfg, accepted, acts);
    MergedHas(End(Created(cfg, accepted), acts).history);
  }

  /**
   * Behind a merged task there is work of the executor: an EXEC it finished, a TEST that
   * passed or a skip by a worker that runs none, a REVIEW that approved, a finished MERGE.
   */
  lemma {:induction false} MergedWorkWasDone(cfg: Config, accepted: bool, acts: seq<Act>)
    requires IsRun(Created(cfg, accepted), acts)
    requires End(Created(cfg, accepted), acts).task.status == Merged
    ensures Execute(DoExec, ExecDone) in acts
    ensures Execute(DoReview, ReviewDone(true)) in acts
    ensures Execute(DoMerge, MergeDone) in acts
    ensures Execute(DoTest, TestDone(true)) in acts || SkippedIn(End(Created(cfg, accepted), acts).history)
  {
    MergedHistory(cfg, accepted, acts);
    CreatedAnswersAll(cfg, accepted, acts);
    WorkBehind(acts, End(Created(cfg, accepted), acts).history);
  }
}
