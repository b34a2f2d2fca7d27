/**
 * The executor as it is written: it reads one message at a time, does the work on its
 * local workdirs and sends one reply; on a new stream it first reports every workdir
 * it still has. What the work itself finds out (git, tests, a language model) is given.
 */
module Executor {
  import opened Sequences
  import opened Pipeline
  import opened TaskRuns
  import opened System

  /** How a step went: `good` is whether tests passed or the review approved. */
  datatype Outcome = Worked(good: bool) | Broke(workdirLeft: bool)

  /** The reply the executor sends; planning always answers, with an empty plan if need be. */
  function ReplyTo(step: Command, o: Outcome): Reply {
    match step
    case AskPlan => Planned
    case DoExec => if o.Worked? then ExecDone else StepFailed(DoExec)
    case DoTest => if o.Worked? then TestDone(o.good) else StepFailed(DoTest)
    case DoReview => if o.Worked? then ReviewDone(o.good) else StepFailed(DoReview)
    case DoMerge => if o.Worked? then MergeDone else StepFailed(DoMerge)
  }

  predicate KeepsWorkdir(o: Outcome) {
    o.Worked? || o.workdirLeft
  }

  /** The answers that runs allow are the replies the executor can send, and no others. */
  lemma AnswersIff(step: Command, r: Reply)
    ensures Answers(step, r) <==> exists o :: ReplyTo(step, o) == r
  {
    if Answers(step, r) {
      var o := match r
        case TestDone(passed) => Worked(passed)
        case ReviewDone(approved) => Worked(approved)
        case StepFailed(_) => Broke(false)
        case _ => Worked(true);
      assert ReplyTo(step, o) == r;
    }
  }

  /** `r` says of the step what `o` is. */
  predicate IsTrue(step: Command, o: Outcome, r: Reply) {
    && (r.Planned? <==> step == AskPlan)
    && (r.ExecDone? <==> step == DoExec && o.Worked?)
    && (r.TestDone? <==> step == DoTest && o.Worked?)
    && (r.TestDone? ==> r.passed == o.good)
    && (r.ReviewDone? <==> step == DoReview && o.Worked?)
    && (r.ReviewDone? ==> r.approved == o.good)
    && (r.MergeDone? <==> step == DoMerge && o.Worked?)
    && (r.StepFailed? <==> step != AskPlan && o.Broke?)
    && (r.StepFailed? ==> r.step == step)
  }

  /**
   * A reply says what the work found out: a TEST or REVIEW that worked is reported with its
   * own verdict, an EXEC or MERGE as done exactly if it worked, and a step that broke as
   * that step having failed.
   */
  lemma RepliesAreTrue(step: Command, o: Outcome)
    ensures IsTrue(step, o, ReplyTo(step, o))
    ensures forall b :: ReplyTo(step, o) == TestDone(b) <==> step == DoTest && o == Worked(b)
    ensures forall b :: ReplyTo(step, o) == ReviewDone(b) <==> step == DoReview && o == Worked(b)
  {
  }

  class Machine {
    var inbound: seq<Order>
    var outbound: seq<System.Report>
    var workdirs: set<string>

    constructor (workdirs: set<string>)
      ensures inbound == [] && outbound == [] && this.workdirs == workdirs
    {
      inbound, outbound, this.workdirs := [], [], workdirs;
    }

    /** The system `s` with this machine's queues and workdirs. */
    ghost function In(s: Sys): Sys
      reads this
    {
      s.(down := inbound, up := outbound, workdirs := workdirs)
    }

    /** EXEC starts from an empty workdir; the other steps only use the one that is there. */
    method RunStep(id: string, step: Command, o: Outcome) returns (r: Reply)
      modifies this`workdirs
      ensures r == ReplyTo(step, o)
      ensures forall b :: r == TestDone(b) <==> step == DoTest && o == Worked(b)
      ensures forall b :: r == ReviewDone(b) <==> step == DoReview && o == Worked(b)
      ensures r == ExecDone || r == MergeDone <==> (step == DoExec || step == DoMerge) && o.Worked?
      ensures forall c :: r == StepFailed(c) <==> step == c && c != AskPlan && o.Broke?
      ensures workdirs == if step != DoExec then old(workdirs)
                          else if o.Worked? || o.workdirLeft then old(workdirs) + {id}
                          else old(workdirs) - {id}
    {
      match step {
        case AskPlan => return Planned;
        case DoExec =>
          workdirs := workdirs - {id};
          if KeepsWorkdir(o) {
            workdirs := workdirs + {id};
          }
          return if o.Worked? then ExecDone else StepFailed(DoExec);
        case DoTest => return if o.Worked? then TestDone(o.good) else StepFailed(DoTest);
        case DoReview => return if o.Worked? then ReviewDone(o.good) else StepFailed(DoReview);
        case DoMerge => return if o.Worked? then MergeDone else StepFailed(DoMerge);
      }
    }

    /** The body of the inbound loop: one step of the system. */
    method HandleNext(o: Outcome, ghost s: Sys)
      requires inbound != [] && WellFormed(s)
      modifies this
      ensures var e := ExecutorRuns(ReplyTo(old(inbound[0].step), o), KeepsWorkdir(o));
              Possible(old(In(s)), e) && In(s) == After(old(In(s)), e)
    {
      var m := inbound[0];
      AnswersIff(m.step, ReplyTo(m.step, o));
      inbound := inbound[1..];
      var r := RunStep(m.id, m.step, o);
      outbound := outbound + [Answer(m.id, r)];
    }

    /**
     * The inbound loop, as long as there are messages: every message gets one reply,
     * about its own task and step and true to its outcome, and replies go out in the
     * order of the messages.
     */
    method HandleAll(outcomes: nat -> Outcome)
      modifies this
      ensures inbound == []
      ensures |outbound| == |old(outbound)| + |old(inbound)| && outbound[..|old(outbound)|] == old(outbound)
      ensures forall i :: 0 <= i < |old(inbound)| ==>
                outbound[|old(outbound)| + i]
                == Answer(old(inbound)[i].id, ReplyTo(old(inbound)[i].step, outcomes(i)))
      ensures forall i :: 0 <= i < |old(inbound)| ==>
                IsTrue(old(inbound)[i].step, outcomes(i), outbound[|old(outbound)| + i].reply)
    {
      ghost var messages, before := inbound, outbound;
      var n := 0;
      while inbound != []
        invariant 0 <= n <= |messages| && inbound == messages[n..]
        invariant |outbound| == |before| + n && outbound[..|before|] == before
        invariant forall i :: 0 <= i < n ==>
                    outbound[|before| + i] == Answer(messages[i].id, ReplyTo(messages[i].step, outcomes(i)))
        decreases |inbound|
      {
        HandleNext(outcomes(n), EMPTY);
        n := n + 1;
      }
      forall i | 0 <= i < |messages| ensures IsTrue(messages[i].step, outcomes(i), outbound[|before| + i].reply) {
        RepliesAreTrue(messages[i].step, outcomes(i));
      }
    }

    /** A new stream: every local workdir is reported once, before anything is read. */
    method ReportWorkdirs(ghost s: Sys) returns (found: seq<string>)
      requires WellFormed(s)
      modifies this`outbound
      ensures forall id :: id in workdirs <==> id in found
      ensures Possible(old(In(s)), Reconnects(found)) && In(s) == After(old(In(s)), Reconnects(found))
    {
      found := [];
      var left := workdirs;
      while left != {}
        invariant left <= workdirs
        invariant forall id :: id in found <==> id in workdirs && id !in left
        invariant Distinct(found)
        invariant outbound == old(outbound) + Reports(found)
        decreases |left|
      {
        var id: string :| id in left;
        left := left - {id};
        ReportsSnoc(found, id);
        found := found + [id];
        outbound := outbound + [Workdir(id)];
      }
    }
  }

  lemma ReportsSnoc(found: seq<string>, id: string)
    ensures Reports(found + [id]) == Reports(found) + [Workdir(id)]
  {
  }
}
