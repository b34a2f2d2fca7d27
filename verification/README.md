# Apifor: a verified model of the orchestration core

Apifor runs coding tasks for organisations. A server (cérebro) keeps the rows and decides
which step comes next; an executor on the customer's machine does the work on local
workdirs and answers; both talk over one stream for each organisation. This project models
the parts where the server's decisions span several handlers, and proves what they keep.

`dafny verify dfyconfig.toml` checks everything.

## The pipeline

`Pipeline` says what each handler does to one task's row and which step it dispatches next:
plan, exec, test, review, merge. `Orchestrator` is the same as the source writes it, with
methods that update rows one statement at a time and push through the hub; `Executor` is
the message loop at the other end. Both are proved against the functions, and their loops
(`ServerLoop`, `Executor`) to be events of the system below.

`TaskRuns` is one task in an arbitrary world: messages in flight are a bag, any of them may
be lost or overtaken, snapshots arrive at any time, the hub drops what it likes, and the
configuration may change between any two steps. The three places that dispatch (results,
snapshots, answers of people) therefore meet in every possible order, and the merge gates,
the single pull request and the bound on dispatches are invariants over all messages in
flight. `Gates` says the same in the columns and settings themselves: which act dispatches,
blocks, fails or merges, what the gate columns tell of the history, and the executor's work
behind a merge. `System` is the whole: many tasks, one queue in each direction, workdirs, lost
connections. It is proved to be, for each task, a run of `TaskRuns`.

`Connections` adds what the protocol intends: messages travel only on an open stream, losing
it loses them, and opening one handles the workdir reports first. At most one step is then
outstanding and terminal rows are final, with one exception that the source does have: with
tests switched off for a repository, or with the gate switched off while a task waits for a
person, the snapshot handler wakes the blocked task. `Sleeps` is the exact condition. A run
is guarded if every snapshot whose dispatch the hub takes finds the task asleep or not blocked.

`Recovery` is about what is lost. A task owes the step dispatched last until its answer is
handled, whether the hub dropped the command, the stream took it along or an earlier
reconnection lost it again. The next snapshot retakes the owed step exactly when `Retakes`
holds of the row and the configuration; with tests enabled and a fixed configuration every
open pull request that waits for nobody owes a step, and it is always retaken. Plans and
EXEC are not: the source gives up a task without a pull request.

`Sessions` runs the whole system under the same discipline and shows that each of its tasks
makes a connected run, so one outstanding step and recovery hold on shared queues. `Leaving`
proves there that `merged` and `failed` are final if and only if the reconnection finds the
task asleep: otherwise the task can always be merged and then fail, with all queues served in
order. `WokenTask` has sessions from the empty system for both causes.

Answers of people are assumed to concern listed interventions only: the handler itself
checks nothing (app/cerebro/internal/httpapi/api.go:706-743). The writes of "planning" and
"running" pass their arguments in the wrong order and match no row
(app/cerebro/internal/db/db.go:1625-1628), so the model does not have them. The branch that
completes a task without a JSON result answers a message the server never sends. A fresh
pull request has its three gates at none (contracts/sql/001_schema.sql:306-308).

## The other machines

- `Hubs`: the outgoing channels, one for each organisation with an open stream.
- `Leases`, `LeaseRuns`, `LeasePass`: granting worker leases and the reaper's pass, a fold of
  turns over a snapshot; `Overshoot`: how far beyond the weekly cap an organisation can get;
  `Pacing`, `PacedOvershoot`: passes that start on a ticker, what a week can hold then, and
  exactly when the bound is reached; `Billing`: plans, subscriptions, Stripe events and dunning;
  `ReaperPasses`: a whole pass, dunning included, seen by one organisation and as a run;
  `Terms`: from the plan a lease is granted on to its end, over whole runs; `Payments`: whose
  rows a Stripe event changes, and how; `Enforcer`: all of it as the source writes it, loops
  over tables. Granting a lease is one atomic step.
- `Resolve`, `ResolveLoops`: the template runtime's expression evaluator, as functions on
  strings and as its loops; `Syntax`: expressions as trees, with text and meaning;
  `Templates`: the theorem that evaluating a tree's text gives its meaning; `Spelling`: what
  is written, operator by operator. JavaScript's values, equalities, truthiness
  and property access are parameters. String literals may contain anything that is balanced
  and shows no operator at the top level; the source has no other protection for them, and
  `LiteralIff` and `Literals` say exactly which quoted texts it reads as literals: alone, on
  the left of an equality, and as a key.
- `RateLimits`: the request limiter and its cache. The minute is read before the lock is
  taken, so the limit is exact exactly when no minute comes back (`LimitIsExactIff`).
- `Schedules`, `Scheduler`: routines fired by a pass; a routine disabled after the pass has
  listed it is still fired once (`DisabledFiresIff`).
- `AuditCsv`: the audit export and a reader for it.

Conventions: each handler and each database method is one atomic, successful update; clocks,
identifiers, the order of rows without `ORDER BY`, what the executor's tools find out, and
whether a send is accepted are parameters. The single statements under the handlers
(setting a column, ending a lease) are methods with the whole new table in their contract;
the table below lists the handlers and loops that use them. Fresh identifiers are preconditions.

## Model

| member | source | states |
|---|---|---|
| TaskRuns.MergedOnlyThroughTheGates | app/cerebro/internal/grpcsrv/server.go:245-298 | In every run of a task, with any loss, overtaking, snapshot and change of configuration, status `merged` implies a history with, in this order, an exec result, a passing test or a skip while the repository has a worker whose `runTests` is off, an approving AI review, a MERGE dispatched after a human approval or in a configuration where no worker has `autoMerge` off and `requireHuman` is off or `poolAutoMerge` on, and the merge result |
| Gates.DispatchedIff | app/cerebro/internal/grpcsrv/server.go:245-378 | For every act of every state: each of EXEC, TEST, REVIEW and MERGE is dispatched if and only if one of its causes is there, said in the columns of the pull request and the fields of the configuration; a MERGE that nobody approved exactly if no worker forbids it and the server requires no person or the pool merges without one |
| Gates.BlockedIff | app/cerebro/internal/grpcsrv/server.go:280-321 | A task comes to be blocked exactly when its merge is due, the person has not approved, and the worker, or the server and the pool, ask for one |
| Gates.StatusIff | app/cerebro/internal/grpcsrv/server.go:88-199 | A task comes to be in review, running, merged or failed exactly by these acts, for the matching reason, and never queued or canceled again |
| Gates.ColumnsAreReports | app/cerebro/internal/db/db.go:1121-1260 | In every run the row has the pull request its history tells of: each gate column holds the last report, review or answer since the exec result, and none if there was none |
| Gates.MergedWorkWasDone | app/cerebro/internal/grpcsrv/server.go:245-298 | Behind every merged task there are, in the run, an EXEC the executor finished, a TEST it passed (or a skip by a worker that runs none), a REVIEW it approved and a MERGE it finished |
| TaskRuns.PassedMeansInOrder | app/cerebro/internal/grpcsrv/server.go:245-298 | The order used above is the real one: it holds if and only if there are positions in the history, strictly rising, one for each milestone |
| TaskRuns.MergeInFlightIsCleared | app/cerebro/internal/httpapi/api.go:706-743 | A MERGE in flight, from whichever of the three places that dispatch one, has passed the same gates |
| TaskRuns.OnePullRequest | app/cerebro/internal/db/db.go:1086-1103 | Plan requests, plans, EXEC commands, exec results and their failures in flight plus pull requests of the task are at most one in every reachable state, so the latest pull request is the only one |
| TaskRuns.StepKeepsToken | app/cerebro/internal/grpcsrv/server.go:149-198 | Every step keeps that count at one or less |
| TaskRuns.StepKeepsBacked | app/cerebro/internal/grpcsrv/server.go:351-378 | Every step keeps the inductive invariant: each gate column and each message in flight is backed by the history it needs, and a blocked task has the shape of one |
| TaskRuns.StepKeepsBudget | app/cerebro/internal/grpcsrv/server.go:351-378 | Every step keeps dispatches plus outstanding weight within 4 + 3 per snapshot |
| TaskRuns.DispatchesAreBounded | app/cerebro/internal/grpcsrv/server.go:351-378 | Steps dispatched, plus what outstanding messages and a blocked task may still cause, never exceed 4 + 3 times the snapshots handled, whatever is lost or repeated |
| TaskRuns.BlockedTasksAwaitAPerson | app/cerebro/internal/httpapi/api.go:726-738 | In every reachable state a blocked task is listed and has one pull request approved by the AI and by no person; approving it dispatches one merge with both review gates approved (if the repository still has a clone URL), rejecting it dispatches nothing |
| TaskRuns.RunKeeps | app/cerebro/internal/grpcsrv/server.go:88-199 | Every run keeps the whole invariant: the token, the backing of columns and messages, the budget, and marks set only in order |
| Connections.AtMostOneStep | app/executor/src/main.rs:295-453 | When losing a stream loses what is in flight, opening one handles its snapshots first and only listed interventions are answered, a task has at most one outstanding step, and none while blocked, over or disconnected, in every guarded run |
| Connections.TerminalIsFinal | app/cerebro/internal/grpcsrv/server.go:88-199 | In a guarded run the row of a merged or failed task does not change any more (`Leaving.TerminalIsFinalIff` has the other direction) |
| Connections.OpenKeepsOneStepIff | app/cerebro/internal/grpcsrv/server.go:351-378 | The guard is exact: handling the snapshot keeps one outstanding step if and only if `Sleeps` holds (a blocked task had its tests run and the gate it waits at is still on); otherwise an approval makes two steps outstanding |
| Connections.MoveKeepsOneStep | app/cerebro/internal/grpcsrv/server.go:88-199 | Each move of a connected run keeps one outstanding step, and terminal rows |
| Connections.LinkedRunKeeps | app/cerebro/internal/grpcsrv/server.go:60-200 | Connected runs consist of steps of the task, so they keep what all its runs keep |
| WokenTask.WithTestsOffMergedIsLeft | app/cerebro/internal/grpcsrv/server.go:357-366 | A guarded session from the empty system, with tests switched off for the repository, after whose reconnection the task is merged and then fails |
| WokenTask.WithGateSwitchedOffMergedIsLeft | app/cerebro/internal/grpcsrv/server.go:312-321 | The same with tests on, the gate being switched off while the task waits for a person |
| WokenTask.UntestedReviewIsNotRetaken | app/cerebro/internal/grpcsrv/server.go:357-366 | A run from creation after which a lost REVIEW is owed and not retaken, because `ci` is still none |
| Recovery.ReconnectRecovers | app/cerebro/internal/grpcsrv/server.go:349-378 | With tests enabled and the configuration fixed, in every connected run: a step is owed once it is dispatched (also if the hub dropped it, or it was lost more than once) until its answer is handled; an open pull request that waits for nobody owes a step, and the next snapshot dispatches exactly that step; without a pull request, blocked or finished nothing is dispatched; the row never changes |
| Recovery.OwedStepIsRetakenIff | app/cerebro/internal/grpcsrv/server.go:349-378 | In every guarded run, whatever happens to the configuration and wherever the owed step was lost, the next snapshot dispatches that step if and only if `Retakes` holds of the row and the configuration; whatever is in flight is about the owed step |
| Recovery.SteadyRunsAreGuarded | app/cerebro/internal/db/db.go:1272-1289 | With tests enabled and the configuration fixed every run is guarded |
| Recovery.RunKeepsTracked | app/cerebro/internal/grpcsrv/server.go:245-298 | Guarded runs keep the gate columns consistent with the owed step, and all that is in flight about it |
| System.EventIsStep | app/cerebro/internal/grpcsrv/server.go:88-199 | Every event of the whole system (many tasks, one queue in each direction, workdir reports) is, for each task, nothing or one step of that task |
| System.CreateShare | app/cerebro/internal/httpapi/api.go:526-555 | A new task enters the system as the runs of one task assume |
| System.SystemKeeps | app/cerebro/internal/grpcsrv/server.go:88-199 | The invariants of all tasks hold in every reachable state of the system |
| System.SystemIsSafe | app/cerebro/internal/grpcsrv/server.go:88-199 | So in every run of the system, for every task: merged only through the gates, at most one pull request, dispatches within 4 + 3 per snapshot |
| Sessions.SessionTraces | app/executor/src/main.rs:293-453 | When nothing travels without a stream, losing one empties both queues and the reports a new one begins with are handled before anything else, every task of the system has come where it is by a connected run from its creation, guarded if its snapshots were |
| Sessions.BeatIsMove | app/executor/src/main.rs:293-453 | Each beat of such a session is nothing or one move of each task; a reconnection is the opening of a stream with that task's report |
| Sessions.SessionsHaveOneStep | app/cerebro/internal/grpcsrv/server.go:88-199 | So in guarded sessions every task has at most one outstanding step, with many tasks on shared queues |
| Sessions.SessionsRecover | app/cerebro/internal/grpcsrv/server.go:349-378 | And a task with tests enabled whose configuration nobody changed is dispatched exactly the step it was owed, whatever the other tasks do |
| Sessions.ReopeningRecovers | app/executor/src/main.rs:293-306 | The same in beats: after the stream is lost, a reconnection that reports the task leaves its row, and exactly the owed step in flight |
| Leaving.TerminalIsFinalIff | app/cerebro/internal/grpcsrv/server.go:351-378 | After every guarded session that ends without a stream: the reconnection that reports the task, and whose dispatch for it is taken, keeps `merged` and `failed` final in all guarded continuations if and only if it finds the task asleep |
| Leaving.WokenLeaves | app/cerebro/internal/grpcsrv/server.go:283-290 | Otherwise an approval, one merge and one failed step leave `merged`, every command being answered and every answer handled in the order of the shared queues, other tasks' included |
| Executor.AnswersIff | app/executor/src/main.rs:363-450 | The replies allowed in runs are exactly those the executor can send: one about the same step, planning never failing |
| Executor.RepliesAreTrue | app/executor/src/main.rs:363-450 | A reply says what the work found out: tests and reviews with their own verdict, EXEC and MERGE done exactly if they worked, and a step that broke as that step having failed |
| Executor.Machine.RunStep | app/executor/src/main.rs:363-389 | The reply to a step, true to its outcome, and that only EXEC touches the set of workdirs (removing the old one first) |
| Executor.Machine.HandleNext | app/executor/src/main.rs:309-453 | One turn of the inbound loop is one step of the system |
| Executor.Machine.HandleAll | app/executor/src/main.rs:309-453 | Every message gets one reply, about its own task and step and true to the outcome of its work, in the order of the messages |
| Executor.Machine.ReportWorkdirs | app/executor/src/main.rs:293-306 | A new stream reports every local workdir once; this is the system's reconnection |
| ServerLoop.HandleNext | app/cerebro/internal/grpcsrv/server.go:88-199 | The receive loop: handling the oldest message is one `ServerReads` of the organisation's system, with the buffer of its channel as the queue of commands |
| ServerLoop.Dispatch | app/cerebro/internal/grpcsrv/server.go:88-199 | Every kind of message does to the row and the hub what the pipeline's functions say, and a message about an unknown task nothing |
| ServerLoop.CreateTask | app/cerebro/internal/httpapi/api.go:526-555 | Creating a task is one `Create` of the system |
| ServerLoop.AnswerIntervention | app/cerebro/internal/httpapi/api.go:706-743 | Answering a listed intervention is one `Approves` or `Rejects` of the system |
| Orchestrator.Server.DispatchStep | app/cerebro/internal/grpcsrv/server.go:227-242 | The step is handed to the hub of the task's organisation if the repository has a clone URL; the result of the send is not looked at |
| Orchestrator.Server.AdvancePipeline | app/cerebro/internal/grpcsrv/server.go:245-298 | The statement-by-statement handler does to the row and to the hub exactly what the pipeline's function says, and nothing to any other task; an unknown task changes nothing |
| Orchestrator.Server.HandlePlanResult | app/cerebro/internal/grpcsrv/server.go:149-198 | A plan puts the task in review and returns the EXEC for the stream that brought it |
| Orchestrator.Server.ReconcileTask | app/cerebro/internal/grpcsrv/server.go:351-378 | The snapshot handler does exactly what the pipeline's function for snapshots says |
| Orchestrator.Server.CreateAndPlan | app/cerebro/internal/httpapi/api.go:526-555 | The task exists whether or not its plan request was accepted |
| Orchestrator.Server.InterventionAnswer | app/cerebro/internal/httpapi/api.go:706-743 | Approval and rejection do exactly what the pipeline's functions say; any other decision changes nothing |
| Hubs.ChannelsHaveOneOwner | app/cerebro/internal/grpcsrv/hub.go:20-55 | Over every interleaving of streams opening, closing (however late), sending and writing, a channel is open if and only if it is the registered one of some organisation, none is closed twice, and what was accepted is what was delivered followed by what waits, sixteen messages at most |
| Hubs.SendIsTakenIff | app/cerebro/internal/grpcsrv/hub.go:42-55 | A send adds its message, once and last, to the registered channel of its organisation and to no other, if and only if fewer than sixteen messages wait there |
| Hubs.OnlyItsOwnStreamEndsIt | app/cerebro/internal/grpcsrv/hub.go:32-39 | A registered channel stays registered and open until a newer stream of its organisation opens or its own stream ends; the late close of an older stream never removes it |
| Hubs.RunAllKeepsValid | app/cerebro/internal/grpcsrv/hub.go:20-55 | The hub's invariant is kept by every sequence of operations |
| Hubs.Hub.Register | app/cerebro/internal/grpcsrv/hub.go:20-30 | A new channel replaces the registered one, which is closed |
| Hubs.Hub.Unregister | app/cerebro/internal/grpcsrv/hub.go:32-39 | Removes and closes the channel only if it is still the registered one |
| Hubs.Hub.Push | app/cerebro/internal/grpcsrv/hub.go:42-55 | True exactly if the organisation has a channel with room; then the message is the last in it, otherwise it is dropped |
| LeaseRuns.WeeklyOvershootIsBounded | app/cerebro/internal/grpcsrv/reaper.go:124-168 | While an organisation stays on a plan with `w` workers and a weekly cap (the plan's hours times 3600 seconds, or the override), its week stays below cap + tick * w seconds, it has at most `w` active leases, and at or over the cap the seconds used plus one tick for each active lease are at most cap - 1 + tick * w; with requests falling into a pass, other settings changing and weeks turning |
| Overshoot.WeeklyOvershootIsSharp | app/cerebro/internal/grpcsrv/reaper.go:124-168 | Sharper: the seconds never exceed the largest multiple of the tick below the cap plus tick * w, because every counter is a multiple of the tick |
| Pacing.WeeklySecondsArePaced | app/cerebro/internal/grpcsrv/reaper.go:108-122 | With passes that start on the ticks of a ticker, which keeps one tick at most: whatever its cap, an organisation with at most `w` leases uses at most tick * w seconds of a week for each of 3 + (week - 2) / tick passes |
| PacedOvershoot.BoundReachedIff | app/cerebro/internal/grpcsrv/reaper.go:61-124 | And with such passes the sharp bound is reached, for any time to live, renewing or not, if and only if the ticks below the cap fit into all passes of a week but one, with all workers |
| LeaseRuns.KeepsMeter | app/cerebro/internal/grpcsrv/reaper.go:61-104 | Each single event keeps that inductive bound |
| LeaseRuns.NeverAboveTheCeiling | app/cerebro/internal/grpcsrv/reaper.go:69-84 | While plan and pinned workers together allow at most `b` leases, however they change within that, an organisation never has more than `b` active |
| LeaseRuns.PausedGetsNothing | app/cerebro/internal/grpcsrv/reaper.go:61-67 | While its pool is paused an organisation gets no lease: over any run its active leases only become fewer |
| LeaseRuns.LedgerIsConserved | app/cerebro/internal/grpcsrv/reaper.go:171-190 | In every reachable state `lease_issued` minus `lease_expired` events is the number of active leases of each organisation, and so is `worker_started` minus `worker_stopped`; each lease is issued once and expired once exactly if its row has ended |
| LeaseRuns.QueueStaysTrue | app/cerebro/internal/grpcsrv/reaper.go:133-140 | What a pass has still to visit is active and as the snapshot read it, whatever happens meanwhile |
| LeaseRuns.LeaseKeepsItsTerms | app/cerebro/internal/db/db.go:1503-1561 | From grant to end a non-renewable lease keeps its expiry, and an ended lease stays ended as it did |
| LeaseRuns.WorkersFollowLeases | app/cerebro/internal/db/db.go:1563-1571 | Every lease has a worker of its own, which is working, paused or stopped as its lease says |
| Terms.GrantedIff | app/cerebro/internal/grpcsrv/reaper.go:61-104 | A request is granted exactly if nothing stands against it, and otherwise denied for the first thing that does, said in the fields of plan, pool and pinned workers |
| Terms.GrantedByTheTables | app/cerebro/internal/db/db.go:1454-1463 | The same from the tables, the plan being looked up in the catalogue: when it is granted, until when, and that exactly plans other than Free renew |
| Terms.ExpiredOnlyOnFree | app/cerebro/internal/grpcsrv/reaper.go:92-104 | Over all runs: only a lease granted on the Free plan, with a time limit that has passed since its grant, is ever ended as expired |
| Terms.FreeLeaseEnds | app/cerebro/internal/grpcsrv/reaper.go:157-167 | Over all runs: a lease granted on the Free plan with a time limit keeps its expiry and is ended by any turn after it, whatever plan its organisation has moved to |
| Terms.PaidLeaseRenews | app/cerebro/internal/grpcsrv/reaper.go:157-167 | Over all runs: a lease granted on another plan is never ended as expired; a turn that finds it past its expiry renews it for as long as the plan of that time says, unless the turn ends it for another reason |
| Terms.SurvivesByTheTables | app/cerebro/internal/grpcsrv/reaper.go:124-168 | Which leases a whole pass leaves active, from the tables before it and the plans the dunning leaves |
| Terms.WeekTurnsOnMonday | app/cerebro/internal/db/db.go:1471-1487 | The week of the counters turns on Mondays at midnight and at no other second |
| LeasePass.PassDecides | app/cerebro/internal/grpcsrv/reaper.go:138-167 | In closed form, from the state before the pass: each lease of the snapshot ends with its fate (revoked device, cap reached by the seconds of its week up to its turn, expired without renewal), or is renewed, or stays as it is |
| LeasePass.SurvivesIff | app/cerebro/internal/grpcsrv/reaper.go:138-167 | A lease of the snapshot is active after the pass if and only if none of the three reasons holds |
| LeasePass.EndedForGood | app/cerebro/internal/grpcsrv/reaper.go:138-167 | With requests and changes of settings inside the pass, a lease for which its turn finds a reason is ended with that reason for the rest of any run |
| LeasePass.PassSeconds | app/cerebro/internal/db/db.go:1481-1487 | A pass costs an organisation one tick for each of its leases, in the week of the turn, revoked or not |
| LeasePass.CrossingEndsThemAll | app/cerebro/internal/grpcsrv/reaper.go:138-160 | In a pass over any organisations, one that crosses its cap with the first of its own turns loses all its leases, and still pays a tick for each |
| ReaperPasses.PassByItself | app/cerebro/internal/grpcsrv/reaper.go:124-190 | For any snapshot mixing organisations in any order, what a whole pass leaves of one organisation (plan, subscriptions, leases, workers, counters, usage events) is what a pass over that organisation alone leaves, dunning and the plans the turns look up included |
| ReaperPasses.DunsByItself | app/cerebro/internal/grpcsrv/reaper.go:125-132 | The dunning of one organisation depends on its own plan and rows only |
| ReaperPasses.PassIsRun | app/cerebro/internal/grpcsrv/reaper.go:133-168 | From any state at rest the pass of the loop is a run of the lease tables, so whatever runs keep (cap, ledger, expiry) the loop keeps |
| Billing.DunningIsDeserved | app/cerebro/internal/grpcsrv/reaper.go:125-132 | Over all runs of hooks, plan changes and passes: a pass downgrades an organisation if and only if it has a subscription and its last billing event is a failed payment with a grace that ended before the pass; all other plans stay; afterwards no past-due row has an expired grace; at most one subscription row for each organisation, with the organisation's plan |
| Payments.CustomerIsFound | app/cerebro/internal/db/db.go:1368-1378 | The look-up by customer finds the organisation of the customer's latest row, and nothing if no row has the customer |
| Payments.AboutIff | app/cerebro/internal/httpapi/api.go:2490-2501 | The organisation of an event is the one its metadata name, or else its client reference, or else that of its customer's latest row |
| Payments.FailureFallsOn | app/cerebro/internal/httpapi/api.go:2512-2518 | A failed payment puts the rows of that organisation past due, for the grace set or seven days, and changes nothing else |
| Payments.FailureOfCustomer | app/cerebro/internal/httpapi/api.go:2490-2518 | A failed payment known only by its customer puts the customer's latest row past due and changes no row of an organisation that has no row of that customer |
| Payments.PaymentOrEnd | app/cerebro/internal/httpapi/api.go:2519-2525 | A payment ends the past-due time of that organisation's rows; a deleted subscription takes the organisation back to the Free plan |
| Payments.CheckoutBuys | app/cerebro/internal/httpapi/api.go:2505-2511 | A checkout sets the plan it names, or Pro, in the organisation and in its row, old or new, and ends the grace |
| Payments.PlanChanges | app/cerebro/internal/httpapi/api.go:2392-2413 | The direct change of plan activates the organisation's rows but leaves their grace as it is |
| Billing.FailureWithoutSubscription | app/cerebro/internal/httpapi/api.go:2465-2528 | The subscription is needed: a failed payment of an organisation without one leaves nothing to downgrade |
| Billing.ExpiredIff | app/cerebro/internal/db/db.go:1392-1408 | An organisation is listed if and only if it has a past-due row whose grace is over |
| Billing.EventSound | app/cerebro/internal/db/db.go:1350-1417 | One row for each organisation, agreeing plans, and a row past due exactly when the last event is a failed payment that set its grace: kept by every event |
| Enforcer.Db.ActiveLeases | app/cerebro/internal/db/db.go:1533-1549 | Every active lease once, in any order |
| Enforcer.Db.UpdateSubs | app/cerebro/internal/db/db.go:1380-1389 | The organisation's subscription rows, and how many there are |
| Enforcer.Api.Webhook | app/cerebro/internal/httpapi/api.go:2465-2528 | What each kind of Stripe event does to the accounts, with the three ways to find its organisation |
| Enforcer.Api.SetPlan | app/cerebro/internal/httpapi/api.go:2392-2413 | The direct change of plan |
| Enforcer.Server.TryGrant | app/cerebro/internal/grpcsrv/reaper.go:61-104 | The decision, with the reason of the first check that fails, and the tables after it |
| Enforcer.Server.RevokeLease | app/cerebro/internal/grpcsrv/reaper.go:171-190 | The lease, its worker and the two usage events |
| Enforcer.Server.ReapLease | app/cerebro/internal/grpcsrv/reaper.go:138-167 | The body of the loop with its four exits is one turn |
| Enforcer.Server.DunAll | app/cerebro/internal/grpcsrv/reaper.go:125-132 | The loop over expired organisations is the dunning function |
| Enforcer.Server.VisitAll | app/cerebro/internal/grpcsrv/reaper.go:138-168 | The loop over the snapshot is the fold of turns |
| Enforcer.Server.ReapOnce | app/cerebro/internal/grpcsrv/reaper.go:124-168 | One pass: dunning first, then one turn for each active lease, with the plans after the dunning; and it leaves every organisation as a pass over that organisation alone would |
| Templates.TextMeans | support.js:193-224 | For every well-formed expression tree (literals, paths with dot, index and bracket segments, negation, the four equalities, parentheses, white space anywhere the grammar has a gap), evaluating its text gives its meaning, for any JavaScript equality, truthiness and property access |
| Spelling.OperatorsMean | support.js:200-212 | The text of a well-formed expression, `===`, `!==`, `==` or `!=`, and the text of another one: its value is strict equality of the two meanings, its negation, loose equality, its negation |
| Spelling.NothingOnTheLeft | support.js:236-250 | An expression that starts with an equality operator is no equation: it is undefined, or the negation of undefined |
| Spelling.PathsMean | support.js:251-282 | A name is read from what is given, a dot or bracket segment from what the path before it has come to, and nothing is read from null |
| Spelling.NumberIff | support.js:192 | The number pattern matches exactly an optional minus, digits, and optionally a point and more digits |
| Templates.WalkFollows | support.js:251-282 | Walking the text of segments follows them |
| Templates.EqualityFound | support.js:236-250 | The first top-level equality of an equation's text is its operator, with the right one of the four kinds |
| Syntax.ShapeOf | support.js:225-250 | The text of every tree has balanced brackets however they are counted, starts and ends without white space and, unless it is an equation, hides its operators from the scan |
| Templates.LiteralIff | support.js:218-223 | A quoted text is read as a string literal, for all values, if and only if no `==` or `!=` stands in it outside brackets (and not right after another `=` or `!`) |
| Literals.LiteralOnLeftIff | support.js:193-213 | On the left of an equality a quoted text is compared as a literal, for every host language, if and only if its brackets leave the depth as it was and no operator stands in it at depth zero |
| Literals.LiteralKeyIff | support.js:251-282 | In brackets a quoted text is followed as a key, for every host language, if and only if its square brackets match and no operator stands in it at its own level or one up |
| Syntax.QuietIsPlain | support.js:218-223 | String literals free of brackets, `=` and `!` are well formed in any expression |
| Templates.QuotedComparison | support.js:236-250 | The literal `"a==b"` is not read as one |
| ResolveLoops.ScanParens | support.js:225-235 | The counting loop decides whether the first parenthesis closes only at the end |
| ResolveLoops.ScanEquality | support.js:236-250 | The loop finds the first top-level equality and its operator |
| ResolveLoops.ScanBracket | support.js:263-276 | The inner loop finds the bracket that closes |
| ResolveLoops.ResolveExpr | support.js:193-224 | The evaluator computes `Value`, and terminates, every recursive call being on a shorter string |
| ResolveLoops.StepName | support.js:257-261 | A turn at a dot goes where `Walk` goes, or breaks off |
| ResolveLoops.StepKey | support.js:262-276 | A turn at a bracket goes where `Walk` goes, or breaks off |
| ResolveLoops.WalkPath | support.js:251-282 | The loop along a path computes `ResolvePath` |
| Resolve.FirstEquality | support.js:236-250 | The position found is an equality and no earlier one is |
| RateLimits.MinuteIsExact | app/cerebro/internal/httpapi/middleware.go:94-109 | With a monotone clock and a constant limit r > 0, exactly min(r, calls) requests of an organisation pass in each clock minute, whatever other organisations do |
| RateLimits.MinuteOnPlan | app/cerebro/internal/httpapi/middleware.go:63-76 | So in each clock minute min(240, calls) pass on the free plan, min(600, calls) on pro, min(2000, calls) on team, and all of them on any other |
| RateLimits.AnySixtySeconds | app/cerebro/internal/httpapi/middleware.go:94-109 | At most 2r pass in any sixty seconds, wherever they start |
| RateLimits.LimitIsExactIff | app/cerebro/internal/httpapi/middleware.go:99-108 | For the minutes in the order they are counted: the limit is exact for every r and minute if and only if no minute comes back after another one (the minute is read before the lock is taken) |
| RateLimits.AdmittedIff | app/cerebro/internal/httpapi/middleware.go:94-109 | For any history and any limits: a request passes if and only if it is unlimited or the unbroken streak of its minute, itself included, is within its limit |
| RateLimits.WindowIsStreak | app/cerebro/internal/httpapi/middleware.go:102-107 | The window of an organisation is the current streak of its own limited requests |
| RateLimits.OrgsDoNotInterfere | app/cerebro/internal/httpapi/middleware.go:94-109 | Requests of other organisations do not change an organisation's window |
| RateLimits.LimitsAreFresh | app/cerebro/internal/httpapi/middleware.go:78-91 | However requests interleave between reading the cache, asking the plan and storing the answer, every limit applied was given by the plan less than thirty seconds before the request began or while it was served |
| RateLimits.RpmIsMoves | app/cerebro/internal/httpapi/middleware.go:78-91 | One call of `Rpm` is, for its organisation, a look at the cache, or a look, a reading of the plan and a storing |
| RateLimits.RateLimiter.Rpm | app/cerebro/internal/httpapi/middleware.go:78-91 | A cached limit while it holds, otherwise the plan's, cached for thirty seconds |
| RateLimits.RateLimiter.Allow | app/cerebro/internal/httpapi/middleware.go:94-109 | The windows after every call are those of the history of calls, and the answer is whether the call is admitted |
| Schedules.FiringsAreSpaced | app/cerebro/internal/grpcsrv/scheduler.go:22-32 | Over any run of passes, enables, disables, deletions and manual runs, between any two scheduled firings of a routine there is at least one interval for each firing, and N * I is at most the time from its creation to its last firing |
| Schedules.ListedExactlyWhenDue | app/cerebro/internal/db/db.go:738-756 | A routine that is armed, and then neither fired nor switched nor deleted by its own organisation, is listed by the next pass that scans it if and only if its time has come |
| Schedules.FiringArms | app/cerebro/internal/db/db.go:769-777 | A firing arms the routine for exactly one interval later, or for never if it has none |
| Schedules.EnablingArms | app/cerebro/internal/db/db.go:779-794 | Enabling a scheduled routine arms it for exactly one interval later |
| Schedules.DisabledFiresIff | app/cerebro/internal/grpcsrv/scheduler.go:22-32 | A disabled routine may still fire, without being enabled, if and only if the pass in progress had listed it |
| Schedules.DisabledWhileListed | app/cerebro/internal/grpcsrv/scheduler.go:22-32 | A run from the empty table in which a routine is listed, then disabled, and then fired |
| Schedules.StaysAtRest | app/cerebro/internal/db/db.go:779-794 | A routine that is disabled and not listed never fires until it is enabled |
| Schedules.StepKeeps | app/cerebro/internal/db/db.go:738-777 | Each act keeps the invariant behind the spacing: the next run of a row is an interval after the last firing, or there is none |
| Schedules.DueHasAll | app/cerebro/internal/db/db.go:738-756 | A routine is listed if and only if it is enabled, scheduled and due |
| Scheduler.Db.DueRoutines | app/cerebro/internal/db/db.go:738-756 | The due rows in the order of the scan (`DueInOrder`) |
| Scheduler.Db.SetRoutineEnabled | app/cerebro/internal/db/db.go:779-794 | Enabling schedules one interval ahead, disabling clears the next run |
| Scheduler.Server.FireRoutine | app/cerebro/internal/grpcsrv/scheduler.go:37-58 | A new task with the routine's organisation and with the repository its action names, if any, and its plan request handed to the hub |
| Scheduler.Server.RunOnce | app/cerebro/internal/grpcsrv/scheduler.go:22-32 | A tick takes exactly the steps of a pass: the listing, then one firing for each entry in order, with the clock going on; each firing creates one task and asks its organisation for the plan |
| AuditCsv.RoundTrip | app/cerebro/internal/httpapi/api.go:365-382 | Reading the exported text, by section 2 of RFC 4180 with LF, gives the names of the six columns and then, for every row, its six fields in that order, a quote in front of those that begin with `=`, `+`, `-` or `@` |
| AuditCsv.NothingIsAFormula | app/cerebro/internal/httpapi/api.go:385-392 | No field that is read back begins with `=`, `+`, `-` or `@`, and a field is unchanged if and only if it did not begin so |
| AuditCsv.SameTextIff | app/cerebro/internal/httpapi/api.go:385-392 | Exactly which two fields are exported alike: a formula, and the same text with the guard already there |
| AuditCsv.FieldReads | app/cerebro/internal/httpapi/api.go:385-392 | One written field is read back whole, quotes, commas and line breaks included |
| AuditCsv.AuditExport | app/cerebro/internal/httpapi/api.go:365-382 | The loop writes the header and one line for each row |

## Left out

- gRPC, TLS, HTTP routing, Postgres and SQL error paths, and row-level security, whose policies are in SQL.
- Crypto and keys (vault, PKI, JWT, webhook signatures), OAuth flows, git, test and model calls in the executor: what they find out is a parameter.
- Notifications, memories, step rows, token counts, QA reports and logs: the pipeline never reads them back.
- The window in `Send` between releasing the lock and writing to the channel (app/cerebro/internal/grpcsrv/hub.go:43-51): a send is one step here, so nothing is claimed about sending on a channel that was closed in between.
- Orchestrator.Server.HandlePlanResult: does not model that EXEC is written to the stream's own channel and may wait for room; the envelope is returned, and runs treat it as accepted or lost.
- ServerLoop.HandleNext: takes an executor's messages to be about tasks of its own organisation, which the handlers do not check.
- Enforcer.Server.RevokeLease: does not model the two pushes to the executor, which only prints them, nor the notification.
- Enforcer.Api.Webhook: does not model the invoice row that a paid invoice inserts, nor the Stripe subscription id, because nothing modelled reads them.
- Recovery of a lost plan request or EXEC: the source gives up a task without a pull request, and so does the model.
- `AdminSetOrgPlan`, which writes the organisation's plan without the subscription's, so plans would not agree.
- Concurrent checkouts of one organisation: update-or-insert is one atomic step, so two rows from a race are not modelled.
- Enforcer.Server.TryGrant: does not model two requests interleaving inside the checks; it is one step.
- Regular expressions and Unicode of the host language beyond what the evaluator's patterns need: strings are sequences of Unicode characters, and surrogate pairs are not told apart.
- `paginas/support.js` (same text as `support.js`), the DOM walk, React components, fetching and attribute encoding.
- String literals that hide brackets or operators, as parts of trees: the scans of the source look inside the quotes, so such trees are not well formed here; exact conditions are in `Templates.LiteralIff`, `Literals.LiteralOnLeftIff` and `Literals.LiteralKeyIff`.
- Integer widths: counters and times are unbounded, and none comes near its width in the source.
- The role table `can`, dashboards, the PTY sidecar, generated code: settled by reading, or foreign.
