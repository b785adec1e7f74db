# Verification model of the R2B4 host executive

A Dafny model of the host layer above the robot's motion controller: the protocol that keeps revoked work away from
the motors, the admission of task plans and what it guarantees at run time, the goal table and the behavior lifecycle,
the bounded stores with their accounting, and the fixed-grid control scheduler.  Each module models one part of the
Python host in the form that part has: state machines over every interleaving where threads share locks, classes and
loops where fields and locals change in place, functions where a value is computed.

Check everything with `dafny verify dfyconfig.toml`.

| module | models | main result |
|---|---|---|
| `StopProtocol` | requests, preemption, the action lock | after a preemption's final STOP no older request commands, in every interleaving |
| `FirstStop` | the time between a revocation and the STOP under the lock | exactly which older request can still command, that it is alone, and that it commands once |
| `TaskGraph`, `PlanAdmission` | graph proposals and the 256-pop worklist | acceptance said of outcome paths alone; acyclic, bound before use, the user's and the plan's constraints on every success path |
| `MotionSequence` | the greedy motion check | acceptance is the existence of a split into segments |
| `HouseSearch`, `SearchFollowReturn`, `MotionPlanner`, `MotionSurplus` | the local planner's graphs and step lists | which of its plans admission accepts, said of each single plan, and in how many paths |
| `GoalExecution` | one admitted goal at run time | the run follows an admitted path; targets are bound before use; completion is a whole path |
| `GoalTable` | the table of goals | ownership of started goals, bounds, replacement order, finality |
| `BehaviorLifecycle` | start, step, revoke, STOP and their late returns | one terminal event per behavior, a completion recorded after its STOP, proof of requested durations |
| `HostRefinement` | how these machines fit together | every step of the goal table and of the behaviors has its step of the STOP protocol, and every run of theirs a run of the protocol beside it |
| `EvidenceJournal` | the evidence queue and its journal | every number in exactly one place; `RECORDED` means written |
| `EventRing` | the event ring and the cursor client | in order, once, nothing lost unreported |
| `OutcomeLearning` | the learning aggregate and rankings | bounds, conservation of trials, each event counted once |
| `PersonIdentity` | taught people and live tracks | one context, one person per track, at most 64 |
| `PoseRing` | the pose ring | the ring answers as the whole history does |
| `CapabilityPrompt` | the compressed catalogue | reading it back gives every descriptor exactly |
| `ControlScheduler` | the control loop's deadlines and captures | deadlines on the grid, ticks and captures bounded |

Time is integer nanoseconds; metric amounts and poses are exact reals; names and identities are numbers or
constructors.  What the world, the robot, clocks and the network answer are inputs that range over everything.

## What does not hold, and when it does

* The planner's search of every known place is admitted if and only if there are one to six places, the sentence does
  not go on to follow a person by a name that resolves, and the constraints hold of each way to find someone.  Such a name puts a person search into the node that uses the
  bound target, and that graph is refused for every number of places (`HouseSearch.HouseAdmissible`,
  `HouseSearch.NamedRefused`).
* A planned turn above 180 degrees by no more than the tolerance of 1e-9 leaves a second step behind.  A list with such
  a turn is accepted if and only if what is left is taken up by the motions after it, which only turns the same way do
  (`MotionSurplus.ListAcceptedIff`, `MotionSurplus.ListAcceptedIffTakenUp`, `MotionSurplus.SliverThen`); at the end of a
  list it is refused (`MotionPlanner.SliverRefused`).  The same tolerance refuses an exact split whose last turn is that
  small (`MotionSequence.TinyTurnRefused`); whatever its amounts, an exact split is accepted if and only if its parts,
  one after the other, leave nothing behind (`MotionSurplus.ExactSplitAcceptedIff`).
* Constraints that the plan itself supplies refuse a success path without actions only when a success path with actions
  was taken before it.  So two graphs that differ only in which edge of a branch leads where can be told apart by
  admission (`PlanAdmission.EdgeOrderDecides`); the exact condition is `OrderAllowed` in
  `PlanAdmission.AdmissibleIffPathsAllowed`, with the order of the paths said of the paths alone
  (`PlanAdmission.DoneIsBefore`).
* The first STOP of a preemption does not drain (`StopProtocol.FirstStopDoesNotDrain`).  After it, as after any
  revocation, a request that was admitted before and is of a kind that was revoked can still command if and only if it
  is past its last check: it executes, installs, replaces a behavior for a skill, or finds its own behavior still in
  charge (`FirstStop.CanStillCommandIff`).  It then holds the action lock, so it is the only one
  (`FirstStop.EscapedHoldsLock`), and it commands once (`FirstStop.OneOldCommand`).
* On a host with a skill runtime the final STOP of a preemption is not reached when the reason is empty or longer than
  1024 characters, because that runtime refuses such a reason both times; a host without one reaches it for any reason
  (`StopProtocol.FinalStopIff`).
* `BEHAVIOR_COMPLETED` is recorded if and only if STOP did not raise an ordinary exception; an interrupt that ends the
  STOP still records it (`BehaviorLifecycle.InterruptedStopCompletes`).
* A recorded start of execution, and with it the deadline, does not always stay: it changes in a step if and only if the
  step is a late observation that had captured another start, and did not read the recorded one again when it had
  captured none (`BehaviorLifecycle.OverwriteIff`).  Over a run it stays if and only if no step does this
  (`BehaviorLifecycle.StartKeptIff`), which steps that do not overlap never do
  (`BehaviorLifecycle.DeadlineMovesOnce`).  Overlapping steps can move the deadline again
  (`BehaviorLifecycle.OverlapMovesDeadlineTwice`), erase the start (`BehaviorLifecycle.LateStepErasesStart`) and bring
  an older one back (`BehaviorLifecycle.StaleStartComesBack`).
* A goal that enters the interjection slot can lose its owner to a teaching thread left from an earlier use of its
  request identity if and only if such a thread of the current generation has yet to free the slot
  (`GoalTable.ReuseLosesOwnerIff`); a run in which it does is `GoalTable.ReuseLosesOwnerRun`.  In every other run a
  started goal belongs to the primary or to the slot (`GoalTable.GoalsOwned`).  A finished goal that is still in the slot
  is cancelled by the next accepted primary (`GoalTable.SlotGoalIsCancelled`).
* The failure of a running physical goal ends it unless the interjection slot still names a goal that left the table;
  then it raises before the STOP and the goal runs on under a new generation (`GoalTable.PhysicalFailureEnds`, and a run
  that comes to this in `GoalTable.PhysicalFailureRaisesRun`).
* A report is acknowledged without its line exactly when the line was in a batch whose write raised an error other than
  the two that the flush handles (`EvidenceJournal.RecordedIsWritten`, `EvidenceJournal.RecordedButLost`).
* The control loop's "did not advance" error is raised exactly when a stop is requested while the clock still shows the
  last tick's time (`ControlScheduler.Turn`).

## Model

| member | source | states |
|---|---|---|
| StopProtocol.FinalStopDrains | r2b4_orchestration/robot_runtime.py:909-949 | over every interleaving, a command logged after a final locked STOP was admitted after that preemption's second revocation of its kind, and every logged position is a real admission, bump or revocation |
| StopProtocol.FinalStopIff | r2b4_orchestration/robot_runtime.py:909-935 | a thread has a final STOP in the log if and only if it is a finished preemption whose last STOP did not raise, with a bounded reason where the host has a skill runtime |
| StopProtocol.OneInside | r2b4_orchestration/robot_runtime.py:635-706 | at most one thread is between taking and releasing the action lock |
| StopProtocol.FirstStopDoesNotDrain | r2b4_orchestration/robot_runtime.py:909-926 | a run in which a revoked manual request commands after a preemption's first STOP |
| FirstStop.CanStillCommandIff | r2b4_orchestration/robot_runtime.py:909-949 | in every state of every run, after any revocation, an older request of a kind it revoked has a continuation in which it commands if and only if it is past its last check |
| FirstStop.EscapedHoldsLock | r2b4_orchestration/robot_runtime.py:1197-1224 | such a request holds the action lock, so at most one can still command |
| FirstStop.OneOldCommand | r2b4_orchestration/robot_runtime.py:909-949 | a run has at most one command, after a revocation, of the requests that it ended |
| StopProtocol.GenerationClears | r2b4_orchestration/robot_runtime.py:1197-1216 | a generation that still matches under the lock was captured after every final STOP so far |
| StopProtocol.AliveClears | r2b4_orchestration/brain_core.py:895-922 | a goal or a skill run that is still alive was admitted after every final STOP so far |
| MotionSequence.CheckMotionSequence | r2b4_orchestration/brain_core.py:217-267 | the loops over items and planned motions accept exactly what the specification accepts |
| MotionSequence.MatchesSplits | r2b4_orchestration/brain_core.py:232-267 | everything accepted splits into consecutive segments, one per requested item, each within the tolerance |
| MotionSequence.SplitMatches | r2b4_orchestration/brain_core.py:232-267 | no split is refused whose planned amounts exceed the slack of the greedy walk |
| MotionSequence.AcceptsIffSplits | r2b4_orchestration/brain_core.py:232-267 | with amounts above twice the tolerance, acceptance is the existence of a split |
| MotionSequence.ExactSplitAccepted | r2b4_orchestration/brain_core.py:248-263 | with amounts above the tolerance no exact split is refused |
| MotionSequence.TinyTurnRefused | r2b4_orchestration/brain_core.py:248-263 | an exact split with a last turn of at most the tolerance that is refused |
| TaskGraph.BoundOnMeans | r2b4_orchestration/brain_core.py:644-650 | a target is bound on a walk exactly when a binding node on it was left by its success edge |
| TaskGraph.AllWalksBound | r2b4_orchestration/brain_core.py:634-638 | the number of outcome paths, as a bound on every finite set of them |
| TaskGraph.CycleUnbounded | r2b4_orchestration/brain_core.py:632-638 | a reachable cycle has more outcome paths than any bound |
| PlanAdmission.GraphPlan | r2b4_orchestration/brain_core.py:609-663 | the worklist accepts exactly the admissible graphs, under the user's and the plan's constraints, and pops once for each outcome path |
| PlanAdmission.Visit | r2b4_orchestration/brain_core.py:635-662 | one pop accepts exactly the allowed entries, refuses a success path without actions where the constraints seen so far do, and pushes the entries of the walk's continuations |
| PlanAdmission.AdmittedAcyclic | r2b4_orchestration/brain_core.py:632-663 | no outcome path of an admitted graph comes back to a node |
| PlanAdmission.AdmittedBindings | r2b4_orchestration/brain_core.py:640-643 | every path to a node that uses a target left a binding person search by its success edge |
| PlanAdmission.AdmittedMotion | r2b4_orchestration/brain_core.py:651-659 | every path that ends without a failure does the user's motion, whole and in order |
| PlanAdmission.LinearImplied | r2b4_orchestration/brain_core.py:428-505 | the linear binding check, repeated on each success path, follows from the checks on the paths |
| PlanAdmission.CompletedIsShort | r2b4_orchestration/brain_core.py:609-663 | a success path has no more actions than the graph has nodes |
| PlanAdmission.AdmissibleIffPathsAllowed | r2b4_orchestration/brain_core.py:609-663 | for graphs of at most 32 nodes admission is: few paths, bindings on every path, all constraints on every completing path, and under constraints of the plan no completing path without actions after one with actions |
| PlanAdmission.DoneIsBefore | r2b4_orchestration/brain_core.py:632-662 | when a path is popped, the paths already taken are exactly its parts and those that leave it by failure where it goes on by success |
| PlanAdmission.BeforeAsymmetric | r2b4_orchestration/brain_core.py:632-662 | of two paths only one comes before the other |
| PlanAdmission.EdgeOrderDecides | r2b4_orchestration/brain_core.py:651-658 | a branch to an action and to a report of success is admitted under a constraint of the plan exactly when the action is on its success edge |
| HouseSearch.HouseSearchPlan | r2b4_orchestration/local_task_planner.py:312-344 | the planner's loop builds the declared graph for one to six places, with the first row of the follow clause in the node that follows, and answers in words or leaves the sentence to others otherwise |
| HouseSearch.HouseWalks | r2b4_orchestration/local_task_planner.py:326-344 | the graph for n places has 2^(n+2)-3 outcome paths with a follow and 3*2^n-2 without |
| HouseSearch.PathCountFits | r2b4_orchestration/local_task_planner.py:323-325 | that number is within 256 exactly for at most six places |
| HouseSearch.HouseAdmissible | r2b4_orchestration/local_task_planner.py:312-344 | under any constraints the graph for n places is admitted if and only if n is at most six, the clause does not name a person who resolves, and the constraints hold of each way to find someone |
| HouseSearch.CompletedHousePath | r2b4_orchestration/local_task_planner.py:326-344 | every way to succeed is some of the first places in order, then one place with its search, and the follow if there is one |
| HouseSearch.HousePathCompleted | r2b4_orchestration/local_task_planner.py:326-344 | each such list of actions is a way to succeed |
| HouseSearch.NamedRefused | r2b4_orchestration/local_task_planner.py:338-341 | with a named person to follow the graph is refused for every number of places, whatever is constrained |
| HouseSearch.AdmitHouseSearch | r2b4_orchestration/local_task_planner.py:312-344 | planner and admission together, under any constraints: admitted exactly for one to six places without a named person where the constraints hold, with exactly the closed-form number of pops; with a named person a plan is proposed and rejected |
| SearchFollowReturn.TourPlan | r2b4_orchestration/local_task_planner.py:285-310 | a graph comes back exactly for one search, one later follow and a final return within 30 steps, and it is the declared one |
| SearchFollowReturn.TourCount | r2b4_orchestration/local_task_planner.py:298-310 | a tour of n steps has n+1 outcome paths |
| SearchFollowReturn.TourAdmissible | r2b4_orchestration/local_task_planner.py:279-310 | under any constraints a tour is admitted exactly when its steps as a whole meet them |
| MotionPlanner.PlanMotion | r2b4_orchestration/local_task_planner.py:354-376 | the loop over instructions builds the planned steps and the requested motion |
| MotionPlanner.PlannedMotionAccepted | r2b4_orchestration/local_task_planner.py:354-376 | the steps planned for a list without a sliver are accepted against the motion of the same list |
| MotionPlanner.SliverRefused | r2b4_orchestration/local_task_planner.py:101-110 | a list that ends with its only sliver is refused |
| MotionPlanner.PrefixesAcceptedIffNoSliver | r2b4_orchestration/local_task_planner.py:354-376 | every prefix of a list is accepted if and only if the list holds no sliver |
| MotionPlanner.ChainPlan | r2b4_orchestration/local_task_planner.py:261-270 | a long plan becomes the declared chain of success edges |
| MotionPlanner.ChainAdmissible | r2b4_orchestration/local_task_planner.py:261-270 | the chain for a list without a sliver is admitted with the motion of the same list |
| MotionPlanner.ChainAdmissibleIff | r2b4_orchestration/local_task_planner.py:261-270 | under any constraints a chain is admitted if and only if its steps as a whole meet them |
| MotionSurplus.ListAcceptedIff | r2b4_orchestration/local_task_planner.py:354-376 | a single list is accepted against its own motion if and only if its motions, settled one after the other, leave nothing behind |
| MotionSurplus.ListAcceptedIffTakenUp | r2b4_orchestration/local_task_planner.py:354-376 | with amounts above the tolerance this is one number: the surplus of each sliver is taken up by the turns the same way right after it |
| MotionSurplus.SliverThen | r2b4_orchestration/local_task_planner.py:101-110 | a sliver before an ordinary motion is accepted exactly when that is a turn the same way |
| MotionSurplus.TakeIsLocal | r2b4_orchestration/brain_core.py:248-263 | a requested motion never looks past its own part of an exact split |
| MotionSurplus.ExactSplitAcceptedIff | r2b4_orchestration/brain_core.py:232-267 | whatever the amounts, an exact split is accepted if and only if its parts, settled one after the other, leave nothing behind |
| MotionSurplus.ListChainIff | r2b4_orchestration/local_task_planner.py:261-270 | the graph proposed for a list is admitted with the motion of the list if and only if the list leaves nothing behind |
| GoalExecution.RunFollows | r2b4_orchestration/brain_core.py:1358-1423 | over every run of an admitted graph, with the goal ended at any point between the changes that one outcome makes, the goal stands on a walk of the graph, with that walk's completed actions and binding |
| GoalExecution.RunBindings | r2b4_orchestration/brain_core.py:1076-1106 | a node that uses a target is dispatched only after an earlier node recorded the target, and never fails for want of one |
| GoalExecution.RunCompletion | r2b4_orchestration/brain_core.py:1524-1544 | a goal completes only with its completed actions forming one admitted success path that meets all constraints and does the user's motion, or as an answered goal that never moves |
| GoalExecution.RunDispatches | r2b4_orchestration/brain_core.py:1358-1404 | a node is dispatched at most once more than its retries, and a relative move or turn at most once |
| GoalExecution.EndedForGood | r2b4_orchestration/brain_core.py:996-999 | nothing that arrives after a goal ended changes it |
| BehaviorLifecycle.OneTerminalEvent | r2b4_orchestration/behavior_system.py:637-675 | over every interleaving, a started behavior that nothing still finishes has exactly one terminal event, a completion stands after its STOP and only if that STOP did not raise, and a running behavior has none |
| BehaviorLifecycle.LateResultsChangeNothing | r2b4_orchestration/behavior_system.py:471-523 | what a start or a step returns after its behavior ended changes neither snapshot nor generation nor history |
| BehaviorLifecycle.DurationReachedMeans | r2b4_orchestration/behavior_system.py:587-609 | a completion by requested duration was asked for, saw the execution start in its own mission's status, and the clock passed that start by the whole duration |
| BehaviorLifecycle.DecideSound | r2b4_orchestration/behavior_system.py:525-628 | a step's decision keeps the deadline tied to the execution start |
| BehaviorLifecycle.DeadlineIs | r2b4_orchestration/behavior_system.py:587-628 | over every interleaving, a running behavior's deadline is the duration asked for after its start, of execution once that is on record |
| BehaviorLifecycle.OverwriteIff | r2b4_orchestration/behavior_system.py:525-628 | a recorded start changes in a step of a running behavior exactly when the step observes, had captured another start and, if it had captured none, does not read the recorded one again |
| BehaviorLifecycle.StartKeptIff | r2b4_orchestration/behavior_system.py:525-628 | over a run a recorded start stays for the life of its behavior if and only if no step overwrites it so |
| BehaviorLifecycle.LateStepErasesStart | r2b4_orchestration/behavior_system.py:525-628 | a run in which a late step erases the recorded start |
| BehaviorLifecycle.StaleStartComesBack | r2b4_orchestration/behavior_system.py:525-628 | a run in which a late step brings an older start back |
| BehaviorLifecycle.DeadlineMovesOnce | r2b4_orchestration/behavior_system.py:587-628 | without overlapping steps an execution start once on record, and its deadline, stay for the life of the behavior |
| BehaviorLifecycle.OverlapMovesDeadlineTwice | r2b4_orchestration/behavior_system.py:525-609 | a run in which two overlapping steps move the deadline twice |
| BehaviorLifecycle.InterruptedStopCompletes | r2b4_orchestration/behavior_system.py:656-675 | a run in which an interrupted STOP is recorded as a completion |
| BehaviorLifecycle.IntentsWhileRunning | r2b4_orchestration/behavior_system.py:245-360 | a program's action is recorded only while its own behavior runs |
| BehaviorLifecycle.RevisionsIdentify | r2b4_orchestration/behavior_system.py:645-670 | every change of the snapshot raises its revision, so a revision names one snapshot |
| GoalTable.BrainCore.Submit | r2b4_orchestration/brain_core.py:344-371 | the method does what the specification of submission says |
| GoalTable.BrainCore.Adopt | r2b4_orchestration/brain_core.py:665-742 | the method does what the specification of adoption says, also where it raises half way |
| GoalTable.BrainCore.Fail | r2b4_orchestration/brain_core.py:1546-1571 | the method does what the specification of failure says |
| GoalTable.BrainCore.Revoke | r2b4_orchestration/brain_core.py:1586-1598 | the loop cancels every running goal and no other |
| GoalTable.SubmitRefused | r2b4_orchestration/brain_core.py:353-364 | submission is refused exactly for a known identity or a table of 32 goals without a finished one to drop |
| GoalTable.SubmitAdds | r2b4_orchestration/brain_core.py:356-371 | a submitted goal is pending and last in the input order; no running goal and no primary was dropped, and none changed |
| GoalTable.EvictedMeans | r2b4_orchestration/brain_core.py:356-362 | a full table loses its oldest finished goal that is not the primary |
| GoalTable.GoalsOwned | r2b4_orchestration/brain_core.py:665-742 | at most 32 goals, and a started goal is the primary or the one in the slot, which is of the current generation, in every run but those that put a goal in the slot while a teaching thread of this generation still carries its identity |
| GoalTable.ReplacementIncreases | r2b4_orchestration/brain_core.py:712-733 | a running primary gives way only to a higher priority, or the same priority and a later input; it is cancelled and the generation moves |
| GoalTable.FinishedForGood | r2b4_orchestration/brain_core.py:1549-1553 | a finished goal keeps its lifecycle while it is in the table and the slot does not name it |
| GoalTable.StepAbsorbs | r2b4_orchestration/brain_core.py:724-728 | one step changes a finished goal only while it is in the slot, and cancels it then |
| GoalTable.SlotGoalIsCancelled | r2b4_orchestration/brain_core.py:724-728 | an accepted primary cancels the slot's goal whatever it had become |
| GoalTable.ReuseLosesOwnerIff | r2b4_orchestration/brain_core.py:823-827 | a goal that enters the slot can lose its owner to a thread already there if and only if a teaching thread of the current generation carries its identity; otherwise the invariant holds after it |
| GoalTable.ReuseLosesOwnerRun | r2b4_orchestration/brain_core.py:356-371 | a run from the empty table, through eviction and reuse of the identity, that comes to this |
| GoalTable.PhysicalFailureEnds | r2b4_orchestration/brain_core.py:1555-1571 | a running physical goal is failed unless the slot names a goal that left the table |
| GoalTable.PhysicalFailureRaisesRun | r2b4_orchestration/brain_core.py:1555-1571 | a run in which a taught goal left the full table before its thread freed the slot, and the failure of the primary raises |
| HostRefinement.GoalTableAuthority | r2b4_orchestration/brain_core.py:996-999 | no step of the goal table revives a goal, and only an accepted adoption makes one run |
| HostRefinement.GoalTableRefines | r2b4_orchestration/brain_core.py:665-742 | each step of the goal table is nothing or one happening of the STOP protocol, an admission only for an adoption |
| HostRefinement.GoalTableRuns | r2b4_orchestration/brain_core.py:665-742 | every run of the goal table has a run of the protocol beside it that agrees with it in every state |
| HostRefinement.RevocationMatches | r2b4_orchestration/robot_runtime.py:928-935 | the protocol's revocation of the goal is the goal table's own |
| HostRefinement.BehaviorRefines | r2b4_orchestration/behavior_system.py:434-675 | each step of the behaviors is nothing, the end of a behavior, or the installing step of the protocol's thread that called for it, and that step exists |
| HostRefinement.BehaviorRuns | r2b4_orchestration/behavior_system.py:434-675 | every run of the behaviors has a run of the protocol beside it that agrees with it in every state |
| HostRefinement.OnlyInstallBegins | r2b4_orchestration/behavior_system.py:434-470 | only an installation begins a behavior |
| HostRefinement.BehaviorRevocationMatches | r2b4_orchestration/behavior_system.py:637-675 | the protocol's revocation of the behaviors is their own |
| EvidenceJournal.EvidenceQueue.Queue | r2b4_orchestration/robot_runtime.py:349-358 | a record is numbered and queued, or dropped when the queue is full or four world inputs wait |
| EvidenceJournal.EvidenceQueue.Take | r2b4_orchestration/robot_runtime.py:716-722 | a flush takes the whole queue and adds a record of unreported losses |
| EvidenceJournal.EvidenceQueue.Flush | r2b4_orchestration/robot_runtime.py:714-730 | the loop writes the lines of the batch in order up to the first that fails; a handled error counts that line and the rest as dropped, another one leaves without counting |
| EvidenceJournal.EvidenceBalances | r2b4_orchestration/robot_runtime.py:335-358 | at every moment each number is in exactly one place, and the counts balance exactly when no write raised an unhandled error |
| EvidenceJournal.JournalGaps | r2b4_orchestration/robot_runtime.py:714-730 | the journal strictly increases, and its gaps below what is on the way are exactly the dropped or lost numbers |
| EvidenceJournal.RecordedIsWritten | r2b4_orchestration/robot_runtime.py:1071-1079 | a RECORDED report has its own line in the journal exactly when the line was not lost to an unhandled error |
| EvidenceJournal.RecordedButLost | r2b4_orchestration/robot_runtime.py:723-730 | a run in which such an error leaves a RECORDED report without its line |
| EventRing.EventRing.Append | r2b4_orchestration/robot_runtime.py:445-449 | the ring holds the last 128 events of everything appended |
| EventRing.TakePage | r2b4_orchestration/robot_runtime.py:451-467 | the loop over the rows answers the specified page, and refuses a cursor or limit out of range |
| EventRing.EventRing.Events | r2b4_orchestration/robot_runtime.py:456-467 | the ring answers the page of its whole history |
| EventRing.EventClient.Poll | r2b4_orchestration/robot_sdk.py:168-177 | one request moves the cursor and queues the gap and the events of its page |
| EventRing.EventClient.Take | r2b4_orchestration/robot_sdk.py:163-164 | deliveries are handed out in the order they came, each once |
| EventRing.PageMeans | r2b4_orchestration/robot_runtime.py:451-467 | a page holds exactly the wanted retained events up to its next cursor, in order, and its loss is exactly what the ring has dropped |
| EventRing.GotInOrder | r2b4_orchestration/robot_sdk.py:152-181 | in every session the events come in order, each at most once, as they were appended |
| EventRing.GotExactly | r2b4_orchestration/robot_sdk.py:152-181 | up to the cursor an event is delivered exactly when its request wanted it and the ring still held it |
| EventRing.DeliveredPlusLost | r2b4_orchestration/robot_sdk.py:173-177 | without a filter, delivered and reported lost add up to the cursor |
| EventRing.LostExactly | r2b4_orchestration/robot_runtime.py:458-467 | the losses reported are exactly the events that were gone |
| OutcomeLearning.OutcomeLearner.Consume | r2b4_orchestration/outcome_learning.py:142-242 | the learner edits a copy and stores it as a whole, as specified |
| OutcomeLearning.AppliedShaped | r2b4_orchestration/outcome_learning.py:184-216 | an admitted outcome keeps every size bound, every key unique and every duration in range, before the check looks |
| OutcomeLearning.CommitsIff | r2b4_orchestration/outcome_learning.py:36-80 | the check of an admitted outcome fails exactly where a counter is full |
| OutcomeLearning.TriedMeans | r2b4_orchestration/outcome_learning.py:198-203 | the new mean lies between the old one and the sample, and is the sample on the first trial |
| OutcomeLearning.TrialsConserved | r2b4_orchestration/outcome_learning.py:192-216 | trials on record and trials of dropped methods add up to the qualified commits |
| OutcomeLearning.CommitsConserved | r2b4_orchestration/outcome_learning.py:187-217 | every commit is one revision and one outcome remembered or dropped |
| OutcomeLearning.CountedOnce | r2b4_orchestration/outcome_learning.py:182-187 | an event is counted at most once more than its producer's cursor was dropped |
| OutcomeLearning.EightProducersCountOnce | r2b4_orchestration/outcome_learning.py:182-187 | while at most eight producers appear no event is counted twice |
| OutcomeLearning.RankMeans | r2b4_orchestration/outcome_learning.py:113-119 | a ranking only reorders: by weight, then by the declared order |
| OutcomeLearning.NoEvidenceKeepsOrder | r2b4_orchestration/outcome_learning.py:109-119 | without enough evidence the declared order stays |
| PersonIdentity.FreshTracks | r2b4_orchestration/person_identity.py:93-113 | the loop finds the fresh tracks of a qualified status, or refuses an ambiguous one |
| PersonIdentity.FreshMeans | r2b4_orchestration/person_identity.py:93-113 | each fresh identity names exactly one fresh track of the status |
| PersonIdentity.PersonIdentity.CompletedStatus | r2b4_orchestration/person_identity.py:369-401 | every binding is kept, refreshed or dropped by what the status shows of its track, and the invariant holds |
| PersonIdentity.PersonIdentity.Teach | r2b4_orchestration/person_identity.py:195-298 | a taught person is bound to the chosen visible track in the status's context; every other outcome adds no one; the invariant holds |
| PersonIdentity.PersonIdentity.ValidateTarget | r2b4_orchestration/person_identity.py:403-423 | valid exactly for a binding that survives the status and matches; a mismatch drops it; the invariant holds |
| PersonIdentity.CompletedSound | r2b4_orchestration/person_identity.py:380-401 | after a completed status all bindings are of its context, no two share a track and there are at most 64 |
| PersonIdentity.AddSound | r2b4_orchestration/person_identity.py:247-251 | the two checks before a new binding are enough to keep tracks distinct and the bound |
| PoseRing.NativePoseFeedback.Publish | v3_hardware_runtime.py:290-306 | a pose is accepted exactly when its frame fits and its time is newer, and the ring is the last poses of the history |
| PoseRing.NativePoseFeedback.Lookup | v3_hardware_runtime.py:252-288 | the ring answers as a lookup by definition on the whole history, from its oldest pose on |
| PoseRing.NativePoseFeedback.Restore | v3_hardware_runtime.py:316-334 | a checkpoint is accepted exactly when it fits the owner and is in order, and becomes the ring |
| PoseRing.LookTail | v3_hardware_runtime.py:305-306 | poses that left the ring do not matter to a lookup from its oldest pose on |
| PoseRing.LookPoints | v3_hardware_runtime.py:266-288 | the pose that the bisection finds is the one of the definition |
| PoseRing.BlendBetween | v3_hardware_runtime.py:272-288 | an interpolated position lies between its neighbours at a fraction strictly inside, without division by zero |
| PoseRing.RoundTrip | v3_hardware_runtime.py:308-334 | a checkpoint put back gives the same poses |
| CapabilityPrompt.CapabilityPrompt | r2b4_orchestration/agent_tools.py:34-90 | the loops build the specified compressed form, or leave the catalogue as it is |
| CapabilityPrompt.PromptRoundTrip | r2b4_orchestration/agent_tools.py:69-90 | reading the prompt by its stated rule gives back every catalogue exactly; one that claims to be encoded is left as it is |
| CapabilityPrompt.PromptKeeps | r2b4_orchestration/agent_tools.py:66-90 | the prompt is never longer, and every other field is the same |
| CapabilityPrompt.DefaultMeans | r2b4_orchestration/agent_tools.py:55-67 | a default is shared by at least two descriptors and no other value of its field saves more |
| CapabilityPrompt.OverlayDiffering | r2b4_orchestration/agent_tools.py:79-89 | the fields that differ, over what is inherited, give the descriptor back |
| ControlScheduler.Run | v3_runtime.py:257-453 | over every prefix of every run deadlines stay on the grid and captures keep to theirs |
| ControlScheduler.Turn | v3_runtime.py:280-353 | a tick runs at the first reading that reaches its deadline; "did not advance" is raised exactly on a requested stop with the clock at the last tick |
| ControlScheduler.Reschedule | v3_runtime.py:448-453 | the next deadline is the least grid point after the completed tick |
| ControlScheduler.Observe | v3_runtime.py:378-431 | a record goes out when it is due and on every fault, and the next one is due later on the record grid |
| ControlScheduler.TickTimesIncrease | v3_runtime.py:292-300 | tick times and deadlines strictly increase |
| ControlScheduler.TickCount | v3_runtime.py:448-453 | all ticks but one fill a whole period each |
| ControlScheduler.CaptureCount | v3_runtime.py:421-426 | all scheduled captures but one fill a whole record period each |

## Left out

- Parsing of Hungarian and English text: the planner starts from parsed instructions.
- Sockets, subprocesses, files, signals, process affinity, speech, vision and language models: what they answer is an input.
- The planner's other plans (`_navigation_recovery`, person teaching, answers) and the merging of a specialist's steps: no new structure.
- Field checks of plan steps and nodes beyond the flags, actions and edges: `valid` stands for their verdict, and the planner's own rows are taken as valid.
- PlanAdmission.GraphPlan: what the other constraints demand of a list of actions is an arbitrary predicate on it.
- PlanAdmission.AdmittedAcyclic: the task graph's constructor refuses cycles as well; here admission is shown to refuse them without it.
- MotionSurplus.ListAcceptedIffTakenUp: amounts within the tolerance are covered by `MotionSurplus.ListAcceptedIff` alone.
- GoalExecution.RunFollows: the goal is one value that transitions replace; skill goals, origins and person validation appear only through their outcome.
- Behavior programs that issue commands from the poll loop without the action lock: the drain theorem is about the requests that take it, and about programs whose steps issue no command.
- StopProtocol.FinalStopDrains: a command and a STOP take effect at one point in time each, and the cleanup of a replaced skill process is only the chance that the request ends there.
- World queries and their references in behavior events, and the bound of the behavior history: the log here is unbounded.
- HostRefinement.BehaviorRuns: in the run of the protocol every behavior is started by a dispatch of its own; which request starts it is an input of `HostRefinement.BehaviorRefines`.
- GoalTable.GoalsOwned: runs with a haunted adoption are excluded, because ownership fails there as `GoalTable.ReuseLosesOwnerIff` says; restored goals are the initial table, of finished goals only; restoring into a table with a running primary is not modelled.
- GoalTable.BrainCore.Adopt: the skill lookup, the plan check and the STOP after the section under the lock are inputs or separate steps.
- The dispatch of a plan whose entry is `person.teach` outside the action lock.
- EvidenceJournal.EvidenceBalances: a line is written whole or not at all, and rendering a record, which follows its numbering, does not raise.
- EventRing.EventClient.Poll: one request of a client at a time, and timeouts leave no trace.
- OutcomeLearning.OutcomeLearner.Consume: the byte bound of the aggregate and the world store's acceptance are inputs; event identity, fingerprint and names are numbers.
- OutcomeLearning.RankMeans: ranking of places is the same sort over the rows of one person and is not repeated.
- PersonIdentity.PersonIdentity.Teach: names, aliases and the world store's answers are inputs; an error raised by the store in the middle of a status is not modelled.
- PoseRing.BlendBetween: the yaw of an interpolated pose is trigonometry and floating-point rounding is not modelled.
- CapabilityPrompt.PromptRoundTrip: JSON values are compared as encoded; the order of fields is not modelled.
- ControlScheduler.Run: the device reader's own tick time, timing statistics, checkpoints in records, captures made by a raising tick, and whether the shutdown after a requested stop succeeds, reports a fault or raises.
