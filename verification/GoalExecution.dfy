/** One admitted goal at run time. */
module GoalExecution {
  import opened MotionSequence
  import opened Options
  import opened TaskGraph
  import opened PlanAdmission

  // Outcomes of the current node move the goal along its graph.  A goal snapshot is an immutable value that every
  // transition replaces, so a transition is a function of the snapshot and of what happened.  The environment is
  // unrestricted: any list of happenings is a run.

  datatype Lifecycle = Starting | Active | Completed | Failed | Cancelled

  datatype FailReason = TargetNeverBound | TargetChanged | Unrecoverable(code: FailureCode) | StopFailed | External

  datatype Event =
    | NodeReady(id: NodeId)
    | Dispatched(id: NodeId)
    | TargetBound(id: NodeId)
    | SubtaskCompleted(id: NodeId)
    | SubtaskFailed(id: NodeId, code: FailureCode)
    | BoundedRetry(id: NodeId)
    | GoalCompleted
    | GoalAnswered
    | GoalFailed(reason: FailReason)
    | GoalCancelled

  // The lock is released between the changes that one outcome makes; whatever ends the goal may come in between.
  datatype Phase =
    | Settled
    | Bound                        // the target is recorded, the subtask not yet
    | Left(next: NodeId)           // the subtask is recorded, its successor not yet ready
    | Failing(code: FailureCode)   // the failure is recorded, its recovery not yet decided

  datatype Goal = Goal(lifecycle: Lifecycle, node: NodeId, attempt: nat, targetBound: bool, events: seq<Event>,
                       phase: Phase)

  // What the robot, the world, the clock and the user can do to the goal.
  datatype Happening =
    | Start(targetCurrent: bool)                                  // the dispatcher starts the current node
    | Success(evidence: bool, inTime: bool)                       // the node's completion is observed
    | Failure(code: FailureCode)                                  // any failure, already classified
    | Proceed(inTime: bool, stops: bool)                          // the outcome observed last goes on
    | FailGoal(answered: bool)
    | Revoke

  predicate Running(s: Goal) {
    s.lifecycle == Starting || s.lifecycle == Active
  }

  predicate RequiresMotion(a: Action) {
    a != OtherAction("vision.observe") && a != OtherAction("v3.command.stop") && a != OtherAction("person.teach")
  }

  predicate Physical(g: Graph) {
    exists id | id in g.nodes :: g.nodes[id].kind == ActionNode && RequiresMotion(g.nodes[id].action)
  }

  function Adopted(g: Graph): Goal {
    Goal(Starting, g.entry, 0, false, [NodeReady(g.entry)], Settled)
  }

  function Record(s: Goal, e: Event): Goal {
    s.(events := s.events + [e])
  }

  function FailWith(g: Graph, s: Goal, reason: FailReason): Goal {
    Record(s, GoalFailed(reason)).(lifecycle := Failed)
  }

  function Answer(g: Graph, s: Goal): Goal {
    Record(s, GoalAnswered).(lifecycle := if Physical(g) then Failed else Completed)
  }

  function Transition(s: Goal, id: NodeId): Goal {
    Record(s, NodeReady(id)).(lifecycle := Starting, node := id, attempt := 0, phase := Settled)
  }

  // May this failure be recovered from?  A finite action may only hand over to a reported failure.
  predicate Recoverable(g: Graph, s: Goal, code: FailureCode)
    requires s.node in g.nodes
  {
    var n := g.nodes[s.node];
    && Retryable(code)
    && code in n.failureOn
    && (Finite(n.action) ==>
          && n.onFailure.Some? && n.onFailure.value in g.nodes
          && g.nodes[n.onFailure.value].kind == Report && g.nodes[n.onFailure.value].failureCode.Some?)
  }

  function FailNode(s: Goal, code: FailureCode): Goal {
    Record(s, SubtaskFailed(s.node, code)).(phase := Failing(code))
  }

  // A recorded failure is retried, handed over, or ends the goal; a recovery starts with a STOP.
  function Recover(g: Graph, s: Goal, code: FailureCode, stops: bool): Goal
    requires s.node in g.nodes
  {
    var n := g.nodes[s.node];
    var allowed := Recoverable(g, s, code);
    var retry := allowed && s.attempt < n.maxRetries && !Finite(n.action);
    if retry || (allowed && n.onFailure.Some?) then
      if !stops then FailWith(g, s, StopFailed)
      else if retry then
        Record(s, BoundedRetry(s.node)).(lifecycle := Starting, attempt := s.attempt + 1, phase := Settled)
      else Transition(s, n.onFailure.value)
    else FailWith(g, s, Unrecoverable(code))
  }

  function Advance(g: Graph, s0: Goal, inTime: bool): Goal
    requires s0.node in g.nodes
  {
    if !inTime then FailNode(s0, Timeout)
    else
      var s := Record(s0, SubtaskCompleted(s0.node));
      match g.nodes[s0.node].onSuccess
      case None => Record(s, GoalCompleted).(lifecycle := Completed)
      case Some(next) => s.(phase := Left(next))
  }

  // Starting an action dispatches it; a control node only becomes ready to be decided.
  function StartNode(g: Graph, s: Goal, targetCurrent: bool): Goal
    requires s.node in g.nodes
  {
    var n := g.nodes[s.node];
    if n.kind != ActionNode then s.(lifecycle := Active)
    else if n.use && !s.targetBound then FailWith(g, s, TargetNeverBound)
    else if n.use && !targetCurrent then FailWith(g, s, TargetChanged)
    else Record(s, Dispatched(s.node)).(lifecycle := Active)
  }

  function Succeed(g: Graph, s: Goal, evidence: bool, inTime: bool): Goal
    requires s.node in g.nodes
  {
    var n := g.nodes[s.node];
    if n.kind == Report && n.failureCode.Some? then FailNode(s, n.failureCode.value)
    else if n.bind && !evidence then FailNode(s, IdentityInvalid)
    else if n.bind then Record(s, TargetBound(s.node)).(targetBound := true, phase := Bound)
    else Advance(g, s, inTime)
  }

  function GoOn(g: Graph, s: Goal, inTime: bool, stops: bool): Goal
    requires s.node in g.nodes
  {
    match s.phase
    case Settled => s
    case Bound => Advance(g, s, inTime)
    case Left(next) => Transition(s, next)
    case Failing(code) => Recover(g, s, code, stops)
  }

  function Next(g: Graph, s: Goal, h: Happening): Goal {
    if !Running(s) then s
    else
      match h
      case FailGoal(answered) => if answered then Answer(g, s) else FailWith(g, s, External)
      case Revoke => Record(s, GoalCancelled).(lifecycle := Lifecycle.Cancelled)
      case Start(targetCurrent) =>
        if s.node in g.nodes && s.lifecycle == Starting && s.phase.Settled? then StartNode(g, s, targetCurrent) else s
      case Success(evidence, inTime) =>
        if s.node in g.nodes && s.lifecycle == Active && s.phase.Settled? then Succeed(g, s, evidence, inTime) else s
      case Failure(code) =>
        if s.node in g.nodes && (s.phase.Settled? || s.phase.Bound?) then FailNode(s, code) else s
      case Proceed(inTime, stops) =>
        if s.node in g.nodes then GoOn(g, s, inTime, stops) else s
  }

  function Run(g: Graph, happenings: seq<Happening>): Goal {
    if happenings == [] then Adopted(g)
    else Next(g, Run(g, happenings[..|happenings| - 1]), happenings[|happenings| - 1])
  }

  // ---------- what the record says ----------

  // The actions recorded as completed, in order.
  function CompletedIn(g: Graph, events: seq<Event>): seq<NodeId> {
    if events == [] then []
    else
      var e := events[|events| - 1];
      CompletedIn(g, events[..|events| - 1])
      + (if e.SubtaskCompleted? && e.id in g.nodes && g.nodes[e.id].kind == ActionNode then [e.id] else [])
  }

  function DispatchCount(events: seq<Event>, id: NodeId): nat {
    if events == [] then 0
    else DispatchCount(events[..|events| - 1], id) + (if events[|events| - 1] == Dispatched(id) then 1 else 0)
  }

  predicate IsBinding(g: Graph, e: Event) {
    e.TargetBound? && e.id in g.nodes && g.nodes[e.id].bind
  }

  predicate Uses(g: Graph, e: Event) {
    e.Dispatched? && e.id in g.nodes && g.nodes[e.id].use
  }

  predicate HasBinding(g: Graph, events: seq<Event>) {
    exists i :: 0 <= i < |events| && IsBinding(g, events[i])
  }

  // Every dispatch of a node that uses a target came after a node that binds recorded the target.
  predicate DispatchesBound(g: Graph, events: seq<Event>) {
    forall i | 0 <= i < |events| && Uses(g, events[i]) :: HasBinding(g, events[..i])
  }

  lemma RecordStep(g: Graph, s: Goal, e: Event)
    ensures CompletedIn(g, Record(s, e).events) == CompletedIn(g, s.events)
      + (if e.SubtaskCompleted? && e.id in g.nodes && g.nodes[e.id].kind == ActionNode then [e.id] else [])
    ensures forall id :: DispatchCount(Record(s, e).events, id)
                         == DispatchCount(s.events, id) + (if e == Dispatched(id) then 1 else 0)
    ensures HasBinding(g, Record(s, e).events) == (HasBinding(g, s.events) || IsBinding(g, e))
    ensures DispatchesBound(g, s.events) && (Uses(g, e) ==> HasBinding(g, s.events))
            ==> DispatchesBound(g, Record(s, e).events)
  {
    var events := Record(s, e).events;
    assert events[..|s.events|] == s.events;
    forall i | 0 <= i <= |s.events| ensures events[..i] == s.events[..i] {
    }
    if HasBinding(g, s.events) {
      var i :| 0 <= i < |s.events| && IsBinding(g, s.events[i]);
      assert IsBinding(g, events[i]);
    }
    if IsBinding(g, e) {
      assert IsBinding(g, events[|s.events|]);
    }
  }

  // ---------- the run follows a walk ----------

  // The nodes of a walk before its last one.
  predicate Passed(g: Graph, w: Walk, id: NodeId)
    requires IsWalk(g, w)
  {
    w.Then? && (NodeAt(g, w.before) == id || Passed(g, w.before, id))
  }

  function Limit(g: Graph, id: NodeId): nat
    requires id in g.nodes
  {
    if Finite(g.nodes[id].action) then 1 else g.nodes[id].maxRetries + 1
  }

  // Once its subtask is recorded, the goal is on its way along the success edge.
  ghost predicate InPhase(g: Graph, s: Goal, w: Walk)
    requires IsWalk(g, w)
  {
    match s.phase
    case Left(next) =>
      && NodeAfter(g, g.entry, Then(w, true)) == Some(next)
      && (BoundOn(g, Then(w, true)) ==> s.targetBound)
      && CompletedIn(g, s.events) == Succeeded(g, Then(w, true))
    case _ =>
      && CompletedIn(g, s.events) == Succeeded(g, w)
      && (s.phase.Bound? ==> s.targetBound && s.node in g.nodes && g.nodes[s.node].failureCode.None?)
  }

  // While it runs, the goal stands where the walk ends, with the walk's completed actions and binding.
  ghost predicate Follows(g: Graph, s: Goal, w: Walk) {
    && IsWalk(g, w)
    && NodeAt(g, w) == s.node
    && (BoundOn(g, w) ==> s.targetBound)
    && (s.targetBound ==> HasBinding(g, s.events))
    && DispatchesBound(g, s.events)
    && GoalFailed(TargetNeverBound) !in s.events
    && (GoalCompleted in s.events ==> s.lifecycle == Completed)
    && (Running(s) ==> InPhase(g, s, w))
    && (s.lifecycle == Completed ==>
          || (GoalCompleted in s.events && Completes(g, w) && CompletedIn(g, s.events) == CompletedActions(g, w))
          || (GoalAnswered in s.events && !Physical(g)))
  }

  // Each node is dispatched at most once more than its retry budget, and never again after it was left.
  ghost predicate Budgeted(g: Graph, s: Goal, w: Walk) {
    && IsWalk(g, w)
    && NodeAt(g, w) == s.node
    && (forall id | id in g.nodes :: DispatchCount(s.events, id) <= Limit(g, id))
    && (forall id | id != s.node && !Passed(g, w, id) :: DispatchCount(s.events, id) == 0)
    && (Running(s) && s.node in g.nodes ==>
          && s.attempt < Limit(g, s.node)
          && DispatchCount(s.events, s.node) <= s.attempt + (if s.lifecycle == Active then 1 else 0))
  }

  // ---------- every step keeps both ----------

  lemma PassedIsVisited(g: Graph, w: Walk, id: NodeId) returns (p: Walk)
    requires IsWalk(g, w) && Passed(g, w, id)
    ensures IsPrefix(p, w) && p != w && IsWalk(g, p) && NodeAt(g, p) == id
  {
    if NodeAt(g, w.before) == id {
      p := w.before;
    } else {
      p := PassedIsVisited(g, w.before, id);
    }
    assert IsPrefix(p, w.before);
    PrefixIsShorter(p, w.before);
    assert Length(w) == Length(w.before) + 1;
  }

  // What a run needs of the graph: no walk leaves it, lacks a binding, or returns to a node it passed.
  ghost predicate Sound(g: Graph) {
    forall w | IsWalk(g, w) :: SoundAt(g, w)
  }

  predicate SoundAt(g: Graph, w: Walk)
    requires IsWalk(g, w)
  {
    && NodeAt(g, w) in g.nodes
    && (g.nodes[NodeAt(g, w)].use ==> BoundOn(g, w))
    && !Passed(g, w, NodeAt(g, w))
  }

  lemma AdmissibleIsSound(g: Graph, d: Demand)
    requires Admissible(g, d)
    ensures Sound(g)
  {
    forall w | IsWalk(g, w) ensures SoundAt(g, w) {
      assert EntryAllowed(g, EntryOf(g, w), d);
      if Passed(g, w, NodeAt(g, w)) {
        var p := PassedIsVisited(g, w, NodeAt(g, w));
        NodeAfterAppend(g, g.entry, p, Suffix(p, w));
        AdmittedAcyclic(g, d, p, Suffix(p, w));
      }
    }
  }

  // Events that neither dispatch nor complete anything leave the bookkeeping alone.
  predicate Neutral(e: Event) {
    e.NodeReady? || e.SubtaskFailed? || e.BoundedRetry? || e.GoalCancelled? || e.GoalAnswered?
    || (e.GoalFailed? && e.reason != TargetNeverBound)
  }

  lemma NeutralFollows(g: Graph, s: Goal, e: Event, w: Walk)
    requires Neutral(e) && Follows(g, s, w) && Running(s)
    ensures Follows(g, Record(s, e), w)
  {
    RecordStep(g, s, e);
  }

  lemma NeutralBudgeted(g: Graph, s: Goal, e: Event, w: Walk)
    requires Neutral(e) && Budgeted(g, s, w)
    ensures Budgeted(g, Record(s, e), w)
  {
    RecordStep(g, s, e);
  }

  lemma NeutralStep(g: Graph, s: Goal, e: Event, w: Walk)
    requires Neutral(e) && Follows(g, s, w) && Budgeted(g, s, w) && Running(s)
    ensures Follows(g, Record(s, e), w) && Budgeted(g, Record(s, e), w)
  {
    NeutralFollows(g, s, e, w);
    NeutralBudgeted(g, s, e, w);
  }

  lemma EndFollows(g: Graph, s: Goal, e: Event, w: Walk, lifecycle: Lifecycle)
    requires Neutral(e) && Follows(g, s, w) && Running(s)
    requires lifecycle in {Failed, Lifecycle.Cancelled} || (lifecycle == Completed && e.GoalAnswered? && !Physical(g))
    ensures Follows(g, Record(s, e).(lifecycle := lifecycle), w)
  {
    RecordStep(g, s, e);
    assert e in Record(s, e).events;
  }

  lemma EndStep(g: Graph, s: Goal, e: Event, w: Walk, lifecycle: Lifecycle)
    requires Neutral(e) && Follows(g, s, w) && Budgeted(g, s, w) && Running(s)
    requires lifecycle in {Failed, Lifecycle.Cancelled} || (lifecycle == Completed && e.GoalAnswered? && !Physical(g))
    ensures var t := Record(s, e).(lifecycle := lifecycle); Follows(g, t, w) && Budgeted(g, t, w)
  {
    EndFollows(g, s, e, w, lifecycle);
    RecordStep(g, s, e);
  }

  lemma TransitionFollows(g: Graph, s: Goal, v: Walk, id: NodeId)
    requires IsWalk(g, v) && NodeAt(g, v) == id && Running(s)
    requires DispatchesBound(g, s.events) && (s.targetBound ==> HasBinding(g, s.events))
    requires GoalFailed(TargetNeverBound) !in s.events && GoalCompleted !in s.events
    requires BoundOn(g, v) ==> s.targetBound
    requires CompletedIn(g, s.events) == Succeeded(g, v)
    ensures Follows(g, Transition(s, id), v)
  {
    RecordStep(g, s, NodeReady(id));
  }

  lemma TransitionBudgeted(g: Graph, s: Goal, w: Walk, outcome: bool, id: NodeId)
    requires Sound(g) && IsWalk(g, Then(w, outcome)) && NodeAt(g, Then(w, outcome)) == id
    requires IsWalk(g, w) && s.node == NodeAt(g, w)
    requires forall x | x in g.nodes :: DispatchCount(s.events, x) <= Limit(g, x)
    requires forall x | x != s.node && !Passed(g, w, x) :: DispatchCount(s.events, x) == 0
    ensures Budgeted(g, Transition(s, id), Then(w, outcome))
  {
    RecordStep(g, s, NodeReady(id));
    assert SoundAt(g, Then(w, outcome));
  }

  // One more attempt, within the budget.
  lemma RetryStep(g: Graph, s: Goal, w: Walk)
    requires Follows(g, s, w) && Budgeted(g, s, w) && Running(s) && s.node in g.nodes && s.phase.Failing?
    requires s.attempt < g.nodes[s.node].maxRetries && !Finite(g.nodes[s.node].action)
    ensures var n := s.attempt + 1;
            var t := Record(s, BoundedRetry(s.node)).(lifecycle := Starting, attempt := n, phase := Settled);
      Follows(g, t, w) && Budgeted(g, t, w)
  {
    NeutralStep(g, s, BoundedRetry(s.node), w);
  }

  lemma FailNodeStep(g: Graph, s: Goal, code: FailureCode, w: Walk)
    requires Follows(g, s, w) && Budgeted(g, s, w) && Running(s) && !s.phase.Left?
    ensures var t := FailNode(s, code); Follows(g, t, w) && Budgeted(g, t, w)
  {
    NeutralStep(g, s, SubtaskFailed(s.node, code), w);
  }

  lemma HandOverStep(g: Graph, s: Goal, w: Walk, id: NodeId)
    requires Sound(g) && Follows(g, s, w) && Budgeted(g, s, w) && Running(s) && s.phase.Failing?
    requires s.node in g.nodes && g.nodes[s.node].onFailure == Some(id)
    ensures var t := Transition(s, id); Follows(g, t, Then(w, false)) && Budgeted(g, t, Then(w, false))
  {
    TransitionFollows(g, s, Then(w, false), id);
    TransitionBudgeted(g, s, w, false, id);
  }

  lemma RecoverStep(g: Graph, s: Goal, code: FailureCode, stops: bool, w: Walk)
      returns (v: Walk)
    requires Sound(g) && Follows(g, s, w) && Budgeted(g, s, w) && Running(s) && s.node in g.nodes && s.phase.Failing?
    ensures var t := Recover(g, s, code, stops); Follows(g, t, v) && Budgeted(g, t, v)
  {
    var n := g.nodes[s.node];
    var allowed := Recoverable(g, s, code);
    var retry := allowed && s.attempt < n.maxRetries && !Finite(n.action);
    v := w;
    if retry || (allowed && n.onFailure.Some?) {
      if !stops {
        EndStep(g, s, GoalFailed(StopFailed), w, Failed);
      } else if retry {
        RetryStep(g, s, w);
      } else {
        v := Then(w, false);
        HandOverStep(g, s, w, n.onFailure.value);
      }
    } else {
      EndStep(g, s, GoalFailed(Unrecoverable(code)), w, Failed);
    }
  }

  lemma CompletionStep(g: Graph, s: Goal, w: Walk)
    requires Sound(g) && IsWalk(g, w) && NodeAt(g, w) == s.node && Completes(g, w) && Running(s)
    requires Budgeted(g, s, w)
    requires DispatchesBound(g, s.events) && (s.targetBound ==> HasBinding(g, s.events))
    requires BoundOn(g, w) ==> s.targetBound
    requires GoalFailed(TargetNeverBound) !in s.events
    requires CompletedIn(g, s.events) == CompletedActions(g, w)
    ensures var t := Record(s, GoalCompleted).(lifecycle := Completed); Follows(g, t, w) && Budgeted(g, t, w)
  {
    RecordStep(g, s, GoalCompleted);
    assert GoalCompleted in Record(s, GoalCompleted).events;
  }

  lemma SubtaskStep(g: Graph, s: Goal, w: Walk)
    requires Follows(g, s, w) && Budgeted(g, s, w) && Running(s) && s.node in g.nodes && !s.phase.Left?
    ensures var t := Record(s, SubtaskCompleted(s.node));
      && Budgeted(g, t, w) && DispatchesBound(g, t.events) && (t.targetBound ==> HasBinding(g, t.events))
      && GoalFailed(TargetNeverBound) !in t.events && GoalCompleted !in t.events
      && CompletedIn(g, t.events)
         == Succeeded(g, w) + (if g.nodes[s.node].kind == ActionNode then [s.node] else [])
  {
    RecordStep(g, s, SubtaskCompleted(s.node));
  }

  // The subtask is recorded and its successor is known.
  lemma LeaveStep(g: Graph, s0: Goal, w: Walk, next: NodeId)
    requires Follows(g, s0, w) && Budgeted(g, s0, w) && Running(s0) && s0.node in g.nodes && !s0.phase.Left?
    requires (g.nodes[s0.node].bind ==> s0.targetBound) && g.nodes[s0.node].onSuccess == Some(next)
    ensures var t := Record(s0, SubtaskCompleted(s0.node)).(phase := Left(next)); Follows(g, t, w) && Budgeted(g, t, w)
  {
    SubtaskStep(g, s0, w);
  }

  lemma AdvanceStep(g: Graph, s0: Goal, inTime: bool, w: Walk)
    requires Follows(g, s0, w) && Budgeted(g, s0, w) && Running(s0) && s0.node in g.nodes && !s0.phase.Left?
    requires Sound(g) && (g.nodes[s0.node].bind ==> s0.targetBound) && g.nodes[s0.node].failureCode.None?
    ensures var t := Advance(g, s0, inTime); Follows(g, t, w) && Budgeted(g, t, w)
  {
    if !inTime {
      FailNodeStep(g, s0, Timeout, w);
    } else if g.nodes[s0.node].onSuccess.Some? {
      LeaveStep(g, s0, w, g.nodes[s0.node].onSuccess.value);
    } else {
      SubtaskStep(g, s0, w);
      CompletionStep(g, Record(s0, SubtaskCompleted(s0.node)), w);
    }
  }

  lemma TransitionStep(g: Graph, s: Goal, w: Walk)
    requires Sound(g) && Follows(g, s, w) && Budgeted(g, s, w) && Running(s) && s.phase.Left?
    ensures var t := Transition(s, s.phase.next); Follows(g, t, Then(w, true)) && Budgeted(g, t, Then(w, true))
  {
    TransitionFollows(g, s, Then(w, true), s.phase.next);
    TransitionBudgeted(g, s, w, true, s.phase.next);
  }

  // An admitted graph never leads to a user of a target without a target: the run-time check cannot fail.
  lemma BoundWhenUsed(g: Graph, s: Goal, w: Walk)
    requires Sound(g) && Follows(g, s, w)
    ensures s.node in g.nodes && (g.nodes[s.node].use ==> s.targetBound)
  {
    assert SoundAt(g, w);
  }

  lemma DispatchFollows(g: Graph, s: Goal, t: Goal, w: Walk)
    requires Follows(g, s, w) && s.lifecycle == Starting && s.node in g.nodes && s.phase.Settled?
    requires g.nodes[s.node].use ==> s.targetBound
    requires t == Record(s, Dispatched(s.node)).(lifecycle := Active)
    ensures Follows(g, t, w)
  {
    RecordStep(g, s, Dispatched(s.node));
  }

  lemma DispatchBudgeted(g: Graph, s: Goal, t: Goal, w: Walk)
    requires Budgeted(g, s, w) && s.lifecycle == Starting && s.node in g.nodes
    requires t == Record(s, Dispatched(s.node)).(lifecycle := Active)
    ensures Budgeted(g, t, w)
  {
    RecordStep(g, s, Dispatched(s.node));
    forall id ensures DispatchCount(t.events, id) == DispatchCount(s.events, id) + (if id == s.node then 1 else 0) {
    }
  }

  lemma StartStep(g: Graph, s: Goal, targetCurrent: bool, w: Walk)
    requires Sound(g) && Follows(g, s, w) && Budgeted(g, s, w) && s.lifecycle == Starting && s.node in g.nodes
    requires s.phase.Settled?
    ensures var t := StartNode(g, s, targetCurrent); Follows(g, t, w) && Budgeted(g, t, w)
  {
    BoundWhenUsed(g, s, w);
    var n := g.nodes[s.node];
    if n.kind == ActionNode {
      if n.use && !targetCurrent {
        EndStep(g, s, GoalFailed(TargetChanged), w, Failed);
      } else {
        var t := StartNode(g, s, targetCurrent);
        DispatchFollows(g, s, t, w);
        DispatchBudgeted(g, s, t, w);
      }
    }
  }

  lemma SucceedStep(g: Graph, s: Goal, evidence: bool, inTime: bool, w: Walk)
    requires Sound(g) && Follows(g, s, w) && Budgeted(g, s, w) && Running(s) && s.node in g.nodes && s.phase.Settled?
    ensures var t := Succeed(g, s, evidence, inTime); Follows(g, t, w) && Budgeted(g, t, w)
  {
    var n := g.nodes[s.node];
    if n.kind == Report && n.failureCode.Some? {
      FailNodeStep(g, s, n.failureCode.value, w);
    } else if n.bind && !evidence {
      FailNodeStep(g, s, IdentityInvalid, w);
    } else if n.bind {
      RecordStep(g, s, TargetBound(s.node));
    } else {
      AdvanceStep(g, s, inTime, w);
    }
  }

  lemma GoOnStep(g: Graph, s: Goal, inTime: bool, stops: bool, w: Walk) returns (v: Walk)
    requires Sound(g) && Follows(g, s, w) && Budgeted(g, s, w) && Running(s) && s.node in g.nodes
    ensures var t := GoOn(g, s, inTime, stops); Follows(g, t, v) && Budgeted(g, t, v)
  {
    v := w;
    match s.phase {
      case Settled =>
      case Bound =>
        AdvanceStep(g, s, inTime, w);
      case Left(next) =>
        v := Then(w, true);
        TransitionStep(g, s, w);
      case Failing(code) =>
        v := RecoverStep(g, s, code, stops, w);
    }
  }

  lemma NextStep(g: Graph, s: Goal, h: Happening, w: Walk) returns (v: Walk)
    requires Sound(g) && Follows(g, s, w) && Budgeted(g, s, w)
    ensures Follows(g, Next(g, s, h), v) && Budgeted(g, Next(g, s, h), v)
  {
    v := w;
    if Running(s) {
      BoundWhenUsed(g, s, w);
      match h {
        case FailGoal(answered) =>
          if answered {
            EndStep(g, s, GoalAnswered, w, if Physical(g) then Failed else Completed);
          } else {
            EndStep(g, s, GoalFailed(External), w, Failed);
          }
        case Revoke =>
          EndStep(g, s, GoalCancelled, w, Lifecycle.Cancelled);
        case Start(targetCurrent) =>
          if s.lifecycle == Starting && s.phase.Settled? {
            StartStep(g, s, targetCurrent, w);
          }
        case Success(evidence, inTime) =>
          if s.lifecycle == Active && s.phase.Settled? {
            SucceedStep(g, s, evidence, inTime, w);
          }
        case Failure(code) =>
          if s.phase.Settled? || s.phase.Bound? {
            FailNodeStep(g, s, code, w);
          }
        case Proceed(inTime, stops) =>
          v := GoOnStep(g, s, inTime, stops, w);
      }
    }
  }

  // ---------- the main results, for every run of every admitted graph ----------

  lemma OneReady(g: Graph, id: NodeId)
    ensures var events := [NodeReady(id)];
      && CompletedIn(g, events) == [] && (forall x :: DispatchCount(events, x) == 0)
      && !HasBinding(g, events) && DispatchesBound(g, events)
  {
    var events := [NodeReady(id)];
    assert events[..0] == [];
    assert CompletedIn(g, []) == [] && forall x :: DispatchCount([], x) == 0;
  }

  lemma AdoptedFollows(g: Graph)
    ensures Follows(g, Adopted(g), Walk.Start) && Budgeted(g, Adopted(g), Walk.Start)
  {
    OneReady(g, g.entry);
  }

  lemma {:induction false} RunFollows(g: Graph, d: Demand, happenings: seq<Happening>) returns (w: Walk)
    requires Admissible(g, d)
    ensures Follows(g, Run(g, happenings), w) && Budgeted(g, Run(g, happenings), w)
  {
    AdmissibleIsSound(g, d);
    if happenings == [] {
      w := Walk.Start;
      AdoptedFollows(g);
    } else {
      var v := RunFollows(g, d, happenings[..|happenings| - 1]);
      w := NextStep(g, Run(g, happenings[..|happenings| - 1]), happenings[|happenings| - 1], v);
    }
  }

  // A target-using node is dispatched only after an earlier binding, and never fails for want of one.
  lemma RunBindings(g: Graph, d: Demand, happenings: seq<Happening>)
    requires Admissible(g, d)
    ensures DispatchesBound(g, Run(g, happenings).events)
    ensures GoalFailed(TargetNeverBound) !in Run(g, happenings).events
  {
    var w := RunFollows(g, d, happenings);
  }

  // The goal completes only with its completed actions forming one admitted success path, which does the
  // user's whole motion; or because a goal that never moves was answered.
  lemma RunCompletion(g: Graph, d: Demand, happenings: seq<Happening>)
    requires Admissible(g, d) && Run(g, happenings).lifecycle == Completed
    ensures var s := Run(g, happenings);
      || (GoalAnswered in s.events && !Physical(g))
      || (GoalCompleted in s.events
          && exists w :: Completes(g, w) && CompletedIn(g, s.events) == CompletedActions(g, w) && DemandKept(g, w, d)
                         && (d.motion.Some? ==> Accepts(StepsOf(g, CompletedActions(g, w)), d.motion.value)))
  {
    var w := RunFollows(g, d, happenings);
    if Completes(g, w) {
      assert Allowed(g, d, w);
      if d.motion.Some? {
        AdmittedMotion(g, d, w);
      }
    }
  }

  // Retries are bounded, and a relative move or turn is never commanded twice for one node.
  lemma RunDispatches(g: Graph, d: Demand, happenings: seq<Happening>, id: NodeId)
    requires Admissible(g, d) && id in g.nodes
    ensures DispatchCount(Run(g, happenings).events, id)
            <= if Finite(g.nodes[id].action) then 1 else g.nodes[id].maxRetries + 1
  {
    var w := RunFollows(g, d, happenings);
  }

  // Whatever arrives after the goal ended changes nothing.
  lemma {:induction false} EndedForGood(g: Graph, before: seq<Happening>, after: seq<Happening>)
    requires !Running(Run(g, before))
    ensures Run(g, before + after) == Run(g, before)
    decreases |after|
  {
    if after == [] {
      assert before + after == before;
    } else {
      var init := after[..|after| - 1];
      assert (before + after)[..|before + after| - 1] == before + init;
      EndedForGood(g, before, init);
    }
  }
}
