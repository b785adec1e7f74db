/**
 Bounded executive proposals: a graph of task nodes joined by outcome edges.
*/
module TaskGraph {
  import opened MotionSequence
  import opened Options
  import opened Sets

  // A walk records the outcomes that lead from a node to another one; `true` follows a success edge and `false` a
  // failure edge.  Walks are the reference notion of "outcome path": they are defined on the graph alone and know
  // nothing of a worklist.

  // The identities the planner generates, and any other name.
  datatype NodeId = Place(index: nat) | Search(index: nat) | Step(index: nat) | Follow | Exhausted | Named(name: string)

  datatype NodeKind = ActionNode | WorldWait | Branch | Report

  datatype Action =
    | SearchPerson
    | SearchAnyPerson
    | FollowPerson
    | Motor(step: Step)
    | OtherAction(name: string)
    | NoAction

  datatype FailureCode =
    | NoPath | TargetLost | StaleWorld | CapabilityUnavailable | SafetyStop | RuntimeRestart | RuntimeFault
    | IdentityInvalid | Timeout | ContractFailure | ProcessCrash | TransportFailure | Cancelled
    | ConditionNotMet | ExecutionFailure

  // Only these may lead to an automatic retry or recovery.
  const RECOVERABLE: set<FailureCode> := {NoPath, TargetLost, Timeout, ExecutionFailure, ConditionNotMet}

  predicate Retryable(code: FailureCode) {
    code in RECOVERABLE
  }

  // `valid` is the verdict on the node's own parameters, completion and timeout.
  datatype RawNode = Node(kind: NodeKind, action: Action, bind: bool, use: bool,
                          onSuccess: Option<NodeId>, onFailure: Option<NodeId>,
                          failureCode: Option<FailureCode>, maxRetries: nat, failureOn: set<FailureCode>, valid: bool)

  // What the node constructor enforces.
  predicate WellTyped(n: RawNode) {
    && (n.kind != ActionNode ==> n.action == NoAction && !n.bind && !n.use && n.maxRetries == 0)
    && (n.failureCode.Some? ==> n.kind == Report)
    && (n.kind == Report ==> n.onSuccess.None? && n.onFailure.None?)
    && n.failureOn <= RECOVERABLE
  }

  type Node = n: RawNode | WellTyped(n)
    witness Node(Report, NoAction, false, false, None, None, None, 0, {}, true)

  datatype Graph = Graph(nodes: map<NodeId, Node>, entry: NodeId)

  predicate Searches(a: Action) {
    a == SearchPerson || a == SearchAnyPerson
  }

  // Relative moves and turns must report their own completion.
  predicate Finite(a: Action) {
    a.Motor? && (a.step.MoveRelative? || a.step.TurnBy?)
  }

  function StepOf(a: Action): Step {
    if a.Motor? then a.step else NoMotion
  }

  // ---------- walks ----------

  datatype Walk = Start | Then(before: Walk, outcome: bool)

  function Length(w: Walk): nat {
    if w.Start? then 0 else Length(w.before) + 1
  }

  function Append(v: Walk, u: Walk): (r: Walk)
    ensures Length(r) == Length(v) + Length(u)
  {
    if u.Start? then v else Then(Append(v, u.before), u.outcome)
  }

  predicate IsPrefix(p: Walk, w: Walk) {
    p == w || (w.Then? && IsPrefix(p, w.before))
  }

  function Edge(g: Graph, id: NodeId, outcome: bool): Option<NodeId> {
    if id !in g.nodes then None
    else if outcome then g.nodes[id].onSuccess else g.nodes[id].onFailure
  }

  function NodeAfter(g: Graph, from: NodeId, w: Walk): Option<NodeId> {
    match w
    case Start => Some(from)
    case Then(before, outcome) =>
      var id := NodeAfter(g, from, before);
      if id.None? then None else Edge(g, id.value, outcome)
  }

  predicate IsWalk(g: Graph, w: Walk) {
    NodeAfter(g, g.entry, w).Some?
  }

  function NodeAt(g: Graph, w: Walk): NodeId
    requires IsWalk(g, w)
  {
    NodeAfter(g, g.entry, w).value
  }

  lemma {:induction false} NodeAfterAppend(g: Graph, from: NodeId, v: Walk, u: Walk)
    ensures NodeAfter(g, from, Append(v, u))
            == if NodeAfter(g, from, v).None? then None else NodeAfter(g, NodeAfter(g, from, v).value, u)
  {
    if u.Then? {
      NodeAfterAppend(g, from, v, u.before);
    }
  }

  // The actions that succeeded along a walk, in order.
  function Succeeded(g: Graph, w: Walk): (ids: seq<NodeId>)
    requires IsWalk(g, w)
    ensures forall id | id in ids :: id in g.nodes && g.nodes[id].kind == ActionNode
    ensures |ids| <= Length(w)
  {
    match w
    case Start => []
    case Then(before, outcome) =>
      var id := NodeAt(g, before);
      Succeeded(g, before) + (if outcome && g.nodes[id].kind == ActionNode then [id] else [])
  }

  // A target is bound on a walk when some node that binds was left by its success edge.
  predicate BoundOn(g: Graph, w: Walk)
    requires IsWalk(g, w)
  {
    w.Then? && (BoundOn(g, w.before) || (w.outcome && g.nodes[NodeAt(g, w.before)].bind))
  }

  // A person search was left by either edge.
  predicate SearchedOn(g: Graph, w: Walk)
    requires IsWalk(g, w)
  {
    w.Then? && (SearchedOn(g, w.before) || Searches(g.nodes[NodeAt(g, w.before)].action))
  }

  // The node at `p` was left by its success edge on the way to `w`.
  ghost predicate LeftBySuccess(p: Walk, w: Walk) {
    IsPrefix(Then(p, true), w)
  }

  lemma {:induction false} BoundOnMeans(g: Graph, w: Walk)
    requires IsWalk(g, w)
    ensures BoundOn(g, w) <==>
            exists p :: LeftBySuccess(p, w) && IsWalk(g, p) && NodeAt(g, p) in g.nodes && g.nodes[NodeAt(g, p)].bind
  {
    if w.Then? {
      BoundOnMeans(g, w.before);
      forall p | LeftBySuccess(p, w) ensures LeftBySuccess(p, w.before) || (p == w.before && w.outcome) {
      }
      if w.outcome {
        assert LeftBySuccess(w.before, w);
      }
      forall p | LeftBySuccess(p, w.before) ensures LeftBySuccess(p, w) {
      }
    }
  }

  // What is left of a walk after one of its prefixes.
  function Suffix(p: Walk, w: Walk): (v: Walk)
    requires IsPrefix(p, w)
    ensures Append(p, v) == w && (p != w ==> v != Start)
  {
    if p == w then Start else Then(Suffix(p, w.before), w.outcome)
  }

  lemma {:induction false} SucceededIsVisited(g: Graph, w: Walk, id: NodeId) returns (p: Walk)
    requires IsWalk(g, w) && id in Succeeded(g, w)
    ensures IsPrefix(p, w) && p != w && IsWalk(g, p) && NodeAt(g, p) == id
  {
    p := w.before;
    assert IsPrefix(w.before, w);
    if NodeAt(g, w.before) != id {
      p := SucceededIsVisited(g, w.before, id);
      PrefixIsShorter(p, w.before);
    }
  }

  lemma {:induction false} PrefixIsShorter(p: Walk, w: Walk)
    requires IsPrefix(p, w)
    ensures Length(p) <= Length(w)
  {
    if p != w {
      PrefixIsShorter(p, w.before);
    }
  }

  // ---------- counting walks ----------

  ghost predicate AllWalks(g: Graph, ws: set<Walk>) {
    forall w :: w in ws <==> IsWalk(g, w)
  }

  ghost predicate AtMostWalks(g: Graph, bound: nat) {
    forall ws: set<Walk> :: (forall w | w in ws :: IsWalk(g, w)) ==> |ws| <= bound
  }

  lemma AllWalksBound(g: Graph, all: set<Walk>, bound: nat)
    requires AllWalks(g, all)
    ensures AtMostWalks(g, bound) <==> |all| <= bound
  {
    forall ws: set<Walk> | (forall w | w in ws :: IsWalk(g, w)) ensures |ws| <= |all| {
      SubsetSize(ws, all);
    }
  }

  function Repeated(w: Walk, v: Walk, k: nat): (r: Walk)
    ensures Length(r) == Length(w) + k * Length(v)
  {
    if k == 0 then w else Append(Repeated(w, v, k - 1), v)
  }

  ghost function Repetitions(w: Walk, v: Walk, k: nat): set<Walk> {
    if k == 0 then {w} else Repetitions(w, v, k - 1) + {Repeated(w, v, k)}
  }

  lemma {:induction false} RepetitionsAreWalks(g: Graph, w: Walk, v: Walk, k: nat)
    requires v != Start
    requires IsWalk(g, w) && NodeAfter(g, NodeAt(g, w), v) == Some(NodeAt(g, w))
    ensures |Repetitions(w, v, k)| == k + 1
    ensures forall x | x in Repetitions(w, v, k) :: IsWalk(g, x) && Length(x) <= Length(w) + k * Length(v)
    ensures IsWalk(g, Repeated(w, v, k)) && NodeAt(g, Repeated(w, v, k)) == NodeAt(g, w)
  {
    if k > 0 {
      RepetitionsAreWalks(g, w, v, k - 1);
      NodeAfterAppend(g, g.entry, Repeated(w, v, k - 1), v);
      assert k * Length(v) == (k - 1) * Length(v) + Length(v);
      assert Repeated(w, v, k) !in Repetitions(w, v, k - 1);
    }
  }

  // A cycle that some walk reaches makes the number of walks unbounded.
  lemma CycleUnbounded(g: Graph, w: Walk, v: Walk, bound: nat)
    requires v != Start
    requires IsWalk(g, w) && NodeAfter(g, NodeAt(g, w), v) == Some(NodeAt(g, w))
    ensures !AtMostWalks(g, bound)
  {
    RepetitionsAreWalks(g, w, v, bound);
    assert |Repetitions(w, v, bound)| > bound;
  }
}
