/**
 The planner's "search, follow whoever is found, and come back": a chain of steps with one way out.

 Only the search may fail over, to a report that no one was found; the follow uses the target that the search binds.
*/
module SearchFollowReturn {
  import opened MotionSequence
  import opened Options
  import opened Sets
  import opened TaskGraph
  import opened PlanAdmission

  const MAX_ROWS := 30

  // One planned step; `home` marks the way back to the origin.
  datatype Row = Row(action: Action, home: bool)

  predicate Follows(a: Action) {
    a == FollowPerson
  }

  predicate EndsHome(rows: seq<Row>) {
    rows != [] && rows[|rows| - 1].home
  }

  // One search, one later follow, and a return at the end.
  predicate IsTour(rows: seq<Row>, s: nat, f: nat) {
    && s < f < |rows| <= MAX_ROWS && EndsHome(rows)
    && Searches(rows[s].action) && Follows(rows[f].action)
    && forall i | 0 <= i < |rows| :: (Searches(rows[i].action) ==> i == s) && (Follows(rows[i].action) ==> i == f)
  }

  function TourNode(rows: seq<Row>, s: nat, f: nat, k: nat): Node
    requires k < |rows|
  {
    RawNode.Node(ActionNode, rows[k].action, k == s, k == f, if k + 1 < |rows| then Some(NodeId.Step(k + 1)) else None,
      if k == s then Some(Exhausted) else None, None, 0,
      if k == s then {TargetLost} else RECOVERABLE, true)
  }

  function NotFoundNode(): Node {
    RawNode.Node(Report, NoAction, false, false, None, None, Some(TargetLost), 0,
      RECOVERABLE, true)
  }

  predicate StepBelow(id: NodeId, count: nat) {
    id.Step? && id.index < count
  }

  function TourNodeOf(rows: seq<Row>, s: nat, f: nat, id: NodeId): Node
    requires StepBelow(id, |rows|) || id == Exhausted
  {
    if id.Step? then TourNode(rows, s, f, id.index) else NotFoundNode()
  }

  ghost predicate TourGraph(g: Graph, rows: seq<Row>, s: nat, f: nat) {
    && g.entry == NodeId.Step(0)
    && (forall id :: id in g.nodes <==> StepBelow(id, |rows|) || id == Exhausted)
    && (forall id | id in g.nodes :: g.nodes[id] == TourNodeOf(rows, s, f, id))
  }

  method Occurrences(rows: seq<Row>) returns (searches: seq<nat>, follows: seq<nat>)
    ensures forall i: nat :: i in searches <==> i < |rows| && Searches(rows[i].action)
    ensures forall i: nat :: i in follows <==> i < |rows| && Follows(rows[i].action)
    ensures forall i, j | 0 <= i < j < |searches| :: searches[i] < searches[j]
    ensures forall i, j | 0 <= i < j < |follows| :: follows[i] < follows[j]
  {
    searches, follows := [], [];
    for k := 0 to |rows|
      invariant forall i: nat :: i in searches <==> i < k && Searches(rows[i].action)
      invariant forall i: nat :: i in follows <==> i < k && Follows(rows[i].action)
      invariant forall i, j | 0 <= i < j < |searches| :: searches[i] < searches[j]
      invariant forall i, j | 0 <= i < j < |follows| :: follows[i] < follows[j]
    {
      if Searches(rows[k].action) {
        assert forall i | 0 <= i < |searches| :: searches[i] in searches;
        searches := searches + [k];
      }
      if Follows(rows[k].action) {
        assert forall i | 0 <= i < |follows| :: follows[i] in follows;
        follows := follows + [k];
      }
    }
  }

  // The graph, or nothing when the steps are not such a tour.
  method TourPlan(rows: seq<Row>) returns (g: Option<Graph>, ghost s: nat, ghost f: nat)
    ensures g.Some? <==> exists a, b :: IsTour(rows, a, b)
    ensures g.Some? ==> IsTour(rows, s, f) && TourGraph(g.value, rows, s, f)
  {
    s, f := 0, 0;
    var searches, follows := Occurrences(rows);
    if |searches| != 1 || |follows| != 1 || searches[0] >= follows[0] || !EndsHome(rows) || |rows| > MAX_ROWS {
      NoTour(rows, searches, follows);
      return None, s, f;
    }
    var search, follow := searches[0], follows[0];
    assert search in searches && follow in follows;
    s, f := search, follow;
    var nodes: map<NodeId, Node> := map[];
    for k := 0 to |rows|
      invariant forall id :: id in nodes <==> StepBelow(id, k)
      invariant forall id | id in nodes :: nodes[id] == TourNodeOf(rows, s, f, id)
    {
      nodes := nodes[NodeId.Step(k) := TourNode(rows, search, follow, k)];
    }
    g := Some(Graph(nodes[Exhausted := NotFoundNode()], NodeId.Step(0)));
    assert IsTour(rows, s, f);
  }

  lemma NoTour(rows: seq<Row>, searches: seq<nat>, follows: seq<nat>)
    requires forall i: nat :: i in searches <==> i < |rows| && Searches(rows[i].action)
    requires forall i: nat :: i in follows <==> i < |rows| && Follows(rows[i].action)
    requires forall i, j | 0 <= i < j < |searches| :: searches[i] < searches[j]
    requires forall i, j | 0 <= i < j < |follows| :: follows[i] < follows[j]
    requires |searches| != 1 || |follows| != 1 || searches[0] >= follows[0] || !EndsHome(rows) || |rows| > MAX_ROWS
    ensures forall a, b :: !IsTour(rows, a, b)
  {
    forall a, b ensures !IsTour(rows, a, b) {
      if IsTour(rows, a, b) {
        Alone(searches, a);
        Alone(follows, b);
      }
    }
  }

  lemma Alone(ks: seq<nat>, k: nat)
    requires k in ks && forall i, j | 0 <= i < j < |ks| :: ks[i] < ks[j]
    ensures ks == [k] || exists x :: x in ks && x != k
  {
    if |ks| > 1 {
      assert ks[0] in ks && ks[1] in ks && ks[0] < ks[1];
    }
  }

  // ---------- its walks ----------

  function Straight(k: nat): (w: Walk)
    ensures Length(w) == k
  {
    if k == 0 then Start else Then(Straight(k - 1), true)
  }

  function Lost(s: nat): (w: Walk)
    ensures Length(w) == s + 1
  {
    Then(Straight(s), false)
  }

  // The identities of the first steps.
  function Ids(k: nat): seq<NodeId> {
    if k == 0 then [] else Ids(k - 1) + [NodeId.Step(k - 1)]
  }

  // One step: its edges, its flags and its action.
  predicate StepIs(g: Graph, rows: seq<Row>, s: nat, f: nat, k: nat)
    requires k < |rows|
  {
    && NodeId.Step(k) in g.nodes
    && var n := g.nodes[NodeId.Step(k)];
    && n.kind == ActionNode && n.action == rows[k].action && (n.bind <==> k == s) && (n.use <==> k == f)
    && n.failureCode.None?
    && n.onSuccess == (if k + 1 < |rows| then Some(NodeId.Step(k + 1)) else None)
    && n.onFailure == (if k == s then Some(Exhausted) else None)
  }

  predicate EndIs(g: Graph) {
    && g.entry == NodeId.Step(0) && Exhausted in g.nodes
    && var n := g.nodes[Exhausted];
    n.kind == Report && !n.use && n.action == NoAction && n.failureCode.Some? && n.onSuccess.None? && n.onFailure.None?
  }

  // What the walks need to know of the graph.
  ghost predicate Shaped(g: Graph, rows: seq<Row>, s: nat, f: nat) {
    s < |rows| && EndIs(g) && forall k: nat | k < |rows| :: StepIs(g, rows, s, f, k)
  }

  lemma TourShaped(g: Graph, rows: seq<Row>, s: nat, f: nat)
    requires TourGraph(g, rows, s, f) && s < |rows|
    ensures Shaped(g, rows, s, f)
  {
    forall k: nat | k < |rows| ensures StepIs(g, rows, s, f, k) {
      assert g.nodes[NodeId.Step(k)] == TourNode(rows, s, f, k);
    }
    assert g.nodes[Exhausted] == NotFoundNode();
  }

  lemma {:induction false} StraightWalk(g: Graph, rows: seq<Row>, s: nat, f: nat, k: nat)
    requires Shaped(g, rows, s, f) && k < |rows|
    ensures NodeAfter(g, g.entry, Straight(k)) == Some(NodeId.Step(k))
    ensures BoundOn(g, Straight(k)) <==> s < k
    ensures Succeeded(g, Straight(k)) == Ids(k)
  {
    if k > 0 {
      StraightWalk(g, rows, s, f, k - 1);
      assert StepIs(g, rows, s, f, k - 1);
    }
  }

  lemma LostWalk(g: Graph, rows: seq<Row>, s: nat, f: nat)
    requires Shaped(g, rows, s, f)
    ensures NodeAfter(g, g.entry, Lost(s)) == Some(Exhausted) && !BoundOn(g, Lost(s))
  {
    StraightWalk(g, rows, s, f, s);
    assert StepIs(g, rows, s, f, s);
  }

  // The walks are the straight ones and the one that leaves the search by failure.
  lemma {:induction false} TourWalk(g: Graph, rows: seq<Row>, s: nat, f: nat, w: Walk)
    requires Shaped(g, rows, s, f) && IsWalk(g, w)
    ensures (Length(w) < |rows| && w == Straight(Length(w))) || w == Lost(s)
  {
    if w.Then? {
      TourWalk(g, rows, s, f, w.before);
      var k := Length(w.before);
      if w.before == Lost(s) {
        LostWalk(g, rows, s, f);
      } else {
        StraightWalk(g, rows, s, f, k);
        assert StepIs(g, rows, s, f, k);
      }
    }
  }

  ghost function TourWalks(n: nat): set<Walk> {
    if n == 0 then {} else TourWalks(n - 1) + {Straight(n - 1)}
  }

  lemma {:induction false} TourWalksAre(n: nat, w: Walk)
    ensures w in TourWalks(n) <==> Length(w) < n && w == Straight(Length(w))
    ensures |TourWalks(n)| == n
  {
    if n > 0 {
      TourWalksAre(n - 1, w);
      TourWalksAre(n - 1, Straight(n - 1));
    }
  }

  // A tour of n steps has n + 1 outcome paths.
  lemma TourCount(g: Graph, rows: seq<Row>, s: nat, f: nat) returns (all: set<Walk>)
    requires Shaped(g, rows, s, f)
    ensures AllWalks(g, all) && |all| == |rows| + 1
  {
    all := TourWalks(|rows|) + {Lost(s)};
    forall w ensures w in all <==> IsWalk(g, w) {
      TourWalksAre(|rows|, w);
      if IsWalk(g, w) {
        TourWalk(g, rows, s, f, w);
      } else if Length(w) < |rows| && w == Straight(Length(w)) {
        StraightWalk(g, rows, s, f, Length(w));
      } else {
        LostWalk(g, rows, s, f);
      }
    }
    TourWalksAre(|rows|, Lost(s));
    assert Lost(s) != Straight(s + 1);
  }

  // ---------- admission ----------

  lemma TourBindings(g: Graph, rows: seq<Row>, s: nat, f: nat)
    requires IsTour(rows, s, f) && Shaped(g, rows, s, f)
    ensures forall w | IsWalk(g, w) :: BindingsAllowed(g, w)
  {
    forall w | IsWalk(g, w) ensures BindingsAllowed(g, w) {
      TourWalk(g, rows, s, f, w);
      if w == Lost(s) {
        LostWalk(g, rows, s, f);
      } else {
        StraightWalk(g, rows, s, f, Length(w));
        assert StepIs(g, rows, s, f, Length(w));
      }
    }
  }

  // The motions of the first steps.
  function Steps(rows: seq<Row>, k: nat): seq<Step>
    requires k <= |rows|
  {
    if k == 0 then [] else Steps(rows, k - 1) + [StepOf(rows[k - 1].action)]
  }

  lemma {:induction false} StepsOfAdd(g: Graph, ids: seq<NodeId>, id: NodeId)
    requires (forall x | x in ids :: x in g.nodes) && id in g.nodes
    ensures StepsOf(g, ids + [id]) == StepsOf(g, ids) + [StepOf(g.nodes[id].action)]
  {
    if ids != [] {
      StepsOfAdd(g, ids[1..], id);
      assert (ids + [id])[1..] == ids[1..] + [id];
    }
  }

  lemma {:induction false} TourSteps(g: Graph, rows: seq<Row>, s: nat, f: nat, k: nat)
    requires Shaped(g, rows, s, f) && k <= |rows|
    ensures (forall id | id in Ids(k) :: id in g.nodes) && StepsOf(g, Ids(k)) == Steps(rows, k)
  {
    if k > 0 {
      TourSteps(g, rows, s, f, k - 1);
      assert StepIs(g, rows, s, f, k - 1);
      StepsOfAdd(g, Ids(k - 1), NodeId.Step(k - 1));
    }
  }

  // The whole tour completes, and did every step.
  lemma WholeTour(g: Graph, rows: seq<Row>, s: nat, f: nat)
    requires Shaped(g, rows, s, f)
    ensures var w := Straight(|rows| - 1);
      && Completes(g, w) && CompletedActions(g, w) != [] && CompletedActions(g, w) == Ids(|rows|)
      && StepsOf(g, CompletedActions(g, w)) == Steps(rows, |rows|)
  {
    var n := |rows| - 1;
    StraightWalk(g, rows, s, f, n);
    assert StepIs(g, rows, s, f, n);
    TourSteps(g, rows, s, f, |rows|);
    assert CompletedActions(g, Straight(n)) == Ids(|rows|);
  }

  // Nothing else completes.
  lemma TourCompletes(g: Graph, rows: seq<Row>, s: nat, f: nat, w: Walk)
    requires Shaped(g, rows, s, f) && Completes(g, w)
    ensures w == Straight(|rows| - 1)
  {
    TourWalk(g, rows, s, f, w);
    if w == Lost(s) {
      LostWalk(g, rows, s, f);
    } else {
      StraightWalk(g, rows, s, f, Length(w));
      assert StepIs(g, rows, s, f, Length(w));
    }
  }

  lemma TourNodesAllowed(g: Graph, rows: seq<Row>, s: nat, f: nat, d: Demand)
    requires IsTour(rows, s, f) && TourGraph(g, rows, s, f)
    ensures NodesAllowed(g, d)
  {
    forall id | id in g.nodes && g.nodes[id].kind == ActionNode ensures StepAllowed(g.nodes[id]) {
      assert g.nodes[id] == TourNode(rows, s, f, id.index);
    }
    assert NodeId.Step(0) in g.nodes && g.nodes[NodeId.Step(0)] == TourNode(rows, s, f, 0);
  }

  lemma {:induction false} IdSet(k: nat) returns (ids: set<NodeId>)
    ensures |ids| == k && forall id :: id in ids <==> id.Step? && id.index < k
  {
    ids := {};
    if k > 0 {
      ids := IdSet(k - 1);
      ids := ids + {NodeId.Step(k - 1)};
    }
  }

  // The constraints hold of the whole list of steps.
  predicate TourMeets(rows: seq<Row>, d: Demand) {
    && (d.motion.Some? && d.planMotion.Some? ==> d.motion == d.planMotion)
    && (MotionOf(d).Some? ==> Accepts(Steps(rows, |rows|), MotionOf(d).value))
    && d.holds(Ids(|rows|))
  }

  // Under any constraints: every tour is admitted, whatever else it does on the way, exactly when its steps as a whole
  // meet them.
  lemma TourAdmissible(g: Graph, rows: seq<Row>, s: nat, f: nat, d: Demand)
    requires IsTour(rows, s, f) && TourGraph(g, rows, s, f)
    ensures Admissible(g, d) <==> TourMeets(rows, d)
  {
    TourShaped(g, rows, s, f);
    var all := TourCount(g, rows, s, f);
    AllWalksBound(g, all, PATH_LIMIT);
    var ids := IdSet(|rows|);
    SubsetSize(g.nodes.Keys, ids + {Exhausted});
    TourBindings(g, rows, s, f);
    TourNodesAllowed(g, rows, s, f, d);
    TourDemand(g, rows, s, f, d);
    AdmissibleIffPathsAllowed(g, d);
  }

  lemma TourDemand(g: Graph, rows: seq<Row>, s: nat, f: nat, d: Demand)
    requires Shaped(g, rows, s, f)
    ensures TourMeets(rows, d) <==> forall w | Completes(g, w) :: DemandKept(g, w, d) && OrderAllowed(g, d, w)
  {
    WholeTour(g, rows, s, f);
    var whole := Straight(|rows| - 1);
    forall w | Completes(g, w) ensures w == whole {
      TourCompletes(g, rows, s, f, w);
    }
    assert OrderAllowed(g, d, whole);
    assert DemandKept(g, whole, d) <==> TourMeets(rows, d);
  }
}
