/** The planner's search of every known place. */
module HouseSearch {
  import opened MotionSequence
  import opened Options
  import opened Sets
  import opened TaskGraph
  import opened PlanAdmission

  // The graph tries the places in order; each place is a navigation and a person search, and both fall through to the
  // next place when they fail.  Admission enumerates all its outcome paths, so the number of known places decides
  // whether the plan fits the path limit.

  const MAX_PLACES := 6

  // What the sentence says after the search: nothing, a clause that resolves to nothing, to follow whoever is found, or
  // to follow a person by a name that resolves.
  datatype Clause = NoClause | Unresolved | Anonymous | ByName

  // The first row that each clause resolves to on its own; a name is searched for before it is followed.
  datatype Row = Row(action: Action, bind: bool, use: bool)

  function FollowRows(clause: Clause): seq<Row> {
    match clause
    case NoClause => []
    case Unresolved => []
    case Anonymous => [Row(FollowPerson, false, false)]
    case ByName => [Row(SearchPerson, true, false), Row(FollowPerson, false, true)]
  }

  predicate Follows(clause: Clause) {
    FollowRows(clause) != []
  }

  datatype Resolution = NotThisSearch | NoKnownPlaces | TooManyPlaces | Plan(graph: Graph)

  function NextPlace(n: nat, i: nat): NodeId {
    if i + 1 < n then Place(i + 1) else Exhausted
  }

  function PlaceNode(n: nat, i: nat): Node {
    RawNode.Node(ActionNode, OtherAction("v3.command.navigate"), false, false, Some(Search(i)), Some(NextPlace(n, i)),
         None, 0, {NoPath}, true)
  }

  function SearchNode(n: nat, i: nat, clause: Clause): Node {
    RawNode.Node(ActionNode, SearchAnyPerson, Follows(clause), false,
                 if Follows(clause) then Some(Follow) else None, Some(NextPlace(n, i)), None, 0, {TargetLost}, true)
  }

  // The first row of the clause, made to use the target that the search binds.
  function FollowNode(clause: Clause): Node
    requires Follows(clause)
  {
    var row := FollowRows(clause)[0];
    RawNode.Node(ActionNode, row.action, row.bind, true, None, None, None, 0, RECOVERABLE, true)
  }

  function ExhaustedNode(): Node {
    RawNode.Node(Report, NoAction, false, false, None, None, Some(TargetLost), 0,
         RECOVERABLE, true)
  }

  // The graph said declaratively: which nodes there are and what each one is.
  predicate HouseId(n: nat, clause: Clause, id: NodeId) {
    match id
    case Place(i) => i < n
    case Search(i) => i < n
    case Follow => Follows(clause)
    case Exhausted => true
    case _ => false
  }

  function HouseNode(n: nat, clause: Clause, id: NodeId): Node
    requires HouseId(n, clause, id)
  {
    match id
    case Place(i) => PlaceNode(n, i)
    case Search(i) => SearchNode(n, i, clause)
    case Follow => FollowNode(clause)
    case Exhausted => ExhaustedNode()
  }

  ghost predicate IsHouse(g: Graph, n: nat, clause: Clause) {
    && g.entry == Place(0)
    && (forall id :: id in g.nodes <==> HouseId(n, clause, id))
    && (forall id | id in g.nodes :: g.nodes[id] == HouseNode(n, clause, id))
  }

  method HouseSearchPlan(places: nat, clause: Clause) returns (r: Resolution)
    ensures r.NotThisSearch? <==> clause.Unresolved?
    ensures r.NoKnownPlaces? <==> !clause.Unresolved? && places == 0
    ensures r.TooManyPlaces? <==> !clause.Unresolved? && places > MAX_PLACES
    ensures r.Plan? ==> IsHouse(r.graph, places, clause)
  {
    if clause != NoClause && FollowRows(clause) == [] {
      return NotThisSearch;
    }
    if places == 0 {
      return NoKnownPlaces;
    }
    if places > MAX_PLACES {
      return TooManyPlaces;
    }
    var nodes: map<NodeId, Node> := map[];
    for i := 0 to places
      invariant Placed(nodes, places, clause, i)
    {
      nodes := AddPlace(nodes, places, clause, i);
    }
    r := Plan(Graph(AddEnds(nodes, places, clause), Place(0)));
  }

  // The nodes of the first places are all there.
  ghost predicate Placed(nodes: map<NodeId, Node>, n: nat, clause: Clause, count: nat) {
    && (forall id :: id in nodes <==> (id.Place? || id.Search?) && id.index < count && HouseId(n, clause, id))
    && (forall id | id in nodes :: nodes[id] == HouseNode(n, clause, id))
  }

  function AddPlace(nodes: map<NodeId, Node>, n: nat, clause: Clause, i: nat): (r: map<NodeId, Node>)
    requires i < n && Placed(nodes, n, clause, i)
    ensures Placed(r, n, clause, i + 1)
  {
    nodes[Place(i) := PlaceNode(n, i)][Search(i) := SearchNode(n, i, clause)]
  }

  function AddEnds(nodes: map<NodeId, Node>, n: nat, clause: Clause): (r: map<NodeId, Node>)
    requires Placed(nodes, n, clause, n)
    ensures IsHouse(Graph(r, Place(0)), n, clause)
  {
    (if Follows(clause) then nodes[Follow := FollowNode(clause)] else nodes)[Exhausted := ExhaustedNode()]
  }

  // ---------- walks from a node, counted ----------

  function Prepend(outcome: bool, w: Walk): (r: Walk)
    ensures Length(r) == Length(w) + 1
  {
    assert Length(Then(Start, outcome)) == 1;
    Append(Then(Start, outcome), w)
  }

  lemma {:induction false} PrependInjective(a: bool, v: Walk, b: bool, w: Walk)
    requires Prepend(a, v) == Prepend(b, w)
    ensures a == b && v == w
  {
    assert Length(Prepend(a, v)) == Length(v) + 1 && Length(Prepend(b, w)) == Length(w) + 1;
    if v.Then? && w.Then? {
      PrependInjective(a, v.before, b, w.before);
    }
  }

  lemma {:induction false} Uncons(w: Walk) returns (outcome: bool, rest: Walk)
    requires w != Start
    ensures w == Prepend(outcome, rest)
  {
    if w.before.Start? {
      outcome, rest := w.outcome, Start;
    } else {
      var o, r := Uncons(w.before);
      outcome, rest := o, Then(r, w.outcome);
    }
  }

  ghost function Prefixed(outcome: bool, ws: set<Walk>): set<Walk> {
    set w | w in ws :: Prepend(outcome, w)
  }

  lemma {:induction false} PrefixedSize(outcome: bool, ws: set<Walk>)
    ensures |Prefixed(outcome, ws)| == |ws|
    decreases |ws|
  {
    if ws != {} {
      var w :| w in ws;
      PrefixedSize(outcome, ws - {w});
      assert Prefixed(outcome, ws) == Prefixed(outcome, ws - {w}) + {Prepend(outcome, w)};
      if Prepend(outcome, w) in Prefixed(outcome, ws - {w}) {
        var v :| v in ws - {w} && Prepend(outcome, v) == Prepend(outcome, w);
        PrependInjective(outcome, v, outcome, w);
      }
    } else {
      assert Prefixed(outcome, ws) == {};
    }
  }

  ghost function Below(depth: nat): set<Walk> {
    if depth == 0 then {}
    else
      var shorter := Below(depth - 1);
      {Start} + (set w | w in shorter :: Then(w, true)) + (set w | w in shorter :: Then(w, false))
  }

  lemma {:induction false} BelowAre(depth: nat, w: Walk)
    ensures w in Below(depth) <==> Length(w) < depth
    decreases depth
  {
    if depth > 0 && w.Then? {
      BelowAre(depth - 1, w.before);
    }
  }

  // The walks shorter than `depth` from a node, and those of them that begin with one outcome.
  ghost function Walks(g: Graph, id: NodeId, depth: nat): set<Walk> {
    set w | w in Below(depth) && NodeAfter(g, id, w).Some?
  }

  ghost function Branches(g: Graph, id: NodeId, outcome: bool, depth: nat): set<Walk> {
    var next := Edge(g, id, outcome);
    if next.None? then {} else Prefixed(outcome, Walks(g, next.value, depth))
  }

  lemma WalksAre(g: Graph, id: NodeId, depth: nat, w: Walk)
    ensures w in Walks(g, id, depth) <==> Length(w) < depth && NodeAfter(g, id, w).Some?
  {
    BelowAre(depth, w);
  }

  lemma NodeAfterPrepend(g: Graph, id: NodeId, outcome: bool, rest: Walk)
    ensures NodeAfter(g, id, Prepend(outcome, rest))
            == if Edge(g, id, outcome).None? then None else NodeAfter(g, Edge(g, id, outcome).value, rest)
  {
    NodeAfterAppend(g, id, Then(Start, outcome), rest);
    assert NodeAfter(g, id, Start) == Some(id);
    assert NodeAfter(g, id, Then(Start, outcome)) == Edge(g, id, outcome);
  }

  lemma InBranches(g: Graph, id: NodeId, depth: nat, outcome: bool, rest: Walk)
    ensures Prepend(outcome, rest) in Branches(g, id, outcome, depth)
            <==> Prepend(outcome, rest) in Walks(g, id, depth + 1)
  {
    NodeAfterPrepend(g, id, outcome, rest);
    WalksAre(g, id, depth + 1, Prepend(outcome, rest));
    var next := Edge(g, id, outcome);
    if next.Some? {
      WalksAre(g, next.value, depth, rest);
      if Prepend(outcome, rest) in Branches(g, id, outcome, depth) {
        var v :| v in Walks(g, next.value, depth) && Prepend(outcome, v) == Prepend(outcome, rest);
        PrependInjective(outcome, v, outcome, rest);
      }
    }
  }

  lemma InEither(g: Graph, id: NodeId, depth: nat, w: Walk)
    ensures w in Walks(g, id, depth + 1)
            <==> w == Start || w in Branches(g, id, true, depth) || w in Branches(g, id, false, depth)
  {
    if w == Start {
      WalksAre(g, id, depth + 1, Start);
    } else {
      var outcome, rest := Uncons(w);
      InBranches(g, id, depth, outcome, rest);
      if w in Branches(g, id, !outcome, depth) {
        var v :| Prepend(!outcome, v) == w;
        PrependInjective(!outcome, v, outcome, rest);
      }
    }
  }

  lemma WalksSplit(g: Graph, id: NodeId, depth: nat, all: set<Walk>, yes: set<Walk>, no: set<Walk>)
    requires all == Walks(g, id, depth + 1)
    requires yes == Branches(g, id, true, depth) && no == Branches(g, id, false, depth)
    ensures all == {Start} + yes + no
  {
    forall w ensures w in all <==> w in {Start} + yes + no {
      InEither(g, id, depth, w);
    }
  }

  function Count(g: Graph, id: NodeId, depth: nat): nat
    decreases depth, 0
  {
    if depth == 0 then 0 else 1 + BranchCount(g, id, true, depth - 1) + BranchCount(g, id, false, depth - 1)
  }

  function BranchCount(g: Graph, id: NodeId, outcome: bool, depth: nat): nat
    decreases depth, 1
  {
    var next := Edge(g, id, outcome);
    if next.None? then 0 else Count(g, next.value, depth)
  }

  lemma BranchesDisjoint(g: Graph, id: NodeId, depth: nat, yes: set<Walk>, no: set<Walk>)
    requires yes == Branches(g, id, true, depth) && no == Branches(g, id, false, depth)
    ensures yes !! no && Start !in yes + no
  {
    forall w | w in yes && w in no ensures false {
      var v :| Prepend(true, v) == w;
      var u :| Prepend(false, u) == w;
      PrependInjective(true, v, false, u);
    }
    forall w | w in yes + no ensures w != Start {
      assert Length(w) > 0;
    }
  }

  lemma PartsSize(all: set<Walk>, yes: set<Walk>, no: set<Walk>)
    requires all == {Start} + yes + no && yes !! no && Start !in yes + no
    ensures |all| == 1 + |yes| + |no|
  {
    assert {Start} !! yes;
    assert {Start} + yes !! no;
  }

  lemma WalksSum(g: Graph, id: NodeId, depth: nat)
    ensures |Walks(g, id, depth + 1)| == 1 + |Branches(g, id, true, depth)| + |Branches(g, id, false, depth)|
  {
    var all, yes, no := Walks(g, id, depth + 1), Branches(g, id, true, depth), Branches(g, id, false, depth);
    BranchesDisjoint(g, id, depth, yes, no);
    WalksSplit(g, id, depth, all, yes, no);
    PartsSize(all, yes, no);
  }

  lemma {:induction false} WalksSize(g: Graph, id: NodeId, depth: nat)
    ensures |Walks(g, id, depth)| == Count(g, id, depth)
    decreases depth, 0
  {
    if depth == 0 {
      assert Walks(g, id, depth) == {};
    } else {
      BranchSize(g, id, true, depth - 1);
      BranchSize(g, id, false, depth - 1);
      WalksSum(g, id, depth - 1);
    }
  }

  lemma BranchSize(g: Graph, id: NodeId, outcome: bool, depth: nat)
    ensures |Branches(g, id, outcome, depth)| == BranchCount(g, id, outcome, depth)
    decreases depth, 1
  {
    var next := Edge(g, id, outcome);
    if next.Some? {
      WalksSize(g, next.value, depth);
      PrefixedSize(outcome, Walks(g, next.value, depth));
    }
  }

  // When counting deeper finds no more, there is nothing deeper.
  lemma AllWalksFrom(g: Graph, depth: nat)
    requires forall d: nat | d >= depth :: Count(g, g.entry, d) == Count(g, g.entry, depth)
    ensures AllWalks(g, Walks(g, g.entry, depth))
  {
    forall w ensures w in Walks(g, g.entry, depth) <==> IsWalk(g, w) {
      var d := if Length(w) < depth then depth else Length(w) + 1;
      var some, more := Walks(g, g.entry, depth), Walks(g, g.entry, d);
      forall v ensures v in some <==> Length(v) < depth && NodeAfter(g, g.entry, v).Some? {
        WalksAre(g, g.entry, depth, v);
      }
      forall v ensures v in more <==> Length(v) < d && NodeAfter(g, g.entry, v).Some? {
        WalksAre(g, g.entry, d, v);
      }
      WalksSize(g, g.entry, depth);
      WalksSize(g, g.entry, d);
      assert some <= more;
      SubsetSize(more - some, more);
      assert |more - some| == |more| - |some|;
      assert more - some == {};
    }
  }

  // ---------- the closed form ----------

  function Pow2(k: nat): (p: nat)
    ensures p >= 1
  {
    if k == 0 then 1 else 2 * Pow2(k - 1)
  }

  // The number of outcome paths of the graph for n places.
  function PathCount(n: nat, clause: Clause): int {
    if Follows(clause) then Pow2(n + 2) - 3 else 3 * Pow2(n) - 2
  }

  lemma LeafCount(g: Graph, id: NodeId, depth: nat)
    requires depth >= 1 && Edge(g, id, true).None? && Edge(g, id, false).None?
    ensures Count(g, id, depth) == 1
  {
  }

  // One place: its navigation, its search, the follow if there is one, and the next place twice.
  lemma OnePlace(g: Graph, n: nat, clause: Clause, i: nat, depth: nat)
    requires IsHouse(g, n, clause) && i < n && depth >= 3
    ensures Count(g, Place(i), depth)
            == 2 + (if Follows(clause) then 1 else 0) + Count(g, NextPlace(n, i), depth - 2)
              + Count(g, NextPlace(n, i), depth - 1)
  {
    assert Place(i) in g.nodes && g.nodes[Place(i)] == PlaceNode(n, i);
    assert Search(i) in g.nodes && g.nodes[Search(i)] == SearchNode(n, i, clause);
    if Follows(clause) {
      assert Follow in g.nodes && g.nodes[Follow] == FollowNode(clause);
      LeafCount(g, Follow, depth - 2);
    }
    assert Count(g, Search(i), depth - 1) == 1 + (if Follows(clause) then 1 else 0)
      + Count(g, NextPlace(n, i), depth - 2);
    assert Count(g, Place(i), depth) == 1 + Count(g, Search(i), depth - 1) + Count(g, NextPlace(n, i), depth - 1);
  }

  lemma {:induction false} PlaceCount(g: Graph, n: nat, clause: Clause, i: nat, depth: nat)
    requires IsHouse(g, n, clause) && i <= n && depth >= 2 * (n - i) + 1
    ensures Count(g, if i < n then Place(i) else Exhausted, depth) == PathCount(n - i, clause)
    decreases n - i
  {
    if i == n {
      assert Exhausted in g.nodes && g.nodes[Exhausted] == ExhaustedNode();
      LeafCount(g, Exhausted, depth);
      assert Pow2(2) == 2 * (2 * Pow2(0));
    } else {
      OnePlace(g, n, clause, i, depth);
      PlaceCount(g, n, clause, i + 1, depth - 1);
      PlaceCount(g, n, clause, i + 1, depth - 2);
    }
  }

  lemma HouseWalks(g: Graph, n: nat, clause: Clause) returns (all: set<Walk>)
    requires n >= 1 && IsHouse(g, n, clause)
    ensures AllWalks(g, all) && |all| == PathCount(n, clause)
  {
    var depth := 2 * n + 1;
    forall d: nat | d >= depth ensures Count(g, g.entry, d) == PathCount(n, clause) {
      PlaceCount(g, n, clause, 0, d);
    }
    AllWalksFrom(g, depth);
    WalksSize(g, g.entry, depth);
    all := Walks(g, g.entry, depth);
  }

  // ---------- admission ----------

  lemma {:induction false} HouseNodes(g: Graph, n: nat, clause: Clause, w: Walk)
    requires n >= 1 && IsHouse(g, n, clause) && IsWalk(g, w)
    ensures NodeAt(g, w) in g.nodes
    ensures NodeAt(g, w) == Follow ==> Follows(clause) && BoundOn(g, w)
  {
    if w.Then? {
      HouseNodes(g, n, clause, w.before);
    }
  }

  lemma {:induction false} Pow2Grows(k: nat)
    requires k >= 7
    ensures Pow2(k) >= 128
  {
    if k > 7 {
      Pow2Grows(k - 1);
    } else {
      assert Pow2(4) == 16;
      assert Pow2(7) == 2 * (2 * (2 * Pow2(4)));
    }
  }

  lemma {:induction false} PathCountFits(n: nat, clause: Clause)
    ensures PathCount(n, clause) <= PATH_LIMIT <==> n <= MAX_PLACES
    ensures PathCount(MAX_PLACES, Anonymous) == 253 && PathCount(MAX_PLACES, NoClause) == 190
  {
    assert Pow2(3) == 8;
    assert Pow2(6) == 2 * (2 * (2 * Pow2(3)));
    assert Pow2(8) == 2 * (2 * Pow2(6));
    if n <= MAX_PLACES {
      Pow2Monotone(n, MAX_PLACES);
      Pow2Monotone(n + 2, MAX_PLACES + 2);
    } else {
      Pow2Grows(n);
      assert Pow2(n + 2) == 2 * (2 * Pow2(n));
    }
  }

  lemma {:induction false} Pow2Monotone(a: nat, b: nat)
    requires a <= b
    ensures Pow2(a) <= Pow2(b)
  {
    if a < b {
      Pow2Monotone(a, b - 1);
    }
  }

  // ---------- what the user and the plan may constrain ----------

  // Some of the first places, in order: those that were reached and where no one was found.
  predicate Tried(ids: seq<NodeId>, i: nat) {
    && (forall k | 0 <= k < |ids| :: ids[k].Place? && ids[k].index < i)
    && (forall k, l | 0 <= k < l < |ids| :: ids[k].Place? && ids[l].Place? && ids[k].index < ids[l].index)
  }

  // Someone is found at one place, and followed.
  function Found(clause: Clause, i: nat): seq<NodeId> {
    [Place(i), Search(i)] + if Follows(clause) then [Follow] else []
  }

  ghost predicate HousePath(n: nat, clause: Clause, path: seq<NodeId>) {
    exists i: nat, tried :: i < n && Tried(tried, i) && path == tried + Found(clause, i)
  }

  // The constraints hold on each of these lists of actions, none of which is a motion that a sequence compares.
  ghost predicate HouseMeets(n: nat, clause: Clause, d: Demand) {
    && (d.motion.Some? && d.planMotion.Some? ==> d.motion == d.planMotion)
    && (MotionOf(d).Some? ==> Accepts([], MotionOf(d).value))
    && (forall path | HousePath(n, clause, path) :: d.holds(path))
  }

  // What succeeded on the way to a node.
  ghost predicate OnTheWay(n: nat, id: NodeId, ids: seq<NodeId>) {
    match id
    case Place(i) => Tried(ids, i)
    case Search(i) => exists tried :: Tried(tried, i) && ids == tried + [Place(i)]
    case Follow => exists i: nat, tried :: i < n && Tried(tried, i) && ids == tried + [Place(i), Search(i)]
    case _ => true
  }

  lemma {:induction false} SucceededBefore(g: Graph, n: nat, clause: Clause, w: Walk)
    requires IsHouse(g, n, clause) && IsWalk(g, w)
    ensures OnTheWay(n, NodeAt(g, w), Succeeded(g, w))
  {
    if w.Then? {
      SucceededBefore(g, n, clause, w.before);
      var id := NodeAt(g, w.before);
      assert g.nodes[id] == HouseNode(n, clause, id);
      if id.Place? {
        LeavesPlace(Succeeded(g, w.before), id.index);
      } else if id.Search? {
        LeavesSearch(n, Succeeded(g, w.before), id.index);
      }
    }
  }

  lemma LeavesPlace(ids: seq<NodeId>, i: nat)
    requires Tried(ids, i)
    ensures Tried(ids, i + 1)
  {
  }

  lemma LeavesSearch(n: nat, ids: seq<NodeId>, i: nat)
    requires exists tried :: Tried(tried, i) && ids == tried + [Place(i)]
    ensures Tried(ids, i + 1)
    ensures i < n ==> OnTheWay(n, Follow, ids + [Search(i)])
  {
    var tried :| Tried(tried, i) && ids == tried + [Place(i)];
    assert ids + [Search(i)] == tried + [Place(i), Search(i)];
  }

  // Every way to succeed is one of the lists.
  lemma CompletedHousePath(g: Graph, n: nat, clause: Clause, w: Walk)
    requires IsHouse(g, n, clause) && Completes(g, w)
    ensures HousePath(n, clause, CompletedActions(g, w))
  {
    SucceededBefore(g, n, clause, w);
    var id := NodeAt(g, w);
    assert g.nodes[id] == HouseNode(n, clause, id);
    if id.Search? {
      var tried :| Tried(tried, id.index) && Succeeded(g, w) == tried + [Place(id.index)];
      assert CompletedActions(g, w) == tried + Found(clause, id.index);
    } else {
      var i: nat, tried :| i < n && Tried(tried, i) && Succeeded(g, w) == tried + [Place(i), Search(i)];
      assert CompletedActions(g, w) == tried + Found(clause, i);
    }
  }

  // And each of the lists is a way to succeed.
  lemma {:induction false} WalkTo(g: Graph, n: nat, clause: Clause, tried: seq<NodeId>, i: nat) returns (w: Walk)
    requires IsHouse(g, n, clause) && i < n && Tried(tried, i)
    ensures IsWalk(g, w) && NodeAt(g, w) == Place(i) && Succeeded(g, w) == tried
    decreases i
  {
    var front, last := LastTried(tried, i);
    if i == 0 {
      w := Start;
    } else {
      var v := WalkTo(g, n, clause, front, i - 1);
      if last {
        w := TryPlace(g, n, clause, v, i - 1);
      } else {
        w := SkipPlace(g, n, clause, v, i - 1);
      }
    }
  }

  // The last place before this one was tried or not.
  lemma LastTried(tried: seq<NodeId>, i: nat) returns (front: seq<NodeId>, last: bool)
    requires Tried(tried, i)
    ensures i == 0 ==> tried == []
    ensures i > 0 ==> Tried(front, i - 1) && tried == front + if last then [Place(i - 1)] else []
  {
    last := tried != [] && tried[|tried| - 1].Place? && tried[|tried| - 1].index + 1 == i;
    front := if last then tried[..|tried| - 1] else tried;
    if last {
      forall k | 0 <= k < |front| ensures front[k].Place? && front[k].index < i - 1 {
        assert tried[k].index < tried[|front|].index;
      }
    } else if i > 0 {
      FewerTried(tried, i);
    }
  }

  lemma SkipPlace(g: Graph, n: nat, clause: Clause, v: Walk, i: nat) returns (w: Walk)
    requires IsHouse(g, n, clause) && i + 1 < n && IsWalk(g, v) && NodeAt(g, v) == Place(i)
    ensures IsWalk(g, w) && NodeAt(g, w) == Place(i + 1) && Succeeded(g, w) == Succeeded(g, v)
  {
    assert g.nodes[Place(i)] == PlaceNode(n, i);
    w := Then(v, false);
  }

  lemma ReachSearch(g: Graph, n: nat, clause: Clause, v: Walk, i: nat) returns (w: Walk)
    requires IsHouse(g, n, clause) && i < n && IsWalk(g, v) && NodeAt(g, v) == Place(i)
    ensures IsWalk(g, w) && NodeAt(g, w) == Search(i) && Succeeded(g, w) == Succeeded(g, v) + [Place(i)]
  {
    assert g.nodes[Place(i)] == PlaceNode(n, i);
    w := Then(v, true);
  }

  lemma TryPlace(g: Graph, n: nat, clause: Clause, v: Walk, i: nat) returns (w: Walk)
    requires IsHouse(g, n, clause) && i + 1 < n && IsWalk(g, v) && NodeAt(g, v) == Place(i)
    ensures IsWalk(g, w) && NodeAt(g, w) == Place(i + 1) && Succeeded(g, w) == Succeeded(g, v) + [Place(i)]
  {
    var u := ReachSearch(g, n, clause, v, i);
    assert g.nodes[Search(i)] == SearchNode(n, i, clause);
    w := Then(u, false);
  }

  lemma FewerTried(tried: seq<NodeId>, i: nat)
    requires i > 0 && Tried(tried, i) && (tried != [] ==> tried[|tried| - 1] != Place(i - 1))
    ensures Tried(tried, i - 1)
  {
    forall k | 0 <= k < |tried| ensures tried[k].index < i - 1 {
      assert k < |tried| - 1 ==> tried[k].index < tried[|tried| - 1].index;
    }
  }

  lemma WalkToFollow(g: Graph, n: nat, clause: Clause, tried: seq<NodeId>, i: nat) returns (w: Walk)
    requires IsHouse(g, n, clause) && i < n && Tried(tried, i) && Follows(clause)
    ensures IsWalk(g, w) && NodeAt(g, w) == Follow && Succeeded(g, w) == tried + [Place(i), Search(i)]
  {
    var u := WalkTo(g, n, clause, tried, i);
    var v := ReachSearch(g, n, clause, u, i);
    assert g.nodes[Search(i)] == SearchNode(n, i, clause);
    assert tried + [Place(i)] + [Search(i)] == tried + [Place(i), Search(i)];
    w := Then(v, true);
  }

  lemma FollowCompletes(g: Graph, n: nat, clause: Clause, w: Walk)
    requires IsHouse(g, n, clause) && Follows(clause) && IsWalk(g, w) && NodeAt(g, w) == Follow
    ensures Completes(g, w) && CompletedActions(g, w) == Succeeded(g, w) + [Follow]
  {
    assert Follow in g.nodes && g.nodes[Follow] == FollowNode(clause);
  }

  lemma SearchCompletes(g: Graph, n: nat, clause: Clause, w: Walk, i: nat)
    requires IsHouse(g, n, clause) && !Follows(clause) && i < n && IsWalk(g, w) && NodeAt(g, w) == Search(i)
    ensures Completes(g, w) && CompletedActions(g, w) == Succeeded(g, w) + [Search(i)]
  {
    assert Search(i) in g.nodes && g.nodes[Search(i)] == SearchNode(n, i, clause);
  }

  lemma HousePathCompleted(g: Graph, n: nat, clause: Clause, path: seq<NodeId>) returns (w: Walk)
    requires IsHouse(g, n, clause) && HousePath(n, clause, path)
    ensures Completes(g, w) && CompletedActions(g, w) == path
  {
    var i: nat, tried :| i < n && Tried(tried, i) && path == tried + Found(clause, i);
    if Follows(clause) {
      w := WalkToFollow(g, n, clause, tried, i);
      FollowCompletes(g, n, clause, w);
    } else {
      var v := WalkTo(g, n, clause, tried, i);
      w := ReachSearch(g, n, clause, v, i);
      SearchCompletes(g, n, clause, w, i);
    }
  }

  lemma {:induction false} NoMotions(g: Graph, ids: seq<NodeId>)
    requires forall id | id in ids :: id in g.nodes && StepOf(g.nodes[id].action) == NoMotion
    ensures (forall s | s in StepsOf(g, ids) :: Comparable(s)) && Planned(StepsOf(g, ids)) == []
  {
    if ids != [] {
      NoMotions(g, ids[1..]);
    }
  }

  lemma HouseMoves(g: Graph, n: nat, clause: Clause, w: Walk, motion: seq<Motion>)
    requires IsHouse(g, n, clause) && Completes(g, w)
    ensures Accepts(StepsOf(g, CompletedActions(g, w)), motion) <==> Accepts([], motion)
  {
    forall id | id in CompletedActions(g, w) ensures StepOf(g.nodes[id].action) == NoMotion {
      assert g.nodes[id] == HouseNode(n, clause, id);
    }
    NoMotions(g, CompletedActions(g, w));
  }

  lemma HouseDemand(g: Graph, n: nat, clause: Clause, d: Demand)
    requires n >= 1 && IsHouse(g, n, clause) && !clause.ByName?
    ensures HouseMeets(n, clause, d) <==> forall w | Completes(g, w) :: DemandKept(g, w, d) && OrderAllowed(g, d, w)
  {
    forall w | Completes(g, w)
      ensures CompletedActions(g, w) != [] && OrderAllowed(g, d, w)
      ensures HouseMeets(n, clause, d) ==> DemandKept(g, w, d)
    {
      CompletedHousePath(g, n, clause, w);
      if MotionOf(d).Some? {
        HouseMoves(g, n, clause, w, MotionOf(d).value);
      }
    }
    if forall w | Completes(g, w) :: DemandKept(g, w, d) {
      forall path | HousePath(n, clause, path) ensures d.holds(path) {
        var w := HousePathCompleted(g, n, clause, path);
        assert DemandKept(g, w, d);
      }
      assert Tried([], 0);
      assert [] + Found(clause, 0) == Found(clause, 0);
      var w := HousePathCompleted(g, n, clause, Found(clause, 0));
      assert DemandKept(g, w, d);
      if MotionOf(d).Some? {
        HouseMoves(g, n, clause, w, MotionOf(d).value);
      }
    }
  }

  // Under any constraints: the plan for n known places is admitted if and only if n is at most six, the clause does not
  // name a person, and the constraints hold of each way to find someone.
  lemma HouseAdmissible(g: Graph, n: nat, clause: Clause, d: Demand)
    requires n >= 1 && IsHouse(g, n, clause)
    ensures Admissible(g, d) <==> n <= MAX_PLACES && !clause.ByName? && HouseMeets(n, clause, d)
  {
    var all := HouseWalks(g, n, clause);
    AllWalksBound(g, all, PATH_LIMIT);
    PathCountFits(n, clause);
    if clause.ByName? {
      NamedRefused(g, n, d);
    } else if n <= MAX_PLACES {
      HouseBindings(g, n, clause);
      HouseSize(g, n, clause);
      HouseNodesAllowed(g, n, clause, d);
      HouseDemand(g, n, clause, d);
      AdmissibleIffPathsAllowed(g, d);
    }
  }

  // A named person's first row is a search; using the bound target in it is refused, for every number of places.
  lemma NamedRefused(g: Graph, n: nat, d: Demand)
    requires IsHouse(g, n, ByName)
    ensures !NodesAllowed(g, d) && !Admissible(g, d)
  {
    assert Follow in g.nodes && g.nodes[Follow] == FollowNode(ByName);
    assert !StepAllowed(g.nodes[Follow]);
  }

  lemma HouseNodesAllowed(g: Graph, n: nat, clause: Clause, d: Demand)
    requires n >= 1 && IsHouse(g, n, clause) && !clause.ByName?
    ensures NodesAllowed(g, d)
  {
    forall id | id in g.nodes ensures StepAllowed(g.nodes[id]) {
      assert g.nodes[id] == HouseNode(n, clause, id);
    }
    assert Place(0) in g.nodes && g.nodes[Place(0)] == PlaceNode(n, 0);
  }

  lemma HouseBindings(g: Graph, n: nat, clause: Clause)
    requires n >= 1 && IsHouse(g, n, clause) && !clause.ByName?
    ensures forall w | IsWalk(g, w) :: BindingsAllowed(g, w)
  {
    forall w | IsWalk(g, w) ensures BindingsAllowed(g, w) {
      HouseNodes(g, n, clause, w);
      assert g.nodes[NodeAt(g, w)] == HouseNode(n, clause, NodeAt(g, w));
    }
  }

  ghost function HouseIds(n: nat): set<NodeId> {
    if n == 0 then {Follow, Exhausted} else HouseIds(n - 1) + {Place(n - 1), Search(n - 1)}
  }

  lemma HouseSize(g: Graph, n: nat, clause: Clause)
    requires n <= MAX_PLACES && IsHouse(g, n, clause)
    ensures |g.nodes| <= MAX_STEPS
  {
    forall id | id in g.nodes ensures id in HouseIds(n) {
      HouseIdIn(n, clause, id);
    }
    HouseIdsSize(n);
    SubsetSize(g.nodes.Keys, HouseIds(n));
  }

  lemma {:induction false} HouseIdIn(n: nat, clause: Clause, id: NodeId)
    requires HouseId(n, clause, id)
    ensures id in HouseIds(n)
  {
    if n > 0 && id != Place(n - 1) && id != Search(n - 1) {
      HouseIdIn(n - 1, clause, id);
    }
  }

  lemma {:induction false} HouseIdsSize(n: nat)
    ensures |HouseIds(n)| <= 2 * n + 2
  {
    if n > 0 {
      HouseIdsSize(n - 1);
    }
  }

  // The planner's plan runs through admission with exactly the closed-form number of worklist pops, unless it is to
  // follow a named person, when it is always refused, or a constraint fails on one of its ways to find someone.
  method AdmitHouseSearch(places: nat, clause: Clause, d: Demand) returns (r: Resolution, verdict: Verdict)
    ensures verdict.Admitted? <==>
            && 1 <= places <= MAX_PLACES && (clause.NoClause? || clause.Anonymous?)
            && HouseMeets(places, clause, d)
    ensures verdict.Admitted? ==> verdict.pops == PathCount(places, clause)
    ensures clause.ByName? && 1 <= places <= MAX_PLACES ==> r.Plan?
  {
    r := HouseSearchPlan(places, clause);
    verdict := Rejected;
    if r.Plan? {
      HouseAdmissible(r.graph, places, clause, d);
      verdict := GraphPlan(r.graph, d);
      var all := HouseWalks(r.graph, places, clause);
      if verdict.Admitted? {
        ghost var ws :| AllWalks(r.graph, ws) && |ws| == verdict.pops;
        assert all == ws;
      }
    }
  }
}
