/** Admission of a task graph. */
module PlanAdmission {
  import opened MotionSequence
  import opened Options
  import opened Sets
  import opened TaskGraph

  // Every outcome path is enumerated with a worklist and checked for its target bindings and for what the user and the
  // plan constrain.  These are the most pops, and the most steps of one path.
  const PATH_LIMIT := 256
  const MAX_STEPS := 32

  // One worklist entry: the node to look at and what the path so far established.
  datatype Entry = Entry(node: NodeId, bound: bool, searched: bool, path: seq<NodeId>)

  datatype Verdict = Admitted(pops: nat) | Rejected

  // What the user and the plan itself constrain: the motion, and whether there is anything else.  `holds` says of the
  // actions of a path that they meet all of the other constraints, which agree where both name the same.
  datatype Demand = Demand(motion: Option<seq<Motion>>, planMotion: Option<seq<Motion>>,
                           userOthers: bool, planOthers: bool,
                           holds: seq<NodeId> -> bool)

  // The user's motion alone.
  function Asked(motion: Option<seq<Motion>>): Demand {
    Demand(motion, None, false, false, _ => true)
  }

  predicate UserDemands(d: Demand) {
    d.motion.Some? || d.userOthers
  }

  predicate PlanDemands(d: Demand) {
    d.planMotion.Some? || d.planOthers
  }

  // The plan may repeat the user's motion but not change it.
  function MotionOf(d: Demand): Option<seq<Motion>> {
    if d.motion.Some? then d.motion else d.planMotion
  }

  predicate MeetsDemand(g: Graph, path: seq<NodeId>, d: Demand)
    requires forall id | id in path :: id in g.nodes
  {
    && (d.motion.Some? && d.planMotion.Some? ==> d.motion == d.planMotion)
    && (MotionOf(d).Some? ==> Accepts(StepsOf(g, path), MotionOf(d).value))
    && d.holds(path)
  }

  // ---------- the checks ----------

  // Flags that only certain actions may carry; checked on every action node before the walk.
  predicate StepAllowed(n: Node) {
    && n.valid
    && (n.use ==> n.action == FollowPerson)
    && (n.bind ==> Searches(n.action))
  }

  predicate NodesAllowed(g: Graph, d: Demand) {
    && (forall id | id in g.nodes && g.nodes[id].kind == ActionNode :: StepAllowed(g.nodes[id]))
    && (UserDemands(d) || PlanDemands(d) ==> exists id | id in g.nodes :: g.nodes[id].kind == ActionNode)
  }

  function StepsOf(g: Graph, path: seq<NodeId>): seq<Step>
    requires forall id | id in path :: id in g.nodes
  {
    if path == [] then [] else [StepOf(g.nodes[path[0]].action)] + StepsOf(g, path[1..])
  }

  // The linear binding check repeated on the steps of one success path.
  predicate LinearAllowed(g: Graph, path: seq<NodeId>, bound: bool, searched: bool)
    requires forall id | id in path :: id in g.nodes
  {
    path != [] ==>
      var n := g.nodes[path[0]];
      && (n.use ==> bound)
      && StepAllowed(n)
      && (n.action == FollowPerson && searched ==> n.use)
      && LinearAllowed(g, path[1..], bound || n.bind, searched || Searches(n.action))
  }

  predicate SuccessPathAllowed(g: Graph, path: seq<NodeId>, d: Demand)
    requires forall id | id in path :: id in g.nodes
  {
    if path == [] then !UserDemands(d)
    else |path| <= MAX_STEPS && LinearAllowed(g, path, false, false) && MeetsDemand(g, path, d)
  }

  function Extended(g: Graph, e: Entry): seq<NodeId>
    requires e.node in g.nodes
  {
    if g.nodes[e.node].kind == ActionNode then e.path + [e.node] else e.path
  }

  predicate EntryAllowed(g: Graph, e: Entry, d: Demand)
    requires forall id | id in e.path :: id in g.nodes
  {
    && e.node in g.nodes
    && var n := g.nodes[e.node];
    && (n.use ==> e.bound)
    && (n.action == FollowPerson && e.searched ==> n.use)
    && (n.onSuccess.None? && n.failureCode.None? ==> SuccessPathAllowed(g, Extended(g, e), d))
  }

  function NextEntries(g: Graph, e: Entry): seq<Entry>
    requires e.node in g.nodes
  {
    var n, searched := g.nodes[e.node], e.searched || Searches(g.nodes[e.node].action);
    (if n.onSuccess.Some? then [Entry(n.onSuccess.value, e.bound || n.bind, searched, Extended(g, e))] else [])
    + (if n.onFailure.Some? then [Entry(n.onFailure.value, e.bound, searched, e.path)] else [])
  }

  // ---------- the worklist ----------

  // The entry ends a success path, with or without actions.
  predicate Ends(g: Graph, e: Entry) {
    e.node in g.nodes && g.nodes[e.node].onSuccess.None? && g.nodes[e.node].failureCode.None?
  }

  predicate EndsEmpty(g: Graph, e: Entry) {
    Ends(g, e) && Extended(g, e) == []
  }

  predicate EndsActing(g: Graph, e: Entry) {
    Ends(g, e) && Extended(g, e) != []
  }

  // One pop: the checks on an entry and the entries it pushes.  A success path without actions is refused when the user
  // constrains anything, and once a path with actions was seen (`merged`) also when the plan does.
  method Visit(g: Graph, e: Entry, d: Demand, merged: bool) returns (ok: bool, next: seq<Entry>, merged': bool)
    requires forall id | id in e.path :: id in g.nodes
    ensures ok <==> EntryAllowed(g, e, d) && !(merged && PlanDemands(d) && EndsEmpty(g, e))
    ensures ok ==> next == NextEntries(g, e) && merged' == (merged || EndsActing(g, e))
  {
    next, merged' := [], merged;
    if e.node !in g.nodes {
      return false, next, merged;
    }
    var n := g.nodes[e.node];
    if n.use && !e.bound {
      return false, next, merged;
    }
    if n.action == FollowPerson && e.searched && !n.use {
      return false, next, merged;
    }
    var current := Extended(g, e);
    if n.onSuccess.Some? {
      next := [Entry(n.onSuccess.value, e.bound || n.bind, e.searched || Searches(n.action), current)];
    } else if n.failureCode.None? {
      if !SuccessPathAllowed(g, current, d) || (current == [] && merged && PlanDemands(d)) {
        return false, next, merged;
      }
      merged' := merged || current != [];
    }
    if n.onFailure.Some? {
      next := next + [Entry(n.onFailure.value, e.bound, e.searched || Searches(n.action), e.path)];
    }
    ok := true;
  }

  method GraphPlan(g: Graph, d: Demand) returns (r: Verdict)
    ensures r.Admitted? <==> Admissible(g, d)
    ensures r.Admitted? ==> exists ws :: AllWalks(g, ws) && |ws| == r.pops <= PATH_LIMIT
  {
    if !NodesAllowed(g, d) {
      return Rejected;
    }
    var pending := [Entry(g.entry, false, false, [])];
    var visited := 0;
    var merged := false;
    ghost var waiting: seq<Walk>, done: set<Walk> := [Start], {};
    ProgressStart(g, d);
    while pending != []
      invariant visited == |done| <= PATH_LIMIT
      invariant Progress(g, d, pending, waiting, done, merged)
      decreases PATH_LIMIT - visited
    {
      var e := pending[|pending| - 1];
      visited := visited + 1;
      if visited > PATH_LIMIT {
        TooManyWalks(g, waiting, done);
        return Rejected;
      }
      NextIs(g, pending, waiting);
      var ok, next, merged' := Visit(g, e, d, merged);
      if !ok {
        RefusedByOrder(g, d, waiting, done, merged);
        return Rejected;
      }
      waiting, done := ProgressStep(g, d, pending, waiting, done, merged);
      pending := pending[..|pending| - 1] + next;
      merged := merged';
    }
    AllTaken(g, d, waiting, done, merged);
    r := Admitted(visited);
  }

  // ---------- entries and walks ----------

  ghost function EntryOf(g: Graph, w: Walk): (e: Entry)
    requires IsWalk(g, w)
    ensures forall id | id in e.path :: id in g.nodes
  {
    Entry(NodeAt(g, w), BoundOn(g, w), SearchedOn(g, w), Succeeded(g, w))
  }

  // The worklist takes a walk before another one when it is a part of it, or when it leaves by failure where the other
  // one leaves by success.
  ghost predicate Before(v: Walk, w: Walk) {
    v != w && (IsPrefix(v, w) || exists p :: Parts(p, v, w))
  }

  predicate Parts(p: Walk, v: Walk, w: Walk) {
    IsPrefix(Then(p, false), v) && IsPrefix(Then(p, true), w)
  }

  ghost predicate Acts(g: Graph, w: Walk) {
    Completes(g, w) && CompletedActions(g, w) != []
  }

  ghost predicate Idles(g: Graph, w: Walk) {
    Completes(g, w) && CompletedActions(g, w) == []
  }

  // A plan's own constraints refuse a success path without actions only after one with actions.
  ghost predicate OrderAllowed(g: Graph, d: Demand, w: Walk) {
    PlanDemands(d) && Idles(g, w) ==> forall v | Before(v, w) :: !Acts(g, v)
  }

  // What admission promises, said of walks alone.
  ghost predicate Admissible(g: Graph, d: Demand) {
    && NodesAllowed(g, d)
    && AtMostWalks(g, PATH_LIMIT)
    && (forall w | IsWalk(g, w) :: Allowed(g, d, w))
  }

  // ---------- the order of walks ----------

  lemma {:induction false} PrefixChain(a: Walk, b: Walk, w: Walk)
    requires IsPrefix(a, w) && IsPrefix(b, w) && Length(a) <= Length(b)
    ensures IsPrefix(a, b)
  {
    if b != w {
      if a == w {
        PrefixIsShorter(b, w.before);
      } else {
        PrefixChain(a, b, w.before);
      }
    }
  }

  lemma {:induction false} PrefixTrans(a: Walk, b: Walk, c: Walk)
    requires IsPrefix(a, b) && IsPrefix(b, c)
    ensures IsPrefix(a, c)
  {
    if b != c {
      PrefixTrans(a, b, c.before);
    }
  }

  // Two steps of one walk, of which the first is not the last one, are steps of each other.
  lemma StepsChain(p: Walk, x: bool, q: Walk, y: bool, w: Walk)
    requires IsPrefix(Then(p, x), w) && IsPrefix(Then(q, y), w)
    ensures Length(p) == Length(q) ==> p == q && x == y
    ensures Length(p) < Length(q) ==> IsPrefix(Then(p, x), q)
  {
    if Length(p) <= Length(q) {
      PrefixChain(Then(p, x), Then(q, y), w);
      if Length(p) == Length(q) && Then(p, x) != Then(q, y) {
        PrefixIsShorter(Then(p, x), q);
      }
    }
  }

  lemma BeforeAsymmetric(v: Walk, w: Walk)
    requires Before(v, w)
    ensures !Before(w, v)
  {
    if Before(w, v) {
      if IsPrefix(v, w) {
        PrefixIsShorter(v, w);
        if IsPrefix(w, v) {
          PrefixIsShorter(w, v);
          PrefixChain(v, w, w);
          PrefixSame(v, w);
        } else {
          var p :| Parts(p, w, v);
          PrefixTrans(Then(p, true), v, w);
          StepsChain(p, false, p, true, w);
        }
      } else {
        var p :| Parts(p, v, w);
        if IsPrefix(w, v) {
          PrefixTrans(Then(p, true), w, v);
          StepsChain(p, false, p, true, v);
        } else {
          var q :| Parts(q, w, v);
          PartsOnce(p, q, v, w);
        }
      }
    }
  }

  lemma PrefixSame(v: Walk, w: Walk)
    requires IsPrefix(v, w) && Length(v) == Length(w)
    ensures v == w
  {
    if v != w {
      PrefixIsShorter(v, w.before);
    }
  }

  lemma PartsOnce(p: Walk, q: Walk, v: Walk, w: Walk)
    requires Parts(p, v, w)
    ensures !Parts(q, w, v)
  {
    if Parts(q, w, v) {
      StepsChain(p, false, q, true, v);
      StepsChain(p, true, q, false, w);
      StepsChain(q, true, p, false, v);
      StepsChain(q, false, p, true, w);
      if Length(p) < Length(q) {
        StepsChain(p, false, p, true, q);
      } else {
        StepsChain(q, true, q, false, p);
      }
    }
  }

  // ---------- the worklist invariant ----------

  function Children(g: Graph, w: Walk): (ws: seq<Walk>)
    ensures forall x :: x in ws <==> x.Then? && x.before == w && IsWalk(g, x)
  {
    (if IsWalk(g, Then(w, true)) then [Then(w, true)] else [])
    + (if IsWalk(g, Then(w, false)) then [Then(w, false)] else [])
  }

  predicate Distinct<T(==)>(s: seq<T>) {
    forall i, j | 0 <= i < j < |s| :: s[i] != s[j]
  }

  lemma DistinctJoin<T>(a: seq<T>, b: seq<T>)
    requires Distinct(a) && Distinct(b) && forall x | x in a :: x !in b
    ensures Distinct(a + b)
  {
    forall i, j | 0 <= i < j < |a + b| ensures (a + b)[i] != (a + b)[j] {
      if i < |a| <= j {
        assert a[i] in a && b[j - |a|] in b;
      }
    }
  }

  lemma DistinctLast<T>(rest: seq<T>, x: T)
    requires Distinct(rest + [x])
    ensures Distinct(rest) && x !in rest
  {
    forall i | 0 <= i < |rest| ensures rest[i] != x {
      assert (rest + [x])[i] != (rest + [x])[|rest|];
    }
    forall i, j | 0 <= i < j < |rest| ensures rest[i] != rest[j] {
      assert (rest + [x])[i] != (rest + [x])[j];
    }
  }

  // Processed walks are closed: each has its parent processed and its children processed or waiting.
  ghost predicate Frontier(g: Graph, waiting: seq<Walk>, done: set<Walk>) {
    && (forall w | w in done || w in waiting :: IsWalk(g, w) && (w.Then? ==> w.before in done))
    && (forall w | w in waiting :: w !in done)
    && Distinct(waiting)
    && (Start in done || Start in waiting)
    && (forall w: Walk | w.Then? && w.before in done && IsWalk(g, w) :: w in done || w in waiting)
  }

  ghost predicate Entries(g: Graph, pending: seq<Entry>, waiting: seq<Walk>) {
    && |pending| == |waiting|
    && forall k | 0 <= k < |pending| :: IsWalk(g, waiting[k]) && pending[k] == EntryOf(g, waiting[k])
  }

  lemma NextEntriesAre(g: Graph, w: Walk)
    requires IsWalk(g, w) && NodeAt(g, w) in g.nodes
    ensures Entries(g, NextEntries(g, EntryOf(g, w)), Children(g, w))
  {
    var n := g.nodes[NodeAt(g, w)];
    assert IsWalk(g, Then(w, true)) <==> n.onSuccess.Some?;
    assert IsWalk(g, Then(w, false)) <==> n.onFailure.Some?;
  }

  lemma FrontierStep(g: Graph, waiting: seq<Walk>, done: set<Walk>)
    requires Frontier(g, waiting, done) && waiting != []
    ensures var w := waiting[|waiting| - 1];
      Frontier(g, waiting[..|waiting| - 1] + Children(g, w), done + {w})
  {
    var w, rest := waiting[|waiting| - 1], waiting[..|waiting| - 1];
    assert waiting == rest + [w];
    DistinctLast(rest, w);
    assert forall x :: x in waiting <==> x in rest || x == w;
    DistinctJoin(rest, Children(g, w));
    FrontierParts(g, rest, w, done, rest + Children(g, w));
  }

  lemma FrontierParts(g: Graph, rest: seq<Walk>, w: Walk, done: set<Walk>, next: seq<Walk>)
    requires Frontier(g, rest + [w], done) && w !in rest && w !in done && Distinct(next)
    requires forall x :: x in next <==> x in rest || (x.Then? && x.before == w && IsWalk(g, x))
    ensures Frontier(g, next, done + {w})
  {
    assert forall x :: x in rest + [w] <==> x in rest || x == w;
  }

  // The walks wait in the order in which they will be taken, after all that were.
  ghost predicate Ordered(waiting: seq<Walk>, done: set<Walk>) {
    && (forall k, l | 0 <= k < l < |waiting| :: Before(waiting[l], waiting[k]))
    && (forall v, w | v in done && w in waiting :: Before(v, w))
  }

  lemma BeforeDescendant(v: Walk, w: Walk, x: Walk)
    requires Before(v, w) && IsPrefix(w, x)
    ensures Before(v, x)
  {
    if IsPrefix(v, w) {
      PrefixTrans(v, w, x);
      if v == x {
        PrefixIsShorter(v, w);
        PrefixIsShorter(w, v);
        PrefixSame(v, w);
      }
    } else {
      var p :| Parts(p, v, w);
      PrefixTrans(Then(p, true), w, x);
      assert Parts(p, v, x);
      if v == x {
        StepsChain(p, false, p, true, v);
      }
    }
  }

  // A walk that comes before a waiting one, but is no part of it, brings its continuations along.
  lemma ChildBefore(w: Walk, x: Walk, outcome: bool)
    requires Before(w, x) && !IsPrefix(w, x)
    ensures Before(Then(w, outcome), x)
  {
    var p :| Parts(p, w, x);
    assert Parts(p, Then(w, outcome), x);
    assert IsPrefix(w, Then(w, outcome));
  }

  lemma NotPartOf(g: Graph, waiting: seq<Walk>, done: set<Walk>, w: Walk, x: Walk)
    requires Frontier(g, waiting, done) && w in waiting && x in waiting && w != x
    ensures !IsPrefix(w, x)
  {
    if IsPrefix(w, x) {
      DonePrefix(g, waiting, done, w, x.before);
    }
  }

  lemma {:induction false} DonePrefix(g: Graph, waiting: seq<Walk>, done: set<Walk>, w: Walk, x: Walk)
    requires Frontier(g, waiting, done) && x in done && IsPrefix(w, x)
    ensures w in done
  {
    if w != x {
      DonePrefix(g, waiting, done, w, x.before);
    }
  }

  lemma OrderedStep(g: Graph, waiting: seq<Walk>, done: set<Walk>, rest: seq<Walk>, w: Walk)
    requires Frontier(g, waiting, done) && Ordered(waiting, done) && waiting == rest + [w]
    ensures Ordered(rest + Children(g, w), done + {w})
  {
    var next := rest + Children(g, w);
    assert w in waiting && forall x :: x in rest ==> x in waiting;
    forall k, l | 0 <= k < l < |next| ensures Before(next[l], next[k]) {
      if l < |rest| {
        assert Before(waiting[l], waiting[k]);
      } else if k < |rest| {
        assert next[l] in Children(g, w) && waiting[k] == next[k] && waiting[|rest|] == w;
        DistinctLast(rest, w);
        NotPartOf(g, waiting, done, w, next[k]);
        ChildBefore(w, next[k], next[l].outcome);
      } else {
        assert next[k] == Then(w, true) && next[l] == Then(w, false);
        assert Parts(w, Then(w, false), Then(w, true));
      }
    }
    forall v, x | v in done + {w} && x in next ensures Before(v, x) {
      OrderedChild(g, waiting, done, rest, w, v, x);
    }
  }

  lemma OrderedChild(g: Graph, waiting: seq<Walk>, done: set<Walk>, rest: seq<Walk>, w: Walk, v: Walk, x: Walk)
    requires Ordered(waiting, done) && waiting == rest + [w] && v in done + {w}
    requires x in rest || (x.Then? && x.before == w)
    ensures Before(v, x)
  {
    assert w in waiting;
    if x in rest {
      var k :| 0 <= k < |rest| && rest[k] == x;
      assert waiting[k] == x && waiting[|rest|] == w && x in waiting;
      if v in done {
        assert Before(v, x);
      } else {
        assert Before(waiting[|rest|], waiting[k]);
      }
    } else if v in done {
      BeforeDescendant(v, w, x);
    } else {
      assert IsPrefix(w, x.before) && Length(x) == Length(w) + 1;
    }
  }

  lemma {:induction false} WalkPlaced(g: Graph, waiting: seq<Walk>, done: set<Walk>, v: Walk) returns (u: Walk)
    requires Frontier(g, waiting, done) && IsWalk(g, v) && v !in done
    ensures u in waiting && IsPrefix(u, v)
  {
    u := v;
    if v !in waiting {
      u := WalkPlaced(g, waiting, done, v.before);
    }
  }

  // What was taken is exactly what comes before the next walk.
  lemma DoneIsBefore(g: Graph, waiting: seq<Walk>, done: set<Walk>, v: Walk)
    requires Frontier(g, waiting, done) && Ordered(waiting, done) && waiting != [] && IsWalk(g, v)
    ensures v in done <==> Before(v, waiting[|waiting| - 1])
  {
    var w := waiting[|waiting| - 1];
    assert w in waiting;
    if v !in done && Before(v, w) {
      var u := WalkPlaced(g, waiting, done, v);
      var k :| 0 <= k < |waiting| && waiting[k] == u;
      if u != w {
        BeforeDescendant(w, u, v);
        BeforeAsymmetric(v, w);
      } else {
        OwnDescendant(v, w);
      }
    }
  }

  lemma OwnDescendant(v: Walk, w: Walk)
    requires IsPrefix(w, v)
    ensures !Before(v, w)
  {
    if Before(v, w) {
      BeforeDescendant(v, w, v);
    }
  }

  // The whole loop invariant: processed walks were allowed, and the worklist holds the waiting ones in order.
  ghost predicate Progress(g: Graph, d: Demand, pending: seq<Entry>, waiting: seq<Walk>, done: set<Walk>,
                           merged: bool) {
    && Frontier(g, waiting, done)
    && Entries(g, pending, waiting)
    && Ordered(waiting, done)
    && (merged <==> ActedIn(g, done))
    && AllAllowed(g, d, done)
  }

  ghost predicate ActedIn(g: Graph, done: set<Walk>) {
    exists v | v in done :: Acts(g, v)
  }

  lemma EndsAre(g: Graph, w: Walk)
    requires IsWalk(g, w)
    ensures EndsEmpty(g, EntryOf(g, w)) <==> Idles(g, w)
    ensures EndsActing(g, EntryOf(g, w)) <==> Acts(g, w)
  {
  }

  lemma ActedMore(g: Graph, done: set<Walk>, w: Walk)
    ensures ActedIn(g, done + {w}) <==> ActedIn(g, done) || Acts(g, w)
  {
    if ActedIn(g, done) {
      var v :| v in done && Acts(g, v);
      assert v in done + {w};
    }
    assert w in done + {w};
  }

  // The order rule for the next walk, by what was seen.
  lemma OrderSeen(g: Graph, d: Demand, waiting: seq<Walk>, done: set<Walk>, merged: bool)
    requires Frontier(g, waiting, done) && Ordered(waiting, done) && waiting != [] && (merged <==> ActedIn(g, done))
    ensures var w := waiting[|waiting| - 1];
      IsWalk(g, w) && (OrderAllowed(g, d, w) <==> !(merged && PlanDemands(d) && EndsEmpty(g, EntryOf(g, w))))
  {
    var w := waiting[|waiting| - 1];
    assert w in waiting;
    EndsAre(g, w);
    if merged {
      var v :| v in done && Acts(g, v);
      DoneIsBefore(g, waiting, done, v);
    } else {
      forall v | Before(v, w) && Acts(g, v) ensures false {
        DoneIsBefore(g, waiting, done, v);
      }
    }
  }

  lemma RefusedByOrder(g: Graph, d: Demand, waiting: seq<Walk>, done: set<Walk>, merged: bool)
    requires Frontier(g, waiting, done) && Ordered(waiting, done) && waiting != [] && (merged <==> ActedIn(g, done))
    requires IsWalk(g, waiting[|waiting| - 1])
    requires !(EntryAllowed(g, EntryOf(g, waiting[|waiting| - 1]), d)
               && !(merged && PlanDemands(d) && EndsEmpty(g, EntryOf(g, waiting[|waiting| - 1]))))
    ensures !Admissible(g, d)
  {
    OrderSeen(g, d, waiting, done, merged);
  }

  lemma ProgressStep(g: Graph, d: Demand, pending: seq<Entry>, waiting: seq<Walk>, done: set<Walk>, merged: bool)
      returns (waiting': seq<Walk>, done': set<Walk>)
    requires Progress(g, d, pending, waiting, done, merged) && waiting != []
    requires EntryAllowed(g, EntryOf(g, waiting[|waiting| - 1]), d)
    requires !(merged && PlanDemands(d) && EndsEmpty(g, EntryOf(g, waiting[|waiting| - 1])))
    ensures var e := EntryOf(g, waiting[|waiting| - 1]);
      Progress(g, d, pending[..|pending| - 1] + NextEntries(g, e), waiting', done', merged || EndsActing(g, e))
    ensures |done'| == |done| + 1
  {
    var w := waiting[|waiting| - 1];
    waiting', done' := waiting[..|waiting| - 1] + Children(g, w), done + {w};
    WaitingStep(g, waiting, done);
    NextEntriesAre(g, w);
    EntriesStep(g, pending, waiting, NextEntries(g, EntryOf(g, w)), Children(g, w));
    OrderSeen(g, d, waiting, done, merged);
    EndsAre(g, w);
    ActedMore(g, done, w);
    AllowedMore(g, d, done, w);
  }

  lemma WaitingStep(g: Graph, waiting: seq<Walk>, done: set<Walk>)
    requires Frontier(g, waiting, done) && Ordered(waiting, done) && waiting != []
    ensures var w := waiting[|waiting| - 1];
      && IsWalk(g, w)
      && Frontier(g, waiting[..|waiting| - 1] + Children(g, w), done + {w})
      && Ordered(waiting[..|waiting| - 1] + Children(g, w), done + {w})
      && |done + {w}| == |done| + 1
  {
    var w, rest := waiting[|waiting| - 1], waiting[..|waiting| - 1];
    assert waiting == rest + [w];
    assert w in waiting;
    FrontierStep(g, waiting, done);
    OrderedStep(g, waiting, done, rest, w);
  }

  ghost predicate Allowed(g: Graph, d: Demand, w: Walk)
    requires IsWalk(g, w)
  {
    EntryAllowed(g, EntryOf(g, w), d) && OrderAllowed(g, d, w)
  }

  ghost predicate AllAllowed(g: Graph, d: Demand, done: set<Walk>) {
    forall w | w in done :: IsWalk(g, w) && Allowed(g, d, w)
  }

  lemma AllowedMore(g: Graph, d: Demand, done: set<Walk>, w: Walk)
    requires AllAllowed(g, d, done) && IsWalk(g, w) && Allowed(g, d, w)
    ensures AllAllowed(g, d, done + {w})
  {
  }

  lemma ProgressStart(g: Graph, d: Demand)
    ensures Progress(g, d, [Entry(g.entry, false, false, [])], [Start], {}, false)
  {
    assert EntryOf(g, Start) == Entry(g.entry, false, false, []);
  }

  lemma NextIs(g: Graph, pending: seq<Entry>, waiting: seq<Walk>)
    requires Entries(g, pending, waiting) && pending != []
    ensures waiting != [] && IsWalk(g, waiting[|waiting| - 1])
    ensures pending[|pending| - 1] == EntryOf(g, waiting[|waiting| - 1])
  {
  }

  lemma AllTaken(g: Graph, d: Demand, waiting: seq<Walk>, done: set<Walk>, merged: bool)
    requires NodesAllowed(g, d) && Progress(g, d, [], waiting, done, merged) && |done| <= PATH_LIMIT
    ensures Admissible(g, d) && AllWalks(g, done)
  {
    DoneIsAll(g, done);
    AllWalksBound(g, done, PATH_LIMIT);
  }

  lemma EntriesStep(g: Graph, pending: seq<Entry>, waiting: seq<Walk>, next: seq<Entry>, children: seq<Walk>)
    requires Entries(g, pending, waiting) && waiting != [] && Entries(g, next, children)
    ensures Entries(g, pending[..|pending| - 1] + next, waiting[..|waiting| - 1] + children)
  {
  }

  lemma TooManyWalks(g: Graph, waiting: seq<Walk>, done: set<Walk>)
    requires Frontier(g, waiting, done) && waiting != [] && |done| == PATH_LIMIT
    ensures !AtMostWalks(g, PATH_LIMIT)
  {
    var w := waiting[|waiting| - 1];
    assert w in waiting;
    assert |done + {w}| > PATH_LIMIT;
  }

  lemma {:induction false} WalkIsDone(g: Graph, done: set<Walk>, w: Walk)
    requires Frontier(g, [], done) && IsWalk(g, w)
    ensures w in done
  {
    if w.Then? {
      WalkIsDone(g, done, w.before);
    }
  }

  lemma DoneIsAll(g: Graph, done: set<Walk>)
    requires Frontier(g, [], done)
    ensures AllWalks(g, done)
  {
    forall w | IsWalk(g, w) ensures w in done {
      WalkIsDone(g, done, w);
    }
  }

  // ---------- what an admitted graph guarantees ----------

  // No outcome path of an admitted graph comes back to a node.
  lemma AdmittedAcyclic(g: Graph, d: Demand, w: Walk, v: Walk)
    requires Admissible(g, d)
    requires IsWalk(g, w) && v != Start
    ensures NodeAfter(g, NodeAt(g, w), v) != Some(NodeAt(g, w))
  {
    if NodeAfter(g, NodeAt(g, w), v) == Some(NodeAt(g, w)) {
      CycleUnbounded(g, w, v, PATH_LIMIT);
    }
  }

  // A node that uses a bound target is reached only after a person search that binds was left by success.
  lemma AdmittedBindings(g: Graph, d: Demand, w: Walk)
    requires Admissible(g, d) && IsWalk(g, w)
    ensures NodeAt(g, w) in g.nodes
    ensures g.nodes[NodeAt(g, w)].use ==>
            exists p :: LeftBySuccess(p, w) && IsWalk(g, p) && NodeAt(g, p) in g.nodes
                        && g.nodes[NodeAt(g, p)].bind && Searches(g.nodes[NodeAt(g, p)].action)
  {
    assert EntryAllowed(g, EntryOf(g, w), d);
    BoundOnMeans(g, w);
  }

  // A walk that ends the goal without a failure: its last node has no success edge and reports no failure.
  ghost predicate Completes(g: Graph, w: Walk) {
    && IsWalk(g, w)
    && NodeAt(g, w) in g.nodes
    && g.nodes[NodeAt(g, w)].onSuccess.None?
    && g.nodes[NodeAt(g, w)].failureCode.None?
  }

  // The actions of a completing walk, its last node included.
  ghost function CompletedActions(g: Graph, w: Walk): (ids: seq<NodeId>)
    requires Completes(g, w)
    ensures forall id | id in ids :: id in g.nodes
  {
    Extended(g, EntryOf(g, w))
  }

  // Every successful outcome path does the motion the user asked for, whole and in order.
  lemma AdmittedMotion(g: Graph, d: Demand, w: Walk)
    requires Admissible(g, d) && Completes(g, w) && d.motion.Some?
    ensures Accepts(StepsOf(g, CompletedActions(g, w)), d.motion.value)
    ensures Splits(d.motion.value, Planned(StepsOf(g, CompletedActions(g, w))), TOLERANCE)
  {
    assert EntryAllowed(g, EntryOf(g, w), d);
    var lengths := MatchesSplits(d.motion.value, Planned(StepsOf(g, CompletedActions(g, w))));
  }

  // ---------- the repeated checks are implied ----------

  ghost predicate BindingsAllowed(g: Graph, w: Walk)
    requires IsWalk(g, w)
  {
    && NodeAt(g, w) in g.nodes
    && (g.nodes[NodeAt(g, w)].use ==> BoundOn(g, w))
    && (g.nodes[NodeAt(g, w)].action == FollowPerson && SearchedOn(g, w) ==> g.nodes[NodeAt(g, w)].use)
  }

  // The constraints survive on a completing walk.
  ghost predicate DemandKept(g: Graph, w: Walk, d: Demand)
    requires Completes(g, w)
  {
    if CompletedActions(g, w) == [] then !UserDemands(d) else MeetsDemand(g, CompletedActions(g, w), d)
  }

  lemma {:induction false} LinearWeaker(g: Graph, path: seq<NodeId>, bound: bool, searched: bool, searched': bool)
    requires forall id | id in path :: id in g.nodes
    requires LinearAllowed(g, path, bound, searched) && (searched' ==> searched)
    ensures LinearAllowed(g, path, bound, searched')
  {
    if path != [] {
      var n := g.nodes[path[0]];
      LinearWeaker(g, path[1..], bound || n.bind, searched || Searches(n.action), searched' || Searches(n.action));
    }
  }

  lemma {:induction false} LinearImplied(g: Graph, d: Demand, w: Walk, rest: seq<NodeId>)
    requires NodesAllowed(g, d) && IsWalk(g, w)
    requires forall p | IsWalk(g, p) :: BindingsAllowed(g, p)
    requires forall id | id in rest :: id in g.nodes
    requires LinearAllowed(g, rest, BoundOn(g, w), SearchedOn(g, w))
    ensures LinearAllowed(g, Succeeded(g, w) + rest, false, false)
    decreases w
  {
    if w.Start? {
      assert Succeeded(g, w) + rest == rest;
    } else {
      var id := NodeAt(g, w.before);
      assert BindingsAllowed(g, w.before);
      if w.outcome && g.nodes[id].kind == ActionNode {
        assert Succeeded(g, w) + rest == Succeeded(g, w.before) + ([id] + rest);
        assert ([id] + rest)[1..] == rest;
        LinearImplied(g, d, w.before, [id] + rest);
      } else {
        LinearWeaker(g, rest, BoundOn(g, w), SearchedOn(g, w), SearchedOn(g, w.before));
        assert Succeeded(g, w) == Succeeded(g, w.before);
        LinearImplied(g, d, w.before, rest);
      }
    }
  }

  lemma NotRevisited(g: Graph, w: Walk)
    requires AtMostWalks(g, PATH_LIMIT) && IsWalk(g, w)
    ensures NodeAt(g, w) !in Succeeded(g, w)
  {
    if NodeAt(g, w) in Succeeded(g, w) {
      var p := SucceededIsVisited(g, w, NodeAt(g, w));
      NodeAfterAppend(g, g.entry, p, Suffix(p, w));
      CycleUnbounded(g, p, Suffix(p, w), PATH_LIMIT);
    }
  }

  lemma {:induction false} SucceededIsShort(g: Graph, w: Walk)
    requires AtMostWalks(g, PATH_LIMIT) && IsWalk(g, w)
    ensures |set id | id in Succeeded(g, w)| == |Succeeded(g, w)|
  {
    if w.Then? {
      SucceededIsShort(g, w.before);
      NotRevisited(g, w.before);
      var ids := set id | id in Succeeded(g, w.before);
      if Succeeded(g, w) != Succeeded(g, w.before) {
        assert (set id | id in Succeeded(g, w)) == ids + {NodeAt(g, w.before)};
      }
    } else {
      assert (set id | id in Succeeded(g, w)) == {};
    }
  }

  lemma CompletedIsShort(g: Graph, w: Walk)
    requires AtMostWalks(g, PATH_LIMIT) && Completes(g, w)
    ensures |CompletedActions(g, w)| <= |g.nodes|
  {
    SucceededIsShort(g, w);
    NotRevisited(g, w);
    var ids := set id | id in Succeeded(g, w);
    SubsetSize(ids + {NodeAt(g, w)}, g.nodes.Keys);
  }

  // Admission in its simplest form.  Graphs have at most 32 nodes.
  ghost predicate PathsAllowed(g: Graph, d: Demand) {
    && NodesAllowed(g, d)
    && AtMostWalks(g, PATH_LIMIT)
    && (forall w | IsWalk(g, w) :: BindingsAllowed(g, w))
    && (forall w | Completes(g, w) :: DemandKept(g, w, d) && OrderAllowed(g, d, w))
  }

  lemma CompletingWalkAllowed(g: Graph, d: Demand, w: Walk)
    requires |g.nodes| <= MAX_STEPS && PathsAllowed(g, d) && Completes(g, w)
    ensures SuccessPathAllowed(g, CompletedActions(g, w), d)
  {
    var id, path := NodeAt(g, w), CompletedActions(g, w);
    assert BindingsAllowed(g, w) && DemandKept(g, w, d);
    CompletedIsShort(g, w);
    if g.nodes[id].kind == ActionNode {
      assert [id][1..] == [];
      assert LinearAllowed(g, [id], BoundOn(g, w), SearchedOn(g, w));
      LinearImplied(g, d, w, [id]);
    } else {
      LinearImplied(g, d, w, []);
      assert path == Succeeded(g, w) + [];
    }
  }

  lemma AdmissibleIffPathsAllowed(g: Graph, d: Demand)
    requires |g.nodes| <= MAX_STEPS
    ensures Admissible(g, d) <==> PathsAllowed(g, d)
  {
    if Admissible(g, d) {
      forall w | IsWalk(g, w) ensures BindingsAllowed(g, w) {
        assert EntryAllowed(g, EntryOf(g, w), d);
      }
      forall w | Completes(g, w) ensures DemandKept(g, w, d) {
        assert EntryAllowed(g, EntryOf(g, w), d);
      }
    }
    if PathsAllowed(g, d) {
      forall w | IsWalk(g, w) ensures EntryAllowed(g, EntryOf(g, w), d) {
        assert BindingsAllowed(g, w);
        if Completes(g, w) {
          CompletingWalkAllowed(g, d, w);
        }
      }
    }
  }

  // ---------- the order of the edges decides ----------

  function Looking(): Node {
    RawNode.Node(ActionNode, OtherAction("vision.observe"), false, false, None, None, None, 0, RECOVERABLE, true)
  }

  function Reporting(): Node {
    RawNode.Node(Report, NoAction, false, false, None, None, None, 0, RECOVERABLE, true)
  }

  // A branch of which one edge leads to an action and the other one to a report of success.
  function Fork(actOn: bool): Graph {
    var act, idle := NodeId.Step(1), NodeId.Step(2);
    var branch: Node := RawNode.Node(Branch, NoAction, false, false, Some(if actOn then act else idle),
                                     Some(if actOn then idle else act), None, 0, RECOVERABLE, true);
    Graph(map[NodeId.Step(0) := branch, act := Looking(), idle := Reporting()], NodeId.Step(0))
  }

  // The plan alone constrains something, and the action meets it.
  function PlanOnly(): Demand {
    Demand(None, None, false, true, _ => true)
  }

  lemma ForkWalk(actOn: bool, w: Walk)
    ensures IsWalk(Fork(actOn), w) <==> w == Start || (w.Then? && w.before == Start)
    ensures IsWalk(Fork(actOn), w) && w.Then? ==>
              NodeAt(Fork(actOn), w) == if w.outcome == actOn then NodeId.Step(1) else NodeId.Step(2)
  {
    var g := Fork(actOn);
    if w.Then? {
      var from := NodeAfter(g, g.entry, w.before);
      assert NodeAfter(g, g.entry, w) == if from.None? then None else Edge(g, from.value, w.outcome);
      if w.before.Then? {
        ForkDepth(actOn, w.before);
      } else {
        assert g.nodes[g.entry].onSuccess.Some? && g.nodes[g.entry].onFailure.Some?;
      }
    }
  }

  lemma {:induction false} ForkDepth(actOn: bool, w: Walk)
    requires w.Then?
    ensures Edge(Fork(actOn), NodeId.Step(1), true).None? && Edge(Fork(actOn), NodeId.Step(1), false).None?
    ensures Edge(Fork(actOn), NodeId.Step(2), true).None? && Edge(Fork(actOn), NodeId.Step(2), false).None?
    ensures IsWalk(Fork(actOn), w)
            ==> NodeAt(Fork(actOn), w) == NodeId.Step(1) || NodeAt(Fork(actOn), w) == NodeId.Step(2)
  {
    if w.before.Then? {
      ForkDepth(actOn, w.before);
    }
  }

  lemma ForkCount(actOn: bool)
    ensures AtMostWalks(Fork(actOn), PATH_LIMIT)
  {
    var all := {Start, Then(Start, true), Then(Start, false)};
    forall w ensures w in all <==> IsWalk(Fork(actOn), w) {
      ForkWalk(actOn, w);
    }
    AllWalksBound(Fork(actOn), all, PATH_LIMIT);
  }

  // The same two ways to succeed are admitted or refused depending on which edge of the branch leads to which.
  lemma EdgeOrderDecides(actOn: bool)
    ensures Admissible(Fork(actOn), PlanOnly()) <==> actOn
  {
    var g, d := Fork(actOn), PlanOnly();
    var acting, idle := Then(Start, actOn), Then(Start, !actOn);
    ForkWalk(actOn, acting);
    ForkWalk(actOn, idle);
    assert Acts(g, acting) && Idles(g, idle);
    if actOn {
      ForkCount(actOn);
      assert NodeId.Step(1) in g.nodes;
      forall w | IsWalk(g, w) ensures Allowed(g, d, w) {
        ForkWalk(actOn, w);
        ForkAllowed(w);
      }
    } else {
      assert Parts(Start, acting, idle);
      assert Before(acting, idle);
      assert !OrderAllowed(g, d, idle);
      assert !Allowed(g, d, idle);
    }
  }

  lemma ForkAllowed(w: Walk)
    requires IsWalk(Fork(true), w)
    ensures Allowed(Fork(true), PlanOnly(), w)
  {
    ForkWalk(true, w);
    forall v | Before(v, w) && Idles(Fork(true), w) ensures !Acts(Fork(true), v) {
      if Acts(Fork(true), v) {
        ForkWalk(true, v);
        assert Parts(Start, w, v);
        BeforeAsymmetric(v, w);
      }
    }
  }
}
