/**
 The planner's steps for already parsed motion instructions, and the motion sequence that admission
 extracts from the same instructions.

 Turns above 180 degrees become two steps and a look-around interleaves observations with four turns.
*/
module MotionPlanner {
  import opened MotionSequence
  import opened Options
  import opened TaskGraph
  import opened PlanAdmission

  datatype Instruction = Metric(motion: Motion) | LookAround | Observe

  // The planner answers in words, without a plan, when a turn or a move is out of range.
  predicate InRange(i: Instruction) {
    i.Metric? ==> RequestedItem(i.motion)
  }

  function FirstTurn(angle: real): real {
    var size := if Abs(angle) < 180.0 then Abs(angle) else 180.0;
    if angle > 0.0 then size else -size
  }

  function StepsFor(i: Instruction): seq<Step> {
    match i
    case Metric(m) =>
      (match m.kind
       case Move => [MoveRelative(m.amount, 0.0, 0.0)]
       case Direction => [if m.amount < 0.0 then Backward else Forward]
       case Turn =>
         var first := FirstTurn(m.amount);
         [TurnBy(first)] + (if m.amount != first then [TurnBy(m.amount - first)] else []))
    case LookAround =>
      [NoMotion, TurnBy(90.0), NoMotion, TurnBy(90.0), NoMotion, TurnBy(90.0), NoMotion, TurnBy(90.0), NoMotion]
    case Observe => [NoMotion]
  }

  function MotionFor(i: Instruction): seq<Motion> {
    match i
    case Metric(m) => [m]
    case LookAround => [Motion(Turn, 90.0), Motion(Turn, 90.0), Motion(Turn, 90.0), Motion(Turn, 90.0)]
    case Observe => []
  }

  function PlanSteps(instructions: seq<Instruction>): seq<Step> {
    if instructions == [] then []
    else PlanSteps(instructions[..|instructions| - 1]) + StepsFor(instructions[|instructions| - 1])
  }

  function RequestedMotion(instructions: seq<Instruction>): seq<Motion> {
    if instructions == [] then []
    else RequestedMotion(instructions[..|instructions| - 1]) + MotionFor(instructions[|instructions| - 1])
  }

  method PlanMotion(instructions: seq<Instruction>) returns (rows: seq<Step>, motion: seq<Motion>)
    requires forall i | i in instructions :: InRange(i)
    ensures rows == PlanSteps(instructions) && motion == RequestedMotion(instructions)
    ensures |motion| <= |rows|
    ensures NoSliver(instructions) && motion != [] && |rows| <= MAX_STEPS ==> Accepts(rows, motion)
  {
    rows, motion := [], [];
    for k := 0 to |instructions|
      invariant rows == PlanSteps(instructions[..k]) && motion == RequestedMotion(instructions[..k])
      invariant |motion| <= |rows|
    {
      assert instructions[..k + 1][..k] == instructions[..k];
      rows := rows + StepsFor(instructions[k]);
      motion := motion + MotionFor(instructions[k]);
    }
    assert instructions[..|instructions|] == instructions;
    if NoSliver(instructions) && motion != [] && |rows| <= MAX_STEPS {
      PlannedMotionAccepted(instructions);
    }
  }

  // A turn barely above 180 degrees: its second step is no larger than the tolerance of the check.
  predicate Sliver(i: Instruction) {
    i.Metric? && i.motion.kind == Turn && 180.0 < Abs(i.motion.amount) <= 180.0 + TOLERANCE
  }

  predicate NoSliver(instructions: seq<Instruction>) {
    forall i | i in instructions :: !Sliver(i)
  }

  // ---------- one instruction ----------

  lemma OneItem(item: Motion, taken: seq<Motion>, expected: seq<Motion>, planned: seq<Motion>)
    requires var t := Take(item.kind, item.amount, item.amount, taken + planned);
      t.count == |taken| && Abs(t.remaining) <= TOLERANCE
    ensures Matches([item] + expected, taken + planned) == Matches(expected, planned)
  {
    assert ([item] + expected)[1..] == expected;
    assert (taken + planned)[|taken|..] == planned;
  }

  lemma PlannedOne(s: Step)
    ensures Planned([s]) == MotionsOf(s)
  {
    assert [s][1..] == [];
  }

  lemma PlannedTwo(s: Step, t: Step)
    ensures Planned([s, t]) == MotionsOf(s) + MotionsOf(t)
  {
    PlannedOne(t);
    assert [s, t][1..] == [t];
  }

  lemma TurnTaken(angle: real, planned: seq<Motion>)
    requires angle != 0.0 && Abs(angle) <= 360.0 && !Sliver(Metric(Motion(Turn, angle)))
    ensures var own := Planned(StepsFor(Metric(Motion(Turn, angle))));
      Take(Turn, angle, angle, own + planned) == Taken(|own|, 0.0)
  {
    var first := FirstTurn(angle);
    if angle == first {
      PlannedOne(TurnBy(angle));
      assert ([Motion(Turn, angle)] + planned)[0] == Motion(Turn, angle);
    } else {
      PlannedTwo(TurnBy(first), TurnBy(angle - first));
      var own := [Motion(Turn, first), Motion(Turn, angle - first)];
      assert (own + planned)[0] == own[0];
      assert (own + planned)[1..] == [own[1]] + planned;
      assert Abs(angle - first) > TOLERANCE;
      assert Take(Turn, angle, angle - first, [own[1]] + planned) == Taken(1, 0.0);
    }
  }

  lemma MetricMatches(m: Motion, expected: seq<Motion>, planned: seq<Motion>)
    requires RequestedItem(m) && !Sliver(Metric(m))
    ensures Matches([m] + expected, Planned(StepsFor(Metric(m))) + planned) == Matches(expected, planned)
  {
    var own := Planned(StepsFor(Metric(m)));
    if m.kind == Turn {
      TurnTaken(m.amount, planned);
    } else {
      PlannedOne(StepsFor(Metric(m))[0]);
      assert (own + planned)[0] == own[0];
    }
    OneItem(m, own, expected, planned);
  }

  lemma LookAroundMatches(expected: seq<Motion>, planned: seq<Motion>)
    ensures Matches(MotionFor(LookAround) + expected, Planned(StepsFor(LookAround)) + planned)
            == Matches(expected, planned)
  {
    LookAroundPlanned();
    var q := Motion(Turn, 90.0);
    QuarterMatches(expected, planned);
    QuarterMatches([q] + expected, [q] + planned);
    QuarterMatches([q] + ([q] + expected), [q] + ([q] + planned));
    QuarterMatches([q] + ([q] + ([q] + expected)), [q] + ([q] + ([q] + planned)));
    assert [q, q, q, q] + expected == [q] + ([q] + ([q] + ([q] + expected)));
    assert [q, q, q, q] + planned == [q] + ([q] + ([q] + ([q] + planned)));
  }

  // An instruction without a sliver is matched by exactly its own steps.
  lemma InstructionMatches(i: Instruction, expected: seq<Motion>, planned: seq<Motion>)
    requires InRange(i) && !Sliver(i)
    ensures Matches(MotionFor(i) + expected, Planned(StepsFor(i)) + planned) == Matches(expected, planned)
  {
    match i {
      case Metric(m) =>
        MetricMatches(m, expected, planned);
      case LookAround =>
        LookAroundMatches(expected, planned);
      case Observe =>
        PlannedOne(NoMotion);
        assert [] + planned == planned && MotionFor(i) + expected == expected;
    }
  }

  lemma QuarterMatches(expected: seq<Motion>, planned: seq<Motion>)
    ensures var quarter := Motion(Turn, 90.0);
            Matches([quarter] + expected, [quarter] + planned) == Matches(expected, planned)
  {
    OneItem(Motion(Turn, 90.0), [Motion(Turn, 90.0)], expected, planned);
  }

  lemma LookAroundPlanned()
    ensures var q := Motion(Turn, 90.0); Planned(StepsFor(LookAround)) == [q, q, q, q]
  {
    var pair := [NoMotion, TurnBy(90.0)];
    PlannedTwo(NoMotion, TurnBy(90.0));
    PlannedOne(NoMotion);
    assert StepsFor(LookAround) == pair + (pair + (pair + (pair + [NoMotion])));
    PlannedAppend(pair, [NoMotion]);
    PlannedAppend(pair, pair + [NoMotion]);
    PlannedAppend(pair, pair + (pair + [NoMotion]));
    PlannedAppend(pair, pair + (pair + (pair + [NoMotion])));
  }

  lemma Associative<T>(a: seq<T>, b: seq<T>, c: seq<T>)
    ensures (a + b) + c == a + (b + c)
  {
  }

  // ---------- lists of instructions ----------

  lemma {:induction false} ListMatches(instructions: seq<Instruction>, expected: seq<Motion>, planned: seq<Motion>)
    requires NoSliver(instructions) && forall i | i in instructions :: InRange(i)
    ensures Matches(RequestedMotion(instructions) + expected, Planned(PlanSteps(instructions)) + planned)
            == Matches(expected, planned)
  {
    if instructions == [] {
      assert RequestedMotion(instructions) + expected == expected;
      assert Planned(PlanSteps(instructions)) + planned == planned;
    } else {
      var init, last := instructions[..|instructions| - 1], instructions[|instructions| - 1];
      var ownExpected, ownSteps := MotionFor(last), StepsFor(last);
      InstructionMatches(last, expected, planned);
      ListMatches(init, ownExpected + expected, Planned(ownSteps) + planned);
      PlannedAppend(PlanSteps(init), ownSteps);
      Associative(RequestedMotion(init), ownExpected, expected);
      Associative(Planned(PlanSteps(init)), Planned(ownSteps), planned);
    }
  }

  lemma {:induction false} ListBasics(instructions: seq<Instruction>)
    requires forall i | i in instructions :: InRange(i)
    ensures forall s | s in PlanSteps(instructions) :: Comparable(s)
    ensures forall m | m in RequestedMotion(instructions) :: RequestedItem(m)
    ensures |RequestedMotion(instructions)| <= |PlanSteps(instructions)|
  {
    if instructions != [] {
      ListBasics(instructions[..|instructions| - 1]);
      var last := instructions[|instructions| - 1];
      assert last in instructions;
      assert forall m | m in MotionFor(last) :: RequestedItem(m);
      assert forall s | s in StepsFor(last) :: Comparable(s);
    }
  }

  // The planner's own plan carries the motion asked for, for every list without a sliver.
  lemma PlannedMotionAccepted(instructions: seq<Instruction>)
    requires NoSliver(instructions) && forall i | i in instructions :: InRange(i)
    requires RequestedMotion(instructions) != [] && |PlanSteps(instructions)| <= MAX_STEPS
    ensures Accepts(PlanSteps(instructions), RequestedMotion(instructions))
  {
    ListBasics(instructions);
    ListMatches(instructions, [], []);
    assert RequestedMotion(instructions) + [] == RequestedMotion(instructions);
    assert Planned(PlanSteps(instructions)) + [] == Planned(PlanSteps(instructions));
  }

  // A list that ends with a sliver, the only one, is refused: its second step is left over.
  lemma SliverRefused(instructions: seq<Instruction>, last: Instruction)
    requires NoSliver(instructions) && Sliver(last) && forall i | i in instructions + [last] :: InRange(i)
    ensures !Accepts(PlanSteps(instructions + [last]), RequestedMotion(instructions + [last]))
  {
    var list, m := instructions + [last], last.motion;
    assert list[..|list| - 1] == instructions;
    assert forall i | i in instructions :: i in list;
    var first, steps := FirstTurn(m.amount), StepsFor(last);
    assert steps == [TurnBy(first), TurnBy(m.amount - first)];
    PlannedTwo(TurnBy(first), TurnBy(m.amount - first));
    var own := Planned(steps);
    assert Take(Turn, m.amount, m.amount, own) == Taken(1, m.amount - first);
    assert [m][1..] == [] && own[1..] != [];
    assert !Matches([m], own);
    ListMatches(instructions, [m], own);
    PlannedAppend(PlanSteps(instructions), steps);
  }

  // Every prefix of the list is accepted if and only if the list holds no sliver.
  ghost predicate PrefixesAccepted(instructions: seq<Instruction>) {
    forall k | 0 <= k <= |instructions| && RequestedMotion(instructions[..k]) != [] ::
      Accepts(PlanSteps(instructions[..k]), RequestedMotion(instructions[..k]))
  }

  lemma PrefixesAcceptedIffNoSliver(instructions: seq<Instruction>)
    requires forall i | i in instructions :: InRange(i)
    requires |PlanSteps(instructions)| <= MAX_STEPS
    ensures PrefixesAccepted(instructions) <==> NoSliver(instructions)
  {
    if NoSliver(instructions) {
      forall k | 0 <= k <= |instructions| && RequestedMotion(instructions[..k]) != []
        ensures Accepts(PlanSteps(instructions[..k]), RequestedMotion(instructions[..k]))
      {
        PrefixShorter(instructions, k);
        PlannedMotionAccepted(instructions[..k]);
      }
    } else {
      var k := SomeRefusedPrefix(instructions);
    }
  }

  lemma SomeRefusedPrefix(instructions: seq<Instruction>) returns (k: nat)
    requires (forall i | i in instructions :: InRange(i)) && !NoSliver(instructions)
    ensures 0 < k <= |instructions| && RequestedMotion(instructions[..k]) != []
    ensures !Accepts(PlanSteps(instructions[..k]), RequestedMotion(instructions[..k]))
  {
    var first := FirstSliver(instructions);
    k := first + 1;
    assert instructions[..k] == instructions[..first] + [instructions[first]];
    SliverRefused(instructions[..first], instructions[first]);
    assert (instructions[..first] + [instructions[first]])[..first] == instructions[..first];
  }

  lemma {:induction false} PrefixShorter(instructions: seq<Instruction>, k: nat)
    requires k <= |instructions|
    ensures |PlanSteps(instructions[..k])| <= |PlanSteps(instructions)|
    decreases |instructions| - k
  {
    if k < |instructions| {
      PrefixShorter(instructions, k + 1);
      assert instructions[..k + 1][..k] == instructions[..k];
    } else {
      assert instructions[..k] == instructions;
    }
  }

  lemma {:induction false} FirstSliver(instructions: seq<Instruction>) returns (k: nat)
    requires !NoSliver(instructions)
    ensures k < |instructions| && Sliver(instructions[k]) && NoSliver(instructions[..k])
  {
    k := 0;
    while !Sliver(instructions[k])
      invariant k < |instructions| && NoSliver(instructions[..k])
      invariant exists j :: k <= j < |instructions| && Sliver(instructions[j])
      decreases |instructions| - k
    {
      assert instructions[..k + 1] == instructions[..k] + [instructions[k]];
      k := k + 1;
    }
  }

  // ---------- the plan as a graph ----------

  // Plans of more than 16 steps are proposed as a chain of success edges.
  function ChainNode(rows: seq<Step>, k: nat): Node
    requires k < |rows|
  {
    RawNode.Node(ActionNode,
      if rows[k] == NoMotion then OtherAction("vision.observe") else Motor(rows[k]), false, false,
      if k + 1 < |rows| then Some(NodeId.Step(k + 1)) else None, None, None, 0,
      RECOVERABLE, true)
  }

  predicate ChainId(id: NodeId, count: nat) {
    id.Step? && id.index < count
  }

  function ChainNodeOf(rows: seq<Step>, id: NodeId): Node
    requires ChainId(id, |rows|)
  {
    ChainNode(rows, id.index)
  }

  ghost predicate IsChain(g: Graph, rows: seq<Step>) {
    && g.entry == NodeId.Step(0)
    && (forall id :: id in g.nodes <==> ChainId(id, |rows|))
    && (forall id | id in g.nodes :: g.nodes[id] == ChainNodeOf(rows, id))
  }

  method ChainPlan(rows: seq<Step>) returns (g: Graph)
    requires rows != []
    ensures IsChain(g, rows)
  {
    var nodes: map<NodeId, Node> := map[];
    for k := 0 to |rows|
      invariant forall id :: id in nodes <==> ChainId(id, k)
      invariant forall id | id in nodes :: nodes[id] == ChainNodeOf(rows, id)
    {
      nodes := nodes[NodeId.Step(k) := ChainNode(rows, k)];
    }
    g := Graph(nodes, NodeId.Step(0));
  }

  // The first `count` step identities.
  ghost predicate AreSteps(ids: seq<NodeId>, count: nat) {
    |ids| == count && forall k: nat | k < count :: ids[k] == NodeId.Step(k)
  }

  lemma {:induction false} ChainWalk(g: Graph, rows: seq<Step>, w: Walk)
    requires rows != [] && IsChain(g, rows) && IsWalk(g, w)
    ensures Length(w) < |rows| && NodeAt(g, w) == NodeId.Step(Length(w))
    ensures !BoundOn(g, w) && !SearchedOn(g, w)
    ensures AreSteps(Succeeded(g, w), Length(w))
  {
    if w.Then? {
      ChainWalk(g, rows, w.before);
      assert g.nodes[NodeAt(g, w.before)] == ChainNode(rows, Length(w.before));
    }
  }

  // All outcomes of a chain are successes, so its length determines a walk.
  lemma {:induction false} ChainWalkUnique(g: Graph, rows: seq<Step>, v: Walk, w: Walk)
    requires rows != [] && IsChain(g, rows) && IsWalk(g, v) && IsWalk(g, w) && Length(v) == Length(w)
    ensures v == w
  {
    if v.Then? {
      ChainWalk(g, rows, v.before);
      ChainWalk(g, rows, w.before);
      ChainWalkUnique(g, rows, v.before, w.before);
      assert g.nodes[NodeAt(g, v.before)] == ChainNode(rows, Length(v.before));
    }
  }

  lemma {:induction false} ChainWalksFew(g: Graph, rows: seq<Step>, ws: set<Walk>, bound: nat)
    requires rows != [] && IsChain(g, rows)
    requires forall w | w in ws :: IsWalk(g, w) && Length(w) < bound
    ensures |ws| <= bound
    decreases bound
  {
    if ws != {} {
      var longest := set w | w in ws && Length(w) == bound - 1;
      ChainWalksFew(g, rows, ws - longest, bound - 1);
      if longest != {} {
        var v :| v in longest;
        forall w | w in longest ensures w == v {
          ChainWalkUnique(g, rows, v, w);
        }
        assert longest == {v};
      }
      assert |ws| == |ws - longest| + |longest|;
    }
  }

  lemma ChainStep(g: Graph, rows: seq<Step>, id: NodeId, k: nat)
    requires IsChain(g, rows) && k < |rows| && id == NodeId.Step(k)
    ensures id in g.nodes && StepOf(g.nodes[id].action) == rows[k]
    ensures StepAllowed(g.nodes[id]) && !g.nodes[id].use && !g.nodes[id].bind
    ensures g.nodes[id].action != FollowPerson && !Searches(g.nodes[id].action)
  {
  }

  lemma {:induction false} ChainSteps(g: Graph, rows: seq<Step>, from: nat, ids: seq<NodeId>)
    requires IsChain(g, rows) && from + |ids| == |rows|
    requires forall k: nat | k < |ids| :: ids[k] == NodeId.Step(from + k)
    requires forall id | id in ids :: id in g.nodes
    ensures StepsOf(g, ids) == rows[from..]
    decreases |ids|
  {
    if ids != [] {
      var tail := ids[1..];
      ChainStep(g, rows, ids[0], from);
      ChainSteps(g, rows, from + 1, tail);
      StepsOfCons(g, ids, tail);
      Cons(rows, from);
    }
  }

  lemma Cons<T>(s: seq<T>, k: nat)
    requires k < |s|
    ensures s[k..] == [s[k]] + s[k + 1..]
  {
  }

  lemma StepsOfCons(g: Graph, ids: seq<NodeId>, tail: seq<NodeId>)
    requires ids != [] && tail == ids[1..] && forall id | id in ids :: id in g.nodes
    ensures StepsOf(g, ids) == [StepOf(g.nodes[ids[0]].action)] + StepsOf(g, tail)
  {
  }

  lemma {:induction false} ChainLinear(g: Graph, rows: seq<Step>, from: nat, ids: seq<NodeId>)
    requires IsChain(g, rows) && from + |ids| == |rows|
    requires forall k: nat | k < |ids| :: ids[k] == NodeId.Step(from + k)
    requires forall id | id in ids :: id in g.nodes
    ensures LinearAllowed(g, ids, false, false)
    decreases |ids|
  {
    if ids != [] {
      ChainStep(g, rows, ids[0], from);
      ChainLinear(g, rows, from + 1, ids[1..]);
    }
  }

  lemma {:induction false} ChainReach(g: Graph, rows: seq<Step>, k: nat) returns (w: Walk)
    requires IsChain(g, rows) && k < |rows|
    ensures IsWalk(g, w) && Length(w) == k
  {
    w := Start;
    if k > 0 {
      var before := ChainReach(g, rows, k - 1);
      ChainWalk(g, rows, before);
      assert g.nodes[NodeId.Step(k - 1)] == ChainNode(rows, k - 1);
      w := Then(before, true);
    }
  }

  function StepIds(count: nat): (ids: seq<NodeId>)
    ensures AreSteps(ids, count)
  {
    seq(count, k requires 0 <= k < count => NodeId.Step(k))
  }

  // The constraints hold of all steps of a chain.
  predicate ChainMeets(rows: seq<Step>, d: Demand) {
    && (d.motion.Some? && d.planMotion.Some? ==> d.motion == d.planMotion)
    && (MotionOf(d).Some? ==> Accepts(rows, MotionOf(d).value))
    && d.holds(StepIds(|rows|))
  }

  // Under any constraints: a chain is admitted if and only if its steps meet them.
  lemma ChainAdmissibleIff(g: Graph, rows: seq<Step>, d: Demand)
    requires rows != [] && |rows| <= MAX_STEPS && IsChain(g, rows)
    ensures Admissible(g, d) <==> ChainMeets(rows, d)
  {
    if ChainMeets(rows, d) {
      ChainAdmitted(g, rows, d);
    }
    if Admissible(g, d) {
      var w := ChainReach(g, rows, |rows| - 1);
      ChainWalk(g, rows, w);
      assert g.nodes[NodeAt(g, w)] == ChainNode(rows, Length(w));
      assert Allowed(g, d, w);
      var path := CompletedActions(g, w);
      ChainSteps(g, rows, 0, path);
      assert rows[0..] == rows;
      assert path == StepIds(|rows|);
    }
  }

  lemma ChainAdmitted(g: Graph, rows: seq<Step>, d: Demand)
    requires rows != [] && |rows| <= MAX_STEPS && IsChain(g, rows) && ChainMeets(rows, d)
    ensures Admissible(g, d)
  {
    forall ws: set<Walk> | (forall w | w in ws :: IsWalk(g, w)) ensures |ws| <= PATH_LIMIT {
      forall w | w in ws ensures Length(w) < |rows| {
        ChainWalk(g, rows, w);
      }
      ChainWalksFew(g, rows, ws, |rows|);
    }
    assert NodeId.Step(0) in g.nodes;
    forall w | IsWalk(g, w) ensures Allowed(g, d, w) {
      ChainAllowed(g, rows, d, w);
    }
  }

  // The chain for a planned list passes graph admission with the motion extracted from the same list.
  lemma ChainAdmissible(g: Graph, instructions: seq<Instruction>)
    requires NoSliver(instructions) && forall i | i in instructions :: InRange(i)
    requires RequestedMotion(instructions) != [] && |PlanSteps(instructions)| <= MAX_STEPS
    requires IsChain(g, PlanSteps(instructions))
    ensures Admissible(g, Asked(Some(RequestedMotion(instructions))))
  {
    ListBasics(instructions);
    PlannedMotionAccepted(instructions);
    ChainAdmitted(g, PlanSteps(instructions), Asked(Some(RequestedMotion(instructions))));
  }

  lemma ChainAllowed(g: Graph, rows: seq<Step>, d: Demand, w: Walk)
    requires rows != [] && |rows| <= MAX_STEPS && IsChain(g, rows) && IsWalk(g, w) && ChainMeets(rows, d)
    ensures Allowed(g, d, w)
  {
    ChainWalk(g, rows, w);
    ChainStep(g, rows, NodeAt(g, w), Length(w));
    if Length(w) + 1 == |rows| {
      ChainEnd(g, rows, d, Extended(g, EntryOf(g, w)));
    }
  }

  lemma ChainEnd(g: Graph, rows: seq<Step>, d: Demand, path: seq<NodeId>)
    requires rows != [] && |rows| <= MAX_STEPS && IsChain(g, rows) && ChainMeets(rows, d)
    requires AreSteps(path, |rows|) && forall id | id in path :: id in g.nodes
    ensures SuccessPathAllowed(g, path, d)
  {
    ChainSteps(g, rows, 0, path);
    ChainLinear(g, rows, 0, path);
    assert rows[0..] == rows;
    assert path == StepIds(|rows|);
  }
}
