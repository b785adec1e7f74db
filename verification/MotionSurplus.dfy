/**
 Which lists of instructions the planner's own steps carry out, one list at a time.
*/
module MotionSurplus {
  import opened MotionSequence
  import opened MotionPlanner
  import opened Options
  import opened PlanAdmission
  import opened TaskGraph

  // A turn just above 180 degrees leaves its second step behind.  Whether a list with such a turn is accepted depends
  // on what comes next, and what is left behind can be read off the list alone, one requested motion at a time.

  // The planned motions of one requested motion, and of several.
  function Own(m: Motion): seq<Motion> {
    Planned(StepsFor(Metric(m)))
  }

  function Flat(items: seq<Motion>): seq<Motion> {
    if items == [] then [] else Own(items[0]) + Flat(items[1..])
  }

  lemma {:induction false} FlatAppend(a: seq<Motion>, b: seq<Motion>)
    ensures Flat(a + b) == Flat(a) + Flat(b)
  {
    if a == [] {
      assert a + b == b;
    } else {
      assert (a + b)[1..] == a[1..] + b;
      FlatAppend(a[1..], b);
    }
  }

  lemma OwnIs(m: Motion)
    requires RequestedItem(m)
    ensures Own(m) == match m.kind
      case Move => [m]
      case Direction => [Motion(Direction, m.amount)]
      case Turn =>
        if Abs(m.amount) <= 180.0 then [m]
        else [Motion(Turn, FirstTurn(m.amount)), Motion(Turn, m.amount - FirstTurn(m.amount))]
  {
    var steps := StepsFor(Metric(m));
    if |steps| == 1 {
      PlannedOne(steps[0]);
      assert steps == [steps[0]];
    } else {
      PlannedTwo(steps[0], steps[1]);
      assert steps == [steps[0], steps[1]];
    }
  }

  lemma LookAroundFlat()
    ensures Planned(StepsFor(LookAround)) == Flat(MotionFor(LookAround))
  {
    LookAroundPlanned();
    var q := Motion(Turn, 90.0);
    QuarterFlat(q);
    FlatAppend([q], [q]);
    FlatAppend([q, q], [q, q]);
    assert [q, q] == [q] + [q];
    assert [q, q, q, q] == [q, q] + [q, q];
  }

  lemma QuarterFlat(q: Motion)
    requires q == Motion(Turn, 90.0)
    ensures Flat([q]) == [q]
  {
    OwnIs(q);
    assert [q][1..] == [];
  }

  // Observations vanish: the plan's motions are those of the requested ones.
  lemma InstructionFlat(i: Instruction)
    ensures Planned(StepsFor(i)) == Flat(MotionFor(i))
  {
    match i
    case Metric(m) => assert [m][1..] == [];
    case LookAround => LookAroundFlat();
    case Observe => PlannedOne(NoMotion);
  }

  lemma {:induction false} ListFlat(list: seq<Instruction>)
    ensures Planned(PlanSteps(list)) == Flat(RequestedMotion(list))
  {
    if list != [] {
      var front, last := list[..|list| - 1], list[|list| - 1];
      ListFlat(front);
      InstructionFlat(last);
      PlannedAppend(PlanSteps(front), StepsFor(last));
      FlatAppend(RequestedMotion(front), MotionFor(last));
    }
  }

  // ---------- what is left behind ----------

  // One part of the planned motions for each requested motion.
  function Joined(parts: seq<seq<Motion>>): seq<Motion> {
    if parts == [] then [] else parts[0] + Joined(parts[1..])
  }

  predicate Exactly(items: seq<Motion>, parts: seq<seq<Motion>>) {
    |parts| == |items| && forall k | 0 <= k < |items| :: Meets(items[k], parts[k], 0.0)
  }

  function Owns(items: seq<Motion>): (parts: seq<seq<Motion>>)
    ensures |parts| == |items| && forall k | 0 <= k < |items| :: parts[k] == Own(items[k])
  {
    seq(|items|, k requires 0 <= k < |items| => Own(items[k]))
  }

  // What the motions so far leave pending; nothing, when one of them is not met.
  function Leftover(pending: seq<Motion>, items: seq<Motion>, parts: seq<seq<Motion>>): Option<seq<Motion>>
    requires |parts| == |items|
    decreases |items|
  {
    if items == [] then Some(pending)
    else
      var have := pending + parts[0];
      var t := Take(items[0].kind, items[0].amount, items[0].amount, have);
      if Abs(t.remaining) > TOLERANCE then None else Leftover(have[t.count..], items[1..], parts[1..])
  }

  // A taking that stopped by itself does not see what follows.
  lemma {:induction false} TakeExtends(kind: MotionKind, value: real, remaining: real, have: seq<Motion>,
                                       rest: seq<Motion>)
    requires var t := Take(kind, value, remaining, have);
      t.count < |have| || (t.count > 0 && (Abs(t.remaining) <= TOLERANCE || kind != Turn))
    ensures Take(kind, value, remaining, have + rest) == Take(kind, value, remaining, have)
    decreases |have|
  {
    assert (have + rest)[0] == have[0];
    assert (have + rest)[1..] == have[1..] + rest;
    var m := have[0];
    var left := remaining - m.amount;
    if kind == Turn && m.kind == Turn && SameSign(m.amount, remaining) && Abs(m.amount) <= Abs(remaining) + TOLERANCE
       && Abs(left) > TOLERANCE
    {
      if |have| > 1 {
        TakeExtends(kind, value, left, have[1..], rest);
      }
    }
  }

  // Turns never overshoot by more than the tolerance.
  lemma {:induction false} TakeNoOvershoot(value: real, remaining: real, planned: seq<Motion>)
    requires SameSign(value, remaining)
    ensures var t := Take(Turn, value, remaining, planned);
            SameSign(value, t.remaining) || Abs(t.remaining) <= TOLERANCE
    decreases |planned|
  {
    if planned != [] {
      var left := remaining - planned[0].amount;
      if SameSign(value, left) {
        TakeNoOvershoot(value, left, planned[1..]);
      }
    }
  }

  lemma {:induction false} SumAppend(a: seq<Motion>, b: seq<Motion>)
    ensures Sum(a + b) == Sum(a) + Sum(b)
  {
    if a == [] {
      assert a + b == b;
    } else {
      assert (a + b)[1..] == a[1..] + b;
      SumAppend(a[1..], b);
    }
  }

  lemma {:induction false} SumNotAgainst(ms: seq<Motion>, value: real)
    requires value != 0.0 && forall m | m in ms :: SameSign(m.amount, value)
    ensures !SameSign(value, -Sum(ms))
  {
    if ms != [] {
      SumNotAgainst(ms[1..], value);
    }
  }

  lemma OwnMeets(m: Motion)
    requires RequestedItem(m)
    ensures Meets(m, Own(m), 0.0)
  {
    OwnIs(m);
    var own := Own(m);
    if |own| == 1 {
      assert own[1..] == [];
    } else {
      assert own[1..] == [own[1]] && own[1..][1..] == [];
      assert Sum(own[1..]) == own[1].amount;
    }
  }

  // A requested motion never looks past its own part.
  lemma TakeIsLocal(m: Motion, pending: seq<Motion>, part: seq<Motion>, rest: seq<Motion>)
    requires RequestedItem(m) && Meets(m, part, 0.0)
    ensures var have := pending + part;
      Take(m.kind, m.amount, m.amount, have + rest) == Take(m.kind, m.amount, m.amount, have)
  {
    var have := pending + part;
    assert part != [];
    var t := Take(m.kind, m.amount, m.amount, have);
    if m.kind == Turn && t.count == |have| {
      TakeTurns(m.amount, m.amount, have);
      TakeNoOvershoot(m.amount, m.amount, have);
      assert have[..t.count] == have;
      SumAppend(pending, part);
      assert forall x | x in pending :: x in have;
      SumNotAgainst(pending, m.amount);
    }
    TakeExtends(m.kind, m.amount, m.amount, have, rest);
  }

  // The first motion is settled on its own, and the rest is matched against what it left and what follows.
  lemma MatchesFirst(pending: seq<Motion>, items: seq<Motion>, part: seq<Motion>, rest: seq<Motion>)
    requires items != [] && RequestedItem(items[0]) && Meets(items[0], part, 0.0)
    ensures var have := pending + part; var t := Take(items[0].kind, items[0].amount, items[0].amount, have);
      Matches(items, have + rest) <==> Abs(t.remaining) <= TOLERANCE && Matches(items[1..], have[t.count..] + rest)
  {
    var have := pending + part;
    TakeIsLocal(items[0], pending, part, rest);
    var t := Take(items[0].kind, items[0].amount, items[0].amount, have);
    assert (have + rest)[t.count..] == have[t.count..] + rest;
  }

  lemma LeftoverFirst(pending: seq<Motion>, items: seq<Motion>, parts: seq<seq<Motion>>)
      returns (settled: bool, next: seq<Motion>)
    requires items != [] && RequestedItem(items[0]) && Exactly(items, parts)
    ensures settled ==> Leftover(pending, items, parts) == Leftover(next, items[1..], parts[1..])
    ensures settled ==> Matches(items, pending + Joined(parts)) == Matches(items[1..], next + Joined(parts[1..]))
    ensures !settled ==> Leftover(pending, items, parts).None? && !Matches(items, pending + Joined(parts))
  {
    var have, rest := pending + parts[0], Joined(parts[1..]);
    assert pending + Joined(parts) == have + rest;
    MatchesFirst(pending, items, parts[0], rest);
    var t := Take(items[0].kind, items[0].amount, items[0].amount, have);
    settled, next := Abs(t.remaining) <= TOLERANCE, have[t.count..];
  }

  lemma {:induction false} MatchesIsLeftover(pending: seq<Motion>, items: seq<Motion>, parts: seq<seq<Motion>>)
    requires (forall m | m in items :: RequestedItem(m)) && Exactly(items, parts)
    ensures Matches(items, pending + Joined(parts)) <==> Leftover(pending, items, parts) == Some([])
    decreases |items|
  {
    if items == [] {
      assert pending + Joined(parts) == pending;
    } else {
      var settled, next := LeftoverFirst(pending, items, parts);
      if settled {
        MatchesIsLeftover(next, items[1..], parts[1..]);
      }
    }
  }

  // ---------- the exact condition for any exact split ----------

  // The parts of a split given by its lengths.
  function Cut(planned: seq<Motion>, lengths: seq<nat>): (parts: seq<seq<Motion>>)
    ensures |parts| == |lengths|
  {
    if lengths == [] then []
    else
      var n := if lengths[0] <= |planned| then lengths[0] else |planned|;
      [planned[..n]] + Cut(planned[n..], lengths[1..])
  }

  lemma OnePart(items: seq<Motion>, parts: seq<seq<Motion>>)
    requires items != [] && parts != [] && Meets(items[0], parts[0], 0.0) && Exactly(items[1..], parts[1..])
    ensures Exactly(items, parts)
  {
    forall k | 0 <= k < |items| ensures Meets(items[k], parts[k], 0.0) {
      assert k > 0 ==> items[k] == items[1..][k - 1] && parts[k] == parts[1..][k - 1];
    }
  }

  lemma {:induction false} CutExactly(expected: seq<Motion>, planned: seq<Motion>, lengths: seq<nat>)
    requires SplitBy(expected, planned, lengths, 0.0)
    ensures Exactly(expected, Cut(planned, lengths)) && Joined(Cut(planned, lengths)) == planned
  {
    if expected != [] {
      var n := lengths[0];
      CutExactly(expected[1..], planned[n..], lengths[1..]);
      var parts := Cut(planned, lengths);
      assert parts[0] == planned[..n] && parts[1..] == Cut(planned[n..], lengths[1..]);
      assert planned == planned[..n] + planned[n..];
      OnePart(expected, parts);
    }
  }

  // Whatever the amounts: an exact split is accepted if and only if its parts, one after the other, leave nothing
  // behind.
  lemma ExactSplitAcceptedIff(steps: seq<Step>, expected: seq<Motion>, lengths: seq<nat>)
    requires Requested(expected) && forall s | s in steps :: Comparable(s)
    requires SplitBy(expected, Planned(steps), lengths, 0.0) && |lengths| == |expected|
    ensures Accepts(steps, expected) <==> Leftover([], expected, Cut(Planned(steps), lengths)) == Some([])
  {
    CutExactly(expected, Planned(steps), lengths);
    MatchesIsLeftover([], expected, Cut(Planned(steps), lengths));
    assert [] + Joined(Cut(Planned(steps), lengths)) == Planned(steps);
  }

  lemma {:induction false} FlatIsJoined(items: seq<Motion>)
    ensures Flat(items) == Joined(Owns(items))
  {
    if items != [] {
      FlatIsJoined(items[1..]);
      assert Owns(items)[1..] == Owns(items[1..]);
    }
  }

  // ---------- the planner's lists ----------

  // The exact condition for one list, whatever it holds: its motions, one after the other, leave nothing behind.
  lemma ListAcceptedIff(list: seq<Instruction>)
    requires forall i | i in list :: InRange(i)
    requires RequestedMotion(list) != [] && |PlanSteps(list)| <= MAX_STEPS
    ensures var motion := RequestedMotion(list);
      Accepts(PlanSteps(list), motion) <==> Leftover([], motion, Owns(motion)) == Some([])
  {
    ListBasics(list);
    ListFlat(list);
    var motion := RequestedMotion(list);
    FlatIsJoined(motion);
    forall k | 0 <= k < |motion| ensures Meets(motion[k], Owns(motion)[k], 0.0) {
      OwnMeets(motion[k]);
    }
    MatchesIsLeftover([], motion, Owns(motion));
    assert [] + Flat(motion) == Flat(motion);
  }

  // ---------- the surplus, as one number ----------

  // The surplus after one more motion, when every amount exceeds the tolerance; 0 is none.  A sliver leaves its second
  // step.  Only a turn the same way takes a surplus up: one of at most 180 degrees, when the surplus is within the
  // tolerance, and a larger one also when its own second step is within the tolerance of the surplus, which it then
  // leaves in turn.
  function SurplusStep(c: real, m: Motion): Option<real> {
    var v, d := m.amount, m.amount - FirstTurn(m.amount);
    if c == 0.0 then Some(if m.kind == Turn && 180.0 < Abs(v) <= 180.0 + TOLERANCE then d else 0.0)
    else if m.kind != Turn || !SameSign(c, v) || Abs(c) > Abs(v) + TOLERANCE then None
    else if Abs(v - c) <= TOLERANCE then Some(v)
    else if d != 0.0 && Abs(d - c) <= TOLERANCE then Some(d)
    else if Abs(c) <= TOLERANCE then Some(0.0)
    else None
  }

  function Surplus(c: real, items: seq<Motion>): Option<real>
    decreases |items|
  {
    if items == [] then Some(c)
    else
      var next := SurplusStep(c, items[0]);
      if next.None? then None else Surplus(next.value, items[1..])
  }

  function Pending(c: real): seq<Motion> {
    if c == 0.0 then [] else [Motion(Turn, c)]
  }

  predicate Settles(c: real, m: Motion) {
    var have := Pending(c) + Own(m);
    var t := Take(m.kind, m.amount, m.amount, have);
    if SurplusStep(c, m).None? then Abs(t.remaining) > TOLERANCE
    else Abs(t.remaining) <= TOLERANCE && have[t.count..] == Pending(SurplusStep(c, m).value)
  }

  predicate Above(m: Motion) {
    Abs(m.amount) > TOLERANCE
  }

  lemma NoSurplusSettles(m: Motion)
    requires RequestedItem(m)
    ensures Settles(0.0, m)
  {
    OwnIs(m);
    var have := Pending(0.0) + Own(m);
    assert have == Own(m);
    if m.kind == Turn && Abs(m.amount) > 180.0 {
      assert have[1..] == [Motion(Turn, m.amount - FirstTurn(m.amount))];
      assert have[1..][1..] == [];
    }
  }

  lemma OtherMotionRefuses(c: real, m: Motion)
    requires RequestedItem(m) && Above(m) && c != 0.0
    requires m.kind != Turn || !SameSign(c, m.amount) || Abs(c) > Abs(m.amount) + TOLERANCE
    ensures Settles(c, m)
  {
    assert (Pending(c) + Own(m))[0] == Motion(Turn, c);
  }

  // What a turn does after it took the surplus.
  lemma SmallTurnSettles(c: real, m: Motion)
    requires RequestedItem(m) && Above(m) && c != 0.0 && Abs(c) < 1.0 && m.kind == Turn && SameSign(c, m.amount)
    requires Abs(c) <= Abs(m.amount) + TOLERANCE && Abs(m.amount) <= 180.0
    ensures Settles(c, m)
  {
    OwnIs(m);
    var v := m.amount;
    var have := Pending(c) + Own(m);
    assert have == [Motion(Turn, c), m];
    assert have[1..] == [m] && have[1..][1..] == [] && have[2..] == [];
    assert Take(Turn, v, v - c, have[1..]) == if Abs(v) > Abs(v - c) + TOLERANCE || !SameSign(v, v - c)
      then Taken(0, v - c)
                                              else Taken(1, -c);
  }

  lemma LargeTurnSettles(c: real, m: Motion)
    requires RequestedItem(m) && c != 0.0 && Abs(c) < 1.0 && m.kind == Turn && SameSign(c, m.amount)
    requires Abs(m.amount) > 180.0
    ensures Settles(c, m)
  {
    OwnIs(m);
    var v, first := m.amount, FirstTurn(m.amount);
    var d := v - first;
    var have := Pending(c) + Own(m);
    assert have == [Motion(Turn, c), Motion(Turn, first), Motion(Turn, d)];
    var two, one := [Motion(Turn, first), Motion(Turn, d)], [Motion(Turn, d)];
    assert have[1..] == two && two[1..] == one && one[1..] == [] && have[2..] == one && have[3..] == [];
    if Abs(c) <= Abs(d) + TOLERANCE && Abs(d - c) > TOLERANCE {
      SecondTurn(v, c, d);
    }
    assert Take(Turn, v, v - c, two) == if Abs(first) > Abs(v - c) + TOLERANCE then Taken(0, v - c)
      else if Abs(d - c) <= TOLERANCE then Taken(1, d - c)
      else Taken(Take(Turn, v, d - c, one).count + 1, Take(Turn, v, d - c, one).remaining);
  }

  lemma SecondTurn(v: real, c: real, d: real)
    requires SameSign(c, d) && Abs(c) <= Abs(d) + TOLERANCE && Abs(d - c) > TOLERANCE
    ensures Take(Turn, v, d - c, [Motion(Turn, d)]) == if Abs(c) <= TOLERANCE then Taken(1, -c) else Taken(0, d - c)
  {
    assert [Motion(Turn, d)][1..] == [];
  }

  lemma SurplusSettles(c: real, m: Motion)
    requires RequestedItem(m) && Above(m) && Abs(c) < 1.0
    ensures Settles(c, m)
  {
    if c == 0.0 {
      NoSurplusSettles(m);
    } else if m.kind != Turn || !SameSign(c, m.amount) || Abs(c) > Abs(m.amount) + TOLERANCE {
      OtherMotionRefuses(c, m);
    } else if Abs(m.amount) <= 180.0 {
      SmallTurnSettles(c, m);
    } else {
      LargeTurnSettles(c, m);
    }
  }

  lemma SurplusSmall(c: real, m: Motion)
    ensures SurplusStep(c, m).Some? ==> Abs(SurplusStep(c, m).value) <= Abs(c) + TOLERANCE
  {
  }

  lemma {:induction false} LeftoverIsSurplus(c: real, items: seq<Motion>)
    requires (forall m | m in items :: RequestedItem(m) && Above(m)) && Abs(c) + |items| as real * TOLERANCE < 1.0
    ensures Leftover(Pending(c), items, Owns(items))
            == if Surplus(c, items).None? then None else Some(Pending(Surplus(c, items).value))
    decreases |items|
  {
    if items != [] {
      assert Owns(items)[1..] == Owns(items[1..]);
      assert |items| as real * TOLERANCE == |items[1..]| as real * TOLERANCE + TOLERANCE;
      SurplusSettles(c, items[0]);
      SurplusSmall(c, items[0]);
      var next := SurplusStep(c, items[0]);
      if next.Some? {
        LeftoverIsSurplus(next.value, items[1..]);
      }
    }
  }

  // The exact condition for one list, read off its motions: every surplus is taken up.
  lemma ListAcceptedIffTakenUp(list: seq<Instruction>)
    requires (forall i | i in list :: InRange(i)) && forall m | m in RequestedMotion(list) :: Above(m)
    requires RequestedMotion(list) != [] && |PlanSteps(list)| <= MAX_STEPS
    ensures Accepts(PlanSteps(list), RequestedMotion(list)) <==> Surplus(0.0, RequestedMotion(list)) == Some(0.0)
  {
    ListBasics(list);
    LeftoverIsSurplus(0.0, RequestedMotion(list));
    ListAcceptedIff(list);
  }

  // And so it is for the graph that is proposed for the list.
  lemma ListChainIff(g: Graph, list: seq<Instruction>)
    requires forall i | i in list :: InRange(i)
    requires RequestedMotion(list) != [] && |PlanSteps(list)| <= MAX_STEPS && IsChain(g, PlanSteps(list))
    ensures var motion := RequestedMotion(list);
      Admissible(g, Asked(Some(motion))) <==> Leftover([], motion, Owns(motion)) == Some([])
  {
    ListBasics(list);
    ListAcceptedIff(list);
    ChainAdmissibleIff(g, PlanSteps(list), Asked(Some(RequestedMotion(list))));
  }

  lemma TwoInstructions(a: Motion, b: Motion)
    ensures RequestedMotion([Metric(a), Metric(b)]) == [a, b]
    ensures PlanSteps([Metric(a), Metric(b)]) == StepsFor(Metric(a)) + StepsFor(Metric(b))
  {
    var list := [Metric(a), Metric(b)];
    assert list[..1] == [Metric(a)] && [Metric(a)][..0] == [];
    assert RequestedMotion([Metric(a)]) == [a] && PlanSteps([Metric(a)]) == StepsFor(Metric(a));
  }

  // So a sliver before an ordinary motion is accepted exactly when that motion is a turn the same way.
  lemma SliverThen(a: Motion, b: Motion)
    requires Sliver(Metric(a)) && RequestedItem(b) && 2.0 * TOLERANCE < Abs(b.amount) <= 180.0
    ensures var list := [Metric(a), Metric(b)];
      Accepts(PlanSteps(list), RequestedMotion(list)) <==> b.kind == Turn && SameSign(a.amount, b.amount)
  {
    TwoInstructions(a, b);
    assert [a, b][1..] == [b] && [b][1..] == [];
    var c := a.amount - FirstTurn(a.amount);
    assert Surplus(0.0, [a, b]) == Surplus(c, [b]);
    assert Surplus(c, [b]) == SurplusStep(c, b);
    ListAcceptedIffTakenUp([Metric(a), Metric(b)]);
  }
}
