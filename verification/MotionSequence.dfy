/**
 The comparison of a plan's motion with the motion the user asked for.
*/
module MotionSequence {
  // `CheckMotionSequence` is the loop of r2b4_orchestration/brain_core.py: it walks once over the planned motions and
  // lets each requested item take as many of them as it can.  Amounts are reals, so the tolerance is the only source of
  // slack.  The reference definition is a split of the planned motions into consecutive segments, one for each
  // requested item.

  const TOLERANCE: real := 0.000000001
  const MAX_ITEMS := 32

  datatype MotionKind = Move | Turn | Direction

  datatype Motion = Motion(kind: MotionKind, amount: real)

  // What the check reads of a plan step.
  datatype Step =
    | MoveRelative(forward: real, left: real, finalYaw: real)
    | TurnBy(angle: real)
    | Forward
    | Backward
    | NoMotion

  function Abs(x: real): (r: real)
    ensures r >= 0.0
  {
    if x < 0.0 then -x else x
  }

  predicate SameSign(x: real, y: real) {
    (x > 0.0 && y > 0.0) || (x < 0.0 && y < 0.0)
  }

  // The loop decides the sign by a product.
  method PositiveProduct(x: real, y: real) returns (positive: bool)
    ensures positive == SameSign(x, y)
  {
    positive := x * y > 0.0;
  }

  // The validation of a requested sequence.
  predicate RequestedItem(m: Motion) {
    && m.amount != 0.0
    && (m.kind == Direction ==> Abs(m.amount) == 1.0)
    && (m.kind == Turn ==> Abs(m.amount) <= 360.0)
    && (m.kind == Move ==> Abs(m.amount) <= 100.0)
  }

  predicate Requested(expected: seq<Motion>) {
    1 <= |expected| <= MAX_ITEMS && forall m | m in expected :: RequestedItem(m)
  }

  // A sideways or turning translation cannot be compared and is refused.
  predicate Comparable(s: Step) {
    s.MoveRelative? ==> s.left == 0.0 && s.finalYaw == 0.0
  }

  function MotionsOf(s: Step): seq<Motion> {
    match s
    case MoveRelative(f, _, _) => [Motion(Move, f)]
    case TurnBy(a) => [Motion(Turn, a)]
    case Forward => [Motion(Direction, 1.0)]
    case Backward => [Motion(Direction, -1.0)]
    case NoMotion => []
  }

  function Planned(steps: seq<Step>): seq<Motion> {
    if steps == [] then [] else MotionsOf(steps[0]) + Planned(steps[1..])
  }

  lemma PlannedAppend(a: seq<Step>, b: seq<Step>)
    ensures Planned(a + b) == Planned(a) + Planned(b)
  {
    if a == [] {
      assert a + b == b;
    } else {
      assert (a + b)[1..] == a[1..] + b;
      PlannedAppend(a[1..], b);
    }
  }

  // ---------- what the loop takes, as a function ----------

  datatype Taken = Taken(count: nat, remaining: real)

  // One requested item against the planned motions that are left.
  function Take(kind: MotionKind, value: real, remaining: real, planned: seq<Motion>): (t: Taken)
    ensures t.count <= |planned|
    decreases |planned|
  {
    if planned == [] then Taken(0, remaining)
    else
      var m := planned[0];
      if kind == Direction && m.kind == Move && SameSign(m.amount, value) then Taken(1, 0.0)
      else if m.kind != kind || !SameSign(m.amount, remaining) || Abs(m.amount) > Abs(remaining) + TOLERANCE
      then Taken(0, remaining)
      else
        var left := remaining - m.amount;
        if Abs(left) <= TOLERANCE || kind != Turn then Taken(1, left)
        else
          var rest := Take(kind, value, left, planned[1..]);
          Taken(rest.count + 1, rest.remaining)
  }

  predicate Matches(expected: seq<Motion>, planned: seq<Motion>) {
    if expected == [] then planned == []
    else
      var t := Take(expected[0].kind, expected[0].amount, expected[0].amount, planned);
      Abs(t.remaining) <= TOLERANCE && Matches(expected[1..], planned[t.count..])
  }

  predicate Accepts(steps: seq<Step>, expected: seq<Motion>) {
    && Requested(expected)
    && (forall s | s in steps :: Comparable(s))
    && Matches(expected, Planned(steps))
  }

  method PlannedMotions(steps: seq<Step>) returns (ok: bool, actual: seq<Motion>)
    ensures ok <==> forall s | s in steps :: Comparable(s)
    ensures ok ==> actual == Planned(steps)
  {
    actual := [];
    for k := 0 to |steps|
      invariant actual == Planned(steps[..k])
      invariant forall s | s in steps[..k] :: Comparable(s)
    {
      assert steps[..k + 1] == steps[..k] + [steps[k]];
      if !Comparable(steps[k]) {
        return false, actual;
      }
      PlannedAppend(steps[..k], [steps[k]]);
      assert Planned([steps[k]]) == MotionsOf(steps[k]);
      actual := actual + MotionsOf(steps[k]);
    }
    assert steps[..|steps|] == steps;
    ok := true;
  }

  // The inner loop, from one position for one requested item.
  method TakeItem(kind: MotionKind, value: real, actual: seq<Motion>, start: nat) returns (index: nat, remaining: real)
    requires start <= |actual|
    ensures start <= index <= |actual|
    ensures Take(kind, value, value, actual[start..]) == Taken(index - start, remaining)
  {
    index, remaining := start, value;
    while index < |actual|
      invariant start <= index <= |actual|
      invariant var t := Take(kind, value, remaining, actual[index..]);
        Take(kind, value, value, actual[start..]) == Taken(t.count + (index - start), t.remaining)
      decreases |actual| - index
    {
      var m := actual[index];
      assert actual[index..][0] == m && actual[index..][1..] == actual[index + 1..];
      var alongValue := PositiveProduct(m.amount, value);
      var alongRemaining := PositiveProduct(m.amount, remaining);
      if kind == Direction && m.kind == Move && alongValue {
        return index + 1, 0.0;
      }
      if m.kind != kind || !alongRemaining || Abs(m.amount) > Abs(remaining) + TOLERANCE {
        return;
      }
      index := index + 1;
      remaining := remaining - m.amount;
      // Only turns may be decomposed.
      if Abs(remaining) <= TOLERANCE || kind != Turn {
        return;
      }
    }
  }

  method CheckMotionSequence(steps: seq<Step>, expected: seq<Motion>) returns (ok: bool)
    ensures ok == Accepts(steps, expected)
  {
    var comparable, actual := PlannedMotions(steps);
    if !comparable || !Requested(expected) {
      return false;
    }
    ok := MatchMotions(expected, actual);
  }

  method MatchMotions(expected: seq<Motion>, actual: seq<Motion>) returns (ok: bool)
    ensures ok == Matches(expected, actual)
  {
    var index := 0;
    for item := 0 to |expected|
      invariant Reached(expected, actual, item, index)
    {
      var next, remaining := TakeItem(expected[item].kind, expected[item].amount, actual, index);
      ReachedStep(expected, actual, item, index, next, remaining);
      index := next;
      if Abs(remaining) > TOLERANCE {
        return false;
      }
    }
    ok := index == |actual|;
  }

  // Nothing decided yet: what is left of both lists decides.
  ghost predicate Reached(expected: seq<Motion>, actual: seq<Motion>, item: nat, index: nat) {
    && item <= |expected| && index <= |actual|
    && Matches(expected, actual) == Matches(expected[item..], actual[index..])
  }

  lemma ReachedStep(expected: seq<Motion>, actual: seq<Motion>, item: nat, index: nat, next: nat, remaining: real)
    requires item < |expected| && Reached(expected, actual, item, index) && index <= next <= |actual|
    requires Take(expected[item].kind, expected[item].amount, expected[item].amount, actual[index..])
             == Taken(next - index, remaining)
    ensures if Abs(remaining) <= TOLERANCE then Reached(expected, actual, item + 1, next)
            else !Matches(expected, actual)
  {
    assert expected[item..][1..] == expected[item + 1..];
    assert actual[index..][next - index..] == actual[next..];
  }

  // ---------- the reference definition: consecutive segments ----------

  function Sum(ms: seq<Motion>): real {
    if ms == [] then 0.0 else ms[0].amount + Sum(ms[1..])
  }

  // A segment of planned motions meets one requested item within a tolerance.
  predicate Meets(item: Motion, segment: seq<Motion>, tolerance: real) {
    match item.kind
    case Turn =>
      && (forall m | m in segment :: m.kind == Turn && SameSign(m.amount, item.amount))
      && Abs(item.amount - Sum(segment)) <= tolerance
    case Move =>
      || (segment == [] && Abs(item.amount) <= tolerance)
      || (|segment| == 1 && segment[0].kind == Move && SameSign(segment[0].amount, item.amount)
          && Abs(item.amount - segment[0].amount) <= tolerance)
    case Direction =>
      && |segment| == 1
      && SameSign(segment[0].amount, item.amount)
      && (segment[0].kind == Move
          || (segment[0].kind == Direction && Abs(item.amount - segment[0].amount) <= tolerance))
  }

  predicate SplitBy(expected: seq<Motion>, planned: seq<Motion>, lengths: seq<nat>, tolerance: real) {
    if expected == [] then planned == [] && lengths == []
    else
      && lengths != []
      && lengths[0] <= |planned|
      && Meets(expected[0], planned[..lengths[0]], tolerance)
      && SplitBy(expected[1..], planned[lengths[0]..], lengths[1..], tolerance)
  }

  ghost predicate Splits(expected: seq<Motion>, planned: seq<Motion>, tolerance: real) {
    exists lengths :: SplitBy(expected, planned, lengths, tolerance)
  }

  predicate AllAbove(planned: seq<Motion>, bound: real) {
    forall m | m in planned :: Abs(m.amount) > bound
  }

  // ---------- soundness ----------

  lemma {:induction false} TakeTurns(value: real, remaining: real, planned: seq<Motion>)
    requires SameSign(value, remaining)
    ensures var t := Take(Turn, value, remaining, planned);
      && (forall m | m in planned[..t.count] :: m.kind == Turn && SameSign(m.amount, value))
      && t.remaining == remaining - Sum(planned[..t.count])
    decreases |planned|
  {
    var t := Take(Turn, value, remaining, planned);
    if t.count > 0 {
      var left := remaining - planned[0].amount;
      assert planned[..t.count] == [planned[0]] + planned[1..][..t.count - 1];
      if t.count == 1 {
        assert planned[..1] == [planned[0]];
        assert Sum(planned[..1]) == planned[0].amount;
        if Abs(left) > TOLERANCE {
          assert SameSign(value, left);
          TakeTurns(value, left, planned[1..]);
        }
      } else {
        assert SameSign(value, left);
        TakeTurns(value, left, planned[1..]);
        assert planned[..t.count][1..] == planned[1..][..t.count - 1];
      }
    }
  }

  lemma TakeMeets(item: Motion, planned: seq<Motion>)
    requires RequestedItem(item)
    requires Abs(Take(item.kind, item.amount, item.amount, planned).remaining) <= TOLERANCE
    ensures Meets(item, planned[..Take(item.kind, item.amount, item.amount, planned).count], TOLERANCE)
  {
    if item.kind == Turn {
      TakeTurns(item.amount, item.amount, planned);
    }
  }

  // Everything accepted is a split, each segment within the tolerance.
  lemma {:induction false} MatchesSplits(expected: seq<Motion>, planned: seq<Motion>) returns (lengths: seq<nat>)
    requires forall m | m in expected :: RequestedItem(m)
    requires Matches(expected, planned)
    ensures SplitBy(expected, planned, lengths, TOLERANCE)
  {
    if expected == [] {
      lengths := [];
    } else {
      var t := Take(expected[0].kind, expected[0].amount, expected[0].amount, planned);
      TakeMeets(expected[0], planned);
      var rest := MatchesSplits(expected[1..], planned[t.count..]);
      lengths := [t.count] + rest;
      assert lengths[1..] == rest;
    }
  }

  // ---------- completeness ----------

  lemma {:induction false} SumSign(segment: seq<Motion>, value: real, bound: real)
    requires segment != [] && bound >= 0.0
    requires forall m | m in segment :: SameSign(m.amount, value)
    requires AllAbove(segment, bound)
    ensures value > 0.0 ==> Sum(segment) >= segment[0].amount > bound
    ensures value < 0.0 ==> Sum(segment) <= segment[0].amount < -bound
  {
    if |segment| > 1 {
      SumSign(segment[1..], value, bound);
    } else {
      assert segment[1..] == [];
    }
  }

  // The first turn of a segment is taken, and it settles the item only when it is the last one.
  lemma FirstTurnFits(value: real, remaining: real, segment: seq<Motion>, tolerance: real)
    requires 0.0 <= tolerance <= TOLERANCE && segment != []
    requires forall m | m in segment :: SameSign(m.amount, value)
    requires Abs(remaining - Sum(segment)) <= tolerance
    requires AllAbove(segment, tolerance + TOLERANCE)
    ensures SameSign(segment[0].amount, remaining) && Abs(segment[0].amount) <= Abs(remaining) + TOLERANCE
    ensures Abs(remaining - segment[0].amount) <= TOLERANCE <==> |segment| == 1
  {
    SumSign(segment, value, tolerance + TOLERANCE);
    if |segment| > 1 {
      SumSign(segment[1..], value, tolerance + TOLERANCE);
    }
  }

  lemma {:induction false} TakeSegmentOfTurns(value: real, remaining: real, segment: seq<Motion>, rest: seq<Motion>,
                                              tolerance: real)
    requires 0.0 <= tolerance <= TOLERANCE
    requires value != 0.0
    requires forall m | m in segment :: m.kind == Turn && SameSign(m.amount, value)
    requires Abs(remaining - Sum(segment)) <= tolerance
    requires AllAbove(segment + rest, tolerance + TOLERANCE)
    ensures Take(Turn, value, remaining, segment + rest) == Taken(|segment|, remaining - Sum(segment))
    decreases |segment|
  {
    var planned := segment + rest;
    if segment == [] {
      assert planned == rest;
      if rest != [] {
        assert rest[0] in planned;
      }
    } else {
      var m, left := segment[0], remaining - segment[0].amount;
      assert planned[0] == m && m in planned;
      assert forall x | x in segment :: x in planned;
      FirstTurnFits(value, remaining, segment, tolerance);
      assert planned[1..] == segment[1..] + rest;
      if |segment| == 1 {
        assert segment[1..] == [];
      } else {
        assert forall x | x in segment[1..] + rest :: x in planned;
        TakeSegmentOfTurns(value, left, segment[1..], rest, tolerance);
      }
    }
  }

  lemma TakeSegment(item: Motion, segment: seq<Motion>, rest: seq<Motion>, tolerance: real)
    requires RequestedItem(item)
    requires 0.0 <= tolerance <= TOLERANCE
    requires Meets(item, segment, tolerance)
    requires AllAbove(segment + rest, tolerance + TOLERANCE)
    ensures var t := Take(item.kind, item.amount, item.amount, segment + rest);
      t.count == |segment| && Abs(t.remaining) <= TOLERANCE
  {
    if item.kind == Turn {
      TakeSegmentOfTurns(item.amount, item.amount, segment, rest, tolerance);
    } else if segment == [] {
      assert segment + rest == rest;
      if rest != [] {
        assert rest[0] in segment + rest;
      }
    } else {
      assert (segment + rest)[0] == segment[0];
    }
  }

  // No split is refused when every planned amount exceeds the slack the greedy walk may leave behind.
  lemma {:induction false} SplitMatches(expected: seq<Motion>, planned: seq<Motion>, lengths: seq<nat>, tolerance: real)
    requires forall m | m in expected :: RequestedItem(m)
    requires 0.0 <= tolerance <= TOLERANCE
    requires SplitBy(expected, planned, lengths, tolerance)
    requires AllAbove(planned, tolerance + TOLERANCE)
    ensures Matches(expected, planned)
  {
    if expected != [] {
      var n := lengths[0];
      assert planned == planned[..n] + planned[n..];
      TakeSegment(expected[0], planned[..n], planned[n..], tolerance);
      SplitMatches(expected[1..], planned[n..], lengths[1..], tolerance);
    }
  }

  // The main result: acceptance is the existence of a split, for every request and every plan.
  lemma AcceptsIffSplits(steps: seq<Step>, expected: seq<Motion>)
    requires AllAbove(Planned(steps), 2.0 * TOLERANCE)
    ensures Accepts(steps, expected) <==>
            Requested(expected) && (forall s | s in steps :: Comparable(s))
              && Splits(expected, Planned(steps), TOLERANCE)
  {
    if Accepts(steps, expected) {
      var lengths := MatchesSplits(expected, Planned(steps));
    }
    if Requested(expected) && Splits(expected, Planned(steps), TOLERANCE) {
      var lengths :| SplitBy(expected, Planned(steps), lengths, TOLERANCE);
      SplitMatches(expected, Planned(steps), lengths, TOLERANCE);
    }
  }

  // With amounts above the tolerance itself, no exact split is refused.
  lemma ExactSplitAccepted(steps: seq<Step>, expected: seq<Motion>)
    requires Requested(expected) && forall s | s in steps :: Comparable(s)
    requires AllAbove(Planned(steps), TOLERANCE)
    requires Splits(expected, Planned(steps), 0.0)
    ensures Accepts(steps, expected)
  {
    var lengths :| SplitBy(expected, Planned(steps), lengths, 0.0);
    SplitMatches(expected, Planned(steps), lengths, 0.0);
  }

  // The bound is needed: a last turn no larger than the tolerance is left over and the plan is refused.
  lemma TinyTurnRefused()
    ensures var steps := [TurnBy(90.0), TurnBy(TOLERANCE)];
      var expected := [Motion(Turn, 90.0 + TOLERANCE)];
      && Requested(expected)
      && Splits(expected, Planned(steps), 0.0)
      && !Accepts(steps, expected)
  {
    var steps := [TurnBy(90.0), TurnBy(TOLERANCE)];
    var expected := [Motion(Turn, 90.0 + TOLERANCE)];
    var planned := [Motion(Turn, 90.0), Motion(Turn, TOLERANCE)];
    assert steps[1..] == [TurnBy(TOLERANCE)] && steps[1..][1..] == [];
    assert Planned(steps[1..]) == [Motion(Turn, TOLERANCE)];
    assert Planned(steps) == planned;
    assert planned[1..] == [Motion(Turn, TOLERANCE)] && planned[1..][1..] == [];
    assert Sum(planned[1..]) == TOLERANCE;
    assert Sum(planned) == 90.0 + TOLERANCE;
    assert planned[..2] == planned && planned[2..] == [] && expected[1..] == [];
    assert [2][1..] == [];
    assert SplitBy(expected[1..], planned[2..], [2][1..], 0.0);
    assert SplitBy(expected, planned, [2], 0.0);
    assert Take(Turn, 90.0 + TOLERANCE, 90.0 + TOLERANCE, planned) == Taken(1, TOLERANCE);
    assert !Matches(expected[1..], planned[1..]);
  }
}
