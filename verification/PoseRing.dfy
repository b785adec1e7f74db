/**
 The bounded ring of completed poses, looked up by the time of a scan.

 Poses are exact reals here.  The yaw of an interpolated pose is a trigonometric blend of its neighbours and is not
 computed: the result names the two neighbours and the fraction that it is blended from.
*/
module PoseRing {
  import opened Options

  datatype Pose = Pose(time: nat, x: real, y: real, yaw: real)

  datatype Fix =
    | Exact(pose: Pose)
    | Blend(before: Pose, after: Pose, fraction: real, x: real, y: real)

  datatype Checkpoint = Checkpoint(frame: nat, capacity: nat, poses: seq<Pose>)

  predicate Increasing(poses: seq<Pose>) {
    forall i, j | 0 <= i < j < |poses| :: poses[i].time < poses[j].time
  }

  // What `restore` compares: neighbours only.
  predicate Stepwise(poses: seq<Pose>) {
    forall i | 0 <= i < |poses| - 1 :: poses[i].time < poses[i + 1].time
  }

  function Tail(history: seq<Pose>, capacity: nat): seq<Pose> {
    if |history| <= capacity then history else history[|history| - capacity..]
  }

  function Between(before: Pose, after: Pose, t: nat): Fix
    requires before.time < after.time
  {
    var f := (t - before.time) as real / (after.time - before.time) as real;
    Blend(before, after, f, before.x + f * (after.x - before.x), before.y + f * (after.y - before.y))
  }

  // The lookup by definition, from the newest pose back.
  function Look(history: seq<Pose>, t: nat): Option<Fix>
    requires Increasing(history)
  {
    if history == [] || t > history[|history| - 1].time then None
    else if t == history[|history| - 1].time then Some(Exact(history[|history| - 1]))
    else if |history| > 1 && t > history[|history| - 2].time then
      Some(Between(history[|history| - 2], history[|history| - 1], t))
    else Look(history[..|history| - 1], t)
  }

  // Where `bisect_left` points.
  predicate Points(poses: seq<Pose>, t: nat, k: nat) {
    && k <= |poses|
    && (forall i | 0 <= i < k :: poses[i].time < t)
    && (forall i | k <= i < |poses| :: t <= poses[i].time)
  }

  method BisectLeft(poses: seq<Pose>, t: nat) returns (k: nat)
    requires Increasing(poses)
    ensures Points(poses, t, k)
  {
    var low, high := 0, |poses|;
    while low < high
      invariant low <= high <= |poses|
      invariant forall i | 0 <= i < low :: poses[i].time < t
      invariant forall i | high <= i < |poses| :: t <= poses[i].time
    {
      var middle := (low + high) / 2;
      if poses[middle].time < t {
        low := middle + 1;
      } else {
        high := middle;
      }
    }
    k := low;
  }

  class NativePoseFeedback {
    const frame: nat
    const capacity: nat
    var poses: seq<Pose>
    ghost var history: seq<Pose>

    // The ring is the last `capacity` poses of everything published (or restored), at increasing times.
    ghost predicate Valid()
      reads this
    {
      capacity >= 2 && Increasing(history) && poses == Tail(history, capacity)
    }

    constructor (frame: nat, capacity: nat)
      requires capacity >= 2
      ensures Valid() && history == [] && this.frame == frame && this.capacity == capacity
    {
      this.frame, this.capacity := frame, capacity;
      poses, history := [], [];
    }

    // A pose of another frame, or one that is not newer than the last, is refused.
    method Publish(poseFrame: nat, p: Pose) returns (accepted: bool)
      requires Valid()
      modifies this
      ensures Valid()
      ensures accepted <==> poseFrame == frame && (old(history) == [] || old(history)[|old(history)| - 1].time < p.time)
      ensures history == if accepted then old(history) + [p] else old(history)
    {
      if poseFrame != frame || (poses != [] && p.time <= poses[|poses| - 1].time) {
        return false;
      }
      TailGrows(history, capacity, p);
      poses := poses + [p];
      if |poses| > capacity {
        poses := poses[|poses| - capacity..];
      }
      history := history + [p];
      accepted := true;
    }

    // The ring answers as the whole history does, from its oldest pose on.
    method Lookup(t: nat) returns (r: Option<Fix>)
      requires Valid()
      ensures r == if poses == [] || t < poses[0].time then None else Look(history, t)
    {
      if poses == [] || t < poses[0].time || t > poses[|poses| - 1].time {
        return None;
      }
      var k := BisectLeft(poses, t);
      LookPoints(poses, t, k);
      LookTail(history, capacity, t);
      if poses[k].time == t {
        return Some(Exact(poses[k]));
      }
      r := Some(Between(poses[k - 1], poses[k], t));
    }

    method TakeCheckpoint() returns (c: Checkpoint)
      requires Valid()
      ensures c == Checkpoint(frame, capacity, poses)
    {
      c := Checkpoint(frame, capacity, poses);
    }

    // A checkpoint of another owner, too long or out of order is refused.
    method Restore(c: Checkpoint) returns (accepted: bool)
      requires Valid()
      modifies this
      ensures Valid()
      ensures accepted <==> c.frame == frame && c.capacity == capacity && |c.poses| <= capacity && Increasing(c.poses)
      ensures if accepted then poses == c.poses && history == c.poses
              else poses == old(poses) && history == old(history)
    {
      if c.frame != frame || c.capacity != capacity || |c.poses| > capacity {
        return false;
      }
      var i := 1;
      while i < |c.poses|
        invariant 1 <= i && (i <= |c.poses| || |c.poses| == 0)
        invariant forall j | 0 <= j < i - 1 && j < |c.poses| - 1 :: c.poses[j].time < c.poses[j + 1].time
      {
        if c.poses[i].time <= c.poses[i - 1].time {
          assert !Increasing(c.poses);
          return false;
        }
        i := i + 1;
      }
      StepwiseIncreasing(c.poses);
      poses, history := c.poses, c.poses;
      accepted := true;
    }
  }

  lemma TailGrows(history: seq<Pose>, capacity: nat, p: Pose)
    requires Increasing(history) && capacity >= 1
    ensures var tail := Tail(history, capacity);
      && (tail == [] <==> history == [])
      && (history != [] ==> tail[|tail| - 1] == history[|history| - 1])
      && Tail(history + [p], capacity) == Tail(tail + [p], capacity)
      && (history == [] || history[|history| - 1].time < p.time ==> Increasing(history + [p]))
  {
    TailAgain(history, capacity, p);
  }

  lemma TailAgain(history: seq<Pose>, capacity: nat, p: Pose)
    requires capacity >= 1
    ensures Tail(history + [p], capacity) == Tail(Tail(history, capacity) + [p], capacity)
  {
    if |history| >= capacity {
      var cut := |history| - capacity;
      assert Tail(history, capacity) == history[cut..];
      assert (history[cut..] + [p])[1..] == history[cut + 1..] + [p];
      assert (history + [p])[cut + 1..] == history[cut + 1..] + [p];
    }
  }

  lemma TailIncreasing(history: seq<Pose>, capacity: nat)
    requires Increasing(history)
    ensures Increasing(Tail(history, capacity)) && |Tail(history, capacity)| <= capacity
  {
  }

  lemma {:induction false} StepwiseIncreasing(poses: seq<Pose>)
    requires Stepwise(poses)
    ensures Increasing(poses)
  {
    if |poses| > 1 {
      var front := poses[..|poses| - 1];
      StepwiseIncreasing(front);
      forall i, j | 0 <= i < j < |poses| ensures poses[i].time < poses[j].time {
        if j == |poses| - 1 && i < j - 1 {
          assert front[i].time < front[j - 1].time;
        } else if j < |poses| - 1 {
          assert front[i].time < front[j].time;
        }
      }
    }
  }

  // What the binary search finds is what the definition says.
  lemma {:induction false} LookPoints(poses: seq<Pose>, t: nat, k: nat)
    requires Increasing(poses) && Points(poses, t, k) && poses != [] && poses[0].time <= t <= poses[|poses| - 1].time
    ensures k < |poses|
    ensures if poses[k].time == t then Look(poses, t) == Some(Exact(poses[k]))
            else
              && k > 0 && poses[k - 1].time < poses[k].time
              && Look(poses, t) == Some(Between(poses[k - 1], poses[k], t))
  {
    if k < |poses| - 1 && t < poses[|poses| - 1].time && t <= poses[|poses| - 2].time {
      LookPoints(poses[..|poses| - 1], t, k);
    }
  }

  // Poses that left the ring do not matter from its oldest pose on.
  lemma {:induction false} LookTail(history: seq<Pose>, capacity: nat, t: nat)
    requires Increasing(history) && capacity >= 1 && history != []
    requires Tail(history, capacity) != [] && Tail(history, capacity)[0].time <= t
    ensures Increasing(Tail(history, capacity)) && Look(Tail(history, capacity), t) == Look(history, t)
  {
    if |history| > capacity {
      LookSuffix(history, |history| - capacity, t);
    }
  }

  lemma {:induction false} LookSuffix(history: seq<Pose>, k: nat, t: nat)
    requires Increasing(history) && k < |history| && history[k].time <= t
    ensures Increasing(history[k..]) && Look(history[k..], t) == Look(history, t)
  {
    if k < |history| - 1 {
      var front := history[..|history| - 1];
      LookSuffix(front, k, t);
      assert front[k..] == history[k..][..|history| - k - 1];
    }
  }

  // An interpolated position lies between its neighbours, at a fraction strictly inside, and
  // no division by zero occurs.
  lemma BlendBetween(history: seq<Pose>, t: nat)
    requires Increasing(history) && Look(history, t).Some? && Look(history, t).value.Blend?
    ensures var b := Look(history, t).value;
      && b.before in history && b.after in history && b.before.time < t < b.after.time && 0.0 < b.fraction < 1.0
      && Within(b.x, b.before.x, b.after.x) && Within(b.y, b.before.y, b.after.y)
  {
    LookBlends(history, t);
    var b := Look(history, t).value;
    BetweenInside(b.before, b.after, t);
  }

  lemma BetweenInside(before: Pose, after: Pose, t: nat)
    requires before.time < t < after.time
    ensures var b := Between(before, after, t);
      0.0 < b.fraction < 1.0 && Within(b.x, before.x, after.x) && Within(b.y, before.y, after.y)
  {
    FractionInside(t - before.time, after.time - before.time);
    var f := Between(before, after, t).fraction;
    WithinBlend(before.x, after.x, f);
    WithinBlend(before.y, after.y, f);
  }

  predicate Within(v: real, a: real, b: real) {
    a <= v <= b || b <= v <= a
  }

  lemma {:induction false} LookBlends(history: seq<Pose>, t: nat)
    requires Increasing(history) && Look(history, t).Some? && Look(history, t).value.Blend?
    ensures var b := Look(history, t).value;
      b.before in history && b.after in history && b.before.time < t < b.after.time
        && b == Between(b.before, b.after, t)
  {
    if t < history[|history| - 1].time && !(|history| > 1 && t > history[|history| - 2].time) {
      LookBlends(history[..|history| - 1], t);
    }
  }

  lemma FractionInside(a: nat, b: nat)
    requires 0 < a < b
    ensures 0.0 < a as real / b as real < 1.0
  {
  }

  lemma WithinBlend(a: real, b: real, f: real)
    requires 0.0 <= f <= 1.0
    ensures Within(a + f * (b - a), a, b)
  {
    var p := Share(f, b - a);
    if b - a >= 0.0 {
      assert a <= a + p <= b;
    } else {
      assert b <= a + p <= a;
    }
  }

  lemma Share(f: real, d: real) returns (p: real)
    requires 0.0 <= f <= 1.0
    ensures p == f * d && if d >= 0.0 then 0.0 <= p <= d else d <= p <= 0.0
  {
    p := f * d;
    if d >= 0.0 {
      Positive(f, d);
      Positive(1.0 - f, d);
    } else {
      Positive(f, -d);
      Positive(1.0 - f, -d);
      assert f * -d == -p;
    }
  }

  lemma Positive(f: real, d: real)
    requires f >= 0.0 && d >= 0.0
    ensures f * d >= 0.0
  {
  }

  // A checkpoint put back, here or into another ring of the same frame and capacity, gives the same poses.
  method RoundTrip(a: NativePoseFeedback, b: NativePoseFeedback) returns (accepted: bool)
    requires a.Valid() && b.Valid() && a.frame == b.frame && a.capacity == b.capacity
    modifies b
    ensures a.Valid() && b.Valid() && accepted && b.poses == old(a.poses)
    ensures a == b ==> a.poses == old(a.poses)
  {
    var c := a.TakeCheckpoint();
    TailIncreasing(a.history, a.capacity);
    accepted := b.Restore(c);
  }
}
