/**
 The goal table of Brain: submission, adoption, failure and revocation of whole goals.
*/
module GoalTable {
  import opened Options

  // At most one goal is primary; one human teaching goal may run beside it in the interjection slot.  The class holds
  // the fields that the program updates under its lock; `Table` is their value, and each method is one section under
  // the lock.

  type Id = nat

  datatype Source = Autonomous | Human | Safety

  datatype Lifecycle = Pending | Starting | Active | Completed | Failed | Cancelled | Interrupted

  // `order` is the place in the input sequence.  `motion` says that the adopted task graph requires motion and
  // `skill` that the goal runs a skill instead.
  datatype Goal = Goal(source: Source, lifecycle: Lifecycle, order: nat, motion: bool, skill: bool)

  // The ids are in insertion order.
  datatype Table = Table(ids: seq<Id>, goals: map<Id, Goal>, primary: Option<Id>, slot: Option<(Id, nat)>,
                         generation: nat, inputs: nat)

  // An admission rejects a plan, or says what it needs.
  datatype Plan = Rejected | Accepted(motion: bool, skill: bool, teachingOnly: bool)

  datatype Outcome = Done | Refused | Raised

  const LIMIT := 32

  function Priority(s: Source): nat {
    match s case Autonomous => 1 case Human => 2 case Safety => 3
  }

  predicate Running(l: Lifecycle) {
    l.Pending? || l.Starting? || l.Active?
  }

  predicate Started(l: Lifecycle) {
    l.Starting? || l.Active?
  }

  // ---------- the sections under the lock ----------

  function Change(t: Table, id: Id, l: Lifecycle): Table {
    if id in t.goals then t.(goals := t.goals[id := t.goals[id].(lifecycle := l)]) else t
  }

  predicate Evictable(t: Table, id: Id) {
    id in t.goals && !Running(t.goals[id].lifecycle) && t.primary != Some(id)
  }

  function Without(ids: seq<Id>, id: Id): seq<Id> {
    if ids == [] then [] else if ids[0] == id then ids[1..] else [ids[0]] + Without(ids[1..], id)
  }

  function Removed(t: Table, id: Id): Table {
    t.(ids := Without(t.ids, id), goals := t.goals - {id})
  }

  function Evictables(t: Table, ids: seq<Id>): seq<Id> {
    if ids == [] then [] else (if Evictable(t, ids[0]) then [ids[0]] else []) + Evictables(t, ids[1..])
  }

  // Finished goals leave, oldest first, while the table is full.
  function Evicted(t: Table, keys: seq<Id>, k: nat): Table
    decreases |keys| - k
  {
    if k >= |keys| || |t.goals| < LIMIT then t else Evicted(Removed(t, keys[k]), keys, k + 1)
  }

  function Added(t: Table, id: Id, source: Source): Table {
    t.(ids := t.ids + [id], inputs := t.inputs + 1,
       goals := t.goals[id := Goal(source, Pending, t.inputs + 1, false, false)])
  }

  function Submitted(t: Table, id: Id, source: Source): (Table, Outcome) {
    if id in t.goals then (t, Refused)
    else
      var e := Evicted(t, Evictables(t, t.ids), 0);
      if |e.goals| >= LIMIT then (e, Refused) else (Added(e, id, source), Done)
  }

  function Adopt1(t: Table, id: Id, plan: Plan): Table
    requires id in t.goals && plan.Accepted?
  {
    t.(goals := t.goals[id := t.goals[id].(lifecycle := Starting, motion := plan.motion, skill := plan.skill)])
  }

  // The slot's goal is cancelled and the slot freed; a goal that left the table makes this raise.
  function SlotCancelled(t: Table): (Table, Outcome) {
    if t.slot.None? then (t, Done)
    else if t.slot.value.0 !in t.goals then (t, Raised)
    else (Change(t, t.slot.value.0, Cancelled).(slot := None), Done)
  }

  function Current(t: Table): Option<Goal> {
    if t.primary.Some? && t.primary.value in t.goals then Some(t.goals[t.primary.value]) else None
  }

  // A human goal that only teaches a person runs beside a moving robot.
  predicate Independent(t: Table, id: Id, plan: Plan, behaving: bool)
    requires id in t.goals && plan.Accepted?
  {
    var c := Current(t);
    plan.teachingOnly && t.goals[id].source == Human
    && (behaving || (c.Some? && Running(c.value.lifecycle) && c.value.motion))
  }

  function AdoptedPrimary(t: Table, id: Id, plan: Plan): (Table, Outcome)
    requires id in t.goals && plan.Accepted?
  {
    var c := Current(t);
    if c.Some? && Priority(t.goals[id].source) == Priority(c.value.source) && t.goals[id].order < c.value.order
    then (Change(t, id, Cancelled), Refused)
    else if c.Some? && Running(c.value.lifecycle) && Priority(t.goals[id].source) < Priority(c.value.source)
    then (Change(t, id, Failed), Refused)
    else
      var t1 := if c.Some? && Running(c.value.lifecycle) then Change(t, t.primary.value, Cancelled) else t;
      var (t2, o) := SlotCancelled(t1.(generation := t1.generation + 1));
      if o.Raised? then (t2, Raised) else (Adopt1(t2.(primary := Some(id)), id, plan), Done)
  }

  function Adopted(t: Table, id: Id, plan: Plan, behaving: bool): (Table, Outcome) {
    if id !in t.goals then (t, Raised)
    else if t.goals[id].lifecycle != Pending then (t, Refused)
    else if plan.Rejected? then (Change(t, id, Failed), Refused)
    else if !Independent(t, id, plan, behaving) then AdoptedPrimary(t, id, plan)
    else if t.slot.Some? then (Change(t, id, Failed), Refused)
    else (Adopt1(t.(slot := Some((id, t.generation))), id, plan), Done)
  }

  predicate Physical(t: Table, id: Id)
    requires id in t.goals
  {
    t.primary == Some(id) && (t.goals[id].motion || t.goals[id].skill)
  }

  function FailedGoal(t: Table, id: Id, answered: bool, pendingOnly: bool): (Table, Outcome) {
    if id !in t.goals then (t, Raised)
    else if !Running(t.goals[id].lifecycle) || (pendingOnly && t.goals[id].lifecycle != Pending) then (t, Refused)
    else if Physical(t, id) then
      var (t1, o) := SlotCancelled(t.(generation := t.generation + 1));
      if o.Raised? then (t1, Raised) else (Change(t1, id, Failed), Done)
    else
      var t1 := if t.slot.Some? && t.slot.value.0 == id then t.(slot := None) else t;
      (Change(t1, id, if answered then Completed else Failed), Done)
  }

  function Revoked(t: Table): Table {
    t.(generation := t.generation + 1, slot := None,
       goals := map id | id in t.goals :: Cancel(t.goals[id]))
  }

  // The executive moves the primary goal of its own generation.
  function Advanced(t: Table, gen: nat, l: Lifecycle): Table {
    if gen == t.generation && Current(t).Some? && Running(Current(t).value.lifecycle)
    then Change(t, t.primary.value, l) else t
  }

  function TeachingBegun(t: Table, id: Id, gen: nat): (Table, bool) {
    if t.slot == Some((id, gen)) && gen == t.generation && id in t.goals && t.goals[id].lifecycle == Starting
    then (Change(t, id, Active), true) else (t, false)
  }

  // The person action returned; `taught` says that it proved its result.  Without proof the goal fails.
  function TeachingEnded(t: Table, id: Id, gen: nat, taught: bool): Table {
    if gen != t.generation || id !in t.goals then t
    else if taught then
      if t.slot == Some((id, gen)) && t.goals[id].lifecycle == Active then Change(t, id, Completed) else t
    else if Running(t.goals[id].lifecycle) then FailedGoal(t, id, false, false).0
    else t
  }

  function SlotFreed(t: Table, id: Id, gen: nat): Table {
    if t.slot == Some((id, gen)) then t.(slot := None) else t
  }

  function Cancel(g: Goal): Goal {
    if Running(g.lifecycle) then g.(lifecycle := Cancelled) else g
  }

  // The first `k` goals are cancelled where they ran, and the others are as they were.
  ghost predicate CancelledUpTo(was: map<Id, Goal>, goals: map<Id, Goal>, ids: seq<Id>, k: nat)
    requires k <= |ids|
  {
    && goals.Keys == was.Keys
    && forall id | id in was :: goals[id] == if id in ids[..k] then Cancel(was[id]) else was[id]
  }

  lemma CancelledStep(was: map<Id, Goal>, goals: map<Id, Goal>, ids: seq<Id>, k: nat)
    requires k < |ids| && CancelledUpTo(was, goals, ids, k) && ids[k] in was
    ensures CancelledUpTo(was, goals[ids[k] := Cancel(goals[ids[k]])], ids, k + 1)
  {
    forall id ensures id in ids[..k + 1] <==> id in ids[..k] || id == ids[k] {
    }
  }

  // ---------- the object ----------

  class BrainCore {
    var ids: seq<Id>
    var goals: map<Id, Goal>
    var primary: Option<Id>
    var slot: Option<(Id, nat)>
    var generation: nat
    var inputs: nat

    function View(): Table
      reads this
    {
      Table(ids, goals, primary, slot, generation, inputs)
    }

    constructor ()
      ensures View() == Table([], map[], None, None, 0, 0)
    {
      ids, goals, primary, slot, generation, inputs := [], map[], None, None, 0, 0;
    }

    method Finished() returns (keys: seq<Id>)
      ensures keys == Evictables(View(), ids)
    {
      keys := [];
      var k := 0;
      while k < |ids|
        invariant k <= |ids|
        invariant keys + Evictables(View(), ids[k..]) == Evictables(View(), ids)
      {
        if Evictable(View(), ids[k]) {
          keys := keys + [ids[k]];
        }
        k := k + 1;
      }
      assert keys + Evictables(View(), []) == keys;
    }

    method Evict(keys: seq<Id>)
      modifies this
      ensures View() == Evicted(old(View()), keys, 0)
    {
      ghost var all := Evicted(View(), keys, 0);
      var k := 0;
      while k < |keys| && |goals| >= LIMIT
        invariant k <= |keys|
        invariant Evicted(View(), keys, k) == all
        decreases |keys| - k
      {
        Remove(keys[k]);
        k := k + 1;
      }
    }

    method Remove(id: Id)
      modifies this
      ensures View() == Removed(old(View()), id)
    {
      ids, goals := Without(ids, id), goals - {id};
    }

    method Submit(id: Id, source: Source) returns (o: Outcome)
      modifies this
      ensures (View(), o) == Submitted(old(View()), id, source)
    {
      if id in goals {
        return Refused;
      }
      var keys := Finished();
      Evict(keys);
      if |goals| >= LIMIT {
        return Refused;
      }
      inputs := inputs + 1;
      ids, goals := ids + [id], goals[id := Goal(source, Pending, inputs, false, false)];
      o := Done;
    }

    method Adopt(id: Id, plan: Plan, behaving: bool) returns (o: Outcome)
      modifies this
      ensures (View(), o) == Adopted(old(View()), id, plan, behaving)
    {
      if id !in goals {
        return Raised;
      }
      if goals[id].lifecycle != Pending {
        return Refused;
      }
      if plan.Rejected? {
        goals := goals[id := goals[id].(lifecycle := Failed)];
        return Refused;
      }
      var current := Current(View());
      if Independent(View(), id, plan, behaving) {
        if slot.Some? {
          goals := goals[id := goals[id].(lifecycle := Failed)];
          return Refused;
        }
        slot := Some((id, generation));
        goals := goals[id := goals[id].(lifecycle := Starting, motion := plan.motion, skill := plan.skill)];
        return Done;
      }
      if current.Some? {
        if Priority(goals[id].source) == Priority(current.value.source) && goals[id].order < current.value.order {
          goals := goals[id := goals[id].(lifecycle := Cancelled)];
          return Refused;
        }
        if Running(current.value.lifecycle) {
          if Priority(goals[id].source) < Priority(current.value.source) {
            goals := goals[id := goals[id].(lifecycle := Failed)];
            return Refused;
          }
          goals := goals[primary.value := goals[primary.value].(lifecycle := Cancelled)];
        }
      }
      generation := generation + 1;
      if slot.Some? {
        if slot.value.0 !in goals {
          return Raised;
        }
        goals := goals[slot.value.0 := goals[slot.value.0].(lifecycle := Cancelled)];
        slot := None;
      }
      primary := Some(id);
      goals := goals[id := goals[id].(lifecycle := Starting, motion := plan.motion, skill := plan.skill)];
      o := Done;
    }

    method Fail(id: Id, answered: bool, pendingOnly: bool) returns (o: Outcome)
      modifies this
      ensures (View(), o) == FailedGoal(old(View()), id, answered, pendingOnly)
    {
      if id !in goals {
        return Raised;
      }
      if !Running(goals[id].lifecycle) || (pendingOnly && goals[id].lifecycle != Pending) {
        return Refused;
      }
      var physical := Physical(View(), id);
      if physical {
        generation := generation + 1;
        if slot.Some? {
          if slot.value.0 !in goals {
            return Raised;
          }
          goals := goals[slot.value.0 := goals[slot.value.0].(lifecycle := Cancelled)];
          slot := None;
        }
      } else if slot.Some? && slot.value.0 == id {
        slot := None;
      }
      goals := goals[id := goals[id].(lifecycle := if answered && !physical then Completed else Failed)];
      o := Done;
    }

    method Revoke()
      requires forall id :: id in goals <==> id in ids
      modifies this
      ensures View() == Revoked(old(View()))
    {
      ghost var was := goals;
      CancelRunning();
      generation := generation + 1;
      slot := None;
      assert goals == Revoked(old(View())).goals;
    }

    method CancelRunning()
      requires forall id :: id in goals <==> id in ids
      modifies this`goals
      ensures CancelledUpTo(old(goals), goals, ids, |ids|)
    {
      ghost var was := goals;
      var k := 0;
      while k < |ids|
        invariant k <= |ids| && CancelledUpTo(was, goals, ids, k)
      {
        CancelledStep(was, goals, ids, k);
        if Running(goals[ids[k]].lifecycle) {
          goals := goals[ids[k] := goals[ids[k]].(lifecycle := Cancelled)];
        }
        k := k + 1;
      }
    }

    // One step of the executive, for the generation it captured.
    method Advance(gen: nat, l: Lifecycle)
      modifies this
      ensures View() == Advanced(old(View()), gen, l)
    {
      if gen == generation && primary.Some? && primary.value in goals && Running(goals[primary.value].lifecycle) {
        goals := goals[primary.value := goals[primary.value].(lifecycle := l)];
      }
    }

    method BeginTeaching(id: Id, gen: nat) returns (begun: bool)
      modifies this
      ensures (View(), begun) == TeachingBegun(old(View()), id, gen)
    {
      begun := slot == Some((id, gen)) && gen == generation && id in goals && goals[id].lifecycle == Starting;
      if begun {
        goals := goals[id := goals[id].(lifecycle := Active)];
      }
    }

    method EndTeaching(id: Id, gen: nat, taught: bool)
      modifies this
      ensures View() == TeachingEnded(old(View()), id, gen, taught)
    {
      if gen == generation && id in goals {
        if taught {
          if slot == Some((id, gen)) && goals[id].lifecycle == Active {
            goals := goals[id := goals[id].(lifecycle := Completed)];
          }
        } else if Running(goals[id].lifecycle) {
          var _ := Fail(id, false, false);
        }
      }
    }

    method FreeSlot(id: Id, gen: nat)
      modifies this
      ensures View() == SlotFreed(old(View()), id, gen)
    {
      if slot == Some((id, gen)) {
        slot := None;
      }
    }
  }

  // ---------- runs ----------

  datatype Teaching = Teaching(id: Id, gen: nat, ended: bool)

  // Beside the table: the adoptions by generation, and the threads that teach and have yet to free the slot.
  datatype State = State(t: Table, adopted: map<nat, Id>, threads: map<nat, Teaching>)

  datatype Op =
    | Submit(id: Id, source: Source)
    | Adopt(id: Id, plan: Plan, behaving: bool)
    | StopRaises(gen: nat)
    | Fail(id: Id, answered: bool, pendingOnly: bool)
    | Revoke
    | Advance(gen: nat, lifecycle: Lifecycle)
    | BeginTeaching(thread: nat, id: Id, gen: nat)
    | EndTeaching(thread: nat, taught: bool)
    | FreeSlot(thread: nat)

  // A STOP that raises after an adoption fails the adopted goal, if its generation still runs.
  function StopRaised(s: State, gen: nat): Table {
    if gen in s.adopted && gen == s.t.generation && Current(s.t).Some? && Running(Current(s.t).value.lifecycle)
    then Change(s.t, s.adopted[gen], Failed) else s.t
  }

  function AdoptedState(s: State, id: Id, plan: Plan, behaving: bool): State {
    var (t', o) := Adopted(s.t, id, plan, behaving);
    if !o.Done? then s.(t := t')
    else if t'.primary == Some(id) then s.(t := t', adopted := s.adopted[t'.generation := id])
    else s.(t := t')
  }

  ghost predicate Step(s: State, op: Op, s': State) {
    match op
    case Submit(id, source) => s' == s.(t := Submitted(s.t, id, source).0)
    case Adopt(id, plan, behaving) => s' == AdoptedState(s, id, plan, behaving)
    case StopRaises(gen) => s' == s.(t := StopRaised(s, gen))
    case Fail(id, answered, pendingOnly) => s' == s.(t := FailedGoal(s.t, id, answered, pendingOnly).0)
    case Revoke => s' == s.(t := Revoked(s.t))
    case Advance(gen, l) => !l.Pending? && !l.Interrupted? && s' == s.(t := Advanced(s.t, gen, l))
    case BeginTeaching(k, id, gen) =>
      && k !in s.threads && TeachingBegun(s.t, id, gen).1
      && s' == s.(t := TeachingBegun(s.t, id, gen).0, threads := s.threads[k := Teaching(id, gen, false)])
    case EndTeaching(k, taught) =>
      && k in s.threads && !s.threads[k].ended
      && s' == s.(t := TeachingEnded(s.t, s.threads[k].id, s.threads[k].gen, taught),
                  threads := s.threads[k := s.threads[k].(ended := true)])
    case FreeSlot(k) =>
      && k in s.threads && s.threads[k].ended
      && s' == s.(t := SlotFreed(s.t, s.threads[k].id, s.threads[k].gen), threads := s.threads - {k})
  }

  // The adoption puts its goal into the slot.
  predicate Interjects(s: State, op: Op) {
    && op.Adopt? && op.id in s.t.goals && s.t.goals[op.id].lifecycle == Pending && op.plan.Accepted?
    && Independent(s.t, op.id, op.plan, op.behaving) && s.t.slot.None?
  }

  // A teaching thread of the current generation, still to free the slot, carries this identity: it was used before.
  predicate Haunted(s: State, id: Id) {
    exists k | k in s.threads :: s.threads[k].id == id && s.threads[k].gen == s.t.generation
  }

  predicate Unhaunted(s: State, op: Op) {
    Interjects(s, op) ==> !Haunted(s, op.id)
  }

  // ---------- the invariant ----------

  predicate Distinct(ids: seq<Id>) {
    forall i, j | 0 <= i < j < |ids| :: ids[i] != ids[j]
  }

  ghost predicate Shape(t: Table) {
    && (forall id :: id in t.goals <==> id in t.ids)
    && Distinct(t.ids)
    && |t.ids| <= LIMIT
    && (forall id | id in t.goals :: t.goals[id].order <= t.inputs)
    && (forall a, b | a in t.goals && b in t.goals && a != b :: t.goals[a].order != t.goals[b].order)
    && (t.primary.Some? ==> t.primary.value in t.goals && t.goals[t.primary.value].lifecycle != Pending)
  }

  // What has started belongs to the primary or to the slot.
  ghost predicate Owned(t: Table) {
    forall id | id in t.goals && Started(t.goals[id].lifecycle) ::
      t.primary == Some(id) || (t.slot.Some? && t.slot.value.0 == id)
  }

  predicate SlotSound(t: Table) {
    t.slot.Some? ==>
      var (id, gen) := t.slot.value;
      t.primary != Some(id) && (id in t.goals && Started(t.goals[id].lifecycle) ==> gen == t.generation)
  }

  predicate ThreadSound(t: Table, th: Teaching) {
    th.id in t.goals && t.slot == Some((th.id, th.gen)) ==>
      if th.ended then !Started(t.goals[th.id].lifecycle) else t.goals[th.id].lifecycle != Starting
  }

  ghost predicate Histories(s: State) {
    && (forall g | g in s.adopted :: g <= s.t.generation)
    && (s.t.generation in s.adopted ==> s.t.primary == Some(s.adopted[s.t.generation]))
    && (forall k | k in s.threads :: ThreadSound(s.t, s.threads[k]))
  }

  ghost predicate Inv(s: State) {
    Shape(s.t) && Owned(s.t) && SlotSound(s.t) && Histories(s)
  }

  // At the start there is at most a restored history of finished goals.
  ghost predicate Init(s: State) {
    && Shape(s.t) && s.t.slot.None? && s.adopted == map[] && s.threads == map[]
    && forall id | id in s.t.goals :: !Running(s.t.goals[id].lifecycle)
  }

  // ---------- submission ----------

  lemma {:induction false} WithoutMeans(ids: seq<Id>, id: Id)
    requires id in ids && Distinct(ids)
    ensures |Without(ids, id)| == |ids| - 1
    ensures forall x :: x in Without(ids, id) <==> x in ids && x != id
    ensures Distinct(Without(ids, id))
  {
    if ids[0] != id {
      WithoutMeans(ids[1..], id);
      var rest := Without(ids[1..], id);
      assert ids[0] !in ids[1..];
      forall j | 0 <= j < |rest| ensures rest[j] != ids[0] {
        assert rest[j] in rest;
      }
    }
  }

  lemma {:induction false} UniqueSize(ids: seq<Id>, all: set<Id>)
    requires Distinct(ids)
    requires forall id :: id in all <==> id in ids
    ensures |all| == |ids|
  {
    if ids != [] {
      UniqueSize(ids[1..], all - {ids[0]});
    } else {
      assert all == {};
    }
  }

  lemma Sizes(t: Table)
    requires Shape(t)
    ensures |t.goals| == |t.ids|
  {
    UniqueSize(t.ids, t.goals.Keys);
  }

  lemma {:induction false} EvictablesHead(t: Table, ids: seq<Id>) returns (k: nat)
    ensures k <= |ids| && forall i | 0 <= i < k :: !Evictable(t, ids[i])
    ensures if k == |ids| then Evictables(t, ids) == []
            else Evictable(t, ids[k]) && Evictables(t, ids) != [] && Evictables(t, ids)[0] == ids[k]
  {
    k := 0;
    if ids != [] && !Evictable(t, ids[0]) {
      k := EvictablesHead(t, ids[1..]);
      k := k + 1;
      assert forall i | 0 < i < k :: ids[i] == ids[1..][i - 1];
    }
  }

  lemma RemovedShape(t: Table, id: Id)
    requires Shape(t) && Evictable(t, id)
    ensures Shape(Removed(t, id)) && |Removed(t, id).goals| == |t.goals| - 1
  {
    WithoutMeans(t.ids, id);
    Sizes(t);
    Sizes(Removed(t, id));
  }

  // A full table loses its oldest finished goal that is not the primary, if there is one.
  lemma EvictedMeans(t: Table) returns (k: nat)
    requires Shape(t)
    ensures var e := Evicted(t, Evictables(t, t.ids), 0);
      && k <= |t.ids| && (forall i | 0 <= i < k :: !Evictable(t, t.ids[i]))
      && (k < |t.ids| ==> Evictable(t, t.ids[k]))
      && e == (if |t.goals| == LIMIT && k < |t.ids| then Removed(t, t.ids[k]) else t)
      && Shape(e) && (|e.goals| >= LIMIT <==> |t.goals| == LIMIT && k == |t.ids|)
  {
    Sizes(t);
    k := EvictablesHead(t, t.ids);
    if |t.goals| == LIMIT && k < |t.ids| {
      RemovedShape(t, t.ids[k]);
    }
  }

  lemma AddedShape(t: Table, id: Id, source: Source)
    requires Shape(t) && id !in t.goals && |t.goals| < LIMIT
    ensures Shape(Added(t, id, source))
  {
    Sizes(t);
  }

  // The goals that an eviction cannot take.
  ghost predicate Kept(t: Table, t': Table) {
    && (forall x | x in t.goals && !Evictable(t, x) :: x in t'.goals && t'.goals[x] == t.goals[x])
    && t'.primary == t.primary && t'.slot == t.slot && t'.generation == t.generation
  }

  // Submission is refused for a known identity, or when all 32 goals still run or are the primary.
  lemma SubmitRefused(t: Table, id: Id, source: Source)
    requires Shape(t)
    ensures var (t', o) := Submitted(t, id, source);
      && (o == Refused <==> id in t.goals || (|t.goals| == LIMIT && forall x | x in t.goals :: !Evictable(t, x)))
      && (o == Refused ==> t' == t) && o != Raised
  {
    if id !in t.goals {
      var k := EvictedMeans(t);
      if |t.goals| == LIMIT && k == |t.ids| {
        forall x | x in t.goals ensures !Evictable(t, x) {
          var i :| 0 <= i < |t.ids| && t.ids[i] == x;
        }
      }
    }
  }

  lemma EvictedKeeps(t: Table)
    requires Shape(t)
    ensures var e := Evicted(t, Evictables(t, t.ids), 0);
      Shape(e) && Kept(t, e) && e.inputs == t.inputs && forall x | x in e.goals ::
        x in t.goals && e.goals[x] == t.goals[x]
  {
    var k := EvictedMeans(t);
  }

  // A submitted goal is pending and last in the input order; no goal that runs was lost, and none changed.
  ghost predicate Grown(t: Table, t': Table, id: Id, source: Source) {
    && Shape(t') && Kept(t, t')
    && id in t'.goals && t'.goals[id] == Goal(source, Pending, t.inputs + 1, false, false)
    && |t'.ids| > 0 && t'.ids[|t'.ids| - 1] == id
    && forall x | x in t'.goals && x != id :: x in t.goals && t'.goals[x] == t.goals[x]
  }

  lemma AddedGrown(t: Table, e: Table, id: Id, source: Source)
    requires Shape(e) && Kept(t, e) && e.inputs == t.inputs && id !in t.goals && |e.goals| < LIMIT
    requires forall x | x in e.goals :: x in t.goals && e.goals[x] == t.goals[x]
    ensures Grown(t, Added(e, id, source), id, source)
  {
    AddedShape(e, id, source);
  }

  lemma SubmitAdds(t: Table, id: Id, source: Source)
    requires Shape(t) && Submitted(t, id, source).1 == Done
    ensures Grown(t, Submitted(t, id, source).0, id, source)
  {
    var e := Evicted(t, Evictables(t, t.ids), 0);
    EvictedKeeps(t);
    AddedGrown(t, e, id, source);
  }

  // ---------- what every step keeps ----------

  // The steps that neither add a goal nor start one beside the primary.
  ghost predicate Settles(t: Table, t': Table) {
    && t'.ids == t.ids && t'.goals.Keys == t.goals.Keys && t'.inputs == t.inputs && t'.primary == t.primary
    && t.generation <= t'.generation
    && (forall id | id in t.goals :: Same(t.goals[id], t'.goals[id], t.primary == Some(id)))
    && (t'.slot == t.slot || t'.slot.None?)
    && (t.slot.Some? && t.slot.value.0 in t.goals ==>
          if t'.slot.None? then !Started(t'.goals[t.slot.value.0].lifecycle) else t'.generation == t.generation)
  }

  predicate Same(g: Goal, g': Goal, primary: bool) {
    && g'.order == g.order && g'.source == g.source
    && (g'.lifecycle.Pending? ==> g.lifecycle.Pending?)
    && (Started(g'.lifecycle) ==> primary || g'.lifecycle == g.lifecycle)
  }

  lemma SettlesThreads(s: State, t': Table)
    requires Histories(s) && SlotSound(s.t) && Settles(s.t, t')
    ensures Histories(s.(t := t'))
  {
    forall k | k in s.threads ensures ThreadSound(t', s.threads[k]) {
      assert ThreadSound(s.t, s.threads[k]);
    }
  }

  lemma SettlesKeeps(s: State, t': Table)
    requires Inv(s) && Settles(s.t, t')
    ensures Inv(s.(t := t'))
  {
    SettlesThreads(s, t');
  }

  // One goal ends, or the primary moves.
  lemma ChangeSettles(t: Table, id: Id, l: Lifecycle)
    requires !l.Pending? && (Started(l) ==> t.primary == Some(id))
    ensures Settles(t, Change(t, id, l))
  {
  }

  lemma SlotSettles(t: Table)
    ensures Settles(t, SlotCancelled(t.(generation := t.generation + 1)).0)
  {
  }

  predicate Apart(t: Table) {
    t.slot.Some? ==> t.primary != Some(t.slot.value.0)
  }

  lemma SettlesTwice(t: Table, t1: Table, t2: Table)
    requires Settles(t, t1) && Settles(t1, t2) && Apart(t)
    ensures Settles(t, t2)
  {
  }

  lemma SlotEndSettles(t: Table, id: Id, l: Lifecycle)
    requires id in t.goals && !Running(l) && t.slot.Some? && t.slot.value.0 == id
    ensures Settles(t, Change(t.(slot := None), id, l))
  {
  }

  lemma FailSettles(t: Table, id: Id, answered: bool, pendingOnly: bool)
    requires Apart(t)
    ensures Settles(t, FailedGoal(t, id, answered, pendingOnly).0)
  {
    var l := if answered then Completed else Failed;
    if id in t.goals {
      if Physical(t, id) {
        var t1 := SlotCancelled(t.(generation := t.generation + 1)).0;
        SlotSettles(t);
        ChangeSettles(t1, id, Failed);
        SettlesTwice(t, t1, Change(t1, id, Failed));
      } else if t.slot.Some? && t.slot.value.0 == id {
        SlotEndSettles(t, id, l);
      } else {
        ChangeSettles(t, id, l);
      }
    }
  }

  lemma RevokeSettles(s: State)
    requires Inv(s)
    ensures Settles(s.t, Revoked(s.t))
  {
  }

  lemma AdvanceSettles(t: Table, gen: nat, l: Lifecycle)
    requires !l.Pending?
    ensures Settles(t, Advanced(t, gen, l))
  {
    if t.primary.Some? {
      ChangeSettles(t, t.primary.value, l);
    }
  }

  lemma StopSettles(s: State, gen: nat)
    ensures Settles(s.t, StopRaised(s, gen))
  {
    if gen in s.adopted {
      ChangeSettles(s.t, s.adopted[gen], Failed);
    }
  }

  lemma EndSettles(t: Table, id: Id, gen: nat, taught: bool)
    requires Apart(t)
    ensures Settles(t, TeachingEnded(t, id, gen, taught))
  {
    ChangeSettles(t, id, Completed);
    FailSettles(t, id, false, false);
  }

  lemma EndedSound(s: State, k: nat, taught: bool)
    requires Inv(s) && k in s.threads && !s.threads[k].ended
    ensures var th := s.threads[k];
      ThreadSound(TeachingEnded(s.t, th.id, th.gen, taught), th.(ended := true))
  {
    assert ThreadSound(s.t, s.threads[k]);
  }

  lemma FreeKeeps(s: State, k: nat, s': State)
    requires Inv(s) && Step(s, FreeSlot(k), s')
    ensures Inv(s')
  {
    assert ThreadSound(s.t, s.threads[k]);
    SettlesKeeps(s, s'.t);
  }

  lemma BeginKeeps(s: State, k: nat, id: Id, gen: nat, s': State)
    requires Inv(s) && Step(s, BeginTeaching(k, id, gen), s')
    ensures Inv(s')
  {
    forall x | x in s'.threads ensures ThreadSound(s'.t, s'.threads[x]) {
      if x != k {
        assert ThreadSound(s.t, s.threads[x]);
      }
    }
  }

  // A goal enters the slot; no thread that may free it is left from an earlier use of its identity.
  lemma InterjectKeeps(s: State, id: Id, plan: Plan)
    requires Inv(s) && id in s.t.goals && s.t.goals[id].lifecycle == Pending && plan.Accepted? && s.t.slot.None?
    requires !Haunted(s, id)
    ensures Inv(s.(t := Adopt1(s.t.(slot := Some((id, s.t.generation))), id, plan)))
  {
    var t' := Adopt1(s.t.(slot := Some((id, s.t.generation))), id, plan);
    forall k | k in s.threads ensures ThreadSound(t', s.threads[k]) {
      assert s.threads[k].id != id || s.threads[k].gen != s.t.generation;
    }
  }

  // The new primary alone.
  lemma PromoteKeeps(s: State, id: Id, plan: Plan)
    requires Inv(s) && id in s.t.goals && !Started(s.t.goals[id].lifecycle) && plan.Accepted? && s.t.slot.None?
    requires Current(s.t).Some? ==> !Started(Current(s.t).value.lifecycle)
    requires s.t.generation !in s.adopted
    ensures Inv(s.(t := Adopt1(s.t.(primary := Some(id)), id, plan), adopted := s.adopted[s.t.generation := id]))
  {
  }

  // What makes way for a new primary: the old one and the slot's goal are cancelled, under a new generation.
  function MadeWay(t: Table): (Table, Outcome) {
    var t1 := if Current(t).Some? && Running(Current(t).value.lifecycle) then Change(t, t.primary.value, Cancelled)
      else t;
    SlotCancelled(t1.(generation := t1.generation + 1))
  }

  lemma MadeWaySettles(t: Table)
    requires Apart(t)
    ensures Settles(t, MadeWay(t).0) && MadeWay(t).0.generation == t.generation + 1
    ensures Current(MadeWay(t).0).Some? ==> !Running(Current(MadeWay(t).0).value.lifecycle)
    ensures !MadeWay(t).1.Raised? ==> MadeWay(t).0.slot.None?
  {
    if Current(t).Some? && Running(Current(t).value.lifecycle) {
      var t1 := Change(t, t.primary.value, Cancelled);
      ChangeSettles(t, t.primary.value, Cancelled);
      SlotSettles(t1);
      SettlesTwice(t, t1, MadeWay(t).0);
    } else {
      SlotSettles(t);
    }
  }

  lemma PendingStays(s: State, id: Id)
    requires Inv(s) && id in s.t.goals && s.t.goals[id].lifecycle == Pending
    ensures id in MadeWay(s.t).0.goals && !Started(MadeWay(s.t).0.goals[id].lifecycle)
  {
  }

  lemma PrimaryKeeps(s: State, id: Id, plan: Plan)
    requires Inv(s) && id in s.t.goals && s.t.goals[id].lifecycle == Pending && plan.Accepted?
    ensures var (t', o) := AdoptedPrimary(s.t, id, plan);
      && (o.Done? ==> t'.primary == Some(id) && Inv(s.(t := t', adopted := s.adopted[t'.generation := id])))
      && (!o.Done? ==> Inv(s.(t := t')))
  {
    var (t', o) := AdoptedPrimary(s.t, id, plan);
    if o.Refused? {
      ChangeSettles(s.t, id, Cancelled);
      ChangeSettles(s.t, id, Failed);
      SettlesKeeps(s, t');
    } else {
      var way := MadeWay(s.t).0;
      MadeWaySettles(s.t);
      SettlesKeeps(s, way);
      if o.Done? {
        PendingStays(s, id);
        PromoteKeeps(s.(t := way), id, plan);
      }
    }
  }

  lemma AdoptKeeps(s: State, id: Id, plan: Plan, behaving: bool)
    requires Inv(s) && Unhaunted(s, Adopt(id, plan, behaving))
    ensures Inv(AdoptedState(s, id, plan, behaving))
  {
    if id in s.t.goals && s.t.goals[id].lifecycle == Pending {
      if plan.Accepted? && !Independent(s.t, id, plan, behaving) {
        PrimaryKeeps(s, id, plan);
      } else if plan.Accepted? && s.t.slot.None? {
        InterjectKeeps(s, id, plan);
      } else {
        ChangeSettles(s.t, id, Failed);
        SettlesKeeps(s, Change(s.t, id, Failed));
      }
    }
  }

  lemma GrownKeeps(s: State, id: Id, source: Source, t': Table)
    requires Inv(s) && Grown(s.t, t', id, source)
    ensures Inv(s.(t := t'))
  {
    forall k | k in s.threads ensures ThreadSound(t', s.threads[k]) {
      assert ThreadSound(s.t, s.threads[k]);
    }
  }

  lemma SubmitKeeps(s: State, id: Id, source: Source)
    requires Inv(s)
    ensures Inv(s.(t := Submitted(s.t, id, source).0))
  {
    SubmitRefused(s.t, id, source);
    if Submitted(s.t, id, source).1.Done? {
      SubmitAdds(s.t, id, source);
      GrownKeeps(s, id, source, Submitted(s.t, id, source).0);
    }
  }

  lemma EndKeeps(s: State, k: nat, taught: bool, s': State)
    requires Inv(s) && Step(s, EndTeaching(k, taught), s')
    ensures Inv(s')
  {
    var th := s.threads[k];
    var t' := TeachingEnded(s.t, th.id, th.gen, taught);
    EndSettles(s.t, th.id, th.gen, taught);
    EndedSound(s, k, taught);
    SettlesKeeps(s, t');
    forall x | x in s'.threads ensures ThreadSound(s'.t, s'.threads[x]) {
      if x != k {
        assert ThreadSound(t', s.threads[x]);
      }
    }
  }

  lemma StepKeeps(s: State, op: Op, s': State)
    requires Inv(s) && Step(s, op, s') && Unhaunted(s, op)
    ensures Inv(s')
  {
    match op
    case Submit(id, source) => SubmitKeeps(s, id, source);
    case Adopt(id, plan, behaving) => AdoptKeeps(s, id, plan, behaving);
    case StopRaises(gen) => StopSettles(s, gen); SettlesKeeps(s, s'.t);
    case Fail(id, answered, pendingOnly) => FailSettles(s.t, id, answered, pendingOnly); SettlesKeeps(s, s'.t);
    case Revoke => RevokeSettles(s); SettlesKeeps(s, s'.t);
    case Advance(gen, l) => AdvanceSettles(s.t, gen, l); SettlesKeeps(s, s'.t);
    case BeginTeaching(k, id, gen) => BeginKeeps(s, k, id, gen, s');
    case EndTeaching(k, taught) => EndKeeps(s, k, taught, s');
    case FreeSlot(k) => FreeKeeps(s, k, s');
  }

  // ---------- finished goals stay finished ----------

  // A finished goal changes only while it is still in the slot, and is cancelled then.
  ghost predicate Absorbs(t: Table, t': Table) {
    && (t'.slot == t.slot || t'.slot.None? || t.slot.None?)
    && forall id | id in t.goals && id in t'.goals && !Running(t.goals[id].lifecycle) ::
      || t'.goals[id].lifecycle == t.goals[id].lifecycle
      || (t.slot.Some? && t.slot.value.0 == id && t'.goals[id].lifecycle == Cancelled)
  }

  lemma ChangeAbsorbs(t: Table, id: Id, l: Lifecycle)
    requires id in t.goals ==> Running(t.goals[id].lifecycle)
    ensures Absorbs(t, Change(t, id, l)) && Absorbs(t, Change(t.(slot := None), id, l))
  {
  }

  lemma FailAbsorbs(t: Table, id: Id, answered: bool, pendingOnly: bool)
    requires Apart(t)
    ensures Absorbs(t, FailedGoal(t, id, answered, pendingOnly).0)
  {
  }

  lemma MadeWayAbsorbs(t: Table)
    requires Apart(t)
    ensures Absorbs(t, MadeWay(t).0)
  {
  }

  lemma AdoptAbsorbs(t: Table, id: Id, plan: Plan, behaving: bool)
    requires Apart(t)
    requires t.primary.Some? ==> t.primary != Some(id) || id !in t.goals || t.goals[id].lifecycle != Pending
    ensures Absorbs(t, Adopted(t, id, plan, behaving).0)
  {
    if id in t.goals && t.goals[id].lifecycle == Pending {
      ChangeAbsorbs(t, id, Failed);
      ChangeAbsorbs(t, id, Cancelled);
      MadeWayAbsorbs(t);
    }
  }

  lemma SubmitAbsorbs(t: Table, id: Id, source: Source)
    requires Shape(t)
    ensures Absorbs(t, Submitted(t, id, source).0)
  {
    SubmitRefused(t, id, source);
    if Submitted(t, id, source).1.Done? {
      SubmitAdds(t, id, source);
    }
  }

  lemma AdvanceAbsorbs(t: Table, gen: nat, l: Lifecycle)
    ensures Absorbs(t, Advanced(t, gen, l))
  {
  }

  lemma StopAbsorbs(s: State, gen: nat)
    requires Histories(s)
    ensures Absorbs(s.t, StopRaised(s, gen))
  {
  }

  lemma StepAbsorbs(s: State, op: Op, s': State)
    requires Inv(s) && Step(s, op, s')
    ensures Absorbs(s.t, s'.t)
  {
    match op
    case Submit(id, source) => SubmitAbsorbs(s.t, id, source);
    case Adopt(id, plan, behaving) => AdoptAbsorbs(s.t, id, plan, behaving);
    case StopRaises(gen) => StopAbsorbs(s, gen);
    case Fail(id, answered, pendingOnly) => FailAbsorbs(s.t, id, answered, pendingOnly);
    case Revoke =>
    case Advance(gen, l) => AdvanceAbsorbs(s.t, gen, l);
    case BeginTeaching(k, id, gen) =>
    case EndTeaching(k, taught) => FailAbsorbs(s.t, s.threads[k].id, false, false);
    case FreeSlot(k) =>
  }

  // Goal `p` of table `t` made way for goal `q`.
  predicate Outranks(t: Table, p: Id, q: Id) {
    && p in t.goals && q in t.goals
    && (Priority(t.goals[p].source) < Priority(t.goals[q].source)
        || (Priority(t.goals[p].source) == Priority(t.goals[q].source) && t.goals[p].order < t.goals[q].order))
  }

  lemma AdoptReplaces(t: Table, id: Id, plan: Plan)
    requires Shape(t) && Apart(t) && id in t.goals && t.goals[id].lifecycle == Pending && plan.Accepted?
    requires t.primary.Some? && Running(t.goals[t.primary.value].lifecycle) && AdoptedPrimary(t, id, plan).1.Done?
    ensures Outranks(t, t.primary.value, id)
    ensures var t' := AdoptedPrimary(t, id, plan).0;
      && t'.primary == Some(id) && t'.generation == t.generation + 1
      && t.primary.value in t'.goals && t'.goals[t.primary.value].lifecycle == Cancelled
      && id in t'.goals && t'.goals[id].lifecycle == Starting
  {
    assert t.primary.value != id;
  }

  lemma PrimaryStays(s: State, op: Op, s': State)
    requires Inv(s) && Step(s, op, s') && !op.Adopt?
    ensures s'.t.primary == s.t.primary
  {
    match op
    case Submit(id, source) =>
      SubmitRefused(s.t, id, source);
      if Submitted(s.t, id, source).1.Done? {
        SubmitAdds(s.t, id, source);
      }
    case EndTeaching(k, taught) => EndSettles(s.t, s.threads[k].id, s.threads[k].gen, taught);
    case Fail(id, answered, pendingOnly) => FailSettles(s.t, id, answered, pendingOnly);
    case _ =>
  }

  // A running primary gives way only to a goal of higher priority, or of the same priority and later input.
  lemma ReplacementIncreases(s: State, op: Op, s': State)
    requires Inv(s) && Step(s, op, s')
    requires s.t.primary.Some? && s'.t.primary != s.t.primary && Running(s.t.goals[s.t.primary.value].lifecycle)
    ensures s'.t.primary.Some? && Outranks(s.t, s.t.primary.value, s'.t.primary.value)
    ensures s.t.primary.value in s'.t.goals && s'.t.goals[s.t.primary.value].lifecycle == Cancelled
    ensures s'.t.primary.value in s'.t.goals && s'.t.goals[s'.t.primary.value].lifecycle == Starting
    ensures s'.t.generation == s.t.generation + 1
  {
    if op.Adopt? {
      AdoptReplaces(s.t, op.id, op.plan);
    } else {
      PrimaryStays(s, op, s');
    }
  }

  // ---------- whole runs ----------

  ghost predicate Next(s: State, s': State) {
    exists op :: Step(s, op, s') && Unhaunted(s, op)
  }

  ghost predicate NextAt(run: seq<State>, i: nat) {
    i + 1 < |run| ==> Next(run[i], run[i + 1])
  }

  ghost predicate IsRun(run: seq<State>) {
    run != [] && Init(run[0]) && forall i: nat :: NextAt(run, i)
  }

  lemma {:induction false} RunKeeps(run: seq<State>, k: nat)
    requires IsRun(run) && k < |run|
    ensures Inv(run[k])
  {
    if k > 0 {
      RunKeeps(run, k - 1);
      assert NextAt(run, k - 1);
      var op :| Step(run[k - 1], op, run[k]) && Unhaunted(run[k - 1], op);
      StepKeeps(run[k - 1], op, run[k]);
    }
  }

  // In every run, whose adoptions into the slot are not haunted: at most 32 goals, and what has started is the primary
  // or the one goal in the slot, which is not the primary and then belongs to the current generation.
  lemma GoalsOwned(run: seq<State>, k: nat)
    requires IsRun(run) && k < |run|
    ensures |run[k].t.goals| <= LIMIT
    ensures Owned(run[k].t) && SlotSound(run[k].t)
  {
    RunKeeps(run, k);
    Sizes(run[k].t);
  }

  lemma AdoptKeys(t: Table, id: Id, plan: Plan, behaving: bool)
    ensures var t' := Adopted(t, id, plan, behaving).0;
      t'.goals.Keys == t.goals.Keys && t'.inputs == t.inputs
        && forall x | x in t.goals :: t'.goals[x].order == t.goals[x].order
  {
  }

  // Only submission changes which goals there are.
  lemma KeysStay(s: State, op: Op, s': State)
    requires Apart(s.t) && Step(s, op, s') && !op.Submit?
    ensures s'.t.goals.Keys == s.t.goals.Keys && s'.t.inputs == s.t.inputs
    ensures forall x | x in s.t.goals :: s'.t.goals[x].order == s.t.goals[x].order
  {
    match op
    case Adopt(id, plan, behaving) => AdoptKeys(s.t, id, plan, behaving);
    case EndTeaching(k, taught) => EndSettles(s.t, s.threads[k].id, s.threads[k].gen, taught);
    case Fail(id, answered, pendingOnly) => FailSettles(s.t, id, answered, pendingOnly);
    case _ =>
  }

  // What a step means for one submission, which its place in the input order identifies.
  predicate Holds(t: Table, id: Id, order: nat) {
    id in t.goals && t.goals[id].order == order
  }

  predicate InSlot(t: Table, id: Id) {
    t.slot.Some? && t.slot.value.0 == id
  }

  ghost predicate Link(t: Table, t': Table, id: Id, order: nat) {
    && t.inputs <= t'.inputs
    && (Holds(t', id, order) && order <= t.inputs ==> Holds(t, id, order))
    && (Holds(t, id, order) && Holds(t', id, order) && !Running(t.goals[id].lifecycle) && !InSlot(t, id) ==>
          t'.goals[id].lifecycle == t.goals[id].lifecycle)
  }

  lemma SubmitLinks(s: State, op: Op, s': State, id: Id, order: nat)
    requires Inv(s) && Step(s, op, s') && op.Submit?
    ensures Link(s.t, s'.t, id, order)
  {
    SubmitRefused(s.t, op.id, op.source);
    if Submitted(s.t, op.id, op.source).1.Done? {
      SubmitAdds(s.t, op.id, op.source);
    }
  }

  lemma NextLinks(s: State, s': State, id: Id, order: nat)
    requires Inv(s) && Next(s, s')
    ensures Link(s.t, s'.t, id, order)
  {
    var op :| Step(s, op, s') && Unhaunted(s, op);
    if op.Submit? {
      SubmitLinks(s, op, s', id, order);
    } else {
      KeysStay(s, op, s');
      StepAbsorbs(s, op, s');
    }
  }

  lemma RunLinks(run: seq<State>, k: nat, id: Id, order: nat)
    requires IsRun(run) && 0 < k < |run|
    ensures Link(run[k - 1].t, run[k].t, id, order)
  {
    RunKeeps(run, k - 1);
    assert NextAt(run, k - 1);
    NextLinks(run[k - 1], run[k], id, order);
  }

  lemma {:induction false} InputsGrow(run: seq<State>, j: nat, k: nat)
    requires IsRun(run) && j <= k < |run|
    ensures run[j].t.inputs <= run[k].t.inputs
  {
    if j < k {
      InputsGrow(run, j, k - 1);
      RunLinks(run, k, 0, 0);
    }
  }

  // A finished goal keeps its lifecycle for as long as it is in the table and the slot does not name it.
  lemma {:induction false} FinishedForGood(run: seq<State>, j: nat, k: nat, id: Id, order: nat)
    requires IsRun(run) && j <= k < |run|
    requires Holds(run[j].t, id, order) && Holds(run[k].t, id, order) && !Running(run[j].t.goals[id].lifecycle)
    requires forall m | j <= m < k :: !InSlot(run[m].t, id)
    ensures run[k].t.goals[id].lifecycle == run[j].t.goals[id].lifecycle
  {
    if j < k {
      OrderGiven(run, j, id, order);
      InputsGrow(run, j, k - 1);
      RunLinks(run, k, id, order);
      FinishedForGood(run, j, k - 1, id, order);
    }
  }

  lemma OrderGiven(run: seq<State>, j: nat, id: Id, order: nat)
    requires IsRun(run) && j < |run| && Holds(run[j].t, id, order)
    ensures order <= run[j].t.inputs
  {
    RunKeeps(run, j);
  }

  // ---------- where the two guards are needed ----------

  // Whatever the slot's goal had become, finished or not, an accepted new primary cancels it.
  lemma SlotGoalIsCancelled(t: Table, id: Id, plan: Plan)
    requires Shape(t) && Apart(t) && id in t.goals && t.goals[id].lifecycle == Pending && plan.Accepted?
    requires t.slot.Some? && t.slot.value.0 != id && AdoptedPrimary(t, id, plan).1.Done?
    ensures t.slot.value.0 in t.goals && t.slot.value.0 in AdoptedPrimary(t, id, plan).0.goals
    ensures AdoptedPrimary(t, id, plan).0.goals[t.slot.value.0].lifecycle == Cancelled
    ensures AdoptedPrimary(t, id, plan).0.slot.None?
  {
  }

  // The slot's goal left the table before the slot was freed, so that cancelling it raises.
  predicate SlotGone(t: Table) {
    t.slot.Some? && t.slot.value.0 !in t.goals
  }

  // The failure of a running physical goal ends it unless the slot still names a goal that left the table: then it
  // raises, and the goal runs on under a new generation.
  lemma PhysicalFailureEnds(t: Table, id: Id, answered: bool)
    requires Shape(t) && id in t.goals && Running(t.goals[id].lifecycle) && Physical(t, id)
    ensures var (t', o) := FailedGoal(t, id, answered, false);
      && t'.generation == t.generation + 1
      && (SlotGone(t) <==> o.Raised?) && (SlotGone(t) <==> id in t'.goals && Running(t'.goals[id].lifecycle))
  {
  }

  // ---------- when an identity that is used again loses its owner ----------

  // A thread left from the earlier use ends without effect and frees the slot, and the goal is started and unowned.
  ghost predicate Loses(s: State) {
    exists k, s1, s2 ::
      && (s1 == s || Step(s, EndTeaching(k, true), s1))
      && Step(s1, FreeSlot(k), s2) && !Owned(s2.t)
  }

  lemma HauntedLoses(s: State, op: Op, s': State, k: nat)
    requires Inv(s) && Interjects(s, op) && Step(s, op, s')
    requires k in s.threads && s.threads[k].id == op.id && s.threads[k].gen == s.t.generation
    ensures Loses(s')
  {
    var id := op.id;
    assert s'.t.goals[id].lifecycle == Starting && s'.t.slot == Some((id, s.t.generation)) && s'.t.primary != Some(id);
    var s1 := if s.threads[k].ended then s' else s'.(threads := s'.threads[k := s.threads[k].(ended := true)]);
    var s2 := s1.(t := SlotFreed(s1.t, id, s.t.generation), threads := s1.threads - {k});
    assert Step(s1, FreeSlot(k), s2);
    assert s1 == s' || Step(s', EndTeaching(k, true), s1);
    assert s2.t.goals[id].lifecycle == Starting && s2.t.slot.None?;
  }

  // The exact condition, before the adoption: a goal that enters the slot can lose its owner to a thread that is
  // already there if and only if one of the current generation still carries its identity.
  lemma ReuseLosesOwnerIff(s: State, op: Op, s': State)
    requires Inv(s) && Interjects(s, op) && Step(s, op, s')
    ensures Loses(s') <==> Haunted(s, op.id)
    ensures !Haunted(s, op.id) ==> Inv(s')
  {
    if Haunted(s, op.id) {
      var k :| k in s.threads && s.threads[k].id == op.id && s.threads[k].gen == s.t.generation;
      HauntedLoses(s, op, s', k);
    } else {
      StepKeeps(s, op, s');
      forall k, s1, s2 | (s1 == s' || Step(s', EndTeaching(k, true), s1)) && Step(s1, FreeSlot(k), s2)
        ensures Owned(s2.t) {
        if s1 != s' {
          StepKeeps(s', EndTeaching(k, true), s1);
        }
        StepKeeps(s1, FreeSlot(k), s2);
      }
    }
  }

  // ---------- the runs that reach the two failures ----------

  lemma Extend(run: seq<State>, op: Op, s': State) returns (run': seq<State>)
    requires IsRun(run) && Step(run[|run| - 1], op, s') && Unhaunted(run[|run| - 1], op)
    ensures IsRun(run') && run'[|run'| - 1] == s' && Shape(s'.t)
  {
    run' := run + [s'];
    assert Next(run[|run| - 1], s');
    forall i: nat ensures NextAt(run', i) {
      assert NextAt(run, i);
    }
    RunKeeps(run', |run|);
  }

  lemma RoomAdds(t: Table, id: Id, source: Source)
    requires Shape(t) && id !in t.goals && |t.goals| < LIMIT
    ensures Submitted(t, id, source) == (Added(t, id, source), Done)
  {
    var k := EvictedMeans(t);
  }

  // Goals that wait for adoption.
  predicate Waits(t: Table, id: Id) {
    id in t.goals && t.goals[id].source == Human && t.goals[id].lifecycle == Pending
  }

  // The first `n` submissions of the user.
  ghost predicate Submissions(t: Table, n: nat) {
    && t.primary.None? && t.slot.None? && t.generation == 0 && |t.goals| == n
    && (forall id: Id :: id in t.goals <==> id < n)
    && (forall id: Id | id in t.goals :: Waits(t, id))
  }

  lemma AddedSize(t: Table, id: Id, source: Source)
    requires id !in t.goals
    ensures |Added(t, id, source).goals| == |t.goals| + 1
  {
    assert Added(t, id, source).goals.Keys == t.goals.Keys + {id};
    assert |t.goals.Keys + {id}| == |t.goals.Keys| + 1;
  }

  lemma OneMoreWaits(t: Table, n: nat)
    requires Submissions(t, n)
    ensures Submissions(Added(t, n, Human), n + 1)
  {
    AddedSize(t, n, Human);
  }

  lemma {:induction false} Fill(n: nat) returns (run: seq<State>, t: Table)
    requires n <= LIMIT
    ensures IsRun(run) && run[|run| - 1] == State(t, map[], map[]) && Shape(t) && Submissions(t, n)
  {
    if n == 0 {
      t := Table([], map[], None, None, 0, 0);
      run := [State(t, map[], map[])];
    } else {
      var before;
      run, before := Fill(n - 1);
      RoomAdds(before, n - 1, Human);
      OneMoreWaits(before, n - 1);
      t := Added(before, n - 1, Human);
      run := Extend(run, Submit(n - 1, Human), State(t, map[], map[]));
    }
  }

  // With one finished goal beside the primary, a full table drops just that one.
  lemma EvictsOnly(t: Table, x: Id, id: Id, source: Source)
    requires Shape(t) && |t.goals| == LIMIT && id !in t.goals && Evictable(t, x)
    requires forall y | y in t.goals && y != x :: !Evictable(t, y)
    ensures Submitted(t, id, source) == (Added(Removed(t, x), id, source), Done)
    ensures |Removed(t, x).goals| == LIMIT - 1
  {
    EvictsThat(t, x);
    RemovedShape(t, x);
  }

  lemma EvictsThat(t: Table, x: Id)
    requires Shape(t) && |t.goals| == LIMIT && Evictable(t, x)
    requires forall y | y in t.goals && y != x :: !Evictable(t, y)
    ensures Evicted(t, Evictables(t, t.ids), 0) == Removed(t, x)
  {
    var k := EvictedMeans(t);
    OnlyThat(t, x, k);
  }

  lemma OnlyThat(t: Table, x: Id, k: nat)
    requires Shape(t) && Evictable(t, x) && forall y | y in t.goals && y != x :: !Evictable(t, y)
    requires k <= |t.ids| && (forall i | 0 <= i < k :: !Evictable(t, t.ids[i]))
    requires k < |t.ids| ==> Evictable(t, t.ids[k])
    ensures k < |t.ids| && t.ids[k] == x
  {
    assert x in t.ids;
  }

  const MOVING := Accepted(true, false, false)
  const TEACHING := Accepted(false, false, true)

  // A full table whose goal 1 is the moving primary and whose others but `id` wait.
  ghost predicate Moving(t: Table, id: Id) {
    && |t.goals| == LIMIT && t.primary == Some(1) && t.generation == 1 && 1 in t.goals && id != 1
    && t.goals[1].lifecycle == Starting && t.goals[1].motion
    && (forall i: Id | i in t.goals && i != 1 && i != id :: Waits(t, i))
  }

  // The user's submissions, of which 1 moves.
  lemma MovingStarts(t: Table) returns (t': Table)
    requires Submissions(t, LIMIT)
    ensures Adopted(t, 1, MOVING, false) == (t', Done)
    ensures Moving(t', 0) && Waits(t', 0) && t'.slot.None? && t'.goals.Keys == t.goals.Keys
  {
    t' := Adopt1(t.(primary := Some(1), generation := 1), 1, MOVING);
    SameSize(t, t');
  }

  lemma SameSize(t: Table, t': Table)
    requires t.goals.Keys == t'.goals.Keys
    ensures |t.goals| == |t'.goals|
  {
    assert |t.goals.Keys| == |t.goals| && |t'.goals.Keys| == |t'.goals|;
  }

  // Beside it, 0 teaches.
  lemma TeachingStarts(t: Table) returns (t': Table)
    requires Moving(t, 0) && Waits(t, 0) && t.slot.None?
    ensures Adopted(t, 0, TEACHING, true) == (t', Done)
    ensures Moving(t', 0) && 0 in t'.goals && t'.goals[0].lifecycle == Starting && t'.slot == Some((0, 1))
    ensures t'.goals.Keys == t.goals.Keys
  {
    t' := Adopt1(t.(slot := Some((0, 1))), 0, TEACHING);
    SameSize(t, t');
  }

  lemma MovingRun() returns (run: seq<State>, t: Table)
    ensures IsRun(run) && Shape(t) && run[|run| - 1] == State(t, map[1 := 1], map[])
    ensures Moving(t, 0) && Waits(t, 0) && t.slot.None? && forall id: Id :: id in t.goals <==> id < LIMIT
  {
    var before;
    run, before := Fill(LIMIT);
    t := MovingStarts(before);
    run := Extend(run, Adopt(1, MOVING, false), State(t, map[1 := 1], map[]));
  }

  // The table of the goal that teaches, as its thread begins.
  ghost predicate TeachingNow(t: Table) {
    && Moving(t, 0) && 0 in t.goals && t.goals[0].lifecycle == Active && t.slot == Some((0, 1))
    && forall id: Id :: id in t.goals <==> id < LIMIT
  }

  lemma InterjectedRun() returns (run: seq<State>, t: Table)
    ensures IsRun(run) && run[|run| - 1] == State(t, map[1 := 1], map[])
    ensures Moving(t, 0) && 0 in t.goals && t.goals[0].lifecycle == Starting && t.slot == Some((0, 1))
    ensures forall id: Id :: id in t.goals <==> id < LIMIT
  {
    var before;
    run, before := MovingRun();
    t := TeachingStarts(before);
    run := Extend(run, Adopt(0, TEACHING, true), State(t, map[1 := 1], map[]));
  }

  lemma TeachingRun() returns (run: seq<State>, t: Table)
    ensures IsRun(run) && run[|run| - 1] == State(t, map[1 := 1], map[0 := Teaching(0, 1, false)])
    ensures TeachingNow(t)
  {
    var before;
    run, before := InterjectedRun();
    t := Change(before, 0, Active);
    SameSize(before, t);
    run := Extend(run, BeginTeaching(0, 0, 1), State(t, map[1 := 1], map[0 := Teaching(0, 1, false)]));
  }

  // It teaches, or fails to; only the failure frees the slot.
  lemma TeachingOver(t: Table, taught: bool) returns (t': Table)
    requires TeachingNow(t)
    ensures t' == TeachingEnded(t, 0, 1, taught) && t'.slot == (if taught then t.slot else None)
    ensures Moving(t', 0) && 0 in t'.goals && !Running(t'.goals[0].lifecycle) && t'.goals.Keys == t.goals.Keys
  {
    t' := TeachingEnded(t, 0, 1, taught);
    SameSize(t, t');
  }

  lemma EndedRun(taught: bool) returns (run: seq<State>, t: Table)
    ensures IsRun(run) && Shape(t) && run[|run| - 1] == State(t, map[1 := 1], map[0 := Teaching(0, 1, true)])
    ensures Moving(t, 0) && 0 in t.goals && !Running(t.goals[0].lifecycle)
    ensures t.slot == (if taught then Some((0, 1)) else None)
    ensures forall id: Id :: id in t.goals <==> id < LIMIT
  {
    var before;
    run, before := TeachingRun();
    t := TeachingOver(before, taught);
    run := Extend(run, EndTeaching(0, taught), State(t, map[1 := 1], map[0 := Teaching(0, 1, true)]));
  }

  // A goal that ended makes room in the full table for the next submission.
  lemma NextEvicts(t: Table, x: Id, id: Id) returns (t': Table)
    requires Shape(t) && Moving(t, x) && x in t.goals && !Running(t.goals[x].lifecycle) && id !in t.goals
    ensures Submitted(t, id, Human) == (t', Done) && Moving(t', x) && Waits(t', id) && t'.slot == t.slot
    ensures forall i: Id :: i in t'.goals <==> (i in t.goals && i != x) || i == id
  {
    EvictsOnly(t, x, id, Human);
    t' := Added(Removed(t, x), id, Human);
    AddedSize(Removed(t, x), id, Human);
  }

  lemma EvictedRun(taught: bool) returns (run: seq<State>, t: Table)
    ensures IsRun(run) && Shape(t) && run[|run| - 1] == State(t, map[1 := 1], map[0 := Teaching(0, 1, true)])
    ensures Moving(t, 0) && Waits(t, 2) && 0 !in t.goals && t.slot == (if taught then Some((0, 1)) else None)
  {
    var before;
    run, before := EndedRun(taught);
    t := NextEvicts(before, 0, LIMIT);
    run := Extend(run, Submit(LIMIT, Human), State(t, map[1 := 1], map[0 := Teaching(0, 1, true)]));
  }

  // The taught goal leaves the full table before its thread frees the slot, and the failure of the primary then raises.
  lemma PhysicalFailureRaisesRun() returns (run: seq<State>, s': State)
    ensures IsRun(run)
    ensures var s := run[|run| - 1];
      && SlotGone(s.t) && s.t.primary == Some(1) && 1 in s.t.goals && Physical(s.t, 1)
      && Running(s.t.goals[1].lifecycle)
      && Step(s, Fail(1, false, false), s') && s'.t == s.t.(generation := s.t.generation + 1)
  {
    var t;
    run, t := EvictedRun(true);
    s' := State(t.(generation := 2), map[1 := 1], map[0 := Teaching(0, 1, true)]);
  }

  // The identity of a goal that failed to teach is evicted and used again before its thread frees the slot: the
  // adoption is haunted, and the goal it starts loses its owner.
  lemma ReuseLosesOwnerRun() returns (run: seq<State>, op: Op, s': State)
    ensures IsRun(run) && Interjects(run[|run| - 1], op) && Haunted(run[|run| - 1], op.id)
    ensures Step(run[|run| - 1], op, s') && Loses(s')
  {
    var t;
    run, t := EvictedRun(false);
    run, s', op := ReuseEnds(run, t);
  }

  lemma ReuseEnds(run: seq<State>, t: Table) returns (run': seq<State>, s': State, op: Op)
    requires IsRun(run) && Shape(t) && run[|run| - 1] == State(t, map[1 := 1], map[0 := Teaching(0, 1, true)])
    requires Moving(t, 0) && Waits(t, 2) && 0 !in t.goals && t.slot.None?
    ensures IsRun(run') && Interjects(run'[|run'| - 1], op) && Haunted(run'[|run'| - 1], op.id)
    ensures Step(run'[|run'| - 1], op, s') && Loses(s')
  {
    var t1, t2;
    run', t1 := WaitingFails(run, t);
    t2 := NextEvicts(t1, 2, 0);
    run' := Extend(run', Submit(0, Human), State(t2, map[1 := 1], map[0 := Teaching(0, 1, true)]));
    op, s' := HauntedAdoption(run', t2);
  }

  // Another goal fails, so that the identity 0 finds room again.
  lemma WaitingFails(run: seq<State>, t: Table) returns (run': seq<State>, t': Table)
    requires IsRun(run) && run[|run| - 1] == State(t, map[1 := 1], map[0 := Teaching(0, 1, true)])
    requires Moving(t, 0) && Waits(t, 2) && 0 !in t.goals && t.slot.None?
    ensures IsRun(run') && Shape(t') && run'[|run'| - 1] == State(t', map[1 := 1], map[0 := Teaching(0, 1, true)])
    ensures Moving(t', 2) && 2 in t'.goals && !Running(t'.goals[2].lifecycle) && 0 !in t'.goals && t'.slot.None?
  {
    t' := Change(t, 2, Failed);
    SameSize(t, t');
    run' := Extend(run, Fail(2, false, false), State(t', map[1 := 1], map[0 := Teaching(0, 1, true)]));
  }

  lemma HauntedAdoption(run: seq<State>, t: Table) returns (op: Op, s': State)
    requires IsRun(run) && run[|run| - 1] == State(t, map[1 := 1], map[0 := Teaching(0, 1, true)])
    requires Waits(t, 0) && t.slot.None? && t.generation == 1
    ensures Interjects(run[|run| - 1], op) && Haunted(run[|run| - 1], op.id)
    ensures Step(run[|run| - 1], op, s') && Loses(s')
  {
    var s := run[|run| - 1];
    RunKeeps(run, |run| - 1);
    op := Adopt(0, TEACHING, true);
    s' := AdoptedState(s, 0, TEACHING, true);
    assert s.threads[0].id == 0 && s.threads[0].gen == s.t.generation;
    HauntedLoses(s, op, s', 0);
  }
}
