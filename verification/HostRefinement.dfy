/** How the machines of the host fit together. */
module HostRefinement {
  import opened Options
  import StopProtocol
  import GoalTable
  import BehaviorLifecycle

  // What the STOP protocol assumes of the goal table and of the behaviors is what they do.  The protocol knows the goal
  // table by its generation and by whether a goal is running, and the behaviors by theirs.  Each step of the detailed
  // machines is one of the steps that the protocol allows, so that what it proves of every run covers the detailed
  // machines under it.

  // ---------- the goal table ----------

  predicate GoalRuns(t: GoalTable.Table) {
    GoalTable.Current(t).Some? && GoalTable.Running(GoalTable.Current(t).value.lifecycle)
  }

  predicate BrainMatches(s: StopProtocol.State, t: GoalTable.Table) {
    s.brainGeneration == t.generation && (s.goalAt.Some? <==> GoalRuns(t))
  }

  // A goal comes to run only by an accepted adoption, under a new generation.
  predicate AuthorityStep(t: GoalTable.Table, t': GoalTable.Table, adopted: Option<GoalTable.Id>) {
    || (t'.generation == t.generation && (GoalRuns(t') ==> GoalRuns(t)))
    || (t'.generation == t.generation + 1 && (GoalRuns(t') ==>
          || (adopted.Some? && t'.primary == adopted)
          || (GoalRuns(t) && t'.primary == t.primary && GoalTable.SlotGone(t))))
  }

  lemma FailAuthority(t: GoalTable.Table, id: GoalTable.Id, answered: bool, pendingOnly: bool)
    requires GoalTable.Apart(t)
    ensures AuthorityStep(t, GoalTable.FailedGoal(t, id, answered, pendingOnly).0, None)
  {
  }

  lemma AdoptAuthority(t: GoalTable.Table, id: GoalTable.Id, plan: GoalTable.Plan, behaving: bool)
    requires t.primary.Some? && t.primary.value in t.goals ==> t.goals[t.primary.value].lifecycle != GoalTable.Pending
    ensures AuthorityStep(t, GoalTable.Adopted(t, id, plan, behaving).0, Some(id))
  {
  }

  lemma SubmitAuthority(t: GoalTable.Table, id: GoalTable.Id, source: GoalTable.Source)
    requires GoalTable.Shape(t)
    ensures var t' := GoalTable.Submitted(t, id, source).0; t'.generation == t.generation && GoalRuns(t') == GoalRuns(t)
  {
    GoalTable.SubmitRefused(t, id, source);
    if GoalTable.Submitted(t, id, source).1.Done? {
      GoalTable.SubmitAdds(t, id, source);
    }
  }

  // No step of the goal table revives a goal, and only an adoption starts one.
  lemma GoalTableAuthority(s: GoalTable.State, op: GoalTable.Op, s': GoalTable.State)
    requires GoalTable.Inv(s) && GoalTable.Step(s, op, s')
    ensures AuthorityStep(s.t, s'.t, if op.Adopt? then Some(op.id) else None)
  {
    match op
    case Submit(id, source) => SubmitAuthority(s.t, id, source);
    case Adopt(id, plan, behaving) => AdoptAuthority(s.t, id, plan, behaving);
    case Fail(id, answered, pendingOnly) => FailAuthority(s.t, id, answered, pendingOnly);
    case EndTeaching(k, taught) => FailAuthority(s.t, s.threads[k].id, false, false);
    case _ =>
  }

  // The protocol's step for what a step of the goal table did: nothing, or one happening of the environment, which is
  // an admission exactly when an adoption made its goal the primary.
  lemma GoalTableRefines(p: StopProtocol.State, s: GoalTable.State, op: GoalTable.Op, s': GoalTable.State)
      returns (p': StopProtocol.State)
    requires GoalTable.Inv(s) && GoalTable.Step(s, op, s') && BrainMatches(p, s.t)
    ensures BrainMatches(p', s'.t)
    ensures p' == p || exists h :: StopProtocol.Environment(p, h, p')
    ensures p'.log == p.log
            || (p'.log == p.log + [StopProtocol.GoalAdopted] && op.Adopt? && s'.t.primary == Some(op.id))
  {
    GoalTableAuthority(s, op, s');
    if s'.t.generation == s.t.generation {
      p' := if GoalRuns(s'.t) then p else p.(goalAt := None);
      assert StopProtocol.Environment(p, StopProtocol.CompleteGoal, p.(goalAt := None));
    } else if !GoalRuns(s'.t) {
      p' := p.(goalAt := None, brainGeneration := p.brainGeneration + 1);
      assert StopProtocol.Environment(p, StopProtocol.CancelGoal, p');
    } else if op.Adopt? && s'.t.primary == Some(op.id) {
      p' := p.(brainGeneration := p.brainGeneration + 1, goalAt := Some(|p.log|),
               log := p.log + [StopProtocol.GoalAdopted],
               behaviorGeneration := StopProtocol.BehaviorAfter(p, StopProtocol.Revoke).0, behaviorRunning := false);
      assert StopProtocol.Environment(p, StopProtocol.AdoptGoal, p');
    } else {
      p' := p.(brainGeneration := p.brainGeneration + 1);
      assert StopProtocol.Environment(p, StopProtocol.RenumberGoal, p');
    }
  }

  // A thread that revokes the goal in the protocol does what the goal table's own revocation does.
  lemma RevocationMatches(p: StopProtocol.State, t: StopProtocol.Tid, e: StopProtocol.Effect, g: GoalTable.Table)
    requires BrainMatches(p, g) && e.dropGoal
    ensures BrainMatches(StopProtocol.Apply(p, t, e), GoalTable.Revoked(g))
  {
  }

  // ---------- the behaviors ----------

  predicate BehaviorMatches(p: StopProtocol.State, b: BehaviorLifecycle.State) {
    p.behaviorGeneration == b.generation && (p.behaviorRunning <==> BehaviorLifecycle.Running(b.snap.lifecycle))
  }

  // What one step of the behaviors is to the protocol.
  function ChangeOf(b: BehaviorLifecycle.State, b': BehaviorLifecycle.State): StopProtocol.BehaviorChange {
    if b'.generation == b.generation then StopProtocol.Leave
    else if BehaviorLifecycle.Running(b.snap.lifecycle) then StopProtocol.Revoke
    else StopProtocol.Begin
  }

  predicate BehaviorChanged(p: StopProtocol.State, c: StopProtocol.BehaviorChange, b': BehaviorLifecycle.State) {
    var (generation, running) := StopProtocol.BehaviorAfter(p, c);
    generation == b'.generation && (running <==> BehaviorLifecycle.Running(b'.snap.lifecycle))
  }

  // A decision to finish never leaves the behavior running, and one to observe always does.
  lemma DecisionEnds(limits: BehaviorLifecycle.Limits, seen: BehaviorLifecycle.Snapshot, i: BehaviorLifecycle.Input)
    ensures match BehaviorLifecycle.Decide(limits, seen, i)
      case Nothing => true
      case Finish(l, _, _) => !BehaviorLifecycle.Running(l)
      case Observe(l, _, _, _, _, _, _) => BehaviorLifecycle.Running(l)
  {
  }

  lemma FinishedChanges(p: StopProtocol.State, s: BehaviorLifecycle.State, t: BehaviorLifecycle.Tid, gen: Option<nat>,
                        l: BehaviorLifecycle.Lifecycle, r: BehaviorLifecycle.Reason, stop: bool,
                        measured: Option<int>, now: int)
    requires BehaviorMatches(p, s) && !BehaviorLifecycle.Running(l)
    ensures var s' := BehaviorLifecycle.Finished(s, t, gen, l, r, stop, measured, now);
            BehaviorChanged(p, ChangeOf(s, s'), s')
  {
  }

  lemma ObservedChanges(p: StopProtocol.State, s: BehaviorLifecycle.State, t: BehaviorLifecycle.Tid, gen: nat,
                        d: BehaviorLifecycle.Decision)
    requires BehaviorMatches(p, s) && d.Observe? && BehaviorLifecycle.Running(d.lifecycle)
    ensures var s' := BehaviorLifecycle.Observed(s, t, gen, d); BehaviorChanged(p, ChangeOf(s, s'), s')
  {
  }

  lemma DecidedChanges(p: StopProtocol.State, s: BehaviorLifecycle.State, t: BehaviorLifecycle.Tid, gen: nat,
                       seen: BehaviorLifecycle.Snapshot, i: BehaviorLifecycle.Input, now: int)
    requires BehaviorMatches(p, s)
    ensures var s' := BehaviorLifecycle.Decided(s, t, gen, seen, i, now); BehaviorChanged(p, ChangeOf(s, s'), s')
  {
    var s1 := s.(observed := s.observed + BehaviorLifecycle.Saw(s.limits, seen, i));
    var d := BehaviorLifecycle.Decide(s.limits, seen, i);
    DecisionEnds(s.limits, seen, i);
    match d
    case Nothing =>
    case Finish(l, r, measured) =>
      FinishedChanges(p, s1, t, Some(gen), l, r, l != BehaviorLifecycle.Cancelled, measured, now);
    case Observe(_, _, _, _, _, _, _) => ObservedChanges(p, s1, t, gen, d);
  }

  lemma BehaviorChanges(p: StopProtocol.State, s: BehaviorLifecycle.State, t: BehaviorLifecycle.Tid,
                        m: BehaviorLifecycle.Move, s': BehaviorLifecycle.State)
    requires BehaviorLifecycle.Inv(s) && BehaviorLifecycle.Step(s, t, m, s') && BehaviorMatches(p, s)
    ensures BehaviorChanged(p, ChangeOf(s, s'), s')
  {
    if t in s.threads && s.threads[t].Stepping? {
      DecidedChanges(p, s, t, s.threads[t].gen, s.threads[t].seen, m.input, m.now);
    } else if t in s.threads {
      assert BehaviorLifecycle.SoundThread(s, t, s.threads[t]);
    }
  }

  // Only an installation begins a behavior.
  lemma OnlyInstallBegins(s: BehaviorLifecycle.State, t: BehaviorLifecycle.Tid, m: BehaviorLifecycle.Move,
                          s': BehaviorLifecycle.State)
    requires BehaviorLifecycle.Step(s, t, m, s') && ChangeOf(s, s').Begin?
    ensures m.Install? && t !in s.threads
  {
    if t in s.threads && s.threads[t].Stepping? {
      NoBegin(s, t, s.threads[t].gen, s.threads[t].seen, m.input, m.now);
    }
  }

  lemma NoBegin(s: BehaviorLifecycle.State, t: BehaviorLifecycle.Tid, gen: nat,
                seen: BehaviorLifecycle.Snapshot, i: BehaviorLifecycle.Input, now: int)
    ensures !ChangeOf(s, BehaviorLifecycle.Decided(s, t, gen, seen, i, now)).Begin?
  {
  }

  // The protocol's step for what a step of the behaviors did: nothing, the end of a behavior, or the installation by
  // the thread `x` that called for it: a behavior request, a skill's call or Brain's dispatch, inside the action lock.
  lemma BehaviorRefines(p: StopProtocol.State, x: StopProtocol.Tid, s: BehaviorLifecycle.State,
                        t: BehaviorLifecycle.Tid, m: BehaviorLifecycle.Move, s': BehaviorLifecycle.State)
    returns (p': StopProtocol.State)
    requires BehaviorLifecycle.Inv(s) && BehaviorLifecycle.Step(s, t, m, s') && BehaviorMatches(p, s)
    requires m.Install? ==> x in p.threads && p.threads[x].phase.Install?
    ensures BehaviorMatches(p', s')
    ensures p' == p
            || StopProtocol.Environment(p, StopProtocol.EndBehavior, p')
            || (m.Install? && exists e :: StopProtocol.ThreadStep(p, x, e, p'))
    ensures m.Install? ==> exists e :: StopProtocol.ThreadStep(p, x, e, p')
  {
    BehaviorChanges(p, s, t, m, s');
    if m.Install? {
      p' := InstallRefines(p, x, s, t, m, s');
    } else if ChangeOf(s, s').Revoke? {
      p' := p.(behaviorGeneration := StopProtocol.BehaviorAfter(p, StopProtocol.Revoke).0, behaviorRunning := false);
    } else {
      if ChangeOf(s, s').Begin? {
        OnlyInstallBegins(s, t, m, s');
      }
      p' := p;
    }
  }

  // The thread that installs goes on to the port check, or leaves when another behavior runs.
  lemma InstallRefines(p: StopProtocol.State, x: StopProtocol.Tid, s: BehaviorLifecycle.State,
                       t: BehaviorLifecycle.Tid, m: BehaviorLifecycle.Move, s': BehaviorLifecycle.State)
    returns (p': StopProtocol.State)
    requires BehaviorLifecycle.Step(s, t, m, s') && m.Install? && BehaviorMatches(p, s)
    requires x in p.threads && p.threads[x].phase.Install?
    ensures BehaviorMatches(p', s') && exists e :: StopProtocol.ThreadStep(p, x, e, p')
  {
    var th := p.threads[x];
    var e := if p.behaviorRunning then StopProtocol.Quit(th)
             else StopProtocol.Goto(th.(port := p.behaviorGeneration + 1), StopProtocol.PortCheck)
                    .(behavior := StopProtocol.Begin);
    p' := StopProtocol.Apply(p, x, e);
    assert StopProtocol.Requests(p, x, th, e);
    assert StopProtocol.ThreadStep(p, x, e, p');
  }

  // A thread that revokes the behaviors in the protocol does what the behaviors' own revocation does.
  lemma BehaviorRevocationMatches(p: StopProtocol.State, x: StopProtocol.Tid, e: StopProtocol.Effect,
                                  s: BehaviorLifecycle.State, t: BehaviorLifecycle.Tid, stop: bool, now: int)
    requires BehaviorMatches(p, s) && e.behavior.Revoke?
    ensures var cancelled, given := BehaviorLifecycle.Cancelled, BehaviorLifecycle.Given(1);
      var s' := BehaviorLifecycle.Finished(s, t, None, cancelled, given, stop, None, now);
      BehaviorMatches(StopProtocol.Apply(p, x, e), s')
      && (t !in s.threads ==> BehaviorLifecycle.Step(s, t, BehaviorLifecycle.Move.Revoke(stop, now), s'))
  {
  }

  // ---------- whole runs ----------

  lemma OneMore(run: seq<StopProtocol.State>, s': StopProtocol.State) returns (run': seq<StopProtocol.State>)
    requires StopProtocol.IsRun(run) && StopProtocol.Next(run[|run| - 1], s')
    ensures StopProtocol.IsRun(run') && run' == run + [s']
  {
    run' := run + [s'];
    forall i: nat ensures StopProtocol.NextAt(run', i) {
      assert StopProtocol.NextAt(run, i);
    }
  }

  // Positions in a run of the protocol, one for each state of another run, in order and up to the last one.
  predicate Along(at: seq<nat>, count: nat, length: nat) {
    && |at| == count && count > 0 && at[count - 1] + 1 == length
    && forall i, j | 0 <= i <= j < count :: at[i] <= at[j]
  }

  lemma AlongMore(at: seq<nat>, count: nat, length: nat, length': nat)
    requires Along(at, count, length) && length <= length'
    ensures Along(at + [length' - 1], count + 1, length')
  {
  }

  ghost predicate GoalTableBeside(p: seq<StopProtocol.State>, at: seq<nat>, run: seq<GoalTable.State>, count: nat)
    requires count <= |run|
  {
    Along(at, count, |p|) && forall i | 0 <= i < count :: at[i] < |p| && BrainMatches(p[at[i]], run[i].t)
  }

  // A goal table that starts under some generation: so does the protocol, after as many cancellations.
  lemma {:induction false} GoalTableStarts(generation: nat) returns (p: seq<StopProtocol.State>)
    ensures StopProtocol.IsRun(p)
    ensures p[|p| - 1].brainGeneration == generation && p[|p| - 1].goalAt.None?
  {
    if generation == 0 {
      p := [StopProtocol.State(map[], None, None, 0, 0, None, None, 0, false, [])];
    } else {
      p := GoalTableStarts(generation - 1);
      var s := p[|p| - 1];
      assert StopProtocol.Environment(s, StopProtocol.CancelGoal, s.(brainGeneration := generation));
      p := OneMore(p, s.(brainGeneration := generation));
    }
  }

  ghost predicate Onward(p: seq<StopProtocol.State>, p': seq<StopProtocol.State>) {
    p != [] && StopProtocol.IsRun(p') && |p| <= |p'| && p'[..|p|] == p
  }

  lemma GoalTableStepRuns(p: seq<StopProtocol.State>, s: GoalTable.State, op: GoalTable.Op, s': GoalTable.State)
      returns (p': seq<StopProtocol.State>)
    requires StopProtocol.IsRun(p) && BrainMatches(p[|p| - 1], s.t) && GoalTable.Inv(s) && GoalTable.Step(s, op, s')
    ensures Onward(p, p') && BrainMatches(p'[|p'| - 1], s'.t)
  {
    var q := GoalTableRefines(p[|p| - 1], s, op, s');
    p' := p;
    if q != p[|p| - 1] {
      p' := OneMore(p, q);
    }
  }

  lemma GoalTableBesideMore(p: seq<StopProtocol.State>, p': seq<StopProtocol.State>, at: seq<nat>,
                            run: seq<GoalTable.State>, count: nat)
    requires count < |run| && GoalTableBeside(p, at, run, count) && Onward(p, p')
    requires BrainMatches(p'[|p'| - 1], run[count].t)
    ensures GoalTableBeside(p', at + [|p'| - 1], run, count + 1)
  {
    AlongMore(at, count, |p|, |p'|);
    forall i | 0 <= i < count ensures at[i] < |p'| && BrainMatches(p'[at[i]], run[i].t) {
      assert p'[at[i]] == p'[..|p|][at[i]];
    }
  }

  lemma GoalTableOp(run: seq<GoalTable.State>, k: nat) returns (op: GoalTable.Op)
    requires GoalTable.IsRun(run) && k + 1 < |run|
    ensures GoalTable.Inv(run[k]) && GoalTable.Step(run[k], op, run[k + 1])
  {
    GoalTable.RunKeeps(run, k);
    assert GoalTable.NextAt(run, k);
    op :| GoalTable.Step(run[k], op, run[k + 1]) && GoalTable.Unhaunted(run[k], op);
  }

  // Every run of the goal table has a run of the protocol beside it that agrees with it in every state.
  lemma {:induction false} GoalTableRuns(run: seq<GoalTable.State>, count: nat)
      returns (p: seq<StopProtocol.State>, at: seq<nat>)
    requires GoalTable.IsRun(run) && 0 < count <= |run|
    ensures StopProtocol.IsRun(p) && GoalTableBeside(p, at, run, count)
  {
    if count == 1 {
      p := GoalTableStarts(run[0].t.generation);
      at := [|p| - 1];
    } else {
      var k := count - 2;
      var q, before := GoalTableRuns(run, count - 1);
      var op := GoalTableOp(run, k);
      p := GoalTableStepRuns(q, run[k], op, run[k + 1]);
      GoalTableBesideMore(q, p, before, run, count - 1);
      at := before + [|p| - 1];
    }
  }

  ghost predicate BehaviorBeside(p: seq<StopProtocol.State>, at: seq<nat>, run: seq<BehaviorLifecycle.State>,
                                 count: nat)
    requires count <= |run|
  {
    Along(at, count, |p|) && forall i | 0 <= i < count :: at[i] < |p| && BehaviorMatches(p[at[i]], run[i])
  }

  lemma FreshId(ids: set<nat>) returns (t: nat)
    ensures forall x | x in ids :: x < t
  {
    t := 0;
    if ids != {} {
      var x :| x in ids;
      var rest := FreshId(ids - {x});
      t := if x < rest then rest else x + 1;
      assert forall y | y in ids :: y == x || y in ids - {x};
    }
  }

  // A goal is adopted, and its dispatch waits for the lock.
  lemma DispatchWaits(p: seq<StopProtocol.State>) returns (p': seq<StopProtocol.State>, x: StopProtocol.Tid)
    requires StopProtocol.IsRun(p) && p[|p| - 1].actionLock.None? && !p[|p| - 1].behaviorRunning
    ensures Onward(p, p')
    ensures var s, s' := p[|p| - 1], p'[|p'| - 1];
      && x in s'.threads && s'.threads[x].phase.WantLock? && s'.threads[x].family.BrainDispatch?
      && s'.actionLock.None? && s'.goalAt.Some?
      && s'.behaviorGeneration == s.behaviorGeneration && !s'.behaviorRunning
  {
    var s := p[|p| - 1];
    var s' := s.(brainGeneration := s.brainGeneration + 1, goalAt := Some(|s.log|),
                 log := s.log + [StopProtocol.GoalAdopted],
                 behaviorGeneration := StopProtocol.BehaviorAfter(s, StopProtocol.Revoke).0, behaviorRunning := false);
    assert StopProtocol.Environment(s, StopProtocol.AdoptGoal, s');
    var adopted := OneMore(p, s');
    x := FreshId(s'.threads.Keys);
    p' := StopProtocol.BySpawn(adopted, x, StopProtocol.BrainDispatch);
  }

  // It takes the lock and comes to the installation.
  lemma DispatchInstalls(p: seq<StopProtocol.State>, x: StopProtocol.Tid) returns (p': seq<StopProtocol.State>)
    requires StopProtocol.IsRun(p) && p[|p| - 1].actionLock.None? && p[|p| - 1].goalAt.Some?
    requires x in p[|p| - 1].threads
    requires p[|p| - 1].threads[x].phase.WantLock? && p[|p| - 1].threads[x].family.BrainDispatch?
    ensures Onward(p, p')
    ensures var s, s' := p[|p| - 1], p'[|p'| - 1];
      && x in s'.threads && s'.threads[x].phase.Install?
      && s'.behaviorGeneration == s.behaviorGeneration && s'.behaviorRunning == s.behaviorRunning
  {
    var s := p[|p| - 1];
    p' := StopProtocol.ByThread(p, x, StopProtocol.Goto(s.threads[x], StopProtocol.Check).(lock := StopProtocol.Take));
    s := p'[|p'| - 1];
    var th := s.threads[x].(gen := s.brainGeneration);
    p' := StopProtocol.ByThread(p', x, StopProtocol.Goto(th, StopProtocol.Recheck));
    s := p'[|p'| - 1];
    th := s.threads[x].(at := s.goalAt.value);
    p' := StopProtocol.ByThread(p', x, StopProtocol.Goto(th, StopProtocol.Install));
  }

  // It installs, finds its behavior in charge, and leaves.
  lemma DispatchBegins(p: seq<StopProtocol.State>, x: StopProtocol.Tid) returns (p': seq<StopProtocol.State>)
    requires StopProtocol.IsRun(p) && x in p[|p| - 1].threads && p[|p| - 1].threads[x].phase.Install?
    requires !p[|p| - 1].behaviorRunning
    ensures Onward(p, p')
    ensures var s, s' := p[|p| - 1], p'[|p'| - 1];
      s'.behaviorGeneration == s.behaviorGeneration + 1 && s'.behaviorRunning && s'.actionLock.None?
  {
    var s := p[|p| - 1];
    var th := s.threads[x].(port := s.behaviorGeneration + 1);
    p' := StopProtocol.ByThread(p, x, StopProtocol.Goto(th, StopProtocol.PortCheck).(behavior := StopProtocol.Begin));
    p' := StopProtocol.ByThread(p', x, StopProtocol.Goto(p'[|p'| - 1].threads[x], StopProtocol.Execute));
    p' := StopProtocol.ByThread(p', x, StopProtocol.Quit(p'[|p'| - 1].threads[x]));
  }

  lemma BehaviorBegins(p: seq<StopProtocol.State>) returns (p': seq<StopProtocol.State>)
    requires StopProtocol.IsRun(p) && p[|p| - 1].actionLock.None? && !p[|p| - 1].behaviorRunning
    ensures Onward(p, p')
    ensures var s, s' := p[|p| - 1], p'[|p'| - 1];
      s'.behaviorGeneration == s.behaviorGeneration + 1 && s'.behaviorRunning && s'.actionLock.None?
  {
    var waits, x := DispatchWaits(p);
    var installs := DispatchInstalls(waits, x);
    p' := DispatchBegins(installs, x);
    assert p'[..|p|] == installs[..|waits|][..|p|];
  }

  // One step of the behaviors, as steps of the protocol.
  lemma BehaviorStepRuns(p: seq<StopProtocol.State>, s: BehaviorLifecycle.State, t: BehaviorLifecycle.Tid,
                         m: BehaviorLifecycle.Move, s': BehaviorLifecycle.State) returns (p': seq<StopProtocol.State>)
    requires StopProtocol.IsRun(p) && p[|p| - 1].actionLock.None? && BehaviorMatches(p[|p| - 1], s)
    requires BehaviorLifecycle.Inv(s) && BehaviorLifecycle.Step(s, t, m, s')
    ensures Onward(p, p')
    ensures p'[|p'| - 1].actionLock.None? && BehaviorMatches(p'[|p'| - 1], s')
  {
    var q := p[|p| - 1];
    BehaviorChanges(q, s, t, m, s');
    match ChangeOf(s, s') {
      case Leave =>
        p' := p;
      case Revoke =>
        var generation := StopProtocol.BehaviorAfter(q, StopProtocol.Revoke).0;
        var q' := q.(behaviorGeneration := generation, behaviorRunning := false);
        assert StopProtocol.Environment(q, StopProtocol.EndBehavior, q');
        p' := OneMore(p, q');
      case Begin =>
        p' := BehaviorBegins(p);
    }
  }

  lemma BehaviorBesideMore(p: seq<StopProtocol.State>, p': seq<StopProtocol.State>, at: seq<nat>,
                           run: seq<BehaviorLifecycle.State>, count: nat)
    requires count < |run| && BehaviorBeside(p, at, run, count) && Onward(p, p')
    requires BehaviorMatches(p'[|p'| - 1], run[count])
    ensures BehaviorBeside(p', at + [|p'| - 1], run, count + 1)
  {
    AlongMore(at, count, |p|, |p'|);
    forall i | 0 <= i < count ensures at[i] < |p'| && BehaviorMatches(p'[at[i]], run[i]) {
      assert p'[at[i]] == p'[..|p|][at[i]];
    }
  }

  // Every run of the behaviors has a run of the protocol beside it that agrees with it in every state.
  lemma {:induction false} BehaviorRuns(run: seq<BehaviorLifecycle.State>, count: nat)
      returns (p: seq<StopProtocol.State>, at: seq<nat>)
    requires BehaviorLifecycle.IsRun(run) && 0 < count <= |run|
    ensures StopProtocol.IsRun(p) && p[|p| - 1].actionLock.None? && BehaviorBeside(p, at, run, count)
  {
    if count == 1 {
      p := [StopProtocol.State(map[], None, None, 0, 0, None, None, 0, false, [])];
      at := [0];
    } else {
      var k := count - 2;
      var q, before := BehaviorRuns(run, count - 1);
      BehaviorLifecycle.RunKeeps(run, k);
      assert BehaviorLifecycle.NextAt(run, k);
      var t, m :| BehaviorLifecycle.Step(run[k], t, m, run[k + 1]);
      p := BehaviorStepRuns(q, run[k], t, m, run[k + 1]);
      BehaviorBesideMore(q, p, before, run, count - 1);
      at := before + [|p| - 1];
    }
  }
}
