/** What a revocation still lets through before the STOP under the lock. */
module FirstStop {
  import opened Options
  import opened StopProtocol

  // Any revocation, and so the first STOP of a preemption, leaves at most one older request that can still command: the
  // one that holds the action lock past its last check.

  // Which revocations end a request of a family.
  predicate RevokesKind(e: Event, family: Family) {
    match family
    case SkillCall => e.SkillsRevoked?
    case BrainDispatch => e.BrainRevoked?
    case _ => e.Bumped?
  }

  // An event is a command of a request that was admitted before the revocation at `r` of its kind.
  predicate Old(log: seq<Event>, e: Event, r: nat)
    requires r < |log|
  {
    e.Commanded? && e.at < r && RevokesKind(log[r], e.family)
  }

  // An old command of the thread since a position in the log.
  predicate OldSince(log: seq<Event>, t: Tid, r: nat, since: nat)
    requires r < |log|
  {
    exists j | since <= j < |log| :: Old(log, log[j], r) && log[j].who == t
  }

  ghost predicate Continues(run: seq<State>, run': seq<State>) {
    IsRun(run') && |run| <= |run'| && run == run'[..|run|]
  }

  // The request needs no further check to command: it is about to, installs a behavior, or replaces one.
  predicate PastChecks(s: State, th: Thread) {
    match th.phase
    case Execute => true
    case Install => true
    case Boundary => th.family.SkillCall?
    case PortCheck => s.behaviorRunning && th.port == s.behaviorGeneration
    case _ => false
  }

  // The request can still command although the revocation at `r` came after its admission.
  predicate Escapes(s: State, t: Tid, r: nat)
    requires r < |s.log|
  {
    && t in s.threads && PastChecks(s, s.threads[t])
    && s.threads[t].at < r && RevokesKind(s.log[r], s.threads[t].family)
  }

  // ---------- nothing else comes to escape ----------

  ghost predicate Ports(s: State) {
    forall t | t in s.threads && s.threads[t].phase.PortCheck? :: s.threads[t].port <= s.behaviorGeneration
  }

  predicate PortSafe(s: State, th: Thread, e: Effect) {
    e.th.phase.PortCheck? ==> th.phase.Install? && e.behavior.Begin? && e.th.port == s.behaviorGeneration + 1
  }

  lemma RevokesPort(s: State, t: Tid, th: Thread, e: Effect)
    requires Revokes(s, t, th, e) || Stops(s, t, th, e)
    ensures PortSafe(s, th, e)
  {
  }

  lemma ChecksPort(s: State, t: Tid, th: Thread, e: Effect)
    requires (th.phase.Check? && Checks(s, t, th, e)) || (th.phase.Recheck? && Rechecks(s, t, th, e))
    ensures PortSafe(s, th, e)
  {
  }

  lemma OwnPort(s: State, t: Tid, th: Thread, e: Effect)
    requires Allowed(s, t, th, e)
    ensures PortSafe(s, th, e)
  {
    if Revokes(s, t, th, e) || Stops(s, t, th, e) {
      RevokesPort(s, t, th, e);
    } else if th.phase.Check? || th.phase.Recheck? {
      ChecksPort(s, t, th, e);
    }
  }

  lemma PortsThread(s: State, t: Tid, e: Effect)
    requires Ports(s) && t in s.threads && Allowed(s, t, s.threads[t], e)
    ensures Ports(Apply(s, t, e))
  {
    OwnPort(s, t, s.threads[t], e);
  }

  lemma PortsStep(s: State, s': State)
    requires Ports(s) && Next(s, s')
    ensures Ports(s')
  {
    if t, e :| ThreadStep(s, t, e, s') {
      PortsThread(s, t, e);
    }
  }

  lemma {:induction false} PortsKept(run: seq<State>, k: nat)
    requires IsRun(run) && k < |run|
    ensures Ports(run[k])
  {
    if k > 0 {
      PortsKept(run, k - 1);
      assert NextAt(run, k - 1);
      PortsStep(run[k - 1], run[k]);
    }
  }

  // A request that just passed its last check was admitted after every revocation of its kind.
  lemma JustChecked(s: State, t: Tid, th: Thread, e: Effect, r: nat)
    requires Placed(s.log, t, th) && Fits(th) && Safe(s, t, th, e) && Counted(s.log, s.generation) && Alive(s)
    requires r < |s.log| && RevokesKind(s.log[r], th.family) && Cleared(e.th) && !Cleared(th)
    ensures r <= e.th.at
  {
  }

  lemma OwnEscapes(s: State, t: Tid, e: Effect, r: nat)
    requires Inv(s) && r < |s.log| && ThreadStep(s, t, e, Apply(s, t, e)) && Escapes(Apply(s, t, e), t, r)
    ensures Escapes(s, t, r)
  {
    var th := s.threads[t];
    assert Fits(th) && Placed(s.log, t, th);
    AllowedSafe(s, t, th, e);
    if !Cleared(th) {
      JustChecked(s, t, th, e, r);
    }
  }

  // The steps of others do not clear the way for a request.
  lemma OtherEscapes(s: State, s': State, t: Tid, r: nat)
    requires Ports(s) && r < |s.log| <= |s'.log| && s'.log[r] == s.log[r] && Escapes(s', t, r)
    requires t in s.threads && s'.threads[t] == s.threads[t]
    requires exists c :: (s'.behaviorGeneration, s'.behaviorRunning) == BehaviorAfter(s, c)
    ensures Escapes(s, t, r)
  {
  }

  lemma ThreadEscapes(s: State, x: Tid, e: Effect, t: Tid, r: nat)
    requires Inv(s) && Ports(s) && r < |s.log| && ThreadStep(s, x, e, Apply(s, x, e)) && Escapes(Apply(s, x, e), t, r)
    ensures Escapes(s, t, r)
  {
    if t == x {
      OwnEscapes(s, t, e, r);
    } else {
      assert BehaviorAfter(s, e.behavior) == (Apply(s, x, e).behaviorGeneration, Apply(s, x, e).behaviorRunning);
      OtherEscapes(s, Apply(s, x, e), t, r);
    }
  }

  lemma EnvironmentEscapes(s: State, h: Happening, s': State, t: Tid, r: nat)
    requires Ports(s) && r < |s.log| && Environment(s, h, s') && Escapes(s', t, r)
    ensures Escapes(s, t, r)
  {
    var c := if h.AdoptGoal? || h.EndBehavior? then BehaviorChange.Revoke else Leave;
    assert BehaviorAfter(s, c) == (s'.behaviorGeneration, s'.behaviorRunning);
    OtherEscapes(s, s', t, r);
  }

  lemma SpawnEscapes(s: State, x: Tid, f: Family, bounded: bool, forRun: nat, s': State, t: Tid, r: nat)
    requires r < |s.log| && Spawn(s, x, f, bounded, forRun, s') && Escapes(s', t, r)
    ensures Escapes(s, t, r)
  {
  }

  lemma LogKeptNext(s: State, s': State)
    requires Next(s, s')
    ensures |s.log| <= |s'.log| <= |s.log| + 1 && s'.log[..|s.log|] == s.log
  {
  }

  lemma NextEscapes(s: State, s': State, t: Tid, r: nat)
    requires Inv(s) && Ports(s) && Next(s, s') && r < |s.log| <= |s'.log|
    requires Escapes(s', t, r)
    ensures Escapes(s, t, r)
  {
    if x, e :| ThreadStep(s, x, e, s') {
      ThreadEscapes(s, x, e, t, r);
    } else if h :| Environment(s, h, s') {
      EnvironmentEscapes(s, h, s', t, r);
    } else {
      var x, f, bounded, forRun :| Spawn(s, x, f, bounded, forRun, s');
      SpawnEscapes(s, x, f, bounded, forRun, s', t, r);
    }
  }

  // A command is that of a thread about to execute, which commands no more.
  lemma ThreadCommands(s: State, x: Tid, e: Effect)
    requires x in s.threads && Fits(s.threads[x]) && Allowed(s, x, s.threads[x], e)
    requires e.emit.Some? && e.emit.value.Commanded?
    ensures s.threads[x].phase.Execute? && e.th.phase.After?
    ensures e.emit.value == Commanded(x, s.threads[x].family, s.threads[x].at)
  {
    AllowedSafe(s, x, s.threads[x], e);
    assert Acts(s, x, s.threads[x], e);
  }

  lemma Commands(s: State, s': State)
    requires Inv(s) && Next(s, s') && |s'.log| == |s.log| + 1 && s'.log[|s.log|].Commanded?
    ensures var e := s'.log[|s.log|];
      && e.who in s.threads && s.threads[e.who].phase.Execute?
      && e.family == s.threads[e.who].family && e.at == s.threads[e.who].at
      && e.who in s'.threads && s'.threads[e.who].phase.After?
  {
    if x, e :| ThreadStep(s, x, e, s') {
      ThreadCommands(s, x, e);
    }
  }

  lemma EscapedStep(run: seq<State>, m: nat, t: Tid, r: nat)
    requires IsRun(run) && m + 1 < |run| && r < |run[m].log| <= |run[m + 1].log| && Escapes(run[m + 1], t, r)
    ensures Escapes(run[m], t, r)
  {
    RunKeeps(run, m);
    PortsKept(run, m);
    assert NextAt(run, m);
    NextEscapes(run[m], run[m + 1], t, r);
  }

  // A request that can still command could do so in every state back to the revocation's.
  lemma {:induction false} EscapedBefore(run: seq<State>, k: nat, m: nat, t: Tid, r: nat)
    requires IsRun(run) && k <= m < |run| && r < |run[k].log| <= |run[m].log| && Escapes(run[m], t, r)
    ensures Escapes(run[k], t, r)
  {
    if k < m {
      LogFrom(run, k, m - 1);
      LogFrom(run, m - 1, m);
      EscapedStep(run, m - 1, t, r);
      EscapedBefore(run, k, m - 1, t, r);
    }
  }

  lemma {:induction false} LogFrom(run: seq<State>, j: nat, k: nat)
    requires IsRun(run) && j <= k < |run|
    ensures |run[j].log| <= |run[k].log| && run[k].log[..|run[j].log|] == run[j].log
  {
    if j < k {
      LogFrom(run, j, k - 1);
      assert NextAt(run, k - 1);
      LogKeptNext(run[k - 1], run[k]);
    }
  }

  // The step of a run that logged a position.
  lemma {:induction false} LoggedAt(run: seq<State>, k: nat, j: nat) returns (i: nat)
    requires IsRun(run) && k < |run| && |run[k].log| <= j < |run[|run| - 1].log|
    ensures k <= i < |run| - 1 && |run[i].log| == j && |run[i + 1].log| == j + 1
    ensures run[|run| - 1].log[..j + 1] == run[i + 1].log
  {
    i := k;
    while |run[i + 1].log| <= j
      invariant k <= i < |run| - 1 && |run[i].log| <= j
      decreases |run| - i
    {
      i := i + 1;
    }
    assert NextAt(run, i);
    LogKeptNext(run[i], run[i + 1]);
    LogFrom(run, i + 1, |run| - 1);
  }

  // Only a request that had escaped commands.
  lemma CommandedEscaped(run: seq<State>, i: nat, r: nat)
    requires IsRun(run) && i + 1 < |run| && r < |run[i].log| && |run[i + 1].log| == |run[i].log| + 1
    requires run[i + 1].log[..|run[i].log|] == run[i].log && Old(run[i + 1].log, run[i + 1].log[|run[i].log|], r)
    ensures Escapes(run[i], run[i + 1].log[|run[i].log|].who, r)
  {
    RunKeeps(run, i);
    assert NextAt(run, i);
    Commands(run[i], run[i + 1]);
    assert run[i].log[r] == run[i + 1].log[r];
  }

  lemma OldMustEscape(run: seq<State>, k: nat, t: Tid, r: nat)
    requires IsRun(run) && k < |run| && r < |run[k].log| <= |run[|run| - 1].log|
    requires OldSince(run[|run| - 1].log, t, r, |run[k].log|)
    ensures Escapes(run[k], t, r)
  {
    var log := run[|run| - 1].log;
    var j :| |run[k].log| <= j < |log| && Old(log, log[j], r) && log[j].who == t;
    var i := LoggedAt(run, k, j);
    LogFrom(run, i, i + 1);
    assert log[j] == log[..j + 1][j] && log[r] == log[..j + 1][r];
    CommandedEscaped(run, i, r);
    LogFrom(run, k, i);
    EscapedBefore(run, k, i, t, r);
  }

  // ---------- and what escaped can command ----------

  lemma StepFrom(run: seq<State>, t: Tid, e: Effect) returns (run': seq<State>)
    requires IsRun(run) && t in run[|run| - 1].threads && Allowed(run[|run| - 1], t, run[|run| - 1].threads[t], e)
    ensures Continues(run, run') && run'[|run'| - 1] == Apply(run[|run| - 1], t, e)
  {
    run' := ByThread(run, t, e);
  }

  lemma ContinuesOn(a: seq<State>, b: seq<State>, c: seq<State>)
    requires Continues(a, b) && Continues(b, c)
    ensures Continues(a, c)
  {
    assert c[..|a|] == c[..|b|][..|a|];
  }

  lemma EndBehaviorStep(run: seq<State>) returns (run': seq<State>)
    requires IsRun(run)
    ensures Continues(run, run')
    ensures var s := run[|run| - 1];
      run'[|run'| - 1] == s.(behaviorGeneration := BehaviorAfter(s, BehaviorChange.Revoke).0, behaviorRunning := false)
  {
    var s := run[|run| - 1];
    run' := run + [s.(behaviorGeneration := BehaviorAfter(s, BehaviorChange.Revoke).0, behaviorRunning := false)];
    assert Environment(s, EndBehavior, run'[|run|]);
    forall i: nat ensures NextAt(run', i) {
      assert NextAt(run, i);
    }
  }

  // From past its last check to where it commands.
  lemma ToExecute(run: seq<State>, t: Tid) returns (run': seq<State>)
    requires IsRun(run) && t in run[|run| - 1].threads && PastChecks(run[|run| - 1], run[|run| - 1].threads[t])
    ensures Continues(run, run')
    ensures var s, s' := run[|run| - 1], run'[|run'| - 1];
      && t in s'.threads && s'.threads[t].phase.Execute? && s'.threads[t].family == s.threads[t].family
      && s'.threads[t].at == s.threads[t].at && |s.log| <= |s'.log|
  {
    var s := run[|run| - 1];
    var th := s.threads[t];
    match th.phase {
      case Execute =>
        run' := run;
      case PortCheck =>
        run' := StepFrom(run, t, Goto(th, Execute));
      case Boundary =>
        run' := StepFrom(run, t, Goto(th, Execute).(behavior := BehaviorChange.Revoke, emit := Some(Stopped(t))));
      case Install =>
        var free := EndBehaviorStep(run);
        s := free[|free| - 1];
        var ready := StepFrom(free, t, Goto(th.(port := s.behaviorGeneration + 1), PortCheck).(behavior := Begin));
        var done := StepFrom(ready, t, Goto(ready[|ready| - 1].threads[t], Execute));
        ContinuesOn(run, free, ready);
        ContinuesOn(run, ready, done);
        run' := done;
    }
  }

  lemma EscapedCommands(run: seq<State>, t: Tid, r: nat) returns (run': seq<State>)
    requires IsRun(run) && r < |run[|run| - 1].log| && Escapes(run[|run| - 1], t, r)
    ensures Continues(run, run') && r < |run'[|run'| - 1].log|
    ensures OldSince(run'[|run'| - 1].log, t, r, |run[|run| - 1].log|)
  {
    var ready := ToExecute(run, t);
    var s := ready[|ready| - 1];
    var th := s.threads[t];
    run' := StepFrom(ready, t, Goto(th, After).(emit := Some(Commanded(t, th.family, th.at))));
    ContinuesOn(run, ready, run');
    assert ready[|run| - 1] == run[|run| - 1];
    LogFrom(ready, |run| - 1, |ready| - 1);
    assert run'[|run'| - 1].log[|s.log|] == Commanded(t, th.family, th.at);
    assert run'[|run'| - 1].log[r] == s.log[r] == s.log[..|run[|run| - 1].log|][r];
  }

  // ---------- the exact condition ----------

  ghost predicate CanStillCommand(run: seq<State>, t: Tid, r: nat)
    requires run != [] && r < |run[|run| - 1].log|
  {
    exists run' :: Continues(run, run') && StillCommands(run, run', t, r)
  }

  ghost predicate StillCommands(run: seq<State>, run': seq<State>, t: Tid, r: nat)
    requires run != [] && run' != []
  {
    r < |run'[|run'| - 1].log| && OldSince(run'[|run'| - 1].log, t, r, |run[|run| - 1].log|)
  }

  // In every state of every run, after any revocation: a request of a kind that it revoked, admitted before it, can
  // still command if and only if the request is past its last check.
  lemma CanStillCommandIff(run: seq<State>, t: Tid, r: nat)
    requires IsRun(run) && r < |run[|run| - 1].log|
    ensures CanStillCommand(run, t, r) <==> Escapes(run[|run| - 1], t, r)
  {
    if CanStillCommand(run, t, r) {
      var run' :| Continues(run, run') && StillCommands(run, run', t, r);
      assert run'[|run| - 1] == run[|run| - 1];
      LogFrom(run', |run| - 1, |run'| - 1);
      OldMustEscape(run', |run| - 1, t, r);
    }
    if Escapes(run[|run| - 1], t, r) {
      var run' := EscapedCommands(run, t, r);
      assert StillCommands(run, run', t, r);
    }
  }

  lemma EscapedAlone(run: seq<State>, k: nat, t: Tid, x: Tid, r: nat)
    requires IsRun(run) && k < |run| && r < |run[k].log| && Escapes(run[k], t, r)
    ensures run[k].actionLock == Some(t)
    ensures Escapes(run[k], x, r) ==> x == t
  {
    RunKeeps(run, k);
    assert Critical(run[k].threads[t].phase);
  }

  // Such a request holds the action lock, so there is at most one.
  lemma EscapedHoldsLock(run: seq<State>, t: Tid, x: Tid, r: nat)
    requires IsRun(run) && r < |run[|run| - 1].log| && CanStillCommand(run, t, r)
    ensures run[|run| - 1].actionLock == Some(t)
    ensures CanStillCommand(run, x, r) ==> x == t
  {
    CanStillCommandIff(run, t, r);
    CanStillCommandIff(run, x, r);
    EscapedAlone(run, |run| - 1, t, x, r);
  }

  lemma NoneAfterCommand(run: seq<State>, i: nat, x: Tid, r: nat)
    requires IsRun(run) && i + 1 < |run| && r < |run[i].log| && |run[i + 1].log| == |run[i].log| + 1
    requires run[i + 1].log[..|run[i].log|] == run[i].log && Old(run[i + 1].log, run[i + 1].log[|run[i].log|], r)
    ensures !Escapes(run[i + 1], x, r)
  {
    if Escapes(run[i + 1], x, r) {
      CommandedEscaped(run, i, r);
      EscapedStep(run, i, x, r);
      EscapedAlone(run, i, run[i + 1].log[|run[i].log|].who, x, r);
      RunKeeps(run, i);
      assert NextAt(run, i);
      Commands(run[i], run[i + 1]);
    }
  }

  // And it commands once: a run has at most one command, after a revocation, of the requests that it ended.
  lemma OneOldCommand(run: seq<State>, k: nat, r: nat, j: nat, j': nat)
    requires IsRun(run) && k < |run| && r < |run[k].log| <= j < j' < |run[|run| - 1].log|
    requires var log := run[|run| - 1].log; Old(log, log[j], r)
    ensures var log := run[|run| - 1].log; !Old(log, log[j'], r)
  {
    var log := run[|run| - 1].log;
    if Old(log, log[j'], r) {
      var i := LoggedAt(run, k, j);
      LogFrom(run, i, i + 1);
      assert log[j] == log[..j + 1][j] && log[r] == log[..j + 1][r];
      NoneAfterCommand(run, i, log[j'].who, r);
      OldMustEscape(run, i + 1, log[j'].who, r);
    }
  }
}
