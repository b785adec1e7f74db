/** The revocation and STOP protocol. */
module StopProtocol {
  import opened Options

  // Requests, preemption and their one shared action lock.  Threads interleave at every point where the program can be
  // interrupted.  A request captures a generation when it is admitted, waits for the action lock, checks it, stops,
  // checks again and acts.  A preemption revokes and stops at once, and then revokes and stops again under the action
  // lock.  The log is the history of what was revoked, admitted, stopped and commanded.

  type Tid = nat

  // `SkillRun` starts a library skill on its own, and `ReplaceSkill` ends one that a newly adopted goal replaces; the
  // skill of a goal is started by Brain's own dispatch.
  datatype Family =
    | Preempt | RevokeOnly | Manual | Behavior | SkillCall | BrainDispatch | SkillRun | ReplaceSkill

  datatype Phase =
    // one revocation, under the state lock
    | RevokeGeneration | RevokeBrain | RevokeBehaviors | RevokeSkills
    | FirstStop
    | WantLock
    // the second half of a preemption, under the action lock
    | FinalGeneration | FinalBrain | FinalBehaviors | FinalSkills | FinalStop
    // a request under the action lock
    | Check | Boundary | Recheck | Install | PortCheck | Execute | After | RevokedStop
    | Finished

  // `gen` is the captured generation and `at` the log position of the admission (or of the latest bump).
  datatype Thread = Thread(family: Family, phase: Phase, bounded: bool, stopRaised: bool, gen: nat, at: nat,
                           brainAt: nat, skillsAt: nat, port: nat)

  datatype Event =
    | Bumped(who: Tid, gen: nat)
    | BrainRevoked(who: Tid)
    | SkillsRevoked(who: Tid)
    | GoalAdopted
    | SkillStarted
    | Stopped(who: Tid)
    | FinalStopped(who: Tid, genAt: nat, brainAt: nat, skillsAt: nat)
    | Commanded(who: Tid, family: Family, at: nat)

  // `goalAt` and `runAt` are the running goal and the accepted skill run, by the position of their admission.
  datatype State = State(threads: map<Tid, Thread>, actionLock: Option<Tid>, stateLock: Option<Tid>, generation: nat,
                         brainGeneration: nat, goalAt: Option<nat>, runAt: Option<nat>,
                         behaviorGeneration: nat, behaviorRunning: bool, log: seq<Event>)

  predicate Init(s: State) {
    s == State(map[], None, None, 0, 0, None, None, 0, false, [])
  }

  // ---------- the steps of a thread ----------

  datatype LockChange = Keep | Take | Release

  datatype BehaviorChange = Leave | Revoke | Begin

  // What one atomic step of a thread does.
  datatype Effect = Effect(th: Thread, lock: LockChange, state: LockChange, bump: bool, dropGoal: bool, dropRun: bool,
                           startRun: bool, behavior: BehaviorChange, emit: Option<Event>)

  function Goto(th: Thread, phase: Phase): Effect {
    Effect(th.(phase := phase), Keep, Keep, false, false, false, false, Leave, None)
  }

  // The thread lets the action lock go, returning or raising.
  function Quit(th: Thread): Effect {
    Goto(th, Finished).(lock := Release)
  }

  // The requests that revoke what came before them.
  predicate Replaces(f: Family) {
    !f.SkillCall? && !f.BrainDispatch?
  }

  function FirstPhase(f: Family): Phase {
    if Replaces(f) then RevokeGeneration else WantLock
  }

  function AfterRevoke(f: Family): Phase {
    if f.RevokeOnly? then Finished else FirstStop
  }

  function AfterStop(f: Family): Phase {
    if f.ReplaceSkill? then Finished else WantLock
  }

  // A revocation: the generation, the goal, the behavior and the skill run, in this order.  `bounded` says that the
  // host has no skill runtime or that the reason has 1 to 1024 characters: a skill runtime raises for any other, and
  // only a preemption goes on to stop.  Replacing a standalone skill leaves the goal, and the behavior if it is not
  // the skill's own.
  predicate Revokes(s: State, t: Tid, th: Thread, e: Effect) {
    match th.phase
    case RevokeGeneration =>
      s.stateLock.None? && e == Bump(s, t, th, if th.family.ReplaceSkill? then RevokeBehaviors else RevokeBrain)
    case FinalGeneration => s.stateLock.None? && e == Bump(s, t, th, FinalBrain)
    case RevokeBrain =>
      e == Goto(th.(brainAt := |s.log|), RevokeBehaviors).(dropGoal := true, emit := Some(BrainRevoked(t)))
    case FinalBrain =>
      e == Goto(th.(brainAt := |s.log|), FinalBehaviors).(dropGoal := true, emit := Some(BrainRevoked(t)))
    case RevokeBehaviors =>
      e == Goto(th, RevokeSkills).(behavior := Revoke) || (th.family.ReplaceSkill? && e == Goto(th, RevokeSkills))
    case FinalBehaviors => e == Goto(th, FinalSkills).(behavior := Revoke)
    case RevokeSkills =>
      e == if th.bounded
           then Goto(th.(skillsAt := |s.log|), AfterRevoke(th.family)).(state := Release, dropRun := true,
                                                                        emit := Some(SkillsRevoked(t)))
           else Goto(th, if th.family == Preempt then FirstStop else Finished).(state := Release)
    case FinalSkills =>
      e == if th.bounded
           then Goto(th.(skillsAt := |s.log|), FinalStop).(state := Release, dropRun := true,
                                                           emit := Some(SkillsRevoked(t)))
           else Quit(th).(state := Release)
    case _ => false
  }

  function Bump(s: State, t: Tid, th: Thread, next: Phase): Effect {
    Goto(th.(gen := s.generation + 1, at := |s.log|), next).(state := Take, bump := true,
                                                             emit := Some(Bumped(t, s.generation + 1)))
  }

  // STOP takes effect and is logged, or it raises.
  predicate Stops(s: State, t: Tid, th: Thread, e: Effect) {
    match th.phase
    case FirstStop =>
      || e == Goto(th, AfterStop(th.family)).(emit := Some(Stopped(t)))
      // a raised STOP, or a replaced skill that would not finish, ends the request but not a preemption
      || (th.family == Preempt && e == Goto(th, WantLock))
      || (th.family != Preempt && e == Goto(th, Finished))
      || (th.family != Preempt && e == Goto(th, Finished).(emit := Some(Stopped(t))))
    case WantLock =>
      s.actionLock.None? && e == Goto(th, if th.family == Preempt then FinalGeneration else Check).(lock := Take)
    case FinalStop =>
      || e == Quit(th).(emit := Some(FinalStopped(t, th.at, th.brainAt, th.skillsAt)))
      || e == Quit(th.(stopRaised := true))
    case RevokedStop => e == Quit(th).(emit := Some(Stopped(t))) || e == Quit(th)
    case _ => false
  }

  // A request under the action lock.
  predicate Requests(s: State, t: Tid, th: Thread, e: Effect) {
    match th.phase
    case Check => Checks(s, t, th, e)
    case Recheck => Rechecks(s, t, th, e)
    case _ => Acts(s, t, th, e)
  }

  predicate Acts(s: State, t: Tid, th: Thread, e: Effect) {
    match th.phase
    case Boundary =>
      || e == Quit(th)
      || e == Goto(th, if th.family == SkillCall then Execute else Recheck)
                .(behavior := if th.family == SkillCall then Revoke else Leave, emit := Some(Stopped(t)))
    case Install =>
      // an unknown behavior, a cancelled start, or another behavior at work
      || e == Quit(th)
      || (!s.behaviorRunning && e == Goto(th.(port := s.behaviorGeneration + 1), PortCheck).(behavior := Begin))
    case PortCheck => e == if s.behaviorRunning && th.port == s.behaviorGeneration then Goto(th, Execute) else Quit(th)
    case Execute => e == Goto(th, After).(emit := Some(Commanded(t, th.family, th.at))) || e == Quit(th)
    case After =>
      (match th.family
       case Manual => s.stateLock.None? && e == if th.gen == s.generation then Quit(th) else Goto(th, RevokedStop)
       case SkillCall =>
         if s.runAt == Some(th.at) then e == Quit(th)
         else e == Goto(th, RevokedStop) || e == Goto(th, RevokedStop).(behavior := Revoke)
       case _ => e == Quit(th))
    case _ => false
  }

  predicate Checks(s: State, t: Tid, th: Thread, e: Effect) {
    match th.family
    case SkillCall =>
      // a motion replaces a running behavior, other actions do not move, and a skill may start a behavior
      if s.runAt == Some(th.at) then e == Goto(th, Boundary) || e == Goto(th, Execute) || e == Goto(th, Install)
      else e == Quit(th)
    case BrainDispatch =>
      // the boundary is only for a goal that requires motion, and the goal may be a skill instead
      if s.goalAt.None? then e == Quit(th)
      else e == Goto(th.(gen := s.brainGeneration), Boundary) || e == Goto(th.(gen := s.brainGeneration), Recheck)
           || Starts(s, th, e)
    case SkillRun => if th.gen == s.generation then Starts(s, th, e) else s.stateLock.None? && e == Quit(th)
    case _ =>
      s.stateLock.None? && e == if th.gen == s.generation then Goto(th, Boundary) else Quit(th)
  }

  // A skill starts under both locks, when none is running, or the start raises.
  predicate Starts(s: State, th: Thread, e: Effect) {
    && s.stateLock.None?
    && (e == Quit(th) || (s.runAt.None? && e == Quit(th).(startRun := true, emit := Some(SkillStarted))))
  }

  predicate Rechecks(s: State, t: Tid, th: Thread, e: Effect) {
    match th.family
    case BrainDispatch =>
      if s.goalAt.Some? && th.gen == s.brainGeneration
      then e == Goto(th.(at := s.goalAt.value), Execute) || e == Goto(th.(at := s.goalAt.value), Install)
      else e == Quit(th)
    case Behavior =>
      s.stateLock.None? && e == if th.gen == s.generation then Goto(th, Install) else Quit(th)
    case _ =>
      s.stateLock.None? && e == if th.gen == s.generation then Goto(th, Execute) else Quit(th)
  }

  function Locked(lock: Option<Tid>, t: Tid, c: LockChange): Option<Tid> {
    match c case Keep => lock case Take => Some(t) case Release => None
  }

  function Logged(log: seq<Event>, e: Option<Event>): seq<Event> {
    if e.Some? then log + [e.value] else log
  }

  function BehaviorAfter(s: State, c: BehaviorChange): (nat, bool) {
    match c
    case Leave => (s.behaviorGeneration, s.behaviorRunning)
    case Revoke => if s.behaviorRunning then (s.behaviorGeneration + 1, false) else (s.behaviorGeneration, false)
    case Begin => (s.behaviorGeneration + 1, true)
  }

  function Apply(s: State, t: Tid, e: Effect): State {
    State(s.threads[t := e.th], Locked(s.actionLock, t, e.lock), Locked(s.stateLock, t, e.state),
          if e.bump then s.generation + 1 else s.generation,
          if e.dropGoal then s.brainGeneration + 1 else s.brainGeneration,
          if e.dropGoal then None else s.goalAt,
          if e.dropRun then None else if e.startRun then Some(|s.log|) else s.runAt,
          BehaviorAfter(s, e.behavior).0, BehaviorAfter(s, e.behavior).1, Logged(s.log, e.emit))
  }

  predicate Allowed(s: State, t: Tid, th: Thread, e: Effect) {
    Revokes(s, t, th, e) || Stops(s, t, th, e) || Requests(s, t, th, e)
  }

  predicate ThreadStep(s: State, t: Tid, e: Effect, s': State) {
    t in s.threads && Allowed(s, t, s.threads[t], e) && s' == Apply(s, t, e)
  }

  // ---------- the steps of everything else ----------

  // A skill call carries the run it was made for.
  predicate Spawn(s: State, t: Tid, f: Family, bounded: bool, forRun: nat, s': State) {
    t !in s.threads && s' == s.(threads := s.threads[t := Thread(f, FirstPhase(f), bounded, false, 0, forRun, 0, 0, 0)])
  }

  // The goal table, the skill workers and the behaviors advance on their own.
  datatype Happening = AdoptGoal | CancelGoal | CompleteGoal | RenumberGoal | EndSkill | EndBehavior

  predicate Environment(s: State, h: Happening, s': State) {
    match h
    case AdoptGoal =>
      s' == s.(brainGeneration := s.brainGeneration + 1, goalAt := Some(|s.log|), log := s.log + [GoalAdopted],
               behaviorGeneration := BehaviorAfter(s, Revoke).0, behaviorRunning := false)
    case CancelGoal => s' == s.(goalAt := None, brainGeneration := s.brainGeneration + 1)
    case CompleteGoal => s' == s.(goalAt := None)
    // a failure that raises half way leaves the goal under a new generation
    case RenumberGoal => s' == s.(brainGeneration := s.brainGeneration + 1)
    case EndSkill => s' == s.(runAt := None)
    case EndBehavior => s' == s.(behaviorGeneration := BehaviorAfter(s, Revoke).0, behaviorRunning := false)
  }

  ghost predicate Next(s: State, s': State) {
    || (exists t, f, bounded, forRun :: Spawn(s, t, f, bounded, forRun, s'))
    || (exists h :: Environment(s, h, s'))
    || (exists t, e :: ThreadStep(s, t, e, s'))
  }

  ghost predicate NextAt(run: seq<State>, i: nat) {
    i + 1 < |run| ==> Next(run[i], run[i + 1])
  }

  ghost predicate IsRun(run: seq<State>) {
    run != [] && Init(run[0]) && forall i: nat :: NextAt(run, i)
  }

  // ---------- what a final STOP guarantees ----------

  // The admission of a command came after the revocation, by that preemption, of its own kind of request.
  predicate AdmittedAfter(stop: Event, family: Family, at: nat)
    requires stop.FinalStopped?
  {
    match family
    case SkillCall => stop.skillsAt < at
    case BrainDispatch => stop.brainAt < at
    case _ => stop.genAt < at
  }

  predicate AfterAllStops(log: seq<Event>, family: Family, at: nat) {
    forall i | 0 <= i < |log| && log[i].FinalStopped? :: AdmittedAfter(log[i], family, at)
  }

  // No command after a final STOP belongs to an older request.
  predicate Drained(log: seq<Event>) {
    forall i, j | 0 <= i < j < |log| && log[i].FinalStopped? && log[j].Commanded? ::
      AdmittedAfter(log[i], log[j].family, log[j].at)
  }

  predicate IsAdmission(log: seq<Event>, who: Tid, family: Family, at: nat) {
    && at < |log|
    && match family
       case SkillCall => log[at] == SkillStarted
       case BrainDispatch => log[at] == GoalAdopted
       case _ => log[at].Bumped? && log[at].who == who
  }

  predicate IsFinalStop(log: seq<Event>, e: Event)
    requires e.FinalStopped?
  {
    && e.genAt < e.brainAt < e.skillsAt < |log|
    && log[e.genAt].Bumped? && log[e.genAt].who == e.who
    && log[e.brainAt] == BrainRevoked(e.who)
    && log[e.skillsAt] == SkillsRevoked(e.who)
  }

  // Positions in the log mean what they say: a command follows its own admission, and a final STOP follows the
  // bump, the goal revocation and the skill revocation of the same preemption.
  predicate Genuine(log: seq<Event>) {
    && (forall j | 0 <= j < |log| && log[j].Commanded? :: log[j].at < j
           && IsAdmission(log, log[j].who, log[j].family, log[j].at))
    && (forall i | 0 <= i < |log| && log[i].FinalStopped? :: log[i].skillsAt < i && IsFinalStop(log, log[i]))
  }

  predicate HasFinalStop(log: seq<Event>, t: Tid) {
    exists i | 0 <= i < |log| :: log[i].FinalStopped? && log[i].who == t
  }

  // ---------- the invariant ----------

  predicate Finalizing(p: Phase) {
    p.FinalGeneration? || p.FinalBrain? || p.FinalBehaviors? || p.FinalSkills? || p.FinalStop?
  }

  predicate Requesting(p: Phase) {
    p.Check? || p.Boundary? || p.Recheck? || p.Install? || p.PortCheck? || p.Execute? || p.After? || p.RevokedStop?
  }

  predicate Critical(p: Phase) {
    Finalizing(p) || Requesting(p)
  }

  predicate Revoking(p: Phase) {
    p.RevokeBrain? || p.RevokeBehaviors? || p.RevokeSkills? || p.FinalBrain? || p.FinalBehaviors? || p.FinalSkills?
  }

  // Which phases belong to which family, and what the flags say.
  predicate Fits(th: Thread) {
    && (th.stopRaised ==> th.phase == Finished)
    && FamilyFits(th.phase, th.family)
    && (th.phase.FinalStop? ==> th.bounded)
  }

  predicate FamilyFits(p: Phase, f: Family) {
    if Finalizing(p) then f.Preempt?
    else match p
         case Finished => true
         case WantLock => !f.RevokeOnly? && !f.ReplaceSkill?
         case Install => StartsBehavior(f)
         case PortCheck => StartsBehavior(f)
         case Recheck => f.Manual? || f.Behavior? || f.BrainDispatch?
         case FirstStop => Replaces(f) && !f.RevokeOnly?
         case Check => !f.Preempt? && !f.RevokeOnly? && !f.ReplaceSkill?
         case _ => if Requesting(p) then f.Manual? || StartsBehavior(f) else Replaces(f)
  }

  predicate StartsBehavior(f: Family) {
    f.Behavior? || f.SkillCall? || f.BrainDispatch?
  }

  // Past its last check: the request will command without looking again.
  predicate Cleared(th: Thread) {
    th.phase.Install? || th.phase.PortCheck? || th.phase.Execute? || (th.phase.Boundary? && th.family == SkillCall)
  }

  predicate Placed(log: seq<Event>, t: Tid, th: Thread) {
    && (Replaces(th.family) && !th.phase.RevokeGeneration? ==>
          th.at < |log| && log[th.at] == Bumped(t, th.gen))
    && (th.phase.FinalBehaviors? || th.phase.FinalSkills? || th.phase.FinalStop? ==>
          th.at < th.brainAt < |log| && log[th.brainAt] == BrainRevoked(t))
    && (th.phase == FinalStop ==> th.brainAt < th.skillsAt < |log| && log[th.skillsAt] == SkillsRevoked(t))
    && (Cleared(th) ==> IsAdmission(log, t, th.family, th.at) && AfterAllStops(log, th.family, th.at))
  }

  // A preemption has its final STOP in the log exactly when it finished with a bounded reason and STOP did not raise.
  predicate Ended(log: seq<Event>, t: Tid, th: Thread) {
    HasFinalStop(log, t) <==> th.family == Preempt && th.phase == Finished && th.bounded && !th.stopRaised
  }

  ghost predicate LocksHeld(s: State) {
    && (s.actionLock.Some? ==> s.actionLock.value in s.threads)
    && (s.stateLock.Some? ==> s.stateLock.value in s.threads)
    && (forall t | t in s.threads :: Critical(s.threads[t].phase) <==> s.actionLock == Some(t))
    && (forall t | t in s.threads :: Revoking(s.threads[t].phase) <==> s.stateLock == Some(t))
  }

  ghost predicate AllPlaced(s: State) {
    forall t | t in s.threads :: Fits(s.threads[t]) && Placed(s.log, t, s.threads[t])
  }

  ghost predicate AllEnded(s: State) {
    && (forall t | t in s.threads :: Ended(s.log, t, s.threads[t]))
    && (forall i | 0 <= i < |s.log| && s.log[i].FinalStopped? :: s.log[i].who in s.threads)
  }

  // Generations only grow with the log.
  ghost predicate Counted(log: seq<Event>, generation: nat) {
    && (forall i | 0 <= i < |log| && log[i].Bumped? :: log[i].gen <= generation)
    && (forall i, j | 0 <= i < j < |log| && log[i].Bumped? && log[j].Bumped? :: log[i].gen < log[j].gen)
  }

  // The goal and the run that are alive were admitted after every revocation of their kind.
  ghost predicate GoalAlive(log: seq<Event>, at: nat) {
    && IsAdmission(log, 0, BrainDispatch, at)
    && forall i | 0 <= i < |log| && log[i].BrainRevoked? :: i < at
  }

  ghost predicate RunAlive(log: seq<Event>, at: nat) {
    && IsAdmission(log, 0, SkillCall, at)
    && forall i | 0 <= i < |log| && log[i].SkillsRevoked? :: i < at
  }

  ghost predicate Alive(s: State) {
    (s.goalAt.Some? ==> GoalAlive(s.log, s.goalAt.value)) && (s.runAt.Some? ==> RunAlive(s.log, s.runAt.value))
  }

  ghost predicate Inv(s: State) {
    LocksHeld(s) && AllPlaced(s) && AllEnded(s) && Counted(s.log, s.generation) && Alive(s) && Genuine(s.log)
      && Drained(s.log)
  }

  // ---------- what the steps promise, without quantifiers ----------

  predicate LockSafe(lock: Option<Tid>, c: LockChange, before: bool, after: bool) {
    match c
    case Keep => before == after
    case Take => lock.None? && !before && after
    case Release => before && !after
  }

  predicate Locksafe(s: State, t: Tid, th: Thread, e: Effect) {
    && LockSafe(s.actionLock, e.lock, Critical(th.phase), Critical(e.th.phase))
    && LockSafe(s.stateLock, e.state, Revoking(th.phase), Revoking(e.th.phase))
    && e.th.family == th.family && e.th.bounded == th.bounded
  }

  lemma RevokesLocks(s: State, t: Tid, th: Thread, e: Effect)
    requires Revokes(s, t, th, e) && Fits(th)
    ensures Locksafe(s, t, th, e) && Fits(e.th)
  {
  }

  lemma StopsLocks(s: State, t: Tid, th: Thread, e: Effect)
    requires Stops(s, t, th, e) && Fits(th)
    ensures Locksafe(s, t, th, e) && Fits(e.th)
  {
  }

  lemma ChecksLocks(s: State, t: Tid, th: Thread, e: Effect)
    requires th.phase.Check? && Checks(s, t, th, e) && Fits(th)
    ensures Locksafe(s, t, th, e) && Fits(e.th)
  {
  }

  lemma RechecksLocks(s: State, t: Tid, th: Thread, e: Effect)
    requires th.phase.Recheck? && Rechecks(s, t, th, e) && Fits(th)
    ensures Locksafe(s, t, th, e) && Fits(e.th)
  {
  }

  lemma ActsLocks(s: State, t: Tid, th: Thread, e: Effect)
    requires Acts(s, t, th, e)
    ensures Locksafe(s, t, th, e)
  {
  }

  lemma ActsFits(s: State, t: Tid, th: Thread, e: Effect)
    requires Acts(s, t, th, e) && Fits(th)
    ensures Fits(e.th)
  {
  }

  // The only events a thread emits, each from its own phase.
  predicate EmitSafe(s: State, t: Tid, th: Thread, e: Effect) {
    && (e.bump <==> e.emit == Some(Bumped(t, s.generation + 1)))
    && (e.dropGoal <==> e.emit == Some(BrainRevoked(t)))
    && (e.dropRun <==> e.emit == Some(SkillsRevoked(t)))
    && (e.startRun <==> e.emit == Some(SkillStarted))
    && (e.emit.Some? ==>
          match e.emit.value
          case Bumped(_, _) => e.bump
          case BrainRevoked(_) => e.dropGoal
          case SkillsRevoked(_) => e.dropRun
          case Stopped(_) => true
          case SkillStarted => e.startRun
          case FinalStopped(_, _, _, _) =>
            th.phase == FinalStop && e.emit.value == FinalStopped(t, th.at, th.brainAt, th.skillsAt)
          case Commanded(_, _, _) => th.phase == Execute && e.emit.value == Commanded(t, th.family, th.at)
          case _ => false)
    && (Finishes(e.th) <==> Finishes(th) || (e.emit.Some? && e.emit.value.FinalStopped?))
  }

  predicate Finishes(th: Thread) {
    th.family == Preempt && th.phase == Finished && th.bounded && !th.stopRaised
  }

  lemma RevokesEmits(s: State, t: Tid, th: Thread, e: Effect)
    requires Revokes(s, t, th, e) && Fits(th)
    ensures EmitSafe(s, t, th, e)
  {
  }

  lemma StopsEmits(s: State, t: Tid, th: Thread, e: Effect)
    requires Stops(s, t, th, e) && Fits(th)
    ensures EmitSafe(s, t, th, e)
  {
  }

  lemma ChecksEmits(s: State, t: Tid, th: Thread, e: Effect)
    requires (th.phase.Check? && Checks(s, t, th, e)) || (th.phase.Recheck? && Rechecks(s, t, th, e))
    requires Fits(th)
    ensures EmitSafe(s, t, th, e)
  {
  }

  lemma ActsEmits(s: State, t: Tid, th: Thread, e: Effect)
    requires Acts(s, t, th, e) && Fits(th)
    ensures EmitSafe(s, t, th, e)
  {
  }

  // Where the positions a thread holds come from.
  predicate HoldsSafe(s: State, t: Tid, th: Thread, e: Effect) {
    && (if e.bump then e.th.at == |s.log| && e.th.gen == s.generation + 1
        else !Replaces(th.family)
             || (!th.phase.RevokeGeneration? && e.th.at == th.at && e.th.gen == th.gen))
    && (if e.dropGoal then e.th.brainAt == |s.log|
        else e.th.phase.FinalBehaviors? || e.th.phase.FinalSkills? || e.th.phase.FinalStop? ==>
          (th.phase.FinalBehaviors? || th.phase.FinalSkills?) && e.th.brainAt == th.brainAt && !e.bump)
    && (e.th.phase.FinalStop? ==> e.dropRun && e.th.skillsAt == |s.log|)
  }

  lemma RevokesHolds(s: State, t: Tid, th: Thread, e: Effect)
    requires Revokes(s, t, th, e) && Fits(th)
    ensures HoldsSafe(s, t, th, e) && !Cleared(e.th)
  {
  }

  lemma StopsHolds(s: State, t: Tid, th: Thread, e: Effect)
    requires Stops(s, t, th, e) && Fits(th)
    ensures HoldsSafe(s, t, th, e) && !Cleared(e.th)
  {
  }

  // What puts a request past its last check.
  predicate ClearSafe(s: State, th: Thread, e: Effect) {
    Cleared(e.th) ==>
      || (Cleared(th) && e.th.at == th.at)
      || (th.family.SkillCall? && s.runAt == Some(e.th.at))
      || (th.family.BrainDispatch? && s.goalAt == Some(e.th.at))
      || (th.phase.Recheck? && (th.family.Manual? || th.family.Behavior?) && th.gen == s.generation && e.th.at == th.at)
  }

  lemma ChecksHolds(s: State, t: Tid, th: Thread, e: Effect)
    requires (th.phase.Check? && Checks(s, t, th, e)) || (th.phase.Recheck? && Rechecks(s, t, th, e))
    requires Fits(th)
    ensures HoldsSafe(s, t, th, e) && ClearSafe(s, th, e)
  {
  }

  lemma ActsHolds(s: State, t: Tid, th: Thread, e: Effect)
    requires Acts(s, t, th, e) && Fits(th)
    ensures HoldsSafe(s, t, th, e) && ClearSafe(s, th, e)
  {
  }

  // All of the above.
  predicate Safe(s: State, t: Tid, th: Thread, e: Effect) {
    Locksafe(s, t, th, e) && Fits(e.th) && EmitSafe(s, t, th, e) && HoldsSafe(s, t, th, e) && ClearSafe(s, th, e)
  }

  lemma RequestsSafe(s: State, t: Tid, th: Thread, e: Effect)
    requires Requests(s, t, th, e) && Fits(th)
    ensures Safe(s, t, th, e)
  {
    if th.phase.Check? {
      ChecksLocks(s, t, th, e);
      ChecksEmits(s, t, th, e);
      ChecksHolds(s, t, th, e);
    } else if th.phase.Recheck? {
      RechecksLocks(s, t, th, e);
      ChecksEmits(s, t, th, e);
      ChecksHolds(s, t, th, e);
    } else {
      ActsLocks(s, t, th, e);
      ActsFits(s, t, th, e);
      ActsEmits(s, t, th, e);
      ActsHolds(s, t, th, e);
    }
  }

  lemma AllowedSafe(s: State, t: Tid, th: Thread, e: Effect)
    requires Allowed(s, t, th, e) && Fits(th)
    ensures Safe(s, t, th, e)
  {
    if Revokes(s, t, th, e) {
      RevokesLocks(s, t, th, e);
      RevokesEmits(s, t, th, e);
      RevokesHolds(s, t, th, e);
    } else if Stops(s, t, th, e) {
      StopsLocks(s, t, th, e);
      StopsEmits(s, t, th, e);
      StopsHolds(s, t, th, e);
    } else {
      RequestsSafe(s, t, th, e);
    }
  }

  // ---------- each part is kept ----------

  lemma LocksKept(s: State, t: Tid, e: Effect)
    requires LocksHeld(s) && t in s.threads && Locksafe(s, t, s.threads[t], e)
    ensures LocksHeld(Apply(s, t, e))
  {
  }

  lemma LogGrows(log: seq<Event>, e: Event)
    requires Genuine(log) && Drained(log)
    requires e.FinalStopped? ==> IsFinalStop(log, e)
    requires e.Commanded? ==> IsAdmission(log, e.who, e.family, e.at) && AfterAllStops(log, e.family, e.at)
    ensures Genuine(log + [e]) && Drained(log + [e])
  {
  }

  lemma LogKept(s: State, t: Tid, th: Thread, e: Effect)
    requires Genuine(s.log) && Drained(s.log) && Placed(s.log, t, th) && Fits(th) && EmitSafe(s, t, th, e)
    ensures Genuine(Apply(s, t, e).log) && Drained(Apply(s, t, e).log)
  {
    if e.emit.Some? {
      LogGrows(s.log, e.emit.value);
    }
  }

  lemma CountedKept(s: State, t: Tid, th: Thread, e: Effect)
    requires Counted(s.log, s.generation) && EmitSafe(s, t, th, e)
    ensures Counted(Apply(s, t, e).log, Apply(s, t, e).generation)
  {
  }

  lemma GoalAliveGrows(log: seq<Event>, e: Event, at: nat)
    requires GoalAlive(log, at) && !e.BrainRevoked?
    ensures GoalAlive(log + [e], at)
  {
  }

  lemma RunAliveGrows(log: seq<Event>, e: Event, at: nat)
    requires RunAlive(log, at) && !e.SkillsRevoked?
    ensures RunAlive(log + [e], at)
  {
  }

  lemma AliveKept(s: State, t: Tid, th: Thread, e: Effect)
    requires Alive(s) && EmitSafe(s, t, th, e)
    ensures Alive(Apply(s, t, e))
  {
    if e.emit.Some? {
      if s.goalAt.Some? && !e.dropGoal {
        GoalAliveGrows(s.log, e.emit.value, s.goalAt.value);
      }
      if s.runAt.Some? && !e.dropRun && !e.startRun {
        RunAliveGrows(s.log, e.emit.value, s.runAt.value);
      }
    }
  }

  lemma HasGrows(log: seq<Event>, e: Event, t: Tid)
    ensures HasFinalStop(log + [e], t) <==> HasFinalStop(log, t) || (e.FinalStopped? && e.who == t)
  {
    if HasFinalStop(log, t) {
      var i :| 0 <= i < |log| && log[i].FinalStopped? && log[i].who == t;
      assert (log + [e])[i] == log[i];
    }
    assert (log + [e])[|log|] == e;
  }

  lemma EndedKept(s: State, t: Tid, e: Effect)
    requires AllEnded(s) && t in s.threads && Locksafe(s, t, s.threads[t], e) && EmitSafe(s, t, s.threads[t], e)
    ensures AllEnded(Apply(s, t, e))
  {
    var s' := Apply(s, t, e);
    forall x | x in s'.threads ensures Ended(s'.log, x, s'.threads[x]) {
      assert Ended(s.log, x, s.threads[x]);
      if e.emit.Some? {
        HasGrows(s.log, e.emit.value, x);
      }
    }
  }

  // A matching generation under the lock puts the admission after every final STOP so far.
  lemma GenerationClears(s: State, t: Tid, th: Thread)
    requires Placed(s.log, t, th) && Fits(th) && th.phase.Recheck? && (th.family.Manual? || th.family.Behavior?)
    requires Counted(s.log, s.generation) && Genuine(s.log) && th.gen == s.generation && !HasFinalStop(s.log, t)
    ensures AfterAllStops(s.log, th.family, th.at)
  {
    forall i | 0 <= i < |s.log| && s.log[i].FinalStopped? ensures s.log[i].genAt < th.at {
      var g := s.log[i].genAt;
      assert IsFinalStop(s.log, s.log[i]);
      assert s.log[g].Bumped? && s.log[g].who == s.log[i].who != t;
    }
  }

  // The goal or the run that is alive was admitted after every final STOP so far.
  lemma AliveClears(log: seq<Event>, at: nat)
    requires Genuine(log)
    ensures GoalAlive(log, at) ==> AfterAllStops(log, BrainDispatch, at)
    ensures RunAlive(log, at) ==> AfterAllStops(log, SkillCall, at)
  {
    forall i | 0 <= i < |log| && log[i].FinalStopped?
      ensures GoalAlive(log, at) ==> log[i].brainAt < at
      ensures RunAlive(log, at) ==> log[i].skillsAt < at
    {
      assert IsFinalStop(log, log[i]);
    }
  }

  lemma OwnCleared(s: State, t: Tid, th: Thread, e: Effect)
    requires Placed(s.log, t, th) && Fits(th) && Safe(s, t, th, e) && Cleared(e.th) && !HasFinalStop(s.log, t)
    requires Counted(s.log, s.generation) && Alive(s) && Genuine(s.log)
    ensures IsAdmission(s.log, t, th.family, e.th.at) && AfterAllStops(s.log, th.family, e.th.at)
  {
    AliveClears(s.log, e.th.at);
    if th.phase.Recheck? && (th.family.Manual? || th.family.Behavior?) && th.gen == s.generation {
      GenerationClears(s, t, th);
    }
  }

  lemma ClearedGrows(log: seq<Event>, e: Event, who: Tid, family: Family, at: nat)
    requires IsAdmission(log, who, family, at) && AfterAllStops(log, family, at) && !e.FinalStopped?
    ensures IsAdmission(log + [e], who, family, at) && AfterAllStops(log + [e], family, at)
  {
  }

  lemma OwnPlaced(s: State, t: Tid, th: Thread, e: Effect)
    requires Placed(s.log, t, th) && Fits(th) && Safe(s, t, th, e) && !HasFinalStop(s.log, t)
    requires Counted(s.log, s.generation) && Alive(s) && Genuine(s.log)
    ensures Placed(Apply(s, t, e).log, t, e.th)
  {
    if Cleared(e.th) {
      OwnCleared(s, t, th, e);
      if e.emit.Some? {
        ClearedGrows(s.log, e.emit.value, t, th.family, e.th.at);
      }
    }
  }

  // Appending keeps the positions of the other threads; a final STOP needs them outside the lock.
  lemma PlacedGrows(log: seq<Event>, e: Event, t: Tid, th: Thread)
    requires Placed(log, t, th)
    requires !e.FinalStopped? || !Cleared(th)
    ensures Placed(log + [e], t, th)
  {
    if Cleared(th) {
      ClearedGrows(log, e, t, th.family, th.at);
    }
  }

  lemma OtherPlaced(s: State, t: Tid, e: Effect, x: Tid)
    requires LocksHeld(s) && t in s.threads && x in s.threads && x != t && Placed(s.log, x, s.threads[x])
    requires EmitSafe(s, t, s.threads[t], e)
    ensures Placed(Apply(s, t, e).log, x, s.threads[x])
  {
    if e.emit.Some? {
      if e.emit.value.FinalStopped? {
        assert Critical(s.threads[t].phase) && !Critical(s.threads[x].phase);
      }
      PlacedGrows(s.log, e.emit.value, x, s.threads[x]);
    }
  }

  // An event by a thread that has its final STOP does not occur: such a thread is finished.
  lemma NotEnded(s: State, t: Tid, e: Effect)
    requires t in s.threads && AllEnded(s) && Allowed(s, t, s.threads[t], e)
    ensures !HasFinalStop(s.log, t)
  {
    assert Ended(s.log, t, s.threads[t]);
  }

  lemma ThreadKeeps(s: State, t: Tid, e: Effect)
    requires Inv(s) && ThreadStep(s, t, e, Apply(s, t, e))
    ensures Inv(Apply(s, t, e))
  {
    var th := s.threads[t];
    assert Fits(th) && Placed(s.log, t, th);
    AllowedSafe(s, t, th, e);
    NotEnded(s, t, e);
    LocksKept(s, t, e);
    LogKept(s, t, th, e);
    CountedKept(s, t, th, e);
    AliveKept(s, t, th, e);
    EndedKept(s, t, e);
    OwnPlaced(s, t, th, e);
    forall x | x in s.threads && x != t ensures Placed(Apply(s, t, e).log, x, s.threads[x]) {
      OtherPlaced(s, t, e, x);
    }
  }

  // The log after a happening that admits something.
  lemma AdmissionKeeps(s: State, e: Event)
    requires Inv(s) && e.GoalAdopted?
    ensures Inv(s.(log := s.log + [e]))
  {
    LogGrows(s.log, e);
    forall x | x in s.threads ensures Placed(s.log + [e], x, s.threads[x]) && Ended(s.log + [e], x, s.threads[x]) {
      assert Ended(s.log, x, s.threads[x]);
      PlacedGrows(s.log, e, x, s.threads[x]);
      HasGrows(s.log, e, x);
    }
    if s.goalAt.Some? {
      GoalAliveGrows(s.log, e, s.goalAt.value);
    }
    if s.runAt.Some? {
      RunAliveGrows(s.log, e, s.runAt.value);
    }
  }

  lemma EnvironmentKeeps(s: State, h: Happening, s': State)
    requires Inv(s) && Environment(s, h, s')
    ensures Inv(s')
  {
    if h.AdoptGoal? {
      AdmissionKeeps(s, GoalAdopted);
    }
  }

  lemma SpawnPlaced(s: State, t: Tid, f: Family, bounded: bool, forRun: nat, s': State)
    requires AllPlaced(s) && AllEnded(s) && Spawn(s, t, f, bounded, forRun, s')
    ensures AllPlaced(s') && AllEnded(s')
  {
  }

  lemma SpawnLocks(s: State, t: Tid, f: Family, bounded: bool, forRun: nat, s': State)
    requires LocksHeld(s) && Spawn(s, t, f, bounded, forRun, s')
    ensures LocksHeld(s')
  {
  }

  lemma SpawnKeeps(s: State, t: Tid, f: Family, bounded: bool, forRun: nat, s': State)
    requires Inv(s) && Spawn(s, t, f, bounded, forRun, s')
    ensures Inv(s')
  {
    SpawnPlaced(s, t, f, bounded, forRun, s');
    SpawnLocks(s, t, f, bounded, forRun, s');
  }

  lemma NextKeeps(s: State, s': State)
    requires Inv(s) && Next(s, s')
    ensures Inv(s')
  {
    if t, f, bounded, forRun :| Spawn(s, t, f, bounded, forRun, s') {
      SpawnKeeps(s, t, f, bounded, forRun, s');
    } else if t, e :| ThreadStep(s, t, e, s') {
      ThreadKeeps(s, t, e);
    } else {
      var h :| Environment(s, h, s');
      EnvironmentKeeps(s, h, s');
    }
  }

  lemma {:induction false} RunKeeps(run: seq<State>, k: nat)
    requires IsRun(run) && k < |run|
    ensures Inv(run[k])
  {
    if k > 0 {
      RunKeeps(run, k - 1);
      assert NextAt(run, k - 1);
      NextKeeps(run[k - 1], run[k]);
    }
  }

  // The main result, for every interleaving: after a preemption's final STOP no older request commands.
  lemma FinalStopDrains(run: seq<State>, k: nat)
    requires IsRun(run) && k < |run|
    ensures Drained(run[k].log) && Genuine(run[k].log)
  {
    RunKeeps(run, k);
  }

  // No thread has its final STOP in the log before it finished, and a finished preemption has one unless its reason
  // was refused by the skill runtime (empty or over 1024 characters) or the last STOP raised.
  lemma FinalStopIff(run: seq<State>, k: nat, t: Tid)
    requires IsRun(run) && k < |run| && t in run[k].threads
    ensures HasFinalStop(run[k].log, t) <==> Finishes(run[k].threads[t])
  {
    RunKeeps(run, k);
    assert Ended(run[k].log, t, run[k].threads[t]);
  }

  // The action lock admits one thread at a time, so nothing is checked or commanded while a preemption revokes and
  // stops for the last time.
  lemma OneInside(run: seq<State>, k: nat, t: Tid, x: Tid)
    requires IsRun(run) && k < |run| && t in run[k].threads && x in run[k].threads
    requires Critical(run[k].threads[t].phase) && Critical(run[k].threads[x].phase)
    ensures t == x
  {
    RunKeeps(run, k);
  }

  // ---------- the first STOP alone does not drain ----------

  lemma ByThread(run: seq<State>, t: Tid, e: Effect) returns (run': seq<State>)
    requires IsRun(run) && t in run[|run| - 1].threads && Allowed(run[|run| - 1], t, run[|run| - 1].threads[t], e)
    ensures IsRun(run') && run' == run + [Apply(run[|run| - 1], t, e)]
  {
    run' := run + [Apply(run[|run| - 1], t, e)];
    assert ThreadStep(run[|run| - 1], t, e, run'[|run|]);
    forall i: nat ensures NextAt(run', i) {
      assert NextAt(run, i);
    }
  }

  lemma BySpawn(run: seq<State>, t: Tid, f: Family) returns (run': seq<State>)
    requires IsRun(run) && t !in run[|run| - 1].threads
    ensures IsRun(run')
    ensures var s, th := run[|run| - 1], Thread(f, FirstPhase(f), true, false, 0, 0, 0, 0, 0);
            run' == run + [s.(threads := s.threads[t := th])]
  {
    var s := run[|run| - 1];
    var s' := s.(threads := s.threads[t := Thread(f, FirstPhase(f), true, false, 0, 0, 0, 0, 0)]);
    run' := run + [s'];
    assert Spawn(s, t, f, true, 0, s');
    forall i: nat ensures NextAt(run', i) {
      assert NextAt(run, i);
    }
  }

  // The log of one revocation and its STOP.
  function RevokedLog(t: Tid, gen: nat): seq<Event> {
    [Bumped(t, gen), BrainRevoked(t), SkillsRevoked(t), Stopped(t)]
  }

  function Waiting(th: Thread, gen: nat, at: nat): Thread {
    th.(phase := WantLock, gen := gen, at := at, brainAt := at + 1, skillsAt := at + 2)
  }

  lemma RevokesAndStops(run: seq<State>, t: Tid) returns (run': seq<State>)
    requires IsRun(run) && t in run[|run| - 1].threads
    requires run[|run| - 1].stateLock.None?
    requires var th := run[|run| - 1].threads[t];
             th.phase.RevokeGeneration? && th.bounded && (th.family.Manual? || th.family.Preempt?)
    ensures IsRun(run')
    ensures var s, s' := run[|run| - 1], run'[|run'| - 1];
      && s'.log == s.log + RevokedLog(t, s.generation + 1)
      && s'.generation == s.generation + 1 && s'.stateLock.None? && s'.actionLock == s.actionLock
      && s'.threads == s.threads[t := Waiting(s.threads[t], s.generation + 1, |s.log|)]
  {
    var s := run[|run| - 1];
    run' := ByThread(run, t, Bump(s, t, s.threads[t], RevokeBrain));
    s := run'[|run'| - 1];
    run' := ByThread(run', t,
                     Goto(s.threads[t].(brainAt := |s.log|), RevokeBehaviors).(dropGoal := true,
                         emit := Some(BrainRevoked(t))));
    s := run'[|run'| - 1];
    run' := ByThread(run', t, Goto(s.threads[t], RevokeSkills).(behavior := Revoke));
    s := run'[|run'| - 1];
    run' := ByThread(run', t, Goto(s.threads[t].(skillsAt := |s.log|), FirstStop)
                                .(state := Release, dropRun := true, emit := Some(SkillsRevoked(t))));
    s := run'[|run'| - 1];
    run' := ByThread(run', t, Goto(s.threads[t], WantLock).(emit := Some(Stopped(t))));
  }

  // Under the lock, up to the command.
  lemma ManualAdmitted(run: seq<State>, t: Tid) returns (run': seq<State>)
    requires IsRun(run) && t in run[|run| - 1].threads
    requires run[|run| - 1].stateLock.None? && run[|run| - 1].actionLock.None?
    requires var th := run[|run| - 1].threads[t];
             th.phase.WantLock? && th.family.Manual? && th.gen == run[|run| - 1].generation
    ensures IsRun(run')
    ensures var s, s' := run[|run| - 1], run'[|run'| - 1];
      && s'.log == s.log + [Stopped(t)] && s'.stateLock.None? && s'.generation == s.generation
      && s'.threads == s.threads[t := s.threads[t].(phase := Execute)]
  {
    var s := run[|run| - 1];
    run' := ByThread(run, t, Goto(s.threads[t], Check).(lock := Take));
    s := run'[|run'| - 1];
    run' := ByThread(run', t, Goto(s.threads[t], Boundary));
    s := run'[|run'| - 1];
    run' := ByThread(run', t, Goto(s.threads[t], Recheck).(emit := Some(Stopped(t))));
    s := run'[|run'| - 1];
    run' := ByThread(run', t, Goto(s.threads[t], Execute));
  }

  lemma ManualCleared() returns (run: seq<State>)
    ensures IsRun(run)
    ensures var s := run[|run| - 1];
      && s.log == RevokedLog(0, 1) + [Stopped(0)] && s.stateLock.None? && s.generation == 1
      && s.threads == map[0 := Thread(Manual, Execute, true, false, 1, 0, 1, 2, 0)]
  {
    run := [State(map[], None, None, 0, 0, None, None, 0, false, [])];
    run := BySpawn(run, 0, Manual);
    run := RevokesAndStops(run, 0);
    run := ManualAdmitted(run, 0);
  }

  // A request past its last check commands after the first STOP of a preemption that revoked it: only the STOP under
  // the lock drains.
  lemma FirstStopDoesNotDrain() returns (run: seq<State>)
    ensures IsRun(run)
    ensures run[|run| - 1].log == RevokedLog(0, 1) + [Stopped(0)] + RevokedLog(1, 2) + [Commanded(0, Manual, 0)]
    ensures 1 in run[|run| - 1].threads && run[|run| - 1].threads[1].family.Preempt?
  {
    run := ManualCleared();
    run := BySpawn(run, 1, Preempt);
    run := RevokesAndStops(run, 1);
    run := ByThread(run, 0, Goto(run[|run| - 1].threads[0], After).(emit := Some(Commanded(0, Manual, 0))));
  }
}
