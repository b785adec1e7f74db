/** The lifecycle of host behaviors. */
module BehaviorLifecycle {
  import opened Options

  // Start, step, revoke and the canonical STOP, interleaved.  Every step below is one section of the program that runs
  // under the behavior lock, together with the computation that leads to it.  Programs return at any time, also long
  // after their behavior was revoked.  While a behavior is running, its identity is the generation.

  type Tid = nat

  datatype Lifecycle = Idle | Starting | Active | Completed | Failed | Cancelled

  // `RequestedDuration` notes the start of execution and the time that the deciding step used.
  datatype Reason =
    | NoReason | ActionStarting | StartFailed | DurationLimit | StatusStale | RuntimeFault | StatusError
    | NotAcknowledged | ExecutionUnproven | RequestedDuration(since: int, at: int) | StopFailed | Given(text: nat)

  datatype Snapshot = Snapshot(id: nat, lifecycle: Lifecycle, reason: Reason, follows: bool, onDuration: bool,
                               started: int, deadline: int, execution: Option<int>, command: Option<nat>,
                               measurement: int, observation: int, revision: nat)

  datatype StopOutcome = Returned | Raised | Interrupted

  datatype Entry =
    | Began(id: nat)
    | Intent(id: nat)
    | Noted(id: nat)
    | Ended(id: nat, lifecycle: Lifecycle, reason: Reason)
    | Stop(id: nat, outcome: StopOutcome)

  datatype Thread =
    | Launching(id: nat)
    | Stepping(gen: nat, seen: Snapshot)
    | Stopping(id: nat, pending: Option<Snapshot>)
    | Recording(id: nat, completed: Snapshot, outcome: StopOutcome)
    | Over

  datatype Request = Request(started: int, duration: int, onDuration: bool)

  datatype Limits = Limits(maxAge: int, startTimeout: int)

  // `requested`, `observed` and `finishedBy` are history: what was asked for, the starts of execution that a
  // status of the behavior's own mission showed, and the threads that finished a behavior.
  datatype State = State(limits: Limits, threads: map<Tid, Thread>, generation: nat, snap: Snapshot, log: seq<Entry>,
                         requested: map<nat, Request>, observed: set<(nat, int)>, finishedBy: map<nat, Tid>)

  predicate Running(l: Lifecycle) {
    l.Starting? || l.Active?
  }

  predicate Init(s: State) {
    && s.threads == map[] && s.generation == 0 && s.log == [] && s.snap.id == 0 && s.snap.lifecycle == Idle
    && s.requested == map[] && s.observed == {} && s.finishedBy == map[]
  }

  // ---------- what a step decides ----------

  datatype Program = ProgramRaised | NoUpdate | Update(lifecycle: Lifecycle, reason: Reason, command: Option<nat>)

  datatype Status =
    | ReadRaised
    | Read(stamp: Option<int>, mission: bool, faulty: bool, navigation: bool, active: bool, holding: bool, lost: bool)

  // `entered` is the clock at entry and `later` after the status was read; with `explicit` the caller gave the time.
  datatype Input = Input(entered: int, explicit: bool, later: int, status: Status, program: Program)

  datatype Decision =
    | Nothing
    | Finish(lifecycle: Lifecycle, reason: Reason, measured: Option<int>)
    | Observe(lifecycle: Lifecycle, reason: Reason, command: Option<nat>, stamp: int, now: int,
              execution: Option<int>, deadline: int)

  // A program reports any lifecycle but idle, and its reasons are its own.
  predicate Proper(i: Input) {
    i.program.Update? ==> i.program.lifecycle != Idle && i.program.reason.Given?
  }

  function Decide(limits: Limits, seen: Snapshot, i: Input): Decision {
    if !Running(seen.lifecycle) then Nothing
    else if i.entered >= seen.deadline && (!seen.onDuration || seen.command.None?)
    then Finish(Failed, DurationLimit, None)
    else if seen.command.None? then Nothing
    else if i.status.ReadRaised? then Finish(Failed, StatusError, None)
    else DecideRead(limits, seen, i.status, i.program, if i.explicit then i.entered else i.later)
  }

  function DecideRead(limits: Limits, seen: Snapshot, status: Status, program: Program, now: int): Decision
    requires status.Read?
  {
    if status.stamp.None? || !(0 <= now - status.stamp.value < limits.maxAge) then Finish(Failed, StatusStale, None)
    else if status.mission && status.faulty then Finish(Failed, RuntimeFault, None)
    else
      match program
      case ProgramRaised => Finish(Failed, StatusError, None)
      case NoUpdate =>
        if now >= seen.deadline || now - seen.observation >= limits.startTimeout
          then Finish(Failed, NotAcknowledged, None)
        else Nothing
      case Update(l, r, c) =>
        if !Running(l) then Finish(l, r, status.stamp)
        else DecideRunning(seen, status, l, r, c, now)
  }

  // The mission's own navigation shows that it executes.
  predicate Executing(seen: Snapshot, status: Status, l: Lifecycle)
    requires status.Read?
  {
    status.navigation && (status.active || (seen.follows && status.holding)) && l == Active
  }

  function DecideRunning(seen: Snapshot, status: Status, l: Lifecycle, r: Reason, c: Option<nat>, now: int): Decision
    requires status.Read? && status.stamp.Some?
  {
    var starts := seen.onDuration && seen.execution.None? && Executing(seen, status, l);
    var execution := if starts then status.stamp else seen.execution;
    var deadline := if starts then status.stamp.value + (seen.deadline - seen.started) else seen.deadline;
    if now >= deadline then
      if l != Active || execution.None? || (seen.follows && status.lost) then Finish(Failed, ExecutionUnproven, None)
      else Finish(Completed, RequestedDuration(execution.value, now), status.stamp)
    else Observe(l, r, c, status.stamp.value, now, execution, deadline)
  }

  // The start of execution that this step saw.
  function Saw(limits: Limits, seen: Snapshot, i: Input): set<(nat, int)> {
    if i.status.Read? && i.program.Update? && i.status.stamp.Some? && Executing(seen, i.status, i.program.lifecycle)
    then {(seen.id, i.status.stamp.value)} else {}
  }

  // ---------- the steps ----------

  datatype Move =
    | Refuse                      // a cancelled start, or an unknown behavior
    | Install(follows: bool, duration: int, onDuration: bool, now: int)
    | Accept(command: nat, now: int)
    | StartEnds(lifecycle: Lifecycle, now: int)
    | StartRaises(now: int)
    | Capture
    | Decides(input: Input, now: int)
    | Revoke(stop: bool, now: int)
    | StopEnds(outcome: StopOutcome)
    | Record(now: int)
    | Acts(gen: nat)
    | ActionEnds(id: nat)

  function Put(s: State, t: Tid, th: Thread): State {
    s.(threads := s.threads[t := th])
  }

  function Terminal(c: Snapshot, l: Lifecycle, r: Reason, measured: Option<int>, now: int): Snapshot {
    c.(lifecycle := l, reason := r, measurement := if measured.Some? then measured.value else now, observation := now,
       revision := c.revision + 1)
  }

  // The common end of a behavior; a late caller holds another generation and changes nothing.
  function Finished(s: State, t: Tid, gen: Option<nat>, l: Lifecycle, r: Reason, stop: bool, measured: Option<int>,
                    now: int)
    : State
  {
    if (gen.Some? && gen.value != s.generation) || !Running(s.snap.lifecycle) then Put(s, t, Over)
    else
      var c := Terminal(s.snap, l, r, measured, now);
      var deferred := stop && l == Completed;
      Put(s, t, if deferred then Stopping(c.id, Some(c)) else if stop then Stopping(c.id, None) else Over)
        .(generation := s.generation + 1, snap := c, finishedBy := s.finishedBy[c.id := t],
          log := if deferred then s.log else s.log + [Ended(c.id, l, r)])
  }

  function Installed(s: State, t: Tid, m: Move): State
    requires m.Install?
  {
    if Running(s.snap.lifecycle) then Put(s, t, Over)
    else
      var id := s.generation + 1;
      Put(s, t, Launching(id))
        .(generation := id, requested := s.requested[id := Request(m.now, m.duration, m.onDuration)],
          log := s.log + [Began(id)],
          snap := Snapshot(id, Starting, ActionStarting, m.follows, m.onDuration, m.now, m.now + m.duration, None, None,
                           m.now, m.now, s.snap.revision + 1))
  }

  function Accepted(s: State, t: Tid, id: nat, command: nat, now: int): State {
    if id != s.generation || !Running(s.snap.lifecycle) then Put(s, t, Over)
    else Put(s, t, Over).(snap := s.snap.(command := Some(command), measurement := now, observation := now,
                                          revision := s.snap.revision + 1),
                          log := s.log + [Noted(id)])
  }

  function Observed(s: State, t: Tid, gen: nat, d: Decision): State
    requires d.Observe?
  {
    if gen != s.generation || !Running(s.snap.lifecycle) then Put(s, t, Over)
    else
      var command := if d.command.Some? then d.command else s.snap.command;
      var changed := d.lifecycle != s.snap.lifecycle || d.reason != s.snap.reason || command != s.snap.command
                     || d.execution != s.snap.execution;
      if !changed && d.stamp == s.snap.measurement then Put(s, t, Over)
      else Put(s, t, Over).(snap := s.snap.(lifecycle := d.lifecycle, reason := d.reason, command := command,
                                            measurement := d.stamp, observation := d.now,
                                            revision := s.snap.revision + 1,
                                            execution := d.execution, deadline := d.deadline),
                            log := if changed then s.log + [Noted(s.snap.id)] else s.log)
  }

  function Decided(s: State, t: Tid, gen: nat, seen: Snapshot, i: Input, now: int): State {
    var s1 := s.(observed := s.observed + Saw(s.limits, seen, i));
    match Decide(s.limits, seen, i)
    case Nothing => Put(s1, t, Over)
    case Finish(l, r, measured) => Finished(s1, t, Some(gen), l, r, l != Cancelled, measured, now)
    case Observe(_, _, _, _, _, _, _) => Observed(s1, t, gen, Decide(s.limits, seen, i))
  }

  // After the STOP: the deferred event of a completion.
  function Recorded(s: State, t: Tid, c: Snapshot, outcome: StopOutcome, now: int): State {
    if outcome.Raised? then
      var failed := c.(lifecycle := Failed, reason := StopFailed, observation := now, revision := c.revision + 1);
      Put(s, t, Over).(snap := if s.snap == c then failed else s.snap, log := s.log + [Ended(c.id, Failed, StopFailed)])
    else Put(s, t, Over).(log := s.log + [Ended(c.id, c.lifecycle, c.reason)])
  }

  predicate ThreadMove(s: State, t: Tid, th: Thread, m: Move, s': State) {
    match th
    case Launching(id) =>
      (match m
       case Accept(command, now) => s' == Accepted(s, t, id, command, now)
       case StartEnds(l, now) =>
         l != Idle && !Running(l) && s' == Finished(s, t, Some(id), l, Given(0), l != Cancelled, None, now)
       case StartRaises(now) => s' == Finished(s, t, Some(id), Failed, StartFailed, true, None, now)
       case _ => false)
    case Stepping(gen, seen) => m.Decides? && Proper(m.input) && s' == Decided(s, t, gen, seen, m.input, m.now)
    case Stopping(id, c) =>
      && m.StopEnds?
      && s' == Put(s, t, if c.Some? then Recording(id, c.value, m.outcome) else Over)
               .(log := s.log + [Stop(id, m.outcome)])
    case Recording(_, c, outcome) => m.Record? && s' == Recorded(s, t, c, outcome, m.now)
    case Over => false
  }

  // A call from outside, and the actions of the programs.
  predicate FreshMove(s: State, t: Tid, m: Move, s': State) {
    match m
    case Refuse => s' == Put(s, t, Over)
    case Install(_, _, _, _) => s' == Installed(s, t, m)
    case Capture => s' == Put(s, t, Stepping(s.generation, s.snap))
    case Revoke(stop, now) => s' == Finished(s, t, None, Cancelled, Given(1), stop, None, now)
    case Acts(gen) =>
      && gen in s.requested
      && s' == if gen == s.generation then Put(s, t, Over).(log := s.log + [Intent(gen)]) else Put(s, t, Over)
    case ActionEnds(id) => s' == Put(s, t, Over).(log := s.log + [Noted(id)])
    case _ => false
  }

  predicate Step(s: State, t: Tid, m: Move, s': State) {
    if t in s.threads then ThreadMove(s, t, s.threads[t], m, s') else FreshMove(s, t, m, s')
  }

  // ---------- what a run promises ----------

  // The STOPs and the terminal events of one behavior, in order.
  function Trace(log: seq<Entry>, id: nat): seq<Entry> {
    if log == [] then []
    else
      var e := log[|log| - 1];
      Trace(log[..|log| - 1], id) + if (e.Ended? || e.Stop?) && e.id == id then [e] else []
  }

  lemma TraceGrows(log: seq<Entry>, e: Entry, id: nat)
    ensures Trace(log + [e], id) == Trace(log, id) + if (e.Ended? || e.Stop?) && e.id == id then [e] else []
  {
    assert (log + [e])[..|log|] == log;
  }

  // One terminal event, and its STOP: after the event, or before a completion, which a STOP that raised turns into
  // a failure.
  predicate Settled(trace: seq<Entry>) {
    || (|trace| == 1 && trace[0].Ended? && trace[0].lifecycle != Completed)
    || (|trace| == 2 && trace[0].Ended? && trace[1].Stop? && trace[0].lifecycle != Completed)
    || (|trace| == 2 && trace[0].Stop? && trace[1].Ended? &&
          if trace[0].outcome.Raised? then trace[1].lifecycle == Failed && trace[1].reason == StopFailed
          else trace[1].lifecycle == Completed)
  }

  // Where the trace of a finished behavior stands, by the thread that finished it.
  predicate TraceFits(trace: seq<Entry>, th: Thread, id: nat) {
    match th
    case Stopping(x, None) => x == id && |trace| == 1 && trace[0].Ended? && trace[0].lifecycle != Completed
    case Stopping(x, Some(_)) => x == id && trace == []
    case Recording(x, _, outcome) => x == id && trace == [Stop(id, outcome)]
    case Over => Settled(trace)
    case _ => false
  }

  predicate Timed(c: Snapshot, r: Request) {
    && c.started == r.started && c.onDuration == r.onDuration
    && c.deadline == (if c.execution.Some? then c.execution.value else c.started) + r.duration
  }

  // A running behavior's snapshot.
  predicate Sound(s: State, c: Snapshot, gen: nat) {
    && c.id == gen && gen in s.requested && Timed(c, s.requested[gen])
    && (c.execution.Some? ==> c.onDuration && (gen, c.execution.value) in s.observed)
    && (c.reason.Given? || c.reason == ActionStarting)
  }

  // A completion by duration saw the execution start and waited for the whole duration from there.
  predicate Proved(s: State, id: nat, r: Reason) {
    r.RequestedDuration? ==>
      id in s.requested && s.requested[id].onDuration && (id, r.since) in s.observed
      && r.since + s.requested[id].duration <= r.at
  }

  predicate SoundThread(s: State, t: Tid, th: Thread) {
    match th
    case Launching(id) => id <= s.generation
    case Stepping(gen, seen) => gen <= s.generation && (Running(seen.lifecycle) ==> Sound(s, seen, gen))
    case Stopping(id, c) =>
      && id in s.finishedBy && s.finishedBy[id] == t
      && (c.Some? ==> c.value.id == id && c.value.lifecycle == Completed && Proved(s, id, c.value.reason))
    case Recording(id, c, _) =>
      && id in s.finishedBy && s.finishedBy[id] == t
      && c.id == id && c.lifecycle == Completed && Proved(s, id, c.reason)
    case Over => true
  }

  ghost predicate Traced(s: State, id: nat) {
    if id in s.finishedBy then s.finishedBy[id] in s.threads
      && TraceFits(Trace(s.log, id), s.threads[s.finishedBy[id]], id)
    else Trace(s.log, id) == []
  }

  ghost predicate SnapSound(s: State) {
    s.snap.id <= s.generation && (Running(s.snap.lifecycle) ==> Sound(s, s.snap, s.generation))
  }

  // A behavior is unfinished exactly while its snapshot runs.
  ghost predicate Books(s: State) {
    && (forall id | id in s.requested ::
          id <= s.generation && (id in s.finishedBy <==> !(Running(s.snap.lifecycle) && s.snap.id == id)))
    && (s.generation in s.requested ==> Running(s.snap.lifecycle))
    && (forall id | id in s.finishedBy :: id in s.requested)
  }

  ghost predicate ThreadsSound(s: State) {
    forall t | t in s.threads :: SoundThread(s, t, s.threads[t])
  }

  ghost predicate AllTraced(s: State) {
    forall id: nat :: Traced(s, id)
  }

  ghost predicate AllProved(s: State) {
    forall i | 0 <= i < |s.log| && s.log[i].Ended? :: Proved(s, s.log[i].id, s.log[i].reason)
  }

  ghost predicate Inv(s: State) {
    SnapSound(s) && Books(s) && ThreadsSound(s) && AllTraced(s) && AllProved(s)
  }

  // ---------- what every step keeps ----------

  // The books only grow.
  ghost predicate Grows(s: State, s': State) {
    && s.generation <= s'.generation && s.observed <= s'.observed
    && (forall id | id in s.requested :: id in s'.requested && s'.requested[id] == s.requested[id])
    && (forall id | id in s.finishedBy :: id in s'.finishedBy && s'.finishedBy[id] == s.finishedBy[id])
  }

  lemma GrowsThreads(s: State, t: Tid, th: Thread, s': State)
    requires ThreadsSound(s) && Grows(s, s') && s'.threads == s.threads[t := th] && SoundThread(s', t, th)
    ensures ThreadsSound(s')
  {
    forall x | x in s'.threads && x != t ensures SoundThread(s', x, s'.threads[x]) {
      assert SoundThread(s, x, s.threads[x]);
    }
  }

  lemma GrowsProved(s: State, s': State)
    requires AllProved(s) && Grows(s, s')
    requires s'.log == s.log || (exists e :: s'.log == s.log + [e] && (e.Ended? ==> Proved(s', e.id, e.reason)))
    ensures AllProved(s')
  {
  }

  // A step that leaves the finishers alone and logs at most a note.
  lemma NotedTraces(s: State, t: Tid, th: Thread, s': State)
    requires AllTraced(s) && s'.threads == s.threads[t := th] && s'.finishedBy == s.finishedBy
    requires forall id | id in s.finishedBy ::
               s.finishedBy[id] == t ==> t in s.threads && s.threads[t].Over? && th.Over?
    requires s'.log == s.log || (exists e :: s'.log == s.log + [e] && !e.Ended? && !e.Stop?)
    ensures AllTraced(s')
  {
    forall id: nat ensures Traced(s', id) {
      assert Traced(s, id);
      if s'.log != s.log {
        TraceGrows(s.log, s'.log[|s.log|], id);
        assert s'.log == s.log + [s'.log[|s.log|]];
      }
    }
  }

  ghost predicate NotFinisher(s: State, t: Tid) {
    forall id | id in s.finishedBy :: s.finishedBy[id] != t
  }

  lemma FreshNotFinisher(s: State, t: Tid)
    requires AllTraced(s) && (t in s.threads ==> s.threads[t].Launching? || s.threads[t].Stepping?)
    ensures NotFinisher(s, t)
  {
    forall id | id in s.finishedBy ensures s.finishedBy[id] != t {
      assert Traced(s, id);
    }
  }

  lemma QuietKeeps(s: State, t: Tid, th: Thread, s': State)
    requires Inv(s) && NotFinisher(s, t) && s' == Put(s, t, th) && SoundThread(s, t, th)
    ensures Inv(s')
  {
    GrowsThreads(s, t, th, s');
    NotedTraces(s, t, th, s');
  }

  // The trace of the behavior that ends, and of all others.
  lemma FinishedTraces(s: State, t: Tid, gen: Option<nat>, l: Lifecycle, r: Reason, stop: bool, measured: Option<int>,
                       now: int)
    requires AllTraced(s) && NotFinisher(s, t) && Running(s.snap.lifecycle) && (gen.Some? ==> gen.value == s.generation)
    requires s.snap.id !in s.finishedBy && (l == Completed ==> stop)
    ensures AllTraced(Finished(s, t, gen, l, r, stop, measured, now))
  {
    var s' := Finished(s, t, gen, l, r, stop, measured, now);
    forall id: nat ensures Traced(s', id) {
      assert Traced(s, id);
      TraceGrows(s.log, Ended(s.snap.id, l, r), id);
    }
  }

  lemma FinishedBooks(s: State, t: Tid, gen: Option<nat>, l: Lifecycle, r: Reason, stop: bool, measured: Option<int>,
                      now: int)
    requires Books(s) && SnapSound(s) && Running(s.snap.lifecycle) && (gen.Some? ==> gen.value == s.generation)
    requires !Running(l)
    ensures var s' := Finished(s, t, gen, l, r, stop, measured, now);
      Books(s') && SnapSound(s') && s.snap.id !in s.finishedBy && Grows(s, s')
  {
  }

  lemma FinishedKeeps(s: State, t: Tid, gen: Option<nat>, l: Lifecycle, r: Reason, stop: bool, measured: Option<int>,
                      now: int)
    requires Inv(s) && NotFinisher(s, t) && !Running(l) && (l == Completed ==> stop)
    requires Running(s.snap.lifecycle) && (gen.Some? ==> gen.value == s.generation) ==> Proved(s, s.snap.id, r)
    ensures Inv(Finished(s, t, gen, l, r, stop, measured, now))
  {
    var s' := Finished(s, t, gen, l, r, stop, measured, now);
    if (gen.Some? && gen.value != s.generation) || !Running(s.snap.lifecycle) {
      QuietKeeps(s, t, Over, s');
    } else {
      FinishedBooks(s, t, gen, l, r, stop, measured, now);
      FinishedTraces(s, t, gen, l, r, stop, measured, now);
      GrowsThreads(s, t, s'.threads[t], s');
      GrowsProved(s, s');
    }
  }

  lemma InstalledKeeps(s: State, t: Tid, m: Move)
    requires Inv(s) && NotFinisher(s, t) && m.Install?
    ensures Inv(Installed(s, t, m))
  {
    var s' := Installed(s, t, m);
    if Running(s.snap.lifecycle) {
      QuietKeeps(s, t, Over, s');
    } else {
      GrowsThreads(s, t, Launching(s.generation + 1), s');
      GrowsProved(s, s');
      NotedTraces(s, t, Launching(s.generation + 1), s');
    }
  }

  lemma AcceptedKeeps(s: State, t: Tid, id: nat, command: nat, now: int)
    requires Inv(s) && NotFinisher(s, t)
    ensures Inv(Accepted(s, t, id, command, now))
  {
    var s' := Accepted(s, t, id, command, now);
    if id != s.generation || !Running(s.snap.lifecycle) {
      QuietKeeps(s, t, Over, s');
    } else {
      GrowsThreads(s, t, Over, s');
      GrowsProved(s, s');
      NotedTraces(s, t, Over, s');
    }
  }

  lemma ObservedKeeps(s: State, t: Tid, gen: nat, d: Decision)
    requires Inv(s) && NotFinisher(s, t) && d.Observe? && Running(d.lifecycle)
    requires gen == s.generation && Running(s.snap.lifecycle) ==>
      Sound(s, s.snap.(lifecycle := d.lifecycle, reason := d.reason, execution := d.execution, deadline := d.deadline),
            gen)
    ensures Inv(Observed(s, t, gen, d))
  {
    var s' := Observed(s, t, gen, d);
    if s'.snap == s.snap {
      QuietKeeps(s, t, Over, s');
    } else {
      GrowsThreads(s, t, Over, s');
      GrowsProved(s, s');
      NotedTraces(s, t, Over, s');
    }
  }

  // A decision on a sound snapshot is sound: the deadline follows the execution start, and a completion by duration
  // waited for the whole of it.
  lemma DecideSound(s: State, gen: nat, seen: Snapshot, i: Input)
    requires Proper(i) && Running(seen.lifecycle) && Sound(s, seen, gen) && Saw(s.limits, seen, i) <= s.observed
    ensures match Decide(s.limits, seen, i)
      case Nothing => true
      case Finish(l, r, _) => !Running(l) && l != Idle && Proved(s, gen, r)
      case Observe(l, r, _, _, _, execution, deadline) =>
        Running(l) && Sound(s, seen.(reason := r, execution := execution, deadline := deadline), gen)
  {
  }

  lemma SawKeeps(s: State, more: set<(nat, int)>)
    requires Inv(s)
    ensures Inv(s.(observed := s.observed + more))
  {
    var s' := s.(observed := s.observed + more);
    forall t | t in s.threads ensures SoundThread(s', t, s.threads[t]) {
      assert SoundThread(s, t, s.threads[t]);
    }
    forall id: nat ensures Traced(s', id) {
      assert Traced(s, id);
    }
  }

  lemma DecidedKeeps(s: State, t: Tid, gen: nat, seen: Snapshot, i: Input, now: int)
    requires Inv(s) && t in s.threads && s.threads[t] == Stepping(gen, seen) && Proper(i)
    ensures Inv(Decided(s, t, gen, seen, i, now))
  {
    var s1 := s.(observed := s.observed + Saw(s.limits, seen, i));
    SawKeeps(s, Saw(s.limits, seen, i));
    FreshNotFinisher(s1, t);
    if Running(seen.lifecycle) {
      assert SoundThread(s1, t, s1.threads[t]);
      DecideSound(s1, gen, seen, i);
    }
    match Decide(s.limits, seen, i)
    case Nothing => QuietKeeps(s1, t, Over, Put(s1, t, Over));
    case Finish(l, r, measured) => FinishedKeeps(s1, t, Some(gen), l, r, l != Cancelled, measured, now);
    case Observe(_, _, _, _, _, _, _) => ObservedKeeps(s1, t, gen, Decide(s.limits, seen, i));
  }

  // The finisher's own steps: its behavior's trace moves on, every other stays.
  lemma FinisherTraces(s: State, t: Tid, id: nat, th: Thread, e: Entry, s': State)
    requires AllTraced(s) && t in s.threads && (s.threads[t].Stopping? || s.threads[t].Recording?)
    requires s.threads[t].id == id
    requires id in s.finishedBy && s.finishedBy[id] == t
    requires s'.threads == s.threads[t := th] && s'.finishedBy == s.finishedBy && s'.log == s.log + [e]
    requires (e.Stop? || e.Ended?) && e.id == id
    requires TraceFits(Trace(s.log, id) + [e], th, id)
    ensures AllTraced(s')
  {
    forall x: nat ensures Traced(s', x) {
      assert Traced(s, x);
      TraceGrows(s.log, e, x);
    }
  }

  lemma StopKeeps(s: State, t: Tid, m: Move, s': State)
    requires Inv(s) && t in s.threads && s.threads[t].Stopping? && ThreadMove(s, t, s.threads[t], m, s')
    ensures Inv(s')
  {
    var th := s.threads[t];
    assert SoundThread(s, t, th) && Traced(s, th.id);
    FinisherTraces(s, t, th.id, s'.threads[t], Stop(th.id, m.outcome), s');
    GrowsThreads(s, t, s'.threads[t], s');
    GrowsProved(s, s');
  }

  lemma RecordKeeps(s: State, t: Tid, m: Move, s': State)
    requires Inv(s) && t in s.threads && s.threads[t].Recording? && ThreadMove(s, t, s.threads[t], m, s')
    ensures Inv(s')
  {
    var th := s.threads[t];
    assert SoundThread(s, t, th) && Traced(s, th.id);
    FinisherTraces(s, t, th.id, Over, s'.log[|s.log|], s');
    GrowsThreads(s, t, Over, s');
    GrowsProved(s, s');
  }

  lemma NotedKeeps(s: State, t: Tid, e: Entry)
    requires Inv(s) && NotFinisher(s, t) && (e.Intent? || e.Noted?)
    ensures Inv(Put(s, t, Over).(log := s.log + [e]))
  {
    var s' := Put(s, t, Over).(log := s.log + [e]);
    GrowsThreads(s, t, Over, s');
    GrowsProved(s, s');
    NotedTraces(s, t, Over, s');
  }

  lemma FreshKeeps(s: State, t: Tid, m: Move, s': State)
    requires Inv(s) && t !in s.threads && FreshMove(s, t, m, s')
    ensures Inv(s')
  {
    FreshNotFinisher(s, t);
    match m
    case Refuse => QuietKeeps(s, t, Over, s');
    case Install(_, _, _, _) => InstalledKeeps(s, t, m);
    case Capture => QuietKeeps(s, t, Stepping(s.generation, s.snap), s');
    case Revoke(stop, now) => FinishedKeeps(s, t, None, Cancelled, Given(1), stop, None, now);
    case Acts(gen) => if gen == s.generation { NotedKeeps(s, t, Intent(gen)); } else { QuietKeeps(s, t, Over, s'); }
    case ActionEnds(id) => NotedKeeps(s, t, Noted(id));
  }

  lemma LaunchKeeps(s: State, t: Tid, m: Move, s': State)
    requires Inv(s) && t in s.threads && s.threads[t].Launching? && ThreadMove(s, t, s.threads[t], m, s')
    ensures Inv(s')
  {
    FreshNotFinisher(s, t);
    var id := s.threads[t].id;
    match m
    case Accept(command, now) => AcceptedKeeps(s, t, id, command, now);
    case StartEnds(l, now) => FinishedKeeps(s, t, Some(id), l, Given(0), l != Cancelled, None, now);
    case StartRaises(now) => FinishedKeeps(s, t, Some(id), Failed, StartFailed, true, None, now);
  }

  lemma StepKeeps(s: State, t: Tid, m: Move, s': State)
    requires Inv(s) && Step(s, t, m, s')
    ensures Inv(s')
  {
    if t !in s.threads {
      FreshKeeps(s, t, m, s');
    } else {
      match s.threads[t]
      case Launching(_) => LaunchKeeps(s, t, m, s');
      case Stepping(gen, seen) => DecidedKeeps(s, t, gen, seen, m.input, m.now);
      case Stopping(_, _) => StopKeeps(s, t, m, s');
      case Recording(_, _, _) => RecordKeeps(s, t, m, s');
    }
  }

  // ---------- runs ----------

  ghost predicate Next(s: State, s': State) {
    exists t, m :: Step(s, t, m, s')
  }

  ghost predicate NextAt(run: seq<State>, i: nat) {
    i + 1 < |run| ==> Next(run[i], run[i + 1])
  }

  ghost predicate IsRun(run: seq<State>) {
    run != [] && Init(run[0]) && forall i: nat :: NextAt(run, i)
  }

  lemma {:induction false} RunKeeps(run: seq<State>, k: nat)
    requires IsRun(run) && k < |run|
    ensures Inv(run[k])
  {
    if k > 0 {
      RunKeeps(run, k - 1);
      assert NextAt(run, k - 1);
      var t, m :| Step(run[k - 1], t, m, run[k]);
      StepKeeps(run[k - 1], t, m, run[k]);
    }
  }

  // A behavior that was started and has no finisher at work has exactly one terminal event, and a completion was
  // recorded after its STOP, exactly when that STOP did not raise; a running behavior has none.
  lemma OneTerminalEvent(run: seq<State>, k: nat, id: nat)
    requires IsRun(run) && k < |run| && id in run[k].requested
    ensures var s := run[k];
      && (id in s.finishedBy <==> !(Running(s.snap.lifecycle) && s.snap.id == id))
      && (id !in s.finishedBy ==> Trace(s.log, id) == [])
      && (id in s.finishedBy ==> s.finishedBy[id] in s.threads)
      && (id in s.finishedBy && s.threads[s.finishedBy[id]].Over? ==> Settled(Trace(s.log, id)))
  {
    RunKeeps(run, k);
    assert Traced(run[k], id);
  }

  // A completion by duration: the behavior asked for it, its execution start was seen in its own mission's status,
  // and the clock had passed that start by the whole requested duration.
  lemma DurationReachedMeans(run: seq<State>, k: nat, i: nat)
    requires IsRun(run) && k < |run| && i < |run[k].log|
    requires run[k].log[i].Ended? && run[k].log[i].reason.RequestedDuration?
    ensures var s, id, r := run[k], run[k].log[i].id, run[k].log[i].reason;
      id in s.requested && s.requested[id].onDuration && (id, r.since) in s.observed
      && r.since + s.requested[id].duration <= r.at
  {
    RunKeeps(run, k);
    assert Proved(run[k], run[k].log[i].id, run[k].log[i].reason);
  }

  // Whatever a start or a step returns late, after its behavior ended, changes nothing.
  lemma LateResultsChangeNothing(run: seq<State>, k: nat, t: Tid, m: Move, s': State)
    requires IsRun(run) && k < |run| && t in run[k].threads && Step(run[k], t, m, s')
    requires match run[k].threads[t]
      case Launching(id) => id != run[k].snap.id || !Running(run[k].snap.lifecycle)
      case Stepping(gen, _) => gen != run[k].snap.id || !Running(run[k].snap.lifecycle)
      case _ => false
    ensures s'.snap == run[k].snap && s'.generation == run[k].generation && s'.log == run[k].log
    ensures s'.threads == run[k].threads[t := Over]
  {
    RunKeeps(run, k);
  }

  // A program acts only while its own behavior runs.
  lemma IntentsWhileRunning(run: seq<State>, k: nat, t: Tid, m: Move, s': State, id: nat)
    requires IsRun(run) && k < |run| && Step(run[k], t, m, s') && s'.log == run[k].log + [Intent(id)]
    ensures Running(run[k].snap.lifecycle) && run[k].snap.id == id
  {
    var s := run[k];
    RunKeeps(run, k);
    assert s'.log[|s.log|] == Intent(id);
    if t in s.threads {
      NoIntent(s, t, m, s');
    }
  }

  lemma NoIntent(s: State, t: Tid, m: Move, s': State)
    requires t in s.threads && ThreadMove(s, t, s.threads[t], m, s') && |s'.log| == |s.log| + 1
    ensures !s'.log[|s.log|].Intent?
  {
  }

  // ---------- revisions ----------

  lemma DecidedRevision(s: State, t: Tid, gen: nat, seen: Snapshot, i: Input, now: int)
    ensures var s' := Decided(s, t, gen, seen, i, now); s'.snap == s.snap || s'.snap.revision > s.snap.revision
  {
  }

  lemma StepRevision(s: State, t: Tid, m: Move, s': State)
    requires Step(s, t, m, s')
    ensures s'.snap == s.snap || s'.snap.revision > s.snap.revision
  {
    if t in s.threads && s.threads[t].Stepping? {
      DecidedRevision(s, t, s.threads[t].gen, s.threads[t].seen, m.input, m.now);
    }
  }

  // Every change of the snapshot raises its revision, so a revision names one snapshot.
  lemma {:induction false} RevisionsIdentify(run: seq<State>, j: nat, k: nat)
    requires IsRun(run) && j <= k < |run|
    ensures run[k].snap.revision >= run[j].snap.revision
    ensures run[k].snap.revision == run[j].snap.revision ==> run[k].snap == run[j].snap
  {
    if j < k {
      RevisionsIdentify(run, j, k - 1);
      assert NextAt(run, k - 1);
      var t, m :| Step(run[k - 1], t, m, run[k]);
      StepRevision(run[k - 1], t, m, run[k]);
    }
  }

  // ---------- when a recorded start of execution changes ----------

  // The start of execution that a step reads.
  function StartRead(seen: Snapshot, i: Input): Option<int> {
    if i.status.Read? && i.program.Update? && seen.onDuration && Executing(seen, i.status, i.program.lifecycle)
    then i.status.stamp else None
  }

  // A step of the current generation that captured another start than the recorded one, or none; it decides to observe,
  // and what it read is not the recorded start again.
  predicate Overwrites(s: State, t: Tid, m: Move) {
    && t in s.threads && s.threads[t].Stepping? && s.threads[t].gen == s.generation && m.Decides?
    && var seen := s.threads[t].seen;
    && seen.execution != s.snap.execution
    && Decide(s.limits, seen, m.input).Observe?
    && (seen.execution.None? ==> StartRead(seen, m.input) != s.snap.execution)
  }

  lemma DecidedStart(limits: Limits, seen: Snapshot, i: Input)
    requires Decide(limits, seen, i).Observe?
    ensures Decide(limits, seen, i).execution == if seen.execution.None? then StartRead(seen, i) else seen.execution
    ensures Running(Decide(limits, seen, i).lifecycle)
  {
  }

  lemma DecidedOverwrites(s: State, t: Tid, gen: nat, seen: Snapshot, i: Input, now: int)
    requires Running(s.snap.lifecycle)
    ensures var s' := Decided(s, t, gen, seen, i, now);
      (s'.generation == s.generation && s'.snap.execution != s.snap.execution)
      <==> gen == s.generation && Decide(s.limits, seen, i).Observe?
           && Decide(s.limits, seen, i).execution != s.snap.execution
  {
  }

  lemma OthersKeepStart(s: State, t: Tid, m: Move, s': State)
    requires Inv(s) && Step(s, t, m, s') && Running(s.snap.lifecycle) && !(t in s.threads && s.threads[t].Stepping?)
    ensures s'.generation == s.generation ==> s'.snap.execution == s.snap.execution
  {
    if t in s.threads {
      assert SoundThread(s, t, s.threads[t]);
    }
  }

  // The exact condition for one step: while a behavior runs, its recorded start changes if and only if the step
  // overwrites it.
  lemma OverwriteIff(s: State, t: Tid, m: Move, s': State)
    requires Inv(s) && Step(s, t, m, s') && Running(s.snap.lifecycle) && s.snap.execution.Some?
    ensures (s'.generation == s.generation && s'.snap.execution != s.snap.execution) <==> Overwrites(s, t, m)
  {
    if t in s.threads && s.threads[t].Stepping? {
      var seen := s.threads[t].seen;
      DecidedOverwrites(s, t, s.threads[t].gen, seen, m.input, m.now);
      if Decide(s.limits, seen, m.input).Observe? {
        DecidedStart(s.limits, seen, m.input);
      }
    } else {
      OthersKeepStart(s, t, m, s');
    }
  }

  ghost predicate OverwrittenAt(run: seq<State>, i: nat) {
    i + 1 < |run| && exists t, m :: Step(run[i], t, m, run[i + 1]) && Overwrites(run[i], t, m)
  }

  lemma OverwrittenIff(run: seq<State>, i: nat)
    requires IsRun(run) && i + 1 < |run| && run[i].generation == run[i + 1].generation
    requires Running(run[i].snap.lifecycle) && run[i].snap.execution.Some?
    ensures run[i + 1].snap.execution != run[i].snap.execution <==> OverwrittenAt(run, i)
  {
    RunKeeps(run, i);
    assert NextAt(run, i);
    var t, m :| Step(run[i], t, m, run[i + 1]);
    OverwriteIff(run[i], t, m, run[i + 1]);
    forall x, y | Step(run[i], x, y, run[i + 1]) && Overwrites(run[i], x, y)
      ensures run[i + 1].snap.execution != run[i].snap.execution
    {
      OverwriteIff(run[i], x, y, run[i + 1]);
    }
  }

  ghost predicate StartKept(run: seq<State>, j: nat, k: nat)
    requires j <= k < |run|
  {
    forall i: nat | j <= i <= k :: run[i].snap.execution == run[j].snap.execution
  }

  // The exact condition for a run: a start of execution on record stays for the life of the behavior if and only if no
  // step overwrites it.
  lemma {:induction false} StartKeptIff(run: seq<State>, j: nat, k: nat)
    requires IsRun(run) && j <= k < |run| && run[j].generation == run[k].generation
    requires Running(run[j].snap.lifecycle) && run[j].snap.execution.Some?
    ensures StartKept(run, j, k) <==> forall i: nat | j <= i < k :: !OverwrittenAt(run, i)
  {
    if j < k {
      GenerationBetween(run, j, k - 1, k);
      StartKeptIff(run, j, k - 1);
      if StartKept(run, j, k - 1) {
        SameGeneration(run, j, k - 1);
        OverwrittenIff(run, k - 1);
        StartKeptOneMore(run, j, k);
      }
    }
  }

  lemma StartKeptOneMore(run: seq<State>, j: nat, k: nat)
    requires j < k < |run| && StartKept(run, j, k - 1)
    ensures StartKept(run, j, k) <==> run[k].snap.execution == run[k - 1].snap.execution
  {
  }

  // The deadline of a running behavior is its start, of execution once that is on record, and the duration asked for.
  lemma DeadlineIs(run: seq<State>, k: nat)
    requires IsRun(run) && k < |run| && Running(run[k].snap.lifecycle)
    ensures run[k].snap.id in run[k].requested && Timed(run[k].snap, run[k].requested[run[k].snap.id])
  {
    RunKeeps(run, k);
  }

  // ---------- the deadline moves at most once when steps do not overlap ----------

  ghost predicate Serial(s: State) {
    forall t, x | t in s.threads && x in s.threads && s.threads[t].Stepping? && s.threads[x].Stepping? :: t == x
  }

  // The step at work saw the present start of execution.
  ghost predicate UpToDate(s: State) {
    forall t | t in s.threads && s.threads[t].Stepping? && s.threads[t].gen == s.generation ::
      Running(s.snap.lifecycle) ==>
        s.threads[t].seen.execution == s.snap.execution && s.threads[t].seen.deadline == s.snap.deadline
  }

  // What a step does to the deadline of a behavior that keeps running.
  predicate DeadlineFrom(s: State, th: Thread, s': State) {
    || s'.generation > s.generation
    || !Running(s'.snap.lifecycle)
    || (s'.snap.execution == s.snap.execution && s'.snap.deadline == s.snap.deadline)
    || (th.Stepping? && th.gen == s.generation && th.seen.execution.None?)
  }

  lemma DecidedDeadline(s: State, t: Tid, gen: nat, seen: Snapshot, i: Input, now: int)
    requires gen == s.generation && Running(s.snap.lifecycle) ==>
      seen.execution == s.snap.execution && seen.deadline == s.snap.deadline
    ensures DeadlineFrom(s, Stepping(gen, seen), Decided(s, t, gen, seen, i, now))
    ensures Decided(s, t, gen, seen, i, now).generation >= s.generation
    ensures Running(Decided(s, t, gen, seen, i, now).snap.lifecycle) ==> Running(s.snap.lifecycle)
    ensures var s' := Decided(s, t, gen, seen, i, now);
            s'.threads == s.threads[t := s'.threads[t]] && !s'.threads[t].Stepping?
  {
  }

  lemma ThreadDeadline(s: State, t: Tid, m: Move, s': State)
    requires t in s.threads && !s.threads[t].Stepping? && ThreadMove(s, t, s.threads[t], m, s')
    ensures DeadlineFrom(s, s.threads[t], s') && s'.generation >= s.generation
    ensures Running(s'.snap.lifecycle) ==> Running(s.snap.lifecycle)
    ensures s'.threads == s.threads[t := s'.threads[t]] && !s'.threads[t].Stepping?
  {
  }

  lemma FreshDeadline(s: State, t: Tid, m: Move, s': State)
    requires t !in s.threads && FreshMove(s, t, m, s')
    ensures DeadlineFrom(s, Over, s') && s'.generation >= s.generation
    ensures s'.generation > s.generation || (Running(s'.snap.lifecycle) ==> Running(s.snap.lifecycle))
    ensures s'.threads == s.threads[t := s'.threads[t]]
    ensures s'.threads[t].Stepping? ==> s' == Put(s, t, Stepping(s.generation, s.snap))
  {
  }

  // All three together.
  lemma StepDeadline(s: State, t: Tid, m: Move, s': State)
    requires UpToDate(s) && Step(s, t, m, s')
    ensures DeadlineFrom(s, if t in s.threads then s.threads[t] else Over, s') && s'.generation >= s.generation
    ensures s'.generation > s.generation || (Running(s'.snap.lifecycle) ==> Running(s.snap.lifecycle))
    ensures t in s'.threads && s'.threads == s.threads[t := s'.threads[t]]
    ensures s'.threads[t].Stepping? ==> s' == Put(s, t, Stepping(s.generation, s.snap))
  {
    if t !in s.threads {
      FreshDeadline(s, t, m, s');
    } else if s.threads[t].Stepping? {
      DecidedDeadline(s, t, s.threads[t].gen, s.threads[t].seen, m.input, m.now);
    } else {
      ThreadDeadline(s, t, m, s');
    }
  }

  lemma StepUpToDate(s: State, t: Tid, m: Move, s': State)
    requires ThreadsSound(s) && Serial(s) && UpToDate(s) && Step(s, t, m, s')
    ensures UpToDate(s')
  {
    StepDeadline(s, t, m, s');
    forall x | x in s'.threads && s'.threads[x].Stepping? && s'.threads[x].gen == s'.generation
      && Running(s'.snap.lifecycle)
      ensures s'.threads[x].seen.execution == s'.snap.execution && s'.threads[x].seen.deadline == s'.snap.deadline
    {
      if x != t {
        assert SoundThread(s, x, s.threads[x]);
      }
    }
  }

  lemma {:induction false} SerialUpToDate(run: seq<State>, k: nat)
    requires IsRun(run) && k < |run| && forall i | 0 <= i < |run| :: Serial(run[i])
    ensures UpToDate(run[k])
  {
    if k > 0 {
      SerialUpToDate(run, k - 1);
      RunKeeps(run, k - 1);
      assert NextAt(run, k - 1);
      var t, m :| Step(run[k - 1], t, m, run[k]);
      StepUpToDate(run[k - 1], t, m, run[k]);
    }
  }

  lemma DecidedGrows(s: State, t: Tid, gen: nat, seen: Snapshot, i: Input, now: int)
    ensures var s' := Decided(s, t, gen, seen, i, now); s.generation <= s'.generation && s'.requested == s.requested
  {
  }

  lemma StepGrows(s: State, t: Tid, m: Move, s': State)
    requires Step(s, t, m, s')
    ensures s.generation <= s'.generation && forall id | id in s.requested :: id in s'.requested
  {
    if t in s.threads && s.threads[t].Stepping? {
      DecidedGrows(s, t, s.threads[t].gen, s.threads[t].seen, m.input, m.now);
    }
  }

  lemma {:induction false} GenerationsGrow(run: seq<State>, j: nat, k: nat)
    requires IsRun(run) && j <= k < |run|
    ensures Later(run[j], run[k])
  {
    if j < k {
      GenerationsGrow(run, j, k - 1);
      assert NextAt(run, k - 1);
      var t, m :| Step(run[k - 1], t, m, run[k]);
      StepGrows(run[k - 1], t, m, run[k]);
    }
  }

  // A behavior runs exactly while its identity is the generation.
  lemma RunsIff(run: seq<State>, k: nat)
    requires IsRun(run) && k < |run|
    ensures Identified(run[k])
  {
    RunKeeps(run, k);
  }

  predicate Identified(s: State) {
    && (Running(s.snap.lifecycle) <==> s.generation in s.requested)
    && (Running(s.snap.lifecycle) ==> s.snap.id == s.generation)
  }

  ghost predicate Later(s: State, s': State) {
    s.generation <= s'.generation && forall id | id in s.requested :: id in s'.requested
  }

  lemma SameGeneration(run: seq<State>, j: nat, k: nat)
    requires IsRun(run) && j <= k < |run| && Running(run[j].snap.lifecycle) && run[j].generation == run[k].generation
    ensures Running(run[k].snap.lifecycle) && run[k].snap.id == run[j].snap.id
  {
    RunsIff(run, j);
    RunsIff(run, k);
    GenerationsGrow(run, j, k);
  }

  lemma GenerationBetween(run: seq<State>, j: nat, m: nat, k: nat)
    requires IsRun(run) && j <= m <= k < |run| && run[j].generation == run[k].generation
    ensures run[m].generation == run[k].generation
  {
    GenerationsGrow(run, j, m);
    GenerationsGrow(run, m, k);
  }

  lemma DeadlineStep(run: seq<State>, k: nat)
    requires IsRun(run) && 0 < k < |run| && forall i | 0 <= i < |run| :: Serial(run[i])
    requires run[k - 1].generation == run[k].generation && run[k - 1].snap.execution.Some?
    requires Running(run[k - 1].snap.lifecycle) && Running(run[k].snap.lifecycle)
    ensures run[k].snap.execution == run[k - 1].snap.execution && run[k].snap.deadline == run[k - 1].snap.deadline
  {
    SerialUpToDate(run, k - 1);
    assert NextAt(run, k - 1);
    var t, m :| Step(run[k - 1], t, m, run[k]);
    StepDeadline(run[k - 1], t, m, run[k]);
  }

  // Without overlapping steps the deadline of a behavior moves at most once: when its execution is first seen.
  lemma {:induction false} DeadlineMovesOnce(run: seq<State>, j: nat, k: nat)
    requires IsRun(run) && j <= k < |run| && forall i | 0 <= i < |run| :: Serial(run[i])
    requires Running(run[j].snap.lifecycle) && run[j].generation == run[k].generation && run[j].snap.execution.Some?
    ensures Running(run[k].snap.lifecycle) && run[k].snap.id == run[j].snap.id
    ensures run[k].snap.execution == run[j].snap.execution && run[k].snap.deadline == run[j].snap.deadline
  {
    SameGeneration(run, j, k);
    if j < k {
      GenerationBetween(run, j, k - 1, k);
      DeadlineMovesOnce(run, j, k - 1);
      DeadlineStep(run, k);
    }
  }

  // ---------- two runs ----------

  lemma Extend(run: seq<State>, t: Tid, m: Move, s': State) returns (run': seq<State>)
    requires IsRun(run) && Step(run[|run| - 1], t, m, s')
    ensures IsRun(run') && run' == run + [s']
  {
    run' := run + [s'];
    assert Next(run[|run| - 1], s');
    forall i: nat ensures NextAt(run', i) {
      assert NextAt(run, i);
    }
  }

  const BLANK := Snapshot(0, Idle, NoReason, false, false, 0, 0, None, None, 0, 0, 0)

  // A started behavior that may complete on its duration of 10, with command 7 accepted.
  const LAUNCHED := Snapshot(1, Starting, ActionStarting, false, true, 0, 10, None, Some(7), 0, 0, 2)

  lemma Launched() returns (run: seq<State>)
    ensures IsRun(run)
    ensures run[|run| - 1] == State(Limits(100, 100), map[0 := Over], 1, LAUNCHED, [Began(1), Noted(1)],
                                    map[1 := Request(0, 10, true)], {}, map[])
  {
    var s := State(Limits(100, 100), map[], 0, BLANK, [], map[], {}, map[]);
    run := [s];
    var m := Install(false, 10, true, 0);
    run := Extend(run, 0, m, Installed(s, 0, m));
    s := run[1];
    run := Extend(run, 0, Accept(7, 0), Accepted(s, 0, 1, 7, 0));
  }

  function Seen(stamp: int): Input {
    Input(stamp, true, stamp, Read(Some(stamp), true, false, true, true, false, false), Update(Active, Given(2), None))
  }

  // Two overlapping steps move the deadline twice.
  lemma OverlapMovesDeadlineTwice() returns (run: seq<State>)
    ensures IsRun(run) && |run| > 1
    ensures var s, s' := run[|run| - 2], run[|run| - 1];
      && Running(s.snap.lifecycle) && Running(s'.snap.lifecycle) && s.snap.id == s'.snap.id
      && s.snap.execution == Some(1) && s.snap.deadline == 11
      && s'.snap.execution == Some(3) && s'.snap.deadline == 13
  {
    run := Launched();
    var s := run[|run| - 1];
    run := Extend(run, 1, Capture, Put(s, 1, Stepping(1, LAUNCHED)));
    s := run[|run| - 1];
    run := Extend(run, 2, Capture, Put(s, 2, Stepping(1, LAUNCHED)));
    s := run[|run| - 1];
    run := Extend(run, 1, Decides(Seen(1), 1), Decided(s, 1, 1, LAUNCHED, Seen(1), 1));
    s := run[|run| - 1];
    run := Extend(run, 2, Decides(Seen(3), 3), Decided(s, 2, 1, LAUNCHED, Seen(3), 3));
  }

  const DONE := LAUNCHED.(lifecycle := Completed, reason := Given(2), measurement := 1, observation := 1, revision := 3)

  lemma CompletingStop() returns (run: seq<State>)
    ensures IsRun(run)
    ensures run[|run| - 1].log == [Began(1), Noted(1), Stop(1, Interrupted)]
    ensures 1 in run[|run| - 1].threads && run[|run| - 1].threads[1] == Recording(1, DONE, Interrupted)
  {
    run := Launched();
    var s := run[|run| - 1];
    run := Extend(run, 1, Capture, Put(s, 1, Stepping(1, LAUNCHED)));
    s := run[|run| - 1];
    var i := Seen(1).(program := Update(Completed, Given(2), None));
    run := Extend(run, 1, Decides(i, 1), Decided(s, 1, 1, LAUNCHED, i, 1));
    s := run[|run| - 1];
    run := Extend(run, 1, StopEnds(Interrupted),
                  Put(s, 1, Recording(1, DONE, Interrupted)).(log := s.log + [Stop(1, Interrupted)]));
  }

  // A STOP that an interrupt ends, rather than an ordinary error, is recorded as a completion all the same.
  lemma InterruptedStopCompletes() returns (run: seq<State>)
    ensures IsRun(run)
    ensures Trace(run[|run| - 1].log, 1) == [Stop(1, Interrupted), Ended(1, Completed, Given(2))]
  {
    run := CompletingStop();
    var s := run[|run| - 1];
    run := Extend(run, 1, Record(2), Recorded(s, 1, DONE, Interrupted, 2));
    TraceGrows([], Began(1), 1);
    TraceGrows([Began(1)], Noted(1), 1);
    TraceGrows([Began(1), Noted(1)], Stop(1, Interrupted), 1);
    TraceGrows([Began(1), Noted(1), Stop(1, Interrupted)], Ended(1, Completed, Given(2)), 1);
  }

  function Unseen(stamp: int): Input {
    Seen(stamp).(status := Read(Some(stamp), true, false, false, false, false, false))
  }

  lemma TwoCaptured() returns (run: seq<State>)
    ensures IsRun(run)
    ensures run[|run| - 1]
            == State(Limits(100, 100), map[0 := Over, 1 := Stepping(1, LAUNCHED), 2 := Stepping(1, LAUNCHED)],
                                    1, LAUNCHED, [Began(1), Noted(1)], map[1 := Request(0, 10, true)], {}, map[])
  {
    run := Launched();
    run := Extend(run, 1, Capture, Put(run[|run| - 1], 1, Stepping(1, LAUNCHED)));
    run := Extend(run, 2, Capture, Put(run[|run| - 1], 2, Stepping(1, LAUNCHED)));
  }

  // A late step that saw no execution erases the recorded start, and the deadline is back where it was.
  lemma LateStepErasesStart() returns (run: seq<State>)
    ensures IsRun(run) && |run| > 1
    ensures var s, s' := run[|run| - 2], run[|run| - 1];
      && Running(s'.snap.lifecycle) && s.snap.id == s'.snap.id
      && s.snap.execution == Some(1) && s.snap.deadline == 11 && s'.snap.execution.None? && s'.snap.deadline == 10
  {
    run := TwoCaptured();
    var s := run[|run| - 1];
    run := Extend(run, 1, Decides(Seen(1), 1), Decided(s, 1, 1, LAUNCHED, Seen(1), 1));
    s := run[|run| - 1];
    run := Extend(run, 2, Decides(Unseen(2), 2), Decided(s, 2, 1, LAUNCHED, Unseen(2), 2));
  }

  // A snapshot with a start on record, as the first of two steps writes it.
  const FIRST := LAUNCHED.(lifecycle := Active, reason := Given(2), measurement := 1, observation := 1, revision := 3,
                           execution := Some(1), deadline := 11)

  lemma ThirdCaptured() returns (run: seq<State>)
    ensures IsRun(run)
    ensures var s := run[|run| - 1];
      && s.snap == FIRST && s.generation == 1 && s.limits == Limits(100, 100)
      && s.threads == map[0 := Over, 1 := Over, 2 := Stepping(1, LAUNCHED), 3 := Stepping(1, FIRST)]
  {
    run := TwoCaptured();
    var s := run[|run| - 1];
    run := Extend(run, 1, Decides(Seen(1), 1), Decided(s, 1, 1, LAUNCHED, Seen(1), 1));
    s := run[|run| - 1];
    run := Extend(run, 3, Capture, Put(s, 3, Stepping(1, FIRST)));
  }

  // A captured start that was overwritten comes back with the step that captured it.
  lemma StaleStartComesBack() returns (run: seq<State>)
    ensures IsRun(run) && |run| > 1
    ensures var s, s' := run[|run| - 2], run[|run| - 1];
      && Running(s'.snap.lifecycle) && s.snap.id == s'.snap.id
      && s.snap.execution == Some(3) && s.snap.deadline == 13 && s'.snap.execution == Some(1) && s'.snap.deadline == 11
  {
    run := ThirdCaptured();
    var s := run[|run| - 1];
    run := Extend(run, 2, Decides(Seen(3), 3), Decided(s, 2, 1, LAUNCHED, Seen(3), 3));
    s := run[|run| - 1];
    run := Extend(run, 3, Decides(Seen(4), 4), Decided(s, 3, 1, FIRST, Seen(4), 4));
  }
}
