/**
 The fixed-grid scheduler of the control loop.

 The environment is a finite prefix of what the loop reads: clock readings, stop requests, and what each tick came
 to.  The loop ends as `Waiting` when the prefix is used up, so that every statement is about all prefixes of all
 runs.  The device reader, which could replace the tick time, is absent.
*/
module ControlScheduler {
  import opened Options

  datatype Outcome = Fine | Faulty(final: bool) | Raises

  datatype Environment = Environment(clock: seq<nat>, stops: seq<bool>, outcomes: seq<Outcome>)

  datatype End = Waiting | Backwards | NotAdvanced | Stopped | TickError | RuntimeFault

  datatype Tick = Tick(deadline: nat, at: nat)

  datatype Capture = Capture(at: nat, scheduled: bool)

  // The k-th point of a grid.
  function Grid(first: nat, period: nat, k: nat): nat {
    if k == 0 then first else Grid(first, period, k - 1) + period
  }

  lemma {:induction false} GridJumps(first: nat, period: nat, k: nat, m: nat)
    ensures Grid(first, period, k + m) == Grid(first, period, k) + m * period
  {
    if m > 0 {
      GridJumps(first, period, k, m - 1);
      assert m * period == (m - 1) * period + period;
    }
  }

  lemma {:induction false} GridGrows(first: nat, period: nat, j: nat, k: nat)
    requires j <= k
    ensures Grid(first, period, j) <= Grid(first, period, k)
  {
    if j < k {
      GridGrows(first, period, j, k - 1);
    }
  }

  // How many points of the grid a point in time leaves behind.
  function Missed(from: nat, now: nat, period: nat): nat
    requires period > 0 && from <= now
  {
    (now - from) / period + 1
  }

  lemma MissedLands(from: nat, now: nat, period: nat)
    requires period > 0 && from <= now
    ensures var m := Missed(from, now, period); from + m * period > now && from + m * period <= now + period
  {
    var q, r := (now - from) / period, (now - from) % period;
    assert now - from == period * q + r;
    assert (q + 1) * period == period * q + period;
  }

  // Slot `next` is the least one after `slot` whose deadline lies after `completed`.
  predicate LeastAfter(first: nat, period: nat, slot: nat, completed: nat, next: nat) {
    && slot < next && completed < Grid(first, period, next)
    && (next > slot + 1 ==> Grid(first, period, next - 1) <= completed)
  }

  lemma JumpIsLeast(first: nat, period: nat, slot: nat, completed: nat)
    requires period > 0 && Grid(first, period, slot + 1) <= completed
    ensures var d := Grid(first, period, slot + 1); var m := Missed(d, completed, period);
      LeastAfter(first, period, slot, completed, slot + 1 + m) && Grid(first, period, slot + 1 + m) == d + m * period
  {
    var d := Grid(first, period, slot + 1);
    var m := Missed(d, completed, period);
    MissedLands(d, completed, period);
    GridJumps(first, period, slot + 1, m);
  }

  // ---------- what the loop keeps ----------

  // Deadlines stay on the grid and strictly grow, each tick runs at or after its own and before the next.
  predicate OnGrid(ticks: seq<Tick>, slots: seq<nat>, first: nat, period: nat) {
    && |ticks| == |slots|
    && (forall i | 0 <= i < |ticks| ::
          ticks[i].deadline == Grid(first, period, slots[i]) && ticks[i].deadline <= ticks[i].at)
    && (forall i, j | 0 <= i < j < |ticks| :: slots[i] < slots[j] && ticks[i].at < ticks[j].deadline)
  }

  lemma OnGridGrows(ticks: seq<Tick>, slots: seq<nat>, first: nat, period: nat, t: Tick, slot: nat)
    requires OnGrid(ticks, slots, first, period)
    requires t.deadline == Grid(first, period, slot) && t.deadline <= t.at
    requires ticks != [] ==> slots[|slots| - 1] < slot && ticks[|ticks| - 1].at < t.deadline
    ensures OnGrid(ticks + [t], slots + [slot], first, period)
  {
  }

  // The scheduled captures; the n-th comes at least n - 1 record periods after the first.
  predicate Spaced(times: seq<nat>, period: nat) {
    forall i | 0 <= i < |times| :: Grid(times[0], period, i) <= times[i]
  }

  function Scheduled(captures: seq<Capture>): seq<nat> {
    if captures == [] then []
    else
      var c := captures[|captures| - 1];
      Scheduled(captures[..|captures| - 1]) + if c.scheduled then [c.at] else []
  }

  lemma ScheduledGrows(captures: seq<Capture>, c: Capture)
    ensures Scheduled(captures + [c]) == Scheduled(captures) + if c.scheduled then [c.at] else []
  {
    assert (captures + [c])[..|captures|] == captures;
  }

  // The time of the next scheduled capture, on the record grid from the first.
  ghost predicate RecordOnGrid(next: Option<nat>, times: seq<nat>, period: nat) {
    if next.None? then times == []
    else times != [] && exists m: nat :: m >= |times| && next.value == Grid(times[0], period, m)
  }

  function NextRecord(next: Option<nat>, now: nat, period: nat): nat
    requires period > 0 && (next.Some? ==> next.value <= now)
  {
    if next.None? then now + period else next.value + Missed(next.value, now, period) * period
  }

  lemma RecordGrows(next: Option<nat>, times: seq<nat>, period: nat, now: nat)
    requires period > 0 && Spaced(times, period) && RecordOnGrid(next, times, period)
    requires next.Some? ==> next.value <= now
    ensures Spaced(times + [now], period) && RecordOnGrid(Some(NextRecord(next, now, period)), times + [now], period)
    ensures NextRecord(next, now, period) > now
  {
    if next.None? {
      assert Grid(now, period, 1) == now + period;
    } else {
      var m: nat :| m >= |times| && next.value == Grid(times[0], period, m);
      var missed := Missed(next.value, now, period);
      GridGrows(times[0], period, |times|, m);
      GridJumps(times[0], period, m, missed);
      MissedLands(next.value, now, period);
      assert m + missed >= |times| + 1;
      assert (times + [now])[0] == times[0];
      assert Grid(times[0], period, m + missed) == NextRecord(next, now, period);
    }
  }

  // ---------- the loop ----------

  function Times(ticks: seq<Tick>): seq<nat> {
    seq(|ticks|, i requires 0 <= i < |ticks| => ticks[i].at)
  }

  // `everyTick` is the highest capture rate, which records every tick.
  datatype Config = Config(period: nat, recordPeriod: nat, recording: bool, everyTick: bool)

  // How far the inputs are used up.
  datatype Reader = Reader(readings: nat, requests: nat, clock: nat)

  // The variables of the loop.  `slot` numbers the next deadline on its grid; `ticks`, `slots` and `captures` are what
  // the loop has done.
  datatype Loop = Loop(reader: Reader, previousTick: Option<nat>, deadline: nat, slot: nat, nextRecord: Option<nat>,
                       ticks: seq<Tick>, slots: seq<nat>, captures: seq<Capture>)

  predicate Within(env: Environment, r: Reader) {
    r.readings <= |env.clock| && r.requests <= |env.stops|
  }

  predicate Ticking(c: Config, first: nat, l: Loop) {
    && OnGrid(l.ticks, l.slots, first, c.period) && l.deadline == Grid(first, c.period, l.slot)
    && (if l.ticks == [] then l.previousTick.None? && l.slot == 0
        else l.previousTick == Some(l.ticks[|l.ticks| - 1].at) && l.slots[|l.slots| - 1] < l.slot
             && l.ticks[|l.ticks| - 1].at <= l.reader.clock && l.ticks[|l.ticks| - 1].at < l.deadline)
  }

  ghost predicate Recording(c: Config, next: Option<nat>, captures: seq<Capture>, ticks: seq<Tick>) {
    if c.everyTick then next.None? && (c.recording ==> Scheduled(captures) == Times(ticks))
    else Spaced(Scheduled(captures), c.recordPeriod) && RecordOnGrid(next, Scheduled(captures), c.recordPeriod)
  }

  ghost predicate Kept(env: Environment, c: Config, first: nat, l: Loop) {
    Within(env, l.reader) && Ticking(c, first, l) && Recording(c, l.nextRecord, l.captures, l.ticks)
  }

  // A reading before the last one ends the loop.
  method Read(env: Environment, r: Reader) returns (r': Reader, end: Option<End>)
    requires Within(env, r)
    ensures Within(env, r') && r'.requests == r.requests && r'.clock >= r.clock
    ensures r'.readings == if end.None? then r.readings + 1 else r.readings
    ensures end.None? <==> r.readings < |env.clock| && env.clock[r.readings] >= r.clock
    ensures end.None? ==> r'.clock == env.clock[r.readings]
    ensures end.None? || end == Some(Waiting) || end == Some(Backwards)
  {
    r', end := r, None;
    if r.readings >= |env.clock| {
      end := Some(Waiting);
    } else if env.clock[r.readings] < r.clock {
      end := Some(Backwards);
    } else {
      r' := r.(readings := r.readings + 1, clock := env.clock[r.readings]);
    }
  }

  method StopRequested(env: Environment, r: Reader) returns (r': Reader, stop: bool, end: Option<End>)
    requires Within(env, r)
    ensures Within(env, r') && r'.clock == r.clock && r'.readings == r.readings
    ensures if r.requests < |env.stops| then end.None? && stop == env.stops[r.requests] && r'.requests == r.requests + 1
            else end == Some(Waiting) && r' == r
  {
    r', stop, end := r, false, None;
    if r.requests >= |env.stops| {
      end := Some(Waiting);
    } else {
      stop := env.stops[r.requests];
      r' := r.(requests := r.requests + 1);
    }
  }

  // `now` is the latest reading, and every earlier one came before the deadline.
  predicate Sleeping(env: Environment, from: nat, to: nat, deadline: nat, now: nat) {
    from < to <= |env.clock| && env.clock[to - 1] == now && forall i | from <= i < to - 1 :: env.clock[i] < deadline
  }

  // `now` is the first reading that reaches the deadline.
  ghost predicate FirstReached(env: Environment, from: nat, deadline: nat, now: nat) {
    deadline <= now && exists to :: Sleeping(env, from, to, deadline, now)
  }

  // Sleep until the deadline, or until a stop is requested.
  method Wait(env: Environment, r: Reader, deadline: nat) returns (r': Reader, shutdown: bool, end: Option<End>)
    requires Within(env, r)
    ensures Within(env, r') && r'.clock >= r.clock && r'.requests >= r.requests
    ensures end.None? ==> r'.requests > r.requests && (shutdown || r'.clock >= deadline)
    ensures end.None? ==> shutdown == env.stops[r'.requests - 1]
    ensures end.None? && !shutdown ==> FirstReached(env, r.readings, deadline, r'.clock)
    ensures end.None? || end == Some(Waiting) || end == Some(Backwards)
  {
    r', shutdown, end := StopRequested(env, r);
    if end.None? {
      r', end := Read(env, r');
    }
    while end.None? && !shutdown && r'.clock < deadline
      invariant Within(env, r') && r'.clock >= r.clock && r'.requests >= r.requests
      invariant end.None? ==> r'.requests > r.requests && shutdown == env.stops[r'.requests - 1]
      invariant end.None? ==> Sleeping(env, r.readings, r'.readings, deadline, r'.clock)
      invariant end.None? || end == Some(Waiting) || end == Some(Backwards)
      decreases |env.stops| - r'.requests, end.None?
    {
      r', shutdown, end := StopRequested(env, r');
      if end.None? && !shutdown {
        assert r'.clock < deadline;
        r', end := Read(env, r');
      }
    }
  }

  predicate Due(c: Config, next: Option<nat>, at: nat) {
    c.recording && (c.everyTick || next.None? || at >= next.value)
  }

  // The record of a tick goes out when it is due, and always on a fault.
  method Observe(c: Config, next: Option<nat>, captures: seq<Capture>, ghost ticks: seq<Tick>, t: Tick, faulty: bool)
    returns (next': Option<nat>, captures': seq<Capture>)
    requires c.recordPeriod > 0 && Recording(c, next, captures, ticks)
    ensures Recording(c, next', captures', ticks + [t])
    ensures captures' == captures + if Due(c, next, t.at) then [Capture(t.at, true)]
                                    else if c.recording && faulty then [Capture(t.at, false)] else []
    ensures Due(c, next, t.at) && !c.everyTick ==> next'.Some? && next'.value > t.at
    ensures !Due(c, next, t.at) ==> next' == next
  {
    next', captures' := next, captures;
    var scheduled := c.recording && (c.everyTick || next.None? || t.at >= next.value);
    if c.recording && (scheduled || faulty) {
      ScheduledGrows(captures, Capture(t.at, scheduled));
      captures' := captures + [Capture(t.at, scheduled)];
      assert !scheduled ==> Scheduled(captures') == Scheduled(captures);
      if scheduled && !c.everyTick {
        RecordGrows(next, Scheduled(captures), c.recordPeriod, t.at);
        next' := Some(NextRecord(next, t.at, c.recordPeriod));
      }
    }
  }

  // A completed tick takes the first deadline of the grid that still lies ahead.
  method Reschedule(c: Config, ghost first: nat, l: Loop, t: Tick) returns (l': Loop)
    requires c.period > 0 && l.deadline == Grid(first, c.period, l.slot) && t.deadline == l.deadline
    requires OnGrid(l.ticks + [t], l.slots + [l.slot], first, c.period) && t.at <= l.reader.clock
    ensures l' == l.(deadline := l'.deadline, slot := l'.slot, previousTick := Some(t.at), ticks := l.ticks + [t],
            slots := l.slots + [l.slot])
    ensures Ticking(c, first, l') && LeastAfter(first, c.period, l.slot, l.reader.clock, l'.slot)
  {
    var deadline := l.deadline + c.period;
    var slot := l.slot + 1;
    if deadline <= l.reader.clock {
      JumpIsLeast(first, c.period, l.slot, l.reader.clock);
      var missed := Missed(deadline, l.reader.clock, c.period);
      deadline := deadline + missed * c.period;
      slot := slot + missed;
    }
    l' := l.(deadline := deadline, slot := slot, previousTick := Some(t.at), ticks := l.ticks + [t],
             slots := l.slots + [l.slot]);
  }

  // What holds of the loop's doings even when a turn ends it half way.
  ghost predicate Done(c: Config, first: nat, l: Loop) {
    OnGrid(l.ticks, l.slots, first, c.period) && Recording(c, l.nextRecord, l.captures, l.ticks)
  }

  // A tick that ran: its record, and, unless it was the last, the next deadline.
  method Finish(env: Environment, c: Config, ghost first: nat, l: Loop, at: nat, outcome: Outcome)
      returns (l': Loop, end: Option<End>)
    requires c.period > 0 && c.recordPeriod > 0 && Kept(env, c, first, l)
    requires l.deadline <= at <= l.reader.clock && (l.previousTick.Some? ==> l.previousTick.value < at)
    ensures Done(c, first, l') && l'.ticks == l.ticks + [Tick(l.deadline, at)]
    ensures Within(env, l'.reader) && l'.reader.requests == l.reader.requests
    ensures end.None? ==> Kept(env, c, first, l')
    ensures end.None? ==> LeastAfter(first, c.period, l.slot, l'.reader.clock, l'.slot)
    ensures end.None? || end == Some(Waiting) || end == Some(Backwards) || end == Some(RuntimeFault)
  {
    var t := Tick(l.deadline, at);
    OnGridGrows(l.ticks, l.slots, first, c.period, t, l.slot);
    var next, captures := Observe(c, l.nextRecord, l.captures, l.ticks, t, !outcome.Fine?);
    l' := l.(nextRecord := next, captures := captures, ticks := l.ticks + [t], slots := l.slots + [l.slot],
             previousTick := Some(at));
    if outcome.Faulty? && outcome.final {
      end := Some(RuntimeFault);
      return;
    }
    var r;
    r, end := Read(env, l.reader);
    if end.None? {
      l' := Reschedule(c, first, l.(nextRecord := next, captures := captures, reader := r), t);
    }
  }

  function Last(ticks: seq<Tick>): Tick
    requires ticks != []
  {
    ticks[|ticks| - 1]
  }

  // The turn went past its wait.
  predicate Reached(end: Option<End>) {
    end != Some(Waiting) && end != Some(Backwards)
  }

  // One turn of the loop: wait, check, tick, finish.  The clock can fail to advance only when a stop is requested, and
  // does so exactly when it still shows the last tick's time; otherwise a requested stop goes on to the shutdown of the
  // runtime, which is the end of the loop whether it succeeds, reports a fault or raises.
  method Turn(env: Environment, c: Config, ghost first: nat, l: Loop)
      returns (l': Loop, shutdown: bool, end: Option<End>)
    requires c.period > 0 && c.recordPeriod > 0 && Kept(env, c, first, l)
    ensures Done(c, first, l') && |l'.ticks| <= |l.ticks| + 1 && |l.ticks| <= |l'.ticks|
    ensures l'.ticks[..|l.ticks|] == l.ticks
    ensures end.None? ==> Kept(env, c, first, l') && l'.reader.requests > l.reader.requests
    ensures end.None? ==> |l'.ticks| == |l.ticks| + 1 && l'.ticks[|l.ticks|].deadline == l.deadline && !shutdown
    ensures end.None? ==> FirstReached(env, l.reader.readings, l.deadline, l'.ticks[|l.ticks|].at)
    ensures end.None? ==> LeastAfter(first, c.period, l.slot, l'.reader.clock, l'.slot)
    ensures Within(env, l'.reader) && l'.reader.requests >= l.reader.requests
    ensures end == Some(NotAdvanced)
            <==> shutdown && Reached(end) && l'.ticks != [] && l'.reader.clock == Last(l'.ticks).at
    ensures end == Some(Stopped)
            <==> shutdown && Reached(end) && (l'.ticks == [] || l'.reader.clock > Last(l'.ticks).at)
  {
    l', shutdown, end := l, false, None;
    var r;
    r, shutdown, end := Wait(env, l.reader, l.deadline);
    l' := l.(reader := r);
    if end.Some? {
      return;
    }
    var at := r.clock;
    if l.previousTick.Some? && at <= l.previousTick.value {
      end := Some(NotAdvanced);
      return;
    }
    if shutdown {
      end := Some(Stopped);
      return;
    }
    if |l.ticks| >= |env.outcomes| {
      end := Some(Waiting);
      return;
    }
    var outcome := env.outcomes[|l.ticks|];
    if outcome.Raises? {
      end := Some(TickError);
      return;
    }
    if outcome.Fine? {
      // a completed tick may have left a planner request to send
      r, end := Read(env, r);
      if end.Some? {
        return;
      }
    }
    l', end := Finish(env, c, first, l.(reader := r), at, outcome);
  }

  // The whole loop.
  method Run(env: Environment, c: Config) returns (l: Loop, shutdown: bool, end: End)
    requires c.period > 0 && c.recordPeriod > 0 && env.clock != []
    ensures Done(c, env.clock[0], l)
    ensures end == NotAdvanced ==> shutdown && l.ticks != [] && l.reader.clock == Last(l.ticks).at
    ensures end == Stopped ==> shutdown && (l.ticks == [] || l.reader.clock > Last(l.ticks).at)
  {
    var first := env.clock[0];
    l := Loop(Reader(1, 0, first), None, first, 0, None, [], [], []);
    var ended: Option<End> := None;
    shutdown := false;
    while ended.None?
      invariant ended.None? ==> Kept(env, c, first, l)
      invariant ended.Some? ==> Done(c, first, l)
      invariant Within(env, l.reader)
      invariant ended == Some(NotAdvanced) ==> shutdown && l.ticks != [] && l.reader.clock == Last(l.ticks).at
      invariant ended == Some(Stopped) ==> shutdown && (l.ticks == [] || l.reader.clock > Last(l.ticks).at)
      decreases |env.stops| - l.reader.requests, ended.None?
    {
      l, shutdown, ended := Turn(env, c, first, l);
    }
    end := ended.value;
  }

  // ---------- how often ----------

  lemma {:induction false} SlotsGrow(slots: seq<nat>, i: nat)
    requires i < |slots| && forall a, b | 0 <= a < b < |slots| :: slots[a] < slots[b]
    ensures slots[i] >= i
  {
    if i > 0 {
      SlotsGrow(slots, i - 1);
    }
  }

  // Up to any tick there are at most as many ticks as periods have begun: all but one fill a whole period.
  lemma TickCount(ticks: seq<Tick>, slots: seq<nat>, first: nat, period: nat)
    requires OnGrid(ticks, slots, first, period) && ticks != []
    ensures first + (|ticks| - 1) * period <= Last(ticks).at
  {
    var n := |ticks| - 1;
    SlotsGrow(slots, n);
    GridGrows(first, period, n, slots[n]);
    GridJumps(first, period, 0, n);
  }

  // At a decimated rate the scheduled captures keep to the record period: all but one fill a whole one.
  lemma CaptureCount(times: seq<nat>, period: nat)
    requires Spaced(times, period) && times != []
    ensures times[0] + (|times| - 1) * period <= times[|times| - 1]
  {
    GridJumps(times[0], period, 0, |times| - 1);
  }

  // Tick times strictly increase.
  lemma TickTimesIncrease(ticks: seq<Tick>, slots: seq<nat>, first: nat, period: nat, i: nat, j: nat)
    requires OnGrid(ticks, slots, first, period) && i < j < |ticks|
    ensures ticks[i].at < ticks[j].at && ticks[i].deadline < ticks[j].deadline
  {
    assert ticks[i].deadline <= ticks[i].at < ticks[j].deadline <= ticks[j].at;
  }
}
