/**
 The evidence queue of the runtime, its one writer, and the journal behind it.
*/
module EvidenceJournal {
  import opened Options

  // Producers number and queue records under one lock, up to 256; a flush takes the whole queue under that lock and
  // writes it under another, while producers go on.  `Evidence` is the value of the fields, and the class below updates
  // them in place, one method for each section under the lock.

  const CAPACITY := 256
  const WORLD_PENDING := 4

  datatype Record = Record(number: nat, world: bool)

  datatype Evidence = Evidence(queue: seq<Record>, numbered: nat, dropped: nat, reported: nat, worldPending: nat)

  // A full queue, or four world snapshots that wait, drop the record; its number is used up.
  function Queued(e: Evidence, world: bool): Evidence {
    if |e.queue| == CAPACITY || (world && e.worldPending >= WORLD_PENDING)
    then e.(numbered := e.numbered + 1, dropped := e.dropped + 1)
    else e.(queue := e.queue + [Record(e.numbered + 1, world)], numbered := e.numbered + 1,
            worldPending := if world then e.worldPending + 1 else e.worldPending)
  }

  predicate Drops(e: Evidence, world: bool) {
    |e.queue| == CAPACITY || (world && e.worldPending >= WORLD_PENDING)
  }

  function Numbers(queue: seq<Record>): seq<nat> {
    seq(|queue|, i requires 0 <= i < |queue| => queue[i].number)
  }

  // The batch of a flush: the queue, and a record of losses that were not yet reported.
  function Taken(e: Evidence): (Evidence, seq<nat>) {
    if e.dropped != e.reported
    then (e.(queue := [], worldPending := 0, numbered := e.numbered + 1, reported := e.dropped),
          Numbers(e.queue) + [e.numbered + 1])
    else (e.(queue := [], worldPending := 0), Numbers(e.queue))
  }

  // What becomes of one line: written, refused with an error that the flush handles, or with another one.
  datatype Write = Succeeds | Handled | Escapes

  class EvidenceQueue {
    var queue: seq<Record>
    var numbered: nat
    var dropped: nat
    var reported: nat
    var worldPending: nat

    function View(): Evidence
      reads this
    {
      Evidence(queue, numbered, dropped, reported, worldPending)
    }

    constructor ()
      ensures View() == Evidence([], 0, 0, 0, 0)
    {
      queue, numbered, dropped, reported, worldPending := [], 0, 0, 0, 0;
    }

    method Queue(world: bool)
      modifies this
      ensures View() == Queued(old(View()), world)
    {
      if |queue| == CAPACITY || (world && worldPending >= WORLD_PENDING) {
        numbered := numbered + 1;
        dropped := dropped + 1;
        return;
      }
      numbered := numbered + 1;
      queue := queue + [Record(numbered, world)];
      if world {
        worldPending := worldPending + 1;
      }
    }

    method Take() returns (batch: seq<nat>)
      modifies this
      ensures (View(), batch) == Taken(old(View()))
    {
      batch := Numbers(queue);
      queue, worldPending := [], 0;
      if dropped != reported {
        numbered := numbered + 1;
        batch := batch + [numbered];
        reported := dropped;
      }
    }

    // A whole flush: lines are written until one fails.  The error is handled and the rest of the batch counts as
    // dropped, or it leaves the flush.
    method Flush(write: nat -> Write) returns (written: seq<nat>, escaped: bool)
      modifies this
      ensures var (e, batch) := Taken(old(View())); var n := |written|;
        && n <= |batch| && written == batch[..n] && (forall k | 0 <= k < n :: write(batch[k]).Succeeds?)
        && (n < |batch| ==> !write(batch[n]).Succeeds?)
        && (escaped <==> n < |batch| && write(batch[n]).Escapes?)
        && View() == if n < |batch| && !escaped then e.(dropped := e.dropped + (|batch| - n)) else e
    {
      ghost var before := Taken(View()).0;
      var batch := Take();
      written, escaped := [], false;
      for index := 0 to |batch|
        invariant written == batch[..index] && forall k | 0 <= k < index :: write(batch[k]).Succeeds?
        invariant View() == before
      {
        match write(batch[index]) {
          case Succeeds =>
            written := written + [batch[index]];
          case Handled =>
            dropped := dropped + (|batch| - index);
            return;
          case Escapes =>
            escaped := true;
            return;
        }
      }
    }
  }

  // ---------- runs ----------

  type Tid = nat

  // The writer holds the write lock; `rest` is what it has yet to write.
  datatype Writer = Writer(owner: Option<Tid>, rest: seq<nat>)

  datatype Report =
    | Counted(before: nat)
    | Pending(before: nat, number: nat)
    | Flushing(before: nat, number: nat)
    | Flushed(before: nat, number: nat)
    | Recorded(number: nat)
    | Failed

  // `drops` and `leaks` are history: the numbers that were counted as dropped, and those of a batch whose write raised
  // an error that the flush does not handle.
  datatype State = State(e: Evidence, writer: Option<Writer>, journal: seq<nat>, drops: seq<nat>, leaks: seq<nat>,
                         reports: map<Tid, Report>)

  predicate Init(s: State) {
    s == State(Evidence([], 0, 0, 0, 0), None, [], [], [], map[])
  }

  datatype Op =
    | Produce(world: bool)
    | Flush(owner: Option<Tid>)
    | WriteSucceeds
    | WriteFails
    | WriteEscapes
    | EndFlush
    | Report(t: Tid)
    | QueueReport(t: Tid)
    | CheckReport(t: Tid)

  function Produced(s: State, world: bool): State {
    s.(e := Queued(s.e, world), drops := if Drops(s.e, world) then s.drops + [s.e.numbered + 1] else s.drops)
  }

  // The flush is over; a report that owned it goes on, or raises what the write raised.
  function Over(s: State, escaped: bool): State
    requires s.writer.Some?
  {
    var w := s.writer.value;
    s.(writer := None,
       reports := if w.owner.Some? && w.owner.value in s.reports && s.reports[w.owner.value].Flushing?
                  then var r := s.reports[w.owner.value];
                       s.reports[w.owner.value := if escaped then Failed else Flushed(r.before, r.number)]
                  else s.reports)
  }

  predicate Step(s: State, op: Op, s': State) {
    match op
    case Produce(world) => s' == Produced(s, world)
    case Flush(owner) =>
      && s.writer.None? && (owner.Some? ==> owner.value in s.reports && s.reports[owner.value].Pending?)
      && s' == s.(e := Taken(s.e).0, writer := Some(Writer(owner, Taken(s.e).1)),
                  reports := if owner.Some?
                             then var r := s.reports[owner.value];
                             s.reports[owner.value := Flushing(r.before, r.number)]
                             else s.reports)
    case WriteSucceeds =>
      && s.writer.Some? && s.writer.value.rest != []
      && s' == s.(writer := Some(s.writer.value.(rest := s.writer.value.rest[1..])),
                  journal := s.journal + [s.writer.value.rest[0]])
    case WriteFails =>
      && s.writer.Some? && s.writer.value.rest != []
      && s' == Over(s, false).(e := s.e.(dropped := s.e.dropped + |s.writer.value.rest|),
                               drops := s.drops + s.writer.value.rest)
    case WriteEscapes =>
      && s.writer.Some? && s.writer.value.rest != []
      && s' == Over(s, true).(leaks := s.leaks + s.writer.value.rest)
    case EndFlush => s.writer.Some? && s.writer.value.rest == [] && s' == Over(s, false)
    case Report(t) => t !in s.reports && s' == s.(reports := s.reports[t := Counted(s.e.dropped)])
    case QueueReport(t) =>
      && t in s.reports && s.reports[t].Counted?
      && s' == Produced(s, false).(reports := s.reports[t := Pending(s.reports[t].before, s.e.numbered + 1)])
    case CheckReport(t) =>
      && t in s.reports && s.reports[t].Flushed?
      && var r := s.reports[t];
         s' == s.(reports := s.reports[t := if s.e.dropped == r.before then Recorded(r.number) else Failed])
  }

  // ---------- the invariant ----------

  function InFlight(s: State): seq<nat> {
    if s.writer.Some? then s.writer.value.rest else []
  }

  // Everything in the order it was or will be written.
  function Line(s: State): seq<nat> {
    s.journal + InFlight(s) + Numbers(s.e.queue)
  }

  predicate Increasing(ns: seq<nat>, limit: nat) {
    && (forall i, j | 0 <= i < j < |ns| :: ns[i] < ns[j])
    && (forall i | 0 <= i < |ns| :: 1 <= ns[i] <= limit)
  }

  // Every number is somewhere.
  ghost predicate Covered(s: State) {
    forall n: nat | 1 <= n <= s.e.numbered :: n in Line(s) || n in s.drops || n in s.leaks
  }

  predicate Balanced(s: State) {
    && |Line(s)| + |s.drops| + |s.leaks| == s.e.numbered
    && |s.drops| == s.e.dropped && s.e.reported <= s.e.dropped
  }

  function Worlds(queue: seq<Record>): nat {
    if queue == [] then 0
    else Worlds(queue[..|queue| - 1]) + if queue[|queue| - 1].world then 1 else 0
  }

  predicate Bounded(s: State) {
    |s.e.queue| <= CAPACITY && s.e.worldPending == Worlds(s.e.queue) <= WORLD_PENDING
  }

  // A report's own number; once its flush is over it is no longer queued or in flight.
  predicate ReportSound(s: State, t: Tid, r: Report) {
    match r
    case Counted(before) => before <= s.e.dropped
    case Pending(before, n) => Own(s, before, n)
    case Flushing(before, n) =>
      Own(s, before, n) && n !in Numbers(s.e.queue) && s.writer.Some? && s.writer.value.owner == Some(t)
    case Flushed(before, n) => Own(s, before, n) && n !in Numbers(s.e.queue) && n !in InFlight(s)
    case Recorded(n) => 1 <= n <= s.e.numbered && (n in s.journal || n in s.leaks)
    case Failed => true
  }

  predicate Own(s: State, before: nat, n: nat) {
    1 <= n <= s.e.numbered && before <= s.e.dropped && (n in s.drops ==> before < s.e.dropped)
  }

  ghost predicate Reports(s: State) {
    forall t | t in s.reports :: ReportSound(s, t, s.reports[t])
  }

  ghost predicate Inv(s: State) {
    Increasing(Line(s), s.e.numbered) && Covered(s) && Balanced(s) && Bounded(s) && Reports(s)
  }

  // ---------- what every step keeps ----------

  lemma NumbersGrow(queue: seq<Record>, r: Record)
    ensures Numbers(queue + [r]) == Numbers(queue) + [r.number]
  {
  }

  lemma LineGrows(s: State, world: bool)
    ensures Line(Produced(s, world)) == if Drops(s.e, world) then Line(s) else Line(s) + [s.e.numbered + 1]
  {
    NumbersGrow(s.e.queue, Record(s.e.numbered + 1, world));
  }

  lemma IncreasingGrows(ns: seq<nat>, limit: nat)
    requires Increasing(ns, limit)
    ensures Increasing(ns, limit + 1) && Increasing(ns + [limit + 1], limit + 1)
  {
  }

  lemma ProducedKeeps(s: State, world: bool)
    requires Inv(s)
    ensures Inv(Produced(s, world))
  {
    var s' := Produced(s, world);
    LineGrows(s, world);
    IncreasingGrows(Line(s), s.e.numbered);
    ProducedCovers(s, world);
    ProducedReports(s, world);
    assert s'.e.queue != s.e.queue ==> s'.e.queue[..|s'.e.queue| - 1] == s.e.queue;
  }

  lemma ProducedCovers(s: State, world: bool)
    requires Covered(s)
    ensures Covered(Produced(s, world))
  {
    var s' := Produced(s, world);
    LineGrows(s, world);
    forall n: nat | 1 <= n <= s'.e.numbered ensures n in Line(s') || n in s'.drops || n in s'.leaks {
      assert n <= s.e.numbered || n == s.e.numbered + 1;
    }
  }

  lemma ProducedReport(s: State, world: bool, t: Tid, r: Report)
    requires ReportSound(s, t, r)
    ensures ReportSound(Produced(s, world), t, r)
  {
    NumbersGrow(s.e.queue, Record(s.e.numbered + 1, world));
  }

  lemma ProducedReports(s: State, world: bool)
    requires Reports(s)
    ensures Reports(Produced(s, world))
  {
    forall t | t in s.reports ensures ReportSound(Produced(s, world), t, s.reports[t]) {
      ProducedReport(s, world, t, s.reports[t]);
    }
  }

  // One report moves on, and nothing else.
  lemma MoveKeeps(s: State, t: Tid, r: Report)
    requires Inv(s) && ReportSound(s, t, r)
    ensures Inv(s.(reports := s.reports[t := r]))
  {
    var s' := s.(reports := s.reports[t := r]);
    assert Line(s') == Line(s);
    forall x | x in s'.reports ensures ReportSound(s', x, s'.reports[x]) {
      if x != t {
        assert ReportSound(s, x, s.reports[x]);
      }
    }
  }

  lemma QueueReportKeeps(s: State, t: Tid, s': State)
    requires Inv(s) && Step(s, QueueReport(t), s')
    ensures Inv(s')
  {
    assert ReportSound(s, t, s.reports[t]);
    ProducedKeeps(s, false);
    NotYet(s);
    MoveKeeps(Produced(s, false), t, Pending(s.reports[t].before, s.e.numbered + 1));
  }

  // A number that was not given out is nowhere: all the numbers given out fill every place.
  lemma NotYet(s: State)
    requires Inv(s)
    ensures s.e.numbered + 1 !in s.drops
  {
    var all := Line(s) + s.drops + s.leaks;
    forall n: nat | 1 <= n <= s.e.numbered ensures n in all {
    }
    Exactly(all, s.e.numbered);
    forall n | n in s.drops ensures n in all {
    }
  }

  // A sequence of length `n` in which 1 to `n` all occur holds each once and nothing else.
  lemma {:induction false} Exactly(all: seq<nat>, n: nat)
    requires |all| == n && (forall k: nat | 1 <= k <= n :: k in all)
    ensures forall i | 0 <= i < n :: 1 <= all[i] <= n
    ensures forall i, j | 0 <= i < j < n :: all[i] != all[j]
  {
    if n > 0 {
      assert n in all;
      var p: nat :| p < n && all[p] == n;
      var rest := all[..p] + all[p + 1..];
      forall k: nat | 1 <= k <= n - 1 ensures k in rest {
        assert k in all;
        var i: nat :| i < n && all[i] == k;
        assert rest[if i < p then i else i - 1] == k;
      }
      Exactly(rest, n - 1);
      forall i | 0 <= i < n && i != p ensures 1 <= all[i] <= n - 1 {
        assert all[i] == rest[if i < p then i else i - 1];
      }
      forall i, j | 0 <= i < j < n ensures all[i] != all[j] {
        if i != p && j != p {
          assert all[i] == rest[if i < p then i else i - 1] && all[j] == rest[if j < p then j else j - 1];
        }
      }
    }
  }

  // ---------- the flush ----------

  lemma FlushKeeps(s: State, owner: Option<Tid>, s': State)
    requires Inv(s) && Step(s, Flush(owner), s')
    ensures Inv(s')
  {
    var loss := if s.e.dropped != s.e.reported then [s.e.numbered + 1] else [];
    assert Numbers([]) == [];
    assert Line(s') == Line(s) + loss;
    IncreasingGrows(Line(s), s.e.numbered);
    FlushCovers(s, s', loss);
    FlushReports(s, owner, s');
  }

  lemma FlushCovers(s: State, s': State, loss: seq<nat>)
    requires Covered(s) && Line(s') == Line(s) + loss && s'.drops == s.drops && s'.leaks == s.leaks
    requires s'.e.numbered == s.e.numbered + |loss| && (loss == [] || loss == [s.e.numbered + 1])
    ensures Covered(s')
  {
    forall n: nat | 1 <= n <= s'.e.numbered ensures n in Line(s') || n in s'.drops || n in s'.leaks {
      assert n <= s.e.numbered || n in loss;
    }
  }

  lemma FlushReports(s: State, owner: Option<Tid>, s': State)
    requires Inv(s) && Step(s, Flush(owner), s')
    ensures Reports(s')
  {
    forall t | t in s'.reports ensures ReportSound(s', t, s'.reports[t]) {
      assert ReportSound(s, t, s.reports[t]);
    }
  }

  lemma WriteKeeps(s: State, s': State)
    requires Inv(s) && Step(s, WriteSucceeds, s')
    ensures Inv(s')
  {
    assert Line(s') == Line(s);
    forall t | t in s'.reports ensures ReportSound(s', t, s'.reports[t]) {
      assert ReportSound(s, t, s.reports[t]);
    }
  }

  lemma OverKeeps(s: State, s': State)
    requires Inv(s) && (Step(s, WriteFails, s') || Step(s, WriteEscapes, s') || Step(s, EndFlush, s'))
    ensures Inv(s')
  {
    assert Line(s') == s.journal + Numbers(s.e.queue);
    OverIncreasing(s.journal, InFlight(s), Numbers(s.e.queue), s.e.numbered);
    OverCovers(s, s');
    OverReports(s, s');
  }

  lemma OverIncreasing(a: seq<nat>, b: seq<nat>, c: seq<nat>, limit: nat)
    requires Increasing(a + b + c, limit)
    ensures Increasing(a + c, limit)
  {
    forall i | 0 <= i < |a + c| ensures (a + c)[i] == (a + b + c)[if i < |a| then i else i + |b|] {
    }
  }

  lemma OverCovers(s: State, s': State)
    requires Covered(s) && (Step(s, WriteFails, s') || Step(s, WriteEscapes, s') || Step(s, EndFlush, s'))
    ensures Covered(s')
  {
    forall n: nat | 1 <= n <= s.e.numbered ensures n in Line(s') || n in s'.drops || n in s'.leaks {
      assert n in Line(s) || n in s.drops || n in s.leaks;
    }
  }

  lemma OverReport(s: State, s': State, t: Tid)
    requires s.writer.Some? && t in s.reports && ReportSound(s, t, s.reports[t])
    requires Step(s, WriteFails, s') || Step(s, WriteEscapes, s') || Step(s, EndFlush, s')
    ensures t in s'.reports && ReportSound(s', t, s'.reports[t])
  {
  }

  lemma OverReports(s: State, s': State)
    requires s.writer.Some? && Reports(s)
    requires Step(s, WriteFails, s') || Step(s, WriteEscapes, s') || Step(s, EndFlush, s')
    ensures Reports(s')
  {
    forall t | t in s'.reports ensures ReportSound(s', t, s'.reports[t]) {
      OverReport(s, s', t);
    }
  }

  lemma CheckKeeps(s: State, t: Tid, s': State)
    requires Inv(s) && Step(s, CheckReport(t), s')
    ensures Inv(s')
  {
    var r := s.reports[t];
    assert ReportSound(s, t, r);
    if s.e.dropped == r.before {
      assert r.number in Line(s) || r.number in s.drops || r.number in s.leaks;
      MoveKeeps(s, t, Recorded(r.number));
    } else {
      MoveKeeps(s, t, Failed);
    }
  }

  lemma StepKeeps(s: State, op: Op, s': State)
    requires Inv(s) && Step(s, op, s')
    ensures Inv(s')
  {
    match op
    case Produce(world) => ProducedKeeps(s, world);
    case Flush(owner) => FlushKeeps(s, owner, s');
    case WriteSucceeds => WriteKeeps(s, s');
    case WriteFails => OverKeeps(s, s');
    case WriteEscapes => OverKeeps(s, s');
    case EndFlush => OverKeeps(s, s');
    case Report(t) => MoveKeeps(s, t, Counted(s.e.dropped));
    case QueueReport(t) => QueueReportKeeps(s, t, s');
    case CheckReport(t) => CheckKeeps(s, t, s');
  }

  // ---------- runs ----------

  ghost predicate Next(s: State, s': State) {
    exists op :: Step(s, op, s')
  }

  ghost predicate NextAt(run: seq<State>, i: nat) {
    i + 1 < |run| ==> Next(run[i], run[i + 1])
  }

  ghost predicate IsRun(run: seq<State>) {
    run != [] && Init(run[0]) && forall i: nat :: NextAt(run, i)
  }

  lemma {:induction false} RunKeeps(run: seq<State>, k: nat)
    requires IsRun(run) && k < |run|
    ensures Inv(run[k])
  {
    if k > 0 {
      RunKeeps(run, k - 1);
      assert NextAt(run, k - 1);
      var op :| Step(run[k - 1], op, run[k]);
      StepKeeps(run[k - 1], op, run[k]);
    }
  }

  // At every moment each number given out is in exactly one place: written, in flight, queued, dropped, or lost with a
  // batch whose write raised an error that the flush does not handle.  Without such an error the four counts balance.
  lemma EvidenceBalances(run: seq<State>, k: nat)
    requires IsRun(run) && k < |run|
    ensures var s := run[k]; var all := Line(s) + s.drops + s.leaks;
      && |all| == s.e.numbered && (forall i, j | 0 <= i < j < |all| :: all[i] != all[j])
      && (forall n: nat :: n in all <==> 1 <= n <= s.e.numbered)
      && |s.drops| == s.e.dropped
      && (s.e.numbered == |s.journal| + |s.e.queue| + |InFlight(s)| + s.e.dropped <==> s.leaks == [])
    ensures |run[k].e.queue| <= CAPACITY && run[k].e.worldPending == Worlds(run[k].e.queue) <= WORLD_PENDING
  {
    RunKeeps(run, k);
    AllOnce(run[k]);
  }

  lemma AllOnce(s: State)
    requires Inv(s)
    ensures var all := Line(s) + s.drops + s.leaks;
      && |all| == s.e.numbered && (forall i, j | 0 <= i < j < |all| :: all[i] != all[j])
      && (forall n: nat :: n in all <==> 1 <= n <= s.e.numbered)
  {
    var all := Line(s) + s.drops + s.leaks;
    forall n: nat | 1 <= n <= s.e.numbered ensures n in all {
    }
    Exactly(all, s.e.numbered);
  }

  // The journal is strictly increasing, and its gaps below what is still on the way are exactly the numbers dropped
  // or lost.
  lemma JournalGaps(run: seq<State>, k: nat, n: nat)
    requires IsRun(run) && k < |run|
    requires 1 <= n <= run[k].e.numbered && n !in InFlight(run[k]) && n !in Numbers(run[k].e.queue)
    ensures forall i, j | 0 <= i < j < |run[k].journal| :: run[k].journal[i] < run[k].journal[j]
    ensures n !in run[k].journal <==> n in run[k].drops || n in run[k].leaks
  {
    var s := run[k];
    RunKeeps(run, k);
    forall i, j | 0 <= i < j < |s.journal| ensures s.journal[i] < s.journal[j] {
      assert Line(s)[i] < Line(s)[j];
    }
    AllOnce(s);
    assert n in Line(s) || n in s.drops || n in s.leaks;
    if n in s.journal {
      Apart(Line(s), s.drops, s.leaks, n);
    }
  }

  lemma Apart(a: seq<nat>, b: seq<nat>, c: seq<nat>, n: nat)
    requires n in a && forall i, j | 0 <= i < j < |a + b + c| :: (a + b + c)[i] != (a + b + c)[j]
    ensures n !in b && n !in c
  {
    var i :| 0 <= i < |a| && a[i] == n;
    var all := a + b + c;
    assert all[i] == n;
    forall j | 0 <= j < |b| ensures b[j] != n {
      assert all[|a| + j] == b[j];
    }
    forall j | 0 <= j < |c| ensures c[j] != n {
      assert all[|a| + |b| + j] == c[j];
    }
  }

  // A report that returned RECORDED has its own line in the journal, unless that line was in a batch whose write raised
  // an error that the flush does not handle.
  lemma RecordedIsWritten(run: seq<State>, k: nat, t: Tid)
    requires IsRun(run) && k < |run| && t in run[k].reports && run[k].reports[t].Recorded?
    ensures run[k].reports[t].number in run[k].journal <==> run[k].reports[t].number !in run[k].leaks
  {
    var s := run[k];
    RunKeeps(run, k);
    assert ReportSound(s, t, s.reports[t]);
    AllOnce(s);
    if s.reports[t].number in s.journal {
      Apart(Line(s), s.drops, s.leaks, s.reports[t].number);
    }
  }

  lemma Extend(run: seq<State>, op: Op, s': State) returns (run': seq<State>)
    requires IsRun(run) && Step(run[|run| - 1], op, s')
    ensures IsRun(run') && run' == run + [s']
  {
    run' := run + [s'];
    assert Next(run[|run| - 1], s');
    forall i: nat ensures NextAt(run', i) {
      assert NextAt(run, i);
    }
  }

  const TAKEN := Evidence([], 1, 0, 0, 0)

  lemma EscapedFirst() returns (run: seq<State>)
    ensures IsRun(run) && run[|run| - 1] == State(TAKEN, None, [], [], [1], map[0 := Pending(0, 1)])
  {
    var none := Evidence([], 0, 0, 0, 0);
    run := [State(none, None, [], [], [], map[])];
    run := Extend(run, Report(0), State(none, None, [], [], [], map[0 := Counted(0)]));
    var one := none.(queue := [Record(1, false)], numbered := 1);
    run := Extend(run, QueueReport(0), State(one, None, [], [], [], map[0 := Pending(0, 1)]));
    assert Numbers([Record(1, false)]) == [1];
    run := Extend(run, Flush(None), State(TAKEN, Some(Writer(None, [1])), [], [], [], map[0 := Pending(0, 1)]));
    run := Extend(run, WriteEscapes, State(TAKEN, None, [], [], [1], map[0 := Pending(0, 1)]));
  }

  // Such an error in another thread's flush leaves a report RECORDED and its line nowhere.
  lemma RecordedButLost() returns (run: seq<State>)
    ensures IsRun(run)
    ensures run[|run| - 1].reports == map[0 := Recorded(1)] && run[|run| - 1].journal == []
  {
    run := EscapedFirst();
    assert Numbers([]) == [];
    run := Extend(run, Flush(Some(0)), State(TAKEN, Some(Writer(Some(0), [])), [], [], [1], map[0 := Flushing(0, 1)]));
    run := Extend(run, EndFlush, State(TAKEN, None, [], [], [1], map[0 := Flushed(0, 1)]));
    run := Extend(run, CheckReport(0), State(TAKEN, None, [], [], [1], map[0 := Recorded(1)]));
  }
}
