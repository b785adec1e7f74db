/**
 The learning aggregate: bounded counts of how methods and places worked out.
*/
module OutcomeLearning {
  import opened Options
  import opened Sets

  // One subtask outcome at a time is checked, counted and stored as a whole.  The rows and the cursors are in insertion
  // order, and the oldest leave when a table is full.  Identities, fingerprints and names are numbers here.

  const MAX_METHODS := 8
  const MAX_PLACES := 12
  const MAX_OUTCOMES := 32
  const MAX_PRODUCERS := 8
  const MAX_COUNTER := 0x7FFF_FFFF_FFFF_FFFF
  const MAX_DURATION := 3_600_000_000_000

  datatype Method = Method(id: nat, version: nat, wins: nat, losses: nat, mean: nat)

  datatype Place = Place(person: nat, name: nat, version: nat, wins: nat, losses: nat)

  datatype Outcome = Outcome(identity: nat, fingerprint: nat)

  datatype Cursor = Cursor(producer: nat, sequence: nat)

  datatype Aggregate = Aggregate(revision: nat, methods: seq<Method>, places: seq<Place>, outcomes: seq<Outcome>,
                                 cursors: seq<Cursor>, dropped: nat)

  // An executive event.  `concerns` says that it ends a subtask of a known motion skill; `elapsed` is the measurement
  // time after the start of the node, where that is known.
  datatype Event = Event(concerns: bool, versionMatches: bool, producer: Option<nat>, sequence: int, identity: nat,
                         fingerprint: nat, completed: bool, search: bool, observed: bool, targetLost: bool,
                         id: nat, version: nat, elapsed: Option<int>, place: Option<(nat, nat)>)

  // A completion counts, for a search only when the observation was qualified; a failure counts when a qualified
  // observation lost its target.
  predicate Qualified(e: Event) {
    if e.completed then !e.search || e.observed else e.observed && e.targetLost
  }

  function Sample(e: Event): nat {
    if e.elapsed.None? || e.elapsed.value < 0 then 0
    else if e.elapsed.value > MAX_DURATION then MAX_DURATION
    else e.elapsed.value
  }

  // ---------- the tables ----------

  function MethodAt(rows: seq<Method>, id: nat, version: nat): nat {
    if rows == [] || (rows[0].id == id && rows[0].version == version) then 0 else 1 + MethodAt(rows[1..], id, version)
  }

  function PlaceAt(rows: seq<Place>, person: nat, name: nat, version: nat): nat {
    if rows == [] || (rows[0].person == person && rows[0].name == name && rows[0].version == version) then 0
    else 1 + PlaceAt(rows[1..], person, name, version)
  }

  function CursorAt(rows: seq<Cursor>, producer: nat): nat {
    if rows == [] || rows[0].producer == producer then 0 else 1 + CursorAt(rows[1..], producer)
  }

  function OutcomeAt(rows: seq<Outcome>, identity: nat): nat {
    if rows == [] || rows[0].identity == identity then 0 else 1 + OutcomeAt(rows[1..], identity)
  }

  // Floor division, as the program rounds.
  function FloorDiv(a: int, b: int): int
    requires b > 0
  {
    a / b
  }

  function Least(a: int, b: int): int {
    if a < b then a else b
  }

  // One more trial; the mean follows the last 16 or so samples.
  function Tried(m: Method, won: bool, sample: nat): Method {
    var wins := if won then m.wins + 1 else m.wins;
    var losses := if won then m.losses else m.losses + 1;
    var window := Least(wins + losses, 16);
    FloorBetween(sample - m.mean, window);
    m.(wins := wins, losses := losses, mean := m.mean + FloorDiv(sample - m.mean, window))
  }

  function Counted(rows: seq<Method>, e: Event): seq<Method> {
    var k := MethodAt(rows, e.id, e.version);
    if k < |rows| then rows[k := Tried(rows[k], e.completed, Sample(e))]
    else rows + [Tried(Method(e.id, e.version, 0, 0, 0), e.completed, Sample(e))]
  }

  function Visited(rows: seq<Place>, person: nat, name: nat, version: nat, won: bool): seq<Place> {
    var k := PlaceAt(rows, person, name, version);
    var row := if k < |rows| then rows[k] else Place(person, name, version, 0, 0);
    var row' := if won then row.(wins := row.wins + 1) else row.(losses := row.losses + 1);
    if k < |rows| then rows[k := row'] else rows + [row']
  }

  function Advanced(rows: seq<Cursor>, producer: nat, sequence: nat): seq<Cursor> {
    var k := CursorAt(rows, producer);
    if k < |rows| then rows[k := Cursor(producer, sequence)] else rows + [Cursor(producer, sequence)]
  }

  function Trimmed<T>(rows: seq<T>, limit: nat): seq<T> {
    if |rows| > limit then rows[1..] else rows
  }

  function Over<T>(rows: seq<T>, limit: nat): nat {
    if |rows| > limit then 1 else 0
  }

  // A new producer finds room first.
  function Room(rows: seq<Cursor>, producer: nat): seq<Cursor> {
    if |rows| >= MAX_PRODUCERS && CursorAt(rows, producer) == |rows| then rows[1..] else rows
  }

  predicate CountsPlace(e: Event) {
    Qualified(e) && e.search && e.observed && e.place.Some?
  }

  function MethodsAfter(s: Aggregate, e: Event): seq<Method> {
    if Qualified(e) then Counted(s.methods, e) else s.methods
  }

  function PlacesAfter(s: Aggregate, e: Event): seq<Place> {
    if CountsPlace(e) then Visited(s.places, e.place.value.0, e.place.value.1, e.version, e.completed) else s.places
  }

  function Drops(s: Aggregate, e: Event): nat
    requires e.producer.Some?
  {
    (|s.cursors| - |Room(s.cursors, e.producer.value)|)
      + Over(s.outcomes + [Outcome(e.identity, e.fingerprint)], MAX_OUTCOMES)
    + Over(MethodsAfter(s, e), MAX_METHODS) + Over(PlacesAfter(s, e), MAX_PLACES)
  }

  function Applied(s: Aggregate, e: Event): Aggregate
    requires e.producer.Some? && e.sequence > 0
  {
    Aggregate(s.revision + 1, Trimmed(MethodsAfter(s, e), MAX_METHODS), Trimmed(PlacesAfter(s, e), MAX_PLACES),
              Trimmed(s.outcomes + [Outcome(e.identity, e.fingerprint)], MAX_OUTCOMES),
              Advanced(Room(s.cursors, e.producer.value), e.producer.value, e.sequence), s.dropped + Drops(s, e))
  }

  // ---------- the check of a whole aggregate ----------

  predicate UniqueMethods(rows: seq<Method>) {
    forall i, j | 0 <= i < j < |rows| :: rows[i].id != rows[j].id || rows[i].version != rows[j].version
  }

  predicate UniquePlaces(rows: seq<Place>) {
    forall i, j | 0 <= i < j < |rows| ::
      rows[i].person != rows[j].person || rows[i].name != rows[j].name || rows[i].version != rows[j].version
  }

  predicate UniqueOutcomes(rows: seq<Outcome>) {
    forall i, j | 0 <= i < j < |rows| :: rows[i].identity != rows[j].identity
  }

  predicate UniqueCursors(rows: seq<Cursor>) {
    forall i, j | 0 <= i < j < |rows| :: rows[i].producer != rows[j].producer
  }

  predicate Shaped(s: Aggregate) {
    && |s.methods| <= MAX_METHODS && |s.places| <= MAX_PLACES && |s.outcomes| <= MAX_OUTCOMES
    && |s.cursors| <= MAX_PRODUCERS
    && UniqueMethods(s.methods) && UniquePlaces(s.places) && UniqueOutcomes(s.outcomes) && UniqueCursors(s.cursors)
    && forall i | 0 <= i < |s.methods| :: s.methods[i].mean <= MAX_DURATION
  }

  predicate Counters(s: Aggregate) {
    && s.revision <= MAX_COUNTER && s.dropped <= MAX_COUNTER
    && (forall i | 0 <= i < |s.methods| :: s.methods[i].wins + s.methods[i].losses <= MAX_COUNTER)
    && (forall i | 0 <= i < |s.places| :: s.places[i].wins + s.places[i].losses <= MAX_COUNTER)
    && (forall i | 0 <= i < |s.cursors| :: s.cursors[i].sequence <= MAX_COUNTER)
  }

  predicate Validated(s: Aggregate) {
    Shaped(s) && Counters(s)
  }

  datatype Verdict = Committed | Ignored | Invalid

  // The last sequence counted of a producer.
  function LastIn(rows: seq<Cursor>, producer: nat): nat {
    var k := CursorAt(rows, producer);
    if k < |rows| then rows[k].sequence else 0
  }

  predicate Admits(s: Aggregate, e: Event) {
    && e.concerns && e.versionMatches && e.producer.Some? && 0 < e.sequence <= MAX_COUNTER && Validated(s)
    && OutcomeAt(s.outcomes, e.identity) == |s.outcomes|
    && e.sequence > LastIn(s.cursors, e.producer.value)
  }

  // `fits` says that the encoded aggregate is within its byte bound, and `stored` that the world accepted it.
  function Consumed(s: Aggregate, e: Event, fits: bool, stored: bool): (Aggregate, Verdict) {
    if !Admits(s, e) then (s, Ignored)
    else if !Validated(Applied(s, e)) || !fits || !stored then (s, Invalid)
    else (Applied(s, e), Committed)
  }

  // The learner edits a copy of the aggregate and stores it as a whole.
  class OutcomeLearner {
    var state: Aggregate

    constructor ()
      ensures state == Aggregate(0, [], [], [], [], 0)
    {
      state := Aggregate(0, [], [], [], [], 0);
    }

    method Consume(e: Event, fits: bool, stored: bool) returns (v: Verdict)
      modifies this
      ensures (state, v) == Consumed(old(state), e, fits, stored)
    {
      if !Admits(state, e) {
        return Ignored;
      }
      var next := Edit(e);
      if !Validated(next) || !fits || !stored {
        return Invalid;
      }
      state := next;
      v := Committed;
    }

    method Edit(e: Event) returns (next: Aggregate)
      requires e.producer.Some? && e.sequence > 0
      ensures next == Applied(state, e)
    {
      var methods, places, outcomes, cursors, dropped := state.methods, state.places, state.outcomes, state.cursors,
          state.dropped;
      if |cursors| >= MAX_PRODUCERS && CursorAt(cursors, e.producer.value) == |cursors| {
        cursors := cursors[1..];
        dropped := dropped + 1;
      }
      cursors := Advanced(cursors, e.producer.value, e.sequence);
      outcomes := outcomes + [Outcome(e.identity, e.fingerprint)];
      if |outcomes| > MAX_OUTCOMES {
        outcomes := outcomes[1..];
        dropped := dropped + 1;
      }
      if Qualified(e) {
        methods := Counted(methods, e);
        if CountsPlace(e) {
          places := Visited(places, e.place.value.0, e.place.value.1, e.version, e.completed);
        }
      }
      if |methods| > MAX_METHODS {
        methods := methods[1..];
        dropped := dropped + 1;
      }
      if |places| > MAX_PLACES {
        places := places[1..];
        dropped := dropped + 1;
      }
      next := Aggregate(state.revision + 1, methods, places, outcomes, cursors, dropped);
    }
  }

  lemma {:induction false} OutcomeAtBound(rows: seq<Outcome>, identity: nat)
    ensures OutcomeAt(rows, identity) <= |rows|
    ensures var k := OutcomeAt(rows, identity);
      (k < |rows| ==> rows[k].identity == identity) && forall i | 0 <= i < k :: rows[i].identity != identity
  {
    if rows != [] && rows[0].identity != identity {
      OutcomeAtBound(rows[1..], identity);
      assert forall i | 1 <= i < |rows| :: rows[i] == rows[1..][i - 1];
    }
  }

  lemma {:induction false} MethodAtBound(rows: seq<Method>, id: nat, version: nat)
    ensures MethodAt(rows, id, version) <= |rows|
    ensures var k := MethodAt(rows, id, version);
      && (k < |rows| ==> rows[k].id == id && rows[k].version == version)
      && forall i | 0 <= i < k :: rows[i].id != id || rows[i].version != version
  {
    if rows != [] && !(rows[0].id == id && rows[0].version == version) {
      MethodAtBound(rows[1..], id, version);
      assert forall i | 1 <= i < |rows| :: rows[i] == rows[1..][i - 1];
    }
  }

  lemma {:induction false} PlaceAtBound(rows: seq<Place>, person: nat, name: nat, version: nat)
    ensures PlaceAt(rows, person, name, version) <= |rows|
    ensures var k := PlaceAt(rows, person, name, version);
      && (k < |rows| ==> rows[k].person == person && rows[k].name == name && rows[k].version == version)
      && forall i | 0 <= i < k :: rows[i].person != person || rows[i].name != name || rows[i].version != version
  {
    if rows != [] && !(rows[0].person == person && rows[0].name == name && rows[0].version == version) {
      PlaceAtBound(rows[1..], person, name, version);
      assert forall i | 1 <= i < |rows| :: rows[i] == rows[1..][i - 1];
    }
  }

  lemma {:induction false} CursorAtBound(rows: seq<Cursor>, producer: nat)
    ensures CursorAt(rows, producer) <= |rows|
    ensures var k := CursorAt(rows, producer);
      (k < |rows| ==> rows[k].producer == producer) && forall i | 0 <= i < k :: rows[i].producer != producer
  {
    if rows != [] && rows[0].producer != producer {
      CursorAtBound(rows[1..], producer);
      assert forall i | 1 <= i < |rows| :: rows[i] == rows[1..][i - 1];
    }
  }

  // ---------- one trial ----------

  // The new mean lies between the old mean and the sample, falls whenever the sample is below it, and is the sample
  // itself on the first trial.
  lemma TriedMeans(m: Method, won: bool, sample: nat)
    ensures var m' := Tried(m, won, sample);
      && m'.id == m.id && m'.version == m.version && m'.wins + m'.losses == m.wins + m.losses + 1
      && (if m.mean <= sample then m.mean <= m'.mean <= sample else sample <= m'.mean < m.mean)
      && (m.wins + m.losses == 0 ==> m'.mean == sample)
  {
    var k := Least(m.wins + m.losses + 1, 16);
    FloorBetween(sample - m.mean, k);
  }

  lemma {:induction false} Multiple(k: nat, q: int)
    requires k >= 1
    ensures if q >= 0 then k * q >= q else k * q <= q
    decreases k
  {
    if k > 1 {
      Multiple(k - 1, q);
      assert k * q == (k - 1) * q + q;
    }
  }

  lemma Quotient(d: int, k: nat) returns (q: int, r: int)
    requires k >= 1
    ensures q == d / k && d == k * q + r && 0 <= r < k
  {
    q, r := d / k, d % k;
  }

  lemma FloorBetween(d: int, k: nat)
    requires 1 <= k
    ensures if d >= 0 then 0 <= FloorDiv(d, k) <= d else d <= FloorDiv(d, k) < 0
    ensures k == 1 ==> FloorDiv(d, k) == d
  {
    var q, r := Quotient(d, k);
    Between(d, k, q, r, k * q);
  }

  lemma Between(d: int, k: nat, q: int, r: int, kq: int)
    requires k >= 1 && kq == k * q && d == kq + r && 0 <= r < k
    ensures if d >= 0 then 0 <= q <= d else d <= q < 0
    ensures k == 1 ==> q == d
  {
    Multiple(k, q);
    if q < 0 {
      Multiple(k, -q - 1);
      assert k * (-q - 1) == -kq - k;
    }
  }

  // ---------- the tables keep their shape ----------

  lemma TrimmedUnique(ms: seq<Method>, ps: seq<Place>, os: seq<Outcome>)
    requires UniqueMethods(ms) && UniquePlaces(ps) && UniqueOutcomes(os)
    ensures UniqueMethods(Trimmed(ms, MAX_METHODS)) && UniquePlaces(Trimmed(ps, MAX_PLACES))
    ensures UniqueOutcomes(Trimmed(os, MAX_OUTCOMES))
  {
  }

  predicate Means(rows: seq<Method>) {
    forall i | 0 <= i < |rows| :: rows[i].mean <= MAX_DURATION
  }

  lemma CountedShape(rows: seq<Method>, e: Event)
    requires UniqueMethods(rows) && Means(rows)
    ensures UniqueMethods(Counted(rows, e)) && Means(Counted(rows, e)) && |Counted(rows, e)| <= |rows| + 1
  {
    MethodAtBound(rows, e.id, e.version);
    var k := MethodAt(rows, e.id, e.version);
    TriedMeans(if k < |rows| then rows[k] else Method(e.id, e.version, 0, 0, 0), e.completed, Sample(e));
  }

  lemma VisitedShape(rows: seq<Place>, person: nat, name: nat, version: nat, won: bool)
    requires UniquePlaces(rows)
    ensures UniquePlaces(Visited(rows, person, name, version, won))
    ensures |Visited(rows, person, name, version, won)| <= |rows| + 1
  {
    PlaceAtBound(rows, person, name, version);
  }

  lemma AdvancedShape(rows: seq<Cursor>, producer: nat, sequence: nat)
    requires UniqueCursors(rows) && |rows| <= MAX_PRODUCERS
    ensures var rows' := Advanced(Room(rows, producer), producer, sequence);
            UniqueCursors(rows') && |rows'| <= MAX_PRODUCERS
  {
    CursorAtBound(rows, producer);
    CursorAtBound(Room(rows, producer), producer);
  }

  lemma OutcomeShape(rows: seq<Outcome>, o: Outcome)
    requires UniqueOutcomes(rows) && OutcomeAt(rows, o.identity) == |rows|
    ensures UniqueOutcomes(rows + [o])
  {
    OutcomeAtBound(rows, o.identity);
  }

  // An admitted outcome keeps every bound and every key unique, before the check looks.
  lemma AppliedShaped(s: Aggregate, e: Event)
    requires Admits(s, e)
    ensures Shaped(Applied(s, e))
  {
    CountedShape(s.methods, e);
    if CountsPlace(e) {
      VisitedShape(s.places, e.place.value.0, e.place.value.1, e.version, e.completed);
    }
    AdvancedShape(s.cursors, e.producer.value, e.sequence);
    OutcomeShape(s.outcomes, Outcome(e.identity, e.fingerprint));
    TrimmedUnique(MethodsAfter(s, e), PlacesAfter(s, e), s.outcomes + [Outcome(e.identity, e.fingerprint)]);
  }

  // ---------- when the check can fail ----------

  predicate MethodRoom(rows: seq<Method>, e: Event) {
    var k := MethodAt(rows, e.id, e.version);
    k < |rows| ==> rows[k].wins + rows[k].losses < MAX_COUNTER
  }

  predicate PlaceRoom(rows: seq<Place>, e: Event)
    requires e.place.Some?
  {
    var k := PlaceAt(rows, e.place.value.0, e.place.value.1, e.version);
    k < |rows| ==> rows[k].wins + rows[k].losses < MAX_COUNTER
  }

  predicate MethodsCount(rows: seq<Method>) {
    forall i | 0 <= i < |rows| :: rows[i].wins + rows[i].losses <= MAX_COUNTER
  }

  predicate PlacesCount(rows: seq<Place>) {
    forall i | 0 <= i < |rows| :: rows[i].wins + rows[i].losses <= MAX_COUNTER
  }

  predicate CursorsCount(rows: seq<Cursor>) {
    forall i | 0 <= i < |rows| :: rows[i].sequence <= MAX_COUNTER
  }

  lemma MethodsCountIff(rows: seq<Method>, e: Event)
    requires MethodsCount(rows) && |rows| <= MAX_METHODS
    ensures MethodsCount(Trimmed(Counted(rows, e), MAX_METHODS)) <==> MethodRoom(rows, e)
  {
    MethodAtBound(rows, e.id, e.version);
    var k := MethodAt(rows, e.id, e.version);
    var rows' := Counted(rows, e);
    TriedMeans(if k < |rows| then rows[k] else Method(e.id, e.version, 0, 0, 0), e.completed, Sample(e));
    if k < |rows| {
      assert Trimmed(rows', MAX_METHODS)[k].wins + rows'[k].losses == rows[k].wins + rows[k].losses + 1;
    }
  }

  lemma PlacesCountIff(rows: seq<Place>, e: Event)
    requires PlacesCount(rows) && |rows| <= MAX_PLACES && e.place.Some?
    ensures PlacesCount(Trimmed(Visited(rows, e.place.value.0, e.place.value.1, e.version, e.completed), MAX_PLACES))
            <==> PlaceRoom(rows, e)
  {
    PlaceAtBound(rows, e.place.value.0, e.place.value.1, e.version);
    var k := PlaceAt(rows, e.place.value.0, e.place.value.1, e.version);
    var rows' := Visited(rows, e.place.value.0, e.place.value.1, e.version, e.completed);
    if k < |rows| {
      assert Trimmed(rows', MAX_PLACES)[k].wins + rows'[k].losses == rows[k].wins + rows[k].losses + 1;
    }
  }

  lemma CursorsCountAll(rows: seq<Cursor>, producer: nat, sequence: nat)
    requires CursorsCount(rows) && sequence <= MAX_COUNTER
    ensures CursorsCount(Advanced(Room(rows, producer), producer, sequence))
  {
  }

  // The check of an admitted outcome fails only where a counter is full.
  lemma CommitsIff(s: Aggregate, e: Event)
    requires Admits(s, e)
    ensures Validated(Applied(s, e)) <==>
      && s.revision < MAX_COUNTER && s.dropped + Drops(s, e) <= MAX_COUNTER
      && (Qualified(e) ==> MethodRoom(s.methods, e)) && (CountsPlace(e) ==> PlaceRoom(s.places, e))
  {
    AppliedShaped(s, e);
    MethodsCountIff(s.methods, e);
    if CountsPlace(e) {
      PlacesCountIff(s.places, e);
    }
    CursorsCountAll(s.cursors, e.producer.value, e.sequence);
    CountersAre(Applied(s, e));
    CountersAre(s);
  }

  lemma CountersAre(s: Aggregate)
    ensures Counters(s) <==>
      s.revision <= MAX_COUNTER && s.dropped <= MAX_COUNTER && MethodsCount(s.methods) && PlacesCount(s.places)
        && CursorsCount(s.cursors)
  {
  }

  // ---------- conservation over whole logs ----------

  // Everything the learner was given, the latest last.
  datatype Log = Start | Fed(before: Log, event: Event, fits: bool, stored: bool)

  function After(log: Log): Aggregate {
    match log
    case Start => Aggregate(0, [], [], [], [], 0)
    case Fed(before, e, fits, stored) => Consumed(After(before), e, fits, stored).0
  }

  predicate Commits(log: Log)
    requires log.Fed?
  {
    Consumed(After(log.before), log.event, log.fits, log.stored).1 == Committed
  }

  function Trials(rows: seq<Method>): nat {
    if rows == [] then 0 else rows[0].wins + rows[0].losses + Trials(rows[1..])
  }

  // What was committed so far: outcomes, and qualified ones.
  function CommitCount(log: Log): nat {
    if log.Start? then 0 else CommitCount(log.before) + if Commits(log) then 1 else 0
  }

  function QualifiedCount(log: Log): nat {
    if log.Start? then 0 else QualifiedCount(log.before) + if Commits(log) && Qualified(log.event) then 1 else 0
  }

  // The trials of the methods that were dropped.
  function TrialsDropped(log: Log): nat {
    if log.Start? then 0
    else
      var rows := MethodsAfter(After(log.before), log.event);
      TrialsDropped(log.before) + if Commits(log) && |rows| > MAX_METHODS then rows[0].wins + rows[0].losses else 0
  }

  function OutcomesDropped(log: Log): nat {
    if log.Start? then 0
    else OutcomesDropped(log.before) + if Commits(log) && |After(log.before).outcomes| == MAX_OUTCOMES then 1 else 0
  }

  lemma {:induction false} TrialsSet(rows: seq<Method>, k: nat, m: Method)
    requires k < |rows|
    ensures Trials(rows[k := m]) + rows[k].wins + rows[k].losses == Trials(rows) + m.wins + m.losses
  {
    if k > 0 {
      TrialsSet(rows[1..], k - 1, m);
      assert rows[k := m][1..] == rows[1..][k - 1 := m];
    }
  }

  lemma {:induction false} TrialsAdd(rows: seq<Method>, m: Method)
    ensures Trials(rows + [m]) == Trials(rows) + m.wins + m.losses
  {
    if rows != [] {
      TrialsAdd(rows[1..], m);
      assert (rows + [m])[1..] == rows[1..] + [m];
    }
  }

  lemma CountedTrials(rows: seq<Method>, e: Event)
    ensures Trials(Counted(rows, e)) == Trials(rows) + 1
  {
    MethodAtBound(rows, e.id, e.version);
    var k := MethodAt(rows, e.id, e.version);
    var m := if k < |rows| then rows[k] else Method(e.id, e.version, 0, 0, 0);
    TriedMeans(m, e.completed, Sample(e));
    if k < |rows| {
      TrialsSet(rows, k, Tried(m, e.completed, Sample(e)));
    } else {
      TrialsAdd(rows, Tried(m, e.completed, Sample(e)));
    }
  }

  // Every reachable aggregate passes its own check.
  lemma {:induction false} AlwaysValidated(log: Log)
    ensures Validated(After(log))
  {
    if log.Fed? {
      AlwaysValidated(log.before);
    }
  }

  // The trials on record, with those of the methods that were dropped, are the qualified commits.
  lemma {:induction false} TrialsConserved(log: Log)
    ensures Trials(After(log).methods) + TrialsDropped(log) == QualifiedCount(log)
  {
    if log.Fed? {
      TrialsConserved(log.before);
      CountedTrials(After(log.before).methods, log.event);
    }
  }

  // Each commit is one revision and one remembered outcome, until the outcome is dropped.
  lemma {:induction false} CommitsConserved(log: Log)
    ensures After(log).revision == CommitCount(log)
    ensures |After(log).outcomes| + OutcomesDropped(log) == CommitCount(log)
  {
    if log.Fed? {
      CommitsConserved(log.before);
      AlwaysValidated(log.before);
    }
  }

  // ---------- each event counts at most once ----------

  // The commits of one producer's event, and how often that producer's cursor made room for another.
  function CountOf(log: Log, p: nat, q: nat): nat {
    if log.Start? then 0
    else CountOf(log.before, p, q)
         + if Commits(log) && log.event.producer == Some(p) && log.event.sequence == q then 1 else 0
  }

  predicate Evicts(rows: seq<Cursor>, producer: nat, p: nat) {
    |rows| >= MAX_PRODUCERS && CursorAt(rows, producer) == |rows| && rows[0].producer == p
  }

  function Evictions(log: Log, p: nat): nat {
    if log.Start? then 0
    else
      Evictions(log.before, p)
      + if Commits(log) && Evicts(After(log.before).cursors, log.event.producer.value, p) then 1 else 0
  }

  lemma AdvancedLast(rows: seq<Cursor>, producer: nat, sequence: nat, p: nat)
    requires UniqueCursors(rows)
    ensures LastIn(Advanced(rows, producer, sequence), p) == if p == producer then sequence else LastIn(rows, p)
  {
    CursorAtBound(rows, producer);
    CursorAtBound(rows, p);
    var rows' := Advanced(rows, producer, sequence);
    CursorAtBound(rows', p);
    if p == producer {
      assert rows'[CursorAt(rows, producer)].producer == p;
    } else if CursorAt(rows, p) < |rows| {
      assert rows'[CursorAt(rows, p)] == rows[CursorAt(rows, p)];
    }
  }

  lemma RoomLast(rows: seq<Cursor>, producer: nat, p: nat)
    requires UniqueCursors(rows) && p != producer
    ensures LastIn(Room(rows, producer), p) == if Evicts(rows, producer, p) then 0 else LastIn(rows, p)
  {
    CursorAtBound(rows, p);
    CursorAtBound(Room(rows, producer), p);
  }

  // An event is counted at most once for each time its producer's cursor was dropped, and once more.
  lemma {:induction false} CountedOnce(log: Log, p: nat, q: nat)
    requires q > 0
    ensures CountOf(log, p, q) <= Evictions(log, p) + if q <= LastIn(After(log).cursors, p) then 1 else 0
  {
    if log.Fed? {
      CountedOnce(log.before, p, q);
      if Commits(log) {
        var s, producer := After(log.before), log.event.producer.value;
        AlwaysValidated(log.before);
        AdvancedLast(Room(s.cursors, producer), producer, log.event.sequence, p);
        if p != producer {
          RoomLast(s.cursors, producer, p);
        }
      }
    }
  }

  function Producers(log: Log): set<nat> {
    if log.Start? then {}
    else Producers(log.before) + if log.event.producer.Some? then {log.event.producer.value} else {}
  }

  predicate Known(rows: seq<Cursor>, all: set<nat>) {
    forall i | 0 <= i < |rows| :: rows[i].producer in all
  }

  lemma {:induction false} CursorsKnown(log: Log)
    ensures Known(After(log).cursors, Producers(log))
  {
    if log.Fed? {
      CursorsKnown(log.before);
    }
  }

  lemma {:induction false} DistinctProducers(rows: seq<Cursor>, all: set<nat>)
    requires UniqueCursors(rows) && Known(rows, all)
    ensures |rows| <= |all|
  {
    if rows != [] {
      DistinctProducers(rows[1..], all - {rows[0].producer});
    }
  }

  lemma {:induction false} NoEvictions(log: Log, p: nat)
    requires |Producers(log)| <= MAX_PRODUCERS
    ensures Evictions(log, p) == 0
  {
    if log.Fed? {
      SubsetSize(Producers(log.before), Producers(log));
      NoEvictions(log.before, p);
      if Commits(log) && Evicts(After(log.before).cursors, log.event.producer.value, p) {
        var rows, producer := After(log.before).cursors, log.event.producer.value;
        AlwaysValidated(log.before);
        CursorsKnown(log.before);
        CursorAtBound(rows, producer);
        DistinctProducers(rows + [Cursor(producer, 0)], Producers(log));
      }
    }
  }

  // While at most eight producers appear, no event is counted twice.
  lemma EightProducersCountOnce(log: Log, p: nat, q: nat)
    requires q > 0 && |Producers(log)| <= MAX_PRODUCERS
    ensures CountOf(log, p, q) <= 1
  {
    CountedOnce(log, p, q);
    NoEvictions(log, p);
  }

  // ---------- ranking ----------

  const MIN_TRIALS := 3
  const TRUSTED := 0.6

  // The smoothed share of successes.
  function Score(wins: nat, losses: nat): real {
    (wins + 2) as real / (wins + losses + 4) as real
  }

  // A name moves only on at least three trials and a clearly good score.
  function Weight(rows: seq<Method>, name: (nat, nat)): real {
    MethodAtBound(rows, name.0, name.1);
    var k := MethodAt(rows, name.0, name.1);
    if k < |rows| && rows[k].wins + rows[k].losses >= MIN_TRIALS && Score(rows[k].wins, rows[k].losses) >= TRUSTED
    then Score(rows[k].wins, rows[k].losses) else 0.5
  }

  function FirstOf(names: seq<(nat, nat)>, name: (nat, nat)): nat {
    if names == [] || names[0] == name then 0 else 1 + FirstOf(names[1..], name)
  }

  predicate Precedes(rows: seq<Method>, names: seq<(nat, nat)>, a: (nat, nat), b: (nat, nat)) {
    || Weight(rows, a) > Weight(rows, b)
    || (Weight(rows, a) == Weight(rows, b) && FirstOf(names, a) <= FirstOf(names, b))
  }

  function Insert(rows: seq<Method>, names: seq<(nat, nat)>, sorted: seq<(nat, nat)>, x: (nat, nat)): seq<(nat, nat)> {
    if sorted == [] then [x]
    else if Precedes(rows, names, sorted[|sorted| - 1], x) then sorted + [x]
    else Insert(rows, names, sorted[..|sorted| - 1], x) + [sorted[|sorted| - 1]]
  }

  // The supplied names by weight, then by their place in the list.
  function Sorted(rows: seq<Method>, names: seq<(nat, nat)>, n: nat): seq<(nat, nat)>
    requires n <= |names|
  {
    if n == 0 then [] else Insert(rows, names, Sorted(rows, names, n - 1), names[n - 1])
  }

  function RankMethods(rows: seq<Method>, names: seq<(nat, nat)>): seq<(nat, nat)> {
    Sorted(rows, names, |names|)
  }

  predicate InOrder(rows: seq<Method>, names: seq<(nat, nat)>, sorted: seq<(nat, nat)>) {
    forall i, j | 0 <= i < j < |sorted| :: Precedes(rows, names, sorted[i], sorted[j])
  }

  lemma {:induction false} InsertAdds(rows: seq<Method>, names: seq<(nat, nat)>, sorted: seq<(nat, nat)>, x: (nat, nat))
    ensures multiset(Insert(rows, names, sorted, x)) == multiset(sorted) + multiset{x}
  {
    if sorted != [] {
      var front, last := sorted[..|sorted| - 1], sorted[|sorted| - 1];
      assert sorted == front + [last];
      InsertAdds(rows, names, front, x);
    }
  }

  lemma FromSorted(rows: seq<Method>, names: seq<(nat, nat)>, sorted: seq<(nat, nat)>, x: (nat, nat), i: nat)
    requires i < |Insert(rows, names, sorted, x)|
    ensures Insert(rows, names, sorted, x)[i] in sorted || Insert(rows, names, sorted, x)[i] == x
  {
    InsertAdds(rows, names, sorted, x);
    assert Insert(rows, names, sorted, x)[i] in multiset(sorted) + multiset{x};
  }

  lemma {:induction false} InsertMeans(rows: seq<Method>, names: seq<(nat, nat)>, sorted: seq<(nat, nat)>,
                                       x: (nat, nat))
    requires InOrder(rows, names, sorted)
    ensures InOrder(rows, names, Insert(rows, names, sorted, x))
  {
    if sorted != [] {
      var front, last := sorted[..|sorted| - 1], sorted[|sorted| - 1];
      if !Precedes(rows, names, last, x) {
        InsertMeans(rows, names, front, x);
        var r := Insert(rows, names, front, x);
        forall i | 0 <= i < |r| ensures Precedes(rows, names, r[i], last) {
          FromSorted(rows, names, front, x, i);
        }
      }
    }
  }

  lemma OneMore(names: seq<(nat, nat)>, n: nat)
    requires 0 < n <= |names|
    ensures multiset(names[..n]) == multiset(names[..n - 1]) + multiset{names[n - 1]}
  {
    assert names[..n] == names[..n - 1] + [names[n - 1]];
  }

  lemma {:induction false} SortedMeans(rows: seq<Method>, names: seq<(nat, nat)>, n: nat)
    requires n <= |names|
    ensures InOrder(rows, names, Sorted(rows, names, n)) && multiset(Sorted(rows, names, n)) == multiset(names[..n])
  {
    if n > 0 {
      SortedMeans(rows, names, n - 1);
      InsertMeans(rows, names, Sorted(rows, names, n - 1), names[n - 1]);
      InsertAdds(rows, names, Sorted(rows, names, n - 1), names[n - 1]);
      OneMore(names, n);
    }
  }

  // Ranking only reorders what it was given: by weight, and by the declared order within one weight.
  lemma RankMeans(rows: seq<Method>, names: seq<(nat, nat)>)
    ensures var r := RankMethods(rows, names); InOrder(rows, names, r) && multiset(r) == multiset(names)
  {
    SortedMeans(rows, names, |names|);
    assert names[..|names|] == names;
  }

  lemma {:induction false} FirstMeans(names: seq<(nat, nat)>, k: nat)
    requires k < |names| && forall i, j | 0 <= i < j < |names| :: names[i] != names[j]
    ensures FirstOf(names, names[k]) == k
  {
    if k > 0 {
      FirstMeans(names[1..], k - 1);
    }
  }

  lemma InOrderStays(rows: seq<Method>, names: seq<(nat, nat)>, a: nat, b: nat)
    requires a <= b < |names| && forall i, j | 0 <= i < j < |names| :: names[i] != names[j]
    requires Weight(rows, names[a]) == Weight(rows, names[b])
    ensures Precedes(rows, names, names[a], names[b])
  {
    FirstMeans(names, a);
    FirstMeans(names, b);
  }

  lemma GoesLast(rows: seq<Method>, names: seq<(nat, nat)>, n: nat)
    requires 0 < n <= |names| && Sorted(rows, names, n - 1) == names[..n - 1]
    requires n > 1 ==> Precedes(rows, names, names[n - 2], names[n - 1])
    ensures Sorted(rows, names, n) == names[..n]
  {
    assert names[..n] == names[..n - 1] + [names[n - 1]];
  }

  // Without enough evidence for any of the names the declared order stays.
  lemma {:induction false} NoEvidenceKeepsOrder(rows: seq<Method>, names: seq<(nat, nat)>, n: nat)
    requires n <= |names| && forall i, j | 0 <= i < j < |names| :: names[i] != names[j]
    requires forall i | 0 <= i < |names| :: Weight(rows, names[i]) == 0.5
    ensures Sorted(rows, names, n) == names[..n]
  {
    if n > 0 {
      NoEvidenceKeepsOrder(rows, names, n - 1);
      if n > 1 {
        InOrderStays(rows, names, n - 2, n - 1);
      }
      GoesLast(rows, names, n);
    }
  }
}
