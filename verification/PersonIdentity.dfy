/**
 Taught people and their live tracks.

 A binding ties a person to one track of one source context; it lives only as long as completed statuses keep
 showing that track.  What the world store answers to a publication, and how names resolve, are inputs.
*/
module PersonIdentity {
  import opened Options
  import opened Sets

  type Person = nat
  type TrackId = nat

  const MAX_BINDINGS := 64
  const MAX_REQUESTS := 64
  const MAX_TRACKS := 64
  const TARGET_AGE := 3_000_000_000
  const STATUS_AGE: nat := 500_000_000

  // `sound` says that the record is a canonical observed person track with finite position and confidence of at least
  // one half.
  datatype Track = Track(sound: bool, id: TrackId, measured: nat, until: nat)

  // A status as it was read; `context` stands for process, vision owner and generation, localization and frame.
  datatype Status = Status(qualified: bool, context: nat, stamp: nat, tick: nat, started: nat, tracks: seq<Track>)

  datatype Binding = Binding(context: nat, track: TrackId, request: nat, measured: nat, expires: nat, tick: nat)

  // The answers of the world store about each person during one call.
  datatype World = World(current: set<Person>, publishes: set<Person>, qualifies: set<Person>)

  // A status without a qualified, fresh source is refused.
  predicate InContext(s: Status, now: nat) {
    s.qualified && 0 <= now - s.stamp < STATUS_AGE && s.started <= s.stamp && |s.tracks| <= MAX_TRACKS
  }

  predicate IsFresh(t: Track, s: Status, now: nat, age: nat) {
    t.sound && s.started <= t.measured <= s.stamp <= now <= t.until && now - t.measured <= age
  }

  // The fresh tracks by identity; a fresh identity that occurs twice makes the whole status ambiguous.
  function Fresh(s: Status, n: nat, now: nat, age: nat): Option<map<TrackId, Track>>
    requires n <= |s.tracks|
  {
    if n == 0 then Some(map[])
    else
      var t := s.tracks[n - 1];
      var rest := Fresh(s, n - 1, now, age);
      if rest.None? || !IsFresh(t, s, now, age) then rest
      else if t.id in rest.value then None
      else Some(rest.value[t.id := t])
  }

  function Visible(s: Status, now: nat, age: nat): Option<map<TrackId, Track>> {
    if InContext(s, now) then Fresh(s, |s.tracks|, now, age) else None
  }

  // What a completed status leaves of one binding.
  function Refreshed(p: Person, b: Binding, s: Status, visible: map<TrackId, Track>, now: nat,
                     w: World): Option<Binding> {
    if s.context != b.context || b.track !in visible || now > b.expires || s.tick < b.tick
       || visible[b.track].measured < b.measured || p !in w.current
    then None
    else if visible[b.track].measured == b.measured then if p in w.qualifies then Some(b) else None
    else if p in w.publishes then Some(b.(measured := visible[b.track].measured, tick := s.tick,
                                          expires := Least(visible[b.track].until,
                                                           visible[b.track].measured + TARGET_AGE)))
    else None
  }

  function Least(a: nat, b: nat): nat {
    if a < b then a else b
  }

  function Completed(bindings: map<Person, Binding>, s: Status, now: nat, w: World): map<Person, Binding> {
    var visible := Visible(s, now, TARGET_AGE);
    if bindings == map[] || visible.None? then map[]
    else map p | p in bindings && Refreshed(p, bindings[p], s, visible.value, now, w).Some? ::
           Refreshed(p, bindings[p], s, visible.value, now, w).value
  }

  // ---------- the invariant ----------

  predicate OneContext(bindings: map<Person, Binding>) {
    forall p, q | p in bindings && q in bindings :: bindings[p].context == bindings[q].context
  }

  predicate OwnTracks(bindings: map<Person, Binding>) {
    forall p, q | p in bindings && q in bindings && p != q :: bindings[p].track != bindings[q].track
  }

  predicate Sound(bindings: map<Person, Binding>) {
    OneContext(bindings) && OwnTracks(bindings) && |bindings| <= MAX_BINDINGS
  }

  // ---------- teaching ----------

  // A request as it resolves: the person by name, unless the names conflict; the track, if one was chosen; and the
  // world's last location measurement of this clock epoch and its answer to the new identity.
  datatype Teaching = Teaching(request: nat, payload: nat, person: Option<Person>, track: Option<TrackId>,
                               located: Option<nat>, accepted: bool, remembered: bool)

  datatype Request = Request(id: nat, payload: nat, person: Person)

  datatype Taught = Taught | Duplicate | Refused

  // The chosen track, or the only one there is.
  function Selected(t: Teaching, visible: map<TrackId, Track>): Option<TrackId> {
    if t.track.Some? then if t.track.value in visible then t.track else None
    else if |visible| == 1 then Only(visible) else None
  }

  function Only(visible: map<TrackId, Track>): Option<TrackId>
    requires |visible| == 1
  {
    OneKey(visible);
    var k :| k in visible;
    Some(k)
  }

  lemma OneKey(visible: map<TrackId, Track>)
    requires |visible| == 1
    ensures exists k :: k in visible
    ensures forall j, k | j in visible && k in visible :: j == k
  {
    var k :| k in visible;
    var rest := visible.Keys - {k};
    assert |visible.Keys| == 1 && |rest| == 0;
    forall j | j in visible ensures j == k {
      assert j in rest || j == k;
    }
  }

  predicate BoundElsewhere(bindings: map<Person, Binding>, p: Person, context: nat, track: TrackId) {
    exists q :: q in bindings && q != p && bindings[q].context == context && bindings[q].track == track
  }

  function NewBinding(t: Teaching, s: Status, track: Track, age: nat): Binding {
    Binding(s.context, track.id, t.request, track.measured, Least(track.until, track.measured + age), s.tick)
  }

  // The person may have the track: no one else has it, there is room, and a measurement that is not new only confirms
  // the live binding.
  predicate Admits(bindings: map<Person, Binding>, t: Teaching, p: Person, s: Status, track: Track, now: nat) {
    && !BoundElsewhere(bindings, p, s.context, track.id)
    && (p in bindings || |bindings| < MAX_BINDINGS)
    && (Repeated(t, track) ==>
          p in bindings && bindings[p].context == s.context && bindings[p].track == track.id
            && now <= bindings[p].expires)
  }

  predicate Repeated(t: Teaching, track: Track) {
    t.located.Some? && track.measured <= t.located.value
  }

  // The binding that a teaching leads to, after the completed status has been taken in.
  function Chosen(bindings: map<Person, Binding>, t: Teaching, s: Status, now: nat, age: nat): Option<Track> {
    var visible := Visible(s, now, age);
    if visible.None? || t.person.None? then None
    else
      var id := Selected(t, visible.value);
      if id.None? || !Admits(bindings, t, t.person.value, s, visible.value[id.value], now) || !t.accepted then None
      else Some(visible.value[id.value])
  }

  // ---------- the object ----------

  class PersonIdentity {
    var bindings: map<Person, Binding>
    var requests: seq<Request>

    ghost predicate Valid()
      reads this
    {
      Sound(bindings) && |requests| <= MAX_REQUESTS
    }

    constructor ()
      ensures Valid() && bindings == map[] && requests == []
    {
      bindings, requests := map[], [];
    }

    method Invalidate()
      requires Valid()
      modifies this
      ensures Valid() && bindings == map[] && requests == old(requests)
    {
      while bindings != map[]
        invariant requests == old(requests)
        decreases |bindings|
      {
        var p :| p in bindings;
        RemoveOne(bindings, p);
        bindings := bindings - {p};
      }
    }

    // Every binding is kept, refreshed or dropped by what the status shows of its track.
    method CompletedStatus(s: Status, now: nat, w: World)
      requires Valid()
      modifies this
      ensures Valid() && bindings == Completed(old(bindings), s, now, w) && requests == old(requests)
    {
      if bindings == map[] {
        return;
      }
      CompletedSound(bindings, s, now, w);
      var visible := FreshTracks(s, now, TARGET_AGE);
      if visible.None? {
        Invalidate();
      } else {
        CompletedProgress(bindings, s, now, w);
        var live := RefreshAll(bindings, s, visible.value, now, w);
        bindings := live;
      }
    }

    // A target stays valid only through a status that keeps its binding and an evidence that matches it.
    method ValidateTarget(p: Person, ownSession: bool, matches: bool, s: Status, now: nat, w: World)
        returns (valid: bool)
      requires Valid()
      modifies this
      ensures Valid() && requests == old(requests)
      ensures valid <==> p in old(bindings) && ownSession && p in Completed(old(bindings), s, now, w) && matches
      ensures bindings == if p !in old(bindings) || !ownSession then old(bindings)
                          else if matches then Completed(old(bindings), s, now, w)
                          else Completed(old(bindings), s, now, w) - {p}
    {
      if p !in bindings || !ownSession {
        return false;
      }
      ghost var kept := Completed(bindings, s, now, w);
      CompletedStatus(s, now, w);
      assert bindings == kept;
      valid := p in bindings && matches;
      if p in bindings && !matches {
        Drop(p);
      }
    }

    method Drop(p: Person)
      requires Valid() && p in bindings
      modifies this
      ensures Valid() && bindings == old(bindings) - {p} && requests == old(requests)
    {
      SubsetSound(bindings, p);
      bindings := bindings - {p};
    }

    // A person is bound to a visible track; a request that came before only confirms what it led to.
    method Teach(t: Teaching, s: Status, now: nat, later: nat, age: nat, ownSession: bool, matches: bool,
                 published: bool, w: World)
      returns (o: Taught)
      requires Valid()
      modifies this
      ensures Valid()
      ensures o.Taught? ==> var kept := Completed(old(bindings), s, later, w);
              var track := Chosen(kept, t, s, now, age);
        && track.Some? && t.person.Some?
        && bindings == kept[t.person.value := if Repeated(t, track.value) && t.person.value in kept
                                              then kept[t.person.value]
                                              else NewBinding(t, s, track.value, age)]
        && requests != [] && requests[|requests| - 1] == Request(t.request, t.payload, t.person.value)
      ensures !o.Taught? ==> requests == old(requests) && forall p | p in bindings :: p in old(bindings)
      ensures o.Duplicate? ==> exists r :: r in old(requests) && r.id == t.request && r.payload == t.payload
    {
      var k := FindRequest(requests, t.request);
      if k < |requests| {
        if requests[k].payload != t.payload {
          return Refused;
        }
        assert requests[k] in requests;
        CompletedSound(bindings, s, later, w);
        var _ := ValidateTarget(requests[k].person, ownSession, matches, s, later, w);
        return Duplicate;
      }
      if t.remembered || !InContext(s, now) {
        return Refused;
      }
      CompletedSound(bindings, s, later, w);
      CompletedStatus(s, later, w);
      var visible := FreshTracks(s, now, age);
      if visible.None? || t.person.None? {
        return Refused;
      }
      var track := Chosen(bindings, t, s, now, age);
      if track.None? {
        return Refused;
      }
      o := Bind(t, s, track.value, age, published);
    }

    method Bind(t: Teaching, s: Status, track: Track, age: nat, published: bool) returns (o: Taught)
      requires Valid() && t.person.Some?
      requires forall p | p in bindings :: bindings[p].context == s.context
      requires !BoundElsewhere(bindings, t.person.value, s.context, track.id)
      requires t.person.value in bindings || (|bindings| < MAX_BINDINGS && !Repeated(t, track))
      modifies this
      ensures Valid()
      ensures o.Taught? <==> published || Repeated(t, track)
      ensures o.Taught?
              ==> bindings == old(bindings)[t.person.value := if Repeated(t, track) && t.person.value in old(bindings)
                                                                        then old(bindings)[t.person.value]
                                                                        else NewBinding(t, s, track, age)]
      ensures o.Taught? ==> requests != [] && requests[|requests| - 1] == Request(t.request, t.payload, t.person.value)
      ensures !o.Taught? ==> o.Refused? && bindings == old(bindings) - {t.person.value} && requests == old(requests)
    {
      var p := t.person.value;
      if !Repeated(t, track) {
        AddSound(bindings, p, NewBinding(t, s, track, age));
        bindings := bindings[p := NewBinding(t, s, track, age)];
        if !published {
          Drop(p);
          return Refused;
        }
      }
      requests := requests + [Request(t.request, t.payload, p)];
      if |requests| > MAX_REQUESTS {
        requests := requests[1..];
      }
      o := Taught;
    }
  }

  method FindRequest(requests: seq<Request>, id: nat) returns (k: nat)
    ensures k <= |requests| && (k < |requests| ==> requests[k].id == id)
            && forall i | 0 <= i < k :: requests[i].id != id
  {
    k := 0;
    while k < |requests| && requests[k].id != id
      invariant k <= |requests| && forall i | 0 <= i < k :: requests[i].id != id
    {
      k := k + 1;
    }
  }

  // The bindings while the people in `todo` have yet to be looked at.
  function Progress(all: map<Person, Binding>, todo: set<Person>, s: Status, visible: map<TrackId, Track>, now: nat,
                    w: World)
    : map<Person, Binding>
  {
    map p | p in all && (p in todo || Refreshed(p, all[p], s, visible, now, w).Some?) ::
      if p in todo then all[p] else Refreshed(p, all[p], s, visible, now, w).value
  }

  lemma CompletedProgress(all: map<Person, Binding>, s: Status, now: nat, w: World)
    requires all != map[] && Visible(s, now, TARGET_AGE).Some?
    ensures Completed(all, s, now, w) == Progress(all, {}, s, Visible(s, now, TARGET_AGE).value, now, w)
  {
  }

  lemma ProgressStep(all: map<Person, Binding>, todo: set<Person>, s: Status, visible: map<TrackId, Track>, now: nat,
                     w: World, p: Person)
    requires p in todo && todo <= all.Keys
    ensures var before := Progress(all, todo, s, visible, now, w); var b := Refreshed(p, all[p], s, visible, now, w);
      Progress(all, todo - {p}, s, visible, now, w) == if b.Some? then before[p := b.value] else before - {p}
  {
  }

  method RefreshAll(all: map<Person, Binding>, s: Status, visible: map<TrackId, Track>, now: nat, w: World)
    returns (live: map<Person, Binding>)
    ensures live == Progress(all, {}, s, visible, now, w)
  {
    live := all;
    var todo := all.Keys;
    while todo != {}
      invariant todo <= all.Keys && live == Progress(all, todo, s, visible, now, w)
      decreases todo
    {
      var p :| p in todo;
      ProgressStep(all, todo, s, visible, now, w, p);
      var b := Refreshed(p, all[p], s, visible, now, w);
      if b.Some? {
        live := live[p := b.value];
      } else {
        live := live - {p};
      }
      todo := todo - {p};
    }
  }

  method FreshTracks(s: Status, now: nat, age: nat) returns (visible: Option<map<TrackId, Track>>)
    ensures visible == Visible(s, now, age)
  {
    if !InContext(s, now) {
      return None;
    }
    var found: map<TrackId, Track> := map[];
    for n := 0 to |s.tracks|
      invariant Fresh(s, n, now, age) == Some(found)
    {
      var t := s.tracks[n];
      if IsFresh(t, s, now, age) {
        if t.id in found {
          FreshFails(s, n + 1, |s.tracks|, now, age);
          return None;
        }
        found := found[t.id := t];
      }
    }
    visible := Some(found);
  }

  lemma {:induction false} FreshFails(s: Status, m: nat, n: nat, now: nat, age: nat)
    requires m <= n <= |s.tracks| && Fresh(s, m, now, age).None?
    ensures Fresh(s, n, now, age).None?
  {
    if m < n {
      FreshFails(s, m, n - 1, now, age);
    }
  }

  // Among the fresh tracks each identity names one, and all of them are fresh tracks of the status.
  lemma {:induction false} FreshMeans(s: Status, n: nat, now: nat, age: nat, k: TrackId)
    requires n <= |s.tracks| && Fresh(s, n, now, age).Some?
    ensures k in Fresh(s, n, now, age).value
            <==> exists i :: 0 <= i < n && IsFresh(s.tracks[i], s, now, age) && s.tracks[i].id == k
    ensures k in Fresh(s, n, now, age).value ==>
      var t := Fresh(s, n, now, age).value[k]; t in s.tracks[..n] && t.id == k && IsFresh(t, s, now, age)
    ensures forall i, j | 0 <= i < j < n && IsFresh(s.tracks[i], s, now, age) && IsFresh(s.tracks[j], s, now, age) ::
      s.tracks[i].id == k ==> s.tracks[j].id != k
  {
    if n > 0 {
      FreshMeans(s, n - 1, now, age, k);
      FreshMeans(s, n - 1, now, age, s.tracks[n - 1].id);
    }
  }

  // ---------- what each operation keeps ----------

  lemma RemoveOne(bindings: map<Person, Binding>, p: Person)
    requires p in bindings
    ensures |bindings - {p}| == |bindings| - 1
  {
    assert (bindings - {p}).Keys == bindings.Keys - {p};
  }

  lemma SubsetSound(bindings: map<Person, Binding>, p: Person)
    requires Sound(bindings) && p in bindings
    ensures Sound(bindings - {p})
  {
    RemoveOne(bindings, p);
  }

  // A refreshed binding keeps its context and its track, both of which the status shows.
  lemma CompletedKeeps(bindings: map<Person, Binding>, s: Status, now: nat, w: World, p: Person)
    requires p in Completed(bindings, s, now, w)
    ensures p in bindings && Completed(bindings, s, now, w)[p].track == bindings[p].track
    ensures Completed(bindings, s, now, w)[p].context == bindings[p].context == s.context
  {
  }

  lemma CompletedSound(bindings: map<Person, Binding>, s: Status, now: nat, w: World)
    requires Sound(bindings)
    ensures Sound(Completed(bindings, s, now, w))
    ensures forall p | p in Completed(bindings, s, now, w) :: Completed(bindings, s, now, w)[p].context == s.context
  {
    var done := Completed(bindings, s, now, w);
    forall p | p in done ensures p in bindings && done[p].track == bindings[p].track && done[p].context == s.context {
      CompletedKeeps(bindings, s, now, w, p);
    }
    SubsetSize(done.Keys, bindings.Keys);
  }

  lemma AddSound(bindings: map<Person, Binding>, p: Person, b: Binding)
    requires Sound(bindings) && (forall q | q in bindings :: bindings[q].context == b.context)
    requires !BoundElsewhere(bindings, p, b.context, b.track) && (p in bindings || |bindings| < MAX_BINDINGS)
    ensures Sound(bindings[p := b])
  {
    var more := bindings[p := b];
    assert more.Keys == bindings.Keys + {p};
    forall x, y | x in more && y in more && x != y ensures more[x].track != more[y].track {
      if x == p {
        assert more[y] == bindings[y];
      } else if y == p {
        assert more[x] == bindings[x];
      }
    }
  }
}
