/**
 The event ring of the runtime and the cursor client that reads it in pages.

 The ring keeps the last 128 events; a client asks for the events after its cursor, may name the producers it wants,
 and learns how many events it missed.  Producers append at any time between two requests.
*/
module EventRing {
  import opened Options

  type Kind = nat

  datatype Event = Event(producer: Kind, value: int)

  datatype Row = Row(number: nat, event: Event)

  datatype Page = Page(events: seq<Row>, latest: nat, next: nat, lost: nat)

  const CAPACITY := 128
  const PAGE := 32

  // The rows that remain of everything appended so far.
  function Start(history: seq<Event>): nat {
    if |history| <= CAPACITY then 0 else |history| - CAPACITY
  }

  function Window(history: seq<Event>): seq<Row> {
    seq(|history| - Start(history), i requires 0 <= i < |history| - Start(history) =>
      Row(Start(history) + i + 1, history[Start(history) + i]))
  }

  predicate Wanted(r: Row, after: int, kinds: Option<set<Kind>>) {
    r.number > after && (kinds.None? || r.event.producer in kinds.value)
  }

  function Select(rows: seq<Row>, after: int, kinds: Option<set<Kind>>): seq<Row> {
    if rows == [] then []
    else
      var last := rows[|rows| - 1];
      Select(rows[..|rows| - 1], after, kinds) + if Wanted(last, after, kinds) then [last] else []
  }

  // One page of at most `limit` events; a cursor or limit out of range is refused.
  function PageOf(rows: seq<Row>, latest: nat, after: int, kinds: Option<set<Kind>>, limit: int): Option<Page> {
    if after < 0 || !(1 <= limit <= 64) then None
    else
      var first := if rows != [] then rows[0].number else latest + 1;
      var selected := Select(rows, after, kinds);
      var page := if |selected| > limit then selected[..limit] else selected;
      Some(Page(page, latest, if |selected| > limit then page[|page| - 1].number else latest,
                if first - after - 1 > 0 then first - after - 1 else 0))
  }

  class EventRing {
    var rows: seq<Row>
    var sequence: nat
    ghost var history: seq<Event>

    ghost predicate Valid()
      reads this
    {
      sequence == |history| && rows == Window(history)
    }

    constructor ()
      ensures Valid() && history == []
    {
      rows, sequence, history := [], 0, [];
    }

    method Append(e: Event)
      requires Valid()
      modifies this
      ensures Valid() && history == old(history) + [e]
    {
      sequence := sequence + 1;
      rows := rows + [Row(sequence, e)];
      if |rows| > CAPACITY {
        rows := rows[1..];
      }
      history := history + [e];
    }

    method Events(after: int, kinds: Option<set<Kind>>, limit: int) returns (page: Option<Page>)
      requires Valid()
      ensures page == PageOf(Window(history), |history|, after, kinds, limit)
    {
      page := TakePage(rows, sequence, after, kinds, limit);
    }
  }

  // One request, on the rows as they are at one moment.
  method TakePage(rows: seq<Row>, latest: nat, after: int, kinds: Option<set<Kind>>, limit: int)
      returns (page: Option<Page>)
    ensures page == PageOf(rows, latest, after, kinds, limit)
  {
    if after < 0 || !(1 <= limit <= 64) {
      return None;
    }
    var first := if rows != [] then rows[0].number else latest + 1;
    var selected: seq<Row> := [];
    for i := 0 to |rows|
      invariant selected == Select(rows[..i], after, kinds)
    {
      assert rows[..i + 1][..i] == rows[..i];
      if Wanted(rows[i], after, kinds) {
        selected := selected + [rows[i]];
      }
    }
    assert rows[..|rows|] == rows;
    var events := if |selected| > limit then selected[..limit] else selected;
    page := Some(Page(events, latest, if |selected| > limit then events[|events| - 1].number else latest,
                      if first - after - 1 > 0 then first - after - 1 else 0));
  }

  datatype Delivery = Gap(lost: nat, number: nat) | Delivered(row: Row)

  function Deliveries(events: seq<Row>): seq<Delivery> {
    seq(|events|, i requires 0 <= i < |events| => Delivered(events[i]))
  }

  function Received(p: Page): seq<Delivery> {
    (if p.lost > 0 then [Gap(p.lost, p.next)] else []) + Deliveries(p.events)
  }

  // `received` is everything a page has brought, and `taken` what the caller got of it so far.
  class EventClient {
    var cursor: nat
    var pending: seq<Delivery>
    ghost var received: seq<Delivery>
    ghost var taken: seq<Delivery>

    // Deliveries are handed out in the order they came, each once.
    ghost predicate Valid()
      reads this
    {
      received == taken + pending
    }

    constructor ()
      ensures Valid() && cursor == 0 && received == [] && taken == []
    {
      cursor, pending, received, taken := 0, [], [], [];
    }

    // The first pending delivery, before anything is requested.
    method Take() returns (d: Option<Delivery>)
      requires Valid()
      modifies this
      ensures Valid() && cursor == old(cursor) && received == old(received)
      ensures if old(taken) == old(received) then d == None && taken == old(taken)
              else d.Some? && taken == old(taken) + [d.value] && d.value == received[|old(taken)|]
    {
      if pending == [] {
        return None;
      }
      d := Some(pending[0]);
      taken := taken + [pending[0]];
      pending := pending[1..];
    }

    // One request and its page.
    method Poll(ring: EventRing, kinds: Option<set<Kind>>)
      requires Valid() && ring.Valid()
      modifies this
      ensures Valid() && taken == old(taken)
      ensures var p := PageOf(Window(ring.history), |ring.history|, old(cursor), kinds, PAGE);
        p.Some? && cursor == p.value.next && received == old(received) + Received(p.value)
    {
      var page := ring.Events(cursor, kinds, PAGE);
      cursor := page.value.next;
      if page.value.lost > 0 {
        pending := pending + [Gap(page.value.lost, cursor)];
      }
      pending := pending + Deliveries(page.value.events);
      received := received + Received(page.value);
    }
  }

  // ---------- what a page holds ----------

  predicate Matches(e: Event, kinds: Option<set<Kind>>) {
    kinds.None? || e.producer in kinds.value
  }

  // The wanted events numbered after `from` and up to `to`, in order.
  function Pick(history: seq<Event>, from: nat, to: nat, kinds: Option<set<Kind>>): seq<Row>
    requires to <= |history|
  {
    if to <= from then []
    else Pick(history, from, to - 1, kinds) + if Matches(history[to - 1], kinds) then [Row(to, history[to - 1])] else []
  }

  function Max(a: nat, b: nat): nat {
    if a < b then b else a
  }

  lemma {:induction false} SelectPicks(history: seq<Event>, j: nat, after: nat, kinds: Option<set<Kind>>)
    requires j <= |Window(history)|
    ensures Select(Window(history)[..j], after, kinds)
            == Pick(history, Max(after, Start(history)), Start(history) + j, kinds)
  {
    if j > 0 {
      var rows := Window(history)[..j];
      assert rows[..j - 1] == Window(history)[..j - 1];
      SelectPicks(history, j - 1, after, kinds);
    }
  }

  lemma {:induction false} PickLast(history: seq<Event>, from: nat, to: nat, kinds: Option<set<Kind>>)
    requires to <= |history|
    ensures var p := Pick(history, from, to, kinds);
      p != [] ==> from < p[|p| - 1].number <= to && p == Pick(history, from, p[|p| - 1].number, kinds)
  {
    if to > from {
      PickLast(history, from, to - 1, kinds);
    }
  }

  // A page cut short is what the cursor it gives picks.
  lemma {:induction false} PickPrefix(history: seq<Event>, from: nat, to: nat, kinds: Option<set<Kind>>, limit: nat)
    requires to <= |history| && 1 <= limit < |Pick(history, from, to, kinds)|
    ensures var p := Pick(history, from, to, kinds);
      from < p[limit - 1].number <= to && p[..limit] == Pick(history, from, p[limit - 1].number, kinds)
  {
    var front := Pick(history, from, to - 1, kinds);
    if limit < |front| {
      PickPrefix(history, from, to - 1, kinds, limit);
      assert Pick(history, from, to, kinds)[..limit] == front[..limit];
    } else {
      PickLast(history, from, to - 1, kinds);
      assert Pick(history, from, to, kinds)[..limit] == front;
    }
  }

  // A page holds exactly the wanted events after the cursor that the ring retains, up to the next cursor, in order;
  // and it reports exactly those that the ring has lost.
  lemma PageMeans(history: seq<Event>, after: nat, kinds: Option<set<Kind>>, limit: int)
    requires after <= |history| && 1 <= limit <= 64
    ensures var from := Max(after, Start(history));
            var p := PageOf(Window(history), |history|, after, kinds, limit).value;
      && from <= p.next <= |history| && p.events == Pick(history, from, p.next, kinds) && |p.events| <= limit
      && p.lost == from - after
  {
    var rows := Window(history);
    SelectPicks(history, |rows|, after, kinds);
    assert rows[..|rows|] == rows;
    var selected := Select(rows, after, kinds);
    if |selected| > limit {
      PickPrefix(history, Max(after, Start(history)), |history|, kinds, limit);
    }
  }

  lemma {:induction false} PickMeans(history: seq<Event>, from: nat, to: nat, kinds: Option<set<Kind>>, n: nat)
    requires to <= |history| && 1 <= n <= |history|
    ensures Row(n, history[n - 1]) in Pick(history, from, to, kinds)
            <==> from < n <= to && Matches(history[n - 1], kinds)
  {
    if to > from {
      PickMeans(history, from, to - 1, kinds, n);
    }
  }

  lemma {:induction false} PickCounts(history: seq<Event>, from: nat, to: nat)
    requires from <= to <= |history|
    ensures |Pick(history, from, to, None)| == to - from
  {
    if to > from {
      PickCounts(history, from, to - 1);
    }
  }

  // ---------- whole sessions ----------

  // What happened to a ring and one client, the latest last.
  datatype Session =
    | Fresh
    | Appended(before: Session, event: Event)
    | Polled(before: Session, kinds: Option<set<Kind>>)

  function History(s: Session): seq<Event> {
    match s
    case Fresh => []
    case Appended(before, e) => History(before) + [e]
    case Polled(before, _) => History(before)
  }

  function Answer(s: Session): Page
    requires s.Polled?
    decreases s, 0
  {
    PageOf(Window(History(s.before)), |History(s.before)|, Cursor(s.before), s.kinds, PAGE).value
  }

  function Cursor(s: Session): nat
    decreases s, 1
  {
    match s
    case Fresh => 0
    case Appended(before, _) => Cursor(before)
    case Polled(_, _) => Answer(s).next
  }

  // The events delivered so far, and the number reported as lost.
  function Got(s: Session): seq<Row> {
    match s
    case Fresh => []
    case Appended(before, _) => Got(before)
    case Polled(before, _) => Got(before) + Answer(s).events
  }

  function Lost(s: Session): nat {
    match s
    case Fresh => 0
    case Appended(before, _) => Lost(before)
    case Polled(before, _) => Lost(before) + Answer(s).lost
  }

  // The filter of the request that moved the cursor past event `n`, and whether the ring had lost `n` by then.
  function Asked(s: Session, n: nat): Option<set<Kind>> {
    match s
    case Fresh => None
    case Appended(before, _) => Asked(before, n)
    case Polled(before, kinds) => if n <= Cursor(before) then Asked(before, n) else kinds
  }

  predicate Gone(s: Session, n: nat) {
    match s
    case Fresh => false
    case Appended(before, _) => Gone(before, n)
    case Polled(before, _) => if n <= Cursor(before) then Gone(before, n) else n <= Start(History(before))
  }

  lemma {:induction false} CursorBounded(s: Session)
    ensures Cursor(s) <= |History(s)|
  {
    if !s.Fresh? {
      CursorBounded(s.before);
    }
    if s.Polled? {
      PageMeans(History(s.before), Cursor(s.before), s.kinds, PAGE);
    }
  }

  function From(s: Session): nat
    requires s.Polled?
  {
    Max(Cursor(s.before), Start(History(s.before)))
  }

  lemma Polling(s: Session)
    requires s.Polled?
    ensures Cursor(s.before) <= From(s) <= Cursor(s) <= |History(s)| && History(s) == History(s.before)
    ensures Answer(s).events == Pick(History(s), From(s), Cursor(s), s.kinds)
    ensures Answer(s).lost == From(s) - Cursor(s.before)
  {
    CursorBounded(s.before);
    PageMeans(History(s.before), Cursor(s.before), s.kinds, PAGE);
  }

  predicate Ordered(rows: seq<Row>) {
    forall i, j | 0 <= i < j < |rows| :: rows[i].number < rows[j].number
  }

  // Events of the history, numbered after `from` and up to `to`.
  predicate Genuine(rows: seq<Row>, history: seq<Event>, from: nat, to: nat)
    requires to <= |history|
  {
    forall i | 0 <= i < |rows| :: from < rows[i].number <= to && rows[i].event == history[rows[i].number - 1]
  }

  lemma {:induction false} PickOrdered(history: seq<Event>, from: nat, to: nat, kinds: Option<set<Kind>>)
    requires to <= |history|
    ensures Ordered(Pick(history, from, to, kinds)) && Genuine(Pick(history, from, to, kinds), history, from, to)
  {
    if to > from {
      PickOrdered(history, from, to - 1, kinds);
    }
  }

  lemma OrderedTogether(a: seq<Row>, b: seq<Row>, history: seq<Event>, from: nat, m: nat, to: nat)
    requires from <= m <= to <= |history| && Ordered(a) && Ordered(b) && Genuine(a, history, from, m)
    requires Genuine(b, history, m, to)
    ensures Ordered(a + b) && Genuine(a + b, history, from, to)
  {
  }

  lemma GenuineLonger(rows: seq<Row>, history: seq<Event>, e: Event, to: nat)
    requires to <= |history| && Genuine(rows, history, 0, to)
    ensures Genuine(rows, history + [e], 0, to)
  {
  }

  // In every session the events come in order, each at most once, as they were appended.
  lemma {:induction false} GotInOrder(s: Session)
    ensures Cursor(s) <= |History(s)|
    ensures Ordered(Got(s)) && Genuine(Got(s), History(s), 0, Cursor(s))
  {
    match s
    case Fresh =>
    case Appended(before, e) =>
      GotInOrder(before);
      GenuineLonger(Got(before), History(before), e, Cursor(before));
    case Polled(before, kinds) =>
      GotInOrder(before);
      Polling(s);
      PickOrdered(History(s), From(s), Cursor(s), kinds);
      OrderedTogether(Got(before), Answer(s).events, History(s), 0, Cursor(before), Cursor(s));
  }

  // Up to the cursor, an event is delivered exactly when its request wanted it and the ring still held it.
  lemma {:induction false} GotExactly(s: Session, n: nat)
    requires 1 <= n <= Cursor(s)
    ensures n <= |History(s)|
    ensures Row(n, History(s)[n - 1]) in Got(s) <==> !Gone(s, n) && Matches(History(s)[n - 1], Asked(s, n))
  {
    CursorBounded(s);
    match s
    case Appended(before, _) => GotExactly(before, n);
    case Polled(before, kinds) =>
      Polling(s);
      PickMeans(History(s), From(s), Cursor(s), kinds, n);
      GotInOrder(before);
      if n <= Cursor(before) {
        GotExactly(before, n);
      }
  }

  predicate Unfiltered(s: Session) {
    match s
    case Fresh => true
    case Appended(before, _) => Unfiltered(before)
    case Polled(before, kinds) => kinds.None? && Unfiltered(before)
  }

  // For a client without a filter, delivered and reported lost always add up to the cursor.
  lemma {:induction false} DeliveredPlusLost(s: Session)
    requires Unfiltered(s)
    ensures |Got(s)| + Lost(s) == Cursor(s)
  {
    match s
    case Fresh =>
    case Appended(before, _) => DeliveredPlusLost(before);
    case Polled(before, _) =>
      DeliveredPlusLost(before);
      Polling(s);
      PickCounts(History(s), From(s), Cursor(s));
  }

  function GoneUpTo(s: Session, n: nat): nat {
    if n == 0 then 0 else GoneUpTo(s, n - 1) + if Gone(s, n) then 1 else 0
  }

  // The losses reported are exactly the events that were gone, whatever the filters.
  lemma {:induction false} LostExactly(s: Session)
    ensures Lost(s) == GoneUpTo(s, Cursor(s))
  {
    match s
    case Fresh =>
    case Appended(before, _) => LostExactly(before); GoneSame(s, before, Cursor(before));
    case Polled(before, kinds) =>
      LostExactly(before);
      Polling(s);
      GoneSame(s, before, Cursor(before));
      GoneAfter(s, Cursor(s));
  }

  lemma {:induction false} GoneSame(s: Session, before: Session, n: nat)
    requires (s.Appended? || s.Polled?) && before == s.before && n <= Cursor(before)
    ensures GoneUpTo(s, n) == GoneUpTo(before, n)
  {
    if n > 0 {
      GoneSame(s, before, n - 1);
    }
  }

  lemma {:induction false} GoneAfter(s: Session, n: nat)
    requires s.Polled? && Cursor(s.before) <= n
    ensures var start := Start(History(s.before));
      GoneUpTo(s, n) == GoneUpTo(s, Cursor(s.before))
        + if n <= Max(Cursor(s.before), start) then n - Cursor(s.before)
          else Max(Cursor(s.before), start) - Cursor(s.before)
  {
    if n > Cursor(s.before) {
      GoneAfter(s, n - 1);
    }
  }
}
