/**
 The compressed capability catalogue that the agent reads, and the rule to read it.

 Fields that most descriptors share become defaults, and a descriptor that repeats the action catalogue refers to it;
 every entry keeps what differs.  JSON values are compared as encoded, so that equality is the identity that the
 program uses; the length of an encoding is any function of the value.
*/
module CapabilityPrompt {
  import opened Options

  // The field names that the program gives a meaning, and all others.
  datatype Key = Capabilities | ActionCatalog | Actions | CatalogRef | Defaults | Encoding | Named(name: nat)

  datatype Json = Atom(code: nat) | Text(key: Key) | Rule | Object(fields: map<Key, Json>)

  type Fields = map<Key, Json>

  // Each overlaid field replaces the one below.
  function Overlay(below: Fields, above: Fields): Fields {
    map k | k in below.Keys + above.Keys :: if k in above then above[k] else below[k]
  }

  // ---------- what is compressed ----------

  predicate Compressible(value: Fields) {
    && Capabilities in value && value[Capabilities].Object? && value[Capabilities].fields != map[]
    && Defaults !in value && Encoding !in value
    && forall name | name in value[Capabilities].fields ::
         value[Capabilities].fields[name].Object? && CatalogRef !in value[Capabilities].fields[name].fields
  }

  function ActionsOf(value: Fields): Fields {
    if ActionCatalog in value && value[ActionCatalog].Object? && Actions in value[ActionCatalog].fields
       && value[ActionCatalog].fields[Actions].Object?
    then value[ActionCatalog].fields[Actions].fields else map[]
  }

  // The descriptors in the order of the catalogue.
  function Items(caps: Fields, names: seq<Key>): seq<Fields>
    requires forall n | n in names :: n in caps && caps[n].Object?
  {
    seq(|names|, i requires 0 <= i < |names| => caps[names[i]].fields)
  }

  function Common(items: seq<Fields>): set<Key>
    requires items != []
  {
    set k | k in items[0] && forall i | 0 <= i < |items| :: k in items[i]
  }

  // ---------- the choice of a default ----------

  datatype Group = Group(value: Json, count: nat)

  function GroupAt(groups: seq<Group>, v: Json): nat {
    if groups == [] || groups[0].value == v then 0 else 1 + GroupAt(groups[1..], v)
  }

  function Grouped(groups: seq<Group>, v: Json): seq<Group> {
    var k := GroupAt(groups, v);
    if k < |groups| then groups[k := Group(groups[k].value, groups[k].count + 1)] else groups + [Group(v, 1)]
  }

  // The values of a field with their counts, in the order they first occur.
  function Groups(items: seq<Fields>, key: Key, n: nat): seq<Group>
    requires n <= |items| && forall i | 0 <= i < |items| :: key in items[i]
  {
    if n == 0 then [] else Grouped(Groups(items, key, n - 1), items[n - 1][key])
  }

  function Saving(size: Json -> nat, key: Key, g: Group): int {
    (g.count - 1) * (size(Text(key)) + size(g.value) + 1)
  }

  // The first group that saves most.
  function Best(size: Json -> nat, key: Key, groups: seq<Group>, n: nat): (b: nat)
    requires n <= |groups|
    ensures n > 0 ==> b < n
  {
    if n <= 1 then 0
    else
      var b := Best(size, key, groups, n - 1);
      if Saving(size, key, groups[n - 1]) > Saving(size, key, groups[b]) then n - 1 else b
  }

  function Default(size: Json -> nat, items: seq<Fields>, key: Key): Option<Json>
    requires forall i | 0 <= i < |items| :: key in items[i]
  {
    var groups := Groups(items, key, |items|);
    if groups == [] || Best(size, key, groups, |groups|) >= |groups| then None
    else
      var g := groups[Best(size, key, groups, |groups|)];
      if g.count > 1 then Some(g.value) else None
  }

  function DefaultsOf(size: Json -> nat, items: seq<Fields>): Fields
    requires items != []
  {
    map k | k in Common(items) && Default(size, items, k).Some? :: Default(size, items, k).value
  }

  // ---------- the compressed form ----------

  // A descriptor that holds every field of the action of its name refers to it.
  predicate Refers(item: Fields, actions: Fields, name: Key) {
    name in actions && actions[name].Object? && forall k | k in actions[name].fields :: k in item
  }

  function Inherited(item: Fields, defaults: Fields, actions: Fields, name: Key): Fields {
    if Refers(item, actions, name) then Overlay(defaults, actions[name].fields) else defaults
  }

  function Differing(item: Fields, inherited: Fields): Fields {
    map k | k in item && (k !in inherited || item[k] != inherited[k]) :: item[k]
  }

  function Entry(item: Fields, defaults: Fields, actions: Fields, name: Key): Fields {
    var own := Differing(item, Inherited(item, defaults, actions, name));
    if Refers(item, actions, name) then own[CatalogRef := Text(name)] else own
  }

  function Compact(value: Fields, defaults: Fields): Fields
    requires Compressible(value)
  {
    var caps := value[Capabilities].fields;
    value[Defaults := Object(defaults)][Encoding := Rule]
      [Capabilities := Object(Entries(caps, defaults, ActionsOf(value)))]
  }

  // `names` is the catalogue in its own order.
  ghost predicate Lists(value: Fields, names: seq<Key>) {
    Compressible(value) ==> names != [] && forall n :: n in names <==> n in value[Capabilities].fields
  }

  function Prompt(size: Json -> nat, value: Fields, names: seq<Key>): Fields
    requires Lists(value, names)
  {
    if !Compressible(value) then value
    else
      var compact := Compact(value, DefaultsOf(size, Items(value[Capabilities].fields, names)));
      if size(Object(compact)) < size(Object(value)) then compact else value
  }

  // ---------- reading it ----------

  // The rule the encoding states: the defaults, then the action referred to, then the entry's other fields.
  function Descriptor(v: Fields, entry: Fields): Fields {
    var defaults := if Defaults in v && v[Defaults].Object? then v[Defaults].fields else map[];
    var below :=
      if CatalogRef in entry && entry[CatalogRef].Text? && entry[CatalogRef].key in ActionsOf(v)
         && ActionsOf(v)[entry[CatalogRef].key].Object?
      then Overlay(defaults, ActionsOf(v)[entry[CatalogRef].key].fields) else defaults;
    Overlay(below, entry - {CatalogRef})
  }

  function Decode(v: Fields): Fields {
    if Encoding !in v || Capabilities !in v || !v[Capabilities].Object? then v
    else
      Restored(v, DecodedCaps(v, v[Capabilities].fields))
  }

  // ---------- the round trip ----------

  // What the defaults and the reference give is a part of the item's own fields.
  lemma InheritedWithin(item: Fields, defaults: Fields, actions: Fields, name: Key)
    requires forall k | k in defaults :: k in item
    ensures forall k | k in Inherited(item, defaults, actions, name) :: k in item
  {
  }

  // Laying the differing fields over the inherited ones gives the item back: nothing is lost, and nothing invented.
  lemma OverlayDiffering(item: Fields, inherited: Fields)
    requires forall k | k in inherited :: k in item
    ensures Overlay(inherited, Differing(item, inherited)) == item
  {
  }

  lemma EntryReads(v: Fields, item: Fields, defaults: Fields, name: Key)
    requires Defaults in v && v[Defaults] == Object(defaults) && CatalogRef !in item
    requires forall k | k in defaults :: k in item
    ensures Descriptor(v, Entry(item, defaults, ActionsOf(v), name)) == item
  {
    var inherited := Inherited(item, defaults, ActionsOf(v), name);
    InheritedWithin(item, defaults, ActionsOf(v), name);
    OverlayDiffering(item, inherited);
    var entry := Entry(item, defaults, ActionsOf(v), name);
    assert entry - {CatalogRef} == Differing(item, inherited);
  }

  lemma EntriesDecode(v: Fields, caps: Fields, defaults: Fields)
    requires Defaults in v && v[Defaults] == Object(defaults)
    requires forall n | n in caps ::
               caps[n].Object? && CatalogRef !in caps[n].fields && forall k | k in defaults :: k in caps[n].fields
    ensures forall n | n in caps :: Descriptor(v, Entry(caps[n].fields, defaults, ActionsOf(v), n)) == caps[n].fields
  {
    forall n | n in caps ensures Descriptor(v, Entry(caps[n].fields, defaults, ActionsOf(v), n)) == caps[n].fields {
      EntryReads(v, caps[n].fields, defaults, n);
    }
  }

  // The catalogue a compressed form was made from.
  function Restored(v: Fields, caps: Fields): Fields {
    (v - {Defaults, Encoding})[Capabilities := Object(caps)]
  }

  lemma CompactRestored(value: Fields, defaults: Fields)
    requires Compressible(value)
    ensures Restored(Compact(value, defaults), value[Capabilities].fields) == value
    ensures ActionsOf(Compact(value, defaults)) == ActionsOf(value)
  {
  }

  function DecodedCaps(v: Fields, caps: Fields): Fields {
    map n | n in caps :: if caps[n].Object? then Object(Descriptor(v, caps[n].fields)) else caps[n]
  }

  function Entries(caps: Fields, defaults: Fields, actions: Fields): Fields
    requires forall n | n in caps :: caps[n].Object?
  {
    map n | n in caps :: Object(Entry(caps[n].fields, defaults, actions, n))
  }

  lemma CapsDecode(v: Fields, caps: Fields, defaults: Fields)
    requires Defaults in v && v[Defaults] == Object(defaults)
    requires forall n | n in caps ::
               caps[n].Object? && CatalogRef !in caps[n].fields && forall k | k in defaults :: k in caps[n].fields
    ensures DecodedCaps(v, Entries(caps, defaults, ActionsOf(v))) == caps
  {
    EntriesDecode(v, caps, defaults);
  }

  lemma CompactDecodes(value: Fields, defaults: Fields)
    requires Compressible(value)
    requires forall n, k | n in value[Capabilities].fields && k in defaults :: k in value[Capabilities].fields[n].fields
    ensures Decode(Compact(value, defaults)) == value
  {
    CompactRestored(value, defaults);
    CapsDecode(Compact(value, defaults), value[Capabilities].fields, defaults);
  }

  lemma DefaultsCommon(size: Json -> nat, caps: Fields, names: seq<Key>)
    requires names != [] && forall n | n in names :: n in caps && caps[n].Object?
    ensures forall n, k | n in names && k in DefaultsOf(size, Items(caps, names)) :: k in caps[n].fields
  {
    var items := Items(caps, names);
    forall n, k | n in names && k in DefaultsOf(size, items) ensures k in caps[n].fields {
      var i :| 0 <= i < |names| && names[i] == n;
      assert k in items[i];
    }
  }

  // Every catalogue that does not claim to be encoded already is read back exactly; one that does is left as it is.
  lemma PromptRoundTrip(size: Json -> nat, value: Fields, names: seq<Key>)
    requires Lists(value, names)
    ensures if Encoding in value then Prompt(size, value, names) == value
            else Decode(Prompt(size, value, names)) == value
  {
    if Compressible(value) {
      DefaultsCommon(size, value[Capabilities].fields, names);
      CompactDecodes(value, DefaultsOf(size, Items(value[Capabilities].fields, names)));
    }
  }

  // The prompt is never longer than the catalogue, and every other field is the same.
  lemma PromptKeeps(size: Json -> nat, value: Fields, names: seq<Key>)
    requires Lists(value, names)
    ensures var p := Prompt(size, value, names);
      && size(Object(p)) <= size(Object(value))
      && forall k | k in value && k != Capabilities :: k in p && p[k] == value[k]
    ensures var p := Prompt(size, value, names);
      p != value ==> p.Keys == value.Keys + {Defaults, Encoding} && size(Object(p)) < size(Object(value))
  {
  }

  // ---------- the loops ----------

  method FindGroup(groups: seq<Group>, v: Json) returns (k: nat)
    ensures k == GroupAt(groups, v)
  {
    k := 0;
    while k < |groups| && groups[k].value != v
      invariant k <= |groups| && k + GroupAt(groups[k..], v) == GroupAt(groups, v)
    {
      k := k + 1;
    }
  }

  method CountValues(items: seq<Fields>, key: Key) returns (groups: seq<Group>)
    requires forall i | 0 <= i < |items| :: key in items[i]
    ensures groups == Groups(items, key, |items|)
  {
    groups := [];
    for i := 0 to |items|
      invariant groups == Groups(items, key, i)
    {
      var k := FindGroup(groups, items[i][key]);
      if k < |groups| {
        groups := groups[k := Group(groups[k].value, groups[k].count + 1)];
      } else {
        groups := groups + [Group(items[i][key], 1)];
      }
    }
  }

  method ChooseBest(size: Json -> nat, key: Key, groups: seq<Group>) returns (b: nat)
    ensures b == Best(size, key, groups, |groups|)
  {
    b := 0;
    var i := 1;
    while i < |groups|
      invariant 1 <= i && (i <= |groups| || groups == []) && b == Best(size, key, groups, if groups == [] then 0 else i)
      invariant b < i
    {
      if Saving(size, key, groups[i]) > Saving(size, key, groups[b]) {
        b := i;
      }
      i := i + 1;
    }
  }

  method ChooseDefaults(size: Json -> nat, items: seq<Fields>) returns (defaults: Fields)
    requires items != []
    ensures defaults == DefaultsOf(size, items)
  {
    defaults := map[];
    var todo := Common(items);
    ghost var done: set<Key> := {};
    while todo != {}
      invariant todo + done == Common(items) && todo !! done
      invariant defaults == map k | k in done && Default(size, items, k).Some? :: Default(size, items, k).value
      decreases todo
    {
      var key :| key in todo;
      var groups := CountValues(items, key);
      var b := ChooseBest(size, key, groups);
      if b < |groups| && groups[b].count > 1 {
        defaults := defaults[key := groups[b].value];
      }
      todo := todo - {key};
      done := done + {key};
    }
  }

  method CompressEntries(caps: Fields, names: seq<Key>, defaults: Fields, actions: Fields) returns (compact: Fields)
    requires forall n | n in caps :: caps[n].Object? && CatalogRef !in caps[n].fields
    requires forall n :: n in names <==> n in caps
    ensures compact == Entries(caps, defaults, actions)
  {
    compact := map[];
    for i := 0 to |names|
      invariant compact.Keys == set n | n in names[..i]
      invariant forall n | n in compact ::
                  n in caps && compact[n] == Object(Entry(caps[n].fields, defaults, actions, n))
    {
      var entry := CompressEntry(caps[names[i]].fields, defaults, actions, names[i]);
      compact := compact[names[i] := Object(entry)];
    }
  }

  method CompressEntry(item: Fields, defaults: Fields, actions: Fields, name: Key) returns (entry: Fields)
    requires CatalogRef !in item
    ensures entry == Entry(item, defaults, actions, name)
  {
    var inherited := defaults;
    entry := map[];
    if Refers(item, actions, name) {
      inherited := Overlay(inherited, actions[name].fields);
      entry := entry[CatalogRef := Text(name)];
    }
    entry := Overlay(entry, Differing(item, inherited));
    EntryOrder(item, defaults, actions, name);
  }

  method CapabilityPrompt(size: Json -> nat, value: Fields, names: seq<Key>) returns (prompt: Fields)
    requires Lists(value, names)
    ensures prompt == Prompt(size, value, names)
  {
    if !Compressible(value) {
      return value;
    }
    var caps := value[Capabilities].fields;
    var defaults := ChooseDefaults(size, Items(caps, names));
    var compact := CompressEntries(caps, names, defaults, ActionsOf(value));
    var v := value[Defaults := Object(defaults)][Encoding := Rule][Capabilities := Object(compact)];
    prompt := if size(Object(v)) < size(Object(value)) then v else value;
  }

  lemma EntryOrder(item: Fields, defaults: Fields, actions: Fields, name: Key)
    requires CatalogRef !in item
    ensures var own := Differing(item, Inherited(item, defaults, actions, name));
      Entry(item, defaults, actions, name)
      == Overlay(if Refers(item, actions, name) then map[CatalogRef := Text(name)] else map[], own)
  {
  }

  // ---------- what a default is ----------

  function CountOf(items: seq<Fields>, key: Key, v: Json, n: nat): nat
    requires n <= |items| && forall i | 0 <= i < |items| :: key in items[i]
  {
    if n == 0 then 0 else CountOf(items, key, v, n - 1) + if items[n - 1][key] == v then 1 else 0
  }

  lemma {:induction false} GroupAtMeans(groups: seq<Group>, v: Json)
    ensures var k := GroupAt(groups, v);
      k <= |groups| && (k < |groups| ==> groups[k].value == v) && forall i | 0 <= i < k :: groups[i].value != v
  {
    if groups != [] && groups[0].value != v {
      GroupAtMeans(groups[1..], v);
      assert forall i | 1 <= i < |groups| :: groups[i] == groups[1..][i - 1];
    }
  }

  predicate Finds(items: seq<Fields>, key: Key, groups: seq<Group>, n: nat)
    requires n <= |items| && forall i | 0 <= i < |items| :: key in items[i]
  {
    forall i | 0 <= i < n :: GroupAt(groups, items[i][key]) < |groups|
  }

  predicate Counts(items: seq<Fields>, key: Key, groups: seq<Group>, n: nat)
    requires n <= |items| && forall i | 0 <= i < |items| :: key in items[i]
  {
    forall i | 0 <= i < |groups| :: groups[i].count == CountOf(items, key, groups[i].value, n)
  }

  lemma GroupedFinds(groups: seq<Group>, v: Json, w: Json)
    requires GroupAt(groups, w) < |groups| || w == v
    ensures GroupAt(Grouped(groups, v), w) < |Grouped(groups, v)|
  {
    var groups' := Grouped(groups, v);
    GroupAtMeans(groups, v);
    GroupAtMeans(groups, w);
    GroupAtMeans(groups', w);
    var k := if w == v then GroupAt(groups, v) else GroupAt(groups, w);
    assert groups'[k].value == w;
  }

  predicate Distinct(groups: seq<Group>) {
    forall i, j | 0 <= i < j < |groups| :: groups[i].value != groups[j].value
  }

  lemma GroupedDistinct(groups: seq<Group>, v: Json)
    requires Distinct(groups)
    ensures Distinct(Grouped(groups, v))
  {
    GroupAtMeans(groups, v);
  }

  lemma FindsStep(items: seq<Fields>, key: Key, groups: seq<Group>, n: nat)
    requires 0 < n <= |items| && (forall i | 0 <= i < |items| :: key in items[i])
    requires Finds(items, key, groups, n - 1)
    ensures Finds(items, key, Grouped(groups, items[n - 1][key]), n)
  {
    forall i | 0 <= i < n
      ensures GroupAt(Grouped(groups, items[n - 1][key]), items[i][key]) < |Grouped(groups, items[n - 1][key])|
    {
      GroupedFinds(groups, items[n - 1][key], items[i][key]);
    }
  }

  lemma CountsStep(items: seq<Fields>, key: Key, groups: seq<Group>, n: nat)
    requires 0 < n <= |items| && (forall i | 0 <= i < |items| :: key in items[i])
    requires Distinct(groups) && Counts(items, key, groups, n - 1) && Finds(items, key, groups, n - 1)
    ensures Counts(items, key, Grouped(groups, items[n - 1][key]), n)
  {
    var v := items[n - 1][key];
    GroupAtMeans(groups, v);
    if GroupAt(groups, v) == |groups| {
      CountAbsent(items, key, groups, n - 1, v);
    }
  }

  lemma {:induction false} GroupsCount(items: seq<Fields>, key: Key, n: nat)
    requires n <= |items| && forall i | 0 <= i < |items| :: key in items[i]
    ensures Counts(items, key, Groups(items, key, n), n) && Finds(items, key, Groups(items, key, n), n)
    ensures Distinct(Groups(items, key, n))
  {
    if n > 0 {
      GroupsCount(items, key, n - 1);
      CountsStep(items, key, Groups(items, key, n - 1), n);
      FindsStep(items, key, Groups(items, key, n - 1), n);
      GroupedDistinct(Groups(items, key, n - 1), items[n - 1][key]);
    }
  }

  lemma {:induction false} CountAbsent(items: seq<Fields>, key: Key, groups: seq<Group>, n: nat, v: Json)
    requires n <= |items| && forall i | 0 <= i < |items| :: key in items[i]
    requires GroupAt(groups, v) == |groups| && forall i | 0 <= i < n :: GroupAt(groups, items[i][key]) < |groups|
    ensures CountOf(items, key, v, n) == 0
  {
    if n > 0 {
      CountAbsent(items, key, groups, n - 1, v);
    }
  }

  lemma {:induction false} BestMeans(size: Json -> nat, key: Key, groups: seq<Group>, n: nat)
    requires 0 < n <= |groups|
    ensures Best(size, key, groups, n) < n
    ensures forall i | 0 <= i < n ::
            Saving(size, key, groups[i]) <= Saving(size, key, groups[Best(size, key, groups, n)])
  {
    if n > 1 {
      BestMeans(size, key, groups, n - 1);
    }
  }

  // A default is shared by at least two descriptors, and no other value of its field saves more.
  lemma DefaultMeans(size: Json -> nat, items: seq<Fields>, key: Key, w: Json)
    requires forall i | 0 <= i < |items| :: key in items[i]
    requires Default(size, items, key).Some? && CountOf(items, key, w, |items|) > 0
    ensures var v := Default(size, items, key).value;
      && CountOf(items, key, v, |items|) >= 2
      && Saving(size, key, Group(w, CountOf(items, key, w, |items|)))
            <= Saving(size, key, Group(v, CountOf(items, key, v, |items|)))
  {
    var groups := Groups(items, key, |items|);
    GroupsCount(items, key, |items|);
    BestMeans(size, key, groups, |groups|);
    GroupAtMeans(groups, w);
    CountedFound(items, key, groups, |items|, w);
  }

  lemma {:induction false} CountedFound(items: seq<Fields>, key: Key, groups: seq<Group>, n: nat, w: Json)
    requires n <= |items| && forall i | 0 <= i < |items| :: key in items[i]
    requires forall i | 0 <= i < n :: GroupAt(groups, items[i][key]) < |groups|
    requires CountOf(items, key, w, n) > 0
    ensures GroupAt(groups, w) < |groups|
  {
    if items[n - 1][key] != w {
      CountedFound(items, key, groups, n - 1, w);
    }
  }
}
