/**
 * The meters `MicrometerEventKeeper` works with. Micrometer's `MeterRegistry`
 * holds one meter per id (name and tags), of one kind; the keeper's maps send
 * each event to the id of the meter it records into, so two events whose ids
 * coincide share one meter. Recording is `computeIfAbsent`, which registers a
 * generic meter on demand, followed by adding to the meter found.
 */
module Meters {
  import opened Wrappers
  import opened EventMetadata
  import opened PreregisteredText

  datatype Tag = Tag(key: string, value: string)

  /** `getTags(event)`: the single tag `event = name()`. */
  function Tags(event: Event): (r: seq<Tag>)
    ensures |r| == 1 && r[0].key == "event" && r[0].value == event.Name()
  {
    [Tag("event", event.Name())]
  }

  datatype Kind = CounterKind | TimerKind

  /** What identifies a meter in the registry. */
  datatype MeterId = MeterId(name: string, tags: seq<Tag>)

  /**
   * Where the description a meter was registered with comes from: the text
   * the constructor writes for an event, or `getCountDescription` or
   * `getTimerDescription` of an event. `Text` spells it out.
   */
  datatype Description = Handwritten(event: Event) | CountOf(event: Event) | TimeOf(event: Event)

  /** The description text. */
  function Text(description: Description): (r: string)
    requires description.Handwritten? ==> !description.event.Other?
    ensures description.CountOf? ==> r == CountDescription(description.event)
    ensures description.TimeOf? ==> r == TimerDescription(description.event)
  {
    match description
    case Handwritten(event) => HandwrittenDescription(event)
    case CountOf(event) => CountDescription(event)
    case TimeOf(event) => TimerDescription(event)
  }

  /** A registered meter: its kind, the metadata it was registered with and its accumulated total. */
  datatype Meter = Meter(kind: Kind, description: Description, baseUnit: Option<string>, total: int)

  type Registry = map<MeterId, Meter>

  const TYPE_CLASH: string := "There is already a registered meter of a different type with the same name"

  /** The id `getGenericCounter` and `getGenericTimer` register under: `getMeterName(event)` and `getTags(event)`. */
  function GenericId(event: Event): MeterId
  {
    MeterId(MeterName(event), Tags(event))
  }

  /** The generic id depends on the event's name alone. */
  lemma SameNameSameId(a: Event, b: Event)
    requires a.Name() == b.Name()
    ensures GenericId(a) == GenericId(b)
  {
  }

  /** What `getGenericCounter(event)` asks to register. */
  function GenericCounter(event: Event): (r: Meter)
    ensures r.kind == CounterKind && r.total == 0 && r.baseUnit == None
    ensures r.description == CountOf(event) && Text(r.description) == CountDescription(event)
  {
    Meter(CounterKind, CountOf(event), None, 0)
  }

  /** What `getGenericTimer(event)` asks to register. */
  function GenericTimer(event: Event): (r: Meter)
    ensures r.kind == TimerKind && r.total == 0 && r.baseUnit == None
    ensures r.description == TimeOf(event) && Text(r.description) == TimerDescription(event)
  {
    Meter(TimerKind, TimeOf(event), None, 0)
  }

  /**
   * `register` on the registry: an id already registered with the same kind
   * gives back the meter registered first, an id registered with the other kind
   * throws, and a new id is added.
   */
  function Register(registry: Registry, id: MeterId, meter: Meter): (r: Result<Registry, Exception>)
    ensures r.Err? <==> id in registry && registry[id].kind != meter.kind
    ensures r.Err? ==> r.error == IllegalArgumentException(TYPE_CLASH)
    ensures r.Ok? ==> r.value.Keys == registry.Keys + {id} && r.value[id].kind == meter.kind
    ensures r.Ok? ==> forall j :: j in registry ==> r.value[j] == registry[j]
    ensures r.Ok? && id !in registry ==> r.value[id] == meter
  {
    if id !in registry then Ok(registry[id := meter])
    else if registry[id].kind == meter.kind then Ok(registry)
    else Err(IllegalArgumentException(TYPE_CLASH))
  }

  /** Registering the same id and kind twice is registering it once. */
  lemma RegisterIdempotent(registry: Registry, id: MeterId, meter: Meter, again: Meter)
    requires again.kind == meter.kind
    requires Register(registry, id, meter).Ok?
    ensures Register(Register(registry, id, meter).value, id, again) == Register(registry, id, meter)
  {
  }

  /** Every entry of the keeper's map `index` is the id of a registered meter of `kind`. */
  predicate Indexed(registry: Registry, index: map<Event, MeterId>, kind: Kind)
  {
    forall e :: e in index ==> index[e] in registry && registry[index[e]].kind == kind
  }

  /** Every entry of the keeper's map `index` is the event's generic id. */
  predicate Named(index: map<Event, MeterId>)
  {
    forall e :: e in index ==> index[e] == GenericId(e)
  }

  /** The registry and the keeper's two maps, event to counter and event to timer. */
  datatype KeeperState = KeeperState(registry: Registry, counters: map<Event, MeterId>, timers: map<Event, MeterId>)

  /** Each map entry names a registered meter of the map's kind and is the event's generic id. */
  predicate Consistent(state: KeeperState)
  {
    && Indexed(state.registry, state.counters, CounterKind) && Indexed(state.registry, state.timers, TimerKind)
    && Named(state.counters) && Named(state.timers)
  }

  /** The total of the meter registered under `id`, 0 when there is none. */
  function Held(registry: Registry, id: MeterId): int
  {
    if id in registry then registry[id].total else 0
  }

  /** What `getCount`/`getTimeNanos` read for `event`: the total of its meter, 0 when it has none. */
  function Total(registry: Registry, index: map<Event, MeterId>, event: Event): int
  {
    if event in index then Held(registry, index[event]) else 0
  }

  /** `increment`/`record` on the meter under `id`: its total grows by `amount`. */
  function Add(registry: Registry, id: MeterId, amount: int): (r: Registry)
    requires id in registry
    ensures r.Keys == registry.Keys
    ensures r[id].kind == registry[id].kind && r[id].total == registry[id].total + amount
    ensures forall j :: j in registry && j != id ==> r[j] == registry[j]
  {
    registry[id := registry[id].(total := registry[id].total + amount)]
  }

  /** Adding twice to the meter under `id` is adding the sum once. */
  lemma AddTwice(registry: Registry, id: MeterId, a: int, b: int)
    requires id in registry
    ensures Add(Add(registry, id, a), id, b) == Add(registry, id, a + b)
  {
  }

  /** The registry, the keeper's map and what was thrown, after one recording. */
  datatype Recording = Recording(registry: Registry, index: map<Event, MeterId>, thrown: Option<Exception>)

  /**
   * `index.computeIfAbsent(event, create)` followed by adding `amount`, where
   * `create` registers `created` under `id`: the meter the map holds for
   * `event`, or else the one `register` returns, grows by `amount`. When
   * `register` throws, the exception propagates and the map gains no entry.
   */
  function Record(registry: Registry, index: map<Event, MeterId>, event: Event, id: MeterId, amount: int, created: Meter): Recording
    requires event in index ==> index[event] in registry
  {
    if event in index then
      Recording(Add(registry, index[event], amount), index, None)
    else
      match Register(registry, id, created)
      case Err(e) => Recording(registry, index, Some(e))
      case Ok(registered) =>
        Recording(Add(registered, id, amount), index[event := id], None)
  }

  /**
   * A recording throws exactly when the event has no meter yet and its id is
   * registered with the other kind, and then nothing changes.
   */
  lemma RecordThrows(registry: Registry, index: map<Event, MeterId>, event: Event, id: MeterId, amount: int, created: Meter)
    requires Indexed(registry, index, created.kind)
    ensures var r := Record(registry, index, event, id, amount, created);
            && (r.thrown.Some? <==> event !in index && id in registry && registry[id].kind != created.kind)
            && (r.thrown.Some? ==> r == Recording(registry, index, Some(IllegalArgumentException(TYPE_CLASH))))
  {
  }

  /**
   * A recording that does not throw sends the event to `id` (the id its map
   * entry already holds), adds `amount` to the meter under `id`, keeps the
   * map's invariant, and changes no other meter.
   */
  lemma RecordSucceeds(registry: Registry, index: map<Event, MeterId>, event: Event, id: MeterId, amount: int, created: Meter)
    requires Indexed(registry, index, created.kind) && created.total == 0
    requires event in index ==> index[event] == id
    requires Record(registry, index, event, id, amount, created).thrown.None?
    ensures var r := Record(registry, index, event, id, amount, created);
            && r.index == index[event := id]
            && Indexed(r.registry, r.index, created.kind)
            && r.registry.Keys == registry.Keys + {id}
            && Held(r.registry, id) == Held(registry, id) + amount
            && (forall j :: j != id ==> Held(r.registry, j) == Held(registry, j))
            && (forall j :: j in registry ==> r.registry[j].kind == registry[j].kind)
  {
    if event !in index {
      var registered := Register(registry, id, created).value;
      assert Held(registered, id) == Held(registry, id);
    }
  }

  /**
   * Recording for `event` leaves alone the total of every other event whose
   * entry is another id, in the same map and in any map that keeps its
   * invariant.
   */
  lemma RecordFrame(registry: Registry, index: map<Event, MeterId>, other: map<Event, MeterId>, otherKind: Kind,
                    event: Event, id: MeterId, amount: int, created: Meter)
    requires Indexed(registry, index, created.kind) && Indexed(registry, other, otherKind) && created.total == 0
    requires event in index ==> index[event] == id
    ensures var r := Record(registry, index, event, id, amount, created);
            && (forall e :: e != event && (e in index ==> index[e] != id) ==> Total(r.registry, r.index, e) == Total(registry, index, e))
            && (otherKind != created.kind ==> forall e :: Total(r.registry, other, e) == Total(registry, other, e))
            && Indexed(r.registry, other, otherKind)
  {
    RecordThrows(registry, index, event, id, amount, created);
    if Record(registry, index, event, id, amount, created).thrown.None? {
      RecordSucceeds(registry, index, event, id, amount, created);
    }
  }

  /**
   * A second recording for the same event finds the meter the first one left:
   * together they are one recording of the sum, whatever the second call would
   * have created.
   */
  lemma RecordTwice(registry: Registry, index: map<Event, MeterId>, event: Event, id: MeterId, a: int, b: int, created: Meter, again: Meter)
    requires Indexed(registry, index, created.kind) && created.total == 0
    requires event in index ==> index[event] == id
    requires again.kind == created.kind
    ensures var first := Record(registry, index, event, id, a, created);
            Indexed(first.registry, first.index, created.kind) &&
            var second := Record(first.registry, first.index, event, id, b, again);
            second == Record(registry, index, event, id, a + b, created)
  {
    var first := Record(registry, index, event, id, a, created);
    RecordThrows(registry, index, event, id, a, created);
    if first.thrown.None? {
      RecordSucceeds(registry, index, event, id, a, created);
      var base := if event in index then registry else Register(registry, id, created).value;
      assert first.registry == Add(base, id, a);
      AddTwice(base, id, a, b);
    } else {
      RecordThrows(registry, index, event, id, b, again);
    }
  }

  /**
   * Once an event has a meter of one kind, recording it as the other kind
   * under the same id throws.
   */
  lemma OtherKindThrows(registry: Registry, index: map<Event, MeterId>, other: map<Event, MeterId>,
                        event: Event, id: MeterId, a: int, b: int, created: Meter, clashing: Meter)
    requires Indexed(registry, index, created.kind) && Indexed(registry, other, clashing.kind) && created.total == 0
    requires event in index ==> index[event] == id
    requires clashing.kind != created.kind && event !in other
    requires Record(registry, index, event, id, a, created).thrown.None?
    ensures var first := Record(registry, index, event, id, a, created);
            Record(first.registry, other, event, id, b, clashing).thrown == Some(IllegalArgumentException(TYPE_CLASH))
  {
    RecordSucceeds(registry, index, event, id, a, created);
    RecordFrame(registry, index, other, clashing.kind, event, id, a, created);
  }

  /** Recording keeps every entry of the recorded map pointing at a meter of its kind, throw or not. */
  lemma RecordKeepsIndexed(registry: Registry, index: map<Event, MeterId>, event: Event, id: MeterId, amount: int, created: Meter)
    requires Indexed(registry, index, created.kind)
    ensures var r := Record(registry, index, event, id, amount, created);
            Indexed(r.registry, r.index, created.kind)
  {
    if event in index {
      AddKeepsIndexed(registry, index[event], amount, index, created.kind);
    } else if Register(registry, id, created).Ok? {
      RegisterKeepsIndexed(registry, id, created, index, created.kind, event);
      AddKeepsIndexed(Register(registry, id, created).value, id, amount, index[event := id], created.kind);
    }
  }

  /** Recording in one map keeps every entry of the other map pointing at a meter of its kind, throw or not. */
  lemma RecordKeepsOther(registry: Registry, index: map<Event, MeterId>, other: map<Event, MeterId>, otherKind: Kind,
                         event: Event, id: MeterId, amount: int, created: Meter)
    requires Indexed(registry, index, created.kind) && Indexed(registry, other, otherKind)
    ensures var r := Record(registry, index, event, id, amount, created);
            Indexed(r.registry, other, otherKind)
  {
    if event in index {
      AddKeepsIndexed(registry, index[event], amount, other, otherKind);
    } else if Register(registry, id, created).Ok? {
      RegisterKeepsIndexed(registry, id, created, other, otherKind, event);
      AddKeepsIndexed(Register(registry, id, created).value, id, amount, other, otherKind);
    }
  }

  /** Recording under the generic id keeps every entry of the map its event's generic id, throw or not. */
  lemma RecordKeepsNamed(registry: Registry, index: map<Event, MeterId>, event: Event, amount: int, created: Meter)
    requires Indexed(registry, index, created.kind) && Named(index)
    ensures var r := Record(registry, index, event, GenericId(event), amount, created);
            Named(r.index)
  {
  }

  /** Adding to a meter keeps every map entry pointing at a meter of the same kind. */
  lemma AddKeepsIndexed(registry: Registry, id: MeterId, amount: int, index: map<Event, MeterId>, kind: Kind)
    requires id in registry && Indexed(registry, index, kind)
    ensures Indexed(Add(registry, id, amount), index, kind)
  {
  }

  /**
   * A successful `register` keeps every map entry pointing at a meter of the
   * same kind, and an entry sending `event` to its id points at its kind.
   */
  lemma RegisterKeepsIndexed(registry: Registry, id: MeterId, meter: Meter, index: map<Event, MeterId>, kind: Kind, event: Event)
    requires Indexed(registry, index, kind) && Register(registry, id, meter).Ok?
    ensures Indexed(Register(registry, id, meter).value, index, kind)
    ensures kind == meter.kind ==> Indexed(Register(registry, id, meter).value, index[event := id], kind)
  {
  }

  /** `count(event, amt)` keeps the keeper's state consistent, whether or not it throws. */
  lemma CountConsistent(state: KeeperState, event: Event, amount: int)
    requires Consistent(state)
    ensures var r := Record(state.registry, state.counters, event, GenericId(event), amount, GenericCounter(event));
            Consistent(KeeperState(r.registry, r.index, state.timers))
  {
    var id, created := GenericId(event), GenericCounter(event);
    RecordKeepsIndexed(state.registry, state.counters, event, id, amount, created);
    RecordKeepsOther(state.registry, state.counters, state.timers, TimerKind, event, id, amount, created);
    RecordKeepsNamed(state.registry, state.counters, event, amount, created);
  }

  /** `timeNanos(event, nanos)` keeps the keeper's state consistent, whether or not it throws. */
  lemma TimeConsistent(state: KeeperState, event: Event, nanos: int)
    requires Consistent(state)
    ensures var r := Record(state.registry, state.timers, event, GenericId(event), nanos, GenericTimer(event));
            Consistent(KeeperState(r.registry, state.counters, r.index))
  {
    var id, created := GenericId(event), GenericTimer(event);
    RecordKeepsIndexed(state.registry, state.timers, event, id, nanos, created);
    RecordKeepsOther(state.registry, state.timers, state.counters, CounterKind, event, id, nanos, created);
    RecordKeepsNamed(state.registry, state.timers, event, nanos, created);
  }

  /**
   * An event the other map already holds under its generic id cannot be
   * recorded in this map for the first time: `register` finds the meter of
   * the other kind and throws.
   */
  lemma CrossKindThrows(registry: Registry, index: map<Event, MeterId>, other: map<Event, MeterId>, otherKind: Kind,
                        event: Event, amount: int, created: Meter)
    requires Indexed(registry, other, otherKind) && Named(other)
    requires event in other && event !in index && created.kind != otherKind
    ensures Record(registry, index, event, GenericId(event), amount, created).thrown == Some(IllegalArgumentException(TYPE_CLASH))
  {
  }

  /**
   * An event whose id is the id the map holds for another event shares that
   * event's meter: recording it does not throw and adds to the other event's
   * total.
   */
  lemma SharedMeter(registry: Registry, index: map<Event, MeterId>, holder: Event, event: Event, id: MeterId, amount: int, created: Meter)
    requires Indexed(registry, index, created.kind)
    requires holder in index && index[holder] == id && event !in index
    ensures var r := Record(registry, index, event, id, amount, created);
            && r.thrown.None? && r.index[event] == id
            && Total(r.registry, r.index, holder) == Total(registry, index, holder) + amount
            && Total(r.registry, r.index, event) == Total(r.registry, r.index, holder)
  {
  }

  /** One `register` call whose result is put into the keeper's map: the event, the id and the meter. */
  datatype Registration = Registration(event: Event, id: MeterId, meter: Meter)

  /** A registry and the keeper's map after some `index.put(event, register(...))` calls. */
  datatype Registered = Registered(registry: Registry, index: map<Event, MeterId>)

  /** The events of `regs`. */
  function EventsOf(regs: seq<Registration>): set<Event>
  {
    set i | 0 <= i < |regs| :: regs[i].event
  }

  /** The ids of `regs`. */
  function IdsOf(regs: seq<Registration>): set<MeterId>
  {
    set i | 0 <= i < |regs| :: regs[i].id
  }

  /** Every meter of `regs` is a fresh meter of `kind`. */
  predicate Fresh(regs: seq<Registration>, kind: Kind)
  {
    forall i :: 0 <= i < |regs| ==> regs[i].meter.kind == kind && regs[i].meter.total == 0
  }

  /** No event occurs twice in `regs`. */
  predicate DistinctEvents(regs: seq<Registration>)
  {
    forall i, k :: 0 <= i < k < |regs| ==> regs[i].event != regs[k].event
  }

  /** Every registration of `regs` is under its event's generic id. */
  predicate Generic(regs: seq<Registration>)
  {
    forall i :: 0 <= i < |regs| ==> regs[i].id == GenericId(regs[i].event)
  }

  /**
   * `index.put(event, register(id, meter))` for each registration in turn;
   * the first `register` that throws ends the run.
   */
  function RegisterAll(registry: Registry, index: map<Event, MeterId>, regs: seq<Registration>): Result<Registered, Exception>
    decreases |regs|
  {
    if regs == [] then Ok(Registered(registry, index))
    else
      match Register(registry, regs[0].id, regs[0].meter)
      case Err(e) => Err(e)
      case Ok(registered) => RegisterAll(registered, index[regs[0].event := regs[0].id], regs[1..])
  }

  /**
   * Registering meters of one kind throws exactly when one of their ids is
   * already registered with the other kind.
   */
  lemma {:induction false} RegisterAllThrows(registry: Registry, index: map<Event, MeterId>, regs: seq<Registration>, kind: Kind)
    requires Fresh(regs, kind)
    decreases |regs|
    ensures var r := RegisterAll(registry, index, regs);
            && (r.Err? <==> exists j :: j in IdsOf(regs) && j in registry && registry[j].kind != kind)
            && (r.Err? ==> r.error == IllegalArgumentException(TYPE_CLASH))
  {
    if regs != [] {
      var x := regs[0];
      var rest := regs[1..];
      assert forall i :: 1 <= i < |regs| ==> regs[i] == rest[i - 1];
      assert IdsOf(regs) == {x.id} + IdsOf(rest);
      match Register(registry, x.id, x.meter)
      case Err(e) =>
      case Ok(registered) =>
        RegisterAllThrows(registered, index[x.event := x.id], rest, kind);
        assert forall j :: j in registered && registered[j].kind != kind ==> j in registry && registry[j].kind != kind;
    }
  }

  /**
   * Registering meters of one kind without a throw adds each id, holding a
   * meter of that kind; the meters already there and every total stay as
   * they were.
   */
  lemma {:induction false} RegisterAllMeters(registry: Registry, index: map<Event, MeterId>, regs: seq<Registration>, kind: Kind)
    requires Fresh(regs, kind)
    requires RegisterAll(registry, index, regs).Ok?
    decreases |regs|
    ensures var r := RegisterAll(registry, index, regs).value;
            && r.registry.Keys == registry.Keys + IdsOf(regs)
            && (forall i :: 0 <= i < |regs| ==> r.registry[regs[i].id].kind == kind)
            && (forall j :: j in registry ==> r.registry[j] == registry[j])
            && (forall j :: Held(r.registry, j) == Held(registry, j))
  {
    if regs != [] {
      var x := regs[0];
      var registered := Register(registry, x.id, x.meter).value;
      var rest := regs[1..];
      assert forall i :: 1 <= i < |regs| ==> regs[i] == rest[i - 1];
      assert IdsOf(regs) == {x.id} + IdsOf(rest);
      assert forall j :: Held(registered, j) == Held(registry, j);
      RegisterAllMeters(registered, index[x.event := x.id], rest, kind);
    }
  }

  /**
   * Registering without a throw sends each event of `regs` to its id and
   * leaves the map's other entries as they were.
   */
  lemma {:induction false} RegisterAllIndex(registry: Registry, index: map<Event, MeterId>, regs: seq<Registration>)
    requires DistinctEvents(regs)
    requires RegisterAll(registry, index, regs).Ok?
    decreases |regs|
    ensures var r := RegisterAll(registry, index, regs).value;
            && r.index.Keys == index.Keys + EventsOf(regs)
            && (forall i :: 0 <= i < |regs| ==> r.index[regs[i].event] == regs[i].id)
            && (forall e :: e in index && e !in EventsOf(regs) ==> r.index[e] == index[e])
  {
    if regs != [] {
      var x := regs[0];
      var registered := Register(registry, x.id, x.meter).value;
      var rest := regs[1..];
      assert forall i :: 1 <= i < |regs| ==> regs[i] == rest[i - 1];
      assert EventsOf(regs) == {x.event} + EventsOf(rest);
      RegisterAllIndex(registered, index[x.event := x.id], rest);
    }
  }

  /** Registering meters of the map's kind without a throw keeps the map's invariant. */
  lemma RegisterAllIndexed(registry: Registry, index: map<Event, MeterId>, regs: seq<Registration>, kind: Kind)
    requires Fresh(regs, kind) && DistinctEvents(regs) && Indexed(registry, index, kind)
    requires RegisterAll(registry, index, regs).Ok?
    ensures var r := RegisterAll(registry, index, regs).value;
            Indexed(r.registry, r.index, kind)
  {
    RegisterAllMeters(registry, index, regs, kind);
    RegisterAllIndex(registry, index, regs);
    var r := RegisterAll(registry, index, regs).value;
    forall e | e in r.index
      ensures r.index[e] in r.registry && r.registry[r.index[e]].kind == kind
    {
      if e !in EventsOf(regs) {
        assert r.index[e] == index[e];
      } else {
        var i :| 0 <= i < |regs| && regs[i].event == e;
        assert r.index[e] == regs[i].id;
      }
    }
  }

  /** Registering under generic ids keeps every entry of the map its event's generic id. */
  lemma {:induction false} RegisterAllNamed(registry: Registry, index: map<Event, MeterId>, regs: seq<Registration>)
    requires Generic(regs) && Named(index)
    requires RegisterAll(registry, index, regs).Ok?
    decreases |regs|
    ensures Named(RegisterAll(registry, index, regs).value.index)
  {
    if regs != [] {
      var x := regs[0];
      var registered := Register(registry, x.id, x.meter).value;
      assert forall i :: 1 <= i < |regs| ==> regs[i] == regs[1..][i - 1];
      RegisterAllNamed(registered, index[x.event := x.id], regs[1..]);
    }
  }
}
