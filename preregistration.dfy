/**
 * The seven counters and the one timer the `MicrometerEventKeeper` constructor
 * registers, in the order it registers them.
 */
module Preregistration {
  import opened Wrappers
  import opened Words
  import opened EventMetadata
  import opened KnownEvents
  import opened Meters
  import opened PreregisteredText

  /** The events the constructor registers a counter for. */
  const COUNTED: set<Event> :=
    {JniCall, BytesFetched, RangeQueryDirectBufferHit, RangeQueryDirectBufferMiss,
     RangeQueryFetches, RangeQueryRecordsFetched, RangeQueryChunkFailed}

  /** The events the constructor registers a timer for. */
  const TIMED: set<Event> := {RangeQueryFetchTimeNanos}

  /** The hand-written meter name the constructor uses for `event`. */
  function PreregisteredName(event: Event): string
    requires event in COUNTED + TIMED
  {
    match event
    case JniCall => JNI_CALL_NAME
    case BytesFetched => BYTES_FETCHED_NAME
    case RangeQueryDirectBufferHit => RANGE_QUERY_DIRECT_BUFFER_HIT_NAME
    case RangeQueryDirectBufferMiss => RANGE_QUERY_DIRECT_BUFFER_MISS_NAME
    case RangeQueryFetches => RANGE_QUERY_FETCHES_NAME
    case RangeQueryRecordsFetched => RANGE_QUERY_RECORDS_FETCHED_NAME
    case RangeQueryChunkFailed => RANGE_QUERY_CHUNK_FAILED_NAME
    case RangeQueryFetchTimeNanos => RANGE_QUERY_FETCH_TIME_NANOS_NAME
  }

  /** The id the constructor registers `event`'s meter under: the hand-written name and `getTags(event)`. */
  function PreregisteredId(event: Event): MeterId
    requires event in COUNTED + TIMED
  {
    MeterId(PreregisteredName(event), Tags(event))
  }

  /** The counter the constructor registers for `event`, with its hand-written description. */
  function PreregisteredCounter(event: Event): (r: Meter)
    requires event in COUNTED
    ensures r.kind == CounterKind && r.total == 0
    ensures r.description == Handwritten(event) && Text(r.description) == HandwrittenDescription(event)
    ensures r.baseUnit == (if event == BytesFetched then Some("bytes") else None)
  {
    Meter(CounterKind, Handwritten(event), if event == BytesFetched then Some("bytes") else None, 0)
  }

  /** The timer the constructor registers for `event`, with its hand-written description. */
  function PreregisteredTimer(event: Event): (r: Meter)
    requires event in TIMED
    ensures r.kind == TimerKind && r.total == 0 && r.baseUnit == None
    ensures r.description == Handwritten(event) && Text(r.description) == HandwrittenDescription(event)
  {
    Meter(TimerKind, Handwritten(event), None, 0)
  }

  /** The meter the constructor registers for `event`. */
  function PreregisteredMeter(event: Event): Meter
    requires event in COUNTED + TIMED
  {
    if event in COUNTED then PreregisteredCounter(event) else PreregisteredTimer(event)
  }

  /** What the constructor registers for `event`. */
  function Entry(event: Event): (r: Registration)
    requires event in COUNTED + TIMED
    ensures r.event == event && r.id == PreregisteredId(event) && r.meter.total == 0
    ensures r.meter.kind == (if event in COUNTED then CounterKind else TimerKind)
  {
    Registration(event, PreregisteredId(event), PreregisteredMeter(event))
  }

  /** What the constructor registers for each of `events`, in order. */
  function Entries(events: seq<Event>): (r: seq<Registration>)
    requires forall e :: e in events ==> e in COUNTED + TIMED
    ensures |r| == |events| && forall i :: 0 <= i < |events| ==> r[i] == Entry(events[i])
  {
    seq(|events|, i requires 0 <= i < |events| => Entry(events[i]))
  }

  /** The counted events, in the order the constructor registers their counters. */
  const COUNTER_ORDER: seq<Event> :=
    [JniCall, BytesFetched, RangeQueryDirectBufferHit, RangeQueryDirectBufferMiss,
     RangeQueryFetches, RangeQueryRecordsFetched, RangeQueryChunkFailed]

  /** The timed events, in the order the constructor registers their timers. */
  const TIMER_ORDER: seq<Event> := [RangeQueryFetchTimeNanos]

  /**
   * `counters.put(event, Counter.builder(...).register(registry))` for each of
   * `counters`, then `timers.put(event, Timer.builder(...).register(registry))`
   * for each of `timers`; the first `register` that throws ends it.
   */
  function PreregisterWith(registry: Registry, counters: seq<Registration>, timers: seq<Registration>): Result<KeeperState, Exception>
  {
    match RegisterAll(registry, map[], counters)
    case Err(e) => Err(e)
    case Ok(counted) =>
      match RegisterAll(counted.registry, map[], timers)
      case Err(e) => Err(e)
      case Ok(timed) => Ok(KeeperState(timed.registry, counted.index, timed.index))
  }

  /** The constructor: the seven counted events' counters in order, then the fetch-time timer. */
  function Preregister(registry: Registry): Result<KeeperState, Exception>
  {
    PreregisterWith(registry, Entries(COUNTER_ORDER), Entries(TIMER_ORDER))
  }

  /**
   * Registering fresh counters and then fresh timers under other ids throws
   * exactly when a counter's id is registered as a timer or a timer's id as
   * a counter.
   */
  lemma PreregisterWithThrows(registry: Registry, counters: seq<Registration>, timers: seq<Registration>)
    requires Fresh(counters, CounterKind) && Fresh(timers, TimerKind) && IdsOf(counters) !! IdsOf(timers)
    ensures var r := PreregisterWith(registry, counters, timers);
            && (r.Err? <==>
                  || (exists j :: j in IdsOf(counters) && j in registry && registry[j].kind == TimerKind)
                  || (exists j :: j in IdsOf(timers) && j in registry && registry[j].kind == CounterKind))
            && (r.Err? ==> r.error == IllegalArgumentException(TYPE_CLASH))
  {
    RegisterAllThrows(registry, map[], counters, CounterKind);
    var counted := RegisterAll(registry, map[], counters);
    if counted.Ok? {
      RegisterAllMeters(registry, map[], counters, CounterKind);
      RegisterAllThrows(counted.value.registry, map[], timers, TimerKind);
      assert forall j :: j in IdsOf(timers) ==> (j in counted.value.registry <==> j in registry);
    }
  }

  /**
   * When registering fresh counters and timers of distinct events under
   * their generic ids does not throw, each map sends its events to their
   * generic ids, holding meters of its kind; the registry gains those ids,
   * and no meter already there changes.
   */
  lemma PreregisterWithSucceeds(registry: Registry, counters: seq<Registration>, timers: seq<Registration>)
    requires Fresh(counters, CounterKind) && DistinctEvents(counters) && Generic(counters)
    requires Fresh(timers, TimerKind) && DistinctEvents(timers) && Generic(timers)
    requires PreregisterWith(registry, counters, timers).Ok?
    ensures var r := PreregisterWith(registry, counters, timers).value;
            && Consistent(r)
            && r.counters.Keys == EventsOf(counters) && r.timers.Keys == EventsOf(timers)
            && r.registry.Keys == registry.Keys + IdsOf(counters) + IdsOf(timers)
            && (forall j :: j in registry ==> r.registry[j] == registry[j])
            && (forall j :: Held(r.registry, j) == Held(registry, j))
  {
    var counted := RegisterAll(registry, map[], counters).value;
    RegisterAllMeters(registry, map[], counters, CounterKind);
    RegisterAllIndex(registry, map[], counters);
    RegisterAllIndexed(registry, map[], counters, CounterKind);
    RegisterAllNamed(registry, map[], counters);
    RegisterAllMeters(counted.registry, map[], timers, TimerKind);
    RegisterAllIndex(counted.registry, map[], timers);
    RegisterAllIndexed(counted.registry, map[], timers, TimerKind);
    RegisterAllNamed(counted.registry, map[], timers);
    var r := PreregisterWith(registry, counters, timers).value;
    forall e | e in r.counters
      ensures r.counters[e] in r.registry && r.registry[r.counters[e]].kind == CounterKind
    {
      assert r.counters[e] in counted.registry;
    }
  }

  /** The events of `events`, as a set. */
  function EventSet(events: seq<Event>): set<Event>
  {
    set e | e in events
  }

  /** The hand-written ids of `events`. */
  function IdsFor(events: set<Event>): set<MeterId>
    requires events <= COUNTED + TIMED
  {
    set e | e in events :: PreregisteredId(e)
  }

  /**
   * The registrations for distinct events of one kind are fresh meters of
   * that kind, for those events, each once, under their hand-written ids,
   * which are their generic ids.
   */
  lemma {:induction false} EntriesOf(events: seq<Event>, kind: Kind)
    requires forall e :: e in events ==> e in COUNTED + TIMED && (e in COUNTED <==> kind == CounterKind)
    requires forall i, k :: 0 <= i < k < |events| ==> events[i] != events[k]
    ensures var regs := Entries(events);
            && Fresh(regs, kind) && DistinctEvents(regs) && Generic(regs)
            && EventsOf(regs) == EventSet(events)
            && IdsOf(regs) == IdsFor(EventSet(events))
  {
    var regs := Entries(events);
    forall e | e in events
      ensures e in EventsOf(regs) && PreregisteredId(e) in IdsOf(regs)
    {
      var i :| 0 <= i < |events| && events[i] == e;
      assert regs[i].event == e && regs[i].id == PreregisteredId(e);
    }
    forall i | 0 <= i < |regs|
      ensures regs[i].id == GenericId(regs[i].event)
    {
      PreregisteredIdIsGeneric(events[i]);
    }
  }

  /** The constructor registers counters for the seven counted events and a timer for the timed one, each once. */
  lemma Orders()
    ensures forall e :: e in COUNTER_ORDER ==> e in COUNTED + TIMED && e in COUNTED
    ensures forall i, k :: 0 <= i < k < |COUNTER_ORDER| ==> COUNTER_ORDER[i] != COUNTER_ORDER[k]
    ensures EventSet(COUNTER_ORDER) == COUNTED
    ensures forall e :: e in TIMER_ORDER ==> e in COUNTED + TIMED && e !in COUNTED
    ensures EventSet(TIMER_ORDER) == TIMED
  {
  }

  /** The registrations the constructor makes: fresh meters under generic ids, each event once. */
  lemma ConstructorEntries()
    ensures var regs := Entries(COUNTER_ORDER);
            && Fresh(regs, CounterKind) && DistinctEvents(regs) && Generic(regs)
            && EventsOf(regs) == COUNTED
            && IdsOf(regs) == IdsFor(COUNTED)
    ensures var regs := Entries(TIMER_ORDER);
            && Fresh(regs, TimerKind) && DistinctEvents(regs) && Generic(regs)
            && EventsOf(regs) == TIMED
            && IdsOf(regs) == IdsFor(TIMED)
  {
    Orders();
    EntriesOf(COUNTER_ORDER, CounterKind);
    EntriesOf(TIMER_ORDER, TimerKind);
  }

  /** The timer's id is none of the counters' ids. */
  lemma TimerIdIsNoCounterId()
    ensures PreregisteredId(RangeQueryFetchTimeNanos) !in IdsFor(COUNTED)
  {
    TimerNameIsNoCounterName();
  }

  /** The fetch-time event's id is its only timer id. */
  lemma TimerIds()
    ensures IdsFor(TIMED) == {PreregisteredId(RangeQueryFetchTimeNanos)}
  {
  }

  /**
   * The constructor throws exactly when a counted event's hand-written id is
   * registered as a timer, or the fetch-time id as a counter.
   */
  lemma PreregisterThrows(registry: Registry)
    ensures var timerId := PreregisteredId(RangeQueryFetchTimeNanos);
            var r := Preregister(registry);
            && (r.Err? <==>
                  || (exists j :: j in IdsFor(COUNTED) && j in registry && registry[j].kind == TimerKind)
                  || (timerId in registry && registry[timerId].kind == CounterKind))
            && (r.Err? ==> r.error == IllegalArgumentException(TYPE_CLASH))
  {
    ConstructorEntries();
    TimerIds();
    TimerIdIsNoCounterId();
    PreregisterWithThrows(registry, Entries(COUNTER_ORDER), Entries(TIMER_ORDER));
  }

  /**
   * When the constructor does not throw, its counter map sends the counted
   * events, and its timer map the timed event, to their generic ids, each
   * holding a meter of its map's kind; the registry gains the hand-written
   * ids, and no meter already there changes.
   */
  lemma PreregisterSucceeds(registry: Registry)
    requires Preregister(registry).Ok?
    ensures var r := Preregister(registry).value;
            && Consistent(r)
            && r.counters.Keys == COUNTED && r.timers.Keys == TIMED
            && r.registry.Keys == registry.Keys + IdsFor(COUNTED) + IdsFor(TIMED)
            && (forall j :: j in registry ==> r.registry[j] == registry[j])
            && (forall j :: Held(r.registry, j) == Held(registry, j))
  {
    ConstructorEntries();
    PreregisterWithSucceeds(registry, Entries(COUNTER_ORDER), Entries(TIMER_ORDER));
  }

  /** What the keeper's constructor leaves, when it does not throw, is consistent. */
  lemma PreregisterConsistent(registry: Registry)
    requires Preregister(registry).Ok?
    ensures Consistent(Preregister(registry).value)
  {
    PreregisterSucceeds(registry);
  }

  /** A registry that holds none of the hand-written ids lets the constructor succeed. */
  lemma FreshRegistryAccepted(registry: Registry)
    requires registry.Keys !! IdsFor(COUNTED + TIMED)
    ensures Preregister(registry).Ok?
  {
    PreregisterThrows(registry);
    assert PreregisteredId(RangeQueryFetchTimeNanos) in IdsFor(COUNTED + TIMED);
    assert IdsFor(COUNTED) <= IdsFor(COUNTED + TIMED);
  }

  /** On a registry with no meters the constructor succeeds, and every event then reads zero. */
  lemma PreregisterOnEmpty()
    ensures Preregister(map[]).Ok?
    ensures var r := Preregister(map[]).value;
            forall e :: Total(r.registry, r.counters, e) == 0 && Total(r.registry, r.timers, e) == 0
  {
    PreregisterThrows(map[]);
    PreregisterSucceeds(map[]);
  }

  /** Seven distinct events have a counter. */
  lemma CountedEvents()
    ensures |COUNTED| == 7
  {
    var s := {JniCall, BytesFetched, RangeQueryDirectBufferHit};
    assert |s| == 3;
    var t := s + {RangeQueryDirectBufferMiss, RangeQueryFetches};
    assert |t| == 5;
    assert COUNTED == t + {RangeQueryRecordsFetched, RangeQueryChunkFailed};
  }

  /** The fetch-time event has a timer but no counter. */
  lemma FetchTimeNotCounted()
    ensures RangeQueryFetchTimeNanos !in COUNTED && RangeQueryFetchTimeNanos in TIMED
  {
  }

  /** The hand-written id of `event` is its generic id: its generic name with the `event` tag. */
  lemma PreregisteredIdIsGeneric(event: Event)
    requires event in COUNTED + TIMED
    ensures PreregisteredId(event) == GenericId(event)
  {
    match event
    case JniCall => JniCallMeterName();
    case BytesFetched => BytesFetchedMeterName();
    case RangeQueryDirectBufferHit => RangeQueryDirectBufferHitMeterName();
    case RangeQueryDirectBufferMiss => RangeQueryDirectBufferMissMeterName();
    case RangeQueryFetches => RangeQueryFetchesMeterName();
    case RangeQueryRecordsFetched => RangeQueryRecordsFetchedMeterName();
    case RangeQueryChunkFailed => RangeQueryChunkFailedMeterName();
    case RangeQueryFetchTimeNanos => RangeQueryFetchTimeNanosMeterName();
  }
}
