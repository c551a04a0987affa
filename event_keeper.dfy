/**
 * `MicrometerEventKeeper`: the FoundationDB client's event sink. It keeps two
 * maps, event to counter and event to timer, over one Micrometer registry;
 * each map entry is the id of the registered meter the event records into.
 */
module EventKeeper {
  import opened Wrappers
  import opened EventMetadata
  import opened KnownEvents
  import opened Meters
  import opened Preregistration

  /** The event keeper. */
  class MicrometerEventKeeper {
    var registry: Registry
    var counters: map<Event, MeterId>
    var timers: map<Event, MeterId>

    /**
     * Every map entry names a registered meter of the map's kind, and is the
     * event's generic id (the hand-written ids are generic ids too).
     */
    ghost predicate Valid()
      reads this
    {
      Consistent(KeeperState(registry, counters, timers))
    }

    /** The keeper the constructor leaves once its eight registrations have succeeded. */
    constructor (meterRegistry: Registry)
      requires Preregister(meterRegistry).Ok?
      ensures Valid()
      ensures Preregister(meterRegistry) == Ok(KeeperState(registry, counters, timers))
    {
      PreregisterConsistent(meterRegistry);
      var done := Preregister(meterRegistry).value;
      registry := done.registry;
      counters := done.counters;
      timers := done.timers;
    }

    /**
     * `new MicrometerEventKeeper(metadataProvider, meterRegistry)`: the keeper,
     * or the exception one of the constructor's `register` calls throws.
     */
    static method Create(meterRegistry: Registry) returns (keeper: MicrometerEventKeeper?, thrown: Option<Exception>)
      ensures thrown.Some? <==> Preregister(meterRegistry).Err?
      ensures thrown.Some? ==> thrown.value == IllegalArgumentException(TYPE_CLASH) && keeper == null
      ensures thrown.None? ==> keeper != null && fresh(keeper) && keeper.Valid()
      ensures thrown.None? ==> keeper.registry == Preregister(meterRegistry).value.registry
      ensures thrown.None? ==> keeper.counters.Keys == COUNTED && keeper.timers.Keys == TIMED
    {
      PreregisterThrows(meterRegistry);
      match Preregister(meterRegistry)
      case Err(e) =>
        keeper, thrown := null, Some(e);
      case Ok(done) =>
        PreregisterSucceeds(meterRegistry);
        keeper := new MicrometerEventKeeper(meterRegistry);
        thrown := None;
    }

    /**
     * `count(event, amt)`: `counters.computeIfAbsent(event, getGenericCounter)`
     * then `increment(amt)`. What `register` throws comes back in `thrown`;
     * the timers are untouched.
     */
    method Count(event: Event, amt: int) returns (thrown: Option<Exception>)
      requires Valid()
      modifies this
      ensures Valid()
      ensures Recording(registry, counters, thrown)
              == Record(old(registry), old(counters), event, GenericId(event), amt, GenericCounter(event))
      ensures timers == old(timers)
    {
      ghost var before := KeeperState(registry, counters, timers);
      var id := GenericId(event);
      if event !in counters {
        var created := Register(registry, id, GenericCounter(event));
        if created.Err? {
          CountConsistent(before, event, amt);
          return Some(created.error);
        }
        registry := created.value;
        counters := counters[event := id];
      }
      registry := Add(registry, counters[event], amt);
      thrown := None;
      CountConsistent(before, event, amt);
    }

    /**
     * `timeNanos(event, nanos)`: `timers.computeIfAbsent(event, getGenericTimer)`
     * then `record(nanos)`. What `register` throws comes back in `thrown`;
     * the counters are untouched.
     */
    method TimeNanos(event: Event, nanos: int) returns (thrown: Option<Exception>)
      requires Valid()
      modifies this
      ensures Valid()
      ensures Recording(registry, timers, thrown)
              == Record(old(registry), old(timers), event, GenericId(event), nanos, GenericTimer(event))
      ensures counters == old(counters)
    {
      ghost var before := KeeperState(registry, counters, timers);
      var id := GenericId(event);
      if event !in timers {
        var created := Register(registry, id, GenericTimer(event));
        if created.Err? {
          TimeConsistent(before, event, nanos);
          return Some(created.error);
        }
        registry := created.value;
        timers := timers[event := id];
      }
      registry := Add(registry, timers[event], nanos);
      thrown := None;
      TimeConsistent(before, event, nanos);
    }

    /** `getCount(event)`: the total of the event's counter, 0 when it has none. */
    method GetCount(event: Event) returns (r: int)
      ensures r == Total(registry, counters, event)
      ensures event !in counters ==> r == 0
    {
      r := if event in counters then Held(registry, counters[event]) else 0;
    }

    /** `getTimeNanos(event)`: the total of the event's timer, 0 when it has none. */
    method GetTimeNanos(event: Event) returns (r: int)
      ensures r == Total(registry, timers, event)
      ensures event !in timers ==> r == 0
    {
      r := if event in timers then Held(registry, timers[event]) else 0;
    }
  }

  /**
   * On a registry holding none of the hand-written ids, the constructor
   * succeeds; after it the fetch-time event cannot be counted and the
   * JNI-call event cannot be timed: each already has a meter of the other
   * kind under its generic id, so `register` throws.
   */
  method ClashesAfterConstruction(meterRegistry: Registry, amt: int, nanos: int)
      returns (created: Option<Exception>, countThrown: Option<Exception>, timeThrown: Option<Exception>)
    requires meterRegistry.Keys !! IdsFor(COUNTED + TIMED)
    ensures created.None?
    ensures countThrown == Some(IllegalArgumentException(TYPE_CLASH))
    ensures timeThrown == Some(IllegalArgumentException(TYPE_CLASH))
  {
    FreshRegistryAccepted(meterRegistry);
    var keeper;
    keeper, created := MicrometerEventKeeper.Create(meterRegistry);
    FetchTimeNotCounted();
    CrossKindThrows(keeper.registry, keeper.counters, keeper.timers, TimerKind, RangeQueryFetchTimeNanos, amt,
                    GenericCounter(RangeQueryFetchTimeNanos));
    countThrown := keeper.Count(RangeQueryFetchTimeNanos, amt);
    CrossKindThrows(keeper.registry, keeper.timers, keeper.counters, CounterKind, JniCall, nanos, GenericTimer(JniCall));
    timeThrown := keeper.TimeNanos(JniCall, nanos);
  }

  /**
   * An event whose generic id is a counted event's, but which is not itself
   * counted, shares that event's counter: after the constructor, counting it
   * does not throw, raises the other event's count by the amount, and reads
   * the same count.
   */
  method SharedCounter(meterRegistry: Registry, holder: Event, alias: Event, amt: int)
      returns (created: Option<Exception>, thrown: Option<Exception>, before: int, count: int, aliasCount: int)
    requires meterRegistry.Keys !! IdsFor(COUNTED + TIMED)
    requires holder in COUNTED && alias !in COUNTED && GenericId(alias) == GenericId(holder)
    ensures created.None? && thrown.None?
    ensures count == before + amt && aliasCount == count
  {
    FreshRegistryAccepted(meterRegistry);
    var keeper;
    keeper, created := MicrometerEventKeeper.Create(meterRegistry);
    SharedMeter(keeper.registry, keeper.counters, holder, alias, GenericId(holder), amt, GenericCounter(alias));
    before := keeper.GetCount(holder);
    thrown := keeper.Count(alias, amt);
    count := keeper.GetCount(holder);
    aliasCount := keeper.GetCount(alias);
  }

  /**
   * `Other("JNI_CALL")` is not counted but has the JNI-call event's generic
   * id, so `SharedCounter` applies to the pair: counting it raises the
   * JNI-call count.
   */
  lemma JniCallSharesCounter()
    ensures JniCall in COUNTED && Other("JNI_CALL") !in COUNTED
    ensures GenericId(Other("JNI_CALL")) == GenericId(JniCall)
  {
    JniCallAlias();
    SameNameSameId(Other("JNI_CALL"), JniCall);
  }
}
