/**
 * `EventMetadataProvider`: the generic meter name and descriptions of a
 * FoundationDB client event, derived from the event's `name()`.
 */
module EventMetadata {
  import opened Words
  import opened MeterNames

  /**
   * A FoundationDB client event (`EventKeeper.Event`): one of the constants of
   * the client's `Events` enumeration, or any other implementation, which is
   * known here only by its `name()`.
   */
  datatype Event =
    | JniCall
    | BytesFetched
    | RangeQueryDirectBufferHit
    | RangeQueryDirectBufferMiss
    | RangeQueryFetches
    | RangeQueryRecordsFetched
    | RangeQueryChunkFailed
    | RangeQueryFetchTimeNanos
    | Other(otherName: string)
  {
    /** `name()`: the enumeration constants are spelled as upper-case words joined by `_`. */
    function Name(): string
    {
      match this
      case JniCall => Joined(["JNI", "CALL"], '_')
      case BytesFetched => Joined(["BYTES", "FETCHED"], '_')
      case RangeQueryDirectBufferHit => Joined(["RANGE", "QUERY", "DIRECT", "BUFFER", "HIT"], '_')
      case RangeQueryDirectBufferMiss => Joined(["RANGE", "QUERY", "DIRECT", "BUFFER", "MISS"], '_')
      case RangeQueryFetches => Joined(["RANGE", "QUERY", "FETCHES"], '_')
      case RangeQueryRecordsFetched => Joined(["RANGE", "QUERY", "RECORDS", "FETCHED"], '_')
      case RangeQueryChunkFailed => Joined(["RANGE", "QUERY", "CHUNK", "FAILED"], '_')
      case RangeQueryFetchTimeNanos => Joined(["RANGE", "QUERY", "FETCH", "TIME", "NANOS"], '_')
      case Other(name) => name
    }
  }

  /** The generic meter name of `event`. */
  function MeterName(event: Event): string
  {
    GenericName(event.Name())
  }

  /** `getMeterName(event)`. */
  method GetMeterName(event: Event) returns (meterName: string)
    ensures meterName == MeterName(event)
  {
    meterName := BuildGenericName(event.Name());
  }

  /** `getCountDescription(event)`. */
  function CountDescription(event: Event): (r: string)
    ensures |r| == |"The number of times the "| + |event.Name()| + |" event occurred"|
    ensures r[|"The number of times the "|..|"The number of times the "| + |event.Name()|] == event.Name()
  {
    "The number of times the " + event.Name() + " event occurred"
  }

  /** `getTimerDescription(event)`. */
  function TimerDescription(event: Event): (r: string)
    ensures |r| == |"The time taken to perform the "| + |event.Name()| + |" event"|
    ensures r[|"The time taken to perform the "|..|"The time taken to perform the "| + |event.Name()|] == event.Name()
  {
    "The time taken to perform the " + event.Name() + " event"
  }

  /** Events with distinct names have distinct descriptions: the name can be read back from either. */
  lemma DescriptionsIdentifyName(a: Event, b: Event)
    ensures CountDescription(a) == CountDescription(b) <==> a.Name() == b.Name()
    ensures TimerDescription(a) == TimerDescription(b) <==> a.Name() == b.Name()
  {
    if CountDescription(a) == CountDescription(b) {
      var n := |"The number of times the "|;
      assert |a.Name()| == |b.Name()|;
      assert a.Name() == CountDescription(a)[n..n + |a.Name()|] == CountDescription(b)[n..n + |b.Name()|] == b.Name();
    }
    if TimerDescription(a) == TimerDescription(b) {
      var n := |"The time taken to perform the "|;
      assert |a.Name()| == |b.Name()|;
      assert a.Name() == TimerDescription(a)[n..n + |a.Name()|] == TimerDescription(b)[n..n + |b.Name()|] == b.Name();
    }
  }
}
