/**
 * The meter names and descriptions the `MicrometerEventKeeper` constructor
 * writes out by hand; the names as the dot-separated words they are made of,
 * and how long each is.
 */
module PreregisteredText {
  import opened Words
  import opened EventMetadata

  const JNI_CALL_NAME: string := Joined(["foundationdb", "jni", "call"], '.')
  const BYTES_FETCHED_NAME: string := Joined(["foundationdb", "bytes", "fetched"], '.')
  const RANGE_QUERY_DIRECT_BUFFER_HIT_NAME: string := Joined(["foundationdb", "range", "query", "direct", "buffer", "hit"], '.')
  const RANGE_QUERY_DIRECT_BUFFER_MISS_NAME: string := Joined(["foundationdb", "range", "query", "direct", "buffer", "miss"], '.')
  const RANGE_QUERY_FETCHES_NAME: string := Joined(["foundationdb", "range", "query", "fetches"], '.')
  const RANGE_QUERY_RECORDS_FETCHED_NAME: string := Joined(["foundationdb", "range", "query", "records", "fetched"], '.')
  const RANGE_QUERY_CHUNK_FAILED_NAME: string := Joined(["foundationdb", "range", "query", "chunk", "failed"], '.')
  const RANGE_QUERY_FETCH_TIME_NANOS_NAME: string := Joined(["foundationdb", "range", "query", "fetch", "time", "nanos"], '.')

  const JNI_CALL_DESCRIPTION: string := "Number of JNI calls made by the FoundationDB client"
  const BYTES_FETCHED_DESCRIPTION: string := "The total number of bytes pulled from the native layer"
  const RANGE_QUERY_DIRECT_BUFFER_HIT_DESCRIPTION: string := "The number of times a DirectBuffer was used to transfer a range query chunk"
  const RANGE_QUERY_DIRECT_BUFFER_MISS_DESCRIPTION: string := "The number of times a range query chunk was unable to use a DirectBuffer"
  const RANGE_QUERY_FETCHES_DESCRIPTION: string := "The number of direct fetches made during a range query"
  const RANGE_QUERY_RECORDS_FETCHED_DESCRIPTION: string := "The number of tuples fetched during a range query"
  const RANGE_QUERY_CHUNK_FAILED_DESCRIPTION: string := "The number of times a range query chunk fetch failed"
  const RANGE_QUERY_FETCH_TIME_NANOS_DESCRIPTION: string := "The time taken to perform an internal `getRange` fetch"

  /** The description the constructor writes for the meter of a constant of the `Events` enumeration. */
  function HandwrittenDescription(event: Event): string
    requires !event.Other?
  {
    match event
    case JniCall => JNI_CALL_DESCRIPTION
    case BytesFetched => BYTES_FETCHED_DESCRIPTION
    case RangeQueryDirectBufferHit => RANGE_QUERY_DIRECT_BUFFER_HIT_DESCRIPTION
    case RangeQueryDirectBufferMiss => RANGE_QUERY_DIRECT_BUFFER_MISS_DESCRIPTION
    case RangeQueryFetches => RANGE_QUERY_FETCHES_DESCRIPTION
    case RangeQueryRecordsFetched => RANGE_QUERY_RECORDS_FETCHED_DESCRIPTION
    case RangeQueryChunkFailed => RANGE_QUERY_CHUNK_FAILED_DESCRIPTION
    case RangeQueryFetchTimeNanos => RANGE_QUERY_FETCH_TIME_NANOS_DESCRIPTION
  }

  /** `JNI_CALL_NAME` is the 21 characters of "foundationdb.jni.call". */
  lemma JniCallNameLength()
    ensures |JNI_CALL_NAME| == 21
  {
  }

  /** `BYTES_FETCHED_NAME` is the 26 characters of "foundationdb.bytes.fetched". */
  lemma BytesFetchedNameLength()
    ensures |BYTES_FETCHED_NAME| == 26
  {
  }

  /** `RANGE_QUERY_DIRECT_BUFFER_HIT_NAME` is the 42 characters of "foundationdb.range.query.direct.buffer.hit". */
  lemma RangeQueryDirectBufferHitNameLength()
    ensures |RANGE_QUERY_DIRECT_BUFFER_HIT_NAME| == 42
  {
  }

  /** `RANGE_QUERY_DIRECT_BUFFER_MISS_NAME` is the 43 characters of "foundationdb.range.query.direct.buffer.miss". */
  lemma RangeQueryDirectBufferMissNameLength()
    ensures |RANGE_QUERY_DIRECT_BUFFER_MISS_NAME| == 43
  {
  }

  /** `RANGE_QUERY_FETCHES_NAME` is the 32 characters of "foundationdb.range.query.fetches". */
  lemma RangeQueryFetchesNameLength()
    ensures |RANGE_QUERY_FETCHES_NAME| == 32
  {
  }

  /** `RANGE_QUERY_RECORDS_FETCHED_NAME` is the 40 characters of "foundationdb.range.query.records.fetched". */
  lemma RangeQueryRecordsFetchedNameLength()
    ensures |RANGE_QUERY_RECORDS_FETCHED_NAME| == 40
  {
  }

  /** `RANGE_QUERY_CHUNK_FAILED_NAME` is the 37 characters of "foundationdb.range.query.chunk.failed". */
  lemma RangeQueryChunkFailedNameLength()
    ensures |RANGE_QUERY_CHUNK_FAILED_NAME| == 37
  {
  }

  /** `RANGE_QUERY_FETCH_TIME_NANOS_NAME` is the 41 characters of "foundationdb.range.query.fetch.time.nanos". */
  lemma RangeQueryFetchTimeNanosNameLength()
    ensures |RANGE_QUERY_FETCH_TIME_NANOS_NAME| == 41
  {
  }

  /** The timer's name is none of the counters' names: its length is none of theirs. */
  lemma TimerNameIsNoCounterName()
    ensures RANGE_QUERY_FETCH_TIME_NANOS_NAME !in
      {JNI_CALL_NAME, BYTES_FETCHED_NAME, RANGE_QUERY_DIRECT_BUFFER_HIT_NAME, RANGE_QUERY_DIRECT_BUFFER_MISS_NAME,
       RANGE_QUERY_FETCHES_NAME, RANGE_QUERY_RECORDS_FETCHED_NAME, RANGE_QUERY_CHUNK_FAILED_NAME}
  {
    JniCallNameLength();
    BytesFetchedNameLength();
    RangeQueryDirectBufferHitNameLength();
    RangeQueryDirectBufferMissNameLength();
    RangeQueryFetchesNameLength();
    RangeQueryRecordsFetchedNameLength();
    RangeQueryChunkFailedNameLength();
    RangeQueryFetchTimeNanosNameLength();
  }
}
