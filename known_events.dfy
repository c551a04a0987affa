/**
 * The generic meter names of the constants of the client's `Events`
 * enumeration, worked out word by word.
 */
module KnownEvents {
  import opened Words
  import opened MeterNames
  import opened EventMetadata

  lemma JniCallMeterName()
    ensures MeterName(JniCall) == Joined(["foundationdb", "jni", "call"], '.')
  {
    WordSuffixes1();
    GenericNameOfWords(["JNI", "CALL"], ["jni", "call"]);
    assert [PREFIX] + ["jni", "call"] == ["foundationdb", "jni", "call"];
  }

  lemma BytesFetchedMeterName()
    ensures MeterName(BytesFetched) == Joined(["foundationdb", "bytes", "fetched"], '.')
  {
    WordSuffixes1();
    GenericNameOfWords(["BYTES", "FETCHED"], ["bytes", "fetched"]);
    assert [PREFIX] + ["bytes", "fetched"] == ["foundationdb", "bytes", "fetched"];
  }

  lemma RangeQueryDirectBufferHitMeterName()
    ensures MeterName(RangeQueryDirectBufferHit) == Joined(["foundationdb", "range", "query", "direct", "buffer", "hit"], '.')
  {
    WordSuffixes1();
    WordSuffixes2();
    GenericNameOfWords(["RANGE", "QUERY", "DIRECT", "BUFFER", "HIT"], ["range", "query", "direct", "buffer", "hit"]);
    assert [PREFIX] + ["range", "query", "direct", "buffer", "hit"] == ["foundationdb", "range", "query", "direct", "buffer", "hit"];
  }

  lemma RangeQueryDirectBufferMissMeterName()
    ensures MeterName(RangeQueryDirectBufferMiss) == Joined(["foundationdb", "range", "query", "direct", "buffer", "miss"], '.')
  {
    WordSuffixes1();
    WordSuffixes2();
    GenericNameOfWords(["RANGE", "QUERY", "DIRECT", "BUFFER", "MISS"], ["range", "query", "direct", "buffer", "miss"]);
    assert [PREFIX] + ["range", "query", "direct", "buffer", "miss"] == ["foundationdb", "range", "query", "direct", "buffer", "miss"];
  }

  lemma RangeQueryFetchesMeterName()
    ensures MeterName(RangeQueryFetches) == Joined(["foundationdb", "range", "query", "fetches"], '.')
  {
    WordSuffixes1();
    WordSuffixes2();
    GenericNameOfWords(["RANGE", "QUERY", "FETCHES"], ["range", "query", "fetches"]);
    assert [PREFIX] + ["range", "query", "fetches"] == ["foundationdb", "range", "query", "fetches"];
  }

  lemma RangeQueryRecordsFetchedMeterName()
    ensures MeterName(RangeQueryRecordsFetched) == Joined(["foundationdb", "range", "query", "records", "fetched"], '.')
  {
    WordSuffixes1();
    WordSuffixes2();
    GenericNameOfWords(["RANGE", "QUERY", "RECORDS", "FETCHED"], ["range", "query", "records", "fetched"]);
    assert [PREFIX] + ["range", "query", "records", "fetched"] == ["foundationdb", "range", "query", "records", "fetched"];
  }

  lemma RangeQueryChunkFailedMeterName()
    ensures MeterName(RangeQueryChunkFailed) == Joined(["foundationdb", "range", "query", "chunk", "failed"], '.')
  {
    WordSuffixes1();
    WordSuffixes3();
    GenericNameOfWords(["RANGE", "QUERY", "CHUNK", "FAILED"], ["range", "query", "chunk", "failed"]);
    assert [PREFIX] + ["range", "query", "chunk", "failed"] == ["foundationdb", "range", "query", "chunk", "failed"];
  }

  lemma RangeQueryFetchTimeNanosMeterName()
    ensures MeterName(RangeQueryFetchTimeNanos) == Joined(["foundationdb", "range", "query", "fetch", "time", "nanos"], '.')
  {
    WordSuffixes1();
    WordSuffixes3();
    GenericNameOfWords(["RANGE", "QUERY", "FETCH", "TIME", "NANOS"], ["range", "query", "fetch", "time", "nanos"]);
    assert [PREFIX] + ["range", "query", "fetch", "time", "nanos"] == ["foundationdb", "range", "query", "fetch", "time", "nanos"];
  }

  /** The name is not recoverable from the meter name: distinct events can share one. */
  lemma MeterNamesCollide()
    ensures JniCall != Other("jni.call") && JniCall.Name() != Other("jni.call").Name()
    ensures MeterName(JniCall) == MeterName(Other("jni.call"))
  {
    JniCallMeterName();
    assert JniCall.Name()[0] == 'J';
    assert MeterSuffix("jni.call") == "jni.call";
  }

  /** An event that is not the JNI-call constant can still carry its name, `JNI_CALL`. */
  lemma JniCallAlias()
    ensures JniCall != Other("JNI_CALL") && JniCall.Name() == Other("JNI_CALL").Name()
  {
    assert JniCall.Name() == "JNI_CALL";
  }
}
