/**
 * Generic meter names on plain strings: `foundationdb.` followed by the event
 * name with `_` turned into `.` and ASCII letters lowercased; and the transform
 * of the words that make up the client's event names.
 */
module MeterNames {
  import opened Words

  const PREFIX: string := "foundationdb"

  /** `Character.toLowerCase` on the ASCII letters; every other character is kept. */
  function ToLower(c: char): (r: char)
    ensures 'A' <= c <= 'Z' ==> 'a' <= r <= 'z' && r as int - c as int == 'a' as int - 'A' as int
    ensures !('A' <= c <= 'Z') ==> r == c
  {
    if 'A' <= c <= 'Z' then (c as int - 'A' as int + 'a' as int) as char else c
  }

  /** What one character of the event name becomes in the meter name. */
  function MeterChar(c: char): char
  {
    if c == '_' then '.' else ToLower(c)
  }

  /** The event name, character by character, with `_` turned into `.` and letters lowercased. */
  function MeterSuffix(name: string): (r: string)
    ensures |r| == |name|
    ensures forall i :: 0 <= i < |name| ==> r[i] == MeterChar(name[i])
  {
    seq(|name|, i requires 0 <= i < |name| => MeterChar(name[i]))
  }

  /** The generic meter name of an event called `name`. */
  function GenericName(name: string): string
  {
    PREFIX + "." + MeterSuffix(name)
  }

  /** The loop of `getMeterName`: appends one character per character of the name. */
  method BuildGenericName(name: string) returns (meterName: string)
    ensures meterName == GenericName(name)
  {
    meterName := PREFIX + ".";
    for i := 0 to |name|
      invariant meterName == PREFIX + "." + MeterSuffix(name[..i])
    {
      assert MeterSuffix(name[..i + 1]) == MeterSuffix(name[..i]) + [MeterChar(name[i])];
      if name[i] == '_' {
        meterName := meterName + ['.'];
      } else {
        meterName := meterName + [ToLower(name[i])];
      }
    }
    assert name[..|name|] == name;
  }

  /**
   * The meter name is `foundationdb.` followed by one character per character
   * of the event name: a `.` exactly where the name has `_` or `.`, the
   * lowercase letter for an upper-case one, and no `_` and no upper-case
   * letter anywhere.
   */
  lemma GenericNameShape(name: string)
    ensures var r := GenericName(name);
            && |r| == |PREFIX| + 1 + |name|
            && r[..|PREFIX| + 1] == "foundationdb."
            && '_' !in r
            && (forall i :: 0 <= i < |name| ==> (r[|PREFIX| + 1 + i] == '.' <==> name[i] == '_' || name[i] == '.'))
            && (forall i :: 0 <= i < |name| && 'A' <= name[i] <= 'Z' ==> r[|PREFIX| + 1 + i] == ToLower(name[i]))
            && (forall i :: 0 <= i < |r| ==> !('A' <= r[i] <= 'Z'))
  {
    var r := GenericName(name);
    var s := MeterSuffix(name);
    assert r == "foundationdb." + s;
    forall i | 0 <= i < |r| ensures r[i] != '_' && !('A' <= r[i] <= 'Z') {
      if i >= |PREFIX| + 1 {
        assert r[i] == s[i - |PREFIX| - 1];
      }
    }
  }

  /** Normalising an already normalised suffix changes nothing. */
  lemma MeterSuffixIdempotent(name: string)
    ensures MeterSuffix(MeterSuffix(name)) == MeterSuffix(name)
  {
    var s := MeterSuffix(name);
    forall i | 0 <= i < |s| ensures MeterChar(s[i]) == s[i] {
      assert s[i] == MeterChar(name[i]);
    }
  }

  /** The transform works character by character, so it distributes over concatenation. */
  lemma MeterSuffixAppend(a: string, b: string)
    ensures MeterSuffix(a + b) == MeterSuffix(a) + MeterSuffix(b)
  {
    assert forall i :: 0 <= i < |a| ==> (a + b)[i] == a[i];
    assert forall i :: |a| <= i < |a| + |b| ==> (a + b)[i] == b[i - |a|];
  }

  /** The transform of words joined by `_` is the transformed words joined by `.`. */
  lemma {:induction false} MeterSuffixOfWords(ws: seq<string>, ls: seq<string>)
    requires |ws| == |ls|
    requires forall i :: 0 <= i < |ws| ==> MeterSuffix(ws[i]) == ls[i]
    ensures MeterSuffix(Joined(ws, '_')) == Joined(ls, '.')
  {
    if |ws| > 1 {
      MeterSuffixOfWords(ws[1..], ls[1..]);
      MeterSuffixAppend(ws[0] + "_", Joined(ws[1..], '_'));
      MeterSuffixAppend(ws[0], "_");
      assert MeterSuffix("_") == ".";
    }
  }

  /** A name made of words joined by `_` has as meter name the prefix and the transformed words, joined by `.`. */
  lemma GenericNameOfWords(ws: seq<string>, ls: seq<string>)
    requires |ws| == |ls| > 0
    requires forall i :: 0 <= i < |ws| ==> MeterSuffix(ws[i]) == ls[i]
    ensures GenericName(Joined(ws, '_')) == Joined([PREFIX] + ls, '.')
  {
    MeterSuffixOfWords(ws, ls);
    assert ([PREFIX] + ls)[1..] == ls;
  }

  // The words of the client's event names and of their meter names.

  lemma WordSuffixes1()
    ensures MeterSuffix("JNI") == "jni"
    ensures MeterSuffix("CALL") == "call"
    ensures MeterSuffix("BYTES") == "bytes"
    ensures MeterSuffix("FETCHED") == "fetched"
    ensures MeterSuffix("RANGE") == "range"
    ensures MeterSuffix("QUERY") == "query"
  {
    assert MeterSuffix("JNI") == "jni";
    assert MeterSuffix("CALL") == "call";
    assert MeterSuffix("BYTES") == "bytes";
    assert MeterSuffix("FETCHED") == "fetched";
    assert MeterSuffix("RANGE") == "range";
    assert MeterSuffix("QUERY") == "query";
  }

  lemma WordSuffixes2()
    ensures MeterSuffix("DIRECT") == "direct"
    ensures MeterSuffix("BUFFER") == "buffer"
    ensures MeterSuffix("HIT") == "hit"
    ensures MeterSuffix("MISS") == "miss"
    ensures MeterSuffix("FETCHES") == "fetches"
    ensures MeterSuffix("RECORDS") == "records"
  {
    assert MeterSuffix("DIRECT") == "direct";
    assert MeterSuffix("BUFFER") == "buffer";
    assert MeterSuffix("HIT") == "hit";
    assert MeterSuffix("MISS") == "miss";
    assert MeterSuffix("FETCHES") == "fetches";
    assert MeterSuffix("RECORDS") == "records";
  }

  lemma WordSuffixes3()
    ensures MeterSuffix("CHUNK") == "chunk"
    ensures MeterSuffix("FAILED") == "failed"
    ensures MeterSuffix("FETCH") == "fetch"
    ensures MeterSuffix("TIME") == "time"
    ensures MeterSuffix("NANOS") == "nanos"
  {
    assert MeterSuffix("CHUNK") == "chunk";
    assert MeterSuffix("FAILED") == "failed";
    assert MeterSuffix("FETCH") == "fetch";
    assert MeterSuffix("TIME") == "time";
    assert MeterSuffix("NANOS") == "nanos";
  }
}
