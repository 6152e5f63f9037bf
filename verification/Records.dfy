/** Sensor records, the payloads that carry them, and what an Avro `float` does to them. */
module Records {
  import Float32

  /** Names drawn from a generator that never repeats one; only equality matters. */
  type Uuid = nat

  /** `sensorValue` is the value as the integer that FanIn reads off it with `int(...)`. */
  datatype Record = Record(timestamp: int, sensorUuid: Uuid, sensorValue: int)

  /** One MQTT payload: an array of records, or a single record when batching is off. */
  datatype Payload = TripletBatch(records: seq<Record>) | Single(record: Record)

  function Contents(p: Payload): seq<Record> {
    match p
    case TripletBatch(rs) => rs
    case Single(r) => [r]
  }

  /** A record after Avro encoding and decoding: exact but for the binary32 value. */
  function OnWire(r: Record): Record {
    r.(sensorValue := Float32.Round(r.sensorValue))
  }

  function AllOnWire(rs: seq<Record>): (w: seq<Record>)
    ensures |w| == |rs|
  {
    seq(|rs|, i requires 0 <= i < |rs| => OnWire(rs[i]))
  }

  lemma WireOfConcat(a: seq<Record>, b: seq<Record>)
    ensures AllOnWire(a + b) == AllOnWire(a) + AllOnWire(b)
  {
  }

  /** Decoding and encoding again changes nothing. */
  lemma WireIsIdempotent(rs: seq<Record>)
    ensures AllOnWire(AllOnWire(rs)) == AllOnWire(rs)
  {
    forall i | 0 <= i < |rs|
      ensures OnWire(OnWire(rs[i])) == OnWire(rs[i])
    {
      Float32.Idempotent(rs[i].sensorValue);
    }
  }

  /** The concatenation of a sequence of sequences. */
  function Flatten<T>(xss: seq<seq<T>>): seq<T> {
    if xss == [] then [] else Flatten(xss[..|xss| - 1]) + xss[|xss| - 1]
  }

  lemma FlattenSnoc<T>(xss: seq<seq<T>>, xs: seq<T>)
    ensures Flatten(xss + [xs]) == Flatten(xss) + xs
  {
    assert (xss + [xs])[..|xss|] == xss;
  }

  lemma {:induction false} FlattenConcat<T>(a: seq<seq<T>>, b: seq<seq<T>>)
    ensures Flatten(a + b) == Flatten(a) + Flatten(b)
  {
    if b == [] {
      assert a + b == a;
    } else {
      var k := |b| - 1;
      FlattenConcat(a, b[..k]);
      assert a + b == (a + b[..k]) + [b[k]];
      FlattenSnoc(a + b[..k], b[k]);
    }
  }

  /** `a` is what is left of `b` after leaving some of its elements out. */
  predicate IsSubsequence<T(==)>(a: seq<T>, b: seq<T>) {
    a == [] ||
    (b != [] &&
     (IsSubsequence(a, b[..|b| - 1]) ||
      (a[|a| - 1] == b[|b| - 1] && IsSubsequence(a[..|a| - 1], b[..|b| - 1]))))
  }

  lemma SubsequenceSkip<T>(a: seq<T>, b: seq<T>, x: T)
    requires IsSubsequence(a, b)
    ensures IsSubsequence(a, b + [x])
  {
    assert (b + [x])[..|b|] == b;
  }

  lemma SubsequenceKeep<T>(a: seq<T>, b: seq<T>, x: T)
    requires IsSubsequence(a, b)
    ensures IsSubsequence(a + [x], b + [x])
  {
    assert (b + [x])[..|b|] == b && (a + [x])[..|a|] == a;
  }

  lemma {:induction false} SubsequenceSkipAll<T>(a: seq<T>, b: seq<T>, c: seq<T>)
    requires IsSubsequence(a, b)
    ensures IsSubsequence(a, b + c)
  {
    if c == [] {
      assert b + c == b;
    } else {
      SubsequenceSkipAll(a, b, c[..|c| - 1]);
      SubsequenceSkip(a, b + c[..|c| - 1], c[|c| - 1]);
      assert b + c == b + c[..|c| - 1] + [c[|c| - 1]];
    }
  }

  /** What IsSubsequence means: an increasing choice of positions. */
  lemma {:induction false} SubsequencePositions<T>(a: seq<T>, b: seq<T>) returns (at: seq<nat>)
    requires IsSubsequence(a, b)
    ensures |at| == |a|
    ensures forall i :: 0 <= i < |at| ==> at[i] < |b| && b[at[i]] == a[i]
    ensures forall i, j :: 0 <= i < j < |at| ==> at[i] < at[j]
  {
    if a == [] {
      at := [];
    } else if IsSubsequence(a, b[..|b| - 1]) {
      at := SubsequencePositions(a, b[..|b| - 1]);
    } else {
      at := SubsequencePositions(a[..|a| - 1], b[..|b| - 1]);
      at := at + [|b| - 1];
    }
  }
}
