/** The receiving side: one FanIn process turns MQTT batches into Kafka messages, and in counting
    mode watches the stamps of each agent for batches that went missing. */
module FanIn {
  import opened Records
  import opened Wrappers

  /** A printed "ATTENTION" line: the agent and the number it reports. */
  datatype Attention = Attention(uuid: Uuid, missing: int)

  datatype Counts = Counts(last: map<Uuid, int>, attentions: seq<Attention>)

  /** Options of the process; `refused` below stands for the produce calls of one message, counted
      from 0, that the Kafka client answers with BufferError or KafkaException. */
  datatype Options = Options(batching: bool, counting: bool, passthrough: bool)

  datatype KafkaMessage = Encoded(record: Record) | PassedThrough(payload: Payload)

  datatype Gateway = Gateway(counts: Counts, kafka: seq<KafkaMessage>, kafkaMsgCounter: nat, msgCount: nat)

  const FRESH_GATEWAY := Gateway(Counts(map[], []), [], 1, 0)

  /** The stamp check: the known counter may stay or grow by one. */
  function Observe(c: Counts, r: Record): Counts {
    var v := r.sensorValue;
    var missing :=
      if r.sensorUuid in c.last then
        (if c.last[r.sensorUuid] != v - 1 && c.last[r.sensorUuid] != v then [v - c.last[r.sensorUuid]] else [])
      else (if v != 1 then [v - 1] else []);
    Counts(c.last[r.sensorUuid := v],
           if missing == [] then c.attentions else c.attentions + [Attention(r.sensorUuid, missing[0])])
  }

  function Produce(g: Gateway, m: KafkaMessage, refused: bool): Gateway {
    if refused then g else
      var n := g.kafkaMsgCounter + 1;
      g.(kafka := g.kafka + [m], kafkaMsgCounter := n, msgCount := if n % 1000 == 0 then n else g.msgCount)
  }

  function UnpackRecord(o: Options, g: Gateway, r: Record, refused: bool): Gateway {
    Produce(if o.counting then g.(counts := Observe(g.counts, r)) else g, Encoded(OnWire(r)), refused)
  }

  function Unpack(o: Options, g: Gateway, rs: seq<Record>, refused: set<nat>): Gateway {
    if rs == [] then g else
      var k := |rs| - 1;
      UnpackRecord(o, Unpack(o, g, rs[..k], refused), rs[k], k in refused)
  }

  /** Unpacking needs a payload with the "tripletBatch" field, decoded; otherwise the handler raises
      before it has changed anything. */
  predicate Raises(o: Options, p: Payload) {
    !o.passthrough && (!o.batching || p.Single?)
  }

  function Handle(o: Options, g: Gateway, p: Payload, refused: set<nat>): Gateway {
    if o.passthrough then Produce(g, PassedThrough(p), 0 in refused)
    else if Raises(o, p) then g
    else Unpack(o, g, Contents(p), refused)
  }

  datatype Message = Message(payload: Payload, refused: set<nat>)

  function HandleAll(o: Options, g: Gateway, ms: seq<Message>): Gateway {
    if ms == [] then g else
      var k := |ms| - 1;
      Handle(o, HandleAll(o, g, ms[..k]), ms[k].payload, ms[k].refused)
  }

  class FanInProcess {
    const topic: string
    const options: Options
    var myMQTTtopicCounterPerUUID: map<Uuid, int>
    var attentions: seq<Attention>
    var kafka: seq<KafkaMessage>
    var kafka_msg_counter: nat
    var msgCount: nat

    function State(): Gateway
      reads this
    {
      Gateway(Counts(myMQTTtopicCounterPerUUID, attentions), kafka, kafka_msg_counter, msgCount)
    }

    constructor (topic: string, options: Options)
      ensures this.topic == topic && this.options == options && State() == FRESH_GATEWAY
    {
      this.topic, this.options := topic, options;
      myMQTTtopicCounterPerUUID, attentions, kafka := map[], [], [];
      kafka_msg_counter, msgCount := 1, 0;
    }

    /** The stamp check; a key that is not in the dictionary ends up in the `except` branch. */
    method CheckStamp(data: Record)
      modifies this`myMQTTtopicCounterPerUUID, this`attentions
      ensures State() == old(State()).(counts := Observe(old(State().counts), data))
    {
      var u, v := data.sensorUuid, data.sensorValue;
      if u in myMQTTtopicCounterPerUUID {
        if !(myMQTTtopicCounterPerUUID[u] == v - 1) && !(myMQTTtopicCounterPerUUID[u] - v == 0) {
          attentions := attentions + [Attention(u, v - myMQTTtopicCounterPerUUID[u])];
        }
        myMQTTtopicCounterPerUUID := myMQTTtopicCounterPerUUID[u := v];
      } else {
        myMQTTtopicCounterPerUUID := myMQTTtopicCounterPerUUID[u := v];
        if v != 1 {
          attentions := attentions + [Attention(u, v - 1)];
        }
      }
    }

    method KafkaProduce(m: KafkaMessage, refused: bool)
      modifies this`kafka, this`kafka_msg_counter, this`msgCount
      ensures State() == Produce(old(State()), m, refused)
    {
      if !refused {
        kafka := kafka + [m];
        kafka_msg_counter := kafka_msg_counter + 1;
        if kafka_msg_counter % 1000 == 0 {
          msgCount := kafka_msg_counter;
        }
      }
    }

    method UnpackOne(data: Record, refused: bool)
      modifies this
      ensures State() == UnpackRecord(options, old(State()), data, refused)
    {
      if options.counting {
        CheckStamp(data);
      }
      KafkaProduce(Encoded(OnWire(data)), refused);
    }

    method MqttOnMessage(messageTopic: string, payload: Payload, refused: set<nat>) returns (raised: bool)
      modifies this
      ensures messageTopic != topic ==> State() == old(State()) && !raised
      ensures messageTopic == topic ==>
                State() == Handle(options, old(State()), payload, refused) && raised == Raises(options, payload)
    {
      raised := false;
      if messageTopic == topic {
        if !options.passthrough {
          if !options.batching || payload.Single? {
            return true;
          }
          var query_data := payload.records;
          var k := 0;
          while k < |query_data|
            invariant k <= |query_data|
            invariant State() == Unpack(options, old(State()), query_data[..k], refused)
          {
            assert query_data[..k + 1][..k] == query_data[..k];
            UnpackOne(query_data[k], k in refused);
            k := k + 1;
          }
          assert query_data[..k] == query_data;
        } else {
          KafkaProduce(PassedThrough(payload), 0 in refused);
        }
      }
    }
  }

  // ---------- Counters ----------

  /** The running counters agree with the log. */
  ghost predicate Tallied(g: Gateway) {
    && g.kafkaMsgCounter == 1 + |g.kafka|
    && g.msgCount == g.kafkaMsgCounter / 1000 * 1000
  }

  lemma ProduceTallies(g: Gateway, m: KafkaMessage, refused: bool)
    requires Tallied(g)
    ensures Tallied(Produce(g, m, refused))
  {
  }

  lemma {:induction false} UnpackTallies(o: Options, g: Gateway, rs: seq<Record>, refused: set<nat>)
    requires Tallied(g)
    ensures Tallied(Unpack(o, g, rs, refused))
  {
    if rs != [] {
      var k := |rs| - 1;
      UnpackTallies(o, g, rs[..k], refused);
      var before := Unpack(o, g, rs[..k], refused);
      var counted := if o.counting then before.(counts := Observe(before.counts, rs[k])) else before;
      ProduceTallies(counted, Encoded(OnWire(rs[k])), k in refused);
    }
  }

  lemma HandleTallies(o: Options, g: Gateway, p: Payload, refused: set<nat>)
    requires Tallied(g)
    ensures Tallied(Handle(o, g, p, refused))
  {
    ProduceTallies(g, PassedThrough(p), 0 in refused);
    UnpackTallies(o, g, Contents(p), refused);
  }

  /** In both modes, after any run, whatever the producer refused. */
  lemma {:induction false} RunTallies(o: Options, ms: seq<Message>)
    ensures Tallied(HandleAll(o, FRESH_GATEWAY, ms))
  {
    if ms != [] {
      var k := |ms| - 1;
      RunTallies(o, ms[..k]);
      HandleTallies(o, HandleAll(o, FRESH_GATEWAY, ms[..k]), ms[k].payload, ms[k].refused);
    }
  }

  // ---------- What reaches Kafka ----------

  function Decoded(m: KafkaMessage): seq<Record> {
    match m
    case Encoded(r) => [r]
    case PassedThrough(p) => Contents(p)
  }

  function LogRecords(log: seq<KafkaMessage>): seq<Record> {
    if log == [] then [] else LogRecords(log[..|log| - 1]) + Decoded(log[|log| - 1])
  }

  lemma LogSnoc(log: seq<KafkaMessage>, m: KafkaMessage)
    ensures LogRecords(log + [m]) == LogRecords(log) + Decoded(m)
  {
    assert (log + [m])[..|log|] == log;
  }

  /** The elements of `rs` whose position is (or is not) in `at`. */
  function Picked(rs: seq<Record>, at: set<nat>, wanted: bool): seq<Record> {
    if rs == [] then [] else
      var k := |rs| - 1;
      if (k in at) == wanted then Picked(rs[..k], at, wanted) + [rs[k]] else Picked(rs[..k], at, wanted)
  }

  /** What one message adds to the decoded log, and what the producer made it lose. */
  function Stored(o: Options, p: Payload, refused: set<nat>): seq<Record> {
    if o.passthrough then (if 0 in refused then [] else Contents(p))
    else if Raises(o, p) then []
    else Picked(AllOnWire(Contents(p)), refused, false)
  }

  function Dropped(o: Options, p: Payload, refused: set<nat>): seq<Record> {
    if o.passthrough then (if 0 in refused then Contents(p) else [])
    else if Raises(o, p) then Contents(p)
    else Picked(AllOnWire(Contents(p)), refused, true)
  }

  lemma UnpackRecordLog(o: Options, g: Gateway, r: Record, refused: bool)
    ensures LogRecords(UnpackRecord(o, g, r, refused).kafka)
         == if refused then LogRecords(g.kafka) else LogRecords(g.kafka) + [OnWire(r)]
  {
    LogSnoc(g.kafka, Encoded(OnWire(r)));
  }

  lemma {:induction false} UnpackLog(o: Options, g: Gateway, rs: seq<Record>, refused: set<nat>)
    ensures LogRecords(Unpack(o, g, rs, refused).kafka)
         == LogRecords(g.kafka) + Picked(AllOnWire(rs), refused, false)
  {
    if rs != [] {
      var k := |rs| - 1;
      UnpackLog(o, g, rs[..k], refused);
      assert AllOnWire(rs)[..k] == AllOnWire(rs[..k]);
      UnpackRecordLog(o, Unpack(o, g, rs[..k], refused), rs[k], k in refused);
    }
  }

  lemma HandleLog(o: Options, g: Gateway, p: Payload, refused: set<nat>)
    ensures LogRecords(Handle(o, g, p, refused).kafka) == LogRecords(g.kafka) + Stored(o, p, refused)
  {
    LogSnoc(g.kafka, PassedThrough(p));
    UnpackLog(o, g, Contents(p), refused);
  }

  lemma {:induction false} PickedPartition(rs: seq<Record>, at: set<nat>)
    ensures multiset(Picked(rs, at, true)) + multiset(Picked(rs, at, false)) == multiset(rs)
  {
    if rs != [] {
      var k := |rs| - 1;
      PickedPartition(rs[..k], at);
      assert rs == rs[..k] + [rs[k]];
    }
  }

  /** Every record of a message is either stored or dropped, and not both. */
  lemma MessageAccounted(o: Options, p: Payload, refused: set<nat>)
    requires AllOnWire(Contents(p)) == Contents(p)
    ensures multiset(Stored(o, p, refused)) + multiset(Dropped(o, p, refused)) == multiset(Contents(p))
  {
    PickedPartition(Contents(p), refused);
  }

  lemma {:induction false} PickedSubsequence(rs: seq<Record>, at: set<nat>, wanted: bool)
    ensures IsSubsequence(Picked(rs, at, wanted), rs)
  {
    if rs != [] {
      var k := |rs| - 1;
      PickedSubsequence(rs[..k], at, wanted);
      SubsequenceSkip(Picked(rs[..k], at, wanted), rs[..k], rs[k]);
      SubsequenceKeep(Picked(rs[..k], at, wanted), rs[..k], rs[k]);
      assert rs == rs[..k] + [rs[k]];
    }
  }

  lemma {:induction false} PickedAll(rs: seq<Record>)
    ensures Picked(rs, {}, false) == rs
  {
    if rs != [] {
      PickedAll(rs[..|rs| - 1]);
    }
  }

  /** Payloads as a batching sender encodes them, with a producer that takes everything. */
  function CleanMessages(batches: seq<seq<Record>>): seq<Message> {
    seq(|batches|, i requires 0 <= i < |batches| => Message(TripletBatch(AllOnWire(batches[i])), {}))
  }

  /** Passing batches through and decoding them later gives the records that unpacking stores,
      in the same order. */
  lemma {:induction false} PassthroughRefinesUnpacking(o: Options, batches: seq<seq<Record>>)
    requires o.batching
    ensures LogRecords(HandleAll(o.(passthrough := true), FRESH_GATEWAY, CleanMessages(batches)).kafka)
         == LogRecords(HandleAll(o.(passthrough := false), FRESH_GATEWAY, CleanMessages(batches)).kafka)
         == AllOnWire(Flatten(batches))
  {
    if batches != [] {
      var k := |batches| - 1;
      var ms := CleanMessages(batches);
      PassthroughRefinesUnpacking(o, batches[..k]);
      assert ms[..k] == CleanMessages(batches[..k]);
      var pass, unpack := o.(passthrough := true), o.(passthrough := false);
      HandleLog(pass, HandleAll(pass, FRESH_GATEWAY, ms[..k]), ms[k].payload, {});
      HandleLog(unpack, HandleAll(unpack, FRESH_GATEWAY, ms[..k]), ms[k].payload, {});
      WireIsIdempotent(batches[k]);
      PickedAll(AllOnWire(batches[k]));
      WireOfConcat(Flatten(batches[..k]), batches[k]);
    }
  }

  // ---------- One agent at a time ----------

  /** What the process knows and has reported about one agent. */
  datatype Tracked = Tracked(last: Option<int>, reports: seq<int>)

  function TrackOne(t: Tracked, v: int): Tracked {
    match t.last
    case None => Tracked(Some(v), if v != 1 then t.reports + [v - 1] else t.reports)
    case Some(c) => Tracked(Some(v), if c != v - 1 && c != v then t.reports + [v - c] else t.reports)
  }

  function Track(t: Tracked, vs: seq<int>): Tracked {
    if vs == [] then t else TrackOne(Track(t, vs[..|vs| - 1]), vs[|vs| - 1])
  }

  const UNKNOWN := Tracked(None, [])

  lemma TrackSnoc(t: Tracked, vs: seq<int>, v: int)
    ensures Track(t, vs + [v]) == TrackOne(Track(t, vs), v)
  {
    assert (vs + [v])[..|vs|] == vs;
  }

  lemma {:induction false} TrackConcat(t: Tracked, a: seq<int>, b: seq<int>)
    ensures Track(t, a + b) == Track(Track(t, a), b)
  {
    if b == [] {
      assert a + b == a;
    } else {
      var k := |b| - 1;
      TrackConcat(t, a, b[..k]);
      assert (a + b)[..|a| + k] == a + b[..k];
    }
  }

  function ReportsFor(lines: seq<Attention>, u: Uuid): seq<int> {
    if lines == [] then [] else
      var k := |lines| - 1;
      if lines[k].uuid == u then ReportsFor(lines[..k], u) + [lines[k].missing] else ReportsFor(lines[..k], u)
  }

  function ViewOf(c: Counts, u: Uuid): Tracked {
    Tracked(if u in c.last then Some(c.last[u]) else None, ReportsFor(c.attentions, u))
  }

  function ValuesFrom(rs: seq<Record>, u: Uuid): seq<int> {
    if rs == [] then [] else
      var k := |rs| - 1;
      if rs[k].sensorUuid == u then ValuesFrom(rs[..k], u) + [rs[k].sensorValue] else ValuesFrom(rs[..k], u)
  }

  lemma ReportsSnoc(lines: seq<Attention>, a: Attention, u: Uuid)
    ensures ReportsFor(lines + [a], u)
         == if a.uuid == u then ReportsFor(lines, u) + [a.missing] else ReportsFor(lines, u)
  {
    assert (lines + [a])[..|lines|] == lines;
  }

  lemma ObserveView(c: Counts, r: Record, u: Uuid)
    ensures ViewOf(Observe(c, r), u) ==
            if r.sensorUuid == u then TrackOne(ViewOf(c, u), r.sensorValue) else ViewOf(c, u)
  {
    var c' := Observe(c, r);
    if |c'.attentions| > |c.attentions| {
      ReportsSnoc(c.attentions, c'.attentions[|c.attentions|], u);
    }
  }

  lemma UnpackRecordView(o: Options, g: Gateway, r: Record, refused: bool, u: Uuid)
    requires o.counting
    ensures ViewOf(UnpackRecord(o, g, r, refused).counts, u) ==
            if r.sensorUuid == u then TrackOne(ViewOf(g.counts, u), r.sensorValue) else ViewOf(g.counts, u)
  {
    ObserveView(g.counts, r, u);
  }

  lemma {:induction false} UnpackView(o: Options, g: Gateway, rs: seq<Record>, refused: set<nat>, u: Uuid)
    requires o.counting
    ensures ViewOf(Unpack(o, g, rs, refused).counts, u) == Track(ViewOf(g.counts, u), ValuesFrom(rs, u))
  {
    if rs != [] {
      var k := |rs| - 1;
      UnpackView(o, g, rs[..k], refused, u);
      UnpackRecordView(o, Unpack(o, g, rs[..k], refused), rs[k], k in refused, u);
      TrackSnoc(ViewOf(g.counts, u), ValuesFrom(rs[..k], u), rs[k].sensorValue);
    }
  }

  /** The records that a run of messages makes the process check. */
  function Checked(o: Options, ms: seq<Message>): seq<Record> {
    if ms == [] || !o.counting || o.passthrough then [] else
      var k := |ms| - 1;
      Checked(o, ms[..k]) + (if Raises(o, ms[k].payload) then [] else Contents(ms[k].payload))
  }

  lemma {:induction false} ValuesConcat(a: seq<Record>, b: seq<Record>, u: Uuid)
    ensures ValuesFrom(a + b, u) == ValuesFrom(a, u) + ValuesFrom(b, u)
  {
    if b == [] {
      assert a + b == a;
    } else {
      var k := |b| - 1;
      ValuesConcat(a, b[..k], u);
      assert (a + b)[..|a| + k] == a + b[..k];
    }
  }

  lemma HandleView(o: Options, g: Gateway, m: Message, u: Uuid)
    ensures var checked := if !o.counting || o.passthrough || Raises(o, m.payload) then [] else Contents(m.payload);
            ViewOf(Handle(o, g, m.payload, m.refused).counts, u) == Track(ViewOf(g.counts, u), ValuesFrom(checked, u))
  {
    if !o.passthrough && !Raises(o, m.payload) {
      if o.counting {
        UnpackView(o, g, Contents(m.payload), m.refused, u);
      } else {
        UncheckedCounts(o, g, Contents(m.payload), m.refused);
      }
    }
  }

  lemma {:induction false} UncheckedCounts(o: Options, g: Gateway, rs: seq<Record>, refused: set<nat>)
    requires !o.counting
    ensures Unpack(o, g, rs, refused).counts == g.counts
  {
    if rs != [] {
      UncheckedCounts(o, g, rs[..|rs| - 1], refused);
    }
  }

  /** No agent disturbs another: after any run of messages of any number of agents, in every mode and
      whatever the producer refuses, what is known and reported about u follows from the stamps that
      carry u alone. */
  lemma {:induction false} NonInterference(o: Options, g: Gateway, ms: seq<Message>, u: Uuid)
    ensures ViewOf(HandleAll(o, g, ms).counts, u) == Track(ViewOf(g.counts, u), ValuesFrom(Checked(o, ms), u))
  {
    if ms == [] {
    } else {
      var k := |ms| - 1;
      NonInterference(o, g, ms[..k], u);
      HandleView(o, HandleAll(o, g, ms[..k]), ms[k], u);
      var more := if !o.counting || o.passthrough || Raises(o, ms[k].payload) then [] else Contents(ms[k].payload);
      assert Checked(o, ms) == Checked(o, ms[..k]) + more;
      ValuesConcat(Checked(o, ms[..k]), more, u);
      TrackConcat(ViewOf(g.counts, u), ValuesFrom(Checked(o, ms[..k]), u), ValuesFrom(more, u));
    }
  }
}
