/** What becomes of a reading: from the switch that gave it, through batches or alone, to Kafka, field
    by field and in every reachable state. */
module Readings {
  import opened Records
  import opened AgentCommon
  import opened Simulator
  import opened FanIn
  import opened Pipeline
  import opened Conservation
  import opened EndToEnd
  import Float32

  // ---------- From the switches to the sender ----------

  /** One reading with the time of its round. */
  datatype Sample = Sample(timestamp: int, reading: Reading)

  /** All readings of the rounds, in order. */
  function Samples(rounds: seq<Round>): seq<Sample> {
    if rounds == [] then [] else
      var round := rounds[|rounds| - 1];
      Samples(rounds[..|rounds| - 1])
      + seq(|round.readings|, i requires 0 <= i < |round.readings| => Sample(round.timestamp, round.readings[i]))
  }

  /** The record sent for a sample: at its time, and either the sensor's own value under the sensor's
      own UUID, or, when counting, a batch count under the agent's. */
  predicate SentFor(src: Source, r: Record, x: Sample) {
    && r.timestamp == x.timestamp
    && (if src.counting then r.sensorUuid == src.agent
        else r.sensorUuid == x.reading.sensorUuid && r.sensorValue == x.reading.value)
  }

  ghost predicate AllSentFor(src: Source, rs: seq<Record>, xs: seq<Sample>) {
    |rs| == |xs| && forall i :: 0 <= i < |rs| ==> SentFor(src, rs[i], xs[i])
  }

  lemma OneListSent(src: Source, rounds: seq<Round>, round: Round, before: seq<Record>, stamp: int)
    requires AllSentFor(src, before, Samples(rounds))
    ensures AllSentFor(src, before + RecordList(src, round, stamp), Samples(rounds + [round]))
  {
    assert (rounds + [round])[..|rounds|] == rounds;
  }

  /** For any sender, in any state and mode: the records that the rounds make it send are those of all
      the readings, in order. */
  lemma {:induction false} RoundsSent(cfg: Config, src: Source, s: Sender, rounds: seq<Round>) returns (rs: seq<Record>)
    requires s.Valid(cfg)
    ensures SendRounds(cfg, src, s, rounds) == SendAll(cfg, s, rs) && AllSentFor(src, rs, Samples(rounds))
  {
    rs := [];
    if rounds != [] {
      var before, round := rounds[..|rounds| - 1], rounds[|rounds| - 1];
      rs := RoundsSent(cfg, src, s, before);
      var s' := SendAll(cfg, s, rs);
      var list := RecordList(src, round, s'.counters[s'.cursor]);
      SendAllConcat(cfg, s, rs, list);
      OneListSent(src, before, round, rs, s'.counters[s'.cursor]);
      assert rounds == before + [round];
      rs := rs + list;
    }
  }

  /** The same for the whole pipeline. */
  lemma {:induction false} OfferedSamples(u: Setup, es: seq<Event>)
    requires u.Valid()
    ensures AllSentFor(u.src, Offered(u, es), Samples(RoundsOf(es)))
  {
    if es != [] {
      var before, e := es[..|es| - 1], es[|es| - 1];
      OfferedSamples(u, before);
      if e.Tick? {
        var s := Run(u, before).sender;
        OneListSent(u.src, RoundsOf(before), e.round, Offered(u, before), s.counters[s.cursor]);
      }
    }
  }

  // ---------- From the sender to the wire ----------

  /** A record as it arrives: the time and the UUID it was sent with, and its value as a float. */
  predicate Arrives(w: Record, r: Record) {
    w.timestamp == r.timestamp && w.sensorUuid == r.sensorUuid && w.sensorValue == Float32.Round(r.sensorValue)
  }

  lemma WireArrives(rs: seq<Record>, i: nat)
    requires i < |rs|
    ensures Arrives(AllOnWire(rs)[i], rs[i])
  {
  }

  lemma ChunkRecord(cfg: Config, rs: seq<Record>, len: nat, f: nat, first: nat, i: nat)
    requires cfg.Valid() && first == f * len <= |rs| && i < |Contents(ChunkPublish(cfg, rs, len, f).payload)|
    ensures first + i < |rs| && Arrives(Contents(ChunkPublish(cfg, rs, len, f).payload)[i], rs[first + i])
  {
    WireArrives(Chunk(rs, len, f), i);
  }

  /** Record i of publish f, in batches of len, is record f * len + i of those accepted. */
  lemma BatchedRecord(cfg: Config, len: nat, rs: seq<Record>, s: Sender, f: nat, i: nat)
    requires cfg.Valid() && IsBatchLength(cfg, len) && s == SendAll(cfg, Started(cfg), rs)
    requires f < |s.published| && i < |Contents(s.published[f].payload)|
    ensures f * len + i < |Kept(cfg, rs)|
    ensures Arrives(Contents(s.published[f].payload)[i], Kept(cfg, rs)[f * len + i])
  {
    PublishAt(cfg, len, rs, s, f);
    ChunkRecord(cfg, Kept(cfg, rs), len, f, f * len, i);
  }

  /** Without batching, publish f is record f of those accepted, alone. */
  lemma UnbatchedRecord(cfg: Config, rs: seq<Record>, s: Sender, f: nat)
    requires cfg.Valid() && cfg.byteBatchSize == 0 && s == SendAll(cfg, Started(cfg), rs)
    requires f < |s.published|
    ensures |s.published| == |Kept(cfg, rs)| && s.published[f].subtopic == cfg.start
    ensures s.published[f].payload.Single? && Arrives(s.published[f].payload.record, Kept(cfg, rs)[f])
  {
    UnbatchedRun(cfg, rs);
  }

  // ---------- From the wire to Kafka ----------

  lemma {:induction false} SubsequenceTransitive<T>(a: seq<T>, b: seq<T>, c: seq<T>)
    requires IsSubsequence(a, b) && IsSubsequence(b, c)
    ensures IsSubsequence(a, c)
    decreases |c|
  {
    if a != [] {
      var c' := c[..|c| - 1];
      if IsSubsequence(b, c') {
        SubsequenceTransitive(a, b, c');
      } else if IsSubsequence(a, b[..|b| - 1]) {
        SubsequenceTransitive(a, b[..|b| - 1], c');
      } else {
        SubsequenceTransitive(a[..|a| - 1], b[..|b| - 1], c');
      }
    }
  }

  lemma {:induction false} PublishedOnIsPart(ps: seq<Publish>, t: nat)
    ensures IsSubsequence(RecordsOn(ps, t), PublishedRecords(ps))
  {
    if ps != [] {
      var k := |ps| - 1;
      PublishedOnIsPart(ps[..k], t);
      var more := Contents(ps[k].payload);
      if ps[k].subtopic == t {
        SubsequenceAll(more);
        SubsequenceAppend(RecordsOn(ps[..k], t), PublishedRecords(ps[..k]), more, more);
      } else {
        SubsequenceSkipAll(RecordsOn(ps[..k], t), PublishedRecords(ps[..k]), more);
      }
    }
  }

  lemma {:induction false} SubsequenceAll<T>(a: seq<T>)
    ensures IsSubsequence(a, a)
  {
    if a != [] {
      SubsequenceAll(a[..|a| - 1]);
    }
  }

  /** Each log is, in order, a part of what the sender accepted. */
  lemma LogIsPart(u: Setup, es: seq<Event>, t: nat)
    requires u.Valid() && t < u.cfg.topics
    ensures IsSubsequence(LogRecords(Run(u, es).gateways[t].kafka), AllOnWire(Kept(u.cfg, Offered(u, es))))
  {
    var s := Run(u, es);
    var ps := s.sender.published;
    OrderKept(u, es);
    SenderOfRun(u, es);
    LimitedRun(u.cfg, Offered(u, es));
    assert LogInOrder(ps, s.gateways[t], s.delivered[t], t);
    var upTo := ps[..Frontier(s.delivered[t])];
    var more := RecordsOnGrow(ps, Frontier(s.delivered[t]), t);
    SubsequenceSkipAll(LogRecords(s.gateways[t].kafka), RecordsOn(upTo, t), more);
    PublishedOnIsPart(ps, t);
    SubsequenceTransitive(LogRecords(s.gateways[t].kafka), RecordsOn(ps, t), PublishedRecords(ps));
    SubsequenceSkipAll(LogRecords(s.gateways[t].kafka), PublishedRecords(ps), AllOnWire(Held(s.sender)));
  }

  /** What is in Kafka, field by field, in every reachable state and every mode: the records that
      process t has stored are samples of the rounds, in order and each at most once, within the limit;
      each carries the time of its round, and the UUID and (but for the float) the value that the
      sensor gave, or the agent's UUID when counting. */
  lemma KafkaHoldsReadings(u: Setup, es: seq<Event>, t: nat) returns (at: seq<nat>)
    requires u.Valid() && t < u.cfg.topics
    ensures var log, xs := LogRecords(Run(u, es).gateways[t].kafka), Samples(RoundsOf(es));
            && |at| == |log|
            && (forall i, j :: 0 <= i < j < |at| ==> at[i] < at[j])
            && forall i :: 0 <= i < |at| ==>
                 && at[i] < |xs| && (u.cfg.limit >= 0 ==> at[i] < u.cfg.limit)
                 && log[i].timestamp == xs[at[i]].timestamp
                 && (if u.src.counting then log[i].sensorUuid == u.src.agent
                     else log[i].sensorUuid == xs[at[i]].reading.sensorUuid
                          && log[i].sensorValue == Float32.Round(xs[at[i]].reading.value))
  {
    var log, kept := LogRecords(Run(u, es).gateways[t].kafka), Kept(u.cfg, Offered(u, es));
    LogIsPart(u, es, t);
    OfferedSamples(u, es);
    at := SubsequencePositions(log, AllOnWire(kept));
    forall i | 0 <= i < |at|
      ensures at[i] < |kept| && Arrives(log[i], kept[at[i]]) && kept[at[i]] == Offered(u, es)[at[i]]
    {
      WireArrives(kept, at[i]);
    }
  }

  // ---------- What the messages in Kafka are ----------

  /** Unpacking writes one message per record; passing through writes payloads as they were sent. */
  ghost predicate InForm(o: Options, ps: seq<Publish>, t: nat, m: KafkaMessage) {
    if o.passthrough
    then m.PassedThrough? && exists d :: 0 <= d < |ps| && ps[d] == Publish(t, m.payload)
    else m.Encoded?
  }

  ghost predicate LogInForm(o: Options, ps: seq<Publish>, t: nat, log: seq<KafkaMessage>) {
    forall k :: 0 <= k < |log| ==> InForm(o, ps, t, log[k])
  }

  lemma {:induction false} UnpackInForm(o: Options, ps: seq<Publish>, t: nat,
                                         g: Gateway, rs: seq<Record>, refused: set<nat>)
    requires !o.passthrough && LogInForm(o, ps, t, g.kafka)
    ensures LogInForm(o, ps, t, Unpack(o, g, rs, refused).kafka)
  {
    if rs != [] {
      UnpackInForm(o, ps, t, g, rs[..|rs| - 1], refused);
    }
  }

  lemma HandleInForm(o: Options, ps: seq<Publish>, d: nat, g: Gateway, refused: set<nat>)
    requires d < |ps| && LogInForm(o, ps, ps[d].subtopic, g.kafka)
    ensures LogInForm(o, ps, ps[d].subtopic, Handle(o, g, ps[d].payload, refused).kafka)
  {
    if o.passthrough {
      assert InForm(o, ps, ps[d].subtopic, PassedThrough(ps[d].payload));
    } else {
      UnpackInForm(o, ps, ps[d].subtopic, g, Contents(ps[d].payload), refused);
    }
  }

  lemma FormStays(o: Options, ps: seq<Publish>, ps': seq<Publish>, t: nat, log: seq<KafkaMessage>)
    requires ps <= ps' && LogInForm(o, ps, t, log)
    ensures LogInForm(o, ps', t, log)
  {
    forall k | 0 <= k < |log|
      ensures InForm(o, ps', t, log[k])
    {
      assert InForm(o, ps, t, log[k]);
      if o.passthrough {
        var d :| 0 <= d < |ps| && ps[d] == Publish(t, log[k].payload);
        assert ps'[d] == ps[d];
      }
    }
  }

  ghost predicate LogsInForm(u: Setup, s: State) {
    forall t :: 0 <= t < |s.gateways| ==> LogInForm(u.options, s.sender.published, t, s.gateways[t].kafka)
  }

  lemma ApplyInForm(u: Setup, s: State, e: Event)
    requires Shaped(u, s) && LogsInForm(u, s)
    ensures LogsInForm(u, Apply(u, s, e))
  {
    match e
    case Tick(round) =>
      ApplyShaped(u, s, e);
      forall t | 0 <= t < |s.gateways|
        ensures LogInForm(u.options, Apply(u, s, e).sender.published, t, s.gateways[t].kafka)
      {
        FormStays(u.options, s.sender.published, Apply(u, s, e).sender.published, t, s.gateways[t].kafka);
      }
    case Deliver(i, refused) =>
      if i < |s.inFlight| && Oldest(s, i) {
        var d := s.inFlight[i];
        HandleInForm(u.options, s.sender.published, d, s.gateways[s.sender.published[d].subtopic], refused);
      }
    case Lose(i) =>
  }

  /** In every reachable state. */
  lemma {:induction false} RunInForm(u: Setup, es: seq<Event>)
    requires u.Valid()
    ensures LogsInForm(u, Run(u, es))
  {
    if es != [] {
      RunInForm(u, es[..|es| - 1]);
      ApplyInForm(u, Run(u, es[..|es| - 1]), es[|es| - 1]);
    }
  }

  // ---------- Payloads that cannot be unpacked ----------

  /** A process that unpacks but does not decode, or that is sent single records, stores and counts
      nothing, ever: its handler raises on every message. */
  lemma {:induction false} HandlesNothing(u: Setup, es: seq<Event>)
    requires u.Valid() && !u.options.passthrough && (!u.options.batching || u.cfg.byteBatchSize == 0)
    ensures forall t :: 0 <= t < u.cfg.topics ==> Run(u, es).gateways[t] == FRESH_GATEWAY
  {
    if es != [] {
      var before, e := es[..|es| - 1], es[|es| - 1];
      HandlesNothing(u, before);
      var s := Run(u, before);
      if e.Deliver? && e.i < |s.inFlight| {
        var d := s.inFlight[e.i];
        if u.cfg.byteBatchSize == 0 {
          SenderOfRun(u, before);
          UnbatchedRecord(u.cfg, Offered(u, before), s.sender, d);
        }
        assert Handle(u.options, FRESH_GATEWAY, s.sender.published[d].payload, e.refused) == FRESH_GATEWAY;
      }
    }
  }
}
