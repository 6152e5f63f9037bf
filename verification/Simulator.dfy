/** The simulator's `send_data` in counter mode: the records of one list all carry the batch
    counter of the subtopic that is current when the list is built, which a flush in the middle of
    the list can leave behind. */
module Simulator {
  import opened Arithmetic
  import opened Records
  import opened AgentCommon

  /** One switch of one round: its timestamp and the metrics read from it. */
  datatype Reading = Reading(sensorUuid: Uuid, value: int)
  datatype Round = Round(timestamp: int, readings: seq<Reading>)

  /** `agent` is the agent's own UUID; `counting` is `myEnableMQTTbatchesCounter`. */
  datatype Source = Source(agent: Uuid, counting: bool)

  /** The record list built for one switch while `stamp` is the counter of the current subtopic. */
  function RecordList(src: Source, round: Round, stamp: int): (rs: seq<Record>)
    ensures |rs| == |round.readings|
  {
    seq(|round.readings|, i requires 0 <= i < |round.readings| =>
      if src.counting then Record(round.timestamp, src.agent, stamp)
      else Record(round.timestamp, round.readings[i].sensorUuid, round.readings[i].value))
  }

  function SendRound(cfg: Config, src: Source, s: Sender, round: Round): (s': Sender)
    requires s.Valid(cfg)
    ensures s'.Valid(cfg)
  {
    SendAll(cfg, s, RecordList(src, round, s.counters[s.cursor]))
  }

  function SendRounds(cfg: Config, src: Source, s: Sender, rounds: seq<Round>): (s': Sender)
    requires s.Valid(cfg)
    ensures s'.Valid(cfg)
  {
    if rounds == [] then s
    else SendRound(cfg, src, SendRounds(cfg, src, s, rounds[..|rounds| - 1]), rounds[|rounds| - 1])
  }

  /** Build one list in the metric loop. */
  method BuildList(agent: BatchSender, src: Source, round: Round) returns (recordList: seq<Record>)
    requires agent.Valid()
    ensures recordList == RecordList(src, round, agent.myBatchCounter[agent.myCurrentSubtopic])
  {
    recordList := [];
    var i := 0;
    var stamp := agent.myBatchCounter[agent.myCurrentSubtopic];
    while i < |round.readings|
      invariant i <= |round.readings|
      invariant recordList == RecordList(src, round, stamp)[..i]
    {
      var record: Record;
      if !src.counting {
        record := Record(round.timestamp, round.readings[i].sensorUuid, round.readings[i].value);
      } else {
        record := Record(round.timestamp, src.agent, agent.myBatchCounter[agent.myCurrentSubtopic]);
      }
      recordList := recordList + [record];
      i := i + 1;
    }
  }

  /** The sending loop over a finite number of rounds; it ends early when the process exits. */
  method SendData(agent: BatchSender, src: Source, rounds: seq<Round>)
    requires agent.Valid() && !agent.exited
    modifies agent
    ensures agent.Valid()
    ensures agent.State() == SendRounds(agent.cfg, src, old(agent.State()), rounds)
  {
    var i := 0;
    while i < |rounds| && !agent.exited
      invariant i <= |rounds| && agent.Valid()
      invariant agent.State() == SendRounds(agent.cfg, src, old(agent.State()), rounds[..i])
    {
      assert rounds[..i + 1][..i] == rounds[..i];
      var recordList := BuildList(agent, src, rounds[i]);
      agent.MqttSendTripletBatch(recordList);
      i := i + 1;
    }
    ExitedRounds(agent.cfg, src, old(agent.State()), rounds, i);
    assert rounds[..|rounds|] == rounds;
  }

  lemma {:induction false} ExitedRounds(cfg: Config, src: Source, s: Sender, rounds: seq<Round>, i: nat)
    requires s.Valid(cfg) && i <= |rounds|
    requires i == |rounds| || SendRounds(cfg, src, s, rounds[..i]).exited
    ensures SendRounds(cfg, src, s, rounds) == SendRounds(cfg, src, s, rounds[..i])
  {
    var k := |rounds| - 1;
    if i == |rounds| {
      assert rounds[..i] == rounds;
    } else {
      assert rounds[..k][..i] == rounds[..i];
      ExitedRounds(cfg, src, s, rounds[..k], i);
      var before := SendRounds(cfg, src, s, rounds[..k]);
      ExitedStays(cfg, before, RecordList(src, rounds[k], before.counters[before.cursor]));
    }
  }

  // ---------- Stamps in closed form ----------

  /** The number, from 1, that batch f (from 0) has on its subtopic. */
  function NumberOf(cfg: Config, f: nat): (n: nat)
    requires cfg.Valid()
    ensures n >= 1
  {
    1 + f / cfg.topics
  }

  /** The stamp of a list whose first record is record number p of the stream. */
  function StampAt(cfg: Config, len: nat, p: nat): (n: nat)
    requires cfg.Valid() && len > 0
    ensures n >= 1
  {
    NumberOf(cfg, p / len)
  }

  /** All the records that the rounds offer, in closed form. */
  function Stream(cfg: Config, len: nat, src: Source, rounds: seq<Round>): seq<Record>
    requires cfg.Valid() && len > 0
  {
    if rounds == [] then [] else
      var before := Stream(cfg, len, src, rounds[..|rounds| - 1]);
      before + RecordList(src, rounds[|rounds| - 1], StampAt(cfg, len, |before|))
  }

  lemma CursorStamp(cfg: Config, len: nat, before: seq<Record>)
    requires cfg.Valid() && IsBatchLength(cfg, len)
    ensures var s := SendAll(cfg, Started(cfg), before);
            !s.exited ==> s.counters[s.cursor] == StampAt(cfg, len, |before|)
  {
    BatchedForm(cfg, len, before, SendAll(cfg, Started(cfg), before));
    CursorCounter(cfg, len, before);
  }

  /** The list that a running process builds next has its stamp from its position in the stream. */
  lemma NextList(cfg: Config, len: nat, src: Source, before: seq<Record>, round: Round)
    requires cfg.Valid() && IsBatchLength(cfg, len)
    ensures SendRound(cfg, src, SendAll(cfg, Started(cfg), before), round)
         == SendAll(cfg, Started(cfg), before + RecordList(src, round, StampAt(cfg, len, |before|)))
  {
    var s := SendAll(cfg, Started(cfg), before);
    var list := RecordList(src, round, StampAt(cfg, len, |before|));
    SendAllConcat(cfg, Started(cfg), before, list);
    if s.exited {
      ExitedStays(cfg, s, list);
      ExitedStays(cfg, s, RecordList(src, round, s.counters[s.cursor]));
    } else {
      CursorStamp(cfg, len, before);
    }
  }

  /** The running process builds exactly the closed-form stream. */
  lemma {:induction false} StreamSent(cfg: Config, len: nat, src: Source, rounds: seq<Round>)
    requires cfg.Valid() && IsBatchLength(cfg, len)
    ensures SendRounds(cfg, src, Started(cfg), rounds)
         == SendAll(cfg, Started(cfg), Stream(cfg, len, src, rounds))
  {
    if rounds != [] {
      var k := |rounds| - 1;
      StreamSent(cfg, len, src, rounds[..k]);
      NextList(cfg, len, src, Stream(cfg, len, src, rounds[..k]), rounds[k]);
    }
  }

  function Size(rounds: seq<Round>): nat {
    if rounds == [] then 0 else Size(rounds[..|rounds| - 1]) + |rounds[|rounds| - 1].readings|
  }

  /** Where the list that holds record q starts. */
  function ListStart(rounds: seq<Round>, q: nat): (p: nat)
    requires q < Size(rounds)
    ensures p <= q
  {
    var before := rounds[..|rounds| - 1];
    if q >= Size(before) then Size(before) else ListStart(before, q)
  }

  predicate ListsUpTo(rounds: seq<Round>, bound: nat) {
    forall i :: 0 <= i < |rounds| ==> |rounds[i].readings| <= bound
  }

  predicate ListsOf(rounds: seq<Round>, m: nat) {
    forall i :: 0 <= i < |rounds| ==> |rounds[i].readings| == m
  }

  lemma {:induction false} StreamStamps(cfg: Config, len: nat, src: Source, rounds: seq<Round>, q: nat)
    requires cfg.Valid() && len > 0 && src.counting && q < Size(rounds)
    ensures |Stream(cfg, len, src, rounds)| == Size(rounds)
    ensures Stream(cfg, len, src, rounds)[q].sensorUuid == src.agent
    ensures Stream(cfg, len, src, rounds)[q].sensorValue == StampAt(cfg, len, ListStart(rounds, q))
  {
    var before := rounds[..|rounds| - 1];
    StreamSize(cfg, len, src, before);
    if q < Size(before) {
      StreamStamps(cfg, len, src, before, q);
    }
  }

  lemma {:induction false} StreamSize(cfg: Config, len: nat, src: Source, rounds: seq<Round>)
    requires cfg.Valid() && len > 0
    ensures |Stream(cfg, len, src, rounds)| == Size(rounds)
  {
    if rounds != [] {
      StreamSize(cfg, len, src, rounds[..|rounds| - 1]);
    }
  }

  lemma {:induction false} ListNear(rounds: seq<Round>, bound: nat, q: nat)
    requires q < Size(rounds) && ListsUpTo(rounds, bound)
    ensures q < ListStart(rounds, q) + bound
  {
    var before := rounds[..|rounds| - 1];
    if q < Size(before) {
      ListNear(before, bound, q);
    }
  }

  lemma {:induction false} ListStartMonotone(rounds: seq<Round>, q: nat, q': nat)
    requires q <= q' < Size(rounds)
    ensures ListStart(rounds, q) <= ListStart(rounds, q')
    ensures q < ListStart(rounds, q') ==> ListStart(rounds, q) <= q
    ensures ListStart(rounds, q') <= q ==> ListStart(rounds, q) == ListStart(rounds, q')
  {
    var before := rounds[..|rounds| - 1];
    if q' < Size(before) {
      ListStartMonotone(before, q, q');
    }
  }

  lemma {:induction false} ConstantLists(rounds: seq<Round>, m: nat, q: nat)
    requires m > 0 && ListsOf(rounds, m)
    ensures Size(rounds) == |rounds| * m
    ensures q < Size(rounds) ==> ListStart(rounds, q) == q / m * m
  {
    if rounds != [] {
      var k := |rounds| - 1;
      ConstantLists(rounds[..k], m, q);
      BlockEnd(k, m);
      if k * m <= q < k * m + m {
        QuotientUnique(q, k, q - k * m, m);
      }
    }
  }

  // ---------- The stamps of one batch ----------

  function Values(rs: seq<Record>): (vs: seq<int>)
    ensures |vs| == |rs|
  {
    seq(|rs|, i requires 0 <= i < |rs| => rs[i].sensorValue)
  }

  /** Batch number n of a subtopic carries stamps n - 1 and n only, the lower ones first. */
  predicate Carries(vs: seq<int>, n: nat) {
    && |vs| >= 1
    && (forall i :: 0 <= i < |vs| ==> (vs[i] == n || vs[i] == n - 1) && vs[i] >= 1)
    && (forall i, j :: 0 <= i < j < |vs| ==> vs[i] <= vs[j])
  }

  /** Batch f opens with records of a list that was started before the cursor wrapped. */
  predicate OpensWithLeftovers(cfg: Config, len: nat, rounds: seq<Round>, f: nat)
    requires cfg.Valid()
  {
    f % cfg.topics == 0 && f > 0 && f * len < Size(rounds) && ListStart(rounds, f * len) < f * len
  }

  /** The stamp that record q is given, in terms of the batch f it will travel in, which begins
      with record `first`. */
  function StampFor(cfg: Config, rounds: seq<Round>, f: nat, first: nat, q: nat): int
    requires cfg.Valid() && q < Size(rounds)
  {
    if f > 0 && f % cfg.topics == 0 && ListStart(rounds, q) < first
    then NumberOf(cfg, f) - 1 else NumberOf(cfg, f)
  }

  lemma StampInBatch(cfg: Config, len: nat, rounds: seq<Round>, q: nat)
    requires cfg.Valid() && len > 0 && q < Size(rounds) && ListsUpTo(rounds, len)
    ensures StampAt(cfg, len, ListStart(rounds, q)) == StampFor(cfg, rounds, q / len, q / len * len, q)
  {
    var p, f := ListStart(rounds, q), q / len;
    ListNear(rounds, len, q);
    QuotientNear(p, q, len);
    BlockBounds(p, len);
    BlockBounds(q, len);
    if p < f * len {
      if p / len == f {
        assert false;
      }
      assert p / len == f - 1;
      Successor(f - 1, cfg.topics);
    } else {
      QuotientMonotone(p, q, len);
      QuotientUnique(p, f, p - f * len, len);
    }
  }

  lemma ChunkOfStream(all: seq<Record>, rs: seq<Record>, len: nat, f: nat, i: nat)
    requires len > 0 && rs <= all && f < Publishes(|rs|, len)
    requires f * len <= |rs| && i < |Chunk(rs, len, f)|
    ensures i < len && f * len + i < |all| && Chunk(rs, len, f)[i] == all[f * len + i]
  {
    ChunkLength(rs, len, f);
  }

  /** Record q of the stream, which travels in batch q / len. */
  lemma StampOfRecord(cfg: Config, len: nat, src: Source, rounds: seq<Round>, q: nat)
    requires cfg.Valid() && len > 0 && src.counting && ListsUpTo(rounds, len) && q < Size(rounds)
    ensures q < |Stream(cfg, len, src, rounds)|
    ensures Stream(cfg, len, src, rounds)[q].sensorUuid == src.agent
    ensures Stream(cfg, len, src, rounds)[q].sensorValue == StampFor(cfg, rounds, q / len, q / len * len, q) >= 1
  {
    StreamStamps(cfg, len, src, rounds, q);
    StampInBatch(cfg, len, rounds, q);
  }

  lemma RecordInChunk(cfg: Config, len: nat, src: Source, rounds: seq<Round>, rs: seq<Record>, f: nat, i: nat)
    requires cfg.Valid() && len > 0 && src.counting && ListsUpTo(rounds, len)
    requires rs <= Stream(cfg, len, src, rounds) && f < Publishes(|rs|, len)
    requires f * len <= |rs| && i < |Chunk(rs, len, f)|
    ensures f * len + i < Size(rounds)
    ensures Chunk(rs, len, f)[i].sensorUuid == src.agent
    ensures Chunk(rs, len, f)[i].sensorValue == StampFor(cfg, rounds, f, f * len, f * len + i) >= 1
  {
    StreamSize(cfg, len, src, rounds);
    ChunkOfStream(Stream(cfg, len, src, rounds), rs, len, f, i);
    BlockOf(f, i, len);
    StampOfRecord(cfg, len, src, rounds, f * len + i);
  }

  lemma LeftoversOnStart(cfg: Config, f: nat)
    requires cfg.Valid() && f % cfg.topics == 0
    ensures SubtopicOf(cfg, f) == cfg.start
  {
    QuotientUnique(cfg.start + f, f / cfg.topics, cfg.start, cfg.topics);
  }

  /** Batch f, of n records, is made of such leftovers from end to end. */
  predicate OnlyLeftovers(cfg: Config, len: nat, rounds: seq<Round>, f: nat, n: nat)
    requires cfg.Valid()
  {
    f % cfg.topics == 0 && f > 0 && n > 0 && f * len + n <= Size(rounds) && ListStart(rounds, f * len + n - 1) < f * len
  }

  /** A full batch never is: a list is no longer than a batch. */
  lemma OnlyLeftoversIsShort(cfg: Config, len: nat, rounds: seq<Round>, f: nat, n: nat)
    requires cfg.Valid() && ListsUpTo(rounds, len) && OnlyLeftovers(cfg, len, rounds, f, n)
    ensures n < len
  {
    ListNear(rounds, len, f * len + n - 1);
  }

  ghost predicate StampedFrom(cfg: Config, rounds: seq<Round>, f: nat, first: nat, vs: seq<int>)
    requires cfg.Valid()
  {
    && first + |vs| <= Size(rounds)
    && forall i {:trigger vs[i]} :: 0 <= i < |vs| ==> vs[i] == StampFor(cfg, rounds, f, first, first + i) >= 1
  }

  lemma StampsFromStarts(cfg: Config, len: nat, rounds: seq<Round>, f: nat, first: nat, vs: seq<int>)
    requires cfg.Valid() && ListsUpTo(rounds, len) && 1 <= |vs| <= len
    requires StampedFrom(cfg, rounds, f, first, vs) && first == f * len
    ensures Carries(vs, NumberOf(cfg, f))
    ensures |vs| == len ==> vs[|vs| - 1] == NumberOf(cfg, f)
    ensures vs[0] == NumberOf(cfg, f) - 1 <==> OpensWithLeftovers(cfg, len, rounds, f)
    ensures vs[|vs| - 1] == NumberOf(cfg, f) - 1 <==> OnlyLeftovers(cfg, len, rounds, f, |vs|)
  {
    forall i, j | 0 <= i < j < |vs|
      ensures vs[i] <= vs[j]
    {
      ListStartMonotone(rounds, first + i, first + j);
    }
    if |vs| == len {
      ListNear(rounds, len, first + len - 1);
    }
    assert vs[0] == StampFor(cfg, rounds, f, first, first);
    assert vs[|vs| - 1] == StampFor(cfg, rounds, f, first, first + (|vs| - 1));
  }

  predicate AllFrom(rs: seq<Record>, uuid: Uuid) {
    forall i :: 0 <= i < |rs| ==> rs[i].sensorUuid == uuid
  }

  lemma ChunkStamped(cfg: Config, len: nat, src: Source, rounds: seq<Round>, rs: seq<Record>, f: nat, first: nat)
    requires cfg.Valid() && len > 0 && src.counting && ListsUpTo(rounds, len)
    requires rs <= Stream(cfg, len, src, rounds) && f < Publishes(|rs|, len)
    requires first == f * len <= |rs| && 1 <= |Chunk(rs, len, f)|
    ensures StampedFrom(cfg, rounds, f, first, Values(Chunk(rs, len, f)))
    ensures AllFrom(Chunk(rs, len, f), src.agent)
  {
    var chunk := Chunk(rs, len, f);
    RecordInChunk(cfg, len, src, rounds, rs, f, |chunk| - 1);
    forall i | 0 <= i < |chunk|
      ensures first + i < Size(rounds)
      ensures Values(chunk)[i] == StampFor(cfg, rounds, f, first, first + i) >= 1
      ensures chunk[i].sensorUuid == src.agent
    {
      RecordInChunk(cfg, len, src, rounds, rs, f, i);
    }
  }

  lemma OpensOnStart(cfg: Config, len: nat, rounds: seq<Round>, f: nat)
    requires cfg.Valid()
    ensures OpensWithLeftovers(cfg, len, rounds, f) ==> SubtopicOf(cfg, f) == cfg.start
  {
    if f % cfg.topics == 0 {
      LeftoversOnStart(cfg, f);
    }
  }

  /** The stamp lemma, for lists of at most one batch each: see `Carries`; a full batch ends in its
      own number; and the lower stamp shows up exactly in batches that open with leftovers, which
      only the start subtopic carries. */
  lemma StampsOfBatch(cfg: Config, len: nat, src: Source, rounds: seq<Round>, rs: seq<Record>, f: nat)
    requires cfg.Valid() && len > 0 && src.counting && ListsUpTo(rounds, len)
    requires rs <= Stream(cfg, len, src, rounds) && f < Publishes(|rs|, len)
    ensures f * len <= |rs| && |Chunk(rs, len, f)| <= len
    ensures var vs, n := Values(Chunk(rs, len, f)), NumberOf(cfg, f);
            && Carries(vs, n)
            && (|vs| == len ==> vs[|vs| - 1] == n)
            && (vs[0] == n - 1 <==> OpensWithLeftovers(cfg, len, rounds, f))
            && (vs[|vs| - 1] == n - 1 <==> OnlyLeftovers(cfg, len, rounds, f, |vs|))
    ensures AllFrom(Chunk(rs, len, f), src.agent)
    ensures OpensWithLeftovers(cfg, len, rounds, f) ==> SubtopicOf(cfg, f) == cfg.start
  {
    ChunkLength(rs, len, f);
    ChunkStamped(cfg, len, src, rounds, rs, f, f * len);
    StampsFromStarts(cfg, len, rounds, f, f * len, Values(Chunk(rs, len, f)));
    OpensOnStart(cfg, len, rounds, f);
  }

  /** With lists of constant length m, a batch opens with leftovers exactly when it is the first
      after a wrap of the cursor and m does not divide the number of records before it. */
  lemma LeftoversOfConstantLists(cfg: Config, len: nat, rounds: seq<Round>, m: nat, f: nat)
    requires cfg.Valid() && 0 < m && ListsOf(rounds, m) && f * len < Size(rounds)
    ensures OpensWithLeftovers(cfg, len, rounds, f) <==>
              f > 0 && f % cfg.topics == 0 && f * len % m != 0
  {
    ConstantLists(rounds, m, f * len);
    BlockBounds(f * len, m);
  }

  /** With lists of constant length m: the list of the batch's last record began before the batch. */
  lemma OnlyLeftoversOfConstantLists(cfg: Config, len: nat, rounds: seq<Round>, m: nat, f: nat, n: nat)
    requires cfg.Valid() && 0 < m && ListsOf(rounds, m) && 0 < n && f * len + n <= Size(rounds)
    ensures OnlyLeftovers(cfg, len, rounds, f, n) <==>
              f > 0 && f % cfg.topics == 0 && (f * len + n - 1) / m * m < f * len
  {
    ConstantLists(rounds, m, f * len + n - 1);
  }

  /** When m divides topics * len there are never leftovers, so every stamp is the batch's number. */
  lemma AlignedLists(cfg: Config, len: nat, rounds: seq<Round>, m: nat, f: nat)
    requires cfg.Valid() && 0 < m && ListsOf(rounds, m) && cfg.topics * len % m == 0
    ensures !OpensWithLeftovers(cfg, len, rounds, f)
  {
    if OpensWithLeftovers(cfg, len, rounds, f) {
      LeftoversOfConstantLists(cfg, len, rounds, m, f);
      var a, b := f / cfg.topics, cfg.topics * len / m;
      assert f == a * cfg.topics;
      assert cfg.topics * len == b * m;
      assert f * len == a * (cfg.topics * len) == a * b * m + 0;
      QuotientUnique(f * len, a * b, 0, m);
    }
  }
}
