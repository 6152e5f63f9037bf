/** The sending side: `mqtt_send_triplet_batch` with its buffer, its round-robin over subtopics,
    its batch counters and its message limit. */
module AgentCommon {
  import opened Arithmetic
  import opened Records

  /** `size(n)` is `sys.getsizeof` of a list that n appends have built; `limit` is
      `sendNumberOfMessages`, negative for none. */
  datatype Config = Config(topics: nat, start: nat, byteBatchSize: nat, limit: int, size: nat -> nat) {
    predicate Valid() {
      start < topics
    }
  }

  datatype Publish = Publish(subtopic: nat, payload: Payload)

  datatype Sender = Sender(
    buffer: seq<Record>,
    counters: seq<nat>,
    cursor: nat,
    count: nat,
    published: seq<Publish>,
    exited: bool)
  {
    predicate Valid(cfg: Config) {
      |counters| == cfg.topics && cursor < cfg.topics
    }
  }

  function Started(cfg: Config): (s: Sender)
    requires cfg.Valid()
    ensures s.Valid(cfg)
  {
    Sender([], seq(cfg.topics, _ => 1), cfg.start, 0, [], false)
  }

  /** Send `payload` on the current subtopic and count it there. */
  function Send(cfg: Config, s: Sender, payload: Payload): (s': Sender)
    requires s.Valid(cfg)
    ensures s'.Valid(cfg)
  {
    s.(published := s.published + [Publish(s.cursor, payload)],
       counters := s.counters[s.cursor := s.counters[s.cursor] + 1])
  }

  function Rotate(cfg: Config, cursor: nat): (c: nat)
    requires cursor < cfg.topics
    ensures c < cfg.topics
  {
    if cfg.topics > 1 then (if cursor < cfg.topics - 1 then cursor + 1 else 0) else cursor
  }

  /** One record handed to a running sender. */
  function Accept(cfg: Config, s: Sender, r: Record): (s': Sender)
    requires s.Valid(cfg)
    ensures s'.Valid(cfg)
  {
    if s.exited then s
    else if cfg.limit == s.count then
      (if cfg.byteBatchSize > 0 && |s.buffer| > 0
       then Send(cfg, s, TripletBatch(AllOnWire(s.buffer)))
       else s).(exited := true)
    else
      var full := s.(buffer := s.buffer + [r], count := s.count + 1);
      if cfg.byteBatchSize == 0 then
        Send(cfg, full, Single(OnWire(r))).(buffer := [])
      else if cfg.size(|full.buffer|) >= cfg.byteBatchSize then
        Send(cfg, full, TripletBatch(AllOnWire(full.buffer)))
        .(buffer := [], cursor := Rotate(cfg, s.cursor))
      else full
  }

  function SendAll(cfg: Config, s: Sender, rs: seq<Record>): (s': Sender)
    requires s.Valid(cfg)
    ensures s'.Valid(cfg)
  {
    if rs == [] then s
    else Accept(cfg, SendAll(cfg, s, rs[..|rs| - 1]), rs[|rs| - 1])
  }

  lemma SendAllSnoc(cfg: Config, s: Sender, rs: seq<Record>, r: Record)
    requires s.Valid(cfg)
    ensures SendAll(cfg, s, rs + [r]) == Accept(cfg, SendAll(cfg, s, rs), r)
  {
    assert (rs + [r])[..|rs|] == rs;
  }

  /** How the records are split into lists does not matter. */
  lemma {:induction false} SendAllConcat(cfg: Config, s: Sender, a: seq<Record>, b: seq<Record>)
    requires s.Valid(cfg)
    ensures SendAll(cfg, s, a + b) == SendAll(cfg, SendAll(cfg, s, a), b)
  {
    if b == [] {
      assert a + b == a;
    } else {
      var k := |b| - 1;
      SendAllConcat(cfg, s, a, b[..k]);
      assert a + b == (a + b[..k]) + [b[k]];
      SendAllSnoc(cfg, s, a + b[..k], b[k]);
    }
  }

  lemma {:induction false} ExitedStays(cfg: Config, s: Sender, rs: seq<Record>)
    requires s.Valid(cfg) && s.exited
    ensures SendAll(cfg, s, rs) == s
  {
    if rs != [] {
      ExitedStays(cfg, s, rs[..|rs| - 1]);
    }
  }

  // ---------- The length of a batch ----------

  /** The least length at which the size check fires. */
  predicate IsBatchLength(cfg: Config, len: nat) {
    && cfg.byteBatchSize > 0
    && len >= 1
    && cfg.size(len) >= cfg.byteBatchSize
    && forall n :: 1 <= n < len ==> cfg.size(n) < cfg.byteBatchSize
  }

  /** An unbounded size function gives every batch size such a length. */
  lemma BatchLengthExists(cfg: Config) returns (len: nat)
    requires cfg.byteBatchSize > 0
    requires exists n: nat :: n >= 1 && cfg.size(n) >= cfg.byteBatchSize
    ensures IsBatchLength(cfg, len)
    ensures forall other: nat :: IsBatchLength(cfg, other) ==> other == len
  {
    var n: nat :| n >= 1 && cfg.size(n) >= cfg.byteBatchSize;
    len := 1;
    while cfg.size(len) < cfg.byteBatchSize
      invariant 1 <= len <= n
      invariant forall k :: 1 <= k < len ==> cfg.size(k) < cfg.byteBatchSize
      decreases n - len
    {
      len := len + 1;
    }
    forall other: nat | IsBatchLength(cfg, other)
      ensures other == len
    {
      assert !(other < len) && !(len < other);
    }
  }

  // ---------- Closed form ----------

  /** Full batches published on subtopic t, plus one, after f publishes from `start`. */
  function CounterAt(cfg: Config, t: nat, f: nat): nat
    requires cfg.Valid()
  {
    1 + f / cfg.topics + (if (t - cfg.start) % cfg.topics < f % cfg.topics then 1 else 0)
  }

  function Counters(cfg: Config, f: nat): seq<nat>
    requires cfg.Valid()
  {
    seq(cfg.topics, t requires 0 <= t => CounterAt(cfg, t, f))
  }

  /** The subtopic of publish number f (from 0) in batched mode. */
  function SubtopicOf(cfg: Config, f: nat): (t: nat)
    requires cfg.Valid()
    ensures t < cfg.topics
  {
    (cfg.start + f) % cfg.topics
  }

  function Min(a: nat, b: nat): nat {
    if a < b then a else b
  }

  /** Records number f * len up to (f + 1) * len, or up to the end of the stream. */
  function Chunk(rs: seq<Record>, len: nat, f: nat): (c: seq<Record>)
    requires f * len <= |rs|
    ensures |c| == Min((f + 1) * len, |rs|) - f * len
  {
    BlockEnd(f, len);
    rs[f * len..Min((f + 1) * len, |rs|)]
  }

  function ChunkPublish(cfg: Config, rs: seq<Record>, len: nat, f: nat): Publish
    requires cfg.Valid() && f * len <= |rs|
  {
    Publish(SubtopicOf(cfg, f), TripletBatch(AllOnWire(Chunk(rs, len, f))))
  }

  lemma EarlierBlock(f: nat, g: nat, len: nat)
    requires f <= g
    ensures f * len <= g * len
  {
    assert g * len == f * len + (g - f) * len;
  }

  /** The first n publishes of the stream cut into chunks. */
  function Chunks(cfg: Config, rs: seq<Record>, len: nat, n: nat): (ps: seq<Publish>)
    requires cfg.Valid() && (n == 0 || (n - 1) * len <= |rs|)
    ensures |ps| == n
  {
    if n == 0 then [] else
      assert n >= 2 ==> (n - 2) * len <= |rs| by {
        if n >= 2 { EarlierBlock(n - 2, n - 1, len); }
      }
      Chunks(cfg, rs, len, n - 1) + [ChunkPublish(cfg, rs, len, n - 1)]
  }

  lemma {:induction false} ChunksAt(cfg: Config, rs: seq<Record>, len: nat, n: nat, f: nat)
    requires cfg.Valid() && f < n && (n - 1) * len <= |rs|
    ensures f * len <= |rs|
    ensures Chunks(cfg, rs, len, n)[f] == ChunkPublish(cfg, rs, len, f)
  {
    EarlierBlock(f, n - 1, len);
    if f < n - 1 {
      EarlierBlock(n - 2, n - 1, len);
      ChunksAt(cfg, rs, len, n - 1, f);
    }
  }

  /** Batched mode, while the limit has not been reached. */
  function Running(cfg: Config, len: nat, rs: seq<Record>): Sender
    requires cfg.Valid() && len > 0
  {
    var full := |rs| / len;
    BlockBounds(|rs|, len);
    FullChunks(|rs|, len);
    Sender(rs[full * len..], Counters(cfg, full), SubtopicOf(cfg, full), |rs|,
           Chunks(cfg, rs, len, full), false)
  }

  /** The number of publishes that n records end up in, the partial last batch included. */
  function Publishes(n: nat, len: nat): nat
    requires len > 0
  {
    n / len + (if n % len == 0 then 0 else 1)
  }

  /** Batched mode, after the limit made the process publish what was left and exit. */
  function Finished(cfg: Config, len: nat, rs: seq<Record>): Sender
    requires cfg.Valid() && len > 0
  {
    var full := |rs| / len;
    BlockBounds(|rs|, len);
    FullChunks(|rs|, len);
    Sender(rs[full * len..], Counters(cfg, Publishes(|rs|, len)), SubtopicOf(cfg, full), |rs|,
           Chunks(cfg, rs, len, Publishes(|rs|, len)), true)
  }

  lemma FullChunks(n: nat, len: nat)
    requires len > 0
    ensures n / len * len <= n
    ensures n / len > 0 ==> (n / len - 1) * len <= n
    ensures Publishes(n, len) > 0 ==> (Publishes(n, len) - 1) * len <= n
  {
    BlockBounds(n, len);
    if n / len > 0 {
      EarlierBlock(n / len - 1, n / len, len);
    }
  }

  lemma CounterAtStep(cfg: Config, t: nat, f: nat)
    requires cfg.Valid() && t < cfg.topics
    ensures CounterAt(cfg, t, f + 1) == CounterAt(cfg, t, f) + (if t == SubtopicOf(cfg, f) then 1 else 0)
    ensures t == SubtopicOf(cfg, f) ==> CounterAt(cfg, t, f) == 1 + f / cfg.topics
  {
    Successor(f, cfg.topics);
    ResidueOffset(cfg.start, f, t, cfg.topics);
    ResidueRange(t - cfg.start, cfg.topics);
  }

  lemma CounterStep(cfg: Config, f: nat)
    requires cfg.Valid()
    ensures Counters(cfg, f)[SubtopicOf(cfg, f) := Counters(cfg, f)[SubtopicOf(cfg, f)] + 1]
         == Counters(cfg, f + 1)
  {
    forall t: nat | t < cfg.topics
      ensures CounterAt(cfg, t, f + 1) == CounterAt(cfg, t, f) + (if t == SubtopicOf(cfg, f) then 1 else 0)
    {
      CounterAtStep(cfg, t, f);
    }
  }

  lemma RotateStep(cfg: Config, f: nat)
    requires cfg.Valid()
    ensures Rotate(cfg, SubtopicOf(cfg, f)) == SubtopicOf(cfg, f + 1)
  {
    Successor(cfg.start + f, cfg.topics);
    ResidueRange(cfg.start + f, cfg.topics);
  }

  lemma ChunkStable(rs: seq<Record>, more: seq<Record>, len: nat, f: nat)
    requires f * len <= |rs| && (f + 1) * len <= |rs|
    ensures f * len <= |rs + more| && Chunk(rs + more, len, f) == Chunk(rs, len, f)
  {
    BlockEnd(f, len);
    assert (rs + more)[f * len..(f + 1) * len] == rs[f * len..(f + 1) * len];
  }

  lemma {:induction false} ChunksStable(cfg: Config, rs: seq<Record>, more: seq<Record>, len: nat, n: nat)
    requires cfg.Valid() && n * len <= |rs|
    ensures n > 0 ==> (n - 1) * len <= |rs|
    ensures Chunks(cfg, rs + more, len, n) == Chunks(cfg, rs, len, n)
  {
    if n > 0 {
      EarlierBlock(n - 1, n, len);
      ChunksStable(cfg, rs, more, len, n - 1);
      ChunkStable(rs, more, len, n - 1);
    }
  }

  lemma BufferStep(cfg: Config, len: nat, rs: seq<Record>, r: Record)
    requires cfg.Valid() && IsBatchLength(cfg, len) && cfg.limit != |rs| && |rs| % len != len - 1
    ensures Running(cfg, len, rs).Valid(cfg)
    ensures Accept(cfg, Running(cfg, len, rs), r) == Running(cfg, len, rs + [r])
  {
    var full := |rs| / len;
    BlockBounds(|rs|, len);
    Successor(|rs|, len);
    FullChunks(|rs|, len);
    ChunksStable(cfg, rs, [r], len, full);
    assert rs[full * len..] + [r] == (rs + [r])[full * len..];
  }

  /** The record that completes a chunk completes the closed form of the publishes. */
  lemma LastOfChunk(cfg: Config, len: nat, rs: seq<Record>, r: Record)
    requires cfg.Valid() && len > 0 && |rs| % len == len - 1
    ensures var full := |rs| / len;
            && full * len <= |rs|
            && (full + 1) * len == |rs| + 1 && (full == 0 || (full - 1) * len <= |rs|)
            && Chunks(cfg, rs + [r], len, full + 1)
            == Chunks(cfg, rs, len, full)
               + [Publish(SubtopicOf(cfg, full), TripletBatch(AllOnWire(rs[full * len..] + [r])))]
  {
    var full := |rs| / len;
    BlockBounds(|rs|, len);
    FullChunks(|rs|, len);
    BlockEnd(full, len);
    ChunksStable(cfg, rs, [r], len, full);
    assert Chunk(rs + [r], len, full) == rs[full * len..] + [r];
  }

  lemma BufferAfterChunk(cfg: Config, len: nat, rs: seq<Record>, r: Record)
    requires cfg.Valid() && len > 0 && |rs| % len == len - 1
    ensures |Running(cfg, len, rs).buffer| == len - 1
    ensures |Running(cfg, len, rs + [r]).buffer| == 0
  {
    BlockBounds(|rs|, len);
    BlockBounds(|rs| + 1, len);
    Successor(|rs|, len);
  }

  lemma StateAfterChunk(cfg: Config, len: nat, rs: seq<Record>, r: Record)
    requires cfg.Valid() && len > 0 && |rs| % len == len - 1
    ensures Running(cfg, len, rs).Valid(cfg)
    ensures var s := Running(cfg, len, rs);
            Running(cfg, len, rs + [r]) ==
            Send(cfg, s, TripletBatch(AllOnWire(s.buffer + [r])))
            .(buffer := [], cursor := Rotate(cfg, s.cursor), count := s.count + 1)
  {
    BufferAfterChunk(cfg, len, rs, r);
    Successor(|rs|, len);
    LastOfChunk(cfg, len, rs, r);
    CounterStep(cfg, |rs| / len);
    RotateStep(cfg, |rs| / len);
  }

  lemma FlushStep(cfg: Config, len: nat, rs: seq<Record>, r: Record)
    requires cfg.Valid() && IsBatchLength(cfg, len) && cfg.limit != |rs| && |rs| % len == len - 1
    ensures Running(cfg, len, rs).Valid(cfg)
    ensures Accept(cfg, Running(cfg, len, rs), r) == Running(cfg, len, rs + [r])
  {
    StateAfterChunk(cfg, len, rs, r);
    BufferAfterChunk(cfg, len, rs, r);
  }

  lemma FinishStep(cfg: Config, len: nat, rs: seq<Record>, r: Record)
    requires cfg.Valid() && IsBatchLength(cfg, len) && cfg.limit == |rs|
    ensures Running(cfg, len, rs).Valid(cfg)
    ensures Accept(cfg, Running(cfg, len, rs), r) == Finished(cfg, len, rs)
  {
    var full := |rs| / len;
    BlockBounds(|rs|, len);
    FullChunks(|rs|, len);
    if |rs| % len != 0 {
      CounterStep(cfg, full);
      BlockEnd(full, len);
      assert Chunk(rs, len, full) == rs[full * len..];
    }
  }

  lemma CountersEmpty(cfg: Config)
    requires cfg.Valid()
    ensures Counters(cfg, 0) == seq(cfg.topics, _ => 1)
  {
    forall t: nat | t < cfg.topics
      ensures CounterAt(cfg, t, 0) == 1
    {
      ResidueRange(t - cfg.start, cfg.topics);
    }
  }

  lemma RunningEmpty(cfg: Config, len: nat)
    requires cfg.Valid() && len > 0
    ensures Running(cfg, len, []) == Started(cfg)
  {
    CountersEmpty(cfg);
    QuotientUnique(0, 0, 0, len);
  }

  lemma RunningStep(cfg: Config, len: nat, rs: seq<Record>, r: Record)
    requires cfg.Valid() && IsBatchLength(cfg, len) && cfg.limit != |rs|
    ensures Running(cfg, len, rs).Valid(cfg)
    ensures Accept(cfg, Running(cfg, len, rs), r) == Running(cfg, len, rs + [r])
  {
    if |rs| % len == len - 1 {
      FlushStep(cfg, len, rs, r);
    } else {
      BufferStep(cfg, len, rs, r);
    }
  }

  /** The closed form a sender that was handed `rs` must have reached. */
  function Reached(cfg: Config, len: nat, rs: seq<Record>): Sender
    requires cfg.Valid() && len > 0
  {
    if 0 <= cfg.limit < |rs| then Finished(cfg, len, rs[..cfg.limit]) else Running(cfg, len, rs)
  }

  lemma ReachedStep(cfg: Config, len: nat, rs: seq<Record>, r: Record)
    requires cfg.Valid() && IsBatchLength(cfg, len)
    ensures Reached(cfg, len, rs).Valid(cfg)
    ensures Accept(cfg, Reached(cfg, len, rs), r) == Reached(cfg, len, rs + [r])
  {
    if cfg.limit == |rs| {
      FinishStep(cfg, len, rs, r);
      assert (rs + [r])[..cfg.limit] == rs;
    } else if 0 <= cfg.limit < |rs| {
      assert (rs + [r])[..cfg.limit] == rs[..cfg.limit];
    } else {
      RunningStep(cfg, len, rs, r);
    }
  }

  /** What a sender has done after being handed `rs`, in any number of lists: it cut the stream
      into chunks of `len` records and dealt them out over the subtopics in turn; past the limit
      it kept exactly the first `limit` records, published the remainder as a last batch and exited. */
  lemma {:induction false} BatchedRun(cfg: Config, len: nat, rs: seq<Record>)
    requires cfg.Valid() && IsBatchLength(cfg, len)
    ensures SendAll(cfg, Started(cfg), rs) == Reached(cfg, len, rs)
  {
    if rs == [] {
      RunningEmpty(cfg, len);
    } else {
      var k := |rs| - 1;
      BatchedRun(cfg, len, rs[..k]);
      assert rs == rs[..k] + [rs[k]];
      ReachedStep(cfg, len, rs[..k], rs[k]);
    }
  }

  // ---------- Consequences ----------

  function PublishedRecords(ps: seq<Publish>): seq<Record> {
    if ps == [] then [] else PublishedRecords(ps[..|ps| - 1]) + Contents(ps[|ps| - 1].payload)
  }

  lemma PublishedSnoc(ps: seq<Publish>, p: Publish)
    ensures PublishedRecords(ps + [p]) == PublishedRecords(ps) + Contents(p.payload)
  {
    assert (ps + [p])[..|ps|] == ps;
  }

  /** Records that a live process still owes; an exited process owes nothing. */
  function Held(s: Sender): seq<Record> {
    if s.exited then [] else s.buffer
  }

  /** The records of `rs` that a sender with this limit accepts. */
  function Kept(cfg: Config, rs: seq<Record>): seq<Record> {
    if 0 <= cfg.limit < |rs| then rs[..cfg.limit] else rs
  }

  function Sum(xs: seq<nat>): nat {
    if xs == [] then 0 else Sum(xs[..|xs| - 1]) + xs[|xs| - 1]
  }

  lemma {:induction false} SumBump(xs: seq<nat>, i: nat)
    requires i < |xs|
    ensures Sum(xs[i := xs[i] + 1]) == Sum(xs) + 1
  {
    var k := |xs| - 1;
    if i < k {
      SumBump(xs[..k], i);
      assert xs[i := xs[i] + 1][..k] == xs[..k][i := xs[i] + 1];
    } else {
      assert xs[i := xs[i] + 1][..k] == xs[..k];
    }
  }

  lemma {:induction false} SumOfOnes(k: nat)
    ensures Sum(seq(k, _ => 1)) == k
  {
    if k > 0 {
      SumOfOnes(k - 1);
      assert seq(k, _ => 1)[..k - 1] == seq(k - 1, _ => 1);
    }
  }

  /** The books of one sender: nothing lost, nothing twice, and one count per publish. */
  ghost predicate Balanced(cfg: Config, s: Sender, kept: seq<Record>) {
    && s.Valid(cfg)
    && PublishedRecords(s.published) + AllOnWire(Held(s)) == AllOnWire(kept)
    && s.count == |kept|
    && Sum(s.counters) == cfg.topics + |s.published|
    && (cfg.byteBatchSize == 0 ==> s.buffer == [])
  }

  lemma SendBalances(cfg: Config, s: Sender, p: Payload)
    requires s.Valid(cfg)
    ensures PublishedRecords(Send(cfg, s, p).published) == PublishedRecords(s.published) + Contents(p)
    ensures Sum(Send(cfg, s, p).counters) == Sum(s.counters) + 1
  {
    PublishedSnoc(s.published, Publish(s.cursor, p));
    SumBump(s.counters, s.cursor);
  }

  lemma FinishBalances(cfg: Config, s: Sender, r: Record, kept: seq<Record>)
    requires cfg.Valid() && Balanced(cfg, s, kept) && !s.exited && cfg.limit == |kept|
    ensures Balanced(cfg, Accept(cfg, s, r), kept) && Accept(cfg, s, r).exited
  {
    SendBalances(cfg, s, TripletBatch(AllOnWire(s.buffer)));
  }

  /** What is owed grows by the record, and so does what was accepted. */
  lemma OwedGrows(published: seq<Record>, buffer: seq<Record>, kept: seq<Record>, r: Record)
    requires published + AllOnWire(buffer) == AllOnWire(kept)
    ensures published + AllOnWire(buffer + [r]) == AllOnWire(kept + [r])
  {
    WireOfConcat(kept, [r]);
    WireOfConcat(buffer, [r]);
    assert published + (AllOnWire(buffer) + AllOnWire([r])) == AllOnWire(kept) + AllOnWire([r]);
  }

  lemma SingleBalances(cfg: Config, s: Sender, r: Record, kept: seq<Record>)
    requires cfg.Valid() && Balanced(cfg, s, kept) && !s.exited && cfg.limit != |kept|
    requires cfg.byteBatchSize == 0
    ensures Balanced(cfg, Accept(cfg, s, r), kept + [r]) && !Accept(cfg, s, r).exited
  {
    OwedGrows(PublishedRecords(s.published), s.buffer, kept, r);
    SendBalances(cfg, s.(buffer := s.buffer + [r], count := s.count + 1), Single(OnWire(r)));
    assert AllOnWire(s.buffer + [r]) == [OnWire(r)];
  }

  lemma FlushedRecords(cfg: Config, s: Sender, r: Record, kept: seq<Record>)
    requires Balanced(cfg, s, kept) && !s.exited
    ensures PublishedRecords(s.published) + Contents(TripletBatch(AllOnWire(s.buffer + [r]))) == AllOnWire(kept + [r])
  {
    OwedGrows(PublishedRecords(s.published), s.buffer, kept, r);
  }

  lemma FlushBalances(cfg: Config, s: Sender, r: Record, kept: seq<Record>)
    requires cfg.Valid() && Balanced(cfg, s, kept) && !s.exited && cfg.limit != |kept|
    requires cfg.byteBatchSize > 0 && cfg.size(|s.buffer| + 1) >= cfg.byteBatchSize
    ensures Balanced(cfg, Accept(cfg, s, r), kept + [r]) && !Accept(cfg, s, r).exited
  {
    var full := s.(buffer := s.buffer + [r], count := s.count + 1);
    FlushedRecords(cfg, s, r, kept);
    SendBalances(cfg, full, TripletBatch(AllOnWire(full.buffer)));
  }

  lemma BufferBalances(cfg: Config, s: Sender, r: Record, kept: seq<Record>)
    requires cfg.Valid() && Balanced(cfg, s, kept) && !s.exited && cfg.limit != |kept|
    requires cfg.byteBatchSize > 0 && cfg.size(|s.buffer| + 1) < cfg.byteBatchSize
    ensures Balanced(cfg, Accept(cfg, s, r), kept + [r]) && !Accept(cfg, s, r).exited
  {
    OwedGrows(PublishedRecords(s.published), s.buffer, kept, r);
  }

  lemma AcceptBalances(cfg: Config, s: Sender, r: Record, kept: seq<Record>)
    requires cfg.Valid() && Balanced(cfg, s, kept) && !s.exited && cfg.limit != |kept|
    ensures Balanced(cfg, Accept(cfg, s, r), kept + [r]) && !Accept(cfg, s, r).exited
  {
    if cfg.byteBatchSize == 0 {
      SingleBalances(cfg, s, r, kept);
    } else if cfg.size(|s.buffer| + 1) >= cfg.byteBatchSize {
      FlushBalances(cfg, s, r, kept);
    } else {
      BufferBalances(cfg, s, r, kept);
    }
  }

  lemma StartedBalances(cfg: Config)
    requires cfg.Valid()
    ensures Balanced(cfg, Started(cfg), Kept(cfg, []))
  {
    SumOfOnes(cfg.topics);
  }

  lemma LimitedStep(cfg: Config, s: Sender, before: seq<Record>, r: Record)
    requires cfg.Valid() && Balanced(cfg, s, Kept(cfg, before)) && (s.exited <==> 0 <= cfg.limit < |before|)
    ensures Balanced(cfg, Accept(cfg, s, r), Kept(cfg, before + [r]))
    ensures Accept(cfg, s, r).exited <==> 0 <= cfg.limit < |before + [r]|
  {
    if s.exited {
      assert (before + [r])[..cfg.limit] == before[..cfg.limit];
    } else if cfg.limit == |before| {
      FinishBalances(cfg, s, r, before);
      assert (before + [r])[..cfg.limit] == before;
    } else {
      AcceptBalances(cfg, s, r, before);
    }
  }

  /** For every limit, every batch size (zero included) and every split into lists: the process
      exits exactly when record number limit + 1 arrives, it has then published exactly the first
      `limit` records in order, and a process that is still running has published all that it does
      not hold. */
  lemma {:induction false} LimitedRun(cfg: Config, rs: seq<Record>)
    requires cfg.Valid()
    ensures Balanced(cfg, SendAll(cfg, Started(cfg), rs), Kept(cfg, rs))
    ensures SendAll(cfg, Started(cfg), rs).exited <==> 0 <= cfg.limit < |rs|
  {
    if rs == [] {
      StartedBalances(cfg);
    } else {
      var before, r := rs[..|rs| - 1], rs[|rs| - 1];
      assert rs == before + [r];
      LimitedRun(cfg, before);
      LimitedStep(cfg, SendAll(cfg, Started(cfg), before), before, r);
    }
  }

  lemma BatchedForm(cfg: Config, len: nat, rs: seq<Record>, s: Sender)
    requires cfg.Valid() && IsBatchLength(cfg, len) && s == SendAll(cfg, Started(cfg), rs)
    ensures s == if s.exited then Finished(cfg, len, Kept(cfg, rs)) else Running(cfg, len, Kept(cfg, rs))
    ensures !s.exited ==> Kept(cfg, rs) == rs
  {
    BatchedRun(cfg, len, rs);
    LimitedRun(cfg, rs);
  }

  lemma CountersClose(cfg: Config, f: nat)
    requires cfg.Valid()
    ensures forall i, j :: 0 <= i < cfg.topics && 0 <= j < cfg.topics ==>
              Counters(cfg, f)[i] <= Counters(cfg, f)[j] + 1
  {
  }

  lemma CursorCounter(cfg: Config, len: nat, rs: seq<Record>)
    requires cfg.Valid() && len > 0
    ensures var s := Running(cfg, len, rs);
            s.Valid(cfg) && s.counters[s.cursor] == 1 + |rs| / len / cfg.topics
  {
    CounterAtStep(cfg, SubtopicOf(cfg, |rs| / len), |rs| / len);
  }

  /** The round robin in closed form, also after the final flush: counters follow from the number
      of publishes alone, and no two of them differ by more than one. */
  lemma RoundRobin(cfg: Config, len: nat, rs: seq<Record>, s: Sender)
    requires cfg.Valid() && IsBatchLength(cfg, len) && s == SendAll(cfg, Started(cfg), rs)
    ensures s.counters == Counters(cfg, |s.published|)
    ensures forall i, j :: 0 <= i < cfg.topics && 0 <= j < cfg.topics ==>
              s.counters[i] <= s.counters[j] + 1
    ensures !s.exited ==> s.cursor == SubtopicOf(cfg, |s.published|)
    ensures forall f :: 0 <= f < |s.published| ==> s.published[f].subtopic == SubtopicOf(cfg, f)
  {
    BatchedForm(cfg, len, rs, s);
    CountersClose(cfg, |s.published|);
    forall f | 0 <= f < |s.published|
      ensures s.published[f].subtopic == SubtopicOf(cfg, f)
    {
      PublishAt(cfg, len, rs, s, f);
    }
  }

  /** Publish number f is chunk number f of the records kept. */
  lemma PublishAt(cfg: Config, len: nat, rs: seq<Record>, s: Sender, f: nat)
    requires cfg.Valid() && IsBatchLength(cfg, len) && s == SendAll(cfg, Started(cfg), rs)
    requires f < |s.published|
    ensures f < Publishes(|Kept(cfg, rs)|, len) && f * len <= |Kept(cfg, rs)|
    ensures s.published[f] == ChunkPublish(cfg, Kept(cfg, rs), len, f)
  {
    BatchedForm(cfg, len, rs, s);
    FullChunks(|Kept(cfg, rs)|, len);
    ChunksAt(cfg, Kept(cfg, rs), len, |s.published|, f);
  }

  lemma ChunkLength(rs: seq<Record>, len: nat, f: nat)
    requires len > 0 && f < Publishes(|rs|, len)
    ensures f * len <= |rs|
    ensures f < |rs| / len ==> |Chunk(rs, len, f)| == len
    ensures f >= |rs| / len ==> f == |rs| / len && 1 <= |Chunk(rs, len, f)| == |rs| % len < len
  {
    BlockBounds(|rs|, len);
    BlockEnd(f, len);
    EarlierBlock(f, |rs| / len, len);
    if f < |rs| / len {
      EarlierBlock(f + 1, |rs| / len, len);
    }
  }

  /** Every batch but a last one published on exit has exactly `len` records, that last one has
      fewer but at least one, and a live buffer holds fewer than `len`. */
  lemma BatchLengths(cfg: Config, len: nat, rs: seq<Record>, s: Sender)
    requires cfg.Valid() && IsBatchLength(cfg, len) && s == SendAll(cfg, Started(cfg), rs)
    ensures |s.buffer| < len
    ensures |s.published| == if s.exited then Publishes(s.count, len) else s.count / len
    ensures forall f :: 0 <= f < |s.published| ==>
              var n := |Contents(s.published[f].payload)|;
              if f < s.count / len then n == len else f == |s.published| - 1 && s.exited && 1 <= n < len
  {
    BatchedForm(cfg, len, rs, s);
    BlockBounds(|Kept(cfg, rs)|, len);
    forall f | 0 <= f < |s.published|
      ensures var n := |Contents(s.published[f].payload)|;
              if f < s.count / len then n == len else f == |s.published| - 1 && s.exited && 1 <= n < len
    {
      PublishAt(cfg, len, rs, s, f);
      ChunkLength(Kept(cfg, rs), len, f);
    }
  }

  /** A sender without batching that has accepted `kept`. */
  function Unbatched(cfg: Config, kept: seq<Record>, exited: bool): Sender {
    Sender([], seq(cfg.topics, t => 1 + if t == cfg.start then |kept| else 0), cfg.start, |kept|,
           seq(|kept|, i requires 0 <= i < |kept| => Publish(cfg.start, Single(OnWire(kept[i])))), exited)
  }

  lemma UnbatchedStep(cfg: Config, kept: seq<Record>, r: Record)
    requires cfg.Valid() && cfg.byteBatchSize == 0
    ensures cfg.limit == |kept| ==> Accept(cfg, Unbatched(cfg, kept, false), r) == Unbatched(cfg, kept, true)
    ensures cfg.limit != |kept| ==>
              Accept(cfg, Unbatched(cfg, kept, false), r) == Unbatched(cfg, kept + [r], false)
  {
    var s, s' := Unbatched(cfg, kept, false), Unbatched(cfg, kept + [r], false);
    assert s.counters[s.cursor := s.counters[s.cursor] + 1] == s'.counters;
    assert s.published + [Publish(s.cursor, Single(OnWire(r)))] == s'.published;
  }

  /** Without batching every record leaves at once, alone, on the start subtopic: there is no
      rotation in this mode. */
  lemma {:induction false} UnbatchedRun(cfg: Config, rs: seq<Record>)
    requires cfg.Valid() && cfg.byteBatchSize == 0
    ensures SendAll(cfg, Started(cfg), rs) == Unbatched(cfg, Kept(cfg, rs), 0 <= cfg.limit < |rs|)
  {
    if rs == [] {
      assert Started(cfg) == Unbatched(cfg, [], false);
    } else {
      var k := |rs| - 1;
      UnbatchedRun(cfg, rs[..k]);
      if cfg.limit < 0 || k <= cfg.limit {
        UnbatchedStep(cfg, rs[..k], rs[k]);
        assert rs[..k] + [rs[k]] == rs;
      } else {
        assert rs[..k][..cfg.limit] == rs[..cfg.limit];
      }
    }
  }

  // ---------- The agent object ----------

  class BatchSender {
    const cfg: Config
    var myByteBatch: seq<Record>
    var myBatchCounter: seq<nat>
    var myCurrentSubtopic: nat
    var myMessageCounter: nat
    var published: seq<Publish>
    var exited: bool

    function State(): Sender
      reads this
    {
      Sender(myByteBatch, myBatchCounter, myCurrentSubtopic, myMessageCounter, published, exited)
    }

    ghost predicate Valid()
      reads this
    {
      cfg.Valid() && State().Valid(cfg) && (cfg.byteBatchSize == 0 ==> myByteBatch == [])
    }

    constructor (cfg: Config)
      requires cfg.Valid()
      ensures Valid() && this.cfg == cfg && State() == Started(cfg)
    {
      this.cfg := cfg;
      myByteBatch, myMessageCounter, published, exited := [], 0, [], false;
      myCurrentSubtopic := cfg.start;
      var counters: seq<nat> := [];
      var i := 0;
      while i < cfg.topics
        invariant i <= cfg.topics && counters == seq(i, _ => 1)
      {
        counters := counters + [1];
        i := i + 1;
      }
      myBatchCounter := counters;
    }

    method MqttSend(payload: Payload)
      requires State().Valid(cfg)
      modifies this`published, this`myBatchCounter
      ensures State() == Send(cfg, old(State()), payload)
    {
      published := published + [Publish(myCurrentSubtopic, payload)];
      myBatchCounter := myBatchCounter[myCurrentSubtopic := myBatchCounter[myCurrentSubtopic] + 1];
    }

    method MqttAcceptRecord(eachRecord: Record)
      requires Valid() && !exited
      modifies this
      ensures Valid() && State() == Accept(cfg, old(State()), eachRecord)
    {
      if cfg.limit == myMessageCounter {
        if cfg.byteBatchSize > 0 && |myByteBatch| > 0 {
          MqttSend(TripletBatch(AllOnWire(myByteBatch)));
        }
        exited := true;
        return;
      }
      myByteBatch := myByteBatch + [eachRecord];
      myMessageCounter := myMessageCounter + 1;
      if cfg.byteBatchSize == 0 {
        var last := myByteBatch[|myByteBatch| - 1];
        MqttSend(Single(OnWire(last)));
        myByteBatch := [];
      } else if cfg.size(|myByteBatch|) >= cfg.byteBatchSize {
        MqttSend(TripletBatch(AllOnWire(myByteBatch)));
        if cfg.topics > 1 {
          myCurrentSubtopic := if myCurrentSubtopic < cfg.topics - 1 then myCurrentSubtopic + 1 else 0;
        }
        myByteBatch := [];
      }
    }

    /** The record loop. Leaving the process shows as `exited`, with the rest of the list unread. */
    method MqttSendTripletBatch(recordList: seq<Record>)
      requires Valid() && !exited
      modifies this
      ensures Valid() && State() == SendAll(cfg, old(State()), recordList)
    {
      var i := 0;
      while i < |recordList| && !exited
        invariant i <= |recordList| && Valid()
        invariant State() == SendAll(cfg, old(State()), recordList[..i])
      {
        SendAllSnoc(cfg, old(State()), recordList[..i], recordList[i]);
        assert recordList[..i + 1] == recordList[..i] + [recordList[i]];
        MqttAcceptRecord(recordList[i]);
        i := i + 1;
      }
      assert recordList == recordList[..i] + recordList[i..];
      SendAllConcat(cfg, old(State()), recordList[..i], recordList[i..]);
      if exited {
        ExitedStays(cfg, State(), recordList[i..]);
      }
    }
  }
}
