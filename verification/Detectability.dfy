/** Which configurations let every loss show, and which let FanIn end on the number that the sender
    prints: exact conditions on topics, batch length, list length and message limit, and the runs
    that break each promise where its condition fails. */
module Detectability {
  import opened Arithmetic
  import opened Records
  import opened AgentCommon
  import opened Simulator
  import opened Wrappers
  import opened LossDetection
  import opened Pipeline
  import opened Conservation
  import opened EndToEnd
  import Float32
  import ListGrowth

  // ---------- Runs in which everything is sent first ----------

  /** Every list is sent before anything is delivered. */
  function Ticks(rounds: seq<Round>): seq<Event> {
    if rounds == [] then [] else Ticks(rounds[..|rounds| - 1]) + [Tick(rounds[|rounds| - 1])]
  }

  lemma RunSnoc(u: Setup, es: seq<Event>, e: Event)
    requires u.Valid()
    ensures Run(u, es + [e]) == Apply(u, Run(u, es), e)
    ensures RoundsOf(es + [e]) == RoundsOf(es) + if e.Tick? then [e.round] else []
  {
    assert (es + [e])[..|es|] == es;
  }

  /** Everything published is in flight, in order, from position n on; what lies below has been
      handled by the process of its subtopic. */
  ghost predicate Drained(u: Setup, s: State, n: nat)
    requires u.Valid()
  {
    && n <= |s.sender.published|
    && s.inFlight == Range(n, |s.sender.published|)
    && s.lost == []
    && |s.delivered| == u.cfg.topics
    && forall t :: 0 <= t < u.cfg.topics ==> Complete(u.cfg, s.delivered[t], t, n)
  }

  ghost predicate Undelivered(s: State) {
    forall t :: 0 <= t < |s.delivered| ==> s.delivered[t] == []
  }

  lemma TickDrained(u: Setup, s: State, round: Round)
    requires Shaped(u, s) && Drained(u, s, 0) && Undelivered(s)
    ensures Drained(u, Ticked(u, s, round), 0) && Undelivered(Ticked(u, s, round))
  {
    ApplyShaped(u, s, Tick(round));
  }

  lemma {:induction false} AfterTicks(u: Setup, rounds: seq<Round>)
    requires u.Valid()
    ensures RoundsOf(Ticks(rounds)) == rounds
    ensures Drained(u, Run(u, Ticks(rounds)), 0) && Undelivered(Run(u, Ticks(rounds)))
  {
    if rounds != [] {
      var before, round := rounds[..|rounds| - 1], rounds[|rounds| - 1];
      AfterTicks(u, before);
      TickDrained(u, Run(u, Ticks(before)), round);
      RunSnoc(u, Ticks(before), Tick(round));
    }
  }

  lemma CompleteStep(cfg: Config, at: seq<nat>, t: nat, n: nat)
    requires cfg.Valid() && Complete(cfg, at, t, n)
    ensures Complete(cfg, if SubtopicOf(cfg, n) == t then at + [n] else at, t, n + 1)
  {
    if SubtopicOf(cfg, n) == t {
      var at' := at + [n];
      forall d | 0 <= d < n + 1 && SubtopicOf(cfg, d) == t
        ensures d in at'
      {
        assert d < n ==> d in at;
        assert at'[|at|] == n;
      }
    }
  }

  ghost predicate InTurn(u: Setup, s: State)
    requires u.Valid()
  {
    forall d :: 0 <= d < |s.sender.published| ==> s.sender.published[d].subtopic == SubtopicOf(u.cfg, d)
  }

  lemma DrainStep(u: Setup, s: State, n: nat)
    requires Shaped(u, s) && InTurn(u, s) && Drained(u, s, n) && n < |s.sender.published|
    ensures Drained(u, Apply(u, s, Deliver(0, {})), n + 1)
    ensures Apply(u, s, Deliver(0, {})).sender == s.sender
  {
    assert Without(s.inFlight, 0) == Range(n + 1, |s.sender.published|);
    forall t | 0 <= t < u.cfg.topics
      ensures Complete(u.cfg, Apply(u, s, Deliver(0, {})).delivered[t], t, n + 1)
    {
      CompleteStep(u.cfg, s.delivered[t], t, n);
    }
  }

  lemma SubtopicsInRun(u: Setup, len: nat, es: seq<Event>)
    requires Counting(u, len, es)
    ensures InTurn(u, Run(u, es))
  {
    forall d | 0 <= d < |Run(u, es).sender.published|
      ensures Run(u, es).sender.published[d].subtopic == SubtopicOf(u.cfg, d)
    {
      PublishOfRun(u, len, es, d);
    }
  }

  /** These lists have been sent, and of what the sender made of them the first n have been handled. */
  ghost predicate Draining(u: Setup, es: seq<Event>, rounds: seq<Round>, sender: Sender, n: nat)
    requires u.Valid()
  {
    var s := Run(u, es);
    RoundsOf(es) == rounds && s.sender == sender && InTurn(u, s) && Drained(u, s, n)
  }

  lemma DrainRun(u: Setup, es: seq<Event>, rounds: seq<Round>, sender: Sender, n: nat)
    requires u.Valid() && Draining(u, es, rounds, sender, n) && n < |sender.published|
    ensures Draining(u, es + [Deliver(0, {})], rounds, sender, n + 1)
  {
    RunSnoc(u, es, Deliver(0, {}));
    DrainStep(u, Run(u, es), n);
  }

  /** Any such run goes on until everything published has been handled. */
  lemma {:induction false} DeliverAll(u: Setup, es: seq<Event>, rounds: seq<Round>, sender: Sender, n: nat)
      returns (es': seq<Event>)
    requires u.Valid() && n <= |sender.published| && Draining(u, es, rounds, sender, n)
    ensures Draining(u, es', rounds, sender, |sender.published|)
    decreases |sender.published| - n
  {
    if n < |sender.published| {
      DrainRun(u, es, rounds, sender, n);
      es' := DeliverAll(u, es + [Deliver(0, {})], rounds, sender, n + 1);
    } else {
      es' := es;
    }
  }

  /** All lists are sent, and all publishes arrive. */
  lemma AllArrive(u: Setup, len: nat, rounds: seq<Round>) returns (es: seq<Event>)
    requires Counting(u, len, Ticks(rounds))
    ensures Counting(u, len, es) && RoundsOf(es) == rounds && Run(u, es).lost == []
    ensures |Run(u, es).sender.published| == Made(u.cfg, len, Size(rounds))
    ensures Complete(u.cfg, Run(u, es).delivered[u.cfg.start], u.cfg.start, Made(u.cfg, len, Size(rounds)))
  {
    AfterTicks(u, rounds);
    SubtopicsInRun(u, len, Ticks(rounds));
    PublishesMade(u, len, Ticks(rounds));
    es := DeliverAll(u, Ticks(rounds), rounds, Run(u, Ticks(rounds)).sender, 0);
  }

  // ---------- Losses ----------

  /** The first batch is lost, and the next batch of its subtopic arrives. */
  function LoseFirst(cfg: Config, rounds: seq<Round>): seq<Event>
    requires cfg.Valid()
  {
    Ticks(rounds) + [Lose(0)] + [Deliver(cfg.topics - 1, {})]
  }

  /** No position between 0 and `topics` is on the start subtopic. */
  lemma StartOnlyAtTurns(cfg: Config, d: nat)
    requires cfg.Valid() && d <= cfg.topics
    ensures SubtopicOf(cfg, d) == cfg.start <==> d == 0 || d == cfg.topics
  {
    BlockOf(0, 0, cfg.topics);
    BlockOf(1, 0, cfg.topics);
    LeftoversOnStart(cfg, 0);
    LeftoversOnStart(cfg, cfg.topics);
    if 0 < d && SubtopicOf(cfg, d) == cfg.start {
      SameSubtopic(cfg, 0, d);
    }
  }

  lemma LoseOldest(u: Setup, s: State)
    requires Shaped(u, s) && s.inFlight == Range(0, |s.sender.published|) && s.sender.published != []
    ensures var s' := Apply(u, s, Lose(0));
            && s'.inFlight == Range(1, |s.sender.published|)
            && s'.lost == s.lost + [0]
            && s'.sender == s.sender && s'.delivered == s.delivered
  {
  }

  lemma DeliverSecond(u: Setup, s: State)
    requires Shaped(u, s) && InTurn(u, s) && u.cfg.topics < |s.sender.published|
    requires s.inFlight == Range(1, |s.sender.published|)
    ensures var s' := Apply(u, s, Deliver(u.cfg.topics - 1, {}));
            && s'.sender == s.sender && s'.lost == s.lost
            && s'.delivered == s.delivered[u.cfg.start := s.delivered[u.cfg.start] + [u.cfg.topics]]
  {
    var k := u.cfg.topics;
    StartOnlyAtTurns(u.cfg, k);
    forall i | 0 <= i < k - 1
      ensures s.sender.published[s.inFlight[i]].subtopic != u.cfg.start
    {
      StartOnlyAtTurns(u.cfg, i + 1);
    }
    assert Oldest(s, k - 1);
  }

  /** The first publish has been lost, and all the others are in flight. */
  ghost predicate FirstLost(u: Setup, es: seq<Event>, rounds: seq<Round>)
    requires u.Valid()
  {
    var s := Run(u, es);
    && RoundsOf(es) == rounds && InTurn(u, s)
    && u.cfg.topics < |s.sender.published| && s.inFlight == Range(1, |s.sender.published|)
    && s.lost == [0] && s.delivered[u.cfg.start] == []
  }

  lemma AfterLose(u: Setup, len: nat, rounds: seq<Round>)
    requires Counting(u, len, Ticks(rounds)) && u.cfg.topics < |Run(u, Ticks(rounds)).sender.published|
    ensures FirstLost(u, Ticks(rounds) + [Lose(0)], rounds)
  {
    AfterTicks(u, rounds);
    SubtopicsInRun(u, len, Ticks(rounds));
    LoseOldest(u, Run(u, Ticks(rounds)));
    RunSnoc(u, Ticks(rounds), Lose(0));
  }

  /** The first publish has been lost, and the next one on its subtopic has been handled. */
  ghost predicate SecondHandled(u: Setup, es: seq<Event>, rounds: seq<Round>)
    requires u.Valid()
  {
    RoundsOf(es) == rounds && Run(u, es).lost == [0] && Run(u, es).delivered[u.cfg.start] == [u.cfg.topics]
  }

  lemma AfterDeliver(u: Setup, es: seq<Event>, rounds: seq<Round>)
    requires u.Valid() && FirstLost(u, es, rounds)
    ensures SecondHandled(u, es + [Deliver(u.cfg.topics - 1, {})], rounds)
  {
    DeliverSecond(u, Run(u, es));
    RunSnoc(u, es, Deliver(u.cfg.topics - 1, {}));
  }

  /** How many batches are published of `size` records offered: all the full ones, and a partial one
      that the limit forces out. */
  function Made(cfg: Config, len: nat, size: nat): nat
    requires len > 0
  {
    if 0 <= cfg.limit < size then Publishes(cfg.limit, len) else size / len
  }

  lemma PublishesMade(u: Setup, len: nat, es: seq<Event>)
    requires Counting(u, len, es)
    ensures |Run(u, es).sender.published| == Made(u.cfg, len, Size(RoundsOf(es)))
  {
    var rs := Stream(u.cfg, len, u.src, RoundsOf(es));
    SenderOfRounds(u, es);
    StreamSent(u.cfg, len, u.src, RoundsOf(es));
    StreamSize(u.cfg, len, u.src, RoundsOf(es));
    BatchedRun(u.cfg, len, rs);
    FullChunks(|Kept(u.cfg, rs)|, len);
  }

  /** The records offered suffice for a batch after the first turn of the cursor. */
  predicate SecondTurn(cfg: Config, len: nat, size: nat) {
    && (cfg.limit < 0 || cfg.topics * len < cfg.limit)
    && cfg.limit < size && (cfg.topics + 1) * len <= size
  }

  lemma PublishesBeyond(n: nat, len: nat, k: nat)
    requires len > 0
    ensures n > k * len ==> Publishes(n, len) > k
    ensures n >= (k + 1) * len ==> n / len > k
  {
    BlockBounds(n, len);
    if n / len <= k {
      EarlierBlock(n / len, k, len);
      BlockEnd(k, len);
    }
  }

  lemma MadeInSecondTurn(cfg: Config, len: nat, size: nat)
    requires len > 0 && SecondTurn(cfg, len, size)
    ensures cfg.topics < Made(cfg, len, size)
  {
    PublishesBeyond(if cfg.limit < 0 then size else cfg.limit, len, cfg.topics);
  }

  lemma ReachesSecondTurn(u: Setup, len: nat, es: seq<Event>)
    requires Counting(u, len, es) && SecondTurn(u.cfg, len, Size(RoundsOf(es)))
    ensures u.cfg.topics < |Run(u, es).sender.published|
  {
    PublishesMade(u, len, es);
    MadeInSecondTurn(u.cfg, len, Size(RoundsOf(es)));
  }

  /** A loss that shows nowhere: with lists of a constant length m that does not divide
      topics * len, the first batch after a turn of the cursor opens with a record stamped as the
      batch before it on its subtopic, so that the loss of that batch goes unreported. */
  lemma SilentLoss(u: Setup, len: nat, m: nat, rounds: seq<Round>)
    requires Counting(u, len, Ticks(rounds)) && 0 < m && ListsOf(rounds, m)
    requires u.cfg.topics * len % m != 0 && SecondTurn(u.cfg, len, Size(rounds))
    ensures var es, t := LoseFirst(u.cfg, rounds), u.cfg.start;
            && Counting(u, len, es) && SecondHandled(u, es, rounds)
            && var bs := Batches(u, len, es, t);
            && bs[0].number == 2 && NumbersFitFloat(bs) && Gaps(bs) == 1
            && Knowledge(u, es, t).reports == []
  {
    AfterTicks(u, rounds);
    ReachesSecondTurn(u, len, Ticks(rounds));
    AfterLose(u, len, rounds);
    AfterDeliver(u, Ticks(rounds) + [Lose(0)], rounds);
    TurnOpensWithLeftovers(u.cfg, len, m, rounds);
    MissedAtTurn(u, len, LoseFirst(u.cfg, rounds), rounds);
  }

  lemma TurnOpensWithLeftovers(cfg: Config, len: nat, m: nat, rounds: seq<Round>)
    requires cfg.Valid() && 0 < len && 0 < m && ListsOf(rounds, m)
    requires cfg.topics * len % m != 0 && SecondTurn(cfg, len, Size(rounds))
    ensures OpensWithLeftovers(cfg, len, rounds, cfg.topics)
  {
    BlockEnd(cfg.topics, len);
    BlockOf(1, 0, cfg.topics);
    LeftoversOfConstantLists(cfg, len, rounds, m, cfg.topics);
  }

  /** Any run in which the first publish handled on the start subtopic is the one after a turn. */
  lemma MissedAtTurn(u: Setup, len: nat, es: seq<Event>, rounds: seq<Round>)
    requires Counting(u, len, es) && SecondHandled(u, es, rounds)
    requires OpensWithLeftovers(u.cfg, len, rounds, u.cfg.topics)
    ensures var bs := Batches(u, len, es, u.cfg.start);
            && bs[0].number == 2 && NumbersFitFloat(bs) && Gaps(bs) == 1
            && Knowledge(u, es, u.cfg.start).reports == []
  {
    var bs := Batches(u, len, es, u.cfg.start);
    BlockOf(1, 0, u.cfg.topics);
    assert bs[0].number == NumberOf(u.cfg, u.cfg.topics) == 2;
    ReportsAreExact(u, len, es, u.cfg.start);
    assert bs[..0] == [] && Lost(bs, 0) == 1 && Gaps(bs) == 1;
    assert !Reported(bs, 0);
  }

  /** In every run with lists of m records, at every process, there is one report for each gap. */
  ghost predicate LossesShow(u: Setup, len: nat, m: nat) {
    forall es, t: nat :: (Counting(u, len, es) && ListsOf(RoundsOf(es), m) && t < u.cfg.topics
                          && NumbersFitFloat(Batches(u, len, es, t))) ==>
                           |Knowledge(u, es, t).reports| == Gaps(Batches(u, len, es, t))
  }

  function SomeRounds(n: nat, m: nat): (rounds: seq<Round>)
    ensures ListsOf(rounds, m) && |rounds| == n
  {
    seq(n, _ => Round(0, seq(m, _ => Reading(0, 0))))
  }

  lemma RunOf(u: Setup, len: nat, m: nat, rounds: seq<Round>)
    requires CountingSetup(u, len) && m <= len && ListsOf(rounds, m)
    ensures Counting(u, len, Ticks(rounds))
  {
    AfterTicks(u, rounds);
  }

  lemma {:induction false} SizeOfRounds(rounds: seq<Round>, m: nat)
    requires m > 0 && ListsOf(rounds, m)
    ensures Size(rounds) >= |rounds|
  {
    if rounds != [] {
      SizeOfRounds(rounds[..|rounds| - 1], m);
    }
  }

  lemma ShowsWhenUnblurred(u: Setup, len: nat, m: nat, es: seq<Event>, t: nat)
    requires Counting(u, len, es) && 0 < m && ListsOf(RoundsOf(es), m) && t < u.cfg.topics
    requires NumbersFitFloat(Batches(u, len, es, t))
    requires u.cfg.topics * len % m == 0 || 0 <= u.cfg.limit <= u.cfg.topics * len
    ensures |Knowledge(u, es, t).reports| == Gaps(Batches(u, len, es, t))
  {
    assert Unblurred(u, len, es, t);
    ExactAccounting(u, len, es, t);
    UnblurredIsAligned(u, len, es, t);
    AlignedGaps(Batches(u, len, es, t));
  }

  /** Main result on configurations. With lists of m records, every loss shows in every run if and
      only if m divides the records of one turn of the cursor, or the limit allows no second turn. */
  lemma LossesShowIff(u: Setup, len: nat, m: nat)
    requires CountingSetup(u, len) && 0 < m <= len
    ensures LossesShow(u, len, m) <==>
              u.cfg.topics * len % m == 0 || 0 <= u.cfg.limit <= u.cfg.topics * len
  {
    var k, limit := u.cfg.topics, u.cfg.limit;
    if k * len % m == 0 || 0 <= limit <= k * len {
      forall es, t: nat | Counting(u, len, es) && ListsOf(RoundsOf(es), m) && t < k
                          && NumbersFitFloat(Batches(u, len, es, t))
        ensures |Knowledge(u, es, t).reports| == Gaps(Batches(u, len, es, t))
      {
        ShowsWhenUnblurred(u, len, m, es, t);
      }
    } else {
      var n := (k + 1) * len + (if limit < 0 then 0 else limit + 1);
      var rounds := SomeRounds(n, m);
      SizeOfRounds(rounds, m);
      RunOf(u, len, m, rounds);
      SilentLoss(u, len, m, rounds);
    }
  }

  /** As configured: batches of 512 bytes, which everyone counts. */
  ghost predicate Shipped(u: Setup) {
    && u.Valid() && u.cfg.byteBatchSize == 512 && u.cfg.size == ListGrowth.ListSize
    && u.src.counting && u.options.counting && u.options.batching && !u.options.passthrough
  }

  /** A batch then has 47 records. With the simulator's two metrics per list, losses show for an even
      number of topics; with the default of one topic and no limit they need not. */
  lemma ShippedLosses(u: Setup)
    requires Shipped(u)
    ensures LossesShow(u, 47, 2) <==> u.cfg.topics % 2 == 0 || 0 <= u.cfg.limit <= u.cfg.topics * 47
  {
    ListGrowth.ConfiguredBatchLength(u.cfg);
    LossesShowIff(u, 47, 2);
    var k := u.cfg.topics;
    QuotientUnique(k * 47, 23 * k + k / 2, k % 2, 2);
  }

  // ---------- False alarms ----------

  /** In every run with lists of m records, each process for which nothing was lost is silent. */
  ghost predicate SilentUnlessLost(u: Setup, len: nat, m: nat) {
    forall es, t: nat :: (Counting(u, len, es) && ListsOf(RoundsOf(es), m) && t < u.cfg.topics
                          && NothingLostOn(Run(u, es), t)) ==>
                           Knowledge(u, es, t).reports == []
  }

  /** The first batch with number 2^24 + 2. */
  function FirstAlarm(cfg: Config): nat {
    (Float32.EXACT + 1) * cfg.topics
  }

  /** The limit ends the run before that batch, or within the list that filled up the batch before. */
  predicate EndsBeforeAlarm(cfg: Config, len: nat, m: nat)
    requires m > 0
  {
    0 <= cfg.limit &&
    (cfg.limit <= FirstAlarm(cfg) * len || (cfg.limit - 1) % m >= cfg.limit - FirstAlarm(cfg) * len)
  }

  lemma AlarmNumber(cfg: Config, d: nat)
    requires cfg.Valid()
    ensures d < FirstAlarm(cfg) ==> NumberOf(cfg, d) <= Float32.EXACT + 1
    ensures d >= FirstAlarm(cfg) ==> NumberOf(cfg, d) >= Float32.EXACT + 2
    ensures d > FirstAlarm(cfg) && d % cfg.topics == 0 ==> NumberOf(cfg, d) >= Float32.EXACT + 3
    ensures FirstAlarm(cfg) % cfg.topics == 0
  {
    var k := cfg.topics;
    BlockOf(Float32.EXACT + 1, 0, k);
    BlockBounds(d, k);
    if d < FirstAlarm(cfg) {
      EarlierQuotient(d, Float32.EXACT + 1, k);
    } else {
      QuotientMonotone(FirstAlarm(cfg), d, k);
    }
  }

  lemma EarlierQuotient(d: nat, q: nat, k: nat)
    requires k > 0 && d < q * k
    ensures d / k < q
  {
    if d / k >= q {
      EarlierBlock(q, d / k, k);
    }
  }

  /** Such a limit lets through no later batch, and this one only as far as its leftovers go. */
  lemma AlarmCut(cfg: Config, len: nat, m: nat, d: nat)
    requires cfg.Valid() && 0 < m <= len && EndsBeforeAlarm(cfg, len, m)
    requires d >= FirstAlarm(cfg) && d * len < cfg.limit
    ensures d == FirstAlarm(cfg) == cfg.limit / len && CutInLeftovers(cfg, len, m)
    ensures cfg.limit - d * len < len
  {
    var f := FirstAlarm(cfg);
    EarlierBlock(f, d, len);
    QuotientUnique(cfg.limit, f, cfg.limit - f * len, len);
    if d > f {
      BlockEnd(f, len);
      EarlierBlock(f + 1, d, len);
    }
    AlarmNumber(cfg, f);
  }

  lemma PublishedBelowLimit(u: Setup, len: nat, es: seq<Event>, d: nat)
    requires Counting(u, len, es) && d < |Run(u, es).sender.published| && 0 <= u.cfg.limit
    ensures d * len < u.cfg.limit
    ensures |Contents(Run(u, es).sender.published[d].payload)| <= u.cfg.limit - d * len
  {
    PublishOfRun(u, len, es, d);
    ChunkLength(Accepted(u, len, es), len, d);
  }

  lemma LateIsLeftovers(u: Setup, len: nat, m: nat, es: seq<Event>, d: nat)
    requires Counting(u, len, es) && 0 < m <= len && ListsOf(RoundsOf(es), m)
    requires EndsBeforeAlarm(u.cfg, len, m)
    requires FirstAlarm(u.cfg) <= d < |Run(u, es).sender.published|
    ensures LeftoversOnly(u, len, es, d) && d == FirstAlarm(u.cfg)
  {
    PublishedBelowLimit(u, len, es, d);
    AlarmCut(u.cfg, len, m, d);
    PartialBatch(u, len, es, d);
    CutLeftovers(u.cfg, len, RoundsOf(es), m);
  }

  lemma SilentByLastStamp(u: Setup, len: nat, es: seq<Event>, t: nat, v: int)
    requires Counting(u, len, es) && t < u.cfg.topics && NothingLostOn(Run(u, es), t)
    requires EndsAt(Batches(u, len, es, t), v)
    ensures Knowledge(u, es, t).reports == [] <==> v <= Float32.EXACT + 1
  {
    SilentWithoutLoss(u, len, es, t);
  }

  lemma EarlyStamp(u: Setup, len: nat, m: nat, es: seq<Event>, d: nat)
    requires Counting(u, len, es) && 0 < m <= len && ListsOf(RoundsOf(es), m)
    requires EndsBeforeAlarm(u.cfg, len, m) && d < |Run(u, es).sender.published|
    ensures FinalStamp(u, len, es, d) <= Float32.EXACT + 1
  {
    AlarmNumber(u.cfg, d);
    if d >= FirstAlarm(u.cfg) {
      LateIsLeftovers(u, len, m, es, d);
      BlockOf(Float32.EXACT + 1, 0, u.cfg.topics);
    }
  }

  lemma SilentBeforeAlarm(u: Setup, len: nat, m: nat, es: seq<Event>, t: nat)
    requires Counting(u, len, es) && 0 < m <= len && ListsOf(RoundsOf(es), m) && t < u.cfg.topics
    requires EndsBeforeAlarm(u.cfg, len, m) && NothingLostOn(Run(u, es), t)
    ensures Knowledge(u, es, t).reports == []
  {
    if Run(u, es).delivered[t] == [] {
      SilentWithoutLoss(u, len, es, t);
    } else {
      var at, d := LastStamp(u, len, es, t);
      SilentByLastStamp(u, len, es, t, FinalStamp(u, len, es, d));
      EarlyStamp(u, len, m, es, d);
    }
  }

  /** A batch after this one on the start subtopic has a higher number, and this one is not cut short
      within leftovers. */
  lemma LateStamp(u: Setup, len: nat, m: nat, es: seq<Event>, d: nat)
    requires Counting(u, len, es) && 0 < m <= len && ListsOf(RoundsOf(es), m)
    requires !EndsBeforeAlarm(u.cfg, len, m)
    requires FirstAlarm(u.cfg) <= d < |Run(u, es).sender.published|
    ensures FinalStamp(u, len, es, d) >= Float32.EXACT + 2
  {
    AlarmNumber(u.cfg, d);
    if LeftoversOnly(u, len, es, d) {
      OnlyLeftoversIsShort(u.cfg, len, RoundsOf(es), d, |Contents(Run(u, es).sender.published[d].payload)|);
      PartialBatch(u, len, es, d);
      CutLeftovers(u.cfg, len, RoundsOf(es), m);
      BlockBounds(u.cfg.limit, len);
    }
  }

  lemma AlarmHandled(cfg: Config, at: seq<nat>, n: nat)
    requires cfg.Valid() && Complete(cfg, at, cfg.start, n) && FirstAlarm(cfg) < n
    ensures at != [] && at[|at| - 1] >= FirstAlarm(cfg)
  {
    AlarmNumber(cfg, 0);
    LeftoversOnStart(cfg, FirstAlarm(cfg));
    assert FirstAlarm(cfg) in at;
    LastIsLargest(at);
  }

  lemma LoudAfterAll(u: Setup, len: nat, m: nat, es: seq<Event>, n: nat)
    requires Counting(u, len, es) && 0 < m <= len && ListsOf(RoundsOf(es), m)
    requires !EndsBeforeAlarm(u.cfg, len, m) && FirstAlarm(u.cfg) < n
    requires Complete(u.cfg, Run(u, es).delivered[u.cfg.start], u.cfg.start, n)
    requires NothingLostOn(Run(u, es), u.cfg.start)
    ensures Knowledge(u, es, u.cfg.start).reports != []
  {
    AlarmHandled(u.cfg, Run(u, es).delivered[u.cfg.start], n);
    var at, d := LastStamp(u, len, es, u.cfg.start);
    SilentByLastStamp(u, len, es, u.cfg.start, FinalStamp(u, len, es, d));
    LateStamp(u, len, m, es, d);
  }

  /** A run in which nothing is lost, and yet a loss is reported. */
  lemma FalseAlarm(u: Setup, len: nat, m: nat, rounds: seq<Round>) returns (es: seq<Event>)
    requires Counting(u, len, Ticks(rounds)) && 0 < m <= len && ListsOf(rounds, m)
    requires !EndsBeforeAlarm(u.cfg, len, m) && FirstAlarm(u.cfg) < Made(u.cfg, len, Size(rounds))
    ensures Counting(u, len, es) && RoundsOf(es) == rounds && Run(u, es).lost == []
    ensures Knowledge(u, es, u.cfg.start).reports != []
  {
    es := AllArrive(u, len, rounds);
    LoudAfterAll(u, len, m, es, Made(u.cfg, len, Size(rounds)));
  }

  /** Without loss every process is silent in every run with lists of m records, if and only if the
      limit ends the run before the numbers outgrow a float. */
  lemma SilentUnlessLostIff(u: Setup, len: nat, m: nat)
    requires CountingSetup(u, len) && 0 < m <= len
    ensures SilentUnlessLost(u, len, m) <==> EndsBeforeAlarm(u.cfg, len, m)
  {
    if EndsBeforeAlarm(u.cfg, len, m) {
      forall es, t: nat | Counting(u, len, es) && ListsOf(RoundsOf(es), m) && t < u.cfg.topics
                          && NothingLostOn(Run(u, es), t)
        ensures Knowledge(u, es, t).reports == []
      {
        SilentBeforeAlarm(u, len, m, es, t);
      }
    } else {
      var f := FirstAlarm(u.cfg);
      var n := if u.cfg.limit < 0 then (f + 1) * len else u.cfg.limit + 1;
      var rounds := SomeRounds(n, m);
      SizeOfRounds(rounds, m);
      RunOf(u, len, m, rounds);
      PublishesBeyond(if u.cfg.limit < 0 then Size(rounds) else u.cfg.limit, len, f);
      var es := FalseAlarm(u, len, m, rounds);
      assert NothingLostOn(Run(u, es), u.cfg.start);
    }
  }

  // ---------- Final values ----------

  /** The process of t has handled all that was published on t, which is at least one batch, and their
      numbers fit a float. */
  ghost predicate HandledAll(u: Setup, es: seq<Event>, t: nat)
    requires u.Valid() && t < u.cfg.topics
  {
    var s := Run(u, es);
    Complete(u.cfg, s.delivered[t], t, |s.sender.published|) && 1 < s.sender.counters[t] <= Float32.EXACT + 1
  }

  /** In every run with lists of m records, each process that has handled all that was published on
      its subtopic ends on the number that the sender prints. */
  ghost predicate FinalValuesAgree(u: Setup, len: nat, m: nat) {
    forall es, t: nat :: (Counting(u, len, es) && ListsOf(RoundsOf(es), m) && t < u.cfg.topics
                          && HandledAll(u, es, t)) ==>
                           Knowledge(u, es, t).last == Some(Run(u, es).sender.counters[t] - 1)
  }

  /** The limit leaves a partial batch of n records, the first after a turn of the cursor, and they
      all belong to the list that filled up the batch before. */
  predicate CutInLeftovers(cfg: Config, len: nat, m: nat)
    requires cfg.Valid() && len > 0 && m > 0
  {
    && cfg.limit > 0
    && var f, n := cfg.limit / len, cfg.limit % len;
       n > 0 && f > 0 && f % cfg.topics == 0 && (cfg.limit - 1) % m >= n
  }

  /** And its number fits a float. */
  predicate LimitInLeftovers(cfg: Config, len: nat, m: nat)
    requires cfg.Valid() && len > 0 && m > 0
  {
    CutInLeftovers(cfg, len, m) && cfg.limit / len / cfg.topics < Float32.EXACT
  }

  /** The run has gone past its limit, which left a partial batch. */
  predicate Cut(cfg: Config, len: nat, size: nat)
    requires len > 0
  {
    0 <= cfg.limit < size && cfg.limit % len > 0
  }

  /** What the limit leaves, as a batch of the stream. */
  lemma CutLeftovers(cfg: Config, len: nat, rounds: seq<Round>, m: nat)
    requires cfg.Valid() && len > 0 && 0 < m && ListsOf(rounds, m) && Cut(cfg, len, Size(rounds))
    ensures var f, n := cfg.limit / len, cfg.limit % len;
            CutInLeftovers(cfg, len, m) <==> OnlyLeftovers(cfg, len, rounds, f, n)
  {
    var f, n := cfg.limit / len, cfg.limit % len;
    BlockBounds(cfg.limit, len);
    assert f * len + n == cfg.limit;
    OnlyLeftoversOfConstantLists(cfg, len, rounds, m, f, n);
    BlockBounds(cfg.limit - 1, m);
  }

  /** Only the last batch before an exit is partial: what the limit leaves beyond full batches. */
  lemma PartialBatch(u: Setup, len: nat, es: seq<Event>, d: nat)
    requires Counting(u, len, es) && d < |Run(u, es).sender.published|
    ensures var n := |Contents(Run(u, es).sender.published[d].payload)|;
            n < len ==> Cut(u.cfg, len, Size(RoundsOf(es))) && d == u.cfg.limit / len && n == u.cfg.limit % len
    ensures Cut(u.cfg, len, Size(RoundsOf(es))) && d == u.cfg.limit / len ==>
              |Contents(Run(u, es).sender.published[d].payload)| == u.cfg.limit % len
  {
    var rs := Stream(u.cfg, len, u.src, RoundsOf(es));
    StreamSize(u.cfg, len, u.src, RoundsOf(es));
    PublishOfRun(u, len, es, d);
    ChunkLength(Accepted(u, len, es), len, d);
    PublishesMade(u, len, es);
  }

  lemma CutBelow(u: Setup, len: nat, m: nat, es: seq<Event>, d: nat)
    requires Counting(u, len, es) && 0 < m && ListsOf(RoundsOf(es), m)
    requires d < |Run(u, es).sender.published| && NumberOf(u.cfg, d) <= Float32.EXACT
    requires LeftoversOnly(u, len, es, d)
    ensures LimitInLeftovers(u.cfg, len, m)
  {
    OnlyLeftoversIsShort(u.cfg, len, RoundsOf(es), d, |Contents(Run(u, es).sender.published[d].payload)|);
    PartialBatch(u, len, es, d);
    CutLeftovers(u.cfg, len, RoundsOf(es), m);
  }

  lemma EndsBelowByLimit(u: Setup, len: nat, m: nat, es: seq<Event>, t: nat)
    requires Counting(u, len, es) && 0 < m && ListsOf(RoundsOf(es), m) && t < u.cfg.topics
    requires HandledAll(u, es, t) && EndsBelow(u, len, es, t)
    ensures LimitInLeftovers(u.cfg, len, m)
  {
    CounterOfRun(u, len, es, t);
    CutBelow(u, len, m, es, Run(u, es).delivered[t][|Run(u, es).delivered[t]| - 1]);
  }

  /** The batch that such a limit cuts off is one of leftovers only, on the start subtopic. */
  lemma CutBatch(u: Setup, len: nat, m: nat, es: seq<Event>, f: nat)
    requires Counting(u, len, es) && 0 < m && ListsOf(RoundsOf(es), m)
    requires LimitInLeftovers(u.cfg, len, m) && u.cfg.limit < Size(RoundsOf(es))
    requires f == u.cfg.limit / len < |Run(u, es).sender.published|
    ensures SubtopicOf(u.cfg, f) == u.cfg.start && 1 < NumberOf(u.cfg, f) <= Float32.EXACT
    ensures LeftoversOnly(u, len, es, f)
  {
    LeftoversOnStart(u.cfg, f);
    PartialBatch(u, len, es, f);
    CutLeftovers(u.cfg, len, RoundsOf(es), m);
    MultipleAtLeast(f, u.cfg.topics);
  }

  lemma MultipleAtLeast(f: nat, k: nat)
    requires k > 0 && f > 0 && f % k == 0
    ensures f / k >= 1
  {
  }

  /** When such a run has been handled to its end, that batch was the last one. */
  lemma EndIsBelow(u: Setup, len: nat, m: nat, es: seq<Event>, f: nat)
    requires Counting(u, len, es) && 0 < m && ListsOf(RoundsOf(es), m)
    requires LimitInLeftovers(u.cfg, len, m) && u.cfg.limit < Size(RoundsOf(es))
    requires f == u.cfg.limit / len && |Run(u, es).sender.published| == f + 1
    requires Complete(u.cfg, Run(u, es).delivered[u.cfg.start], u.cfg.start, f + 1)
    ensures HandledAll(u, es, u.cfg.start) && EndsBelow(u, len, es, u.cfg.start)
  {
    CutBatch(u, len, m, es, f);
    LastOfComplete(u.cfg, Run(u, es).delivered[u.cfg.start], u.cfg.start, f);
    CounterOfRun(u, len, es, u.cfg.start);
  }

  /** A run in which the process ends one below what the sender prints, with nothing lost. */
  lemma EndsOneBelow(u: Setup, len: nat, m: nat, rounds: seq<Round>) returns (es: seq<Event>)
    requires Counting(u, len, Ticks(rounds)) && 0 < m && ListsOf(rounds, m)
    requires LimitInLeftovers(u.cfg, len, m) && u.cfg.limit < Size(rounds)
    ensures Counting(u, len, es) && RoundsOf(es) == rounds
    ensures Run(u, es).lost == [] && HandledAll(u, es, u.cfg.start)
    ensures Knowledge(u, es, u.cfg.start).reports == []
    ensures Knowledge(u, es, u.cfg.start).last == Some(Run(u, es).sender.counters[u.cfg.start] - 2)
  {
    es := AllArrive(u, len, rounds);
    EndIsBelow(u, len, m, es, u.cfg.limit / len);
    FinalValue(u, len, es, u.cfg.start);
  }

  lemma LastOfComplete(cfg: Config, at: seq<nat>, t: nat, f: nat)
    requires cfg.Valid() && Complete(cfg, at, t, f + 1) && SubtopicOf(cfg, f) == t
    ensures at != [] && at[|at| - 1] == f
  {
    assert f in at;
    LastIsLargest(at);
  }

  /** With lists of m records, FanIn ends on the printed numbers in every run if and only if the
      limit does not leave a last batch of leftovers only. */
  lemma FinalValuesAgreeIff(u: Setup, len: nat, m: nat)
    requires CountingSetup(u, len) && 0 < m <= len
    ensures FinalValuesAgree(u, len, m) <==> !LimitInLeftovers(u.cfg, len, m)
  {
    if LimitInLeftovers(u.cfg, len, m) {
      var rounds := SomeRounds(u.cfg.limit + 1, m);
      SizeOfRounds(rounds, m);
      RunOf(u, len, m, rounds);
      var es := EndsOneBelow(u, len, m, rounds);
    } else {
      forall es, t: nat | Counting(u, len, es) && ListsOf(RoundsOf(es), m) && t < u.cfg.topics
                          && HandledAll(u, es, t)
        ensures Knowledge(u, es, t).last == Some(Run(u, es).sender.counters[t] - 1)
      {
        FinalValue(u, len, es, t);
        if EndsBelow(u, len, es, t) {
          EndsBelowByLimit(u, len, m, es, t);
        }
      }
    }
  }

  lemma OneRecordLeft(limit: nat)
    ensures limit % 47 == 1 && limit / 47 % 2 == 1 <==> limit % 94 == 48
  {
    var a, b := limit / 94, limit % 94;
    if b < 47 {
      QuotientUnique(limit, 2 * a, b, 47);
    } else {
      QuotientUnique(limit, 2 * a + 1, b - 47, 47);
    }
  }

  lemma OneTopicLimit(cfg: Config)
    requires cfg.topics == 1 && cfg.Valid() && 0 < cfg.limit < 47 * Float32.EXACT
    ensures LimitInLeftovers(cfg, 47, 2) <==> cfg.limit % 94 == 48
  {
    var f: nat, n: nat := cfg.limit / 47, cfg.limit % 47;
    OneRecordLeft(cfg.limit);
    BlockOf(f, 0, 1);
    assert f / cfg.topics == f < Float32.EXACT && f % cfg.topics == 0;
    assert n > 0 && f > 0 && (cfg.limit - 1) % 2 >= n <==> n == 1 && f % 2 == 1 by {
      OneRecordParity(f, n, cfg.limit);
    }
  }

  lemma OneRecordParity(f: nat, n: nat, limit: nat)
    requires limit == 47 * f + n && limit > 0
    ensures n > 0 && f > 0 && (limit - 1) % 2 >= n <==> n == 1 && f % 2 == 1
  {
    if n == 1 {
      QuotientUnique(limit - 1, 23 * f + f / 2, f % 2, 2);
    }
  }

  /** As configured, with one topic: the values disagree for the limits that leave a last batch of
      one record, which belongs to the list begun in the batch before; 48 is the first. */
  lemma ShippedFinalValues(u: Setup)
    requires Shipped(u) && u.cfg.topics == 1 && u.cfg.limit < 47 * Float32.EXACT
    ensures FinalValuesAgree(u, 47, 2) <==> !(u.cfg.limit > 0 && u.cfg.limit % 94 == 48)
  {
    ListGrowth.ConfiguredBatchLength(u.cfg);
    FinalValuesAgreeIff(u, 47, 2);
    if u.cfg.limit > 0 {
      OneTopicLimit(u.cfg);
    }
  }
}
