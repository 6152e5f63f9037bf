/** What the reports of the FanIn processes say about the batches that were lost, in every
    reachable state of the whole pipeline. */
module EndToEnd {
  import opened Arithmetic
  import opened Records
  import opened AgentCommon
  import opened Simulator
  import opened Wrappers
  import opened FanIn
  import opened LossDetection
  import opened Pipeline
  import opened Conservation

  function RoundsOf(es: seq<Event>): seq<Round> {
    if es == [] then [] else
      var k := |es| - 1;
      match es[k]
      case Tick(round) => RoundsOf(es[..k]) + [round]
      case _ => RoundsOf(es[..k])
  }

  /** Sender and processes both count, FanIn unpacks batches, and a batch has len records. */
  ghost predicate CountingSetup(u: Setup, len: nat) {
    && u.Valid() && IsBatchLength(u.cfg, len)
    && u.src.counting && u.options.counting && u.options.batching && !u.options.passthrough
  }

  /** A run of such a setup with lists no longer than a batch. */
  ghost predicate Counting(u: Setup, len: nat, es: seq<Event>) {
    CountingSetup(u, len) && ListsUpTo(RoundsOf(es), len)
  }

  lemma {:induction false} SenderOfRounds(u: Setup, es: seq<Event>)
    requires u.Valid()
    ensures Run(u, es).sender == SendRounds(u.cfg, u.src, Started(u.cfg), RoundsOf(es))
  {
    if es != [] {
      var k := |es| - 1;
      SenderOfRounds(u, es[..k]);
      if es[k].Tick? {
        assert (RoundsOf(es[..k]) + [es[k].round])[..|RoundsOf(es[..k])|] == RoundsOf(es[..k]);
      }
    }
  }

  /** The records of a run, as they are before encoding. */
  ghost function Accepted(u: Setup, len: nat, es: seq<Event>): seq<Record>
    requires u.Valid() && len > 0
  {
    Kept(u.cfg, Stream(u.cfg, len, u.src, RoundsOf(es)))
  }

  /** Publish number d of a run. */
  lemma PublishOfRun(u: Setup, len: nat, es: seq<Event>, d: nat)
    requires Counting(u, len, es) && d < |Run(u, es).sender.published|
    ensures d < Publishes(|Accepted(u, len, es)|, len) && d * len <= |Accepted(u, len, es)|
    ensures Run(u, es).sender.published[d] == ChunkPublish(u.cfg, Accepted(u, len, es), len, d)
  {
    SenderOfRounds(u, es);
    StreamSent(u.cfg, len, u.src, RoundsOf(es));
    PublishAt(u.cfg, len, Stream(u.cfg, len, u.src, RoundsOf(es)), Run(u, es).sender, d);
  }

  // ---------- Where every publish is ----------

  /** Each publish is in flight, lost or handled by the process of its own subtopic. */
  ghost predicate Located(s: State) {
    && (forall t, k :: 0 <= t < |s.delivered| && 0 <= k < |s.delivered[t]| ==>
          s.delivered[t][k] < |s.sender.published| && s.sender.published[s.delivered[t][k]].subtopic == t)
    && (forall d :: 0 <= d < |s.sender.published| ==>
          d in s.inFlight || d in s.lost ||
          (s.sender.published[d].subtopic < |s.delivered| && d in s.delivered[s.sender.published[d].subtopic]))
  }

  lemma TickLocated(u: Setup, s: State, round: Round)
    requires Shaped(u, s) && Located(s)
    ensures Located(Ticked(u, s, round))
  {
    var s' := Ticked(u, s, round);
    ApplyShaped(u, s, Tick(round));
    var n := |s.sender.published|;
    forall d | 0 <= d < |s'.sender.published|
      ensures d in s'.inFlight || d in s'.lost ||
              (s'.sender.published[d].subtopic < |s'.delivered| && d in s'.delivered[s'.sender.published[d].subtopic])
    {
      if d >= n {
        assert s'.inFlight[|s.inFlight| + (d - n)] == d;
      } else if d in s.inFlight {
        var k :| 0 <= k < |s.inFlight| && s.inFlight[k] == d;
        assert s'.inFlight[k] == d;
      }
    }
  }

  lemma StillThere(at: seq<nat>, i: nat, d: nat)
    requires i < |at| && d in at && d != at[i]
    ensures d in Without(at, i)
  {
    var k :| 0 <= k < |at| && at[k] == d;
    assert Without(at, i)[if k < i then k else k - 1] == d;
  }

  lemma HandedOverLocated(u: Setup, s: State, i: nat, refused: set<nat>)
    requires Shaped(u, s) && Located(s) && i < |s.inFlight|
    ensures Located(HandedOver(u, s, i, refused))
  {
    var s' := HandedOver(u, s, i, refused);
    forall d | 0 <= d < |s'.sender.published|
      ensures d in s'.inFlight || d in s'.lost || d in s'.delivered[s'.sender.published[d].subtopic]
    {
      if d in s.inFlight && d != s.inFlight[i] {
        StillThere(s.inFlight, i, d);
      }
    }
  }

  lemma LoseLocated(u: Setup, s: State, i: nat)
    requires Shaped(u, s) && Located(s)
    ensures Located(Apply(u, s, Lose(i)))
  {
    var s' := Apply(u, s, Lose(i));
    forall d | 0 <= d < |s'.sender.published|
      ensures d in s'.inFlight || d in s'.lost || d in s'.delivered[s'.sender.published[d].subtopic]
    {
      if i < |s.inFlight| && d in s.inFlight && d != s.inFlight[i] {
        StillThere(s.inFlight, i, d);
      }
    }
  }

  lemma ApplyLocated(u: Setup, s: State, e: Event)
    requires Shaped(u, s) && Located(s)
    ensures Located(Apply(u, s, e))
  {
    match e
    case Tick(round) => TickLocated(u, s, round);
    case Deliver(i, refused) =>
      if i < |s.inFlight| && Oldest(s, i) {
        HandedOverLocated(u, s, i, refused);
      }
    case Lose(i) => LoseLocated(u, s, i);
  }

  lemma {:induction false} RunLocated(u: Setup, es: seq<Event>)
    requires u.Valid()
    ensures Located(Run(u, es))
  {
    if es != [] {
      RunLocated(u, es[..|es| - 1]);
      ApplyLocated(u, Run(u, es[..|es| - 1]), es[|es| - 1]);
    }
  }

  // ---------- What each process has seen ----------

  /** The stamps of agent u in the publishes at these positions. */
  function ValuesAt(ps: seq<Publish>, at: seq<nat>, u: Uuid): seq<int> {
    if at == [] then [] else
      var k := |at| - 1;
      ValuesAt(ps, at[..k], u) + (if at[k] < |ps| then ValuesFrom(Contents(ps[at[k]].payload), u) else [])
  }

  lemma {:induction false} ValuesStable(ps: seq<Publish>, ps': seq<Publish>, at: seq<nat>, u: Uuid)
    requires ps <= ps' && Below(at, |ps|)
    ensures ValuesAt(ps', at, u) == ValuesAt(ps, at, u)
  {
    if at != [] {
      ValuesStable(ps, ps', at[..|at| - 1], u);
      assert at[|at| - 1] < |ps|;
    }
  }

  ghost predicate SeenBy(ps: seq<Publish>, g: Gateway, delivered: seq<nat>, u: Uuid) {
    Below(delivered, |ps|) && ViewOf(g.counts, u) == Track(UNKNOWN, ValuesAt(ps, delivered, u))
  }

  ghost predicate Seen(s: State, u: Uuid) {
    && |s.gateways| == |s.delivered|
    && forall t :: 0 <= t < |s.delivered| ==> SeenBy(s.sender.published, s.gateways[t], s.delivered[t], u)
  }

  lemma HandleSeen(o: Options, ps: seq<Publish>, g: Gateway, delivered: seq<nat>, d: nat, refused: set<nat>, u: Uuid)
    requires o.counting && o.batching && !o.passthrough
    requires d < |ps| && ps[d].payload.TripletBatch? && SeenBy(ps, g, delivered, u)
    ensures SeenBy(ps, Handle(o, g, ps[d].payload, refused), delivered + [d], u)
  {
    UnpackView(o, g, Contents(ps[d].payload), refused, u);
    TrackConcat(UNKNOWN, ValuesAt(ps, delivered, u), ValuesFrom(Contents(ps[d].payload), u));
    assert (delivered + [d])[..|delivered|] == delivered;
  }

  lemma ApplySeen(u: Setup, s: State, e: Event, agent: Uuid)
    requires Shaped(u, s) && Seen(s, agent)
    requires u.options.counting && u.options.batching && !u.options.passthrough
    requires forall d :: 0 <= d < |s.sender.published| ==> s.sender.published[d].payload.TripletBatch?
    ensures Seen(Apply(u, s, e), agent)
  {
    match e
    case Tick(round) =>
      ApplyShaped(u, s, e);
      forall t | 0 <= t < |s.delivered|
        ensures SeenBy(Apply(u, s, e).sender.published, s.gateways[t], s.delivered[t], agent)
      {
        assert SeenBy(s.sender.published, s.gateways[t], s.delivered[t], agent);
        ValuesStable(s.sender.published, Apply(u, s, e).sender.published, s.delivered[t], agent);
      }
    case Deliver(i, refused) =>
      if i < |s.inFlight| && Oldest(s, i) {
        var d := s.inFlight[i];
        var t := s.sender.published[d].subtopic;
        assert SeenBy(s.sender.published, s.gateways[t], s.delivered[t], agent);
        HandleSeen(u.options, s.sender.published, s.gateways[t], s.delivered[t], d, refused, agent);
      }
    case Lose(i) =>
  }

  lemma RoundsPrefix(es: seq<Event>, bound: nat)
    requires es != [] && ListsUpTo(RoundsOf(es), bound)
    ensures ListsUpTo(RoundsOf(es[..|es| - 1]), bound)
  {
    var before := RoundsOf(es[..|es| - 1]);
    forall i | 0 <= i < |before|
      ensures |before[i].readings| <= bound
    {
      assert RoundsOf(es)[i] == before[i];
    }
  }

  lemma {:induction false} RunSeen(u: Setup, len: nat, es: seq<Event>)
    requires Counting(u, len, es)
    ensures Seen(Run(u, es), u.src.agent)
  {
    if es == [] {
      assert SeenBy([], FRESH_GATEWAY, [], u.src.agent);
    } else {
      var es', e := es[..|es| - 1], es[|es| - 1];
      RoundsPrefix(es, len);
      RunSeen(u, len, es');
      forall d | 0 <= d < |Run(u, es').sender.published|
        ensures Run(u, es').sender.published[d].payload.TripletBatch?
      {
        PublishOfRun(u, len, es', d);
      }
      ApplySeen(u, Run(u, es'), e, u.src.agent);
    }
  }

  // ---------- From positions to batch numbers ----------

  /** The batches that a process has handled, as numbers and stamps before encoding. */
  function ReceivedAt(cfg: Config, len: nat, rs: seq<Record>, delivered: seq<nat>): (bs: seq<Received>)
    requires cfg.Valid()
    ensures |bs| == |delivered|
  {
    seq(|delivered|, i requires 0 <= i < |delivered| =>
      Received(NumberOf(cfg, delivered[i]),
               if delivered[i] * len <= |rs| then Values(Chunk(rs, len, delivered[i])) else []))
  }

  /** Positions of one subtopic lie a multiple of the number of subtopics apart. */
  lemma SameSubtopic(cfg: Config, d: nat, d': nat)
    requires cfg.Valid() && d < d' && SubtopicOf(cfg, d) == SubtopicOf(cfg, d')
    ensures NumberOf(cfg, d) < NumberOf(cfg, d')
    ensures d + cfg.topics <= d'
    ensures d' < d + 2 * cfg.topics ==> d' == d + cfg.topics
  {
    var k, t := cfg.topics, SubtopicOf(cfg, d);
    ResidueOffset(cfg.start, d, t, k);
    ResidueOffset(cfg.start, d', t, k);
    SameRemainder(d, d', k);
  }

  /** One subtopic's next position is `topics` further on. */
  lemma NextOnSubtopic(cfg: Config, d: nat)
    requires cfg.Valid()
    ensures SubtopicOf(cfg, d + cfg.topics) == SubtopicOf(cfg, d)
    ensures NumberOf(cfg, d + cfg.topics) == NumberOf(cfg, d) + 1
  {
    var k := cfg.topics;
    QuotientUnique(d + k, d / k + 1, d % k, k);
    QuotientUnique(cfg.start + d + k, (cfg.start + d) / k + 1, (cfg.start + d) % k, k);
  }

  /** Everything a run guarantees about the positions handled for subtopic t. */
  ghost predicate Handled(cfg: Config, ps: seq<Publish>, delivered: seq<nat>, t: nat)
    requires cfg.Valid()
  {
    && Increasing(delivered) && Below(delivered, |ps|)
    && forall k :: 0 <= k < |delivered| ==> SubtopicOf(cfg, delivered[k]) == t
  }

  lemma HandledInRun(u: Setup, len: nat, es: seq<Event>, t: nat)
    requires Counting(u, len, es) && t < u.cfg.topics
    ensures Handled(u.cfg, Run(u, es).sender.published, Run(u, es).delivered[t], t)
  {
    RunOrdered(u, es);
    RunLocated(u, es);
    var s := Run(u, es);
    forall k | 0 <= k < |s.delivered[t]|
      ensures s.delivered[t][k] < |s.sender.published| && SubtopicOf(u.cfg, s.delivered[t][k]) == t
    {
      PublishOfRun(u, len, es, s.delivered[t][k]);
    }
  }

  lemma FullBatch(u: Setup, len: nat, es: seq<Event>, d: nat)
    requires Counting(u, len, es) && d < |Run(u, es).sender.published|
    ensures d * len <= |Accepted(u, len, es)|
    ensures d < |Run(u, es).sender.published| - 1 ==> |Chunk(Accepted(u, len, es), len, d)| == len
  {
    PublishOfRun(u, len, es, d);
    if d < |Run(u, es).sender.published| - 1 {
      PublishOfRun(u, len, es, d + 1);
      ChunkLength(Accepted(u, len, es), len, d);
    }
  }

  /** Stamps of publish d of a run; every batch but the very last publish is full. */
  lemma BatchOfRun(u: Setup, len: nat, es: seq<Event>, d: nat)
    requires Counting(u, len, es) && d < |Run(u, es).sender.published|
    ensures var rs, n := Accepted(u, len, es), NumberOf(u.cfg, d);
            && d * len <= |rs|
            && Carries(Values(Chunk(rs, len, d)), n)
            && (d < |Run(u, es).sender.published| - 1 ==> Last(Values(Chunk(rs, len, d))) == n)
            && (Values(Chunk(rs, len, d))[0] == n - 1 <==> OpensWithLeftovers(u.cfg, len, RoundsOf(es), d))
            && (Last(Values(Chunk(rs, len, d))) == n - 1 <==>
                  OnlyLeftovers(u.cfg, len, RoundsOf(es), d, |Chunk(rs, len, d)|))
            && AllFrom(Chunk(rs, len, d), u.src.agent)
  {
    PublishOfRun(u, len, es, d);
    StampsOfBatch(u.cfg, len, u.src, RoundsOf(es), Accepted(u, len, es), d);
    FullBatch(u, len, es, d);
  }

  lemma ReceivedInOrder(u: Setup, len: nat, es: seq<Event>, t: nat)
    requires Counting(u, len, es) && t < u.cfg.topics
    ensures InOrder(ReceivedAt(u.cfg, len, Accepted(u, len, es), Run(u, es).delivered[t]))
  {
    var s, rs := Run(u, es), Accepted(u, len, es);
    var at := s.delivered[t];
    var bs := ReceivedAt(u.cfg, len, rs, at);
    HandledInRun(u, len, es, t);
    forall i | 0 <= i < |bs|
      ensures Carries(bs[i].stamps, bs[i].number)
      ensures i < |bs| - 1 ==> Last(bs[i].stamps) == bs[i].number
    {
      BatchOfRun(u, len, es, at[i]);
      assert i < |bs| - 1 ==> at[i] < at[|at| - 1];
    }
    forall i, j | 0 <= i < j < |bs|
      ensures bs[i].number < bs[j].number
    {
      SameSubtopic(u.cfg, at[i], at[j]);
    }
  }

  lemma {:induction false} ValuesOnWire(rs: seq<Record>, uuid: Uuid)
    requires AllFrom(rs, uuid)
    ensures ValuesFrom(AllOnWire(rs), uuid) == RoundAll(Values(rs))
  {
    if rs != [] {
      var k := |rs| - 1;
      ValuesOnWire(rs[..k], uuid);
      assert AllOnWire(rs)[..k] == AllOnWire(rs[..k]);
    }
  }

  lemma RoundConcat(a: seq<int>, b: seq<int>)
    ensures RoundAll(a + b) == RoundAll(a) + RoundAll(b)
  {
  }

  lemma SeenOnce(u: Setup, len: nat, es: seq<Event>, d: nat)
    requires Counting(u, len, es) && d < |Run(u, es).sender.published|
    ensures d * len <= |Accepted(u, len, es)|
    ensures ValuesFrom(Contents(Run(u, es).sender.published[d].payload), u.src.agent)
         == RoundAll(Values(Chunk(Accepted(u, len, es), len, d)))
  {
    PublishOfRun(u, len, es, d);
    BatchOfRun(u, len, es, d);
    ValuesOnWire(Chunk(Accepted(u, len, es), len, d), u.src.agent);
  }

  lemma StampsSnoc(cfg: Config, len: nat, rs: seq<Record>, at: seq<nat>, d: nat)
    requires cfg.Valid() && d * len <= |rs|
    ensures AllStamps(ReceivedAt(cfg, len, rs, at + [d]))
         == AllStamps(ReceivedAt(cfg, len, rs, at)) + Values(Chunk(rs, len, d))
  {
    var bs := ReceivedAt(cfg, len, rs, at + [d]);
    assert bs[..|at|] == ReceivedAt(cfg, len, rs, at);
  }

  lemma ValuesSnoc(ps: seq<Publish>, at: seq<nat>, d: nat, u: Uuid)
    requires d < |ps|
    ensures ValuesAt(ps, at + [d], u) == ValuesAt(ps, at, u) + ValuesFrom(Contents(ps[d].payload), u)
  {
    assert (at + [d])[..|at|] == at;
  }

  lemma SeenSnoc(u: Setup, len: nat, es: seq<Event>, at: seq<nat>, d: nat)
    requires Counting(u, len, es) && d < |Run(u, es).sender.published|
    requires ValuesAt(Run(u, es).sender.published, at, u.src.agent)
          == RoundAll(AllStamps(ReceivedAt(u.cfg, len, Accepted(u, len, es), at)))
    ensures ValuesAt(Run(u, es).sender.published, at + [d], u.src.agent)
         == RoundAll(AllStamps(ReceivedAt(u.cfg, len, Accepted(u, len, es), at + [d])))
  {
    var rs := Accepted(u, len, es);
    ValuesSnoc(Run(u, es).sender.published, at, d, u.src.agent);
    SeenOnce(u, len, es, d);
    StampsSnoc(u.cfg, len, rs, at, d);
    RoundConcat(AllStamps(ReceivedAt(u.cfg, len, rs, at)), Values(Chunk(rs, len, d)));
  }

  /** The stamps a process has seen are those of its batches, rounded to binary32. */
  lemma {:induction false} SeenStamps(u: Setup, len: nat, es: seq<Event>, at: seq<nat>)
    requires Counting(u, len, es) && Below(at, |Run(u, es).sender.published|)
    ensures ValuesAt(Run(u, es).sender.published, at, u.src.agent)
         == RoundAll(AllStamps(ReceivedAt(u.cfg, len, Accepted(u, len, es), at)))
  {
    if at != [] {
      var before, d := at[..|at| - 1], at[|at| - 1];
      assert before + [d] == at;
      SeenStamps(u, len, es, before);
      SeenSnoc(u, len, es, before, d);
    }
  }

  /** What process t knows and has reported about the agent. */
  ghost function Knowledge(u: Setup, es: seq<Event>, t: nat): Tracked
    requires u.Valid() && t < u.cfg.topics
  {
    ViewOf(Run(u, es).gateways[t].counts, u.src.agent)
  }

  ghost function Batches(u: Setup, len: nat, es: seq<Event>, t: nat): seq<Received>
    requires u.Valid() && t < u.cfg.topics && len > 0
  {
    ReceivedAt(u.cfg, len, Accepted(u, len, es), Run(u, es).delivered[t])
  }

  lemma KnowledgeOfRun(u: Setup, len: nat, es: seq<Event>, t: nat)
    requires Counting(u, len, es) && t < u.cfg.topics
    ensures Knowledge(u, es, t) == Track(UNKNOWN, RoundAll(AllStamps(Batches(u, len, es, t))))
    ensures InOrder(Batches(u, len, es, t))
  {
    RunSeen(u, len, es);
    var s := Run(u, es);
    assert SeenBy(s.sender.published, s.gateways[t], s.delivered[t], u.src.agent);
    SeenStamps(u, len, es, s.delivered[t]);
    ReceivedInOrder(u, len, es, t);
  }

  lemma {:induction false} ExactStamps(bs: seq<Received>)
    requires InOrder(bs) && (bs != [] ==> bs[|bs| - 1].number <= Float32.EXACT)
    ensures RoundAll(AllStamps(bs)) == AllStamps(bs)
  {
    if bs != [] {
      var k := |bs| - 1;
      InOrderPrefix(bs);
      assert k > 0 ==> bs[k - 1].number < bs[k].number;
      ExactStamps(bs[..k]);
      RoundConcat(AllStamps(bs[..k]), bs[k].stamps);
      forall i | 0 <= i < |bs[k].stamps|
        ensures Float32.Round(bs[k].stamps[i]) == bs[k].stamps[i]
      {
        assert Carries(bs[k].stamps, bs[k].number);
        Float32.ExactBelow(bs[k].stamps[i]);
      }
      assert RoundAll(bs[k].stamps) == bs[k].stamps;
    }
  }

  ghost predicate NumbersFitFloat(bs: seq<Received>) {
    forall i :: 0 <= i < |bs| ==> bs[i].number <= Float32.EXACT
  }

  lemma OpeningStamp(u: Setup, len: nat, es: seq<Event>, t: nat, i: nat)
    requires Counting(u, len, es) && t < u.cfg.topics && i < |Run(u, es).delivered[t]|
    ensures var b := Batches(u, len, es, t)[i];
            && b.stamps != []
            && (b.stamps[0] == b.number <==>
                  !OpensWithLeftovers(u.cfg, len, RoundsOf(es), Run(u, es).delivered[t][i]))
  {
    HandledInRun(u, len, es, t);
    BatchOfRun(u, len, es, Run(u, es).delivered[t][i]);
  }

  /** Main result on losses. In every reachable state, while batch numbers fit a float exactly,
      process t has reported precisely `Reports` of the batches it received: an ATTENTION at a batch
      if and only if two or more batches before it are missing, or one is and the batch does not open
      with leftovers of a list that was begun before the cursor wrapped. */
  lemma ReportsAreExact(u: Setup, len: nat, es: seq<Event>, t: nat)
    requires Counting(u, len, es) && t < u.cfg.topics
    requires NumbersFitFloat(Batches(u, len, es, t))
    ensures var bs := Batches(u, len, es, t);
            && InOrder(bs)
            && Knowledge(u, es, t).reports == Reports(bs)
            && (bs != [] ==> Knowledge(u, es, t).last == Some(Last(bs[|bs| - 1].stamps)))
            && forall i :: 0 <= i < |bs| ==>
                 (Reported(bs, i) <==>
                    Lost(bs, i) >= 2 ||
                    (Lost(bs, i) == 1 && !OpensWithLeftovers(u.cfg, len, RoundsOf(es), Run(u, es).delivered[t][i])))
  {
    var bs, at := Batches(u, len, es, t), Run(u, es).delivered[t];
    KnowledgeOfRun(u, len, es, t);
    ExactStamps(bs);
    if bs != [] {
      Detection(bs);
    }
    forall i | 0 <= i < |bs|
      ensures bs[i].stamps != []
      ensures bs[i].stamps[0] == bs[i].number <==> !OpensWithLeftovers(u.cfg, len, RoundsOf(es), at[i])
    {
      OpeningStamp(u, len, es, t, i);
    }
  }

  // ---------- Missing numbers are lost publishes ----------

  lemma IncreasingOrder(at: seq<nat>, i: nat, j: nat)
    requires Increasing(at) && i < |at| && j < |at|
    ensures i <= j <==> at[i] <= at[j]
  {
  }

  /** The position handled before number i, if there is one. */
  function Before(at: seq<nat>, i: nat): int
    requires i < |at|
  {
    if i == 0 then -1 else at[i - 1]
  }

  lemma SkippedIsNotHandled(at: seq<nat>, i: nat, d: nat)
    requires Increasing(at) && i < |at| && Before(at, i) < d < at[i]
    ensures d !in at && d < Frontier(at)
  {
    LastIsLargest(at);
    forall j | 0 <= j < |at|
      ensures at[j] != d
    {
      IncreasingOrder(at, i, j);
      if i > 0 {
        IncreasingOrder(at, j, i - 1);
      }
    }
  }

  /** What a process has passed over without handling it was lost. */
  lemma SkippedIsLost(u: Setup, len: nat, es: seq<Event>, t: nat, i: nat, d: nat)
    requires Counting(u, len, es) && t < u.cfg.topics && i < |Run(u, es).delivered[t]|
    requires SubtopicOf(u.cfg, d) == t && Before(Run(u, es).delivered[t], i) < d < Run(u, es).delivered[t][i]
    ensures d < |Run(u, es).sender.published| && Run(u, es).sender.published[d].subtopic == t
    ensures d in Run(u, es).lost
  {
    var s := Run(u, es);
    HandledInRun(u, len, es, t);
    PublishOfRun(u, len, es, d);
    SkippedIsNotHandled(s.delivered[t], i, d);
    RunLocated(u, es);
    RunOrdered(u, es);
  }

  /** The position of batch number n on subtopic t. */
  function PositionOf(cfg: Config, t: nat, n: nat): nat
    requires cfg.Valid() && n >= 1
  {
    (n - 1) * cfg.topics + (t - cfg.start) % cfg.topics
  }

  lemma BlockHasNumber(cfg: Config, t: nat, q: nat, r: nat)
    requires cfg.Valid() && t < cfg.topics && r == (t - cfg.start) % cfg.topics
    ensures NumberOf(cfg, q * cfg.topics + r) == q + 1 && SubtopicOf(cfg, q * cfg.topics + r) == t
  {
    ResidueRange(t - cfg.start, cfg.topics);
    BlockOf(q, r, cfg.topics);
    ResidueOffset(cfg.start, q * cfg.topics + r, t, cfg.topics);
  }

  lemma PositionHasNumber(cfg: Config, t: nat, n: nat)
    requires cfg.Valid() && t < cfg.topics && n >= 1
    ensures NumberOf(cfg, PositionOf(cfg, t, n)) == n && SubtopicOf(cfg, PositionOf(cfg, t, n)) == t
  {
    ResidueRange(t - cfg.start, cfg.topics);
    BlockHasNumber(cfg, t, n - 1, (t - cfg.start) % cfg.topics);
  }

  /** On one subtopic, numbers and positions come in the same order. */
  lemma NumbersInOrder(cfg: Config, d: nat, d': nat)
    requires cfg.Valid() && SubtopicOf(cfg, d) == SubtopicOf(cfg, d')
    ensures NumberOf(cfg, d) < NumberOf(cfg, d') <==> d < d'
  {
    if d < d' {
      SameSubtopic(cfg, d, d');
    } else if d' < d {
      SameSubtopic(cfg, d', d);
    }
  }

  /** Publish d of subtopic t has a number between the two and was passed over and lost. */
  ghost predicate LostBetween(u: Setup, es: seq<Event>, t: nat, i: nat, d: nat)
    requires u.Valid() && t < u.cfg.topics && i < |Run(u, es).delivered[t]|
  {
    var at := Run(u, es).delivered[t];
    Before(at, i) < d < at[i] && SubtopicOf(u.cfg, d) == t && d in Run(u, es).lost
  }

  /** The number of the batch before batch i, if there is one. */
  function PreviousNumber(bs: seq<Received>, i: nat): nat
    requires i < |bs|
  {
    if i == 0 then 0 else bs[i - 1].number
  }

  lemma NumbersBetween(cfg: Config, at: seq<nat>, t: nat, i: nat, d: nat)
    requires cfg.Valid() && i < |at| && Increasing(at) && SubtopicOf(cfg, d) == t
    requires forall k :: 0 <= k < |at| ==> SubtopicOf(cfg, at[k]) == t
    ensures Before(at, i) < d < at[i] <==>
              (if i == 0 then 0 else NumberOf(cfg, at[i - 1])) < NumberOf(cfg, d) < NumberOf(cfg, at[i])
  {
    NumbersInOrder(cfg, d, at[i]);
    if i > 0 {
      NumbersInOrder(cfg, at[i - 1], d);
    }
  }

  lemma ReceivedNumber(cfg: Config, len: nat, rs: seq<Record>, at: seq<nat>, i: nat)
    requires cfg.Valid() && i < |at|
    ensures ReceivedAt(cfg, len, rs, at)[i].number == NumberOf(cfg, at[i])
    ensures PreviousNumber(ReceivedAt(cfg, len, rs, at), i) == if i == 0 then 0 else NumberOf(cfg, at[i - 1])
  {
  }

  lemma BetweenIsLost(u: Setup, len: nat, es: seq<Event>, t: nat, i: nat, d: nat)
    requires Counting(u, len, es) && t < u.cfg.topics && i < |Run(u, es).delivered[t]| && SubtopicOf(u.cfg, d) == t
    ensures var bs := Batches(u, len, es, t);
            PreviousNumber(bs, i) < NumberOf(u.cfg, d) < bs[i].number <==> LostBetween(u, es, t, i, d)
  {
    var at := Run(u, es).delivered[t];
    HandledInRun(u, len, es, t);
    NumbersBetween(u.cfg, at, t, i, d);
    ReceivedNumber(u.cfg, len, Accepted(u, len, es), at, i);
    if Before(at, i) < d < at[i] {
      SkippedIsLost(u, len, es, t, i, d);
    }
  }

  /** The numbers missing before batch i, of which there are `Lost(bs, i)`, are exactly those of the
      publishes on t between it and the batch handled before it, and all of these were lost on the
      way. */
  lemma MissingAreLost(u: Setup, len: nat, es: seq<Event>, t: nat, i: nat)
    requires Counting(u, len, es) && t < u.cfg.topics && i < |Run(u, es).delivered[t]|
    ensures var bs := Batches(u, len, es, t);
            && Lost(bs, i) == bs[i].number - PreviousNumber(bs, i) - 1
            && (forall n: nat :: PreviousNumber(bs, i) < n < bs[i].number ==>
                  var d := PositionOf(u.cfg, t, n);
                  NumberOf(u.cfg, d) == n && LostBetween(u, es, t, i, d))
            && (forall d: nat :: LostBetween(u, es, t, i, d) ==>
                  PreviousNumber(bs, i) < NumberOf(u.cfg, d) < bs[i].number)
  {
    var bs := Batches(u, len, es, t);
    forall n: nat | PreviousNumber(bs, i) < n < bs[i].number
      ensures var d := PositionOf(u.cfg, t, n); NumberOf(u.cfg, d) == n && LostBetween(u, es, t, i, d)
    {
      PositionHasNumber(u.cfg, t, n);
      BetweenIsLost(u, len, es, t, i, PositionOf(u.cfg, t, n));
    }
    forall d: nat | LostBetween(u, es, t, i, d)
      ensures PreviousNumber(bs, i) < NumberOf(u.cfg, d) < bs[i].number
    {
      BetweenIsLost(u, len, es, t, i, d);
    }
  }

  /** Losses are reported one by one and exactly where no batch can open with leftovers: on every
      subtopic but the start one, and everywhere when all lists have a length m that divides
      topics * len (a length of `len` or less: see `Counting`), or when the message limit ends the
      run before the cursor has wrapped. */
  ghost predicate Unblurred(u: Setup, len: nat, es: seq<Event>, t: nat)
    requires u.Valid()
  {
    || t != u.cfg.start
    || 0 <= u.cfg.limit <= u.cfg.topics * len
    || exists m: nat :: 0 < m && ListsOf(RoundsOf(es), m) && u.cfg.topics * len % m == 0
  }

  /** A run that is limited to one turn of the cursor makes no publish after it. */
  lemma OneTurn(u: Setup, len: nat, es: seq<Event>, d: nat)
    requires Counting(u, len, es) && d < |Run(u, es).sender.published|
    requires 0 <= u.cfg.limit <= u.cfg.topics * len
    ensures d % u.cfg.topics == 0 ==> d == 0
  {
    PublishOfRun(u, len, es, d);
    ChunkLength(Accepted(u, len, es), len, d);
    if d >= u.cfg.topics {
      EarlierBlock(u.cfg.topics, d, len);
    }
    QuotientUnique(d, 0, d, u.cfg.topics);
  }

  lemma NoLeftovers(u: Setup, len: nat, es: seq<Event>, d: nat)
    requires Counting(u, len, es) && d < |Run(u, es).sender.published|
    requires Unblurred(u, len, es, SubtopicOf(u.cfg, d))
    ensures !OpensWithLeftovers(u.cfg, len, RoundsOf(es), d)
  {
    if OpensWithLeftovers(u.cfg, len, RoundsOf(es), d) {
      LeftoversOnStart(u.cfg, d);
      if 0 <= u.cfg.limit <= u.cfg.topics * len {
        OneTurn(u, len, es, d);
      } else {
        var m: nat :| 0 < m && ListsOf(RoundsOf(es), m) && u.cfg.topics * len % m == 0;
        AlignedLists(u.cfg, len, RoundsOf(es), m, d);
      }
    }
  }

  lemma UnblurredIsAligned(u: Setup, len: nat, es: seq<Event>, t: nat)
    requires Counting(u, len, es) && t < u.cfg.topics && Unblurred(u, len, es, t)
    ensures Aligned(Batches(u, len, es, t))
  {
    var bs, at := Batches(u, len, es, t), Run(u, es).delivered[t];
    HandledInRun(u, len, es, t);
    forall i | 0 <= i < |bs|
      ensures bs[i].stamps != [] && bs[i].stamps[0] == bs[i].number
    {
      assert at[i] < |Run(u, es).sender.published| && SubtopicOf(u.cfg, at[i]) == t;
      BatchOfRun(u, len, es, at[i]);
      NoLeftovers(u, len, es, at[i]);
    }
  }

  lemma AlignedStamp(b: Received)
    requires Carries(b.stamps, b.number) && b.stamps[0] == b.number
    ensures Last(b.stamps) == b.number
  {
    assert b.stamps[0] <= b.stamps[|b.stamps| - 1];
  }

  lemma AlignedAccounting(bs: seq<Received>, known: Tracked)
    requires InOrder(bs) && Aligned(bs) && bs != [] && known.reports == Reports(bs)
    requires known.last == Some(Last(bs[|bs| - 1].stamps))
    ensures SumInts(known.reports) - MidStream(bs) == bs[|bs| - 1].number - |bs|
    ensures known.last == Some(bs[|bs| - 1].number)
  {
    AlignedNeverBlurs(bs);
    LossAccounting(bs);
    AlignedStamp(bs[|bs| - 1]);
  }

  /** Exact loss accounting: an ATTENTION at a batch if and only if one before it is missing, and
      first-contact reports plus mid-stream reports each less one add up to the batches missing. */
  lemma ExactAccounting(u: Setup, len: nat, es: seq<Event>, t: nat)
    requires Counting(u, len, es) && t < u.cfg.topics && Unblurred(u, len, es, t)
    requires NumbersFitFloat(Batches(u, len, es, t))
    ensures var bs := Batches(u, len, es, t);
            && InOrder(bs)
            && Knowledge(u, es, t).reports == Reports(bs)
            && (forall i :: 0 <= i < |bs| ==> bs[i].stamps != [] && (Reported(bs, i) <==> Lost(bs, i) >= 1))
            && (bs != [] ==>
                  && SumInts(Knowledge(u, es, t).reports) - MidStream(bs) == bs[|bs| - 1].number - |bs|
                  && Knowledge(u, es, t).last == Some(bs[|bs| - 1].number))
  {
    var bs := Batches(u, len, es, t);
    ReportsAreExact(u, len, es, t);
    UnblurredIsAligned(u, len, es, t);
    AlignedNeverBlurs(bs);
    if bs != [] {
      AlignedAccounting(bs, Knowledge(u, es, t));
    }
  }

  // ---------- Nothing lost ----------

  ghost predicate NothingLostOn(s: State, t: nat) {
    forall k :: 0 <= k < |s.lost| && s.lost[k] < |s.sender.published| ==>
      s.sender.published[s.lost[k]].subtopic != t
  }

  /** All of subtopic t up to position n has been handled. */
  ghost predicate Complete(cfg: Config, at: seq<nat>, t: nat, n: nat)
    requires cfg.Valid()
  {
    && Increasing(at) && Below(at, n)
    && (forall k :: 0 <= k < |at| ==> SubtopicOf(cfg, at[k]) == t)
    && (forall d :: 0 <= d < n && SubtopicOf(cfg, d) == t ==> d in at)
  }

  lemma CompleteToFrontier(u: Setup, len: nat, es: seq<Event>, t: nat)
    requires Counting(u, len, es) && t < u.cfg.topics && NothingLostOn(Run(u, es), t)
    ensures var at := Run(u, es).delivered[t]; Complete(u.cfg, at, t, Frontier(at))
  {
    var s := Run(u, es);
    var at := s.delivered[t];
    HandledInRun(u, len, es, t);
    RunLocated(u, es);
    RunOrdered(u, es);
    LastIsLargest(at);
    forall d | 0 <= d < Frontier(at) && SubtopicOf(u.cfg, d) == t
      ensures d in at
    {
      PublishOfRun(u, len, es, d);
      assert s.sender.published[d].subtopic == t;
    }
  }

  /** A position that is not the subtopic's first follows the one `topics` below it. */
  lemma Predecessor(cfg: Config, at: seq<nat>, t: nat, n: nat, i: nat)
    requires cfg.Valid() && Complete(cfg, at, t, n) && i < |at|
    ensures at[i] >= cfg.topics ==> i > 0 && at[i - 1] == at[i] - cfg.topics
    ensures i > 0 ==> at[i] >= cfg.topics
  {
    var d := at[i];
    if i > 0 {
      SameSubtopic(cfg, at[i - 1], d);
    }
    if d >= cfg.topics {
      NextOnSubtopic(cfg, d - cfg.topics);
      assert d - cfg.topics in at;
      var j :| 0 <= j < |at| && at[j] == d - cfg.topics;
      IncreasingOrder(at, i, j);
      assert j < i;
      IncreasingOrder(at, j, i - 1);
    }
  }

  lemma {:induction false} NumbersInRow(cfg: Config, at: seq<nat>, t: nat, n: nat, i: nat)
    requires cfg.Valid() && Complete(cfg, at, t, n) && i < |at|
    ensures NumberOf(cfg, at[i]) == i + 1
  {
    Predecessor(cfg, at, t, n, i);
    if i > 0 {
      NumbersInRow(cfg, at, t, n, i - 1);
      NextOnSubtopic(cfg, at[i - 1]);
    } else {
      FirstNumber(cfg, at[0]);
    }
  }

  lemma FirstNumber(cfg: Config, d: nat)
    requires cfg.Valid() && d < cfg.topics
    ensures NumberOf(cfg, d) == 1
  {
  }

  lemma GaplessRun(cfg: Config, len: nat, rs: seq<Record>, at: seq<nat>, t: nat, n: nat)
    requires cfg.Valid() && Complete(cfg, at, t, n)
    ensures Gapless(ReceivedAt(cfg, len, rs, at))
  {
    forall i | 0 <= i < |at|
      ensures ReceivedAt(cfg, len, rs, at)[i].number == i + 1
    {
      NumbersInRow(cfg, at, t, n, i);
    }
  }

  /** Main result on false alarms. In every reachable state in which nothing was lost on subtopic t,
      its process has raised no ATTENTION if and only if no stamp it was sent exceeds 2^24 + 1; from
      then on the float stamps raise false alarms. No condition on the list lengths but len. */
  lemma SilentWithoutLoss(u: Setup, len: nat, es: seq<Event>, t: nat)
    requires Counting(u, len, es) && t < u.cfg.topics && NothingLostOn(Run(u, es), t)
    ensures var bs := Batches(u, len, es, t);
            && (bs != [] ==> bs[|bs| - 1].stamps != [])
            && (Knowledge(u, es, t).reports == [] <==>
                  (bs != [] ==> Last(bs[|bs| - 1].stamps) <= Float32.EXACT + 1))
  {
    var bs, at := Batches(u, len, es, t), Run(u, es).delivered[t];
    KnowledgeOfRun(u, len, es, t);
    CompleteToFrontier(u, len, es, t);
    GaplessRun(u.cfg, len, Accepted(u, len, es), at, t, Frontier(at));
    GaplessClimbs(bs);
    NoFalseAlarms(AllStamps(bs));
  }

  lemma {:induction false} QuietPositions(cfg: Config, t: nat, a: nat, b: nat)
    requires cfg.Valid() && t < cfg.topics && a <= b
    requires forall d :: a <= d < b ==> SubtopicOf(cfg, d) != t
    ensures CounterAt(cfg, t, b) == CounterAt(cfg, t, a)
    decreases b - a
  {
    if a < b {
      QuietPositions(cfg, t, a, b - 1);
      CounterAtStep(cfg, t, b - 1);
    }
  }

  /** When all of subtopic t has been handled, the last number handled is the printed counter. */
  lemma CounterOfComplete(cfg: Config, at: seq<nat>, t: nat, n: nat)
    requires cfg.Valid() && t < cfg.topics && Complete(cfg, at, t, n)
    ensures CounterAt(cfg, t, n) - 1 == |at|
    ensures at != [] ==> NumberOf(cfg, at[|at| - 1]) == |at|
  {
    if at == [] {
      QuietPositions(cfg, t, 0, n);
      ResidueRange(t - cfg.start, cfg.topics);
      assert CounterAt(cfg, t, 0) == 1;
    } else {
      var d := at[|at| - 1];
      NumbersInRow(cfg, at, t, n, |at| - 1);
      CounterAtStep(cfg, t, d);
      forall d' | d + 1 <= d' < n
        ensures SubtopicOf(cfg, d') != t
      {
        LastIsLargest(at);
        assert SubtopicOf(cfg, d') == t ==> d' in at;
      }
      QuietPositions(cfg, t, d + 1, n);
    }
  }

  /** Publish d consists of leftovers only. */
  ghost predicate LeftoversOnly(u: Setup, len: nat, es: seq<Event>, d: nat)
    requires u.Valid() && d < |Run(u, es).sender.published|
  {
    OnlyLeftovers(u.cfg, len, RoundsOf(es), d, |Contents(Run(u, es).sender.published[d].payload)|)
  }

  /** The last batch that the process of subtopic t handled does. */
  ghost predicate EndsBelow(u: Setup, len: nat, es: seq<Event>, t: nat)
    requires u.Valid() && t < u.cfg.topics
  {
    var at := Run(u, es).delivered[t];
    at != [] && at[|at| - 1] < |Run(u, es).sender.published| && LeftoversOnly(u, len, es, at[|at| - 1])
  }

  lemma RecordsOnWire(u: Setup, len: nat, es: seq<Event>, d: nat)
    requires Counting(u, len, es) && d < |Run(u, es).sender.published|
    ensures d * len <= |Accepted(u, len, es)|
    ensures |Contents(Run(u, es).sender.published[d].payload)| == |Chunk(Accepted(u, len, es), len, d)|
  {
    PublishOfRun(u, len, es, d);
  }

  lemma EndsBelowAt(u: Setup, len: nat, es: seq<Event>, t: nat, d: nat)
    requires u.Valid() && t < u.cfg.topics && d < |Run(u, es).sender.published|
    requires Run(u, es).delivered[t] != [] && d == Run(u, es).delivered[t][|Run(u, es).delivered[t]| - 1]
    ensures EndsBelow(u, len, es, t) <==> LeftoversOnly(u, len, es, d)
  {
  }

  lemma LastHandled(u: Setup, len: nat, es: seq<Event>, t: nat) returns (at: seq<nat>, d: nat)
    requires Counting(u, len, es) && t < u.cfg.topics && Run(u, es).delivered[t] != []
    ensures at == Run(u, es).delivered[t] && at[|at| - 1] == d < |Run(u, es).sender.published|
  {
    at := Run(u, es).delivered[t];
    HandledInRun(u, len, es, t);
    d := at[|at| - 1];
  }

  lemma BatchesAt(u: Setup, len: nat, es: seq<Event>, t: nat, at: seq<nat>)
    requires u.Valid() && len > 0 && t < u.cfg.topics && at == Run(u, es).delivered[t]
    ensures Batches(u, len, es, t) == ReceivedAt(u.cfg, len, Accepted(u, len, es), at)
  {
  }

  /** The stamp that publish d ends in. */
  ghost function FinalStamp(u: Setup, len: nat, es: seq<Event>, d: nat): int
    requires u.Valid() && d < |Run(u, es).sender.published|
  {
    if LeftoversOnly(u, len, es, d) then NumberOf(u.cfg, d) - 1 else NumberOf(u.cfg, d)
  }

  lemma FinalStampOf(u: Setup, len: nat, es: seq<Event>, d: nat)
    requires Counting(u, len, es) && d < |Run(u, es).sender.published|
    ensures d * len <= |Accepted(u, len, es)|
    ensures var vs := Values(Chunk(Accepted(u, len, es), len, d));
            vs != [] && Last(vs) == FinalStamp(u, len, es, d)
  {
    BatchOfRun(u, len, es, d);
    RecordsOnWire(u, len, es, d);
    var vs := Values(Chunk(Accepted(u, len, es), len, d));
    assert vs[|vs| - 1] == NumberOf(u.cfg, d) || vs[|vs| - 1] == NumberOf(u.cfg, d) - 1;
  }

  /** The last stamp received is v. */
  ghost predicate EndsAt(bs: seq<Received>, v: int) {
    bs != [] && bs[|bs| - 1].stamps != [] && Last(bs[|bs| - 1].stamps) == v
  }

  lemma LastOfReceived(cfg: Config, len: nat, rs: seq<Record>, at: seq<nat>, d: nat, v: int)
    requires cfg.Valid() && at != [] && at[|at| - 1] == d && d * len <= |rs|
    requires Values(Chunk(rs, len, d)) != [] && Last(Values(Chunk(rs, len, d))) == v
    ensures EndsAt(ReceivedAt(cfg, len, rs, at), v)
  {
  }

  lemma LastStampOf(u: Setup, len: nat, es: seq<Event>, at: seq<nat>, d: nat)
    requires Counting(u, len, es) && at != [] && at[|at| - 1] == d < |Run(u, es).sender.published|
    ensures EndsAt(ReceivedAt(u.cfg, len, Accepted(u, len, es), at), FinalStamp(u, len, es, d))
  {
    FinalStampOf(u, len, es, d);
    LastOfReceived(u.cfg, len, Accepted(u, len, es), at, d, FinalStamp(u, len, es, d));
  }

  /** The process of t has last seen the final stamp of the last publish d that it handled. */
  lemma LastStamp(u: Setup, len: nat, es: seq<Event>, t: nat) returns (at: seq<nat>, d: nat)
    requires Counting(u, len, es) && t < u.cfg.topics && Run(u, es).delivered[t] != []
    ensures at == Run(u, es).delivered[t] && at[|at| - 1] == d < |Run(u, es).sender.published|
    ensures EndsAt(Batches(u, len, es, t), FinalStamp(u, len, es, d))
  {
    at, d := LastHandled(u, len, es, t);
    BatchesAt(u, len, es, t, at);
    LastStampOf(u, len, es, at, d);
  }

  lemma CountersOfRun(u: Setup, len: nat, es: seq<Event>)
    requires Counting(u, len, es)
    ensures Run(u, es).sender.counters == Counters(u.cfg, |Run(u, es).sender.published|)
    ensures forall t :: 0 <= t < u.cfg.topics ==>
              Run(u, es).sender.counters[t] == CounterAt(u.cfg, t, |Run(u, es).sender.published|)
  {
    SenderOfRounds(u, es);
    StreamSent(u.cfg, len, u.src, RoundsOf(es));
    RoundRobin(u.cfg, len, Stream(u.cfg, len, u.src, RoundsOf(es)), Run(u, es).sender);
  }

  /** The number printed for a counter counts the batches handled and is the last one's. */
  ghost predicate Prints(cfg: Config, at: seq<nat>, counter: nat)
    requires cfg.Valid()
  {
    counter as int - 1 == |at| && (at != [] ==> NumberOf(cfg, at[|at| - 1]) == |at|)
  }

  lemma CompletePrints(cfg: Config, at: seq<nat>, t: nat, n: nat, counter: nat)
    requires cfg.Valid() && t < cfg.topics && Complete(cfg, at, t, n) && counter == CounterAt(cfg, t, n)
    ensures Prints(cfg, at, counter)
  {
    CounterOfComplete(cfg, at, t, n);
  }

  lemma CounterOfRun(u: Setup, len: nat, es: seq<Event>, t: nat)
    requires Counting(u, len, es) && t < u.cfg.topics
    requires Complete(u.cfg, Run(u, es).delivered[t], t, |Run(u, es).sender.published|)
    ensures Prints(u.cfg, Run(u, es).delivered[t], Run(u, es).sender.counters[t])
  {
    CountersOfRun(u, len, es);
    CompletePrints(u.cfg, Run(u, es).delivered[t], t, |Run(u, es).sender.published|,
                   Run(u, es).sender.counters[t]);
  }

  /** The same, of the batches received. */
  lemma Printed(u: Setup, len: nat, es: seq<Event>, t: nat)
    requires Counting(u, len, es) && t < u.cfg.topics
    requires Complete(u.cfg, Run(u, es).delivered[t], t, |Run(u, es).sender.published|)
    ensures var bs := Batches(u, len, es, t);
            && Gapless(bs)
            && Run(u, es).sender.counters[t] as int - 1 == |bs|
            && (bs != [] ==> bs[|bs| - 1].number == |bs|)
  {
    CounterOfRun(u, len, es, t);
    GaplessRun(u.cfg, len, Accepted(u, len, es), Run(u, es).delivered[t], t, |Run(u, es).sender.published|);
  }

  /** When everything published on t has been handled, no report was made, and FanIn's value is what
      the sender prints for t, its counter less one, if and only if the last batch on t is not one
      of leftovers only; for such a batch FanIn ends one below. */
  lemma FinalValue(u: Setup, len: nat, es: seq<Event>, t: nat)
    requires Counting(u, len, es) && t < u.cfg.topics
    requires Complete(u.cfg, Run(u, es).delivered[t], t, |Run(u, es).sender.published|)
    requires Run(u, es).sender.counters[t] <= Float32.EXACT + 1
    ensures var printed: int := Run(u, es).sender.counters[t] as int - 1;
            && Knowledge(u, es, t).reports == []
            && Knowledge(u, es, t).last ==
               (if printed == 0 then None
                else if EndsBelow(u, len, es, t) then Some(printed - 1)
                else Some(printed))
  {
    var bs := Batches(u, len, es, t);
    Printed(u, len, es, t);
    ReportsAreExact(u, len, es, t);
    KnowledgeOfRun(u, len, es, t);
    GaplessClimbs(bs);
    NoFalseAlarms(AllStamps(bs));
    if bs == [] {
      assert RoundAll(AllStamps(bs)) == [];
    } else {
      var at, d := LastStamp(u, len, es, t);
      EndsBelowAt(u, len, es, t, d);
      CounterOfRun(u, len, es, t);
    }
  }
}
