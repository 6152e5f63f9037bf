/** Every accepted record is in exactly one place, and each subtopic keeps its order. */
module Conservation {
  import opened Records
  import opened AgentCommon
  import opened Simulator
  import opened FanIn
  import opened Pipeline

  predicate Below(at: seq<nat>, n: nat) {
    forall k :: 0 <= k < |at| ==> at[k] < n
  }

  lemma {:induction false} SumConcat(a: seq<nat>, b: seq<nat>)
    ensures Sum(a + b) == Sum(a) + Sum(b)
  {
    if b == [] {
      assert a + b == a;
    } else {
      var k := |b| - 1;
      SumConcat(a, b[..k]);
      assert (a + b)[..|a| + k] == a + b[..k];
    }
  }

  lemma SumUpdate(xs: seq<nat>, i: nat, v: nat)
    requires i < |xs|
    ensures Sum(xs[i := v]) - v == Sum(xs) - xs[i]
    ensures Sum(xs) - xs[i] == Sum(xs[..i] + xs[i + 1..])
  {
    var front, back := xs[..i], xs[i + 1..];
    assert xs == front + ([xs[i]] + back) && xs[i := v] == front + ([v] + back);
    SumConcat(front, [xs[i]] + back);
    SumConcat(front, [v] + back);
    SumConcat([xs[i]], back);
    SumConcat([v], back);
    SumConcat(front, back);
  }

  /** How often r occurs in rs. */
  function Times(rs: seq<Record>, r: Record): nat {
    if rs == [] then 0 else Times(rs[..|rs| - 1], r) + (if rs[|rs| - 1] == r then 1 else 0)
  }

  lemma {:induction false} TimesIsMultiplicity(rs: seq<Record>, r: Record)
    ensures Times(rs, r) == multiset(rs)[r]
  {
    if rs != [] {
      var k := |rs| - 1;
      TimesIsMultiplicity(rs[..k], r);
      assert rs == rs[..k] + [rs[k]];
    }
  }

  lemma TimesOfConcat(a: seq<Record>, b: seq<Record>, r: Record)
    ensures Times(a + b, r) == Times(a, r) + Times(b, r)
  {
    TimesIsMultiplicity(a, r);
    TimesIsMultiplicity(b, r);
    TimesIsMultiplicity(a + b, r);
  }

  /** How often record r occurs in the publish at position d. */
  function TimesIn(ps: seq<Publish>, d: nat, r: Record): nat {
    if d < |ps| then Times(Contents(ps[d].payload), r) else 0
  }

  function Weights(ps: seq<Publish>, at: seq<nat>, r: Record): (ws: seq<nat>)
    ensures |ws| == |at|
  {
    seq(|at|, k requires 0 <= k < |at| => TimesIn(ps, at[k], r))
  }

  /** How often record r occurs in the publishes at these positions. */
  function TimesAt(ps: seq<Publish>, at: seq<nat>, r: Record): nat {
    Sum(Weights(ps, at, r))
  }

  lemma TimesStable(ps: seq<Publish>, more: seq<Publish>, at: seq<nat>, r: Record)
    requires Below(at, |ps|)
    ensures TimesAt(ps + more, at, r) == TimesAt(ps, at, r)
  {
    assert Weights(ps + more, at, r) == Weights(ps, at, r);
  }

  lemma WeightsConcat(ps: seq<Publish>, a: seq<nat>, b: seq<nat>, r: Record)
    ensures Weights(ps, a + b, r) == Weights(ps, a, r) + Weights(ps, b, r)
  {
    forall k | 0 <= k < |a + b|
      ensures Weights(ps, a + b, r)[k] == (Weights(ps, a, r) + Weights(ps, b, r))[k]
    {
      assert (a + b)[k] == if k < |a| then a[k] else b[k - |a|];
    }
  }

  lemma TimesConcat(ps: seq<Publish>, a: seq<nat>, b: seq<nat>, r: Record)
    ensures TimesAt(ps, a + b, r) == TimesAt(ps, a, r) + TimesAt(ps, b, r)
  {
    WeightsConcat(ps, a, b, r);
    SumConcat(Weights(ps, a, r), Weights(ps, b, r));
  }

  lemma TimesSnoc(ps: seq<Publish>, at: seq<nat>, d: nat, r: Record)
    ensures TimesAt(ps, at + [d], r) == TimesAt(ps, at, r) + TimesIn(ps, d, r)
  {
    assert Weights(ps, at + [d], r)[..|at|] == Weights(ps, at, r);
  }

  lemma TimesWithout(ps: seq<Publish>, at: seq<nat>, i: nat, r: Record)
    requires i < |at|
    ensures TimesAt(ps, at, r) == TimesAt(ps, Without(at, i), r) + TimesIn(ps, at[i], r)
  {
    var ws := Weights(ps, at, r);
    SumUpdate(ws, i, 0);
    assert Weights(ps, Without(at, i), r) == ws[..i] + ws[i + 1..];
  }

  lemma TimesPublished(ps: seq<Publish>, p: Publish, r: Record)
    ensures Times(PublishedRecords(ps + [p]), r) == Times(PublishedRecords(ps), r) + Times(Contents(p.payload), r)
  {
    PublishedSnoc(ps, p);
    TimesOfConcat(PublishedRecords(ps), Contents(p.payload), r);
  }

  lemma RangeSnoc(ps: seq<Publish>, p: Publish, n: nat, r: Record)
    requires n <= |ps|
    ensures TimesAt(ps + [p], Range(n, |ps| + 1), r) == TimesAt(ps, Range(n, |ps|), r) + Times(Contents(p.payload), r)
  {
    TimesStable(ps, [p], Range(n, |ps|), r);
    assert Range(n, |ps| + 1) == Range(n, |ps|) + [|ps|];
    TimesSnoc(ps + [p], Range(n, |ps|), |ps|, r);
  }

  lemma {:induction false} TimesOfAll(ps: seq<Publish>, r: Record)
    ensures Times(PublishedRecords(ps), r) == TimesAt(ps, Range(0, |ps|), r)
  {
    if ps != [] {
      var front, p := ps[..|ps| - 1], ps[|ps| - 1];
      TimesOfAll(front, r);
      assert front + [p] == ps;
      TimesPublished(front, p, r);
      RangeSnoc(front, p, 0, r);
    }
  }

  function LogTimes(gs: seq<Gateway>, r: Record): (ws: seq<nat>)
    ensures |ws| == |gs|
  {
    seq(|gs|, t requires 0 <= t < |gs| => Times(LogRecords(gs[t].kafka), r))
  }

  /** How often r stands in the Kafka logs of all the processes. */
  function StoredTimes(gs: seq<Gateway>, r: Record): nat {
    Sum(LogTimes(gs, r))
  }

  lemma StoredUpdate(gs: seq<Gateway>, t: nat, g: Gateway, r: Record)
    requires t < |gs|
    ensures StoredTimes(gs[t := g], r) - Times(LogRecords(g.kafka), r)
         == StoredTimes(gs, r) - Times(LogRecords(gs[t].kafka), r)
  {
    SumUpdate(LogTimes(gs, r), t, Times(LogRecords(g.kafka), r));
    assert LogTimes(gs[t := g], r) == LogTimes(gs, r)[t := Times(LogRecords(g.kafka), r)];
  }

  lemma {:induction false} SumOfZeros(xs: seq<nat>)
    requires forall i :: 0 <= i < |xs| ==> xs[i] == 0
    ensures Sum(xs) == 0
  {
    if xs != [] {
      SumOfZeros(xs[..|xs| - 1]);
    }
  }

  /** Where the occurrences of r among the publishes are. */
  function Places(ps: seq<Publish>, inFlight: seq<nat>, lost: seq<nat>, dropped: multiset<Record>,
                  gateways: seq<Gateway>, r: Record): nat {
    TimesAt(ps, inFlight, r) + TimesAt(ps, lost, r) + dropped[r] + StoredTimes(gateways, r)
  }

  ghost predicate Accounted(ps: seq<Publish>, inFlight: seq<nat>, lost: seq<nat>, dropped: multiset<Record>,
                            gateways: seq<Gateway>, r: Record) {
    && Below(inFlight, |ps|) && Below(lost, |ps|)
    && TimesAt(ps, Range(0, |ps|), r) == Places(ps, inFlight, lost, dropped, gateways, r)
  }

  ghost predicate Conserved(s: State, r: Record) {
    Accounted(s.sender.published, s.inFlight, s.lost, s.dropped, s.gateways, r)
  }

  ghost predicate OnWireOnly(u: Setup, s: State) {
    GoodPublishes(u.cfg, s.sender.published, 0, |s.sender.published|)
  }

  /** New publishes are in flight first. */
  lemma NewInFlight(ps: seq<Publish>, more: seq<Publish>, inFlight: seq<nat>, lost: seq<nat>,
                    dropped: multiset<Record>, gs: seq<Gateway>, r: Record)
    requires Accounted(ps, inFlight, lost, dropped, gs, r)
    ensures Accounted(ps + more, inFlight + Range(|ps|, |ps| + |more|), lost, dropped, gs, r)
  {
    var n, n' := |ps|, |ps| + |more|;
    BelowMore(inFlight, n, n');
    BelowMore(lost, n, n');
    assert Range(0, n') == Range(0, n) + Range(n, n');
    TimesConcat(ps + more, Range(0, n), Range(n, n'), r);
    TimesConcat(ps + more, inFlight, Range(n, n'), r);
    TimesStable(ps, more, Range(0, n), r);
    TimesStable(ps, more, inFlight, r);
    TimesStable(ps, more, lost, r);
  }

  lemma BelowMore(at: seq<nat>, n: nat, n': nat)
    requires Below(at, n) && n <= n'
    ensures Below(at, n') && Below(at + Range(n, n'), n')
  {
  }

  lemma TickedShape(u: Setup, s: State, round: Round) returns (more: seq<Publish>)
    requires Shaped(u, s)
    ensures var s' := Ticked(u, s, round);
            && s'.sender.published == s.sender.published + more
            && s' == s.(sender := s'.sender, inFlight := s.inFlight +
                        Range(|s.sender.published|, |s.sender.published| + |more|))
  {
    PublishedGrows(u.cfg, s.sender, RecordList(u.src, round, s.sender.counters[s.sender.cursor]));
    more := Ticked(u, s, round).sender.published[|s.sender.published|..];
  }

  lemma TickConserves(u: Setup, s: State, round: Round, r: Record)
    requires Shaped(u, s) && Conserved(s, r)
    ensures Conserved(Ticked(u, s, round), r)
  {
    var more := TickedShape(u, s, round);
    NewInFlight(s.sender.published, more, s.inFlight, s.lost, s.dropped, s.gateways, r);
  }

  /** What one message does to the books of its process. */
  lemma HandleConserves(o: Options, g: Gateway, p: Payload, refused: set<nat>, r: Record)
    requires AllOnWire(Contents(p)) == Contents(p)
    ensures Times(LogRecords(Handle(o, g, p, refused).kafka), r) + Times(Dropped(o, p, refused), r)
         == Times(LogRecords(g.kafka), r) + Times(Contents(p), r)
  {
    HandleLog(o, g, p, refused);
    MessageAccounted(o, p, refused);
    TimesOfConcat(LogRecords(g.kafka), Stored(o, p, refused), r);
    TimesIsMultiplicity(Contents(p), r);
    TimesIsMultiplicity(Stored(o, p, refused), r);
    TimesIsMultiplicity(Dropped(o, p, refused), r);
    assert multiset(Contents(p))[r] == (multiset(Stored(o, p, refused)) + multiset(Dropped(o, p, refused)))[r];
  }

  /** Handing one publish to its process moves its records, and loses none. */
  lemma HandOver(o: Options, ps: seq<Publish>, inFlight: seq<nat>, i: nat, lost: seq<nat>,
                 dropped: multiset<Record>, gs: seq<Gateway>, refused: set<nat>, r: Record)
    requires i < |inFlight| && inFlight[i] < |ps| && ps[inFlight[i]].subtopic < |gs|
    requires var p := ps[inFlight[i]].payload; AllOnWire(Contents(p)) == Contents(p)
    ensures Places(ps, Without(inFlight, i), lost,
                   dropped + multiset(Dropped(o, ps[inFlight[i]].payload, refused)),
                   HandledBy(o, gs, ps[inFlight[i]], refused), r)
         == Places(ps, inFlight, lost, dropped, gs, r)
  {
    var Publish(t, p) := ps[inFlight[i]];
    TimesWithout(ps, inFlight, i, r);
    HandleConserves(o, gs[t], p, refused, r);
    TimesIsMultiplicity(Dropped(o, p, refused), r);
    StoredUpdate(gs, t, Handle(o, gs[t], p, refused), r);
  }

  lemma HandedOverConserves(u: Setup, s: State, i: nat, refused: set<nat>, r: Record)
    requires Shaped(u, s) && Conserved(s, r) && OnWireOnly(u, s) && i < |s.inFlight|
    ensures Conserved(HandedOver(u, s, i, refused), r)
  {
    HandOver(u.options, s.sender.published, s.inFlight, i, s.lost, s.dropped, s.gateways, refused, r);
  }

  /** Losing one publish moves its records to the lost ones. */
  lemma GiveUp(ps: seq<Publish>, inFlight: seq<nat>, i: nat, lost: seq<nat>,
               dropped: multiset<Record>, gs: seq<Gateway>, r: Record)
    requires i < |inFlight|
    ensures Places(ps, Without(inFlight, i), lost + [inFlight[i]], dropped, gs, r)
         == Places(ps, inFlight, lost, dropped, gs, r)
  {
    TimesWithout(ps, inFlight, i, r);
    TimesSnoc(ps, lost, inFlight[i], r);
  }

  lemma LoseConserves(u: Setup, s: State, i: nat, r: Record)
    requires Shaped(u, s) && Conserved(s, r)
    ensures Conserved(Apply(u, s, Lose(i)), r)
  {
    if i < |s.inFlight| {
      GiveUp(s.sender.published, s.inFlight, i, s.lost, s.dropped, s.gateways, r);
    }
  }

  lemma ApplyOnWire(u: Setup, s: State, e: Event)
    requires Shaped(u, s) && OnWireOnly(u, s)
    ensures OnWireOnly(u, Apply(u, s, e))
  {
    if e.Tick? {
      PublishedGrows(u.cfg, s.sender, RecordList(u.src, e.round, s.sender.counters[s.sender.cursor]));
    }
  }

  lemma {:induction false} RunOnWire(u: Setup, es: seq<Event>)
    requires u.Valid()
    ensures OnWireOnly(u, Run(u, es))
  {
    if es != [] {
      RunOnWire(u, es[..|es| - 1]);
      ApplyOnWire(u, Run(u, es[..|es| - 1]), es[|es| - 1]);
    }
  }

  lemma ApplyConserves(u: Setup, s: State, e: Event, r: Record)
    requires Shaped(u, s) && Conserved(s, r) && OnWireOnly(u, s)
    ensures Conserved(Apply(u, s, e), r)
  {
    match e
    case Tick(round) => TickConserves(u, s, round, r);
    case Deliver(i, refused) =>
      if i < |s.inFlight| && Oldest(s, i) {
        HandedOverConserves(u, s, i, refused, r);
      }
    case Lose(i) => LoseConserves(u, s, i, r);
  }

  lemma {:induction false} RunConserves(u: Setup, es: seq<Event>, r: Record)
    requires u.Valid()
    ensures Conserved(Run(u, es), r)
  {
    if es == [] {
      SumOfZeros(LogTimes(Init(u).gateways, r));
    } else {
      RunConserves(u, es[..|es| - 1], r);
      RunOnWire(u, es[..|es| - 1]);
      ApplyConserves(u, Run(u, es[..|es| - 1]), es[|es| - 1], r);
    }
  }

  /** All records handed to the sender in this run. */
  ghost function Offered(u: Setup, es: seq<Event>): seq<Record>
    requires u.Valid()
  {
    if es == [] then [] else
      var before, e := Run(u, es[..|es| - 1]).sender, es[|es| - 1];
      match e
      case Tick(round) => Offered(u, es[..|es| - 1]) + RecordList(u.src, round, before.counters[before.cursor])
      case _ => Offered(u, es[..|es| - 1])
  }

  lemma {:induction false} SenderOfRun(u: Setup, es: seq<Event>)
    requires u.Valid()
    ensures Run(u, es).sender == SendAll(u.cfg, Started(u.cfg), Offered(u, es))
  {
    if es != [] {
      var k := |es| - 1;
      SenderOfRun(u, es[..k]);
      if es[k].Tick? {
        var before := Run(u, es[..k]).sender;
        SendAllConcat(u.cfg, Started(u.cfg), Offered(u, es[..k]),
                      RecordList(u.src, es[k].round, before.counters[before.cursor]));
      }
    }
  }

  /** End-to-end conservation, in every reachable state and every mode: each record r was accepted
      by the sender as often as it is still held, in flight, lost on the way, dropped by a FanIn
      process or stored in Kafka, taken together; so it reaches Kafka at most as often as it was accepted. */
  lemma EndToEndConservation(u: Setup, es: seq<Event>, r: Record)
    requires u.Valid()
    ensures var s := Run(u, es);
            && Below(s.inFlight, |s.sender.published|) && Below(s.lost, |s.sender.published|)
            && Times(AllOnWire(Kept(u.cfg, Offered(u, es))), r)
               == Times(AllOnWire(Held(s.sender)), r) + TimesAt(s.sender.published, s.inFlight, r)
                  + TimesAt(s.sender.published, s.lost, r) + s.dropped[r] + StoredTimes(s.gateways, r)
            && StoredTimes(s.gateways, r) <= Times(AllOnWire(Kept(u.cfg, Offered(u, es))), r)
  {
    var s := Run(u, es);
    RunConserves(u, es, r);
    SenderOfRun(u, es);
    LimitedRun(u.cfg, Offered(u, es));
    TimesOfAll(s.sender.published, r);
    TimesOfConcat(PublishedRecords(s.sender.published), AllOnWire(Held(s.sender)), r);
  }

  // ---------- Order ----------

  /** The records published on subtopic t, in order. */
  function RecordsOn(ps: seq<Publish>, t: nat): seq<Record> {
    if ps == [] then [] else
      var k := |ps| - 1;
      if ps[k].subtopic == t then RecordsOn(ps[..k], t) + Contents(ps[k].payload) else RecordsOn(ps[..k], t)
  }

  ghost predicate Increasing(at: seq<nat>) {
    forall i, j :: 0 <= i < j < |at| ==> at[i] < at[j]
  }

  /** One past the last position that the process of a subtopic has handled. */
  function Frontier(delivered: seq<nat>): nat {
    if delivered == [] then 0 else delivered[|delivered| - 1] + 1
  }

  /** Handled positions of subtopic t lie below its frontier, those in flight above. */
  ghost predicate Ordered(s: State) {
    && Increasing(s.inFlight)
    && Below(s.inFlight, |s.sender.published|)
    && (forall t :: 0 <= t < |s.delivered| ==>
          Increasing(s.delivered[t]) && Frontier(s.delivered[t]) <= |s.sender.published|)
    && (forall k :: 0 <= k < |s.inFlight| ==>
          var t := s.sender.published[s.inFlight[k]].subtopic;
          t < |s.delivered| ==> Frontier(s.delivered[t]) <= s.inFlight[k])
  }

  lemma TickOrdered(u: Setup, s: State, round: Round)
    requires Shaped(u, s) && Ordered(s)
    ensures Ordered(Apply(u, s, Tick(round)))
  {
    ApplyShaped(u, s, Tick(round));
  }

  lemma IncreasingSnoc(at: seq<nat>, d: nat)
    requires Increasing(at) && Frontier(at) <= d
    ensures Increasing(at + [d]) && Frontier(at + [d]) == d + 1
  {
    LastIsLargest(at);
  }

  lemma HandedOverOrdered(u: Setup, s: State, i: nat, refused: set<nat>)
    requires Shaped(u, s) && Ordered(s) && i < |s.inFlight| && Oldest(s, i)
    ensures Ordered(HandedOver(u, s, i, refused))
  {
    var d := s.inFlight[i];
    IncreasingSnoc(s.delivered[s.sender.published[d].subtopic], d);
  }

  lemma LastIsLargest(at: seq<nat>)
    requires Increasing(at)
    ensures forall i :: 0 <= i < |at| ==> at[i] < Frontier(at)
  {
  }

  lemma LoseOrdered(u: Setup, s: State, i: nat)
    requires Shaped(u, s) && Ordered(s) && i < |s.inFlight|
    ensures Ordered(Apply(u, s, Lose(i)))
  {
  }

  lemma DeliverOrdered(u: Setup, s: State, i: nat, refused: set<nat>)
    requires Shaped(u, s) && Ordered(s)
    ensures Ordered(Apply(u, s, Deliver(i, refused)))
  {
    if i < |s.inFlight| && Oldest(s, i) {
      HandedOverOrdered(u, s, i, refused);
    }
  }

  lemma ApplyOrdered(u: Setup, s: State, e: Event)
    requires Shaped(u, s) && Ordered(s)
    ensures Ordered(Apply(u, s, e))
  {
    match e
    case Tick(round) => TickOrdered(u, s, round);
    case Deliver(i, refused) => DeliverOrdered(u, s, i, refused);
    case Lose(i) =>
      if i < |s.inFlight| {
        LoseOrdered(u, s, i);
      }
  }

  lemma {:induction false} RunOrdered(u: Setup, es: seq<Event>)
    requires u.Valid()
    ensures Ordered(Run(u, es))
  {
    if es != [] {
      RunOrdered(u, es[..|es| - 1]);
      ApplyOrdered(u, Run(u, es[..|es| - 1]), es[|es| - 1]);
    }
  }

  /** The log of process t is what is left of the records published on t up to its frontier. */
  ghost predicate LogInOrder(ps: seq<Publish>, g: Gateway, delivered: seq<nat>, t: nat) {
    && Frontier(delivered) <= |ps|
    && IsSubsequence(LogRecords(g.kafka), RecordsOn(ps[..Frontier(delivered)], t))
  }

  ghost predicate LogsInOrder(s: State) {
    && |s.gateways| == |s.delivered|
    && forall t :: 0 <= t < |s.delivered| ==>
         LogInOrder(s.sender.published, s.gateways[t], s.delivered[t], t)
  }

  lemma {:induction false} RecordsOnGrow(ps: seq<Publish>, n: nat, t: nat) returns (more: seq<Record>)
    requires n <= |ps|
    ensures RecordsOn(ps, t) == RecordsOn(ps[..n], t) + more
  {
    if n == |ps| {
      more := [];
      assert ps[..n] == ps;
    } else {
      var k := |ps| - 1;
      more := RecordsOnGrow(ps[..k], n, t);
      assert ps[..k][..n] == ps[..n];
      if ps[k].subtopic == t {
        more := more + Contents(ps[k].payload);
      }
    }
  }

  lemma {:induction false} SubsequenceAppend(a: seq<Record>, b: seq<Record>, c: seq<Record>, d: seq<Record>)
    requires IsSubsequence(a, b) && IsSubsequence(c, d)
    ensures IsSubsequence(a + c, b + d)
    decreases d
  {
    if c == [] {
      assert a + c == a;
      SubsequenceSkipAll(a, b, d);
    } else {
      var k, n := |c| - 1, |d| - 1;
      assert b + d == (b + d[..n]) + [d[n]];
      if IsSubsequence(c, d[..n]) {
        SubsequenceAppend(a, b, c, d[..n]);
        SubsequenceSkip(a + c, b + d[..n], d[n]);
      } else {
        SubsequenceAppend(a, b, c[..k], d[..n]);
        SubsequenceKeep(a + c[..k], b + d[..n], d[n]);
        assert a + c == (a + c[..k]) + [c[k]];
      }
    }
  }

  lemma StoredInOrder(u: Setup, p: Payload, refused: set<nat>)
    requires AllOnWire(Contents(p)) == Contents(p)
    ensures IsSubsequence(Stored(u.options, p, refused), Contents(p))
  {
    PickedSubsequence(Contents(p), refused, false);
    PickedSubsequence(Contents(p), {}, false);
    PickedAll(Contents(p));
  }

  lemma SubsequenceThrough(a: seq<Record>, b: seq<Record>, skipped: seq<Record>, c: seq<Record>, d: seq<Record>)
    requires IsSubsequence(a, b) && IsSubsequence(c, d)
    ensures IsSubsequence(a + c, b + skipped + d)
  {
    SubsequenceSkipAll(a, b, skipped);
    SubsequenceAppend(a, b + skipped, c, d);
  }

  lemma RecordsOnUpTo(ps: seq<Publish>, f: nat, d: nat) returns (skipped: seq<Record>)
    requires f <= d < |ps|
    ensures RecordsOn(ps[..d + 1], ps[d].subtopic)
         == RecordsOn(ps[..f], ps[d].subtopic) + skipped + Contents(ps[d].payload)
  {
    skipped := RecordsOnGrow(ps[..d], f, ps[d].subtopic);
    assert ps[..d][..f] == ps[..f] && ps[..d + 1][..d] == ps[..d];
  }

  /** The log of a process, and what it has still to come from publish d. */
  lemma LogAndNext(u: Setup, ps: seq<Publish>, d: nat, f: nat, log: seq<Record>, refused: set<nat>)
    requires f <= d < |ps| && AllOnWire(Contents(ps[d].payload)) == Contents(ps[d].payload)
    requires IsSubsequence(log, RecordsOn(ps[..f], ps[d].subtopic))
    ensures IsSubsequence(log + Stored(u.options, ps[d].payload, refused), RecordsOn(ps[..d + 1], ps[d].subtopic))
  {
    var p := ps[d];
    var skipped := RecordsOnUpTo(ps, f, d);
    StoredInOrder(u, p.payload, refused);
    SubsequenceThrough(log, RecordsOn(ps[..f], p.subtopic), skipped,
                       Stored(u.options, p.payload, refused), Contents(p.payload));
  }

  lemma FrontierSnoc(delivered: seq<nat>, d: nat)
    ensures Frontier(delivered + [d]) == d + 1
  {
  }

  /** One more publish on subtopic t is handled: its part of the log extends the subsequence. */
  lemma LogExtends(u: Setup, ps: seq<Publish>, d: nat, delivered: seq<nat>, g: Gateway, refused: set<nat>)
    requires Frontier(delivered) <= d < |ps| && AllOnWire(Contents(ps[d].payload)) == Contents(ps[d].payload)
    requires LogInOrder(ps, g, delivered, ps[d].subtopic)
    ensures LogInOrder(ps, Handle(u.options, g, ps[d].payload, refused), delivered + [d], ps[d].subtopic)
  {
    FrontierSnoc(delivered, d);
    LogAndNext(u, ps, d, Frontier(delivered), LogRecords(g.kafka), refused);
    HandleLog(u.options, g, ps[d].payload, refused);
  }

  lemma DeliverInOrder(u: Setup, s: State, i: nat, refused: set<nat>)
    requires Shaped(u, s) && Ordered(s) && OnWireOnly(u, s) && LogsInOrder(s)
    ensures LogsInOrder(Apply(u, s, Deliver(i, refused)))
  {
    if i < |s.inFlight| && Oldest(s, i) {
      var d := s.inFlight[i];
      var t := s.sender.published[d].subtopic;
      assert LogInOrder(s.sender.published, s.gateways[t], s.delivered[t], t);
      LogExtends(u, s.sender.published, d, s.delivered[t], s.gateways[t], refused);
    }
  }

  lemma TickInOrder(u: Setup, s: State, round: Round)
    requires Shaped(u, s) && LogsInOrder(s)
    ensures LogsInOrder(Apply(u, s, Tick(round)))
  {
    ApplyShaped(u, s, Tick(round));
    var ps, ps' := s.sender.published, Apply(u, s, Tick(round)).sender.published;
    forall t | 0 <= t < |s.delivered|
      ensures LogInOrder(ps', s.gateways[t], s.delivered[t], t)
    {
      assert LogInOrder(ps, s.gateways[t], s.delivered[t], t);
      assert ps'[..Frontier(s.delivered[t])] == ps[..Frontier(s.delivered[t])];
    }
  }

  lemma ApplyInOrder(u: Setup, s: State, e: Event)
    requires Shaped(u, s) && Ordered(s) && OnWireOnly(u, s) && LogsInOrder(s)
    ensures LogsInOrder(Apply(u, s, e))
  {
    match e
    case Tick(round) => TickInOrder(u, s, round);
    case Deliver(i, refused) => DeliverInOrder(u, s, i, refused);
    case Lose(i) =>
  }

  /** In every reachable state each process's Kafka log is, in order, a part of what was published
      on its subtopic. */
  lemma {:induction false} OrderKept(u: Setup, es: seq<Event>)
    requires u.Valid()
    ensures LogsInOrder(Run(u, es))
  {
    if es != [] {
      OrderKept(u, es[..|es| - 1]);
      RunOrdered(u, es[..|es| - 1]);
      RunOnWire(u, es[..|es| - 1]);
      ApplyInOrder(u, Run(u, es[..|es| - 1]), es[|es| - 1]);
    }
  }
}
