/** The whole path: one sender, one lossy channel per subtopic that keeps order (QoS 0: sections
    4.3.1 and 4.6 of MQTT 3.1.1), one FanIn process per subtopic. Every event sequence is a run. */
module Pipeline {
  import opened Records
  import opened AgentCommon
  import opened Simulator
  import opened FanIn

  /** Publishes are known by their position in `sender.published`. `delivered[t]` lists what the
      process of subtopic t has handled; `dropped` are records that a process handled but did not store:
      those a producer refused, and those of payloads on which its handler raised. */
  datatype State = State(
    sender: Sender,
    inFlight: seq<nat>,
    lost: seq<nat>,
    delivered: seq<seq<nat>>,
    gateways: seq<Gateway>,
    dropped: multiset<Record>)

  /** One more list is sent; or the broker hands over, or loses, the i-th publish in flight. */
  datatype Event = Tick(round: Round) | Deliver(i: nat, refused: set<nat>) | Lose(i: nat)

  datatype Setup = Setup(cfg: Config, src: Source, options: Options) {
    predicate Valid() {
      cfg.Valid()
    }
  }

  ghost predicate Shaped(u: Setup, s: State) {
    && u.Valid()
    && s.sender.Valid(u.cfg)
    && |s.delivered| == |s.gateways| == u.cfg.topics
    && (forall k :: 0 <= k < |s.inFlight| ==> s.inFlight[k] < |s.sender.published|)
    && (forall d :: 0 <= d < |s.sender.published| ==> s.sender.published[d].subtopic < u.cfg.topics)
  }

  function Range(a: nat, b: nat): (r: seq<nat>)
    requires a <= b
    ensures |r| == b - a
    ensures forall k :: 0 <= k < |r| ==> r[k] == a + k
  {
    seq(b - a, k requires 0 <= k => a + k)
  }

  function Without(s: seq<nat>, i: nat): (r: seq<nat>)
    requires i < |s|
    ensures |r| == |s| - 1
    ensures forall k :: 0 <= k < |r| ==> r[k] == if k < i then s[k] else s[k + 1]
  {
    s[..i] + s[i + 1..]
  }

  /** Order is kept per subtopic: only the oldest publish of a subtopic can be handed over. */
  predicate Oldest(s: State, i: nat)
    requires i < |s.inFlight|
    requires forall k :: 0 <= k < |s.inFlight| ==> s.inFlight[k] < |s.sender.published|
  {
    forall k :: 0 <= k < i ==>
      s.sender.published[s.inFlight[k]].subtopic != s.sender.published[s.inFlight[i]].subtopic
  }

  function Init(u: Setup): State
    requires u.Valid()
  {
    State(Started(u.cfg), [], [], seq(u.cfg.topics, _ => []), seq(u.cfg.topics, _ => FRESH_GATEWAY), multiset{})
  }

  /** One more list is sent; what it makes the sender publish is in flight. */
  ghost function Ticked(u: Setup, s: State, round: Round): State
    requires Shaped(u, s)
  {
    var sender' := SendRound(u.cfg, u.src, s.sender, round);
    PublishedGrows(u.cfg, s.sender, RecordList(u.src, round, s.sender.counters[s.sender.cursor]));
    s.(sender := sender', inFlight := s.inFlight + Range(|s.sender.published|, |sender'.published|))
  }

  /** The processes after the one that listens to p's subtopic has handled p. */
  function HandledBy(o: Options, gs: seq<Gateway>, p: Publish, refused: set<nat>): seq<Gateway>
    requires p.subtopic < |gs|
  {
    gs[p.subtopic := Handle(o, gs[p.subtopic], p.payload, refused)]
  }

  /** Publish number i in flight reaches its process. */
  ghost function HandedOver(u: Setup, s: State, i: nat, refused: set<nat>): State
    requires Shaped(u, s) && i < |s.inFlight|
  {
    var d := s.inFlight[i];
    var p := s.sender.published[d];
    s.(inFlight := Without(s.inFlight, i),
       delivered := s.delivered[p.subtopic := s.delivered[p.subtopic] + [d]],
       gateways := HandledBy(u.options, s.gateways, p, refused),
       dropped := s.dropped + multiset(Dropped(u.options, p.payload, refused)))
  }

  ghost function Apply(u: Setup, s: State, e: Event): State
    requires Shaped(u, s)
  {
    match e
    case Tick(round) => Ticked(u, s, round)
    case Deliver(i, refused) =>
      if i < |s.inFlight| && Oldest(s, i) then HandedOver(u, s, i, refused) else s
    case Lose(i) =>
      if i < |s.inFlight| then
        s.(inFlight := Without(s.inFlight, i), lost := s.lost + [s.inFlight[i]])
      else s
  }

  /** Publishes are never taken back, and each goes to a subtopic that exists. */
  lemma AcceptGrows(cfg: Config, s: Sender, r: Record)
    requires s.Valid(cfg)
    ensures s.published <= Accept(cfg, s, r).published
    ensures forall d :: |s.published| <= d < |Accept(cfg, s, r).published| ==>
              var p := Accept(cfg, s, r).published[d];
              p.subtopic < cfg.topics && AllOnWire(Contents(p.payload)) == Contents(p.payload)
  {
    WireIsIdempotent(s.buffer);
    WireIsIdempotent(s.buffer + [r]);
    WireIsIdempotent([r]);
    assert AllOnWire([r]) == [OnWire(r)];
  }

  ghost predicate GoodPublishes(cfg: Config, ps: seq<Publish>, a: nat, b: nat)
    requires a <= b <= |ps|
  {
    forall d :: a <= d < b ==>
      ps[d].subtopic < cfg.topics && AllOnWire(Contents(ps[d].payload)) == Contents(ps[d].payload)
  }

  lemma {:induction false} PublishedGrows(cfg: Config, s: Sender, rs: seq<Record>)
    requires s.Valid(cfg)
    ensures s.published <= SendAll(cfg, s, rs).published
    ensures GoodPublishes(cfg, SendAll(cfg, s, rs).published, |s.published|, |SendAll(cfg, s, rs).published|)
  {
    if rs != [] {
      var k := |rs| - 1;
      PublishedGrows(cfg, s, rs[..k]);
      AcceptGrows(cfg, SendAll(cfg, s, rs[..k]), rs[k]);
    }
  }

  lemma ApplyShaped(u: Setup, s: State, e: Event)
    requires Shaped(u, s)
    ensures Shaped(u, Apply(u, s, e))
    ensures s.sender.published <= Apply(u, s, e).sender.published
  {
    if e.Tick? {
      PublishedGrows(u.cfg, s.sender, RecordList(u.src, e.round, s.sender.counters[s.sender.cursor]));
    }
  }

  ghost function Run(u: Setup, es: seq<Event>): (s: State)
    requires u.Valid()
    ensures Shaped(u, s)
  {
    if es == [] then Init(u) else
      var before := Run(u, es[..|es| - 1]);
      ApplyShaped(u, before, es[|es| - 1]);
      Apply(u, before, es[|es| - 1])
  }
}
