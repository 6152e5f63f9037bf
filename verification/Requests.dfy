/** What each handler does for the request that started it, under any interleaving: which agents it
    stores, changes and deletes, and what it answers. */
module Requests {
  import opened Records
  import opened Agents
  import opened Manager

  /** The requests that have arrived, in order: thread i handles request i. */
  function Arrived(es: seq<Event>): seq<Request> {
    if es == [] then [] else
      var k := |es| - 1;
      Arrived(es[..k]) + if es[k].Arrive? then [es[k].request] else []
  }

  lemma {:induction false} ArrivedPrefix(es: seq<Event>, n: nat)
    requires n <= |es|
    ensures Arrived(es[..n]) <= Arrived(es)
  {
    if n == |es| {
      assert es[..n] == es;
    } else {
      ArrivedPrefix(es[..|es| - 1], n);
      assert es[..|es| - 1][..n] == es[..n];
    }
  }

  /** The devices asked for, with UUIDs filled in. */
  ghost predicate NamedFrom(named: seq<Device>, asked: seq<Device>) {
    exists gen: Uuid :: named == AssignDevices(asked, gen)
  }

  /** Where a thread stands fits its request, and what it carries comes from there. */
  ghost predicate Serves(t: Thread, req: Request) {
    match t
    case RegisterCreate(uid, name) => req == Register(uid, name)
    case RegisterSave(a) => req == Register(a.uid, a.name) && a.devices == []
    case RegisterRespond(uid, a) => req == Register(a.uid, a.name) && uid == a.uid
    case DevicesAssign(uuid, ds) => req == DeviceList(uuid, ds)
    case DevicesGet(uuid, named) => req.DeviceList? && req.uuid == uuid && NamedFrom(named, req.devices)
    case DevicesUpdate(a, named) =>
      req.DeviceList? && req.uuid == a.uuid && a.devices == named && NamedFrom(named, req.devices)
    case DevicesRespond(uuid, named) => req.DeviceList? && req.uuid == uuid && NamedFrom(named, req.devices)
    case DeregisterGet(uuid) => req == Deregister(uuid)
    case DeregisterDelete(a) => req == Deregister(a.uuid)
    case DeregisterRespond(uuid, _) => req == Deregister(uuid)
    case Finished => true
  }

  ghost predicate AllServe(s: State, reqs: seq<Request>) {
    |s.threads| == |reqs| && forall i :: 0 <= i < |reqs| ==> Serves(s.threads[i], reqs[i])
  }

  lemma AdvanceServes(s: State, tid: nat, req: Request)
    requires Manager.Sound(s) && tid < |s.threads| && Serves(s.threads[tid], req)
    ensures Serves(Advance(s, tid).threads[tid], req)
  {
    assert s.threads[tid].DevicesAssign? ==> NamedFrom(AssignDevices(s.threads[tid].payload, s.gen), req.devices);
  }

  lemma OthersStay(s: State, tid: nat, i: nat)
    requires tid < |s.threads| && i < |s.threads| && i != tid
    ensures Advance(s, tid).threads[i] == s.threads[i]
  {
  }

  lemma ApplyServes(s: State, e: Event, reqs: seq<Request>)
    requires Manager.Sound(s) && AllServe(s, reqs)
    ensures AllServe(Apply(s, e), reqs + if e.Arrive? then [e.request] else [])
  {
    if e.Step? && e.tid < |s.threads| {
      forall i | 0 <= i < |reqs|
        ensures Serves(Advance(s, e.tid).threads[i], reqs[i])
      {
        if i == e.tid {
          AdvanceServes(s, i, reqs[i]);
        } else {
          OthersStay(s, e.tid, i);
        }
      }
    }
  }

  /** Every thread works on its own request, whatever the others do. */
  lemma {:induction false} RunServes(es: seq<Event>)
    ensures AllServe(Run(es), Arrived(es))
  {
    if es != [] {
      var k := |es| - 1;
      RunServes(es[..k]);
      RunSound(es[..k]);
      ApplyServes(Run(es[..k]), es[k], Arrived(es[..k]));
    }
  }

  /** The request that thread tid of a run handles. */
  ghost predicate Handles(es: seq<Event>, tid: nat, req: Request) {
    tid < |Arrived(es)| && Arrived(es)[tid] == req
  }

  lemma ServesIn(es: seq<Event>, n: nat, tid: nat)
    requires n <= |es| && tid < |Run(es[..n]).threads|
    ensures tid < |Arrived(es)| && Serves(Run(es[..n]).threads[tid], Arrived(es)[tid])
  {
    RunServes(es[..n]);
    ArrivedPrefix(es, n);
  }

  // ---------- What the steps do to the hash ----------

  /** Event w is the step in which a registration saves agent a. */
  predicate SavesAt(es: seq<Event>, w: nat, tid: nat, a: AgentData)
    requires w < |es|
  {
    es[w] == Step(tid) && tid < |Run(es[..w]).threads| && Run(es[..w]).threads[tid] == RegisterSave(a)
  }

  /** Event d is the step in which a deregistration deletes agent u. */
  predicate DeletesAt(es: seq<Event>, d: nat, tid: nat, u: Uuid)
    requires d < |es|
  {
    && es[d] == Step(tid) && tid < |Run(es[..d]).threads|
    && Run(es[..d]).threads[tid].DeregisterDelete? && Run(es[..d]).threads[tid].agent.uuid == u
  }

  /** Nothing but agent u may differ. */
  ghost predicate ElseSame(hash: map<Uuid, AgentData>, hash': map<Uuid, AgentData>, u: Uuid) {
    forall v :: v != u ==> (v in hash <==> v in hash') && (v in hash && v in hash' ==> hash[v] == hash'[v])
  }

  /** A registration stores one new agent, with the uid and name asked for and no devices. */
  lemma SaveStores(es: seq<Event>, w: nat, tid: nat, a: AgentData)
    requires w < |es| && SavesAt(es, w, tid, a)
    ensures Handles(es, tid, Register(a.uid, a.name)) && a.devices == []
    ensures !Holds(es, w, a.uuid) && Holds(es, w + 1, a.uuid) && Run(es[..w + 1]).hash[a.uuid] == a
    ensures ElseSame(Run(es[..w]).hash, Run(es[..w + 1]).hash, a.uuid)
  {
    StepOf(es, w);
    ServesIn(es, w, tid);
    RunSound(es[..w]);
    assert ThreadSound(Run(es[..w]), Run(es[..w]).threads[tid]);
  }

  /** A device list gives its agent, stored or no longer stored, the devices asked for, with UUIDs. */
  lemma WriteStores(es: seq<Event>, w: nat, tid: nat, u: Uuid)
    requires w < |es| && WritesAt(es, w, tid, u)
    ensures exists asked :: Handles(es, tid, DeviceList(u, asked))
                            && Holds(es, w + 1, u) && NamedFrom(Run(es[..w + 1]).hash[u].devices, asked)
    ensures ElseSame(Run(es[..w]).hash, Run(es[..w + 1]).hash, u)
  {
    StepOf(es, w);
    ServesIn(es, w, tid);
    var asked := Arrived(es)[tid].devices;
    assert Handles(es, tid, DeviceList(u, asked));
  }

  /** A deregistration deletes its agent, whatever has been written to it since it was read, and will
      answer whether there was anything to delete. */
  lemma DeleteRemoves(es: seq<Event>, d: nat, tid: nat, u: Uuid)
    requires d < |es| && DeletesAt(es, d, tid, u)
    ensures Handles(es, tid, Deregister(u))
    ensures !Holds(es, d + 1, u)
    ensures ElseSame(Run(es[..d]).hash, Run(es[..d + 1]).hash, u)
    ensures tid < |Run(es[..d + 1]).threads|
    ensures Run(es[..d + 1]).threads[tid] == DeregisterRespond(u, Holds(es, d, u))
  {
    StepOf(es, d);
    ServesIn(es, d, tid);
  }

  /** Only these three steps touch an agent. */
  lemma OnlyTheseTouch(es: seq<Event>, k: nat, u: Uuid)
    requires k < |es|
    requires forall tid, a :: SavesAt(es, k, tid, a) ==> a.uuid != u
    requires forall tid :: !WritesAt(es, k, tid, u) && !DeletesAt(es, k, tid, u)
    ensures Holds(es, k, u) <==> Holds(es, k + 1, u)
    ensures Holds(es, k, u) ==> Run(es[..k + 1]).hash[u] == Run(es[..k]).hash[u]
  {
    StepOf(es, k);
    var s := Run(es[..k]);
    if es[k].Step? && es[k].tid < |s.threads| {
      var tid := es[k].tid;
      assert s.threads[tid].RegisterSave? ==> SavesAt(es, k, tid, s.threads[tid].agent);
      assert !WritesAt(es, k, tid, u) && !DeletesAt(es, k, tid, u);
    }
  }

  /** A deregistered agent stays away unless a device-list handler that had read it before writes it
      back: nothing else that runs in between matters. */
  lemma DeregisteredUntilOverlap(es: seq<Event>, d: nat, tid: nat, u: Uuid)
    requires d < |es| && DeletesAt(es, d, tid, u) && Holds(es, d, u)
    ensures (exists j :: d < j <= |es| && Holds(es, j, u)) <==>
              exists r, w, t :: 0 <= r < d < w < |es| && t >= 0 && ReadsAt(es, r, t, u) && WritesAt(es, w, t, u)
  {
    DeleteRemoves(es, d, tid, u);
    ReappearsIffOverlapped(es, d, u);
  }

  // ---------- Replies ----------

  /** A reply answers a request: the key of its topic and its fields are the request's. */
  ghost predicate Answers(r: Reply, req: Request) {
    match r
    case Registered(topicUid, uid, _) => req.Register? && req.uid == topicUid == uid
    case DevicesRegistered(u, m) =>
      req.DeviceList? && req.uuid == u && exists named :: NamedFrom(named, req.devices) && m == ResponseMap(named)
    case Deregistered(u, _) => req == Deregister(u)
    case NotFound(_) => false
  }

  /** Event k sends reply r. */
  predicate SendsAt(es: seq<Event>, k: nat, tid: nat, r: Reply)
    requires k < |es|
  {
    && es[k] == Step(tid) && tid < |Run(es[..k]).threads|
    && Run(es[..k + 1]).sent == Run(es[..k]).sent + [r]
  }

  lemma StepSends(s: State, e: Event, k: nat)
    requires k < |Apply(s, e).sent|
    ensures if k < |s.sent| then Apply(s, e).sent[k] == s.sent[k]
            else e.Step? && e.tid < |s.threads| && Apply(s, e).sent == s.sent + [Apply(s, e).sent[k]]
  {
  }

  lemma {:induction false} WhenSent(es: seq<Event>, n: nat, k: nat) returns (j: nat, tid: nat)
    requires n <= |es| && k < |Run(es[..n]).sent|
    ensures j < n && SendsAt(es, j, tid, Run(es[..n]).sent[k])
  {
    assert n > 0 by {
      assert Run(es[..0]).sent == [];
    }
    StepOf(es, n - 1);
    StepSends(Run(es[..n - 1]), es[n - 1], k);
    if k < |Run(es[..n - 1]).sent| {
      j, tid := WhenSent(es, n - 1, k);
    } else {
      j, tid := n - 1, es[n - 1].tid;
    }
  }

  lemma SentByStep(s: State, tid: nat, r: Reply)
    requires tid < |s.threads| && Advance(s, tid).sent == s.sent + [r]
    ensures match s.threads[tid]
            case RegisterRespond(uid, a) => r == Registered(uid, uid, a.uuid)
            case DevicesRespond(u, named) => r == DevicesRegistered(u, ResponseMap(named))
            case DeregisterRespond(u, success) => r == Deregistered(u, success)
            case _ => false
  {
    assert Advance(s, tid).sent[|s.sent|] == r;
  }

  lemma SenderAnswers(es: seq<Event>, k: nat, tid: nat, r: Reply)
    requires k < |es| && SendsAt(es, k, tid, r)
    ensures tid < |Arrived(es)| && Answers(r, Arrived(es)[tid])
    ensures match Run(es[..k]).threads[tid]
            case RegisterRespond(uid, a) => r == Registered(uid, uid, a.uuid)
            case DevicesRespond(u, named) => r == DevicesRegistered(u, ResponseMap(named))
            case DeregisterRespond(u, success) => r == Deregistered(u, success)
            case _ => false
  {
    StepOf(es, k);
    ServesIn(es, k, tid);
    SentByStep(Run(es[..k]), tid, r);
    var t := Run(es[..k]).threads[tid];
    if t.DevicesRespond? {
      assert NamedFrom(t.payload, Arrived(es)[tid].devices) && r.deviceUuids == ResponseMap(t.payload);
    }
  }

  /** Every reply sent answers a request that arrived, by the thread that handles it. */
  lemma EveryReplyAnswers(es: seq<Event>, k: nat) returns (tid: nat)
    requires k < |Run(es).sent|
    ensures tid < |Arrived(es)| && Answers(Run(es).sent[k], Arrived(es)[tid])
  {
    assert es[..|es|] == es;
    var j;
    j, tid := WhenSent(es, |es|, k);
    SenderAnswers(es, j, tid, Run(es).sent[k]);
  }

  lemma StepToDeregisterRespond(s: State, e: Event, tid: nat)
    requires tid < |Apply(s, e).threads| && Apply(s, e).threads[tid].DeregisterRespond?
    ensures tid < |s.threads|
    ensures var t, t' := s.threads[tid], Apply(s, e).threads[tid];
            t' == t ||
            (e == Step(tid) && t.DeregisterDelete? && t' == DeregisterRespond(t.agent.uuid, t.agent.uuid in s.hash))
  {
  }

  lemma {:induction false} RespondsAfterDelete(es: seq<Event>, n: nat, tid: nat) returns (d: nat)
    requires n <= |es| && tid < |Run(es[..n]).threads| && Run(es[..n]).threads[tid].DeregisterRespond?
    ensures var t := Run(es[..n]).threads[tid];
            d < n && DeletesAt(es, d, tid, t.uuid) && (t.success <==> Holds(es, d, t.uuid))
  {
    assert n > 0 by {
      assert Run(es[..0]).threads == [];
    }
    StepOf(es, n - 1);
    StepToDeregisterRespond(Run(es[..n - 1]), es[n - 1], tid);
    if Run(es[..n - 1]).threads[tid].DeregisterRespond? {
      d := RespondsAfterDelete(es, n - 1, tid);
    } else {
      d := n - 1;
    }
  }

  /** A deregistration is answered after the agent was deleted, and reports success exactly if it was
      stored until then. */
  lemma DeregisteredAfterDelete(es: seq<Event>, k: nat) returns (d: nat, tid: nat)
    requires k < |Run(es).sent| && Run(es).sent[k].Deregistered?
    ensures var r := Run(es).sent[k];
            && d < |es| && DeletesAt(es, d, tid, r.topicUuid) && Handles(es, tid, Deregister(r.topicUuid))
            && (r.success <==> Holds(es, d, r.topicUuid)) && !Holds(es, d + 1, r.topicUuid)
  {
    assert es[..|es|] == es;
    var j;
    j, tid := WhenSent(es, |es|, k);
    SenderAnswers(es, j, tid, Run(es).sent[k]);
    d := RespondsAfterDelete(es, j, tid);
    DeleteRemoves(es, d, tid, Run(es).sent[k].topicUuid);
  }

  lemma StepToRegisterRespond(s: State, e: Event, tid: nat)
    requires tid < |Apply(s, e).threads| && Apply(s, e).threads[tid].RegisterRespond?
    ensures tid < |s.threads|
    ensures var t, t' := s.threads[tid], Apply(s, e).threads[tid];
            t' == t || (e == Step(tid) && t == RegisterSave(t'.agent))
  {
  }

  lemma {:induction false} RespondsAfterSave(es: seq<Event>, n: nat, tid: nat) returns (w: nat)
    requires n <= |es| && tid < |Run(es[..n]).threads| && Run(es[..n]).threads[tid].RegisterRespond?
    ensures w < n && SavesAt(es, w, tid, Run(es[..n]).threads[tid].agent)
  {
    assert n > 0 by {
      assert Run(es[..0]).threads == [];
    }
    StepOf(es, n - 1);
    StepToRegisterRespond(Run(es[..n - 1]), es[n - 1], tid);
    if Run(es[..n - 1]).threads[tid].RegisterRespond? {
      w := RespondsAfterSave(es, n - 1, tid);
    } else {
      w := n - 1;
    }
  }

  /** A registration is answered with the UUID under which its own handler has stored a new agent, of
      the uid and name asked for. */
  lemma RegisteredAfterSave(es: seq<Event>, k: nat) returns (w: nat, tid: nat, a: AgentData)
    requires k < |Run(es).sent| && Run(es).sent[k].Registered?
    ensures Run(es).sent[k] == Registered(a.uid, a.uid, a.uuid)
    ensures w < |es| && SavesAt(es, w, tid, a) && Handles(es, tid, Register(a.uid, a.name)) && a.devices == []
    ensures !Holds(es, w, a.uuid) && Holds(es, w + 1, a.uuid) && Run(es[..w + 1]).hash[a.uuid] == a
  {
    assert es[..|es|] == es;
    var j;
    j, tid := WhenSent(es, |es|, k);
    SenderAnswers(es, j, tid, Run(es).sent[k]);
    a := Run(es[..j]).threads[tid].agent;
    ServesIn(es, j, tid);
    w := RespondsAfterSave(es, j, tid);
    SaveStores(es, w, tid, a);
  }
}
