/** The three handlers over Redis, interleaved: the thread pool runs any number of them at once, and
    between two repository calls of one, any others may run. Requests arrive in any number and order,
    retained ones again and again. */
module Manager {
  import opened Records
  import opened Agents

  /** Where a handler thread stands: the call it makes next, with its local variables. */
  datatype Thread =
    | RegisterCreate(uid: string, name: string)
    | RegisterSave(agent: AgentData)
    | RegisterRespond(topicUid: string, agent: AgentData)
    | DevicesAssign(uuid: Uuid, payload: seq<Device>)
    | DevicesGet(uuid: Uuid, payload: seq<Device>)
    | DevicesUpdate(agent: AgentData, payload: seq<Device>)
    | DevicesRespond(uuid: Uuid, payload: seq<Device>)
    | DeregisterGet(uuid: Uuid)
    | DeregisterDelete(agent: AgentData)
    | DeregisterRespond(uuid: Uuid, success: bool)
    | Finished

  /** `uid` of a RegisterSave or RegisterRespond thread is its request's, kept in the agent; `sent`
      are the MQTT responses so far. `birth` and `saved` only remember, for the statements below,
      what each agent was created as and which agents a registration has saved. */
  datatype State = State(
    counter: nat,
    gen: Uuid,
    hash: map<Uuid, AgentData>,
    threads: seq<Thread>,
    sent: seq<Reply>,
    birth: map<Uuid, AgentData>,
    saved: set<Uuid>)

  datatype Event = Arrive(request: Request) | Step(tid: nat)

  const START := State(0, 0, map[], [], [], map[], {})

  function Begin(req: Request): Thread {
    match req
    case Register(uid, name) => RegisterCreate(uid, name)
    case DeviceList(uuid, devices) => DevicesAssign(uuid, devices)
    case Deregister(uuid) => DeregisterGet(uuid)
  }

  /** One repository call, one draw of names or one publish of thread tid. */
  function Advance(s: State, tid: nat): (s': State)
    requires tid < |s.threads|
    ensures |s'.threads| == |s.threads|
  {
    match s.threads[tid]
    case RegisterCreate(uid, name) =>
      var agent := AgentData(s.counter + 1, uid, s.gen, name, []);
      s.(counter := s.counter + 1, gen := s.gen + 1, birth := s.birth[s.gen := agent],
         threads := s.threads[tid := RegisterSave(agent)])
    case RegisterSave(agent) =>
      s.(hash := s.hash[agent.uuid := agent], saved := s.saved + {agent.uuid},
         threads := s.threads[tid := RegisterRespond(agent.uid, agent)])
    case RegisterRespond(uid, agent) =>
      s.(sent := s.sent + [Registered(uid, uid, agent.uuid)], threads := s.threads[tid := Finished])
    case DevicesAssign(uuid, payload) =>
      s.(gen := s.gen + NamesIn(payload),
         threads := s.threads[tid := DevicesGet(uuid, AssignDevices(payload, s.gen))])
    case DevicesGet(uuid, payload) =>
      s.(threads := s.threads[tid :=
           if uuid in s.hash then DevicesUpdate(s.hash[uuid].(devices := payload), payload) else Finished])
    case DevicesUpdate(agent, payload) =>
      s.(hash := s.hash[agent.uuid := agent], threads := s.threads[tid := DevicesRespond(agent.uuid, payload)])
    case DevicesRespond(uuid, payload) =>
      s.(sent := s.sent + [DevicesRegistered(uuid, ResponseMap(payload))], threads := s.threads[tid := Finished])
    case DeregisterGet(uuid) =>
      s.(threads := s.threads[tid := if uuid in s.hash then DeregisterDelete(s.hash[uuid]) else Finished])
    case DeregisterDelete(agent) =>
      s.(hash := s.hash - {agent.uuid},
         threads := s.threads[tid := DeregisterRespond(agent.uuid, agent.uuid in s.hash)])
    case DeregisterRespond(uuid, success) =>
      s.(sent := s.sent + [Deregistered(uuid, success)], threads := s.threads[tid := Finished])
    case Finished => s
  }

  function Apply(s: State, e: Event): State {
    match e
    case Arrive(req) => s.(threads := s.threads + [Begin(req)])
    case Step(tid) => if tid < |s.threads| then Advance(s, tid) else s
  }

  function Run(es: seq<Event>): State {
    if es == [] then START else Apply(Run(es[..|es| - 1]), es[|es| - 1])
  }

  // ---------- Undisturbed handlers ----------

  /** What the repository and the generator of a state stand for. */
  function Stored(s: State): Store {
    Store(s.counter + 1, s.gen, s.hash)
  }

  /** A new handler thread that runs to its end at once: no handler takes more than four steps. */
  function Undisturbed(s: State, req: Request): (s': State)
    ensures |s'.threads| == |s.threads| + 1
  {
    var tid := |s.threads|;
    var s1 := Advance(Apply(s, Arrive(req)), tid);
    var s2 := Advance(s1, tid);
    var s3 := Advance(s2, tid);
    Advance(s3, tid)
  }

  /** The replies that a handler publishes: EntityNotFoundException is not answered. */
  function Answer(r: Reply): seq<Reply> {
    if r.NotFound? then [] else [r]
  }

  ghost predicate RanTo(s: State, s': State, after: (Store, Reply))
  {
    && s'.threads == s.threads + [Finished]
    && Stored(s') == after.0
    && s'.sent == s.sent + Answer(after.1)
  }

  lemma RegisterAlone(s: State, uid: string, name: string)
    ensures RanTo(s, Undisturbed(s, Register(uid, name)), Handled(Stored(s), Register(uid, name)))
  {
    var tid := |s.threads|;
    var agent := AgentData(s.counter + 1, uid, s.gen, name, []);
    var s1 := Advance(Apply(s, Arrive(Register(uid, name))), tid);
    assert s1.threads == s.threads + [RegisterSave(agent)];
    var s2 := Advance(s1, tid);
    assert s2.threads == s.threads + [RegisterRespond(uid, agent)];
    var s3 := Advance(s2, tid);
    assert s3.threads == s.threads + [Finished];
  }

  lemma DevicesMissing(s: State, uuid: Uuid, devices: seq<Device>)
    requires uuid !in s.hash
    ensures RanTo(s, Undisturbed(s, DeviceList(uuid, devices)), Handled(Stored(s), DeviceList(uuid, devices)))
  {
    var tid := |s.threads|;
    var s1 := Advance(Apply(s, Arrive(DeviceList(uuid, devices))), tid);
    assert s1.threads == s.threads + [DevicesGet(uuid, AssignDevices(devices, s.gen))];
    var s2 := Advance(s1, tid);
    assert s2.threads == s.threads + [Finished];
    assert Advance(s2, tid) == s2;
  }

  lemma DevicesAlone(s: State, uuid: Uuid, devices: seq<Device>)
    requires uuid in s.hash && s.hash[uuid].uuid == uuid
    ensures RanTo(s, Undisturbed(s, DeviceList(uuid, devices)), Handled(Stored(s), DeviceList(uuid, devices)))
  {
    var tid := |s.threads|;
    var named := AssignDevices(devices, s.gen);
    var s1 := Advance(Apply(s, Arrive(DeviceList(uuid, devices))), tid);
    assert s1.threads == s.threads + [DevicesGet(uuid, named)];
    var s2 := Advance(s1, tid);
    var s3 := Advance(s2, tid);
    assert s2.threads == s.threads + [DevicesUpdate(s.hash[uuid].(devices := named), named)];
    assert s3.threads == s.threads + [DevicesRespond(uuid, named)];
    assert Advance(s3, tid).threads == s.threads + [Finished];
  }

  lemma DeregisterAlone(s: State, uuid: Uuid)
    requires uuid in s.hash ==> s.hash[uuid].uuid == uuid
    ensures RanTo(s, Undisturbed(s, Deregister(uuid)), Handled(Stored(s), Deregister(uuid)))
  {
    var tid := |s.threads|;
    var s1 := Advance(Apply(s, Arrive(Deregister(uuid))), tid);
    var s2 := Advance(s1, tid);
    var s3 := Advance(s2, tid);
    if uuid in s.hash {
      assert s1.threads == s.threads + [DeregisterDelete(s.hash[uuid])];
      assert s2.threads == s.threads + [DeregisterRespond(uuid, true)];
      assert s3.threads == s.threads + [Finished];
    } else {
      assert s1.threads == s.threads + [Finished];
      assert s2 == s1;
    }
  }

  /** A handler whose steps nobody interrupts is the atomic handler that both repositories implement:
      same store, same generator, same reply. */
  lemma AloneIsAtomic(s: State, req: Request)
    requires forall u :: u in s.hash ==> s.hash[u].uuid == u
    ensures RanTo(s, Undisturbed(s, req), Handled(Stored(s), req))
  {
    match req
    case Register(uid, name) => RegisterAlone(s, uid, name);
    case DeviceList(uuid, devices) =>
      if uuid in s.hash {
        DevicesAlone(s, uuid, devices);
      } else {
        DevicesMissing(s, uuid, devices);
      }
    case Deregister(uuid) => DeregisterAlone(s, uuid);
  }

  // ---------- Identity ----------

  /** A copy of an agent differs from what was created in nothing but its devices. */
  predicate CopyOf(s: State, a: AgentData) {
    a.uuid in s.birth && s.birth[a.uuid].(devices := a.devices) == a
  }

  ghost predicate ThreadSound(s: State, t: Thread) {
    match t
    case RegisterSave(a) => CopyOf(s, a) && a.uuid !in s.saved
    case RegisterRespond(uid, a) => CopyOf(s, a) && a.uuid in s.saved && uid == a.uid
    case DevicesUpdate(a, _) => CopyOf(s, a) && a.uuid in s.saved
    case DeregisterDelete(a) => CopyOf(s, a) && a.uuid in s.saved
    case _ => true
  }

  /** A published UUID was saved before, under the uid whose topic carries it. */
  ghost predicate ReplySound(s: State, r: Reply) {
    r.Registered? ==>
      r.uuid in s.saved && r.uuid in s.birth && s.birth[r.uuid].uid == r.uid == r.topicUid
  }

  ghost predicate BirthsSound(s: State) {
    && (forall u :: u in s.birth ==> u < s.gen && s.birth[u].uuid == u && 1 <= s.birth[u].id <= s.counter)
    && (forall u, v :: u in s.birth && v in s.birth && s.birth[u].id == s.birth[v].id ==> u == v)
    && s.saved <= s.birth.Keys
  }

  ghost predicate HashSound(s: State) {
    forall u :: u in s.hash ==> s.hash[u].uuid == u && u in s.saved && CopyOf(s, s.hash[u])
  }

  /** No two registrations are about to save the same agent. */
  ghost predicate SavesDiffer(s: State) {
    forall i, j :: 0 <= i < j < |s.threads| && s.threads[i].RegisterSave? && s.threads[j].RegisterSave? ==>
      s.threads[i].agent.uuid != s.threads[j].agent.uuid
  }

  ghost predicate Sound(s: State) {
    && BirthsSound(s) && HashSound(s) && SavesDiffer(s)
    && (forall t :: 0 <= t < |s.threads| ==> ThreadSound(s, s.threads[t]))
    && (forall k :: 0 <= k < |s.sent| ==> ReplySound(s, s.sent[k]))
  }

  ghost predicate Extends(s: State, s': State) {
    && s.birth.Keys <= s'.birth.Keys && (forall u :: u in s.birth ==> s'.birth[u] == s.birth[u])
    && s.saved <= s'.saved
  }

  lemma ApplyExtends(s: State, e: Event)
    requires Sound(s)
    ensures Extends(s, Apply(s, e))
  {
  }

  lemma ThreadStays(s: State, s': State, t: Thread)
    requires ThreadSound(s, t) && Extends(s, s')
    requires t.RegisterSave? ==> t.agent.uuid !in s'.saved
    ensures ThreadSound(s', t)
  {
  }

  lemma BornSound(s: State, s': State, agent: AgentData)
    requires BirthsSound(s) && agent.uuid == s.gen && agent.id == s.counter + 1
    requires s'.birth == s.birth[s.gen := agent] && s'.saved == s.saved
    requires s'.gen == s.gen + 1 && s'.counter == s.counter + 1
    ensures BirthsSound(s')
  {
  }

  lemma AdvanceBirths(s: State, tid: nat)
    requires Sound(s) && tid < |s.threads|
    ensures BirthsSound(Advance(s, tid))
  {
    var t, s' := s.threads[tid], Advance(s, tid);
    assert ThreadSound(s, t);
    if t.RegisterCreate? {
      BornSound(s, s', AgentData(s.counter + 1, t.uid, s.gen, t.name, []));
    } else {
      assert s'.birth == s.birth && s'.counter == s.counter && s'.gen >= s.gen;
      assert s'.saved <= s.birth.Keys;
    }
  }

  lemma AdvanceHash(s: State, tid: nat)
    requires Sound(s) && tid < |s.threads|
    ensures HashSound(Advance(s, tid))
  {
    ApplyExtends(s, Step(tid));
    assert ThreadSound(s, s.threads[tid]);
  }

  predicate WouldClash(t: Thread, t': Thread) {
    t.RegisterSave? && t'.RegisterSave? && t.agent.uuid == t'.agent.uuid
  }

  lemma NoClash(s: State, i: nat, j: nat)
    requires Sound(s) && i < |s.threads| && j < |s.threads| && i != j
    ensures !WouldClash(s.threads[i], s.threads[j])
  {
    var k, l := if i < j then i else j, if i < j then j else i;
    assert k < l && s.threads[k].RegisterSave? && s.threads[l].RegisterSave? ==>
           s.threads[k].agent.uuid != s.threads[l].agent.uuid;
  }

  lemma AdvanceSaves(s: State, tid: nat)
    requires Sound(s) && tid < |s.threads|
    ensures SavesDiffer(Advance(s, tid))
  {
    var s' := Advance(s, tid);
    forall i, j | 0 <= i < j < |s'.threads|
      ensures !WouldClash(s'.threads[i], s'.threads[j])
    {
      NoClash(s, i, j);
      assert ThreadSound(s, s.threads[i]) && ThreadSound(s, s.threads[j]);
    }
    assert forall i, j :: 0 <= i < j < |s'.threads| && s'.threads[i].RegisterSave? && s'.threads[j].RegisterSave? ==>
      !WouldClash(s'.threads[i], s'.threads[j]);
  }

  lemma AdvanceThreads(s: State, tid: nat, t: nat)
    requires Sound(s) && tid < |s.threads| && t < |s.threads|
    ensures ThreadSound(Advance(s, tid), Advance(s, tid).threads[t])
  {
    ApplyExtends(s, Step(tid));
    assert ThreadSound(s, s.threads[tid]) && ThreadSound(s, s.threads[t]);
    if t != tid {
      NoClash(s, t, tid);
      ThreadStays(s, Advance(s, tid), s.threads[t]);
    }
  }

  lemma AdvanceReplies(s: State, tid: nat)
    requires Sound(s) && tid < |s.threads|
    ensures forall k :: 0 <= k < |Advance(s, tid).sent| ==> ReplySound(Advance(s, tid), Advance(s, tid).sent[k])
  {
    ApplyExtends(s, Step(tid));
    assert ThreadSound(s, s.threads[tid]);
    forall k | 0 <= k < |s.sent|
      ensures ReplySound(Advance(s, tid), s.sent[k])
    {
      assert ReplySound(s, s.sent[k]);
    }
  }

  lemma ApplySound(s: State, e: Event)
    requires Sound(s)
    ensures Sound(Apply(s, e))
  {
    match e
    case Arrive(req) =>
      var s' := Apply(s, e);
      forall t | 0 <= t < |s'.threads|
        ensures ThreadSound(s', s'.threads[t])
      {
        if t < |s.threads| {
          ThreadStays(s, s', s.threads[t]);
        }
      }
      forall k | 0 <= k < |s.sent|
        ensures ReplySound(s', s.sent[k])
      {
        assert ReplySound(s, s.sent[k]);
      }
    case Step(tid) =>
      if tid < |s.threads| {
        AdvanceBirths(s, tid);
        AdvanceHash(s, tid);
        AdvanceSaves(s, tid);
        AdvanceReplies(s, tid);
        forall t | 0 <= t < |Advance(s, tid).threads|
          ensures ThreadSound(Advance(s, tid), Advance(s, tid).threads[t])
        {
          AdvanceThreads(s, tid, t);
        }
      }
  }

  /** The identity invariant holds in every state that any interleaving reaches. */
  lemma {:induction false} RunSound(es: seq<Event>)
    ensures Sound(Run(es))
  {
    if es != [] {
      RunSound(es[..|es| - 1]);
      ApplySound(Run(es[..|es| - 1]), es[|es| - 1]);
    }
  }

  lemma {:induction false} RunExtends(es: seq<Event>, n: nat)
    requires n <= |es|
    ensures Extends(Run(es[..n]), Run(es))
  {
    if n == |es| {
      assert es[..n] == es;
    } else {
      var k := |es| - 1;
      RunExtends(es[..k], n);
      assert es[..k][..n] == es[..n];
      RunSound(es[..k]);
      ApplyExtends(Run(es[..k]), es[k]);
    }
  }

  /** Identity, in plain terms. For any interleaving and any redelivery: every entry stands under its
      own UUID; an agent stored at two times of a run has the same id, uid and name both times; an id
      is never given to a second agent, not even after a deletion; and the UUID in a RegisterResponse
      was saved before, for the uid whose topic carries the response. */
  lemma Identity(es: seq<Event>, n: nat, u: Uuid, v: Uuid)
    requires n <= |es|
    ensures var s, s' := Run(es[..n]), Run(es);
            && (u in s'.hash ==> s'.hash[u].uuid == u)
            && (u in s.hash && u in s'.hash ==>
                  s.hash[u].id == s'.hash[u].id && s.hash[u].uid == s'.hash[u].uid && s.hash[u].name == s'.hash[u].name)
            && (u in s.hash && v in s'.hash && s.hash[u].id == s'.hash[v].id ==> u == v)
            && (forall k :: 0 <= k < |s'.sent| && s'.sent[k].Registered? && s'.sent[k].uuid == u ==>
                  && u in s'.saved && s'.sent[k].uid == s'.sent[k].topicUid
                  && (u in s'.hash ==> s'.hash[u].uid == s'.sent[k].topicUid))
  {
    RunSound(es);
    RunSound(es[..n]);
    RunExtends(es, n);
    var s, s' := Run(es[..n]), Run(es);
    assert u in s.hash ==> CopyOf(s, s.hash[u]) && s'.birth[u].id == s.hash[u].id;
    assert v in s'.hash ==> CopyOf(s', s'.hash[v]);
    forall k | 0 <= k < |s'.sent| && s'.sent[k].Registered?
      ensures ReplySound(s', s'.sent[k])
    {
    }
  }

  /** Agent u is stored after the first n events. */
  predicate Holds(es: seq<Event>, n: nat, u: Uuid)
    requires n <= |es|
  {
    u in Run(es[..n]).hash
  }

  /** `saved` tells the truth: such an agent has been in the hash. */
  lemma {:induction false} SavedWasHeld(es: seq<Event>, u: Uuid) returns (n: nat)
    requires u in Run(es).saved
    ensures n <= |es| && Holds(es, n, u)
  {
    var k := |es| - 1;
    if u in Run(es[..k]).saved {
      n := SavedWasHeld(es[..k], u);
      assert es[..k][..n] == es[..n];
    } else {
      n := |es|;
      assert es[..n] == es;
    }
  }

  // ---------- Deregistration ----------

  /** Event r is the step in which a device-list handler reads agent u. */
  predicate ReadsAt(es: seq<Event>, r: nat, tid: nat, u: Uuid)
    requires r < |es|
  {
    && es[r] == Step(tid) && tid < |Run(es[..r]).threads|
    && Run(es[..r]).threads[tid].DevicesGet? && Run(es[..r]).threads[tid].uuid == u
    && Holds(es, r, u)
  }

  /** Event w is the step in which a device-list handler writes agent u back. */
  predicate WritesAt(es: seq<Event>, w: nat, tid: nat, u: Uuid)
    requires w < |es|
  {
    && es[w] == Step(tid) && tid < |Run(es[..w]).threads|
    && Run(es[..w]).threads[tid].DevicesUpdate? && Run(es[..w]).threads[tid].agent.uuid == u
  }

  lemma StepOf(es: seq<Event>, n: nat)
    requires n < |es|
    ensures Run(es[..n + 1]) == Apply(Run(es[..n]), es[n])
  {
    assert es[..n + 1][..n] == es[..n];
  }

  predicate AboutToWrite(es: seq<Event>, n: nat, tid: nat, u: Uuid)
    requires n <= |es|
  {
    Ready(Run(es[..n]), tid, u)
  }

  predicate Ready(s: State, tid: nat, u: Uuid) {
    tid < |s.threads| && s.threads[tid].DevicesUpdate? && s.threads[tid].agent.uuid == u
  }

  lemma BecomesReady(s: State, e: Event, tid: nat, u: Uuid)
    requires Sound(s) && Ready(Apply(s, e), tid, u)
    ensures Ready(s, tid, u) ||
            (e == Step(tid) && tid < |s.threads| && s.threads[tid].DevicesGet?
             && s.threads[tid].uuid == u && u in s.hash)
  {
  }

  /** A handler becomes ready to write only by reading. */
  lemma ReadJustNow(es: seq<Event>, n: nat, tid: nat, u: Uuid)
    requires n < |es| && AboutToWrite(es, n + 1, tid, u)
    ensures AboutToWrite(es, n, tid, u) || ReadsAt(es, n, tid, u)
  {
    StepOf(es, n);
    RunSound(es[..n]);
    BecomesReady(Run(es[..n]), es[n], tid, u);
  }

  /** A handler that is about to write has read before. */
  lemma {:induction false} ReadFirst(es: seq<Event>, n: nat, tid: nat, u: Uuid) returns (r: nat)
    requires n <= |es| && AboutToWrite(es, n, tid, u)
    ensures r < n && ReadsAt(es, r, tid, u)
  {
    assert n > 0 by {
      assert Run(es[..0]).threads == [];
    }
    r := n - 1;
    ReadJustNow(es, r, tid, u);
    if !ReadsAt(es, r, tid, u) {
      r := ReadFirst(es, r, tid, u);
    }
  }

  /** Agent u enters the hash only by a registration's save or a device-list handler's write. */
  lemma Entering(es: seq<Event>, w: nat, u: Uuid) returns (tid: nat)
    requires w < |es| && !Holds(es, w, u) && Holds(es, w + 1, u)
    ensures es[w] == Step(tid) && tid < |Run(es[..w]).threads|
    ensures WritesAt(es, w, tid, u) || (Run(es[..w]).threads[tid].RegisterSave? && u !in Run(es[..w]).saved)
  {
    StepOf(es, w);
    RunSound(es[..w]);
    tid := es[w].tid;
    assert ThreadSound(Run(es[..w]), Run(es[..w]).threads[tid]);
  }

  lemma {:induction false} FirstReturn(es: seq<Event>, d: nat, j: nat, u: Uuid) returns (w: nat)
    requires d < j <= |es| && !Holds(es, d, u) && Holds(es, j, u)
    ensures d <= w < j && !Holds(es, w, u) && Holds(es, w + 1, u)
    ensures forall k :: d <= k <= w ==> !Holds(es, k, u)
  {
    w := d;
    while !Holds(es, w + 1, u)
      invariant d <= w < j
      invariant forall k :: d <= k <= w ==> !Holds(es, k, u)
      decreases j - w
    {
      w := w + 1;
    }
  }

  /** The read that a write after a deletion rests on was made before the deletion. */
  lemma Resurrection(es: seq<Event>, d: nat, j: nat, u: Uuid) returns (r: nat, w: nat, tid: nat)
    requires d < j <= |es| && Holds(es, d, u) && !Holds(es, d + 1, u) && Holds(es, j, u)
    ensures r < d < w < j && ReadsAt(es, r, tid, u) && WritesAt(es, w, tid, u)
  {
    w := FirstReturn(es, d + 1, j, u);
    tid := Entering(es, w, u);
    RunSound(es[..d]);
    RunExtends(es[..w], d);
    assert es[..w][..d] == es[..d];
    r := ReadFirst(es, w, tid, u);
    StepOf(es, d);
    assert r != d;
  }

  /** Deregistration under interleaving, exactly. Once event d has deleted agent u, u is stored again
      by some later event if and only if a device-list handler that had read u before d writes it
      back after d; without such an overlap it never reappears. */
  lemma ReappearsIffOverlapped(es: seq<Event>, d: nat, u: Uuid)
    requires d < |es| && Holds(es, d, u) && !Holds(es, d + 1, u)
    ensures (exists j :: d < j <= |es| && Holds(es, j, u)) <==>
              exists r, w, tid :: 0 <= r < d < w < |es| && tid >= 0 && ReadsAt(es, r, tid, u) && WritesAt(es, w, tid, u)
  {
    if j :| d < j <= |es| && Holds(es, j, u) {
      var r, w, tid := Resurrection(es, d, j, u);
    }
    if r, w, tid :| 0 <= r < d < w < |es| && tid >= 0 && ReadsAt(es, r, tid, u) && WritesAt(es, w, tid, u) {
      StepOf(es, w);
      assert Holds(es, w + 1, u);
    }
  }

  lemma RunSnoc(es: seq<Event>, e: Event)
    ensures Run(es + [e]) == Apply(Run(es), e)
  {
    assert (es + [e])[..|es|] == es;
  }

  /** Registering agent 0, and a device list for it that has been read but not yet written back. */
  const OVERLAP: seq<Event> := [
    Arrive(Register("uid", "name")), Step(0), Step(0),
    Arrive(DeviceList(0, [])), Step(1), Step(1)]

  lemma OverlapReads()
    ensures var a := AgentData(1, "uid", 0, "name", []);
            && Run(OVERLAP).hash == map[0 := a]
            && Run(OVERLAP).threads == [RegisterRespond("uid", a), DevicesUpdate(a, [])]
    ensures ReadsAt(OVERLAP, 5, 1, 0)
  {
    var a := AgentData(1, "uid", 0, "name", []);
    var s0: seq<Event> := [];
    var s1 := s0 + [Arrive(Register("uid", "name"))];
    var s2 := s1 + [Step(0)];
    var s3 := s2 + [Step(0)];
    var s4 := s3 + [Arrive(DeviceList(0, []))];
    var s5 := s4 + [Step(1)];
    RunSnoc(s0, Arrive(Register("uid", "name")));
    RunSnoc(s1, Step(0));
    assert Run(s2).threads == [RegisterSave(a)];
    RunSnoc(s2, Step(0));
    assert Run(s3).hash == map[0 := a] && Run(s3).threads == [RegisterRespond("uid", a)];
    RunSnoc(s3, Arrive(DeviceList(0, [])));
    RunSnoc(s4, Step(1));
    assert Run(s5).threads == [RegisterRespond("uid", a), DevicesGet(0, [])];
    RunSnoc(s5, Step(1));
    assert OVERLAP == s5 + [Step(1)] && OVERLAP[..5] == s5;
  }

  /** The run goes on: agent 0 is deregistered, and then the device list is written back. */
  const REVIVAL: seq<Event> := OVERLAP + [Arrive(Deregister(0)), Step(2), Step(2), Step(1)]

  /** It does happen: in this run agent 0 is stored, is deleted by event 8, and is stored again. */
  lemma AgentComesBack()
    ensures |REVIVAL| == 10
    ensures Holds(REVIVAL, 8, 0) && !Holds(REVIVAL, 9, 0) && Holds(REVIVAL, 10, 0)
    ensures ReadsAt(REVIVAL, 5, 1, 0) && WritesAt(REVIVAL, 9, 1, 0)
  {
    OverlapReads();
    var a := AgentData(1, "uid", 0, "name", []);
    var s7 := OVERLAP + [Arrive(Deregister(0))];
    var s8 := s7 + [Step(2)];
    var s9 := s8 + [Step(2)];
    RunSnoc(OVERLAP, Arrive(Deregister(0)));
    RunSnoc(s7, Step(2));
    assert Run(s8).hash == map[0 := a];
    assert Run(s8).threads == [RegisterRespond("uid", a), DevicesUpdate(a, []), DeregisterDelete(a)];
    RunSnoc(s8, Step(2));
    assert 0 !in Run(s9).hash && Run(s9).threads[1] == DevicesUpdate(a, []);
    RunSnoc(s9, Step(1));
    assert REVIVAL[..8] == s8 && REVIVAL[..9] == s9 && REVIVAL[..10] == REVIVAL == s9 + [Step(1)];
    assert REVIVAL[..5] == OVERLAP[..5];
  }
}
