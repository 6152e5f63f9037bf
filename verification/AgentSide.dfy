/** The agent's message callback, and what an agent may believe: the manager and one agent together,
    with replies delivered late, repeatedly or in any order. */
module AgentSide {
  import opened Records
  import opened Wrappers
  import opened Agents
  import opened Topics
  import opened DeviceRegistration
  import Manager

  /** `str(uuid)`: only that different UUIDs are written differently, and without '/', matters. */
  function Str(u: Uuid): string {
    Decimal(u)
  }

  function TopicOf(r: Reply): string {
    match r
    case Registered(uid, _, _) => ResponseTopic(Registration, uid)
    case DevicesRegistered(u, _) => ResponseTopic(DeviceRegistration, Str(u))
    case Deregistered(u, _) => ResponseTopic(Deregistration, Str(u))
    case NotFound(_) => ""
  }

  /** The fields of the agent; `uuid` is None until the first registration response. */
  datatype Agent = Agent(
    uid: string,
    uuid: Option<Uuid>,
    registered: bool,
    deviceUuids: map<string, SensorUuids>,
    devicesRegistered: bool,
    deregistered: bool)

  function NewAgent(uid: string): Agent {
    Agent(uid, None, false, map[], false, false)
  }

  /** The field "uuid" of a decoded response: the agent's; a deregistration response has none. */
  function UuidField(r: Reply): Option<Uuid> {
    match r
    case Registered(_, _, u) => Some(u)
    case DevicesRegistered(u, _) => Some(u)
    case _ => None
  }

  /** The callback as a function: which payload on which topic changes which fields, and whether a
      missing field or an unset topic raises; what was assigned before that stays assigned. */
  function Received(a: Agent, topic: string, r: Reply): (Agent, bool) {
    if topic == ResponseTopic(Registration, a.uid) then
      (if UuidField(r).Some? then (a.(registered := true, uuid := UuidField(r)), false)
       else (a.(registered := true), true))
    else if a.uuid.None? then (a, true)
    else if topic == ResponseTopic(DeviceRegistration, Str(a.uuid.value)) then
      (if UuidField(r).None? then (a, true)
       else if UuidField(r) != a.uuid then (a.(devicesRegistered := true), false)
       else if r.DevicesRegistered? then (a.(devicesRegistered := true, deviceUuids := r.deviceUuids), false)
       else (a, true))
    else if topic == ResponseTopic(Deregistration, Str(a.uuid.value)) then (a.(deregistered := true), false)
    else (a, false)
  }

  /** The family of a topic as the agent spells it. */
  function Spelled(f: Family): string {
    match f
    case Registration => "agent-registration/"
    case DeviceRegistration => "device-registration/"
    case Deregistration => "agent-deregistration/"
  }

  /** Both sides spell the topics alike. */
  lemma AgentSpelling(f: Family, key: string)
    ensures ResponseTopic(f, key) == Spelled(f) + key + "/response"
    ensures RequestTopic(f, key) == Spelled(f) + key + "/request"
  {
    assert Root(f) + "/" == Spelled(f);
  }

  /** The agent object. Before the first registration response the device topic is unset, and the
      test for it raises. */
  class IBswitchSimulator {
    const myAgent_uid: string
    var myAgent_uuid: Option<Uuid>
    var myMQTTregistered: bool
    var myDeviceRegistrationResponseTopic: string
    var myAgentDeregistrationResponseTopic: string
    var myDeviceSensorUUIDsMap: map<string, SensorUuids>
    var myDeviceRegistered: bool
    var myMQTTderegistered: bool

    function State(): Agent
      reads this
    {
      Agent(myAgent_uid, myAgent_uuid, myMQTTregistered, myDeviceSensorUUIDsMap, myDeviceRegistered, myMQTTderegistered)
    }

    /** The topics kept are those of the UUID kept. */
    ghost predicate Valid()
      reads this
    {
      myAgent_uuid.Some? ==>
        && myDeviceRegistrationResponseTopic == ResponseTopic(DeviceRegistration, Str(myAgent_uuid.value))
        && myAgentDeregistrationResponseTopic == ResponseTopic(Deregistration, Str(myAgent_uuid.value))
    }

    constructor (uid: string)
      ensures Valid() && State() == NewAgent(uid)
    {
      myAgent_uid := uid;
      myAgent_uuid, myMQTTregistered := None, false;
      myDeviceRegistrationResponseTopic, myAgentDeregistrationResponseTopic := "", "";
      myDeviceSensorUUIDsMap, myDeviceRegistered, myMQTTderegistered := map[], false, false;
    }

    method MqttOnMessage(topic: string, payload: Reply) returns (raised: bool)
      requires Valid()
      modifies this
      ensures Valid() && (State(), raised) == Received(old(State()), topic, payload)
    {
      raised := false;
      var uuid := UuidField(payload);
      if topic == ResponseTopic(Registration, myAgent_uid) {
        myMQTTregistered := true;
        if uuid.None? {
          return true;
        }
        myAgent_uuid := uuid;
        myAgentDeregistrationResponseTopic := ResponseTopic(Deregistration, Str(uuid.value));
        myDeviceRegistrationResponseTopic := ResponseTopic(DeviceRegistration, Str(uuid.value));
      } else if myAgent_uuid.None? {
        raised := true;
      } else if topic == myDeviceRegistrationResponseTopic {
        if uuid.None? {
          return true;
        }
        if uuid == myAgent_uuid {
          if !payload.DevicesRegistered? {
            return true;
          }
          myDeviceSensorUUIDsMap := payload.deviceUuids;
        }
        myDeviceRegistered := true;
      } else if topic == myAgentDeregistrationResponseTopic {
        myMQTTderegistered := true;
      }
    }
  }

  /** Only registration responses travel on an agent's registration topic, and only its own. */
  lemma PayloadOfTopic(r: Reply, uid: string)
    ensures TopicOf(r) == ResponseTopic(Registration, uid) ==> r.Registered? && r.topicUid == uid
  {
    match r
    case Registered(uid', _, _) => ResponsesInjective(Registration, Registration, uid', uid);
    case DevicesRegistered(u, _) => ResponsesInjective(DeviceRegistration, Registration, Str(u), uid);
    case Deregistered(u, _) => ResponsesInjective(Deregistration, Registration, Str(u), uid);
    case NotFound(_) => assert |ResponseTopic(Registration, uid)| > 0;
  }

  lemma DevicePayloadOfTopic(r: Reply, u: Uuid)
    ensures TopicOf(r) == ResponseTopic(DeviceRegistration, Str(u)) ==> r.DevicesRegistered? && r.topicUuid == u
  {
    match r
    case Registered(uid, _, _) => ResponsesInjective(Registration, DeviceRegistration, uid, Str(u));
    case DevicesRegistered(u', _) =>
      ResponsesInjective(DeviceRegistration, DeviceRegistration, Str(u'), Str(u));
      DecimalInjective(u', u);
    case Deregistered(u', _) => ResponsesInjective(Deregistration, DeviceRegistration, Str(u'), Str(u));
    case NotFound(_) => assert |ResponseTopic(DeviceRegistration, Str(u))| > 0;
  }

  lemma DeregisterPayloadOfTopic(r: Reply, u: Uuid)
    ensures TopicOf(r) == ResponseTopic(Deregistration, Str(u)) ==> r.Deregistered? && r.topicUuid == u
  {
    match r
    case Registered(uid, _, _) => ResponsesInjective(Registration, Deregistration, uid, Str(u));
    case DevicesRegistered(u', _) => ResponsesInjective(DeviceRegistration, Deregistration, Str(u'), Str(u));
    case Deregistered(u', _) =>
      ResponsesInjective(Deregistration, Deregistration, Str(u'), Str(u));
      DecimalInjective(u', u);
    case NotFound(_) => assert |ResponseTopic(Deregistration, Str(u))| > 0;
  }

  // ---------- The manager and one agent ----------

  datatype World = World(manager: Manager.State, agent: Agent)

  /** A step of the manager, or the delivery of any reply it has sent, again or for the first time. */
  datatype Event = ManagerEvent(e: Manager.Event) | Delivery(k: nat)

  function Next(w: World, e: Event): World {
    match e
    case ManagerEvent(me) => w.(manager := Manager.Apply(w.manager, me))
    case Delivery(k) =>
      if k < |w.manager.sent| then
        w.(agent := Received(w.agent, TopicOf(w.manager.sent[k]), w.manager.sent[k]).0)
      else w
  }

  function Run(uid: string, es: seq<Event>): World {
    if es == [] then World(Manager.START, NewAgent(uid)) else Next(Run(uid, es[..|es| - 1]), es[|es| - 1])
  }

  /** UUID u was given to an agent that registered as `uid`. */
  ghost predicate OwnName(s: Manager.State, u: Uuid, uid: string) {
    u in s.saved && u in s.birth && s.birth[u].uid == uid
  }

  /** The manager has sent this device map to such a UUID. */
  ghost predicate SentDevices(s: Manager.State, m: map<string, SensorUuids>, uid: string) {
    exists k :: 0 <= k < |s.sent| && s.sent[k].DevicesRegistered? && s.sent[k].deviceUuids == m
                && OwnName(s, s.sent[k].topicUuid, uid)
  }

  ghost predicate SentDeregistered(s: Manager.State, uid: string) {
    exists k :: 0 <= k < |s.sent| && s.sent[k].Deregistered? && OwnName(s, s.sent[k].topicUuid, uid)
  }

  lemma SentDevicesStays(s: Manager.State, s': Manager.State, m: map<string, SensorUuids>, uid: string)
    requires SentDevices(s, m, uid) && s.sent <= s'.sent && Manager.Extends(s, s')
    ensures SentDevices(s', m, uid)
  {
    var k :| 0 <= k < |s.sent| && s.sent[k].DevicesRegistered? && s.sent[k].deviceUuids == m
             && OwnName(s, s.sent[k].topicUuid, uid);
    assert s'.sent[k] == s.sent[k] && OwnName(s', s'.sent[k].topicUuid, uid);
  }

  lemma SentDeregisteredStays(s: Manager.State, s': Manager.State, uid: string)
    requires SentDeregistered(s, uid) && s.sent <= s'.sent && Manager.Extends(s, s')
    ensures SentDeregistered(s', uid)
  {
    var k :| 0 <= k < |s.sent| && s.sent[k].Deregistered? && OwnName(s, s.sent[k].topicUuid, uid);
    assert s'.sent[k] == s.sent[k] && OwnName(s', s'.sent[k].topicUuid, uid);
  }

  lemma SentGrows(s: Manager.State, me: Manager.Event)
    ensures s.sent <= Manager.Apply(s, me).sent
  {
  }

  lemma SentStays(s: Manager.State, me: Manager.Event, m: map<string, SensorUuids>, uid: string)
    requires Manager.Sound(s)
    ensures SentDevices(s, m, uid) ==> SentDevices(Manager.Apply(s, me), m, uid)
    ensures SentDeregistered(s, uid) ==> SentDeregistered(Manager.Apply(s, me), uid)
  {
    Manager.ApplyExtends(s, me);
    SentGrows(s, me);
    if SentDevices(s, m, uid) {
      SentDevicesStays(s, Manager.Apply(s, me), m, uid);
    }
    if SentDeregistered(s, uid) {
      SentDeregisteredStays(s, Manager.Apply(s, me), uid);
    }
  }

  /** What the agent holds comes from replies to agents that registered under its own uid. */
  ghost predicate Believes(w: World) {
    && (w.agent.registered <==> w.agent.uuid.Some?)
    && (w.agent.uuid.Some? ==> OwnName(w.manager, w.agent.uuid.value, w.agent.uid))
    && (w.agent.deviceUuids != map[] ==> SentDevices(w.manager, w.agent.deviceUuids, w.agent.uid))
    && (w.agent.deregistered ==> SentDeregistered(w.manager, w.agent.uid))
  }

  lemma ManagerKeeps(w: World, me: Manager.Event)
    requires Manager.Sound(w.manager) && Believes(w)
    ensures Believes(Next(w, ManagerEvent(me)))
  {
    Manager.ApplyExtends(w.manager, me);
    SentStays(w.manager, me, w.agent.deviceUuids, w.agent.uid);
  }

  lemma DeliveryKeeps(w: World, k: nat)
    requires Manager.Sound(w.manager) && Believes(w) && k < |w.manager.sent|
    ensures Believes(Next(w, Delivery(k)))
  {
    var r := w.manager.sent[k];
    assert Manager.ReplySound(w.manager, r);
    PayloadOfTopic(r, w.agent.uid);
    if w.agent.uuid.Some? {
      DevicePayloadOfTopic(r, w.agent.uuid.value);
      DeregisterPayloadOfTopic(r, w.agent.uuid.value);
    }
  }

  lemma NextKeeps(w: World, e: Event)
    requires Manager.Sound(w.manager) && Believes(w)
    ensures Manager.Sound(Next(w, e).manager) && Believes(Next(w, e)) && Next(w, e).agent.uid == w.agent.uid
  {
    match e
    case ManagerEvent(me) =>
      Manager.ApplySound(w.manager, me);
      ManagerKeeps(w, me);
    case Delivery(k) =>
      if k < |w.manager.sent| {
        DeliveryKeeps(w, k);
      }
  }

  /** An agent never takes on what belongs to another: under every interleaving of handlers, every
      redelivery of requests and every delay or repetition of replies, its UUID was saved for its own
      uid before, its device map is one that the manager sent to such a UUID, and it only believes
      itself deregistered if the manager told such a UUID so. */
  lemma {:induction false} AgentKeepsItsOwn(uid: string, es: seq<Event>)
    ensures Manager.Sound(Run(uid, es).manager) && Believes(Run(uid, es)) && Run(uid, es).agent.uid == uid
  {
    if es != [] {
      var k := |es| - 1;
      AgentKeepsItsOwn(uid, es[..k]);
      NextKeeps(Run(uid, es[..k]), es[k]);
    }
  }

  // ---------- Whose device map it is ----------

  /** The UUID in the last registration response delivered. */
  function LastNamed(uid: string, es: seq<Event>): Option<Uuid> {
    if es == [] then None else
      var k := |es| - 1;
      var sent := Run(uid, es[..k]).manager.sent;
      if es[k].Delivery? && es[k].k < |sent| && sent[es[k].k].Registered? && sent[es[k].k].topicUid == uid
      then Some(sent[es[k].k].uuid) else LastNamed(uid, es[..k])
  }

  /** Event i delivers the device response to UUID u, with map m, while the agent goes by u. */
  predicate Takes(uid: string, es: seq<Event>, i: nat, u: Uuid, m: map<string, SensorUuids>)
    requires i < |es|
  {
    var w := Run(uid, es[..i]);
    && es[i].Delivery? && es[i].k < |w.manager.sent|
    && w.manager.sent[es[i].k] == DevicesRegistered(u, m) && w.agent.uuid == Some(u)
  }

  /** The agent goes by the UUID that the last registration response named. */
  lemma {:induction false} GoesByLastNamed(uid: string, es: seq<Event>)
    ensures Run(uid, es).agent.uuid == LastNamed(uid, es) && Run(uid, es).agent.uid == uid
  {
    if es != [] {
      var k := |es| - 1;
      GoesByLastNamed(uid, es[..k]);
      var w := Run(uid, es[..k]);
      if es[k].Delivery? && es[k].k < |w.manager.sent| {
        PayloadOfTopic(w.manager.sent[es[k].k], uid);
      }
    }
  }

  /** What one delivery does to the device map. */
  lemma MapStep(a: Agent, r: Reply)
    ensures var a' := Received(a, TopicOf(r), r).0;
            if r.DevicesRegistered? && a.uuid == Some(r.topicUuid) then a'.deviceUuids == r.deviceUuids
            else a'.deviceUuids == a.deviceUuids
  {
    PayloadOfTopic(r, a.uid);
    if a.uuid.Some? {
      DevicePayloadOfTopic(r, a.uuid.value);
    }
  }

  lemma StepOf(uid: string, es: seq<Event>, i: nat)
    requires i < |es|
    ensures Run(uid, es[..i + 1]) == Next(Run(uid, es[..i]), es[i])
  {
    assert es[..i + 1][..i] == es[..i];
  }

  ghost predicate NeverTakes(uid: string, es: seq<Event>, a: nat, b: nat)
    requires b <= |es|
  {
    forall j: nat, u, m :: a <= j < b ==> !Takes(uid, es, j, u, m)
  }

  /** Event i is the last of the first n in which the agent takes a map, and it still has that map. */
  ghost predicate TakenLast(uid: string, es: seq<Event>, n: nat, i: nat, u: Uuid)
    requires n <= |es|
  {
    i < n && Takes(uid, es, i, u, Run(uid, es[..n]).agent.deviceUuids) && NeverTakes(uid, es, i + 1, n)
  }

  /** Either event k takes the map that the agent then holds, or the map stays. */
  lemma MapAfter(uid: string, es: seq<Event>, k: nat) returns (taken: Option<Uuid>)
    requires k < |es|
    ensures taken.Some? ==> TakenLast(uid, es, k + 1, k, taken.value)
    ensures taken.None? ==> NeverTakes(uid, es, k, k + 1)
                            && Run(uid, es[..k + 1]).agent.deviceUuids == Run(uid, es[..k]).agent.deviceUuids
  {
    taken := None;
    StepOf(uid, es, k);
    var w, e := Run(uid, es[..k]), es[k];
    if e.Delivery? && e.k < |w.manager.sent| {
      var r := w.manager.sent[e.k];
      MapStep(w.agent, r);
      if r.DevicesRegistered? && w.agent.uuid == Some(r.topicUuid) {
        taken := Some(r.topicUuid);
      }
    }
  }

  lemma TakenStays(uid: string, es: seq<Event>, k: nat, i: nat, u: Uuid)
    requires k < |es| && TakenLast(uid, es, k, i, u) && NeverTakes(uid, es, k, k + 1)
    requires Run(uid, es[..k + 1]).agent.deviceUuids == Run(uid, es[..k]).agent.deviceUuids
    ensures TakenLast(uid, es, k + 1, i, u)
  {
  }

  ghost predicate HasMap(uid: string, es: seq<Event>, n: nat)
    requires n <= |es|
  {
    n > 0 && Run(uid, es[..n]).agent.deviceUuids != map[]
  }

  lemma NoMapAtFirst(uid: string, es: seq<Event>, n: nat)
    requires n <= |es|
    ensures Run(uid, es[..n]).agent.deviceUuids != map[] ==> HasMap(uid, es, n)
  {
  }

  lemma TakenUpTo(uid: string, es: seq<Event>, k: nat) returns (i: nat, u: Uuid, earlier: bool)
    requires k < |es| && HasMap(uid, es, k + 1)
    ensures !earlier ==> TakenLast(uid, es, k + 1, i, u)
    ensures earlier ==> HasMap(uid, es, k)
    ensures earlier ==> forall j, v :: TakenLast(uid, es, k, j, v) ==> TakenLast(uid, es, k + 1, j, v)
  {
    var taken := MapAfter(uid, es, k);
    earlier := taken.None?;
    if taken.Some? {
      i, u := k, taken.value;
    } else {
      i, u := 0, 0;
      NoMapAtFirst(uid, es, k);
      forall j, v | TakenLast(uid, es, k, j, v)
        ensures TakenLast(uid, es, k + 1, j, v)
      {
        TakenStays(uid, es, k, j, v);
      }
    }
  }

  /** A map that is there was taken, and stays until the next one is taken. */
  lemma {:induction false} LastTaken(uid: string, es: seq<Event>, n: nat) returns (i: nat, u: Uuid)
    requires n <= |es| && HasMap(uid, es, n)
    ensures TakenLast(uid, es, n, i, u)
  {
    var earlier;
    i, u, earlier := TakenUpTo(uid, es, n - 1);
    if earlier {
      i, u := LastTaken(uid, es, n - 1);
    }
  }

  /** Whose device map it is. The map that an agent holds was sent to the UUID u that the last
      registration response before it named; and it is the map of the UUID that the agent goes by now
      if and only if the last registration response up to now still names u. */
  lemma MapAgreesIff(uid: string, es: seq<Event>) returns (i: nat, u: Uuid)
    requires Run(uid, es).agent.deviceUuids != map[]
    ensures i < |es| && Takes(uid, es, i, u, Run(uid, es).agent.deviceUuids)
    ensures NeverTakes(uid, es, i + 1, |es|)
    ensures LastNamed(uid, es[..i]) == Some(u)
    ensures Run(uid, es).agent.uuid == Some(u) <==> LastNamed(uid, es) == Some(u)
  {
    assert es[..|es|] == es;
    NoMapAtFirst(uid, es, |es|);
    i, u := LastTaken(uid, es, |es|);
    GoesByLastNamed(uid, es);
    GoesByLastNamed(uid, es[..i]);
  }

  lemma RunSnoc(uid: string, es: seq<Event>, e: Event)
    ensures Run(uid, es + [e]) == Next(Run(uid, es), e)
  {
    assert (es + [e])[..|es|] == es;
  }

  /** A request that is handled undisturbed, by thread tid. */
  function Serve(tid: nat, req: Request): seq<Event> {
    [ManagerEvent(Manager.Arrive(req)), ManagerEvent(Manager.Step(tid)), ManagerEvent(Manager.Step(tid)),
     ManagerEvent(Manager.Step(tid)), ManagerEvent(Manager.Step(tid))]
  }

  lemma Stepped(uid: string, es: seq<Event>, w: World, tid: nat)
    requires Run(uid, es) == w && tid < |w.manager.threads|
    ensures Run(uid, es + [ManagerEvent(Manager.Step(tid))]) == w.(manager := Manager.Advance(w.manager, tid))
  {
    RunSnoc(uid, es, ManagerEvent(Manager.Step(tid)));
  }

  lemma SteppedTwice(uid: string, es: seq<Event>, w: World, tid: nat)
    requires Run(uid, es) == w && tid < |w.manager.threads|
    ensures var step := ManagerEvent(Manager.Step(tid));
            Run(uid, es + [step] + [step])
            == w.(manager := Manager.Advance(Manager.Advance(w.manager, tid), tid))
  {
    Stepped(uid, es, w, tid);
    Stepped(uid, es + [ManagerEvent(Manager.Step(tid))], w.(manager := Manager.Advance(w.manager, tid)), tid);
  }

  lemma ServedFrom(uid: string, es: seq<Event>, w: World, s: Manager.State, tid: nat)
    requires Run(uid, es) == w.(manager := s) && tid < |s.threads|
    ensures var step := ManagerEvent(Manager.Step(tid));
            var s1 := Manager.Advance(s, tid);
            var s2 := Manager.Advance(s1, tid);
            var s3 := Manager.Advance(s2, tid);
            Run(uid, es + [step] + [step] + [step] + [step]) == w.(manager := Manager.Advance(s3, tid))
  {
    var step := ManagerEvent(Manager.Step(tid));
    SteppedTwice(uid, es, w.(manager := s), tid);
    SteppedTwice(uid, es + [step] + [step],
                 w.(manager := Manager.Advance(Manager.Advance(s, tid), tid)), tid);
  }

  lemma ServeInSteps(es: seq<Event>, tid: nat, req: Request)
    ensures var step := ManagerEvent(Manager.Step(tid));
            es + Serve(tid, req)
            == es + [ManagerEvent(Manager.Arrive(req))] + [step] + [step] + [step] + [step]
  {
  }

  lemma Served(uid: string, es: seq<Event>, req: Request)
    ensures var w := Run(uid, es);
            Run(uid, es + Serve(|w.manager.threads|, req)) == w.(manager := Manager.Undisturbed(w.manager, req))
  {
    var w := Run(uid, es);
    RunSnoc(uid, es, ManagerEvent(Manager.Arrive(req)));
    ServedFrom(uid, es + [ManagerEvent(Manager.Arrive(req))], w,
               Manager.Apply(w.manager, Manager.Arrive(req)), |w.manager.threads|);
    ServeInSteps(es, |w.manager.threads|, req);
  }

  const SWITCH := Device(None, "switch", [])

  /** An agent registers twice, and takes the first reply. */
  const REGISTERED: seq<Event> :=
    [] + Serve(0, Register("uid", "name")) + Serve(1, Register("uid", "name")) + [Delivery(0)]

  lemma AfterFirst()
    ensures var w := Run("uid", [] + Serve(0, Register("uid", "name")));
            && Manager.Stored(w.manager) == Store(2, 1, map[0 := AgentData(1, "uid", 0, "name", [])])
            && w.manager.sent == [Registered("uid", "uid", 0)] && w.manager.threads == [Manager.Finished]
            && w.agent == NewAgent("uid")
  {
    Served("uid", [], Register("uid", "name"));
    Manager.AloneIsAtomic(Manager.START, Register("uid", "name"));
  }

  lemma AfterRegistered()
    ensures var w := Run("uid", REGISTERED);
            && w.manager.sent == [Registered("uid", "uid", 0), Registered("uid", "uid", 1)]
            && 0 in w.manager.hash && (forall u :: u in w.manager.hash ==> w.manager.hash[u].uuid == u)
            && |w.manager.threads| == 2
            && w.agent == Received(NewAgent("uid"), TopicOf(w.manager.sent[0]), w.manager.sent[0]).0
  {
    var es1 := [] + Serve(0, Register("uid", "name"));
    var es2 := es1 + Serve(1, Register("uid", "name"));
    AfterFirst();
    var s1 := Run("uid", es1).manager;
    Served("uid", es1, Register("uid", "name"));
    Manager.AloneIsAtomic(s1, Register("uid", "name"));
    var s2 := Run("uid", es2).manager;
    assert Manager.Stored(s2).agents == map[0 := AgentData(1, "uid", 0, "name", []),
                                            1 := AgentData(2, "uid", 1, "name", [])];
    assert s2.sent == [Registered("uid", "uid", 0), Registered("uid", "uid", 1)];
    RunSnoc("uid", es2, Delivery(0));
  }

  /** It announces a device, takes the answer, and then the second registration response. */
  const RENAMED: seq<Event> :=
    REGISTERED + Serve(2, DeviceList(0, [SWITCH])) + [Delivery(2)] + [Delivery(1)]

  /** An agent can hold the device map of a UUID it no longer goes by. */
  lemma MapOfAnotherUuid()
    ensures var a, sent := Run("uid", RENAMED).agent, Run("uid", RENAMED).manager.sent;
            && a.uuid == Some(1) && a.deviceUuids != map[]
            && |sent| == 3 && sent[2] == DevicesRegistered(0, a.deviceUuids)
  {
    AfterRegistered();
    var s := Run("uid", REGISTERED).manager;
    var es := REGISTERED + Serve(2, DeviceList(0, [SWITCH]));
    Served("uid", REGISTERED, DeviceList(0, [SWITCH]));
    Manager.AloneIsAtomic(s, DeviceList(0, [SWITCH]));
    KeyPresent(DeviceEntries(AssignDevices([SWITCH], s.gen)), 0);
    var sent := Run("uid", es).manager.sent;
    RunSnoc("uid", es, Delivery(2));
    RunSnoc("uid", es + [Delivery(2)], Delivery(1));
    MapStep(Run("uid", es).agent, sent[2]);
    MapStep(Run("uid", es + [Delivery(2)]).agent, sent[1]);
  }

  // ---------- What an agent notices ----------

  /** Event i delivers reply r. */
  predicate Delivers(uid: string, es: seq<Event>, i: nat, r: Reply)
    requires i < |es|
  {
    && es[i].Delivery? && es[i].k < |Run(uid, es[..i]).manager.sent|
    && Run(uid, es[..i]).manager.sent[es[i].k] == r
  }

  /** A reply about the UUID that the agent goes by. */
  predicate About(a: Agent, r: Reply) {
    match r
    case DevicesRegistered(u, _) => a.uuid == Some(u)
    case Deregistered(u, _) => a.uuid == Some(u)
    case _ => false
  }

  lemma OwnTopics(a: Agent, r: Reply)
    ensures TopicOf(r) == ResponseTopic(Registration, a.uid) <==> r.Registered? && r.topicUid == a.uid
    ensures a.uuid.Some? ==>
              (TopicOf(r) == ResponseTopic(DeviceRegistration, Str(a.uuid.value)) <==>
                 r.DevicesRegistered? && r.topicUuid == a.uuid.value)
    ensures a.uuid.Some? ==>
              (TopicOf(r) == ResponseTopic(Deregistration, Str(a.uuid.value)) <==>
                 r.Deregistered? && r.topicUuid == a.uuid.value)
  {
    PayloadOfTopic(r, a.uid);
    if a.uuid.Some? {
      DevicePayloadOfTopic(r, a.uuid.value);
      DeregisterPayloadOfTopic(r, a.uuid.value);
    }
  }

  lemma FamiliesApart(k: string, l: string)
    ensures ResponseTopic(Registration, k) != ResponseTopic(DeviceRegistration, l)
    ensures ResponseTopic(Registration, k) != ResponseTopic(Deregistration, l)
    ensures ResponseTopic(DeviceRegistration, k) != ResponseTopic(Deregistration, l)
  {
    ResponsesInjective(Registration, DeviceRegistration, k, l);
    ResponsesInjective(Registration, Deregistration, k, l);
    ResponsesInjective(DeviceRegistration, Deregistration, k, l);
  }

  /** The topic on which the agent expects responses of family f to the UUID that it goes by. */
  predicate Expected(a: Agent, f: Family, topic: string) {
    a.uuid.Some? && topic == ResponseTopic(f, Str(a.uuid.value))
  }

  /** What any payload on any topic does. A registration response sets its flag even where the UUID is
      missing from it; a device response for another UUID sets the flag but leaves the map alone. */
  lemma AnyPayload(a: Agent, topic: string, r: Reply)
    ensures var (a', raised) := Received(a, topic, r);
            var registers := topic == ResponseTopic(Registration, a.uid);
            && a'.uid == a.uid
            && (a'.registered <==> a.registered || registers)
            && a'.uuid == (if registers && UuidField(r).Some? then UuidField(r) else a.uuid)
            && (a'.devicesRegistered <==>
                  a.devicesRegistered || (Expected(a, DeviceRegistration, topic) && !raised))
            && (Expected(a, DeviceRegistration, topic) && r.DevicesRegistered? && a.uuid == Some(r.topicUuid) ==>
                  a'.deviceUuids == r.deviceUuids)
            && (a'.deviceUuids != a.deviceUuids ==>
                  Expected(a, DeviceRegistration, topic) && r.DevicesRegistered? && a.uuid == Some(r.topicUuid))
            && (a'.deregistered <==> a.deregistered || Expected(a, Deregistration, topic))
            && (raised <==>
                  if registers then UuidField(r).None?
                  else a.uuid.None? || (Expected(a, DeviceRegistration, topic)
                                        && (UuidField(r).None? || (UuidField(r) == a.uuid && !r.DevicesRegistered?))))
  {
    if a.uuid.Some? {
      FamiliesApart(a.uid, Str(a.uuid.value));
      FamiliesApart(Str(a.uuid.value), Str(a.uuid.value));
    }
  }

  /** What one delivery does to the flags; and it raises exactly if the agent has no UUID yet and this
      reply does not give it one. */
  lemma FlagStep(a: Agent, r: Reply)
    ensures var (a', raised) := Received(a, TopicOf(r), r);
            && (a'.registered <==> a.registered || (r.Registered? && r.topicUid == a.uid))
            && (a'.devicesRegistered <==> a.devicesRegistered || (r.DevicesRegistered? && About(a, r)))
            && (a'.deregistered <==> a.deregistered || (r.Deregistered? && About(a, r)))
            && (raised <==> a.uuid.None? && !(r.Registered? && r.topicUid == a.uid))
  {
    OwnTopics(a, r);
    AnyPayload(a, TopicOf(r), r);
  }

  /** Event i makes the agent notice that it was deregistered, or that its devices were registered. */
  ghost predicate HearsDeregistered(uid: string, es: seq<Event>, i: nat)
    requires i < |es|
  {
    exists r :: Delivers(uid, es, i, r) && r.Deregistered? && About(Run(uid, es[..i]).agent, r)
  }

  ghost predicate HearsDevices(uid: string, es: seq<Event>, i: nat)
    requires i < |es|
  {
    exists r :: Delivers(uid, es, i, r) && r.DevicesRegistered? && About(Run(uid, es[..i]).agent, r)
  }

  ghost predicate HearsRegistered(uid: string, es: seq<Event>, i: nat)
    requires i < |es|
  {
    exists r :: Delivers(uid, es, i, r) && r.Registered? && r.topicUid == uid
  }

  lemma HearsNow(uid: string, es: seq<Event>, i: nat)
    requires i < |es|
    ensures var a, a' := Run(uid, es[..i]).agent, Run(uid, es[..i + 1]).agent;
            && (a'.registered <==> a.registered || HearsRegistered(uid, es, i))
            && (a'.devicesRegistered <==> a.devicesRegistered || HearsDevices(uid, es, i))
            && (a'.deregistered <==> a.deregistered || HearsDeregistered(uid, es, i))
  {
    StepOf(uid, es, i);
    GoesByLastNamed(uid, es[..i]);
    var w := Run(uid, es[..i]);
    if es[i].Delivery? && es[i].k < |w.manager.sent| {
      var r := w.manager.sent[es[i].k];
      assert Delivers(uid, es, i, r);
      FlagStep(w.agent, r);
    }
  }

  ghost predicate HeardRegistered(uid: string, es: seq<Event>, n: nat)
    requires n <= |es|
  {
    exists i :: 0 <= i < n && HearsRegistered(uid, es, i)
  }

  ghost predicate HeardDevices(uid: string, es: seq<Event>, n: nat)
    requires n <= |es|
  {
    exists i :: 0 <= i < n && HearsDevices(uid, es, i)
  }

  ghost predicate HeardDeregistered(uid: string, es: seq<Event>, n: nat)
    requires n <= |es|
  {
    exists i :: 0 <= i < n && HearsDeregistered(uid, es, i)
  }

  lemma RegisteredOneMore(uid: string, es: seq<Event>, n: nat)
    requires n < |es|
    ensures HeardRegistered(uid, es, n + 1) <==> HeardRegistered(uid, es, n) || HearsRegistered(uid, es, n)
  {
  }

  lemma DevicesOneMore(uid: string, es: seq<Event>, n: nat)
    requires n < |es|
    ensures HeardDevices(uid, es, n + 1) <==> HeardDevices(uid, es, n) || HearsDevices(uid, es, n)
  {
  }

  lemma DeregisteredOneMore(uid: string, es: seq<Event>, n: nat)
    requires n < |es|
    ensures HeardDeregistered(uid, es, n + 1) <==> HeardDeregistered(uid, es, n) || HearsDeregistered(uid, es, n)
  {
  }

  ghost predicate FlagsTrue(uid: string, es: seq<Event>, n: nat)
    requires n <= |es|
  {
    var a := Run(uid, es[..n]).agent;
    && (a.registered <==> HeardRegistered(uid, es, n))
    && (a.devicesRegistered <==> HeardDevices(uid, es, n))
    && (a.deregistered <==> HeardDeregistered(uid, es, n))
  }

  lemma FlagsStay(uid: string, es: seq<Event>, n: nat)
    requires n < |es| && FlagsTrue(uid, es, n)
    ensures FlagsTrue(uid, es, n + 1)
  {
    HearsNow(uid, es, n);
    RegisteredOneMore(uid, es, n);
    DevicesOneMore(uid, es, n);
    DeregisteredOneMore(uid, es, n);
  }

  /** Each flag of the agent is set if and only if some event so far has delivered the reply it stands
      for: to its own uid, or to the UUID that it went by at that moment. So an agent that waits for
      its deregistration notices it just when the response arrives. */
  lemma {:induction false} FlagsTellTheTruth(uid: string, es: seq<Event>, n: nat)
    requires n <= |es|
    ensures FlagsTrue(uid, es, n)
  {
    if n == 0 {
      assert Run(uid, es[..0]).agent == NewAgent(uid);
    } else {
      FlagsTellTheTruth(uid, es, n - 1);
      FlagsStay(uid, es, n - 1);
    }
  }
}
