/** Agents, devices and sensors as the framework manager stores them, its requests and replies, and
    what the three request handlers do when each runs as one atomic step. */
module Agents {
  import opened Records
  import opened Wrappers

  datatype Sensor = Sensor(uuid: Option<Uuid>, id: string)
  datatype Device = Device(uuid: Option<Uuid>, id: string, sensors: seq<Sensor>)
  datatype AgentData = AgentData(id: int, uid: string, uuid: Uuid, name: string, devices: seq<Device>)

  datatype Request =
    | Register(uid: string, name: string)
    | DeviceList(uuid: Uuid, devices: seq<Device>)
    | Deregister(uuid: Uuid)

  datatype SensorUuids = SensorUuids(uuid: Option<Uuid>, sensorUuids: map<string, Option<Uuid>>)

  /** A reply names the key of the topic it goes to first; a request for an agent that is not stored
      raises EntityNotFoundException, which is logged and not answered. */
  datatype Reply =
    | Registered(topicUid: string, uid: string, uuid: Uuid)
    | DevicesRegistered(topicUuid: Uuid, deviceUuids: map<string, SensorUuids>)
    | Deregistered(topicUuid: Uuid, success: bool)
    | NotFound(uuid: Uuid)

  // ---------- Assigning UUIDs ----------

  /** The generator is its next unused name. */
  function AssignSensors(ss: seq<Sensor>, gen: Uuid): (ss': seq<Sensor>)
    ensures |ss'| == |ss|
  {
    seq(|ss|, i requires 0 <= i < |ss| => ss[i].(uuid := Some(gen + i)))
  }

  function AssignDevice(d: Device, gen: Uuid): Device {
    Device(Some(gen), d.id, AssignSensors(d.sensors, gen + 1))
  }

  /** Names used up by a list of devices: one for each device and one for each of its sensors. */
  function NamesIn(ds: seq<Device>): nat {
    if ds == [] then 0 else NamesIn(ds[..|ds| - 1]) + 1 + |ds[|ds| - 1].sensors|
  }

  function AssignDevices(ds: seq<Device>, gen: Uuid): (ds': seq<Device>)
    ensures |ds'| == |ds|
  {
    if ds == [] then [] else
      var k := |ds| - 1;
      AssignDevices(ds[..k], gen) + [AssignDevice(ds[k], gen + NamesIn(ds[..k]))]
  }

  // ---------- The response map ----------

  /** `HashMap.put` in list order: a later entry replaces an earlier one with the same key. */
  function PutAll<V>(entries: seq<(string, V)>): map<string, V> {
    if entries == [] then map[] else
      var k := |entries| - 1;
      PutAll(entries[..k])[entries[k].0 := entries[k].1]
  }

  function SensorEntries(ss: seq<Sensor>): (es: seq<(string, Option<Uuid>)>)
    ensures |es| == |ss|
  {
    seq(|ss|, i requires 0 <= i < |ss| => (ss[i].id, ss[i].uuid))
  }

  function DeviceEntries(ds: seq<Device>): (es: seq<(string, SensorUuids)>)
    ensures |es| == |ds|
  {
    seq(|ds|, i requires 0 <= i < |ds| =>
      (ds[i].id, SensorUuids(ds[i].uuid, PutAll(SensorEntries(ds[i].sensors)))))
  }

  function ResponseMap(ds: seq<Device>): map<string, SensorUuids> {
    PutAll(DeviceEntries(ds))
  }

  // ---------- The atomic handlers ----------

  /** `next` is the id that the next agent gets, `gen` the next unused UUID. */
  datatype Store = Store(next: int, gen: Uuid, agents: map<Uuid, AgentData>)

  function Handled(s: Store, req: Request): (Store, Reply) {
    match req
    case Register(uid, name) =>
      (Store(s.next + 1, s.gen + 1, s.agents[s.gen := AgentData(s.next, uid, s.gen, name, [])]),
       Registered(uid, uid, s.gen))
    case DeviceList(uuid, devices) =>
      var named := AssignDevices(devices, s.gen);
      var s' := s.(gen := s.gen + NamesIn(devices));
      if uuid in s.agents then
        (s'.(agents := s.agents[uuid := s.agents[uuid].(devices := named)]),
         DevicesRegistered(uuid, ResponseMap(named)))
      else (s', NotFound(uuid))
    case Deregister(uuid) =>
      if uuid in s.agents then (s.(agents := s.agents - {uuid}), Deregistered(uuid, true))
      else (s, NotFound(uuid))
  }

  function HandledAll(s: Store, reqs: seq<Request>): (Store, seq<Reply>) {
    if reqs == [] then (s, []) else
      var k := |reqs| - 1;
      var (s', replies) := HandledAll(s, reqs[..k]);
      var (s'', reply) := Handled(s', reqs[k]);
      (s'', replies + [reply])
  }

  /** Requests handled in two goes: the second starts where the first ended, and its replies follow. */
  lemma {:induction false} HandledConcat(s: Store, a: seq<Request>, b: seq<Request>)
    ensures var (s1, first) := HandledAll(s, a);
            var (s2, second) := HandledAll(s1, b);
            HandledAll(s, a + b) == (s2, first + second)
  {
    if b == [] {
      assert a + b == a && HandledAll(s, a).1 + [] == HandledAll(s, a).1;
    } else {
      var k := |b| - 1;
      HandledConcat(s, a, b[..k]);
      assert (a + b)[..|a| + k] == a + b[..k];
      var (s1, first) := HandledAll(s, a);
      var (s2, second) := HandledAll(s1, b[..k]);
      var (_, reply) := Handled(s2, b[k]);
      assert first + second + [reply] == first + (second + [reply]);
    }
  }

  /** Names in use were drawn from the generator; every agent is stored under its own. */
  ghost predicate Sound(s: Store) {
    forall u :: u in s.agents ==> u < s.gen && s.agents[u].uuid == u
  }

  lemma HandledSound(s: Store, req: Request)
    requires Sound(s)
    ensures Sound(Handled(s, req).0)
  {
  }

  // ---------- One repository against the other ----------

  function Renumber(s: Store, offset: int): Store {
    Store(s.next + offset, s.gen, map u | u in s.agents :: s.agents[u].(id := s.agents[u].id + offset))
  }

  lemma RegisterRenumbered(s: Store, uid: string, name: string, offset: int)
    ensures var req := Register(uid, name);
            Handled(Renumber(s, offset), req) == (Renumber(Handled(s, req).0, offset), Handled(s, req).1)
  {
    var req := Register(uid, name);
    assert Handled(Renumber(s, offset), req).0.agents == Renumber(Handled(s, req).0, offset).agents;
  }

  lemma DevicesRenumbered(s: Store, uuid: Uuid, devices: seq<Device>, offset: int)
    ensures var req := DeviceList(uuid, devices);
            Handled(Renumber(s, offset), req) == (Renumber(Handled(s, req).0, offset), Handled(s, req).1)
  {
    var req := DeviceList(uuid, devices);
    assert Handled(Renumber(s, offset), req).0.agents == Renumber(Handled(s, req).0, offset).agents;
  }

  lemma DeregisterRenumbered(s: Store, uuid: Uuid, offset: int)
    ensures var req := Deregister(uuid);
            Handled(Renumber(s, offset), req) == (Renumber(Handled(s, req).0, offset), Handled(s, req).1)
  {
    var req := Deregister(uuid);
    assert Handled(Renumber(s, offset), req).0.agents == Renumber(Handled(s, req).0, offset).agents;
  }

  lemma HandledRenumbered(s: Store, req: Request, offset: int)
    ensures Handled(Renumber(s, offset), req) == (Renumber(Handled(s, req).0, offset), Handled(s, req).1)
  {
    match req
    case Register(uid, name) => RegisterRenumbered(s, uid, name, offset);
    case DeviceList(uuid, devices) => DevicesRenumbered(s, uuid, devices, offset);
    case Deregister(uuid) => DeregisterRenumbered(s, uuid, offset);
  }

  /** Whatever the requests, numbering agents from 1 instead of from 0 changes no reply and, but for
      the ids, no stored agent: the Redis repository counts from 1, the one in memory from 0. */
  lemma {:induction false} RepositoriesAgree(s: Store, reqs: seq<Request>, offset: int)
    ensures HandledAll(Renumber(s, offset), reqs) == (Renumber(HandledAll(s, reqs).0, offset), HandledAll(s, reqs).1)
  {
    if reqs != [] {
      var k := |reqs| - 1;
      RepositoriesAgree(s, reqs[..k], offset);
      HandledRenumbered(HandledAll(s, reqs[..k]).0, reqs[k], offset);
    }
  }

  /** Two new repositories that share the names to come: same replies, same agents, ids one apart. */
  lemma {:induction false} NewRepositoriesAgree(gen: Uuid, reqs: seq<Request>)
    ensures var memory, redis := HandledAll(Store(0, gen, map[]), reqs), HandledAll(Store(1, gen, map[]), reqs);
            memory.1 == redis.1 && redis.0 == Renumber(memory.0, 1)
  {
    assert Renumber(Store(0, gen, map[]), 1) == Store(1, gen, map[]);
    RepositoriesAgree(Store(0, gen, map[]), reqs, 1);
  }
}
