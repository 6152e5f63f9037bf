/** The three request handlers over either repository, each run as one atomic step. */
module Listeners {
  import opened Records
  import opened Wrappers
  import opened Agents
  import opened Repositories

  /** What a repository and the generator stand for: ids count from 0 in memory, from 1 in Redis. */
  ghost function InMemory(m: AgentMemoryRepository, gen: UuidGenerator): Store
    reads m, m.agents, gen
  {
    Store(m.index, gen.next, m.View())
  }

  ghost function InRedis(r: AgentRedisRepository, gen: UuidGenerator): Store
    reads r, gen
  {
    Store(r.counter + 1, gen.next, r.hash)
  }

  method AssignUuids(devices: seq<Device>, gen: UuidGenerator) returns (named: seq<Device>)
    modifies gen
    ensures named == AssignDevices(devices, old(gen.next))
    ensures gen.next == old(gen.next) + NamesIn(devices)
  {
    named := [];
    var i := 0;
    while i < |devices|
      invariant i <= |devices|
      invariant named == AssignDevices(devices[..i], old(gen.next))
      invariant gen.next == old(gen.next) + NamesIn(devices[..i])
    {
      assert devices[..i + 1][..i] == devices[..i];
      var first := gen.next;
      var uuid := gen.RandomUUID();
      var sensors: seq<Sensor> := [];
      var j := 0;
      while j < |devices[i].sensors|
        invariant j <= |devices[i].sensors|
        invariant sensors == AssignSensors(devices[i].sensors, first + 1)[..j]
        invariant gen.next == first + 1 + j
      {
        var sensorUuid := gen.RandomUUID();
        sensors := sensors + [devices[i].sensors[j].(uuid := Some(sensorUuid))];
        j := j + 1;
      }
      assert sensors == AssignSensors(devices[i].sensors, first + 1);
      named := named + [Device(Some(uuid), devices[i].id, sensors)];
      i := i + 1;
    }
    assert devices[..i] == devices;
  }

  method BuildResponseMap(devices: seq<Device>) returns (uuids: map<string, SensorUuids>)
    ensures uuids == ResponseMap(devices)
  {
    uuids := map[];
    ghost var entries := DeviceEntries(devices);
    var i := 0;
    while i < |devices|
      invariant i <= |devices| && uuids == PutAll(entries[..i])
    {
      assert entries[..i + 1][..i] == entries[..i];
      var sensorUuids := BuildSensorMap(devices[i].sensors);
      uuids := uuids[devices[i].id := SensorUuids(devices[i].uuid, sensorUuids)];
      i := i + 1;
    }
    assert entries[..i] == entries;
  }

  method BuildSensorMap(sensors: seq<Sensor>) returns (uuids: map<string, Option<Uuid>>)
    ensures uuids == PutAll(SensorEntries(sensors))
  {
    uuids := map[];
    ghost var entries := SensorEntries(sensors);
    var j := 0;
    while j < |sensors|
      invariant j <= |sensors| && uuids == PutAll(entries[..j])
    {
      assert entries[..j + 1][..j] == entries[..j];
      uuids := uuids[sensors[j].id := sensors[j].uuid];
      j := j + 1;
    }
    assert entries[..j] == entries;
  }

  class MemoryListeners {
    const repository: AgentMemoryRepository
    const gen: UuidGenerator

    constructor (repository: AgentMemoryRepository, gen: UuidGenerator)
      ensures this.repository == repository && this.gen == gen
    {
      this.repository, this.gen := repository, gen;
    }

    ghost predicate Valid()
      reads this, repository, repository.agents, gen
    {
      repository.Valid() && Sound(InMemory(repository, gen))
    }

    method ProcessRegistration(uid: string, name: string) returns (reply: Reply)
      requires Valid()
      modifies repository, gen
      ensures Valid()
      ensures (InMemory(repository, gen), reply) == Handled(old(InMemory(repository, gen)), Register(uid, name))
      ensures fresh(repository.Shared() - old(repository.Shared()))
    {
      var agent := repository.Create(uid, name, gen);
      var _ := repository.Save(agent);
      reply := Registered(uid, uid, agent.uuid);
    }

    method ProcessDeregistration(uuid: Uuid) returns (reply: Reply)
      requires Valid()
      modifies repository
      ensures Valid()
      ensures (InMemory(repository, gen), reply) == Handled(old(InMemory(repository, gen)), Deregister(uuid))
      ensures repository.Shared() <= old(repository.Shared())
    {
      var agent := repository.Get(uuid);
      if agent == null {
        return NotFound(uuid);
      }
      var success := repository.Delete(agent);
      reply := Deregistered(uuid, success);
    }

    /** The assignment to the shared object is what stores the devices; `update` does nothing. */
    method ProcessDeviceList(agentUuid: Uuid, payload: seq<Device>) returns (reply: Reply)
      requires Valid()
      modifies repository.Shared(), gen
      ensures repository.agents == old(repository.agents) && Valid()
      ensures (InMemory(repository, gen), reply)
           == Handled(old(InMemory(repository, gen)), DeviceList(agentUuid, payload))
    {
      ghost var before := InMemory(repository, gen);
      HandledSound(before, DeviceList(agentUuid, payload));
      var devices := AssignUuids(payload, gen);
      assert InMemory(repository, gen) == before.(gen := before.gen + NamesIn(payload));
      var agent := repository.Get(agentUuid);
      if agent == null {
        return NotFound(agentUuid);
      }
      SetDevices(repository, agent, devices);
      assert InMemory(repository, gen) == Handled(before, DeviceList(agentUuid, payload)).0;
      var _ := repository.Update(agent);
      var uuids := BuildResponseMap(devices);
      reply := DevicesRegistered(agentUuid, uuids);
    }

    /** One request at a time, each to its listener. */
    method ServeAll(reqs: seq<Request>) returns (replies: seq<Reply>)
      requires Valid()
      modifies repository, repository.Shared(), gen
      ensures Valid()
      ensures (InMemory(repository, gen), replies) == HandledAll(old(InMemory(repository, gen)), reqs)
    {
      replies := [];
      var i := 0;
      while i < |reqs|
        invariant i <= |reqs| && Valid()
        invariant fresh(repository.Shared() - old(repository.Shared()))
        invariant (InMemory(repository, gen), replies) == HandledAll(old(InMemory(repository, gen)), reqs[..i])
      {
        assert reqs[..i + 1][..i] == reqs[..i];
        var reply: Reply;
        match reqs[i] {
          case Register(uid, name) => reply := ProcessRegistration(uid, name);
          case DeviceList(uuid, devices) => reply := ProcessDeviceList(uuid, devices);
          case Deregister(uuid) => reply := ProcessDeregistration(uuid);
        }
        replies := replies + [reply];
        i := i + 1;
      }
      assert reqs[..i] == reqs;
    }
  }

  class RedisListeners {
    const repository: AgentRedisRepository
    const gen: UuidGenerator

    constructor (repository: AgentRedisRepository, gen: UuidGenerator)
      ensures this.repository == repository && this.gen == gen
    {
      this.repository, this.gen := repository, gen;
    }

    ghost predicate Valid()
      reads this, repository, gen
    {
      Sound(InRedis(repository, gen))
    }

    method ProcessRegistration(uid: string, name: string) returns (reply: Reply)
      requires Valid()
      modifies repository, gen
      ensures Valid()
      ensures (InRedis(repository, gen), reply) == Handled(old(InRedis(repository, gen)), Register(uid, name))
    {
      var agent := repository.Create(uid, name, gen);
      var _ := repository.Save(agent);
      reply := Registered(uid, uid, agent.uuid);
    }

    method ProcessDeregistration(uuid: Uuid) returns (reply: Reply)
      requires Valid()
      modifies repository
      ensures Valid()
      ensures (InRedis(repository, gen), reply) == Handled(old(InRedis(repository, gen)), Deregister(uuid))
    {
      var agent := repository.Get(uuid);
      if agent == null {
        return NotFound(uuid);
      }
      var success := repository.Delete(agent);
      reply := Deregistered(uuid, success);
    }

    /** The assignment changes a copy; `update` is what stores the devices. */
    method ProcessDeviceList(agentUuid: Uuid, payload: seq<Device>) returns (reply: Reply)
      requires Valid()
      modifies repository, gen
      ensures Valid()
      ensures (InRedis(repository, gen), reply)
           == Handled(old(InRedis(repository, gen)), DeviceList(agentUuid, payload))
    {
      var devices := AssignUuids(payload, gen);
      var agent := repository.Get(agentUuid);
      if agent == null {
        return NotFound(agentUuid);
      }
      agent.devices := devices;
      var _ := repository.Update(agent);
      var uuids := BuildResponseMap(devices);
      reply := DevicesRegistered(agentUuid, uuids);
    }

    /** One request at a time, each to its listener. */
    method ServeAll(reqs: seq<Request>) returns (replies: seq<Reply>)
      requires Valid()
      modifies repository, gen
      ensures Valid()
      ensures (InRedis(repository, gen), replies) == HandledAll(old(InRedis(repository, gen)), reqs)
    {
      replies := [];
      var i := 0;
      while i < |reqs|
        invariant i <= |reqs| && Valid()
        invariant (InRedis(repository, gen), replies) == HandledAll(old(InRedis(repository, gen)), reqs[..i])
      {
        assert reqs[..i + 1][..i] == reqs[..i];
        var reply: Reply;
        match reqs[i] {
          case Register(uid, name) => reply := ProcessRegistration(uid, name);
          case DeviceList(uuid, devices) => reply := ProcessDeviceList(uuid, devices);
          case Deregister(uuid) => reply := ProcessDeregistration(uuid);
        }
        replies := replies + [reply];
        i := i + 1;
      }
      assert reqs[..i] == reqs;
    }
  }
}
