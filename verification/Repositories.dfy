/** The two repositories as they are written: one keeps shared agent objects in a list and leaves
    `update` empty, the other keeps copies in a hash and has `update` store the agent again. The
    handlers run on either; both meet the same specification. */
module Repositories {
  import opened Records
  import opened Agents

  class UuidGenerator {
    var next: Uuid

    method RandomUUID() returns (u: Uuid)
      modifies this
      ensures u == old(next) && next == old(next) + 1
    {
      u := next;
      next := next + 1;
    }
  }

  class Agent {
    const id: int
    const uid: string
    const uuid: Uuid
    const name: string
    var devices: seq<Device>

    constructor (data: AgentData)
      ensures Data() == data
    {
      id, uid, uuid, name, devices := data.id, data.uid, data.uuid, data.name, data.devices;
    }

    function Data(): AgentData
      reads this
    {
      AgentData(id, uid, uuid, name, devices)
    }
  }

  // ---------- Lists of agents as maps ----------

  ghost predicate Distinct(ds: seq<AgentData>) {
    forall i, j :: 0 <= i < j < |ds| ==> ds[i].uuid != ds[j].uuid
  }

  ghost function ByUuid(ds: seq<AgentData>): map<Uuid, AgentData> {
    if ds == [] then map[] else ByUuid(ds[..|ds| - 1])[ds[|ds| - 1].uuid := ds[|ds| - 1]]
  }

  lemma {:induction false} Where(ds: seq<AgentData>, u: Uuid) returns (i: nat)
    requires u in ByUuid(ds)
    ensures i < |ds| && ds[i].uuid == u
  {
    var k := |ds| - 1;
    if ds[k].uuid == u {
      i := k;
    } else {
      i := Where(ds[..k], u);
    }
  }

  lemma {:induction false} StoredAt(ds: seq<AgentData>, i: nat)
    requires Distinct(ds) && i < |ds|
    ensures ds[i].uuid in ByUuid(ds) && ByUuid(ds)[ds[i].uuid] == ds[i]
  {
    if i < |ds| - 1 {
      StoredAt(ds[..|ds| - 1], i);
    }
  }

  lemma LastIsNew(ds: seq<AgentData>)
    requires Distinct(ds) && ds != []
    ensures Distinct(ds[..|ds| - 1]) && ds[|ds| - 1].uuid !in ByUuid(ds[..|ds| - 1])
  {
    if ds[|ds| - 1].uuid in ByUuid(ds[..|ds| - 1]) {
      var i := Where(ds[..|ds| - 1], ds[|ds| - 1].uuid);
    }
  }

  lemma {:induction false} SizeByUuid(ds: seq<AgentData>)
    requires Distinct(ds)
    ensures |ByUuid(ds)| == |ds|
  {
    if ds != [] {
      LastIsNew(ds);
      SizeByUuid(ds[..|ds| - 1]);
    }
  }

  lemma {:induction false} ByUuidUpdate(ds: seq<AgentData>, i: nat, d: AgentData)
    requires Distinct(ds) && i < |ds| && d.uuid == ds[i].uuid
    ensures ByUuid(ds[i := d]) == ByUuid(ds)[d.uuid := d]
  {
    var k := |ds| - 1;
    if i < k {
      ByUuidUpdate(ds[..k], i, d);
      assert ds[i := d][..k] == ds[..k][i := d];
    } else {
      assert ds[i := d][..k] == ds[..k];
    }
  }

  lemma ByUuidSnoc(ds: seq<AgentData>, d: AgentData)
    ensures ByUuid(ds + [d]) == ByUuid(ds)[d.uuid := d]
  {
    assert (ds + [d])[..|ds|] == ds;
  }

  lemma {:induction false} ByUuidRemove(ds: seq<AgentData>, i: nat)
    requires Distinct(ds) && i < |ds|
    ensures ByUuid(ds[..i] + ds[i + 1..]) == ByUuid(ds) - {ds[i].uuid}
  {
    var k := |ds| - 1;
    LastIsNew(ds);
    if i < k {
      ByUuidRemove(ds[..k], i);
      var rest := ds[..k][..i] + ds[..k][i + 1..];
      assert ds[..i] + ds[i + 1..] == rest + [ds[k]];
      ByUuidSnoc(rest, ds[k]);
      assert ds[k].uuid != ds[i].uuid;
    } else {
      assert ds[..i] + ds[i + 1..] == ds[..k];
    }
  }

  // ---------- The repository in memory ----------

  class AgentMemoryRepository {
    var index: nat
    var agents: seq<Agent>

    ghost predicate Valid()
      reads this`agents
    {
      forall i, j :: 0 <= i < j < |agents| ==> agents[i].uuid != agents[j].uuid
    }

    ghost function Contents(): (ds: seq<AgentData>)
      reads this`agents, agents
      ensures |ds| == |agents|
      ensures Valid() ==> Distinct(ds)
    {
      var list := agents;
      seq(|list|, i requires 0 <= i < |list| reads list => list[i].Data())
    }

    /** The agent objects that the list shares with its users. */
    ghost function Shared(): set<Agent>
      reads this`agents
    {
      set a | a in agents
    }

    ghost function View(): map<Uuid, AgentData>
      reads this`agents, agents
    {
      ByUuid(Contents())
    }

    constructor ()
      ensures Valid() && index == 0 && agents == [] && View() == map[]
    {
      index, agents := 0, [];
    }

    method Create(uid: string, name: string, gen: UuidGenerator) returns (agent: Agent)
      modifies this`index, gen
      ensures fresh(agent) && gen.next == old(gen.next) + 1 && index == old(index) + 1
      ensures agent.Data() == AgentData(old(index), uid, old(gen.next), name, [])
    {
      var id := index;
      index := index + 1;
      var uuid := gen.RandomUUID();
      agent := new Agent(AgentData(id, uid, uuid, name, []));
    }

    /** Appended whatever the list holds; a new UUID keeps the list free of repetitions. */
    method Save(agent: Agent) returns (ok: bool)
      modifies this`agents
      ensures ok && agents == old(agents) + [agent]
      ensures old(Valid() && agent.uuid !in View()) ==>
                Valid() && View() == old(View())[agent.uuid := agent.Data()]
    {
      ghost var ds := Contents();
      ghost var isNew := Valid() && agent.uuid !in View();
      if isNew {
        forall i | 0 <= i < |agents|
          ensures agents[i].uuid != agent.uuid
        {
          StoredAt(ds, i);
        }
      }
      agents := agents + [agent];
      ok := true;
      assert Contents()[..|ds|] == ds;
    }

    /** The agent is shared with the list, so there is nothing left to do. */
    method Update(agent: Agent) returns (same: Agent)
      ensures same == agent
    {
      same := agent;
    }

    /** `List.remove`: the first agent with equal contents goes. */
    method Delete(agent: Agent) returns (removed: bool)
      requires Valid()
      modifies this`agents
      ensures Valid()
      ensures removed <==> old(agent.uuid in View() && View()[agent.uuid] == agent.Data())
      ensures View() == if removed then old(View()) - {agent.uuid} else old(View())
      ensures forall a :: a in agents ==> a in old(agents)
    {
      var i := IndexOf(agent);
      removed := i < |agents|;
      if removed {
        StoredAt(Contents(), i);
        RemoveAt(i);
      } else if agent.uuid in View() {
        ghost var k := Where(Contents(), agent.uuid);
        StoredAt(Contents(), k);
      }
    }

    method RemoveAt(i: nat)
      requires Valid() && i < |agents|
      modifies this`agents
      ensures Valid()
      ensures View() == old(View()) - {old(agents)[i].uuid}
      ensures forall a :: a in agents ==> a in old(agents)
    {
      ghost var ds := Contents();
      ByUuidRemove(ds, i);
      agents := agents[..i] + agents[i + 1..];
      assert Contents() == ds[..i] + ds[i + 1..];
    }

    method IndexOf(agent: Agent) returns (i: nat)
      ensures i <= |agents|
      ensures i < |agents| ==> Contents()[i] == agent.Data()
      ensures i == |agents| ==> agent.Data() !in Contents()
    {
      i := 0;
      while i < |agents| && agents[i].Data() != agent.Data()
        invariant i <= |agents|
        invariant forall j :: 0 <= j < i ==> Contents()[j] != agent.Data()
      {
        i := i + 1;
      }
    }

    /** The stored object itself, or null for EntityNotFoundException. */
    method Get(uuid: Uuid) returns (agent: Agent?)
      requires Valid()
      ensures agent == null <==> uuid !in View()
      ensures agent != null ==> agent in agents && agent.uuid == uuid && View()[uuid] == agent.Data()
    {
      var i := 0;
      while i < |agents|
        invariant i <= |agents|
        invariant forall j :: 0 <= j < i ==> agents[j].uuid != uuid
      {
        if agents[i].uuid == uuid {
          StoredAt(Contents(), i);
          return agents[i];
        }
        i := i + 1;
      }
      agent := null;
      if uuid in View() {
        ghost var k := Where(Contents(), uuid);
      }
    }

    method Count() returns (n: nat)
      requires Valid()
      ensures n == |View()|
    {
      SizeByUuid(Contents());
      n := |agents|;
    }
  }

  /** Assigning to a shared agent is assigning to what the list stores. */
  method SetDevices(m: AgentMemoryRepository, agent: Agent, devices: seq<Device>)
    requires m.Valid() && agent in m.agents
    modifies agent
    ensures agent.uuid in old(m.View())
    ensures m.View() == old(m.View())[agent.uuid := old(m.View())[agent.uuid].(devices := devices)]
  {
    ghost var ds := m.Contents();
    ghost var k :| 0 <= k < |m.agents| && m.agents[k] == agent;
    StoredAt(ds, k);
    agent.devices := devices;
    assert m.Contents() == ds[k := agent.Data()];
    ByUuidUpdate(ds, k, agent.Data());
  }

  // ---------- The repository in Redis ----------

  class AgentRedisRepository {
    var counter: nat
    var hash: map<Uuid, AgentData>

    constructor ()
      ensures counter == 0 && hash == map[]
    {
      counter, hash := 0, map[];
    }

    method Create(uid: string, name: string, gen: UuidGenerator) returns (agent: Agent)
      modifies this`counter, gen
      ensures fresh(agent) && gen.next == old(gen.next) + 1 && counter == old(counter) + 1
      ensures agent.Data() == AgentData(old(counter) + 1, uid, old(gen.next), name, [])
    {
      counter := counter + 1;
      var uuid := gen.RandomUUID();
      agent := new Agent(AgentData(counter, uid, uuid, name, []));
    }

    /** `HSET` answers 1 for a new field only. */
    method Save(agent: Agent) returns (isNew: bool)
      modifies this`hash
      ensures hash == old(hash)[agent.uuid := agent.Data()] && (isNew <==> agent.uuid !in old(hash))
    {
      isNew := agent.uuid !in hash;
      hash := hash[agent.uuid := agent.Data()];
    }

    method Update(agent: Agent) returns (same: Agent)
      modifies this`hash
      ensures same == agent && hash == old(hash)[agent.uuid := agent.Data()]
    {
      var _ := Save(agent);
      same := agent;
    }

    method Delete(agent: Agent) returns (removed: bool)
      modifies this`hash
      ensures hash == old(hash) - {agent.uuid} && (removed <==> agent.uuid in old(hash))
    {
      removed := agent.uuid in hash;
      hash := hash - {agent.uuid};
    }

    /** A copy read back from what is stored, or null for EntityNotFoundException. */
    method Get(uuid: Uuid) returns (agent: Agent?)
      ensures agent == null <==> uuid !in hash
      ensures agent != null ==> fresh(agent) && agent.Data() == hash[uuid]
    {
      if uuid in hash {
        agent := new Agent(hash[uuid]);
      } else {
        agent := null;
      }
    }

    method Count() returns (n: nat)
      ensures n == |hash|
    {
      n := |hash|;
    }
  }
}
