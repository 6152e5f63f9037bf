/** The UUIDs of devices and sensors on their way from the manager's repository through the nested
    response map to the lookups that an agent makes when it sends data. */
module DeviceRegistration {
  import opened Records
  import opened Wrappers
  import opened Agents

  // ---------- The map against the list ----------

  predicate KeysDistinct<V>(es: seq<(string, V)>) {
    forall i, j :: 0 <= i < j < |es| ==> es[i].0 != es[j].0
  }

  lemma {:induction false} KeyPresent<V>(es: seq<(string, V)>, i: nat)
    requires i < |es|
    ensures es[i].0 in PutAll(es)
  {
    if i < |es| - 1 {
      KeyPresent(es[..|es| - 1], i);
    }
  }

  /** Every entry of the map is the last one that the list has for its key. */
  lemma {:induction false} LastEntry<V>(es: seq<(string, V)>, key: string) returns (i: nat)
    requires key in PutAll(es)
    ensures i < |es| && es[i].0 == key && PutAll(es)[key] == es[i].1
    ensures forall j :: i < j < |es| ==> es[j].0 != key
  {
    var k := |es| - 1;
    if es[k].0 == key {
      i := k;
    } else {
      i := LastEntry(es[..k], key);
    }
  }

  /** The map gives back each entry of the list exactly if no key is repeated (for lists whose
      values differ). */
  lemma {:induction false} FaithfulMap<V>(es: seq<(string, V)>)
    requires forall i, j :: 0 <= i < j < |es| ==> es[i].1 != es[j].1
    ensures KeysDistinct(es) <==>
              forall i :: 0 <= i < |es| ==> es[i].0 in PutAll(es) && PutAll(es)[es[i].0] == es[i].1
  {
    forall i | 0 <= i < |es|
      ensures es[i].0 in PutAll(es)
      ensures KeysDistinct(es) ==> PutAll(es)[es[i].0] == es[i].1
    {
      KeyPresent(es, i);
      var k := LastEntry(es, es[i].0);
    }
    forall i, j | 0 <= i < j < |es| && es[i].0 == es[j].0
      ensures PutAll(es)[es[i].0] != es[i].1 || PutAll(es)[es[j].0] != es[j].1
    {
    }
  }

  // ---------- The names given out ----------

  function SensorNames(ss: seq<Sensor>): (ns: seq<Option<Uuid>>)
    ensures |ns| == |ss|
  {
    seq(|ss|, i requires 0 <= i < |ss| => ss[i].uuid)
  }

  /** All UUIDs in a list of devices, each device before its sensors. */
  function NamesOf(ds: seq<Device>): seq<Option<Uuid>> {
    if ds == [] then [] else
      var k := |ds| - 1;
      NamesOf(ds[..k]) + [ds[k].uuid] + SensorNames(ds[k].sensors)
  }

  function Fresh(gen: Uuid, n: nat): (ns: seq<Option<Uuid>>)
    ensures |ns| == n
  {
    seq(n, i requires 0 <= i => Some(gen + i))
  }

  /** The names used are the generator's next ones, each once: all are new and no two are equal. */
  lemma {:induction false} NamesAreFresh(ds: seq<Device>, gen: Uuid)
    ensures NamesOf(AssignDevices(ds, gen)) == Fresh(gen, NamesIn(ds))
  {
    if ds != [] {
      var k := |ds| - 1;
      NamesAreFresh(ds[..k], gen);
      var n := NamesIn(ds[..k]);
      var d := AssignDevice(ds[k], gen + n);
      assert AssignDevices(ds, gen)[..k] == AssignDevices(ds[..k], gen);
      assert Fresh(gen, n) + [d.uuid] + SensorNames(d.sensors) == Fresh(gen, NamesIn(ds));
    }
  }

  /** Device i gets the name that follows all those of the devices before it. */
  lemma {:induction false} AssignedAt(ds: seq<Device>, gen: Uuid, i: nat)
    requires i < |ds|
    ensures AssignDevices(ds, gen)[i] == AssignDevice(ds[i], gen + NamesIn(ds[..i]))
  {
    var k := |ds| - 1;
    if i < k {
      AssignedAt(ds[..k], gen, i);
      assert ds[..k][..i] == ds[..i];
    }
  }

  lemma {:induction false} NamesGrow(ds: seq<Device>, i: nat, j: nat)
    requires i < j <= |ds|
    ensures NamesIn(ds[..i]) < NamesIn(ds[..j])
  {
    assert ds[..j][..j - 1] == ds[..j - 1];
    if i < j - 1 {
      NamesGrow(ds, i, j - 1);
    }
  }

  // ---------- Lookups ----------

  /** What `map[deviceId]["sensorUuids"][sensorId]` gives; None for a KeyError. */
  function Lookup(m: map<string, SensorUuids>, deviceId: string, sensorId: string): Option<Option<Uuid>> {
    if deviceId in m && sensorId in m[deviceId].sensorUuids
    then Some(m[deviceId].sensorUuids[sensorId]) else None
  }

  /** A device as both agents announce it: a sensor's id is the device's id, a dash and a name. For
      the simulator the id is the switch GUID; for Redfish it is the agent's UUID, a dash and the
      chassis name, and the sensors are the temperatures followed by the fans. */
  datatype Item = Item(id: string, names: seq<string>)

  function SensorId(item: Item, j: nat): string
    requires j < |item.names|
  {
    item.id + "-" + item.names[j]
  }

  function Announced(item: Item): Device {
    Device(None, item.id, seq(|item.names|, j requires 0 <= j < |item.names| => Sensor(None, SensorId(item, j))))
  }

  function DeviceMap(inventory: seq<Item>): (ds: seq<Device>)
    ensures |ds| == |inventory|
  {
    seq(|inventory|, i requires 0 <= i < |inventory| => Announced(inventory[i]))
  }

  datatype Chassis = Chassis(name: string, temperatures: seq<string>, fans: seq<string>)

  function ChassisItem(agent: string, c: Chassis): Item {
    Item(agent + "-" + c.name, c.temperatures + c.fans)
  }

  function ChassisItems(agent: string, cs: seq<Chassis>): (items: seq<Item>)
    ensures |items| == |cs|
  {
    seq(|cs|, i requires 0 <= i < |cs| => ChassisItem(agent, cs[i]))
  }

  /** Redfish: sensors are appended chassis by chassis, temperatures first. */
  method RedfishCreateDeviceMap(agent: string, chassis: seq<Chassis>) returns (devices: seq<Device>)
    ensures devices == DeviceMap(ChassisItems(agent, chassis))
  {
    devices := [];
    var i := 0;
    while i < |chassis|
      invariant i <= |chassis| && devices == DeviceMap(ChassisItems(agent, chassis))[..i]
    {
      var c := chassis[i];
      var id := agent + "-" + c.name;
      ghost var item := ChassisItem(agent, c);
      var sensors: seq<Sensor> := [];
      var j := 0;
      while j < |c.temperatures|
        invariant j <= |c.temperatures| && sensors == Announced(item).sensors[..j]
      {
        sensors := sensors + [Sensor(None, agent + "-" + c.name + "-" + c.temperatures[j])];
        j := j + 1;
      }
      j := 0;
      while j < |c.fans|
        invariant j <= |c.fans| && sensors == Announced(item).sensors[..|c.temperatures| + j]
      {
        sensors := sensors + [Sensor(None, agent + "-" + c.name + "-" + c.fans[j])];
        j := j + 1;
      }
      assert sensors == Announced(item).sensors;
      devices := devices + [Device(None, id, sensors)];
      i := i + 1;
    }
  }

  function SwitchItems(guids: seq<string>, names: seq<string>): (items: seq<Item>)
    ensures |items| == |guids|
  {
    seq(|guids|, i requires 0 <= i < |guids| => Item(guids[i], names))
  }

  /** Simulator: every switch gets the sensors of one template. */
  method SimulatorCreateDeviceMap(guids: seq<string>, template: seq<string>) returns (devices: seq<Device>)
    ensures devices == DeviceMap(SwitchItems(guids, template))
  {
    devices := [];
    var i := 0;
    while i < |guids|
      invariant i <= |guids| && devices == DeviceMap(SwitchItems(guids, template))[..i]
    {
      var sensors: seq<Sensor> := [];
      var j := 0;
      while j < |template|
        invariant j <= |template| && sensors == Announced(Item(guids[i], template)).sensors[..j]
      {
        sensors := sensors + [Sensor(None, guids[i] + "-" + template[j])];
        j := j + 1;
      }
      assert sensors == Announced(Item(guids[i], template)).sensors;
      devices := devices + [Device(None, guids[i], sensors)];
      i := i + 1;
    }
  }

  /** The lookups of `send_data` for one switch: its own UUID and those of the metrics, or None for
      a KeyError. */
  method LookUpSwitch(m: map<string, SensorUuids>, guid: string, metrics: seq<string>)
    returns (uuids: Option<(Option<Uuid>, seq<Option<Uuid>>)>)
    ensures uuids.Some? <==>
              guid in m && forall j :: 0 <= j < |metrics| ==> Lookup(m, guid, guid + "-" + metrics[j]).Some?
    ensures uuids.Some? ==>
              && guid in m && uuids.value.0 == m[guid].uuid
              && |uuids.value.1| == |metrics|
              && forall j :: 0 <= j < |metrics| ==>
                   Lookup(m, guid, guid + "-" + metrics[j]) == Some(uuids.value.1[j])
  {
    if guid !in m {
      return None;
    }
    var deviceUuid := m[guid].uuid;
    var found: seq<Option<Uuid>> := [];
    var j := 0;
    while j < |metrics|
      invariant j <= |metrics| && |found| == j
      invariant forall k :: 0 <= k < j ==> Lookup(m, guid, guid + "-" + metrics[k]) == Some(found[k])
    {
      if guid + "-" + metrics[j] !in m[guid].sensorUuids {
        assert Lookup(m, guid, guid + "-" + metrics[j]) == None;
        return None;
      }
      found := found + [m[guid].sensorUuids[guid + "-" + metrics[j]]];
      j := j + 1;
    }
    uuids := Some((deviceUuid, found));
  }

  ghost predicate IdsDistinct(inventory: seq<Item>) {
    forall i, j :: 0 <= i < j < |inventory| ==> inventory[i].id != inventory[j].id
  }

  ghost predicate NamesDistinct(item: Item) {
    forall i, j :: 0 <= i < j < |item.names| ==> item.names[i] != item.names[j]
  }

  lemma SensorIdInjective(item: Item, i: nat, j: nat)
    requires i < |item.names| && j < |item.names|
    ensures SensorId(item, i) == SensorId(item, j) <==> item.names[i] == item.names[j]
  {
    var prefix := item.id + "-";
    assert SensorId(item, i)[|prefix|..] == item.names[i];
    assert SensorId(item, j)[|prefix|..] == item.names[j];
  }

  /** The lookups for one device all give the stored UUIDs if and only if its names are distinct;
      they never fail. */
  lemma SensorsOfDevice(item: Item, gen: Uuid)
    ensures var d := AssignDevice(Announced(item), gen);
            var m := PutAll(SensorEntries(d.sensors));
            && (forall j :: 0 <= j < |item.names| ==> SensorId(item, j) in m)
            && (NamesDistinct(item) <==>
                  forall j :: 0 <= j < |item.names| ==>
                    SensorId(item, j) in m && m[SensorId(item, j)] == d.sensors[j].uuid)
  {
    var d := AssignDevice(Announced(item), gen);
    var es := SensorEntries(d.sensors);
    assert forall j :: 0 <= j < |item.names| ==> es[j] == (SensorId(item, j), Some(gen + 1 + j));
    FaithfulMap(es);
    forall i, j | 0 <= i < j < |item.names|
      ensures es[i].0 != es[j].0 <==> item.names[i] != item.names[j]
    {
      SensorIdInjective(item, i, j);
    }
    forall j | 0 <= j < |item.names|
      ensures SensorId(item, j) in PutAll(es)
    {
      KeyPresent(es, j);
    }
  }

  // ---------- The round trip ----------

  /** Everything the agent looks up for item i comes back as it is stored. */
  ghost predicate ComesBack(m: map<string, SensorUuids>, item: Item, stored: Device) {
    && item.id in m && m[item.id].uuid == stored.uuid
    && |stored.sensors| == |item.names|
    && forall j :: 0 <= j < |item.names| ==>
         Lookup(m, item.id, SensorId(item, j)) == Some(stored.sensors[j].uuid)
  }

  lemma StoredNames(inventory: seq<Item>, gen: Uuid, i: nat, j: nat)
    requires i < j < |inventory|
    ensures var ds := AssignDevices(DeviceMap(inventory), gen); ds[i].uuid != ds[j].uuid
  {
    var ds := DeviceMap(inventory);
    AssignedAt(ds, gen, i);
    AssignedAt(ds, gen, j);
    NamesGrow(ds, i, j);
  }

  /** An entry is the device's own exactly if its UUID is. */
  lemma OwnEntry(inventory: seq<Item>, gen: Uuid, i: nat)
    requires i < |inventory|
    ensures var stored := AssignDevices(DeviceMap(inventory), gen);
            var m, es := ResponseMap(stored), DeviceEntries(stored);
            && stored[i].id == inventory[i].id && inventory[i].id in m
            && (m[inventory[i].id].uuid == stored[i].uuid <==> m[inventory[i].id] == es[i].1)
  {
    var stored := AssignDevices(DeviceMap(inventory), gen);
    var es := DeviceEntries(stored);
    AssignedAt(DeviceMap(inventory), gen, i);
    KeyPresent(es, i);
    var k := LastEntry(es, es[i].0);
    if k > i {
      StoredNames(inventory, gen, i, k);
    }
  }

  lemma KeysAreIds(inventory: seq<Item>, gen: Uuid)
    ensures var es := DeviceEntries(AssignDevices(DeviceMap(inventory), gen));
            IdsDistinct(inventory) <==> KeysDistinct(es)
  {
    var es := DeviceEntries(AssignDevices(DeviceMap(inventory), gen));
    forall i | 0 <= i < |es|
      ensures es[i].0 == inventory[i].id
    {
      AssignedAt(DeviceMap(inventory), gen, i);
    }
  }

  /** The device part of the round trip. */
  lemma DevicesComeBack(inventory: seq<Item>, gen: Uuid)
    ensures var stored := AssignDevices(DeviceMap(inventory), gen);
            var m := ResponseMap(stored);
            && (forall i :: 0 <= i < |inventory| ==> inventory[i].id in m)
            && (IdsDistinct(inventory) <==>
                  forall i :: 0 <= i < |inventory| ==> m[inventory[i].id].uuid == stored[i].uuid)
  {
    var stored := AssignDevices(DeviceMap(inventory), gen);
    var es := DeviceEntries(stored);
    forall i, j | 0 <= i < j < |es|
      ensures es[i].1 != es[j].1
    {
      StoredNames(inventory, gen, i, j);
    }
    FaithfulMap(es);
    KeysAreIds(inventory, gen);
    forall i | 0 <= i < |inventory|
      ensures inventory[i].id in ResponseMap(stored) && es[i].0 == inventory[i].id
      ensures ResponseMap(stored)[inventory[i].id].uuid == stored[i].uuid <==> PutAll(es)[es[i].0] == es[i].1
    {
      OwnEntry(inventory, gen, i);
    }
  }

  lemma StoredItem(inventory: seq<Item>, gen: Uuid, i: nat) returns (g: Uuid)
    requires i < |inventory|
    ensures AssignDevices(DeviceMap(inventory), gen)[i] == AssignDevice(Announced(inventory[i]), g)
  {
    g := gen + NamesIn(DeviceMap(inventory)[..i]);
    AssignedAt(DeviceMap(inventory), gen, i);
  }

  lemma ItemComesBack(inventory: seq<Item>, gen: Uuid, i: nat)
    requires i < |inventory|
    ensures var stored := AssignDevices(DeviceMap(inventory), gen);
            var m := ResponseMap(stored);
            && inventory[i].id in m
            && (m[inventory[i].id].uuid == stored[i].uuid ==>
                  forall j :: 0 <= j < |inventory[i].names| ==>
                    Lookup(m, inventory[i].id, SensorId(inventory[i], j)).Some?)
            && (ComesBack(m, inventory[i], stored[i]) <==>
                  m[inventory[i].id].uuid == stored[i].uuid && NamesDistinct(inventory[i]))
  {
    var stored := AssignDevices(DeviceMap(inventory), gen);
    var m, item := ResponseMap(stored), inventory[i];
    OwnEntry(inventory, gen, i);
    var g := StoredItem(inventory, gen, i);
    SensorsOfDevice(item, g);
    if m[item.id].uuid == stored[i].uuid {
      assert m[item.id].sensorUuids == PutAll(SensorEntries(stored[i].sensors));
    }
  }

  /** The round trip of an inventory, whatever store it goes through. */
  lemma InventoryComesBack(inventory: seq<Item>, gen: Uuid)
    ensures var stored := AssignDevices(DeviceMap(inventory), gen);
            var m := ResponseMap(stored);
            && ((forall i :: 0 <= i < |inventory| ==> ComesBack(m, inventory[i], stored[i])) <==>
                  IdsDistinct(inventory) && forall i :: 0 <= i < |inventory| ==> NamesDistinct(inventory[i]))
            && (IdsDistinct(inventory) ==>
                  forall i, j :: 0 <= i < |inventory| && 0 <= j < |inventory[i].names| ==>
                    Lookup(m, inventory[i].id, SensorId(inventory[i], j)).Some?)
  {
    DevicesComeBack(inventory, gen);
    var stored := AssignDevices(DeviceMap(inventory), gen);
    var m := ResponseMap(stored);
    forall i | 0 <= i < |inventory|
      ensures ComesBack(m, inventory[i], stored[i]) <==>
                m[inventory[i].id].uuid == stored[i].uuid && NamesDistinct(inventory[i])
      ensures m[inventory[i].id].uuid == stored[i].uuid ==>
                forall j :: 0 <= j < |inventory[i].names| ==>
                  Lookup(m, inventory[i].id, SensorId(inventory[i], j)).Some?
    {
      ItemComesBack(inventory, gen, i);
    }
  }

  /** The round trip, exactly. Handled in one step for an agent that is stored, a device list is
      stored with fresh UUIDs, no two of them equal; every lookup that the agent makes for the same
      inventory succeeds and gives the stored UUID if and only if no two devices share an id and no
      two sensors of a device share a name; and distinct ids are enough for no lookup to fail. */
  lemma InventoryRoundTrip(s: Store, uuid: Uuid, inventory: seq<Item>)
    requires uuid in s.agents
    ensures var (s', reply) := Handled(s, DeviceList(uuid, DeviceMap(inventory)));
            && uuid in s'.agents && reply.DevicesRegistered? && reply.topicUuid == uuid
            && var stored, m := s'.agents[uuid].devices, reply.deviceUuids;
            && |stored| == |inventory|
            && NamesOf(stored) == Fresh(s.gen, s'.gen - s.gen)
            && ((forall i :: 0 <= i < |inventory| ==> ComesBack(m, inventory[i], stored[i])) <==>
                  IdsDistinct(inventory) && forall i :: 0 <= i < |inventory| ==> NamesDistinct(inventory[i]))
            && (IdsDistinct(inventory) ==>
                  forall i, j :: 0 <= i < |inventory| && 0 <= j < |inventory[i].names| ==>
                    Lookup(m, inventory[i].id, SensorId(inventory[i], j)).Some?)
  {
    NamesAreFresh(DeviceMap(inventory), s.gen);
    InventoryComesBack(inventory, s.gen);
  }

  // ---------- The round trip of each agent ----------

  ghost predicate Distinct(names: seq<string>) {
    forall i, j :: 0 <= i < j < |names| ==> names[i] != names[j]
  }

  /** No two sensors of a chassis share a name, be they temperatures or fans. */
  ghost predicate SensorsDistinct(c: Chassis) {
    && Distinct(c.temperatures) && Distinct(c.fans)
    && forall i, j :: 0 <= i < |c.temperatures| && 0 <= j < |c.fans| ==> c.temperatures[i] != c.fans[j]
  }

  ghost predicate ChassisDistinct(cs: seq<Chassis>) {
    forall i, j :: 0 <= i < j < |cs| ==> cs[i].name != cs[j].name
  }

  /** What the Redfish agent looks up for chassis c when it sends data is what is stored: the chassis,
      each temperature, and each fan. */
  ghost predicate ChassisComesBack(m: map<string, SensorUuids>, agent: string, c: Chassis, stored: Device) {
    var id := agent + "-" + c.name;
    && id in m && m[id].uuid == stored.uuid
    && |stored.sensors| == |c.temperatures| + |c.fans|
    && (forall j :: 0 <= j < |c.temperatures| ==>
          Lookup(m, id, id + "-" + c.temperatures[j]) == Some(stored.sensors[j].uuid))
    && (forall j :: 0 <= j < |c.fans| ==>
          Lookup(m, id, id + "-" + c.fans[j]) == Some(stored.sensors[|c.temperatures| + j].uuid))
  }

  lemma ChassisAsItem(m: map<string, SensorUuids>, agent: string, c: Chassis, stored: Device)
    ensures ChassisComesBack(m, agent, c, stored) <==> ComesBack(m, ChassisItem(agent, c), stored)
  {
    var item := ChassisItem(agent, c);
    var n := |c.temperatures|;
    assert forall j :: 0 <= j < n ==> SensorId(item, j) == item.id + "-" + c.temperatures[j];
    assert forall j :: 0 <= j < |c.fans| ==> SensorId(item, n + j) == item.id + "-" + c.fans[j];
    if ChassisComesBack(m, agent, c, stored) {
      forall j | 0 <= j < |item.names|
        ensures Lookup(m, item.id, SensorId(item, j)) == Some(stored.sensors[j].uuid)
      {
        if j >= n {
          assert SensorId(item, n + (j - n)) == item.id + "-" + c.fans[j - n];
        }
      }
    }
    if ComesBack(m, item, stored) {
      forall j | 0 <= j < |c.fans|
        ensures Lookup(m, item.id, item.id + "-" + c.fans[j]) == Some(stored.sensors[n + j].uuid)
      {
        assert SensorId(item, n + j) == item.id + "-" + c.fans[j];
      }
    }
  }

  lemma ChassisNames(agent: string, c: Chassis)
    ensures NamesDistinct(ChassisItem(agent, c)) <==> SensorsDistinct(c)
  {
    var names, n := ChassisItem(agent, c).names, |c.temperatures|;
    assert forall j :: 0 <= j < |c.fans| ==> names[n + j] == c.fans[j];
    if NamesDistinct(ChassisItem(agent, c)) {
      forall i, j | 0 <= i < j < n
        ensures c.temperatures[i] != c.temperatures[j]
      {
        assert names[i] != names[j];
      }
      forall i, j | 0 <= i < j < |c.fans|
        ensures c.fans[i] != c.fans[j]
      {
        assert names[n + i] != names[n + j];
      }
      forall i, j | 0 <= i < n && 0 <= j < |c.fans|
        ensures c.temperatures[i] != c.fans[j]
      {
        assert names[i] != names[n + j];
      }
    }
    if SensorsDistinct(c) {
      forall i, j | 0 <= i < j < |names|
        ensures names[i] != names[j]
      {
        if j >= n {
          assert names[j] == c.fans[j - n];
        }
        if i >= n {
          assert names[i] == c.fans[i - n];
        }
      }
    }
  }

  lemma PrefixedDiffer(prefix: string, a: string, b: string)
    ensures prefix + a == prefix + b <==> a == b
  {
    assert (prefix + a)[|prefix|..] == a && (prefix + b)[|prefix|..] == b;
  }

  lemma ChassisIds(agent: string, cs: seq<Chassis>)
    ensures IdsDistinct(ChassisItems(agent, cs)) <==> ChassisDistinct(cs)
  {
    forall i, j | 0 <= i < j < |cs|
      ensures ChassisItems(agent, cs)[i].id == ChassisItems(agent, cs)[j].id <==> cs[i].name == cs[j].name
    {
      PrefixedDiffer(agent + "-", cs[i].name, cs[j].name);
    }
  }

  /** The round trip of the Redfish agent. `devices` is the list that it announces for these chassis;
      what it looks up when it sends data is what was stored for it, for every temperature and every
      fan of every chassis, if and only if the chassis have different names and so have the sensors
      of each. */
  lemma RedfishRoundTrip(s: Store, uuid: Uuid, agent: string, cs: seq<Chassis>, devices: seq<Device>)
    requires uuid in s.agents && devices == DeviceMap(ChassisItems(agent, cs))
    ensures var (s', reply) := Handled(s, DeviceList(uuid, devices));
            && uuid in s'.agents && reply.DevicesRegistered? && reply.topicUuid == uuid
            && var stored, m := s'.agents[uuid].devices, reply.deviceUuids;
            && |stored| == |cs|
            && ((forall i :: 0 <= i < |cs| ==> ChassisComesBack(m, agent, cs[i], stored[i])) <==>
                  ChassisDistinct(cs) && forall i :: 0 <= i < |cs| ==> SensorsDistinct(cs[i]))
  {
    var items := ChassisItems(agent, cs);
    InventoryRoundTrip(s, uuid, items);
    ChassisIds(agent, cs);
    var stored := AssignDevices(devices, s.gen);
    forall i | 0 <= i < |cs|
      ensures NamesDistinct(items[i]) <==> SensorsDistinct(cs[i])
      ensures ComesBack(ResponseMap(stored), items[i], stored[i])
         <==> ChassisComesBack(ResponseMap(stored), agent, cs[i], stored[i])
    {
      ChassisNames(agent, cs[i]);
      ChassisAsItem(ResponseMap(stored), agent, cs[i], stored[i]);
    }
  }

  /** What the simulator looks up for one switch is what is stored, for every name of the template. */
  ghost predicate SwitchComesBack(m: map<string, SensorUuids>, guid: string, template: seq<string>, stored: Device) {
    && guid in m && m[guid].uuid == stored.uuid
    && |stored.sensors| == |template|
    && forall j :: 0 <= j < |template| ==> Lookup(m, guid, guid + "-" + template[j]) == Some(stored.sensors[j].uuid)
  }

  lemma SwitchAsItem(m: map<string, SensorUuids>, guid: string, template: seq<string>, stored: Device)
    ensures SwitchComesBack(m, guid, template, stored) <==> ComesBack(m, Item(guid, template), stored)
  {
    assert forall j :: 0 <= j < |template| ==> SensorId(Item(guid, template), j) == guid + "-" + template[j];
  }

  /** The round trip of the simulator, whose switches share one template. */
  lemma SimulatorRoundTrip(s: Store, uuid: Uuid, guids: seq<string>, template: seq<string>, devices: seq<Device>)
    requires uuid in s.agents && devices == DeviceMap(SwitchItems(guids, template))
    ensures var (s', reply) := Handled(s, DeviceList(uuid, devices));
            && uuid in s'.agents && reply.DevicesRegistered? && reply.topicUuid == uuid
            && var stored, m := s'.agents[uuid].devices, reply.deviceUuids;
            && |stored| == |guids|
            && ((forall i :: 0 <= i < |guids| ==> SwitchComesBack(m, guids[i], template, stored[i])) <==>
                  Distinct(guids) && (guids != [] ==> Distinct(template)))
  {
    var items := SwitchItems(guids, template);
    InventoryRoundTrip(s, uuid, items);
    var stored := AssignDevices(devices, s.gen);
    assert IdsDistinct(items) <==> Distinct(guids) by {
      assert forall i :: 0 <= i < |guids| ==> items[i].id == guids[i];
    }
    forall i | 0 <= i < |guids|
      ensures NamesDistinct(items[i]) <==> Distinct(template)
      ensures ComesBack(ResponseMap(stored), items[i], stored[i])
         <==> SwitchComesBack(ResponseMap(stored), guids[i], template, stored[i])
    {
      SwitchAsItem(ResponseMap(stored), guids[i], template, stored[i]);
    }
    assert guids != [] ==> (NamesDistinct(items[0]) <==> Distinct(template));
  }
}
