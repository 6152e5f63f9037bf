# KrakenMare: the counted batch pipeline and the agent registry

This project models two parts of KrakenMare and proves properties of them.

**The batch pipeline.** An agent buffers sensor records and publishes a full buffer on one of K
subtopics, in turn, counting the batches per subtopic. In counting mode the simulator stamps the
records of each list with the counter of the subtopic that is current when the list is built; a
flush in the middle of a list leaves the rest of it to travel on the next subtopic under the old
number. One FanIn process per subtopic unpacks the batches into Kafka (or passes them through) and
uses the stamps to notice batches that MQTT lost at QoS 0.

**The agent registry.** Three handlers of the framework manager (registration, device list,
deregistration) work on a repository of agents, kept either as shared objects in a list or as copies
in a Redis hash. They are modelled twice: as atomic steps over the two repositories as written, and
split into their repository calls under any interleaving.

Two smaller parts are the topics that connect them and the rotation of FanIn's compressed logs.

## How it is laid out

| file | content |
|---|---|
| `Arithmetic.dfy`, `Float32.dfy`, `Records.dfy`, `Wrappers.dfy` | division facts, rounding of integers to binary32, records, payloads, subsequences, `Option` |
| `AgentCommon.dfy`, `ListGrowth.dfy` | the sender, its closed form, the batch length for CPython's list growth |
| `Simulator.dfy` | the stamped record lists and the stamps of each batch |
| `FanIn.dfy`, `LossDetection.dfy` | the receiver, and what its stamp check finds out |
| `Pipeline.dfy`, `Conservation.dfy`, `EndToEnd.dfy` | sender, lossy channels and processes as one state machine; conservation, order, detection |
| `Readings.dfy` | each reading's way from the switch to Kafka, field by field |
| `Detectability.dfy` | the configurations in which every loss shows and final values agree, and the runs that fail in all others |
| `Agents.dfy`, `Repositories.dfy`, `Listeners.dfy` | the atomic handlers, the two repositories, the handlers over each |
| `DeviceRegistration.dfy` | device and sensor UUIDs from the repository to the agent's lookups |
| `Manager.dfy`, `Requests.dfy`, `DeviceReplies.dfy` | the handlers over Redis, interleaved; what each does for its request; what a device response is worth then |
| `AgentSide.dfy` | the manager together with one agent's callback |
| `Topics.dfy`, `LogRotation.dfy` | topic routing, log rotation |

Code that changes state is a class or a method with a loop; its `ensures` ties the new state to a
function, and the lemmas are about that function. A run is a sequence of events, so a lemma over all
event sequences is a statement about all reachable states.

## Main results

* A sender that was handed any records, in any split into lists, is in a closed form of the record
  sequence alone (`BatchedRun`), and stops after exactly the configured number of records
  (`LimitedRun`).
* Every stamp on every subtopic follows from where its list began (`StampsOfBatch`).
* In every reachable state FanIn has reported precisely the gaps described by `Reported`
  (`ReportsAreExact`): two or more lost batches are always reported, a single one unless the next
  batch opens with leftovers of an older list. That can happen on the start subtopic only.
* Losses are reported one by one in every run with lists of m records if and only if m divides K
  times the batch length, or the message limit ends the run within the first turn of the cursor
  (`LossesShowIff`). Where neither holds, `SilentLoss` is a run in which a lost batch goes
  unreported. As configured, with 512 bytes and two records per list, losses show for an even number
  of topics, and with the default of one topic and no limit they need not (`ShippedLosses`).
* When everything sent on a subtopic has been handled, FanIn's value is the number that the sender
  prints, unless the last batch consists of leftovers only, and then it is one below (`FinalValue`).
  With lists of m records the limit alone decides whether that can happen (`FinalValuesAgreeIff`).
  As configured, with one topic, it happens for a limit of 48 and every 94 records more
  (`ShippedFinalValues`, `EndsOneBelow`).
* Every batch number missing before a received batch belongs to a publish that was lost on the way
  (`MissingAreLost`), so reports of gaps are reports of losses.
* Without loss FanIn stays silent if and only if no stamp exceeds 2^24 + 1 (`SilentWithoutLoss`):
  the stamp travels as an Avro `float`, and 2^24 + 2 arrives as a jump by two. Over all runs with
  lists of m records this means: if and only if the message limit ends the run before the first
  batch with number 2^24 + 2, or within leftovers at its beginning (`SilentUnlessLostIff`). In all
  other configurations `FalseAlarm` is a run in which nothing is lost and a loss is reported.
* Every accepted record is held, in flight, lost, dropped by a FanIn process (refused by the producer,
  or in a payload on which the handler raised) or stored, exactly as often as it was accepted
  (`EndToEndConservation`), and each subtopic keeps its order (`OrderKept`).
* In every reachable state and mode the records that a process has stored are, in order and each at
  most once, samples of the rounds: at their round's time and, without counting, with the sensor's own
  UUID and its value but for the float (`KafkaHoldsReadings`).
* The list that relies on aliasing and the hash that copies give the same replies and hold the same
  agents, ids shifted by one (`NewRepositoriesAgree` with the contracts of both `ServeAll` methods).
* A deregistered agent comes back if and only if a device-list handler read it before the deletion
  and writes it after (`ReappearsIffOverlapped`); `AgentComesBack` is a run in which one does.
* Under any interleaving each handler serves its own request and no other: a registration stores one
  new agent with the uid and name asked for, a device list stores the devices asked for, a
  deregistration deletes whatever is stored then, nothing else changes an agent, and every reply
  follows from such a step (`SaveStores`, `WriteStores`, `DeleteRemoves`, `OnlyTheseTouch`,
  `RegisteredAfterSave`, `DeregisteredAfterDelete`).
* However handlers interleave, the map in a device-list response that names a device is the map of
  what is stored for the agent if and only if no device-list write and no deletion of that agent came
  after the write that the response reports (`RepliesStandUntilTouched`).
* An agent never takes on what belongs to another uid, however handlers interleave and replies are
  delayed or repeated (`AgentKeepsItsOwn`). Its device map is that of the UUID it goes by if and only
  if the last registration response delivered names the UUID whose map it took last
  (`MapAgreesIff`); `MapOfAnotherUuid` is a run in which it does not. Each flag it waits for is set if
  and only if the reply it stands for has been delivered (`FlagsTellTheTruth`).
* For one device list on its own, device and sensor UUIDs come back to the agent as stored if and
  only if device ids, and the sensor names of each device, are distinct (`InventoryRoundTrip`): for the
  Redfish agent if and only if chassis names, and the temperature and fan names of each chassis, are
  (`RedfishRoundTrip`), for the simulator if and only if GUIDs and template names are
  (`SimulatorRoundTrip`).
* A request is received by its own listener if and only if its key has no slash (`RequestRouting`).

## Assumptions

* UUIDs come from a generator that never repeats one. They are numbers here; only equality and
  freshness are used.
* Avro and JSON encoding are exact but for the binary32 value of a record. A record's value is the
  integer that `int(...)` reads off it.
* `sys.getsizeof` of a list built by appends is a function of its length. The results hold for any
  such function that reaches the batch size; `ListGrowth.dfy` has the one of CPython 3.6.
* The number of subtopics, the batch size and the message limit do not change during a run.
* The processes that receive match the subtopics that are sent on.

## Model

| member | source | states |
|---|---|---|
| Float32.Nearest | config-schemaregistry/message-agent.avdl:88-89 | the value of a record is the nearest number with a 24-bit significand, a tie going to the even one, for either sign |
| Float32.ExactBelow | config-schemaregistry/message-agent.avdl:88-89 | integers up to 2^24 survive the `float` |
| Float32.FirstInexact | config-schemaregistry/message-agent.avdl:88-89 | 2^24 + 1 arrives as 2^24, and 2^24 + 2 as itself |
| Float32.Idempotent | fanin/FanIn.py:215-217 | encoding a decoded value again changes nothing |
| AgentCommon.BatchSender.constructor | agent-python-module/agentcommon.py:158-168 | a new sender: every counter is 1, the cursor on the start subtopic, nothing buffered |
| AgentCommon.BatchSender.MqttSendTripletBatch | agent-python-module/agentcommon.py:469-614 | the record loop over one list takes the sender from its old state through every record, or to its exit |
| AgentCommon.SendAllConcat | agent-python-module/agentcommon.py:474 | how records are split into lists does not matter |
| AgentCommon.BatchLengthExists | agent-python-module/agentcommon.py:571 | a size function that reaches the batch size determines one batch length |
| ListGrowth.ConfiguredBatchLength | fanin/FanIn.py:262 | 512 bytes are reached by exactly 47 records, the number FanIn expects |
| ListGrowth.EveryBatchSizeHasALength | agent-python-module/agentcommon.py:571 | CPython's list sizes are unbounded, so every batch size has one batch length |
| AgentCommon.BatchedRun | agent-python-module/agentcommon.py:549-614 | closed form of the sender: the stream in chunks of the batch length, dealt out in turn, with counters, cursor and buffer to match |
| AgentCommon.LimitedRun | agent-python-module/agentcommon.py:474-517 | for every limit, batch size and split: exit exactly on record limit + 1, the first `limit` records published once and in order; counters sum to the number of publishes |
| AgentCommon.UnbatchedRun | agent-python-module/agentcommon.py:562-570 | without batching each record leaves at once on the start subtopic |
| AgentCommon.RoundRobin | agent-python-module/agentcommon.py:604-612 | counters and cursor follow from the number of publishes; counters differ by at most one, also after the final flush |
| AgentCommon.BatchLengths | agent-python-module/agentcommon.py:571-614 | full batches have the batch length, the buffer fewer records, a final batch between one and one less |
| Simulator.BuildList | simulator/IBswitchSimulator.py:450-466 | one list: the readings, or the agent's UUID with the current counter in every record |
| Simulator.SendData | simulator/IBswitchSimulator.py:398-476 | the sending loop, list by list, until the process exits |
| Simulator.StreamSent | simulator/IBswitchSimulator.py:459-466 | the lists built along the way are those of a closed-form stream, stamped by position alone |
| Simulator.StampsOfBatch | simulator/IBswitchSimulator.py:450-468 | batch n carries stamps n - 1 and n, lower first; a full one ends in n; the lower stamp only in batches that open with leftovers, on the start subtopic |
| Simulator.LeftoversOfConstantLists | simulator/IBswitchSimulator.py:459-468 | with lists of length m: leftovers exactly at a wrap that m does not divide |
| Simulator.AlignedLists | simulator/IBswitchSimulator.py:459-468 | if m divides K times the batch length there are no leftovers |
| FanIn.FanInProcess.MqttOnMessage | fanin/FanIn.py:172-315 | one message: stamp check, unpacking or passthrough, counters; other topics and undecodable payloads change nothing |
| FanIn.FanInProcess.CheckStamp | fanin/FanIn.py:197-211 | the check of one record, with the branch for an unknown agent |
| FanIn.FanInProcess.KafkaProduce | fanin/FanIn.py:218-232 | a message taken by the producer counts, a refused one does not |
| FanIn.RunTallies | fanin/FanIn.py:223-232 | after any run, in both modes, kafka_msg_counter - 1 is the log length and MsgCount the last multiple of 1000 |
| FanIn.PassthroughRefinesUnpacking | fanin/FanIn.py:187-283 | the passthrough log, decoded and flattened, is the unpacking log |
| FanIn.MessageAccounted | fanin/FanIn.py:213-260 | each record of a message is stored or dropped, not both |
| FanIn.NonInterference | fanin/FanIn.py:195-211 | over any run of messages, what is known and reported about an agent depends on its own records alone |
| Readings.RoundsSent | simulator/IBswitchSimulator.py:402-476 | from any state and in any mode: the records sent are those of all readings in order, at their round's time, with the sensor's UUID and value, or the agent's UUID when counting |
| Readings.BatchedRecord | agent-python-module/agentcommon.py:538-548 | record i of publish f keeps time and UUID of accepted record f * len + i, and its value but for the float |
| Readings.UnbatchedRecord | agent-python-module/agentcommon.py:538-570 | without batching publish f is accepted record f, alone, on the start subtopic, its fields kept |
| Readings.KafkaHoldsReadings | fanin/FanIn.py:213-224 | in every reachable state and mode, the stored records are samples of the rounds, in order, each at most once and within the limit, field by field |
| Readings.RunInForm | fanin/FanIn.py:213-283 | unpacking stores one message per record; passing through stores payloads as published on that subtopic |
| Readings.HandlesNothing | fanin/FanIn.py:187-195 | an unpacking process that does not decode, or is sent single records, never stores or counts anything |
| LossDetection.Detection | fanin/FanIn.py:197-211 | on any in-order subset of the batches the check reports exactly `Reports` |
| LossDetection.LossAccounting | fanin/FanIn.py:201-211 | the corrected sum of the reports misses the number of lost batches by the number of blurred gaps |
| LossDetection.AlignedNeverBlurs | fanin/FanIn.py:200-211 | without leftovers every loss is reported |
| LossDetection.NoFalseAlarms | fanin/FanIn.py:200-211 | stamps that climb by zero or one are silent as floats if and only if they end at 2^24 + 1 or below |
| Conservation.EndToEndConservation | agent-python-module/agentcommon.py:549-614 | in every reachable state each record is held, in flight, lost, dropped by a FanIn process or in Kafka as often as it was accepted |
| Conservation.RunOrdered | fanin/FanIn.py:544-547 | handled publishes of a subtopic form an increasing sequence below all those in flight |
| Conservation.OrderKept | fanin/FanIn.py:195-224 | each process's Kafka log is an in-order part of what was published on its subtopic |
| EndToEnd.ReportsAreExact | fanin/FanIn.py:195-211 | in every reachable state: an ATTENTION exactly where two batches are missing, or one and no leftovers follow |
| EndToEnd.ExactAccounting | fanin/FanIn.py:197-211 | off the start subtopic, with lists whose length divides K times the batch length, or with a limit of at most one turn: an ATTENTION exactly where a batch is missing, and the reports add up to the loss |
| EndToEnd.SilentWithoutLoss | fanin/FanIn.py:195-211 | without loss: silent if and only if no stamp exceeds 2^24 + 1 |
| EndToEnd.MissingAreLost | fanin/FanIn.py:200-211 | the numbers missing before a received batch are exactly those of the publishes between it and the one handled before it, and all of these were lost |
| EndToEnd.FinalValue | agent-python-module/agentcommon.py:475-502 | with everything on a subtopic handled and numbers up to 2^24: no report, and FanIn's value is the printed number if and only if the last batch does not consist of leftovers only; then it is one below |
| Detectability.SilentLoss | simulator/IBswitchSimulator.py:459-468 | the run in which the first batch is lost, the next one on its subtopic has been handled, and the process of that subtopic has reported nothing, for any m that does not divide K times the batch length |
| Detectability.LossesShowIff | fanin/FanIn.py:200-211 | with lists of m records, in every run as many reports as gaps on every subtopic, if and only if m divides K times the batch length or the limit is at most that |
| Detectability.ShippedLosses | simulator/IBswitchSimulator.cfg:11 | the same for 512 bytes and the two metrics per list: an even number of topics, or a limit within one turn |
| Detectability.FalseAlarm | config-schemaregistry/message-agent.avdl:88-89 | a run without loss after which the process of the start subtopic has reported one |
| Detectability.SilentUnlessLostIff | fanin/FanIn.py:200-211 | with lists of m records, every process that lost nothing is silent in every run, if and only if the limit ends the run before the batch numbered 2^24 + 2 or within leftovers that open it |
| Detectability.EndsOneBelow | agent-python-module/agentcommon.py:475-502 | a run without loss after which FanIn's value is one below the printed number |
| Detectability.FinalValuesAgreeIff | agent-python-module/agentcommon.py:475-502 | with lists of m records, FanIn ends on the printed number in every run, if and only if the limit does not leave a last batch of leftovers only |
| Detectability.ShippedFinalValues | simulator/IBswitchSimulator.cfg:24 | for 512 bytes, one topic and two metrics per list: they disagree exactly for limits of 48 plus a multiple of 94 |
| Agents.RepositoriesAgree | framework/src/main/java/com/hpe/krakenmare/repositories/AgentMemoryRepository.java:34-70 | any requests get the same replies and leave the same agents, whatever number the ids start from |
| Agents.NewRepositoriesAgree | framework/src/main/java/com/hpe/krakenmare/repositories/AgentRedisRepository.java:74-111 | two new repositories give the same replies to any requests and hold the same agents, ids one apart |
| Agents.HandledConcat | framework/src/main/java/com/hpe/krakenmare/impl/FrameworkMqttListener.java:54-73 | requests handled in two goes: the second starts from what the first left, and its replies follow |
| Repositories.AgentMemoryRepository.Create | framework/src/main/java/com/hpe/krakenmare/repositories/AgentMemoryRepository.java:34-39 | ids count from 0, UUID fresh, no devices |
| Repositories.AgentMemoryRepository.Save | framework/src/main/java/com/hpe/krakenmare/repositories/AgentMemoryRepository.java:42-44 | the shared object joins the list, also when its UUID is there already |
| Repositories.AgentMemoryRepository.Delete | framework/src/main/java/com/hpe/krakenmare/repositories/AgentMemoryRepository.java:47-50 | the agent with equal contents goes, if there is one |
| Repositories.AgentMemoryRepository.Get | framework/src/main/java/com/hpe/krakenmare/repositories/AgentMemoryRepository.java:64-70 | the stored object itself, or not found |
| Repositories.AgentMemoryRepository.Count | framework/src/main/java/com/hpe/krakenmare/api/Repository.java:25-27 | the number of agents stored |
| Repositories.SetDevices | framework/src/main/java/com/hpe/krakenmare/impl/MqttDeviceListListener.java:51-53 | in memory, assigning to the agent got is storing |
| Repositories.AgentRedisRepository.Create | framework/src/main/java/com/hpe/krakenmare/repositories/AgentRedisRepository.java:74-79 | ids count from 1, UUID fresh, no devices |
| Repositories.AgentRedisRepository.Save | framework/src/main/java/com/hpe/krakenmare/repositories/AgentRedisRepository.java:82-86 | an upsert that tells whether the key was new |
| Repositories.AgentRedisRepository.Update | framework/src/main/java/com/hpe/krakenmare/repositories/AgentRedisRepository.java:89-92 | stores the agent again |
| Repositories.AgentRedisRepository.Delete | framework/src/main/java/com/hpe/krakenmare/repositories/AgentRedisRepository.java:95-100 | removes the key and tells whether it was there |
| Repositories.AgentRedisRepository.Get | framework/src/main/java/com/hpe/krakenmare/repositories/AgentRedisRepository.java:103-111 | a fresh copy of what is stored, or not found |
| Listeners.AssignUuids | framework/src/main/java/com/hpe/krakenmare/impl/MqttDeviceListListener.java:44-49 | fresh names for each device and its sensors, in order |
| Listeners.BuildResponseMap | framework/src/main/java/com/hpe/krakenmare/impl/MqttDeviceListListener.java:55-61 | the nested map, later entries replacing earlier ones |
| Listeners.MemoryListeners.ProcessRegistration | framework/src/main/java/com/hpe/krakenmare/impl/MqttRegistrationListener.java:34-55 | over the list, the atomic registration |
| Listeners.MemoryListeners.ProcessDeregistration | framework/src/main/java/com/hpe/krakenmare/impl/MqttDeregistrationListener.java:33-55 | over the list, the atomic deregistration |
| Listeners.MemoryListeners.ProcessDeviceList | framework/src/main/java/com/hpe/krakenmare/impl/MqttDeviceListListener.java:40-70 | over the list, the atomic device registration, stored through aliasing |
| Listeners.RedisListeners.ProcessRegistration | framework/src/main/java/com/hpe/krakenmare/impl/MqttRegistrationListener.java:34-55 | over Redis, the atomic registration |
| Listeners.RedisListeners.ProcessDeregistration | framework/src/main/java/com/hpe/krakenmare/impl/MqttDeregistrationListener.java:33-55 | over Redis, the atomic deregistration |
| Listeners.RedisListeners.ProcessDeviceList | framework/src/main/java/com/hpe/krakenmare/impl/MqttDeviceListListener.java:40-70 | over Redis, the atomic device registration, stored by `update` |
| Listeners.MemoryListeners.ServeAll | framework/src/main/java/com/hpe/krakenmare/impl/FrameworkMqttListener.java:54-73 | any requests, one at a time, over the list |
| Listeners.RedisListeners.ServeAll | framework/src/main/java/com/hpe/krakenmare/impl/FrameworkMqttListener.java:54-73 | any requests, one at a time, over Redis |
| DeviceRegistration.NamesAreFresh | framework/src/main/java/com/hpe/krakenmare/impl/MqttDeviceListListener.java:44-49 | the UUIDs stored are new and pairwise distinct |
| DeviceRegistration.FaithfulMap | framework/src/main/java/com/hpe/krakenmare/impl/MqttDeviceListListener.java:55-61 | a map filled from a list gives every entry back if and only if no key repeats |
| DeviceRegistration.RedfishCreateDeviceMap | redfish/RedfishAgent.py:289-334 | devices and sensors of any chassis inventory, temperatures before fans |
| DeviceRegistration.SimulatorCreateDeviceMap | simulator/IBswitchSimulator.py:268-282 | one device per switch, its sensors named by the template |
| DeviceRegistration.LookUpSwitch | simulator/IBswitchSimulator.py:373-384 | the lookups for one switch succeed exactly if every key is there, and give the UUIDs of the device and its sensors that are there |
| DeviceRegistration.SensorsOfDevice | redfish/RedfishAgent.py:412-426 | sensor lookups never fail, and give the stored UUIDs if and only if the names are distinct |
| DeviceRegistration.InventoryRoundTrip | framework/src/main/java/com/hpe/krakenmare/impl/MqttDeviceListListener.java:44-64 | every lookup for the same inventory gives the stored UUID if and only if ids and names are distinct |
| DeviceRegistration.RedfishRoundTrip | redfish/RedfishAgent.py:289-426 | every chassis, temperature and fan is looked up as stored, if and only if chassis names and the sensor names of each chassis are distinct |
| DeviceRegistration.SimulatorRoundTrip | simulator/IBswitchSimulator.py:268-384 | every switch and every sensor of the template is looked up as stored, if and only if GUIDs and template names are distinct |
| Manager.AloneIsAtomic | framework/src/main/java/com/hpe/krakenmare/impl/FrameworkMqttListener.java:54-73 | a handler that nobody interrupts is the atomic one: same store, same reply |
| Manager.RunSound | framework/src/main/java/com/hpe/krakenmare/repositories/AgentRedisRepository.java:74-111 | the identity invariant holds under every interleaving and redelivery |
| Manager.Identity | framework/src/main/java/com/hpe/krakenmare/impl/MqttRegistrationListener.java:34-51 | keys are UUIDs, ids and UUIDs determine each other across all times of a run, so an id is never reused; id, uid and name never change; a published UUID was saved first and for that uid |
| Manager.SavedWasHeld | framework/src/main/java/com/hpe/krakenmare/impl/MqttRegistrationListener.java:34-39 | an agent counted as saved has been in the hash |
| Manager.Resurrection | framework/src/main/java/com/hpe/krakenmare/impl/MqttDeviceListListener.java:51-53 | an agent that is back after a deletion was read before it and written after it by one device-list handler |
| Manager.ReappearsIffOverlapped | framework/src/main/java/com/hpe/krakenmare/impl/MqttDeregistrationListener.java:32-36 | a deleted agent reappears if and only if such an overlap occurs |
| Manager.AgentComesBack | framework/src/main/java/com/hpe/krakenmare/impl/MqttDeregistrationListener.java:32-36 | a run in which an agent is stored, deleted and stored again |
| Requests.RunServes | framework/src/main/java/com/hpe/krakenmare/impl/FrameworkMqttListener.java:54-73 | every thread stands where its own request puts it and carries what comes from that request |
| Requests.SaveStores | framework/src/main/java/com/hpe/krakenmare/impl/MqttRegistrationListener.java:34-39 | a registration stores one new agent, with the uid and name asked for and no devices, and touches no other |
| Requests.WriteStores | framework/src/main/java/com/hpe/krakenmare/impl/MqttDeviceListListener.java:44-53 | a device list stores its agent with the devices asked for, UUIDs filled in, and touches no other |
| Requests.DeleteRemoves | framework/src/main/java/com/hpe/krakenmare/impl/MqttDeregistrationListener.java:33-36 | a deregistration deletes its agent whatever was written to it since it was read, touches no other, and will report whether there was one |
| Requests.OnlyTheseTouch | framework/src/main/java/com/hpe/krakenmare/repositories/AgentRedisRepository.java:82-100 | no other step changes what is stored for an agent |
| Requests.EveryReplyAnswers | framework/src/main/java/com/hpe/krakenmare/impl/FrameworkMqttListener.java:54-73 | every reply answers a request that arrived, under its key, by the thread that handles it |
| Requests.RegisteredAfterSave | framework/src/main/java/com/hpe/krakenmare/impl/MqttRegistrationListener.java:34-55 | the UUID in a registration response is that of the new agent that its own handler had stored |
| Requests.DeregisteredAfterDelete | framework/src/main/java/com/hpe/krakenmare/impl/MqttDeregistrationListener.java:33-55 | a deregistration response follows the deletion and reports success exactly if the agent was stored until then |
| Requests.DeregisteredUntilOverlap | framework/src/main/java/com/hpe/krakenmare/impl/MqttDeregistrationListener.java:32-36 | an agent deleted by a deregistration is stored again if and only if a device-list handler overlaps it |
| DeviceReplies.ReplyWasWritten | framework/src/main/java/com/hpe/krakenmare/impl/MqttDeviceListListener.java:51-64 | every device-list response was sent by a handler that had written the list it answers with |
| DeviceReplies.StoredUntilTouched | framework/src/main/java/com/hpe/krakenmare/impl/MqttDeviceListListener.java:44-53 | after a write the agent has exactly that list until the next write or deletion, and from then on none of its UUIDs |
| DeviceReplies.RepliesStandUntilTouched | framework/src/main/java/com/hpe/krakenmare/impl/MqttDeviceListListener.java:44-64 | under any interleaving, the map of a response that names a device is that of the list stored for the agent, if and only if it was not written or deleted since |
| AgentSide.IBswitchSimulator.MqttOnMessage | simulator/IBswitchSimulator.py:161-247 | the callback: which response on which topic changes which fields, and that it raises on a missing field and before the first registration response |
| AgentSide.PayloadOfTopic | simulator/IBswitchSimulator.py:165-216 | only its own registration responses travel on an agent's registration topic |
| AgentSide.AgentKeepsItsOwn | simulator/IBswitchSimulator.py:161-247 | an agent's UUID, device map and deregistration always stem from replies to agents of its own uid |
| AgentSide.GoesByLastNamed | simulator/IBswitchSimulator.py:165-177 | the agent goes by the UUID that the last registration response delivered to it names |
| AgentSide.MapAgreesIff | simulator/IBswitchSimulator.py:216-231 | the device map held was the last one taken, sent to the UUID that the agent then went by; it is that of the present UUID if and only if the last registration response still names that one |
| AgentSide.MapOfAnotherUuid | simulator/IBswitchSimulator.py:161-231 | a run with two registrations in which the agent ends with the second UUID and the device map of the first |
| AgentSide.AnyPayload | simulator/IBswitchSimulator.py:161-247 | any payload on any topic: when each flag is set, when UUID and map change, and when the callback raises |
| AgentSide.FlagStep | simulator/IBswitchSimulator.py:165-237 | for the manager's replies: which one sets which flag, and that the callback raises exactly without a UUID, unless the reply brings it |
| AgentSide.FlagsTellTheTruth | simulator/IBswitchSimulator.py:175-237 | each flag is set if and only if the reply it stands for has been delivered |
| AgentSide.AgentSpelling | simulator/IBswitchSimulator.py:181-208 | the agent's topics are spelled as the manager's |
| Topics.RequestRouting | framework/src/main/java/com/hpe/krakenmare/impl/MqttUtils.java:41-86 | a request matches its own family's filter and no other, exactly if its key has no slash |
| Topics.ResponsesStayOut | framework/src/main/java/com/hpe/krakenmare/impl/MqttUtils.java:56-94 | no response matches any filter |
| Topics.ResponsesInjective | framework/src/main/java/com/hpe/krakenmare/impl/MqttUtils.java:56-94 | response topics determine family and key |
| Topics.BuildTopicsList | fanin/FanIn.py:544-547 | one entry per process |
| Topics.QosOfProcess | fanin/FanIn.py:99-101 | each process subscribes with the configured QoS |
| Topics.SubtopicLevel | agent-python-module/agentcommon.py:599-602 | a subtopic is one level below the topic, named by its number |
| Topics.OneProcessPerSubtopic | fanin/FanIn.py:179 | a published subtopic is accepted by exactly the process with its number |
| LogRotation.RotatingFileHandlerWithCompression.ShiftArchives | fanin/KrakenMareLogger.py:58-64 | in any directory, gaps included, the descending loop moves every archive up by one and drops the last |
| LogRotation.RotatingFileHandlerWithCompression.DoRollover | fanin/KrakenMareLogger.py:53-71 | after any rollovers the archives are exactly the most recent logs, i.gz the i-th, and no ".1" remains |

## Left out

- Float32.Round: no limit on the exponent, and integers above 2^53, which Python rounds to a double first, are rounded once; no result needs either.
- EndToEnd.ReportsAreExact: batch numbers up to 2^24, since beyond that the stamps themselves are rounded; what happens there without loss is in `SilentWithoutLoss`.
- Detectability.LossesShowIff: lists of one constant length, as the simulator builds them, and batch numbers up to 2^24.
- DeviceRegistration.InventoryRoundTrip: one device-list request handled as one step; what overlapping ones leave of its answer is in `RepliesStandUntilTouched`.
- Listeners.MemoryListeners.ProcessDeviceList: devices and sensors of a payload are values, not objects: the payload is freshly decoded and belongs to its handler, so only the sharing of agents is modelled.
- Sensor values with a fraction, and timestamps other than as carried along: the stamp check only sees the integer part.
- Loss detection without batching: FanIn cannot decode such payloads; its failure is modelled (`Raises`), nothing more.
- A batch size below zero, which the configuration could hold, makes the code send undecodable payloads.
- The `Repository` interface: each handler is written once for each repository, which share only their specification.
- AgentSide.IBswitchSimulator.MqttOnMessage: the agent's callback is one step, with debug output off; its polling of the fields and its request topics are not modelled.
- Kafka notifications of device registrations and deregistrations, delivery callbacks and their counter, printed texts and rates.
- The bound of 128 on the thread pool: any number of handlers may overlap here, which only adds runs.
- Repository `reset` and `getAll`, the REST resource, reconnects, TLS, schema registry, configuration and command line.
- The random changes to simulated counters; readings are inputs.
- The base class of the log handler beyond "the current log becomes .1", and gzip beyond being invertible.
