# Verified model of the MQTT-SN client and gateway sessions

This project models the session logic of an MQTT-SN v1.2 client library and gateway library (the gateway
speaks MQTT 3.1.1 to the broker) and proves properties of it over every input, every run or every reachable
state. `dafny verify dfyconfig.toml` checks all of it.

The logic is single-threaded and driven by callbacks: a message, a tick or an API call changes the state
of some operation object and may send messages. Where the original changes objects in place, the model is a
class whose methods make the same changes in the same branches; each method is proved equal to a function on
values or keeps an invariant, and the run-level theorems are about those. Sent messages, reports to the
application and timer requests are kept in sequences, so that a theorem can speak about a whole run.

| file | what it models |
|---|---|
| `PubSend.dfy` | gateway: sending queued publications to the client, with its four-way recursion |
| `PubSendRuns.dfy` | what that operation keeps over whole runs: conservation, retransmission, sleep replies |
| `QosTwo.dfy` | delivery end to end over two lossy links, under ids that never repeat |
| `Reception.dfy` | client: what it knows, remembers, hands over and answers, told by what it heard |
| `QosTwoWire.dfy` | the same under 16-bit message ids: when a run cannot tell the difference |
| `QosTwoWitness.dfy` | runs that break each condition of that, and what they lose or deliver twice |
| `PubRecv.dfy` | gateway: exactly-once receipt from the broker and the bounded queue |
| `RegMgr.dfy` | gateway: the topic registry and its id allocator |
| `Scheduler.dfy` | gateway: one timer for the deadlines of all session operations |
| `Connect.dfy` | gateway: the will dialogue and the CONNECT to the broker |
| `OpQueue.dfy` | client: one SUBSCRIBE/UNSUBSCRIBE and one PUBLISH transaction at a time |
| `PacketIds.dfy` | client: packet ids, their search and who holds them |
| `SendOp.dfy` | client: the publish operation with retries and re-registration |
| `TimerMgr.dfy` | client: count-down timers |
| `GatewayExpiry.dfy` | client: gateway discovery, absolute expiry times against a count-down timer |
| `TopicCache.dfy` | client: sorted registered-topic caches with eviction |
| `TopicFilter.dfy` | client: filter validation and topic matching |
| `Protocol.dfy` | shared vocabulary |

## Findings

Places where the code does not do what its own assertions, names or documentation say. The model follows the
code; each has a lemma with a concrete or general instance and, where it breaks a property, the exact condition.

- QoS 2 delivery is not exactly once in every run. A publication sent under the id of an unfinished reception is
  retired on a PUBCOMP and never handed to the application: from every state with such a publication
  (`QosTwoWitness.ShadowedIsLost`) and by a run from the start (`QosTwoWitness.ReusedIdIsLost`). A PUBCOMP that is
  still on its way when its id comes round retires a publication too (`QosTwoWitness.StaleAckCompletes`). One is
  handed over twice when the client learns its topic id from SUBACK after rejecting it, or loses the topic id or
  starts clean after accepting it (`QosTwoWitness.LearningDeliversTwice`, `QosTwoWitness.ForgettingDeliversTwice`,
  `QosTwoWitness.CleanConnectDeliversTwice`). In runs without these steps it is exactly once
  (`QosTwoWire.ExactlyOnceDelivery`). A left-over PUBACK confirms a QoS 1 publication that was never received
  (`QosTwoWitness.StalePubackConfirms`; `QosTwoWire.AtLeastOnceDelivery`).
- A WILLMSG that nobody asked for, sent before the broker has answered a CONNECT without a will, replaces the message of
  the will kept from the session and sends a second CONNECT (`Connect.StrayWillMsgReplaces`).
- A clean session that the broker accepts keeps the topic registrations of the session before it: the clean flag
  is reset before it is looked at (`Connect.CleanSessionKeepsRegistrations`, `Connect.ConnackClearsNothing`;
  exact condition `Connect.ClearsExactly`).
- The registry stays consistent after `mapTopic` of a new topic exactly when an unused id is found
  (`RegMgr.Registry.MapTopic`): eviction looks up the topic map with the incoming topic, so the evicted topic
  stays there. Two topics and a range of one id are enough (`RegMgr.EvictionBreaks`).
- With an allocation range that does not start at 1, the gap scan can return an id that is in use or miss one
  that is not (`RegMgr.GapScanTakesUsedId`, `RegMgr.GapScanMissesUnusedId`; exact condition `RegMgr.PickExact`).
- `setTopicIdAllocationRange` accepts the ranges (0, 0) and (0xffff, 0xffff), which leave the minimum above the
  maximum (`RegMgr.Registry.SetTopicIdAllocationRange`).
- The guard on 65535 outstanding packet ids never fires; with 65534 outstanding there is no id to find
  (`PacketIds.FreeIdIff`).
- A topic that ends in `/` is not matched by a filter that ends in `/+` (`TopicFilter.TrailingSeparator`; exact
  condition `TopicFilter.MatcherExact`).
- The connect operation, having given up on a silent client, forgets the client id but not the dialogue; a late
  WILLTOPIC then sends a CONNECT with an empty client id (`Connect.LateWillTopicConnectsWithoutId`).
- A CONNACK taken while the connect operation waits for the broker to reconnect leaves the timer running with no
  client id (`Connect.StepKeeps`, `Connect.LateConnackOrphans`); that is the only way a client is asked for a will
  topic outside a dialogue (`Connect.TopicReqExactly`).
- `getMinWait` answers 0 both for no running timer and for a running timer with no time left
  (`TimerMgr.Timers.GetMinWait`), as with the retry period 0, which the library accepts
  (`TimerMgr.ZeroPeriodLooksIdle`).
- After a tick longer than an advertise period a gateway can be reported tentative and be dropped without a
  removal report (`GatewayExpiry.DroppedWhileTentative`; exact condition `GatewayExpiry.WhoSurvives` with
  `GatewayExpiry.RemovedReports`).

## Model

| member | source | states |
|---|---|---|
| `QosTwoWire.ExactlyOnceDelivery` | gateway/lib/src/session_op/PubSend.cpp:30-278 | end to end over two lossy FIFO links, in every run in which the gateway takes no message id that the client remembers or an unread message carries, and in which the client learns no topic id under which it rejected the PUBLISH it answered last while that can come again, and while the reception it remembers can come again neither forgets its topic id nor starts a clean session: each QoS 2 publication is handed to the application at most once, and exactly once if the gateway retired it on a PUBCOMP |
| `QosTwoWire.AtLeastOnceDelivery` | gateway/lib/src/session_op/PubSend.cpp:75-100 | in such a run a QoS 1 publication that the gateway retired on an accepting PUBACK has been handed to the application at least once |
| `QosTwoWire.FewIds` | gateway/lib/src/session_op/PubSend.cpp:261-264 | a run that takes fewer than 2^16 ids, with a client that learns topic ids from REGISTER only, is such a run |
| `QosTwoWire.CompletedIsQosTwo` | gateway/lib/src/session_op/PubSend.cpp:114-123 | in such a run a PUBCOMP retires QoS 2 publications only |
| `QosTwoWire.PlaySim` | gateway/lib/src/session_op/PubSend.cpp:180-264 | such a run under 16-bit ids is step for step the run under ids that never repeat with its ids cut to 16 bits, and the joint invariant holds there |
| `QosTwo.NextInv` | client/lib/src/ClientImpl.cpp:1050-1121 | under ids that never repeat, every gateway event, reception, loss and safe change of what the client remembers keeps the joint invariant of sender, client and links |
| `QosTwoWitness.ShadowedIsLost` | client/lib/src/ClientImpl.cpp:1097-1121 | from every state whose current QoS 2 publication has the id the client remembers, the handshake retires it on a PUBCOMP without a report |
| `QosTwoWitness.ReusedIdIsLost` | client/lib/src/ClientImpl.cpp:1097-1121 | a run from the start that comes there: a reception whose PUBREC is lost, then 2^16 - 1 ids, then the publication that is lost |
| `QosTwoWitness.StaleAckCompletes` | gateway/lib/src/session_op/PubSend.cpp:114-123 | a run from the start in which a PUBCOMP left over from 2^16 ids ago retires a publication the client never got |
| `QosTwoWitness.StalePubackConfirms` | gateway/lib/src/session_op/PubSend.cpp:75-100 | the same with QoS 1: a PUBACK left over from 2^16 ids ago retires a publication the client never got |
| `QosTwoWitness.LearningDeliversTwice` | client/lib/src/op/SubscribeOp.cpp:181-183 | a run in which the client learns the topic id from SUBACK between rejection and retransmission, takes the retransmission, and gets the publication under a new id again after the rejection led to a new registration: two deliveries |
| `QosTwoWitness.ForgettingDeliversTwice` | client/lib/src/ClientImpl.cpp:1389-1431 | a run in which the topic id leaves the table between acceptance and retransmission, so that the retransmission is rejected and leads to a new registration and a PUBLISH under a new id: two deliveries |
| `QosTwoWitness.CleanConnectDeliversTwice` | client/lib/src/op/ConnectOp.cpp:156-162 | a run with a clean CONNECT between acceptance and retransmission: two deliveries |
| `Reception.ReceptionExact` | client/lib/src/ClientImpl.cpp:877-1209 | after every history of messages, learned and forgotten topic ids and clean starts: which topic ids the client knows, which QoS 2 reception it remembers, what it has handed over and what it has answered, all by the history |
| `Reception.RunReception` | client/lib/src/ClientImpl.cpp:877-1209 | the same for the client of every run over the two links, with no condition on the run |
| `Reception.PlainDeliveries` | client/lib/src/ClientImpl.cpp:1050-1081 | a QoS 0 or QoS 1 publication is handed over each time it is read under a known topic id, and at no other time |
| `Reception.Receiver.HandleRegister` | client/lib/src/ClientImpl.cpp:877-921 | an accepted REGISTER makes its topic id known, for which a full table may give up another; every REGISTER gets the matching REGACK; the joint invariant stays unless the id given up is still needed; the object stays what its history says |
| `Reception.Receiver.HandlePublish` | client/lib/src/ClientImpl.cpp:923-1126 | unknown ids are rejected, topics that are not subscribed ignored; a repeated QoS 2 id is acknowledged only with DUP and never reported again; the joint invariant stays; the object stays what its history says |
| `Reception.Receiver.HandlePubrel` | client/lib/src/ClientImpl.cpp:1182-1209 | the remembered id is cleared by its own PUBREL only; every PUBREL gets a PUBCOMP; the joint invariant stays; the object stays what its history says |
| `Reception.Receiver.ChangeTopic` | client/lib/src/ClientImpl.cpp:1389-1431 | a topic id that comes or goes by another way keeps the joint invariant when the PUBLISH rejected last under it, or the remembered one under it, cannot come again; the object stays what its history says |
| `Reception.Receiver.StartClean` | client/lib/src/op/ConnectOp.cpp:156-162 | a clean CONNECT forgets everything, and keeps the joint invariant when the remembered reception cannot come again; the object stays what its history says |
| `PubSend.OneTurnDrains` | gateway/lib/src/session_op/PubSend.cpp:149-192 | one turn of the re-entrant loop already drains the queue through the recursion or leaves a publication waiting, and the rest of the work is unchanged |
| `PubSend.AnswersLeadOn` | gateway/lib/src/session_op/PubSend.cpp:53-123 | a client that answers gets the operation through: REGACK to PUBLISH under the registered id, counted towards the retry count, PUBREC to PUBREL under the same id, PUBACK and PUBCOMP to the end of the publication |
| `PubSend.RefusalsLeadOn` | gateway/lib/src/session_op/PubSend.cpp:53-100 | a refused registration or PUBLISH ends the publication, a rejected topic id starts it over with what the registry then answers, an accepting PUBACK is not the end of QoS 2 |
| `PubSend.OthersPassOver` | gateway/lib/src/session_op/PubSend.cpp:53-123 | an answer with other ids than those of the current publication changes nothing |
| `PubSend.TickRepeats` | gateway/lib/src/session_op/PubSend.cpp:30-51 | silence repeats the message of the stage, REGISTER under a new id, PUBLISH under its id with DUP, PUBREL under its id, until the retry count is reached and the publication given up |
| `PubSend.NobodyWaits` | gateway/lib/src/session_op/PubSend.cpp:280-300 | once the operation has looked, a connected client has an empty queue or a publication under way; a client that is disconnected, or asleep and has not asked, is left alone |
| `PubSend.PubSendOp.NewSends` | gateway/lib/src/session_op/PubSend.cpp:149-178 | terminates, is never entered with a current publication, and equals the flat loop followed by one tail |
| `PubSend.PubSendOp.SendCurrent` | gateway/lib/src/session_op/PubSend.cpp:180-192 | fresh topic id, message id and attempt count, then the send |
| `PubSend.PubSendOp.DoSendCurrent` | gateway/lib/src/session_op/PubSend.cpp:194-259 | one transmission or retirement, then what the retirement leads to |
| `PubSend.PubSendOp.CheckSend` | gateway/lib/src/session_op/PubSend.cpp:280-300 | starts the loop exactly for an idle operation of a connected or pinging client |
| `PubSend.PubSendOp.TickImpl` | gateway/lib/src/session_op/PubSend.cpp:30-51 | retransmits PUBLISH or PUBREL, or gives up after the retry count |
| `PubSend.PubSendOp.HandleRegack` | gateway/lib/src/session_op/PubSend.cpp:53-73 | a REGACK with both ids right leads to the PUBLISH, a refusal retires the publication |
| `PubSend.PubSendOp.HandlePuback` | gateway/lib/src/session_op/PubSend.cpp:75-100 | every rejection of a topic id discards its registration, also one that is otherwise ignored; one of the current PUBLISH starts over with a new id; an acceptance of QoS 2 is ignored |
| `PubSend.PubSendOp.HandlePubrec` | gateway/lib/src/session_op/PubSend.cpp:102-112 | PUBREL with the id of the PUBREC |
| `PubSend.PubSendOp.HandlePubcomp` | gateway/lib/src/session_op/PubSend.cpp:114-123 | retires the publication and goes on |
| `PubSend.PubSendOp.HandlePingreq` | gateway/lib/src/session_op/PubSend.cpp:125-137 | a sleeping client's PINGREQ releases the queue |
| `PubSendRuns.ExactlyOnePlace` | gateway/lib/src/session_op/PubSend.cpp:149-300 | after every run each publication ever enqueued is at exactly one position among dropped, retired, current and queued, and those not dropped are in enqueue order |
| `PubSendRuns.Conservation` | gateway/lib/src/session_op/PubRecv.cpp:154-161 | every run keeps that account, and what was started is never started again |
| `PubSendRuns.SendsBetweenAcks` | gateway/lib/src/session_op/PubSend.cpp:194-259 | between client acknowledgements any publication is sent at most retry-count times as REGISTER or PUBLISH |
| `PubSendRuns.RelsAfterPubrec` | gateway/lib/src/session_op/PubSend.cpp:30-51 | a PUBREC and what follows up to the next acknowledgement cost at most retry count + 1 PUBRELs |
| `PubSendRuns.RepliesOverRun` | gateway/lib/src/session_op/PubSend.cpp:149-178 | over a whole run at most one DISCONNECT, and each PINGREQ of a sleeping client that found none waiting has been answered with one PINGRESP or is the one that waits |
| `PubSendRuns.RepliesNeedEmptyQueue` | gateway/lib/src/session_op/PubSend.cpp:160-178 | a DISCONNECT or PINGRESP leaves only with an empty broker queue, despite re-entrance |
| `PubSendRuns.PingAnswered` | gateway/lib/src/session_op/PubSend.cpp:125-178 | a PINGREQ of an idle sleeping client is followed by the queue and then exactly one PINGRESP, unless a publication holds the queue up or a disconnect is pending |
| `PubSendRuns.DisconnectAnswered` | gateway/lib/src/session_op/PubSend.cpp:149-178 | a pending disconnect is followed by the queue and then the one DISCONNECT, if none was sent |
| `PubSendRuns.PingsOverRun` | gateway/lib/src/session_op/PubSend.cpp:125-178 | in every run in which the status changes only while no PINGREQ waits, a PINGREQ waits only for the publication under way or behind a pending disconnect |
| `PubSendRuns.SleeperUndisturbed` | gateway/lib/src/session_op/PubSend.cpp:280-300 | a client that is not connected, has nothing under way and has not asked gets nothing, whatever happens |
| `PubSendRuns.TimerOverRun` | gateway/lib/src/session_op/PubSend.cpp:30-259 | after every run the timer runs exactly while a publication is under way |
| `PubRecv.HeldIff` | gateway/lib/src/session_op/PubRecv.cpp:28-152 | after every history: at most one entry per packet id, and exactly those whose QoS 2 PUBLISH is the last word on its id |
| `PubRecv.PubrelReleases` | gateway/lib/src/session_op/PubRecv.cpp:129-152 | a PUBREL enqueues exactly the content of that PUBLISH, if there is one, and always yields PUBCOMP |
| `PubRecv.PublishBetweenReleases` | gateway/lib/src/session_op/PubRecv.cpp:129-152 | between two PUBRELs of one id that enqueue lies a QoS 2 PUBLISH with that id |
| `PubRecv.PaysWhatIsOwed` | gateway/lib/src/session_op/PubRecv.cpp:28-152 | over every history the contents enqueued are, in order, those of the QoS 0 and QoS 1 PUBLISHes and of the released QoS 2 ones, with QoS, retain and DUP; the replies are one PUBACK per QoS 1 PUBLISH, one PUBREC per QoS 2 PUBLISH and one PUBCOMP per PUBREL |
| `PubRecv.Pushed` | gateway/lib/src/session_op/PubRecv.cpp:154-161 | the queue becomes the longest suffix of old queue plus new that fits the limit |
| `PubRecv.PubRecvOp.AddPubInfo` | gateway/lib/src/session_op/PubRecv.cpp:154-161 | the trimming loop computes that suffix |
| `PubRecv.PubRecvOp.HandlePublish` | gateway/lib/src/session_op/PubRecv.cpp:28-127 | each QoS level's reply, enqueue and bookkeeping; all that the history owes is paid |
| `PubRecv.PubRecvOp.HandlePubrel` | gateway/lib/src/session_op/PubRecv.cpp:129-152 | the held message is enqueued once and forgotten; all that the history owes is paid |
| `RegMgr.PickExact` | gateway/lib/src/RegMgr.cpp:116-151 | for every range and every set of ids in use: exactly when the id taken is an unused one of the range |
| `RegMgr.FromOneExact` | gateway/lib/src/RegMgr.cpp:116-151 | with minimum 1 an unused id is found whenever there is one, eviction happens only when there is none, and the gap scan takes the least |
| `RegMgr.GapScanExact` | gateway/lib/src/RegMgr.cpp:137-151 | exactly when the counting scan finds an unused id, and exactly when it finds none |
| `RegMgr.GapScanTakesUsedId` | gateway/lib/src/RegMgr.cpp:137-147 | range 2 to 3 with both in use: 2 is taken again |
| `RegMgr.GapScanMissesUnusedId` | gateway/lib/src/RegMgr.cpp:137-151 | range 3 to 5 with 4 unused: no id is found |
| `RegMgr.Registry.SetTopicIdAllocationRange` | gateway/lib/src/RegMgr.cpp:39-48 | the usable ids are those of the given range within 1 to 0xfffe; the range is non-empty exactly when the given one meets that interval |
| `RegMgr.Registry.RegPredefined` | gateway/lib/src/RegMgr.cpp:50-88 | keeps list and both maps in step; succeeds exactly for a new pair or the pair already registered |
| `RegMgr.Registry.PickId` | gateway/lib/src/RegMgr.cpp:116-151 | the branches and the scanning loop compute the specified choice |
| `RegMgr.Registry.FindVictim` | gateway/lib/src/RegMgr.cpp:153-162 | the least evictable id |
| `RegMgr.Registry.Evict` | gateway/lib/src/RegMgr.cpp:153-167 | takes the least evictable id and drops exactly its node from the list and its entry from the id map, but leaves its topic leading to that node |
| `RegMgr.DiscardedComesAnew` | gateway/lib/src/RegMgr.cpp:95-205 | a registered topic is known, and after its registration was discarded it is inserted anew, here under the same id |
| `RegMgr.EvictionBreaks` | gateway/lib/src/RegMgr.cpp:153-167 | a range of one id and two topics: the registry is inconsistent |
| `RegMgr.Registry.MapTopic` | gateway/lib/src/RegMgr.cpp:95-186 | known and short topics change nothing; a new one gets the id found, or else the least evictable one, and a normal node in list and maps; the registry stays consistent exactly when an unused id is found, then with one fresh entry; reading the id back gives the topic |
| `RegMgr.Registry.DiscardRegistration` | gateway/lib/src/RegMgr.cpp:188-205 | removes the topic with that id from list and both maps, nothing else |
| `RegMgr.Registry.MapTopicId` | gateway/lib/src/RegMgr.cpp:207-219 | the topic with that id, or the empty string when no topic has it |
| `RegMgr.Registry.ClearRegistrations` | gateway/lib/src/RegMgr.cpp:221-241 | exactly the predefined registrations stay, in list and both maps |
| `RegMgr.ById` | gateway/lib/src/RegMgr.cpp:207-219 | in a consistent registry the id of any registered topic leads back to that topic |
| `RegMgr.ShortNameRoundTrip` | gateway/lib/src/RegMgr.cpp:22-35 | the client's decoding of a short topic name id gives the name back |
| `Scheduler.SetRetryPeriod` | gateway/lib/src/SessionImpl.h:125-128 | 1000 times the value, capped below the no-timeout sentinel |
| `Scheduler.Session.NextTickReq` | gateway/lib/src/SessionOp.h:63-66 | the deadline is now plus the request; history and fields stay in step |
| `Scheduler.Session.CancelTick` | gateway/lib/src/SessionOp.h:68-71 | no deadline; history and fields stay in step |
| `Scheduler.Session.TermRequest` | gateway/lib/src/SessionImpl.cpp:244-251 | the session is terminating, and nothing else changes |
| `Scheduler.Session.Run` | gateway/lib/src/SessionOp.h:63-71 | the commands of an operation are carried out, each of them, in order |
| `Scheduler.Session.TimestampUpdated` | gateway/lib/src/SessionOp.cpp:17-24 | a due operation ticks first thing and its commands are carried out, others are left alone |
| `Scheduler.Session.NextTick` | gateway/lib/src/SessionOp.cpp:46-57 | the remaining time, at least 1 and never the sentinel for an armed operation |
| `Scheduler.Session.UpdateOps` | gateway/lib/src/SessionImpl.cpp:392-397 | no due deadline is passed over: the operation ticks in this pass unless re-armed or cancelled in it first |
| `Scheduler.Session.UpdateTimestamp` | gateway/lib/src/SessionImpl.cpp:380-390 | time moves by what the driver reports and all due operations are served |
| `Scheduler.Session.ApiCall` | gateway/lib/src/SessionImpl.cpp:434-446 | only the outermost call moves time; ticks stay on time while the driver is punctual |
| `Scheduler.Session.ProgramNextTimeout` | gateway/lib/src/SessionImpl.cpp:359-378 | the request is 0 exactly when no operation is armed, otherwise the least remaining time |
| `Scheduler.Session.ApiCallExit` | gateway/lib/src/SessionImpl.cpp:399-413 | after every outermost exit of a session that is not terminating the request is right for the deadlines |
| `Scheduler.Session.Tick` | gateway/lib/src/SessionImpl.cpp:89-100 | time moves by the request and all due operations are served, although one of them may terminate the session; the next request is right unless it does |
| `Connect.ConnectRun` | gateway/lib/src/session_op/Connect.cpp:28-407 | in every run will message implies will topic implies client id, and CONNECT goes to the broker only after the will dialogue is complete or was not required, with the keep alive, clean flag and will the client gave, kept or dropped in it, under its client id unless the operation gave up in between; registrations are cleared only for a finished clean dialogue, and the client is reported to the application once at most |
| `Connect.ConnackSettles` | gateway/lib/src/session_op/Connect.cpp:180-187 | a CONNACK counts only after a finished dialogue; acceptance gives the session what the dialogue asked for, refusal leaves it disconnected without an id, both end the dialogue |
| `Connect.AckOutcome` | gateway/lib/src/session_op/Connect.cpp:329-407 | what an answer sends, reports and leaves of the session, for every return code |
| `Connect.UnfinishedStep` | gateway/lib/src/session_op/Connect.cpp:189-295 | the next step without a retry left, while waiting for the broker, and in an unfinished dialogue |
| `Connect.FinishedStep` | gateway/lib/src/session_op/Connect.cpp:208-281 | the next step of a finished dialogue: refused, accepted at once, refused for want of a broker, torn down first, or forwarded, and when |
| `Connect.HeardSteps` | gateway/lib/src/session_op/Connect.cpp:28-178 | which events lead to a next step, and from which state |
| `Connect.UnheardOutcome` | gateway/lib/src/session_op/Connect.cpp:28-178 | what the other events do |
| `Connect.StepKeeps` | gateway/lib/src/session_op/Connect.cpp:48-295 | every event keeps that; the timer runs on without a client id exactly after a CONNACK taken while waiting for the broker |
| `Connect.LateWillTopicConnectsWithoutId` | gateway/lib/src/session_op/Connect.cpp:107-129 | after giving up, an empty WILLTOPIC sends CONNECT with an empty client id |
| `Connect.SilentClientGivenUp` | gateway/lib/src/session_op/Connect.cpp:189-198 | a client that announces a will and stays silent leads to that state |
| `Connect.StrayWillMsgReplaces` | gateway/lib/src/session_op/Connect.cpp:131-145 | a WILLMSG that nobody asked for sends a second CONNECT with another will message |
| `Connect.LateConnackOrphans` | gateway/lib/src/session_op/Connect.cpp:180-187 | a CONNACK during a reconnect, then a tick: WILLTOPICREQ without a dialogue |
| `Connect.TopicReqExactly` | gateway/lib/src/session_op/Connect.cpp:189-295 | a step asks for a will topic that no dialogue waits for exactly when it is a tick that finds no client id with a retry left |
| `Connect.ClearsExactly` | gateway/lib/src/session_op/Connect.cpp:28-295 | for every event: registrations are cleared exactly when it makes the operation go on with a finished clean request that the session already meets, with a retry left, not waiting for the broker and with no disconnect pending |
| `Connect.ConnackClearsNothing` | gateway/lib/src/session_op/Connect.cpp:366-383 | no CONNACK of the broker clears registrations |
| `Connect.CleanSessionKeepsRegistrations` | gateway/lib/src/session_op/Connect.cpp:366-383 | a clean CONNECT and its CONNACK: what goes out, and no clearing |
| `Connect.ConnectOp.HandleConnect` | gateway/lib/src/session_op/Connect.cpp:48-105 | rejects another client id, starts a dialogue, waits for the broker or goes on; the dialogue invariant stays |
| `Connect.ConnectOp.HandleWillTopic` | gateway/lib/src/session_op/Connect.cpp:107-129 | taken only in an unfinished dialogue; an empty topic finishes it; the dialogue invariant stays |
| `Connect.ConnectOp.HandleWillMsg` | gateway/lib/src/session_op/Connect.cpp:131-145 | taken only after the will topic; the dialogue invariant stays |
| `Connect.ConnectOp.HandlePublish` | gateway/lib/src/session_op/Connect.cpp:147-178 | a QoS -1 PUBLISH without any client id connects a publish-only client; the dialogue invariant stays |
| `Connect.ConnectOp.HandleConnack` | gateway/lib/src/session_op/Connect.cpp:180-187 | taken only when the dialogue is complete; the dialogue invariant stays |
| `Connect.ConnectOp.NextStep` | gateway/lib/src/session_op/Connect.cpp:189-295 | gives up, asks for the next part of the will, answers itself after a ping and a clearing of registrations, or forwards |
| `Connect.ConnectOp.Ack` | gateway/lib/src/session_op/Connect.cpp:329-383 | the client's CONNACK, the first report of the client, the session state, and a cleared operation |
| `Connect.ConnectOp.BrokerConnectionUpdated` | gateway/lib/src/session_op/Connect.cpp:33-46 | acts only while waiting for the broker; the dialogue invariant stays |
| `Connect.ConnectOp.TickImpl` | gateway/lib/src/session_op/Connect.cpp:28-31 | an expired tick takes the next step; the dialogue invariant stays |
| `OpQueue.OneTransaction` | client/lib/src/ClientImpl.cpp:433-436 | in every reachable state a live SUBSCRIBE/UNSUBSCRIBE operation is unsuspended exactly when it is the oldest of them, and a PUBLISH operation exactly when it is the front of its list |
| `OpQueue.HeadFinished` | client/lib/src/ClientImpl.cpp:1666-1735 | completing the oldest completes, in order, exactly the operations behind it up to the first that does not complete when resumed |
| `OpQueue.Client.Prepare` | client/lib/src/ClientImpl.cpp:393-544 | refused exactly in the five listed cases, with the error of the case; a new operation is last in order and waits exactly when its queue is not empty |
| `OpQueue.Client.OpComplete` | client/lib/src/ClientImpl.cpp:1312-1345 | for a completion anywhere in a queue and any chain of resumes that complete at once: terminates, completes exactly the specified operations, and exclusion holds again |
| `OpQueue.Client.FinaliseSubUnsubOp` | client/lib/src/ClientImpl.cpp:1697-1735 | the three cases all resume the oldest SUBSCRIBE or UNSUBSCRIBE |
| `OpQueue.Client.FinaliseSendOp` | client/lib/src/ClientImpl.cpp:1678-1688 | the front of the PUBLISH list is resumed |
| `OpQueue.Client.Resume` | client/lib/src/op/SubscribeOp.cpp:220-233 | an operation that is not suspended is left alone; one that is either runs or completes at once, with what follows |
| `OpQueue.Client.FirstSubUnsub` | client/lib/src/ClientImpl.cpp:1719-1734 | the scan over all operations finds the oldest of the two kinds |
| `OpQueue.Client.Send` | client/lib/src/op/SendOp.cpp:145-181 | unlocks preparation; ends the operation on rejection, or when it may run and fails or is done |
| `OpQueue.Client.Cancel` | client/lib/src/op/SendOp.cpp:183-192 | removal from any place in the queue, unlocking preparation only if it was not sent |
| `OpQueue.Client.TerminateOps` | client/lib/src/ClientImpl.cpp:1518-1527 | every operation is completed and none is left, although each completion resumes others |
| `OpQueue.Client.CleanOps` | client/lib/src/ClientImpl.cpp:1529-1545 | only null entries go; the operations and their order stay |
| `PacketIds.FreeIdIff` | client/lib/src/op/Op.cpp:94-102 | an unused id in 1 to 0xfffe exists exactly when fewer than 65534 are outstanding |
| `PacketIds.Pool.Alloc` | client/lib/src/op/Op.cpp:94-130 | the wrap-around search ends and returns the first unused id after the last one, which is inserted in order; 0 exactly when the storage is full |
| `PacketIds.Pool.Release` | client/lib/src/op/Op.cpp:132-147 | removes that id if outstanding, nothing otherwise |
| `PacketIds.IdOwners.Prepare` | client/lib/src/ClientImpl.cpp:429-431 | a new operation holds no ids |
| `PacketIds.IdOwners.SendOne` | client/lib/src/op/SubscribeOp.cpp:118-126 | outstanding ids stay the disjoint union of the ids held by live operations; the operation has an id exactly when the storage was not full |
| `PacketIds.IdOwners.SendTwo` | client/lib/src/op/SendOp.cpp:514-523 | the same for the two ids of a publish operation, each exactly when it is called for and there is room |
| `PacketIds.IdOwners.Reallocate` | client/lib/src/op/SendOp.cpp:325-340 | the same across release and reallocation on a rejected topic id |
| `PacketIds.IdOwners.Destroy` | client/lib/src/op/SendOp.cpp:47-50 | the same when an operation is destroyed with its ids |
| `SendOp.PublishRun` | client/lib/src/op/SendOp.cpp:145-507 | in every run under any gateway messages: DUP is set exactly on repetitions within a registration cycle, PUBREL only answers a PUBREC for the operation's own PUBLISH, it re-registers only directly after a rejection of the topic id of its own PUBLISH and at most retry-count times, and it reports completion only on a QoS 0 PUBLISH, a refusal of its registration, a PUBACK for its PUBLISH or a PUBCOMP after the PUBREC |
| `SendOp.Cooperation` | client/lib/src/op/SendOp.cpp:209-383 | with a gateway that answers, each answer leads to the next message of the handshake with the right ids, and the last one to completion |
| `SendOp.Refusals` | client/lib/src/op/SendOp.cpp:289-349 | a rejected normal topic id with a full retry left restarts registration with the new ids, every other refusal of the PUBLISH completes the operation |
| `SendOp.RegistrationRefused` | client/lib/src/op/SendOp.cpp:209-231 | a refused registration completes the operation, an unusable topic id is passed over |
| `SendOp.OthersPassOver` | client/lib/src/op/SendOp.cpp:209-383 | an answer that does not carry the ids of the REGISTER or PUBLISH under way changes nothing |
| `SendOp.TimeoutRepeats` | client/lib/src/op/SendOp.cpp:492-507 | a timeout repeats the message of the stage, PUBLISH with DUP, and ends the operation when no retry is left |
| `SendOp.FirstSend` | client/lib/src/op/SendOp.cpp:145-207 | the first message goes out at once, or on resumption, with all retries |
| `SendOp.SilenceEnds` | client/lib/src/op/SendOp.cpp:492-507 | without messages the operation ends with the timeout after the last retry at the latest, and not before if sending works |
| `SendOp.Operation.constructor` | client/lib/src/op/SendOp.cpp:145-181 | the first send, or none if suspended |
| `SendOp.Operation.SendAndCheck` | client/lib/src/op/SendOp.cpp:417-490 | the message of the stage; QoS 0 completes; a failed send ends the operation |
| `SendOp.Operation.ResumeOp` | client/lib/src/op/SendOp.cpp:194-207 | a suspended operation sends what it held back; the invariant behind `PublishRun` stays |
| `SendOp.Operation.TimeoutInternal` | client/lib/src/op/SendOp.cpp:492-507 | retry or give up; the invariant behind `PublishRun` stays |
| `SendOp.Operation.HandleRegack` | client/lib/src/op/SendOp.cpp:209-287 | from registration to PUBLISH with the given id and a full retry count; the invariant behind `PublishRun` stays |
| `SendOp.Operation.HandlePuback` | client/lib/src/op/SendOp.cpp:289-349 | completion, or a new registration cycle for a rejected normal topic id; the invariant behind `PublishRun` stays |
| `SendOp.Operation.HandlePubrec` | client/lib/src/op/SendOp.cpp:352-372 | PUBREL for a QoS 2 PUBLISH with that id; the invariant behind `PublishRun` stays |
| `SendOp.Operation.HandlePubcomp` | client/lib/src/op/SendOp.cpp:374-383 | completion after PUBREL only; the invariant behind `PublishRun` stays |
| `TimerMgr.TicksAddUp` | client/lib/src/TimerMgr.cpp:57-89 | a tick of a and one of b leave the slots and fire the callbacks of one tick of a + b |
| `TimerMgr.AnyTicks` | client/lib/src/TimerMgr.cpp:57-89 | the same for any way of cutting the elapsed time into ticks |
| `TimerMgr.Timers.AllocTimer` | client/lib/src/TimerMgr.cpp:21-55 | a free slot is found whenever the counter says so; none is returned exactly when all slots there may be are in use |
| `TimerMgr.Timers.FreeTimer` | client/lib/src/TimerMgr.cpp:129-141 | the slot is blank and the counter still right |
| `TimerMgr.Timers.TimerWait` | client/lib/src/TimerMgr.cpp:143-156 | that timer waits, others are left alone |
| `TimerMgr.Timers.TimerCancel` | client/lib/src/TimerMgr.cpp:158-170 | that timer is cancelled, its suspension kept |
| `TimerMgr.Timers.TimerSetSuspended` | client/lib/src/TimerMgr.cpp:185-195 | only the suspension changes |
| `TimerMgr.Timers.Tick` | client/lib/src/TimerMgr.cpp:57-89 | every slot counts down or expires, and exactly the expired callbacks are called, in slot order |
| `TimerMgr.Timers.GetMinWait` | client/lib/src/TimerMgr.cpp:91-115 | a shorter tick fires nothing, a tick of that length fires something; exactly when the answer is 0 |
| `TimerMgr.ZeroPeriodLooksIdle` | client/lib/templ/client.cpp.templ:161-171 | with the retry period 0 a timer runs and the answer is 0 |
| `GatewayExpiry.WhoSurvives` | client/lib/src/ClientImpl.cpp:1760-1789 | which gateways a timeout keeps, exactly |
| `GatewayExpiry.RemovedReports` | client/lib/src/ClientImpl.cpp:1763-1776 | which gateways are reported removed and tentative, exactly |
| `GatewayExpiry.DroppedWhileTentative` | client/lib/src/ClientImpl.cpp:1774-1785 | a late gateway with losses to spare, dropped without a removal report |
| `GatewayExpiry.SilentGatewayRemoved` | client/lib/src/ClientImpl.cpp:1760-1789 | a gateway that stays silent is reported tentative once for each loss to spare, then removed, and is gone |
| `GatewayExpiry.Discovery.MonitorGatewayExpiry` | client/lib/src/ClientImpl.cpp:1737-1758 | the timer runs to the least expiry, or stays stopped for an empty list |
| `GatewayExpiry.Discovery.HandleAdvertise` | client/lib/src/ClientImpl.cpp:683-749 | ids stay distinct, expiries ahead and the timer coupled; what is stored and reported |
| `GatewayExpiry.Discovery.HandleGwinfo` | client/lib/src/ClientImpl.cpp:779-874 | the same for GWINFO from a gateway or from a client, with the report of each case |
| `GatewayExpiry.Discovery.GwExpiryTimeout` | client/lib/src/ClientImpl.cpp:1760-1789 | exactly the survivors stay and the timer is coupled again |
| `GatewayExpiry.Discovery.Tick` | client/lib/src/ClientImpl.cpp:190-197 | after any elapsed time all expiries are ahead of the timestamp and the timer's remaining time is least expiry minus timestamp |
| `TopicCache.KeyOrders` | client/lib/src/ClientImpl.cpp:60-98 | topic ids and topics are strictly and totally ordered |
| `TopicCache.StoreIsUpdate` | client/lib/src/ClientImpl.cpp:1389-1460 | a store keeps the vector strictly sorted, makes look-up return the new value and leaves every other key unchanged, except one entry of least timestamp when the key was absent and the size at the limit; the stored key has the present timestamp, every other entry its own |
| `TopicCache.Cache.Store` | client/lib/src/ClientImpl.cpp:1444-1460 | the cache code computes that store |
| `TopicCache.Cache.StoreOnRegack` | client/lib/src/op/SendOp.cpp:233-277 | the REGACK path computes the same store |
| `TopicCache.Cache.RemoveLeastRecentlyUsedIfNeeded` | client/lib/src/ClientImpl.cpp:100-120 | one entry of least timestamp goes exactly when the limit is reached |
| `TopicCache.Cache.Find` | client/lib/src/ClientImpl.cpp:60-68 | binary search finds what a linear look-up finds |
| `TopicCache.Cache.RemoveKey` | client/lib/src/ClientImpl.cpp:1407-1419 | that key goes, every other stays |
| `TopicCache.Cache.FindByValue` | client/lib/src/ClientImpl.cpp:1433-1442 | the least key with that value, if any |
| `TopicCache.Cache.RemoveValue` | client/lib/src/ClientImpl.cpp:1156-1167 | exactly the entries with a rejected topic id go |
| `TopicFilter.MatcherExact` | client/lib/src/ClientImpl.cpp:122-171 | for every filter and topic the recursive matcher decides level-by-level matching plus one condition on an empty last level |
| `TopicFilter.MatcherMeansLevels` | client/lib/src/ClientImpl.cpp:122-171 | for every non-empty topic that does not end in a separator it decides level-by-level matching |
| `TopicFilter.TrailingSeparator` | client/lib/src/ClientImpl.cpp:128-130 | it does not for the filter a/+ and the topic a/ |
| `TopicFilter.VerifySubFilter` | client/lib/src/op/Op.cpp:174-249 | accepts exactly the non-empty filters whose levels are wildcard-free, a lone +, or a lone final # |

## Left out

- Message framing and field codecs, sockets, timers of the operating system, application wrappers, configuration
  files and loggers: messages are datatypes, and elapsed time, send errors, memory shortage and what the broker
  and the application answer are inputs.
- 64-bit timestamps and the gateway's message id counter are unbounded; message ids are the low 16 bits of the counter.
- The topic registry inside `PubSend`: its answers are arbitrary there, and its own behaviour is `RegMgr`. That
  the client refuses a registration has no effect on the registry in this model.
- QosTwoWire.ExactlyOnceDelivery: the conditions on the run are sufficient; for each there is a run that breaks it and
  fails, but a run may break one and still deliver exactly once, for instance when the message that would do the harm
  is lost on a link.
- Reception.Receiver.HandlePublish: whether the topic is subscribed is an input, and the text handed to the application
  is that of the publication, not the one read from the client's tables. An id that is copied from the table of the
  publishing side may drive another from the full table; that is a call of `ChangeTopic` of its own.
- Reception.Receiver.HandleRegister: which id leaves the full table is an input; the table itself is `TopicCache`.
- PubSend.PubSendOp.HandlePuback: says which registration is discarded; what the registry answers afterwards is
  arbitrary there, and the discarding itself is `RegMgr.Registry.DiscardRegistration`.
- SendOp.Operation.HandleRegack: the insertion of the topic id into the cache is `TopicCache.Cache.StoreOnRegack`.
- Connect.ConnectOp.NextStep: the request for authentication data and their place in the CONNECT are left out.
- Connect.ConnectOp.Ack: user name and password of the session are left out.
- The removal of a filter on unsubscribe, whose condition compares with `!=` and is no plain set removal.
- RegMgr.Registry.RegPredefined: demands that topic and id are both new or both known, because for one
  known and one new the source dereferences the end of a map, which has no defined outcome to model.
- RegMgr.Registry.MapTopic: demands a non-empty range and, when it must evict, an entry to evict, because the
  source uses the result of the search unchecked.
- Scheduler.Session.NextTickReq: requests are at most the capped retry period, which all callers of the source keep.
- Authentication data and the sending of will updates.
- The keep-alive, search, disconnect, will, ping, sleep and encapsulation operations, except that the client's
  list of operations may hold any number of others.
- An operation that is resumed after it was prepared but before it was sent sends an unconfigured message; the
  operation queue says nothing about message content.
- Application callbacks that call back into the client while a completion is under way, and object lifetime.
