# MQTT engine, trace buffer and hamster store: a verified model

This Dafny project models three parts of the repository and proves what they are for.

**The MQTT client engine** (Paho C, under `DistributedSystems/IOT/lib`). All clients of a process
share one command queue. An API call appends a command and, for a client with persistence, stores it;
the send thread takes the first command that heads its own client's commands and may be sent; the
receive thread completes commands as acknowledgements arrive; failed connects move on through server
URIs and protocol versions; clean sessions and `destroy` remove a client's commands.

- `AsyncState` is the engine as a step machine on values. Each step is one critical section under
  `mqttasync_mutex`. What the network, the clock and the backend contribute are parameters of the
  step, so every theorem holds for all of their answers. An event log records what entered and left
  the queue and what the application was told.
- `Engines` is the engine in its own form: a class whose queue is the linked list and whose methods
  update fields in place, with the loops of the source. Each method is proved to compute one function
  of the step machine, `Perform` takes any step by one of them, and `Play` shows that a sequence of
  such calls is a run, so what is proved about runs holds of the code's form.
- `AsyncInvariants`, `AsyncOrder`, `AsyncBalance`, `AsyncAnswers`, `AsyncOutcomes`, `AsyncRestart`,
  `AsyncTheorems`, `AsyncUris`, `AsyncSessions`, `ConnectChain` and `ConnectEnds` prove the properties
  of all runs; `AsyncRuns` has runs that reach what goes wrong.
- `AsyncDispatch`, `AsyncClients`, `AsyncGrowth` and `AsyncRequests` say what single steps do, with every
  condition and number written out: when a command is sent, what becomes of each field of a client, what
  enters and leaves the queue, what a call is answered.
- `LinkedLists` is the doubly linked list with its cached search cursor, refined to a sequence and a
  cursor index. `PendingWrites` is the pass that deletes while it iterates.
- `CommandCodec` is the persistent form of commands, `Packet` the Remaining Length (section 2.2.3 of
  MQTT 3.1.1) and PUBLISH (section 3.3), sent and received. `StoredFormat` and `WireFormat` say of both
  which byte stands where.

**The trace buffer** (`Log.c`): `TraceQueue`, a fixed array with two wrapping indices.

**The hamster store** (`DistributedSystems/CustomRPC/libsrc`): `HamsterStore` has the operations on
the file of records, `HamsterLaws` the laws over whole runs, `HamsterBill` what a bill means, and
`HamsterStay` the costs, ids and enumerations in plain numbers.

## Findings

Where the code does not do what its comments or documentation say, the model follows the code.

- `MQTTAsync_assignMsgId` promises an id that is not in use, or 0 if there is none. It compares tokens
  over the whole queue, whatever the client, and so avoids more ids than it needs to. It never looks
  at the cursor's own id: from a non-zero cursor it returns 0 exactly when all other ids are taken
  (`ZeroMeansExhausted`), and a run reaches a client that is refused with its last id free again
  (`ZeroThoughOneIsFree`). From cursor 0, which is where a client starts, it ends exactly when some id
  is free (`SearchFromZero`), and a run reaches a client whose first request would search for ever
  (`SearchCanDiverge`). It does not look at publications in flight: no id clashes with one exactly when
  all of them are also queued or awaiting (`InFlightIdsAvoided`), the next id of a given client clashes
  exactly when an in-flight id lies ahead of its cursor with only taken or in-flight ones before it
  (`NextIdClashesIff`), and a run reaches a clash after a restart (`RestartCanReuseInFlightId`).
- When an interrupted QoS 0 write completes, `MQTTAsync_writeComplete` looks for its publication among
  the client's responses with a test that holds of all of them, and so frees the first. If that is
  a request awaiting its acknowledgement, its callbacks are never called. `NothingLostIff` says exactly
  when no request is lost, `CompletionSparesRequests` says it for one completion, and
  `WriteCompleteCanLose` is a run that loses a subscription. The publication itself stays behind and can
  be called back again, as failed: `CallsBalance` gives the number of calls in every run,
  `PublicationsAnsweredOnce` says that there is at most one, and none exactly when the write broke, as
  long as each completion finds its own publication first, and `WriteCompleteCanCallTwice` is a run with
  two calls.
- A connect call can shorten the list of URIs below an index that a queued CONNECT or the saved command
  still has. No index leaves the array in a run exactly when no connect call does that
  (`UrisInRangeIff`); `UriCanLeaveArray` is a run in which one does.
- Restored commands are meant to be inserted by sequence number (the routine for this is commented
  out, `MQTTAsync.c:792-806`). The routine used instead reads another structure's message id, which
  in a queued command is half of the onSuccess pointer. Restored commands therefore line up in the
  order in which the backend enumerates its keys (`RestoredOrder`), behind whatever entries at the
  front of the queue have a non-positive half pointer. The order survives a restart exactly when the
  backend enumerates the keys in that order (`OrderSurvivesIff`); `RestartCanReorder` is a run in which
  it does not. `SortKey` assumes 64-bit little-endian pointers.
- A topic of more than 65535 bytes, or a packet body of 128^4 bytes or more, is sent without complaint
  and does not arrive as sent; `ReceiveUndoesSend` gives the exact condition.
- The "unique" hamster id is a hash; two records can share it, and do after two admissions to an empty
  database (`UidsCollide`, `UidsCanCollide`). Feeding and inquiries by an id reach the first record that
  has it and no other (`ReachedIffFirst`). Ids stay distinct throughout a run exactly when every
  admission finds its id unused (`AdmissionKeepsUids`, `UidsDistinctIff`); then the price list holds by
  id (`PriceListById`). `PriceList` holds without that condition and counts what reaches the record.
- The hamster's price is a 16-bit number: the price list holds modulo 2^16, and a price is what the stay
  costs exactly as long as that is below 2^15 (`PriceIsChargeIff`). `hmstr_collect` returns the bill as
  it is, so that a negative one reads as an error and one of -3 as NOTFOUND: `ReplyIsErrorIff` says when,
  `CollectCanMisreport` reaches it with one feeding, and `CollectIsHonest` shows that with affordable
  stays a negative reply means that there is no hamster.

## Model

| member | source | states |
|---|---|---|
| AsyncOrder.RunIsFifo | DistributedSystems/IOT/lib/paho.mqtt.c-master/src/MQTTAsync.c:1128-1157 | In every run, with any number of clients, clean sessions and restores: what has entered one client's line of ordinary commands (all but CONNECT and internal DISCONNECT) is exactly what has left it followed by what still waits, in one order |
| AsyncOrder.DispatchedInOrder | DistributedSystems/IOT/lib/paho.mqtt.c-master/src/MQTTAsync.c:1134-1157 | In every run that drops nothing of a client, its dispatches are a prefix of its additions, and the rest is its line |
| AsyncOrder.StepKeepsOrder | DistributedSystems/IOT/lib/paho.mqtt.c-master/src/MQTTAsync.c:858-899 | Every step of the engine, of whichever client, keeps that order |
| AsyncDispatch.DispatchGuard | DistributedSystems/IOT/lib/paho.mqtt.c-master/src/MQTTAsync.c:1141-1152 | In every run: what a turn of the send thread dispatches stood in the queue as the first command of its client; a SUBSCRIBE, UNSUBSCRIBE or PUBLISH is dispatched only for a client that is connected with connect_state 0, whose socket has no write pending, and that has fewer than 65534 publications in flight |
| AsyncDispatch.TurnIsIdleIff | DistributedSystems/IOT/lib/paho.mqtt.c-master/src/MQTTAsync.c:1128-1170 | A turn changes nothing if and only if the first command of every client is one of these three and its client fails one of these four conditions |
| AsyncDispatch.TurnSends | DistributedSystems/IOT/lib/paho.mqtt.c-master/src/MQTTAsync.c:1134-1166 | Otherwise the turn dispatches the first command of its client that is not blocked, every first command before it being blocked, and only appends to the log |
| AsyncDispatch.FirstReadyIsFirst | DistributedSystems/IOT/lib/paho.mqtt.c-master/src/MQTTAsync.c:1134-1157 | The command chosen is the first one that heads its own client's commands and fails none of the four conditions; -1 when there is none |
| AsyncClients.StepObeysLaw | DistributedSystems/IOT/lib/paho.mqtt.c-master/src/MQTTAsync.c:1117-1363 | What each step does to each client, field by field, told from the client before, the step and the command it dispatched: connection and connect state; ids in flight and responses, the order of the rest unchanged; message id cursor; interrupted write; saved connect and disconnect commands; settings. Steps about other clients change none of them |
| AsyncClients.NewClientLaw | DistributedSystems/IOT/lib/paho.mqtt.c-master/src/MQTTAsync.c:446-538 | A new client is not connected and has no options, responses or ids in flight but those from before |
| AsyncClients.ClientsComeAndGo | DistributedSystems/IOT/lib/paho.mqtt.c-master/src/MQTTAsync.c:1616-1659 | A client appears only by a create and disappears only by a destroy |
| AsyncSessions.FlightIsAccounted | DistributedSystems/IOT/lib/paho.mqtt.c-master/src/MQTTProtocolClient.c:321-348 | In every run the multiset of ids in flight is the ids the client was created with, plus the tokens of its dispatched publications above QoS 0, minus one occurrence for each acknowledgement whose flow is done, counted from the end of its last session on |
| AsyncSessions.ConnackOpens | DistributedSystems/IOT/lib/paho.mqtt.c-master/src/MQTTAsync.c:1689-1696 | After an accepted CONNACK in state 3 the client is connected with state 0; if it asked for a clean session the queue is that of the other clients, its responses, store and in-flight ids are empty, the cursor is 0, and each removed command has left once and had its failure callback called once; otherwise these five are unchanged |
| AsyncSessions.SessionEndClears | DistributedSystems/IOT/lib/paho.mqtt.c-master/src/MQTTAsync.c:2062-2110 | The same for every end of a session: accepted CONNACK, last connection attempt failed, disconnect completed |
| AsyncSessions.NothingOutlivesItsSession | DistributedSystems/IOT/lib/paho.mqtt.c-master/src/MQTTAsync.c:2087-2110 | In every run: whatever a client has queued or waiting after one of its sessions has ended was added after that |
| AsyncSessions.NothingStoredOutlivesIt | DistributedSystems/IOT/lib/paho.mqtt.c-master/src/MQTTAsync.c:2092-2094 | And whatever is then stored for it is the form of a command added after that |
| AsyncSessions.DroppedOnlyWithItsSession | DistributedSystems/IOT/lib/paho.mqtt.c-master/src/MQTTAsync.c:2062-2071 | In every run a command has been dropped only because its client was destroyed or its session ended |
| AsyncSessions.ConnackReports | DistributedSystems/IOT/lib/paho.mqtt.c-master/src/MQTTAsync.c:1810-1832 | An accepted connection is reported once, if the application asked for it, and not again |
| AsyncSessions.GivingUpReports | DistributedSystems/IOT/lib/paho.mqtt.c-master/src/MQTTAsync.c:1393-1407 | A connection given up is reported once, if the application asked for it |
| AsyncGrowth.StepGoes | DistributedSystems/IOT/lib/paho.mqtt.c-master/src/MQTTAsync.c:858-899 | Every step only appends to the log, brings into the queue only what it adds, and drops a command only with the end of its client's session or its destruction |
| AsyncRequests.RepliesAre | DistributedSystems/IOT/lib/paho.mqtt.c-master/src/MQTTAsync.c:2540-2724 | The reply of a request, in the code's order: not connected (a publication may be queued while disconnected by a client that asked for it and should be connected), a QoS outside 0 to 2, every id but the cursor in use, at least maxBufferedMessages publications of the client queued; success otherwise |
| AsyncRequests.AcceptedIsQueued | DistributedSystems/IOT/lib/paho.mqtt.c-master/src/MQTTAsync.c:2703-2753 | An accepted publication found fewer than maxBufferedMessages of its client's queued; an accepted call has its command, with its token, callbacks and details, at the end of the queue, and in the store of a persistent client |
| AsyncRequests.RefusedChangesNothing | DistributedSystems/IOT/lib/paho.mqtt.c-master/src/MQTTAsync.c:2725-2726 | A refused call leaves everything as it is, but for the message id cursor when the queue is full |
| AsyncRequests.IdForIsNext | DistributedSystems/IOT/lib/paho.mqtt.c-master/src/MQTTAsync.c:2503-2537 | The token is the next id in the cycle from 1 to 65535 that no queued command and no response of the client carries |
| AsyncRequests.DisconnectClosesIff | DistributedSystems/IOT/lib/paho.mqtt.c-master/src/MQTTAsync.c:959-985 | A disconnect, when dispatched and when the timer looks at it, closes the connection if and only if no publication of the client is in flight or its time is over; otherwise the client goes on disconnecting |
| AsyncRequests.DisconnectReports | DistributedSystems/IOT/lib/paho.mqtt.c-master/src/MQTTAsync.c:968-982 | The application's success callback is called once, when its disconnect closes the connection, and not before |
| AsyncRequests.DisconnectQueues | DistributedSystems/IOT/lib/paho.mqtt.c-master/src/MQTTAsync.c:2413-2459 | A disconnect of a connected client is queued, the library's own at the head unless the head is one already, the application's at the end |
| AsyncRequests.ConnectCallQueues | DistributedSystems/IOT/lib/paho.mqtt.c-master/src/MQTTAsync.c:2393-2405 | A connect call queues a CONNECT for the first URI at the head, unless the head is one already |
| AsyncRequests.ReconnectQueues | DistributedSystems/IOT/lib/paho.mqtt.c-master/src/MQTTAsync.c:941-949 | A reconnect queues a CONNECT for the URI last tried, with the version last tried unless none was asked for |
| AsyncRequests.FailureQueues | DistributedSystems/IOT/lib/paho.mqtt.c-master/src/MQTTAsync.c:1374-1391 | A failed attempt with options left queues a CONNECT with the next options at the head |
| AsyncRequests.BrokenWriteQueues | DistributedSystems/IOT/lib/paho.mqtt.c-master/src/MQTTAsync.c:1316-1353 | The broken write of an acknowledged request queues the library's own DISCONNECT at the head and calls the failure callback |
| AsyncRequests.SocketErrorQueues | DistributedSystems/IOT/lib/paho.mqtt.c-master/src/MQTTAsync.c:1764-1771 | A socket error of a connected client queues the library's own DISCONNECT at the head |
| AsyncRequests.Qos0Reports | DistributedSystems/IOT/lib/paho.mqtt.c-master/src/MQTTAsync.c:1262-1289 | A QoS 0 publication written in one go is reported as sent at once; one whose write is interrupted or breaks is not |
| AsyncRequests.CompletionReports | DistributedSystems/IOT/lib/paho.mqtt.c-master/src/MQTTAsync.c:1095-1110 | The completion of an interrupted write reports the publication, whichever response it frees |
| AsyncAnswers.EveryRequestAnsweredOnce | DistributedSystems/IOT/lib/paho.mqtt.c-master/src/MQTTAsync.c:1064-1363 | In every run an acknowledged request (SUBSCRIBE, UNSUBSCRIBE, PUBLISH above QoS 0) with both callbacks is called back at most once; once added it is queued, awaiting its acknowledgement, called back, or lost to the completion of an interrupted write that found it first among the responses: exactly one of the four |
| AsyncAnswers.CallsBalance | DistributedSystems/IOT/lib/paho.mqtt.c-master/src/MQTTAsync.c:1064-1363 | In every run and for every request or publication with both callbacks, QoS 0 included: calls made + queued + waiting + freed without a call = added + called while it goes on waiting |
| AsyncAnswers.PublicationsAnsweredOnce | DistributedSystems/IOT/lib/paho.mqtt.c-master/src/MQTTAsync.c:1262-1315 | In every run in which the client's interrupted writes complete with their own publication first: at most one call for each request and publication, QoS 0 included; once added it is queued, waiting, called or broken, exactly one of the four, so that a dispatched one is never called if and only if its write broke |
| AsyncRuns.WriteCompleteCanCallTwice | DistributedSystems/IOT/lib/paho.mqtt.c-master/src/MQTTAsync.c:1095-1110 | A run in which a QoS 0 publication is called back as a success and then as a failure |
| AsyncOutcomes.SuccessIffAcknowledged | DistributedSystems/IOT/lib/paho.mqtt.c-master/src/MQTTAsync.c:1843-1927 | In every run the success callback of an acknowledged request has been called if and only if an unrefused acknowledgement with its own id has arrived while it waited |
| AsyncOutcomes.FailureHasCause | DistributedSystems/IOT/lib/paho.mqtt.c-master/src/MQTTAsync.c:1316-1354 | In every run its failure callback has been called only because it was refused, because its write broke at dispatch, or because all commands and responses of its client were removed |
| AsyncOutcomes.StepOutcome | DistributedSystems/IOT/lib/paho.mqtt.c-master/src/MQTTAsync.c:1117-1363 | What each step adds to the calls about one request, and why |
| AsyncAnswers.NothingLostIff | DistributedSystems/IOT/lib/paho.mqtt.c-master/src/MQTTAsync.c:1083-1110 | In every run: all acknowledged requests with both callbacks are queued, awaiting or called back if and only if no interrupted write has completed while such a request was the client's first response |
| AsyncAnswers.CompletionSparesRequests | DistributedSystems/IOT/lib/paho.mqtt.c-master/src/MQTTAsync.c:1083-1110 | The completion of one write leaves every response that awaits an acknowledgement if and only if the first response carries no token, that is, is an interrupted publication |
| AsyncRuns.WriteCompleteCanLose | DistributedSystems/IOT/lib/paho.mqtt.c-master/src/MQTTAsync.c:1083-1110 | A run in which a subscription awaiting its acknowledgement is freed in place of an interrupted publication: neither queued nor awaiting nor ever called back |
| AsyncAnswers.RunBalances | DistributedSystems/IOT/lib/paho.mqtt.c-master/src/MQTTAsync.c:1545-1613 | In every run, as multisets, requests added + called early = queued + awaiting + called back + lost, and no request is added twice |
| AsyncBalance.StepBalances | DistributedSystems/IOT/lib/paho.mqtt.c-master/src/MQTTAsync.c:1843-1927 | Every step keeps that balance: dispatch, failed and interrupted writes, acknowledgements, clean sessions, destroy, restore; only a broken QoS 0 write and an out-of-turn completion widen the gap |
| AsyncInvariants.RunKeepsInv | DistributedSystems/IOT/lib/paho.mqtt.c-master/src/MQTTAsync.c:858-899 | In every reachable state: queue entries are distinct and belong to live clients; tokens are distinct within a client; each persistent client's store holds exactly its queued requests, in their persistent form, under keys between 1 and command_seqno |
| AsyncInvariants.StepKeepsInv | DistributedSystems/IOT/lib/paho.mqtt.c-master/src/MQTTAsync.c:858-899 | Every step of the engine keeps those three invariants |
| AsyncInvariants.ProcessKeepsInv | DistributedSystems/IOT/lib/paho.mqtt.c-master/src/MQTTAsync.c:1117-1363 | One turn of the send thread keeps them, whatever the network answers |
| AsyncInvariants.RequestKeepsInv | DistributedSystems/IOT/lib/paho.mqtt.c-master/src/MQTTAsync.c:2540-2753 | A subscribe, unsubscribe or send call keeps them: the new token is free, the new key fresh |
| AsyncInvariants.AckKeepsInv | DistributedSystems/IOT/lib/paho.mqtt.c-master/src/MQTTAsync.c:1843-1927 | An acknowledgement keeps them |
| AsyncInvariants.WriteCompleteKeepsInv | DistributedSystems/IOT/lib/paho.mqtt.c-master/src/MQTTAsync.c:1064-1113 | The completion of an interrupted write keeps them |
| AsyncInvariants.CreateKeepsInv | DistributedSystems/IOT/lib/paho.mqtt.c-master/src/MQTTAsync.c:809-854 | Restoring a sound store re-establishes them for the new client, whatever the order of enumeration |
| AsyncInvariants.CleanSessionKeepsInv | DistributedSystems/IOT/lib/paho.mqtt.c-master/src/MQTTAsync.c:2087-2110 | A clean session keeps them, other clients' stores included |
| AsyncTheorems.TokensDistinct | DistributedSystems/IOT/lib/paho.mqtt.c-master/src/MQTTAsync.c:2503-2537 | In every run the non-zero tokens of a client's queued commands and of its responses are pairwise distinct, and a response with token 0 is a QoS 0 publication whose write was interrupted |
| AsyncTheorems.AckMeansOne | DistributedSystems/IOT/lib/paho.mqtt.c-master/src/MQTTAsync.c:1843-1869 | An acknowledgement with id n removes exactly the one response with token n, leaves every other one and the queue alone, and no queued command of the client carries n |
| AsyncRestart.RestartRecoversQueue | DistributedSystems/IOT/lib/paho.mqtt.c-master/src/MQTTAsync.c:809-854 | A crash at any reachable state followed by a create over the same store recovers every undispatched request, no other, each with its token, contents and sequence number, in the order the store enumerates its keys; later keys are above all of theirs |
| AsyncRestart.StoreIsSound | DistributedSystems/IOT/lib/paho.mqtt.c-master/src/MQTTAsync.c:858-899 | The store is restorable at every moment, so the crash may come at any |
| AsyncRestart.NextKeyIsFresh | DistributedSystems/IOT/lib/paho.mqtt.c-master/src/MQTTAsync.c:870-885 | The key of the next persisted command is not in use |
| AsyncRestart.RestoredOrder | DistributedSystems/IOT/lib/paho.mqtt.c-master/src/MQTTAsync.c:835-840 | Restored commands line up as enumerated, not by sequence number |
| AsyncRestart.OrderSurvivesIff | DistributedSystems/IOT/lib/paho.mqtt.c-master/src/MQTTAsync.c:809-854 | The requests of a client keep their order over a crash and restart if and only if the backend enumerates the keys in the order of their sequence numbers in the old queue |
| AsyncRuns.RestartCanReorder | DistributedSystems/IOT/lib/paho.mqtt.c-master/src/MQTTAsync.c:835-840 | A run and a restart that brings its two queued requests back in reverse order |
| AsyncState.RestorePoint | DistributedSystems/IOT/lib/paho.mqtt.c-master/src/MQTTPersistence.c:312-326 | Where the insertion routine puts a restored command: before the first entry whose sort key is positive |
| AsyncRestart.RestorePointIs | DistributedSystems/IOT/lib/paho.mqtt.c-master/src/MQTTPersistence.c:312-326 | The same told from the callback pointers: before the first whose low half is between 1 and 2^31 - 1 |
| AsyncTheorems.FirstFreeIsFirst | DistributedSystems/IOT/lib/paho.mqtt.c-master/src/MQTTAsync.c:2520-2532 | A non-zero result is free, and every id between the cursor and it, in cyclic order, is taken |
| AsyncTheorems.ZeroMeansExhausted | DistributedSystems/IOT/lib/paho.mqtt.c-master/src/MQTTAsync.c:2520-2532 | From a non-zero cursor 0 is returned if and only if every id other than the cursor is taken; the cursor's own id is never looked at |
| AsyncTheorems.SearchFromZero | DistributedSystems/IOT/lib/paho.mqtt.c-master/src/MQTTAsync.c:2520-2532 | From cursor 0 the search ends if and only if some id is free; with all taken it meets neither a free id nor 0 for ever |
| AsyncTheorems.InFlightIdsAvoided | DistributedSystems/IOT/lib/paho.mqtt.c-master/src/MQTTAsync.c:2503-2537 | Assigned ids avoid the publications in flight, from every cursor 0 to 65535, if and only if each of these also has a queued command or response |
| AsyncTheorems.ClashesIffCrowded | DistributedSystems/IOT/lib/paho.mqtt.c-master/src/MQTTAsync.c:2520-2532 | At a given cursor the id found is in flight if and only if some in-flight id that is not taken lies ahead with only taken or in-flight ids before it |
| AsyncTheorems.NextIdClashesIff | DistributedSystems/IOT/lib/paho.mqtt.c-master/src/MQTTAsync.c:2503-2537 | The same of a reachable state: when the next id of a client clashes with one of its publications in flight |
| AsyncRuns.RestartCanReuseInFlightId | DistributedSystems/IOT/lib/paho.mqtt.c-master/src/MQTTAsync.c:2503-2537 | A run that gives a new subscription the id of a publication restored in flight |
| AsyncRuns.ZeroThoughOneIsFree | DistributedSystems/IOT/lib/paho.mqtt.c-master/src/MQTTAsync.c:2520-2532 | For every id: a run after which a client's request is refused for want of ids although that id is free, the others being used by another client's restored requests |
| AsyncRuns.SearchCanDiverge | DistributedSystems/IOT/lib/paho.mqtt.c-master/src/MQTTAsync.c:2520-2532 | A run after which the first request of a newly connected client would search for ever |
| AsyncInvariants.AssignedIdIsFree | DistributedSystems/IOT/lib/paho.mqtt.c-master/src/MQTTAsync.c:2503-2537 | An assigned id is carried by no queued command of any client and by no response of this one |
| AsyncTheorems.RemovalKeepsOthers | DistributedSystems/IOT/lib/paho.mqtt.c-master/src/MQTTAsync.c:1545-1613 | Removing a client's commands keeps exactly the other clients' commands, in their order |
| AsyncTheorems.FailureCalledOnce | DistributedSystems/IOT/lib/paho.mqtt.c-master/src/MQTTAsync.c:1580-1610 | Each removed command leaves once and its failure callback is called exactly once if it has one; nobody else's is called |
| AsyncTheorems.CleanSessionCleans | DistributedSystems/IOT/lib/paho.mqtt.c-master/src/MQTTAsync.c:2087-2110 | After a clean session nothing of the client is queued, awaited, stored or in flight, and the other clients are untouched |
| ConnectChain.AttemptsInOrder | DistributedSystems/IOT/lib/paho.mqtt.c-master/src/MQTTAsync.c:1366-1408 | In every run after a fresh connect in which the client keeps failing, at dispatch or later, the attempts are the first k of the promised list (URI 0 to n-1; 3.1.1 then 3.1 for the default version), a failure is reported once, after the last, and no URI index in the queue or under way leaves the array |
| ConnectEnds.ChainTerminates | DistributedSystems/IOT/lib/paho.mqtt.c-master/src/MQTTAsync.c:1299-1408 | In every such run, wherever each failure is seen (dispatch, socket, timeout, CONNACK): at most two own steps for each of the n or 2n attempts; after that many the chain is over; when it is over every attempt has had its step and one failure has been reported |
| ConnectEnds.StepUsesMoves | DistributedSystems/IOT/lib/paho.mqtt.c-master/src/MQTTAsync.c:1299-1408 | Every own step of the client uses up one or two of the moves that are left, every other step none |
| ConnectEnds.ChainGoesOn | DistributedSystems/IOT/lib/paho.mqtt.c-master/src/MQTTAsync.c:1142-1157 | Until the chain is over, the attempt under way can time out or the waiting CONNECT is ready to be sent whatever the sockets do |
| AsyncUris.UrisInRangeIff | DistributedSystems/IOT/lib/paho.mqtt.c-master/src/MQTTAsync.c:1180-1193 | In every run, no URI index of a client, saved or queued, ever leaves its array if and only if no connect call brings a list too short for an index in use |
| AsyncUris.StepInRangeIff | DistributedSystems/IOT/lib/paho.mqtt.c-master/src/MQTTAsync.c:2382-2391 | A step keeps the indices in range if and only if it is no such connect call |
| AsyncRuns.UriCanLeaveArray | DistributedSystems/IOT/lib/paho.mqtt.c-master/src/MQTTAsync.c:2382-2391 | A run in which a queued CONNECT has index 1 for an array of one URI |
| ConnectChain.ChainEnds | DistributedSystems/IOT/lib/paho.mqtt.c-master/src/MQTTAsync.c:1299-1353 | For the schedule in which every attempt fails at dispatch: the chain makes exactly the attempts that are left, n or 2n in all, and ends with one report |
| ConnectChain.DispatchMakesAttempt | DistributedSystems/IOT/lib/paho.mqtt.c-master/src/MQTTAsync.c:1172-1363 | Dispatching the waiting CONNECT makes attempt k, and an immediate failure queues attempt k+1 at the head or reports |
| ConnectChain.LateFailureLeadsOn | DistributedSystems/IOT/lib/paho.mqtt.c-master/src/MQTTAsync.c:1366-1408 | A failure seen by nextOrClose leads on in the same way |
| ConnectChain.FailureLeadsOn | DistributedSystems/IOT/lib/paho.mqtt.c-master/src/MQTTAsync.c:434-443 | There is more to try if and only if the failed attempt was not the last, and the adjusted options are those of the next attempt |
| ConnectChain.FreshConnect | DistributedSystems/IOT/lib/paho.mqtt.c-master/src/MQTTAsync.c:2203-2410 | A connect call of an idle client starts such a chain |
| ConnectChain.StepKeepsChain | DistributedSystems/IOT/lib/paho.mqtt.c-master/src/MQTTAsync.c:1366-1408 | Every step keeps the chain on its course, whatever the other clients do meanwhile |
| Engines.Engine.AddCommand | DistributedSystems/IOT/lib/paho.mqtt.c-master/src/MQTTAsync.c:858-899 | The queue, store and sequence number change as in the step machine: at the head unless a duplicate, or at the end and persisted |
| Engines.Engine.AppendCommand | DistributedSystems/IOT/lib/paho.mqtt.c-master/src/MQTTAsync.c:858-899 | A command that waits its turn goes to the end, its buffers to the store under the next key |
| Engines.Engine.RemoveResponsesAndCommands | DistributedSystems/IOT/lib/paho.mqtt.c-master/src/MQTTAsync.c:1545-1613 | Computes the removal of the step machine on the linked list |
| Engines.Engine.RemoveCommands | DistributedSystems/IOT/lib/paho.mqtt.c-master/src/MQTTAsync.c:1580-1610 | The look-ahead loop, deleting while it iterates over the linked list, ends with exactly the other clients' commands and one failure call for each removed command that has one |
| Engines.Engine.Detach | DistributedSystems/IOT/lib/paho.mqtt.c-master/src/LinkedList.c:240-243 | Detaching a command by its address removes that entry wherever the cursor is |
| Engines.Engine.CleanSession | DistributedSystems/IOT/lib/paho.mqtt.c-master/src/MQTTAsync.c:2087-2110 | Refines the clean session of the step machine |
| Engines.Engine.CloseSession | DistributedSystems/IOT/lib/paho.mqtt.c-master/src/MQTTAsync.c:2036-2071 | Refines closing a session |
| Engines.Engine.AssignId | DistributedSystems/IOT/lib/paho.mqtt.c-master/src/MQTTAsync.c:2503-2537 | Terminates and returns the first free id in cyclic order, or 0; the two list searches move the queue's cursor and nothing else |
| Engines.Engine.IdInUse | DistributedSystems/IOT/lib/paho.mqtt.c-master/src/MQTTAsync.c:2521-2522 | Searches the whole queue and the client's responses for a token |
| Engines.Engine.Select | DistributedSystems/IOT/lib/paho.mqtt.c-master/src/MQTTAsync.c:1132-1158 | The scan with its list of ignored clients finds the command that FirstReadyIsFirst describes: the first of its client's, and not blocked by any of the four conditions |
| Engines.Engine.TakeCommand | DistributedSystems/IOT/lib/paho.mqtt.c-master/src/MQTTAsync.c:1159-1166 | Exactly the selected command leaves the queue and the store |
| Engines.Engine.ProcessCommand | DistributedSystems/IOT/lib/paho.mqtt.c-master/src/MQTTAsync.c:1117-1363 | One turn of the send thread computes the turn of the step machine, of which DispatchGuard and TurnIsIdleIff say when it sends, and keeps all invariants; it reports whether there was anything to do |
| Engines.Engine.StartConnect | DistributedSystems/IOT/lib/paho.mqtt.c-master/src/MQTTAsync.c:1172-1221 | The connect branch, with version fallback and requeueing |
| Engines.Engine.SendRequest | DistributedSystems/IOT/lib/paho.mqtt.c-master/src/MQTTAsync.c:1222-1289 | The subscribe, unsubscribe and publish branches with success, failure and waiting for a response, and the three outcomes of a QoS 0 write |
| Engines.Engine.CompleteWrite | DistributedSystems/IOT/lib/paho.mqtt.c-master/src/MQTTAsync.c:1064-1113 | The search over the responses always stops at the first one, which is detached; the interrupted publication's success is reported |
| Engines.Engine.FindWriter | DistributedSystems/IOT/lib/paho.mqtt.c-master/src/MQTTAsync.c:1088-1093 | The first response whose client has the given write pending |
| Engines.Engine.FinishDisconnect | DistributedSystems/IOT/lib/paho.mqtt.c-master/src/MQTTAsync.c:959-985 | Closes the session once nothing is in flight or the timeout is over |
| Engines.Engine.RetryOrClose | DistributedSystems/IOT/lib/paho.mqtt.c-master/src/MQTTAsync.c:1366-1408 | Refines nextOrClose |
| Engines.Engine.Connect | DistributedSystems/IOT/lib/paho.mqtt.c-master/src/MQTTAsync.c:2203-2410 | Stores the options and queues a CONNECT for URI 0 at the head |
| Engines.Engine.ReconnectClient | DistributedSystems/IOT/lib/paho.mqtt.c-master/src/MQTTAsync.c:918-956 | Queues a CONNECT with the saved options |
| Engines.Engine.Disconnect | DistributedSystems/IOT/lib/paho.mqtt.c-master/src/MQTTAsync.c:2413-2451 | Queues a DISCONNECT if connected, at the head when internal |
| Engines.Engine.CountBuffered | DistributedSystems/IOT/lib/paho.mqtt.c-master/src/MQTTAsync.c:2687-2700 | Counts exactly the queued publications of one client |
| Engines.Engine.MakeRequest | DistributedSystems/IOT/lib/paho.mqtt.c-master/src/MQTTAsync.c:2540-2753 | The checks in the code's order, a message id unless the QoS is 0, the command at the end; every refusal leaves queue and store alone. Only a call that looks for an id requires that the search ends |
| Engines.Engine.HandleAck | DistributedSystems/IOT/lib/paho.mqtt.c-master/src/MQTTAsync.c:1843-1927 | Computes the acknowledgement of the step machine: the first response with the packet's id is detached and its callback called, and the id leaves those in flight when the flow is done (StepObeysLaw, FlightIsAccounted) |
| Engines.Engine.FindToken | DistributedSystems/IOT/lib/paho.mqtt.c-master/src/MQTTAsync.c:2976-2979 | The index of the first response with the token, or -1 |
| Engines.Engine.HandleConnack | DistributedSystems/IOT/lib/paho.mqtt.c-master/src/MQTTAsync.c:1807-1842 | Computes the CONNACK of the step machine: completes the connection, cleaning the session exactly where asked (ConnackOpens), or tries the next options |
| Engines.Engine.HandleSocketError | DistributedSystems/IOT/lib/paho.mqtt.c-master/src/MQTTAsync.c:1764-1777 | Disconnects, tries the next options, or closes |
| Engines.Engine.InsertRestored | DistributedSystems/IOT/lib/paho.mqtt.c-master/src/MQTTPersistence.c:312-326 | The insertion loop puts the command before the first entry with a larger sort key, which for a restored command is the low half of the other's onSuccess pointer |
| Engines.Engine.RestoreCommands | DistributedSystems/IOT/lib/paho.mqtt.c-master/src/MQTTAsync.c:809-854 | Restores the store's commands key by key and takes the maximum of the sequence numbers |
| Engines.Engine.CreateClient | DistributedSystems/IOT/lib/paho.mqtt.c-master/src/MQTTAsync.c:446-538 | A client over a store is a client with its restored commands |
| Engines.Engine.DestroyClient | DistributedSystems/IOT/lib/paho.mqtt.c-master/src/MQTTAsync.c:1616-1659 | Removes the client, its responses and its commands |
| Engines.Engine.CreateVolatileClient | DistributedSystems/IOT/lib/paho.mqtt.c-master/src/MQTTAsync.c:446-538 | A client without persistence starts with nothing |
| Engines.Engine.ConnectTimedOut | DistributedSystems/IOT/lib/paho.mqtt.c-master/src/MQTTAsync.c:1411-1486 | The timer hands an overdue connect to nextOrClose |
| Engines.Engine.CheckDisconnectTimer | DistributedSystems/IOT/lib/paho.mqtt.c-master/src/MQTTAsync.c:1411-1486 | The timer closes a disconnecting client once nothing is in flight or the time is over |
| Engines.Engine.Perform | DistributedSystems/IOT/lib/paho.mqtt.c-master/src/MQTTAsync.c:1489-1522 | Every step the machine can take is taken by one of the methods |
| Engines.Engine.Play | DistributedSystems/IOT/lib/paho.mqtt.c-master/src/MQTTAsync.c:1489-1522 | A sequence of such calls on a new engine is a run of the machine that ends in the engine's state |
| CommandCodec.RestoreUndoesPersist | DistributedSystems/IOT/lib/paho.mqtt.c-master/src/MQTTAsync.c:591-789 | Reading back what was written for any SUBSCRIBE, UNSUBSCRIBE or PUBLISH gives the same command and consumes exactly its bytes, whatever follows |
| CommandCodec.LayoutPrefixFree | DistributedSystems/IOT/lib/paho.mqtt.c-master/src/MQTTAsync.c:591-694 | Two commands with the same stored form are equal, and no form is a proper prefix of another |
| StoredFormat.PublishBytes | DistributedSystems/IOT/lib/paho.mqtt.c-master/src/MQTTAsync.c:652-679 | The bytes of a stored publication: type 3 and token as C ints, low byte first; destination and NUL; payload length, payload, QoS and retained flag |
| StoredFormat.SubscribeBytes | DistributedSystems/IOT/lib/paho.mqtt.c-master/src/MQTTAsync.c:604-627 | The bytes of a stored subscribe: type 8, token, count, then each topic with its NUL and its QoS |
| StoredFormat.UnsubscribeBytes | DistributedSystems/IOT/lib/paho.mqtt.c-master/src/MQTTAsync.c:629-650 | The bytes of a stored unsubscribe: type 10, token, count, then each topic with its NUL |
| CommandCodec.PersistCommand | DistributedSystems/IOT/lib/paho.mqtt.c-master/src/MQTTAsync.c:591-694 | The buffers handed to the store, as many as allocated, concatenate to the command's layout; other commands get none |
| CommandCodec.RestoreCommand | DistributedSystems/IOT/lib/paho.mqtt.c-master/src/MQTTAsync.c:697-789 | The pointer walk, branch by branch, computes the parse |
| CommandCodec.SubsRoundTrip | DistributedSystems/IOT/lib/paho.mqtt.c-master/src/MQTTAsync.c:715-734 | The topic and QoS lists are read back from wherever they stand in the buffer |
| CommandCodec.ScanSubs | DistributedSystems/IOT/lib/paho.mqtt.c-master/src/MQTTAsync.c:719-732 | The loop over the subscriptions computes their parse |
| CommandCodec.ScanPublish | DistributedSystems/IOT/lib/paho.mqtt.c-master/src/MQTTAsync.c:761-779 | The walk over string, length, payload, QoS and retained flag computes the parse |
| LinkedLists.List.AppendNoMalloc | DistributedSystems/IOT/lib/paho.mqtt.c-master/src/LinkedList.c:72-83 | The element goes to the end; the cursor stays |
| LinkedLists.List.Insert | DistributedSystems/IOT/lib/paho.mqtt.c-master/src/LinkedList.c:108-129 | The content goes before the given element, or to the end; the cursor keeps designating the same element |
| LinkedLists.List.FindItem | DistributedSystems/IOT/lib/paho.mqtt.c-master/src/LinkedList.c:152-187 | Finds the cursor if it matches, else the first match, and moves the cursor there; when nothing matches the result is NULL and the cursor stays |
| LinkedLists.List.Unlink | DistributedSystems/IOT/lib/paho.mqtt.c-master/src/LinkedList.c:199-231 | Removes exactly one matching element, the cursor if it matches, else the first match; the cursor ends on its old element or on the successor of a removed cursor |
| LinkedLists.List.Excise | DistributedSystems/IOT/lib/paho.mqtt.c-master/src/LinkedList.c:210-221 | Taking an element out of the chain leaves all other links in order |
| LinkedLists.List.DetachHead | DistributedSystems/IOT/lib/paho.mqtt.c-master/src/LinkedList.c:263-280 | Removes and returns the first content; a cursor on it moves to the second |
| LinkedLists.List.PopTail | DistributedSystems/IOT/lib/paho.mqtt.c-master/src/LinkedList.c:301-320 | Removes and returns the last content; a cursor on it moves to its predecessor |
| LinkedLists.List.Empty | DistributedSystems/IOT/lib/paho.mqtt.c-master/src/LinkedList.c:354-366 | Leaves the empty list |
| LinkedLists.List.Traverse | DistributedSystems/IOT/lib/paho.mqtt.c-master/src/LinkedList.c:403-420 | Forward iteration until NULL reads the contents, backward iteration reads them reversed |
| LinkedLists.FirstMatch | DistributedSystems/IOT/lib/paho.mqtt.c-master/src/LinkedList.c:166-180 | The first element satisfying the search, or none does |
| LinkedLists.HitUnique | DistributedSystems/IOT/lib/paho.mqtt.c-master/src/LinkedList.c:152-187 | An element that alone matches is found wherever the cursor is |
| PendingWrites.CheckPendingWrites | DistributedSystems/IOT/lib/paho.mqtt.c-master/src/MQTTAsync.c:993-1013 | One deleting pass visits every entry once: the writes whose sockets are idle go, in order, the others stay, in order |
| PendingWrites.RemoveHere | DistributedSystems/IOT/lib/paho.mqtt.c-master/src/MQTTAsync.c:1001-1008 | With the cursor on it, an entry is removed itself, not an equal one before it, and the cursor ends on its successor |
| PendingWrites.SelectSplits | DistributedSystems/IOT/lib/paho.mqtt.c-master/src/MQTTAsync.c:996-1011 | What goes and what stays make up the old list |
| PendingWrites.SelectedSockets | DistributedSystems/IOT/lib/paho.mqtt.c-master/src/MQTTAsync.c:996-1011 | What stays are exactly the entries whose sockets are busy |
| Packet.Encode | DistributedSystems/IOT/lib/paho.mqtt.c-master/src/MQTTPacket.c:268-283 | Writes exactly the digits of the length and touches no other byte |
| Packet.Decode | DistributedSystems/IOT/lib/paho.mqtt.c-master/src/MQTTPacket.c:293-323 | The reading loop computes the decoding, consumes exactly its bytes, and tells a bad length from missing bytes |
| Packet.DecodeUndoesEncode | DistributedSystems/IOT/lib/paho.mqtt.c-master/src/MQTTPacket.c:268-323 | Decoding an encoded length followed by anything returns it and consumes exactly its bytes if it is below 128^4, and rejects it otherwise |
| Packet.DigitsLength | DistributedSystems/IOT/lib/paho.mqtt.c-master/src/MQTTPacket.c:268-283 | The encoding has k bytes exactly when n is below 128^k and, unless k is 1, not below 128^(k-1) |
| Packet.Sends | DistributedSystems/IOT/lib/paho.mqtt.c-master/src/MQTTPacket.c:224-259 | Header, length and buffers go out in order, the length being that of all buffers |
| Packet.SendPublish | DistributedSystems/IOT/lib/paho.mqtt.c-master/src/MQTTPacket.c:689-736 | Sends the publication's wire form, with a message id only above QoS 0; WireBytes gives its bytes |
| Packet.Factory | DistributedSystems/IOT/lib/paho.mqtt.c-master/src/MQTTPacket.c:98-166 | Reading a packet from the socket computes the parse of the arrived bytes, which ReceiveBytes tells from the bytes, with the error code of each outcome: an error or an interruption before the last byte is reported as such |
| Packet.ReadPublish | DistributedSystems/IOT/lib/paho.mqtt.c-master/src/MQTTPacket.c:499-523 | The pointer walk past topic and message id computes the parse of a PUBLISH body, malformed ones included; ParseBytes tells it from the bytes |
| Packet.ReceiveUndoesSend | DistributedSystems/IOT/lib/paho.mqtt.c-master/src/MQTTPacket.c:499-523 | Receiving what was sent, whatever follows it, gives back dup, QoS, retain, topic, message id (0 for QoS 0) and payload, and consumes exactly the packet, if and only if the topic is at most 65535 bytes, the id (above QoS 0) at most 65535 and the body below 128^4 bytes |
| Packet.ReceiveIsParse | DistributedSystems/IOT/lib/paho.mqtt.c-master/src/MQTTPacket.c:98-166 | What arrives is the sent body if its length is below 128^4 and a failure otherwise |
| Packet.LongTopicIsCut | DistributedSystems/IOT/lib/paho.mqtt.c-master/src/MQTTPacket.c:420-426 | The topic of a longer publication arrives shortened by multiples of 65536, or the packet is malformed |
| WireFormat.WireBytes | DistributedSystems/IOT/lib/paho.mqtt.c-master/src/MQTTPacket.c:689-736 | The bytes of a sent PUBLISH: 48 + 8*dup + 2*qos + retain; the remaining length, seven bits a byte, low digits first, the top bit on all but the last; the topic length as high byte and low byte; the topic; above QoS 0 the message id as high byte and low byte; the payload |
| WireFormat.ParseBytes | DistributedSystems/IOT/lib/paho.mqtt.c-master/src/MQTTPacket.c:499-523 | The parse of a PUBLISH body told from its bytes: BadPacket exactly when fewer than two bytes, or fewer than 256 times the first plus the second behind them, are there; otherwise the topic has exactly that length; flags, message id and payload likewise |
| WireFormat.ReceiveBytes | DistributedSystems/IOT/lib/paho.mqtt.c-master/src/MQTTPacket.c:98-166 | The factory told from the bytes: types 0, 1, 8, 10 and 15 are ignored, type 3 is parsed as a PUBLISH, an incomplete packet is not there yet |
| WireFormat.DecodeBytes | DistributedSystems/IOT/lib/paho.mqtt.c-master/src/MQTTPacket.c:293-323 | The value of one to four length bytes as a number, and a failure exactly when four bytes have their top bit set |
| WireFormat.DigitAt | DistributedSystems/IOT/lib/paho.mqtt.c-master/src/MQTTPacket.c:268-283 | Digit i of an encoded length is n / 128^i modulo 128, with the top bit set exactly when another digit follows |
| TraceQueue.Queue.Trace | DistributedSystems/IOT/lib/paho.mqtt.c-master/src/Log.c:247-296 | After each call next_index is the number of calls modulo the size, and reading the buffer yields the last entries logged |
| TraceQueue.Queue.RecentAreLast | DistributedSystems/IOT/lib/paho.mqtt.c-master/src/Log.c:284-293 | Reading from start_index and wrapping up to next_index yields exactly the last min(k, N) of k entries, in the order logged |
| HamsterLaws.PriceList | DistributedSystems/CustomRPC/libsrc/hmstr_givetreats.c:51-82 | Over any run in which the owner does not collect, after F treats and k inquiries a hamster that came with t has max(0, t-F) treats left and costs 17 + k + 2*max(0, F-t), modulo 2^16, however feeding was split and whatever happened to others |
| HamsterLaws.LookupAfterNew | DistributedSystems/CustomRPC/libsrc/hmstr_lookup.c:33-83 | The id hmstr_new returned is what every lookup returns until the owner collects, and the price list holds from then on |
| HamsterLaws.ReachableIsSound | DistributedSystems/CustomRPC/libsrc/hmstr_new.c:90-146 | In every reachable database owner and name are unique together, ids are the hashes of the names, and lookup finds an id exactly for the names that are there |
| HamsterLaws.OpKeepsSound | DistributedSystems/CustomRPC/libsrc/hmstr_new.c:90-146 | Each operation keeps the database sound |
| HamsterLaws.CollectConserves | DistributedSystems/CustomRPC/libsrc/hmstr_collect.c:75-114 | The bill and what the remaining records still owe make up what all records owed |
| HamsterLaws.SecondCollectFindsNothing | DistributedSystems/CustomRPC/libsrc/hmstr_collect.c:75-114 | A second collect changes nothing and finds no record of the owner |
| HamsterLaws.DirectoryEnumerates | DistributedSystems/CustomRPC/libsrc/hmstr_directory.c:41-71 | From handle -1 the calls return the ids of exactly the matching records, each once, in file order, then NOTFOUND with the handle back at -1; with a filter that is too long every call is refused and the handle stays |
| HamsterLaws.NextIsFirstMatch | DistributedSystems/CustomRPC/libsrc/hmstr_directory.c:57-71 | One call returns the first matching record from the position on and leaves the rest for the next calls |
| HamsterStore.UidsCollide | DistributedSystems/CustomRPC/libsrc/hmstr_new.c:38-56 | Two owners with the same hamster name can get the same id |
| HamsterLaws.UidsCanCollide | DistributedSystems/CustomRPC/libsrc/hmstr_new.c:90-146 | Two admissions to the empty database lead to two records with one id |
| HamsterLaws.ReachedIffFirst | DistributedSystems/CustomRPC/libsrc/hmstr_givetreats.c:51-53 | Feeding and inquiries by a record's id reach it if and only if no earlier record has that id |
| HamsterLaws.AdmissionKeepsUids | DistributedSystems/CustomRPC/libsrc/hmstr_new.c:90-146 | An accepted admission keeps ids distinct if and only if no record has the hash of the new names for its id |
| HamsterLaws.UidsDistinctIff | DistributedSystems/CustomRPC/libsrc/hmstr_new.c:90-146 | Over any run from distinct ids, ids are distinct at every moment if and only if every admission finds its id unused |
| HamsterLaws.PriceListById | DistributedSystems/CustomRPC/libsrc/hmstr_givetreats.c:51-82 | When every admission finds its id unused, the record counts all treats given and all inquiries made with the id hmstr_new returned, until its owner collects |
| HamsterStore.Asylum.New | DistributedSystems/CustomRPC/libsrc/hmstr_new.c:63-146 | Appends one record unless a name is too long or the names are there already |
| HamsterStore.MakeHash | DistributedSystems/CustomRPC/libsrc/hmstr_new.c:38-56 | The accumulating loop computes Bernstein's hash of both padded names, halved |
| HamsterStore.Asylum.GiveTreats | DistributedSystems/CustomRPC/libsrc/hmstr_givetreats.c:34-86 | Rewrites the first record with the id, returns its stock, and changes no other record |
| HamsterStore.Asylum.HowsDoing | DistributedSystems/CustomRPC/libsrc/hmstr_howsdoing.c:54-110 | Charges the inquiry, rewrites the record, and fills in stock, rounds and cost: with secs whole seconds since admission, 60 * rounds <= 25 * secs < 60 * (rounds + 1), and the cost is the price plus 5 for each thousand rounds, as an int16_t |
| HamsterStore.Asylum.Collect | DistributedSystems/CustomRPC/libsrc/hmstr_collect.c:38-115 | The copying loop leaves exactly the other owners' records in order and returns the sum of the owner's dues as it is (CollectFollowsBooks says which sum that is), or NOTFOUND when there is no record of theirs |
| HamsterBill.BooksAgree | DistributedSystems/CustomRPC/libsrc/hmstr_givetreats.c:51-82 | In every run from the empty database, collections included: a hamster is there exactly when the books have an account for it, and its record is what the account says |
| HamsterBill.PriceIsChargeIff | DistributedSystems/CustomRPC/libsrc/hmstr_givetreats.c:62 | A price is 17 + asked + 2*max(0, fed - treats) if and only if that is below 2^15 |
| HamsterBill.CollectIsHonest | DistributedSystems/CustomRPC/libsrc/hmstr_collect.c:75-114 | After every run in which no stay of the owner's costs 2^15 or more: each price is what the books say, the bill is at least 17 for each stay, and the reply is negative if and only if there is no record |
| HamsterBill.ReplyIsErrorIff | DistributedSystems/CustomRPC/libsrc/hmstr_collect.c:111-114 | The reply is NOTFOUND if and only if there is no record or the bill is -3, and negative if and only if there is no record or the bill is |
| HamsterBill.CollectCanMisreport | DistributedSystems/CustomRPC/libsrc/hmstr_collect.c:111-114 | One admission and one feeding lead to a bill of -3, reported as NOTFOUND |
| HamsterStay.CollectFollowsBooks | DistributedSystems/CustomRPC/libsrc/hmstr_collect.c:75-114 | After every run in which no stay of the owner's costs 2^15 or more, the reply of a collect is the sum, over the owner's open accounts, each once, of 17 + asked + 2*max(0, fed - treats) + 5 for each thousand revolutions at 25 a minute; or -3 when there is none |
| HamsterStay.RoundsAre | DistributedSystems/CustomRPC/libsrc/hmstr_howsdoing.c:32-46 | With secs whole seconds since admission: 60 * rounds <= 25 * secs < 60 * (rounds + 1) |
| HamsterStay.DueIs | DistributedSystems/CustomRPC/libsrc/hmstr_howsdoing.c:88-91 | 1000 * (due - price) <= 5 * rounds < 1000 * (due - price + 1) |
| HamsterStay.HashIs | DistributedSystems/CustomRPC/libsrc/hmstr_new.c:38-56 | An id is half of 5381 * 33^64 plus the 64 signed characters of both fields as digits in base 33, modulo 2^32 |
| HamsterStay.AdmissionReplies | DistributedSystems/CustomRPC/libsrc/hmstr_new.c:63-146 | An admission is answered -1 for a name of more than 31 characters, -2 when the owner has a hamster of that name, and otherwise appends its record with price 17 |
| HamsterStay.MatchesInOrder | DistributedSystems/CustomRPC/libsrc/hmstr_directory.c:57-71 | Each record that passes both filters has its id in the enumeration, behind as many ids as there are such records before it |
| HamsterStay.MatchesCounted | DistributedSystems/CustomRPC/libsrc/hmstr_directory.c:57-71 | And there are no other ids in it |
| HamsterStay.OthersInOrder | DistributedSystems/CustomRPC/libsrc/hmstr_collect.c:75-97 | Each record of another owner is left unchanged by a collect, behind as many as there were before it |
| HamsterStay.OthersCounted | DistributedSystems/CustomRPC/libsrc/hmstr_collect.c:75-97 | And nothing else is left |
| HamsterStore.Asylum.Directory | DistributedSystems/CustomRPC/libsrc/hmstr_directory.c:32-81 | One call computes the next reply and the next position; the file stays as it is |
| HamsterStore.Asylum.Lookup | DistributedSystems/CustomRPC/libsrc/hmstr_lookup.c:33-83 | The id of the first record with both names, or the error of the failing check |

## Left out

- Threads, mutexes, sockets, SSL: a critical section is one atomic step, and whether a connection
  attempt is pending, a packet was written or a timeout is over is a parameter of the step.
- Engines.Engine.CompleteWrite: requires that the interrupted publication still exists. After a broken
  QoS 0 write, a clean session or a stray acknowledgement with id 0 the pointer `pending_write` dangles,
  and what its completion does is undefined in C. The socket buffers that hold the rest of an
  interrupted write are not part of this model.
- AsyncAnswers.CallsBalance: speaks of requests and publications with both callbacks; a missing callback
  is never called.
- Persistence backends: a store is a map from sequence number to bytes whose calls succeed, and the
  enumeration order of its keys is arbitrary. The key text is not modelled: `char key[9]` holds "c-"
  and six digits, so the C code is defined only up to sequence number 999,999, while the model's
  numbers are unbounded.
- Engines.Engine.RestoreCommands: a stored entry of unknown type or cut short makes the C code read on
  undefined bytes or leak; the model reports `UnknownType` or `Overrun` and skips the entry.
- Engines.Engine.AssignId: requires that the search does not go round for ever (cursor 0 and all ids
  taken); `SearchFromZero` shows that this is exactly the excluded case. `MakeRequest` inherits it for
  the calls that look for an id.
- Engines.Engine: clients are values in a map and responses a sequence, not linked lists of records,
  so aliasing between a client and its lists is not captured; the global command queue is the linked
  list itself.
- LinkedLists.List: the `size` field, which sums sizes of contents for tracing, and freeing of contents.
- Callbacks that call back into the engine: a callback is an entry in the log.
- ConnectChain.AttemptsInOrder: a run in which the application connects, reconnects or destroys that
  same client again is a new chain; reconnection by timer is a `DoReconnect` step at any moment, and
  its intervals and the connection-lost callback are not modelled.
- Engines.Engine.Connect: a connect without URIs keeps the old count, as the code does; that the code
  has freed the array the count belongs to is not represented.
- Engines.Engine.ReconnectClient: always queues a CONNECT. The code copies the saved command, whose type
  is 0 until some CONNECT has got past its dispatch, so before the first connect, and after one whose
  attempts have all failed at dispatch, it queues a command of type 0 instead.
- The flows of QoS 2 (PUBREC, PUBREL) and retransmission (`MQTTProtocol_retry`): the in-flight ids are
  a list that a step shortens when a flow is over. MQTTProtocolClient.c is not part of this model.
- Checks of arguments (NULL, structure versions, UTF-8) and results other than those listed in `Reply`.
- Packet.Factory: the parsers of packets other than PUBLISH are not modelled; `PastEnd` stands for a
  PUBLISH above QoS 0 whose message id would be read beyond the packet's end.
- Resizing, formatting and dumping of the trace, log files, `Heap.c`.
- File errors and partial reads of the hamster store (the STORE and CORRUPT results), except the
  missing file; NULL names in `hmstr_new`; `hmstr_readentry`. That now is not before admission is an
  assertion in the code and a precondition in the model.
- The SunRPC copy of the store, RPC servers and marshalling, the REST client, the IOT command line
  program and `ArtificialIntelligence/mailClassifier.py`.
