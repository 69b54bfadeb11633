/** The asynchronous client engine (MQTTAsync.c) as a step machine: one global command queue
    shared by all clients, per-client responses, message ids and persistent store.  Every step
    is one critical section under `mqttasync_mutex`; what the network, the clock and the
    callbacks' presence contribute arrives as parameters of the step. */
module AsyncState {
  import opened Bytes
  import opened CommandCodec
  import opened LinkedLists

  const MAX_MSG_ID := 65535
  const MQTTVERSION_DEFAULT := 0
  const MQTTVERSION_3_1 := 3
  const MQTTVERSION_3_1_1 := 4

  type ClientId = nat

  /** A queued command.  `id` stands for its address: no two allocations share it.  `onSuccess`
      is the callback pointer, 0 for NULL. */
  datatype Command = Command(id: nat, client: ClientId, token: int32, onSuccess: nat, onFailure: bool,
                             seqno: nat, details: Details)

  /** The connect command a client keeps for retries (`m->connect`). */
  datatype ConnectInfo = ConnectInfo(currentURI: nat, version: int, onSuccess: nat, onFailure: bool)

  datatype Buffering = Buffering(sendWhileDisconnected: bool, maxBuffered: int)

  datatype Client = Client(
    connected: bool,
    connectState: int,              // 0 idle, 1..3 connecting, -2 disconnecting
    cleanSession: bool,
    version: int,                   // the MQTT version asked for, 0 for "3.1.1, then 3.1"
    msgID: nat,                     // the last message id assigned
    outbound: seq<int>,             // ids of the publications in flight
    responses: seq<Command>,        // dispatched commands that wait for an acknowledgement
    persistent: bool,
    commandSeqno: nat,
    store: map<nat, seq<byte>>,     // the persisted commands, by sequence number
    connect: ConnectInfo,
    disconnect: Option<Command>,
    pendingWrite: Option<Command>,  // the QoS 0 publication whose write was interrupted
    uriCount: nat,
    buffering: Option<Buffering>,
    shouldBeConnected: bool)

  /** What happened: entries into and departures from the queue, and calls to the application. */
  datatype Event =
    | Added(cmd: Command)
    | Taken(cmd: Command)           // dispatched by processCommand
    | Dropped(cmd: Command)         // removed by a clean session or by destroy
    | Attempt(client: ClientId, uri: nat, version: int)
    | SuccessCalled(cmd: Command)
    | FailureCalled(cmd: Command)
    | ConnectSucceeded(client: ClientId)
    | ConnectFailed(client: ClientId)

  datatype State = State(commands: seq<Command>, clients: map<ClientId, Client>, nextId: nat, log: seq<Event>)

  function WithClient(s: State, c: ClientId, cl: Client): State {
    s.(clients := s.clients[c := cl])
  }

  function Logged(s: State, e: seq<Event>): State {
    s.(log := s.log + e)
  }

  // ----- adding a command (MQTTAsync_addCommand) -----

  /** CONNECT and internal DISCONNECT go to the head of the queue, everything else to its end. */
  predicate Urgent(d: Details) {
    d.Connect? || (d.Disconnect? && d.internal)
  }

  predicate SameType(a: Details, b: Details) {
    (a.Connect? && b.Connect?) || (a.Disconnect? && b.Disconnect?)
  }

  predicate IsDuplicate(s: State, cmd: Command) {
    && |s.commands| > 0
    && s.commands[0].client == cmd.client
    && SameType(s.commands[0].details, cmd.details)
  }

  function Add(s: State, cmd: Command): State
    requires cmd.client in s.clients && Representable(cmd.details)
  {
    var cl := s.clients[cmd.client];
    if Urgent(cmd.details) then
      if IsDuplicate(s, cmd) then s
      else Logged(s.(commands := [cmd] + s.commands), [Added(cmd)])
    else if cl.persistent && Persistable(cmd.details) then
      var n := cl.commandSeqno + 1;
      var kept := cmd.(seqno := n);
      var cl' := cl.(commandSeqno := n, store := cl.store[n := Layout(cmd.token, cmd.details)]);
      Logged(WithClient(s.(commands := s.commands + [kept]), cmd.client, cl'), [Added(kept)])
    else
      Logged(s.(commands := s.commands + [cmd]), [Added(cmd)])
  }

  /** A command freshly allocated by an API call. */
  function New(s: State, c: ClientId, token: int32, onSuccess: nat, onFailure: bool, d: Details): Command {
    Command(s.nextId, c, token, onSuccess, onFailure, 0, d)
  }

  function AddNew(s: State, c: ClientId, token: int32, onSuccess: nat, onFailure: bool, d: Details): State
    requires c in s.clients && Representable(d)
  {
    Add(s.(nextId := s.nextId + 1), New(s, c, token, onSuccess, onFailure, d))
  }

  // ----- removing a client's commands (MQTTAsync_removeResponsesAndCommands, cleanSession) -----

  function Purged(q: seq<Command>, c: ClientId): seq<Command> {
    if q == [] then []
    else Purged(q[..|q| - 1], c) + (if q[|q| - 1].client == c then [] else [q[|q| - 1]])
  }

  function FailureEvents(cmds: seq<Command>): seq<Event> {
    if cmds == [] then []
    else
      FailureEvents(cmds[..|cmds| - 1])
      + (if cmds[|cmds| - 1].onFailure then [FailureCalled(cmds[|cmds| - 1])] else [])
  }

  /** What removing the commands of `c` does to one entry of the queue. */
  function Removal(x: Command, c: ClientId): seq<Event> {
    if x.client != c then [] else if x.onFailure then [Dropped(x), FailureCalled(x)] else [Dropped(x)]
  }

  /** Each command of `c` leaves the queue and has its failure callback called. */
  function RemovalEvents(q: seq<Command>, c: ClientId): seq<Event> {
    if q == [] then [] else RemovalEvents(q[..|q| - 1], c) + Removal(q[|q| - 1], c)
  }

  function RemoveAll(s: State, c: ClientId): State
    requires c in s.clients
  {
    var cl := s.clients[c];
    Logged(WithClient(s.(commands := Purged(s.commands, c)), c, cl.(responses := [])),
           FailureEvents(cl.responses) + RemovalEvents(s.commands, c))
  }

  /** A client without its session, but for queue and responses. */
  function Cleaned(cl: Client): Client {
    cl.(store := if cl.persistent then map[] else cl.store, outbound := [], msgID := 0)
  }

  function CleanSession(s: State, c: ClientId): State
    requires c in s.clients
  {
    RemoveAll(WithClient(s, c, Cleaned(s.clients[c])), c)
  }

  function CloseOnly(s: State, c: ClientId): State
    requires c in s.clients
  {
    WithClient(s, c, s.clients[c].(connected := false, connectState := 0))
  }

  function CloseSession(s: State, c: ClientId): State
    requires c in s.clients
  {
    if s.clients[c].cleanSession then CleanSession(CloseOnly(s, c), c) else CloseOnly(s, c)
  }

  // ----- message ids (MQTTAsync_assignMsgId) -----

  /** The tokens an id must avoid: those of the whole command queue, whatever the client, and
      those of the client's responses. */
  function TakenIds(s: State, c: ClientId): set<int>
    requires c in s.clients
  {
    (set a | a in s.commands :: a.token as int) + (set r | r in s.clients[c].responses :: r.token as int)
  }

  /** The id `k` places after the cursor in the cycle 1..MAX_MSG_ID; 0 precedes 1. */
  function IdAfter(cursor: nat, k: nat): (id: int)
    requires k > 0
    ensures 1 <= id <= MAX_MSG_ID
  {
    (cursor + k - 1) % MAX_MSG_ID + 1
  }

  /** The search from a cursor of 0 goes round for ever when every id is taken. */
  predicate Diverges(taken: set<int>, cursor: nat) {
    cursor == 0 && forall id :: 1 <= id <= MAX_MSG_ID ==> id in taken
  }

  /** The first free id after the cursor, 0 when the search comes back to the cursor. */
  function FirstFree(taken: set<int>, cursor: nat, k: nat): (id: int)
    requires 1 <= k <= MAX_MSG_ID && cursor <= MAX_MSG_ID
    ensures 0 <= id <= MAX_MSG_ID
    decreases MAX_MSG_ID - k
  {
    if IdAfter(cursor, k) == cursor || (k == MAX_MSG_ID && IdAfter(cursor, k) in taken) then 0
    else if IdAfter(cursor, k) !in taken then IdAfter(cursor, k)
    else FirstFree(taken, cursor, k + 1)
  }

  // ----- connecting (MQTTAsync_checkConn, nextOrClose) -----

  /** Are there connect options left to try? */
  predicate MoreToTry(uri: nat, version: int, cl: Client) {
    uri + 1 < cl.uriCount || (version == MQTTVERSION_3_1_1 && cl.version == MQTTVERSION_DEFAULT)
  }

  /** The options for the next attempt, put back into the queue. */
  function NextOptions(uri: nat, version: int, cl: Client): Details {
    if cl.version == MQTTVERSION_DEFAULT then
      if version == MQTTVERSION_3_1 then Connect(uri + 1, MQTTVERSION_DEFAULT) else Connect(uri, version)
    else Connect(uri + 1, version)
  }

  /** The version an attempt is made with. */
  function AttemptVersion(version: int, cl: Client): int {
    if cl.version != MQTTVERSION_DEFAULT then cl.version
    else if version == MQTTVERSION_DEFAULT then MQTTVERSION_3_1_1
    else if version == MQTTVERSION_3_1_1 then MQTTVERSION_3_1
    else version
  }

  function NextOrClose(s: State, c: ClientId): State
    requires c in s.clients
  {
    var cl := s.clients[c];
    if MoreToTry(cl.connect.currentURI, cl.connect.version, cl) then
      AddNew(CloseOnly(s, c), c, 0, cl.connect.onSuccess, cl.connect.onFailure,
             NextOptions(cl.connect.currentURI, cl.connect.version, cl))
    else
      Logged(CloseSession(s, c), if cl.connect.onFailure then [ConnectFailed(c)] else [])
  }

  // ----- dispatching (MQTTAsync_processCommand) -----

  /** A packet is written to the socket at once, in part, or not at all because of an error. */
  datatype Sent = Written | Interrupted | Broken

  /** The network's part in one dispatch: the clients whose sockets have no pending writes, the
      connect state after a connection attempt (0 when it failed at once), how sending the packet
      went, and whether a disconnect's timeout has run out. */
  datatype Net = Net(idle: set<ClientId>, connectState: int, sent: Sent, elapsed: bool)

  predicate IsHead(q: seq<Command>, i: nat)
    requires i < |q|
  {
    forall j :: 0 <= j < i ==> q[j].client != q[i].client
  }

  predicate Ready(s: State, cmd: Command, idle: set<ClientId>) {
    cmd.client in s.clients &&
    var cl := s.clients[cmd.client];
    || cmd.details.Connect? || cmd.details.Disconnect?
    || (cl.connected && cl.connectState == 0 && cmd.client in idle && |cl.outbound| < MAX_MSG_ID - 1)
  }

  /** The first command from index `i` on that is the head of its own client's commands and may
      be sent now; -1 if there is none. */
  function FirstReady(s: State, idle: set<ClientId>, i: nat): (k: int)
    requires i <= |s.commands|
    ensures k == -1 || (i <= k < |s.commands| && IsHead(s.commands, k) && Ready(s, s.commands[k], idle))
    ensures forall j :: i <= j < (if k < 0 then |s.commands| else k) ==>
              !IsHead(s.commands, j) || !Ready(s, s.commands[j], idle)
    decreases |s.commands| - i
  {
    if i == |s.commands| then -1
    else if IsHead(s.commands, i) && Ready(s, s.commands[i], idle) then i
    else FirstReady(s, idle, i + 1)
  }

  /** Takes entry `i` out of the queue and out of the store. */
  function Dequeue(s: State, i: nat): State
    requires i < |s.commands| && s.commands[i].client in s.clients
  {
    var cmd := s.commands[i];
    var cl := s.clients[cmd.client];
    Logged(WithClient(s.(commands := Without(s.commands, i)), cmd.client,
                      cl.(store := if cl.persistent then cl.store - {cmd.seqno} else cl.store)),
           [Taken(cmd)])
  }

  function FailureCall(cmd: Command): seq<Event> {
    if cmd.onFailure then [FailureCalled(cmd)] else []
  }

  function SuccessCall(cmd: Command): seq<Event> {
    if cmd.onSuccess != 0 then [SuccessCalled(cmd)] else []
  }

  function DispatchConnect(s: State, cmd: Command, net: Net): State
    requires cmd.client in s.clients && cmd.details.Connect?
  {
    var c, cl := cmd.client, s.clients[cmd.client];
    var uri, version := cmd.details.currentURI, cmd.details.version;
    if cl.connectState != 0 || cl.connected then
      WithClient(s, c, cl.(connect := ConnectInfo(uri, version, cmd.onSuccess, cmd.onFailure)))
    else
      var v := AttemptVersion(version, cl);
      var s1 := Logged(s, [Attempt(c, uri, v)]);
      if net.connectState != 0 then
        WithClient(s1, c, cl.(connectState := net.connectState,
                              connect := ConnectInfo(uri, v, cmd.onSuccess, cmd.onFailure)))
      else
        var s2 := WithClient(s1, c, cl.(shouldBeConnected := true));
        if MoreToTry(uri, v, cl) then Add(s2, cmd.(details := NextOptions(uri, v, cl)))
        else Logged(s2, if cmd.onFailure then [ConnectFailed(c)] else [])
  }

  /** The client once sending has started: a publication above QoS 0 is in flight. */
  function Sending(cl: Client, cmd: Command): Client {
    if cmd.details.Publish? then cl.(outbound := cl.outbound + [cmd.token]) else cl
  }

  /** Only a QoS 0 publication notices an interrupted write.  After a broken one its command is freed
      all the same, so that `pendingWrite` dangles. */
  function DispatchRequest(s: State, cmd: Command, net: Net): State
    requires cmd.client in s.clients && Persistable(cmd.details)
  {
    var c, cl := cmd.client, s.clients[cmd.client];
    if cmd.details.Publish? && cmd.details.qos == 0 then
      match net.sent
      case Written => Logged(s, SuccessCall(cmd))
      case Interrupted => WithClient(s, c, cl.(responses := cl.responses + [cmd], pendingWrite := Some(cmd)))
      case Broken => WithClient(s, c, cl.(pendingWrite := Some(cmd)))
    else
      var cl1 := Sending(cl, cmd);
      if net.sent.Broken? then
        Logged(DisconnectCall(WithClient(s, c, cl1), c, true, 0, false), FailureCall(cmd))
      else
        WithClient(s, c, cl1.(responses := cl1.responses + [cmd]))
  }

  /** Does `pendingWrite` point to a command that still exists? */
  predicate WritePending(cl: Client) {
    cl.pendingWrite.Some? && cl.pendingWrite.value in cl.responses
  }

  /** MQTTAsync_writeComplete: the success of the interrupted publication is reported.  The search for
      its response compares the pending writes of two clients that are the same client, so it always
      stops at the first response, and that is the one detached and freed. */
  function WriteComplete(s: State, c: ClientId): State
    requires c in s.clients && WritePending(s.clients[c])
  {
    var cl := s.clients[c];
    Logged(WithClient(s, c, cl.(responses := cl.responses[1..], pendingWrite := None)),
           SuccessCall(cl.pendingWrite.value))
  }

  /** MQTTAsync_checkDisconnect: closes once nothing is in flight or the timeout is over. */
  function CheckDisconnect(s: State, cmd: Command, elapsed: bool): State
    requires cmd.client in s.clients && cmd.details.Disconnect?
  {
    if s.clients[cmd.client].outbound == [] || elapsed then
      Logged(CloseSession(s, cmd.client), if cmd.details.internal then [] else SuccessCall(cmd))
    else s
  }

  function DispatchDisconnect(s: State, cmd: Command, net: Net): State
    requires cmd.client in s.clients && cmd.details.Disconnect?
  {
    var c, cl := cmd.client, s.clients[cmd.client];
    var s1 :=
      if cl.connectState != 0 || cl.connected
      then CheckDisconnect(WithClient(s, c, cl.(connectState := -2)), cmd, net.elapsed)
      else s;
    WithClient(s1, c, s1.clients[c].(disconnect := Some(cmd)))
  }

  function Dispatch(s: State, cmd: Command, net: Net): State
    requires cmd.client in s.clients
  {
    match cmd.details
    case Connect(_, _) => DispatchConnect(s, cmd, net)
    case Disconnect(_) => DispatchDisconnect(s, cmd, net)
    case _ => DispatchRequest(s, cmd, net)
  }

  function Process(s: State, net: Net): State {
    var i := FirstReady(s, net.idle, 0);
    if i < 0 then s else Dispatch(Dequeue(s, i), s.commands[i], net)
  }

  // ----- API calls -----

  datatype Reply = Success | Failure | Disconnected | BadQos | NoMoreMsgIds | MaxBufferedMessages

  /** The client with the options of a connect call. */
  function Configured(cl: Client, version: int, cleanSession: bool, uriCount: nat, onSuccess: nat,
                      onFailure: bool): Client {
    cl.(connect := cl.connect.(onSuccess := onSuccess, onFailure := onFailure),
        cleanSession := cleanSession, version := version, shouldBeConnected := true,
        uriCount := if uriCount > 0 then uriCount else cl.uriCount)
  }

  function ConnectCall(s: State, c: ClientId, version: int, cleanSession: bool, uriCount: nat,
                       onSuccess: nat, onFailure: bool): State
    requires c in s.clients
  {
    var cl := Configured(s.clients[c], version, cleanSession, uriCount, onSuccess, onFailure);
    AddNew(WithClient(s, c, cl), c, 0, onSuccess, onFailure, Connect(0, MQTTVERSION_DEFAULT))
  }

  /** The options of the last CONNECT, with the search for a version starting afresh. */
  function SavedOptions(cl: Client): Details {
    Connect(cl.connect.currentURI,
            if cl.version == MQTTVERSION_DEFAULT then MQTTVERSION_DEFAULT else cl.connect.version)
  }

  /** MQTTAsync_reconnect without automatic reconnection, and the timer's automatic reconnect. */
  function Reconnect(s: State, c: ClientId): State
    requires c in s.clients
  {
    var cl := s.clients[c];
    AddNew(s, c, 0, cl.connect.onSuccess, cl.connect.onFailure, SavedOptions(cl))
  }

  function DisconnectCall(s: State, c: ClientId, internal: bool, onSuccess: nat, onFailure: bool): State
    requires c in s.clients
  {
    var cl := s.clients[c];
    var s1 := if internal then s else WithClient(s, c, cl.(shouldBeConnected := false));
    if !cl.connected then s1 else AddNew(s1, c, 0, onSuccess, onFailure, Disconnect(internal))
  }

  /** Assigns a message id; the reply is the id and the state with the cursor moved. */
  function AssignMsgId(s: State, c: ClientId): (State, int32)
    requires c in s.clients && s.clients[c].msgID <= MAX_MSG_ID
  {
    var cl := s.clients[c];
    var id := FirstFree(TakenIds(s, c), cl.msgID, 1);
    (if id == 0 then s else WithClient(s, c, cl.(msgID := id)), id)
  }

  predicate QosInRange(d: Details) {
    match d
    case Subscribe(subs) => forall x :: x in subs ==> 0 <= x.qos <= 2
    case Publish(_, _, qos, _) => 0 <= qos <= 2
    case _ => true
  }

  function Buffered(q: seq<Command>, c: ClientId): nat {
    if q == [] then 0
    else Buffered(q[..|q| - 1], c) + (if q[|q| - 1].client == c && q[|q| - 1].details.Publish? then 1 else 0)
  }

  /** The checks before anything is done, Success when the call passes them. */
  function Refusal(cl: Client, d: Details): Reply {
    if !cl.connected && (!d.Publish? || cl.buffering.None? || !cl.buffering.value.sendWhileDisconnected
                         || !cl.shouldBeConnected) then Disconnected
    else if !QosInRange(d) then BadQos
    else Success
  }

  /** Does this call look for a message id?  Refused ones and QoS 0 publications do not. */
  predicate NeedsId(cl: Client, d: Details) {
    Refusal(cl, d).Success? && NeedsToken(d)
  }

  /** MQTTAsync_subscribeMany, unsubscribeMany and send: the checks in the code's order, a message
      id unless the quality of service is 0, and the command at the end of the queue. */
  function Request(s: State, c: ClientId, d: Details, onSuccess: nat, onFailure: bool): (State, Reply)
    requires c in s.clients && s.clients[c].msgID <= MAX_MSG_ID
    requires Persistable(d) && Representable(d)
  {
    var cl := s.clients[c];
    if !Refusal(cl, d).Success? then (s, Refusal(cl, d))
    else
      var (s1, id) := if NeedsToken(d) then AssignMsgId(s, c) else (s, 0);
      if id == 0 && NeedsToken(d) then (s1, NoMoreMsgIds)
      else if d.Publish? && cl.buffering.Some? && Buffered(s1.commands, c) >= cl.buffering.value.maxBuffered
      then (s1, MaxBufferedMessages)
      else (AddNew(s1, c, id, onSuccess, onFailure, d), Success)
  }

  // ----- packets received -----

  /** The index of the first response with token `id`, -1 if there is none. */
  function FindResponse(rs: seq<Command>, id: int): (i: int)
    ensures -1 <= i < |rs|
    ensures i >= 0 ==> rs[i].token == id
    ensures forall j :: 0 <= j < (if i < 0 then |rs| else i) ==> rs[j].token != id
  {
    if rs == [] then -1
    else if rs[0].token == id then 0
    else
      var i := FindResponse(rs[1..], id);
      if i < 0 then -1 else i + 1
  }

  function DropId(ids: seq<int>, id: int): seq<int> {
    if ids == [] then [] else if ids[0] == id then ids[1..] else [ids[0]] + DropId(ids[1..], id)
  }

  /** SUBACK, UNSUBACK, PUBACK or PUBCOMP with message id `id`: the first response with that token
      is completed.  `refused` is a SUBACK with the one return code 0x80; `flowDone` says that
      the publication's flow is over. */
  function Ack(s: State, c: ClientId, id: int, refused: bool, flowDone: bool): State
    requires c in s.clients
  {
    var cl := s.clients[c];
    var cl1 := if flowDone then cl.(outbound := DropId(cl.outbound, id)) else cl;
    var i := FindResponse(cl.responses, id);
    if i < 0 then WithClient(s, c, cl1)
    else
      var cmd := cl.responses[i];
      Logged(WithClient(s, c, cl1.(responses := Without(cl.responses, i))),
             if refused then FailureCall(cmd) else SuccessCall(cmd))
  }

  function Connack(s: State, c: ClientId, accepted: bool): State
    requires c in s.clients
  {
    var cl := s.clients[c];
    if cl.connectState == 3 && accepted then
      var s1 := WithClient(s, c, cl.(connected := true, connectState := 0));
      var s2 := if cl.cleanSession then CleanSession(s1, c) else s1;
      var cl2 := s2.clients[c];
      Logged(WithClient(s2, c, cl2.(connect := cl2.connect.(onSuccess := 0))),
             if cl.connect.onSuccess != 0 then [ConnectSucceeded(c)] else [])
    else NextOrClose(s, c)
  }

  function SocketError(s: State, c: ClientId): State
    requires c in s.clients
  {
    var cl := s.clients[c];
    if cl.connected then DisconnectCall(s, c, true, 0, false)
    else if cl.connectState != 0 then NextOrClose(s, c)
    else CloseOnly(s, c)
  }

  // ----- creating and destroying clients -----

  /** The message id field that MQTTPersistence_insertInOrder reads from a queued command: it takes
      the command for a stored message, so it sees the low half of the onSuccess pointer. */
  function SortKey(cmd: Command): int {
    var low := cmd.onSuccess % 0x1_0000_0000;
    if low < 0x8000_0000 then low else low - 0x1_0000_0000
  }

  /** Where a restored command (sort key 0) goes: before the first entry with a larger sort key. */
  function RestorePoint(q: seq<Command>): (k: nat)
    ensures k <= |q|
    ensures forall j :: 0 <= j < k ==> SortKey(q[j]) <= 0
    ensures k < |q| ==> SortKey(q[k]) > 0
  {
    if q == [] || SortKey(q[0]) > 0 then 0 else 1 + RestorePoint(q[1..])
  }

  function Max(a: nat, b: nat): nat {
    if a < b then b else a
  }

  /** One turn of the restore loop. */
  function RestoreOne(s: State, c: ClientId, key: nat): State
    requires c in s.clients && key in s.clients[c].store
  {
    var cl := s.clients[c];
    match Restore(cl.store[key])
    case Parsed(token, d, _) =>
      var cmd := Command(s.nextId, c, token, 0, false, key, d);
      var k := RestorePoint(s.commands);
      Logged(WithClient(s.(commands := s.commands[..k] + [cmd] + s.commands[k..], nextId := s.nextId + 1), c,
                        cl.(commandSeqno := Max(cl.commandSeqno, key))),
             [Added(cmd)])
    case _ => s
  }

  function RestoreKeys(s: State, c: ClientId, keys: seq<nat>): (r: State)
    requires c in s.clients && forall k :: k in keys ==> k in s.clients[c].store
    ensures c in r.clients && r.clients[c].store == s.clients[c].store
  {
    if keys == [] then s
    else RestoreOne(RestoreKeys(s, c, keys[..|keys| - 1]), c, keys[|keys| - 1])
  }

  function FreshClient(persistent: bool, store: map<nat, seq<byte>>, outbound: seq<int>,
                       buffering: Option<Buffering>): Client {
    Client(false, 0, false, MQTTVERSION_DEFAULT, 0, outbound, [], persistent, 0, store,
           ConnectInfo(0, MQTTVERSION_DEFAULT, 0, false), None, None, 0, buffering, false)
  }

  /** MQTTAsync_createWithOptions over a store whose keys the backend enumerates as `keys`. */
  function Create(s: State, c: ClientId, store: map<nat, seq<byte>>, keys: seq<nat>, outbound: seq<int>,
                  buffering: Option<Buffering>): State
    requires forall k :: k in keys ==> k in store
  {
    RestoreKeys(WithClient(s, c, FreshClient(true, store, outbound, buffering)), c, keys)
  }

  function Destroy(s: State, c: ClientId): State
    requires c in s.clients
  {
    var s1 := RemoveAll(s, c);
    s1.(clients := s1.clients - {c})
  }

  // ----- runs -----

  datatype Step =
    | DoCreate(c: ClientId, store: map<nat, seq<byte>>, keys: seq<nat>, outbound: seq<int>,
               buffering: Option<Buffering>)
    | DoCreateVolatile(c: ClientId, buffering: Option<Buffering>)
    | DoDestroy(c: ClientId)
    | DoConnect(c: ClientId, version: int, cleanSession: bool, uriCount: nat, onSuccess: nat, onFailure: bool)
    | DoReconnect(c: ClientId)
    | DoDisconnect(c: ClientId, internal: bool, onSuccess: nat, onFailure: bool)
    | DoRequest(c: ClientId, details: Details, onSuccess: nat, onFailure: bool)
    | DoProcess(net: Net)
    | DoWriteComplete(c: ClientId)
    | DoAck(c: ClientId, id: int, refused: bool, flowDone: bool)
    | DoConnack(c: ClientId, accepted: bool)
    | DoSocketError(c: ClientId)
    | DoConnectTimeout(c: ClientId)
    | DoDisconnectTimer(c: ClientId, elapsed: bool)

  /** A store as an earlier engine leaves it behind: every entry is a request in persistent form,
      keys are positive, ids that acknowledgements refer to are non-zero and distinct. */
  ghost predicate SoundStore(store: map<nat, seq<byte>>) {
    && (forall k :: k in store ==> k > 0 && SoundEntry(store[k]))
    && (forall k, m :: k in store && m in store && k != m && Restore(store[k]).token != 0 ==>
          Restore(store[k]).token != Restore(store[m]).token)
  }

  ghost predicate SoundEntry(b: seq<byte>) {
    var r := Restore(b);
    && r.Parsed? && Persistable(r.details) && Representable(r.details) && b == Layout(r.token, r.details)
    && (NeedsToken(r.details) ==> r.token != 0)
  }

  predicate NeedsToken(d: Details) {
    d.Subscribe? || d.Unsubscribe? || (d.Publish? && d.qos != 0)
  }

  ghost predicate Enumerates(keys: seq<nat>, store: map<nat, seq<byte>>) {
    && (forall i, j :: 0 <= i < j < |keys| ==> keys[i] != keys[j])
    && (forall k :: k in keys <==> k in store)
  }

  predicate HasSocket(cl: Client) {
    cl.connected || cl.connectState != 0
  }

  /** Can this step be taken?  A request whose id search goes round for ever never is, nor is the
      completion of a write whose publication has been freed, which the C language leaves undefined. */
  ghost predicate Enabled(s: State, step: Step) {
    match step
    case DoCreate(c, store, keys, _, _) => c !in s.clients && SoundStore(store) && Enumerates(keys, store)
    case DoCreateVolatile(c, _) => c !in s.clients
    case DoRequest(c, d, _, _) =>
      && c in s.clients && s.clients[c].msgID <= MAX_MSG_ID && Persistable(d) && Representable(d)
      && (NeedsId(s.clients[c], d) ==> !Diverges(TakenIds(s, c), s.clients[c].msgID))
    case DoProcess(net) => 0 <= net.connectState <= 3
    case DoWriteComplete(c) => c in s.clients && WritePending(s.clients[c])
    case DoConnack(c, _) => c in s.clients && HasSocket(s.clients[c])
    case DoSocketError(c) => c in s.clients && HasSocket(s.clients[c])
    case DoConnectTimeout(c) => c in s.clients && s.clients[c].connectState != 0
    case DoDisconnectTimer(c, _) =>
      c in s.clients && s.clients[c].connectState == -2 && s.clients[c].disconnect.Some?
      && s.clients[c].disconnect.value.client == c && s.clients[c].disconnect.value.details.Disconnect?
    case _ => step.c in s.clients
  }

  ghost function Apply(s: State, step: Step): State
    requires Enabled(s, step)
  {
    match step
    case DoCreate(c, store, keys, outbound, buffering) => Create(s, c, store, keys, outbound, buffering)
    case DoCreateVolatile(c, buffering) => WithClient(s, c, FreshClient(false, map[], [], buffering))
    case DoDestroy(c) => Destroy(s, c)
    case DoConnect(c, version, cleanSession, uriCount, onSuccess, onFailure) =>
      ConnectCall(s, c, version, cleanSession, uriCount, onSuccess, onFailure)
    case DoReconnect(c) => Reconnect(s, c)
    case DoDisconnect(c, internal, onSuccess, onFailure) => DisconnectCall(s, c, internal, onSuccess, onFailure)
    case DoRequest(c, d, onSuccess, onFailure) => Request(s, c, d, onSuccess, onFailure).0
    case DoProcess(net) => Process(s, net)
    case DoWriteComplete(c) => WriteComplete(s, c)
    case DoAck(c, id, refused, flowDone) => Ack(s, c, id, refused, flowDone)
    case DoConnack(c, accepted) => Connack(s, c, accepted)
    case DoSocketError(c) => SocketError(s, c)
    case DoConnectTimeout(c) => NextOrClose(s, c)
    case DoDisconnectTimer(c, elapsed) => CheckDisconnect(s, s.clients[c].disconnect.value, elapsed)
  }

  /** `trace` is a run from `init`: each state follows from the one before by an enabled step. */
  ghost predicate IsRun(init: State, steps: seq<Step>, trace: seq<State>) {
    && |trace| == |steps| + 1 && trace[0] == init
    && forall i :: 0 <= i < |steps| ==> Enabled(trace[i], steps[i]) && trace[i + 1] == Apply(trace[i], steps[i])
  }

  const Empty := State([], map[], 0, [])
}
