/** Runs that reach what the search for message ids and the completion of interrupted writes get
    wrong. */
module AsyncRuns {
  import opened Bytes
  import opened CommandCodec
  import opened LinkedLists
  import opened AsyncState
  import opened AsyncInvariants
  import opened AsyncOrder
  import opened AsyncRestart
  import opened AsyncUris
  import opened AsyncTheorems
  import opened AsyncBalance
  import opened AsyncAnswers

  // ----- building runs -----

  /** A run, its last state apart. */
  datatype Run = Run(steps: seq<Step>, past: seq<State>, last: State)

  function Trace(r: Run): seq<State> {
    r.past + [r.last]
  }

  ghost predicate Valid(r: Run) {
    IsRun(Empty, r.steps, Trace(r))
  }

  const Start := Run([], [], Empty)

  lemma Extend(r: Run, step: Step) returns (r': Run)
    requires Valid(r) && Enabled(r.last, step)
    ensures Valid(r') && r' == Run(r.steps + [step], r.past + [r.last], Apply(r.last, step))
  {
    hide Enabled, Apply;
    r' := Run(r.steps + [step], r.past + [r.last], Apply(r.last, step));
    assert Trace(r') == Trace(r) + [r'.last];
  }

  // ----- connecting -----

  /** A client that has never been connected. */
  predicate Unused(cl: Client) {
    cl == FreshClient(cl.persistent, map[], cl.outbound, None)
  }

  /** That client connected, keeping its session. */
  function Online(cl: Client): Client {
    cl.(connected := true, shouldBeConnected := true, connect := ConnectInfo(0, MQTTVERSION_3_1_1, 0, false))
  }

  function Connecting(c: ClientId): Step {
    DoConnect(c, MQTTVERSION_DEFAULT, false, 0, 0, false)
  }

  const Pending := DoProcess(Net({}, 3, Written, false))

  lemma ConnectQueued(s: State, c: ClientId)
    requires c in s.clients && Unused(s.clients[c]) && forall a :: a in s.commands ==> !a.details.Connect?
    ensures
      var t := Apply(s, Connecting(c));
      && t.commands == [New(s, c, 0, 0, false, Connect(0, MQTTVERSION_DEFAULT))] + s.commands
      && t.clients == s.clients[c := s.clients[c].(shouldBeConnected := true)]
  {
  }

  lemma ConnectDispatched(s: State, c: ClientId, clients: map<ClientId, Client>, x: Command, q: seq<Command>)
    requires s.commands == [x] + q && x.client == c && x.details == Connect(0, MQTTVERSION_DEFAULT)
    requires x.onSuccess == 0 && !x.onFailure && x.seqno == 0
    requires c in clients && Unused(clients[c])
    requires s.clients == clients[c := clients[c].(shouldBeConnected := true)]
    ensures
      var t := Apply(s, Pending);
      && t.commands == q
      && t.clients == clients[c := Online(clients[c]).(connected := false, connectState := 3)]
  {
    assert FirstReady(s, {}, 0) == 0;
    assert Without(s.commands, 0) == q;
  }

  lemma ConnackArrives(s: State, c: ClientId, clients: map<ClientId, Client>)
    requires c in clients && Unused(clients[c])
    requires s.clients == clients[c := Online(clients[c]).(connected := false, connectState := 3)]
    ensures Enabled(s, DoConnack(c, true))
    ensures
      var t := Apply(s, DoConnack(c, true));
      t.commands == s.commands && t.clients == clients[c := Online(clients[c])]
  {
  }

  /** Connecting changes nothing else but the log and the address counter. */
  lemma Connected(r: Run, c: ClientId) returns (r': Run)
    requires Valid(r) && c in r.last.clients && Unused(r.last.clients[c])
    requires forall a :: a in r.last.commands ==> !a.details.Connect?
    ensures Valid(r')
    ensures r'.last.commands == r.last.commands
    ensures r'.last.clients == r.last.clients[c := Online(r.last.clients[c])]
  {
    var s := r.last;
    assert Enabled(s, Connecting(c));
    ConnectQueued(s, c);
    hide Valid, Apply, Unused, Online;
    var r1 := Extend(r, Connecting(c));
    var x := New(s, c, 0, 0, false, Connect(0, MQTTVERSION_DEFAULT));
    ConnectDispatched(r1.last, c, s.clients, x, s.commands);
    assert Enabled(r1.last, Pending);
    hide Enabled;
    var r2 := Extend(r1, Pending);
    ConnackArrives(r2.last, c, s.clients);
    r' := Extend(r2, DoConnack(c, true));
  }

  // ----- an id in flight is given out again -----

  /** A client restored with publication 1 in flight, and reconnected without a clean session, gives
      its first subscription id 1 too. */
  lemma RestartCanReuseInFlightId() returns (r: Run)
    ensures Valid(r)
    ensures var s := r.last;
      && 0 in s.clients && 1 in s.clients[0].outbound
      && |s.commands| == 1 && s.commands[0].client == 0 && s.commands[0].token == 1
  {
    hide Layout, Restore;
    var r1 := Extend(Start, DoCreate(0, map[], [], [1], None));
    assert r1.last == Empty.(clients := map[0 := FreshClient(true, map[], [1], None)]);
    var r2 := Connected(r1, 0);
    assert 1 !in TakenIds(r2.last, 0);
    NextIsFree(TakenIds(r2.last, 0), 0);
    r := Extend(r2, DoRequest(0, Subscribe([]), 0, false));
  }

  // ----- a client's ids used up by another -----

  /** The ids but `free`; all ids when it is 0. */
  function Others(free: nat): seq<nat>
    requires free <= MAX_MSG_ID
  {
    if free == 0 then seq(MAX_MSG_ID, i requires 0 <= i => i + 1)
    else seq(MAX_MSG_ID - 1, i requires 0 <= i => if i + 1 < free then i + 1 else i + 2)
  }

  /** A store of requests that carry the ids of Others, each its own sequence number. */
  function Flood(free: nat): map<nat, seq<byte>> {
    map k: nat | 1 <= k <= MAX_MSG_ID && k != free :: Layout(k, Unsubscribe([]))
  }

  lemma FloodRestores(k: nat)
    requires 1 <= k <= MAX_MSG_ID
    ensures var b := Layout(k, Unsubscribe([])); SoundEntry(b) && Restore(b).Parsed? && Restore(b).token == k
  {
    RestoreUndoesPersist(k, Unsubscribe([]), []);
    assert Layout(k, Unsubscribe([])) + [] == Layout(k, Unsubscribe([]));
  }

  lemma FloodIsSound(free: nat)
    requires free <= MAX_MSG_ID
    ensures SoundStore(Flood(free)) && Enumerates(Others(free), Flood(free))
  {
    hide Layout, Restore, SoundEntry;
    var store, keys := Flood(free), Others(free);
    forall k | k in store
      ensures k > 0 && SoundEntry(store[k]) && Restore(store[k]).Parsed? && Restore(store[k]).token == k
    {
      FloodRestores(k);
    }
    forall k | k in store
      ensures k in keys
    {
      var i := if free == 0 || k < free then k - 1 else k - 2;
      assert keys[i] == k;
    }
  }

  /** The queue holds requests of client 0, who is not connected, with all tokens but `free`. */
  ghost predicate Flooded(s: State, free: nat) {
    && 0 in s.clients && !s.clients[0].connected
    && (forall a :: a in s.commands ==> a.client == 0 && Persistable(a.details) && a.token != free)
    && (forall id :: 1 <= id <= MAX_MSG_ID && id != free ==> Carries(s.commands, id))
  }

  ghost predicate Carries(q: seq<Command>, id: int) {
    exists a :: a in q && a.token == id
  }

  lemma {:induction false} RestoreKeepsClients(s: State, c: ClientId, keys: seq<nat>)
    requires c in s.clients && forall k :: k in keys ==> k in s.clients[c].store
    ensures
      var t := RestoreKeys(s, c, keys);
      t.clients.Keys == s.clients.Keys && t.clients[c].connected == s.clients[c].connected
  {
    hide Restore, RestorePoint;
    if keys != [] {
      RestoreKeepsClients(s, c, keys[..|keys| - 1]);
    }
  }

  /** A command loaded from the flood has its key for a token. */
  lemma LoadedToken(a: Command, free: nat)
    requires free <= MAX_MSG_ID && Persistable(a.details) && Representable(a.details)
    requires a.seqno in Flood(free) && Flood(free)[a.seqno] == Layout(a.token, a.details)
    ensures a.token == a.seqno && a.token != free
  {
    LayoutPrefixFree(a.token, a.details, a.seqno, Unsubscribe([]));
  }

  lemma LoadedCarries(q: seq<Command>, free: nat, seqno: nat, k: nat)
    requires free <= MAX_MSG_ID && Loaded(q, 0, Flood(free), Others(free), seqno)
    requires k in Others(free)
    ensures Carries(q, k)
  {
    hide Layout, Representable, Others, Flood;
    var a :| a in q && Backs(a, 0, k);
    LoadedToken(a, free);
  }

  lemma LoadedFlood(q: seq<Command>, free: nat, seqno: nat)
    requires free <= MAX_MSG_ID && Loaded(q, 0, Flood(free), Others(free), seqno)
    requires Enumerates(Others(free), Flood(free)) && forall a :: a in q ==> a.client == 0
    ensures forall a :: a in q ==> Persistable(a.details) && a.token != free
    ensures forall id :: 1 <= id <= MAX_MSG_ID && id != free ==> Carries(q, id)
  {
    hide Layout, Representable, Others, Carries;
    forall a | a in q
      ensures Persistable(a.details) && a.token != free
    {
      LoadedToken(a, free);
    }
    hide Loaded;
    forall id | 1 <= id <= MAX_MSG_ID && id != free
      ensures Carries(q, id)
    {
      assert id as nat in Flood(free);
      LoadedCarries(q, free, seqno, id);
    }
  }

  lemma FloodRestored(free: nat)
    requires free <= MAX_MSG_ID && SoundStore(Flood(free)) && Enumerates(Others(free), Flood(free))
    ensures
      var t := Create(Empty, 0, Flood(free), Others(free), [], None);
      && t.clients.Keys == {0} && !t.clients[0].connected && (forall a :: a in t.commands ==> a.client == 0)
      && Loaded(t.commands, 0, Flood(free), Others(free), t.clients[0].commandSeqno)
  {
    hide Layout, Representable, Restore, RestorePoint, SoundStore, Others, Flood, RestoreKeys;
    var keys := Others(free);
    var s0 := WithClient(Empty, 0, FreshClient(true, Flood(free), [], None));
    assert Restoring(s0, 0, []);
    RestoreKeysKeeps(s0, 0, keys);
    RestoreKeepsClients(s0, 0, keys);
    var t := RestoreKeys(s0, 0, keys);
    assert forall a :: a in t.commands ==> Sound(t, a);
  }

  lemma FloodFills(free: nat)
    requires free <= MAX_MSG_ID && SoundStore(Flood(free)) && Enumerates(Others(free), Flood(free))
    ensures
      var t := Create(Empty, 0, Flood(free), Others(free), [], None);
      Flooded(t, free) && t.clients.Keys == {0}
  {
    hide SoundStore, Enumerates, Others, Flood, Create, Carries, Loaded;
    EnumeratedKeys(Others(free), Flood(free));
    FloodRestored(free);
    var t := Create(Empty, 0, Flood(free), Others(free), [], None);
    LoadedFlood(t.commands, free, t.clients[0].commandSeqno);
  }

  /** Client 1 is connected and has no requests, beside client 0's. */
  ghost predicate Beside(s: State, free: nat, cursor: nat) {
    && Flooded(s, free) && 1 in s.clients
    && s.clients[1] == Online(FreshClient(false, map[], [], None)).(msgID := cursor)
  }

  lemma TakenBeside(s: State, free: nat, cursor: nat)
    requires Beside(s, free, cursor)
    ensures forall id :: 1 <= id <= MAX_MSG_ID ==> (id in TakenIds(s, 1) <==> id != free)
  {
    var taken := TakenIds(s, 1);
    forall id | 1 <= id <= MAX_MSG_ID && id != free
      ensures id in taken
    {
      assert Carries(s.commands, id);
      var a :| a in s.commands && a.token == id;
    }
  }

  lemma FloodRun(free: nat) returns (r: Run)
    requires free <= MAX_MSG_ID
    ensures Valid(r) && Flooded(r.last, free) && r.last.clients.Keys == {0}
  {
    FloodIsSound(free);
    FloodFills(free);
    hide Valid, Create, Flood, Others, Carries, SoundStore, Enumerates;
    r := Extend(Start, DoCreate(0, Flood(free), Others(free), [], None));
  }

  lemma BesideFlood(free: nat) returns (r: Run)
    requires free <= MAX_MSG_ID
    ensures Valid(r) && Beside(r.last, free, 0)
  {
    hide Valid, Carries;
    var r1 := FloodRun(free);
    var r2 := Extend(r1, DoCreateVolatile(1, None));
    hide Enabled, Apply;
    r := Connected(r2, 1);
  }

  /** With all ids taken by another client's commands, the first request of a client that has just
      connected would search for ever. */
  lemma SearchCanDiverge() returns (r: Run)
    ensures Valid(r)
    ensures var s := r.last;
      && 1 in s.clients && NeedsId(s.clients[1], Subscribe([])) && Diverges(TakenIds(s, 1), s.clients[1].msgID)
  {
    r := BesideFlood(0);
    TakenBeside(r.last, 0, 0);
  }

  // ----- "none free" with one free -----

  const Asking := DoRequest(1, Subscribe([]), 0, false)

  /** The subscription that client 1 gets the one free id for. */
  predicate Lone(x: Command, free: nat) {
    x.client == 1 && x.token == free && x.details == Subscribe([]) && x.onSuccess == 0 && !x.onFailure
  }

  lemma LoneIdAssigned(s: State, free: nat)
    requires 1 <= free <= MAX_MSG_ID && Beside(s, free, 0)
    ensures !Diverges(TakenIds(s, 1), 0)
    ensures AssignMsgId(s, 1) == (WithClient(s, 1, s.clients[1].(msgID := free)), free)
  {
    var taken := TakenIds(s, 1);
    TakenBeside(s, free, 0);
    hide TakenIds, FirstFree, Flooded;
    LoneIdFound(taken, free);
  }

  lemma LoneIdFound(taken: set<int>, free: nat)
    requires 1 <= free <= MAX_MSG_ID && forall id :: 1 <= id <= MAX_MSG_ID ==> (id in taken <==> id != free)
    ensures !Diverges(taken, 0) && FirstFree(taken, 0, 1) == free
  {
    hide FirstFree;
    SearchFromZero(taken);
    assert free !in taken;
    FirstFreeIsFirst(taken, 0, 1);
    var m :| FoundAt(taken, 0, 1, m);
    assert IdAfter(0, m) == m;
  }

  lemma LoneRequest(s: State, free: nat)
    requires 1 <= free <= MAX_MSG_ID && Beside(s, free, 0)
    ensures Enabled(s, Asking)
    ensures
      var t := Apply(s, Asking);
      && |t.commands| == |s.commands| + 1 && t.commands[..|s.commands|] == s.commands
      && Lone(t.commands[|s.commands|], free)
      && t.clients == s.clients[1 := s.clients[1].(msgID := free)]
  {
    LoneIdAssigned(s, free);
    hide AssignMsgId, TakenIds, Flooded, Diverges;
  }

  /** It is dispatched past all the requests of the client who is not connected. */
  lemma LoneDispatched(s: State, q: seq<Command>, x: Command, free: nat)
    requires s.commands == q + [x] && Lone(x, free) && 0 in s.clients && !s.clients[0].connected
    requires forall a :: a in q ==> a.client == 0 && Persistable(a.details)
    requires 1 in s.clients && s.clients[1] == Online(FreshClient(false, map[], [], None)).(msgID := free)
    ensures
      var t := Apply(s, DoProcess(Net({1}, 0, Written, false)));
      t.commands == q && t.clients == s.clients[1 := s.clients[1].(responses := [x])]
  {
    LoneIsReady(s, q, x, free);
    hide FirstReady, IsHead, Ready;
    assert Without(s.commands, |q|) == q;
    assert [] + [x] == [x];
    var t := Process(s, Net({1}, 0, Written, false));
    assert t.clients[1].responses == [x];
    assert t.clients == s.clients[1 := s.clients[1].(responses := [x])];
  }

  lemma LoneIsReady(s: State, q: seq<Command>, x: Command, free: nat)
    requires s.commands == q + [x] && Lone(x, free) && 0 in s.clients && !s.clients[0].connected
    requires forall a :: a in q ==> a.client == 0 && Persistable(a.details)
    requires 1 in s.clients && s.clients[1] == Online(FreshClient(false, map[], [], None)).(msgID := free)
    ensures FirstReady(s, {1}, 0) == |q|
  {
    hide FirstReady;
    assert forall j :: 0 <= j < |q| ==> s.commands[j] == q[j] && q[j] in q && !Ready(s, s.commands[j], {1});
    assert IsHead(s.commands, |q|) && Ready(s, s.commands[|q|], {1});
    var i := FirstReady(s, {1}, 0);
  }

  lemma LoneAcknowledged(s: State, clients: map<ClientId, Client>, x: Command, free: nat)
    requires Lone(x, free) && 1 in clients && clients[1].responses == []
    requires s.clients == clients[1 := clients[1].(responses := [x])]
    ensures
      var t := Apply(s, DoAck(1, free, false, false));
      t.commands == s.commands && t.clients == clients[1 := clients[1]]
  {
    assert FindResponse([x], free) == 0;
    assert Without([x], 0) == [];
  }

  /** Client 1 has used the one id that client 0 has left, and gets no other although that id is free
      again. */
  lemma ZeroThoughOneIsFree(free: nat) returns (r: Run)
    requires 1 <= free <= MAX_MSG_ID
    ensures Valid(r)
    ensures var s := r.last;
      && 1 in s.clients && s.clients[1].msgID == free && free !in TakenIds(s, 1)
      && Request(s, 1, Subscribe([]), 0, false).1 == NoMoreMsgIds
  {
    var r1 := BesideFlood(free);
    var s := r1.last;
    hide Valid, Flooded, TakenIds;
    LoneRequest(s, free);
    var r2 := Extend(r1, Asking);
    var x := r2.last.commands[|s.commands|];
    r := LoneRunEnds(r2, s, x, free);
    TakenBeside(r.last, free, free);
    ZeroMeansExhausted(TakenIds(r.last, 1), free);
  }

  lemma LoneRunEnds(r: Run, s: State, x: Command, free: nat) returns (r': Run)
    requires Valid(r) && 1 <= free <= MAX_MSG_ID && Beside(s, free, 0) && Lone(x, free)
    requires r.last.commands == s.commands + [x]
    requires r.last.clients == s.clients[1 := s.clients[1].(msgID := free)]
    ensures Valid(r') && Beside(r'.last, free, free)
  {
    hide Valid, Lone, Apply, Flooded;
    LoneFacts(s, free, r.last.clients);
    LoneDispatched(r.last, s.commands, x, free);
    var sent := DoProcess(Net({1}, 0, Written, false));
    assert Enabled(r.last, sent);
    var r1 := Extend(r, sent);
    LoneAcknowledged(r1.last, r.last.clients, x, free);
    assert Enabled(r1.last, DoAck(1, free, false, false));
    r' := Extend(r1, DoAck(1, free, false, false));
    StillBeside(s, r'.last, r.last.clients, free);
  }

  lemma LoneFacts(s: State, free: nat, clients: map<ClientId, Client>)
    requires Beside(s, free, 0) && clients == s.clients[1 := s.clients[1].(msgID := free)]
    ensures 0 in clients && !clients[0].connected && 1 in clients && clients[1].responses == []
    ensures clients[1] == Online(FreshClient(false, map[], [], None)).(msgID := free)
    ensures forall a :: a in s.commands ==> a.client == 0 && Persistable(a.details)
  {
    hide Carries;
  }

  lemma StillBeside(s: State, t: State, clients: map<ClientId, Client>, free: nat)
    requires Beside(s, free, 0) && clients == s.clients[1 := s.clients[1].(msgID := free)]
    requires t.commands == s.commands && t.clients == clients[1 := clients[1]]
    ensures Beside(t, free, free)
  {
    hide Carries;
  }

  // ----- an interrupted write loses a request -----

  /** Client 0 alone, connected, its queue empty, with these responses and this interrupted write. */
  predicate Alone(s: State, responses: seq<Command>, pendingWrite: Option<Command>) {
    && s.commands == [] && 0 in s.clients
    && s.clients[0] == Online(FreshClient(false, map[], [], None)).(
                         msgID := s.clients[0].msgID, responses := responses, pendingWrite := pendingWrite)
  }

  function Sent0(sent: Sent): Step {
    DoProcess(Net({0}, 0, sent, false))
  }

  /** A subscription and its dispatch. */
  lemma Subscribed(r: Run) returns (r': Run, a: Command)
    requires Valid(r) && Alone(r.last, [], None) && r.last.clients[0].msgID == 0
    ensures Valid(r') && Alone(r'.last, [a], None) && r'.last.clients[0].msgID == 1
    ensures Tracked(a, 0) && NeedsToken(a.details) && Added(a) in r'.last.log
  {
    hide Valid, FirstFree;
    var s, step := r.last, DoRequest(0, Subscribe([]), 1, true);
    assert TakenIds(s, 0) == {};
    NextIsFree({}, 0);
    assert 1 !in TakenIds(s, 0);
    var r1 := Extend(r, step);
    a := r1.last.commands[0];
    AloneDispatched(r1.last, a, [], Written);
    r' := Extend(r1, Sent0(Written));
  }

  /** A QoS 0 publication whose write is interrupted, behind the subscription. */
  lemma PublishInterrupted(r: Run, a: Command) returns (r': Run, b: Command)
    requires Valid(r) && Alone(r.last, [a], None) && r.last.clients[0].msgID <= MAX_MSG_ID
    ensures Valid(r') && Alone(r'.last, [a, b], Some(b)) && r.last.log <= r'.last.log
    ensures Tracked(b, 0) && !NeedsToken(b.details)
  {
    hide Valid, FirstFree, TakenIds;
    var r1 := Extend(r, DoRequest(0, Publish([], [], 0, 0), 2, true));
    b := r1.last.commands[0];
    AloneDispatched(r1.last, b, [a], Interrupted);
    r' := Extend(r1, Sent0(Interrupted));
  }

  lemma AloneDispatched(s: State, x: Command, responses: seq<Command>, sent: Sent)
    requires Alone(s.(commands := []), responses, None) && s.commands == [x] && x.client == 0
    requires Persistable(x.details) && (x.details.Publish? ==> x.details.qos == 0)
    requires sent == if x.details.Publish? then Interrupted else Written
    ensures
      var t := Apply(s, Sent0(sent));
      Alone(t, responses + [x], if x.details.Publish? then Some(x) else None) && s.log <= t.log
  {
    assert IsHead(s.commands, 0) && Ready(s, x, {0});
    assert FirstReady(s, {0}, 0) == 0;
    assert Without(s.commands, 0) == [];
  }

  /** A subscription awaits its acknowledgement, and behind it a publication the rest of its write. */
  lemma PublishedBehind() returns (r: Run, a: Command, b: Command)
    ensures Valid(r) && Alone(r.last, [a, b], Some(b)) && a != b
    ensures Awaited(a) && Tracked(b, b.client) && !NeedsToken(b.details) && Added(a) in r.last.log
  {
    assert Valid(Start);
    hide Valid, Calls, NeedsToken;
    var r1 := Extend(Start, DoCreateVolatile(0, None));
    var r2 := Connected(r1, 0);
    var r3;
    r3, a := Subscribed(r2);
    r, b := PublishInterrupted(r3, a);
    assert Added(a) in r.last.log;
  }

  /** The subscription is freed in place of the publication: it is neither queued nor waiting any more,
      and is never called back. */
  lemma WriteCompleteCanLose() returns (r: Run, a: Command)
    ensures Valid(r) && Awaited(a) && Added(a) in r.last.log
    ensures !Queued(r.last, a) && !Waiting(r.last, a) && Calls(r.last.log, a) == 0
  {
    hide Valid, Awaited, Calls;
    var before, b;
    before, a, b := PublishedBehind();
    r := Extend(before, DoWriteComplete(0));
    hide Apply, Enabled;
    LostAtLast(r, before, a);
  }

  lemma LostAtLast(r: Run, before: Run, a: Command)
    requires Valid(r) && Valid(before) && Awaited(a)
    requires r.steps == before.steps + [DoWriteComplete(0)] && r.past == before.past + [before.last]
    requires OutOfTurn(before.last, 0) && Responses(before.last, 0)[0] == a
    ensures !Queued(r.last, a) && !Waiting(r.last, a) && Calls(r.last.log, a) == 0
  {
    var n := |before.steps|;
    assert |Trace(r)| == n + 2 && Trace(r)[n] == before.last && Trace(r)[n + 1] == r.last;
    assert Loses(Trace(r)[n], r.steps[n], a);
    EveryRequestAnsweredOnce(r.steps, Trace(r), n + 1, a);
  }

  lemma CalledTwice(log: seq<Event>, a: Command)
    ensures
      var l := log + [SuccessCalled(a)] + [FailureCalled(a)];
      SuccessCalled(a) in l && FailureCalled(a) in l && Calls(l, a) >= 2
  {
    var l1 := log + [SuccessCalled(a)];
    var l := l1 + [FailureCalled(a)];
    assert l1[..|l1| - 1] == log && l[..|l| - 1] == l1;
    assert l[|log|] == SuccessCalled(a) && l[|log| + 1] == FailureCalled(a);
    assert Calls(l1, a) >= 1;
  }

  /** The publication, still waiting after it has been reported as sent, is reported as failed when the
      client is destroyed. */
  lemma WriteCompleteCanCallTwice() returns (r: Run, b: Command)
    ensures Valid(r) && Tracked(b, b.client) && !NeedsToken(b.details)
    ensures SuccessCalled(b) in r.last.log && FailureCalled(b) in r.last.log && Calls(r.last.log, b) >= 2
  {
    hide Valid, Awaited, Calls, NeedsToken;
    var r1, a;
    r1, a, b := PublishedBehind();
    var r2 := Extend(r1, DoWriteComplete(0));
    r := Extend(r2, DoDestroy(0));
    assert FailureEvents([b]) == [FailureCalled(b)] by {
      assert [b][..0] == [];
    }
    assert r.last.log == r1.last.log + [SuccessCalled(b)] + [FailureCalled(b)];
    CalledTwice(r1.last.log, b);
  }

  // ----- a restart reverses two requests -----

  lemma OnlinePersistent() returns (r: Run)
    ensures Valid(r) && r.last.commands == []
    ensures r.last.clients == map[0 := Online(FreshClient(true, map[], [], None))]
  {
    assert Valid(Start);
    hide Valid, Layout, Restore;
    var r1 := Extend(Start, DoCreate(0, map[], [], [], None));
    assert r1.last == Empty.(clients := map[0 := FreshClient(true, map[], [], None)]);
    r := Connected(r1, 0);
  }

  /** Two subscriptions of a persistent client, queued and stored. */
  lemma TwoQueued() returns (r: Run)
    ensures Valid(r) && 0 in r.last.clients && r.last.clients[0].persistent
    ensures Seqnos(Requests(r.last.commands, 0)) == [1, 2] && r.last.clients[0].store.Keys == {1, 2}
  {
    hide Valid, FirstFree, Layout, Restore;
    var r2 := OnlinePersistent();
    var step := DoRequest(0, Subscribe([]), 0, false);
    SubscribeStored(r2.last, []);
    var r3 := Extend(r2, step);
    SubscribeStored(r3.last, [r3.last.commands[0]]);
    r := Extend(r3, step);
    TwoRequests(r.last.commands[0], r.last.commands[1]);
    assert r.last.commands == [r.last.commands[0], r.last.commands[1]];
  }

  /** A subscription by client 0, with the queue `q` before it. */
  lemma SubscribeStored(s: State, q: seq<Command>)
    requires s.commands == q && |q| <= 1 && 0 in s.clients
    requires var cl := s.clients[0];
      && cl.connected && cl.persistent && cl.responses == [] && cl.msgID == |q| && cl.commandSeqno == |q|
      && cl.buffering == None
    requires |q| == 1 ==> q[0].token == 1
    ensures Enabled(s, DoRequest(0, Subscribe([]), 0, false))
    ensures
      var t := Apply(s, DoRequest(0, Subscribe([]), 0, false));
      && |t.commands| == |q| + 1 && t.commands[..|q|] == q
      && var x := t.commands[|q|];
      && x.client == 0 && x.details == Subscribe([]) && x.seqno == |q| + 1 && x.token == |q| + 1
      && 0 in t.clients && t.clients[0].store.Keys == s.clients[0].store.Keys + {|q| + 1}
      && t.clients[0] == s.clients[0].(msgID := |q| + 1, commandSeqno := |q| + 1, store := t.clients[0].store)
  {
    hide FirstFree, Layout;
    var taken := TakenIds(s, 0);
    assert |q| + 1 !in taken;
    NextIsFree(taken, |q|);
  }

  lemma TwoRequests(a: Command, b: Command)
    requires a.client == 0 && b.client == 0 && a.seqno == 1 && b.seqno == 2
    requires Persistable(a.details) && Persistable(b.details)
    ensures Seqnos(Requests([a, b], 0)) == [1, 2]
  {
    assert [a, b][..1] == [a] && [a][..0] == [];
    assert Requests([a], 0) == [a];
    assert Requests([a, b], 0) == [a] + [b];
    assert Seqnos([a, b])[0] == 1 && Seqnos([a, b])[1] == 2;
  }

  /** When the backend enumerates their keys the other way round, as one sorted by name does with the
      keys 9 and 10, the two come back in reverse order. */
  lemma RestartCanReorder() returns (r: Run, t: State)
    ensures Valid(r) && 0 in r.last.clients && Enabled(Empty, DoCreate(0, r.last.clients[0].store, [2, 1], [], None))
    ensures t == Apply(Empty, DoCreate(0, r.last.clients[0].store, [2, 1], [], None))
    ensures Seqnos(Requests(r.last.commands, 0)) == [1, 2] && Seqnos(Line(t.commands, 0)) == [2, 1]
    ensures !SameOrder(Requests(r.last.commands, 0), Requests(t.commands, 0))
  {
    r := TwoQueued();
    RunKeepsInv(r.steps, Trace(r), |r.steps|);
    assert r.last == Trace(r)[|r.steps|];
    hide Valid, Inv, Create, Requests, Line, SameOrder, Enabled;
    t := Reordered(r.last);
  }

  lemma Reordered(s: State) returns (t: State)
    requires Inv(s) && 0 in s.clients && s.clients[0].persistent && s.clients[0].store.Keys == {1, 2}
    requires Seqnos(Requests(s.commands, 0)) == [1, 2]
    ensures Enabled(Empty, DoCreate(0, s.clients[0].store, [2, 1], [], None))
    ensures t == Apply(Empty, DoCreate(0, s.clients[0].store, [2, 1], [], None))
    ensures Seqnos(Line(t.commands, 0)) == [2, 1] && !SameOrder(Requests(s.commands, 0), Requests(t.commands, 0))
  {
    var store := s.clients[0].store;
    BackToFront(store);
    NothingInEmpty();
    hide Inv, Recovered, Requests, Line, SameOrder, Enumerates, Create, Enabled;
    RestartRecoversQueue(s, 0, store, Empty, 0, [2, 1], [], None);
    t := Create(Empty, 0, store, [2, 1], [], None);
    RecoveredRequests(s, 0, t, 0, [2, 1]);
    OrderSurvivesIff(s, 0, store, Empty, 0, [2, 1], [], None);
    assert [2, 1][0] != [1, 2][0];
  }

  lemma BackToFront(store: map<nat, seq<byte>>)
    requires store.Keys == {1, 2}
    ensures Enumerates([2, 1], store)
  {
    var keys: seq<nat> := [2, 1];
    assert keys[0] == 2 && keys[1] == 1;
    assert forall k :: k in store <==> k in store.Keys;
  }

  lemma NothingInEmpty()
    ensures Inv(Empty) && Empty.clients == map[]
  {
  }

  // ----- a URI index leaves the array -----

  /** While the second of two URIs waits to be tried, a connect with one URI is taken for a duplicate; the
      CONNECT in the queue keeps its index, but the array is shorter now. */
  lemma UriCanLeaveArray() returns (r: Run)
    ensures Valid(r) && 0 in r.last.clients && r.last.clients[0].uriCount == 1
    ensures |r.last.commands| == 1 && ConnectBeyond(r.last.commands[0], 0, 1) && !InRange(r.last, 0)
  {
    assert Valid(Start);
    hide Valid;
    var r1 := Extend(Start, DoCreateVolatile(0, None));
    var r2 := Extend(r1, DoConnect(0, MQTTVERSION_3_1_1, false, 2, 0, false));
    var x := New(r1.last, 0, 0, 0, false, Connect(0, MQTTVERSION_DEFAULT));
    assert r2.last.commands == [x];
    assert FirstReady(r2.last, {}, 0) == 0 && Without(r2.last.commands, 0) == [];
    var r3 := Extend(r2, DoProcess(Net({}, 0, Written, false)));
    SecondIsDuplicate(r3.last);
    r := Extend(r3, DoConnect(0, MQTTVERSION_3_1_1, false, 1, 0, false));
  }

  lemma SecondIsDuplicate(s: State)
    requires |s.commands| == 1 && s.commands[0].client == 0 && s.commands[0].details == Connect(1, MQTTVERSION_3_1_1)
    requires 0 in s.clients
    ensures
      var t := Apply(s, DoConnect(0, MQTTVERSION_3_1_1, false, 1, 0, false));
      && t.commands == s.commands && 0 in t.clients && t.clients[0].uriCount == 1 && !InRange(t, 0)
  {
    assert s.commands[0] in s.commands;
  }
}
