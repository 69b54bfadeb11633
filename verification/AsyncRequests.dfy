/** What the API calls answer and what they put into the queue, with every condition written out. */
module AsyncRequests {
  import opened Bytes
  import opened CommandCodec
  import opened LinkedLists
  import opened AsyncState
  import opened AsyncInvariants
  import opened AsyncTheorems
  import opened AsyncDispatch
  import opened AsyncClients
  import opened AsyncOutcomes

  // ----- the next message id -----

  /** Between the cursor and `id`, going round from 65535 to 1, every id is taken. */
  predicate TakenUpTo(taken: set<int>, cursor: int, id: int) {
    forall y :: 1 <= y <= 65535 && (if cursor < id then cursor < y < id else cursor < y || y < id) ==> y in taken
  }

  /** The search finds the first free id after the cursor, or 0 when every id but the cursor is taken. */
  lemma NextIdIsNext(taken: set<int>, cursor: nat)
    requires cursor <= 65535
    requires cursor == 0 ==> exists id :: 1 <= id <= 65535 && id !in taken
    ensures
      var id := FirstFree(taken, cursor, 1);
      if forall y :: 1 <= y <= 65535 && y != cursor ==> y in taken then id == 0
      else 1 <= id <= 65535 && id !in taken && id != cursor && TakenUpTo(taken, cursor, id)
  {
    if cursor == 0 {
      SearchFromZero(taken);
      assert !Diverges(taken, 0);
    } else {
      ZeroMeansExhausted(taken, cursor);
    }
    hide FirstFree, Diverges, TakenUpTo;
    if FirstFree(taken, cursor, 1) != 0 {
      FirstFreeIsFirst(taken, cursor, 1);
      var m :| FoundAt(taken, cursor, 1, m);
      FoundIsNext(taken, cursor, m);
    }
  }

  lemma FoundIsNext(taken: set<int>, cursor: nat, m: nat)
    requires cursor <= 65535 && FoundAt(taken, cursor, 1, m)
    ensures TakenUpTo(taken, cursor, IdAfter(cursor, m))
  {
    hide FirstFree;
    var id := IdAfter(cursor, m);
    forall y | 1 <= y <= 65535 && (if cursor < id then cursor < y < id else cursor < y || y < id)
      ensures y in taken
    {
      Nearer(cursor, m, y);
    }
  }

  lemma Nearer(cursor: nat, m: nat, y: int)
    requires cursor <= 65535 && 1 <= m <= 65535 && 1 <= y <= 65535 && IdAfter(cursor, m) != cursor
    requires var id := IdAfter(cursor, m); if cursor < id then cursor < y < id else cursor < y || y < id
    ensures exists j :: 1 <= j < m && IdAfter(cursor, j) == y
  {
    var j := if y > cursor then y - cursor else y - cursor + 65535;
    assert IdAfter(cursor, j) == y by {
      if y > cursor {
        assert cursor + j - 1 == y - 1;
      } else {
        assert (y - 1 + 65535) % 65535 == y - 1;
      }
    }
  }

  // ----- the replies -----

  /** May the client queue this request?  While disconnected only publications may be, and only by a
      client that asked for it and is meant to be connected. */
  predicate MayQueue(a: Client, d: Details) {
    a.connected || (d.Publish? && a.buffering.Some? && a.buffering.value.sendWhileDisconnected && a.shouldBeConnected)
  }

  predicate GoodQos(d: Details) {
    match d
    case Subscribe(subs) => forall i :: 0 <= i < |subs| ==> subs[i].qos == 0 || subs[i].qos == 1 || subs[i].qos == 2
    case Publish(_, _, qos, _) => qos == 0 || qos == 1 || qos == 2
    case _ => true
  }

  predicate WantsId(d: Details) {
    !(d.Publish? && d.qos == 0)
  }

  /** Is the id carried by a queued command of any client, or by a response of `c`? */
  predicate InUse(s: State, c: ClientId, id: int)
    requires c in s.clients
  {
    (exists a :: a in s.commands && a.token == id) || (exists r :: r in s.clients[c].responses && r.token == id)
  }

  /** The places of the queued publications of `c`. */
  function PublicationsOf(q: seq<Command>, c: ClientId): set<int> {
    set i | 0 <= i < |q| && q[i].client == c && q[i].details.Publish?
  }

  predicate IsFull(s: State, c: ClientId, d: Details)
    requires c in s.clients
  {
    var b := s.clients[c].buffering;
    d.Publish? && b.Some? && |PublicationsOf(s.commands, c)| >= b.value.maxBuffered
  }

  ghost predicate NoId(s: State, c: ClientId, d: Details)
    requires c in s.clients
  {
    WantsId(d) && forall id :: 1 <= id <= 65535 && id != s.clients[c].msgID ==> InUse(s, c, id)
  }

  lemma InUseIsTaken(s: State, c: ClientId, id: int)
    requires c in s.clients
    ensures InUse(s, c, id) <==> id in TakenIds(s, c)
  {
  }

  lemma {:induction false} BufferedCounts(q: seq<Command>, c: ClientId)
    ensures Buffered(q, c) == |PublicationsOf(q, c)|
  {
    if q == [] {
      assert PublicationsOf(q, c) == {};
    } else {
      var n := |q| - 1;
      BufferedCounts(q[..n], c);
      assert PublicationsOf(q, c) ==
             PublicationsOf(q[..n], c) + if q[n].client == c && q[n].details.Publish? then {n} else {};
    }
  }

  lemma RefusalsAre(a: Client, d: Details)
    requires Persistable(d)
    ensures Refusal(a, d) == if !MayQueue(a, d) then Disconnected else if !GoodQos(d) then BadQos else Success
    ensures NeedsToken(d) == WantsId(d)
  {
    assert QosInRange(d) == GoodQos(d) by {
      if d.Subscribe? && GoodQos(d) {
        assert forall x :: x in d.subs ==> 0 <= x.qos <= 2;
      }
    }
  }

  /** The id a call gets, 0 if there is none for it. */
  function IdFor(s: State, c: ClientId, d: Details): int
    requires c in s.clients && s.clients[c].msgID <= 65535
  {
    if WantsId(d) then FirstFree(TakenIds(s, c), s.clients[c].msgID, 1) else 0
  }

  /** It is the next one that is not in use, in the cycle from 1 to 65535. */
  lemma IdForIsNext(s: State, c: ClientId, d: Details)
    requires c in s.clients && s.clients[c].msgID <= 65535
    requires WantsId(d) ==> !Diverges(TakenIds(s, c), s.clients[c].msgID)
    ensures NoId(s, c, d) <==> WantsId(d) && IdFor(s, c, d) == 0
    ensures
      var id, cursor := IdFor(s, c, d), s.clients[c].msgID;
      id != 0 ==> WantsId(d) && 1 <= id <= 65535 && id != cursor && !InUse(s, c, id)
                  && forall y :: 1 <= y <= 65535 && (if cursor < id then cursor < y < id else cursor < y || y < id) ==>
                       InUse(s, c, y)
  {
    var taken, cursor := TakenIds(s, c), s.clients[c].msgID;
    hide TakenIds, FirstFree, InUse;
    forall y: int
      ensures InUse(s, c, y) <==> y in taken
    {
      InUseIsTaken(s, c, y);
    }
    if WantsId(d) {
      NextIdIsNext(taken, cursor);
    }
  }

  /** The replies in the code's order: not connected, a QoS out of range, no message id, too many
      publications waiting; otherwise the call is accepted. */
  lemma RepliesAre(s: State, c: ClientId, d: Details, onSuccess: nat, onFailure: bool)
    requires Enabled(s, DoRequest(c, d, onSuccess, onFailure))
    ensures
      Request(s, c, d, onSuccess, onFailure).1 ==
      if !MayQueue(s.clients[c], d) then Disconnected
      else if !GoodQos(d) then BadQos
      else if NoId(s, c, d) then NoMoreMsgIds
      else if IsFull(s, c, d) then MaxBufferedMessages
      else Success
  {
    hide MayQueue, GoodQos, NoId, Refusal, WantsId, NeedsToken, FirstFree, TakenIds, Diverges, AddNew, Buffered;
    hide QosInRange, Representable, Persistable;
    RefusalsAre(s.clients[c], d);
    if MayQueue(s.clients[c], d) && GoodQos(d) {
      IdForIsNext(s, c, d);
      BufferedCounts(s.commands, c);
    }
  }

  /** A refused call leaves queue, log and all clients as they are, but for the cursor of the message ids
      when the queue turned out to be full. */
  lemma RefusedChangesNothing(s: State, c: ClientId, d: Details, onSuccess: nat, onFailure: bool)
    requires Enabled(s, DoRequest(c, d, onSuccess, onFailure))
    ensures
      var (t, reply) := Request(s, c, d, onSuccess, onFailure);
      && (reply == Disconnected || reply == BadQos || reply == NoMoreMsgIds ==> t == s)
      && (reply == MaxBufferedMessages ==>
            t == s || (WantsId(d) && t == s.(clients := s.clients[c := s.clients[c].(msgID := IdFor(s, c, d))])))
  {
    hide MayQueue, GoodQos, NoId, Refusal, FirstFree, TakenIds, Diverges, AddNew, Buffered;
    hide QosInRange, Representable;
  }

  /** An accepted call: the client may queue it, found fewer publications of its own waiting than it
      allows, and has one more command at the end of the queue, with the next free id. */
  lemma AcceptedIsQueued(s: State, c: ClientId, d: Details, onSuccess: nat, onFailure: bool)
    requires Enabled(s, DoRequest(c, d, onSuccess, onFailure))
    requires Request(s, c, d, onSuccess, onFailure).1 == Success
    ensures MayQueue(s.clients[c], d) && GoodQos(d)
    ensures d.Publish? && s.clients[c].buffering.Some? ==>
              |PublicationsOf(s.commands, c)| < s.clients[c].buffering.value.maxBuffered
    ensures
      var t, x := Request(s, c, d, onSuccess, onFailure).0, NewRequest(s, c, d, onSuccess, onFailure);
      && t.commands == s.commands + [x] && t.log == s.log + [Added(x)] && t.nextId == s.nextId + 1
      && c in t.clients
      && (WantsId(d) ==> x.token != 0 && t.clients[c].msgID == x.token as int)
      && (!WantsId(d) ==> x.token == 0 && t.clients[c].msgID == s.clients[c].msgID)
      && (s.clients[c].persistent ==>
            t.clients[c].store == s.clients[c].store[x.seqno := Layout(x.token, d)])
  {
    hide MayQueue, GoodQos, NoId, IdFor, Layout, Representable, Request, PublicationsOf, Diverges, NeedsId;
    RepliesAre(s, c, d, onSuccess, onFailure);
    AcceptedIsAdded(s, c, d, onSuccess, onFailure);
  }

  lemma AcceptedIsAdded(s: State, c: ClientId, d: Details, onSuccess: nat, onFailure: bool)
    requires Enabled(s, DoRequest(c, d, onSuccess, onFailure))
    requires Request(s, c, d, onSuccess, onFailure).1 == Success
    ensures -0x8000_0000 <= IdFor(s, c, d) < 0x8000_0000
    ensures WantsId(d) <==> IdFor(s, c, d) != 0
    ensures
      var a, id := s.clients[c], IdFor(s, c, d);
      Request(s, c, d, onSuccess, onFailure).0 ==
      AddNew(if WantsId(d) then WithClient(s, c, a.(msgID := id)) else s, c, id, onSuccess, onFailure, d)
  {
    hide FirstFree, TakenIds, Diverges, Representable, Refusal, Buffered, AddNew;
    RefusalsAre(s.clients[c], d);
  }

  /** The command an accepted call puts into the queue. */
  function NewRequest(s: State, c: ClientId, d: Details, onSuccess: nat, onFailure: bool): Command
    requires c in s.clients && s.clients[c].msgID <= 65535
  {
    var a := s.clients[c];
    Command(s.nextId, c, IdFor(s, c, d), onSuccess, onFailure, if a.persistent then a.commandSeqno + 1 else 0, d)
  }

  // ----- connecting and disconnecting -----

  predicate SameKind(a: Details, b: Details) {
    (a.Connect? && b.Connect?) || (a.Disconnect? && b.Disconnect?)
  }

  /** From `s` to `t` the command `x` has gone to the head of the queue, unless the head already is a
      command of the same kind and client. */
  predicate AtHead(s: State, t: State, x: Command) {
    if s.commands != [] && s.commands[0].client == x.client && SameKind(s.commands[0].details, x.details)
    then t.commands == s.commands && t.log == s.log
    else t.commands == [x] + s.commands && t.log == s.log + [Added(x)]
  }

  predicate AtEnd(s: State, t: State, x: Command) {
    t.commands == s.commands + [x] && t.log == s.log + [Added(x)]
  }

  predicate SameQueue(s: State, t: State) {
    t.commands == s.commands && t.log == s.log
  }

  /** A connect call queues a CONNECT for the first URI at the head, with the version search starting
      afresh. */
  lemma ConnectCallQueues(s: State, c: ClientId, version: int, cleanSession: bool, uriCount: nat, onSuccess: nat,
                          onFailure: bool)
    requires c in s.clients
    ensures AtHead(s, ConnectCall(s, c, version, cleanSession, uriCount, onSuccess, onFailure),
                   Command(s.nextId, c, 0, onSuccess, onFailure, 0, Connect(0, 0)))
  {
  }

  /** A reconnect queues a CONNECT for the URI last tried, with the version last tried unless none was
      asked for, and with the callbacks of the connect call. */
  lemma ReconnectQueues(s: State, c: ClientId)
    requires c in s.clients
    ensures
      var a := s.clients[c];
      AtHead(s, Reconnect(s, c),
             Command(s.nextId, c, 0, a.connect.onSuccess, a.connect.onFailure, 0,
                     Connect(a.connect.currentURI, if a.version == 0 then 0 else a.connect.version)))
  {
  }

  /** A failed attempt with options left queues a CONNECT with the next ones at the head: the next URI, or
      after 3.1.1 the same URI with 3.1 when no version was asked for. */
  lemma FailureQueues(s: State, c: ClientId)
    requires c in s.clients && !NoneLeft(s.clients[c])
    ensures
      var a := s.clients[c];
      var uri, v := a.connect.currentURI, a.connect.version;
      var next :=
        if a.version != 0 then Connect(uri + 1, v) else if v == 3 then Connect(uri + 1, 0) else Connect(uri, v);
      AtHead(s, NextOrClose(s, c), Command(s.nextId, c, 0, a.connect.onSuccess, a.connect.onFailure, 0, next))
  {
    hide CloseSession;
  }

  /** A disconnect of a connected client is queued: the library's own at the head, the application's at
      the end, behind everything requested before it. */
  lemma DisconnectQueues(s: State, c: ClientId, internal: bool, onSuccess: nat, onFailure: bool)
    requires c in s.clients
    ensures
      var t := DisconnectCall(s, c, internal, onSuccess, onFailure);
      var x := Command(s.nextId, c, 0, onSuccess, onFailure, 0, Disconnect(internal));
      if !s.clients[c].connected then SameQueue(s, t) else if internal then AtHead(s, t, x) else AtEnd(s, t, x)
  {
  }

  /** A socket error of a connected client queues the library's own DISCONNECT. */
  lemma SocketErrorQueues(s: State, c: ClientId)
    requires c in s.clients && s.clients[c].connected
    ensures AtHead(s, SocketError(s, c), Command(s.nextId, c, 0, 0, false, 0, Disconnect(true)))
  {
    hide AddNew, NextOrClose;
    DisconnectQueues(s, c, true, 0, false);
  }

  /** So does the broken write of an acknowledged request, whose failure callback is called. */
  lemma BrokenWriteQueues(s: State, x: Command, net: Net)
    requires x.client in s.clients && s.clients[x.client].connected && Persistable(x.details) && WantsId(x.details)
    requires net.sent.Broken?
    ensures
      var t, t1 := DispatchRequest(s, x, net), DispatchRequest(s, x.(onFailure := false), net);
      && AtHead(s, t1, Command(s.nextId, x.client, 0, 0, false, 0, Disconnect(true)))
      && t.commands == t1.commands && t.log == t1.log + (if x.onFailure then [FailureCalled(x)] else [])
  {
    hide DisconnectCall;
    var c := x.client;
    DisconnectQueues(WithClient(s, c, Sending(s.clients[c], x)), c, true, 0, false);
  }

  /** A QoS 0 publication is reported as sent at once when it is written in one go, and when its
      interrupted write completes; a broken write is not reported at all. */
  lemma Qos0Reports(s: State, x: Command, net: Net)
    requires x.client in s.clients && x.details.Publish? && x.details.qos == 0
    ensures
      var t := DispatchRequest(s, x, net);
      && t.commands == s.commands
      && t.log == s.log + if net.sent.Written? && x.onSuccess != 0 then [SuccessCalled(x)] else []
  {
  }

  lemma CompletionReports(s: State, c: ClientId)
    requires c in s.clients && WritePending(s.clients[c])
    ensures
      var t, x := WriteComplete(s, c), s.clients[c].pendingWrite.value;
      t.commands == s.commands && t.log == s.log + if x.onSuccess != 0 then [SuccessCalled(x)] else []
  {
  }

  // ----- closing -----

  /** The DISCONNECT that a step acts upon: one just dispatched, or the one the timer looks at. */
  function ActsUpon(s: State, step: Step, t: State): Option<Command> {
    match step
    case DoDisconnectTimer(c, _) => if c in s.clients then s.clients[c].disconnect else None
    case _ => DispatchedBy(s, step, t)
  }

  predicate TimeIsOver(step: Step) {
    (step.DoDisconnectTimer? && step.elapsed) || (step.DoProcess? && step.net.elapsed)
  }

  /** A disconnect of a client with a connection closes it if and only if none of its publications is in
      flight or the time is over; otherwise the client goes on disconnecting. */
  lemma DisconnectClosesIff(s: State, step: Step, x: Command)
    requires Inv(s) && Enabled(s, step) && ActsUpon(s, step, Apply(s, step)) == Some(x) && x.details.Disconnect?
    requires x.client in s.clients && (s.clients[x.client].connected || s.clients[x.client].connectState != 0)
    ensures
      var a, t := s.clients[x.client], Apply(s, step);
      && x.client in t.clients
      && var b := t.clients[x.client];
         if a.outbound == [] || TimeIsOver(step) then !b.connected && b.connectState == 0
         else b.connected == a.connected && b.connectState == -2
  {
    hide Inv, Apply, SoundStore, FlightLaw, WaitingLaw, CursorLaw, PendingLaw, RetryLaw, SettingsLaw;
    StepObeysLaw(s, step, x.client);
  }

  /** The application's DISCONNECT has its success callback called when it closes the connection, and not
      before. */
  lemma DisconnectReports(s: State, x: Command, elapsed: bool)
    requires x.client in s.clients && x.details.Disconnect?
    ensures
      var closes := s.clients[x.client].outbound == [] || elapsed;
      multiset(CheckDisconnect(s, x, elapsed).log)[SuccessCalled(x)] ==
      multiset(s.log)[SuccessCalled(x)] + if closes && !x.details.internal && x.onSuccess != 0 then 1 else 0
  {
    hide CloseSession, CleanSession;
    CloseSessionCallsNoSuccess(s, x.client, x);
    var l, es := CloseSession(s, x.client).log, if x.details.internal then [] else SuccessCall(x);
    assert multiset(l + es) == multiset(l) + multiset(es);
  }

  lemma CloseSessionCallsNoSuccess(s: State, c: ClientId, x: Command)
    requires c in s.clients
    ensures multiset(CloseSession(s, c).log)[SuccessCalled(x)] == multiset(s.log)[SuccessCalled(x)]
  {
    hide FailureEvents, RemovalEvents, Purged;
    if s.clients[c].cleanSession {
      var es, fs := FailureEvents(s.clients[c].responses), RemovalEvents(s.commands, c);
      FailuresAreTheirs(s.clients[c].responses, x);
      RemovalsAreTheirs(s.commands, c, x);
      assert CloseSession(s, c).log == s.log + (es + fs);
      assert multiset(s.log + (es + fs)) == multiset(s.log) + multiset(es + fs);
      assert SuccessCalled(x) !in es + fs;
    }
  }
}
