/** What each step does to a client, every field told from the client before the step, the step and the
    command the step has dispatched.  Only what is stored for the client is left to the invariants. */
module AsyncClients {
  import opened Bytes
  import opened CommandCodec
  import opened LinkedLists
  import opened AsyncState
  import opened AsyncInvariants
  import opened AsyncDispatch

  /** The command of `c` that a step has dispatched. */
  function DispatchedOf(s: State, step: Step, t: State, c: ClientId): Option<Command> {
    var x := DispatchedBy(s, step, t);
    if x.Some? && x.value.client == c then x else None
  }

  predicate Concerns(step: Step, c: ClientId) {
    !step.DoProcess? && step.c == c
  }

  // ----- how a connection begins and ends -----

  /** The broker accepts the connection. */
  predicate Opens(a: Client, step: Step, c: ClientId) {
    step.DoConnack? && step.c == c && step.accepted && a.connectState == 3
  }

  /** A connection attempt fails: it is refused, its socket breaks, or its time is over. */
  predicate Fails(a: Client, step: Step, c: ClientId) {
    || (step.DoConnack? && step.c == c && !(step.accepted && a.connectState == 3))
    || (step.DoSocketError? && step.c == c && !a.connected && a.connectState != 0)
    || (step.DoConnectTimeout? && step.c == c)
  }

  /** No server URI and no MQTT version is left to try. */
  predicate NoneLeft(a: Client) {
    a.connect.currentURI + 1 >= a.uriCount && (a.connect.version != 4 || a.version != 0)
  }

  predicate HasLink(a: Client) {
    a.connected || a.connectState != 0
  }

  /** A disconnect closes the connection: nothing is in flight any more, or its time is over. */
  predicate Leaves(a: Client, step: Step, x: Option<Command>, c: ClientId) {
    || (step.DoDisconnectTimer? && step.c == c && (a.outbound == [] || step.elapsed))
    || (step.DoProcess? && x.Some? && x.value.details.Disconnect? && HasLink(a)
        && (a.outbound == [] || step.net.elapsed))
  }

  /** The session is thrown away: a client that asked for a clean one has its connection accepted,
      given up or closed. */
  predicate EndsSession(a: Client, step: Step, x: Option<Command>, c: ClientId) {
    a.cleanSession && (Opens(a, step, c) || (Fails(a, step, c) && NoneLeft(a)) || Leaves(a, step, x, c))
  }

  // ----- the law, field by field -----

  predicate LinkLaw(a: Client, b: Client, step: Step, x: Option<Command>, c: ClientId) {
    && b.connected == (Opens(a, step, c) || (a.connected && !Fails(a, step, c) && !Leaves(a, step, x, c)))
    && b.connectState ==
       (if Opens(a, step, c) || Fails(a, step, c) || Leaves(a, step, x, c) then 0
        else if step.DoSocketError? && step.c == c && !a.connected then 0
        else if x.Some? && x.value.details.Disconnect? && HasLink(a) then -2
        else if step.DoProcess? && x.Some? && x.value.details.Connect? && !HasLink(a) then step.net.connectState
        else a.connectState)
  }

  /** `r` is `q` without the first entry `id`, or `q` if there is none. */
  ghost predicate IdGone(q: seq<int>, r: seq<int>, id: int) {
    if id !in q then r == q
    else exists k :: 0 <= k < |q| && q[k] == id && id !in q[..k] && r == q[..k] + q[k + 1..]
  }

  /** `r` is `q` without the first command with token `id`, or `q` if there is none. */
  ghost predicate AnswerGone(q: seq<Command>, r: seq<Command>, id: int) {
    if forall y :: y in q ==> y.token != id then r == q
    else exists k :: 0 <= k < |q| && q[k].token == id && (forall y :: y in q[..k] ==> y.token != id)
                     && r == q[..k] + q[k + 1..]
  }

  /** The ids in flight grow by each publication above QoS 0 sent, and shrink by each one done. */
  ghost predicate FlightLaw(a: Client, b: Client, step: Step, x: Option<Command>, c: ClientId) {
    if EndsSession(a, step, x, c) then b.outbound == []
    else if step.DoAck? && step.c == c && step.flowDone then IdGone(a.outbound, b.outbound, step.id)
    else if x.Some? && x.value.details.Publish? && x.value.details.qos != 0 then
      b.outbound == a.outbound + [x.value.token]
    else b.outbound == a.outbound
  }

  /** Does a dispatched request go on to wait for its answer? */
  predicate Waits(step: Step, x: Option<Command>) {
    step.DoProcess? && x.Some? && IsRequest(x.value.details) &&
    if x.value.details.Publish? && x.value.details.qos == 0 then step.net.sent.Interrupted? else !step.net.sent.Broken?
  }

  ghost predicate WaitingLaw(a: Client, b: Client, step: Step, x: Option<Command>, c: ClientId) {
    if EndsSession(a, step, x, c) then b.responses == []
    else if step.DoAck? && step.c == c then AnswerGone(a.responses, b.responses, step.id)
    else if step.DoWriteComplete? && step.c == c then a.responses != [] && b.responses == a.responses[1..]
    else if Waits(step, x) then b.responses == a.responses + [x.value]
    else b.responses == a.responses
  }

  /** Message ids start afresh with the session; otherwise only a request moves the cursor. */
  predicate CursorLaw(a: Client, b: Client, step: Step, x: Option<Command>, c: ClientId) {
    if EndsSession(a, step, x, c) then b.msgID == 0
    else (step.DoRequest? && step.c == c) || b.msgID == a.msgID
  }

  predicate PendingLaw(a: Client, b: Client, step: Step, x: Option<Command>, c: ClientId) {
    b.pendingWrite ==
    if step.DoWriteComplete? && step.c == c then None
    else if step.DoProcess? && x.Some? && x.value.details.Publish? && x.value.details.qos == 0
            && !step.net.sent.Written? then x
    else a.pendingWrite
  }

  /** The version tried: the one asked for, or 3.1.1 at first and 3.1 after it. */
  function TriedVersion(asked: int, version: int): int {
    if asked != 0 then asked else if version == 0 then 4 else if version == 4 then 3 else version
  }

  /** What is kept for a retry and for closing. */
  predicate RetryLaw(a: Client, b: Client, step: Step, x: Option<Command>, c: ClientId) {
    && b.disconnect == (if x.Some? && x.value.details.Disconnect? then x else a.disconnect)
    && b.connect ==
       if step.DoConnect? && step.c == c then
         ConnectInfo(a.connect.currentURI, a.connect.version, step.onSuccess, step.onFailure)
       else if Opens(a, step, c) then ConnectInfo(a.connect.currentURI, a.connect.version, 0, a.connect.onFailure)
       else if step.DoProcess? && x.Some? && x.value.details.Connect? && (HasLink(a) || step.net.connectState != 0) then
         var v := x.value.details.version;
         ConnectInfo(x.value.details.currentURI, if HasLink(a) then v else TriedVersion(a.version, v),
                     x.value.onSuccess, x.value.onFailure)
       else a.connect
  }

  predicate SettingsLaw(a: Client, b: Client, step: Step, x: Option<Command>, c: ClientId) {
    && b.persistent == a.persistent && b.buffering == a.buffering
    && (if step.DoConnect? && step.c == c then
          b.cleanSession == step.cleanSession && b.version == step.version
          && b.uriCount == (if step.uriCount > 0 then step.uriCount else a.uriCount)
        else b.cleanSession == a.cleanSession && b.version == a.version && b.uriCount == a.uriCount)
    && b.shouldBeConnected ==
       if step.DoConnect? && step.c == c then true
       else if step.DoDisconnect? && step.c == c && !step.internal then false
       else if step.DoProcess? && x.Some? && x.value.details.Connect? && !HasLink(a) && step.net.connectState == 0
       then true
       else a.shouldBeConnected
  }

  ghost predicate ClientLaw(a: Client, b: Client, step: Step, x: Option<Command>, c: ClientId) {
    && LinkLaw(a, b, step, x, c) && FlightLaw(a, b, step, x, c) && WaitingLaw(a, b, step, x, c)
    && CursorLaw(a, b, step, x, c) && PendingLaw(a, b, step, x, c) && RetryLaw(a, b, step, x, c)
    && SettingsLaw(a, b, step, x, c)
  }

  // ----- what the operations do to the clients -----

  /** Clients that differ at most in what is stored for them. */
  predicate Alike(a: Client, b: Client) {
    b == a.(store := b.store, commandSeqno := b.commandSeqno)
  }

  predicate StaysAlike(s: State, t: State, c: ClientId) {
    (c in s.clients <==> c in t.clients) && (c in s.clients ==> Alike(s.clients[c], t.clients[c]))
  }

  lemma AddAlike(s: State, cmd: Command, c: ClientId)
    requires cmd.client in s.clients && Representable(cmd.details)
    ensures StaysAlike(s, Add(s, cmd), c)
  {
    hide Layout, Representable, Add;
    if Add(s, cmd).commands == s.commands {
      AddNothing(s, cmd);
    } else {
      var x := AddShape(s, cmd);
    }
  }

  lemma AddNewAlike(s: State, d: ClientId, token: int32, onSuccess: nat, onFailure: bool, details: Details, c: ClientId)
    requires d in s.clients && Representable(details)
    ensures StaysAlike(s, AddNew(s, d, token, onSuccess, onFailure, details), c)
  {
    hide Representable, Add;
    AddAlike(s.(nextId := s.nextId + 1), New(s, d, token, onSuccess, onFailure, details), c);
  }

  lemma DisconnectAlike(s: State, d: ClientId, c: ClientId)
    requires d in s.clients
    ensures StaysAlike(s, DisconnectCall(s, d, true, 0, false), c)
  {
    hide AddNew;
    AddNewAlike(s, d, 0, 0, false, Disconnect(true), c);
  }

  /** A client whose session has been thrown away. */
  function Emptied(a: Client): Client {
    a.(outbound := [], responses := [], msgID := 0, store := if a.persistent then map[] else a.store)
  }

  lemma CleanSessionClient(s: State, d: ClientId)
    requires d in s.clients
    ensures CleanSession(s, d).clients == s.clients[d := Emptied(s.clients[d])]
  {
    hide Purged, FailureEvents, RemovalEvents;
  }

  lemma CloseSessionClient(s: State, d: ClientId)
    requires d in s.clients
    ensures
      var a := s.clients[d].(connected := false, connectState := 0);
      CloseSession(s, d).clients == s.clients[d := if a.cleanSession then Emptied(a) else a]
  {
    hide CleanSession;
    CleanSessionClient(CloseOnly(s, d), d);
  }

  /** After a failed attempt the client is idle again, and without its session if that was the last. */
  lemma NextOrCloseClient(s: State, d: ClientId, c: ClientId)
    requires d in s.clients
    ensures c != d ==> StaysAlike(s, NextOrClose(s, d), c)
    ensures
      var a, t := s.clients[d].(connected := false, connectState := 0), NextOrClose(s, d);
      d in t.clients && Alike(if NoneLeft(a) && a.cleanSession then Emptied(a) else a, t.clients[d])
  {
    hide AddNew, CloseSession, NextOptions;
    var cl := s.clients[d];
    CloseSessionClient(s, d);
    if MoreToTry(cl.connect.currentURI, cl.connect.version, cl) {
      StillConnect(cl.connect.currentURI, cl.connect.version, cl);
      AddNewAlike(CloseOnly(s, d), d, 0, cl.connect.onSuccess, cl.connect.onFailure,
                  NextOptions(cl.connect.currentURI, cl.connect.version, cl), c);
      AddNewAlike(CloseOnly(s, d), d, 0, cl.connect.onSuccess, cl.connect.onFailure,
                  NextOptions(cl.connect.currentURI, cl.connect.version, cl), d);
    }
  }

  lemma CheckDisconnectClient(s: State, x: Command, elapsed: bool)
    requires x.client in s.clients && x.details.Disconnect?
    ensures
      var d, a := x.client, s.clients[x.client].(connected := false, connectState := 0);
      CheckDisconnect(s, x, elapsed).clients ==
      if s.clients[d].outbound == [] || elapsed then s.clients[d := if a.cleanSession then Emptied(a) else a]
      else s.clients
  {
    hide CloseSession;
    CloseSessionClient(s, x.client);
  }

  // ----- every step obeys the law -----

  lemma UntouchedLaw(a: Client, b: Client, step: Step, c: ClientId)
    requires Alike(a, b) && !Concerns(step, c)
    ensures ClientLaw(a, b, step, None, c)
  {
  }

  lemma FailedLaw(s: State, step: Step, c: ClientId)
    requires c in s.clients && Fails(s.clients[c], step, c)
    ensures c in NextOrClose(s, c).clients
    ensures ClientLaw(s.clients[c], NextOrClose(s, c).clients[c], step, None, c)
  {
    hide NextOrClose;
    NextOrCloseClient(s, c, c);
  }

  lemma ConnackLaw(s: State, c: ClientId, accepted: bool)
    requires c in s.clients
    ensures c in Connack(s, c, accepted).clients
    ensures ClientLaw(s.clients[c], Connack(s, c, accepted).clients[c], DoConnack(c, accepted), None, c)
  {
    hide NextOrClose, CleanSession, ClientLaw;
    var cl, step := s.clients[c], DoConnack(c, accepted);
    if cl.connectState == 3 && accepted {
      CleanSessionClient(WithClient(s, c, cl.(connected := true, connectState := 0)), c);
      OpenedLaw(cl, Connack(s, c, accepted).clients[c], c);
    } else {
      FailedLaw(s, step, c);
    }
  }

  lemma OpenedLaw(a: Client, b: Client, c: ClientId)
    requires a.connectState == 3
    requires
      var o := a.(connected := true, connectState := 0, connect := a.connect.(onSuccess := 0));
      b == if a.cleanSession then Emptied(o) else o
    ensures ClientLaw(a, b, DoConnack(c, true), None, c)
  {
  }

  lemma SocketErrorLaw(s: State, c: ClientId)
    requires c in s.clients
    ensures c in SocketError(s, c).clients
    ensures ClientLaw(s.clients[c], SocketError(s, c).clients[c], DoSocketError(c), None, c)
  {
    hide NextOrClose, DisconnectCall;
    DisconnectAlike(s, c, c);
    if !s.clients[c].connected && s.clients[c].connectState != 0 {
      FailedLaw(s, DoSocketError(c), c);
    }
  }

  lemma DisconnectCallLaw(s: State, c: ClientId, internal: bool, onSuccess: nat, onFailure: bool)
    requires c in s.clients
    ensures
      var t := DisconnectCall(s, c, internal, onSuccess, onFailure);
      c in t.clients && ClientLaw(s.clients[c], t.clients[c], DoDisconnect(c, internal, onSuccess, onFailure), None, c)
  {
    hide AddNew;
    var s1 := if internal then s else WithClient(s, c, s.clients[c].(shouldBeConnected := false));
    AddNewAlike(s1, c, 0, onSuccess, onFailure, Disconnect(internal), c);
  }

  lemma ConnectCallLaw(s: State, c: ClientId, version: int, cleanSession: bool, uriCount: nat, onSuccess: nat,
                       onFailure: bool)
    requires c in s.clients
    ensures
      var t := ConnectCall(s, c, version, cleanSession, uriCount, onSuccess, onFailure);
      var step := DoConnect(c, version, cleanSession, uriCount, onSuccess, onFailure);
      c in t.clients && ClientLaw(s.clients[c], t.clients[c], step, None, c)
  {
    hide AddNew;
    var s1 := WithClient(s, c, Configured(s.clients[c], version, cleanSession, uriCount, onSuccess, onFailure));
    AddNewAlike(s1, c, 0, onSuccess, onFailure, Connect(0, MQTTVERSION_DEFAULT), c);
  }

  lemma RequestLaw(s: State, c: ClientId, details: Details, onSuccess: nat, onFailure: bool)
    requires c in s.clients && s.clients[c].msgID <= MAX_MSG_ID && Persistable(details) && Representable(details)
    ensures
      var t := Request(s, c, details, onSuccess, onFailure).0;
      c in t.clients && ClientLaw(s.clients[c], t.clients[c], DoRequest(c, details, onSuccess, onFailure), None, c)
  {
    hide AddNew, Representable, FirstFree, QosInRange, TakenIds, Buffered, IdAfter, Refusal, NeedsToken, Persistable;
    var (s1, id) := if NeedsToken(details) then AssignMsgId(s, c) else (s, 0);
    AddNewAlike(s1, c, id, onSuccess, onFailure, details, c);
  }

  lemma DropIdHead(x: int, rest: seq<int>, id: int)
    ensures DropId([x] + rest, id) == if x == id then rest else [x] + DropId(rest, id)
  {
    assert ([x] + rest)[1..] == rest;
  }

  /** What is dropped is the first occurrence. */
  lemma {:induction false} DropIdBehind(a: seq<int>, id: int, b: seq<int>)
    requires id !in a
    ensures DropId(a + [id] + b, id) == a + b
  {
    hide DropId;
    if a == [] {
      DropIdHead(id, b, id);
      assert a + [id] + b == [id] + b && a + b == b;
    } else {
      DropIdBehind(a[1..], id, b);
      DropIdHead(a[0], a[1..] + [id] + b, id);
      assert a + [id] + b == [a[0]] + (a[1..] + [id] + b);
      assert [a[0]] + (a[1..] + b) == a + b;
    }
  }

  lemma {:induction false} DropIdAbsent(ids: seq<int>, id: int)
    requires id !in ids
    ensures DropId(ids, id) == ids
  {
    if ids != [] {
      DropIdAbsent(ids[1..], id);
    }
  }

  lemma DropIdRemovesFirst(ids: seq<int>, id: int)
    ensures IdGone(ids, DropId(ids, id), id)
  {
    hide DropId;
    if id in ids {
      var k := 0;
      while ids[k] != id
        invariant k < |ids| && id !in ids[..k]
        decreases |ids| - k
      {
        k := k + 1;
      }
      DropIdBehind(ids[..k], id, ids[k + 1..]);
      assert ids == ids[..k] + [id] + ids[k + 1..];
    } else {
      DropIdAbsent(ids, id);
    }
  }

  lemma AckLaw(s: State, c: ClientId, id: int, refused: bool, flowDone: bool)
    requires c in s.clients
    ensures
      var t := Ack(s, c, id, refused, flowDone);
      c in t.clients && ClientLaw(s.clients[c], t.clients[c], DoAck(c, id, refused, flowDone), None, c)
  {
    hide IdGone, AnswerGone, ClientLaw, DropId, FindResponse, Without;
    var a, b := s.clients[c], Ack(s, c, id, refused, flowDone).clients[c];
    DropIdRemovesFirst(a.outbound, id);
    FoundIsFirst(a.responses, id);
    AckedLaw(a, b, DoAck(c, id, refused, flowDone), c);
  }

  lemma AckedLaw(a: Client, b: Client, step: Step, c: ClientId)
    requires step.DoAck? && step.c == c && b == a.(outbound := b.outbound, responses := b.responses)
    requires if step.flowDone then IdGone(a.outbound, b.outbound, step.id) else b.outbound == a.outbound
    requires AnswerGone(a.responses, b.responses, step.id)
    ensures ClientLaw(a, b, step, None, c)
  {
    hide IdGone, AnswerGone;
  }

  lemma FoundIsFirst(rs: seq<Command>, id: int)
    ensures
      var i := FindResponse(rs, id);
      AnswerGone(rs, if i < 0 then rs else Without(rs, i), id)
  {
    var i := FindResponse(rs, id);
    if i >= 0 {
      assert rs[i] in rs;
    }
  }

  lemma WriteCompleteLaw(s: State, c: ClientId)
    requires c in s.clients && WritePending(s.clients[c])
    ensures
      var t := WriteComplete(s, c);
      c in t.clients && ClientLaw(s.clients[c], t.clients[c], DoWriteComplete(c), None, c)
  {
  }

  lemma TimerLaw(s: State, x: Command, elapsed: bool)
    requires x.client in s.clients && x.details.Disconnect?
    ensures
      var t, c := CheckDisconnect(s, x, elapsed), x.client;
      c in t.clients && ClientLaw(s.clients[c], t.clients[c], DoDisconnectTimer(c, elapsed), None, c)
  {
    hide CheckDisconnect;
    CheckDisconnectClient(s, x, elapsed);
  }

  // ----- dispatching -----

  lemma DispatchConnectLaw(s: State, x: Command, net: Net)
    requires x.client in s.clients && x.details.Connect?
    ensures
      var t, c := DispatchConnect(s, x, net), x.client;
      c in t.clients && ClientLaw(s.clients[c], t.clients[c], DoProcess(net), Some(x), c)
  {
    hide Add, NextOptions;
    var c, cl, uri := x.client, s.clients[x.client], x.details.currentURI;
    var v := AttemptVersion(x.details.version, cl);
    if !HasLink(cl) && net.connectState == 0 && MoreToTry(uri, v, cl) {
      StillConnect(uri, v, cl);
      AddAlike(WithClient(Logged(s, [Attempt(c, uri, v)]), c, cl.(shouldBeConnected := true)),
               x.(details := NextOptions(uri, v, cl)), c);
    }
  }

  /** The client once a request has been sent, or its sending has failed. */
  lemma DispatchRequestClient(s: State, x: Command, net: Net)
    requires x.client in s.clients && Persistable(x.details)
    ensures
      var a, t := s.clients[x.client], DispatchRequest(s, x, net);
      && x.client in t.clients
      && Alike(if x.details.Publish? && x.details.qos == 0 then
                 match net.sent
                 case Written => a
                 case Interrupted => a.(responses := a.responses + [x], pendingWrite := Some(x))
                 case Broken => a.(pendingWrite := Some(x))
               else
                 a.(outbound := if x.details.Publish? then a.outbound + [x.token] else a.outbound,
                    responses := if net.sent.Broken? then a.responses else a.responses + [x]),
               t.clients[x.client])
  {
    hide DisconnectCall;
    var c := x.client;
    DisconnectAlike(WithClient(s, c, Sending(s.clients[c], x)), c, c);
  }

  lemma DispatchRequestLaw(s: State, x: Command, net: Net)
    requires x.client in s.clients && Persistable(x.details)
    ensures
      var t, c := DispatchRequest(s, x, net), x.client;
      c in t.clients && ClientLaw(s.clients[c], t.clients[c], DoProcess(net), Some(x), c)
  {
    hide DispatchRequest;
    DispatchRequestClient(s, x, net);
  }

  lemma DispatchDisconnectLaw(s: State, x: Command, net: Net)
    requires x.client in s.clients && x.details.Disconnect?
    ensures
      var t, c := DispatchDisconnect(s, x, net), x.client;
      c in t.clients && ClientLaw(s.clients[c], t.clients[c], DoProcess(net), Some(x), c)
  {
    hide CheckDisconnect;
    var c := x.client;
    CheckDisconnectClient(WithClient(s, c, s.clients[c].(connectState := -2)), x, net.elapsed);
  }

  lemma DispatchSparesOthers(s: State, x: Command, net: Net, c: ClientId)
    requires x.client in s.clients && c != x.client
    ensures StaysAlike(s, Dispatch(s, x, net), c)
  {
    hide Add, CheckDisconnect, DisconnectCall, NextOptions, MoreToTry, AttemptVersion;
    var d, cl := x.client, s.clients[x.client];
    match x.details {
      case Connect(uri, version) =>
        var v := AttemptVersion(version, cl);
        StillConnect(uri, v, cl);
        AddAlike(WithClient(Logged(s, [Attempt(d, uri, v)]), d, cl.(shouldBeConnected := true)),
                 x.(details := NextOptions(uri, v, cl)), c);
      case Disconnect(_) =>
        CheckDisconnectClient(WithClient(s, d, cl.(connectState := -2)), x, net.elapsed);
      case _ =>
        DisconnectAlike(WithClient(s, d, Sending(cl, x)), d, c);
    }
  }

  lemma SameConditions(a: Client, a1: Client, step: Step, x: Option<Command>, c: ClientId)
    requires Alike(a, a1)
    ensures Opens(a, step, c) == Opens(a1, step, c) && Fails(a, step, c) == Fails(a1, step, c)
    ensures HasLink(a) == HasLink(a1) && Leaves(a, step, x, c) == Leaves(a1, step, x, c)
    ensures EndsSession(a, step, x, c) == EndsSession(a1, step, x, c)
  {
  }

  lemma StillSession(a: Client, a1: Client, b: Client, step: Step, x: Option<Command>, c: ClientId)
    requires Alike(a, a1) && FlightLaw(a1, b, step, x, c) && WaitingLaw(a1, b, step, x, c)
    ensures FlightLaw(a, b, step, x, c) && WaitingLaw(a, b, step, x, c)
  {
    hide IdGone, AnswerGone, Waits, EndsSession;
    SameConditions(a, a1, step, x, c);
  }

  lemma StillRest(a: Client, a1: Client, b: Client, step: Step, x: Option<Command>, c: ClientId)
    requires Alike(a, a1) && CursorLaw(a1, b, step, x, c) && PendingLaw(a1, b, step, x, c)
    requires RetryLaw(a1, b, step, x, c) && SettingsLaw(a1, b, step, x, c)
    ensures CursorLaw(a, b, step, x, c) && PendingLaw(a, b, step, x, c)
    ensures RetryLaw(a, b, step, x, c) && SettingsLaw(a, b, step, x, c)
  {
    hide TriedVersion, Opens, EndsSession, HasLink;
    SameConditions(a, a1, step, x, c);
  }

  lemma StillLink(a: Client, a1: Client, b: Client, step: Step, x: Option<Command>, c: ClientId)
    requires Alike(a, a1) && LinkLaw(a1, b, step, x, c)
    ensures LinkLaw(a, b, step, x, c)
  {
    hide Opens, Fails, Leaves, HasLink;
    SameConditions(a, a1, step, x, c);
  }

  lemma StillLaw(a: Client, a1: Client, b: Client, step: Step, x: Option<Command>, c: ClientId)
    requires Alike(a, a1) && ClientLaw(a1, b, step, x, c)
    ensures ClientLaw(a, b, step, x, c)
  {
    hide LinkLaw, FlightLaw, WaitingLaw, CursorLaw, PendingLaw, RetryLaw, SettingsLaw, Alike;
    StillSession(a, a1, b, step, x, c);
    StillRest(a, a1, b, step, x, c);
    StillLink(a, a1, b, step, x, c);
  }

  lemma ProcessLaw(s: State, net: Net, c: ClientId)
    requires Inv(s) && c in s.clients
    ensures
      var t, step := Process(s, net), DoProcess(net);
      c in t.clients && ClientLaw(s.clients[c], t.clients[c], step, DispatchedOf(s, step, t, c), c)
  {
    TurnSends(s, net);
    var t, i, step := Process(s, net), FirstReady(s, net.idle, 0), DoProcess(net);
    hide Inv, FirstReady, ClientLaw, DispatchConnect, DispatchDisconnect, DispatchRequest, Process, Sends;
    hide FirstOfItsClient;
    if i < 0 {
      UntouchedLaw(s.clients[c], t.clients[c], step, c);
    } else {
      var s1, x := Dequeue(s, i), s.commands[i];
      assert x in s.commands && StaysAlike(s, s1, c);
      if x.client != c {
        DispatchSparesOthers(s1, x, net, c);
        hide Dispatch, Dequeue;
        UntouchedLaw(s.clients[c], t.clients[c], step, c);
      } else {
        match x.details {
          case Connect(_, _) => DispatchConnectLaw(s1, x, net);
          case Disconnect(_) => DispatchDisconnectLaw(s1, x, net);
          case _ => DispatchRequestLaw(s1, x, net);
        }
        hide Dispatch, Dequeue;
        StillLaw(s.clients[c], s1.clients[c], t.clients[c], step, Some(x), c);
      }
    }
  }

  // ----- all steps -----

  lemma {:induction false} RestoreKeysAlike(s: State, d: ClientId, keys: seq<nat>, c: ClientId)
    requires d in s.clients && forall k :: k in keys ==> k in s.clients[d].store
    ensures StaysAlike(s, RestoreKeys(s, d, keys), c)
  {
    hide Restore, RestorePoint;
    if keys != [] {
      RestoreKeysAlike(s, d, keys[..|keys| - 1], c);
    }
  }

  lemma CallsSpareOthers(s: State, step: Step, c: ClientId)
    requires Enabled(s, step) && !step.DoProcess? && step.c != c
    requires step.DoConnect? || step.DoReconnect? || step.DoDisconnect? || step.DoRequest?
    ensures StaysAlike(s, Apply(s, step), c)
  {
    hide AddNew, Diverges, FirstFree, TakenIds, Buffered, QosInRange;
    match step {
      case DoConnect(d, version, cleanSession, uriCount, onSuccess, onFailure) =>
        var s1 := WithClient(s, d, Configured(s.clients[d], version, cleanSession, uriCount, onSuccess, onFailure));
        AddNewAlike(s1, d, 0, onSuccess, onFailure, Connect(0, MQTTVERSION_DEFAULT), c);
      case DoReconnect(d) =>
        var cl := s.clients[d];
        AddNewAlike(s, d, 0, cl.connect.onSuccess, cl.connect.onFailure, SavedOptions(cl), c);
      case DoDisconnect(d, internal, onSuccess, onFailure) =>
        var s1 := if internal then s else WithClient(s, d, s.clients[d].(shouldBeConnected := false));
        AddNewAlike(s1, d, 0, onSuccess, onFailure, Disconnect(internal), c);
      case DoRequest(d, details, onSuccess, onFailure) =>
        var (s1, id) := if NeedsToken(details) then AssignMsgId(s, d) else (s, 0);
        AddNewAlike(s1, d, id, onSuccess, onFailure, details, c);
    }
  }

  lemma ConnackSparesOthers(s: State, d: ClientId, accepted: bool, c: ClientId)
    requires d in s.clients && d != c
    ensures StaysAlike(s, Connack(s, d, accepted), c)
  {
    hide NextOrClose, CleanSession;
    NextOrCloseClient(s, d, c);
    CleanSessionClient(WithClient(s, d, s.clients[d].(connected := true, connectState := 0)), d);
  }

  lemma SocketErrorSparesOthers(s: State, d: ClientId, c: ClientId)
    requires d in s.clients && d != c
    ensures StaysAlike(s, SocketError(s, d), c) && StaysAlike(s, NextOrClose(s, d), c)
  {
    hide NextOrClose, DisconnectCall;
    NextOrCloseClient(s, d, c);
    DisconnectAlike(s, d, c);
  }

  /** A step about one client changes no other. */
  lemma OthersAlike(s: State, step: Step, c: ClientId)
    requires Enabled(s, step) && !step.DoProcess? && step.c != c
    ensures StaysAlike(s, Apply(s, step), c)
  {
    hide SoundStore, Diverges, NeedsId, Restore, RestoreKeys, NextOrClose, CheckDisconnect;
    hide CleanSession, Request, ConnectCall, Reconnect, DisconnectCall, DropId, FindResponse, Without, WritePending;
    hide Connack, SocketError, Purged, FailureEvents, RemovalEvents;
    match step {
      case DoCreate(d, store, keys, outbound, buffering) =>
        RestoreKeysAlike(WithClient(s, d, FreshClient(true, store, outbound, buffering)), d, keys, c);
      case DoConnect(_, _, _, _, _, _) => CallsSpareOthers(s, step, c);
      case DoReconnect(_) => CallsSpareOthers(s, step, c);
      case DoDisconnect(_, _, _, _) => CallsSpareOthers(s, step, c);
      case DoRequest(_, _, _, _) => CallsSpareOthers(s, step, c);
      case DoConnack(d, accepted) => ConnackSparesOthers(s, d, accepted, c);
      case DoSocketError(d) => SocketErrorSparesOthers(s, d, c);
      case DoConnectTimeout(d) => SocketErrorSparesOthers(s, d, c);
      case DoDisconnectTimer(d, elapsed) => CheckDisconnectClient(s, s.clients[d].disconnect.value, elapsed);
      case _ =>
    }
  }

  lemma OwnLaw(s: State, step: Step, c: ClientId)
    requires Enabled(s, step) && c in s.clients && !step.DoProcess? && step.c == c && !step.DoDestroy?
    ensures c in Apply(s, step).clients && ClientLaw(s.clients[c], Apply(s, step).clients[c], step, None, c)
  {
    hide SoundStore, Diverges, NeedsId, NextOrClose, CheckDisconnect, Request, ConnectCall, DisconnectCall, Ack;
    hide WritePending, WriteComplete, Connack, SocketError, ClientLaw, Create, FreshClient, AddNew, Representable;
    match step {
      case DoConnect(_, version, cleanSession, uriCount, onSuccess, onFailure) =>
        ConnectCallLaw(s, c, version, cleanSession, uriCount, onSuccess, onFailure);
      case DoReconnect(_) => ReconnectLaw(s, c);
      case DoDisconnect(_, internal, onSuccess, onFailure) => DisconnectCallLaw(s, c, internal, onSuccess, onFailure);
      case DoRequest(_, details, onSuccess, onFailure) => RequestLaw(s, c, details, onSuccess, onFailure);
      case DoWriteComplete(_) => WriteCompleteLaw(s, c);
      case DoAck(_, id, refused, flowDone) => AckLaw(s, c, id, refused, flowDone);
      case DoConnack(_, accepted) => ConnackLaw(s, c, accepted);
      case DoSocketError(_) => SocketErrorLaw(s, c);
      case DoConnectTimeout(_) => FailedLaw(s, step, c);
      case DoDisconnectTimer(_, elapsed) => TimerLaw(s, s.clients[c].disconnect.value, elapsed);
    }
  }

  lemma ReconnectLaw(s: State, c: ClientId)
    requires c in s.clients
    ensures c in Reconnect(s, c).clients
    ensures ClientLaw(s.clients[c], Reconnect(s, c).clients[c], DoReconnect(c), None, c)
  {
    hide AddNew;
    var cl := s.clients[c];
    AddNewAlike(s, c, 0, cl.connect.onSuccess, cl.connect.onFailure, SavedOptions(cl), c);
  }

  /** Every step of every run does to every client what the law says, as long as the client exists. */
  lemma StepObeysLaw(s: State, step: Step, c: ClientId)
    requires Inv(s) && Enabled(s, step) && c in s.clients && !(step.DoDestroy? && step.c == c)
    ensures
      var t := Apply(s, step);
      c in t.clients && ClientLaw(s.clients[c], t.clients[c], step, DispatchedOf(s, step, t, c), c)
  {
    hide Inv, Enabled, Apply, ClientLaw;
    if step.DoProcess? {
      ProcessIs(s, step);
      ProcessLaw(s, step.net, c);
    } else if step.c == c {
      OwnLaw(s, step, c);
    } else {
      OthersAlike(s, step, c);
      UntouchedLaw(s.clients[c], Apply(s, step).clients[c], step, c);
    }
  }

  lemma ProcessIs(s: State, step: Step)
    requires Enabled(s, step) && step.DoProcess?
    ensures Apply(s, step) == Process(s, step.net)
  {
  }

  /** A client appears only when it is created and disappears only when it is destroyed. */
  lemma ClientsComeAndGo(s: State, step: Step, c: ClientId)
    requires Inv(s) && Enabled(s, step)
    ensures c in Apply(s, step).clients <==>
            if step.DoCreate? || step.DoCreateVolatile? then c in s.clients || step.c == c
            else c in s.clients && !(step.DoDestroy? && step.c == c)
    ensures (step.DoCreate? || step.DoCreateVolatile?) && step.c == c ==> c !in s.clients
  {
    hide Inv;
    if step.DoProcess? {
      ProcessBringsNobody(s, step.net, c);
    } else if step.c != c {
      hide Apply;
      OthersAlike(s, step, c);
    } else if c in s.clients && !step.DoDestroy? {
      hide Apply;
      OwnLaw(s, step, c);
    } else if !step.DoDestroy? {
      hide Apply;
      NewClientLaw(s, step);
    }
  }

  lemma ProcessBringsNobody(s: State, net: Net, c: ClientId)
    requires Inv(s)
    ensures c in Process(s, net).clients <==> c in s.clients
  {
    if c in s.clients {
      hide Inv, Process;
      ProcessLaw(s, net, c);
    } else {
      TurnSends(s, net);
      var i := FirstReady(s, net.idle, 0);
      hide Inv, FirstReady, Dispatch, Process, Sends, FirstOfItsClient;
      if i >= 0 {
        assert s.commands[i] in s.commands;
        DispatchSparesOthers(Dequeue(s, i), s.commands[i], net, c);
      }
    }
  }

  /** A new client: not connected, without options, answers or ids but those in flight from before. */
  lemma NewClientLaw(s: State, step: Step)
    requires Enabled(s, step) && (step.DoCreate? || step.DoCreateVolatile?)
    ensures
      var t, c := Apply(s, step), step.c;
      && c in t.clients
      && var b := t.clients[c];
         && !b.connected && b.connectState == 0 && !b.cleanSession && b.version == 0 && b.msgID == 0
         && b.responses == [] && b.disconnect == None && b.pendingWrite == None && b.uriCount == 0
         && !b.shouldBeConnected && b.connect == ConnectInfo(0, 0, 0, false) && b.buffering == step.buffering
         && b.persistent == step.DoCreate? && b.outbound == (if step.DoCreate? then step.outbound else [])
  {
    hide SoundStore, RestoreKeys;
    if step.DoCreate? {
      RestoreKeysAlike(WithClient(s, step.c, FreshClient(true, step.store, step.outbound, step.buffering)), step.c,
                       step.keys, step.c);
    }
  }
}
