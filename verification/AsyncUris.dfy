/** Server URI indices: when those a client keeps and queues stay within its array. */
module AsyncUris {
  import opened Bytes
  import opened CommandCodec
  import opened LinkedLists
  import opened AsyncState
  import opened AsyncInvariants

  /** The number of URIs; a client without a list has the one it was created with. */
  function Uris(cl: Client): nat {
    if cl.uriCount == 0 then 1 else cl.uriCount
  }

  predicate ConnectBeyond(a: Command, c: ClientId, n: nat) {
    a.client == c && a.details.Connect? && a.details.currentURI >= n
  }

  /** Neither the saved index of `c` nor that of a queued CONNECT of `c` leaves the array. */
  ghost predicate InRange(s: State, c: ClientId) {
    c in s.clients ==>
      && s.clients[c].connect.currentURI < Uris(s.clients[c])
      && forall a :: a in s.commands ==> !ConnectBeyond(a, c, Uris(s.clients[c]))
  }

  /** The condition on a connect call: a new list of URIs is long enough for the indices in use. */
  ghost predicate ListFits(s: State, step: Step, c: ClientId) {
    step.DoConnect? && step.c == c && c in s.clients && step.uriCount > 0 ==>
      && s.clients[c].connect.currentURI < step.uriCount
      && forall a :: a in s.commands ==> !ConnectBeyond(a, c, step.uriCount)
  }

  lemma NextIsInRange(uri: nat, v: int, cl: Client)
    requires MoreToTry(uri, v, cl) && uri < Uris(cl)
    ensures NextOptions(uri, v, cl).Connect? && NextOptions(uri, v, cl).currentURI < Uris(cl)
  {
  }

  // ----- the operations -----

  lemma UpdateInRange(s: State, d: ClientId, cl: Client, c: ClientId)
    requires InRange(s, c) && d in s.clients && cl.uriCount == s.clients[d].uriCount
    requires d == c ==> cl.connect.currentURI < Uris(cl)
    ensures InRange(WithClient(s, d, cl), c)
  {
  }

  lemma LogInRange(s: State, es: seq<Event>, c: ClientId)
    requires InRange(s, c)
    ensures InRange(Logged(s, es), c)
  {
  }

  lemma AddInRange(s: State, cmd: Command, c: ClientId)
    requires InRange(s, c) && cmd.client in s.clients && Representable(cmd.details)
    requires !ConnectBeyond(cmd, c, Uris(s.clients[cmd.client]))
    ensures InRange(Add(s, cmd), c)
  {
    hide Representable, Persistable, Layout, Add;
    if Add(s, cmd).commands == s.commands {
      AddNothing(s, cmd);
    } else {
      var x := AddShape(s, cmd);
      assert forall a :: a in Add(s, cmd).commands <==> a in s.commands || a == x;
    }
  }

  lemma AddNewInRange(s: State, d: ClientId, token: int32, onSuccess: nat, onFailure: bool, details: Details,
                      c: ClientId)
    requires InRange(s, c) && d in s.clients && Representable(details)
    requires d == c && details.Connect? ==> details.currentURI < Uris(s.clients[d])
    ensures InRange(AddNew(s, d, token, onSuccess, onFailure, details), c)
  {
    hide Representable, Add;
    AddInRange(s.(nextId := s.nextId + 1), New(s, d, token, onSuccess, onFailure, details), c);
  }

  lemma RemoveAllInRange(s: State, d: ClientId, c: ClientId)
    requires InRange(s, c) && d in s.clients
    ensures InRange(RemoveAll(s, d), c)
  {
    hide Purged, FailureEvents, RemovalEvents;
    PurgedMembers(s.commands, d);
  }

  lemma CleanSessionInRange(s: State, d: ClientId, c: ClientId)
    requires InRange(s, c) && d in s.clients
    ensures InRange(CleanSession(s, d), c) && d in CleanSession(s, d).clients
    ensures CleanSession(s, d).clients[d].uriCount == s.clients[d].uriCount
    ensures CleanSession(s, d).clients[d].connect == s.clients[d].connect
  {
    hide InRange, Purged, FailureEvents, RemovalEvents;
    CleanedInRange(s, d, c);
    RemoveAllInRange(WithClient(s, d, Cleaned(s.clients[d])), d, c);
  }

  lemma CleanedInRange(s: State, d: ClientId, c: ClientId)
    requires InRange(s, c) && d in s.clients
    ensures InRange(WithClient(s, d, Cleaned(s.clients[d])), c)
  {
    UpdateInRange(s, d, Cleaned(s.clients[d]), c);
  }

  lemma CloseSessionInRange(s: State, d: ClientId, c: ClientId)
    requires InRange(s, c) && d in s.clients
    ensures InRange(CloseSession(s, d), c) && d in CloseSession(s, d).clients
    ensures CloseSession(s, d).clients[d].uriCount == s.clients[d].uriCount
    ensures CloseSession(s, d).clients[d].connect == s.clients[d].connect
  {
    hide CleanSession;
    var s1 := CloseOnly(s, d);
    UpdateInRange(s, d, s1.clients[d], c);
    CleanSessionInRange(s1, d, c);
  }

  lemma DisconnectCallInRange(s: State, d: ClientId, internal: bool, onSuccess: nat, onFailure: bool, c: ClientId)
    requires InRange(s, c) && d in s.clients
    ensures InRange(DisconnectCall(s, d, internal, onSuccess, onFailure), c)
  {
    hide AddNew;
    var s1 := if internal then s else WithClient(s, d, s.clients[d].(shouldBeConnected := false));
    UpdateInRange(s, d, s1.clients[d], c);
    AddNewInRange(s1, d, 0, onSuccess, onFailure, Disconnect(internal), c);
  }

  lemma NextOrCloseInRange(s: State, d: ClientId, c: ClientId)
    requires InRange(s, c) && d in s.clients
    ensures InRange(NextOrClose(s, d), c)
  {
    hide AddNew, CloseSession, MoreToTry, NextOptions;
    var cl := s.clients[d];
    var info := cl.connect;
    if MoreToTry(info.currentURI, info.version, cl) {
      StillConnect(info.currentURI, info.version, cl);
      if d == c {
        NextIsInRange(info.currentURI, info.version, cl);
      }
      UpdateInRange(s, d, cl.(connected := false, connectState := 0), c);
      AddNewInRange(CloseOnly(s, d), d, 0, info.onSuccess, info.onFailure,
                    NextOptions(info.currentURI, info.version, cl), c);
    } else {
      CloseSessionInRange(s, d, c);
      LogInRange(CloseSession(s, d), if info.onFailure then [ConnectFailed(d)] else [], c);
    }
  }

  lemma DequeueInRange(s: State, i: nat, c: ClientId)
    requires InRange(s, c) && i < |s.commands| && s.commands[i].client in s.clients
    ensures InRange(Dequeue(s, i), c)
  {
    hide Without;
    forall a | a in Without(s.commands, i)
      ensures a in s.commands
    {
      WithoutHas(s.commands, i, a);
    }
  }

  lemma DispatchConnectInRange(s: State, x: Command, net: Net, c: ClientId)
    requires InRange(s, c) && x.client in s.clients && x.details.Connect?
    requires x.client == c ==> x.details.currentURI < Uris(s.clients[c])
    ensures InRange(DispatchConnect(s, x, net), c)
  {
    hide Add, MoreToTry, AttemptVersion, NextOptions, InRange, Uris;
    var d, cl, uri := x.client, s.clients[x.client], x.details.currentURI;
    var v := AttemptVersion(x.details.version, cl);
    var s1 := Logged(s, [Attempt(d, uri, v)]);
    LogInRange(s, [Attempt(d, uri, v)], c);
    SavedInRange(s, d, ConnectInfo(uri, x.details.version, x.onSuccess, x.onFailure), cl.connectState, c);
    SavedInRange(s1, d, ConnectInfo(uri, v, x.onSuccess, x.onFailure), net.connectState, c);
    var s2 := WithClient(s1, d, cl.(shouldBeConnected := true));
    FlagInRange(s1, d, c);
    LogInRange(s2, if x.onFailure then [ConnectFailed(d)] else [], c);
    if MoreToTry(uri, v, cl) {
      RequeueInRange(s2, x, uri, v, cl, c);
    }
  }

  lemma SavedInRange(s: State, d: ClientId, info: ConnectInfo, connectState: int, c: ClientId)
    requires InRange(s, c) && d in s.clients && (d == c ==> info.currentURI < Uris(s.clients[d]))
    ensures InRange(WithClient(s, d, s.clients[d].(connect := info, connectState := connectState)), c)
  {
    UpdateInRange(s, d, s.clients[d].(connect := info, connectState := connectState), c);
  }

  lemma FlagInRange(s: State, d: ClientId, c: ClientId)
    requires InRange(s, c) && d in s.clients
    ensures InRange(WithClient(s, d, s.clients[d].(shouldBeConnected := true)), c)
  {
    UpdateInRange(s, d, s.clients[d].(shouldBeConnected := true), c);
  }

  lemma RequeueInRange(s: State, x: Command, uri: nat, v: int, cl: Client, c: ClientId)
    requires InRange(s, c) && x.client in s.clients && MoreToTry(uri, v, cl)
    requires cl.uriCount == s.clients[x.client].uriCount && (x.client == c ==> uri < Uris(cl))
    ensures Representable(NextOptions(uri, v, cl)) && InRange(Add(s, x.(details := NextOptions(uri, v, cl))), c)
  {
    hide Add, NextOptions, MoreToTry;
    StillConnect(uri, v, cl);
    if x.client == c {
      NextIsInRange(uri, v, cl);
    }
    AddInRange(s, x.(details := NextOptions(uri, v, cl)), c);
  }

  lemma DispatchRequestInRange(s: State, x: Command, net: Net, c: ClientId)
    requires InRange(s, c) && x.client in s.clients && Persistable(x.details)
    ensures InRange(DispatchRequest(s, x, net), c)
  {
    hide DisconnectCall, InRange;
    var d, cl, cl1 := x.client, s.clients[x.client], Sending(s.clients[x.client], x);
    SendingInRange(s, x, c);
    DisconnectCallInRange(WithClient(s, d, cl1), d, true, 0, false, c);
    LogInRange(DisconnectCall(WithClient(s, d, cl1), d, true, 0, false), FailureCall(x), c);
    LogInRange(s, SuccessCall(x), c);
  }

  lemma SendingInRange(s: State, x: Command, c: ClientId)
    requires InRange(s, c) && x.client in s.clients
    ensures
      var d, cl := x.client, s.clients[x.client];
      && InRange(WithClient(s, d, Sending(cl, x)), c) && InRange(WithClient(s, d, cl.(pendingWrite := Some(x))), c)
      && InRange(WithClient(s, d, cl.(responses := cl.responses + [x], pendingWrite := Some(x))), c)
      && InRange(WithClient(s, d, Sending(cl, x).(responses := cl.responses + [x])), c)
  {
    var d, cl := x.client, s.clients[x.client];
    UpdateInRange(s, d, Sending(cl, x), c);
    UpdateInRange(s, d, cl.(pendingWrite := Some(x)), c);
    UpdateInRange(s, d, cl.(responses := cl.responses + [x], pendingWrite := Some(x)), c);
    UpdateInRange(s, d, Sending(cl, x).(responses := cl.responses + [x]), c);
  }

  lemma CheckDisconnectInRange(s: State, x: Command, elapsed: bool, c: ClientId)
    requires InRange(s, c) && x.client in s.clients && x.details.Disconnect?
    ensures InRange(CheckDisconnect(s, x, elapsed), c) && x.client in CheckDisconnect(s, x, elapsed).clients
    ensures CheckDisconnect(s, x, elapsed).clients[x.client].uriCount == s.clients[x.client].uriCount
    ensures CheckDisconnect(s, x, elapsed).clients[x.client].connect == s.clients[x.client].connect
  {
    hide CloseSession;
    CloseSessionInRange(s, x.client, c);
    LogInRange(CloseSession(s, x.client), if x.details.internal then [] else SuccessCall(x), c);
  }

  lemma DispatchDisconnectInRange(s: State, x: Command, net: Net, c: ClientId)
    requires InRange(s, c) && x.client in s.clients && x.details.Disconnect?
    ensures InRange(DispatchDisconnect(s, x, net), c)
  {
    hide CheckDisconnect;
    var d, cl := x.client, s.clients[x.client];
    var s0 := WithClient(s, d, cl.(connectState := -2));
    UpdateInRange(s, d, cl.(connectState := -2), c);
    CheckDisconnectInRange(s0, x, net.elapsed, c);
    var s1 := if cl.connectState != 0 || cl.connected then CheckDisconnect(s0, x, net.elapsed) else s;
    UpdateInRange(s1, d, s1.clients[d].(disconnect := Some(x)), c);
  }

  lemma ProcessInRange(s: State, net: Net, c: ClientId)
    requires InRange(s, c)
    ensures InRange(Process(s, net), c)
  {
    var i := FirstReady(s, net.idle, 0);
    if i >= 0 {
      var s1, x := Dequeue(s, i), s.commands[i];
      assert x in s.commands;
      assert x.client == c ==> s1.clients[c].uriCount == s.clients[c].uriCount;
      DequeueInRange(s, i, c);
      hide DispatchConnect, DispatchDisconnect, DispatchRequest, Dequeue;
      match x.details {
        case Connect(_, _) => DispatchConnectInRange(s1, x, net, c);
        case Disconnect(_) => DispatchDisconnectInRange(s1, x, net, c);
        case _ => DispatchRequestInRange(s1, x, net, c);
      }
    }
  }

  lemma RequestInRange(s: State, d: ClientId, details: Details, onSuccess: nat, onFailure: bool, c: ClientId)
    requires InRange(s, c) && d in s.clients && s.clients[d].msgID <= MAX_MSG_ID
    requires Persistable(details) && Representable(details)
    ensures InRange(Request(s, d, details, onSuccess, onFailure).0, c)
  {
    hide AddNew, Representable, FirstFree, QosInRange, TakenIds, Buffered, IdAfter;
    var (s1, id) := if NeedsToken(details) then AssignMsgId(s, d) else (s, 0);
    UpdateInRange(s, d, s1.clients[d], c);
    AddNewInRange(s1, d, id, onSuccess, onFailure, details, c);
  }

  lemma AckInRange(s: State, d: ClientId, id: int, refused: bool, flowDone: bool, c: ClientId)
    requires InRange(s, c) && d in s.clients
    ensures InRange(Ack(s, d, id, refused, flowDone), c)
  {
    hide Without;
  }

  lemma ConnackInRange(s: State, d: ClientId, accepted: bool, c: ClientId)
    requires InRange(s, c) && d in s.clients
    ensures InRange(Connack(s, d, accepted), c)
  {
    hide CleanSession, NextOrClose;
    var cl := s.clients[d];
    var s1 := WithClient(s, d, cl.(connected := true, connectState := 0));
    UpdateInRange(s, d, cl.(connected := true, connectState := 0), c);
    CleanSessionInRange(s1, d, c);
    var s2 := if cl.cleanSession then CleanSession(s1, d) else s1;
    var cl2 := s2.clients[d];
    UpdateInRange(s2, d, cl2.(connect := cl2.connect.(onSuccess := 0)), c);
    NextOrCloseInRange(s, d, c);
  }

  lemma SocketErrorInRange(s: State, d: ClientId, c: ClientId)
    requires InRange(s, c) && d in s.clients
    ensures InRange(SocketError(s, d), c)
  {
    hide DisconnectCall, NextOrClose;
    DisconnectCallInRange(s, d, true, 0, false, c);
    NextOrCloseInRange(s, d, c);
    UpdateInRange(s, d, s.clients[d].(connected := false, connectState := 0), c);
  }

  lemma RestoreOneInRange(s: State, d: ClientId, key: nat, c: ClientId)
    requires InRange(s, c) && d in s.clients && key in s.clients[d].store && SoundEntry(s.clients[d].store[key])
    ensures InRange(RestoreOne(s, d, key), c)
  {
    hide Restore, RestorePoint;
    var q, k := s.commands, RestorePoint(s.commands);
    assert q == q[..k] + q[k..];
  }

  lemma {:induction false} RestoreKeysInRange(s: State, d: ClientId, keys: seq<nat>, c: ClientId)
    requires InRange(s, c) && d in s.clients && SoundStore(s.clients[d].store)
    requires forall k :: k in keys ==> k in s.clients[d].store
    ensures InRange(RestoreKeys(s, d, keys), c)
  {
    hide InRange, RestoreOne, SoundEntry;
    if keys != [] {
      RestoreKeysInRange(s, d, keys[..|keys| - 1], c);
      RestoreOneInRange(RestoreKeys(s, d, keys[..|keys| - 1]), d, keys[|keys| - 1], c);
    }
  }

  lemma NewcomerInRange(s: State, d: ClientId, cl: Client, c: ClientId)
    requires Inv(s) && InRange(s, c) && d !in s.clients && cl.connect.currentURI == 0
    ensures InRange(WithClient(s, d, cl), c)
  {
    assert forall a :: a in s.commands ==> Sound(s, a);
  }

  lemma CreateInRange(s: State, d: ClientId, store: map<nat, seq<byte>>, keys: seq<nat>, outbound: seq<int>,
                      buffering: Option<Buffering>, c: ClientId)
    requires Inv(s) && InRange(s, c) && d !in s.clients && SoundStore(store) && forall k :: k in keys ==> k in store
    ensures InRange(Create(s, d, store, keys, outbound, buffering), c)
  {
    hide Inv, InRange, SoundStore, RestoreKeys;
    NewcomerInRange(s, d, FreshClient(true, store, outbound, buffering), c);
    RestoreKeysInRange(WithClient(s, d, FreshClient(true, store, outbound, buffering)), d, keys, c);
  }

  lemma DestroyInRange(s: State, d: ClientId, c: ClientId)
    requires InRange(s, c) && d in s.clients
    ensures InRange(Destroy(s, d), c)
  {
    hide RemoveAll;
    RemoveAllInRange(s, d, c);
  }

  lemma ReconnectInRange(s: State, d: ClientId, c: ClientId)
    requires InRange(s, c) && d in s.clients
    ensures InRange(Reconnect(s, d), c)
  {
    hide AddNew;
    var cl := s.clients[d];
    AddNewInRange(s, d, 0, cl.connect.onSuccess, cl.connect.onFailure, SavedOptions(cl), c);
  }

  /** A connect call keeps the indices in range exactly when its list fits. */
  lemma ConnectCallInRangeIff(s: State, d: ClientId, version: int, cleanSession: bool, uriCount: nat, onSuccess: nat,
                              onFailure: bool, c: ClientId)
    requires InRange(s, c) && d in s.clients
    ensures InRange(ConnectCall(s, d, version, cleanSession, uriCount, onSuccess, onFailure), c)
            <==> ListFits(s, DoConnect(d, version, cleanSession, uriCount, onSuccess, onFailure), c)
  {
    hide Add;
    var s1 := WithClient(s, d, Configured(s.clients[d], version, cleanSession, uriCount, onSuccess, onFailure));
    var s2 := s1.(nextId := s1.nextId + 1);
    var x := New(s1, d, 0, onSuccess, onFailure, Connect(0, MQTTVERSION_DEFAULT));
    AddedConnectStays(s2, x);
    if InRange(s1, c) {
      AddInRange(s2, x, c);
    }
  }

  lemma AddedConnectStays(s: State, x: Command)
    requires x.client in s.clients && x.details.Connect?
    ensures Add(s, x).clients == s.clients && forall a :: a in s.commands ==> a in Add(s, x).commands
  {
  }

  // ----- every step, every run -----

  /** A step keeps the indices in range exactly when the list it may bring fits. */
  lemma StepInRangeIff(s: State, step: Step, c: ClientId)
    requires Inv(s) && InRange(s, c) && Enabled(s, step)
    ensures InRange(Apply(s, step), c) <==> ListFits(s, step, c)
  {
    hide Inv, InRange, ListFits, SoundStore, Representable, Persistable, TakenIds, Diverges, NeedsId;
    hide Create, FreshClient, Destroy, ConnectCall, Reconnect, DisconnectCall, Request, Process, WriteComplete;
    hide Ack, Connack, SocketError, NextOrClose, CheckDisconnect;
    OtherStepsFit(s, step, c);
    match step {
      case DoCreate(d, store, keys, outbound, buffering) => CreateInRange(s, d, store, keys, outbound, buffering, c);
      case DoCreateVolatile(d, buffering) => FreshInRange(s, d, buffering, c);
      case DoDestroy(d) => DestroyInRange(s, d, c);
      case DoConnect(d, version, cleanSession, uriCount, onSuccess, onFailure) =>
        ConnectCallInRangeIff(s, d, version, cleanSession, uriCount, onSuccess, onFailure, c);
      case DoReconnect(d) => ReconnectInRange(s, d, c);
      case DoDisconnect(d, internal, onSuccess, onFailure) =>
        DisconnectCallInRange(s, d, internal, onSuccess, onFailure, c);
      case DoRequest(d, details, onSuccess, onFailure) => RequestInRange(s, d, details, onSuccess, onFailure, c);
      case DoProcess(net) => ProcessInRange(s, net, c);
      case DoWriteComplete(d) => WriteCompleteInRange(s, d, c);
      case DoAck(d, id, refused, flowDone) => AckInRange(s, d, id, refused, flowDone, c);
      case DoConnack(d, accepted) => ConnackInRange(s, d, accepted, c);
      case DoSocketError(d) => SocketErrorInRange(s, d, c);
      case DoConnectTimeout(d) => NextOrCloseInRange(s, d, c);
      case DoDisconnectTimer(d, elapsed) => CheckDisconnectInRange(s, s.clients[d].disconnect.value, elapsed, c);
    }
  }

  lemma OtherStepsFit(s: State, step: Step, c: ClientId)
    ensures !step.DoConnect? ==> ListFits(s, step, c)
  {
  }

  lemma FreshInRange(s: State, d: ClientId, buffering: Option<Buffering>, c: ClientId)
    requires Inv(s) && InRange(s, c) && d !in s.clients
    ensures InRange(WithClient(s, d, FreshClient(false, map[], [], buffering)), c)
  {
    NewcomerInRange(s, d, FreshClient(false, map[], [], buffering), c);
  }

  lemma WriteCompleteInRange(s: State, d: ClientId, c: ClientId)
    requires InRange(s, c) && d in s.clients && WritePending(s.clients[d])
    ensures InRange(WriteComplete(s, d), c)
  {
  }

  ghost predicate AlwaysInRange(trace: seq<State>, i: nat, c: ClientId)
    requires i < |trace|
  {
    forall j :: 0 <= j <= i ==> InRange(trace[j], c)
  }

  ghost predicate ListsFit(steps: seq<Step>, trace: seq<State>, i: nat, c: ClientId)
    requires i <= |steps| <= |trace|
  {
    forall j :: 0 <= j < i ==> ListFits(trace[j], steps[j], c)
  }

  /** In a run from the empty engine, no URI index of `c` ever leaves its array exactly when no connect
      call of `c` shortens the list below an index in use. */
  lemma {:induction false} UrisInRangeIff(steps: seq<Step>, trace: seq<State>, i: nat, c: ClientId)
    requires IsRun(Empty, steps, trace) && i < |trace|
    ensures AlwaysInRange(trace, i, c) <==> ListsFit(steps, trace, i, c)
  {
    hide InRange, ListFits, Enabled, Apply, Inv;
    if i == 0 {
      EmptyInRange(c);
    } else {
      UrisInRangeIff(steps, trace, i - 1, c);
      RunKeepsInv(steps, trace, i - 1);
      OneMoreState(steps, trace, i - 1, c);
      hide AlwaysInRange, ListsFit;
      if AlwaysInRange(trace, i - 1, c) {
        StepInRangeIff(trace[i - 1], steps[i - 1], c);
      }
    }
  }

  lemma OneMoreState(steps: seq<Step>, trace: seq<State>, i: nat, c: ClientId)
    requires i < |steps| && |trace| == |steps| + 1
    ensures AlwaysInRange(trace, i + 1, c) <==> AlwaysInRange(trace, i, c) && InRange(trace[i + 1], c)
    ensures AlwaysInRange(trace, i, c) ==> InRange(trace[i], c)
    ensures ListsFit(steps, trace, i + 1, c) <==> ListsFit(steps, trace, i, c) && ListFits(trace[i], steps[i], c)
  {
    hide InRange, ListFits;
  }

  lemma EmptyInRange(c: ClientId)
    ensures InRange(Empty, c)
  {
  }
}
