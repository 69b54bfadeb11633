/** What a step can do to the queue and the log: events are only appended, a command comes into the queue
    only by being added, and it is dropped only with its client's session. */
module AsyncGrowth {
  import opened Bytes
  import opened CommandCodec
  import opened LinkedLists
  import opened AsyncState
  import opened AsyncInvariants
  import opened AsyncDispatch
  import opened AsyncClients

  /** From `s` to `t` events were appended, `a` is queued only if it was or has been added since, and
      unless `drop` allows it `a` has not been dropped. */
  ghost predicate Goes(s: State, t: State, a: Command, drop: bool) {
    && s.log <= t.log
    && (a in t.commands ==> a in s.commands || Added(a) in t.log[|s.log|..])
    && (drop || (Dropped(a) in t.log ==> Dropped(a) in s.log))
  }

  lemma GoesThenGoes(s: State, t: State, u: State, a: Command, drop: bool)
    requires Goes(s, t, a, drop) && Goes(t, u, a, drop)
    ensures Goes(s, u, a, drop)
  {
    assert u.log == t.log + u.log[|t.log|..];
    assert u.log[|s.log|..] == t.log[|s.log|..] + u.log[|t.log|..];
  }

  /** Appending events about something else, and updating a client, is going on. */
  lemma LogGoes(s: State, es: seq<Event>, a: Command)
    requires Dropped(a) !in es
    ensures Goes(s, Logged(s, es), a, false)
  {
  }

  lemma AddGoes(s: State, cmd: Command, a: Command)
    requires cmd.client in s.clients && Representable(cmd.details)
    ensures Goes(s, Add(s, cmd), a, false)
  {
    hide Representable, Persistable, Layout, Add;
    if Add(s, cmd).commands == s.commands {
      AddNothing(s, cmd);
    } else {
      var x := AddShape(s, cmd);
      assert Add(s, cmd).log[|s.log|..] == [Added(x)];
    }
  }

  lemma AddNewGoes(s: State, d: ClientId, token: int32, onSuccess: nat, onFailure: bool, details: Details, a: Command)
    requires d in s.clients && Representable(details)
    ensures Goes(s, AddNew(s, d, token, onSuccess, onFailure, details), a, false)
  {
    hide Representable, Add;
    AddGoes(s.(nextId := s.nextId + 1), New(s, d, token, onSuccess, onFailure, details), a);
  }

  lemma {:induction false} NotDroppedHere(cmds: seq<Command>, q: seq<Command>, d: ClientId, a: Command)
    ensures Dropped(a) !in FailureEvents(cmds)
    ensures a.client != d ==> Dropped(a) !in RemovalEvents(q, d)
    decreases |cmds| + |q|
  {
    if cmds != [] {
      NotDroppedHere(cmds[..|cmds| - 1], [], d, a);
    }
    if q != [] {
      NotDroppedHere([], q[..|q| - 1], d, a);
    }
  }

  lemma CleanSessionGoes(s: State, d: ClientId, a: Command, drop: bool)
    requires d in s.clients && (drop || a.client != d)
    ensures Goes(s, CleanSession(s, d), a, drop)
  {
    hide FailureEvents, RemovalEvents, Purged;
    NotDroppedHere(s.clients[d].responses, s.commands, d, a);
    PurgedMembers(s.commands, d);
  }

  lemma CloseSessionGoes(s: State, d: ClientId, a: Command, drop: bool)
    requires d in s.clients && (drop || a.client != d || !s.clients[d].cleanSession)
    ensures Goes(s, CloseSession(s, d), a, drop)
  {
    hide CleanSession;
    if s.clients[d].cleanSession {
      CleanSessionGoes(CloseOnly(s, d), d, a, drop);
    }
  }

  lemma DisconnectCallGoes(s: State, d: ClientId, internal: bool, onSuccess: nat, onFailure: bool, a: Command)
    requires d in s.clients
    ensures Goes(s, DisconnectCall(s, d, internal, onSuccess, onFailure), a, false)
  {
    hide AddNew;
    var s1 := if internal then s else WithClient(s, d, s.clients[d].(shouldBeConnected := false));
    AddNewGoes(s1, d, 0, onSuccess, onFailure, Disconnect(internal), a);
  }

  lemma NextOrCloseGoes(s: State, d: ClientId, a: Command, drop: bool)
    requires d in s.clients
    requires drop || a.client != d || !(s.clients[d].cleanSession && NoneLeft(s.clients[d]))
    ensures Goes(s, NextOrClose(s, d), a, drop)
  {
    hide AddNew, CloseSession, NextOptions;
    var cl := s.clients[d];
    var info := cl.connect;
    if MoreToTry(info.currentURI, info.version, cl) {
      StillConnect(info.currentURI, info.version, cl);
      AddNewGoes(CloseOnly(s, d), d, 0, info.onSuccess, info.onFailure,
                 NextOptions(info.currentURI, info.version, cl), a);
    } else {
      CloseSessionGoes(s, d, a, drop);
      var es: seq<Event> := if info.onFailure then [ConnectFailed(d)] else [];
      LogGoes(CloseSession(s, d), es, a);
      GoesThenGoes(s, CloseSession(s, d), Logged(CloseSession(s, d), es), a, drop);
    }
  }

  lemma DequeueGoes(s: State, i: nat, a: Command)
    requires i < |s.commands| && s.commands[i].client in s.clients
    ensures Goes(s, Dequeue(s, i), a, false)
  {
    hide Without;
    WithoutHas(s.commands, i, a);
  }

  lemma DispatchConnectGoes(s: State, x: Command, net: Net, a: Command)
    requires x.client in s.clients && x.details.Connect?
    ensures Goes(s, DispatchConnect(s, x, net), a, false)
  {
    hide Add, MoreToTry, AttemptVersion, NextOptions, Goes;
    var d, cl, uri := x.client, s.clients[x.client], x.details.currentURI;
    var v := AttemptVersion(x.details.version, cl);
    var s1 := Logged(s, [Attempt(d, uri, v)]);
    var s2 := WithClient(s1, d, cl.(shouldBeConnected := true));
    StillConnect(uri, v, cl);
    if HasLink(cl) {
      UpdateGoes(s, d, DispatchConnect(s, x, net).clients[d], a);
    } else {
      LogGoes(s, [Attempt(d, uri, v)], a);
      UpdateGoes(s1, d, if net.connectState != 0 then DispatchConnect(s, x, net).clients[d] else s2.clients[d], a);
      AddGoes(s2, x.(details := NextOptions(uri, v, cl)), a);
      var es: seq<Event> := if x.onFailure then [ConnectFailed(d)] else [];
      LogGoes(s2, es, a);
      if net.connectState == 0 {
        GoesThenGoes(s, s1, s2, a, false);
        GoesThenGoes(s, s2, DispatchConnect(s, x, net), a, false);
      } else {
        GoesThenGoes(s, s1, DispatchConnect(s, x, net), a, false);
      }
    }
  }

  lemma UpdateGoes(s: State, d: ClientId, cl: Client, a: Command)
    ensures Goes(s, WithClient(s, d, cl), a, false)
  {
  }

  lemma DispatchRequestGoes(s: State, x: Command, net: Net, a: Command)
    requires x.client in s.clients && Persistable(x.details)
    ensures Goes(s, DispatchRequest(s, x, net), a, false)
  {
    hide DisconnectCall, Goes;
    var d, t := x.client, DispatchRequest(s, x, net);
    var s1 := WithClient(s, d, Sending(s.clients[d], x));
    if x.details.Publish? && x.details.qos == 0 {
      if net.sent.Written? {
        LogGoes(s, SuccessCall(x), a);
      } else {
        UpdateGoes(s, d, t.clients[d], a);
      }
    } else if net.sent.Broken? {
      UpdateGoes(s, d, Sending(s.clients[d], x), a);
      DisconnectCallGoes(s1, d, true, 0, false, a);
      var s2 := DisconnectCall(s1, d, true, 0, false);
      LogGoes(s2, FailureCall(x), a);
      GoesThenGoes(s, s1, s2, a, false);
      GoesThenGoes(s, s2, t, a, false);
    } else {
      UpdateGoes(s, d, t.clients[d], a);
    }
  }

  lemma CheckDisconnectGoes(s: State, x: Command, elapsed: bool, a: Command, drop: bool)
    requires x.client in s.clients && x.details.Disconnect?
    requires
      var cl := s.clients[x.client];
      drop || a.client != x.client || !cl.cleanSession || (cl.outbound != [] && !elapsed)
    ensures Goes(s, CheckDisconnect(s, x, elapsed), a, drop)
  {
    hide CloseSession;
    if s.clients[x.client].outbound == [] || elapsed {
      CloseSessionGoes(s, x.client, a, drop);
      LogGoes(CloseSession(s, x.client), if x.details.internal then [] else SuccessCall(x), a);
      GoesThenGoes(s, CloseSession(s, x.client), CheckDisconnect(s, x, elapsed), a, drop);
    }
  }

  lemma DispatchDisconnectGoes(s: State, x: Command, net: Net, a: Command, drop: bool)
    requires x.client in s.clients && x.details.Disconnect?
    requires drop || a.client != x.client || !EndsSession(s.clients[x.client], DoProcess(net), Some(x), x.client)
    ensures Goes(s, DispatchDisconnect(s, x, net), a, drop)
  {
    hide CheckDisconnect, Goes;
    var d, cl := x.client, s.clients[x.client];
    var s0 := WithClient(s, d, cl.(connectState := -2));
    if HasLink(cl) {
      UpdateGoes(s, d, cl.(connectState := -2), a);
      CheckDisconnectGoes(s0, x, net.elapsed, a, drop);
      CheckDisconnectClient(s0, x, net.elapsed);
      Weaken(s, s0, a, drop);
      GoesThenGoes(s, s0, CheckDisconnect(s0, x, net.elapsed), a, drop);
    }
    var s1 := if HasLink(cl) then CheckDisconnect(s0, x, net.elapsed) else s;
    UpdateGoes(s1, d, s1.clients[d].(disconnect := Some(x)), a);
    Weaken(s1, DispatchDisconnect(s, x, net), a, drop);
    if HasLink(cl) {
      GoesThenGoes(s, s1, DispatchDisconnect(s, x, net), a, drop);
    }
  }

  lemma Weaken(s: State, t: State, a: Command, drop: bool)
    requires Goes(s, t, a, false)
    ensures Goes(s, t, a, drop)
  {
  }

  /** May `a` be dropped by a step from `s`: is its client's session ended, or the client destroyed? */
  predicate MayDrop(s: State, step: Step, t: State, a: Command) {
    a.client in s.clients
    && ((step.DoDestroy? && step.c == a.client)
        || EndsSession(s.clients[a.client], step, DispatchedOf(s, step, t, a.client), a.client))
  }

  lemma ProcessGoes(s: State, net: Net, a: Command)
    requires Inv(s)
    ensures Goes(s, Process(s, net), a, MayDrop(s, DoProcess(net), Process(s, net), a))
  {
    TurnSends(s, net);
    var t, i, step := Process(s, net), FirstReady(s, net.idle, 0), DoProcess(net);
    hide Inv, FirstReady, DispatchConnect, DispatchDisconnect, DispatchRequest, Process, Sends, FirstOfItsClient;
    if i >= 0 {
      var s1, x, drop := Dequeue(s, i), s.commands[i], MayDrop(s, step, t, a);
      assert x in s.commands && StaysAlike(s, s1, x.client);
      SameConditions(s.clients[x.client], s1.clients[x.client], step, Some(x), x.client);
      DequeueGoes(s, i, a);
      Weaken(s, s1, a, drop);
      hide Goes, Dequeue, EndsSession;
      match x.details {
        case Connect(_, _) => DispatchConnectGoes(s1, x, net, a); Weaken(s1, t, a, drop);
        case Disconnect(_) => DispatchDisconnectGoes(s1, x, net, a, drop);
        case _ => DispatchRequestGoes(s1, x, net, a); Weaken(s1, t, a, drop);
      }
      GoesThenGoes(s, s1, t, a, drop);
    }
  }

  lemma RequestGoes(s: State, d: ClientId, details: Details, onSuccess: nat, onFailure: bool, a: Command)
    requires d in s.clients && s.clients[d].msgID <= MAX_MSG_ID && Persistable(details) && Representable(details)
    ensures Goes(s, Request(s, d, details, onSuccess, onFailure).0, a, false)
  {
    hide AddNew, Representable, FirstFree, QosInRange, TakenIds, Buffered, IdAfter, Refusal;
    var (s1, id) := if NeedsToken(details) then AssignMsgId(s, d) else (s, 0);
    AddNewGoes(s1, d, id, onSuccess, onFailure, details, a);
  }

  lemma AckGoes(s: State, d: ClientId, id: int, refused: bool, flowDone: bool, a: Command)
    requires d in s.clients
    ensures Goes(s, Ack(s, d, id, refused, flowDone), a, false)
  {
    hide Without, FindResponse, DropId;
  }

  lemma ConnackGoes(s: State, d: ClientId, accepted: bool, a: Command, drop: bool)
    requires d in s.clients
    requires drop || a.client != d || !EndsSession(s.clients[d], DoConnack(d, accepted), None, d)
    ensures Goes(s, Connack(s, d, accepted), a, drop)
  {
    hide CleanSession, NextOrClose;
    var cl := s.clients[d];
    if cl.connectState == 3 && accepted {
      if cl.cleanSession {
        var s1 := WithClient(s, d, cl.(connected := true, connectState := 0));
        CleanSessionGoes(s1, d, a, drop);
        CleanSessionClient(s1, d);
        var s2, t := CleanSession(s1, d), Connack(s, d, accepted);
        LogGoes(s2, t.log[|s2.log|..], a);
        GoesThenGoes(s, s2, t, a, drop);
      }
    } else {
      NextOrCloseGoes(s, d, a, drop);
    }
  }

  lemma SocketErrorGoes(s: State, d: ClientId, a: Command, drop: bool)
    requires d in s.clients
    requires drop || a.client != d || !EndsSession(s.clients[d], DoSocketError(d), None, d)
    ensures Goes(s, SocketError(s, d), a, drop)
  {
    hide DisconnectCall, NextOrClose;
    DisconnectCallGoes(s, d, true, 0, false, a);
    if !s.clients[d].connected && s.clients[d].connectState != 0 {
      NextOrCloseGoes(s, d, a, drop);
    }
  }

  lemma RestoreOneGoes(s: State, d: ClientId, key: nat, a: Command)
    requires d in s.clients && key in s.clients[d].store
    ensures Goes(s, RestoreOne(s, d, key), a, false)
  {
    hide Restore, RestorePoint;
    var q, k, t := s.commands, RestorePoint(s.commands), RestoreOne(s, d, key);
    assert q == q[..k] + q[k..];
    if t.log != s.log {
      assert t.log[|s.log|..] == [t.log[|s.log|]];
    }
  }

  lemma {:induction false} RestoreKeysGoes(s: State, d: ClientId, keys: seq<nat>, a: Command)
    requires d in s.clients && forall k :: k in keys ==> k in s.clients[d].store
    ensures Goes(s, RestoreKeys(s, d, keys), a, false)
  {
    hide RestoreOne, Goes;
    if keys == [] {
      UpdateGoes(s, d, s.clients[d], a);
      assert WithClient(s, d, s.clients[d]) == s;
    } else {
      var front := keys[..|keys| - 1];
      RestoreKeysGoes(s, d, front, a);
      RestoreOneGoes(RestoreKeys(s, d, front), d, keys[|keys| - 1], a);
      GoesThenGoes(s, RestoreKeys(s, d, front), RestoreKeys(s, d, keys), a, false);
    }
  }

  lemma CreateGoes(s: State, d: ClientId, store: map<nat, seq<byte>>, keys: seq<nat>, outbound: seq<int>,
                   buffering: Option<Buffering>, a: Command)
    requires forall k :: k in keys ==> k in store
    ensures Goes(s, Create(s, d, store, keys, outbound, buffering), a, false)
  {
    hide RestoreKeys, Goes;
    var cl := FreshClient(true, store, outbound, buffering);
    UpdateGoes(s, d, cl, a);
    RestoreKeysGoes(WithClient(s, d, cl), d, keys, a);
    GoesThenGoes(s, WithClient(s, d, cl), Create(s, d, store, keys, outbound, buffering), a, false);
  }

  lemma DestroyGoes(s: State, d: ClientId, a: Command, drop: bool)
    requires d in s.clients && (drop || a.client != d)
    ensures Goes(s, Destroy(s, d), a, drop)
  {
    hide FailureEvents, RemovalEvents, Purged;
    NotDroppedHere(s.clients[d].responses, s.commands, d, a);
    PurgedMembers(s.commands, d);
  }

  lemma ConnectCallGoes(s: State, d: ClientId, version: int, cleanSession: bool, uriCount: nat, onSuccess: nat,
                        onFailure: bool, a: Command)
    requires d in s.clients
    ensures Goes(s, ConnectCall(s, d, version, cleanSession, uriCount, onSuccess, onFailure), a, false)
  {
    hide AddNew;
    var s1 := WithClient(s, d, Configured(s.clients[d], version, cleanSession, uriCount, onSuccess, onFailure));
    AddNewGoes(s1, d, 0, onSuccess, onFailure, Connect(0, MQTTVERSION_DEFAULT), a);
  }

  lemma ReconnectGoes(s: State, d: ClientId, a: Command)
    requires d in s.clients
    ensures Goes(s, Reconnect(s, d), a, false)
  {
    hide AddNew;
    var cl := s.clients[d];
    AddNewGoes(s, d, 0, cl.connect.onSuccess, cl.connect.onFailure, SavedOptions(cl), a);
  }

  /** The steps that drop nothing. */
  lemma CallsGo(s: State, step: Step, a: Command)
    requires Enabled(s, step)
    requires !step.DoDestroy? && !step.DoProcess? && !step.DoConnack? && !step.DoSocketError?
    requires !step.DoConnectTimeout? && !step.DoDisconnectTimer?
    ensures Goes(s, Apply(s, step), a, false)
  {
    hide SoundStore, Representable, Persistable, TakenIds, Diverges, NeedsId, Goes, FreshClient, ConnectCall;
    hide Reconnect, DisconnectCall, Request, Ack, RestoreKeys;
    match step {
      case DoCreate(d, store, keys, outbound, buffering) => CreateGoes(s, d, store, keys, outbound, buffering, a);
      case DoCreateVolatile(d, buffering) => UpdateGoes(s, d, FreshClient(false, map[], [], buffering), a);
      case DoConnect(d, version, cleanSession, uriCount, onSuccess, onFailure) =>
        ConnectCallGoes(s, d, version, cleanSession, uriCount, onSuccess, onFailure, a);
      case DoReconnect(d) => ReconnectGoes(s, d, a);
      case DoDisconnect(d, internal, onSuccess, onFailure) =>
        DisconnectCallGoes(s, d, internal, onSuccess, onFailure, a);
      case DoRequest(d, details, onSuccess, onFailure) => RequestGoes(s, d, details, onSuccess, onFailure, a);
      case DoWriteComplete(d) => CompletionGoes(s, d, a);
      case DoAck(d, id, refused, flowDone) => AckGoes(s, d, id, refused, flowDone, a);
    }
  }

  lemma CompletionGoes(s: State, d: ClientId, a: Command)
    requires d in s.clients && WritePending(s.clients[d])
    ensures Goes(s, WriteComplete(s, d), a, false)
  {
  }

  /** Every step appends to the log, queues only what it adds, and drops commands of a client only when
      that client's session ends or the client is destroyed. */
  lemma StepGoes(s: State, step: Step, a: Command)
    requires Inv(s) && Enabled(s, step)
    ensures Goes(s, Apply(s, step), a, MayDrop(s, step, Apply(s, step), a))
  {
    hide Inv, Goes, SoundStore, Diverges, NeedsId, Destroy, Process, Connack, SocketError, NextOrClose, CheckDisconnect;
    var t := Apply(s, step);
    var drop := MayDrop(s, step, t, a);
    match step {
      case DoDestroy(d) => DestroyGoes(s, d, a, drop);
      case DoProcess(net) => ProcessGoes(s, net, a);
      case DoConnack(d, accepted) => ConnackGoes(s, d, accepted, a, drop);
      case DoSocketError(d) => SocketErrorGoes(s, d, a, drop);
      case DoConnectTimeout(d) => NextOrCloseGoes(s, d, a, drop);
      case DoDisconnectTimer(d, elapsed) => CheckDisconnectGoes(s, s.clients[d].disconnect.value, elapsed, a, drop);
      case _ => CallsGo(s, step, a); Weaken(s, t, a, drop);
    }
  }
}
