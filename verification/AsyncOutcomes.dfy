/** Which callback is called: success means an acknowledgement with the request's own id, failure
    a refusal, a broken write or the end of the session. */
module AsyncOutcomes {
  import opened Bytes
  import opened CommandCodec
  import opened LinkedLists
  import opened AsyncState
  import opened AsyncInvariants
  import opened AsyncBalance
  import opened AsyncAnswers

  // ----- the causes -----

  /** The acknowledgement of `a`. */
  predicate Acknowledges(s: State, step: Step, a: Command, refused: bool) {
    && step.DoAck? && step.c == a.client && step.id == a.token as int && step.refused == refused
    && Waiting(s, a)
  }

  /** The dispatch of `a` with a broken write. */
  predicate BreaksWrite(s: State, step: Step, a: Command) {
    step.DoProcess? && step.net.sent.Broken? &&
    var i := FirstReady(s, step.net.idle, 0);
    i >= 0 && s.commands[i] == a
  }

  /** Client `c` has nothing queued and nothing waiting. */
  ghost predicate Wiped(s: State, c: ClientId) {
    (forall x :: x in s.commands ==> x.client != c) && Responses(s, c) == []
  }

  /** From `s` to `t` the commands and responses of the client of `a` have been removed. */
  ghost predicate Removed(s: State, t: State, a: Command) {
    (Queued(s, a) || Waiting(s, a)) && Wiped(t, a.client)
  }

  // ----- steps that call nobody, or only those they remove -----

  predicate Silent(s: State, t: State, a: Command) {
    && (SuccessCalled(a) in t.log <==> SuccessCalled(a) in s.log)
    && (FailureCalled(a) in t.log <==> FailureCalled(a) in s.log)
  }

  ghost predicate Ends(s: State, t: State, a: Command) {
    && (SuccessCalled(a) in t.log <==> SuccessCalled(a) in s.log)
    && (FailureCalled(a) in s.log ==> FailureCalled(a) in t.log)
    && (FailureCalled(a) in t.log && FailureCalled(a) !in s.log ==> Removed(s, t, a))
  }

  lemma LogSilent(s: State, es: seq<Event>, a: Command)
    requires forall e :: e in es ==> e != SuccessCalled(a) && e != FailureCalled(a)
    ensures Silent(s, Logged(s, es), a)
  {
  }

  lemma AddSilent(s: State, cmd: Command, a: Command)
    requires cmd.client in s.clients && Representable(cmd.details)
    ensures Silent(s, Add(s, cmd), a)
  {
    hide Representable, Persistable, Layout, Add;
    if Add(s, cmd).commands == s.commands {
      AddNothing(s, cmd);
    } else {
      var x := AddShape(s, cmd);
    }
  }

  lemma AddNewSilent(s: State, d: ClientId, token: int32, onSuccess: nat, onFailure: bool, details: Details, a: Command)
    requires d in s.clients && Representable(details)
    ensures Silent(s, AddNew(s, d, token, onSuccess, onFailure, details), a)
  {
    hide Representable, Add;
    AddSilent(s.(nextId := s.nextId + 1), New(s, d, token, onSuccess, onFailure, details), a);
  }

  lemma {:induction false} FailuresAreTheirs(cmds: seq<Command>, a: Command)
    ensures SuccessCalled(a) !in FailureEvents(cmds)
    ensures FailureCalled(a) in FailureEvents(cmds) ==> a in cmds
  {
    if cmds != [] {
      FailuresAreTheirs(cmds[..|cmds| - 1], a);
    }
  }

  lemma {:induction false} RemovalsAreTheirs(q: seq<Command>, d: ClientId, a: Command)
    ensures SuccessCalled(a) !in RemovalEvents(q, d)
    ensures FailureCalled(a) in RemovalEvents(q, d) ==> a in q && a.client == d
  {
    if q != [] {
      RemovalsAreTheirs(q[..|q| - 1], d, a);
    }
  }

  lemma RemoveAllEnds(s: State, d: ClientId, a: Command)
    requires d in s.clients && forall r :: r in s.clients[d].responses ==> r.client == d
    ensures Ends(s, RemoveAll(s, d), a) && Wiped(RemoveAll(s, d), d)
  {
    hide Purged, FailureEvents, RemovalEvents;
    FailuresAreTheirs(s.clients[d].responses, a);
    RemovalsAreTheirs(s.commands, d, a);
    PurgedMembers(s.commands, d);
  }

  lemma CleanSessionEnds(s: State, d: ClientId, a: Command)
    requires d in s.clients && forall r :: r in s.clients[d].responses ==> r.client == d
    ensures Ends(s, CleanSession(s, d), a) && d in CleanSession(s, d).clients
    ensures Wiped(CleanSession(s, d), d)
  {
    hide RemoveAll;
    var s1 := WithClient(s, d, Cleaned(s.clients[d]));
    assert Responses(s1, a.client) == Responses(s, a.client);
    RemoveAllEnds(s1, d, a);
    RemoveAllClients(s1, d);
  }

  lemma RemoveAllClients(s: State, d: ClientId)
    requires d in s.clients
    ensures RemoveAll(s, d).clients.Keys == s.clients.Keys
  {
  }

  lemma CloseSessionEnds(s: State, d: ClientId, a: Command)
    requires d in s.clients && forall r :: r in s.clients[d].responses ==> r.client == d
    ensures Ends(s, CloseSession(s, d), a) && d in CloseSession(s, d).clients
  {
    hide CleanSession;
    var s1 := CloseOnly(s, d);
    assert Responses(s1, a.client) == Responses(s, a.client);
    CleanSessionEnds(s1, d, a);
  }

  lemma DisconnectCallSilent(s: State, d: ClientId, internal: bool, onSuccess: nat, onFailure: bool, a: Command)
    requires d in s.clients
    ensures Silent(s, DisconnectCall(s, d, internal, onSuccess, onFailure), a)
  {
    hide AddNew;
    var s1 := if internal then s else WithClient(s, d, s.clients[d].(shouldBeConnected := false));
    AddNewSilent(s1, d, 0, onSuccess, onFailure, Disconnect(internal), a);
  }

  /** A last event, about nobody in particular, does not matter. */
  lemma EndsThenLogs(s: State, t: State, es: seq<Event>, a: Command)
    requires Ends(s, t, a) && forall e :: e in es ==> e != SuccessCalled(a) && e != FailureCalled(a)
    ensures Ends(s, Logged(t, es), a)
  {
    LogSilent(t, es, a);
    assert Responses(Logged(t, es), a.client) == Responses(t, a.client);
  }

  lemma NextOrCloseEnds(s: State, d: ClientId, a: Command)
    requires d in s.clients && forall r :: r in s.clients[d].responses ==> r.client == d
    ensures Ends(s, NextOrClose(s, d), a)
  {
    hide AddNew, CloseSession, MoreToTry, NextOptions, Wiped;
    var cl := s.clients[d];
    var info := cl.connect;
    if MoreToTry(info.currentURI, info.version, cl) {
      StillConnect(info.currentURI, info.version, cl);
      AddNewSilent(CloseOnly(s, d), d, 0, info.onSuccess, info.onFailure,
                   NextOptions(info.currentURI, info.version, cl), a);
    } else {
      CloseSessionEnds(s, d, a);
      EndsThenLogs(s, CloseSession(s, d), if info.onFailure then [ConnectFailed(d)] else [], a);
    }
  }

  lemma DispatchConnectSilent(s: State, x: Command, net: Net, a: Command)
    requires x.client in s.clients && x.details.Connect?
    ensures Silent(s, DispatchConnect(s, x, net), a)
  {
    hide Add, MoreToTry, AttemptVersion, NextOptions;
    var d, cl, uri := x.client, s.clients[x.client], x.details.currentURI;
    var v := AttemptVersion(x.details.version, cl);
    var s1 := Logged(s, [Attempt(d, uri, v)]);
    LogSilent(s, [Attempt(d, uri, v)], a);
    var s2 := WithClient(s1, d, cl.(shouldBeConnected := true));
    StillConnect(uri, v, cl);
    AddSilent(s2, x.(details := NextOptions(uri, v, cl)), a);
    LogSilent(s2, if x.onFailure then [ConnectFailed(d)] else [], a);
  }

  /** Sending a request calls nobody but the request itself, and that only when its write breaks. */
  lemma DispatchRequestOutcome(s: State, x: Command, net: Net, a: Command)
    requires x.client in s.clients && Persistable(x.details) && NeedsToken(a.details)
    ensures
      var t := DispatchRequest(s, x, net);
      && (SuccessCalled(a) in t.log <==> SuccessCalled(a) in s.log)
      && (FailureCalled(a) in t.log ==> FailureCalled(a) in s.log || (x == a && net.sent.Broken?))
      && (FailureCalled(a) in s.log ==> FailureCalled(a) in t.log)
  {
    hide DisconnectCall;
    var s1 := WithClient(s, x.client, Sending(s.clients[x.client], x));
    DisconnectCallSilent(s1, x.client, true, 0, false, a);
  }

  lemma CheckDisconnectEnds(s: State, x: Command, elapsed: bool, a: Command)
    requires x.client in s.clients && x.details.Disconnect? && NeedsToken(a.details)
    requires forall r :: r in s.clients[x.client].responses ==> r.client == x.client
    ensures Ends(s, CheckDisconnect(s, x, elapsed), a) && x.client in CheckDisconnect(s, x, elapsed).clients
  {
    hide CloseSession, Wiped;
    CloseSessionEnds(s, x.client, a);
    EndsThenLogs(s, CloseSession(s, x.client), if x.details.internal then [] else SuccessCall(x), a);
  }

  /** Updates that leave queue, responses and log alone. */
  lemma EndsThenUpdates(s: State, t: State, d: ClientId, cl: Client, a: Command)
    requires Ends(s, t, a) && d in t.clients && cl.responses == t.clients[d].responses
    ensures Ends(s, WithClient(t, d, cl), a)
  {
    assert Responses(WithClient(t, d, cl), a.client) == Responses(t, a.client);
  }

  lemma UpdatesThenEnds(s: State, d: ClientId, cl: Client, t: State, a: Command)
    requires d in s.clients && cl.responses == s.clients[d].responses && Ends(WithClient(s, d, cl), t, a)
    ensures Ends(s, t, a)
  {
    assert Responses(WithClient(s, d, cl), a.client) == Responses(s, a.client);
  }

  lemma DispatchDisconnectEnds(s: State, x: Command, net: Net, a: Command)
    requires x.client in s.clients && x.details.Disconnect? && NeedsToken(a.details)
    requires forall r :: r in s.clients[x.client].responses ==> r.client == x.client
    ensures Ends(s, DispatchDisconnect(s, x, net), a)
  {
    hide CheckDisconnect, Wiped;
    var d, cl := x.client, s.clients[x.client];
    var cl0 := cl.(connectState := -2);
    CheckDisconnectEnds(WithClient(s, d, cl0), x, net.elapsed, a);
    var s1 :=
      if cl.connectState != 0 || cl.connected then CheckDisconnect(WithClient(s, d, cl0), x, net.elapsed) else s;
    if cl.connectState != 0 || cl.connected {
      UpdatesThenEnds(s, d, cl0, s1, a);
    }
    EndsThenUpdates(s, s1, d, s1.clients[d].(disconnect := Some(x)), a);
  }

  lemma RequestSilent(s: State, d: ClientId, details: Details, onSuccess: nat, onFailure: bool, a: Command)
    requires d in s.clients && s.clients[d].msgID <= MAX_MSG_ID
    requires Persistable(details) && Representable(details)
    ensures Silent(s, Request(s, d, details, onSuccess, onFailure).0, a)
  {
    hide AddNew, Representable, FirstFree, QosInRange, TakenIds, Buffered, IdAfter;
    var (s1, id) := if NeedsToken(details) then AssignMsgId(s, d) else (s, 0);
    AddNewSilent(s1, d, id, onSuccess, onFailure, details, a);
  }

  lemma ConnackEnds(s: State, d: ClientId, accepted: bool, a: Command)
    requires d in s.clients && forall r :: r in s.clients[d].responses ==> r.client == d
    ensures Ends(s, Connack(s, d, accepted), a)
  {
    hide CleanSession, NextOrClose, Wiped;
    var cl := s.clients[d];
    if cl.connectState == 3 && accepted {
      var cl1 := cl.(connected := true, connectState := 0);
      var s1 := WithClient(s, d, cl1);
      var s2 := if cl.cleanSession then CleanSession(s1, d) else s1;
      CleanSessionEnds(s1, d, a);
      UpdatesThenEnds(s, d, cl1, s2, a);
      var cl2 := s2.clients[d];
      var cl3 := cl2.(connect := cl2.connect.(onSuccess := 0));
      EndsThenUpdates(s, s2, d, cl3, a);
      EndsThenLogs(s, WithClient(s2, d, cl3), if cl.connect.onSuccess != 0 then [ConnectSucceeded(d)] else [], a);
    } else {
      NextOrCloseEnds(s, d, a);
    }
  }

  lemma SocketErrorEnds(s: State, d: ClientId, a: Command)
    requires d in s.clients && forall r :: r in s.clients[d].responses ==> r.client == d
    ensures Ends(s, SocketError(s, d), a)
  {
    hide DisconnectCall, NextOrClose, Wiped;
    DisconnectCallSilent(s, d, true, 0, false, a);
    NextOrCloseEnds(s, d, a);
  }

  lemma {:induction false} RestoreKeysSilent(s: State, d: ClientId, keys: seq<nat>, a: Command)
    requires d in s.clients && forall k :: k in keys ==> k in s.clients[d].store
    ensures Silent(s, RestoreKeys(s, d, keys), a)
  {
    hide Restore, RestorePoint;
    if keys != [] {
      RestoreKeysSilent(s, d, keys[..|keys| - 1], a);
    }
  }

  lemma DestroyEnds(s: State, d: ClientId, a: Command)
    requires d in s.clients && forall r :: r in s.clients[d].responses ==> r.client == d
    ensures Ends(s, Destroy(s, d), a)
  {
    hide RemoveAll;
    RemoveAllEnds(s, d, a);
  }

  // ----- what a step calls -----

  /** What a step does to the calls about `a`. */
  ghost predicate Outcome(s: State, step: Step, t: State, a: Command) {
    && (SuccessCalled(a) in t.log <==>
          SuccessCalled(a) in s.log || (a.onSuccess != 0 && Acknowledges(s, step, a, false)))
    && (FailureCalled(a) in t.log ==>
          || FailureCalled(a) in s.log || Acknowledges(s, step, a, true)
          || BreaksWrite(s, step, a) || Removed(s, t, a))
  }

  lemma EndsAreOutcomes(s: State, step: Step, t: State, a: Command)
    requires !step.DoAck? && (Ends(s, t, a) || Silent(s, t, a))
    ensures Outcome(s, step, t, a)
  {
    hide Removed, BreaksWrite;
  }

  lemma ProcessOutcome(s: State, net: Net, a: Command)
    requires Inv(s) && NeedsToken(a.details)
    ensures Outcome(s, DoProcess(net), Process(s, net), a)
  {
    hide DispatchConnect, DispatchDisconnect, DispatchRequest, FirstReady, Outcome, Wiped;
    var i := FirstReady(s, net.idle, 0);
    if i < 0 {
      EndsAreOutcomes(s, DoProcess(net), s, a);
    } else {
      DequeueFacts(s, i, a);
      var s1, x := Dequeue(s, i), s.commands[i];
      hide Inv, Dequeue;
      match x.details {
        case Connect(_, _) =>
          DispatchConnectSilent(s1, x, net, a);
          EndsAreOutcomes(s, DoProcess(net), Process(s, net), a);
        case Disconnect(_) =>
          DispatchDisconnectEnds(s1, x, net, a);
          EndsAreOutcomes(s, DoProcess(net), Process(s, net), a);
        case _ =>
          DispatchRequestOutcome(s1, x, net, a);
          SentOutcome(s, net, i, DispatchRequest(s1, x, net), a);
      }
    }
  }

  lemma DequeueFacts(s: State, i: nat, a: Command)
    requires Inv(s) && i < |s.commands|
    ensures s.commands[i].client in s.clients
    ensures
      var s1, d := Dequeue(s, i), s.commands[i].client;
      && d in s1.clients && Silent(s, s1, a) && (forall r :: r in s1.clients[d].responses ==> r.client == d)
      && (Queued(s1, a) || Waiting(s1, a) ==> Queued(s, a) || Waiting(s, a))
  {
    var x := s.commands[i];
    assert x in s.commands && Sound(s, x);
    ResponsesAreOwn(s);
    hide Inv, Without;
    WithoutHas(s.commands, i, a);
    assert Responses(Dequeue(s, i), a.client) == Responses(s, a.client);
  }

  lemma SentOutcome(s: State, net: Net, i: nat, t: State, a: Command)
    requires i == FirstReady(s, net.idle, 0) && i < |s.commands|
    requires SuccessCalled(a) in t.log <==> SuccessCalled(a) in s.log
    requires FailureCalled(a) in t.log ==> FailureCalled(a) in s.log || (s.commands[i] == a && net.sent.Broken?)
    ensures Outcome(s, DoProcess(net), t, a)
  {
    hide FirstReady, Removed;
  }

  lemma AckOutcome(s: State, d: ClientId, id: int, refused: bool, flowDone: bool, a: Command)
    requires Inv(s) && d in s.clients && NeedsToken(a.details)
    ensures Outcome(s, DoAck(d, id, refused, flowDone), Ack(s, d, id, refused, flowDone), a)
  {
    var rs, i := s.clients[d].responses, FindResponse(s.clients[d].responses, id);
    AckFinds(s, d, id, a);
    hide Inv, Removed, Without, FindResponse;
  }

  /** The search of an acknowledgement finds `a` exactly when it has the id of `a`. */
  lemma AckFinds(s: State, d: ClientId, id: int, a: Command)
    requires Inv(s) && d in s.clients && NeedsToken(a.details)
    ensures
      var rs, i := s.clients[d].responses, FindResponse(s.clients[d].responses, id);
      i >= 0 && rs[i] == a <==> d == a.client && id == a.token as int && Waiting(s, a)
  {
    assert ResponsesInv(s.clients[d], d);
    hide Inv;
    var rs, i := s.clients[d].responses, FindResponse(s.clients[d].responses, id);
    if i >= 0 && rs[i] == a {
      assert rs[i] in rs;
    }
    if d == a.client && id == a.token as int && Waiting(s, a) {
      var k :| 0 <= k < |rs| && rs[k] == a;
      assert a in rs && a.token != 0;
    }
  }

  lemma WriteCompleteSilent(s: State, d: ClientId, a: Command)
    requires Inv(s) && d in s.clients && WritePending(s.clients[d]) && NeedsToken(a.details)
    ensures Silent(s, WriteComplete(s, d), a)
  {
    PendingIsQos0(s, a);
    hide Inv, NeedsToken;
    assert PendingOf(s, d) != Some(a);
  }

  lemma StepOutcome(s: State, step: Step, a: Command)
    requires Inv(s) && Enabled(s, step) && NeedsToken(a.details)
    ensures Outcome(s, step, Apply(s, step), a)
  {
    hide Inv, Outcome, Ends, Silent, NeedsToken, SoundStore, Representable, Persistable, TakenIds, Diverges, NeedsId;
    if step.DoProcess? {
      ProcessOutcome(s, step.net, a);
    } else if step.DoAck? {
      AckOutcome(s, step.c, step.id, step.refused, step.flowDone, a);
    } else {
      OtherStepOutcome(s, step, a);
      EndsAreOutcomes(s, step, Apply(s, step), a);
    }
  }

  lemma OtherStepOutcome(s: State, step: Step, a: Command)
    requires Inv(s) && Enabled(s, step) && NeedsToken(a.details) && !step.DoProcess? && !step.DoAck?
    ensures Ends(s, Apply(s, step), a) || Silent(s, Apply(s, step), a)
  {
    hide Inv, Ends, Silent, NeedsToken, SoundStore, Representable, Persistable, TakenIds, Diverges, NeedsId;
    hide FreshClient, RestoreKeys, Destroy, ConnectCall, Reconnect, DisconnectCall, Request, WriteComplete;
    hide Connack, SocketError, NextOrClose, CheckDisconnect, WritePending;
    ResponsesAreOwn(s);
    match step {
      case DoCreate(d, store, keys, outbound, buffering) =>
        CreateSilent(s, d, true, store, keys, outbound, buffering, a);
      case DoCreateVolatile(d, buffering) => CreateSilent(s, d, false, map[], [], [], buffering, a);
      case DoDestroy(d) => DestroyEnds(s, d, a);
      case DoConnect(d, version, cleanSession, uriCount, onSuccess, onFailure) =>
        ConnectCallSilent(s, d, version, cleanSession, uriCount, onSuccess, onFailure, a);
      case DoReconnect(d) => ReconnectSilent(s, d, a);
      case DoDisconnect(d, internal, onSuccess, onFailure) =>
        DisconnectCallSilent(s, d, internal, onSuccess, onFailure, a);
      case DoRequest(d, details, onSuccess, onFailure) => RequestSilent(s, d, details, onSuccess, onFailure, a);
      case DoWriteComplete(d) => WriteCompleteSilent(s, d, a);
      case DoConnack(d, accepted) => ConnackEnds(s, d, accepted, a);
      case DoSocketError(d) => SocketErrorEnds(s, d, a);
      case DoConnectTimeout(d) => NextOrCloseEnds(s, d, a);
      case DoDisconnectTimer(d, elapsed) => CheckDisconnectEnds(s, s.clients[d].disconnect.value, elapsed, a);
    }
  }

  lemma CreateSilent(s: State, d: ClientId, persistent: bool, store: map<nat, seq<byte>>, keys: seq<nat>,
                     outbound: seq<int>, buffering: Option<Buffering>, a: Command)
    requires d !in s.clients && forall k :: k in keys ==> k in store
    ensures
      var s0 := WithClient(s, d, FreshClient(persistent, store, outbound, buffering));
      Silent(s, s0, a) && Silent(s, RestoreKeys(s0, d, keys), a)
  {
    hide RestoreKeys;
    RestoreKeysSilent(WithClient(s, d, FreshClient(persistent, store, outbound, buffering)), d, keys, a);
  }

  lemma ConnectCallSilent(s: State, d: ClientId, version: int, cleanSession: bool, uriCount: nat, onSuccess: nat,
                          onFailure: bool, a: Command)
    requires d in s.clients
    ensures Silent(s, ConnectCall(s, d, version, cleanSession, uriCount, onSuccess, onFailure), a)
  {
    hide AddNew;
    var s1 := WithClient(s, d, Configured(s.clients[d], version, cleanSession, uriCount, onSuccess, onFailure));
    AddNewSilent(s1, d, 0, onSuccess, onFailure, Connect(0, MQTTVERSION_DEFAULT), a);
  }

  lemma ReconnectSilent(s: State, d: ClientId, a: Command)
    requires d in s.clients
    ensures Silent(s, Reconnect(s, d), a)
  {
    hide AddNew;
    var cl := s.clients[d];
    AddNewSilent(s, d, 0, cl.connect.onSuccess, cl.connect.onFailure, SavedOptions(cl), a);
  }

  // ----- over whole runs -----

  /** What made the failure callback of `a` be called. */
  ghost predicate FailsAt(s: State, step: Step, t: State, a: Command) {
    Acknowledges(s, step, a, true) || BreaksWrite(s, step, a) || Removed(s, t, a)
  }

  /** In every run: the success callback of an acknowledged request has been called exactly when an
      unrefused acknowledgement with the request's own id has arrived while it was waiting. */
  lemma {:induction false} SuccessIffAcknowledged(steps: seq<Step>, trace: seq<State>, i: nat, a: Command)
    requires IsRun(Empty, steps, trace) && i <= |steps| && NeedsToken(a.details) && a.onSuccess != 0
    ensures SuccessCalled(a) in trace[i].log <==> exists j :: 0 <= j < i && Acknowledges(trace[j], steps[j], a, false)
  {
    hide Acknowledges, Enabled, Apply, Inv, FailsAt, NeedsToken;
    if i > 0 {
      SuccessIffAcknowledged(steps, trace, i - 1, a);
      RunKeepsInv(steps, trace, i - 1);
      StepOutcome(trace[i - 1], steps[i - 1], a);
    }
  }

  /** In every run: its failure callback has been called only because it was refused, because its write
      broke when it was dispatched, or because the commands and responses of its client were removed. */
  lemma {:induction false} FailureHasCause(steps: seq<Step>, trace: seq<State>, i: nat, a: Command)
    requires IsRun(Empty, steps, trace) && i <= |steps| && NeedsToken(a.details)
    ensures FailureCalled(a) in trace[i].log ==>
              exists j :: 0 <= j < i && FailsAt(trace[j], steps[j], trace[j + 1], a)
  {
    hide Acknowledges, BreaksWrite, Removed, Enabled, Apply, Inv, NeedsToken;
    if i > 0 && FailureCalled(a) in trace[i].log {
      FailureHasCause(steps, trace, i - 1, a);
      RunKeepsInv(steps, trace, i - 1);
      StepOutcome(trace[i - 1], steps[i - 1], a);
      if FailureCalled(a) !in trace[i - 1].log {
        assert FailsAt(trace[i - 1], steps[i - 1], trace[i - 1 + 1], a);
      }
    }
  }
}
