/** The connect chain: when every attempt of a fresh connect fails, the attempts run through the
    server URIs and protocol versions once, in order, and one failure is reported. */
module ConnectChain {
  import opened Bytes
  import opened CommandCodec
  import opened LinkedLists
  import opened AsyncState
  import opened AsyncInvariants

  datatype Try = Try(uri: nat, version: int)

  /** The attempts client `c` has made. */
  function Attempts(log: seq<Event>, c: ClientId): seq<Try> {
    if log == [] then []
    else
      var e := log[|log| - 1];
      Attempts(log[..|log| - 1], c) + (if e.Attempt? && e.client == c then [Try(e.uri, e.version)] else [])
  }

  /** How often a connect failure has been reported to `c`. */
  function Reports(log: seq<Event>, c: ClientId): nat {
    if log == [] then 0
    else Reports(log[..|log| - 1], c) + (if log[|log| - 1] == ConnectFailed(c) then 1 else 0)
  }

  /** The attempts the documentation promises: each URI once for a fixed version, with 3.1.1 and then
      3.1 for the default version; a client without a URI list has the one URI it was created with. */
  function Total(cl: Client): nat {
    var n := if cl.uriCount == 0 then 1 else cl.uriCount;
    if cl.version == MQTTVERSION_DEFAULT then 2 * n else n
  }

  function Expected(cl: Client, k: nat): Try {
    if cl.version == MQTTVERSION_DEFAULT then
      Try(k / 2, if k % 2 == 0 then MQTTVERSION_3_1_1 else MQTTVERSION_3_1)
    else Try(k, cl.version)
  }

  /** The first `n` of them. */
  function Firsts(cl: Client, n: nat): seq<Try> {
    seq(n, i requires 0 <= i => Expected(cl, i))
  }

  lemma {:induction false} AttemptsConcat(log: seq<Event>, es: seq<Event>, c: ClientId)
    ensures Attempts(log + es, c) == Attempts(log, c) + Attempts(es, c)
    decreases |es|
  {
    if es == [] {
      assert log + es == log;
    } else {
      AttemptsConcat(log, es[..|es| - 1], c);
      assert (log + es)[..|log + es| - 1] == log + es[..|es| - 1];
    }
  }

  lemma {:induction false} ReportsConcat(log: seq<Event>, es: seq<Event>, c: ClientId)
    ensures Reports(log + es, c) == Reports(log, c) + Reports(es, c)
    decreases |es|
  {
    if es == [] {
      assert log + es == log;
    } else {
      ReportsConcat(log, es[..|es| - 1], c);
      assert (log + es)[..|log + es| - 1] == log + es[..|es| - 1];
    }
  }

  lemma LogsConcat(log: seq<Event>, es: seq<Event>, c: ClientId)
    ensures Attempts(log + es, c) == Attempts(log, c) + Attempts(es, c)
    ensures Reports(log + es, c) == Reports(log, c) + Reports(es, c)
  {
    AttemptsConcat(log, es, c);
    ReportsConcat(log, es, c);
  }

  lemma OneLogged(e: Event, c: ClientId)
    ensures Attempts([e], c) == if e.Attempt? && e.client == c then [Try(e.uri, e.version)] else []
    ensures Reports([e], c) == if e == ConnectFailed(c) then 1 else 0
  {
    assert [e][..0] == [];
  }

  // ----- one attempt leads to the next -----

  /** `d` is what the queue holds before attempt `k`. */
  predicate Pending(cl: Client, k: nat, d: Details) {
    d.Connect? && Try(d.currentURI, AttemptVersion(d.version, cl)) == Expected(cl, k)
  }

  /** After attempt `k` has failed, checkConn and the adjustment of the options lead to attempt
      `k + 1`, as long as there is one. */
  lemma FailureLeadsOn(cl: Client, k: nat)
    requires k < Total(cl)
    ensures MoreToTry(Expected(cl, k).uri, Expected(cl, k).version, cl) <==> k + 1 < Total(cl)
    ensures Pending(cl, k + 1, NextOptions(Expected(cl, k).uri, Expected(cl, k).version, cl))
  {
    if cl.version == MQTTVERSION_DEFAULT {
      assert (k + 1) / 2 == if k % 2 == 0 then k / 2 else k / 2 + 1;
    }
  }

  // ----- the invariant of the chain -----

  predicate ConnectOf(a: Command, c: ClientId) {
    a.client == c && a.details.Connect?
  }

  predicate DisconnectOf(a: Command, c: ClientId) {
    a.client == c && a.details.Disconnect?
  }

  /** The next attempt of `c` waits in the queue. */
  ghost predicate Waiting(s: State, c: ClientId, k: nat)
    requires c in s.clients
  {
    && s.clients[c].connectState == 0
    && (exists a :: a in s.commands && ConnectOf(a, c))
    && (forall a :: a in s.commands && ConnectOf(a, c) ==> Pending(s.clients[c], k, a.details) && a.onFailure)
    && (forall a, b :: a in s.commands && b in s.commands && ConnectOf(a, c) && ConnectOf(b, c) ==> a == b)
  }

  /** Attempt `k - 1` is under way. */
  ghost predicate Trying(s: State, c: ClientId, k: nat)
    requires c in s.clients
  {
    && 1 <= s.clients[c].connectState <= 3 && k > 0
    && (forall a :: a in s.commands ==> !ConnectOf(a, c))
    && Try(s.clients[c].connect.currentURI, s.clients[c].connect.version) == Expected(s.clients[c], k - 1)
  }

  ghost predicate Over(s: State, c: ClientId)
    requires c in s.clients
  {
    && s.clients[c].connectState == 0
    && (forall a :: a in s.commands ==> !ConnectOf(a, c))
  }

  /** Since a log with attempts `a0` and `r0` reports, `c` has failed all along: `k` attempts have
      been made, the right ones; and a failure has been reported once all have been. */
  ghost predicate Chain(s: State, c: ClientId, a0: seq<Try>, r0: nat, k: nat) {
    && c in s.clients && !s.clients[c].connected && s.clients[c].connect.onFailure
    && (forall a :: a in s.commands ==> !DisconnectOf(a, c))
    && Attempts(s.log, c) == a0 + Firsts(s.clients[c], k)
    && ((Waiting(s, c, k) && k < Total(s.clients[c]) && Reports(s.log, c) == r0)
        || (Trying(s, c, k) && k <= Total(s.clients[c]) && Reports(s.log, c) == r0)
        || (Over(s, c) && k == Total(s.clients[c]) && Reports(s.log, c) == r0 + 1))
  }

  /** No index in use leaves the array of `n` URIs: neither those of queued CONNECTs nor that of
      the attempt under way. */
  ghost predicate InArray(s: State, c: ClientId) {
    c in s.clients &&
    var n := if s.clients[c].uriCount == 0 then 1 else s.clients[c].uriCount;
    && (forall a :: a in s.commands && ConnectOf(a, c) ==> a.details.currentURI < n)
    && (s.clients[c].connectState != 0 ==> s.clients[c].connect.currentURI < n)
  }

  lemma ChainStaysInArray(s: State, c: ClientId, a0: seq<Try>, r0: nat, k: nat)
    requires Chain(s, c, a0, r0, k)
    ensures InArray(s, c)
  {
    hide Attempts, Reports;
  }

  // ----- steps that do not concern the chain -----

  /** `t` agrees with `s` in everything the chain of `c` looks at. */
  ghost predicate Quiet(s: State, t: State, c: ClientId) {
    && c in s.clients && c in t.clients
    && t.clients[c].connected == s.clients[c].connected && t.clients[c].connectState == s.clients[c].connectState
    && t.clients[c].connect == s.clients[c].connect && t.clients[c].uriCount == s.clients[c].uriCount
    && t.clients[c].version == s.clients[c].version
    && (forall a :: ConnectOf(a, c) || DisconnectOf(a, c) ==> (a in t.commands <==> a in s.commands))
    && Attempts(t.log, c) == Attempts(s.log, c) && Reports(t.log, c) == Reports(s.log, c)
  }

  lemma QuietKeepsChain(s: State, t: State, c: ClientId, a0: seq<Try>, r0: nat, k: nat)
    requires Chain(s, c, a0, r0, k) && Quiet(s, t, c)
    ensures Chain(t, c, a0, r0, k)
  {
    assert forall i: nat :: Expected(t.clients[c], i) == Expected(s.clients[c], i);
    assert Firsts(t.clients[c], k) == Firsts(s.clients[c], k);
    if Waiting(s, c, k) {
      var a :| a in s.commands && ConnectOf(a, c);
      assert a in t.commands;
      assert Waiting(t, c, k);
    }
  }

  lemma QuietLog(s: State, es: seq<Event>, c: ClientId)
    requires c in s.clients && |es| <= 1
    requires forall e :: e in es ==> !(e.Attempt? && e.client == c) && e != ConnectFailed(c)
    ensures Quiet(s, Logged(s, es), c)
  {
    LogsConcat(s.log, es, c);
    if es != [] {
      assert es == [es[0]];
      OneLogged(es[0], c);
    }
  }

  lemma QuietAdd(s: State, cmd: Command, c: ClientId)
    requires c in s.clients && cmd.client in s.clients && Representable(cmd.details)
    requires cmd.client != c || Persistable(cmd.details)
    ensures Quiet(s, Add(s, cmd), c)
  {
    hide Attempts, Reports, Layout, Representable;
    if Add(s, cmd).commands != s.commands {
      var x := AddShape(s, cmd);
      hide Add;
      LogsConcat(s.log, [Added(x)], c);
      OneLogged(Added(x), c);
    }
  }

  lemma QuietAddNew(s: State, d: ClientId, token: int32, onSuccess: nat, onFailure: bool, details: Details, c: ClientId)
    requires c in s.clients && d in s.clients && Representable(details) && (d != c || Persistable(details))
    ensures Quiet(s, AddNew(s, d, token, onSuccess, onFailure, details), c)
  {
    hide Attempts, Reports, Representable, Persistable, Add;
    QuietAdd(s.(nextId := s.nextId + 1), New(s, d, token, onSuccess, onFailure, details), c);
  }

  lemma {:induction false} QuietFailures(cmds: seq<Command>, c: ClientId)
    ensures Attempts(FailureEvents(cmds), c) == [] && Reports(FailureEvents(cmds), c) == 0
  {
    if cmds != [] {
      var x := cmds[|cmds| - 1];
      QuietFailures(cmds[..|cmds| - 1], c);
      LogsConcat(FailureEvents(cmds[..|cmds| - 1]), FailureCall(x), c);
      OneLogged(FailureCalled(x), c);
    }
  }

  lemma {:induction false} QuietRemovals(q: seq<Command>, d: ClientId, c: ClientId)
    ensures Attempts(RemovalEvents(q, d), c) == [] && Reports(RemovalEvents(q, d), c) == 0
  {
    if q != [] {
      var x := q[|q| - 1];
      QuietRemovals(q[..|q| - 1], d, c);
      LogsConcat(RemovalEvents(q[..|q| - 1], d), Removal(x, d), c);
      LogsConcat([Dropped(x)], [FailureCalled(x)], c);
      assert [Dropped(x)] + [FailureCalled(x)] == [Dropped(x), FailureCalled(x)];
      OneLogged(Dropped(x), c);
      OneLogged(FailureCalled(x), c);
    }
  }

  lemma RemoveAllLogs(s: State, d: ClientId, c: ClientId)
    requires d in s.clients
    ensures Attempts(RemoveAll(s, d).log, c) == Attempts(s.log, c)
    ensures Reports(RemoveAll(s, d).log, c) == Reports(s.log, c)
  {
    var fs, es := FailureEvents(s.clients[d].responses), RemovalEvents(s.commands, d);
    LogsConcat(s.log, fs + es, c);
    LogsConcat(fs, es, c);
    QuietFailures(s.clients[d].responses, c);
    QuietRemovals(s.commands, d, c);
  }

  lemma QuietRemoveAll(s: State, d: ClientId, c: ClientId)
    requires c in s.clients && d in s.clients && d != c
    ensures Quiet(s, RemoveAll(s, d), c)
  {
    hide Attempts, Reports, Purged, RemovalEvents, FailureEvents;
    RemoveAllLogs(s, d, c);
    PurgedMembers(s.commands, d);
  }

  lemma QuietCleanSession(s: State, d: ClientId, c: ClientId)
    requires c in s.clients && d in s.clients && d != c
    ensures Quiet(s, CleanSession(s, d), c) && d in CleanSession(s, d).clients
  {
    QuietRemoveAll(WithClient(s, d, Cleaned(s.clients[d])), d, c);
  }

  lemma QuietCloseSession(s: State, d: ClientId, c: ClientId)
    requires c in s.clients && d in s.clients && d != c
    ensures Quiet(s, CloseSession(s, d), c) && d in CloseSession(s, d).clients
  {
    QuietCleanSession(CloseOnly(s, d), d, c);
  }

  lemma QuietDisconnectCall(s: State, d: ClientId, internal: bool, onSuccess: nat, onFailure: bool, c: ClientId)
    requires c in s.clients && d in s.clients && (d != c || !s.clients[c].connected)
    ensures Quiet(s, DisconnectCall(s, d, internal, onSuccess, onFailure), c)
  {
    hide Attempts, Reports, AddNew;
    var s1 := if internal then s else WithClient(s, d, s.clients[d].(shouldBeConnected := false));
    if s.clients[d].connected {
      QuietAddNew(s1, d, 0, onSuccess, onFailure, Disconnect(internal), c);
    }
  }

  lemma QuietNextOrClose(s: State, d: ClientId, c: ClientId)
    requires c in s.clients && d in s.clients && d != c
    ensures Quiet(s, NextOrClose(s, d), c)
  {
    hide Attempts, Reports, AddNew, CloseSession, MoreToTry;
    var cl := s.clients[d];
    var info := cl.connect;
    if MoreToTry(info.currentURI, info.version, cl) {
      QuietAddNew(CloseOnly(s, d), d, 0, info.onSuccess, info.onFailure,
                  NextOptions(info.currentURI, info.version, cl), c);
    } else {
      QuietCloseSession(s, d, c);
      QuietLog(CloseSession(s, d), if info.onFailure then [ConnectFailed(d)] else [], c);
    }
  }

  lemma QuietDequeue(s: State, i: nat, c: ClientId)
    requires Inv(s) && c in s.clients && i < |s.commands| && s.commands[i].client != c
    ensures s.commands[i].client in s.clients && Quiet(s, Dequeue(s, i), c)
    ensures s.commands[i].client in Dequeue(s, i).clients
  {
    hide Attempts, Reports, Layout, Representable, Without;
    var x := s.commands[i];
    assert x in s.commands && Sound(s, x);
    WithoutMembers(s.commands, i);
    LogsConcat(s.log, [Taken(x)], c);
    OneLogged(Taken(x), c);
  }

  lemma QuietDispatchConnect(s: State, cmd: Command, net: Net, c: ClientId)
    requires c in s.clients && cmd.client in s.clients && cmd.client != c && cmd.details.Connect?
    ensures Quiet(s, DispatchConnect(s, cmd, net), c)
  {
    hide Add, Attempts, Reports, MoreToTry, AttemptVersion;
    var d, cl, uri := cmd.client, s.clients[cmd.client], cmd.details.currentURI;
    var v := AttemptVersion(cmd.details.version, cl);
    QuietLog(s, [Attempt(d, uri, v)], c);
    var s2 := WithClient(Logged(s, [Attempt(d, uri, v)]), d, cl.(shouldBeConnected := true));
    QuietAdd(s2, cmd.(details := NextOptions(uri, v, cl)), c);
    QuietLog(s2, if cmd.onFailure then [ConnectFailed(d)] else [], c);
  }

  lemma QuietCheckDisconnect(s: State, cmd: Command, elapsed: bool, c: ClientId)
    requires c in s.clients && cmd.client in s.clients && cmd.client != c && cmd.details.Disconnect?
    ensures Quiet(s, CheckDisconnect(s, cmd, elapsed), c)
  {
    hide CloseSession, Attempts, Reports;
    QuietCloseSession(s, cmd.client, c);
    QuietLog(CloseSession(s, cmd.client), if cmd.details.internal then [] else SuccessCall(cmd), c);
  }

  lemma QuietDispatchRequest(s: State, cmd: Command, net: Net, c: ClientId)
    requires c in s.clients && cmd.client in s.clients && cmd.client != c && Persistable(cmd.details)
    ensures Quiet(s, DispatchRequest(s, cmd, net), c)
  {
    hide DisconnectCall, Attempts, Reports;
    var d, cl := cmd.client, s.clients[cmd.client];
    var s1 := WithClient(s, d, Sending(cl, cmd));
    QuietLog(s, SuccessCall(cmd), c);
    QuietDisconnectCall(s1, d, true, 0, false, c);
    QuietLog(DisconnectCall(s1, d, true, 0, false), FailureCall(cmd), c);
  }

  lemma QuietDispatch(s: State, cmd: Command, net: Net, c: ClientId)
    requires c in s.clients && cmd.client in s.clients && cmd.client != c
    ensures Quiet(s, Dispatch(s, cmd, net), c)
  {
    hide DispatchConnect, DispatchRequest, CheckDisconnect, Attempts, Reports;
    match cmd.details {
      case Connect(_, _) => QuietDispatchConnect(s, cmd, net, c);
      case Disconnect(_) =>
        var s1 := WithClient(s, cmd.client, s.clients[cmd.client].(connectState := -2));
        QuietCheckDisconnect(s1, cmd, net.elapsed, c);
      case _ => QuietDispatchRequest(s, cmd, net, c);
    }
  }

  lemma QuietProcess(s: State, net: Net, c: ClientId)
    requires Inv(s) && c in s.clients
    requires var i := FirstReady(s, net.idle, 0); i >= 0 ==> s.commands[i].client != c
    ensures Quiet(s, Process(s, net), c)
  {
    hide Dequeue, Dispatch, Inv, Attempts, Reports;
    var i := FirstReady(s, net.idle, 0);
    if i >= 0 {
      QuietDequeue(s, i, c);
      QuietDispatch(Dequeue(s, i), s.commands[i], net, c);
    }
  }

  lemma QuietRequest(s: State, d: ClientId, details: Details, onSuccess: nat, onFailure: bool, c: ClientId)
    requires c in s.clients && d in s.clients && s.clients[d].msgID <= MAX_MSG_ID
    requires Persistable(details) && Representable(details)
    ensures Quiet(s, Request(s, d, details, onSuccess, onFailure).0, c)
  {
    hide AddNew, Representable, Persistable, FirstFree, QosInRange, Attempts, Reports, TakenIds, Buffered, IdAfter;
    var (s1, id) := if NeedsToken(details) then AssignMsgId(s, d) else (s, 0);
    QuietAddNew(s1, d, id, onSuccess, onFailure, details, c);
  }

  /** Updates that the chain does not look at, and at most one call. */
  lemma QuietUpdate(s: State, d: ClientId, cl: Client, es: seq<Event>, c: ClientId)
    requires c in s.clients && d in s.clients && cl.connected == s.clients[d].connected
    requires cl.connectState == s.clients[d].connectState && cl.connect == s.clients[d].connect
    requires cl.uriCount == s.clients[d].uriCount && cl.version == s.clients[d].version
    requires |es| <= 1 && forall e :: e in es ==> e.SuccessCalled? || e.FailureCalled?
    ensures Quiet(s, Logged(WithClient(s, d, cl), es), c)
  {
    hide Attempts, Reports;
    QuietLog(s, es, c);
  }

  lemma QuietAck(s: State, d: ClientId, id: int, refused: bool, flowDone: bool, c: ClientId)
    requires c in s.clients && d in s.clients
    ensures Quiet(s, Ack(s, d, id, refused, flowDone), c)
  {
    hide Attempts, Reports, Without;
    var i := FindResponse(s.clients[d].responses, id);
    if i >= 0 {
      var cmd := s.clients[d].responses[i];
      QuietLog(s, if refused then FailureCall(cmd) else SuccessCall(cmd), c);
    }
  }

  lemma QuietConnack(s: State, d: ClientId, accepted: bool, c: ClientId)
    requires c in s.clients && d in s.clients && d != c
    ensures Quiet(s, Connack(s, d, accepted), c)
  {
    hide CleanSession, NextOrClose, Attempts, Reports;
    var cl := s.clients[d];
    var s1 := WithClient(s, d, cl.(connected := true, connectState := 0));
    QuietCleanSession(s1, d, c);
    var s2 := if cl.cleanSession then CleanSession(s1, d) else s1;
    QuietLog(s2, if cl.connect.onSuccess != 0 then [ConnectSucceeded(d)] else [], c);
    QuietNextOrClose(s, d, c);
  }

  lemma {:induction false} QuietRestoreKeys(s: State, d: ClientId, keys: seq<nat>, c: ClientId)
    requires c in s.clients && d in s.clients && d != c
    requires forall k :: k in keys ==> k in s.clients[d].store
    ensures Quiet(s, RestoreKeys(s, d, keys), c)
  {
    if keys != [] {
      QuietRestoreKeys(s, d, keys[..|keys| - 1], c);
      QuietRestoreOne(RestoreKeys(s, d, keys[..|keys| - 1]), d, keys[|keys| - 1], c);
    }
  }

  lemma QuietRestoreOne(s: State, d: ClientId, key: nat, c: ClientId)
    requires c in s.clients && d in s.clients && d != c && key in s.clients[d].store
    ensures Quiet(s, RestoreOne(s, d, key), c)
  {
    hide Restore, RestorePoint, Attempts, Reports;
    if Restore(s.clients[d].store[key]).Parsed? {
      var q, k, x := s.commands, RestorePoint(s.commands), FromStore(s, d, key);
      assert q == q[..k] + q[k..];
      assert forall a :: a in q[..k] + [x] + q[k..] <==> a in q || a == x;
      LogsConcat(s.log, [Added(x)], c);
      OneLogged(Added(x), c);
    }
  }

  // ----- the chain's own steps -----

  lemma PrefixGrows(cl: Client, k: nat)
    ensures Firsts(cl, k + 1) == Firsts(cl, k) + [Expected(cl, k)]
  {
  }

  lemma SameExpected(a: Client, b: Client, k: nat)
    requires a.version == b.version && a.uriCount == b.uriCount
    ensures Firsts(a, k) == Firsts(b, k)
    ensures Total(a) == Total(b)
    ensures forall d :: Pending(a, k, d) <==> Pending(b, k, d)
  {
    assert forall i: nat :: Expected(a, i) == Expected(b, i);
  }

  /** Between two attempts: `k` have failed, the next is not queued yet. */
  ghost predicate Between(s: State, c: ClientId, a0: seq<Try>, r0: nat, k: nat) {
    && c in s.clients && !s.clients[c].connected && s.clients[c].connectState == 0 && s.clients[c].connect.onFailure
    && (forall a :: a in s.commands ==> !ConnectOf(a, c) && !DisconnectOf(a, c))
    && Attempts(s.log, c) == a0 + Firsts(s.clients[c], k)
    && Reports(s.log, c) == r0
  }

  /** The next attempt goes to the head of the queue. */
  lemma Requeue(s: State, y: Command, c: ClientId, a0: seq<Try>, r0: nat, k: nat)
    requires Between(s, c, a0, r0, k) && k < Total(s.clients[c])
    requires y.client == c && Pending(s.clients[c], k, y.details) && y.onFailure
    ensures var t := Add(s, y); Chain(t, c, a0, r0, k) && |t.commands| > 0 && ConnectOf(t.commands[0], c)
    ensures Add(s, y).clients == s.clients
  {
    hide Attempts, Reports, Expected, AttemptVersion, Total;
    var t := Add(s, y);
    assert |s.commands| > 0 ==> s.commands[0] in s.commands;
    assert t.commands == [y] + s.commands && t.log == s.log + [Added(y)];
    LogsConcat(s.log, [Added(y)], c);
    OneLogged(Added(y), c);
    assert t.commands[0] == y && t.clients == s.clients;
    assert forall a :: a in t.commands <==> a == y || a in s.commands;
    assert ConnectOf(y, c);
    assert Waiting(t, c, k);
  }

  /** Or, with none left, the failure is reported. */
  lemma Report(s: State, c: ClientId, a0: seq<Try>, r0: nat)
    requires Between(s, c, a0, r0, if c in s.clients then Total(s.clients[c]) else 0)
    ensures
      var t := Logged(s, [ConnectFailed(c)]);
      Chain(t, c, a0, r0, Total(s.clients[c])) && Over(t, c)
  {
    hide Attempts, Reports, Pending, Expected;
    LogsConcat(s.log, [ConnectFailed(c)], c);
    OneLogged(ConnectFailed(c), c);
  }

  /** Taking the waiting CONNECT out of the queue and noting the attempt. */
  lemma TakeConnect(s: State, i: nat, c: ClientId, v: int, a0: seq<Try>, r0: nat, k: nat)
    requires Inv(s) && Chain(s, c, a0, r0, k) && i < |s.commands| && ConnectOf(s.commands[i], c)
    requires v == AttemptVersion(s.commands[i].details.version, s.clients[c])
    ensures Waiting(s, c, k) && k < Total(s.clients[c]) && s.commands[i].onFailure
    ensures
      var x, cl, s1 := s.commands[i], s.clients[c], Dequeue(s, i);
      var s2 := Logged(s1, [Attempt(c, x.details.currentURI, v)]);
      && Between(s2, c, a0, r0, k + 1) && Try(x.details.currentURI, v) == Expected(cl, k)
      && s2.clients[c].version == cl.version && s2.clients[c].uriCount == cl.uriCount
      && s1.clients[c].connected == cl.connected && s1.clients[c].connectState == cl.connectState
  {
    hide Attempts, Reports, Layout, Representable, Without, TokenInv, StoreInv, Expected, Total;
    var x, cl := s.commands[i], s.clients[c];
    assert x in s.commands;
    assert Waiting(s, c, k);
    var s1 := Dequeue(s, i);
    WithoutMembers(s.commands, i);
    var e := Attempt(c, x.details.currentURI, v);
    LogsConcat(s.log, [Taken(x)], c);
    OneLogged(Taken(x), c);
    LogsConcat(s1.log, [e], c);
    OneLogged(e, c);
    PrefixGrows(cl, k);
    SameExpected(cl, s1.clients[c], k + 1);
  }

  /** Dispatching the waiting CONNECT makes attempt `k`; when it fails at once the next one is queued
      at the head, or the failure is reported. */
  lemma DispatchMakesAttempt(s: State, i: nat, net: Net, c: ClientId, a0: seq<Try>, r0: nat, k: nat)
    requires Inv(s) && Chain(s, c, a0, r0, k) && i < |s.commands| && ConnectOf(s.commands[i], c)
    requires 0 <= net.connectState <= 3
    ensures
      var t := DispatchConnect(Dequeue(s, i), s.commands[i], net);
      && Chain(t, c, a0, r0, k + 1)
      && (net.connectState == 0 && k + 1 < Total(s.clients[c]) ==> |t.commands| > 0 && ConnectOf(t.commands[0], c))
      && (net.connectState == 0 && k + 1 == Total(s.clients[c]) ==> Over(t, c))
      && Total(t.clients[c]) == Total(s.clients[c])
  {
    var x, cl := s.commands[i], s.clients[c];
    var uri, v := x.details.currentURI, AttemptVersion(x.details.version, cl);
    TakeConnect(s, i, c, v, a0, r0, k);
    hide Inv, Chain, Attempts, Reports, Layout, Representable, Dequeue, Expected, Add;
    FailureLeadsOn(cl, k);
    var s1 := Dequeue(s, i);
    var cl1 := s1.clients[c];
    SameExpected(cl, cl1, k + 1);
    AttemptOutcome(s1, x, net, c, a0, r0, k + 1, uri, v);
  }

  lemma AttemptOutcome(s: State, x: Command, net: Net, c: ClientId, a0: seq<Try>, r0: nat, k: nat, uri: nat, v: int)
    requires ConnectOf(x, c) && x.onFailure && uri == x.details.currentURI && c in s.clients
    requires v == AttemptVersion(x.details.version, s.clients[c]) && 0 <= net.connectState <= 3
    requires Between(Logged(s, [Attempt(c, uri, v)]), c, a0, r0, k) && 1 <= k <= Total(s.clients[c])
    requires Try(uri, v) == Expected(s.clients[c], k - 1)
    ensures
      var t := DispatchConnect(s, x, net);
      && Chain(t, c, a0, r0, k)
      && (net.connectState == 0 && k < Total(s.clients[c]) ==> |t.commands| > 0 && ConnectOf(t.commands[0], c))
      && (net.connectState == 0 && k == Total(s.clients[c]) ==> Over(t, c))
      && Total(t.clients[c]) == Total(s.clients[c])
  {
    FailureLeadsOn(s.clients[c], k - 1);
    hide Attempts, Reports, Expected, Add, Pending;
    var cl := s.clients[c];
    var s1 := Logged(s, [Attempt(c, uri, v)]);
    var t := DispatchConnect(s, x, net);
    var s2 := WithClient(s1, c, cl.(shouldBeConnected := true));
    SameExpected(cl, s2.clients[c], k);
    if net.connectState != 0 {
      SameExpected(cl, t.clients[c], k);
      SameTry(cl, t.clients[c], k - 1);
      assert Trying(t, c, k);
    } else if k < Total(cl) {
      Requeue(s2, x.(details := NextOptions(uri, v, cl)), c, a0, r0, k);
    } else {
      Report(s2, c, a0, r0);
    }
  }

  lemma SameTry(a: Client, b: Client, k: nat)
    requires a.version == b.version
    ensures Expected(a, k) == Expected(b, k)
  {
  }

  /** A failure seen later, by nextOrClose, leads on in the same way. */
  lemma LateFailureLeadsOn(s: State, c: ClientId, a0: seq<Try>, r0: nat, k: nat)
    requires Inv(s) && Chain(s, c, a0, r0, k) && s.clients[c].connectState != 0
    ensures Chain(NextOrClose(s, c), c, a0, r0, k)
    ensures Over(NextOrClose(s, c), c) <==> k == Total(s.clients[c])
  {
    hide Inv, Attempts, Reports, Layout, Expected, Add, CloseSession, Pending;
    var cl := s.clients[c];
    assert Trying(s, c, k);
    FailureLeadsOn(cl, k - 1);
    if k < Total(cl) {
      var s1 := CloseOnly(s, c);
      SameExpected(cl, s1.clients[c], k);
      Requeue(s1.(nextId := s1.nextId + 1),
              New(s1, c, 0, cl.connect.onSuccess, true, NextOptions(cl.connect.currentURI, cl.connect.version, cl)),
              c, a0, r0, k);
      assert NextOrClose(s, c).commands[0] in NextOrClose(s, c).commands;
    } else {
      CloseSessionEnds(s, c);
      SameExpected(cl, CloseSession(s, c).clients[c], k);
      Report(CloseSession(s, c), c, a0, r0);
    }
  }

  lemma CloseSessionEnds(s: State, c: ClientId)
    requires c in s.clients
    ensures
      var t := CloseSession(s, c);
      && c in t.clients && !t.clients[c].connected && t.clients[c].connectState == 0
      && t.clients[c].connect == s.clients[c].connect && t.clients[c].version == s.clients[c].version
      && t.clients[c].uriCount == s.clients[c].uriCount
      && (forall a :: a in t.commands ==> a in s.commands)
      && Attempts(t.log, c) == Attempts(s.log, c) && Reports(t.log, c) == Reports(s.log, c)
  {
    var s1 := CloseOnly(s, c);
    RemoveAllLogs(WithClient(s1, c, Cleaned(s1.clients[c])), c, c);
    PurgedMembers(s.commands, c);
  }

  // ----- every run in which c keeps failing -----

  /** The steps in which `c` is not asked to connect anew, is not destroyed and gets no accepting
      CONNACK; the other clients may do anything. */
  predicate Failing(step: Step, c: ClientId) {
    match step
    case DoConnect(d, _, _, _, _, _) => d != c
    case DoReconnect(d) => d != c
    case DoDestroy(d) => d != c
    case DoConnack(d, accepted) => d == c ==> !accepted
    case _ => true
  }

  /** The steps that can concern the chain of `c`; dispatches may. */
  predicate Concerns(step: Step, c: ClientId) {
    match step
    case DoProcess(_) => true
    case DoConnack(d, _) => d == c
    case DoSocketError(d) => d == c
    case DoConnectTimeout(d) => d == c
    case _ => false
  }

  lemma QuietStep(s: State, step: Step, c: ClientId)
    requires Inv(s) && c in s.clients && !s.clients[c].connected && s.clients[c].connectState != -2
    requires Enabled(s, step) && Failing(step, c) && !Concerns(step, c)
    ensures Quiet(s, Apply(s, step), c)
  {
    hide Inv, Quiet, SoundStore, Representable, Persistable, TakenIds, Diverges, NeedsId, NeedsToken;
    hide Create, FreshClient, Destroy, ConnectCall, Reconnect, DisconnectCall, Request;
    hide Ack, Connack, SocketError, NextOrClose, CheckDisconnect;
    match step {
      case DoCreate(d, store, keys, outbound, buffering) => QuietCreate(s, d, store, keys, outbound, buffering, c);
      case DoCreateVolatile(d, buffering) => QuietNewcomer(s, d, FreshClient(false, map[], [], buffering), c);
      case DoDestroy(d) => QuietDestroy(s, d, c);
      case DoConnect(d, version, cleanSession, uriCount, onSuccess, onFailure) =>
        QuietConnect(s, d, version, cleanSession, uriCount, onSuccess, onFailure, c);
      case DoReconnect(d) => QuietReconnect(s, d, c);
      case DoDisconnect(d, internal, onSuccess, onFailure) =>
        QuietDisconnectCall(s, d, internal, onSuccess, onFailure, c);
      case DoRequest(d, details, onSuccess, onFailure) => QuietRequest(s, d, details, onSuccess, onFailure, c);
      case DoWriteComplete(d) =>
        var cl := s.clients[d];
        QuietUpdate(s, d, cl.(responses := cl.responses[1..], pendingWrite := None),
                    SuccessCall(cl.pendingWrite.value), c);
      case DoAck(d, id, refused, flowDone) => QuietAck(s, d, id, refused, flowDone, c);
      case DoConnack(d, accepted) => QuietConnack(s, d, accepted, c);
      case DoSocketError(d) => QuietSocketError(s, d, c);
      case DoConnectTimeout(d) => QuietNextOrClose(s, d, c);
      case DoDisconnectTimer(d, elapsed) => QuietCheckDisconnect(s, s.clients[d].disconnect.value, elapsed, c);
    }
  }

  lemma QuietConnect(s: State, d: ClientId, version: int, cleanSession: bool, uriCount: nat, onSuccess: nat,
                     onFailure: bool, c: ClientId)
    requires c in s.clients && d in s.clients && d != c
    ensures Quiet(s, ConnectCall(s, d, version, cleanSession, uriCount, onSuccess, onFailure), c)
  {
    hide Attempts, Reports, AddNew;
    var s1 := WithClient(s, d, Configured(s.clients[d], version, cleanSession, uriCount, onSuccess, onFailure));
    QuietAddNew(s1, d, 0, onSuccess, onFailure, Connect(0, MQTTVERSION_DEFAULT), c);
  }

  lemma QuietReconnect(s: State, d: ClientId, c: ClientId)
    requires c in s.clients && d in s.clients && d != c
    ensures Quiet(s, Reconnect(s, d), c)
  {
    hide Quiet, AddNew;
    var cl := s.clients[d];
    QuietAddNew(s, d, 0, cl.connect.onSuccess, cl.connect.onFailure, SavedOptions(cl), c);
  }

  lemma QuietNewcomer(s: State, d: ClientId, cl: Client, c: ClientId)
    requires c in s.clients && d !in s.clients
    ensures Quiet(s, WithClient(s, d, cl), c)
  {
    hide Attempts, Reports;
  }

  lemma QuietCreate(s: State, d: ClientId, store: map<nat, seq<byte>>, keys: seq<nat>, outbound: seq<int>,
                    buffering: Option<Buffering>, c: ClientId)
    requires c in s.clients && d !in s.clients && forall k :: k in keys ==> k in store
    ensures Quiet(s, Create(s, d, store, keys, outbound, buffering), c)
  {
    hide Attempts, Reports, RestoreKeys;
    QuietRestoreKeys(WithClient(s, d, FreshClient(true, store, outbound, buffering)), d, keys, c);
  }

  lemma QuietDestroy(s: State, d: ClientId, c: ClientId)
    requires c in s.clients && d in s.clients && d != c
    ensures Quiet(s, Destroy(s, d), c)
  {
    hide Attempts, Reports, Purged, RemovalEvents, FailureEvents;
    QuietRemoveAll(s, d, c);
  }

  lemma QuietSocketError(s: State, d: ClientId, c: ClientId)
    requires c in s.clients && d in s.clients && d != c
    ensures Quiet(s, SocketError(s, d), c)
  {
    hide Attempts, Reports, DisconnectCall, NextOrClose;
    QuietDisconnectCall(s, d, true, 0, false, c);
    QuietNextOrClose(s, d, c);
  }

  /** A failure of the attempt under way. */
  lemma OwnFailureKeepsChain(s: State, step: Step, c: ClientId, a0: seq<Try>, r0: nat, k: nat)
    requires Inv(s) && Chain(s, c, a0, r0, k) && Enabled(s, step) && Failing(step, c)
    requires Concerns(step, c) && !step.DoProcess?
    ensures Chain(Apply(s, step), c, a0, r0, k)
  {
    assert s.clients[c].connectState != 0;
    hide Inv, Chain, NextOrClose, CleanSession;
    LateFailureLeadsOn(s, c, a0, r0, k);
  }

  lemma ChainIsIdle(s: State, c: ClientId, a0: seq<Try>, r0: nat, k: nat)
    requires Chain(s, c, a0, r0, k)
    ensures c in s.clients && !s.clients[c].connected && s.clients[c].connectState != -2
  {
    hide Attempts, Reports, Expected;
  }

  lemma StepKeepsChain(s: State, step: Step, c: ClientId, a0: seq<Try>, r0: nat, k: nat) returns (k': nat)
    requires Inv(s) && Chain(s, c, a0, r0, k) && Enabled(s, step) && Failing(step, c)
    ensures k <= k' && Chain(Apply(s, step), c, a0, r0, k')
  {
    hide Inv, Chain, Quiet, Failing, Process;
    if step.DoProcess? {
      k' := ProcessKeepsChain(s, step.net, c, a0, r0, k);
    } else {
      k' := k;
      hide Enabled, Apply;
      if Concerns(step, c) {
        OwnFailureKeepsChain(s, step, c, a0, r0, k);
      } else {
        ChainIsIdle(s, c, a0, r0, k);
        QuietStep(s, step, c);
        QuietKeepsChain(s, Apply(s, step), c, a0, r0, k);
      }
    }
  }

  lemma ProcessKeepsChain(s: State, net: Net, c: ClientId, a0: seq<Try>, r0: nat, k: nat) returns (k': nat)
    requires Inv(s) && Chain(s, c, a0, r0, k) && 0 <= net.connectState <= 3
    ensures k <= k' && Chain(Process(s, net), c, a0, r0, k')
  {
    var i := FirstReady(s, net.idle, 0);
    if i >= 0 && s.commands[i].client == c {
      assert s.commands[i] in s.commands;
      assert ConnectOf(s.commands[i], c);
      DispatchMakesAttempt(s, i, net, c, a0, r0, k);
      k' := k + 1;
    } else {
      QuietProcess(s, net, c);
      QuietKeepsChain(s, Process(s, net), c, a0, r0, k);
      k' := k;
    }
  }

  /** A connect call of an idle client starts a chain. */
  lemma FreshConnect(s: State, c: ClientId, version: int, cleanSession: bool, uriCount: nat, onSuccess: nat)
    requires Inv(s) && c in s.clients && !HasSocket(s.clients[c])
    requires forall a :: a in s.commands ==> !ConnectOf(a, c) && !DisconnectOf(a, c)
    ensures
      var t := ConnectCall(s, c, version, cleanSession, uriCount, onSuccess, true);
      Chain(t, c, Attempts(s.log, c), Reports(s.log, c), 0) && Waiting(t, c, 0) && ConnectOf(t.commands[0], c)
  {
    hide Inv, Attempts, Reports, Layout, Add;
    var s1 := WithClient(s, c, Configured(s.clients[c], version, cleanSession, uriCount, onSuccess, true));
    assert Attempts(s.log, c) + [] == Attempts(s.log, c);
    Requeue(s1.(nextId := s1.nextId + 1), New(s1, c, 0, onSuccess, true, Connect(0, MQTTVERSION_DEFAULT)), c,
            Attempts(s.log, c), Reports(s.log, c), 0);
    var t := ConnectCall(s, c, version, cleanSession, uriCount, onSuccess, true);
    assert t.commands[0] in t.commands;
  }

  /** In every run after a fresh connect in which c keeps failing: the attempts made so far are the
      first ones of the promised list; no failure is reported before all have been made, and one
      when the last has failed; no URI index leaves the array. */
  lemma {:induction false} AttemptsInOrder(s: State, steps: seq<Step>, trace: seq<State>, i: nat, c: ClientId,
                                           a0: seq<Try>, r0: nat) returns (k: nat)
    requires Inv(s) && Chain(s, c, a0, r0, 0) && IsRun(s, steps, trace) && i < |trace|
    requires forall step :: step in steps ==> Failing(step, c)
    ensures Inv(trace[i]) && Chain(trace[i], c, a0, r0, k) && k <= Total(trace[i].clients[c])
    ensures Attempts(trace[i].log, c) == a0 + Firsts(trace[i].clients[c], k)
    ensures Reports(trace[i].log, c) == if Over(trace[i], c) then r0 + 1 else r0
    ensures Over(trace[i], c) ==> k == Total(trace[i].clients[c])
    ensures InArray(trace[i], c)
  {
    hide Inv, Enabled, Apply, Expected, Attempts, Reports, Failing, InArray;
    if i == 0 {
      k := 0;
    } else {
      var j := AttemptsInOrder(s, steps, trace, i - 1, c, a0, r0);
      assert steps[i - 1] in steps;
      k := StepKeepsChain(trace[i - 1], steps[i - 1], c, a0, r0, j);
      StepKeepsInv(trace[i - 1], steps[i - 1]);
    }
    ChainStaysInArray(trace[i], c, a0, r0, k);
  }

  /** The send thread on its own, every attempt failing at once. */
  function FailAtOnce(s: State, net: Net, n: nat): State
    decreases n
  {
    if n == 0 then s else FailAtOnce(Process(s, net), net, n - 1)
  }

  /** It makes exactly the attempts that are left, in as many turns, and ends with the report. */
  lemma {:induction false} ChainEnds(s: State, net: Net, c: ClientId, a0: seq<Try>, r0: nat, k: nat)
    requires Inv(s) && c in s.clients && Chain(s, c, a0, r0, k) && k < Total(s.clients[c]) && net.connectState == 0
    requires |s.commands| > 0 && ConnectOf(s.commands[0], c)
    ensures
      var t, n := FailAtOnce(s, net, Total(s.clients[c]) - k), Total(s.clients[c]);
      Chain(t, c, a0, r0, n) && Over(t, c) && Reports(t.log, c) == r0 + 1
    decreases Total(s.clients[c]) - k
  {
    hide Process, Inv, Chain, ConnectOf, Over, Total;
    var n, t := Total(s.clients[c]), Process(s, net);
    HeadDispatched(s, net, c, a0, r0, k);
    if k + 1 < n {
      ChainEnds(t, net, c, a0, r0, k + 1);
    } else {
      assert FailAtOnce(s, net, 1) == FailAtOnce(t, net, 0) == t;
    }
  }

  lemma HeadDispatched(s: State, net: Net, c: ClientId, a0: seq<Try>, r0: nat, k: nat)
    requires Inv(s) && c in s.clients && Chain(s, c, a0, r0, k) && k < Total(s.clients[c]) && net.connectState == 0
    requires |s.commands| > 0 && ConnectOf(s.commands[0], c)
    ensures
      var t := Process(s, net);
      && Inv(t) && c in t.clients && Chain(t, c, a0, r0, k + 1) && Total(t.clients[c]) == Total(s.clients[c])
      && (k + 1 < Total(s.clients[c]) ==> |t.commands| > 0 && ConnectOf(t.commands[0], c))
      && (k + 1 == Total(s.clients[c]) ==> Over(t, c) && Reports(t.log, c) == r0 + 1)
  {
    ProcessKeepsInv(s, net);
    DispatchMakesAttempt(s, 0, net, c, a0, r0, k);
    assert s.commands[0] in s.commands && Sound(s, s.commands[0]);
    hide Inv, DispatchConnect, Dequeue, Expected, Attempts, Reports;
    assert FirstReady(s, net.idle, 0) == 0;
  }
}
