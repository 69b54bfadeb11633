/** First in, first out: in every run each client's ordinary commands leave the global queue in
    exactly the order in which they entered it. */
module AsyncOrder {
  import opened Bytes
  import opened CommandCodec
  import opened LinkedLists
  import opened AsyncState
  import opened AsyncInvariants

  /** Everything but CONNECT and internal DISCONNECT waits its turn. */
  predicate Ordinary(a: Command, c: ClientId) {
    a.client == c && !Urgent(a.details)
  }

  /** The ordinary commands of `c` in the queue, in queue order. */
  function Line(q: seq<Command>, c: ClientId): seq<Command> {
    if q == [] then []
    else Line(q[..|q| - 1], c) + (if Ordinary(q[|q| - 1], c) then [q[|q| - 1]] else [])
  }

  /** The ordinary commands of `c` that have entered the queue. */
  function Entered(log: seq<Event>, c: ClientId): seq<Command> {
    if log == [] then []
    else
      var e := log[|log| - 1];
      Entered(log[..|log| - 1], c) + (if e.Added? && Ordinary(e.cmd, c) then [e.cmd] else [])
  }

  /** The ordinary commands of `c` that have left it, dispatched or dropped. */
  function Left(log: seq<Event>, c: ClientId): seq<Command> {
    if log == [] then []
    else
      var e := log[|log| - 1];
      Left(log[..|log| - 1], c) + (if (e.Taken? || e.Dropped?) && Ordinary(e.cmd, c) then [e.cmd] else [])
  }

  /** The ordinary commands of `c` that have been dispatched. */
  function Dispatched(log: seq<Event>, c: ClientId): seq<Command> {
    if log == [] then []
    else
      var e := log[|log| - 1];
      Dispatched(log[..|log| - 1], c) + (if e.Taken? && Ordinary(e.cmd, c) then [e.cmd] else [])
  }

  predicate Ordered(s: State, c: ClientId) {
    Entered(s.log, c) == Left(s.log, c) + Line(s.commands, c)
  }

  // ----- the three projections distribute over concatenation -----

  lemma {:induction false} LineConcat(q: seq<Command>, r: seq<Command>, c: ClientId)
    ensures Line(q + r, c) == Line(q, c) + Line(r, c)
    decreases |r|
  {
    if r == [] {
      assert q + r == q;
    } else {
      LineConcat(q, r[..|r| - 1], c);
      assert (q + r)[..|q + r| - 1] == q + r[..|r| - 1];
    }
  }

  lemma {:induction false} EnteredConcat(log: seq<Event>, es: seq<Event>, c: ClientId)
    ensures Entered(log + es, c) == Entered(log, c) + Entered(es, c)
    decreases |es|
  {
    hide Ordinary;
    if es == [] {
      assert log + es == log;
    } else {
      EnteredConcat(log, es[..|es| - 1], c);
      assert (log + es)[..|log + es| - 1] == log + es[..|es| - 1];
    }
  }

  lemma {:induction false} LeftConcat(log: seq<Event>, es: seq<Event>, c: ClientId)
    ensures Left(log + es, c) == Left(log, c) + Left(es, c)
    decreases |es|
  {
    hide Ordinary;
    if es == [] {
      assert log + es == log;
    } else {
      LeftConcat(log, es[..|es| - 1], c);
      assert (log + es)[..|log + es| - 1] == log + es[..|es| - 1];
    }
  }

  lemma LogConcat(log: seq<Event>, es: seq<Event>, c: ClientId)
    ensures Entered(log + es, c) == Entered(log, c) + Entered(es, c)
    ensures Left(log + es, c) == Left(log, c) + Left(es, c)
  {
    EnteredConcat(log, es, c);
    LeftConcat(log, es, c);
  }

  lemma OneEvent(e: Event, c: ClientId)
    ensures Entered([e], c) == if e.Added? && Ordinary(e.cmd, c) then [e.cmd] else []
    ensures Left([e], c) == if (e.Taken? || e.Dropped?) && Ordinary(e.cmd, c) then [e.cmd] else []
  {
    assert [e][..0] == [];
  }

  lemma OneInLine(a: Command, c: ClientId)
    ensures Line([a], c) == if Ordinary(a, c) then [a] else []
  {
    assert [a][..0] == [];
  }

  /** Calls to the application leave the order alone. */
  lemma CallKeepsOrder(s: State, es: seq<Event>, c: ClientId)
    requires Ordered(s, c) && |es| <= 1
    requires forall e :: e in es ==> !e.Added? && !e.Taken? && !e.Dropped?
    ensures Ordered(Logged(s, es), c)
  {
    LogConcat(s.log, es, c);
    if es != [] {
      assert es == [es[0]];
      OneEvent(es[0], c);
    }
  }

  lemma AddKeepsOrder(s: State, cmd: Command, c: ClientId)
    requires Ordered(s, c) && cmd.client in s.clients && Representable(cmd.details)
    ensures Ordered(Add(s, cmd), c)
  {
    hide Add, Ordered, Representable, Layout;
    if Add(s, cmd).commands == s.commands {
      AddNothing(s, cmd);
    } else {
      var x := AddShape(s, cmd);
      OneMoreKeepsOrder(s, Add(s, cmd), x, c);
    }
  }

  lemma OneMoreKeepsOrder(s: State, t: State, x: Command, c: ClientId)
    requires Ordered(s, c) && t.log == s.log + [Added(x)]
    requires t.commands == if Urgent(x.details) then [x] + s.commands else s.commands + [x]
    ensures Ordered(t, c)
  {
    hide Line, Entered, Left;
    LogConcat(s.log, [Added(x)], c);
    OneEvent(Added(x), c);
    OneInLine(x, c);
    if Urgent(x.details) {
      LineConcat([x], s.commands, c);
    } else {
      LineConcat(s.commands, [x], c);
    }
  }

  lemma AddNewKeepsOrder(s: State, d: ClientId, token: int32, onSuccess: nat, onFailure: bool, details: Details,
                         c: ClientId)
    requires Ordered(s, c) && d in s.clients && Representable(details)
    ensures Ordered(AddNew(s, d, token, onSuccess, onFailure, details), c)
  {
    hide Line, Entered, Left, Add, Representable;
    AddKeepsOrder(s.(nextId := s.nextId + 1), New(s, d, token, onSuccess, onFailure, details), c);
  }

  /** The head of a client's commands is the first of its line. */
  lemma {:induction false} NoneBefore(q: seq<Command>, c: ClientId)
    requires forall a :: a in q ==> a.client != c
    ensures Line(q, c) == []
  {
    if q != [] {
      NoneBefore(q[..|q| - 1], c);
    }
  }

  lemma DequeueKeepsOrder(s: State, i: nat, c: ClientId)
    requires Ordered(s, c) && i < |s.commands| && IsHead(s.commands, i) && s.commands[i].client in s.clients
    ensures Ordered(Dequeue(s, i), c) && s.commands[i].client in Dequeue(s, i).clients
  {
    hide Line, Entered, Left;
    var q, x := s.commands, s.commands[i];
    assert q == q[..i] + ([x] + q[i + 1..]);
    LineConcat(q[..i], [x] + q[i + 1..], c);
    LineConcat([x], q[i + 1..], c);
    LineConcat(q[..i], q[i + 1..], c);
    OneInLine(x, c);
    LogConcat(s.log, [Taken(x)], c);
    OneEvent(Taken(x), c);
    if x.client == c {
      NoneBefore(q[..i], c);
    }
  }

  lemma {:induction false} PurgedLine(q: seq<Command>, d: ClientId, c: ClientId)
    ensures Line(Purged(q, d), c) == if c == d then [] else Line(q, c)
  {
    if q != [] {
      var front, x := q[..|q| - 1], q[|q| - 1];
      PurgedLine(front, d, c);
      LineConcat(Purged(front, d), [x], c);
      LineConcat(Purged(front, d), [], c);
      OneInLine(x, c);
    }
  }

  /** The removal loop drops the client's line in order and concerns nobody else's. */
  lemma {:induction false} RemovalLeaves(q: seq<Command>, d: ClientId, c: ClientId)
    ensures Left(RemovalEvents(q, d), c) == if c == d then Line(q, c) else []
    ensures Entered(RemovalEvents(q, d), c) == []
  {
    if q != [] {
      var front, x := q[..|q| - 1], q[|q| - 1];
      RemovalLeaves(front, d, c);
      OneRemoval(x, d, c);
      LogConcat(RemovalEvents(front, d), Removal(x, d), c);
    }
  }

  lemma OneRemoval(x: Command, d: ClientId, c: ClientId)
    ensures Left(Removal(x, d), c) == if c == d && Ordinary(x, c) then [x] else []
    ensures Entered(Removal(x, d), c) == []
  {
    LogConcat([Dropped(x)], [FailureCalled(x)], c);
    assert [Dropped(x)] + [FailureCalled(x)] == [Dropped(x), FailureCalled(x)];
    OneEvent(Dropped(x), c);
    OneEvent(FailureCalled(x), c);
  }

  lemma {:induction false} FailureEventsNeutral(cmds: seq<Command>, c: ClientId)
    ensures Left(FailureEvents(cmds), c) == [] && Entered(FailureEvents(cmds), c) == []
  {
    if cmds != [] {
      var front, x := cmds[..|cmds| - 1], cmds[|cmds| - 1];
      FailureEventsNeutral(front, c);
      LogConcat(FailureEvents(front), FailureCall(x), c);
      OneEvent(FailureCalled(x), c);
    }
  }

  lemma RemoveAllKeepsOrder(s: State, d: ClientId, c: ClientId)
    requires Ordered(s, c) && d in s.clients
    ensures Ordered(RemoveAll(s, d), c)
  {
    hide Line, Entered, Left, Purged, RemovalEvents, FailureEvents;
    var fs, es := FailureEvents(s.clients[d].responses), RemovalEvents(s.commands, d);
    LogConcat(s.log, fs + es, c);
    LogConcat(fs, es, c);
    FailureEventsNeutral(s.clients[d].responses, c);
    PurgedLine(s.commands, d, c);
    RemovalLeaves(s.commands, d, c);
  }

  lemma DestroyKeepsOrder(s: State, d: ClientId, c: ClientId)
    requires Ordered(s, c) && d in s.clients
    ensures Ordered(Destroy(s, d), c)
  {
    hide Line, Entered, Left, Purged, RemovalEvents, FailureEvents;
    RemoveAllKeepsOrder(s, d, c);
  }

  lemma CloseSessionKeepsOrder(s: State, d: ClientId, c: ClientId)
    requires Ordered(s, c) && d in s.clients
    ensures Ordered(CloseSession(s, d), c) && d in CloseSession(s, d).clients
  {
    if s.clients[d].cleanSession {
      CleanSessionKeepsOrder(CloseOnly(s, d), d, c);
    }
  }

  lemma CleanSessionKeepsOrder(s: State, d: ClientId, c: ClientId)
    requires Ordered(s, c) && d in s.clients
    ensures Ordered(CleanSession(s, d), c) && d in CleanSession(s, d).clients
  {
    RemoveAllKeepsOrder(WithClient(s, d, Cleaned(s.clients[d])), d, c);
  }

  lemma DisconnectCallKeepsOrder(s: State, d: ClientId, internal: bool, onSuccess: nat, onFailure: bool, c: ClientId)
    requires Ordered(s, c) && d in s.clients
    ensures Ordered(DisconnectCall(s, d, internal, onSuccess, onFailure), c)
  {
    var s1 := if internal then s else WithClient(s, d, s.clients[d].(shouldBeConnected := false));
    hide Line, Entered, Left, AddNew;
    if s.clients[d].connected {
      AddNewKeepsOrder(s1, d, 0, onSuccess, onFailure, Disconnect(internal), c);
    }
  }

  lemma NextOrCloseKeepsOrder(s: State, d: ClientId, c: ClientId)
    requires Ordered(s, c) && d in s.clients
    ensures Ordered(NextOrClose(s, d), c)
  {
    var cl := s.clients[d];
    hide Line, Entered, Left, AddNew, CloseSession;
    if MoreToTry(cl.connect.currentURI, cl.connect.version, cl) {
      AddNewKeepsOrder(CloseOnly(s, d), d, 0, cl.connect.onSuccess, cl.connect.onFailure,
                       NextOptions(cl.connect.currentURI, cl.connect.version, cl), c);
    } else {
      CloseSessionKeepsOrder(s, d, c);
      CallKeepsOrder(CloseSession(s, d), if cl.connect.onFailure then [ConnectFailed(d)] else [], c);
    }
  }

  lemma CheckDisconnectKeepsOrder(s: State, cmd: Command, elapsed: bool, c: ClientId)
    requires Ordered(s, c) && cmd.client in s.clients && cmd.details.Disconnect?
    ensures Ordered(CheckDisconnect(s, cmd, elapsed), c) && cmd.client in CheckDisconnect(s, cmd, elapsed).clients
  {
    hide Line, Entered, Left, CloseSession;
    CloseSessionKeepsOrder(s, cmd.client, c);
    CallKeepsOrder(CloseSession(s, cmd.client), if cmd.details.internal then [] else SuccessCall(cmd), c);
  }

  lemma DispatchConnectKeepsOrder(s: State, cmd: Command, net: Net, c: ClientId)
    requires Ordered(s, c) && cmd.client in s.clients && cmd.details.Connect?
    ensures Ordered(DispatchConnect(s, cmd, net), c)
  {
    hide Line, Entered, Left, Add, MoreToTry, AttemptVersion;
    var d, cl, uri := cmd.client, s.clients[cmd.client], cmd.details.currentURI;
    var v := AttemptVersion(cmd.details.version, cl);
    var s1 := Logged(s, [Attempt(d, uri, v)]);
    CallKeepsOrder(s, [Attempt(d, uri, v)], c);
    var s2 := WithClient(s1, d, cl.(shouldBeConnected := true));
    AddKeepsOrder(s2, cmd.(details := NextOptions(uri, v, cl)), c);
    CallKeepsOrder(s2, if cmd.onFailure then [ConnectFailed(d)] else [], c);
  }

  lemma DispatchRequestKeepsOrder(s: State, cmd: Command, net: Net, c: ClientId)
    requires Ordered(s, c) && cmd.client in s.clients && Persistable(cmd.details)
    ensures Ordered(DispatchRequest(s, cmd, net), c)
  {
    hide Line, Entered, Left, DisconnectCall;
    var s1 := WithClient(s, cmd.client, Sending(s.clients[cmd.client], cmd));
    CallKeepsOrder(s, SuccessCall(cmd), c);
    DisconnectCallKeepsOrder(s1, cmd.client, true, 0, false, c);
    CallKeepsOrder(DisconnectCall(s1, cmd.client, true, 0, false), FailureCall(cmd), c);
  }

  lemma DispatchDisconnectKeepsOrder(s: State, cmd: Command, net: Net, c: ClientId)
    requires Ordered(s, c) && cmd.client in s.clients && cmd.details.Disconnect?
    ensures Ordered(DispatchDisconnect(s, cmd, net), c)
  {
    hide Line, Entered, Left, CheckDisconnect;
    var s1 := WithClient(s, cmd.client, s.clients[cmd.client].(connectState := -2));
    CheckDisconnectKeepsOrder(s1, cmd, net.elapsed, c);
  }

  lemma DispatchKeepsOrder(s: State, cmd: Command, net: Net, c: ClientId)
    requires Ordered(s, c) && cmd.client in s.clients
    ensures Ordered(Dispatch(s, cmd, net), c)
  {
    hide Ordered, DispatchConnect, DispatchDisconnect, DispatchRequest;
    match cmd.details {
      case Connect(_, _) => DispatchConnectKeepsOrder(s, cmd, net, c);
      case Disconnect(_) => DispatchDisconnectKeepsOrder(s, cmd, net, c);
      case _ => DispatchRequestKeepsOrder(s, cmd, net, c);
    }
  }

  lemma ProcessKeepsOrder(s: State, net: Net, c: ClientId)
    requires Ordered(s, c)
    ensures Ordered(Process(s, net), c)
  {
    hide Ordered, Dequeue, Dispatch;
    var i := FirstReady(s, net.idle, 0);
    if i >= 0 {
      DequeueKeepsOrder(s, i, c);
      DispatchKeepsOrder(Dequeue(s, i), s.commands[i], net, c);
    }
  }

  lemma WriteCompleteKeepsOrder(s: State, d: ClientId, c: ClientId)
    requires Ordered(s, c) && d in s.clients && WritePending(s.clients[d])
    ensures Ordered(WriteComplete(s, d), c)
  {
    hide Line, Entered, Left;
    CallKeepsOrder(s, SuccessCall(s.clients[d].pendingWrite.value), c);
  }

  lemma RequestKeepsOrder(s: State, d: ClientId, details: Details, onSuccess: nat, onFailure: bool, c: ClientId)
    requires Ordered(s, c) && d in s.clients && s.clients[d].msgID <= MAX_MSG_ID
    requires Persistable(details) && Representable(details)
    ensures Ordered(Request(s, d, details, onSuccess, onFailure).0, c)
  {
    hide Representable, Add, FirstFree, Line, Entered, Left, QosInRange, TakenIds, Buffered, IdAfter;
    var (s1, id) := if NeedsToken(details) then AssignMsgId(s, d) else (s, 0);
    AddKeepsOrder(s1.(nextId := s1.nextId + 1), New(s1, d, id, onSuccess, onFailure, details), c);
  }

  lemma AckKeepsOrder(s: State, d: ClientId, id: int, refused: bool, flowDone: bool, c: ClientId)
    requires Ordered(s, c) && d in s.clients
    ensures Ordered(Ack(s, d, id, refused, flowDone), c)
  {
    var i := FindResponse(s.clients[d].responses, id);
    if i >= 0 {
      var cmd := s.clients[d].responses[i];
      var t := Ack(s, d, id, refused, flowDone);
      CallKeepsOrder(t.(log := s.log), if refused then FailureCall(cmd) else SuccessCall(cmd), c);
    }
  }

  lemma ConnackKeepsOrder(s: State, d: ClientId, accepted: bool, c: ClientId)
    requires Ordered(s, c) && d in s.clients
    ensures Ordered(Connack(s, d, accepted), c)
  {
    hide Line, Entered, Left, CleanSession, NextOrClose;
    var cl := s.clients[d];
    var s1 := WithClient(s, d, cl.(connected := true, connectState := 0));
    CleanSessionKeepsOrder(s1, d, c);
    var s2 := if cl.cleanSession then CleanSession(s1, d) else s1;
    CallKeepsOrder(s2, if cl.connect.onSuccess != 0 then [ConnectSucceeded(d)] else [], c);
    NextOrCloseKeepsOrder(s, d, c);
  }

  lemma SocketErrorKeepsOrder(s: State, d: ClientId, c: ClientId)
    requires Ordered(s, c) && d in s.clients
    ensures Ordered(SocketError(s, d), c)
  {
    hide Line, Entered, Left, DisconnectCall, NextOrClose;
    DisconnectCallKeepsOrder(s, d, true, 0, false, c);
    NextOrCloseKeepsOrder(s, d, c);
  }

  lemma ConnectCallKeepsOrder(s: State, d: ClientId, version: int, cleanSession: bool, uriCount: nat, onSuccess: nat,
                              onFailure: bool, c: ClientId)
    requires Ordered(s, c) && d in s.clients
    ensures Ordered(ConnectCall(s, d, version, cleanSession, uriCount, onSuccess, onFailure), c)
  {
    hide Line, Entered, Left, Add;
    var s1 := WithClient(s, d, Configured(s.clients[d], version, cleanSession, uriCount, onSuccess, onFailure));
    AddNewKeepsOrder(s1, d, 0, onSuccess, onFailure, Connect(0, MQTTVERSION_DEFAULT), c);
  }

  lemma ReconnectKeepsOrder(s: State, d: ClientId, c: ClientId)
    requires Ordered(s, c) && d in s.clients
    ensures Ordered(Reconnect(s, d), c)
  {
    hide Ordered, AddNew;
    var cl := s.clients[d];
    AddNewKeepsOrder(s, d, 0, cl.connect.onSuccess, cl.connect.onFailure, SavedOptions(cl), c);
  }

  lemma CreateKeepsOrder(s: State, d: ClientId, store: map<nat, seq<byte>>, keys: seq<nat>, outbound: seq<int>,
                         buffering: Option<Buffering>, c: ClientId)
    requires Ordered(s, c) && d !in s.clients && SoundStore(store) && forall k :: k in keys ==> k in store
    requires forall a :: a in s.commands ==> a.client in s.clients
    ensures Ordered(Create(s, d, store, keys, outbound, buffering), c)
  {
    hide Line, Entered, Left, RestoreKeys, RestorePoint, SoundStore;
    RestoreKeysKeepOrder(WithClient(s, d, FreshClient(true, store, outbound, buffering)), d, keys, c);
  }

  /** No command of `d` stands at or behind the place where restored commands go in. */
  ghost predicate AheadOfRestorePoint(q: seq<Command>, d: ClientId) {
    forall a :: a in q[RestorePoint(q)..] ==> a.client != d
  }

  lemma RestorePointMoves(q: seq<Command>, x: Command)
    requires SortKey(x) == 0
    ensures var k := RestorePoint(q); RestorePoint(q[..k] + [x] + q[k..]) == k + 1
  {
    var k := RestorePoint(q);
    var r := q[..k] + [x] + q[k..];
    assert forall j :: 0 <= j < k ==> r[j] == q[j];
    assert r[k] == x && (k < |q| ==> r[k + 1] == q[k]);
  }

  lemma LineInsert(q: seq<Command>, k: nat, x: Command, c: ClientId)
    requires k <= |q|
    ensures Line(q[..k] + [x] + q[k..], c) == Line(q[..k], c) + (if Ordinary(x, c) then [x] else []) + Line(q[k..], c)
    ensures Line(q, c) == Line(q[..k], c) + Line(q[k..], c)
  {
    hide Line;
    LineConcat(q[..k] + [x], q[k..], c);
    LineConcat(q[..k], [x], c);
    OneInLine(x, c);
    assert q == q[..k] + q[k..];
    LineConcat(q[..k], q[k..], c);
  }

  lemma RestoreOneShape(s: State, d: ClientId, key: nat)
    requires d in s.clients && key in s.clients[d].store && SoundEntry(s.clients[d].store[key])
    ensures
      var t, x, k := RestoreOne(s, d, key), FromStore(s, d, key), RestorePoint(s.commands);
      && t.commands == s.commands[..k] + [x] + s.commands[k..] && t.log == s.log + [Added(x)]
      && SortKey(x) == 0 && x.seqno == key && forall c :: Ordinary(x, c) <==> c == d
  {
    hide Restore, RestorePoint;
  }

  /** A restored command is inserted in mid-queue, but behind every earlier one of its client: it
      comes last in that client's line and changes no other. */
  lemma RestoreOneInLine(s: State, d: ClientId, key: nat, c: ClientId)
    requires d in s.clients && key in s.clients[d].store && SoundEntry(s.clients[d].store[key])
    requires AheadOfRestorePoint(s.commands, d)
    ensures
      var t, x := RestoreOne(s, d, key), FromStore(s, d, key);
      && Ordinary(x, d) && x.seqno == key && t.log == s.log + [Added(x)]
      && Line(t.commands, c) == Line(s.commands, c) + (if c == d then [x] else [])
      && AheadOfRestorePoint(t.commands, d)
  {
    hide Line, RestorePoint, SortKey, RestoreOne, FromStore, Ordinary, Restore, Layout, Representable;
    var t, q, k, x := RestoreOne(s, d, key), s.commands, RestorePoint(s.commands), FromStore(s, d, key);
    RestoreOneShape(s, d, key);
    RestorePointMoves(q, x);
    assert t.commands[k + 1..] == q[k..];
    LineInsert(q, k, x, c);
    if c == d {
      NoneBefore(q[k..], c);
    }
  }

  lemma RestoreOneKeepsOrder(s: State, d: ClientId, key: nat, c: ClientId)
    requires Ordered(s, c) && d in s.clients && key in s.clients[d].store && SoundEntry(s.clients[d].store[key])
    requires AheadOfRestorePoint(s.commands, d)
    ensures Ordered(RestoreOne(s, d, key), c) && AheadOfRestorePoint(RestoreOne(s, d, key).commands, d)
  {
    hide Line, Entered, Left, RestorePoint, RestoreOne, FromStore, Ordinary, Restore, Layout, Representable;
    var x := FromStore(s, d, key);
    RestoreOneShape(s, d, key);
    RestoreOneInLine(s, d, key, c);
    LogConcat(s.log, [Added(x)], c);
    OneEvent(Added(x), c);
  }

  lemma {:induction false} RestoreKeysKeepOrder(s: State, d: ClientId, keys: seq<nat>, c: ClientId)
    requires Ordered(s, c) && d in s.clients && SoundStore(s.clients[d].store)
    requires forall k :: k in keys ==> k in s.clients[d].store
    requires AheadOfRestorePoint(s.commands, d)
    ensures Ordered(RestoreKeys(s, d, keys), c) && AheadOfRestorePoint(RestoreKeys(s, d, keys).commands, d)
  {
    if keys != [] {
      RestoreKeysKeepOrder(s, d, keys[..|keys| - 1], c);
      RestoreOneKeepsOrder(RestoreKeys(s, d, keys[..|keys| - 1]), d, keys[|keys| - 1], c);
    }
  }

  lemma StepKeepsOrder(s: State, step: Step, c: ClientId)
    requires Ordered(s, c) && Enabled(s, step)
    requires forall a :: a in s.commands ==> a.client in s.clients
    ensures Ordered(Apply(s, step), c)
  {
    hide Line, Entered, Left, SoundStore, Representable, Persistable, TakenIds, Diverges, NeedsId, WritePending;
    hide Create, FreshClient, Destroy, ConnectCall, Reconnect, DisconnectCall, Request, Process, WriteComplete;
    hide Ack, Connack, SocketError, NextOrClose, CheckDisconnect;
    match step {
      case DoCreate(d, store, keys, outbound, buffering) =>
        CreateKeepsOrder(s, d, store, keys, outbound, buffering, c);
      case DoCreateVolatile(_, _) =>
      case DoDestroy(d) => DestroyKeepsOrder(s, d, c);
      case DoConnect(d, version, cleanSession, uriCount, onSuccess, onFailure) =>
        ConnectCallKeepsOrder(s, d, version, cleanSession, uriCount, onSuccess, onFailure, c);
      case DoReconnect(d) => ReconnectKeepsOrder(s, d, c);
      case DoDisconnect(d, internal, onSuccess, onFailure) =>
        DisconnectCallKeepsOrder(s, d, internal, onSuccess, onFailure, c);
      case DoRequest(d, details, onSuccess, onFailure) => RequestKeepsOrder(s, d, details, onSuccess, onFailure, c);
      case DoProcess(net) => ProcessKeepsOrder(s, net, c);
      case DoWriteComplete(d) => WriteCompleteKeepsOrder(s, d, c);
      case DoAck(d, id, refused, flowDone) => AckKeepsOrder(s, d, id, refused, flowDone, c);
      case DoConnack(d, accepted) => ConnackKeepsOrder(s, d, accepted, c);
      case DoSocketError(d) => SocketErrorKeepsOrder(s, d, c);
      case DoConnectTimeout(d) => NextOrCloseKeepsOrder(s, d, c);
      case DoDisconnectTimer(d, elapsed) => CheckDisconnectKeepsOrder(s, s.clients[d].disconnect.value, elapsed, c);
    }
  }

  // ----- over whole runs -----

  /** In every run, whatever the other clients do and however often sessions are cleaned: what has
      entered client c's line is what has left it followed by what still waits, in one order. */
  lemma {:induction false} RunIsFifo(steps: seq<Step>, trace: seq<State>, i: nat, c: ClientId)
    requires IsRun(Empty, steps, trace) && i < |trace|
    ensures Ordered(trace[i], c)
  {
    if i > 0 {
      RunIsFifo(steps, trace, i - 1, c);
      RunKeepsInv(steps, trace, i - 1);
      StepKeepsOrder(trace[i - 1], steps[i - 1], c);
    }
  }

  /** While nothing of c's has been dropped, its dispatches are a prefix of its additions. */
  lemma DispatchedInOrder(steps: seq<Step>, trace: seq<State>, i: nat, c: ClientId)
    requires IsRun(Empty, steps, trace) && i < |trace|
    requires forall e :: e in trace[i].log && e.Dropped? ==> e.cmd.client != c
    ensures Dispatched(trace[i].log, c) <= Entered(trace[i].log, c)
    ensures Entered(trace[i].log, c) == Dispatched(trace[i].log, c) + Line(trace[i].commands, c)
  {
    RunIsFifo(steps, trace, i, c);
    NothingDropped(trace[i].log, c);
  }

  lemma {:induction false} NothingDropped(log: seq<Event>, c: ClientId)
    requires forall e :: e in log && e.Dropped? ==> e.cmd.client != c
    ensures Left(log, c) == Dispatched(log, c)
  {
    if log != [] {
      assert log[|log| - 1] in log;
      NothingDropped(log[..|log| - 1], c);
    }
  }
}
