/** When the send thread sends: the conditions of MQTTAsync_processCommand written out, for every turn of
    every run. */
module AsyncDispatch {
  import opened Bytes
  import opened CommandCodec
  import opened LinkedLists
  import opened AsyncState
  import opened AsyncInvariants

  /** The command a step has dispatched: the first thing a turn of the send thread logs. */
  function DispatchedBy(s: State, step: Step, t: State): Option<Command> {
    if step.DoProcess? && |s.log| < |t.log| && t.log[|s.log|].Taken? then Some(t.log[|s.log|].cmd) else None
  }

  predicate IsRequest(d: Details) {
    d.Subscribe? || d.Unsubscribe? || d.Publish?
  }

  /** No other command of the same client stands before entry `i`. */
  predicate FirstOfItsClient(q: seq<Command>, i: nat)
    requires i < |q|
  {
    forall j :: 0 <= j < i ==> q[j].client != q[i].client
  }

  /** What keeps a request from being sent: its client is not connected, or in the middle of connecting
      or disconnecting, or its socket has a write pending, or no message id is left for it. */
  predicate Blocked(s: State, x: Command, idle: set<ClientId>)
    requires x.client in s.clients
  {
    var cl := s.clients[x.client];
    IsRequest(x.details)
    && (!cl.connected || cl.connectState != 0 || x.client !in idle || |cl.outbound| >= 65534)
  }

  /** The turn sends entry `i`: it heads its client's commands and is not blocked, and every head before
      it is. */
  predicate Sends(s: State, idle: set<ClientId>, i: nat)
    requires i < |s.commands| && forall a :: a in s.commands ==> a.client in s.clients
  {
    && FirstOfItsClient(s.commands, i) && !Blocked(s, s.commands[i], idle)
    && forall j :: 0 <= j < i && FirstOfItsClient(s.commands, j) ==> Blocked(s, s.commands[j], idle)
  }

  lemma ClientsAreThere(s: State)
    requires Inv(s)
    ensures forall a :: a in s.commands ==> a.client in s.clients
  {
    assert forall a :: a in s.commands ==> Sound(s, a);
  }

  lemma LogGoesOn(s: State, x: Command, net: Net)
    requires x.client in s.clients
    ensures s.log <= Dispatch(s, x, net).log
  {
    hide Add, AddNew, CloseSession, MoreToTry, AttemptVersion;
    match x.details {
      case Connect(uri, version) =>
        var cl := s.clients[x.client];
        var v := AttemptVersion(version, cl);
        var s1 := Logged(s, [Attempt(x.client, uri, v)]);
        AddLog(WithClient(s1, x.client, cl.(shouldBeConnected := true)), x.(details := NextOptions(uri, v, cl)));
      case Disconnect(_) =>
        CloseSessionLog(WithClient(s, x.client, s.clients[x.client].(connectState := -2)), x.client);
      case _ =>
        DisconnectCallLog(WithClient(s, x.client, Sending(s.clients[x.client], x)), x.client);
    }
  }

  lemma AddLog(s: State, cmd: Command)
    requires cmd.client in s.clients && Representable(cmd.details)
    ensures s.log <= Add(s, cmd).log
  {
  }

  lemma DisconnectCallLog(s: State, c: ClientId)
    requires c in s.clients
    ensures s.log <= DisconnectCall(s, c, true, 0, false).log
  {
    hide Add;
    AddLog(s.(nextId := s.nextId + 1), New(s, c, 0, 0, false, Disconnect(true)));
  }

  lemma CloseSessionLog(s: State, c: ClientId)
    requires c in s.clients
    ensures s.log <= CloseSession(s, c).log
  {
    hide FailureEvents, RemovalEvents, Purged;
  }

  /** A turn either leaves the state alone, with the head of every client's commands blocked, or sends
      the first head that is not. */
  lemma TurnSends(s: State, net: Net)
    requires Inv(s)
    ensures forall a :: a in s.commands ==> a.client in s.clients
    ensures
      var t, i := Process(s, net), FirstReady(s, net.idle, 0);
      if i < 0 then t == s && forall j :: 0 <= j < |s.commands| && FirstOfItsClient(s.commands, j) ==>
                                Blocked(s, s.commands[j], net.idle)
      else Sends(s, net.idle, i) && DispatchedBy(s, DoProcess(net), t) == Some(s.commands[i])
           && t == Dispatch(Dequeue(s, i), s.commands[i], net)
           && s.log + [Taken(s.commands[i])] <= t.log
  {
    hide Inv, FirstReady, Blocked, FirstOfItsClient, Sends, DispatchedBy, Dispatch, Dequeue;
    ClientsAreThere(s);
    FirstReadyIsFirst(s, net.idle);
    var i := FirstReady(s, net.idle, 0);
    if i >= 0 {
      assert s.commands[i] in s.commands;
      TurnLogs(s, i, net);
    }
  }

  /** The search for a command to send, in these terms. */
  lemma FirstReadyIsFirst(s: State, idle: set<ClientId>)
    requires forall a :: a in s.commands ==> a.client in s.clients
    ensures
      var i := FirstReady(s, idle, 0);
      if i < 0 then forall j :: 0 <= j < |s.commands| && FirstOfItsClient(s.commands, j) ==>
                      Blocked(s, s.commands[j], idle)
      else Sends(s, idle, i)
  {
    HeadsAreReady(s, idle);
    hide FirstOfItsClient, IsHead, Blocked, Ready;
    var i := FirstReady(s, idle, 0);
    hide FirstReady;
  }

  lemma TurnLogs(s: State, i: nat, net: Net)
    requires i < |s.commands| && s.commands[i].client in s.clients
    ensures s.commands[i].client in Dequeue(s, i).clients
    ensures
      var t := Dispatch(Dequeue(s, i), s.commands[i], net);
      s.log + [Taken(s.commands[i])] <= t.log && DispatchedBy(s, DoProcess(net), t) == Some(s.commands[i])
  {
    hide Dispatch;
    LogGoesOn(Dequeue(s, i), s.commands[i], net);
    var l := Dispatch(Dequeue(s, i), s.commands[i], net).log;
    assert l[|s.log|] == (s.log + [Taken(s.commands[i])])[|s.log|];
  }

  lemma HeadsAreReady(s: State, idle: set<ClientId>)
    requires forall a :: a in s.commands ==> a.client in s.clients
    ensures forall j :: 0 <= j < |s.commands| ==>
              && (IsHead(s.commands, j) <==> FirstOfItsClient(s.commands, j))
              && (Ready(s, s.commands[j], idle) <==> !Blocked(s, s.commands[j], idle))
  {
    forall j | 0 <= j < |s.commands|
      ensures IsHead(s.commands, j) <==> FirstOfItsClient(s.commands, j)
      ensures Ready(s, s.commands[j], idle) <==> !Blocked(s, s.commands[j], idle)
    {
      assert s.commands[j] in s.commands;
    }
  }

  /** A turn changes nothing if and only if every head is a request whose client is not connected, is
      connecting or disconnecting, has a write pending, or has no message id left. */
  lemma TurnIsIdleIff(s: State, net: Net)
    requires Inv(s)
    ensures forall a :: a in s.commands ==> a.client in s.clients
    ensures Process(s, net) == s <==>
            forall i :: 0 <= i < |s.commands| && FirstOfItsClient(s.commands, i) ==>
              var x := s.commands[i];
              var cl := s.clients[x.client];
              && (x.details.Subscribe? || x.details.Unsubscribe? || x.details.Publish?)
              && (!cl.connected || cl.connectState != 0 || x.client !in net.idle || |cl.outbound| >= 65534)
  {
    TurnSends(s, net);
    hide FirstReady, Process, Dispatch, Dequeue, Inv;
    if Process(s, net) == s {
      assert FirstReady(s, net.idle, 0) < 0;
    }
    forall i | 0 <= i < |s.commands| && FirstOfItsClient(s.commands, i)
      ensures s.commands[i].client in s.clients
    {
      assert s.commands[i] in s.commands;
    }
  }

  /** In every run: what a turn dispatches stood in the queue as the first of its client's commands, and
      a request is dispatched only for a client that is connected and idle, whose socket has no write
      pending, and that has fewer than 65534 publications in flight. */
  lemma DispatchGuard(steps: seq<Step>, trace: seq<State>, j: nat, x: Command)
    requires IsRun(Empty, steps, trace) && j < |steps|
    requires Taken(x) in trace[j + 1].log && Taken(x) !in trace[j].log
    requires steps[j].DoProcess?
    ensures DispatchedBy(trace[j], steps[j], trace[j + 1]) == Some(x)
    ensures exists i :: 0 <= i < |trace[j].commands| && trace[j].commands[i] == x
                        && FirstOfItsClient(trace[j].commands, i)
    ensures x.client in trace[j].clients
    ensures IsRequest(x.details) ==>
              var cl := trace[j].clients[x.client];
              cl.connected && cl.connectState == 0 && x.client in steps[j].net.idle && |cl.outbound| < 65534
  {
    RunKeepsInv(steps, trace, j);
    var s, net := trace[j], steps[j].net;
    TurnSends(s, net);
    hide Inv, Process, FirstReady;
    var i := FirstReady(s, net.idle, 0);
    if i >= 0 {
      OnlyOneTaken(s, i, net, x);
      assert s.commands[i] == x && s.commands[i] in s.commands;
    }
  }

  lemma OnlyOneTaken(s: State, i: nat, net: Net, x: Command)
    requires i < |s.commands| && s.commands[i].client in s.clients
    requires Taken(x) in Dispatch(Dequeue(s, i), s.commands[i], net).log && Taken(x) !in s.log
    ensures x == s.commands[i]
  {
    NothingTaken(Dequeue(s, i), s.commands[i], net, x);
  }

  lemma NothingTaken(s: State, y: Command, net: Net, x: Command)
    requires y.client in s.clients && Taken(x) in Dispatch(s, y, net).log
    ensures Taken(x) in s.log
  {
    hide Add, AddNew, CloseSession, MoreToTry, AttemptVersion;
    match y.details {
      case Connect(uri, version) =>
        var cl := s.clients[y.client];
        var v := AttemptVersion(version, cl);
        var s1 := Logged(s, [Attempt(y.client, uri, v)]);
        AddTakesNothing(WithClient(s1, y.client, cl.(shouldBeConnected := true)),
                        y.(details := NextOptions(uri, v, cl)), x);
      case Disconnect(_) =>
        CloseTakesNothing(WithClient(s, y.client, s.clients[y.client].(connectState := -2)), y.client, x);
      case _ =>
        var s1 := WithClient(s, y.client, Sending(s.clients[y.client], y));
        AddNewTakesNothing(s1, y.client, x);
    }
  }

  lemma AddTakesNothing(s: State, cmd: Command, x: Command)
    requires cmd.client in s.clients && Representable(cmd.details)
    ensures Taken(x) in Add(s, cmd).log <==> Taken(x) in s.log
  {
  }

  lemma AddNewTakesNothing(s: State, c: ClientId, x: Command)
    requires c in s.clients
    ensures Taken(x) in AddNew(s, c, 0, 0, false, Disconnect(true)).log <==> Taken(x) in s.log
  {
    AddTakesNothing(s.(nextId := s.nextId + 1), New(s, c, 0, 0, false, Disconnect(true)), x);
  }

  lemma CloseTakesNothing(s: State, c: ClientId, x: Command)
    requires c in s.clients
    ensures Taken(x) in CloseSession(s, c).log <==> Taken(x) in s.log
  {
    hide Purged;
    NoneTakenInFailures(s.clients[c].responses, x);
    NoneTakenInRemovals(s.commands, c, x);
  }

  lemma {:induction false} NoneTakenInFailures(cmds: seq<Command>, x: Command)
    ensures Taken(x) !in FailureEvents(cmds)
  {
    if cmds != [] {
      NoneTakenInFailures(cmds[..|cmds| - 1], x);
    }
  }

  lemma {:induction false} NoneTakenInRemovals(q: seq<Command>, c: ClientId, x: Command)
    ensures Taken(x) !in RemovalEvents(q, c)
  {
    if q != [] {
      NoneTakenInRemovals(q[..|q| - 1], c, x);
    }
  }
}
