/** The engine in its own form: the command queue is the linked list of LinkedList.c, clients are
    updated in place, and each operation of MQTTAsync.c is a method that computes one function of
    the step machine in AsyncState. */
module Engines {
  import opened Bytes
  import opened CommandCodec
  import opened LinkedLists
  import opened AsyncState
  import opened AsyncInvariants
  import opened AsyncDispatch

  class Engine {
    const commands: List<Command>
    var clients: map<ClientId, Client>
    var nextId: nat
    var log: seq<Event>

    /** The state of the step machine that the engine is in. */
    ghost function Now(): State
      reads this, commands
    {
      State(commands.Contents, clients, nextId, log)
    }

    ghost predicate Valid()
      reads this, commands, commands.Nodes
    {
      commands.Valid() && Inv(Now())
    }

    constructor ()
      ensures Valid() && Now() == Empty && fresh(commands) && commands.Nodes == []
    {
      commands := new List<Command>();
      clients, nextId, log := map[], 0, [];
    }

    // ----- the queue -----

    /** MQTTAsync_addCommand */
    method AddCommand(cmd: Command)
      requires commands.Valid() && cmd.client in clients && Representable(cmd.details)
      modifies this`clients, this`log, commands, commands.Nodes
      ensures commands.Valid() && commands.Grown() && Now() == Add(old(Now()), cmd)
    {
      hide Layout, Representable, List.Valid, List.Linked;
      if Urgent(cmd.details) {
        commands.Position(0);
        if commands.first != null && commands.first.content.client == cmd.client
           && SameType(commands.first.content.details, cmd.details) {
          return;  // ignore a duplicate connect or disconnect command
        }
        commands.Insert(cmd, commands.first, 0);
        log := log + [Added(cmd)];
        assert commands.Contents == [cmd] + old(commands.Contents);
      } else {
        AppendCommand(cmd);
      }
    }

    /** The part of addCommand for commands that wait their turn. */
    method AppendCommand(cmd: Command)
      requires commands.Valid() && cmd.client in clients && Representable(cmd.details) && !Urgent(cmd.details)
      modifies this`clients, this`log, commands, commands.Nodes
      ensures commands.Valid() && commands.Grown() && Now() == Add(old(Now()), cmd)
    {
      hide Layout, Representable, List.Valid, List.Linked;
      var cl := clients[cmd.client];
      var queued := cmd;
      if cl.persistent {
        var bufs, nbufs := PersistCommand(cmd.token, cmd.details);
        if nbufs > 0 {
          queued := cmd.(seqno := cl.commandSeqno + 1);
          clients := clients[cmd.client := cl.(commandSeqno := cl.commandSeqno + 1,
                                               store := cl.store[cl.commandSeqno + 1 := Concat(bufs)])];
        }
      }
      commands.Append(queued);
      log := log + [Added(queued)];
    }

    /** Allocates a command and adds it. */
    method AddNewCommand(c: ClientId, token: int32, onSuccess: nat, onFailure: bool, d: Details)
      requires commands.Valid() && c in clients && Representable(d)
      modifies this, commands, commands.Nodes
      ensures commands.Valid() && commands.Grown()
      ensures Now() == AddNew(old(Now()), c, token, onSuccess, onFailure, d)
    {
      var cmd := Command(nextId, c, token, onSuccess, onFailure, 0, d);
      nextId := nextId + 1;
      AddCommand(cmd);
    }

    /** ListDetach of the command at index `i`, found by its address. */
    method Detach(cmd: Command, ghost i: nat)
      requires commands.Valid() && DistinctIds(commands.Contents)
      requires i < |commands.Contents| && commands.Contents[i] == cmd
      modifies commands, commands.Nodes
      ensures commands.Valid() && commands.Grown()
      ensures commands.Contents == Without(old(commands.Contents), i)
      ensures commands.At(i) == old(commands.At(i + 1))
      ensures forall j {:trigger commands.Nodes[j]} :: 0 <= j < |commands.Nodes| ==>
                commands.Nodes[j] in old(commands.Nodes)
    {
      var isCmd := (x: Command) => x.id == cmd.id;
      HitUnique(commands.Contents, commands.Cursor, isCmd, i);
      var removed := commands.Unlink(isCmd);
    }

    // ----- cleaning up -----

    /** MQTTAsync_removeResponsesAndCommands: deletes from the queue while iterating over it with
        one element of look-ahead. */
    method RemoveResponsesAndCommands(c: ClientId)
      requires commands.Valid() && c in clients && DistinctIds(commands.Contents)
      modifies this`clients, this`log, commands, commands.Nodes
      ensures commands.Valid() && commands.Grown() && Now() == RemoveAll(old(Now()), c)
    {
      hide List.Valid, List.Linked, DistinctIds, Purged, RemovalEvents, FailureEvents;
      CallFailures(clients[c].responses);
      clients := clients[c := clients[c].(responses := [])];
      RemoveCommands(c);
    }

    /** The first loop of removeResponsesAndCommands. */
    method CallFailures(responses: seq<Command>)
      modifies this`log
      ensures log == old(log) + FailureEvents(responses)
    {
      for i := 0 to |responses|
        invariant log == old(log) + FailureEvents(responses[..i])
      {
        assert responses[..i + 1][..i] == responses[..i];
        log := log + FailureCall(responses[i]);
      }
      assert responses[..|responses|] == responses;
    }

    /** The look-ahead loop of removeResponsesAndCommands. */
    method RemoveCommands(c: ClientId)
      requires commands.Valid() && DistinctIds(commands.Contents)
      modifies this`log, commands, commands.Nodes
      ensures commands.Valid()
      ensures forall i {:trigger commands.Nodes[i]} :: 0 <= i < |commands.Nodes| ==>
                commands.Nodes[i] in old(commands.Nodes)
      ensures commands.Contents == Purged(old(commands.Contents), c)
      ensures log == old(log) + RemovalEvents(old(commands.Contents), c)
    {
      hide *;
      ghost var q, log1, k := commands.Contents, log, 0;
      StartRemoving(c);
      var current := commands.NextElement(null);
      RemovingFacts(q, 0, c, log1);
      var next := commands.NextElement(current);
      while current != null
        invariant commands.Valid() && k <= |q| && Removing(q, k, c, log1)
        invariant forall i {:trigger commands.Nodes[i]} :: 0 <= i < |commands.Nodes| ==>
                    commands.Nodes[i] in old(commands.Nodes)
        invariant current == commands.At(Kept(q, k, c))
        invariant current != null ==> next == commands.At(Kept(q, k, c) + 1)
        decreases |q| - k
      {
        RemovingFacts(q, k, c, log1);
        RemoveIfOwned(current.content, c, q, k, log1);
        k := k + 1;
        RemovingFacts(q, k, c, log1);
        current := next;
        next := commands.NextElement(next);
      }
      RemovingFacts(q, k, c, log1);
    }

    lemma StartRemoving(c: ClientId)
      requires commands.Valid() && DistinctIds(commands.Contents)
      ensures Removing(commands.Contents, 0, c, log)
      ensures Kept(commands.Contents, 0, c) == 0
      ensures commands.NextElement(null) == commands.At(0)
    {
    }

    /** The first `k` entries of the original queue `q` have been dealt with. */
    ghost predicate Removing(q: seq<Command>, k: nat, c: ClientId, log1: seq<Event>)
      reads this, commands
    {
      && k <= |q| && DistinctIds(q)
      && commands.Contents == Purged(q[..k], c) + q[k..]
      && log == log1 + RemovalEvents(q[..k], c)
    }

    /** How many of them stay in the queue. */
    ghost function Kept(q: seq<Command>, k: nat, c: ClientId): nat
      requires k <= |q|
    {
      |Purged(q[..k], c)|
    }

    lemma RemovingFacts(q: seq<Command>, k: nat, c: ClientId, log1: seq<Event>)
      requires commands.Valid() && k <= |q| && Removing(q, k, c, log1)
      ensures var p := Kept(q, k, c);
        && p + |q| - k == |commands.Nodes|
        && (commands.At(p) != null <==> k < |q|)
        && (k < |q| ==> commands.At(p) in commands.Nodes && commands.At(p).content == q[k])
        && (k < |q| ==> commands.NextElement(commands.At(p)) == commands.At(p + 1))
      ensures k == |q| ==> commands.Contents == Purged(q, c) && log == log1 + RemovalEvents(q, c)
    {
      hide Purged, RemovalEvents, DistinctIds;
      commands.Position(Kept(q, k, c));
      if k == |q| {
        assert q[..k] == q;
      }
    }

    /** The loop's body. */
    method RemoveIfOwned(command: Command, c: ClientId, ghost q: seq<Command>, ghost k: nat, ghost log1: seq<Event>)
      requires commands.Valid() && k < |q| && command == q[k] && Removing(q, k, c, log1)
      modifies this`log, commands, commands.Nodes
      ensures commands.Valid() && Removing(q, k + 1, c, log1)
      ensures forall j {:trigger commands.Nodes[j]} :: 0 <= j < |commands.Nodes| ==>
                commands.Nodes[j] in old(commands.Nodes)
      ensures commands.At(Kept(q, k + 1, c)) == old(commands.At(Kept(q, k, c) + 1))
    {
      hide Purged, RemovalEvents, FailureCall, Without, List.Valid, List.Linked, DistinctIds;
      RemovalStep(q, k, c);
      PurgedIds(q, k, c);
      if command.client == c {
        Detach(command, Kept(q, k, c));
        log := log + ([Dropped(command)] + FailureCall(command));
      }
    }

    /** What dealing with entry `k` does to the part of the queue already gone through. */
    lemma RemovalStep(q: seq<Command>, k: nat, c: ClientId)
      requires k < |q|
      ensures
        var p, x := Purged(q[..k], c), q[k];
        && Purged(q[..k + 1], c) == (if x.client == c then p else p + [x])
        && RemovalEvents(q[..k + 1], c) ==
             (if x.client == c then RemovalEvents(q[..k], c) + ([Dropped(x)] + FailureCall(x))
              else RemovalEvents(q[..k], c))
        && p + q[k..] == p + [x] + q[k + 1..]
        && Without(p + q[k..], |p|) == p + q[k + 1..]
    {
      hide Without;
      PassAt(Purged(q[..k], c), q, k);
      assert q[..k + 1][..k] == q[..k];
    }

    /** The queue in mid-removal still consists of distinct allocations. */
    lemma PurgedIds(q: seq<Command>, k: nat, c: ClientId)
      requires DistinctIds(q) && k <= |q|
      ensures DistinctIds(Purged(q[..k], c) + q[k..])
    {
      PurgedMembers(q[..k], c);
      var p := Purged(q[..k], c);
      forall a, b | a in p && b in q[k..]
        ensures a.id != b.id
      {
        assert a in q[..k];
      }
    }

    /** MQTTAsync_cleanSession */
    method CleanSession(c: ClientId)
      requires commands.Valid() && c in clients && DistinctIds(commands.Contents)
      modifies this`clients, this`log, commands, commands.Nodes
      ensures commands.Valid() && commands.Grown() && Now() == AsyncState.CleanSession(old(Now()), c)
    {
      var cl := clients[c];
      if cl.persistent {
        cl := cl.(store := map[]);
      }
      clients := clients[c := cl.(outbound := [], msgID := 0)];
      RemoveResponsesAndCommands(c);
    }

    /** MQTTAsync_closeSession, with MQTTAsync_closeOnly inlined */
    method CloseSession(c: ClientId)
      requires commands.Valid() && c in clients && DistinctIds(commands.Contents)
      modifies this`clients, this`log, commands, commands.Nodes
      ensures commands.Valid() && commands.Grown() && Now() == AsyncState.CloseSession(old(Now()), c)
    {
      clients := clients[c := clients[c].(connected := false, connectState := 0)];
      if clients[c].cleanSession {
        CleanSession(c);
      }
    }

    // ----- message ids -----

    /** MQTTAsync_assignMsgId.  The search runs for ever when Diverges holds. */
    method AssignId(c: ClientId) returns (msgid: int32)
      requires commands.Valid() && c in clients && clients[c].msgID <= MAX_MSG_ID
      requires !Diverges(TakenIds(Now(), c), clients[c].msgID)
      modifies this`clients, commands`current, commands`Cursor
      ensures commands.Valid() && commands.Nodes == old(commands.Nodes)
      ensures (Now(), msgid) == AssignMsgId(old(Now()), c)
    {
      hide IdAfter, Diverges, List.Valid, List.Linked, TakenIds;
      ghost var taken := TakenIds(Now(), c);
      var start := clients[c].msgID;
      IdSteps(start, 1);
      msgid := if start == MAX_MSG_ID then 1 else start + 1;
      var found := IdInUse(c, msgid);
      ghost var k := 1;
      while found
        invariant commands.Valid() && commands.Nodes == old(commands.Nodes) && Now() == old(Now())
        invariant 1 <= k <= MAX_MSG_ID && msgid == IdAfter(start, k) && msgid != start
        invariant found == (msgid in taken)
        invariant FirstFree(taken, start, k) == FirstFree(taken, start, 1)
        invariant forall j :: 1 <= j < k ==> IdAfter(start, j) in taken
        decreases MAX_MSG_ID - k
      {
        if k == MAX_MSG_ID {
          WholeCycleTaken(taken, start);
        }
        IdSteps(start, k);
        msgid := if msgid == MAX_MSG_ID then 1 else msgid + 1;
        k := k + 1;
        if msgid == start {
          msgid := 0;  // all tried, none free
          break;
        }
        found := IdInUse(c, msgid);
      }
      if msgid != 0 {
        clients := clients[c := clients[c].(msgID := msgid)];
      }
    }

    /** The two searches of assignMsgId's loop guard; the first moves the queue's cursor. */
    method IdInUse(c: ClientId, msgid: int) returns (found: bool)
      requires commands.Valid() && c in clients
      modifies commands`current, commands`Cursor
      ensures commands.Valid() && commands.Nodes == old(commands.Nodes) && Now() == old(Now())
      ensures found == (msgid in TakenIds(Now(), c))
    {
      var hasToken := (x: Command) => x.token == msgid;
      ghost var q := commands.Contents;
      ghost var h := Hit(q, commands.Cursor, hasToken);
      var item := commands.FindItem(hasToken);
      assert h >= 0 ==> q[h] in q;
      assert item != null <==> exists a :: a in q && a.token == msgid;
      found := item != null || FindResponse(clients[c].responses, msgid) >= 0;
    }

    // ----- dispatching -----

    /** The scan of processCommand, with its list of clients to ignore. */
    method Select(idle: set<ClientId>) returns (found: ListElement?<Command>, ghost i: int)
      requires Valid()
      ensures found == commands.At(FirstReady(Now(), idle, 0)) && i == FirstReady(Now(), idle, 0)
      ensures found != null ==>
                && 0 <= i < |commands.Contents| && commands.Contents[i].client in clients
                && FirstOfItsClient(commands.Contents, i) && !Blocked(Now(), commands.Contents[i], idle)
    {
      hide List.Valid, List.Linked, Ready, IsHead, FirstReady, Inv, Blocked;
      ghost var q := commands.Contents;
      var ignored: seq<ClientId> := [];
      ghost var k := 0;
      commands.Position(0);
      var cur := commands.NextElement(null);
      while cur != null
        invariant k <= |q| && cur == commands.At(k)
        invariant forall c :: c in ignored <==> exists j :: 0 <= j < k && q[j].client == c
        invariant FirstReady(Now(), idle, k) == FirstReady(Now(), idle, 0)
        decreases |q| - k
      {
        commands.Position(k);
        var cmd := cur.content;
        ScanStep(Now(), idle, k);
        if cmd.client !in ignored {
          var ready := MayGo(cmd, idle);
          if ready {
            return cur, k;
          }
          ignored := ignored + [cmd.client];
        }
        k := k + 1;
        commands.Position(k);
        cur := commands.NextElement(cur);
      }
      commands.Position(k);
      ScanEnd(Now(), idle);
      return null, -1;
    }

    static lemma ScanStep(s: State, idle: set<ClientId>, k: nat)
      requires Inv(s) && k < |s.commands|
      ensures s.commands[k].client in s.clients
      ensures
        var first := !exists j :: 0 <= j < k && s.commands[j].client == s.commands[k].client;
        FirstReady(s, idle, k) == if first && Ready(s, s.commands[k], idle) then k else FirstReady(s, idle, k + 1)
    {
      assert s.commands[k] in s.commands && Sound(s, s.commands[k]);
    }

    static lemma ScanEnd(s: State, idle: set<ClientId>)
      ensures FirstReady(s, idle, |s.commands|) == -1
    {
    }

    /** The two nested conditions of the scan. */
    method MayGo(cmd: Command, idle: set<ClientId>) returns (ready: bool)
      requires cmd.client in clients
      ensures ready == Ready(Now(), cmd, idle) == !Blocked(Now(), cmd, idle)
    {
      var cl := clients[cmd.client];
      if cmd.details.Connect? || cmd.details.Disconnect?
         || (cl.connected && cl.connectState == 0 && cmd.client in idle) {
        if Persistable(cmd.details) && |cl.outbound| >= MAX_MSG_ID - 1 {
          return false;  // no more message ids available
        }
        return true;
      }
      return false;
    }

    /** Takes the selected command out of the queue and of the store. */
    method TakeCommand(cmd: Command, ghost i: nat)
      requires commands.Valid() && DistinctIds(commands.Contents) && cmd.client in clients
      requires i < |commands.Contents| && commands.Contents[i] == cmd
      modifies this`clients, this`log, commands, commands.Nodes
      ensures commands.Valid() && commands.Grown() && Now() == Dequeue(old(Now()), i)
    {
      hide List.Linked, DistinctIds, Without;
      Detach(cmd, i);
      var cl := clients[cmd.client];
      if cl.persistent {
        cl := cl.(store := cl.store - {cmd.seqno});
      }
      clients := clients[cmd.client := cl];
      log := log + [Taken(cmd)];
    }

    /** MQTTAsync_processCommand */
    method ProcessCommand(net: Net) returns (processed: bool)
      requires Valid()
      modifies this, commands, commands.Nodes
      ensures Valid() && commands.Grown() && Now() == Process(old(Now()), net)
      ensures processed == (FirstReady(old(Now()), net.idle, 0) >= 0)
    {
      hide Inv, FirstReady, Dequeue, DispatchConnect, DispatchDisconnect, DispatchRequest, AsyncState.Process;
      hide List.Valid, List.Linked, DistinctIds;
      ghost var s := Now();
      var found, i := Select(net.idle);
      ProcessFacts(s, net);
      if found == null {
        QueuePosition(i);
        return false;
      }
      QueuePosition(i);
      var cmd := found.content;
      TakeCommand(cmd, i);
      match cmd.details {
        case Connect(_, _) => StartConnect(cmd, net);
        case Disconnect(_) => StartDisconnect(cmd, net);
        case _ => SendRequest(cmd, net);
      }
      processed := true;
    }

    /** What the selected index says about the element found there. */
    lemma QueuePosition(i: int)
      requires commands.Valid() && -1 <= i < |commands.Contents|
      ensures i >= 0 <==> commands.At(i) != null
      ensures i >= 0 ==> commands.At(i) in commands.Nodes && commands.At(i).content == commands.Contents[i]
    {
    }

    static lemma ProcessFacts(s: State, net: Net)
      requires Inv(s)
      ensures Inv(AsyncState.Process(s, net)) && DistinctIds(s.commands)
      ensures
        var i := FirstReady(s, net.idle, 0);
        if i < 0 then AsyncState.Process(s, net) == s
        else
          && s.commands[i].client in s.clients
          && s.commands[i].client in Dequeue(s, i).clients && DistinctIds(Dequeue(s, i).commands)
          && AsyncState.Process(s, net) == Dispatch(Dequeue(s, i), s.commands[i], net)
    {
      ProcessKeepsInv(s, net);
      if FirstReady(s, net.idle, 0) >= 0 {
        DequeueKeepsInv(s, FirstReady(s, net.idle, 0));
      }
    }

    method StartConnect(cmd: Command, net: Net)
      requires commands.Valid() && cmd.client in clients && cmd.details.Connect?
      modifies this`clients, this`log, commands, commands.Nodes
      ensures commands.Valid() && commands.Grown() && Now() == DispatchConnect(old(Now()), cmd, net)
    {
      hide List.Valid, List.Linked, Add, MoreToTry;
      var c, cl, info := cmd.client, clients[cmd.client], cmd.details;
      if cl.connectState != 0 || cl.connected {
        clients := clients[c := cl.(connect := ConnectInfo(info.currentURI, info.version, cmd.onSuccess,
                                                           cmd.onFailure))];
        return;
      }
      var version := info.version;
      if cl.version == MQTTVERSION_DEFAULT {
        if version == MQTTVERSION_DEFAULT {
          version := MQTTVERSION_3_1_1;
        } else if version == MQTTVERSION_3_1_1 {
          version := MQTTVERSION_3_1;
        }
      } else {
        version := cl.version;
      }
      log := log + [Attempt(c, info.currentURI, version)];
      if net.connectState != 0 {
        clients := clients[c := cl.(connectState := net.connectState,
                                    connect := ConnectInfo(info.currentURI, version, cmd.onSuccess, cmd.onFailure))];
        return;
      }
      clients := clients[c := cl.(shouldBeConnected := true)];
      if MoreToTry(info.currentURI, version, cl) {
        AddCommand(cmd.(details := NextOptions(info.currentURI, version, cl)));
      } else if cmd.onFailure {
        log := log + [ConnectFailed(c)];
      }
    }

    method SendRequest(cmd: Command, net: Net)
      requires commands.Valid() && cmd.client in clients && Persistable(cmd.details)
      modifies this, commands, commands.Nodes
      ensures commands.Valid() && commands.Grown() && Now() == DispatchRequest(old(Now()), cmd, net)
    {
      hide List.Valid, List.Linked, DisconnectCall;
      var c, cl := cmd.client, clients[cmd.client];
      if cmd.details.Publish? && cmd.details.qos == 0 {
        if net.sent.Written? {
          log := log + SuccessCall(cmd);
        } else {
          cl := cl.(pendingWrite := Some(cmd));
        }
        if net.sent.Interrupted? {
          cl := cl.(responses := cl.responses + [cmd]);
        }
        clients := clients[c := cl];
        return;
      }
      if cmd.details.Publish? {
        cl := cl.(outbound := cl.outbound + [cmd.token]);
      }
      clients := clients[c := cl];
      if net.sent.Broken? {
        Disconnect(c, true, 0, false);
        log := log + FailureCall(cmd);
      } else {
        clients := clients[c := cl.(responses := cl.responses + [cmd])];
      }
    }

    /** MQTTAsync_writeComplete: the search's test holds of every response of the client, so that it is
        the first one that goes, whichever publication was interrupted. */
    method CompleteWrite(c: ClientId)
      requires Valid() && c in clients && WritePending(clients[c])
      modifies this`clients, this`log
      ensures Valid() && Now() == WriteComplete(old(Now()), c)
    {
      hide Inv, List.Valid, List.Linked, Without;
      WriteCompleteFacts(Now(), c);
      var cl := clients[c];
      var command := cl.pendingWrite.value;
      var i := FindWriter(cl.responses, cl.pendingWrite);
      assert i == 0;
      if i < |cl.responses| {
        log := log + SuccessCall(command);
        cl := cl.(responses := Without(cl.responses, i));
      }
      clients := clients[c := cl.(pendingWrite := None)];
    }

    /** The search of writeComplete: the first response whose client has this write pending. */
    method FindWriter(responses: seq<Command>, pendingWrite: Option<Command>) returns (i: nat)
      requires forall r :: r in responses ==> r.client in clients
      ensures i <= |responses|
      ensures forall j :: 0 <= j < i ==> clients[responses[j].client].pendingWrite != pendingWrite
      ensures i < |responses| ==> clients[responses[i].client].pendingWrite == pendingWrite
    {
      i := 0;
      while i < |responses|
        invariant i <= |responses|
        invariant forall j :: 0 <= j < i ==> clients[responses[j].client].pendingWrite != pendingWrite
      {
        if clients[responses[i].client].pendingWrite == pendingWrite {
          return;
        }
        i := i + 1;
      }
    }

    static lemma WriteCompleteFacts(s: State, c: ClientId)
      requires Inv(s) && c in s.clients && WritePending(s.clients[c])
      ensures Inv(WriteComplete(s, c)) && |s.clients[c].responses| > 0
      ensures s.clients[c].responses[0].client == c
      ensures forall r :: r in s.clients[c].responses ==> r.client in s.clients
      ensures Without(s.clients[c].responses, 0) == s.clients[c].responses[1..]
    {
      WriteCompleteKeepsInv(s, c);
      assert ResponsesInv(s.clients[c], c);
      assert s.clients[c].responses[0] in s.clients[c].responses;
    }

    method StartDisconnect(cmd: Command, net: Net)
      requires commands.Valid() && DistinctIds(commands.Contents) && cmd.client in clients && cmd.details.Disconnect?
      modifies this`clients, this`log, commands, commands.Nodes
      ensures commands.Valid() && commands.Grown() && Now() == DispatchDisconnect(old(Now()), cmd, net)
    {
      hide List.Linked, DistinctIds;
      var c, cl := cmd.client, clients[cmd.client];
      if cl.connectState != 0 || cl.connected {
        clients := clients[c := cl.(connectState := -2)];
        FinishDisconnect(cmd, net.elapsed);
      }
      clients := clients[c := clients[c].(disconnect := Some(cmd))];
    }

    /** MQTTAsync_checkDisconnect */
    method FinishDisconnect(cmd: Command, elapsed: bool)
      requires commands.Valid() && DistinctIds(commands.Contents) && cmd.client in clients && cmd.details.Disconnect?
      modifies this`clients, this`log, commands, commands.Nodes
      ensures commands.Valid() && commands.Grown() && Now() == CheckDisconnect(old(Now()), cmd, elapsed)
    {
      hide List.Linked, DistinctIds;
      if clients[cmd.client].outbound == [] || elapsed {
        CloseSession(cmd.client);
        if !cmd.details.internal {
          log := log + SuccessCall(cmd);
        }
      }
    }

    /** nextOrClose */
    method RetryOrClose(c: ClientId)
      requires commands.Valid() && DistinctIds(commands.Contents) && c in clients
      modifies this, commands, commands.Nodes
      ensures commands.Valid() && commands.Grown() && Now() == NextOrClose(old(Now()), c)
    {
      hide List.Linked, DistinctIds;
      var cl := clients[c];
      var info := cl.connect;
      if MoreToTry(info.currentURI, info.version, cl) {
        clients := clients[c := cl.(connected := false, connectState := 0)];
        AddNewCommand(c, 0, info.onSuccess, info.onFailure, NextOptions(info.currentURI, info.version, cl));
      } else {
        CloseSession(c);
        if info.onFailure {
          log := log + [ConnectFailed(c)];
        }
      }
    }

    // ----- API calls -----

    /** MQTTAsync_connect, its options already checked */
    method Connect(c: ClientId, version: int, cleanSession: bool, uriCount: nat, onSuccess: nat, onFailure: bool)
      requires Valid() && c in clients
      modifies this, commands, commands.Nodes
      ensures Valid() && commands.Grown()
      ensures Now() == ConnectCall(old(Now()), c, version, cleanSession, uriCount, onSuccess, onFailure)
    {
      hide List.Valid, List.Linked, Inv, AddNew;
      ConnectCallKeepsInv(Now(), c, version, cleanSession, uriCount, onSuccess, onFailure);
      var cl := clients[c];
      cl := cl.(connect := cl.connect.(onSuccess := onSuccess, onFailure := onFailure));
      cl := cl.(cleanSession := cleanSession, version := version, shouldBeConnected := true);
      if uriCount > 0 {
        cl := cl.(uriCount := uriCount);
      }
      clients := clients[c := cl];
      AddNewCommand(c, 0, onSuccess, onFailure, Details.Connect(0, MQTTVERSION_DEFAULT));
    }

    /** MQTTAsync_reconnect, and the timer's automatic reconnect */
    method ReconnectClient(c: ClientId)
      requires Valid() && c in clients
      modifies this, commands, commands.Nodes
      ensures Valid() && commands.Grown() && Now() == Reconnect(old(Now()), c)
    {
      hide List.Valid, List.Linked, Inv, AddNew;
      ReconnectKeepsInv(Now(), c);
      var info, version := clients[c].connect, clients[c].connect.version;
      if clients[c].version == MQTTVERSION_DEFAULT {
        version := MQTTVERSION_DEFAULT;
      }
      AddNewCommand(c, 0, info.onSuccess, info.onFailure, Details.Connect(info.currentURI, version));
    }

    /** MQTTAsync_disconnect1 */
    method Disconnect(c: ClientId, internal: bool, onSuccess: nat, onFailure: bool)
      requires commands.Valid() && c in clients
      modifies this, commands, commands.Nodes
      ensures commands.Valid() && commands.Grown()
      ensures Now() == DisconnectCall(old(Now()), c, internal, onSuccess, onFailure)
    {
      if !internal {
        clients := clients[c := clients[c].(shouldBeConnected := false)];
      }
      if clients[c].connected {
        AddNewCommand(c, 0, onSuccess, onFailure, Details.Disconnect(internal));
      }
    }

    /** MQTTAsync_countBufferedMessages */
    method CountBuffered(c: ClientId) returns (n: nat)
      requires commands.Valid()
      ensures n == Buffered(commands.Contents, c)
    {
      hide List.Linked;
      n := 0;
      ghost var q, k := commands.Contents, 0;
      commands.Position(0);
      var cur := commands.NextElement(null);
      while cur != null
        invariant k <= |q| && cur == commands.At(k) && n == Buffered(q[..k], c)
        decreases |q| - k
      {
        commands.Position(k);
        assert q[..k + 1][..k] == q[..k];
        if cur.content.client == c && cur.content.details.Publish? {
          n := n + 1;
        }
        k := k + 1;
        commands.Position(k);
        cur := commands.NextElement(cur);
      }
      commands.Position(k);
      assert q[..k] == q;
    }

    /** MQTTAsync_subscribeMany, MQTTAsync_unsubscribeMany and MQTTAsync_send */
    method MakeRequest(c: ClientId, d: Details, onSuccess: nat, onFailure: bool) returns (rc: Reply)
      requires Valid() && c in clients && Persistable(d) && Representable(d)
      requires NeedsId(clients[c], d) ==> !Diverges(TakenIds(Now(), c), clients[c].msgID)
      modifies this, commands, commands.Nodes
      ensures Valid() && commands.Grown() && (Now(), rc) == Request(old(Now()), c, d, onSuccess, onFailure)
    {
      hide List.Valid, List.Linked, Representable, FirstFree, TakenIds, Diverges, Inv, AddNew, Buffered, QosInRange;
      RequestFacts(Now(), c, d, onSuccess, onFailure);
      var cl := clients[c];
      if !cl.connected && (!d.Publish? || cl.buffering.None? || !cl.buffering.value.sendWhileDisconnected
                           || !cl.shouldBeConnected) {
        return Disconnected;
      } else if !QosInRange(d) {
        return BadQos;
      }
      var msgid := 0;
      if NeedsToken(d) {
        msgid := AssignId(c);
        if msgid == 0 {
          return NoMoreMsgIds;
        }
      }
      if d.Publish? && cl.buffering.Some? {
        var n := CountBuffered(c);
        if n >= cl.buffering.value.maxBuffered {
          return MaxBufferedMessages;
        }
      }
      AddNewCommand(c, msgid, onSuccess, onFailure, d);
      rc := Success;
    }

    static lemma RequestFacts(s: State, c: ClientId, d: Details, onSuccess: nat, onFailure: bool)
      requires Inv(s) && c in s.clients && Persistable(d) && Representable(d)
      requires NeedsId(s.clients[c], d) ==> !Diverges(TakenIds(s, c), s.clients[c].msgID)
      ensures s.clients[c].msgID <= MAX_MSG_ID && Inv(Request(s, c, d, onSuccess, onFailure).0)
    {
      RequestKeepsInv(s, c, d, onSuccess, onFailure);
    }

    // ----- packets received -----

    /** The search of the acknowledgement handlers: the first response with the packet's id is
        detached and its callback called. */
    method HandleAck(c: ClientId, msgid: int, refused: bool, flowDone: bool)
      requires Valid() && c in clients
      modifies this`clients, this`log
      ensures Valid() && Now() == Ack(old(Now()), c, msgid, refused, flowDone)
    {
      hide Inv, List.Valid;
      AckKeepsInv(Now(), c, msgid, refused, flowDone);
      var cl := clients[c];
      if flowDone {
        cl := cl.(outbound := DropId(cl.outbound, msgid));
      }
      var i := FindToken(cl.responses, msgid);
      if i >= 0 {
        var cmd := cl.responses[i];
        cl := cl.(responses := Without(cl.responses, i));
        log := log + (if refused then FailureCall(cmd) else SuccessCall(cmd));
      }
      clients := clients[c := cl];
    }

    static method FindToken(responses: seq<Command>, msgid: int) returns (i: int)
      ensures i == FindResponse(responses, msgid)
    {
      i := 0;
      while i < |responses|
        invariant 0 <= i <= |responses|
        invariant forall j :: 0 <= j < i ==> responses[j].token != msgid
      {
        if responses[i].token == msgid {
          return;
        }
        i := i + 1;
      }
      i := -1;
    }

    /** A CONNACK: MQTTAsync_completeConnection and what the receive thread makes of its result */
    method HandleConnack(c: ClientId, accepted: bool)
      requires Valid() && c in clients
      modifies this, commands, commands.Nodes
      ensures Valid() && commands.Grown() && Now() == Connack(old(Now()), c, accepted)
    {
      hide List.Valid, List.Linked, Inv, Purged, RemovalEvents, FailureEvents, NextOrClose;
      ConnackFacts(Now(), c, accepted);
      var cl := clients[c];
      if cl.connectState == 3 && accepted {
        clients := clients[c := cl.(connected := true, connectState := 0)];
        if cl.cleanSession {
          CleanSession(c);
        }
        if cl.connect.onSuccess != 0 {
          log := log + [ConnectSucceeded(c)];
        }
        clients := clients[c := clients[c].(connect := clients[c].connect.(onSuccess := 0))];
        assert Now() == Connack(old(Now()), c, accepted);
      } else {
        RetryOrClose(c);
      }
    }

    static lemma ConnackFacts(s: State, c: ClientId, accepted: bool)
      requires Inv(s) && c in s.clients
      ensures Inv(Connack(s, c, accepted)) && DistinctIds(s.commands)
    {
      ConnackKeepsInv(s, c, accepted);
    }

    /** The receive thread's reaction to a socket error */
    method HandleSocketError(c: ClientId)
      requires Valid() && c in clients
      modifies this, commands, commands.Nodes
      ensures Valid() && commands.Grown() && Now() == SocketError(old(Now()), c)
    {
      hide List.Valid, List.Linked;
      SocketErrorKeepsInv(Now(), c);
      if clients[c].connected {
        Disconnect(c, true, 0, false);
      } else if clients[c].connectState != 0 {
        RetryOrClose(c);
      } else {
        clients := clients[c := clients[c].(connected := false, connectState := 0)];
      }
    }

    // ----- creating and destroying clients -----

    /** MQTTPersistence_insertInOrder as restoreCommands uses it, on a command with no callback */
    method InsertRestored(cmd: Command)
      requires commands.Valid() && cmd.onSuccess == 0
      modifies commands, commands.Nodes
      ensures commands.Valid() && commands.Grown()
      ensures var q, k := old(commands.Contents), RestorePoint(old(commands.Contents));
        commands.Contents == q[..k] + [cmd] + q[k..]
    {
      hide List.Linked;
      ghost var q, k := commands.Contents, 0;
      var index: ListElement?<Command> := null;
      commands.Position(0);
      var current := commands.NextElement(null);
      while current != null && index == null
        modifies {}
        invariant k <= |q|
        invariant index == null ==> current == commands.At(k) && forall j :: 0 <= j < k ==> SortKey(q[j]) <= 0
        invariant index != null ==> k < |q| && index == commands.At(k) && SortKey(q[k]) > 0
        invariant index != null ==> forall j :: 0 <= j < k ==> SortKey(q[j]) <= 0
        invariant current == null || current in commands.Nodes
        decreases |q| - k, index == null
      {
        commands.Position(k);
        if SortKey(cmd) < SortKey(current.content) {
          index := current;
        } else {
          k := k + 1;
        }
        commands.Position(k);
        current := commands.NextElement(current);
      }
      commands.Position(k);
      commands.Insert(cmd, index, k);
    }

    /** MQTTAsync_restoreCommands, over the keys as the backend enumerates them */
    method RestoreCommands(c: ClientId, keys: seq<nat>)
      requires commands.Valid() && c in clients && forall k :: k in keys ==> k in clients[c].store
      modifies this, commands, commands.Nodes
      ensures commands.Valid() && commands.Grown() && Now() == RestoreKeys(old(Now()), c, keys)
    {
      hide List.Linked, RestorePoint, Restore;
      ghost var s := Now();
      var i := 0;
      while i < |keys|
        invariant 0 <= i <= |keys| && commands.Valid() && commands.Grown()
        invariant Now() == RestoreKeys(s, c, keys[..i]) && c in clients && clients[c].store == old(clients[c].store)
      {
        assert keys[..i + 1][..i] == keys[..i];
        var r := RestoreCommand(clients[c].store[keys[i]]);
        if r.Parsed? {
          var cmd := Command(nextId, c, r.token, 0, false, keys[i], r.details);
          nextId := nextId + 1;
          InsertRestored(cmd);
          clients := clients[c := clients[c].(commandSeqno := Max(clients[c].commandSeqno, keys[i]))];
          log := log + [Added(cmd)];
        }
        i := i + 1;
      }
      assert keys[..i] == keys;
    }

    /** MQTTAsync_createWithOptions with persistence */
    method CreateClient(c: ClientId, store: map<nat, seq<byte>>, keys: seq<nat>, outbound: seq<int>,
                        buffering: Option<Buffering>)
      requires Valid() && c !in clients && SoundStore(store) && Enumerates(keys, store)
      modifies this, commands, commands.Nodes
      ensures Valid() && commands.Grown() && Now() == Create(old(Now()), c, store, keys, outbound, buffering)
    {
      CreateKeepsInv(Now(), c, store, keys, outbound, buffering);
      hide List.Linked, DistinctIds, Inv, SoundStore;
      clients := clients[c := FreshClient(true, store, outbound, buffering)];
      RestoreCommands(c, keys);
    }

    /** MQTTAsync_createWithOptions without persistence */
    method CreateVolatileClient(c: ClientId, buffering: Option<Buffering>)
      requires Valid() && c !in clients
      modifies this`clients
      ensures Valid() && Now() == WithClient(old(Now()), c, FreshClient(false, map[], [], buffering))
    {
      hide List.Valid, List.Linked, Inv;
      CreateVolatileKeepsInv(Now(), c, buffering);
      clients := clients[c := FreshClient(false, map[], [], buffering)];
    }

    /** The timer's check on a disconnect that is under way (MQTTAsync_checkTimeouts) */
    method CheckDisconnectTimer(c: ClientId, elapsed: bool)
      requires Valid() && Enabled(Now(), DoDisconnectTimer(c, elapsed))
      modifies this`clients, this`log, commands, commands.Nodes
      ensures Valid() && commands.Grown()
      ensures Now() == CheckDisconnect(old(Now()), old(clients[c].disconnect.value), elapsed)
    {
      hide List.Valid, List.Linked, Inv;
      TimerFacts(Now(), c, elapsed);
      FinishDisconnect(clients[c].disconnect.value, elapsed);
    }

    static lemma TimerFacts(s: State, c: ClientId, elapsed: bool)
      requires Inv(s) && Enabled(s, DoDisconnectTimer(c, elapsed))
      ensures DistinctIds(s.commands) && Inv(CheckDisconnect(s, s.clients[c].disconnect.value, elapsed))
    {
      CheckDisconnectKeepsInv(s, s.clients[c].disconnect.value, elapsed);
    }

    /** The timer's reaction to a connect that takes too long (MQTTAsync_checkTimeouts) */
    method ConnectTimedOut(c: ClientId)
      requires Valid() && c in clients
      modifies this, commands, commands.Nodes
      ensures Valid() && commands.Grown() && Now() == NextOrClose(old(Now()), c)
    {
      hide List.Valid, List.Linked, Inv;
      TimeoutFacts(Now(), c);
      RetryOrClose(c);
    }

    static lemma TimeoutFacts(s: State, c: ClientId)
      requires Inv(s) && c in s.clients
      ensures DistinctIds(s.commands) && Inv(NextOrClose(s, c))
    {
      NextOrCloseKeepsInv(s, c);
    }

    /** MQTTAsync_destroy */
    method DestroyClient(c: ClientId)
      requires Valid() && c in clients
      modifies this`clients, this`log, commands, commands.Nodes
      ensures Valid() && commands.Grown() && Now() == Destroy(old(Now()), c)
    {
      hide List.Valid, List.Linked, DistinctIds, Inv, Purged, RemovalEvents, FailureEvents;
      DestroyFacts(Now(), c);
      RemoveResponsesAndCommands(c);
      clients := clients - {c};
    }

    static lemma DestroyFacts(s: State, c: ClientId)
      requires Inv(s) && c in s.clients
      ensures DistinctIds(s.commands) && Inv(Destroy(s, c))
    {
      DestroyKeepsInv(s, c);
    }

    // ----- every step of the machine -----

    /** Whatever step the machine can take, one of the methods above takes it. */
    method Perform(step: Step)
      requires Valid() && Enabled(Now(), step)
      modifies this, commands, commands.Nodes
      ensures Valid() && commands.Grown() && Now() == Apply(old(Now()), step)
    {
      hide List.Valid, List.Linked, Inv, SoundStore, Enumerates, TakenIds, Diverges, NeedsId, WritePending;
      hide Representable, Persistable;
      match step {
        case DoCreate(c, store, keys, outbound, buffering) => CreateClient(c, store, keys, outbound, buffering);
        case DoCreateVolatile(c, buffering) => CreateVolatileClient(c, buffering);
        case DoDestroy(c) => DestroyClient(c);
        case DoConnect(c, version, cleanSession, uriCount, onSuccess, onFailure) =>
          Connect(c, version, cleanSession, uriCount, onSuccess, onFailure);
        case DoReconnect(c) => ReconnectClient(c);
        case DoDisconnect(c, internal, onSuccess, onFailure) => CallDisconnect(c, internal, onSuccess, onFailure);
        case DoRequest(c, d, onSuccess, onFailure) => var rc := MakeRequest(c, d, onSuccess, onFailure);
        case DoProcess(net) => var processed := ProcessCommand(net);
        case DoWriteComplete(c) => CompleteWrite(c);
        case DoAck(c, id, refused, flowDone) => HandleAck(c, id, refused, flowDone);
        case DoConnack(c, accepted) => HandleConnack(c, accepted);
        case DoSocketError(c) => HandleSocketError(c);
        case DoConnectTimeout(c) => ConnectTimedOut(c);
        case DoDisconnectTimer(c, elapsed) => CheckDisconnectTimer(c, elapsed);
      }
    }

    /** MQTTAsync_disconnect and MQTTAsync_disconnect_internal */
    method CallDisconnect(c: ClientId, internal: bool, onSuccess: nat, onFailure: bool)
      requires Valid() && c in clients
      modifies this, commands, commands.Nodes
      ensures Valid() && commands.Grown()
      ensures Now() == DisconnectCall(old(Now()), c, internal, onSuccess, onFailure)
    {
      hide List.Valid, List.Linked, Inv;
      DisconnectCallKeepsInv(Now(), c, internal, onSuccess, onFailure);
      Disconnect(c, internal, onSuccess, onFailure);
    }

    /** Calls that begin with a new engine make up a run of the machine. */
    static method Play(steps: seq<Step>) returns (e: Engine, ghost trace: seq<State>)
      requires CanPlay(Empty, steps)
      ensures fresh(e) && e.Valid() && IsRun(Empty, steps, trace) && e.Now() == trace[|steps|]
    {
      hide List.Valid, List.Linked, Inv, Enabled, Apply, CanPlay, IsRun;
      e := new Engine();
      trace := [e.Now()];
      NothingPlayed();
      assert steps[0..] == steps;
      for i := 0 to |steps|
        invariant fresh(e) && fresh(e.commands) && e.Valid()
        invariant forall k {:trigger e.commands.Nodes[k]} :: 0 <= k < |e.commands.Nodes| ==> fresh(e.commands.Nodes[k])
        invariant |trace| == i + 1 && trace[i] == e.Now() && IsRun(Empty, steps[..i], trace)
        invariant CanPlay(e.Now(), steps[i..])
      {
        PlayStep(e.Now(), steps, i, trace);
        e.Perform(steps[i]);
        trace := trace + [e.Now()];
      }
      assert steps[..|steps|] == steps;
    }
  }

  /** Each of these steps can be taken once those before it have been. */
  ghost predicate CanPlay(s: State, steps: seq<Step>)
    decreases |steps|
  {
    steps == [] || (Enabled(s, steps[0]) && CanPlay(Apply(s, steps[0]), steps[1..]))
  }

  lemma NothingPlayed()
    ensures IsRun(Empty, [], [Empty])
  {
  }

  lemma PlayStep(s: State, steps: seq<Step>, i: nat, trace: seq<State>)
    requires i < |steps| && |trace| == i + 1 && trace[i] == s && IsRun(Empty, steps[..i], trace)
    requires CanPlay(s, steps[i..])
    ensures Enabled(s, steps[i]) && CanPlay(Apply(s, steps[i]), steps[i + 1..])
    ensures IsRun(Empty, steps[..i + 1], trace + [Apply(s, steps[i])])
  {
    hide Enabled, Apply;
    assert steps[i..][0] == steps[i] && steps[i..][1..] == steps[i + 1..];
    assert steps[..i + 1] == steps[..i] + [steps[i]];
  }

  /** How the search moves from one id to the next, and where it starts. */
  lemma IdSteps(cursor: nat, k: nat)
    requires cursor <= MAX_MSG_ID && k >= 1
    ensures IdAfter(cursor, 1) == (if cursor == MAX_MSG_ID then 1 else cursor + 1) != cursor
    ensures IdAfter(cursor, k + 1) == if IdAfter(cursor, k) == MAX_MSG_ID then 1 else IdAfter(cursor, k) + 1
  {
  }

  lemma WholeCycleTaken(taken: set<int>, cursor: nat)
    requires cursor <= MAX_MSG_ID && IdAfter(cursor, MAX_MSG_ID) in taken && IdAfter(cursor, MAX_MSG_ID) != cursor
    requires forall j :: 1 <= j < MAX_MSG_ID ==> IdAfter(cursor, j) in taken
    ensures Diverges(taken, cursor)
  {
    forall id | 1 <= id <= MAX_MSG_ID
      ensures id in taken
    {
      assert IdAfter(0, id) == id;
    }
  }
}
