/** Sessions over whole runs: which publications are in flight, what the end of a session throws away,
    and that nothing of an ended session comes back. */
module AsyncSessions {
  import opened Bytes
  import opened CommandCodec
  import opened LinkedLists
  import opened AsyncState
  import opened AsyncInvariants
  import opened AsyncTheorems
  import opened AsyncDispatch
  import opened AsyncClients
  import opened AsyncGrowth

  /** The step throws the session of `c` away. */
  ghost predicate SessionEnds(s: State, step: Step, c: ClientId)
    requires Enabled(s, step)
  {
    c in s.clients && EndsSession(s.clients[c], step, DispatchedOf(s, step, Apply(s, step), c), c)
  }

  // ----- the ids in flight -----

  /** The ids of `c` in flight after `i` steps, told from what happened: those it was created with, and
      those of the publications above QoS 0 dispatched since, less one for each one done, counted from
      the end of the last session on. */
  ghost function InFlightAfter(steps: seq<Step>, trace: seq<State>, i: nat, c: ClientId): multiset<int>
    requires IsRun(Empty, steps, trace) && i <= |steps|
  {
    if i == 0 then multiset{}
    else
      var before, s, step, t := InFlightAfter(steps, trace, i - 1, c), trace[i - 1], steps[i - 1], trace[i];
      var x := DispatchedOf(s, step, t, c);
      if step.DoCreate? && step.c == c then multiset(step.outbound)
      else if (step.DoCreateVolatile? || step.DoDestroy?) && step.c == c then multiset{}
      else if SessionEnds(s, step, c) then multiset{}
      else if step.DoAck? && step.c == c && step.flowDone then before - multiset{step.id}
      else if x.Some? && x.value.details.Publish? && x.value.details.qos != 0 then
        before + multiset{x.value.token as int}
      else before
  }

  lemma Sums<T>(q: seq<T>, r: seq<T>)
    ensures multiset(q + r) == multiset(q) + multiset(r)
  {
  }

  lemma IdGoneCounts(q: seq<int>, r: seq<int>, id: int)
    requires IdGone(q, r, id)
    ensures multiset(r) == multiset(q) - multiset{id}
  {
    if id in q {
      var k :| 0 <= k < |q| && q[k] == id && id !in q[..k] && r == q[..k] + q[k + 1..];
      OneLess(q, k);
    }
  }

  lemma OneLess(q: seq<int>, k: nat)
    requires k < |q|
    ensures multiset(q[..k] + q[k + 1..]) == multiset(q) - multiset{q[k]}
  {
    var a, b := q[..k], q[k + 1..];
    assert q == (a + [q[k]]) + b;
    Sums(a + [q[k]], b);
    Sums(a, [q[k]]);
    Sums(a, b);
  }

  /** In every run the ids in flight are those the history tells. */
  lemma {:induction false} FlightIsAccounted(steps: seq<Step>, trace: seq<State>, i: nat, c: ClientId)
    requires IsRun(Empty, steps, trace) && i <= |steps|
    ensures c in trace[i].clients ==> multiset(trace[i].clients[c].outbound) == InFlightAfter(steps, trace, i, c)
  {
    hide Enabled, Apply, Inv, EndsSession, IdGone;
    if i > 0 && c in trace[i].clients {
      FlightIsAccounted(steps, trace, i - 1, c);
      RunKeepsInv(steps, trace, i - 1);
      var s, step := trace[i - 1], steps[i - 1];
      ClientsComeAndGo(s, step, c);
      if c !in s.clients {
        NewClientLaw(s, step);
      } else {
        StepObeysLaw(s, step, c);
        if step.DoAck? && step.c == c && step.flowDone && !SessionEnds(s, step, c) {
          IdGoneCounts(s.clients[c].outbound, trace[i].clients[c].outbound, step.id);
        }
      }
    }
  }

  // ----- the end of a session -----

  /** Nothing of the session of `c` is left: no command queued, waiting or stored, nothing in flight, and
      the message ids start afresh. */
  ghost predicate Cleared(s: State, t: State, c: ClientId) {
    && t.commands == Others(s.commands, c) && c in t.clients
    && var b := t.clients[c];
       b.responses == [] && b.outbound == [] && b.msgID == 0 && (b.persistent ==> b.store == map[])
  }

  /** How much `n` calls or departures have become when `y` has been removed from queue and responses. */
  ghost predicate Dismissed(s: State, t: State, c: ClientId, y: Command)
    requires c in s.clients
  {
    var queued := if y in s.commands && y.client == c then 1 else 0;
    && multiset(t.log)[Dropped(y)] == multiset(s.log)[Dropped(y)] + queued
    && multiset(t.log)[FailureCalled(y)] ==
       multiset(s.log)[FailureCalled(y)]
       + if y.onFailure then queued + multiset(s.clients[c].responses)[y] else 0
  }

  lemma {:induction false} FailuresCounted(cmds: seq<Command>, y: Command)
    ensures multiset(FailureEvents(cmds))[FailureCalled(y)] == if y.onFailure then multiset(cmds)[y] else 0
    ensures multiset(FailureEvents(cmds))[Dropped(y)] == 0
  {
    if cmds != [] {
      var front, z := cmds[..|cmds| - 1], cmds[|cmds| - 1];
      assert cmds == front + [z];
      FailuresCounted(front, y);
      var es, e := FailureEvents(front), if z.onFailure then [FailureCalled(z)] else [];
      assert multiset(es + e) == multiset(es) + multiset(e);
      assert multiset(front + [z]) == multiset(front) + multiset{z};
    }
  }

  lemma CleanSessionClears(s: State, c: ClientId, y: Command)
    requires c in s.clients && DistinctIds(s.commands)
    ensures Cleared(s, CleanSession(s, c), c) && Dismissed(s, CleanSession(s, c), c, y)
  {
    hide DistinctIds, Others, FailureEvents, RemovalEvents, Purged, CleanSession;
    RemovalKeepsOthers(s.commands, c);
    CleanSessionClient(s, c);
    CleanSessionLogs(s, c);
    var es, fs := FailureEvents(s.clients[c].responses), RemovalEvents(s.commands, c);
    FailureCalledOnce(s.commands, c, y);
    FailuresCounted(s.clients[c].responses, y);
    Sums(es, fs);
    Sums(s.log, es + fs);
  }

  lemma CleanSessionLogs(s: State, c: ClientId)
    requires c in s.clients
    ensures
      var t := CleanSession(s, c);
      && t.log == s.log + (FailureEvents(s.clients[c].responses) + RemovalEvents(s.commands, c))
      && t.commands == Purged(s.commands, c)
  {
    hide FailureEvents, RemovalEvents, Purged;
  }

  /** What follows the removal changes neither the queue nor the five fields, and calls no failure. */
  lemma ClearedThenLogs(s: State, s1: State, t: State, es: seq<Event>, c: ClientId, y: Command)
    requires c in s.clients && Cleared(s, s1, c) && Dismissed(s, s1, c, y)
    requires t.commands == s1.commands && t.log == s1.log + es && Dropped(y) !in es && FailureCalled(y) !in es
    requires c in t.clients && var a, b := s1.clients[c], t.clients[c];
             b.responses == a.responses && b.outbound == a.outbound && b.msgID == a.msgID
             && b.persistent == a.persistent && b.store == a.store
    ensures Cleared(s, t, c) && Dismissed(s, t, c, y)
  {
    hide Others;
    assert multiset(s1.log + es) == multiset(s1.log) + multiset(es);
  }

  lemma CloseSessionClears(s: State, c: ClientId, y: Command)
    requires c in s.clients && DistinctIds(s.commands) && s.clients[c].cleanSession
    ensures Cleared(s, CloseSession(s, c), c) && Dismissed(s, CloseSession(s, c), c, y)
  {
    hide CleanSession, Others, DistinctIds;
    CleanSessionClears(CloseOnly(s, c), c, y);
  }

  lemma NextOrCloseClears(s: State, c: ClientId, y: Command)
    requires c in s.clients && DistinctIds(s.commands) && s.clients[c].cleanSession && NoneLeft(s.clients[c])
    ensures Cleared(s, NextOrClose(s, c), c) && Dismissed(s, NextOrClose(s, c), c, y)
  {
    hide CloseSession, Cleared, Dismissed, DistinctIds;
    CloseSessionClears(s, c, y);
    CloseSessionClient(s, c);
    ClearedThenLogs(s, CloseSession(s, c), NextOrClose(s, c),
                    if s.clients[c].connect.onFailure then [ConnectFailed(c)] else [], c, y);
  }

  lemma CheckDisconnectClears(s: State, x: Command, elapsed: bool, y: Command)
    requires x.client in s.clients && x.details.Disconnect? && DistinctIds(s.commands)
    requires s.clients[x.client].cleanSession && (s.clients[x.client].outbound == [] || elapsed)
    ensures Cleared(s, CheckDisconnect(s, x, elapsed), x.client)
    ensures Dismissed(s, CheckDisconnect(s, x, elapsed), x.client, y)
  {
    hide CloseSession, Cleared, Dismissed, DistinctIds;
    CloseSessionClears(s, x.client, y);
    CloseSessionClient(s, x.client);
    ClearedThenLogs(s, CloseSession(s, x.client), CheckDisconnect(s, x, elapsed),
                    if x.details.internal then [] else SuccessCall(x), x.client, y);
  }

  lemma ConnackClears(s: State, c: ClientId, y: Command)
    requires c in s.clients && DistinctIds(s.commands) && s.clients[c].cleanSession && s.clients[c].connectState == 3
    ensures Cleared(s, Connack(s, c, true), c) && Dismissed(s, Connack(s, c, true), c, y)
  {
    hide CleanSession, Cleared, Dismissed, DistinctIds;
    var cl := s.clients[c];
    var s1 := WithClient(s, c, cl.(connected := true, connectState := 0));
    CleanSessionClears(s1, c, y);
    CleanSessionClient(s1, c);
    UpdatedThenCleared(s, s1, CleanSession(s1, c), c, y);
    ClearedThenLogs(s, CleanSession(s1, c), Connack(s, c, true),
                    if cl.connect.onSuccess != 0 then [ConnectSucceeded(c)] else [], c, y);
  }

  lemma UpdatedThenCleared(s: State, s1: State, t: State, c: ClientId, y: Command)
    requires c in s.clients && c in s1.clients && s1.clients[c].responses == s.clients[c].responses
    requires s1.commands == s.commands && s1.log == s.log && Cleared(s1, t, c) && Dismissed(s1, t, c, y)
    ensures Cleared(s, t, c) && Dismissed(s, t, c, y)
  {
  }

  lemma {:induction false} OthersWithout(q: seq<Command>, i: nat, c: ClientId)
    requires i < |q| && q[i].client == c
    ensures Others(Without(q, i), c) == Others(q, c)
  {
    if i == 0 {
      assert Without(q, 0) == q[1..];
    } else {
      OthersWithout(q[1..], i - 1, c);
      assert Without(q, i) == [q[0]] + Without(q[1..], i - 1);
      assert Without(q, i)[1..] == Without(q[1..], i - 1);
    }
  }

  lemma DequeuedThenCleared(s: State, i: nat, t: State, c: ClientId, y: Command)
    requires i < |s.commands| && s.commands[i].client == c && c in s.clients
    requires Cleared(Dequeue(s, i), t, c) && Dismissed(Dequeue(s, i), t, c, y)
    ensures Cleared(s, t, c) && (y != s.commands[i] ==> Dismissed(s, t, c, y))
  {
    OthersWithout(s.commands, i, c);
    if y != s.commands[i] {
      WithoutKeeps(s.commands, i, y);
    }
    var x := s.commands[i];
    assert multiset(s.log + [Taken(x)]) == multiset(s.log) + multiset{Taken(x)};
  }

  lemma WithoutKeeps(q: seq<Command>, i: nat, y: Command)
    requires i < |q| && y != q[i]
    ensures y in Without(q, i) <==> y in q
  {
    assert q == q[..i] + [q[i]] + q[i + 1..];
  }

  lemma DispatchDisconnectClears(s: State, x: Command, net: Net, y: Command)
    requires x.client in s.clients && x.details.Disconnect? && DistinctIds(s.commands)
    requires EndsSession(s.clients[x.client], DoProcess(net), Some(x), x.client)
    ensures Cleared(s, DispatchDisconnect(s, x, net), x.client)
    ensures Dismissed(s, DispatchDisconnect(s, x, net), x.client, y)
  {
    hide CheckDisconnect, Cleared, Dismissed, DistinctIds;
    var c, t := x.client, DispatchDisconnect(s, x, net);
    var s0 := WithClient(s, c, s.clients[c].(connectState := -2));
    CheckDisconnectClears(s0, x, net.elapsed, y);
    CheckDisconnectClient(s0, x, net.elapsed);
    UpdatedThenCleared(s, s0, CheckDisconnect(s0, x, net.elapsed), c, y);
    ClearedThenLogs(s, CheckDisconnect(s0, x, net.elapsed), t, [], c, y);
  }

  lemma TurnEndClears(s: State, net: Net, c: ClientId, y: Command)
    requires Inv(s) && c in s.clients
    requires EndsSession(s.clients[c], DoProcess(net), DispatchedOf(s, DoProcess(net), Process(s, net), c), c)
    ensures Cleared(s, Process(s, net), c)
    ensures Some(y) != DispatchedBy(s, DoProcess(net), Process(s, net)) ==> Dismissed(s, Process(s, net), c, y)
  {
    hide Inv, DistinctIds, FirstReady, Sends, FirstOfItsClient, Cleared, Dismissed, Process, Dequeue, EndsSession;
    hide DispatchConnect, DispatchDisconnect, DispatchRequest;
    OnlyDisconnectEnds(s.clients[c], net, DispatchedOf(s, DoProcess(net), Process(s, net), c), c);
    TurnSends(s, net);
    var i := FirstReady(s, net.idle, 0);
    StillDistinct(s, i);
    var s1, x := Dequeue(s, i), s.commands[i];
    SameConditions(s.clients[c], s1.clients[c], DoProcess(net), Some(x), c);
    DispatchDisconnectClears(s1, x, net, y);
    DequeuedThenCleared(s, i, Process(s, net), c, y);
  }

  lemma OnlyDisconnectEnds(a: Client, net: Net, x: Option<Command>, c: ClientId)
    requires EndsSession(a, DoProcess(net), x, c)
    ensures x.Some? && x.value.details.Disconnect?
  {
  }

  lemma StillDistinct(s: State, i: nat)
    requires Inv(s) && i < |s.commands|
    ensures
      var c := s.commands[i].client;
      && c in s.clients && c in Dequeue(s, i).clients && Alike(s.clients[c], Dequeue(s, i).clients[c])
      && DistinctIds(Dequeue(s, i).commands)
  {
    assert s.commands[i] in s.commands;
    DequeueKeepsInv(s, i);
    hide DistinctIds, StoreInv, TokenInv;
  }

  /** The end of a session clears it: the client's commands leave queue, responses and store, each one's
      failure callback is called once, the other clients' commands stay as they are. */
  lemma SessionEndClears(s: State, step: Step, c: ClientId, y: Command)
    requires Inv(s) && Enabled(s, step) && SessionEnds(s, step, c)
    ensures Cleared(s, Apply(s, step), c)
    ensures Some(y) != DispatchedBy(s, step, Apply(s, step)) ==> Dismissed(s, Apply(s, step), c, y)
  {
    hide Inv, Cleared, Dismissed, DistinctIds, CheckDisconnect, Connack, SocketError, NextOrClose, Process;
    IdsAreDistinct(s);
    if step.DoProcess? {
      TurnEndClears(s, step.net, c, y);
    } else if step.DoDisconnectTimer? {
      CheckDisconnectClears(s, s.clients[c].disconnect.value, step.elapsed, y);
    } else if step.DoSocketError? {
      NextOrCloseClears(s, c, y);
      SocketErrorCloses(s, c);
    } else if step.DoConnectTimeout? {
      NextOrCloseClears(s, c, y);
    } else if step.accepted && s.clients[c].connectState == 3 {
      ConnackClears(s, c, y);
    } else {
      NextOrCloseClears(s, c, y);
      RefusedCloses(s, c, step.accepted);
    }
  }

  lemma IdsAreDistinct(s: State)
    requires Inv(s)
    ensures DistinctIds(s.commands)
  {
  }

  lemma SocketErrorCloses(s: State, c: ClientId)
    requires c in s.clients && !s.clients[c].connected && s.clients[c].connectState != 0
    ensures SocketError(s, c) == NextOrClose(s, c)
  {
  }

  lemma RefusedCloses(s: State, c: ClientId, accepted: bool)
    requires c in s.clients && !(accepted && s.clients[c].connectState == 3)
    ensures Connack(s, c, accepted) == NextOrClose(s, c)
  {
  }

  /** An accepted connection: the client is connected.  If it asked for a clean session the old one is
      thrown away; otherwise queue, responses, store, ids in flight and message ids stay as they are. */
  lemma ConnackOpens(s: State, c: ClientId, y: Command)
    requires Inv(s) && c in s.clients && s.clients[c].connectState == 3
    ensures s.clients[c].cleanSession ==> SessionEnds(s, DoConnack(c, true), c)
    ensures
      var a, t := s.clients[c], Connack(s, c, true);
      && c in t.clients && t.clients[c].connected && t.clients[c].connectState == 0
      && var b := t.clients[c];
         if a.cleanSession then
           && t.commands == Others(s.commands, c)
           && b.responses == [] && b.outbound == [] && b.msgID == 0 && (b.persistent ==> b.store == map[])
           && Dismissed(s, t, c, y)
         else
           && t.commands == s.commands
           && b.responses == a.responses && b.outbound == a.outbound && b.msgID == a.msgID && b.store == a.store
  {
    assert DistinctIds(s.commands);
    ConnackLaw(s, c, true);
    hide Inv, DistinctIds, CleanSession, Dismissed, Others, ClientLaw;
    if s.clients[c].cleanSession {
      ConnackClears(s, c, y);
    }
    OpenedLink(s.clients[c], Connack(s, c, true).clients[c], c);
  }

  lemma OpenedLink(a: Client, b: Client, c: ClientId)
    requires a.connectState == 3 && ClientLaw(a, b, DoConnack(c, true), None, c)
    ensures b.connected && b.connectState == 0
  {
  }

  lemma {:induction false} FailuresOnly(cmds: seq<Command>)
    ensures forall e :: e in FailureEvents(cmds) ==> e.FailureCalled?
  {
    if cmds != [] {
      FailuresOnly(cmds[..|cmds| - 1]);
    }
  }

  lemma {:induction false} DropsAndFailuresOnly(q: seq<Command>, c: ClientId)
    ensures forall e :: e in RemovalEvents(q, c) ==> e.Dropped? || e.FailureCalled?
  {
    if q != [] {
      DropsAndFailuresOnly(q[..|q| - 1], c);
    }
  }

  lemma CleanSessionReportsNothing(s: State, c: ClientId, e: Event)
    requires c in s.clients && (e.ConnectSucceeded? || e.ConnectFailed?)
    ensures multiset(CleanSession(s, c).log)[e] == multiset(s.log)[e]
  {
    hide FailureEvents, RemovalEvents, CleanSession;
    CleanSessionLogs(s, c);
    var es, fs := FailureEvents(s.clients[c].responses), RemovalEvents(s.commands, c);
    FailuresOnly(s.clients[c].responses);
    DropsAndFailuresOnly(s.commands, c);
    assert e !in es + fs;
    Sums(s.log, es + fs);
  }

  /** An accepted connection is reported once to an application that asked for it, and not again. */
  lemma ConnackReports(s: State, c: ClientId)
    requires c in s.clients && s.clients[c].connectState == 3
    ensures
      var t := Connack(s, c, true);
      && multiset(t.log)[ConnectSucceeded(c)] ==
         multiset(s.log)[ConnectSucceeded(c)] + (if s.clients[c].connect.onSuccess != 0 then 1 else 0)
      && multiset(t.log)[ConnectFailed(c)] == multiset(s.log)[ConnectFailed(c)]
      && c in t.clients && t.clients[c].connect.onSuccess == 0
  {
    hide CleanSession;
    var cl := s.clients[c];
    var s1 := WithClient(s, c, cl.(connected := true, connectState := 0));
    CleanSessionReportsNothing(s1, c, ConnectSucceeded(c));
    CleanSessionReportsNothing(s1, c, ConnectFailed(c));
    CleanSessionClient(s1, c);
    Sums(if cl.cleanSession then CleanSession(s1, c).log else s1.log,
         if cl.connect.onSuccess != 0 then [ConnectSucceeded(c)] else []);
  }

  /** So is a connection given up. */
  lemma GivingUpReports(s: State, c: ClientId)
    requires c in s.clients && NoneLeft(s.clients[c])
    ensures
      var t := NextOrClose(s, c);
      && multiset(t.log)[ConnectFailed(c)] ==
         multiset(s.log)[ConnectFailed(c)] + (if s.clients[c].connect.onFailure then 1 else 0)
      && multiset(t.log)[ConnectSucceeded(c)] == multiset(s.log)[ConnectSucceeded(c)]
  {
    hide CleanSession;
    var s1 := CloseOnly(s, c);
    CleanSessionReportsNothing(s1, c, ConnectSucceeded(c));
    CleanSessionReportsNothing(s1, c, ConnectFailed(c));
    Sums(CloseSession(s, c).log, if s.clients[c].connect.onFailure then [ConnectFailed(c)] else []);
  }

  lemma OthersAreOthers(q: seq<Command>, c: ClientId, a: Command)
    ensures a in Others(q, c) <==> a in q && a.client != c
  {
    RemovalKeepsOthers(q, c);
  }

  predicate Held(s: State, a: Command) {
    a in s.commands || (a.client in s.clients && a in s.clients[a.client].responses)
  }

  /** What waits for an answer waited before or has just been dispatched from the queue. */
  lemma WaitingComesFromQueue(s: State, step: Step, a: Command)
    requires Inv(s) && Enabled(s, step) && a.client in Apply(s, step).clients
    requires a in Apply(s, step).clients[a.client].responses
    ensures Held(s, a)
  {
    hide Inv, Enabled, Apply, EndsSession;
    var c, t := a.client, Apply(s, step);
    ClientsComeAndGo(s, step, c);
    if c !in s.clients {
      NewClientLaw(s, step);
    } else {
      StepObeysLaw(s, step, c);
      var x := DispatchedOf(s, step, t, c);
      if step.DoProcess? {
        ProcessIs(s, step);
        TurnSends(s, step.net);
      }
    }
  }

  /** In every run: what a client has queued or waiting after a session of its has ended was added after
      that. */
  lemma {:induction false} NothingOutlivesItsSession(steps: seq<Step>, trace: seq<State>, j: nat, i: nat, a: Command)
    requires IsRun(Empty, steps, trace) && j < i <= |steps| && SessionEnds(trace[j], steps[j], a.client)
    ensures trace[j + 1].log <= trace[i].log
    ensures Held(trace[i], a) ==> Added(a) in trace[i].log[|trace[j + 1].log|..]
  {
    hide Enabled, Apply, Inv, MayDrop, SessionEnds, Others;
    RunKeepsInv(steps, trace, i - 1);
    if i == j + 1 {
      SessionEndClears(trace[j], steps[j], a.client, a);
      OthersAreOthers(trace[j].commands, a.client, a);
    } else {
      NothingOutlivesItsSession(steps, trace, j, i - 1, a);
      var s, t := trace[i - 1], trace[i];
      StepGoes(s, steps[i - 1], a);
      if Held(t, a) && a !in t.commands {
        WaitingComesFromQueue(s, steps[i - 1], a);
      }
      assert t.log == s.log + t.log[|s.log|..];
    }
  }

  /** And what is then stored for it is the form of such a command. */
  lemma NothingStoredOutlivesIt(steps: seq<Step>, trace: seq<State>, j: nat, i: nat, c: ClientId, key: nat)
    requires IsRun(Empty, steps, trace) && j < i <= |steps| && SessionEnds(trace[j], steps[j], c)
    requires c in trace[i].clients && trace[i].clients[c].persistent && key in trace[i].clients[c].store
    ensures trace[j + 1].log <= trace[i].log
    ensures exists a :: Added(a) in trace[i].log[|trace[j + 1].log|..] && a.client == c && a.seqno == key
                        && Persistable(a.details) && Representable(a.details)
                        && trace[i].clients[c].store[key] == Layout(a.token, a.details)
  {
    hide SessionEnds, Layout, Enabled, Apply, Representable, Persistable;
    RunKeepsInv(steps, trace, i);
    var q, cl := trace[i].commands, trace[i].clients[c];
    assert Mirrors(q, c, cl.store, cl.commandSeqno);
    var a :| a in q && Backs(a, c, key);
    NothingOutlivesItsSession(steps, trace, j, i, a);
    assert Held(trace[i], a);
  }

  /** In every run a command has been dropped only if its client was destroyed or its session ended. */
  lemma {:induction false} DroppedOnlyWithItsSession(steps: seq<Step>, trace: seq<State>, i: nat, a: Command)
    requires IsRun(Empty, steps, trace) && i <= |steps| && Dropped(a) in trace[i].log
    ensures exists j :: 0 <= j < i && (steps[j] == DoDestroy(a.client) || SessionEnds(trace[j], steps[j], a.client))
  {
    hide Enabled, Apply, Inv, EndsSession;
    if i > 0 {
      if Dropped(a) in trace[i - 1].log {
        DroppedOnlyWithItsSession(steps, trace, i - 1, a);
      } else {
        RunKeepsInv(steps, trace, i - 1);
        StepGoes(trace[i - 1], steps[i - 1], a);
        assert SessionEnds(trace[i - 1], steps[i - 1], a.client) || steps[i - 1] == DoDestroy(a.client);
      }
    }
  }
}
