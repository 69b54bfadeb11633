/** The connect chain ends: however its failures are spread over dispatches, sockets, timeouts and
    CONNACKs, and whatever happens in between, a bounded number of the client's own steps ends it. */
module ConnectEnds {
  import opened Bytes
  import opened CommandCodec
  import opened LinkedLists
  import opened AsyncState
  import opened AsyncInvariants
  import opened ConnectChain

  /** The steps that move the chain of `c` on: a dispatch of its CONNECT, or the failure of the attempt
      under way. */
  predicate Own(s: State, step: Step, c: ClientId) {
    match step
    case DoProcess(net) =>
      var i := FirstReady(s, net.idle, 0);
      i >= 0 && s.commands[i].client == c
    case _ => Concerns(step, c)
  }

  /** How many of the first `i` steps of a run are. */
  function OwnSteps(steps: seq<Step>, trace: seq<State>, i: nat, c: ClientId): nat
    requires i <= |steps| <= |trace|
  {
    if i == 0 then 0
    else OwnSteps(steps, trace, i - 1, c) + (if Own(trace[i - 1], steps[i - 1], c) then 1 else 0)
  }

  /** What is left: two moves for each attempt not made, one for the attempt under way. */
  function Left(cl: Client, k: nat): int {
    2 * (Total(cl) - k) + (if cl.connectState != 0 then 1 else 0)
  }

  /** After nextOrClose the client is idle and its options are the same. */
  lemma RetryIsIdle(s: State, c: ClientId)
    requires c in s.clients
    ensures
      var t, cl := NextOrClose(s, c), s.clients[c];
      && c in t.clients && t.clients[c].connectState == 0
      && t.clients[c].uriCount == cl.uriCount && t.clients[c].version == cl.version
  {
    hide Purged, RemovalEvents, FailureEvents, MoreToTry, Add;
    var cl := s.clients[c];
    var s1 := CloseOnly(s, c);
    var d := NextOptions(cl.connect.currentURI, cl.connect.version, cl);
    RetryLeavesClients(s1.(nextId := s1.nextId + 1), New(s1, c, 0, cl.connect.onSuccess, cl.connect.onFailure, d));
  }

  lemma RetryLeavesClients(s: State, cmd: Command)
    requires cmd.client in s.clients && cmd.details.Connect?
    ensures Add(s, cmd).clients == s.clients
  {
  }

  lemma ChainBounds(s: State, c: ClientId, a0: seq<Try>, r0: nat, k: nat)
    requires Chain(s, c, a0, r0, k)
    ensures c in s.clients && k <= Total(s.clients[c])
    ensures Over(s, c) <==> Left(s.clients[c], k) == 0
    ensures k == 0 ==> s.clients[c].connectState == 0
    ensures Over(s, c) ==> Reports(s.log, c) == r0 + 1
  {
    hide Attempts, Reports, Expected, Pending, Total;
    if Waiting(s, c, k) {
      var a :| a in s.commands && ConnectOf(a, c);
    }
  }

  /** Each own step uses up one or two moves, no other step uses any or adds any. */
  lemma StepUsesMoves(s: State, step: Step, c: ClientId, a0: seq<Try>, r0: nat, k: nat) returns (k': nat)
    requires Inv(s) && Chain(s, c, a0, r0, k) && Enabled(s, step) && Failing(step, c)
    ensures c in s.clients && Chain(Apply(s, step), c, a0, r0, k') && c in Apply(s, step).clients
    ensures
      var before, after := s.clients[c], Apply(s, step).clients[c];
      && Total(after) == Total(before)
      && if Own(s, step, c) then Left(before, k) - 2 <= Left(after, k') < Left(before, k)
         else Left(after, k') == Left(before, k)
  {
    ChainBounds(s, c, a0, r0, k);
    hide Inv, Chain, Failing;
    if step.DoProcess? {
      k' := ProcessUsesMoves(s, step.net, c, a0, r0, k);
    } else if Concerns(step, c) {
      k' := k;
      OwnFailureKeepsChain(s, step, c, a0, r0, k);
      OwnFailureUsesMove(s, step, c, a0, r0, k);
    } else {
      k' := k;
      hide Enabled, Apply, Left;
      ChainIsIdle(s, c, a0, r0, k);
      QuietStep(s, step, c);
      QuietKeepsChain(s, Apply(s, step), c, a0, r0, k);
      QuietLeft(s, Apply(s, step), c, k);
    }
  }

  lemma QuietLeft(s: State, t: State, c: ClientId, k: nat)
    requires Quiet(s, t, c)
    ensures Left(t.clients[c], k) == Left(s.clients[c], k) && Total(t.clients[c]) == Total(s.clients[c])
  {
    hide Attempts, Reports;
  }

  lemma OwnFailureUsesMove(s: State, step: Step, c: ClientId, a0: seq<Try>, r0: nat, k: nat)
    requires Inv(s) && Chain(s, c, a0, r0, k) && Enabled(s, step) && Failing(step, c)
    requires Concerns(step, c) && !step.DoProcess?
    ensures
      var t := Apply(s, step);
      && c in s.clients && c in t.clients && Total(t.clients[c]) == Total(s.clients[c])
      && Left(t.clients[c], k) == Left(s.clients[c], k) - 1
  {
    ChainIsIdle(s, c, a0, r0, k);
    hide Inv, Chain, NextOrClose, CleanSession;
    RetryIsIdle(s, c);
  }

  lemma ProcessUsesMoves(s: State, net: Net, c: ClientId, a0: seq<Try>, r0: nat, k: nat) returns (k': nat)
    requires Inv(s) && Chain(s, c, a0, r0, k) && 0 <= net.connectState <= 3
    ensures c in s.clients && Chain(Process(s, net), c, a0, r0, k') && c in Process(s, net).clients
    ensures
      var before, after := s.clients[c], Process(s, net).clients[c];
      && Total(after) == Total(before)
      && if Own(s, DoProcess(net), c) then Left(before, k) - 2 <= Left(after, k') < Left(before, k)
         else Left(after, k') == Left(before, k)
  {
    hide Inv, Chain, Process, FirstReady, Left, Total;
    var i := FirstReady(s, net.idle, 0);
    if i >= 0 && s.commands[i].client == c {
      k' := k + 1;
      OwnDispatch(s, i, net, c, a0, r0, k);
    } else {
      k' := k;
      ChainIsIdle(s, c, a0, r0, k);
      QuietProcess(s, net, c);
      QuietKeepsChain(s, Process(s, net), c, a0, r0, k);
      QuietLeft(s, Process(s, net), c, k);
    }
  }

  lemma OwnDispatch(s: State, i: nat, net: Net, c: ClientId, a0: seq<Try>, r0: nat, k: nat)
    requires Inv(s) && Chain(s, c, a0, r0, k) && 0 <= net.connectState <= 3
    requires i < |s.commands| && i == FirstReady(s, net.idle, 0) && s.commands[i].client == c
    ensures
      var t := Process(s, net);
      && c in s.clients && Chain(t, c, a0, r0, k + 1) && c in t.clients
      && Total(t.clients[c]) == Total(s.clients[c])
      && Left(s.clients[c], k) - 2 <= Left(t.clients[c], k + 1) < Left(s.clients[c], k)
  {
    hide Inv, Chain, Dequeue, DispatchConnect, Dispatch, Process, FirstReady;
    WaitsForDispatch(s, i, net, c, a0, r0, k);
    TurnIsConnect(s, i, net);
    DispatchMakesAttempt(s, i, net, c, a0, r0, k);
    ChainBounds(Process(s, net), c, a0, r0, k + 1);
  }

  lemma TurnIsConnect(s: State, i: nat, net: Net)
    requires i < |s.commands| && i == FirstReady(s, net.idle, 0) && s.commands[i].client in s.clients
    requires s.commands[i].details.Connect?
    ensures s.commands[i].client in Dequeue(s, i).clients
    ensures Process(s, net) == DispatchConnect(Dequeue(s, i), s.commands[i], net)
  {
    hide FirstReady, DispatchConnect;
  }

  /** Only the waiting CONNECT of `c` can be dispatched. */
  lemma WaitsForDispatch(s: State, i: nat, net: Net, c: ClientId, a0: seq<Try>, r0: nat, k: nat)
    requires Inv(s) && Chain(s, c, a0, r0, k)
    requires i < |s.commands| && i == FirstReady(s, net.idle, 0) && s.commands[i].client == c
    ensures c in s.clients && ConnectOf(s.commands[i], c) && s.clients[c].connectState == 0
  {
    assert s.commands[i] in s.commands;
  }

  lemma {:induction false} MovesAreUsed(s: State, steps: seq<Step>, trace: seq<State>, i: nat, c: ClientId,
                                        a0: seq<Try>, r0: nat) returns (k: nat)
    requires Inv(s) && Chain(s, c, a0, r0, 0) && IsRun(s, steps, trace) && i < |trace|
    requires forall step :: step in steps ==> Failing(step, c)
    ensures Inv(trace[i]) && Chain(trace[i], c, a0, r0, k) && c in s.clients && c in trace[i].clients
    ensures Total(trace[i].clients[c]) == Total(s.clients[c])
    ensures
      var used := 2 * Total(s.clients[c]) - Left(trace[i].clients[c], k);
      OwnSteps(steps, trace, i, c) <= used <= 2 * OwnSteps(steps, trace, i, c)
  {
    ChainBounds(s, c, a0, r0, 0);
    hide Inv, Chain, Enabled, Apply, Failing, Own;
    if i == 0 {
      k := 0;
    } else {
      var j := MovesAreUsed(s, steps, trace, i - 1, c, a0, r0);
      assert steps[i - 1] in steps;
      k := StepUsesMoves(trace[i - 1], steps[i - 1], c, a0, r0, j);
      StepKeepsInv(trace[i - 1], steps[i - 1]);
    }
  }

  /** In every run after a fresh connect in which `c` keeps failing, wherever each failure is seen:
      there are at most two own steps for each attempt, after that many the chain is over and the failure
      has been reported, and it is not over before every attempt has had its step. */
  lemma ChainTerminates(s: State, steps: seq<Step>, trace: seq<State>, i: nat, c: ClientId, a0: seq<Try>, r0: nat)
    requires Inv(s) && Chain(s, c, a0, r0, 0) && IsRun(s, steps, trace) && i < |trace|
    requires forall step :: step in steps ==> Failing(step, c)
    ensures c in s.clients && c in trace[i].clients
    ensures
      var own, n := OwnSteps(steps, trace, i, c), Total(s.clients[c]);
      && own <= 2 * n
      && (own == 2 * n ==> Over(trace[i], c))
      && (Over(trace[i], c) ==> n <= own && Reports(trace[i].log, c) == r0 + 1)
  {
    hide Inv, Chain, IsRun, Failing, Own, Over, Total;
    var k := MovesAreUsed(s, steps, trace, i, c, a0, r0);
    ChainBounds(trace[i], c, a0, r0, k);
  }

  /** Until then a failing step is at hand: the attempt under way can time out, or the waiting CONNECT
      is ready to be sent whatever the sockets do. */
  lemma ChainGoesOn(s: State, c: ClientId, a0: seq<Try>, r0: nat, k: nat)
    requires Chain(s, c, a0, r0, k) && !Over(s, c)
    ensures Enabled(s, DoConnectTimeout(c)) || exists a :: a in s.commands && ConnectOf(a, c) && Ready(s, a, {})
  {
    hide Attempts, Reports, Expected;
    if Waiting(s, c, k) {
      var a :| a in s.commands && ConnectOf(a, c);
      assert Ready(s, a, {});
    }
  }
}
