/** The balance behind AsyncAnswers, and that every step keeps it: the requests added are those queued,
    those waiting for an answer and those called back, but for a gap. */
module AsyncBalance {
  import opened Bytes
  import opened CommandCodec
  import opened LinkedLists
  import opened AsyncState
  import opened AsyncInvariants

  /** The requests of `c` that can be accounted for: those with both callbacks. */
  predicate Tracked(a: Command, c: ClientId) {
    a.client == c && Persistable(a.details) && a.onSuccess != 0 && a.onFailure
  }

  /** Those of them that are acknowledged, which a publication of QoS 0 is not. */
  predicate Awaited(a: Command) {
    Tracked(a, a.client) && NeedsToken(a.details)
  }

  function One(a: Command, c: ClientId): multiset<Command> {
    if Tracked(a, c) then multiset{a} else multiset{}
  }

  /** The tracked requests in a list. */
  function Bag(cmds: seq<Command>, c: ClientId): multiset<Command> {
    if cmds == [] then multiset{} else Bag(cmds[..|cmds| - 1], c) + One(cmds[|cmds| - 1], c)
  }

  /** What one event adds to the requests added, and to those called back. */
  function AddedOf(e: Event, c: ClientId): multiset<Command> {
    if e.Added? then One(e.cmd, c) else multiset{}
  }

  function CalledOf(e: Event, c: ClientId): multiset<Command> {
    if e.SuccessCalled? || e.FailureCalled? then One(e.cmd, c) else multiset{}
  }

  /** The tracked requests ever added. */
  function AddedBag(log: seq<Event>, c: ClientId): multiset<Command> {
    if log == [] then multiset{} else AddedBag(log[..|log| - 1], c) + AddedOf(log[|log| - 1], c)
  }

  /** One entry for each call of a tracked request's success or failure callback. */
  function CalledBag(log: seq<Event>, c: ClientId): multiset<Command> {
    if log == [] then multiset{} else CalledBag(log[..|log| - 1], c) + CalledOf(log[|log| - 1], c)
  }

  function Responses(s: State, c: ClientId): seq<Command> {
    if c in s.clients then s.clients[c].responses else []
  }

  /** No request twice, and all allocated before address `n`. */
  predicate Once(bag: multiset<Command>, n: nat) {
    forall a :: a in bag ==> bag[a] == 1 && a.id < n
  }

  /** What keeps calls from matching requests: requests that are freed without a call, or are in the
      dispatcher's hands, and publications that are called back while they go on waiting. */
  datatype Gap = Gap(lost: multiset<Command>, early: multiset<Command>)

  function Plus(gap: Gap, x: Command, c: ClientId): Gap {
    gap.(lost := gap.lost + One(x, c))
  }

  /** Each request is added once, and but for the gap the added requests are queued, awaiting an answer
      or called back. */
  ghost predicate Balanced(s: State, c: ClientId, gap: Gap) {
    && Once(AddedBag(s.log, c), s.nextId)
    && forall a: Command ::
         AddedBag(s.log, c)[a] + gap.early[a] ==
         Bag(s.commands, c)[a] + Bag(Responses(s, c), c)[a] + CalledBag(s.log, c)[a] + gap.lost[a]
  }

  // ----- the projections -----

  lemma {:induction false} BagConcat(q: seq<Command>, r: seq<Command>, c: ClientId)
    ensures Bag(q + r, c) == Bag(q, c) + Bag(r, c)
    decreases |r|
  {
    hide One;
    if r == [] {
      assert q + r == q;
    } else {
      var l, front, x := q + r, r[..|r| - 1], r[|r| - 1];
      BagConcat(q, front, c);
      assert l[..|l| - 1] == q + front && l[|l| - 1] == x;
      Associates(Bag(q, c), Bag(front, c), One(x, c));
    }
  }

  lemma BagOne(a: Command, c: ClientId)
    ensures Bag([a], c) == One(a, c)
  {
    assert [a][..0] == [];
  }

  lemma BagWithout(q: seq<Command>, i: nat, c: ClientId)
    requires i < |q|
    ensures Bag(q, c) == Bag(Without(q, i), c) + One(q[i], c)
  {
    assert q == q[..i] + ([q[i]] + q[i + 1..]);
    BagConcat(q[..i], [q[i]] + q[i + 1..], c);
    BagConcat([q[i]], q[i + 1..], c);
    BagConcat(q[..i], q[i + 1..], c);
    BagOne(q[i], c);
  }

  lemma Associates(a: multiset<Command>, b: multiset<Command>, c: multiset<Command>)
    ensures a + (b + c) == a + b + c
  {
  }

  lemma {:induction false} AddedConcat(log: seq<Event>, es: seq<Event>, c: ClientId)
    ensures AddedBag(log + es, c) == AddedBag(log, c) + AddedBag(es, c)
    decreases |es|
  {
    hide AddedOf;
    if es == [] {
      assert log + es == log;
    } else {
      var l, front, e := log + es, es[..|es| - 1], es[|es| - 1];
      AddedConcat(log, front, c);
      assert l[..|l| - 1] == log + front && l[|l| - 1] == e;
      Associates(AddedBag(log, c), AddedBag(front, c), AddedOf(e, c));
    }
  }

  lemma {:induction false} CalledConcat(log: seq<Event>, es: seq<Event>, c: ClientId)
    ensures CalledBag(log + es, c) == CalledBag(log, c) + CalledBag(es, c)
    decreases |es|
  {
    hide CalledOf;
    if es == [] {
      assert log + es == log;
    } else {
      var l, front, e := log + es, es[..|es| - 1], es[|es| - 1];
      CalledConcat(log, front, c);
      assert l[..|l| - 1] == log + front && l[|l| - 1] == e;
      Associates(CalledBag(log, c), CalledBag(front, c), CalledOf(e, c));
    }
  }

  lemma BagsConcat(log: seq<Event>, es: seq<Event>, c: ClientId)
    ensures AddedBag(log + es, c) == AddedBag(log, c) + AddedBag(es, c)
    ensures CalledBag(log + es, c) == CalledBag(log, c) + CalledBag(es, c)
  {
    AddedConcat(log, es, c);
    CalledConcat(log, es, c);
  }

  lemma OneEventBags(e: Event, c: ClientId)
    ensures AddedBag([e], c) == if e.Added? then One(e.cmd, c) else multiset{}
    ensures CalledBag([e], c) == if e.SuccessCalled? || e.FailureCalled? then One(e.cmd, c) else multiset{}
  {
    assert [e][..0] == [];
  }

  /** Logging at most one event that is neither an addition nor a call of a tracked request. */
  lemma SilentLog(s: State, es: seq<Event>, c: ClientId, gap: Gap)
    requires Balanced(s, c, gap) && |es| <= 1
    requires forall e :: e in es ==> !e.Added? && ((e.SuccessCalled? || e.FailureCalled?) ==> !Tracked(e.cmd, c))
    ensures Balanced(Logged(s, es), c, gap)
  {
    hide AddedBag, CalledBag, Bag, Tracked;
    BagsConcat(s.log, es, c);
    if es == [] {
      assert s.log + es == s.log;
    } else {
      assert es == [es[0]];
      OneEventBags(es[0], c);
    }
  }

  /** Calling the one request that is in the dispatcher's hands. */
  lemma CallSettles(s: State, x: Command, e: Event, c: ClientId, gap: Gap)
    requires Balanced(s, c, Plus(gap, x, c)) && (e == SuccessCalled(x) || e == FailureCalled(x))
    ensures Balanced(Logged(s, [e]), c, gap)
  {
    hide AddedBag, CalledBag, Bag, Tracked;
    BagsConcat(s.log, [e], c);
    OneEventBags(e, c);
  }

  // ----- the operations -----

  lemma AddBalances(s: State, cmd: Command, c: ClientId, gap: Gap)
    requires Balanced(s, c, gap) && cmd.client in s.clients && Representable(cmd.details)
    requires Tracked(cmd, c) ==> cmd.id < s.nextId && Once(AddedBag(s.log, c), cmd.id)
    ensures Balanced(Add(s, cmd), c, gap)
  {
    hide AddedBag, CalledBag, Bag, Layout, Representable, Once;
    if Add(s, cmd).commands != s.commands {
      var t := Add(s, cmd);
      var x := AddShape(s, cmd);
      AddKeepsOnce(s, cmd, x, c);
      hide Add;
      BagsConcat(s.log, [Added(x)], c);
      OneEventBags(Added(x), c);
      BagOne(x, c);
      BagConcat([x], s.commands, c);
      BagConcat(s.commands, [x], c);
      assert Responses(t, c) == Responses(s, c);
    }
  }

  lemma AddKeepsOnce(s: State, cmd: Command, x: Command, c: ClientId)
    requires x == cmd.(seqno := x.seqno) && Once(AddedBag(s.log, c), s.nextId)
    requires Tracked(cmd, c) ==> cmd.id < s.nextId && Once(AddedBag(s.log, c), cmd.id)
    ensures Once(AddedBag(s.log + [Added(x)], c), s.nextId)
  {
    hide AddedBag;
    AddedConcat(s.log, [Added(x)], c);
    OneEventBags(Added(x), c);
  }

  lemma AddNewBalances(s: State, d: ClientId, token: int32, onSuccess: nat, onFailure: bool, details: Details,
                       c: ClientId, gap: Gap)
    requires Balanced(s, c, gap) && d in s.clients && Representable(details)
    ensures Balanced(AddNew(s, d, token, onSuccess, onFailure, details), c, gap)
  {
    hide Bag, AddedBag, CalledBag, Add, Tracked, Representable;
    AddBalances(s.(nextId := s.nextId + 1), New(s, d, token, onSuccess, onFailure, details), c, gap);
  }

  lemma {:induction false} FailuresCall(cmds: seq<Command>, c: ClientId)
    ensures CalledBag(FailureEvents(cmds), c) == Bag(cmds, c) && AddedBag(FailureEvents(cmds), c) == multiset{}
  {
    if cmds != [] {
      var front, x := cmds[..|cmds| - 1], cmds[|cmds| - 1];
      FailuresCall(front, c);
      BagsConcat(FailureEvents(front), FailureCall(x), c);
      OneEventBags(FailureCalled(x), c);
    }
  }

  lemma {:induction false} NoneOfOthers(cmds: seq<Command>, c: ClientId)
    requires forall a :: a in cmds ==> a.client != c
    ensures Bag(cmds, c) == multiset{}
  {
    if cmds != [] {
      NoneOfOthers(cmds[..|cmds| - 1], c);
    }
  }

  lemma {:induction false} RemovalsCall(q: seq<Command>, d: ClientId, c: ClientId)
    ensures Bag(q, c) == Bag(Purged(q, d), c) + CalledBag(RemovalEvents(q, d), c)
    ensures AddedBag(RemovalEvents(q, d), c) == multiset{}
  {
    hide AddedBag, CalledBag, Bag, One;
    if q == [] {
      NoneCounted(c);
    } else {
      var front, x := q[..|q| - 1], q[|q| - 1];
      RemovalsCall(front, d, c);
      assert q == front + [x];
      BagConcat(front, [x], c);
      BagOne(x, c);
      BagConcat(Purged(front, d), [x], c);
      OneRemovalCalls(x, d, c);
      BagsConcat(RemovalEvents(front, d), Removal(x, d), c);
      if x.client == d {
        assert Purged(q, d) == Purged(front, d);
      }
    }
  }

  lemma NoneCounted(c: ClientId)
    ensures Bag([], c) == multiset{} && AddedBag([], c) == multiset{} && CalledBag([], c) == multiset{}
  {
  }

  lemma OneRemovalCalls(x: Command, d: ClientId, c: ClientId)
    ensures CalledBag(Removal(x, d), c) == if x.client == d then One(x, c) else multiset{}
    ensures AddedBag(Removal(x, d), c) == multiset{}
  {
    BagsConcat([Dropped(x)], [FailureCalled(x)], c);
    assert [Dropped(x)] + [FailureCalled(x)] == [Dropped(x), FailureCalled(x)];
    OneEventBags(Dropped(x), c);
    OneEventBags(FailureCalled(x), c);
  }

  lemma RemoveAllBalances(s: State, d: ClientId, c: ClientId, gap: Gap)
    requires Balanced(s, c, gap) && d in s.clients
    requires forall r :: r in s.clients[d].responses ==> r.client == d
    ensures Balanced(RemoveAll(s, d), c, gap)
  {
    hide AddedBag, CalledBag, Bag, Purged, RemovalEvents, FailureEvents, Tracked;
    var rs := s.clients[d].responses;
    var fs, es := FailureEvents(rs), RemovalEvents(s.commands, d);
    BagsConcat(s.log, fs + es, c);
    BagsConcat(fs, es, c);
    FailuresCall(rs, c);
    RemovalsCall(s.commands, d, c);
    NoneOfOthers([], c);
    if c != d {
      NoneOfOthers(rs, c);
    }
  }

  lemma CleanSessionBalances(s: State, d: ClientId, c: ClientId, gap: Gap)
    requires Balanced(s, c, gap) && d in s.clients
    requires forall r :: r in s.clients[d].responses ==> r.client == d
    ensures Balanced(CleanSession(s, d), c, gap)
  {
    var s1 := WithClient(s, d, Cleaned(s.clients[d]));
    assert Responses(s1, c) == Responses(s, c);
    RemoveAllBalances(s1, d, c, gap);
  }

  lemma CloseSessionBalances(s: State, d: ClientId, c: ClientId, gap: Gap)
    requires Balanced(s, c, gap) && d in s.clients
    requires forall r :: r in s.clients[d].responses ==> r.client == d
    ensures Balanced(CloseSession(s, d), c, gap) && d in CloseSession(s, d).clients
  {
    var s1 := CloseOnly(s, d);
    assert Responses(s1, c) == Responses(s, c);
    if s.clients[d].cleanSession {
      CleanSessionBalances(s1, d, c, gap);
    }
  }

  lemma DisconnectCallBalances(s: State, d: ClientId, internal: bool, onSuccess: nat, onFailure: bool, c: ClientId,
                               gap: Gap)
    requires Balanced(s, c, gap) && d in s.clients
    ensures Balanced(DisconnectCall(s, d, internal, onSuccess, onFailure), c, gap)
  {
    hide Bag, AddedBag, CalledBag, Add, Tracked;
    var s1 := if internal then s else WithClient(s, d, s.clients[d].(shouldBeConnected := false));
    assert Responses(s1, c) == Responses(s, c);
    if s.clients[d].connected {
      AddNewBalances(s1, d, 0, onSuccess, onFailure, Disconnect(internal), c, gap);
    }
  }

  lemma NextOrCloseBalances(s: State, d: ClientId, c: ClientId, gap: Gap)
    requires Balanced(s, c, gap) && d in s.clients
    requires forall r :: r in s.clients[d].responses ==> r.client == d
    ensures Balanced(NextOrClose(s, d), c, gap)
  {
    hide Bag, AddedBag, CalledBag, Add, Tracked, CloseSession, MoreToTry;
    var cl := s.clients[d];
    var info := cl.connect;
    if MoreToTry(info.currentURI, info.version, cl) {
      var s1 := CloseOnly(s, d);
      assert Responses(s1, c) == Responses(s, c);
      AddNewBalances(s1, d, 0, info.onSuccess, info.onFailure, NextOptions(info.currentURI, info.version, cl), c,
                     gap);
    } else {
      CloseSessionBalances(s, d, c, gap);
      SilentLog(CloseSession(s, d), if info.onFailure then [ConnectFailed(d)] else [], c, gap);
    }
  }

  lemma DequeueBalances(s: State, i: nat, c: ClientId, gap: Gap)
    requires Balanced(s, c, gap) && i < |s.commands| && s.commands[i].client in s.clients
    ensures Balanced(Dequeue(s, i), c, Plus(gap, s.commands[i], c))
  {
    hide AddedBag, CalledBag, Bag, Tracked, Without;
    var x, t := s.commands[i], Dequeue(s, i);
    BagWithout(s.commands, i, c);
    BagsConcat(s.log, [Taken(x)], c);
    OneEventBags(Taken(x), c);
    assert Responses(t, c) == Responses(s, c);
  }

  lemma DispatchConnectBalances(s: State, x: Command, net: Net, c: ClientId, gap: Gap)
    requires Balanced(s, c, Plus(gap, x, c)) && x.client in s.clients && x.details.Connect?
    ensures Balanced(DispatchConnect(s, x, net), c, gap)
  {
    hide Balanced, One, Add, MoreToTry, AttemptVersion, NextOptions;
    var d, cl, uri := x.client, s.clients[x.client], x.details.currentURI;
    var v := AttemptVersion(x.details.version, cl);
    NoneTracked(x, c, gap);
    SilentLog(s, [Attempt(d, uri, v)], c, gap);
    var s1 := Logged(s, [Attempt(d, uri, v)]);
    UpdateBalances(s, d, cl.(connect := ConnectInfo(uri, x.details.version, x.onSuccess, x.onFailure)), c, gap);
    UpdateBalances(s1, d, cl.(connectState := net.connectState,
                              connect := ConnectInfo(uri, v, x.onSuccess, x.onFailure)), c, gap);
    UpdateBalances(s1, d, cl.(shouldBeConnected := true), c, gap);
    var s2 := WithClient(s1, d, cl.(shouldBeConnected := true));
    StillConnect(uri, v, cl);
    RequeueBalances(s2, x.(details := NextOptions(uri, v, cl)), c, gap);
    SilentLog(s2, if x.onFailure then [ConnectFailed(d)] else [], c, gap);
  }

  lemma NoneTracked(x: Command, c: ClientId, gap: Gap)
    requires !Persistable(x.details)
    ensures Plus(gap, x, c) == gap
  {
  }

  /** Updates of a client that leave its responses alone. */
  lemma UpdateBalances(s: State, d: ClientId, cl: Client, c: ClientId, gap: Gap)
    requires Balanced(s, c, gap) && d in s.clients && cl.responses == s.clients[d].responses
    ensures Balanced(WithClient(s, d, cl), c, gap)
  {
    hide AddedBag, CalledBag, Bag;
    assert Responses(WithClient(s, d, cl), c) == Responses(s, c);
  }

  lemma RequeueBalances(s: State, x: Command, c: ClientId, gap: Gap)
    requires Balanced(s, c, gap) && x.client in s.clients && x.details.Connect?
    ensures Balanced(Add(s, x), c, gap)
  {
    hide AddedBag, CalledBag, Bag, Add, Balanced;
    AddBalances(s, x, c, gap);
  }

  /** A QoS 0 publication whose write breaks is freed without a call. */
  predicate IsBroken(x: Command, net: Net) {
    x.details.Publish? && x.details.qos == 0 && net.sent.Broken?
  }

  lemma DispatchRequestBalances(s: State, x: Command, net: Net, c: ClientId, gap: Gap)
    requires Balanced(s, c, Plus(gap, x, c)) && x.client in s.clients && Persistable(x.details)
    ensures Balanced(DispatchRequest(s, x, net), c, if IsBroken(x, net) then Plus(gap, x, c) else gap)
  {
    hide Balanced, Plus, DisconnectCall;
    var d, cl := x.client, s.clients[x.client];
    if x.details.Publish? && x.details.qos == 0 {
      SuccessSettles(s, x, c, gap);
      AwaitBalances(s, x, cl.(pendingWrite := Some(x)), c, gap);
      UpdateBalances(s, d, cl.(pendingWrite := Some(x)), c, Plus(gap, x, c));
    } else {
      var cl1 := Sending(cl, x);
      var s1 := WithClient(s, d, cl1);
      UpdateBalances(s, d, cl1, c, Plus(gap, x, c));
      DisconnectCallBalances(s1, d, true, 0, false, c, Plus(gap, x, c));
      FailureSettles(DisconnectCall(s1, d, true, 0, false), x, c, gap);
      AwaitBalances(s, x, cl1, c, gap);
    }
  }

  lemma FailureSettles(s: State, x: Command, c: ClientId, gap: Gap)
    requires Balanced(s, c, Plus(gap, x, c))
    ensures Balanced(Logged(s, FailureCall(x)), c, gap)
  {
    if x.onFailure {
      CallSettles(s, x, FailureCalled(x), c, gap);
    } else {
      assert Plus(gap, x, c) == gap;
      SilentLog(s, [], c, gap);
    }
  }

  lemma SuccessSettles(s: State, x: Command, c: ClientId, gap: Gap)
    requires Balanced(s, c, Plus(gap, x, c))
    ensures Balanced(Logged(s, SuccessCall(x)), c, gap)
  {
    if x.onSuccess != 0 {
      CallSettles(s, x, SuccessCalled(x), c, gap);
    } else {
      assert Plus(gap, x, c) == gap;
      SilentLog(s, [], c, gap);
    }
  }

  lemma AwaitBalances(s: State, x: Command, cl: Client, c: ClientId, gap: Gap)
    requires Balanced(s, c, Plus(gap, x, c)) && x.client in s.clients
    requires cl.responses == s.clients[x.client].responses
    ensures Balanced(WithClient(s, x.client, cl.(responses := cl.responses + [x])), c, gap)
  {
    hide Bag, AddedBag, CalledBag, Once, Tracked;
    var t := WithClient(s, x.client, cl.(responses := cl.responses + [x]));
    BagConcat(cl.responses, [x], c);
    BagOne(x, c);
    OthersNotCounted(x, c);
    assert Bag(Responses(t, c), c) == Bag(Responses(s, c), c) + One(x, c);
    assert Once(AddedBag(t.log, c), t.nextId);
    forall a: Command
      ensures AddedBag(t.log, c)[a] + gap.early[a] ==
              Bag(t.commands, c)[a] + Bag(Responses(t, c), c)[a] + CalledBag(t.log, c)[a] + gap.lost[a]
    {
      assert AddedBag(s.log, c)[a] + gap.early[a] ==
             Bag(s.commands, c)[a] + Bag(Responses(s, c), c)[a] + CalledBag(s.log, c)[a] + Plus(gap, x, c).lost[a];
      assert (gap.lost + One(x, c))[a] == gap.lost[a] + One(x, c)[a];
    }
  }

  function PendingOf(s: State, d: ClientId): Option<Command> {
    if d in s.clients then s.clients[d].pendingWrite else None
  }

  /** The interrupted publication of `d` is not the first response. */
  predicate OutOfTurn(s: State, d: ClientId) {
    Responses(s, d) != [] && PendingOf(s, d).Some? && PendingOf(s, d) != Some(Responses(s, d)[0])
  }

  /** The dispatch frees the command it takes. */
  predicate Breaks(s: State, net: Net) {
    var i := FirstReady(s, net.idle, 0);
    i >= 0 && IsBroken(s.commands[i], net)
  }

  /** What a step frees without a call: the first response, when another's write completes, or
      a publication whose write breaks. */
  function LostBy(s: State, step: Step, c: ClientId): multiset<Command> {
    match step
    case DoWriteComplete(d) => if OutOfTurn(s, d) then One(Responses(s, d)[0], c) else multiset{}
    case DoProcess(net) =>
      if Breaks(s, net) then One(s.commands[FirstReady(s, net.idle, 0)], c) else multiset{}
    case _ => multiset{}
  }

  /** The publication a step calls back that goes on waiting. */
  function EarlyBy(s: State, step: Step, c: ClientId): multiset<Command> {
    match step
    case DoWriteComplete(d) => if OutOfTurn(s, d) then One(PendingOf(s, d).value, c) else multiset{}
    case _ => multiset{}
  }

  function Widened(gap: Gap, s: State, step: Step, c: ClientId): Gap {
    Gap(gap.lost + LostBy(s, step, c), gap.early + EarlyBy(s, step, c))
  }

  lemma NotWidened(gap: Gap, s: State, step: Step, c: ClientId)
    requires LostBy(s, step, c) == multiset{} && EarlyBy(s, step, c) == multiset{}
    ensures Widened(gap, s, step, c) == gap
  {
  }

  lemma WriteCompleteBalances(s: State, d: ClientId, c: ClientId, gap: Gap)
    requires Balanced(s, c, gap) && d in s.clients && WritePending(s.clients[d])
    requires forall r :: r in s.clients[d].responses ==> r.client == d
    ensures Balanced(WriteComplete(s, d), c, Widened(gap, s, DoWriteComplete(d), c))
  {
    hide Bag, AddedBag, CalledBag, One, Once, LostBy, EarlyBy;
    var t, w := WriteComplete(s, d), Widened(gap, s, DoWriteComplete(d), c);
    var rs, x := s.clients[d].responses, s.clients[d].pendingWrite.value;
    var lost, early := LostBy(s, DoWriteComplete(d), c), EarlyBy(s, DoWriteComplete(d), c);
    CompletionMoves(s, d, c);
    CompletionGap(s, d, c);
    assert Once(AddedBag(t.log, c), t.nextId);
    forall a: Command
      ensures AddedBag(t.log, c)[a] + w.early[a] ==
              Bag(t.commands, c)[a] + Bag(Responses(t, c), c)[a] + CalledBag(t.log, c)[a] + w.lost[a]
    {
      assert AddedBag(s.log, c)[a] + gap.early[a] ==
             Bag(s.commands, c)[a] + Bag(Responses(s, c), c)[a] + CalledBag(s.log, c)[a] + gap.lost[a];
      assert One(x, c)[a] + lost[a] == (One(x, c) + lost)[a] == (One(rs[0], c) + early)[a]
          == One(rs[0], c)[a] + early[a];
    }
  }

  /** Either way the completion keeps the balance between its call and the response it frees. */
  lemma CompletionGap(s: State, d: ClientId, c: ClientId)
    requires d in s.clients && WritePending(s.clients[d])
    requires forall r :: r in s.clients[d].responses ==> r.client == d
    ensures
      var rs, x, step := s.clients[d].responses, s.clients[d].pendingWrite.value, DoWriteComplete(d);
      && One(x, c) + LostBy(s, step, c) == One(rs[0], c) + EarlyBy(s, step, c)
      && (c != d ==> One(rs[0], c) == multiset{})
  {
    var rs, x := s.clients[d].responses, s.clients[d].pendingWrite.value;
    OthersNotCounted(rs[0], c);
    OthersNotCounted(x, c);
  }

  /** What the completion of a write does to responses and log. */
  lemma CompletionMoves(s: State, d: ClientId, c: ClientId)
    requires d in s.clients && WritePending(s.clients[d])
    ensures
      var t, rs, x := WriteComplete(s, d), s.clients[d].responses, s.clients[d].pendingWrite.value;
      && AddedBag(t.log, c) == AddedBag(s.log, c) && CalledBag(t.log, c) == CalledBag(s.log, c) + One(x, c)
      && (if c == d then Bag(Responses(s, c), c) == One(rs[0], c) + Bag(Responses(t, c), c)
          else Responses(t, c) == Responses(s, c))
  {
    hide Bag, AddedBag, CalledBag, Tracked;
    var rs, x := s.clients[d].responses, s.clients[d].pendingWrite.value;
    assert rs == [rs[0]] + rs[1..];
    BagConcat([rs[0]], rs[1..], c);
    BagOne(rs[0], c);
    BagsConcat(s.log, SuccessCall(x), c);
    SuccessBag(x, c);
  }

  lemma OthersNotCounted(x: Command, c: ClientId)
    ensures x.client != c ==> One(x, c) == multiset{}
  {
  }

  lemma SuccessBag(x: Command, c: ClientId)
    ensures AddedBag(SuccessCall(x), c) == multiset{} && CalledBag(SuccessCall(x), c) == One(x, c)
  {
    OneEventBags(SuccessCalled(x), c);
  }

  lemma CheckDisconnectBalances(s: State, x: Command, elapsed: bool, c: ClientId, gap: Gap)
    requires Balanced(s, c, gap) && x.client in s.clients && x.details.Disconnect?
    requires forall r :: r in s.clients[x.client].responses ==> r.client == x.client
    ensures Balanced(CheckDisconnect(s, x, elapsed), c, gap)
    ensures x.client in CheckDisconnect(s, x, elapsed).clients
  {
    hide AddedBag, CalledBag, Bag, CloseSession;
    CloseSessionBalances(s, x.client, c, gap);
    SilentLog(CloseSession(s, x.client), if x.details.internal then [] else SuccessCall(x), c, gap);
  }

  lemma DispatchDisconnectBalances(s: State, x: Command, net: Net, c: ClientId, gap: Gap)
    requires Balanced(s, c, gap) && x.client in s.clients && x.details.Disconnect?
    requires forall r :: r in s.clients[x.client].responses ==> r.client == x.client
    ensures Balanced(DispatchDisconnect(s, x, net), c, gap)
  {
    hide AddedBag, CalledBag, Bag, CheckDisconnect;
    var s0 := WithClient(s, x.client, s.clients[x.client].(connectState := -2));
    assert Responses(s0, c) == Responses(s, c);
    CheckDisconnectBalances(s0, x, net.elapsed, c, gap);
    var cl := s.clients[x.client];
    var s1 := if cl.connectState != 0 || cl.connected then CheckDisconnect(s0, x, net.elapsed) else s;
    assert Responses(DispatchDisconnect(s, x, net), c) == Responses(s1, c);
  }

  lemma ProcessBalances(s: State, net: Net, c: ClientId, gap: Gap)
    requires Inv(s) && Balanced(s, c, gap)
    ensures Balanced(Process(s, net), c, Widened(gap, s, DoProcess(net), c))
  {
    hide Balanced, DispatchConnect, DispatchDisconnect, DispatchRequest, FirstReady;
    var i := FirstReady(s, net.idle, 0);
    if i < 0 {
      NotWidened(gap, s, DoProcess(net), c);
    } else {
      DequeueKeepsInv(s, i);
      DequeueBalances(s, i, c, gap);
      var s1, x := Dequeue(s, i), s.commands[i];
      assert ResponsesInv(s1.clients[x.client], x.client);
      hide Dequeue, Inv;
      ProcessGap(gap, s, net, i, c);
      hide Widened, Plus;
      match x.details {
        case Connect(_, _) => DispatchConnectBalances(s1, x, net, c, gap);
        case Disconnect(_) =>
          NoneTracked(x, c, gap);
          DispatchDisconnectBalances(s1, x, net, c, gap);
        case _ => DispatchRequestBalances(s1, x, net, c, gap);
      }
    }
  }

  lemma ProcessGap(gap: Gap, s: State, net: Net, i: nat, c: ClientId)
    requires i == FirstReady(s, net.idle, 0) && i < |s.commands|
    ensures Widened(gap, s, DoProcess(net), c) ==
            if IsBroken(s.commands[i], net) then Plus(gap, s.commands[i], c) else gap
  {
    hide FirstReady, One;
    if !IsBroken(s.commands[i], net) {
      NotWidened(gap, s, DoProcess(net), c);
    }
  }

  lemma RequestBalances(s: State, d: ClientId, details: Details, onSuccess: nat, onFailure: bool, c: ClientId,
                        gap: Gap)
    requires Balanced(s, c, gap) && d in s.clients && s.clients[d].msgID <= MAX_MSG_ID
    requires Persistable(details) && Representable(details)
    ensures Balanced(Request(s, d, details, onSuccess, onFailure).0, c, gap)
  {
    hide Add, Representable, FirstFree, QosInRange, Bag, AddedBag, CalledBag, TakenIds, Buffered;
    var (s1, id) := if NeedsToken(details) then AssignMsgId(s, d) else (s, 0);
    assert Responses(s1, c) == Responses(s, c);
    AddNewBalances(s1, d, id, onSuccess, onFailure, details, c, gap);
  }

  lemma AckBalances(s: State, d: ClientId, id: int, refused: bool, flowDone: bool, c: ClientId,
                    gap: Gap)
    requires Balanced(s, c, gap) && d in s.clients
    requires forall r :: r in s.clients[d].responses ==> r.client == d
    ensures Balanced(Ack(s, d, id, refused, flowDone), c, gap)
  {
    hide Bag, AddedBag, CalledBag, Without;
    var rs, i := s.clients[d].responses, FindResponse(s.clients[d].responses, id);
    var t := Ack(s, d, id, refused, flowDone);
    if i < 0 {
      assert Responses(t, c) == Responses(s, c);
    } else {
      BagWithout(rs, i, c);
      assert rs[i] in rs;
      var s1 := t.(log := s.log);
      assert Balanced(s1, c, Plus(gap, rs[i], c));
      SuccessSettles(s1, rs[i], c, gap);
      FailureSettles(s1, rs[i], c, gap);
    }
  }

  lemma ConnackBalances(s: State, d: ClientId, accepted: bool, c: ClientId, gap: Gap)
    requires Balanced(s, c, gap) && d in s.clients
    requires forall r :: r in s.clients[d].responses ==> r.client == d
    ensures Balanced(Connack(s, d, accepted), c, gap)
  {
    hide Balanced, CleanSession, NextOrClose;
    var cl := s.clients[d];
    if cl.connectState == 3 && accepted {
      var cl1 := cl.(connected := true, connectState := 0);
      var s1 := WithClient(s, d, cl1);
      UpdateBalances(s, d, cl1, c, gap);
      CleanSessionBalances(s1, d, c, gap);
      CleanSessionClients(s1, d);
      var s2 := if cl.cleanSession then CleanSession(s1, d) else s1;
      var cl2 := s2.clients[d];
      var cl3 := cl2.(connect := cl2.connect.(onSuccess := 0));
      UpdateBalances(s2, d, cl3, c, gap);
      SilentLog(WithClient(s2, d, cl3), if cl.connect.onSuccess != 0 then [ConnectSucceeded(d)] else [], c, gap);
    } else {
      NextOrCloseBalances(s, d, c, gap);
    }
  }

  lemma CleanSessionClients(s: State, d: ClientId)
    requires d in s.clients
    ensures CleanSession(s, d).clients.Keys == s.clients.Keys
  {
  }

  lemma RestoreOneBalances(s: State, d: ClientId, key: nat, c: ClientId, gap: Gap)
    requires Balanced(s, c, gap) && d in s.clients && key in s.clients[d].store
    ensures Balanced(RestoreOne(s, d, key), c, gap)
  {
    hide Bag, AddedBag, CalledBag, Restore, RestorePoint;
    if Restore(s.clients[d].store[key]).Parsed? {
      var t, q, k, x := RestoreOne(s, d, key), s.commands, RestorePoint(s.commands), FromStore(s, d, key);
      assert q == q[..k] + q[k..];
      BagConcat(q[..k], q[k..], c);
      BagConcat(q[..k] + [x], q[k..], c);
      BagConcat(q[..k], [x], c);
      BagOne(x, c);
      BagsConcat(s.log, [Added(x)], c);
      OneEventBags(Added(x), c);
      assert Responses(t, c) == Responses(s, c);
    }
  }

  lemma {:induction false} RestoreKeysBalance(s: State, d: ClientId, keys: seq<nat>, c: ClientId,
                                              gap: Gap)
    requires Balanced(s, c, gap) && d in s.clients && forall k :: k in keys ==> k in s.clients[d].store
    ensures Balanced(RestoreKeys(s, d, keys), c, gap)
  {
    if keys != [] {
      RestoreKeysBalance(s, d, keys[..|keys| - 1], c, gap);
      RestoreOneBalances(RestoreKeys(s, d, keys[..|keys| - 1]), d, keys[|keys| - 1], c, gap);
    }
  }

  lemma ConnectCallBalances(s: State, d: ClientId, version: int, cleanSession: bool, uriCount: nat, onSuccess: nat,
                            onFailure: bool, c: ClientId, gap: Gap)
    requires Balanced(s, c, gap) && d in s.clients
    ensures Balanced(ConnectCall(s, d, version, cleanSession, uriCount, onSuccess, onFailure), c, gap)
  {
    hide Bag, AddedBag, CalledBag, AddNew;
    var cl' := Configured(s.clients[d], version, cleanSession, uriCount, onSuccess, onFailure);
    var s1 := WithClient(s, d, cl');
    assert Responses(s1, c) == Responses(s, c);
    AddNewBalances(s1, d, 0, onSuccess, onFailure, Connect(0, MQTTVERSION_DEFAULT), c, gap);
  }

  lemma ReconnectBalances(s: State, d: ClientId, c: ClientId, gap: Gap)
    requires Balanced(s, c, gap) && d in s.clients
    ensures Balanced(Reconnect(s, d), c, gap)
  {
    hide Bag, AddedBag, CalledBag, AddNew;
    var cl := s.clients[d];
    AddNewBalances(s, d, 0, cl.connect.onSuccess, cl.connect.onFailure, SavedOptions(cl), c, gap);
  }

  lemma CreateBalances(s: State, d: ClientId, persistent: bool, store: map<nat, seq<byte>>, keys: seq<nat>,
                       outbound: seq<int>, buffering: Option<Buffering>, c: ClientId, gap: Gap)
    requires Balanced(s, c, gap) && d !in s.clients && forall k :: k in keys ==> k in store
    ensures
      var s0 := WithClient(s, d, FreshClient(persistent, store, outbound, buffering));
      Balanced(s0, c, gap) && Balanced(RestoreKeys(s0, d, keys), c, gap)
  {
    hide Bag, AddedBag, CalledBag, RestoreKeys;
    var s0 := WithClient(s, d, FreshClient(persistent, store, outbound, buffering));
    assert Responses(s0, c) == Responses(s, c);
    RestoreKeysBalance(s0, d, keys, c, gap);
  }

  lemma DestroyBalances(s: State, d: ClientId, c: ClientId, gap: Gap)
    requires Balanced(s, c, gap) && d in s.clients
    requires forall r :: r in s.clients[d].responses ==> r.client == d
    ensures Balanced(Destroy(s, d), c, gap)
  {
    hide Bag, AddedBag, CalledBag, Purged, FailureEvents, RemovalEvents;
    RemoveAllBalances(s, d, c, gap);
    assert Responses(Destroy(s, d), c) == Responses(RemoveAll(s, d), c);
  }

  lemma SocketErrorBalances(s: State, d: ClientId, c: ClientId, gap: Gap)
    requires Balanced(s, c, gap) && d in s.clients
    requires forall r :: r in s.clients[d].responses ==> r.client == d
    ensures Balanced(SocketError(s, d), c, gap)
  {
    hide Bag, AddedBag, CalledBag, DisconnectCall, NextOrClose;
    DisconnectCallBalances(s, d, true, 0, false, c, gap);
    NextOrCloseBalances(s, d, c, gap);
    assert Responses(CloseOnly(s, d), c) == Responses(s, c);
  }

  lemma StepBalances(s: State, step: Step, c: ClientId, gap: Gap)
    requires Inv(s) && Balanced(s, c, gap) && Enabled(s, step)
    ensures Balanced(Apply(s, step), c, Widened(gap, s, step, c))
  {
    hide Balanced, Inv, Process, WriteComplete, Widened, LostBy, EarlyBy;
    match step {
      case DoWriteComplete(d) =>
        ResponsesAreOwn(s);
        WriteCompleteBalances(s, d, c, gap);
      case DoProcess(net) => ProcessBalances(s, net, c, gap);
      case _ =>
        NoGap(s, step, c);
        NotWidened(gap, s, step, c);
        hide Enabled, Apply;
        OtherStepBalances(s, step, c, gap);
    }
  }

  lemma NoGap(s: State, step: Step, c: ClientId)
    requires !step.DoWriteComplete? && !step.DoProcess?
    ensures LostBy(s, step, c) == multiset{} && EarlyBy(s, step, c) == multiset{}
  {
  }

  lemma ResponsesAreOwn(s: State)
    requires Inv(s)
    ensures forall d :: d in s.clients ==> forall r :: r in s.clients[d].responses ==> r.client == d
  {
    assert forall d :: d in s.clients ==> ResponsesInv(s.clients[d], d);
  }

  lemma OtherStepBalances(s: State, step: Step, c: ClientId, gap: Gap)
    requires Inv(s) && Balanced(s, c, gap) && Enabled(s, step) && !step.DoWriteComplete? && !step.DoProcess?
    ensures Balanced(Apply(s, step), c, gap)
  {
    hide Balanced, Inv, SoundStore, Representable, Persistable, TakenIds, Diverges, NeedsId;
    hide FreshClient, RestoreKeys, Destroy, ConnectCall, Reconnect, DisconnectCall, Request, Process, WriteComplete;
    hide Ack, Connack, SocketError, NextOrClose, CheckDisconnect, WritePending;
    ResponsesAreOwn(s);
    match step {
      case DoCreate(d, store, keys, outbound, buffering) =>
        CreateBalances(s, d, true, store, keys, outbound, buffering, c, gap);
      case DoCreateVolatile(d, buffering) => CreateBalances(s, d, false, map[], [], [], buffering, c, gap);
      case DoDestroy(d) => DestroyBalances(s, d, c, gap);
      case DoConnect(d, version, cleanSession, uriCount, onSuccess, onFailure) =>
        ConnectCallBalances(s, d, version, cleanSession, uriCount, onSuccess, onFailure, c, gap);
      case DoReconnect(d) => ReconnectBalances(s, d, c, gap);
      case DoDisconnect(d, internal, onSuccess, onFailure) =>
        DisconnectCallBalances(s, d, internal, onSuccess, onFailure, c, gap);
      case DoRequest(d, details, onSuccess, onFailure) =>
        RequestBalances(s, d, details, onSuccess, onFailure, c, gap);
      case DoAck(d, id, refused, flowDone) => AckBalances(s, d, id, refused, flowDone, c, gap);
      case DoConnack(d, accepted) => ConnackBalances(s, d, accepted, c, gap);
      case DoSocketError(d) => SocketErrorBalances(s, d, c, gap);
      case DoConnectTimeout(d) => NextOrCloseBalances(s, d, c, gap);
      case DoDisconnectTimer(d, elapsed) =>
        CheckDisconnectBalances(s, s.clients[d].disconnect.value, elapsed, c, gap);
    }
  }
}
