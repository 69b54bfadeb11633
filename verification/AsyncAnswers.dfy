/** Every request is answered once: in every run each request with callbacks is, at any moment,
    queued, or waiting for its acknowledgement, or has been called back, or has been lost to the
    completion of an interrupted write, and only one of these.  Publications of QoS 0 are accounted for
    too, with what interrupted and broken writes do to them. */
module AsyncAnswers {
  import opened Bytes
  import opened CommandCodec
  import opened LinkedLists
  import opened AsyncState
  import opened AsyncInvariants
  import opened AsyncBalance

  /** The gap that the first `i` steps of a run leave for `c`. */
  function GapIn(steps: seq<Step>, trace: seq<State>, i: nat, c: ClientId): Gap
    requires i <= |steps| <= |trace|
  {
    if i == 0 then Gap(multiset{}, multiset{})
    else Widened(GapIn(steps, trace, i - 1, c), trace[i - 1], steps[i - 1], c)
  }

  lemma {:induction false} RunBalances(steps: seq<Step>, trace: seq<State>, i: nat, c: ClientId)
    requires IsRun(Empty, steps, trace) && i < |trace|
    ensures Balanced(trace[i], c, GapIn(steps, trace, i, c))
  {
    hide Balanced, Widened, Enabled, Apply, Inv;
    if i == 0 {
      NothingYet(c);
    } else {
      RunBalances(steps, trace, i - 1, c);
      RunKeepsInv(steps, trace, i - 1);
      StepBalances(trace[i - 1], steps[i - 1], c, GapIn(steps, trace, i - 1, c));
    }
  }

  lemma NothingYet(c: ClientId)
    ensures Balanced(Empty, c, Gap(multiset{}, multiset{}))
  {
  }

  lemma {:induction false} InBag(q: seq<Command>, c: ClientId, a: Command)
    ensures a in Bag(q, c) <==> a in q && Tracked(a, c)
  {
    hide Tracked;
    if q != [] {
      InBag(q[..|q| - 1], c, a);
      assert q == q[..|q| - 1] + [q[|q| - 1]];
    }
  }

  /** How often the application was called about `a`. */
  function Calls(log: seq<Event>, a: Command): nat {
    if log == [] then 0
    else
      var e := log[|log| - 1];
      Calls(log[..|log| - 1], a) + (if e == SuccessCalled(a) || e == FailureCalled(a) then 1 else 0)
  }

  lemma {:induction false} BagCountsCalls(log: seq<Event>, c: ClientId, a: Command)
    requires Tracked(a, c)
    ensures CalledBag(log, c)[a] == Calls(log, a)
  {
    if log != [] {
      BagCountsCalls(log[..|log| - 1], c, a);
      assert One(a, c)[a] == 1;
    }
  }

  lemma {:induction false} InAddedBag(log: seq<Event>, c: ClientId, a: Command)
    requires Tracked(a, c)
    ensures Added(a) in log <==> a in AddedBag(log, c)
  {
    if log != [] {
      InAddedBag(log[..|log| - 1], c, a);
      assert log == log[..|log| - 1] + [log[|log| - 1]];
      assert a in One(a, c);
    }
  }

  /** This step frees `a` without a call. */
  predicate Loses(s: State, step: Step, a: Command) {
    match step
    case DoWriteComplete(d) => OutOfTurn(s, d) && Responses(s, d)[0] == a
    case DoProcess(net) => Breaks(s, net) && s.commands[FirstReady(s, net.idle, 0)] == a
    case _ => false
  }

  /** This step calls `a` back although it goes on waiting. */
  predicate CallsEarly(s: State, step: Step, a: Command) {
    match step
    case DoWriteComplete(d) => OutOfTurn(s, d) && PendingOf(s, d).value == a
    case _ => false
  }

  ghost predicate Lost(steps: seq<Step>, trace: seq<State>, i: nat, a: Command)
    requires i <= |steps| <= |trace|
  {
    exists j :: 0 <= j < i && Loses(trace[j], steps[j], a)
  }

  ghost predicate CalledEarly(steps: seq<Step>, trace: seq<State>, i: nat, a: Command)
    requires i <= |steps| <= |trace|
  {
    exists j :: 0 <= j < i && CallsEarly(trace[j], steps[j], a)
  }

  lemma {:induction false} InGap(steps: seq<Step>, trace: seq<State>, i: nat, a: Command)
    requires i <= |steps| <= |trace| && Tracked(a, a.client)
    ensures a in GapIn(steps, trace, i, a.client).lost <==> Lost(steps, trace, i, a)
    ensures a in GapIn(steps, trace, i, a.client).early <==> CalledEarly(steps, trace, i, a)
  {
    hide LostBy, EarlyBy, Loses, CallsEarly, Tracked;
    if i > 0 {
      InGap(steps, trace, i - 1, a);
      InGapBy(trace[i - 1], steps[i - 1], a);
      OneMoreLost(steps, trace, i - 1, a);
      hide Lost, CalledEarly;
    }
  }

  lemma OneMoreLost(steps: seq<Step>, trace: seq<State>, i: nat, a: Command)
    requires i < |steps| <= |trace|
    ensures Lost(steps, trace, i + 1, a) <==> Lost(steps, trace, i, a) || Loses(trace[i], steps[i], a)
    ensures CalledEarly(steps, trace, i + 1, a) <==>
              CalledEarly(steps, trace, i, a) || CallsEarly(trace[i], steps[i], a)
  {
    hide Loses, CallsEarly;
  }

  lemma InGapBy(s: State, step: Step, a: Command)
    requires Tracked(a, a.client)
    ensures a in LostBy(s, step, a.client) <==> Loses(s, step, a)
    ensures a in EarlyBy(s, step, a.client) <==> CallsEarly(s, step, a)
  {
    hide FirstReady, IsBroken, OutOfTurn;
  }

  // ----- what has become of a request -----

  predicate Queued(s: State, a: Command) {
    a in s.commands
  }

  predicate Waiting(s: State, a: Command) {
    a in Responses(s, a.client)
  }

  /** In every run and for every request or publication with both callbacks: the calls made, whether it
      is queued or waiting, and how often it has been freed without a call make up the one time it was
      added and the times it was called early. */
  lemma CallsBalance(steps: seq<Step>, trace: seq<State>, i: nat, a: Command)
    requires IsRun(Empty, steps, trace) && i < |trace| && Tracked(a, a.client)
    ensures
      var s, c, gap := trace[i], a.client, GapIn(steps, trace, i, a.client);
      var queued, waiting := Bag(s.commands, c)[a], Bag(Responses(s, c), c)[a];
      && Calls(s.log, a) + queued + waiting + gap.lost[a] == (if Added(a) in s.log then 1 else 0) + gap.early[a]
      && (queued > 0 <==> Queued(s, a)) && (waiting > 0 <==> Waiting(s, a))
      && (gap.lost[a] > 0 <==> Lost(steps, trace, i, a)) && (gap.early[a] > 0 <==> CalledEarly(steps, trace, i, a))
  {
    assert |trace| == |steps| + 1;
    hide Bag, AddedBag, CalledBag, GapIn, Tracked, Calls, IsRun, Loses, Lost, CalledEarly;
    var s, c := trace[i], a.client;
    var gap := GapIn(steps, trace, i, c);
    RunBalances(steps, trace, i, c);
    InBag(s.commands, c, a);
    InBag(Responses(s, c), c, a);
    BagCountsCalls(s.log, c, a);
    InAddedBag(s.log, c, a);
    InGap(steps, trace, i, a);
    assert AddedBag(s.log, c)[a] <= 1;
  }

  /** The publication with the interrupted write is not acknowledged, so it is never a request that is. */
  lemma NeverEarly(steps: seq<Step>, trace: seq<State>, i: nat, a: Command)
    requires IsRun(Empty, steps, trace) && i < |trace| && NeedsToken(a.details)
    ensures !CalledEarly(steps, trace, i, a)
  {
    hide Enabled, Apply;
    forall j | 0 <= j < i
      ensures !CallsEarly(trace[j], steps[j], a)
    {
      RunKeepsInv(steps, trace, j);
      PendingIsQos0(trace[j], a);
    }
  }

  lemma PendingIsQos0(s: State, a: Command)
    requires Inv(s) && NeedsToken(a.details)
    ensures forall d :: PendingOf(s, d) != Some(a)
  {
    forall d
      ensures PendingOf(s, d) != Some(a)
    {
      if d in s.clients {
        assert ResponsesInv(s.clients[d], d);
      }
    }
  }

  /** In every run, an acknowledged request with both callbacks is called back at most once.  Once added
      it is queued, waiting for its acknowledgement, called back, or lost to the completion of an
      interrupted write, and only one of these. */
  lemma EveryRequestAnsweredOnce(steps: seq<Step>, trace: seq<State>, i: nat, a: Command)
    requires IsRun(Empty, steps, trace) && i < |trace| && Awaited(a)
    ensures
      var s, called := trace[i], Calls(trace[i].log, a) == 1;
      var queued, waiting, lost := Queued(s, a), Waiting(s, a), Lost(steps, trace, i, a);
      && Calls(s.log, a) <= 1
      && (Added(a) in s.log <==> queued || waiting || called || lost)
      && !(queued && waiting) && !(queued && called) && !(waiting && called)
      && !(lost && (queued || waiting || called))
  {
    assert |trace| == |steps| + 1;
    hide Bag, GapIn, Tracked, Calls, IsRun, Lost, CalledEarly, Queued, Waiting;
    CallsBalance(steps, trace, i, a);
    NeverEarly(steps, trace, i, a);
  }

  // ----- publications of QoS 0 -----

  /** No write of client `c` completes while another response comes first. */
  ghost predicate NeverOutOfTurn(steps: seq<Step>, trace: seq<State>, i: nat, c: ClientId)
    requires i <= |steps| <= |trace|
  {
    forall j :: 0 <= j < i && steps[j] == DoWriteComplete(c) ==> !OutOfTurn(trace[j], c)
  }

  /** The write of `a` has broken. */
  ghost predicate Broke(steps: seq<Step>, trace: seq<State>, i: nat, a: Command)
    requires i <= |steps| <= |trace|
  {
    exists j :: 0 <= j < i && steps[j].DoProcess? && Loses(trace[j], steps[j], a)
  }

  /** A completion that concerns `a` is one of its own client's. */
  lemma OwnCompletion(s: State, d: ClientId, a: Command)
    requires Inv(s) && Enabled(s, DoWriteComplete(d))
    requires Loses(s, DoWriteComplete(d), a) || CallsEarly(s, DoWriteComplete(d), a)
    ensures a.client == d
  {
    ResponsesAreOwn(s);
    hide Inv;
    assert a in s.clients[d].responses;
  }

  /** In every run in which the client's completions each find their own publication first, every
      publication and request with both callbacks is called back at most once; once added it is queued,
      waiting or called back, or its write has broken, and only one of these.  A dispatched one is never
      called exactly when its write broke. */
  lemma PublicationsAnsweredOnce(steps: seq<Step>, trace: seq<State>, i: nat, a: Command)
    requires IsRun(Empty, steps, trace) && i < |trace| && Tracked(a, a.client)
    requires i <= |steps| && NeverOutOfTurn(steps, trace, i, a.client)
    ensures
      var s, called := trace[i], Calls(trace[i].log, a) == 1;
      var queued, waiting, broken := Queued(s, a), Waiting(s, a), Broke(steps, trace, i, a);
      && Calls(s.log, a) <= 1
      && (Added(a) in s.log <==> queued || waiting || called || broken)
      && !(queued && waiting) && !(queued && called) && !(waiting && called)
      && !(broken && (queued || waiting || called))
  {
    InTurnGap(steps, trace, i, a);
    hide Bag, GapIn, Tracked, Calls, IsRun, Lost, CalledEarly, Queued, Waiting, Broke;
    CallsBalance(steps, trace, i, a);
  }

  lemma InTurnGap(steps: seq<Step>, trace: seq<State>, i: nat, a: Command)
    requires IsRun(Empty, steps, trace) && i <= |steps| && NeverOutOfTurn(steps, trace, i, a.client)
    ensures !CalledEarly(steps, trace, i, a)
    ensures Lost(steps, trace, i, a) <==> Broke(steps, trace, i, a)
  {
    forall j | 0 <= j < i
      ensures !CallsEarly(trace[j], steps[j], a)
      ensures Loses(trace[j], steps[j], a) ==> steps[j].DoProcess?
    {
      if steps[j].DoWriteComplete? && (Loses(trace[j], steps[j], a) || CallsEarly(trace[j], steps[j], a)) {
        RunKeepsInv(steps, trace, j);
        OwnCompletion(trace[j], steps[j].c, a);
      }
    }
    hide Enabled, Apply;
  }

  // ----- when nothing is lost -----

  /** No write completes while an acknowledged request is the first response. */
  ghost predicate CompletesInTurn(steps: seq<Step>, trace: seq<State>, i: nat)
    requires i <= |steps| <= |trace|
  {
    forall j: nat :: j < i && steps[j].DoWriteComplete? && Responses(trace[j], steps[j].c) != [] ==>
      !Awaited(Responses(trace[j], steps[j].c)[0])
  }

  ghost predicate AllAccounted(s: State) {
    forall a: Command :: Awaited(a) && Added(a) in s.log ==> Queued(s, a) || Waiting(s, a) || Calls(s.log, a) == 1
  }

  /** No acknowledged request is lost exactly when every interrupted write that completes finds its
      publication, or another that nobody is to be told about, at the head of the responses. */
  lemma NothingLostIff(steps: seq<Step>, trace: seq<State>, i: nat)
    requires IsRun(Empty, steps, trace) && i < |trace|
    ensures AllAccounted(trace[i]) <==> CompletesInTurn(steps, trace, i)
  {
    assert |trace| == |steps| + 1;
    hide Awaited, Calls, IsRun, Queued, Waiting, Lost;
    var s := trace[i];
    if CompletesInTurn(steps, trace, i) {
      forall a: Command | Awaited(a) && Added(a) in s.log
        ensures Queued(s, a) || Waiting(s, a) || Calls(s.log, a) == 1
      {
        EveryRequestAnsweredOnce(steps, trace, i, a);
        InTurnLosesNothing(steps, trace, i, a);
      }
    } else {
      var a := OutOfTurnLoses(steps, trace, i);
      EveryRequestAnsweredOnce(steps, trace, i, a);
    }
  }

  lemma InTurnLosesNothing(steps: seq<Step>, trace: seq<State>, i: nat, a: Command)
    requires i <= |steps| <= |trace| && CompletesInTurn(steps, trace, i) && Awaited(a)
    ensures !Lost(steps, trace, i, a)
  {
    hide FirstReady;
  }

  lemma OutOfTurnLoses(steps: seq<Step>, trace: seq<State>, i: nat) returns (a: Command)
    requires IsRun(Empty, steps, trace) && i <= |steps| && !CompletesInTurn(steps, trace, i)
    ensures Awaited(a) && Lost(steps, trace, i, a)
  {
    var j: nat :| j < i && steps[j].DoWriteComplete? && Responses(trace[j], steps[j].c) != []
                  && Awaited(Responses(trace[j], steps[j].c)[0]);
    a := Responses(trace[j], steps[j].c)[0];
    RunKeepsInv(steps, trace, j);
    PendingIsQos0(trace[j], a);
    assert Enabled(trace[j], steps[j]);
    assert Loses(trace[j], steps[j], a);
  }

  /** The completion of one write: the requests awaiting an acknowledgement all stay exactly when the
      first response is an interrupted publication. */
  lemma CompletionSparesRequests(s: State, c: ClientId)
    requires Inv(s) && c in s.clients && WritePending(s.clients[c])
    ensures (forall r :: r in Responses(s, c) && r.token != 0 ==> r in Responses(WriteComplete(s, c), c))
            <==> Responses(s, c)[0].token == 0
  {
    assert ResponsesInv(s.clients[c], c);
    hide Inv;
    var rs := Responses(s, c);
    assert rs[0] in rs;
    assert forall j :: 0 <= j < |rs| - 1 ==> rs[1..][j] == rs[j + 1];
    forall r | r in rs && r != rs[0]
      ensures r in rs[1..]
    {
      var k :| 0 <= k < |rs| && rs[k] == r;
      assert rs[1..][k - 1] == r;
    }
  }
}
