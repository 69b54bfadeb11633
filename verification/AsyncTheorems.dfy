/** Consequences of the invariants: what tokens, message ids, the selection of commands and the
    removal loop guarantee. */
module AsyncTheorems {
  import opened Bytes
  import opened CommandCodec
  import opened LinkedLists
  import opened AsyncState
  import opened AsyncInvariants

  // ----- tokens -----

  /** The non-zero tokens of client c's commands in a list. */
  function TokensOf(cmds: seq<Command>, c: ClientId): seq<int> {
    if cmds == [] then []
    else
      var x := cmds[|cmds| - 1];
      TokensOf(cmds[..|cmds| - 1], c) + (if x.client == c && x.token != 0 then [x.token as int] else [])
  }

  lemma {:induction false} TokenOf(cmds: seq<Command>, c: ClientId, t: int)
    ensures t in TokensOf(cmds, c) <==> exists a :: a in cmds && a.client == c && a.token == t && t != 0
  {
    if cmds != [] {
      var front, x := cmds[..|cmds| - 1], cmds[|cmds| - 1];
      TokenOf(front, c, t);
      assert cmds == front + [x];
      assert forall a :: a in cmds <==> a in front || a == x;
    }
  }

  lemma {:induction false} DistinctTokens(cmds: seq<Command>, c: ClientId)
    requires forall i, j :: 0 <= i < j < |cmds| ==>
               cmds[i].client == cmds[j].client && cmds[i].token == cmds[j].token ==> cmds[i].token == 0
    ensures Distinct(TokensOf(cmds, c))
  {
    if cmds != [] {
      var front, x := cmds[..|cmds| - 1], cmds[|cmds| - 1];
      DistinctTokens(front, c);
      forall t | t in TokensOf(front, c)
        ensures !(x.client == c && x.token == t)
      {
        TokenOf(front, c, t);
        var a :| a in front && a.client == c && a.token == t && t != 0;
        var k :| 0 <= k < |front| && front[k] == a;
        assert cmds[k] == a;
      }
      var ts := TokensOf(front, c);
      assert forall j :: 0 <= j < |ts| ==> ts[j] in ts;
    }
  }

  /** In every run: the non-zero tokens of one client's commands, waiting in the queue or for their
      acknowledgement, are pairwise distinct, and a response without one is a QoS 0 publication. */
  lemma TokensDistinct(steps: seq<Step>, trace: seq<State>, i: nat, c: ClientId)
    requires IsRun(Empty, steps, trace) && i < |trace| && c in trace[i].clients
    ensures Distinct(TokensOf(trace[i].commands, c) + TokensOf(trace[i].clients[c].responses, c))
    ensures forall r :: r in trace[i].clients[c].responses && r.token == 0 ==> r.details.Publish? && r.details.qos == 0
  {
    RunKeepsInv(steps, trace, i);
    DistinctInState(trace[i], c);
  }

  lemma DistinctInState(s: State, c: ClientId)
    requires Inv(s) && c in s.clients
    ensures Distinct(TokensOf(s.commands, c) + TokensOf(s.clients[c].responses, c))
    ensures forall r :: r in s.clients[c].responses && r.token == 0 ==> r.details.Publish? && r.details.qos == 0
  {
    hide TokensOf, StoreInv, Sound;
    assert ResponsesInv(s.clients[c], c);
    var qs, rs := s.commands, s.clients[c].responses;
    DistinctTokens(qs, c);
    DistinctTokens(rs, c);
    var ts := TokensOf(qs, c);
    forall t | t in ts
      ensures t !in TokensOf(rs, c)
    {
      TokenOf(qs, c, t);
      TokenOf(rs, c, t);
    }
    assert forall j :: 0 <= j < |ts| ==> ts[j] in ts;
  }

  /** An acknowledgement takes out at most the one response it can mean: every other response and
      the whole queue stay, and nothing that is left carries its id. */
  lemma AckMeansOne(s: State, c: ClientId, id: int, refused: bool, flowDone: bool)
    requires Inv(s) && c in s.clients && id != 0
    ensures
      var t := Ack(s, c, id, refused, flowDone);
      && t.commands == s.commands
      && (forall r :: r in t.clients[c].responses <==> r in s.clients[c].responses && r.token != id)
      && ((exists r :: r in s.clients[c].responses && r.token == id) ==>
            forall a :: a in s.commands && a.client == c ==> a.token != id)
  {
    hide Layout, Representable, QueueInv, StoreInv;
    var rs := s.clients[c].responses;
    assert ResponsesInv(s.clients[c], c);
    if FindResponse(rs, id) >= 0 {
      WithoutToken(rs, FindResponse(rs, id));
    }
  }

  lemma WithoutToken(rs: seq<Command>, i: nat)
    requires i < |rs| && rs[i].token != 0
    requires forall j, k :: 0 <= j < k < |rs| ==> rs[j].token == rs[k].token ==> rs[j].token == 0
    ensures forall r :: r in Without(rs, i) <==> r in rs && r.token != rs[i].token
  {
    forall r
      ensures r in Without(rs, i) <==> r in rs && r.token != rs[i].token
    {
      WithoutHas(rs, i, r);
    }
  }

  // ----- message ids -----

  /** FirstFree as the documentation has it: the id found is free and every id between the cursor
      and it is taken. */
  lemma {:induction false} FirstFreeIsFirst(taken: set<int>, cursor: nat, k: nat)
    requires 1 <= k <= MAX_MSG_ID && cursor <= MAX_MSG_ID && FirstFree(taken, cursor, k) != 0
    ensures exists m :: FoundAt(taken, cursor, k, m)
    decreases MAX_MSG_ID - k
  {
    if IdAfter(cursor, k) !in taken {
      assert FoundAt(taken, cursor, k, k);
    } else {
      FirstFreeIsFirst(taken, cursor, k + 1);
      var m :| FoundAt(taken, cursor, k + 1, m);
      assert FoundAt(taken, cursor, k, m);
    }
  }

  ghost predicate FoundAt(taken: set<int>, cursor: nat, k: nat, m: nat)
    requires 1 <= k <= MAX_MSG_ID && cursor <= MAX_MSG_ID
  {
    && k <= m <= MAX_MSG_ID && FirstFree(taken, cursor, k) == IdAfter(cursor, m)
    && IdAfter(cursor, m) !in taken && IdAfter(cursor, m) != cursor
    && forall j :: k <= j < m ==> IdAfter(cursor, j) in taken
  }

  /** Every id but the cursor is some number of places after it. */
  lemma PlaceOf(cursor: nat, id: int) returns (k: nat)
    requires cursor <= MAX_MSG_ID && 1 <= id <= MAX_MSG_ID
    ensures 1 <= k <= MAX_MSG_ID && IdAfter(cursor, k) == id
    ensures id != cursor ==> k < MAX_MSG_ID || cursor == 0
  {
    k := if id > cursor then id - cursor else id - cursor + MAX_MSG_ID;
    if id > cursor {
      assert cursor + k - 1 == id - 1;
    } else {
      assert cursor + k - 1 == id - 1 + MAX_MSG_ID;
      assert (id - 1 + MAX_MSG_ID) % MAX_MSG_ID == id - 1;
    }
  }

  lemma {:induction false} ZeroScansAll(taken: set<int>, cursor: nat, k: nat, m: nat)
    requires 1 <= k <= m <= MAX_MSG_ID && cursor <= MAX_MSG_ID && FirstFree(taken, cursor, k) == 0
    requires forall j :: k <= j < m ==> IdAfter(cursor, j) != cursor
    requires IdAfter(cursor, m) != cursor
    ensures IdAfter(cursor, m) in taken
    decreases m - k
  {
    if k < m {
      assert IdAfter(cursor, k) != cursor;
      ZeroScansAll(taken, cursor, k + 1, m);
    }
  }

  lemma NotTheCursor(cursor: nat, j: nat)
    requires cursor <= MAX_MSG_ID && 1 <= j < MAX_MSG_ID
    ensures IdAfter(cursor, j) != cursor
  {
  }

  /** "None free" is reported exactly when every id other than the cursor is taken; the cursor's
      own id is never looked at, so it may be free. */
  lemma ZeroMeansExhausted(taken: set<int>, cursor: nat)
    requires 1 <= cursor <= MAX_MSG_ID
    ensures FirstFree(taken, cursor, 1) == 0 <==>
            forall id :: 1 <= id <= MAX_MSG_ID && id != cursor ==> id in taken
  {
    if FirstFree(taken, cursor, 1) == 0 {
      forall id | 1 <= id <= MAX_MSG_ID && id != cursor
        ensures id in taken
      {
        var k := PlaceOf(cursor, id);
        forall j | 1 <= j < k
          ensures IdAfter(cursor, j) != cursor
        {
          NotTheCursor(cursor, j);
        }
        ZeroScansAll(taken, cursor, 1, k);
      }
    } else {
      FirstFreeIsFirst(taken, cursor, 1);
      var m :| FoundAt(taken, cursor, 1, m);
    }
  }

  /** From a cursor of 0 the search meets every id before it could meet 0, so it ends exactly when
      some id is free; with all ids taken it goes on for ever. */
  lemma SearchFromZero(taken: set<int>)
    ensures Diverges(taken, 0) <==> forall k :: k >= 1 ==> IdAfter(0, k) in taken && IdAfter(0, k) != 0
    ensures !Diverges(taken, 0) <==> FirstFree(taken, 0, 1) != 0
  {
    if forall k :: k >= 1 ==> IdAfter(0, k) in taken {
      forall id | 1 <= id <= MAX_MSG_ID
        ensures id in taken
      {
        var k := PlaceOf(0, id);
      }
    }
    if FirstFree(taken, 0, 1) == 0 {
      forall id | 1 <= id <= MAX_MSG_ID
        ensures id in taken
      {
        var k := PlaceOf(0, id);
        ZeroScansAll(taken, 0, 1, k);
      }
    } else {
      FirstFreeIsFirst(taken, 0, 1);
      var m :| FoundAt(taken, 0, 1, m);
    }
  }

  /** Publications in flight are not looked at.  No assigned id can clash with one, whatever the
      cursor, exactly when each in-flight id is also the token of a queued command or response. */
  lemma InFlightIdsAvoided(taken: set<int>, inFlight: set<int>)
    requires forall id :: id in inFlight ==> 1 <= id <= MAX_MSG_ID
    ensures (forall cursor: nat :: cursor <= MAX_MSG_ID ==> FirstFree(taken, cursor, 1) !in inFlight)
       <==> (forall id :: id in inFlight ==> id in taken)
  {
    hide FirstFree;
    if forall id :: id in inFlight ==> id in taken {
      forall cursor: nat | cursor <= MAX_MSG_ID
        ensures FirstFree(taken, cursor, 1) !in inFlight
      {
        FirstFreeIsFree(taken, cursor, 1);
      }
    } else {
      var id :| id in inFlight && id !in taken;
      NextIsFree(taken, id - 1);
      assert 0 <= id - 1 <= MAX_MSG_ID && FirstFree(taken, id - 1, 1) in inFlight;
    }
  }

  lemma NextIsFree(taken: set<int>, cursor: nat)
    requires cursor < MAX_MSG_ID && cursor + 1 !in taken
    ensures FirstFree(taken, cursor, 1) == cursor + 1
  {
    assert IdAfter(cursor, 1) == cursor + 1;
  }

  /** The id `k` places ahead is in flight, and the search takes it for free. */
  predicate Clashing(taken: set<int>, inFlight: set<int>, cursor: nat, k: nat)
    requires k > 0
  {
    IdAfter(cursor, k) in inFlight && IdAfter(cursor, k) !in taken && IdAfter(cursor, k) != cursor
  }

  /** The ids up to there are all taken or in flight. */
  ghost predicate CrowdedBefore(taken: set<int>, inFlight: set<int>, cursor: nat, k: nat) {
    forall j :: 1 <= j < k ==> IdAfter(cursor, j) in taken || IdAfter(cursor, j) in inFlight
  }

  /** At the cursor a client has, the next id clashes exactly when an in-flight id that is not taken
      lies ahead with only taken or in-flight ones before it. */
  lemma ClashesIffCrowded(taken: set<int>, inFlight: set<int>, cursor: nat)
    requires cursor <= MAX_MSG_ID && !Diverges(taken, cursor)
    ensures var id := FirstFree(taken, cursor, 1);
      id != 0 && id in inFlight
      <==> exists k :: 1 <= k <= MAX_MSG_ID
                       && Clashing(taken, inFlight, cursor, k) && CrowdedBefore(taken, inFlight, cursor, k)
  {
    var id := FirstFree(taken, cursor, 1);
    if id != 0 {
      FirstFreeIsFirst(taken, cursor, 1);
      var m :| FoundAt(taken, cursor, 1, m);
      hide IdAfter, FirstFree;
      if id in inFlight {
        assert Clashing(taken, inFlight, cursor, m) && CrowdedBefore(taken, inFlight, cursor, m);
      }
      forall k | 1 <= k <= MAX_MSG_ID && Clashing(taken, inFlight, cursor, k)
                 && CrowdedBefore(taken, inFlight, cursor, k)
        ensures id in inFlight
      {
        assert k >= m;
      }
    } else if exists k :: 1 <= k <= MAX_MSG_ID && Clashing(taken, inFlight, cursor, k) {
      var k :| 1 <= k <= MAX_MSG_ID && Clashing(taken, inFlight, cursor, k);
      if cursor == 0 {
        SearchFromZero(taken);
      } else {
        ZeroMeansExhausted(taken, cursor);
      }
      assert false;
    }
  }

  function InFlight(cl: Client): set<int> {
    set x | x in cl.outbound
  }

  /** The same of a state: when the next id of client `c` clashes with one of its publications in
      flight. */
  lemma NextIdClashesIff(s: State, c: ClientId)
    requires Inv(s) && c in s.clients && !Diverges(TakenIds(s, c), s.clients[c].msgID)
    ensures s.clients[c].msgID <= MAX_MSG_ID
    ensures
      var id, taken, inFlight, cursor :=
        AssignMsgId(s, c).1, TakenIds(s, c), InFlight(s.clients[c]), s.clients[c].msgID;
      id != 0 && id as int in s.clients[c].outbound
      <==> exists k :: 1 <= k <= MAX_MSG_ID
                       && Clashing(taken, inFlight, cursor, k) && CrowdedBefore(taken, inFlight, cursor, k)
  {
    assert ResponsesInv(s.clients[c], c);
    hide Inv, TakenIds, Diverges, FirstFree, Clashing, CrowdedBefore;
    ClashesIffCrowded(TakenIds(s, c), InFlight(s.clients[c]), s.clients[c].msgID);
  }

  // ----- removal -----

  /** The commands that are not client c's. */
  function Others(q: seq<Command>, c: ClientId): seq<Command> {
    if q == [] then [] else (if q[0].client != c then [q[0]] else []) + Others(q[1..], c)
  }

  lemma {:induction false} PurgedPrepend(x: Command, q: seq<Command>, c: ClientId)
    ensures Purged([x] + q, c) == (if x.client == c then [] else [x]) + Purged(q, c)
  {
    if q == [] {
      assert [x] + q == [x] && [x][..0] == [];
    } else {
      assert ([x] + q)[..|q|] == [x] + q[..|q| - 1];
      PurgedPrepend(x, q[..|q| - 1], c);
    }
  }

  /** Removal keeps exactly the other clients' commands, in their order. */
  lemma {:induction false} RemovalKeepsOthers(q: seq<Command>, c: ClientId)
    ensures Purged(q, c) == Others(q, c)
    ensures forall a :: a in Purged(q, c) <==> a in q && a.client != c
  {
    PurgedMembers(q, c);
    if q != [] {
      assert q == [q[0]] + q[1..];
      PurgedPrepend(q[0], q[1..], c);
      RemovalKeepsOthers(q[1..], c);
    }
  }

  /** Each removed command's failure callback is called exactly once if it has one; no other
      command's is called. */
  lemma {:induction false} FailureCalledOnce(q: seq<Command>, c: ClientId, x: Command)
    requires DistinctIds(q)
    ensures multiset(RemovalEvents(q, c))[FailureCalled(x)] == if x in q && x.client == c && x.onFailure then 1 else 0
    ensures multiset(RemovalEvents(q, c))[Dropped(x)] == if x in q && x.client == c then 1 else 0
  {
    hide Removal;
    if q != [] {
      var front, y := q[..|q| - 1], q[|q| - 1];
      assert q == front + [y];
      FailureCalledOnce(front, c, x);
      RemovalCounts(y, c, x);
      var es := RemovalEvents(front, c);
      assert multiset(es + Removal(y, c)) == multiset(es) + multiset(Removal(y, c));
      assert x in q <==> x in front || x == y;
      assert y !in front;
    }
  }

  lemma RemovalCounts(y: Command, c: ClientId, x: Command)
    ensures multiset(Removal(y, c))[FailureCalled(x)] == if x == y && y.client == c && y.onFailure then 1 else 0
    ensures multiset(Removal(y, c))[Dropped(x)] == if x == y && y.client == c then 1 else 0
  {
  }

  /** After a clean session nothing of the client is left: no queued command, no response, no
      stored command, no id in use; the other clients are untouched. */
  lemma CleanSessionCleans(s: State, c: ClientId)
    requires Inv(s) && c in s.clients
    ensures
      var t := CleanSession(s, c);
      && t.commands == Others(s.commands, c)
      && t.clients[c].responses == [] && t.clients[c].outbound == [] && t.clients[c].msgID == 0
      && (t.clients[c].persistent ==> t.clients[c].store == map[])
      && (forall d :: d in s.clients && d != c ==> d in t.clients && t.clients[d] == s.clients[d])
  {
    RemovalKeepsOthers(s.commands, c);
  }
}
