/** Crash and restart: what a new engine recovers from the store of an old one. */
module AsyncRestart {
  import opened Bytes
  import opened CommandCodec
  import opened LinkedLists
  import opened AsyncState
  import opened AsyncInvariants
  import opened AsyncOrder

  /** The store of a persistent client is sound at every moment, so a crash can happen at any. */
  lemma StoreIsSound(s: State, c: ClientId)
    requires Inv(s) && c in s.clients && s.clients[c].persistent
    ensures SoundStore(s.clients[c].store)
  {
    var store := s.clients[c].store;
    assert Mirrors(s.commands, c, store, s.clients[c].commandSeqno);
    forall k | k in store
      ensures k > 0 && SoundEntry(store[k])
    {
      var a := EntryOf(s, c, k);
    }
    forall k, m | k in store && m in store && k != m && Restore(store[k]).Parsed? && Restore(store[m]).Parsed?
                  && Restore(store[k]).token != 0
      ensures Restore(store[k]).token != Restore(store[m]).token
    {
      var a := EntryOf(s, c, k);
      var b := EntryOf(s, c, m);
    }
  }

  /** The queued command behind a stored entry. */
  lemma EntryOf(s: State, c: ClientId, k: nat) returns (a: Command)
    requires Inv(s) && c in s.clients && s.clients[c].persistent && k in s.clients[c].store
    ensures a in s.commands && Backs(a, c, k) && Representable(a.details)
    ensures NeedsToken(a.details) ==> a.token != 0
    ensures s.clients[c].store[k] == Layout(a.token, a.details)
    ensures Restore(s.clients[c].store[k]) == Parsed(a.token, a.details, |Layout(a.token, a.details)|)
  {
    hide Layout, Representable, Restore, TokenInv, Persistable;
    assert Mirrors(s.commands, c, s.clients[c].store, s.clients[c].commandSeqno);
    a :| a in s.commands && Backs(a, c, k);
    assert Sound(s, a);
    RestoreUndoesPersist(a.token, a.details, []);
    assert Layout(a.token, a.details) + [] == Layout(a.token, a.details);
  }

  /** A new command never overwrites a stored one. */
  lemma NextKeyIsFresh(s: State, c: ClientId)
    requires Inv(s) && c in s.clients && s.clients[c].persistent
    ensures s.clients[c].commandSeqno + 1 !in s.clients[c].store
  {
    assert Mirrors(s.commands, c, s.clients[c].store, s.clients[c].commandSeqno);
  }

  /** `b`, restored, is `a`, queued before the crash: everything but identity, owner and callbacks. */
  predicate SameRequest(a: Command, b: Command) {
    a.token == b.token && a.details == b.details && a.seqno == b.seqno
  }

  function Seqnos(cmds: seq<Command>): seq<nat> {
    seq(|cmds|, i requires 0 <= i < |cmds| => cmds[i].seqno)
  }

  /** The queue of client `d` in `t` holds exactly the requests that client `c` has queued in `s`,
      in the order of `keys`, and new commands get sequence numbers above all of theirs. */
  ghost predicate Recovered(s: State, c: ClientId, t: State, d: ClientId, keys: seq<nat>) {
    && d in t.clients
    && (forall a :: a in s.commands && a.client == c && Persistable(a.details) ==>
          exists b :: b in t.commands && b.client == d && SameRequest(a, b))
    && (forall b :: b in t.commands && b.client == d ==>
          exists a :: a in s.commands && a.client == c && Persistable(a.details) && SameRequest(a, b))
    && Seqnos(Line(t.commands, d)) == keys
    && (forall b :: b in t.commands && b.client == d ==> b.seqno <= t.clients[d].commandSeqno)
  }

  /** Client `c` of engine `s` crashes; engine `t` (a new process, or the same one) creates a client
      `d` over its store, whose keys the backend enumerates as `keys`.  Everything that had not been
      dispatched is recovered. */
  lemma RestartRecoversQueue(s: State, c: ClientId, store: map<nat, seq<byte>>, t: State, d: ClientId, keys: seq<nat>,
                             outbound: seq<int>, buffering: Option<Buffering>)
    requires Enumerates(keys, store)
    requires Inv(s) && c in s.clients && s.clients[c].persistent && s.clients[c].store == store
    requires Inv(t) && d !in t.clients
    ensures Enabled(t, DoCreate(d, store, keys, outbound, buffering))
    ensures Recovered(s, c, Create(t, d, store, keys, outbound, buffering), d, keys)
  {
    hide Inv, SoundStore, Enumerates, Restoring, Loaded, Line, RestorePoint, Recovered, RestoreKeys;
    StoreIsSound(s, c);
    NoCommandsOf(t, d);
    var s0 := WithClient(t, d, FreshClient(true, store, outbound, buffering));
    StartRestoring(t, d, store, outbound, buffering);
    EnumeratedKeys(keys, store);
    RestoreKeysKeeps(s0, d, keys);
    RestoredIsLoaded(RestoreKeys(s0, d, keys), d, keys);
    RestoredOrder(s0, d, keys);
    LoadedIsRecovered(s, c, store, RestoreKeys(s0, d, keys), d, keys);
  }

  /** A client that is not there has no commands. */
  lemma NoCommandsOf(s: State, d: ClientId)
    requires Inv(s) && d !in s.clients
    ensures forall a :: a in s.commands ==> a.client != d
  {
    assert forall a :: a in s.commands ==> Sound(s, a);
  }

  lemma EnumeratedKeys(keys: seq<nat>, store: map<nat, seq<byte>>)
    requires Enumerates(keys, store)
    ensures forall k :: k in keys ==> k in store
    ensures forall i, j :: 0 <= i < j < |keys| ==> keys[i] != keys[j]
  {
  }

  lemma RestoredIsLoaded(s: State, c: ClientId, done: seq<nat>)
    requires Restoring(s, c, done)
    ensures c in s.clients && Loaded(s.commands, c, s.clients[c].store, done, s.clients[c].commandSeqno)
  {
  }

  lemma LoadedIsRecovered(s: State, c: ClientId, store: map<nat, seq<byte>>, t: State, d: ClientId, keys: seq<nat>)
    requires Inv(s) && c in s.clients && s.clients[c].persistent && s.clients[c].store == store
    requires d in t.clients && Loaded(t.commands, d, store, keys, t.clients[d].commandSeqno)
    requires Enumerates(keys, store) && Seqnos(Line(t.commands, d)) == keys
    ensures Recovered(s, c, t, d, keys)
  {
    hide Layout, Representable, Line, TokenInv, QueueInv, StoreInv;
    forall a | a in s.commands && a.client == c && Persistable(a.details)
      ensures exists b :: b in t.commands && b.client == d && SameRequest(a, b)
    {
      var b := RestoredFrom(s, c, store, t, d, keys, a);
    }
    forall b | b in t.commands && b.client == d
      ensures exists a :: a in s.commands && a.client == c && Persistable(a.details) && SameRequest(a, b)
    {
      var a := EntryOf(s, c, b.seqno);
      LayoutPrefixFree(a.token, a.details, b.token, b.details);
      assert SameRequest(a, b);
    }
  }

  lemma RestoredFrom(s: State, c: ClientId, store: map<nat, seq<byte>>, t: State, d: ClientId, keys: seq<nat>,
                     a: Command)
    returns (b: Command)
    requires StoreInv(s) && c in s.clients && s.clients[c].persistent && s.clients[c].store == store
    requires d in t.clients && Loaded(t.commands, d, store, keys, t.clients[d].commandSeqno) && Enumerates(keys, store)
    requires a in s.commands && a.client == c && Persistable(a.details)
    ensures b in t.commands && b.client == d && SameRequest(a, b)
  {
    hide Layout, Representable;
    assert Mirrors(s.commands, c, store, s.clients[c].commandSeqno);
    assert a.seqno in keys;
    b :| b in t.commands && Backs(b, d, a.seqno);
    LayoutPrefixFree(a.token, a.details, b.token, b.details);
  }

  /** Restored commands line up as enumerated, whatever their sequence numbers. */
  lemma {:induction false} RestoredOrder(s: State, d: ClientId, keys: seq<nat>)
    requires d in s.clients && SoundStore(s.clients[d].store)
    requires forall k :: k in keys ==> k in s.clients[d].store
    requires forall a :: a in s.commands ==> a.client != d
    ensures Seqnos(Line(RestoreKeys(s, d, keys).commands, d)) == keys
    ensures AheadOfRestorePoint(RestoreKeys(s, d, keys).commands, d)
  {
    hide Line, RestorePoint, RestoreOne, FromStore, Ordinary, SoundEntry;
    if keys == [] {
      NoneBefore(s.commands, d);
    } else {
      var front, key := keys[..|keys| - 1], keys[|keys| - 1];
      RestoredOrder(s, d, front);
      RestoreOneInLine(RestoreKeys(s, d, front), d, key, d);
      assert front + [key] == keys;
    }
  }

  // ----- the order after a restart -----

  /** The requests of `c` in the queue, in queue order. */
  function Requests(q: seq<Command>, c: ClientId): seq<Command> {
    if q == [] then []
    else
      var x := q[|q| - 1];
      Requests(q[..|q| - 1], c) + (if x.client == c && Persistable(x.details) then [x] else [])
  }

  ghost predicate SameOrder(a: seq<Command>, b: seq<Command>) {
    |a| == |b| && forall i :: 0 <= i < |a| ==> SameRequest(a[i], b[i])
  }

  lemma {:induction false} RequestsAreQueued(q: seq<Command>, c: ClientId)
    ensures forall a :: a in Requests(q, c) ==> a in q && a.client == c && Persistable(a.details)
  {
    if q != [] {
      RequestsAreQueued(q[..|q| - 1], c);
    }
  }

  lemma {:induction false} RequestsAreLine(q: seq<Command>, c: ClientId)
    requires forall a :: a in q && a.client == c ==> Persistable(a.details)
    ensures Requests(q, c) == Line(q, c)
  {
    if q != [] {
      assert q[|q| - 1] in q;
      RequestsAreLine(q[..|q| - 1], c);
    }
  }

  /** The requests keep their order over a restart exactly when the backend enumerates their keys in that
      order. */
  lemma OrderSurvivesIff(s: State, c: ClientId, store: map<nat, seq<byte>>, t: State, d: ClientId, keys: seq<nat>,
                         outbound: seq<int>, buffering: Option<Buffering>)
    requires Enumerates(keys, store)
    requires Inv(s) && c in s.clients && s.clients[c].persistent && s.clients[c].store == store
    requires Inv(t) && d !in t.clients
    ensures
      var t' := Create(t, d, store, keys, outbound, buffering);
      SameOrder(Requests(s.commands, c), Requests(t'.commands, d)) <==> keys == Seqnos(Requests(s.commands, c))
  {
    RestartRecoversQueue(s, c, store, t, d, keys, outbound, buffering);
    hide Inv, Enumerates, Create, Line, Requests, Recovered, SameOrder, Seqnos;
    var t' := Create(t, d, store, keys, outbound, buffering);
    RecoveredRequests(s, c, t', d, keys);
    RequestsAreLine(t'.commands, d);
    if keys == Seqnos(Requests(s.commands, c)) {
      SameSeqnosSameOrder(s, c, t', d, keys);
    }
    if SameOrder(Requests(s.commands, c), Requests(t'.commands, d)) {
      SameOrderSameSeqnos(Requests(s.commands, c), Requests(t'.commands, d));
    }
  }

  lemma SameOrderSameSeqnos(a: seq<Command>, b: seq<Command>)
    requires SameOrder(a, b)
    ensures Seqnos(a) == Seqnos(b)
  {
  }

  lemma SameSeqnosSameOrder(s: State, c: ClientId, t: State, d: ClientId, keys: seq<nat>)
    requires Inv(s) && c in s.clients && s.clients[c].persistent && Recovered(s, c, t, d, keys)
    requires Seqnos(Requests(s.commands, c)) == keys == Seqnos(Requests(t.commands, d))
    ensures SameOrder(Requests(s.commands, c), Requests(t.commands, d))
  {
    hide Inv, Requests, Recovered, SameRequest;
    var before, after := Requests(s.commands, c), Requests(t.commands, d);
    assert |after| == |Seqnos(after)| == |Seqnos(before)| == |before|;
    forall i | 0 <= i < |before|
      ensures SameRequest(before[i], after[i])
    {
      assert after[i].seqno == Seqnos(after)[i] == Seqnos(before)[i] == before[i].seqno;
      SameRequestBySeqno(s, c, t, d, keys, before[i], after[i]);
    }
  }

  lemma RecoveredRequests(s: State, c: ClientId, t: State, d: ClientId, keys: seq<nat>)
    requires Recovered(s, c, t, d, keys)
    ensures forall b :: b in t.commands && b.client == d ==> Persistable(b.details)
    ensures Seqnos(Line(t.commands, d)) == keys
  {
  }

  lemma OriginOf(s: State, c: ClientId, t: State, d: ClientId, keys: seq<nat>, b: Command) returns (a: Command)
    requires Recovered(s, c, t, d, keys) && b in t.commands && b.client == d
    ensures a in s.commands && a.client == c && Persistable(a.details) && SameRequest(a, b)
  {
    hide Line, SameRequest, Persistable;
    a :| a in s.commands && a.client == c && Persistable(a.details) && SameRequest(a, b);
  }

  lemma OnePerSeqno(s: State, c: ClientId, a: Command, b: Command)
    requires Inv(s) && c in s.clients && s.clients[c].persistent && a in s.commands && b in s.commands
    requires Backs(a, c, b.seqno) && Backs(b, c, b.seqno)
    ensures a == b
  {
    hide QueueInv, TokenInv, Layout, Representable, Persistable;
    assert Mirrors(s.commands, c, s.clients[c].store, s.clients[c].commandSeqno);
  }

  lemma SameRequestBySeqno(s: State, c: ClientId, t: State, d: ClientId, keys: seq<nat>, a: Command, b: Command)
    requires Inv(s) && c in s.clients && s.clients[c].persistent && Recovered(s, c, t, d, keys)
    requires a in Requests(s.commands, c) && b in Requests(t.commands, d) && a.seqno == b.seqno
    ensures SameRequest(a, b)
  {
    hide Inv, Persistable, Requests, Recovered;
    RequestsAreQueued(s.commands, c);
    RequestsAreQueued(t.commands, d);
    var origin := OriginOf(s, c, t, d, keys, b);
    OnePerSeqno(s, c, origin, a);
  }

  /** Where a restored command goes, told from the callback pointers of those queued: before the first whose
      low half, taken as a C int, is positive. */
  lemma {:induction false} RestorePointIs(q: seq<Command>)
    ensures
      var k := RestorePoint(q);
      && k <= |q|
      && (forall j :: 0 <= j < k ==> q[j].onSuccess % 4294967296 == 0 || q[j].onSuccess % 4294967296 >= 2147483648)
      && (k < |q| ==> 0 < q[k].onSuccess % 4294967296 < 2147483648)
  {
    var k := RestorePoint(q);
    forall j | 0 <= j < k
      ensures q[j].onSuccess % 4294967296 == 0 || q[j].onSuccess % 4294967296 >= 2147483648
    {
      assert SortKey(q[j]) <= 0;
    }
  }
}
