/** What every step of the engine keeps, and what follows over whole runs. */
module AsyncInvariants {
  import opened Bytes
  import opened CommandCodec
  import opened LinkedLists
  import opened AsyncState

  // ----- the invariants -----

  /** Queue entries are distinct allocations that belong to live clients. */
  ghost predicate QueueInv(s: State) {
    && DistinctIds(s.commands)
    && (forall a :: a in s.commands ==> Sound(s, a))
  }

  ghost predicate DistinctIds(q: seq<Command>) {
    forall i, j :: 0 <= i < j < |q| ==> q[i].id != q[j].id
  }

  ghost predicate Sound(s: State, a: Command) {
    && a.id < s.nextId && a.client in s.clients && Representable(a.details)
    && (NeedsToken(a.details) ==> a.token != 0)
    && (!Persistable(a.details) ==> a.seqno == 0)
  }

  /** Within one client the non-zero tokens of queued commands and of responses are distinct. */
  ghost predicate TokenInv(s: State) {
    && (forall a, b :: a in s.commands && b in s.commands ==>
          a.client == b.client && a.token == b.token && a.token != 0 ==> a == b)
    && (forall c :: c in s.clients ==> ResponsesInv(s.clients[c], c))
    && (forall a, r :: a in s.commands && a.client in s.clients && r in s.clients[a.client].responses ==>
          a.token == r.token ==> a.token == 0)
  }

  ghost predicate ResponsesInv(cl: Client, c: ClientId) {
    && cl.msgID <= MAX_MSG_ID
    && (forall i, j :: 0 <= i < j < |cl.responses| ==>
          cl.responses[i].token == cl.responses[j].token ==> cl.responses[i].token == 0)
    && (forall r :: r in cl.responses ==> SoundResponse(r, c))
    && (cl.pendingWrite.Some? ==> !NeedsToken(cl.pendingWrite.value.details))
  }

  /** A response without a token is a QoS 0 publication whose write was interrupted. */
  predicate SoundResponse(r: Command, c: ClientId) {
    r.client == c && Persistable(r.details) && (NeedsToken(r.details) ==> r.token != 0)
  }

  /** The store of every persistent client mirrors its queued requests. */
  ghost predicate StoreInv(s: State) {
    forall c :: c in s.clients && s.clients[c].persistent ==>
      Mirrors(s.commands, c, s.clients[c].store, s.clients[c].commandSeqno)
  }

  /** `a` is the queued request of client `c` that is stored under `key`. */
  predicate Backs(a: Command, c: ClientId, key: nat) {
    a.client == c && Persistable(a.details) && a.seqno == key
  }

  ghost predicate Mirrors(q: seq<Command>, c: ClientId, store: map<nat, seq<byte>>, seqno: nat) {
    && (forall a :: a in q && a.client == c && Persistable(a.details) ==>
          Representable(a.details) && a.seqno in store && store[a.seqno] == Layout(a.token, a.details))
    && (forall k :: k in store ==> 0 < k <= seqno && exists a :: a in q && Backs(a, c, k))
    && (forall a, b :: a in q && b in q && Backs(a, c, b.seqno) && Backs(b, c, b.seqno) ==> a == b)
  }

  ghost predicate Inv(s: State) {
    QueueInv(s) && TokenInv(s) && StoreInv(s)
  }

  // ----- adding -----

  ghost predicate TokenFree(s: State, c: ClientId, token: int)
    requires c in s.clients
  {
    && (forall a :: a in s.commands && a.client == c ==> a.token != token)
    && (forall r :: r in s.clients[c].responses ==> r.token != token)
  }

  ghost predicate Addable(s: State, cmd: Command) {
    && Sound(s, cmd)
    && (forall a :: a in s.commands ==> a.id != cmd.id)
    && (cmd.token != 0 ==> TokenFree(s, cmd.client, cmd.token))
  }

  /** What adding a command that is not a duplicate does: `x` is the entry. */
  lemma AddShape(s: State, cmd: Command) returns (x: Command)
    requires cmd.client in s.clients && Representable(cmd.details) && Add(s, cmd).commands != s.commands
    ensures
      var t, cl := Add(s, cmd), s.clients[cmd.client];
      && t.commands == (if Urgent(cmd.details) then [x] + s.commands else s.commands + [x])
      && x == cmd.(seqno := x.seqno) && t.nextId == s.nextId && t.log == s.log + [Added(x)]
      && if cl.persistent && Persistable(cmd.details)
         then x.seqno == cl.commandSeqno + 1
              && t.clients == s.clients[cmd.client := cl.(commandSeqno := x.seqno,
                                                         store := cl.store[x.seqno := Layout(x.token, x.details)])]
         else x == cmd && t.clients == s.clients
  {
    hide Layout, Representable;
    x := if Urgent(cmd.details) then Add(s, cmd).commands[0] else Add(s, cmd).commands[|s.commands|];
  }

  /** A duplicate changes nothing. */
  lemma AddNothing(s: State, cmd: Command)
    requires cmd.client in s.clients && Representable(cmd.details) && Add(s, cmd).commands == s.commands
    ensures Add(s, cmd) == s
  {
    assert |[cmd] + s.commands| != |s.commands| && |s.commands + [cmd]| != |s.commands|;
  }

  lemma AddKeepsInv(s: State, cmd: Command)
    requires Inv(s) && Addable(s, cmd)
    ensures Inv(Add(s, cmd))
  {
    hide Layout, Representable, Persistable, QueueInv, TokenInv, StoreInv, TokenFree;
    if Add(s, cmd).commands != s.commands {
      hide Add, Addable;
      AddKeepsQueue(s, cmd);
      AddKeepsTokens(s, cmd);
      AddKeepsStore(s, cmd);
    }
  }

  lemma AddKeepsQueue(s: State, cmd: Command)
    requires QueueInv(s) && Addable(s, cmd) && Add(s, cmd).commands != s.commands
    ensures QueueInv(Add(s, cmd))
  {
    hide Layout, Representable, Persistable, TokenFree, Add;
    var t := Add(s, cmd);
    var x := AddShape(s, cmd);
    assert forall a :: a in t.commands <==> a in s.commands || a == x;
  }

  lemma AddKeepsTokens(s: State, cmd: Command)
    requires TokenInv(s) && Addable(s, cmd) && Add(s, cmd).commands != s.commands
    ensures TokenInv(Add(s, cmd))
  {
    hide Layout, Representable, Persistable, Add;
    var t := Add(s, cmd);
    var x := AddShape(s, cmd);
    assert forall a :: a in t.commands <==> a in s.commands || a == x;
    assert forall c :: c in s.clients ==> SameTokens(s.clients[c], t.clients[c]);
  }

  /** An entry that is not a request of client `c` does not matter to its store. */
  lemma MirrorsWithStranger(q: seq<Command>, r: seq<Command>, x: Command, c: ClientId, store: map<nat, seq<byte>>,
                            seqno: nat)
    requires x.client != c || !Persistable(x.details)
    requires Mirrors(q, c, store, seqno)
    requires forall a :: a in r <==> a in q || a == x
    ensures Mirrors(r, c, store, seqno)
  {
    hide Layout, Representable, Persistable;
    forall k | k in store
      ensures exists a :: a in r && Backs(a, c, k)
    {
      var a :| a in q && Backs(a, c, k);
      assert a in r;
    }
  }

  lemma MirrorsWithNext(q: seq<Command>, r: seq<Command>, x: Command, c: ClientId, store: map<nat, seq<byte>>,
                        seqno: nat)
    requires Backs(x, c, seqno + 1) && Representable(x.details)
    requires Mirrors(q, c, store, seqno)
    requires forall a :: a in r <==> a in q || a == x
    ensures Mirrors(r, c, store[seqno + 1 := Layout(x.token, x.details)], seqno + 1)
  {
    hide Layout, Representable, Persistable;
    var store' := store[seqno + 1 := Layout(x.token, x.details)];
    forall k | k in store'
      ensures 0 < k <= seqno + 1 && exists a :: a in r && Backs(a, c, k)
    {
      if k == seqno + 1 {
        assert x in r;
      } else {
        var a :| a in q && Backs(a, c, k);
        assert a in r;
      }
    }
  }

  lemma AddKeepsStore(s: State, cmd: Command)
    requires StoreInv(s) && Addable(s, cmd) && Add(s, cmd).commands != s.commands
    ensures StoreInv(Add(s, cmd))
  {
    hide Layout, Representable, Persistable, TokenFree, Add, Mirrors;
    var t := Add(s, cmd);
    var x := AddShape(s, cmd);
    assert forall a :: a in t.commands <==> a in s.commands || a == x;
    forall c | c in t.clients && t.clients[c].persistent
      ensures Mirrors(t.commands, c, t.clients[c].store, t.clients[c].commandSeqno)
    {
      if x.client == c && Persistable(x.details) {
        MirrorsWithNext(s.commands, t.commands, x, c, s.clients[c].store, s.clients[c].commandSeqno);
      } else {
        MirrorsWithStranger(s.commands, t.commands, x, c, s.clients[c].store, s.clients[c].commandSeqno);
      }
    }
  }

  lemma AddNewKeepsInv(s: State, c: ClientId, token: int32, onSuccess: nat, onFailure: bool, d: Details)
    requires Inv(s) && c in s.clients && Representable(d)
    requires NeedsToken(d) ==> token != 0
    requires token != 0 ==> TokenFree(s, c, token)
    ensures Inv(AddNew(s, c, token, onSuccess, onFailure, d))
  {
    hide Layout, Representable, Persistable, Add;
    AddKeepsInv(s.(nextId := s.nextId + 1), New(s, c, token, onSuccess, onFailure, d));
  }

  // ----- client updates that leave queue, responses and store alone -----

  ghost predicate SameCore(a: Client, b: Client) {
    && a.responses == b.responses && a.persistent == b.persistent && a.store == b.store
    && a.commandSeqno == b.commandSeqno && b.msgID <= MAX_MSG_ID
    && (b.pendingWrite == a.pendingWrite
        || (b.pendingWrite.Some? && !NeedsToken(b.pendingWrite.value.details)))
  }

  predicate SameStore(a: Client, b: Client) {
    a.persistent == b.persistent && a.store == b.store && a.commandSeqno == b.commandSeqno
  }

  lemma QueueAndStoreStay(s: State, c: ClientId, cl: Client)
    requires QueueInv(s) && StoreInv(s) && c in s.clients && SameStore(s.clients[c], cl)
    ensures QueueInv(WithClient(s, c, cl)) && StoreInv(WithClient(s, c, cl))
  {
    hide Layout, Representable, Persistable, NeedsToken, Mirrors;
    assert forall a :: a in s.commands ==> Sound(s, a);
  }

  lemma UpdateKeepsInv(s: State, c: ClientId, cl: Client)
    requires Inv(s) && c in s.clients && SameCore(s.clients[c], cl)
    ensures Inv(WithClient(s, c, cl))
  {
  }

  lemma LogKeepsInv(s: State, es: seq<Event>)
    requires Inv(s)
    ensures Inv(Logged(s, es))
  {
    hide Sound, Mirrors, ResponsesInv;
    assert forall a :: a in s.commands ==> Sound(s, a) && Sound(Logged(s, es), a) by {
      SoundLogged(s, es);
    }
  }

  lemma SoundLogged(s: State, es: seq<Event>)
    ensures forall a :: Sound(s, a) <==> Sound(Logged(s, es), a)
  {
  }

  // ----- removing -----

  lemma {:induction false} PurgedMembers(q: seq<Command>, c: ClientId)
    ensures forall a :: a in Purged(q, c) <==> a in q && a.client != c
    ensures DistinctIds(q) ==> DistinctIds(Purged(q, c))
  {
    hide DistinctIds;
    if q != [] {
      var front, x := q[..|q| - 1], q[|q| - 1];
      PurgedMembers(front, c);
      assert q == front + [x];
      assert forall a :: a in q <==> a in front || a == x;
      SnocIds(front, x);
      SnocIds(Purged(front, c), x);
      assert Purged(front, c) + [] == Purged(front, c);
    }
  }

  lemma SnocIds(q: seq<Command>, x: Command)
    ensures DistinctIds(q + [x]) <==> DistinctIds(q) && forall a :: a in q ==> a.id != x.id
  {
    var r := q + [x];
    assert forall i :: 0 <= i < |q| ==> r[i] == q[i] && q[i] in q;
    if DistinctIds(r) {
      forall a | a in q
        ensures a.id != x.id
      {
        var i :| 0 <= i < |q| && q[i] == a;
        assert r[i].id != r[|q|].id;
      }
      forall i, j | 0 <= i < j < |q|
        ensures q[i].id != q[j].id
      {
        assert r[i].id != r[j].id;
      }
    }
  }

  /** Clearing the store and removing the client's commands, or only the latter for a volatile one. */
  lemma RemoveAllKeepsInv(s: State, c: ClientId)
    requires QueueInv(s) && TokenInv(s) && c in s.clients
    requires forall d :: d in s.clients && d != c && s.clients[d].persistent ==>
               Mirrors(s.commands, d, s.clients[d].store, s.clients[d].commandSeqno)
    requires s.clients[c].persistent ==> s.clients[c].store == map[]
    ensures Inv(RemoveAll(s, c))
  {
    hide Layout, Representable;
    var t := RemoveAll(s, c);
    PurgedMembers(s.commands, c);
    forall d | d in t.clients && t.clients[d].persistent
      ensures Mirrors(t.commands, d, t.clients[d].store, t.clients[d].commandSeqno)
    {
      if d != c {
        MirrorsWithoutOthers(s.commands, t.commands, c, d, s.clients[d].store, s.clients[d].commandSeqno);
      }
    }
  }

  lemma MirrorsWithoutOthers(q: seq<Command>, r: seq<Command>, c: ClientId, d: ClientId, store: map<nat, seq<byte>>,
                             seqno: nat)
    requires d != c && Mirrors(q, d, store, seqno)
    requires forall a :: a in r <==> a in q && a.client != c
    ensures Mirrors(r, d, store, seqno)
  {
    hide Layout, Representable;
    forall k | k in store
      ensures exists a :: a in r && Backs(a, d, k)
    {
      var a :| a in q && Backs(a, d, k);
      assert a in r;
    }
  }

  lemma CleanSessionKeepsInv(s: State, c: ClientId)
    requires Inv(s) && c in s.clients
    ensures Inv(CleanSession(s, c)) && c in CleanSession(s, c).clients
  {
    RemoveAllKeepsInv(WithClient(s, c, Cleaned(s.clients[c])), c);
  }

  lemma CloseSessionKeepsInv(s: State, c: ClientId)
    requires Inv(s) && c in s.clients
    ensures Inv(CloseSession(s, c)) && c in CloseSession(s, c).clients
  {
    UpdateKeepsInv(s, c, s.clients[c].(connected := false, connectState := 0));
    if s.clients[c].cleanSession {
      CleanSessionKeepsInv(CloseOnly(s, c), c);
    }
  }

  lemma DestroyKeepsInv(s: State, c: ClientId)
    requires Inv(s) && c in s.clients
    ensures Inv(Destroy(s, c))
  {
    hide Layout, Representable;
    var t := Destroy(s, c);
    PurgedMembers(s.commands, c);
    forall d | d in t.clients && t.clients[d].persistent
      ensures Mirrors(t.commands, d, t.clients[d].store, t.clients[d].commandSeqno)
    {
      MirrorsWithoutOthers(s.commands, t.commands, c, d, s.clients[d].store, s.clients[d].commandSeqno);
    }
  }

  lemma WithoutMembers(q: seq<Command>, i: nat)
    requires i < |q| && DistinctIds(q)
    ensures forall a :: a in Without(q, i) <==> a in q && a != q[i]
    ensures forall a :: a in Without(q, i) ==> a.id != q[i].id
    ensures DistinctIds(Without(q, i))
  {
    forall a
      ensures a in Without(q, i) <==> a in q && a != q[i]
    {
      WithoutHas(q, i, a);
    }
    assert forall a :: a in Without(q, i) ==> a.id != q[i].id;
  }

  lemma MirrorsWithout(q: seq<Command>, r: seq<Command>, x: Command, c: ClientId, store: map<nat, seq<byte>>,
                       seqno: nat)
    requires x in q && (!Persistable(x.details) ==> x.seqno == 0)
    requires Mirrors(q, c, store, seqno)
    requires forall a :: a in r <==> a in q && a != x
    ensures Mirrors(r, c, if x.client == c then store - {x.seqno} else store, seqno)
  {
    hide Layout, Representable, Persistable;
    forall k | k in store && (x.client == c ==> k != x.seqno)
      ensures exists a :: a in r && Backs(a, c, k)
    {
      var a :| a in q && Backs(a, c, k);
      assert a in r;
    }
  }

  predicate SameTokens(a: Client, b: Client) {
    a.responses == b.responses && a.msgID == b.msgID && a.pendingWrite == b.pendingWrite
  }

  lemma FewerKeepTokens(s: State, t: State)
    requires TokenInv(s) && t.clients.Keys == s.clients.Keys
    requires forall a :: a in t.commands ==> a in s.commands
    requires forall c :: c in s.clients ==> SameTokens(s.clients[c], t.clients[c])
    ensures TokenInv(t)
  {
  }

  lemma DequeueKeepsInv(s: State, i: nat)
    requires Inv(s) && i < |s.commands|
    ensures s.commands[i].client in s.clients
    ensures Inv(Dequeue(s, i)) && Addable(Dequeue(s, i), s.commands[i])
  {
    hide Layout, Representable, Persistable, Without;
    var x := s.commands[i];
    assert x in s.commands && Sound(s, x);
    var t := Dequeue(s, i);
    WithoutMembers(s.commands, i);
    assert t.commands == Without(s.commands, i);
    assert QueueInv(t);
    FewerKeepTokens(s, t);
    forall c | c in t.clients && t.clients[c].persistent
      ensures Mirrors(t.commands, c, t.clients[c].store, t.clients[c].commandSeqno)
    {
      MirrorsWithout(s.commands, t.commands, x, c, s.clients[c].store, s.clients[c].commandSeqno);
    }
  }

  // ----- the steps -----

  lemma NextOrCloseKeepsInv(s: State, c: ClientId)
    requires Inv(s) && c in s.clients
    ensures Inv(NextOrClose(s, c))
  {
    var cl := s.clients[c];
    if MoreToTry(cl.connect.currentURI, cl.connect.version, cl) {
      UpdateKeepsInv(s, c, cl.(connected := false, connectState := 0));
      AddNewKeepsInv(CloseOnly(s, c), c, 0, cl.connect.onSuccess, cl.connect.onFailure,
                     NextOptions(cl.connect.currentURI, cl.connect.version, cl));
    } else {
      CloseSessionKeepsInv(s, c);
    }
  }

  lemma DisconnectCallKeepsInv(s: State, c: ClientId, internal: bool, onSuccess: nat, onFailure: bool)
    requires Inv(s) && c in s.clients
    ensures Inv(DisconnectCall(s, c, internal, onSuccess, onFailure))
  {
    var s1 := if internal then s else WithClient(s, c, s.clients[c].(shouldBeConnected := false));
    UpdateKeepsInv(s, c, s1.clients[c]);
    if s.clients[c].connected {
      AddNewKeepsInv(s1, c, 0, onSuccess, onFailure, Disconnect(internal));
    }
  }

  /** A failed CONNECT may go back into the queue with other options. */
  lemma RetryKeepsInv(s: State, cmd: Command, d: Details, cl: Client)
    requires Inv(s) && Addable(s, cmd) && cmd.details.Connect? && d.Connect?
    requires SameCore(s.clients[cmd.client], cl)
    ensures Inv(Add(WithClient(s, cmd.client, cl), cmd.(details := d)))
  {
    var t := WithClient(s, cmd.client, cl);
    UpdateKeepsInv(s, cmd.client, cl);
    assert Addable(t, cmd.(details := d)) by {
      hide TokenInv, StoreInv, QueueInv;
    }
    hide Inv, Addable, Add;
    AddKeepsInv(t, cmd.(details := d));
  }

  lemma DispatchConnectKeepsInv(s: State, cmd: Command, net: Net)
    requires Inv(s) && Addable(s, cmd) && cmd.details.Connect?
    ensures Inv(DispatchConnect(s, cmd, net))
  {
    hide Inv, Add, MoreToTry, AttemptVersion, NextOptions, SameCore, Addable, Representable;
    OwnerOf(s, cmd);
    var c, cl, uri := cmd.client, s.clients[cmd.client], cmd.details.currentURI;
    var v := AttemptVersion(cmd.details.version, cl);
    var s1 := Logged(s, [Attempt(c, uri, v)]);
    LogKeepsInv(s, [Attempt(c, uri, v)]);
    ConnectFields(s, cmd, net.connectState, v);
    UpdateKeepsInv(s, c, cl.(connect := ConnectInfo(uri, cmd.details.version, cmd.onSuccess, cmd.onFailure)));
    UpdateKeepsInv(s1, c, cl.(connectState := net.connectState,
                              connect := ConnectInfo(uri, v, cmd.onSuccess, cmd.onFailure)));
    var s2 := WithClient(s1, c, cl.(shouldBeConnected := true));
    UpdateKeepsInv(s1, c, cl.(shouldBeConnected := true));
    LogKeepsInv(s2, if cmd.onFailure then [ConnectFailed(c)] else []);
    AddableLogged(s, [Attempt(c, uri, v)], cmd);
    StillConnect(uri, v, cl);
    RetryKeepsInv(s1, cmd, NextOptions(uri, v, cl), cl.(shouldBeConnected := true));
  }

  lemma StillConnect(uri: nat, v: int, cl: Client)
    ensures NextOptions(uri, v, cl).Connect?
  {
  }

  lemma AddableLogged(s: State, es: seq<Event>, cmd: Command)
    requires Addable(s, cmd)
    ensures Addable(Logged(s, es), cmd)
  {
    hide Representable;
  }

  /** None of the updates of a connection attempt concern what the invariants look at. */
  lemma ConnectFields(s: State, cmd: Command, connectState: int, v: int)
    requires cmd.client in s.clients && s.clients[cmd.client].msgID <= MAX_MSG_ID && cmd.details.Connect?
    ensures
      var cl, d := s.clients[cmd.client], cmd.details;
      && SameCore(cl, cl.(connect := ConnectInfo(d.currentURI, d.version, cmd.onSuccess, cmd.onFailure)))
      && SameCore(cl, cl.(connectState := connectState,
                          connect := ConnectInfo(d.currentURI, v, cmd.onSuccess, cmd.onFailure)))
      && SameCore(cl, cl.(shouldBeConnected := true))
  {
  }

  lemma ResponseAdded(cl: Client, cmd: Command)
    requires ResponsesInv(cl, cmd.client) && SoundResponse(cmd, cmd.client)
    requires forall r :: r in cl.responses ==> r.token == cmd.token ==> cmd.token == 0
    ensures ResponsesInv(cl.(responses := cl.responses + [cmd]), cmd.client)
    ensures forall r :: r in cl.responses + [cmd] <==> r in cl.responses || r == cmd
  {
    var rs := cl.responses + [cmd];
    assert forall i :: 0 <= i < |cl.responses| ==> rs[i] == cl.responses[i] && rs[i] in cl.responses;
  }

  lemma AwaitResponseKeepsInv(s: State, cmd: Command, cl: Client)
    requires Inv(s) && Addable(s, cmd) && Persistable(cmd.details) && SameCore(s.clients[cmd.client], cl)
    ensures Inv(WithClient(s, cmd.client, cl.(responses := cl.responses + [cmd])))
  {
    hide QueueInv, StoreInv, Persistable, Representable;
    var c, cl' := cmd.client, cl.(responses := cl.responses + [cmd]);
    UpdateKeepsInv(s, c, cl);
    ResponseAdded(cl, cmd);
    QueueAndStoreStay(s, c, cl');
    hide ResponsesInv;
    assert TokenInv(WithClient(s, c, cl'));
  }

  lemma OwnerOf(s: State, cmd: Command)
    requires Inv(s) && Addable(s, cmd)
    ensures cmd.client in s.clients && s.clients[cmd.client].msgID <= MAX_MSG_ID
  {
    assert ResponsesInv(s.clients[cmd.client], cmd.client);
  }

  lemma DispatchRequestKeepsInv(s: State, cmd: Command, net: Net)
    requires cmd.client in s.clients && Inv(s) && Addable(s, cmd) && Persistable(cmd.details)
    ensures Inv(DispatchRequest(s, cmd, net))
  {
    hide Inv, Addable, DisconnectCall, Representable;
    OwnerOf(s, cmd);
    var c, cl := cmd.client, s.clients[cmd.client];
    if cmd.details.Publish? && cmd.details.qos == 0 {
      LogKeepsInv(s, SuccessCall(cmd));
      AwaitResponseKeepsInv(s, cmd, cl.(pendingWrite := Some(cmd)));
      UpdateKeepsInv(s, c, cl.(pendingWrite := Some(cmd)));
    } else {
      var cl1 := Sending(cl, cmd);
      UpdateKeepsInv(s, c, cl1);
      DisconnectCallKeepsInv(WithClient(s, c, cl1), c, true, 0, false);
      LogKeepsInv(DisconnectCall(WithClient(s, c, cl1), c, true, 0, false), FailureCall(cmd));
      AwaitResponseKeepsInv(s, cmd, cl1);
    }
  }

  lemma FewerResponses(cl: Client, i: nat, c: ClientId)
    requires ResponsesInv(cl, c) && i < |cl.responses|
    ensures
      var rs := Without(cl.responses, i);
      ResponsesInv(cl.(responses := rs), c) && forall r :: r in rs ==> r in cl.responses
  {
    hide SoundResponse, NeedsToken;
    var rs, w := cl.responses, Without(cl.responses, i);
    forall k | 0 <= k < |w|
      ensures w[k] == rs[if k < i then k else k + 1] && w[k] in rs
    {
    }
  }

  /** Taking responses out. */
  lemma FewerResponsesKeepInv(s: State, c: ClientId, cl: Client)
    requires Inv(s) && c in s.clients && ResponsesInv(cl, c)
    requires forall r :: r in cl.responses ==> r in s.clients[c].responses
    requires SameStore(s.clients[c], cl)
    ensures Inv(WithClient(s, c, cl))
  {
    hide QueueInv, StoreInv, ResponsesInv;
    QueueAndStoreStay(s, c, cl);
  }

  lemma WriteCompleteKeepsInv(s: State, c: ClientId)
    requires Inv(s) && c in s.clients && WritePending(s.clients[c])
    ensures Inv(WriteComplete(s, c))
  {
    assert ResponsesInv(s.clients[c], c);
    hide Inv;
    var cl := s.clients[c];
    FewerResponses(cl, 0, c);
    var cl' := cl.(responses := cl.responses[1..], pendingWrite := None);
    assert Without(cl.responses, 0) == cl.responses[1..];
    FewerResponsesKeepInv(s, c, cl');
    LogKeepsInv(WithClient(s, c, cl'), SuccessCall(cl.pendingWrite.value));
  }

  lemma CheckDisconnectKeepsInv(s: State, cmd: Command, elapsed: bool)
    requires Inv(s) && cmd.client in s.clients && cmd.details.Disconnect?
    ensures Inv(CheckDisconnect(s, cmd, elapsed)) && cmd.client in CheckDisconnect(s, cmd, elapsed).clients
  {
    CloseSessionKeepsInv(s, cmd.client);
  }

  lemma DispatchDisconnectKeepsInv(s: State, cmd: Command, net: Net)
    requires Inv(s) && cmd.client in s.clients && cmd.details.Disconnect?
    ensures Inv(DispatchDisconnect(s, cmd, net))
  {
    hide Layout, Representable;
    var c, cl := cmd.client, s.clients[cmd.client];
    UpdateKeepsInv(s, c, cl.(connectState := -2));
    CheckDisconnectKeepsInv(WithClient(s, c, cl.(connectState := -2)), cmd, net.elapsed);
    var s1 :=
      if cl.connectState != 0 || cl.connected
      then CheckDisconnect(WithClient(s, c, cl.(connectState := -2)), cmd, net.elapsed)
      else s;
    UpdateKeepsInv(s1, c, s1.clients[c].(disconnect := Some(cmd)));
  }

  lemma ProcessKeepsInv(s: State, net: Net)
    requires Inv(s)
    ensures Inv(Process(s, net))
  {
    var i := FirstReady(s, net.idle, 0);
    if i >= 0 {
      DequeueKeepsInv(s, i);
      var s1, cmd := Dequeue(s, i), s.commands[i];
      match cmd.details {
        case Connect(_, _) => DispatchConnectKeepsInv(s1, cmd, net);
        case Disconnect(_) => DispatchDisconnectKeepsInv(s1, cmd, net);
        case _ => DispatchRequestKeepsInv(s1, cmd, net);
      }
    }
  }

  lemma AssignedIdIsFree(s: State, c: ClientId)
    requires Inv(s) && c in s.clients && !Diverges(TakenIds(s, c), s.clients[c].msgID)
    ensures var (t, id) := AssignMsgId(s, c);
      && Inv(t) && t.commands == s.commands && t.clients[c].responses == s.clients[c].responses
      && (id != 0 ==> forall a :: a in t.commands ==> a.token != id)
      && (id != 0 ==> TokenFree(t, c, id))
  {
    hide Layout, Representable, QueueInv, StoreInv, IdAfter;
    var taken, cursor := TakenIds(s, c), s.clients[c].msgID;
    var id := FirstFree(taken, cursor, 1);
    FirstFreeIsFree(taken, cursor, 1);
    if id != 0 {
      assert forall a :: a in s.commands ==> a.token as int in taken;
      assert forall r :: r in s.clients[c].responses ==> r.token as int in taken;
      UpdateKeepsInv(s, c, s.clients[c].(msgID := id));
    }
  }

  lemma {:induction false} FirstFreeIsFree(taken: set<int>, cursor: nat, k: nat)
    requires 1 <= k <= MAX_MSG_ID && cursor <= MAX_MSG_ID
    ensures FirstFree(taken, cursor, k) != 0 ==> FirstFree(taken, cursor, k) !in taken
    decreases MAX_MSG_ID - k
  {
    if IdAfter(cursor, k) in taken && k < MAX_MSG_ID {
      FirstFreeIsFree(taken, cursor, k + 1);
    }
  }

  lemma RequestKeepsInv(s: State, c: ClientId, d: Details, onSuccess: nat, onFailure: bool)
    requires Inv(s) && c in s.clients && Persistable(d) && Representable(d)
    requires NeedsId(s.clients[c], d) ==> !Diverges(TakenIds(s, c), s.clients[c].msgID)
    ensures s.clients[c].msgID <= MAX_MSG_ID && Inv(Request(s, c, d, onSuccess, onFailure).0)
  {
    assert ResponsesInv(s.clients[c], c);
    hide Inv, AssignMsgId, AddNew, Representable, Buffered, TakenIds, Diverges, QosInRange;
    if Refusal(s.clients[c], d).Success? {
      if NeedsToken(d) {
        AssignedIdIsFree(s, c);
        var (s1, id) := AssignMsgId(s, c);
        if id != 0 {
          AddNewKeepsInv(s1, c, id, onSuccess, onFailure, d);
        }
      } else {
        AddNewKeepsInv(s, c, 0, onSuccess, onFailure, d);
      }
    }
  }

  lemma AckKeepsInv(s: State, c: ClientId, id: int, refused: bool, flowDone: bool)
    requires Inv(s) && c in s.clients
    ensures Inv(Ack(s, c, id, refused, flowDone))
  {
    hide Inv, Without, ResponsesInv;
    ResponsesOf(s, c);
    var cl := s.clients[c];
    var cl1 := if flowDone then cl.(outbound := DropId(cl.outbound, id)) else cl;
    var i := FindResponse(cl.responses, id);
    SameResponses(cl, cl1, c);
    FewerResponsesKeepInv(s, c, cl1);
    if i >= 0 {
      var rs := Without(cl.responses, i);
      FewerResponses(cl, i, c);
      SameResponses(cl.(responses := rs), cl1.(responses := rs), c);
      FewerResponsesKeepInv(s, c, cl1.(responses := rs));
      LogKeepsInv(WithClient(s, c, cl1.(responses := rs)),
                  if refused then FailureCall(cl.responses[i]) else SuccessCall(cl.responses[i]));
    }
  }

  lemma ResponsesOf(s: State, c: ClientId)
    requires Inv(s) && c in s.clients
    ensures ResponsesInv(s.clients[c], c)
  {
  }

  lemma SameResponses(a: Client, b: Client, c: ClientId)
    requires ResponsesInv(a, c) && SameTokens(a, b)
    ensures ResponsesInv(b, c)
  {
  }

  lemma ConnackKeepsInv(s: State, c: ClientId, accepted: bool)
    requires Inv(s) && c in s.clients
    ensures Inv(Connack(s, c, accepted))
  {
    var cl := s.clients[c];
    if cl.connectState == 3 && accepted {
      var s1 := WithClient(s, c, cl.(connected := true, connectState := 0));
      UpdateKeepsInv(s, c, s1.clients[c]);
      CleanSessionKeepsInv(s1, c);
      var s2 := if cl.cleanSession then CleanSession(s1, c) else s1;
      UpdateKeepsInv(s2, c, s2.clients[c].(connect := s2.clients[c].connect.(onSuccess := 0)));
    } else {
      NextOrCloseKeepsInv(s, c);
    }
  }

  lemma ConnectCallKeepsInv(s: State, c: ClientId, version: int, cleanSession: bool, uriCount: nat, onSuccess: nat,
                            onFailure: bool)
    requires Inv(s) && c in s.clients
    ensures Inv(ConnectCall(s, c, version, cleanSession, uriCount, onSuccess, onFailure))
  {
    assert ResponsesInv(s.clients[c], c);
    hide Inv, AddNew, NeedsToken;
    var cl := Configured(s.clients[c], version, cleanSession, uriCount, onSuccess, onFailure);
    UpdateKeepsInv(s, c, cl);
    AddNewKeepsInv(WithClient(s, c, cl), c, 0, onSuccess, onFailure, Connect(0, MQTTVERSION_DEFAULT));
  }

  lemma ReconnectKeepsInv(s: State, c: ClientId)
    requires Inv(s) && c in s.clients
    ensures Inv(Reconnect(s, c))
  {
    hide Inv, AddNew;
    var cl := s.clients[c];
    AddNewKeepsInv(s, c, 0, cl.connect.onSuccess, cl.connect.onFailure, SavedOptions(cl));
  }

  lemma SocketErrorKeepsInv(s: State, c: ClientId)
    requires Inv(s) && c in s.clients
    ensures Inv(SocketError(s, c))
  {
    var cl := s.clients[c];
    if cl.connected {
      DisconnectCallKeepsInv(s, c, true, 0, false);
    } else if cl.connectState != 0 {
      NextOrCloseKeepsInv(s, c);
    } else {
      UpdateKeepsInv(s, c, cl.(connected := false, connectState := 0));
    }
  }

  // ----- restoring: while keys remain the store is ahead of the queue -----

  /** The engine in the middle of Create: client `c` has the requests of `done` in its queue. */
  ghost predicate Restoring(s: State, c: ClientId, done: seq<nat>) {
    && c in s.clients && QueueInv(s) && TokenInv(s)
    && (forall d :: d in s.clients && d != c && s.clients[d].persistent ==>
          Mirrors(s.commands, d, s.clients[d].store, s.clients[d].commandSeqno))
    && s.clients[c].persistent && s.clients[c].responses == [] && SoundStore(s.clients[c].store)
    && Loaded(s.commands, c, s.clients[c].store, done, s.clients[c].commandSeqno)
  }

  ghost predicate Loaded(q: seq<Command>, c: ClientId, store: map<nat, seq<byte>>, done: seq<nat>, seqno: nat) {
    && (forall a :: a in q && a.client == c ==>
          && Persistable(a.details) && Representable(a.details) && a.seqno in done
          && a.seqno in store && store[a.seqno] == Layout(a.token, a.details))
    && (forall k :: k in done ==> k <= seqno && exists a :: a in q && Backs(a, c, k))
    && (forall a, b :: a in q && b in q && Backs(a, c, b.seqno) && Backs(b, c, b.seqno) ==> a == b)
  }

  lemma InsertMembers(q: seq<Command>, k: nat, x: Command)
    requires k <= |q| && DistinctIds(q)
    requires forall a :: a in q ==> a.id != x.id
    ensures var r := q[..k] + [x] + q[k..]; DistinctIds(r) && forall a :: a in r <==> a in q || a == x
  {
    assert q == q[..k] + q[k..];
  }

  /** The command that one turn of the restore loop puts into the queue. */
  function FromStore(s: State, c: ClientId, key: nat): Command
    requires c in s.clients && key in s.clients[c].store && Restore(s.clients[c].store[key]).Parsed?
  {
    var r := Restore(s.clients[c].store[key]);
    Command(s.nextId, c, r.token, 0, false, key, r.details)
  }

  lemma RestoreOneKeeps(s: State, c: ClientId, done: seq<nat>, key: nat)
    requires c in s.clients && Restoring(s, c, done) && key in s.clients[c].store && key !in done
    ensures Restoring(RestoreOne(s, c, key), c, done + [key])
  {
    hide Layout, Representable, Persistable, Restore, RestoreOne, SoundEntry, QueueInv, TokenInv, Mirrors, Loaded;
    var t := RestoreOne(s, c, key);
    RestoredEntry(s, c, done, key);
    var x := FromStore(s, c, key);
    RestoreOneAddsOne(s, c, key);
    OneMoreSound(s, t, x);
    OneMoreKeepsTokens(s, t, x);
    StrangersMirror(s, t, x, c);
    OneMoreLoaded(s.commands, t.commands, x, c, s.clients[c].store, done, s.clients[c].commandSeqno);
  }

  /** What the next entry to be restored is like. */
  lemma RestoredEntry(s: State, c: ClientId, done: seq<nat>, key: nat)
    requires c in s.clients && Restoring(s, c, done) && key in s.clients[c].store && key !in done
    ensures Restore(s.clients[c].store[key]).Parsed?
    ensures
      var x := FromStore(s, c, key);
      && Backs(x, c, key) && Representable(x.details) && (NeedsToken(x.details) ==> x.token != 0)
      && s.clients[c].store[key] == Layout(x.token, x.details)
      && (x.token != 0 ==> TokenFree(s, c, x.token))
  {
    assert SoundEntry(s.clients[c].store[key]);
    hide Layout, Representable, Restore;
    RestoredTokenIsFree(s, c, done, key);
  }

  lemma OneMoreSound(s: State, t: State, x: Command)
    requires QueueInv(s) && DistinctIds(t.commands) && t.nextId == s.nextId + 1 && t.clients.Keys == s.clients.Keys
    requires forall a :: a in t.commands <==> a in s.commands || a == x
    requires x.id == s.nextId && x.client in s.clients && Persistable(x.details) && Representable(x.details)
    requires NeedsToken(x.details) ==> x.token != 0
    ensures QueueInv(t)
  {
    hide Representable, Persistable, DistinctIds;
    assert forall a :: a in s.commands ==> Sound(s, a);
  }

  /** One more command of `c` does not concern the other clients' stores. */
  lemma StrangersMirror(s: State, t: State, x: Command, c: ClientId)
    requires x.client == c && t.clients.Keys == s.clients.Keys
    requires forall a :: a in t.commands <==> a in s.commands || a == x
    requires forall d :: d in s.clients && d != c ==> t.clients[d] == s.clients[d]
    requires forall d :: d in s.clients && d != c && s.clients[d].persistent ==>
               Mirrors(s.commands, d, s.clients[d].store, s.clients[d].commandSeqno)
    ensures forall d :: d in t.clients && d != c && t.clients[d].persistent ==>
              Mirrors(t.commands, d, t.clients[d].store, t.clients[d].commandSeqno)
  {
    hide Mirrors;
    forall d | d in t.clients && d != c && t.clients[d].persistent
      ensures Mirrors(t.commands, d, t.clients[d].store, t.clients[d].commandSeqno)
    {
      MirrorsWithStranger(s.commands, t.commands, x, d, s.clients[d].store, s.clients[d].commandSeqno);
    }
  }

  lemma RestoreOneAddsOne(s: State, c: ClientId, key: nat)
    requires c in s.clients && key in s.clients[c].store && Restore(s.clients[c].store[key]).Parsed?
    requires QueueInv(s)
    ensures
      var t, x := RestoreOne(s, c, key), FromStore(s, c, key);
      && DistinctIds(t.commands) && (forall a :: a in t.commands <==> a in s.commands || a == x)
      && t.nextId == s.nextId + 1
      && t.clients == s.clients[c := s.clients[c].(commandSeqno := Max(s.clients[c].commandSeqno, key))]
  {
    hide Restore, RestorePoint;
    InsertMembers(s.commands, RestorePoint(s.commands), FromStore(s, c, key));
  }

  lemma OneMoreKeepsTokens(s: State, t: State, x: Command)
    requires TokenInv(s) && t.clients.Keys == s.clients.Keys && x.client in s.clients
    requires forall a :: a in t.commands <==> a in s.commands || a == x
    requires forall c :: c in s.clients ==> SameTokens(s.clients[c], t.clients[c])
    requires x.token != 0 ==> TokenFree(s, x.client, x.token)
    ensures TokenInv(t)
  {
  }

  lemma RestoredTokenIsFree(s: State, c: ClientId, done: seq<nat>, key: nat)
    requires Restoring(s, c, done) && key in s.clients[c].store && key !in done
    requires Restore(s.clients[c].store[key]).Parsed?
    ensures forall a :: a in s.commands && a.client == c && a.token != 0 ==> a.token != FromStore(s, c, key).token
  {
    var store := s.clients[c].store;
    forall a | a in s.commands && a.client == c && a.token != 0
      ensures a.token != Restore(store[key]).token
    {
      RestoreUndoesPersist(a.token, a.details, []);
      assert Layout(a.token, a.details) + [] == Layout(a.token, a.details);
      assert Restore(store[a.seqno]).token == a.token;
    }
  }

  lemma OneMoreLoaded(q: seq<Command>, r: seq<Command>, x: Command, c: ClientId, store: map<nat, seq<byte>>,
                      done: seq<nat>, seqno: nat)
    requires Loaded(q, c, store, done, seqno) && x.seqno !in done && Backs(x, c, x.seqno) && Representable(x.details)
    requires x.seqno in store && store[x.seqno] == Layout(x.token, x.details)
    requires forall a :: a in r <==> a in q || a == x
    ensures Loaded(r, c, store, done + [x.seqno], Max(seqno, x.seqno))
  {
    hide Layout, Representable, Persistable;
    forall k | k in done + [x.seqno]
      ensures k <= Max(seqno, x.seqno) && exists a :: a in r && Backs(a, c, k)
    {
      if k in done {
        var a :| a in q && Backs(a, c, k);
        assert a in r;
      } else {
        assert x in r && Backs(x, c, k);
      }
    }
  }

  lemma {:induction false} RestoreKeysKeeps(s: State, c: ClientId, keys: seq<nat>)
    requires c in s.clients && forall k :: k in keys ==> k in s.clients[c].store
    requires Restoring(s, c, []) && forall i, j :: 0 <= i < j < |keys| ==> keys[i] != keys[j]
    ensures Restoring(RestoreKeys(s, c, keys), c, keys)
  {
    hide Restoring, RestoreOne;
    if keys != [] {
      var front, key := keys[..|keys| - 1], keys[|keys| - 1];
      RestoreKeysKeeps(s, c, front);
      RestoreOneKeeps(RestoreKeys(s, c, front), c, front, key);
      assert front + [key] == keys;
    }
  }

  lemma CreateKeepsInv(s: State, c: ClientId, store: map<nat, seq<byte>>, keys: seq<nat>, outbound: seq<int>,
                       buffering: Option<Buffering>)
    requires Inv(s) && c !in s.clients && SoundStore(store) && Enumerates(keys, store)
    ensures Inv(Create(s, c, store, keys, outbound, buffering))
  {
    hide Mirrors, Restoring;
    var s0 := WithClient(s, c, FreshClient(true, store, outbound, buffering));
    StartRestoring(s, c, store, outbound, buffering);
    RestoreKeysKeeps(s0, c, keys);
    RestoredInv(RestoreKeys(s0, c, keys), c, keys);
  }

  lemma StartRestoring(s: State, c: ClientId, store: map<nat, seq<byte>>, outbound: seq<int>,
                       buffering: Option<Buffering>)
    requires Inv(s) && c !in s.clients && SoundStore(store)
    ensures Restoring(WithClient(s, c, FreshClient(true, store, outbound, buffering)), c, [])
  {
    hide Layout, Representable, Persistable, Mirrors, SoundStore;
    assert forall a :: a in s.commands ==> Sound(s, a);
  }

  /** With all keys restored, the store mirrors the queue again. */
  lemma RestoredInv(s: State, c: ClientId, keys: seq<nat>)
    requires Restoring(s, c, keys) && Enumerates(keys, s.clients[c].store)
    ensures Inv(s)
  {
    hide Layout, Representable, Persistable, QueueInv, TokenInv;
    assert Mirrors(s.commands, c, s.clients[c].store, s.clients[c].commandSeqno);
    hide Mirrors;
  }

  lemma CreateVolatileKeepsInv(s: State, c: ClientId, buffering: Option<Buffering>)
    requires Inv(s) && c !in s.clients
    ensures Inv(WithClient(s, c, FreshClient(false, map[], [], buffering)))
  {
    hide Layout, Representable, Persistable, Mirrors;
    var t := WithClient(s, c, FreshClient(false, map[], [], buffering));
    assert forall a :: a in s.commands ==> Sound(s, a);
    assert ResponsesInv(t.clients[c], c);
  }

  // ----- every step, every run -----

  /** Every enabled step keeps the invariants. */
  lemma StepKeepsInv(s: State, step: Step)
    requires Inv(s) && Enabled(s, step)
    ensures Inv(Apply(s, step))
  {
    hide Inv, SoundStore, Enumerates, Representable, Persistable, TakenIds, Diverges, NeedsId, WritePending;
    hide Create, FreshClient, Destroy, ConnectCall, Reconnect, DisconnectCall, Request, Process, WriteComplete;
    hide Ack, Connack;
    hide SocketError, NextOrClose, CheckDisconnect;
    match step {
      case DoCreate(c, store, keys, outbound, buffering) => CreateKeepsInv(s, c, store, keys, outbound, buffering);
      case DoCreateVolatile(c, buffering) => CreateVolatileKeepsInv(s, c, buffering);
      case DoDestroy(c) => DestroyKeepsInv(s, c);
      case DoConnect(c, version, cleanSession, uriCount, onSuccess, onFailure) =>
        ConnectCallKeepsInv(s, c, version, cleanSession, uriCount, onSuccess, onFailure);
      case DoReconnect(c) => ReconnectKeepsInv(s, c);
      case DoDisconnect(c, internal, onSuccess, onFailure) =>
        DisconnectCallKeepsInv(s, c, internal, onSuccess, onFailure);
      case DoRequest(c, d, onSuccess, onFailure) => RequestKeepsInv(s, c, d, onSuccess, onFailure);
      case DoProcess(net) => ProcessKeepsInv(s, net);
      case DoWriteComplete(c) => WriteCompleteKeepsInv(s, c);
      case DoAck(c, id, refused, flowDone) => AckKeepsInv(s, c, id, refused, flowDone);
      case DoConnack(c, accepted) => ConnackKeepsInv(s, c, accepted);
      case DoSocketError(c) => SocketErrorKeepsInv(s, c);
      case DoConnectTimeout(c) => NextOrCloseKeepsInv(s, c);
      case DoDisconnectTimer(c, elapsed) => CheckDisconnectKeepsInv(s, s.clients[c].disconnect.value, elapsed);
    }
  }

  lemma {:induction false} RunKeepsInv(steps: seq<Step>, trace: seq<State>, i: nat)
    requires IsRun(Empty, steps, trace) && i < |trace|
    ensures Inv(trace[i])
  {
    if i > 0 {
      RunKeepsInv(steps, trace, i - 1);
      StepKeepsInv(trace[i - 1], steps[i - 1]);
    }
  }
}
