/** MQTTProtocol_checkPendingWrites (MQTTAsync.c): one pass over the interrupted writes that
    deletes while it iterates, trusting ListUnlink to move the cursor on. */
module PendingWrites {
  import opened LinkedLists

  datatype PendingWrite = PendingWrite(socket: int, publication: nat)

  /** The writes whose sockets are (`wanted`) or are not among `busy`, in order. */
  function Select(ws: seq<PendingWrite>, busy: set<int>, wanted: bool): seq<PendingWrite> {
    if ws == [] then []
    else
      var w := ws[|ws| - 1];
      Select(ws[..|ws| - 1], busy, wanted) + (if (w.socket in busy) == wanted then [w] else [])
  }

  /** The two selections split the list: nothing is lost, nothing is kept twice. */
  lemma {:induction false} SelectSplits(ws: seq<PendingWrite>, busy: set<int>)
    ensures multiset(Select(ws, busy, true)) + multiset(Select(ws, busy, false)) == multiset(ws)
  {
    hide Select, Without;
    if ws == [] {
      SelectNothing(busy);
    } else {
      var k := |ws| - 1;
      SelectSplits(ws[..k], busy);
      SelectStep(ws, busy, k);
      assert ws[..k + 1] == ws == ws[..k] + [ws[k]];
      SplitSnoc(Select(ws[..k], busy, true), Select(ws[..k], busy, false), ws[..k], ws[k]);
      assert Select(ws[..k], busy, false) + [] == Select(ws[..k], busy, false);
    }
  }

  lemma SplitSnoc<T>(a: seq<T>, b: seq<T>, s: seq<T>, x: T)
    requires multiset(a) + multiset(b) == multiset(s)
    ensures multiset(a + [x]) + multiset(b) == multiset(s + [x])
    ensures multiset(a) + multiset(b + [x]) == multiset(s + [x])
  {
    assert multiset(a + [x]) == multiset(a) + multiset{x};
    assert multiset(b + [x]) == multiset(b) + multiset{x};
    assert multiset(s + [x]) == multiset(s) + multiset{x};
  }

  lemma {:induction false} SelectedSockets(ws: seq<PendingWrite>, busy: set<int>, wanted: bool)
    ensures forall w :: w in Select(ws, busy, wanted) <==> w in ws && (w.socket in busy) == wanted
  {
    if ws != [] {
      SelectedSockets(ws[..|ws| - 1], busy, wanted);
      assert ws == ws[..|ws| - 1] + [ws[|ws| - 1]];
    }
  }

  lemma SelectStep(ws: seq<PendingWrite>, busy: set<int>, k: nat)
    requires k < |ws|
    ensures
      var w, kept := ws[k], Select(ws[..k], busy, true);
      && Select(ws[..k + 1], busy, true) == (if w.socket in busy then kept + [w] else kept)
      && Select(ws[..k + 1], busy, false) == Select(ws[..k], busy, false) + (if w.socket in busy then [] else [w])
      && kept + ws[k..] == kept + [w] + ws[k + 1..]
      && Without(kept + ws[k..], |kept|) == kept + ws[k + 1..]
  {
    assert ws[..k + 1][..k] == ws[..k];
    PassAt(Select(ws[..k], busy, true), ws, k);
  }

  /** `busy` are the sockets that still have pending writes; `done` the publications let go of. */
  method CheckPendingWrites(writes: List<PendingWrite>, busy: set<int>) returns (done: seq<PendingWrite>)
    requires writes.Valid()
    modifies writes, writes.Nodes
    ensures writes.Valid()
    ensures writes.Contents == Select(old(writes.Contents), busy, true)
    ensures done == Select(old(writes.Contents), busy, false)
  {
    hide List.Valid, List.Linked, Select, Without;
    done := [];
    ghost var ws, k, kept := writes.Contents, 0, [];
    SelectNothing(busy);
    assert ws[..0] == [] && ws[0..] == ws;
    writes.Position(0);
    if writes.count > 0 {
      var le := writes.first;
      while le != null
        invariant writes.Valid() && k <= |ws|
        invariant forall i {:trigger writes.Nodes[i]} :: 0 <= i < |writes.Nodes| ==>
                    writes.Nodes[i] in old(writes.Nodes)
        invariant kept == Select(ws[..k], busy, true) && done == Select(ws[..k], busy, false)
        invariant writes.Contents == kept + ws[k..]
        invariant le == writes.At(|kept|)
        decreases |ws| - k
      {
        writes.Position(|kept|);
        SelectStep(ws, busy, k);
        if le.content.socket !in busy {
          done := done + [le.content];
          RemoveHere(writes, le, |kept|);
          le := writes.current;
        } else {
          kept := kept + [le.content];
          le := writes.NextElement(le);
        }
        k := k + 1;
      }
      writes.Position(|kept|);
    }
    assert k == |ws| && ws[..k] == ws && ws[k..] == [];
  }

  lemma SelectNothing(busy: set<int>)
    ensures Select([], busy, true) == [] && Select([], busy, false) == []
  {
  }

  /** Points the cursor at `le` and removes its content: the search stops at the cursor, so it is
      this very element that goes, and the cursor ends on its successor. */
  method RemoveHere(writes: List<PendingWrite>, le: ListElement<PendingWrite>, ghost i: nat)
    requires writes.Valid() && i < |writes.Nodes| && le == writes.Nodes[i]
    modifies writes, writes.Nodes
    ensures writes.Valid() && writes.Contents == Without(old(writes.Contents), i)
    ensures writes.current == writes.At(i)
    ensures forall j {:trigger writes.Nodes[j]} :: 0 <= j < |writes.Nodes| ==> writes.Nodes[j] in old(writes.Nodes)
  {
    writes.current, writes.Cursor := le, i;
    var content := le.content;
    var removed := writes.Unlink(w => w == content);
  }
}
