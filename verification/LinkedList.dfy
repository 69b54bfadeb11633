/** The doubly linked list with a cached search cursor (LinkedList.c), refined to a
    sequence and a cursor index. */
module LinkedLists {

  // ----- the abstract list: a sequence and a cursor, -1 standing for a NULL cursor -----

  /** The index of the first element that satisfies `p`, or -1. */
  function FirstMatch<T>(s: seq<T>, p: T -> bool): (i: int)
    ensures -1 <= i < |s|
    ensures i >= 0 ==> p(s[i]) && forall j :: 0 <= j < i ==> !p(s[j])
    ensures i < 0 ==> forall x :: x in s ==> !p(x)
  {
    if s == [] then -1
    else if p(s[0]) then 0
    else
      var i := FirstMatch(s[1..], p);
      if i < 0 then -1 else i + 1
  }

  /** What a search designates: the cursor when it matches, otherwise the first match. */
  function Hit<T>(s: seq<T>, cursor: int, p: T -> bool): int
    requires -1 <= cursor < |s|
  {
    if cursor >= 0 && p(s[cursor]) then cursor else FirstMatch(s, p)
  }

  function Without<T>(s: seq<T>, i: nat): seq<T>
    requires i < |s|
  {
    s[..i] + s[i + 1..]
  }

  lemma WithoutHas<T>(s: seq<T>, i: nat, x: T)
    requires i < |s|
    ensures x in Without(s, i) <==> exists j :: 0 <= j < |s| && j != i && s[j] == x
  {
    var w := Without(s, i);
    assert forall k :: 0 <= k < |w| ==> w[k] == s[if k < i then k else k + 1];
    if j :| 0 <= j < |s| && j != i && s[j] == x {
      assert w[if j < i then j else j - 1] == x;
    }
  }

  /** A deleting pass at entry `k`: `kept` of the entries before it are still there. */
  lemma PassAt<T>(kept: seq<T>, s: seq<T>, k: nat)
    requires k < |s|
    ensures kept + s[k..] == kept + [s[k]] + s[k + 1..]
    ensures Without(kept + s[k..], |kept|) == kept + s[k + 1..]
  {
    var r := kept + s[k..];
    assert s[k..] == [s[k]] + s[k + 1..];
    assert r[..|kept|] == kept && r[|kept| + 1..] == s[k + 1..];
  }

  /** Where the cursor points once element `i` is gone: a removed cursor moves to its successor
      (NULL after the last element), any other cursor keeps designating the same element. */
  function CursorWithout(n: nat, cursor: int, i: nat): (c: int)
    requires -1 <= cursor < n && i < n
    ensures -1 <= c < n - 1
  {
    if cursor == i then (if i + 1 < n then i else -1)
    else if cursor > i then cursor - 1
    else cursor
  }

  function Reversed<T>(s: seq<T>): (r: seq<T>)
    ensures |r| == |s|
    ensures forall i :: 0 <= i < |s| ==> r[i] == s[|s| - 1 - i]
  {
    if s == [] then [] else Reversed(s[1..]) + [s[0]]
  }

  ghost predicate Distinct<T>(s: seq<T>) {
    forall i, j :: 0 <= i < j < |s| ==> s[i] != s[j]
  }

  /** A search that only element `k` satisfies designates that element, wherever the cursor is. */
  lemma HitUnique<T>(s: seq<T>, cursor: int, p: T -> bool, k: nat)
    requires -1 <= cursor < |s| && k < |s| && p(s[k])
    requires forall i :: 0 <= i < |s| && i != k ==> !p(s[i])
    ensures Hit(s, cursor, p) == k
  {
    assert s[k] in s;
  }

  /** `s` with `x` put in at index `k`, described element by element. */
  lemma Spliced<T>(s: seq<T>, k: nat, x: T) returns (r: seq<T>)
    requires k <= |s|
    ensures |r| == |s| + 1 && r[k] == x
    ensures forall i {:trigger r[i]} :: 0 <= i < k ==> r[i] == s[i]
    ensures forall i {:trigger r[i]} :: k < i < |r| ==> r[i] == s[i - 1]
    ensures Distinct(s) && x !in s ==> Distinct(r)
  {
    r := s[..k] + [x] + s[k..];
  }

  /** `s` with index `k` taken out, described element by element. */
  lemma Cut<T>(s: seq<T>, k: nat) returns (r: seq<T>)
    requires k < |s|
    ensures |r| == |s| - 1
    ensures forall i {:trigger r[i]} :: 0 <= i < k ==> r[i] == s[i]
    ensures forall i {:trigger r[i]} :: k <= i < |r| ==> r[i] == s[i + 1]
    ensures Distinct(s) ==> Distinct(r)
  {
    r := Without(s, k);
  }

  // ----- the pointer structure -----

  class ListElement<T> {
    var prev: ListElement?<T>
    var next: ListElement?<T>
    var content: T

    constructor (content: T)
      ensures this.content == content && prev == null && next == null
    {
      this.content := content;
      prev, next := null, null;
    }
  }

  class List<T(==)> {
    var first: ListElement?<T>
    var last: ListElement?<T>
    var current: ListElement?<T>
    var count: int

    ghost var Nodes: seq<ListElement<T>>  // the elements, first to last
    ghost var Contents: seq<T>            // their contents
    ghost var Cursor: int                 // the index of `current`, -1 for NULL

    ghost predicate Valid()
      reads this, Nodes
    {
      && Linked()
      && -1 <= Cursor < |Nodes| && current == At(Cursor)
    }

    /** The links agree with `Nodes`; the cursor is not constrained. */
    ghost predicate Linked()
      reads this, Nodes
    {
      && |Nodes| == |Contents| == count
      && Distinct(Nodes)
      && first == At(0) && last == At(|Nodes| - 1)
      && (forall i {:trigger Nodes[i].prev} :: 0 <= i < |Nodes| ==> Nodes[i].prev == At(i - 1))
      && (forall i {:trigger Nodes[i].next} :: 0 <= i < |Nodes| ==> Nodes[i].next == At(i + 1))
      && (forall i {:trigger Nodes[i].content} :: 0 <= i < |Nodes| ==> Nodes[i].content == Contents[i])
    }

    /** The element at index `i`, NULL outside the list. */
    ghost function At(i: int): ListElement?<T>
      reads this
    {
      if 0 <= i < |Nodes| then Nodes[i] else null
    }

    /** The list has gained no element but newly allocated ones. */
    twostate predicate Grown()
      reads this
    {
      forall i {:trigger Nodes[i]} :: 0 <= i < |Nodes| ==> Nodes[i] in old(Nodes) || fresh(Nodes[i])
    }

    /** The facts a traversal at index `i` needs. */
    lemma Position(i: nat)
      requires Valid() && i <= |Contents|
      ensures first == At(0) && |Nodes| == |Contents| == count
      ensures At(i) != null <==> i < |Contents|
      ensures i < |Contents| ==> At(i) in Nodes && At(i).content == Contents[i]
      ensures NextElement(null) == At(0) && PrevElement(null) == At(|Contents| - 1)
      ensures i < |Contents| ==> NextElement(At(i)) == At(i + 1) && PrevElement(At(i)) == At(i - 1)
    {
    }

    constructor ()
      ensures Valid() && Nodes == [] && Contents == [] && Cursor == -1
    {
      first, last, current, count := null, null, null, 0;
      Nodes, Contents, Cursor := [], [], -1;
    }

    method AppendNoMalloc(content: T, newel: ListElement<T>)
      requires Valid() && newel !in Nodes
      modifies this, Nodes, newel
      ensures Valid()
      ensures Nodes == old(Nodes) + [newel] && Contents == old(Contents) + [content]
      ensures Cursor == old(Cursor)
    {
      newel.content := content;
      newel.next := null;
      newel.prev := last;
      if first == null {
        first := newel;
      } else {
        last.next := newel;
      }
      last := newel;
      count := count + 1;
      Nodes := Nodes + [newel];
      Contents := Contents + [content];
    }

    method Append(content: T)
      requires Valid()
      modifies this, Nodes
      ensures Valid()
      ensures Contents == old(Contents) + [content] && Cursor == old(Cursor)
      ensures |Nodes| == |old(Nodes)| + 1 && Nodes[..|old(Nodes)|] == old(Nodes) && fresh(Nodes[|old(Nodes)|])
      ensures Grown()
    {
      var newel := new ListElement(content);
      AppendNoMalloc(content, newel);
    }

    /** Inserts before `index`, which is element `k`; at the end when `index` is NULL. */
    method Insert(content: T, index: ListElement?<T>, ghost k: nat)
      requires Valid() && k <= |Nodes| && index == At(k)
      modifies this, Nodes
      ensures Valid()
      ensures Contents == old(Contents)[..k] + [content] + old(Contents)[k..]
      ensures Cursor == if old(Cursor) >= k then old(Cursor) + 1 else old(Cursor)
      ensures |Nodes| == |old(Nodes)| + 1 && fresh(Nodes[k])
      ensures forall i {:trigger Nodes[i]} :: 0 <= i < k ==> Nodes[i] == old(Nodes)[i]
      ensures forall i {:trigger Nodes[i]} :: k < i < |Nodes| ==> Nodes[i] == old(Nodes)[i - 1]
      ensures Grown()
    {
      var newel := new ListElement(content);
      if index == null {
        AppendNoMalloc(content, newel);
      } else {
        InsertBefore(content, newel, index, k);
      }
    }

    method InsertBefore(content: T, newel: ListElement<T>, index: ListElement<T>, ghost k: nat)
      requires Valid() && k < |Nodes| && index == Nodes[k] && newel !in Nodes
      modifies this, Nodes, newel
      ensures Valid() && |Nodes| == |old(Nodes)| + 1 && Nodes[k] == newel && Contents[k] == content
      ensures forall i {:trigger Nodes[i]} :: 0 <= i < k ==> Nodes[i] == old(Nodes)[i]
      ensures forall i {:trigger Nodes[i]} :: k < i < |Nodes| ==> Nodes[i] == old(Nodes)[i - 1]
      ensures forall i {:trigger Contents[i]} :: 0 <= i < k ==> Contents[i] == old(Contents)[i]
      ensures forall i {:trigger Contents[i]} :: k < i < |Nodes| ==> Contents[i] == old(Contents)[i - 1]
      ensures Cursor == if old(Cursor) >= k then old(Cursor) + 1 else old(Cursor)
    {
      newel.content := content;
      LinkBefore(newel, index, k);
      count := count + 1;
      ghost var contents := Spliced(Contents, k, content);
      Contents := contents;
      Cursor := if Cursor >= k then Cursor + 1 else Cursor;
    }

    /** The pointer part of an insertion. */
    method LinkBefore(newel: ListElement<T>, index: ListElement<T>, ghost k: nat)
      requires Linked() && k < |Nodes| && index == Nodes[k] && newel !in Nodes
      modifies this`first, this`Nodes, Nodes, newel
      ensures Distinct(Nodes) && |Nodes| == |old(Nodes)| + 1 && Nodes[k] == newel
      ensures forall i {:trigger Nodes[i]} :: 0 <= i < k ==> Nodes[i] == old(Nodes)[i]
      ensures forall i {:trigger Nodes[i]} :: k < i < |Nodes| ==> Nodes[i] == old(Nodes)[i - 1]
      ensures first == Nodes[0]
      ensures forall i {:trigger Nodes[i].prev} :: 0 <= i < |Nodes| ==> Nodes[i].prev == At(i - 1)
      ensures forall i {:trigger Nodes[i].next} :: 0 <= i < |Nodes| ==> Nodes[i].next == At(i + 1)
      ensures forall x: ListElement<T> {:trigger x.content} :: x in Nodes ==> x.content == old(x.content)
    {
      newel.next := index;
      newel.prev := index.prev;
      index.prev := newel;
      if newel.prev != null {
        newel.prev.next := newel;
      } else {
        first := newel;
      }
      ghost var nodes := Spliced(Nodes, k, newel);
      Nodes := nodes;
    }

    /** Forward iteration: from NULL to the first element, from an element to its successor. */
    function NextElement(pos: ListElement?<T>): (r: ListElement?<T>)
      requires Valid() && (pos == null || pos in Nodes)
      reads this, Nodes
      ensures r == null || r in Nodes
    {
      if pos == null then first else pos.next
    }

    /** Backward iteration: from NULL to the last element, from an element to its predecessor. */
    function PrevElement(pos: ListElement?<T>): (r: ListElement?<T>)
      requires Valid() && (pos == null || pos in Nodes)
      reads this, Nodes
      ensures r == null || r in Nodes
    {
      if pos == null then last else pos.prev
    }

    method FindItem(matches: T -> bool) returns (rc: ListElement?<T>)
      requires Valid()
      modifies this`current, this`Cursor
      ensures Valid() && Nodes == old(Nodes) && Contents == old(Contents)
      ensures rc == At(Hit(Contents, old(Cursor), matches))
      ensures Cursor == if rc == null then old(Cursor) else Hit(Contents, old(Cursor), matches)
      ensures if old(Cursor) >= 0 && matches(Contents[old(Cursor)]) then rc == At(old(Cursor)) && Cursor == old(Cursor)
              else if forall x :: x in Contents ==> !matches(x) then rc == null && Cursor == old(Cursor)
              else 0 <= Cursor && matches(Contents[Cursor]) && rc == At(Cursor)
                   && forall j :: 0 <= j < Cursor ==> !matches(Contents[j])
    {
      if current != null && matches(current.content) {
        rc := current;
      } else {
        ghost var i;
        rc, i := Search(matches);
        if rc != null {
          current, Cursor := rc, i;
        }
      }
    }

    /** The loop of FindItem. */
    method Search(matches: T -> bool) returns (rc: ListElement?<T>, ghost i: int)
      requires Valid()
      ensures rc == At(FirstMatch(Contents, matches)) && i == FirstMatch(Contents, matches)
    {
      hide List.Valid, List.Linked;
      i := 0;
      Position(0);
      var cur := NextElement(null);
      while cur != null
        invariant 0 <= i <= |Contents| && cur == At(i)
        invariant forall j :: 0 <= j < i ==> !matches(Contents[j])
        decreases |Contents| - i
      {
        Position(i);
        if matches(cur.content) {
          return cur, i;
        }
        cur := NextElement(cur);
        i := i + 1;
      }
      Position(i);
      assert forall x :: x in Contents ==> !matches(x);
      return null, -1;
    }

    /** Removes one matching element: the cursor if it matches, else the first match. */
    method Unlink(matches: T -> bool) returns (removed: bool)
      requires Valid()
      modifies this, Nodes
      ensures Valid()
      ensures removed == (Hit(old(Contents), old(Cursor), matches) >= 0)
      ensures Grown()
      ensures !removed ==> Nodes == old(Nodes) && Contents == old(Contents) && Cursor == old(Cursor)
      ensures removed ==>
                var i := Hit(old(Contents), old(Cursor), matches);
                && Contents == Without(old(Contents), i)
                && Nodes == Without(old(Nodes), i)
                && Cursor == CursorWithout(|old(Nodes)|, old(Cursor), i)
                && current == if old(current) == old(Nodes)[i] then old(At(i + 1)) else old(current)
    {
      var saved := current;
      ghost var savedCursor, i := Cursor, Hit(Contents, Cursor, matches);
      var found := FindItem(matches);
      if found == null {
        return false;
      }
      RemoveCurrent(saved, i, savedCursor);
      removed := true;
    }

    /** The second half of Unlink: the search has put `current` on the victim, element `i`;
        `saved` is the cursor from before the search. */
    method RemoveCurrent(saved: ListElement?<T>, ghost i: nat, ghost savedCursor: int)
      requires Linked() && i < |Nodes| && current == Nodes[i]
      requires -1 <= savedCursor < |Nodes| && saved == At(savedCursor)
      modifies this, Nodes
      ensures Valid()
      ensures Nodes == Without(old(Nodes), i) && Contents == Without(old(Contents), i)
      ensures Cursor == CursorWithout(|old(Nodes)|, savedCursor, i)
      ensures current == if saved == old(Nodes)[i] then old(At(i + 1)) else saved
    {
      var victim := current;
      var next := victim.next;
      Excise(victim, i);
      current := if saved == victim then next else saved;
      Cursor := CursorWithout(|Nodes| + 1, savedCursor, i);
    }

    /** Takes element `i` out of the chain; the cursor is the caller's business. */
    method Excise(victim: ListElement<T>, ghost i: nat)
      requires Linked() && i < |Nodes| && victim == Nodes[i]
      modifies this`first, this`last, this`count, this`Nodes, this`Contents, Nodes
      ensures Linked()
      ensures Nodes == Without(old(Nodes), i) && Contents == Without(old(Contents), i)
    {
      Bypass(victim, i);
      count := count - 1;
      ghost var contents := Cut(Contents, i);
      Contents := contents;
    }

    /** The pointer part of taking an element out. */
    method Bypass(victim: ListElement<T>, ghost i: nat)
      requires Linked() && i < |Nodes| && victim == Nodes[i]
      modifies this`first, this`last, this`Nodes, Nodes
      ensures Nodes == Without(old(Nodes), i)
      ensures forall j {:trigger Nodes[j]} :: 0 <= j < i ==> Nodes[j] == old(Nodes)[j]
      ensures forall j {:trigger Nodes[j]} :: i <= j < |Nodes| ==> Nodes[j] == old(Nodes)[j + 1]
      ensures Distinct(Nodes) && first == At(0) && last == At(|Nodes| - 1)
      ensures forall j {:trigger Nodes[j].prev} :: 0 <= j < |Nodes| ==> Nodes[j].prev == At(j - 1)
      ensures forall j {:trigger Nodes[j].next} :: 0 <= j < |Nodes| ==> Nodes[j].next == At(j + 1)
      ensures forall x: ListElement<T> {:trigger x.content} :: x in Nodes ==> x.content == old(x.content)
    {
      if victim.prev == null {
        first := victim.next;
      } else {
        victim.prev.next := victim.next;
      }
      if victim.next == null {
        last := victim.prev;
      } else {
        victim.next.prev := victim.prev;
      }
      ghost var nodes := Cut(Nodes, i);
      Nodes := nodes;
    }

    method DetachHead() returns (content: seq<T>)
      requires Valid()
      modifies this, Nodes
      ensures Valid()
      ensures content == old(Contents)[..if |old(Contents)| > 0 then 1 else 0]
      ensures Contents == old(Contents)[|content|..] && Nodes == old(Nodes)[|content|..]
      ensures content != [] ==> Cursor == CursorWithout(|old(Nodes)|, old(Cursor), 0)
    {
      content := [];
      if count > 0 {
        var first0 := first;
        if current == first0 {
          current := first0.next;
        }
        content := [first0.content];
        DropFirst();
        Cursor := CursorWithout(|Nodes| + 1, Cursor, 0);
      }
    }

    /** DetachHead but for the cursor. */
    method DropFirst()
      requires Linked() && count > 0
      modifies this`first, this`last, this`count, this`Nodes, this`Contents, Nodes
      ensures Linked() && Nodes == old(Nodes)[1..] && Contents == old(Contents)[1..]
    {
      if last == first {
        last := null;
      }
      first := first.next;
      if first != null {
        first.prev := null;
      }
      count := count - 1;
      Nodes, Contents := Nodes[1..], Contents[1..];
    }

    /** Removes the last element; a cursor on it moves back to its predecessor. */
    method PopTail() returns (content: seq<T>)
      requires Valid()
      modifies this, Nodes
      ensures Valid()
      ensures |Contents| == if |old(Contents)| > 0 then |old(Contents)| - 1 else 0
      ensures Contents == old(Contents)[..|Contents|] && content == old(Contents)[|Contents|..]
      ensures Cursor == if old(Cursor) == |Contents| then |Contents| - 1 else old(Cursor)
    {
      content := [];
      if count > 0 {
        var last0 := last;
        ghost var n := |Nodes| - 1;
        assert last0 == Nodes[n];
        if current == last0 {
          current := last0.prev;
        }
        content := [last0.content];
        DropLast();
        Cursor := if Cursor == n then n - 1 else Cursor;
      }
    }

    /** PopTail but for the cursor. */
    method DropLast()
      requires Linked() && count > 0
      modifies this`first, this`last, this`count, this`Nodes, this`Contents, Nodes
      ensures Linked()
      ensures Nodes == old(Nodes)[..|old(Nodes)| - 1] && Contents == old(Contents)[..|old(Contents)| - 1]
    {
      assert last == Nodes[|Nodes| - 1];
      if first == last {
        first := null;
      }
      last := last.prev;
      if last != null {
        last.next := null;
      }
      count := count - 1;
      Nodes, Contents := Nodes[..|Nodes| - 1], Contents[..|Contents| - 1];
    }

    method Empty()
      requires Valid()
      modifies this
      ensures Valid() && Contents == [] && Nodes == [] && Cursor == -1
    {
      ghost var k := 0;
      while first != null
        invariant 0 <= k <= |old(Nodes)| && Nodes == old(Nodes)
        invariant first == At(k)
        decreases |old(Nodes)| - k
      {
        first := first.next;
        k := k + 1;
      }
      count := 0;
      current, first, last := null, null, null;
      Nodes, Contents, Cursor := [], [], -1;
    }

    /** Reading the list by forward iteration until NULL gives its contents, and by backward
        iteration the contents reversed. */
    method Traverse() returns (forward: seq<T>, backward: seq<T>)
      requires Valid()
      ensures forward == Contents && backward == Reversed(Contents)
    {
      forward := ReadForward();
      backward := ReadBackward();
    }

    method ReadForward() returns (read: seq<T>)
      requires Valid()
      ensures read == Contents
    {
      hide List.Valid, List.Linked;
      read := [];
      Position(0);
      var pos := NextElement(null);
      ghost var i := 0;
      while pos != null
        invariant 0 <= i <= |Contents| && pos == At(i) && read == Contents[..i]
        decreases |Contents| - i
      {
        Position(i);
        read := read + [pos.content];
        pos := NextElement(pos);
        i := i + 1;
      }
      Position(i);
    }

    method ReadBackward() returns (read: seq<T>)
      requires Valid()
      ensures read == Reversed(Contents)
    {
      hide List.Valid, List.Linked, Reversed;
      read := [];
      Position(0);
      var pos := PrevElement(null);
      ghost var i := |Contents| - 1;
      while pos != null
        invariant -1 <= i < |Contents| && pos == At(i) && |read| == |Contents| - 1 - i
        invariant forall j :: 0 <= j < |read| ==> read[j] == Contents[|Contents| - 1 - j]
        decreases i
      {
        Position(i);
        read := read + [pos.content];
        pos := PrevElement(pos);
        i := i - 1;
      }
      Position(if i >= 0 then i else 0);
    }
  }
}
