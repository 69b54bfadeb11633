/** The trace buffer (Log.c): a fixed array with two wrapping indices that keeps the most recent
    entries of everything logged. */
module TraceQueue {

  /** The last `n` elements of `s`, all of it when there are fewer. */
  function LastOf<T>(s: seq<T>, n: nat): (r: seq<T>)
    ensures |r| == if |s| <= n then |s| else n
  {
    if |s| <= n then s else s[|s| - n..]
  }

  class Queue<T(0)> {
    const entries: array<T>   // trace_queue, of max_trace_entries elements
    var startIndex: int       // the oldest entry, -1 while there is none
    var nextIndex: int        // where the next one goes

    ghost var Logged: seq<T>  // everything ever logged
    ghost var Lap: nat        // how much of it had been logged when the array was last wrapped

    ghost predicate Valid()
      reads this, entries
    {
      var n := entries.Length;
      && 0 <= nextIndex < n
      && |Logged| == Lap + nextIndex && Lap % n == 0
      && startIndex == (if |Logged| == 0 then -1 else if Lap == 0 then 0 else nextIndex)
      && (Lap != 0 ==> Lap >= n)
      && (forall i :: 0 <= i < nextIndex ==> entries[i] == Logged[Lap + i])
      && (Lap != 0 ==> forall i :: nextIndex <= i < n ==> entries[i] == Logged[Lap - n + i])
    }

    constructor (maxTraceEntries: nat)
      requires maxTraceEntries > 0
      ensures Valid() && Logged == [] && entries.Length == maxTraceEntries && fresh(entries)
    {
      entries := new T[maxTraceEntries];
      startIndex, nextIndex := -1, 0;
      Logged, Lap := [], 0;
    }

    /** Log_pretrace followed by its caller's filling in of the entry: `next_index` is the number of
        calls modulo the size. */
    method Trace(entry: T)
      requires Valid()
      modifies this, entries
      ensures Valid() && Logged == old(Logged) + [entry]
      ensures nextIndex == |Logged| % entries.Length
      ensures Recent() == LastOf(Logged, entries.Length)
    {
      hide LastOf, Queue.Recent;
      var cur := nextIndex;
      if nextIndex == startIndex {  // the buffer is full
        startIndex := startIndex + 1;
        if startIndex == entries.Length {
          startIndex := 0;
        }
      } else if startIndex == -1 {
        startIndex := 0;
      }
      nextIndex := nextIndex + 1;
      if nextIndex == entries.Length {
        nextIndex := 0;
        NextLap(Lap, entries.Length);
        Lap := Lap + entries.Length;
      }
      entries[cur] := entry;
      Logged := Logged + [entry];
      Remainder(Lap, entries.Length, nextIndex);
      RecentAreLast();
    }

    /** Reading from `start_index`, wrapping at the end of the array, up to `next_index`. */
    ghost function Recent(): seq<T>
      requires Valid()
      reads this, entries
    {
      if startIndex == -1 then []
      else if startIndex < nextIndex then entries[startIndex..nextIndex]
      else entries[startIndex..] + entries[..nextIndex]
    }

    /** What is read is exactly the most recent entries, as many as there are or fit, in the order in
        which they were logged. */
    lemma RecentAreLast()
      requires Valid()
      ensures Recent() == LastOf(Logged, entries.Length)
    {
      var n, r, l := entries.Length, Recent(), LastOf(Logged, entries.Length);
      assert |r| == |l|;
      forall i | 0 <= i < |r|
        ensures r[i] == l[i]
      {
        if Lap == 0 {
          assert r[i] == entries[i];
        } else if i < n - nextIndex {
          assert r[i] == entries[nextIndex + i];
        } else {
          assert r[i] == entries[i - (n - nextIndex)];
        }
      }
    }
  }

  lemma NextLap(lap: nat, n: nat)
    requires n > 0 && lap % n == 0
    ensures (lap + n) % n == 0
  {
    SameRemainder(lap + n, n, lap / n + 1, 0);
  }

  lemma Remainder(lap: nat, n: nat, r: nat)
    requires n > 0 && lap % n == 0 && r < n
    ensures (lap + r) % n == r
  {
    SameRemainder(lap + r, n, lap / n, r);
  }

  /** Division with remainder has one answer. */
  lemma SameRemainder(m: int, n: int, q: int, r: int)
    requires 0 <= r < n && m == n * q + r
    ensures m % n == r
  {
    var d := q - m / n;
    assert n * d == n * q - n * (m / n) == m % n - r;
    assert d >= 1 ==> n * d >= n;
    assert d <= -1 ==> n * d <= -n;
  }
}
