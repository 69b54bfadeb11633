/** Bytes, C strings and C ints. */
module Bytes {

  type byte = x: int | 0 <= x < 0x100
  type int32 = x: int | -0x8000_0000 <= x < 0x8000_0000

  /** The characters of a C string, without the terminating NUL. */
  type CString = seq<byte>

  predicate NulFree(s: CString) {
    s == [] || (s[0] != 0 && NulFree(s[1..]))
  }

  datatype Option<+T> = None | Some(value: T)

  /** `x` stands in `b` at position `p`. */
  predicate Has(b: seq<byte>, p: nat, x: seq<byte>) {
    p + |x| <= |b| && forall i {:trigger x[i]} :: 0 <= i < |x| ==> b[p + i] == x[i]
  }

  lemma HasSplit(b: seq<byte>, p: nat, x: seq<byte>, y: seq<byte>)
    requires Has(b, p, x + y)
    ensures Has(b, p, x) && Has(b, p + |x|, y)
  {
    assert forall i {:trigger x[i]} :: 0 <= i < |x| ==> (x + y)[i] == x[i];
    assert forall i {:trigger y[i]} :: 0 <= i < |y| ==> (x + y)[|x| + i] == y[i];
  }

  /** The buffers of a gathering write, one after the other. */
  function Concat(bufs: seq<seq<byte>>): seq<byte> {
    if bufs == [] then [] else Concat(bufs[..|bufs| - 1]) + bufs[|bufs| - 1]
  }

  lemma ConcatSnoc(bufs: seq<seq<byte>>, b: seq<byte>)
    ensures Concat(bufs + [b]) == Concat(bufs) + b
  {
    assert (bufs + [b])[..|bufs|] == bufs;
  }

  lemma Concat3(a: seq<byte>, b: seq<byte>, c: seq<byte>)
    ensures Concat([a, b, c]) == a + b + c
  {
    assert [a, b, c] == [] + [a] + [b] + [c];
    ConcatSnoc([], a);
    ConcatSnoc([a], b);
    ConcatSnoc([a, b], c);
  }
}
