/** Queued commands and their persistent form: MQTTAsync_persistCommand and
    MQTTAsync_restoreCommand (MQTTAsync.c). */
module CommandCodec {

  import opened Bytes

  datatype Subscription = Subscription(topic: CString, qos: int32)

  /** The type-dependent part of a command. */
  datatype Details =
    | Connect(currentURI: nat, version: int)
    | Disconnect(internal: bool)
    | Subscribe(subs: seq<Subscription>)
    | Unsubscribe(topics: seq<CString>)
    | Publish(destination: CString, payload: seq<byte>, qos: int32, retained: int32)

  const PUBLISH: int32 := 3
  const SUBSCRIBE: int32 := 8
  const UNSUBSCRIBE: int32 := 10

  /** The kinds of command that are kept in the persistent store. */
  predicate Persistable(d: Details) {
    d.Subscribe? || d.Unsubscribe? || d.Publish?
  }

  /** What the C representation makes sure of: strings end at their first NUL, counts and
      lengths are C ints. */
  predicate Representable(d: Details) {
    match d
    case Subscribe(subs) => |subs| < 0x8000_0000 && forall x :: x in subs ==> NulFree(x.topic)
    case Unsubscribe(topics) => |topics| < 0x8000_0000 && forall t :: t in topics ==> NulFree(t)
    case Publish(destination, payload, _, _) => |payload| < 0x8000_0000 && NulFree(destination)
    case _ => true
  }

  // ----- the persistent form -----

  function LittleEndian(u: nat, width: nat): (b: seq<byte>)
    ensures |b| == width
  {
    if width == 0 then [] else [u % 0x100] + LittleEndian(u / 0x100, width - 1)
  }

  /** The memory image of a C int: `sizeof(int)` is 4, two's complement, low byte first. */
  function IntBytes(n: int32): (b: seq<byte>)
    ensures |b| == 4
  {
    LittleEndian(if n < 0 then n + 0x1_0000_0000 else n, 4)
  }

  function TopicsLayout(topics: seq<CString>): seq<byte> {
    if topics == [] then [] else topics[0] + [0] + TopicsLayout(topics[1..])
  }

  function SubsLayout(subs: seq<Subscription>): seq<byte> {
    if subs == [] then [] else subs[0].topic + [0] + IntBytes(subs[0].qos) + SubsLayout(subs[1..])
  }

  function Layout(token: int32, d: Details): seq<byte>
    requires Persistable(d) && Representable(d)
  {
    match d
    case Subscribe(subs) =>
      IntBytes(SUBSCRIBE) + IntBytes(token) + IntBytes(|subs|) + SubsLayout(subs)
    case Unsubscribe(topics) =>
      IntBytes(UNSUBSCRIBE) + IntBytes(token) + IntBytes(|topics|) + TopicsLayout(topics)
    case Publish(destination, payload, qos, retained) =>
      IntBytes(PUBLISH) + IntBytes(token) + destination + [0]
      + IntBytes(|payload|) + payload + IntBytes(qos) + IntBytes(retained)
  }

  lemma {:induction false} TopicsSnoc(topics: seq<CString>, t: CString)
    ensures TopicsLayout(topics + [t]) == TopicsLayout(topics) + (t + [0])
  {
    if topics == [] {
      assert TopicsLayout([t][1..]) == [];
      assert [t][1..] == [];
    } else {
      TopicsSnoc(topics[1..], t);
      assert (topics + [t])[1..] == topics[1..] + [t];
    }
  }

  lemma {:induction false} SubsSnoc(subs: seq<Subscription>, x: Subscription)
    ensures SubsLayout(subs + [x]) == SubsLayout(subs) + (x.topic + [0] + IntBytes(x.qos))
  {
    if subs == [] {
      assert SubsLayout([x][1..]) == [];
      assert [x][1..] == [];
    } else {
      SubsSnoc(subs[1..], x);
      assert (subs + [x])[1..] == subs[1..] + [x];
    }
  }

  /** The list of buffers handed to the store; the store keeps their concatenation.  `nbufs` is
      the number the code has allocated for. */
  method PersistCommand(token: int32, d: Details) returns (bufs: seq<seq<byte>>, nbufs: nat)
    requires Representable(d)
    ensures |bufs| == nbufs
    ensures nbufs > 0 <==> Persistable(d)
    ensures Persistable(d) ==> Concat(bufs) == Layout(token, d)
  {
    match d {
      case Subscribe(subs) =>
        nbufs := 3 + |subs| * 2;
        Concat3(IntBytes(SUBSCRIBE), IntBytes(token), IntBytes(|subs|));
        bufs := AppendSubs([IntBytes(SUBSCRIBE), IntBytes(token), IntBytes(|subs|)], subs);
      case Unsubscribe(topics) =>
        nbufs := 3 + |topics|;
        Concat3(IntBytes(UNSUBSCRIBE), IntBytes(token), IntBytes(|topics|));
        bufs := AppendTopics([IntBytes(UNSUBSCRIBE), IntBytes(token), IntBytes(|topics|)], topics);
      case Publish(destination, payload, qos, retained) =>
        nbufs := 7;
        bufs := [IntBytes(PUBLISH), IntBytes(token), destination + [0], IntBytes(|payload|), payload,
                 IntBytes(qos), IntBytes(retained)];
        Concat7(IntBytes(PUBLISH), IntBytes(token), destination + [0], IntBytes(|payload|), payload,
                IntBytes(qos), IntBytes(retained));
        assert IntBytes(PUBLISH) + IntBytes(token) + (destination + [0])
            == IntBytes(PUBLISH) + IntBytes(token) + destination + [0];
      case _ =>
        bufs, nbufs := [], 0;
    }
  }

  method AppendSubs(head: seq<seq<byte>>, subs: seq<Subscription>) returns (bufs: seq<seq<byte>>)
    ensures |bufs| == |head| + |subs| * 2
    ensures Concat(bufs) == Concat(head) + SubsLayout(subs)
  {
    bufs := head;
    for i := 0 to |subs|
      invariant |bufs| == |head| + i * 2
      invariant Concat(bufs) == Concat(head) + SubsLayout(subs[..i])
    {
      var topic, qos := subs[i].topic + [0], IntBytes(subs[i].qos);
      ConcatSnoc(bufs, topic);
      ConcatSnoc(bufs + [topic], qos);
      SubsSnoc(subs[..i], subs[i]);
      assert subs[..i + 1] == subs[..i] + [subs[i]];
      bufs := bufs + [topic] + [qos];
    }
    assert subs[..|subs|] == subs;
  }

  method AppendTopics(head: seq<seq<byte>>, topics: seq<CString>) returns (bufs: seq<seq<byte>>)
    ensures |bufs| == |head| + |topics|
    ensures Concat(bufs) == Concat(head) + TopicsLayout(topics)
  {
    bufs := head;
    for i := 0 to |topics|
      invariant |bufs| == |head| + i
      invariant Concat(bufs) == Concat(head) + TopicsLayout(topics[..i])
    {
      ConcatSnoc(bufs, topics[i] + [0]);
      TopicsSnoc(topics[..i], topics[i]);
      assert topics[..i + 1] == topics[..i] + [topics[i]];
      bufs := bufs + [topics[i] + [0]];
    }
    assert topics[..|topics|] == topics;
  }

  lemma Concat7(a: seq<byte>, b: seq<byte>, c: seq<byte>, d: seq<byte>, e: seq<byte>, f: seq<byte>, g: seq<byte>)
    ensures Concat([a, b, c, d, e, f, g]) == a + b + c + d + e + f + g
  {
    assert [a, b, c, d, e, f, g] == [a, b, c] + [d] + [e] + [f] + [g];
    Concat3(a, b, c);
    ConcatSnoc([a, b, c], d);
    ConcatSnoc([a, b, c] + [d], e);
    ConcatSnoc([a, b, c] + [d] + [e], f);
    ConcatSnoc([a, b, c] + [d] + [e] + [f], g);
  }

  // ----- reading it back -----

  /** What restoreCommand makes of a buffer: a command and the number of bytes consumed.
      `Overrun` stands for the runs in which the C code would read beyond the buffer's end, about
      which the language promises nothing. */
  datatype Restored =
    | Parsed(token: int32, details: Details, consumed: nat)
    | UnknownType
    | Overrun

  function IntAt(b: seq<byte>, p: nat): int32
    requires p + 4 <= |b|
  {
    var u: int := b[p] as int + 0x100 * b[p + 1] as int + 0x1_0000 * b[p + 2] as int + 0x100_0000 * b[p + 3] as int;
    if u < 0x8000_0000 then u else u - 0x1_0000_0000
  }

  /** strlen from position `p`; it runs into the end of the buffer when there is no NUL. */
  function StrLen(b: seq<byte>, p: nat): (n: nat)
    requires p <= |b|
    ensures p + n <= |b|
    decreases |b| - p
  {
    if p == |b| || b[p] == 0 then 0 else 1 + StrLen(b, p + 1)
  }

  function ReadTopics(b: seq<byte>, p: nat, n: nat, acc: seq<CString>): Option<(seq<CString>, nat)>
    requires p <= |b|
    decreases n
  {
    if n == 0 then Some((acc, p))
    else
      var k := StrLen(b, p);
      if p + k == |b| then None else ReadTopics(b, p + k + 1, n - 1, acc + [b[p..p + k]])
  }

  function ReadSubs(b: seq<byte>, p: nat, n: nat, acc: seq<Subscription>): Option<(seq<Subscription>, nat)>
    requires p <= |b|
    decreases n
  {
    if n == 0 then Some((acc, p))
    else
      var k := StrLen(b, p);
      if p + k + 5 > |b| then None
      else ReadSubs(b, p + k + 5, n - 1, acc + [Subscription(b[p..p + k], IntAt(b, p + k + 1))])
  }

  function ReadPublish(token: int32, b: seq<byte>, p: nat): Restored
    requires p <= |b|
  {
    var k := StrLen(b, p);
    if p + k + 5 > |b| then Overrun
    else
      var len, p1 := IntAt(b, p + k + 1), p + k + 5;
      if len < 0 || p1 + len + 8 > |b| then Overrun
      else
        Parsed(token, Publish(b[p..p + k], b[p1..p1 + len], IntAt(b, p1 + len), IntAt(b, p1 + len + 4)), p1 + len + 8)
  }

  function Restore(b: seq<byte>): Restored {
    if |b| < 8 then Overrun
    else
      var ptype, token := IntAt(b, 0), IntAt(b, 4);
      if ptype == PUBLISH then ReadPublish(token, b, 8)
      else if ptype != SUBSCRIBE && ptype != UNSUBSCRIBE then UnknownType
      else if |b| < 12 then Overrun
      else
        var n: nat := if IntAt(b, 8) > 0 then IntAt(b, 8) else 0;
        if ptype == SUBSCRIBE then
          var r := ReadSubs(b, 12, n, []);
          if r.None? then Overrun else Parsed(token, Subscribe(r.value.0), r.value.1)
        else
          var r := ReadTopics(b, 12, n, []);
          if r.None? then Overrun else Parsed(token, Unsubscribe(r.value.0), r.value.1)
  }

  lemma IntAtHas(b: seq<byte>, p: nat, n: int32)
    requires Has(b, p, IntBytes(n))
    ensures IntAt(b, p) == n
  {
    var u := if n < 0 then n + 0x1_0000_0000 else n;
    var u1, u2, u3 := u / 0x100, u / 0x100 / 0x100, u / 0x100 / 0x100 / 0x100;
    var b1, b2, b3 := LittleEndian(u1, 3), LittleEndian(u2, 2), LittleEndian(u3, 1);
    assert IntBytes(n) == [u % 0x100] + b1 && b1 == [u1 % 0x100] + b2 && b2 == [u2 % 0x100] + b3;
    assert b3 == [u3 % 0x100] + LittleEndian(u3 / 0x100, 0);
    assert u3 < 0x100;
    var m := IntBytes(n);
    assert b[p] == m[0] && b[p + 1] == m[1] && b[p + 2] == m[2] && b[p + 3] == m[3];
  }

  lemma {:induction false} StrLenHas(b: seq<byte>, p: nat, s: CString)
    requires NulFree(s) && Has(b, p, s + [0])
    ensures StrLen(b, p) == |s| && b[p..p + |s|] == s
    decreases |s|
  {
    HasSplit(b, p, s, [0]);
    assert b[p + |s|] == [0][0];
    if s != [] {
      assert s + [0] == [s[0]] + (s[1..] + [0]);
      HasSplit(b, p, [s[0]], s[1..] + [0]);
      StrLenHas(b, p + 1, s[1..]);
    }
  }

  lemma {:induction false} TopicsRoundTrip(b: seq<byte>, p: nat, topics: seq<CString>, acc: seq<CString>)
    requires forall t :: t in topics ==> NulFree(t)
    requires Has(b, p, TopicsLayout(topics))
    ensures ReadTopics(b, p, |topics|, acc) == Some((acc + topics, p + |TopicsLayout(topics)|))
    decreases |topics|
  {
    if topics == [] {
      assert acc + topics == acc;
    } else {
      var t := topics[0];
      HasSplit(b, p, t + [0], TopicsLayout(topics[1..]));
      StrLenHas(b, p, t);
      TopicsRoundTrip(b, p + |t| + 1, topics[1..], acc + [t]);
      assert acc + [t] + topics[1..] == acc + topics;
    }
  }

  lemma {:induction false} SubsRoundTrip(b: seq<byte>, p: nat, subs: seq<Subscription>, acc: seq<Subscription>)
    requires forall x :: x in subs ==> NulFree(x.topic)
    requires Has(b, p, SubsLayout(subs))
    ensures ReadSubs(b, p, |subs|, acc) == Some((acc + subs, p + |SubsLayout(subs)|))
    decreases |subs|
  {
    hide IntBytes, IntAt, StrLen, NulFree;
    if subs == [] {
      assert acc + subs == acc;
    } else {
      var x := subs[0];
      HasSplit(b, p, x.topic + [0] + IntBytes(x.qos), SubsLayout(subs[1..]));
      HasSplit(b, p, x.topic + [0], IntBytes(x.qos));
      StrLenHas(b, p, x.topic);
      IntAtHas(b, p + |x.topic| + 1, x.qos);
      SubsRoundTrip(b, p + |x.topic| + 5, subs[1..], acc + [x]);
      assert acc + [x] + subs[1..] == acc + subs;
    }
  }

  /** Everything persistCommand writes is read back by restoreCommand, to the last byte. */
  lemma RestoreUndoesPersist(token: int32, d: Details, tail: seq<byte>)
    requires Persistable(d) && Representable(d)
    ensures Restore(Layout(token, d) + tail) == Parsed(token, d, |Layout(token, d)|)
  {
    var b := Layout(token, d) + tail;
    assert Has(b, 0, Layout(token, d));
    match d {
      case Subscribe(subs) => SubscribeRoundTrip(b, token, subs);
      case Unsubscribe(topics) => UnsubscribeRoundTrip(b, token, topics);
      case Publish(_, _, _, _) => PublishRoundTrip(b, token, d);
    }
  }

  lemma SubscribeRoundTrip(b: seq<byte>, token: int32, subs: seq<Subscription>)
    requires Representable(Subscribe(subs)) && Has(b, 0, Layout(token, Subscribe(subs)))
    ensures Restore(b) == Parsed(token, Subscribe(subs), |Layout(token, Subscribe(subs))|)
  {
    HeaderHas(b, SUBSCRIBE, token, |subs|, SubsLayout(subs));
    SubsRoundTrip(b, 12, subs, []);
    assert [] + subs == subs;
  }

  lemma UnsubscribeRoundTrip(b: seq<byte>, token: int32, topics: seq<CString>)
    requires Representable(Unsubscribe(topics)) && Has(b, 0, Layout(token, Unsubscribe(topics)))
    ensures Restore(b) == Parsed(token, Unsubscribe(topics), |Layout(token, Unsubscribe(topics))|)
  {
    HeaderHas(b, UNSUBSCRIBE, token, |topics|, TopicsLayout(topics));
    TopicsRoundTrip(b, 12, topics, []);
    assert [] + topics == topics;
  }

  lemma HeaderHas(b: seq<byte>, ptype: int32, token: int32, count: int32, items: seq<byte>)
    requires Has(b, 0, IntBytes(ptype) + IntBytes(token) + IntBytes(count) + items)
    ensures Has(b, 12, items) && IntAt(b, 0) == ptype && IntAt(b, 4) == token && IntAt(b, 8) == count
  {
    HasSplit(b, 0, IntBytes(ptype) + IntBytes(token) + IntBytes(count), items);
    HasSplit(b, 0, IntBytes(ptype) + IntBytes(token), IntBytes(count));
    HasSplit(b, 0, IntBytes(ptype), IntBytes(token));
    IntAtHas(b, 0, ptype);
    IntAtHas(b, 4, token);
    IntAtHas(b, 8, count);
  }

  lemma PublishRoundTrip(b: seq<byte>, token: int32, d: Details)
    requires d.Publish? && Representable(d) && Has(b, 0, Layout(token, d))
    ensures Restore(b) == Parsed(token, d, |Layout(token, d)|)
  {
    hide IntBytes, IntAt, StrLen, NulFree;
    var tb, kb, nb := IntBytes(PUBLISH), IntBytes(token), IntBytes(|d.payload|);
    var qb, rb := IntBytes(d.qos), IntBytes(d.retained);
    var s := d.destination + [0];
    var p := 8 + |s| + 4;
    assert tb + kb + d.destination + [0] == tb + kb + s;
    HasSplit(b, 0, tb + kb + s + nb + d.payload + qb, rb);
    HasSplit(b, 0, tb + kb + s + nb + d.payload, qb);
    HasSplit(b, 0, tb + kb + s + nb, d.payload);
    HasSplit(b, 0, tb + kb + s, nb);
    HasSplit(b, 0, tb + kb, s);
    HasSplit(b, 0, tb, kb);
    IntAtHas(b, 0, PUBLISH);
    IntAtHas(b, 4, token);
    StrLenHas(b, 8, d.destination);
    IntAtHas(b, p - 4, |d.payload|);
    IntAtHas(b, p + |d.payload|, d.qos);
    IntAtHas(b, p + |d.payload| + 4, d.retained);
    assert b[p..p + |d.payload|] == d.payload;
  }

  /** Two commands with the same persistent form are the same command, and no form is a proper
      prefix of another. */
  lemma LayoutPrefixFree(t1: int32, d1: Details, t2: int32, d2: Details)
    requires Persistable(d1) && Representable(d1) && Persistable(d2) && Representable(d2)
    requires Layout(t1, d1) <= Layout(t2, d2)
    ensures t1 == t2 && d1 == d2
  {
    hide Layout, Restore, Representable, Persistable;
    var l1, l2 := Layout(t1, d1), Layout(t2, d2);
    var tail := l2[|l1|..];
    assert l1 + tail == l2 && l2 + [] == l2;
    RestoreUndoesPersist(t1, d1, tail);
    RestoreUndoesPersist(t2, d2, []);
  }

  /** restoreCommand: walks a pointer over the buffer. */
  method RestoreCommand(buffer: seq<byte>) returns (r: Restored)
    ensures r == Restore(buffer)
  {
    if |buffer| < 8 {
      return Overrun;
    }
    var ptype, token := IntAt(buffer, 0), IntAt(buffer, 4);
    if ptype == PUBLISH {
      r := ScanPublish(token, buffer, 8);
      return;
    } else if ptype != SUBSCRIBE && ptype != UNSUBSCRIBE {
      return UnknownType;
    } else if |buffer| < 12 {
      return Overrun;
    }
    if ptype == SUBSCRIBE {
      var subs := ScanSubs(buffer, 12, IntAt(buffer, 8));
      r := if subs.None? then Overrun else Parsed(token, Subscribe(subs.value.0), subs.value.1);
    } else {
      var topics := ScanTopics(buffer, 12, IntAt(buffer, 8));
      r := if topics.None? then Overrun else Parsed(token, Unsubscribe(topics.value.0), topics.value.1);
    }
  }

  /** The PUBLISH branch: string, length, payload, QoS and retained flag, one after the other. */
  method ScanPublish(token: int32, buffer: seq<byte>, start: nat) returns (r: Restored)
    requires start <= |buffer|
    ensures r == ReadPublish(token, buffer, start)
  {
    var ptr: nat := start;
    var k := StrLen(buffer, ptr);
    if ptr + k + 5 > |buffer| {
      return Overrun;
    }
    var destination := buffer[ptr..ptr + k];
    ptr := ptr + k + 1;
    var len := IntAt(buffer, ptr);
    ptr := ptr + 4;
    if len < 0 || ptr + len + 8 > |buffer| {
      return Overrun;
    }
    var payload := buffer[ptr..ptr + len];
    ptr := ptr + len;
    var qos := IntAt(buffer, ptr);
    ptr := ptr + 4;
    var retained := IntAt(buffer, ptr);
    ptr := ptr + 4;
    r := Parsed(token, Publish(destination, payload, qos, retained), ptr);
  }

  method ScanSubs(buffer: seq<byte>, start: nat, count: int32) returns (r: Option<(seq<Subscription>, nat)>)
    requires start <= |buffer|
    ensures r == ReadSubs(buffer, start, if count > 0 then count else 0, [])
  {
    ghost var n: nat := if count > 0 then count else 0;
    var ptr: nat, i: nat, subs := start, 0, [];
    while i < count
      invariant i <= n && ptr <= |buffer|
      invariant ReadSubs(buffer, ptr, n - i, subs) == ReadSubs(buffer, start, n, [])
    {
      var k := StrLen(buffer, ptr);
      if ptr + k + 5 > |buffer| {
        return None;
      }
      subs := subs + [Subscription(buffer[ptr..ptr + k], IntAt(buffer, ptr + k + 1))];
      ptr, i := ptr + k + 5, i + 1;
    }
    r := Some((subs, ptr));
  }

  method ScanTopics(buffer: seq<byte>, start: nat, count: int32) returns (r: Option<(seq<CString>, nat)>)
    requires start <= |buffer|
    ensures r == ReadTopics(buffer, start, if count > 0 then count else 0, [])
  {
    ghost var n: nat := if count > 0 then count else 0;
    var ptr: nat, i: nat, topics := start, 0, [];
    while i < count
      invariant i <= n && ptr <= |buffer|
      invariant ReadTopics(buffer, ptr, n - i, topics) == ReadTopics(buffer, start, n, [])
    {
      var k := StrLen(buffer, ptr);
      if ptr + k == |buffer| {
        return None;
      }
      topics := topics + [buffer[ptr..ptr + k]];
      ptr, i := ptr + k + 1, i + 1;
    }
    r := Some((topics, ptr));
  }
}
