/** The bytes of a stored command: the memory images that MQTTAsync_persistCommand gathers, field by field. */
module StoredFormat {
  import opened Bytes
  import opened CommandCodec

  function At(b: seq<byte>, i: nat): int
    requires i < |b|
  {
    b[i] as int
  }

  /** The four bytes from `p` on are the C int `n`: low byte first, two's complement. */
  predicate IsInt(b: seq<byte>, p: nat, n: int) {
    && p + 4 <= |b|
    && At(b, p) + 256 * At(b, p + 1) + 65536 * At(b, p + 2) + 16777216 * At(b, p + 3)
       == if n < 0 then n + 4294967296 else n
  }

  lemma IntStands(b: seq<byte>, p: nat, n: int32)
    requires Has(b, p, IntBytes(n))
    ensures IsInt(b, p, n)
  {
    IntAtHas(b, p, n);
  }

  /** Where the `i`th topic stands: each takes its bytes and a NUL. */
  function TopicAt(topics: seq<CString>, i: nat): nat
    requires i <= |topics|
  {
    if i == 0 then 0 else |topics[0]| + 1 + TopicAt(topics[1..], i - 1)
  }

  /** Where the `i`th subscription stands: each takes its topic, a NUL and four bytes of QoS. */
  function SubAt(subs: seq<Subscription>, i: nat): nat
    requires i <= |subs|
  {
    if i == 0 then 0 else |subs[0].topic| + 5 + SubAt(subs[1..], i - 1)
  }

  lemma {:induction false} TopicsStand(b: seq<byte>, p: nat, topics: seq<CString>, i: nat)
    requires Has(b, p, TopicsLayout(topics)) && i <= |topics|
    ensures |TopicsLayout(topics)| == TopicAt(topics, |topics|)
    ensures i < |topics| ==> Has(b, p + TopicAt(topics, i), topics[i] + [0])
    decreases |topics|
  {
    if topics != [] {
      HasSplit(b, p, topics[0] + [0], TopicsLayout(topics[1..]));
      TopicsStand(b, p + |topics[0]| + 1, topics[1..], if i > 0 then i - 1 else 0);
    }
  }

  lemma {:induction false} SubsStand(b: seq<byte>, p: nat, subs: seq<Subscription>, i: nat)
    requires Has(b, p, SubsLayout(subs)) && i <= |subs|
    ensures |SubsLayout(subs)| == SubAt(subs, |subs|)
    ensures i < |subs| ==>
              var k := p + SubAt(subs, i);
              Has(b, k, subs[i].topic + [0]) && IsInt(b, k + |subs[i].topic| + 1, subs[i].qos)
    decreases |subs|
  {
    hide IntBytes, IsInt;
    if subs != [] {
      var x := subs[0];
      HasSplit(b, p, x.topic + [0] + IntBytes(x.qos), SubsLayout(subs[1..]));
      HasSplit(b, p, x.topic + [0], IntBytes(x.qos));
      IntStands(b, p + |x.topic| + 1, x.qos);
      SubsStand(b, p + |x.topic| + 5, subs[1..], if i > 0 then i - 1 else 0);
    }
  }

  lemma PartsStand(b: seq<byte>, p: nat, ptype: int32, token: int32, front: seq<byte>, n: int32, back: seq<byte>)
    requires Has(b, p, IntBytes(ptype) + IntBytes(token) + front + IntBytes(n) + back)
    ensures IsInt(b, p, ptype) && IsInt(b, p + 4, token) && Has(b, p + 8, front)
    ensures IsInt(b, p + 8 + |front|, n) && Has(b, p + 12 + |front|, back)
  {
    hide IntBytes, IsInt, Has;
    HasSplit(b, p, IntBytes(ptype) + IntBytes(token) + front + IntBytes(n), back);
    HasSplit(b, p, IntBytes(ptype) + IntBytes(token) + front, IntBytes(n));
    HasSplit(b, p, IntBytes(ptype) + IntBytes(token), front);
    HasSplit(b, p, IntBytes(ptype), IntBytes(token));
    IntStands(b, p, ptype);
    IntStands(b, p + 4, token);
    IntStands(b, p + 8 + |front|, n);
  }

  lemma EndStands(b: seq<byte>, p: nat, payload: seq<byte>, qos: int32, retained: int32)
    requires Has(b, p, payload + IntBytes(qos) + IntBytes(retained))
    ensures p + |payload| <= |b| && b[p..p + |payload|] == payload
    ensures IsInt(b, p + |payload|, qos) && IsInt(b, p + |payload| + 4, retained)
  {
    hide IntBytes, IsInt;
    HasSplit(b, p, payload + IntBytes(qos), IntBytes(retained));
    HasSplit(b, p, payload, IntBytes(qos));
    IntStands(b, p + |payload|, qos);
    IntStands(b, p + |payload| + 4, retained);
  }

  lemma HasItself(b: seq<byte>)
    ensures Has(b, 0, b)
  {
  }

  /** A stored subscribe: packet type 8, token and number of subscriptions, each a C int, then the
      subscriptions, each a topic and its QoS. */
  lemma SubscribeBytes(token: int32, d: Details, i: nat)
    requires d.Subscribe? && Representable(d)
    ensures
      var b, subs := Layout(token, d), d.subs;
      && |b| == 12 + SubAt(subs, |subs|) && IsInt(b, 0, 8) && IsInt(b, 4, token) && IsInt(b, 8, |subs|)
      && (i < |subs| ==>
            var k := 12 + SubAt(subs, i);
            Has(b, k, subs[i].topic + [0]) && IsInt(b, k + |subs[i].topic| + 1, subs[i].qos))
  {
    hide IntBytes, IsInt, NulFree, SubsLayout;
    HasItself(Layout(token, d));
    PartsStand(Layout(token, d), 0, 8, token, [], |d.subs|, SubsLayout(d.subs));
    SubsStand(Layout(token, d), 12, d.subs, if i < |d.subs| then i else 0);
  }

  /** A stored unsubscribe: packet type 10, token and number of topics, each a C int, then the topics. */
  lemma UnsubscribeBytes(token: int32, d: Details, i: nat)
    requires d.Unsubscribe? && Representable(d)
    ensures
      var b, topics := Layout(token, d), d.topics;
      && |b| == 12 + TopicAt(topics, |topics|) && IsInt(b, 0, 10) && IsInt(b, 4, token) && IsInt(b, 8, |topics|)
      && (i < |topics| ==> Has(b, 12 + TopicAt(topics, i), topics[i] + [0]))
  {
    hide IntBytes, IsInt, NulFree, TopicsLayout;
    HasItself(Layout(token, d));
    PartsStand(Layout(token, d), 0, 10, token, [], |d.topics|, TopicsLayout(d.topics));
    TopicsStand(Layout(token, d), 12, d.topics, if i < |d.topics| then i else 0);
  }

  /** A stored publication: packet type 3 and token, each a C int, the destination, the length of the
      payload, the payload, the QoS and the retained flag. */
  lemma PublishBytes(token: int32, d: Details)
    requires d.Publish? && Representable(d)
    ensures
      var b, k, n := Layout(token, d), 9 + |d.destination|, |d.payload|;
      && |b| == k + 12 + n && IsInt(b, 0, 3) && IsInt(b, 4, token) && Has(b, 8, d.destination + [0])
      && IsInt(b, k, n) && b[k + 4..k + 4 + n] == d.payload
      && IsInt(b, k + 4 + n, d.qos) && IsInt(b, k + 8 + n, d.retained)
  {
    hide IntBytes, IsInt, NulFree, Has;
    var b, k, n := Layout(token, d), 9 + |d.destination|, |d.payload|;
    var front, back := d.destination + [0], d.payload + IntBytes(d.qos) + IntBytes(d.retained);
    assert b == IntBytes(3) + IntBytes(token) + front + IntBytes(n) + back;
    HasItself(b);
    PartsStand(b, 0, 3, token, front, n, back);
    EndStands(b, k + 4, d.payload, d.qos, d.retained);
  }
}
