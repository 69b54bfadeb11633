/** The bytes themselves: where in a PUBLISH packet (MQTT 3.1.1 sections 2.2, 1.5.2 and 3.3) and in a
    stored command each field stands, and with which value. */
module WireFormat {
  import opened Bytes
  import opened Packet

  // ----- remaining length -----

  /** Digit `i` of the encoding: seven bits of the number, and the top bit on all but the last. */
  lemma {:induction false} DigitAt(n: nat, i: nat)
    requires i < |Digits(n)|
    ensures Digits(n)[i] == n / Pow128(i) % 128 + (if i + 1 < |Digits(n)| then 128 else 0)
    decreases i
  {
    if i == 0 {
      assert Pow128(0) == 1;
    } else {
      assert Digits(n) == [n % 128 + 128] + Digits(n / 128);
      DigitAt(n / 128, i - 1);
      DivTwice(n, Pow128(i - 1));
      assert Pow128(i) == 128 * Pow128(i - 1);
    }
  }

  lemma DivTwice(n: nat, m: nat)
    requires m > 0
    ensures n / 128 / m == n / (128 * m)
  {
    var q, r := n / (128 * m), n % (128 * m);
    assert n == 128 * (m * q) + r;
    assert n / 128 == m * q + r / 128;
    Quotient(m, q, r / 128);
  }

  lemma Quotient(m: nat, q: nat, r: nat)
    requires r < m
    ensures (m * q + r) / m == q
  {
    var x := m * q + r;
    Grows(m, x / m + 1, q);
    Grows(m, q + 1, x / m);
  }

  lemma Grows(m: nat, a: nat, b: nat)
    ensures a <= b ==> m * a <= m * b
  {
    if a <= b {
      assert m * b == m * a + m * (b - a);
    }
  }

  function At(b: seq<byte>, i: nat): int
    requires i < |b|
  {
    b[i] as int
  }

  lemma OneMoreByte(b: seq<byte>, p: nat, len: nat, multiplier: nat, value: nat)
    ensures
      DecodeFrom(b, p, len, multiplier, value) ==
      if len >= 4 then TooLong
      else if p >= |b| then Incomplete
      else if b[p] < 128 then Length(value + (b[p] % 128) * multiplier, p + 1)
      else DecodeFrom(b, p + 1, len + 1, multiplier * 128, value + (b[p] % 128) * multiplier)
  {
  }

  /** The value of up to four length bytes from position `p` on. */
  lemma DecodeBytes(b: seq<byte>, p: nat)
    ensures
      DecodeFrom(b, p, 0, 1, 0) ==
      if p + 1 <= |b| && b[p] < 128 then Length(At(b, p), p + 1)
      else if p + 2 <= |b| && b[p] >= 128 && b[p + 1] < 128 then Length(At(b, p) - 128 + 128 * At(b, p + 1), p + 2)
      else if p + 3 <= |b| && b[p] >= 128 && b[p + 1] >= 128 && b[p + 2] < 128 then
        Length(At(b, p) - 128 + 128 * (At(b, p + 1) - 128) + 16384 * At(b, p + 2), p + 3)
      else if p + 4 <= |b| && b[p] >= 128 && b[p + 1] >= 128 && b[p + 2] >= 128 && b[p + 3] < 128 then
        Length(At(b, p) - 128 + 128 * (At(b, p + 1) - 128) + 16384 * (At(b, p + 2) - 128)
               + 2097152 * At(b, p + 3), p + 4)
      else if p + 4 <= |b| && b[p] >= 128 && b[p + 1] >= 128 && b[p + 2] >= 128 && b[p + 3] >= 128 then TooLong
      else Incomplete
  {
    hide DecodeFrom;
    OneMoreByte(b, p, 0, 1, 0);
    if p < |b| && b[p] >= 128 {
      var v1 := At(b, p) % 128;
      OneMoreByte(b, p + 1, 1, 128, v1);
      if p + 1 < |b| && b[p + 1] >= 128 {
        var v2 := v1 + At(b, p + 1) % 128 * 128;
        OneMoreByte(b, p + 2, 2, 16384, v2);
        if p + 2 < |b| && b[p + 2] >= 128 {
          var v3 := v2 + At(b, p + 2) % 128 * 16384;
          OneMoreByte(b, p + 3, 3, 2097152, v3);
          if p + 3 < |b| {
            OneMoreByte(b, p + 4, 4, 268435456, v3 + At(b, p + 3) % 128 * 2097152);
          }
        }
      }
    }
  }

  // ----- PUBLISH -----

  function Flag(b: bool): int {
    if b then 1 else 0
  }

  /** What follows the length field. */
  function RemainingLength(p: Publication): nat {
    2 + |p.topic| + (if p.qos > 0 then 2 else 0) + |p.payload|
  }

  /** From position `k` on: two bytes of topic length, high byte first, then the topic; above QoS 0 two
      bytes of message id, high byte first; and the payload. */
  predicate FieldsAt(w: seq<byte>, k: nat, p: Publication) {
    var len := |p.topic|;
    && |w| == k + RemainingLength(p)
    && w[k] == len / 256 && w[k + 1] == len % 256 && w[k + 2..k + 2 + len] == p.topic
    && if p.qos == 0 then w[k + 2 + len..] == p.payload
       else w[k + 2 + len] == p.msgId / 256 && w[k + 3 + len] == p.msgId % 256 && w[k + 4 + len..] == p.payload
  }

  /** The header byte and, seven bits a byte, low digits first, the top bit on all but the last, the number
      `n`: together the first `k` bytes. */
  ghost predicate HeadAt(w: seq<byte>, k: nat, first: int, n: nat) {
    && 2 <= k <= |w| && w[0] == first && n < Pow128(k - 1) && (k > 2 ==> n >= Pow128(k - 2))
    && forall i :: 0 <= i < k - 1 ==> w[1 + i] == n / Pow128(i) % 128 + (if i < k - 2 then 128 else 0)
  }

  /** The bytes of a PUBLISH: header byte, remaining length, topic length, topic, message id, payload. */
  lemma WireBytes(p: Publication)
    requires p.qos <= 2 && |p.topic| <= 65535 && (p.qos > 0 ==> p.msgId <= 65535)
    ensures
      var k := |Wire(p)| - RemainingLength(p);
      && k >= 2 && HeadAt(Wire(p), k, 48 + 8 * Flag(p.dup) + 2 * p.qos + Flag(p.retain), RemainingLength(p))
      && FieldsAt(Wire(p), k, p)
  {
    hide Body, Digits, HeadAt, FieldsAt, DigitsAre, Pow128;
    BodyBytes(p);
    LengthBytes(RemainingLength(p));
    var h, b := [HeaderByte(p)] + Digits(RemainingLength(p)), Body(p);
    HeaderBytes(h, HeaderByte(p), RemainingLength(p), b);
    FieldsBehind(h, b, p);
  }

  lemma Behind(h: seq<byte>, b: seq<byte>, i: nat, j: nat)
    requires i <= j <= |b|
    ensures (h + b)[|h| + i..|h| + j] == b[i..j]
  {
  }

  lemma Rest(h: seq<byte>, b: seq<byte>, i: nat)
    requires i <= |b|
    ensures (h + b)[|h| + i..] == b[i..]
  {
  }

  lemma FieldsBehind(h: seq<byte>, b: seq<byte>, p: Publication)
    requires FieldsAt(b, 0, p)
    ensures FieldsAt(h + b, |h|, p)
  {
    var w, k, len := h + b, |h|, |p.topic|;
    assert forall i :: 0 <= i < |b| ==> w[k + i] == b[i];
    assert w[k + 0] == b[0] && w[k + 1] == b[1];
    Behind(h, b, 2, 2 + len);
    if p.qos == 0 {
      Rest(h, b, 2 + len);
    } else {
      assert w[k + (2 + len)] == b[2 + len] && w[k + (3 + len)] == b[3 + len];
      Rest(h, b, 4 + len);
    }
  }

  /** `d` are the digits of `n`. */
  ghost predicate DigitsAre(d: seq<byte>, n: nat) {
    && |d| >= 1 && n < Pow128(|d|) && (|d| > 1 ==> n >= Pow128(|d| - 1))
    && forall i :: 0 <= i < |d| ==> d[i] == n / Pow128(i) % 128 + (if i < |d| - 1 then 128 else 0)
  }

  lemma LengthBytes(n: nat)
    ensures DigitsAre(Digits(n), n)
  {
    hide Digits, Pow128;
    var d := Digits(n);
    forall i | 0 <= i < |d|
      ensures d[i] == n / Pow128(i) % 128 + (if i < |d| - 1 then 128 else 0)
    {
      DigitAt(n, i);
    }
    DigitsLength(n, |d|);
    if |d| > 1 {
      DigitsLength(n, |d| - 1);
    }
  }

  lemma HeaderBytes(h: seq<byte>, first: byte, n: nat, b: seq<byte>)
    requires h == [first] + Digits(n) && DigitsAre(Digits(n), n)
    ensures HeadAt(h + b, |h|, first, n)
  {
    hide Digits, Pow128;
    forall i | 0 <= i < |h| - 1
      ensures (h + b)[1 + i] == n / Pow128(i) % 128 + (if i < |h| - 2 then 128 else 0)
    {
      assert (h + b)[1 + i] == Digits(n)[i];
    }
  }

  lemma BodyBytes(p: Publication)
    requires |p.topic| <= 65535 && (p.qos > 0 ==> p.msgId <= 65535)
    ensures FieldsAt(Body(p), 0, p)
  {
  }

  /** MQTTPacket_publish told from the bytes: the topic has exactly the length that the first two bytes
      say, high byte first, and the packet is malformed exactly when that many are not there. */
  lemma ParseBytes(header: byte, data: seq<byte>, next: nat)
    ensures
      var o := ParsePublish(header, data, next);
      if |data| < 2 || |data| < 2 + 256 * At(data, 0) + At(data, 1) then o == BadPacket
      else
        var len := 256 * At(data, 0) + At(data, 1);
        if header as int / 2 % 4 > 0 && |data| < 4 + len then o == PastEnd
        else
          && o.Published? && o.next == next && o.p.topic == data[2..2 + len] && |o.p.topic| == len && o.p.qos <= 3
          && header as int == header as int / 16 * 16 + 8 * Flag(o.p.dup) + 2 * o.p.qos + Flag(o.p.retain)
          && if o.p.qos == 0 then o.p.payload == data[2 + len..] && o.p.msgId == 0
             else o.p.payload == data[4 + len..] && o.p.msgId == 256 * At(data, 2 + len) + At(data, 3 + len)
  {
    FlagsOf(header as int);
  }

  lemma FlagsOf(h: int)
    requires 0 <= h < 256
    ensures h == h / 16 * 16 + 8 * Flag(h / 8 % 2 == 1) + 2 * (h / 2 % 4) + Flag(h % 2 == 1)
  {
    var a := h / 2;
    assert a == 4 * (a / 4) + a % 4 && a / 4 == h / 8;
    var b := h / 8;
    assert b == 2 * (b / 2) + b % 2 && b / 2 == h / 16;
  }

  /** The factory told from the bytes: it ignores the types without a reader, which are 0, 1, 8, 10 and
      15, and reads type 3 as a PUBLISH. */
  lemma ReceiveBytes(b: seq<byte>)
    ensures
      var d := DecodeFrom(b, 1, 0, 1, 0);
      Receive(b) ==
      if |b| == 0 || d.Incomplete? || (d.Length? && d.next + d.value > |b|) then NotYet
      else if d.TooLong? then Failed
      else if b[0] < 32 || 128 <= b[0] < 144 || 160 <= b[0] < 176 || b[0] >= 240 then Ignored
      else if 48 <= b[0] < 64 then ParsePublish(b[0], b[d.next..d.next + d.value], d.next + d.value)
      else OtherPacket(b[0] / 16, d.next + d.value)
  {
  }
}
