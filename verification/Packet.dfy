/** The wire codec (MQTTPacket.c): the Remaining Length of MQTT 3.1.1 section 2.2.3 and the PUBLISH
    packet of section 3.3, sent and received. */
module Packet {
  import opened Bytes

  const TCPSOCKET_COMPLETE := 0
  const SOCKET_ERROR := -1
  const BAD_MQTT_PACKET := -4
  const TCPSOCKET_INTERRUPTED := -22

  const MAX_NO_OF_REMAINING_LENGTH_BYTES := 4

  // ----- remaining length -----

  function Pow128(k: nat): (r: nat)
    ensures r > 0
  {
    if k == 0 then 1 else 128 * Pow128(k - 1)
  }

  /** Seven bits a byte, low digits first, the top bit set on all but the last. */
  function Digits(n: nat): (d: seq<byte>)
    ensures |d| > 0
  {
    if n < 128 then [n] else [n % 128 + 128] + Digits(n / 128)
  }

  /** The encoding takes `k` bytes exactly when n is below 128^k but not below 128^(k-1); 0 takes one. */
  lemma {:induction false} DigitsLength(n: nat, k: nat)
    requires k > 0
    ensures |Digits(n)| == k <==> n < Pow128(k) && (k == 1 || n >= Pow128(k - 1))
    ensures |Digits(n)| <= k <==> n < Pow128(k)
  {
    if n < 128 {
      assert Pow128(k) == 128 * Pow128(k - 1);
      assert k > 1 ==> Pow128(k - 1) == 128 * Pow128(k - 2);
    } else if k == 1 {
      assert Pow128(1) == 128 * Pow128(0);
    } else {
      DigitsLength(n / 128, k - 1);
      assert Pow128(k) == 128 * Pow128(k - 1) && Pow128(k - 1) == 128 * Pow128(k - 2);
    }
  }

  lemma FirstDigit(n: nat)
    ensures Digits(n) == if n / 128 > 0 then [n % 128 + 128] + Digits(n / 128) else [n % 128]
  {
  }

  /** MQTTPacket_encode: writes the digits of `length` into the buffer from `start` on. */
  method Encode(buf: array<byte>, start: nat, length: nat) returns (rc: nat)
    requires start + |Digits(length)| <= buf.Length
    modifies buf
    ensures rc == |Digits(length)| && buf[start..start + rc] == Digits(length)
    ensures forall i :: 0 <= i < start || start + rc <= i < buf.Length ==> buf[i] == old(buf[i])
  {
    hide Digits;
    rc := 0;
    var rest := length;
    var more := true;
    while more
      invariant 0 <= rc <= |Digits(length)| && rest >= 0
      invariant more ==> Digits(length) == buf[start..start + rc] + Digits(rest)
      invariant !more ==> Digits(length) == buf[start..start + rc]
      invariant forall i :: 0 <= i < start || start + |Digits(length)| <= i < buf.Length ==> buf[i] == old(buf[i])
      decreases more, rest
    {
      var d := rest % 128;
      ghost var before, was := buf[start..start + rc], rest;
      rest := rest / 128;
      if rest > 0 {
        d := d + 128;
      }
      FirstDigit(was);
      buf[start + rc] := d;
      rc := rc + 1;
      assert buf[start..start + rc] == before + [d];
      more := rest > 0;
    }
  }

  datatype Decoded = Length(value: nat, next: nat) | TooLong | Incomplete

  /** Decoding from position `p`, `len` bytes already read. */
  function DecodeFrom(b: seq<byte>, p: nat, len: nat, multiplier: nat, value: nat): Decoded
    decreases MAX_NO_OF_REMAINING_LENGTH_BYTES - len
  {
    if len + 1 > MAX_NO_OF_REMAINING_LENGTH_BYTES then TooLong
    else if p >= |b| then Incomplete
    else
      var v := value + (b[p] % 128) * multiplier;
      if b[p] >= 128 then DecodeFrom(b, p + 1, len + 1, multiplier * 128, v) else Length(v, p + 1)
  }

  lemma {:induction false} DecodeDigits(b: seq<byte>, p: nat, n: nat, len: nat, multiplier: nat, value: nat)
    requires Has(b, p, Digits(n)) && len <= MAX_NO_OF_REMAINING_LENGTH_BYTES
    ensures DecodeFrom(b, p, len, multiplier, value) ==
            if len + |Digits(n)| <= MAX_NO_OF_REMAINING_LENGTH_BYTES
            then Length(value + n * multiplier, p + |Digits(n)|) else TooLong
    decreases n
  {
    assert b[p + 0] == Digits(n)[0];
    if n >= 128 && len < MAX_NO_OF_REMAINING_LENGTH_BYTES {
      HasSplit(b, p, [n % 128 + 128], Digits(n / 128));
      var v := value + (n % 128) * multiplier;
      DecodeDigits(b, p + 1, n / 128, len + 1, multiplier * 128, v);
      assert v + (n / 128) * (multiplier * 128) == value + n * multiplier by {
        assert n == n / 128 * 128 + n % 128;
        assert (n / 128 * 128 + n % 128) * multiplier == n / 128 * 128 * multiplier + n % 128 * multiplier;
        assert n / 128 * (multiplier * 128) == n / 128 * 128 * multiplier;
      }
    }
  }

  /** Decoding an encoded length followed by anything gives it back and consumes exactly its bytes
      when it is below 128^4, and rejects it otherwise. */
  lemma DecodeUndoesEncode(n: nat, tail: seq<byte>)
    ensures DecodeFrom(Digits(n) + tail, 0, 0, 1, 0) ==
            if n < Pow128(MAX_NO_OF_REMAINING_LENGTH_BYTES) then Length(n, |Digits(n)|) else TooLong
  {
    DecodeDigits(Digits(n) + tail, 0, n, 0, 1, 0);
    DigitsLength(n, MAX_NO_OF_REMAINING_LENGTH_BYTES);
  }

  /** A socket as a byte stream with a read position; `atEnd` is what reading beyond the bytes that
      have arrived returns: interrupted, or an error. */
  class Socket {
    const input: seq<byte>
    const atEnd: int
    var pos: nat

    constructor (input: seq<byte>, atEnd: int)
      requires atEnd == TCPSOCKET_INTERRUPTED || atEnd == SOCKET_ERROR
      ensures this.input == input && this.atEnd == atEnd && pos == 0
    {
      this.input, this.atEnd, pos := input, atEnd, 0;
    }

    method GetChar() returns (rc: int, c: byte)
      modifies this
      ensures if old(pos) < |input| then rc == TCPSOCKET_COMPLETE && c == input[old(pos)] && pos == old(pos) + 1
              else rc == atEnd && pos == old(pos)
    {
      if pos < |input| {
        rc, c := TCPSOCKET_COMPLETE, input[pos];
        pos := pos + 1;
      } else {
        rc, c := atEnd, 0;
      }
    }

    /** The next `n` bytes, or those of them that have arrived; nothing at all after an error. */
    method GetData(n: nat) returns (data: Option<seq<byte>>)
      requires pos <= |input|
      modifies this
      ensures pos == if old(pos) + n <= |input| then old(pos) + n else |input|
      ensures data == if old(pos) + n > |input| && atEnd == SOCKET_ERROR then None else Some(input[old(pos)..pos])
    {
      var end := if pos + n <= |input| then pos + n else |input|;
      data := if pos + n > |input| && atEnd == SOCKET_ERROR then None else Some(input[pos..end]);
      pos := end;
    }
  }

  /** MQTTPacket_decode */
  method Decode(net: Socket) returns (rc: int, value: nat)
    requires net.atEnd != TCPSOCKET_COMPLETE && net.pos <= |net.input|
    modifies net
    ensures net.pos <= |net.input|
    ensures match DecodeFrom(net.input, old(net.pos), 0, 1, 0)
            case Length(v, next) => rc == TCPSOCKET_COMPLETE && value == v && net.pos == next
            case TooLong => rc == SOCKET_ERROR
            case Incomplete => rc == net.atEnd
  {
    var multiplier: nat, len: nat := 1, 0;
    value := 0;
    while true
      invariant net.pos <= |net.input| && len <= MAX_NO_OF_REMAINING_LENGTH_BYTES
      invariant DecodeFrom(net.input, net.pos, len, multiplier, value) == DecodeFrom(net.input, old(net.pos), 0, 1, 0)
      decreases MAX_NO_OF_REMAINING_LENGTH_BYTES - len
    {
      len := len + 1;
      if len > MAX_NO_OF_REMAINING_LENGTH_BYTES {
        return SOCKET_ERROR, value;  // bad data
      }
      var c;
      rc, c := net.GetChar();
      if rc != TCPSOCKET_COMPLETE {
        return;
      }
      value := value + (c % 128) * multiplier;
      multiplier := multiplier * 128;
      if c < 128 {
        return;
      }
    }
  }

  // ----- PUBLISH -----

  const PUBLISH := 3

  /** What a PUBLISH says.  `dup`, `qos` and `retain` are its header flags. */
  datatype Publication = Publication(dup: bool, qos: nat, retain: bool, topic: seq<byte>, msgId: nat,
                                     payload: seq<byte>)

  /** The header byte of section 2.2: type in the high nibble, then dup, two bits of QoS, retain. */
  function HeaderByte(p: Publication): byte
    requires p.qos <= 2
  {
    PUBLISH * 16 + (if p.dup then 8 else 0) + p.qos * 2 + (if p.retain then 1 else 0)
  }

  /** writeInt: two bytes, high byte first, the value cut to 16 bits. */
  function ShortBytes(n: nat): (b: seq<byte>)
    ensures |b| == 2
  {
    [n / 256 % 256, n % 256]
  }

  /** readInt */
  function ShortAt(b: seq<byte>, p: nat): nat
    requires p + 2 <= |b|
  {
    256 * b[p] as int + b[p + 1] as int
  }

  /** The packet after its Remaining Length field. */
  function Body(p: Publication): seq<byte> {
    ShortBytes(|p.topic|) + p.topic + (if p.qos > 0 then ShortBytes(p.msgId) else []) + p.payload
  }

  function Wire(p: Publication): seq<byte>
    requires p.qos <= 2
  {
    [HeaderByte(p)] + Digits(|Body(p)|) + Body(p)
  }

  function TotalLength(bufs: seq<seq<byte>>): nat {
    if bufs == [] then 0 else TotalLength(bufs[..|bufs| - 1]) + |bufs[|bufs| - 1]|
  }

  lemma {:induction false} TotalIsLength(bufs: seq<seq<byte>>)
    ensures TotalLength(bufs) == |Concat(bufs)|
  {
    if bufs != [] {
      TotalIsLength(bufs[..|bufs| - 1]);
    }
  }

  /** MQTTPacket_sends: the header and the total length go into a buffer of ten bytes that is written
      ahead of the others. */
  method Sends(header: byte, bufs: seq<seq<byte>>) returns (sent: seq<byte>)
    requires TotalLength(bufs) < Pow128(9)
    ensures sent == [header] + Digits(|Concat(bufs)|) + Concat(bufs)
  {
    var total := 0;
    for i := 0 to |bufs|
      invariant total == TotalLength(bufs[..i])
    {
      assert bufs[..i + 1][..i] == bufs[..i];
      total := total + |bufs[i]|;
    }
    assert bufs[..|bufs|] == bufs;
    TotalIsLength(bufs);
    DigitsLength(total, 9);
    var buf := new byte[10];
    buf[0] := header;
    var n := Encode(buf, 1, total);
    assert buf[0] == header;
    assert buf[..1 + n] == [header] + buf[1..1 + n];
    sent := buf[..1 + n] + Concat(bufs);
  }

  /** MQTTPacket_send_publish */
  method SendPublish(p: Publication) returns (sent: seq<byte>)
    requires p.qos <= 2 && |Body(p)| < Pow128(9)
    ensures sent == Wire(p)
  {
    var topiclen := ShortBytes(|p.topic|);
    if p.qos > 0 {
      var bufs := [topiclen, p.topic, ShortBytes(p.msgId), p.payload];
      Concat3(topiclen, p.topic, ShortBytes(p.msgId));
      ConcatSnoc([topiclen, p.topic, ShortBytes(p.msgId)], p.payload);
      assert bufs == [topiclen, p.topic, ShortBytes(p.msgId)] + [p.payload];
      TotalIsLength(bufs);
      sent := Sends(HeaderByte(p), bufs);
    } else {
      var bufs := [topiclen, p.topic, p.payload];
      Concat3(topiclen, p.topic, p.payload);
      assert Concat(bufs) == Body(p);
      TotalIsLength(bufs);
      sent := Sends(HeaderByte(p), bufs);
    }
  }

  /** What the factory returns: a publication; some other packet, not parsed here; a type it has no
      reader for; a malformed packet; or nothing yet.  `PastEnd` stands for the runs in which the
      message id of a short packet would be read beyond the packet's end. */
  datatype Outcome =
    | Published(p: Publication, next: nat)
    | OtherPacket(ptype: nat, next: nat)
    | Ignored
    | BadPacket
    | PastEnd
    | NotYet
    | Failed

  /** MQTTPacket_publish on the packet's body */
  function ParsePublish(header: byte, data: seq<byte>, next: nat): (o: Outcome)
    ensures o.BadPacket? || o.PastEnd? || (o.Published? && o.next == next)
  {
    if |data| < 2 then BadPacket
    else
      var len := ShortAt(data, 0);
      if 2 + len > |data| then BadPacket
      else
        var qos := header / 2 % 4;
        var dup, retain := header / 8 % 2 == 1, header % 2 == 1;
        var topic := data[2..2 + len];
        if qos == 0 then Published(Publication(dup, qos, retain, topic, 0, data[2 + len..]), next)
        else if 4 + len > |data| then PastEnd
        else Published(Publication(dup, qos, retain, topic, ShortAt(data, 2 + len), data[4 + len..]), next)
  }

  /** The packet types the factory has readers for. */
  predicate HasReader(ptype: nat) {
    2 <= ptype <= 14 && ptype != 8 && ptype != 10
  }

  function Receive(b: seq<byte>): Outcome {
    if |b| == 0 then NotYet
    else
      match DecodeFrom(b, 1, 0, 1, 0)
      case Incomplete => NotYet
      case TooLong => Failed
      case Length(n, p) =>
        if p + n > |b| then NotYet
        else if !HasReader(b[0] / 16) then Ignored
        else if b[0] / 16 == PUBLISH then ParsePublish(b[0], b[p..p + n], p + n)
        else OtherPacket(b[0] / 16, p + n)
  }

  /** MQTTPacket_publish: a pointer walks over the data, past the topic and the message id, to the
      payload. */
  method ReadPublish(header: byte, data: seq<byte>, next: nat) returns (out: Outcome)
    ensures out == ParsePublish(header, data, next)
  {
    var curdata, enddata := 0, |data|;
    if enddata - curdata < 2 {
      return BadPacket;
    }
    var len := ShortAt(data, curdata);
    curdata := curdata + 2;
    if curdata + len > enddata {
      return BadPacket;
    }
    var topic := data[curdata..curdata + len];
    curdata := curdata + len;
    var qos, msgId := header / 2 % 4, 0;
    if qos > 0 {
      if curdata + 2 > enddata {
        return PastEnd;
      }
      msgId := ShortAt(data, curdata);
      curdata := curdata + 2;
    }
    out := Published(Publication(header / 8 % 2 == 1, qos, header % 2 == 1, topic, msgId, data[curdata..]), next);
  }

  /** MQTTPacket_Factory, on a socket read from its start */
  method Factory(net: Socket) returns (out: Outcome, error: int)
    requires net.pos == 0 && (net.atEnd == TCPSOCKET_INTERRUPTED || net.atEnd == SOCKET_ERROR)
    modifies net
    ensures out == Receive(net.input)
    ensures out.Published? ==> net.pos == out.next
    ensures error == match out
                     case BadPacket => BAD_MQTT_PACKET
                     case Failed => SOCKET_ERROR
                     case NotYet => net.atEnd
                     case _ => TCPSOCKET_COMPLETE
  {
    hide ParsePublish, DecodeFrom, HasReader;
    var header, remaining, data;
    error, header := net.GetChar();
    if error != TCPSOCKET_COMPLETE {
      return NotYet, error;
    }
    error, remaining := Decode(net);
    if error != TCPSOCKET_COMPLETE {
      out := if DecodeFrom(net.input, 1, 0, 1, 0).TooLong? then Failed else NotYet;
      return;
    }
    data := net.GetData(remaining);
    if data.None? {
      return NotYet, SOCKET_ERROR;
    }
    if |data.value| != remaining {
      return NotYet, TCPSOCKET_INTERRUPTED;
    }
    var ptype := header / 16;
    if !HasReader(ptype) {
      out := Ignored;
    } else if ptype == PUBLISH {
      out := ReadPublish(header, data.value, net.pos);
      if out.BadPacket? {
        error := BAD_MQTT_PACKET;
      }
    } else {
      out := OtherPacket(ptype, net.pos);
    }
  }

  // ----- sent and received -----

  /** The limits of the wire format: a 16-bit topic length, a 16-bit message id, four length bytes. */
  predicate Fits(p: Publication) {
    |p.topic| <= 65535 && (p.qos > 0 ==> p.msgId <= 65535) && |Body(p)| < Pow128(4)
  }

  /** What a receiver should see: a QoS 0 publication has no message id. */
  function Seen(p: Publication): Publication {
    p.(msgId := if p.qos == 0 then 0 else p.msgId)
  }

  lemma ShortRoundTrip(n: nat)
    ensures ShortAt(ShortBytes(n), 0) == n % 65536
  {
    assert n == n / 65536 * 65536 + n / 256 % 256 * 256 + n % 256;
  }

  lemma HeaderRoundTrip(p: Publication)
    requires p.qos <= 2
    ensures var h := HeaderByte(p);
      h / 16 == PUBLISH && h / 2 % 4 == p.qos && (h / 8 % 2 == 1) == p.dup && (h % 2 == 1) == p.retain
  {
  }

  /** Receiving what send_publish has written, with anything behind it. */
  lemma ReceiveIsParse(p: Publication, tail: seq<byte>)
    requires p.qos <= 2
    ensures Receive(Wire(p) + tail) ==
            if |Body(p)| < Pow128(4) then ParsePublish(HeaderByte(p), Body(p), |Wire(p)|) else Failed
  {
    hide Digits, Body, HeaderByte, ParsePublish, DecodeFrom, Pow128;
    var n, b := |Body(p)|, Wire(p) + tail;
    assert Has(b, 0, [HeaderByte(p)] + Digits(n) + Body(p));
    HasSplit(b, 0, [HeaderByte(p)] + Digits(n), Body(p));
    HasSplit(b, 0, [HeaderByte(p)], Digits(n));
    assert b[0 + 0] == [HeaderByte(p)][0];
    DecodeDigits(b, 1, n, 0, 1, 0);
    DigitsLength(n, 4);
    HeaderRoundTrip(p);
    assert b[1 + |Digits(n)|..1 + |Digits(n)| + n] == Body(p);
  }

  lemma ShortIn(b: seq<byte>, p: nat, n: nat)
    requires Has(b, p, ShortBytes(n))
    ensures ShortAt(b, p) == n % 65536
  {
    ShortRoundTrip(n);
    assert b[p + 0] == ShortBytes(n)[0] && b[p + 1] == ShortBytes(n)[1];
  }

  /** Where the parts of a body stand. */
  lemma BodyParts(p: Publication)
    requires |p.topic| <= 65535
    ensures
      var d, len := Body(p), |p.topic|;
      && 2 + len <= |d| && ShortAt(d, 0) == len && d[2..2 + len] == p.topic
      && if p.qos == 0 then d[2 + len..] == p.payload
         else 4 + len <= |d| && ShortAt(d, 2 + len) == p.msgId % 65536 && d[4 + len..] == p.payload
  {
    hide ShortBytes, ShortAt;
    var lenBytes, idBytes := ShortBytes(|p.topic|), if p.qos > 0 then ShortBytes(p.msgId) else [];
    var d := Body(p);
    assert Has(d, 0, lenBytes + p.topic + idBytes + p.payload);
    HasSplit(d, 0, lenBytes + p.topic + idBytes, p.payload);
    HasSplit(d, 0, lenBytes + p.topic, idBytes);
    HasSplit(d, 0, lenBytes, p.topic);
    ShortIn(d, 0, |p.topic|);
    if p.qos > 0 {
      ShortIn(d, 2 + |p.topic|, p.msgId);
    }
  }

  lemma ParseBody(p: Publication, next: nat)
    requires p.qos <= 2 && |p.topic| <= 65535
    ensures ParsePublish(HeaderByte(p), Body(p), next) ==
            Published(Seen(p).(msgId := if p.qos == 0 then 0 else p.msgId % 65536), next)
  {
    hide HeaderByte, Body, ShortAt;
    HeaderRoundTrip(p);
    BodyParts(p);
  }

  /** Receiving undoes sending exactly for the publications that fit the wire format: with a longer
      topic, a larger id or too long a body, something else arrives or nothing does. */
  lemma ReceiveUndoesSend(p: Publication, tail: seq<byte>)
    requires p.qos <= 2
    ensures Receive(Wire(p) + tail) == Published(Seen(p), |Wire(p)|) <==> Fits(p)
  {
    hide Receive, ParsePublish, Wire, HeaderByte, Digits, ShortBytes;
    ReceiveIsParse(p, tail);
    if |Body(p)| < Pow128(4) {
      if |p.topic| <= 65535 {
        ParseBody(p, |Wire(p)|);
      } else {
        LongTopicIsCut(p, |Wire(p)|);
      }
    }
  }

  /** The length field of a longer topic wraps, so that the receiver sees a shorter topic. */
  lemma LongTopicIsCut(p: Publication, next: nat)
    requires p.qos <= 2 && |p.topic| > 65535
    ensures var r := ParsePublish(HeaderByte(p), Body(p), next);
      r.Published? ==> |r.p.topic| == |p.topic| % 65536 < |p.topic|
  {
    var d := Body(p);
    ShortRoundTrip(|p.topic|);
    assert d[0] == ShortBytes(|p.topic|)[0] && d[1] == ShortBytes(|p.topic|)[1];
  }
}
