/** Tunnel framing, byte for byte: type, sequence number, ports and target, all in network byte order. */
module Wire {
  import opened Wrappers
  import opened Mesh

  type Bytes = seq<Byte>

  const DATA: Byte := 0
  const ACK: Byte := 1
  const PLAIN: Byte := 2
  const DATA_HEADER_SIZE: nat := 17
  const ACK_HEADER_SIZE: nat := 9
  // Shorter datagrams are dropped before their type is looked at.
  const MIN_SIZE: nat := 5

  // ---------- Unsigned integers in network byte order ----------

  function Range(width: nat): (r: nat)
    ensures r > 0
  {
    if width == 0 then 1 else 256 * Range(width - 1)
  }

  function Pack(x: nat, width: nat): (r: Bytes)
    ensures |r| == width
  {
    if width == 0 then [] else Pack(x / 256, width - 1) + [x % 256]
  }

  function Unpack(bs: Bytes): (r: nat)
    ensures r < Range(|bs|)
    decreases |bs|
  {
    if bs == [] then 0
    else
      UnpackFits(bs);
      256 * Unpack(bs[..|bs| - 1]) + bs[|bs| - 1]
  }

  lemma UnpackFits(bs: Bytes)
    requires bs != []
    ensures Range(|bs|) == 256 * Range(|bs| - 1)
  {
  }

  lemma {:induction false} UnpackPack(x: nat, width: nat)
    requires x < Range(width)
    ensures Unpack(Pack(x, width)) == x
  {
    if width > 0 {
      UnpackPack(x / 256, width - 1);
      assert Pack(x, width)[..width - 1] == Pack(x / 256, width - 1);
    }
  }

  lemma {:induction false} PackUnpack(bs: Bytes)
    ensures Pack(Unpack(bs), |bs|) == bs
    decreases |bs|
  {
    if bs != [] {
      PackUnpack(bs[..|bs| - 1]);
      assert Unpack(bs) / 256 == Unpack(bs[..|bs| - 1]) && Unpack(bs) % 256 == bs[|bs| - 1];
      assert bs == bs[..|bs| - 1] + [bs[|bs| - 1]];
    }
  }

  /** Dividing twice is dividing by the product. */
  lemma DivideTwice(x: nat, y: nat)
    requires y > 0
    ensures x / 256 / y == x / (256 * y)
  {
    var q, r := x / 256, x % 256;
    var s, t := q / y, q % y;
    assert x == 256 * (s * y + t) + r;
    assert 256 * (s * y) == s * (256 * y);
    QuotientIs(x, 256 * y, s, 256 * t + r);
  }

  lemma QuotientIs(x: nat, d: nat, s: nat, rest: nat)
    requires x == s * d + rest && rest < d
    ensures x / d == s
  {
    var z := x / d - s;
    assert z * d == rest - x % d;
    Multiples(z, d);
  }

  lemma Multiples(z: int, d: int)
    requires d > 0
    ensures z >= 1 ==> z * d >= d
    ensures z <= -1 ==> z * d <= -d
  {
  }

  /** Network byte order: the most significant digit to base 256 comes first. */
  lemma {:induction false} PackDigit(x: nat, width: nat, k: nat)
    requires k < width
    ensures Pack(x, width)[width - 1 - k] == x / Range(k) % 256
  {
    if k > 0 {
      PackDigit(x / 256, width - 1, k - 1);
      DivideTwice(x, Range(k - 1));
    }
  }

  /** `field` holds the digits of `x`, most significant first. */
  ghost predicate Spells(field: Bytes, x: nat) {
    forall k: nat :: k < |field| ==> field[|field| - 1 - k] == x / Range(k) % 256
  }

  lemma PackSpells(x: nat, width: nat)
    ensures Spells(Pack(x, width), x)
  {
    forall k: nat | k < width ensures Pack(x, width)[width - 1 - k] == x / Range(k) % 256 {
      PackDigit(x, width, k);
    }
  }

  // ---------- Frames ----------

  /** Every field fits its place in the header; packing anything else is an error. */
  predicate Fits(f: Frame<Bytes>) {
    match f
    case Data(sn, m) => sn < Range(8) && m.srcPort < Range(2) && m.dstPort < Range(2) && m.target < Range(4)
    case Ack(sn) => sn < Range(8)
    case Plain(m) => m.srcPort < Range(2) && m.dstPort < Range(2) && m.target < Range(4)
  }

  function DataHeader(kind: Byte, sn: nat, m: Msg<Bytes>): (r: Bytes)
    ensures |r| == DATA_HEADER_SIZE
  {
    [kind] + Pack(sn, 8) + Pack(m.srcPort, 2) + Pack(m.dstPort, 2) + Pack(m.target, 4)
  }

  function Encode(f: Frame<Bytes>): Option<Bytes> {
    if !Fits(f) then None
    else match f
      case Data(sn, m) => Some(DataHeader(DATA, sn, m) + m.payload)
      case Ack(sn) => Some([ACK] + Pack(sn, 8))
      case Plain(m) => Some(DataHeader(PLAIN, 0, m) + m.payload)
  }

  function MsgOf(bs: Bytes): Msg<Bytes>
    requires |bs| >= DATA_HEADER_SIZE
  {
    Msg(bs[DATA_HEADER_SIZE..], Unpack(bs[9..11]), Unpack(bs[11..13]), Unpack(bs[13..17]))
  }

  /** What the tunnel makes of a datagram; None is a silent drop. Bytes behind an acknowledgement are ignored. */
  function Parse(bs: Bytes): Option<Frame<Bytes>> {
    if |bs| < MIN_SIZE then None
    else if bs[0] == DATA then
      if |bs| < DATA_HEADER_SIZE then None else Some(Data(Unpack(bs[1..9]), MsgOf(bs)))
    else if bs[0] == PLAIN then
      if |bs| < DATA_HEADER_SIZE then None else Some(Plain(MsgOf(bs)))
    else if bs[0] == ACK then
      if |bs| < ACK_HEADER_SIZE then None else Some(Frame.Ack(Unpack(bs[1..9])))
    else None
  }

  lemma HeaderFields(kind: Byte, sn: nat, m: Msg<Bytes>, rest: Bytes)
    ensures var bs := DataHeader(kind, sn, m) + rest;
            && bs[0] == kind && bs[1..9] == Pack(sn, 8) && bs[9..11] == Pack(m.srcPort, 2)
            && bs[11..13] == Pack(m.dstPort, 2) && bs[13..17] == Pack(m.target, 4) && bs[17..] == rest
  {
  }

  lemma HeaderSpells(kind: Byte, sn: nat, m: Msg<Bytes>, rest: Bytes)
    ensures var bs := DataHeader(kind, sn, m) + rest;
            && bs[0] == kind && Spells(bs[1..9], sn) && Spells(bs[9..11], m.srcPort)
            && Spells(bs[11..13], m.dstPort) && Spells(bs[13..17], m.target) && bs[17..] == rest
  {
    HeaderFields(kind, sn, m, rest);
    PackSpells(sn, 8);
    PackSpells(m.srcPort, 2);
    PackSpells(m.dstPort, 2);
    PackSpells(m.target, 4);
  }

  /** Every byte of a frame: its kind, then its fields at their places, each most significant byte first, then the payload. */
  lemma FrameBytes(f: Frame<Bytes>)
    requires Fits(f)
    ensures Encode(f).Some?
    ensures var bs := Encode(f).value;
            match f
            case Data(sn, m) =>
              && |bs| == 17 + |m.payload| && bs[0] == 0 && Spells(bs[1..9], sn) && Spells(bs[9..11], m.srcPort)
              && Spells(bs[11..13], m.dstPort) && Spells(bs[13..17], m.target) && bs[17..] == m.payload
            case Ack(sn) =>
              |bs| == 9 && bs[0] == 1 && Spells(bs[1..], sn)
            case Plain(m) =>
              && |bs| == 17 + |m.payload| && bs[0] == 2 && Spells(bs[1..9], 0) && Spells(bs[9..11], m.srcPort)
              && Spells(bs[11..13], m.dstPort) && Spells(bs[13..17], m.target) && bs[17..] == m.payload
  {
    match f
    case Data(sn, m) =>
      HeaderSpells(DATA, sn, m, m.payload);
    case Ack(sn) =>
      PackSpells(sn, 8);
      assert ([ACK] + Pack(sn, 8))[1..] == Pack(sn, 8);
    case Plain(m) =>
      HeaderSpells(PLAIN, 0, m, m.payload);
  }

  /** Whatever can be sent is received as it was sent: fields, payload and kind. */
  lemma RoundTrip(f: Frame<Bytes>)
    ensures Encode(f).Some? <==> Fits(f)
    ensures Encode(f).Some? ==> Parse(Encode(f).value) == Some(f)
  {
    if Fits(f) {
      match f
      case Data(sn, m) =>
        HeaderFields(DATA, sn, m, m.payload);
        UnpackPack(sn, 8);
        FieldsUnpack(m);
      case Ack(sn) =>
        UnpackPack(sn, 8);
        assert ([ACK] + Pack(sn, 8))[1..9] == Pack(sn, 8);
      case Plain(m) =>
        HeaderFields(PLAIN, 0, m, m.payload);
        FieldsUnpack(m);
    }
  }

  lemma FieldsUnpack(m: Msg<Bytes>)
    requires m.srcPort < Range(2) && m.dstPort < Range(2) && m.target < Range(4)
    ensures Unpack(Pack(m.srcPort, 2)) == m.srcPort
    ensures Unpack(Pack(m.dstPort, 2)) == m.dstPort
    ensures Unpack(Pack(m.target, 4)) == m.target
  {
    UnpackPack(m.srcPort, 2);
    UnpackPack(m.dstPort, 2);
    UnpackPack(m.target, 4);
  }

  /** Two frames on the wire are equal only if they say the same: kinds are never confused. */
  lemma Unambiguous(f: Frame<Bytes>, g: Frame<Bytes>)
    requires Encode(f).Some? && Encode(f) == Encode(g)
    ensures f == g
  {
    RoundTrip(f);
    RoundTrip(g);
  }

  lemma {:induction false} UnpackIsZero(bs: Bytes)
    ensures Unpack(bs) == 0 <==> forall x :: 0 <= x < |bs| ==> bs[x] == 0
    decreases |bs|
  {
    if bs != [] {
      UnpackIsZero(bs[..|bs| - 1]);
    }
  }

  lemma Reassembled(bs: Bytes)
    requires |bs| >= DATA_HEADER_SIZE
    ensures bs == [bs[0]] + bs[1..9] + bs[9..11] + bs[11..13] + bs[13..17] + bs[17..]
  {
  }

  lemma HeaderIs(bs: Bytes, sn: nat)
    requires |bs| >= DATA_HEADER_SIZE
    ensures DataHeader(bs[0], sn, MsgOf(bs)) + MsgOf(bs).payload == bs <==> Pack(sn, 8) == bs[1..9]
  {
    var m := MsgOf(bs);
    var made := DataHeader(bs[0], sn, m) + m.payload;
    PackUnpack(bs[9..11]);
    PackUnpack(bs[11..13]);
    PackUnpack(bs[13..17]);
    HeaderFields(bs[0], sn, m, m.payload);
    Reassembled(bs);
    Reassembled(made);
    if Pack(sn, 8) == bs[1..9] {
      assert made == bs;
    }
  }

  lemma PackOnly(sn: nat, bs: Bytes)
    requires sn < Range(|bs|)
    ensures Pack(sn, |bs|) == bs <==> Unpack(bs) == sn
  {
    UnpackPack(sn, |bs|);
    PackUnpack(bs);
  }

  lemma AckIs(bs: Bytes)
    requires |bs| >= ACK_HEADER_SIZE && bs[0] == ACK
    ensures [ACK] + Pack(Unpack(bs[1..9]), 8) == bs <==> |bs| == ACK_HEADER_SIZE
  {
    PackUnpack(bs[1..9]);
    if |bs| == ACK_HEADER_SIZE {
      assert bs == [bs[0]] + bs[1..9];
    }
  }

  /**
   * Whatever is accepted is in range, and is byte for byte what its content is sent as, except that an acknowledgement
   * may be followed by anything and that a plain frame may carry any sequence number.
   */
  lemma ParsedIsEncoded(bs: Bytes)
    requires Parse(bs).Some?
    ensures var f := Parse(bs).value;
            && Fits(f)
            && (Encode(f) == Some(bs) <==>
                  match f
                  case Data(_, _) => true
                  case Ack(_) => |bs| == ACK_HEADER_SIZE
                  case Plain(_) => forall x :: 1 <= x < 9 ==> bs[x] == 0)
  {
    var f := Parse(bs).value;
    match f
    case Data(sn, m) =>
      HeaderIs(bs, sn);
      PackOnly(sn, bs[1..9]);
    case Ack(sn) =>
      AckIs(bs);
    case Plain(m) =>
      HeaderIs(bs, 0);
      PackOnly(0, bs[1..9]);
      UnpackIsZero(bs[1..9]);
      assert forall x :: 1 <= x < 9 ==> bs[x] == bs[1..9][x - 1];
  }

  // ---------- Markers and start requests ----------

  // "__MARKER__:" and "__START_SNAPSHOT__"
  const MARKER_PREFIX: Bytes := [95, 95, 77, 65, 82, 75, 69, 82, 95, 95, 58]
  const START_PREFIX: Bytes := [95, 95, 83, 84, 65, 82, 84, 95, 83, 78, 65, 80, 83, 72, 79, 84, 95, 95]
  const COLON: Byte := 58

  predicate IsMarker(payload: Bytes) {
    MARKER_PREFIX <= payload
  }

  predicate IsStart(payload: Bytes) {
    START_PREFIX <= payload
  }

  /** What follows the first colon. */
  function AfterColon(bs: Bytes): Bytes {
    if bs == [] then [] else if bs[0] == COLON then bs[1..] else AfterColon(bs[1..])
  }

  function MarkerOf(id: Bytes): Bytes {
    MARKER_PREFIX + id
  }

  lemma {:induction false} SkipToColon(before: Bytes, after: Bytes)
    requires COLON !in before
    ensures AfterColon(before + [COLON] + after) == after
    decreases |before|
  {
    var bs := before + [COLON] + after;
    if before == [] {
      assert bs[1..] == after;
    } else {
      assert bs[0] == before[0] && bs[1..] == before[1..] + [COLON] + after;
      SkipToColon(before[1..], after);
    }
  }

  /** A marker carries its id whatever bytes that holds, colons included; it is never a start request. */
  lemma MarkerCarriesId(id: Bytes)
    ensures IsMarker(MarkerOf(id)) && AfterColon(MarkerOf(id)) == id && !IsStart(MarkerOf(id))
  {
    assert MarkerOf(id) == MARKER_PREFIX[..10] + [COLON] + id;
    SkipToColon(MARKER_PREFIX[..10], id);
    assert MarkerOf(id)[2] == 77;
  }

  /** Every marker on the wire is the marker of the id that is read from it. */
  lemma MarkersAreTheirIds(payload: Bytes)
    ensures IsMarker(payload) <==> payload == MarkerOf(AfterColon(payload))
  {
    if IsMarker(payload) {
      var id := payload[|MARKER_PREFIX|..];
      assert payload == MarkerOf(id);
      MarkerCarriesId(id);
    }
  }
}
