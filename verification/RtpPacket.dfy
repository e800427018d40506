/** RTP packets (section 5.1 of RFC 3550): the twelve-byte header in front of a payload. */
module RtpPacket {
  import opened Basics

  const HEADER_SIZE: nat := 12

  datatype Packet = Packet(
    payloadType: byte, sequence: u16, timestamp: u32, ssrc: u32, marker: bool, payload: seq<byte>)

  function Header(p: Packet): (h: seq<byte>)
    ensures |h| == HEADER_SIZE
  {
    [0x80, (if p.marker then 0x80 else 0) + p.payloadType % 128]
    + BigEndian16(p.sequence) + BigEndian32(p.timestamp) + BigEndian32(p.ssrc)
  }

  lemma HeaderParts(p: Packet, head: seq<byte>)
    requires |head| == 4 && head[0] == 0x80 && head[1] == (if p.marker then 0x80 else 0) + p.payloadType % 128
    requires head[2] == (p.sequence / 256) as byte && head[3] == (p.sequence % 256) as byte
    ensures Header(p) == head + BigEndian32(p.timestamp) + BigEndian32(p.ssrc)
  {
    hide BigEndian32;
  }

  function Encode(p: Packet): seq<byte> {
    Header(p) + p.payload
  }

  method PutBigEndian32(pkt: array<byte>, at: nat, n: u32)
    requires at + 4 <= pkt.Length
    modifies pkt
    ensures pkt[..] == old(pkt[..at]) + BigEndian32(n) + old(pkt[at + 4..])
  {
    hide BigEndian32;
    BigEndian32Bytes(n);
    pkt[at] := (n / 0x100_0000) as byte;
    pkt[at + 1] := (n / 0x1_0000 % 256) as byte;
    pkt[at + 2] := (n / 256 % 256) as byte;
    pkt[at + 3] := (n % 256) as byte;
  }

  method Build(payload: seq<byte>, payloadType: byte, sequence: u16, timestamp: u32, ssrc: u32, marker: bool)
    returns (pkt: array<byte>)
    ensures fresh(pkt)
    ensures pkt[..] == Encode(Packet(payloadType, sequence, timestamp, ssrc, marker, payload))
  {
    hide BigEndian32, BigEndian16, Header;
    pkt := new byte[HEADER_SIZE + |payload|];
    forall i | 0 <= i < |payload| {
      pkt[HEADER_SIZE + i] := payload[i];
    }
    assert pkt[HEADER_SIZE..] == payload;
    pkt[0] := 0x80;
    pkt[1] := (if marker then 0x80 else 0) + payloadType % 128;
    pkt[2] := (sequence / 256) as byte;
    pkt[3] := (sequence % 256) as byte;
    ghost var head := pkt[..4];
    PutBigEndian32(pkt, 4, timestamp);
    assert pkt[..8] == head + BigEndian32(timestamp) && pkt[HEADER_SIZE..] == payload;
    PutBigEndian32(pkt, 8, ssrc);
    HeaderParts(Packet(payloadType, sequence, timestamp, ssrc, marker, payload), head);
  }

  // Version 2, no padding, no extension, no contributing sources: the only form the server sends.
  function Decode(b: seq<byte>): Option<Packet> {
    if |b| < HEADER_SIZE || b[0] != 0x80 then None
    else Some(Packet(b[1] % 128, FromBigEndian16(b[2], b[3]), FromBigEndian32(b[4], b[5], b[6], b[7]),
                     FromBigEndian32(b[8], b[9], b[10], b[11]), b[1] >= 0x80, b[HEADER_SIZE..]))
  }

  // The bytes of the header, field by field.
  lemma HeaderFields(p: Packet)
    ensures var h := Header(p); var q, t, s := BigEndian16(p.sequence), BigEndian32(p.timestamp), BigEndian32(p.ssrc);
            && h[0] == 0x80 && h[1] == (if p.marker then 0x80 else 0) + p.payloadType % 128
            && h[2] == q[0] && h[3] == q[1]
            && h[4] == t[0] && h[5] == t[1] && h[6] == t[2] && h[7] == t[3]
            && h[8] == s[0] && h[9] == s[1] && h[10] == s[2] && h[11] == s[3]
  {
    hide BigEndian16, BigEndian32;
  }

  /** A receiver reads back every header field and the payload; only the low seven bits of the type are sent. */
  lemma DecodeEncode(p: Packet)
    ensures Decode(Encode(p)) == Some(p.(payloadType := p.payloadType % 128))
  {
    hide BigEndian16, BigEndian32, FromBigEndian16, FromBigEndian32, Header;
    var b := Encode(p);
    var h := Header(p);
    assert b[HEADER_SIZE..] == p.payload;
    assert forall i | 0 <= i < HEADER_SIZE :: b[i] == h[i];
    HeaderFields(p);
    RoundTrip16(p.sequence);
    RoundTrip32(p.timestamp);
    RoundTrip32(p.ssrc);
  }
}
