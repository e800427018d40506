/**
 From a frame to the bytes on the RTSP connection and back: the pacer's choice of NAL units, their
 packets, and the interleaved frames (section 10.12 of RFC 2326), against a strict receiver that
 accepts nothing but consecutive sequence numbers, one timestamp for each access unit, and a marker
 exactly where no NAL unit is half received.
 */
module VideoStream {
  import opened Basics
  import H = H264Packetizer
  import R = RtpPacket

  datatype Frame = Frame(timestamp: u32, key: bool, nals: seq<seq<byte>>)

  // Parameter sets announced in the container, and the transport of the session.
  datatype Stream = Stream(sps: seq<byte>, pps: seq<byte>, payloadType: byte, ssrc: u32, channel: int)

  // ---------- which NAL units are sent ----------

  predicate IsParameterSet(nal: seq<byte>) {
    nal != [] && (nal[0] % 32 == 7 || nal[0] % 32 == 8)
  }

  function Kept(key: bool, nals: seq<seq<byte>>): seq<seq<byte>> {
    if nals == [] then []
    else (if nals[0] == [] || (key && IsParameterSet(nals[0])) then [] else [nals[0]]) + Kept(key, nals[1..])
  }

  function ParameterSets(s: Stream): seq<seq<byte>> {
    (if s.sps == [] then [] else [s.sps]) + (if s.pps == [] then [] else [s.pps])
  }

  // Key frames carry the known parameter sets in front, instead of their own.
  function NalList(s: Stream, f: Frame): seq<seq<byte>> {
    (if f.key then ParameterSets(s) else []) + Kept(f.key, f.nals)
  }

  lemma {:induction false} KeptAppend(key: bool, a: seq<seq<byte>>, b: seq<seq<byte>>)
    ensures Kept(key, a + b) == Kept(key, a) + Kept(key, b)
    decreases |a|
  {
    if a == [] {
      assert a + b == b;
    } else {
      assert (a + b)[0] == a[0] && (a + b)[1..] == a[1..] + b;
      KeptAppend(key, a[1..], b);
    }
  }

  // How often a NAL unit is there.
  function Times(nals: seq<seq<byte>>, x: seq<byte>): nat {
    if nals == [] then 0 else (if nals[0] == x then 1 else 0) + Times(nals[1..], x)
  }

  lemma {:induction false} TimesAppend(a: seq<seq<byte>>, b: seq<seq<byte>>, x: seq<byte>)
    ensures Times(a + b, x) == Times(a, x) + Times(b, x)
  {
    if a == [] {
      assert a + b == b;
    } else {
      assert (a + b)[0] == a[0] && (a + b)[1..] == a[1..] + b;
      TimesAppend(a[1..], b, x);
    }
  }

  lemma {:induction false} KeptTimes(key: bool, nals: seq<seq<byte>>, x: seq<byte>)
    ensures Times(Kept(key, nals), x)
         == if x == [] || (key && (x[0] as int % 32 == 7 || x[0] as int % 32 == 8)) then 0 else Times(nals, x)
  {
    if nals != [] {
      var first := if nals[0] == [] || (key && IsParameterSet(nals[0])) then [] else [nals[0]];
      KeptTimes(key, nals[1..], x);
      TimesAppend(first, Kept(key, nals[1..]), x);
      TimesOne(nals[0], x);
    }
  }

  lemma TimesOne(y: seq<byte>, x: seq<byte>)
    ensures Times([y], x) == (if y == x then 1 else 0) && Times([], x) == 0
  {
    assert [y][1..] == [];
  }

  /**
   What is sent of a frame, NAL unit by NAL unit: every one of a frame that is not a key frame, but for empty ones;
   of a key frame those that are no parameter sets (types 7 and 8), behind the known ones. Splitting the frame
   anywhere splits what is sent, so the order is that of the frame.
   */
  lemma SentOfFrame(s: Stream, f: Frame, x: seq<byte>, k: nat)
    requires k <= |f.nals|
    ensures var front := if !f.key then []
                         else (if s.sps == [] then [] else [s.sps]) + (if s.pps == [] then [] else [s.pps]);
            && front <= NalList(s, f)
            && Times(NalList(s, f)[|front|..], x)
               == (if x == [] || (f.key && (x[0] as int % 32 == 7 || x[0] as int % 32 == 8)) then 0
                   else Times(f.nals, x))
            && NalList(s, f)[|front|..] == Kept(f.key, f.nals[..k]) + Kept(f.key, f.nals[k..])
  {
    KeptTimes(f.key, f.nals, x);
    KeptAppend(f.key, f.nals[..k], f.nals[k..]);
    assert f.nals[..k] + f.nals[k..] == f.nals;
    var front := if f.key then ParameterSets(s) else [];
    assert NalList(s, f)[|front|..] == Kept(f.key, f.nals);
  }

  // ---------- packets ----------

  // The payloads of a list of NAL units, in order.
  function Payloads(nals: seq<seq<byte>>): seq<H.Packet> {
    if nals == [] then [] else H.Packets(nals[0], H.DEFAULT_MTU) + Payloads(nals[1..])
  }

  // The marker goes on the last packet, if these are the packets of the last NAL unit.
  function Mark(ps: seq<H.Packet>, lastNal: bool): seq<H.Packet> {
    seq(|ps|, i requires 0 <= i < |ps| => H.Packet(ps[i].payload, lastNal && i == |ps| - 1))
  }

  // Numbered and stamped.
  function Rtp(s: Stream, ps: seq<H.Packet>, sequence: u16, timestamp: u32): seq<R.Packet>
    decreases |ps|
  {
    if ps == [] then []
    else [R.Packet(s.payloadType, sequence, timestamp, s.ssrc, ps[0].marker, ps[0].payload)]
         + Rtp(s, ps[1..], (sequence + 1) % TWO_16, timestamp)
  }

  function Interleaved(channel: int, data: seq<byte>): seq<byte> {
    ['$' as int as byte, (channel % 256) as byte] + BigEndian16(|data| % TWO_16) + data
  }

  function Framed(s: Stream, p: R.Packet): seq<byte> {
    Interleaved(s.channel, R.Encode(p))
  }

  function Wire(s: Stream, ps: seq<R.Packet>): seq<seq<byte>> {
    seq(|ps|, i requires 0 <= i < |ps| => Framed(s, ps[i]))
  }

  function FramePackets(s: Stream, f: Frame, sequence: u16): seq<R.Packet> {
    Rtp(s, Mark(Payloads(NalList(s, f)), true), sequence, f.timestamp)
  }

  // ---------- step 8 of the tick ----------

  lemma KeptSnoc(key: bool, nals: seq<seq<byte>>, nal: seq<byte>)
    ensures Kept(key, nals + [nal]) == Kept(key, nals) + Kept(key, [nal])
  {
    if nals == [] {
      assert [] + [nal] == [nal];
    } else {
      KeptSnoc(key, nals[1..], nal);
      assert (nals + [nal])[1..] == nals[1..] + [nal];
    }
  }

  method ChooseNals(s: Stream, f: Frame) returns (list: seq<seq<byte>>)
    ensures list == NalList(s, f)
  {
    hide IsParameterSet;
    list := [];
    if f.key {
      if s.sps != [] {
        list := list + [s.sps];
      }
      if s.pps != [] {
        list := list + [s.pps];
      }
    }
    ghost var sets := list;
    for i := 0 to |f.nals|
      invariant list == sets + Kept(f.key, f.nals[..i])
    {
      KeptSnoc(f.key, f.nals[..i], f.nals[i]);
      assert f.nals[..i + 1] == f.nals[..i] + [f.nals[i]];
      var nal := f.nals[i];
      if nal != [] && !(f.key && IsParameterSet(nal)) {
        list := list + [nal];
      }
    }
    assert f.nals[..|f.nals|] == f.nals;
  }

  lemma {:induction false} PayloadsAppend(a: seq<seq<byte>>, b: seq<seq<byte>>)
    ensures Payloads(a + b) == Payloads(a) + Payloads(b)
    decreases |a|
  {
    if a == [] {
      assert a + b == b;
    } else {
      PayloadsAppend(a[1..], b);
      assert (a + b)[1..] == a[1..] + b;
      Assoc(H.Packets(a[0], H.DEFAULT_MTU), Payloads(a[1..]), Payloads(b));
    }
  }

  ghost predicate AllNonEmpty(nals: seq<seq<byte>>) {
    forall i | 0 <= i < |nals| :: nals[i] != []
  }

  lemma {:induction false} KeptNonEmpty(key: bool, nals: seq<seq<byte>>)
    ensures AllNonEmpty(Kept(key, nals))
  {
    if nals != [] {
      KeptNonEmpty(key, nals[1..]);
    }
  }

  lemma NalListNonEmpty(s: Stream, f: Frame)
    ensures AllNonEmpty(NalList(s, f))
  {
    KeptNonEmpty(f.key, f.nals);
  }

  lemma PayloadsNonEmpty(nals: seq<seq<byte>>)
    requires AllNonEmpty(nals) && nals != []
    ensures Payloads(nals) != []
  {
    if |nals[0]| > H.DEFAULT_MTU {
      assert H.Packets(nals[0], H.DEFAULT_MTU)[0] == H.Fragment(nals[0], 1, H.DEFAULT_MTU - 2);
    }
  }

  lemma ModSum(a: nat, b: nat)
    ensures (a % TWO_16 + b) % TWO_16 == (a + b) % TWO_16
  {
  }

  lemma {:induction false} RtpAppend(s: Stream, ps: seq<H.Packet>, qs: seq<H.Packet>, sequence: u16, ts: u32)
    ensures Rtp(s, ps + qs, sequence, ts)
         == Rtp(s, ps, sequence, ts) + Rtp(s, qs, (sequence + |ps|) % TWO_16, ts)
    decreases |ps|
  {
    if ps == [] {
      assert ps + qs == qs;
    } else {
      RtpAppend(s, ps[1..], qs, (sequence + 1) % TWO_16, ts);
      ModSum(sequence + 1, |ps| - 1);
      assert (ps + qs)[1..] == ps[1..] + qs && (ps + qs)[0] == ps[0];
    }
  }

  lemma WireAppend(s: Stream, ps: seq<R.Packet>, qs: seq<R.Packet>)
    ensures Wire(s, ps + qs) == Wire(s, ps) + Wire(s, qs)
  {
  }

  lemma PayloadsSplit(list: seq<seq<byte>>, ni: nat)
    requires AllNonEmpty(list) && ni < |list|
    ensures Payloads(list[..ni + 1]) == Payloads(list[..ni]) + H.Packets(list[ni], H.DEFAULT_MTU)
    ensures H.Packets(list[ni], H.DEFAULT_MTU) != []
  {
    PayloadsAppend(list[..ni], [list[ni]]);
    assert Payloads([list[ni]]) == H.Packets(list[ni], H.DEFAULT_MTU) + Payloads([]);
    assert list[..ni + 1] == list[..ni] + [list[ni]];
    PayloadsNonEmpty([list[ni]]);
  }

  lemma MarkSplit(ps: seq<H.Packet>, qs: seq<H.Packet>, lastNal: bool)
    requires qs != []
    ensures Mark(ps + qs, lastNal) == Mark(ps, false) + Mark(qs, lastNal)
  {
  }

  method SendVideoRtp(s: Stream, payload: seq<byte>, sequence: u16, timestamp: u32, marker: bool)
    returns (frame: seq<byte>, sequence': u16)
    ensures frame == Framed(s, R.Packet(s.payloadType, sequence, timestamp, s.ssrc, marker, payload))
    ensures sequence' == (sequence + 1) % TWO_16
  {
    var pkt := R.Build(payload, s.payloadType, sequence, timestamp, s.ssrc, marker);
    frame := Interleaved(s.channel, pkt[..]);
    sequence' := (sequence + 1) % TWO_16;
  }

  // The frames of these packets, and the sequence number that comes next.
  ghost predicate Sent(s: Stream, ps: seq<H.Packet>, sequence: u16, ts: u32, frames: seq<seq<byte>>, next: u16) {
    frames == Wire(s, Rtp(s, ps, sequence, ts)) && next == (sequence + |ps|) % TWO_16
  }

  lemma SentAppend(s: Stream, ps: seq<H.Packet>, sequence: u16, ts: u32, frames: seq<seq<byte>>, middle: u16,
                   qs: seq<H.Packet>, frames': seq<seq<byte>>, next: u16)
    requires Sent(s, ps, sequence, ts, frames, middle) && Sent(s, qs, middle, ts, frames', next)
    ensures Sent(s, ps + qs, sequence, ts, frames + frames', next)
  {
    RtpAppend(s, ps, qs, sequence, ts);
    WireAppend(s, Rtp(s, ps, sequence, ts), Rtp(s, qs, middle, ts));
    ModSum(sequence + |ps|, |qs|);
  }

  lemma SentOne(s: Stream, p: H.Packet, sequence: u16, ts: u32)
    ensures Sent(s, [p], sequence, ts,
                 [Framed(s, R.Packet(s.payloadType, sequence, ts, s.ssrc, p.marker, p.payload))],
                 (sequence + 1) % TWO_16)
  {
    var r := R.Packet(s.payloadType, sequence, ts, s.ssrc, p.marker, p.payload);
    assert [p][1..] == [] && [r][1..] == [];
    assert Rtp(s, [p], sequence, ts) == [r];
    assert Wire(s, [r]) == [Framed(s, r)];
  }

  method SendNal(s: Stream, nal: seq<byte>, lastNal: bool, sequence: u16, timestamp: u32)
    returns (frames: seq<seq<byte>>, sequence': u16)
    ensures Sent(s, Mark(H.Packets(nal, H.DEFAULT_MTU), lastNal), sequence, timestamp, frames, sequence')
  {
    var payloads := H.Packetize(nal, H.DEFAULT_MTU);
    ghost var marked := Mark(payloads, lastNal);
    frames, sequence' := [], sequence;
    for pi := 0 to |payloads|
      invariant Sent(s, marked[..pi], sequence, timestamp, frames, sequence')
    {
      var marker := lastNal && pi == |payloads| - 1;
      SentOne(s, marked[pi], sequence', timestamp);
      var frame, next := SendVideoRtp(s, payloads[pi].payload, sequence', timestamp, marker);
      SentAppend(s, marked[..pi], sequence, timestamp, frames, sequence', [marked[pi]], [frame], next);
      assert marked[..pi + 1] == marked[..pi] + [marked[pi]];
      frames, sequence' := frames + [frame], next;
    }
    assert marked[..|payloads|] == marked;
  }

  /** Sends one frame: every packet framed for the connection, the sequence number moved on by their number. */
  method SendFrame(s: Stream, f: Frame, sequence: u16) returns (frames: seq<seq<byte>>, sequence': u16)
    ensures frames == Wire(s, FramePackets(s, f, sequence))
    ensures sequence' == (sequence + |Payloads(NalList(s, f))|) % TWO_16
  {
    var list := ChooseNals(s, f);
    NalListNonEmpty(s, f);
    frames, sequence' := [], sequence;
    for ni := 0 to |list|
      invariant Sent(s, Mark(Payloads(list[..ni]), ni == |list|), sequence, f.timestamp, frames, sequence')
    {
      ghost var done, own := Payloads(list[..ni]), H.Packets(list[ni], H.DEFAULT_MTU);
      var lastNal := ni == |list| - 1;
      var more, next := SendNal(s, list[ni], lastNal, sequence', f.timestamp);
      SentAppend(s, Mark(done, false), sequence, f.timestamp, frames, sequence', Mark(own, lastNal), more, next);
      PayloadsSplit(list, ni);
      MarkSplit(done, own, lastNal);
      frames, sequence' := frames + more, next;
    }
    assert list[..|list|] == list;
  }
}
