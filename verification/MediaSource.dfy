/**
 `MediaSource`: the RTP clock of a demuxed file. What the demuxer delivers is a list of packets; where
 a seek lands in it is up to the demuxer.
 */
module MediaSource {
  import opened Basics
  import opened VideoStream

  datatype Packet = Packet(pts: int, key: bool, nals: seq<seq<byte>>)

  // file: the packets of the video stream; num/den: its time base in seconds.
  datatype Source = Source(
    file: seq<Packet>, num: nat, den: nat, sps: seq<byte>, pps: seq<byte>,
    pos: nat, rtpOffset: u32, firstPts: Option<int>, prefetch: Option<Frame>)

  function AtStart(s: Source): Source {
    s.(pos := 0, rtpOffset := 0, firstPts := None, prefetch := None)
  }

  // Where a seek to a time lands: the position found, on the 90 kHz clock, and the packet read next.
  datatype Probe = Probe(rtp: u32, land: nat)

  // av_rescale_q to 90 kHz: to the nearest integer, halves away from zero.
  function Rescale(x: int, num: nat, den: nat): int {
    if den == 0 then 0
    else if x >= 0 then (2 * (x * (num * 90000)) + den) / (2 * den)
    else -((2 * (-x * (num * 90000)) + den) / (2 * den))
  }

  function Anchor(s: Source): int
    requires s.pos < |s.file|
  {
    if s.firstPts.Some? then s.firstPts.value else s.file[s.pos].pts
  }

  function TimestampAt(s: Source): u32
    requires s.pos < |s.file|
  {
    (Rescale(s.file[s.pos].pts - Anchor(s), s.num, s.den) + s.rtpOffset) % TWO_32
  }

  datatype Reading = Reading(source: Source, frame: Option<Frame>)

  function ReadFile(s: Source): Reading {
    if s.pos >= |s.file| then Reading(s, None)
    else Reading(s.(pos := s.pos + 1, firstPts := Some(Anchor(s))),
                 Some(Frame(TimestampAt(s), s.file[s.pos].key, s.file[s.pos].nals)))
  }

  // A prefetched frame comes first.
  function Read(s: Source): Reading {
    if s.prefetch.Some? then Reading(s.(prefetch := None), s.prefetch) else ReadFile(s)
  }

  // Note that no seek drops the prefetched frame.
  function Seek(s: Source, offset: u32, land: nat): Source {
    s.(pos := land, rtpOffset := offset, firstPts := None)
  }

  function SeekToSeconds(s: Source, position: real, probe: Probe): Source {
    Seek(s, if position < 0.0 then 0 else probe.rtp, probe.land)
  }

  function AdjustRtpOffset(s: Source, delta: u32): Source {
    s.(rtpOffset := (s.rtpOffset + delta) % TWO_32)
  }

  datatype Peeked = Peeked(source: Source, timestamp: u32)

  function Peek(s: Source): Peeked {
    var r := Read(s);
    if s.prefetch.Some? then Peeked(s, s.prefetch.value.timestamp)
    else if r.frame.None? then Peeked(r.source, 0)
    else Peeked(r.source.(prefetch := r.frame), r.frame.value.timestamp)
  }

  class Demuxer {
    const file: seq<Packet>
    const num: nat
    const den: nat
    const sps: seq<byte>
    const pps: seq<byte>
    var pos: nat
    var rtpOffset: u32
    var firstPts: Option<int>
    var prefetch: Option<Frame>

    ghost function Model(): Source
      reads this
    {
      Source(file, num, den, sps, pps, pos, rtpOffset, firstPts, prefetch)
    }

    constructor (s: Source)
      ensures Model() == s
    {
      file, num, den, sps, pps := s.file, s.num, s.den, s.sps, s.pps;
      pos, rtpOffset, firstPts, prefetch := s.pos, s.rtpOffset, s.firstPts, s.prefetch;
    }

    method ReadPacket() returns (out: Option<Frame>)
      modifies this
      ensures Reading(Model(), out) == Read(old(Model()))
    {
      if prefetch.Some? {
        out := prefetch;
        prefetch := None;
        return;
      }
      if pos >= |file| {
        return None;
      }
      var p := file[pos];
      if firstPts.None? {
        firstPts := Some(p.pts);
      }
      var ts := (Rescale(p.pts - firstPts.value, num, den) + rtpOffset) % TWO_32;
      pos := pos + 1;
      out := Some(Frame(ts, p.key, p.nals));
    }

    method SeekTo(offset: u32, land: nat)
      modifies this
      ensures Model() == Seek(old(Model()), offset, land)
    {
      pos := land;
      rtpOffset := offset;
      firstPts := None;
    }

    method SeekSeconds(position: real, probe: Probe)
      modifies this
      ensures Model() == SeekToSeconds(old(Model()), position, probe)
    {
      if position < 0.0 {
        SeekTo(0, probe.land);
        return;
      }
      pos := probe.land;
      rtpOffset := probe.rtp;
      firstPts := None;
    }

    method AdjustOffset(delta: u32)
      modifies this
      ensures Model() == AdjustRtpOffset(old(Model()), delta)
    {
      rtpOffset := (rtpOffset + delta) % TWO_32;
    }

    method PeekTimestamp() returns (ts: u32)
      modifies this
      ensures Peeked(Model(), ts) == Peek(old(Model()))
    {
      if prefetch.Some? {
        return prefetch.value.timestamp;
      }
      var vp := ReadPacket();
      if vp.None? {
        return 0;
      }
      prefetch := vp;
      ts := vp.value.timestamp;
    }
  }

  /** The frame read after a seek is the one at the landing position exactly when nothing was prefetched. */
  lemma SeekThenRead(s: Source, offset: u32, land: nat)
    requires land < |s.file|
    ensures Read(Seek(s, offset, land)).source.pos == land + 1 <==> s.prefetch.None?
    ensures s.prefetch.Some? ==> Read(Seek(s, offset, land)).frame == s.prefetch
  {
  }

  /** Peeking announces the timestamp of the frame that is read next, and does not change which one that is. */
  lemma PeekIsNext(s: Source)
    ensures Read(Peek(s).source).frame == Read(s).frame
    ensures Read(s).frame.Some? ==> Peek(s).timestamp == Read(s).frame.value.timestamp
    ensures Read(s).frame.Some? ==> Read(Peek(s).source).source == Read(s).source
  {
  }

  lemma ReadNothing(s: Source)
    requires Read(s).frame.None?
    ensures Read(s).source == s && s.prefetch.None?
  {
  }

  // ---------- timestamps within one pass over the file ----------

  ghost predicate Sorted(file: seq<Packet>) {
    forall i, j | 0 <= i <= j < |file| :: file[i].pts <= file[j].pts
  }

  function Span(s: Source): int {
    if s.file == [] then 0 else Rescale(s.file[|s.file| - 1].pts - s.file[0].pts, s.num, s.den)
  }

  // Timestamps of this pass do not wrap around.
  ghost predicate Room(s: Source) {
    s.rtpOffset + Span(s) < TWO_32
  }

  ghost predicate WellFormed(s: Source) {
    && Sorted(s.file) && Room(s)
    && (s.firstPts.Some? ==>
          s.file != [] && s.file[0].pts <= s.firstPts.value
          && (s.pos < |s.file| ==> s.firstPts.value <= s.file[s.pos].pts))
  }

  // No packet still to come from the file has a timestamp below b.
  ghost predicate Ahead(s: Source, b: int) {
    (s.firstPts.None? ==> b <= s.rtpOffset)
    && (s.firstPts.Some? && s.pos < |s.file|
        ==> b <= s.rtpOffset + Rescale(s.file[s.pos].pts - s.firstPts.value, s.num, s.den))
  }

  lemma MulMono(x: nat, y: nat, k: nat)
    requires x <= y
    ensures x * k <= y * k
  {
  }

  lemma DivMono(a: nat, b: nat, d: nat)
    requires a <= b && d > 0
    ensures a / d <= b / d
  {
    if a / d > b / d {
      MulMono(b / d + 1, a / d, d);
    }
  }

  lemma RescaleMonoNat(x: nat, y: nat, num: nat, den: nat)
    requires x <= y
    ensures 0 <= Rescale(x, num, den) <= Rescale(y, num, den)
  {
    if den > 0 {
      MulMono(x, y, num * 90000);
      MulMono(0, x, num * 90000);
      DivMono(0, 2 * (x * (num * 90000)) + den, 2 * den);
      DivMono(2 * (x * (num * 90000)) + den, 2 * (y * (num * 90000)) + den, 2 * den);
    }
  }

  // Halves are rounded away from zero on both sides.
  lemma RescaleOdd(x: int, num: nat, den: nat)
    ensures Rescale(-x, num, den) == -Rescale(x, num, den)
  {
    RescaleZero(num, den);
  }

  /** The conversion keeps the order of time stamps and their sign. */
  lemma RescaleMono(x: int, y: int, num: nat, den: nat)
    requires x <= y
    ensures Rescale(x, num, den) <= Rescale(y, num, den)
    ensures x >= 0 ==> Rescale(x, num, den) >= 0
  {
    hide Rescale;
    if x >= 0 {
      RescaleMonoNat(x, y, num, den);
    } else {
      RescaleOdd(x, num, den);
      if y < 0 {
        RescaleOdd(y, num, den);
        RescaleMonoNat(-y, -x, num, den);
      } else {
        RescaleMonoNat(0, -x, num, den);
        RescaleMonoNat(0, y, num, den);
      }
    }
  }

  lemma RescaleZero(num: nat, den: nat)
    ensures Rescale(0, num, den) == 0
  {
    if den > 0 {
      assert (2 * (0 * (num * 90000)) + den) / (2 * den) == 0;
    }
  }

  /** A packet's timestamp is not below what was promised, and later packets are not below it. */
  lemma ReadFileKeepsAhead(s: Source, b: int)
    requires WellFormed(s) && Ahead(s, b) && s.pos < |s.file|
    ensures var r := ReadFile(s);
            && b <= r.frame.value.timestamp
            && WellFormed(r.source) && Ahead(r.source, r.frame.value.timestamp)
  {
    hide Rescale;
    var f := Anchor(s);
    var last := s.file[|s.file| - 1].pts;
    RescaleZero(s.num, s.den);
    RescaleMono(s.file[s.pos].pts - f, last - s.file[0].pts, s.num, s.den);
    if s.pos + 1 < |s.file| {
      RescaleMono(s.file[s.pos].pts - f, s.file[s.pos + 1].pts - f, s.num, s.den);
    }
  }

  lemma SeekIsAhead(s: Source, offset: u32, land: nat, b: int)
    requires Sorted(s.file) && offset + Span(s) < TWO_32 && b <= offset
    ensures WellFormed(Seek(s, offset, land)) && Ahead(Seek(s, offset, land), b)
  {
  }

  // ---------- the value of a timestamp ----------

  // t is a / den to the nearest integer, halves away from zero.
  predicate Nearest(t: int, a: int, den: nat) {
    var twice := 2 * (t * den - a);
    && 0 - den <= twice <= den
    && (twice == den ==> a > 0) && (twice == 0 - den ==> a < 0)
  }

  // There is only one.
  lemma NearestIsUnique(t: int, u: int, a: int, den: nat)
    requires den > 0 && Nearest(t, a, den) && Nearest(u, a, den)
    ensures t == u
  {
    Apart(t, u, den);
    Apart(u, t, den);
  }

  lemma Apart(t: int, u: int, den: nat)
    ensures t > u ==> t * den - u * den >= den
  {
    if t > u {
      assert t * den - u * den == (t - u) * den;
      MulMono(1, t - u, den);
    }
  }

  lemma DivBounds(n: int, d: nat)
    requires d > 0
    ensures n / d * d <= n < n / d * d + d
  {
  }

  lemma RoundedNat(a: nat, den: nat)
    requires den > 0
    ensures Nearest((2 * a + den) / (2 * den), a, den)
  {
    var t := (2 * a + den) / (2 * den);
    DivBounds(2 * a + den, 2 * den);
    assert t * (2 * den) == 2 * (t * den);
  }

  lemma RescaleIsNearest(x: int, num: nat, den: nat)
    requires den > 0
    ensures Nearest(Rescale(x, num, den), x * num * 90000, den)
  {
    if x >= 0 {
      MulMono(0, x, num * 90000);
      RoundedNat(x * (num * 90000), den);
    } else {
      MulMono(0, -x, num * 90000);
      RoundedNat(-x * (num * 90000), den);
      Negated((2 * (-x * (num * 90000)) + den) / (2 * den), -x * (num * 90000), den);
      assert -(-x * (num * 90000)) == x * (num * 90000);
    }
    assert x * (num * 90000) == x * num * 90000;
  }

  lemma Negated(t: int, a: nat, den: nat)
    requires den > 0 && Nearest(t, a, den)
    ensures Nearest(-t, 0 - a, den)
  {
    assert (-t) * den == -(t * den);
  }

  // The one integer nearest to the distance on the 90 kHz clock; a time base without a denominator has none.
  ghost predicate Stamped(t: int, distance: int, num: nat, den: nat) {
    if den == 0 then t == 0 else Nearest(t, distance * num * 90000, den)
  }

  /**
   What is read from the file carries, modulo 2^32, the offset plus its distance from the first packet after
   the seek, on the 90 kHz clock to the nearest tick. That first packet carries the offset itself.
   */
  lemma FrameIsStamped(s: Source) returns (t: int)
    requires s.prefetch.None? && s.pos < |s.file|
    ensures var r := Read(s);
            var first := if s.firstPts.Some? then s.firstPts.value else s.file[s.pos].pts;
            && r.frame.Some? && r.source.firstPts == Some(first) && r.source.pos == s.pos + 1
            && Stamped(t, s.file[s.pos].pts - first, s.num, s.den)
            && r.frame.value == Frame((s.rtpOffset + t) % TWO_32, s.file[s.pos].key, s.file[s.pos].nals)
            && (s.firstPts.None? ==> r.frame.value.timestamp == s.rtpOffset)
  {
    hide Rescale, Nearest;
    t := Rescale(s.file[s.pos].pts - Anchor(s), s.num, s.den);
    if s.den > 0 {
      RescaleIsNearest(s.file[s.pos].pts - Anchor(s), s.num, s.den);
    } else {
      RescaledByNothing(s.file[s.pos].pts - Anchor(s), s.num);
    }
    RescaleZero(s.num, s.den);
  }

  lemma RescaledByNothing(x: int, num: nat)
    ensures Rescale(x, num, 0) == 0
  {
  }
}
