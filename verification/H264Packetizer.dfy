/**
 H.264 payloads for RTP (RFC 6184): single NAL unit packets and FU-A fragments, and the receiver
 that puts NAL units together again (section 5.8).
 */
module H264Packetizer {
  import opened Basics

  const DEFAULT_MTU: nat := 1400

  datatype Packet = Packet(payload: seq<byte>, marker: bool)

  // The bit masks of the source on a byte h, as arithmetic: h & 0x1F is h % 32, h & 0x60 is
  // h / 32 % 4 * 32, and `|` joins disjoint bits, which is addition.
  function Indicator(h: byte): byte {
    h / 32 % 4 * 32 + 28
  }

  function FuHeader(h: byte, first: bool, last: bool): byte {
    h % 32 + (if first then 0x80 else 0) + (if last then 0x40 else 0)
  }

  // `mtu - 2` in the source's unsigned 64-bit arithmetic.
  function FragmentSize(mtu: nat): nat {
    (mtu - 2) % TWO_64
  }

  // With an MTU of two the fragment loop makes no progress.
  predicate Terminates(nal: seq<byte>, mtu: nat) {
    |nal| <= mtu || FragmentSize(mtu) > 0
  }

  function Fragment(nal: seq<byte>, off: nat, size: nat): Packet
    requires 1 <= off < |nal| && size > 0
  {
    var end := Min(|nal|, off + size);
    Packet([Indicator(nal[0]), FuHeader(nal[0], off == 1, end == |nal|)] + nal[off..end], end == |nal|)
  }

  function Fragments(nal: seq<byte>, off: nat, size: nat): seq<Packet>
    requires 1 <= off && size > 0
    decreases |nal| - off
  {
    if off >= |nal| then [] else [Fragment(nal, off, size)] + Fragments(nal, off + size, size)
  }

  function Packets(nal: seq<byte>, mtu: nat): seq<Packet>
    requires Terminates(nal, mtu)
  {
    if nal == [] then []
    else if |nal| <= mtu then [Packet(nal, true)]
    else Fragments(nal, 1, FragmentSize(mtu))
  }

  lemma NextFragment(nal: seq<byte>, off: nat, size: nat, chunk: nat)
    requires 1 <= off < |nal| && size > 0 && chunk == Min(|nal| - off, size)
    ensures var last := chunk == |nal| - off;
            Fragments(nal, off, size)
            == [Packet([Indicator(nal[0]), FuHeader(nal[0], off == 1, last)] + nal[off..off + chunk], last)]
               + Fragments(nal, off + chunk, size)
  {
    hide Indicator, FuHeader;
  }

  // ---------- the fragment loop, step by step ----------

  datatype Loop = Loop(off: nat, packets: seq<Packet>)

  function LoopStep(nal: seq<byte>, mtu: nat, l: Loop): (r: Loop)
    requires 1 <= l.off <= |nal|
    ensures l.off <= r.off <= |nal|
  {
    if l.off == |nal| then l
    else
      var chunk := Min(|nal| - l.off, FragmentSize(mtu));
      var last := chunk == |nal| - l.off;
      Loop(l.off + chunk,
           l.packets + [Packet([Indicator(nal[0]), FuHeader(nal[0], l.packets == [], last)]
                               + nal[l.off..l.off + chunk], last)])
  }

  function LoopAfter(nal: seq<byte>, mtu: nat, steps: nat): (l: Loop)
    requires nal != []
    ensures 1 <= l.off <= |nal|
  {
    if steps == 0 then Loop(1, []) else LoopStep(nal, mtu, LoopAfter(nal, mtu, steps - 1))
  }

  lemma {:induction false} LoopSoFar(nal: seq<byte>, mtu: nat, steps: nat)
    requires |nal| > mtu && FragmentSize(mtu) > 0
    ensures var l := LoopAfter(nal, mtu, steps);
            && l.packets + Fragments(nal, l.off, FragmentSize(mtu)) == Packets(nal, mtu)
            && l.off >= Min(|nal|, 1 + steps) && (l.off < |nal| ==> (l.packets == [] <==> l.off == 1))
  {
    hide Indicator, FuHeader, FragmentSize, Fragments;
    if steps == 0 {
      assert [] + Packets(nal, mtu) == Packets(nal, mtu);
    } else {
      var l := LoopAfter(nal, mtu, steps - 1);
      LoopSoFar(nal, mtu, steps - 1);
      if l.off < |nal| {
        var chunk := Min(|nal| - l.off, FragmentSize(mtu));
        var r := LoopStep(nal, mtu, l);
        NextFragment(nal, l.off, FragmentSize(mtu), chunk);
        assert r.packets == l.packets + [r.packets[|l.packets|]];
        Assoc(l.packets, [r.packets[|l.packets|]], Fragments(nal, r.off, FragmentSize(mtu)));
      }
    }
  }

  lemma LoopYields(nal: seq<byte>, mtu: nat, steps: nat)
    requires |nal| > mtu && FragmentSize(mtu) > 0 && LoopAfter(nal, mtu, steps).off == |nal|
    ensures LoopAfter(nal, mtu, steps).packets == Packets(nal, mtu)
  {
    LoopSoFar(nal, mtu, steps);
    assert Fragments(nal, |nal|, FragmentSize(mtu)) == [];
  }

  // Chunks of no bytes: a packet for every step, and the offset stays where it is.
  lemma {:induction false} LoopStandsStill(nal: seq<byte>, mtu: nat, steps: nat)
    requires !Terminates(nal, mtu)
    ensures |nal| > 2 && LoopAfter(nal, mtu, steps).off == 1 && |LoopAfter(nal, mtu, steps).packets| == steps
  {
    if steps > 0 {
      LoopStandsStill(nal, mtu, steps - 1);
    }
  }

  /** The loop reaches the end of the NAL unit if and only if the call returns by `Terminates`. */
  lemma LoopEndsIff(nal: seq<byte>, mtu: nat)
    requires |nal| > mtu
    ensures (exists steps: nat :: LoopAfter(nal, mtu, steps).off == |nal|) <==> Terminates(nal, mtu)
  {
    hide LoopAfter, FragmentSize;
    if Terminates(nal, mtu) {
      LoopSoFar(nal, mtu, |nal|);
      assert LoopAfter(nal, mtu, |nal|).off == |nal|;
    } else {
      forall steps: nat ensures LoopAfter(nal, mtu, steps).off != |nal| {
        LoopStandsStill(nal, mtu, steps);
      }
    }
  }

  /** The one MTU on which the call does not return is two, with a larger NAL unit. */
  lemma TerminatesIff(nal: seq<byte>, mtu: nat)
    requires mtu < TWO_64
    ensures Terminates(nal, mtu) <==> |nal| <= mtu || mtu != 2
  {
  }

  method Packetize(nal: seq<byte>, mtu: nat) returns (packets: seq<Packet>)
    requires Terminates(nal, mtu)
    ensures packets == Packets(nal, mtu)
  {
    if nal == [] {
      return [];
    }
    packets := [];
    if |nal| <= mtu {
      return [Packet(nal, true)];
    }
    var fuIndicator := Indicator(nal[0]);
    var off: nat := 1;
    var first := true;
    var fragmentSize := FragmentSize(mtu);
    ghost var steps: nat := 0;
    while off < |nal|
      invariant 1 <= off <= |nal| && (first <==> packets == [])
      invariant Loop(off, packets) == LoopAfter(nal, mtu, steps)
    {
      var chunk := Min(|nal| - off, fragmentSize);
      var last := chunk == |nal| - off;
      var fuHeader := FuHeader(nal[0], first, last);
      packets := packets + [Packet([fuIndicator, fuHeader] + nal[off..off + chunk], last)];
      off := off + chunk;
      first := false;
      steps := steps + 1;
    }
    LoopYields(nal, mtu, steps);
  }

  // What a call comes to, if it returns.
  function Outcome(nal: seq<byte>, mtu: nat): Option<seq<Packet>> {
    if Terminates(nal, mtu) then Some(Packets(nal, mtu)) else None
  }

  // ---------- what the fragments look like ----------

  // n is left / size, rounded up.
  ghost predicate IsCeil(n: int, left: int, size: int) {
    (n - 1) * size < left <= n * size
  }

  lemma CeilStep(n: int, left: int, size: int)
    requires IsCeil(n, left, size)
    ensures IsCeil(n + 1, left + size, size)
  {
    assert (n + 1) * size == n * size + size;
  }

  /** ceil((|nal| - off) / size) fragments. */
  lemma {:induction false} FragmentCount(nal: seq<byte>, off: nat, size: nat)
    requires 1 <= off < |nal| && size > 0
    ensures IsCeil(|Fragments(nal, off, size)|, |nal| - off, size)
    decreases |nal| - off
  {
    if off + size < |nal| {
      FragmentCount(nal, off + size, size);
      CeilStep(|Fragments(nal, off + size, size)|, |nal| - off - size, size);
    } else {
      assert Fragments(nal, off + size, size) == [];
    }
  }

  // Type 28 in the indicator, the NAL unit's own type in the FU header, S on the first fragment only,
  // E and marker on the last only.
  ghost predicate WellShaped(nal: seq<byte>, p: Packet, first: bool, last: bool, size: nat)
    requires nal != []
  {
    && 3 <= |p.payload| <= size + 2
    && p.payload[0] % 32 == 28 && p.payload[0] / 32 == nal[0] / 32 % 4
    && p.payload[1] % 32 == nal[0] % 32
    && (p.payload[1] >= 0x80 <==> first)
    && (p.payload[1] / 0x40 % 2 == 1 <==> last)
    && p.marker == last
  }

  lemma {:induction false} FragmentShape(nal: seq<byte>, off: nat, size: nat, i: nat)
    requires 1 <= off && size > 0 && i < |Fragments(nal, off, size)|
    ensures WellShaped(nal, Fragments(nal, off, size)[i], off == 1 && i == 0,
                       i == |Fragments(nal, off, size)| - 1, size)
    decreases |nal| - off
  {
    var rest := Fragments(nal, off + size, size);
    if i > 0 {
      FragmentShape(nal, off + size, size, i - 1);
    } else {
      assert rest == [] <==> off + size >= |nal|;
    }
  }

  /** A NAL unit larger than the MTU becomes ceil((n - 1) / (mtu - 2)) >= 2 well-shaped FU-A packets. */
  lemma FragmentedNal(nal: seq<byte>, mtu: nat)
    requires 3 <= mtu < |nal| && mtu < TWO_64
    ensures var ps := Packets(nal, mtu);
            && |ps| >= 2 && IsCeil(|ps|, |nal| - 1, mtu - 2)
            && forall i | 0 <= i < |ps| :: WellShaped(nal, ps[i], i == 0, i == |ps| - 1, mtu - 2)
  {
    var size := mtu - 2;
    assert FragmentSize(mtu) == size;
    FragmentCount(nal, 1, size);
    forall i | 0 <= i < |Packets(nal, mtu)|
      ensures WellShaped(nal, Packets(nal, mtu)[i], i == 0, i == |Packets(nal, mtu)| - 1, size)
    {
      FragmentShape(nal, 1, size, i);
    }
  }

  ghost predicate Within(ps: seq<Packet>, mtu: nat) {
    forall i | 0 <= i < |ps| :: |ps[i].payload| <= mtu
  }

  /** The call returns, every payload within the MTU, exactly when that is at least three or nothing is fragmented. */
  lemma MtuRespected(nal: seq<byte>, mtu: nat)
    requires |nal| < TWO_64 && mtu < TWO_64
    ensures Outcome(nal, mtu).Some? && Within(Outcome(nal, mtu).value, mtu) <==> mtu >= 3 || |nal| <= Max(mtu, 1)
  {
    TerminatesIff(nal, mtu);
    if Terminates(nal, mtu) {
      PacketsWithin(nal, mtu);
    }
  }

  lemma PacketsWithin(nal: seq<byte>, mtu: nat)
    requires Terminates(nal, mtu) && |nal| < TWO_64 && mtu < TWO_64
    ensures Within(Packets(nal, mtu), mtu) <==> mtu >= 3 || |nal| <= Max(mtu, 1)
  {
    var ps := Packets(nal, mtu);
    if |nal| > mtu {
      var size := FragmentSize(mtu);
      forall i | 0 <= i < |ps| ensures |ps[i].payload| <= size + 2 && |ps[i].payload| >= 3 {
        FragmentShape(nal, 1, size, i);
      }
      if mtu >= 3 {
        assert size == mtu - 2;
      } else if |nal| > 1 {
        assert ps[0] == Fragment(nal, 1, size);
        assert |ps[0].payload| > mtu;
      }
    }
  }

  // ---------- reassembly ----------

  datatype Assembler = Assembler(open: Option<seq<byte>>, nals: seq<seq<byte>>)

  // Section 5.6 and 5.8 of RFC 6184: types 1..23 are whole NAL units, 28 is a fragment; the NAL unit
  // header is rebuilt from the upper bits of the indicator and the type in the FU header.
  function Receive(a: Assembler, payload: seq<byte>): Assembler {
    if payload == [] then a
    else
      var t := payload[0] % 32;
      if 1 <= t <= 23 then Assembler(None, a.nals + [payload])
      else if t != 28 || |payload| < 2 then a
      else
        var fu := payload[1];
        var start := [payload[0] / 32 * 32 + fu % 32];
        if fu < 0x80 && a.open.None? then a
        else
          var nal := (if fu >= 0x80 then start else a.open.value) + payload[2..];
          if fu / 0x40 % 2 == 1 then Assembler(None, a.nals + [nal]) else a.(open := Some(nal))
  }

  function ReceiveAll(a: Assembler, ps: seq<Packet>): Assembler
    decreases |ps|
  {
    if ps == [] then a else ReceiveAll(Receive(a, ps[0].payload), ps[1..])
  }

  // FU-A has no room for the forbidden bit.
  function Carried(nal: seq<byte>): seq<byte>
    requires nal != []
  {
    [nal[0] % 128] + nal[1..]
  }

  lemma CarriedSlice(nal: seq<byte>, off: nat, end: nat)
    requires 1 <= off <= end <= |nal|
    ensures Carried(nal)[..off] + nal[off..end] == Carried(nal)[..end]
  {
  }

  lemma CarriedEnds(nal: seq<byte>)
    requires nal != []
    ensures |Carried(nal)| == |nal| && Carried(nal)[..1] == [nal[0] % 128] && Carried(nal)[..|nal|] == Carried(nal)
  {
  }

  lemma FragmentBytes(nal: seq<byte>, off: nat, size: nat)
    requires 1 <= off < |nal| && size > 0
    ensures var end := Min(|nal|, off + size);
            var p := Fragment(nal, off, size).payload;
            |p| >= 2 && p[0] == Indicator(nal[0]) && p[1] == FuHeader(nal[0], off == 1, end == |nal|)
            && p[2..] == nal[off..end]
  {
  }

  // What the receiver reads in the two header bytes of a fragment.
  lemma HeaderBytes(h: byte, first: bool, last: bool)
    ensures var i, fu := Indicator(h), FuHeader(h, first, last);
            i % 32 == 28 && i / 32 * 32 + fu % 32 == h % 128
            && (fu >= 0x80 <==> first) && (fu / 0x40 % 2 == 1 <==> last)
  {
    hide Indicator, FuHeader;
    IndicatorBits(h);
    FuHeaderBits(h, first, last);
  }

  lemma IndicatorBits(h: byte)
    ensures var i := Indicator(h); i % 32 == 28 && i / 32 * 32 + h % 32 == h % 128
  {
  }

  lemma FuHeaderBits(h: byte, first: bool, last: bool)
    ensures var fu := FuHeader(h, first, last);
            fu % 32 == h % 32 && (fu >= 0x80 <==> first) && (fu / 0x40 % 2 == 1 <==> last)
  {
  }

  lemma OneFragment(a: Assembler, nal: seq<byte>, off: nat, size: nat)
    requires 1 <= off < |nal| && size > 0
    requires off > 1 ==> a.open == Some(Carried(nal)[..off])
    ensures var end := Min(|nal|, off + size); var a' := Receive(a, Fragment(nal, off, size).payload);
            a' == if end == |nal| then Assembler(None, a.nals + [Carried(nal)])
                  else a.(open := Some(Carried(nal)[..end]))
  {
    var end := Min(|nal|, off + size);
    var p := Fragment(nal, off, size).payload;
    hide Carried, Fragment;
    CarriedSlice(nal, off, end);
    FragmentBytes(nal, off, size);
    HeaderBytes(nal[0], off == 1, end == |nal|);
    CarriedSlice(nal, 1, 1);
    CarriedEnds(nal);
  }

  lemma {:induction false} FragmentsReassemble(a: Assembler, nal: seq<byte>, off: nat, size: nat)
    requires 1 <= off < |nal| && size > 0
    requires off > 1 ==> a.open == Some(Carried(nal)[..off])
    ensures ReceiveAll(a, Fragments(nal, off, size)) == Assembler(None, a.nals + [Carried(nal)])
    decreases |nal| - off
  {
    var a' := Receive(a, Fragment(nal, off, size).payload);
    OneFragment(a, nal, off, size);
    var rest := Fragments(nal, off + size, size);
    if off + size < |nal| {
      FragmentsReassemble(a', nal, off + size, size);
    } else {
      assert rest == [];
    }
    assert ([Fragment(nal, off, size)] + rest)[1..] == rest;
  }

  // What a receiver can be handed: a single NAL unit packet needs a type that means a NAL unit, a
  // fragmented one a clear forbidden bit.
  predicate Carriable(nal: seq<byte>, mtu: nat) {
    nal != [] && if |nal| <= mtu then 1 <= nal[0] % 32 <= 23 else |nal| > 1 && nal[0] < 0x80
  }

  lemma PacketsReassemble(a: Assembler, nal: seq<byte>, mtu: nat)
    requires Terminates(nal, mtu) && Carriable(nal, mtu)
    ensures ReceiveAll(a, Packets(nal, mtu)) == Assembler(None, a.nals + [nal])
  {
    if |nal| <= mtu {
      assert [Packet(nal, true)][1..] == [];
    } else {
      FragmentsReassemble(a, nal, 1, FragmentSize(mtu));
      assert Carried(nal) == nal;
    }
  }

  const EMPTY := Assembler(None, [])

  /** The call returns and the receiver recovers the NAL unit exactly when it terminates and is carriable. */
  lemma RoundTripIff(nal: seq<byte>, mtu: nat)
    ensures Outcome(nal, mtu).Some? && ReceiveAll(EMPTY, Outcome(nal, mtu).value) == Assembler(None, [nal])
            <==> Terminates(nal, mtu) && Carriable(nal, mtu)
  {
    hide Packets, Carriable, ReceiveAll;
    if Terminates(nal, mtu) {
      RecoveredIff(nal, mtu);
    }
  }

  lemma RecoveredIff(nal: seq<byte>, mtu: nat)
    requires Terminates(nal, mtu)
    ensures ReceiveAll(EMPTY, Packets(nal, mtu)) == Assembler(None, [nal]) <==> Carriable(nal, mtu)
  {
    if Carriable(nal, mtu) {
      PacketsReassemble(EMPTY, nal, mtu);
    } else if nal == [] {
    } else if |nal| <= mtu {
      assert [Packet(nal, true)][1..] == [];
      var a := Receive(EMPTY, nal);
      assert a.nals != [] ==> |a.nals[0]| == |nal| - 1;
    } else if |nal| > 1 {
      FragmentsReassemble(EMPTY, nal, 1, FragmentSize(mtu));
      assert Carried(nal)[0] != nal[0];
      assert ([] + [Carried(nal)])[0] != [nal][0];
    }
  }
}
