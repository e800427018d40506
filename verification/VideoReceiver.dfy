/**
 The other end of the connection: strips interleaved frames, decodes RTP, reassembles NAL units and
 groups them into access units, and takes the responses that come in between. It refuses a stream that
 skips a sequence number, mixes timestamps, sources or payload types inside an access unit, or sets the marker
 while a NAL unit is half received.
 */
module VideoReceiver {
  import opened Basics
  import opened VideoStream
  import H = H264Packetizer
  import R = RtpPacket
  import AnnexB
  import Receive

  // What all packets of an access unit have in common.
  datatype Head = Head(timestamp: u32, ssrc: u32, payloadType: int)

  datatype AccessUnit = AccessUnit(head: Head, nals: seq<seq<byte>>)

  datatype Player = Player(
    next: u16, asm: H.Assembler, head: Option<Head>, units: seq<AccessUnit>, replies: seq<seq<byte>>)

  // The payload type has seven bits.
  function HeadOf(p: R.Packet): Head {
    Head(p.timestamp, p.ssrc, p.payloadType as int % 128)
  }

  function Accept(pl: Player, p: R.Packet): Option<Player> {
    if p.sequence != pl.next || (pl.head.Some? && pl.head.value != HeadOf(p)) then None
    else
      var asm := H.Receive(pl.asm, p.payload);
      var next := (pl.next + 1) % TWO_16;
      if !p.marker then Some(pl.(next := next, asm := asm, head := Some(HeadOf(p))))
      else if asm.open.Some? then None
      else Some(Player(next, H.EMPTY, None, pl.units + [AccessUnit(HeadOf(p), asm.nals)], pl.replies))
  }

  // The bytes as the text they are for a message parser.
  function TextOf(bytes: seq<byte>): string {
    seq(|bytes|, i requires 0 <= i < |bytes| => bytes[i] as char)
  }

  // The receiver after what stood in front of the bytes, and its size.
  datatype Taken = Taken(player: Player, size: nat)

  // A message: a first line and header fields up to an empty line, then a body of the announced length.
  function PlayReply(pl: Player, bytes: seq<byte>): (r: Option<Taken>)
    ensures r.Some? ==> 0 < r.value.size <= |bytes|
  {
    match Receive.FrontOf(TextOf(bytes))
    case Text(n) => if n == 0 then None else Some(Taken(pl.(replies := pl.replies + [bytes[..n]]), n))
    case _ => None
  }

  function PlayFrame(pl: Player, channel: byte, bytes: seq<byte>): (r: Option<Taken>)
    ensures r.Some? ==> 0 < r.value.size <= |bytes|
  {
    if |bytes| < 4 then None
    else
      var end := 4 + FromBigEndian16(bytes[2], bytes[3]);
      if |bytes| < end then None
      else if bytes[1] != channel then Some(Taken(pl, end))
      else
        var p := R.Decode(bytes[4..end]);
        if p.None? then None
        else
          var pl' := Accept(pl, p.value);
          if pl'.None? then None else Some(Taken(pl'.value, end))
  }

  // Takes replies, and frames of one channel, from a byte stream, skips other channels, stops when the bytes end.
  function Play(pl: Player, channel: byte, bytes: seq<byte>): Option<Player>
    decreases |bytes|
  {
    if bytes == [] then Some(pl)
    else
      var r := if bytes[0] == '$' as int as byte then PlayFrame(pl, channel, bytes) else PlayReply(pl, bytes);
      if r.None? then None else Play(r.value.player, channel, bytes[r.value.size..])
  }

  // ---------- access units, packet by packet ----------

  ghost predicate MarkedAtEnd(ps: seq<H.Packet>) {
    forall i | 0 <= i < |ps| :: ps[i].marker == (i == |ps| - 1)
  }

  function AcceptAll(pl: Player, ps: seq<R.Packet>): Option<Player>
    decreases |ps|
  {
    if ps == [] then Some(pl)
    else
      var pl' := Accept(pl, ps[0]);
      if pl'.None? then None else AcceptAll(pl'.value, ps[1..])
  }

  // The head of a stream's packets at a timestamp.
  function HeadAt(s: Stream, timestamp: u32): Head {
    Head(timestamp, s.ssrc, s.payloadType as int % 128)
  }

  lemma {:induction false} AcceptMarked(pl: Player, s: Stream, ps: seq<H.Packet>, ts: u32)
    requires ps != [] && MarkedAtEnd(ps) && (pl.head.Some? ==> pl.head.value == HeadAt(s, ts))
    requires H.ReceiveAll(pl.asm, ps).open.None?
    ensures AcceptAll(pl, Rtp(s, ps, pl.next, ts))
         == Some(Player((pl.next + |ps|) % TWO_16, H.EMPTY, None,
                        pl.units + [AccessUnit(HeadAt(s, ts), H.ReceiveAll(pl.asm, ps).nals)], pl.replies))
    decreases |ps|
  {
    var rest := Rtp(s, ps[1..], (pl.next + 1) % TWO_16, ts);
    var first := R.Packet(s.payloadType, pl.next, ts, s.ssrc, ps[0].marker, ps[0].payload);
    assert Rtp(s, ps, pl.next, ts) == [first] + rest;
    assert ([first] + rest)[1..] == rest;
    assert ps[0].marker == (|ps| == 1);
    if |ps| == 1 {
      assert ps[1..] == [];
    } else {
      var asm := H.Receive(pl.asm, ps[0].payload);
      var pl' := Player((pl.next + 1) % TWO_16, asm, Some(HeadAt(s, ts)), pl.units, pl.replies);
      assert Accept(pl, first) == Some(pl');
      assert forall i | 0 <= i < |ps[1..]| :: ps[1..][i] == ps[i + 1];
      AcceptMarked(pl', s, ps[1..], ts);
      ModSum(pl.next + 1, |ps| - 1);
    }
  }

  ghost predicate AllCarriable(nals: seq<seq<byte>>) {
    forall i | 0 <= i < |nals| :: H.Carriable(nals[i], H.DEFAULT_MTU)
  }

  lemma {:induction false} ReceiveAppend(a: H.Assembler, ps: seq<H.Packet>, qs: seq<H.Packet>)
    ensures H.ReceiveAll(a, ps + qs) == H.ReceiveAll(H.ReceiveAll(a, ps), qs)
    decreases |ps|
  {
    if ps == [] {
      assert ps + qs == qs;
    } else {
      ReceiveAppend(H.Receive(a, ps[0].payload), ps[1..], qs);
      assert (ps + qs)[1..] == ps[1..] + qs;
    }
  }

  lemma {:induction false} PayloadsReassemble(a: H.Assembler, nals: seq<seq<byte>>)
    requires AllCarriable(nals) && a.open.None?
    ensures H.ReceiveAll(a, Payloads(nals)) == H.Assembler(None, a.nals + nals)
    decreases |nals|
  {
    if nals == [] {
      assert a.nals + nals == a.nals;
    } else {
      var own := H.Packets(nals[0], H.DEFAULT_MTU);
      H.PacketsReassemble(a, nals[0], H.DEFAULT_MTU);
      ReceiveAppend(a, own, Payloads(nals[1..]));
      PayloadsReassemble(H.ReceiveAll(a, own), nals[1..]);
      assert a.nals + [nals[0]] + nals[1..] == a.nals + nals;
    }
  }

  lemma {:induction false} MarkersDoNotMatter(a: H.Assembler, ps: seq<H.Packet>, qs: seq<H.Packet>)
    requires |ps| == |qs| && forall i | 0 <= i < |ps| :: ps[i].payload == qs[i].payload
    ensures H.ReceiveAll(a, ps) == H.ReceiveAll(a, qs)
    decreases |ps|
  {
    if ps != [] {
      MarkersDoNotMatter(H.Receive(a, ps[0].payload), ps[1..], qs[1..]);
    }
  }

  /** The packets of a frame are one access unit with the frame's NAL units and timestamp, and the stream's source. */
  lemma FrameIsAccessUnit(pl: Player, s: Stream, f: Frame)
    requires Fresh(pl)
    requires AllCarriable(NalList(s, f)) && NalList(s, f) != []
    ensures AcceptAll(pl, FramePackets(s, f, pl.next))
         == Some(Player((pl.next + |Payloads(NalList(s, f))|) % TWO_16, H.EMPTY, None,
                        pl.units + [AccessUnit(HeadAt(s, f.timestamp), NalList(s, f))], pl.replies))
  {
    hide H.Receive, H.Carriable, Kept, Rtp;
    var list := NalList(s, f);
    var marked := Mark(Payloads(list), true);
    NalListNonEmpty(s, f);
    PayloadsNonEmpty(list);
    MarkersDoNotMatter(H.EMPTY, marked, Payloads(list));
    PayloadsReassemble(H.EMPTY, list);
    AcceptMarked(pl, s, marked, f.timestamp);
    assert [] + list == list;
  }

  // ---------- bytes ----------

  lemma FirstFrame(channel: int, data: seq<byte>, rest: seq<byte>)
    requires |data| < TWO_16
    ensures var b := Interleaved(channel, data) + rest; var end := 4 + |data|;
            && |b| >= end && b[0] == '$' as int as byte && b[1] as int == channel % 256
            && 4 + FromBigEndian16(b[2], b[3]) == end && b[4..end] == data && b[end..] == rest
  {
    hide BigEndian16, FromBigEndian16;
    var len := BigEndian16(|data|);
    RoundTrip16(|data|);
    var head := ['$' as int as byte, (channel % 256) as byte] + len;
    var b := Interleaved(channel, data) + rest;
    assert b == head + (data + rest);
    assert b[2] == len[0] && b[3] == len[1];
  }

  lemma OtherChannelSkipped(pl: Player, channel: byte, other: byte, data: seq<byte>, rest: seq<byte>)
    requires other != channel && |data| < TWO_16
    ensures Play(pl, channel, Interleaved(other as int, data) + rest) == Play(pl, channel, rest)
  {
    hide Interleaved, FromBigEndian16, R.Decode, Accept;
    FirstFrame(other as int, data, rest);
    var b := Interleaved(other as int, data) + rest;
    assert b != [] && b[1] != channel;
  }

  function Channel(s: Stream): byte {
    (s.channel % 256) as byte
  }

  lemma PacketPlayed(pl: Player, s: Stream, p: R.Packet, rest: seq<byte>)
    requires |p.payload| <= H.DEFAULT_MTU
    ensures var pl' := Accept(pl, p);
            Play(pl, Channel(s), Framed(s, p) + rest)
            == if pl'.None? then None else Play(pl'.value, Channel(s), rest)
  {
    hide Interleaved, FromBigEndian16, R.Decode, R.Encode, Accept;
    var b := Framed(s, p) + rest;
    var end := 4 + |R.Encode(p)|;
    R.DecodeEncode(p);
    EncodedFits(p);
    FirstFrame(s.channel, R.Encode(p), rest);
    assert R.Decode(b[4..end]) == Some(p.(payloadType := p.payloadType % 128));
    MaskedAccepted(pl, p);
    assert b != [] && b[1] == Channel(s);
  }

  lemma EncodedFits(p: R.Packet)
    requires |p.payload| <= H.DEFAULT_MTU
    ensures |R.Encode(p)| < TWO_16
  {
  }

  lemma MaskedAccepted(pl: Player, p: R.Packet)
    ensures Accept(pl, p.(payloadType := p.payloadType % 128)) == Accept(pl, p)
  {
    hide H.Receive;
    assert HeadOf(p.(payloadType := p.payloadType % 128)) == HeadOf(p);
  }

  ghost predicate Fits(ps: seq<R.Packet>) {
    forall i | 0 <= i < |ps| :: |ps[i].payload| <= H.DEFAULT_MTU
  }

  lemma {:induction false} PacketsPlayed(pl: Player, s: Stream, ps: seq<R.Packet>, rest: seq<byte>)
    requires Fits(ps)
    ensures var pl' := AcceptAll(pl, ps);
            Play(pl, Channel(s), Concat(Wire(s, ps)) + rest)
            == if pl'.None? then None else Play(pl'.value, Channel(s), rest)
    decreases |ps|
  {
    if ps == [] {
      assert Concat(Wire(s, ps)) + rest == rest;
    } else {
      var more := Concat(Wire(s, ps[1..]));
      assert Wire(s, ps)[1..] == Wire(s, ps[1..]);
      Assoc(Framed(s, ps[0]), more, rest);
      PacketPlayed(pl, s, ps[0], more + rest);
      var pl' := Accept(pl, ps[0]);
      if pl'.Some? {
        PacketsPlayed(pl'.value, s, ps[1..], rest);
      }
    }
  }

  lemma {:induction false} PayloadsFit(nals: seq<seq<byte>>)
    ensures forall i | 0 <= i < |Payloads(nals)| :: |Payloads(nals)[i].payload| <= H.DEFAULT_MTU
  {
    if nals != [] {
      PayloadsFit(nals[1..]);
      var own := H.Packets(nals[0], H.DEFAULT_MTU);
      forall i | 0 <= i < |own| ensures |own[i].payload| <= H.DEFAULT_MTU {
        if |nals[0]| > H.DEFAULT_MTU {
          H.FragmentShape(nals[0], 1, H.DEFAULT_MTU - 2, i);
        }
      }
    }
  }

  lemma {:induction false} RtpFits(s: Stream, ps: seq<H.Packet>, sequence: u16, ts: u32)
    requires forall i | 0 <= i < |ps| :: |ps[i].payload| <= H.DEFAULT_MTU
    ensures Fits(Rtp(s, ps, sequence, ts))
    decreases |ps|
  {
    if ps != [] {
      RtpFits(s, ps[1..], (sequence + 1) % TWO_16, ts);
    }
  }

  // ---------- replies ----------

  // A message as the receiver frames it, whatever follows.
  ghost predicate IsReply(w: seq<byte>) {
    w != [] && w[0] != '$' as int as byte
    && forall rest: seq<byte> :: Receive.FrontOf(TextOf(w + rest)) == Receive.Front.Text(|w|)
  }

  lemma ReplyPlayed(pl: Player, channel: byte, w: seq<byte>, rest: seq<byte>)
    requires IsReply(w)
    ensures Play(pl, channel, w + rest) == Play(pl.(replies := pl.replies + [w]), channel, rest)
  {
    hide PlayFrame, Receive.FrontOf, TextOf;
    var b := w + rest;
    assert Receive.FrontOf(TextOf(b)) == Receive.Front.Text(|w|);
    assert b != [] && b[0] == w[0] && b[..|w|] == w && b[|w|..] == rest;
  }

  // ---------- whole streams ----------

  // What the session puts on the connection: frames, each of its own stream, replies, and anything on other channels.
  datatype Item = Video(stream: Stream, frame: Frame) | Other(channel: byte, data: seq<byte>) | Reply(text: seq<byte>)

  function ItemBytes(item: Item, sequence: u16): seq<byte> {
    match item
    case Video(s, f) => Concat(Wire(s, FramePackets(s, f, sequence)))
    case Other(c, data) => Interleaved(c as int, data)
    case Reply(w) => w
  }

  function After(item: Item, sequence: u16): u16 {
    match item
    case Video(s, f) => (sequence + |Payloads(NalList(s, f))|) % TWO_16
    case _ => sequence
  }

  function StreamBytes(items: seq<Item>, sequence: u16): seq<byte>
    decreases |items|
  {
    if items == [] then []
    else ItemBytes(items[0], sequence) + StreamBytes(items[1..], After(items[0], sequence))
  }

  ghost predicate Sendable(channel: byte, item: Item) {
    match item
    case Video(s, f) => Channel(s) == channel && AllCarriable(NalList(s, f))
    case Other(c, data) => c != channel && |data| < TWO_16
    case Reply(w) => IsReply(w)
  }

  function Shown(item: Item): seq<AccessUnit> {
    if item.Video? && NalList(item.stream, item.frame) != []
    then [AccessUnit(HeadAt(item.stream, item.frame.timestamp), NalList(item.stream, item.frame))]
    else []
  }

  function AllShown(items: seq<Item>): seq<AccessUnit> {
    if items == [] then [] else Shown(items[0]) + AllShown(items[1..])
  }

  function Said(item: Item): seq<seq<byte>> {
    if item.Reply? then [item.text] else []
  }

  function AllSaid(items: seq<Item>): seq<seq<byte>> {
    if items == [] then [] else Said(items[0]) + AllSaid(items[1..])
  }

  ghost predicate Fresh(pl: Player) {
    pl.asm == H.EMPTY && pl.head.None?
  }

  // The receiver after one item.
  function Next(pl: Player, item: Item): Player {
    Player(After(item, pl.next), H.EMPTY, None, pl.units + Shown(item), pl.replies + Said(item))
  }

  lemma FrameAccepted(pl: Player, s: Stream, f: Frame)
    requires Fresh(pl) && AllCarriable(NalList(s, f))
    ensures AcceptAll(pl, FramePackets(s, f, pl.next)) == Some(Next(pl, Video(s, f)))
    ensures Fits(FramePackets(s, f, pl.next))
  {
    hide NalList, H.Packets, H.Carriable;
    var list := NalList(s, f);
    PayloadsFit(list);
    RtpFits(s, Mark(Payloads(list), true), pl.next, f.timestamp);
    assert pl.replies + [] == pl.replies;
    if list == [] {
      assert FramePackets(s, f, pl.next) == [] && pl.units + [] == pl.units;
    } else {
      FrameIsAccessUnit(pl, s, f);
    }
  }

  lemma ItemPlayed(pl: Player, channel: byte, item: Item, rest: seq<byte>)
    requires Fresh(pl) && Sendable(channel, item)
    ensures Play(pl, channel, ItemBytes(item, pl.next) + rest) == Play(Next(pl, item), channel, rest)
  {
    hide Play, IsReply, AcceptAll;
    assert pl.units + [] == pl.units && pl.replies + [] == pl.replies;
    match item
    case Other(c, data) =>
      OtherChannelSkipped(pl, channel, c, data, rest);
      assert Next(pl, item) == pl;
    case Reply(w) => ReplyPlayed(pl, channel, w, rest);
    case Video(s, f) =>
      FrameAccepted(pl, s, f);
      PacketsPlayed(pl, s, FramePackets(s, f, pl.next), rest);
  }

  /**
   The receiver gets back every frame as one access unit and every reply, each in order, whatever travels on
   other channels.
   */
  lemma {:induction false} EndToEnd(pl: Player, channel: byte, items: seq<Item>)
    requires Fresh(pl) && forall i | 0 <= i < |items| :: Sendable(channel, items[i])
    ensures var end := Play(pl, channel, StreamBytes(items, pl.next));
            end.Some? && Fresh(end.value) && end.value.units == pl.units + AllShown(items)
            && end.value.replies == pl.replies + AllSaid(items)
    decreases |items|
  {
    hide Sendable, ItemBytes, After, Shown, Said;
    if items == [] {
      PlayNothing(pl, channel);
      assert pl.units + [] == pl.units && pl.replies + [] == pl.replies;
    } else {
      var pl' := Next(pl, items[0]);
      ItemPlayed(pl, channel, items[0], StreamBytes(items[1..], pl'.next));
      EndToEnd(pl', channel, items[1..]);
      Assoc(pl.units, Shown(items[0]), AllShown(items[1..]));
      Assoc(pl.replies, Said(items[0]), AllSaid(items[1..]));
    }
  }

  lemma PlayNothing(pl: Player, channel: byte)
    ensures Play(pl, channel, []) == Some(pl)
  {
  }

  // ---------- from the file to the receiver ----------

  // An access unit as the file holds it: NAL units behind start codes.
  datatype Sample = Sample(timestamp: u32, key: bool, units: seq<AnnexB.Unit>)

  // What the demuxer makes of its bytes.
  function Demuxed(s: Stream, x: Sample): Item {
    Video(s, Frame(x.timestamp, x.key, AnnexB.Nals(AnnexB.Join(x.units))))
  }

  function AllDemuxed(s: Stream, samples: seq<Sample>): seq<Item> {
    if samples == [] then [] else [Demuxed(s, samples[0])] + AllDemuxed(s, samples[1..])
  }

  // The NAL units a receiver should get for it.
  function Expected(s: Stream, x: Sample): seq<seq<byte>> {
    (if x.key then ParameterSets(s) else []) + Kept(x.key, AnnexB.NalsOf(x.units))
  }

  function AllExpected(s: Stream, samples: seq<Sample>): seq<AccessUnit> {
    if samples == [] then []
    else
      var nals := Expected(s, samples[0]);
      (if nals == [] then [] else [AccessUnit(HeadAt(s, samples[0].timestamp), nals)]) + AllExpected(s, samples[1..])
  }

  ghost predicate Playable(s: Stream, x: Sample) {
    AnnexB.AllWellFormed(x.units) && AllCarriable(Expected(s, x))
  }

  lemma {:induction false} SamplesSendable(s: Stream, samples: seq<Sample>)
    requires forall i | 0 <= i < |samples| :: Playable(s, samples[i])
    ensures forall i | 0 <= i < |AllDemuxed(s, samples)| :: Sendable(Channel(s), AllDemuxed(s, samples)[i])
    ensures AllShown(AllDemuxed(s, samples)) == AllExpected(s, samples)
  {
    hide AllCarriable, AnnexB.Nals, AnnexB.NalsOf, AnnexB.Join, AnnexB.AllWellFormed, Kept, ParameterSets;
    if samples != [] {
      AnnexB.SplitOfJoin(samples[0].units);
      SamplesSendable(s, samples[1..]);
      assert AllDemuxed(s, samples)[1..] == AllDemuxed(s, samples[1..]);
      assert Sendable(Channel(s), Demuxed(s, samples[0]));
    }
  }

  /**
   From the Annex-B bytes of the file to the receiver: start codes are stripped, parameter sets replaced
   on key frames, NAL units fragmented, numbered and framed, and arrive as they were.
   */
  lemma FileToReceiver(pl: Player, s: Stream, samples: seq<Sample>)
    requires Fresh(pl) && forall i | 0 <= i < |samples| :: Playable(s, samples[i])
    ensures var end := Play(pl, Channel(s), StreamBytes(AllDemuxed(s, samples), pl.next));
            end.Some? && Fresh(end.value) && end.value.units == pl.units + AllExpected(s, samples)
  {
    hide Play, StreamBytes, Sendable, Playable;
    SamplesSendable(s, samples);
    EndToEnd(pl, Channel(s), AllDemuxed(s, samples));
  }
}
