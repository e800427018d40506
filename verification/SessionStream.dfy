/** What a whole run of a session puts on the connection, as a strict receiver sees it. */
module SessionStream {
  import opened Basics
  import opened VideoStream
  import opened Session
  import V = VideoReceiver
  import M = MediaSource

  // ---------- sequence numbers ----------

  // Each frame takes up the numbering where the previous one left it; q' comes next.
  ghost predicate Numbered(outs: seq<Output>, q: u16, q': u16)
    decreases |outs|
  {
    if outs == [] then q == q'
    else
      match outs[0]
      case Response(_, _, _) => Numbered(outs[1..], q, q')
      case Video(st, f, n, _) => n == q && Numbered(outs[1..], (q + |Payloads(NalList(st, f))|) % TWO_16, q')
  }

  lemma {:induction false} NumberedAppend(a: seq<Output>, b: seq<Output>, q: u16, m: u16, q': u16)
    requires Numbered(a, q, m) && Numbered(b, m, q')
    ensures Numbered(a + b, q, q')
    decreases |a|
  {
    if a == [] {
      assert a + b == b;
    } else {
      assert (a + b)[1..] == a[1..] + b;
      match a[0] {
        case Response(_, _, _) => NumberedAppend(a[1..], b, q, m, q');
        case Video(st, f, _, _) => NumberedAppend(a[1..], b, (q + |Payloads(NalList(st, f))|) % TWO_16, m, q');
      }
    }
  }

  lemma NumberedOne(o: Output, q: u16, q': u16)
    requires match o
             case Response(_, _, _) => q == q'
             case Video(st, f, n, _) => n == q && q' == (q + |Payloads(NalList(st, f))|) % TWO_16
    ensures Numbered([o], q, q')
  {
    hide Payloads, NalList;
    assert [o][1..] == [];
  }

  ghost predicate ResultNumbered(q: u16, r: Result) {
    Numbered(r.outs, q, r.state.sequence)
  }

  lemma EmitNumbered(s: State, f: Frame, now: int)
    requires s.media.Some?
    ensures ResultNumbered(s.sequence, Emit(s, f, now))
  {
    hide NalList, Payloads, MediaNs, Offset, Numbered;
    var s' := Anchored(s, f, now);
    var r := Emit(s, f, now);
    if r.outs == [] {
      assert Numbered([], s.sequence, s.sequence) by { NumberedNone(s.sequence); }
    } else {
      NumberedOne(r.outs[0], s.sequence, r.state.sequence);
      assert r.outs == [r.outs[0]];
    }
  }

  lemma NumberedNone(q: u16)
    ensures Numbered([], q, q)
  {
  }

  lemma AdmitNumbered(s: State, f: Frame, now: int)
    requires s.media.Some?
    ensures ResultNumbered(s.sequence, Admit(s, f, now)) && ResultNumbered(s.sequence, Held(s, f, now))
  {
    hide Emit, PastEnd, Numbered;
    EmitNumbered(s.(waitIdr := false), f, now);
    NumberedNone(s.sequence);
  }

  lemma PaceNumbered(s: State, now: int, land: nat)
    ensures ResultNumbered(s.sequence, Pace(s, now, land))
  {
    hide Admit, Held, M.Read, M.Seek, Numbered;
    NumberedNone(s.sequence);
    if Active(s) {
      var s' := Resume(s, now);
      if s'.firstFrame || s'.pending.None? {
        var r := M.Read(s.media.value);
        if r.frame.Some? {
          AdmitNumbered(s'.(pending := None, media := Some(r.source)), r.frame.value, now);
        }
      } else {
        AdmitNumbered(s', s'.pending.value, now);
      }
    }
  }

  lemma ActNumbered(s: State, a: Action)
    ensures ResultNumbered(s.sequence, Act(s, a))
  {
    hide Handle, Pace;
    match a {
      case Do(c) =>
        OneResponse(s, c);
        if c.Play? {
          PlayKeepsTransport(s, c);
        } else {
          OnlyPlayTouchesPacing(s, c);
        }
        var r := Handle(s, c);
        NumberedOne(r.outs[0], s.sequence, r.state.sequence);
        assert r.outs == [r.outs[0]];
      case Tick(now, land) => PaceNumbered(s, now, land);
    }
  }

  /** Over every run, packets are numbered consecutively modulo 2^16, across pauses, seeks and loops. */
  lemma {:induction false} RunIsNumbered(s: State, run: seq<Action>)
    ensures Numbered(Acts(s, run).outs, s.sequence, Acts(s, run).state.sequence)
    decreases |run|
  {
    hide Act, Numbered;
    if run == [] {
      NumberedNone(s.sequence);
    } else {
      var r := Act(s, run[0]);
      ActNumbered(s, run[0]);
      RunIsNumbered(r.state, run[1..]);
      NumberedAppend(r.outs, Acts(r.state, run[1..]).outs, s.sequence, r.state.sequence, Acts(s, run).state.sequence);
    }
  }

  // ---------- one channel ----------

  ghost predicate AllFrom(outs: seq<Output>, channel: byte) {
    forall i | 0 <= i < |outs| :: outs[i].Video? ==> V.Channel(outs[i].stream) == channel && outs[i].tcp
  }

  // A SETUP that asks for UDP, or for another channel for the video.
  predicate Reconfigures(a: Action, channel: byte) {
    && a.Do? && a.command.Setup?
    && match a.command.transport
       case Missing => false
       case Tcp(c) => !a.command.audio && c.Some? && (c.value % 256) as byte != channel
       case Udp(_, _) => true
  }

  // Video, if it flows, flows over this channel of the connection.
  ghost predicate Streams(s: State, channel: byte) {
    (s.channel % 256) as byte == channel && (s.transportReady ==> s.useTcp)
  }

  lemma NothingFrom(channel: byte)
    ensures AllFrom([], channel)
  {
  }

  lemma EmitStreams(s: State, f: Frame, now: int, channel: byte)
    requires Streams(s, channel) && s.media.Some? && s.transportReady
    ensures var r := Emit(s, f, now); Streams(r.state, channel) && AllFrom(r.outs, channel)
  {
    hide Tracked, NalList, Payloads, MediaNs, Offset;
    SendFootprint(Anchored(s, f, now), f);
  }

  lemma AdmitStreams(s: State, f: Frame, now: int, channel: byte)
    requires Streams(s, channel) && s.media.Some? && s.transportReady
    ensures var r := Admit(s, f, now); Streams(r.state, channel) && AllFrom(r.outs, channel)
    ensures var r := Held(s, f, now); Streams(r.state, channel) && AllFrom(r.outs, channel)
  {
    hide Emit, PastEnd;
    EmitStreams(s.(waitIdr := false), f, now, channel);
  }

  lemma PaceStreams(s: State, now: int, land: nat, channel: byte)
    requires Streams(s, channel)
    ensures var r := Pace(s, now, land); Streams(r.state, channel) && AllFrom(r.outs, channel)
  {
    hide Admit, Held, M.Read, M.Seek;
    if Active(s) {
      var s' := Resume(s, now);
      if s'.firstFrame || s'.pending.None? {
        var r := M.Read(s.media.value);
        if r.frame.Some? {
          AdmitStreams(s'.(pending := None, media := Some(r.source)), r.frame.value, now, channel);
        }
      } else {
        AdmitStreams(s', s'.pending.value, now, channel);
      }
    }
  }

  lemma SetupStreams(s: State, c: Command, channel: byte)
    requires Streams(s, channel) && c.Setup? && !Reconfigures(Do(c), channel)
    ensures Streams(Handle(s, c).state, channel)
  {
  }

  lemma OtherKeepsTransport(s: State, c: Command)
    requires !c.Play? && !c.Setup?
    ensures var s' := Handle(s, c).state;
            s'.useTcp == s.useTcp && s'.channel == s.channel && s'.transportReady == s.transportReady
  {
    hide M.AtStart;
  }

  lemma ActStreams(s: State, a: Action, channel: byte)
    requires Streams(s, channel) && !Reconfigures(a, channel)
    ensures var r := Act(s, a); Streams(r.state, channel) && AllFrom(r.outs, channel)
  {
    hide Handle, Pace, Reconfigures;
    match a {
      case Do(c) =>
        OneResponse(s, c);
        if c.Play? {
          PlayKeepsTransport(s, c);
        } else if c.Setup? {
          SetupStreams(s, c, channel);
        } else {
          OtherKeepsTransport(s, c);
        }
      case Tick(now, land) => PaceStreams(s, now, land, channel);
    }
  }

  lemma AllFromAppend(a: seq<Output>, b: seq<Output>, channel: byte)
    requires AllFrom(a, channel) && AllFrom(b, channel)
    ensures AllFrom(a + b, channel)
  {
  }

  lemma {:induction false} KeepsStreaming(s: State, run: seq<Action>, channel: byte)
    requires Streams(s, channel) && forall i | 0 <= i < |run| :: !Reconfigures(run[i], channel)
    ensures AllFrom(Acts(s, run).outs, channel)
    decreases |run|
  {
    hide Act, Streams, AllFrom, Reconfigures;
    if run == [] {
      NothingFrom(channel);
    } else {
      var r := Act(s, run[0]);
      ActStreams(s, run[0], channel);
      KeepsStreaming(r.state, run[1..], channel);
      AllFromAppend(r.outs, Acts(r.state, run[1..]).outs, channel);
    }
  }

  // A SETUP over the connection that is accepted, and that asks for this channel for the video; without a number,
  // or for the audio track, the channel is the one of before.
  predicate Chooses(s: State, a: Action, channel: byte) {
    && a.Do? && a.command.Setup? && a.command.transport.Tcp? && s.describeDone && s.media.Some?
    && var c := a.command.transport.channel;
       ((if !a.command.audio && c.Some? then c.value else s.channel) % 256) as byte == channel
  }

  // From the start, or from a SETUP at the start, the video has this channel, and no later SETUP takes it away.
  ghost predicate OnChannel(s: State, run: seq<Action>, channel: byte) {
    || (Streams(s, channel) && forall i | 0 <= i < |run| :: !Reconfigures(run[i], channel))
    || (run != [] && Chooses(s, run[0], channel) && forall i | 1 <= i < |run| :: !Reconfigures(run[i], channel))
  }

  lemma ChosenStreams(s: State, a: Action, channel: byte)
    requires Chooses(s, a, channel)
    ensures Streams(Act(s, a).state, channel) && Act(s, a).outs == [Response(a.command.cseq, 200, None)]
  {
  }

  /**
   Every frame goes out over the channel of the connection that the video has, or that the first request of the
   run chooses, while no SETUP asks for anything else.
   */
  lemma RunStreams(s: State, run: seq<Action>, channel: byte)
    requires OnChannel(s, run, channel)
    ensures AllFrom(Acts(s, run).outs, channel)
  {
    hide Act, Streams, Reconfigures, Chooses;
    if run != [] && Chooses(s, run[0], channel) && forall i | 1 <= i < |run| :: !Reconfigures(run[i], channel) {
      ChosenStreams(s, run[0], channel);
      KeepsStreaming(Act(s, run[0]).state, run[1..], channel);
      AllFromAppend(Act(s, run[0]).outs, Acts(Act(s, run[0]).state, run[1..]).outs, channel);
    } else {
      KeepsStreaming(s, run, channel);
    }
  }

  /** What a SETUP over the connection chooses, when it is accepted, and that it is accepted. */
  lemma SetupChooses(s: State, cseq: int, channel: Option<int>, run: seq<Action>)
    requires s.describeDone && s.media.Some?
    requires var used := (if channel.Some? then channel.value else s.channel) % 256;
             forall i | 0 <= i < |run| :: !Reconfigures(run[i], used as byte)
    ensures var used := (if channel.Some? then channel.value else s.channel) % 256;
            var outs := Acts(s, [Do(Setup(cseq, false, Tcp(channel)))] + run).outs;
            && outs != [] && outs[0] == Response(cseq, 200, None)
            && forall i | 0 <= i < |outs| && outs[i].Video? :: outs[i].tcp && outs[i].stream.channel % 256 == used
  {
    hide Acts, Act, Reconfigures;
    var used := (if channel.Some? then channel.value else s.channel) % 256;
    var a := Do(Setup(cseq, false, Tcp(channel)));
    var all := [a] + run;
    assert all[0] == a && all[1..] == run;
    assert Chooses(s, a, used as byte);
    ChosenStreams(s, a, used as byte);
    FirstOut(s, a, run);
    RunStreams(s, all, used as byte);
  }

  lemma FirstOut(s: State, a: Action, run: seq<Action>)
    ensures Acts(s, [a] + run).outs == Act(s, a).outs + Acts(Act(s, a).state, run).outs
  {
    hide Act;
    assert ([a] + run)[0] == a && ([a] + run)[1..] == run;
  }

  // ---------- over UDP ----------

  ghost predicate NoneTcp(outs: seq<Output>) {
    forall i | 0 <= i < |outs| :: outs[i].Video? ==> !outs[i].tcp
  }

  predicate AsksForTcp(a: Action) {
    a.Do? && a.command.Setup? && a.command.transport.Tcp?
  }

  lemma EmitUdp(s: State, f: Frame, now: int)
    requires !s.useTcp && s.media.Some?
    ensures var r := Emit(s, f, now); !r.state.useTcp && NoneTcp(r.outs)
  {
    hide Tracked, NalList, Payloads, MediaNs, Offset;
    SendFootprint(Anchored(s, f, now), f);
  }

  lemma AdmitUdp(s: State, f: Frame, now: int)
    requires !s.useTcp && s.media.Some?
    ensures var r := Admit(s, f, now); !r.state.useTcp && NoneTcp(r.outs)
    ensures var r := Held(s, f, now); !r.state.useTcp && NoneTcp(r.outs)
  {
    hide Emit, PastEnd;
    EmitUdp(s.(waitIdr := false), f, now);
  }

  lemma PaceUdp(s: State, now: int, land: nat)
    requires !s.useTcp
    ensures var r := Pace(s, now, land); !r.state.useTcp && NoneTcp(r.outs)
  {
    hide Admit, Held, M.Read, M.Seek;
    if Active(s) {
      var s' := Resume(s, now);
      if s'.firstFrame || s'.pending.None? {
        var r := M.Read(s.media.value);
        if r.frame.Some? {
          AdmitUdp(s'.(pending := None, media := Some(r.source)), r.frame.value, now);
        }
      } else {
        AdmitUdp(s', s'.pending.value, now);
      }
    }
  }

  lemma ActUdp(s: State, a: Action)
    requires !s.useTcp && !AsksForTcp(a)
    ensures var r := Act(s, a); !r.state.useTcp && NoneTcp(r.outs)
  {
    hide Handle, Pace;
    match a {
      case Do(c) =>
        OneResponse(s, c);
        if c.Play? {
          PlayKeepsTransport(s, c);
        } else if c.Setup? {
          SetupUdp(s, c);
        } else {
          OtherKeepsTransport(s, c);
        }
      case Tick(now, land) => PaceUdp(s, now, land);
    }
  }

  lemma SetupUdp(s: State, c: Command)
    requires !s.useTcp && c.Setup? && !c.transport.Tcp?
    ensures !Handle(s, c).state.useTcp
  {
  }

  lemma {:induction false} StaysUdp(s: State, run: seq<Action>)
    requires !s.useTcp && forall i | 0 <= i < |run| :: !AsksForTcp(run[i])
    ensures NoneTcp(Acts(s, run).outs)
    decreases |run|
  {
    hide Act, AsksForTcp;
    if run != [] {
      ActUdp(s, run[0]);
      StaysUdp(Act(s, run[0]).state, run[1..]);
    }
  }

  /** After a SETUP over UDP that is accepted, no frame goes over the connection until a SETUP asks for that. */
  lemma UdpChosen(s: State, cseq: int, audio: bool, port: Option<int>, run: seq<Action>)
    requires s.describeDone && s.media.Some? && port.Some? && forall i | 0 <= i < |run| :: !AsksForTcp(run[i])
    ensures var outs := Acts(s, [Do(Setup(cseq, audio, Udp(port, true)))] + run).outs;
            && outs != [] && outs[0] == Response(cseq, 200, None)
            && forall i | 0 <= i < |outs| && outs[i].Video? :: !outs[i].tcp
  {
    hide Acts, AsksForTcp, Pace;
    var a := Do(Setup(cseq, audio, Udp(port, true)));
    FirstOut(s, a, run);
    StaysUdp(Act(s, a).state, run);
  }

  // ---------- the run, received ----------

  // How responses are written; the text itself is the subject of `Response`.
  type Writer = Output -> seq<byte>

  function Items(outs: seq<Output>, write: Writer): seq<V.Item> {
    if outs == [] then []
    else
      match outs[0]
      case Response(_, _, _) => [V.Item.Reply(write(outs[0]))] + Items(outs[1..], write)
      case Video(st, f, _, _) => [V.Item.Video(st, f)] + Items(outs[1..], write)
  }

  // What is queued for the connection, buffer by buffer.
  function Buffers(outs: seq<Output>, write: Writer): seq<seq<byte>> {
    if outs == [] then []
    else
      match outs[0]
      case Response(_, _, _) => [write(outs[0])] + Buffers(outs[1..], write)
      case Video(st, f, n, tcp) => (if tcp then Wire(st, FramePackets(st, f, n)) else []) + Buffers(outs[1..], write)
  }

  // The interleaved frames among them.
  function VideoFrames(outs: seq<Output>): seq<seq<byte>> {
    if outs == [] then []
    else
      match outs[0]
      case Response(_, _, _) => VideoFrames(outs[1..])
      case Video(st, f, n, tcp) => (if tcp then Wire(st, FramePackets(st, f, n)) else []) + VideoFrames(outs[1..])
  }

  lemma {:induction false} VideoFramesAppend(a: seq<Output>, b: seq<Output>)
    ensures VideoFrames(a + b) == VideoFrames(a) + VideoFrames(b)
  {
    hide Wire, FramePackets;
    if a == [] {
      assert a + b == b;
    } else {
      assert (a + b)[1..] == a[1..] + b && (a + b)[0] == a[0];
      VideoFramesAppend(a[1..], b);
      match a[0] {
        case Response(_, _, _) =>
        case Video(st, f, n, tcp) =>
          Assoc(if tcp then Wire(st, FramePackets(st, f, n)) else [], VideoFrames(a[1..]), VideoFrames(b));
      }
    }
  }

  lemma VideoFramesOne(o: Output)
    ensures VideoFrames([o]) == match o
                                case Response(_, _, _) => []
                                case Video(st, f, n, tcp) => if tcp then Wire(st, FramePackets(st, f, n)) else []
  {
    hide Wire, FramePackets;
    assert [o][1..] == [];
  }

  lemma {:induction false} BytesOfItems(outs: seq<Output>, write: Writer, channel: byte, q: u16, q': u16)
    requires Numbered(outs, q, q') && AllFrom(outs, channel)
    ensures Concat(Buffers(outs, write)) == V.StreamBytes(Items(outs, write), q)
    decreases |outs|
  {
    hide FramePackets, Payloads, NalList, Wire;
    if outs != [] {
      hide Concat;
      var rest := outs[1..];
      assert AllFrom(rest, channel);
      match outs[0] {
        case Response(_, _, _) =>
          BytesOfItems(rest, write, channel, q, q');
          ConcatAppend([write(outs[0])], Buffers(rest, write));
          ConcatOne(write(outs[0]));
          assert Items(outs, write)[1..] == Items(rest, write);
        case Video(st, f, _, _) =>
          BytesOfItems(rest, write, channel, (q + |Payloads(NalList(st, f))|) % TWO_16, q');
          assert outs[0] == Video(st, f, q, true);
          assert Buffers(outs, write) == Wire(st, FramePackets(st, f, q)) + Buffers(rest, write);
          ConcatAppend(Wire(st, FramePackets(st, f, q)), Buffers(rest, write));
          assert Items(outs, write)[1..] == Items(rest, write);
      }
    }
  }

  lemma ConcatOne(w: seq<byte>)
    ensures Concat([w]) == w
  {
    assert w + Concat([]) == w;
  }

  ghost predicate Carried(outs: seq<Output>) {
    forall i | 0 <= i < |outs| :: outs[i].Video? ==> V.AllCarriable(NalList(outs[i].stream, outs[i].frame))
  }

  ghost predicate Readable(outs: seq<Output>, write: Writer) {
    forall i | 0 <= i < |outs| :: outs[i].Response? ==> V.IsReply(write(outs[i]))
  }

  lemma {:induction false} ItemsSendable(outs: seq<Output>, write: Writer, channel: byte)
    requires Carried(outs) && AllFrom(outs, channel) && Readable(outs, write)
    ensures forall i | 0 <= i < |Items(outs, write)| :: V.Sendable(channel, Items(outs, write)[i])
    decreases |outs|
  {
    hide V.AllCarriable, NalList, V.IsReply, V.Channel;
    if outs != [] {
      var rest := outs[1..];
      assert AllFrom(rest, channel) && Carried(rest) && Readable(rest, write);
      ItemsSendable(rest, write, channel);
      match outs[0] {
        case Response(_, _, _) => assert V.Sendable(channel, V.Item.Reply(write(outs[0])));
        case Video(st, f, _, _) => assert V.Sendable(channel, V.Item.Video(st, f));
      }
    }
  }

  /**
   Whatever a client asks for, short of moving the video elsewhere, and however ticks fall: the receiver
   gets back every frame the session sent as one access unit, and every response, each in order.
   */
  lemma RunReceived(s: State, run: seq<Action>, write: Writer, channel: byte, pl: V.Player)
    requires OnChannel(s, run, channel)
    requires Carried(Acts(s, run).outs) && Readable(Acts(s, run).outs, write)
    requires V.Fresh(pl) && pl.next == s.sequence
    ensures var outs := Acts(s, run).outs;
            var end := V.Play(pl, channel, Concat(Buffers(outs, write)));
            end.Some? && V.Fresh(end.value)
            && end.value.units == pl.units + V.AllShown(Items(outs, write))
            && end.value.replies == pl.replies + V.AllSaid(Items(outs, write))
  {
    hide Acts, OnChannel, Carried, Readable, V.Sendable, V.Play, V.Fresh;
    var r := Acts(s, run);
    RunIsNumbered(s, run);
    RunStreams(s, run, channel);
    BytesOfItems(r.outs, write, channel, s.sequence, r.state.sequence);
    ItemsSendable(r.outs, write, channel);
    V.EndToEnd(pl, channel, Items(r.outs, write));
  }
}
