/** What every run of a session keeps: when video may flow, and how a stream starts. */
module SessionSafety {
  import opened Basics
  import opened VideoStream
  import opened Session
  import M = MediaSource

  // ---------- states ----------

  ghost predicate Safe(s: State) {
    s.mode != Init ==> s.transportReady && s.describeDone
  }

  lemma PlayKeepsSafe(s: State, c: Command)
    requires Safe(s) && c.Play?
    ensures Safe(Handle(s, c).state)
  {
    hide M.Peek, Sought;
  }

  lemma SetupIsReady(s: State, cseq: int, audio: bool, transport: Transport)
    ensures var s' := DoSetup(s, cseq, audio, transport).state;
            s'.describeDone == s.describeDone
            && ((s'.mode == s.mode && s'.transportReady == s.transportReady)
                || (s'.mode == Ready && s'.transportReady && s.describeDone))
  {
  }

  lemma HandleKeepsSafe(s: State, c: Command)
    requires Safe(s)
    ensures Safe(Handle(s, c).state)
  {
    hide DoPlay, DoSetup;
    if c.Play? {
      PlayKeepsSafe(s, c);
    } else if c.Setup? {
      SetupIsReady(s, c.cseq, c.audio, c.transport);
    }
  }

  lemma EmitKeepsSetup(s: State, f: Frame, now: int)
    requires s.media.Some?
    ensures var s' := Emit(s, f, now).state;
            s'.transportReady == s.transportReady && s'.describeDone == s.describeDone && s'.media == s.media
            && s'.mode == s.mode
  {
    hide Send, MediaNs, Offset;
    SendFootprint(Anchored(s, f, now), f);
  }

  // Past the requests, the pacer only ever moves from Playing to Paused, at the end of the range.
  lemma FrameKeepsSetup(s: State, f: Frame, now: int)
    requires s.media.Some?
    ensures var s' := Admit(s, f, now).state;
            s'.transportReady == s.transportReady && s'.describeDone == s.describeDone && s'.media == s.media
            && (s'.mode == s.mode || s'.mode == Paused)
    ensures var s' := Held(s, f, now).state;
            s'.transportReady == s.transportReady && s'.describeDone == s.describeDone && s'.media == s.media
            && s'.mode == s.mode
  {
    hide Emit, PastEnd;
    EmitKeepsSetup(s.(waitIdr := false), f, now);
  }

  lemma PaceKeepsSafe(s: State, now: int, land: nat)
    requires Safe(s)
    ensures Safe(Pace(s, now, land).state)
  {
    hide M.Read, M.Seek, Admit, Held;
    if Active(s) {
      var s' := Resume(s, now);
      if s'.firstFrame || s'.pending.None? {
        var r := M.Read(s.media.value);
        if r.frame.Some? {
          FrameKeepsSetup(s'.(pending := None, media := Some(r.source)), r.frame.value, now);
        }
      } else {
        FrameKeepsSetup(s', s'.pending.value, now);
      }
    }
  }

  lemma ActKeepsSafe(s: State, a: Action)
    requires Safe(s)
    ensures Safe(Act(s, a).state)
  {
    hide Handle, Pace, Safe;
    match a {
      case Do(c) => HandleKeepsSafe(s, c);
      case Tick(now, land) => PaceKeepsSafe(s, now, land);
    }
  }

  lemma {:induction false} RunKeepsSafe(s: State, run: seq<Action>)
    requires Safe(s)
    ensures Safe(Acts(s, run).state)
    decreases |run|
  {
    hide Act, Safe;
    if run != [] {
      ActKeepsSafe(s, run[0]);
      RunKeepsSafe(Act(s, run[0]).state, run[1..]);
    }
  }

  /** Outside Init the session has been described and set up, in every run. */
  lemma RunsAreSafe(ssrc: u32, run: seq<Action>)
    ensures var s := Acts(Fresh(ssrc), run).state;
            s.mode != Init ==> s.transportReady && s.describeDone
  {
    hide Acts;
    RunKeepsSafe(Fresh(ssrc), run);
  }

  // ---------- video only while playing, none after TEARDOWN ----------

  ghost predicate Silent(outs: seq<Output>) {
    forall i | 0 <= i < |outs| :: outs[i].Response?
  }

  lemma SilentAppend(a: seq<Output>, b: seq<Output>)
    ensures Silent(a + b) <==> Silent(a) && Silent(b)
  {
    if Silent(a + b) {
      assert forall i | 0 <= i < |a| :: a[i] == (a + b)[i];
      assert forall i | 0 <= i < |b| :: b[i] == (a + b)[|a| + i];
    }
  }

  predicate IsVideoSetup(a: Action) {
    a.Do? && a.command.Setup? && !a.command.audio
  }

  predicate IsPlay(a: Action) {
    a.Do? && a.command.Play?
  }

  lemma NotPlayingHandled(s: State, c: Command)
    ensures s.mode == Init && !IsVideoSetup(Do(c)) ==> Handle(s, c).state.mode == Init
    ensures (s.mode == Init || s.mode == Ready) && !IsPlay(Do(c))
            ==> Handle(s, c).state.mode == Init || Handle(s, c).state.mode == Ready
  {
    hide DoPlay;
    if c.Play? && s.mode == Init {
      NoPlayInInit(s, c);
    }
  }

  lemma NoPlayInInit(s: State, c: Command)
    requires c.Play? && s.mode == Init
    ensures Handle(s, c).state == s
  {
  }

  lemma NotPlayingIsSilent(s: State, a: Action)
    requires s.mode != Playing
    ensures Silent(Act(s, a).outs)
    ensures s.mode == Init && !IsVideoSetup(a) ==> Act(s, a).state.mode == Init
    ensures (s.mode == Init || s.mode == Ready) && !IsPlay(a)
            ==> Act(s, a).state.mode == Init || Act(s, a).state.mode == Ready
  {
    hide Handle, M.Read;
    match a {
      case Do(c) =>
        OneResponse(s, c);
        NotPlayingHandled(s, c);
      case Tick(_, _) =>
    }
  }

  lemma {:induction false} SilentUntilSetup(s: State, run: seq<Action>)
    requires s.mode == Init && forall i | 0 <= i < |run| :: !IsVideoSetup(run[i])
    ensures Silent(Acts(s, run).outs) && Acts(s, run).state.mode == Init
    decreases |run|
  {
    hide Act, IsVideoSetup;
    if run != [] {
      var r := Act(s, run[0]);
      NotPlayingIsSilent(s, run[0]);
      SilentUntilSetup(r.state, run[1..]);
      SilentAppend(r.outs, Acts(r.state, run[1..]).outs);
    }
  }

  lemma {:induction false} SilentUntilPlay(s: State, run: seq<Action>)
    requires s.mode == Init || s.mode == Ready
    requires forall i | 0 <= i < |run| :: !IsPlay(run[i])
    ensures Silent(Acts(s, run).outs)
    decreases |run|
  {
    hide Act, IsPlay;
    if run != [] {
      var r := Act(s, run[0]);
      NotPlayingIsSilent(s, run[0]);
      SilentUntilPlay(r.state, run[1..]);
      SilentAppend(r.outs, Acts(r.state, run[1..]).outs);
    }
  }

  lemma {:induction false} FirstVideoSetup(run: seq<Action>) returns (i: nat)
    requires exists k | 0 <= k < |run| :: IsVideoSetup(run[k])
    ensures i < |run| && IsVideoSetup(run[i]) && forall k | 0 <= k < i :: !IsVideoSetup(run[k])
  {
    i := 0;
    while !IsVideoSetup(run[i])
      invariant i < |run| && forall k | 0 <= k < i :: !IsVideoSetup(run[k])
      decreases |run| - i
    {
      i := i + 1;
    }
  }

  // A video SETUP and, after it, a PLAY.
  ghost predicate SetUpThenPlayed(run: seq<Action>) {
    exists i, j | 0 <= i < j < |run| :: IsVideoSetup(run[i]) && IsPlay(run[j])
  }

  /** After a TEARDOWN no video is sent unless a video SETUP and then a PLAY are handled. */
  lemma NoVideoAfterTeardown(s: State, cseq: int, run: seq<Action>)
    ensures var torn := Act(s, Do(Teardown(cseq))).state;
            !Silent(Acts(torn, run).outs) ==> SetUpThenPlayed(run)
  {
    hide IsVideoSetup, IsPlay;
    var torn := Act(s, Do(Teardown(cseq))).state;
    if !Silent(Acts(torn, run).outs) && !SetUpThenPlayed(run) {
      if forall k | 0 <= k < |run| :: !IsVideoSetup(run[k]) {
        SilentUntilSetup(torn, run);
      } else {
        NoVideoFromInit(torn, run);
      }
    }
  }

  lemma NoVideoFromInit(s: State, run: seq<Action>)
    requires s.mode == Init && !SetUpThenPlayed(run) && exists k | 0 <= k < |run| :: IsVideoSetup(run[k])
    ensures Silent(Acts(s, run).outs)
  {
    hide Act;
    var i := FirstVideoSetup(run);
    var a, b := run[..i], run[i..];
    assert run == a + b;
    ActsAppend(s, a, b);
    SilentUntilSetup(s, a);
    forall k | 0 <= k < |b| ensures !IsPlay(b[k]) {
      assert b[k] == run[i + k];
    }
    SilentUntilPlay(Acts(s, a).state, b);
    SilentAppend(Acts(s, a).outs, Acts(Acts(s, a).state, b).outs);
  }

  lemma SetupErrors(s: State, cseq: int, audio: bool, transport: Transport)
    requires DoSetup(s, cseq, audio, transport).outs[0] != Response(cseq, 200, None)
    ensures var s' := DoSetup(s, cseq, audio, transport).state;
            s' == s.(useTcp := s'.useTcp) && (s'.useTcp != s.useTcp ==> transport.Udp?)
  {
    hide Prepared;
  }

  lemma PlayErrors(s: State, c: Command)
    requires c.Play? && Handle(s, c).outs[0].status != 200
    ensures Handle(s, c).state == s
  {
    hide StartAfresh, SeekAndReset, Resume, M.Peek;
  }

  /** A request answered with an error leaves the mode and the pacing alone. */
  lemma ErrorsChangeNothing(s: State, c: Command)
    requires Handle(s, c).outs[0].Response? && Handle(s, c).outs[0].status != 200
    requires c.Describe? ==> c.opening != Refused(200)
    ensures var s' := Handle(s, c).state;
            s' == s.(media := s'.media, useTcp := s'.useTcp)
            && (s'.media != s.media ==> c.Describe? && s'.media.None?)
            && (s'.useTcp != s.useTcp ==> c.Setup? && c.transport.Udp?)
  {
    hide DoPlay, DoSetup;
    if c.Play? {
      PlayErrors(s, c);
    } else if c.Setup? {
      SetupErrors(s, c.cseq, c.audio, c.transport);
    }
  }

  // ---------- every start is decodable ----------

  function FirstVideo(outs: seq<Output>): Option<Output> {
    if outs == [] then None else if outs[0].Video? then Some(outs[0]) else FirstVideo(outs[1..])
  }

  lemma {:induction false} FirstVideoAppend(a: seq<Output>, b: seq<Output>)
    ensures FirstVideo(a + b) == if FirstVideo(a).Some? then FirstVideo(a) else FirstVideo(b)
  {
    if a == [] {
      assert a + b == b;
    } else {
      assert (a + b)[1..] == a[1..] + b;
      FirstVideoAppend(a[1..], b);
    }
  }

  lemma FirstVideoOf(o: Output)
    ensures FirstVideo([o]) == if o.Video? then Some(o) else None
  {
    assert [o][1..] == [];
  }

  // A frame that arrives at a start is refused, or is due at once.
  lemma FirstFrameAdmitted(s: State, f: Frame, now: int)
    requires s.media.Some? && s.firstFrame
    ensures var r := Admit(s, f, now);
            if f.nals == [] || !f.key || PastEnd(s.nptEnd, f)
            then r.outs == [] && r.state == s.(waitIdr := r.state.waitIdr, mode := r.state.mode)
            else r.outs == [Video(StreamOf(s), f, s.sequence, s.useTcp)]
  {
    hide NalList, Payloads, PastEnd;
    assert (f.timestamp - f.timestamp) % TWO_32 == 0;
    assert MediaNs(0) == 0;
  }

  // Anchored at this tick, the frame is sent.
  lemma FirstFrameSent(s: State, f: Frame, now: int)
    requires s.media.Some? && s.firstFrame && f.key && f.nals != [] && !PastEnd(s.nptEnd, f)
    ensures var r := Admit(s, f, now).state;
            && r.mode == s.mode && r.transportReady == s.transportReady && r.describeDone == s.describeDone
            && r.media == s.media && r.pauseStart == s.pauseStart && r.nptEnd == s.nptEnd
            && r.wallStart == now && r.loopOffset == f.timestamp && !r.firstFrame && !r.waitIdr
            && r.pending.None? && r.lastRtp == f.timestamp && (s.lastRtp == 0 ==> r.lastDur == s.lastDur)
  {
    hide Send, PastEnd;
    assert (f.timestamp - f.timestamp) % TWO_32 == 0;
    assert MediaNs(0) == 0;
    var s' := Anchored(s.(waitIdr := false), f, now);
    SendFootprint(s', f);
    SendTracks(s', f);
  }

  lemma FirstFramePaced(s: State, now: int, land: nat)
    requires Active(s) && s.firstFrame
    ensures var r := M.Read(s.media.value);
            Pace(s, now, land) == Fetch(s.(pauseStart := 0, pending := None), now, land)
            && (r.frame.Some? ==>
                  Pace(s, now, land)
                  == Admit(s.(pauseStart := 0, pending := None, media := Some(r.source)), r.frame.value, now))
  {
    hide Admit, M.Read, Rewound;
    assert Resume(s, now) == s.(pauseStart := 0);
  }

  lemma StartPlayed(s: State, c: Command)
    requires s.firstFrame && c.Play?
    ensures Handle(s, c).state.firstFrame
  {
    hide M.Peek, Sought;
  }

  lemma StartHandled(s: State, c: Command)
    requires s.firstFrame
    ensures Handle(s, c).state.firstFrame
  {
    hide Handle;
    if c.Play? {
      StartPlayed(s, c);
    } else {
      OnlyPlayTouchesPacing(s, c);
    }
  }

  lemma StartPaced(s: State, now: int, land: nat)
    requires s.firstFrame
    ensures var r := Pace(s, now, land);
            (r.state.firstFrame && r.outs == []) || (|r.outs| == 1 && r.outs[0].Video? && r.outs[0].frame.key)
  {
    hide Admit, M.Read, M.Seek;
    if Active(s) {
      var r := M.Read(s.media.value);
      FirstFramePaced(s, now, land);
      if r.frame.Some? {
        FirstFrameAdmitted(s.(pauseStart := 0, pending := None, media := Some(r.source)), r.frame.value, now);
      }
    }
  }

  lemma StartStep(s: State, a: Action)
    requires s.firstFrame
    ensures var r := Act(s, a);
            (r.state.firstFrame && r.outs == []) || (r.state.firstFrame && |r.outs| == 1 && r.outs[0].Response?)
            || (|r.outs| == 1 && r.outs[0].Video? && r.outs[0].frame.key)
  {
    hide Handle, Pace;
    match a {
      case Do(c) =>
        StartHandled(s, c);
        OneResponse(s, c);
      case Tick(now, land) => StartPaced(s, now, land);
    }
  }

  /** After a PLAY, a seek or a loop, the first frame sent is a key frame. */
  lemma {:induction false} StartsWithKeyFrame(s: State, run: seq<Action>)
    requires s.firstFrame
    ensures var v := FirstVideo(Acts(s, run).outs);
            v.Some? ==> v.value.Video? && v.value.frame.key
    decreases |run|
  {
    hide Act;
    if run != [] {
      var r := Act(s, run[0]);
      StartStep(s, run[0]);
      FirstVideoAppend(r.outs, Acts(r.state, run[1..]).outs);
      if r.outs != [] {
        FirstVideoOf(r.outs[0]);
        assert r.outs == [r.outs[0]];
      }
      if r.state.firstFrame {
        StartsWithKeyFrame(r.state, run[1..]);
      }
    }
  }

  // ---------- RTP-Info ----------

  // The frame announced is prefetched, admissible, and will be the first one after the start.
  ghost predicate Announced(s: State, f: Frame, sequence: u16) {
    && s.firstFrame && s.media.Some? && s.media.value.prefetch == Some(f) && s.sequence == sequence
    && f.key && f.nals != [] && !PastEnd(s.nptEnd, f)
  }

  // No new file, and no new end of playback in front of the frame.
  predicate KeepsAnnouncement(a: Action, f: Frame) {
    a.Do? ==>
      !a.command.Describe?
      && (a.command.Play? && a.command.end.Some? ==> !PastEnd(a.command.end.value, f))
  }

  // A frame prefetched by a PLAY is still there after a seek.
  lemma SeekKeepsPrefetch(s: State, position: real, probe: M.Probe, adjust: bool)
    requires s.media.Some?
    ensures var s' := SeekAndReset(s, position, probe, adjust);
            s'.media.Some? && s'.media.value.prefetch == s.media.value.prefetch
            && s' == s.(media := s'.media, firstFrame := true, pending := None)
  {
  }

  lemma AnnouncedPlay(s: State, f: Frame, sequence: u16, c: Command)
    requires Announced(s, f, sequence) && KeepsAnnouncement(Do(c), f) && c.Play?
    ensures Announced(Handle(s, c).state, f, sequence)
  {
    hide SeekAndReset, PlayFresh, PastEnd;
    SeekKeepsPrefetch(s, s.keyNpt, c.probe, true);
    AnnouncedAfresh(s, f, sequence, c);
  }

  lemma AnnouncedAfresh(s: State, f: Frame, sequence: u16, c: Command)
    requires Announced(s, f, sequence) && KeepsAnnouncement(Do(c), f) && c.Play?
    ensures Announced(PlayFresh(s, c.cseq, c.range, c.end, c.probe).state, f, sequence)
  {
    hide SeekAndReset;
    assert !PastEnd(-1.0, f);
    SeekKeepsPrefetch(s, if c.range.Some? then c.range.value else 0.0, c.probe, false);
  }

  lemma AnnouncedHandled(s: State, f: Frame, sequence: u16, c: Command)
    requires Announced(s, f, sequence) && KeepsAnnouncement(Do(c), f)
    ensures Announced(Handle(s, c).state, f, sequence)
  {
    hide Handle, PastEnd;
    if c.Play? {
      AnnouncedPlay(s, f, sequence, c);
    } else {
      OnlyPlayTouchesPacing(s, c);
    }
  }

  lemma AnnouncedPaced(s: State, f: Frame, sequence: u16, now: int, land: nat)
    requires Announced(s, f, sequence)
    ensures var r := Pace(s, now, land);
            if Active(s)
            then |r.outs| == 1 && r.outs[0].Video? && r.outs[0].frame == f && r.outs[0].sequence == sequence
            else r.outs == [] && Announced(r.state, f, sequence)
  {
    hide Admit, PastEnd;
    if Active(s) {
      FirstFramePaced(s, now, land);
      FirstFrameAdmitted(s.(pauseStart := 0, pending := None, media := Some(M.Read(s.media.value).source)), f, now);
    }
  }

  lemma AnnouncedStep(s: State, f: Frame, sequence: u16, a: Action)
    requires Announced(s, f, sequence) && KeepsAnnouncement(a, f)
    ensures var r := Act(s, a);
            || (Announced(r.state, f, sequence) && (r.outs == [] || (|r.outs| == 1 && r.outs[0].Response?)))
            || (|r.outs| == 1 && r.outs[0].Video? && r.outs[0].frame == f && r.outs[0].sequence == sequence)
  {
    hide Handle, Pace, Announced;
    match a {
      case Do(c) =>
        AnnouncedHandled(s, f, sequence, c);
        OneResponse(s, c);
      case Tick(now, land) => AnnouncedPaced(s, f, sequence, now, land);
    }
  }

  lemma {:induction false} AnnouncedRun(s: State, f: Frame, sequence: u16, run: seq<Action>)
    requires Announced(s, f, sequence) && forall i | 0 <= i < |run| :: KeepsAnnouncement(run[i], f)
    ensures var v := FirstVideo(Acts(s, run).outs);
            v.Some? ==> v.value.Video? && v.value.frame == f && v.value.sequence == sequence
    decreases |run|
  {
    hide Act, Announced, KeepsAnnouncement;
    if run != [] {
      var r := Act(s, run[0]);
      AnnouncedStep(s, f, sequence, run[0]);
      FirstVideoAppend(r.outs, Acts(r.state, run[1..]).outs);
      if r.outs != [] {
        FirstVideoOf(r.outs[0]);
        assert r.outs == [r.outs[0]];
      }
      if Announced(r.state, f, sequence) {
        AnnouncedRun(r.state, f, sequence, run[1..]);
      }
    }
  }

  // A PLAY that starts afresh.
  predicate StartsAfresh(s: State, c: Command) {
    c.Play? && !c.scale && (s.mode == Ready || s.mode == Playing)
  }

  // Less than `end` seconds on the 90 kHz clock.
  predicate InTime(f: Frame, end: real) {
    f.timestamp as real < 90000.0 * end
  }

  lemma InTimeIff(end: real, f: Frame)
    ensures !PastEnd(end, f) <==> (end > 0.0 ==> InTime(f, end))
  {
  }

  lemma EndKept(s: State, c: Command)
    requires StartsAfresh(s, c)
    ensures Handle(s, c).state.nptEnd == if c.end.Some? then c.end.value else -1.0
  {
    hide Sought, M.Peek;
  }

  lemma PeekAnnounces(m: M.Source)
    ensures M.Peek(m).source.prefetch.Some? ==> M.Peek(m).timestamp == M.Peek(m).source.prefetch.value.timestamp
  {
    hide M.TimestampAt, M.Anchor;
  }

  // What such a PLAY leaves behind, and what it says.
  lemma StartedAfresh(s: State, c: Command)
    requires StartsAfresh(s, c) && s.media.Some?
    ensures var r := Handle(s, c);
            && r.state.firstFrame && r.state.media.Some? && r.state.mode == Playing
            && r.state.transportReady == s.transportReady
            && |r.outs| == 1 && r.outs[0].Response? && r.outs[0].info.Some?
            && r.outs[0].info.value.sequence == r.state.sequence
            && (r.state.media.value.prefetch.Some?
                ==> r.outs[0].info.value.rtptime == r.state.media.value.prefetch.value.timestamp)
  {
    hide Sought, M.Peek;
    PeekAnnounces(StartAfresh(s, c.range, c.end, c.probe).media.value);
  }

  /**
   The sequence number and timestamp announced by a fresh PLAY are those of the first frame sent after it,
   and of its first packet, if that frame is a key frame with NAL units before the end of the requested range.
   */
  lemma RtpInfoIsTruthful(s: State, c: Command, run: seq<Action>)
    requires StartsAfresh(s, c) && s.media.Some?
    requires var s' := Handle(s, c).state;
             && s'.media.Some? && s'.media.value.prefetch.Some?
             && var f := s'.media.value.prefetch.value;
             f.key && f.nals != [] && !PastEnd(s'.nptEnd, f)
             && forall i | 0 <= i < |run| :: KeepsAnnouncement(run[i], f)
    ensures var r := Handle(s, c);
            && |r.outs| == 1 && r.outs[0].Response? && r.outs[0].info.Some?
            && var v := FirstVideo(Acts(r.state, run).outs);
            v.Some? ==>
              && v.value.Video? && v.value.frame == r.state.media.value.prefetch.value
              && v.value.frame.timestamp == r.outs[0].info.value.rtptime
              && v.value.sequence == r.outs[0].info.value.sequence
              && var ps := FramePackets(v.value.stream, v.value.frame, v.value.sequence);
                 ps != [] ==> ps[0].timestamp == r.outs[0].info.value.rtptime
                              && ps[0].sequence == r.outs[0].info.value.sequence
  {
    hide Handle, StartsAfresh, PastEnd, KeepsAnnouncement, FramePackets;
    var s' := Handle(s, c).state;
    StartedAfresh(s, c);
    AnnouncedRun(s', s'.media.value.prefetch.value, s'.sequence, run);
    var v := FirstVideo(Acts(s', run).outs);
    if v.Some? {
      FirstPacket(v.value.stream, v.value.frame, v.value.sequence);
    }
  }

  lemma FirstPacket(st: Stream, f: Frame, q: u16)
    ensures var ps := FramePackets(st, f, q); ps != [] ==> ps[0].sequence == q && ps[0].timestamp == f.timestamp
  {
    hide Payloads, NalList, Mark;
  }

  /** The tick after such a PLAY sends the announced frame exactly under that condition. */
  lemma AnnouncedFrameSentIff(s: State, c: Command, now: int, land: nat)
    requires StartsAfresh(s, c) && s.media.Some? && s.transportReady
    requires var s' := Handle(s, c).state; s'.media.Some? && s'.media.value.prefetch.Some?
    ensures var s' := Handle(s, c).state;
            var f := s'.media.value.prefetch.value;
            Pace(s', now, land).outs != []
            <==> f.key && f.nals != [] && (c.end.Some? && c.end.value > 0.0 ==> InTime(f, c.end.value))
  {
    hide Handle, Admit, StartsAfresh, PastEnd, Pace, InTime;
    EndKept(s, c);
    InTimeIff(Handle(s, c).state.nptEnd, Handle(s, c).state.media.value.prefetch.value);
    var s' := Handle(s, c).state;
    StartedAfresh(s, c);
    FirstFramePaced(s', now, land);
    var r := M.Read(s'.media.value);
    FirstFrameAdmitted(s'.(pauseStart := 0, pending := None, media := Some(r.source)), r.frame.value, now);
  }
}
