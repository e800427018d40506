/**
 A pause that the clock forgets, from a new session: PLAY, PAUSE, SETUP, a DESCRIBE that is refused, PLAY,
 and a DESCRIBE that opens the file again. The frames that follow are timed as if there had been no pause.
 */
module SessionLostPause {
  import opened Basics
  import opened VideoStream
  import opened Session
  import P = SessionPacing
  import T = SessionTimestamps
  import M = MediaSource

  // Played for one nanosecond from 1 to 2, paused for `pause`, played again.
  function Requests(m: M.Source, pause: int): seq<Action> {
    [Do(Describe(1, Opened(m))), Do(Setup(2, false, Tcp(None))), Do(Play(3, 1, false, None, None, M.Probe(0, 0))),
     Tick(1, 0),
     Do(Pause(4, 2)), Do(Setup(5, false, Tcp(None))), Do(Describe(6, Refused(404))),
     Do(Play(7, 2 + pause, false, None, None, M.Probe(0, 0))), Do(Describe(8, Opened(m))),
     Tick(3 + pause, 0)]
  }

  // Two frames, `step` apart on the 90 kHz clock.
  predicate TwoFrames(m: M.Source, step: u32) {
    && m.num == 1 && m.den == 90000 && |m.file| == 2
    && m.file[0].pts == 0 && m.file[0].key && m.file[0].nals != []
    && m.file[1].pts == step && m.file[1].nals != []
  }

  // ---------- a key frame behind the gate, with the clock already set ----------

  lemma GatedTick(s: State, now: int)
    requires Active(s) && s.pauseStart == 0 && !s.firstFrame && s.pending.None? && s.nptEnd <= 0.0
    requires M.Read(s.media.value).frame.Some?
    requires var f := M.Read(s.media.value).frame.value;
             f.key && f.nals != [] && now >= s.wallStart + MediaNs(Offset(s, f))
    ensures var r := Pace(s, now, 0).state;
            && Active(r) && r.pauseStart == 0 && !r.firstFrame && r.pending.None? && !r.waitIdr && r.nptEnd <= 0.0
            && r.wallStart == s.wallStart && r.loopOffset == s.loopOffset
            && r.media == Some(M.Read(s.media.value).source)
  {
    hide M.Read, Tracked, NalList, Payloads, MediaNs;
    var r := M.Read(s.media.value);
    var s' := s.(media := Some(r.source), waitIdr := false);
    SendFootprint(s', r.frame.value);
    SendTracks(s', r.frame.value);
  }

  // ---------- the requests in between ----------

  // The clock of a stream that has started, nobody playing it.
  ghost predicate Started(s: State, anchor: int) {
    && !s.firstFrame && s.pending.None? && s.wallStart == anchor && s.loopOffset == 0
    && s.transportReady && s.describeDone
  }

  lemma PauseSetupRefuse(s: State, cseq: int, at: int)
    requires Started(s, 1) && s.mode == Playing && s.media.Some? && at != 0
    ensures var a := Handle(s, Pause(cseq, at)).state;
            var b := Handle(a, Setup(cseq + 1, false, Tcp(None))).state;
            var c := Handle(b, Describe(cseq + 2, Refused(404))).state;
            Started(c, 1) && c.mode == Ready && c.media.None? && c.pauseStart == at
  {
  }

  lemma PlayNothing(s: State, c: Command)
    requires Started(s, 1) && s.mode == Ready && s.media.None? && c.Play? && !c.scale && c.end.None?
    ensures var r := Handle(s, c).state;
            Started(r, 1) && r.mode == Playing && r.pauseStart == 0 && r.nptEnd == -1.0
  {
    hide M.Peek;
  }

  // ---------- the run ----------

  ghost predicate At(ssrc: u32, run: seq<Action>, s: State) {
    Acts(Fresh(ssrc), run).state == s
  }

  lemma Extend(ssrc: u32, run: seq<Action>, s: State, a: Action) returns (run': seq<Action>, s': State)
    requires At(ssrc, run, s)
    ensures run' == run + [a] && s' == Act(s, a).state && At(ssrc, run', s')
  {
    hide Acts, Act;
    run', s' := run + [a], Act(s, a).state;
    ActsAppend(Fresh(ssrc), run, [a]);
    OneAct(s, a);
  }

  lemma Nothing(ssrc: u32)
    ensures At(ssrc, [], Fresh(ssrc))
  {
  }

  // The first frame is out at 1.
  lemma UntilPlaying(ssrc: u32, m: M.Source, step: u32) returns (run: seq<Action>, s: State)
    requires TwoFrames(m, step)
    ensures run == Requests(m, 0)[..4] && At(ssrc, run, s)
    ensures Started(s, 1) && s.mode == Playing && s.media.Some?
  {
    hide At, Pace, M.Rescale, M.Seek, DoPlay;
    P.SameClock(0);
    P.SameClock(step);
    run, s := [], Fresh(ssrc);
    Nothing(ssrc);
    run, s := Extend(ssrc, run, s, Do(Describe(1, Opened(m))));
    run, s := Extend(ssrc, run, s, Do(Setup(2, false, Tcp(None))));
    var play := Play(3, 1, false, None, None, M.Probe(0, 0));
    var before := s;
    T.FreshMedia(s, play);
    PlayKeepsTransport(s, play);
    PrefetchedFirst(s.media.value, step);
    run, s := Extend(ssrc, run, s, Do(play));
    var g := Frame(0, true, m.file[0].nals);
    T.FirstTick(s, g, 1, 0);
    run, s := Extend(ssrc, run, s, Tick(1, 0));
  }

  lemma PrefetchedFirst(m: M.Source, step: u32)
    requires TwoFrames(m, step) && m.prefetch.None?
    ensures var m' := M.Peek(M.Seek(m, 0, 0)).source;
            m'.prefetch == Some(Frame(0, true, m.file[0].nals)) && m'.file == m.file
  {
    hide M.Rescale;
    P.SameClock(0);
    P.SameClock(step);
  }

  // Paused, set up again, and the file is gone.
  lemma UntilRefused(ssrc: u32, m: M.Source, step: u32, pause: int) returns (run: seq<Action>, s: State)
    requires TwoFrames(m, step)
    ensures run == Requests(m, pause)[..7] && At(ssrc, run, s)
    ensures Started(s, 1) && s.mode == Ready && s.media.None? && s.pauseStart == 2
  {
    hide At, Handle, Started;
    run, s := UntilPlaying(ssrc, m, step);
    PauseSetupRefuse(s, 4, 2);
    run, s := Extend(ssrc, run, s, Do(Pause(4, 2)));
    run, s := Extend(ssrc, run, s, Do(Setup(5, false, Tcp(None))));
    run, s := Extend(ssrc, run, s, Do(Describe(6, Refused(404))));
  }

  /** The PLAY that follows is one that forgets the pause. */
  lemma PauseIsForgotten(ssrc: u32, m: M.Source, step: u32, pause: int)
    requires TwoFrames(m, step) && pause > 0
    ensures var play := Requests(m, pause)[7];
            && play.Do? && play.command.Play?
            && P.Forgets(Acts(Fresh(ssrc), Requests(m, pause)[..7]).state, play.command)
  {
    hide At;
    var run, s := UntilRefused(ssrc, m, step, pause);
    AtIs(ssrc, run, s);
  }

  // The pause is forgotten and the file open again: the clock still starts at 1.
  lemma UntilReopened(ssrc: u32, m: M.Source, step: u32, pause: int) returns (run: seq<Action>, s: State)
    requires TwoFrames(m, step)
    ensures run == Requests(m, pause)[..9] && At(ssrc, run, s)
    ensures Started(s, 1) && s.mode == Playing && s.pauseStart == 0 && s.nptEnd == -1.0
    ensures s.media == Some(M.AtStart(m))
  {
    hide At, Handle, Started;
    run, s := UntilRefused(ssrc, m, step, pause);
    var play := Play(7, 2 + pause, false, None, None, M.Probe(0, 0));
    PlayNothing(s, play);
    run, s := Extend(ssrc, run, s, Do(play));
    Reopen(s, m);
    run, s := Extend(ssrc, run, s, Do(Describe(8, Opened(m))));
  }

  lemma Reopen(s: State, m: M.Source)
    requires Started(s, 1)
    ensures var r := Handle(s, Describe(8, Opened(m))).state;
            Started(r, 1) && r.mode == s.mode && r.pauseStart == s.pauseStart && r.nptEnd == s.nptEnd
            && r.media == Some(M.AtStart(m))
  {
  }

  /**
   The second frame is sent at `4 + pause`, when the stream has been playing for three nanoseconds since its
   anchor at 1: without the pause, its place in the stream has not been reached.
   */
  lemma LostPauseComesEarly(ssrc: u32, m: M.Source, step: u32, pause: int)
    requires TwoFrames(m, step) && step > 0 && P.Passed(pause, step)
    ensures var s := Acts(Fresh(ssrc), Requests(m, pause)).state;
            var now := 4 + pause;
            var outs := Act(s, Tick(now, 0)).outs;
            && |outs| == 1 && outs[0].Video? && outs[0].frame.timestamp == step
            && !P.Passed(now - 1 - pause, step)
  {
    hide At, Pace, M.Rescale, MediaNs, P.Passed;
    var run, s := UntilReopened(ssrc, m, step, pause);
    var s1 := s;
    FirstRead(m, step);
    assert MediaNs(0) == 0 by { NoOffset(step); }
    P.MediaNsPassed(pause, step);
    P.MediaNsPassed(3, step);
    GatedTick(s, 3 + pause);
    run, s := Extend(ssrc, run, s, Tick(3 + pause, 0));
    assert run == Requests(m, pause);
    NoOffset(step);
    assert Offset(s, M.Read(s.media.value).frame.value) == step;
    T.SecondTick(s, 4 + pause, 0);
    assert Acts(Fresh(ssrc), Requests(m, pause)).state == s by { AtIs(ssrc, run, s); }
  }

  lemma AtIs(ssrc: u32, run: seq<Action>, s: State)
    requires At(ssrc, run, s)
    ensures Acts(Fresh(ssrc), run).state == s
  {
  }

  lemma NoOffset(step: u32)
    ensures MediaNs(0) == 0 && (step > 0 ==> MediaNs(step) > 3)
  {
  }

  lemma FirstRead(m: M.Source, step: u32)
    requires TwoFrames(m, step)
    ensures var r := M.Read(M.AtStart(m));
            && r.frame == Some(Frame(0, true, m.file[0].nals))
            && M.Read(r.source).frame == Some(Frame(step, m.file[1].key, m.file[1].nals))
  {
    hide M.Rescale;
    P.SameClock(0);
    P.SameClock(step);
  }
}
