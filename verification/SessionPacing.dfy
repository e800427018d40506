/** The wall clock of a session, against a stopwatch that runs while the session is not paused. */
module SessionPacing {
  import opened Basics
  import opened VideoStream
  import opened Session
  import M = MediaSource

  // ---------- the stopwatch ----------

  // since: when it was last started, while it runs; elapsed: the time before that.
  datatype Stopwatch = Stopwatch(elapsed: int, since: Option<int>)

  function Reading(w: Stopwatch, now: int): int {
    w.elapsed + if w.since.Some? then now - w.since.value else 0
  }

  function Stop(w: Stopwatch, now: int): Stopwatch {
    Stopwatch(Reading(w, now), None)
  }

  function Start(w: Stopwatch, now: int): Stopwatch {
    if w.since.Some? then w else Stopwatch(w.elapsed, Some(now))
  }

  // Reset by the first frame after a start; stopped by PAUSE or by the first tick that finds the session
  // paused; started again by PLAY. With Scale and no file a PLAY leaves the session as it was paused: the
  // first tick that can play ends that pause.
  function Observe(w: Stopwatch, s: State, a: Action): Stopwatch {
    match a
    case Tick(now, _) =>
      if s.firstFrame && !Act(s, a).state.firstFrame then Stopwatch(0, Some(now))
      else if s.mode == Paused then Stop(w, now)
      else if Active(s) then Start(w, now)
      else w
    case Do(c) =>
      if c.Pause? && s.mode == Playing then Stop(w, c.clock)
      else if c.Play? && (s.mode == Paused || (s.mode != Init && (s.media.Some? || !c.scale))) then Start(w, c.clock)
      else w
  }

  function Observed(w: Stopwatch, s: State, run: seq<Action>): Stopwatch
    decreases |run|
  {
    if run == [] then w else Observed(Observe(w, s, run[0]), Act(s, run[0]).state, run[1..])
  }

  // ---------- the invariant ----------

  // The wall clock start stands where a stopwatch reading of zero would be.
  ghost predicate OnTime(s: State, w: Stopwatch) {
    !s.firstFrame ==>
      if s.pauseStart == 0 then w.since.Some? && s.wallStart == w.since.value - w.elapsed
      else w.since.None? && s.pauseStart - s.wallStart == w.elapsed
  }

  // A started stream with a recorded pause: a PLAY without Scale and without a file erases the record, and
  // a PAUSE before any tick could play overwrites it.
  predicate Drops(s: State, c: Command) {
    && !s.firstFrame && s.pauseStart != 0
    && ((c.Play? && (s.mode == Ready || s.mode == Playing) && !c.scale && s.media.None?)
        || (c.Pause? && s.mode == Playing))
  }

  // Time has passed since the pause began that is dropped.
  predicate Forgets(s: State, c: Command) {
    Drops(s, c) && c.clock > s.pauseStart
  }

  // Clock readings that are recorded are not the time point that means "none"; no recorded pause is forgotten.
  predicate Sound(s: State, a: Action) {
    match a
    case Tick(now, _) => s.mode == Paused ==> now != 0
    case Do(c) => (c.Pause? ==> c.clock != 0) && (Drops(s, c) ==> c.clock == s.pauseStart)
  }

  ghost predicate SoundRun(s: State, run: seq<Action>)
    decreases |run|
  {
    run == [] || (Sound(s, run[0]) && SoundRun(Act(s, run[0]).state, run[1..]))
  }

  lemma EmitClock(s: State, f: Frame, now: int)
    requires s.media.Some?
    ensures var s' := Emit(s, f, now).state;
            !s'.firstFrame && s'.pauseStart == s.pauseStart && s'.mode == s.mode
            && s'.wallStart == (if s.firstFrame then now else s.wallStart)
  {
    hide Send, MediaNs, Offset;
    SendFootprint(Anchored(s, f, now), f);
  }

  lemma AdmitClock(s: State, f: Frame, now: int)
    requires s.media.Some?
    ensures var s' := Admit(s, f, now).state;
            s'.pauseStart == s.pauseStart && (s'.firstFrame ==> s.firstFrame)
            && s'.wallStart == (if s.firstFrame && !s'.firstFrame then now else s.wallStart)
    ensures var s' := Held(s, f, now).state;
            s'.pauseStart == s.pauseStart && (s'.firstFrame ==> s.firstFrame)
            && s'.wallStart == (if s.firstFrame && !s'.firstFrame then now else s.wallStart)
  {
    hide Emit, PastEnd;
    EmitClock(s.(waitIdr := false), f, now);
  }

  lemma PaceClock(s: State, now: int, land: nat)
    requires Active(s)
    ensures var s' := Pace(s, now, land).state;
            !s'.firstFrame ==>
              s'.pauseStart == 0
              && s'.wallStart == (if s.firstFrame then now else Resume(s, now).wallStart)
  {
    hide Admit, Held, M.Read, M.Seek;
    var s' := Resume(s, now);
    if s'.firstFrame || s'.pending.None? {
      var r := M.Read(s.media.value);
      if r.frame.Some? {
        AdmitClock(s'.(pending := None, media := Some(r.source)), r.frame.value, now);
      }
    } else {
      AdmitClock(s', s'.pending.value, now);
    }
  }

  lemma TickOnTime(s: State, w: Stopwatch, now: int, land: nat)
    requires OnTime(s, w) && Sound(s, Tick(now, land))
    ensures OnTime(Pace(s, now, land).state, Observe(w, s, Tick(now, land)))
  {
    hide Pace;
    if Active(s) {
      PaceClock(s, now, land);
    } else {
      IdlePaced(s, now, land);
    }
  }

  lemma IdlePaced(s: State, now: int, land: nat)
    requires !Active(s)
    ensures Pace(s, now, land) == Result(Idle(s, now), [])
  {
  }

  lemma SeekClock(s: State, position: real, probe: M.Probe, adjust: bool)
    ensures var s' := SeekAndReset(s, position, probe, adjust);
            s'.firstFrame == (s.firstFrame || s.media.Some?) && s'.wallStart == s.wallStart
            && s'.pauseStart == s.pauseStart && s'.mode == s.mode
  {
    hide Sought;
  }

  lemma FreshPlayClock(s: State, cseq: int, range: Option<real>, end: Option<real>, probe: M.Probe)
    ensures var s' := PlayFresh(s, cseq, range, end, probe).state;
            s'.firstFrame == (s.firstFrame || s.media.Some?) && s'.wallStart == s.wallStart && s'.pauseStart == 0
            && s'.mode == Playing
  {
    hide StartAfresh, M.Peek;
    StartClock(s, range, end, probe);
  }

  lemma StartClock(s: State, range: Option<real>, end: Option<real>, probe: M.Probe)
    ensures var s' := StartAfresh(s, range, end, probe);
            s'.firstFrame == (s.firstFrame || s.media.Some?) && s'.wallStart == s.wallStart && s'.pauseStart == 0
  {
    hide SeekAndReset;
    SeekClock(s, if range.Some? then range.value else 0.0, probe, false);
  }

  lemma PlayOnTime(s: State, w: Stopwatch, c: Command)
    requires OnTime(s, w) && c.Play? && Sound(s, Do(c))
    ensures OnTime(Handle(s, c).state, Observe(w, s, Do(c)))
  {
    hide Act, PlayFresh, SeekAndReset;
    SeekClock(s, s.keyNpt, c.probe, true);
    FreshPlayClock(s, c.cseq, c.range, c.end, c.probe);
  }

  lemma PauseOnTime(s: State, w: Stopwatch, c: Command)
    requires OnTime(s, w) && c.Pause? && Sound(s, Do(c))
    ensures OnTime(Handle(s, c).state, Observe(w, s, Do(c)))
  {
    hide Act;
  }

  lemma HandleOnTime(s: State, w: Stopwatch, c: Command)
    requires OnTime(s, w) && Sound(s, Do(c))
    ensures OnTime(Handle(s, c).state, Observe(w, s, Do(c)))
  {
    hide Handle, Act;
    if c.Play? {
      PlayOnTime(s, w, c);
    } else if c.Pause? {
      PauseOnTime(s, w, c);
    } else {
      OnlyPlayTouchesPacing(s, c);
    }
  }

  lemma ActOnTime(s: State, w: Stopwatch, a: Action)
    requires OnTime(s, w) && Sound(s, a)
    ensures OnTime(Act(s, a).state, Observe(w, s, a))
  {
    hide Handle, Pace, Observe, OnTime;
    match a {
      case Do(c) => HandleOnTime(s, w, c);
      case Tick(now, land) => TickOnTime(s, w, now, land);
    }
  }

  /** In every run the wall clock start is the last anchor plus all the time spent paused since. */
  lemma {:induction false} RunIsOnTime(s: State, w: Stopwatch, run: seq<Action>)
    requires OnTime(s, w) && SoundRun(s, run)
    ensures OnTime(Acts(s, run).state, Observed(w, s, run))
    decreases |run|
  {
    hide Act, OnTime, Sound, Observe;
    if run != [] {
      ActOnTime(s, w, run[0]);
      RunIsOnTime(Act(s, run[0]).state, Observe(w, s, run[0]), run[1..]);
    }
  }

  lemma EmitDue(s: State, f: Frame, now: int)
    requires s.media.Some?
    ensures var r := Emit(s, f, now);
            (r.outs != [] <==> now - r.state.wallStart >= MediaNs(Offset(r.state, f)))
            && (r.outs != [] ==> r.outs[0].Video? && r.outs[0].frame == f)
  {
    hide Tracked, NalList, Payloads, MediaNs;
    SendFootprint(Anchored(s, f, now), f);
    var s' := Anchored(s, f, now);
    assert Offset(Send(s', f).state, f) == Offset(s', f);
  }

  lemma AdmitDue(s: State, f: Frame, now: int)
    requires s.media.Some?
    ensures var r := Admit(s, f, now);
            r.outs != [] ==> r.outs[0].Video? && now - r.state.wallStart >= MediaNs(Offset(r.state, r.outs[0].frame))
    ensures var r := Held(s, f, now);
            r.outs != [] ==> r.outs[0].Video? && now - r.state.wallStart >= MediaNs(Offset(r.state, r.outs[0].frame))
    ensures Held(s, f, now).outs == [] ==>
              (s.waitIdr && !f.key) || now - Held(s, f, now).state.wallStart < MediaNs(Offset(Held(s, f, now).state, f))
  {
    hide Emit, PastEnd, MediaNs, Offset;
    EmitDue(s.(waitIdr := false), f, now);
  }

  lemma PaceDue(s: State, now: int, land: nat)
    ensures var r := Pace(s, now, land);
            r.outs != [] ==> Active(s) && !r.state.firstFrame
                             && r.outs[0].Video? && now - r.state.wallStart >= MediaNs(Offset(r.state, r.outs[0].frame))
  {
    hide Admit, Held, M.Read, M.Seek, MediaNs, Offset;
    if Active(s) {
      var s' := Resume(s, now);
      if s'.firstFrame || s'.pending.None? {
        var r := M.Read(s.media.value);
        if r.frame.Some? {
          SentMeansStarted(s'.(pending := None, media := Some(r.source)), r.frame.value, now);
          AdmitDue(s'.(pending := None, media := Some(r.source)), r.frame.value, now);
        }
      } else {
        SentMeansStarted(s', s'.pending.value, now);
        AdmitDue(s', s'.pending.value, now);
      }
    }
  }

  lemma SentMeansStarted(s: State, f: Frame, now: int)
    requires s.media.Some?
    ensures Admit(s, f, now).outs != [] ==> !Admit(s, f, now).state.firstFrame
    ensures Held(s, f, now).outs != [] ==> !Held(s, f, now).state.firstFrame
  {
    hide Emit, PastEnd;
    EmitClock(s.(waitIdr := false), f, now);
  }

  // So many ticks of 1/90000 s have passed after so many nanoseconds, but for a fraction of a nanosecond.
  predicate Passed(ns: int, ticks: nat) {
    9 * (ns + 1) > 100000 * ticks
  }

  lemma MediaNsPassed(ns: int, ticks: nat)
    ensures ns >= MediaNs(ticks) <==> Passed(ns, ticks)
  {
  }

  // What a tick sends has been reached by the stopwatch.
  ghost predicate Due(s: State, w: Stopwatch, a: Action) {
    a.Tick? && Act(s, a).outs != [] ==>
      var out := Act(s, a).outs[0];
      out.Video? && Passed(Reading(Observe(w, s, a), a.now), Offset(Act(s, a).state, out.frame))
  }

  ghost predicate AllDue(s: State, w: Stopwatch, run: seq<Action>)
    decreases |run|
  {
    run == [] || (Due(s, w, run[0]) && AllDue(Act(s, run[0]).state, Observe(w, s, run[0]), run[1..]))
  }

  lemma NeverEarly(s: State, w: Stopwatch, a: Action)
    requires OnTime(s, w) && Sound(s, a)
    ensures Due(s, w, a)
  {
    hide Pace, MediaNs, Offset, Handle, Sound, Passed;
    if a.Tick? {
      TickOnTime(s, w, a.now, a.land);
      PaceDue(s, a.now, a.land);
      var r := Pace(s, a.now, a.land);
      if Active(s) && r.outs != [] {
        PaceClock(s, a.now, a.land);
        MediaNsPassed(a.now - r.state.wallStart, Offset(r.state, r.outs[0].frame));
      }
    }
  }

  /**
   No frame of any sound run is sent before its place in the stream has been reached by the stopwatch.
   A new session is on time, whatever the stopwatch shows.
   */
  lemma {:induction false} RunNeverEarly(s: State, w: Stopwatch, run: seq<Action>)
    requires OnTime(s, w) && SoundRun(s, run)
    ensures AllDue(s, w, run)
    decreases |run|
  {
    hide Act, OnTime, Sound, Observe, Due;
    if run != [] {
      NeverEarly(s, w, run[0]);
      ActOnTime(s, w, run[0]);
      RunNeverEarly(Act(s, run[0]).state, Observe(w, s, run[0]), run[1..]);
    }
  }

  /** A frame that is held because it is early goes out with the first tick that finds it due. */
  lemma HeldFrameSentWhenDue(s: State, w: Stopwatch, now: int, land: nat)
    requires OnTime(s, w) && Active(s) && !s.firstFrame && s.pending.Some? && !s.waitIdr
    ensures var f := s.pending.value;
            (Pace(s, now, land).outs != [] <==> Passed(Reading(w, now), (f.timestamp - s.loopOffset) % TWO_32))
            && (Pace(s, now, land).outs != [] ==>
                  Pace(s, now, land).outs[0].Video? && Pace(s, now, land).outs[0].frame == f)
  {
    hide NalList, Payloads, MediaNs, Passed;
    MediaNsPassed(Reading(w, now), Offset(s, s.pending.value));
  }

  // ---------- a request that forgets a pause ----------

  // The wall clock start lies behind what the stopwatch shows.
  ghost predicate Behind(s: State, w: Stopwatch) {
    && s.mode == Playing && s.transportReady && !s.firstFrame && s.pauseStart == 0
    && w.since.Some? && s.wallStart < w.since.value - w.elapsed
  }

  ghost predicate Exposes(s: State, w: Stopwatch, run: seq<Action>) {
    SoundRun(s, run) && !AllDue(s, w, run)
  }

  lemma Prepend(s: State, w: Stopwatch, a: Action, run: seq<Action>)
    requires Sound(s, a) && Exposes(Act(s, a).state, Observe(w, s, a), run)
    ensures Exposes(s, w, [a] + run)
  {
    hide Sound, Act, Observe, Due;
    assert ([a] + run)[1..] == run;
  }

  // A packet without NAL units, then a key frame as late as the 32-bit clock can say.
  function LateFile(): M.Source {
    M.Source([M.Packet(0, true, []), M.Packet(TWO_32 - 1, true, [[0]])], 1, 90000, [], [], 0, 0, None, None)
  }

  // About thirteen hours.
  const LAST_DUE := MediaNs(TWO_32 - 1)

  // The late file is open, the clock set, nothing held, no end.
  ghost predicate Exposed(s: State) {
    && Active(s) && s.pauseStart == 0 && !s.firstFrame && s.pending.None? && s.nptEnd <= 0.0 && s.loopOffset == 0
    && s.media == Some(LateFile())
  }

  const REFUSED := Do(Describe(0, Refused(404)))
  const REOPENED := Do(Describe(0, Opened(LateFile())))

  function FromStart(now: int): Action {
    Do(Play(0, now, false, None, None, M.Probe(0, 0)))
  }

  // The file goes and another one comes, with a PLAY in between that takes back any end.
  lemma FileSwapped(s: State, now: int)
    requires s.mode == Playing && s.transportReady && !s.firstFrame && s.pauseStart == 0
    ensures var a := Act(s, REFUSED).state;
            var b := Act(a, Tick(now, 0)).state;
            var c := Act(b, FromStart(now)).state;
            var d := Act(c, REOPENED).state;
            && a.mode == Playing && !Active(a) && !a.firstFrame && Act(a, Tick(now, 0)).outs == []
            && b.pauseStart == 0 && b.mode == Playing
            && Exposed(d) && d.wallStart == s.wallStart
  {
  }

  lemma LateReads()
    ensures var r := M.Read(LateFile());
            && r.frame == Some(Frame(0, true, []))
            && M.Read(r.source).frame == Some(Frame(TWO_32 - 1, true, [[0]]))
  {
    hide M.Rescale;
    SameClock(0);
    SameClock(TWO_32 - 1);
  }

  lemma SameClock(x: nat)
    ensures M.Rescale(x, 1, 90000) == x
  {
  }

  lemma EmptyPacket(s: State, now: int)
    requires Exposed(s)
    ensures Pace(s, now, 0) == Result(s.(media := Some(M.Read(LateFile()).source)), [])
  {
    hide M.Read, LateFile;
    LateReads();
  }

  lemma LastFrame(s: State, now: int)
    requires Exposed(s) && now >= s.wallStart + LAST_DUE
    ensures var r := Pace(s.(media := Some(M.Read(LateFile()).source)), now, 0);
            && |r.outs| == 1 && r.outs[0].Video? && Offset(r.state, r.outs[0].frame) == TWO_32 - 1
  {
    hide M.Read, LateFile, Tracked, NalList, Payloads, MediaNs;
    LateReads();
    var r := M.Read(M.Read(LateFile()).source);
    SendFootprint(s.(media := Some(r.source), waitIdr := false), r.frame.value);
  }

  lemma TwoTicks(s: State, w: Stopwatch, now: int)
    requires Exposed(s) && w.since.Some? && now == s.wallStart + LAST_DUE && s.wallStart < w.since.value - w.elapsed
    ensures Exposes(s, w, [Tick(now, 0), Tick(now, 0)])
  {
    hide Pace, M.Read, LateFile, Offset, MediaNs, Exposes, Passed;
    MediaNsPassed(Reading(w, now), TWO_32 - 1);
    EmptyPacket(s, now);
    LastFrame(s, now);
    var s' := Act(s, Tick(now, 0)).state;
    assert !Due(s', w, Tick(now, 0));
    LastStep(s', w, Tick(now, 0));
    Prepend(s, w, Tick(now, 0), [Tick(now, 0)]);
    assert [Tick(now, 0)] + [Tick(now, 0)] == [Tick(now, 0), Tick(now, 0)];
  }

  lemma LastStep(s: State, w: Stopwatch, a: Action)
    requires Sound(s, a) && !Due(s, w, a)
    ensures Exposes(s, w, [a])
  {
    hide Sound, Due, Act, Observe;
    assert [a][0] == a && [a][1..] == [];
    assert SoundRun(Act(s, a).state, [a][1..]) && !AllDue(s, w, [a]);
  }

  // A clock that is behind shows when a file is opened whose second frame is late enough.
  lemma BehindIsExposed(s: State, w: Stopwatch) returns (run: seq<Action>)
    requires Behind(s, w)
    ensures Exposes(s, w, run)
  {
    hide Act, Exposes, LateFile, MediaNs;
    var now := s.wallStart + LAST_DUE;
    FileSwapped(s, now);
    var a := Act(s, REFUSED).state;
    var b := Act(a, Tick(now, 0)).state;
    var c := Act(b, FromStart(now)).state;
    var d := Act(c, REOPENED).state;
    TwoTicks(d, w, now);
    run := [Tick(now, 0), Tick(now, 0)];
    Prepend(c, w, REOPENED, run);
    run := [REOPENED] + run;
    Prepend(b, w, FromStart(now), run);
    run := [FromStart(now)] + run;
    Prepend(a, w, Tick(now, 0), run);
    run := [Tick(now, 0)] + run;
    Prepend(s, w, REFUSED, run);
    run := [REFUSED] + run;
  }

  lemma ForgettingPlay(s: State, w: Stopwatch, c: Command)
    requires OnTime(s, w) && s.transportReady && Forgets(s, c) && c.Play?
    ensures Behind(Handle(s, c).state, Observe(w, s, Do(c)))
  {
  }

  // A PAUSE that forgets shows after the PLAY that resumes it at once.
  lemma ForgettingPause(s: State, w: Stopwatch, c: Command)
    requires OnTime(s, w) && s.transportReady && Forgets(s, c) && c.Pause? && c.clock != 0
    ensures var s' := Handle(s, c).state;
            var w' := Observe(w, s, Do(c));
            var a := FromStart(c.clock);
            Sound(s', a) && Behind(Act(s', a).state, Observe(w', s', a))
  {
  }

  /**
   After any request, all sound runs that follow send no frame before its time if and only if the request does
   not forget a recorded pause: it is no PLAY without Scale and without a file, and no PAUSE before the first
   tick after a PLAY that found no file, while the clock of a started stream has a pause on it.
   */
  lemma NeverEarlyIff(s: State, w: Stopwatch, c: Command)
    requires OnTime(s, w) && (s.mode != Init ==> s.transportReady)
    requires (c.Pause? ==> c.clock != 0) && (Drops(s, c) ==> c.clock >= s.pauseStart)
    ensures (forall run: seq<Action> | SoundRun(Handle(s, c).state, run) ::
               AllDue(Handle(s, c).state, Observe(w, s, Do(c)), run))
            <==> !Forgets(s, c)
  {
    hide Handle, OnTime, SoundRun, AllDue, Observe;
    var s' := Handle(s, c).state;
    var w' := Observe(w, s, Do(c));
    if !Forgets(s, c) {
      ActOnTime(s, w, Do(c));
      forall run: seq<Action> | SoundRun(s', run) ensures AllDue(s', w', run) {
        RunNeverEarly(s', w', run);
      }
    } else if c.Play? {
      ForgettingPlay(s, w, c);
      var run := BehindIsExposed(s', w');
      assert SoundRun(s', run) && !AllDue(s', w', run);
    } else {
      ForgettingPause(s, w, c);
      var a := FromStart(c.clock);
      var run := BehindIsExposed(Act(s', a).state, Observe(w', s', a));
      Prepend(s', w', a, run);
      assert SoundRun(s', [a] + run) && !AllDue(s', w', [a] + run);
    }
  }

  // ---------- a pause shifts everything by its length ----------

  function Later(a: Action, d: int): Action {
    match a
    case Tick(now, land) => Tick(now + d, land)
    case Do(c) =>
      if c.Pause? then Do(c.(clock := c.clock + d)) else if c.Play? then Do(c.(clock := c.clock + d)) else a
  }

  function AllLater(run: seq<Action>, d: int): seq<Action> {
    seq(|run|, i requires 0 <= i < |run| => Later(run[i], d))
  }

  // The same state, d later; what the next first frame will overwrite does not matter.
  ghost predicate Shifted(s: State, t: State, d: int) {
    && t == s.(wallStart := t.wallStart, pauseStart := t.pauseStart)
    && (s.firstFrame || t.wallStart == s.wallStart + d)
    && (if s.pauseStart == 0 then t.pauseStart == 0 else t.pauseStart == s.pauseStart + d && t.pauseStart != 0)
  }

  ghost predicate SameOuts(r: Result, q: Result, d: int) {
    r.outs == q.outs && Shifted(r.state, q.state, d)
  }

  predicate Clocked(a: Action) {
    match a
    case Tick(now, _) => now > 0
    case Do(c) => (c.Pause? ==> c.clock > 0) && (c.Play? ==> c.clock > 0)
  }

  lemma AnchoredShifted(s: State, t: State, f: Frame, now: int, d: int)
    requires Shifted(s, t, d)
    ensures var s', t' := Anchored(s, f, now), Anchored(t, f, now + d);
            Shifted(s', t', d) && t'.wallStart == s'.wallStart + d && t'.media == s.media == s'.media
            && Offset(s', f) == Offset(t', f) && Shifted(s'.(pending := Some(f)), t'.(pending := Some(f)), d)
  {
  }

  lemma SendShifted(s: State, t: State, f: Frame, d: int)
    requires Shifted(s, t, d) && s.media.Some?
    ensures SameOuts(Send(s, f), Send(t, f), d)
  {
    hide NalList, Payloads;
  }

  lemma EmitShifted(s: State, t: State, f: Frame, now: int, d: int)
    requires Shifted(s, t, d) && s.media.Some?
    ensures SameOuts(Emit(s, f, now), Emit(t, f, now + d), d)
  {
    hide Anchored, Send, Offset, MediaNs, Shifted;
    SameMedia(s, t, d);
    AnchoredShifted(s, t, f, now, d);
    SendShifted(Anchored(s, f, now), Anchored(t, f, now + d), f, d);
  }

  lemma SameMedia(s: State, t: State, d: int)
    requires Shifted(s, t, d)
    ensures s.media == t.media && s.describeDone == t.describeDone && s.channel == t.channel
  {
  }

  lemma AdmitShifted(s: State, t: State, f: Frame, now: int, d: int)
    requires Shifted(s, t, d) && s.media.Some?
    ensures SameOuts(Admit(s, f, now), Admit(t, f, now + d), d)
  {
    hide Emit, PastEnd;
    EmitShifted(s.(waitIdr := false), t.(waitIdr := false), f, now, d);
  }

  lemma HeldShifted(s: State, t: State, f: Frame, now: int, d: int)
    requires Shifted(s, t, d) && s.media.Some?
    ensures SameOuts(Held(s, f, now), Held(t, f, now + d), d)
  {
    hide Emit;
    EmitShifted(s.(waitIdr := false), t.(waitIdr := false), f, now, d);
  }

  lemma FetchShifted(s: State, t: State, now: int, land: nat, d: int)
    requires Shifted(s, t, d) && s.media.Some?
    ensures SameOuts(Fetch(s, now, land), Fetch(t, now + d, land), d)
  {
    hide Admit, M.Read, M.Seek;
    var r := M.Read(s.media.value);
    if r.frame.Some? {
      AdmitShifted(s.(media := Some(r.source)), t.(media := Some(r.source)), r.frame.value, now, d);
    }
  }

  lemma ResumeShifted(s: State, t: State, now: int, d: int)
    requires Shifted(s, t, d)
    ensures Shifted(Resume(s, now), Resume(t, now + d), d)
    ensures Shifted(Resume(s, now).(pending := None), Resume(t, now + d).(pending := None), d)
    ensures Shifted(Resume(s, now).(mode := Playing), Resume(t, now + d).(mode := Playing), d)
  {
  }

  lemma PaceShifted(s: State, t: State, now: int, land: nat, d: int)
    requires Shifted(s, t, d) && now > 0 && now + d > 0
    ensures SameOuts(Pace(s, now, land), Pace(t, now + d, land), d)
  {
    hide Fetch, Held;
    if Active(s) {
      var s', t' := Resume(s, now), Resume(t, now + d);
      ResumeShifted(s, t, now, d);
      if s'.firstFrame || s'.pending.None? {
        FetchShifted(s'.(pending := None), t'.(pending := None), now, land, d);
      } else {
        HeldShifted(s', t', s'.pending.value, now, d);
      }
    }
  }

  lemma SeekShifted(s: State, t: State, position: real, probe: M.Probe, adjust: bool, d: int)
    requires Shifted(s, t, d)
    ensures Shifted(SeekAndReset(s, position, probe, adjust), SeekAndReset(t, position, probe, adjust), d)
    ensures Shifted(SeekAndReset(s, position, probe, adjust).(mode := Playing),
                    SeekAndReset(t, position, probe, adjust).(mode := Playing), d)
  {
    hide Sought;
  }

  lemma StartShifted(s: State, t: State, range: Option<real>, end: Option<real>, probe: M.Probe, d: int)
    requires Shifted(s, t, d)
    ensures Shifted(StartAfresh(s, range, end, probe), StartAfresh(t, range, end, probe), d)
  {
    hide SeekAndReset;
    SeekShifted(s, t, if range.Some? then range.value else 0.0, probe, false, d);
  }

  lemma FreshPlayShifted(s: State, t: State, c: Command, d: int)
    requires Shifted(s, t, d) && c.Play?
    ensures SameOuts(PlayFresh(s, c.cseq, c.range, c.end, c.probe), PlayFresh(t, c.cseq, c.range, c.end, c.probe), d)
  {
    hide StartAfresh, M.Peek;
    StartShifted(s, t, c.range, c.end, c.probe, d);
  }

  lemma PlayShifted(s: State, t: State, c: Command, d: int)
    requires Shifted(s, t, d) && c.Play?
    ensures SameOuts(Act(s, Do(c)), Act(t, Later(Do(c), d)), d)
  {
    hide SeekAndReset, PlayFresh, Resume;
    SeekShifted(s, t, s.keyNpt, c.probe, true, d);
    FreshPlayShifted(s, t, c, d);
    ResumeShifted(s, t, c.clock, d);
  }

  lemma PauseShifted(s: State, t: State, c: Command, d: int)
    requires Shifted(s, t, d) && c.Pause? && c.clock > 0 && c.clock + d > 0
    ensures SameOuts(Act(s, Do(c)), Act(t, Later(Do(c), d)), d)
  {
  }

  // What the other requests change is not on the clock.
  lemma UnpacedShifted(s: State, t: State, audio: bool, tcp: bool, channel: int, media: Option<M.Source>, d: int)
    requires Shifted(s, t, d)
    ensures Shifted(Prepared(s, audio, tcp, channel), Prepared(t, audio, tcp, channel), d)
    ensures Shifted(s.(useTcp := false), t.(useTcp := false), d) && Shifted(s.(media := None), t.(media := None), d)
    ensures Shifted(s.(media := media, describeDone := true), t.(media := media, describeDone := true), d)
    ensures Shifted(s.(mode := Init, closing := true), t.(mode := Init, closing := true), d)
  {
  }

  lemma SetupShifted(s: State, t: State, cseq: int, audio: bool, transport: Transport, d: int)
    requires Shifted(s, t, d)
    ensures SameOuts(DoSetup(s, cseq, audio, transport), DoSetup(t, cseq, audio, transport), d)
  {
    hide Prepared, Shifted;
    SameMedia(s, t, d);
    var channel := if transport.Tcp? && transport.channel.Some? then transport.channel.value else s.channel;
    UnpacedShifted(s, t, audio, transport.Tcp?, channel, None, d);
  }

  lemma OtherShifted(s: State, t: State, c: Command, d: int)
    requires Shifted(s, t, d) && !c.Play? && !c.Pause?
    ensures SameOuts(Act(s, Do(c)), Act(t, Later(Do(c), d)), d)
  {
    hide DoPlay, DoSetup, M.AtStart, Shifted;
    var opening := if c.Describe? && c.opening.Opened? then Some(M.AtStart(c.opening.source)) else None;
    UnpacedShifted(s, t, false, false, 0, opening, d);
    if c.Setup? {
      SetupShifted(s, t, c.cseq, c.audio, c.transport, d);
    }
  }

  lemma ActShifted(s: State, t: State, a: Action, d: int)
    requires Shifted(s, t, d) && Clocked(a) && Clocked(Later(a, d))
    ensures SameOuts(Act(s, a), Act(t, Later(a, d)), d)
  {
    hide Handle, Pace, SameOuts, Shifted;
    match a {
      case Tick(now, land) => PaceShifted(s, t, now, land, d);
      case Do(c) =>
        if c.Play? {
          PlayShifted(s, t, c, d);
        } else if c.Pause? {
          PauseShifted(s, t, c, d);
        } else {
          OtherShifted(s, t, c, d);
        }
    }
  }

  /** Nothing but differences of clock readings matters. */
  lemma {:induction false} RunShifted(s: State, t: State, run: seq<Action>, d: int)
    requires Shifted(s, t, d) && forall i | 0 <= i < |run| :: Clocked(run[i]) && Clocked(Later(run[i], d))
    ensures SameOuts(Acts(s, run), Acts(t, AllLater(run, d)), d)
    decreases |run|
  {
    hide Act, Clocked, Later, Shifted;
    if run != [] {
      ActShifted(s, t, run[0], d);
      RunShifted(Act(s, run[0]).state, Act(t, Later(run[0], d)).state, run[1..], d);
      assert AllLater(run, d)[1..] == AllLater(run[1..], d);
    }
  }

  predicate AllTicks(run: seq<Action>) {
    forall i | 0 <= i < |run| :: run[i].Tick?
  }

  lemma {:induction false} PausedTicks(s: State, ticks: seq<Action>)
    requires s.mode == Paused && s.pauseStart != 0 && AllTicks(ticks)
    ensures Acts(s, ticks) == Result(s, [])
    decreases |ticks|
  {
    if ticks != [] {
      assert AllTicks(ticks[1..]);
      PausedTicks(s, ticks[1..]);
    }
  }

  lemma PausedAndResumed(s: State, pause: Command, play: Command)
    requires s.mode == Playing && s.pauseStart == 0 && pause.Pause? && play.Play? && pause.clock > 0
    ensures var p := Handle(s, pause);
            var r := Handle(p.state, play);
            && p.outs == [Response(pause.cseq, 200, None)] && r.outs == [Response(play.cseq, 200, None)]
            && p.state.mode == Paused && p.state.pauseStart != 0
            && Shifted(s, r.state, play.clock - pause.clock)
  {
  }

  /**
   PAUSE, any number of ticks, then PLAY: everything sent afterwards is what would have been sent without
   the pause, each frame later by the length of the pause.
   */
  lemma PauseShiftsTheRest(s: State, pause: Command, ticks: seq<Action>, play: Command, run: seq<Action>)
    requires s.mode == Playing && s.pauseStart == 0 && pause.Pause? && play.Play?
    requires 0 < pause.clock <= play.clock && AllTicks(ticks)
    requires forall i | 0 <= i < |run| :: Clocked(run[i])
    ensures Acts(s, [Do(pause)] + ticks + [Do(play)] + AllLater(run, play.clock - pause.clock)).outs
         == [Response(pause.cseq, 200, None), Response(play.cseq, 200, None)] + Acts(s, run).outs
  {
    hide Handle, Shifted, Clocked, Later, Pace;
    var d := play.clock - pause.clock;
    var p := Handle(s, pause);
    var r := Handle(p.state, play);
    PausedAndResumed(s, pause, play);
    PausedTicks(p.state, ticks);
    forall i | 0 <= i < |run| ensures Clocked(Later(run[i], d)) {
      LaterClocked(run[i], d);
    }
    RunShifted(s, r.state, run, d);
    OneAct(s, Do(pause));
    OneAct(p.state, Do(play));
    ActsAppend(s, [Do(pause)], ticks);
    ActsAppend(s, [Do(pause)] + ticks, [Do(play)]);
    ActsAppend(s, [Do(pause)] + ticks + [Do(play)], AllLater(run, d));
    assert p.outs + [] + r.outs == [Response(pause.cseq, 200, None), Response(play.cseq, 200, None)];
  }

  lemma LaterClocked(a: Action, d: nat)
    requires Clocked(a)
    ensures Clocked(Later(a, d))
  {
  }
}
