/**
 Which seeks keep the timestamps in order. A seek leaves the frame that an earlier PLAY has prefetched: if
 the start sends it, the frames of the new position follow it.
 */
module SessionStale {
  import opened Basics
  import opened VideoStream
  import opened Session
  import opened SessionTimestamps
  import opened SessionRestarts
  import S = SessionSafety
  import M = MediaSource

  // A start would send the frame.
  predicate Starts(nptEnd: real, g: Frame) {
    g.key && g.nals != [] && !PastEnd(nptEnd, g)
  }

  // What the frames of the file have to lie above: the prefetched frame if the start sends it, and otherwise
  // the last timestamp sent.
  ghost predicate BeginsAbove(m: M.Source, nptEnd: real, high: int) {
    if m.prefetch.Some? && Starts(nptEnd, m.prefetch.value)
    then SendsAbove(m, nptEnd, false, m.prefetch.value.timestamp)
    else SendsAbove(m, nptEnd, true, high)
  }

  lemma PrefetchAside(m: M.Source, nptEnd: real, start: bool, high: int)
    ensures var m' := m.(prefetch := None);
            && (M.WellFormed(m) <==> M.WellFormed(m'))
            && (SendsAbove(m, nptEnd, start, high) <==> SendsAbove(m', nptEnd, start, high))
            && forall i | m.pos < |m.file| && 0 <= i < |m.file| ::
                 Stamp(m', i) == Stamp(m, i) && (Sends(m', nptEnd, start, i) <==> Sends(m, nptEnd, start, i))
  {
    hide M.Rescale, PastEndAt;
    var m' := m.(prefetch := None);
    assert m.pos < |m.file| ==> M.Anchor(m') == M.Anchor(m);
    assert forall i | m.pos < |m.file| && 0 <= i < |m.file| :: Stamp(m', i) == Stamp(m, i);
  }

  // ---------- if ----------

  // A start is pending with a prefetched frame, and what it sends will be in order.
  ghost predicate Stale(s: State, high: int) {
    && s.firstFrame && s.lastRtp == 0 && s.media.Some? && s.media.value.prefetch.Some?
    && M.WellFormed(s.media.value) && 0 <= high <= s.media.value.prefetch.value.timestamp
    && BeginsAbove(s.media.value, s.nptEnd, high)
  }

  lemma SamePacingStale(s: State, s': State, high: int)
    requires Stale(s, high) && SamePacing(s, s') && s'.media == s.media
    ensures Stale(s', high)
  {
    hide M.WellFormed, BeginsAbove;
  }

  lemma HandleWaits(s: State, c: Command, high: int)
    requires Stale(s, high) && Continues(s, c)
    ensures Stale(Handle(s, c).state, high)
  {
    hide Handle, M.WellFormed, BeginsAbove, Roomy;
    if c.Play? {
      PlayWaits(s, c, high);
    } else {
      OnlyPlayTouchesPacing(s, c);
      SamePacingStale(s, Handle(s, c).state, high);
    }
  }

  lemma PlayWaits(s: State, c: Command, high: int)
    requires Stale(s, high) && Continues(s, c) && c.Play?
    ensures Stale(Handle(s, c).state, high)
  {
    hide SeekAndReset, PlayFresh, M.WellFormed, BeginsAbove, Roomy;
  }

  lemma StaleWaits(s: State, a: Action, high: int)
    requires Stale(s, high) && Good(s, a, high) && !(a.Tick? && Active(s))
    ensures var r := Act(s, a);
            Stale(r.state, high) && NonDecreasing(r.outs, high) && HighAfter(r.outs, high) == high
  {
    hide Handle, M.WellFormed, BeginsAbove, Continues, NonDecreasing, HighAfter;
    OutputNone(high);
    match a {
      case Do(c) =>
        HandleWaits(s, c, high);
        OneResponse(s, c);
        var outs := Handle(s, c).outs;
        OutputOne(outs[0], high);
        assert outs == [outs[0]];
      case Tick(now, land) =>
        assert Act(s, a) == Result(Idle(s, now), []);
    }
  }

  // The tick that takes the prefetched frame.
  lemma StaleTaken(s: State, now: int, land: nat, high: int)
    requires Stale(s, high) && Active(s)
    ensures var r := Pace(s, now, land);
            var high' := HighAfter(r.outs, high);
            NonDecreasing(r.outs, high) && high' >= 0 && r.state.pending.None? && Restarting(r.state, high')
  {
    hide Pace, M.WellFormed, SendsAbove, NonDecreasing, HighAfter, PastEnd;
    var g := s.media.value.prefetch.value;
    var r := Pace(s, now, land);
    OutputNone(high);
    if Starts(s.nptEnd, g) {
      FirstTick(s, g, now, land);
      OutputOne(r.outs[0], high);
      assert r.outs == [r.outs[0]];
      PrefetchAside(s.media.value, s.nptEnd, false, g.timestamp);
    } else {
      StaleDropped(s, g, now, land);
      PrefetchAside(s.media.value, s.nptEnd, true, high);
    }
  }

  // The start does not send the prefetched frame. If that lies past the end, the session is paused.
  lemma StaleDropped(s: State, g: Frame, now: int, land: nat)
    requires Active(s) && s.firstFrame && s.media.value.prefetch == Some(g) && !Starts(s.nptEnd, g)
    ensures var r := Pace(s, now, land);
            && r.outs == [] && (r.state.mode == Playing || r.state.mode == Paused)
            && r.state == s.(pauseStart := 0, pending := None, media := Some(s.media.value.(prefetch := None)),
                             waitIdr := r.state.waitIdr, mode := r.state.mode)
  {
    hide Pace, Emit, PastEnd;
    S.FirstFramePaced(s, now, land);
  }

  lemma GoesOn(s: State, run: seq<Action>, high: int)
    requires Restarting(s, high) && s.pending.None? && high >= 0 && GoodRun(s, run, high)
    ensures NonDecreasing(Acts(s, run).outs, high)
  {
    hide GoodRun, NonDecreasing, Acts, M.WellFormed, M.Ahead;
    if high > 0 {
      RestartInOrder(s, run, high);
    } else {
      if s.media.Some? {
        AlwaysAhead(s.media.value);
      }
      TimestampsNeverDecrease(s, run, high);
    }
  }

  lemma {:induction false} StaleInOrder(s: State, run: seq<Action>, high: int)
    requires Stale(s, high) && GoodRun(s, run, high)
    ensures NonDecreasing(Acts(s, run).outs, high)
    decreases |run|
  {
    hide Act, Stale, Good, NonDecreasing, HighAfter, Restarting;
    if run == [] {
      OutputNone(high);
    } else {
      var r := Act(s, run[0]);
      if run[0].Tick? && Active(s) {
        ActIsPace(s, run[0].now, run[0].land);
        StaleTaken(s, run[0].now, run[0].land, high);
        GoesOn(r.state, run[1..], HighAfter(r.outs, high));
      } else {
        StaleWaits(s, run[0], high);
        StaleInOrder(r.state, run[1..], high);
      }
      NonDecreasingAppend(r.outs, Acts(r.state, run[1..]).outs, high);
    }
  }

  // ---------- only if ----------

  lemma AfterOne(s: State, a: Action, rest: seq<Action>, high: int)
    requires Good(s, a, high) && GoodRun(Act(s, a).state, rest, HighAfter(Act(s, a).outs, high))
    requires !NonDecreasing(Acts(Act(s, a).state, rest).outs, HighAfter(Act(s, a).outs, high))
    ensures GoodRun(s, [a] + rest, high) && !NonDecreasing(Acts(s, [a] + rest).outs, high)
  {
    hide Act, Good, NonDecreasing, HighAfter;
    assert ([a] + rest)[1..] == rest;
    HighAppend(Act(s, a).outs, Acts(Act(s, a).state, rest).outs, high);
  }

  lemma SentThenBack(s: State, g: Frame, high: int, i: nat) returns (run: seq<Action>)
    requires Active(s) && s.firstFrame && s.media.value.prefetch == Some(g) && Starts(s.nptEnd, g)
    requires M.WellFormed(s.media.value) && s.media.value.pos <= i < |s.media.value.file|
    requires Sends(s.media.value, s.nptEnd, false, i) && Stamp(s.media.value, i) < g.timestamp
    ensures GoodRun(s, run, high) && !NonDecreasing(Acts(s, run).outs, high)
  {
    hide Pace, M.WellFormed, Stamp, Sends, Acts, GoodRun, NonDecreasing, HighAfter, PastEnd;
    var a := Tick(1, 0);
    FirstTick(s, g, 1, 0);
    ActIsPace(s, 1, 0);
    var r := Act(s, a);
    OutputOne(r.outs[0], high);
    assert r.outs == [r.outs[0]];
    PrefetchAside(s.media.value, s.nptEnd, false, 0);
    TickIsGood(s, 1, high);
    run := FollowsBack(r.state, g.timestamp, i);
    AfterOne(s, a, run, high);
    run := [a] + run;
  }

  lemma DroppedThenBack(s: State, g: Frame, high: int, i: nat) returns (run: seq<Action>)
    requires Active(s) && s.firstFrame && s.media.value.prefetch == Some(g) && !Starts(s.nptEnd, g)
    requires M.WellFormed(s.media.value) && s.media.value.pos <= i < |s.media.value.file|
    requires Sends(s.media.value, s.nptEnd, true, i) && Stamp(s.media.value, i) < high
    ensures GoodRun(s, run, high) && !NonDecreasing(Acts(s, run).outs, high)
  {
    hide Pace, M.WellFormed, Stamp, Sends, Acts, GoodRun, NonDecreasing, HighAfter, Starts;
    var a := Tick(1, 0);
    StaleDropped(s, g, 1, 0);
    ActIsPace(s, 1, 0);
    OutputNone(high);
    PrefetchAside(s.media.value, s.nptEnd, true, 0);
    TickIsGood(s, 1, high);
    run := PlayedThenBack(Act(s, a).state, high, i);
    AfterOne(s, a, run, high);
    run := [a] + run;
  }

  // If the session is paused, a PLAY resumes it first.
  lemma PlayedThenBack(s: State, high: int, i: nat) returns (run: seq<Action>)
    requires (s.mode == Playing || s.mode == Paused) && s.media.Some? && s.transportReady && s.pauseStart == 0
    requires s.firstFrame && s.media.value.prefetch.None? && M.WellFormed(s.media.value)
    requires s.media.value.pos <= i < |s.media.value.file| && Sends(s.media.value, s.nptEnd, true, i)
    requires Stamp(s.media.value, i) < high
    ensures GoodRun(s, run, high) && !NonDecreasing(Acts(s, run).outs, high)
  {
    hide Pace, M.WellFormed, Stamp, Sends, Acts, GoodRun, NonDecreasing, HighAfter;
    if s.mode == Playing {
      run := StepsBack(s, 1, high, i);
    } else {
      var a := Do(Play(0, 1, false, None, None, M.Probe(0, 0)));
      var r := Act(s, a);
      assert r.state == s.(mode := Playing) && r.outs == [Response(0, 200, None)];
      OutputOne(r.outs[0], high);
      run := StepsBack(r.state, 1, high, i);
      AfterOne(s, a, run, high);
      run := [a] + run;
    }
  }

  // ---------- exactly when ----------

  lemma StaleIff(s: State, high: int)
    requires Active(s) && s.firstFrame && s.lastRtp == 0 && s.media.value.prefetch.Some? && M.WellFormed(s.media.value)
    requires 0 <= high <= s.media.value.prefetch.value.timestamp
    ensures AllInOrder(s, high) <==> BeginsAbove(s.media.value, s.nptEnd, high)
  {
    hide GoodRun, Acts, NonDecreasing, M.WellFormed, Stamp, Sends, Starts;
    var m := s.media.value;
    var g := m.prefetch.value;
    if BeginsAbove(m, s.nptEnd, high) {
      forall run | GoodRun(s, run, high) ensures NonDecreasing(Acts(s, run).outs, high) {
        StaleInOrder(s, run, high);
      }
    } else if Starts(s.nptEnd, g) {
      var i :| m.pos <= i < |m.file| && Sends(m, s.nptEnd, false, i) && Stamp(m, i) < g.timestamp;
      var run := SentThenBack(s, g, high, i);
    } else {
      var i :| m.pos <= i < |m.file| && Sends(m, s.nptEnd, true, i) && Stamp(m, i) < high;
      var run := DroppedThenBack(s, g, high, i);
    }
  }

  function StartSource(s: State, c: Command): M.Source
    requires s.media.Some? && c.Play?
  {
    M.Seek(s.media.value, StartOffset(c.range, c.probe), c.probe.land)
  }

  function EndOf(c: Command): real
    requires c.Play?
  {
    if c.end.Some? then c.end.value else -1.0
  }

  /**
   After a fresh PLAY every good run is in order if and only if no frame from before the seek is prefetched, or
   the start does not send it, or everything that can be sent from the new position on is not below it.
   */
  lemma PlayInOrderIff(s: State, c: Command)
    requires s.media.Some? && s.transportReady && c.Play? && !c.scale && (s.mode == Ready || s.mode == Playing)
    requires M.Sorted(s.media.value.file) && M.Room(StartSource(s, c))
    ensures AllInOrder(Handle(s, c).state, 0)
            <==> var g := s.media.value.prefetch;
                 g.None? || !Starts(EndOf(c), g.value)
                 || SendsAbove(StartSource(s, c), EndOf(c), false, g.value.timestamp)
  {
    hide Handle, AllInOrder, SendsAbove, Timely, M.Seek, M.Room, M.Sorted, M.WellFormed, Starts;
    var m := s.media.value;
    var offset := StartOffset(c.range, c.probe);
    SeekSource(m, offset, c.probe.land);
    if m.prefetch.None? {
      FreshStartTimely(s, c);
      TimelyIsInOrder(Handle(s, c).state, 0);
    } else {
      FreshMedia(s, c);
      AfterSeek(m, offset, c.probe.land);
      AboveTheStart(m, offset, c.probe.land, EndOf(c), true, 0);
      StaleIff(Handle(s, c).state, 0);
    }
  }

  lemma SeekSource(m: M.Source, offset: u32, land: nat)
    ensures var m' := M.Seek(m, offset, land);
            && m'.file == m.file && m'.prefetch == m.prefetch && m'.pos == land
            && m'.rtpOffset == offset && m'.firstPts.None?
            && (m.prefetch.Some? ==> M.Peek(m').source == m')
  {
  }

  /** With a frame to send where the seek lands: if and only if the frame sent before it is not above it. */
  lemma PlayContinuesIff(s: State, c: Command)
    requires s.media.Some? && s.transportReady && c.Play? && !c.scale && (s.mode == Ready || s.mode == Playing)
    requires M.Sorted(s.media.value.file) && M.Room(StartSource(s, c))
    requires var m := StartSource(s, c); c.probe.land < |m.file| && Sends(m, EndOf(c), false, c.probe.land)
    ensures AllInOrder(Handle(s, c).state, 0)
            <==> var g := s.media.value.prefetch;
                 g.None? || !Starts(EndOf(c), g.value) || g.value.timestamp <= StartOffset(c.range, c.probe)
  {
    hide Handle, AllInOrder, SendsAbove, M.Room, M.Sorted, Stamp, Sends, Starts;
    PlayInOrderIff(s, c);
    var g := s.media.value.prefetch;
    if g.Some? {
      LandingDecides(s.media.value, StartOffset(c.range, c.probe), c.probe.land, EndOf(c), false, g.value.timestamp);
    }
  }

  function ScaleSource(s: State, c: Command): M.Source
    requires s.media.Some? && c.Play?
  {
    M.Seek(s.media.value, ScaleStart(s, c), c.probe.land)
  }

  lemma ScaledFile(s: State, c: Command, high: int)
    requires Timely(s, high) && s.media.Some?
    requires c.Play? && c.scale && (s.mode == Ready || s.mode == Playing) && Roomy(Handle(s, c).state)
    ensures M.Sorted(s.media.value.file) && M.Room(ScaleSource(s, c))
    ensures s.lastRtp != 0 ==> s.lastRtp == high && s.media.value.prefetch.None?
    ensures s.media.value.prefetch.Some? ==> high <= s.media.value.prefetch.value.timestamp
  {
    hide Handle, M.Seek, M.Room, M.Ahead;
    ScaleSeeks(s, c);
  }

  /**
   A PLAY with Scale begins at the last timestamp of this pass or at the position found, whichever is later.
   Every good run that follows is in order if and only if what can be sent from there on is not below the
   frame that an earlier PLAY has prefetched, if the start sends that, and otherwise not below the last
   timestamp sent. That can fail before the first frame of a pass, and only then.
   */
  lemma ScaleInOrderIff(s: State, c: Command, high: int)
    requires Timely(s, high) && s.media.Some? && s.transportReady && high >= 0
    requires c.Play? && c.scale && (s.mode == Ready || s.mode == Playing) && Roomy(Handle(s, c).state)
    ensures AllInOrder(Handle(s, c).state, high) <==> BeginsAbove(ScaleSource(s, c), s.nptEnd, high)
    ensures s.lastRtp != 0 ==> AllInOrder(Handle(s, c).state, high)
  {
    hide Handle, AllInOrder, SendsAbove, Timely, M.Seek, M.Room, M.Sorted, M.WellFormed, Starts;
    var m := s.media.value;
    ScaleSeeks(s, c);
    ScaledFile(s, c, high);
    SeekSource(m, ScaleStart(s, c), c.probe.land);
    AfterSeek(m, ScaleStart(s, c), c.probe.land);
    if m.prefetch.Some? {
      StaleIff(Handle(s, c).state, high);
    } else {
      ScaleTimelyIff(s, c, high);
      SoughtIff(Handle(s, c).state, m, ScaleStart(s, c), c.probe.land, high);
      if s.lastRtp != 0 {
        TimelyIsInOrder(Handle(s, c).state, high);
      }
    }
  }

  /** With a key frame to send where the seek lands: if and only if what was sent before it is not above it. */
  lemma ScaleContinuesIff(s: State, c: Command, high: int)
    requires Timely(s, high) && s.media.Some? && s.transportReady && high >= 0
    requires c.Play? && c.scale && (s.mode == Ready || s.mode == Playing) && Roomy(Handle(s, c).state)
    requires c.probe.land < |ScaleSource(s, c).file| && Sends(ScaleSource(s, c), s.nptEnd, true, c.probe.land)
    ensures AllInOrder(Handle(s, c).state, high)
            <==> var g := s.media.value.prefetch;
                 (if g.Some? && Starts(s.nptEnd, g.value) then g.value.timestamp else high) <= ScaleStart(s, c)
  {
    hide Handle, AllInOrder, SendsAbove, Timely, M.Room, M.Sorted, Stamp, PastEndAt, Starts;
    ScaleInOrderIff(s, c, high);
    ScaledFile(s, c, high);
    LandingDecides(s.media.value, ScaleStart(s, c), c.probe.land, s.nptEnd, true, high);
    var g := s.media.value.prefetch;
    if g.Some? {
      LandingDecides(s.media.value, ScaleStart(s, c), c.probe.land, s.nptEnd, false, g.value.timestamp);
    }
  }

  // ---------- a run from a new session ----------

  /**
   A PLAY, and before the next tick a PLAY of an earlier position, with or without Scale: the frame announced by
   the first one is sent, and then the earlier one.
   */
  lemma StaleFrameStepsBack(ssrc: u32, m: M.Source, from: u32, scale: bool) returns (run: seq<Action>)
    requires |m.file| == 1 && m.file[0].key && m.file[0].nals != [] && from > 0
    ensures !NonDecreasing(Acts(Fresh(ssrc), run).outs, 0)
  {
    hide Reaches, Acts, HighAfter, NonDecreasing, Handle, Pace, M.Seek, M.Rescale, MediaNs, Offset;
    var s;
    run, s := Announced(ssrc, m, from);
    var g := s.media.value.prefetch.value;
    var again := Play(4, 2, scale, None, None, M.Probe(0, 0));
    PlayedAgain(s, again);
    run, s := ExtendQuietly(ssrc, run, s, 0, again);
    FirstTick(s, g, 3, 0);
    var r := Pace(s, 3, 0);
    ActIsPace(s, 3, 0);
    OutputOne(r.outs[0], 0);
    assert r.outs == [r.outs[0]];
    run, s := Extend(ssrc, run, s, 0, Tick(3, 0));
    var f := FirstOfFile(s.media.value);
    var late := s.wallStart + MediaNs(Offset(s, f));
    SecondTick(s, late, 0);
    var o := Pace(s, late, 0).outs;
    ActIsPace(s, late, 0);
    OutputOne(o[0], from);
    assert o == [o[0]];
    run, s := Extend(ssrc, run, s, from, Tick(late, 0));
  }

  // The second PLAY keeps what the first one has prefetched.
  lemma PlayedAgain(s: State, c: Command)
    requires Active(s) && s.lastRtp == 0 && s.keyNpt == 0.0 && s.nptEnd <= 0.0 && s.media.value.prefetch.Some?
    requires c.Play? && c.range.None? && c.end.None? && c.probe == M.Probe(0, 0)
    ensures var s' := Handle(s, c).state;
            Active(s') && s'.firstFrame && s'.nptEnd <= 0.0
            && s'.media == Some(s.media.value.(pos := 0, rtpOffset := 0, firstPts := None))
  {
    hide Handle;
    SeekSource(s.media.value, 0, 0);
    if c.scale {
      ScaleSeeks(s, c);
    } else {
      FreshMedia(s, c);
    }
  }

  lemma FirstOfFile(m: M.Source) returns (f: Frame)
    requires |m.file| == 1 && m.prefetch.None? && m.pos == 0 && m.rtpOffset == 0 && m.firstPts.None?
    ensures M.Read(m).frame == Some(f) && f == Frame(0, m.file[0].key, m.file[0].nals)
  {
    M.RescaleZero(m.num, m.den);
    f := Frame(0, m.file[0].key, m.file[0].nals);
  }
}
