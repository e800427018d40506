/**
 Where the timestamps of a session can step back: when the file starts over, or when the Scale changes,
 and the frames that follow carry timestamps below the last one sent.
 */
module SessionRestarts {
  import opened Basics
  import opened VideoStream
  import opened Session
  import opened SessionTimestamps
  import S = SessionSafety
  import M = MediaSource

  // ---------- the frames to come ----------

  // The timestamp packet i will carry, without wrap.
  function Stamp(m: M.Source, i: nat): int
    requires m.pos < |m.file| && i < |m.file|
  {
    m.rtpOffset + M.Rescale(m.file[i].pts - M.Anchor(m), m.num, m.den)
  }

  // Packet i would be sent: it has NAL units and lies before the end of the range; a start sends key frames only.
  predicate Sends(m: M.Source, nptEnd: real, start: bool, i: nat)
    requires m.pos < |m.file| && i < |m.file|
  {
    (start ==> m.file[i].key) && m.file[i].nals != [] && !PastEndAt(nptEnd, Stamp(m, i))
  }

  // No packet that would be sent has a timestamp below high.
  ghost predicate SendsAbove(m: M.Source, nptEnd: real, start: bool, high: int) {
    m.pos < |m.file| ==> forall i | m.pos <= i < |m.file| && Sends(m, nptEnd, start, i) :: high <= Stamp(m, i)
  }

  lemma StampIsRead(m: M.Source)
    requires m.pos < |m.file| && m.prefetch.None? && M.WellFormed(m)
    ensures var r := M.Read(m);
            && r == M.ReadFile(m)
            && r.frame == Some(Frame(M.TimestampAt(m), m.file[m.pos].key, m.file[m.pos].nals))
            && M.TimestampAt(m) == Stamp(m, m.pos)
  {
    hide M.Rescale;
    var first := M.Anchor(m);
    M.RescaleZero(m.num, m.den);
    M.RescaleMono(m.file[m.pos].pts - first, m.file[|m.file| - 1].pts - m.file[0].pts, m.num, m.den);
  }

  // Reading on does not change what the packets carry.
  lemma StampStays(m: M.Source, i: nat)
    requires m.pos < |m.file| && m.pos + 1 < |m.file| && i < |m.file|
    ensures var m' := M.ReadFile(m).source; m'.pos == m.pos + 1 && m'.file == m.file && Stamp(m', i) == Stamp(m, i)
  {
    hide M.Rescale;
  }

  lemma StampMono(m: M.Source, i: nat, j: nat)
    requires M.WellFormed(m) && m.pos <= i <= j < |m.file|
    ensures Stamp(m, i) <= Stamp(m, j)
  {
    hide M.Rescale;
    var first := M.Anchor(m);
    assert m.file[m.pos].pts <= m.file[i].pts <= m.file[j].pts;
    M.RescaleMono(m.file[i].pts - first, m.file[j].pts - first, m.num, m.den);
  }

  lemma SendsAboveStays(m: M.Source, nptEnd: real, start: bool, high: int)
    requires m.pos < |m.file| && SendsAbove(m, nptEnd, start, high)
    ensures SendsAbove(M.ReadFile(m).source, nptEnd, start, high)
  {
    hide M.Rescale, PastEndAt, Stamp;
    var m' := M.ReadFile(m).source;
    if m'.pos < |m'.file| {
      forall i | m'.pos <= i < |m'.file| && Sends(m', nptEnd, start, i) ensures high <= Stamp(m', i) {
        StampStays(m, i);
        assert Sends(m, nptEnd, start, i);
      }
    }
  }

  lemma ReadStaysWellFormed(m: M.Source)
    requires m.pos < |m.file| && M.WellFormed(m)
    ensures var r := M.ReadFile(m);
            M.WellFormed(r.source) && M.Ahead(r.source, r.frame.value.timestamp)
  {
    hide M.Rescale, M.TimestampAt;
    AlwaysAhead(m);
    M.ReadFileKeepsAhead(m, 0);
  }

  lemma AlwaysAhead(m: M.Source)
    requires M.WellFormed(m)
    ensures M.Ahead(m, 0)
  {
    hide M.Rescale;
    if m.firstPts.Some? && m.pos < |m.file| {
      M.RescaleMono(0, m.file[m.pos].pts - m.firstPts.value, m.num, m.den);
    }
  }

  // ---------- if: the run up to the next frame sent from the file ----------

  // Either a start is pending and nothing was sent in this pass, or the start has sent a prefetched frame at
  // high; and nothing that would be sent next lies below high.
  ghost predicate Restarting(s: State, high: int) {
    && (if s.firstFrame then s.lastRtp == 0 else s.lastRtp == high && s.pending.None? && !s.waitIdr)
    && (s.media.Some? ==>
          && s.media.value.prefetch.None? && M.WellFormed(s.media.value)
          && SendsAbove(s.media.value, s.nptEnd, s.firstFrame, high))
  }

  lemma SamePacingRestarting(s: State, s': State, high: int)
    requires Restarting(s, high) && SamePacing(s, s') && s'.media == s.media
    ensures Restarting(s', high)
  {
    hide M.WellFormed, SendsAbove;
  }

  lemma HandleRestarting(s: State, c: Command, high: int)
    requires Restarting(s, high) && Continues(s, c)
    ensures Restarting(Handle(s, c).state, high) || Timely(Handle(s, c).state, high)
  {
    hide Handle, M.WellFormed, SendsAbove, Roomy, Timely;
    if c.Play? {
      PlayRestarting(s, c, high);
    } else {
      OnlyPlayTouchesPacing(s, c);
      SamePacingRestarting(s, Handle(s, c).state, high);
    }
  }

  lemma PlayRestarting(s: State, c: Command, high: int)
    requires Restarting(s, high) && Continues(s, c) && c.Play?
    ensures Restarting(Handle(s, c).state, high) || Timely(Handle(s, c).state, high)
  {
    hide SeekAndReset, PlayFresh, Resume, M.WellFormed, M.Room, SendsAbove, Timely;
    if s.mode == Paused {
      ResumeRestarting(s, c.clock, high);
    } else if s.mode != Init {
      ScaleRestarting(s, c.probe, high);
    }
  }

  lemma ResumeRestarting(s: State, clock: int, high: int)
    requires Restarting(s, high)
    ensures Restarting(Resume(s, clock).(mode := Playing), high)
  {
    hide M.WellFormed, SendsAbove;
  }

  // After a frame has been sent, a change of Scale begins an ordered run.
  lemma ScaleRestarting(s: State, probe: M.Probe, high: int)
    requires Restarting(s, high) && s.lastRtp != 0 && Roomy(SeekAndReset(s, s.keyNpt, probe, true))
    ensures Timely(SeekAndReset(s, s.keyNpt, probe, true).(mode := Playing), high)
  {
    hide Sought, M.Room, M.WellFormed, M.Ahead, M.Seek, SendsAbove;
    if s.media.Some? {
      var m := s.media.value;
      SoughtIsSeek(m, s.keyNpt, probe, s.lastRtp);
      var offset: u32 :| s.lastRtp <= offset && Sought(m, s.keyNpt, probe, s.lastRtp) == M.Seek(m, offset, probe.land);
      SeekTimely(m, offset, probe.land, high);
      SeekPrefetch(m, offset, probe.land);
    }
  }

  // The frame read is below high, so it is refused.
  lemma RefusedRestarting(s: State, now: int, high: int)
    requires Restarting(s, high) && s.media.Some? && s.media.value.pos < |s.media.value.file| && s.pending.None?
    requires Stamp(s.media.value, s.media.value.pos) < high
    ensures var r := M.ReadFile(s.media.value);
            var q := Admit(s.(media := Some(r.source)), r.frame.value, now);
            q.outs == [] && Restarting(q.state, high)
  {
    hide M.Rescale, M.WellFormed, SendsAbove, Emit, PastEndAt;
    var m := s.media.value;
    var r := M.ReadFile(m);
    StampIsRead(m);
    SendsAboveStays(m, s.nptEnd, s.firstFrame, high);
    ReadStaysWellFormed(m);
    NotSent(m, s.nptEnd, s.firstFrame, high);
  }

  lemma NotSent(m: M.Source, nptEnd: real, start: bool, high: int)
    requires m.pos < |m.file| && SendsAbove(m, nptEnd, start, high) && Stamp(m, m.pos) < high
    ensures !Sends(m, nptEnd, start, m.pos)
  {
  }

  // The frame read is not below high, so from here on the run is an ordered one.
  lemma AcceptedTimely(s: State, now: int, high: int)
    requires Restarting(s, high) && s.media.Some? && s.media.value.pos < |s.media.value.file| && s.pending.None?
    requires high <= Stamp(s.media.value, s.media.value.pos)
    ensures var r := M.ReadFile(s.media.value);
            ResultTimely(Admit(s.(media := Some(r.source)), r.frame.value, now), high)
  {
    hide M.Rescale, M.WellFormed, M.Ahead, Stamp, SendsAbove, Admit, ResultTimely;
    var m := s.media.value;
    var r := M.ReadFile(m);
    StampIsRead(m);
    ReadStaysWellFormed(m);
    AheadMono(r.source, r.frame.value.timestamp, high);
    AdmitTimely(s.(media := Some(r.source)), r.frame.value, now, high);
  }

  // The file ends after the prefetched frame: the next pass begins above it.
  lemma EofRestarting(s: State, land: nat, high: int)
    requires Restarting(s, high) && s.media.Some? && s.pending.None?
    requires high <= NextStart(s) < TWO_32 && Roomy(Rewound(s, land))
    ensures ResultTimely(Result(Rewound(s, land), []), high)
  {
    hide M.Room, M.WellFormed, M.Ahead, SendsAbove;
    OutputNone(high);
    SeekTimely(s.media.value, NextStart(s), land, high);
  }

  lemma Fetches(s: State, now: int, land: nat)
    requires Active(s) && (s.firstFrame || s.pending.None?)
    ensures Pace(s, now, land) == Fetch(Resume(s, now).(pending := None), now, land)
  {
    hide Fetch, Held;
  }

  lemma FetchRestarting(s: State, now: int, land: nat, high: int)
    requires Restarting(s, high) && s.media.Some? && s.pending.None?
    requires s.media.value.pos >= |s.media.value.file| ==> high <= NextStart(s) < TWO_32 && Roomy(Rewound(s, land))
    ensures var r := Fetch(s, now, land); ResultTimely(r, high) || (r.outs == [] && Restarting(r.state, high))
  {
    hide M.WellFormed, SendsAbove, Admit, ResultTimely, Stamp, M.ReadFile, Rewound, NextStart;
    var m := s.media.value;
    if m.pos >= |m.file| {
      NothingLeft(m);
      EofRestarting(s, land, high);
    } else {
      StampIsRead(m);
      if Stamp(m, m.pos) < high {
        RefusedRestarting(s, now, high);
      } else {
        AcceptedTimely(s, now, high);
      }
    }
  }

  lemma NothingLeft(m: M.Source)
    requires m.pos >= |m.file| && m.prefetch.None?
    ensures M.Read(m).frame.None?
  {
  }

  lemma HoldingRestarting(s: State, now: int, land: nat, high: int)
    requires Restarting(s, high) && s.media.Some?
    ensures var s' := Resume(s, now).(pending := None);
            && Restarting(s', high) && s'.media == s.media && NextStart(s') == NextStart(s)
            && Rewound(s', land) == Rewound(s, land).(wallStart := s'.wallStart, pauseStart := 0, pending := None)
  {
    hide M.WellFormed, SendsAbove, M.Seek;
  }

  lemma PaceRestarting(s: State, now: int, land: nat, high: int)
    requires Restarting(s, high) && high > 0 && (AtEof(s) ==> LoopsWell(s, high) && Roomy(Pace(s, now, land).state))
    ensures var r := Pace(s, now, land); ResultTimely(r, high) || (r.outs == [] && Restarting(r.state, high))
  {
    hide M.WellFormed, SendsAbove, Fetch, ResultTimely, Rewound, NextStart, M.Read;
    if Active(s) {
      var s' := Resume(s, now).(pending := None);
      HoldingRestarting(s, now, land, high);
      Fetches(s, now, land);
      if s.media.value.pos >= |s.media.value.file| {
        AtTheEnd(s, now, land, high);
      }
      FetchRestarting(s', now, land, high);
    } else {
      IdleRestarting(s, now, high);
    }
  }

  lemma IdleRestarting(s: State, now: int, high: int)
    requires Restarting(s, high)
    ensures Restarting(Idle(s, now), high)
  {
    hide M.WellFormed, SendsAbove;
  }

  lemma AtTheEnd(s: State, now: int, land: nat, high: int)
    requires Restarting(s, high) && high > 0 && Active(s) && s.media.value.pos >= |s.media.value.file|
    requires AtEof(s) ==> LoopsWell(s, high) && Roomy(Pace(s, now, land).state)
    ensures var s' := Resume(s, now).(pending := None); high <= NextStart(s') < TWO_32 && Roomy(Rewound(s', land))
  {
    hide M.WellFormed, SendsAbove, Pace, Rewound, M.Room;
    NothingLeft(s.media.value);
    EofPaced(s, now, land);
  }

  lemma ActRestarting(s: State, a: Action, high: int)
    requires Restarting(s, high) && high > 0 && Good(s, a, high)
    ensures var r := Act(s, a);
            ResultTimely(r, high)
            || (Restarting(r.state, high) && NonDecreasing(r.outs, high) && HighAfter(r.outs, high) == high)
  {
    hide Handle, Pace, Restarting, Continues, Timely, NonDecreasing, HighAfter;
    OutputNone(high);
    match a {
      case Do(c) =>
        HandleRestarting(s, c, high);
        OneResponse(s, c);
        var outs := Handle(s, c).outs;
        OutputOne(outs[0], high);
        assert outs == [outs[0]];
      case Tick(now, land) => PaceRestarting(s, now, land, high);
    }
  }

  lemma {:induction false} RestartInOrder(s: State, run: seq<Action>, high: int)
    requires Restarting(s, high) && high > 0 && GoodRun(s, run, high)
    ensures NonDecreasing(Acts(s, run).outs, high)
    decreases |run|
  {
    hide Act, Restarting, Good, NonDecreasing, HighAfter, Timely;
    if run == [] {
      OutputNone(high);
    } else {
      var r := Act(s, run[0]);
      ActRestarting(s, run[0], high);
      if ResultTimely(r, high) {
        TimestampsNeverDecrease(r.state, run[1..], HighAfter(r.outs, high));
      } else {
        RestartInOrder(r.state, run[1..], high);
      }
      NonDecreasingAppend(r.outs, Acts(r.state, run[1..]).outs, high);
    }
  }

  // ---------- only if: ticks until the first frame ----------

  lemma SkippedTick(s: State, now: int)
    requires Active(s) && s.firstFrame && s.media.value.prefetch.None? && M.WellFormed(s.media.value)
    requires s.media.value.pos < |s.media.value.file|
    requires !s.media.value.file[s.media.value.pos].key || s.media.value.file[s.media.value.pos].nals == []
    ensures Pace(s, now, 0)
         == Result(s.(pauseStart := 0, pending := None, media := Some(M.ReadFile(s.media.value).source)), [])
  {
    hide M.WellFormed, M.ReadFile, Stamp, Emit;
    S.FirstFramePaced(s, now, 0);
    StampIsRead(s.media.value);
  }

  lemma StartedTick(s: State, now: int)
    requires Active(s) && s.firstFrame && s.media.value.prefetch.None? && M.WellFormed(s.media.value)
    requires s.media.value.pos < |s.media.value.file| && Sends(s.media.value, s.nptEnd, true, s.media.value.pos)
    ensures var outs := Pace(s, now, 0).outs;
            |outs| == 1 && outs[0].Video? && outs[0].frame.timestamp == Stamp(s.media.value, s.media.value.pos)
  {
    hide M.WellFormed, M.ReadFile, Admit, Stamp, PastEndAt;
    var m := s.media.value;
    S.FirstFramePaced(s, now, 0);
    StampIsRead(m);
    var r := M.Read(m);
    S.FirstFrameAdmitted(s.(pauseStart := 0, pending := None, media := Some(r.source)), r.frame.value, now);
  }

  // A frame before the end of the range has no frame past the end in front of it.
  lemma NoneCutBefore(m: M.Source, nptEnd: real, start: bool, i: nat)
    requires M.WellFormed(m) && m.pos <= i < |m.file| && Sends(m, nptEnd, start, i)
    ensures !PastEndAt(nptEnd, Stamp(m, m.pos)) && Stamp(m, m.pos) <= Stamp(m, i)
  {
    hide Stamp;
    StampMono(m, m.pos, i);
  }

  lemma TickIsGood(s: State, now: int, high: int)
    requires s.media.Some? && s.media.value.pos < |s.media.value.file|
    ensures Good(s, Tick(now, 0), high)
  {
    hide Pace, LoopsWell, Roomy;
  }

  // Ticks alone send a frame below high.
  lemma {:induction false} StepsBack(s: State, now: int, high: int, i: nat) returns (run: seq<Action>)
    requires Active(s) && s.firstFrame && s.media.value.prefetch.None? && M.WellFormed(s.media.value)
    requires s.media.value.pos <= i < |s.media.value.file| && Sends(s.media.value, s.nptEnd, true, i)
    requires Stamp(s.media.value, i) < high
    ensures GoodRun(s, run, high) && !NonDecreasing(Acts(s, run).outs, high)
    decreases i - s.media.value.pos
  {
    hide M.WellFormed, M.ReadFile, Stamp, Pace, PastEndAt, Good, NonDecreasing, HighAfter;
    var m := s.media.value;
    var a := Tick(now, 0);
    var r := Act(s, a);
    NoneCutBefore(m, s.nptEnd, true, i);
    TickIsGood(s, now, high);
    if Sends(m, s.nptEnd, true, m.pos) {
      StartedTick(s, now);
      run := [a];
      OneGood(s, a, high);
      OneAct(s, a);
      OutputOne(r.outs[0], high);
      assert r.outs == [r.outs[0]];
    } else {
      SkippedTick(s, now);
      var m' := r.state.media.value;
      SkippedSource(m, s.nptEnd, true, i);
      var rest := StepsBack(r.state, now, high, i);
      run := [a] + rest;
      OutputNone(high);
      AfterSilence(s, a, rest, high);
    }
  }

  lemma SkippedSource(m: M.Source, nptEnd: real, start: bool, i: nat)
    requires M.WellFormed(m) && m.prefetch.None? && m.pos < i < |m.file| && Sends(m, nptEnd, start, i)
    ensures var m' := M.ReadFile(m).source;
            && M.WellFormed(m') && m'.prefetch.None? && m'.pos == m.pos + 1 && m'.file == m.file
            && Sends(m', nptEnd, start, i) && Stamp(m', i) == Stamp(m, i)
  {
    hide M.WellFormed, Stamp, PastEndAt;
    StampStays(m, i);
    ReadStaysWellFormed(m);
  }

  lemma FollowedTick(s: State)
    requires Active(s) && s.pauseStart == 0 && !s.firstFrame && s.pending.None? && !s.waitIdr
    requires s.media.value.prefetch.None? && M.WellFormed(s.media.value) && s.media.value.pos < |s.media.value.file|
    ensures var m := s.media.value;
            var f := M.ReadFile(m).frame.value;
            var r := Pace(s, s.wallStart + MediaNs(Offset(s, f)), 0);
            && (Sends(m, s.nptEnd, false, m.pos) ==>
                  |r.outs| == 1 && r.outs[0].Video? && r.outs[0].frame.timestamp == Stamp(m, m.pos))
            && (m.file[m.pos].nals == [] ==> r == Result(s.(media := Some(M.ReadFile(m).source)), []))
  {
    hide M.WellFormed, M.ReadFile, Stamp, Emit, MediaNs, Offset, PastEndAt;
    var m := s.media.value;
    StampIsRead(m);
    if Sends(m, s.nptEnd, false, m.pos) {
      SecondTick(s, s.wallStart + MediaNs(Offset(s, M.ReadFile(m).frame.value)), 0);
    }
  }

  // The same behind a frame that has already gone out, with ticks late enough for each frame.
  lemma {:induction false} FollowsBack(s: State, high: int, i: nat) returns (run: seq<Action>)
    requires Active(s) && s.pauseStart == 0 && !s.firstFrame && s.pending.None? && !s.waitIdr
    requires s.media.value.prefetch.None? && M.WellFormed(s.media.value)
    requires s.media.value.pos <= i < |s.media.value.file| && Sends(s.media.value, s.nptEnd, false, i)
    requires Stamp(s.media.value, i) < high
    ensures GoodRun(s, run, high) && !NonDecreasing(Acts(s, run).outs, high)
    decreases i - s.media.value.pos
  {
    hide M.WellFormed, M.ReadFile, Stamp, Pace, PastEndAt, Good, NonDecreasing, HighAfter, MediaNs, Offset;
    var m := s.media.value;
    StampIsRead(m);
    var a := Tick(s.wallStart + MediaNs(Offset(s, M.ReadFile(m).frame.value)), 0);
    var r := Act(s, a);
    NoneCutBefore(m, s.nptEnd, false, i);
    TickIsGood(s, a.now, high);
    FollowedTick(s);
    if Sends(m, s.nptEnd, false, m.pos) {
      run := [a];
      OneGood(s, a, high);
      OneAct(s, a);
      OutputOne(r.outs[0], high);
      assert r.outs == [r.outs[0]];
    } else {
      SkippedSource(m, s.nptEnd, false, i);
      var rest := FollowsBack(r.state, high, i);
      run := [a] + rest;
      OutputNone(high);
      AfterSilence(s, a, rest, high);
    }
  }

  lemma OneGood(s: State, a: Action, high: int)
    requires Good(s, a, high)
    ensures GoodRun(s, [a], high)
  {
    hide Act, Good, HighAfter;
    assert [a][1..] == [];
  }

  lemma AfterSilence(s: State, a: Action, rest: seq<Action>, high: int)
    requires Good(s, a, high) && Act(s, a).outs == [] && GoodRun(Act(s, a).state, rest, high)
    ensures GoodRun(s, [a] + rest, high) && Acts(s, [a] + rest).outs == Acts(Act(s, a).state, rest).outs
  {
    hide Act, Good;
    OutputNone(high);
    assert ([a] + rest)[1..] == rest;
    assert [] + Acts(Act(s, a).state, rest).outs == Acts(Act(s, a).state, rest).outs;
  }

  // ---------- exactly when ----------

  // Whatever good run follows, no timestamp is below the one before it.
  ghost predicate AllInOrder(s: State, high: int) {
    forall run | GoodRun(s, run, high) :: NonDecreasing(Acts(s, run).outs, high)
  }

  lemma RestartIff(s: State, high: int)
    requires Active(s) && s.firstFrame && s.media.value.prefetch.None? && M.WellFormed(s.media.value)
    requires s.lastRtp == 0 && high > 0
    ensures AllInOrder(s, high) <==> SendsAbove(s.media.value, s.nptEnd, true, high)
  {
    hide GoodRun, Acts, NonDecreasing, M.WellFormed, Stamp, Sends;
    var m := s.media.value;
    if SendsAbove(m, s.nptEnd, true, high) {
      forall run | GoodRun(s, run, high) ensures NonDecreasing(Acts(s, run).outs, high) {
        RestartInOrder(s, run, high);
      }
    } else {
      var i :| m.pos <= i < |m.file| && Sends(m, s.nptEnd, true, i) && Stamp(m, i) < high;
      var run := StepsBack(s, 1, high, i);
    }
  }

  lemma TimelyIsInOrder(s: State, high: int)
    requires Timely(s, high)
    ensures AllInOrder(s, high)
  {
    hide GoodRun, Acts, NonDecreasing, Timely;
    forall run | GoodRun(s, run, high) ensures NonDecreasing(Acts(s, run).outs, high) {
      TimestampsNeverDecrease(s, run, high);
    }
  }

  lemma AfterSeek(m: M.Source, offset: u32, land: nat)
    requires M.Sorted(m.file) && M.Room(M.Seek(m, offset, land))
    ensures var m' := M.Seek(m, offset, land);
            && M.WellFormed(m') && m'.prefetch == m.prefetch && m'.pos == land && m'.file == m.file
            && (land < |m.file| ==> Stamp(m', land) == offset)
            && forall i | land <= i < |m.file| :: offset <= Stamp(m', i)
  {
    hide M.Rescale;
    var m' := M.Seek(m, offset, land);
    M.SeekIsAhead(m, offset, land, 0);
    M.RescaleZero(m.num, m.den);
    forall i | land <= i < |m.file| ensures offset <= Stamp(m', i) {
      StampMono(m', land, i);
    }
  }

  lemma AboveTheStart(m: M.Source, offset: u32, land: nat, nptEnd: real, start: bool, high: int)
    requires M.Sorted(m.file) && M.Room(M.Seek(m, offset, land)) && high <= offset
    ensures SendsAbove(M.Seek(m, offset, land), nptEnd, start, high)
  {
    hide Stamp, M.WellFormed, M.Sorted, M.Room, Sends;
    AfterSeek(m, offset, land);
  }

  // With a frame to start with where the seek lands, that frame decides.
  lemma LandingDecides(m: M.Source, offset: u32, land: nat, nptEnd: real, start: bool, high: int)
    requires M.Sorted(m.file) && M.Room(M.Seek(m, offset, land))
    requires land < |m.file| && Sends(M.Seek(m, offset, land), nptEnd, start, land)
    ensures SendsAbove(M.Seek(m, offset, land), nptEnd, start, high) <==> high <= offset
  {
    hide Stamp, M.WellFormed, M.Sorted, M.Room, Sends;
    AfterSeek(m, offset, land);
  }

  // The state after a seek: either the invariant holds, or the pass has sent nothing yet.
  lemma SoughtIff(s: State, m: M.Source, offset: u32, land: nat, high: int)
    requires Active(s) && s.firstFrame && m.prefetch.None? && s.media == Some(M.Seek(m, offset, land))
    requires M.Sorted(m.file) && M.Room(M.Seek(m, offset, land)) && high >= 0
    requires Timely(s, high) <==> high <= offset
    requires high > offset ==> s.lastRtp == 0
    ensures AllInOrder(s, high) <==> SendsAbove(M.Seek(m, offset, land), s.nptEnd, true, high)
  {
    hide AllInOrder, SendsAbove, Timely, M.WellFormed, M.Sorted, M.Room;
    AfterSeek(m, offset, land);
    if high <= offset {
      TimelyIsInOrder(s, high);
      AboveTheStart(m, offset, land, s.nptEnd, true, high);
    } else {
      RestartIff(s, high);
    }
  }

  /**
   At the end of the file the next pass begins at the last timestamp plus the last duration, modulo 2^32.
   Every good run that follows is in order if and only if no frame the next pass can start with lies below
   the last timestamp sent.
   */
  lemma LoopInOrderIff(s: State, now: int, land: nat, high: int)
    requires Timely(s, high) && AtEof(s) && Roomy(Pace(s, now, land).state) && high >= 0
    ensures AllInOrder(Pace(s, now, land).state, high)
            <==> SendsAbove(M.Seek(s.media.value, NextStart(s) % TWO_32, land), -1.0, true, high)
  {
    hide Pace, AllInOrder, SendsAbove, Timely, M.Seek, M.Room;
    EofRewinds(s, now, land);
    LoopTimelyIff(s, now, land, high);
    LoopSource(s, now, land, high);
    SoughtIff(Pace(s, now, land).state, s.media.value, NextStart(s) % TWO_32, land, high);
  }

  lemma LoopSource(s: State, now: int, land: nat, high: int)
    requires Timely(s, high) && AtEof(s) && Roomy(Pace(s, now, land).state)
    ensures M.Sorted(s.media.value.file) && s.media.value.prefetch.None?
    ensures M.Room(M.Seek(s.media.value, NextStart(s) % TWO_32, land))
  {
    hide Pace, M.Seek, M.Room, M.Ahead;
    EofRewinds(s, now, land);
    M.ReadNothing(s.media.value);
  }

  /** With a key frame where the seek lands: if and only if the new start is not below the last one sent. */
  lemma LoopContinuesIff(s: State, now: int, land: nat, high: int)
    requires Timely(s, high) && AtEof(s) && Roomy(Pace(s, now, land).state) && high >= 0
    requires land < |s.media.value.file| && s.media.value.file[land].key && s.media.value.file[land].nals != []
    ensures AllInOrder(Pace(s, now, land).state, high) <==> high <= NextStart(s) % TWO_32
  {
    hide Pace, AllInOrder, SendsAbove, Timely, M.Room, M.Sorted, Stamp;
    LoopInOrderIff(s, now, land, high);
    LoopSource(s, now, land, high);
    LandingDecides(s.media.value, NextStart(s) % TWO_32, land, -1.0, true, high);
  }

  function ScaleStart(s: State, c: Command): u32
    requires c.Play?
  {
    Max(s.lastRtp, if s.keyNpt < 0.0 then 0 else c.probe.rtp)
  }

  lemma ScaleSeeks(s: State, c: Command)
    requires s.media.Some? && c.Play? && c.scale && (s.mode == Ready || s.mode == Playing)
    ensures var s' := Handle(s, c).state;
            && s'.media == Some(M.Seek(s.media.value, ScaleStart(s, c), c.probe.land)) && s'.pending.None?
            && s'.lastRtp == s.lastRtp && s'.firstFrame && s'.nptEnd == s.nptEnd && s'.mode == Playing
            && s'.transportReady == s.transportReady
  {
    hide Handle;
    assert Sought(s.media.value, s.keyNpt, c.probe, s.lastRtp)
        == M.Seek(s.media.value, ScaleStart(s, c), c.probe.land);
    ScaledMedia(s, c, ScaleStart(s, c));
  }

  // ---------- two runs from a new session ----------

  // The run leads to s, and high is the last timestamp it has sent.
  ghost predicate Reaches(ssrc: u32, run: seq<Action>, s: State, high: int) {
    Acts(Fresh(ssrc), run).state == s && HighAfter(Acts(Fresh(ssrc), run).outs, 0) == high
  }

  lemma {:induction false} HighAppend(a: seq<Output>, b: seq<Output>, high: int)
    ensures HighAfter(a + b, high) == HighAfter(b, HighAfter(a, high))
    ensures NonDecreasing(a + b, high) ==> NonDecreasing(b, HighAfter(a, high))
    decreases |a|
  {
    if a == [] {
      assert a + b == b;
    } else {
      assert (a + b)[1..] == a[1..] + b;
      HighAppend(a[1..], b, if a[0].Video? then a[0].frame.timestamp else high);
    }
  }

  lemma Extend(ssrc: u32, run: seq<Action>, s: State, high: int, a: Action) returns (run': seq<Action>, s': State)
    requires Reaches(ssrc, run, s, high)
    ensures Reaches(ssrc, run', s', HighAfter(Act(s, a).outs, high)) && s' == Act(s, a).state
    ensures !NonDecreasing(Act(s, a).outs, high) ==> !NonDecreasing(Acts(Fresh(ssrc), run').outs, 0)
  {
    hide Acts, Act, NonDecreasing, HighAfter;
    run', s' := run + [a], Act(s, a).state;
    ActsAppend(Fresh(ssrc), run, [a]);
    OneAct(s, a);
    HighAppend(Acts(Fresh(ssrc), run).outs, Act(s, a).outs, 0);
  }

  lemma ExtendQuietly(ssrc: u32, run: seq<Action>, s: State, high: int, c: Command)
    returns (run': seq<Action>, s': State)
    requires Reaches(ssrc, run, s, high)
    ensures Reaches(ssrc, run', s', high) && s' == Handle(s, c).state
  {
    hide Handle, NonDecreasing, HighAfter, Reaches;
    run', s' := Extend(ssrc, run, s, high, Do(c));
    OneResponse(s, c);
    var outs := Handle(s, c).outs;
    OutputOne(outs[0], high);
    assert outs == [outs[0]];
  }

  // One key frame is announced at `from` by a PLAY.
  lemma Announced(ssrc: u32, m: M.Source, from: u32) returns (run: seq<Action>, s: State)
    requires |m.file| == 1 && m.file[0].key && m.file[0].nals != []
    ensures Reaches(ssrc, run, s, 0)
    ensures Active(s) && s.firstFrame && s.nptEnd <= 0.0 && s.lastRtp == 0 && s.lastDur.None? && s.keyNpt == 0.0
    ensures s.media.value.file == m.file && s.media.value.pos == 1
    ensures s.media.value.prefetch == Some(Frame(from, true, m.file[0].nals))
  {
    hide Reaches, Act, HighAfter, M.Seek, M.Rescale;
    run, s := [], Fresh(ssrc);
    Nothing(ssrc);
    run, s := ExtendQuietly(ssrc, run, s, 0, Describe(1, Opened(m)));
    run, s := ExtendQuietly(ssrc, run, s, 0, Setup(2, false, Tcp(None)));
    var play := Play(3, 1, false, None, None, M.Probe(from, 0));
    FreshMedia(s, play);
    PrefetchedOne(s.media.value, from);
    run, s := ExtendQuietly(ssrc, run, s, 0, play);
  }

  // The tick sends it.
  lemma OneFrameSent(ssrc: u32, m: M.Source, from: u32) returns (run: seq<Action>, s: State)
    requires |m.file| == 1 && m.file[0].key && m.file[0].nals != []
    ensures Reaches(ssrc, run, s, from)
    ensures Active(s) && !s.firstFrame && s.pending.None? && s.nptEnd <= 0.0 && s.lastDur.None?
    ensures s.media.value.file == m.file && s.media.value.prefetch.None? && s.media.value.pos == 1
  {
    hide Reaches, Act, HighAfter, Pace;
    run, s := Announced(ssrc, m, from);
    FirstTick(s, s.media.value.prefetch.value, 1, 0);
    var o := Pace(s, 1, 0).outs;
    ActIsPace(s, 1, 0);
    OutputOne(o[0], 0);
    assert o == [o[0]];
    run, s := Extend(ssrc, run, s, 0, Tick(1, 0));
  }

  lemma PrefetchedOne(m: M.Source, from: u32)
    requires |m.file| == 1 && m.prefetch.None?
    ensures var m' := M.Peek(M.Seek(m, from, 0)).source;
            && m'.prefetch == Some(Frame(from, m.file[0].key, m.file[0].nals)) && m'.pos == 1 && m'.file == m.file
            && m'.num == m.num && m'.den == m.den
  {
    hide M.Rescale;
    M.RescaleZero(m.num, m.den);
  }

  lemma Nothing(ssrc: u32)
    ensures Reaches(ssrc, [], Fresh(ssrc), 0)
  {
  }

  lemma ActIsPace(s: State, now: int, land: nat)
    ensures Act(s, Tick(now, land)) == Pace(s, now, land)
  {
  }

  // The end of the file; the seek that follows is given its landing position.
  lemma Rewinds(ssrc: u32, run: seq<Action>, s: State, high: int, land: nat) returns (run': seq<Action>, s': State)
    requires Reaches(ssrc, run, s, high) && Active(s) && s.pending.None?
    requires s.media.value.prefetch.None? && s.media.value.pos >= |s.media.value.file|
    ensures Reaches(ssrc, run', s', high)
    ensures Active(s') && s'.firstFrame && s'.pending.None? && s'.lastRtp == 0 && s'.nptEnd == -1.0
    ensures s'.lastDur == s.lastDur && s'.media == Some(M.Seek(s.media.value, NextStart(s) % TWO_32, land))
  {
    hide Reaches, Act, HighAfter, M.Seek, M.Rescale, Pace;
    EofRewinds(s, 2, land);
    EofPaced(s, 2, land);
    OutputNone(high);
    ActIsPace(s, 2, land);
    run', s' := Extend(ssrc, run, s, high, Tick(2, land));
  }

  // The start that follows sends a frame at `offset`, below the last one sent.
  lemma StartsBelow(ssrc: u32, run: seq<Action>, s: State, high: int, m: M.Source, offset: u32)
    returns (run': seq<Action>)
    requires Reaches(ssrc, run, s, high) && Active(s) && s.firstFrame && s.nptEnd <= 0.0
    requires s.media == Some(M.Seek(m, offset, 0)) && m.prefetch.None? && offset < high
    requires |m.file| == 1 && m.file[0].key && m.file[0].nals != []
    ensures !NonDecreasing(Acts(Fresh(ssrc), run').outs, 0)
  {
    hide Reaches, Act, Acts, HighAfter, M.Rescale, Pace, Stamp, NonDecreasing;
    M.RescaleZero(m.num, m.den);
    AfterSeek(m, offset, 0);
    StartedTick(s, 3);
    var o := Pace(s, 3, 0).outs;
    ActIsPace(s, 3, 0);
    OutputOne(o[0], high);
    assert o == [o[0]];
    var s';
    run', s' := Extend(ssrc, run, s, high, Tick(3, 0));
  }

  /** End of the file, then a PLAY with Scale before the next tick: the timestamps step back. */
  lemma ScaleStepsBack(ssrc: u32, m: M.Source, from: u32) returns (run: seq<Action>)
    requires |m.file| == 1 && m.file[0].key && m.file[0].nals != [] && from > 0
    ensures !NonDecreasing(Acts(Fresh(ssrc), run).outs, 0)
  {
    hide Reaches, Act, Acts, HighAfter, NonDecreasing;
    var s;
    run, s := OneFrameSent(ssrc, m, from);
    run, s := Rewinds(ssrc, run, s, from, 0);
    var play := Play(4, 2, true, None, None, M.Probe(0, 0));
    var before := s;
    ScaleSeeks(s, play);
    run, s := ExtendQuietly(ssrc, run, s, from, play);
    run := StartsBelow(ssrc, run, s, from, before.media.value, ScaleStart(before, play));
  }

  /** A rewind that does not land, so that a pass sends nothing: the next pass starts from zero again. */
  lemma LoopStepsBack(ssrc: u32, m: M.Source, from: u32) returns (run: seq<Action>)
    requires |m.file| == 1 && m.file[0].key && m.file[0].nals != [] && from > 0
    ensures !NonDecreasing(Acts(Fresh(ssrc), run).outs, 0)
  {
    hide Reaches, Act, Acts, HighAfter, NonDecreasing;
    var s;
    run, s := OneFrameSent(ssrc, m, from);
    run, s := Rewinds(ssrc, run, s, from, 1);
    var before := s;
    run, s := Rewinds(ssrc, run, s, from, 0);
    assert NextStart(before) % TWO_32 == 0;
    run := StartsBelow(ssrc, run, s, from, before.media.value, 0);
  }
}
