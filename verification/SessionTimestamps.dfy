/** Video timestamps over whole runs: pauses, loops at the end of the file, and changes of Scale. */
module SessionTimestamps {
  import opened Basics
  import opened VideoStream
  import opened Session
  import S = SessionSafety
  import M = MediaSource

  ghost predicate NonDecreasing(outs: seq<Output>, high: int)
    decreases |outs|
  {
    outs == []
    || match outs[0]
       case Response(_, _, _) => NonDecreasing(outs[1..], high)
       case Video(_, f, _, _) => high <= f.timestamp && NonDecreasing(outs[1..], f.timestamp)
  }

  // The last timestamp sent.
  function HighAfter(outs: seq<Output>, high: int): int
    decreases |outs|
  {
    if outs == [] then high
    else HighAfter(outs[1..], if outs[0].Video? then outs[0].frame.timestamp else high)
  }

  lemma {:induction false} NonDecreasingAppend(a: seq<Output>, b: seq<Output>, high: int)
    requires NonDecreasing(a, high) && NonDecreasing(b, HighAfter(a, high))
    ensures NonDecreasing(a + b, high)
    decreases |a|
  {
    if a == [] {
      assert a + b == b;
    } else {
      assert (a + b)[1..] == a[1..] + b;
      NonDecreasingAppend(a[1..], b, if a[0].Video? then a[0].frame.timestamp else high);
    }
  }

  lemma OutputOne(o: Output, high: int)
    ensures NonDecreasing([o], high) <==> (o.Video? ==> high <= o.frame.timestamp)
    ensures HighAfter([o], high) == if o.Video? then o.frame.timestamp else high
  {
    assert [o][1..] == [];
  }

  lemma OutputNone(high: int)
    ensures NonDecreasing([], high) && HighAfter([], high) == high
  {
  }

  // ---------- the invariant ----------

  // Nothing on its way from the file is below high, nor below the frame that is already held.
  ghost predicate Coming(m: M.Source, pending: Option<Frame>, high: int) {
    && M.WellFormed(m) && M.Ahead(m, high)
    && (pending.Some? ==> m.prefetch.None? && high <= pending.value.timestamp && M.Ahead(m, pending.value.timestamp))
    && (m.prefetch.Some? ==> high <= m.prefetch.value.timestamp && M.Ahead(m, m.prefetch.value.timestamp))
  }

  // Once a frame is sent after a start, no prefetched frame is left.
  ghost predicate Timely(s: State, high: int) {
    && (s.media.Some? ==> Coming(s.media.value, s.pending, high))
    && (s.lastRtp != 0 ==> s.lastRtp == high && (s.media.Some? ==> s.media.value.prefetch.None?))
  }

  ghost predicate ResultTimely(r: Result, high: int) {
    NonDecreasing(r.outs, high) && Timely(r.state, HighAfter(r.outs, high))
  }

  lemma AheadMono(m: M.Source, b: int, c: int)
    requires M.Ahead(m, b) && c <= b
    ensures M.Ahead(m, c)
  {
  }

  // ---------- ticks ----------

  lemma EmitTimely(s: State, f: Frame, now: int, high: int)
    requires s.media.Some? && Coming(s.media.value, Some(f), high)
    requires s.lastRtp != 0 ==> s.lastRtp == high
    ensures ResultTimely(Emit(s, f, now), high)
  {
    hide NalList, Payloads, MediaNs, Offset, M.WellFormed, M.Ahead, NonDecreasing, HighAfter;
    OutputNone(high);
    OutputOne(Video(StreamOf(s), f, s.sequence, s.useTcp), high);
  }

  lemma AdmitTimely(s: State, f: Frame, now: int, high: int)
    requires s.media.Some? && s.pending.None? && Coming(s.media.value, Some(f), high)
    requires s.lastRtp != 0 ==> s.lastRtp == high
    ensures ResultTimely(Admit(s, f, now), high)
  {
    hide Emit, PastEnd, M.WellFormed, M.Ahead, NonDecreasing, HighAfter;
    OutputNone(high);
    EmitTimely(s.(waitIdr := false), f, now, high);
  }

  lemma HeldTimely(s: State, f: Frame, now: int, high: int)
    requires s.media.Some? && Timely(s, high) && s.pending == Some(f)
    ensures ResultTimely(Held(s, f, now), high)
  {
    hide Emit, M.WellFormed, M.Ahead, NonDecreasing, HighAfter;
    OutputNone(high);
    EmitTimely(s.(waitIdr := false), f, now, high);
  }

  lemma ReadTimely(m: M.Source, high: int)
    requires Coming(m, None, high)
    ensures var r := M.Read(m);
            if r.frame.Some? then Coming(r.source, r.frame, high) else r.source == m && m.prefetch.None?
  {
    hide M.WellFormed, M.Ahead;
    if m.prefetch.Some? {
      PrefetchDoesNotMatter(m, m.prefetch.value.timestamp);
      PrefetchDoesNotMatter(m, high);
    } else if m.pos < |m.file| {
      M.ReadFileKeepsAhead(m, high);
      AheadMono(M.ReadFile(m).source, M.TimestampAt(m), high);
    }
  }

  lemma PrefetchDoesNotMatter(m: M.Source, b: int)
    requires M.WellFormed(m) && M.Ahead(m, b)
    ensures M.WellFormed(m.(prefetch := None)) && M.Ahead(m.(prefetch := None), b)
  {
  }

  // The end of the file is reached.
  predicate AtEof(s: State) {
    Active(s) && (s.firstFrame || s.pending.None?) && M.Read(s.media.value).frame.None?
  }

  function NextStart(s: State): int {
    s.lastRtp + if s.lastDur.Some? then s.lastDur.value else 0
  }

  ghost predicate Roomy(s: State) {
    s.media.Some? ==> M.Room(s.media.value)
  }

  lemma SeekTimely(m: M.Source, offset: u32, land: nat, high: int)
    requires M.WellFormed(m) && m.prefetch.None? && high <= offset && M.Room(M.Seek(m, offset, land))
    ensures Coming(M.Seek(m, offset, land), None, high)
  {
    M.SeekIsAhead(m, offset, land, high);
  }

  lemma RewoundTimely(s: State, land: nat, high: int)
    requires Timely(s, high) && s.media.Some? && s.pending.None? && s.media.value.prefetch.None?
    requires high <= NextStart(s) < TWO_32 && Roomy(Rewound(s, land))
    ensures ResultTimely(Result(Rewound(s, land), []), high)
  {
    hide M.Room, M.WellFormed, M.Ahead;
    OutputNone(high);
    SeekTimely(s.media.value, NextStart(s), land, high);
  }

  lemma HoldNothing(s: State, now: int, high: int)
    requires Timely(s, high) && s.media.Some?
    ensures var s' := Resume(s, now); Timely(s', high) && Timely(s'.(pending := None), high)
  {
    hide M.WellFormed, M.Ahead;
  }

  lemma FetchTimely(s: State, now: int, land: nat, high: int)
    requires Timely(s, high) && s.media.Some? && s.pending.None?
    requires M.Read(s.media.value).frame.None? ==> high <= NextStart(s) < TWO_32 && Roomy(Rewound(s, land))
    ensures ResultTimely(Fetch(s, now, land), high)
  {
    hide Admit, Rewound, M.Read, M.WellFormed, M.Ahead, NonDecreasing, HighAfter;
    var r := M.Read(s.media.value);
    ReadTimely(s.media.value, high);
    if r.frame.Some? {
      AdmitTimely(s.(media := Some(r.source)), r.frame.value, now, high);
    } else {
      RewoundTimely(s, land, high);
    }
  }

  lemma IdleTimely(s: State, now: int, high: int)
    requires Timely(s, high)
    ensures ResultTimely(Result(Idle(s, now), []), high)
  {
    hide M.WellFormed, M.Ahead;
    OutputNone(high);
  }

  // Something was sent in this pass, or nothing at all so far; and the numbers do not wrap.
  ghost predicate LoopsWell(s: State, high: int) {
    (s.lastRtp != 0 || high == 0) && NextStart(s) < TWO_32
  }

  lemma PaceTimely(s: State, now: int, land: nat, high: int)
    requires Timely(s, high)
    requires AtEof(s) ==> LoopsWell(s, high) && Roomy(Pace(s, now, land).state)
    ensures ResultTimely(Pace(s, now, land), high)
  {
    hide Admit, Held, Fetch, Rewound, M.Read, Timely, ResultTimely, Roomy, Idle;
    if !Active(s) {
      IdleTimely(s, now, high);
    } else {
      var s' := Resume(s, now);
      HoldNothing(s, now, high);
      if s'.firstFrame || s'.pending.None? {
        if M.Read(s.media.value).frame.None? {
          EofTimely(s, s'.(pending := None), now, land, high);
        }
        FetchTimely(s'.(pending := None), now, land, high);
      } else {
        HeldTimely(s', s'.pending.value, now, high);
      }
    }
  }

  lemma EofTimely(s: State, s': State, now: int, land: nat, high: int)
    requires Timely(s, high) && LoopsWell(s, high) && s.media.Some? && s' == Resume(s, now).(pending := None)
    requires M.Read(s.media.value).frame.None?
    ensures high <= NextStart(s') < TWO_32 && Fetch(s', now, land).state == Rewound(s', land)
  {
    hide M.Read, Rewound, M.WellFormed, M.Ahead, Coming;
  }

  // ---------- requests ----------

  lemma SoughtIsSeek(m: M.Source, position: real, probe: M.Probe, from: u32)
    ensures exists offset: u32 :: from <= offset && Sought(m, position, probe, from) == M.Seek(m, offset, probe.land)
  {
    var at := if position < 0.0 then 0 else probe.rtp;
    assert Sought(m, position, probe, from) == M.Seek(m, Max(at, from), probe.land);
  }

  lemma ScaleTimely(s: State, probe: M.Probe, high: int)
    requires Timely(s, high) && s.lastRtp != 0
    requires Roomy(SeekAndReset(s, s.keyNpt, probe, true))
    ensures Timely(SeekAndReset(s, s.keyNpt, probe, true), high)
  {
    hide Sought, M.Room, M.WellFormed, M.Ahead, M.Seek;
    if s.media.Some? {
      var m := s.media.value;
      SoughtIsSeek(m, s.keyNpt, probe, s.lastRtp);
      var offset: u32 :| s.lastRtp <= offset && Sought(m, s.keyNpt, probe, s.lastRtp) == M.Seek(m, offset, probe.land);
      SeekTimely(m, offset, probe.land, high);
      SeekPrefetch(m, offset, probe.land);
    }
  }

  lemma SeekPrefetch(m: M.Source, offset: u32, land: nat)
    ensures M.Seek(m, offset, land).prefetch == m.prefetch
  {
  }

  // Only what the timestamps depend on.
  lemma SamePacingTimely(s: State, s': State, high: int)
    requires Timely(s, high) && SamePacing(s, s') && s'.media == s.media
    ensures Timely(s', high)
  {
    hide Coming;
  }

  lemma ResumeTimely(s: State, clock: int, high: int)
    requires Timely(s, high)
    ensures Timely(Resume(s, clock).(mode := Playing), high)
  {
    hide Coming;
  }

  // No new file, no new start, and Scale only after a frame has been sent.
  ghost predicate Continues(s: State, c: Command) {
    && !c.Describe?
    && (c.Play? && (s.mode == Ready || s.mode == Playing) ==> c.scale && s.lastRtp != 0 && Roomy(Handle(s, c).state))
  }

  lemma PlayTimely(s: State, c: Command, high: int)
    requires Timely(s, high) && Continues(s, c) && c.Play?
    ensures Timely(Handle(s, c).state, high)
  {
    hide SeekAndReset, PlayFresh, Resume, M.Room, Coming;
    if s.mode == Paused {
      ResumeTimely(s, c.clock, high);
    } else if s.mode != Init {
      ScaleTimely(s, c.probe, high);
    }
  }

  lemma HandleTimely(s: State, c: Command, high: int)
    requires Timely(s, high) && Continues(s, c)
    ensures ResultTimely(Handle(s, c), high)
  {
    hide Handle, Timely, NonDecreasing, HighAfter, Roomy;
    var r := Handle(s, c);
    if c.Play? {
      PlayTimely(s, c, high);
    } else {
      OnlyPlayTouchesPacing(s, c);
      SamePacingTimely(s, r.state, high);
    }
    OneResponse(s, c);
    OutputOne(r.outs[0], high);
    assert r.outs == [r.outs[0]];
  }

  // ---------- runs ----------

  ghost predicate Good(s: State, a: Action, high: int) {
    match a
    case Do(c) => Continues(s, c)
    case Tick(now, land) => AtEof(s) ==> LoopsWell(s, high) && Roomy(Pace(s, now, land).state)
  }

  ghost predicate GoodRun(s: State, run: seq<Action>, high: int)
    decreases |run|
  {
    run == []
    || (Good(s, run[0], high)
        && GoodRun(Act(s, run[0]).state, run[1..], HighAfter(Act(s, run[0]).outs, high)))
  }

  lemma ActTimely(s: State, a: Action, high: int)
    requires Timely(s, high) && Good(s, a, high)
    ensures ResultTimely(Act(s, a), high)
  {
    hide Handle, Pace, Timely, ResultTimely, Continues, LoopsWell, Roomy, AtEof;
    match a {
      case Do(c) => HandleTimely(s, c, high);
      case Tick(now, land) => PaceTimely(s, now, land, high);
    }
  }

  /** Timestamps never decrease over ticks, loops, pauses and changes of Scale. */
  lemma {:induction false} TimestampsNeverDecrease(s: State, run: seq<Action>, high: int)
    requires Timely(s, high) && GoodRun(s, run, high)
    ensures NonDecreasing(Acts(s, run).outs, high)
    decreases |run|
  {
    hide Act, Timely, Good, NonDecreasing, HighAfter;
    if run == [] {
      OutputNone(high);
    } else {
      var r := Act(s, run[0]);
      ActTimely(s, run[0], high);
      TimestampsNeverDecrease(r.state, run[1..], HighAfter(r.outs, high));
      NonDecreasingAppend(r.outs, Acts(r.state, run[1..]).outs, high);
    }
  }

  // ---------- when a start, a loop or a change of Scale keeps the invariant ----------

  lemma CurrentStart(m: M.Source, offset: u32, land: nat)
    requires land < |m.file| && m.prefetch.None?
    ensures var r := M.Read(M.Seek(m, offset, land));
            r.frame == Some(Frame(offset, m.file[land].key, m.file[land].nals))
  {
    M.RescaleZero(m.num, m.den);
  }

  lemma ComingAfterSeekIff(m: M.Source, offset: u32, land: nat, high: int)
    requires M.Sorted(m.file) && M.Room(M.Seek(m, offset, land))
    ensures Coming(M.Seek(m, offset, land), None, high)
            <==> high <= offset && (m.prefetch.Some? ==> high <= m.prefetch.value.timestamp <= offset)
  {
  }

  // At the end of the file the next pass begins at the last timestamp plus the last frame's duration.
  lemma LoopTimelyIff(s: State, now: int, land: nat, high: int)
    requires Timely(s, high) && AtEof(s) && Roomy(Pace(s, now, land).state)
    ensures var s' := Pace(s, now, land).state;
            && s'.media.Some?
            && (Timely(s', high) <==> high <= NextStart(s) % TWO_32)
            && (land < |s'.media.value.file| ==>
                  var f := M.Read(s'.media.value).frame; f.Some? && f.value.timestamp == NextStart(s) % TWO_32)
  {
    hide M.WellFormed, M.Ahead, M.Room;
    var m := s.media.value;
    var s' := Pace(s, now, land).state;
    EofRewinds(s, now, land);
    M.ReadNothing(m);
    SortedOf(m, high);
    ComingAfterSeekIff(m, NextStart(s) % TWO_32, land, high);
    if land < |m.file| {
      CurrentStart(m, NextStart(s) % TWO_32, land);
    }
  }

  lemma SortedOf(m: M.Source, high: int)
    requires Coming(m, None, high) || M.WellFormed(m)
    ensures M.Sorted(m.file)
  {
  }

  lemma EofRewinds(s: State, now: int, land: nat)
    requires AtEof(s)
    ensures var s' := Pace(s, now, land).state;
            s'.media == Some(M.Seek(s.media.value, NextStart(s) % TWO_32, land))
            && s'.lastRtp == 0 && s'.pending.None? && s'.firstFrame && s'.nptEnd == -1.0
            && s'.mode == Playing && s'.transportReady && s'.lastDur == s.lastDur
  {
    hide Pace, Rewound, M.Seek, M.Read;
    EofPaced(s, now, land);
    RewoundMeans(Resume(s, now).(pending := None), land);
  }

  lemma EofPaced(s: State, now: int, land: nat)
    requires AtEof(s)
    ensures Pace(s, now, land) == Result(Rewound(Resume(s, now).(pending := None), land), [])
  {
    hide Rewound, Admit, Held, M.Read;
  }

  lemma RewoundMeans(s: State, land: nat)
    requires s.media.Some?
    ensures var s' := Rewound(s, land);
            && s'.media == Some(M.Seek(s.media.value, NextStart(s) % TWO_32, land))
            && s'.lastRtp == 0 && s'.pending == s.pending && s'.firstFrame && s'.nptEnd == -1.0
            && s'.mode == s.mode && s'.transportReady == s.transportReady && s'.lastDur == s.lastDur
  {
    hide M.Seek;
  }

  // A PLAY with Scale begins at the last timestamp of this pass or at the position found.
  lemma ScaleTimelyIff(s: State, c: Command, high: int)
    requires Timely(s, high) && s.media.Some? && s.media.value.prefetch.None?
    requires c.Play? && c.scale && (s.mode == Ready || s.mode == Playing) && Roomy(Handle(s, c).state)
    ensures Timely(Handle(s, c).state, high)
            <==> high <= Max(s.lastRtp, if s.keyNpt < 0.0 then 0 else c.probe.rtp)
  {
    hide M.WellFormed, M.Ahead, M.Room;
    var m := s.media.value;
    var offset := Max(s.lastRtp, if s.keyNpt < 0.0 then 0 else c.probe.rtp);
    SortedOf(m, high);
    assert Sought(m, s.keyNpt, c.probe, s.lastRtp) == M.Seek(m, offset, c.probe.land);
    ScaledMedia(s, c, offset);
    ComingAfterSeekIff(m, offset, c.probe.land, high);
  }

  lemma ScaledMedia(s: State, c: Command, offset: u32)
    requires s.media.Some? && c.Play? && c.scale && (s.mode == Ready || s.mode == Playing)
    requires Sought(s.media.value, s.keyNpt, c.probe, s.lastRtp) == M.Seek(s.media.value, offset, c.probe.land)
    ensures var s' := Handle(s, c).state;
            && s'.media == Some(M.Seek(s.media.value, offset, c.probe.land)) && s'.pending.None?
            && s'.lastRtp == s.lastRtp
            && s'.firstFrame && s'.nptEnd == s.nptEnd && s'.mode == Playing && s'.transportReady == s.transportReady
  {
    hide Sought, M.Seek;
  }

  function StartOffset(range: Option<real>, probe: M.Probe): u32 {
    if range.Some? && range.value < 0.0 then 0 else probe.rtp
  }

  lemma FreshMedia(s: State, c: Command)
    requires s.media.Some? && c.Play? && !c.scale && (s.mode == Ready || s.mode == Playing)
    ensures var s' := Handle(s, c).state;
            && s'.media == Some(M.Peek(M.Seek(s.media.value, StartOffset(c.range, c.probe), c.probe.land)).source)
            && s'.pending.None? && s'.lastRtp == 0 && s'.lastDur.None? && s'.firstFrame && s'.mode == Playing
            && s'.transportReady == s.transportReady && s'.nptEnd == (if c.end.Some? then c.end.value else -1.0)
  {
    hide M.Peek;
    var position := if c.range.Some? then c.range.value else 0.0;
    assert Sought(s.media.value, position, c.probe, 0)
        == M.Seek(s.media.value, StartOffset(c.range, c.probe), c.probe.land);
  }

  lemma PeekedIsComing(m: M.Source)
    requires M.WellFormed(m) && M.Ahead(m, 0) && m.prefetch.None?
    ensures Coming(M.Peek(m).source, None, 0)
  {
    hide M.WellFormed, M.Ahead, M.TimestampAt;
    if m.pos < |m.file| {
      var r := M.ReadFile(m);
      M.ReadFileKeepsAhead(m, 0);
      AheadMono(r.source, r.frame.value.timestamp, 0);
      AddPrefetch(r.source, r.frame, r.frame.value.timestamp);
      AddPrefetch(r.source, r.frame, 0);
    }
  }

  lemma AddPrefetch(m: M.Source, frame: Option<Frame>, b: int)
    requires M.WellFormed(m) && M.Ahead(m, b)
    ensures M.WellFormed(m.(prefetch := frame)) && M.Ahead(m.(prefetch := frame), b)
  {
  }

  // With nothing prefetched, a fresh PLAY begins an ordered run.
  lemma FreshStartTimely(s: State, c: Command)
    requires s.media.Some? && s.media.value.prefetch.None?
    requires c.Play? && !c.scale && (s.mode == Ready || s.mode == Playing)
    requires var m := M.Seek(s.media.value, StartOffset(c.range, c.probe), c.probe.land); M.Sorted(m.file) && M.Room(m)
    ensures Timely(Handle(s, c).state, 0)
  {
    hide Handle, M.WellFormed, M.Ahead, M.Room, Coming;
    var offset := StartOffset(c.range, c.probe);
    FreshMedia(s, c);
    M.SeekIsAhead(s.media.value, offset, c.probe.land, 0) by { RoomOf(s.media.value, offset, c.probe.land); }
    PeekedIsComing(M.Seek(s.media.value, offset, c.probe.land));
  }

  lemma RoomOf(m: M.Source, offset: u32, land: nat)
    requires M.Room(M.Seek(m, offset, land))
    ensures offset + M.Span(m) < TWO_32
  {
  }

  // A frame that is due, with the gate open.
  lemma SecondTick(s: State, now: int, land: nat)
    requires Active(s) && s.pauseStart == 0 && !s.firstFrame && s.pending.None? && !s.waitIdr
    requires M.Read(s.media.value).frame.Some? && M.Read(s.media.value).frame.value.nals != []
    requires !PastEnd(s.nptEnd, M.Read(s.media.value).frame.value)
    requires now >= s.wallStart + MediaNs(Offset(s, M.Read(s.media.value).frame.value))
    ensures var r := Pace(s, now, land);
            && |r.outs| == 1 && r.outs[0].Video? && r.outs[0].frame == M.Read(s.media.value).frame.value
  {
    hide M.Read, NalList, Payloads, MediaNs, PastEnd;
  }

  // A prefetched frame that can start is sent at once, and sets the clock.
  lemma FirstTick(s: State, g: Frame, now: int, land: nat)
    requires Active(s) && s.firstFrame && s.media.value.prefetch == Some(g)
    requires g.key && g.nals != [] && !PastEnd(s.nptEnd, g)
    ensures var r := Pace(s, now, land);
            && |r.outs| == 1 && r.outs[0].Video? && r.outs[0].frame == g
            && Active(r.state) && r.state.pauseStart == 0 && !r.state.firstFrame && r.state.pending.None?
            && !r.state.waitIdr && r.state.nptEnd == s.nptEnd && r.state.describeDone == s.describeDone
            && r.state.wallStart == now && r.state.loopOffset == g.timestamp
            && r.state.media == Some(s.media.value.(prefetch := None))
            && r.state.lastRtp == g.timestamp && (s.lastRtp == 0 ==> r.state.lastDur == s.lastDur)
  {
    hide Pace, Admit, PastEnd;
    S.FirstFramePaced(s, now, land);
    var s' := s.(pauseStart := 0, pending := None, media := Some(M.Read(s.media.value).source));
    S.FirstFrameAdmitted(s', g, now);
    S.FirstFrameSent(s', g, now);
  }
}
