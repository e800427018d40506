/** The end of a requested range: no frame at or behind it is sent, whatever happens in between. */
module SessionRange {
  import opened Basics
  import opened VideoStream
  import opened Session
  import opened SessionTimestamps
  import S = SessionSafety
  import M = MediaSource

  ghost predicate AllInTime(outs: seq<Output>, end: real) {
    forall i | 0 <= i < |outs| && outs[i].Video? :: S.InTime(outs[i].frame, end)
  }

  // The range is in force, and the frame held, if any, lies in it.
  ghost predicate Ranged(s: State, end: real) {
    s.nptEnd == end && (s.pending.Some? ==> S.InTime(s.pending.value, end))
  }

  // Neither a fresh start nor the end of the file, which take the range back.
  predicate KeepsRange(s: State, a: Action) {
    match a
    case Do(c) => !S.StartsAfresh(s, c)
    case Tick(_, _) => !AtEof(s)
  }

  ghost predicate RangeRun(s: State, run: seq<Action>)
    decreases |run|
  {
    run == [] || (KeepsRange(s, run[0]) && RangeRun(Act(s, run[0]).state, run[1..]))
  }

  lemma EmitInTime(s: State, f: Frame, now: int, end: real)
    requires s.media.Some? && s.nptEnd == end && S.InTime(f, end)
    ensures var r := Emit(s, f, now); Ranged(r.state, end) && AllInTime(r.outs, end)
  {
    hide NalList, Payloads, MediaNs, Offset, S.InTime;
  }

  lemma AdmitInTime(s: State, f: Frame, now: int, end: real)
    requires s.media.Some? && Ranged(s, end) && end > 0.0
    ensures var r := Admit(s, f, now); Ranged(r.state, end) && AllInTime(r.outs, end)
  {
    hide Emit, PastEnd, S.InTime;
    S.InTimeIff(end, f);
    if !PastEnd(end, f) {
      EmitInTime(s.(waitIdr := false), f, now, end);
    }
  }

  lemma HeldInTime(s: State, f: Frame, now: int, end: real)
    requires s.media.Some? && Ranged(s, end) && S.InTime(f, end)
    ensures var r := Held(s, f, now); Ranged(r.state, end) && AllInTime(r.outs, end)
  {
    hide Emit, S.InTime;
    EmitInTime(s.(waitIdr := false), f, now, end);
  }

  lemma PaceInTime(s: State, now: int, land: nat, end: real)
    requires Ranged(s, end) && end > 0.0 && !AtEof(s)
    ensures var r := Pace(s, now, land); Ranged(r.state, end) && AllInTime(r.outs, end)
  {
    hide Admit, Held, M.Read, S.InTime;
    if Active(s) {
      var s' := Resume(s, now);
      if s'.firstFrame || s'.pending.None? {
        var r := M.Read(s.media.value);
        AdmitInTime(s'.(pending := None, media := Some(r.source)), r.frame.value, now, end);
      } else {
        HeldInTime(s', s'.pending.value, now, end);
      }
    }
  }

  lemma HandleInTime(s: State, c: Command, end: real)
    requires Ranged(s, end) && !S.StartsAfresh(s, c)
    ensures Ranged(Handle(s, c).state, end)
  {
    hide Handle, S.InTime;
    if c.Play? {
      PlayInTime(s, c, end);
    } else {
      OnlyPlayTouchesPacing(s, c);
    }
  }

  lemma PlayInTime(s: State, c: Command, end: real)
    requires Ranged(s, end) && c.Play? && !S.StartsAfresh(s, c)
    ensures Ranged(Handle(s, c).state, end)
  {
    hide Sought, PlayFresh, S.InTime;
  }

  lemma ActInTime(s: State, a: Action, end: real)
    requires Ranged(s, end) && end > 0.0 && KeepsRange(s, a)
    ensures var r := Act(s, a); Ranged(r.state, end) && AllInTime(r.outs, end)
  {
    hide Handle, Pace, Ranged, S.InTime, AtEof, S.StartsAfresh;
    match a {
      case Do(c) =>
        HandleInTime(s, c, end);
        OneResponse(s, c);
      case Tick(now, land) => PaceInTime(s, now, land, end);
    }
  }

  lemma {:induction false} RunInTime(s: State, run: seq<Action>, end: real)
    requires Ranged(s, end) && end > 0.0 && RangeRun(s, run)
    ensures AllInTime(Acts(s, run).outs, end)
    decreases |run|
  {
    hide Act, Ranged, S.InTime, KeepsRange;
    if run != [] {
      ActInTime(s, run[0], end);
      RunInTime(Act(s, run[0]).state, run[1..], end);
    }
  }

  /**
   After a fresh PLAY with an end, and until the file has ended or a PLAY starts afresh: whatever is asked and
   however ticks fall, every frame sent lies before that end, in seconds of the 90 kHz clock.
   */
  lemma RangeIsKept(s: State, c: Command, run: seq<Action>)
    requires S.StartsAfresh(s, c) && c.end.Some? && c.end.value > 0.0 && (s.media.Some? || s.pending.None?)
    requires RangeRun(Handle(s, c).state, run)
    ensures var outs := Acts(Handle(s, c).state, run).outs;
            forall i | 0 <= i < |outs| && outs[i].Video? ::
              outs[i].frame.timestamp as real < 90000.0 * c.end.value
  {
    hide Handle, Acts, RangeRun;
    S.EndKept(s, c);
    NothingHeld(s, c);
    RunInTime(Handle(s, c).state, run, c.end.value);
  }

  lemma NothingHeld(s: State, c: Command)
    requires S.StartsAfresh(s, c) && (s.media.Some? || s.pending.None?)
    ensures Handle(s, c).state.pending.None?
  {
    hide Handle;
    if s.media.Some? {
      FreshMedia(s, c);
    } else {
      NoFileHeld(s, c);
    }
  }

  lemma NoFileHeld(s: State, c: Command)
    requires S.StartsAfresh(s, c) && s.media.None?
    ensures Handle(s, c).state.pending == s.pending
  {
    hide M.Peek;
    assert SeekAndReset(s, if c.range.Some? then c.range.value else 0.0, c.probe, false) == s;
  }
}
