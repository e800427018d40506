/**
 Where the next pass over the file begins: one frame duration behind the last frame sent, as far as the two last
 frames sent tell what that duration is.
 */
module SessionDurations {
  import opened Basics
  import opened VideoStream
  import opened Session
  import opened SessionTimestamps
  import S = SessionSafety
  import M = MediaSource

  // The timestamps sent.
  function Stamps(outs: seq<Output>): seq<u32> {
    if outs == [] then [] else (if outs[0].Video? then [outs[0].frame.timestamp] else []) + Stamps(outs[1..])
  }

  // The last timestamp of the pass, 0 for none, and the last step forward between two of them.
  datatype Track = Track(last: u32, step: Option<u32>)

  function Follow(t: Track, stamps: seq<u32>): Track
    decreases |stamps|
  {
    if stamps == [] then t
    else
      var x := stamps[0];
      Follow(Track(x, if t.last != 0 && x > t.last then Some(x - t.last) else t.step), stamps[1..])
  }

  function TrackOf(s: State): Track {
    Track(s.lastRtp, s.lastDur)
  }

  lemma {:induction false} StampsAppend(a: seq<Output>, b: seq<Output>)
    ensures Stamps(a + b) == Stamps(a) + Stamps(b)
  {
    if a == [] {
      assert a + b == b;
    } else {
      assert (a + b)[1..] == a[1..] + b && (a + b)[0] == a[0];
      StampsAppend(a[1..], b);
      Assoc(if a[0].Video? then [a[0].frame.timestamp] else [], Stamps(a[1..]), Stamps(b));
    }
  }

  lemma StampsOne(o: Output)
    ensures Stamps([o]) == if o.Video? then [o.frame.timestamp] else []
  {
    assert [o][1..] == [];
  }

  lemma {:induction false} FollowAppend(t: Track, a: seq<u32>, b: seq<u32>)
    ensures Follow(t, a + b) == Follow(Follow(t, a), b)
    decreases |a|
  {
    if a == [] {
      assert a + b == b;
    } else {
      assert (a + b)[0] == a[0] && (a + b)[1..] == a[1..] + b;
      FollowAppend(Follow(t, [a[0]]), a[1..], b);
      FollowOne(t, a[0]);
    }
  }

  lemma FollowOne(t: Track, x: u32)
    ensures Follow(t, [x]) == Track(x, if t.last != 0 && x > t.last then Some(x - t.last) else t.step)
  {
    assert [x][1..] == [];
  }

  // Neither a fresh start nor the end of the file.
  predicate KeepsPass(s: State, a: Action) {
    match a
    case Do(c) => !S.StartsAfresh(s, c)
    case Tick(_, _) => !AtEof(s)
  }

  ghost predicate OnePass(s: State, run: seq<Action>)
    decreases |run|
  {
    run == [] || (KeepsPass(s, run[0]) && OnePass(Act(s, run[0]).state, run[1..]))
  }

  ghost predicate Tracks(s: State, r: Result) {
    TrackOf(r.state) == Follow(TrackOf(s), Stamps(r.outs))
  }

  lemma SendTracked(s: State, f: Frame)
    requires s.media.Some?
    ensures Tracks(s, Send(s, f))
  {
    hide NalList, Payloads, Offset, Follow, Stamps;
    StampsOne(Send(s, f).outs[0]);
    FollowOne(TrackOf(s), f.timestamp);
    assert Send(s, f).outs == [Send(s, f).outs[0]];
  }

  lemma NothingSent(t: Track)
    ensures Follow(t, Stamps([])) == t
  {
  }

  lemma EmitTracked(s: State, f: Frame, now: int)
    requires s.media.Some?
    ensures Tracks(s, Emit(s, f, now))
  {
    hide Send, MediaNs, Offset, Follow, Stamps;
    NothingSent(TrackOf(s));
    SendTracked(Anchored(s, f, now), f);
  }

  lemma AdmitTracked(s: State, f: Frame, now: int)
    requires s.media.Some?
    ensures Tracks(s, Admit(s, f, now)) && Tracks(s, Held(s, f, now))
  {
    hide Emit, PastEnd, Follow, Stamps;
    NothingSent(TrackOf(s));
    EmitTracked(s.(waitIdr := false), f, now);
  }

  lemma PaceTracked(s: State, now: int, land: nat)
    requires !AtEof(s)
    ensures Tracks(s, Pace(s, now, land))
  {
    hide Admit, Held, M.Read, Follow, Stamps;
    NothingSent(TrackOf(s));
    if Active(s) {
      var s' := Resume(s, now);
      if s'.firstFrame || s'.pending.None? {
        var r := M.Read(s.media.value);
        AdmitTracked(s'.(pending := None, media := Some(r.source)), r.frame.value, now);
      } else {
        AdmitTracked(s', s'.pending.value, now);
      }
    }
  }

  lemma PlayTracked(s: State, c: Command)
    requires c.Play? && !S.StartsAfresh(s, c)
    ensures TrackOf(Handle(s, c).state) == TrackOf(s)
  {
    hide Sought, PlayFresh;
  }

  lemma ActTracked(s: State, a: Action)
    requires KeepsPass(s, a)
    ensures Tracks(s, Act(s, a))
  {
    hide Handle, Pace, Follow, Stamps, AtEof, S.StartsAfresh;
    match a {
      case Do(c) =>
        OneResponse(s, c);
        var outs := Handle(s, c).outs;
        StampsOne(outs[0]);
        assert outs == [outs[0]];
        NothingSent(TrackOf(s));
        NoStamps();
        if c.Play? {
          PlayTracked(s, c);
        } else {
          OnlyPlayTouchesPacing(s, c);
        }
      case Tick(now, land) => PaceTracked(s, now, land);
    }
  }

  lemma NoStamps()
    ensures Stamps([]) == []
  {
  }

  lemma {:induction false} RunTracked(s: State, run: seq<Action>)
    requires OnePass(s, run)
    ensures Tracks(s, Acts(s, run))
    decreases |run|
  {
    hide Act, Follow, Stamps, KeepsPass;
    if run == [] {
      NothingSent(TrackOf(s));
    } else {
      var r := Act(s, run[0]);
      ActTracked(s, run[0]);
      RunTracked(r.state, run[1..]);
      StampsAppend(r.outs, Acts(r.state, run[1..]).outs);
      FollowAppend(TrackOf(s), Stamps(r.outs), Stamps(Acts(r.state, run[1..]).outs));
    }
  }

  // ---------- the start of the next pass ----------

  lemma LastTwo(t: Track, stamps: seq<u32>)
    requires |stamps| >= 2
    ensures var f, g := stamps[|stamps| - 2], stamps[|stamps| - 1];
            var u := Follow(t, stamps);
            u.last == g && (0 < f < g ==> u.step == Some(g - f))
  {
    hide Follow;
    var n := |stamps|;
    var front := stamps[..n - 2];
    assert stamps == front + ([stamps[n - 2]] + [stamps[n - 1]]);
    FollowAppend(t, front, [stamps[n - 2]] + [stamps[n - 1]]);
    FollowAppend(Follow(t, front), [stamps[n - 2]], [stamps[n - 1]]);
    FollowOne(Follow(t, front), stamps[n - 2]);
    FollowOne(Follow(Follow(t, front), [stamps[n - 2]]), stamps[n - 1]);
  }

  // What the first packet after the rewind carries.
  lemma Rewinding(s: State, now: int, land: nat)
    requires AtEof(s) && land < |s.media.value.file|
    ensures var m := Pace(s, now, land).state.media;
            m.Some? && M.Read(m.value).frame.Some? && M.Read(m.value).frame.value.timestamp == NextStart(s) % TWO_32
  {
    hide Pace, M.Seek;
    EofRewinds(s, now, land);
    M.ReadNothing(s.media.value);
    CurrentStart(s.media.value, NextStart(s) % TWO_32, land);
  }

  /**
   When a pass ends whose two last frames were sent at f and g, 0 < f < g, the next pass begins at g + (g - f)
   modulo 2^32, whatever requests and pauses came in between.
   */
  lemma NextPassFollows(s: State, run: seq<Action>, now: int, land: nat)
    requires OnePass(s, run) && AtEof(Acts(s, run).state) && land < |Acts(s, run).state.media.value.file|
    requires var stamps := Stamps(Acts(s, run).outs);
             |stamps| >= 2 && 0 < stamps[|stamps| - 2] < stamps[|stamps| - 1]
    ensures var stamps := Stamps(Acts(s, run).outs);
            var f, g := stamps[|stamps| - 2], stamps[|stamps| - 1];
            var m := Pace(Acts(s, run).state, now, land).state.media;
            m.Some? && M.Read(m.value).frame.Some?
            && M.Read(m.value).frame.value.timestamp == (g + (g - f)) % TWO_32
  {
    hide Acts, Stamps, Follow, OnePass, Pace, AtEof, M.Read;
    RunTracked(s, run);
    LastTwo(TrackOf(s), Stamps(Acts(s, run).outs));
    Rewinding(Acts(s, run).state, now, land);
  }

  /**
   A first frame at 0 does not count as a frame: after a first pass of two frames at 0 and g the duration is not
   known, and the next pass begins at g again.
   */
  lemma TwoFramesRepeat(s: State, run: seq<Action>, now: int, land: nat)
    requires OnePass(s, run) && AtEof(Acts(s, run).state) && land < |Acts(s, run).state.media.value.file|
    requires s.lastRtp == 0 && s.lastDur.None? && |Stamps(Acts(s, run).outs)| == 2 && Stamps(Acts(s, run).outs)[0] == 0
    ensures var m := Pace(Acts(s, run).state, now, land).state.media;
            m.Some? && M.Read(m.value).frame.Some?
            && M.Read(m.value).frame.value.timestamp == Stamps(Acts(s, run).outs)[1]
  {
    hide Acts, Stamps, Follow, OnePass, Pace, AtEof, M.Read;
    RunTracked(s, run);
    var stamps := Stamps(Acts(s, run).outs);
    assert stamps == [stamps[0]] + [stamps[1]];
    FollowAppend(TrackOf(s), [stamps[0]], [stamps[1]]);
    FollowOne(TrackOf(s), stamps[0]);
    FollowOne(Follow(TrackOf(s), [stamps[0]]), stamps[1]);
    Rewinding(Acts(s, run).state, now, land);
  }

  // ---------- the position a change of Scale goes back to ----------

  /**
   The position remembered of a key frame is its own place on the 90 kHz clock if and only if the pass began with
   its first packet; packets discarded in front of the first key frame shift it.
   */
  lemma KeyPositionIff(s: State, f: Frame)
    requires s.media.Some? && f.key && s.loopOffset <= f.timestamp
    ensures 90000.0 * Send(s, f).state.keyNpt == f.timestamp as real <==> s.loopOffset == s.media.value.rtpOffset
    ensures 90000.0 * Send(s, f).state.keyNpt == (s.media.value.rtpOffset + f.timestamp - s.loopOffset) as real
  {
    hide NalList, Payloads;
    Whole(f.timestamp - s.loopOffset);
  }

  lemma Whole(n: u32)
    ensures n % TWO_32 == n
  {
  }
}
