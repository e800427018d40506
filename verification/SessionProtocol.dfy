/**
 What a client is answered: which requests are accepted, over whole runs, and the course of an ordinary session.
 */
module SessionProtocol {
  import opened Basics
  import opened VideoStream
  import opened Session
  import T = SessionTimestamps
  import S = SessionSafety
  import M = MediaSource

  function Status(s: State, c: Command): int
    requires |Handle(s, c).outs| == 1 && Handle(s, c).outs[0].Response?
  {
    Handle(s, c).outs[0].status
  }

  // The request can be granted as things stand: what it asks for is there, and it fits the state.
  predicate Possible(s: State, c: Command) {
    match c
    case Options(_) => true
    case Describe(_, opening) => opening.Opened?
    case Setup(_, _, transport) =>
      s.describeDone && s.media.Some?
      && (transport.Tcp? || (transport.Udp? && transport.port.Some? && transport.bound))
    case Play(_, _, _, _, _, _) => s.mode != Init
    case Pause(_, _) => s.mode == Playing
    case Teardown(_) => true
    case Unknown(_) => false
  }

  // Statuses a DESCRIBE is refused with.
  predicate Refusal(c: Command) {
    c.Describe? && c.opening.Refused? ==> c.opening.status in {403, 404, 415}
  }

  /**
   200 is answered exactly to what can be granted. 501 goes to unknown methods and nothing else; 455 exactly to
   what does not fit the state, 400 and 461 to a SETUP without a transport or without a port.
   */
  lemma StatusIff(s: State, c: Command)
    requires Refusal(c)
    ensures |Handle(s, c).outs| == 1 && Handle(s, c).outs[0].Response?
    ensures Status(s, c) == 200 <==> Possible(s, c)
    ensures Status(s, c) == 501 <==> c.Unknown?
    ensures Status(s, c) == 455 <==> (c.Setup? && !(s.describeDone && s.media.Some?))
                                     || ((c.Play? || c.Pause?) && !Possible(s, c))
    ensures Status(s, c) == 400 <==> c.Setup? && s.describeDone && s.media.Some? && c.transport.Missing?
    ensures Status(s, c) == 461 <==> c.Setup? && s.describeDone && s.media.Some?
                                     && c.transport.Udp? && c.transport.port.None?
    ensures Status(s, c) == 500 <==> c.Setup? && s.describeDone && s.media.Some?
                                     && c.transport.Udp? && c.transport.port.Some? && !c.transport.bound
  {
    hide SeekAndReset, Resume, M.Peek, StartAfresh;
  }

  // ---------- over whole runs ----------

  // The last of the accepted video SETUPs and the TEARDOWNs is a SETUP, as seen from the answers.
  ghost function SetUp(before: bool, s: State, run: seq<Action>): bool
    decreases |run|
  {
    if run == [] then before
    else
      var outs := Act(s, run[0]).outs;
      var now := if run[0].Do? && run[0].command.Teardown? then false
                 else before || (S.IsVideoSetup(run[0]) && Response(run[0].command.cseq, 200, None) in outs);
      SetUp(now, Act(s, run[0]).state, run[1..])
  }

  lemma EmitMode(s: State, f: Frame, now: int)
    requires s.media.Some?
    ensures Emit(s, f, now).state.mode == s.mode && Emit(s, f, now).state.closing == s.closing
  {
    hide MediaNs, Offset, Send;
    SendMode(Anchored(s, f, now), f);
  }

  lemma SendMode(s: State, f: Frame)
    requires s.media.Some?
    ensures Send(s, f).state.mode == s.mode && Send(s, f).state.closing == s.closing
  {
    hide Offset, NalList, Payloads;
  }

  lemma AdmitMode(s: State, f: Frame, now: int)
    requires s.media.Some? && s.mode != Init
    ensures Admit(s, f, now).state.mode != Init && Admit(s, f, now).state.closing == s.closing
    ensures Held(s, f, now).state.mode != Init && Held(s, f, now).state.closing == s.closing
  {
    hide Emit, PastEnd;
    EmitMode(s.(waitIdr := false), f, now);
  }

  lemma PaceMode(s: State, now: int, land: nat)
    ensures var s' := Pace(s, now, land).state; (s'.mode == Init <==> s.mode == Init) && s'.closing == s.closing
  {
    hide M.Read, M.Seek, Admit, Held;
    if Active(s) {
      var s' := Resume(s, now).(pending := None);
      var r := M.Read(s.media.value);
      if r.frame.Some? {
        AdmitMode(s'.(media := Some(r.source)), r.frame.value, now);
      }
      if s.pending.Some? {
        AdmitMode(Resume(s, now), s.pending.value, now);
      }
    }
  }

  lemma HandleInit(s: State, c: Command)
    ensures Handle(s, c).state.mode != Init
            <==> !c.Teardown? && (s.mode != Init
                                  || (S.IsVideoSetup(Do(c)) && Response(c.cseq, 200, None) in Handle(s, c).outs))
  {
    hide SeekAndReset, M.Peek, StartAfresh, Resume;
    if c.Play? {
      PlayMode(s, c);
    }
  }

  lemma PlayMode(s: State, c: Command)
    requires c.Play?
    ensures Handle(s, c).state.mode == if s.mode == Init then Init else Playing
  {
    hide SeekAndReset, M.Peek, StartAfresh, Resume;
  }

  lemma {:induction false} InitIff(s: State, run: seq<Action>)
    ensures Acts(s, run).state.mode != Init <==> SetUp(s.mode != Init, s, run)
    decreases |run|
  {
    hide Handle, Pace;
    if run != [] {
      match run[0] {
        case Do(c) => HandleInit(s, c);
        case Tick(now, land) => PaceMode(s, now, land);
      }
      InitIff(Act(s, run[0]).state, run[1..]);
    }
  }

  /** In every run of a new session, a PLAY is accepted if and only if a video SETUP was, and no TEARDOWN since. */
  lemma PlayAcceptedIff(ssrc: u32, run: seq<Action>, c: Command)
    requires c.Play?
    ensures var s := Acts(Fresh(ssrc), run).state;
            && |Handle(s, c).outs| == 1 && Handle(s, c).outs[0].Response?
            && (Status(s, c) == 200 <==> SetUp(false, Fresh(ssrc), run))
            && (Status(s, c) == 200 || Status(s, c) == 455)
  {
    hide Acts, SetUp, Handle, Status;
    InitIff(Fresh(ssrc), run);
    StatusIff(Acts(Fresh(ssrc), run).state, c);
    PlayStatus(Acts(Fresh(ssrc), run).state, c);
  }

  lemma PlayStatus(s: State, c: Command)
    requires c.Play?
    ensures |Handle(s, c).outs| == 1 && Handle(s, c).outs[0].Response?
    ensures Status(s, c) == 200 || Status(s, c) == 455
  {
    hide SeekAndReset, Resume, M.Peek, StartAfresh;
  }

  // ---------- closing ----------

  ghost predicate TornDown(run: seq<Action>) {
    exists i | 0 <= i < |run| :: run[i].Do? && run[i].command.Teardown?
  }

  lemma HandleCloses(s: State, c: Command)
    ensures Handle(s, c).state.closing <==> s.closing || c.Teardown?
  {
    hide DoPlay, DoSetup, M.AtStart;
    if c.Play? {
      PlayCloses(s, c);
    } else if c.Setup? {
      SetupCloses(s, c.cseq, c.audio, c.transport);
    }
  }

  lemma SetupCloses(s: State, cseq: int, audio: bool, transport: Transport)
    ensures DoSetup(s, cseq, audio, transport).state.closing == s.closing
  {
  }

  lemma PlayCloses(s: State, c: Command)
    requires c.Play?
    ensures Handle(s, c).state.closing == s.closing
  {
    hide SeekAndReset, PlayFresh, Resume;
    SeekCloses(s, s.keyNpt, c.probe, true);
    FreshCloses(s, c);
    ResumeCloses(s, c.clock);
  }

  lemma FreshCloses(s: State, c: Command)
    requires c.Play?
    ensures PlayFresh(s, c.cseq, c.range, c.end, c.probe).state.closing == s.closing
  {
    hide SeekAndReset, M.Peek;
    SeekCloses(s, if c.range.Some? then c.range.value else 0.0, c.probe, false);
  }

  lemma SeekCloses(s: State, position: real, probe: M.Probe, adjust: bool)
    ensures SeekAndReset(s, position, probe, adjust).closing == s.closing
  {
    hide Sought;
  }

  lemma ResumeCloses(s: State, clock: int)
    ensures Resume(s, clock).closing == s.closing
  {
  }

  /** A session is to be closed if and only if a TEARDOWN has been handled. */
  lemma {:induction false} ClosingIff(s: State, run: seq<Action>)
    ensures Acts(s, run).state.closing <==> s.closing || TornDown(run)
    decreases |run|
  {
    hide Handle, Pace;
    if run != [] {
      match run[0] {
        case Do(c) => HandleCloses(s, c);
        case Tick(now, land) => PaceMode(s, now, land);
      }
      ClosingIff(Act(s, run[0]).state, run[1..]);
      TornDownStep(run);
    }
  }

  lemma TornDownStep(run: seq<Action>)
    requires run != []
    ensures TornDown(run) <==> (run[0].Do? && run[0].command.Teardown?) || TornDown(run[1..])
  {
    if TornDown(run) && !(run[0].Do? && run[0].command.Teardown?) {
      var i :| 0 <= i < |run| && run[i].Do? && run[i].command.Teardown?;
      assert run[1..][i - 1] == run[i];
    }
    if TornDown(run[1..]) {
      var i :| 0 <= i < |run[1..]| && run[1..][i].Do? && run[1..][i].command.Teardown?;
      assert run[i + 1] == run[1..][i];
    }
  }

  // ---------- an ordinary session ----------

  function Course(m: M.Source): seq<Action> {
    [Do(Options(1)), Do(Describe(2, Opened(m))), Do(Setup(3, false, Tcp(Some(2)))),
     Do(Play(4, 10, false, None, None, M.Probe(0, 0))), Tick(20, 0), Do(Pause(5, 30)),
     Do(Play(6, 40, false, None, None, M.Probe(0, 0))), Do(Unknown(7)), Do(Teardown(8))]
  }

  lemma Announces(m: M.Source)
    requires m.file != [] && m.file[0].key && m.file[0].nals != []
    ensures var m' := M.Peek(M.Seek(M.AtStart(m), 0, 0));
            m'.timestamp == 0 && m'.source.prefetch == Some(Frame(0, true, m.file[0].nals))
            && m'.source.sps == m.sps && m'.source.pps == m.pps
  {
    hide M.Rescale;
    M.RescaleZero(m.num, m.den);
  }

  // Up to the first frame.
  lemma Opening(ssrc: u32, m: M.Source) returns (s: State)
    requires m.file != [] && m.file[0].key && m.file[0].nals != []
    ensures Acts(Fresh(ssrc), Course(m)[..4])
         == Result(s, [Response(1, 200, None), Response(2, 200, None), Response(3, 200, None),
                       Response(4, 200, Some(RtpInfo(0, 0)))])
    ensures s.mode == Playing && s.transportReady && s.useTcp && s.channel == 2 && s.ssrc == ssrc && s.sequence == 0
    ensures s.media.Some? && s.media.value.prefetch == Some(Frame(0, true, m.file[0].nals)) && s.firstFrame
    ensures s.media.value.sps == m.sps && s.media.value.pps == m.pps && s.nptEnd <= 0.0 && !s.closing
  {
    hide M.Seek, M.Peek, M.Rescale;
    Announces(m);
    var run := Course(m)[..4];
    var s0 := Fresh(ssrc);
    var s1 := Handle(s0, run[1].command).state;
    var s2 := Handle(s1, run[2].command).state;
    s := Handle(s2, run[3].command).state;
    T.FreshMedia(s2, run[3].command);
    PlayKeepsTransport(s2, run[3].command);
    assert Sought(M.AtStart(m), 0.0, M.Probe(0, 0), 0) == M.Seek(M.AtStart(m), 0, 0);
    FourActs(s0, run);
  }

  lemma TwoActs(s: State, a: Action, b: Action)
    ensures var r := Act(s, a);
            var q := Act(r.state, b);
            Acts(s, [a, b]) == Result(q.state, r.outs + q.outs)
  {
    hide Act, Acts;
    assert [a, b] == [a] + [b];
    ActsAppend(s, [a], [b]);
    OneAct(s, a);
    OneAct(Act(s, a).state, b);
  }

  lemma FourActs(s: State, run: seq<Action>)
    requires |run| == 4
    ensures var r0 := Act(s, run[0]);
            var r1 := Act(r0.state, run[1]);
            var r2 := Act(r1.state, run[2]);
            var r3 := Act(r2.state, run[3]);
            Acts(s, run) == Result(r3.state, (r0.outs + r1.outs) + (r2.outs + r3.outs))
  {
    hide Act, Acts;
    assert run == [run[0], run[1]] + [run[2], run[3]];
    TwoActs(s, run[0], run[1]);
    var t := Act(Act(s, run[0]).state, run[1]).state;
    TwoActs(t, run[2], run[3]);
    ActsAppend(s, [run[0], run[1]], [run[2], run[3]]);
  }

  lemma FirstFrame(s: State, g: Frame)
    requires Active(s) && s.firstFrame && s.media.value.prefetch == Some(g) && s.nptEnd <= 0.0 && s.useTcp
    requires g.key && g.nals != []
    ensures var r := Act(s, Tick(20, 0));
            && r.outs == [Video(StreamOf(s), g, s.sequence, true)]
            && r.state.mode == Playing && r.state.closing == s.closing
  {
    hide Admit, Pace;
    S.FirstFramePaced(s, 20, 0);
    var s' := s.(pauseStart := 0, pending := None, media := Some(M.Read(s.media.value).source));
    S.FirstFrameAdmitted(s', g, 20);
    S.FirstFrameSent(s', g, 20);
    PaceMode(s, 20, 0);
  }

  lemma Ending(s: State, run: seq<Action>)
    requires s.mode == Playing && !s.closing
    requires run == [Do(Pause(5, 30)), Do(Play(6, 40, false, None, None, M.Probe(0, 0))), Do(Unknown(7)),
                     Do(Teardown(8))]
    ensures Acts(s, run).outs
         == [Response(5, 200, None), Response(6, 200, None), Response(7, 501, None), Response(8, 200, None)]
    ensures Acts(s, run).state.closing && Acts(s, run).state.mode == Init
  {
    FourActs(s, run);
  }

  /**
   An ordinary session, for every file that begins with a key frame: OPTIONS, DESCRIBE, SETUP on channel 2, PLAY and a
   tick send the first frame of the file on that channel, numbered and stamped as announced, with payload type 96;
   then PAUSE, PLAY, an unknown method and TEARDOWN, after which the connection is to be closed.
   */
  lemma OrdinarySession(ssrc: u32, m: M.Source)
    requires m.file != [] && m.file[0].key && m.file[0].nals != []
    ensures Acts(Fresh(ssrc), Course(m)).outs
         == [Response(1, 200, None), Response(2, 200, None), Response(3, 200, None),
             Response(4, 200, Some(RtpInfo(0, 0))),
             Video(Stream(m.sps, m.pps, 96, ssrc, 2), Frame(0, true, m.file[0].nals), 0, true),
             Response(5, 200, None), Response(6, 200, None), Response(7, 501, None), Response(8, 200, None)]
    ensures Acts(Fresh(ssrc), Course(m)).state.closing && Acts(Fresh(ssrc), Course(m)).state.mode == Init
  {
    hide Acts, Act;
    var run := Course(m);
    var s := Opening(ssrc, m);
    var tick := [Tick(20, 0)];
    FirstFrame(s, s.media.value.prefetch.value);
    OneAct(s, Tick(20, 0));
    Ending(Act(s, Tick(20, 0)).state, run[5..]);
    ActsAppend(s, tick, run[5..]);
    ActsAppend(Fresh(ssrc), run[..4], tick + run[5..]);
    assert run == run[..4] + (tick + run[5..]);
  }
}
