/**
 The session state machine (appendix A.2 of RFC 2326) and its pacer. A tick first answers the queued
 requests, then sends at most one video frame. What the outside decides is part of the request or the
 tick: which file a DESCRIBE opens, the clock, and where the demuxer lands after a seek.
 */
module Session {
  import opened Basics
  import opened VideoStream
  import M = MediaSource

  datatype Mode = Init | Ready | Playing | Paused

  datatype Opening = Refused(status: int) | Opened(source: M.Source)

  // channel: the first number of "interleaved="; port: the number of "client_port=".
  datatype Transport = Missing | Tcp(channel: Option<int>) | Udp(port: Option<int>, bound: bool)

  datatype Command =
    | Options(cseq: int)
    | Describe(cseq: int, opening: Opening)
    | Setup(cseq: int, audio: bool, transport: Transport)
    | Play(cseq: int, clock: int, scale: bool, range: Option<real>, end: Option<real>, probe: M.Probe)
    | Pause(cseq: int, clock: int)
    | Teardown(cseq: int)
    | Unknown(cseq: int)

  datatype RtpInfo = RtpInfo(sequence: u16, rtptime: u32)

  datatype Output =
    | Response(cseq: int, status: int, info: Option<RtpInfo>)
    | Video(stream: Stream, frame: Frame, sequence: u16, tcp: bool)

  // Clocks in nanoseconds; 0 is the time point that stands for "none" in pauseStart.
  datatype State = State(
    mode: Mode, describeDone: bool, transportReady: bool, useTcp: bool, channel: int, ssrc: u32,
    media: Option<M.Source>, wallStart: int, pauseStart: int, firstFrame: bool, loopOffset: u32,
    pending: Option<Frame>, lastRtp: u32, lastDur: Option<u32>, waitIdr: bool, keyNpt: real, nptEnd: real,
    sequence: u16, closing: bool)

  datatype Result = Result(state: State, outs: seq<Output>)

  const PAYLOAD_TYPE: byte := 96

  function Fresh(ssrc: u32): State {
    State(Init, false, false, false, 0, ssrc, None, 0, 0, true, 0, None, 0, None, false, 0.0, -1.0, 0, false)
  }

  function Answer(s: State, cseq: int, status: int): Result {
    Result(s, [Response(cseq, status, None)])
  }

  // ---------- requests ----------

  function DoDescribe(s: State, cseq: int, opening: Opening): Result {
    match opening
    case Refused(status) => Answer(s.(media := None), cseq, status)
    case Opened(source) => Answer(s.(media := Some(M.AtStart(source)), describeDone := true), cseq, 200)
  }

  // The audio track has its own channel, but selects the transport of both.
  function Prepared(s: State, audio: bool, tcp: bool, channel: int): State {
    if audio then s.(useTcp := tcp)
    else s.(useTcp := tcp, channel := channel, transportReady := true, mode := Ready)
  }

  function DoSetup(s: State, cseq: int, audio: bool, transport: Transport): Result {
    if !s.describeDone || s.media.None? then Answer(s, cseq, 455)
    else
      match transport
      case Missing => Answer(s, cseq, 400)
      case Tcp(channel) =>
        Answer(Prepared(s, audio, true, if channel.Some? then channel.value else s.channel), cseq, 200)
      case Udp(port, bound) =>
        if port.None? then Answer(s.(useTcp := false), cseq, 461)
        else if !bound then Answer(s.(useTcp := false), cseq, 500)
        else Answer(Prepared(s, audio, false, s.channel), cseq, 200)
  }

  function Sought(source: M.Source, position: real, probe: M.Probe, continueFrom: u32): M.Source {
    var m := M.SeekToSeconds(source, position, probe);
    if continueFrom > m.rtpOffset then M.AdjustRtpOffset(m, continueFrom - m.rtpOffset) else m
  }

  function SeekAndReset(s: State, position: real, probe: M.Probe, adjust: bool): State {
    if s.media.None? then s
    else s.(media := Some(Sought(s.media.value, position, probe, if adjust then s.lastRtp else 0)),
            firstFrame := true, pending := None)
  }

  function Resume(s: State, clock: int): State {
    if s.pauseStart == 0 then s
    else s.(wallStart := if s.firstFrame then s.wallStart else s.wallStart + (clock - s.pauseStart), pauseStart := 0)
  }

  function Forgotten(s: State): State {
    s.(loopOffset := 0, lastRtp := 0, lastDur := None)
  }

  // All pacing and loop state is reset.
  function Cleared(s: State, end: Option<real>): State {
    Forgotten(s).(waitIdr := true, keyNpt := 0.0, nptEnd := if end.Some? then end.value else -1.0, pauseStart := 0)
  }

  function StartAfresh(s: State, range: Option<real>, end: Option<real>, probe: M.Probe): State {
    Cleared(SeekAndReset(s, if range.Some? then range.value else 0.0, probe, false), end)
  }

  function PlayFresh(s: State, cseq: int, range: Option<real>, end: Option<real>, probe: M.Probe): Result {
    var s' := StartAfresh(s, range, end, probe);
    if s'.media.None? then
      Result(s'.(mode := Playing), [Response(cseq, 200, Some(RtpInfo(s'.sequence, 0)))])
    else
      var p := M.Peek(s'.media.value);
      Result(s'.(mode := Playing, media := Some(p.source)),
             [Response(cseq, 200, Some(RtpInfo(s'.sequence, p.timestamp)))])
  }

  // With a Scale header, Range is not a seek.
  function DoPlay(s: State, cseq: int, clock: int, scale: bool, range: Option<real>, end: Option<real>, probe: M.Probe)
    : Result
  {
    if s.mode == Init then Answer(s, cseq, 455)
    else if s.mode == Paused then Answer(Resume(s, clock).(mode := Playing), cseq, 200)
    else if scale then Answer(SeekAndReset(s, s.keyNpt, probe, true).(mode := Playing), cseq, 200)
    else PlayFresh(s, cseq, range, end, probe)
  }

  function DoPause(s: State, cseq: int, clock: int): Result {
    if s.mode != Playing then Answer(s, cseq, 455) else Answer(s.(pauseStart := clock, mode := Paused), cseq, 200)
  }

  function Handle(s: State, c: Command): Result {
    match c
    case Options(cseq) => Answer(s, cseq, 200)
    case Describe(cseq, opening) => DoDescribe(s, cseq, opening)
    case Setup(cseq, audio, transport) => DoSetup(s, cseq, audio, transport)
    case Play(cseq, clock, scale, range, end, probe) => DoPlay(s, cseq, clock, scale, range, end, probe)
    case Pause(cseq, clock) => DoPause(s, cseq, clock)
    case Teardown(cseq) => Answer(s.(mode := Init, closing := true), cseq, 200)
    case Unknown(cseq) => Answer(s, cseq, 501)
  }

  // Same frames, timestamps, gate and wall clock.
  ghost predicate SamePacing(s: State, s': State) {
    && s'.wallStart == s.wallStart && s'.firstFrame == s.firstFrame && s'.loopOffset == s.loopOffset
    && s'.pending == s.pending && s'.lastRtp == s.lastRtp && s'.lastDur == s.lastDur && s'.waitIdr == s.waitIdr
    && s'.keyNpt == s.keyNpt && s'.nptEnd == s.nptEnd && s'.sequence == s.sequence && s'.ssrc == s.ssrc
  }

  lemma Unpaced(s: State, audio: bool, tcp: bool, channel: int, opening: Option<M.Source>, clock: int)
    ensures SamePacing(s, s) && SamePacing(s, Prepared(s, audio, tcp, channel)) && SamePacing(s, s.(useTcp := false))
    ensures SamePacing(s, s.(media := None)) && SamePacing(s, s.(media := opening, describeDone := true))
    ensures SamePacing(s, s.(pauseStart := clock, mode := Paused)) && SamePacing(s, s.(mode := Init, closing := true))
  {
  }

  lemma SetupFootprint(s: State, cseq: int, audio: bool, transport: Transport)
    ensures var s' := DoSetup(s, cseq, audio, transport).state;
            SamePacing(s, s') && s'.media == s.media && s'.pauseStart == s.pauseStart
  {
    hide SamePacing;
    var channel := if transport.Tcp? && transport.channel.Some? then transport.channel.value else s.channel;
    Unpaced(s, audio, transport.Tcp?, channel, None, 0);
  }

  // Every other request leaves frames, timestamps and numbers alone; only PAUSE touches the clocks.
  lemma OnlyPlayTouchesPacing(s: State, c: Command)
    requires !c.Play?
    ensures var s' := Handle(s, c).state;
            && SamePacing(s, s')
            && (!c.Describe? ==> s'.media == s.media)
            && (!c.Pause? ==> s'.pauseStart == s.pauseStart)
  {
    hide DoSetup, SamePacing;
    var opening := if c.Describe? && c.opening.Opened? then Some(M.AtStart(c.opening.source)) else None;
    Unpaced(s, false, false, 0, opening, if c.Pause? then c.clock else 0);
    if c.Setup? {
      SetupFootprint(s, c.cseq, c.audio, c.transport);
    }
  }

  // Same numbering, same transport.
  ghost predicate SameTransport(s: State, s': State) {
    && s'.sequence == s.sequence && s'.ssrc == s.ssrc && s'.useTcp == s.useTcp && s'.channel == s.channel
    && s'.describeDone == s.describeDone && s'.transportReady == s.transportReady
  }

  lemma SeekKeepsTransport(s: State, position: real, probe: M.Probe, adjust: bool)
    ensures SameTransport(s, SeekAndReset(s, position, probe, adjust))
  {
  }

  lemma FreshPlayKeepsTransport(s: State, cseq: int, range: Option<real>, end: Option<real>, probe: M.Probe)
    ensures SameTransport(s, PlayFresh(s, cseq, range, end, probe).state)
  {
    hide SeekAndReset, M.Peek;
    SeekKeepsTransport(s, if range.Some? then range.value else 0.0, probe, false);
  }

  lemma PlayKeepsTransport(s: State, c: Command)
    requires c.Play?
    ensures SameTransport(s, Handle(s, c).state)
  {
    hide SeekAndReset, PlayFresh;
    SeekKeepsTransport(s, s.keyNpt, c.probe, true);
    FreshPlayKeepsTransport(s, c.cseq, c.range, c.end, c.probe);
  }

  // ---------- the pacer, after the requests ----------

  predicate Active(s: State) {
    s.mode == Playing && s.media.Some? && s.transportReady
  }

  function Idle(s: State, now: int): State {
    s.(pauseStart := if s.mode == Paused && s.pauseStart == 0 then now else s.pauseStart,
       pending := if s.mode == Paused then s.pending else None)
  }

  function StreamOf(s: State): Stream
    requires s.media.Some?
  {
    Stream(s.media.value.sps, s.media.value.pps, PAYLOAD_TYPE, s.ssrc, s.channel)
  }

  // 90 kHz ticks in nanoseconds.
  function MediaNs(ticks: nat): nat {
    ticks * 100000 / 9
  }

  // What a frame's timestamp is relative to.
  function Offset(s: State, f: Frame): u32 {
    (f.timestamp - s.loopOffset) % TWO_32
  }

  // What is remembered of a frame that has been sent.
  function Tracked(s: State, f: Frame): State
    requires s.media.Some?
  {
    s.(keyNpt := if f.key then (s.media.value.rtpOffset + Offset(s, f)) as real / 90000.0 else s.keyNpt,
       lastDur := if s.lastRtp != 0 && f.timestamp > s.lastRtp then Some(f.timestamp - s.lastRtp) else s.lastDur,
       lastRtp := f.timestamp,
       pending := None)
  }

  function Send(s: State, f: Frame): Result
    requires s.media.Some?
  {
    Result(Tracked(s, f).(sequence := (s.sequence + |Payloads(NalList(StreamOf(s), f))|) % TWO_16),
           [Video(StreamOf(s), f, s.sequence, s.useTcp)])
  }

  lemma SendFootprint(s: State, f: Frame)
    requires s.media.Some?
    ensures var s' := Send(s, f).state;
            && s'.mode == s.mode && s'.transportReady == s.transportReady && s'.describeDone == s.describeDone
            && s'.media == s.media && s'.useTcp == s.useTcp && s'.channel == s.channel && s'.ssrc == s.ssrc
            && s'.firstFrame == s.firstFrame && s'.wallStart == s.wallStart && s'.pauseStart == s.pauseStart
            && s'.loopOffset == s.loopOffset
  {
    hide NalList, Payloads, Offset;
  }

  lemma SendTracks(s: State, f: Frame)
    requires s.media.Some?
    ensures var s' := Send(s, f).state;
            && s'.pending.None? && s'.waitIdr == s.waitIdr && s'.nptEnd == s.nptEnd && s'.lastRtp == f.timestamp
            && (s.lastRtp == 0 ==> s'.lastDur == s.lastDur)
  {
    hide NalList, Payloads, Offset;
  }

  // The first frame after a start or a seek sets the wall clock.
  function Anchored(s: State, f: Frame, now: int): State {
    if s.firstFrame then s.(wallStart := now, loopOffset := f.timestamp, firstFrame := false) else s
  }

  function Emit(s: State, f: Frame, now: int): Result
    requires s.media.Some?
  {
    var s' := Anchored(s, f, now);
    if now < s'.wallStart + MediaNs(Offset(s', f)) then Result(s'.(pending := Some(f)), []) else Send(s', f)
  }

  // A frame that is held is treated like one that has just been read.
  lemma HeldOrRead(s: State, held: Option<Frame>, f: Frame, now: int)
    requires s.media.Some?
    ensures Emit(s.(pending := held), f, now) == Emit(s, f, now)
  {
    hide NalList, Payloads, MediaNs;
  }

  function Rewound(s: State, land: nat): State
    requires s.media.Some?
  {
    var dur := if s.lastDur.Some? then s.lastDur.value else 0;
    s.(media := Some(M.Seek(s.media.value, (s.lastRtp + dur) % TWO_32, land)), firstFrame := true,
       loopOffset := 0, lastRtp := 0, waitIdr := false, nptEnd := -1.0)
  }

  predicate PastEndAt(nptEnd: real, timestamp: int) {
    nptEnd > 0.0 && timestamp as real / 90000.0 >= nptEnd
  }

  predicate PastEnd(nptEnd: real, f: Frame) {
    PastEndAt(nptEnd, f.timestamp)
  }

  function Admit(s: State, f: Frame, now: int): Result
    requires s.media.Some?
  {
    if f.nals == [] || ((s.firstFrame || s.waitIdr) && !f.key) then Result(s, [])
    else if PastEnd(s.nptEnd, f) then Result(s.(waitIdr := false, mode := Paused), [])
    else Emit(s.(waitIdr := false), f, now)
  }

  function Fetch(s: State, now: int, land: nat): Result
    requires s.media.Some?
  {
    var r := M.Read(s.media.value);
    if r.frame.None? then Result(Rewound(s, land), [])
    else Admit(s.(media := Some(r.source)), r.frame.value, now)
  }

  function Held(s: State, f: Frame, now: int): Result
    requires s.media.Some?
  {
    if s.waitIdr && !f.key then Result(s.(pending := None), []) else Emit(s.(waitIdr := false), f, now)
  }

  function Pace(s: State, now: int, land: nat): Result {
    if !Active(s) then Result(Idle(s, now), [])
    else
      var s' := Resume(s, now);
      if s'.firstFrame || s'.pending.None? then Fetch(s'.(pending := None), now, land)
      else Held(s', s'.pending.value, now)
  }

  // ---------- runs ----------

  datatype Action = Do(command: Command) | Tick(now: int, land: nat)

  function Act(s: State, a: Action): Result {
    match a
    case Do(c) => Handle(s, c)
    case Tick(now, land) => Pace(s, now, land)
  }

  function Acts(s: State, run: seq<Action>): Result
    decreases |run|
  {
    if run == [] then Result(s, [])
    else
      var r := Act(s, run[0]);
      var rest := Acts(r.state, run[1..]);
      Result(rest.state, r.outs + rest.outs)
  }

  lemma {:induction false} ActsAppend(s: State, a: seq<Action>, b: seq<Action>)
    ensures Acts(s, a + b)
         == Result(Acts(Acts(s, a).state, b).state, Acts(s, a).outs + Acts(Acts(s, a).state, b).outs)
    decreases |a|
  {
    hide Act;
    if a == [] {
      assert a + b == b;
    } else {
      assert (a + b)[1..] == a[1..] + b;
      ActsAppend(Act(s, a[0]).state, a[1..], b);
      Assoc(Act(s, a[0]).outs, Acts(Act(s, a[0]).state, a[1..]).outs, Acts(Acts(s, a).state, b).outs);
    }
  }

  lemma OneAct(s: State, a: Action)
    ensures Acts(s, [a]) == Act(s, a)
  {
    hide Act;
    var r := Act(s, a);
    assert [a][1..] == [] && r.outs + [] == r.outs;
  }

  // ---------- the queue of requests in front of the machine ----------

  datatype Queued = Queued(state: State, commands: seq<Command>)

  datatype Event = Push(command: Command) | PacerTick(now: int, land: nat)

  // The queued requests in order, up to a TEARDOWN; without one, the frame step follows.
  function Drained(commands: seq<Command>, now: int, land: nat): seq<Action> {
    if commands == [] then [Tick(now, land)]
    else if commands[0].Teardown? then [Do(commands[0])]
    else [Do(commands[0])] + Drained(commands[1..], now, land)
  }

  function Left(commands: seq<Command>): seq<Command> {
    if commands == [] then [] else if commands[0].Teardown? then commands[1..] else Left(commands[1..])
  }

  function Actions(commands: seq<Command>, events: seq<Event>): seq<Action>
    decreases |events|
  {
    if events == [] then []
    else
      match events[0]
      case Push(c) => Actions(commands + [c], events[1..])
      case PacerTick(now, land) => Drained(commands, now, land) + Actions(Left(commands), events[1..])
  }

  function Remaining(commands: seq<Command>, events: seq<Event>): seq<Command>
    decreases |events|
  {
    if events == [] then commands
    else
      match events[0]
      case Push(c) => Remaining(commands + [c], events[1..])
      case PacerTick(_, _) => Remaining(Left(commands), events[1..])
  }

  function Pushed(events: seq<Event>): seq<int> {
    if events == [] then []
    else (if events[0].Push? then [events[0].command.cseq] else []) + Pushed(events[1..])
  }

  function CSeqs(commands: seq<Command>): seq<int> {
    seq(|commands|, i requires 0 <= i < |commands| => commands[i].cseq)
  }

  function Answered(outs: seq<Output>): seq<int> {
    if outs == [] then [] else (if outs[0].Response? then [outs[0].cseq] else []) + Answered(outs[1..])
  }

  function Asked(run: seq<Action>): seq<int> {
    if run == [] then [] else (if run[0].Do? then [run[0].command.cseq] else []) + Asked(run[1..])
  }

  lemma {:induction false} AnsweredAppend(a: seq<Output>, b: seq<Output>)
    ensures Answered(a + b) == Answered(a) + Answered(b)
  {
    if a == [] {
      assert a + b == b;
    } else {
      assert (a + b)[1..] == a[1..] + b && (a + b)[0] == a[0];
      AnsweredAppend(a[1..], b);
      Assoc(if a[0].Response? then [a[0].cseq] else [], Answered(a[1..]), Answered(b));
    }
  }

  lemma {:induction false} AskedAppend(a: seq<Action>, b: seq<Action>)
    ensures Asked(a + b) == Asked(a) + Asked(b)
  {
    if a == [] {
      assert a + b == b;
    } else {
      assert (a + b)[1..] == a[1..] + b && (a + b)[0] == a[0];
      AskedAppend(a[1..], b);
      Assoc(if a[0].Do? then [a[0].command.cseq] else [], Asked(a[1..]), Asked(b));
    }
  }

  lemma OneResponse(s: State, c: Command)
    ensures |Handle(s, c).outs| == 1 && Handle(s, c).outs[0].Response? && Handle(s, c).outs[0].cseq == c.cseq
  {
  }

  lemma PaceOuts(s: State, now: int, land: nat)
    ensures var outs := Pace(s, now, land).outs;
            outs == [] || (|outs| == 1 && outs[0].Video?)
  {
    hide M.Read, NalList, Payloads, MediaNs;
  }

  lemma ActAnswers(s: State, a: Action)
    ensures Answered(Act(s, a).outs) == Asked([a])
  {
    hide Handle, Pace;
    assert [a][1..] == [];
    match a {
      case Do(c) =>
        OneResponse(s, c);
        var o := Handle(s, c).outs;
        assert o[1..] == [];
      case Tick(now, land) =>
        PaceOuts(s, now, land);
        var o := Pace(s, now, land).outs;
        if o != [] {
          assert o[1..] == [];
        }
    }
  }

  lemma {:induction false} ActsAnswer(s: State, run: seq<Action>)
    ensures Answered(Acts(s, run).outs) == Asked(run)
    decreases |run|
  {
    hide Act;
    if run != [] {
      var r := Act(s, run[0]);
      ActAnswers(s, run[0]);
      ActsAnswer(r.state, run[1..]);
      AnsweredAppend(r.outs, Acts(r.state, run[1..]).outs);
      assert [run[0]][1..] == [];
      AskedAppend([run[0]], run[1..]);
      assert [run[0]] + run[1..] == run;
    }
  }

  lemma {:induction false} DrainConserves(commands: seq<Command>, now: int, land: nat)
    ensures Asked(Drained(commands, now, land)) + CSeqs(Left(commands)) == CSeqs(commands)
  {
    if commands == [] {
      assert [Tick(now, land)][1..] == [];
    } else if commands[0].Teardown? {
      assert [Do(commands[0])][1..] == [];
      assert CSeqs(commands) == [commands[0].cseq] + CSeqs(commands[1..]);
    } else {
      var rest := Drained(commands[1..], now, land);
      DrainConserves(commands[1..], now, land);
      assert Drained(commands, now, land)[1..] == rest;
      assert CSeqs(commands) == [commands[0].cseq] + CSeqs(commands[1..]);
      Assoc([commands[0].cseq], Asked(rest), CSeqs(Left(commands[1..])));
    }
  }

  lemma {:induction false} ActionsConserve(commands: seq<Command>, events: seq<Event>)
    ensures Asked(Actions(commands, events)) + CSeqs(Remaining(commands, events)) == CSeqs(commands) + Pushed(events)
    decreases |events|
  {
    if events == [] {
    } else {
      match events[0] {
        case Push(c) =>
          ActionsConserve(commands + [c], events[1..]);
          assert CSeqs(commands + [c]) == CSeqs(commands) + [c.cseq];
          Assoc(CSeqs(commands), [c.cseq], Pushed(events[1..]));
        case PacerTick(now, land) =>
          var left := Left(commands);
          ActionsConserve(left, events[1..]);
          DrainConserves(commands, now, land);
          AskedAppend(Drained(commands, now, land), Actions(left, events[1..]));
          Assoc(Asked(Drained(commands, now, land)), Asked(Actions(left, events[1..])),
                CSeqs(Remaining(left, events[1..])));
          Assoc(Asked(Drained(commands, now, land)), CSeqs(left), Pushed(events[1..]));
          assert Pushed(events) == Pushed(events[1..]);
      }
    }
  }

  /** Every request is answered once, in order, with its own CSeq; those not answered yet are still queued. */
  lemma EveryRequestAnswered(q: Queued, events: seq<Event>)
    ensures Answered(Acts(q.state, Actions(q.commands, events)).outs) + CSeqs(Remaining(q.commands, events))
         == CSeqs(q.commands) + Pushed(events)
  {
    ActsAnswer(q.state, Actions(q.commands, events));
    ActionsConserve(q.commands, events);
  }
}
