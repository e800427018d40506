/** The session object: its methods do in place what `Session` describes on values. */
module RtspSession {
  import opened Basics
  import opened VideoStream
  import opened Session
  import opened SessionStream
  import M = MediaSource
  import Q = NonBlockingQueue

  class RTSPSession {
    var mode: Mode
    var media: M.Demuxer?
    var describeDone: bool
    var useTcp: bool
    var channel: int
    var transportReady: bool
    var wallStart: int
    var pauseStart: int
    var firstFrame: bool
    var loopOffset: u32
    var pending: Option<Frame>
    var lastRtp: u32
    var lastDur: Option<u32>
    var waitIdr: bool
    var keyNpt: real
    var nptEnd: real
    var sequence: u16
    const ssrc: u32
    var closing: bool
    var outbox: seq<Output>
    var frames: seq<seq<byte>>
    const commands: Q.NonBlockingQueue<Command>

    ghost function Model(): State
      reads this, media
    {
      State(mode, describeDone, transportReady, useTcp, channel, ssrc,
            if media == null then None else Some(media.Model()), wallStart, pauseStart, firstFrame, loopOffset,
            pending, lastRtp, lastDur, waitIdr, keyNpt, nptEnd, sequence, closing)
    }

    constructor (ssrc: u32)
      ensures Model() == Fresh(ssrc) && outbox == [] && frames == [] && commands.queue == []
      ensures media == null && fresh(commands)
    {
      this.ssrc := ssrc;
      mode, media, describeDone, useTcp, channel, transportReady := Init, null, false, false, 0, false;
      wallStart, pauseStart, firstFrame, loopOffset, pending := 0, 0, true, 0, None;
      lastRtp, lastDur, waitIdr, keyNpt, nptEnd, sequence := 0, None, false, 0.0, -1.0, 0;
      closing, outbox, frames := false, [], [];
      commands := new Q.NonBlockingQueue<Command>();
    }

    method PushCommand(c: Command)
      modifies commands
      ensures commands.queue == old(commands.queue) + [c]
    {
      commands.Push(c);
    }

    method SendResponse(cseq: int, status: int, info: Option<RtpInfo>)
      modifies this`outbox
      ensures outbox == old(outbox) + [Response(cseq, status, info)]
    {
      outbox := outbox + [Response(cseq, status, info)];
    }

    method HandleDescribe(cseq: int, opening: Opening)
      modifies this
      ensures Model() == DoDescribe(old(Model()), cseq, opening).state
      ensures outbox == old(outbox) + DoDescribe(old(Model()), cseq, opening).outs
      ensures (media == null || fresh(media)) && frames == old(frames)
    {
      media := null;
      match opening {
        case Refused(status) =>
          SendResponse(cseq, status, None);
        case Opened(source) =>
          media := new M.Demuxer(M.AtStart(source));
          describeDone := true;
          SendResponse(cseq, 200, None);
      }
    }

    method HandleSetup(cseq: int, audio: bool, transport: Transport)
      modifies this
      ensures Model() == DoSetup(old(Model()), cseq, audio, transport).state
      ensures outbox == old(outbox) + DoSetup(old(Model()), cseq, audio, transport).outs
      ensures media == old(media) && frames == old(frames)
    {
      if !describeDone || media == null {
        SendResponse(cseq, 455, None);
        return;
      }
      match transport {
        case Missing =>
          SendResponse(cseq, 400, None);
        case Tcp(c) =>
          Prepare(audio, true, if c.Some? then c.value else channel);
          SendResponse(cseq, 200, None);
        case Udp(port, bound) =>
          useTcp := false;
          if port.None? {
            SendResponse(cseq, 461, None);
          } else if !bound {
            SendResponse(cseq, 500, None);
          } else {
            Prepare(audio, false, channel);
            SendResponse(cseq, 200, None);
          }
      }
    }

    method Prepare(audio: bool, tcp: bool, c: int)
      modifies this`useTcp, this`channel, this`transportReady, this`mode
      ensures Model() == Prepared(old(Model()), audio, tcp, c)
    {
      useTcp := tcp;
      if !audio {
        channel := c;
        transportReady := true;
        mode := Ready;
      }
    }

    method SeekAndResetTo(position: real, probe: M.Probe, adjust: bool)
      modifies this`firstFrame, this`pending, media
      ensures Model() == SeekAndReset(old(Model()), position, probe, adjust)
    {
      if media == null {
        return;
      }
      media.SeekSeconds(position, probe);
      if adjust && lastRtp != 0 {
        var at := media.rtpOffset;
        if lastRtp > at {
          media.AdjustOffset(lastRtp - at);
        }
      }
      firstFrame := true;
      pending := None;
    }

    method AddPauseToClock(now: int)
      modifies this`wallStart, this`pauseStart
      ensures Model() == Resume(old(Model()), now)
    {
      if pauseStart != 0 {
        if !firstFrame {
          wallStart := wallStart + (now - pauseStart);
        }
        pauseStart := 0;
      }
    }

    method BeginPlayback(range: Option<real>, end: Option<real>, probe: M.Probe)
      modifies this, media
      ensures Model() == StartAfresh(old(Model()), range, end, probe)
      ensures media == old(media) && outbox == old(outbox) && frames == old(frames)
    {
      hide SeekAndReset, Cleared;
      SeekAndResetTo(if range.Some? then range.value else 0.0, probe, false);
      ClearPacing(end);
    }

    method ClearPacing(end: Option<real>)
      modifies this
      ensures Model() == Cleared(old(Model()), end)
      ensures media == old(media) && outbox == old(outbox) && frames == old(frames)
    {
      hide M.Demuxer.Model, Forgotten;
      ForgetFrames();
      waitIdr, keyNpt := true, 0.0;
      nptEnd, pauseStart := if end.Some? then end.value else -1.0, 0;
    }

    method ForgetFrames()
      modifies this`loopOffset, this`lastRtp, this`lastDur
      ensures Model() == Forgotten(old(Model()))
    {
      hide M.Demuxer.Model;
      loopOffset, lastRtp, lastDur := 0, 0, None;
    }

    method AnnounceStart(cseq: int)
      modifies this, media
      ensures var s := old(Model());
              if s.media.None? then
                Model() == s.(mode := Playing)
                && outbox == old(outbox) + [Response(cseq, 200, Some(RtpInfo(s.sequence, 0)))]
              else
                var p := M.Peek(s.media.value);
                Model() == s.(mode := Playing, media := Some(p.source))
                && outbox == old(outbox) + [Response(cseq, 200, Some(RtpInfo(s.sequence, p.timestamp)))]
      ensures media == old(media) && frames == old(frames)
    {
      var rtptime: u32 := 0;
      if media != null {
        rtptime := media.PeekTimestamp();
      }
      mode := Playing;
      SendResponse(cseq, 200, Some(RtpInfo(sequence, rtptime)));
    }

    method HandlePlay(cseq: int, clock: int, scale: bool, range: Option<real>, end: Option<real>, probe: M.Probe)
      modifies this, media
      ensures Model() == DoPlay(old(Model()), cseq, clock, scale, range, end, probe).state
      ensures outbox == old(outbox) + DoPlay(old(Model()), cseq, clock, scale, range, end, probe).outs
      ensures media == old(media) && frames == old(frames)
    {
      hide SeekAndReset, StartAfresh, Resume, M.Peek, M.Demuxer.Model;
      if mode == Init {
        SendResponse(cseq, 455, None);
        return;
      }
      if mode != Paused && !scale {
        BeginPlayback(range, end, probe);
        AnnounceStart(cseq);
        return;
      }
      if mode == Paused {
        AddPauseToClock(clock);
      } else {
        SeekAndResetTo(keyNpt, probe, true);
      }
      AcceptPlay(cseq);
    }

    method AcceptPlay(cseq: int)
      modifies this`mode, this`outbox
      ensures Model() == old(Model()).(mode := Playing)
      ensures outbox == old(outbox) + [Response(cseq, 200, None)]
    {
      mode := Playing;
      SendResponse(cseq, 200, None);
    }

    method HandlePause(cseq: int, clock: int)
      modifies this
      ensures Model() == DoPause(old(Model()), cseq, clock).state
      ensures outbox == old(outbox) + DoPause(old(Model()), cseq, clock).outs
      ensures media == old(media) && frames == old(frames)
    {
      if mode != Playing {
        SendResponse(cseq, 455, None);
        return;
      }
      pauseStart := clock;
      mode := Paused;
      SendResponse(cseq, 200, None);
    }

    method HandleRequest(c: Command)
      modifies this, media
      ensures Model() == Handle(old(Model()), c).state
      ensures outbox == old(outbox) + Handle(old(Model()), c).outs
      ensures (media == old(media) || media == null || fresh(media)) && frames == old(frames)
    {
      hide DoDescribe, DoSetup, DoPlay, DoPause;
      match c {
        case Options(cseq) => SendResponse(cseq, 200, None);
        case Describe(cseq, opening) => HandleDescribe(cseq, opening);
        case Setup(cseq, audio, transport) => HandleSetup(cseq, audio, transport);
        case Play(cseq, clock, scale, range, end, probe) => HandlePlay(cseq, clock, scale, range, end, probe);
        case Pause(cseq, clock) => HandlePause(cseq, clock);
        case Teardown(cseq) =>
          mode := Init;
          SendResponse(cseq, 200, None);
          closing := true;
        case Unknown(cseq) => SendResponse(cseq, 501, None);
      }
    }

    // ---------- the tick ----------

    // Steps 6 to 8 of the tick.
    method EmitPending(now: int)
      requires media != null && pending.Some?
      modifies this
      ensures Model() == Emit(old(Model()), old(pending).value, now).state
      ensures outbox == old(outbox) + Emit(old(Model()), old(pending).value, now).outs
      ensures frames == old(frames) + VideoFrames(Emit(old(Model()), old(pending).value, now).outs)
      ensures media == old(media)
    {
      hide VideoFrames, FramePackets, Wire, NalList, Payloads, MediaNs, Send;
      var f := pending.value;
      if firstFrame {
        wallStart := now;
        loopOffset := f.timestamp;
        firstFrame := false;
      }
      var due := wallStart + MediaNs((f.timestamp - loopOffset) % TWO_32);
      if now < due {
        NoVideoFrames();
        return;
      }
      SendPending();
    }

    method SendPending()
      requires media != null && pending.Some?
      modifies this
      ensures Model() == Send(old(Model()), old(pending).value).state
      ensures outbox == old(outbox) + Send(old(Model()), old(pending).value).outs
      ensures frames == old(frames) + VideoFrames(Send(old(Model()), old(pending).value).outs)
      ensures media == old(media)
    {
      hide VideoFrames, FramePackets, Wire, NalList, Payloads, Tracked;
      var f := pending.value;
      var st := Stream(media.sps, media.pps, PAYLOAD_TYPE, ssrc, channel);
      var out := Video(st, f, sequence, useTcp);
      VideoFramesOne(out);
      var packets, next := SendFrame(st, f, sequence);
      outbox := outbox + [out];
      frames := frames + if useTcp then packets else [];
      Track(f);
      sequence := next;
    }

    method Track(f: Frame)
      requires media != null
      modifies this`keyNpt, this`lastDur, this`lastRtp, this`pending
      ensures Model() == Tracked(old(Model()), f)
    {
      if f.key {
        keyNpt := (media.rtpOffset + (f.timestamp - loopOffset) % TWO_32) as real / 90000.0;
      }
      if lastRtp != 0 && f.timestamp > lastRtp {
        lastDur := Some(f.timestamp - lastRtp);
      }
      lastRtp := f.timestamp;
      pending := None;
    }

    static lemma NoVideoFrames()
      ensures VideoFrames([]) == []
    {
    }

    method Rewind(land: nat)
      requires media != null
      modifies this, media
      ensures Model() == Rewound(old(Model()), land)
      ensures media == old(media) && outbox == old(outbox) && frames == old(frames)
    {
      hide M.Demuxer.Model;
      media.SeekTo((lastRtp + if lastDur.Some? then lastDur.value else 0) % TWO_32, land);
      firstFrame, loopOffset, lastRtp, waitIdr, nptEnd := true, 0, 0, false, -1.0;
    }

    // Step 5: true when a frame is ready to be timed.
    method FetchFrame(now: int, land: nat) returns (ready: bool)
      requires media != null && pending.None?
      modifies this, media
      ensures media == old(media) && outbox == old(outbox) && frames == old(frames)
      ensures ready ==> pending.Some?
      ensures (if ready then Emit(Model(), pending.value, now) else Result(Model(), []))
           == Fetch(old(Model()), now, land)
    {
      hide M.Read, Emit, Rewound, M.Demuxer.Model;
      ghost var source := media.Model();
      var r := media.ReadPacket();
      if r.None? {
        M.ReadNothing(source);
        Rewind(land);
        return false;
      }
      var f := r.value;
      if f.nals == [] || ((firstFrame || waitIdr) && !f.key) {
        return false;
      }
      waitIdr := false;
      if nptEnd > 0.0 && f.timestamp as real / 90000.0 >= nptEnd {
        mode := Paused;
        return false;
      }
      HeldOrRead(Model(), Some(f), f, now);
      pending := Some(f);
      ready := true;
    }

    // What a request or a tick did: the new state, and what it queued.
    ghost predicate Became(s: State, sent: seq<Output>, wire: seq<seq<byte>>, r: Result)
      reads this, media
    {
      Model() == r.state && outbox == sent + r.outs && frames == wire + VideoFrames(r.outs)
    }

    method KeepTime(now: int)
      requires !Active(Model())
      modifies this`pauseStart, this`pending
      ensures Model() == Idle(old(Model()), now)
    {
      if mode == Paused && pauseStart == 0 {
        pauseStart := now;
      }
      if mode != Paused {
        pending := None;
      }
    }

    // Steps 2 to 8 of the tick.
    method PaceFrame(now: int, land: nat)
      modifies this, media
      ensures media == old(media)
      ensures Became(old(Model()), old(outbox), old(frames), Pace(old(Model()), now, land))
    {
      hide VideoFrames, Fetch, Emit, Resume, Idle, M.Demuxer.Model;
      NoVideoFrames();
      if mode != Playing || media == null || !transportReady {
        KeepTime(now);
        return;
      }
      AddPauseToClock(now);
      if firstFrame {
        pending := None;
      }
      if waitIdr {
        if pending.Some? && !pending.value.key {
          pending := None;
          return;
        }
        if pending.Some? && pending.value.key {
          waitIdr := false;
        }
      }
      if pending.None? {
        var ready := FetchFrame(now, land);
        if !ready {
          return;
        }
      }
      EmitPending(now);
    }

    /** One tick: the queued requests in order, up to a TEARDOWN; without one, at most one frame. */
    method PacerTick(now: int, land: nat)
      modifies this, media, commands
      ensures Became(old(Model()), old(outbox), old(frames),
                     Acts(old(Model()), Drained(old(commands.queue), now, land)))
      ensures commands.queue == Left(old(commands.queue))
    {
      hide Acts, VideoFrames, Pace, Handle, M.Demuxer.Model;
      assert Acts(Model(), []) == Result(Model(), []) by { NoActs(Model()); }
      ghost var s0, sent, wire := Model(), outbox, frames;
      ghost var done: seq<Action> := [];
      NoVideoFrames();
      while true
        invariant media == null || media == old(media) || fresh(media)
        invariant done + Drained(commands.queue, now, land) == Drained(old(commands.queue), now, land)
        invariant Left(commands.queue) == Left(old(commands.queue))
        invariant Became(s0, sent, wire, Acts(s0, done))
        decreases |commands.queue|
      {
        ghost var before := commands.queue;
        var c := commands.TryPop();
        if c.None? {
          break;
        }
        HandleRequest(c.value);
        OneMore(s0, done, Do(c.value), sent, wire);
        NoFramesFromRequests(Acts(s0, done).state, c.value);
        ghost var rest := if c.value.Teardown? then [] else Drained(commands.queue, now, land);
        assert Drained(before, now, land) == [Do(c.value)] + rest;
        Assoc(done, [Do(c.value)], rest);
        done := done + [Do(c.value)];
        if c.value.Teardown? {
          assert done + [] == done;
          return;
        }
      }
      OneMore(s0, done, Tick(now, land), sent, wire);
      PaceFrame(now, land);
    }

    static lemma NoActs(s: State)
      ensures Acts(s, []) == Result(s, [])
    {
    }

    // Appending one action to a run appends what it queued.
    static lemma OneMore(s: State, done: seq<Action>, a: Action, sent: seq<Output>, wire: seq<seq<byte>>)
      ensures var r, q := Acts(s, done), Acts(s, done + [a]);
              var more := Act(r.state, a);
              && q.state == more.state && sent + q.outs == sent + r.outs + more.outs
              && wire + VideoFrames(q.outs) == wire + VideoFrames(r.outs) + VideoFrames(more.outs)
    {
      hide Act, Acts, VideoFrames;
      var r := Acts(s, done);
      var more := Act(r.state, a);
      ActsAppend(s, done, [a]);
      OneAct(r.state, a);
      VideoFramesAppend(r.outs, more.outs);
      Assoc(sent, r.outs, more.outs);
      Assoc(wire, VideoFrames(r.outs), VideoFrames(more.outs));
    }

    static lemma NoFramesFromRequests(s: State, c: Command)
      ensures VideoFrames(Handle(s, c).outs) == []
    {
      hide Handle;
      OneResponse(s, c);
      var outs := Handle(s, c).outs;
      VideoFramesOne(outs[0]);
      assert outs == [outs[0]];
    }
  }
}
