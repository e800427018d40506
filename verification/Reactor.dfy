/**
 The threads of the server under every interleaving: the dispatcher accepts, closes, receives and routes;
 the logic thread moves requests to their sessions; the pacer hands out one tick per session; pool workers
 run the ticks. Each label is one atomic step; a label that is not enabled does nothing.
 */
module Reactor {
  import opened Basics

  datatype Request = Request(id: nat, teardown: bool)

  datatype Routed = Routed(fd: nat, request: Request)

  // A session object. parsed: every request received for it; handled: those whose handling has ended.
  // stuck: a tick has ended with an exception, which leaves the in-flight flag set.
  datatype Session = Session(
    queue: seq<Request>, inFlight: bool, parsed: seq<Request>, handled: seq<Request>, stuck: bool)

  // Waiting in epoll, between requests of one read, or between the push and the write to the eventfd.
  datatype Dispatcher = Polling | Routing(fd: nat, rest: seq<Request>) | Signalling(fd: nat, rest: seq<Request>)

  // Blocked on the eventfd, about to pop, or holding a request: looking its session up, pushing it, waking the pacer.
  datatype Logic = Blocked | Draining | Looking(item: Routed) | Pushing(sid: nat, request: Request) | Waking

  // Between wakes, walking over its snapshot, or with a claimed session to submit.
  datatype Pacer = Sleeping | Walking(rest: seq<nat>) | Claimed(sid: nat, rest: seq<nat>)

  // Without a task; draining the requests of a session, handling one, pacing its frame, about to release it.
  datatype Worker =
    Free | Ticking(sid: nat) | Handling(sid: nat, request: Request) | Framing(sid: nat) | Releasing(sid: nat)

  datatype State = State(
    sessions: map<nat, nat>, objects: seq<Session>, dispatcher: Dispatcher, commands: seq<Routed>, logicEfd: nat,
    logic: Logic, pacerEfd: nat, pacer: Pacer, tasks: seq<nat>, workers: seq<Worker>)

  datatype Label =
    | Accept(fd: nat) | Close(fd: nat) | Receive(fd: nat, requests: seq<Request>) | Route
    | Think | WakePacer(snapshot: seq<nat>) | Walk
    | Take(w: nat) | Work(w: nat) | Throw(w: nat)

  function Start(workers: nat): State {
    State(map[], [], Polling, [], 0, Blocked, 0, Sleeping, [], seq(workers, _ => Free))
  }

  // ---------- the dispatcher ----------

  function DoAccept(s: State, fd: nat): State {
    if s.dispatcher.Polling? && fd !in s.sessions then
      s.(sessions := s.sessions[fd := |s.objects|], objects := s.objects + [Session([], false, [], [], false)])
    else s
  }

  function DoClose(s: State, fd: nat): State {
    if s.dispatcher.Polling? then s.(sessions := s.sessions - {fd}) else s
  }

  function DoReceive(s: State, fd: nat, requests: seq<Request>): State {
    if s.dispatcher.Polling? && fd in s.sessions && s.sessions[fd] < |s.objects| then
      var sid := s.sessions[fd];
      s.(dispatcher := Routing(fd, requests),
         objects := s.objects[sid := s.objects[sid].(parsed := s.objects[sid].parsed + requests)])
    else s
  }

  function DoRoute(s: State): State {
    match s.dispatcher
    case Polling => s
    case Routing(fd, rest) =>
      if rest == [] then s.(dispatcher := Polling)
      else s.(commands := s.commands + [Routed(fd, rest[0])], dispatcher := Signalling(fd, rest[1..]))
    case Signalling(fd, rest) => s.(logicEfd := s.logicEfd + 1, dispatcher := Routing(fd, rest))
  }

  // ---------- the logic thread ----------

  function DoThink(s: State): State {
    match s.logic
    case Blocked => if s.logicEfd > 0 then s.(logicEfd := 0, logic := Draining) else s
    case Draining =>
      if s.commands == [] then s.(logic := Blocked)
      else s.(commands := s.commands[1..], logic := Looking(s.commands[0]))
    case Looking(item) =>
      if item.fd in s.sessions then s.(logic := Pushing(s.sessions[item.fd], item.request)) else s.(logic := Draining)
    case Pushing(sid, request) =>
      if sid < |s.objects| then
        s.(objects := s.objects[sid := s.objects[sid].(queue := s.objects[sid].queue + [request])], logic := Waking)
      else s
    case Waking => s.(pacerEfd := s.pacerEfd + 1, logic := Draining)
  }

  // ---------- the pacer ----------

  // On its timer or on its eventfd; the snapshot is some list of session objects.
  function DoWakePacer(s: State, snapshot: seq<nat>): State {
    if s.pacer.Sleeping? && forall i | 0 <= i < |snapshot| :: snapshot[i] < |s.objects| then
      s.(pacer := Walking(snapshot), pacerEfd := 0)
    else s
  }

  function DoWalk(s: State): State {
    match s.pacer
    case Sleeping => s
    case Walking(rest) =>
      if rest == [] then s.(pacer := Sleeping)
      else if rest[0] < |s.objects| && !s.objects[rest[0]].inFlight then
        s.(pacer := Claimed(rest[0], rest[1..]), objects := s.objects[rest[0] := s.objects[rest[0]].(inFlight := true)])
      else s.(pacer := Walking(rest[1..]))
    case Claimed(sid, rest) => s.(tasks := s.tasks + [sid], pacer := Walking(rest))
  }

  // ---------- the pool ----------

  function DoTake(s: State, w: nat): State {
    if w < |s.workers| && s.workers[w].Free? && s.tasks != [] then
      s.(workers := s.workers[w := Ticking(s.tasks[0])], tasks := s.tasks[1..])
    else s
  }

  function DoTick(s: State, w: nat, sid: nat): State
    requires w < |s.workers| && sid < |s.objects|
  {
    var o := s.objects[sid];
    if o.queue == [] then s.(workers := s.workers[w := Framing(sid)])
    else
      s.(workers := s.workers[w := Handling(sid, o.queue[0])],
         objects := s.objects[sid := o.(queue := o.queue[1..])])
  }

  // After a TEARDOWN the tick ends.
  function DoHandle(s: State, w: nat, sid: nat, request: Request): State
    requires w < |s.workers| && sid < |s.objects|
  {
    var o := s.objects[sid];
    s.(workers := s.workers[w := if request.teardown then Releasing(sid) else Ticking(sid)],
       objects := s.objects[sid := o.(handled := o.handled + [request])])
  }

  function DoRelease(s: State, w: nat, sid: nat): State
    requires w < |s.workers| && sid < |s.objects|
  {
    s.(workers := s.workers[w := Free], objects := s.objects[sid := s.objects[sid].(inFlight := false)])
  }

  function DoWork(s: State, w: nat): State {
    if w < |s.workers| then
      match s.workers[w]
      case Free => s
      case Ticking(sid) => if sid < |s.objects| then DoTick(s, w, sid) else s
      case Handling(sid, request) => if sid < |s.objects| then DoHandle(s, w, sid, request) else s
      case Framing(sid) => s.(workers := s.workers[w := Releasing(sid)])
      case Releasing(sid) => if sid < |s.objects| then DoRelease(s, w, sid) else s
    else s
  }

  // The exception ends up in the task's future; the release is skipped.
  function DoThrow(s: State, w: nat): State {
    if w < |s.workers| && (s.workers[w].Handling? || s.workers[w].Framing?) && s.workers[w].sid < |s.objects| then
      var sid := s.workers[w].sid;
      var o := s.objects[sid];
      var handled := if s.workers[w].Handling? then o.handled + [s.workers[w].request] else o.handled;
      s.(workers := s.workers[w := Free], objects := s.objects[sid := o.(handled := handled, stuck := true)])
    else s
  }

  function Step(s: State, l: Label): State {
    match l
    case Accept(fd) => DoAccept(s, fd)
    case Close(fd) => DoClose(s, fd)
    case Receive(fd, requests) => DoReceive(s, fd, requests)
    case Route => DoRoute(s)
    case Think => DoThink(s)
    case WakePacer(snapshot) => DoWakePacer(s, snapshot)
    case Walk => DoWalk(s)
    case Take(w) => DoTake(s, w)
    case Work(w) => DoWork(s, w)
    case Throw(w) => DoThrow(s, w)
  }

  function Run(s: State, labels: seq<Label>): State
    decreases |labels|
  {
    if labels == [] then s else Run(Step(s, labels[0]), labels[1..])
  }

  // ---------- one runner for each session ----------

  predicate On(w: Worker, sid: nat) {
    !w.Free? && w.sid == sid
  }

  function Runners(ws: seq<Worker>, sid: nat): nat {
    if ws == [] then 0 else (if On(ws[0], sid) then 1 else 0) + Runners(ws[1..], sid)
  }

  function Waiting(tasks: seq<nat>, sid: nat): nat {
    if tasks == [] then 0 else (if tasks[0] == sid then 1 else 0) + Waiting(tasks[1..], sid)
  }

  // Ticks of the session that are claimed, queued or running.
  function Ticks(s: State, sid: nat): nat {
    Runners(s.workers, sid) + Waiting(s.tasks, sid) + if s.pacer.Claimed? && s.pacer.sid == sid then 1 else 0
  }

  lemma {:induction false} RunnersUpdate(ws: seq<Worker>, w: nat, x: Worker, sid: nat)
    requires w < |ws|
    ensures Runners(ws[w := x], sid)
         == Runners(ws, sid) - (if On(ws[w], sid) then 1 else 0) + if On(x, sid) then 1 else 0
  {
    if w > 0 {
      assert ws[w := x][1..] == ws[1..][w - 1 := x];
      RunnersUpdate(ws[1..], w - 1, x, sid);
    } else {
      assert ws[w := x][1..] == ws[1..];
    }
  }

  lemma {:induction false} WaitingSnoc(tasks: seq<nat>, t: nat, sid: nat)
    ensures Waiting(tasks + [t], sid) == Waiting(tasks, sid) + if t == sid then 1 else 0
  {
    if tasks == [] {
      assert [] + [t] == [t] && [t][1..] == [];
    } else {
      assert (tasks + [t])[1..] == tasks[1..] + [t];
      WaitingSnoc(tasks[1..], t, sid);
    }
  }

  // Everything named is a session object.
  ghost predicate Known(s: State) {
    && (forall fd | fd in s.sessions :: s.sessions[fd] < |s.objects|)
    && (s.logic.Pushing? ==> s.logic.sid < |s.objects|)
    && (s.pacer.Walking? ==> forall i | 0 <= i < |s.pacer.rest| :: s.pacer.rest[i] < |s.objects|)
    && (s.pacer.Claimed? ==>
          s.pacer.sid < |s.objects| && forall i | 0 <= i < |s.pacer.rest| :: s.pacer.rest[i] < |s.objects|)
    && (forall i | 0 <= i < |s.tasks| :: s.tasks[i] < |s.objects|)
    && (forall w | 0 <= w < |s.workers| :: !s.workers[w].Free? ==> s.workers[w].sid < |s.objects|)
  }

  // At most one tick; the flag is set exactly while there is one, or for ever after an exception.
  ghost predicate SingleFor(s: State, sid: nat)
    requires sid < |s.objects|
  {
    && Ticks(s, sid) <= 1
    && (s.objects[sid].inFlight <==> Ticks(s, sid) == 1 || s.objects[sid].stuck)
    && (s.objects[sid].stuck ==> Ticks(s, sid) == 0)
  }

  ghost predicate Single(s: State) {
    forall sid | 0 <= sid < |s.objects| :: SingleFor(s, sid)
  }

  lemma DispatchKnows(s: State, l: Label)
    requires Known(s) && (l.Accept? || l.Close? || l.Receive? || l.Route? || l.Think?)
    ensures Known(Step(s, l))
  {
  }

  lemma PoolKnows(s: State, l: Label)
    requires Known(s) && (l.WakePacer? || l.Walk? || l.Take? || l.Work? || l.Throw?)
    ensures Known(Step(s, l))
  {
  }

  // The part of the state that ticks depend on is as before.
  ghost predicate SameTicks(s: State, s': State, sid: nat)
    requires sid < |s.objects| && sid < |s'.objects|
  {
    && s'.workers == s.workers && s'.tasks == s.tasks && s'.pacer == s.pacer
    && s'.objects[sid].inFlight == s.objects[sid].inFlight && s'.objects[sid].stuck == s.objects[sid].stuck
  }

  lemma DispatchSameTicks(s: State, l: Label, sid: nat)
    requires (l.Accept? || l.Close? || l.Receive? || l.Route? || l.Think?) && sid < |s.objects|
    ensures |s.objects| <= |Step(s, l).objects| && SameTicks(s, Step(s, l), sid)
  {
  }

  lemma WalkSingle(s: State, sid: nat)
    requires Known(s) && sid < |s.objects| && SingleFor(s, sid)
    ensures |DoWalk(s).objects| == |s.objects| && SingleFor(DoWalk(s), sid)
  {
    hide Runners, Waiting;
    if s.pacer.Claimed? {
      WaitingSnoc(s.tasks, s.pacer.sid, sid);
    }
  }

  lemma TakeSingle(s: State, w: nat, sid: nat)
    requires Known(s) && sid < |s.objects| && SingleFor(s, sid)
    ensures |DoTake(s, w).objects| == |s.objects| && SingleFor(DoTake(s, w), sid)
  {
    hide Runners;
    if w < |s.workers| && s.tasks != [] {
      RunnersUpdate(s.workers, w, Ticking(s.tasks[0]), sid);
    }
  }

  lemma {:induction false} RunnerCounted(ws: seq<Worker>, w: nat, sid: nat)
    requires w < |ws| && On(ws[w], sid)
    ensures Runners(ws, sid) >= 1
  {
    if w > 0 {
      RunnerCounted(ws[1..], w - 1, sid);
    }
  }

  lemma WorkSingle(s: State, w: nat, sid: nat)
    requires Known(s) && sid < |s.objects| && SingleFor(s, sid)
    ensures |DoWork(s, w).objects| == |s.objects| && SingleFor(DoWork(s, w), sid)
  {
    hide Runners, Waiting;
    if w < |s.workers| && !s.workers[w].Free? {
      var on := s.workers[w].sid;
      RunnerCounted(s.workers, w, on);
      RunnersUpdate(s.workers, w, Framing(on), sid);
      RunnersUpdate(s.workers, w, Ticking(on), sid);
      RunnersUpdate(s.workers, w, Releasing(on), sid);
      RunnersUpdate(s.workers, w, Free, sid);
      RunnersUpdate(s.workers, w, DoWork(s, w).workers[w], sid);
    }
  }

  lemma ThrowSingle(s: State, w: nat, sid: nat)
    requires Known(s) && sid < |s.objects| && SingleFor(s, sid)
    ensures |DoThrow(s, w).objects| == |s.objects| && SingleFor(DoThrow(s, w), sid)
  {
    hide Runners, Waiting;
    if w < |s.workers| && !s.workers[w].Free? {
      RunnerCounted(s.workers, w, s.workers[w].sid);
      RunnersUpdate(s.workers, w, Free, sid);
    }
  }

  lemma StepSingle(s: State, l: Label, sid: nat)
    requires Known(s) && sid < |s.objects| && SingleFor(s, sid)
    ensures |s.objects| <= |Step(s, l).objects| && SingleFor(Step(s, l), sid)
  {
    hide Known, DoAccept, DoClose, DoReceive, DoRoute, DoThink, DoWalk, DoTake, DoWork, DoThrow, Runners, Waiting;
    match l {
      case WakePacer(_) =>
      case Walk => WalkSingle(s, sid);
      case Take(w) => TakeSingle(s, w, sid);
      case Work(w) => WorkSingle(s, w, sid);
      case Throw(w) => ThrowSingle(s, w, sid);
      case Accept(_) => DispatchSameTicks(s, l, sid);
      case Close(_) => DispatchSameTicks(s, l, sid);
      case Receive(_, _) => DispatchSameTicks(s, l, sid);
      case Route => DispatchSameTicks(s, l, sid);
      case Think => DispatchSameTicks(s, l, sid);
    }
  }

  lemma {:induction false} NoRunner(ws: seq<Worker>, sid: nat)
    requires forall w | 0 <= w < |ws| :: !ws[w].Free? ==> ws[w].sid < sid
    ensures Runners(ws, sid) == 0
  {
    if ws != [] {
      NoRunner(ws[1..], sid);
    }
  }

  lemma {:induction false} NoTask(tasks: seq<nat>, sid: nat)
    requires forall i | 0 <= i < |tasks| :: tasks[i] < sid
    ensures Waiting(tasks, sid) == 0
  {
    if tasks != [] {
      NoTask(tasks[1..], sid);
    }
  }

  lemma NewSession(s: State, l: Label)
    requires Known(s)
    ensures var s' := Step(s, l);
            |s'.objects| == |s.objects|
            || (l.Accept? && |s'.objects| == |s.objects| + 1 && SingleFor(s', |s.objects|))
  {
    hide Runners, Waiting;
    NoRunner(s.workers, |s.objects|);
    NoTask(s.tasks, |s.objects|);
  }

  lemma StepKeepsSingle(s: State, l: Label)
    requires Known(s) && Single(s)
    ensures Single(Step(s, l))
  {
    hide Known, Step, SingleFor;
    var s' := Step(s, l);
    NewSession(s, l);
    forall sid | 0 <= sid < |s'.objects| ensures SingleFor(s', sid) {
      if sid < |s.objects| {
        StepSingle(s, l, sid);
      }
    }
  }

  lemma StepKnows(s: State, l: Label)
    requires Known(s)
    ensures Known(Step(s, l))
  {
    hide Known, Step;
    if l.Accept? || l.Close? || l.Receive? || l.Route? || l.Think? {
      DispatchKnows(s, l);
    } else {
      PoolKnows(s, l);
    }
  }

  lemma StartKnows(workers: nat)
    ensures Known(Start(workers)) && Single(Start(workers))
  {
  }

  lemma {:induction false} RunIsSingle(s: State, labels: seq<Label>)
    requires Known(s) && Single(s)
    ensures Known(Run(s, labels)) && Single(Run(s, labels))
    decreases |labels|
  {
    hide Known, Single, Step;
    if labels != [] {
      StepKnows(s, labels[0]);
      StepKeepsSingle(s, labels[0]);
      RunIsSingle(Step(s, labels[0]), labels[1..]);
    }
  }

  /**
   In every interleaving a session has at most one tick claimed, queued or running; its flag is set exactly
   while it has one, unless a tick has thrown.
   */
  lemma SingleRunner(workers: nat, labels: seq<Label>, sid: nat)
    ensures var s := Run(Start(workers), labels);
            sid < |s.objects| ==> Ticks(s, sid) <= 1
                                  && (!s.objects[sid].stuck ==> (s.objects[sid].inFlight <==> Ticks(s, sid) == 1))
                                  && (s.objects[sid].stuck ==> s.objects[sid].inFlight && Ticks(s, sid) == 0)
  {
    hide Run, Start, Known, Ticks;
    StartKnows(workers);
    RunIsSingle(Start(workers), labels);
    var s := Run(Start(workers), labels);
    if sid < |s.objects| {
      assert SingleFor(s, sid);
    }
  }

  lemma StepStaysStuck(s: State, l: Label, sid: nat)
    requires Known(s) && Single(s) && sid < |s.objects| && s.objects[sid].stuck
    ensures var s' := Step(s, l); sid < |s'.objects| && s'.objects[sid].stuck && Ticks(s', sid) == 0
  {
    hide Step, Known, Ticks;
    StepSingle(s, l, sid);
    StuckKept(s, l, sid);
  }

  lemma StuckKept(s: State, l: Label, sid: nat)
    requires sid < |s.objects| && s.objects[sid].stuck
    ensures var s' := Step(s, l); sid < |s'.objects| && s'.objects[sid].stuck
  {
  }

  /** After an exception the session is never ticked again: its requests stay unanswered. */
  lemma {:induction false} ThrowStopsTheSession(s: State, labels: seq<Label>, sid: nat)
    requires Known(s) && Single(s) && sid < |s.objects| && s.objects[sid].stuck
    ensures var s' := Run(s, labels);
            sid < |s'.objects| && Ticks(s', sid) == 0 && s'.objects[sid].handled == s.objects[sid].handled
    decreases |labels|
  {
    hide Step, Known, Single, Ticks;
    StuckHasNoTick(s, sid);
    if labels != [] {
      StepKnows(s, labels[0]);
      StepKeepsSingle(s, labels[0]);
      StepStaysStuck(s, labels[0], sid);
      NotHandled(s, labels[0], sid);
      ThrowStopsTheSession(Step(s, labels[0]), labels[1..], sid);
    }
  }

  lemma StuckHasNoTick(s: State, sid: nat)
    requires Single(s) && sid < |s.objects| && s.objects[sid].stuck
    ensures Ticks(s, sid) == 0
  {
    hide Ticks;
    assert SingleFor(s, sid);
  }

  lemma NotHandled(s: State, l: Label, sid: nat)
    requires sid < |s.objects| && Ticks(s, sid) == 0
    ensures var s' := Step(s, l); sid < |s'.objects| && s'.objects[sid].handled == s.objects[sid].handled
  {
    hide Runners, Waiting;
    if (l.Work? || l.Throw?) && l.w < |s.workers| && On(s.workers[l.w], sid) {
      RunnerCounted(s.workers, l.w, sid);
    }
  }

  // ---------- no request is stranded in front of the logic thread ----------

  // Somebody will look at the queue, or has still to say that there is something in it.
  ghost predicate LogicWillLook(s: State) {
    s.logicEfd > 0 || s.dispatcher.Signalling? || !s.logic.Blocked?
  }

  lemma StepWillLook(s: State, l: Label)
    requires s.commands != [] ==> LogicWillLook(s)
    ensures Step(s, l).commands != [] ==> LogicWillLook(Step(s, l))
  {
  }

  lemma {:induction false} RunWillLook(s: State, labels: seq<Label>)
    requires s.commands != [] ==> LogicWillLook(s)
    ensures Run(s, labels).commands != [] ==> LogicWillLook(Run(s, labels))
    decreases |labels|
  {
    hide Step;
    if labels != [] {
      StepWillLook(s, labels[0]);
      RunWillLook(Step(s, labels[0]), labels[1..]);
    }
  }

  /** A request in the global queue is never left behind with the logic thread blocked and nothing to wake it. */
  lemma NoRequestStranded(workers: nat, labels: seq<Label>)
    ensures var s := Run(Start(workers), labels);
            s.commands != [] ==> s.logicEfd > 0 || s.dispatcher.Signalling? || !s.logic.Blocked?
  {
    RunWillLook(Start(workers), labels);
  }

  // ---------- a run in which a tick throws ----------

  lemma {:induction false} RunSnoc(s: State, labels: seq<Label>, l: Label)
    ensures Run(s, labels + [l]) == Step(Run(s, labels), l)
    decreases |labels|
  {
    hide Step;
    if labels == [] {
      assert [] + [l] == [l] && [l][1..] == [];
    } else {
      assert (labels + [l])[1..] == labels[1..] + [l];
      RunSnoc(Step(s, labels[0]), labels[1..], l);
    }
  }

  lemma Extend(workers: nat, labels: seq<Label>, s: State, l: Label) returns (labels': seq<Label>, s': State)
    requires Run(Start(workers), labels) == s
    ensures Run(Start(workers), labels') == s' == Step(s, l)
  {
    RunSnoc(Start(workers), labels, l);
    labels', s' := labels + [l], Step(s, l);
  }

  lemma NothingRun(workers: nat)
    ensures Run(Start(workers), []) == Start(workers)
  {
  }

  // A session whose tick has thrown while pacing its frame.
  function Thrown(fd: nat): State {
    Start(1).(sessions := map[fd := 0], objects := [Session([], true, [], [], true)])
  }

  // A session whose tick waits for a worker.
  function Claim(fd: nat): State {
    Start(1).(sessions := map[fd := 0], objects := [Session([], true, [], [], false)], tasks := [0])
  }

  lemma TickClaimed(fd: nat) returns (labels: seq<Label>, s: State)
    ensures Run(Start(1), labels) == s == Claim(fd)
  {
    hide Run, DoWork, DoThrow, DoTake, DoThink, DoRoute, DoReceive, DoClose;
    labels, s := [], Start(1);
    NothingRun(1);
    labels, s := Extend(1, labels, s, Accept(fd));
    assert s.objects == [Session([], false, [], [], false)];
    labels, s := Extend(1, labels, s, WakePacer([0]));
    labels, s := Extend(1, labels, s, Walk);
    assert [0][1..] == [];
    labels, s := Extend(1, labels, s, Walk);
    labels, s := Extend(1, labels, s, Walk);
  }

  lemma TickThrows(fd: nat) returns (labels: seq<Label>, s: State)
    ensures Run(Start(1), labels) == s == Thrown(fd)
  {
    hide Run, DoAccept, DoWalk, DoWakePacer, DoThink, DoRoute, DoReceive, DoClose;
    labels, s := TickClaimed(fd);
    assert s.workers == [Free];
    labels, s := Extend(1, labels, s, Take(0));
    labels, s := Extend(1, labels, s, Work(0));
    labels, s := Extend(1, labels, s, Throw(0));
    assert s.objects == Thrown(fd).objects && s.workers == [Free] && s.tasks == [];
  }

  lemma RequestRouted(fd: nat, r: Request, labels: seq<Label>, s: State) returns (labels': seq<Label>, s': State)
    requires Run(Start(1), labels) == s == Thrown(fd)
    ensures Run(Start(1), labels') == s' && |s'.objects| == 1
    ensures s'.objects[0] == Session([r], true, [r], [], true)
  {
    hide Run;
    labels', s' := Extend(1, labels, s, Receive(fd, [r]));
    assert [] + [r] == [r] && [r][1..] == [];
    labels', s' := Extend(1, labels', s', Route);
    labels', s' := Extend(1, labels', s', Route);
    labels', s' := Extend(1, labels', s', Think);
    labels', s' := Extend(1, labels', s', Think);
    labels', s' := Extend(1, labels', s', Think);
    labels', s' := Extend(1, labels', s', Think);
  }

  /**
   From the start of the server: a tick throws, and a request received after that is queued for the session
   and stays unhandled in every run that follows.
   */
  lemma RequestAfterThrow(fd: nat, r: Request) returns (labels: seq<Label>)
    ensures var s := Run(Start(1), labels);
            && |s.objects| == 1 && s.objects[0] == Session([r], true, [r], [], true)
            && forall more: seq<Label> :: Unhandled(Run(s, more))
  {
    hide Run, Known, Single, Thrown;
    var s;
    labels, s := TickThrows(fd);
    labels, s := RequestRouted(fd, r, labels, s);
    StartKnows(1);
    RunIsSingle(Start(1), labels);
    forall more: seq<Label> ensures Unhandled(Run(s, more)) {
      ThrowStopsTheSession(s, more, 0);
    }
  }

  predicate Unhandled(s: State) {
    |s.objects| > 0 && s.objects[0].handled == []
  }
}
