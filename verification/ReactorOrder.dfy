/** Requests of one connection are handled in the order they were received, in every interleaving. */
module ReactorOrder {
  import opened Basics
  import opened Reactor

  // ---------- where the requests of a session are ----------

  function HeldBy(ws: seq<Worker>, sid: nat): seq<Request> {
    if ws == [] then []
    else (if ws[0].Handling? && ws[0].sid == sid then [ws[0].request] else []) + HeldBy(ws[1..], sid)
  }

  function For(commands: seq<Routed>, fd: nat): seq<Request> {
    if commands == [] then [] else (if commands[0].fd == fd then [commands[0].request] else []) + For(commands[1..], fd)
  }

  function InHand(logic: Logic, sid: nat): seq<Request> {
    if logic.Pushing? && logic.sid == sid then [logic.request] else []
  }

  function LookedUp(logic: Logic, fd: nat): seq<Request> {
    if logic.Looking? && logic.item.fd == fd then [logic.item.request] else []
  }

  function Unrouted(d: Dispatcher, fd: nat): seq<Request> {
    if !d.Polling? && d.fd == fd then d.rest else []
  }

  // Handled, in a worker's hands, in the session's queue, in the hands of the logic thread.
  function Arrived(s: State, sid: nat): seq<Request>
    requires sid < |s.objects|
  {
    s.objects[sid].handled + HeldBy(s.workers, sid) + s.objects[sid].queue + InHand(s.logic, sid)
  }

  // Being looked up, in the global queue, not routed yet: known only by the connection.
  function OnTheWay(s: State, fd: nat): seq<Request> {
    LookedUp(s.logic, fd) + For(s.commands, fd) + Unrouted(s.dispatcher, fd)
  }

  ghost predicate Ordered(s: State, fd: nat, sid: nat)
    requires sid < |s.objects|
  {
    Arrived(s, sid) + OnTheWay(s, fd) == s.objects[sid].parsed
  }

  // Different connections have different session objects.
  ghost predicate Distinct(s: State) {
    forall fd, other | fd in s.sessions && other in s.sessions && fd != other :: s.sessions[fd] != s.sessions[other]
  }

  // What has arrived was received over its own connection, and while that is open the rest follows in order.
  ghost predicate Own(s: State, sid: nat)
    requires sid < |s.objects|
  {
    && Arrived(s, sid) <= s.objects[sid].parsed
    && (forall fd | fd in s.sessions && s.sessions[fd] == sid :: Ordered(s, fd, sid))
  }

  // ---------- sequence steps ----------

  lemma {:induction false} ForSnoc(commands: seq<Routed>, x: Routed, fd: nat)
    ensures For(commands + [x], fd) == For(commands, fd) + if x.fd == fd then [x.request] else []
  {
    if commands == [] {
      assert [] + [x] == [x] && [x][1..] == [];
    } else {
      assert (commands + [x])[1..] == commands[1..] + [x] && (commands + [x])[0] == commands[0];
      ForSnoc(commands[1..], x, fd);
      Assoc(if commands[0].fd == fd then [commands[0].request] else [], For(commands[1..], fd),
            if x.fd == fd then [x.request] else []);
    }
  }

  lemma {:induction false} NobodyHolds(ws: seq<Worker>, sid: nat)
    requires Runners(ws, sid) == 0
    ensures HeldBy(ws, sid) == []
  {
    if ws != [] {
      NobodyHolds(ws[1..], sid);
    }
  }

  // With one runner, what is held is what that runner holds.
  lemma {:induction false} OneHolds(ws: seq<Worker>, w: nat, sid: nat)
    requires w < |ws| && On(ws[w], sid) && Runners(ws, sid) == 1
    ensures HeldBy(ws, sid) == if ws[w].Handling? then [ws[w].request] else []
  {
    if w == 0 {
      NobodyHolds(ws[1..], sid);
    } else {
      if On(ws[0], sid) {
        RunnerCounted(ws[1..], w - 1, sid);
      }
      OneHolds(ws[1..], w - 1, sid);
    }
  }

  // A change of a worker that is, and stays, away from the session.
  lemma {:induction false} OthersHold(ws: seq<Worker>, w: nat, x: Worker, sid: nat)
    requires w < |ws| && !(ws[w].Handling? && ws[w].sid == sid) && !(x.Handling? && x.sid == sid)
    ensures HeldBy(ws[w := x], sid) == HeldBy(ws, sid)
  {
    if w > 0 {
      assert ws[w := x][1..] == ws[1..][w - 1 := x];
      OthersHold(ws[1..], w - 1, x, sid);
    } else {
      assert ws[w := x][1..] == ws[1..];
    }
  }

  // ---------- workers ----------

  // What the workers and the queue of a session amount to.
  function Line(ws: seq<Worker>, o: Session, sid: nat): seq<Request> {
    o.handled + HeldBy(ws, sid) + o.queue
  }

  // A change that moves a request along, or none, and receives none.
  ghost predicate SameLine(s: State, s': State, sid: nat)
    requires sid < |s.objects| && sid < |s'.objects|
  {
    && Line(s'.workers, s'.objects[sid], sid) == Line(s.workers, s.objects[sid], sid)
    && s'.objects[sid].parsed == s.objects[sid].parsed
  }

  lemma OwnChange(ws: seq<Worker>, w: nat, x: Worker, sid: nat)
    requires w < |ws| && On(ws[w], sid) && Runners(ws, sid) == 1 && (x.Free? || x.sid == sid)
    ensures HeldBy(ws, sid) == if ws[w].Handling? then [ws[w].request] else []
    ensures HeldBy(ws[w := x], sid) == if x.Handling? then [x.request] else []
  {
    OneHolds(ws, w, sid);
    RunnersUpdate(ws, w, x, sid);
    if x.Free? {
      NobodyHolds(ws[w := x], sid);
    } else {
      OneHolds(ws[w := x], w, sid);
    }
  }

  lemma AtMostOne(s: State, w: nat)
    requires Known(s) && Single(s) && w < |s.workers| && !s.workers[w].Free?
    ensures s.workers[w].sid < |s.objects| && Runners(s.workers, s.workers[w].sid) == 1
  {
    hide Runners, Waiting;
    var sid := s.workers[w].sid;
    assert SingleFor(s, sid);
    RunnerCounted(s.workers, w, sid);
  }

  lemma WorkOwnLine(s: State, w: nat)
    requires Known(s) && Single(s) && w < |s.workers| && !s.workers[w].Free?
    ensures var sid := s.workers[w].sid;
            sid < |s.objects| && |DoWork(s, w).objects| == |s.objects| && SameLine(s, DoWork(s, w), sid)
  {
    hide HeldBy, Runners, Single;
    var sid := s.workers[w].sid;
    AtMostOne(s, w);
    var o := s.objects[sid];
    OwnChange(s.workers, w, DoWork(s, w).workers[w], sid);
    match s.workers[w] {
      case Ticking(_) =>
        if o.queue != [] {
          TakeFront(o.handled, o.queue);
        }
      case Handling(_, request) => MoveOver(o.handled, request, o.queue);
      case Framing(_) =>
      case Releasing(_) =>
    }
  }

  lemma TakeFront(handled: seq<Request>, queue: seq<Request>)
    requires queue != []
    ensures handled + [queue[0]] + queue[1..] == handled + [] + queue
  {
  }

  lemma MoveOver(handled: seq<Request>, x: Request, queue: seq<Request>)
    ensures (handled + [x]) + [] + queue == handled + [x] + queue
  {
  }

  lemma ThrowOwnLine(s: State, w: nat)
    requires Known(s) && Single(s) && w < |s.workers| && !s.workers[w].Free?
    ensures var sid := s.workers[w].sid;
            sid < |s.objects| && |DoThrow(s, w).objects| == |s.objects| && SameLine(s, DoThrow(s, w), sid)
  {
    hide HeldBy, Runners, Single;
    var sid := s.workers[w].sid;
    AtMostOne(s, w);
    var o := s.objects[sid];
    OwnChange(s.workers, w, Free, sid);
    if s.workers[w].Handling? {
      MoveOver(o.handled, s.workers[w].request, o.queue);
    }
  }

  lemma WorkOtherLine(s: State, l: Label, sid: nat)
    requires Known(s) && (l.Take? || l.Work? || l.Throw?) && sid < |s.objects|
    requires l.w < |s.workers| ==> !On(s.workers[l.w], sid)
    ensures |Step(s, l).objects| == |s.objects| && SameLine(s, Step(s, l), sid)
  {
    hide HeldBy, Runners;
    if l.w < |s.workers| {
      OthersHold(s.workers, l.w, Step(s, l).workers[l.w], sid);
    }
  }

  lemma PoolKeepsLine(s: State, l: Label, sid: nat)
    requires Known(s) && Single(s) && sid < |s.objects|
    requires l.WakePacer? || l.Walk? || l.Take? || l.Work? || l.Throw?
    ensures |Step(s, l).objects| == |s.objects| && SameLine(s, Step(s, l), sid)
  {
    hide HeldBy, Runners, Known, Single, DoWork, DoThrow, DoTake;
    if l.WakePacer? || l.Walk? {
      PacerKeepsLine(s, l, sid);
    } else if l.w < |s.workers| && On(s.workers[l.w], sid) && !l.Take? {
      if l.Work? {
        WorkOwnLine(s, l.w);
      } else {
        ThrowOwnLine(s, l.w);
      }
    } else if l.Take? && l.w < |s.workers| && !s.workers[l.w].Free? {
      BusyTakesNothing(s, l.w);
    } else {
      WorkOtherLine(s, l, sid);
    }
  }

  lemma BusyTakesNothing(s: State, w: nat)
    requires w < |s.workers| && !s.workers[w].Free?
    ensures DoTake(s, w) == s
  {
  }

  lemma PacerKeepsLine(s: State, l: Label, sid: nat)
    requires sid < |s.objects| && (l.WakePacer? || l.Walk?)
    ensures |Step(s, l).objects| == |s.objects| && SameLine(s, Step(s, l), sid)
  {
    hide HeldBy;
  }

  lemma PoolKeepsTheRest(s: State, l: Label)
    requires l.WakePacer? || l.Walk? || l.Take? || l.Work? || l.Throw?
    ensures var s' := Step(s, l);
            && s'.sessions == s.sessions && s'.logic == s.logic
            && s'.commands == s.commands && s'.dispatcher == s.dispatcher
  {
  }

  lemma PoolOrdered(s: State, l: Label, fd: nat, sid: nat)
    requires Known(s) && Single(s) && sid < |s.objects| && Ordered(s, fd, sid)
    requires l.WakePacer? || l.Walk? || l.Take? || l.Work? || l.Throw?
    ensures |Step(s, l).objects| == |s.objects| && Ordered(Step(s, l), fd, sid)
  {
    hide Step, Known, Single, HeldBy, InHand, OnTheWay;
    PoolKeepsLine(s, l, sid);
    PoolKeepsTheRest(s, l);
    var s' := Step(s, l);
    assert OnTheWay(s', fd) == OnTheWay(s, fd) by { SameOnTheWay(s, s', fd); }
    assert Arrived(s', sid) == Line(s'.workers, s'.objects[sid], sid) + InHand(s'.logic, sid);
    assert Arrived(s, sid) == Line(s.workers, s.objects[sid], sid) + InHand(s.logic, sid);
  }

  lemma SameOnTheWay(s: State, s': State, fd: nat)
    requires s'.logic == s.logic && s'.commands == s.commands && s'.dispatcher == s.dispatcher
    ensures OnTheWay(s', fd) == OnTheWay(s, fd)
  {
  }

  // ---------- dispatcher and logic thread ----------

  lemma RouteOnTheWay(s: State, fd: nat)
    ensures OnTheWay(DoRoute(s), fd) == OnTheWay(s, fd)
    ensures DoRoute(s).objects == s.objects && DoRoute(s).workers == s.workers && DoRoute(s).logic == s.logic
    ensures DoRoute(s).sessions == s.sessions
  {
    hide For;
    var d := s.dispatcher;
    if d.Routing? && d.rest != [] {
      ForSnoc(s.commands, Routed(d.fd, d.rest[0]), fd);
      if d.fd == fd {
        MoveUp(LookedUp(s.logic, fd), For(s.commands, fd), d.rest);
      } else {
        assert For(s.commands, fd) + [] == For(s.commands, fd);
      }
    }
  }

  lemma MoveUp(a: seq<Request>, b: seq<Request>, rest: seq<Request>)
    requires rest != []
    ensures a + (b + [rest[0]]) + rest[1..] == a + b + rest
  {
  }

  lemma RouteOrdered(s: State, fd: nat, sid: nat)
    requires sid < |s.objects| && Ordered(s, fd, sid)
    ensures |DoRoute(s).objects| == |s.objects| && Ordered(DoRoute(s), fd, sid)
  {
    hide DoRoute, OnTheWay, HeldBy;
    RouteOnTheWay(s, fd);
  }

  lemma PopOnTheWay(s: State, fd: nat)
    requires s.logic.Draining? && s.commands != []
    ensures OnTheWay(DoThink(s), fd) == OnTheWay(s, fd)
  {
    var x := s.commands[0];
    var rest := For(s.commands[1..], fd);
    if x.fd == fd {
      assert [] + ([x.request] + rest) == [x.request] + rest;
    }
  }

  // The request looked up leaves the part known by the connection.
  lemma LookOnTheWay(s: State, fd: nat)
    requires s.logic.Looking? && s.logic.item.fd in s.sessions
    ensures OnTheWay(s, fd) == LookedUp(s.logic, fd) + OnTheWay(DoThink(s), fd)
  {
    hide For;
    var rest := For(s.commands, fd);
    assert [] + rest == rest;
    Assoc(LookedUp(s.logic, fd), rest, Unrouted(s.dispatcher, fd));
  }

  lemma LookOrdered(s: State, fd: nat, sid: nat)
    requires s.logic.Looking? && sid < |s.objects| && Ordered(s, fd, sid)
    requires fd in s.sessions && s.sessions[fd] == sid && Distinct(s)
    ensures |DoThink(s).objects| == |s.objects| && Ordered(DoThink(s), fd, sid)
  {
    hide HeldBy, For, OnTheWay;
    var s' := DoThink(s);
    if s.logic.item.fd in s.sessions {
      LookOnTheWay(s, fd);
      assert InHand(s'.logic, sid) == LookedUp(s.logic, fd);
      var line := Line(s.workers, s.objects[sid], sid);
      assert line + [] == line;
      Assoc(line, LookedUp(s.logic, fd), OnTheWay(s', fd));
    } else {
      DroppedOnTheWay(s, fd);
    }
  }

  lemma DroppedOnTheWay(s: State, fd: nat)
    requires s.logic.Looking? && s.logic.item.fd !in s.sessions && fd in s.sessions
    ensures OnTheWay(DoThink(s), fd) == OnTheWay(s, fd)
  {
  }

  lemma PushOrdered(s: State, fd: nat, sid: nat)
    requires s.logic.Pushing? && sid < |s.objects| && Ordered(s, fd, sid)
    ensures |DoThink(s).objects| == |s.objects| && Ordered(DoThink(s), fd, sid)
  {
    hide HeldBy, For;
    var o := s.objects[sid];
    var done := o.handled + HeldBy(s.workers, sid);
    if s.logic.sid == sid {
      assert (done + (o.queue + [s.logic.request])) + [] == (done + o.queue) + [s.logic.request];
    }
  }

  lemma IdleThinkOrdered(s: State, fd: nat, sid: nat)
    requires (s.logic.Blocked? || s.logic.Waking? || (s.logic.Draining? && s.commands == []))
    requires sid < |s.objects| && Ordered(s, fd, sid)
    ensures |DoThink(s).objects| == |s.objects| && Ordered(DoThink(s), fd, sid)
  {
    hide HeldBy, For;
  }

  lemma PopOrdered(s: State, fd: nat, sid: nat)
    requires s.logic.Draining? && s.commands != [] && sid < |s.objects| && Ordered(s, fd, sid)
    ensures |DoThink(s).objects| == |s.objects| && Ordered(DoThink(s), fd, sid)
  {
    hide HeldBy, OnTheWay;
    PopOnTheWay(s, fd);
  }

  lemma ThinkOrdered(s: State, fd: nat, sid: nat)
    requires sid < |s.objects| && Ordered(s, fd, sid)
    requires fd in s.sessions && s.sessions[fd] == sid && Distinct(s)
    ensures |DoThink(s).objects| == |s.objects| && Ordered(DoThink(s), fd, sid)
  {
    hide Ordered, DoThink, Distinct;
    match s.logic {
      case Blocked => IdleThinkOrdered(s, fd, sid);
      case Waking => IdleThinkOrdered(s, fd, sid);
      case Draining =>
        if s.commands == [] {
          IdleThinkOrdered(s, fd, sid);
        } else {
          PopOrdered(s, fd, sid);
        }
      case Looking(_) => LookOrdered(s, fd, sid);
      case Pushing(_, _) => PushOrdered(s, fd, sid);
    }
  }

  lemma ReceiveOrdered(s: State, from: nat, requests: seq<Request>, fd: nat, sid: nat)
    requires sid < |s.objects| && Ordered(s, fd, sid)
    requires fd in s.sessions && s.sessions[fd] == sid && Distinct(s)
    ensures |DoReceive(s, from, requests).objects| == |s.objects| && Ordered(DoReceive(s, from, requests), fd, sid)
  {
    hide HeldBy, For;
    if s.dispatcher.Polling? && from in s.sessions {
      if from == fd {
        Assoc(Arrived(s, sid), LookedUp(s.logic, fd) + For(s.commands, fd), requests);
        var known := LookedUp(s.logic, fd) + For(s.commands, fd);
        assert known + [] == known;
      } else {
        assert s.sessions[from] != sid;
      }
    }
  }

  lemma CloseOrdered(s: State, closed: nat, fd: nat, sid: nat)
    requires sid < |s.objects| && Ordered(s, fd, sid)
    ensures |DoClose(s, closed).objects| == |s.objects| && Ordered(DoClose(s, closed), fd, sid)
  {
    hide HeldBy, For;
  }

  lemma AcceptOrdered(s: State, accepted: nat, fd: nat, sid: nat)
    requires sid < |s.objects| && Ordered(s, fd, sid)
    ensures |DoAccept(s, accepted).objects| >= |s.objects| && Ordered(DoAccept(s, accepted), fd, sid)
  {
    hide HeldBy, For;
  }

  lemma NothingArrived(s: State)
    requires Known(s)
    ensures HeldBy(s.workers, |s.objects|) == [] && InHand(s.logic, |s.objects|) == []
  {
    NoRunner(s.workers, |s.objects|);
    NobodyHolds(s.workers, |s.objects|);
  }

  lemma NewSessionOwn(s: State, fd: nat)
    requires Known(s) && Distinct(s) && s.dispatcher.Polling? && fd !in s.sessions && OnTheWay(s, fd) == []
    ensures |DoAccept(s, fd).objects| == |s.objects| + 1 && Own(DoAccept(s, fd), |s.objects|)
  {
    hide HeldBy, For;
    NothingArrived(s);
    var s' := DoAccept(s, fd);
    assert OnTheWay(s', fd) == OnTheWay(s, fd);
    assert Arrived(s', |s.objects|) == [];
  }

  // ---------- all runs ----------

  lemma StepDistinct(s: State, l: Label)
    requires Known(s) && Distinct(s)
    ensures Distinct(Step(s, l))
  {
    hide DoThink, DoWalk, DoTake, DoWork, DoThrow, DoRoute;
    if l.Think? || l.Walk? || l.Take? || l.Work? || l.Throw? || l.Route? {
      KeepsSessions(s, l);
    }
  }

  lemma KeepsSessions(s: State, l: Label)
    requires !l.Accept? && !l.Close?
    ensures Step(s, l).sessions == s.sessions && |Step(s, l).objects| == |s.objects|
  {
  }

  lemma StepOrdered(s: State, l: Label, fd: nat, sid: nat)
    requires Known(s) && Single(s) && Distinct(s) && sid < |s.objects| && Ordered(s, fd, sid)
    requires fd in s.sessions && s.sessions[fd] == sid
    ensures sid < |Step(s, l).objects| && Ordered(Step(s, l), fd, sid)
  {
    hide Known, Single, Distinct, Ordered, DoAccept, DoClose, DoReceive, DoRoute, DoThink;
    hide DoWalk, DoTake, DoWork, DoThrow;
    match l {
      case Accept(x) => AcceptOrdered(s, x, fd, sid);
      case Close(x) => CloseOrdered(s, x, fd, sid);
      case Receive(x, requests) => ReceiveOrdered(s, x, requests, fd, sid);
      case Route => RouteOrdered(s, fd, sid);
      case Think => ThinkOrdered(s, fd, sid);
      case WakePacer(_) => PoolOrdered(s, l, fd, sid);
      case Walk => PoolOrdered(s, l, fd, sid);
      case Take(_) => PoolOrdered(s, l, fd, sid);
      case Work(_) => PoolOrdered(s, l, fd, sid);
      case Throw(_) => PoolOrdered(s, l, fd, sid);
    }
  }

  // A connection of this session in the new state is one of the old state, as the session is not new.
  lemma OpenBefore(s: State, l: Label, fd: nat)
    requires Known(s) && fd in Step(s, l).sessions && Step(s, l).sessions[fd] < |s.objects|
    ensures fd in s.sessions && Step(s, l).sessions[fd] == s.sessions[fd]
  {
    hide DoThink, DoWalk, DoTake, DoWork, DoThrow, DoRoute;
    if !l.Accept? && !l.Close? {
      KeepsSessions(s, l);
    }
  }

  // No connection leads to the session any more: nothing arrives for it.
  lemma ClosedSession(s: State, l: Label, sid: nat)
    requires Known(s) && Single(s) && sid < |s.objects|
    requires forall fd | fd in s.sessions :: s.sessions[fd] != sid
    ensures sid < |Step(s, l).objects| && Arrived(Step(s, l), sid) == Arrived(s, sid)
    ensures Step(s, l).objects[sid].parsed == s.objects[sid].parsed
  {
    hide Known, Single, HeldBy, DoWalk, DoTake, DoWork, DoThrow;
    if l.WakePacer? || l.Walk? || l.Take? || l.Work? || l.Throw? {
      PoolKeepsLine(s, l, sid);
      PoolKeepsTheRest(s, l);
    } else if l.Think? {
      ClosedThink(s, sid);
    }
  }

  lemma ClosedThink(s: State, sid: nat)
    requires sid < |s.objects| && forall fd | fd in s.sessions :: s.sessions[fd] != sid
    ensures |DoThink(s).objects| == |s.objects| && Arrived(DoThink(s), sid) == Arrived(s, sid)
    ensures DoThink(s).objects[sid].parsed == s.objects[sid].parsed
  {
    hide HeldBy;
    if s.logic.Pushing? && s.logic.sid == sid {
      var done := s.objects[sid].handled + HeldBy(s.workers, sid);
      var queue := s.objects[sid].queue;
      Assoc(done, queue, [s.logic.request]);
      assert done + (queue + [s.logic.request]) + [] == done + (queue + [s.logic.request]);
    }
  }

  lemma OrderedArrives(s: State, fd: nat, sid: nat)
    requires sid < |s.objects| && Ordered(s, fd, sid)
    ensures Arrived(s, sid) <= s.objects[sid].parsed
  {
  }

  lemma StepOwn(s: State, l: Label, sid: nat)
    requires Known(s) && Single(s) && Distinct(s) && sid < |s.objects| && Own(s, sid)
    ensures sid < |Step(s, l).objects| && Own(Step(s, l), sid)
  {
    hide Step, Known, Single, Distinct, Ordered, Arrived, OnTheWay;
    var s' := Step(s, l);
    if fd :| fd in s.sessions && s.sessions[fd] == sid {
      OpenOwn(s, l, fd, sid);
    } else {
      ClosedSession(s, l, sid);
      forall fd | fd in s'.sessions ensures s'.sessions[fd] != sid {
        if s'.sessions[fd] == sid {
          OpenBefore(s, l, fd);
        }
      }
    }
  }

  lemma OpenOwn(s: State, l: Label, fd: nat, sid: nat)
    requires Known(s) && Single(s) && Distinct(s) && sid < |s.objects| && Own(s, sid)
    requires fd in s.sessions && s.sessions[fd] == sid
    ensures sid < |Step(s, l).objects| && Own(Step(s, l), sid)
  {
    hide Step, Known, Single, Ordered, Arrived, OnTheWay;
    var s' := Step(s, l);
    StepOrdered(s, l, fd, sid);
    OrderedArrives(s', fd, sid);
    forall x | x in s'.sessions && s'.sessions[x] == sid ensures Ordered(s', x, sid) {
      OpenBefore(s, l, x);
      assert x == fd;
    }
  }

  // A connection is accepted while requests of an earlier one with its descriptor are looked up or queued.
  predicate Reuses(s: State, l: Label) {
    l.Accept? && s.dispatcher.Polling? && l.fd !in s.sessions && OnTheWay(s, l.fd) != []
  }

  // The sessions that a run begins in this way.
  ghost function Reusing(s: State, labels: seq<Label>): set<nat>
    decreases |labels|
  {
    if labels == [] then {}
    else (if Reuses(s, labels[0]) then {|s.objects|} else {}) + Reusing(Step(s, labels[0]), labels[1..])
  }

  lemma StepOwns(s: State, l: Label, sid: nat)
    requires Known(s) && Single(s) && Distinct(s) && (sid < |s.objects| ==> Own(s, sid))
    requires sid < |s.objects| || !Reuses(s, l) || sid != |s.objects|
    ensures |s.objects| <= |Step(s, l).objects|
    ensures sid < |Step(s, l).objects| ==> Own(Step(s, l), sid)
  {
    hide Step, Known, Single, Distinct, Own, OnTheWay;
    NewSession(s, l);
    if sid < |s.objects| {
      StepOwn(s, l, sid);
    } else if sid < |Step(s, l).objects| {
      Accepting(s, l);
      NewSessionOwn(s, l.fd);
    }
  }

  lemma Accepting(s: State, l: Label)
    requires |Step(s, l).objects| > |s.objects|
    ensures l.Accept? && s.dispatcher.Polling? && l.fd !in s.sessions && Step(s, l) == DoAccept(s, l.fd)
  {
  }

  lemma {:induction false} Grows(s: State, labels: seq<Label>)
    requires Known(s)
    ensures |s.objects| <= |Run(s, labels).objects|
    decreases |labels|
  {
    hide Step, Known;
    if labels != [] {
      StepKnows(s, labels[0]);
      NewSession(s, labels[0]);
      Grows(Step(s, labels[0]), labels[1..]);
    }
  }

  lemma {:induction false} RunOwns(s: State, labels: seq<Label>, sid: nat)
    requires Known(s) && Single(s) && Distinct(s) && (sid < |s.objects| ==> Own(s, sid))
    ensures var s' := Run(s, labels);
            && |s.objects| <= |s'.objects|
            && (sid < |s'.objects| && (sid < |s.objects| || sid !in Reusing(s, labels)) ==> Own(s', sid))
    decreases |labels|
  {
    hide Step, Known, Single, Distinct, Own, Reuses;
    Grows(s, labels);
    if labels != [] && (sid < |s.objects| || sid !in Reusing(s, labels)) {
      StepKnows(s, labels[0]);
      StepKeepsSingle(s, labels[0]);
      StepDistinct(s, labels[0]);
      StepOwns(s, labels[0], sid);
      RunOwns(Step(s, labels[0]), labels[1..], sid);
    }
  }

  /**
   In every run, a session that does not reuse a descriptor too early keeps to its own requests: what has been
   handled, then what a worker holds, its queue and what the logic thread holds, are the requests received for
   it, in order; while its connection is open the rest of them is looked up, in the global queue or unrouted.
   */
  lemma RequestsStayInOrder(workers: nat, labels: seq<Label>, sid: nat)
    ensures var s := Run(Start(workers), labels);
            sid < |s.objects| && sid !in Reusing(Start(workers), labels) ==>
              var arrived := s.objects[sid].handled + HeldBy(s.workers, sid) + s.objects[sid].queue
                             + InHand(s.logic, sid);
              && arrived <= s.objects[sid].parsed
              && forall fd | fd in s.sessions && s.sessions[fd] == sid ::
                   arrived + (LookedUp(s.logic, fd) + For(s.commands, fd) + Unrouted(s.dispatcher, fd))
                   == s.objects[sid].parsed
  {
    hide Run, Known, Reusing, HeldBy, InHand, LookedUp, For, Unrouted;
    StartKnows(workers);
    assert Distinct(Start(workers));
    RunOwns(Start(workers), labels, sid);
    var s := Run(Start(workers), labels);
    if sid < |s.objects| && sid !in Reusing(Start(workers), labels) {
      assert Own(s, sid);
      forall fd | fd in s.sessions && s.sessions[fd] == sid
        ensures Arrived(s, sid) + (LookedUp(s.logic, fd) + For(s.commands, fd) + Unrouted(s.dispatcher, fd))
             == s.objects[sid].parsed
      {
        assert Ordered(s, fd, sid);
      }
    }
  }

  // ---------- a descriptor reused too early ----------

  function Phase(logic: Logic): nat {
    match logic
    case Looking(_) => 4
    case Pushing(_, _) => 3
    case Waking => 2
    case Blocked => 2
    case Draining => 1
  }

  // The logic thread alone brings a request on the way to the session that its descriptor leads to.
  lemma {:induction false} GetsThrough(s: State, fd: nat, sid: nat) returns (labels: seq<Label>)
    requires Known(s) && fd in s.sessions && s.sessions[fd] == sid && s.dispatcher.Polling?
    requires OnTheWay(s, fd) != [] || InHand(s.logic, sid) != []
    requires s.logic.Blocked? ==> s.logicEfd > 0
    ensures var s' := Run(s, labels);
            && sid < |s'.objects| == |s.objects| && s'.objects[sid].parsed == s.objects[sid].parsed
            && InHand(s'.logic, sid) != []
    decreases |s.commands|, Phase(s.logic)
  {
    hide Known, DoThink, Run, For;
    SessionKnown(s, fd);
    if InHand(s.logic, sid) != [] {
      labels := [];
      RunNothing(s);
    } else {
      Thinks(s, fd, sid);
      DispatchKnows(s, Think);
      labels := GetsThrough(DoThink(s), fd, sid);
      RunFirst(s, Think, labels);
      labels := [Think] + labels;
    }
  }

  lemma SessionKnown(s: State, fd: nat)
    requires Known(s) && fd in s.sessions
    ensures s.sessions[fd] < |s.objects|
  {
  }

  lemma RunNothing(s: State)
    ensures Run(s, []) == s
  {
  }

  lemma RunFirst(s: State, l: Label, labels: seq<Label>)
    ensures Run(s, [l] + labels) == Run(Step(s, l), labels)
  {
    hide Step;
    assert ([l] + labels)[1..] == labels;
  }

  lemma Thinks(s: State, fd: nat, sid: nat)
    requires Known(s) && fd in s.sessions && s.sessions[fd] == sid < |s.objects| && s.dispatcher.Polling?
    requires OnTheWay(s, fd) != [] && InHand(s.logic, sid) == []
    requires s.logic.Blocked? ==> s.logicEfd > 0
    ensures var s' := DoThink(s);
            && Step(s, Think) == s' && s'.sessions == s.sessions && s'.dispatcher.Polling?
            && |s'.objects| == |s.objects| && s'.objects[sid].parsed == s.objects[sid].parsed
            && (OnTheWay(s', fd) != [] || InHand(s'.logic, sid) != []) && !s'.logic.Blocked?
            && (|s'.commands| < |s.commands|
                || (|s'.commands| == |s.commands| && Phase(s'.logic) < Phase(s.logic)))
  {
  }

  // Whatever happens next, only requests received for the session come to it.
  ghost predicate OnlyItsOwn(s: State, sid: nat) {
    sid < |s.objects| && Arrived(s, sid) <= s.objects[sid].parsed
  }

  /**
   In every reachable state, a connection accepted there is safe in all runs that follow if and only if no
   request that came over an earlier connection with its descriptor is still looked up or queued.
   */
  lemma AcceptInOrderIff(workers: nat, before: seq<Label>, fd: nat)
    requires var s := Run(Start(workers), before); s.dispatcher.Polling? && fd !in s.sessions
    ensures var s := Run(Start(workers), before);
            (forall after: seq<Label> :: OnlyItsOwn(Run(DoAccept(s, fd), after), |s.objects|))
            <==> OnTheWay(s, fd) == []
  {
    hide Run, Start, Known, Single, Distinct, OnTheWay, OnlyItsOwn, DoAccept;
    var s := Run(Start(workers), before);
    Reachable(workers, before);
    if OnTheWay(s, fd) == [] {
      forall after: seq<Label> ensures OnlyItsOwn(Run(DoAccept(s, fd), after), |s.objects|) {
        AcceptedAlone(s, fd, after);
      }
    } else {
      var after := AcceptedTooEarly(s, fd);
      assert !OnlyItsOwn(Run(DoAccept(s, fd), after), |s.objects|);
    }
  }

  lemma {:induction false} RunDistinct(s: State, labels: seq<Label>)
    requires Known(s) && Distinct(s)
    ensures Distinct(Run(s, labels))
    decreases |labels|
  {
    hide Step, Known, Distinct;
    if labels != [] {
      StepKnows(s, labels[0]);
      StepDistinct(s, labels[0]);
      RunDistinct(Step(s, labels[0]), labels[1..]);
    }
  }

  lemma Reachable(workers: nat, labels: seq<Label>)
    ensures var s := Run(Start(workers), labels);
            Known(s) && Single(s) && Distinct(s) && (s.commands != [] ==> LogicWillLook(s))
  {
    hide Run, Known, Single;
    StartKnows(workers);
    RunIsSingle(Start(workers), labels);
    RunDistinct(Start(workers), labels);
    RunWillLook(Start(workers), labels);
  }

  lemma AcceptedAlone(s: State, fd: nat, after: seq<Label>)
    requires Known(s) && Single(s) && Distinct(s) && s.dispatcher.Polling? && fd !in s.sessions
    requires OnTheWay(s, fd) == []
    ensures OnlyItsOwn(Run(DoAccept(s, fd), after), |s.objects|)
  {
    hide Run, Known, Single, Distinct, DoAccept, OnTheWay;
    var s' := DoAccept(s, fd);
    assert s' == Step(s, Accept(fd));
    NewSessionOwn(s, fd);
    StepKnows(s, Accept(fd));
    StepKeepsSingle(s, Accept(fd));
    StepDistinct(s, Accept(fd));
    RunOwns(s', after, |s.objects|);
    assert Own(Run(s', after), |s.objects|);
  }

  lemma AcceptedTooEarly(s: State, fd: nat) returns (after: seq<Label>)
    requires Known(s) && s.dispatcher.Polling? && fd !in s.sessions && OnTheWay(s, fd) != []
    requires s.commands != [] ==> LogicWillLook(s)
    ensures !OnlyItsOwn(Run(DoAccept(s, fd), after), |s.objects|)
  {
    hide Run, Known, HeldBy;
    var s' := DoAccept(s, fd);
    assert s' == Step(s, Accept(fd)) && OnTheWay(s', fd) == OnTheWay(s, fd);
    StepKnows(s, Accept(fd));
    after := GetsThrough(s', fd, |s.objects|);
  }

  /** A request of a client that is gone can end up with the next client on the same descriptor. */
  lemma ReusedDescriptorMixesClients(fd: nat, r: Request) returns (labels: seq<Label>)
    ensures var s := Run(Start(0), labels);
            |s.objects| == 2 && s.sessions == map[fd := 1] && s.objects[1].parsed == [] && s.objects[1].queue == [r]
  {
    var s;
    labels, s := FirstClient(fd, r);
    labels, s := SecondClient(labels, s, fd, r);
  }

  // A client's request is queued, and the client is gone.
  lemma FirstClient(fd: nat, r: Request) returns (labels: seq<Label>, s: State)
    ensures Run(Start(0), labels) == s
    ensures s == Start(0).(objects := [Session([], false, [r], [], false)], commands := [Routed(fd, r)], logicEfd := 1)
  {
    hide Run;
    labels, s := [], Start(0);
    NothingRun(0);
    labels, s := Extend(0, labels, s, Accept(fd));
    assert s.objects == [Session([], false, [], [], false)];
    labels, s := Extend(0, labels, s, Receive(fd, [r]));
    assert [] + [r] == [r];
    assert s.objects == [Session([], false, [r], [], false)];
    labels, s := Extend(0, labels, s, Route);
    assert [r][1..] == [] && s.commands == [Routed(fd, r)];
    labels, s := Extend(0, labels, s, Route);
    labels, s := Extend(0, labels, s, Route);
    labels, s := Extend(0, labels, s, Close(fd));
    assert s.sessions == map[];
  }

  // The next client gets the same descriptor, and the logic thread runs.
  lemma SecondClient(labels: seq<Label>, s: State, fd: nat, r: Request) returns (labels': seq<Label>, s': State)
    requires Run(Start(0), labels) == s
    requires s == Start(0).(objects := [Session([], false, [r], [], false)], commands := [Routed(fd, r)], logicEfd := 1)
    ensures Run(Start(0), labels') == s'
    ensures |s'.objects| == 2 && s'.sessions == map[fd := 1] && s'.objects[1].parsed == [] && s'.objects[1].queue == [r]
  {
    hide Run;
    labels', s' := Extend(0, labels, s, Accept(fd));
    labels', s' := Extend(0, labels', s', Think);
    labels', s' := Extend(0, labels', s', Think);
    labels', s' := Extend(0, labels', s', Think);
    labels', s' := Extend(0, labels', s', Think);
    assert [] + [r] == [r];
  }
}
