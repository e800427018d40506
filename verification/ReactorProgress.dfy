/**
 What can always still happen: a wake of the pacer ticks every session it finds idle, and every request that is
 received, queued or held for a session that is not stuck has a run in which it is handled.
 */
module ReactorProgress {
  import opened Basics
  import opened Reactor
  import opened ReactorOrder

  // ---------- the walk of the pacer ----------

  function Walks(n: nat): seq<Label> {
    if n == 0 then [] else [Walk] + Walks(n - 1)
  }

  // Still to be looked at.
  function Rest(p: Pacer): seq<nat> {
    if p.Sleeping? then [] else p.rest
  }

  function StepsLeft(p: Pacer): nat {
    match p
    case Sleeping => 0
    case Walking(rest) => 2 * |rest| + 1
    case Claimed(_, rest) => 2 * |rest| + 2
  }

  // Only in-flight flags are set, and tasks queued.
  ghost predicate OnlyClaims(s: State, s': State) {
    && s' == s.(objects := s'.objects, tasks := s'.tasks, pacer := s'.pacer)
    && |s'.objects| == |s.objects|
    && (forall i | 0 <= i < |s.objects| ::
          && s'.objects[i] == s.objects[i].(inFlight := s'.objects[i].inFlight)
          && (s.objects[i].inFlight ==> s'.objects[i].inFlight))
  }

  lemma OneWalk(s: State)
    requires Known(s) && !s.pacer.Sleeping?
    ensures var s' := DoWalk(s);
            && OnlyClaims(s, s') && StepsLeft(s'.pacer) < StepsLeft(s.pacer)
            && (forall i | 0 <= i < |Rest(s.pacer)| && Rest(s.pacer)[i] < |s.objects| ::
                  Rest(s.pacer)[i] in Rest(s'.pacer) || s'.objects[Rest(s.pacer)[i]].inFlight)
  {
  }

  lemma {:induction false} WalkAll(s: State, n: nat)
    requires Known(s) && n >= StepsLeft(s.pacer)
    ensures var s' := Run(s, Walks(n));
            && s'.pacer.Sleeping? && OnlyClaims(s, s')
            && forall sid | sid in Rest(s.pacer) :: sid < |s.objects| && s'.objects[sid].inFlight
    decreases n
  {
    hide Known, DoWalk, Run, OnlyClaims;
    if s.pacer.Sleeping? {
      SleepsOn(s, n);
    } else {
      var s1 := DoWalk(s);
      OneWalk(s);
      PoolKnows(s, Walk);
      RunFirst(s, Walk, Walks(n - 1));
      WalkAll(s1, n - 1);
      ClaimsAdd(s, s1, Run(s1, Walks(n - 1)));
      RestKnown(s);
    }
  }

  lemma RestKnown(s: State)
    requires Known(s)
    ensures forall i | 0 <= i < |Rest(s.pacer)| :: Rest(s.pacer)[i] < |s.objects|
  {
  }

  lemma ClaimsAdd(s: State, t: State, u: State)
    requires OnlyClaims(s, t) && OnlyClaims(t, u)
    ensures OnlyClaims(s, u) && |t.objects| == |s.objects| == |u.objects|
    ensures forall i | 0 <= i < |s.objects| :: t.objects[i].inFlight ==> u.objects[i].inFlight
  {
  }

  lemma {:induction false} SleepsOn(s: State, n: nat)
    requires s.pacer.Sleeping?
    ensures Run(s, Walks(n)) == s && OnlyClaims(s, s)
    decreases n
  {
    if n > 0 {
      assert Walks(n)[0] == Walk && Walks(n)[1..] == Walks(n - 1);
      SleepsOn(s, n - 1);
    }
  }

  /**
   In every reachable state with the pacer asleep: after a wake with any snapshot, and enough steps of its walk,
   every session of the snapshot has exactly one tick claimed, queued or running, unless it was stuck before.
   */
  lemma EverySessionIsTicked(workers: nat, labels: seq<Label>, snapshot: seq<nat>, n: nat)
    requires var s := Run(Start(workers), labels);
             s.pacer.Sleeping? && forall i | 0 <= i < |snapshot| :: snapshot[i] < |s.objects|
    requires n > 2 * |snapshot|
    ensures var s := Run(Start(workers), labels);
            var s' := Run(s, [WakePacer(snapshot)] + Walks(n));
            && s'.pacer.Sleeping? && |s'.objects| == |s.objects|
            && forall i | 0 <= i < |snapshot| :: Ticks(s', snapshot[i]) == 1 || s.objects[snapshot[i]].stuck
  {
    hide Run, Known, Single, Start, Ticks, OnlyClaims;
    var s := Run(Start(workers), labels);
    Reachable(workers, labels);
    var s1 := Step(s, WakePacer(snapshot));
    PoolKnows(s, WakePacer(snapshot));
    StepKeepsSingle(s, WakePacer(snapshot));
    RunFirst(s, WakePacer(snapshot), Walks(n));
    WalkAll(s1, n);
    var s' := Run(s1, Walks(n));
    RunIsSingle(s1, Walks(n));
    ClaimSizes(s1, s');
    forall i | 0 <= i < |snapshot| ensures Ticks(s', snapshot[i]) == 1 || s.objects[snapshot[i]].stuck {
      assert snapshot[i] in Rest(s1.pacer);
      OneTickEach(s1, s', snapshot[i]);
    }
  }

  lemma ClaimSizes(s: State, s': State)
    requires OnlyClaims(s, s')
    ensures |s'.objects| == |s.objects|
  {
  }

  lemma OneTickEach(s: State, s': State, sid: nat)
    requires OnlyClaims(s, s') && Single(s') && sid < |s.objects| && sid < |s'.objects| && s'.objects[sid].inFlight
    ensures |s'.objects| == |s.objects| ==> Ticks(s', sid) == 1 || s.objects[sid].stuck
  {
    hide Ticks;
    assert SingleFor(s', sid);
  }

  // ---------- the pool finishes what it has begun ----------

  // The pool and the pacer have moved on: no request is lost, received or put behind another one.
  ghost predicate Advanced(s: State, s': State) {
    && s'.sessions == s.sessions && s'.logic == s.logic && s'.commands == s.commands && s'.dispatcher == s.dispatcher
    && |s'.objects| == |s.objects| && |s'.workers| == |s.workers|
    && (forall sid | 0 <= sid < |s.objects| ::
          && SameLine(s, s', sid) && s'.objects[sid].stuck == s.objects[sid].stuck
          && |s'.objects[sid].queue| <= |s.objects[sid].queue|)
  }

  predicate PoolStep(l: Label) {
    l.WakePacer? || l.Walk? || l.Take? || l.Work?
  }

  lemma AdvancedAdd(s: State, t: State, u: State)
    requires Advanced(s, t) && Advanced(t, u)
    ensures Advanced(s, u)
  {
    hide Line;
    forall sid | 0 <= sid < |s.objects|
      ensures SameLine(s, u, sid) && u.objects[sid].stuck == s.objects[sid].stuck
      ensures |u.objects[sid].queue| <= |s.objects[sid].queue|
    {
      assert SameLine(s, t, sid) && SameLine(t, u, sid);
    }
  }

  lemma NotStuckSoon(s: State, l: Label, sid: nat)
    requires PoolStep(l) && sid < |s.objects|
    ensures var s' := Step(s, l);
            && |s'.objects| == |s.objects| && |s'.workers| == |s.workers|
            && s'.objects[sid].stuck == s.objects[sid].stuck
            && |s'.objects[sid].queue| <= |s.objects[sid].queue|
  {
  }

  lemma SizesKept(s: State, l: Label)
    requires PoolStep(l)
    ensures |Step(s, l).objects| == |s.objects| && |Step(s, l).workers| == |s.workers|
  {
  }

  lemma StepAdvances(s: State, l: Label)
    requires Known(s) && Single(s) && PoolStep(l)
    ensures Advanced(s, Step(s, l)) && Known(Step(s, l)) && Single(Step(s, l))
  {
    hide Step, Known, Single, SameLine;
    PoolKeepsTheRest(s, l);
    SizesKept(s, l);
    PoolKnows(s, l);
    StepKeepsSingle(s, l);
    forall sid | 0 <= sid < |s.objects|
      ensures SameLine(s, Step(s, l), sid) && Step(s, l).objects[sid].stuck == s.objects[sid].stuck
      ensures |Step(s, l).objects[sid].queue| <= |s.objects[sid].queue|
    {
      PoolKeepsLine(s, l, sid);
      NotStuckSoon(s, l, sid);
    }
  }

  lemma NothingAdvances(s: State)
    ensures Advanced(s, s)
  {
  }

  // A run from s0 to s, in which nothing but the pool and the pacer has moved.
  ghost predicate Leads(s0: State, run: seq<Label>, s: State) {
    Run(s0, run) == s && Advanced(s0, s) && Known(s) && Single(s)
  }

  lemma Go(s0: State, run: seq<Label>, s: State, l: Label) returns (run': seq<Label>, s': State)
    requires Leads(s0, run, s) && PoolStep(l)
    ensures Leads(s0, run', s') && s' == Step(s, l)
  {
    hide Step, Known, Single, Advanced, Run;
    RunSnoc(s0, run, l);
    StepAdvances(s, l);
    AdvancedAdd(s0, s, Step(s, l));
    run', s' := run + [l], Step(s, l);
  }

  // What the worker still has to do at most.
  function Effort(s: State, w: nat): nat
    requires w < |s.workers|
  {
    match s.workers[w]
    case Free => 0
    case Releasing(_) => 1
    case Framing(_) => 2
    case Ticking(sid) => 3 + 2 * (if sid < |s.objects| then |s.objects[sid].queue| else 0)
    case Handling(sid, _) => 4 + 2 * (if sid < |s.objects| then |s.objects[sid].queue| else 0)
  }

  lemma WorkHelps(s: State, w: nat)
    requires Known(s) && w < |s.workers| && !s.workers[w].Free?
    ensures var s' := DoWork(s, w);
            && Step(s, Work(w)) == s' && |s'.workers| == |s.workers| && Effort(s', w) < Effort(s, w)
            && s'.tasks == s.tasks && s'.pacer == s.pacer && s'.workers == s.workers[w := s'.workers[w]]
  {
  }

  // The worker finishes its tick; the others stay as they are.
  lemma {:induction false} Finishes(s0: State, run: seq<Label>, s: State, w: nat)
    returns (run': seq<Label>, s': State)
    requires Leads(s0, run, s) && w < |s.workers|
    ensures Leads(s0, run', s') && s'.workers == s.workers[w := Free] && s'.tasks == s.tasks && s'.pacer == s.pacer
    ensures Advanced(s, s')
    decreases Effort(s, w)
  {
    hide Advanced, Known, Single, Run, Step, Effort, DoWork;
    if s.workers[w].Free? {
      run', s' := run, s;
      NothingAdvances(s);
      assert s.workers[w := Free] == s.workers;
    } else {
      WorkHelps(s, w);
      StepAdvances(s, Work(w));
      var s1;
      run', s1 := Go(s0, run, s, Work(w));
      run', s' := Finishes(s0, run', s1, w);
      AdvancedAdd(s, s1, s');
      assert s.workers[w := s1.workers[w]][w := Free] == s.workers[w := Free];
    }
  }

  ghost predicate FreeFrom(ws: seq<Worker>, w: nat) {
    forall i | w <= i < |ws| :: ws[i].Free?
  }

  lemma {:induction false} AllFinish(s0: State, run: seq<Label>, s: State, w: nat)
    returns (run': seq<Label>, s': State)
    requires Leads(s0, run, s) && w <= |s.workers| && FreeFrom(s.workers, w)
    ensures Leads(s0, run', s') && FreeFrom(s'.workers, 0) && |s'.workers| == |s.workers|
    ensures s'.tasks == s.tasks && s'.pacer == s.pacer
    decreases w
  {
    hide Leads;
    if w == 0 {
      run', s' := run, s;
    } else {
      run', s' := Finishes(s0, run, s, w - 1);
      run', s' := AllFinish(s0, run', s', w - 1);
    }
  }

  lemma {:induction false} FallsAsleep(s0: State, run: seq<Label>, s: State) returns (run': seq<Label>, s': State)
    requires Leads(s0, run, s)
    ensures Leads(s0, run', s') && s'.pacer.Sleeping? && s'.workers == s.workers
    decreases StepsLeft(s.pacer)
  {
    hide Run, Known, Single, Advanced, StepsLeft, OnlyClaims;
    if s.pacer.Sleeping? {
      run', s' := run, s;
    } else {
      OneWalk(s);
      WalkLeavesWorkers(s);
      run', s' := Go(s0, run, s, Walk);
      run', s' := FallsAsleep(s0, run', s');
    }
  }

  lemma WalkLeavesWorkers(s: State)
    ensures DoWalk(s).workers == s.workers && Step(s, Walk) == DoWalk(s)
  {
  }

  ghost predicate Quiet(s: State) {
    FreeFrom(s.workers, 0) && s.tasks == [] && s.pacer.Sleeping?
  }

  lemma TakesFront(s: State, w: nat)
    requires w < |s.workers| && s.workers[w].Free? && s.tasks != []
    ensures var s' := Step(s, Take(w));
            && s'.workers == s.workers[w := Ticking(s.tasks[0])] && s'.tasks == s.tasks[1..] && s'.pacer == s.pacer
            && s'.objects == s.objects
  {
  }

  // One worker is enough, and any will do.
  lemma {:induction false} TasksFinish(s0: State, run: seq<Label>, s: State, w: nat)
    returns (run': seq<Label>, s': State)
    requires Leads(s0, run, s) && w < |s.workers| && FreeFrom(s.workers, 0) && s.pacer.Sleeping?
    ensures Leads(s0, run', s') && Quiet(s') && |s'.workers| == |s.workers|
    decreases |s.tasks|
  {
    hide Leads, Advanced;
    if s.tasks == [] {
      run', s' := run, s;
    } else {
      var s1;
      TakesFront(s, w);
      run', s1 := Go(s0, run, s, Take(w));
      run', s1 := Finishes(s0, run', s1, w);
      run', s' := TasksFinish(s0, run', s1, w);
    }
  }

  lemma QuietDown(s0: State, run: seq<Label>, s: State, w: nat) returns (run': seq<Label>, s': State)
    requires Leads(s0, run, s) && w < |s.workers|
    ensures Leads(s0, run', s') && Quiet(s') && |s'.workers| == |s.workers|
  {
    hide Leads;
    run', s' := FallsAsleep(s0, run, s);
    run', s' := AllFinish(s0, run', s', |s'.workers|);
    run', s' := TasksFinish(s0, run', s', w);
  }

  lemma {:induction false} NoneRuns(ws: seq<Worker>, sid: nat)
    requires FreeFrom(ws, 0)
    ensures Runners(ws, sid) == 0
  {
    if ws != [] {
      assert FreeFrom(ws[1..], 0);
      NoneRuns(ws[1..], sid);
    }
  }

  lemma QuietIsIdle(s: State, sid: nat)
    requires Quiet(s) && Single(s) && sid < |s.objects| && !s.objects[sid].stuck
    ensures !s.objects[sid].inFlight
  {
    NoneRuns(s.workers, sid);
    assert SingleFor(s, sid);
  }

  lemma ClaimsIt(s: State, sid: nat)
    requires s.pacer.Sleeping? && sid < |s.objects| && !s.objects[sid].inFlight && s.tasks == []
    ensures var s1 := Step(s, WakePacer([sid]));
            var s2 := Step(s1, Walk);
            var s3 := Step(s2, Walk);
            var s4 := Step(s3, Walk);
            && s4.pacer.Sleeping? && s4.workers == s.workers && s4.tasks == [sid] && |s4.objects| == |s.objects|
            && s4.objects[sid].queue == s.objects[sid].queue
  {
    assert [sid][1..] == [] && [] + [sid] == [sid];
  }

  lemma TickTakes(s: State, w: nat, sid: nat)
    requires w < |s.workers| && s.workers[w] == Ticking(sid) && sid < |s.objects| && s.objects[sid].queue != []
    ensures var s' := Step(s, Work(w));
            && |s'.workers| == |s.workers| && |s'.objects| == |s.objects| && s'.tasks == s.tasks && s'.pacer == s.pacer
            && s'.workers == s.workers[w := s'.workers[w]]
            && |s'.objects[sid].queue| < |s.objects[sid].queue|
  {
  }

  lemma Claiming(s0: State, run: seq<Label>, s: State, sid: nat) returns (run': seq<Label>, s': State)
    requires Leads(s0, run, s) && Quiet(s) && sid < |s.objects| && !s.objects[sid].stuck
    ensures Leads(s0, run', s') && s'.pacer.Sleeping? && s'.workers == s.workers && s'.tasks == [sid]
    ensures |s'.objects| == |s.objects| && s'.objects[sid].queue == s.objects[sid].queue
  {
    hide Run, Known, Advanced, Step;
    QuietIsIdle(s, sid);
    ClaimsIt(s, sid);
    run', s' := Go(s0, run, s, WakePacer([sid]));
    run', s' := Go(s0, run', s', Walk);
    run', s' := Go(s0, run', s', Walk);
    run', s' := Go(s0, run', s', Walk);
  }

  // One tick of the session: its queue gets shorter.
  lemma OneTick(s0: State, run: seq<Label>, s: State, sid: nat, w: nat) returns (run': seq<Label>, s': State)
    requires Leads(s0, run, s) && Quiet(s) && sid < |s.objects| && !s.objects[sid].stuck && w < |s.workers|
    requires s.objects[sid].queue != []
    ensures Leads(s0, run', s') && Quiet(s') && |s'.workers| == |s.workers|
    ensures |s'.objects| == |s.objects| && |s'.objects[sid].queue| < |s.objects[sid].queue|
  {
    hide Leads, Step, SameLine;
    run', s' := Claiming(s0, run, s, sid);
    TakesFront(s', w);
    run', s' := Go(s0, run', s', Take(w));
    TickTakes(s', w, sid);
    run', s' := Go(s0, run', s', Work(w));
    run', s' := Finishes(s0, run', s', w);
  }

  lemma {:induction false} QueueEmpties(s0: State, run: seq<Label>, s: State, sid: nat, w: nat)
    returns (run': seq<Label>, s': State)
    requires Leads(s0, run, s) && Quiet(s) && sid < |s0.objects| && !s0.objects[sid].stuck && w < |s.workers|
    requires sid < |s.objects|
    ensures Leads(s0, run', s') && Quiet(s') && sid < |s'.objects| && s'.objects[sid].queue == []
    decreases |s.objects[sid].queue|
  {
    hide Known, Single, Run, SameLine, Quiet;
    if s.objects[sid].queue == [] {
      run', s' := run, s;
    } else {
      run', s' := OneTick(s0, run, s, sid, w);
      run', s' := QueueEmpties(s0, run', s', sid, w);
    }
  }

  lemma {:induction false} NothingHeld(ws: seq<Worker>, sid: nat)
    requires FreeFrom(ws, 0)
    ensures HeldBy(ws, sid) == []
  {
    NoneRuns(ws, sid);
    NobodyHolds(ws, sid);
  }

  lemma AllHandled(s: State, s': State, sid: nat)
    requires Advanced(s, s') && Quiet(s') && sid < |s.objects| && s'.objects[sid].queue == []
    ensures s'.objects[sid].handled == Line(s.workers, s.objects[sid], sid)
    ensures s'.objects[sid].parsed == s.objects[sid].parsed
  {
    NothingHeld(s'.workers, sid);
    assert SameLine(s, s', sid);
    var h := s'.objects[sid].handled;
    assert h + [] + [] == h;
  }

  // From here the pool and the pacer alone, with any one worker, handle all that has come to the session.
  lemma HandlesAll(s: State, sid: nat, w: nat) returns (run: seq<Label>, s': State)
    requires Known(s) && Single(s) && sid < |s.objects| && !s.objects[sid].stuck && w < |s.workers|
    ensures Leads(s, run, s') && sid < |s'.objects|
    ensures s'.objects[sid].handled == Line(s.workers, s.objects[sid], sid)
    ensures s'.objects[sid].parsed == s.objects[sid].parsed
  {
    hide Known, Single, Step, SameLine, Line, Quiet;
    RunNothing(s);
    NothingAdvances(s);
    run, s' := QuietDown(s, [], s, w);
    run, s' := QueueEmpties(s, run, s', sid, w);
    AllHandled(s, s', sid);
  }

  /**
   From every reachable state, and with any worker, there is a run in which a session that is not stuck has
   everything handled that a worker holds for it and that is in its queue, in that order.
   */
  lemma QueuedCanBeHandled(workers: nat, labels: seq<Label>, sid: nat, w: nat) returns (run: seq<Label>)
    requires var s := Run(Start(workers), labels); sid < |s.objects| && !s.objects[sid].stuck && w < |s.workers|
    ensures var s := Run(Start(workers), labels);
            var s' := Run(s, run);
            sid < |s'.objects| && s'.objects[sid].handled
                                  == s.objects[sid].handled + HeldBy(s.workers, sid) + s.objects[sid].queue
  {
    hide Run, Start, Known, Single, HeldBy, Advanced;
    Reachable(workers, labels);
    var s';
    run, s' := HandlesAll(Run(Start(workers), labels), sid, w);
  }

  // ---------- the way of a request from the socket to its session ----------

  lemma GoOn(s0: State, run: seq<Label>, s: State, l: Label) returns (run': seq<Label>, s': State)
    requires Run(s0, run) == s
    ensures Run(s0, run') == s' == Step(s, l)
  {
    RunSnoc(s0, run, l);
    run', s' := run + [l], Step(s, l);
  }

  // Sessions, workers and what has been received are as before; nothing gets stuck.
  ghost predicate Passed(s: State, s': State) {
    && s'.sessions == s.sessions && s'.workers == s.workers && |s'.objects| == |s.objects|
    && forall i | 0 <= i < |s.objects| ::
         s'.objects[i].parsed == s.objects[i].parsed && s'.objects[i].stuck == s.objects[i].stuck
  }

  function ToRoute(d: Dispatcher): nat {
    match d
    case Polling => 0
    case Routing(_, rest) => 1 + 2 * |rest|
    case Signalling(_, rest) => 2 + 2 * |rest|
  }

  lemma RoutesOne(s: State)
    requires !s.dispatcher.Polling?
    ensures var s' := Step(s, Route); Passed(s, s') && ToRoute(s'.dispatcher) < ToRoute(s.dispatcher)
  {
  }

  lemma PassedAdd(s: State, t: State, u: State)
    requires Passed(s, t) && Passed(t, u)
    ensures Passed(s, u)
  {
  }

  lemma {:induction false} RoutesAll(s0: State, run: seq<Label>, s: State) returns (run': seq<Label>, s': State)
    requires Run(s0, run) == s && Passed(s0, s)
    ensures Run(s0, run') == s' && Passed(s0, s') && s'.dispatcher.Polling?
    decreases ToRoute(s.dispatcher)
  {
    hide Run, Step, Passed;
    if s.dispatcher.Polling? {
      run', s' := run, s;
    } else {
      RoutesOne(s);
      run', s' := GoOn(s0, run, s, Route);
      PassedAdd(s0, s, s');
      run', s' := RoutesAll(s0, run', s');
    }
  }

  predicate Thought(s: State) {
    s.commands == [] && s.logic.Blocked?
  }

  lemma ThinksOne(s: State)
    requires Known(s) && s.dispatcher.Polling? && (s.commands != [] ==> LogicWillLook(s)) && !Thought(s)
    ensures var s' := Step(s, Think);
            && Passed(s, s') && s'.dispatcher.Polling?
            && (|s'.commands| < |s.commands|
                || (|s'.commands| == |s.commands| && Phase(s'.logic) < Phase(s.logic)) || Thought(s'))
  {
  }

  lemma {:induction false} ThinksAll(s0: State, run: seq<Label>, s: State) returns (run': seq<Label>, s': State)
    requires Run(s0, run) == s && Passed(s0, s) && Known(s) && s.dispatcher.Polling?
    requires s.commands != [] ==> LogicWillLook(s)
    ensures Run(s0, run') == s' && Passed(s0, s') && s'.dispatcher.Polling? && Thought(s')
    decreases |s.commands|, if Thought(s) then 0 else Phase(s.logic)
  {
    hide Run, Step, Passed, Known, LogicWillLook, Phase;
    if Thought(s) {
      run', s' := run, s;
    } else {
      ThinksOne(s);
      StepKnows(s, Think);
      StepWillLook(s, Think);
      PhasePositive(s.logic);
      run', s' := GoOn(s0, run, s, Think);
      PassedAdd(s0, s, s');
      if Thought(s') {
        return;
      }
      run', s' := ThinksAll(s0, run', s');
    }
  }

  lemma PhasePositive(logic: Logic)
    ensures Phase(logic) > 0
  {
  }

  lemma ThoughtIsThrough(s: State, fd: nat, sid: nat)
    requires Thought(s) && s.dispatcher.Polling?
    ensures OnTheWay(s, fd) == [] && InHand(s.logic, sid) == []
  {
  }

  lemma {:induction false} RunAppend(s: State, a: seq<Label>, b: seq<Label>)
    ensures Run(s, a + b) == Run(Run(s, a), b)
    decreases |a|
  {
    hide Step;
    if a == [] {
      assert a + b == b;
    } else {
      assert (a + b)[0] == a[0] && (a + b)[1..] == a[1..] + b;
      RunAppend(Step(s, a[0]), a[1..], b);
    }
  }

  // Everything received comes to the queue of its session.
  lemma AllArrives(s: State, fd: nat, sid: nat) returns (run: seq<Label>, s': State)
    requires Known(s) && Single(s) && Distinct(s) && (s.commands != [] ==> LogicWillLook(s))
    requires fd in s.sessions && s.sessions[fd] == sid && sid < |s.objects| && Own(s, sid)
    ensures Run(s, run) == s' && Passed(s, s') && Known(s') && Single(s') && sid < |s'.objects|
    ensures Line(s'.workers, s'.objects[sid], sid) == s'.objects[sid].parsed
  {
    hide Run, Known, Single, Distinct, Own, LogicWillLook, HeldBy, For;
    RunNothing(s);
    run, s' := RoutesAll(s, [], s);
    RunIsSingle(s, run);
    RunWillLook(s, run);
    run, s' := ThinksAll(s, run, s');
    RunIsSingle(s, run);
    RunOwns(s, run, sid);
    ThoughtIsThrough(s', fd, sid);
    OwnIsLine(s', fd, sid);
  }

  lemma OwnIsLine(s: State, fd: nat, sid: nat)
    requires sid < |s.objects| && Own(s, sid) && fd in s.sessions && s.sessions[fd] == sid
    requires OnTheWay(s, fd) == [] && InHand(s.logic, sid) == []
    ensures Line(s.workers, s.objects[sid], sid) == s.objects[sid].parsed
  {
    assert Ordered(s, fd, sid);
    var line := Line(s.workers, s.objects[sid], sid);
    assert line + [] + [] == line;
  }

  /**
   From every reachable state there is a run in which all requests received for an open session that is not stuck
   have been handled, in the order received: routed, looked up, queued, claimed and taken, by any one worker.
   */
  lemma ReceivedCanBeHandled(workers: nat, labels: seq<Label>, fd: nat, w: nat) returns (run: seq<Label>)
    requires var s := Run(Start(workers), labels);
             && fd in s.sessions && s.sessions[fd] < |s.objects| && !s.objects[s.sessions[fd]].stuck
             && s.sessions[fd] !in Reusing(Start(workers), labels) && w < |s.workers|
    ensures var s := Run(Start(workers), labels);
            var s' := Run(s, run);
            var sid := s.sessions[fd];
            && sid < |s'.objects| && s'.objects[sid].parsed == s.objects[sid].parsed
            && s'.objects[sid].handled == s.objects[sid].parsed
  {
    hide Run, Start, Known, Single, Distinct, Own, Line, Advanced, Reusing;
    StartKnows(workers);
    StartsEmpty(workers);
    Reachable(workers, labels);
    var s := Run(Start(workers), labels);
    var sid := s.sessions[fd];
    RunOwns(Start(workers), labels, sid);
    var first, t := AllArrives(s, fd, sid);
    var rest, u := HandlesAll(t, sid, w);
    RunAppend(s, first, rest);
    run := first + rest;
  }

  lemma StartsEmpty(workers: nat)
    ensures Distinct(Start(workers)) && Start(workers).objects == []
  {
  }
}
