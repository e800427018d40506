/**
 What the pool gets done: in every reachable state the stored tasks can be run to the end, without a new submit and
 without a spurious wake-up, and the call of shutdown that waits can return.
 */
module PoolProgress {
  import opened Basics
  import opened BlockingQueue
  import opened Pool

  // Steps of workers and of calls that are under way.
  predicate GoesOn(l: Label) {
    l.Notify? || l.Pop? || l.Finish? || l.Shutdown?
  }

  ghost predicate Sound(s: State) {
    Inv(s) && OneWaits(s)
  }

  lemma StepSound(s: State, l: Label)
    requires Sound(s)
    ensures Sound(Step(s, l))
  {
    hide Step, InOrder, Once, Closers, LeftBehind, Covered, Roomed, OneWaits;
    StepInOrder(s, l);
    StepOnce(s, l);
    StepCloses(s, l);
    StepLeaves(s, l);
    StepCovers(s, l);
    StepRooms(s, l);
    StepOneWaits(s, l);
  }

  lemma ReachableSound(capacity: nat, n: nat, m: nat, c: nat, labels: seq<Label>)
    ensures Sound(Run(Start(capacity, n, m, c), labels)) && |Run(Start(capacity, n, m, c), labels).workers| == n
  {
    hide Run, Start, Inv, OneWaits;
    StartInv(capacity, n, m, c);
    StartSizes(capacity, n, m, c);
    RunKeepsInv(Start(capacity, n, m, c), labels);
    RunKeepsWorkers(Start(capacity, n, m, c), labels);
    StartOneWaits(capacity, n, m, c);
    RunOneWaits(Start(capacity, n, m, c), labels);
  }

  lemma StartOneWaits(capacity: nat, n: nat, m: nat, c: nat)
    ensures OneWaits(Start(capacity, n, m, c))
  {
    NoneWaits(Start(capacity, n, m, c).closers);
  }

  lemma {:induction false} RunSnoc(s: State, labels: seq<Label>, l: Label)
    ensures Run(s, labels + [l]) == Step(Run(s, labels), l)
    decreases |labels|
  {
    hide Step;
    if labels == [] {
      assert [] + [l] == [l] && [l][1..] == [];
    } else {
      assert (labels + [l])[1..] == labels[1..] + [l];
      RunSnoc(Step(s, labels[0]), labels[1..], l);
    }
  }

  // A run from s0 to s, in which nothing new is stored.
  ghost predicate Leads(s0: State, run: seq<Label>, s: State) {
    && Run(s0, run) == s && Sound(s)
    && |s.workers| == |s0.workers| && |s.closers| == |s0.closers| && s.accepted == s0.accepted
    && forall i | 0 <= i < |run| :: GoesOn(run[i])
  }

  lemma StoresNothing(s: State, l: Label)
    requires GoesOn(l)
    ensures var s' := Step(s, l);
            |s'.workers| == |s.workers| && |s'.closers| == |s.closers| && s'.accepted == s.accepted
  {
    hide Picks, PicksSubmitter;
  }

  lemma Go(s0: State, run: seq<Label>, s: State, l: Label) returns (run': seq<Label>, s': State)
    requires Leads(s0, run, s) && GoesOn(l)
    ensures Leads(s0, run', s') && s' == Step(s, l)
  {
    hide Step, Sound, Run;
    RunSnoc(s0, run, l);
    StepSound(s, l);
    StoresNothing(s, l);
    run', s' := run + [l], Step(s, l);
  }

  predicate IsRunning(w: Worker) {
    w.Running?
  }

  predicate IsWaking(c: Closer) {
    c.WakingWorkers?
  }

  // Every queued task is taken and run; nobody runs any more.
  ghost predicate Done(s: State) {
    s.queue == [] && forall w | 0 <= w < |s.workers| :: !s.workers[w].Running?
  }

  function Tasks(s: State): nat {
    2 * |s.queue| + Count(s.workers, IsRunning)
  }

  function Calls(s: State): nat {
    Count(s.submitters, IsNotifying) + Count(s.closers, IsWaking)
  }

  lemma FinishHelps(s: State, w: nat)
    requires w < |s.workers| && s.workers[w].Running?
    ensures var s' := Step(s, Finish(w)); Tasks(s') < Tasks(s) && s'.closers == s.closers
  {
    hide Count;
    CountUpdate(s.workers, w, Asking, IsRunning);
  }

  lemma PopHelps(s: State, w: nat, i: nat)
    requires w < |s.workers| && s.workers[w].Asking? && s.queue != [] && PicksSubmitter(s.submitters, i)
    ensures var s' := Step(s, Pop(w, i));
            && Tasks(s') < Tasks(s) && s'.closers == s.closers
            && s'.started == s.started + [s.queue[0]] && s'.workers == s.workers[w := Running(s.queue[0])]
  {
    hide Count, PicksSubmitter, WakeOneSubmitter;
    CountUpdate(s.workers, w, Running(s.queue[0]), IsRunning);
  }

  lemma PickOne(ss: seq<Submitter>) returns (i: nat)
    ensures PicksSubmitter(ss, i)
  {
    i := 0;
    if AnyBlocked(ss) {
      i :| 0 <= i < |ss| && ss[i].Blocked?;
    }
  }

  lemma NotifyHelps(s: State, i: nat, w: nat)
    requires i < |s.submitters| && s.submitters[i].Notifying? && w < |s.workers| && s.workers[w].Asleep?
    ensures var s' := Step(s, Notify(i, w));
            Tasks(s') == Tasks(s) && Calls(s') < Calls(s) && s'.closers == s.closers
  {
    hide Count;
    assert Picks(s.workers, w);
    CountUpdate(s.submitters, i, Idle, IsNotifying);
    CountUpdate(s.workers, w, Asking, IsRunning);
  }

  lemma {:induction false} WakeRunsNone(ws: seq<Worker>)
    ensures Count(WakeAll(ws), IsRunning) == Count(ws, IsRunning)
  {
    if ws != [] {
      assert WakeAll(ws)[1..] == WakeAll(ws[1..]);
      WakeRunsNone(ws[1..]);
    }
  }

  lemma WakeHelps(s: State, k: nat)
    requires k < |s.closers| && s.closers[k].WakingWorkers?
    ensures var s' := Step(s, Shutdown(k));
            && Tasks(s') == Tasks(s) && Calls(s') < Calls(s) && s'.closers == s.closers[k := WakingSubmitters]
  {
    hide Count, WakeAll;
    WakeRunsNone(s.workers);
    CountUpdate(s.closers, k, WakingSubmitters, IsWaking);
  }

  // With a task queued and nobody running, somebody asks, or is on the way.
  lemma SomebodyComes(s: State)
    requires Sound(s) && s.queue != [] && |s.workers| > 0
    requires forall w | 0 <= w < |s.workers| :: !s.workers[w].Running? && !s.workers[w].Asking?
    ensures s.workers[0].Asleep?
    ensures (exists i | 0 <= i < |s.submitters| :: s.submitters[i].Notifying?) || WorkersToBeWoken(s.closers)
  {
    hide InOrder, Once, Closers, Covered, Roomed, OneWaits;
    assert !AnyExited(s.workers);
    assert !s.workers[0].Exited?;
    CoveredMeans(s);
  }

  ghost predicate OthersStay(cs: seq<Closer>, cs': seq<Closer>) {
    |cs'| == |cs| && forall k | 0 <= k < |cs| :: cs[k].WakingWorkers? || cs'[k] == cs[k]
  }

  // One step towards the end, whoever can take it.
  lemma OneStep(s0: State, run: seq<Label>, s: State) returns (run': seq<Label>, s': State)
    requires Leads(s0, run, s) && |s.workers| > 0 && !Done(s)
    ensures Leads(s0, run', s') && OthersStay(s.closers, s'.closers)
    ensures Tasks(s') < Tasks(s) || (Tasks(s') == Tasks(s) && Calls(s') < Calls(s))
  {
    hide Step, Sound, Run, Tasks, Calls;
    if w :| 0 <= w < |s.workers| && s.workers[w].Running? {
      FinishHelps(s, w);
      run', s' := Go(s0, run, s, Finish(w));
    } else if w :| 0 <= w < |s.workers| && s.workers[w].Asking? {
      var i := PickOne(s.submitters);
      PopHelps(s, w, i);
      run', s' := Go(s0, run, s, Pop(w, i));
    } else {
      SomebodyComes(s);
      if i :| 0 <= i < |s.submitters| && s.submitters[i].Notifying? {
        NotifyHelps(s, i, 0);
        run', s' := Go(s0, run, s, Notify(i, 0));
      } else {
        var k :| 0 <= k < |s.closers| && s.closers[k].WakingWorkers?;
        WakeHelps(s, k);
        run', s' := Go(s0, run, s, Shutdown(k));
      }
    }
  }

  lemma {:induction false} GetsDone(s0: State, run: seq<Label>, s: State) returns (run': seq<Label>, s': State)
    requires Leads(s0, run, s) && |s.workers| > 0
    ensures Leads(s0, run', s') && Done(s') && OthersStay(s.closers, s'.closers)
    decreases Tasks(s), Calls(s)
  {
    hide Sound, Run, Tasks, Calls;
    if Done(s) {
      run', s' := run, s;
    } else {
      var s1;
      run', s1 := OneStep(s0, run, s);
      run', s' := GetsDone(s0, run', s1);
      assert OthersStay(s.closers, s'.closers) by { StayOn(s.closers, s1.closers, s'.closers); }
    }
  }

  lemma StayOn(a: seq<Closer>, b: seq<Closer>, c: seq<Closer>)
    requires OthersStay(a, b) && OthersStay(b, c)
    ensures OthersStay(a, c)
  {
  }

  lemma DoneMeans(s: State)
    requires Sound(s) && Done(s)
    ensures s.started == s.accepted && s.finished == multiset(s.accepted)
  {
    hide InHand, Closers, LeftBehind, Covered, Roomed, OneWaits;
    NothingInHand(s.workers);
    assert s.started + [] == s.started;
    assert s.finished + multiset{} == s.finished;
  }

  lemma Nowhere(s: State)
    requires Sound(s)
    ensures Leads(s, [], s)
  {
    hide Sound;
  }

  /**
   In every reachable state of a pool with a worker there is a run, without a submit and without a spurious
   wake-up, at whose end every task stored so far has been run exactly once.
   */
  lemma StoredTasksCanFinish(capacity: nat, n: nat, m: nat, c: nat, labels: seq<Label>) returns (run: seq<Label>)
    requires n > 0
    ensures forall i | 0 <= i < |run| :: GoesOn(run[i])
    ensures var s := Run(Start(capacity, n, m, c), labels);
            var s' := Run(s, run);
            && s'.queue == [] && s'.accepted == s.accepted && s'.started == s.accepted
            && s'.finished == multiset(s.accepted)
  {
    hide Run, Start, Sound;
    ReachableSound(capacity, n, m, c, labels);
    var s := Run(Start(capacity, n, m, c), labels);
    Nowhere(s);
    var s';
    run, s' := GetsDone(s, [], s);
    DoneMeans(s');
  }

  lemma Taken(s: State, w: nat, i: nat)
    requires w < |s.workers| && s.workers[w].Asking? && s.queue != [] && PicksSubmitter(s.submitters, i)
    ensures var s' := Step(s, Pop(w, i));
            && s'.started == s.started + [s.queue[0]] && s'.finished == s.finished && s'.queue == s.queue[1..]
            && s'.workers == s.workers[w := Running(s.queue[0])]
  {
    hide PicksSubmitter, WakeOneSubmitter;
  }

  /** Any worker that asks takes the task in front, and when it finishes that task has been run. */
  lemma AnyWorkerRuns(s: State, w: nat) returns (i: nat)
    requires w < |s.workers| && s.workers[w].Asking? && s.queue != []
    ensures var s' := Run(s, [Pop(w, i), Finish(w)]);
            && s'.started == s.started + [s.queue[0]] && s'.finished == s.finished + multiset{s.queue[0]}
            && s'.queue == s.queue[1..] && s'.workers == s.workers
  {
    hide Run;
    i := PickOne(s.submitters);
    Taken(s, w, i);
    var s1 := Step(s, Pop(w, i));
    RunOne(s, Pop(w, i), [Finish(w)]);
    RunOne(s1, Finish(w), []);
    RunNone(Step(s1, Finish(w)));
    assert [Pop(w, i)] + [Finish(w)] == [Pop(w, i), Finish(w)] && [Finish(w)] + [] == [Finish(w)];
    assert s.workers[w := Running(s.queue[0])][w := Asking] == s.workers;
  }

  // ---------- shutdown ----------

  lemma BeginsJoining(s0: State, run: seq<Label>, s: State, k: nat) returns (run': seq<Label>, s': State)
    requires Leads(s0, run, s) && k < |s.closers|
    requires Waits(s.closers[k]) || (s.closers[k].Before? && !s.shutdownDone)
    ensures Leads(s0, run', s') && (s'.closers[k].Joining? || s'.closers[k] == Returned(true))
    decreases Stage(s.closers[k])
  {
    hide Sound, Run, WakeAll, WakeAllSubmitters;
    if s.closers[k].Joining? || s.closers[k] == Returned(true) {
      run', s' := run, s;
    } else {
      ShutdownIs(s, k);
      run', s' := Go(s0, run, s, Shutdown(k));
      run', s' := BeginsJoining(s0, run', s', k);
    }
  }

  function Stage(c: Closer): nat {
    match c
    case Before => 4
    case Closing => 3
    case WakingWorkers => 2
    case WakingSubmitters => 1
    case Joining(_) => 0
    case Returned(_) => 0
  }

  // All tasks done, the queue closed, and the call k waits for the workers.
  ghost predicate Ending(s: State, k: nat) {
    Done(s) && s.closed && k < |s.closers| && s.closers[k].Joining?
  }

  lemma NobodySleeps(s: State, k: nat)
    requires Sound(s) && Ending(s, k)
    ensures forall w | 0 <= w < |s.workers| :: s.workers[w].Asking? || s.workers[w].Exited?
  {
    hide InOrder, Once, Closers, LeftBehind, Roomed, Count;
    if WorkersToBeWoken(s.closers) {
      var j :| 0 <= j < |s.closers| && s.closers[j].WakingWorkers?;
      TwoCounted(s.closers, j, k);
      assert false;
    }
    forall w | 0 <= w < |s.workers| ensures s.workers[w].Asking? || s.workers[w].Exited? {
      assert !AnyAsleep(s.workers);
    }
  }

  lemma LeavesOne(s: State, k: nat)
    requires Sound(s) && Ending(s, k) && s.closers[k].next < |s.workers|
    ensures var next := s.closers[k].next;
            if s.workers[next].Exited? then
              var s' := Step(s, Shutdown(k));
              Ending(s', k) && s'.closers[k].next == next + 1 && |s'.workers| == |s.workers|
            else
              var s' := Step(s, Pop(next, 0));
              Ending(s', k) && s'.closers == s.closers && s'.workers == s.workers[next := Exited]
  {
    hide InOrder, Once, Closers, LeftBehind, Covered, Roomed, OneWaits;
    NobodySleeps(s, k);
  }

  lemma {:induction false} AllLeave(s0: State, run: seq<Label>, s: State, k: nat)
    returns (run': seq<Label>, s': State)
    requires Leads(s0, run, s) && Ending(s, k)
    ensures Leads(s0, run', s') && k < |s'.closers| && s'.closers[k] == Returned(true)
    decreases |s.workers| - s.closers[k].next,
              if s.closers[k].next < |s.workers| && s.workers[s.closers[k].next].Exited? then 0 else 1
  {
    hide Sound, Run, Step, Ending;
    var next := Next(s, k);
    if next >= |s.workers| {
      Returns(s, k);
      run', s' := Go(s0, run, s, Shutdown(k));
    } else {
      LeavesOne(s, k);
      var s1;
      if s.workers[next].Exited? {
        run', s1 := Go(s0, run, s, Shutdown(k));
        var next1 := Next(s1, k);
      } else {
        run', s1 := Go(s0, run, s, Pop(next, 0));
        var next1 := Next(s1, k);
      }
      run', s' := AllLeave(s0, run', s1, k);
    }
  }

  lemma Next(s: State, k: nat) returns (next: nat)
    requires Ending(s, k)
    ensures k < |s.closers| && s.closers[k].Joining? && next == s.closers[k].next
  {
    next := s.closers[k].next;
  }

  lemma Returns(s: State, k: nat)
    requires k < |s.closers| && s.closers[k].Joining? && s.closers[k].next >= |s.workers|
    ensures var s' := Step(s, Shutdown(k)); k < |s'.closers| && s'.closers[k] == Returned(true)
  {
  }

  lemma JoiningIsClosed(s: State, k: nat)
    requires Sound(s) && k < |s.closers| && s.closers[k].Joining?
    ensures s.closed
  {
    hide InOrder, Once, LeftBehind, Covered, Roomed, OneWaits;
    CloserAt(s, k);
  }

  /**
   In every reachable state of a pool with a worker, the call of shutdown that waits, or the first one to come, has
   a run in which it returns.
   */
  lemma ShutdownCanReturn(capacity: nat, n: nat, m: nat, c: nat, labels: seq<Label>, k: nat)
    returns (run: seq<Label>)
    requires n > 0
    requires var s := Run(Start(capacity, n, m, c), labels);
             k < |s.closers| && (Waits(s.closers[k]) || (s.closers[k].Before? && !s.shutdownDone))
    ensures forall i | 0 <= i < |run| :: GoesOn(run[i])
    ensures var s' := Run(Run(Start(capacity, n, m, c), labels), run);
            k < |s'.closers| && s'.closers[k] == Returned(true)
  {
    hide Run, Start, Sound, Waits;
    ReachableSound(capacity, n, m, c, labels);
    var s := Run(Start(capacity, n, m, c), labels);
    Nowhere(s);
    var s';
    run, s' := BeginsJoining(s, [], s, k);
    if s'.closers[k].Joining? {
      var s1;
      run, s1 := GetsDone(s, run, s');
      JoiningIsClosed(s1, k);
      run, s' := AllLeave(s, run, s1, k);
    }
  }
}
