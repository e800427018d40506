/**
 The thread pool under every interleaving of submitters, closers and workers, with the two condition
 variables of its queue: `notify_one` wakes one sleeper if there is any, sleepers may also wake for no
 reason. Each label is one critical section or one notification; a label that is not enabled does nothing.
 */
module Pool {
  import opened Basics
  import opened BlockingQueue

  type Task = nat

  // Asking: about to take the mutex in pop; Asleep: waiting on not_empty.
  datatype Worker = Asking | Asleep | Running(task: Task) | Exited

  // Entering: about to take the mutex in push; Blocked: waiting on not_full; Notifying: the item is
  // stored, notify_one on not_empty is still to come.
  datatype Submitter = Idle | Entering(task: Task) | Blocked(task: Task) | Notifying

  // shutdown: claim, close the queue, wake all workers, wake all submitters, join worker after worker.
  datatype Closer = Before | Closing | WakingWorkers | WakingSubmitters | Joining(next: nat) | Returned(first: bool)

  datatype State = State(
    capacity: nat, queue: seq<Task>, closed: bool, shutdownDone: bool,
    workers: seq<Worker>, submitters: seq<Submitter>, closers: seq<Closer>,
    // bookkeeping of the proof: stored by push, taken by workers, and run to the end
    accepted: seq<Task>, started: seq<Task>, finished: multiset<Task>)

  datatype Label =
    | Submit(i: nat, task: Task) | Enter(i: nat) | Notify(i: nat, w: nat)
    | Pop(w: nat, i: nat) | Finish(w: nat) | SpuriousWorker(w: nat) | SpuriousSubmitter(i: nat)
    | Shutdown(k: nat)

  function Start(capacity: nat, workers: nat, submitters: nat, closers: nat): State {
    State(capacity, [], false, false, seq(workers, _ => Asking), seq(submitters, _ => Idle),
          seq(closers, _ => Before), [], [], multiset{})
  }

  function WakeWorker(w: Worker): Worker {
    if w.Asleep? then Asking else w
  }

  function WakeSubmitter(s: Submitter): Submitter {
    if s.Blocked? then Entering(s.task) else s
  }

  function WakeAll(ws: seq<Worker>): seq<Worker> {
    seq(|ws|, i requires 0 <= i < |ws| => WakeWorker(ws[i]))
  }

  function WakeAllSubmitters(ss: seq<Submitter>): seq<Submitter> {
    seq(|ss|, i requires 0 <= i < |ss| => WakeSubmitter(ss[i]))
  }

  ghost predicate AnyAsleep(ws: seq<Worker>) {
    exists w | 0 <= w < |ws| :: ws[w].Asleep?
  }

  ghost predicate AnyBlocked(ss: seq<Submitter>) {
    exists i | 0 <= i < |ss| :: ss[i].Blocked?
  }

  // notify_one: the label names a sleeper, unless there is none.
  ghost predicate Picks(ws: seq<Worker>, w: nat) {
    AnyAsleep(ws) ==> w < |ws| && ws[w].Asleep?
  }

  ghost predicate PicksSubmitter(ss: seq<Submitter>, i: nat) {
    AnyBlocked(ss) ==> i < |ss| && ss[i].Blocked?
  }

  ghost function WakeOne(ws: seq<Worker>, w: nat): seq<Worker> {
    if w < |ws| then ws[w := WakeWorker(ws[w])] else ws
  }

  ghost function WakeOneSubmitter(ss: seq<Submitter>, i: nat): seq<Submitter> {
    if i < |ss| then ss[i := WakeSubmitter(ss[i])] else ss
  }

  ghost function DoSubmit(s: State, i: nat, task: Task): State {
    if i < |s.submitters| && s.submitters[i].Idle? && !s.closed then
      s.(submitters := s.submitters[i := Entering(task)])
    else s
  }

  ghost function DoEnter(s: State, i: nat): State {
    if i < |s.submitters| && s.submitters[i].Entering? then
      var task := s.submitters[i].task;
      match PushResult(s.capacity, s.closed, |s.queue|)
      case Threw => s.(submitters := s.submitters[i := Idle])
      case MustWait => s.(submitters := s.submitters[i := Blocked(task)])
      case Stored =>
        s.(submitters := s.submitters[i := Notifying], queue := s.queue + [task], accepted := s.accepted + [task])
    else s
  }

  ghost function DoNotify(s: State, i: nat, w: nat): State {
    if i < |s.submitters| && s.submitters[i].Notifying? && Picks(s.workers, w) then
      s.(submitters := s.submitters[i := Idle], workers := WakeOne(s.workers, w))
    else s
  }

  ghost function DoPop(s: State, w: nat, i: nat): State {
    if w < |s.workers| && s.workers[w].Asking? then
      match PopResult(s.queue, s.closed)
      case Got(task) =>
        if PicksSubmitter(s.submitters, i) then
          s.(workers := s.workers[w := Running(task)], queue := s.queue[1..], started := s.started + [task],
             submitters := WakeOneSubmitter(s.submitters, i))
        else s
      case Drained => s.(workers := s.workers[w := Exited])
      case NothingYet => s.(workers := s.workers[w := Asleep])
    else s
  }

  ghost function DoFinish(s: State, w: nat): State {
    if w < |s.workers| && s.workers[w].Running? then
      s.(workers := s.workers[w := Asking], finished := s.finished + multiset{s.workers[w].task})
    else s
  }

  ghost function DoShutdown(s: State, k: nat): State {
    if k < |s.closers| then
      match s.closers[k]
      case Before =>
        if s.shutdownDone then s.(closers := s.closers[k := Returned(false)])
        else s.(shutdownDone := true, closers := s.closers[k := Closing])
      case Closing => s.(closed := true, closers := s.closers[k := WakingWorkers])
      case WakingWorkers => s.(workers := WakeAll(s.workers), closers := s.closers[k := WakingSubmitters])
      case WakingSubmitters => s.(submitters := WakeAllSubmitters(s.submitters), closers := s.closers[k := Joining(0)])
      case Joining(next) =>
        if next >= |s.workers| then s.(closers := s.closers[k := Returned(true)])
        else if s.workers[next].Exited? then s.(closers := s.closers[k := Joining(next + 1)])
        else s
      case Returned(_) => s
    else s
  }

  ghost function Step(s: State, l: Label): State {
    match l
    case Submit(i, task) => DoSubmit(s, i, task)
    case Enter(i) => DoEnter(s, i)
    case Notify(i, w) => DoNotify(s, i, w)
    case Pop(w, i) => DoPop(s, w, i)
    case Finish(w) => DoFinish(s, w)
    case SpuriousWorker(w) => s.(workers := WakeOne(s.workers, w))
    case SpuriousSubmitter(i) => s.(submitters := WakeOneSubmitter(s.submitters, i))
    case Shutdown(k) => DoShutdown(s, k)
  }

  ghost function Run(s: State, labels: seq<Label>): State
    decreases |labels|
  {
    if labels == [] then s else Run(Step(s, labels[0]), labels[1..])
  }

  // ---------- counting ----------

  function Count<T>(s: seq<T>, p: T -> bool): nat {
    if s == [] then 0 else (if p(s[0]) then 1 else 0) + Count(s[1..], p)
  }

  lemma {:induction false} CountUpdate<T>(s: seq<T>, i: nat, x: T, p: T -> bool)
    requires i < |s|
    ensures Count(s[i := x], p) == Count(s, p) - (if p(s[i]) then 1 else 0) + (if p(x) then 1 else 0)
  {
    if i > 0 {
      assert s[i := x][1..] == s[1..][i - 1 := x];
      CountUpdate(s[1..], i - 1, x, p);
    } else {
      assert s[i := x][1..] == s[1..];
    }
  }

  lemma {:induction false} CountPositive<T>(s: seq<T>, p: T -> bool)
    requires Count(s, p) > 0
    ensures exists i | 0 <= i < |s| :: p(s[i])
  {
    if p(s[0]) {
    } else {
      CountPositive(s[1..], p);
      var i :| 0 <= i < |s[1..]| && p(s[1..][i]);
      assert p(s[i + 1]);
    }
  }

  predicate IsAsking(w: Worker) {
    w.Asking?
  }

  predicate IsNotifying(s: Submitter) {
    s.Notifying?
  }

  predicate IsEntering(s: Submitter) {
    s.Entering?
  }

  function InHand(ws: seq<Worker>): multiset<Task> {
    if ws == [] then multiset{} else Held(ws[0]) + InHand(ws[1..])
  }

  function Held(w: Worker): multiset<Task> {
    if w.Running? then multiset{w.task} else multiset{}
  }

  lemma Regroup(a: multiset<Task>, b: multiset<Task>, c: multiset<Task>, d: multiset<Task>, e: multiset<Task>)
    requires b + c == d + e
    ensures (a + b) + c == (a + d) + e
  {
    assert (a + b) + c == a + (b + c);
  }

  lemma Swap(a: multiset<Task>, b: multiset<Task>, c: multiset<Task>)
    ensures (a + b) + c == (c + b) + a
  {
  }

  lemma {:induction false} InHandUpdate(ws: seq<Worker>, i: nat, x: Worker)
    requires i < |ws|
    ensures InHand(ws[i := x]) + Held(ws[i]) == InHand(ws) + Held(x)
  {
    if i > 0 {
      assert ws[i := x][1..] == ws[1..][i - 1 := x];
      InHandUpdate(ws[1..], i - 1, x);
      Regroup(Held(ws[0]), InHand(ws[1..][i - 1 := x]), Held(ws[i]), InHand(ws[1..]), Held(x));
    } else {
      assert ws[i := x][1..] == ws[1..];
      Swap(Held(x), InHand(ws[1..]), Held(ws[0]));
    }
  }

  lemma {:induction false} InHandWoken(ws: seq<Worker>)
    ensures InHand(WakeAll(ws)) == InHand(ws)
  {
    if ws != [] {
      assert WakeAll(ws)[1..] == WakeAll(ws[1..]);
      InHandWoken(ws[1..]);
    }
  }

  lemma {:induction false} NothingInHand(ws: seq<Worker>)
    requires forall i | 0 <= i < |ws| :: !ws[i].Running?
    ensures InHand(ws) == multiset{}
  {
    if ws != [] {
      NothingInHand(ws[1..]);
    }
  }

  // ---------- every task once ----------

  ghost predicate InOrder(s: State) {
    s.accepted == s.started + s.queue
  }

  ghost predicate Once(s: State) {
    multiset(s.started) == s.finished + InHand(s.workers)
  }

  lemma StepInOrder(s: State, l: Label)
    requires InOrder(s)
    ensures InOrder(Step(s, l))
  {
    hide WakeAll, WakeAllSubmitters, WakeOne, WakeOneSubmitter, Picks, PicksSubmitter;
    if l.Enter? && l.i < |s.submitters| && s.submitters[l.i].Entering? {
      Assoc(s.started, s.queue, [s.submitters[l.i].task]);
    } else if l.Pop? && s.queue != [] {
      Assoc(s.started, [s.queue[0]], s.queue[1..]);
      assert [s.queue[0]] + s.queue[1..] == s.queue;
    }
  }

  lemma Cancel(a: multiset<Task>, b: multiset<Task>, c: multiset<Task>)
    requires a + c == b + c
    ensures a == b
  {
    assert a == (a + c) - c && b == (b + c) - c;
  }

  // A worker that holds nothing takes x.
  lemma Takes(ws: seq<Worker>, w: nat, x: Worker)
    requires w < |ws| && ws[w].Asking?
    ensures InHand(ws[w := x]) == InHand(ws) + Held(x)
  {
    InHandUpdate(ws, w, x);
    assert InHand(ws[w := x]) + multiset{} == InHand(ws[w := x]);
  }

  lemma WakeOneInHand(ws: seq<Worker>, w: nat)
    ensures InHand(WakeOne(ws, w)) == InHand(ws)
  {
    if w < |ws| {
      InHandUpdate(ws, w, WakeWorker(ws[w]));
      Cancel(InHand(WakeOne(ws, w)), InHand(ws), Held(ws[w]));
    }
  }

  lemma PopOnce(s: State, w: nat, i: nat)
    requires Once(s)
    ensures Once(DoPop(s, w, i))
  {
    hide InHand, PicksSubmitter, WakeOneSubmitter;
    if w < |s.workers| && s.workers[w].Asking? {
      if s.queue != [] {
        Takes(s.workers, w, Running(s.queue[0]));
        assert multiset(s.started + [s.queue[0]]) == multiset(s.started) + multiset{s.queue[0]};
      } else {
        Takes(s.workers, w, Exited);
        Takes(s.workers, w, Asleep);
        assert InHand(s.workers) + multiset{} == InHand(s.workers);
      }
    }
  }

  lemma FinishOnce(s: State, w: nat)
    requires Once(s)
    ensures Once(DoFinish(s, w))
  {
    hide InHand;
    if w < |s.workers| && s.workers[w].Running? {
      var t := multiset{s.workers[w].task};
      InHandUpdate(s.workers, w, Asking);
      assert InHand(s.workers[w := Asking]) + t == InHand(s.workers) + multiset{} == InHand(s.workers);
      Swap(s.finished, t, InHand(s.workers[w := Asking]));
      Swap(InHand(s.workers[w := Asking]), t, s.finished);
    }
  }

  lemma StepOnce(s: State, l: Label)
    requires Once(s)
    ensures Once(Step(s, l))
  {
    hide InHand, DoPop, DoFinish, WakeAll, WakeOne, WakeOneSubmitter, WakeAllSubmitters, Picks, PicksSubmitter, Full;
    match l {
      case Pop(w, i) => PopOnce(s, w, i);
      case Finish(w) => FinishOnce(s, w);
      case Notify(_, w) => WakeOneInHand(s.workers, w);
      case SpuriousWorker(w) => WakeOneInHand(s.workers, w);
      case Shutdown(_) => InHandWoken(s.workers);
      case Submit(_, _) =>
      case Enter(_) =>
      case SpuriousSubmitter(_) =>
    }
  }

  // ---------- closing ----------

  ghost predicate AnyExited(ws: seq<Worker>) {
    exists w | 0 <= w < |ws| :: ws[w].Exited?
  }

  ghost predicate AllExited(ws: seq<Worker>, n: nat) {
    forall w | 0 <= w < |ws| && w < n :: ws[w].Exited?
  }

  ghost predicate CloserOk(s: State, c: Closer) {
    match c
    case Before => true
    case Closing => s.shutdownDone
    case WakingWorkers => s.closed
    case WakingSubmitters => s.closed
    case Joining(next) => s.closed && AllExited(s.workers, next)
    case Returned(first) => if first then s.closed && AllExited(s.workers, |s.workers|) else s.shutdownDone
  }

  ghost predicate Closers(s: State) {
    forall k | 0 <= k < |s.closers| :: CloserOk(s, s.closers[k])
  }

  // Nothing more can happen once a worker has left.
  ghost predicate LeftBehind(s: State) {
    AnyExited(s.workers) ==> s.closed && s.queue == []
  }

  ghost predicate ExitsKept(ws: seq<Worker>, ws': seq<Worker>) {
    |ws'| == |ws| && forall w | 0 <= w < |ws| :: ws[w].Exited? ==> ws'[w].Exited?
  }

  lemma StepKeepsExits(s: State, l: Label)
    ensures ExitsKept(s.workers, Step(s, l).workers)
    ensures s.closed ==> Step(s, l).closed
    ensures s.shutdownDone ==> Step(s, l).shutdownDone
    ensures !l.Shutdown? ==> Step(s, l).closers == s.closers
    ensures Step(s, l).capacity == s.capacity
  {
    hide Picks, PicksSubmitter, WakeOneSubmitter, WakeAllSubmitters, Full;
  }

  lemma CloserStays(s: State, s': State, c: Closer)
    requires CloserOk(s, c) && ExitsKept(s.workers, s'.workers)
    requires (s.closed ==> s'.closed) && (s.shutdownDone ==> s'.shutdownDone)
    ensures CloserOk(s', c)
  {
  }

  lemma ShutdownMoves(s: State, k: nat)
    requires Closers(s) && k < |s.closers|
    ensures var s' := DoShutdown(s, k);
            |s'.closers| == |s.closers| && CloserOk(s', s'.closers[k])
            && forall j | 0 <= j < |s.closers| :: j != k ==> s'.closers[j] == s.closers[j]
  {
    hide WakeAll, WakeAllSubmitters, Closers;
    assert CloserOk(s, s.closers[k]) by { CloserAt(s, k); }
  }

  lemma CloserAt(s: State, k: nat)
    requires Closers(s) && k < |s.closers|
    ensures CloserOk(s, s.closers[k])
  {
  }

  lemma StepCloses(s: State, l: Label)
    requires Closers(s)
    ensures Closers(Step(s, l))
  {
    hide Step, CloserOk, ExitsKept, DoShutdown;
    var s' := Step(s, l);
    StepKeepsExits(s, l);
    if l.Shutdown? && l.k < |s.closers| {
      ShutdownMoves(s, l.k);
      ShutdownIs(s, l.k);
    } else if l.Shutdown? {
      NoCloser(s, l.k);
    }
    forall j | 0 <= j < |s'.closers| && !(l.Shutdown? && j == l.k) ensures CloserOk(s', s'.closers[j]) {
      CloserStays(s, s', s.closers[j]);
    }
  }

  lemma ShutdownIs(s: State, k: nat)
    ensures Step(s, Shutdown(k)) == DoShutdown(s, k)
  {
    hide DoShutdown;
  }

  lemma NoCloser(s: State, k: nat)
    requires k >= |s.closers|
    ensures Step(s, Shutdown(k)) == s
  {
  }

  lemma WakeKeepsExits(ws: seq<Worker>, w: nat)
    ensures AnyExited(WakeOne(ws, w)) ==> AnyExited(ws)
    ensures AnyExited(WakeAll(ws)) ==> AnyExited(ws)
  {
    if AnyExited(WakeOne(ws, w)) {
      var v :| 0 <= v < |ws| && WakeOne(ws, w)[v].Exited?;
      assert ws[v].Exited?;
    }
    if AnyExited(WakeAll(ws)) {
      var v :| 0 <= v < |ws| && WakeAll(ws)[v].Exited?;
      assert ws[v].Exited?;
    }
  }

  lemma OneMoreExit(ws: seq<Worker>, w: nat, x: Worker)
    requires w < |ws| && !ws[w].Exited?
    ensures !x.Exited? ==> (AnyExited(ws[w := x]) ==> AnyExited(ws))
  {
    if AnyExited(ws[w := x]) && !x.Exited? {
      var v :| 0 <= v < |ws| && ws[w := x][v].Exited?;
      assert ws[v].Exited?;
    }
  }

  lemma PopLeaves(s: State, w: nat, i: nat)
    requires LeftBehind(s)
    ensures LeftBehind(DoPop(s, w, i))
  {
    hide AnyExited, PicksSubmitter, WakeOneSubmitter;
    if w < |s.workers| && s.workers[w].Asking? {
      OneMoreExit(s.workers, w, Asleep);
      if s.queue != [] {
        OneMoreExit(s.workers, w, Running(s.queue[0]));
      }
    }
  }

  lemma StepLeaves(s: State, l: Label)
    requires LeftBehind(s)
    ensures LeftBehind(Step(s, l))
  {
    hide AnyExited, DoPop, WakeOne, WakeAll, WakeOneSubmitter, WakeAllSubmitters, Picks, PicksSubmitter, Full;
    match l {
      case Pop(w, i) => PopLeaves(s, w, i);
      case Finish(w) =>
        if w < |s.workers| && s.workers[w].Running? {
          OneMoreExit(s.workers, w, Asking);
        }
      case Notify(_, w) => WakeKeepsExits(s.workers, w);
      case SpuriousWorker(w) => WakeKeepsExits(s.workers, w);
      case Shutdown(_) => WakeKeepsExits(s.workers, 0);
      case Submit(_, _) =>
      case Enter(_) =>
      case SpuriousSubmitter(_) =>
    }
  }

  // ---------- nobody sleeps over a task ----------

  ghost predicate WorkersToBeWoken(cs: seq<Closer>) {
    exists k | 0 <= k < |cs| :: cs[k].WakingWorkers?
  }

  // A sleeper means that there are no more tasks than workers and notifications on their way to them.
  ghost predicate Covered(s: State) {
    AnyAsleep(s.workers) ==>
      if s.closed then WorkersToBeWoken(s.closers)
      else |s.queue| <= Count(s.workers, IsAsking) + Count(s.submitters, IsNotifying)
  }

  lemma AsleepAfter(ws: seq<Worker>, w: nat, x: Worker)
    requires w < |ws| && !x.Asleep?
    ensures AnyAsleep(ws[w := x]) ==> AnyAsleep(ws)
  {
    if AnyAsleep(ws[w := x]) {
      var v :| 0 <= v < |ws| && ws[w := x][v].Asleep?;
      assert ws[v].Asleep?;
    }
  }

  lemma WokenOne(ws: seq<Worker>, w: nat)
    ensures AnyAsleep(WakeOne(ws, w)) ==> AnyAsleep(ws)
    ensures Count(WakeOne(ws, w), IsAsking) == Count(ws, IsAsking) + if w < |ws| && ws[w].Asleep? then 1 else 0
  {
    if w < |ws| {
      AsleepAfter(ws, w, WakeWorker(ws[w]));
      CountUpdate(ws, w, WakeWorker(ws[w]), IsAsking);
    }
  }

  lemma WokenAll(ws: seq<Worker>)
    ensures !AnyAsleep(WakeAll(ws))
  {
  }

  lemma WokenSubmitter(ss: seq<Submitter>, i: nat)
    ensures Count(WakeOneSubmitter(ss, i), IsNotifying) == Count(ss, IsNotifying)
  {
    if i < |ss| {
      CountUpdate(ss, i, WakeSubmitter(ss[i]), IsNotifying);
    }
  }

  lemma {:induction false} WokenSubmitters(ss: seq<Submitter>)
    ensures Count(WakeAllSubmitters(ss), IsNotifying) == Count(ss, IsNotifying)
  {
    if ss != [] {
      assert WakeAllSubmitters(ss)[1..] == WakeAllSubmitters(ss[1..]);
      WokenSubmitters(ss[1..]);
    }
  }

  lemma SubmitCovers(s: State, i: nat, task: Task)
    requires Covered(s)
    ensures Covered(DoSubmit(s, i, task))
  {
    hide Count, AnyAsleep;
    if i < |s.submitters| {
      CountUpdate(s.submitters, i, Entering(task), IsNotifying);
    }
  }

  lemma EnterCovers(s: State, i: nat)
    requires Covered(s)
    ensures Covered(DoEnter(s, i))
  {
    hide Count, AnyAsleep, Full;
    if i < |s.submitters| && s.submitters[i].Entering? {
      CountUpdate(s.submitters, i, Idle, IsNotifying);
      CountUpdate(s.submitters, i, Blocked(s.submitters[i].task), IsNotifying);
      CountUpdate(s.submitters, i, Notifying, IsNotifying);
    }
  }

  lemma NotifyCovers(s: State, i: nat, w: nat)
    requires Covered(s)
    ensures Covered(DoNotify(s, i, w))
  {
    hide Count, AnyAsleep, WakeOne;
    if i < |s.submitters| {
      CountUpdate(s.submitters, i, Idle, IsNotifying);
      WokenOne(s.workers, w);
    }
  }

  lemma PopCovers(s: State, w: nat, i: nat)
    requires Covered(s)
    ensures Covered(DoPop(s, w, i))
  {
    hide Count, AnyAsleep, PicksSubmitter, WakeOneSubmitter;
    if w < |s.workers| && s.workers[w].Asking? {
      WokenSubmitter(s.submitters, i);
      CountUpdate(s.workers, w, Exited, IsAsking);
      AsleepAfter(s.workers, w, Exited);
      if s.queue != [] {
        CountUpdate(s.workers, w, Running(s.queue[0]), IsAsking);
        AsleepAfter(s.workers, w, Running(s.queue[0]));
      }
    }
  }

  lemma FinishCovers(s: State, w: nat)
    requires Covered(s)
    ensures Covered(DoFinish(s, w))
  {
    hide Count, AnyAsleep;
    if w < |s.workers| {
      CountUpdate(s.workers, w, Asking, IsAsking);
      AsleepAfter(s.workers, w, Asking);
    }
  }

  lemma StillToBeWoken(cs: seq<Closer>, k: nat, c: Closer)
    requires k < |cs| && WorkersToBeWoken(cs) && !cs[k].WakingWorkers?
    ensures WorkersToBeWoken(cs[k := c])
  {
    var j :| 0 <= j < |cs| && cs[j].WakingWorkers?;
    assert cs[k := c][j].WakingWorkers?;
  }

  lemma ShutdownCovers(s: State, k: nat)
    requires Covered(s)
    ensures Covered(DoShutdown(s, k))
  {
    hide Count, AnyAsleep, WakeAll, WakeAllSubmitters;
    WokenAll(s.workers);
    WokenSubmitters(s.submitters);
    if k < |s.closers| {
      var s' := DoShutdown(s, k);
      if s.closers[k].Closing? {
        assert s'.closers[k].WakingWorkers?;
      } else if WorkersToBeWoken(s.closers) && !s.closers[k].WakingWorkers? {
        StillToBeWoken(s.closers, k, s'.closers[k]);
      }
    }
  }

  lemma StepCovers(s: State, l: Label)
    requires Covered(s)
    ensures Covered(Step(s, l))
  {
    hide Covered, DoSubmit, DoEnter, DoNotify, DoPop, DoFinish, DoShutdown, WakeOne, WakeOneSubmitter;
    match l {
      case Submit(i, task) => SubmitCovers(s, i, task);
      case Enter(i) => EnterCovers(s, i);
      case Notify(i, w) => NotifyCovers(s, i, w);
      case Pop(w, i) => PopCovers(s, w, i);
      case Finish(w) => FinishCovers(s, w);
      case SpuriousWorker(w) => SpuriousCovers(s, w, 0);
      case SpuriousSubmitter(i) => SpuriousCovers(s, 0, i);
      case Shutdown(k) => ShutdownCovers(s, k);
    }
  }

  lemma SpuriousCovers(s: State, w: nat, i: nat)
    requires Covered(s)
    ensures Covered(s.(workers := WakeOne(s.workers, w)))
    ensures Covered(s.(submitters := WakeOneSubmitter(s.submitters, i)))
  {
    hide Count, AnyAsleep, WakeOne, WakeOneSubmitter;
    WokenOne(s.workers, w);
    WokenSubmitter(s.submitters, i);
  }

  // ---------- nobody waits beside free room ----------

  ghost predicate SubmittersToBeWoken(cs: seq<Closer>) {
    exists k | 0 <= k < |cs| :: cs[k].WakingWorkers? || cs[k].WakingSubmitters?
  }

  // A blocked submitter means that there is no more room than submitters on their way to it.
  ghost predicate Roomed(s: State) {
    && Fits(s.capacity, |s.queue|)
    && (AnyBlocked(s.submitters) ==>
          if s.closed then SubmittersToBeWoken(s.closers)
          else s.capacity != 0 && s.capacity - |s.queue| <= Count(s.submitters, IsEntering))
  }

  lemma BlockedAfter(ss: seq<Submitter>, i: nat, x: Submitter)
    requires i < |ss| && !x.Blocked?
    ensures AnyBlocked(ss[i := x]) ==> AnyBlocked(ss)
  {
    if AnyBlocked(ss[i := x]) {
      var v :| 0 <= v < |ss| && ss[i := x][v].Blocked?;
      assert ss[v].Blocked?;
    }
  }

  lemma SubmitterWoken(ss: seq<Submitter>, i: nat)
    ensures AnyBlocked(WakeOneSubmitter(ss, i)) ==> AnyBlocked(ss)
    ensures Count(WakeOneSubmitter(ss, i), IsEntering)
         == Count(ss, IsEntering) + if i < |ss| && ss[i].Blocked? then 1 else 0
  {
    if i < |ss| {
      BlockedAfter(ss, i, WakeSubmitter(ss[i]));
      CountUpdate(ss, i, WakeSubmitter(ss[i]), IsEntering);
    }
  }

  lemma NoneBlocked(ss: seq<Submitter>)
    ensures !AnyBlocked(WakeAllSubmitters(ss))
  {
  }

  lemma SubmitRooms(s: State, i: nat, task: Task)
    requires Roomed(s)
    ensures Roomed(DoSubmit(s, i, task))
  {
    hide Count, AnyBlocked;
    if i < |s.submitters| {
      CountUpdate(s.submitters, i, Entering(task), IsEntering);
      BlockedAfter(s.submitters, i, Entering(task));
    }
  }

  lemma EnterRooms(s: State, i: nat)
    requires Roomed(s)
    ensures Roomed(DoEnter(s, i))
  {
    hide Count, AnyBlocked;
    if i < |s.submitters| && s.submitters[i].Entering? {
      BlockedAfter(s.submitters, i, Idle);
      BlockedAfter(s.submitters, i, Notifying);
      CountUpdate(s.submitters, i, Notifying, IsEntering);
    }
  }

  lemma NotifyRooms(s: State, i: nat, w: nat)
    requires Roomed(s)
    ensures Roomed(DoNotify(s, i, w))
  {
    hide Count, AnyBlocked, Picks, WakeOne;
    if i < |s.submitters| {
      CountUpdate(s.submitters, i, Idle, IsEntering);
      BlockedAfter(s.submitters, i, Idle);
    }
  }

  lemma PopRooms(s: State, w: nat, i: nat)
    requires Roomed(s)
    ensures Roomed(DoPop(s, w, i))
  {
    hide Count, AnyBlocked, WakeOneSubmitter;
    SubmitterWoken(s.submitters, i);
  }

  lemma StillBlockedToBeWoken(cs: seq<Closer>, k: nat, c: Closer)
    requires k < |cs| && SubmittersToBeWoken(cs)
    requires (!cs[k].WakingWorkers? || c.WakingSubmitters?) && !cs[k].WakingSubmitters?
    ensures SubmittersToBeWoken(cs[k := c])
  {
    var j :| 0 <= j < |cs| && (cs[j].WakingWorkers? || cs[j].WakingSubmitters?);
    var cs' := cs[k := c];
    if j != k {
      assert cs'[j] == cs[j];
    } else {
      assert cs'[k] == c;
    }
  }

  lemma ShutdownRooms(s: State, k: nat)
    requires Roomed(s)
    ensures Roomed(DoShutdown(s, k))
  {
    hide Count, AnyBlocked, WakeAll, WakeAllSubmitters;
    NoneBlocked(s.submitters);
    if k < |s.closers| {
      var s' := DoShutdown(s, k);
      if s.closers[k].Closing? {
        assert s'.closers[k].WakingWorkers?;
      } else if SubmittersToBeWoken(s.closers) && !s.closers[k].WakingSubmitters? {
        StillBlockedToBeWoken(s.closers, k, s'.closers[k]);
      }
    }
  }

  lemma FinishRooms(s: State, w: nat)
    requires Roomed(s)
    ensures Roomed(DoFinish(s, w)) && Roomed(s.(workers := WakeOne(s.workers, w)))
  {
    hide Count, AnyBlocked, WakeOne;
  }

  lemma StepRooms(s: State, l: Label)
    requires Roomed(s)
    ensures Roomed(Step(s, l))
  {
    hide Roomed, DoSubmit, DoEnter, DoNotify, DoPop, DoFinish, DoShutdown, WakeOne, WakeOneSubmitter;
    match l {
      case Submit(i, task) => SubmitRooms(s, i, task);
      case Enter(i) => EnterRooms(s, i);
      case Notify(i, w) => NotifyRooms(s, i, w);
      case Pop(w, i) => PopRooms(s, w, i);
      case Finish(w) => FinishRooms(s, w);
      case SpuriousWorker(w) => FinishRooms(s, w);
      case SpuriousSubmitter(i) => SpuriousRooms(s, i);
      case Shutdown(k) => ShutdownRooms(s, k);
    }
  }

  lemma SpuriousRooms(s: State, i: nat)
    requires Roomed(s)
    ensures Roomed(s.(submitters := WakeOneSubmitter(s.submitters, i)))
  {
    hide Count, AnyBlocked, WakeOneSubmitter;
    SubmitterWoken(s.submitters, i);
  }

  // ---------- all runs ----------

  ghost predicate Inv(s: State) {
    InOrder(s) && Once(s) && Closers(s) && LeftBehind(s) && Covered(s) && Roomed(s)
  }

  lemma {:induction false} AllAsking(ws: seq<Worker>)
    requires forall w | 0 <= w < |ws| :: ws[w] == Asking
    ensures InHand(ws) == multiset{}
  {
    NothingInHand(ws);
  }

  lemma StartInv(capacity: nat, workers: nat, submitters: nat, closers: nat)
    ensures Inv(Start(capacity, workers, submitters, closers))
  {
    AllAsking(Start(capacity, workers, submitters, closers).workers);
  }

  lemma {:induction false} RunKeepsInv(s: State, labels: seq<Label>)
    requires Inv(s)
    ensures Inv(Run(s, labels))
    decreases |labels|
  {
    hide InOrder, Once, Closers, LeftBehind, Covered, Roomed, Step;
    if labels != [] {
      StepInOrder(s, labels[0]);
      StepOnce(s, labels[0]);
      StepCloses(s, labels[0]);
      StepLeaves(s, labels[0]);
      StepCovers(s, labels[0]);
      StepRooms(s, labels[0]);
      RunKeepsInv(Step(s, labels[0]), labels[1..]);
    }
  }

  lemma ShutdownMeans(s: State, k: nat)
    requires InOrder(s) && Once(s) && Closers(s) && LeftBehind(s)
    requires k < |s.closers| && s.closers[k] == Returned(true) && s.workers != []
    ensures s.queue == [] && s.started == s.accepted && s.finished == multiset(s.accepted) && s.closed
  {
    hide InHand;
    CloserAt(s, k);
    assert s.workers[0].Exited?;
    NothingInHand(s.workers);
    assert s.started + [] == s.started;
    assert s.finished + multiset{} == s.finished;
  }

  /**
   When the shutdown that came first has returned, every task a submit has stored has been run exactly
   once, and no worker, task or room is left, in every interleaving.
   */
  lemma EveryTaskRunsOnce(capacity: nat, n: nat, m: nat, c: nat, labels: seq<Label>, k: nat)
    requires n > 0 && k < c
    ensures var s := Run(Start(capacity, n, m, c), labels);
            k < |s.closers| && s.closers[k] == Returned(true)
            ==> s.queue == [] && s.started == s.accepted && s.finished == multiset(s.accepted)
  {
    hide Run, Start, InOrder, Once, Closers, LeftBehind, Covered, Roomed;
    var s0 := Start(capacity, n, m, c);
    StartInv(capacity, n, m, c);
    RunKeepsInv(s0, labels);
    RunKeepsWorkers(s0, labels);
    StartSizes(capacity, n, m, c);
    var s := Run(s0, labels);
    if k < |s.closers| && s.closers[k] == Returned(true) {
      ShutdownMeans(s, k);
    }
  }

  lemma StartSizes(capacity: nat, n: nat, m: nat, c: nat)
    ensures |Start(capacity, n, m, c).workers| == n && Start(capacity, n, m, c).capacity == capacity
  {
  }

  lemma {:induction false} RunKeepsWorkers(s: State, labels: seq<Label>)
    ensures |Run(s, labels).workers| == |s.workers| && Run(s, labels).capacity == s.capacity
    decreases |labels|
  {
    hide Step;
    if labels != [] {
      StepKeepsExits(s, labels[0]);
      RunKeepsWorkers(Step(s, labels[0]), labels[1..]);
    }
  }

  /** Started tasks are a prefix of the stored ones, and a worker holds each that has not finished. */
  lemma StartedInOrder(capacity: nat, n: nat, m: nat, c: nat, labels: seq<Label>)
    ensures var s := Run(Start(capacity, n, m, c), labels);
            && s.accepted == s.started + s.queue
            && multiset(s.started) == s.finished + InHand(s.workers)
            && Fits(capacity, |s.queue|)
  {
    hide Run, Start, InHand, Closers, LeftBehind, Covered, AnyBlocked;
    StartInv(capacity, n, m, c);
    RunKeepsInv(Start(capacity, n, m, c), labels);
    RunKeepsWorkers(Start(capacity, n, m, c), labels);
    StartSizes(capacity, n, m, c);
  }

  /** In every reachable state: once a worker has left, the queue is closed and empty, and stays so. */
  lemma ExitIsFinal(capacity: nat, n: nat, m: nat, c: nat, labels: seq<Label>, more: seq<Label>)
    ensures var s := Run(Start(capacity, n, m, c), labels);
            AnyExited(s.workers) ==> s.closed && s.queue == []
                                     && Run(s, more).closed && Run(s, more).queue == []
                                     && Run(s, more).accepted == s.accepted
  {
    hide Run, Start, InOrder, Once, Closers, Covered, Roomed, AnyExited;
    StartInv(capacity, n, m, c);
    var s := Run(Start(capacity, n, m, c), labels);
    RunKeepsInv(Start(capacity, n, m, c), labels);
    if AnyExited(s.workers) {
      ClosedAndEmpty(s, more);
    }
  }

  lemma {:induction false} ClosedAndEmpty(s: State, labels: seq<Label>)
    requires s.closed && s.queue == []
    ensures var s' := Run(s, labels); s'.closed && s'.queue == [] && s'.accepted == s.accepted
    decreases |labels|
  {
    hide WakeAll, WakeOne, WakeAllSubmitters, WakeOneSubmitter, Picks, PicksSubmitter;
    if labels != [] {
      ClosedStep(s, labels[0]);
      ClosedAndEmpty(Step(s, labels[0]), labels[1..]);
    }
  }

  lemma ClosedStep(s: State, l: Label)
    requires s.closed && s.queue == []
    ensures var s' := Step(s, l); s'.closed && s'.queue == [] && s'.accepted == s.accepted
  {
    hide WakeAll, WakeOne, WakeAllSubmitters, WakeOneSubmitter, Picks, PicksSubmitter;
  }

  // Somebody can still take the task, or is about to be told.
  ghost predicate OnTheWay(s: State) {
    || (exists w | 0 <= w < |s.workers| :: s.workers[w].Asking?)
    || (exists i | 0 <= i < |s.submitters| :: s.submitters[i].Notifying?)
    || WorkersToBeWoken(s.closers)
  }

  lemma CoveredMeans(s: State)
    requires Covered(s) && s.queue != [] && AnyAsleep(s.workers)
    ensures OnTheWay(s)
  {
    if !s.closed {
      if Count(s.workers, IsAsking) > 0 {
        CountPositive(s.workers, IsAsking);
      } else {
        CountPositive(s.submitters, IsNotifying);
      }
    }
  }

  /**
   No interleaving leaves a task queued with a worker asleep and nobody on the way: a worker about to look,
   a notification still to be given, or the wake-up of all at closing. In particular not with all asleep.
   */
  lemma NoTaskStranded(capacity: nat, n: nat, m: nat, c: nat, labels: seq<Label>)
    ensures var s := Run(Start(capacity, n, m, c), labels);
            s.queue != [] && AnyAsleep(s.workers) ==> OnTheWay(s)
  {
    hide Run, Start, InOrder, Once, Closers, LeftBehind, Covered, Roomed, AnyAsleep, OnTheWay;
    StartInv(capacity, n, m, c);
    var s := Run(Start(capacity, n, m, c), labels);
    RunKeepsInv(Start(capacity, n, m, c), labels);
    if s.queue != [] && AnyAsleep(s.workers) {
      CoveredMeans(s);
    }
  }

  lemma RoomedMeans(s: State)
    requires Roomed(s) && !Full(s.capacity, |s.queue|) && AnyBlocked(s.submitters)
    ensures (exists i | 0 <= i < |s.submitters| :: s.submitters[i].Entering?) || SubmittersToBeWoken(s.closers)
  {
    if !s.closed {
      CountPositive(s.submitters, IsEntering);
    }
  }

  /** Nor is a submitter left blocked beside free room. */
  lemma NoSubmitterStranded(capacity: nat, n: nat, m: nat, c: nat, labels: seq<Label>)
    ensures var s := Run(Start(capacity, n, m, c), labels);
            !Full(s.capacity, |s.queue|) && AnyBlocked(s.submitters)
            ==> (exists i | 0 <= i < |s.submitters| :: s.submitters[i].Entering?) || SubmittersToBeWoken(s.closers)
  {
    hide Run, Start, InOrder, Once, Closers, LeftBehind, Covered, Roomed, AnyBlocked, SubmittersToBeWoken, Full;
    StartInv(capacity, n, m, c);
    var s := Run(Start(capacity, n, m, c), labels);
    RunKeepsInv(Start(capacity, n, m, c), labels);
    if !Full(s.capacity, |s.queue|) && AnyBlocked(s.submitters) {
      RoomedMeans(s);
    }
  }

  lemma RunOne(s: State, l: Label, rest: seq<Label>)
    ensures Run(s, [l] + rest) == Run(Step(s, l), rest)
  {
    hide Step;
    assert ([l] + rest)[1..] == rest;
  }

  // ---------- several calls of shutdown ----------

  // The call has come first: it closes the queue and waits for the workers.
  predicate Waits(c: Closer) {
    !c.Before? && c != Returned(false)
  }

  ghost predicate OneWaits(s: State) {
    && Count(s.closers, Waits) == (if s.shutdownDone then 1 else 0)
    && (forall k | 0 <= k < |s.closers| :: s.closers[k].Before? || s.shutdownDone)
  }

  lemma OthersShutNothing(s: State, l: Label)
    requires !l.Shutdown?
    ensures Step(s, l).closers == s.closers && Step(s, l).shutdownDone == s.shutdownDone
  {
    hide Picks, PicksSubmitter, WakeOne, WakeOneSubmitter;
  }

  lemma StepOneWaits(s: State, l: Label)
    requires OneWaits(s)
    ensures OneWaits(Step(s, l))
  {
    hide Step, WakeAll, WakeAllSubmitters, Count;
    if l.Shutdown? {
      ShutdownChangesOne(s, l.k);
      if l.k < |s.closers| {
        CountUpdate(s.closers, l.k, DoShutdown(s, l.k).closers[l.k], Waits);
      }
    } else {
      OthersShutNothing(s, l);
    }
  }

  lemma ShutdownChangesOne(s: State, k: nat)
    ensures var s' := Step(s, Shutdown(k));
            && s' == DoShutdown(s, k) && |s'.closers| == |s.closers|
            && (k < |s.closers| ==> s'.closers == s.closers[k := s'.closers[k]])
  {
    hide WakeAll, WakeAllSubmitters;
  }

  lemma {:induction false} RunOneWaits(s: State, labels: seq<Label>)
    requires OneWaits(s)
    ensures OneWaits(Run(s, labels))
    decreases |labels|
  {
    hide Step, OneWaits;
    if labels != [] {
      StepOneWaits(s, labels[0]);
      RunOneWaits(Step(s, labels[0]), labels[1..]);
    }
  }

  /**
   Of all calls of shutdown exactly one, the first, waits for the workers: in every interleaving every other
   call either has not begun or has returned at once.
   */
  lemma OneShutdownWaits(capacity: nat, n: nat, m: nat, c: nat, labels: seq<Label>, k: nat)
    ensures var s := Run(Start(capacity, n, m, c), labels);
            k < |s.closers| && Waits(s.closers[k]) ==>
              forall j | 0 <= j < |s.closers| && j != k :: s.closers[j] == Before || s.closers[j] == Returned(false)
    ensures var s := Run(Start(capacity, n, m, c), labels);
            k < |s.closers| && s.closers[k] == Returned(false) ==>
              exists j :: 0 <= j < |s.closers| && j != k && Waits(s.closers[j])
  {
    hide Run, Step;
    var s0 := Start(capacity, n, m, c);
    NoneWaits(s0.closers);
    RunOneWaits(s0, labels);
    var s := Run(s0, labels);
    if k < |s.closers| {
      if Waits(s.closers[k]) {
        forall j | 0 <= j < |s.closers| && j != k ensures !Waits(s.closers[j]) {
          if Waits(s.closers[j]) {
            TwoCounted(s.closers, k, j);
          }
        }
      } else if s.closers[k] == Returned(false) {
        CountPositive(s.closers, Waits);
      }
    }
  }

  lemma {:induction false} NoneWaits(closers: seq<Closer>)
    requires forall k | 0 <= k < |closers| :: closers[k] == Before
    ensures Count(closers, Waits) == 0
  {
    if closers != [] {
      NoneWaits(closers[1..]);
    }
  }

  lemma TwoCounted(closers: seq<Closer>, i: nat, j: nat)
    requires i < |closers| && j < |closers| && i != j && Waits(closers[i]) && Waits(closers[j])
    ensures Count(closers, Waits) >= 2
  {
    hide Count;
    CountUpdate(closers, i, Before, Waits);
    CountUpdate(closers[i := Before], j, Before, Waits);
  }

  /** Such a call may return while tasks are still queued, in a pool of any shape. */
  lemma SecondShutdownReturnsEarly(capacity: nat, n: nat, m: nat, c: nat, task: Task) returns (labels: seq<Label>)
    requires m > 0 && c > 1
    ensures var s := Run(Start(capacity, n, m, c), labels);
            |s.closers| == c && s.shutdownDone && s.closers[1] == Returned(false) && s.queue == [task]
  {
    hide Run, Picks, PicksSubmitter, WakeAll, WakeAllSubmitters, WakeOne, WakeOneSubmitter;
    var s0 := Start(capacity, n, m, c);
    var l3 := [Shutdown(1)];
    var l2 := [Shutdown(0)] + l3;
    var l1 := [Enter(0)] + l2;
    labels := [Submit(0, task)] + l1;
    var s1 := Step(s0, Submit(0, task));
    var s2 := Step(s1, Enter(0));
    var s3 := Step(s2, Shutdown(0));
    RunOne(s0, Submit(0, task), l1);
    RunOne(s1, Enter(0), l2);
    RunOne(s2, Shutdown(0), l3);
    RunOne(s3, Shutdown(1), []);
    RunNone(Step(s3, Shutdown(1)));
    assert l3 == [Shutdown(1)] + [];
  }

  lemma RunNone(s: State)
    ensures Run(s, []) == s
  {
  }
}
