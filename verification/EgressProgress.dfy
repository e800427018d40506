/**
 What the outgoing queue gets done: whatever is offered is queued after a few steps of the pacer, and a dispatcher
 that is awake or can be woken sends all of it, as long as the socket takes something each time.
 */
module EgressProgress {
  import opened Basics
  import opened Egress
  import opened EgressSteps

  // ---------- the pacer ----------

  function Produces(n: nat): seq<Label> {
    if n == 0 then [] else [Produce] + Produces(n - 1)
  }

  function CallsLeft(p: Producer): nat {
    match p
    case Rest => 0
    case Check(_) => 5
    case Drop => 1
    case Add(_) => 4
    case Push(_) => 3
    case Claim => 2
    case Arm => 1
  }

  lemma ProducesOne(s: State)
    ensures var s' := Produced(s);
            && Step(s, Produce) == s' && s'.consumer == s.consumer
            && (CallsLeft(s'.producer) < CallsLeft(s.producer) || (s.producer.Rest? && s' == s))
  {
  }

  lemma RunFirst(s: State, l: Label, rest: seq<Label>)
    ensures Run(s, [l] + rest) == Run(Step(s, l), rest)
  {
    hide Step;
    assert ([l] + rest)[1..] == rest;
  }

  lemma NothingRuns(s: State)
    ensures Run(s, []) == s
  {
  }

  lemma {:induction false} CallEnds(s: State, n: nat)
    requires n >= CallsLeft(s.producer)
    ensures Run(s, Produces(n)).producer.Rest? && Run(s, Produces(n)).consumer == s.consumer
    decreases n
  {
    hide Run, Produced, Step;
    if n == 0 {
      NothingRuns(s);
    } else {
      ProducesOne(s);
      RunFirst(s, Produce, Produces(n - 1));
      CallEnds(Produced(s), n - 1);
    }
  }

  // ---------- the dispatcher ----------

  function Consumes(answers: seq<SendResult>): seq<Label> {
    if answers == [] then [] else [Consume(answers[0])] + Consumes(answers[1..])
  }

  ghost predicate AllTaken(answers: seq<SendResult>) {
    forall i | 0 <= i < |answers| :: answers[i].Took? && answers[i].n > 0
  }

  function BytesLeft(s: State): nat {
    |Unsent(s.wbuf, s.woff)| + Size(s.outbox)
  }

  function Rank(s: State): nat {
    match s.consumer
    case Asleep => 0
    case Closed => 0
    case Decide => 1
    case Disarm => 2
    case Unwatch => 3
    case Top => if s.wbuf.Some? then 6 else 4
    case Write => 5
    case Subtract(_) => 6
    case Load => 7
  }

  function StepsLeft(s: State): nat {
    2 * BytesLeft(s) + 4 * |s.outbox| + Rank(s)
  }

  // On the way out the queue was found empty, and stays so while nothing is queued.
  ghost predicate OnTheWayOut(s: State) {
    s.consumer.Unwatch? || s.consumer.Disarm? || s.consumer.Decide? ==> s.wbuf.None? && s.outbox == []
  }

  lemma PopHelps(s: State)
    requires s.consumer.Top? && Buffered(s)
    ensures StepsLeft(Popped(s)) < StepsLeft(s) && OnTheWayOut(Popped(s)) && !Popped(s).consumer.Asleep?
    ensures !Popped(s).consumer.Closed?
  {
    hide Size;
    if s.wbuf.None? && s.outbox != [] {
      Front(s.outbox);
    }
  }

  lemma WriteHelps(s: State, answer: SendResult)
    requires s.consumer.Write? && Buffered(s) && answer.Took? && answer.n > 0
    ensures s.wbuf.Some? && s.woff < |s.wbuf.value|
    ensures var s' := Written(s, answer); StepsLeft(s') < StepsLeft(s) && s'.consumer.Top?
  {
    hide Size;
  }

  // A dispatcher that is awake comes nearer to its end, and ends with nothing left.
  lemma ConsumeHelps(s: State, answer: SendResult)
    requires Buffered(s) && OnTheWayOut(s) && answer.Took? && answer.n > 0
    requires !s.consumer.Asleep? && !s.consumer.Closed?
    ensures var s' := Consumed(s, answer);
            && StepsLeft(s') < StepsLeft(s) && OnTheWayOut(s') && s'.closing == s.closing && s'.producer == s.producer
            && s'.log.offered == s.log.offered && s'.log.dropped == s.log.dropped
            && (s'.consumer.Asleep? || s'.consumer.Closed? ==>
                  && s'.wbuf.None? && s'.outbox == [] && (s'.consumer.Closed? <==> s.closing)
                  && (s.consumer.Decide? && s' == s.(consumer := s'.consumer)))
  {
    hide Size, Popped, Written, FetchSub;
    ConsumedFeeds(s, answer);
    if s.consumer.Top? {
      PopHelps(s);
    } else if s.consumer.Write? {
      WriteHelps(s, answer);
    }
  }

  lemma {:induction false} Rests(s: State, answers: seq<SendResult>)
    requires s.consumer.Asleep? || s.consumer.Closed?
    ensures Run(s, Consumes(answers)) == s
    decreases |answers|
  {
    if answers != [] {
      assert Step(s, Consume(answers[0])) == s;
      RunFirst(s, Consume(answers[0]), Consumes(answers[1..]));
      Rests(s, answers[1..]);
    }
  }

  lemma ConsumeStep(s: State, answer: SendResult)
    ensures Step(s, Consume(answer)) == Consumed(s, answer)
  {
  }

  lemma {:induction false} DrainsAwake(s: State, answers: seq<SendResult>)
    requires Stream(s) && OnTheWayOut(s) && AllTaken(answers) && |answers| >= StepsLeft(s)
    requires !s.consumer.Asleep? && !s.consumer.Closed?
    ensures var s' := Run(s, Consumes(answers));
            && Stream(s') && !Waiting(s') && s'.producer == s.producer && s'.closing == s.closing
            && s'.log.offered == s.log.offered && s'.log.dropped == s.log.dropped
            && (if s.closing then s'.consumer.Closed? else s'.consumer.Asleep?)
    decreases |answers|
  {
    hide Run, Consumed, StepsLeft, Stream, Size, Step, OnTheWayOut, Consumes;
    StillAwake(s);
    var s1 := Consumed(s, answers[0]);
    StreamBuffered(s);
    ConsumeHelps(s, answers[0]);
    ConsumedConserves(s, answers[0]);
    ConsumeStep(s, answers[0]);
    FirstConsume(s, answers);
    if s1.consumer.Asleep? || s1.consumer.Closed? {
      Rests(s1, answers[1..]);
    } else {
      DrainsAwake(s1, answers[1..]);
    }
  }

  lemma StillAwake(s: State)
    requires !s.consumer.Asleep? && !s.consumer.Closed?
    ensures StepsLeft(s) > 0
  {
    hide Size;
  }

  lemma StreamBuffered(s: State)
    requires Stream(s)
    ensures Buffered(s)
  {
  }

  lemma FirstConsume(s: State, answers: seq<SendResult>)
    requires answers != []
    ensures Run(s, Consumes(answers)) == Run(Consumed(s, answers[0]), Consumes(answers[1..]))
  {
    hide Consumed;
    RunFirst(s, Consume(answers[0]), Consumes(answers[1..]));
  }

  // ---------- from every reachable state ----------

  lemma {:induction false} RunAppend(s: State, a: seq<Label>, b: seq<Label>)
    ensures Run(s, a + b) == Run(Run(s, a), b)
    decreases |a|
  {
    hide Step;
    if a == [] {
      assert a + b == b;
    } else {
      assert (a + b)[0] == a[0] && (a + b)[1..] == a[1..] + b;
      RunAppend(Step(s, a[0]), a[1..], b);
    }
  }

  lemma ReachableStream(labels: seq<Label>)
    ensures Stream(Run(Start(), labels))
  {
    hide Run, Inv, Stream, Counted, Bounded, Marked, Armed, Noticed, Heeded, Fed;
    var limit := LargestFrame(labels);
    StartInv(limit);
    RunKeepsInv(Start(), labels, limit);
    InvIsStream(Run(Start(), labels), limit);
  }

  lemma InvIsStream(s: State, limit: nat)
    requires Inv(s, limit)
    ensures Stream(s)
  {
    hide Stream, Counted, Bounded, Marked, Armed, Noticed, Heeded, Fed;
  }

  // In its loop, or to be woken by the kernel.
  predicate AtWork(s: State) {
    || s.consumer.Top? || s.consumer.Load? || s.consumer.Subtract? || s.consumer.Write?
    || (s.consumer.Asleep? && s.watched)
  }

  // Enough answers for everything that is left.
  predicate Enough(s: State, answers: seq<SendResult>) {
    |answers| >= 2 * BytesLeft(s) + 4 * |s.outbox| + 8
  }

  lemma Woken(s: State, answers: seq<SendResult>)
    requires AtWork(s) && Enough(s, answers)
    ensures var s' := Step(s, Wake);
            && OnTheWayOut(s') && !s'.consumer.Asleep? && !s'.consumer.Closed? && |answers| >= StepsLeft(s')
            && s' == s.(consumer := s'.consumer) && (s.consumer.Asleep? ==> s'.consumer.Top?)
            && (!s.consumer.Asleep? ==> s' == s)
  {
    hide Size;
  }

  lemma WokenStream(s: State)
    requires Stream(s)
    ensures Stream(Step(s, Wake))
  {
    hide Step, Stream;
    StepConserves(s, Wake);
  }

  lemma NothingWaits(s: State)
    requires Stream(s) && !Waiting(s)
    ensures s.log.kernel == s.log.queued
  {
    hide Bytes, Unsent;
    NoBytes();
    UnsentNothing(s.woff);
    assert s.log.kernel + [] + [] == s.log.kernel;
  }

  /**
   From every reachable state in which the dispatcher is in its loop or can be woken: once it is, and as long as the
   socket takes at least a byte each time, everything queued is sent, and the connection is closed if and only if
   the latch is set. With no call of the pacer open and nothing dropped, that is everything ever offered.
   */
  lemma EverythingIsSent(labels: seq<Label>, answers: seq<SendResult>)
    requires var s := Run(Start(), labels); AtWork(s) && Enough(s, answers) && AllTaken(answers)
    ensures var s := Run(Start(), labels);
            var s' := Run(s, [Wake] + Consumes(answers));
            && s'.log.kernel == s'.log.queued && !Waiting(s')
            && (if s.closing then s'.consumer.Closed? else s'.consumer.Asleep?)
            && (s.producer.Rest? && s.log.dropped == 0 ==> s'.log.kernel == Bytes(s.log.offered))
  {
    hide Run, Start, Stream, AtWork, Enough, AllTaken, OnTheWayOut, Step, StepsLeft, Waiting, Bytes, Consumes;
    var s := Run(Start(), labels);
    ReachableStream(labels);
    Woken(s, answers);
    WokenStream(s);
    var s1 := Step(s, Wake);
    RunFirst(s, Wake, Consumes(answers));
    DrainsAwake(s1, answers);
    var s' := Run(s1, Consumes(answers));
    NothingWaits(s');
    RunAppend(Start(), labels, [Wake] + Consumes(answers));
    OfferedIsDelivered(labels + ([Wake] + Consumes(answers)));
  }

  /** A call of the pacer comes to its end by itself, in five steps at most. */
  lemma CallsEnd(labels: seq<Label>, n: nat)
    requires n >= 5
    ensures var s := Run(Start(), labels);
            Run(s, Produces(n)).producer.Rest? && Run(s, Produces(n)).consumer == s.consumer
  {
    hide Run, Start;
    CallEnds(Run(Start(), labels), n);
  }

  // Nothing new is offered and the latch is not touched.
  predicate JustGoesOn(l: Label) {
    l.Produce? || l.Wake? || l.Consume?
  }

  lemma {:induction false} NothingMoves(s: State, more: seq<Label>)
    requires AtRest(s) && !s.watched && forall i | 0 <= i < |more| :: JustGoesOn(more[i])
    ensures Run(s, more) == s
    decreases |more|
  {
    if more != [] {
      NothingMoves(s, more[1..]);
    }
  }

  lemma Plenty(n: nat) returns (answers: seq<SendResult>)
    ensures |answers| == n && AllTaken(answers)
  {
    answers := seq(n, _ => Took(1));
  }

  /**
   With both threads at rest and bytes waiting: they can still be sent, without a new call of the pacer, if and only
   if no claim of the flag was missed.
   */
  lemma WaitingIsSentIff(labels: seq<Label>)
    requires var s := Run(Start(), labels); AtRest(s) && Waiting(s)
    ensures var s := Run(Start(), labels);
            (exists more: seq<Label> :: (forall i | 0 <= i < |more| :: JustGoesOn(more[i])) && !Waiting(Run(s, more)))
            <==> !s.log.missed
  {
    hide Run, Start, Stream, Enough, AllTaken, Waiting;
    var s := Run(Start(), labels);
    StrandedIffMissed(labels);
    if s.log.missed {
      forall more: seq<Label> | forall i | 0 <= i < |more| :: JustGoesOn(more[i]) ensures Waiting(Run(s, more)) {
        NothingMoves(s, more);
      }
    } else {
      var answers := Plenty(2 * BytesLeft(s) + 4 * |s.outbox| + 8);
      assert Enough(s, answers) by { EnoughIs(s, answers); }
      EverythingIsSent(labels, answers);
      var more := [Wake] + Consumes(answers);
      GoesOn(answers);
      assert !Waiting(Run(s, more));
    }
  }

  lemma EnoughIs(s: State, answers: seq<SendResult>)
    requires |answers| == 2 * BytesLeft(s) + 4 * |s.outbox| + 8
    ensures Enough(s, answers)
  {
  }

  lemma {:induction false} GoesOn(answers: seq<SendResult>)
    ensures forall i | 0 <= i < |Consumes(answers)| :: JustGoesOn(Consumes(answers)[i])
    decreases |answers|
  {
    if answers != [] {
      GoesOn(answers[1..]);
    }
  }

  // ---------- the watermark and the latch ----------

  /** A frame is dropped if and only if more than five mebibytes are queued in front of it or being taken. */
  lemma DroppedIff(labels: seq<Label>)
    requires Run(Start(), labels).producer.Check?
    ensures var s := Run(Start(), labels);
            Step(s, Produce).log.dropped == s.log.dropped + 1 <==> Size(s.outbox) + InProgress(s) > 5_242_880
  {
    hide Run, Start, Size, InProgress, RtpSize, Bytes, Unsent;
    var limit := LargestFrame(labels);
    OutboundStream(labels, limit);
  }

  ghost predicate LatchKept(s: State) {
    && (s.closing ==> s.log.asked || s.log.dropped > 0)
    && (s.log.asked ==> s.closing)
    && (s.log.dropped > 0 && !s.producer.Drop? ==> s.closing)
    && (s.producer.Drop? ==> s.log.dropped > 0)
  }

  lemma StepKeepsLatch(s: State, l: Label)
    requires LatchKept(s)
    ensures LatchKept(Step(s, l))
  {
    hide Consumed;
    if l.Consume? {
      ConsumedFeeds(s, l.answer);
    }
  }

  lemma {:induction false} RunKeepsLatch(s: State, labels: seq<Label>)
    requires LatchKept(s)
    ensures LatchKept(Run(s, labels))
    decreases |labels|
  {
    hide Step, LatchKept;
    if labels != [] {
      StepKeepsLatch(s, labels[0]);
      RunKeepsLatch(Step(s, labels[0]), labels[1..]);
    }
  }

  /** Between calls of the pacer, the latch is set if and only if a TEARDOWN has asked for it or a frame was dropped. */
  lemma LatchIff(labels: seq<Label>)
    ensures var s := Run(Start(), labels);
            s.producer.Rest? ==> (s.closing <==> s.log.asked || s.log.dropped > 0)
  {
    hide Run;
    RunKeepsLatch(Start(), labels);
  }

  // ---------- what the kernel says ----------

  /** The step that writes moves on by what the kernel says it took of the buffer in front. */
  lemma TakenIsSent(labels: seq<Label>, n: nat)
    requires Run(Start(), labels).consumer.Write? && n > 0
    ensures var s := Run(Start(), labels);
            var s' := Step(s, Consume(Took(n)));
            && |s'.log.kernel| == |s.log.kernel| + Min(n, |Unsent(s.wbuf, s.woff)|)
            && s'.log.kernel <= s.log.queued
  {
    hide Run, Start, Bytes, Stream;
    var s := Run(Start(), labels);
    ReachableStream(labels);
    StreamBuffered(s);
    ReachableStream(labels + [Consume(Took(n))]);
    RunSnoc(Start(), labels, Consume(Took(n)));
    SentIsQueued(Step(s, Consume(Took(n))));
    ConsumedFeeds(s, Took(n));
  }

  lemma SentIsQueued(s: State)
    requires Stream(s)
    ensures s.log.kernel <= s.log.queued
  {
    hide Bytes;
  }
}
