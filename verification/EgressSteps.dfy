/**
 The outgoing queue of a connection under every interleaving: the pacer queues (one task at a time, see
 `Reactor`), the dispatcher drains. Each label is one atomic step; a label that is not enabled does nothing.
 */
module EgressSteps {
  import opened Basics
  import opened Egress

  // rtp: an interleaved frame, subject to the watermark; otherwise a response.
  datatype Item = Item(data: seq<byte>, rtp: bool)

  // pushTCPFrame and sendResponse: add to the count, push, claim the armed flag, change the epoll mask.
  datatype Producer = Rest | Check(item: Item) | Drop | Add(item: Item) | Push(item: Item) | Claim | Arm

  // onWritable: the buffer loop, and the way out when the outbox is empty.
  datatype Consumer = Asleep | Top | Load | Subtract(loaded: nat) | Write | Unwatch | Disarm | Decide | Closed

  // Bookkeeping of the proof: the items offered and how many were dropped, everything queued and everything
  // sent, what was queued when the outbox was last found empty, whether a claim failed with the dispatcher on
  // its way out past an item, whether the latch was set with the dispatcher asleep and nothing to wake it, and
  // whether a TEARDOWN has asked for the latch.
  datatype Log = Log(
    offered: seq<Item>, dropped: nat, queued: seq<byte>, kernel: seq<byte>, mark: nat, missed: bool, late: bool,
    asked: bool)

  datatype State = State(
    producer: Producer, consumer: Consumer, outbox: seq<Item>, bytes: nat, wbuf: Option<seq<byte>>, woff: nat,
    armed: bool, watched: bool, closing: bool, log: Log)

  datatype Label = Offer(item: Item) | Produce | Latch | Wake | Consume(answer: SendResult)

  function Start(): State {
    State(Rest, Asleep, [], 0, None, 0, false, false, false, Log([], 0, [], [], 0, false, false, false))
  }

  predicate Leaving(s: State) {
    s.consumer.Unwatch? || s.consumer.Disarm?
  }

  predicate Unattended(s: State) {
    s.consumer.Asleep? && !s.watched && s.wbuf.None? && s.outbox == []
  }

  function Latched(s: State): State {
    s.(closing := true, log := s.log.(late := s.log.late || Unattended(s)))
  }

  function Asked(s: State): State {
    s.(log := s.log.(asked := true))
  }

  function Produced(s: State): State {
    match s.producer
    case Rest => s
    case Check(item) => 
      if s.bytes > OUTBOX_HWM then s.(producer := Drop, log := s.log.(dropped := s.log.dropped + 1))
      else s.(producer := Add(item))
    case Drop => Latched(s.(producer := Rest))
    case Add(item) => s.(producer := Push(item), bytes := s.bytes + |item.data|)
    case Push(item) =>
      s.(producer := Claim, outbox := s.outbox + [item], log := s.log.(queued := s.log.queued + item.data))
    case Claim =>
      if s.armed then s.(producer := Rest, log := s.log.(missed := s.log.missed || (Leaving(s) && s.outbox != [])))
      else s.(producer := Arm, armed := true, log := s.log.(missed := false, late := false))
    case Arm => s.(producer := Rest, watched := true)
  }

  function Popped(s: State): State {
    if s.wbuf.Some? then s.(consumer := Write)
    else if s.outbox == [] then s.(consumer := Unwatch, log := s.log.(mark := |s.log.queued|))
    else s.(consumer := Load, wbuf := Some(s.outbox[0].data), outbox := s.outbox[1..], woff := 0)
  }

  function Written(s: State, answer: SendResult): State
    requires s.wbuf.Some? && s.woff < |s.wbuf.value|
  {
    match answer
    case Took(n) =>
      var buf := s.wbuf.value;
      var k := Min(n, |buf| - s.woff);
      if k == 0 then s.(consumer := Closed)
      else
        var s' := s.(consumer := Top, log := s.log.(kernel := s.log.kernel + buf[s.woff..s.woff + k]));
        if s.woff + k == |buf| then s'.(wbuf := None, woff := 0) else s'.(woff := s.woff + k)
    case WouldBlock => s.(consumer := Asleep)
    case Interrupted => s.(consumer := Top)
    case Failed => s.(consumer := Closed)
  }

  // fetch_sub on a size_t.
  function FetchSub(bytes: nat, n: nat): nat {
    if n <= bytes then bytes - n else (bytes - n) % TWO_64
  }

  function Consumed(s: State, answer: SendResult): State {
    match s.consumer
    case Asleep => s
    case Top => Popped(s)
    case Load => s.(consumer := Subtract(s.bytes))
    case Subtract(loaded) =>
      var size := if s.wbuf.Some? then |s.wbuf.value| else 0;
      s.(consumer := Write, bytes := FetchSub(s.bytes, Min(size, loaded)))
    case Write => if s.wbuf.Some? && s.woff < |s.wbuf.value| then Written(s, answer) else s
    case Unwatch => s.(consumer := Disarm, watched := false)
    case Disarm => s.(consumer := Decide, armed := false)
    case Decide => if s.closing then s.(consumer := Closed) else s.(consumer := Asleep)
    case Closed => s
  }

  function Step(s: State, l: Label): State {
    match l
    case Offer(item) =>
      if s.producer.Rest? && item.data != [] then
        s.(producer := if item.rtp then Check(item) else Add(item), log := s.log.(offered := s.log.offered + [item]))
      else s
    case Produce => Produced(s)
    case Latch => if s.producer.Rest? then Asked(Latched(s)) else s
    case Wake => if s.consumer.Asleep? && s.watched then s.(consumer := Top) else s
    case Consume(answer) => Consumed(s, answer)
  }

  function Run(s: State, labels: seq<Label>): State
    decreases |labels|
  {
    if labels == [] then s else Run(Step(s, labels[0]), labels[1..])
  }

  // ---------- conservation ----------

  function Datas(items: seq<Item>): seq<seq<byte>> {
    seq(|items|, i requires 0 <= i < |items| => items[i].data)
  }

  function Bytes(items: seq<Item>): seq<byte> {
    Concat(Datas(items))
  }

  function Size(items: seq<Item>): nat {
    TotalSize(Datas(items))
  }

  function RtpSize(items: seq<Item>): nat {
    if items == [] then 0 else (if items[0].rtp then |items[0].data| else 0) + RtpSize(items[1..])
  }

  lemma {:induction false} RtpSnoc(items: seq<Item>, x: Item)
    ensures RtpSize(items + [x]) == RtpSize(items) + if x.rtp then |x.data| else 0
  {
    if items == [] {
      assert [x][1..] == [] && [] + [x] == [x];
    } else {
      assert (items + [x])[1..] == items[1..] + [x] && (items + [x])[0] == items[0];
      RtpSnoc(items[1..], x);
    }
  }

  lemma Snoc(items: seq<Item>, x: Item)
    ensures Bytes(items + [x]) == Bytes(items) + x.data && Size(items + [x]) == Size(items) + |x.data|
    ensures RtpSize(items + [x]) == RtpSize(items) + if x.rtp then |x.data| else 0
  {
    hide Concat, TotalSize, RtpSize;
    assert Datas(items + [x]) == Datas(items) + [x.data];
    ConcatSnoc(Datas(items), x.data);
    TotalSizeSnoc(Datas(items), x.data);
    RtpSnoc(items, x);
  }

  lemma Front(items: seq<Item>)
    requires items != []
    ensures Bytes(items) == items[0].data + Bytes(items[1..]) && Size(items) == |items[0].data| + Size(items[1..])
  {
    assert Datas(items)[1..] == Datas(items[1..]);
  }

  lemma {:induction false} RtpFits(items: seq<Item>)
    ensures RtpSize(items) <= Size(items)
  {
    if items != [] {
      Front(items);
      RtpFits(items[1..]);
    }
  }

  ghost predicate NonEmptyItems(s: State) {
    && (forall i | 0 <= i < |s.outbox| :: s.outbox[i].data != [])
    && (s.producer.Check? || s.producer.Add? || s.producer.Push? ==> s.producer.item.data != [])
  }

  // The dispatcher holds a buffer exactly where its code says so.
  ghost predicate Buffered(s: State) {
    && (s.wbuf.Some? ==> s.woff < |s.wbuf.value|)
    && (s.consumer.Load? || s.consumer.Subtract? || s.consumer.Write? ==> s.wbuf.Some?)
    && (s.consumer.Unwatch? || s.consumer.Disarm? || s.consumer.Decide? ==> s.wbuf.None?)
    && (s.consumer.Load? || s.consumer.Subtract? ==> s.woff == 0)
  }

  ghost predicate Conserved(s: State) {
    s.log.kernel + Unsent(s.wbuf, s.woff) + Bytes(s.outbox) == s.log.queued
  }

  lemma ProducedConserves(s: State)
    requires NonEmptyItems(s) && Buffered(s) && Conserved(s)
    ensures NonEmptyItems(Produced(s)) && Buffered(Produced(s)) && Conserved(Produced(s))
  {
    hide Bytes, Unsent;
    if s.producer.Push? {
      Snoc(s.outbox, s.producer.item);
      Assoc(s.log.kernel + Unsent(s.wbuf, s.woff), Bytes(s.outbox), s.producer.item.data);
    }
  }

  lemma PoppedBytes(kernel: seq<byte>, outbox: seq<Item>)
    requires outbox != []
    ensures kernel + Unsent(None, 0) + Bytes(outbox) == kernel + Unsent(Some(outbox[0].data), 0) + Bytes(outbox[1..])
    ensures Unsent(None, 0) == []
  {
    hide Bytes;
    var x := outbox[0].data;
    Front(outbox);
    assert x[0..] == x && kernel + [] == kernel;
    Assoc(kernel, x, Bytes(outbox[1..]));
  }

  lemma UnsentNothing(woff: nat)
    ensures Unsent(None, woff) == []
  {
  }

  lemma PoppedConserves(s: State)
    requires NonEmptyItems(s) && Buffered(s) && Conserved(s) && s.consumer.Top?
    ensures NonEmptyItems(Popped(s)) && Buffered(Popped(s)) && Conserved(Popped(s))
  {
    hide Bytes, Unsent;
    if s.wbuf.None? && s.outbox != [] {
      UnsentNothing(s.woff);
      PoppedBytes(s.log.kernel, s.outbox);
    }
  }

  lemma TakenBytes(kernel: seq<byte>, buf: seq<byte>, woff: nat, k: nat)
    requires woff + k <= |buf|
    ensures kernel + Unsent(Some(buf), woff) == kernel + buf[woff..woff + k] + Unsent(Some(buf), woff + k)
    ensures Unsent(Some(buf), |buf|) == []
  {
    SplitTail(buf, woff, woff + k);
    Assoc(kernel, buf[woff..woff + k], buf[woff + k..]);
  }

  lemma WrittenConserves(s: State, answer: SendResult)
    requires NonEmptyItems(s) && Buffered(s) && Conserved(s) && s.consumer.Write?
    ensures var s' := Written(s, answer); NonEmptyItems(s') && Buffered(s') && Conserved(s')
  {
    hide Bytes, Unsent;
    UnsentNothing(0);
    if answer.Took? {
      TakenBytes(s.log.kernel, s.wbuf.value, s.woff, Min(answer.n, |s.wbuf.value| - s.woff));
    }
  }

  ghost predicate Stream(s: State) {
    NonEmptyItems(s) && Buffered(s) && Conserved(s)
  }

  lemma ConsumedConserves(s: State, answer: SendResult)
    requires Stream(s)
    ensures Stream(Consumed(s, answer))
  {
    hide Bytes, Unsent, Popped, Written, NonEmptyItems, Buffered, Conserved;
    if s.consumer.Top? {
      PoppedConserves(s);
    } else if s.consumer.Write? {
      WriterHolds(s);
      WrittenConserves(s, answer);
    } else {
      PassingConserves(s, answer);
    }
  }

  lemma WriterHolds(s: State)
    requires Buffered(s) && s.consumer.Write?
    ensures s.wbuf.Some? && s.woff < |s.wbuf.value|
  {
  }

  lemma PassingConserves(s: State, answer: SendResult)
    requires Stream(s) && !s.consumer.Top? && !s.consumer.Write?
    ensures Stream(Consumed(s, answer))
  {
    hide Bytes, Unsent, FetchSub;
  }

  lemma StepConserves(s: State, l: Label)
    requires Stream(s)
    ensures Stream(Step(s, l))
  {
    hide Bytes, Unsent, Produced, Consumed;
    if l.Produce? {
      ProducedConserves(s);
    } else if l.Consume? {
      ConsumedConserves(s, l.answer);
    }
  }

  // ---------- the byte count ----------

  // Bytes counted and not yet queued, or taken and not yet discounted.
  function InProgress(s: State): nat {
    (if s.producer.Push? then |s.producer.item.data| else 0)
    + (if (s.consumer.Load? || s.consumer.Subtract?) && s.wbuf.Some? then |s.wbuf.value| else 0)
  }

  // The clamp never bites: what was loaded, and what is there, is at least the size to subtract.
  ghost predicate Counted(s: State) {
    && s.bytes == Size(s.outbox) + InProgress(s)
    && (s.consumer.Subtract? && s.wbuf.Some? ==> |s.wbuf.value| <= s.consumer.loaded)
  }

  lemma ProducedCounts(s: State)
    requires Counted(s)
    ensures Counted(Produced(s))
  {
    hide Size;
    if s.producer.Push? {
      Snoc(s.outbox, s.producer.item);
    }
  }

  lemma ConsumedCounts(s: State, answer: SendResult)
    requires Buffered(s) && Counted(s) && !s.consumer.Write?
    ensures Counted(Consumed(s, answer))
  {
    hide Written, Popped, Size;
    if s.consumer.Top? {
      PoppedCounts(s);
    }
  }

  lemma PoppedCounts(s: State)
    requires Buffered(s) && Counted(s) && s.consumer.Top?
    ensures Counted(Popped(s))
  {
    hide Size;
    if s.wbuf.None? && s.outbox != [] {
      Front(s.outbox);
    }
  }

  lemma StepCounts(s: State, l: Label)
    requires Buffered(s) && Counted(s)
    ensures Counted(Step(s, l))
  {
    hide Produced, Consumed, Size;
    if l.Produce? {
      ProducedCounts(s);
    } else if l.Consume? {
      if s.consumer.Write? {
        WrittenCounts(s, l.answer);
        ConsumedWrite(s, l.answer);
      } else {
        ConsumedCounts(s, l.answer);
      }
    }
  }

  lemma ConsumedWrite(s: State, answer: SendResult)
    requires s.consumer.Write? && s.wbuf.Some? && s.woff < |s.wbuf.value|
    ensures Consumed(s, answer) == Written(s, answer)
  {
  }

  lemma WrittenCounts(s: State, answer: SendResult)
    requires Counted(s) && s.consumer.Write? && s.wbuf.Some? && s.woff < |s.wbuf.value|
    ensures Counted(Written(s, answer))
  {
  }

  // ---------- the watermark ----------

  // limit: the size of the largest frame.
  ghost predicate Bounded(s: State, limit: nat) {
    && (s.producer.Check? || s.producer.Add? || s.producer.Push?
        ==> s.producer.item.rtp ==> |s.producer.item.data| <= limit)
    && ((s.producer.Add? || s.producer.Push?) && s.producer.item.rtp ==> RtpSize(s.outbox) <= OUTBOX_HWM)
    && RtpSize(s.outbox) <= OUTBOX_HWM + limit
  }

  lemma ProducedBounds(s: State, limit: nat)
    requires Counted(s) && Bounded(s, limit)
    ensures Bounded(Produced(s), limit)
  {
    hide Size, RtpSize;
    RtpFits(s.outbox);
    if s.producer.Push? {
      Snoc(s.outbox, s.producer.item);
    }
  }

  lemma ConsumedBounds(s: State, answer: SendResult, limit: nat)
    requires Bounded(s, limit)
    ensures Bounded(Consumed(s, answer), limit)
  {
    hide Written;
    if s.consumer.Write? && s.wbuf.Some? && s.woff < |s.wbuf.value| {
      WrittenKeepsOutbox(s, answer);
    }
  }

  lemma StepBounds(s: State, l: Label, limit: nat)
    requires Counted(s) && Bounded(s, limit) && (l.Offer? && l.item.rtp ==> |l.item.data| <= limit)
    ensures Bounded(Step(s, l), limit)
  {
    hide Size, RtpSize, Produced, Consumed;
    if l.Produce? {
      ProducedBounds(s, limit);
    } else if l.Consume? {
      ConsumedBounds(s, l.answer, limit);
    }
  }

  lemma WrittenKeepsOutbox(s: State, answer: SendResult)
    requires s.wbuf.Some? && s.woff < |s.wbuf.value|
    ensures var s' := Written(s, answer); s'.outbox == s.outbox && s'.producer == s.producer
  {
  }

  // ---------- the way out ----------

  // Once the outbox is found empty, everything queued until then has reached the kernel.
  ghost predicate Marked(s: State) {
    && s.log.mark <= |s.log.queued|
    && (s.consumer.Unwatch? || s.consumer.Disarm? || s.consumer.Decide? ==> s.log.mark <= |s.log.kernel|)
  }

  lemma ConsumedMarks(s: State, answer: SendResult)
    requires Buffered(s) && Conserved(s) && Marked(s)
    ensures var s' := Consumed(s, answer);
            Marked(s') && s'.log.queued == s.log.queued && |s.log.kernel| <= |s'.log.kernel|
  {
    hide Bytes, Unsent, Written;
    if s.consumer.Write? {
      WrittenMarks(s, answer);
    } else if s.consumer.Top? && s.wbuf.None? && s.outbox == [] {
      NoBytes();
      UnsentNothing(s.woff);
    }
  }

  lemma StepMarks(s: State, l: Label)
    requires Buffered(s) && Conserved(s) && Marked(s)
    ensures Marked(Step(s, l)) && |s.log.queued| <= |Step(s, l).log.queued| && |s.log.kernel| <= |Step(s, l).log.kernel|
  {
    hide Consumed, Conserved, Buffered;
    if l.Consume? {
      ConsumedMarks(s, l.answer);
    }
  }

  lemma NoBytes()
    ensures Bytes([]) == []
  {
    assert Datas([]) == [];
  }

  lemma WrittenMarks(s: State, answer: SendResult)
    requires s.consumer.Write? && s.wbuf.Some? && s.woff < |s.wbuf.value|
    ensures var s' := Written(s, answer);
            s'.log.mark == s.log.mark && s'.log.queued == s.log.queued && |s.log.kernel| <= |s'.log.kernel|
            && !(s'.consumer.Unwatch? || s'.consumer.Disarm? || s'.consumer.Decide?)
  {
  }

  lemma ClosedAfterMark(s: State, answer: SendResult)
    requires Buffered(s) && Conserved(s) && Marked(s) && s.consumer.Decide? && Consumed(s, answer).consumer.Closed?
    ensures s.closing && s.log.mark <= |s.log.kernel| && s.log.kernel[..s.log.mark] == s.log.queued[..s.log.mark]
  {
    hide Bytes;
    assert s.log.kernel + [] + Bytes(s.outbox) == s.log.queued;
  }

  lemma StepKeepsLatch(s: State, l: Label)
    requires s.closing
    ensures Step(s, l).closing
  {
    hide Consumed;
    if l.Consume? {
      ConsumedKeepsLatch(s, l.answer);
    }
  }

  /** The close latch, once set, stays set in every run. */
  lemma {:induction false} LatchStaysSet(s: State, labels: seq<Label>)
    requires s.closing
    ensures Run(s, labels).closing
    decreases |labels|
  {
    hide Step;
    if labels != [] {
      StepKeepsLatch(s, labels[0]);
      LatchStaysSet(Step(s, labels[0]), labels[1..]);
    }
  }

  lemma ConsumedKeepsLatch(s: State, answer: SendResult)
    ensures Consumed(s, answer).closing == s.closing
  {
  }

  // ---------- waking the dispatcher ----------

  // The armed flag, the epoll mask and the positions of the two threads fit together.
  ghost predicate Armed(s: State) {
    match s.consumer
    case Top | Load | Subtract(_) | Write | Unwatch => s.armed && s.watched && !s.producer.Arm?
    case Disarm => s.armed && !s.watched && !s.producer.Arm?
    case Asleep | Decide => s.armed == (s.watched || s.producer.Arm?) && (s.producer.Arm? ==> !s.watched)
    case Closed => true
  }

  predicate Waiting(s: State) {
    s.wbuf.Some? || s.outbox != []
  }

  // Something will look at the outbox again.
  predicate WillBeSeen(s: State) {
    || s.consumer.Top? || s.consumer.Load? || s.consumer.Subtract? || s.consumer.Write? || s.consumer.Closed?
    || ((s.consumer.Asleep? || s.consumer.Decide?) && s.watched)
    || s.producer.Claim? || s.producer.Arm?
  }

  ghost predicate Noticed(s: State) {
    && (Waiting(s) ==> WillBeSeen(s) || s.log.missed)
    && (s.log.missed && !s.consumer.Closed? ==>
          && s.outbox != [] && s.wbuf.None?
          && (Leaving(s) || (!s.armed && !s.watched && (s.consumer.Asleep? || s.consumer.Decide?))))
  }

  lemma ProducedWakes(s: State)
    requires Buffered(s) && Armed(s) && Noticed(s)
    ensures Armed(Produced(s)) && Noticed(Produced(s))
  {
  }

  lemma PoppedWakes(s: State)
    requires Buffered(s) && Armed(s) && Noticed(s) && s.consumer.Top?
    ensures Armed(Popped(s)) && Noticed(Popped(s))
  {
  }

  lemma WrittenWakes(s: State, answer: SendResult)
    requires Buffered(s) && Armed(s) && Noticed(s) && s.consumer.Write?
    ensures Armed(Written(s, answer)) && Noticed(Written(s, answer))
  {
  }

  lemma StepWakes(s: State, l: Label)
    requires Buffered(s) && Armed(s) && Noticed(s)
    ensures Armed(Step(s, l)) && Noticed(Step(s, l))
  {
    hide Produced, Popped, Written;
    if l.Produce? {
      ProducedWakes(s);
    } else if l.Consume? && s.consumer.Top? {
      PoppedWakes(s);
    } else if l.Consume? && s.consumer.Write? {
      WrittenWakes(s, l.answer);
    }
  }

  // ---------- heeding the latch ----------

  // A set latch is overlooked only if it was set with the dispatcher asleep and nothing to wake it for, and
  // only until the next item is queued.
  ghost predicate Heeded(s: State) {
    && (s.closing && Unattended(s) && !s.producer.Arm? ==> s.log.late)
    && (s.log.late ==>
          && s.closing && s.consumer.Asleep? && !s.armed && !s.watched && s.wbuf.None?
          && !s.producer.Arm? && (s.outbox != [] ==> s.producer.Claim?))
  }

  lemma ProducedHeeds(s: State)
    requires Armed(s) && Heeded(s)
    ensures Heeded(Produced(s))
  {
  }

  lemma ConsumedHeeds(s: State, answer: SendResult)
    requires Buffered(s) && Armed(s) && Heeded(s)
    ensures Heeded(Consumed(s, answer))
  {
    hide Written;
    if s.consumer.Write? {
      WrittenHeeds(s, answer);
    }
  }

  lemma WrittenHeeds(s: State, answer: SendResult)
    requires Buffered(s) && Heeded(s) && s.consumer.Write?
    ensures Heeded(Written(s, answer))
  {
  }

  lemma StepHeeds(s: State, l: Label)
    requires Buffered(s) && Armed(s) && Heeded(s)
    ensures Heeded(Step(s, l))
  {
    hide Produced, Consumed, Buffered;
    match l {
      case Offer(_) =>
      case Produce => ProducedHeeds(s);
      case Latch =>
      case Wake =>
      case Consume(answer) => ConsumedHeeds(s, answer);
    }
  }

  // ---------- what was offered ----------

  function InHand(p: Producer): seq<byte> {
    if p.Check? || p.Add? || p.Push? then p.item.data else []
  }

  // As long as nothing is dropped, what was offered has been queued, in order, or is about to be.
  ghost predicate Fed(s: State) {
    s.log.dropped == 0 ==> !s.producer.Drop? && s.log.queued + InHand(s.producer) == Bytes(s.log.offered)
  }

  lemma OfferFeeds(s: State, item: Item)
    requires Fed(s)
    ensures Fed(Step(s, Offer(item)))
  {
    hide Bytes;
    if s.producer.Rest? && item.data != [] {
      Snoc(s.log.offered, item);
      assert s.log.queued + [] == s.log.queued;
    }
  }

  lemma ProducedFeeds(s: State)
    requires Fed(s)
    ensures Fed(Produced(s))
  {
    hide Bytes;
    if s.producer.Push? {
      assert s.log.queued + s.producer.item.data + [] == s.log.queued + s.producer.item.data;
    }
  }

  // The dispatcher changes nothing of the pacer's, of the latch, and of what was offered and queued.
  ghost predicate LeavesCalls(s: State, s': State) {
    && s'.log.queued == s.log.queued && s'.log.offered == s.log.offered && s'.log.dropped == s.log.dropped
    && s'.log.asked == s.log.asked && s'.producer == s.producer && s'.closing == s.closing
  }

  lemma PoppedLeaves(s: State)
    ensures LeavesCalls(s, Popped(s))
  {
  }

  lemma WrittenLeaves(s: State, answer: SendResult)
    requires s.wbuf.Some? && s.woff < |s.wbuf.value|
    ensures LeavesCalls(s, Written(s, answer))
  {
  }

  lemma ConsumedFeeds(s: State, answer: SendResult)
    ensures LeavesCalls(s, Consumed(s, answer))
  {
    hide Popped, Written, FetchSub;
    PoppedLeaves(s);
    if s.wbuf.Some? && s.woff < |s.wbuf.value| {
      WrittenLeaves(s, answer);
    }
  }

  lemma StepFeeds(s: State, l: Label)
    requires Fed(s)
    ensures Fed(Step(s, l))
  {
    hide Bytes, Produced, Consumed;
    match l {
      case Offer(item) => OfferFeeds(s, item);
      case Produce => ProducedFeeds(s);
      case Latch =>
      case Wake =>
      case Consume(answer) => ConsumedFeeds(s, answer);
    }
  }

  // ---------- all runs ----------

  ghost predicate Inv(s: State, limit: nat) {
    Stream(s) && Counted(s) && Bounded(s, limit) && Marked(s) && Armed(s) && Noticed(s) && Heeded(s) && Fed(s)
  }

  ghost predicate FramesWithin(labels: seq<Label>, limit: nat) {
    forall i | 0 <= i < |labels| :: labels[i].Offer? && labels[i].item.rtp ==> |labels[i].item.data| <= limit
  }

  lemma StartInv(limit: nat)
    ensures Inv(Start(), limit)
  {
    hide Inv;
    NewInv(Start(), limit);
  }

  lemma NewInv(s: State, limit: nat)
    requires s.producer.Rest? && s.consumer.Asleep? && s.outbox == [] && s.bytes == 0 && s.wbuf.None?
    requires !s.armed && !s.watched && !s.log.missed && !s.closing && !s.log.late
    requires s.log.queued == [] && s.log.kernel == [] && s.log.mark == 0 && s.log.offered == []
    ensures Inv(s, limit)
  {
    hide Bytes, Size, RtpSize, Unsent;
    NothingQueued();
    UnsentNothing(s.woff);
    assert s.log.kernel + Unsent(s.wbuf, s.woff) + Bytes(s.outbox) == s.log.queued;
    assert s.log.queued + InHand(s.producer) == Bytes(s.log.offered);
  }

  lemma NothingQueued()
    ensures Bytes([]) == [] && Size([]) == 0 && RtpSize([]) == 0
  {
    assert Datas([]) == [];
  }

  lemma {:induction false} RunKeepsInv(s: State, labels: seq<Label>, limit: nat)
    requires Inv(s, limit) && FramesWithin(labels, limit)
    ensures Inv(Run(s, labels), limit)
    decreases |labels|
  {
    hide Counted, Bounded, Marked, Armed, Noticed, Heeded, Fed, Step, NonEmptyItems, Conserved, Buffered;
    if labels != [] {
      StepConserves(s, labels[0]);
      StepCounts(s, labels[0]);
      StepBounds(s, labels[0], limit);
      StepMarks(s, labels[0]);
      StepWakes(s, labels[0]);
      StepHeeds(s, labels[0]);
      StepFeeds(s, labels[0]);
      assert FramesWithin(labels[1..], limit);
      RunKeepsInv(Step(s, labels[0]), labels[1..], limit);
    }
  }

  /**
   In every interleaving: the kernel has been given a prefix of what was queued, and the rest is the unsent
   part of the current buffer followed by the outbox; the frames in the outbox stay within the watermark
   and one frame; a subtraction from the byte count never goes below zero.
   */
  lemma OutboundStream(labels: seq<Label>, limit: nat)
    requires FramesWithin(labels, limit)
    ensures var s := Run(Start(), labels);
            && s.log.kernel + Unsent(s.wbuf, s.woff) + Bytes(s.outbox) == s.log.queued
            && RtpSize(s.outbox) <= OUTBOX_HWM + limit
            && s.bytes == Size(s.outbox) + InProgress(s)
            && (s.consumer.Subtract? && s.wbuf.Some? ==> |s.wbuf.value| <= Min(s.consumer.loaded, s.bytes))
  {
    hide Run, Inv, Bytes, Size, RtpSize, Unsent;
    StartInv(limit);
    RunKeepsInv(Start(), labels, limit);
    InvMeans(Run(Start(), labels), limit);
  }

  /**
   In every interleaving in which nothing was dropped above the watermark, the kernel has been given a
   prefix of what was offered, and all of it once the producer rests and nothing waits.
   */
  lemma OfferedIsDelivered(labels: seq<Label>)
    ensures var s := Run(Start(), labels);
            s.log.dropped == 0 ==>
              && s.log.kernel <= Bytes(s.log.offered)
              && (s.producer.Rest? && !Waiting(s) ==> s.log.kernel == Bytes(s.log.offered))
  {
    hide Run, Inv, Bytes, Unsent, Noticed, Heeded;
    var limit := LargestFrame(labels);
    var s := Run(Start(), labels);
    StartInv(limit);
    RunKeepsInv(Start(), labels, limit);
    InvMeans(s, limit);
    if s.log.dropped == 0 {
      Assoc(s.log.kernel, Unsent(s.wbuf, s.woff), Bytes(s.outbox));
      Assoc(s.log.kernel, Unsent(s.wbuf, s.woff) + Bytes(s.outbox), InHand(s.producer));
      if s.producer.Rest? && !Waiting(s) {
        NoBytes();
        UnsentNothing(s.woff);
        assert s.log.kernel + [] + [] + [] == s.log.kernel;
      }
    }
  }

  lemma InvMeans(s: State, limit: nat)
    requires Inv(s, limit)
    ensures s.log.kernel + Unsent(s.wbuf, s.woff) + Bytes(s.outbox) == s.log.queued
    ensures RtpSize(s.outbox) <= OUTBOX_HWM + limit
    ensures s.bytes == Size(s.outbox) + InProgress(s)
    ensures s.consumer.Subtract? && s.wbuf.Some? ==> |s.wbuf.value| <= Min(s.consumer.loaded, s.bytes)
    ensures Noticed(s) && Heeded(s) && Fed(s)
  {
    hide Bytes, Size, RtpSize, Unsent, NonEmptyItems, Marked, Armed, Noticed, Heeded, Fed;
  }

  /**
   In every interleaving, the step on which the latch closes the connection finds everything sent that
   was queued before the outbox was last found empty.
   */
  lemma CloseLosesNothingQueuedBefore(labels: seq<Label>, answer: SendResult)
    ensures var s := Run(Start(), labels);
            s.consumer.Decide? && Consumed(s, answer).consumer.Closed?
            ==> s.closing && s.log.mark <= |s.log.kernel| && s.log.mark <= |s.log.queued|
                && s.log.kernel[..s.log.mark] == s.log.queued[..s.log.mark]
  {
    hide Run, Inv, Consumed, Stream, Counted, Bounded, Armed, Noticed, Heeded, Fed;
    var limit := LargestFrame(labels);
    var s := Run(Start(), labels);
    StartInv(limit);
    RunKeepsInv(Start(), labels, limit);
    InvStreams(s, limit);
    if s.consumer.Decide? && Consumed(s, answer).consumer.Closed? {
      ClosedAfterMark(s, answer);
    }
  }

  lemma InvStreams(s: State, limit: nat)
    requires Inv(s, limit)
    ensures Buffered(s) && Conserved(s) && Marked(s)
  {
    hide Buffered, Conserved, NonEmptyItems, Marked, Counted, Bounded, Armed, Noticed, Heeded, Fed;
  }

  predicate AtRest(s: State) {
    s.producer.Rest? && s.consumer.Asleep?
  }

  /**
   With both threads at rest, bytes wait on a socket nobody watches if and only if a claim of the armed
   flag failed while the dispatcher was leaving, and no later one has succeeded.
   */
  lemma StrandedIffMissed(labels: seq<Label>)
    ensures var s := Run(Start(), labels);
            AtRest(s) ==> (Waiting(s) && !s.watched <==> s.log.missed)
  {
    hide Run, Inv, Noticed, AtRest, Waiting;
    var limit := LargestFrame(labels);
    StartInv(limit);
    RunKeepsInv(Start(), labels, limit);
    InvMeans(Run(Start(), labels), limit);
    if AtRest(Run(Start(), labels)) {
      RestingNotice(Run(Start(), labels));
    }
  }

  lemma RestingNotice(s: State)
    requires Noticed(s) && AtRest(s)
    ensures Waiting(s) && !s.watched <==> s.log.missed
  {
  }

  /**
   With both threads at rest, the latch is set on a connection that nobody watches and that has nothing left
   to send if and only if it was set when the dispatcher was already asleep with nothing to wake it for,
   and no claim of the flag has succeeded since. Such a connection is not closed by the server.
   */
  lemma LatchOverlookedIffLate(labels: seq<Label>)
    ensures var s := Run(Start(), labels);
            AtRest(s) ==> (s.closing && !s.watched && !Waiting(s) <==> s.log.late)
  {
    hide Run, Inv, Noticed, Heeded, AtRest, Waiting;
    var limit := LargestFrame(labels);
    StartInv(limit);
    RunKeepsInv(Start(), labels, limit);
    InvMeans(Run(Start(), labels), limit);
    if AtRest(Run(Start(), labels)) {
      RestingHeed(Run(Start(), labels));
    }
  }

  lemma RestingHeed(s: State)
    requires Heeded(s) && AtRest(s)
    ensures s.closing && !s.watched && !Waiting(s) <==> s.log.late
  {
  }

  lemma {:induction false} LargestFrame(labels: seq<Label>) returns (limit: nat)
    ensures FramesWithin(labels, limit)
  {
    if labels == [] {
      limit := 0;
    } else {
      var rest := LargestFrame(labels[1..]);
      limit := Max(rest, if labels[0].Offer? then |labels[0].item.data| else 0);
      forall i | 0 <= i < |labels| && labels[i].Offer? && labels[i].item.rtp
        ensures |labels[i].item.data| <= limit
      {
        if i > 0 {
          assert labels[i] == labels[1..][i - 1];
        }
      }
    }
  }

  // ---------- two runs that go wrong ----------

  ghost predicate Reaches(labels: seq<Label>, s: State) {
    Run(Start(), labels) == s
  }

  lemma {:induction false} RunSnoc(s: State, labels: seq<Label>, l: Label)
    ensures Run(s, labels + [l]) == Step(Run(s, labels), l)
    decreases |labels|
  {
    hide Step;
    if labels == [] {
      assert [] + [l] == [l] && [l][1..] == [];
    } else {
      assert (labels + [l])[1..] == labels[1..] + [l];
      RunSnoc(Step(s, labels[0]), labels[1..], l);
    }
  }

  lemma Extend(labels: seq<Label>, s: State, l: Label) returns (labels': seq<Label>, s': State)
    requires Reaches(labels, s)
    ensures Reaches(labels', s') && s' == Step(s, l)
  {
    RunSnoc(Start(), labels, l);
    labels', s' := labels + [l], Step(s, l);
  }

  lemma Queue(labels: seq<Label>, s: State, item: Item) returns (labels': seq<Label>, s': State)
    requires Reaches(labels, s) && s.producer.Rest? && !item.rtp && item.data != []
    ensures Reaches(labels', s')
    ensures s' == s.(producer := Claim, bytes := s.bytes + |item.data|, outbox := s.outbox + [item],
                     log := s.log.(offered := s.log.offered + [item], queued := s.log.queued + item.data))
  {
    hide Reaches, Consumed;
    labels', s' := Extend(labels, s, Offer(item));
    labels', s' := Extend(labels', s', Produce);
    labels', s' := Extend(labels', s', Produce);
  }

  function AllSent(a: Item): Log {
    Log([a], 0, a.data, a.data, |a.data|, false, false, false)
  }

  // One response is queued and sent; the dispatcher has just found the outbox empty.
  lemma SentAndLeaving(a: Item) returns (labels: seq<Label>, s: State)
    requires !a.rtp && a.data != []
    ensures Reaches(labels, s)
    ensures s == Start().(consumer := Unwatch, armed := true, watched := true, log := AllSent(a))
  {
    hide Reaches, Popped, Written;
    labels, s := [], Start();
    assert Reaches(labels, s) by { NothingRun(); }
    labels, s := Queue(labels, s, a);
    labels, s := Extend(labels, s, Produce);
    labels, s := Extend(labels, s, Produce);
    labels, s := Extend(labels, s, Wake);
    assert [] + a.data == a.data;
    labels, s := SendIt(labels, s, a);
  }

  lemma NothingRun()
    ensures Reaches([], Start())
  {
  }

  lemma SendIt(labels: seq<Label>, s: State, a: Item) returns (labels': seq<Label>, s': State)
    requires Reaches(labels, s) && a.data != []
    requires s == Start().(consumer := Top, armed := true, watched := true, bytes := |a.data|, outbox := [a],
                           log := AllSent(a).(kernel := [], mark := 0))
    ensures Reaches(labels', s')
    ensures s' == Start().(consumer := Unwatch, armed := true, watched := true, log := AllSent(a))
  {
    hide Reaches;
    assert [a][1..] == [];
    labels', s' := Extend(labels, s, Consume(WouldBlock));
    labels', s' := Extend(labels', s', Consume(WouldBlock));
    labels', s' := Extend(labels', s', Consume(WouldBlock));
    assert a.data[0..|a.data|] == a.data && [] + a.data == a.data;
    labels', s' := Extend(labels', s', Consume(Took(|a.data|)));
    labels', s' := Extend(labels', s', Consume(WouldBlock));
  }

  /** A response queued while the dispatcher leaves stays unsent, with nothing left to wake it. */
  lemma LostWakeup(a: Item, b: Item) returns (labels: seq<Label>)
    requires !a.rtp && a.data != [] && !b.rtp && b.data != []
    ensures var s := Run(Start(), labels);
            AtRest(s) && s.outbox == [b] && !s.watched && s.log.kernel == a.data && s.log.queued == a.data + b.data
  {
    hide Popped, Written;
    var s;
    labels, s := SentAndLeaving(a);
    labels, s := Queue(labels, s, b);
    labels, s := Extend(labels, s, Produce);
    labels, s := Extend(labels, s, Consume(WouldBlock));
    labels, s := Extend(labels, s, Consume(WouldBlock));
    labels, s := Extend(labels, s, Consume(WouldBlock));
    assert [] + [b] == [b];
  }

  /** A latch set by TEARDOWN after the dispatcher has decided is not acted upon: the connection stays open. */
  lemma LateLatchIsMissed(a: Item) returns (labels: seq<Label>)
    requires !a.rtp && a.data != []
    ensures var s := Run(Start(), labels); AtRest(s) && s.closing && !s.watched && !Waiting(s) && s.log.late
  {
    hide Popped, Written;
    var s;
    labels, s := SentAndLeaving(a);
    labels, s := Extend(labels, s, Consume(WouldBlock));
    labels, s := Extend(labels, s, Consume(WouldBlock));
    labels, s := Extend(labels, s, Consume(WouldBlock));
    labels, s := Extend(labels, s, Latch);
  }
}
