/**
 From the requests and ticks of a session to what the client has: the session queues, the dispatcher drains
 under every interleaving, and the receiver decodes the bytes the kernel was given.
 */
module Delivery {
  import opened Basics
  import opened VideoStream
  import opened Session
  import opened SessionStream
  import E = EgressSteps
  import G = EgressProgress
  import Q = Egress
  import P = SessionProtocol
  import V = VideoReceiver

  // What the pacer offers to the outbox: responses, and frames subject to the watermark.
  function FrameItems(frames: seq<seq<byte>>): seq<E.Item> {
    seq(|frames|, i requires 0 <= i < |frames| => E.Item(frames[i], true))
  }

  function Offers(outs: seq<Output>, write: Writer): seq<E.Item> {
    if outs == [] then []
    else
      match outs[0]
      case Response(_, _, _) => [E.Item(write(outs[0]), false)] + Offers(outs[1..], write)
      case Video(st, f, n, tcp) =>
        (if tcp then FrameItems(Wire(st, FramePackets(st, f, n))) else []) + Offers(outs[1..], write)
  }

  lemma DatasAppend(a: seq<E.Item>, b: seq<E.Item>)
    ensures E.Datas(a + b) == E.Datas(a) + E.Datas(b)
  {
  }

  lemma DatasOfFrames(frames: seq<seq<byte>>)
    ensures E.Datas(FrameItems(frames)) == frames
  {
  }

  lemma {:induction false} OffersAreBuffers(outs: seq<Output>, write: Writer)
    ensures E.Datas(Offers(outs, write)) == Buffers(outs, write)
  {
    hide Wire, FramePackets, E.Datas, FrameItems;
    if outs == [] {
      assert E.Datas([]) == [] by { NoDatas(); }
    } else {
      OffersAreBuffers(outs[1..], write);
      match outs[0] {
        case Response(_, _, _) =>
          DatasAppend([E.Item(write(outs[0]), false)], Offers(outs[1..], write));
          OneData(E.Item(write(outs[0]), false));
        case Video(st, f, n, tcp) =>
          var frames := Wire(st, FramePackets(st, f, n));
          DatasAppend(if tcp then FrameItems(frames) else [], Offers(outs[1..], write));
          DatasOfFrames(frames);
          NoDatas();
      }
    }
  }

  lemma NoDatas()
    ensures E.Datas([]) == []
  {
  }

  lemma OneData(x: E.Item)
    ensures E.Datas([x]) == [x.data]
  {
  }

  /**
   For every run of a session that keeps its video on one channel, and every interleaving in which exactly
   its outputs were offered to the outbox and none was dropped above the watermark: once the outbox is
   drained, a strict receiver of the bytes the kernel was given has every frame sent, as one access unit
   each, and every response, each in order.
   */
  lemma RunIsDelivered(s: State, run: seq<Action>, write: Writer, channel: byte, labels: seq<E.Label>, pl: V.Player)
    requires OnChannel(s, run, channel)
    requires Carried(Acts(s, run).outs) && Readable(Acts(s, run).outs, write)
    requires V.Fresh(pl) && pl.next == s.sequence
    requires var e := E.Run(E.Start(), labels);
             && e.log.offered == Offers(Acts(s, run).outs, write) && e.log.dropped == 0
             && e.producer.Rest? && !E.Waiting(e)
    ensures var items := Items(Acts(s, run).outs, write);
            var end := V.Play(pl, channel, E.Run(E.Start(), labels).log.kernel);
            end.Some? && V.Fresh(end.value)
            && end.value.units == pl.units + V.AllShown(items) && end.value.replies == pl.replies + V.AllSaid(items)
  {
    hide Acts, OnChannel, Carried, Readable, Items, Buffers, Offers;
    hide V.Play, V.Fresh, E.Run, E.Start, E.Waiting, E.Datas;
    E.OfferedIsDelivered(labels);
    OffersAreBuffers(Acts(s, run).outs, write);
    RunReceived(s, run, write, channel, pl);
  }

  /** Until then the kernel has been given a prefix of those bytes, whatever the interleaving. */
  lemma DeliveredSoFar(s: State, run: seq<Action>, write: Writer, labels: seq<E.Label>)
    requires var e := E.Run(E.Start(), labels);
             e.log.offered == Offers(Acts(s, run).outs, write) && e.log.dropped == 0
    ensures E.Run(E.Start(), labels).log.kernel <= Concat(Buffers(Acts(s, run).outs, write))
  {
    hide Acts, Buffers, Offers, E.Run, E.Start, E.Waiting, E.Datas;
    E.OfferedIsDelivered(labels);
    OffersAreBuffers(Acts(s, run).outs, write);
  }

  /**
   With the latch asked for exactly when the session is to be closed: once the dispatcher has run, everything queued
   is sent, and the connection is closed if and only if a TEARDOWN was handled or a frame was dropped.
   */
  lemma TeardownCloses(s: State, run: seq<Action>, labels: seq<E.Label>, answers: seq<Q.SendResult>)
    requires !s.closing
    requires var e := E.Run(E.Start(), labels);
             && e.producer.Rest? && (e.log.asked <==> Acts(s, run).state.closing)
             && G.AtWork(e) && G.Enough(e, answers) && G.AllTaken(answers)
    ensures var e := E.Run(E.Start(), labels);
            var e' := E.Run(e, [E.Wake] + G.Consumes(answers));
            && e'.log.kernel == e'.log.queued
            && (e'.consumer.Closed? <==> P.TornDown(run) || e.log.dropped > 0)
  {
    hide Acts, E.Run, E.Start, E.Waiting, G.AtWork, G.Enough, G.AllTaken, G.Consumes, P.TornDown;
    G.EverythingIsSent(labels, answers);
    G.LatchIff(labels);
    P.ClosingIff(s, run);
  }
}
