/**
 The outgoing half of a connection: responses and interleaved frames are queued by the pacer and
 drained by the dispatcher whenever the socket takes bytes. Here each call runs on its own; how their
 steps interleave is the subject of `EgressSteps`.
 */
module Egress {
  import opened Basics

  const OUTBOX_HWM: nat := 5 * 1024 * 1024

  // What send() answers. It never takes more than it is offered.
  datatype SendResult = Took(n: nat) | WouldBlock | Interrupted | Failed

  function TotalSize(buffers: seq<seq<byte>>): nat {
    if buffers == [] then 0 else |buffers[0]| + TotalSize(buffers[1..])
  }

  lemma {:induction false} TotalSizeAppend(a: seq<seq<byte>>, b: seq<seq<byte>>)
    ensures TotalSize(a + b) == TotalSize(a) + TotalSize(b)
  {
    if a == [] {
      assert a + b == b;
    } else {
      assert (a + b)[1..] == a[1..] + b && (a + b)[0] == a[0];
      TotalSizeAppend(a[1..], b);
    }
  }

  lemma TotalSizeSnoc(a: seq<seq<byte>>, x: seq<byte>)
    ensures TotalSize(a + [x]) == TotalSize(a) + |x|
  {
    TotalSizeAppend(a, [x]);
    assert [x][1..] == [];
  }

  // What is left of the buffer being written.
  function Unsent(wbuf: Option<seq<byte>>, woff: nat): seq<byte> {
    if wbuf.Some? && woff <= |wbuf.value| then wbuf.value[woff..] else []
  }

  // How much the kernel takes of buffers offered one after the other, by its answers: each of them is about what is
  // left of the buffer in front. An error, a full socket and a closed one end the calls.
  function Accepted(buffers: seq<seq<byte>>, answers: seq<SendResult>): nat
    decreases |answers|
  {
    if buffers == [] || answers == [] then 0
    else
      match answers[0]
      case Took(n) =>
        if n == 0 then 0
        else if n < |buffers[0]| then n + Accepted([buffers[0][n..]] + buffers[1..], answers[1..])
        else |buffers[0]| + Accepted(buffers[1..], answers[1..])
      case Interrupted => Accepted(buffers, answers[1..])
      case WouldBlock => 0
      case Failed => 0
  }

  // What is left of the buffer being written, and the buffers behind it.
  function ToSend(wbuf: Option<seq<byte>>, woff: nat, outbox: seq<seq<byte>>): seq<seq<byte>> {
    (if wbuf.Some? && woff <= |wbuf.value| then [wbuf.value[woff..]] else []) + outbox
  }

  lemma AcceptedSome(rest: seq<byte>, outbox: seq<seq<byte>>, answers: seq<SendResult>, n: nat)
    requires answers != [] && answers[0] == Took(n) && n > 0
    ensures Accepted([rest] + outbox, answers)
         == Min(n, |rest|)
            + Accepted(if n < |rest| then [rest[n..]] + outbox else outbox, answers[1..])
  {
    assert ([rest] + outbox)[0] == rest && ([rest] + outbox)[1..] == outbox;
  }

  lemma NothingInFront(woff: nat, outbox: seq<seq<byte>>)
    ensures ToSend(None, woff, outbox) == outbox
  {
  }

  // What is to be sent once n bytes of the buffer in front are gone.
  function After(rest: seq<byte>, n: nat, outbox: seq<seq<byte>>): seq<seq<byte>>
    requires n <= |rest|
  {
    if n < |rest| then [rest[n..]] + outbox else outbox
  }

  lemma AfterIs(buf: seq<byte>, woff: nat, n: nat, outbox: seq<seq<byte>>)
    requires woff + n <= |buf|
    ensures After(buf[woff..], n, outbox)
         == if woff + n < |buf| then ToSend(Some(buf), woff + n, outbox) else ToSend(None, 0, outbox)
  {
    DropDrop(buf, woff, n);
  }

  // What one call of send has come to.
  datatype Outcome = Sent | Full | Broken

  lemma NothingToSend(answers: seq<SendResult>)
    ensures Accepted([], answers) == 0 && Accepted(ToSend(None, 0, []), answers) == 0
  {
  }

  lemma NoAnswers(buffers: seq<seq<byte>>)
    ensures Accepted(buffers, []) == 0
  {
  }

  lemma AcceptedNone(buffers: seq<seq<byte>>, answers: seq<SendResult>)
    requires answers != [] && (answers[0] == Took(0) || answers[0].WouldBlock? || answers[0].Failed?)
    ensures Accepted(buffers, answers) == 0
  {
  }

  lemma AcceptedLater(buffers: seq<seq<byte>>, answers: seq<SendResult>)
    requires answers != [] && answers[0].Interrupted?
    ensures Accepted(buffers, answers) == Accepted(buffers, answers[1..])
  {
  }

  class Connection {
    var outbox: seq<seq<byte>>
    var outboxBytes: nat
    var wbuf: Option<seq<byte>>
    var woff: nat
    var armed: bool
    var closeAfterWrite: bool
    ghost var queued: seq<byte>
    ghost var kernel: seq<byte>

    // Bytes handed to the kernel, then the rest of the buffer being written, then the outbox, are
    // everything queued, in order. Nothing waits unless the socket is watched.
    ghost predicate Valid()
      reads this
    {
      && kernel + Unsent(wbuf, woff) + Concat(outbox) == queued
      && outboxBytes == TotalSize(outbox)
      && (forall i | 0 <= i < |outbox| :: outbox[i] != [])
      && (wbuf.Some? ==> woff < |wbuf.value|)
      && (wbuf.Some? || outbox != [] ==> armed)
    }

    constructor ()
      ensures Valid() && queued == [] && kernel == [] && !closeAfterWrite
    {
      outbox, outboxBytes, wbuf, woff, armed, closeAfterWrite := [], 0, None, 0, false, false;
      queued, kernel := [], [];
    }

    method EnableWrite()
      modifies this`armed
      ensures armed
    {
      if armed {
        return;
      }
      armed := true;
    }

    method Enqueue(buf: seq<byte>)
      requires Valid() && buf != []
      modifies this`outbox, this`outboxBytes, this`armed, this`queued
      ensures Valid() && queued == old(queued) + buf && outboxBytes == old(outboxBytes) + |buf|
    {
      outboxBytes := outboxBytes + |buf|;
      ConcatSnoc(outbox, buf);
      TotalSizeSnoc(outbox, buf);
      Assoc(kernel + Unsent(wbuf, woff), Concat(outbox), buf);
      outbox := outbox + [buf];
      queued := queued + buf;
      EnableWrite();
    }

    method SendResponse(wire: seq<byte>)
      requires Valid() && wire != []
      modifies this`outbox, this`outboxBytes, this`armed, this`queued
      ensures Valid() && queued == old(queued) + wire
    {
      Enqueue(wire);
    }

    /** Above the watermark the frame is dropped and the connection will be closed. */
    method PushTcpFrame(frame: seq<byte>)
      requires Valid() && frame != []
      modifies this`outbox, this`outboxBytes, this`armed, this`queued, this`closeAfterWrite
      ensures Valid()
      ensures if old(outboxBytes) > OUTBOX_HWM then queued == old(queued) && closeAfterWrite
              else queued == old(queued) + frame && closeAfterWrite == old(closeAfterWrite)
      ensures outboxBytes <= Max(old(outboxBytes), OUTBOX_HWM + |frame|)
    {
      if outboxBytes > OUTBOX_HWM {
        closeAfterWrite := true;
        return;
      }
      Enqueue(frame);
    }

    method PopNext()
      requires Valid() && wbuf.None? && outbox != []
      modifies this`outbox, this`outboxBytes, this`wbuf, this`woff
      ensures Valid() && wbuf.Some? && |outbox| < |old(outbox)|
      ensures ToSend(wbuf, woff, outbox) == old(outbox)
    {
      ghost var before := outbox;
      wbuf := Some(outbox[0]);
      outbox := outbox[1..];
      outboxBytes := outboxBytes - Min(|wbuf.value|, outboxBytes);
      woff := 0;
      assert wbuf.value[0..] == wbuf.value;
      Assoc(kernel, wbuf.value, Concat(outbox));
      assert kernel + [] == kernel;
    }

    // n bytes of the current buffer reach the kernel.
    method Advance(n: nat)
      requires Valid() && wbuf.Some? && 0 < n <= |wbuf.value| - woff
      modifies this`wbuf, this`woff, this`kernel
      ensures Valid() && kernel == old(kernel) + old(wbuf.value[woff..])[..n]
      ensures ToSend(wbuf, woff, outbox) == After(old(wbuf.value[woff..]), n, outbox)
    {
      hide Concat, TotalSize, ToSend, After;
      var buf := wbuf.value;
      ghost var taken := buf[woff..][..n];
      assert buf[woff..] == taken + buf[woff + n..];
      Assoc(kernel, taken, buf[woff + n..]);
      AfterIs(buf, woff, n, outbox);
      kernel := kernel + taken;
      woff := woff + n;
      if woff >= |buf| {
        assert buf[woff..] == [];
        wbuf := None;
        woff := 0;
      }
    }

    // One call of send, on what is left of the buffer in front.
    method Write(answer: SendResult, ghost answers: seq<SendResult>) returns (r: Outcome)
      requires Valid() && wbuf.Some? && answers != [] && answers[0] == answer
      modifies this`wbuf, this`woff, this`kernel
      ensures Valid() && old(kernel) <= kernel
      ensures r.Full? || r.Broken? ==> kernel == old(kernel) && wbuf == old(wbuf) && woff == old(woff)
      ensures |kernel| + (if r.Sent? then Accepted(ToSend(wbuf, woff, outbox), answers[1..]) else 0)
           == |old(kernel)| + Accepted(old(ToSend(wbuf, woff, outbox)), answers)
    {
      hide Accepted, Valid;
      ghost var rest, before := Front(), ToSend(wbuf, woff, outbox);
      match answer {
        case Took(n) =>
          if n == 0 {
            AcceptedNone(before, answers);
            return Broken;
          }
          AcceptedSome(rest, outbox, answers, n);
          Advance(Min(n, |wbuf.value| - woff));
          r := Sent;
        case WouldBlock =>
          AcceptedNone(before, answers);
          r := Full;
        case Interrupted =>
          AcceptedLater(before, answers);
          r := Sent;
        case Failed =>
          AcceptedNone(before, answers);
          r := Broken;
      }
    }

    ghost function Front(): seq<byte>
      requires Valid() && wbuf.Some?
      reads this
      ensures ToSend(wbuf, woff, outbox) == [Front()] + outbox
      ensures |Front()| == |wbuf.value| - woff > 0 && Front() == wbuf.value[woff..]
    {
      wbuf.value[woff..]
    }

    /**
     Drains the outbox against any answers of the kernel; when those given are used up, it would block.
     Nothing is lost, repeated or reordered, what is sent is what the kernel says it takes, and the socket stays
     watched exactly while something waits.
     */
    method OnWritable(answers: seq<SendResult>) returns (open: bool)
      requires Valid() && armed
      modifies this`outbox, this`outboxBytes, this`wbuf, this`woff, this`kernel, this`armed
      ensures Valid() && old(kernel) <= kernel && closeAfterWrite == old(closeAfterWrite)
      ensures |kernel| == |old(kernel)| + Accepted(old(ToSend(wbuf, woff, outbox)), answers)
      ensures open ==> (armed <==> kernel != queued)
      ensures !armed ==> kernel == queued && open == !closeAfterWrite
    {
      hide Accepted, ToSend, Concat, TotalSize, Unsent;
      var at := 0;
      ghost var all := Accepted(ToSend(wbuf, woff, outbox), answers);
      assert answers[0..] == answers;
      while true
        invariant Valid() && armed && at <= |answers|
        invariant old(kernel) <= kernel
        invariant |kernel| + Accepted(ToSend(wbuf, woff, outbox), answers[at..]) == |old(kernel)| + all
        decreases |answers| - at, |outbox|, wbuf.None?
      {
        if wbuf.None? {
          NothingInFront(woff, outbox);
          if outbox == [] {
            AllSent();
            armed := false;
            NothingToSend(answers[at..]);
            return !closeAfterWrite;
          }
          PopNext();
        }
        if at == |answers| {
          SomethingLeft();
          NoAnswers(ToSend(wbuf, woff, outbox));
          return true;
        }
        assert answers[at..][1..] == answers[at + 1..];
        var r := Write(answers[at], answers[at..]);
        at := at + 1;
        if r.Full? {
          SomethingLeft();
          return true;
        }
        if r.Broken? {
          return false;
        }
      }
    }

    lemma AllSent()
      requires Valid() && wbuf.None? && outbox == []
      ensures kernel == queued
    {
      assert kernel + [] + [] == kernel;
    }

    lemma SomethingLeft()
      requires Valid() && wbuf.Some?
      ensures kernel != queued
    {
      assert |queued| == |kernel| + |Unsent(wbuf, woff)| + |Concat(outbox)|;
    }
  }
}
