/**
 The receive path of a session: bytes arrive in arbitrary pieces, text requests and interleaved
 binary frames mixed (section 10.12 of RFC 2326), and complete requests come out.
 */
module Receive {
  import opened Basics
  import opened Text
  import opened Request

  const MAX_RECV_BUF: nat := 16 * 1024
  const HEADER_END := "\r\n\r\n"

  // The byte a character of the buffer stands for.
  function Octet(c: char): byte {
    (c as int % 256) as byte
  }

  // The number in a header value; zero where std::stoul throws.
  function NumberIn(value: string): nat {
    var n := Stoul(Trim(value));
    if n.None? then 0 else n.value
  }

  function LengthAfter(block: string, cl: nat): nat {
    var colon := Find(block, ":", cl);
    var value := NextLine(block, if colon == NPOS then 0 else colon + 1);
    if value.None? then 0 else NumberIn(value.value.text)
  }

  // The framer's own reading of Content-Length: two spellings, the first of them preferred.
  function BodyLength(block: string): nat {
    var upper := Find(block, CRLF + "Content-Length:", 0);
    var lower := Find(block, CRLF + "content-length:", 0);
    if upper != NPOS then LengthAfter(block, upper)
    else if lower != NPOS then LengthAfter(block, lower)
    else 0
  }

  // What the front of the buffer is: too little to tell, a frame of n bytes, or a message of n bytes.
  datatype Front = NeedMore | Frame(size: nat) | Text(size: nat)

  predicate StartsFrame(buf: string) {
    buf != "" && Octet(buf[0]) as int == '$' as int
  }

  function FrameFront(buf: string): Front {
    if |buf| < 4 then NeedMore
    else
      var size := 4 + FromBigEndian16(Octet(buf[2]), Octet(buf[3]));
      if |buf| < size then NeedMore else Frame(size)
  }

  // size_t: the sum wraps around.
  function MessageSize(block: string): nat {
    (|block| + BodyLength(block)) % TWO_64
  }

  function TextFront(buf: string): Front {
    var end := Find(buf, HEADER_END, 0);
    if end == NPOS then NeedMore
    else
      var size := MessageSize(buf[..end + 4]);
      if |buf| < size then NeedMore else Text(size)
  }

  function FrontOf(buf: string): (f: Front)
    ensures f.Frame? ==> 4 <= f.size <= |buf|
    ensures f.Text? ==> f.size <= |buf|
  {
    if buf == "" then NeedMore else if StartsFrame(buf) then FrameFront(buf) else TextFront(buf)
  }

  lemma FrontOfBlock(buf: string, block: string)
    requires buf != "" && !StartsFrame(buf) && |block| >= 4 && block <= buf
    requires Find(buf, HEADER_END, 0) == |block| - 4
    ensures FrontOf(buf) == if |buf| < MessageSize(block) then NeedMore else Text(MessageSize(block))
  {
    assert buf[..|block| - 4 + 4] == block;
  }

  // `spins`: a length that wraps the sum to zero, on which the source loops without end.
  datatype Drained = Drained(requests: seq<Request>, rest: string, spins: bool)

  function Requests(raw: string): seq<Request> {
    var r := Parse(raw);
    if r.None? then [] else [r.value]
  }

  function Drain(buf: string): (d: Drained)
    ensures |d.rest| <= |buf|
    decreases |buf|
  {
    match FrontOf(buf)
    case NeedMore => Drained([], buf, false)
    case Frame(n) => Drain(buf[n..])
    case Text(n) =>
      if n == 0 then Drained([], buf, true)
      else
        var d := Drain(buf[n..]);
        d.(requests := Requests(buf[..n]) + d.requests)
  }

  lemma DrainText(buf: string, n: nat)
    requires FrontOf(buf) == Text(n) && n > 0
    ensures var d := Drain(buf[n..]);
            Drain(buf) == Drained(Requests(buf[..n]) + d.requests, d.rest, d.spins)
  {
  }

  // ---------- chunking ----------

  lemma TextFrontIsStable(a: string, b: string)
    requires TextFront(a).Text?
    ensures TextFront(a + b) == TextFront(a)
  {
    var end := Find(a, HEADER_END, 0);
    FindExtended(a, b, HEADER_END, 0);
    assert (a + b)[..end + 4] == a[..end + 4];
  }

  // More bytes do not change what the front of the buffer is, once it is known.
  lemma FrontIsStable(a: string, b: string)
    ensures !FrontOf(a).NeedMore? ==> FrontOf(a + b) == FrontOf(a)
  {
    if !FrontOf(a).NeedMore? {
      assert (a + b)[0] == a[0];
      if StartsFrame(a) {
        assert (a + b)[2] == a[2] && (a + b)[3] == a[3];
      } else {
        TextFrontIsStable(a, b);
      }
    }
  }

  lemma DropThenAppend(a: string, b: string, n: nat)
    requires n <= |a|
    ensures (a + b)[n..] == a[n..] + b && (a + b)[..n] == a[..n]
  {
  }

  // Draining a, then what is left with b behind it.
  function DrainAgain(d: Drained, b: string): Drained {
    if d.spins then d.(rest := d.rest + b)
    else
      var e := Drain(d.rest + b);
      e.(requests := d.requests + e.requests)
  }

  /** Cutting the stream anywhere changes neither the requests nor what is left over. */
  lemma {:induction false} DrainInTwo(a: string, b: string)
    ensures Drain(a + b) == DrainAgain(Drain(a), b)
    decreases |a|
  {
    FrontIsStable(a, b);
    match FrontOf(a)
    case NeedMore =>
      assert [] + Drain(a + b).requests == Drain(a + b).requests;
    case Frame(n) =>
      DropThenAppend(a, b, n);
      DrainInTwo(a[n..], b);
    case Text(n) =>
      DropThenAppend(a, b, n);
      if n > 0 {
        DrainInTwo(a[n..], b);
        var d := Drain(a[n..]);
        Assoc(Requests(a[..n]), d.requests, Drain(d.rest + b).requests);
      }
  }

  lemma {:induction false} RestIsDrained(buf: string)
    requires !Drain(buf).spins
    ensures Drain(Drain(buf).rest) == Drained([], Drain(buf).rest, false)
    decreases |buf|
  {
    match FrontOf(buf)
    case NeedMore =>
    case Frame(n) => RestIsDrained(buf[n..]);
    case Text(n) => RestIsDrained(buf[n..]);
  }

  // ---------- one wake of the Dispatcher ----------

  // What the successive recv calls of one wake answer; the last one must end the loop.
  datatype Recv = Data(bytes: string) | Again | Interrupted | Closed | Failed

  // The buffer after the recv loop, or None where the source gives the connection up.
  function Gather(buf: string, recvs: seq<Recv>): Option<string>
    decreases |recvs|
  {
    if recvs == [] then Some(buf)
    else
      match recvs[0]
      case Data(bytes) => if |buf + bytes| > MAX_RECV_BUF then None else Gather(buf + bytes, recvs[1..])
      case Again => Some(buf)
      case Interrupted => Gather(buf, recvs[1..])
      case Closed => None
      case Failed => None
  }

  // The bytes that arrive before the socket has nothing more for now.
  function Received(recvs: seq<Recv>): string {
    if recvs == [] || recvs[0].Again? then ""
    else (if recvs[0].Data? then recvs[0].bytes else "") + Received(recvs[1..])
  }

  // The connection neither ends nor fails before the socket has nothing more for now.
  ghost predicate StaysOpen(recvs: seq<Recv>) {
    forall i | 0 <= i < |recvs| && (recvs[i].Closed? || recvs[i].Failed?) :: exists j | 0 <= j < i :: recvs[j].Again?
  }

  lemma StaysOpenStep(recvs: seq<Recv>)
    requires recvs != []
    ensures StaysOpen(recvs)
            <==> recvs[0].Again? || (!recvs[0].Closed? && !recvs[0].Failed? && StaysOpen(recvs[1..]))
  {
    var rest := recvs[1..];
    if StaysOpen(recvs) && !recvs[0].Again? {
      forall i | 0 <= i < |rest| && (rest[i].Closed? || rest[i].Failed?)
        ensures exists j | 0 <= j < i :: rest[j].Again?
      {
        assert recvs[i + 1] == rest[i];
        var j :| 0 <= j < i + 1 && recvs[j].Again?;
        assert rest[j - 1].Again?;
      }
    }
    if !recvs[0].Closed? && !recvs[0].Failed? && StaysOpen(rest) {
      forall i | 0 <= i < |recvs| && (recvs[i].Closed? || recvs[i].Failed?)
        ensures exists j | 0 <= j < i :: recvs[j].Again?
      {
        assert rest[i - 1] == recvs[i];
        var j :| 0 <= j < i - 1 && rest[j].Again?;
        assert recvs[j + 1].Again?;
      }
    }
  }

  /**
   A wake leaves a buffer if and only if the connection stays open and what arrives fits; it is then the
   old buffer with all of that behind it.
   */
  lemma {:induction false} GatherIff(buf: string, recvs: seq<Recv>)
    requires |buf| <= 16_384
    ensures Gather(buf, recvs).Some? <==> StaysOpen(recvs) && |buf + Received(recvs)| <= 16_384
    ensures Gather(buf, recvs).Some? ==> Gather(buf, recvs).value == buf + Received(recvs)
    decreases |recvs|
  {
    hide StaysOpen;
    if recvs == [] {
      assert StaysOpen([]) by { NothingFails(); }
      assert buf + "" == buf;
    } else {
      StaysOpenStep(recvs);
      match recvs[0]
      case Data(bytes) =>
        if |buf + bytes| <= MAX_RECV_BUF {
          GatherIff(buf + bytes, recvs[1..]);
        }
        Assoc(buf, bytes, Received(recvs[1..]));
      case Interrupted =>
        GatherIff(buf, recvs[1..]);
        assert "" + Received(recvs[1..]) == Received(recvs[1..]);
      case Again => assert buf + "" == buf;
      case Closed =>
      case Failed =>
    }
  }

  lemma NothingFails()
    ensures StaysOpen([])
  {
  }

  // The bytes of all results.
  function Datas(recvs: seq<Recv>): string {
    if recvs == [] then "" else (if recvs[0].Data? then recvs[0].bytes else "") + Datas(recvs[1..])
  }

  /** The wake that ends in the ordinary way: whatever arrives in front of the first Again has arrived. */
  lemma {:induction false} ReceivedUpTo(front: seq<Recv>, rest: seq<Recv>)
    requires forall i | 0 <= i < |front| :: front[i].Data? || front[i].Interrupted?
    ensures Received(front + [Again] + rest) == Datas(front) && StaysOpen(front + [Again] + rest)
  {
    var all := front + [Again] + rest;
    if front == [] {
      assert all[0] == Again;
      StaysOpenStep(all);
    } else {
      assert all[0] == front[0] && all[1..] == front[1..] + [Again] + rest;
      ReceivedUpTo(front[1..], rest);
      StaysOpenStep(all);
    }
  }

  class ReceivePath {
    var recvBuf: string

    constructor ()
      ensures recvBuf == ""
    {
      recvBuf := "";
    }

    // Returns false where the connection must be closed.
    method OnReadable(recvs: seq<Recv>) returns (ok: bool, out: seq<Request>)
      requires var g := Gather(recvBuf, recvs); g.Some? ==> !Drain(g.value).spins
      modifies this
      ensures var g := Gather(old(recvBuf), recvs);
              if g.None? then !ok && out == []
              else ok && out == Drain(g.value).requests && recvBuf == Drain(g.value).rest
      ensures |old(recvBuf)| <= 16_384 ==>
                (ok <==> StaysOpen(recvs) && |old(recvBuf) + Received(recvs)| <= 16_384)
                && (ok ==> out == Drain(old(recvBuf) + Received(recvs)).requests
                           && recvBuf == Drain(old(recvBuf) + Received(recvs)).rest && |recvBuf| <= 16_384)
    {
      hide StaysOpen;
      if |recvBuf| <= MAX_RECV_BUF {
        GatherIff(recvBuf, recvs);
      }
      out := [];
      var i := 0;
      var more := true;
      while more && i < |recvs|
        invariant 0 <= i <= |recvs|
        invariant Gather(old(recvBuf), recvs) == if more then Gather(recvBuf, recvs[i..]) else Some(recvBuf)
        decreases |recvs| - i
      {
        match recvs[i] {
          case Data(bytes) =>
            recvBuf := recvBuf + bytes;
            if |recvBuf| > MAX_RECV_BUF {
              return false, [];
            }
          case Again => more := false;
          case Interrupted =>
          case Closed => return false, [];
          case Failed => return false, [];
        }
        assert recvs[i..][1..] == recvs[i + 1..];
        i := i + 1;
      }
      assert recvs[|recvs|..] == [];
      out := ParseBuffer();
      ok := true;
    }

    method ParseBuffer() returns (out: seq<Request>)
      requires !Drain(recvBuf).spins
      modifies this
      ensures out == Drain(old(recvBuf)).requests && recvBuf == Drain(old(recvBuf)).rest
    {
      out := [];
      ghost var all := Drain(recvBuf);
      while true
        invariant all == Drained(out + Drain(recvBuf).requests, Drain(recvBuf).rest, Drain(recvBuf).spins)
        invariant !all.spins
        decreases |recvBuf|
      {
        SkipFrames();
        var front := FrontOf(recvBuf);
        if !front.Text? {
          return;
        }
        var req := TakeMessage(front.size);
        Assoc(out, req, Drain(recvBuf).requests);
        out := out + req;
      }
    }

    // Erases a complete message and parses it; an unacceptable one is dropped.
    method TakeMessage(size: nat) returns (req: seq<Request>)
      requires FrontOf(recvBuf) == Text(size) && size > 0
      modifies this
      ensures |recvBuf| < |old(recvBuf)|
      ensures Drain(old(recvBuf))
           == Drained(req + Drain(recvBuf).requests, Drain(recvBuf).rest, Drain(recvBuf).spins)
    {
      DrainText(recvBuf, size);
      var full := recvBuf[..size];
      recvBuf := recvBuf[size..];
      var r := ParseRequest(full);
      req := if r.None? then [] else [r.value];
    }

    // Discards the interleaved frames in front, up to an incomplete one.
    method SkipFrames()
      modifies this
      ensures Drain(recvBuf) == Drain(old(recvBuf)) && |recvBuf| <= |old(recvBuf)|
      ensures !FrontOf(recvBuf).Frame?
    {
      while recvBuf != "" && Octet(recvBuf[0]) as int == '$' as int
        invariant Drain(recvBuf) == Drain(old(recvBuf)) && |recvBuf| <= |old(recvBuf)|
        decreases |recvBuf|
      {
        if |recvBuf| < 4 {
          return;
        }
        var size := 4 + FromBigEndian16(Octet(recvBuf[2]), Octet(recvBuf[3]));
        if |recvBuf| < size {
          return;
        }
        recvBuf := recvBuf[size..];
      }
    }
  }

  // ---------- many wakes ----------

  function Wakes(buf: string, wakes: seq<seq<Recv>>): Option<Drained>
    decreases |wakes|
  {
    if wakes == [] then Some(Drained([], buf, false))
    else
      var g := Gather(buf, wakes[0]);
      if g.None? || Drain(g.value).spins then None
      else
        var d := Drain(g.value);
        var later := Wakes(d.rest, wakes[1..]);
        if later.None? then None else Some(later.value.(requests := d.requests + later.value.requests))
  }

  function AllReceived(wakes: seq<seq<Recv>>): string {
    if wakes == [] then "" else Received(wakes[0]) + AllReceived(wakes[1..])
  }

  // Every wake finds the connection open, and room for what arrives behind the leftover.
  ghost predicate AllFit(buf: string, wakes: seq<seq<Recv>>)
    decreases |wakes|
  {
    wakes == []
    || (var all := buf + Received(wakes[0]);
        StaysOpen(wakes[0]) && |all| <= MAX_RECV_BUF && AllFit(Drain(all).rest, wakes[1..]))
  }

  // Whatever fits as a whole fits in pieces.
  lemma {:induction false} SmallFits(buf: string, wakes: seq<seq<Recv>>)
    requires forall i | 0 <= i < |wakes| :: StaysOpen(wakes[i])
    requires |buf| + |AllReceived(wakes)| <= MAX_RECV_BUF
    ensures AllFit(buf, wakes)
    decreases |wakes|
  {
    hide StaysOpen;
    if wakes != [] {
      SmallFits(Drain(buf + Received(wakes[0])).rest, wakes[1..]);
    }
  }

  ghost predicate NoneSpins(buf: string, wakes: seq<seq<Recv>>)
    decreases |wakes|
  {
    wakes == []
    || (var d := Drain(buf + Received(wakes[0])); !d.spins && NoneSpins(d.rest, wakes[1..]))
  }

  /** The connection survives all wakes if and only if each of them finds it open, with room, and drained. */
  lemma {:induction false} WakesIff(buf: string, wakes: seq<seq<Recv>>)
    requires |buf| <= MAX_RECV_BUF
    ensures Wakes(buf, wakes).Some? <==> AllFit(buf, wakes) && NoneSpins(buf, wakes)
    decreases |wakes|
  {
    hide StaysOpen, Gather;
    if wakes != [] {
      GatherIff(buf, wakes[0]);
      var all := buf + Received(wakes[0]);
      if StaysOpen(wakes[0]) && |all| <= MAX_RECV_BUF && !Drain(all).spins {
        WakesIff(Drain(all).rest, wakes[1..]);
      }
    }
  }

  // A stream that is drained to an end is so in pieces.
  lemma {:induction false} PiecesEnd(buf: string, wakes: seq<seq<Recv>>)
    requires !Drain(buf + AllReceived(wakes)).spins
    ensures NoneSpins(buf, wakes)
    decreases |wakes|
  {
    if wakes != [] {
      var all := buf + Received(wakes[0]);
      Assoc(buf, Received(wakes[0]), AllReceived(wakes[1..]));
      DrainInTwo(all, AllReceived(wakes[1..]));
      PiecesEnd(Drain(all).rest, wakes[1..]);
    }
  }

  /**
   However a stream that can be drained is cut into wakes and recv calls that fit, the connection survives and the
   requests are those of the whole stream.
   */
  lemma ChunkingInvariance(buf: string, wakes: seq<seq<Recv>>)
    requires Drain(buf) == Drained([], buf, false) && |buf| <= MAX_RECV_BUF
    requires AllFit(buf, wakes) && !Drain(buf + AllReceived(wakes)).spins
    ensures Wakes(buf, wakes) == Some(Drain(buf + AllReceived(wakes)))
  {
    PiecesEnd(buf, wakes);
    WakesIff(buf, wakes);
    WakesDrain(buf, wakes);
  }

  lemma {:induction false} WakesDrain(buf: string, wakes: seq<seq<Recv>>)
    requires Drain(buf) == Drained([], buf, false) && |buf| <= MAX_RECV_BUF
    requires Wakes(buf, wakes).Some?
    ensures Wakes(buf, wakes).value == Drain(buf + AllReceived(wakes))
    decreases |wakes|
  {
    if wakes == [] {
      assert buf + "" == buf;
    } else {
      var more := AllReceived(wakes[1..]);
      GatherIff(buf, wakes[0]);
      var g := buf + Received(wakes[0]);
      RestIsDrained(g);
      WakesDrain(Drain(g).rest, wakes[1..]);
      DrainInTwo(g, more);
      Assoc(buf, Received(wakes[0]), more);
    }
  }
}
