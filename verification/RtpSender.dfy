/** `RTPSender::sendTCPInterleaved`: one frame through scatter-gather writes the kernel may cut short. */
module RtpSender {
  import opened Basics
  import opened VideoStream

  lemma ConcatDrop(iov: seq<seq<byte>>, n: nat)
    requires iov != [] && |iov[0]| <= n <= |Concat(iov)|
    ensures Concat(iov)[n..] == Concat(iov[1..])[n - |iov[0]|..]
  {
  }

  lemma ConcatTrim(iov: seq<seq<byte>>, n: nat)
    requires iov != [] && n < |iov[0]|
    ensures Concat(iov)[n..] == Concat([iov[0][n..]] + iov[1..])
  {
    assert ([iov[0][n..]] + iov[1..])[1..] == iov[1..];
  }

  // Advances the vectors past the n bytes the kernel took.
  method Advance(iov: seq<seq<byte>>, n: nat) returns (iov': seq<seq<byte>>)
    requires n <= |Concat(iov)|
    ensures Concat(iov') == Concat(iov)[n..]
  {
    var advance := n;
    iov' := iov;
    while advance > 0 && iov' != []
      invariant 0 <= advance <= |Concat(iov')|
      invariant Concat(iov')[advance..] == Concat(iov)[n..]
      decreases advance, |iov'|
    {
      if advance >= |iov'[0]| {
        ConcatDrop(iov', advance);
        advance := advance - |iov'[0]|;
        iov' := iov'[1..];
      } else {
        ConcatTrim(iov', advance);
        iov' := [iov'[0][advance..]] + iov'[1..];
        advance := 0;
      }
    }
  }

  // `kernel` holds what the successive sendmsg calls answer: an error if not positive, otherwise how much
  // they would take of what is offered. Running out of answers is a lost connection.
  method SendTcpInterleaved(channel: byte, data: seq<byte>, kernel: seq<int>) returns (ok: bool, wire: seq<byte>)
    ensures |data| > 0xFFFF ==> !ok && wire == []
    ensures |data| <= 0xFFFF ==> wire <= Interleaved(channel as int, data)
    ensures |data| <= 0xFFFF ==> (ok <==> wire == Interleaved(channel as int, data))
  {
    wire := [];
    if |data| > 0xFFFF {
      return false, [];
    }
    ghost var frame := Interleaved(channel as int, data);
    var header := ['$' as int as byte, channel] + BigEndian16(|data|);
    var iov := [header, data];
    assert Concat(iov) == frame by {
      assert iov[1..] == [data] && Concat([data]) == data + [];
    }
    var remaining := 4 + |data|;
    var call := 0;
    while remaining > 0
      invariant 0 <= call <= |kernel| && remaining == |Concat(iov)|
      invariant wire + Concat(iov) == frame
      decreases |kernel| - call
    {
      if call == |kernel| || kernel[call] <= 0 {
        return false, wire;
      }
      var n := Min(kernel[call], remaining);
      var offered := Concat(iov);
      iov := Advance(iov, n);
      wire := wire + offered[..n];
      remaining := remaining - n;
      call := call + 1;
    }
    return true, wire;
  }
}
