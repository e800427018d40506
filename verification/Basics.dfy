/** Bytes, big-endian fields and small sequence helpers shared by the other modules. */
module Basics {

  newtype byte = x: int | 0 <= x < 0x100
  type u16 = x: int | 0 <= x < 0x1_0000
  type u32 = x: int | 0 <= x < 0x1_0000_0000

  const TWO_16 := 0x1_0000
  const TWO_32 := 0x1_0000_0000
  const TWO_64 := 0x1_0000_0000_0000_0000

  datatype Option<+T> = None | Some(value: T)

  function Min(a: int, b: int): int {
    if a <= b then a else b
  }

  function Max(a: int, b: int): int {
    if a <= b then b else a
  }

  // The two and four byte network-order fields of RTP headers and interleaved frames.
  function BigEndian16(n: u16): (s: seq<byte>)
    ensures |s| == 2
  {
    [(n / 256) as byte, (n % 256) as byte]
  }

  function FromBigEndian16(hi: byte, lo: byte): u16 {
    hi as int * 256 + lo as int
  }

  function BigEndian32(n: u32): (s: seq<byte>)
    ensures |s| == 4
  {
    BigEndian16(n / 0x1_0000) + BigEndian16(n % 0x1_0000)
  }

  function FromBigEndian32(a: byte, b: byte, c: byte, d: byte): u32 {
    FromBigEndian16(a, b) * 0x1_0000 + FromBigEndian16(c, d)
  }

  lemma RoundTrip16(n: u16)
    ensures var s := BigEndian16(n); FromBigEndian16(s[0], s[1]) == n
  {
  }

  lemma RoundTrip32(n: u32)
    ensures var s := BigEndian32(n); FromBigEndian32(s[0], s[1], s[2], s[3]) == n
  {
    RoundTrip16(n / 0x1_0000);
    RoundTrip16(n % 0x1_0000);
  }

  lemma ShiftTwice(n: int)
    ensures n / 0x1_0000 / 256 == n / 0x100_0000
  {
  }

  lemma LowHalf(n: int)
    ensures n % 0x1_0000 / 256 == n / 256 % 256 && n % 0x1_0000 % 256 == n % 256
  {
    var q := n / 0x1_0000;
    assert n / 256 == q * 256 + n % 0x1_0000 / 256;
  }

  lemma BigEndian32Bytes(n: u32)
    ensures BigEndian32(n) == [(n / 0x100_0000) as byte, (n / 0x1_0000 % 256) as byte,
                               (n / 256 % 256) as byte, (n % 256) as byte]
  {
    ShiftTwice(n);
    LowHalf(n);
  }

  lemma DropDrop<T>(s: seq<T>, i: nat, j: nat)
    requires i + j <= |s|
    ensures s[i..][j..] == s[i + j..]
  {
  }

  lemma SplitTail<T>(s: seq<T>, i: nat, j: nat)
    requires i <= j <= |s|
    ensures s[i..] == s[i..j] + s[j..]
  {
  }

  lemma Assoc<T>(a: seq<T>, b: seq<T>, c: seq<T>)
    ensures a + b + c == a + (b + c)
  {
  }

  function Concat<T>(parts: seq<seq<T>>): seq<T> {
    if parts == [] then [] else parts[0] + Concat(parts[1..])
  }

  lemma {:induction false} ConcatAppend<T>(a: seq<seq<T>>, b: seq<seq<T>>)
    ensures Concat(a + b) == Concat(a) + Concat(b)
  {
    if a == [] {
      assert a + b == b;
    } else {
      ConcatAppend(a[1..], b);
      assert (a + b)[1..] == a[1..] + b;
    }
  }

  lemma ConcatSnoc<T>(a: seq<seq<T>>, x: seq<T>)
    ensures Concat(a + [x]) == Concat(a) + x
  {
    ConcatAppend(a, [x]);
    assert Concat([x]) == x + Concat([]);
  }
}
