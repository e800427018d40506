/** `base64Encode` for the parameter sets in the SDP, and a decoder for it (section 4 of RFC 4648). */
module Base64 {
  import opened Basics

  // Entry i of the alphabet table.
  function Symbol(i: int): char
    requires 0 <= i < 64
  {
    if i < 26 then 'A' + i as char
    else if i < 52 then 'a' + (i - 26) as char
    else if i < 62 then '0' + (i - 52) as char
    else if i == 62 then '+'
    else '/'
  }

  function SymbolValue(c: char): Option<int> {
    if 'A' <= c <= 'Z' then Some(c as int - 'A' as int)
    else if 'a' <= c <= 'z' then Some(c as int - 'a' as int + 26)
    else if '0' <= c <= '9' then Some(c as int - '0' as int + 52)
    else if c == '+' then Some(62)
    else if c == '/' then Some(63)
    else None
  }

  lemma SymbolRoundTrip(i: int)
    requires 0 <= i < 64
    ensures SymbolValue(Symbol(i)) == Some(i) && Symbol(i) != '='
  {
  }

  function ByteAt(d: seq<byte>, i: nat): (b: int)
    ensures 0 <= b < 256
  {
    if i < |d| then d[i] as int else 0
  }

  // The 24 bits of up to three bytes at i, missing ones read as zero.
  function Bits(d: seq<byte>, i: nat): (b: int)
    ensures 0 <= b < 0x100_0000
  {
    ByteAt(d, i) * 0x1_0000 + ByteAt(d, i + 1) * 0x100 + ByteAt(d, i + 2)
  }

  function Group(d: seq<byte>, i: nat): string
    requires i < |d|
  {
    var b := Bits(d, i);
    [Symbol(b / 0x4_0000), Symbol(b / 0x1000 % 64),
     if i + 1 < |d| then Symbol(b / 0x40 % 64) else '=',
     if i + 2 < |d| then Symbol(b % 64) else '=']
  }

  function Encoded(d: seq<byte>, i: nat): string
    decreases |d| - i
  {
    if i >= |d| then "" else Group(d, i) + Encoded(d, i + 3)
  }

  method Base64Encode(d: seq<byte>) returns (out: string)
    ensures out == Encoded(d, 0)
  {
    out := "";
    var i := 0;
    while i < |d|
      invariant 0 <= i
      invariant out + Encoded(d, i) == Encoded(d, 0)
      decreases |d| - i
    {
      var b := d[i] as int * 0x1_0000;
      if i + 1 < |d| {
        b := b + d[i + 1] as int * 0x100;
      }
      if i + 2 < |d| {
        b := b + d[i + 2] as int;
      }
      assert b == Bits(d, i);
      Assoc(out, Group(d, i), Encoded(d, i + 3));
      out := out + [Symbol(b / 0x4_0000), Symbol(b / 0x1000 % 64),
                    if i + 1 < |d| then Symbol(b / 0x40 % 64) else '=',
                    if i + 2 < |d| then Symbol(b % 64) else '='];
      i := i + 3;
    }
    assert Encoded(d, i) == "";
  }

  // ---------- decoding ----------

  function Value(c: char): int {
    if SymbolValue(c).Some? then SymbolValue(c).value else 0
  }

  // Every character is from the alphabet, or padding where padding may stand.
  predicate Readable(s: string, i: nat)
    requires i + 4 <= |s|
  {
    && SymbolValue(s[i]).Some? && SymbolValue(s[i + 1]).Some?
    && (SymbolValue(s[i + 2]).Some? || (s[i + 2] == '=' && s[i + 3] == '='))
    && (SymbolValue(s[i + 3]).Some? || s[i + 3] == '=')
    && (s[i + 3] == '=' ==> i + 4 == |s|)
  }

  function GroupBytes(s: string, i: nat): seq<byte>
    requires i + 4 <= |s|
  {
    var c0, c1, c2, c3 := Value(s[i]), Value(s[i + 1]), Value(s[i + 2]), Value(s[i + 3]);
    [((c0 * 4 + c1 / 16) % 256) as byte]
    + (if s[i + 2] == '=' then [] else [((c1 % 16 * 16 + c2 / 4) % 256) as byte])
    + (if s[i + 3] == '=' then [] else [((c2 % 4 * 64 + c3) % 256) as byte])
  }

  function Decode(s: string, i: nat): Option<seq<byte>>
    decreases |s| - i
  {
    if i >= |s| then if i == |s| then Some([]) else None
    else if i + 4 > |s| || !Readable(s, i) then None
    else
      var rest := Decode(s, i + 4);
      if rest.None? then None else Some(GroupBytes(s, i) + rest.value)
  }

  lemma Sextet0(x: int, low: int)
    requires 0 <= x < 256 && 0 <= low < 0x1_0000
    ensures (x * 0x1_0000 + low) / 0x4_0000 == x / 4
  {
  }

  lemma Sextet1(x: int, y: int, z: int)
    requires 0 <= x < 256 && 0 <= y < 256 && 0 <= z < 256
    ensures (x * 0x1_0000 + y * 0x100 + z) / 0x1000 % 64 == x % 4 * 16 + y / 16
  {
    assert (x * 0x1_0000 + y * 0x100 + z) / 0x1000 == x * 16 + y / 16;
  }

  lemma Sextet2(x: int, y: int, z: int)
    requires 0 <= x < 256 && 0 <= y < 256 && 0 <= z < 256
    ensures (x * 0x1_0000 + y * 0x100 + z) / 0x40 % 64 == y % 16 * 4 + z / 64
  {
    assert (x * 0x1_0000 + y * 0x100 + z) / 0x40 == x * 0x400 + y * 4 + z / 64;
  }

  lemma {:induction false} LengthOfEncoded(d: seq<byte>, i: nat)
    requires i <= |d| + 2
    ensures |Encoded(d, i)| == if i >= |d| then 0 else (|d| - i + 2) / 3 * 4
    decreases |d| - i
  {
    if i < |d| {
      LengthOfEncoded(d, i + 3);
    }
  }

  lemma BitsOf(d: seq<byte>, i: nat)
    ensures var b := Bits(d, i); var x, y, z := ByteAt(d, i), ByteAt(d, i + 1), ByteAt(d, i + 2);
            && b / 0x4_0000 == x / 4 && b / 0x1000 % 64 == x % 4 * 16 + y / 16
            && b / 0x40 % 64 == y % 16 * 4 + z / 64 && b % 64 == z % 64
  {
    hide ByteAt;
    var x, y, z := ByteAt(d, i), ByteAt(d, i + 1), ByteAt(d, i + 2);
    Sextet0(x, y * 0x100 + z);
    Sextet1(x, y, z);
    Sextet2(x, y, z);
  }

  lemma GroupReadable(d: seq<byte>, i: nat, s: string, at: nat)
    requires i < |d| && at + 4 <= |s| && s[at..at + 4] == Group(d, i)
    requires i + 3 > |d| ==> at + 4 == |s|
    ensures Readable(s, at)
    ensures var x, y, z := ByteAt(d, i), ByteAt(d, i + 1), ByteAt(d, i + 2);
            && Value(s[at]) == x / 4 && Value(s[at + 1]) == x % 4 * 16 + y / 16
            && (if i + 1 < |d| then s[at + 2] != '=' && Value(s[at + 2]) == y % 16 * 4 + z / 64 else s[at + 2] == '=')
            && (if i + 2 < |d| then s[at + 3] != '=' && Value(s[at + 3]) == z % 64 else s[at + 3] == '=')
  {
    var b := Bits(d, i);
    var g := Group(d, i);
    BitsOf(d, i);
    SymbolRoundTrip(b / 0x4_0000);
    SymbolRoundTrip(b / 0x1000 % 64);
    SymbolRoundTrip(b / 0x40 % 64);
    SymbolRoundTrip(b % 64);
    assert s[at] == g[0] && s[at + 1] == g[1] && s[at + 2] == g[2] && s[at + 3] == g[3];
  }

  // Sextets put back together give the bytes.
  lemma Rejoin(x: int, y: int, z: int)
    requires 0 <= x < 256 && 0 <= y < 256 && 0 <= z < 256
    ensures (x / 4 * 4 + (x % 4 * 16 + y / 16) / 16) % 256 == x
    ensures ((x % 4 * 16 + y / 16) % 16 * 16 + (y % 16 * 4 + z / 64) / 4) % 256 == y
    ensures ((y % 16 * 4 + z / 64) % 4 * 64 + z % 64) % 256 == z
  {
    assert (x % 4 * 16 + y / 16) / 16 == x % 4 && (x % 4 * 16 + y / 16) % 16 == y / 16;
    assert (y % 16 * 4 + z / 64) / 4 == y % 16 && (y % 16 * 4 + z / 64) % 4 == z / 64;
  }

  lemma UpToThree(d: seq<byte>, i: nat)
    requires i < |d|
    ensures d[i..Min(|d|, i + 3)]
         == [d[i]] + (if i + 1 < |d| then [d[i + 1]] else []) + (if i + 2 < |d| then [d[i + 2]] else [])
  {
  }

  lemma GroupDecodes(d: seq<byte>, i: nat, s: string, at: nat)
    requires i < |d| && at + 4 <= |s| && s[at..at + 4] == Group(d, i)
    requires i + 3 > |d| ==> at + 4 == |s|
    ensures Readable(s, at) && GroupBytes(s, at) == d[i..Min(|d|, i + 3)]
  {
    hide Group, Value, Readable;
    GroupReadable(d, i, s, at);
    Rejoin(ByteAt(d, i), ByteAt(d, i + 1), ByteAt(d, i + 2));
    UpToThree(d, i);
    assert GroupBytes(s, at) == [d[i]] + (if i + 1 < |d| then [d[i + 1]] else [])
                                       + (if i + 2 < |d| then [d[i + 2]] else []);
  }

  // s holds the encoding of d from byte i on at position `at`.
  lemma {:induction false} DecodeEncoded(d: seq<byte>, i: nat, s: string, at: nat)
    requires at <= |s| && s[at..] == Encoded(d, i) && i <= |d| + 2
    ensures Decode(s, at) == Some(if i >= |d| then [] else d[i..])
    decreases |d| - i
  {
    if i < |d| {
      assert s[at..at + 4] == s[at..][..4] == Group(d, i);
      DropDrop(s, at, 4);
      LengthOfEncoded(d, i + 3);
      DecodeEncoded(d, i + 3, s, at + 4);
      GroupDecodes(d, i, s, at);
      var end := Min(|d|, i + 3);
      SplitTail(d, i, end);
      assert end == |d| ==> d[end..] == [];
    }
  }

  /** Decoding returns the bytes, and four characters stand for every three bytes begun. */
  lemma Base64RoundTrip(d: seq<byte>)
    ensures Decode(Encoded(d, 0), 0) == Some(d)
    ensures |Encoded(d, 0)| == (|d| + 2) / 3 * 4
  {
    var s := Encoded(d, 0);
    assert s[0..] == s && d[0..] == d;
    DecodeEncoded(d, 0, s, 0);
    LengthOfEncoded(d, 0);
  }
}
