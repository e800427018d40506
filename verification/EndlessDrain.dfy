/**
 Buffers on which the drain loop never ends: an announced length can wrap the size of a message around 2^64,
 so that less than the header is cut off, and in the end nothing at all.
 */
module EndlessDrain {
  import opened Basics
  import opened Text
  import opened Request
  import opened Receive
  import opened RequestStream

  // ---------- searching in a part of the text ----------

  lemma MatchInSuffix(s: string, pat: string, j: nat, k: nat)
    requires j <= |s|
    ensures MatchAt(s[j..], pat, k) <==> MatchAt(s, pat, j + k)
  {
    if j + k + |pat| <= |s| {
      assert s[j..][k..k + |pat|] == s[j + k..j + k + |pat|];
    }
  }

  lemma {:induction false} FindInSuffix(s: string, pat: string, j: nat, from: nat)
    requires j <= |s|
    ensures Find(s[j..], pat, from) == var r := Find(s, pat, j + from); if r == NPOS then NPOS else r - j
    decreases |s| - from
  {
    if j + from + |pat| <= |s| {
      MatchInSuffix(s, pat, j, from);
      FindInSuffix(s, pat, j, from + 1);
    }
  }

  lemma {:induction false} FoundBy(s: string, pat: string, from: nat, k: nat)
    requires from <= k && MatchAt(s, pat, k)
    ensures from <= Find(s, pat, from) <= k && MatchAt(s, pat, Find(s, pat, from))
  {
    FindIsFirst(s, pat, from);
  }

  // A field name that the framer takes for a length stands at q, behind a line end and before a colon.
  predicate LengthAt(s: string, q: nat) {
    MatchAt(s, Pattern(UPPER), q) || MatchAt(s, Pattern(LOWER), q)
  }

  lemma ColonBehind(s: string, q: nat)
    requires LengthAt(s, q)
    ensures q + 17 <= |s| && s[q + 16] == ':' && MatchAt(s, ":", q + 16)
  {
    var p := s[q..q + 17];
    assert p == Pattern(UPPER) || p == Pattern(LOWER);
    assert p[16] == ':';
  }

  lemma LengthInSuffix(s: string, j: nat, q: nat)
    requires j <= |s|
    ensures LengthAt(s[j..], q) <==> LengthAt(s, j + q)
  {
    hide MatchAt;
    MatchInSuffix(s, Pattern(UPPER), j, q);
    MatchInSuffix(s, Pattern(LOWER), j, q);
  }

  lemma LineInSuffix(s: string, j: nat, at: nat)
    requires j <= at <= |s|
    ensures var l, m := NextLine(s[j..], at - j), NextLine(s, at);
            l.None? == m.None? && (l.Some? ==> l.value.text == m.value.text)
  {
    hide Find;
    FindInSuffix(s, CRLF, j, at - j);
    var crlf := Find(s, CRLF, at);
    if crlf != NPOS {
      assert s[j..][at - j..crlf - j] == s[at..crlf];
    }
  }

  lemma ReadInSuffix(s: string, j: nat, q: nat)
    requires j <= |s| && LengthAt(s, j + q)
    ensures LengthAfter(s[j..], q) == LengthAfter(s, j + q)
  {
    hide Find, NumberIn, NextLine, LengthAt, MatchAt;
    ColonBehind(s, j + q);
    FoundBy(s, ":", j + q, j + q + 16);
    FindInSuffix(s, ":", j, q);
    LineInSuffix(s, j, Find(s, ":", j + q) + 1);
  }

  // ---------- one length field ----------

  predicate FrameAt(s: string, k: nat) {
    k <= |s| && StartsFrame(s[k..])
  }

  // A header with the end only at its end.
  predicate HeaderText(s: string) {
    4 <= |s| < TWO_64 && Find(s, HEADER_END, 0) == |s| - 4
  }

  ghost predicate OnlyLengthAt(s: string, p: nat) {
    LengthAt(s, p) && forall q: nat | LengthAt(s, q) :: q == p
  }

  lemma OnlyFound(s: string, p: nat, name: string)
    requires OnlyLengthAt(s, p) && (name == UPPER || name == LOWER)
    ensures Find(s, Pattern(name), 0) == if MatchAt(s, Pattern(name), p) then p else NPOS
  {
    hide Find;
    FindIsFirst(s, Pattern(name), 0);
    var r := Find(s, Pattern(name), 0);
    if r != NPOS {
      assert LengthAt(s, r);
    }
  }

  lemma NoneFound(s: string, name: string)
    requires (name == UPPER || name == LOWER) && forall q: nat :: !LengthAt(s, q)
    ensures Find(s, Pattern(name), 0) == NPOS
  {
    hide Find;
    FindIsFirst(s, Pattern(name), 0);
    var r := Find(s, Pattern(name), 0);
    var k: nat := if r == NPOS then 0 else r;
    assert !LengthAt(s, k);
  }

  lemma BodyOfOnly(s: string, p: nat)
    requires OnlyLengthAt(s, p)
    ensures BodyLength(s) == LengthAfter(s, p)
  {
    hide LengthAfter, Find;
    OnlyFound(s, p, UPPER);
    OnlyFound(s, p, LOWER);
    assert Pattern(UPPER) == CRLF + "Content-Length:";
    assert Pattern(LOWER) == CRLF + "content-length:";
  }

  lemma BodyOfNone(s: string)
    requires forall q: nat :: !LengthAt(s, q)
    ensures BodyLength(s) == 0
  {
    hide LengthAfter, Find;
    NoneFound(s, UPPER);
    NoneFound(s, LOWER);
    assert Pattern(UPPER) == CRLF + "Content-Length:";
    assert Pattern(LOWER) == CRLF + "content-length:";
  }

  // What the framer sees from position j on: the length as long as its field is not cut off.
  lemma SuffixLength(s: string, p: nat, j: nat)
    requires OnlyLengthAt(s, p) && j <= |s|
    ensures BodyLength(s[j..]) == if j <= p then LengthAfter(s, p) else 0
  {
    hide LengthAfter, BodyLength, LengthAt;
    var t := s[j..];
    forall q: nat | LengthAt(t, q) ensures j + q == p {
      LengthInSuffix(s, j, q);
    }
    if j <= p {
      LengthInSuffix(s, j, p - j);
      ReadInSuffix(s, j, p - j);
      BodyOfOnly(t, p - j);
    } else {
      BodyOfNone(t);
    }
  }

  lemma SuffixEnd(s: string, j: nat)
    requires HeaderText(s) && j <= |s|
    ensures Find(s[j..], HEADER_END, 0) == if j <= |s| - 4 then |s| - 4 - j else NPOS
  {
    hide Find;
    FindInSuffix(s, HEADER_END, j, 0);
    FindIsFirst(s, HEADER_END, 0);
    if j <= |s| - 4 {
      FoundBy(s, HEADER_END, j, |s| - 4);
    }
    FindIsFirst(s, HEADER_END, j);
  }

  // What stands in front after the first j bytes are gone.
  lemma SuffixFront(s: string, p: nat, j: nat)
    requires HeaderText(s) && OnlyLengthAt(s, p) && j < |s| && !StartsFrame(s[j..])
    ensures FrontOf(s[j..]) ==
            if |s| - 4 < j then NeedMore
            else
              var size := (|s| - j + if j <= p then LengthAfter(s, p) else 0) % TWO_64;
              if |s| - j < size then NeedMore else Text(size)
  {
    hide Find, LengthAfter, BodyLength;
    var t := s[j..];
    SuffixEnd(s, j);
    SuffixLength(s, p, j);
    if j <= |s| - 4 {
      assert t[..|t|] == t;
    }
  }

  lemma Cut(s: string, j: nat, n: nat)
    requires j + n <= |s|
    ensures s[j..][n..] == s[j + n..]
  {
  }

  lemma TextBeyond(s: string, p: nat, j: nat)
    requires HeaderText(s) && OnlyLengthAt(s, p) && j < |s| && (p < j || MessageSize(s) < j)
    requires !StartsFrame(s[j..])
    ensures FrontOf(s[j..]) == NeedMore || FrontOf(s[j..]) == Text(|s| - j)
  {
    hide FrontOf, LengthAfter, BodyLength, StartsFrame, LengthAt, Find;
    BodyOfOnly(s, p);
    SuffixFront(s, p, j);
    Residue(|s| + LengthAfter(s, p), j, |s|);
  }

  // With the field cut off, or with the size passed, the loop ends.
  lemma {:induction false} EndsBeyond(s: string, p: nat, j: nat)
    requires HeaderText(s) && OnlyLengthAt(s, p) && j <= |s| && (p < j || MessageSize(s) < j)
    ensures !Drain(s[j..]).spins
    decreases |s| - j
  {
    hide FrontOf, MessageSize, HeaderText, OnlyLengthAt, StartsFrame;
    if j < |s| {
      if StartsFrame(s[j..]) {
        NextFront(s, j);
      } else {
        TextBeyond(s, p, j);
      }
      var f := FrontOf(s[j..]);
      if !f.NeedMore? {
        Cut(s, j, f.size);
        EndsBeyond(s, p, j + f.size);
      }
    } else {
      NothingInFront();
    }
  }

  lemma NothingInFront()
    ensures FrontOf("") == NeedMore
  {
  }

  lemma NextFront(s: string, j: nat)
    requires j < |s| && StartsFrame(s[j..])
    ensures FrontOf(s[j..]).Frame? || FrontOf(s[j..]).NeedMore?
  {
  }

  // Past its size, what is left of a sum that wraps is more than what is left of the text.
  lemma Residue(sum: nat, j: nat, n: nat)
    requires j <= n <= sum && n < TWO_64
    ensures sum % TWO_64 < j ==> (sum - j) % TWO_64 > n - j
    ensures sum % TWO_64 >= j ==> (sum - j) % TWO_64 == sum % TWO_64 - j
  {
  }

  // At its own size the text begins a frame, or the size that is left is zero.
  lemma AtSize(s: string, p: nat)
    requires HeaderText(s) && OnlyLengthAt(s, p) && MessageSize(s) <= p && p + 4 < |s|
    requires !StartsFrame(s[MessageSize(s)..])
    ensures FrontOf(s[MessageSize(s)..]) == Text(0)
  {
    hide FrontOf, LengthAfter, BodyLength, StartsFrame, LengthAt, Find;
    BodyOfOnly(s, p);
    SuffixFront(s, p, MessageSize(s));
    Residue(|s| + LengthAfter(s, p), MessageSize(s), |s|);
  }

  lemma FromSize(s: string, p: nat)
    requires HeaderText(s) && OnlyLengthAt(s, p) && MessageSize(s) <= p && p + 4 < |s|
    ensures Drain(s[MessageSize(s)..]).spins <==> !StartsFrame(s[MessageSize(s)..])
  {
    hide FrontOf, MessageSize, HeaderText, OnlyLengthAt, StartsFrame;
    var size := MessageSize(s);
    if StartsFrame(s[size..]) {
      NextFront(s, size);
      var f := FrontOf(s[size..]);
      if f.Frame? {
        Cut(s, size, f.size);
        EndsBeyond(s, p, size + f.size);
      }
    } else {
      AtSize(s, p);
    }
  }

  lemma FieldInside(s: string, p: nat)
    requires HeaderText(s) && OnlyLengthAt(s, p)
    ensures p + 17 <= |s|
  {
    ColonBehind(s, p);
  }

  lemma WholeFront(s: string, p: nat)
    requires HeaderText(s) && OnlyLengthAt(s, p) && !StartsFrame(s)
    ensures FrontOf(s) == if |s| < MessageSize(s) then NeedMore else Text(MessageSize(s))
  {
    FrontOfBlock(s, s);
  }

  /**
   On every header with one length field in a spelling the framer knows, the drain loop never ends if and only
   if the size of the message, its sum wrapped, falls into the text in front of the field, and not on a byte
   that begins a binary frame: the text from there on has a size of zero.
   */
  lemma SpinsIff(s: string, p: nat)
    requires HeaderText(s) && OnlyLengthAt(s, p) && !StartsFrame(s)
    ensures Drain(s).spins <==> MessageSize(s) <= p && !FrameAt(s, MessageSize(s))
  {
    hide FrontOf, MessageSize, HeaderText, OnlyLengthAt, StartsFrame;
    var size := MessageSize(s);
    FieldInside(s, p);
    WholeFront(s, p);
    assert s[0..] == s;
    if 0 < size <= |s| {
      assert Drain(s).spins == Drain(s[size..]).spins;
      if p < size {
        EndsBeyond(s, p, size);
      } else {
        FromSize(s, p);
      }
    }
  }

  // ---------- printed messages ----------

  // Where field i begins, with the line end in front of it.
  function FieldAt(at: nat, fields: seq<Field>, i: nat): nat
    requires i < |fields|
    decreases i
  {
    if i == 0 then at else FieldAt(AfterField(at, fields), fields[1..], i - 1)
  }

  lemma {:induction false} FieldIsMatch(s: string, at: nat, fields: seq<Field>, i: nat)
    requires FieldsAt(s, at, fields, "") && i < |fields|
    ensures MatchAt(s, Pattern(fields[i].name), FieldAt(at, fields, i))
    decreases i
  {
    if i == 0 {
      FieldMatches(s, at, fields);
    } else {
      NextFieldAt(s, at, fields, "");
      FieldIsMatch(s, AfterField(at, fields), fields[1..], i - 1);
    }
  }

  lemma {:induction false} MatchIsField(s: string, at: nat, fields: seq<Field>, name: string, q: nat) returns (i: nat)
    requires FieldsAt(s, at, fields, "") && |name| >= 2 && Lacks(name, ':') && Lacks(name, '\r')
    requires at <= q && MatchAt(s, Pattern(name), q)
    ensures i < |fields| && fields[i].name == name && q == FieldAt(at, fields, i)
    decreases |fields|
  {
    hide FieldsAt, Pattern;
    MatchBegins(s, name, q);
    if fields == [] {
      LastFieldAt(s, at, "");
    } else {
      NextFieldAt(s, at, fields, "");
      if q == at {
        i := 0;
        if fields[0].name != name {
          NoFieldHere(s, at, fields, name);
        }
      } else {
        i := MatchIsField(s, AfterField(at, fields), fields[1..], name, q);
        i := i + 1;
      }
    }
  }

  lemma MatchBegins(s: string, name: string, q: nat)
    requires MatchAt(s, Pattern(name), q)
    ensures q + |name| + 3 <= |s| && s[q] == '\r'
  {
    assert s[q..q + |Pattern(name)|][0] == s[q];
  }

  predicate KnownLength(f: Field) {
    f.name == UPPER || f.name == LOWER
  }

  // Field i is the only one whose name the framer takes for a length.
  ghost predicate OnlyKnown(fields: seq<Field>, i: nat) {
    i < |fields| && forall j | 0 <= j < |fields| :: KnownLength(fields[j]) <==> j == i
  }

  function LengthOffset(m: Message, i: nat): nat
    requires i < |m.fields|
  {
    FieldAt(|RequestLine(m)|, m.fields, i)
  }

  lemma PrintedMatch(m: Message, i: nat, name: string, q: nat)
    requires MessageOk(m) && OnlyKnown(m.fields, i) && (name == UPPER || name == LOWER)
    requires MatchAt(HeaderBlock(m), Pattern(name), q)
    ensures q == LengthOffset(m, i)
  {
    hide MatchAt, Pattern, FieldAt;
    var s := HeaderBlock(m);
    RequestLineLacksCr(m);
    FieldsInBlock(RequestLine(m), m.fields);
    MatchBegins(s, name, q);
    BehindLine(m, q);
    var j := MatchIsField(s, |RequestLine(m)|, m.fields, name, q);
    assert KnownLength(m.fields[j]);
  }

  lemma BehindLine(m: Message, q: nat)
    requires Lacks(RequestLine(m), '\r') && q < |HeaderBlock(m)| && HeaderBlock(m)[q] == '\r'
    ensures |RequestLine(m)| <= q
  {
    hide RequestLine, FieldLines;
  }

  lemma PrintedIsHeader(m: Message, i: nat)
    requires MessageOk(m) && NotAFrame(m) && |HeaderBlock(m)| < TWO_64 && OnlyKnown(m.fields, i)
    ensures var s := HeaderBlock(m);
            HeaderText(s) && OnlyLengthAt(s, LengthOffset(m, i)) && !StartsFrame(s) && MessageSize(s) == FramedSize(m)
  {
    hide MatchAt, Find, FieldAt, FramerLength, BodyLength;
    var s := HeaderBlock(m);
    RequestLineLacksCr(m);
    FieldsInBlock(RequestLine(m), m.fields);
    FieldIsMatch(s, |RequestLine(m)|, m.fields, i);
    forall q: nat | LengthAt(s, q) ensures q == LengthOffset(m, i) {
      PrintedMatch(m, i, if MatchAt(s, Pattern(UPPER), q) then UPPER else LOWER, q);
    }
    assert s + "" == s;
    EndOfBlock(RequestLine(m), m.fields, "");
    FramerReads(m);
    FirstByte(m);
  }

  lemma FirstByte(m: Message)
    requires NotAFrame(m)
    ensures !StartsFrame(HeaderBlock(m))
  {
    hide FieldLines;
    assert HeaderBlock(m)[0] == if m.verb == "" then ' ' else m.verb[0];
  }

  /** The same for every printed message with one field in such a spelling, at the offset of that field. */
  lemma PrintedSpinsIff(m: Message, i: nat)
    requires MessageOk(m) && NotAFrame(m) && |HeaderBlock(m)| < TWO_64 && OnlyKnown(m.fields, i)
    ensures FramedSize(m) == (|HeaderBlock(m)| + NumberIn(m.fields[i].value)) % TWO_64
    ensures Drain(HeaderBlock(m)).spins
            <==> FramedSize(m) <= LengthOffset(m, i) && !FrameAt(HeaderBlock(m), FramedSize(m))
  {
    hide Drain, FrontOf, HeaderBlock, NumberIn, HeaderText, OnlyLengthAt, StartsFrame, LengthOffset, FramerLength;
    PrintedIsHeader(m, i);
    SpinsIff(HeaderBlock(m), LengthOffset(m, i));
    OnlyIsRead(m.fields, i);
  }

  /** More bytes do not stop the loop. */
  lemma SpinningStays(s: string, rest: string)
    requires Drain(s).spins
    ensures Drain(s + rest).spins
  {
    DrainInTwo(s, rest);
  }

  lemma OnlyIsRead(fields: seq<Field>, i: nat)
    requires OnlyKnown(fields, i)
    ensures FramerLength(fields) == NumberIn(fields[i].value)
  {
    hide NumberIn;
    assert KnownLength(fields[i]);
    if fields[i].name == UPPER {
      ExactAt(fields, i);
    } else {
      ExactAt(fields, i);
      NotExact(fields, i);
    }
  }

  lemma {:induction false} ExactAt(fields: seq<Field>, i: nat)
    requires i < |fields| && forall j | 0 <= j < i :: fields[j].name != fields[i].name
    ensures Exact(fields, fields[i].name) == Some(fields[i].value)
    decreases |fields|
  {
    if i > 0 {
      assert fields[0].name != fields[i].name;
      ExactAt(fields[1..], i - 1);
    }
  }

  lemma {:induction false} NoExact(fields: seq<Field>, name: string)
    requires forall j | 0 <= j < |fields| :: fields[j].name != name
    ensures Exact(fields, name).None?
  {
    if fields != [] {
      NoExact(fields[1..], name);
    }
  }

  lemma NotExact(fields: seq<Field>, i: nat)
    requires OnlyKnown(fields, i) && fields[i].name == LOWER
    ensures Exact(fields, UPPER).None?
  {
    assert UPPER[0] != LOWER[0];
    forall j | 0 <= j < |fields| ensures fields[j].name != UPPER {
      assert KnownLength(fields[j]) <==> j == i;
    }
    NoExact(fields, UPPER);
  }

  // ---------- lengths that do this, and lengths that do not ----------

  lemma MinusRead(n: nat)
    requires n < TWO_64
    ensures NumberIn("-" + ToString(n)) == (0 - n) % TWO_64
  {
    hide ToString, Scan, Trim;
    MinusScanned(n);
    TrimTrimmed("-" + ToString(n));
  }

  lemma Wraps(n: nat, k: nat)
    requires k <= n && k < TWO_64
    ensures (n + (0 - (n - k)) % TWO_64) % TWO_64 == k
  {
  }

  /** A negative Content-Length reaches every place in front of its own field, the whole header being k = 0. */
  lemma NegativeLengthSpins(m: Message, i: nat, k: nat)
    requires MessageOk(m) && NotAFrame(m) && |HeaderBlock(m)| < TWO_64 && OnlyKnown(m.fields, i)
    requires k <= LengthOffset(m, i) && k < |HeaderBlock(m)| && !FrameAt(HeaderBlock(m), k)
    requires m.fields[i].value == "-" + ToString(|HeaderBlock(m)| - k)
    ensures Drain(HeaderBlock(m)).spins
  {
    hide Drain, HeaderBlock, NumberIn, FramedSize, LengthOffset, ToString, FrameAt;
    PrintedSpinsIff(m, i);
    MinusRead(|HeaderBlock(m)| - k);
    Wraps(|HeaderBlock(m)|, k);
  }

  // No announced length wraps the sum.
  ghost predicate NoneWraps(buf: string) {
    |buf| < TWO_64 && forall q: nat | LengthAt(buf, q) :: LengthAfter(buf, q) + |buf| < TWO_64
  }

  // The value of a field is not changed by what follows the header.
  lemma ReadInPrefix(block: string, rest: string, q: nat)
    requires |block| >= 4 && MatchAt(block, HEADER_END, |block| - 4) && LengthAt(block, q)
    ensures LengthAt(block + rest, q) && LengthAfter(block + rest, q) == LengthAfter(block, q)
  {
    hide Find, NumberIn, LengthAt, MatchAt;
    LengthInPrefix(block, rest, q);
    ColonBehind(block, q);
    FoundBy(block, ":", q, q + 16);
    var colon := Find(block, ":", q);
    FindExtended(block, rest, ":", q);
    EndHasNoColon(block, colon);
    FoundBy(block, CRLF, colon + 1, |block| - 4);
    FindExtended(block, rest, CRLF, colon + 1);
    var crlf := Find(block, CRLF, colon + 1);
    assert (block + rest)[colon + 1..crlf] == block[colon + 1..crlf];
  }

  lemma MatchInPrefix(a: string, b: string, pat: string, q: nat)
    ensures MatchAt(a, pat, q) ==> MatchAt(a + b, pat, q)
  {
    if MatchAt(a, pat, q) {
      assert (a + b)[q..q + |pat|] == a[q..q + |pat|];
    }
  }

  lemma LengthInPrefix(a: string, b: string, q: nat)
    requires LengthAt(a, q)
    ensures LengthAt(a + b, q)
  {
    hide MatchAt;
    MatchInPrefix(a, b, Pattern(UPPER), q);
    MatchInPrefix(a, b, Pattern(LOWER), q);
  }

  lemma EndHasNoColon(block: string, colon: nat)
    requires |block| >= 4 && MatchAt(block, HEADER_END, |block| - 4) && MatchAt(block, ":", colon)
    ensures colon + 1 <= |block| - 4 && MatchAt(block, CRLF, |block| - 4)
  {
    var e := |block| - 4;
    var h := block[e..e + 4];
    assert h == HEADER_END && h[0] == '\r' && h[1] == '\n' && h[2] == '\r' && h[3] == '\n';
    assert block[e] == h[0] && block[e + 1] == h[1] && block[e + 2] == h[2] && block[e + 3] == h[3];
    assert block[colon] == block[colon..colon + 1][0] == ':';
    assert block[e..e + 2] == h[..2] == CRLF;
  }

  lemma BodyIsRead(block: string) returns (q: nat)
    ensures BodyLength(block) > 0 ==> LengthAt(block, q) && BodyLength(block) == LengthAfter(block, q)
  {
    hide LengthAfter, Find;
    FindIsFirst(block, Pattern(UPPER), 0);
    FindIsFirst(block, Pattern(LOWER), 0);
    assert Pattern(UPPER) == CRLF + "Content-Length:";
    assert Pattern(LOWER) == CRLF + "content-length:";
    var upper, lower := Find(block, Pattern(UPPER), 0), Find(block, Pattern(LOWER), 0);
    q := if upper != NPOS then upper else if lower != NPOS then lower else 0;
  }

  lemma NoneWrapsHere(buf: string)
    requires NoneWraps(buf) && FrontOf(buf).Text?
    ensures FrontOf(buf).size > 0
  {
    hide LengthAfter, BodyLength, LengthAt, Find;
    FindIsFirst(buf, HEADER_END, 0);
    var end := Find(buf, HEADER_END, 0);
    var block := buf[..end + 4];
    var q := BodyIsRead(block);
    assert buf == block + buf[end + 4..];
    if BodyLength(block) > 0 {
      ReadInPrefix(block, buf[end + 4..], q);
    }
  }

  lemma NoneWrapsLater(buf: string, n: nat)
    requires NoneWraps(buf) && n <= |buf|
    ensures NoneWraps(buf[n..])
  {
    hide LengthAfter, LengthAt;
    forall q: nat | LengthAt(buf[n..], q) ensures LengthAfter(buf[n..], q) + |buf[n..]| < TWO_64 {
      LengthInSuffix(buf, n, q);
      ReadInSuffix(buf, n, q);
    }
  }

  /** On every buffer, messages and frames mixed, where no announced length wraps the sum the loop ends. */
  lemma {:induction false} NoneWrapsEnds(buf: string)
    requires NoneWraps(buf)
    ensures !Drain(buf).spins
    decreases |buf|
  {
    hide FrontOf, NoneWraps;
    var f := FrontOf(buf);
    if f.Text? {
      NoneWrapsHere(buf);
    }
    if !f.NeedMore? {
      NoneWrapsLater(buf, f.size);
      NoneWrapsEnds(buf[f.size..]);
    }
  }
}
