/** The string helpers of the request parser, and the standard library searches and conversions it uses. */
module Text {
  import opened Basics

  const CRLF := "\r\n"
  const NPOS := -1

  // ---------- searching ----------

  predicate MatchAt(s: string, pat: string, k: int) {
    0 <= k && k + |pat| <= |s| && s[k..k + |pat|] == pat
  }

  function Find(s: string, pat: string, from: nat): (r: int)
    ensures r == NPOS || from <= r <= |s| - |pat|
    decreases |s| - from
  {
    if from + |pat| > |s| then NPOS else if MatchAt(s, pat, from) then from else Find(s, pat, from + 1)
  }

  /** The first match, or none. */
  lemma {:induction false} FindIsFirst(s: string, pat: string, from: nat)
    ensures var r := Find(s, pat, from);
            && (r != NPOS ==> MatchAt(s, pat, r))
            && forall k | from <= k && (r == NPOS || k < r) :: !MatchAt(s, pat, k)
    decreases |s| - from
  {
    if from + |pat| <= |s| && !MatchAt(s, pat, from) {
      FindIsFirst(s, pat, from + 1);
    }
  }

  // A character that begins no match is passed over.
  lemma {:induction false} FindSkips(s: string, pat: string, i: nat, j: nat)
    requires pat != "" && i <= j <= |s| && forall k | i <= k < j :: s[k] != pat[0]
    ensures Find(s, pat, i) == Find(s, pat, j)
    decreases j - i
  {
    if i < j {
      if i + |pat| <= |s| {
        assert s[i..i + |pat|][0] == s[i];
      }
      FindSkips(s, pat, i + 1, j);
    }
  }

  lemma {:induction false} FindExtended(s: string, t: string, pat: string, from: nat)
    requires Find(s, pat, from) != NPOS
    ensures Find(s + t, pat, from) == Find(s, pat, from)
    decreases |s| - from
  {
    assert (s + t)[from..from + |pat|] == s[from..from + |pat|];
    if s[from..from + |pat|] != pat {
      FindExtended(s, t, pat, from + 1);
    }
  }

  // ---------- white space ----------

  predicate IsSpace(c: char) {
    c == ' ' || 9 <= c as int <= 13
  }

  ghost predicate NoSpace(s: string) {
    forall i | 0 <= i < |s| :: !IsSpace(s[i])
  }

  function FirstNonSpace(s: string, i: nat): (r: nat)
    requires i <= |s|
    ensures i <= r <= |s| && (r < |s| ==> !IsSpace(s[r]))
    ensures forall k | i <= k < r :: IsSpace(s[k])
    decreases |s| - i
  {
    if i < |s| && IsSpace(s[i]) then FirstNonSpace(s, i + 1) else i
  }

  function EndOfNonSpace(s: string, lo: nat, hi: nat): (r: nat)
    requires lo <= hi <= |s|
    ensures lo <= r <= hi && (lo < r ==> !IsSpace(s[r - 1]))
    ensures forall k | r <= k < hi :: IsSpace(s[k])
  {
    if lo < hi && IsSpace(s[hi - 1]) then EndOfNonSpace(s, lo, hi - 1) else hi
  }

  function Trim(s: string): string {
    var first := FirstNonSpace(s, 0);
    s[first..EndOfNonSpace(s, first, |s|)]
  }

  method TrimString(s: string) returns (t: string)
    ensures t == Trim(s)
  {
    var first := 0;
    var last := |s|;
    while first != last && IsSpace(s[first])
      invariant 0 <= first <= last == |s|
      invariant FirstNonSpace(s, 0) == FirstNonSpace(s, first)
    {
      first := first + 1;
    }
    while last != first && IsSpace(s[last - 1])
      invariant first <= last <= |s|
      invariant EndOfNonSpace(s, first, |s|) == EndOfNonSpace(s, first, last)
    {
      last := last - 1;
    }
    t := s[first..last];
  }

  // No white space at either end.
  predicate Trimmed(s: string) {
    s != "" ==> !IsSpace(s[0]) && !IsSpace(s[|s| - 1])
  }

  /** Trimming removes white space around a trimmed text and nothing else. */
  lemma TrimRemovesPadding(left: string, s: string, right: string)
    requires Trimmed(s)
    requires forall i | 0 <= i < |left| :: left[i] == ' ' || '\t' <= left[i] <= '\r'
    requires forall i | 0 <= i < |right| :: right[i] == ' ' || '\t' <= right[i] <= '\r'
    ensures Trim(left + s + right) == s
  {
    var t := left + s + right;
    var first := FirstNonSpace(t, 0);
    var last := EndOfNonSpace(t, first, |t|);
    if s == "" {
      assert forall k | 0 <= k < |t| :: IsSpace(t[k]);
    } else {
      assert t[|left|] == s[0] && t[|left| + |s| - 1] == s[|s| - 1];
      assert first == |left| && last == |left| + |s|;
    }
  }

  lemma TrimTrimmed(s: string)
    requires Trimmed(s)
    ensures Trim(s) == s && Trim(" " + s) == s
  {
    TrimRemovesPadding("", s, "");
    TrimRemovesPadding(" ", s, "");
    assert "" + s + "" == s && " " + s + "" == " " + s;
  }

  // ---------- case ----------

  function Lower(c: char): char {
    if 'A' <= c <= 'Z' then c - 'A' + 'a' else c
  }

  function ToLower(s: string): string {
    seq(|s|, i requires 0 <= i < |s| => Lower(s[i]))
  }

  // A letter A to Z and the small letter 32 places behind it are the same letter.
  predicate SameLetter(c: char, d: char) {
    || c == d
    || ('A' <= c <= 'Z' && d as int == c as int + 32)
    || ('A' <= d <= 'Z' && c as int == d as int + 32)
  }

  predicate SameLetters(a: string, b: string) {
    |a| == |b| && forall i | 0 <= i < |a| :: SameLetter(a[i], b[i])
  }

  /** Lower-casing identifies exactly the texts with the same letters. */
  lemma LowerIff(a: string, b: string)
    ensures ToLower(a) == ToLower(b) <==> SameLetters(a, b)
  {
    if ToLower(a) == ToLower(b) {
      assert |ToLower(a)| == |a| && |ToLower(b)| == |b|;
      forall i | 0 <= i < |a| ensures SameLetter(a[i], b[i]) {
        assert ToLower(a)[i] == Lower(a[i]) && ToLower(b)[i] == Lower(b[i]);
      }
    }
  }

  // ---------- splitting ----------

  function SplitFrom(s: string, delimiter: char, start: nat): seq<string>
    requires start <= |s|
    decreases |s| - start
  {
    var pos := Find(s, [delimiter], start);
    if pos == NPOS then [s[start..]] else [s[start..pos]] + SplitFrom(s, delimiter, pos + 1)
  }

  method SplitString(s: string, delimiter: char) returns (tokens: seq<string>)
    ensures tokens == SplitFrom(s, delimiter, 0)
  {
    hide Find;
    tokens := [];
    var start := 0;
    var pos := Find(s, [delimiter], start);
    while pos != NPOS
      invariant 0 <= start <= |s| && pos == Find(s, [delimiter], start)
      invariant tokens + SplitFrom(s, delimiter, start) == SplitFrom(s, delimiter, 0)
      decreases |s| - start
    {
      Assoc(tokens, [s[start..pos]], SplitFrom(s, delimiter, pos + 1));
      tokens := tokens + [s[start..pos]];
      start := pos + 1;
      pos := Find(s, [delimiter], start);
    }
    tokens := tokens + [s[start..]];
  }

  function JoinWith(tokens: seq<string>, delimiter: char): string
    requires tokens != []
  {
    if |tokens| == 1 then tokens[0] else tokens[0] + ([delimiter] + JoinWith(tokens[1..], delimiter))
  }

  ghost predicate Lacks(s: string, c: char) {
    forall i | 0 <= i < |s| :: s[i] != c
  }

  // A text up to the first delimiter.
  lemma FindAfter(s: string, at: nat, token: string, c: char, rest: string)
    requires at <= |s| && s[at..] == token + ([c] + rest) && Lacks(token, c)
    ensures Find(s, [c], at) == at + |token| && s[at..at + |token|] == token && s[at + |token| + 1..] == rest
  {
    var k := at + |token|;
    assert forall i | at <= i < k :: s[i] == s[at..][i - at] == token[i - at];
    FindSkips(s, [c], at, k);
    assert s[k] == s[at..][|token|] == c;
    assert s[k..k + 1] == [c];
    assert s[at..][..|token|] == token && s[at..][|token| + 1..] == rest;
    DropDrop(s, at, |token| + 1);
  }

  /** Splitting undoes joining, for tokens without the delimiter. */
  lemma {:induction false} SplitOfJoin(s: string, at: nat, tokens: seq<string>, c: char)
    requires tokens != [] && forall i | 0 <= i < |tokens| :: Lacks(tokens[i], c)
    requires at <= |s| && s[at..] == JoinWith(tokens, c)
    ensures SplitFrom(s, c, at) == tokens
    decreases |tokens|
  {
    if |tokens| == 1 {
      assert forall i | at <= i < |s| :: s[i] == s[at..][i - at] == tokens[0][i - at];
      FindSkips(s, [c], at, |s|);
    } else {
      var rest := JoinWith(tokens[1..], c);
      FindAfter(s, at, tokens[0], c, rest);
      SplitOfJoin(s, at + |tokens[0]| + 1, tokens[1..], c);
    }
  }

  // ---------- numbers ----------

  predicate IsDigit(c: char) {
    '0' <= c <= '9'
  }

  function EndOfDigits(s: string, i: nat): (r: nat)
    requires i <= |s|
    ensures i <= r <= |s|
    decreases |s| - i
  {
    if i < |s| && IsDigit(s[i]) then EndOfDigits(s, i + 1) else i
  }

  function Decimal(s: string): nat {
    if s == "" then 0
    else Decimal(s[..|s| - 1]) * 10 + (if IsDigit(s[|s| - 1]) then s[|s| - 1] as int - '0' as int else 0)
  }

  datatype Number = Number(negative: bool, magnitude: nat)

  // White space, an optional sign, digits; whatever follows is ignored. None: no digits.
  function Scan(s: string): Option<Number> {
    var i := FirstNonSpace(s, 0);
    var negative := i < |s| && s[i] == '-';
    var start := if i < |s| && (s[i] == '-' || s[i] == '+') then i + 1 else i;
    var end := EndOfDigits(s, start);
    if end == start then None else Some(Number(negative, Decimal(s[start..end])))
  }

  // std::stoul with 64-bit results: None where it throws; a minus sign wraps around.
  function Stoul(s: string): Option<nat> {
    var n := Scan(s);
    if n.None? || n.value.magnitude >= TWO_64 then None
    else Some(if n.value.negative then (0 - n.value.magnitude) % TWO_64 else n.value.magnitude)
  }

  // std::stoi: None where it throws.
  function Stoi(s: string): Option<int> {
    var n := Scan(s);
    if n.None? then None
    else
      var v := if n.value.negative then 0 - n.value.magnitude else n.value.magnitude;
      if -0x8000_0000 <= v < 0x8000_0000 then Some(v) else None
  }

  function ToString(n: nat): (s: string)
    ensures s != "" && forall i | 0 <= i < |s| :: IsDigit(s[i])
  {
    var d := [('0' as int + n % 10) as char];
    if n < 10 then d else ToString(n / 10) + d
  }

  lemma {:induction false} DecimalToString(n: nat)
    ensures Decimal(ToString(n)) == n
  {
    var s := ToString(n);
    var d := ('0' as int + n % 10) as char;
    if n < 10 {
      assert s[..|s| - 1] == "" && Decimal("") == 0;
    } else {
      DecimalToString(n / 10);
      assert s == ToString(n / 10) + [d] && s[..|s| - 1] == ToString(n / 10);
    }
  }

  lemma {:induction false} AllDigits(s: string, i: nat)
    requires i <= |s| && forall k | i <= k < |s| :: IsDigit(s[k])
    ensures EndOfDigits(s, i) == |s|
    decreases |s| - i
  {
    if i < |s| {
      AllDigits(s, i + 1);
    }
  }

  /** Printed numbers are read back, by both conversions as far as their types reach. */
  lemma NumberRoundTrip(n: nat)
    ensures Trimmed(ToString(n)) && Lacks(ToString(n), '\r')
    ensures n < TWO_64 ==> Stoul(ToString(n)) == Some(n)
    ensures n < 0x8000_0000 ==> Stoi(ToString(n)) == Some(n)
  {
    var s := ToString(n);
    DecimalToString(n);
    AllDigits(s, 0);
    assert !IsSpace(s[0]) && FirstNonSpace(s, 0) == 0;
    assert s[0..|s|] == s;
    assert Scan(s) == Some(Number(false, n));
  }

  // With a sign in front.
  lemma MinusScanned(n: nat)
    ensures var s := "-" + ToString(n); Trimmed(s) && Lacks(s, '\r') && Scan(s) == Some(Number(true, n))
  {
    hide ToString, Decimal;
    var d := ToString(n);
    var s := "-" + d;
    DecimalToString(n);
    NumberRoundTrip(n);
    AllDigits(s, 1);
    assert s[0] == '-' && s[1..] == d && s[1..|s|] == d;
  }

  lemma {:induction false} DigitsEnd(s: string, i: nat, k: nat)
    requires i <= k <= |s| && (k < |s| ==> !IsDigit(s[k])) && forall j | i <= j < k :: IsDigit(s[j])
    ensures EndOfDigits(s, i) == k
    decreases k - i
  {
    if i < k {
      DigitsEnd(s, i + 1, k);
    }
  }

  /** A number in front of something that is no digit is read like the number alone. */
  lemma NumberInFront(n: nat, rest: string)
    requires n < 0x8000_0000 && (rest != "" ==> !IsDigit(rest[0]))
    ensures Stoi(ToString(n) + rest) == Some(n)
  {
    hide ToString, Decimal;
    var d := ToString(n);
    var s := d + rest;
    DecimalToString(n);
    assert s[0] == d[0] && !IsSpace(s[0]) && FirstNonSpace(s, 0) == 0;
    DigitsEnd(s, 0, |d|);
    assert s[0..|d|] == d;
    assert Scan(s) == Some(Number(false, n));
  }
}
