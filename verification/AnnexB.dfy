/**
 Annex-B byte streams (section B.1 of ITU-T H.264): splitting a buffer into NAL units.

 `Tiles` says, without reference to any scanning order, what it means for a list of NAL units to tile
 a buffer. Every buffer has exactly one tiling, and `SplitView` and `Split` return its non-empty
 units. Joining well-formed NAL units with start codes of either length and splitting again is the
 identity.
 */
module AnnexB {
  import opened Basics

  // A three-byte start code begins at k.
  predicate CodeAt(b: seq<byte>, k: int) {
    0 <= k && k + 3 <= |b| && b[k] == 0 && b[k + 1] == 0 && b[k + 2] == 1
  }

  function StartCodeLength(b: seq<byte>, i: nat): (n: nat)
    ensures n == 0 || i + n <= |b|
  {
    if i + 4 <= |b| && b[i] == 0 && b[i + 1] == 0 && b[i + 2] == 0 && b[i + 3] == 1 then 4
    else if i + 3 <= |b| && b[i] == 0 && b[i + 1] == 0 && b[i + 2] == 1 then 3
    else 0
  }

  lemma StartCodeLengthMeaning(b: seq<byte>, i: nat)
    ensures var n := StartCodeLength(b, i);
            && (n == 0 || (n == 3 && CodeAt(b, i)) || (n == 4 && CodeAt(b, i + 1) && b[i] == 0))
            && (n == 0 ==> !CodeAt(b, i))
            && (n <= 3 ==> !(i < |b| && b[i] == 0 && CodeAt(b, i + 1)))
  {
  }

  // No start code lies inside b[s..e].
  ghost predicate Clean(b: seq<byte>, s: int, e: int) {
    forall k | s <= k && k + 3 <= e :: !CodeAt(b, k)
  }

  // A NAL unit at b[from..to] behind a start code of `code` bytes.
  datatype Nal = Nal(code: nat, from: nat, to: nat)

  // A NAL unit directly follows 00 00 01. Its start code is the long one exactly when a zero byte that
  // no earlier start code claims stands in front.
  ghost predicate Placed(b: seq<byte>, s: nat, n: Nal) {
    && s + n.code <= n.from <= n.to <= |b|
    && CodeAt(b, n.from - 3)
    && n.code == (if n.from >= s + 4 && b[n.from - 4] == 0 then 4 else 3)
    && Clean(b, s, n.from - n.code)
  }

  // The rest of the buffer from s: a stretch without start codes, then the units, without gaps.
  ghost predicate Tiles(b: seq<byte>, s: nat, ns: seq<Nal>)
    decreases |ns|
  {
    if ns == [] then Clean(b, s, |b|)
    else
      && Placed(b, s, ns[0])
      && ns[0].to == (if |ns| == 1 then |b| else ns[1].from - ns[1].code)
      && Tiles(b, ns[0].from, ns[1..])
  }

  function NextCode(b: seq<byte>, i: nat): (e: nat)
    requires i <= |b|
    ensures i <= e <= |b|
    ensures e < |b| ==> StartCodeLength(b, e) > 0
    ensures forall k | i <= k < e :: StartCodeLength(b, k) == 0
    decreases |b| - i
  {
    if i == |b| || StartCodeLength(b, i) > 0 then i else NextCode(b, i + 1)
  }

  function TilingFrom(b: seq<byte>, s: nat): seq<Nal>
    requires s <= |b|
    decreases |b| - s
  {
    var c := NextCode(b, s);
    if c == |b| then []
    else
      var n := StartCodeLength(b, c);
      [Nal(n, c + n, NextCode(b, c + n))] + TilingFrom(b, c + n)
  }

  function Tiling(b: seq<byte>): seq<Nal> {
    TilingFrom(b, 0)
  }

  lemma UpToNextCode(b: seq<byte>, s: nat)
    requires s <= |b|
    ensures Clean(b, s, NextCode(b, s))
  {
    forall k | s <= k && k + 3 <= NextCode(b, s) ensures !CodeAt(b, k) {
      StartCodeLengthMeaning(b, k);
    }
  }

  lemma NextIsPlaced(b: seq<byte>, s: nat)
    requires s <= |b| && NextCode(b, s) < |b|
    ensures var c := NextCode(b, s); var n := StartCodeLength(b, c);
            Placed(b, s, Nal(n, c + n, NextCode(b, c + n)))
  {
    var c := NextCode(b, s);
    UpToNextCode(b, s);
    StartCodeLengthMeaning(b, c);
    if c > s {
      StartCodeLengthMeaning(b, c - 1);
    }
  }

  lemma {:induction false} TilingTiles(b: seq<byte>, s: nat)
    requires s <= |b|
    ensures Tiles(b, s, TilingFrom(b, s))
    decreases |b| - s
  {
    hide StartCodeLength, CodeAt, Placed, Clean;
    UpToNextCode(b, s);
    var c := NextCode(b, s);
    if c < |b| {
      NextIsPlaced(b, s);
      var n := StartCodeLength(b, c);
      var rest := TilingFrom(b, c + n);
      TilingTiles(b, c + n);
      var ns := [Nal(n, c + n, NextCode(b, c + n))] + rest;
      assert ns[1..] == rest;
      assert TilingFrom(b, s) == ns;
    }
  }

  lemma SameFirst(b: seq<byte>, s: nat, n: Nal, n': Nal)
    requires Placed(b, s, n) && Placed(b, s, n')
    ensures n.from <= n'.from
  {
  }

  /** A buffer has one tiling only. */
  lemma {:induction false} TilingIsUnique(b: seq<byte>, s: nat, ns: seq<Nal>, ns': seq<Nal>)
    requires Tiles(b, s, ns) && Tiles(b, s, ns')
    ensures ns == ns'
    decreases |ns|
  {
    if ns != [] && ns' != [] {
      SameFirst(b, s, ns[0], ns'[0]);
      SameFirst(b, s, ns'[0], ns[0]);
      TilingIsUnique(b, ns[0].from, ns[1..], ns'[1..]);
      assert ns == [ns[0]] + ns[1..] && ns' == [ns'[0]] + ns'[1..];
      assert |ns| > 1 ==> ns[1] == ns[1..][0] && ns'[1] == ns'[1..][0];
    }
  }

  datatype View = View(from: nat, to: nat)

  function NonEmpty(ns: seq<Nal>): seq<View> {
    if ns == [] then []
    else (if ns[0].from < ns[0].to then [View(ns[0].from, ns[0].to)] else []) + NonEmpty(ns[1..])
  }

  function Stretch(s: nat, e: nat): seq<View> {
    if s < e then [View(s, e)] else []
  }

  // What the loop still has to produce at offset i, the open NAL unit having begun at `start`.
  function Scan(b: seq<byte>, i: nat, start: nat): seq<View>
    requires i <= |b|
    decreases |b| - i
  {
    if i == |b| then Stretch(start, |b|)
    else
      var n := StartCodeLength(b, i);
      if n > 0 then Stretch(start, i) + Scan(b, i + n, i + n) else Scan(b, i + 1, start)
  }

  lemma TilingAtCode(b: seq<byte>, i: nat)
    requires i < |b| && StartCodeLength(b, i) > 0
    ensures var n := StartCodeLength(b, i);
            NextCode(b, i) == i
            && NonEmpty(TilingFrom(b, i)) == Stretch(i + n, NextCode(b, i + n)) + NonEmpty(TilingFrom(b, i + n))
  {
    var n := StartCodeLength(b, i);
    assert TilingFrom(b, i) == [Nal(n, i + n, NextCode(b, i + n))] + TilingFrom(b, i + n);
  }

  lemma TilingPastByte(b: seq<byte>, i: nat)
    requires i < |b| && StartCodeLength(b, i) == 0
    ensures NextCode(b, i) == NextCode(b, i + 1) && TilingFrom(b, i) == TilingFrom(b, i + 1)
  {
  }

  lemma TilingAtEnd(b: seq<byte>)
    ensures NextCode(b, |b|) == |b| && NonEmpty(TilingFrom(b, |b|)) == []
  {
  }

  lemma {:induction false} ScanIsTiling(b: seq<byte>, i: nat, start: nat)
    requires i <= |b|
    ensures Scan(b, i, start) == Stretch(start, NextCode(b, i)) + NonEmpty(TilingFrom(b, i))
    decreases |b| - i
  {
    hide StartCodeLength, NextCode, NonEmpty, TilingFrom, Stretch;
    var n := StartCodeLength(b, i);
    if i == |b| {
      TilingAtEnd(b);
    } else if n > 0 {
      ScanIsTiling(b, i + n, i + n);
      TilingAtCode(b, i);
    } else {
      ScanIsTiling(b, i + 1, start);
      TilingPastByte(b, i);
    }
  }

  lemma ScanFromStart(b: seq<byte>)
    ensures var n := StartCodeLength(b, 0);
            Scan(b, n, if n > 0 then n else |b|) == NonEmpty(Tiling(b))
  {
    var n := StartCodeLength(b, 0);
    ScanIsTiling(b, n, if n > 0 then n else |b|);
    if n > 0 {
      TilingAtCode(b, 0);
    }
  }

  lemma ScanStep(b: seq<byte>, i: nat, start: nat)
    requires i < |b|
    ensures var n := StartCodeLength(b, i);
            Scan(b, i, start) == if n > 0 then Stretch(start, i) + Scan(b, i + n, i + n) else Scan(b, i + 1, start)
  {
  }

  lemma ScanEnd(b: seq<byte>, start: nat)
    ensures Scan(b, |b|, start) == Stretch(start, |b|)
  {
  }

  method SplitView(b: seq<byte>) returns (nals: seq<View>)
    ensures nals == NonEmpty(Tiling(b))
  {
    hide StartCodeLength, NonEmpty, Tiling, Scan;
    nals := [];
    var sc: nat := StartCodeLength(b, 0);
    var i: nat := sc;
    var nalStart: nat := if sc > 0 then sc else |b|;
    ScanFromStart(b);
    while i < |b|
      invariant i <= |b|
      invariant nals + Scan(b, i, nalStart) == NonEmpty(Tiling(b))
    {
      var scLen := StartCodeLength(b, i);
      ScanStep(b, i, nalStart);
      if scLen > 0 {
        Assoc(nals, Stretch(nalStart, i), Scan(b, i + scLen, i + scLen));
        if nalStart < i {
          nals := nals + [View(nalStart, i)];
        }
        i := i + scLen;
        nalStart := i;
      } else {
        i := i + 1;
      }
    }
    ScanEnd(b, nalStart);
    if nalStart < |b| {
      nals := nals + [View(nalStart, |b|)];
    }
  }

  function Slices(b: seq<byte>, views: seq<View>): seq<seq<byte>> {
    seq(|views|, i requires 0 <= i < |views| => SliceOf(b, views[i]))
  }

  function SliceOf(b: seq<byte>, v: View): seq<byte> {
    if v.from <= v.to <= |b| then b[v.from..v.to] else []
  }

  // The NAL units of a buffer, as byte strings.
  function Nals(b: seq<byte>): seq<seq<byte>> {
    Slices(b, NonEmpty(Tiling(b)))
  }

  method Split(b: seq<byte>) returns (nals: seq<seq<byte>>)
    ensures nals == Nals(b)
  {
    hide StartCodeLength, NonEmpty, Tiling, Scan;
    nals := [];
    ghost var views: seq<View> := [];
    var sc: nat := StartCodeLength(b, 0);
    var i: nat := sc;
    var nalStart: nat := if sc > 0 then sc else |b|;
    ScanFromStart(b);
    while i < |b|
      invariant i <= |b|
      invariant nals == Slices(b, views)
      invariant views + Scan(b, i, nalStart) == NonEmpty(Tiling(b))
    {
      var scLen := StartCodeLength(b, i);
      ScanStep(b, i, nalStart);
      if scLen > 0 {
        Assoc(views, Stretch(nalStart, i), Scan(b, i + scLen, i + scLen));
        if nalStart < i {
          nals := nals + [b[nalStart..i]];
          views := views + [View(nalStart, i)];
        }
        i := i + scLen;
        nalStart := i;
      } else {
        i := i + 1;
      }
    }
    ScanEnd(b, nalStart);
    if nalStart < |b| {
      nals := nals + [b[nalStart..|b|]];
      views := views + [View(nalStart, |b|)];
    }
  }

  // ---------- joining ----------

  datatype Unit = Unit(long: bool, nal: seq<byte>)

  function Code(long: bool): seq<byte> {
    if long then [0, 0, 0, 1] else [0, 0, 1]
  }

  function Join(units: seq<Unit>): seq<byte> {
    if units == [] then [] else Code(units[0].long) + (units[0].nal + Join(units[1..]))
  }

  // A NAL unit as section 7.4.1 of ITU-T H.264 has it: no start code inside, no trailing zero byte.
  ghost predicate WellFormedNal(nal: seq<byte>) {
    nal != [] && nal[|nal| - 1] != 0 && Clean(nal, 0, |nal|)
  }

  ghost predicate AllWellFormed(units: seq<Unit>) {
    forall i | 0 <= i < |units| :: WellFormedNal(units[i].nal)
  }

  // Where the units of a join that begins at offset `at` lie.
  function Layout(units: seq<Unit>, at: nat): seq<Nal> {
    if units == [] then []
    else
      var code := |Code(units[0].long)|;
      var end := at + code + |units[0].nal|;
      [Nal(code, at + code, end)] + Layout(units[1..], end)
  }

  // b holds x at offset i.
  ghost predicate Holds(b: seq<byte>, i: nat, x: seq<byte>) {
    i + |x| <= |b| && forall k | 0 <= k < |x| :: b[i + k] == x[k]
  }

  lemma HoldsFits(b: seq<byte>, i: nat, x: seq<byte>)
    requires Holds(b, i, x)
    ensures i + |x| <= |b|
  {
  }

  lemma HoldsParts(b: seq<byte>, i: nat, x: seq<byte>, y: seq<byte>)
    requires Holds(b, i, x + y)
    ensures Holds(b, i, x) && Holds(b, i + |x|, y)
  {
    forall k | 0 <= k < |x| ensures b[i + k] == x[k] {
      assert (x + y)[k] == x[k];
    }
    forall k | 0 <= k < |y| ensures b[i + |x| + k] == y[k] {
      assert (x + y)[|x| + k] == y[k];
    }
  }

  // The last byte before `at` is not zero, unless nothing stands there.
  predicate Closed(b: seq<byte>, s: nat, at: nat) {
    s <= at <= |b| && (s < at ==> b[at - 1] != 0)
  }

  lemma CodeIsPlaced(b: seq<byte>, s: nat, at: nat, long: bool, to: nat)
    requires Closed(b, s, at) && Clean(b, s, at) && Holds(b, at, Code(long))
    requires at + |Code(long)| <= to <= |b|
    ensures Placed(b, s, Nal(|Code(long)|, at + |Code(long)|, to))
  {
    var c := Code(long);
    assert b[at + 0] == c[0] && b[at + 1] == c[1] && b[at + 2] == c[2];
    assert long ==> b[at + 3] == c[3];
  }

  lemma NalIsClean(b: seq<byte>, at: nat, nal: seq<byte>)
    requires WellFormedNal(nal) && Holds(b, at, nal)
    ensures Clean(b, at, at + |nal|) && Closed(b, at, at + |nal|)
  {
    forall k | at <= k && k + 3 <= at + |nal| ensures !CodeAt(b, k) {
      assert !CodeAt(nal, k - at);
      assert b[at + (k - at)] == nal[k - at] && b[at + (k - at + 1)] == nal[k - at + 1]
          && b[at + (k - at + 2)] == nal[k - at + 2];
    }
    assert b[at + (|nal| - 1)] == nal[|nal| - 1];
  }

  lemma TilesCons(b: seq<byte>, s: nat, n: Nal, rest: seq<Nal>)
    requires Placed(b, s, n) && Tiles(b, n.from, rest)
    requires n.to == (if rest == [] then |b| else rest[0].from - rest[0].code)
    ensures Tiles(b, s, [n] + rest)
  {
    var ns := [n] + rest;
    assert ns[1..] == rest;
  }

  lemma FirstUnitHolds(b: seq<byte>, at: nat, units: seq<Unit>)
    requires units != [] && Holds(b, at, Join(units))
    ensures var c := Code(units[0].long); var nal := units[0].nal;
            && Holds(b, at, c) && Holds(b, at + |c|, nal) && Holds(b, at + |c| + |nal|, Join(units[1..]))
            && |Join(units)| == |c| + |nal| + |Join(units[1..])|
  {
    hide Holds;
    var c, nal, rest := Code(units[0].long), units[0].nal, Join(units[1..]);
    assert Join(units) == c + (nal + rest);
    HoldsParts(b, at, c, nal + rest);
    HoldsParts(b, at + |c|, nal, rest);
  }

  function FirstNal(units: seq<Unit>, at: nat): Nal
    requires units != []
  {
    var c := |Code(units[0].long)|;
    Nal(c, at + c, at + c + |units[0].nal|)
  }

  lemma LayoutCons(units: seq<Unit>, at: nat)
    requires units != []
    ensures var n := FirstNal(units, at); Layout(units, at) == [n] + Layout(units[1..], n.to)
    ensures Layout(units, at)[1..] == Layout(units[1..], FirstNal(units, at).to)
  {
  }

  lemma {:induction false} LayoutTiles(b: seq<byte>, s: nat, at: nat, units: seq<Unit>)
    requires AllWellFormed(units) && Closed(b, s, at) && Clean(b, s, at)
    requires Holds(b, at, Join(units)) && at + |Join(units)| == |b|
    ensures Tiles(b, s, Layout(units, at))
    decreases |units|
  {
    if units != [] {
      hide Join, Holds, Clean, CodeAt, Layout, Placed, Tiles;
      var u, n := units[0], FirstNal(units, at);
      var rest := Layout(units[1..], n.to);
      FirstUnitHolds(b, at, units);
      HoldsFits(b, n.from, u.nal);
      assert Placed(b, s, n) by { CodeIsPlaced(b, s, at, u.long, n.to); }
      assert Tiles(b, n.from, rest) by {
        NalIsClean(b, n.from, u.nal);
        LayoutTiles(b, n.from, n.to, units[1..]);
      }
      TilesCons(b, s, n, rest);
      LayoutCons(units, at);
    }
  }

  ghost predicate NalLies(b: seq<byte>, n: Nal, nal: seq<byte>) {
    n.to == n.from + |nal| && nal != [] && Holds(b, n.from, nal)
  }

  ghost predicate NalsLie(b: seq<byte>, ns: seq<Nal>, units: seq<Unit>)
    decreases |ns|
  {
    |ns| == |units|
    && (ns != [] ==> NalLies(b, ns[0], units[0].nal) && NalsLie(b, ns[1..], units[1..]))
  }

  lemma {:induction false} LayoutHolds(b: seq<byte>, at: nat, units: seq<Unit>)
    requires AllWellFormed(units) && Holds(b, at, Join(units))
    ensures NalsLie(b, Layout(units, at), units)
    decreases |units|
  {
    if units != [] {
      var u, n := units[0], FirstNal(units, at);
      var rest := Layout(units[1..], n.to);
      FirstUnitHolds(b, at, units);
      assert NalLies(b, n, u.nal);
      LayoutHolds(b, n.to, units[1..]);
      LayoutCons(units, at);
    }
  }

  function NalsOf(units: seq<Unit>): seq<seq<byte>> {
    if units == [] then [] else [units[0].nal] + NalsOf(units[1..])
  }

  lemma SlicesCons(b: seq<byte>, v: View, rest: seq<View>)
    ensures Slices(b, [v] + rest) == [SliceOf(b, v)] + Slices(b, rest)
  {
  }

  lemma {:induction false} NonEmptyKeepsAll(b: seq<byte>, ns: seq<Nal>, units: seq<Unit>)
    requires NalsLie(b, ns, units)
    ensures Slices(b, NonEmpty(ns)) == NalsOf(units)
    decreases |ns|
  {
    if ns != [] {
      var v := View(ns[0].from, ns[0].to);
      NonEmptyKeepsAll(b, ns[1..], units[1..]);
      SlicesCons(b, v, NonEmpty(ns[1..]));
      assert SliceOf(b, v) == units[0].nal;
    }
  }

  /** Splitting NAL units joined by start codes of either length gives back those NAL units. */
  lemma SplitOfJoin(units: seq<Unit>)
    requires AllWellFormed(units)
    ensures Nals(Join(units)) == NalsOf(units)
  {
    var b := Join(units);
    LayoutTiles(b, 0, 0, units);
    LayoutHolds(b, 0, units);
    TilingTiles(b, 0);
    TilingIsUnique(b, 0, Layout(units, 0), Tiling(b));
    NonEmptyKeepsAll(b, Tiling(b), units);
  }

  // ---------- the units of any buffer ----------

  function UnitAt(b: seq<byte>, n: Nal): Unit {
    Unit(n.code == 4, SliceOf(b, View(n.from, n.to)))
  }

  function UnitsOf(b: seq<byte>, ns: seq<Nal>): seq<Unit> {
    if ns == [] then [] else [UnitAt(b, ns[0])] + UnitsOf(b, ns[1..])
  }

  // A unit directly follows 00 00 01 and has no start code inside.
  ghost predicate IsUnit(b: seq<byte>, n: Nal) {
    3 <= n.from <= n.to <= |b| && CodeAt(b, n.from - 3) && Clean(b, n.from, n.to)
  }

  lemma UnitIsClean(b: seq<byte>, s: nat, n: Nal, next: Nal)
    requires Placed(b, s, n) && Placed(b, n.from, next) && n.to == next.from - next.code
    ensures IsUnit(b, n)
  {
  }

  lemma {:induction false} TilesAreUnits(b: seq<byte>, s: nat, ns: seq<Nal>, k: nat)
    requires Tiles(b, s, ns) && k < |ns|
    ensures IsUnit(b, ns[k]) && (k + 1 < |ns| ==> ns[k].to <= ns[k + 1].from - 3)
    decreases |ns|
  {
    hide CodeAt, Clean;
    if k > 0 {
      TilesAreUnits(b, ns[0].from, ns[1..], k - 1);
      assert ns[1..][k - 1] == ns[k] && (k + 1 < |ns| ==> ns[1..][k] == ns[k + 1]);
    } else if |ns| == 1 {
      LastIsClean(b, s, ns);
    } else {
      assert ns[1..][0] == ns[1];
      UnitIsClean(b, s, ns[0], ns[1]);
    }
  }

  lemma LastIsClean(b: seq<byte>, s: nat, ns: seq<Nal>)
    requires Tiles(b, s, ns) && |ns| == 1
    ensures IsUnit(b, ns[0])
  {
    assert ns[1..] == [];
  }

  lemma CodeBytes(b: seq<byte>, s: nat, n: Nal)
    requires Placed(b, s, n)
    ensures n.from >= n.code && b[n.from - n.code..n.from] == Code(n.code == 4)
  {
  }

  lemma {:induction false} JoinCons(b: seq<byte>, ns: seq<Nal>)
    requires ns != [] && ns[0].from <= ns[0].to <= |b|
    ensures Join(UnitsOf(b, ns))
         == Code(ns[0].code == 4) + (b[ns[0].from..ns[0].to] + Join(UnitsOf(b, ns[1..])))
  {
    var rest := UnitsOf(b, ns[1..]);
    assert ([UnitAt(b, ns[0])] + rest)[1..] == rest;
  }

  lemma TilesStep(b: seq<byte>, s: nat, ns: seq<Nal>)
    requires Tiles(b, s, ns) && ns != []
    ensures Placed(b, s, ns[0]) && Tiles(b, ns[0].from, ns[1..]) && ns[0].code <= ns[0].from <= ns[0].to <= |b|
    ensures ns[0].to == if ns[1..] == [] then |b| else ns[1..][0].from - ns[1..][0].code
  {
    hide CodeAt, Clean;
  }

  lemma {:induction false} JoinOfTiles(b: seq<byte>, s: nat, ns: seq<Nal>)
    requires Tiles(b, s, ns) && ns != []
    ensures ns[0].code <= ns[0].from <= |b| && b[ns[0].from - ns[0].code..] == Join(UnitsOf(b, ns))
    decreases |ns|
  {
    hide Tiles, Placed, Join, UnitsOf, Code;
    var n, rest := ns[0], ns[1..];
    TilesStep(b, s, ns);
    CodeBytes(b, s, n);
    SplitTail(b, n.from - n.code, n.from);
    SplitTail(b, n.from, n.to);
    JoinCons(b, ns);
    if rest == [] {
      NothingJoined(b);
    } else {
      JoinOfTiles(b, n.from, rest);
    }
  }

  lemma NothingJoined(b: seq<byte>)
    ensures b[|b|..] == Join(UnitsOf(b, []))
  {
  }

  /**
   In every buffer the units are in order, each directly behind 00 00 01 and free of start codes, and with
   their start codes they make up the buffer from its first start code on.
   */
  lemma SplitIsExact(b: seq<byte>)
    ensures var ns := Tiling(b);
            && (forall k | 0 <= k < |ns| :: IsUnit(b, ns[k]) && (k + 1 < |ns| ==> ns[k].to <= ns[k + 1].from - 3))
            && (if ns == [] then Clean(b, 0, |b|)
                else ns[0].code <= ns[0].from <= |b| && Clean(b, 0, ns[0].from - ns[0].code)
                     && b[ns[0].from - ns[0].code..] == Join(UnitsOf(b, ns)))
  {
    hide CodeAt, Clean, Tiling;
    var ns := Tiling(b);
    BufferIsTiled(b);
    forall k | 0 <= k < |ns| ensures IsUnit(b, ns[k]) && (k + 1 < |ns| ==> ns[k].to <= ns[k + 1].from - 3) {
      TilesAreUnits(b, 0, ns, k);
    }
    if ns != [] {
      JoinOfTiles(b, 0, ns);
    }
  }

  lemma BufferIsTiled(b: seq<byte>)
    ensures Tiles(b, 0, Tiling(b))
  {
    TilingTiles(b, 0);
  }

  ghost predicate IsView(b: seq<byte>, v: View) {
    3 <= v.from < v.to <= |b| && CodeAt(b, v.from - 3) && Clean(b, v.from, v.to)
  }

  ghost predicate ViewsInOrder(b: seq<byte>, vs: seq<View>) {
    forall k | 0 <= k < |vs| :: IsView(b, vs[k]) && (k + 1 < |vs| ==> vs[k].to <= vs[k + 1].from - 3)
  }

  lemma ViewInFront(b: seq<byte>, v: View, vs: seq<View>)
    requires IsView(b, v) && ViewsInOrder(b, vs) && (vs != [] ==> v.to <= vs[0].from - 3)
    ensures ViewsInOrder(b, [v] + vs)
  {
    hide IsView;
  }

  lemma {:induction false} ViewsFrom(b: seq<byte>, s: nat, ns: seq<Nal>)
    requires Tiles(b, s, ns)
    ensures var vs := NonEmpty(ns); ViewsInOrder(b, vs) && (vs != [] ==> ns != [] && ns[0].from <= vs[0].from)
    decreases |ns|
  {
    hide CodeAt, Clean, Tiles;
    if ns != [] {
      var v, rest := View(ns[0].from, ns[0].to), ns[1..];
      TilesStep(b, s, ns);
      TilesAreUnits(b, s, ns, 0);
      ViewsFrom(b, ns[0].from, rest);
      if v.from < v.to {
        assert rest != [] ==> rest[0] == ns[1];
        ViewInFront(b, v, NonEmpty(rest));
      }
    }
  }

  /** The views returned are non-empty, in order, disjoint, each directly behind 00 00 01 and free of start codes. */
  lemma ViewsAreExact(b: seq<byte>)
    ensures ViewsInOrder(b, NonEmpty(Tiling(b)))
  {
    hide Tiling;
    BufferIsTiled(b);
    ViewsFrom(b, 0, Tiling(b));
  }
}
