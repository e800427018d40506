/**
 `MediaSource::parseExtradata`: parameter sets from the codec's configuration record (section 5.2.4.1
 of ISO/IEC 14496-15) or from Annex-B data.
 */
module Extradata {
  import opened Basics
  import AnnexB

  datatype ParameterSets = ParameterSets(sps: seq<byte>, pps: seq<byte>)

  function Length(d: seq<byte>, at: nat): nat
    requires at + 2 <= |d|
  {
    FromBigEndian16(d[at], d[at + 1])
  }

  // A complete length-prefixed entry stands at `at`.
  predicate EntryAt(d: seq<byte>, at: nat) {
    at + 2 <= |d| && at + 2 + Length(d, at) <= |d|
  }

  function Entry(d: seq<byte>, at: nat): seq<byte>
    requires EntryAt(d, at)
  {
    d[at + 2..at + 2 + Length(d, at)]
  }

  // Where the loop over `count` entries stops: behind them, or in front of or inside the first broken one.
  function Skip(d: seq<byte>, at: nat, count: nat): nat
    decreases count
  {
    if count == 0 || at + 2 > |d| then at
    else if !EntryAt(d, at) then at + 2
    else Skip(d, at + 2 + Length(d, at), count - 1)
  }

  function First(d: seq<byte>, at: nat, count: nat, otherwise: seq<byte>): seq<byte> {
    if count > 0 && EntryAt(d, at) then Entry(d, at) else otherwise
  }

  method ReadEntries(d: seq<byte>, start: nat, count: nat, otherwise: seq<byte>)
    returns (first: seq<byte>, offset: nat)
    ensures first == First(d, start, count, otherwise) && offset == Skip(d, start, count)
  {
    first, offset := otherwise, start;
    var i := 0;
    while i < count
      invariant 0 <= i <= count
      invariant Skip(d, offset, count - i) == Skip(d, start, count)
      invariant if i == 0 then first == otherwise && offset == start else first == First(d, start, count, otherwise)
    {
      if offset + 2 > |d| {
        return;
      }
      var len := Length(d, offset);
      if offset + 2 + len > |d| {
        offset := offset + 2;
        return;
      }
      if i == 0 {
        first := d[offset + 2..offset + 2 + len];
      }
      offset := offset + 2 + len;
      i := i + 1;
    }
  }

  datatype Outcome = Outcome(ok: bool, sets: ParameterSets)

  predicate Complete(s: ParameterSets) {
    s.sps != [] && s.pps != []
  }

  function ParseRecord(d: seq<byte>, old_: ParameterSets): Outcome {
    if |d| < 7 then Outcome(false, old_)
    else
      var numSps := (d[5] % 32) as nat;
      var sets := old_.(sps := First(d, 6, numSps, old_.sps));
      var at := Skip(d, 6, numSps);
      if at >= |d| then Outcome(false, sets)
      else
        var sets' := sets.(pps := First(d, at + 1, d[at] as nat, sets.pps));
        Outcome(Complete(sets'), sets')
  }

  // The first SPS and PPS among the NAL units, unless one is known already.
  function TakeSets(nals: seq<seq<byte>>, s: ParameterSets): ParameterSets {
    if nals == [] then s
    else
      var nal := nals[0];
      var s' := if nal == [] then s
                else if nal[0] % 32 == 7 && s.sps == [] then s.(sps := nal)
                else if nal[0] % 32 == 8 && s.pps == [] then s.(pps := nal)
                else s;
      TakeSets(nals[1..], s')
  }

  function ParseExtradata(d: seq<byte>, old_: ParameterSets): Outcome {
    if |d| < 4 then Outcome(false, old_)
    else if d[0] == 1 then ParseRecord(d, old_)
    else
      var sets := TakeSets(AnnexB.Nals(d), old_);
      Outcome(Complete(sets), sets)
  }

  method ReadExtradata(d: seq<byte>, old_: ParameterSets) returns (ok: bool, sets: ParameterSets)
    ensures Outcome(ok, sets) == ParseExtradata(d, old_)
  {
    sets := old_;
    if |d| < 4 {
      return false, sets;
    }
    if d[0] == 1 {
      if |d| < 7 {
        return false, sets;
      }
      var sps, offset := ReadEntries(d, 6, (d[5] % 32) as nat, sets.sps);
      sets := sets.(sps := sps);
      if offset >= |d| {
        return false, sets;
      }
      var pps, _ := ReadEntries(d, offset + 1, d[offset] as nat, sets.pps);
      sets := sets.(pps := pps);
    } else {
      var nals := AnnexB.Split(d);
      for i := 0 to |nals|
        invariant TakeSets(nals[i..], sets) == TakeSets(nals, old_)
      {
        var nal := nals[i];
        assert nals[i..][1..] == nals[i + 1..];
        if nal != [] {
          if nal[0] % 32 == 7 && sets.sps == [] {
            sets := sets.(sps := nal);
          } else if nal[0] % 32 == 8 && sets.pps == [] {
            sets := sets.(pps := nal);
          }
        }
      }
    }
    ok := sets.sps != [] && sets.pps != [];
  }

  // ---------- configuration records ----------

  function Entries(list: seq<seq<byte>>): seq<byte>
    requires forall i | 0 <= i < |list| :: |list[i]| < TWO_16
  {
    if list == [] then [] else BigEndian16(|list[0]|) + (list[0] + Entries(list[1..]))
  }

  ghost predicate Listable(list: seq<seq<byte>>, most: nat) {
    |list| <= most && forall i | 0 <= i < |list| :: |list[i]| < TWO_16
  }

  // profile: the three bytes behind the version and the one with the length size; reserved: the upper
  // bits of the SPS count; extension: what some profiles append.
  function Record(profile: seq<byte>, reserved: byte, spss: seq<seq<byte>>, ppss: seq<seq<byte>>,
                  extension: seq<byte>): seq<byte>
    requires |profile| == 4 && reserved < 8 && Listable(spss, 31) && Listable(ppss, 255)
  {
    [1] + profile + [reserved * 32 + |spss| as byte]
    + (Entries(spss) + ([|ppss| as byte] + (Entries(ppss) + extension)))
  }

  lemma EntryRead(d: seq<byte>, at: nat, x: seq<byte>, rest: seq<byte>)
    requires |x| < TWO_16 && at <= |d| && d[at..] == BigEndian16(|x|) + (x + rest)
    ensures EntryAt(d, at) && Entry(d, at) == x && Length(d, at) == |x|
    ensures at + 2 + |x| <= |d| && d[at + 2 + |x|..] == rest
  {
    hide BigEndian16, FromBigEndian16;
    var len := BigEndian16(|x|);
    RoundTrip16(|x|);
    assert d[at] == d[at..][0] == len[0] && d[at + 1] == d[at..][1] == len[1];
    assert d[at + 2..] == d[at..][2..] == x + rest by { DropDrop(d, at, 2); }
    DropDrop(d, at + 2, |x|);
    assert d[at + 2..at + 2 + |x|] == d[at + 2..][..|x|] == x;
  }

  lemma {:induction false} EntriesRead(d: seq<byte>, at: nat, list: seq<seq<byte>>, rest: seq<byte>,
                                       otherwise: seq<byte>)
    requires Listable(list, |list|) && at <= |d| && d[at..] == Entries(list) + rest
    ensures Skip(d, at, |list|) == at + |Entries(list)| <= |d|
    ensures First(d, at, |list|, otherwise) == if list == [] then otherwise else list[0]
    ensures d[at + |Entries(list)|..] == rest
    decreases |list|
  {
    if list != [] {
      var x, more := list[0], Entries(list[1..]);
      assert d[at..] == BigEndian16(|x|) + (x + (more + rest)) by {
        Assoc(BigEndian16(|x|), x + more, rest);
        Assoc(x, more, rest);
      }
      EntryRead(d, at, x, more + rest);
      EntriesRead(d, at + 2 + |x|, list[1..], rest, otherwise);
    }
  }

  lemma RecordLayout(profile: seq<byte>, reserved: byte, spss: seq<seq<byte>>, ppss: seq<seq<byte>>,
                     extension: seq<byte>)
    requires |profile| == 4 && reserved < 8 && Listable(spss, 31) && Listable(ppss, 255)
    ensures var d := Record(profile, reserved, spss, ppss, extension);
            && |d| >= 7 && d[0] == 1 && (d[5] % 32) as nat == |spss|
            && d[6..] == Entries(spss) + ([|ppss| as byte] + (Entries(ppss) + extension))
  {
    hide Entries;
    var head := [1] + profile + [reserved * 32 + |spss| as byte];
    var body := Entries(spss) + ([|ppss| as byte] + (Entries(ppss) + extension));
    var d := Record(profile, reserved, spss, ppss, extension);
    assert d == head + body && d[0] == head[0] && d[5] == head[5];
  }

  /** In every well-formed record the first parameter set of each kind is found; an absent kind keeps its old value. */
  lemma RecordParsed(profile: seq<byte>, reserved: byte, spss: seq<seq<byte>>, ppss: seq<seq<byte>>,
                     extension: seq<byte>, old_: ParameterSets)
    requires |profile| == 4 && reserved < 8 && Listable(spss, 31) && Listable(ppss, 255)
    ensures var sets := ParameterSets(if spss == [] then old_.sps else spss[0],
                                      if ppss == [] then old_.pps else ppss[0]);
            ParseExtradata(Record(profile, reserved, spss, ppss, extension), old_) == Outcome(Complete(sets), sets)
  {
    hide Record, Entries, First, Skip;
    var d := Record(profile, reserved, spss, ppss, extension);
    var count, tail := |ppss| as byte, Entries(ppss) + extension;
    RecordLayout(profile, reserved, spss, ppss, extension);
    EntriesRead(d, 6, spss, [count] + tail, old_.sps);
    var at := 6 + |Entries(spss)|;
    assert d[at..] == [count] + tail && d[at] == d[at..][0] == count;
    assert d[at + 1..] == tail by { DropDrop(d, at, 1); }
    EntriesRead(d, at + 1, ppss, extension, old_.pps);
  }
}
