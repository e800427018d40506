/**
 Streams of printed requests with binary frames between them, through the receive path. The framer and
 the request parser read Content-Length independently of each other; here they are shown to agree, and
 where they do not.
 */
module RequestStream {
  import opened Basics
  import opened Text
  import opened Request
  import opened Receive

  // ---------- finding a field in a printed header ----------

  // The first field spelled exactly so.
  function Exact(fields: seq<Field>, name: string): Option<string> {
    if fields == [] then None
    else if fields[0].name == name then Some(fields[0].value)
    else Exact(fields[1..], name)
  }

  function Pattern(name: string): string {
    CRLF + (name + ":")
  }

  // s holds the field lines, and then `rest`, from position `at` on.
  ghost predicate FieldsAt(s: string, at: nat, fields: seq<Field>, rest: string) {
    at <= |s| && FieldsOk(fields) && s[at..] == FieldLines(fields) + rest
  }

  function AfterField(at: nat, fields: seq<Field>): nat
    requires fields != []
  {
    at + 2 + |FieldLine(fields[0])|
  }

  lemma NextFieldAt(s: string, at: nat, fields: seq<Field>, rest: string)
    requires FieldsAt(s, at, fields, rest) && fields != []
    ensures var line := FieldLine(fields[0]); var next := AfterField(at, fields);
            && next <= |s| && s[at..at + 2] == CRLF && s[at + 2..next] == line
            && FieldsAt(s, next, fields[1..], rest)
            && Lacks(line, '\r') && line != ""
            && forall k | at < k < next :: s[k] != '\r'
  {
    var line, more := FieldLine(fields[0]), FieldLines(fields[1..]) + rest;
    FieldLineLacksCr(fields[0]);
    Assoc(line, FieldLines(fields[1..]), rest);
    Assoc(CRLF, line + FieldLines(fields[1..]), rest);
    assert s[at..] == CRLF + (line + more);
    var next := AfterField(at, fields);
    assert s[at..at + 2] == s[at..][..2];
    DropDrop(s, at, 2);
    assert s[at + 2..] == line + more;
    DropDrop(s, at + 2, |line|);
    assert s[at + 2..next] == s[at + 2..][..|line|] == line;
    assert forall k | at + 2 <= k < next :: s[k] == s[at + 2..][k - at - 2] == line[k - at - 2];
    assert s[at + 1] == s[at..][1] == '\n';
  }

  lemma LastFieldAt(s: string, at: nat, rest: string)
    requires FieldsAt(s, at, [], rest)
    ensures s[at..at + 4] == HEADER_END && at + 4 + |rest| == |s|
  {
    assert s[at..at + 4] == s[at..][..4];
  }

  lemma LineEnd(s: string, at: nat, fields: seq<Field>)
    requires FieldsAt(s, at, fields, "")
    ensures at + 2 <= |s| && s[at] == '\r' && s[at..] == CRLF + s[at + 2..]
  {
    if fields == [] { LastFieldAt(s, at, ""); } else { NextFieldAt(s, at, fields, ""); }
    assert s[at..][..2] == CRLF;
  }

  /** The header ends where the printed fields end. */
  lemma {:induction false} HeaderEnd(s: string, at: nat, fields: seq<Field>, rest: string)
    requires FieldsAt(s, at, fields, rest)
    ensures Find(s, HEADER_END, at) == at + |FieldLines(fields)| - 4
    decreases |fields|
  {
    if fields == [] {
      LastFieldAt(s, at, rest);
    } else {
      NextFieldAt(s, at, fields, rest);
      var next := AfterField(at, fields);
      HeaderEnd(s, next, fields[1..], rest);
      FindSkips(s, HEADER_END, at + 1, next);
      assert s[at + 2] == s[at + 2..next][0];
      if at + 4 <= |s| {
        assert s[at..at + 4][2] == s[at + 2];
      }
    }
  }

  // A field line begins with the name and its colon only if the field has that name.
  lemma NameFits(f: Field, name: string)
    requires FieldOk(f) && Lacks(name, ':') && name + ":" <= FieldLine(f)
    ensures f.name == name
  {
    hide Find;
    var line := FieldLine(f);
    assert line[0..] == line;
    assert Find(line, ":", 0) == |f.name| by { FindAfter(line, 0, f.name, ':', " " + f.value); }
    var rest := line[|name| + 1..];
    assert line == name + ([':'] + rest);
    assert Find(line, ":", 0) == |name| by { FindAfter(line, 0, name, ':', rest); }
    assert line[..|name|] == name && line[..|f.name|] == f.name;
  }

  lemma NoFieldHere(s: string, at: nat, fields: seq<Field>, name: string)
    requires FieldsAt(s, at, fields, "") && fields != [] && fields[0].name != name
    requires Lacks(name, ':') && Lacks(name, '\r')
    ensures !MatchAt(s, Pattern(name), at)
  {
    NextFieldAt(s, at, fields, "");
    var p, line := Pattern(name), FieldLine(fields[0]);
    if MatchAt(s, p, at) {
      var end := at + |p|;
      var next := AfterField(at, fields);
      if end <= next {
        assert s[at + 2..end] == s[at..end][2..] == p[2..] == name + ":";
        assert s[at + 2..end] == s[at + 2..next][..|name| + 1] == line[..|name| + 1];
        NameFits(fields[0], name);
      } else {
        LineEnd(s, next, fields[1..]);
      }
    }
  }

  // A field from its CRLF on, cut at the colon and at the end of the line.
  lemma FieldCut(s: string, at: nat, fields: seq<Field>)
    requires FieldsAt(s, at, fields, "") && fields != []
    ensures var f := fields[0]; var next := AfterField(at, fields);
            && next + 2 <= |s| && s[next..] == CRLF + s[next + 2..]
            && s[at..] == (CRLF + f.name) + ([':'] + (" " + f.value + s[next..]))
  {
    var next := AfterField(at, fields);
    NextFieldAt(s, at, fields, "");
    LineEnd(s, next, fields[1..]);
    SplitTail(s, at, at + 2);
    SplitTail(s, at + 2, next);
  }

  lemma FieldMatches(s: string, at: nat, fields: seq<Field>)
    requires FieldsAt(s, at, fields, "") && fields != []
    ensures MatchAt(s, Pattern(fields[0].name), at)
  {
    FieldCut(s, at, fields);
    assert s[at..][..|fields[0].name| + 3] == Pattern(fields[0].name);
  }

  // The value stands between the first colon and the end of the line.
  lemma FieldValue(s: string, at: nat, fields: seq<Field>)
    requires FieldsAt(s, at, fields, "") && fields != []
    ensures var vs := at + |fields[0].name| + 3; var next := AfterField(at, fields);
            && vs <= next <= |s| && Find(s, ":", at) == vs - 1
            && NextLine(s, vs) == Some(Line(" " + fields[0].value, next + 2))
  {
    hide Find, NextLine, FieldLines;
    var f := fields[0];
    var next := AfterField(at, fields);
    FieldCut(s, at, fields);
    var vs := at + |f.name| + 3;
    FindAfter(s, at, CRLF + f.name, ':', " " + f.value + s[next..]);
    assert s[vs..] == " " + f.value + s[next..];
    Assoc(" " + f.value, CRLF, s[next + 2..]);
    LineAt(s, vs, " " + f.value, s[next + 2..]);
  }

  lemma LengthReads(s: string, cl: nat, vs: nat, value: string, next: nat)
    requires vs > 0 && Find(s, ":", cl) == vs - 1 && NextLine(s, vs) == Some(Line(" " + value, next)) && Trimmed(value)
    ensures LengthAfter(s, cl) == NumberIn(value)
  {
    TrimTrimmed(value);
  }

  lemma FieldRead(s: string, at: nat, fields: seq<Field>)
    requires FieldsAt(s, at, fields, "") && fields != []
    ensures LengthAfter(s, at) == NumberIn(fields[0].value)
  {
    FieldValue(s, at, fields);
    LengthReads(s, at, at + |fields[0].name| + 3, fields[0].value, AfterField(at, fields) + 2);
  }

  // The framer's search for a spelling of Content-Length finds the first field so spelled.
  lemma {:induction false} FieldFound(s: string, at: nat, fields: seq<Field>, name: string)
    requires FieldsAt(s, at, fields, "") && |name| >= 2 && Lacks(name, ':') && Lacks(name, '\r')
    ensures var r := Find(s, Pattern(name), at); var v := Exact(fields, name);
            if v.None? then r == NPOS else r != NPOS && LengthAfter(s, r) == NumberIn(v.value)
    decreases |fields|
  {
    if fields == [] {
      LastFieldAt(s, at, "");
    } else if fields[0].name == name {
      FieldMatches(s, at, fields);
      FieldRead(s, at, fields);
    } else {
      NoFieldHere(s, at, fields, name);
      NextFieldAt(s, at, fields, "");
      var next := AfterField(at, fields);
      FieldFound(s, next, fields[1..], name);
      FindSkips(s, Pattern(name), at + 1, next);
    }
  }

  const UPPER := "Content-Length"
  const LOWER := "content-length"

  // The framer's reading of a printed header.
  function FramerLength(fields: seq<Field>): nat {
    if Exact(fields, UPPER).Some? then NumberIn(Exact(fields, UPPER).value)
    else if Exact(fields, LOWER).Some? then NumberIn(Exact(fields, LOWER).value)
    else 0
  }

  // A first line and the header fields after it: of a request, or of a response.
  function Block(line: string, fields: seq<Field>): string {
    line + FieldLines(fields)
  }

  lemma FieldsInBlock(line: string, fields: seq<Field>)
    requires FieldsOk(fields)
    ensures FieldsAt(Block(line, fields), |line|, fields, "")
  {
    assert Block(line, fields)[|line|..] == FieldLines(fields) == FieldLines(fields) + "";
  }

  lemma SpellingRead(line: string, fields: seq<Field>, name: string)
    requires Lacks(line, '\r') && FieldsOk(fields) && |name| >= 2 && Lacks(name, ':') && Lacks(name, '\r')
    ensures var s := Block(line, fields);
            var r := Find(s, Pattern(name), 0); var v := Exact(fields, name);
            if v.None? then r == NPOS else r != NPOS && LengthAfter(s, r) == NumberIn(v.value)
  {
    var s := Block(line, fields);
    assert forall k | 0 <= k < |line| :: s[k] != '\r';
    FieldsInBlock(line, fields);
    FindSkips(s, Pattern(name), 0, |line|);
    FieldFound(s, |line|, fields, name);
  }

  lemma BlockRead(line: string, fields: seq<Field>)
    requires Lacks(line, '\r') && FieldsOk(fields)
    ensures BodyLength(Block(line, fields)) == FramerLength(fields)
  {
    SpellingRead(line, fields, UPPER);
    SpellingRead(line, fields, LOWER);
    assert Pattern(UPPER) == CRLF + "Content-Length:";
    assert Pattern(LOWER) == CRLF + "content-length:";
  }

  /** On any printed header, the framer reads the first field spelled one of its two ways. */
  lemma FramerReads(m: Message)
    requires MessageOk(m)
    ensures BodyLength(HeaderBlock(m)) == FramerLength(m.fields)
  {
    RequestLineLacksCr(m);
    BlockRead(RequestLine(m), m.fields);
  }

  // The size the framer takes a header and its body to have.
  function BlockSize(line: string, fields: seq<Field>): nat {
    (|Block(line, fields)| + FramerLength(fields)) % TWO_64
  }

  lemma EndOfBlock(line: string, fields: seq<Field>, rest: string)
    requires Lacks(line, '\r') && FieldsOk(fields)
    ensures var buf := Block(line, fields) + rest;
            Find(buf, HEADER_END, 0) == |Block(line, fields)| - 4 && |Block(line, fields)| >= 4
  {
    var buf := Block(line, fields) + rest;
    assert line <= buf && buf[|line|..] == FieldLines(fields) + rest;
    assert forall k | 0 <= k < |line| :: buf[k] != '\r';
    FindSkips(buf, HEADER_END, 0, |line|);
    HeaderEnd(buf, |line|, fields, rest);
  }

  /** What stands in front of a buffer that begins with a first line and header fields. */
  lemma FrontOfPrinted(line: string, fields: seq<Field>, rest: string)
    requires Lacks(line, '\r') && FieldsOk(fields) && line != "" && Octet(line[0]) as int != '$' as int
    ensures var buf := Block(line, fields) + rest;
            FrontOf(buf) == if |buf| < BlockSize(line, fields) then NeedMore else Text(BlockSize(line, fields))
  {
    hide FramerLength, BodyLength, Find, FrontOf;
    var block := Block(line, fields);
    assert (block + rest)[0] == line[0];
    EndOfBlock(line, fields, rest);
    assert MessageSize(block) == BlockSize(line, fields) by { BlockRead(line, fields); }
    FrontOfBlock(block + rest, block);
  }

  predicate NotAFrame(m: Message) {
    m.verb == "" || Octet(m.verb[0]) as int != '$' as int
  }

  // The size the framer takes a printed message to have.
  function FramedSize(m: Message): nat {
    (|HeaderBlock(m)| + FramerLength(m.fields)) % TWO_64
  }

  /** What stands in front of a buffer that begins with a printed header. */
  lemma FrontOfMessage(m: Message, rest: string)
    requires MessageOk(m) && NotAFrame(m)
    ensures var buf := HeaderBlock(m) + rest;
            FrontOf(buf) == if |buf| < FramedSize(m) then NeedMore else Text(FramedSize(m))
  {
    hide FramerLength, FrontOf, FieldLines;
    var line := RequestLine(m);
    RequestLineLacksCr(m);
    assert line[0] == if m.verb == "" then ' ' else m.verb[0];
    FrontOfPrinted(line, m.fields, rest);
  }

  // ---------- one message ----------

  lemma Spellings()
    ensures SameLetters(UPPER, "Content-Length") && SameLetters(LOWER, "Content-Length")
  {
  }

  lemma {:induction false} OnlyExact(fields: seq<Field>, f: Option<Field>, name: string)
    requires OnlyLength(fields, f) && SameLetters(name, "Content-Length")
    ensures Exact(fields, name) == if f.Some? && f.value.name == name then Some(f.value.value) else None
    decreases |fields|
  {
    if fields != [] {
      OnlyExact(fields[1..], if IsLength(fields[0]) then None else f, name);
    }
  }

  predicate FramerAccepts(f: Option<Field>) {
    f.Some? && (f.value.name == UPPER || f.value.name == LOWER)
  }

  lemma FramerAgrees(m: Message, f: Option<Field>)
    requires LengthOk(m, f) && |m.body| < TWO_64
    ensures FramerLength(m.fields) == if FramerAccepts(f) then |m.body| else 0
  {
    Spellings();
    OnlyExact(m.fields, f, UPPER);
    OnlyExact(m.fields, f, LOWER);
    NumberRoundTrip(|m.body|);
    TrimTrimmed(ToString(|m.body|));
  }

  lemma MessageInFront(m: Message, f: Option<Field>, rest: string)
    requires MessageOk(m) && NotAFrame(m) && LengthOk(m, f) && |Print(m)| < TWO_64
    requires m.body == "" || FramerAccepts(f)
    ensures var buf := Print(m) + rest;
            FrontOf(buf) == Text(|Print(m)|) && buf[..|Print(m)|] == Print(m) && buf[|Print(m)|..] == rest
  {
    hide FrontOf, FramerLength, HeaderBlock;
    Assoc(HeaderBlock(m), m.body, rest);
    assert FramedSize(m) == |Print(m)| by { FramerAgrees(m, f); }
    FrontOfMessage(m, m.body + rest);
  }

  lemma MessageDrained(m: Message, f: Option<Field>, rest: string)
    requires MessageOk(m) && NotAFrame(m) && LengthOk(m, f) && |Print(m)| < TWO_64
    requires m.body == "" || FramerAccepts(f)
    ensures var d := Drain(rest);
            Drain(Print(m) + rest) == Drained([Meaning(m, m.body)] + d.requests, d.rest, d.spins)
  {
    MessageInFront(m, f, rest);
    DrainText(Print(m) + rest, |Print(m)|);
    PrintThenParse(m, f);
  }

  /** A message comes through exactly when its length is spelled a way the framer knows, or it has no body. */
  lemma SpellingDecides(m: Message, f: Option<Field>)
    requires MessageOk(m) && NotAFrame(m) && LengthOk(m, f) && |Print(m)| < TWO_64
    ensures Drain(Print(m)) == Drained([Meaning(m, m.body)], "", false) <==> m.body == "" || FramerAccepts(f)
  {
    hide Drain, Print, MessageOk, LengthOk, Meaning;
    if m.body == "" || FramerAccepts(f) {
      assert Print(m) + "" == Print(m);
      EmptyDrains();
      MessageDrained(m, f, "");
      assert [Meaning(m, m.body)] + [] == [Meaning(m, m.body)];
    } else {
      BodyIsLost(m, f);
      BodyMatters(m);
    }
  }

  lemma BodyMatters(m: Message)
    requires m.body != ""
    ensures Meaning(m, "") != Meaning(m, m.body)
  {
  }

  // The header alone is taken for the request.
  lemma BodyIsLost(m: Message, f: Option<Field>)
    requires MessageOk(m) && NotAFrame(m) && LengthOk(m, f) && |Print(m)| < TWO_64 && !FramerAccepts(f)
    ensures Drain(Print(m)).requests != [] && Drain(Print(m)).requests[0] == Meaning(m, "")
  {
    hide Parse, FramerLength, FrontOf, MessageOk, LengthOk, Meaning;
    var head := HeaderBlock(m);
    FramerAgrees(m, f);
    FrontOfMessage(m, m.body);
    HeadIsLong(m);
    DrainText(Print(m), |head|);
    assert Print(m)[..|head|] == head == head + "";
    ParsePrinted(m, f, "");
    assert Requests(head) == [Meaning(m, "")];
  }

  lemma HeadIsLong(m: Message)
    ensures 0 < |HeaderBlock(m)| <= |Print(m)|
  {
  }

  // ---------- streams ----------

  datatype Item = Ask(message: Message, length: Option<Field>) | Binary(channel: char, data: string)

  function FrameText(channel: char, data: string): string
    requires |data| < TWO_16
  {
    "$" + [channel, (|data| / 256) as char, (|data| % 256) as char] + data
  }

  ghost predicate ItemOk(item: Item) {
    match item
    case Ask(m, f) => MessageOk(m) && NotAFrame(m) && LengthOk(m, f) && |Print(m)| < TWO_64
                      && (m.body == "" || FramerAccepts(f))
    case Binary(_, data) => |data| < TWO_16
  }

  ghost function ItemText(item: Item): string
    requires ItemOk(item)
  {
    match item
    case Ask(m, _) => Print(m)
    case Binary(channel, data) => FrameText(channel, data)
  }

  ghost function StreamText(items: seq<Item>): string
    requires forall i | 0 <= i < |items| :: ItemOk(items[i])
  {
    if items == [] then "" else ItemText(items[0]) + StreamText(items[1..])
  }

  function Asked(items: seq<Item>): seq<Request> {
    if items == [] then []
    else (if items[0].Ask? then [Meaning(items[0].message, items[0].message.body)] else []) + Asked(items[1..])
  }

  lemma FrameDrained(channel: char, data: string, rest: string)
    requires |data| < TWO_16
    ensures Drain(FrameText(channel, data) + rest) == Drain(rest)
  {
    var buf := FrameText(channel, data) + rest;
    var size := 4 + |data|;
    assert Octet(buf[2]) as int == |data| / 256 && Octet(buf[3]) as int == |data| % 256;
    assert FrontOf(buf) == Frame(size);
    assert buf[size..] == rest;
  }

  /** Requests printed with frames between them are received as those requests, with nothing left over. */
  lemma {:induction false} StreamRoundTrip(items: seq<Item>)
    requires forall i | 0 <= i < |items| :: ItemOk(items[i])
    ensures Drain(StreamText(items)) == Drained(Asked(items), "", false)
  {
    if items != [] {
      StreamRoundTrip(items[1..]);
      match items[0]
      case Ask(m, f) => MessageDrained(m, f, StreamText(items[1..]));
      case Binary(channel, data) =>
        FrameDrained(channel, data, StreamText(items[1..]));
        assert [] + Asked(items[1..]) == Asked(items[1..]);
    }
  }

  /** The same, however the bytes are cut into wakes and recv calls, as long as there is room for them. */
  lemma ChunkedStreamRoundTrip(items: seq<Item>, wakes: seq<seq<Recv>>)
    requires forall i | 0 <= i < |items| :: ItemOk(items[i])
    requires AllFit("", wakes) && AllReceived(wakes) == StreamText(items)
    ensures Wakes("", wakes) == Some(Drained(Asked(items), "", false))
  {
    hide Drain, Wakes, AllFit, ItemOk, StreamText, Asked, AllReceived;
    StreamRoundTrip(items);
    assert "" + StreamText(items) == StreamText(items);
    EmptyDrains();
    ChunkingInvariance("", wakes);
  }

  lemma EmptyDrains()
    ensures Drain("") == Drained([], "", false)
  {
  }

  // ---------- CSeq ----------

  /** The sequence number a client prints, in any spelling of the name, is the one the session answers with. */
  lemma CSeqRead(m: Message, f: Option<Field>, n: nat)
    requires MessageOk(m) && LengthOk(m, f) && |Print(m)| < TWO_64
    requires n < 0x8000_0000 && LastNamed(m.fields, "CSeq") == Some(ToString(n))
    ensures Parse(Print(m)).Some? && CSeq(Parse(Print(m)).value) == n
  {
    hide Parse, CSeq, MessageOk, LengthOk, Print, LastNamed;
    PrintThenParse(m, f);
    CSeqIsRead(m, m.body);
    NumberRoundTrip(n);
  }
}
