/** `RTSPRequest::parse`, and the text of a request it parses back (section 6 of RFC 2326). */
module Request {
  import opened Basics
  import opened Text

  datatype Request = Request(verb: string, url: string, version: string, headers: map<string, string>, body: string)

  datatype Line = Line(text: string, next: nat)

  function NextLine(raw: string, pos: nat): (l: Option<Line>)
    ensures l.Some? ==> pos + 2 <= l.value.next <= |raw|
  {
    var crlf := Find(raw, CRLF, pos);
    if crlf == NPOS then None else Some(Line(raw[pos..crlf], crlf + 2))
  }

  function AddHeader(headers: map<string, string>, line: string): map<string, string> {
    var colon := Find(line, ":", 0);
    if colon == NPOS then headers else headers[ToLower(Trim(line[..colon])) := Trim(line[colon + 1..])]
  }

  datatype Headers = Headers(fields: map<string, string>, end: nat)

  function ParseHeaders(raw: string, pos: nat, fields: map<string, string>): (h: Headers)
    requires pos <= |raw|
    ensures h.end <= |raw|
    decreases |raw| - pos
  {
    var line := NextLine(raw, pos);
    if line.None? then Headers(fields, pos)
    else if line.value.text == "" then Headers(fields, line.value.next)
    else ParseHeaders(raw, line.value.next, AddHeader(fields, line.value.text))
  }

  // The sum is taken modulo 2^64, as the source's size_t takes it; substr stops at the end of the text.
  function Body(raw: string, h: Headers): string
    requires h.end <= |raw|
  {
    if "content-length" !in h.fields then ""
    else
      var n := Stoul(h.fields["content-length"]);
      if n.None? || (h.end + n.value) % TWO_64 > |raw| then ""
      else raw[h.end..Min(|raw|, h.end + n.value)]
  }

  // The parts of an acceptable request line.
  predicate AcceptsLine(parts: seq<string>) {
    |parts| >= 3 && Find(Trim(parts[2]), "RTSP/", 0) == 0
  }

  function Assemble(raw: string, parts: seq<string>, h: Headers): Request
    requires |parts| >= 3 && h.end <= |raw|
  {
    Request(Trim(parts[0]), Trim(parts[1]), Trim(parts[2]), h.fields, Body(raw, h))
  }

  function Parse(raw: string): Option<Request> {
    var first := NextLine(raw, 0);
    if first.None? then None
    else
      var parts := SplitFrom(first.value.text, ' ', 0);
      if !AcceptsLine(parts) then None
      else Some(Assemble(raw, parts, ParseHeaders(raw, first.value.next, map[])))
  }

  lemma ParseStep(raw: string, pos: nat, fields: map<string, string>, l: Line)
    requires pos <= |raw| && NextLine(raw, pos) == Some(l)
    ensures ParseHeaders(raw, pos, fields)
         == if l.text == "" then Headers(fields, l.next)
            else ParseHeaders(raw, l.next, AddHeader(fields, l.text))
  {
  }

  method ParseFields(raw: string, start: nat) returns (fields: map<string, string>, pos: nat)
    requires start <= |raw|
    ensures Headers(fields, pos) == ParseHeaders(raw, start, map[])
  {
    hide NextLine, Find, Trim;
    fields, pos := map[], start;
    while true
      invariant pos <= |raw|
      invariant ParseHeaders(raw, pos, fields) == ParseHeaders(raw, start, map[])
      decreases |raw| - pos
    {
      var line := NextLine(raw, pos);
      if line.None? {
        return;
      }
      var text := line.value.text;
      ParseStep(raw, pos, fields, line.value);
      pos := line.value.next;
      if text == "" {
        return;
      }
      var colon := Find(text, ":", 0);
      if colon != NPOS {
        var name := TrimString(text[..colon]);
        var value := TrimString(text[colon + 1..]);
        fields := fields[ToLower(name) := value];
      }
    }
  }

  method ReadBody(raw: string, fields: map<string, string>, pos: nat) returns (body: string)
    requires pos <= |raw|
    ensures body == Body(raw, Headers(fields, pos))
  {
    body := "";
    if "content-length" in fields {
      var n := Stoul(fields["content-length"]);
      if n.Some? && (pos + n.value) % TWO_64 <= |raw| {
        body := raw[pos..Min(|raw|, pos + n.value)];
      }
    }
  }

  method ParseRequest(raw: string) returns (req: Option<Request>)
    ensures req == Parse(raw)
  {
    var line := NextLine(raw, 0);
    if line.None? {
      return None;
    }
    var parts := SplitString(line.value.text, ' ');
    if |parts| < 3 {
      return None;
    }
    var verb := TrimString(parts[0]);
    var url := TrimString(parts[1]);
    var version := TrimString(parts[2]);
    if Find(version, "RTSP/", 0) != 0 {
      return None;
    }
    var fields, pos := ParseFields(raw, line.value.next);
    var body := ReadBody(raw, fields, pos);
    return Some(Request(verb, url, version, fields, body));
  }

  // `header` and `cseq`: case-insensitive lookup, -1 for a missing or unreadable number.
  function HeaderValue(r: Request, name: string): string {
    if ToLower(name) in r.headers then r.headers[ToLower(name)] else ""
  }

  function CSeq(r: Request): int {
    var v := HeaderValue(r, "cseq");
    if v == "" || Stoi(v).None? then -1 else Stoi(v).value
  }

  // ---------- printing ----------

  datatype Field = Field(name: string, value: string)

  datatype Message = Message(verb: string, url: string, version: string, fields: seq<Field>, body: string)

  function FieldLine(f: Field): string {
    f.name + ([':'] + (" " + f.value))
  }

  // Everything after the request line: each field on a line of its own, then the empty line.
  function FieldLines(fields: seq<Field>): string {
    if fields == [] then CRLF + CRLF else CRLF + (FieldLine(fields[0]) + FieldLines(fields[1..]))
  }

  function RequestLine(m: Message): string {
    JoinWith([m.verb, m.url, m.version], ' ')
  }

  function HeaderBlock(m: Message): string {
    RequestLine(m) + FieldLines(m.fields)
  }

  function Print(m: Message): string {
    HeaderBlock(m) + m.body
  }

  ghost predicate FieldOk(f: Field) {
    Lacks(f.name, '\r') && Lacks(f.name, ':') && Lacks(f.value, '\r') && Trimmed(f.name) && Trimmed(f.value)
  }

  ghost predicate FieldsOk(fields: seq<Field>) {
    forall i | 0 <= i < |fields| :: FieldOk(fields[i])
  }

  ghost predicate MessageOk(m: Message) {
    && NoSpace(m.verb) && NoSpace(m.url) && NoSpace(m.version) && "RTSP/" <= m.version
    && FieldsOk(m.fields)
  }

  function Collect(acc: map<string, string>, fields: seq<Field>): map<string, string>
    decreases |fields|
  {
    if fields == [] then acc else Collect(acc[ToLower(fields[0].name) := fields[0].value], fields[1..])
  }

  // ---------- parsing what was printed ----------

  lemma LineAt(raw: string, pos: nat, line: string, rest: string)
    requires pos <= |raw| && raw[pos..] == line + (CRLF + rest) && Lacks(line, '\r')
    ensures NextLine(raw, pos) == Some(Line(line, pos + |line| + 2))
    ensures pos + |line| + 2 <= |raw| && raw[pos + |line|..] == CRLF + rest && raw[pos + |line| + 2..] == rest
  {
    var k := pos + |line|;
    assert forall i | pos <= i < k :: raw[i] == raw[pos..][i - pos] == line[i - pos];
    FindSkips(raw, CRLF, pos, k);
    assert raw[pos..][|line|..] == CRLF + rest;
    DropDrop(raw, pos, |line|);
    assert raw[k..][..2] == CRLF && raw[k..k + 2] == CRLF;
    assert raw[k..][2..] == rest;
    DropDrop(raw, k, 2);
    assert raw[pos..][..|line|] == line && raw[pos..k] == line;
  }

  lemma FieldAdded(acc: map<string, string>, f: Field)
    requires FieldOk(f)
    ensures AddHeader(acc, FieldLine(f)) == acc[ToLower(f.name) := f.value]
  {
    var line := FieldLine(f);
    assert line[0..] == line;
    FindAfter(line, 0, f.name, ':', " " + f.value);
    assert line[..|f.name|] == f.name;
    TrimTrimmed(f.name);
    TrimTrimmed(f.value);
  }

  lemma FieldLineLacksCr(f: Field)
    requires FieldOk(f)
    ensures Lacks(FieldLine(f), '\r') && FieldLine(f) != ""
  {
  }

  lemma FieldLinesBegin(fields: seq<Field>)
    ensures var s := FieldLines(fields); |s| >= 2 && s == CRLF + s[2..]
  {
  }

  lemma Regroup(a: string, b: string, c: string, d: string)
    ensures a + (b + c) + d == a + (b + (c + d))
  {
  }

  lemma FirstFieldLine(raw: string, pos: nat, fields: seq<Field>, body: string)
    requires fields != [] && 2 <= pos <= |raw| && raw[pos - 2..] == FieldLines(fields) + body
    ensures raw[pos..] == FieldLine(fields[0]) + (FieldLines(fields[1..]) + body)
  {
    hide FieldLine;
    var line, more := FieldLine(fields[0]), FieldLines(fields[1..]);
    assert FieldLines(fields) == CRLF + (line + more);
    Regroup(CRLF, line, more, body);
    DropDrop(raw, pos - 2, 2);
  }

  lemma NextField(raw: string, pos: nat, fields: seq<Field>, body: string)
    requires fields != [] && FieldOk(fields[0])
    requires 2 <= pos <= |raw| && raw[pos - 2..] == FieldLines(fields) + body
    ensures var line := FieldLine(fields[0]); var next := pos + |line| + 2;
            && line != "" && NextLine(raw, pos) == Some(Line(line, next))
            && next <= |raw| && raw[next - 2..] == FieldLines(fields[1..]) + body
  {
    hide FieldLine, FieldLines, NextLine;
    var line := FieldLine(fields[0]);
    var more := FieldLines(fields[1..]);
    FieldLineLacksCr(fields[0]);
    FieldLinesBegin(fields[1..]);
    var rest := more[2..] + body;
    FirstFieldLine(raw, pos, fields, body);
    Assoc(CRLF, more[2..], body);
    LineAt(raw, pos, line, rest);
  }

  // pos is just behind the CRLF of a line; the fields follow.
  lemma {:induction false} FieldsParsed(raw: string, pos: nat, fields: seq<Field>, body: string,
                                        acc: map<string, string>)
    requires FieldsOk(fields) && 2 <= pos <= |raw| && raw[pos - 2..] == FieldLines(fields) + body
    ensures ParseHeaders(raw, pos, acc) == Headers(Collect(acc, fields), |raw| - |body|)
    decreases |fields|
  {
    if fields == [] {
      assert raw[pos..] == raw[pos - 2..][2..] == "" + (CRLF + body) by { DropDrop(raw, pos - 2, 2); }
      LineAt(raw, pos, "", body);
      ParseStep(raw, pos, acc, Line("", pos + 2));
    } else {
      var f := fields[0];
      var line := FieldLine(f);
      var more := FieldLines(fields[1..]);
      var next := pos + |line| + 2;
      assert NextLine(raw, pos) == Some(Line(line, next)) && raw[next - 2..] == more + body by {
        NextField(raw, pos, fields, body);
      }
      FieldAdded(acc, f);
      ParseStep(raw, pos, acc, Line(line, next));
      FieldsParsed(raw, next, fields[1..], body, acc[ToLower(f.name) := f.value]);
    }
  }

  // ---------- the fields by name ----------

  predicate IsLength(f: Field) {
    SameLetters(f.name, "Content-Length")
  }

  lemma LengthLowered(name: string)
    ensures SameLetters(name, "Content-Length") <==> ToLower(name) == "content-length"
  {
    LowerIff(name, "Content-Length");
    assert ToLower("Content-Length") == "content-length";
  }

  // The only Content-Length among the fields is f; or there is none.
  ghost predicate OnlyLength(fields: seq<Field>, f: Option<Field>) {
    if fields == [] then f.None?
    else if IsLength(fields[0]) then f == Some(fields[0]) && OnlyLength(fields[1..], None)
    else OnlyLength(fields[1..], f)
  }

  lemma {:induction false} CollectedLength(acc: map<string, string>, fields: seq<Field>, f: Option<Field>)
    requires OnlyLength(fields, f)
    ensures var all := Collect(acc, fields);
            if f.None? then "content-length" in all <==> "content-length" in acc
            else "content-length" in all && all["content-length"] == f.value.value
    ensures f.None? && "content-length" in acc
            ==> Collect(acc, fields)["content-length"] == acc["content-length"]
    decreases |fields|
  {
    if fields != [] {
      var acc' := acc[ToLower(fields[0].name) := fields[0].value];
      LengthLowered(fields[0].name);
      CollectedLength(acc', fields[1..], if IsLength(fields[0]) then None else f);
    }
  }

  // What the header says about the body: its length in decimal, or nothing if there is no body.
  ghost predicate LengthOk(m: Message, f: Option<Field>) {
    OnlyLength(m.fields, f)
    && (if f.None? then m.body == "" else f.value.value == ToString(|m.body|))
  }

  function Meaning(m: Message, body: string): Request {
    Request(m.verb, m.url, m.version, Collect(map[], m.fields), body)
  }

  lemma NoSpaceTrims(s: string)
    requires NoSpace(s)
    ensures Trim(s) == s && Lacks(s, ' ') && Lacks(s, '\r')
  {
    TrimTrimmed(s);
  }

  lemma PrefixFound(s: string, p: string)
    requires p <= s
    ensures Find(s, p, 0) == 0
  {
    assert MatchAt(s, p, 0);
  }

  lemma RequestLineLacksCr(m: Message)
    requires NoSpace(m.verb) && NoSpace(m.url) && NoSpace(m.version)
    ensures Lacks(RequestLine(m), '\r')
  {
    NoSpaceTrims(m.verb);
    NoSpaceTrims(m.url);
    NoSpaceTrims(m.version);
    var parts := [m.verb, m.url, m.version];
    assert parts[1..] == [m.url, m.version] && parts[1..][1..] == [m.version];
    assert JoinWith(parts[1..][1..], ' ') == m.version;
    assert JoinWith(parts[1..], ' ') == m.url + ([' '] + m.version);
  }

  // A header block with some text behind it is a line, CRLF, and the rest of the fields.
  lemma BlockShape(m: Message, body: string)
    ensures var raw := HeaderBlock(m) + body; var line := RequestLine(m); var tail := FieldLines(m.fields) + body;
            && raw == line + tail && |tail| >= 2 && tail == CRLF + tail[2..]
            && |line| + 2 <= |raw| && raw[|line|..] == tail
  {
  }

  // The request line and the fields of a printed message, whatever part of the body comes along.
  lemma HeaderParsed(m: Message, body: string)
    requires MessageOk(m)
    ensures var raw := HeaderBlock(m) + body; var line := RequestLine(m);
            && NextLine(raw, 0) == Some(Line(line, |line| + 2))
            && |line| + 2 <= |raw|
            && ParseHeaders(raw, |line| + 2, map[]) == Headers(Collect(map[], m.fields), |raw| - |body|)
  {
    var raw := HeaderBlock(m) + body;
    var line := RequestLine(m);
    var tail := FieldLines(m.fields) + body;
    BlockShape(m, body);
    RequestLineLacksCr(m);
    assert NextLine(raw, 0) == Some(Line(line, |line| + 2)) by {
      assert raw[0..] == raw;
      LineAt(raw, 0, line, tail[2..]);
    }
    FieldsParsed(raw, |line| + 2, m.fields, body, map[]);
  }

  lemma LineSplits(m: Message)
    requires MessageOk(m)
    ensures var parts := SplitFrom(RequestLine(m), ' ', 0);
            AcceptsLine(parts) && |parts| == 3
            && Trim(parts[0]) == m.verb && Trim(parts[1]) == m.url && Trim(parts[2]) == m.version
  {
    var line := RequestLine(m);
    NoSpaceTrims(m.verb);
    NoSpaceTrims(m.url);
    NoSpaceTrims(m.version);
    assert line[0..] == line;
    SplitOfJoin(line, 0, [m.verb, m.url, m.version], ' ');
    PrefixFound(m.version, "RTSP/");
  }

  lemma BodyOfPrinted(m: Message, f: Option<Field>, body: string)
    requires LengthOk(m, f) && |Print(m)| < TWO_64 && body <= m.body
    ensures var raw := HeaderBlock(m) + body;
            Body(raw, Headers(Collect(map[], m.fields), |HeaderBlock(m)|)) == if body == m.body then body else ""
  {
    hide Collect, HeaderBlock, ToString, Decimal, OnlyLength;
    var raw := HeaderBlock(m) + body;
    CollectedLength(map[], m.fields, f);
    NumberRoundTrip(|m.body|);
    assert raw[|HeaderBlock(m)|..] == body;
  }

  // Parsing the header block with some bytes behind it: the body is what Content-Length asks for, if
  // that many bytes are there.
  lemma ParsePrinted(m: Message, f: Option<Field>, body: string)
    requires MessageOk(m) && LengthOk(m, f) && |Print(m)| < TWO_64 && body <= m.body
    ensures Parse(HeaderBlock(m) + body) == Some(Meaning(m, if body == m.body then body else ""))
  {
    hide SplitFrom, NextLine, Body, HeaderBlock, RequestLine, FieldLines, Collect, ParseHeaders, AcceptsLine, Trim;
    var raw := HeaderBlock(m) + body;
    var parts := SplitFrom(RequestLine(m), ' ', 0);
    var h := Headers(Collect(map[], m.fields), |HeaderBlock(m)|);
    HeaderParsed(m, body);
    LineSplits(m);
    BodyOfPrinted(m, f, body);
    assert Parse(raw) == Some(Assemble(raw, parts, h));
  }

  /** Parsing a printed request gives the request back. */
  lemma PrintThenParse(m: Message, f: Option<Field>)
    requires MessageOk(m) && LengthOk(m, f) && |Print(m)| < TWO_64
    ensures Parse(Print(m)) == Some(Meaning(m, m.body))
  {
    ParsePrinted(m, f, m.body);
  }

  // ---------- a negative length ----------

  /**
   A Content-Length of -n, for n up to the size of the header, is read modulo 2^64, the sum wraps back into the
   header, and the body is everything that is there.
   */
  lemma NegativeLengthTakesAll(m: Message, f: Field, n: nat, body: string)
    requires MessageOk(m) && OnlyLength(m.fields, Some(f)) && f.value == "-" + ToString(n)
    requires 0 < n <= |HeaderBlock(m)| && |HeaderBlock(m) + body| < TWO_64
    ensures Parse(HeaderBlock(m) + body) == Some(Meaning(m, body))
  {
    hide SplitFrom, NextLine, Body, HeaderBlock, RequestLine, FieldLines, Collect, ParseHeaders, AcceptsLine, Trim;
    var raw := HeaderBlock(m) + body;
    var h := Headers(Collect(map[], m.fields), |HeaderBlock(m)|);
    HeaderParsed(m, body);
    LineSplits(m);
    assert Body(raw, h) == body by {
      CollectedLength(map[], m.fields, Some(f));
      MinusParsed(n);
      BodyBehind(raw, h, n, body);
    }
    assert Parse(raw) == Some(Assemble(raw, SplitFrom(RequestLine(m), ' ', 0), h));
  }

  lemma MinusParsed(n: nat)
    requires n < TWO_64
    ensures Stoul("-" + ToString(n)) == Some((0 - n) % TWO_64)
  {
    hide ToString, Scan;
    MinusScanned(n);
  }

  lemma BodyBehind(raw: string, h: Headers, n: nat, body: string)
    requires 0 < n <= h.end < TWO_64 && h.end <= |raw| && raw[h.end..] == body && "content-length" in h.fields
    requires Stoul(h.fields["content-length"]) == Some((0 - n) % TWO_64) && |raw| < TWO_64
    ensures Body(raw, h) == body
  {
    assert (0 - n) % TWO_64 == TWO_64 - n;
  }

  // ---------- what is accepted ----------

  lemma PrefixIff(s: string, p: string)
    ensures Find(s, p, 0) == 0 <==> p <= s
  {
    if p <= s {
      PrefixFound(s, p);
    } else {
      FindIsFirst(s, p, 0);
    }
  }

  /**
   A text is a request if and only if its first line, ended by a line break, has at least three words and the third
   begins with "RTSP/".
   */
  lemma AcceptedIff(words: seq<string>, rest: string)
    requires words != [] && forall i | 0 <= i < |words| :: NoSpace(words[i])
    requires Lacks(JoinWith(words, ' '), '\r')
    ensures Parse(JoinWith(words, ' ') + (CRLF + rest)).Some? <==> |words| >= 3 && "RTSP/" <= words[2]
  {
    hide SplitFrom, Find, Assemble, ParseHeaders, Trim, NextLine, JoinWith;
    var line := JoinWith(words, ' ');
    var raw := line + (CRLF + rest);
    assert raw[0..] == raw && line[0..] == line;
    LineAt(raw, 0, line, rest);
    forall i | 0 <= i < |words| ensures Lacks(words[i], ' ') {
      NoSpaceTrims(words[i]);
    }
    SplitOfJoin(line, 0, words, ' ');
    if |words| >= 3 {
      NoSpaceTrims(words[2]);
      PrefixIff(words[2], "RTSP/");
    }
  }

  // ---------- looking up a field ----------

  // The value of the last field with this name, in capital or small letters.
  function LastNamed(fields: seq<Field>, name: string): Option<string> {
    if fields == [] then None
    else
      var later := LastNamed(fields[1..], name);
      if later.Some? then later
      else if SameLetters(fields[0].name, name) then Some(fields[0].value) else None
  }

  lemma {:induction false} LastIsCollected(acc: map<string, string>, fields: seq<Field>, name: string)
    ensures var all := Collect(acc, fields); var last := LastNamed(fields, name); var key := ToLower(name);
            if last.Some? then key in all && all[key] == last.value
            else (key in all <==> key in acc) && (key in acc ==> all[key] == acc[key])
    decreases |fields|
  {
    hide ToLower, SameLetters;
    if fields != [] {
      LowerIff(fields[0].name, name);
      LastIsCollected(acc[ToLower(fields[0].name) := fields[0].value], fields[1..], name);
    }
  }

  /** In a parsed request, a field looked up by any spelling has the value printed last under that name, or none. */
  lemma HeaderIsLast(m: Message, body: string, name: string)
    ensures HeaderValue(Meaning(m, body), name)
         == var last := LastNamed(m.fields, name); if last.Some? then last.value else ""
  {
    LastIsCollected(map[], m.fields, name);
  }

  /** The number of a request: that of its last CSeq field, -1 without one or with one that is no number. */
  lemma CSeqIsRead(m: Message, body: string)
    ensures var last := LastNamed(m.fields, "CSeq");
            CSeq(Meaning(m, body)) == if last.None? || Stoi(last.value).None? then -1 else Stoi(last.value).value
  {
    hide ToLower, Stoi;
    SmallCSeq();
    HeaderIsLast(m, body, "CSeq");
    NoNumberInNothing();
  }

  lemma SmallCSeq()
    ensures ToLower("CSeq") == ToLower("cseq")
  {
    LowerIff("CSeq", "cseq");
  }

  lemma NoNumberInNothing()
    ensures Stoi("").None?
  {
  }
}
