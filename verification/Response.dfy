/**
 Responses as they are written (section 7 of RFC 2326), and that a receiver finds their end: the header goes
 up to the empty line, and the body has the announced length.
 */
module Response {
  import opened Basics
  import opened Text
  import opened Request
  import opened Receive
  import opened RequestStream
  import V = VideoReceiver

  // headers: in the order in which the map of the source yields them.
  datatype Reply = Reply(status: nat, reason: string, headers: seq<Field>, body: string)

  const SERVER := Field("Server", "RTSP-Server/1.0")

  function StatusLine(r: Reply): string {
    "RTSP/1.0 " + ToString(r.status) + " " + r.reason
  }

  // A body never goes out without its length.
  function LengthField(r: Reply): seq<Field> {
    if r.body != "" && Exact(r.headers, UPPER).None? then [Field(UPPER, ToString(|r.body|))] else []
  }

  function Fields(r: Reply): seq<Field> {
    [SERVER] + r.headers + LengthField(r)
  }

  function Written(r: Reply): string {
    Block(StatusLine(r), Fields(r)) + r.body
  }

  // What is written so far ends a line; the rest of the fields follow.
  ghost predicate Opened(text: string, line: string, fields: seq<Field>, done: nat)
    requires done <= |fields|
  {
    |text| >= 2 && text[|text| - 2..] == CRLF && text[..|text| - 2] + FieldLines(fields[done..]) == Block(line, fields)
  }

  lemma OneFieldWritten(text: string, line: string, fields: seq<Field>, done: nat)
    requires done < |fields| && Opened(text, line, fields, done)
    ensures Opened(text + FieldLine(fields[done]) + CRLF, line, fields, done + 1)
  {
    hide FieldLine, Block;
    var before, f, rest := text[..|text| - 2], FieldLine(fields[done]), FieldLines(fields[done + 1..]);
    var after := text + f + CRLF;
    assert fields[done..][1..] == fields[done + 1..];
    assert text == before + CRLF;
    assert after[|after| - 2..] == CRLF && after[..|after| - 2] == text + f;
    Assoc(before, CRLF, f + rest);
    Assoc(text, f, rest);
  }

  lemma AllFieldsWritten(text: string, line: string, fields: seq<Field>)
    requires Opened(text, line, fields, |fields|)
    ensures text + CRLF == Block(line, fields)
  {
    hide Block;
    assert fields[|fields|..] == [];
    var before := text[..|text| - 2];
    assert text == before + CRLF;
    Assoc(before, CRLF, CRLF);
  }

  lemma LineWritten(line: string, fields: seq<Field>)
    ensures Opened(line + CRLF, line, fields, 0)
  {
    assert fields[0..] == fields;
  }

  method WriteReply(r: Reply) returns (text: string)
    ensures text == Written(r)
  {
    hide Opened, Block, FieldLine, StatusLine;
    ghost var line, fields := StatusLine(r), Fields(r);
    text := StatusLine(r) + CRLF;
    LineWritten(line, fields);
    OneFieldWritten(text, line, fields, 0);
    text := text + FieldLine(SERVER) + CRLF;
    for i := 0 to |r.headers|
      invariant Opened(text, line, fields, 1 + i)
    {
      assert fields[1 + i] == r.headers[i];
      OneFieldWritten(text, line, fields, 1 + i);
      text := text + FieldLine(r.headers[i]) + CRLF;
    }
    if r.body != "" && Exact(r.headers, UPPER).None? {
      OneFieldWritten(text, line, fields, 1 + |r.headers|);
      text := text + FieldLine(Field(UPPER, ToString(|r.body|))) + CRLF;
    }
    AllFieldsWritten(text, line, fields);
    text := text + CRLF + r.body;
  }

  // ---------- its end is found ----------

  ghost predicate Latin(text: string) {
    forall i | 0 <= i < |text| :: text[i] as int < 256
  }

  // Clean header text; a Content-Length of its own gives the length of the body.
  ghost predicate ReplyOk(r: Reply) {
    && Lacks(r.reason, '\r') && FieldsOk(r.headers) && Latin(Written(r)) && |Written(r)| < TWO_64
    && Exact(r.headers, LOWER).None?
    && (Exact(r.headers, UPPER).Some? ==> Exact(r.headers, UPPER).value == ToString(|r.body|))
  }

  lemma {:induction false} ExactAppend(a: seq<Field>, b: seq<Field>, name: string)
    ensures Exact(a + b, name) == if Exact(a, name).Some? then Exact(a, name) else Exact(b, name)
  {
    if a == [] {
      assert a + b == b;
    } else {
      assert (a + b)[1..] == a[1..] + b && (a + b)[0] == a[0];
      ExactAppend(a[1..], b, name);
    }
  }

  lemma ExactOne(f: Field, name: string)
    ensures Exact([f], name) == if f.name == name then Some(f.value) else None
  {
    assert [f][1..] == [];
  }

  lemma FieldRead(r: Reply, name: string)
    requires name == UPPER || name == LOWER
    ensures Exact(Fields(r), name)
         == if Exact(r.headers, name).Some? then Exact(r.headers, name)
            else if name == UPPER && r.body != "" then Some(ToString(|r.body|)) else None
  {
    hide Exact;
    assert UPPER[0] == 'C' && LOWER[0] == 'c' && SERVER.name[0] == 'S';
    ExactAppend([SERVER] + r.headers, LengthField(r), name);
    ExactAppend([SERVER], r.headers, name);
    ExactOne(SERVER, name);
    ExactOne(Field(UPPER, ToString(|r.body|)), name);
    NoFields(name);
  }

  lemma NoFields(name: string)
    ensures Exact([], name).None?
  {
  }

  lemma LengthAnnounced(r: Reply)
    requires ReplyOk(r)
    ensures FramerLength(Fields(r)) == |r.body|
  {
    hide Exact, Written, FieldsOk;
    FieldRead(r, UPPER);
    FieldRead(r, LOWER);
    LengthIsRead(r);
  }

  lemma LengthIsRead(r: Reply)
    requires |Written(r)| < TWO_64
    ensures NumberIn(ToString(|r.body|)) == |r.body| && |r.body| < TWO_64
  {
    NumberRoundTrip(|r.body|);
    TrimTrimmed(ToString(|r.body|));
  }

  lemma FieldsClean(r: Reply)
    requires ReplyOk(r)
    ensures FieldsOk(Fields(r)) && Lacks(StatusLine(r), '\r')
  {
    hide Written, Exact;
    NumberRoundTrip(r.status);
    NumberRoundTrip(|r.body|);
    assert Trimmed(SERVER.value) && Trimmed(SERVER.name) && Trimmed(UPPER);
  }

  // The bytes on the connection.
  function BytesOf(text: string): seq<byte> {
    seq(|text|, i requires 0 <= i < |text| => Octet(text[i]))
  }

  lemma FrontOfReply(r: Reply, rest: string)
    requires ReplyOk(r)
    ensures FrontOf(Written(r) + rest) == Front.Text(|Written(r)|)
  {
    hide FrontOf, FramerLength, Exact, FieldsOk;
    var line, fields := StatusLine(r), Fields(r);
    FieldsClean(r);
    LengthAnnounced(r);
    assert line[0] == 'R';
    FrontOfPrinted(line, fields, r.body + rest);
    Assoc(Block(line, fields), r.body, rest);
  }

  lemma TextOfBytes(text: string, rest: seq<byte>)
    requires Latin(text)
    ensures V.TextOf(BytesOf(text) + rest) == text + V.TextOf(rest)
  {
  }

  /** Every clean response is taken as one message by a receiver, whatever follows it on the connection. */
  lemma ReplyIsFramed(r: Reply)
    requires ReplyOk(r)
    ensures V.IsReply(BytesOf(Written(r)))
  {
    hide FrontOf, FieldsOk, Exact;
    var w := BytesOf(Written(r));
    assert Written(r)[0] == 'R';
    forall rest: seq<byte> ensures FrontOf(V.TextOf(w + rest)) == Front.Text(|w|) {
      TextOfBytes(Written(r), rest);
      FrontOfReply(r, V.TextOf(rest));
    }
  }

  // ---------- the response to DESCRIBE, the one with a body ----------

  function DescribeReply(cseq: string, base: string, date: string, sdp: string): Reply {
    Reply(200, "OK", DescribeHeaders(cseq, base, ToString(|sdp|), date), sdp)
  }

  ghost predicate CleanValue(v: string) {
    Lacks(v, '\r') && Trimmed(v)
  }

  /** It announces the length of the description it carries. */
  lemma DescribeIsClean(cseq: string, base: string, date: string, sdp: string)
    requires CleanValue(cseq) && CleanValue(base) && CleanValue(date)
    requires Latin(Written(DescribeReply(cseq, base, date, sdp)))
    requires |Written(DescribeReply(cseq, base, date, sdp))| < TWO_64
    ensures ReplyOk(DescribeReply(cseq, base, date, sdp))
  {
    hide Written, Latin, Exact, FieldsOk;
    NumberRoundTrip(|sdp|);
    DescribeFields(cseq, base, ToString(|sdp|), date);
  }

  function DescribeHeaders(cseq: string, base: string, length: string, date: string): seq<Field> {
    [Field("CSeq", cseq), Field("Content-Base", base), Field(UPPER, length), Field("Content-Type", "application/sdp"),
     Field("Date", date)]
  }

  lemma ExactNext(f: Field, rest: seq<Field>, name: string)
    ensures Exact([f] + rest, name) == if f.name == name then Some(f.value) else Exact(rest, name)
  {
    assert ([f] + rest)[1..] == rest;
  }

  lemma DescribeFields(cseq: string, base: string, length: string, date: string)
    requires CleanValue(cseq) && CleanValue(base) && CleanValue(length) && CleanValue(date)
    ensures var hs := DescribeHeaders(cseq, base, length, date);
            FieldsOk(hs) && Exact(hs, UPPER) == Some(length) && Exact(hs, LOWER).None?
  {
    hide Exact, FieldsOk;
    var a, b, c := Field("CSeq", cseq), Field("Content-Base", base), Field(UPPER, length);
    var d, e := Field("Content-Type", "application/sdp"), Field("Date", date);
    DescribeHeadersOk(cseq, base, length, date);
    assert UPPER[0] == 'C' && UPPER[1] == 'o' && UPPER[8] == 'L' && LOWER[0] == 'c';
    assert a.name[1] == 'S' && b.name[8] == 'B' && d.name[8] == 'T' && e.name[0] == 'D' && d.name[0] == 'C';
    assert DescribeHeaders(cseq, base, length, date) == [a] + ([b] + ([c] + ([d] + [e])));
    ExactNext(a, [b] + ([c] + ([d] + [e])), UPPER);
    ExactNext(b, [c] + ([d] + [e]), UPPER);
    ExactNext(c, [d] + [e], UPPER);
    ExactNext(a, [b] + ([c] + ([d] + [e])), LOWER);
    ExactNext(b, [c] + ([d] + [e]), LOWER);
    ExactNext(c, [d] + [e], LOWER);
    ExactNext(d, [e], LOWER);
    ExactOne(e, LOWER);
  }

  ghost predicate CleanName(n: string) {
    Lacks(n, '\r') && Lacks(n, ':') && Trimmed(n)
  }

  lemma NamesClean()
    ensures CleanName("CSeq") && CleanName("Content-Base") && CleanName(UPPER) && CleanName("Content-Type")
    ensures CleanName("Date") && CleanValue("application/sdp")
  {
  }

  lemma DescribeHeadersOk(cseq: string, base: string, length: string, date: string)
    requires CleanValue(cseq) && CleanValue(base) && CleanValue(length) && CleanValue(date)
    ensures FieldsOk(DescribeHeaders(cseq, base, length, date))
  {
    hide Lacks, Trimmed;
    NamesClean();
  }
}
