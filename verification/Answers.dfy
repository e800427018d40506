/**
 The responses of a session as text, and that a client reads back which request each of them answers: all the
 way through the outbox, one response for every request handled, in order, with its CSeq.
 */
module Answers {
  import opened Basics
  import opened Text
  import opened Request
  import opened Receive
  import opened RequestStream
  import opened SessionStream
  import R = Response
  import S = Session
  import V = VideoReceiver
  import D = Delivery
  import E = EgressSteps

  // ---------- numbers with a sign ----------

  function IntText(n: int): string {
    if n < 0 then "-" + ToString(-n) else ToString(n)
  }

  predicate Int32(n: int) {
    -0x8000_0000 <= n < 0x8000_0000
  }

  lemma IntRead(n: int)
    requires Int32(n)
    ensures Trimmed(IntText(n)) && Lacks(IntText(n), '\r') && Stoi(IntText(n)) == Some(n)
  {
    hide ToString, Decimal;
    if n < 0 {
      MinusScanned(-n);
    } else {
      NumberRoundTrip(n);
    }
  }

  // ---------- a response as text ----------

  function Reason(status: int): string {
    if status == 200 then "OK"
    else if status == 400 then "Bad Request"
    else if status == 403 then "Forbidden"
    else if status == 404 then "Not Found"
    else if status == 415 then "Unsupported Media Type"
    else if status == 455 then "Method Not Valid In This State"
    else if status == 461 then "Unsupported Transport"
    else if status == 500 then "Internal Server Error"
    else "Not Implemented"
  }

  // What else a response says: URLs, dates, the description.
  datatype Texts = Texts(headers: S.Output -> seq<Field>, body: S.Output -> string)

  // CSeq comes first, in the order of the names.
  function ReplyTo(t: Texts, o: S.Output): R.Reply
    requires o.Response?
  {
    R.Reply(Max(0, o.status), Reason(o.status), [Field("CSeq", IntText(o.cseq))] + t.headers(o), t.body(o))
  }

  function ReplyBytes(t: Texts, o: S.Output): seq<byte> {
    if o.Response? then R.BytesOf(R.Written(ReplyTo(t, o))) else []
  }

  function Write(t: Texts): Writer {
    o => ReplyBytes(t, o)
  }

  ghost predicate Clean(t: Texts, o: S.Output) {
    o.Response? ==>
      var hs := t.headers(o);
      && Int32(o.cseq) && 0 <= o.status < 0x8000_0000 && FieldsOk(hs) && Exact(hs, LOWER).None?
      && (Exact(hs, UPPER).Some? ==> Exact(hs, UPPER).value == ToString(|t.body(o)|))
      && R.Latin(R.Written(ReplyTo(t, o))) && |R.Written(ReplyTo(t, o))| < TWO_64
  }

  ghost predicate AllClean(t: Texts, outs: seq<S.Output>) {
    forall i | 0 <= i < |outs| :: Clean(t, outs[i])
  }

  lemma PhrasesClean()
    ensures Lacks("OK", '\r') && Lacks("Bad Request", '\r') && Lacks("Forbidden", '\r') && Lacks("Not Found", '\r')
    ensures Lacks("Unsupported Media Type", '\r') && Lacks("Unsupported Transport", '\r')
  {
  }

  lemma MorePhrasesClean()
    ensures Lacks("Method Not Valid In This State", '\r') && Lacks("Internal Server Error", '\r')
    ensures Lacks("Not Implemented", '\r')
  {
  }

  lemma ReasonClean(status: int)
    ensures Lacks(Reason(status), '\r')
  {
    hide Lacks;
    PhrasesClean();
    MorePhrasesClean();
  }

  lemma CSeqClean(n: int)
    requires Int32(n)
    ensures FieldOk(Field("CSeq", IntText(n)))
  {
    hide IntText;
    IntRead(n);
    assert Trimmed("CSeq");
  }

  lemma ReplyClean(t: Texts, o: S.Output)
    requires o.Response? && Clean(t, o)
    ensures R.ReplyOk(ReplyTo(t, o))
  {
    hide IntText, Reason, Exact, R.Written, R.Latin, FieldOk, ToString;
    var f := Field("CSeq", IntText(o.cseq));
    ReasonClean(o.status);
    CSeqClean(o.cseq);
    assert UPPER[0] == 'C' && UPPER[1] == 'o' && LOWER[0] == 'c' && f.name[1] == 'S';
    R.ExactNext(f, t.headers(o), UPPER);
    R.ExactNext(f, t.headers(o), LOWER);
  }

  lemma AllReadable(t: Texts, outs: seq<S.Output>)
    requires AllClean(t, outs)
    ensures Readable(outs, Write(t))
  {
    hide Clean, V.IsReply, R.ReplyOk, ReplyTo, R.Written;
    forall i | 0 <= i < |outs| && outs[i].Response? ensures V.IsReply(Write(t)(outs[i])) {
      ReplyClean(t, outs[i]);
      R.ReplyIsFramed(ReplyTo(t, outs[i]));
    }
  }

  // ---------- what the client reads ----------

  function CSeqIn(text: string): Option<int> {
    var at := Find(text, Pattern("CSeq"), 0);
    if at == NPOS then None
    else
      var line := NextLine(text, Find(text, ":", at) + 1);
      if line.None? then None else Stoi(Trim(line.value.text))
  }

  const VERSION := "RTSP/1.0 "

  function StatusIn(text: string): Option<int> {
    if VERSION <= text then Stoi(text[|VERSION|..]) else None
  }

  lemma StatusRead(r: R.Reply)
    requires r.status < 0x8000_0000
    ensures StatusIn(R.Written(r)) == Some(r.status)
  {
    hide ToString, FieldLines, Stoi, R.Fields;
    var rest := " " + r.reason + FieldLines(R.Fields(r)) + r.body;
    assert R.Written(r) == VERSION + (ToString(r.status) + rest);
    NumberInFront(r.status, rest);
  }

  // One field that is not the one searched for, then the one that is.
  lemma SecondField(line: string, fields: seq<Field>, name: string)
    requires Lacks(line, '\r') && FieldsOk(fields) && |fields| >= 2
    requires |name| >= 2 && Lacks(name, ':') && Lacks(name, '\r')
    requires fields[0].name != name && fields[1].name == name
    ensures var s := Block(line, fields);
            var at := Find(s, Pattern(name), 0);
            at != NPOS && Find(s, ":", at) != NPOS
            && NextLine(s, Find(s, ":", at) + 1).Some?
            && NextLine(s, Find(s, ":", at) + 1).value.text == " " + fields[1].value
  {
    hide Find, NextLine, FieldLine, FieldLines;
    var s := Block(line, fields);
    var at := |line|;
    assert forall k | 0 <= k < |line| :: s[k] != '\r';
    FieldsInBlock(line, fields);
    FindSkips(s, Pattern(name), 0, at);
    NoFieldHere(s, at, fields, name);
    NextFieldAt(s, at, fields, "");
    var next := AfterField(at, fields);
    Skipped(s, Pattern(name), at, next);
    FieldMatches(s, next, fields[1..]);
    FieldValue(s, next, fields[1..]);
    FoundHere(s, Pattern(name), next);
  }

  lemma FoundHere(s: string, pat: string, at: nat)
    requires MatchAt(s, pat, at)
    ensures Find(s, pat, at) == at
  {
  }

  lemma Skipped(s: string, pat: string, at: nat, next: nat)
    requires pat != "" && at < next <= |s| && !MatchAt(s, pat, at)
    requires forall k | at < k < next :: s[k] != pat[0]
    ensures Find(s, pat, at) == Find(s, pat, next)
  {
    FindSkips(s, pat, at + 1, next);
  }

  // A body behind the header changes nothing.
  lemma ReadThrough(head: string, body: string)
    requires CSeqIn(head).Some? && Find(head, ":", Find(head, Pattern("CSeq"), 0)) != NPOS
    ensures CSeqIn(head + body) == CSeqIn(head)
  {
    hide Find, Stoi, Trim;
    var at := Find(head, Pattern("CSeq"), 0);
    var colon := Find(head, ":", at);
    FindExtended(head, body, Pattern("CSeq"), 0);
    FindExtended(head, body, ":", at);
    FindExtended(head, body, CRLF, colon + 1);
    var crlf := Find(head, CRLF, colon + 1);
    assert (head + body)[colon + 1..crlf] == head[colon + 1..crlf];
  }

  lemma ReplyRead(t: Texts, o: S.Output)
    requires o.Response? && Clean(t, o)
    ensures CSeqIn(V.TextOf(ReplyBytes(t, o))) == Some(o.cseq)
    ensures StatusIn(V.TextOf(ReplyBytes(t, o))) == Some(o.status)
  {
    hide Find, NextLine, Stoi, Trim, IntText, Reason, Exact, FieldOk, Block, Pattern, R.StatusLine, Clean, StatusIn;
    var r := ReplyTo(t, o);
    var f := Field("CSeq", IntText(o.cseq));
    ReplyClean(t, o);
    R.FieldsClean(r);
    var line, fields := R.StatusLine(r), R.Fields(r);
    assert fields[0] == R.SERVER && fields[1] == f && R.SERVER.name[1] == 'e' && f.name[1] == 'S';
    SecondField(line, fields, "CSeq");
    CleanNumber(t, o);
    ValueRead(o.cseq);
    StatusRead(r);
    ReadThrough(Block(line, fields), r.body);
    TextBack(R.Written(r));
  }

  lemma CleanNumber(t: Texts, o: S.Output)
    requires o.Response? && Clean(t, o)
    ensures Int32(o.cseq) && 0 <= o.status < 0x8000_0000
  {
  }

  lemma ValueRead(n: int)
    requires Int32(n)
    ensures Stoi(Trim(" " + IntText(n))) == Some(n)
  {
    hide Stoi, Trim, IntText;
    IntRead(n);
    TrimTrimmed(IntText(n));
  }

  lemma TextBack(text: string)
    requires R.Latin(text)
    ensures V.TextOf(R.BytesOf(text)) == text
  {
  }

  // The responses name these requests, and say so of each of them.
  ghost predicate Names(replies: seq<seq<byte>>, cseqs: seq<int>, statuses: seq<int>) {
    && |replies| == |cseqs| == |statuses|
    && forall i | 0 <= i < |replies| ::
         CSeqIn(V.TextOf(replies[i])) == Some(cseqs[i]) && StatusIn(V.TextOf(replies[i])) == Some(statuses[i])
  }

  function Statuses(outs: seq<S.Output>): seq<int> {
    if outs == [] then [] else (if outs[0].Response? then [outs[0].status] else []) + Statuses(outs[1..])
  }

  lemma {:induction false} AllNamed(t: Texts, outs: seq<S.Output>)
    requires AllClean(t, outs)
    ensures Names(V.AllSaid(Items(outs, Write(t))), S.Answered(outs), Statuses(outs))
    decreases |outs|
  {
    hide Clean, CSeqIn, StatusIn, V.TextOf, ReplyBytes;
    if outs != [] {
      AllNamed(t, outs[1..]);
      var items := Items(outs, Write(t));
      assert items[1..] == Items(outs[1..], Write(t));
      if outs[0].Response? {
        ReplyRead(t, outs[0]);
      }
    }
  }

  /**
   For every run that keeps the video on one channel, and every interleaving of the outbox in which the run's
   outputs were offered and none was dropped: once the outbox is drained, the client has read one response for
   every request of the run, in order, each with its number and the status it was answered with.
   */
  lemma EveryRequestIsAnswered(s: S.State, run: seq<S.Action>, t: Texts, channel: byte, labels: seq<E.Label>,
                               pl: V.Player)
    requires OnChannel(s, run, channel)
    requires Carried(S.Acts(s, run).outs) && AllClean(t, S.Acts(s, run).outs)
    requires V.Fresh(pl) && pl.next == s.sequence && pl.replies == []
    requires var e := E.Run(E.Start(), labels);
             && e.log.offered == D.Offers(S.Acts(s, run).outs, Write(t)) && e.log.dropped == 0
             && e.producer.Rest? && !E.Waiting(e)
    ensures var end := V.Play(pl, channel, E.Run(E.Start(), labels).log.kernel);
            end.Some? && Names(end.value.replies, S.Asked(run), Statuses(S.Acts(s, run).outs))
  {
    hide S.Acts, OnChannel, Carried, Readable, Items, D.Offers, AllClean, Names, Write;
    hide V.Play, V.Fresh, E.Run, E.Start, E.Waiting, V.AllSaid, S.Answered, S.Asked, Statuses;
    var outs := S.Acts(s, run).outs;
    AllReadable(t, outs);
    D.RunIsDelivered(s, run, Write(t), channel, labels, pl);
    AllNamed(t, outs);
    S.ActsAnswer(s, run);
    assert [] + V.AllSaid(Items(outs, Write(t))) == V.AllSaid(Items(outs, Write(t)));
  }
}
