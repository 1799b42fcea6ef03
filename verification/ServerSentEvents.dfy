/**
 Server-sent events (internal/platform/sse/sse.go): the frames a stream writes, and the event
 stream interpretation of section 9.2.6 of the WHATWG HTML standard that a client applies to them.
 */
module ServerSentEvents {
  import opened Collections
  import opened Decimals

  /** Retry is a duration in nanoseconds; it is written in whole milliseconds. */
  datatype Event = Event(name: string, id: string, retry: int, data: string)

  const MILLISECOND := 1_000_000

  // ---- writing ----

  /** strings.Split(s, "\n"). */
  function SplitLines(s: string): (r: seq<string>)
    ensures r != []
  {
    if s == "" then [""]
    else
      var n := |s| - 1;
      var before := SplitLines(s[..n]);
      if s[n] == '\n' then before + [""]
      else before[..|before| - 1] + [before[|before| - 1] + [s[n]]]
  }

  /** Lines, each ended by a line feed. */
  function Lines(ls: seq<string>): string {
    if ls == [] then "" else Lines(ls[..|ls| - 1]) + ls[|ls| - 1] + "\n"
  }

  function FieldLine(name: string, value: string): string { name + ": " + value }

  function DataLines(ls: seq<string>): (r: seq<string>)
    ensures |r| == |ls|
  {
    seq(|ls|, i requires 0 <= i < |ls| => FieldLine("data", ls[i]))
  }

  function HeadLines(e: Event): seq<string> {
    (if e.name != "" then [FieldLine("event", e.name)] else [])
    + (if e.id != "" then [FieldLine("id", e.id)] else [])
    + (if e.retry > 0 then [FieldLine("retry", Decimal(e.retry / MILLISECOND))] else [])
  }

  function FrameLines(e: Event): seq<string> { HeadLines(e) + DataLines(SplitLines(e.data)) + [""] }

  function EventFrame(e: Event): string { Lines(FrameLines(e)) }

  function CommentLines(comment: string): seq<string> { [": " + comment, ""] }

  function CommentFrame(comment: string): string { Lines(CommentLines(comment)) }

  lemma LinesAppend(ls: seq<string>, l: string)
    ensures Lines(ls + [l]) == Lines(ls) + l + "\n"
  {
    assert (ls + [l])[..|ls|] == ls;
  }

  lemma {:induction false} LinesConcat(a: seq<string>, b: seq<string>)
    ensures Lines(a + b) == Lines(a) + Lines(b)
    decreases |b|
  {
    if b == [] {
      assert a + b == a;
    } else {
      var n := |b| - 1;
      assert a + b == (a + b[..n]) + [b[n]];
      LinesConcat(a, b[..n]);
      LinesAppend(a + b[..n], b[n]);
    }
  }

  /** A frame is written whole under the stream's mutex, so the output is the frames in lock order. */
  class Stream {
    var out: string

    constructor ()
      ensures out == ""
    {
      out := "";
    }

    /** One formatted line into the frame builder. */
    static method Put(b: string, ghost ls: seq<string>, name: string, value: string) returns (r: string)
      requires b == Lines(ls)
      ensures r == Lines(ls + [FieldLine(name, value)])
    {
      LinesAppend(ls, FieldLine(name, value));
      r := b + (name + ": " + value) + "\n";
    }

    static method PutHead(event: Event) returns (b: string)
      ensures b == Lines(HeadLines(event))
    {
      b := "";
      ghost var ls: seq<string> := [];
      if event.name != "" {
        b := Put(b, ls, "event", event.name);
        ls := ls + [FieldLine("event", event.name)];
      }
      if event.id != "" {
        b := Put(b, ls, "id", event.id);
        ls := ls + [FieldLine("id", event.id)];
      }
      if event.retry > 0 {
        b := Put(b, ls, "retry", Decimal(event.retry / MILLISECOND));
        ls := ls + [FieldLine("retry", Decimal(event.retry / MILLISECOND))];
      }
      assert ls == HeadLines(event);
    }

    static method PutData(b0: string, ghost head: seq<string>, lines: seq<string>) returns (b: string)
      requires b0 == Lines(head)
      ensures b == Lines(head + DataLines(lines))
    {
      b := b0;
      ghost var data := DataLines(lines);
      assert head + data[..0] == head;
      for i := 0 to |lines|
        invariant b == Lines(head + data[..i])
      {
        assert head + data[..i + 1] == (head + data[..i]) + [data[i]];
        b := Put(b, head + data[..i], "data", lines[i]);
      }
      assert data[..|lines|] == data;
    }

    method WriteEvent(event: Event)
      modifies this
      ensures out == old(out) + EventFrame(event)
    {
      var b := PutHead(event);
      b := PutData(b, HeadLines(event), SplitLines(event.data));
      LinesAppend(HeadLines(event) + DataLines(SplitLines(event.data)), "");
      assert b + "" == b;
      b := b + "\n";
      out := out + b;
    }

    method WriteComment(comment: string)
      modifies this
      ensures out == old(out) + CommentFrame(comment)
    {
      LinesAppend([], ": " + comment);
      LinesAppend([] + [": " + comment], "");
      assert [] + [": " + comment] + [""] == CommentLines(comment);
      assert CommentFrame(comment) == (": " + comment + "\n\n");
      out := out + (": " + comment + "\n\n");
    }
  }

  // ---- reading ----

  datatype Dispatch = Dispatch(name: string, data: string, lastId: string)

  /** The interpreter's buffers, the reconnection time, and the events dispatched so far. */
  datatype Core = Core(data: string, name: string, lastId: string, retry: Option<nat>, events: seq<Dispatch>)

  /** The line being read, and whether the last character was a CR that an LF may complete. */
  datatype Parser = Parser(line: string, afterCr: bool, core: Core)

  const FRESH := Core("", "", "", None, [])

  datatype Kind = EventField | DataField | IdField | RetryField | UnknownField

  function KindOf(name: string): Kind {
    if name == "event" then EventField
    else if name == "data" then DataField
    else if name == "id" then IdField
    else if name == "retry" then RetryField
    else UnknownField
  }

  function SetField(p: Core, kind: Kind, value: string): Core {
    match kind
    case EventField => p.(name := value)
    case DataField => p.(data := p.data + value + "\n")
    case IdField => if '\0' in value then p else p.(lastId := value)
    case RetryField => if AllDigits(value) then p.(retry := Some(ParseDecimal(value))) else p
    case UnknownField => p
  }

  function DispatchEvent(p: Core): Core {
    if p.data == "" then p.(name := "")
    else
      var n := |p.data| - 1;
      var data := if p.data[n] == '\n' then p.data[..n] else p.data;
      p.(data := "", name := "",
         events := p.events + [Dispatch(if p.name == "" then "message" else p.name, data, p.lastId)])
  }

  /** Index of the first colon, or the length. */
  function Colon(s: string): (i: nat)
    ensures i <= |s|
  {
    if s == "" then 0 else if s[0] == ':' then 0 else 1 + Colon(s[1..])
  }

  function StripSpace(s: string): string { if s != "" && s[0] == ' ' then s[1..] else s }

  function ProcessLine(p: Core, l: string): Core {
    if l == "" then DispatchEvent(p)
    else if l[0] == ':' then p
    else
      var i := Colon(l);
      if i < |l| then SetField(p, KindOf(l[..i]), StripSpace(l[i + 1..])) else SetField(p, KindOf(l), "")
  }

  /** One character: lines end at LF, CR or CRLF. */
  function Step(p: Parser, c: char): Parser {
    if c == '\n' then
      if p.afterCr then p.(afterCr := false) else Parser("", false, ProcessLine(p.core, p.line))
    else if c == '\r' then Parser("", true, ProcessLine(p.core, p.line))
    else p.(line := p.line + [c], afterCr := false)
  }

  function Feed(p: Parser, s: string): Parser {
    if s == "" then p else Step(Feed(p, s[..|s| - 1]), s[|s| - 1])
  }

  /** Interpreting a whole stream: one leading byte order mark is dropped. */
  function Decode(s: string): seq<Dispatch> {
    Feed(Parser("", false, FRESH), if s != "" && s[0] == '\U{FEFF}' then s[1..] else s).core.events
  }

  // ---- feeding lines ----

  lemma {:induction false} FeedConcat(p: Parser, a: string, b: string)
    ensures Feed(p, a + b) == Feed(Feed(p, a), b)
    decreases |b|
  {
    if b == "" {
      assert a + b == a;
    } else {
      var n := |b| - 1;
      assert (a + b)[..|a + b| - 1] == a + b[..n];
      FeedConcat(p, a, b[..n]);
    }
  }

  predicate OneLine(s: string) { '\n' !in s && '\r' !in s }

  lemma {:induction false} FeedText(p: Core, l: string)
    requires OneLine(l)
    ensures Feed(Parser("", false, p), l) == Parser(l, false, p)
    decreases |l|
  {
    if l == "" {
    } else {
      var n := |l| - 1;
      FeedText(p, l[..n]);
      assert l == l[..n] + [l[n]];
    }
  }

  lemma FeedLine(p: Core, l: string)
    requires OneLine(l)
    ensures Feed(Parser("", false, p), l + "\n") == Parser("", false, ProcessLine(p, l))
  {
    FeedText(p, l);
    assert (l + "\n")[..|l|] == l;
  }

  function ReadLines(p: Core, ls: seq<string>): Core {
    if ls == [] then p else ProcessLine(ReadLines(p, ls[..|ls| - 1]), ls[|ls| - 1])
  }

  lemma {:induction false} ReadConcat(p: Core, a: seq<string>, b: seq<string>)
    ensures ReadLines(p, a + b) == ReadLines(ReadLines(p, a), b)
    decreases |b|
  {
    if b == [] {
      assert a + b == a;
    } else {
      var n := |b| - 1;
      assert (a + b)[..|a + b| - 1] == a + b[..n];
      ReadConcat(p, a, b[..n]);
    }
  }

  lemma ReadOne(p: Core, l: string)
    ensures ReadLines(p, [l]) == ProcessLine(p, l)
  {
    assert [l][..0] == [];
  }

  /** Characters in, lines processed. */
  lemma {:induction false} FeedLines(p: Core, ls: seq<string>)
    requires forall i :: 0 <= i < |ls| ==> OneLine(ls[i])
    ensures Feed(Parser("", false, p), Lines(ls)) == Parser("", false, ReadLines(p, ls))
    decreases |ls|
  {
    if ls == [] {
    } else {
      var n := |ls| - 1;
      FeedLines(p, ls[..n]);
      assert Lines(ls) == Lines(ls[..n]) + (ls[n] + "\n");
      FeedOneMore(p, Lines(ls[..n]), ReadLines(p, ls[..n]), ls[n]);
    }
  }

  lemma FeedOneMore(p: Core, s: string, q: Core, l: string)
    requires Feed(Parser("", false, p), s) == Parser("", false, q) && OneLine(l)
    ensures Feed(Parser("", false, p), s + (l + "\n")) == Parser("", false, ProcessLine(q, l))
  {
    FeedConcat(Parser("", false, p), s, l + "\n");
    FeedLine(q, l);
  }

  lemma {:induction false} ColonAfter(name: string, rest: string)
    requires ':' !in name
    ensures Colon(name + ":" + rest) == |name|
    decreases |name|
  {
    var s := name + ":" + rest;
    if name == "" {
    } else {
      assert s[1..] == name[1..] + ":" + rest;
      ColonAfter(name[1..], rest);
    }
  }

  /** A line "name: value" sets that field. */
  lemma ProcessField(p: Core, name: string, value: string)
    requires name != "" && ':' !in name
    ensures ProcessLine(p, FieldLine(name, value)) == SetField(p, KindOf(name), value)
  {
    var l := FieldLine(name, value);
    var tail := " " + value;
    assert l == name + ":" + tail;
    ColonAfter(name, tail);
    assert l[..|name|] == name && l[|name| + 1..] == tail;
    assert tail[1..] == value;
  }

  lemma Kinds()
    ensures KindOf("event") == EventField && KindOf("data") == DataField
    ensures KindOf("id") == IdField && KindOf("retry") == RetryField
    ensures forall n :: n in {"event", "data", "id", "retry"} ==> n != "" && ':' !in n && OneLine(n)
  {
    assert "retry"[0] == 'r' && "event"[0] == 'e';
  }

  lemma ProcessData(p: Core, value: string)
    ensures ProcessLine(p, FieldLine("data", value)) == p.(data := p.data + value + "\n")
  {
    Kinds();
    ProcessField(p, "data", value);
  }

  // ---- numbers and lines ----

  lemma LinesExtendLast(ls: seq<string>, c: char, s: string)
    requires ls != [] && Lines(ls) == s + "\n"
    ensures var m := |ls| - 1; Lines(ls[..m] + [ls[m] + [c]]) == s + [c] + "\n"
  {
    var m := |ls| - 1;
    var before := Lines(ls[..m]) + ls[m];
    assert before + "\n" == s + "\n";
    assert (before + "\n")[..|before|] == before && (s + "\n")[..|s|] == s;
    LinesAppend(ls[..m], ls[m] + [c]);
    assert Lines(ls[..m]) + (ls[m] + [c]) == before + [c];
  }

  lemma {:induction false} SplitJoins(s: string)
    ensures Lines(SplitLines(s)) == s + "\n"
    decreases |s|
  {
    if s == "" {
      LinesAppend([], "");
      assert [] + [""] == [""];
    } else {
      var n := |s| - 1;
      SplitJoins(s[..n]);
      assert s == s[..n] + [s[n]];
      if s[n] == '\n' {
        LinesAppend(SplitLines(s[..n]), "");
      } else {
        LinesExtendLast(SplitLines(s[..n]), s[n], s[..n]);
      }
    }
  }

  lemma {:induction false} SplitOneLine(s: string)
    requires '\r' !in s
    ensures forall i :: 0 <= i < |SplitLines(s)| ==> OneLine(SplitLines(s)[i])
    decreases |s|
  {
    if s == "" {
    } else {
      SplitOneLine(s[..|s| - 1]);
    }
  }

  lemma AppendText(a: string, b: string, c: string, d: string)
    ensures a + b + c + d == a + (b + c + d)
  {}

  lemma {:induction false} ReadData(p: Core, ls: seq<string>)
    ensures ReadLines(p, DataLines(ls)) == p.(data := p.data + Lines(ls))
    decreases |ls|
  {
    if ls == [] {
      assert p.data + "" == p.data;
    } else {
      var n := |ls| - 1;
      assert DataLines(ls)[..n] == DataLines(ls[..n]);
      ReadData(p, ls[..n]);
      var q := p.(data := p.data + Lines(ls[..n]));
      ProcessData(q, ls[n]);
      AppendText(p.data, Lines(ls[..n]), ls[n], "\n");
    }
  }

  // ---- frames ----

  predicate Clean(e: Event) {
    '\r' !in e.data && OneLine(e.name) && OneLine(e.id) && '\0' !in e.id
  }

  /** Between frames: nothing buffered but the last event id and the reconnection time. */
  predicate Resting(p: Core) { p.data == "" && p.name == "" }

  function IdAfter(p: Core, e: Event): string { if e.id != "" then e.id else p.lastId }

  function Delivered(e: Event, lastId: string): Dispatch {
    Dispatch(if e.name == "" then "message" else e.name, e.data, lastId)
  }

  function AfterHead(p: Core, e: Event): Core {
    p.(name := e.name, lastId := IdAfter(p, e),
       retry := if e.retry > 0 then Some(e.retry / MILLISECOND) else p.retry)
  }

  lemma ReadOptional(p: Core, present: bool, name: string, value: string)
    requires name != "" && ':' !in name
    ensures ReadLines(p, if present then [FieldLine(name, value)] else []) ==
              if present then SetField(p, KindOf(name), value) else p
  {
    ReadOne(p, FieldLine(name, value));
    ProcessField(p, name, value);
  }

  lemma ReadHead(p: Core, e: Event)
    requires p.name == "" && Clean(e)
    ensures ReadLines(p, HeadLines(e)) == AfterHead(p, e)
  {
    Kinds();
    var n := if e.retry > 0 then e.retry / MILLISECOND else 0;
    DecimalParses(n);
    var a := if e.name != "" then [FieldLine("event", e.name)] else [];
    var b := if e.id != "" then [FieldLine("id", e.id)] else [];
    var c := if e.retry > 0 then [FieldLine("retry", Decimal(n))] else [];
    ReadOptional(p, e.name != "", "event", e.name);
    var p1 := ReadLines(p, a);
    ReadOptional(p1, e.id != "", "id", e.id);
    var p2 := ReadLines(p1, b);
    ReadOptional(p2, e.retry > 0, "retry", Decimal(n));
    ReadConcat(p, a, b);
    ReadConcat(p, a + b, c);
  }

  /** A clean event's lines dispatch exactly that event and leave the interpreter between frames. */
  lemma ReadEvent(p: Core, e: Event)
    requires Resting(p) && Clean(e)
    ensures ReadLines(p, FrameLines(e)) ==
              AfterHead(p, e).(name := "", events := p.events + [Delivered(e, IdAfter(p, e))])
  {
    var data := DataLines(SplitLines(e.data));
    ReadHead(p, e);
    var q := AfterHead(p, e);
    ReadData(q, SplitLines(e.data));
    SplitJoins(e.data);
    var r := q.(data := e.data + "\n");
    assert q.data + (e.data + "\n") == e.data + "\n";
    ReadConcat(p, HeadLines(e), data);
    ReadConcat(p, HeadLines(e) + data, [""]);
    ReadOne(r, "");
    assert r.data[..|r.data| - 1] == e.data;
  }

  lemma DigitsOneLine(s: string)
    requires AllDigits(s)
    ensures OneLine(s)
  {}

  lemma FieldOneLine(name: string, value: string)
    requires OneLine(name) && OneLine(value)
    ensures OneLine(FieldLine(name, value))
  {}

  lemma HeadOneLine(e: Event, i: nat)
    requires Clean(e) && i < |HeadLines(e)|
    ensures OneLine(HeadLines(e)[i])
  {
    Kinds();
    FieldOneLine("event", e.name);
    FieldOneLine("id", e.id);
    if e.retry > 0 {
      var d := Decimal(e.retry / MILLISECOND);
      DecimalParses(e.retry / MILLISECOND);
      DigitsOneLine(d);
      FieldOneLine("retry", d);
    }
  }

  lemma FrameOneLine(e: Event, i: nat)
    requires Clean(e) && i < |FrameLines(e)|
    ensures OneLine(FrameLines(e)[i])
  {
    var h, ls := |HeadLines(e)|, SplitLines(e.data);
    if i < h {
      HeadOneLine(e, i);
    } else if i < h + |ls| {
      SplitOneLine(e.data);
      Kinds();
      FieldOneLine("data", ls[i - h]);
      assert FrameLines(e)[i] == DataLines(ls)[i - h];
    }
  }

  lemma FeedEvent(p: Core, e: Event)
    requires Resting(p) && Clean(e)
    ensures Feed(Parser("", false, p), EventFrame(e)) ==
              Parser("", false, AfterHead(p, e).(name := "", events := p.events + [Delivered(e, IdAfter(p, e))]))
  {
    forall i | 0 <= i < |FrameLines(e)| ensures OneLine(FrameLines(e)[i]) { FrameOneLine(e, i); }
    FeedLines(p, FrameLines(e));
    ReadEvent(p, e);
  }

  /** A one-line comment changes nothing. */
  lemma FeedComment(p: Core, comment: string)
    requires Resting(p) && OneLine(comment)
    ensures Feed(Parser("", false, p), CommentFrame(comment)) == Parser("", false, p)
  {
    var ls := CommentLines(comment);
    assert OneLine(ls[0]) && OneLine(ls[1]);
    FeedLines(p, ls);
    assert ls[..1] == [": " + comment] && ls[1] == "";
    ReadOne(p, ": " + comment);
  }

  // ---- streams ----

  /** An event, or a comment such as the keepalive the heartbeat writes on every tick. */
  datatype Frame = EventItem(event: Event) | CommentItem(comment: string)

  function Text(f: Frame): string {
    match f
    case EventItem(e) => EventFrame(e)
    case CommentItem(c) => CommentFrame(c)
  }

  function Output(fs: seq<Frame>): string {
    if fs == [] then "" else Output(fs[..|fs| - 1]) + Text(fs[|fs| - 1])
  }

  predicate CleanFrame(f: Frame) { if f.EventItem? then Clean(f.event) else OneLine(f.comment) }

  /** The last event id a client remembers after these frames. */
  function LastId(fs: seq<Frame>): string {
    if fs == [] then ""
    else
      var f := fs[|fs| - 1];
      if f.EventItem? && f.event.id != "" then f.event.id else LastId(fs[..|fs| - 1])
  }

  /** The reconnection time a client is left with, in milliseconds: the last one given, rounded down. */
  function LastRetry(fs: seq<Frame>): Option<nat> {
    if fs == [] then None
    else
      var f := fs[|fs| - 1];
      if f.EventItem? && f.event.retry > 0 then Some(f.event.retry / 1_000_000) else LastRetry(fs[..|fs| - 1])
  }

  /** The events of the frames, each with the last id in force. */
  function Expected(fs: seq<Frame>): seq<Dispatch> {
    if fs == [] then []
    else
      var f := fs[|fs| - 1];
      Expected(fs[..|fs| - 1]) + (if f.EventItem? then [Delivered(f.event, LastId(fs))] else [])
  }

  lemma {:induction false} FeedOutput(fs: seq<Frame>)
    requires forall i :: 0 <= i < |fs| ==> CleanFrame(fs[i])
    ensures var p := Feed(Parser("", false, FRESH), Output(fs));
            && p == Parser("", false, p.core) && Resting(p.core)
            && p.core.lastId == LastId(fs) && p.core.events == Expected(fs) && p.core.retry == LastRetry(fs)
    decreases |fs|
  {
    if fs == [] {
    } else {
      var n := |fs| - 1;
      FeedOutput(fs[..n]);
      var p := Feed(Parser("", false, FRESH), Output(fs[..n]));
      FeedConcat(Parser("", false, FRESH), Output(fs[..n]), Text(fs[n]));
      assert CleanFrame(fs[n]);
      match fs[n]
      case EventItem(e) => FeedEvent(p.core, e);
      case CommentItem(c) => FeedComment(p.core, c);
    }
  }

  lemma LinesFirst(l: string, ls: seq<string>)
    requires l != ""
    ensures Lines([l] + ls) != "" && Lines([l] + ls)[0] == l[0]
  {
    LinesConcat([l], ls);
    LinesAppend([], l);
    assert [] + [l] == [l];
  }

  lemma FieldFirst(name: string, value: string)
    requires name != ""
    ensures FieldLine(name, value) != "" && FieldLine(name, value)[0] == name[0]
  {}

  /** A frame begins with a field name. */
  lemma EventFirst(e: Event)
    ensures var l := FrameLines(e)[0]; l != "" && l[0] in {'e', 'i', 'r', 'd'}
  {
    var l := FrameLines(e)[0];
    if e.name != "" {
      FieldFirst("event", e.name);
      assert l == FieldLine("event", e.name);
    } else if e.id != "" {
      FieldFirst("id", e.id);
      assert l == FieldLine("id", e.id);
    } else if e.retry > 0 {
      FieldFirst("retry", Decimal(e.retry / MILLISECOND));
      assert l == FieldLine("retry", Decimal(e.retry / MILLISECOND));
    } else {
      FieldFirst("data", SplitLines(e.data)[0]);
      assert l == FieldLine("data", SplitLines(e.data)[0]);
    }
  }

  lemma FrameFirst(f: Frame)
    ensures Text(f) != "" && Text(f)[0] != '\U{FEFF}'
  {
    var ls := if f.EventItem? then FrameLines(f.event) else CommentLines(f.comment);
    if f.EventItem? {
      EventFirst(f.event);
    }
    assert ls == [ls[0]] + ls[1..];
    LinesFirst(ls[0], ls[1..]);
  }

  lemma {:induction false} NoByteOrderMark(fs: seq<Frame>)
    ensures Output(fs) == "" || Output(fs)[0] != '\U{FEFF}'
    decreases |fs|
  {
    if fs == [] {
    } else {
      NoByteOrderMark(fs[..|fs| - 1]);
      FrameFirst(fs[|fs| - 1]);
    }
  }

  /** Round trip: whatever the interleaving of events and heartbeats, a client receives exactly the
      written events, in order, with the same data. */
  lemma StreamRoundTrip(fs: seq<Frame>)
    requires forall i :: 0 <= i < |fs| ==> CleanFrame(fs[i])
    ensures Decode(Output(fs)) == Expected(fs)
  {
    FeedOutput(fs);
    NoByteOrderMark(fs);
  }

  lemma SetFieldKeepsEvents(p: Core, kind: Kind, value: string)
    ensures SetField(p, kind, value).events == p.events
  {}

  /** The reconnection time an interpreter ends with. */
  function ReconnectionTime(s: string): Option<nat> { Feed(Parser("", false, FRESH), s).core.retry }

  /** A client waits, before reconnecting, the whole milliseconds of the last positive duration written. */
  lemma RetryRoundTrip(fs: seq<Frame>)
    requires forall i :: 0 <= i < |fs| ==> CleanFrame(fs[i])
    ensures ReconnectionTime(Output(fs)) == LastRetry(fs)
  {
    FeedOutput(fs);
  }

  lemma LineEventsGrow(p: Core, l: string)
    ensures p.events <= ProcessLine(p, l).events
  {
    if l != "" && l[0] != ':' {
      var i := Colon(l);
      if i < |l| {
        SetFieldKeepsEvents(p, KindOf(l[..i]), StripSpace(l[i + 1..]));
      } else {
        SetFieldKeepsEvents(p, KindOf(l), "");
      }
    }
  }

  lemma {:induction false} EventsGrow(p: Parser, s: string)
    ensures p.core.events <= Feed(p, s).core.events
    decreases |s|
  {
    if s == "" {
    } else {
      EventsGrow(p, s[..|s| - 1]);
      var q := Feed(p, s[..|s| - 1]);
      LineEventsGrow(q.core, q.line);
    }
  }

  /** A stream cut off anywhere yields a prefix of its events, never part of one. */
  lemma TruncatedStream(fs: seq<Frame>, n: nat)
    requires (forall i :: 0 <= i < |fs| ==> CleanFrame(fs[i])) && n <= |Output(fs)|
    ensures Decode(Output(fs)[..n]) <= Expected(fs)
  {
    var s, p := Output(fs), Parser("", false, FRESH);
    assert s == s[..n] + s[n..];
    FeedConcat(p, s[..n], s[n..]);
    EventsGrow(Feed(p, s[..n]), s[n..]);
    StreamRoundTrip(fs);
    NoByteOrderMark(fs);
  }

  // ---- the condition is exact ----

  predicate CleanDispatch(d: Dispatch) {
    '\r' !in d.data && OneLine(d.name) && OneLine(d.lastId) && '\0' !in d.lastId
  }

  predicate CleanCore(p: Core) {
    && '\r' !in p.data && OneLine(p.name) && OneLine(p.lastId) && '\0' !in p.lastId
    && (forall i :: 0 <= i < |p.events| ==> CleanDispatch(p.events[i]))
  }

  lemma FieldStaysClean(p: Core, kind: Kind, value: string)
    requires CleanCore(p) && OneLine(value)
    ensures CleanCore(SetField(p, kind, value))
  {}

  lemma StrippedOneLine(l: string, i: nat)
    requires OneLine(l) && i <= |l|
    ensures OneLine(StripSpace(l[i..]))
  {}

  lemma DispatchStaysClean(p: Core)
    requires CleanCore(p)
    ensures CleanCore(ProcessLine(p, ""))
  {}

  lemma LineStaysClean(p: Core, l: string)
    requires CleanCore(p) && OneLine(l)
    ensures CleanCore(ProcessLine(p, l))
  {
    if l != "" && l[0] != ':' {
      var i := Colon(l);
      if i < |l| {
        StrippedOneLine(l, i + 1);
        FieldStaysClean(p, KindOf(l[..i]), StripSpace(l[i + 1..]));
      } else {
        FieldStaysClean(p, KindOf(l), "");
      }
    } else if l == "" {
      DispatchStaysClean(p);
    }
  }

  lemma {:induction false} ParserStaysClean(p: Core, s: string)
    requires CleanCore(p)
    ensures var q := Feed(Parser("", false, p), s); CleanCore(q.core) && OneLine(q.line)
    decreases |s|
  {
    if s == "" {
    } else {
      ParserStaysClean(p, s[..|s| - 1]);
      var q := Feed(Parser("", false, p), s[..|s| - 1]);
      LineStaysClean(q.core, q.line);
    }
  }

  /** Whatever bytes a client is sent, it dispatches only clean events. */
  lemma DecodedIsClean(s: string, i: nat)
    requires i < |Decode(s)|
    ensures CleanDispatch(Decode(s)[i])
  {
    ParserStaysClean(FRESH, if s != "" && s[0] == '\U{FEFF}' then s[1..] else s);
  }

  /** An event survives its frame if and only if its data has no CR, its name no CR or LF, and its id
      no CR, LF or NUL: a client can never receive anything else. */
  lemma RoundTripIff(e: Event)
    ensures Decode(EventFrame(e)) == [Delivered(e, e.id)] <==> Clean(e)
  {
    FrameFirst(EventItem(e));
    assert Text(EventItem(e)) == EventFrame(e);
    if Clean(e) {
      FeedEvent(FRESH, e);
    }
    if |Decode(EventFrame(e))| == 1 {
      DecodedIsClean(EventFrame(e), 0);
      assert CleanDispatch(Delivered(e, e.id)) ==> Clean(e);
    }
  }
}
