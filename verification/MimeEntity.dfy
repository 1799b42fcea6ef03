/**
 MIME entities as lines: header fields, a blank line, and a body that is text, base64 data or nested
 parts. The decoder follows section 5.1.1 of RFC 2046 (multipart bodies) and sections 5, 6.1 and 6.8
 of RFC 2045 (fields, transfer encoding, base64).
 */
module MimeEntity {
  import opened Collections
  import opened GoStrings
  import opened Base64

  const CRLF: string := ['\r', '\n']

  // ---- lines ----

  function SplitCRLF(s: string): (r: seq<string>)
    ensures r != []
  {
    if s == "" then [""]
    else if |s| >= 2 && s[0] == '\r' && s[1] == '\n' then [""] + SplitCRLF(s[2..])
    else
      var rest := SplitCRLF(s[1..]);
      [[s[0]] + rest[0]] + rest[1..]
  }

  function JoinCRLF(ls: seq<string>): string {
    if ls == [] then "" else if |ls| == 1 then ls[0] else ls[0] + CRLF + JoinCRLF(ls[1..])
  }

  /** Lines, each followed by a line break. */
  function Ended(ls: seq<string>): string { if ls == [] then "" else ls[0] + CRLF + Ended(ls[1..]) }

  lemma SplitCons(c: char, s: string)
    requires !(c == '\r' && s != "" && s[0] == '\n')
    ensures SplitCRLF([c] + s) == [[c] + SplitCRLF(s)[0]] + SplitCRLF(s)[1..]
  {
    assert ([c] + s)[1..] == s;
  }

  lemma LongerHead(c: char, x: seq<string>, y: seq<string>)
    requires x != []
    ensures [[c] + (x + y)[0]] + (x + y)[1..] == [[c] + x[0]] + x[1..] + y
  {}

  lemma BreakAfterChar(c: char, a: string, t: string, after: seq<string>)
    requires !(c == '\r' && a != "" && a[0] == '\n') && t != "" && t[0] == '\r'
    requires SplitCRLF(a + t) == SplitCRLF(a) + after
    ensures SplitCRLF([c] + (a + t)) == SplitCRLF([c] + a) + after
  {
    SplitCons(c, a);
    SplitCons(c, a + t);
    LongerHead(c, SplitCRLF(a), after);
  }

  lemma SplitBreak(s: string)
    ensures SplitCRLF(CRLF + s) == [""] + SplitCRLF(s)
  {
    assert (CRLF + s)[2..] == s;
  }

  lemma BreakAfterBreak(a: string, t: string, after: seq<string>)
    requires SplitCRLF(a + t) == SplitCRLF(a) + after
    ensures SplitCRLF(CRLF + (a + t)) == SplitCRLF(CRLF + a) + after
  {
    SplitBreak(a);
    SplitBreak(a + t);
  }

  lemma Regroup(x: string, y: string, z: string)
    ensures (x + y) + z == x + (y + z)
  {}

  /** A text that begins with a line break adds the lines after it. */
  lemma {:induction false} SplitBeforeBreak(a: string, t: string, after: seq<string>)
    requires t != "" && t[0] == '\r' && SplitCRLF(t) == [""] + after
    ensures SplitCRLF(a + t) == SplitCRLF(a) + after
    decreases |a|
  {
    if a == "" {
      assert a + t == t;
    } else {
      var n := if |a| >= 2 && a[0] == '\r' && a[1] == '\n' then 2 else 1;
      var head, rest := a[..n], a[n..];
      SplitBeforeBreak(rest, t, after);
      if n == 2 {
        BreakAfterBreak(rest, t, after);
        assert head == CRLF;
      } else {
        BreakAfterChar(a[0], rest, t, after);
        assert head == [a[0]];
      }
      assert a == head + rest;
      Regroup(head, rest, t);
    }
  }

  /** A line break splits a text into the lines before and the lines after. */
  lemma SplitAtBreak(a: string, b: string)
    ensures SplitCRLF(a + CRLF + b) == SplitCRLF(a) + SplitCRLF(b)
  {
    SplitBreak(b);
    SplitBeforeBreak(a, CRLF + b, SplitCRLF(b));
    assert a + CRLF + b == a + (CRLF + b);
  }

  lemma {:induction false} JoinSplit(s: string)
    ensures JoinCRLF(SplitCRLF(s)) == s
    decreases |s|
  {
    if s == "" {
    } else if |s| >= 2 && s[0] == '\r' && s[1] == '\n' {
      JoinSplit(s[2..]);
      JoinFirst("", SplitCRLF(s[2..]));
      assert s == "" + CRLF + s[2..];
    } else {
      JoinSplit(s[1..]);
      JoinHead(s[0], SplitCRLF(s[1..]));
      assert s == [s[0]] + s[1..];
    }
  }

  lemma JoinFirst(l: string, ls: seq<string>)
    requires ls != []
    ensures JoinCRLF([l] + ls) == l + CRLF + JoinCRLF(ls)
  {
    assert ([l] + ls)[1..] == ls;
  }

  lemma JoinHead(c: char, ls: seq<string>)
    requires ls != []
    ensures JoinCRLF([[c] + ls[0]] + ls[1..]) == [c] + JoinCRLF(ls)
  {
    assert ([[c] + ls[0]] + ls[1..])[1..] == ls[1..];
  }

  /** The line cannot be split further. */
  predicate Single(l: string) { SplitCRLF(l) == [l] }

  /** Holds no line break. */
  predicate Unbroken(s: string) { forall i, j :: 0 <= i && j == i + 1 < |s| ==> !(s[i] == '\r' && s[j] == '\n') }

  lemma {:induction false} UnbrokenIsSingle(l: string)
    requires Unbroken(l)
    ensures Single(l)
    decreases |l|
  {
    if l == "" {
    } else {
      UnbrokenIsSingle(l[1..]);
      SingleAfter(l[0], l[1..]);
      assert l == [l[0]] + l[1..];
    }
  }

  lemma {:induction false} SingleIsUnbroken(l: string)
    requires Single(l)
    ensures Unbroken(l)
    decreases |l|
  {
    if l == "" {
    } else {
      var rest := SplitCRLF(l[1..]);
      assert !(|l| >= 2 && l[0] == '\r' && l[1] == '\n') by {
        assert |SplitCRLF(l)| == 1;
      }
      assert SplitCRLF(l) == [[l[0]] + rest[0]] + rest[1..];
      assert |rest| == 1;
      assert SplitCRLF(l)[0] == l && SplitCRLF(l)[0] == [l[0]] + rest[0];
      assert rest[0] == ([l[0]] + rest[0])[1..];
      assert rest == [l[1..]];
      SingleIsUnbroken(l[1..]);
    }
  }

  /** Holds no carriage return at all. */
  predicate NoReturn(s: string) { forall i :: 0 <= i < |s| ==> s[i] != '\r' }

  lemma NoReturnIsSingle(l: string)
    requires NoReturn(l)
    ensures Unbroken(l) && Single(l)
  {
    UnbrokenIsSingle(l);
  }

  lemma {:induction false} SplitIsSingle(s: string)
    ensures forall l <- SplitCRLF(s) :: Single(l)
    decreases |s|
  {
    if s == "" {
    } else if |s| >= 2 && s[0] == '\r' && s[1] == '\n' {
      SplitIsSingle(s[2..]);
    } else {
      SplitIsSingle(s[1..]);
      var rest := SplitCRLF(s[1..]);
      HeadIsPrefix(s[1..]);
      assert rest[0] in rest;
      SingleAfter(s[0], rest[0]);
    }
  }

  lemma SingleAfter(c: char, l: string)
    requires Single(l) && !(l != "" && c == '\r' && l[0] == '\n')
    ensures Single([c] + l)
  {
    assert ([c] + l)[1..] == l;
  }

  lemma {:induction false} HeadIsPrefix(s: string)
    ensures SplitCRLF(s)[0] <= s
    decreases |s|
  {
    if s == "" || (|s| >= 2 && s[0] == '\r' && s[1] == '\n') {
    } else {
      HeadIsPrefix(s[1..]);
    }
  }

  lemma {:induction false} SplitJoin(ls: seq<string>)
    requires ls != [] && forall l <- ls :: Single(l)
    ensures SplitCRLF(JoinCRLF(ls)) == ls
    decreases |ls|
  {
    var first := ls[0];
    assert SplitCRLF(first) == [first] by { assert Single(first); }
    if |ls| == 1 {
      assert ls == [first];
    } else {
      var rest := ls[1..];
      SplitJoin(rest);
      SplitAtBreak(first, JoinCRLF(rest));
      assert ls == [first] + rest;
    }
  }

  lemma EndedLine(l: string, rest: seq<string>, text: string, last: seq<string>)
    requires Ended(rest) + text == JoinCRLF(rest + last) && last != []
    ensures Ended([l] + rest) + text == JoinCRLF([l] + (rest + last))
  {
    assert ([l] + rest)[1..] == rest;
    JoinFirst(l, rest + last);
    Regroup(l + CRLF, Ended(rest), text);
  }

  /** Ended lines followed by a text read as those lines and the lines of the text. */
  lemma {:induction false} EndedThenText(ls: seq<string>, text: string)
    ensures Ended(ls) + text == JoinCRLF(ls + SplitCRLF(text))
    decreases |ls|
  {
    var last := SplitCRLF(text);
    if ls == [] {
      JoinSplit(text);
      assert ls + last == last;
    } else {
      var rest := ls[1..];
      EndedThenText(rest, text);
      EndedLine(ls[0], rest, text, last);
      assert [ls[0]] + rest == ls;
      assert [ls[0]] + (rest + last) == ls + last;
    }
  }

  lemma {:induction false} EndedConcat(a: seq<string>, b: seq<string>)
    ensures Ended(a + b) == Ended(a) + Ended(b)
    decreases |a|
  {
    if a == [] {
      assert a + b == b;
    } else {
      EndedConcat(a[1..], b);
      assert (a + b)[1..] == a[1..] + b;
    }
  }

  /** A whole text followed by a line break is its lines, each ended. */
  lemma {:induction false} EndedSplit(s: string)
    ensures Ended(SplitCRLF(s)) == s + CRLF
  {
    var ls := SplitCRLF(s);
    EndedThenText(ls, "");
    assert Ended(ls) + "" == Ended(ls);
    JoinAppend(ls, "");
    JoinSplit(s);
  }

  lemma {:induction false} JoinAppend(ls: seq<string>, l: string)
    requires ls != []
    ensures JoinCRLF(ls + [l]) == JoinCRLF(ls) + CRLF + l
    decreases |ls|
  {
    assert (ls + [l])[1..] == ls[1..] + [l];
    if |ls| == 1 {
      assert ls[1..] + [l] == [l];
    } else {
      JoinAppend(ls[1..], l);
    }
  }

  // ---- header fields ----

  datatype Field = Field(name: string, value: string)

  function FieldLine(f: Field): string { f.name + ": " + f.value }

  function FieldLines(fs: seq<Field>): (ls: seq<string>)
    ensures |ls| == |fs| && forall i :: 0 <= i < |fs| ==> ls[i] == FieldLine(fs[i])
  {
    seq(|fs|, i requires 0 <= i < |fs| => FieldLine(fs[i]))
  }

  /** The text before the first c, and the text after it. */
  function Before(s: string, c: char): string { if s == "" || s[0] == c then "" else [s[0]] + Before(s[1..], c) }

  function After(s: string, c: char): string { if s == "" then "" else if s[0] == c then s[1..] else After(s[1..], c) }

  function ParseField(l: string): Field { Field(Before(l, ':'), TrimLeft(After(l, ':'))) }

  function ParseFields(ls: seq<string>): (fs: seq<Field>)
    ensures |fs| == |ls|
  {
    seq(|ls|, i requires 0 <= i < |ls| => ParseField(ls[i]))
  }

  lemma {:induction false} BeforeAfter(a: string, c: char, b: string)
    requires c !in a
    ensures Before(a + [c] + b, c) == a && After(a + [c] + b, c) == b
    decreases |a|
  {
    var s := a + [c] + b;
    if a == "" {
      assert s[1..] == b;
    } else {
      assert a[0] in a;
      assert s[0] == a[0] && s[1..] == a[1..] + [c] + b;
      BeforeAfter(a[1..], c, b);
    }
  }

  predicate NoLeadingSpace(s: string) { s == "" || !IsSpace(s[0]) }

  predicate NameOk(name: string) { name != "" && ':' !in name && NoReturn(name) }

  /** A field a header can carry: a name, and a value on one line without leading space. */
  predicate FieldOk(f: Field) {
    NameOk(f.name) && NoLeadingSpace(f.value) && Unbroken(f.value)
  }

  lemma ParseFieldLine(f: Field)
    requires FieldOk(f)
    ensures ParseField(FieldLine(f)) == f
  {
    BeforeAfter(f.name, ':', " " + f.value);
    assert FieldLine(f) == f.name + [':'] + (" " + f.value);
    assert (" " + f.value)[1..] == f.value;
    assert TrimLeft(" " + f.value) == TrimLeft(f.value);
  }

  lemma ParseFieldLines(fs: seq<Field>)
    requires forall f <- fs :: FieldOk(f)
    ensures ParseFields(FieldLines(fs)) == fs
  {
    forall i | 0 <= i < |fs|
      ensures ParseFields(FieldLines(fs))[i] == fs[i]
    {
      ParseFieldLine(fs[i]);
    }
  }

  function LowerChar(c: char): char { if 'A' <= c <= 'Z' then (c as int + 32) as char else c }

  function Lower(s: string): (r: string)
    ensures |r| == |s|
  {
    seq(|s|, i requires 0 <= i < |s| => LowerChar(s[i]))
  }

  /** The value of the first field of that name, whatever its case, or the default of the standard. */
  function Lookup(fs: seq<Field>, name: string, default: string): string {
    if fs == [] then default
    else if Lower(fs[0].name) == name then fs[0].value
    else Lookup(fs[1..], name, default)
  }

  /** How a body is to be read. */
  datatype Kind = TextKind | Base64Kind | MultiKind(boundary: string)

  const MULTIPART := "multipart/"

  predicate IsMultipart(ct: string) { |ct| >= |MULTIPART| && Lower(ct[..|MULTIPART|]) == MULTIPART }

  /** The boundary parameter: the content types read here carry at most one parameter. */
  function BoundaryOf(ct: string): Option<string> {
    var parameter := After(ct, ';');
    var value := After(parameter, '=');
    if Lower(TrimLeft(Before(parameter, '='))) != "boundary" || value == "" then None
    else if value[0] == '"' then Some(Before(value[1..], '"'))
    else Some(value)
  }

  function KindFrom(contentType: string, transferEncoding: string): Option<Kind> {
    if IsMultipart(contentType) then
      (match BoundaryOf(contentType) case None => None case Some(b) => Some(MultiKind(b)))
    else if Lower(transferEncoding) == "base64" then Some(Base64Kind)
    else Some(TextKind)
  }

  function KindOf(fs: seq<Field>): Option<Kind> {
    KindFrom(Lookup(fs, "content-type", "text/plain"), Lookup(fs, "content-transfer-encoding", "7bit"))
  }

  // ---- multipart bodies ----

  /** A boundary need only begin the line. */
  predicate Delimits(l: string, b: string) { "--" + b <= l }

  predicate Closes(l: string, b: string) { "--" + b + "--" <= l }

  predicate Undelimited(ls: seq<string>, b: string) { forall l <- ls :: !Delimits(l, b) }

  /** The parts of a multipart body: what stands between delimiter lines, up to the closing one. */
  function Collect(ls: seq<string>, b: string, part: seq<string>): Option<seq<seq<string>>> {
    if ls == [] then None
    else if Closes(ls[0], b) then Some([part])
    else if Delimits(ls[0], b) then
      (match Collect(ls[1..], b, []) case None => None case Some(ps) => Some([part] + ps))
    else Collect(ls[1..], b, part + [ls[0]])
  }

  /** The preamble is skipped, and the epilogue is never looked at. */
  function PartsOf(ls: seq<string>, b: string): Option<seq<seq<string>>> {
    if ls == [] || Closes(ls[0], b) then None
    else if Delimits(ls[0], b) then Collect(ls[1..], b, [])
    else PartsOf(ls[1..], b)
  }

  function Framed(parts: seq<seq<string>>, b: string): seq<string> {
    if parts == [] then ["--" + b + "--"] else ["--" + b] + parts[0] + Framed(parts[1..], b)
  }

  lemma {:induction false} CollectPart(ls: seq<string>, rest: seq<string>, b: string, part: seq<string>)
    requires Undelimited(ls, b)
    ensures Collect(ls + rest, b, part) == Collect(rest, b, part + ls)
    decreases |ls|
  {
    if ls == [] {
      assert ls + rest == rest && part + ls == part;
    } else {
      assert !Delimits(ls[0], b);
      assert !Closes(ls[0], b);
      assert (ls + rest)[1..] == ls[1..] + rest;
      CollectPart(ls[1..], rest, b, part + [ls[0]]);
      assert part + [ls[0]] + ls[1..] == part + ls;
    }
  }

  lemma {:induction false} CollectFramed(parts: seq<seq<string>>, tail: seq<string>, b: string, part: seq<string>)
    requires forall p <- parts :: Undelimited(p, b)
    ensures Collect(Framed(parts, b) + tail, b, part) == Some([part] + parts)
    decreases |parts|
  {
    var ls := Framed(parts, b) + tail;
    if parts == [] {
      assert ls[0] == "--" + b + "--";
      assert [part] + parts == [part];
    } else {
      assert ls[0] == "--" + b && ls[1..] == parts[0] + (Framed(parts[1..], b) + tail);
      CollectPart(parts[0], Framed(parts[1..], b) + tail, b, []);
      CollectFramed(parts[1..], tail, b, [] + parts[0]);
      assert [] + parts[0] == parts[0];
      assert parts == [parts[0]] + parts[1..];
    }
  }

  lemma PartsOfFramed(parts: seq<seq<string>>, tail: seq<string>, b: string)
    requires parts != [] && forall p <- parts :: Undelimited(p, b)
    ensures PartsOf(Framed(parts, b) + tail, b) == Some(parts)
  {
    var ls := Framed(parts, b) + tail;
    CollectFramed(parts, tail, b, []);
    assert ls[0] == "--" + b;
    var ps := Collect(ls[1..], b, []).value;
    assert ([[]] + ps)[1..] == ps && ([[]] + parts)[1..] == parts;
  }

  /** Parts come from the lines read, fewer of them, none a delimiter. */
  predicate PartFrom(p: seq<string>, ls: seq<string>, b: string) {
    Undelimited(p, b) && |p| < |ls| && forall l <- p :: l in ls
  }

  lemma {:induction false} CollectedFrom(ls: seq<string>, b: string, part: seq<string>, all: seq<string>)
    requires Collect(ls, b, part).Some? && Undelimited(part, b)
    requires |part| + |ls| <= |all| && (forall l <- ls :: l in all) && (forall l <- part :: l in all)
    ensures forall p <- Collect(ls, b, part).value :: PartFrom(p, all, b)
    ensures |Collect(ls, b, part).value| <= |ls|
    decreases |ls|
  {
    if Closes(ls[0], b) {
    } else if Delimits(ls[0], b) {
      CollectedFrom(ls[1..], b, [], all);
    } else {
      CollectedFrom(ls[1..], b, part + [ls[0]], all);
    }
  }

  lemma {:induction false} PartsFrom(ls: seq<string>, b: string)
    requires PartsOf(ls, b).Some?
    ensures forall p <- PartsOf(ls, b).value :: PartFrom(p, ls, b)
    ensures |PartsOf(ls, b).value| <= |ls|
    decreases |ls|
  {
    if Delimits(ls[0], b) {
      CollectedFrom(ls[1..], b, [], ls);
    } else {
      PartsFrom(ls[1..], b);
    }
  }

  // ---- entities ----

  datatype Entity = Entity(fields: seq<Field>, body: Body)
  datatype Body = Text(text: string) | Binary(data: seq<byte>) | Multi(boundary: string, parts: seq<Entity>)

  function Render(e: Entity): (ls: seq<string>)
    decreases e
  {
    FieldLines(e.fields) + [""] + RenderBody(e.body)
  }

  function RenderBody(body: Body): seq<string>
    decreases body
  {
    match body
    case Text(text) => SplitCRLF(text)
    case Binary(data) => Wrapped(Encode(data))
    case Multi(b, parts) => Framed(RenderAll(parts), b)
  }

  function RenderAll(es: seq<Entity>): (r: seq<seq<string>>)
    ensures |r| == |es|
    decreases es
  {
    if es == [] then [] else [Render(es[0])] + RenderAll(es[1..])
  }

  /** The header block ends at the first blank line. */
  function HeadOf(ls: seq<string>): (r: seq<string>)
    ensures |r| <= |ls|
  {
    if ls == [] || ls[0] == "" then [] else [ls[0]] + HeadOf(ls[1..])
  }

  function BodyOf(ls: seq<string>): (r: seq<string>)
    ensures |r| <= |ls| && forall l <- r :: l in ls
  {
    if ls == [] then [] else if ls[0] == "" then ls[1..] else BodyOf(ls[1..])
  }

  function DecodeEntity(ls: seq<string>): Option<Entity>
    decreases |ls|, |ls| + 2
  {
    var fields := ParseFields(HeadOf(ls));
    match KindOf(fields)
    case None => None
    case Some(kind) =>
      match DecodeBody(kind, BodyOf(ls), |ls|) case None => None case Some(body) => Some(Entity(fields, body))
  }

  function DecodeBody(kind: Kind, ls: seq<string>, ghost bound: nat): Option<Body>
    requires |ls| <= bound
    decreases bound, |ls| + 1
  {
    match kind
    case TextKind => Some(Text(JoinCRLF(ls)))
    case Base64Kind => (match Decode(Joined(ls)) case None => None case Some(data) => Some(Binary(data)))
    case MultiKind(b) =>
      match PartsOf(ls, b)
      case None => None
      case Some(ps) =>
        PartsFrom(ls, b);
        match DecodeAll(ps, bound) case None => None case Some(es) => Some(Multi(b, es))
  }

  function DecodeAll(ps: seq<seq<string>>, ghost bound: nat): (r: Option<seq<Entity>>)
    requires forall p <- ps :: |p| < bound
    ensures r.Some? ==> |r.value| == |ps| && forall i :: 0 <= i < |ps| ==> DecodeEntity(ps[i]) == Some(r.value[i])
    decreases bound, |ps|
  {
    if ps == [] then Some([])
    else
      match DecodeEntity(ps[0])
      case None => None
      case Some(e) =>
        match DecodeAll(ps[1..], bound) case None => None case Some(es) => Some([e] + es)
  }

  lemma {:induction false} HeadAndBody(head: seq<string>, body: seq<string>)
    requires forall l <- head :: l != ""
    ensures HeadOf(head + [""] + body) == head && BodyOf(head + [""] + body) == body
    decreases |head|
  {
    var ls := head + [""] + body;
    if head == [] {
      assert ls[1..] == body;
    } else {
      assert head[0] in head;
      assert ls[0] == head[0] && ls[1..] == head[1..] + [""] + body;
      assert forall l <- head[1..] :: l in head;
      HeadAndBody(head[1..], body);
    }
  }

  /** What makes an entity readable: its fields announce its body, and no part of it holds a delimiter line. */
  predicate Wf(e: Entity)
    decreases e
  {
    && (forall f <- e.fields :: FieldOk(f))
    && KindOf(e.fields) == Some(KindOfBody(e.body))
    && WfBody(e.body)
  }

  predicate WfBody(body: Body)
    decreases body
  {
    body.Multi? ==>
      && body.parts != [] && NoReturn(body.boundary)
      && forall i :: 0 <= i < |body.parts| ==> Wf(body.parts[i]) && Undelimited(Render(body.parts[i]), body.boundary)
  }

  function KindOfBody(body: Body): Kind {
    match body case Text(_) => TextKind case Binary(_) => Base64Kind case Multi(b, _) => MultiKind(b)
  }

  lemma {:induction false} RenderAllAt(es: seq<Entity>, i: nat)
    requires i < |es|
    ensures RenderAll(es)[i] == Render(es[i])
    decreases |es|
  {
    if i == 0 {
    } else {
      RenderAllAt(es[1..], i - 1);
    }
  }

  lemma PartsOfRendered(parts: seq<Entity>, tail: seq<string>, b: string)
    requires parts != [] && forall i :: 0 <= i < |parts| ==> Undelimited(Render(parts[i]), b)
    ensures PartsOf(RenderBody(Multi(b, parts)) + tail, b) == Some(RenderAll(parts))
  {
    var ps := RenderAll(parts);
    forall i | 0 <= i < |ps|
      ensures Undelimited(ps[i], b)
    {
      RenderAllAt(parts, i);
    }
    PartsOfFramed(ps, tail, b);
  }

  lemma HeadOfEntity(e: Entity, body: seq<string>)
    requires forall f <- e.fields :: FieldOk(f)
    ensures var ls := FieldLines(e.fields) + [""] + body; ParseFields(HeadOf(ls)) == e.fields && BodyOf(ls) == body
  {
    var head := FieldLines(e.fields);
    forall l | l in head
      ensures l != ""
    {
      var i :| 0 <= i < |head| && head[i] == l;
      assert |FieldLine(e.fields[i])| > 0;
    }
    HeadAndBody(head, body);
    ParseFieldLines(e.fields);
  }

  lemma ReadsMulti(ls: seq<string>, b: string, ps: seq<seq<string>>, bound: nat)
    requires |ls| <= bound && PartsOf(ls, b) == Some(ps)
    requires (forall p <- ps :: |p| < bound) && DecodeAll(ps, bound).Some?
    ensures DecodeBody(MultiKind(b), ls, bound) == Some(Multi(b, DecodeAll(ps, bound).value))
  {}

  /** Decoding a rendered entity returns it; a multipart one may be followed by an epilogue. */
  lemma {:induction false} RenderedReads(e: Entity, tail: seq<string>)
    requires Wf(e) && (tail == [] || e.body.Multi?)
    ensures DecodeEntity(Render(e) + tail) == Some(e)
    decreases e
  {
    var body, ls := RenderBody(e.body) + tail, Render(e) + tail;
    assert ls == FieldLines(e.fields) + [""] + body;
    HeadOfEntity(e, body);
    BodyReads(e.body, tail, |ls|);
  }

  lemma {:induction false} BodyReads(body: Body, tail: seq<string>, bound: nat)
    requires WfBody(body) && (tail == [] || body.Multi?) && |RenderBody(body) + tail| <= bound
    ensures DecodeBody(KindOfBody(body), RenderBody(body) + tail, bound) == Some(body)
    decreases body
  {
    var ls := RenderBody(body) + tail;
    match body {
      case Text(text) =>
        assert ls == SplitCRLF(text);
        JoinSplit(text);
      case Binary(data) =>
        assert ls == Wrapped(Encode(data));
        WrappedRoundTrip(data);
      case Multi(b, parts) =>
        PartsOfRendered(parts, tail, b);
        PartsFrom(ls, b);
        forall i | 0 <= i < |parts|
          ensures DecodeEntity(RenderAll(parts)[i]) == Some(parts[i])
        {
          RenderAllAt(parts, i);
          RenderedReads(parts[i], []);
          assert Render(parts[i]) + [] == Render(parts[i]);
        }
        DecodeAllEach(RenderAll(parts), bound, parts);
        ReadsMulti(ls, b, RenderAll(parts), bound);
    }
  }

  lemma {:induction false} DecodeAllEach(ps: seq<seq<string>>, bound: nat, es: seq<Entity>)
    requires (forall p <- ps :: |p| < bound) && |es| == |ps|
    requires forall i :: 0 <= i < |ps| ==> DecodeEntity(ps[i]) == Some(es[i])
    ensures DecodeAll(ps, bound) == Some(es)
    decreases |ps|
  {
    if ps == [] {
    } else {
      DecodeAllEach(ps[1..], bound, es[1..]);
      assert es == [es[0]] + es[1..];
    }
  }

  lemma FieldLineSingle(f: Field)
    requires FieldOk(f)
    ensures Single(FieldLine(f))
  {
    var l := FieldLine(f);
    var n := |f.name| + 2;
    assert forall i :: 0 <= i < n ==> l[i] != '\r';
    assert forall i :: n <= i < |l| ==> l[i] == f.value[i - n];
    assert Unbroken(l);
    UnbrokenIsSingle(l);
  }

  /** No rendered line can be split further. */
  lemma {:induction false} RenderedSingle(e: Entity)
    requires Wf(e)
    ensures forall l <- Render(e) :: Single(l)
    decreases e
  {
    BodySingle(e.body);
    forall l | l in FieldLines(e.fields)
      ensures Single(l)
    {
      var i :| 0 <= i < |e.fields| && l == FieldLine(e.fields[i]);
      assert e.fields[i] in e.fields;
      FieldLineSingle(e.fields[i]);
    }
    NoReturnIsSingle("");
  }

  lemma {:induction false} BodySingle(body: Body)
    requires WfBody(body)
    ensures forall l <- RenderBody(body) :: Single(l)
    decreases body
  {
    match body {
      case Text(text) =>
        SplitIsSingle(text);
      case Binary(data) =>
        EncodePlain(data);
        forall l | l in Wrapped(Encode(data))
          ensures Single(l)
        {
          assert Plain(l);
          NoReturnIsSingle(l);
        }
      case Multi(b, parts) =>
        NoReturnIsSingle("--" + b);
        NoReturnIsSingle("--" + b + "--");
        forall i | 0 <= i < |parts|
          ensures forall l <- RenderAll(parts)[i] :: Single(l)
        {
          RenderAllAt(parts, i);
          RenderedSingle(parts[i]);
        }
        FramedSingle(RenderAll(parts), b);
    }
  }

  lemma {:induction false} FramedSingle(parts: seq<seq<string>>, b: string)
    requires Single("--" + b) && Single("--" + b + "--")
    requires forall i :: 0 <= i < |parts| ==> forall l <- parts[i] :: Single(l)
    ensures forall l <- Framed(parts, b) :: Single(l)
    decreases |parts|
  {
    if parts == [] {
    } else {
      FramedSingle(parts[1..], b);
    }
  }

  // ---- what decoding can return ----

  /** No line of any text inside the entity begins with the boundary. */
  predicate TextsClear(e: Entity, b: string)
    decreases e
  {
    BodyClear(e.body, b)
  }

  predicate BodyClear(body: Body, b: string)
    decreases body
  {
    match body
    case Text(text) => Undelimited(SplitCRLF(text), b)
    case Binary(_) => true
    case Multi(_, parts) => forall i :: 0 <= i < |parts| ==> TextsClear(parts[i], b)
  }

  /** No value begins with a space or holds a line break. */
  predicate PlainValues(fs: seq<Field>) {
    forall i :: 0 <= i < |fs| ==> NoLeadingSpace(fs[i].value) && Unbroken(fs[i].value)
  }

  /** Field values are plain, fields announce bodies, and the texts under every multipart entity are clear of
      its boundary. */
  predicate Clear(e: Entity)
    decreases e
  {
    PlainValues(e.fields) && KindOf(e.fields) == Some(KindOfBody(e.body)) && PartsClear(e.body)
  }

  predicate PartsClear(body: Body)
    decreases body
  {
    body.Multi? ==>
      forall i :: 0 <= i < |body.parts| ==> TextsClear(body.parts[i], body.boundary) && Clear(body.parts[i])
  }

  lemma {:induction false} AfterIsSuffix(s: string, c: char)
    ensures |After(s, c)| <= |s| && After(s, c) == s[|s| - |After(s, c)|..]
    decreases |s|
  {
    if s == "" || s[0] == c {
    } else {
      AfterIsSuffix(s[1..], c);
    }
  }

  lemma {:induction false} TrimLeftIsSuffix(s: string)
    ensures |TrimLeft(s)| <= |s| && TrimLeft(s) == s[|s| - |TrimLeft(s)|..]
    decreases |s|
  {
    if s == "" || !IsSpace(s[0]) {
    } else {
      TrimLeftIsSuffix(s[1..]);
    }
  }

  lemma ParsedValuePlain(l: string)
    requires Single(l)
    ensures NoLeadingSpace(ParseField(l).value) && Unbroken(ParseField(l).value)
  {
    SingleIsUnbroken(l);
    var rest := After(l, ':');
    AfterIsSuffix(l, ':');
    TrimLeftIsSuffix(rest);
    SuffixUnbroken(l, |l| - |rest|);
    SuffixUnbroken(rest, |rest| - |TrimLeft(rest)|);
  }

  lemma SuffixUnbroken(s: string, n: nat)
    requires Unbroken(s) && n <= |s|
    ensures Unbroken(s[n..])
  {}

  lemma {:induction false} HeadFrom(ls: seq<string>)
    ensures forall l <- HeadOf(ls) :: l in ls
    decreases |ls|
  {
    if ls == [] || ls[0] == "" {
    } else {
      HeadFrom(ls[1..]);
    }
  }

  lemma DecodedFieldsPlain(ls: seq<string>)
    requires forall l <- ls :: Single(l)
    ensures PlainValues(ParseFields(HeadOf(ls)))
  {
    HeadFrom(ls);
    forall i | 0 <= i < |HeadOf(ls)|
      ensures var v := ParseFields(HeadOf(ls))[i].value; NoLeadingSpace(v) && Unbroken(v)
    {
      assert HeadOf(ls)[i] in HeadOf(ls);
      ParsedValuePlain(HeadOf(ls)[i]);
    }
  }

  lemma DecodedKind(kind: Kind, ls: seq<string>, bound: nat)
    requires |ls| <= bound && DecodeBody(kind, ls, bound).Some?
    ensures KindOfBody(DecodeBody(kind, ls, bound).value) == kind
  {}

  lemma DecodedMulti(kind: Kind, ls: seq<string>, bound: nat)
    requires |ls| <= bound && DecodeBody(kind, ls, bound).Some? && DecodeBody(kind, ls, bound).value.Multi?
    ensures var Multi(b, parts) := DecodeBody(kind, ls, bound).value;
            && PartsOf(ls, b).Some? && (forall p <- PartsOf(ls, b).value :: PartFrom(p, ls, b))
            && DecodeAll(PartsOf(ls, b).value, bound) == Some(parts)
  {
    PartsFrom(ls, kind.boundary);
  }

  lemma JoinedClear(ls: seq<string>, b: string)
    requires Undelimited(ls, b) && forall l <- ls :: Single(l)
    ensures Undelimited(SplitCRLF(JoinCRLF(ls)), b)
  {
    if ls != [] {
      SplitJoin(ls);
    }
  }

  lemma SubLines(part: seq<string>, ls: seq<string>, inner: string, b: string)
    requires PartFrom(part, ls, inner)
    requires Undelimited(ls, b) && forall l <- ls :: Single(l)
    ensures Undelimited(part, b) && forall l <- part :: Single(l)
  {}

  lemma {:induction false} DecodedTextsClear(ls: seq<string>, b: string)
    requires DecodeEntity(ls).Some? && Undelimited(ls, b) && forall l <- ls :: Single(l)
    ensures TextsClear(DecodeEntity(ls).value, b)
    decreases |ls|, 1
  {
    DecodedBodyClear(KindOf(ParseFields(HeadOf(ls))).value, BodyOf(ls), |ls|, b);
  }

  lemma {:induction false} DecodedBodyClear(kind: Kind, ls: seq<string>, bound: nat, b: string)
    requires |ls| <= bound && DecodeBody(kind, ls, bound).Some? && Undelimited(ls, b) && forall l <- ls :: Single(l)
    ensures BodyClear(DecodeBody(kind, ls, bound).value, b)
    decreases bound, 0
  {
    match DecodeBody(kind, ls, bound).value {
      case Text(_) =>
        JoinedClear(ls, b);
      case Binary(_) =>
      case Multi(inner, parts) =>
        var ps := PartsOf(ls, inner).value;
        DecodedMulti(kind, ls, bound);
        forall i | 0 <= i < |parts|
          ensures TextsClear(parts[i], b)
        {
          SubLines(ps[i], ls, inner, b);
          DecodedTextsClear(ps[i], b);
        }
    }
  }

  /** Whatever the lines say, decoded values are plain, bodies are what their fields announce, and no decoded
      text holds a delimiter of a multipart entity around it. */
  lemma {:induction false} DecodedIsClear(ls: seq<string>)
    requires DecodeEntity(ls).Some? && forall l <- ls :: Single(l)
    ensures Clear(DecodeEntity(ls).value)
    decreases |ls|, 1
  {
    var kind := KindOf(ParseFields(HeadOf(ls))).value;
    DecodedFieldsPlain(ls);
    DecodedKind(kind, BodyOf(ls), |ls|);
    DecodedPartsClear(kind, BodyOf(ls), |ls|);
  }

  lemma {:induction false} DecodedPartsClear(kind: Kind, ls: seq<string>, bound: nat)
    requires |ls| <= bound && DecodeBody(kind, ls, bound).Some? && forall l <- ls :: Single(l)
    ensures PartsClear(DecodeBody(kind, ls, bound).value)
    decreases bound, 0
  {
    var body := DecodeBody(kind, ls, bound).value;
    if body.Multi? {
      var b, parts := body.boundary, body.parts;
      var ps := PartsOf(ls, b).value;
      DecodedMulti(kind, ls, bound);
      forall i | 0 <= i < |parts|
        ensures TextsClear(parts[i], b) && Clear(parts[i])
      {
        PartSingle(ps[i], ls, b);
        DecodedTextsClear(ps[i], b);
        DecodedIsClear(ps[i]);
      }
    }
  }

  lemma PartSingle(part: seq<string>, ls: seq<string>, b: string)
    requires PartFrom(part, ls, b) && forall l <- ls :: Single(l)
    ensures Undelimited(part, b) && forall l <- part :: Single(l)
  {}
}
