/**
 The MIME message an SMTP sender builds (internal/platform/email/smtp_sender.go), from the
 Content-Type field on: a text, an HTML text, both as alternatives, or either with attachments.
 */
module MimeMessage {
  import opened Collections
  import opened Decimals
  import opened GoStrings
  import opened Base64
  import opened MimeEntity

  /** quotedName is the file name as the %q verb quotes it. */
  datatype Attachment = Attachment(
    contentType: string, disposition: string, quotedName: string, contentID: string, data: seq<byte>)

  datatype Message = Message(text: string, html: string, attachments: seq<Attachment>) {
    predicate Both() { text != "" && html != "" }
  }

  /** The clock readings the boundaries are made from. */
  datatype Clock = Clock(outer: nat, inner: nat)

  function MixedBoundary(c: Clock): string { "sendflow-mixed-" + Decimal(c.outer) }

  function InnerBoundary(c: Clock): string { "sendflow-alt-" + Decimal(c.inner) }

  function SoleBoundary(c: Clock): string { "sendflow-" + Decimal(c.outer) }

  // ---- the entity a message stands for ----

  const PLAIN := Field("Content-Type", "text/plain; charset=UTF-8")
  const HTML := Field("Content-Type", "text/html; charset=UTF-8")

  function TextEntity(f: Field, text: string): Entity { Entity([f], Text(text)) }

  function MultiField(subtype: string, b: string): Field {
    Field("Content-Type", "multipart/" + subtype + "; boundary=\"" + b + "\"")
  }

  function MultiEntity(subtype: string, b: string, parts: seq<Entity>): Entity {
    Entity([MultiField(subtype, b)], Multi(b, parts))
  }

  function Alternative(msg: Message, b: string): Entity {
    MultiEntity("alternative", b, [TextEntity(PLAIN, msg.text), TextEntity(HTML, msg.html)])
  }

  function Sole(msg: Message): Entity {
    if msg.html != "" then TextEntity(HTML, msg.html) else TextEntity(PLAIN, msg.text)
  }

  function OrDefault(s: string, default: string): string { if s == "" then default else s }

  function DispositionValue(disposition: string, name: string): string { disposition + "; filename=" + name }

  function IdValue(id: string): string { "<" + id + ">" }

  function AttachmentFields(a: Attachment): seq<Field> {
    [Field("Content-Type", OrDefault(a.contentType, "application/octet-stream")),
     Field("Content-Disposition", DispositionValue(OrDefault(a.disposition, "attachment"), a.quotedName))]
    + (if a.contentID != "" then [Field("Content-ID", IdValue(a.contentID))] else [])
    + [Field("Content-Transfer-Encoding", "base64")]
  }

  function AttachmentEntity(a: Attachment): Entity { Entity(AttachmentFields(a), Binary(a.data)) }

  function AttachmentEntities(atts: seq<Attachment>): (es: seq<Entity>)
    ensures |es| == |atts| && forall i :: 0 <= i < |atts| ==> es[i] == AttachmentEntity(atts[i])
  {
    seq(|atts|, i requires 0 <= i < |atts| => AttachmentEntity(atts[i]))
  }

  function BodyEntity(msg: Message, c: Clock): Entity {
    if msg.Both() then Alternative(msg, InnerBoundary(c)) else Sole(msg)
  }

  function MixedParts(msg: Message, c: Clock): seq<Entity> {
    [BodyEntity(msg, c)] + AttachmentEntities(msg.attachments)
  }

  function EntityOf(msg: Message, c: Clock): Entity {
    if msg.attachments != [] then
      MultiEntity("mixed", MixedBoundary(c), MixedParts(msg, c))
    else if msg.Both() then Alternative(msg, SoleBoundary(c))
    else Sole(msg)
  }

  /** Every line of a multipart message is ended; a single text is written as it is. */
  function MessageText(msg: Message, c: Clock): string {
    var e := EntityOf(msg, c);
    if e.body.Multi? then Ended(Render(e)) else JoinCRLF(Render(e))
  }

  // ---- building ----

  method PutLine(b: string, ghost ls: seq<string>, l: string) returns (r: string)
    requires b == Ended(ls)
    ensures r == Ended(ls + [l])
  {
    EndedConcat(ls, [l]);
    assert Ended([l]) == l + CRLF;
    r := b + l + CRLF;
  }

  method PutFields(b: string, ghost ls: seq<string>, fs: seq<Field>) returns (r: string)
    requires b == Ended(ls)
    ensures r == Ended(ls + FieldLines(fs) + [""])
  {
    r := b;
    assert ls + FieldLines(fs[..0]) == ls;
    for i := 0 to |fs|
      invariant r == Ended(ls + FieldLines(fs[..i]))
    {
      r := PutLine(r, ls + FieldLines(fs[..i]), fs[i].name + ": " + fs[i].value);
      assert ls + FieldLines(fs[..i]) + [FieldLine(fs[i])] == ls + FieldLines(fs[..i + 1]);
    }
    assert fs[..|fs|] == fs;
    r := PutLine(r, ls + FieldLines(fs), "");
  }

  lemma EntityLines(ls: seq<string>, fields: seq<Field>, body: Body)
    ensures ls + FieldLines(fields) + [""] + RenderBody(body) == ls + Render(Entity(fields, body))
  {}

  method PutText(b: string, ghost ls: seq<string>, f: Field, text: string) returns (r: string)
    requires b == Ended(ls)
    ensures r == Ended(ls + Render(TextEntity(f, text)))
  {
    r := PutFields(b, ls, [f]);
    EndedConcat(ls + FieldLines([f]) + [""], SplitCRLF(text));
    EndedSplit(text);
    EntityLines(ls, [f], Text(text));
    r := r + text + CRLF;
  }

  method PutAlternative(b: string, ghost ls: seq<string>, boundary: string, msg: Message) returns (r: string)
    requires b == Ended(ls)
    ensures r == Ended(ls + Render(Alternative(msg, boundary)))
  {
    var f := MultiField("alternative", boundary);
    ghost var plain, html := TextEntity(PLAIN, msg.text), TextEntity(HTML, msg.html);
    ghost var out := ls + FieldLines([f]) + [""];
    r := PutFields(b, ls, [f]);
    r := PutLine(r, out, "--" + boundary);
    r := PutText(r, out + ["--" + boundary], PLAIN, msg.text);
    out := out + ["--" + boundary] + Render(plain);
    r := PutLine(r, out, "--" + boundary);
    r := PutText(r, out + ["--" + boundary], HTML, msg.html);
    out := out + ["--" + boundary] + Render(html);
    r := PutLine(r, out, "--" + boundary + "--");
    AlternativeLines(ls, msg, boundary);
  }

  lemma AlternativeLines(ls: seq<string>, msg: Message, b: string)
    ensures var plain, html := Render(TextEntity(PLAIN, msg.text)), Render(TextEntity(HTML, msg.html));
            var head := ls + FieldLines([MultiField("alternative", b)]) + [""];
            head + ["--" + b] + plain + ["--" + b] + html + ["--" + b + "--"] == ls + Render(Alternative(msg, b))
  {
    FramedPair(b, TextEntity(PLAIN, msg.text), TextEntity(HTML, msg.html));
  }

  lemma FramedPair(b: string, x: Entity, y: Entity)
    ensures RenderBody(Multi(b, [x, y])) == ["--" + b] + Render(x) + ["--" + b] + Render(y) + ["--" + b + "--"]
  {
    assert RenderAll([x, y]) == [Render(x), Render(y)] by {
      assert [x, y][1..] == [y];
      assert [y][1..] == [];
    }
    assert Framed([Render(y)], b) == ["--" + b] + Render(y) + ["--" + b + "--"] by {
      assert [Render(y)][1..] == [];
    }
    assert [Render(x), Render(y)][1..] == [Render(y)];
  }

  /** The text from column i on; none once i has passed the end. */
  function From(s: string, i: nat): string { if i <= |s| then s[i..] else "" }

  lemma WrapStep(before: seq<string>, s: string, i: nat, end: nat)
    requires i < |s| && end == if i + COLUMNS > |s| then |s| else i + COLUMNS
    ensures before + Wrapped(From(s, i)) == (before + [s[i..end]]) + Wrapped(From(s, i + COLUMNS))
  {
    var rest := From(s, i);
    if |rest| > COLUMNS {
      assert rest[..COLUMNS] == s[i..end];
      assert rest[COLUMNS..] == From(s, i + COLUMNS);
    } else {
      assert From(s, i + COLUMNS) == "";
      assert rest == s[i..end];
    }
  }

  method PutWrapped(b: string, ghost ls: seq<string>, encoded: string) returns (r: string)
    requires b == Ended(ls)
    ensures r == Ended(ls + Wrapped(encoded))
  {
    r := b;
    var i := 0;
    ghost var out := ls;
    assert From(encoded, 0) == encoded;
    while i < |encoded|
      invariant 0 <= i
      invariant out + Wrapped(From(encoded, i)) == ls + Wrapped(encoded)
      invariant r == Ended(out)
    {
      var end := i + COLUMNS;
      if end > |encoded| {
        end := |encoded|;
      }
      WrapStep(out, encoded, i, end);
      r := PutLine(r, out, encoded[i..end]);
      out := out + [encoded[i..end]];
      i := i + COLUMNS;
    }
    assert Wrapped(From(encoded, i)) == [];
    assert out + [] == out;
  }

  method PutAttachment(b: string, ghost ls: seq<string>, a: Attachment) returns (r: string)
    requires b == Ended(ls)
    ensures r == Ended(ls + Render(AttachmentEntity(a)))
  {
    var fields := AttachmentFields(a);
    r := PutFields(b, ls, fields);
    r := PutWrapped(r, ls + FieldLines(fields) + [""], Encode(a.data));
    EntityLines(ls, fields, Binary(a.data));
  }

  /** The delimited parts, without the closing line. */
  ghost function Opened(es: seq<Entity>, b: string): seq<string> {
    if es == [] then [] else Opened(es[..|es| - 1], b) + ["--" + b] + Render(es[|es| - 1])
  }

  lemma {:induction false} OpenedFramed(es: seq<Entity>, more: seq<Entity>, b: string)
    ensures Opened(es, b) + Framed(RenderAll(more), b) == Framed(RenderAll(es + more), b)
    decreases |es|
  {
    if es == [] {
      assert es + more == more;
    } else {
      var n := |es| - 1;
      assert RenderAll([es[n]] + more) == [Render(es[n])] + RenderAll(more) by {
        assert ([es[n]] + more)[1..] == more;
      }
      assert Framed([Render(es[n])] + RenderAll(more), b) == ["--" + b] + Render(es[n]) + Framed(RenderAll(more), b) by {
        assert ([Render(es[n])] + RenderAll(more))[1..] == RenderAll(more);
      }
      OpenedFramed(es[..n], [es[n]] + more, b);
      assert es[..n] + ([es[n]] + more) == es + more;
    }
  }

  lemma OpenedMore(head: seq<string>, es: seq<Entity>, e: Entity, b: string)
    ensures head + Opened(es + [e], b) == head + Opened(es, b) + ["--" + b] + Render(e)
  {
    assert (es + [e])[..|es|] == es;
  }

  lemma OpenedFirst(head: seq<string>, e: Entity, b: string)
    ensures head + Opened([e], b) == head + ["--" + b] + Render(e)
  {
    assert [e][..0] == [];
  }

  lemma OpenedClosed(head: seq<string>, es: seq<Entity>, b: string)
    ensures head + Opened(es, b) + ["--" + b + "--"] == head + RenderBody(Multi(b, es))
  {
    OpenedFramed(es, [], b);
    assert es + [] == es;
  }

  method PutBody(b: string, ghost ls: seq<string>, msg: Message, c: Clock) returns (r: string)
    requires b == Ended(ls)
    ensures r == Ended(ls + Render(BodyEntity(msg, c)))
  {
    if msg.text != "" && msg.html != "" {
      r := PutAlternative(b, ls, InnerBoundary(c), msg);
    } else if msg.html != "" {
      r := PutText(b, ls, HTML, msg.html);
    } else {
      r := PutText(b, ls, PLAIN, msg.text);
    }
  }

  lemma MoreEntities(atts: seq<Attachment>, i: nat)
    requires i < |atts|
    ensures AttachmentEntities(atts[..i + 1]) == AttachmentEntities(atts[..i]) + [AttachmentEntity(atts[i])]
  {}

  method PutAttachments(b: string, ghost head: seq<string>, ghost body: Entity, boundary: string, atts: seq<Attachment>)
    returns (r: string)
    requires b == Ended(head + Opened([body], boundary))
    ensures r == Ended(head + Opened([body] + AttachmentEntities(atts), boundary))
  {
    r := b;
    ghost var es := [body];
    for i := 0 to |atts|
      invariant es == [body] + AttachmentEntities(atts[..i])
      invariant r == Ended(head + Opened(es, boundary))
    {
      ghost var out := head + Opened(es, boundary);
      r := PutLine(r, out, "--" + boundary);
      r := PutAttachment(r, out + ["--" + boundary], atts[i]);
      OpenedMore(head, es, AttachmentEntity(atts[i]), boundary);
      MoreEntities(atts, i);
      es := es + [AttachmentEntity(atts[i])];
    }
    assert atts[..|atts|] == atts;
  }

  method PutMixed(msg: Message, c: Clock) returns (r: string)
    requires msg.attachments != []
    ensures r == Ended(Render(EntityOf(msg, c)))
  {
    var boundary := MixedBoundary(c);
    var f := MultiField("mixed", boundary);
    ghost var head := [] + FieldLines([f]) + [""];
    r := PutFields("", [], [f]);
    r := PutLine(r, head, "--" + boundary);
    r := PutBody(r, head + ["--" + boundary], msg, c);
    OpenedFirst(head, BodyEntity(msg, c), boundary);
    r := PutAttachments(r, head, BodyEntity(msg, c), boundary, msg.attachments);
    r := PutLine(r, head + Opened(MixedParts(msg, c), boundary), "--" + boundary + "--");
    MixedLines(msg, c);
  }

  lemma MixedLines(msg: Message, c: Clock)
    requires msg.attachments != []
    ensures var b := MixedBoundary(c);
            [] + FieldLines([MultiField("mixed", b)]) + [""] + Opened(MixedParts(msg, c), b) + ["--" + b + "--"]
              == Render(EntityOf(msg, c))
  {
    MultiLines([MultiField("mixed", MixedBoundary(c))], MixedParts(msg, c), MixedBoundary(c));
  }

  lemma MultiLines(fields: seq<Field>, parts: seq<Entity>, b: string)
    ensures [] + FieldLines(fields) + [""] + Opened(parts, b) + ["--" + b + "--"]
              == Render(Entity(fields, Multi(b, parts)))
  {
    var head := FieldLines(fields) + [""];
    OpenedClosed(head, parts, b);
    assert [] + FieldLines(fields) + [""] == head;
  }

  method BuildMimeMessage(msg: Message, c: Clock) returns (b: string)
    ensures b == MessageText(msg, c)
  {
    if |msg.attachments| > 0 {
      b := PutMixed(msg, c);
      return;
    }
    if msg.text != "" && msg.html != "" {
      b := PutAlternative("", [], SoleBoundary(c), msg);
      assert [] + Render(EntityOf(msg, c)) == Render(EntityOf(msg, c));
      return;
    }
    var f, text := PLAIN, msg.text;
    if msg.html != "" {
      f, text := HTML, msg.html;
    }
    b := PutFields("", [], [f]);
    EndedThenText([] + FieldLines([f]) + [""], text);
    assert [] + FieldLines([f]) + [""] + SplitCRLF(text) == Render(TextEntity(f, text));
    b := b + text;
  }

  // ---- reading it back ----

  function DecodeMessage(s: string): Option<Entity> { DecodeEntity(SplitCRLF(s)) }

  /** Field text without a line break or a leading space, which does not announce nested parts. */
  predicate HeadersSafe(a: Attachment) {
    && Unbroken(a.contentType) && Unbroken(a.disposition) && Unbroken(a.quotedName) && Unbroken(a.contentID)
    && NoLeadingSpace(a.contentType) && NoLeadingSpace(a.disposition) && !IsMultipart(a.contentType)
  }

  predicate Avoids(text: string, b: string) { Undelimited(SplitCRLF(text), b) }

  /** No line of the text or the HTML begins with a delimiter written around it. */
  predicate AvoidsBoundaries(msg: Message, c: Clock) {
    if msg.attachments != [] then
      && Avoids(msg.text, MixedBoundary(c)) && Avoids(msg.html, MixedBoundary(c))
      && (msg.Both() ==> Avoids(msg.text, InnerBoundary(c)) && Avoids(msg.html, InnerBoundary(c)))
    else
      msg.Both() ==> Avoids(msg.text, SoleBoundary(c)) && Avoids(msg.html, SoleBoundary(c))
  }

  lemma NamesRead()
    ensures Lower("Content-Type") == "content-type"
    ensures Lower("Content-Transfer-Encoding") == "content-transfer-encoding"
  {}

  /** A lone content type is found, and no transfer encoding beside it. */
  lemma LoneContentType(v: string)
    ensures KindOf([Field("Content-Type", v)]) == KindFrom(v, "7bit")
  {
    var fs := [Field("Content-Type", v)];
    NamesRead();
    assert |Lower("Content-Type")| != |"content-transfer-encoding"|;
    assert fs[1..] == [];
    assert Lookup(fs[1..], "content-transfer-encoding", "7bit") == "7bit";
  }

  lemma NotMultipart(v: string)
    requires v != "" && LowerChar(v[0]) != 'm'
    ensures !IsMultipart(v)
  {
    if |v| >= |MULTIPART| {
      assert Lower(v[..|MULTIPART|])[0] == LowerChar(v[0]);
    }
  }

  lemma ContentTypeOk(v: string)
    requires Unbroken(v) && NoLeadingSpace(v)
    ensures FieldOk(Field("Content-Type", v))
  {}

  lemma TextValueOk(v: string)
    requires v == PLAIN.value || v == HTML.value
    ensures Unbroken(v) && NoLeadingSpace(v) && !IsMultipart(v)
  {
    assert NoReturn(v);
    assert v[0] == 't';
    NotMultipart(v);
  }

  lemma TextFieldOk(f: Field)
    requires f == PLAIN || f == HTML
    ensures FieldOk(f) && KindOf([f]) == Some(TextKind)
  {
    TextValueOk(f.value);
    ContentTypeOk(f.value);
    LoneContentType(f.value);
    assert |Lower("7bit")| != |"base64"|;
  }

  lemma BoundaryRead(p: string, b: string)
    requires ';' !in p && '"' !in b
    ensures BoundaryOf(p + "; boundary=\"" + b + "\"") == Some(b)
  {
    var quoted := "\"" + b + "\"";
    assert p + "; boundary=\"" + b + "\"" == p + [';'] + (" boundary=" + quoted);
    BeforeAfter(p, ';', " boundary=" + quoted);
    assert " boundary=" + quoted == " boundary" + ['='] + quoted;
    BeforeAfter(" boundary", '=', quoted);
    assert quoted[1..] == b + ['"'] + "";
    BeforeAfter(b, '"', "");
    BoundaryName();
  }

  lemma BoundaryName()
    ensures Lower(TrimLeft(" boundary")) == "boundary"
  {
    assert " boundary"[1..] == "boundary";
    assert TrimLeft("boundary") == "boundary";
  }

  lemma MultipartRead(rest: string)
    ensures IsMultipart("multipart/" + rest)
  {
    assert ("multipart/" + rest)[..|MULTIPART|] == MULTIPART;
    assert Lower(MULTIPART) == MULTIPART;
  }

  lemma MultiValueOk(subtype: string, b: string)
    requires NoReturn(subtype) && ';' !in subtype && NoReturn(b) && '"' !in b
    ensures var v := MultiField(subtype, b).value; Unbroken(v) && NoLeadingSpace(v) && IsMultipart(v)
  {
    assert NoReturn(MultiField(subtype, b).value);
    var rest := subtype + "; boundary=\"" + b + "\"";
    MultipartRead(rest);
    assert MultiField(subtype, b).value == "multipart/" + rest;
  }

  lemma MultiFieldOk(subtype: string, b: string)
    requires NoReturn(subtype) && ';' !in subtype && NoReturn(b) && '"' !in b
    ensures FieldOk(MultiField(subtype, b)) && KindOf([MultiField(subtype, b)]) == Some(MultiKind(b))
  {
    MultiValueOk(subtype, b);
    ContentTypeOk(MultiField(subtype, b).value);
    LoneContentType(MultiField(subtype, b).value);
    BoundaryRead("multipart/" + subtype, b);
  }

  // ---- attachments ----

  /** Text around a separator is unbroken exactly when both sides are. */
  lemma UnbrokenAround(x: string, sep: string, y: string)
    requires sep != "" && NoReturn(sep) && '\n' !in sep
    ensures Unbroken(x + sep + y) <==> Unbroken(x) && Unbroken(y)
  {
    var s := x + sep + y;
    var n := |x| + |sep|;
    assert forall i :: 0 <= i < |x| ==> s[i] == x[i];
    assert forall i :: 0 <= i < |sep| ==> s[|x| + i] == sep[i];
    assert forall i :: 0 <= i < |y| ==> s[n + i] == y[i];
    assert forall i :: |x| <= i < n ==> s[i] == sep[i - |x|];
    assert forall i :: n <= i < |s| ==> s[i] == y[i - n];
    if Unbroken(s) {
      assert Unbroken(x);
      forall i, j | 0 <= i && j == i + 1 < |y| ensures !(y[i] == '\r' && y[j] == '\n') {
        assert s[n + i] == y[i] && s[n + j] == y[j];
      }
    }
    if Unbroken(x) && Unbroken(y) {
      forall i, j | 0 <= i && j == i + 1 < |s| ensures !(s[i] == '\r' && s[j] == '\n') {
        if j < |x| {
        } else if i < n {
          assert s[j] == '\n' ==> j >= n;
        } else {
          assert s[i] == y[i - n] && s[j] == y[j - n];
        }
      }
    }
  }

  lemma DispositionUnbroken(disposition: string, name: string)
    ensures Unbroken(DispositionValue(disposition, name)) <==> Unbroken(disposition) && Unbroken(name)
  {
    UnbrokenAround(disposition, "; filename=", name);
  }

  lemma IdUnbroken(id: string)
    ensures Unbroken(IdValue(id)) <==> Unbroken(id)
  {
    UnbrokenAround("", "<", id);
    assert "" + "<" + id == "<" + id;
    UnbrokenAround("<" + id, ">", "");
    assert "<" + id + ">" + "" == IdValue(id);
  }

  lemma DispositionOk(disposition: string, name: string)
    requires Unbroken(disposition) && NoLeadingSpace(disposition) && disposition != "" && Unbroken(name)
    ensures FieldOk(Field("Content-Disposition", DispositionValue(disposition, name)))
  {
    DispositionNameOk();
    DispositionUnbroken(disposition, name);
    assert DispositionValue(disposition, name)[0] == disposition[0];
  }

  lemma ContentIdOk(id: string)
    requires Unbroken(id)
    ensures FieldOk(Field("Content-ID", IdValue(id)))
  {
    IdUnbroken(id);
  }

  lemma DispositionNameOk()
    ensures NameOk("Content-Disposition")
  {}

  lemma EncodingNameOk()
    ensures NameOk("Content-Transfer-Encoding")
  {}

  lemma EncodingOk()
    ensures FieldOk(Field("Content-Transfer-Encoding", "base64"))
  {
    EncodingNameOk();
    assert NoReturn("base64");
  }

  lemma DefaultsOk()
    ensures Unbroken("attachment") && NoLeadingSpace("attachment")
    ensures Unbroken("application/octet-stream") && NoLeadingSpace("application/octet-stream")
    ensures !IsMultipart("application/octet-stream")
  {
    assert NoReturn("attachment") && NoReturn("application/octet-stream");
    NotMultipart("application/octet-stream");
  }

  lemma AttachmentFieldsOk(a: Attachment)
    requires HeadersSafe(a)
    ensures forall f <- AttachmentFields(a) :: FieldOk(f)
  {
    DefaultsOk();
    ContentTypeOk(OrDefault(a.contentType, "application/octet-stream"));
    DispositionOk(OrDefault(a.disposition, "attachment"), a.quotedName);
    ContentIdOk(a.contentID);
    EncodingOk();
  }

  lemma EncodingFound(fs: seq<Field>)
    requires fs != [] && Lower(fs[0].name) == "content-transfer-encoding"
    ensures Lookup(fs, "content-transfer-encoding", "7bit") == fs[0].value
  {}

  lemma AttachmentEncoding(a: Attachment)
    ensures Lookup(AttachmentFields(a), "content-transfer-encoding", "7bit") == "base64"
  {
    var fs := AttachmentFields(a);
    var encoding := Field("Content-Transfer-Encoding", "base64");
    NamesRead();
    OtherNames();
    EncodingFound([encoding]);
    LookupSkip(fs);
    LookupSkip(fs[1..]);
    if a.contentID != "" {
      LookupSkip(fs[1..][1..]);
      assert fs[1..][1..][1..] == [encoding];
    } else {
      assert fs[1..][1..] == [encoding];
    }
  }

  lemma AttachmentType(a: Attachment)
    ensures Lookup(AttachmentFields(a), "content-type", "text/plain") == OrDefault(a.contentType, "application/octet-stream")
  {
    NamesRead();
  }

  /** An attachment is read as base64 exactly when its content type announces no parts. */
  lemma AttachmentKind(a: Attachment)
    ensures KindOf(AttachmentFields(a)) == Some(Base64Kind) <==> !IsMultipart(a.contentType)
  {
    AttachmentEncoding(a);
    AttachmentType(a);
    DefaultsOk();
    assert Lower("base64") == "base64";
  }

  lemma LookupSkip(fs: seq<Field>)
    requires fs != [] && Lower(fs[0].name) != "content-transfer-encoding"
    ensures Lookup(fs, "content-transfer-encoding", "7bit") == Lookup(fs[1..], "content-transfer-encoding", "7bit")
  {}

  lemma OtherNames()
    ensures Lower("Content-Type") != "content-transfer-encoding"
    ensures Lower("Content-Disposition") != "content-transfer-encoding"
    ensures Lower("Content-ID") != "content-transfer-encoding"
  {}

  lemma AttachmentWf(a: Attachment)
    requires HeadersSafe(a)
    ensures Wf(AttachmentEntity(a))
  {
    AttachmentFieldsOk(a);
    AttachmentKind(a);
  }

  // ---- delimiters ----

  /** A line that does not begin with a hyphen is no delimiter. */
  lemma NoHyphen(l: string, b: string)
    requires l == "" || l[0] != '-'
    ensures !Delimits(l, b)
  {
    assert ("--" + b)[0] == '-';
  }

  /** Every field written here is a Content field. */
  predicate ContentFields(fs: seq<Field>) { forall f <- fs :: f.name != "" && f.name[0] == 'C' }

  lemma HeadUndelimited(e: Entity, b: string)
    requires ContentFields(e.fields) && Undelimited(RenderBody(e.body), b)
    ensures Undelimited(Render(e), b)
  {
    forall l | l in Render(e)
      ensures !Delimits(l, b)
    {
      if l in FieldLines(e.fields) {
        var i :| 0 <= i < |e.fields| && l == FieldLine(e.fields[i]);
        assert e.fields[i] in e.fields;
        NoHyphen(l, b);
      } else if l == "" {
        NoHyphen(l, b);
      } else {
        assert l in RenderBody(e.body);
      }
    }
  }

  /** Base64 lines are full but for the last, and never mistaken for a boundary. */
  lemma WrappedUndelimited(data: seq<byte>, b: string)
    ensures Undelimited(Wrapped(Encode(data)), b)
    ensures var ls := Wrapped(Encode(data));
            && (forall i :: 0 <= i < |ls| ==> 0 < |ls[i]| <= 76)
            && (forall i :: 0 <= i < |ls| - 1 ==> |ls[i]| == 76)
  {
    EncodePlain(data);
    forall l | l in Wrapped(Encode(data))
      ensures !Delimits(l, b)
    {
      assert Plain(l);
      NoHyphen(l, b);
    }
  }

  lemma TextUndelimited(f: Field, text: string, b: string)
    requires (f == PLAIN || f == HTML) && Avoids(text, b)
    ensures Undelimited(Render(TextEntity(f, text)), b)
  {
    HeadUndelimited(TextEntity(f, text), b);
  }

  lemma AttachmentUndelimited(a: Attachment, b: string)
    ensures Undelimited(Render(AttachmentEntity(a)), b)
  {
    WrappedUndelimited(a.data, b);
    HeadUndelimited(AttachmentEntity(a), b);
  }

  /** The inner boundary is not the outer one, nor begins with it. */
  lemma InnerIsNotOuter(c: Clock, rest: string)
    ensures !Delimits("--" + InnerBoundary(c) + rest, MixedBoundary(c))
  {
    var l, d := "--" + InnerBoundary(c) + rest, "--" + MixedBoundary(c);
    assert l[11] == "sendflow-alt-"[9] == 'a';
    assert d[11] == "sendflow-mixed-"[9] == 'm';
  }

  lemma AlternativeUndelimited(msg: Message, c: Clock)
    requires Avoids(msg.text, MixedBoundary(c)) && Avoids(msg.html, MixedBoundary(c))
    ensures Undelimited(Render(Alternative(msg, InnerBoundary(c))), MixedBoundary(c))
  {
    var outer, inner := MixedBoundary(c), InnerBoundary(c);
    var e := Alternative(msg, inner);
    TextUndelimited(PLAIN, msg.text, outer);
    TextUndelimited(HTML, msg.html, outer);
    InnerIsNotOuter(c, "");
    InnerIsNotOuter(c, "--");
    assert "--" + inner + "" == "--" + inner;
    FramedPair(inner, TextEntity(PLAIN, msg.text), TextEntity(HTML, msg.html));
    HeadUndelimited(e, outer);
  }

  lemma BoundariesQuotable(c: Clock)
    ensures NoReturn(MixedBoundary(c)) && '"' !in MixedBoundary(c)
    ensures NoReturn(InnerBoundary(c)) && '"' !in InnerBoundary(c)
    ensures NoReturn(SoleBoundary(c)) && '"' !in SoleBoundary(c)
  {
    DecimalParses(c.outer);
    DecimalParses(c.inner);
  }

  // ---- the round trip ----

  lemma TextWf(f: Field, text: string)
    requires f == PLAIN || f == HTML
    ensures Wf(TextEntity(f, text))
  {
    TextFieldOk(f);
  }

  lemma MultiWf(subtype: string, b: string, parts: seq<Entity>)
    requires NoReturn(subtype) && ';' !in subtype && NoReturn(b) && '"' !in b && parts != []
    requires forall i :: 0 <= i < |parts| ==> Wf(parts[i]) && Undelimited(Render(parts[i]), b)
    ensures Wf(MultiEntity(subtype, b, parts))
  {
    MultiFieldOk(subtype, b);
  }

  lemma AlternativeWf(msg: Message, b: string)
    requires NoReturn(b) && '"' !in b && Avoids(msg.text, b) && Avoids(msg.html, b)
    ensures Wf(Alternative(msg, b))
  {
    var x, y := TextEntity(PLAIN, msg.text), TextEntity(HTML, msg.html);
    TextWf(PLAIN, msg.text);
    TextWf(HTML, msg.html);
    TextUndelimited(PLAIN, msg.text, b);
    TextUndelimited(HTML, msg.html, b);
    MultiWf("alternative", b, [x, y]);
  }

  lemma SoleWf(msg: Message)
    ensures Wf(Sole(msg))
  {
    TextWf(PLAIN, msg.text);
    TextWf(HTML, msg.html);
  }

  lemma BodyWf(msg: Message, c: Clock)
    requires msg.attachments != [] && AvoidsBoundaries(msg, c)
    ensures Wf(BodyEntity(msg, c)) && Undelimited(Render(BodyEntity(msg, c)), MixedBoundary(c))
  {
    if msg.Both() {
      BoundariesQuotable(c);
      AlternativeWf(msg, InnerBoundary(c));
      AlternativeUndelimited(msg, c);
    } else {
      SoleWf(msg);
      if msg.html != "" {
        TextUndelimited(HTML, msg.html, MixedBoundary(c));
      } else {
        TextUndelimited(PLAIN, msg.text, MixedBoundary(c));
      }
    }
  }

  /** A part that can stand inside a multipart entity with that boundary. */
  predicate PartOk(e: Entity, b: string) { Wf(e) && Undelimited(Render(e), b) }

  lemma AttachmentsOk(atts: seq<Attachment>, b: string)
    requires forall a <- atts :: HeadersSafe(a)
    ensures forall e <- AttachmentEntities(atts) :: PartOk(e, b)
  {
    forall i | 0 <= i < |atts|
      ensures PartOk(AttachmentEntities(atts)[i], b)
    {
      AttachmentWf(atts[i]);
      AttachmentUndelimited(atts[i], b);
    }
  }

  lemma MixedWf(msg: Message, c: Clock)
    requires msg.attachments != [] && (forall a <- msg.attachments :: HeadersSafe(a)) && AvoidsBoundaries(msg, c)
    ensures Wf(MultiEntity("mixed", MixedBoundary(c), MixedParts(msg, c)))
  {
    var b := MixedBoundary(c);
    BoundariesQuotable(c);
    BodyWf(msg, c);
    AttachmentsOk(msg.attachments, b);
    forall i | 0 <= i < |MixedParts(msg, c)|
      ensures PartOk(MixedParts(msg, c)[i], b)
    {
      assert i > 0 ==> MixedParts(msg, c)[i] == AttachmentEntities(msg.attachments)[i - 1];
    }
    MultiWf("mixed", b, MixedParts(msg, c));
  }

  lemma MessageWf(msg: Message, c: Clock)
    requires (forall a <- msg.attachments :: HeadersSafe(a)) && AvoidsBoundaries(msg, c)
    ensures Wf(EntityOf(msg, c))
  {
    if msg.attachments != [] {
      MixedWf(msg, c);
    } else if msg.Both() {
      BoundariesQuotable(c);
      AlternativeWf(msg, SoleBoundary(c));
    } else {
      SoleWf(msg);
    }
  }

  lemma EntityReads(e: Entity)
    requires Wf(e)
    ensures DecodeMessage(if e.body.Multi? then Ended(Render(e)) else JoinCRLF(Render(e))) == Some(e)
  {
    var ls := Render(e);
    RenderedSingle(e);
    if e.body.Multi? {
      EndedThenText(ls, "");
      assert Ended(ls) + "" == Ended(ls);
      NoReturnIsSingle("");
      SplitJoin(ls + [""]);
      RenderedReads(e, [""]);
    } else {
      SplitJoin(ls);
      RenderedReads(e, []);
      assert ls + [] == ls;
    }
  }

  lemma ClearText(f: Field, text: string, b: string)
    requires TextsClear(TextEntity(f, text), b)
    ensures Avoids(text, b)
  {}

  lemma ClearPart(e: Entity, i: nat)
    requires Clear(e) && e.body.Multi? && i < |e.body.parts|
    ensures Clear(e.body.parts[i]) && TextsClear(e.body.parts[i], e.body.boundary)
  {
    assert PartsClear(e.body);
  }

  lemma ClearAlternative(msg: Message, b: string, outer: string)
    ensures Clear(Alternative(msg, b)) ==> Avoids(msg.text, b) && Avoids(msg.html, b)
    ensures TextsClear(Alternative(msg, b), outer) ==> Avoids(msg.text, outer) && Avoids(msg.html, outer)
  {
    var e := Alternative(msg, b);
    var parts := e.body.parts;
    assert parts[0] == TextEntity(PLAIN, msg.text) && parts[1] == TextEntity(HTML, msg.html);
    if Clear(e) {
      ClearPart(e, 0);
      ClearPart(e, 1);
      ClearText(PLAIN, msg.text, b);
      ClearText(HTML, msg.html, b);
    }
    if TextsClear(e, outer) {
      assert BodyClear(Multi(b, parts), outer);
      assert TextsClear(parts[0], outer) && TextsClear(parts[1], outer);
      ClearText(PLAIN, msg.text, outer);
      ClearText(HTML, msg.html, outer);
    }
  }

  lemma ClearAttachment(a: Attachment)
    requires Clear(AttachmentEntity(a))
    ensures HeadersSafe(a)
  {
    var fs := AttachmentFields(a);
    AttachmentKind(a);
    DispositionUnbroken(OrDefault(a.disposition, "attachment"), a.quotedName);
    IdUnbroken(a.contentID);
    assert NoLeadingSpace(fs[0].value) && Unbroken(fs[0].value);
    assert NoLeadingSpace(fs[1].value) && Unbroken(fs[1].value);
    if a.disposition != "" {
      assert fs[1].value[0] == a.disposition[0];
    }
    if a.contentID != "" {
      assert Unbroken(fs[2].value);
    }
  }

  lemma ClearAttachments(e: Entity, body: Entity, atts: seq<Attachment>)
    requires Clear(e) && e.body.Multi? && e.body.parts == [body] + AttachmentEntities(atts)
    ensures forall a <- atts :: HeadersSafe(a)
  {
    forall i | 0 <= i < |atts|
      ensures HeadersSafe(atts[i])
    {
      ClearPart(e, i + 1);
      ClearAttachment(atts[i]);
    }
  }

  lemma ClearMixedBody(msg: Message, c: Clock)
    requires msg.attachments != [] && Clear(BodyEntity(msg, c)) && TextsClear(BodyEntity(msg, c), MixedBoundary(c))
    ensures AvoidsBoundaries(msg, c)
  {
    var b := MixedBoundary(c);
    if msg.Both() {
      ClearAlternative(msg, InnerBoundary(c), b);
    } else {
      NoHyphen("", b);
      if msg.html != "" {
        ClearText(HTML, msg.html, b);
      } else {
        ClearText(PLAIN, msg.text, b);
      }
    }
  }

  lemma ClearMessage(msg: Message, c: Clock)
    requires Clear(EntityOf(msg, c))
    ensures AvoidsBoundaries(msg, c) && forall a <- msg.attachments :: HeadersSafe(a)
  {
    if msg.attachments != [] {
      var e := MultiEntity("mixed", MixedBoundary(c), MixedParts(msg, c));
      ClearPart(e, 0);
      ClearMixedBody(msg, c);
      ClearAttachments(e, BodyEntity(msg, c), msg.attachments);
    } else if msg.Both() {
      ClearAlternative(msg, SoleBoundary(c), "");
    }
  }

  /**
   A reader of the message gets back exactly its structure, field values, text, HTML and attachment bytes
   if and only if no line of the text or the HTML begins with a delimiter written around it, and no
   attachment's field text holds a line break, begins with a space or announces a multipart type.
   */
  lemma RoundTripIff(msg: Message, c: Clock)
    ensures DecodeMessage(MessageText(msg, c)) == Some(EntityOf(msg, c)) <==>
              AvoidsBoundaries(msg, c) && forall a <- msg.attachments :: HeadersSafe(a)
  {
    if AvoidsBoundaries(msg, c) && forall a <- msg.attachments :: HeadersSafe(a) {
      MessageWf(msg, c);
      EntityReads(EntityOf(msg, c));
    }
    if DecodeMessage(MessageText(msg, c)) == Some(EntityOf(msg, c)) {
      SplitIsSingle(MessageText(msg, c));
      DecodedIsClear(SplitCRLF(MessageText(msg, c)));
      ClearMessage(msg, c);
    }
  }

  // ---- what a reader sees, in the words of the wire ----

  /** A message with one text announces it for what it is and delivers it, whatever it holds. */
  lemma ReadsSingleText(msg: Message, c: Clock)
    requires msg.attachments == [] && (msg.text == "" || msg.html == "")
    ensures msg.html != "" ==>
              DecodeMessage(MessageText(msg, c)) ==
                Some(Entity([Field("Content-Type", "text/html; charset=UTF-8")], Text(msg.html)))
    ensures msg.html == "" ==>
              DecodeMessage(MessageText(msg, c)) ==
                Some(Entity([Field("Content-Type", "text/plain; charset=UTF-8")], Text(msg.text)))
  {
    RoundTripIff(msg, c);
  }

  /** The two alternatives: the plain text first, then the HTML. */
  predicate IsAlternative(e: Entity, b: string, text: string, html: string) {
    e == Entity(
           [Field("Content-Type", "multipart/alternative; boundary=\"" + b + "\"")],
           Multi(b, [Entity([Field("Content-Type", "text/plain; charset=UTF-8")], Text(text)),
                     Entity([Field("Content-Type", "text/html; charset=UTF-8")], Text(html))]))
  }

  lemma AlternativeField(b: string)
    ensures MultiField("alternative", b) == Field("Content-Type", "multipart/alternative; boundary=\"" + b + "\"")
  {
    assert "multipart/" + "alternative" + "; boundary=\"" == "multipart/alternative; boundary=\"";
  }

  lemma MixedField(b: string)
    ensures MultiField("mixed", b) == Field("Content-Type", "multipart/mixed; boundary=\"" + b + "\"")
  {
    assert "multipart/" + "mixed" + "; boundary=\"" == "multipart/mixed; boundary=\"";
  }

  lemma AlternativeIs(msg: Message, b: string)
    ensures IsAlternative(Alternative(msg, b), b, msg.text, msg.html)
  {
    AlternativeField(b);
  }

  /** A message with both texts and no attachment. */
  lemma ReadsAlternatives(msg: Message, c: Clock)
    requires msg.attachments == [] && msg.text != "" && msg.html != ""
    requires Avoids(msg.text, "sendflow-" + Decimal(c.outer)) && Avoids(msg.html, "sendflow-" + Decimal(c.outer))
    ensures var d := DecodeMessage(MessageText(msg, c));
            d.Some? && IsAlternative(d.value, "sendflow-" + Decimal(c.outer), msg.text, msg.html)
  {
    RoundTripIff(msg, c);
    AlternativeIs(msg, SoleBoundary(c));
  }

  /** The part an attachment becomes: its type, its disposition and quoted name, its id if it has one, its bytes. */
  predicate IsAttachment(e: Entity, a: Attachment) {
    && |e.fields| == (if a.contentID == "" then 3 else 4)
    && e.fields[0] == Field("Content-Type", if a.contentType == "" then "application/octet-stream" else a.contentType)
    && e.fields[1] == Field("Content-Disposition",
                            (if a.disposition == "" then "attachment" else a.disposition) + "; filename=" + a.quotedName)
    && (a.contentID != "" ==> e.fields[2] == Field("Content-ID", "<" + a.contentID + ">"))
    && e.fields[|e.fields| - 1] == Field("Content-Transfer-Encoding", "base64")
    && e.body == Binary(a.data)
  }

  lemma AttachmentIs(a: Attachment)
    ensures IsAttachment(AttachmentEntity(a), a)
  {}

  /** The part the texts become. */
  predicate IsTextPart(e: Entity, msg: Message, inner: string) {
    if msg.text != "" && msg.html != "" then IsAlternative(e, inner, msg.text, msg.html)
    else if msg.html != "" then e == Entity([Field("Content-Type", "text/html; charset=UTF-8")], Text(msg.html))
    else e == Entity([Field("Content-Type", "text/plain; charset=UTF-8")], Text(msg.text))
  }

  lemma TextPartIs(msg: Message, c: Clock)
    ensures IsTextPart(BodyEntity(msg, c), msg, "sendflow-alt-" + Decimal(c.inner))
  {
    AlternativeIs(msg, InnerBoundary(c));
  }

  /** A message with attachments: the texts, then every attachment in order. */
  lemma ReadsMixed(msg: Message, c: Clock)
    requires msg.attachments != [] && AvoidsBoundaries(msg, c) && forall a <- msg.attachments :: HeadersSafe(a)
    ensures var d := DecodeMessage(MessageText(msg, c));
            var b := "sendflow-mixed-" + Decimal(c.outer);
            && d.Some? && d.value.fields == [Field("Content-Type", "multipart/mixed; boundary=\"" + b + "\"")]
            && d.value.body.Multi? && d.value.body.boundary == b
            && |d.value.body.parts| == 1 + |msg.attachments|
            && IsTextPart(d.value.body.parts[0], msg, "sendflow-alt-" + Decimal(c.inner))
            && forall k :: 0 <= k < |msg.attachments| ==> IsAttachment(d.value.body.parts[1 + k], msg.attachments[k])
  {
    RoundTripIff(msg, c);
    MixedField(MixedBoundary(c));
    TextPartIs(msg, c);
    forall k | 0 <= k < |msg.attachments|
      ensures IsAttachment(MixedParts(msg, c)[1 + k], msg.attachments[k])
    {
      AttachmentIs(msg.attachments[k]);
    }
  }
}
