/** The paginated CSV and JSON export streams (internal/apps/worker/audience_export_processor.go). */
module AudienceExport {
  import opened GoStrings

  datatype Contact = Contact(
    email: string, firstName: string, lastName: string, status: string, tags: seq<string>,
    createdAt: string, updatedAt: string, attributes: map<string, string>)

  /** A JSON cell keeps tags as a list; every other cell is text. */
  datatype Cell = Text(s: string) | List(items: seq<string>)

  /** A ListContacts call: a page and the cursor of the next one ("" on the last), or an error. */
  datatype Page = Page(contacts: seq<Contact>, next: string) | ListError

  /** What the job fixes: the selected fields, the segment filter, lower-casing, and the outcome of
      reporting each progress count. */
  datatype Job = Job(
    fields: seq<string>, hasRules: bool, matches: Contact -> bool, lower: string -> string, progressOk: nat -> bool)

  /** How one write to the output ends. A failed one may have put out nothing, a part, or all of its bytes. */
  datatype Write = Done | Failed(reached: Reached)

  datatype Reached = Nothing | Part | All

  /** The outcome of each write to the output, and of each flush of the CSV writer, by number. */
  datatype Sink = Sink(write: nat -> Write, flushOk: nat -> bool)

  const DEFAULT_FIELDS := ["email", "first_name", "last_name", "status", "tags", "created_at"]

  function Fields(job: Job): seq<string> { if job.fields == [] then DEFAULT_FIELDS else job.fields }

  function Selected(job: Job, c: Contact): bool { !job.hasRules || job.matches(c) }

  function Join(tags: seq<string>): string {
    if tags == [] then "" else if |tags| == 1 then tags[0] else tags[0] + "," + Join(tags[1..])
  }

  function CsvCell(job: Job, c: Contact, f: string): string {
    match job.lower(f)
    case "email" => c.email
    case "first_name" => c.firstName
    case "last_name" => c.lastName
    case "status" => c.status
    case "tags" => Join(c.tags)
    case "created_at" => c.createdAt
    case "updated_at" => c.updatedAt
    case _ => if f in c.attributes then c.attributes[f] else ""
  }

  function CsvRow(job: Job, c: Contact): seq<string> {
    var fs := Fields(job);
    seq(|fs|, i requires 0 <= i < |fs| => CsvCell(job, c, fs[i]))
  }

  /** A field that is neither built in nor an attribute of the contact is left out of its object. */
  predicate HasCell(job: Job, c: Contact, f: string) {
    job.lower(f) in {"email", "first_name", "last_name", "status", "tags", "created_at", "updated_at"} || f in c.attributes
  }

  function JsonRow(job: Job, c: Contact): map<string, Cell> {
    map f | f in Fields(job) && HasCell(job, c, f) ::
      if job.lower(f) == "tags" then List(c.tags) else Text(CsvCell(job, c, f))
  }

  // ---- the cursor chain ----

  /** Following cursors from here stops after n + 1 calls, at a last page or an error. */
  ghost predicate Chain(list: string -> Page, cursor: string, n: nat)
    decreases n
  {
    list(cursor).ListError? || list(cursor).next == "" || (n > 0 && Chain(list, list(cursor).next, n - 1))
  }

  /** The contacts of the chain's pages, in order. */
  ghost function Listed(list: string -> Page, cursor: string, n: nat): seq<Contact>
    requires Chain(list, cursor, n)
    decreases n
  {
    var p := list(cursor);
    if p.ListError? then [] else if p.next == "" then p.contacts else p.contacts + Listed(list, p.next, n - 1)
  }

  ghost predicate NoListError(list: string -> Page, cursor: string, n: nat)
    requires Chain(list, cursor, n)
    decreases n
  {
    var p := list(cursor);
    p.Page? && (p.next == "" || NoListError(list, p.next, n - 1))
  }

  /** Where a walk along the chain stands: seen so far, and still to come. */
  ghost predicate Walk(list: string -> Page, start: string, n: nat, cursor: string, m: nat, seen: seq<Contact>) {
    && Chain(list, start, n) && Chain(list, cursor, m)
    && seen + Listed(list, cursor, m) == Listed(list, start, n)
    && (NoListError(list, start, n) <==> NoListError(list, cursor, m))
  }

  lemma WalkOn(list: string -> Page, start: string, n: nat, cursor: string, m: nat, seen: seq<Contact>)
    requires Walk(list, start, n, cursor, m, seen) && list(cursor).Page?
    ensures var p := list(cursor);
            if p.next == "" then seen + p.contacts == Listed(list, start, n) && NoListError(list, start, n)
            else m > 0 && Walk(list, start, n, p.next, m - 1, seen + p.contacts)
  {
    var p := list(cursor);
    if p.next != "" {
      assert seen + (p.contacts + Listed(list, p.next, m - 1)) == (seen + p.contacts) + Listed(list, p.next, m - 1);
    }
  }

  function Select(job: Job, cs: seq<Contact>): seq<Contact> {
    if cs == [] then []
    else Select(job, cs[..|cs| - 1]) + (if Selected(job, cs[|cs| - 1]) then [cs[|cs| - 1]] else [])
  }

  lemma SelectAppend(job: Job, cs: seq<Contact>, c: Contact)
    ensures Select(job, cs + [c]) == Select(job, cs) + (if Selected(job, c) then [c] else [])
  {
    assert (cs + [c])[..|cs|] == cs;
  }

  // ---- the JSON stream ----

  /** Torn stands for the bytes of a token that was not written whole. */
  datatype Token = Open | Comma | Close | Object(row: map<string, Cell>) | Torn

  /** An array not yet closed. */
  function OpenArray(job: Job, cs: seq<Contact>): seq<Token> {
    if cs == [] then [Open]
    else
      var n := |cs| - 1;
      OpenArray(job, cs[..n]) + (if n == 0 then [] else [Comma]) + [Object(JsonRow(job, cs[n]))]
  }

  lemma OpenArrayAppend(job: Job, cs: seq<Contact>, c: Contact)
    ensures OpenArray(job, cs + [c]) == OpenArray(job, cs) + (if cs == [] then [] else [Comma]) + [Object(JsonRow(job, c))]
  {
    assert (cs + [c])[..|cs|] == cs;
  }

  datatype Parsed = Rows(rows: seq<map<string, Cell>>) | Malformed

  /** The elements after the first, up to and including the closing bracket. */
  function ParseRest(ts: seq<Token>): Parsed {
    if |ts| == 1 && ts[0] == Close then Rows([])
    else if |ts| >= 2 && ts[0] == Comma && ts[1].Object? then
      match ParseRest(ts[2..])
      case Rows(rs) => Rows([ts[1].row] + rs)
      case Malformed => Malformed
    else Malformed
  }

  /** A JSON array, whole: brackets, elements separated by single commas, nothing after. */
  function ParseArray(ts: seq<Token>): Parsed {
    if |ts| < 2 || ts[0] != Open then Malformed
    else if ts[1].Object? then
      match ParseRest(ts[2..])
      case Rows(rs) => Rows([ts[1].row] + rs)
      case Malformed => Malformed
    else if ts[1..] == [Close] then Rows([])
    else Malformed
  }

  function JsonRows(job: Job, cs: seq<Contact>): seq<map<string, Cell>> {
    seq(|cs|, i requires 0 <= i < |cs| => JsonRow(job, cs[i]))
  }

  /** The tail of an array whose first element has been written. */
  function Tail(rows: seq<map<string, Cell>>): seq<Token> {
    if rows == [] then [] else [Comma, Object(rows[0])] + Tail(rows[1..])
  }

  lemma {:induction false} TailAppend(rows: seq<map<string, Cell>>, r: map<string, Cell>)
    ensures Tail(rows + [r]) == Tail(rows) + [Comma, Object(r)]
    decreases |rows|
  {
    if rows == [] {
      assert rows + [r] == [r];
    } else {
      assert (rows + [r])[1..] == rows[1..] + [r];
      TailAppend(rows[1..], r);
    }
  }

  lemma {:induction false} OpenArrayTail(job: Job, cs: seq<Contact>)
    requires cs != []
    ensures OpenArray(job, cs) == [Open, Object(JsonRow(job, cs[0]))] + Tail(JsonRows(job, cs)[1..])
    decreases |cs|
  {
    var n := |cs| - 1;
    if n > 0 {
      OpenArrayTail(job, cs[..n]);
      assert JsonRows(job, cs)[1..] == JsonRows(job, cs[..n])[1..] + [JsonRow(job, cs[n])];
      TailAppend(JsonRows(job, cs[..n])[1..], JsonRow(job, cs[n]));
    } else {
      assert cs[..0] == [] && JsonRows(job, cs)[1..] == [];
    }
  }

  lemma {:induction false} ParseTail(rows: seq<map<string, Cell>>)
    ensures ParseRest(Tail(rows) + [Close]) == Rows(rows)
    ensures ParseRest(Tail(rows)) == Malformed
    decreases |rows|
  {
    if rows != [] {
      ParseTail(rows[1..]);
      assert (Tail(rows) + [Close])[2..] == Tail(rows[1..]) + [Close];
      assert Tail(rows)[2..] == Tail(rows[1..]);
    } else {
      assert Tail(rows) + [Close] == [Close];
    }
  }

  /** A closed stream parses to exactly its rows; an unclosed one does not parse at all. */
  lemma ArrayRoundTrip(job: Job, cs: seq<Contact>)
    ensures ParseArray(OpenArray(job, cs) + [Close]) == Rows(JsonRows(job, cs))
    ensures ParseArray(OpenArray(job, cs)) == Malformed
  {
    if cs != [] {
      OpenArrayTail(job, cs);
      var rows := JsonRows(job, cs);
      ParseTail(rows[1..]);
      var open := OpenArray(job, cs);
      assert (open + [Close])[2..] == Tail(rows[1..]) + [Close];
      assert open[2..] == Tail(rows[1..]);
      assert rows == [rows[0]] + rows[1..];
    } else {
      assert OpenArray(job, cs) + [Close] == [Open, Close];
    }
  }

  predicate Unclosed(ts: seq<Token>) { ts == [] || ts[|ts| - 1] != Close }

  lemma {:induction false} RestUnclosed(ts: seq<Token>)
    requires Unclosed(ts)
    ensures ParseRest(ts) == Malformed
    decreases |ts|
  {
    if |ts| < 2 {
    } else {
      RestUnclosed(ts[2..]);
    }
  }

  /** Output that does not end with the closing bracket is never taken for complete. */
  lemma UnclosedMalformed(ts: seq<Token>)
    requires Unclosed(ts)
    ensures ParseArray(ts) == Malformed
  {
    if |ts| >= 2 {
      RestUnclosed(ts[2..]);
    }
  }

  lemma OpenArrayUnclosed(job: Job, cs: seq<Contact>)
    ensures Unclosed(OpenArray(job, cs))
  {}

  predicate NonDecreasing(s: seq<nat>) { forall i, j :: 0 <= i < j < |s| ==> s[i] <= s[j] }

  /** Progress reports never decrease, and never run ahead of the count. */
  predicate Reported(progress: seq<nat>, rowCount: nat) {
    NonDecreasing(progress) && forall k :: 0 <= k < |progress| ==> progress[k] <= rowCount
  }

  lemma ReportMore(progress: seq<nat>, before: nat, now: nat)
    requires Reported(progress, before) && before <= now
    ensures Reported(progress, now) && Reported(progress + [now], now)
  {}

  ghost predicate JsonState(job: Job, seen: seq<Contact>, out: seq<Token>, first: bool, rowCount: nat) {
    var cs := Select(job, seen);
    out == OpenArray(job, cs) && rowCount == |cs| && first == (cs == [])
  }

  /** However the write of the closing bracket ends. */
  lemma ClosedOrMalformed(
    job: Job, seen: seq<Contact>, open: seq<Token>, first: bool, rowCount: nat, out: seq<Token>)
    requires JsonState(job, seen, open, first, rowCount)
    requires out == open || out == open + [Torn] || out == open + [Close]
    ensures if out == open + [Close] then ParseArray(out) == Rows(JsonRows(job, Select(job, seen)))
            else ParseArray(out) == Malformed
  {
    ArrayRoundTrip(job, Select(job, seen));
    if out != open + [Close] {
      OpenArrayUnclosed(job, Select(job, seen));
      UnclosedMalformed(out);
    }
  }

  /** One write of one token. */
  method Put(sink: Sink, out0: seq<Token>, n: nat, t: Token) returns (out: seq<Token>, ok: bool)
    ensures ok ==> out == out0 + [t]
    ensures !ok ==> out == out0 || out == out0 + [Torn] || out == out0 + [t]
  {
    match sink.write(n)
    case Done => return out0 + [t], true;
    case Failed(reached) =>
      out := match reached case Nothing => out0 case Part => out0 + [Torn] case All => out0 + [t];
      ok := false;
  }

  /** One selected contact: its comma, unless it is the first, and its object. */
  method PutContact(job: Job, sink: Sink, c: Contact, ghost cs: seq<Contact>, out0: seq<Token>, first: bool, n0: nat)
    returns (out: seq<Token>, n: nat, ok: bool)
    requires out0 == OpenArray(job, cs) && first == (cs == [])
    ensures ok ==> out == OpenArray(job, cs + [c])
    ensures !ok ==> Unclosed(out)
  {
    OpenArrayAppend(job, cs, c);
    OpenArrayUnclosed(job, cs);
    out, n, ok := out0, n0, true;
    if !first {
      out, ok := Put(sink, out, n, Comma);
      n := n + 1;
      if !ok {
        return;
      }
    } else {
      assert out0 + [] == out0;
    }
    out, ok := Put(sink, out, n, Object(JsonRow(job, c)));
    n := n + 1;
  }

  method JsonPage(
    job: Job, sink: Sink, contacts: seq<Contact>, ghost seen: seq<Contact>,
    out0: seq<Token>, first0: bool, count0: nat, n0: nat)
    returns (out: seq<Token>, first: bool, rowCount: nat, n: nat, ok: bool)
    requires JsonState(job, seen, out0, first0, count0)
    ensures rowCount >= count0
    ensures ok ==> JsonState(job, seen + contacts, out, first, rowCount)
    ensures !ok ==> Unclosed(out)
  {
    out, first, rowCount, n, ok := out0, first0, count0, n0, true;
    assert seen + contacts[..0] == seen;
    for i := 0 to |contacts|
      invariant JsonState(job, seen + contacts[..i], out, first, rowCount) && rowCount >= count0 && ok
    {
      var c := contacts[i];
      ghost var sofar := seen + contacts[..i];
      assert seen + contacts[..i + 1] == sofar + [c];
      SelectAppend(job, sofar, c);
      if Selected(job, c) {
        out, n, ok := PutContact(job, sink, c, Select(job, sofar), out, first, n);
        first := false;
        if !ok {
          return;
        }
        rowCount := rowCount + 1;
      } else {
        assert Select(job, sofar + [c]) == Select(job, sofar);
      }
    }
    assert contacts[..|contacts|] == contacts;
  }

  ghost predicate CsvState(job: Job, seen: seq<Contact>, records: seq<seq<string>>, rowCount: nat) {
    CsvPrefix(job, seen, records, rowCount) && rowCount == |Select(job, seen)|
  }

  /** The header and one record for each of the first rowCount selected contacts. */
  ghost predicate CsvPrefix(job: Job, seen: seq<Contact>, records: seq<seq<string>>, rowCount: nat) {
    var cs := Select(job, seen);
    && |records| == 1 + rowCount && rowCount <= |cs| && records[0] == Fields(job)
    && forall k :: 0 <= k < rowCount ==> records[1 + k] == CsvRow(job, cs[k])
  }

  lemma {:induction false} SelectPrefix(job: Job, a: seq<Contact>, b: seq<Contact>)
    ensures Select(job, a) <= Select(job, a + b)
    decreases |b|
  {
    if b == [] {
      assert a + b == a;
    } else {
      var n := |b| - 1;
      SelectPrefix(job, a, b[..n]);
      assert a + b == (a + b[..n]) + [b[n]];
      SelectAppend(job, a + b[..n], b[n]);
    }
  }

  lemma CsvPrefixGrows(job: Job, a: seq<Contact>, b: seq<Contact>, records: seq<seq<string>>, rowCount: nat)
    requires CsvPrefix(job, a, records, rowCount)
    ensures CsvPrefix(job, a + b, records, rowCount)
  {
    SelectPrefix(job, a, b);
  }

  method CsvPage(
    job: Job, sink: Sink, contacts: seq<Contact>, ghost seen: seq<Contact>, records0: seq<seq<string>>, count0: nat)
    returns (records: seq<seq<string>>, rowCount: nat, ok: bool)
    requires CsvState(job, seen, records0, count0)
    ensures rowCount >= count0 && CsvPrefix(job, seen + contacts, records, rowCount)
    ensures ok ==> CsvState(job, seen + contacts, records, rowCount)
  {
    records, rowCount, ok := records0, count0, true;
    assert seen + contacts[..0] == seen;
    for i := 0 to |contacts|
      invariant CsvState(job, seen + contacts[..i], records, rowCount) && rowCount >= count0 && ok
    {
      var c := contacts[i];
      assert seen + contacts[..i + 1] == (seen + contacts[..i]) + [c];
      SelectAppend(job, seen + contacts[..i], c);
      if Selected(job, c) {
        if sink.write(2 + rowCount).Failed? {
          CsvPrefixGrows(job, seen + contacts[..i], contacts[i..], records, rowCount);
          assert seen + contacts[..i] + contacts[i..] == seen + contacts;
          return records, rowCount, false;
        }
        records := records + [CsvRow(job, c)];
        rowCount := rowCount + 1;
      }
    }
    assert contacts[..|contacts|] == contacts;
  }

  /** The page loop of writeJSONStream: follow the cursors, filter, write each object after its comma, report
      progress once a page. */
  method WritePages(job: Job, sink: Sink, list: string -> Page, start: string, ghost n: nat)
    returns (out: seq<Token>, writes: nat, progress: seq<nat>, rowCount: nat, ghost first: bool, ok: bool)
    requires Chain(list, start, n)
    ensures ok ==> JsonState(job, Listed(list, start, n), out, first, rowCount) && NoListError(list, start, n)
    ensures !ok ==> Unclosed(out)
    ensures Reported(progress, rowCount)
    ensures ok ==> progress != [] && progress[|progress| - 1] == rowCount
  {
    var cursor, isFirst := start, true;
    ghost var m, seen: seq<Contact> := n, [];
    out, writes, progress, rowCount, first, ok := [Open], 1, [], 0, true, true;
    while true
      invariant Walk(list, start, n, cursor, m, seen)
      invariant JsonState(job, seen, out, isFirst, rowCount)
      invariant Reported(progress, rowCount)
      decreases m
    {
      OpenArrayUnclosed(job, Select(job, seen));
      var page := list(cursor);
      if page.ListError? {
        ok := false;
        return;
      }
      ghost var before := rowCount;
      out, isFirst, rowCount, writes, ok := JsonPage(job, sink, page.contacts, seen, out, isFirst, rowCount, writes);
      ReportMore(progress, before, rowCount);
      if !ok {
        return;
      }
      WalkOn(list, start, n, cursor, m, seen);
      seen, first := seen + page.contacts, isFirst;
      if !job.progressOk(rowCount) {
        OpenArrayUnclosed(job, Select(job, seen));
        ok := false;
        return;
      }
      progress := progress + [rowCount];
      if page.next == "" {
        break;
      }
      cursor, m := page.next, m - 1;
    }
  }

  /** writeJSONStream. Success means a well-formed array of exactly the selected contacts. After a failure,
      of the listing, a write or a report, the output is either malformed or, if only the success of the
      last write went unreported, that same array: never a shorter one. */
  method WriteJson(job: Job, sink: Sink, list: string -> Page, start: string, ghost n: nat)
    returns (out: seq<Token>, progress: seq<nat>, rowCount: nat, ok: bool)
    requires Chain(list, start, n)
    ensures var cs := Select(job, Listed(list, start, n));
            var complete := ParseArray(out) == Rows(JsonRows(job, cs)) && rowCount == |cs| && NoListError(list, start, n);
            if ok then complete else ParseArray(out) == Malformed || complete
    ensures Reported(progress, rowCount)
    ensures ok ==> progress != [] && progress[|progress| - 1] == rowCount
  {
    out, ok := Put(sink, [], 0, Open);
    if !ok {
      UnclosedMalformed(out);
      return out, [], 0, false;
    }
    var writes: nat;
    ghost var first: bool;
    out, writes, progress, rowCount, first, ok := WritePages(job, sink, list, start, n);
    if !ok {
      UnclosedMalformed(out);
      return;
    }
    ghost var open := out;
    out, ok := Put(sink, out, writes, Close);
    ClosedOrMalformed(job, Listed(list, start, n), open, first, rowCount, out);
  }

  /** writeCSVStream: the same walk; the byte order mark and the header, then one record per selected
      contact, flushed once a page. Records are those the CSV writer accepted: all of them on success, and
      on any failure a prefix. */
  method WriteCsv(job: Job, sink: Sink, list: string -> Page, start: string, ghost n: nat)
    returns (records: seq<seq<string>>, progress: seq<nat>, rowCount: nat, ok: bool)
    requires Chain(list, start, n)
    ensures if records == [] then rowCount == 0 && !ok else CsvPrefix(job, Listed(list, start, n), records, rowCount)
    ensures ok ==> NoListError(list, start, n) && rowCount == |Select(job, Listed(list, start, n))|
    ensures Reported(progress, rowCount)
    ensures ok ==> progress != [] && progress[|progress| - 1] == rowCount
  {
    var cursor, flushes := start, 0;
    ghost var m, seen: seq<Contact> := n, [];
    records, progress, rowCount := [], [], 0;
    if sink.write(0).Failed? || sink.write(1).Failed? {
      return records, progress, rowCount, false;
    }
    records := [Fields(job)];
    while true
      invariant Walk(list, start, n, cursor, m, seen)
      invariant CsvState(job, seen, records, rowCount)
      invariant Reported(progress, rowCount)
      decreases m
    {
      ghost var rest := Listed(list, cursor, m);
      var page := list(cursor);
      if page.ListError? {
        CsvPrefixGrows(job, seen, rest, records, rowCount);
        return records, progress, rowCount, false;
      }
      ghost var before := rowCount;
      records, rowCount, ok := CsvPage(job, sink, page.contacts, seen, records, rowCount);
      ReportMore(progress, before, rowCount);
      WalkOn(list, start, n, cursor, m, seen);
      seen := seen + page.contacts;
      rest := if page.next == "" then [] else Listed(list, page.next, m - 1);
      assert seen + rest == Listed(list, start, n);
      CsvPrefixGrows(job, seen, rest, records, rowCount);
      flushes := flushes + 1;
      if !ok || !sink.flushOk(flushes) || !job.progressOk(rowCount) {
        return records, progress, rowCount, false;
      }
      progress := progress + [rowCount];
      if page.next == "" {
        break;
      }
      cursor, m := page.next, m - 1;
    }
    ok := true;
  }

  // ---- which contacts, which columns ----

  /** A contact is exported exactly when it was listed and, if there are rules, matches them; and in that order. */
  lemma {:induction false} SelectedContacts(job: Job, cs: seq<Contact>)
    ensures forall c :: c in Select(job, cs) <==> c in cs && (job.hasRules ==> job.matches(c))
    ensures (forall c <- cs :: !job.hasRules || job.matches(c)) ==> Select(job, cs) == cs
    decreases |cs|
  {
    if cs == [] {
    } else {
      var n := |cs| - 1;
      SelectedContacts(job, cs[..n]);
      assert cs == cs[..n] + [cs[n]];
    }
  }

  /** Each column by the name of its field, whatever the case it is written in. */
  lemma ColumnsByName(job: Job, c: Contact, f: string)
    ensures job.lower(f) == "email" ==> CsvCell(job, c, f) == c.email
    ensures job.lower(f) == "first_name" ==> CsvCell(job, c, f) == c.firstName
    ensures job.lower(f) == "last_name" ==> CsvCell(job, c, f) == c.lastName
    ensures job.lower(f) == "status" ==> CsvCell(job, c, f) == c.status
    ensures job.lower(f) == "created_at" ==> CsvCell(job, c, f) == c.createdAt
    ensures job.lower(f) == "updated_at" ==> CsvCell(job, c, f) == c.updatedAt
    ensures job.lower(f) == "tags" ==> CsvCell(job, c, f) == JoinComma(c.tags)
    ensures job.lower(f) !in {"email", "first_name", "last_name", "status", "created_at", "updated_at", "tags"} ==>
              CsvCell(job, c, f) == if f in c.attributes then c.attributes[f] else ""
  {
    JoinIsJoinComma(c.tags);
  }

  lemma {:induction false} JoinFirst(t: string, tags: seq<string>)
    requires tags != []
    ensures JoinComma([t] + tags) == t + "," + JoinComma(tags)
    decreases |tags|
  {
    var n := |tags| - 1;
    assert ([t] + tags)[..n + 1] == [t] + tags[..n];
    if n == 0 {
      assert [t] + tags[..0] == [t];
    } else {
      JoinFirst(t, tags[..n]);
      assert t + "," + JoinComma(tags[..n]) + "," + tags[n] == t + "," + (JoinComma(tags[..n]) + "," + tags[n]);
    }
  }

  lemma {:induction false} JoinIsJoinComma(tags: seq<string>)
    ensures Join(tags) == JoinComma(tags)
    decreases |tags|
  {
    if |tags| <= 1 {
    } else {
      JoinIsJoinComma(tags[1..]);
      JoinFirst(tags[0], tags[1..]);
      assert [tags[0]] + tags[1..] == tags;
    }
  }

  /** A record has one cell per selected field, in order; six fields are selected when none are named. */
  lemma RecordCells(job: Job, c: Contact)
    ensures var fs := if job.fields == [] then ["email", "first_name", "last_name", "status", "tags", "created_at"]
                      else job.fields;
            && Fields(job) == fs && |CsvRow(job, c)| == |fs|
            && forall i :: 0 <= i < |fs| ==> CsvRow(job, c)[i] == CsvCell(job, c, fs[i])
  {}

  /** An object has the selected fields that the contact has a value for: tags as a list, the rest as in the CSV. */
  lemma ObjectCells(job: Job, c: Contact, f: string)
    ensures f in JsonRow(job, c) <==>
              && f in Fields(job)
              && (|| job.lower(f) in {"email", "first_name", "last_name", "status", "created_at", "updated_at", "tags"}
                  || f in c.attributes)
    ensures f in JsonRow(job, c) && job.lower(f) == "tags" ==> JsonRow(job, c)[f] == List(c.tags)
    ensures f in JsonRow(job, c) && job.lower(f) != "tags" ==> JsonRow(job, c)[f] == Text(CsvCell(job, c, f))
  {}
}
