/**
 Audience import (internal/apps/worker/audience_import_processor.go): parsing rows, upserting
 contacts by normalized email, and the counts a job reports.

 A workspace's contacts are kept by normalized email, as the unique index of the contacts table
 does; lookups see earlier writes.
 */
module AudienceImport {
  import opened Collections
  import opened GoStrings

  type Row = map<string, string>

  datatype Contact = Contact(
    id: string, email: string, firstName: string, lastName: string, tags: seq<string>,
    attributes: map<string, string>, createdAt: nat, updatedAt: nat)

  type Contacts = map<string, Contact>

  /** Dedupe mode, and Unicode lower-casing (left uninterpreted). */
  datatype Job = Job(dedupeByEmail: bool, lower: string -> string)

  function Get(row: Row, k: string): string { if k in row then row[k] else "" }

  // ---- tags ----

  function AddTag(acc: seq<string>, t: string): seq<string> {
    var u := Trim(t);
    if u == "" || u in acc then acc else acc + [u]
  }

  function AddTags(acc: seq<string>, ts: seq<string>): seq<string> {
    if ts == [] then acc else AddTag(AddTags(acc, ts[..|ts| - 1]), ts[|ts| - 1])
  }

  /** Trimmed, non-empty and without repetition. */
  predicate Canonical(ts: seq<string>) {
    && (forall i :: 0 <= i < |ts| ==> ts[i] != "" && Trim(ts[i]) == ts[i])
    && (forall i, j :: 0 <= i < j < |ts| ==> ts[i] != ts[j])
  }

  /** acc already holds every tag of ts. */
  predicate Holds(acc: seq<string>, ts: seq<string>) {
    forall i :: 0 <= i < |ts| ==> Trim(ts[i]) == "" || Trim(ts[i]) in acc
  }

  lemma AddTagFacts(acc: seq<string>, t: string)
    ensures acc <= AddTag(acc, t) && (Trim(t) == "" || Trim(t) in AddTag(acc, t))
    ensures Canonical(acc) ==> Canonical(AddTag(acc, t))
  {
    TrimTwice(t);
    var u := Trim(t);
    if Canonical(acc) && u != "" && u !in acc {
      CanonicalMore(acc, u);
    }
  }

  lemma CanonicalMore(acc: seq<string>, u: string)
    requires Canonical(acc) && u != "" && Trim(u) == u && u !in acc
    ensures Canonical(acc + [u])
  {
    forall i, j | 0 <= i < j < |acc + [u]| ensures (acc + [u])[i] != (acc + [u])[j] {
      assert acc[i] in acc;
    }
  }

  lemma HoldsMore(acc: seq<string>, ts: seq<string>, t: string)
    requires Holds(acc, ts)
    ensures Holds(AddTag(acc, t), ts + [t])
  {
    AddTagFacts(acc, t);
    var more := AddTag(acc, t);
    forall i | 0 <= i < |ts + [t]| ensures Trim((ts + [t])[i]) == "" || Trim((ts + [t])[i]) in more {
      if i < |ts| { assert (ts + [t])[i] == ts[i]; }
    }
  }

  lemma {:induction false} AddTagsFacts(acc: seq<string>, ts: seq<string>)
    ensures acc <= AddTags(acc, ts) && Holds(AddTags(acc, ts), ts)
    ensures Canonical(acc) ==> Canonical(AddTags(acc, ts))
    decreases |ts|
  {
    if ts == [] {
    } else {
      var n := |ts| - 1;
      AddTagsFacts(acc, ts[..n]);
      AddTagFacts(AddTags(acc, ts[..n]), ts[n]);
      HoldsMore(AddTags(acc, ts[..n]), ts[..n], ts[n]);
      assert ts == ts[..n] + [ts[n]];
    }
  }

  /** u is, up to trimming, one of ts. */
  ghost predicate Among(u: string, ts: seq<string>) { exists i :: 0 <= i < |ts| && u == Trim(ts[i]) }

  lemma {:induction false} AddTagsInvents(acc: seq<string>, ts: seq<string>, u: string)
    requires u in AddTags(acc, ts)
    ensures u in acc || Among(u, ts)
    decreases |ts|
  {
    if ts == [] {
    } else {
      var n := |ts| - 1;
      if u in AddTags(acc, ts[..n]) {
        AddTagsInvents(acc, ts[..n], u);
        if u !in acc {
          var i :| 0 <= i < n && u == Trim(ts[..n][i]);
          assert u == Trim(ts[i]);
        }
      } else {
        assert u == Trim(ts[n]);
      }
    }
  }

  lemma {:induction false} AddHeld(acc: seq<string>, ts: seq<string>)
    requires Holds(acc, ts)
    ensures AddTags(acc, ts) == acc
    decreases |ts|
  {
    if ts == [] {
    } else {
      var n := |ts| - 1;
      assert Holds(acc, ts[..n]) by {
        forall i | 0 <= i < n ensures Trim(ts[..n][i]) == "" || Trim(ts[..n][i]) in acc { assert ts[..n][i] == ts[i]; }
      }
      AddHeld(acc, ts[..n]);
    }
  }

  lemma {:induction false} AddCanonical(ts: seq<string>)
    requires Canonical(ts)
    ensures AddTags([], ts) == ts
    decreases |ts|
  {
    if ts == [] {
    } else {
      var n := |ts| - 1;
      AddCanonical(ts[..n]);
      assert ts == ts[..n] + [ts[n]];
    }
  }

  /** What mergeTags returns. */
  function MergedTags(existing: seq<string>, incoming: seq<string>): seq<string> {
    AddTags(AddTags([], existing), incoming)
  }

  /** The result is canonical, holds every tag of both lists and no other, and extends a canonical
      first list; merging into a canonical list that holds the new tags changes nothing. */
  lemma MergedTagsFacts(existing: seq<string>, incoming: seq<string>)
    ensures Canonical(MergedTags(existing, incoming))
    ensures Holds(MergedTags(existing, incoming), existing) && Holds(MergedTags(existing, incoming), incoming)
    ensures forall u :: u in MergedTags(existing, incoming) ==> Among(u, existing) || Among(u, incoming)
    ensures Canonical(existing) ==> existing <= MergedTags(existing, incoming)
    ensures Canonical(existing) && Holds(existing, incoming) ==> MergedTags(existing, incoming) == existing
  {
    AddTagsFacts([], existing);
    AddTagsFacts(AddTags([], existing), incoming);
    forall u | u in MergedTags(existing, incoming) ensures Among(u, existing) || Among(u, incoming) {
      AddTagsInvents(AddTags([], existing), incoming, u);
      if u in AddTags([], existing) { AddTagsInvents([], existing, u); }
    }
    if Canonical(existing) {
      AddCanonical(existing);
      if Holds(existing, incoming) {
        AddHeld(existing, incoming);
      }
    }
  }

  /** mergeTags: two passes over a seen-set. */
  method MergeTags(existing: seq<string>, incoming: seq<string>) returns (result: seq<string>)
    ensures result == MergedTags(existing, incoming)
  {
    var seen: set<string> := {};
    result := [];
    for i := 0 to |existing|
      invariant result == AddTags([], existing[..i]) && seen == set t | t in result
    {
      assert existing[..i + 1][..i] == existing[..i];
      var t := Trim(existing[i]);
      if t !in seen && t != "" {
        seen := seen + {t};
        result := result + [t];
      }
    }
    assert existing[..|existing|] == existing;
    for i := 0 to |incoming|
      invariant result == AddTags(AddTags([], existing), incoming[..i]) && seen == set t | t in result
    {
      assert incoming[..i + 1][..i] == incoming[..i];
      var t := Trim(incoming[i]);
      if t !in seen && t != "" {
        seen := seen + {t};
        result := result + [t];
      }
    }
    assert incoming[..|incoming|] == incoming;
  }

  // ---- rows ----

  function Email(row: Row): string { Trim(Get(row, "email")) }

  function Key(job: Job, row: Row): string { job.lower(Trim(Email(row))) }

  /** The tags column, split and trimmed; repetitions and empty entries are still there. */
  function RowTags(row: Row): seq<string> {
    if "tags" in row && Trim(row["tags"]) != "" then
      var parts := SplitComma(row["tags"]);
      seq(|parts|, i requires 0 <= i < |parts| => Trim(parts[i]))
    else []
  }

  const RESERVED := {"email", "first_name", "last_name", "tags"}

  function RowAttributes(job: Job, row: Row): map<string, string> {
    map k | k in row && job.lower(k) !in RESERVED && Trim(row[k]) != "" :: row[k]
  }

  /** A row as the importer reads it. */
  datatype RowData = RowData(
    email: string, key: string, firstName: string, lastName: string, tags: seq<string>, attributes: map<string, string>)

  function ParseRow(job: Job, row: Row): RowData {
    RowData(Email(row), Key(job, row), Get(row, "first_name"), Get(row, "last_name"), RowTags(row), RowAttributes(job, row))
  }

  function ParseAll(job: Job, rows: seq<Row>): (ds: seq<RowData>)
    ensures |ds| == |rows|
  {
    seq(|rows|, i requires 0 <= i < |rows| => ParseRow(job, rows[i]))
  }

  /** Each entry of the tag list is trimmed. */
  predicate TrimmedTags(d: RowData) { forall i :: 0 <= i < |d.tags| ==> Trim(d.tags[i]) == d.tags[i] }

  lemma ParsedTagsTrimmed(job: Job, row: Row)
    ensures TrimmedTags(ParseRow(job, row))
  {
    forall i | 0 <= i < |RowTags(row)| ensures Trim(RowTags(row)[i]) == RowTags(row)[i] {
      TrimTwice(SplitComma(row["tags"])[i]);
    }
  }

  function NewContact(d: RowData, id: string, now: nat): Contact {
    Contact(id, d.email, d.firstName, d.lastName, d.tags, d.attributes, now, now)
  }

  function Merge(c: Contact, d: RowData, now: nat): Contact {
    c.(firstName := d.firstName, lastName := d.lastName, tags := MergedTags(c.tags, d.tags),
       attributes := c.attributes + d.attributes, updatedAt := now)
  }

  // ---- one row, with everything that can go wrong ----

  /** The id generator, the lookup and the write may each fail. */
  datatype RowEnv = RowEnv(id: Option<string>, findOk: bool, writeOk: bool)

  datatype Outcome = Created | Updated | RowFailed

  function RowStep(dedupe: bool, cs: Contacts, d: RowData, env: RowEnv, now: nat): (Contacts, Outcome) {
    if d.email == "" || env.id.None? then (cs, RowFailed)
    else if dedupe && env.findOk && d.key in cs then
      if env.writeOk then (cs[d.key := Merge(cs[d.key], d, now)], Updated) else (cs, RowFailed)
    else if !env.findOk then (cs, RowFailed)
    else if d.key in cs || !env.writeOk then (cs, RowFailed) // the unique index refuses a second contact
    else (cs[d.key := NewContact(d, env.id.value, now)], Created)
  }

  datatype Counts = Counts(processed: nat, created: nat, updated: nat, failed: nat)

  function Count(n: Counts, o: Outcome): Counts {
    var p := n.(processed := n.processed + 1);
    match o
    case Created => p.(created := p.created + 1)
    case Updated => p.(updated := p.updated + 1)
    case RowFailed => p.(failed := p.failed + 1)
  }

  /** Contacts and counts, as they stand between two rows. */
  datatype Progress = Progress(contacts: Contacts, counts: Counts)

  function NextRow(dedupe: bool, p: Progress, d: RowData, env: RowEnv, now: nat): Progress {
    var (cs, o) := RowStep(dedupe, p.contacts, d, env, now);
    Progress(cs, Count(p.counts, o))
  }

  function ImportRows(dedupe: bool, p: Progress, ds: seq<RowData>, envs: seq<RowEnv>, now: nat): Progress
    requires |ds| == |envs|
  {
    if ds == [] then p
    else
      var k := |ds| - 1;
      NextRow(dedupe, ImportRows(dedupe, p, ds[..k], envs[..k], now), ds[k], envs[k], now)
  }

  /** Every row lands in exactly one count, whatever fails. */
  lemma {:induction false} CountsBalance(dedupe: bool, p: Progress, ds: seq<RowData>, envs: seq<RowEnv>, now: nat)
    requires |ds| == |envs|
    ensures var n, m := p.counts, ImportRows(dedupe, p, ds, envs, now).counts;
            && m.processed == n.processed + |ds|
            && m.created + m.updated + m.failed == n.created + n.updated + n.failed + |ds|
    decreases |ds|
  {
    if ds == [] {
    } else {
      var k := |ds| - 1;
      CountsBalance(dedupe, p, ds[..k], envs[..k], now);
    }
  }

  // ---- the job ----

  class ImportJob {
    const job: Job
    var contacts: Contacts
    var counts: Counts

    constructor (job: Job, contacts: Contacts)
      ensures this.job == job && this.contacts == contacts && counts == Counts(0, 0, 0, 0)
    {
      this.job, this.contacts, this.counts := job, contacts, Counts(0, 0, 0, 0);
    }

    function Current(): Progress
      reads this
    {
      Progress(contacts, counts)
    }

    /** processContactRow: counts a created or updated contact itself; a failure is left to the caller. */
    method ProcessContactRow(row: Row, env: RowEnv, now: nat) returns (ok: bool)
      modifies this
      ensures var (cs, o) := RowStep(job.dedupeByEmail, old(contacts), ParseRow(job, row), env, now);
              && contacts == cs && ok == !o.RowFailed?
              && counts == old(counts).(created := old(counts.created) + (if o.Created? then 1 else 0),
                                        updated := old(counts.updated) + (if o.Updated? then 1 else 0))
    {
      var d := ParseRow(job, row);
      if d.email == "" || env.id.None? {
        return false;
      }
      if job.dedupeByEmail && env.findOk && d.key in contacts {
        var existing := contacts[d.key];
        var tags := MergeTags(existing.tags, d.tags);
        existing := existing.(firstName := d.firstName, lastName := d.lastName, tags := tags,
                              attributes := existing.attributes + d.attributes, updatedAt := now);
        if !env.writeOk {
          return false;
        }
        contacts := contacts[d.key := existing];
        counts := counts.(updated := counts.updated + 1);
      } else {
        if !env.findOk {
          return false;
        }
        if d.key in contacts || !env.writeOk {
          return false;
        }
        contacts := contacts[d.key := NewContact(d, env.id.value, now)];
        counts := counts.(created := counts.created + 1);
      }
      return true;
    }

    method ProcessAndCount(row: Row, env: RowEnv, now: nat)
      modifies this
      ensures Current() == NextRow(job.dedupeByEmail, old(Current()), ParseRow(job, row), env, now)
    {
      var ok := ProcessContactRow(row, env, now);
      if !ok {
        counts := counts.(failed := counts.failed + 1);
      }
      counts := counts.(processed := counts.processed + 1);
    }

    /** processImportBatch. */
    method ProcessImportBatch(rows: seq<Row>, envs: seq<RowEnv>, now: nat)
      requires |rows| == |envs|
      modifies this
      ensures Current() == ImportRows(job.dedupeByEmail, old(Current()), ParseAll(job, rows), envs, now)
    {
      ghost var ds := ParseAll(job, rows);
      for i := 0 to |rows|
        invariant Current() == ImportRows(job.dedupeByEmail, old(Current()), ds[..i], envs[..i], now)
      {
        assert ds[..i + 1][..i] == ds[..i] && envs[..i + 1][..i] == envs[..i];
        ProcessAndCount(rows[i], envs[i], now);
      }
      assert ds[..|rows|] == ds && envs[..|rows|] == envs;
    }
  }

  // ---- re-import, under dedupe-by-email with nothing failing ----

  function Upsert(cs: Contacts, d: RowData, id: string, now: nat): Contacts {
    RowStep(true, cs, d, RowEnv(Some(id), true, true), now).0
  }

  function Import(cs: Contacts, ds: seq<RowData>, ids: nat -> string, now: nat): Contacts {
    if ds == [] then cs
    else
      var k := |ds| - 1;
      Upsert(Import(cs, ds[..k], ids, now), ds[k], ids(k), now)
  }

  /** A row that names the contact with this normalized email. */
  predicate Names(d: RowData, key: string) { d.email != "" && d.key == key }

  /** The rows for one normalized email, in order. */
  function RowsFor(ds: seq<RowData>, key: string): seq<RowData> {
    if ds == [] then []
    else RowsFor(ds[..|ds| - 1], key) + (if Names(ds[|ds| - 1], key) then [ds[|ds| - 1]] else [])
  }

  function MergeAll(c: Contact, ds: seq<RowData>, now: nat): Contact {
    if ds == [] then c else Merge(MergeAll(c, ds[..|ds| - 1], now), ds[|ds| - 1], now)
  }

  lemma MergeAllAppend(c: Contact, ds: seq<RowData>, d: RowData, now: nat)
    ensures MergeAll(c, ds + [d], now) == Merge(MergeAll(c, ds, now), d, now)
  {
    assert (ds + [d])[..|ds|] == ds;
  }

  /** Emails do not interfere: an import does to a known contact what its own rows do, in order. */
  lemma {:induction false} ImportOne(cs: Contacts, ds: seq<RowData>, ids: nat -> string, now: nat, key: string)
    requires key in cs
    ensures var s := Import(cs, ds, ids, now); key in s && s[key] == MergeAll(cs[key], RowsFor(ds, key), now)
    decreases |ds|
  {
    if ds == [] {
    } else {
      var k := |ds| - 1;
      ImportOne(cs, ds[..k], ids, now, key);
      var own := RowsFor(ds[..k], key);
      MergeAllAppend(cs[key], own, ds[k], now);
      assert own + [] == own;
    }
  }

  /** The contacts after an import are those before it and one for each email among the rows. */
  lemma {:induction false} ImportKeys(cs: Contacts, ds: seq<RowData>, ids: nat -> string, now: nat, key: string)
    ensures key in Import(cs, ds, ids, now) <==> key in cs || RowsFor(ds, key) != []
    decreases |ds|
  {
    if ds == [] {
    } else {
      ImportKeys(cs, ds[..|ds| - 1], ids, now, key);
    }
  }

  function AttributesOf(ds: seq<RowData>): map<string, string> {
    if ds == [] then map[] else AttributesOf(ds[..|ds| - 1]) + ds[|ds| - 1].attributes
  }

  predicate HoldsRows(tags: seq<string>, ds: seq<RowData>) { forall i :: 0 <= i < |ds| ==> Holds(tags, ds[i].tags) }

  /** Everything the rows say is already in the contact. */
  predicate Absorbed(c: Contact, ds: seq<RowData>) {
    ds != [] ==>
      var last := ds[|ds| - 1];
      && c.firstName == last.firstName && c.lastName == last.lastName
      && c.attributes + AttributesOf(ds) == c.attributes
      && HoldsRows(c.tags, ds)
  }

  /** Merging keeps every tag held before. */
  lemma MergeKeepsHeld(tags: seq<string>, incoming: seq<string>, ts: seq<string>)
    requires Holds(tags, ts)
    ensures Holds(MergedTags(tags, incoming), ts)
  {
    MergedTagsFacts(tags, incoming);
    var merged := MergedTags(tags, incoming);
    forall i | 0 <= i < |ts| ensures Trim(ts[i]) == "" || Trim(ts[i]) in merged {
      var u := Trim(ts[i]);
      TrimTwice(ts[i]);
      if u != "" {
        var j :| 0 <= j < |tags| && tags[j] == u;
      }
    }
  }

  lemma AttributesAppend(ds: seq<RowData>, d: RowData)
    ensures AttributesOf(ds + [d]) == AttributesOf(ds) + d.attributes
  {
    assert (ds + [d])[..|ds|] == ds;
  }

  lemma OverrideAssociative(a: map<string, string>, b: map<string, string>, c: map<string, string>)
    ensures (a + b) + c == a + (b + c)
  {}

  lemma OverrideTwice(a: map<string, string>, b: map<string, string>, c: map<string, string>)
    requires a + b == a
    ensures (a + c) + (b + c) == a + c
  {
    assert forall k :: k in b ==> k in (a + b) && (a + b)[k] == b[k];
  }

  /** Merging a further row keeps what was absorbed and absorbs the row. */
  lemma MergeAbsorbs(c: Contact, ds: seq<RowData>, d: RowData, now: nat)
    requires Absorbed(c, ds)
    ensures Absorbed(Merge(c, d, now), ds + [d]) && Canonical(Merge(c, d, now).tags)
  {
    var tags := MergedTags(c.tags, d.tags);
    MergedTagsFacts(c.tags, d.tags);
    forall i | 0 <= i < |ds + [d]| ensures Holds(tags, (ds + [d])[i].tags) {
      if i < |ds| {
        MergeKeepsHeld(c.tags, d.tags, ds[i].tags);
      }
    }
    MergeAbsorbsAttributes(c, ds, d);
  }

  lemma MergeAbsorbsAttributes(c: Contact, ds: seq<RowData>, d: RowData)
    requires Absorbed(c, ds)
    ensures (c.attributes + d.attributes) + AttributesOf(ds + [d]) == c.attributes + d.attributes
  {
    AttributesAppend(ds, d);
    assert c.attributes + AttributesOf(ds) == c.attributes by {
      if ds == [] { assert c.attributes + map[] == c.attributes; }
    }
    OverrideTwice(c.attributes, AttributesOf(ds), d.attributes);
  }

  lemma NewAbsorbs(d: RowData, id: string, now: nat)
    requires TrimmedTags(d)
    ensures Absorbed(NewContact(d, id, now), [d])
  {
    AttributesAppend([], d);
    assert [] + [d] == [d] && map[] + d.attributes == d.attributes;
  }

  /** After an import every contact has absorbed its rows. */
  lemma {:induction false} ImportAbsorbs(cs: Contacts, ds: seq<RowData>, ids: nat -> string, now: nat, key: string)
    requires forall i :: 0 <= i < |ds| ==> TrimmedTags(ds[i])
    ensures var s := Import(cs, ds, ids, now); key in s ==> Absorbed(s[key], RowsFor(ds, key))
    decreases |ds|
  {
    if ds == [] {
    } else {
      var k := |ds| - 1;
      var d := ds[k];
      ImportAbsorbs(cs, ds[..k], ids, now, key);
      ImportKeys(cs, ds[..k], ids, now, key);
      var s, own := Import(cs, ds[..k], ids, now), RowsFor(ds[..k], key);
      if !Names(d, key) {
        assert own + [] == own;
      } else if key in s {
        MergeAbsorbs(s[key], own, d, now);
      } else {
        NewAbsorbs(d, ids(k), now);
        assert own + [d] == [d];
      }
    }
  }

  predicate SameButTime(a: Contact, b: Contact) { a.(updatedAt := 0) == b.(updatedAt := 0) }

  lemma {:induction false} MergeAllFields(c: Contact, ds: seq<RowData>, now: nat)
    ensures var m := MergeAll(c, ds, now);
            && m.id == c.id && m.email == c.email && m.createdAt == c.createdAt
            && m.attributes == c.attributes + AttributesOf(ds)
            && (ds != [] ==> m.firstName == ds[|ds| - 1].firstName && m.lastName == ds[|ds| - 1].lastName)
            && (ds == [] ==> m == c)
    decreases |ds|
  {
    if ds != [] {
      MergeAllFields(c, ds[..|ds| - 1], now);
      OverrideAssociative(c.attributes, AttributesOf(ds[..|ds| - 1]), ds[|ds| - 1].attributes);
    } else {
      assert c.attributes + map[] == c.attributes;
    }
  }

  lemma HoldsFewer(tags: seq<string>, ds: seq<RowData>)
    requires HoldsRows(tags, ds) && ds != []
    ensures HoldsRows(tags, ds[..|ds| - 1]) && Holds(tags, ds[|ds| - 1].tags)
  {}

  lemma {:induction false} MergeAllTags(c: Contact, ds: seq<RowData>, now: nat)
    ensures ds != [] ==> Canonical(MergeAll(c, ds, now).tags)
    ensures Canonical(c.tags) && HoldsRows(c.tags, ds) ==> MergeAll(c, ds, now).tags == c.tags
    decreases |ds|
  {
    if ds == [] {
    } else {
      var k := |ds| - 1;
      var before := MergeAll(c, ds[..k], now);
      MergeAllTags(c, ds[..k], now);
      MergedTagsFacts(before.tags, ds[k].tags);
      assert MergeAll(c, ds, now).tags == MergedTags(before.tags, ds[k].tags);
      if Canonical(c.tags) && HoldsRows(c.tags, ds) {
        HoldsFewer(c.tags, ds);
      }
    }
  }

  /** Merging absorbed rows changes nothing but the time, exactly when the tags are canonical. */
  lemma MergeAbsorbedRows(c: Contact, ds: seq<RowData>, now: nat)
    requires Absorbed(c, ds)
    ensures SameButTime(MergeAll(c, ds, now), c) <==> ds == [] || Canonical(c.tags)
  {
    MergeAllFields(c, ds, now);
    MergeAllTags(c, ds, now);
  }

  /** Importing leaves this contact's tags trimmed, non-empty and distinct: it was there before, it has
      several rows, or the row that creates it is itself clean. */
  predicate TagsSettle(cs: Contacts, own: seq<RowData>, key: string) {
    key in cs || |own| > 1 || (own != [] && Canonical(own[0].tags))
  }

  /** What the first import makes of the tags: merging cleans them, creating keeps them as written. */
  lemma {:induction false} ImportTags(cs: Contacts, ds: seq<RowData>, ids: nat -> string, now: nat, key: string)
    requires RowsFor(ds, key) != []
    ensures var s := Import(cs, ds, ids, now);
            key in s && (Canonical(s[key].tags) <==> TagsSettle(cs, RowsFor(ds, key), key))
    decreases |ds|
  {
    var k := |ds| - 1;
    var d, s, own := ds[k], Import(cs, ds[..k], ids, now), RowsFor(ds[..k], key);
    ImportKeys(cs, ds[..k], ids, now, key);
    if !Names(d, key) {
      assert own + [] == own;
      ImportTags(cs, ds[..k], ids, now, key);
    } else if key in s {
      MergedTagsFacts(s[key].tags, d.tags);
    } else {
      assert own + [d] == [d];
    }
  }

  /** A second import of the same rows adds no contact; it leaves a contact as the first did, apart
      from the update time, if and only if the contact has no row in it, was there before the first,
      has several rows, or is created by a row whose tags are non-empty and distinct. */
  lemma SecondImport(job: Job, cs: Contacts, rows: seq<Row>, ids1: nat -> string, ids2: nat -> string, t1: nat, t2: nat)
    ensures var ds := ParseAll(job, rows);
            var s1 := Import(cs, ds, ids1, t1);
            var s2 := Import(s1, ds, ids2, t2);
            && s2.Keys == s1.Keys
            && forall k :: k in s1 ==>
                 (SameButTime(s2[k], s1[k]) <==> RowsFor(ds, k) == [] || TagsSettle(cs, RowsFor(ds, k), k))
  {
    var ds := ParseAll(job, rows);
    var s1 := Import(cs, ds, ids1, t1);
    var s2 := Import(s1, ds, ids2, t2);
    forall i | 0 <= i < |ds| ensures TrimmedTags(ds[i]) { ParsedTagsTrimmed(job, rows[i]); }
    forall k ensures k in s2 <==> k in s1 {
      ImportKeys(cs, ds, ids1, t1, k);
      ImportKeys(s1, ds, ids2, t2, k);
    }
    forall k | k in s1
      ensures SameButTime(s2[k], s1[k]) <==> RowsFor(ds, k) == [] || TagsSettle(cs, RowsFor(ds, k), k)
    {
      ImportAbsorbs(cs, ds, ids1, t1, k);
      ImportOne(s1, ds, ids2, t2, k);
      MergeAbsorbedRows(s1[k], RowsFor(ds, k), t2);
      if RowsFor(ds, k) != [] {
        ImportTags(cs, ds, ids1, t1, k);
      }
    }
  }

  const REPEATED: Row := map["email" := "a", "tags" := "x,x"]

  lemma SplitRepeated()
    ensures SplitComma("x,x") == ["x", "x"]
  {
    assert "x,x"[..2] == "x," && "x,"[..1] == "x" && "x"[..0] == "";
    assert "" + ['x'] == "x" && [""][..0] == [] && ["x", ""][..1] == ["x"];
    assert SplitComma("x") == ["x"];
    assert SplitComma("x,") == ["x", ""];
  }

  lemma RepeatedTags()
    ensures Email(REPEATED) != "" && RowTags(REPEATED) == ["x", "x"]
  {
    SplitRepeated();
    assert Trim("a") == "a" && Trim("x") == "x" && Trim("x,x") == "x,x";
  }

  /** One row that repeats a tag, into an empty workspace: the second import changes the contact. */
  lemma SecondImportChangesTags(job: Job, ids1: nat -> string, ids2: nat -> string, t1: nat, t2: nat) returns (k: string)
    ensures var ds := ParseAll(job, [REPEATED]);
            var s1 := Import(map[], ds, ids1, t1);
            var s2 := Import(s1, ds, ids2, t2);
            k in s1 && k in s2 && !SameButTime(s2[k], s1[k])
  {
    var ds := ParseAll(job, [REPEATED]);
    RepeatedTags();
    k := ds[0].key;
    assert ds[..0] == [];
    assert RowsFor(ds, k) == [ds[0]];
    assert !Canonical(ds[0].tags) by { assert ds[0].tags[0] == ds[0].tags[1]; }
    SecondImport(job, map[], [REPEATED], ids1, ids2, t1, t2);
    ImportKeys(map[], ds, ids1, t1, k);
  }

  /** From the second import on, importing again changes nothing but update times. */
  lemma ThirdImport(job: Job, cs: Contacts, rows: seq<Row>, ids1: nat -> string, ids2: nat -> string, ids3: nat -> string,
                    t1: nat, t2: nat, t3: nat)
    ensures var ds := ParseAll(job, rows);
            var s2 := Import(Import(cs, ds, ids1, t1), ds, ids2, t2);
            var s3 := Import(s2, ds, ids3, t3);
            s3.Keys == s2.Keys && forall k :: k in s2 ==> SameButTime(s3[k], s2[k])
  {
    var ds := ParseAll(job, rows);
    var s1 := Import(cs, ds, ids1, t1);
    var s2 := Import(s1, ds, ids2, t2);
    SecondImport(job, s1, rows, ids2, ids3, t2, t3);
    forall k | k in s2 ensures RowsFor(ds, k) == [] || TagsSettle(s1, RowsFor(ds, k), k) {
      ImportKeys(cs, ds, ids1, t1, k);
      ImportKeys(s1, ds, ids2, t2, k);
    }
  }

  // ---- what an import does, in the columns of its rows ----

  /** The normalized emails the rows name. */
  function NamedEmails(job: Job, rows: seq<Row>): set<string> {
    set r | r in rows && "email" in r && Trim(r["email"]) != "" :: job.lower(Trim(r["email"]))
  }

  predicate NamesEmail(job: Job, r: Row, key: string) {
    "email" in r && Trim(r["email"]) != "" && job.lower(Trim(r["email"])) == key
  }

  lemma RowNames(job: Job, r: Row, key: string)
    ensures Names(ParseRow(job, r), key) <==> NamesEmail(job, r, key)
  {
    if "email" in r {
      TrimTwice(r["email"]);
    }
  }

  lemma {:induction false} RowsForExists(ds: seq<RowData>, key: string)
    ensures RowsFor(ds, key) != [] <==> exists i :: 0 <= i < |ds| && Names(ds[i], key)
    decreases |ds|
  {
    if ds == [] {
    } else {
      var n := |ds| - 1;
      RowsForExists(ds[..n], key);
      if i :| 0 <= i < n && Names(ds[i], key) {
        assert Names(ds[..n][i], key);
      }
    }
  }

  lemma RowsForNamed(job: Job, rows: seq<Row>, key: string)
    ensures RowsFor(ParseAll(job, rows), key) != [] <==> exists i :: 0 <= i < |rows| && NamesEmail(job, rows[i], key)
  {
    var ds := ParseAll(job, rows);
    RowsForExists(ds, key);
    forall i | 0 <= i < |rows| ensures Names(ds[i], key) <==> NamesEmail(job, rows[i], key) {
      RowNames(job, rows[i], key);
    }
  }

  /** Importing adds one contact for each normalized email among the rows, and no other. */
  lemma ImportedEmails(job: Job, cs: Contacts, rows: seq<Row>, ids: nat -> string, now: nat)
    ensures Import(cs, ParseAll(job, rows), ids, now).Keys == cs.Keys + NamedEmails(job, rows)
  {
    var s := Import(cs, ParseAll(job, rows), ids, now);
    forall key ensures key in s.Keys <==> key in cs.Keys + NamedEmails(job, rows) {
      ImportKeys(cs, ParseAll(job, rows), ids, now, key);
      RowsForNamed(job, rows, key);
      if i :| 0 <= i < |rows| && NamesEmail(job, rows[i], key) {
        assert rows[i] in rows;
      }
    }
  }

  /** The value of a column, "" when it is missing. */
  function Column(r: Row, name: string): string { if name in r then r[name] else "" }

  /** The tags column cut at its commas, each tag trimmed; none when the column is missing or blank. */
  predicate TagsFrom(tags: seq<string>, r: Row) {
    var parts := SplitComma(Column(r, "tags"));
    if Trim(Column(r, "tags")) == "" then tags == []
    else |tags| == |parts| && forall i :: 0 <= i < |parts| ==> tags[i] == Trim(parts[i])
  }

  /** The non-blank columns other than the four the importer knows, as they are. */
  ghost predicate AttributesFrom(job: Job, attributes: map<string, string>, r: Row) {
    forall k ::
      && (k in attributes <==>
            k in r && Trim(r[k]) != "" && job.lower(k) != "email" && job.lower(k) != "first_name"
            && job.lower(k) != "last_name" && job.lower(k) != "tags")
      && (k in attributes ==> attributes[k] == r[k])
  }

  lemma RowIsParsed(job: Job, r: Row)
    ensures var d := ParseRow(job, r);
            && d.email == Trim(Column(r, "email")) && d.key == job.lower(Trim(Column(r, "email")))
            && d.firstName == Column(r, "first_name") && d.lastName == Column(r, "last_name")
            && TagsFrom(d.tags, r) && AttributesFrom(job, d.attributes, r)
  {
    TrimTwice(Column(r, "email"));
    assert Trim("") == "";
  }

  /** A single row for a new email creates a contact out of exactly its columns. */
  lemma CreatedFromRow(job: Job, cs: Contacts, r: Row, ids: nat -> string, now: nat)
    requires var email := Trim(Column(r, "email")); email != "" && job.lower(email) !in cs
    ensures var email := Trim(Column(r, "email"));
            var s := Import(cs, ParseAll(job, [r]), ids, now);
            && s.Keys == cs.Keys + {job.lower(email)}
            && var c := s[job.lower(email)];
               && c.id == ids(0) && c.email == email && c.createdAt == c.updatedAt == now
               && c.firstName == Column(r, "first_name") && c.lastName == Column(r, "last_name")
               && TagsFrom(c.tags, r) && AttributesFrom(job, c.attributes, r)
  {
    RowIsParsed(job, r);
    assert ParseAll(job, [r])[..0] == [];
  }

  /** A single row for a known email renames the contact, merges in the row's tags, lets the row's attributes
      win, and keeps everything else. */
  lemma UpdatedFromRow(job: Job, cs: Contacts, r: Row, ids: nat -> string, now: nat)
    returns (tags: seq<string>, attributes: map<string, string>)
    requires var email := Trim(Column(r, "email")); email != "" && job.lower(email) in cs
    ensures TagsFrom(tags, r) && AttributesFrom(job, attributes, r)
    ensures var key := job.lower(Trim(Column(r, "email")));
            var s := Import(cs, ParseAll(job, [r]), ids, now);
            s == cs[key := cs[key].(firstName := Column(r, "first_name"), lastName := Column(r, "last_name"),
                                    tags := MergedTags(cs[key].tags, tags),
                                    attributes := cs[key].attributes + attributes, updatedAt := now)]
  {
    RowIsParsed(job, r);
    assert ParseAll(job, [r])[..0] == [];
    tags, attributes := ParseRow(job, r).tags, ParseRow(job, r).attributes;
  }

  // ---- the counts of a re-import ----

  function CleanEnvs(ids: nat -> string, n: nat): (envs: seq<RowEnv>)
    ensures |envs| == n
  {
    seq(n, i requires 0 <= i < n => RowEnv(Some(ids(i)), true, true))
  }

  function Named(ds: seq<RowData>): nat {
    if ds == [] then 0 else Named(ds[..|ds| - 1]) + (if ds[|ds| - 1].email != "" then 1 else 0)
  }

  lemma CleanRow(p: Progress, d: RowData, id: string, now: nat)
    ensures var q := NextRow(true, p, d, RowEnv(Some(id), true, true), now);
            && q.contacts == Upsert(p.contacts, d, id, now)
            && (d.email == "" ==> q.counts.created == p.counts.created && q.counts.updated == p.counts.updated)
            && (d.email != "" && d.key in p.contacts ==>
                  q.counts.created == p.counts.created && q.counts.updated == p.counts.updated + 1)
            && (d.email == "" || d.key in p.contacts ==> q.contacts.Keys == p.contacts.Keys)
  {}

  /** The job's own fold, with nothing failing, is Import; over contacts that already have every
      email it creates none and updates once per named row. */
  lemma {:induction false} CleanImport(p: Progress, ds: seq<RowData>, ids: nat -> string, now: nat)
    ensures var q := ImportRows(true, p, ds, CleanEnvs(ids, |ds|), now);
            && q.contacts == Import(p.contacts, ds, ids, now)
            && ((forall i :: 0 <= i < |ds| && ds[i].email != "" ==> ds[i].key in p.contacts) ==>
                  q.counts.created == p.counts.created && q.counts.updated == p.counts.updated + Named(ds)
                  && q.contacts.Keys == p.contacts.Keys)
    decreases |ds|
  {
    if ds == [] {
    } else {
      var k := |ds| - 1;
      CleanImport(p, ds[..k], ids, now);
      assert CleanEnvs(ids, |ds|)[..k] == CleanEnvs(ids, k);
      CleanRow(ImportRows(true, p, ds[..k], CleanEnvs(ids, k), now), ds[k], ids(k), now);
    }
  }

  lemma {:induction false} NamedHasRow(ds: seq<RowData>, i: nat)
    requires i < |ds| && ds[i].email != ""
    ensures RowsFor(ds, ds[i].key) != []
    decreases |ds|
  {
    if i == |ds| - 1 {
    } else {
      NamedHasRow(ds[..|ds| - 1], i);
    }
  }

  /** Importing the same rows again reports no created contact. */
  lemma ReimportCreatesNothing(job: Job, cs: Contacts, rows: seq<Row>, ids1: nat -> string, ids2: nat -> string, t1: nat, t2: nat)
    ensures var ds := ParseAll(job, rows);
            var s1 := Import(cs, ds, ids1, t1);
            var q := ImportRows(true, Progress(s1, Counts(0, 0, 0, 0)), ds, CleanEnvs(ids2, |ds|), t2);
            q.counts.created == 0 && q.counts.updated == Named(ds) && q.counts.failed == |ds| - Named(ds)
  {
    var ds := ParseAll(job, rows);
    var s1 := Import(cs, ds, ids1, t1);
    forall i | 0 <= i < |ds| && ds[i].email != "" ensures ds[i].key in s1 {
      NamedHasRow(ds, i);
      ImportKeys(cs, ds, ids1, t1, ds[i].key);
    }
    CleanImport(Progress(s1, Counts(0, 0, 0, 0)), ds, ids2, t2);
    CountsBalance(true, Progress(s1, Counts(0, 0, 0, 0)), ds, CleanEnvs(ids2, |ds|), t2);
  }
}
