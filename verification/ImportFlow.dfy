/**
 An import job end to end: the CSV reader that skips unparsable records, the single-shard pipeline
 the rows go through, and what the reported counts then add up to
 (internal/apps/worker/audience_import_processor.go).
 */
module ImportFlow {
  import opened Collections
  import opened Pipeline
  import opened Executor
  import opened AudienceImport

  const CHUNK: nat := 100

  /** A CSV record, or a read error other than end of file. */
  datatype Record = Good(fields: seq<string>) | Bad

  /** A row maps each header to the field in its column; surplus fields are ignored. */
  function RowOf(headers: seq<string>, fields: seq<string>): Row {
    if fields == [] then map[]
    else
      var n := |fields| - 1;
      var row := RowOf(headers, fields[..n]);
      if n < |headers| then row[headers[n] := fields[n]] else row
  }

  function Parse(headers: seq<string>): Record -> Option<Row> {
    (r: Record) => if r.Good? then Some(RowOf(headers, r.fields)) else None
  }

  function Unparsable(rs: seq<Record>): nat {
    if rs == [] then 0 else Unparsable(rs[..|rs| - 1]) + (if rs[|rs| - 1].Bad? then 1 else 0)
  }

  lemma {:induction false} RowsAndFailures(headers: seq<string>, rs: seq<Record>)
    ensures |FilterMap(Parse(headers), rs)| + Unparsable(rs) == |rs|
    decreases |rs|
  {
    if rs == [] {
    } else {
      RowsAndFailures(headers, rs[..|rs| - 1]);
    }
  }

  datatype ReadResult = Item(row: Row) | EndOfFile | Interrupted

  class CsvReader {
    const headers: seq<string>
    const records: seq<Record>
    var pos: nat
    var parseFailed: nat

    ghost predicate Valid()
      reads this
    {
      pos <= |records| && parseFailed == Unparsable(records[..pos])
    }

    /** The rows handed out so far. */
    ghost function Delivered(): seq<Row>
      requires Valid()
      reads this
    {
      FilterMap(Parse(headers), records[..pos])
    }

    constructor (headers: seq<string>, records: seq<Record>)
      ensures Valid() && this.headers == headers && this.records == records && Delivered() == []
    {
      this.headers, this.records, pos, parseFailed := headers, records, 0, 0;
    }

    /** The pipeline's Read callback: skip and count what does not parse, stop at end of file, and
        give up when the context is cancelled (`cancelled` says at which record that is seen). */
    method Read(cancelled: nat -> bool) returns (r: ReadResult)
      requires Valid()
      modifies this
      ensures Valid()
      ensures Delivered() == old(Delivered()) + (if r.Item? then [r.row] else [])
      ensures r.EndOfFile? ==> pos == |records|
    {
      assert Delivered() == old(Delivered()) + [];
      while true
        invariant Valid() && Delivered() == old(Delivered())
        decreases |records| - pos
      {
        if cancelled(pos) {
          return Interrupted;
        }
        if pos == |records| {
          return EndOfFile;
        }
        assert records[..pos + 1] == records[..pos] + [records[pos]];
        FilterMapAppend(Parse(headers), records[..pos], records[pos]);
        var record := records[pos];
        pos := pos + 1;
        if record.Bad? {
          parseFailed := parseFailed + 1;
        } else {
          var row := BuildRow(record.fields);
          return Item(row);
        }
      }
    }

    method BuildRow(fields: seq<string>) returns (row: Row)
      ensures row == RowOf(headers, fields)
    {
      row := map[];
      for i := 0 to |fields|
        invariant row == RowOf(headers, fields[..i])
      {
        assert fields[..i + 1][..i] == fields[..i];
        if i < |headers| {
          row := row[headers[i] := fields[i]];
        }
      }
      assert fields[..|fields|] == fields;
    }
  }

  // ---- through the pipeline ----

  function Same(): Row -> Option<Row> { r => Some(r) }

  lemma {:induction false} FilterMapSame(rows: seq<Row>)
    ensures FilterMap(Same(), rows) == rows
    decreases |rows|
  {
    if rows == [] {
    } else {
      FilterMapSame(rows[..|rows| - 1]);
    }
  }

  function ImportConfig(rows: seq<Row>): Config<Row, Row> {
    Config(Limits(1, CHUNK * 10, CHUNK, CHUNK * 10), rows, Same())
  }

  /** What the counts become when a sequence of batches is imported, with any failures. */
  function ImportBatches(job: Job, p: Progress, batches: seq<seq<Row>>, envs: nat -> nat -> RowEnv, now: nat): Progress {
    if batches == [] then p
    else
      var k := |batches| - 1;
      var b := batches[k];
      ImportRows(job.dedupeByEmail, ImportBatches(job, p, batches[..k], envs, now), ParseAll(job, b), seq(|b|, envs(k)), now)
  }

  lemma {:induction false} BatchesBalance(job: Job, p: Progress, batches: seq<seq<Row>>, envs: nat -> nat -> RowEnv, now: nat)
    ensures var n, m := p.counts, ImportBatches(job, p, batches, envs, now).counts;
            && m.processed == n.processed + |Flatten(batches)|
            && m.created + m.updated + m.failed == n.created + n.updated + n.failed + |Flatten(batches)|
    decreases |batches|
  {
    if batches == [] {
    } else {
      var k := |batches| - 1;
      var b := batches[k];
      BatchesBalance(job, p, batches[..k], envs, now);
      var before := ImportBatches(job, p, batches[..k], envs, now);
      CountsBalance(job.dedupeByEmail, before, ParseAll(job, b), seq(|b|, envs(k)), now);
    }
  }

  /** Count conservation for CSV: when the pipeline returns no error, every parsed record was written
      once and in order, and created + updated + failed, with unparsable records counted as failed,
      equals processed plus unparsable: the number of records. */
  lemma CsvCounts(job: Job, contacts: Contacts, headers: seq<string>, records: seq<Record>, envs: nat -> nat -> RowEnv,
                  now: nat, acts: seq<PoolAction>, x: Pool<Row, Row>)
    requires PoolReaches([ImportConfig(FilterMap(Parse(headers), records))], acts, x) && x.collector == Returned(None)
    ensures var rows := FilterMap(Parse(headers), records);
            var done := ImportBatches(job, Progress(contacts, Counts(0, 0, 0, 0)), x.shards[0].hist.batches, envs, now).counts;
            var total := done.(failed := done.failed + Unparsable(records));
            && Written(x.shards[0]) == rows
            && total.processed == |rows|
            && total.created + total.updated + total.failed == total.processed + Unparsable(records) == |records|
  {
    var rows := FilterMap(Parse(headers), records);
    var cs := [ImportConfig(rows)];
    FanOutSuccess(cs, acts, x, 0);
    FanOutOrder(cs, acts, x, 0);
    FilterMapSame(rows);
    RowsAndFailures(headers, records);
    BatchesBalance(job, Progress(contacts, Counts(0, 0, 0, 0)), x.shards[0].hist.batches, envs, now);
  }

  /** The same for JSON, where a row that does not decode fails the job instead. */
  lemma JsonCounts(job: Job, contacts: Contacts, rows: seq<Row>, envs: nat -> nat -> RowEnv, now: nat,
                   acts: seq<PoolAction>, x: Pool<Row, Row>)
    requires PoolReaches([ImportConfig(rows)], acts, x) && x.collector == Returned(None)
    ensures var done := ImportBatches(job, Progress(contacts, Counts(0, 0, 0, 0)), x.shards[0].hist.batches, envs, now).counts;
            done.created + done.updated + done.failed == done.processed == |rows|
  {
    FanOutOrder([ImportConfig(rows)], acts, x, 0);
    FilterMapSame(rows);
    BatchesBalance(job, Progress(contacts, Counts(0, 0, 0, 0)), x.shards[0].hist.batches, envs, now);
  }

  // ---- rows and limits ----

  /** Column i is the last one in the record with this header. */
  predicate LastUnder(headers: seq<string>, fields: seq<string>, h: string, i: nat) {
    i < |fields| && i < |headers| && headers[i] == h && forall j :: i < j < |fields| && j < |headers| ==> headers[j] != h
  }

  /** The value under a header is the last field in a column of that name; nothing else is in the row. */
  lemma {:induction false} RowIsLastField(headers: seq<string>, fields: seq<string>, h: string)
    ensures h in RowOf(headers, fields) <==> exists i :: 0 <= i < |fields| && i < |headers| && headers[i] == h
    ensures forall i :: 0 <= i < |fields| && LastUnder(headers, fields, h, i) ==>
              h in RowOf(headers, fields) && RowOf(headers, fields)[h] == fields[i]
    decreases |fields|
  {
    if fields == [] {
    } else {
      var n := |fields| - 1;
      RowIsLastField(headers, fields[..n], h);
    }
  }

  /** Rows go through one processor in batches of one hundred. */
  lemma ImportLimits(rows: seq<Row>)
    ensures ImportConfig(rows).limits == Limits(1, 1000, 100, 1000)
  {}
}
