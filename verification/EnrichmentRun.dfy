/** The enrichment job: one pass over the records with a checkpoint every 100 rows, then the
    retry queue, then the CSV. The backend may die at any await, which drops the memory and
    keeps the disk; while it waits, operators may ask for retries and save corrections. */
module EnrichmentRun {
  import opened Text
  import opened EnrichedCsv
  import opened AddressOverrides
  import opened RowExtraction

  const CHECKPOINT_EVERY: nat := 100
  const PROGRESS_UPDATE_EVERY: nat := 10

  datatype JobStatus = QUEUED | PROCESSING | DONE | FAILED

  datatype Checkpoint = Checkpoint(
    lastRow: nat, rows: seq<Row>, warnings: seq<Warning>, maxRate: nat, retryRows: seq<nat>)

  /** What a job works on: its records, and what extracting one of them gives for a row number
      and a moment (the PDF extractor may answer differently from one moment to the next). */
  datatype Job = Job(records: seq<MaggioliRecord>, extract: (MaggioliRecord, nat, nat) -> Extraction)

  /** The job of a trace, given the content rules and any extractor service. */
  function EnrichJob(rules: Rules, records: seq<MaggioliRecord>, service: (MaggioliRecord, nat) -> Answer): Job {
    Job(records, (rec: MaggioliRecord, rowNum: nat, time: nat) => Extract(rules, rec, rowNum, service(rec, time)))
  }

  /** What the run relies on: an extracted row carries the record's PDF name, its warnings carry
      the row number, and its columns all belong to the file of its instalment count. */
  ghost predicate Extracts(job: Job) {
    forall rec, n: nat, t: nat :: rec in job.records ==> ExtractionFits(job.extract(rec, n, t), rec, n)
  }

  /** A job whose extraction does so. */
  type TraceJob = job: Job | Extracts(job) ghost witness NothingToDo()

  ghost function NothingToDo(): Job {
    Job([], (_: MaggioliRecord, _: nat, _: nat) => Extraction(map[], [], 0))
  }

  predicate AllNumbered(ws: seq<Warning>, n: nat) {
    forall w :: w in ws ==> w.row == n
  }

  lemma OutcomeNumbered(job: TraceJob, i: nat, t: nat)
    requires i < |job.records|
    ensures AllNumbered(Outcome(job, i, t).warnings, i + 1)
  {
  }

  ghost predicate ExtractionFits(e: Extraction, rec: MaggioliRecord, n: nat) {
    KeyOf(e.row) == rec.pdfFilename
    && AllNumbered(e.warnings, n)
    && (forall k :: k in e.row ==> k in Headers(e.rateCount))
  }

  lemma EnrichJobExtracts(rules: Rules, records: seq<MaggioliRecord>, service: (MaggioliRecord, nat) -> Answer)
    ensures Extracts(EnrichJob(rules, records, service))
  {
    var job := EnrichJob(rules, records, service);
    forall rec, n: nat, t: nat | rec in records ensures ExtractionFits(job.extract(rec, n, t), rec, n) {
      ExtractNumbers(rules, rec, n, service(rec, t));
      ExtractColumns(rules, rec, n, service(rec, t));
    }
  }

  function Outcome(job: Job, i: nat, time: nat): Extraction
    requires i < |job.records|
  {
    job.extract(job.records[i], i + 1, time)
  }

  function Max(a: nat, b: nat): nat {
    if a > b then a else b
  }

  // ------------------------------------------------------------- warnings by row

  function Of(ws: seq<Warning>, row: nat): seq<Warning> {
    if ws == [] then []
    else Of(ws[..|ws| - 1], row) + (if ws[|ws| - 1].row == row then [ws[|ws| - 1]] else [])
  }

  function Without(ws: seq<Warning>, row: nat): seq<Warning> {
    if ws == [] then []
    else Without(ws[..|ws| - 1], row) + (if ws[|ws| - 1].row == row then [] else [ws[|ws| - 1]])
  }

  lemma {:induction false} WithoutKeeps(ws: seq<Warning>, row: nat)
    ensures forall w :: w in Without(ws, row) ==> w in ws && w.row != row
  {
    if ws != [] {
      WithoutKeeps(ws[..|ws| - 1], row);
    }
  }

  lemma {:induction false} OfAppend(a: seq<Warning>, b: seq<Warning>, row: nat)
    ensures Of(a + b, row) == Of(a, row) + Of(b, row)
  {
    if b == [] {
      assert a + b == a;
    } else {
      var n := |b| - 1;
      assert (a + b)[..|a + b| - 1] == a + b[..n];
      OfAppend(a, b[..n], row);
    }
  }

  lemma {:induction false} OfUniform(ws: seq<Warning>, n: nat, row: nat)
    requires AllNumbered(ws, n)
    ensures Of(ws, row) == if n == row then ws else []
  {
    if ws != [] {
      var last := ws[|ws| - 1];
      assert last in ws && ws == ws[..|ws| - 1] + [last];
      OfUniform(ws[..|ws| - 1], n, row);
    }
  }

  lemma {:induction false} OfWithout(ws: seq<Warning>, gone: nat, row: nat)
    ensures Of(Without(ws, gone), row) == if row == gone then [] else Of(ws, row)
  {
    if ws != [] {
      OfWithout(ws[..|ws| - 1], gone, row);
      OfAppend(Without(ws[..|ws| - 1], gone), if ws[|ws| - 1].row == gone then [] else [ws[|ws| - 1]], row);
      OfUniform([ws[|ws| - 1]], ws[|ws| - 1].row, row);
    }
  }

  lemma {:induction false} WithoutAppend(a: seq<Warning>, b: seq<Warning>, row: nat)
    ensures Without(a + b, row) == Without(a, row) + Without(b, row)
  {
    if b == [] {
      assert a + b == a;
    } else {
      var n := |b| - 1;
      assert (a + b)[..|a + b| - 1] == a + b[..n];
      WithoutAppend(a, b[..n], row);
    }
  }

  lemma WithoutHead(ws: seq<Warning>, k: nat, row: nat)
    requires k < |ws|
    ensures Without(ws[k..], row) == (if ws[k].row == row then [] else [ws[k]]) + Without(ws[k + 1..], row)
  {
    assert ws[k..] == [ws[k]] + ws[k + 1..];
    WithoutAppend([ws[k]], ws[k + 1..], row);
    assert [ws[k]][..0] == [];
  }

  /** Removing a row's warnings in place, from the end to the start. */
  method SpliceWarnings(ws: seq<Warning>, row: nat) returns (r: seq<Warning>)
    ensures r == Without(ws, row)
  {
    r := ws;
    var k := |ws|;
    ghost var kept: seq<Warning> := [];
    while k > 0
      invariant 0 <= k <= |ws|
      invariant kept == Without(ws[k..], row) && r == ws[..k] + kept
    {
      k := k - 1;
      WithoutHead(ws, k, row);
      assert r[k] == ws[k] && r[..k] == ws[..k] && r[k + 1..] == kept;
      if r[k].row == row {
        r := r[..k] + r[k + 1..];
      } else {
        kept := [ws[k]] + kept;
        assert r == ws[..k] + kept;
      }
    }
    assert ws[0..] == ws;
  }

  // ------------------------------------------------------------- what a state of work is

  /** A row equals a freshly extracted one once the corrections are laid over both. */
  predicate Settles(row: Row, extracted: Row, os: seq<Override>) {
    KeyOf(row) == KeyOf(extracted) && ApplyRow(row, os) == ApplyRow(extracted, os)
  }

  /** A row and the warnings under its number both come from one extraction. */
  predicate RowIs(row: Row, ws: seq<Warning>, num: nat, e: Extraction, os: seq<Override>) {
    Settles(row, e.row, os) && Of(ws, num) == e.warnings
  }

  /** maxRate reaches every row's instalments and was reached by some answer about a record. */
  ghost predicate RateSound(job: Job, maxRate: nat, times: seq<nat>)
    requires |times| <= |job.records|
  {
    (forall i :: 0 <= i < |times| ==> Outcome(job, i, times[i]).rateCount <= maxRate)
    && (maxRate == 0 || exists i, t: nat :: 0 <= i < |times| && Outcome(job, i, t).rateCount == maxRate)
  }

  ghost predicate Sound(job: Job, rows: seq<Row>, warnings: seq<Warning>, maxRate: nat, times: seq<nat>, os: seq<Override>) {
    && |rows| == |times| <= |job.records|
    && (forall i :: 0 <= i < |rows| ==> RowIs(rows[i], warnings, i + 1, Outcome(job, i, times[i]), os))
    && (forall w :: w in warnings ==> 1 <= w.row <= |rows|)
    && RateSound(job, maxRate, times)
  }

  ghost predicate CheckpointSound(job: Job, c: Checkpoint, times: seq<nat>, os: seq<Override>) {
    Sound(job, c.rows, c.warnings, c.maxRate, times, os)
    && c.lastRow == |c.rows|
    && forall r :: r in c.retryRows ==> 1 <= r <= c.lastRow && OwnRetry(job.records, r)
  }

  lemma RowIsNew(ws: seq<Warning>, num: nat, e: Extraction, os: seq<Override>)
    requires forall w :: w in ws ==> w.row != num
    requires AllNumbered(e.warnings, num)
    ensures RowIs(e.row, ws + e.warnings, num, e, os)
  {
    OfNone(ws, num);
    OfAppend(ws, e.warnings, num);
    OfUniform(e.warnings, num, num);
  }

  lemma RowIsUntouched(row: Row, ws: seq<Warning>, num: nat, e: Extraction, os: seq<Override>, other: nat, extra: seq<Warning>)
    requires RowIs(row, ws, num, e, os) && num != other
    requires AllNumbered(extra, other)
    ensures RowIs(row, ws + extra, num, e, os)
    ensures RowIs(row, Without(ws, other) + extra, num, e, os)
  {
    OfUniform(extra, other, num);
    OfAppend(ws, extra, num);
    OfAppend(Without(ws, other), extra, num);
    OfWithout(ws, other, num);
  }

  lemma SoundPush(job: Job, rows: seq<Row>, warnings: seq<Warning>, maxRate: nat, times: seq<nat>, os: seq<Override>, t: nat)
    requires Sound(job, rows, warnings, maxRate, times, os) && |rows| < |job.records|
    requires AllNumbered(Outcome(job, |rows|, t).warnings, |rows| + 1)
    ensures var e := Outcome(job, |rows|, t);
      Sound(job, rows + [e.row], warnings + e.warnings, Max(maxRate, e.rateCount), times + [t], os)
  {
    var n := |rows|;
    var e := Outcome(job, n, t);
    RowIsNew(warnings, n + 1, e, os);
    RowsUntouched(job, rows, warnings, times, os, n + 1, e.warnings);
    RateGrows(job, maxRate, times, times + [t], n, t);
  }

  /** The other rows keep their warnings when one number's warnings are replaced or added. */
  lemma RowsUntouched(job: Job, rows: seq<Row>, ws: seq<Warning>, times: seq<nat>, os: seq<Override>,
      other: nat, extra: seq<Warning>)
    requires |rows| == |times| <= |job.records| && AllNumbered(extra, other)
    requires forall i :: 0 <= i < |rows| ==> RowIs(rows[i], ws, i + 1, Outcome(job, i, times[i]), os)
    ensures forall i :: 0 <= i < |rows| && i + 1 != other ==>
      RowIs(rows[i], ws + extra, i + 1, Outcome(job, i, times[i]), os)
      && RowIs(rows[i], Without(ws, other) + extra, i + 1, Outcome(job, i, times[i]), os)
  {
    forall i | 0 <= i < |rows| && i + 1 != other
      ensures RowIs(rows[i], ws + extra, i + 1, Outcome(job, i, times[i]), os)
      ensures RowIs(rows[i], Without(ws, other) + extra, i + 1, Outcome(job, i, times[i]), os)
    {
      RowIsUntouched(rows[i], ws, i + 1, Outcome(job, i, times[i]), os, other, extra);
    }
  }

  lemma {:induction false} OfNone(ws: seq<Warning>, row: nat)
    requires forall w :: w in ws ==> w.row != row
    ensures Of(ws, row) == []
  {
    if ws != [] {
      assert ws[|ws| - 1] in ws;
      OfNone(ws[..|ws| - 1], row);
    }
  }

  lemma RateGrows(job: Job, maxRate: nat, times: seq<nat>, times': seq<nat>, k: nat, t: nat)
    requires |times| <= |times'| <= |job.records|
    requires RateSound(job, maxRate, times)
    requires k < |times'| && times'[k] == t
    requires forall i :: 0 <= i < |times'| && i != k ==> i < |times| && times'[i] == times[i]
    ensures var c := Outcome(job, k, t).rateCount;
      RateSound(job, Max(maxRate, c), times')
  {
  }

  lemma SoundReplace(job: Job, rows: seq<Row>, warnings: seq<Warning>, maxRate: nat, times: seq<nat>, os: seq<Override>,
      k: nat, t: nat)
    requires Sound(job, rows, warnings, maxRate, times, os) && k < |rows|
    requires AllNumbered(Outcome(job, k, t).warnings, k + 1)
    ensures var e := Outcome(job, k, t);
      Sound(job, rows[k := e.row], Without(warnings, k + 1) + e.warnings, Max(maxRate, e.rateCount), times[k := t], os)
  {
    var e := Outcome(job, k, t);
    var kept := Without(warnings, k + 1);
    WithoutKeeps(warnings, k + 1);
    RowIsNew(kept, k + 1, e, os);
    RowsUntouched(job, rows, warnings, times, os, k + 1, e.warnings);
    RateGrows(job, maxRate, times, times[k := t], k, t);
  }

  /** Laying the corrections over the rows in hand, as a checkpoint does, changes nothing that counts. */
  lemma SoundPatch(job: Job, rows: seq<Row>, warnings: seq<Warning>, maxRate: nat, times: seq<nat>, os: seq<Override>)
    requires Sound(job, rows, warnings, maxRate, times, os) && KeepsKey(os)
    ensures Sound(job, ApplyOverrides(rows, os), warnings, maxRate, times, os)
  {
    forall i | 0 <= i < |rows|
      ensures RowIs(ApplyRow(rows[i], os), warnings, i + 1, Outcome(job, i, times[i]), os)
    {
      ApplyKeepsKey(rows[i], os);
      AbsorbRow(rows[i], os, os);
    }
  }

  /** Corrections may grow while the job runs. */
  lemma SoundCovers(job: Job, rows: seq<Row>, warnings: seq<Warning>, maxRate: nat, times: seq<nat>,
      os: seq<Override>, later: seq<Override>)
    requires Sound(job, rows, warnings, maxRate, times, os) && Covers(os, later) && KeepsKey(os)
    ensures Sound(job, rows, warnings, maxRate, times, later)
  {
    forall i | 0 <= i < |rows|
      ensures RowIs(rows[i], warnings, i + 1, Outcome(job, i, times[i]), later)
    {
      AbsorbRow(rows[i], os, later);
      AbsorbRow(Outcome(job, i, times[i]).row, os, later);
    }
  }

  // ------------------------------------------------------------- the end of a run

  /** The rows as extracted at the given moments, before any correction. */
  function ExtractedRows(job: Job, times: seq<nat>): (rows: seq<Row>)
    requires |times| <= |job.records|
    ensures |rows| == |times|
    ensures forall i :: 0 <= i < |times| ==> rows[i] == Outcome(job, i, times[i]).row
  {
    seq(|times|, i requires 0 <= i < |times| => Outcome(job, i, times[i]).row)
  }

  /** The warnings of the extractions, row after row. */
  function AllWarnings(job: Job, times: seq<nat>): seq<Warning>
    requires |times| <= |job.records|
  {
    if times == [] then []
    else AllWarnings(job, times[..|times| - 1]) + Outcome(job, |times| - 1, times[|times| - 1]).warnings
  }

  function FinalCsv(job: Job, times: seq<nat>, maxRate: nat, os: seq<Override>): string
    requires |times| <= |job.records|
  {
    Csv(Headers(maxRate), ApplyOverrides(ExtractedRows(job, times), os))
  }

  /** Whatever patches the rows in hand went through, the printed file is that of the extractions. */
  lemma SoundFinal(job: Job, rows: seq<Row>, warnings: seq<Warning>, maxRate: nat, times: seq<nat>, os: seq<Override>)
    requires Sound(job, rows, warnings, maxRate, times, os)
    ensures Csv(Headers(maxRate), ApplyOverrides(rows, os)) == FinalCsv(job, times, maxRate, os)
  {
    var extracted := ExtractedRows(job, times);
    forall i | 0 <= i < |rows| ensures ApplyRow(rows[i], os) == ApplyRow(extracted[i], os) {
      assert RowIs(rows[i], warnings, i + 1, Outcome(job, i, times[i]), os);
    }
    assert ApplyOverrides(rows, os) == ApplyOverrides(extracted, os);
  }

  /** No extracted value is lost: every column of every extracted row is a column of the file. */
  lemma ColumnsPrinted(job: Job, rows: seq<Row>, warnings: seq<Warning>, maxRate: nat, times: seq<nat>, os: seq<Override>,
      i: nat, k: string)
    requires Extracts(job) && Sound(job, rows, warnings, maxRate, times, os)
    requires i < |rows| && k in Outcome(job, i, times[i]).row
    ensures k in Headers(maxRate)
  {
    var e := Outcome(job, i, times[i]);
    assert ExtractionFits(e, job.records[i], i + 1);
    HeadersAre(e.rateCount, k);
    HeadersAre(maxRate, k);
    if IsRateKey(k, e.rateCount) {
      var n: nat, f :| 1 <= n <= e.rateCount && IsRateField(f) && k == RateKey(n, f);
      assert n <= maxRate;
    }
  }

  // ------------------------------------------------------------- a deterministic extractor

  /** The extractor answers the same whenever it is asked. */
  ghost predicate Deterministic(job: Job) {
    forall rec, n: nat, t: nat, u: nat :: job.extract(rec, n, t) == job.extract(rec, n, u)
  }

  function FirstTime(n: nat): (times: seq<nat>)
    ensures |times| == n
  {
    seq(n, _ => 0)
  }

  function MaxRate(job: Job, n: nat): nat
    requires n <= |job.records|
  {
    if n == 0 then 0 else Max(MaxRate(job, n - 1), Outcome(job, n - 1, 0).rateCount)
  }

  /** The CSV of a run that meets no crash and no retry. */
  function Uninterrupted(job: Job, os: seq<Override>): string {
    FinalCsv(job, FirstTime(|job.records|), MaxRate(job, |job.records|), os)
  }

  lemma {:induction false} MaxRateIs(job: Job, n: nat, maxRate: nat)
    requires n <= |job.records|
    requires forall i :: 0 <= i < n ==> Outcome(job, i, 0).rateCount <= maxRate
    requires maxRate == 0 || exists i :: 0 <= i < n && Outcome(job, i, 0).rateCount == maxRate
    ensures MaxRate(job, n) == maxRate
  {
    if n > 0 {
      MaxRateBounds(job, n);
      if maxRate > 0 {
        var i :| 0 <= i < n && Outcome(job, i, 0).rateCount == maxRate;
        assert Outcome(job, i, 0).rateCount <= MaxRate(job, n);
      }
    }
  }

  lemma {:induction false} MaxRateBounds(job: Job, n: nat)
    requires n <= |job.records|
    ensures forall i :: 0 <= i < n ==> Outcome(job, i, 0).rateCount <= MaxRate(job, n)
    ensures MaxRate(job, n) == 0 || exists i :: 0 <= i < n && Outcome(job, i, 0).rateCount == MaxRate(job, n)
  {
    if n > 0 {
      MaxRateBounds(job, n - 1);
      assert Outcome(job, n - 1, 0).rateCount <= MaxRate(job, n);
    }
  }

  /** With a deterministic extractor, complete work, whenever its rows were extracted, prints the one CSV of the
      uninterrupted run, and its maxRate is the largest instalment count of the records. */
  lemma DeterministicFinal(job: Job, maxRate: nat, times: seq<nat>, os: seq<Override>)
    requires Deterministic(job)
    requires |times| == |job.records| && RateSound(job, maxRate, times)
    ensures maxRate == MaxRate(job, |job.records|)
    ensures FinalCsv(job, times, maxRate, os) == Uninterrupted(job, os)
    ensures AllWarnings(job, times) == AllWarnings(job, FirstTime(|times|))
  {
    var n := |job.records|;
    forall i, t: nat | 0 <= i < n ensures Outcome(job, i, t) == Outcome(job, i, 0) {
      assert job.extract(job.records[i], i + 1, t) == job.extract(job.records[i], i + 1, 0);
    }
    forall i | 0 <= i < n ensures Outcome(job, i, 0).rateCount <= maxRate {
      assert Outcome(job, i, times[i]).rateCount <= maxRate;
    }
    if maxRate > 0 {
      var i, t: nat :| 0 <= i < n && Outcome(job, i, t).rateCount == maxRate;
      assert Outcome(job, i, 0).rateCount == maxRate;
    }
    MaxRateIs(job, n, maxRate);
    assert ExtractedRows(job, times) == ExtractedRows(job, FirstTime(n));
    SameWarnings(job, times);
  }

  lemma {:induction false} SameWarnings(job: Job, times: seq<nat>)
    requires Deterministic(job) && |times| <= |job.records|
    ensures AllWarnings(job, times) == AllWarnings(job, FirstTime(|times|))
  {
    var n := |times|;
    if n > 0 {
      SameWarnings(job, times[..n - 1]);
      assert FirstTime(n)[..n - 1] == FirstTime(n - 1);
      assert job.extract(job.records[n - 1], n, times[n - 1]) == job.extract(job.records[n - 1], n, 0);
    }
  }

  // ------------------------------------------------------------- which record a retry extracts

  /** `recordsByPdf.get(name)`: the last record of that name; an empty name is never looked up. */
  function RecordFor(records: seq<MaggioliRecord>, pdf: string): (r: Option<nat>)
    ensures r.Some? ==> r.value < |records| && records[r.value].pdfFilename == pdf && pdf != ""
  {
    if pdf == "" || records == [] then None
    else if records[|records| - 1].pdfFilename == pdf then Some(|records| - 1)
    else RecordFor(records[..|records| - 1], pdf)
  }

  predicate NameTakenLater(records: seq<MaggioliRecord>, i: nat)
    requires i < |records|
  {
    exists j :: i < j < |records| && records[j].pdfFilename == records[i].pdfFilename
  }

  /** A retry of row i extracts record i exactly when the record names a PDF and no later record
      of the trace names the same one; otherwise it extracts nothing or somebody else's record. */
  lemma {:induction false} RetryFindsOwnRecord(records: seq<MaggioliRecord>, i: nat)
    requires i < |records|
    ensures RecordFor(records, records[i].pdfFilename) == Some(i)
      <==> records[i].pdfFilename != "" && !NameTakenLater(records, i)
  {
    var n := |records| - 1;
    if records[i].pdfFilename != "" && i < n {
      var shorter := records[..n];
      RetryFindsOwnRecord(shorter, i);
      if records[n].pdfFilename != records[i].pdfFilename {
        if NameTakenLater(records, i) {
          var j :| i < j < |records| && records[j].pdfFilename == records[i].pdfFilename;
          assert shorter[j].pdfFilename == shorter[i].pdfFilename;
        }
        if NameTakenLater(shorter, i) {
          var j :| i < j < |shorter| && shorter[j].pdfFilename == shorter[i].pdfFilename;
          assert records[j].pdfFilename == records[i].pdfFilename;
        }
      }
    }
  }

  /** A retry of the row extracts its own record, or nothing when that names no PDF. */
  predicate OwnRetry(records: seq<MaggioliRecord>, rowNum: nat) {
    1 <= rowNum <= |records| && (records[rowNum - 1].pdfFilename == "" || !NameTakenLater(records, rowNum - 1))
  }
}
