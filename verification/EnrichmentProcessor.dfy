/** The enrichment worker itself: memory lives in the local variables of a run, the disk and
    the database in the fields, and every await is a call of Await, where other requests may
    run and the process may die. */
module EnrichmentProcessing {
  import opened Text
  import opened EnrichedCsv
  import opened AddressOverrides
  import opened RowExtraction
  import opened EnrichmentRun

  /** `[...new Set(xs)]`. */
  function Dedup(xs: seq<nat>): (r: seq<nat>)
    ensures forall x :: x in r <==> x in xs
    ensures forall i, j :: 0 <= i < j < |r| ==> r[i] != r[j]
  {
    if xs == [] then []
    else
      assert xs == xs[..|xs| - 1] + [xs[|xs| - 1]];
      var before := Dedup(xs[..|xs| - 1]);
      if xs[|xs| - 1] in before then before else before + [xs[|xs| - 1]]
  }

  predicate IsFailure(message: string) {
    "Estrazione fallita:" <= message
  }

  /** Some warning says that the extraction of the row failed. */
  predicate HasFailed(ws: seq<Warning>, n: nat) {
    exists k :: 0 <= k < |ws| && ws[k].row == n && IsFailure(ws[k].message)
  }

  function FailedRows(ws: seq<Warning>): (r: seq<nat>)
    ensures forall n: nat :: n in r <==> HasFailed(ws, n)
  {
    if ws == [] then []
    else
      var n := |ws| - 1;
      assert forall k :: 0 <= k < n ==> ws[..n][k] == ws[k];
      FailedRows(ws[..n]) + (if "Estrazione fallita:" <= ws[n].message then [ws[n].row] else [])
  }

  /** A retry queues the row of an extraction exactly when the extractor failed on it, or reported a warning that
      says so itself; neither a missing PDF nor any content rule does. */
  lemma FailureIsRetried(rules: Rules, rec: MaggioliRecord, rowNum: nat, answer: Answer)
    ensures rowNum in FailedRows(Extract(rules, rec, rowNum, answer).warnings)
      <==> (answer.ExtractionFailed? || (answer.Extracted? && SaysFailed(answer.result.warnings)))
  {
    var row := if answer.Extracted? then Read(rec, answer.result) else BaseRow(rec);
    var found := if answer.Extracted? then answer.result.fiscalCode else None;
    var a := Numbered(AnswerMessages(answer), rowNum, rec.pdfFilename);
    var b := Numbered(ContentMessages(rules, row, found), rowNum, rec.pdfFilename);
    assert Extract(rules, rec, rowNum, answer).warnings == a + b;
    FailsAppend(a, b, rowNum);
    NumberedFails(AnswerMessages(answer), rowNum, rec.pdfFilename);
    NumberedFails(ContentMessages(rules, row, found), rowNum, rec.pdfFilename);
    ContentNeverFails(rules, row, found);
    AnswerFails(answer);
  }

  predicate SaysFailed(messages: seq<string>) {
    exists k :: 0 <= k < |messages| && IsFailure(messages[k])
  }

  lemma AnswerFails(answer: Answer)
    ensures SaysFailed(AnswerMessages(answer))
      <==> (answer.ExtractionFailed? || (answer.Extracted? && SaysFailed(answer.result.warnings)))
  {
    var messages := AnswerMessages(answer);
    if answer.ExtractionFailed? {
      assert IsFailure(messages[0]);
    } else if answer.PdfMissing? {
      assert messages[0][0] == 'P';
    }
  }

  lemma FailsAppend(a: seq<Warning>, b: seq<Warning>, n: nat)
    ensures HasFailed(a + b, n) <==> HasFailed(a, n) || HasFailed(b, n)
  {
    assert forall k :: 0 <= k < |a| ==> (a + b)[k] == a[k];
    assert forall k :: 0 <= k < |b| ==> (a + b)[|a| + k] == b[k];
  }

  lemma NumberedFails(messages: seq<string>, rowNum: nat, pdf: string)
    ensures HasFailed(Numbered(messages, rowNum, pdf), rowNum) <==> SaysFailed(messages)
  {
    var ws := Numbered(messages, rowNum, pdf);
    assert forall k :: 0 <= k < |ws| ==> ws[k] == Warning(rowNum, pdf, messages[k]);
  }

  predicate NoneFails(messages: seq<string>) {
    forall k :: 0 <= k < |messages| ==> messages[k] != "" && messages[k][0] != 'E'
  }

  lemma ContentNeverFails(rules: Rules, row: Row, found: Option<string>)
    ensures !SaysFailed(ContentMessages(rules, row, found))
  {
    CountryNeverFails(rules, row);
    CityNeverFails(rules, row);
    AreaNeverFails(rules, row);
    TaxIdNeverFails(rules, row, found);
    ContentNoneFails(ContentMessages(rules, row, found));
  }

  lemma ContentNoneFails(messages: seq<string>)
    requires NoneFails(messages)
    ensures !SaysFailed(messages)
  {
    forall k | 0 <= k < |messages| ensures !IsFailure(messages[k]) {
      assert messages[k][0] != 'E';
    }
  }

  lemma CountryNeverFails(rules: Rules, row: Row)
    ensures NoneFails(CountryMessages(rules, row))
  {
  }

  lemma CityNeverFails(rules: Rules, row: Row)
    ensures NoneFails(CityMessages(rules, row))
  {
  }

  lemma AreaNeverFails(rules: Rules, row: Row)
    ensures NoneFails(AreaMessages(rules, row))
  {
  }

  lemma TaxIdNeverFails(rules: Rules, row: Row, found: Option<string>)
    ensures NoneFails(TaxIdMessages(rules, row, found))
  {
    assert TAX_ID[0] == 'C';
  }

  ghost predicate NobodyFailed(ws: seq<Warning>) {
    forall n: nat :: !HasFailed(ws, n)
  }

  lemma NoFailedRows(ws: seq<Warning>)
    ensures FailedRows(ws) == [] <==> NobodyFailed(ws)
  {
    if FailedRows(ws) != [] {
      assert FailedRows(ws)[0] in FailedRows(ws);
    } else {
      assert forall n: nat :: n !in FailedRows(ws);
    }
  }

  function Others(xs: seq<nat>, x: nat): (r: seq<nat>)
    ensures forall y :: y in r <==> y in xs && y != x
    ensures x in xs ==> |r| < |xs|
    ensures |r| <= |xs|
  {
    if xs == [] then []
    else
      assert xs == [xs[0]] + xs[1..];
      (if xs[0] == x then [] else [xs[0]]) + Others(xs[1..], x)
  }

  function SetOf(xs: seq<nat>): set<nat> {
    set x | x in xs
  }

  /** What other requests can move while the worker waits. */
  datatype Moment = Moment(clock: nat, overrides: seq<Override>, asked: seq<nat>, pending: set<nat>)

  /** Time has passed, corrections have only grown, requests have only been added, and exactly
      the added ones joined those waiting. */
  ghost predicate Waited(before: Moment, after: Moment) {
    && before.clock <= after.clock
    && Covers(before.overrides, after.overrides)
    && before.asked <= after.asked
    && after.pending == before.pending + SetOf(after.asked[|before.asked|..])
  }

  /** As Waited, when the worker itself may have taken rows off the retry list. */
  ghost predicate Grown(before: Moment, after: Moment) {
    before.clock <= after.clock && Covers(before.overrides, after.overrides) && before.asked <= after.asked
  }

  /** Retry requests have been served after a given moment: exactly the rows waiting were extracted again,
      except that a row without a PDF name has nothing to extract. */
  predicate Served(job: Job, waiting: set<nat>, before: seq<nat>, after: seq<nat>, since: nat) {
    && |after| == |before| == |job.records|
    && forall i :: 0 <= i < |before| ==>
         if i + 1 in waiting && job.records[i].pdfFilename != "" then after[i] >= since else after[i] == before[i]
  }

  /** The name kept in a row leads back to its record, unless a later record took the name. */
  lemma OwnRecord(job: TraceJob, rows: seq<Row>, warnings: seq<Warning>, maxRate: nat, ts: seq<nat>, os: seq<Override>, k: nat)
    requires Sound(job, rows, warnings, maxRate, ts, os) && k < |rows| && OwnRetry(job.records, k + 1)
    ensures RecordFor(job.records, KeyOf(rows[k])) == if job.records[k].pdfFilename == "" then None else Some(k)
  {
    assert RowIs(rows[k], warnings, k + 1, Outcome(job, k, ts[k]), os);
    assert ExtractionFits(Outcome(job, k, ts[k]), job.records[k], k + 1);
    RetryFindsOwnRecord(job.records, k);
  }

  /** Rows pushed since the last row number at which the main pass saves. */
  ghost function SinceCheckpoint(n: nat): nat {
    if n % CHECKPOINT_EVERY == 0 then 0 else SinceCheckpoint(n - 1) + 1
  }

  lemma {:induction false} SinceCheckpointBound(n: nat)
    ensures SinceCheckpoint(n) == n % CHECKPOINT_EVERY
  {
    if n % CHECKPOINT_EVERY != 0 {
      SinceCheckpointBound(n - 1);
    }
  }

  lemma WaitedReflexive(m: Moment)
    ensures Waited(m, m)
  {
  }

  lemma WaitedTwice(a: Moment, b: Moment, c: Moment)
    requires Waited(a, b) && Waited(b, c)
    ensures Waited(a, c)
  {
  }

  class EnrichmentProcessor {
    const job: TraceJob
    /** checkpoint.json */
    var checkpoint: Option<Checkpoint>
    /** enrichment_address_overrides */
    var overrides: seq<Override>
    /** result.csv and the job record */
    var result: Option<string>
    var warningsStored: seq<Warning>
    var status: JobStatus
    var clock: nat
    /** When the rows of the checkpoint were extracted. */
    ghost var times: seq<nat>
    /** Rows of all accepted retry requests, in order of request. */
    ghost var asked: seq<nat>
    /** Some row was extracted again by the retry phase. */
    ghost var retried: bool
    /** How often the process has died. */
    ghost var crashes: nat

    ghost predicate Valid()
      reads this
    {
      && KeepsKey(overrides)
      && (checkpoint.Some? ==>
            && CheckpointSound(job, checkpoint.value, times, overrides)
            && (forall t :: t in times ==> t < clock)
            && (!retried ==> checkpoint.value.warnings == AllWarnings(job, times)))
    }

    /** Rows waiting for a retry. */
    function Pending(): set<nat>
      reads this
    {
      if checkpoint.Some? then SetOf(checkpoint.value.retryRows) else {}
    }

    ghost function Now(): Moment
      reads this
    {
      Moment(clock, overrides, asked, Pending())
    }

    /** Work in memory is sound now and was done before now. */
    ghost predicate InHand(rows: seq<Row>, warnings: seq<Warning>, maxRate: nat, ts: seq<nat>)
      reads this
    {
      && Sound(job, rows, warnings, maxRate, ts, overrides)
      && (forall t :: t in ts ==> t < clock)
      && (!retried ==> warnings == AllWarnings(job, ts))
    }

    /** Rows safe on disk. */
    function SavedRows(): nat
      reads this
    {
      if checkpoint.Some? then checkpoint.value.lastRow else 0
    }

    /** On disk nothing but the retry list differs. */
    ghost predicate DiskKept(before: Option<Checkpoint>)
      reads this
    {
      && (checkpoint.Some? <==> before.Some?)
      && (checkpoint.Some? ==> checkpoint.value == before.value.(retryRows := checkpoint.value.retryRows))
    }

    constructor (job: TraceJob)
      ensures Valid() && this.job == job && checkpoint == None && result == None && status == QUEUED
      ensures overrides == [] && !retried
    {
      this.job := job;
      checkpoint, overrides, result, warningsStored, status, clock := None, [], None, [], QUEUED, 1;
      times, asked, retried, crashes := [], [], false, 0;
    }

    /** Every failed row on disk can be told from the others by its PDF name. */
    predicate FailedRowsOwn()
      reads this
    {
      checkpoint.Some? ==> forall r :: r in FailedRows(checkpoint.value.warnings) ==> OwnRetry(job.records, r)
    }

    /** Operator asks to retry the rows whose extraction failed: only the retry list is written. A row whose
        PDF name a later record repeats would be given that record, and the state would not be valid. */
    method RetryFailedPdfs() returns (queuedRows: Option<nat>)
      requires Valid()
      modifies this`checkpoint, this`asked
      ensures Valid() <==> queuedRows.None? || old(FailedRowsOwn())
      ensures queuedRows.None? <==> old(status) != PROCESSING || old(checkpoint).None?
      ensures DiskKept(old(checkpoint))
      ensures Waited(old(Now()), Now())
      ensures queuedRows.Some? ==>
        forall n: nat :: n in Pending() <==> n in old(Pending()) || HasFailed(old(checkpoint.value).warnings, n)
      ensures queuedRows.Some? && NobodyFailed(old(checkpoint.value).warnings) ==>
        queuedRows.value == 0 && checkpoint == old(checkpoint)
      ensures queuedRows.Some? && !NobodyFailed(old(checkpoint.value).warnings) ==>
        queuedRows.value == |checkpoint.value.retryRows|
    {
      if status != PROCESSING || checkpoint.None? {
        return None;
      }
      var c := checkpoint.value;
      var failedRows := FailedRows(c.warnings);
      NoFailedRows(c.warnings);
      if failedRows == [] {
        return Some(0);
      }
      var retryRows := Dedup(c.retryRows + failedRows);
      checkpoint := Some(c.(retryRows := retryRows));
      asked := asked + retryRows;
      return Some(|retryRows|);
    }

    /** The rows an operator sees: those of the file once done, of the checkpoint before. */
    function CurrentRows(): seq<Row>
      reads this
    {
      if status == DONE then (if result.Some? then Parse(result.value).rows else [])
      else if checkpoint.Some? then checkpoint.value.rows else []
    }

    predicate HasRow(pdf: string)
      reads this
    {
      exists i :: 0 <= i < |CurrentRows()| && Get(CurrentRows()[i], "allegato") == Some(pdf)
    }

    /** Operator saves a correction; the stored one for the same PDF is replaced. Refused when no row
        names the PDF. Work in hand and on disk survives it when it sets every column that the replaced
        one set. */
    method SaveRowOverride(pdf: string, fields: map<string, string>) returns (saved: bool)
      requires Valid()
      modifies this`overrides
      ensures saved <==> old(HasRow(pdf))
      ensures overrides == (if saved then old(overrides) + [SavedOverride(pdf, fields)] else old(overrides)) && KeepsKey(overrides)
      ensures saved ==> Replaces(old(overrides), overrides, pdf, fields)
      ensures FieldsFor(old(overrides), pdf).Keys <= Fields(SavedOverride(pdf, fields)).Keys
        ==> Valid() && Covers(old(overrides), overrides)
    {
      saved := HasRow(pdf);
      CoversReflexive(overrides);
      if !saved { return; }
      var o := SavedOverride(pdf, fields);
      SavedOverrideKeepsKey(pdf, fields);
      if FieldsFor(overrides, pdf).Keys <= Fields(o).Keys {
        UpsertCovers(overrides, o);
        if checkpoint.Some? {
          var c := checkpoint.value;
          SoundCovers(job, c.rows, c.warnings, c.maxRate, times, overrides, overrides + [o]);
        }
      }
      SavedReplaces(overrides, pdf, fields);
      overrides := overrides + [o];
    }

    /** An await: any number of operator requests are served, time passes, the process may die.
        A correction saved meanwhile sets every column that the one it replaces set, and a retry
        asked for meanwhile concerns rows whose PDF name no later record repeats. */
    method Await() returns (crashed: bool)
      requires Valid()
      modifies this`checkpoint, this`asked, this`overrides, this`clock, this`crashes
      ensures Valid() && DiskKept(old(checkpoint)) && Waited(old(Now()), Now())
      ensures crashes == old(crashes) + if crashed then 1 else 0
    {
      var requests: nat := *;
      WaitedReflexive(Now());
      while requests > 0
        invariant Valid() && DiskKept(old(checkpoint)) && Waited(old(Now()), Now()) && crashes == old(crashes)
      {
        var kind: nat := *;
        ghost var before := Now();
        if kind == 0 && FailedRowsOwn() {
          var _ := RetryFailedPdfs();
        } else if kind == 1 {
          var pdf: string, fields: map<string, string> := *, *;
          CoversReflexive(overrides);
          if FieldsFor(overrides, pdf).Keys <= Fields(SavedOverride(pdf, fields)).Keys {
            var _ := SaveRowOverride(pdf, fields);
          }
        } else {
          CoversReflexive(overrides);
          clock := clock + 1;
        }
        WaitedTwice(old(Now()), before, Now());
        requests := requests - 1;
      }
      crashed := *;
      if crashed {
        crashes := crashes + 1;
      }
    }

    /** Atomic replacement of the checkpoint file with the rows in hand, corrected. */
    method WriteCheckpoint(rows: seq<Row>, warnings: seq<Warning>, maxRate: nat, retryRows: seq<nat>, ghost ts: seq<nat>)
      requires Valid() && InHand(rows, warnings, maxRate, ts)
      requires forall r :: r in retryRows ==> 1 <= r <= |rows| && OwnRetry(job.records, r)
      modifies this`checkpoint, this`times
      ensures Valid() && times == ts
      ensures checkpoint == Some(Checkpoint(|rows|, ApplyOverrides(rows, overrides), warnings, maxRate, retryRows))
    {
      SoundPatch(job, rows, warnings, maxRate, ts, overrides);
      checkpoint := Some(Checkpoint(|rows|, ApplyOverrides(rows, overrides), warnings, maxRate, retryRows));
      times := ts;
    }

    /** Work in hand stays sound across an await. */
    lemma StillInHand(rows: seq<Row>, warnings: seq<Warning>, maxRate: nat, ts: seq<nat>, before: seq<Override>, since: nat)
      requires Sound(job, rows, warnings, maxRate, ts, before) && KeepsKey(before)
      requires Covers(before, overrides) && since <= clock
      requires forall t :: t in ts ==> t < since
      requires !retried ==> warnings == AllWarnings(job, ts)
      ensures InHand(rows, warnings, maxRate, ts)
    {
      SoundCovers(job, rows, warnings, maxRate, ts, before, overrides);
    }

    /** extractRowData for record i, awaited; on a crash nothing of it remains. */
    method ExtractAwaited(i: nat, rows: seq<Row>, warnings: seq<Warning>, maxRate: nat, ghost ts: seq<nat>)
      returns (crashed: bool, e: Extraction, ghost t: nat)
      requires Valid() && InHand(rows, warnings, maxRate, ts) && i < |job.records|
      modifies this`checkpoint, this`asked, this`overrides, this`clock, this`crashes
      ensures Valid() && InHand(rows, warnings, maxRate, ts)
      ensures DiskKept(old(checkpoint)) && Waited(old(Now()), Now())
      ensures e == Outcome(job, i, t) && old(clock) <= t < clock && AllNumbered(e.warnings, i + 1)
      ensures crashes == old(crashes) + if crashed then 1 else 0
    {
      ghost var before, since := overrides, clock;
      crashed := Await();
      StillInHand(rows, warnings, maxRate, ts, before, since);
      e := job.extract(job.records[i], i + 1, clock);
      t := clock;
      clock := clock + 1;
      OutcomeNumbered(job, i, t);
    }

    /** A database await in the middle of the work in hand. */
    method SaveAwaited(rows: seq<Row>, warnings: seq<Warning>, maxRate: nat, ghost ts: seq<nat>) returns (crashed: bool)
      requires Valid() && InHand(rows, warnings, maxRate, ts)
      modifies this`checkpoint, this`asked, this`overrides, this`clock, this`crashes
      ensures Valid() && InHand(rows, warnings, maxRate, ts)
      ensures DiskKept(old(checkpoint)) && Waited(old(Now()), Now())
      ensures crashes == old(crashes) + if crashed then 1 else 0
    {
      ghost var before, since := overrides, clock;
      crashed := Await();
      StillInHand(rows, warnings, maxRate, ts, before, since);
    }

    /** One turn of the main loop up to `rows.push(row)`. */
    method PushNext(rows0: seq<Row>, warnings0: seq<Warning>, maxRate0: nat, ghost ts0: seq<nat>)
      returns (crashed: bool, rows: seq<Row>, warnings: seq<Warning>, maxRate: nat, ghost ts: seq<nat>)
      requires Valid() && InHand(rows0, warnings0, maxRate0, ts0) && |rows0| < |job.records|
      modifies this`checkpoint, this`asked, this`overrides, this`clock, this`crashes
      ensures Valid() && Waited(old(Now()), Now())
      ensures InHand(rows, warnings, maxRate, ts) && |rows| == |rows0| + 1
      ensures DiskKept(old(checkpoint))
      ensures crashes == old(crashes) + if crashed then 1 else 0
    {
      ghost var t;
      var e;
      crashed, e, t := ExtractAwaited(|rows0|, rows0, warnings0, maxRate0, ts0);
      SoundPush(job, rows0, warnings0, maxRate0, ts0, overrides, t);
      WarningsPush(job, ts0, t);
      warnings := warnings0 + e.warnings;
      maxRate := Max(maxRate0, e.rateCount);
      rows, ts := rows0 + [e.row], ts0 + [t];
    }

    /** The checkpoint of the main pass: the retry list is read from disk at the very moment of
        writing, so what was requested meanwhile is kept. */
    method SaveCheckpoint(rows: seq<Row>, warnings: seq<Warning>, maxRate: nat, ghost ts: seq<nat>) returns (crashed: bool)
      requires Valid() && InHand(rows, warnings, maxRate, ts) && SavedRows() <= |rows|
      modifies this`checkpoint, this`asked, this`overrides, this`clock, this`times, this`crashes
      ensures Valid() && InHand(rows, warnings, maxRate, ts) && Waited(old(Now()), Now())
      ensures SavedRows() == |rows| || (crashed && SavedRows() == old(SavedRows()))
      ensures crashes == old(crashes) + if crashed then 1 else 0
    {
      crashed := SaveAwaited(rows, warnings, maxRate, ts);
      if crashed { return; }
      var retryRows := if checkpoint.Some? then checkpoint.value.retryRows else [];
      WriteCheckpoint(rows, warnings, maxRate, retryRows, ts);
      ghost var m := Now();
      crashed := SaveAwaited(rows, warnings, maxRate, ts);
      WaitedTwice(old(Now()), m, Now());
    }

    /** The periodic writes at the end of a turn: progress every 10 rows, checkpoint every 100. */
    method SaveProgress(rows: seq<Row>, warnings: seq<Warning>, maxRate: nat, ghost ts: seq<nat>) returns (crashed: bool)
      requires Valid() && InHand(rows, warnings, maxRate, ts)
      requires SavedRows() <= |rows| <= SavedRows() + 100
      requires |rows| > 0 && |rows| - 1 <= SavedRows() + SinceCheckpoint(|rows| - 1)
      modifies this`checkpoint, this`asked, this`overrides, this`clock, this`times, this`crashes
      ensures Valid() && InHand(rows, warnings, maxRate, ts) && Waited(old(Now()), Now())
      ensures old(SavedRows()) <= SavedRows() <= |rows| <= SavedRows() + 100
      ensures !crashed ==> |rows| <= SavedRows() + SinceCheckpoint(|rows|)
      ensures crashes == old(crashes) + if crashed then 1 else 0
    {
      crashed := false;
      WaitedReflexive(Now());
      if |rows| % PROGRESS_UPDATE_EVERY == 0 {
        crashed := SaveAwaited(rows, warnings, maxRate, ts);
        if crashed { return; }
      }
      if |rows| % CHECKPOINT_EVERY == 0 {
        ghost var m := Now();
        crashed := SaveCheckpoint(rows, warnings, maxRate, ts);
        WaitedTwice(old(Now()), m, Now());
      }
    }

    /** One whole turn of the main loop. */
    method MainTurn(rows0: seq<Row>, warnings0: seq<Warning>, maxRate0: nat, ghost ts0: seq<nat>)
      returns (crashed: bool, rows: seq<Row>, warnings: seq<Warning>, maxRate: nat, ghost ts: seq<nat>)
      requires Valid() && InHand(rows0, warnings0, maxRate0, ts0) && |rows0| < |job.records|
      requires SavedRows() <= |rows0| <= SavedRows() + SinceCheckpoint(|rows0|)
      modifies this`checkpoint, this`asked, this`overrides, this`clock, this`times, this`crashes
      ensures Valid() && InHand(rows, warnings, maxRate, ts) && Waited(old(Now()), Now()) && |rows| == |rows0| + 1
      ensures old(SavedRows()) <= SavedRows() <= |rows| <= SavedRows() + 100
      ensures !crashed ==> |rows| <= SavedRows() + SinceCheckpoint(|rows|)
      ensures crashes == old(crashes) + if crashed then 1 else 0
    {
      SinceCheckpointBound(|rows0|);
      crashed, rows, warnings, maxRate, ts := PushNext(rows0, warnings0, maxRate0, ts0);
      if crashed { return; }
      ghost var m := Now();
      crashed := SaveProgress(rows, warnings, maxRate, ts);
      WaitedTwice(old(Now()), m, Now());
    }

    /** The main pass, from the checkpoint to the last record. What the operator asked for before
        and during the pass is still waiting when it ends, crash or not, and a crash loses the
        extraction of at most 100 rows. */
    method MainPass() returns (crashed: bool, rows: seq<Row>, warnings: seq<Warning>, maxRate: nat, ghost ts: seq<nat>)
      requires Valid()
      modifies this`checkpoint, this`asked, this`overrides, this`clock, this`times, this`crashes
      ensures Valid() && Waited(old(Now()), Now())
      ensures old(SavedRows()) <= SavedRows() <= |rows| <= SavedRows() + 100
      ensures !crashed ==> InHand(rows, warnings, maxRate, ts) && |rows| == |job.records|
      ensures crashes == old(crashes) + if crashed then 1 else 0
    {
      crashed, rows, warnings, maxRate, ts := false, [], [], 0, [];
      if checkpoint.Some? {
        var c := checkpoint.value;
        rows, warnings, maxRate, ts := c.rows, c.warnings, c.maxRate, times;
      }
      WaitedReflexive(Now());
      for i := |rows| to |job.records|
        invariant Valid() && Waited(old(Now()), Now())
        invariant InHand(rows, warnings, maxRate, ts) && i == |rows| && crashes == old(crashes)
        invariant old(SavedRows()) <= SavedRows() <= |rows| <= SavedRows() + SinceCheckpoint(|rows|)
      {
        ghost var m := Now();
        crashed, rows, warnings, maxRate, ts := MainTurn(rows, warnings, maxRate, ts);
        WaitedTwice(old(Now()), m, Now());
        if crashed { return; }
      }
      SinceCheckpointBound(|rows|);
    }

    /** `recordsByPdf.get(rows[rowNum - 1]?.allegato)` */
    method FindRecord(k: nat, rows: seq<Row>, warnings: seq<Warning>, maxRate: nat, ghost ts: seq<nat>) returns (rec: Option<nat>)
      requires Sound(job, rows, warnings, maxRate, ts, overrides) && k < |rows| == |job.records|
      requires OwnRetry(job.records, k + 1)
      ensures rec == if job.records[k].pdfFilename == "" then None else Some(k)
    {
      OwnRecord(job, rows, warnings, maxRate, ts, overrides, k);
      rec := RecordFor(job.records, KeyOf(rows[k]));
    }

    /** The row's own record is extracted again and replaces row and warnings in memory. */
    method ExtractAgain(rowNum: nat, rows0: seq<Row>, warnings0: seq<Warning>, maxRate0: nat, ghost ts0: seq<nat>)
      returns (crashed: bool, rows: seq<Row>, warnings: seq<Warning>, maxRate: nat, ghost ts: seq<nat>)
      requires Valid() && InHand(rows0, warnings0, maxRate0, ts0) && 1 <= rowNum <= |rows0| == |job.records|
      requires OwnRetry(job.records, rowNum)
      modifies this`checkpoint, this`asked, this`overrides, this`clock, this`retried, this`crashes
      ensures Valid() && Waited(old(Now()), Now()) && DiskKept(old(checkpoint))
      ensures !crashed ==> InHand(rows, warnings, maxRate, ts) && Served(job, {rowNum}, ts0, ts, old(clock))
      ensures crashes == old(crashes) + if crashed then 1 else 0
    {
      var rec := FindRecord(rowNum - 1, rows0, warnings0, maxRate0, ts0);
      if rec.Some? {
        crashed, rows, warnings, maxRate, ts := ReplaceRow(rec.value, rowNum, rows0, warnings0, maxRate0, ts0);
      } else {
        crashed, rows, warnings, maxRate, ts := false, rows0, warnings0, maxRate0, ts0;
        WaitedReflexive(Now());
        NothingServed(job, rowNum, ts0, clock);
      }
    }

    /** Row and warnings of record k give way to those of a new extraction. */
    method ReplaceRow(k: nat, rowNum: nat, rows0: seq<Row>, warnings0: seq<Warning>, maxRate0: nat, ghost ts0: seq<nat>)
      returns (crashed: bool, rows: seq<Row>, warnings: seq<Warning>, maxRate: nat, ghost ts: seq<nat>)
      requires Valid() && InHand(rows0, warnings0, maxRate0, ts0) && k < |rows0| == |job.records|
      requires job.records[k].pdfFilename != "" && rowNum == k + 1
      modifies this`checkpoint, this`asked, this`overrides, this`clock, this`retried, this`crashes
      ensures Valid() && Waited(old(Now()), Now()) && DiskKept(old(checkpoint))
      ensures !crashed ==> InHand(rows, warnings, maxRate, ts) && Served(job, {rowNum}, ts0, ts, old(clock))
      ensures crashes == old(crashes) + if crashed then 1 else 0
    {
      rows, warnings, maxRate, ts := rows0, warnings0, maxRate0, ts0;
      var e;
      ghost var t;
      crashed, e, t := ExtractForRetry(k, rows, warnings, maxRate, ts);
      if crashed { return; }
      ReplacedInHand(rows0, warnings0, maxRate0, ts0, k, t);
      var kept := SpliceWarnings(warnings0, rowNum);
      warnings := kept + e.warnings;
      rows, ts := rows0[k := e.row], ts0[k := t];
      maxRate := Max(maxRate0, e.rateCount);
      OneServed(job, k, ts0, t, old(clock));
    }

    /** The extraction of a retry. */
    method ExtractForRetry(k: nat, rows: seq<Row>, warnings: seq<Warning>, maxRate: nat, ghost ts: seq<nat>)
      returns (crashed: bool, e: Extraction, ghost t: nat)
      requires Valid() && InHand(rows, warnings, maxRate, ts) && k < |job.records|
      modifies this`checkpoint, this`asked, this`overrides, this`clock, this`retried, this`crashes
      ensures Valid() && InHand(rows, warnings, maxRate, ts) && (retried || crashed)
      ensures DiskKept(old(checkpoint)) && Waited(old(Now()), Now())
      ensures e == Outcome(job, k, t) && old(clock) <= t < clock && AllNumbered(e.warnings, k + 1)
      ensures crashes == old(crashes) + if crashed then 1 else 0
    {
      crashed, e, t := ExtractAwaited(k, rows, warnings, maxRate, ts);
      if !crashed {
        retried := true;
      }
    }

    lemma ReplacedInHand(rows: seq<Row>, warnings: seq<Warning>, maxRate: nat, ts: seq<nat>, k: nat, t: nat)
      requires InHand(rows, warnings, maxRate, ts) && retried && k < |rows| && t < clock
      requires AllNumbered(Outcome(job, k, t).warnings, k + 1)
      ensures var e := Outcome(job, k, t);
        InHand(rows[k := e.row], Without(warnings, k + 1) + e.warnings, Max(maxRate, e.rateCount), ts[k := t])
    {
      SoundReplace(job, rows, warnings, maxRate, ts, overrides, k, t);
      var ts' := ts[k := t];
      forall i | 0 <= i < |ts'| ensures ts'[i] < clock {
        assert ts[i] in ts;
      }
    }

    /** The two database awaits of a retry turn, then the retry list is written back as it was read
        before them, less the row. */
    method SaveRetry(remaining: seq<nat>, rows: seq<Row>, warnings: seq<Warning>, maxRate: nat, ghost ts: seq<nat>)
      returns (crashed: bool)
      requires Valid() && InHand(rows, warnings, maxRate, ts)
      requires forall r :: r in remaining ==> 1 <= r <= |rows| && OwnRetry(job.records, r)
      modifies this`checkpoint, this`asked, this`overrides, this`clock, this`times, this`crashes
      ensures Valid() && Grown(old(Now()), Now())
      ensures crashed ==> DiskKept(old(checkpoint)) && times == old(times) && old(Pending()) <= Pending()
      ensures !crashed ==> InHand(rows, warnings, maxRate, ts) && times == ts && SavedRows() == |rows|
      ensures !crashed ==> checkpoint.Some? && checkpoint.value.retryRows == remaining
      ensures crashes == old(crashes) + if crashed then 1 else 0
    {
      crashed := SaveAwaited(rows, warnings, maxRate, ts);
      if crashed { return; }
      ghost var m := Now();
      crashed := SaveAwaited(rows, warnings, maxRate, ts);
      WaitedTwice(old(Now()), m, Now());
      if crashed { return; }
      WriteCheckpoint(rows, warnings, maxRate, remaining, ts);
    }

    /** One turn of the retry loop. */
    method RetryOne(pendingRetryRows: seq<nat>, rows0: seq<Row>, warnings0: seq<Warning>, maxRate0: nat, ghost ts0: seq<nat>)
      returns (crashed: bool, rows: seq<Row>, warnings: seq<Warning>, maxRate: nat, ghost ts: seq<nat>)
      requires Valid() && InHand(rows0, warnings0, maxRate0, ts0) && |rows0| == |job.records|
      requires checkpoint.Some? && checkpoint.value.retryRows == pendingRetryRows && pendingRetryRows != []
      modifies this`checkpoint, this`asked, this`overrides, this`clock, this`times, this`retried, this`crashes
      ensures Valid() && Grown(old(Now()), Now())
      ensures crashed ==> checkpoint.Some? && times == old(times) && old(Pending()) <= Pending()
      ensures !crashed ==> InHand(rows, warnings, maxRate, ts) && times == ts && SavedRows() == |rows| == |job.records|
      ensures !crashed ==> (checkpoint.Some?
        && checkpoint.value.retryRows == Others(pendingRetryRows, pendingRetryRows[0]))
      ensures !crashed ==> Served(job, {pendingRetryRows[0]}, ts0, ts, old(clock))
      ensures crashes == old(crashes) + if crashed then 1 else 0
    {
      var rowNum := pendingRetryRows[0];
      assert rowNum in pendingRetryRows;
      crashed, rows, warnings, maxRate, ts := ExtractAgain(rowNum, rows0, warnings0, maxRate0, ts0);
      if crashed { return; }
      ghost var m := Now();
      crashed := SaveRetry(Others(pendingRetryRows, rowNum), rows, warnings, maxRate, ts);
      CoversTransitive(old(overrides), m.overrides, overrides);
    }

    /** The retry phase. It ends, whatever is requested meanwhile, with an empty list, having
        extracted again exactly the rows that were waiting when it began: a request that arrives
        during the phase is overwritten and serves nothing. After a crash every row that was
        waiting is waiting still or extracted again on disk. */
    method RetryPhase(rows0: seq<Row>, warnings0: seq<Warning>, maxRate0: nat, ghost ts0: seq<nat>)
      returns (crashed: bool, rows: seq<Row>, warnings: seq<Warning>, maxRate: nat, ghost ts: seq<nat>)
      requires Valid() && InHand(rows0, warnings0, maxRate0, ts0) && |rows0| == |job.records|
      modifies this`checkpoint, this`asked, this`overrides, this`clock, this`times, this`retried, this`crashes
      ensures Valid() && Grown(old(Now()), Now())
      ensures !crashed ==> InHand(rows, warnings, maxRate, ts) && |rows| == |job.records| && Pending() == {}
      ensures !crashed ==> Served(job, old(Pending()), ts0, ts, old(clock))
      ensures forall r :: r in old(Pending()) ==> r in Pending() || RedoneOnDisk(r, old(clock))
      ensures old(SavedRows()) <= SavedRows()
      ensures old(Pending()) == {} ==> !crashed && Now() == old(Now()) && retried == old(retried)
      ensures crashes == old(crashes) + if crashed then 1 else 0
    {
      crashed, rows, warnings, maxRate, ts := false, rows0, warnings0, maxRate0, ts0;
      CoversReflexive(overrides);
      while true
        invariant Valid() && Grown(old(Now()), Now())
        invariant InHand(rows, warnings, maxRate, ts) && |rows| == |job.records|
        invariant Pending() <= old(Pending()) && crashes == old(crashes)
        invariant Served(job, old(Pending()) - Pending(), ts0, ts, old(clock))
        invariant Pending() == old(Pending()) || (times == ts && checkpoint.Some?)
        invariant old(SavedRows()) <= SavedRows()
        invariant old(Pending()) == {} ==> Now() == old(Now()) && retried == old(retried)
        decreases if checkpoint.Some? then |checkpoint.value.retryRows| else 0
      {
        var pendingRetryRows := if checkpoint.Some? then checkpoint.value.retryRows else [];
        if pendingRetryRows == [] { break; }
        ghost var m := Now();
        assert pendingRetryRows[0] in m.pending;
        crashed, rows, warnings, maxRate, ts := RetryTurn(pendingRetryRows, rows, warnings, maxRate, ts, old(Pending()), ts0, old(clock));
        GrownTwice(old(Now()), m, Now());
        if crashed { return; }
      }
    }

    /** One turn among the turns of the phase, which began with `all` waiting. */
    method RetryTurn(pendingRetryRows: seq<nat>, rows0: seq<Row>, warnings0: seq<Warning>, maxRate0: nat, ghost before: seq<nat>,
        ghost all: set<nat>, ghost ts0: seq<nat>, ghost since: nat)
      returns (crashed: bool, rows: seq<Row>, warnings: seq<Warning>, maxRate: nat, ghost ts: seq<nat>)
      requires Valid() && InHand(rows0, warnings0, maxRate0, before) && |rows0| == |job.records|
      requires checkpoint.Some? && checkpoint.value.retryRows == pendingRetryRows && pendingRetryRows != []
      requires Pending() <= all && Served(job, all - Pending(), ts0, before, since) && since <= clock
      modifies this`checkpoint, this`asked, this`overrides, this`clock, this`times, this`retried, this`crashes
      ensures Valid() && Grown(old(Now()), Now())
      ensures crashed ==> checkpoint.Some? && times == old(times) && old(Pending()) <= Pending() && SavedRows() == old(SavedRows())
      ensures !crashed ==> InHand(rows, warnings, maxRate, ts) && times == ts && SavedRows() == |rows| == |job.records|
      ensures !crashed ==> checkpoint.Some? && |checkpoint.value.retryRows| < |pendingRetryRows| && Pending() <= old(Pending())
      ensures !crashed ==> Served(job, all - Pending(), ts0, ts, since)
      ensures crashes == old(crashes) + if crashed then 1 else 0
    {
      ghost var waiting, now := Pending(), clock;
      assert pendingRetryRows[0] in waiting;
      crashed, rows, warnings, maxRate, ts := RetryOne(pendingRetryRows, rows0, warnings0, maxRate0, before);
      if crashed { return; }
      assert Pending() == waiting - {pendingRetryRows[0]};
      ServedOne(job, all, waiting, pendingRetryRows[0], ts0, before, ts, since, now);
    }

    /** The row was extracted again since then (or has no PDF to extract) and the disk says so. */
    ghost predicate RedoneOnDisk(r: nat, since: nat)
      reads this
    {
      checkpoint.Some? && 1 <= r <= |times| <= |job.records|
      && (times[r - 1] >= since || job.records[r - 1].pdfFilename == "")
    }

    /** The printed file and the stored warnings of a finished run: some moments of extraction
        account for every row and every warning, and the corrections are those found at the end. */
    ghost predicate FinishedWith(ts: seq<nat>, maxRate: nat, printed: seq<Override>)
      reads this
    {
      && Accounted(job, warningsStored, maxRate, ts)
      && result == Some(FinalCsv(job, ts, maxRate, printed))
      && (!retried ==> warningsStored == AllWarnings(job, ts))
    }

    /** The file printed from the rows in hand and the corrections in force. */
    method PrintFile(rows: seq<Row>, warnings: seq<Warning>, rate: nat, ghost ts: seq<nat>)
      requires Sound(job, rows, warnings, rate, ts, overrides)
      modifies this`result
      ensures result == Some(FinalCsv(job, ts, rate, overrides))
    {
      var headers := BuildEnrichedCsvHeaders(rate);
      var csv := BuildEnrichedCsv(headers, ApplyOverrides(rows, overrides));
      SoundFinal(job, rows, warnings, rate, ts, overrides);
      result := Some(csv);
    }

    /** Resume from the disk, main pass, retry queue. */
    method Work() returns (crashed: bool, rows: seq<Row>, warnings: seq<Warning>, rate: nat, ghost ts: seq<nat>)
      requires Valid()
      modifies this`checkpoint, this`asked, this`overrides, this`clock, this`times, this`retried, this`crashes
      ensures Valid() && Grown(old(Now()), Now())
      ensures !crashed ==> InHand(rows, warnings, rate, ts) && |rows| == |job.records|
      ensures old(SavedRows()) <= SavedRows()
      ensures Untouched(old(Now()), Now(), old(retried))
      ensures crashes == old(crashes) + if crashed then 1 else 0
    {
      rows, warnings, rate, ts := [], [], 0, [];
      crashed := Await();
      if crashed { return; }
      ghost var m1 := Now();
      crashed, rows, warnings, rate, ts := MainPass();
      WaitedTwice(old(Now()), m1, Now());
      if crashed { return; }
      ghost var m2 := Now();
      crashed, rows, warnings, rate, ts := RetryPhase(rows, warnings, rate, ts);
      GrownTwice(old(Now()), m2, Now());
      UntouchedTwice(old(Now()), m2, old(retried), old(retried));
    }

    /** The file is printed, the job record is awaited. */
    method PrintAndSave(rows: seq<Row>, warnings: seq<Warning>, rate: nat, ghost ts: seq<nat>) returns (crashed: bool)
      requires Valid() && InHand(rows, warnings, rate, ts)
      modifies this`checkpoint, this`asked, this`overrides, this`clock, this`result, this`crashes
      ensures Valid() && InHand(rows, warnings, rate, ts)
      ensures DiskKept(old(checkpoint)) && Waited(old(Now()), Now())
      ensures result == Some(FinalCsv(job, ts, rate, old(overrides)))
      ensures crashes == old(crashes) + if crashed then 1 else 0
    {
      PrintFile(rows, warnings, rate, ts);
      crashed := SaveAwaited(rows, warnings, rate, ts);
    }

    /** The corrections are read, the file is printed, the job record is awaited. */
    method Publish(rows: seq<Row>, warnings: seq<Warning>, rate: nat, ghost ts: seq<nat>)
      returns (crashed: bool, ghost printed: seq<Override>)
      requires Valid() && InHand(rows, warnings, rate, ts) && |rows| == |job.records|
      modifies this`checkpoint, this`asked, this`overrides, this`clock, this`result, this`crashes
      ensures Valid() && InHand(rows, warnings, rate, ts)
      ensures DiskKept(old(checkpoint)) && Waited(old(Now()), Now())
      ensures Covers(old(overrides), printed) && Covers(printed, overrides)
      ensures !crashed ==> result == Some(FinalCsv(job, ts, rate, printed))
      ensures crashes == old(crashes) + if crashed then 1 else 0
    {
      crashed := SaveAwaited(rows, warnings, rate, ts);
      printed := overrides;
      CoversReflexive(overrides);
      if crashed { return; }
      ghost var m := Now();
      crashed := PrintAndSave(rows, warnings, rate, ts);
      WaitedTwice(old(Now()), m, Now());
    }

    /** The job record is written and the checkpoint deleted. */
    method Close(warnings: seq<Warning>)
      requires Valid()
      modifies this`status, this`warningsStored, this`checkpoint
      ensures Valid() && status == DONE && checkpoint == None && warningsStored == warnings
    {
      status, warningsStored, checkpoint := DONE, warnings, None;
    }

    /** Printing and closing; what was asked in the meantime is lost with the checkpoint. */
    method Finish(rows: seq<Row>, warnings: seq<Warning>, rate: nat, ghost ts: seq<nat>)
      returns (crashed: bool, ghost printed: seq<Override>)
      requires Valid() && InHand(rows, warnings, rate, ts) && |rows| == |job.records|
      modifies this`checkpoint, this`asked, this`overrides, this`clock, this`result, this`status, this`warningsStored, this`crashes
      ensures Valid() && Grown(old(Now()), Now())
      ensures Covers(old(overrides), printed) && Covers(printed, overrides)
      ensures crashed ==> SavedRows() == old(SavedRows()) && status == old(status)
      ensures Untouched(old(Now()), Now(), retried)
      ensures !crashed ==> FinishedWith(ts, rate, printed) && status == DONE && checkpoint == None
      ensures crashes == old(crashes) + if crashed then 1 else 0
    {
      crashed, printed := Publish(rows, warnings, rate, ts);
      if crashed { return; }
      InHandAccounts(rows, warnings, rate, ts);
      Close(warnings);
    }

    lemma InHandAccounts(rows: seq<Row>, warnings: seq<Warning>, rate: nat, ts: seq<nat>)
      requires InHand(rows, warnings, rate, ts) && |rows| == |job.records|
      ensures Accounted(job, warnings, rate, ts) && (!retried ==> warnings == AllWarnings(job, ts))
    {
      SoundAccounts(job, rows, warnings, rate, ts, overrides);
    }

    /** processEnrich: resume from the disk, main pass, retry queue, CSV, final state. It finishes unless the
        process dies. */
    method ProcessEnrich() returns (finished: bool, ghost ts: seq<nat>, ghost maxRate: nat, ghost printed: seq<Override>)
      requires Valid()
      modifies this
      ensures Valid() && Grown(old(Now()), Now())
      ensures finished ==> FinishedWith(ts, maxRate, printed) && status == DONE && checkpoint == None
      ensures finished ==> Covers(old(overrides), printed) && Covers(printed, overrides)
      ensures !finished ==> status == PROCESSING && old(SavedRows()) <= SavedRows()
      ensures Untouched(old(Now()), Now(), old(retried))
      ensures crashes == old(crashes) + if finished then 0 else 1
    {
      finished, printed := false, overrides;
      status := PROCESSING;
      var crashed, rows, warnings, rate;
      crashed, rows, warnings, rate, ts := Work();
      maxRate := rate;
      if crashed { return; }
      ghost var m, r := Now(), retried;
      crashed, printed := Finish(rows, warnings, rate, ts);
      FinishedAfter(old(Now()), m, old(retried), r, printed);
      finished := !crashed;
    }

    lemma FinishedAfter(a: Moment, b: Moment, retriedA: bool, retriedB: bool, printed: seq<Override>)
      requires Grown(a, b) && Grown(b, Now()) && Untouched(b, Now(), retriedB)
      requires a.pending == {} && a.asked == b.asked ==> b.pending == {} && retriedB == retriedA
      requires Covers(b.overrides, printed)
      ensures Grown(a, Now()) && Untouched(a, Now(), retriedA) && Covers(a.overrides, printed)
    {
      GrownTwice(a, b, Now());
      UntouchedTwice(a, b, retriedA, retriedB);
      CoversTransitive(a.overrides, b.overrides, printed);
    }

    /** As long as nobody asks for a retry no row is extracted again. */
    ghost predicate Untouched(before: Moment, after: Moment, retriedBefore: bool)
      reads this
    {
      before.pending == {} && before.asked == after.asked ==> after.pending == {} && retried == retriedBefore
    }

    /** Any number of crashes, each followed by a resume from the disk. When the extractor is
        deterministic the run that finishes leaves the file of a run that was never interrupted; and it
        finishes unless the process dies at every attempt. */
    method RunWithCrashes(attempts: nat) returns (finished: bool, ghost printed: seq<Override>)
      requires Valid() && Deterministic(job)
      modifies this
      ensures Valid() && Grown(old(Now()), Now())
      ensures finished ==> AsUninterrupted(printed) && status == DONE
      ensures finished ==> Covers(old(overrides), printed) && Covers(printed, overrides)
      ensures Untouched(old(Now()), Now(), old(retried))
      ensures if finished then crashes < old(crashes) + attempts else crashes == old(crashes) + attempts
    {
      finished, printed := false, overrides;
      CoversReflexive(overrides);
      for n := 0 to attempts
        invariant Valid() && Grown(old(Now()), Now()) && !finished && crashes == old(crashes) + n
        invariant Untouched(old(Now()), Now(), old(retried))
      {
        ghost var m, r := Now(), retried;
        ghost var ts, maxRate;
        finished, ts, maxRate, printed := ProcessEnrich();
        GrownTwice(old(Now()), m, Now());
        UntouchedTwice(old(Now()), m, old(retried), r);
        if finished {
          CoversTransitive(old(overrides), m.overrides, printed);
          FinishedDeterministic(ts, maxRate, printed);
          return;
        }
      }
    }

    lemma UntouchedTwice(a: Moment, b: Moment, retriedA: bool, retriedB: bool)
      requires Grown(a, b) && Grown(b, Now()) && Untouched(b, Now(), retriedB)
      requires a.pending == {} && a.asked == b.asked ==> b.pending == {} && retriedB == retriedA
      ensures Untouched(a, Now(), retriedA)
    {
    }

    /** The file is that of a run without crash or retry, each row has that run's warnings, and
        unless some row was retried they come in the same order. */
    ghost predicate AsUninterrupted(printed: seq<Override>)
      reads this
    {
      && result == Some(Uninterrupted(job, printed))
      && (forall i :: 0 <= i < |job.records| ==> Of(warningsStored, i + 1) == Outcome(job, i, 0).warnings)
      && (forall w :: w in warningsStored ==> 1 <= w.row <= |job.records|)
      && (!retried ==> warningsStored == AllWarnings(job, FirstTime(|job.records|)))
    }

    lemma FinishedDeterministic(ts: seq<nat>, maxRate: nat, printed: seq<Override>)
      requires Deterministic(job) && FinishedWith(ts, maxRate, printed)
      ensures AsUninterrupted(printed)
    {
      DeterministicFinal(job, maxRate, ts, printed);
      forall i | 0 <= i < |ts| ensures Of(warningsStored, i + 1) == Outcome(job, i, 0).warnings {
        assert job.extract(job.records[i], i + 1, ts[i]) == job.extract(job.records[i], i + 1, 0);
      }
    }
  }

  /** Upserting a correction that sets at least the columns of the one it replaces. */
  lemma UpsertCovers(os: seq<Override>, o: Override)
    requires FieldsFor(os, o.pdfFilename).Keys <= Fields(o).Keys
    ensures Covers(os, os + [o])
  {
  }

  lemma WarningsPush(job: Job, times: seq<nat>, t: nat)
    requires |times| < |job.records|
    ensures AllWarnings(job, times + [t]) == AllWarnings(job, times) + Outcome(job, |times|, t).warnings
  {
  }

  lemma ServedOne(job: Job, all: set<nat>, waiting: set<nat>, rowNum: nat, ts0: seq<nat>, before: seq<nat>, after: seq<nat>,
      c0: nat, c1: nat)
    requires Served(job, all - waiting, ts0, before, c0) && Served(job, {rowNum}, before, after, c1) && c0 <= c1
    requires rowNum in waiting && waiting <= all
    ensures Served(job, all - (waiting - {rowNum}), ts0, after, c0)
  {
  }

  lemma NothingServed(job: Job, rowNum: nat, ts: seq<nat>, since: nat)
    requires |ts| == |job.records| && 1 <= rowNum <= |ts| && job.records[rowNum - 1].pdfFilename == ""
    ensures Served(job, {rowNum}, ts, ts, since)
  {
  }

  lemma OneServed(job: Job, k: nat, ts: seq<nat>, t: nat, since: nat)
    requires |ts| == |job.records| && k < |ts| && since <= t
    ensures Served(job, {k + 1}, ts, ts[k := t], since) <==> job.records[k].pdfFilename != "" || ts[k] == t
  {
  }

  lemma GrownTwice(a: Moment, b: Moment, c: Moment)
    requires Grown(a, b) && Grown(b, c)
    ensures Grown(a, c)
  {
  }

  /** The warnings are, row by row, those of the extractions at the given moments. */
  ghost predicate Accounted(job: Job, warnings: seq<Warning>, maxRate: nat, ts: seq<nat>) {
    && |ts| == |job.records| && RateSound(job, maxRate, ts)
    && (forall i :: 0 <= i < |ts| ==> Of(warnings, i + 1) == Outcome(job, i, ts[i]).warnings)
    && (forall w :: w in warnings ==> 1 <= w.row <= |ts|)
  }

  lemma SoundAccounts(job: Job, rows: seq<Row>, warnings: seq<Warning>, maxRate: nat, ts: seq<nat>, os: seq<Override>)
    requires Sound(job, rows, warnings, maxRate, ts, os) && |rows| == |job.records|
    ensures Accounted(job, warnings, maxRate, ts)
  {
  }
}
