/** Extraction of the PDFs of an archive as an event machine: the handlers share four variables, the
    ZIP reader and the streams answer in any order. */
module ZipExtraction {
  import opened Text

  const CONCURRENCY_LIMIT: nat := 50

  // ------------------------------------------------------------- names

  predicate EndsWithSlash(name: string) {
    name != "" && name[|name| - 1] == '/'
  }

  function Unslashed(name: string): (r: string)
    ensures r <= name && !EndsWithSlash(r)
  {
    if EndsWithSlash(name) then Unslashed(name[..|name| - 1]) else name
  }

  function Slashes(name: string): (r: string)
    ensures |r| == |name| && '\\' !in r
    ensures forall i :: 0 <= i < |name| ==> r[i] == if name[i] == '\\' then '/' else name[i]
  {
    seq(|name|, i requires 0 <= i < |name| => if name[i] == '\\' then '/' else name[i])
  }

  function AfterLastSlash(name: string): (r: string)
    ensures '/' !in r && forall c :: c in r ==> c in name
  {
    if name == "" || EndsWithSlash(name) then "" else AfterLastSlash(name[..|name| - 1]) + [name[|name| - 1]]
  }

  /** flattenZipEntryName: whatever folders the entry names, with either separator, nothing is left of them. */
  function FlatName(name: string): (r: string)
    ensures '/' !in r && '\\' !in r
  {
    AfterLastSlash(Unslashed(Slashes(name)))
  }

  predicate IsPdfName(name: string) {
    var n := |name|;
    n >= 4 && name[n - 4] == '.' && name[n - 3] in "pP" && name[n - 2] in "dD" && name[n - 1] in "fF"
  }

  predicate IsPdf(entry: string) {
    !EndsWithSlash(entry) && IsPdfName(FlatName(entry))
  }

  const PDF_ENDINGS: set<string> := {".pdf", ".pdF", ".pDf", ".pDF", ".Pdf", ".PdF", ".PDf", ".PDF"}

  lemma {:induction false} LastPart(folder: string, name: string)
    requires folder == "" || EndsWithSlash(folder)
    requires '/' !in name
    ensures AfterLastSlash(folder + name) == name
  {
    if name == "" {
      assert folder + name == folder;
    } else {
      var n := |name| - 1;
      assert (folder + name)[..|folder| + n] == folder + name[..n];
      assert name[n] in name;
      LastPart(folder, name[..n]);
    }
  }

  /** The entry of a file in any folder, with separators of either kind: its flat name is the file's name, and it
      is extracted exactly when that ends in .pdf in any letter case. */
  lemma EntryOfFile(folder: string, name: string)
    requires folder == "" || folder[|folder| - 1] == '/' || folder[|folder| - 1] == '\\'
    requires name != "" && '/' !in name && '\\' !in name
    ensures FlatName(folder + name) == name
    ensures IsPdf(folder + name) <==> |name| >= 4 && name[|name| - 4..] in PDF_ENDINGS
  {
    var s := Slashes(folder) + name;
    assert forall i :: 0 <= i < |name| ==> name[i] in name;
    assert Slashes(folder + name) == s;
    assert name[|name| - 1] in name && s[|s| - 1] == name[|name| - 1];
    LastPart(Slashes(folder), name);
    if |name| >= 4 {
      EndingOf(name, name[|name| - 4..]);
    }
  }

  lemma EndingOf(name: string, ext: string)
    requires |name| >= 4 && ext == name[|name| - 4..]
    ensures IsPdfName(name) <==> ext in PDF_ENDINGS
  {
    if IsPdfName(name) {
      assert ext == [ext[0], ext[1], ext[2], ext[3]];
    }
  }

  /** A folder's own entry is not extracted. */
  lemma FolderSkipped(folder: string)
    ensures !IsPdf(folder + "/")
  {
  }

  // ------------------------------------------------------------- the machine

  datatype Outcome = Resolved | Rejected

  /** What became of a delivered entry: not a PDF, its stream being opened, refused, being written,
      written, broken off. */
  datatype Stage = Skipped | Opening | Refused | Writing | Written | Broken

  /** Which of the archive's entries are PDFs; the delivered ones; whether the reader was asked for one
      more; the handlers' variables; the calls of the promise and which came first. */
  datatype State = State(
    pdfs: seq<bool>, stages: seq<Stage>, asked: bool,
    activeCount: int, hasEnded: bool, errorOccurred: bool, isReading: bool,
    resolveCalls: nat, rejectCalls: nat, outcome: Option<Outcome>)

  datatype Event = EntryRead | EndReached | ZipFails | Opened(i: nat) | OpenFails(i: nat) | Finished(i: nat) | StreamFails(i: nat)

  predicate At(s: State, i: nat, stage: Stage) {
    i < |s.stages| && s.stages[i] == stage
  }

  /** What the reader and the streams can answer next. */
  predicate Possible(s: State, e: Event) {
    match e
    case EntryRead => s.asked && |s.stages| < |s.pdfs|
    case EndReached => s.asked && |s.stages| == |s.pdfs|
    case ZipFails => true
    case Opened(i) => At(s, i, Opening)
    case OpenFails(i) => At(s, i, Opening)
    case Finished(i) => At(s, i, Writing)
    case StreamFails(i) => At(s, i, Writing)
  }

  function PdfsOf(entries: seq<string>): (r: seq<bool>)
    ensures |r| == |entries| && forall i :: 0 <= i < |entries| ==> r[i] == IsPdf(entries[i])
  {
    seq(|entries|, i requires 0 <= i < |entries| => IsPdf(entries[i]))
  }

  function Initial(entries: seq<string>): State {
    ReadNext(State(PdfsOf(entries), [], false, 0, false, false, false, 0, 0, None))
  }

  function ReadNext(s: State): State {
    if s.errorOccurred || s.hasEnded || s.isReading || s.activeCount >= CONCURRENCY_LIMIT then s
    else s.(isReading := true, asked := true)
  }

  function Settle(s: State, o: Outcome): State {
    s.(outcome := if s.outcome.None? then Some(o) else s.outcome,
       resolveCalls := s.resolveCalls + (if o.Resolved? then 1 else 0),
       rejectCalls := s.rejectCalls + if o.Rejected? then 1 else 0)
  }

  function HandleError(s: State): State {
    if s.errorOccurred then s else Settle(s.(errorOccurred := true), Rejected)
  }

  function Moved(s: State, i: nat, stage: Stage): State
    requires i < |s.stages|
  {
    s.(stages := s.stages[i := stage])
  }

  function OnEntry(s: State): State
    requires |s.stages| < |s.pdfs|
  {
    var t := s.(isReading := false, asked := false);
    if s.pdfs[|s.stages|] then ReadNext(t.(activeCount := t.activeCount + 1, stages := t.stages + [Opening]))
    else ReadNext(t.(stages := t.stages + [Skipped]))
  }

  function OnEnd(s: State): State {
    var t := s.(hasEnded := true, asked := false);
    if t.activeCount == 0 && !t.errorOccurred then Settle(t, Resolved) else t
  }

  function OnFinish(s: State, i: nat): State
    requires i < |s.stages|
  {
    var t := Moved(s.(activeCount := s.activeCount - 1), i, Written);
    if t.hasEnded && t.activeCount == 0 && !t.errorOccurred then Settle(t, Resolved) else ReadNext(t)
  }

  function Step(s: State, e: Event): State
    requires Possible(s, e)
  {
    match e
    case EntryRead => OnEntry(s)
    case EndReached => OnEnd(s)
    case ZipFails => HandleError(s)
    case Opened(i) => Moved(s, i, Writing)
    case OpenFails(i) => HandleError(Moved(s.(activeCount := s.activeCount - 1), i, Refused))
    case Finished(i) => OnFinish(s, i)
    case StreamFails(i) => HandleError(Moved(s, i, Broken))
  }

  // ------------------------------------------------------------- what holds at every moment

  /** A stream that activeCount counts: a broken one is never taken off. */
  predicate Counts(stage: Stage) {
    stage.Opening? || stage.Writing? || stage.Broken?
  }

  function Active(stages: seq<Stage>): nat {
    if stages == [] then 0 else Active(stages[..|stages| - 1]) + if Counts(stages[|stages| - 1]) then 1 else 0
  }

  lemma {:induction false} ActiveMoved(stages: seq<Stage>, i: nat, stage: Stage)
    requires i < |stages|
    ensures Active(stages[i := stage])
      == Active(stages) - (if Counts(stages[i]) then 1 else 0) + (if Counts(stage) then 1 else 0)
  {
    var n := |stages| - 1;
    if i < n {
      ActiveMoved(stages[..n], i, stage);
      assert stages[i := stage][..n] == stages[..n][i := stage];
    } else {
      assert stages[i := stage][..n] == stages[..n];
    }
  }

  lemma {:induction false} ActiveZero(stages: seq<Stage>)
    ensures Active(stages) == 0 <==> forall i :: 0 <= i < |stages| ==> !Counts(stages[i])
  {
    if stages != [] {
      var n := |stages| - 1;
      ActiveZero(stages[..n]);
      assert forall i :: 0 <= i < n ==> stages[..n][i] == stages[i];
    }
  }

  predicate Accounted(s: State) {
    && |s.stages| <= |s.pdfs|
    && (forall i :: 0 <= i < |s.stages| ==> (s.stages[i].Skipped? <==> !s.pdfs[i]))
    && (!s.errorOccurred ==> forall i :: 0 <= i < |s.stages| ==> !s.stages[i].Broken? && !s.stages[i].Refused?)
  }

  /** The handlers' variables against what really goes on. */
  predicate Counted(s: State) {
    && s.activeCount == Active(s.stages) <= 50
    && (s.asked ==> s.activeCount < 50)
    && (s.isReading <==> s.asked || s.hasEnded) && !(s.asked && s.hasEnded)
    && (s.hasEnded ==> |s.stages| == |s.pdfs|)
  }

  /** While the archive has not ended and nothing failed, a read is pending or 50 streams are open. */
  predicate Busy(s: State) {
    !s.hasEnded && !s.errorOccurred ==> s.asked || s.activeCount == 50
  }

  /** Every PDF of the archive is on the disk. */
  predicate Complete(s: State) {
    |s.stages| == |s.pdfs| && forall i :: 0 <= i < |s.pdfs| && s.pdfs[i] ==> s.stages[i].Written?
  }

  /** The promise: resolve is called at most once, reject once if and only if something failed, the
      first call decides; and once the archive has ended without failure, resolve has been called
      exactly when no stream is left. */
  predicate Promised(s: State) {
    && s.resolveCalls <= 1 && s.rejectCalls == (if s.errorOccurred then 1 else 0)
    && (s.outcome.None? <==> s.resolveCalls + s.rejectCalls == 0)
    && (s.outcome == Some(Resolved) ==> s.resolveCalls == 1)
    && (s.outcome.Some? && s.outcome != Some(Resolved) ==> s.rejectCalls == 1)
    && (s.resolveCalls == 1 ==> s.hasEnded && s.activeCount == 0)
    && (s.hasEnded && !s.errorOccurred ==> (s.resolveCalls == 1 <==> s.activeCount == 0))
  }

  predicate Delivered(s: State) {
    s.resolveCalls == 1 ==> Complete(s)
  }

  predicate Sound(s: State) {
    Accounted(s) && Counted(s) && Busy(s) && Promised(s) && Delivered(s)
  }

  lemma InitialSound(entries: seq<string>)
    ensures Sound(Initial(entries))
  {
  }

  lemma ReadNextSound(s: State)
    requires Accounted(s) && Counted(s) && Promised(s) && Delivered(s)
    ensures Sound(ReadNext(s))
  {
  }

  lemma EntrySound(s: State)
    requires Sound(s) && Possible(s, EntryRead)
    ensures Sound(OnEntry(s))
  {
    var t := s.(isReading := false, asked := false);
    if s.pdfs[|s.stages|] {
      var u := t.(activeCount := t.activeCount + 1, stages := t.stages + [Opening]);
      PushedFits(s, u, Opening);
      ReadNextSound(u);
    } else {
      var u := t.(stages := t.stages + [Skipped]);
      PushedFits(s, u, Skipped);
      ReadNextSound(u);
    }
  }

  lemma PushedFits(s: State, u: State, stage: Stage)
    requires Sound(s) && Possible(s, EntryRead) && (if s.pdfs[|s.stages|] then stage.Opening? else stage.Skipped?)
    requires u == s.(isReading := false, asked := false, stages := s.stages + [stage],
      activeCount := s.activeCount + if stage.Opening? then 1 else 0)
    ensures Accounted(u) && Counted(u) && Promised(u) && Delivered(u)
  {
  }

  /** Without failures, no stream left means that everything delivered is written. */
  lemma AllWritten(s: State)
    requires Accounted(s) && Counted(s) && !s.errorOccurred && s.hasEnded && s.activeCount == 0
    ensures Complete(s)
  {
    ActiveZero(s.stages);
  }

  lemma EndSound(s: State)
    requires Sound(s) && Possible(s, EndReached)
    ensures Sound(OnEnd(s))
  {
    if s.activeCount == 0 && !s.errorOccurred {
      AllWritten(s.(hasEnded := true, asked := false));
    }
  }

  lemma HandleErrorSound(s: State, t: State)
    requires Sound(s) && Accounted(t.(errorOccurred := true)) && Counted(t) && Delivered(t)
    requires t == s.(stages := t.stages, activeCount := t.activeCount) && (s.resolveCalls == 1 ==> t.activeCount == 0)
    ensures Sound(HandleError(t))
  {
  }

  /** A stream that can still answer keeps the promise open or was already failed. */
  lemma StreamLeft(s: State, i: nat)
    requires Sound(s) && i < |s.stages| && Counts(s.stages[i])
    ensures s.activeCount > 0 && s.resolveCalls == 0
  {
    ActiveZero(s.stages);
  }

  lemma FinishSound(s: State, i: nat)
    requires Sound(s) && Possible(s, Finished(i))
    ensures Sound(OnFinish(s, i))
  {
    StreamLeft(s, i);
    ActiveMoved(s.stages, i, Written);
    var t := Moved(s.(activeCount := s.activeCount - 1), i, Written);
    if t.hasEnded && t.activeCount == 0 && !t.errorOccurred {
      AllWritten(t);
    } else {
      ReadNextSound(t);
    }
  }

  /** Every interleaving keeps all of it. */
  lemma OpenedSound(s: State, i: nat)
    requires Sound(s) && Possible(s, Opened(i))
    ensures Sound(Step(s, Opened(i)))
  {
    StreamLeft(s, i);
    ActiveMoved(s.stages, i, Writing);
  }

  lemma OpenFailsSound(s: State, i: nat)
    requires Sound(s) && Possible(s, OpenFails(i))
    ensures Sound(Step(s, OpenFails(i)))
  {
    StreamLeft(s, i);
    ActiveMoved(s.stages, i, Refused);
    HandleErrorSound(s, Moved(s.(activeCount := s.activeCount - 1), i, Refused));
  }

  lemma StreamFailsSound(s: State, i: nat)
    requires Sound(s) && Possible(s, StreamFails(i))
    ensures Sound(Step(s, StreamFails(i)))
  {
    StreamLeft(s, i);
    ActiveMoved(s.stages, i, Broken);
    HandleErrorSound(s, Moved(s, i, Broken));
  }

  lemma StepSound(s: State, e: Event)
    requires Sound(s) && Possible(s, e)
    ensures Sound(Step(s, e))
  {
    match e
    case EntryRead => EntrySound(s);
    case EndReached => EndSound(s);
    case ZipFails => HandleErrorSound(s, s);
    case Opened(i) => OpenedSound(s, i);
    case OpenFails(i) => OpenFailsSound(s, i);
    case Finished(i) => FinishSound(s, i);
    case StreamFails(i) => StreamFailsSound(s, i);
  }

  // ------------------------------------------------------------- runs

  /** Where the extraction is after some answers, if they can come in that order. */
  function After(entries: seq<string>, events: seq<Event>): (s: Option<State>)
    ensures s.Some? ==> Sound(s.value) && s.value.pdfs == PdfsOf(entries)
  {
    if events == [] then
      InitialSound(entries);
      Some(Initial(entries))
    else
      var before, e := After(entries, events[..|events| - 1]), events[|events| - 1];
      if before.None? || !Possible(before.value, e) then None
      else
        StepSound(before.value, e);
        Some(Step(before.value, e))
  }

  /** A resolved extraction has written the file of every PDF entry and delivered nothing else. */
  lemma ResolvedWroteAll(entries: seq<string>, events: seq<Event>, i: nat, folder: string, name: string)
    requires After(entries, events).Some? && After(entries, events).value.outcome == Some(Resolved)
    requires i < |entries| && entries[i] == folder + name && name != "" && '/' !in name && '\\' !in name
    requires folder == "" || folder[|folder| - 1] == '/' || folder[|folder| - 1] == '\\'
    ensures var s := After(entries, events).value;
      && |s.stages| == |entries|
      && if |name| >= 4 && name[|name| - 4..] in PDF_ENDINGS then s.stages[i].Written? else s.stages[i].Skipped?
  {
    EntryOfFile(folder, name);
  }

  /** Until the promise settles, the reader or a stream has an answer to give. */
  lemma NeverStuck(s: State) returns (e: Event)
    requires Sound(s) && s.outcome.None?
    ensures Possible(s, e) && !e.ZipFails?
  {
    if s.asked {
      e := if |s.stages| < |s.pdfs| then EntryRead else EndReached;
    } else {
      ActiveZero(s.stages);
      var i :| 0 <= i < |s.stages| && Counts(s.stages[i]);
      e := if s.stages[i].Opening? then Opened(i) else Finished(i);
    }
  }

  function Left(stage: Stage): nat {
    if stage.Opening? then 2 else if stage.Writing? then 1 else 0
  }

  function LeftIn(stages: seq<Stage>): nat {
    if stages == [] then 0 else LeftIn(stages[..|stages| - 1]) + Left(stages[|stages| - 1])
  }

  /** Answers that can still come: at most three for each entry and one for the end. */
  function Measure(s: State): nat
    requires |s.stages| <= |s.pdfs|
  {
    3 * (|s.pdfs| - |s.stages|) + LeftIn(s.stages) + if s.hasEnded then 0 else 1
  }

  lemma {:induction false} LeftMoved(stages: seq<Stage>, i: nat, stage: Stage)
    requires i < |stages|
    ensures LeftIn(stages[i := stage]) == LeftIn(stages) - Left(stages[i]) + Left(stage)
  {
    var n := |stages| - 1;
    if i < n {
      LeftMoved(stages[..n], i, stage);
      assert stages[i := stage][..n] == stages[..n][i := stage];
    } else {
      assert stages[i := stage][..n] == stages[..n];
    }
  }

  /** Every answer but a failure of the archive itself uses one up, so with NeverStuck an extraction
      of n entries settles after at most 3n + 1 of them. */
  lemma AnswersRunOut(s: State, e: Event)
    requires Sound(s) && Possible(s, e) && !e.ZipFails?
    ensures |Step(s, e).stages| <= |s.pdfs| && Measure(Step(s, e)) < Measure(s)
  {
    StepSound(s, e);
    match e
    case EntryRead =>
      assert (s.stages + [Opening])[..|s.stages|] == s.stages == (s.stages + [Skipped])[..|s.stages|];
    case EndReached =>
    case _ => MoveRunsOut(s, e);
  }

  lemma MoveRunsOut(s: State, e: Event)
    requires |s.stages| <= |s.pdfs| && Possible(s, e) && (e.Opened? || e.OpenFails? || e.Finished? || e.StreamFails?)
    ensures |Step(s, e).stages| <= |s.pdfs| && Measure(Step(s, e)) < Measure(s)
  {
    LeftMoved(s.stages, e.i, if e.Opened? then Writing else if e.OpenFails? then Refused else if e.Finished? then Written else Broken);
  }

  /** After resolve only a failure of the archive can still call reject, and it changes nothing for the
      caller. */
  lemma LateFailure(s: State, e: Event)
    requires Sound(s) && Possible(s, e) && s.resolveCalls == 1 && !s.errorOccurred
    ensures e.ZipFails? && Step(s, e).rejectCalls == 1 && Step(s, e).outcome == Some(Resolved) && Complete(Step(s, e))
  {
  }

  // ------------------------------------------------------------- the handlers

  /** The closure of extractZipWithYauzl. */
  class Extraction {
    const pdfs: seq<bool>
    var stages: seq<Stage>
    var asked: bool
    var activeCount: int
    var hasEnded: bool
    var errorOccurred: bool
    var isReading: bool
    var resolveCalls: nat
    var rejectCalls: nat
    var outcome: Option<Outcome>

    function View(): State
      reads this
    {
      State(pdfs, stages, asked, activeCount, hasEnded, errorOccurred, isReading, resolveCalls, rejectCalls, outcome)
    }

    constructor (entries: seq<string>)
      ensures View() == Initial(entries) && Sound(View())
    {
      pdfs := PdfsOf(entries);
      stages, asked, activeCount, hasEnded, errorOccurred, isReading := [], false, 0, false, false, false;
      resolveCalls, rejectCalls, outcome := 0, 0, None;
      new;
      assert View() == State(PdfsOf(entries), [], false, 0, false, false, false, 0, 0, None);
      RequestNext();
      InitialSound(entries);
    }

    /** readNext: whatever a handler left undone in asking for entries, the state is sound again, so the reader or 50
        streams are busy until the end. */
    method RequestNext()
      modifies this`isReading, this`asked
      ensures View() == ReadNext(old(View()))
      ensures var s := old(View()); Accounted(s) && Counted(s) && Promised(s) && Delivered(s) ==> Sound(View())
      ensures !errorOccurred && !hasEnded ==> isReading || activeCount >= 50
    {
      if errorOccurred || hasEnded || isReading { return; }
      if activeCount < CONCURRENCY_LIMIT {
        isReading := true;
        asked := true;
      }
    }

    method Resolve()
      modifies this`resolveCalls, this`outcome
      ensures View() == Settle(old(View()), Resolved)
    {
      resolveCalls := resolveCalls + 1;
      if outcome.None? {
        outcome := Some(Resolved);
      }
    }

    method Fail()
      modifies this`errorOccurred, this`rejectCalls, this`outcome
      ensures View() == HandleError(old(View()))
    {
      if errorOccurred { return; }
      errorOccurred := true;
      rejectCalls := rejectCalls + 1;
      if outcome.None? {
        outcome := Some(Rejected);
      }
    }

    method Entry()
      requires Sound(View()) && Possible(View(), EntryRead)
      modifies this
      ensures View() == Step(old(View()), EntryRead) && Sound(View())
      ensures stages == old(stages) + [if pdfs[|old(stages)|] then Opening else Skipped]
    {
      StepSound(View(), EntryRead);
      asked, isReading := false, false;
      if !pdfs[|stages|] {
        stages := stages + [Skipped];
        RequestNext();
        return;
      }
      activeCount := activeCount + 1;
      stages := stages + [Opening];
      RequestNext();
    }

    method End()
      requires Sound(View()) && Possible(View(), EndReached)
      modifies this
      ensures View() == Step(old(View()), EndReached) && Sound(View())
    {
      StepSound(View(), EndReached);
      hasEnded, asked := true, false;
      if activeCount == 0 && !errorOccurred {
        Resolve();
      }
    }

    method ArchiveError()
      requires Sound(View())
      modifies this
      ensures View() == Step(old(View()), ZipFails) && Sound(View())
    {
      StepSound(View(), ZipFails);
      Fail();
    }

    /** The callback of openReadStream. */
    method StreamOpened(i: nat, ok: bool)
      requires Sound(View()) && Possible(View(), Opened(i))
      modifies this
      ensures View() == Step(old(View()), if ok then Opened(i) else OpenFails(i)) && Sound(View())
    {
      StepSound(View(), if ok then Opened(i) else OpenFails(i));
      if !ok {
        stages := stages[i := Refused];
        activeCount := activeCount - 1;
        Fail();
        return;
      }
      stages := stages[i := Writing];
    }

    method StreamError(i: nat)
      requires Sound(View()) && Possible(View(), StreamFails(i))
      modifies this
      ensures View() == Step(old(View()), StreamFails(i)) && Sound(View())
    {
      StepSound(View(), StreamFails(i));
      stages := stages[i := Broken];
      Fail();
    }

    method Finish(i: nat)
      requires Sound(View()) && Possible(View(), Finished(i))
      modifies this
      ensures View() == Step(old(View()), Finished(i)) && Sound(View())
    {
      StepSound(View(), Finished(i));
      stages := stages[i := Written];
      activeCount := activeCount - 1;
      if hasEnded && activeCount == 0 && !errorOccurred {
        Resolve();
      } else {
        RequestNext();
      }
    }
  }
}
