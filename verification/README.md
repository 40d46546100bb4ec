# ComunicaPA: a verified model of its core

ComunicaPA sends legal notifications to citizens. This project models in Dafny the parts of it that
carry state, loops and arithmetic, and proves what they are for.

**The enrichment job.** A trace of records is merged from several archives, each record's PDF is
extracted, and the rows are printed as a CSV; every 100 rows a checkpoint is written. The process may
die at any await (memory lost, disk kept), operators save corrections and ask for retries meanwhile.
`Text`, `EnrichedCsv`, `AddressOverrides`, `RowExtraction`, `EnrichmentRun`, `EnrichmentProcessor` and
`ResumeQueue` model the job and its queue; `MaggioliTrace` and `MaggioliMerge` the trace files;
`PagoPaAmount` the amounts read from payment codes. The main result is `RunWithCrashes`: crashed and
resumed any number of times, the job ends with the file of a run that was never interrupted, although
checkpoints hold rows already corrected.

**The campaign.** `Campaigns` gives every operation (launch, digital-domicile check, skip, finalize, test
send, cancel, retry, review, address correction, resend, tracking id, completion) and every worker as a
function on the campaign's state; `CampaignSafety`, `CampaignHistory`, `CampaignCounters` and `CampaignOrder`
prove what holds in every run, or in exactly which runs, and `CampaignSending` says of each operation who is
sent to, on which channel and by which queue. The class of `CampaignService` does the same operations in place,
with the source's loops and chunks, is proved equal to those functions and keeps what they keep. `InadCheck`
models the check itself, person by person and in batches.

**Costs.** `CostAnalytics`, `CostReport`, `CostSavings`, `CostOrder` and `CostRows`: one pass fills every bucket
of the report; money is conserved, the order of the rows shows nowhere, and what one attempt more changes is said
on its own fields.

**Files and outcomes.** `ZipExtraction` is the concurrent extractor as an event machine, `ChunkedUpload` the
two halves of an upload, `PostalLegalOutcome` the legal outcome in TypeScript against its SQL twin.

## What the code does not do

Some properties one would expect are false of the code. The model keeps the code as it is:

- A retry requested while the retry phase runs is always overwritten, although the comment at
  `enrichment.processor.ts:193-197` says it is picked up: the list is read before the awaits and written back
  after them (`RetryPhase`). Requests made during the main pass are kept.
- A retry extracts the row's own record if and only if it names a PDF and no later record names the same one
  (`RetryFindsOwnRecord`); a run stays sound exactly as long as retries keep to such rows. Names repeated
  inside one archive are not refused by the merge.
- A correction that drops a column set by the one it replaces leaves the old value in rows already saved:
  resumed and uninterrupted runs then differ (`AbsorbIff`).
- A Registro Imprese answer that arrives after the check was skipped, or after a launch that was sent back to
  draft, holds the recipient back whatever it has become, and the review then sends twice
  (`LateReviewBreaksOrder` is a run that does). `VerifyPast` and `LateReviewRenumbers` say exactly when;
  `RunPast` shows that nothing else ever spoils the numbers or channels of attempts.
- Correcting the address of somebody still queued, or sending corrected content again to one, leaves two open
  attempts, or an open attempt of somebody failed (`CorrectAddressTidy`, `ResendTidy`). `RunOrderly` shows that
  these and late answers are all that can spoil the order; `Run` needs no assumption at all.
- A launch with nobody pending throws and leaves the campaign queued; so it stays when everybody pending is held
  back for review (`LaunchOfNobody`).
- Cancel looks jobs up on the campaign's own queue, so diverted or protocol-queued recipients are still sent
  to (`CancelLeaves`); resolving a review has no guard against cancelled campaigns, and is the one operation
  that sends in them (`SentAfterCancel`); correcting an address in one marks the recipient failed
  (`CorrectionAfterCancel`).
- A tracking id is stored before it is validated, although the comment at `campaigns.service.ts:2726` says
  nothing is left half saved (`RefusedIdSticks`).
- When the answer of a batch cannot be fetched, the batches before it have been applied and are applied again
  later; the second time the address found is the recipient's own, so the diversion is taken back
  (`AppliedTwice`).
- Regenerating a file without a header line drops its rows, so doing it twice differs from doing it once unless
  there were none (`RegenerateTwice`).
- The two domicile checks differ if and only if INAD's first address is an empty string: the batched one then
  diverts the recipient to an empty PEC (`PathsAgree`).

## Model

| member | source | states |
|---|---|---|
| `EnrichedCsv.BuildEnrichedCsvHeaders` | apps/backend/src/enrichment/enriched-csv.util.ts:32-38 | the loop yields exactly the fixed columns followed by three columns for each instalment 1..maxRate |
| `EnrichedCsv.HeadersAre` | apps/backend/src/enrichment/enriched-csv.util.ts:32-38 | a name is a header if and only if it is a fixed column or one of the three fields of an instalment between 1 and maxRate |
| `EnrichedCsv.HeadersDistinct` | apps/backend/src/enrichment/enriched-csv.util.ts:11-38 | no two headers are equal, for every maxRate, so a row keyed by header loses no cell |
| `EnrichedCsv.BuildEnrichedCsv` | apps/backend/src/enrichment/enriched-csv.util.ts:53-59 | the loop prints the header line and one line per row, joined by line breaks |
| `EnrichedCsv.ParseEnrichedCsv` | apps/backend/src/enrichment/enriched-csv.util.ts:71-81 | reading splits lines, drops the empty ones, and fills each row cell by cell, later equal headers winning |
| `EnrichedCsv.LineRoundTrip` | apps/backend/src/enrichment/enriched-csv.util.ts:51-69 | reading any printed line gives back every cell, quotes and separators included, as printed; PrintedBreak and BreakIsSpace say that a line break of either kind is printed as one space |
| `EnrichedCsv.BreakIsSpace` | apps/backend/src/enrichment/enriched-csv.util.ts:51 | a line break of either kind, wherever it stands, is worth one space, and what is before and after it is treated alone |
| `EnrichedCsv.PrintedText` | apps/backend/src/enrichment/enriched-csv.util.ts:51 | text without quotes and line breaks is printed as it is, between quotes |
| `EnrichedCsv.PrintedQuote` | apps/backend/src/enrichment/enriched-csv.util.ts:51 | a quote is printed as two |
| `EnrichedCsv.PrintedBreak` | apps/backend/src/enrichment/enriched-csv.util.ts:51 | two lines of text are printed as one cell with one space between them, whichever the line break |
| `EnrichedCsv.PrintedLine` | apps/backend/src/enrichment/enriched-csv.util.ts:51-59 | cells are printed with a semicolon between them |
| `EnrichedCsv.RoundTrip` | apps/backend/src/enrichment/enriched-csv.util.ts:51-81 | reading a printed file gives back the headers and, row by row, every cell with its breaks collapsed, for all rows and any non-empty header list |
| `EnrichedCsv.RowsSurvive` | apps/backend/src/enrichment/enriched-csv.util.ts:53-81 | the rows come back in the same number if and only if there is a header or there are no rows |
| `EnrichedCsv.EnrichedRoundTrip` | apps/backend/src/enrichment/enriched-csv.util.ts:32-81 | with the headers the job uses, every cell under its own header comes back: identical when it holds no line break, and two lines of text as one with a space between |
| `AddressOverrides.ApplyRowIsOverlay` | apps/backend/src/enrichment/enrichment-address-override.service.ts:69-84 | patching a row is laying the columns of the correction of its PDF over it: every column not corrected stays, none disappears |
| `AddressOverrides.SavedOverrideKeepsKey` | apps/backend/src/enrichment/enrichment.service.ts:299-333 | a correction built from any submitted fields never sets the column that corrections are matched on |
| `AddressOverrides.SavedFields` | apps/backend/src/enrichment/enrichment.service.ts:299-333 | the columns stored are all those submitted, with their values, but the PDF name and the three names that would touch an object prototype |
| `AddressOverrides.SavedReplaces` | apps/backend/src/enrichment/enrichment-address-override.service.ts:22-43 | after a save the PDF has exactly the columns submitted, and every other PDF its own |
| `AddressOverrides.ApplyKeepsKey` | apps/backend/src/enrichment/enrichment-address-override.service.ts:69-84 | patching never changes the PDF name of a row |
| `AddressOverrides.AbsorbIff` | apps/backend/src/enrichment/enrichment-address-override.service.ts:69-84 | patching with earlier and then with later corrections equals patching with the later ones, for every row, if and only if the later ones set every column the earlier ones set |
| `AddressOverrides.ApplyIdempotent` | apps/backend/src/enrichment/enrichment-address-override.service.ts:69-84 | patching twice with the same corrections equals patching once |
| `AddressOverrides.RegenerateCsv` | apps/backend/src/enrichment/enrichment.service.ts:340-359 | reading the regenerated file gives the same headers and rows, each cell its correction where there is one and else what it held; regenerating it again gives the same bytes if and only if a header was read or no row was |
| `AddressOverrides.RegenerateTwice` | apps/backend/src/enrichment/enrichment.service.ts:340-359 | regenerating a file twice with the same corrections gives the same bytes, for any content with a header line, and otherwise if and only if no row was read |
| `RowExtraction.ExtractNumbers` | apps/backend/src/enrichment/enrichment.processor.ts:290-411 | every warning of an extraction, from the extractor, its failure, or the content rules, carries the row number asked for |
| `RowExtraction.ExtractColumns` | apps/backend/src/enrichment/enrichment.processor.ts:290-466 | an extracted row keeps the PDF name of its record and has only columns that the file of its instalment count prints |
| `RowExtraction.ExtractHolds` | apps/backend/src/enrichment/enrichment.processor.ts:290-466 | column by column: identity from the trace, address from the trace or else from the PDF, total and instalments as read, the municipality abbreviated or cut, and the tax id of the PDF only where the one of the trace is not valid |
| `RowExtraction.WarningsSaid` | apps/backend/src/enrichment/enrichment.processor.ts:290-411 | the warnings are those of the extractor followed by those of the four content rules, in order, under the row number and PDF name |
| `RowExtraction.CountrySaid` | apps/backend/src/enrichment/enrichment-row-validation.util.ts:29-34 | a country not empty and not recognised is warned about, and nothing else |
| `RowExtraction.CitySaid` | apps/backend/src/enrichment/enrichment-row-validation.util.ts:35-48 | a missing municipality, or one still over 30 characters when abbreviated, is warned about, and nothing else |
| `RowExtraction.AreaSaid` | apps/backend/src/enrichment/enrichment-row-validation.util.ts:49-54 | at home a missing province and an invalid postcode are warned about; abroad nothing is |
| `RowExtraction.TaxIdSaid` | apps/backend/src/enrichment/enrichment-row-validation.util.ts:56-71 | a missing tax id, or an invalid one, replaced or not, is warned about, and nothing else |
| `EnrichmentRun.EnrichJobExtracts` | apps/backend/src/enrichment/enrichment.processor.ts:290-466 | any trace with any extractor service, even one that answers differently over time, meets what the run relies on |
| `EnrichmentRun.SpliceWarnings` | apps/backend/src/enrichment/enrichment.processor.ts:221-223 | removing a row's warnings backwards in place keeps exactly the others, in order |
| `EnrichmentRun.SoundPush` | apps/backend/src/enrichment/enrichment.processor.ts:153-163 | pushing the next record's row and warnings keeps work sound: each row and the warnings under its number come from one extraction, and maxRate is reached |
| `EnrichmentRun.SoundReplace` | apps/backend/src/enrichment/enrichment.processor.ts:218-226 | replacing one row with its warnings keeps work sound, and the other rows keep theirs |
| `EnrichmentRun.SoundPatch` | apps/backend/src/enrichment/enrichment.processor.ts:164-176 | storing patched rows in a checkpoint changes nothing that a resumed run depends on |
| `EnrichmentRun.SoundCovers` | apps/backend/src/enrichment/enrichment-address-override.service.ts:22-43 | corrections added while the job runs leave earlier, already patched work sound |
| `EnrichmentRun.SoundFinal` | apps/backend/src/enrichment/enrichment.processor.ts:235-238 | from sound work, however often patched, the printed file is that of the raw extractions under the final corrections |
| `EnrichmentRun.ColumnsPrinted` | apps/backend/src/enrichment/enrichment.processor.ts:147-238 | no column of an extracted row is missing from the printed file |
| `EnrichmentRun.MaxRateIs` | apps/backend/src/enrichment/enrichment.processor.ts:163-226 | an upper bound reached by some record is the largest instalment count of the trace |
| `EnrichmentRun.DeterministicFinal` | apps/backend/src/enrichment/enrichment.processor.ts:147-238 | with a deterministic extractor, complete work prints the one file, has the one maxRate and the one list of warnings of an uninterrupted run, whenever its rows were extracted |
| `EnrichmentRun.RetryFindsOwnRecord` | apps/backend/src/enrichment/enrichment.processor.ts:208-216 | the lookup by PDF name gives a row its own record if and only if the record names a PDF and no later record names the same one |
| `EnrichmentProcessing.OwnRecord` | apps/backend/src/enrichment/enrichment.processor.ts:208-216 | the name kept in a row that may have been patched any number of times still leads to its own record |
| `EnrichmentProcessing.UpsertCovers` | apps/backend/src/enrichment/enrichment-address-override.service.ts:22-43 | a correction that sets every column of the one it replaces covers all the earlier ones |
| `EnrichmentProcessing.FailureIsRetried` | apps/backend/src/enrichment/enrichment.service.ts:420-424 | a retry queues the row of an extraction if and only if the extractor failed on it or reported such a failure itself; a PDF missing from the archives and the content rules never do |
| `EnrichmentProcessing.EnrichmentProcessor.constructor` | apps/backend/src/enrichment/enrichment.service.ts:88-119 | a queued job starts with no checkpoint, no file and no corrections |
| `EnrichmentProcessing.EnrichmentProcessor.RetryFailedPdfs` | apps/backend/src/enrichment/enrichment.service.ts:406-429 | blocked exactly without a running job and a checkpoint; otherwise every row warned of with a failed extraction is among those waiting, and every row waiting was so before or is such a row, each once; their number is returned; nothing else on disk changes; the state stays valid if and only if no failed row's PDF name is repeated by a later record |
| `EnrichmentProcessing.EnrichmentProcessor.SaveRowOverride` | apps/backend/src/enrichment/enrichment.service.ts:299-333 | refused if and only if no current row names the PDF; otherwise the PDF has exactly the columns submitted and every other its own, and work on disk survives when all the columns of the old correction are set |
| `EnrichmentProcessing.EnrichmentProcessor.Await` | apps/backend/src/enrichment/enrichment.processor.ts:147-232 | whatever requests run during an await, and whether the process dies, the disk keeps its rows and exactly the requested retries are added |
| `EnrichmentProcessing.EnrichmentProcessor.WriteCheckpoint` | apps/backend/src/enrichment/enrichment-checkpoint.util.ts:28-33 | the checkpoint holds as many rows as lastRow says, patched, with the warnings, maxRate and retry list given, and is sound |
| `EnrichmentProcessing.EnrichmentProcessor.SaveCheckpoint` | apps/backend/src/enrichment/enrichment.processor.ts:164-176 | the checkpoint of the main pass keeps every retry requested so far and moves lastRow to the rows in hand, or on a crash leaves it where it was |
| `EnrichmentProcessing.EnrichmentProcessor.MainPass` | apps/backend/src/enrichment/enrichment.processor.ts:141-180 | resumes from the checkpoint and extracts every record; retries requested before and during it are still waiting at its end, crash or not; a crash loses at most the last 100 rows |
| `EnrichmentProcessing.EnrichmentProcessor.ReplaceRow` | apps/backend/src/enrichment/enrichment.processor.ts:218-226 | the retried row and its warnings alone are replaced by those of a new extraction |
| `EnrichmentProcessing.EnrichmentProcessor.RetryOne` | apps/backend/src/enrichment/enrichment.processor.ts:210-232 | one turn serves the first waiting row and writes back the list read before the awaits without it |
| `EnrichmentProcessing.EnrichmentProcessor.RetryPhase` | apps/backend/src/enrichment/enrichment.processor.ts:209-233 | the phase ends with an empty list, having extracted again exactly the rows waiting when it began; after a crash each of them is still waiting or redone on disk |
| `EnrichmentProcessing.EnrichmentProcessor.ProcessEnrich` | apps/backend/src/enrichment/enrichment.processor.ts:120-272 | a finished run leaves a file and warnings accounted for row by row by extractions and by the corrections found at the end, and no checkpoint; it finishes unless the process dies, and then no saved row is lost |
| `EnrichmentProcessing.EnrichmentProcessor.RunWithCrashes` | apps/backend/src/enrichment/enrichment.processor.ts:120-272 | any number of crashes at any await, each followed by a resume: with a deterministic extractor the final file and the warnings of each row are those of an uninterrupted run, and without retries the warnings come in the same order; the job finishes unless the process dies at every attempt |
| `EnrichmentProcessing.EnrichmentProcessor.FinishedDeterministic` | apps/backend/src/enrichment/enrichment.processor.ts:147-272 | the end state of any finished run equals the uninterrupted one when extraction is deterministic |
| `ResumeQueue.EnrichmentQueue.ResumeOne` | apps/backend/src/enrichment/enrichment-resume.service.ts:81-137 | one record: left alone while attended, re-added after removal of its dead job when resumable, failed otherwise |
| `ResumeQueue.EnrichmentQueue.ResumeStuckJobs` | apps/backend/src/enrichment/enrichment-resume.service.ts:79-139 | after the scan every record still in processing has a live job, stuck ones that cannot resume have failed, and no live job was touched |
| `ResumeQueue.EnrichmentQueue.Requeue` | apps/backend/src/enrichment/enrichment.service.ts:431-449 | after a retry request the job is with the queue: left alone if it was live, added anew otherwise, no other job touched |
| `ResumeQueue.ScanTwice` | apps/backend/src/enrichment/enrichment-resume.service.ts:79-139 | scanning again at once changes no record |
| `ResumeQueue.ScanDecides` | apps/backend/src/enrichment/enrichment-resume.service.ts:79-139 | a record in processing without a live job of its own or a live merge goes on if and only if it has a checkpoint, or a finished merge with sources still on disk; else it fails; any other is left alone |
| `ResumeQueue.AddAloneIsNotEnough` | apps/backend/src/enrichment/enrichment-resume.service.ts:15-66 | adding a job without removing a finished one of the same id leaves the record without a live job if and only if the queue still knows the id |
| `MaggioliTrace.ParseRubricaPec` | apps/backend/src/enrichment/maggioli-parser.ts:56-128 | the loop yields one record per non-blank line, trailing blank fields dropped and positions read from the shorter or longer layout |
| `MaggioliTrace.RubricaJoined` | apps/backend/src/enrichment/maggioli-parser.ts:56-128 | reading two texts joined by a line break gives the two readings one after the other, for all texts and either kind of line end |
| `MaggioliTrace.TrailingSeparator` | apps/backend/src/enrichment/maggioli-parser.ts:56-70 | one more trailing separator never changes the record of a line, and changes the reading of the line if and only if the line was blank |
| `MaggioliTrace.FieldsRead` | apps/backend/src/enrichment/maggioli-parser.ts:56-128 | a line of any fields is read by position: in one layout from 18 fields on, in a second for exactly 16, else in that of 14 |
| `MaggioliTrace.TaxCode` | apps/backend/src/enrichment/maggioli-parser.ts:38-54 | ten digits get their zero back, any other tax code is kept, and sixteen characters are a person |
| `MaggioliMerge.ParsePagIndice` | apps/backend/src/enrichment/maggioli-parser.ts:142-180 | the loop yields one record for each non-blank line after the first, read by column names |
| `MaggioliMerge.PagLinesSame` | apps/backend/src/enrichment/maggioli-parser.ts:142-180 | carriage returns at line ends do not show in the records |
| `MaggioliMerge.CellForms` | apps/backend/src/enrichment/maggioli-parser.ts:130-140 | a value written plain, after an apostrophe, between quotes or as a text formula is one and the same cell |
| `MaggioliMerge.UnderHeader` | apps/backend/src/enrichment/maggioli-parser.ts:145-152 | a cell is found under the header above it, the last of several of one name |
| `MaggioliMerge.PagColumns` | apps/backend/src/enrichment/maggioli-parser.ts:154-178 | each part of a record comes from the column of its own header |
| `MaggioliMerge.PagAddress` | apps/backend/src/enrichment/maggioli-parser.ts:154-178 | so does each part of its address, the municipality column counting only where the locality names none |
| `MaggioliMerge.PagSecondLine` | apps/backend/src/enrichment/maggioli-parser.ts:154-172 | an address in two columns is the two with a space between |
| `MaggioliMerge.CheckCompatible` | apps/backend/src/enrichment/enrichment-zip-merge.util.ts:26-58 | no error exactly when all archives share a format and, where that has one, a header; an error names the first archive out of place, formats before headers |
| `MaggioliMerge.Collect` | apps/backend/src/enrichment/enrichment-zip-merge.util.ts:65-83 | succeeds exactly when no PDF is named by two archives, and then gives all records in order; otherwise the two archives named do share the PDF named |
| `MaggioliMerge.MergeMaggioliCsv` | apps/backend/src/enrichment/enrichment-zip-merge.util.ts:25-86 | merges exactly when formats and headers agree and no two archives name the same PDF, giving all the records in order and the merged text; a refusal names the first archive out of place or two that share a PDF |
| `MaggioliMerge.RubricaMerged` | apps/backend/src/enrichment/enrichment-zip-merge.util.ts:60-83 | reading the merged rubrica gives the merged records |
| `MaggioliMerge.PagIndiceMerged` | apps/backend/src/enrichment/enrichment-zip-merge.util.ts:60-83 | reading the merged index gives the merged records when the first lines are identical and not blank |
| `PagoPaAmount.AmountRoundTrip` | services/pdf-extractor/app/pdf_extractor.py:430-468 | printing cents as "euro,cents" and reading them back is the identity for every integer, negative ones by floor division |
| `PagoPaAmount.QrRoundTrip` | services/pdf-extractor/app/pdf_extractor.py:424-435 | a PagoPA text printed for any notice, creditor and cents, with any further fields, is read back field by field, and its amount leads back to the cents |
| `Campaigns.LastAmong` | apps/backend/src/campaigns/campaigns.service.ts:2434-2462 | the attempt found has the highest number of those that qualify, and none is found only when none qualifies |
| `Campaigns.AttemptNumbered` | apps/backend/src/campaigns/campaigns.service.ts:2728-2745 | the attempt found is a postal one of that recipient and number, and one is found whenever there is one |
| `CampaignSafety.Run` | apps/backend/src/campaigns/campaigns.service.ts:682-2765 | in every run of the operations and workers modelled, in any order: no recipient queued without an open attempt that somebody works on, no closed campaign with somebody pending or queued, nothing handed to a channel before a required protocol |
| `CampaignSafety.StepSafe` | apps/backend/src/campaigns/campaigns.service.ts:682-2765 | each step keeps those invariants |
| `CampaignSafety.LaunchSafe` | apps/backend/src/campaigns/campaigns.service.ts:682-892 | launch keeps them on every route: blocked, nobody pending, direct, checked, deferred, unreachable |
| `CampaignSafety.CheckOverSafe` | apps/backend/src/campaigns/campaigns.service.ts:1227-1340 | finalizing or skipping the check keeps them |
| `CampaignSafety.TestSendSafe` | apps/backend/src/campaigns/campaigns.service.ts:894-1024 | a test send keeps them |
| `CampaignSafety.CancelSafe` | apps/backend/src/campaigns/campaigns.service.ts:1521-1651 | cancel keeps them, whatever jobs are locked by a worker |
| `CampaignSafety.RetrySafe` | apps/backend/src/campaigns/campaigns.service.ts:2419-2525 | retry keeps them, reopening a closed campaign |
| `CampaignSafety.ResolveReviewSafe` | apps/backend/src/campaigns/campaigns.service.ts:2560-2592 | resolving a review keeps them |
| `CampaignSafety.CorrectAddressSafe` | apps/backend/src/campaigns/campaigns.service.ts:2606-2692 | a forced address correction keeps them |
| `CampaignSafety.ResendSafe` | apps/backend/src/campaigns/campaign-content-correction.service.ts:47-180 | a content resend keeps them |
| `CampaignSafety.AttachSafe` | apps/backend/src/campaigns/campaigns.service.ts:2728-2765 | attaching a tracking id keeps them |
| `CampaignSafety.CheckAndCompleteSafe` | apps/backend/src/campaigns/campaign-completion.service.ts:43-69 | completion closes only what is finished |
| `CampaignSafety.WorkerFinishSafe` | apps/backend/src/queue/notification.processor.ts:302-387 | the end of a sending, good or bad, keeps them |
| `CampaignSafety.ProtocolSafe` | apps/backend/src/queue/protocollazione.processor.ts:56-237 | the protocol worker keeps them whatever the answer |
| `CampaignSafety.PollSafe` | apps/backend/src/channels/send/send-dispatch.service.ts:67-306 | the SEND poller keeps them |
| `CampaignSafety.VerifySafe` | apps/backend/src/channels/registro-imprese/registro-imprese-verify.processor.ts:118-170 | the Registro Imprese worker keeps them even when its answer comes late |
| `CampaignSafety.OneJobEach` | apps/backend/src/campaigns/campaigns.service.ts:1407-1490 | each recipient of a launch gets one attempt and that attempt exactly one job, carrying its id, on the protocol queue or on the queue of the recipient's own channel |
| `CampaignSafety.ResendTwice` | apps/backend/src/campaigns/campaign-content-correction.service.ts:100-105 | a second resend of the same content does nothing |
| `CampaignSafety.RefusedIdSticks` | apps/backend/src/campaigns/campaigns.service.ts:2728-2765 | an id refused by the carrier is stored all the same if and only if it is not empty and the attempt exists without one, and then every later id for that attempt is refused |
| `CampaignSafety.CorrectionAfterCancel` | apps/backend/src/campaigns/campaigns.service.ts:2606-2689 | in a cancelled campaign a correction sends nothing, and marks the recipient failed if and only if the campaign is POSTAL or SEND, the address is accepted and the recipient was not failed already |
| `CampaignSafety.SentAfterCancel` | apps/backend/src/campaigns/campaigns.service.ts:2560-2592 | of all operations and workers, a cancelled campaign gets a new attempt if and only if a pending review is resolved, or a test send is made on a test campaign |
| `CampaignSafety.LaunchOfNobody` | apps/backend/src/campaigns/campaigns.service.ts:822-892 | a draft launched ends queued without any attempt if and only if no guard stops it and either nobody is pending or all who are, in a PEC campaign checked at once, are held back for review |
| `CampaignHistory.RunPast` | apps/backend/src/campaigns/campaigns.service.ts:682-2765 | in a run attempts are numbered 1..n without gaps, all of a recipient on one channel and none for somebody waiting, at every moment, if and only if no answer of Registro Imprese is late; corrections and resends of anybody are allowed |
| `CampaignHistory.StepPast` | apps/backend/src/campaigns/campaigns.service.ts:682-2765 | a step of any operation or worker keeps that if and only if it is not a late answer |
| `CampaignHistory.VerifyPast` | apps/backend/src/channels/registro-imprese/registro-imprese-verify.processor.ts:157-170 | an answer breaks it if and only if it was awaited, differs, the campaign is PEC and the recipient already has an attempt |
| `CampaignHistory.LateReviewRenumbers` | apps/backend/src/campaigns/campaigns.service.ts:2560-2592 | after an answer and the review of it the numbers and channels are still right if and only if the answer was not late |
| `CampaignHistory.NumbersWithoutGaps` | apps/backend/src/campaigns/campaigns.service.ts:2434-2462 | every number from 1 to the count of a recipient's attempts is carried by one of them |
| `CampaignHistory.LastIsCount` | apps/backend/src/campaigns/campaigns.service.ts:2434-2440 | the highest number is the count of attempts, so the next number is fresh |
| `CampaignHistory.AppendHistory` | apps/backend/src/campaigns/campaigns.service.ts:2434-2491 | an attempt more keeps numbers and channels right if and only if it is next in number and on the channel of the earlier ones |
| `CampaignCounters.ServiceKeepsDrift` | apps/backend/src/campaigns/campaigns.service.ts:682-2765 | every service operation, on normal and refused paths alike, leaves sentCount minus the sent recipients and failedCount minus the failed recipients unchanged |
| `CampaignCounters.RetryDrift` | apps/backend/src/campaigns/campaigns.service.ts:2430-2525 | retry leaves both differences unchanged |
| `CampaignCounters.CorrectAddressDrift` | apps/backend/src/campaigns/campaigns.service.ts:2606-2692 | so does a forced correction, from any status |
| `CampaignCounters.ResendDrift` | apps/backend/src/campaigns/campaign-content-correction.service.ts:127-180 | so does a content resend |
| `CampaignCounters.AttachDrift` | apps/backend/src/campaigns/campaigns.service.ts:2755-2762 | so does attaching a tracking id |
| `CampaignCounters.EndedDrift` | apps/backend/src/queue/notification.processor.ts:302-387 | the end of a sending keeps both differences if and only if the recipient was neither sent nor failed |
| `CampaignCounters.VerifyDrift` | apps/backend/src/channels/registro-imprese/registro-imprese-verify.processor.ts:157-170 | a Registro Imprese answer keeps them if and only if it does not hold back somebody already sent or failed |
| `CampaignCounters.RetryAllIs` | apps/backend/src/campaigns/campaign-bulk-retry.processor.ts:40-65 | a bulk retry queues exactly the retriable ids listed, leaves everybody else alone and keeps both differences |
| `CampaignCounters.RefusedAre` | apps/backend/src/campaigns/campaign-bulk-retry.processor.ts:44-56 | new attempts plus refusals make up the ids listed; an id is refused if and only if it is not retriable or is listed more than once |
| `CampaignOrder.RunOrderly` | apps/backend/src/campaigns/campaigns.service.ts:682-2765 | at every moment of a run only the last attempt of a queued recipient is open, jobs are for open attempts of their channel, no recipient has two protocols and both counters are exact, if and only if no step is a late answer, or a correction or resend that takes effect on somebody still queued |
| `CampaignOrder.StepTidy` | apps/backend/src/campaigns/campaigns.service.ts:682-2765 | a step keeps the order of attempts and jobs if and only if it is regular |
| `CampaignOrder.StepCounts` | apps/backend/src/campaigns/campaigns.service.ts:682-2765 | each regular step, the workers' included, keeps both counters exact |
| `CampaignOrder.QueuedHasOneOpen` | apps/backend/src/campaigns/campaigns.service.ts:1440-1488 | a recipient is queued if and only if one of its attempts is open, and it is then the only open one |
| `CampaignOrder.CreatedTidy` | apps/backend/src/campaigns/campaigns.service.ts:1407-1490 | creating the first attempts keeps the order, for any list of pending recipients |
| `CampaignOrder.RetryTidy` | apps/backend/src/campaigns/campaigns.service.ts:2419-2525 | after a retry the new attempt is the only open one, next in number, on the same channel and under the protocol already obtained, if any |
| `CampaignOrder.RetryInherits` | apps/backend/src/campaigns/campaigns.service.ts:2439-2459 | the attempt of a retry carries the protocol of any earlier attempt that has one, where the campaign needs protocols, and none elsewhere |
| `CampaignOrder.CorrectAddressTidy` | apps/backend/src/campaigns/campaigns.service.ts:2606-2689 | a correction breaks the order if and only if it is accepted, in a POSTAL or SEND campaign, for somebody still queued |
| `CampaignOrder.ResendTidy` | apps/backend/src/campaigns/campaign-content-correction.service.ts:47-180 | a resend breaks the order if and only if it sends again, on a channel that may be sent to twice, to somebody still queued |
| `CampaignOrder.VerifyTidy` | apps/backend/src/channels/registro-imprese/registro-imprese-verify.processor.ts:157-170 | an answer breaks the order if and only if it is late |
| `CampaignOrder.CancelTidy` | apps/backend/src/campaigns/campaigns.service.ts:1521-1651 | cancel takes back attempt, job and recipient together, so the order of attempts and jobs is kept |
| `CampaignOrder.NumberedTidy` | apps/backend/src/queue/protocollazione.processor.ts:175-200 | moving a protocolled attempt to its channel leaves one job and one protocol |
| `CampaignOrder.WorkerMovesQueuedOnly` | apps/backend/src/queue/notification.processor.ts:101-130 | in orderly states the send worker moves queued recipients only |
| `CampaignOrder.SendMovesQueuedOnly` | apps/backend/src/channels/send/send-dispatch.service.ts:67-306 | so do the protocol worker and the SEND poller |
| `CampaignOrder.CancelLeaves` | apps/backend/src/campaigns/campaigns.service.ts:1579-1612 | after cancel a queued recipient stays queued if and only if its open attempt was not taken back, and is then still worked on; this always happens to diverted and protocol-queued ones outside SEND |
| `CampaignOrder.LateReviewBreaksOrder` | apps/backend/src/channels/registro-imprese/registro-imprese-verify.processor.ts:157-170 | a concrete run: an answer arriving after the check was skipped ends with two open attempts both numbered 1 |
| `CampaignSending.LaunchSends` | apps/backend/src/campaigns/campaigns.service.ts:682-892 | route by route, on attempts, jobs and statuses: each recipient pending and not held back gets exactly one attempt, first, queued, on PEC if diverted and else on the campaign's channel, with one job on the queue it belongs to; nobody else gets any; deferred and unreachable routes send nothing |
| `CampaignSending.FinalizeSends` | apps/backend/src/campaigns/campaigns.service.ts:1227-1340 | it leaves the check exactly when ready with no company unanswered, and then each pending recipient gets exactly one such attempt, on PEC if diverted |
| `CampaignSending.SkipSends` | apps/backend/src/campaigns/campaigns.service.ts:1663-1690 | skipping gives each pending recipient one such attempt on the campaign's own channel |
| `CampaignSending.TestSendSends` | apps/backend/src/campaigns/campaigns.service.ts:894-1024 | a test send queues one recipient more with one attempt, on PEC if diverted outside SEND, and nobody else |
| `CampaignSending.CancelEach` | apps/backend/src/campaigns/campaigns.service.ts:1521-1651 | an attempt is cancelled if and only if it and its recipient are queued and its job is on the campaign's own queue and not locked, or the campaign is SEND; pending recipients are cancelled, queued ones exactly with an attempt, others never |
| `CampaignSending.RetryEach` | apps/backend/src/campaigns/campaigns.service.ts:2419-2525 | exactly for somebody failed in a campaign not cancelled: one attempt more, on the channel of the last and with the next number, one job on the queue it needs, nobody else moved, and a closed campaign opened |
| `CampaignSending.CorrectAddressEach` | apps/backend/src/campaigns/campaigns.service.ts:2606-2689 | the same for anybody, exactly when the address is accepted in a POSTAL or SEND campaign not cancelled; whoever was sent or failed is counted so no more |
| `CampaignSending.ReviewEach` | apps/backend/src/campaigns/campaigns.service.ts:2560-2592 | exactly for somebody held back: a first attempt on the campaign's own channel and its one job, and no counter changes |
| `CampaignSending.ResendEach` | apps/backend/src/campaigns/campaign-content-correction.service.ts:47-180 | the content goes out again, as one more attempt on the channel of the last, if and only if that channel may be sent to twice, the campaign is not cancelled and this content was not sent before |
| `CampaignSending.WorkerEnds` | apps/backend/src/queue/notification.processor.ts:302-387 | the end of a sending makes its recipient sent or failed, its attempt too, and counts it once |
| `CampaignSending.PollEnds` | apps/backend/src/channels/send/send-dispatch.service.ts:67-306 | the answer of SEND makes the recipient sent or failed and counts it once |
| `CampaignSending.ProtocolEnds` | apps/backend/src/queue/protocollazione.processor.ts:56-237 | a number is stored and the attempt handed to its channel, SEND excepted; a permanent refusal fails it; a temporary one changes nothing; an attempt no longer queued is left alone |
| `CampaignSending.Closes` | apps/backend/src/campaigns/campaign-completion.service.ts:43-69 | a campaign closes if and only if it is queued, not a test, and nobody is pending or queued: as failed exactly with somebody failed and nobody sent to |
| `CampaignService.CampaignRecord.constructor` | apps/backend/src/campaigns/campaigns.service.ts:454-480 | a new campaign is a draft with everybody pending, no attempt, no job and both counters at zero |
| `CampaignService.CampaignRecord.Count` | apps/backend/src/campaigns/campaign-completion.service.ts:44-52 | the count is zero exactly when nobody has the status |
| `CampaignService.CampaignRecord.InsertFirstAttempts` | apps/backend/src/campaigns/campaigns.service.ts:1414-1445 | inserting in chunks of 500 gives one attempt per recipient and returns the ids in the recipients' order |
| `CampaignService.CampaignRecord.EnqueueFirstJobs` | apps/backend/src/campaigns/campaigns.service.ts:1447-1475 | enqueuing in chunks of 1000 by queue adds exactly one job per attempt |
| `CampaignService.CampaignRecord.CreateAttemptsAndEnqueue` | apps/backend/src/campaigns/campaigns.service.ts:1407-1490 | attempts, jobs and statuses become those of the specification, whatever the two chunk sizes |
| `CampaignService.CampaignRecord.HoldBack` | apps/backend/src/campaigns/campaigns.service.ts:1110-1130 | exactly the reviewed recipients of a PEC campaign are held, and the ids left to send are those still pending |
| `CampaignService.CampaignRecord.Launch` | apps/backend/src/campaigns/campaigns.service.ts:682-892 | route by route each recipient pending and not held back gets its one attempt on its own channel and its one job; what holds of the campaign and both counters are kept |
| `CampaignService.CampaignRecord.LaunchTestSend` | apps/backend/src/campaigns/campaigns.service.ts:894-1024 | a blocked test send changes nobody; otherwise one recipient more is queued with one attempt, on PEC if diverted, and somebody works on it; what holds of the campaign and both counters are kept |
| `CampaignService.CampaignRecord.Finalize` | apps/backend/src/campaigns/campaigns.service.ts:1227-1340 | nothing happens unless checking, ready and without company pending; then each recipient pending gets exactly one attempt, on PEC if diverted and else on the campaign's channel, with one job, and nobody else gets any; what holds of the campaign and both counters are kept |
| `CampaignService.CampaignRecord.SkipInadCheck` | apps/backend/src/campaigns/campaigns.service.ts:1663-1690 | nothing happens outside the check; in it each recipient pending gets exactly one attempt on the campaign's channel, with one job; what holds of the campaign and both counters are kept |
| `CampaignService.CampaignRecord.TakeBack` | apps/backend/src/campaigns/campaigns.service.ts:1579-1600 | the jobs removed are those found on the campaign's own queue and not locked, and only their attempts are taken back |
| `CampaignService.CampaignRecord.Cancel` | apps/backend/src/campaigns/campaigns.service.ts:1521-1651 | attempt by attempt and recipient by recipient what is taken back and what stays; what holds of the campaign and both counters are kept |
| `CampaignService.CampaignRecord.RetryRecipient` | apps/backend/src/campaigns/campaigns.service.ts:2419-2525 | requeued if and only if failed in a campaign not cancelled; then one attempt more on the channel of the last, with the next number, its job, and the campaign open; a refusal changes nothing; what holds of the campaign and both counters are kept |
| `CampaignService.CampaignRecord.UpdateRecipientAddressAndRetry` | apps/backend/src/campaigns/campaigns.service.ts:2606-2689 | requeued, whatever the status, if and only if the address is accepted in a POSTAL or SEND campaign not cancelled; then one attempt more on the channel of the last, with the next number, its job, and the campaign open; a refusal adds no attempt or job; what holds of the campaign and both counters are kept |
| `CampaignService.CampaignRecord.ResolvePecReview` | apps/backend/src/campaigns/campaigns.service.ts:2560-2592 | requeued if and only if held back; then a first attempt on the campaign's own channel is there and worked on, the campaign open; a refusal changes nothing; what holds of the campaign and both counters are kept |
| `CampaignService.CampaignRecord.ResendSafe` | apps/backend/src/campaigns/campaign-content-correction.service.ts:47-180 | one attempt more on the channel of the last, exactly when a resend is allowed, leaving the signature of the current content; what holds of the campaign and both counters are kept |
| `CampaignService.CampaignRecord.AttachPostalTrackingId` | apps/backend/src/campaigns/campaigns.service.ts:2728-2765 | accepted if and only if valid, not empty and for an attempt without id; the id stays with the attempt in any case; a failed attempt accepted becomes sent and the recipient can no more be retried; what holds of the campaign and both counters are kept |
| `CampaignService.CampaignRecord.CheckAndComplete` | apps/backend/src/campaigns/campaign-completion.service.ts:43-69 | the campaign closes exactly when queued, not a test, with nobody pending or queued: as failed with failures and nobody sent, as completed otherwise |
| `CampaignService.CampaignRecord.BulkRetry` | apps/backend/src/campaigns/campaign-bulk-retry.processor.ts:29-67 | processed is the number of ids and equals requeued plus failed; the state is that of retrying every id once, in order |
| `InadCheck.PathsAgree` | apps/backend/src/campaigns/campaigns.service.ts:1060-1339 | the synchronous and the batched check leave a recipient with the same PEC, audit, review and channel if and only if INAD's first address for it is not an empty string |
| `InadCheck.CampaignPathsAgree` | apps/backend/src/campaigns/campaigns.service.ts:1060-1339 | the same over a whole campaign, whatever the batches |
| `InadCheck.AppliedTwice` | apps/backend/src/campaigns/campaigns.service.ts:1274-1304 | a batch applied again, after the answer of a later one failed to arrive, keeps the address but changes the recipient's channel if and only if the campaign is not PEC and the diversion was to an address not blank |
| `InadCheck.DivertedGetsNewAddress` | apps/backend/src/campaigns/campaigns.service.ts:1060-1132 | a diverted recipient gets a non-empty address different from its own, an undiverted one keeps its address, and only companies of PEC campaigns are held |
| `InadCheck.DivertedWhen` | apps/backend/src/campaigns/campaigns.service.ts:1060-1132 | a recipient is sent elsewhere, or held in a PEC campaign when a company, if and only if the sources know an address other than its own; the audit keeps the address it had, and is absent exactly without a tax id or an answer |
| `InadCheck.AddressesCompared` | apps/backend/src/channels/pec-address.util.ts:8-12 | spaces around an address and its case do not make another one, and a blank address is the same as none |
| `InadCheck.CompanyNumbers` | apps/backend/src/channels/tax-id.util.ts:14-16 | eleven digits, whatever spaces surround them, are a company, and nothing else is |
| `InadCheck.MemberOf` | apps/backend/src/campaigns/campaigns.service.ts:1155-1190 | being in the batches is being in one of them |
| `InadCheck.OneBatch` | apps/backend/src/campaigns/campaigns.service.ts:1155-1190 | no recipient is in two batches |
| `InadCheck.InadChecker.RunInadExtractLoop` | apps/backend/src/campaigns/campaigns.service.ts:1047-1135 | exactly the recipients listed are checked, and the diverted and reviewed ones are reported |
| `InadCheck.InadChecker.StartInadBulkCheck` | apps/backend/src/campaigns/campaigns.service.ts:1147-1216 | the batches hold exactly the people, 1000 at a time in order, each with the id its submission returned up to the end of the quota, the companies exactly those with a VAT number, and checking starts if and only if somebody has a tax id |
| `InadCheck.InadChecker.Resubmit` | apps/backend/src/campaigns/inad-check-sync.service.ts:59-79 | each pending batch without id gets the id its submission returns, and nothing else changes |
| `InadCheck.InadChecker.IsReady` | apps/backend/src/campaigns/inad-check-sync.service.ts:81-101 | ready if and only if every batch is submitted and available and no company is unanswered |
| `InadCheck.InadChecker.ResultByCf` | apps/backend/src/campaigns/campaigns.service.ts:1275-1276 | the map holds, for every tax id answered, its last item, and nothing else |
| `InadCheck.InadChecker.ApplyBatch` | apps/backend/src/campaigns/campaigns.service.ts:1277-1301 | applying a batch checks exactly its recipients |
| `InadCheck.InadChecker.FinalizeInadCheck` | apps/backend/src/campaigns/campaigns.service.ts:1227-1340 | nothing happens unless ready; then every recipient of every batch is checked once, or, when the answer of a batch does not arrive, those of the batches before it, none saved as done |
| `InadCheck.InadChecker.VerifyCompany` | apps/backend/src/channels/registro-imprese/registro-imprese-verify.processor.ts:118-170 | a company ends as the synchronous path leaves it: a PEC campaign never takes the address found, and another is given only an address that differs |
| `InadCheck.InadChecker.DeferredCheck` | apps/backend/src/campaigns/inad-check-sync.service.ts:44-109 | from start to finalization, with any batch refused at some ticks and accepted at later ones: it ends if and only if somebody is listed and every batch has at last an id and an answer, and then every listed recipient ends as the batched check says |
| `CostAnalytics.KindsAddUp` | apps/backend/src/campaigns/cost-analytics.util.ts:134-194 | in any selection digital, analog and postal costs and counts add up to all of them, domestic and foreign to postal |
| `CostAnalytics.SharesAddUp` | apps/backend/src/campaigns/cost-analytics.util.ts:134-194 | per-month, per-campaign and per-product shares add up to the whole |
| `CostAnalytics.SendProductsAddUp` | apps/backend/src/campaigns/cost-analytics.util.ts:160-170 | the amounts of the SEND products add up to the paper part of the analog attempts |
| `CostAnalytics.AnyOrder` | apps/backend/src/campaigns/cost-analytics.util.ts:134-194 | every figure is the same for any reordering of the attempts |
| `CostReport.Aggregates.AddSend` | apps/backend/src/campaigns/cost-analytics.util.ts:155-176 | a SEND row keeps totals, products and campaign references equal to the figures of the rows read |
| `CostReport.Aggregates.AddPostal` | apps/backend/src/campaigns/cost-analytics.util.ts:177-192 | a postal row keeps totals, components, products and destinations equal to the figures of the rows read |
| `CostReport.Aggregates.AddWhole` | apps/backend/src/campaigns/cost-analytics.util.ts:134-154 | any row keeps pending counts, months and campaigns equal to the figures of the rows read |
| `CostReport.Aggregates.Add` | apps/backend/src/campaigns/cost-analytics.util.ts:134-194 | one turn of the loop keeps every field of the report so |
| `CostReport.Aggregates.AddAll` | apps/backend/src/campaigns/cost-analytics.util.ts:134-194 | after the loop every field of the report is the figure of all the rows |
| `CostSavings.MoneyIsConserved` | apps/backend/src/campaigns/cost-analytics.util.ts:134-194 | the total equals the sum over rows, over months and over campaigns; analog is base fee plus paper; paper is the sum of SEND products; postal is domestic plus foreign and the sum of its products |
| `CostSavings.AverageBound` | apps/backend/src/campaigns/cost-analytics.util.ts:196 | the rounded average times the count is within half the count of the total |
| `CostSavings.ValuationsAddUp` | apps/backend/src/campaigns/cost-analytics.util.ts:203-215 | every digital delivery is valued by its own campaign, estimated or not estimable, in exactly one way |
| `CostSavings.SendSavings` | apps/backend/src/campaigns/cost-analytics.util.ts:203-215 | saving, estimated and not estimable are those of the digital deliveries, whatever order the campaigns are visited in |
| `CostSavings.PostalSavings` | apps/backend/src/campaigns/cost-analytics.util.ts:217-232 | not estimable is all the diverted letters when no postal cost is known and zero otherwise; the saving is the sum over campaigns |
| `CostSavings.SortedByCost` | apps/backend/src/campaigns/cost-analytics.util.ts:97-101 | the list holds each key of the map once with its bucket, by cost and then by key |
| `CostSavings.OneSortedList` | apps/backend/src/campaigns/cost-analytics.util.ts:97-101 | such a list is unique, so no order of insertion shows |
| `CostSavings.BuildCostAnalytics` | apps/backend/src/campaigns/cost-analytics.util.ts:103-268 | the report describes the rows: every field, list, average and saving, with the digital deliveries split in three; UncostedRow and CostedRow say what each attempt changes in it |
| `CostOrder.OrderDoesNotShow` | apps/backend/src/campaigns/cost-analytics.util.ts:103-268 | two reports on the same rows in different orders are equal in every total, bucket, map, list, average and saving |
| `CostRows.UncostedRow` | apps/backend/src/campaigns/cost-analytics.util.ts:134-146 | one more attempt with no cost, the placeholder 0 or replaced by App IO leaves the whole report as it was, lists, savings and totals, and one more waits exactly when it succeeded and was not replaced |
| `CostRows.CostedRow` | apps/backend/src/campaigns/cost-analytics.util.ts:137-192 | any other adds exactly its cost to the total and one to exactly one of digital, analog and postal, as channel, events and paper domicile say; a letter to domestic or foreign |
| `CostRows.CostedRowByKey` | apps/backend/src/campaigns/cost-analytics.util.ts:149-192 | its campaign, and for a letter its product, gain one and its cost, and no other key changes |
| `CostRows.CostedRowByMonth` | apps/backend/src/campaigns/cost-analytics.util.ts:148-193 | its month gains the cost under its kind, and no other month changes |
| `CostRows.CostedPaper` | apps/backend/src/campaigns/cost-analytics.util.ts:155-166 | of a SEND attempt on paper the events make the analog part and the products, the rest of the cost the base fee |
| `CostRows.CostOfEvents` | apps/backend/src/campaigns/cost-analytics.util.ts:70-95 | events are counted one by one under their product, under "N/D" without one |
| `CostRows.ShipOfEvents` | apps/backend/src/campaigns/cost-analytics.util.ts:76-78 | the paper part is the sum of the events' costs |
| `CostRows.CostedReference` | apps/backend/src/campaigns/cost-analytics.util.ts:164-175 | what savings are reckoned on gains one digital delivery, or one on paper with its events, in its own campaign only |
| `CostRows.CostedLetter` | apps/backend/src/campaigns/cost-analytics.util.ts:86-88 | each component of a letter is its euro amount in the nearest whole cents, nothing when missing |
| `CostRows.RoundHalfUp` | apps/backend/src/campaigns/cost-analytics.util.ts:86-88 | rounding gives the nearest whole number, halves upwards |
| `CostRows.OneCampaignSaves` | apps/backend/src/campaigns/cost-analytics.util.ts:203-215 | with one SEND campaign the saving is its digital deliveries at the average paper, else the fallback, else none is estimable |
| `CostRows.OneDiversionSaves` | apps/backend/src/campaigns/cost-analytics.util.ts:217-232 | diverted letters save the average letter of their campaign, else of the period, else nothing |
| `ZipExtraction.FlatName` | apps/backend/src/campaigns/zip-extract.util.ts:15-17 | no folder separator of either kind is left in the name |
| `ZipExtraction.EntryOfFile` | apps/backend/src/campaigns/zip-extract.util.ts:15-77 | a file in any folder, with separators of either kind, is extracted under its own name, if and only if that ends in .pdf in any letter case |
| `ZipExtraction.FolderSkipped` | apps/backend/src/campaigns/zip-extract.util.ts:72-77 | the entry of a folder is never extracted |
| `ZipExtraction.ResolvedWroteAll` | apps/backend/src/campaigns/zip-extract.util.ts:31-120 | a resolved extraction has written the file of every entry ending in .pdf, in any case and folder, and skipped every other |
| `ZipExtraction.StepSound` | apps/backend/src/campaigns/zip-extract.util.ts:31-120 | every event keeps activeCount equal to the open streams and at most 50, a read pending or 50 streams open until the end or a failure, one settlement, and resolution only with every PDF written |
| `ZipExtraction.After` | apps/backend/src/campaigns/zip-extract.util.ts:24-122 | every interleaving of events from the start is sound |
| `ZipExtraction.NeverStuck` | apps/backend/src/campaigns/zip-extract.util.ts:31-120 | until the promise settles some answer other than a failure can come |
| `ZipExtraction.AnswersRunOut` | apps/backend/src/campaigns/zip-extract.util.ts:31-120 | every answer but an archive error uses up a finite measure, so every run settles |
| `ZipExtraction.LateFailure` | apps/backend/src/campaigns/zip-extract.util.ts:36-53 | an archive error after resolution is the only event left, and changes neither the outcome nor the files |
| `ZipExtraction.Extraction.constructor` | apps/backend/src/campaigns/zip-extract.util.ts:28-36 | starts sound, before any event |
| `ZipExtraction.Extraction.RequestNext` | apps/backend/src/campaigns/zip-extract.util.ts:55-61 | after any handler the state is sound again: unless ended or failed a read is pending or 50 streams are open |
| `ZipExtraction.Extraction.Entry` | apps/backend/src/campaigns/zip-extract.util.ts:63-81 | an entry is skipped, if a folder or without the ending .pdf in some letter case, or its stream opened and counted |
| `ZipExtraction.Extraction.End` | apps/backend/src/campaigns/zip-extract.util.ts:47-53 | the end resolves exactly when no stream is open |
| `ZipExtraction.Extraction.ArchiveError` | apps/backend/src/campaigns/zip-extract.util.ts:36-45 | an archive error is the specified step |
| `ZipExtraction.Extraction.StreamOpened` | apps/backend/src/campaigns/zip-extract.util.ts:81-88 | opening succeeds or fails as specified |
| `ZipExtraction.Extraction.StreamError` | apps/backend/src/campaigns/zip-extract.util.ts:90-100 | a stream error is the specified step |
| `ZipExtraction.Extraction.Finish` | apps/backend/src/campaigns/zip-extract.util.ts:102-110 | a finished file frees a place, asks again or resolves |
| `ChunkedUpload.TotalChunks` | apps/frontend-admin/src/chunked-upload.ts:46 | the least number of chunks that covers the file, at least one |
| `ChunkedUpload.ChunkExtends` | apps/frontend-admin/src/chunked-upload.ts:57-66 | each slice extends what came before by exactly its bytes |
| `ChunkedUpload.PartsDistinct` | apps/backend/src/campaigns/chunked-upload.util.ts:56-60 | different indices have different part files |
| `ChunkedUpload.JoinedIsPrefix` | apps/backend/src/campaigns/chunked-upload.util.ts:123-156 | joining the first n parts gives the bytes the first n slices cover |
| `ChunkedUpload.Session.Store` | apps/backend/src/campaigns/chunked-upload.util.ts:87-90 | a part is stored under its own name, replacing an earlier one, exactly when the index is valid |
| `ChunkedUpload.Session.Assemble` | apps/backend/src/campaigns/chunked-upload.util.ts:123-156 | succeeds if and only if every part below totalChunks is there, names the first missing part otherwise, and joins them in order |
| `ChunkedUpload.Upload` | apps/backend/src/campaigns/chunked-upload.util.ts:91-156 | slices arriving in any order with any repeats: assembly succeeds if and only if each arrived, and then gives exactly the file |
| `ChunkedUpload.UploadFileInChunks` | apps/frontend-admin/src/chunked-upload.ts:46-67 | the client loop uploads any file, the empty one included, whole |
| `PostalLegalOutcome.CaseAgrees` | apps/backend/src/campaigns/postal-legal-outcome.util.ts:71-122 | the SQL CASE under three-valued logic gives the outcome of the TypeScript function for every attempt, diversion stored as true, false or not at all, AR flag and Poste row, missing rows and NULLs included |
| `PostalLegalOutcome.DeliveredWhen` | apps/backend/src/campaigns/postal-legal-outcome.util.ts:71-92 | delivered if and only if the digital delivery succeeded, or the letter has one of the six statuses with legal value or the word of GlobalCom or Poste, dated by whoever says so |
| `PostalLegalOutcome.NotDeliveredWhen` | apps/backend/src/campaigns/postal-legal-outcome.util.ts:71-92 | not delivered if and only if the sending failed, GlobalCom reports an error, or one of the nine reasons is given and nobody says delivered |
| `PostalLegalOutcome.OtherwiseWhen` | apps/backend/src/campaigns/postal-legal-outcome.util.ts:71-92 | no legal value exactly when replaced by App IO, no AR exactly without tracking, unclassified exactly when deleted with nothing better known |
| `PostalLegalOutcome.PosteOnlyPromotes` | apps/backend/src/campaigns/postal-legal-outcome.util.ts:71-92 | a "delivered" of Poste leaves a delivered outcome untouched and turns any other into delivered or leaves it |
| `PostalLegalOutcome.PostePromotesWhen` | apps/backend/src/campaigns/postal-legal-outcome.util.ts:71-92 | it promotes if and only if the outcome rests on the carrier's word alone |
| `PostalLegalOutcome.OtherPosteAnswers` | apps/backend/src/campaigns/postal-legal-outcome.util.ts:71-92 | any other answer of Poste counts as none |

## Left out

- Services outside: PDF extractor, INAD, Registro Imprese, carriers, databases and queues are parameters or environment steps; HTTP, logs, events, attachments and time stamps are not modelled.
- Address heuristics of the PDF extractor and the splitting of a locality by regular expression: the latter is a parameter of the trace parser.
- Enrichment: the failure path of a run (status FAILED, checkpoint deleted), the count of missing payments, dismissing a warning (it changes no column), and the guards that block regeneration of an unfinished job or a missing file.
- EnrichmentProcessing.EnrichmentProcessor.Await: lets through only corrections that set every column of the one they replace, and only retries of rows whose PDF name no later record repeats; what the others do is stated by AbsorbIff and RetryFindsOwnRecord.
- EnrichmentProcessing.EnrichmentProcessor.RetryPhase: promises nothing for requests that arrive during the phase, because the code drops them.
- Corrections are read and the checkpoint written at one moment, after the await that precedes both.
- Text is a sequence of characters: no encoding, and the UTF-16 code units of JavaScript are taken as characters.
- Campaign steps are atomic, method by method; a save of an entity loaded earlier, which would write back stale columns, is below that grain. Workers are atomic from taking a job to counting its end, and a job is finished once.
- The nightly reconciliation of orphan attempts (`queue/orphan-reconciliation.service.ts`), which adds jobs on the campaign's own queue even for diverted recipients and fails attempts whose job is gone, is not among the workers of CampaignSafety.Run and CampaignOrder.RunOrderly.
- Statuses RUNNING and SKIPPED are never written by the operations and are not modelled; recipients are known by position, and inserted ids come back in the order of insertion.
- Campaigns.LastAmong: among equal attempt numbers, which only irregular runs produce, it takes the latest, where the database may take any.
- A test campaign takes over its parent's settings and attachments at each test send; the model keeps the settings it started with.
- The daily INAD quota is modelled at the level of statuses only (a launch that ends in the deferred check); recipients already diverted when it strikes are checked again by the source.
- InadCheck.PathsAgree: assumes answers, not errors, from INAD, and takes lower-casing as a given function that keeps the empty string; recipients not checked before.
- InadCheck.InadChecker.DeferredCheck: finalization is tried once, at the last tick; what a second try after a failed one changes is AppliedTwice.
- InadCheck.InadChecker.FinalizeInadCheck: the selection of pending recipients and their queuing is in CampaignService.CampaignRecord.Finalize.
- CostSavings.BuildCostAnalytics: the list of the five top campaigns, names of campaigns and the sorting of months are left out.
- Costs are exact rationals where the source uses floating point; key comparison is any total order, and the library sort is an insertion sort.
- ZipExtraction.Extraction.Finish: the contents of written files are not modelled, so two entries with the same flat name, which share a file, are told apart only as entries.
- ChunkedUpload.Session.Store: an index written with leading zeros is stored under a name that assembly never reads; requests, identifiers and progress within a slice are left out.
- PagoPaAmount.QrRoundTrip: spaces and underscores that Python's integer parser tolerates are refused by the model, which prints none; decoding the image and the choice among payments of one document are left out.
- MaggioliMerge.PagIndiceMerged: needs identical, non-blank first lines; headers that differ in outer spaces pass the merge.
- ResumeQueue.EnrichmentQueue.ResumeStuckJobs: assumes distinct record ids, none of them another's merge id.
- Conversion of a finished job into a campaign, statistics, retention, templates, signatures and settings.
