# Verified models of the workbench's integration core

This project models, in Dafny, the parts of the repository whose correctness cannot be settled by
a handful of tests, and proves what they promise on all inputs, all runs and all reachable states:

- **Analysis grouping** (`irp_integration/grouping.py`): inspection normalises the region rows of the
  selected analyses, partitions the facts, works out the choices offered and reports what blocks;
  submission re-inspects, compares the fingerprint, validates the selections and builds the request
  rows. Files `GroupingModel`, `GroupingLookups`, `GroupingRegions`, `GroupingProblems`,
  `GroupingTreaties`, `GroupingInspect`, `GroupingFingerprint`, `GroupingSelections`,
  `GroupingRequest`, `GroupingSubmit`, `GroupingFindings`, `GroupingSoundness`, `GroupingBlindSpot`, over the
  sorting theory in `Ordering`.
- **The submission-retry loop and the tracking transaction** (`app/poller/run.py`): `RetryLoop`, `Tracking`.
- **The work queue with heartbeats** (`reference/heartbeat_poc.py`): `JobQueue`.
- **The workflow run engine** (`reference/mock_data.py`): `RunEngine`.
- **Four loops with a sharp specification**: `Pagination` (`irp_integration/utils.py`), `SqlTemplate`
  (`db/scripts.py`), `ExportDownload` (`irp_integration/export_job.py`), `ColumnarLoad` (`db/elt.py`).

`dafny verify dfyconfig.toml` checks everything.

## How the models are built

Code that updates state step by step is a method with loops, or a class whose methods change its
fields; its `ensures` equates the result or the new state with a specification function of the inputs
or of the old state. The theorems are lemmas about those functions, and invariants over runs of step
systems whose steps are the same functions the class methods are proved equal to.

- The Platform is a fixed function from what is asked to what is answered, including answers that
  raise. JSON texts and the SHA-256 digest are functions assumed injective (`Faithful`). Sorting is
  Python's stable sort on keys that compare like tuples of strings and integers.
- A missing dictionary key is not assumed away: the resolvers, the builder and submission have an
  outcome for it (`KeyMissing`, `NoSuchKey`, `BuildFails`, `Broken`), and it is proved not to occur.
- Clocks, platform replies, crashes, failures at every statement and interleavings are parameters or events.
- Services that are called but not modelled are assumed to do what their call sites rely on:
  `enqueue_rwb_job` inserts unless the unique key of `alembic/versions/0001_initial.py:467-469` is
  taken; `list_non_terminal` returns the submitted jobs not mirrored as terminal, each once;
  `update_tracking` sets the mirrored status.
- Besides the poller, other processes insert job rows, move the rows of other statuses, stamp a failed row
  (`app/services/analysis_service.py:848-856`) and clear a row's analysis when its submission is deleted
  (`app/services/submission_delete_service.py:176-178`). That none of them writes a status of the retry
  loop or an attempt count is an assumption of the retry results (`RetryLoop.Outside`).

Results worth knowing:

- The retry loop can exhaust a row's budget without telling anyone: from a single failed submission, a
  poller that drops every claim uses up all attempts by reclaims, the analysis stays `pending`, and the row
  is never a candidate again (`RetryLoop.ReclaimExhaustsSilently`). Of the steps that exhaust a row exactly
  the refused resubmission marks its analysis (`RetryLoop.ExhaustionTold`). Two concurrent pollers can lose
  an attempt (`RetryLoop.TwoPollersLoseACount`).
- At most one live worker holds a queued job while no held job reads as stale (`JobQueue.AtMostOneHolder`),
  and that guard is exact: a read that meets a held stale row can be followed by a second live holder, and
  no other read can (`JobQueue.ReadHarmlessIffSafe`). Stamping within the stale window is sufficient
  (`JobQueue.TimelyIsSafe`) but not necessary (`JobQueue.UntimelyButSafe`). From an empty queue two holders
  are five events away (`JobQueue.TwoHoldersReached`).
- The fingerprint vouches for which problems block, not for the sub-regions they lie in
  (`GroupingBlindSpot.SubRegionsNotCovered`).
- `upload_parquet` refuses, by way of the database, a load with rows into no column or into one column
  twice; an empty file loads anyway. Its identifier check lets one trailing line break pass, because
  the pattern ends in `$` (`db/elt.py:27-34`, `ColumnarLoad.TrailingBreakPasses`).
- `paginate_search` says it reads a whole collection; with an honest server that is so exactly when the
  collection is smaller than the ceiling and no two full pages repeat (`Pagination.HonestIffComplete`).
- The temporary file of a download remains exactly when it was made and then either an exception that is
  not an `Exception`, such as an interrupt, ended the call, which skips the clean-up
  (`irp_integration/export_job.py:310-321`), or the removal failed: `ExportDownload.FileSystem.Download`
  says so, and `ExportDownload.InterruptLeavesFile` gives an interrupt in mid-stream.

## Model

| member | source | states |
|---|---|---|
| GroupingSubmit.NothingLost | irp_integration/grouping.py:2057-2128 | once nothing blocks and the three resolvers settle, the builder finds every key and takes neither `continue`; a group without PLT facts and without a conflict of schemes sends no rows, and otherwise every raw region row of every selected analysis is represented by a row with its model region, peril, region, version and engine, the scheme, set and period count selected for its partition, or else one offered there and its own count, and every row represents such a raw row |
| GroupingSubmit.Unblocked | irp_integration/grouping.py:1284-1586 | no blocking problem means every analysis exists and has rows, every row became a usable fact, and every ELT fact's partition offers a scheme and, when simulating, a simulation set |
| GroupingSubmit.SubmitsIff | irp_integration/grouping.py:1087-1124 | submission never fails on a missing key, and makes a request exactly when the ids are valid, the reads succeed, the fingerprint is the expected one, nothing blocks and all selections are admissible |
| GroupingSubmit.Submit | irp_integration/grouping.py:1087-1124 | the steps of submission up to the request body compute `Submitted` |
| GroupingSubmit.RequestIs | irp_integration/grouping.py:2017-2128 | a request names the address of every analysis in the order given, asks for simulation exactly when a fact is PLT, and its rows, distinct and in the order of their texts, show every raw region row with the selected scheme, set and period count where one is selected, and with a scheme or set offered and the PET's or set's own count elsewhere |
| GroupingSubmit.SubmissionIs | irp_integration/grouping.py:1087-1124 | ids must be two or more, positive and distinct; a failed read is passed on; otherwise the request is made, or refused for the first of a changed fingerprint, blocking problems, and inadmissible rate, set and period selections |
| GroupingSubmit.InspectionShape | irp_integration/grouping.py:1427-1535 | an inspection has one partition for each key of its facts; a partition offers more than one scheme only if it requires a choice, and simulation sets exactly if it requires one |
| GroupingSubmit.InspectionWarns | irp_integration/grouping.py:1546-1546 | an inspection warns about a treaty number exactly when two treaties read under it differ in normalised terms, and names exactly the differing fields, analyses and treaties |
| GroupingSubmit.RequiredMeansNeeded | irp_integration/grouping.py:1547-1556 | selections are listed among the required inputs exactly when submission refuses to go without any |
| GroupingSubmit.ExaminedClean | irp_integration/grouping.py:1291-1386 | an analysis examined without a problem exists, has rows, and each row gives a usable fact that is kept |
| GroupingSubmit.PartitionOffers | irp_integration/grouping.py:1432-1517 | what one partition offers and requires, and that one without a problem serves its ELT facts |
| GroupingSubmit.SchemesOffered | irp_integration/grouping.py:1422-1468 | the schemes offered are the one in use or, in a conflict, exactly those an active row applies to the partition |
| GroupingSubmit.SetsOffered | irp_integration/grouping.py:1474-1522 | the simulation sets offered are exactly those a reference row converts an ELT partition of a simulated group with |
| GroupingFindings.MembersAre | irp_integration/grouping.py:1345-1387 | a member shows its detail and exactly the facts of its rows in order; its framework is the detail's or the one all rows agree on, its version the one all facts share; an absent analysis shows nothing |
| GroupingFindings.BlockingIs | irp_integration/grouping.py:1284-1586 | what blocks is exactly what is wrong: an analysis not found, without rows, or with rows of another framework, what rows report, a conflict without schemes, ELT facts without a set |
| GroupingFindings.InspectRaisesIff | irp_integration/grouping.py:1284-1410 | inspection raises exactly when examining an analysis raises, or rows are needed that cannot be read: schemes for an ELT fact with a scheme, schemes and simulation sets where ELT meets PLT |
| GroupingFindings.ExamineRaisesIff | irp_integration/grouping.py:1291-1372 | examining raises exactly for an unreadable analysis, treaty list or row list, a treaty without number or terms, or a row that raises |
| GroupingFindings.SimulatesIff | irp_integration/grouping.py:1388-1390 | a group is simulated to PLT exactly when some fact is PLT |
| GroupingFindings.PartitionsAre | irp_integration/grouping.py:1397-1430 | one partition for each (peril, region, version) some fact has, in that order |
| GroupingFindings.PartitionShows | irp_integration/grouping.py:1429-1517 | a partition lists exactly its analyses and PETs in order; a choice of schemes is required exactly when two ELT facts go by different ones |
| GroupingFindings.SchemesShown | irp_integration/grouping.py:1434-1468 | the schemes offered, told from the Platform's rows: in a conflict those an active row applies, under the version if all ELT facts are DLM, named by the last such row; else the one in use, labelled by the first row with its id or the analyses |
| GroupingFindings.LabelsAre | irp_integration/grouping.py:1356-1359 | of several analyses that label a scheme the last one counts |
| GroupingFindings.SetsShown | irp_integration/grouping.py:1474-1515 | the simulation sets offered, told from the Platform's rows: those of rows that convert the partition under an active scheme, each as its last row describes it |
| GroupingFindings.MappingsShown | irp_integration/grouping.py:1533-1544 | the mappings are those of the sets offered, with the ELT analyses, engines, model region, scheme, set and periods |
| GroupingFindings.EnginesInAre | irp_integration/grouping.py:1533-1533 | the engines of a partition, taken apart at the commas, are those of its ELT facts, each once, in order |
| GroupingFindings.TreatiesAre | irp_integration/grouping.py:1318-1336 | the treaties of an inspection are what the treaty rows of its analyses are read as, all and only |
| GroupingFindings.DifferenceIsWarned | irp_integration/grouping.py:1669-1732 | a plain field is named in a warning about a number exactly when two treaty rows of that number, of whichever inspected analyses, differ in it |
| GroupingSoundness.FingerprintSound | irp_integration/grouping.py:1747-1814 | two inspections with the expected fingerprint, of whatever Platform states and in whatever order, meet the same verdict on every choice of selections: problems of the same codes, analyses, partitions and PETs, or the same request rows for the same resource addresses in some order |
| GroupingSoundness.FingerprintVouches | irp_integration/grouping.py:1747-1814 | two inspections with one fingerprint, of whatever Platform states, have the same analyses, addresses, members, mappings and treaties up to order, partition by partition the same key, analyses, schemes, PETs, requirements and simulation options, and problems of the same codes, analyses, partitions and PETs |
| GroupingBlindSpot.SubRegionsNotCovered | irp_integration/grouping.py:1771-1779 | two inspections of the same analyses can share a fingerprint and differ in the sub-regions of a blocking problem |
| GroupingSoundness.ReorderedSubmission | irp_integration/grouping.py:1054-1124 | over an unchanged Platform a fingerprint stays good for any order of the analyses |
| GroupingSoundness.SameEventRates | irp_integration/grouping.py:1816-1883 | event-rate resolution reads nothing of a partition beyond what the fingerprint covers |
| GroupingSoundness.SameSimulationSets | irp_integration/grouping.py:1885-1969 | simulation-set resolution likewise, up to labels |
| GroupingSoundness.SameRows | irp_integration/grouping.py:2057-2128 | the builder likewise: same facts and partitions give the same rows |
| GroupingFingerprint.OrderIndependence | irp_integration/grouping.py:1747-1814 | inspecting the same analyses in another order raises alike, and otherwise has the same canonical payload and fingerprint, despite growing lists, last-wins dictionaries and stable sorts |
| GroupingFingerprint.SameGathering | irp_integration/grouping.py:1291-1386 | gathering in another order gives the same sorted members and treaties and the same problems |
| GroupingFingerprint.PartitionsIgnoreLabels | irp_integration/grouping.py:1427-1535 | partitions, their problems and their mappings do not depend on the scheme labels, which depend on the order |
| GroupingFingerprint.TreatyOrderIgnored | irp_integration/grouping.py:1804-1811 | the order in which treaties are listed does not change the payload, unless two of one analysis share number and id |
| GroupingFingerprint.RowOrderIgnored | irp_integration/grouping.py:1593-1604 | the order of region rows does not change the facts shown, unless two facts differ only in what the order leaves out |
| GroupingInspect.InspectMembers | irp_integration/grouping.py:1284-1586 | the loops of inspection compute `Inspect`, fingerprint included |
| GroupingInspect.ExamineAnalysis | irp_integration/grouping.py:1291-1386 | one turn of the loop over the analyses, absence, malformed treaties and conflicting frameworks included |
| GroupingInspect.ReadTreaties | irp_integration/grouping.py:1317-1336 | the treaties of one analysis with normalised terms, or an error at the first without a number or with terms that raise |
| GroupingInspect.GatherMembers | irp_integration/grouping.py:1285-1386 | the lists grown and the labels overwritten over all analyses |
| GroupingInspect.GroupFacts | irp_integration/grouping.py:1397-1400 | the facts of each (peril, region, version), all and only |
| GroupingInspect.InspectPartition | irp_integration/grouping.py:1419-1535 | one partition: offered schemes, simulation sets, requirements, problems and mappings |
| GroupingInspect.SimulationChoices | irp_integration/grouping.py:1476-1503 | the simulation sets a partition may be converted with, the last of each id |
| GroupingInspect.InspectPartitions | irp_integration/grouping.py:1419-1535 | the loop over the sorted partition keys |
| GroupingRegions.RegionFacts | irp_integration/grouping.py:826-990 | the loop over the region rows: facts in row order, observed frameworks, problems |
| GroupingRegions.NormaliseRow | irp_integration/grouping.py:826-989 | one row; a row settled by a free candidate reads neither the scheme rows nor all PET metadata |
| GroupingRegions.RowProblemsAre | irp_integration/grouping.py:872-969 | each kind of problem of a classified row is reported for its own cause and for no other: missing PET or periods, a contract flag, a missing scheme, missing metadata, no code that resolves a version, several versions for the first code; and the row becomes a fact exactly when a code resolves |
| GroupingRegions.RowReports | irp_integration/grouping.py:826-989 | a row that is dropped, or that the builder would skip, is reported |
| GroupingRegions.FactGrounded | irp_integration/grouping.py:847-989 | a fact's engine and region are the row's before the detail's, its version is the Platform's for its engine, region and peril, its peril the first code that has one, its model region and ids as the row gives them |
| GroupingRegions.RowCodesAre | irp_integration/grouping.py:410-423 | a row's peril or region text that is the detail's display name, in either case of letters, stands for the detail's code, any other text for itself; a row without region takes the detail's |
| GroupingRegions.RowFrameworkIs | irp_integration/grouping.py:829-839 | a row is ELT or PLT by its own text, in either case of letters, or by the detail's where it has none |
| GroupingRegions.UnclassifiedRow | irp_integration/grouping.py:822-839 | a row that is no mapping or has no classification is dropped with one problem and not observed |
| GroupingRegions.RowRaisesIff | irp_integration/grouping.py:864-937 | a row raises exactly when the derived code it needs cannot be read: without a code of its own or the detail's, or when none of these has a version |
| GroupingRegions.RowProblemsLocated | irp_integration/grouping.py:872-969 | a problem names the PET only where its period count is missing, and a partition, the fact's own, only where its scheme is |
| GroupingRegions.CombinedClean | irp_integration/grouping.py:826-990 | rows that together report nothing each give a usable fact, and there is no other fact |
| GroupingLookups.LazyIsEager | irp_integration/grouping.py:847-937 | lazy peril resolution equals trying row code, detail code and derived code in order |
| GroupingLookups.EagerIsFirst | irp_integration/grouping.py:908-937 | that rule picks the first of the three codes that resolves a model version |
| GroupingLookups.ReferenceLookups.ResolvePeril | irp_integration/grouping.py:908-937 | the cached, lazy code computes that rule and leaves the derived reads alone when a free candidate resolves |
| GroupingLookups.ReferenceLookups.ModelVersion | irp_integration/grouping.py:547-569 | the cached answer is the backend's, read at most once for each key |
| GroupingLookups.ReferenceLookups.PetName | irp_integration/grouping.py:571-598 | the cached name is the backend's, read at most once for each key |
| GroupingLookups.ReferenceLookups.EventRateSchemeRows | irp_integration/grouping.py:600-650 | the rows, read once, or an error for a non-list, a short read or a bad count |
| GroupingLookups.ReferenceLookups.ModelRegionForRow | irp_integration/grouping.py:719-765 | scheme first, then PET; a failed PET read is remembered and answers None |
| GroupingLookups.ReferenceLookups.PerilCodeForRow | irp_integration/grouping.py:673-717 | the peril left when the region code is stripped off the model region |
| GroupingLookups.StripsRegion | irp_integration/grouping.py:710-717 | a peril is derived exactly from a longer model region that begins with the region code, and region and peril together spell the model region |
| GroupingLookups.RowRegionIs | irp_integration/grouping.py:719-765 | the model region of a row is the one the rows of its scheme agree on, else the one the rows of its PET agree on; it raises exactly when a scheme is named and the scheme rows cannot be read |
| GroupingLookups.DerivedIs | irp_integration/grouping.py:673-717 | a derived peril is what the model region has after the region, in capitals |
| GroupingLookups.UnambiguousModelRegions | irp_integration/grouping.py:448-476 | an id maps to its model region exactly when its rows agree on one |
| GroupingProblems.DeduplicateProblems | irp_integration/grouping.py:1607-1621 | one problem per identity, the last one, in the order of the texts |
| GroupingProblems.DeduplicatedIs | irp_integration/grouping.py:1607-1621 | every identity is kept once, none is invented, and nothing is left only of nothing |
| GroupingProblems.LastIsKept | irp_integration/grouping.py:1607-1621 | of problems that agree in code, analyses, partition, PETs and sub-regions the last is kept, and the kept ones are in the order of their texts |
| GroupingProblems.SameDeduplicated | irp_integration/grouping.py:1607-1621 | which identities are kept, and their order, depends only on the set reported |
| GroupingSelections.AcceptedIffAdmissible | irp_integration/grouping.py:1816-2015 | selections pass exactly when they are a duplicate-free map from partitions that expect one to offered values, covering every partition that needs one |
| GroupingSelections.RejectionListsFaults | irp_integration/grouping.py:1816-2015 | a rejection lists every fault of every selection and every missing selection, each once |
| GroupingSelections.EventRatesSettle | irp_integration/grouping.py:1874-1883 | event-rate resolution settles exactly on admissible selections, gives every partition with an option one of its options, and the selected one where one was selected |
| GroupingSelections.SimulationSetsSettle | irp_integration/grouping.py:1962-1969 | simulation-set resolution settles exactly on admissible selections, for exactly the partitions to be converted, each with the option selected |
| GroupingSelections.PeriodCountsSettle | irp_integration/grouping.py:1971-2015 | period-count resolution settles exactly on admissible selections, for exactly the partitions selected, each with the count selected |
| GroupingSelections.AdmissibleMeans | irp_integration/grouping.py:1816-2015 | what admissible means for each of the three kinds, said of the partitions' own flags and options |
| GroupingSelections.RejectionTells | irp_integration/grouping.py:1827-1872 | a rejection says of each partition whether it is selected twice, unknown, without need of a selection, given a value not offered, or without one it needs, and nothing else |
| GroupingSelections.CheckSelections | irp_integration/grouping.py:1821-1872 | the loops shared by the resolvers compute the check |
| GroupingSelections.ResolveEventRates | irp_integration/grouping.py:1816-1883 | the event-rate resolver as coded, a missing dictionary key included |
| GroupingSelections.ResolveSimulationSets | irp_integration/grouping.py:1885-1969 | the simulation-set resolver as coded, a missing key or option included |
| GroupingSelections.ResolvePeriods | irp_integration/grouping.py:1971-2015 | the simulation-periods resolver as coded |
| GroupingRequest.BuildRows | irp_integration/grouping.py:2057-2128 | the nested loops build exactly the distinct rows of all facts in canonical order, or fail exactly when some fact looks up a missing key |
| GroupingRequest.AddRows | irp_integration/grouping.py:2084-2127 | the rows of one member added to the dictionary keyed by canonical text |
| GroupingRequest.InTextOrder | irp_integration/grouping.py:2128-2128 | the dictionary's rows in the order of their texts |
| GroupingTreaties.WarningsAre | irp_integration/grouping.py:1669-1732 | a number is warned about exactly when two of its treaties differ in normalised terms, once, naming exactly the fields on which some pair differs, at least one |
| GroupingTreaties.TreatyWarnings | irp_integration/grouping.py:1669-1732 | the loops compute those warnings |
| GroupingTreaties.TermsPermuted | irp_integration/grouping.py:1630-1666 | permuting what a treaty's lines of business and loss occurrences list changes nothing |
| GroupingTreaties.TermsAre | irp_integration/grouping.py:1630-1666 | the terms of a treaty: plain fields as they are, cedant and currency as references, lines of business and loss occurrences item by item in the order of their texts; there are none exactly when one of the lists cannot be iterated over |
| GroupingTreaties.ComparedAre | irp_integration/grouping.py:998-1020 | the fields compared as they are |
| GroupingTreaties.LossAffectingTerms | irp_integration/grouping.py:1630-1666 | the loops compute the normalised terms, or raise for a value that cannot be iterated over |
| Ordering.StableSortIs | irp_integration/grouping.py:1779-1811 | the sort used throughout is ascending, a permutation, and keeps the order of equal keys |
| Ordering.TextOrder | irp_integration/grouping.py:1589-1604 | keys made of texts and numbers compare as the tuples do: text by text, a prefix first and else by the first character that differs |
| Ordering.PermutedBlocks | irp_integration/grouping.py:1804-1811 | lists put together from blocks without a common key sort alike in any order of the blocks |
| RetryLoop.RetryBudget | app/poller/run.py:416-557 | over every run with crashes and restarts a claimed row is below the maximum, each claim is matched by one increment unless still open, and claims never exceed the attempts left at the start |
| RetryLoop.BackoffBound | app/poller/run.py:510-557 | the k-th claim of a row comes no earlier than base * 2^a0 * (2^k - 1) after its first failure |
| RetryLoop.RunKeepsInv | app/poller/run.py:416-557 | the invariant behind both, over every step of every run |
| RetryLoop.ReclaimExhaustsSilently | app/poller/run.py:485-507 | for every configuration a run from one failed submission ends with the row out of attempts and its analysis still pending; the row is never a candidate again, and the loop alone changes nothing any more |
| RetryLoop.UsedUpForGood | app/poller/run.py:524-534 | a failed row without attempts left stays one and is no candidate, in every run |
| RetryLoop.RestIsFinal | app/poller/run.py:510-557 | with no candidate and no claim open, the loop left to itself writes nothing |
| RetryLoop.ExhaustionTold | app/poller/run.py:426-444 | of the steps that exhaust a row exactly the refused resubmission marks its analysis as failed |
| RetryLoop.TwoPollersLoseACount | app/poller/run.py:426-437 | two pollers that read the same row count two failed tries as one |
| RetryLoop.RefusedTriesAgain | app/poller/run.py:426-444 | a refused row is a candidate again exactly when the refusal is not permanent and leaves an attempt, its analysis was pending and live and no failed row of it came in later; and then after the backoff of its new count |
| RetryLoop.RefusalIs | app/poller/run.py:426-444 | a refusal counts an attempt on a claimed row and records the reason; it fails the analysis exactly when no attempt is left or the refusal is permanent |
| RetryLoop.AcceptanceIs | app/poller/run.py:446-466 | an accepted resubmission queues a claimed row under its remote id with an attempt counted and clears the reason |
| RetryLoop.ClaimIs | app/poller/run.py:471-482 | exactly a failed row of an analysis that is not deleted is claimed, and nothing else touched |
| RetryLoop.ReclaimIs | app/poller/run.py:485-507 | exactly the stale claims of analysis rows become failures with an attempt counted |
| RetryLoop.DueRowIsTried | app/poller/run.py:537-557 | a row is tried exactly when its backoff is over and it can still be claimed |
| RetryLoop.BatchIsRun | app/poller/run.py:510-557 | a batch as coded is a run of the step system |
| RetryLoop.RetryStore.SubmissionRetry | app/poller/run.py:510-557 | the batch loop over the candidate rows |
| RetryLoop.RetryStore.RetrySubmission | app/poller/run.py:416-468 | the success and failure writes, guarded by the claimed status |
| RetryLoop.RetryStore.ClaimSubmissionRetry | app/poller/run.py:471-482 | the compare-and-set claim of a row whose analysis is live |
| RetryLoop.RetryStore.ReclaimStaleRetrying | app/poller/run.py:485-507 | every stale claim reclaimed with an attempt counted, nothing else touched, and the count of them |
| Tracking.MirroredMeansQueued | app/poller/run.py:67-231 | in every reachable state a job mirrored as terminal has the head its type requires queued exactly once |
| Tracking.CommittedMeansQueued | app/poller/run.py:191-214 | once a terminal status that owes a head is committed, of any type, the head is queued exactly once for ever |
| Tracking.PassPerJob | app/poller/run.py:304-382 | over a pass a job shows the answered status exactly when its own transaction, alone, commits: no job's failure touches another |
| Tracking.RaisedIsTrackedAgain | app/poller/run.py:352-380 | over every run in which no transaction of a job commits, whatever happens to other jobs, the job is unchanged and tracked, and the first reply that commits is mirrored |
| Tracking.TrackEffect | app/poller/run.py:352-368 | what one transaction leaves, committed or rolled back |
| Tracking.CommitEffect | app/poller/run.py:67-231 | a committed transaction, by type and status: a finished EDM import makes its EDM ready under the answered id, another end puts it in error; a failed RDM import marks its RDM, a failed analysis or grouping job its analysis with the answered reason; the head due is added, pending, about the job's own entity; every other row is as before |
| Tracking.CommitsIff | app/poller/run.py:352-380 | a transaction commits exactly when the platform replied for a job of a known type, an export that is over has its analysis, and none of its statements nor the commit raises |
| Tracking.TrackingStore.TrackOne | app/poller/run.py:352-380 | the statements run in place and undone when one raises |
| Tracking.TrackingStore.TrackIrpJobs | app/poller/run.py:304-382 | every listed job is tracked, whatever happened to the others |
| Tracking.TrackingStore.EnqueueHead | alembic/versions/0001_initial.py:467-469 | a head is inserted unless its key is taken |
| Tracking.TrackingStore.DispatchPending | app/poller/run.py:385-413 | a wake-up for every pending row in order, or exactly those before the dispatch that raises |
| Tracking.PendingKeysAre | app/poller/run.py:402-406 | every pending row is due a wake-up and no other, each once |
| Tracking.PendingSplit | app/poller/run.py:402-410 | wake-ups come row by row in table order |
| JobQueue.ClaimsMatchResets | reference/heartbeat_poc.py:178-197 | whatever wake-ups are lost or repeated and whoever dies, a pending job was claimed as often as reset, a running one once more, a finished one either |
| JobQueue.EmptyQueueIsFine | reference/heartbeat_poc.py:76-95 | the invariants of the queue hold for an empty one |
| JobQueue.AtMostOneHolder | reference/heartbeat_poc.py:250-284 | while no held job reads as stale at a reconcile, at most one live worker holds a job, in every run |
| JobQueue.ReadHarmlessIffSafe | reference/heartbeat_poc.py:250-284 | a reconcile read can be followed by a second live holder, without another read, if and only if a held job reads as stale |
| JobQueue.TimelyMeansOneHolder | reference/heartbeat_poc.py:113-136 | if live claimants have stamped within the window whenever the reconciler reads, at most one live worker ever holds a job |
| JobQueue.TimelyIsSafe | reference/heartbeat_poc.py:113-136 | such stamps keep every read safe |
| JobQueue.UntimelyButSafe | reference/heartbeat_poc.py:113-136 | such stamps are not necessary: a heartbeat thread that outlives its worker can keep a row fresh |
| JobQueue.UnsafeReadBreaks | reference/heartbeat_poc.py:250-284 | from any read that meets a held stale row a run leads to two live holders |
| JobQueue.TwoHoldersReached | reference/heartbeat_poc.py:178-188 | a run from the empty queue, of five events, with two live holders of one job |
| JobQueue.QueueDb.Reconcile | reference/heartbeat_poc.py:250-284 | exactly the running rows with a stale or missing heartbeat go back to pending |
| JobQueue.QueueDb.ClaimJob | reference/heartbeat_poc.py:178-188 | the compare-and-set from pending to running |
| JobQueue.QueueDb.FinishJob | reference/heartbeat_poc.py:191-197 | the unguarded final write |
| JobQueue.QueueDb.Enqueue | reference/heartbeat_poc.py:164-175 | a pending row, or a refusal of the repeated request key |
| JobQueue.Heartbeat.RunUntilStopped | reference/heartbeat_poc.py:113-138 | the last write that did not fail is the stamp left; failed writes never end the loop; no other job's stamp changes |
| JobQueue.LastStampIs | reference/heartbeat_poc.py:113-138 | the stamp left is that of the last tick whose write did not fail, or what was there if all failed |
| RunEngine.PollingIndependence | reference/mock_data.py:287-340 | advancing at t1 and then at t2 gives exactly what advancing once at t2 gives |
| RunEngine.OnlyLastPollMatters | reference/mock_data.py:287-344 | over any polls only the time of the last shows |
| RunEngine.RedundantPoll | reference/mock_data.py:250-340 | anywhere in a history of calls, a poll followed by a later poll can be dropped |
| RunEngine.CursorClosedForm | reference/mock_data.py:315-323 | with all stages non-empty and automatic, the cursor is the number of whole stage times elapsed, and the run is over at the stage count |
| RunEngine.RunInvariant | reference/mock_data.py:209-340 | over any interleaving of start, advance, decide and edits: completed stages, the cursor stage, untouched stages, and at most one open gate |
| RunEngine.CallsStartMoving | reference/mock_data.py:254-284 | every call that advances a workflow starts the loop where the invariants of the loop hold |
| RunEngine.NeverCompleteAtCursor | reference/mock_data.py:294-306 | the loop never meets a completed stage at the cursor and takes at most one pass for each stage left and one more |
| RunEngine.RoundNearest | reference/mock_data.py:328-328 | progress is rounded to a nearest integer, a tie to the even one |
| RunEngine.ProgressShown | reference/mock_data.py:311-340 | before its three seconds are up the stage at the cursor runs and shows as many tasks completed, with an output, as the time elapsed is in proportion, rounded to the nearest, a tie to even; the next task runs and the rest have not started |
| RunEngine.StageTimeUp | reference/mock_data.py:315-327 | a stage without tasks or out of time has all its tasks completed with an output; it completes and the run goes on three seconds after it began, or it waits for review |
| RunEngine.NothingToProject | reference/mock_data.py:291-310 | no cursor, a cursor past the end, a gate, and a stage completed before |
| RunEngine.StartBeginsFresh | reference/mock_data.py:250-262 | a start advances the workflow as if it had never run |
| RunEngine.DecisionCounts | reference/mock_data.py:265-284 | a decision counts at an open gate only: canceling halts there, completing stamps the stage and moves the cursor past it |
| RunEngine.EditsAre | reference/mock_data.py:216-246 | only a stage that has not started is edited, and nothing else with it |
| RunEngine.WithoutSplit | reference/mock_data.py:225-228 | removing a task keeps the others in order |
| RunEngine.Workflow.Advance | reference/mock_data.py:287-340 | the loop over the dictionaries computes `Settle` |
| RunEngine.Workflow.MarkTasks | reference/mock_data.py:316-336 | the loops over a stage project its first k tasks as done |
| RunEngine.Workflow.StartRun | reference/mock_data.py:250-262 | everything reset, the cursor at the first stage, then advanced |
| RunEngine.Workflow.ReviewDecide | reference/mock_data.py:265-284 | an open gate canceled, or completed and advanced; otherwise nothing |
| RunEngine.Workflow.AddNewTask | reference/mock_data.py:216-222 | a task added to an editable stage only |
| RunEngine.Workflow.RemoveTaskById | reference/mock_data.py:225-228 | tasks with the id removed, from an editable stage only |
| RunEngine.Workflow.SetAuto | reference/mock_data.py:242-246 | the flag set on an editable stage only |
| Pagination.PaginateSearch | irp_integration/utils.py:199-240 | the loop computes `Paginated`, makes at most max_pages fetches and at least one, and returns all pages fetched |
| Pagination.HonestIffComplete | irp_integration/utils.py:199-240 | an honest server is read completely exactly when the collection stays below the ceiling and no two full pages repeat, and the walk raises otherwise |
| Pagination.IgnoringIsCompleteOrRaises | irp_integration/utils.py:199-240 | a server that ignores limit and offset is read completely or the walk raises |
| Pagination.ReturnedIsWholeWalk | irp_integration/utils.py:199-240 | whatever the server does, a return joins distinct full pages and ends in a short or empty one |
| Pagination.RaisedIsTrue | irp_integration/utils.py:199-240 | when the walk raises it has read full pages, all different, and then met a fetch that raises, a page read before at that offset, or the ceiling; and it says which |
| SqlTemplate.LiteralRoundTrip | db/scripts.py:70-79 | reading an escaped literal by the quote-doubling rule recovers the value and stops where it ends, exactly when no quote follows |
| SqlTemplate.ValueRoundTrip | db/scripts.py:105-137 | a string parameter in value position reads back exactly wherever it is substituted, placeholders inside it included |
| SqlTemplate.TokensCover | db/scripts.py:55-66 | the template's tokens are the query, character for character |
| SqlTemplate.RenderSplit | db/scripts.py:131-132 | substitution is single-pass: each token is rendered on its own |
| SqlTemplate.SubstitutesIff | db/scripts.py:131-137 | a query is substituted exactly when no placeholder is malformed and each names a parameter |
| SqlTemplate.IdentifierIff | db/scripts.py:113-120 | a parameter is in identifier position exactly when one of its placeholders stands in brackets, on one line between two quotes, after a word and an underscore, or before an underscore and a word |
| SqlTemplate.PlaceholderBecomes | db/scripts.py:70-129 | what a placeholder becomes: a keyword, number or literal that reads back in value position, the printed value in identifier position, there of a text only harmless characters |
| SqlTemplate.RefusedIff | db/scripts.py:121-128 | exactly a text with other characters in identifier position is refused |
| SqlTemplate.HoleIsRead | db/scripts.py:55-66 | a well-formed placeholder is read as one, whatever follows it |
| SqlTemplate.HolesAreWellFormed | db/scripts.py:55-66 | nothing else is read as a placeholder |
| SqlTemplate.EscapeIsRead | db/scripts.py:55-66 | doubled opening braces are read as an escape |
| SqlTemplate.EscapesAreWellFormed | db/scripts.py:55-66 | nothing else is read as an escape |
| SqlTemplate.RestStays | db/scripts.py:130-137 | text that is no placeholder stays, and an escape becomes the braces it stands for |
| SqlTemplate.FirstErrorIs | db/scripts.py:130-137 | a failing substitution names the first placeholder from the left that is malformed or names no parameter |
| SqlTemplate.SubstituteNamedParameters | db/scripts.py:105-137 | the loop escapes each parameter by its context and renders, or raises for an unsafe identifier |
| ExportDownload.FileSystem.Download | irp_integration/export_job.py:195-335 | returns exactly when every stage succeeds, then with the destination equal to the joined chunks, validated and of the announced length; on an exception nothing but the temporary file can differ, and it remains exactly when it was made and then an interrupt struck or the removal failed |
| ExportDownload.FailsEarlyOrStruck | irp_integration/export_job.py:190-309 | a call succeeds exactly when the temporary file is made and nothing strikes after |
| ExportDownload.SucceedsIff | irp_integration/export_job.py:155-309 | a call succeeds exactly when none of its stages, from the unfinished job to the replacement, has anything to raise |
| ExportDownload.RejectedMediaAre | irp_integration/export_job.py:219-232 | HTML and JSON of any kind are taken for an error page |
| ExportDownload.ConcatSplit | irp_integration/export_job.py:263-268 | the chunks come one after the other |
| ExportDownload.InterruptLeavesFile | irp_integration/export_job.py:310-321 | an interrupt in mid-stream leaves the temporary file although it could have been removed |
| ExportDownload.FileSystem.WriteChunks | irp_integration/export_job.py:263-268 | the file holds the joined chunks, or the first fault while streaming is reported |
| ExportDownload.FileSystem.Receive | irp_integration/export_job.py:219-308 | streaming, length check, validation and replacement with a failure at each point |
| ColumnarLoad.Table.UploadParquet | db/elt.py:137-242 | success exactly when the request is well formed, the kept names are whole columns and the database takes them, or there are no rows, and nothing raises; then the rows committed are the row-by-row load in order, whatever the batches, and the count is returned; on an error nothing is committed |
| ColumnarLoad.Table.Stream | db/elt.py:200-234 | the loop over the batches, in one transaction |
| ColumnarLoad.ZipIsLoaded | db/elt.py:207-217 | transposing a batch of columns gives the rows of the row-by-row load |
| ColumnarLoad.ValuesUnderTheirNames | db/elt.py:169-177 | every value is stored under the name of its own column |
| ColumnarLoad.BuildDestinationColumns | db/elt.py:53-72 | renamed columns, then the extra names, unless one is taken |
| ColumnarLoad.CheckColumnMapping | db/elt.py:37-50 | refused exactly when a mapped name is no source column, naming those |
| ColumnarLoad.WellFormedIff | db/elt.py:137-186 | a request is refused before any row is sent unless every mapped name is a source column, no extra name is taken by a kept column under its mapped name, and all identifiers pass the check |
| ColumnarLoad.KeptIsSubsequence | db/elt.py:75-85 | dropping keeps exactly the columns whose mapped name the target has |
| ColumnarLoad.KeptSplit | db/elt.py:75-85 | dropping goes column by column in the order of the header |
| ColumnarLoad.KeptAllCopies | db/elt.py:75-85 | of a repeated header name all copies are kept or none |
| ColumnarLoad.TrailingBreakPasses | db/elt.py:27-34 | a name the check lets through is a bare identifier exactly when no line break ends it, and one with a line break gets through |

## Left out

- GroupingFingerprint.OrderIndependence: is about one analysis order against another; the order of the region rows inside one analysis does matter, because the sort key leaves out `applyContractFlag`.
- GroupingInspect.InspectMembers: `inspected_at` is not part of the inspection modelled; problem messages are reduced to what decides which of two equal problems is kept.
- GroupingSubmit.Submit: stops at the region-peril rows and resource addresses; the settings copied into the body, the type checks of arguments and the POST are not modelled.
- SqlTemplate.ValueRoundTrip: speaks of parameters the code classifies as values; the second identifier pattern also matches a placeholder between two literals on one line, and such parameters are not claimed to round-trip.
- RetryLoop.RetryBudget: is per job row and for one poller; new rows for an analysis start a new count.
- Tracking.TrackingStore.TrackIrpJobs: `poll_once` runs the passes in a fixed order; the step systems allow any order, so the order is not modelled, nor are the progress and result columns.
- Pagination.PaginateSearch: two pages count as the same when their records are equal, which is what equal page texts mean.
- RetryLoop.RetryStore.RetrySubmission: the resource row inserted with a successful resubmission, the stored responses and `submitted_at` are not modelled; nothing in the loop reads them.
- ColumnarLoad.Table.Stream: column names that differ only in letter case or in a trailing line break count as different, although the database may take them for one.
- JobQueue.ClaimsMatchResets: terminal statuses are not stable, since `finish` writes without a guard.
- RunEngine.Workflow.ReviewDecide: a negative stage index, which Python counts from the end, is not modelled; the only caller takes the index from a run of digits (`reference/serve.py:803-808`).
- ExportDownload.FileSystem.Download: one call against a file system nobody else changes; two downloads into one directory are not modelled.
- Reading fields out of JSON (aliases, trimming, booleans that are not integers, the nested scheme properties of an analysis detail): region rows, details and reference rows are records of optional fields already read.
- The `enrich` update, script files and batches of `db/scripts.py`, exports' polling, and the entity updates of tracking beyond status, readiness and error.
- Characters are ASCII for upper-casing, case folding and regular-expression classes; floating-point time is real arithmetic.
- HTTP, SQL drivers, message delivery and logging: calls answer, raise, or are repeated.
- The batch pollers of `irp_integration/edm.py` and `irp_integration/portfolio.py`, `irp_integration/databridge.py` (a twin of the template code), routers and migrations.
- Hash collisions and two JSON values with one text: the digest and the texts are taken to be injective.
