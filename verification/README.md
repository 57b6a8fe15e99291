# Clix: a verified model of its core

Clix lets machines that trust each other run each other's granted commands, keeps a signed history of what
ran, and keeps a directory in sync. This project models the parts of it whose correctness depends on many steps
going right in any order, and proves what those parts are for. Every step that the program makes atomic is one
step here; a crash, a lost or late message, a save whose result is unknown and a write by another program may
come between any two of them.

- **Signed history** (`Types`, `History`, `Advance`, `Edits`, `Saves`, `Chains`, `Network`, `Scan`, `Outputs`,
  `Publication`, `Agreement`, `Completion`, `Refusals`, `Fleet`, `Reports`). Each author writes a chain of revisions
  for each invocation; replicas merge what they are shown, in any order. `Network` runs any number of machines with a
  wire that keeps everything ever sent. `Scan` runs one publisher and one receiver with questions and answers that may
  be lost, late or repeated. `Agreement` and `Completion` show when the facts of a machine say what its rows say,
  `Refusals` runs a machine into the one case where they do not, and `Fleet` runs any number of whole sidecars on one
  wire. `Outputs` follows captured bytes from a page to the next machine's pages, and `Reports` follows a fact back to
  the process whose end it tells.
- **Retention and capacity** (`Sums`, `Encoding`, `JsonText`, `Storage`, `Retention`, `Update`, `Settlement`, `Drain`).
  `Encoding` gives the length of the saved JSON text through the widths of numbers, arrays and strings (sections 5, 6
  and 7 of RFC 8259), and `JsonText` writes that text out and shows that these are its lengths; left open are only the
  texts of keys, signatures and hashes and of fields that the model does not have.
- **Admission, grants and recovery** (`Names`, `Execution`, `Admission`, `Answers`). A log that no step reads records
  process starts and exits, and every owner decision has a number.
- **Pins** (`PinPlan`, `PinSync`, `PinJournal`, `PinTokens`, `PinRecovery`, `PinTree`, `PinListing`). The three-way
  merge; syncs one after another, stopped anywhere; the journal of publication, restore, review and discard, and what
  an owner's token authorizes; what the owner can do about any recovery directory; the bounded listing.
- **Two protocols** (`Dispatch`, `Pairing`).
- **The program's own form** (`Live`, `PinTree`, `Dispatch.Dispatcher`, and the methods of `PinPlan`, `PinListing` and
  `Pairing`). Objects whose methods change their fields in place, and loops with their invariants, each proved to
  compute the function that the other modules reason about.

A `string` holds one character per byte. Signatures, hashes and keys are symbolic: a signature verifies exactly for
its signer and message, and equal hashes mean equal contents. Integers are unbounded, and the counters that the
program keeps in 64 bits fail at 2^64 - 1 as they do there.

## Found

- The fact a machine publishes does not always say what its row says. `finish` can be refused without stopping
  updates; the row is then rewritten in memory (`src/exec.rs:173-176`), and the next update compares with that memory
  (`src/history.rs:513-520`), takes the row for an old one and never publishes it. In every run, with crashes, restarts
  and saves of unknown result, the rows that differ from their facts are exactly the refused ones that no restart has
  taken back (`Completion.UnpublishedIffRefused`). A completion is refused exactly when the change counter has too few
  steps left, when the text to save would pass 128 MiB, or when the text saved before already had and the charge is
  too high (`Completion.RefusedIff`). In a run from a start within the charge it is exactly the change counter
  (`Completion.RefusedOnlyByCounter`), so with steps left when runs end every run is published as it is
  (`Completion.EveryRunIsPublished`), and `Refusals.OneRefusedRun` is a complete run of a new machine whose counter is
  nearly used up. The other two cases need a start over the charge, such as a state file of an earlier version; no run
  into them is shown.
- A sync that stopped between recording its merge on one side and on the other leaves baselines that differ, unless the
  merge was the other side's baseline already. The next sync is refused exactly then, if the trees differ
  (`PinSync.NextSyncRefusedIff`), even when no path is in conflict; while the trees agree it resumes by itself. The
  inspection does not always help: taking everything it shows lets the next sync start exactly when it showed every
  differing path (`PinSync.TakingReportedResumesIff`), and after one added file it may show none
  (`PinSync.OneRefusedSync`).
- The owner cannot always bring the recovery directory back to a passing check, without which no publication starts
  and no tree is scanned. `recovery_usage` and `artifact_inspection` walk over all names (`src/pin.rs:1218-1250`,
  `src/pin.rs:1271-1290`), so one entry with a name over 200 bytes stops them until it is removed by hand, even a
  healthy one (`PinRecovery.OneLongName`); and a receipt that is being discarded and whose version is the receipt
  itself is changed by each of its own discards, and never goes unless another receipt is about it too
  (`PinRecovery.OneKnot`). These are the only two exceptions: for every other directory, malformed receipts and shared
  versions included, the owner's operations lead back (`PinRecovery.RecoverableIff`). The program itself never makes
  such an entry: where all names were valid when a run began, every state that a crash leaves recovers
  (`PinRecovery.EveryIdleStateRecovers`).

## Model

| member | source | states |
|---|---|---|
| `Advance.IngestAdvances` | src/history.rs:690-755 | learning a record drops no entry, lowers no revision, and puts whatever changed above the old clock |
| `Advance.PublishJobsAdvance` | src/history.rs:498-660 | so does publishing; and it binds every changed row of this machine to its signed admission |
| `Chains.MergeIsHighest` | src/history.rs:662-682 | two facts of one author's chain always merge, to the later revision |
| `Chains.IngestFailsIff` | src/history.rs:690-755 | learning what its authors wrote fails exactly when it does not validate here |
| `Chains.IngestFollows` | src/history.rs:690-755 | learning leaves the later fact in each of the two slots and touches no other slot |
| `Chains.OwnSlotsStay` | src/history.rs:690-755 | a relayed copy never moves what this machine itself wrote |
| `Chains.PublishJobsSlots` | src/history.rs:597-660 | a publication adds at most one fact a slot: the next revision, signed, after one that was not terminal |
| `Network.CommitLogs` | src/store.rs:218-234 | a committed update extends the author chains by exactly what it publishes, and the saved copy is their end |
| `Network.RunsKeepChains` | src/history.rs:597-682 | in every run of the network each author's durable facts are revisions 1, 2, 3, … with only the last terminal, and all that is held or sent comes from them |
| `Network.NoForks` | src/history.rs:662-682 | two facts of one slot with the same revision are the same fact, and none follows a terminal one, whenever in a run and wherever they are found: in memory, in a file or on the wire |
| `Network.LearningReachesTop` | src/history.rs:690-755 | learning any list of genuine items succeeds and leaves the highest revision shown in every slot |
| `Network.SameFactsSameRecord` | src/history.rs:690-755 | two machines shown the same facts, in whatever order, repetition and company, hold the same record |
| `Scan.PageIsSound` | src/history.rs:846-893 | a page shows every entry up to its cursor, in an order the receiver accepts; an incomplete page gets strictly further |
| `Scan.RunsKeepSync` | src/history.rs:1101-1202 | the scan invariant holds in every run of publisher and receiver |
| `Scan.ScanMissesNothing` | src/history.rs:1101-1202 | in every run, what the publisher holds up to the receiver's cursor is matched or exceeded there in both slots, or an author was unknown |
| `Scan.PageStep` | src/history.rs:846-893 | within one scan the boundary does not move and each incomplete page advances |
| `Scan.ScanEnds` | src/history.rs:1101-1202 | in every run, while one scan goes on its boundary stays where it is and memory takes at most as many pages as were left from its cursor to there, however much is published and whatever crashes and late answers fall in between |
| `Scan.AcceptsIff` | src/history.rs:1101-1150 | a page is taken exactly if it goes on from the cursor or starts over, shows at most 16 entries in rising order up to where it says it got, and is complete only at its boundary |
| `Scan.PageIsServedIff` | src/history.rs:846-893 | as long as no entry alone is too long, every question is answered but one about a boundary below its own cursor |
| `Scan.PageMovesScan` | src/history.rs:1150-1202 | a learned page moves the scan to the page's own end, and remembers an unknown author exactly if there was one |
| `Scan.LateAnswersChangeNothing` | src/history.rs:1150-1202 | an answer is applied only while the paired machines and the place of the scan are those it was asked with, so within an epoch none moves a scan back |
| `Outputs.IngestStores` | src/history.rs:690-755 | exactly when learning changes the store, and exactly which bytes the entry then holds: none where a row has them, else those just shown unless pruned, else those it had, and only what the fact was signed for |
| `Outputs.ExportShows` | src/history.rs:804-844 | a page shows bytes exactly where a bound row or the replica has those that the fact was signed for and they are not pruned |
| `Outputs.LearnedBytesAreShown` | src/history.rs:690-844 | bytes that a page carries are on the receiver's own pages once the update with that page is saved, the same ones, unless a later fact is shown or they were pruned there |
| `Outputs.CommitKeepsOutput` | src/store.rs:218-234 | an update takes captured bytes away only by pruning them: through publication, normalization and eviction a page shows the same bytes while the same fact is shown |
| `Outputs.CommitStoresOnce` | src/history.rs:757-792 | whatever an update commits, no bytes are saved both in a row and in the replica of its invocation |
| `Outputs.ReplyTells` | src/history.rs:324-375 | what a runner's reply changes: its record is learned, and a row not finished then says what the fact says and holds the bytes that came with it, or gets a receipt for them |
| `Outputs.ReplyTakenIff` | src/history.rs:324-375 | a reply is turned down exactly when it is no valid record of that machine's run, is about another admission than the row, or cannot be learned |
| `Publication.PublishedRowAgrees` | src/history.rs:540-656 | publishing one changed row makes its fact say what the row says exactly when no terminal fact says something else |
| `Publication.AgreesAfterUpdateIff` | src/history.rs:498-660 | the same for every row of an update that looks only at changed rows: for a changed row it depends on the stored fact, for any other on the agreement before |
| `Publication.WrittenFactValidIff` | src/history.rs:377-430 | a written fact passes validation elsewhere exactly when its reason and its streams are within the limits and its role may carry the status |
| `Publication.OriginsToldIff` | src/history.rs:498-660 | after an update each job delivered elsewhere has its delivery state signed if and only if its row changed and was still open, or did not change and was told before |
| `Publication.PublishFailsIff` | src/history.rs:498-660 | publishing a row fails exactly for an admission that cannot be signed here, a binding that does not fit, pruned output without a fact, or no step left of the revision or the change counter |
| `Publication.AdmissionValidIff` | src/history.rs:218-253 | another machine accepts an admission signed here exactly when it knows both machines under the same keys and the command and the retried ID are within the limits |
| `Publication.AcceptedMeans` | src/history.rs:377-452 | every fact of an accepted record was signed by the machine it is of, under a key known here, and says only what that machine may say, within the limits |
| `Agreement.CommitPublishes` | src/store.rs:218-234 | a committed update leaves every row run here published as it is but for those that were apart before, through normalizing and eviction, if its edit leaves finished rows and own facts alone |
| `Agreement.OwnFactsAreKnown` | src/history.rs:662-682 | what others relay of this machine's runs is never news to it |
| `Completion.UnpublishedIffRefused` | src/exec.rs:163-178 | in every run of the sidecar the rows that do not say what their facts say are exactly those whose completion was refused: in memory since the last restart or in the file then, in the file when memory was last saved |
| `Completion.RefusedIff` | src/exec.rs:183-253 | a completion is refused exactly when the end of its run does not fit: too few steps of the change counter, or a text past the limit that the charge does not excuse |
| `Completion.WithinChargeNoneRefused` | src/storage.rs:249-323 | within the charge and with steps of the change counter left no completion is refused |
| `Completion.RefusedOnlyByCounter` | src/exec.rs:183-253 | in every run from a start within the charge, refusals before it or not, a completion is refused exactly when the change counter has too few steps for its fact and the evictions |
| `Completion.EveryRunIsPublished` | src/history.rs:498-660 | in every run that starts within its charge and has steps left when runs end, each job run here and past queueing has a runner fact with its status and digests, in the file always and in memory while updates go on |
| `Refusals.OneRefusedRun` | src/exec.rs:163-178 | from a new machine within its charge: a run is admitted and ends, its completion is refused, the next update succeeds, and memory and file keep a row that its only fact contradicts |
| `Fleet.UnpublishedIffRefusedAnywhere` | src/history.rs:1101-1202 | the same exact set of unpublished rows on each of any number of sidecars that relay to each other: what they hear of their own runs is never new, because nobody else signs with their key |
| `Fleet.EveryMachinePublishes` | src/history.rs:498-660 | if every machine starts within its charge and has steps left when runs end, all publish every run as it is at every moment |
| `Fleet.FinishedAnywhereFinishedHere` | src/history.rs:498-755 | a terminal runner fact found anywhere, in memory, in a file or on the wire, says what the row in the file of the machine that ran the job says |
| `Reports.FinishedMeansEnded` | src/exec.rs:183-253 | in every run of the sidecar a fact or a row here that says done has the exit code its process ended with before, and the digests or the very streams of what that process printed |
| `Reports.DoneAnywhereEnded` | src/exec.rs:183-253 | over any number of machines: wherever a fact says that a run is done, its process ended before at the machine that ran it, with that exit code and streams of those digests |
| `Edits.EveryEditIsGood` | src/store.rs:218-234 | each edit that the program passes to an update keeps rows, certificates and history in order |
| `Edits.AppendIsGood` | src/job.rs:40-71 | a new queued job keeps the history in order: its ID is bound to nothing yet |
| `Agreement.RowEditLeavesRuns` | src/job.rs:262-399 | a failed delivery or a refused submission changes no row that runs here or has finished here |
| `Edits.TombstonesArePermanent` | src/history.rs:757-792 | in every run of updates a pruned invocation never regains bytes, and every replica kept matches the fact shown for it |
| `Edits.NothingToPublish` | src/history.rs:498-547 | an update that changed no row publishes nothing |
| `Edits.LearnedHistoryIsInert` | src/history.rs:1101-1202 | a committed page adds no job, changes no status, binds no certificate and touches no grant, request or peer |
| `Saves.ActKeepsSteady` | src/store.rs:165-234 | nothing that memory or the file showed is taken back, by a crash or a save with an unknown result |
| `Encoding.PayloadIsArrayInner` | src/storage.rs:229-247 | the payload length is the length of the text between the brackets of the JSON array of bytes |
| `Encoding.DecimalLength` | src/storage.rs:285-286 | the digit count is the length of the decimal numeral |
| `Encoding.ChargeByRows` | src/storage.rs:249-306 | the charge is a sum over rows, entries and receipts, independent of the captured bytes |
| `JsonText.ReadsBack` | src/storage.rs:47-58 | what is written between the quotes of a string is read back, whatever follows it |
| `JsonText.JobLength` | src/types.rs:78-89 | the length of a job's text is its row and its payload in the charge |
| `JsonText.EncodedLenIsTextLength` | src/storage.rs:47-58 | the length that the limits and the charge are about is the length of the whole text of the state, for any texts of keys, signatures and hashes and whatever order hashes have |
| `JsonText.ChargeBoundsText` | src/storage.rs:249-323 | while the output is within its budget the charge is at least the length of that text |
| `JsonText.CommittedTextFits` | src/store.rs:218-234 | whatever an update commits is at most 128 MiB of text |
| `Settlement.ChargeBoundsEncoding` | src/storage.rs:249-323 | while the output is within its budget the charge is at least the length of the saved text |
| `Settlement.SettlingLowersCharge` | src/storage.rs:249-306 | the row, the fact and the grant change of a settled run take less than what its admission reserved |
| `Settlement.SettlementIsAdmissible` | src/store.rs:218-234 | from a state within its charge, saving the end of an admitted run is never turned down, and the charge does not rise |
| `Settlement.SettlementCommitsIff` | src/store.rs:218-234 | whatever the charge, saving the end of an admitted run is turned down exactly when the change counter or the length of the text does not allow it |
| `Execution.FinishTells` | src/exec.rs:183-253 | the end of a run leaves its row with the exit code exactly when the process exited and was captured whole, else with the reason; after an exit with the two streams as captured; and no other row changes |
| `Settlement.CommittedEndTells` | src/exec.rs:183-253 | a committed completion leaves the next signed fact of the run, which tells how the process ended and has the digests of its own streams |
| `Drain.EveryRunCanSettle` | src/storage.rs:249-323 | all runs in flight can be settled one after another, in any order |
| `Retention.RemovalCharge` | src/storage.rs:122-156 | removing one payload never raises the charge, digit carries and receipts included |
| `Retention.PruningNeverRaisesCharge` | src/storage.rs:122-166 | nor does any sequence of removals |
| `Retention.EvictionSucceedsIff` | src/storage.rs:175-227 | eviction succeeds exactly when the bytes it may not touch fit the budget and the change counter has a step for each removal |
| `Retention.EvictionIsMinimal` | src/storage.rs:175-227 | it removes the shortest prefix of the candidates, oldest first, that suffices |
| `Retention.PruneKeepsNewest` | src/storage.rs:158-166 | `prune(keep)` leaves exactly the `keep` newest candidates |
| `Retention.PruningKeepsRows` | src/storage.rs:122-156 | removals keep rows, statuses, certificates and facts, and do not touch unfinished jobs |
| `Update.NormalizeNeverRaisesCharge` | src/history.rs:757-792 | dropping pruned and duplicate output never raises the charge |
| `Update.NormalizeBuries` | src/history.rs:757-792 | afterwards no pruned invocation has bytes in its replica or its finished job |
| `Update.CommitKeeps` | src/store.rs:218-234 | a committed update keeps the store's invariant and changes no control record beyond its edit |
| `Update.CommitLimitsCounts` | src/storage.rs:168-199 | no update takes the number of jobs, entries, requests, peers or grants over its limit, or further over it |
| `Update.CommitRestartsScans` | src/history.rs:507-517 | every scan starts over exactly when the paired machines or their keys change |
| `Execution.CheckedIffCovered` | src/grant.rs:276-321 | a command passes exactly when some free grant covers it, and runs under that grant |
| `Execution.CommitGrantReplaces` | src/grant.rs:169-173 | a decision replaces what was granted for its tool and leaves other tools alone |
| `Execution.RemovalTakesOne` | src/grant.rs:202-218 | a removal succeeds exactly when some grant is meant; it takes that grant and every request pending for its tool, and nothing else |
| `Execution.ApprovalIff` | src/request.rs:166-213 | an approval succeeds exactly when its request is pending and no different permission for the tool is granted; it leaves that permission alone for the tool and no request for it |
| `Execution.RefusalIff` | src/request.rs:166-213 | a refusal succeeds exactly when its request is pending; it takes that request and touches no grant |
| `Answers.GateIff` | src/exec.rs:71-110 | a call goes on to be admitted exactly when its ID is new or waits here, and is answered from its row exactly when it was admitted before; everything else is refused |
| `Answers.AdmissionIff` | src/exec.rs:111-160 | a covered call runs if a place is free and is turned down without a trace if none is; any other is denied, and the owner asked, once, exactly when approving could help |
| `Answers.RedeliveryIsAnswered` | src/exec.rs:71-160 | once a call is admitted or denied and saved, the same call again is answered from its row and changes nothing |
| `Answers.BindIff` | src/history.rs:271-303 | an admission is bound exactly when its ID is bound to it already, or to nothing and no row has it; the job it retries is remembered |
| `Answers.QueuedIsTold` | src/job.rs:40-71 | a job queued here is saved with a signed admission that names what it retries and both machines under their keys, and with a signed fact that it is queued |
| `Answers.RefusalTells` | src/job.rs:255-290 | a refused job of the local queue waits if only a place was missing and has failed otherwise |
| `Answers.DeliveryTells` | src/job.rs:365-397 | a failed delivery is tried again exactly when the other machine was unreachable or full, and a job seen running stays so |
| `Admission.StaleAnswerFails` | src/grant.rs:196-218 | after a decision about a tool, answers to requests that were pending for it fail ever after, so no stale answer supersedes it |
| `Admission.CommitControl` | src/store.rs:218-234 | an update saves the grants, requests and row states of its edit whatever is evicted |
| `Admission.RunsKeepInv` | src/exec.rs:62-253 | the invariant of rows, reservations, tasks and log holds in every run |
| `Admission.OneStartPerId` | src/exec.rs:71-180 | in every run with redelivery, retries, crashes, restarts and ambiguous saves, a job ID starts at most one process, and then has a row past the queue in memory and in the file |
| `Admission.OnceGrantConserved` | src/exec.rs:229-253 | of the runs of one once-decision each but the last exited without success before the next started |
| `Admission.OldRunsLeaveNewGrants` | src/exec.rs:229-253 | a completion neither consumes nor releases a decision other than its run's own |
| `Live.LiveStore.Learn` | src/history.rs:690-755 | learns in place what the specification says, with the same failures |
| `Live.LiveStore.Bind` | src/history.rs:271-303 | binds an admission in place |
| `Live.LiveStore.AcceptReply` | src/history.rs:324-375 | takes a runner's reply in place |
| `Live.LiveStore.PublishOne` | src/history.rs:540-656 | publishes one changed row in place |
| `Live.LiveStore.Refresh` | src/history.rs:498-660 | publishes all changed rows in place |
| `Live.LiveStore.Normalize` | src/history.rs:757-792 | drops pruned and duplicate output in place |
| `Live.LiveStore.Serve` | src/history.rs:846-893 | computes the page of the specification, sorting and filling step by step |
| `Live.LiveStore.LearnFrom` | src/history.rs:1150-1202 | applies an accepted page and its progress in place |
| `Live.LiveStore.ListCandidates` | src/storage.rs:80-120 | lists the removable payloads oldest first |
| `Live.LiveStore.Drop` | src/storage.rs:122-156 | removes one payload in place |
| `Live.LiveStore.Prune` | src/storage.rs:158-166 | keeps the newest payloads, in place |
| `Live.LiveStore.EvictAll` | src/storage.rs:199-227 | removes payloads until the budget holds, in place |
| `Live.LiveStore.PrepareSave` | src/storage.rs:175-227 | checks the counts and evicts, in place |
| `Live.LiveStore.ChargeFor` | src/storage.rs:249-306 | sums up the charge |
| `Live.LiveStore.Accept` | src/exec.rs:80-160 | writes the row, the reservation or the request of an admission in place |
| `Live.LiveStore.Settle` | src/exec.rs:183-253 | writes the end of a run in place |
| `Live.LiveStore.TakeGrant` | src/grant.rs:202-218 | removes a grant and the requests for its tool in place |
| `Live.LiveStore.Answer` | src/request.rs:166-213 | settles an owner's request in place |
| `Live.LiveStore.Recover` | src/store.rs:236-253 | marks the runs that a stopped process left |
| `Live.Process.Update` | src/store.rs:218-234 | clone, edit, publish, normalize, evict, charge, save and swap; what is refused changes neither memory nor file |
| `Live.Process.Admits` | src/storage.rs:308-323 | decides whether the charge admits the state |
| `Live.Process.Save` | src/store.rs:165-189 | a save that reports failure may have replaced the file, and stops updates |
| `Live.Process.Start` | src/store.rs:206-253 | recovers before serving, or refuses updates |
| `Live.Daemon.Submit` | src/exec.rs:62-181 | the admission step of the sidecar, on the objects themselves |
| `Live.Daemon.Complete` | src/exec.rs:163-253 | the completion step, with the rewrite in memory when it cannot be saved |
| `Live.Daemon.Restart` | src/store.rs:206-253 | the restart step |
| `PinPlan.Plan` | src/pin.rs:537-583 | refused exactly when some path is invalid or changed on both sides, at the least such path; otherwise one change for each differing path, in order, and the merge |
| `PinPlan.ValidPathIff` | src/pin.rs:93-114 | a path is valid exactly if it is relative and none of the parts between its separators is `..`, `.git` or `.clix-recovery`, nor its first one `.`; so of every path that is planned or published |
| `PinPlan.OneSidedEditsKept` | src/pin.rs:537-583 | every one-sided edit or deletion is in the merge |
| `PinPlan.MergeIsSymmetric` | src/pin.rs:537-583 | exchanging the sides changes neither what is refused nor the merge |
| `PinPlan.ApplyingAllMerges` | src/pin.rs:636-664 | applying all changes makes both trees equal to the merge |
| `PinPlan.ReplanReachesSameMerge` | src/pin.rs:636-664 | after any subset of the changes planning again succeeds, with the same merge |
| `PinSync.BaselinesDifferIff` | src/pin.rs:618-664 | in every run of syncs stopped anywhere the two baselines differ exactly while a recording has reached one side only and was news to the other |
| `PinSync.NextSyncRefusedIff` | src/pin.rs:600-664 | the next sync is refused for want of a baseline exactly then, if the trees differ |
| `PinSync.EqualTreesResume` | src/pin.rs:600-664 | once both trees are the same the next sync runs to its end whatever was recorded, and the baselines agree again |
| `PinSync.TakingReportedResumesIff` | src/pin.rs:1780-1825 | taking everything the conflict inspection shows lets a refused sync start exactly when it showed every differing path |
| `PinSync.OneRefusedSync` | src/pin.rs:600-664 | one file edited, its sync stopped between the recordings, one file added: nothing is in conflict or shown, and the next sync is refused |
| `PinSync.MeanwhileEditsStay` | src/pin.rs:636-664 | a change overwrites exactly what it was planned for with what the other side still has; what was edited in between, and every other path, stays |
| `PinJournal.ChecksExactlyWithoutProblems` | src/pin.rs:201-251 | the check passes exactly when no entry is a problem: none has an invalid name, each receipt is sound and done, and each other file belongs to one |
| `PinJournal.NoContentLost` | src/pin.rs:377-493 | whatever other programs write and wherever a crash falls, no step but the deletion of a discard takes any data out of live tree and recovery directory together |
| `PinJournal.SwapPublishes` | src/pin.rs:432-456 | the exchange shows the wanted content and keeps what was there at that moment |
| `PinJournal.InterruptedIsFound` | src/pin.rs:201-251 | a publication that was interrupted, or gave up because its exchange or verification failed, makes every later check fail; other programs cannot hide it, and no new publication starts |
| `PinJournal.AlteredVersionIsFound` | src/pin.rs:201-251 | so does a retained file that differs from its receipt |
| `PinJournal.AdmittedPublishes` | src/pin.rs:377-493 | an admitted publication, undisturbed, shows the new content, keeps the old one with its receipt, and leaves nothing else |
| `PinJournal.RestoreCompletes` | src/pin.rs:1570-1643 | a restore puts the retained content back, keeps what it replaced if that was something else, and resolves the receipt |
| `PinJournal.KeepLiveCompletes` | src/pin.rs:1570-1643 | keep-live runs to its end from any receipt not being discarded |
| `PinJournal.KeepLiveClears` | src/pin.rs:1570-1643 | and takes exactly that receipt off the problems |
| `PinJournal.DiscardCompletes` | src/pin.rs:1644-1688 | in any directory a discard that may start removes its version and receipt and nothing else, unless the receipt is about itself |
| `PinJournal.DiscardClears` | src/pin.rs:1644-1688 | and leaves only problems that were there before |
| `PinTokens.DiscardStartsIff` | src/pin.rs:1644-1664 | a discard starts exactly with the token of the receipt, live file and version that are there now, or of the file, or with the one a begun discard wrote down; and not while a publication is pending |
| `PinTokens.ReviewStartsIff` | src/pin.rs:1570-1600 | so a review, exactly with the token of what is there now, for a receipt that is not being discarded |
| `PinTokens.OldTokenIsRefused` | src/pin.rs:1570-1664 | a token taken before the receipt, its live file or its version changed is refused by both, but for the one a begun discard wrote down |
| `PinTokens.LostOnlyByChoice` | src/pin.rs:1644-1688 | in every run data leaves the live tree and the recovery directory together only by a discard whose token was of that very content, or resumed one |
| `PinTokens.ChoiceStillNow` | src/pin.rs:1612-1643 | the owner's choice is written down exactly while receipt and version, and for keep-live the live file, are as the owner saw them |
| `PinTokens.ParsesIff` | src/pin.rs:1039-1055 | what a receipt must say to be one |
| `PinRecovery.EveryProblemCanBeCleared` | src/pin.rs:1570-1688 | where all names are valid, from any reachable state each problem can be cleared by an operation that the owner may start, leaving strictly fewer |
| `PinRecovery.RecoveryCompletes` | src/pin.rs:1570-1688 | in any directory of valid names where each receipt about itself has another about it, the owner's operations, one after another, bring back a passing check |
| `PinRecovery.InvalidNameStays` | src/pin.rs:1218-1233 | nothing the program or another one does gets rid of an entry whose name is not valid, and no check passes while it is there |
| `PinRecovery.RecoverableIff` | src/pin.rs:1570-1688 | for every directory: the check can be made to pass again exactly when every name is valid and every receipt about itself has another about it |
| `PinRecovery.EveryIdleStateRecovers` | src/pin.rs:1570-1688 | from whatever state a crash or a failed operation left in any run, the owner's operations lead back to a passing check, if the names were valid when the run began |
| `PinRecovery.OneLongName` | src/pin.rs:1218-1250 | one healthy receipt under a name of 201 bytes: nothing is unsettled, and no check ever passes |
| `PinRecovery.OneKnot` | src/pin.rs:1644-1688 | one receipt about itself: every name is valid, and no check ever passes |
| `PinRecovery.CrashBeforeIntent` | src/pin.rs:1644-1688 | a crash before a discard's receipt is in place changes no token |
| `PinRecovery.DiscardStaysUndisturbed` | src/pin.rs:1644-1688 | each step of a discard finds its version as recorded, or gone |
| `PinRecovery.InterruptedDiscardResumes` | src/pin.rs:1644-1688 | a discard repeated with its recorded token may start again after a crash at any later step |
| `PinRecovery.BegunDiscardCompletes` | src/pin.rs:1644-1688 | in any directory, once a discard's receipt is in place and however often it crashes and is repeated: other files stay, and whenever nothing is in progress version and receipt are both gone or the same token can bring that about |
| `PinRecovery.InterruptedDiscardCompletes` | src/pin.rs:1644-1688 | so in every run, from the moment the receipt is placed |
| `PinTree.Tree.CheckRecovery` | src/pin.rs:201-251 | the walk over the names and the two loops decide the check |
| `PinTree.Tree.Inspection` | src/pin.rs:1271-1345 | the loop over the directory and the receipt decide what an inspection shows, or that it fails |
| `PinTree.Tree.ApplyLocked` | src/pin.rs:377-493 | the publication as the program runs it: published and kept exactly if the check passes, the path stays inside, the content is as announced, the live file is as expected and no granted binary, and there is room; otherwise nothing changes |
| `PinTree.Tree.Resolve` | src/pin.rs:1570-1643 | keep-live and restore as the program runs them; neither changes a file without the token of what is there now |
| `PinTree.Tree.Discard` | src/pin.rs:1644-1688 | discard as the program runs it, in any directory: it changes a file only with such a token, and then deletes the version and its receipt |
| `PinListing.ListPage` | src/pin.rs:1420-1456 | whatever the directory's order, the page holds the smallest names past the cursor, and an invalid name fails it |
| `PinListing.SmallestIsPrefix` | src/pin.rs:1420-1456 | the bounded set kept while reading is a prefix of the sorted names |
| `PinListing.WalkShowsAll` | src/pin.rs:1420-1456 | following the cursor shows each name exactly once, in order, and ends |
| `PinListing.WalkFromStart` | src/pin.rs:1420-1456 | a walk that starts without a cursor shows every name |
| `Dispatch.Dispatcher.Round` | src/job.rs:172-309 | one pass, in place: it starts each candidate that has no task and need not wait, in rotation, until there are eight tasks; each started key then waits, and waits of keys that are candidates no more are forgotten |
| `Dispatch.StartedExactly` | src/job.rs:172-309 | in every run of the dispatcher: a pass starts a key only if it is a candidate without a task whose last start, if it stayed a candidate since, is a waiting time ago; and every such key unless it runs out of room |
| `Dispatch.NoKeyStartsTwiceFirst` | src/job.rs:172-309 | while a key that could start is passed over no other key starts twice, even as candidates come and go, and by the time there were places for all others it is its turn |
| `Pairing.ValidateStore` | src/pair.rs:127-153 | accepts exactly the peer lists that map names and keys one to one without this machine |
| `Pairing.UpdatePeerIff` | src/pair.rs:327-343 | a peer is taken exactly when its name and key are both new or already belong together |
| `Pairing.UpdatePeerKeeps` | src/pair.rs:327-343 | then it is in the list, and no other is added or lost |
| `Pairing.PairingIsHonest` | src/pair.rs:357-447 | for every loss, delay, timeout and ambiguous save: listener saved implies joiner saved, success on either side implies both, and "no trust may exist" implies neither |
| `Pairing.HandshakeCanSucceed` | src/pair.rs:377-447 | if each side can add the other, some run ends with success on both sides and each in the other's file, under the address it gave or was reached at |
| `Pairing.OnlyPairableAreSaved` | src/pair.rs:345-447 | and only then are both ever saved; nothing is saved by a side whose identity changed, or unless each side could add the other |
| `Pairing.PersistsIff` | src/pair.rs:357-375 | a side goes on exactly when it is still itself, can take the peer, has room and saved |
| `Pairing.JoinAny` | src/pair.rs:270-303 | the next machine is tried only after an attempt that created no trust |
| `Pairing.OnlyTheLastMayTrust` | src/pair.rs:270-303 | over handshakes with all their losses: of the machines tried at most the last is left with trust on either side, then or later; success means both sides have it, and an early stop without success says that trust may exist |

## Left out

- The cryptography, TLS, sockets, RPC framing, the parsing of JSON but for strings, owner CLI, tray, notifications and
  installation.
- The unsigned deliveries of earlier versions (`apply_peer_result`, observers): publishing such a row fails as `Legacy`
  here, and machines start initialized.
- Restoring an old backup, renaming a machine and replacing its epoch.
- The tool process: only its outcome is modelled. Schedules are the set of minutes they allow.
- Outbound requests and request receipts, the pin index, error texts, and limits on their numbers.
- Kernel file semantics beyond atomic create, rename, exchange and unlink: a file is written whole in one step, and the
  order in which a power loss may undo steps is not modelled. Parent directories exist.
- The size limits of the recovery directory are one flag of the operations (`room`), and its lock is mutual exclusion.
- IDs from `new_id` are fresh; nobody signs with another machine's key.
- `Sorted` and `ByAge` stand for the standard library's sorts; `Live.SortByAge` is a selection sort.
- EveryProblemCanBeCleared: assumes valid names and no other program during the operation.
- EncodedLenIsTextLength: takes the parts of the state that the model does not have as fixed texts, and digests and
  signatures as they are stored, of 64 digits and 64 bytes.
- HandshakeCanSucceed: shows one run to success; no run is forced to take it, as messages may be lost.
- DoneAnywhereEnded: speaks of runs that say done; the reasons of failed and uncertain ones are those that
  `Execution.FinishTells` states, or that a restart and a refused completion write.
- NoContentLost: and the other results over runs of the journal start from directories where each receipt parses and
  has a data file of its own; `RecoverableIff`, `DiscardCompletes` and the methods of `PinTree` hold for all
  directories.
- SettlementIsAdmissible: asks for a run with no captured output yet, room for one step of the change counter for each
  entry, and signatures of at most 257 bytes of JSON text.
- ScanMissesNothing: covers one epoch of the publisher; a replica that asks with another epoch starts over.
- EveryRunIsPublished: assumes that calls carry what their certificates say, that runs end as processes can, and that
  pages hold no newer fact of this machine; `Fleet` derives the last from the signatures.
- RefusedOnlyByCounter: asks that the reason put in a refused row be no longer than the 2 MiB reserved for its run.
- FinishedAnywhereFinishedHere: speaks of facts signed for the name and key of a machine that is part of the run.
- ScanEnds: counts the pages asked for within the scan; an answer to an earlier question may start another one.
- StaleAnswerFails: assumes that no later call asks again under the old request ID.
- BaselinesDifferIff: syncs of one pair of machines do not overlap, and a recording that arrives after its sync gave
  up is not modelled.
- PinJournal: keeps the interleaved form of publication, review and discard on values, one step at a time; the methods
  of PinTree show the same operations in place, without interruptions.
