# SelfBench verification model

A Dafny model of the parts of SelfBench where a mistake would spend money twice, lose a result or
misstate a cost, with proofs of what those parts promise. Dafny 4.11 checks all of it:

    dafny verify dfyconfig.toml

## What is modelled

**The evaluation record protocol.** An evaluation is one record, updated by many workers through a log
of create-only snapshots: read the newest, apply a change, create the next revision, retry on conflict.
`EvaluationRecord` says what each change does to a snapshot; `EvaluationClosures` is the object the
changes mutate in place, each method proved to do what `EvaluationRecord` says; `EvaluationLoop` is the
update loop against a store others write to meanwhile; `EvaluationProtocol` is the whole system as
steps: reads, write requests, writes that land late or never, acknowledgements, existence checks,
crashes, solver attempts around their claims, and the workflow's and people's own changes.
`EvaluationSafety` proves the invariant every step keeps, and `EvaluationGuarantees` what it means for
whole runs: a solver, which spends money, starts at most once per trial. `EvaluationWitness` shows a run
in which one does start. `EvaluationOutcomes` is what each change leaves in a record, field by field.
`EvaluationReapplied` is about a change saved without being acknowledged and applied again after others
have saved theirs.

**Summaries of runs.** `RunSummaries` is the database's copy of each run's summary and the world a list
reads while runs are being saved; `RunLists` is the list itself, each await letting any events pass.

**Pricing.** `Pricing` prices requests by tier and whole trials at base rates; `PriceTiers` turns a
catalog's price list into recorded tiers.

**The model catalog.** `GatewayIds` translates ids between gateways and the catalog; `CatalogMerge` is
the merge of the gateways' listings, `CatalogGuarantees` what it keeps, and `CatalogEntries` what each
entry holds and where each listing lands.

**Text in bounded space.** `Transcript` shares out a transcript's budget, `BoundedTranscripts` is what
is left of it, `PrefixSteps` reads the whole objects of a cut JSON array, `RollingOutput` keeps the end
of an output, `LineReader` frames lines over chunks.

**Small protocols.** `ReleaseChain` and `ReleaseLines` (append-only lines of releases), `RateLimiter`
with `RateLimiterGuarantees` and `RateLimiterOverrun` (token buckets), `TrialLanes` and `TrialInputs`
(the lane scheduler and split credential limits), `BillingOutbox` and `BillingUsage` (claims fenced by
attempt numbers, usage recorded once), `PublishedResults` and `GroupMembers` (which trial stands for a
setting, and how a group's results divide among its members).

Where the code and its documentation promise something the code keeps only under a condition, the
condition is proved exact:

- A client's requests in a window stay within the burst and the sustained rate if and only if the burst
  is below one or at most ten minutes' worth of requests: the idle sweep otherwise hands out a full
  bucket early (`RateLimiterOverrun.WindowsBoundedExactlyWhen`).
- A sent outbox row stays sent if and only if no sender has selected it earlier and has yet to update it
  (`BillingOutbox.SentStaysExactlyWhen`, with a reachable run in `BillingOutbox.SentRowCanBeClaimedAgain`).
- The lanes finish an evaluation only after every trial ran if and only if there are no trials or the
  concurrency is at least one (`TrialLanes.FinishMeansAllRanExactlyWhen`).
- Two listings of one gateway share a catalog entry, and one of their routes is lost, if and only if they
  are of one catalog id and the first took it, or both are the one route of a known model and nothing took
  the id before the second (`CatalogGuarantees.TogetherExactlyWhen`, with an input that loses a route in
  `CatalogGuarantees.RepeatedIdIsLost`).
- A response's lines are read the same however it is cut into chunks if and only if none is longer than
  the limit (`LineReader.ChunksDoNotMatterExactlyWithoutLongLines`).
- A member's task counts add up to a setting's if and only if every task has an owner among the members
  (`GroupMembers.MembersPartitionTotals`).

## Model

| member | source | states |
|---|---|---|
| EvaluationRecord.ChangesKeepRecord | src/evaluation/lifecycle.ts:17-91 | every change keeps the record sound: queued trials unclaimed and untouched, running ones claimed, an ended run holding only ended trials, a completed one only completed trials, a failed one a failed trial or an error, dated exactly when it ended |
| EvaluationOutcomes.FinishRecordsOutcome | src/evaluation/lifecycle.ts:55-70 | a running run that finishes is completed exactly when every trial was completed and failed otherwise, dated then; ended trials stay as they were and the others fail for the stopping reason |
| EvaluationOutcomes.StoppingFailsTheRun | src/evaluation/lifecycle.ts:73-91 | failing or cancelling changes exactly the runs not ended: each becomes failed with its error and date, and each unfinished trial fails, dated only by a cancellation |
| EvaluationOutcomes.DeletionCancelsFirst | src/evaluation/cancel.ts:49-64 | a deletion happens once, is dated and signed, and leaves the rest as cancelling does |
| EvaluationOutcomes.StartingOnlyStarts | src/evaluation/lifecycle.ts:17-33 | a start is refused unless every trial is queued, and changes only the status |
| EvaluationOutcomes.ClaimTakesTheTrial | src/evaluation/claim.ts:25-33 | a claim is granted exactly on a running run's trial that is queued, or held without a mark, and changes only who holds it, since when, and that it runs |
| EvaluationOutcomes.HolderWrites | src/evaluation/claim.ts:34-75 | marks, saves and requeues go through exactly while the attempt holds its trial, and what each leaves of it, field by field |
| EvaluationOutcomes.TrialFailedOrExplained | src/evaluation/failure-summary.ts:33-35 | a trial is failed only while unfinished, and explained only if it completed with a score of zero and has no explanation |
| EvaluationRecord.EndedRunIsFinal | src/evaluation/cancel.ts:27-64 | once a run has ended no claim or start is granted, and late saves, requeues, failures, finishes and cancels change nothing |
| EvaluationRecord.ReappliedChangeKeepsOutcome | src/evaluation/store.ts:150-172 | a change saved without being acknowledged and applied again is never refused and leaves the record as its first application did |
| EvaluationReapplied.ReappliedAmongOthers | src/evaluation/store.ts:150-172 | a change saved without being acknowledged and applied again after any number of others' changes: what it did still stands or its trial has ended, and the second application is refused (only a claim, a mark or a start), changes nothing, or claims a trial that may still be claimed and whose solver was not started |
| EvaluationClosures.Record.ClaimTrial | src/evaluation/claim.ts:25-33 | claiming in place: granted exactly on a running run's queued or abandoned trial, refused otherwise, nothing else changed |
| EvaluationClosures.Record.StartSolver | src/evaluation/claim.ts:56-64 | marking the solver started is refused exactly when the claim is no longer held |
| EvaluationClosures.Record.SaveTrial | src/evaluation/claim.ts:47-51 | a save replaces the trial while its claim is held and is dropped otherwise |
| EvaluationClosures.Record.RequeueTrial | src/evaluation/claim.ts:66-75 | a requeue returns a held trial to the queue without claim, start or mark |
| EvaluationClosures.Record.StartRun | src/evaluation/lifecycle.ts:17-33 | a run starts only while all its trials are queued; starting again leaves it |
| EvaluationClosures.Record.FailOne | src/evaluation/lifecycle.ts:39-52 | failing one trial touches it only if it is unfinished |
| EvaluationClosures.Record.FinishRun | src/evaluation/lifecycle.ts:55-70 | finishing in place: what is unfinished fails, the run is failed if some trial now is and completed if none, and its end is dated |
| EvaluationClosures.Record.FailWhole | src/evaluation/lifecycle.ts:73-91 | failing an unfinished run fails every unfinished trial |
| EvaluationClosures.Record.MarkCancelled | src/evaluation/cancel.ts:11-25 | cancelling fails an unfinished run and dates its unfinished trials |
| EvaluationClosures.Record.MarkDeleted | src/evaluation/cancel.ts:49-64 | deleting cancels first and marks once |
| EvaluationClosures.Record.AddExplanation | src/evaluation/failure-summary.ts:84-88 | only a trial scored zero and not yet explained takes an explanation |
| EvaluationLoop.SnapshotStore.Put | src/artifacts/gcs.ts:34-45 | a write adds the snapshot of the next revision or meets one there, which it leaves, and succeeds on identical content |
| EvaluationLoop.UpdateEvaluation | src/evaluation/store.ts:150-172 | the loop: each round reads, applies, writes and decides whether to try again, around whatever others save and whether its write arrives and is reported |
| EvaluationLoop.ResultIsRight | src/evaluation/store.ts:150-172 | whatever happens around its rounds, what the call returns is on the log and is its own change of the snapshot before it, or needed none; a repeat-spend error was a refusal; the log only grows by single changes, at most one a round the call's |
| EvaluationLoop.EndsWhen | src/evaluation/store.ts:161-168 | the call gives up only on a missing record, a write that did not arrive or when its time is up, and ends by the first round that nobody opposes or that its time ends |
| EvaluationLoop.AloneItIsOneChange | src/evaluation/store.ts:159-165 | with nobody else about it is exactly one change of the newest snapshot, saved as the next revision and returned |
| EvaluationSafety.InvHolds | src/evaluation/store.ts:150-172 | the protocol's invariant holds in every state of every run |
| EvaluationSafety.NextKeepsInv | src/evaluation/claim.ts:21-77 | every step of every process keeps the invariant |
| EvaluationGuarantees.SolverStartsAtMostOnce | src/evaluation/claim.ts:52-64 | in every interleaving of attempts, crashes, other actors and ambiguous writes a trial's solver starts on at most one step, for one attempt |
| EvaluationGuarantees.StartedSolverStaysOnRecord | src/evaluation/runner.ts:82-100 | once a solver has started, the newest snapshot shows its trial running under that claim with the mark, or ended, ever after |
| EvaluationGuarantees.SnapshotsFormOneHistory | src/evaluation/store.ts:44-48 | revisions are dense from 1, each snapshot is exactly one change applied to the one before, and every one is a sound record of the same evaluation |
| EvaluationGuarantees.SnapshotsNeverChange | src/artifacts/gcs.ts:34-45 | no snapshot is replaced or lost |
| EvaluationGuarantees.OutcomesAreRight | src/evaluation/lifecycle.ts:55-70 | in every reachable state each snapshot's outcome is right: a completed run has only completed trials and no error, a failed one a failed trial or an error, and only an ended one is dated or deleted |
| EvaluationGuarantees.EndedTrialsAreFinal | src/evaluation/claim.ts:34-51 | an ended trial never runs again and keeps its outcome and output |
| EvaluationGuarantees.TrialsChangeAlone | src/evaluation/claim.ts:36-51 | a trial's fields change only by its holder, by a failure or an end of the run, or by a takeover before its solver started, so parallel trials keep each other's saves |
| EvaluationGuarantees.LostClaimNeverReturns | src/evaluation/claim.ts:34-41 | an attempt that lost its claim never holds the trial again, and its later saves and requeues change nothing |
| EvaluationGuarantees.MarkClearedOnlyByNonSolver | src/evaluation/claim.ts:66-75 | a saved mark is cleared only by a requeue of its own attempt, which never starts its solver |
| EvaluationWitness.ASolverCanStart | src/evaluation/runner.ts:92-94 | the guarantees are not empty: there is a run in which a solver starts |
| RunSummaries.SummaryOfSummary | src/evaluation/store.ts:51-56 | summarizing a summary again changes nothing, so a rebuilt summary is stored as any other |
| RunSummaries.SummaryShowsTheRun | src/evaluation/store.ts:50-56 | a summary is the one record that agrees with its run on every field and every trial's fields but log, steps and artifacts, which are empty |
| RunSummaries.NewestSummaryIsKept | src/db/evaluation-summaries.ts:20-38 | in whatever order summaries are saved, each run is left with one of the greatest revision, the earliest saved of those |
| RunSummaries.SummaryTable.Save | src/db/evaluation-summaries.ts:27-44 | a stored summary is replaced only by a later revision's, and dropped without its owner |
| RunSummaries.SummaryTable.Revisions | src/db/evaluation-summaries.ts:47-54 | the revisions read are those of the stored rows, no row left out |
| RunSummaries.SummaryTable.Disown | src/db/evaluation-schema.ts:27-29 | with its owner's row a table's summaries go too |
| RunSummaries.StoredSummariesAreTrue | src/db/evaluation-summaries.ts:20-44 | in every history each stored summary is that of its run's snapshot at its revision |
| RunSummaries.HistoryGrows | src/db/evaluation-summaries.ts:20-25 | however late writers finish, stored revisions only grow and snapshots are only added |
| RunLists.Rebuild | src/evaluation/run-list.ts:51-69 | a rebuilt summary is true and no older than the newest snapshot when the read behind it began, which may be another list's |
| RunLists.CheckAll | src/evaluation/run-list.ts:93-99 | a stored revision counts as current exactly when, as of the check, its run has no later snapshot, and is then no older than the newest snapshot there |
| RunLists.Gather | src/evaluation/run-list.ts:100-108 | every listed id is accounted for once, by its stored revision or its record |
| RunLists.ReadAll | src/evaluation/run-list.ts:111-125 | stored summaries read later are no older than the revisions checked |
| RunLists.ListRuns | src/evaluation/run-list.ts:75-127 | over any interleaving with saves, a list holds every run whose folder was there, once, newest first and those created together by ascending id, each the true summary of a snapshot no older than the newest when its read began; it is left out exactly when the tag held is the one found, and then that tag says the same of the list it names |
| RunLists.QuietListIsNewest | src/evaluation/run-list.ts:15-28 | with no save since its reads began, a list is the newest summary of every run |
| RunLists.QuietListShowsNewest | src/evaluation/run-list.ts:15-24 | field by field, each run of a quiet list is its newest snapshot but for the output text of its trials |
| RunLists.ListShowsSnapshots | src/evaluation/store.ts:50-56 | at any time each listed run shows, field by field, the snapshot of its own revision |
| RunLists.EqualTagsEqualLists | src/evaluation/run-list.ts:29-39 | equal tags mean equal lists: the same summaries in the same order, whenever each list was made and whatever was saved between |
| RunLists.KeptListIsFresh | src/evaluation/run-list.ts:70-74 | a caller told its tag still holds has a list as fresh as one read now |
| Pricing.SumUsageOf | src/evaluation/request-cost.ts:8-17 | the loop adds up each bucket |
| Pricing.RequestsCost | src/evaluation/request-cost.ts:50-67 | grouping by tier gives the sum of each request priced alone at its own tier, and no cost exactly when some request has no rate |
| Pricing.MillionTokensCostTheirRate | src/evaluation/request-cost.ts:27-43 | a request of a million tokens of one kind costs the rate of that kind where its prompt is billed, and for hour-long cache writes twice the input rate |
| Pricing.MergedRequestsCostTheSame | src/evaluation/request-cost.ts:45-49 | requests billed at one tier cost what one request of all their tokens costs there |
| Pricing.UnpricedPastTheLimit | src/evaluation/request-cost.ts:40-43 | a request has no cost exactly when its prompt is past the limit |
| Pricing.OrderDoesNotMatter | src/evaluation/request-cost.ts:45-49 | the same requests in any order cost the same |
| Pricing.BaseRatesBelowLimit | src/contracts/models.ts:256-263 | a prompt is billed at the base rates exactly below the limit |
| Pricing.BaseRatesReachTheLimit | src/evaluation/request-cost.ts:73-84 | where tiers ascend a whole is priced exactly when the prompt standing for it reaches no tier and is within the limit |
| Pricing.WholeCostIsEverySplitsCost | src/evaluation/request-cost.ts:69-84 | a cost for the whole is the cost of every split into non-negative requests with prompts at most the given largest |
| Pricing.MillionTokensWhole | src/evaluation/request-cost.ts:69-84 | a whole of a million tokens of one kind, if it is priced, costs the base rate of that kind |
| Pricing.WholeCostRefusesOnlyPastBaseRates | src/evaluation/request-cost.ts:73-84 | a whole is refused exactly when the prompt standing for it is not billed at the base rates |
| PriceTiers.ListedRatesOf | src/gateways/catalog.ts:153-179 | the loop that sorts, skips repeats and stops at an unpriced tier |
| PriceTiers.SortIsStable | src/gateways/catalog.ts:156-157 | sorting keeps, for each size, which tier is listed first |
| PriceTiers.BilledAtListPrices | src/gateways/catalog.ts:149-179 | a prompt is billed at the prices of the first listed tier of the largest size it passes, or the base's, a cache price left out by the base following the input price; or at nothing from the first size, in order, that leaves out a cache price the base lists |
| PriceTiers.MillionInputTokensAtListPrice | src/gateways/catalog.ts:149-179 | a million input tokens cost the input price listed for that size of prompt |
| PriceTiers.RecordedTiersAscend | src/contracts/models.ts:269-296 | recorded tiers are strictly ascending and below the limit, and none is dropped by it |
| PriceTiers.TierPipelineMeaning | src/gateways/catalog.ts:149-179 | for every unsorted, repeated tier list and every prompt: nothing from the first size lacking a needed cache price, else the first listed tier of the greatest size reached, else the base rates |
| PriceTiers.SomeHighestReached | src/evaluation/request-cost.ts:39-43 | a prompt reaches no size or has a greatest size it reaches, so the meaning always names a rate |
| GatewayIds.AliasesUnambiguous | src/gateways/index.ts:79-99 | the gateways' own tables spell no vendor two ways and use no spelling as both their own and the catalog's |
| GatewayIds.CatalogSpellingSettles | src/gateways/index.ts:189-206 | a catalog id survives going to a gateway's spelling and back |
| GatewayIds.AliasIsRespelled | src/gateways/index.ts:189-202 | in an id that a vendor's spelling begins, the gateway's and the catalog's are each other's |
| GatewayIds.OtherIdsStay | src/gateways/index.ts:189-202 | an id no such spelling begins is left as it is |
| CatalogMerge.MergeGateway | src/evaluation/catalog.ts:105-160 | one gateway's loops, with their counts and maps, merge its listings one by one |
| CatalogMerge.EvaluationCatalog | src/evaluation/catalog.ts:94-163 | the catalog is the router, the merged entries in order, then the curated models left |
| CatalogEntries.NewEntriesAreListed | src/evaluation/catalog.ts:141-150 | every entry of the catalog that is not a curated model names a gateway, the id and the title of a model that gateway lists, under that listing's catalog id |
| CatalogEntries.NewModelIsTheListing | src/evaluation/catalog.ts:139-159 | a listing that lands on an id unknown at its turn is, at the end, that entry's model, title and provider |
| CatalogEntries.WhereAListingLands | src/evaluation/catalog.ts:120-138 | a listing lands on its own catalog id if that is known; else on the model whose route it is; else, if its vendor and name are listed once, on the one model of that name and vendor awaiting a route there; else on its own id |
| CatalogEntries.TwinExactlyWhen | src/evaluation/catalog.ts:124-137 | a model is taken for the listing's twin exactly when it alone shares name and vendor, has no route on the gateway and is not listed there by id, and the gateway lists that vendor's name once |
| CatalogEntries.CuratedModelIsServed | src/evaluation/catalog.ts:190-197 | a curated model no listing landed on has, at the end, a route on a gateway exactly when the gateway prices or lists its id there, or has no prices yet |
| CatalogEntries.CuratedOrderIs | src/evaluation/catalog.ts:95-97 | curated models begin in the order of the curated catalog |
| CatalogEntries.CuratedRestInOrder | src/evaluation/catalog.ts:162 | those no listing landed on follow at the end in that order |
| CatalogGuarantees.WhyItLanded | src/evaluation/catalog.ts:121-142 | a listing takes its own id exactly when that id is known or it has neither a claim nor a twin; otherwise it lands on the entry whose route is its id, or else, the gateway listing that vendor's name once, on the only entry of that name and vendor not listed by id and without a route |
| CatalogGuarantees.LandApart | src/evaluation/catalog.ts:121-160 | two listings of one gateway with different catalog ids never land on one entry |
| CatalogGuarantees.TogetherExactlyWhen | src/evaluation/catalog.ts:115-125 | two listings land together exactly when they are of one catalog id and either the first took it, or both are the one route of a known model and nothing took that id before the second |
| CatalogGuarantees.NoListingIsLost | src/evaluation/catalog.ts:85-93 | in the whole merge, a listing has an entry of its own exactly when it meets no other listing in that way, and then that entry's route on the gateway is the listing's id at the end; so it is whenever no gateway lists one catalog id twice |
| CatalogGuarantees.RepeatedIdIsLost | src/evaluation/catalog.ts:121-160 | Vercel listing one model as meta and as meta-llama puts both on one entry, and the first one's route is gone |
| CatalogGuarantees.RepeatedIdIsKept | src/evaluation/catalog.ts:115-125 | with a curated model that Vercel calls by the first spelling, both keep an entry, though their catalog ids are one |
| CatalogGuarantees.EarlierRoutesSurvive | src/evaluation/catalog.ts:143-160 | later gateways leave an entry the model it is and its routes on earlier gateways |
| CatalogGuarantees.RoutesComeFromListings | src/evaluation/catalog.ts:191-198 | every route at the end is a listing's that landed there or one a curated model was served by |
| CatalogGuarantees.CuratedModelsStay | src/evaluation/catalog.ts:95-104 | every curated model is in the catalog exactly once, as the model it is |
| CatalogGuarantees.OrderFollowsListings | src/evaluation/catalog.ts:85-93 | each gateway's new models follow those before them in the order it lists them |
| Transcript.FairShare | src/evaluation/transcript.ts:38-47 | the loop's limit |
| Transcript.FairShareIsLargest | src/evaluation/transcript.ts:34-47 | the limit is the largest whose clipped lengths fit the budget, and there is none exactly when everything fits |
| Transcript.Clipped | src/evaluation/transcript.ts:53-60 | a cut text is exactly as long as the limit allows, and uncut when it fits |
| Transcript.StepsStayWithinBudget | src/evaluation/transcript.ts:66-91 | kept messages, tool inputs and tool outputs hold at most 200,000 characters together |
| BoundedTranscripts.BoundedStepsAre | src/evaluation/transcript.ts:62-91 | the bounded steps are those of the last 500 with text left to show, in order, each with its id, role and first 30 tools, its texts cut in the middle or at the end to one limit for what was said and another for outputs: the largest that fit 120,000 characters and the rest of 200,000 |
| BoundedTranscripts.OnlyTheLatestCount | src/evaluation/transcript.ts:67-69 | whatever came before the latest 500 steps changes nothing |
| BoundedTranscripts.BoundedStepsHold | src/evaluation/transcript.ts:66-91 | counted text by text, at most 200,000 characters are kept, at most 120,000 of them said |
| BoundedTranscripts.WithinBoundsNothingIsCut | src/evaluation/transcript.ts:62-65 | a transcript within those bounds is kept as it is, but for steps with nothing to show |
| Transcript.BoundingTwiceIsBoundingOnce | src/evaluation/transcript.ts:66-91 | bounding bounded steps changes nothing |
| PrefixSteps.PrefixStepsOf | maintenance/partial-cost.ts:6-27 | the scanning loop over depth, quotes and escapes |
| PrefixSteps.ArrayStartExactlyWhen | maintenance/partial-cost.ts:7-8 | the scan begins after the first `"steps"`, colon and bracket, spaces allowed between, of a text whose first character but spaces is a brace |
| PrefixSteps.ObjectFound | maintenance/partial-cost.ts:11-25 | a printed object is found when its closing brace is read and not before, whatever its strings, escapes and nesting |
| PrefixSteps.CutTrajectoryKeepsWholeObjects | maintenance/partial-cost.ts:5-27 | a steps array cut anywhere after its bracket yields exactly the objects whose closing brace lies before the cut, in order |
| PrefixSteps.EmptyArrayHasNone | maintenance/partial-cost.ts:20-20 | an array of nothing but white space yields nothing, wherever it is cut and whatever follows |
| RollingOutput.Output.Push | src/lib/process.ts:123-147 | the chunks join to exactly the last bytes pushed up to the limit; the flag is set by every overflow and by a chunk of the limit's size, and once set at least the limit was pushed |
| RollingOutput.Output.Text | src/lib/process.ts:149-152 | the text is those bytes, announced as cut when the flag is set |
| LineReader.ReadAll | src/gateway/served-model.ts:68-100 | the chunks pass unchanged, and model and cost are noted over the lines read |
| LineReader.SplitGivesTextBack | src/gateway/served-model.ts:86 | the lines hold no newline, and with newlines between them are the text |
| LineReader.LinesAreThoseOfTheText | src/gateway/served-model.ts:84-90 | without a line past the limit, the lines read are the newline split of the whole text |
| LineReader.LongLineIsLost | src/gateway/served-model.ts:89 | a line past the limit is lost in some cut into chunks |
| LineReader.ChunksDoNotMatterExactlyWithoutLongLines | src/gateway/served-model.ts:84-98 | every cut reads the split of the text if and only if no line is longer than the limit |
| LineReader.LastNamedWins | src/gateway/served-model.ts:71-83 | the recorded model and cost are those of the last line naming each, and stay as they were when none does |
| ReleaseChain.ChainOrderOf | src/db/release-chain.ts:5-13 | the walk, its reversal and the strays after it |
| ReleaseChain.ChainThenStrays | src/db/release-chain.ts:5-13 | for arbitrary rows the chain comes first, newest first, and the rows left over follow in the order they came |
| ReleaseChain.ChainOrderIsPermutation | src/db/release-chain.ts:5-13 | for arbitrary rows with unique non-empty ids, every row is listed exactly once |
| ReleaseChain.ChainOrderIsNewestFirst | src/db/release-chain.ts:1-4 | a chain's rows in any order are listed newest first |
| ReleaseChain.Line.ReadHead | src/db/releases.ts:156-161 | whatever order its rows come in, a line is listed newest first, and the publisher names the newest as its head |
| ReleaseChain.Line.Insert | src/db/releases.ts:166-195 | over interleaved publishers a stale head is refused and the rows always form one chain |
| ReleaseChain.Line.Withdraw | src/db/releases.ts:197-208 | withdrawing marks that row alone and leaves the chain; it returns the row as marked, or nothing exactly when no public row has that id |
| ReleaseChain.Line.WithdrawLine | src/db/releases.ts:210-217 | withdrawing a line marks every public row and returns how many there were |
| ReleaseChain.OneSuccessorEach | src/db/schema.ts:283-285 | on a chain, the unique constraint admits exactly the head as predecessor |
| ReleaseChain.WithdrawFallsBack | src/db/releases.ts:196-208 | withdrawing the current release shows the newest before it not withdrawn |
| ReleaseChain.WithdrawOtherKeepsCurrent | src/db/release-chain.ts:25-26 | withdrawing another changes nothing the public sees |
| ReleaseLines.CurrentAmong | src/db/releases.ts:111-121 | the loops give each line the current row of its own rows' chain order, and nothing for a line with none |
| ReleaseLines.EachLineShowsItsNewest | src/db/releases.ts:111-121 | a line whose rows form a chain shows the newest not withdrawn, however other lines' rows lie between |
| ReleaseLines.LinesDoNotMix | src/db/releases.ts:111-121 | a row written to one line changes nothing another shows |
| RateLimiter.Limiter.TakeFor | src/api/rate-limit.ts:45-66 | one call in place, its sweep loop included |
| RateLimiterGuarantees.UnsweptWindow | src/api/rate-limit.ts:37-43 | without the sweep, what a window lets through and what is left is at most the burst and what was gained |
| RateLimiterGuarantees.RetryAfterIsLeastWait | src/api/rate-limit.ts:58-62 | the wait told is the least whole number of seconds, at least one, that reaches a token |
| RateLimiterGuarantees.WaitingRetryAfterSucceeds | src/api/rate-limit.ts:24-25 | a refused client that waits as told, making only refused calls, is let through, sweeps and all |
| RateLimiterGuarantees.ReportsAreAMinuteApart | src/api/rate-limit.ts:16-17 | two reports of one client's refusals are at least a minute apart, sweeps between them included |
| RateLimiterGuarantees.ReportedExactlyWhen | src/api/rate-limit.ts:55-59 | a refusal is reported if and only if none of that client's was in the minute before, sweeps included |
| RateLimiterOverrun.WindowsBoundedExactlyWhen | src/api/rate-limit.ts:26-66 | every window of every run is bounded by the burst and the sustained rate if and only if the burst is below one or at most ten minutes' worth |
| RateLimiterOverrun.SweepUnseenExactlyWhen | src/api/rate-limit.ts:27-52 | the idle sweep changes no verdict, wait or report for exactly the same options |
| TrialInputs.TrialInputNamesItsTask | src/evaluation/trial-input.ts:9-12 | a trial's input names the task of that trial in the initial record, and none past the last trial |
| TrialInputs.TrialOfTask | src/evaluation/store.ts:30-41 | the initial record orders trials task by task, one per harness |
| TrialInputs.InitialTrialsAreUntouched | src/evaluation/store.ts:30-41 | each trial begins queued with its task and harness and nothing else |
| TrialInputs.SplitCredentialLimits | src/evaluation/trial-input.ts:29-47 | the loop over the inputs sets each one's share, each computed as if none had been set |
| TrialInputs.LimitIsKept | src/evaluation/trial-input.ts:23-28 | evaluations sharing a credential may run at most its limit together, or one each if they are more, and each at least one |
| TrialInputs.EachShareIsLargest | src/evaluation/trial-input.ts:32-46 | splitting changes only how many trials an evaluation may run together: the most that fits each limit of its credentials when all their users run that many, and at least one |
| TrialInputs.NoLimitNoCap | src/evaluation/trial-input.ts:33-45 | a credential without a limit, or with a limit of zero, caps nothing |
| TrialInputs.TaskImages.Ready | src/evaluation/workflow.ts:106-128 | each task's images are asked for at most once, with the input of one of its own trials |
| TrialLanes.InvHolds | src/evaluation/workflow.ts:233-257 | in every interleaving each index handed out is settled or with exactly one lane |
| TrialLanes.EachIndexOnce | src/evaluation/workflow.ts:244-252 | indices are handed out in order, none twice |
| TrialLanes.AtMostConcurrencyInFlight | src/evaluation/workflow.ts:228-232 | at most the concurrency is in flight |
| TrialLanes.ConcurrencyIsReached | src/evaluation/workflow.ts:251-253 | some run has that many in flight at once, or all trials if they are fewer |
| TrialLanes.RejectionIsNotFinished | src/evaluation/workflow.ts:253-256 | a rejected lane keeps the outcome from being recorded as finished |
| TrialLanes.FinishMeansAllRanExactlyWhen | src/evaluation/workflow.ts:250-257 | the outcome is recorded only after every index was handed out and settled if and only if there are no trials or the concurrency is at least one |
| TrialLanes.EachEvaluationRunsItsTrials | src/evaluation/workflow.ts:82-94 | whatever limits a comparison's evaluations split, each runs at a concurrency of at least one, so its outcome is recorded only after all its trials ran |
| TrialLanes.CredentialLimitIsKept | src/evaluation/workflow.ts:93-93 | the trials in flight of one comparison's evaluations sharing a credential stay within its limit, or one each |
| BillingOutbox.Outbox.Select | src/db/billing.ts:126-143 | a claim selects the due row of the least id that is not sent |
| BillingOutbox.Outbox.Take | src/db/billing.ts:144-154 | the update claims the row if it is still due, whatever its status, with the next attempt number |
| BillingOutbox.Outbox.Deliver | src/db/billing.ts:157-168 | a delivery counts only under the claim the row is held by |
| BillingOutbox.Outbox.Fail | src/db/billing.ts:169-186 | so does a failure, which backs off by the attempt number |
| BillingOutbox.ClaimAndDeliveryWrite | src/db/billing.ts:143-167 | field by field, a claim holds a due row for five minutes under the next number, and a delivery under the held number dates it and clears its error; no other row changes |
| BillingOutbox.FailureWrites | src/db/billing.ts:168-184 | field by field, a failure under the held number keeps the first 1,000 characters of its error; no other row changes |
| BillingOutbox.BackoffDoubles | src/db/billing.ts:169-175 | back-off starts at a second, doubles with each attempt and stays at 1,024 seconds from the tenth, so that the hour's limit is never reached |
| BillingOutbox.ClaimsAreDistinct | src/db/billing.ts:144-152 | in every interleaving no two claims of a row share a number |
| BillingOutbox.SupersededClaimChangesNothing | src/db/billing.ts:157-186 | a claim followed by another of its row changes nothing when it settles |
| BillingOutbox.ClaimSettlesOnce | src/db/billing.ts:157-186 | a claim takes effect at most once |
| BillingOutbox.SentStaysExactlyWhen | src/db/billing.ts:144-153 | a sent row stays sent in every continuation if and only if no sender has an earlier selection of it outstanding |
| BillingOutbox.SentRowCanBeClaimedAgain | src/db/billing.ts:151-151 | such a selection is reachable: a concrete run claims a sent row again |
| BillingOutbox.SentStaysAtOnce | src/db/billing.ts:125-155 | with select and update as one step, a sent row stays as it is for good |
| BillingUsage.Ledger.Record | src/db/usage.ts:28-97 | one transaction adds the usage row unless its sandbox is known, and its event if there are units and a customer |
| BillingUsage.ModelUnitsAreNearest | src/generation/billing/policy.ts:55-70 | model units are the nearest whole number to the tokens at their rates per million, a half rounding up, and none without a model with rates or without tokens |
| BillingUsage.SandboxUnitsAreNearest | src/generation/billing/policy.ts:72-83 | sandbox units are the nearest whole number to the seconds at the rates of its cores and memory, by default four and eight GiB |
| BillingUsage.FirstRecordIsBilled | src/db/usage.ts:45-95 | a sandbox's first record adds its usage, and an event of all its units exactly when it is managed, has units and the organization has a customer |
| BillingUsage.BooksStaySound | src/db/usage.ts:77-97 | over any calls each sandbox has one usage row, each usage at most one event, and each event carries its usage's model and sandbox units |
| BillingUsage.ReplayAddsNothing | src/db/usage.ts:77-79 | a call for a sandbox recorded before adds no usage and no event |
| BillingUsage.EachSandboxBilledOnce | src/db/usage.ts:80-97 | all events together bill each sandbox's first record, once |
| PublishedResults.IsLater | src/public/release-results.ts:88-101 | the loop over the parts is the lexicographic order |
| PublishedResults.LaterIsStrictTotalOrder | src/public/release-results.ts:87-101 | results of different runs or positions are strictly and totally ordered |
| PublishedResults.PositionsSortAsNumbers | src/public/release-results.ts:93-94 | padded positions sort as numbers up to the hundred-millionth trial |
| PublishedResults.ResultsBySetting | src/public/release-results.ts:104-123 | the nested loops collect every eligible trial of a resolved setting |
| PublishedResults.ChosenIsLatest | src/public/release-results.ts:10-13 | per setting and task the chosen result is the latest eligible one, and there is one if any is eligible |
| PublishedResults.NewestThatCounts | src/public/release-results.ts:87-123 | what stands for a setting on a task is a trial that counts, after which none that counts comes by end, then by its run's creation, run id and position; there is one as soon as any counts |
| PublishedResults.SettingsAreOfFirst | src/public/release-results.ts:112-115 | a setting is listed as soon as a trial of it counts, and described as by the first that does |
| PublishedResults.OrderDoesNotMatter | src/public/release-results.ts:104-123 | the results do not depend on the order the runs are read in |
| GroupMembers.SharesAddUp | src/public/release-groups.ts:95-125 | any sum over results divides among distinct members exactly as the results they own |
| GroupMembers.MemberScoresTellOfTheirs | src/public/release-groups.ts:101-124 | a member's score for a setting counts that setting's results on the member's own tasks, passed and priced, with the mean of passes in percent and the mean cost of those priced, zero for none |
| GroupMembers.MembersPartitionTotals | src/public/release-groups.ts:89-125 | members' tasks add up to the setting's if and only if every task has an owner among them, and then passes, priced counts and spend do too |
| GroupMembers.MemberTasksAreItsScores | src/public/release-groups.ts:120-123 | where settings cover the same tasks, a member's task count is that of each of its scores |
| GroupMembers.MostAccurate | src/public/release-groups.ts:127-150 | the running best is the first setting that no other beats on accuracy, then on cost |

## Left out

- HTTP routes, pages, link cards, telemetry, React, scripts, Terraform: presentation or I/O.
- Google Cloud Storage, the local store, Postgres and Temporal themselves: a write is create-only with
  identical content accepted, a database statement one atomic step on rows.
- The maintenance programs that rewrite stored records outside the protocol.
- Everything in executeTrial but its claim, solve, save and retry decisions; Harbor, sandboxes and
  redaction. Why a retry is refused is nondeterministic.
- Clocks and deadlines: times are parameters, giving up is possible at any time, back-off is not timed.
- Snapshot keys are revision numbers: the ten-digit file name, which would stop sorting past revision
  9,999,999,999, is not modelled.
- Saving a record of the next revision and saving its summary are separate events; the two-second limit
  and the pause after a failed summary are subsumed by summaries that never arrive.
- RunLists.ListRuns: the branch without a database, which reads every record, is not modelled; a tag is
  the map it hashes, which takes SHA-256 and the sorting of its lines as injective; run ids, made of
  digits, the letters a to f and dashes, are ordered by code point where the stores use localeCompare.
- Floating-point rounding: money, tokens in buckets and limiter times are reals. UTF-16: text is a
  sequence of characters, and strings compare by code point where JavaScript compares code units.
- JSON values: a value is what a parameter makes of its text.
- TextDecoder: LineReader takes chunks already decoded.
- Catalog entries leave out harnesses, pages and reasoning levels; `nameKey` is any function of a label.
- settingOf, eligibleTrial and evaluationTaskKey are functions given to PublishedResults. A setting's
  own description there is that of the first run read and does depend on the order.
- releasedTasks, the release rules, and the final sort by release time in currentAmong.
- An outbox event's refund, event name and identifier, and webhooks; database sequences never repeat.
- BillingOutbox.SentStaysAtOnce: assumes claims made in one step, which the transaction's default
  isolation does not give.
- Sign-in and sealing, trial keys, hashes, sandbox capacity, partialCodexCost and the other cost readers.
