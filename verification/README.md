# Verified models of the DKG operations scripts and devnet harness

This project models the parts of the DKG repository that decide something hard:
who is refunded how much, which evidence counts, which population is accepted,
what survives a crash. Each module states what its code is for and proves it for
every input, every run or every reachable state.

`dafny verify dfyconfig.toml` checks the whole project.

## What is modelled

**TRAC refunds.** `LogScanner` is the adaptive log scanner: a run is a list of
provider answers, and whatever they are the served ranges tile the block interval, so
the two maps report exactly the logs of the chain. `DirectRead` is the descending scan
with early stop, one read at a time and in parallel JSON-RPC batches (JSON-RPC 2.0,
section 6, lets a server answer a batch in any order). `Allocation` spreads locked
tokens over epochs and scales each epoch to its pool. `Distribution` groups the
snapshots per address, and `Ledger` pays them out over any history of interrupted runs.

**RFC-64 evidence.** `CanonicalJson` copies a heap graph of arrays and objects while
watching for cycles. `Snapshots` builds, validates and compares semantic snapshots and
combines a comparison with retry evidence. `Receipts` checks lifecycle receipts against
an expectation. `Publication` writes an artifact through a temporary file while the power
may fail after any step.

**System records.** `Subjects` and `Aliases` hold the subject grammar, the owners of
subjects and their redaction. `Evidence` redacts the detail rows of a root into quads and
validates the quads; it proves that redaction keeps validity in both directions.
`Population` takes a population from query rows through extractor, deriver and validators,
and says exactly when that succeeds. `LoadCapture` and `LoadEnvelope` judge a load
measurement; `BTreeBounds` bounds the inventory tree; `SystemLimits` holds the frozen limits.

**Harness.** `AgentChild` is the line-framed protocol with a child process,
`LayeredClient` the three-layer memory client with publisher jobs, and `Settle` the
two-phase poller.

`Sequences`, `Numbers`, `Sorting`, `InsertionMap` and `Refunds` are shared ground: sequences
and counting, numeric limits, the stable sort and the order on text, JavaScript's `Map`, and
a refundable collection.

## Where the code and its documentation disagree

The models follow the code.

- The payment loop says "3 consecutive failures" but never resets its counter, so three
  failures in total stop a run (`Ledger.StopsAtThreeFailuresInTotal`,
  `Ledger.SeparatedFailuresStopTheRun`).
- Canonical JSON is documented to sort object keys. Keys that are array indices come out
  first and by value. The order is text order if and only if no array index stands, in text
  order, behind another name or behind a longer array index
  (`CanonicalJson.KeysComeOutSortedIff`); the keys 10 and 9 are such a pair
  (`CanonicalJson.NumericKeysAreNotSorted`).
- The snapshot script's header speaks of capping an epoch at its pool. An epoch stays within
  its pool if and only if it has a pool or owes nothing (`Allocation.WithinPoolIff`); with an
  empty pool the full amounts are allocated (`Allocation.EmptyPoolIsExceeded`). Shares are
  also scaled up: `Allocation.ScaledUpIff` says exactly which, and
  `Allocation.SharesAreScaledUp` gives an epoch whose shares triple.
- The early stop of the direct scan can lose refundable ids. `DirectRead.ScanIsCompleteIff`
  says exactly when it loses none, and `DirectRead.HiddenIdIsLost` which ids it loses.
  `DirectRead.EarlyStopLosesAnId` is a chain of 100,001 collections on which the simple script
  loses the one that is refundable and the batched script finds it.
- Owner lookup is meant to be unambiguous. It is among canonical wallet roots
  (`Subjects.CanonicalOwnerIsUnique`); for other roots `Subjects.OwnersClashIff` says exactly
  when two roots share a subject, and `Subjects.LegacyRootsCanClash` shows two that do.
- The validator demands key aliases in numeric order of a list that was sorted as text. The two
  agree exactly up to 9999 keys (`Aliases.SortedAliasesAreDenseIff`), and a profile may hold
  no more than 2048 subjects.
- The extractor's own checks of a row are weaker than the validator's check of the quad made
  from it. `Evidence.EvidenceIsGoodIff` says exactly which rows pass both. A link to a text
  instead of a subject passes only the first (`Evidence.LooseLinkIsRefused`), for every wallet
  root, and stops a run that is otherwise in order (`Population.LooseLinkStopsTheRun`).

## Model

| member | source | states |
|---|---|---|
| LogScanner.RecordAllReports | scripts/publisher-epoch-snapshot.ts:411-434 | one ordered pass over any log list holds, per id, the last future Created and the publisher of the first Minted |
| LogScanner.RecordBatch | scripts/publisher-epoch-snapshot.ts:411-434 | filling the two maps batch by batch equals one ordered fold over the logs |
| LogScanner.RunKeeps | scripts/publisher-epoch-snapshot.ts:389-471 | for every answer sequence the served ranges stay contiguous from the first block, the maps equal the fold over exactly those blocks, and ranges under 500 occur only on the last provider |
| LogScanner.TilesPartition | scripts/publisher-epoch-snapshot.ts:398-436 | every block of a tiled interval lies in exactly one served range, and no range reaches outside |
| LogScanner.FinishedScan | scripts/publisher-epoch-snapshot.ts:389-471 | a scan past the last block has tiled the whole interval and reports all its logs |
| LogScanner.EveryStepProgressesOrStalls | scripts/publisher-epoch-snapshot.ts:436-468 | (blocks left, providers left, range size) falls lexicographically on a step if and only if the step is not a refusal at the smallest range by the last provider, and that one changes nothing |
| LogScanner.RefusalCostsPatience | scripts/publisher-epoch-snapshot.ts:459-468 | refusals between two served ranges are bounded: each uses up one of a known number of halvings and provider switches |
| LogScanner.StallFreeScansEnd | scripts/publisher-epoch-snapshot.ts:389-471 | a scan that never stalls ends within a number of queries known at the start |
| LogScanner.EveryRunWalks | scripts/publisher-epoch-snapshot.ts:389-471 | every run starts at the first block with the largest range and the first provider; a served query moves behind its range, which then doubles up to 2500; a refused one halves it down to 50, or below 500 turns to the next provider with 2500; it ends done, failed or unfinished exactly as the answers say |
| LogScanner.ScanEvents | scripts/publisher-epoch-snapshot.ts:389-471 | the loop is the modelled run for every answer script, and such a walk; when it is done it tiled the interval and reports all its logs |
| LogScanner.JoinKeysMeaning | scripts/publisher-epoch-snapshot.ts:474-483 | the join keeps each id with data and a publisher once, with its own data |
| LogScanner.Join | scripts/publisher-epoch-snapshot.ts:473-483 | the joined list holds exactly the refundable ids, each once |
| LogScanner.DiscoverByEvents | scripts/publisher-epoch-snapshot.ts:389-483 | a finished discovery lists exactly the collections whose last future Created and first Minted stand in the chain's logs, each once |
| DirectRead.FutureIdsMeaning | scripts/publisher-epoch-snapshot.ts:300-345 | the list of future ids is descending and is exactly the filter of the visited ids |
| DirectRead.StopPointStops | scripts/publisher-epoch-snapshot.ts:310-345 | a scan ends at the last id or at a batch boundary below a long enough run of past ids |
| DirectRead.SmallerBatchesStopFirst | scripts/publisher-epoch-snapshot-fast.ts:253-304 | batches that divide larger ones never make a scan end later |
| DirectRead.SimpleScanIsPrefixOfFast | scripts/publisher-epoch-snapshot-fast.ts:253-304 | for every chain the one-at-a-time scan finds a prefix of what the batched scan finds |
| DirectRead.ScanIsCompleteIff | scripts/publisher-epoch-snapshot.ts:300-345 | the early stop loses nothing if and only if no batch boundary after 100,000 past ids has a future id below it |
| DirectRead.HiddenIdIsLost | scripts/publisher-epoch-snapshot.ts:341-344 | every future id below such a boundary is missing from what the scan finds |
| DirectRead.EarlyStopLosesAnId | scripts/publisher-epoch-snapshot.ts:300-345 | with 100,001 collections of which only the first is future, the simple scan stops before it and the batched scan finds it |
| DirectRead.BothScansComplete | scripts/publisher-epoch-snapshot-fast.ts:253-304 | when no future id lies below 100,000 past ids in a row, both scans equal the full filter |
| DirectRead.AnyReplyOrder | scripts/publisher-epoch-snapshot-fast.ts:107-143 | replies in any order come back in the order of the calls |
| DirectRead.RpcBatch | scripts/publisher-epoch-snapshot-fast.ts:107-143 | three tries decide failure exactly, and a success is the words of the calls in order |
| DirectRead.SimpleScan | scripts/publisher-epoch-snapshot.ts:300-345 | the loop finds the future ids up to its stopping point, with their end epochs |
| DirectRead.FastScan | scripts/publisher-epoch-snapshot-fast.ts:253-304 | the batched rounds find the future ids up to their stopping point, and fail if and only if one of the batches they send before it fails for good |
| DirectRead.SimpleDetails | scripts/publisher-epoch-snapshot.ts:349-382 | reading the details batch by batch gives the collections of the listed ids |
| DirectRead.DetailsMeaning | scripts/publisher-epoch-snapshot.ts:349-382 | a collection is listed if and only if its id is, each of its fields is the word that the contract holds for that id in the view of that name, and amount and publisher are not zero; the order is that of the ids |
| DirectRead.Unpack | scripts/publisher-epoch-snapshot-fast.ts:337-344 | the three words of the j-th id are those of its own three calls |
| DirectRead.FastDetails | scripts/publisher-epoch-snapshot-fast.ts:311-365 | the batched detail reads give the same collections as reading them one by one, and fail if and only if one of their batches fails for good |
| DirectRead.DiscoverByReads | scripts/publisher-epoch-snapshot.ts:300-382 | the simple direct path lists exactly the refundable collections down to its stopping point; these are all there are if and only if none lies below it, and so whenever no boundary hides a future id |
| DirectRead.DiscoverByBatches | scripts/publisher-epoch-snapshot-fast.ts:253-365 | so does the batched path, and it fails if and only if one of the batches it sends fails for good |
| Allocation.AllocateMeaning | scripts/publisher-epoch-snapshot.ts:507-528 | every publisher is owed in every epoch the sum of the shares that cover it, nobody else appears, and the grand total is the sum of the contributions |
| Allocation.AllocationOwesExactly | scripts/publisher-epoch-snapshot.ts:507-528 | for every list of collections the map has exactly the publishers with a collection locked in the epoch, at the sum of the even shares, and its grand total is the sum over all epochs |
| Allocation.AppendingAdds | scripts/publisher-epoch-snapshot.ts:507-528 | one more collection adds, in each epoch from its start or the current one to its end, the largest amount that its number of epochs times does not exceed its tokens, to its own publisher, and changes nothing else |
| Allocation.EpochOwes | scripts/publisher-epoch-snapshot.ts:507-528 | what an epoch allocates in all is the sum of the even shares of the collections locked in it |
| Allocation.AllocationAtMost | scripts/publisher-epoch-snapshot.ts:511-520 | all that is allocated is at most the tokens of the collections and one even share for each |
| Allocation.AllocationIgnoresOrder | scripts/publisher-epoch-snapshot.ts:507-528 | permuting the collections changes nobody's amount in any epoch |
| Allocation.Allocate | scripts/publisher-epoch-snapshot.ts:507-528 | the nested maps filled in place hold, for each epoch and publisher, the sum over the collections locked in that epoch of their amount divided by their number of epochs, rounded down, and nobody else |
| Allocation.KeysAreOwed | scripts/publisher-epoch-snapshot.ts:521-525 | the map has an epoch if and only if somebody is owed in it |
| Allocation.FloorSum | scripts/publisher-epoch-snapshot.ts:562-570 | rounding down loses less than one wei per publisher |
| Allocation.ScaledSumNearPool | scripts/publisher-epoch-snapshot.ts:551-571 | with a positive pool and total the n shares sum to between pool - (n - 1) and pool |
| Allocation.WithinPoolIff | scripts/publisher-epoch-snapshot.ts:551-571 | the shares of an epoch stay within its pool if and only if there is a pool or nothing is owed |
| Allocation.ReachesPoolIff | scripts/publisher-epoch-snapshot.ts:551-571 | an epoch with a pool comes within rounding of it if and only if something is owed or rounding could explain all of it |
| Allocation.DustIsNotScaledUp | scripts/publisher-epoch-snapshot.ts:511-567 | one wei over two epochs is listed with a share of zero, which no pool scales up |
| Allocation.EmptyPoolIsExceeded | scripts/publisher-epoch-snapshot.ts:559-567 | with an empty pool an amount of 5 is allocated as it is |
| Allocation.ScaledUpIff | scripts/publisher-epoch-snapshot.ts:559-567 | a share grows if and only if scaling applies and the pool exceeds the total by enough for one more wei |
| Allocation.SharesAreScaledUp | scripts/publisher-epoch-snapshot.ts:559-567 | amounts 1 and 2 in a pool of 9 become 3 and 6 |
| Allocation.ScalingKeepsOrder | scripts/publisher-epoch-snapshot.ts:563-567 | a larger weight never gets a smaller share |
| Allocation.ScaleEpoch | scripts/publisher-epoch-snapshot.ts:546-585 | an epoch's entries are the scaled shares, largest first; its total is their sum, within n - 1 wei of a positive pool, and at most the pool if and only if there is a pool or nothing is owed |
| Allocation.SnapshotPaysOut | scripts/publisher-epoch-snapshot.ts:546-585 | an epoch pays exactly the publishers with a collection locked in it, once and largest first, and each amount is the share of the pool, rounded down, or the plain amount when there is nothing to scale |
| Allocation.Snapshot | scripts/publisher-epoch-snapshot.ts:504-586 | in epoch order one snapshot for each epoch that somebody is owed in and for no other; each pays exactly those who are owed, once, largest first, the even shares scaled to the pool and rounded down, and its total is the sum of its entries |
| Distribution.Aggregate | scripts/generate-aggregates.ts:29-61 | each address once with the sum of all its entries, and a grand total equal to the sum of the payments |
| Distribution.SortedTotalsAreThePlan | scripts/generate-aggregates.ts:42-61 | sorting the accumulated totals keeps addresses distinct, amounts exact and the sum conserved |
| Distribution.PlanIsPayable | scripts/generate-aggregates.ts:42-61 | a plan of entries that owe nobody less than nothing has distinct payments, none negative, and a total and a count that are theirs |
| Distribution.PlanMeetsPools | scripts/generate-aggregates.ts:42-61 | the plan's total is the sum of the epoch totals: at most the sum of the pools when no epoch owes without a pool, and within the rounding of each epoch when all have a pool and owe something |
| Distribution.PlanRefunds | scripts/generate-aggregates.ts:29-61 | snapshot and aggregation together give, for every list of collections, a plan that meets the pools and that the payment script can rely on |
| Ledger.RunOnceKeeps | scripts/distribute-publisher-trac.ts:193-281 | every run, interrupted anywhere, keeps ledger keys distinct, every record a real transfer, and sends nothing that was recorded |
| Ledger.AtMostOncePerRecord | scripts/distribute-publisher-trac.ts:193-281 | over any sequence of runs that leaves a ledger that loads, a payment is sent at most once plus its sends that never reached that ledger |
| Ledger.SendsAreConfirmedOrUnsaved | scripts/distribute-publisher-trac.ts:193-281 | over any sequence of runs, damaged ledgers included, a payment is sent exactly as often as its attempts were confirmed or ended unsaved; at most one attempt is ever confirmed, and none is made once the payment is on record or the ledger is damaged |
| Ledger.RecordedIsNeverPaidAgain | scripts/distribute-publisher-trac.ts:236-241 | a payment on record is never sent again in any later run |
| Ledger.PaidPlusUnpaid | scripts/distribute-publisher-trac.ts:200-212 | paid and unpaid parts add up to the plan, in amount and number |
| Ledger.BalanceCoversRun | scripts/distribute-publisher-trac.ts:211-228 | the single balance check covers every transfer at every point of the run |
| Ledger.CleanRunFinishes | scripts/distribute-publisher-trac.ts:193-281 | a run without failures sends exactly what was left, and the next run sends nothing |
| Ledger.FirstRunPays | scripts/distribute-publisher-trac.ts:193-281 | a first run of a payable plan is covered by its balance at every point, and a clean one sends the plan, whose sum is its total, and leaves nothing to the next |
| Ledger.PayRefunds | scripts/distribute-publisher-trac.ts:193-281 | snapshot, aggregation and payment in a row: the plan meets the pools, what is sent is covered at every point, and a clean run sends exactly the plan |
| Ledger.StopsAtThreeFailuresInTotal | scripts/distribute-publisher-trac.ts:271-279 | a run stops early if and only if three of its attempts failed, in a row or not |
| Ledger.SeparatedFailuresStopTheRun | scripts/distribute-publisher-trac.ts:271-279 | failures separated by successes stop a run |
| Ledger.SendsOnlyWhenAllowed | scripts/distribute-publisher-trac.ts:193-234 | a run sends only when it is no dry run, the ledger loads, something is unpaid and the balance covers all of it; a run that sends nothing leaves the ledger alone |
| Ledger.HistorySendsOnlyWhenAllowed | scripts/distribute-publisher-trac.ts:193-234 | over any history the transfers only grow; dry runs alone, or a damaged ledger, leave everything as it was, and any change takes a run that was allowed to send |
| Ledger.Progress | scripts/distribute-publisher-trac.ts:200-209 | the amount and number already on record |
| Ledger.Host.Distribute | scripts/distribute-publisher-trac.ts:193-281 | the script changes file and chain exactly as the modelled run: a dry run changes nothing, the file changes only with a transfer, and transfers are made only when the ledger loads, something is unpaid and the balance covers it |
| Ledger.Host.Pay | scripts/distribute-publisher-trac.ts:231-281 | the payment loop with its ledger writes is the modelled loop |
| CanonicalJson.StableJsonValue | devnet/_bootstrap/rfc64-evidence.ts:910-1010 | on every finite heap the copy ends, is the modelled result, and restores the ancestor set |
| CanonicalJson.RefusedIffCyclic | devnet/_bootstrap/rfc64-evidence.ts:921-926 | where only arrays, plain objects and scalars can be reached, a value is refused if and only if a cycle can be reached; sharing is accepted |
| CanonicalJson.AcceptedIff | devnet/_bootstrap/rfc64-evidence.ts:910-1010 | on any heap a value is accepted if and only if only arrays, plain objects and scalars, and no cycle, can be reached from it |
| CanonicalJson.AcceptedPathsAreSimple | devnet/_bootstrap/rfc64-evidence.ts:921-926 | no path of an accepted graph meets an ancestor or itself |
| CanonicalJson.AcceptedDenotes | devnet/_bootstrap/rfc64-evidence.ts:910-1010 | whatever is accepted denotes a finite tree |
| CanonicalJson.AcceptedIffDenoting | devnet/_bootstrap/rfc64-evidence.ts:910-1010 | on any heap a value is accepted if and only if only plain things can be reached from it and they denote a finite tree |
| CanonicalJson.CopyIsNormalForm | devnet/_bootstrap/rfc64-evidence.ts:910-1010 | the copy is the normal form of the tree that the graph denotes |
| CanonicalJson.NormalFormIff | devnet/_bootstrap/rfc64-evidence.ts:969-1007 | two trees have one normal form if and only if they are equal up to key order |
| CanonicalJson.EqualCopiesIff | devnet/_bootstrap/rfc64-evidence.ts:910-1015 | two graphs get the same copy if and only if what they denote is equal up to key order |
| CanonicalJson.CopyIsFixedPoint | devnet/_bootstrap/rfc64-evidence.ts:910-1010 | any value that denotes a copy, and from which only plain things can be reached, is accepted and copied to that same tree |
| CanonicalJson.IndicesCompare | devnet/_bootstrap/rfc64-evidence.ts:969-1012 | array indices compare by length and then by text |
| CanonicalJson.KeysComeOutSortedIff | devnet/_bootstrap/rfc64-evidence.ts:969-1012 | keys come out in text order if and only if no array index stands, in text order, behind a key that is none or behind a longer array index |
| CanonicalJson.NumericKeysAreNotSorted | devnet/_bootstrap/rfc64-evidence.ts:969-1012 | the keys 10 and 9 come out by value |
| Snapshots.Validate | devnet/_bootstrap/rfc64-evidence.ts:467-555 | accepts exactly the snapshots with strictly ordered canonical UALs, matching counts and matching digests |
| Snapshots.CreatedIsValid | devnet/_bootstrap/rfc64-evidence.ts:386-443 | a snapshot built from readable observations validates exactly when no UAL repeats and the counts are safe |
| Snapshots.Create | devnet/_bootstrap/rfc64-evidence.ts:386-443 | succeeds exactly when every observation can be read, no two have the same canonical UAL and the counts are safe; then the assets are exactly those of the observations, in UAL order, with their own counts and digests, and the totals are the number of observations and the sum of their counts |
| Snapshots.CreationIgnoresOrder | devnet/_bootstrap/rfc64-evidence.ts:386-443 | permuting the observations changes neither success nor result |
| Snapshots.PassedIff | devnet/_bootstrap/rfc64-evidence.ts:558-610 | two valid snapshots have no mismatch if and only if they are equal |
| Snapshots.MismatchesAreComplete | devnet/_bootstrap/rfc64-evidence.ts:571-604 | the mismatches are exactly the differences per UAL, each once and in UAL order |
| Snapshots.SwappedComparison | devnet/_bootstrap/rfc64-evidence.ts:558-610 | swapping the arguments swaps missing with unexpected and the two sides of every other mismatch |
| Snapshots.Compare | devnet/_bootstrap/rfc64-evidence.ts:558-610 | passes exactly on equal snapshots and otherwise lists all differences and nothing else |
| Snapshots.RetryFailures | devnet/_bootstrap/rfc64-evidence.ts:831-874 | accepted failures are a permutation of one per retried attempt and come out as attempts 1 to n - 1 in order |
| Snapshots.CreateEvidence | devnet/_bootstrap/rfc64-evidence.ts:783-907 | accepts exactly complete evidence, with every retried attempt once and in order and all differences of the snapshots, and passes exactly when the snapshots are equal and nothing failed at the end |
| Receipts.Check | devnet/rfc64-cp2-private-swm-vm-recovery/lifecycle-receipts.ts:59-132 | accepts exactly bounded, ordered, duplicate-free receipts whose every field is the expected one, and indexes them by UAL |
| Receipts.ExpectedIff | devnet/rfc64-cp2-private-swm-vm-recovery/lifecycle-receipts.ts:78-126 | the receipt equals the one made from the expectation if and only if its UAL is expected and within the limit and every other field is the expected one |
| Receipts.AcceptedCoverExpected | devnet/rfc64-cp2-private-swm-vm-recovery/lifecycle-receipts.ts:59-132 | accepted receipts name exactly the expected UALs |
| Receipts.AcceptedIff | devnet/rfc64-cp2-private-swm-vm-recovery/lifecycle-receipts.ts:59-132 | accepted if and only if the receipts are the expected ones, of all expected UALs, in strict order |
| Receipts.AcceptedListIsUnique | devnet/rfc64-cp2-private-swm-vm-recovery/lifecycle-receipts.ts:59-132 | an expectation accepts at most one list |
| Publication.WriteStableJsonArtifact | devnet/_bootstrap/rfc64-evidence.ts:1205-1279 | with a failure or power loss after any step the target holds the old bytes or exactly the new JSON; a failure before the rename leaves the target untouched and, topology intact, no temporary file; it returns exactly when no call fails, where mode and directory barrier can fail on POSIX only, and the first failing step decides how it ends |
| Publication.AlwaysSafe | devnet/_bootstrap/rfc64-evidence.ts:1228-1262 | every state on the way survives a power loss with old or new bytes, and with the old ones before the rename |
| Publication.PublishedAtEnd | devnet/_bootstrap/rfc64-evidence.ts:1256-1279 | after a normal return POSIX keeps exactly the new bytes and their entry; elsewhere the old entry may come back, whole |
| Publication.CleanUp | devnet/_bootstrap/rfc64-evidence.ts:1178-1193 | the temporary file is removed exactly when the topology is intact and the removal works |
| Subjects.ClassifyBySuffix | devnet/issue-2052-system-records/subjects.ts:76-92 | the kind of a subject depends on what follows its root only |
| Subjects.ClassifySays | devnet/issue-2052-system-records/subjects.ts:76-103 | a subject of a root is the root followed by nothing, by a numbered capability or offering, by the registration or hosting suffix, or by a suffix that begins like a key and ends in one, and its kind is that of the spelling |
| Subjects.CanonicalOwnerIsUnique | devnet/issue-2052-system-records/subjects.ts:191-196 | among canonical wallet roots a subject has one owner at most, its first 56 characters |
| Subjects.OwnersClashIff | devnet/issue-2052-system-records/subjects.ts:191-196 | two roots share a subject if and only if one is a subject of the other or continues it like a key |
| Subjects.LegacyRootsCanClash | devnet/issue-2052-system-records/subjects.ts:191-196 | for every root there is another one that shares a subject with it |
| Subjects.FindOwner | devnet/issue-2052-system-records/subjects.ts:191-196 | the first root of the list that owns the subject, and none exactly when nobody does |
| Subjects.RootAliasIsCanonical | devnet/issue-2052-system-records/subjects.ts:109-114 | every redacted root is a canonical wallet root |
| Subjects.RedactionKeepsKind | devnet/issue-2052-system-records/subjects.ts:131-140 | the alias of a subject is classified as the subject was, up to the largest safe ordinal |
| Subjects.RedactionIsInjective | devnet/issue-2052-system-records/subjects.ts:199-215 | different subjects of a root get different aliases |
| Subjects.KeyAliasesAreDense | devnet/issue-2052-system-records/extract-rdf.ts:238-249 | for every request list the keys get the aliases 1 to k, in the order in which they are first met |
| Subjects.AliasStays | devnet/issue-2052-system-records/extract-rdf.ts:240-249 | what a subject got never changes, whatever is asked for later |
| Subjects.Redactor.Redact | devnet/issue-2052-system-records/extract-rdf.ts:240-249 | the cached answer is the alias by first occurrence; a subject outside the grammar is refused and changes nothing |
| Evidence.QuadIsGoodIff | devnet/issue-2052-system-records/model.ts:1253-1313 | a redacted quad passes the quad check if and only if its row satisfies the same rules on source subjects |
| Evidence.LinksRenamed | devnet/issue-2052-system-records/model.ts:1328-1341 | the links that the validator finds among the quads are the redacted links of the rows |
| Evidence.ReferencedRenamed | devnet/issue-2052-system-records/model.ts:1252-1321 | the keys that the quads refer to are the redacted keys of the rows |
| Evidence.OwnedSize | devnet/issue-2052-system-records/model.ts:1239-1247 | redaction leaves the number of owned subjects as it was |
| Evidence.DerivedIsDense | devnet/issue-2052-system-records/model.ts:1315-1327 | within the limit on owned subjects the sorted key aliases are the dense ordinals |
| Evidence.BuiltIsGoodIff | devnet/issue-2052-system-records/model.ts:1226-1341 | for every renaming that keeps kinds, keeps names apart and numbers the keys, what is built is valid if and only if the rows are admissible |
| Evidence.RedactionRenames | devnet/issue-2052-system-records/extract-rdf.ts:237-249 | redaction is such a renaming, for every root and every list of its rows |
| Evidence.EvidenceIsGoodIff | devnet/issue-2052-system-records/extract-rdf.ts:200-336 | the validator accepts the evidence built for a root if and only if its rows keep the limits and every row is good before redaction |
| Evidence.LooseLinkIsRefused | devnet/issue-2052-system-records/model.ts:1288-1293 | for every wallet root, an agent row, a last-seen row and a link to a text are extracted and then refused |
| Evidence.BuildEvidence | devnet/issue-2052-system-records/extract-rdf.ts:221-333 | refuses exactly rows outside the grammar, rows with an IRI that cannot be written, a root without a row of its own, and keys that were not published; otherwise the redacted quads, links and keys of the distinct rows |
| Evidence.UsableIff | devnet/issue-2052-system-records/extract-rdf.ts:221-333 | the rows of a root are usable if and only if each is readable, one is about the root, and every key that a row mentions was published by the root |
| Evidence.EvidenceRedacts | devnet/issue-2052-system-records/extract-rdf.ts:237-315 | one quad per distinct row, in order, with its property, kind and size; a key is named by the number of keys named before it plus one, any other subject by the root alias and what follows the root |
| Evidence.NamesInOrder | devnet/issue-2052-system-records/extract-rdf.ts:273-311 | names are met row by row, the subject of a row before an object that is a subject of the root |
| Evidence.CheckEvidence | devnet/issue-2052-system-records/model.ts:1226-1341 | accepts exactly good evidence, stated on the evidence and as relations between subjects |
| Evidence.AcceptedIff | devnet/issue-2052-system-records/subjects.ts:22-73 | evidence is good if and only if its links are exactly the subjects the root links, its keys exactly those the quads name, numbered in order, and each quad says something allowed, relates subjects only as a root and its nested subjects or a key and its revoking root, and says so whenever the property is one of these |
| Aliases.PaddedRoundTrip | devnet/issue-2052-system-records/subjects.ts:217-226 | reading a padded ordinal gives the ordinal back |
| Aliases.SortedAliasesAreDenseIff | devnet/issue-2052-system-records/model.ts:1322-1327 | sorting k aliases, whatever their order, gives the numeric list if and only if k is at most 9999 |
| Population.CollectPopulation | devnet/issue-2052-system-records/extract-rdf.ts:338-351 | the rows give each root once, in first order, with exactly the peers that its rows name and the newest time at which one of them was seen, fresh exactly when that is since the cutoff; only a peer that is not canonical is refused |
| Population.PopulationIsDescribed | devnet/issue-2052-system-records/extract-rdf.ts:338-351 | for every row sequence a record is what the rows say of its root: its distinct peers in first order, and fresh if and only if some row saw it since the cutoff |
| Population.PopulationIsCollected | devnet/issue-2052-system-records/extract-rdf.ts:338-351 | for every row sequence roots are unique, and peers unique under them |
| Population.PeerToRoots | devnet/issue-2052-system-records/extract-rdf.ts:376-388 | every peer with exactly the roots that list it |
| Population.Derive | devnet/issue-2052-system-records/population.ts:12-41 | refuses exactly repeated roots; otherwise every count of the summary is the count of what it names |
| Population.BuildProfiles | devnet/issue-2052-system-records/extract-rdf.ts:200-336 | refuses exactly when the detail rows of an active root are not usable; otherwise one profile per active root in root order, with dense record and root aliases, sorted peer aliases, its disposition and its evidence |
| Population.CheckProfile | devnet/issue-2052-system-records/model.ts:1185-1341 | accepts exactly matching canonical aliases, sorted unique peer aliases, a peer count that fits the disposition, and good evidence |
| Population.CheckProfileSet | devnet/issue-2052-system-records/model.ts:1353-1379 | accepts exactly dense record aliases, unique roots and candidates whose peers no other profile lists |
| Population.CheckPopulation | devnet/issue-2052-system-records/model.ts:1485-1547 | accepts exactly the totals that agree with the profiles and with each other |
| Population.CandidatesAreNotShared | devnet/issue-2052-system-records/model.ts:1373-1377 | no peer of an extracted candidate is listed by another extracted profile |
| Population.KeyTotals | devnet/issue-2052-system-records/model.ts:1496-1532 | the extracted keys, and the duplicates among them, are no more than the peers, and the shared peers, of the whole population |
| Population.DerivedPopulationIsGood | devnet/issue-2052-system-records/population.ts:27-40 | the derived summary of any collected population agrees with the extracted profiles |
| Population.ExtractionIsAccepted | devnet/issue-2052-system-records/model.ts:1449-1547 | every collected population is extracted and summarised to profiles, a profile set and totals that all validators accept |
| Population.RowsAreCollected | devnet/issue-2052-system-records/extract-rdf.ts:338-351 | any row sequence gives unique roots, unique peers under them, and no more of either than rows |
| Population.AllSoundIff | devnet/issue-2052-system-records/model.ts:1168-1341 | the extracted profiles all pass the profile check if and only if the rows of every active root are admissible |
| Population.Extract | devnet/issue-2052-system-records/extract-rdf.ts:72-198 | collecting, building, deriving and validating succeed if and only if all peers are canonical and the detail rows of every active root are usable and admissible; no other check of profiles, profile set or totals can fail, and what comes out reports the rows themselves |
| Population.ExtractionReports | devnet/issue-2052-system-records/extract-rdf.ts:72-198 | read off the rows: one profile per root seen since the cutoff, in root order, each with the alias of its rank, the keys and disposition that the rows give it, and a summary whose every count is that of the rows |
| Population.AliasIsRank | devnet/issue-2052-system-records/extract-rdf.ts:200-336 | a peer alias is the rank of the peer among all peers that the rows name |
| Population.SummaryIsSaid | devnet/issue-2052-system-records/population.ts:12-41 | every count of the summary counts what the rows say, without naming the records in between |
| Population.LooseLinkStopsTheRun | devnet/issue-2052-system-records/model.ts:1288-1293 | one wallet root, seen in time, with such rows: every peer and every row is usable, and the extraction fails |
| LoadCapture.AssertLoadCapture | devnet/issue-2052-system-records/model.ts:807-947 | accepts exactly contiguous one-minute intervals whose two digests are the trusted ones and cover each field of the interval that they should |
| LoadCapture.AcceptedTilesTheWindow | devnet/issue-2052-system-records/model.ts:866-936 | interval i is minute i of a window of exactly n minutes |
| LoadCapture.AcceptedCaptureIsUnique | devnet/issue-2052-system-records/model.ts:688-731 | with an injective digest two captures accepted against one expectation are equal in every field |
| LoadCapture.HonestCaptureIsAccepted | devnet/issue-2052-system-records/model.ts:807-947 | what two honest endpoints build from any measures is accepted against the expectation they publish |
| LoadEnvelope.FloorCounts | devnet/issue-2052-system-records/model.ts:1046-1049 | a percentile reaches a floor if and only if enough values do |
| LoadEnvelope.CeilingCounts | devnet/issue-2052-system-records/model.ts:1046-1049 | a percentile stays under a ceiling if and only if enough values do |
| LoadEnvelope.PercentileSays | devnet/issue-2052-system-records/model.ts:1046-1049 | the value taken is that of which fewer than k values are smaller and k or more no larger, for k a tenth, or ninety-nine hundredths, of them rounded up |
| LoadEnvelope.RateSaysIff | devnet/issue-2052-system-records/model.ts:617-660 | a floor fails if and only if a tenth of the intervals or more miss it, a ceiling if and only if more than a hundredth break it, and the backlog gate if and only if the deltas do not sum to less than zero |
| LoadEnvelope.RecordDrainIsImplied | devnet/issue-2052-system-records/model.ts:662-673 | within the record cap, floor and ceiling the record drain deadline cannot fail |
| LoadEnvelope.ClosureDrainIsImplied | devnet/issue-2052-system-records/model.ts:665-679 | within the closure cap, floor and ceiling the closure drain deadline cannot fail |
| LoadEnvelope.NoFailureIff | devnet/issue-2052-system-records/model.ts:553-685 | no failure if and only if the caps hold, all intervals are cold and consistent, n - ceil(n/10) + 1 of them reach each floor, ceil(99n/100) stay under each ceiling, and the backlog shrinks |
| LoadEnvelope.CapFailures | devnet/issue-2052-system-records/model.ts:553-572 | exactly the caps that are exceeded or not measured |
| LoadEnvelope.RateFailures | devnet/issue-2052-system-records/model.ts:617-660 | exactly the rate gates that too few intervals meet |
| LoadEnvelope.Evaluate | devnet/issue-2052-system-records/model.ts:517-686 | throws exactly on malformed input; lists exactly the failures that caps, intervals and drain times show, each once and in the order of the gates; a drain time times the surplus of low service over high arrival is the amount, and infinite without surplus; eligible exactly when there is no failure |
| BTreeBounds.LeafBoundsAreExact | devnet/issue-2052-system-records/model.ts:446-464 | leaves of 128 to 512 rows, or one root leaf, can hold r records in k leaves if and only if k lies between the bounds |
| BTreeBounds.HeightIsLeast | devnet/issue-2052-system-records/model.ts:455-460 | the height is the least at which nodes of 256 entries reach the largest number of leaves |
| BTreeBounds.CappedLayoutsFit | devnet/issue-2052-system-records/model.ts:554-572 | however a tree within the record cap is laid out, its leaves are within the leaf cap |
| AgentChild.SplitJoins | devnet/rfc64-gate1-public-open/agent-child.ts:182-183 | splitting loses nothing and no part holds a line break |
| AgentChild.ChunksDoNotMatter | devnet/rfc64-gate1-public-open/agent-child.ts:175-211 | while the buffer stays within its bound, log, waits, settlements and remainder depend on the concatenated output only |
| AgentChild.ChunksMatter | devnet/rfc64-gate1-public-open/agent-child.ts:178-182 | a wait that is pending when the bound is first exceeded is rejected, which no reading of the concatenated output does |
| AgentChild.ChunksDoNotMatterIff | devnet/rfc64-gate1-public-open/agent-child.ts:175-211 | when some wait outlives the output, the state depends on the concatenated output only if and only if the buffer stays within its bound |
| AgentChild.BoundDependsOnChunks | devnet/rfc64-gate1-public-open/agent-child.ts:178-182 | beyond the bound the same output rejects every wait or none, depending on its chunks |
| AgentChild.SettlesAtMostOnce | devnet/rfc64-gate1-public-open/agent-child.ts:91-219 | in every run a wait is pending or settled, once, never both |
| AgentChild.SettlementsStand | devnet/rfc64-gate1-public-open/agent-child.ts:91-219 | however a run goes on, what was settled stays settled as it was |
| AgentChild.RunFaithful | devnet/rfc64-gate1-public-open/agent-child.ts:91-211 | in every run what is pending has no match in the log, and what was resolved got the first match of the whole log |
| AgentChild.EveryRunAnswers | devnet/rfc64-gate1-public-open/agent-child.ts:91-211 | in every run whatever a wait is resolved with has the expected name and, when the wait names a request, that request's id, and is the first such event of the log; what still waits has had none |
| AgentChild.FirstMatchIsEarliest | devnet/rfc64-gate1-public-open/agent-child.ts:92-93 | the first match is the earliest event of the log that matches |
| AgentChild.LineSettles | devnet/rfc64-gate1-public-open/agent-child.ts:184-209 | a line without the prefix does nothing; a payload that is no event rejects all; an event is logged, resolves exactly the waits it answers, and if it reports an error rejects all others |
| AgentChild.WaitGetsEarliestMatch | devnet/rfc64-gate1-public-open/agent-child.ts:91-211 | in a run of output and waits without errors a wait is resolved with the first event of the whole output that has its name and, if it names a request, that request's id, called before or after it, and pending exactly when there is none |
| AgentChild.Child.ConsumeStdout | devnet/rfc64-gate1-public-open/agent-child.ts:175-211 | a chunk changes buffer, log and waits exactly as modelled |
| AgentChild.Child.Dispatch | devnet/rfc64-gate1-public-open/agent-child.ts:193-202 | an event goes to the log; of the waits exactly those are resolved with it that expect its name and, if they name a request, its id, and the others stay |
| AgentChild.Find | devnet/rfc64-gate1-public-open/agent-child.ts:92-93 | the earliest event of the log that answers the wait, or none when there is none |
| AgentChild.Child.WaitFor | devnet/rfc64-gate1-public-open/agent-child.ts:91-112 | resolved at once with the first event of the log that has the expected name and, if a request is named, its id; pending when there is none |
| AgentChild.Child.Timeout | devnet/rfc64-gate1-public-open/agent-child.ts:97-102 | only the wait with that number ends, as timed out; without one nothing changes |
| AgentChild.Child.RejectAll | devnet/rfc64-gate1-public-open/agent-child.ts:213-219 | every pending wait is rejected for the reason, in order, and the log kept |
| AgentChild.Child.Request | devnet/rfc64-gate1-public-open/agent-child.ts:114-142 | an overlong command changes nothing; otherwise the wait starts before the write, anything may happen until the write reports, and a failed write then rejects whatever still waits |
| LayeredClient.EveryReachableState | bench/support/layered-dkg-client.ts:52-192 | in every reachable state records sit under their own root with only its quads, shared and verifiable roots are working roots, and finalized jobs' roots are in verifiable memory |
| LayeredClient.TerminalJobsStay | bench/support/layered-dkg-client.ts:148-166 | an ended job never changes in any run that does not clear everything |
| LayeredClient.PublishSucceedsIffMarked | bench/support/layered-dkg-client.ts:99-124 | publishing succeeds if and only if every subject has a quad with the identifier predicate |
| LayeredClient.JobEqualsPublish | bench/support/layered-dkg-client.ts:126-166 | create, enqueue and poll end in the same layers, assets and kaId as one publish, and fail with it |
| LayeredClient.PublishedIsRead | bench/support/layered-dkg-client.ts:99-124 | verifiable memory holds the published quads of every subject, in the order given, with the first identifier as marker, under the new kaId and share operation, and clearing removes the subject from shared memory |
| LayeredClient.WriteSays | bench/support/layered-dkg-client.ts:77-84 | a write makes the records of the subjects in order up to the first without a marker, each with its own quads, marker, draft number and asset name |
| LayeredClient.LiftSays | bench/support/layered-dkg-client.ts:86-97 | a missing or foreign root stops a lift: the roots before it are shared under the new number and nothing else changes |
| LayeredClient.PollSays | bench/support/layered-dkg-client.ts:148-192 | polling a queued job promotes its roots up to the first missing or foreign one; the job ends finalized when there is none and failed otherwise, and any other poll changes nothing |
| LayeredClient.Client.WriteWorkingMemory | bench/support/layered-dkg-client.ts:77-84 | writes the roots in order up to the first without a marker |
| LayeredClient.Client.LiftWorkingMemoryToSharedMemory | bench/support/layered-dkg-client.ts:86-97 | copies the roots in order, under the new number, up to the first that is missing or belongs to another context graph |
| LayeredClient.Client.CreateKnowledgeAsset | bench/support/layered-dkg-client.ts:60-75 | write, then lift, then name the roots; a failure keeps what was done before it |
| LayeredClient.Client.PublishAssertion | bench/support/layered-dkg-client.ts:99-124 | create, promote, and clear the shared roots on request |
| LayeredClient.Client.KnowledgeAssetPublishAsync | bench/support/layered-dkg-client.ts:126-146 | queues a job exactly when the asset exists and all its roots are shared |
| LayeredClient.Client.PublisherJob | bench/support/layered-dkg-client.ts:148-166 | a queued job promotes its roots once and ends finalized, or failed when a root is missing or foreign; any other job stays as it is |
| LayeredClient.Client.Clear | bench/support/layered-dkg-client.ts:52-58 | empties layers, assets and jobs and keeps the counters |
| Settle.SettleOnExpected | devnet/openclaw-persist-turn/settle.ts:93-129 | the answer is the only correct one of the trace, and there is none exactly when the trace ends too early |
| Settle.CorrectSays | devnet/openclaw-persist-turn/settle.ts:93-129 | on the clock and the values: timed out means that no read matched and the last was the first past the deadline; settled, that all reads from the first match on matched and the last was the first late enough and after enough reads; changed, that the last one differs before that |
| Settle.AnswersInTime | devnet/openclaw-persist-turn/settle.ts:107-129 | with polls a fixed time apart an answer comes within a number of reads given by deadline, quiet time and quiet reads |

## Left out

- Amounts are exact wei; the detour through floating-point TRAC amounts in the snapshot and aggregate files is not modelled.
- Chain reads are fixed functions, all providers agree on the logs, Minted logs are well formed, and retries of a single call are folded into its answer.
- The choice between event scan and direct scan, the phase-1 cache, logging and the final verification printout of the snapshot scripts.
- Ledger keys are pairs of address and amount, not their joined text; a crash in the middle of writing the ledger is a damaged file.
- RDF canonicalization, UAL parsing, SHA-256 and keccak, peer-id parsing and `localeCompare` are parameters; where a result needs it, the parameter is required to be injective, idempotent or a strict order.
- Text is compared character by character; the difference between UTF-16 code units and code points outside the basic plane is not modelled.
- Shape checks of untyped input (exact keys, types, labels, instants) and the wording of errors; JSON text itself, beyond the tree that is written.
- An event line that holds JSON other than an object, the bounded stdout and stderr tails, and the rollout, stop and restart commands of the child process.
- Population.CheckProfile: does not model the root shape, age bucket, authority, capability and bundle size of a profile, because the extractor writes constants or one of the allowed words there.
- Population.BuildProfiles: does not model these fields either; the detail rows of a root are given, and which query returned them is left out.
- Population.Extract: does not model provenance, the system-sync input and the digests, which can also stop the extraction.
- Evidence.BuildEvidence: two rows are one when their triples are equal, not when their N-Quad texts are; a literal is its written form, and one that cannot be written is left out.
- The size of a term and of a line, and the key that published material stands for, are parameters of `Evidence`.
- Percentile ranks are ceilings of exact rationals; rounding in the floating-point product of count and percentile is not modelled.
- Creating the artifact's directories, symbolic links and other processes that change the directory during publication.
- Interleaved asynchronous calls of the layered client; each call is one step. Queries by SPARQL text are left out.
- Live runners and launchers, cryptography, benchmark suites and reports.
