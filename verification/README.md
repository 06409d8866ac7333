# Verified models of the asset-allocation program

A Dafny model of the parts of the program whose correctness is hardest to see by reading, with
proofs about them. `dafny verify dfyconfig.toml` checks everything. Floats are modelled as `real`,
so tolerances such as 0.007 or the 99..102 band are exact constants and rounding is not modelled.

- **Endpoint updates** (`UpdateProtocol`, `UpdateSafety`, `UpdateRelease`, `UpdateVerdicts`). Any
  number of update and cancel requests run as interleaved handlers; every lock section and every
  action outside the lock is one step. Kills may fail, workers may crash, systemd may refuse, and
  systemctl calls, spawning, killing, joining and receiving may raise. Proved over every reachable
  state: at most one handler owns the job, it always finds its own job, at most one worker lives
  (apart from those that survived SIGKILL), the timer is stopped while it does, an early cancel is
  never lost, a cancel only ever kills the worker of the job it marked, and any other job is
  recorded as its worker's exit says. The server can accept another update exactly when no handler
  was abandoned by an exception, and an abandoned one blocks updates for good.
- **Label wrapping** (`LabelWrap`). The greedy wrap finds a wrap whenever one exists and no wrap has
  fewer lines, for every width measure that is monotone on runs of words.
- **Simulation** (`Drift`, `Leverage`, `LeverageLaws`). The drifting weights are the shares of a
  portfolio bought at the last rebalance and left alone; the returns compound to one factor for each
  rebalance block. Loans are conserved, margin calls land on their threshold, and every simulation
  keeps the ceiling on loan-to-value after every month exactly when the target ratio is not above
  it.
- **Allocation** (`OrderedDict`, `Positions`, `Sectors`, `SectorLaws`, `SectorMoney`, `SectorChart`,
  `Splits`, `Markets`, `MarketLists`, `SplitTrip`, `GeoSplit`, `GeoWedges`, `GeoLaws`, `GeoNames`,
  `UsShare`, `ChartMerge`). Merging portfolios or charts agrees with computing on the concatenation,
  is associative and loses no mass; the trip through the cache keeps the market shares exactly when
  it clamps evenly; the charts keep their mass up to stated bounds.
- **Stores** (`PositionKeys`, `PositionStore`, `PositionLaws`, `Constituents`, `Backends`, `Runs`,
  `CacheRows`, `CacheLaws`, `CacheRepositories`, `IsinRegistries`, `Users`, `SharedConnection`). The
  flat position table behaves like user, bucket, list; whole runs of one repository code over live
  rows and over copies are seen alike, except for the cache in one case that is characterised
  exactly; the shared connection is counted exactly, and another thread's statement can land inside
  a transaction exactly after one kind of step.
- **Curation** (`CurateRows`, `Curate`). A run that is interrupted or killed any number of times,
  while its run file is made, within a save, between a save and its bookkeeping, or around its last
  write or the removal of the run file, and then left to finish, ends with the cache of one
  undisturbed run.
- **Broker reconciliation** (`Reconcile`, `ReconcileRun`, `ReconcileLaws`, `ReconcileRows`,
  `ReconcileRuns`). After an update a broker's rows are what was fetched and other brokers' rows are
  untouched; when updating again changes nothing, when it settles later and when it adds rows for
  ever is characterised exactly.

Loops and mutable objects of the source are methods and classes here, each proved against a function
or predicate of the old state; the theorems are lemmas about those functions.

Some promises do not hold on all inputs. For each one the code is kept as it is, and the exact
condition or a concrete input is proved:

- A cancel that arrives after the post-join check may answer that it cancelled although the update
  is recorded as a success (`LateCancelMayBeLost`), and an exception in the handler after it claimed
  the job, when spawning for instance, wedges the server, which does happen
  (`AbandonedWedgesTheServer`, `ReleasableIffNotAbandoned`, `AbandonedIsReachable`).
- With a target ratio above the ceiling the leverage loop can exceed the ceiling: a margin call in
  the first month and a rise in the second are enough (`CeilingHoldsIffLtvBelow`,
  `SecondMonthOvershoots`).
- Merging sectors differs from aggregating together when one side holds a partial split table that
  is kept unscaled (`MergeAgreesIff`, `UnequalCoverageDiffers`).
- The cache clamps weights above 100 and negative weights that are no dust, which shifts the market
  shares, unless all weights that are not 0 are one and the same above 100, or none is positive
  (`SharesSurviveIff`, `TripKeepsProportionsIff`, `ClampedWeightShiftsShares`,
  `NegativeWeightShiftsShares`).
- The chart of the US share within developed markets weights each position by its whole value: it
  shows more than the regional wedges, even more than 100 percent, as soon as a position with a US
  part is not wholly developed (`ChartAgreesIff`, `ChartExceedsWhole`).
- Reading as the user "all" gives everybody's rows, which are that user's own only where nobody else
  has any (`WildcardReadsOwnIff`).
- A row whose user or bucket contains the key separator can be removed from memory but not from the
  database (`RemovalsAgreeIff`).
- Restoring a snapshot changes rows whose label or ISIN is the empty text, and closes gaps in the
  indices (`RestoreSnapshotIff`).
- Clearing cache fields with an unknown name after a present one changes live rows but not copies
  (`ClearAgreesIff`, `BackendsAgreeIff`, `RunOnBoth`).
- Closing a store inside its own `with` block, while another store keeps the connection open, leaves
  its transaction to other threads (`CloseInsideLeaksIff`, `LeakAdmitsIntrusion`,
  `NoStatementIntrudesIff`); without such a close nothing leaks (`CarefulRunsAreSafe`).
- A fetched fund that is named like a fetched cash account, and has no row under its ISIN yet, adds
  a row at every run; one that is named like an account that was not fetched has its row removed and
  appended again, and so moved behind rows appended after it once (`UpdateIsIdempotentIff`,
  `RowsGrow`, `SettlesIff`, `FundNamedLikeAccount`).

## Model

| member | source | states |
|---|---|---|
| UpdateProtocol.UpdateJobs.Claim | visual/web/backend/serve.py:957-969 | an update claims the cell only when no job is there, under a fresh id |
| UpdateProtocol.UpdateJobs.Attach | visual/web/backend/serve.py:988-993 | attaching tells whether the job was cancelled while spawning, or is no longer there |
| UpdateProtocol.UpdateJobs.MarkCancelled | visual/web/backend/serve.py:1068-1075 | marks the current job, if any, and hands out its process |
| UpdateSafety.RunKeepsInv | visual/web/backend/serve.py:950-1035 | every interleaving of update, cancel, worker and systemd steps keeps the protocol's invariant |
| UpdateSafety.MutualExclusion | visual/web/backend/serve.py:957-1031 | in every reachable state at most one handler owns the job, at most one worker that no kill has given up on lives, and the timer is stopped meanwhile |
| UpdateSafety.AttachFindsOwnJob | visual/web/backend/serve.py:988-993 | the attach step always finds the handler's own job, so its other branch is unreachable |
| UpdateSafety.CancelNeverLost | visual/web/backend/serve.py:1001-1004 | a job marked before its post-join check is never recorded as a success, and its worker does not go on living unless it survived its kill |
| UpdateSafety.KillHitsMarkedJob | visual/web/backend/serve.py:1068-1077 | however long the kill outside the lock is delayed, it terminates the worker of the job that was marked and of no later job |
| UpdateVerdicts.OutcomeTellsExit | visual/web/backend/serve.py:1001-1031 | in every reachable state the outcome of a job that was not cancelled in time fits how its worker ended, branch by branch |
| UpdateVerdicts.SuccessNeedsWorker | visual/web/backend/serve.py:1005-1021 | a success is recorded only for a worker that exited with 0 and reported success |
| UpdateVerdicts.ReadIsRecorded | visual/web/backend/serve.py:1005-1031 | what is due for the worker's exit and report is recorded by the handler's next step, and for good |
| UpdateVerdicts.CancelAnswers | visual/web/backend/serve.py:1068-1078 | a cancel answers yes exactly when the job it marked had a process, however long the kill takes |
| UpdateVerdicts.KillEndsProcess | visual/web/backend/serve.py:272-290 | a kill that takes ends the process, one that does not leaves a survivor |
| UpdateVerdicts.SpawnedIntoCancelIsKilled | visual/web/backend/serve.py:994-1000 | a worker spawned into a cancel is killed without waiting for it, and the cancel is recorded |
| UpdateVerdicts.ServiceStoppedMeanwhile | visual/web/backend/serve.py:120-130 | the service is stopped while a worker that no kill has given up on lives |
| UpdateRelease.WorkingCanRelease | visual/web/backend/serve.py:152-165 | from every reachable state a working handler can run to the end and free the cell, with the timer running again unless the units could not be stopped |
| UpdateRelease.ReleasableIffNotAbandoned | visual/web/backend/serve.py:1032-1035 | another update can ever be accepted exactly when no handler was abandoned by the blanket exception branch |
| UpdateRelease.AbandonedWedgesTheServer | visual/web/backend/serve.py:1032-1035 | after an abandoned handler no run of the server ever claims again, and the timer stays as it was, stopped if the units had been quiesced |
| UpdateRelease.AbandonedIsReachable | visual/web/backend/serve.py:970-989 | concrete runs to an abandoned handler, before quiescing with the timer left running and afterwards with the timer stopped |
| UpdateRelease.LateCancelMayBeLost | visual/web/backend/serve.py:1001-1021 | a concrete run: a cancel after the check answers yes although the update succeeds |
| LabelWrap.WordsKeepLetters | visual/web/frontend/app.js:349 | splitting into words loses nothing but white space |
| LabelWrap.WordsOfJoin | visual/web/frontend/app.js:349-356 | a line set from words splits into exactly these words again |
| LabelWrap.ClosedLineStaysAhead | visual/web/frontend/app.js:355-371 | a greedy line break is never behind the break of any other wrap |
| LabelWrap.MoreLinesNeeded | visual/web/frontend/app.js:364-366 | when the greedy lines are used up, no wrap into that many lines fits |
| LabelWrap.WideWordFitsNowhere | visual/web/frontend/app.js:361-363 | a word wider than the line admits no wrap at all |
| LabelWrap.WrapLabel | visual/web/frontend/app.js:348-380 | null exactly when no fitting wrap into at most maxLines lines exists; otherwise the lines show the words, fit, and no wrap has fewer lines |
| LabelWrap.FitWedgeLabelRestricted | visual/web/frontend/app.js:382-402 | the restricted fit picks the fewest lines that fit the ring, and gives up only when none do |
| Drift.WeightedMonthlyReturns | simulation/lombard.py:28-66 | fails only on series of different lengths; the targets are the weights in proportion and sum to 1, the weights before each month are the shares of what was bought at the last rebalance and sum to 1, the returns compound block by block, and the first one is the weighted mean of the first factors |
| Drift.DriftMonths | simulation/lombard.py:52-66 | each month's return is the growth of that holding |
| Drift.MonthKeepsShares | simulation/lombard.py:54-63 | one month of drifting, or a rebalance, keeps the weights the shares of the holding |
| Drift.DriftIsBlockwiseBuyAndHold | simulation/lombard.py:36-40 | the product of the returns is the product over rebalance blocks of the sum of target times growth; one block without rebalancing |
| Leverage.LeveragedPaths | simulation/lombard.py:72-132 | the reported capital, liability and margin calls are those of a trace of months from the opening |
| LeverageLaws.MarginCallLands | simulation/lombard.py:116-122 | a solvent margin call lands exactly on the threshold |
| LeverageLaws.LoanIsConserved | simulation/lombard.py:111-129 | principal plus bought-back loan is the opening loan after every month |
| LeverageLaws.LoanToValueIsCapped | simulation/lombard.py:111-129 | with the target not above the ceiling, loan-to-value is at most the ceiling after every month, or the portfolio is worth nothing |
| LeverageLaws.CeilingHoldsIffLtvBelow | simulation/lombard.py:82-129 | every simulation of that many years from the opening loan keeps loan-to-value at or below the ceiling after every month, or is worth nothing, exactly when the target is at most the ceiling |
| LeverageLaws.SecondMonthOvershoots | simulation/lombard.py:116-129 | with the target above the ceiling a flat month and then a rise end above the ceiling |
| LeverageLaws.ZeroIsAbsorbing | simulation/lombard.py:111-115 | once worth nothing, always worth nothing and without a loan |
| LeverageLaws.EquityLedger | simulation/lombard.py:111-129 | paydowns and restores move no equity: it changes only by returns and by what a wipe-out writes off |
| LeverageLaws.YearOfInterest | simulation/lombard.py:107-132 | a year with the same loan and rate adds that year's interest with the spread to the reported liability |
| LeverageLaws.OpeningHasLtv | simulation/lombard.py:85-88 | the opening loan has the target loan-to-value |
| Sectors.CalculateSectors | portfolio/portfolio.py:132-166 | the two nested loops compute the normalised value-weighted fractions |
| Sectors.MergedSectorUnion | portfolio/portfolio.py:242-262 | the union loop over both sides computes the value-weighted merge |
| SectorMoney.FractionsAreMoney | portfolio/portfolio.py:132-166 | a sector's fraction is the money its rows and labels put into it, over all the money accounted for; positions without rows go to "Commodities", their label or "Other" |
| SectorMoney.SectorsNamed | portfolio/portfolio.py:132-166 | every sector shown is named by a row or a label |
| SectorLaws.MergeIsConcatenation | portfolio/portfolio.py:300-312 | equally covered sides merge to exactly the sectors of all positions together, names in the same order |
| SectorLaws.MergeAgreesIff | portfolio/portfolio.py:242-262 | merging equals aggregating together exactly when the coverage is equal or the sectors are the same anyway |
| SectorLaws.UnequalCoverageDiffers | portfolio/portfolio.py:242-262 | a concrete partial table merges differently |
| SectorLaws.PlusIsConcatenation | portfolio/portfolio.py:242-249 | for non-negative values and splits summing to 100, sides worth nothing included, merging agrees with the concatenation |
| SectorLaws.PlusSound | portfolio/portfolio.py:44-57 | fractions keep summing to exactly 1 whenever the value is positive; a portfolio worth nothing is the unit of addition |
| SectorLaws.BuiltSound | portfolio/portfolio.py:132-166 | a portfolio built from non-negative positions has such fractions |
| SectorLaws.PlusAssociative | portfolio/portfolio.py:300-312 | adding portfolios is associative, down to the order of the names |
| SectorChart.RankedIsStableSort | portfolio/portfolio.py:63 | the ranking is the stable descending sort of the sectors |
| SectorChart.FilterSectorWedges | portfolio/portfolio.py:61-74 | the loop keeps the large top wedges and folds all other mass into "Other" |
| SectorChart.WedgesKeepMassIff | portfolio/portfolio.py:66-74 | the total is kept exactly when the folded mass is not negative |
| SectorChart.WedgesKeepMass | portfolio/portfolio.py:61-74 | on non-negative sectors the total is kept |
| SectorChart.WedgesAreSectors | portfolio/portfolio.py:61-74 | at most 26 wedges; each but "Other" is a sector with its own fraction of at least 0.02 |
| SectorChart.LargestAreKept | portfolio/portfolio.py:63-69 | a sector of at least 0.02 loses its name only to 25 wedges no smaller than it |
| Splits.NormalizeSplitRows | position/position.py:118-173 | negative dust is dropped and totals from 99 to 102 become exactly 100; all branches agree with that |
| Splits.CleaningDropsDust | position/position.py:118-173 | exactly the weights between -0.5 and 0 are dropped, the rest stays in order |
| Splits.NormalizingRescales | position/position.py:118-173 | cleaned totals from 99 to 102 are scaled to sum to 100, others stay |
| Splits.LaterRowCounts | storage/records.py:268-279 | of two rows of one name the later one is stored, as a hundredth of its percentage |
| Splits.CoerceSplit | storage/records.py:160-193 | the cache rejects a split exactly when a weight is implausible, and otherwise stores it clamped and snapped to 1 |
| Splits.CoercingSnaps | storage/records.py:160-193 | an accepted split is clamped to 0 and 1 and scaled to sum to 1 when it is within 0.05 of that |
| Splits.CoercedIsStable | storage/records.py:218-222 | storing again what is stored changes nothing |
| Splits.TripRejectsIff | storage/records.py:160-193 | distinct rows are rejected by the cache exactly when a weight lies outside -5 to 105 |
| Splits.TripKeepsProportionsIff | storage/records.py:160-193 | distinct rows come back scaled by one positive factor, also where the cache rescales them, exactly when all weights are within 0 to 100, or all but the zeros are one same weight above 100 up to 105 |
| Splits.TripIsIdentity | position/position.py:465-475 | rows whose total lies in the band come back unchanged |
| Markets.ComputeDevVsEmMarket | position/position.py:564-593 | the loop computes the developed share, or the stored one without rows |
| Markets.ComputeUsVsExusMarket | position/position.py:595-615 | a separate loop, with its own classification, computes the US share of the same developed part |
| Markets.OneCountry | position/position.py:564-615 | how a single developed, emerging or unknown country counts, and what stands for no rows |
| Markets.SharesAgree | position/position.py:564-615 | both shares lie in [0, 1] and multiply to the US weight over the total weight |
| MarketLists.ShippedListsAgree | position/position.py:27-66 | the shipped country lists meet what the two loops rely on |
| SplitTrip.TripKeepsShares | position/position.py:465-475 | where the clamp is even, the shares computed from rows read back from the cache are those of the live rows |
| SplitTrip.SharesSurviveIff | storage/records.py:160-193 | accepted rows keep both shares under every classification of countries exactly when the clamp is even or no weight is positive |
| SplitTrip.ClampedWeightShiftsShares | storage/records.py:175-184 | a concrete weight above 100 turns a developed share of 104/105 into 100/101 |
| SplitTrip.NegativeWeightShiftsShares | storage/records.py:175-184 | a concrete weight of -3 turns a developed share of 57/100 into 60/103 |
| GeoSplit.PartitionAndGroupLabeled | portfolio/regional_portfolio.py:60-75 | the grouping loop, labels in the order of their first position |
| GeoSplit.LabelsTellApart | portfolio/regional_portfolio.py:60-75 | positions are regional exactly when they have no label, and both kinds stay in order |
| GeoSplit.GroupsPartition | portfolio/regional_portfolio.py:60-75 | one group for each label, holding exactly the positions that carry it and their value |
| GeoWedges.AmountsPartition | portfolio/regional_portfolio.py:77-90 | the three amounts are not negative, sum to the subtotal, and the first is the value-weighted US share |
| GeoWedges.ComputeGeosplitData | portfolio/regional_portfolio.py:92-143 | the nested loops emit each region's plain wedge, small groups folded in, then its large groups by name |
| GeoNames.ChartNamesRegions | portfolio/regional_portfolio.py:107-143 | under the literal labels of the three regions stands the regional positions' money there with that of the small groups, over the total, and under each region and group name the group's, exactly when it is at least 0.007 |
| GeoNames.ChartNamesOnly | portfolio/regional_portfolio.py:107-143 | there is no other label |
| GeoWedges.BeforeIff | portfolio/regional_portfolio.py:117-120 | names are ordered by the first character in which they differ |
| GeoLaws.OrderedGroupsKept | portfolio/regional_portfolio.py:117-120 | the groups come out by name, and only those worth nothing are dropped |
| GeoLaws.ChartLosesLittle | portfolio/regional_portfolio.py:107-143 | for a positive total the wedges sum to at most 1 and more than 1 - 3 * 0.007, none is below 0.007, and there is one |
| GeoLaws.ChartHasEveryWedge | portfolio/regional_portfolio.py:127-142 | no wedge overwrites another, whatever the portfolio and its groups are called |
| GeoLaws.PartitionKeepsValue | portfolio/regional_portfolio.py:60-75 | groups and regional positions together are worth what the positions are worth |
| GeoLaws.UsAmountFromRows | portfolio/regional_portfolio.py:84-90 | for positions built from country rows the US amount is the value-weighted US weight of the rows |
| GeoLaws.DevelopedAmountFromRows | portfolio/regional_portfolio.py:84-90 | and the developed amount is the value-weighted developed weight of the rows |
| UsShare.UsWithinDeveloped | portfolio/regional_portfolio.py:152-163 | two dot products divided, nothing where nothing is developed |
| UsShare.ChartAgreesIff | portfolio/regional_portfolio.py:157-160 | the chart never shows less than the US share of the regional amounts, and the same exactly when nothing is developed or every position is worth nothing, has no US part or is wholly developed |
| UsShare.ChartExceedsWhole | portfolio/regional_portfolio.py:157-160 | a concrete position for which the chart shows 200 percent and the regional amounts 100 |
| ChartMerge.WeightedIsMix | visual/plot/chart_merge.py:66-76 | the key list and the comprehension mix both sides in proportion, left keys first |
| ChartMerge.AdditiveMerge | visual/plot/chart_merge.py:61-65 | without factors, or with different units, every wedge is the sum of both sides and there is no factor |
| ChartMerge.WeightedFactor | visual/plot/chart_merge.py:13-49 | otherwise the factor is the sum of both weights under the given unit, and the merge raises exactly when they cancel out and there are wedges |
| ChartMerge.WeightedMerge | visual/plot/chart_merge.py:66-76 | and every wedge is the mean of both sides, weighted by the factor or by the sum of the wedges |
| ChartMerge.TitlesJoin | visual/plot/chart_merge.py:78-79 | titles that are there are joined, left one first |
| ChartMerge.MergeKeepsAmounts | visual/plot/chart_merge.py:66-76 | a merge of charts of one unit keeps every label's absolute amount |
| ChartMerge.MergeAssociates | visual/plot/chart_merge.py:53-79 | merging charts of one unit is associative in data, key order, title and factor |
| ChartMerge.PlainMergeAssociates | visual/plot/chart_merge.py:61-65 | so is the additive merge of charts without factors |
| PositionKeys.DecodeEncodes | storage/records.py:615-634 | a key reads back as itself exactly when neither name contains the separator, and is refused otherwise |
| PositionKeys.KeyAsText | storage/records.py:615-618 | user, bucket and decimal index with the unit separator between them |
| PositionStore.PositionTable.Remove | storage/sqlite_storage.py:835-847 | a removal by text removes the row its key decodes to, and nothing when it does not decode |
| PositionStore.PositionRepository.GetForUser | storage/repositories.py:195-214 | one list for each bucket with rows, by index, exactly the rows the reader sees, each one once; the wildcard user sees everybody's |
| PositionStore.PositionRepository.DeleteBucket | storage/repositories.py:279-290 | exactly the user's bucket goes, and the count is the number of its rows |
| PositionStore.PositionRepository.ReorderPositions | storage/repositories.py:292-326 | refuses what is no permutation of the listed rows and changes nothing then; otherwise the bucket holds them in that order, for the wildcard user a bucket of its own with everybody's rows |
| PositionStore.PermutesIff | storage/repositories.py:301-305 | an order is accepted exactly when it has each index once |
| PositionStore.PositionRepository.BatchUpsertPositions | storage/repositories.py:328-351 | from any state the bucket holds exactly the given positions, normalised, at 0..n-1; it is left empty when a record is refused |
| PositionStore.PositionRepository.Restore | storage/repositories.py:530-557 | the user's rows are exactly the given ones, no other user's row changes, not even when it fails |
| PositionLaws.ReplacedReadsBack | storage/repositories.py:328-351 | a replaced bucket reads back as the new list, numbered from 0, and as nothing else |
| PositionLaws.ReplacedKeepsOthers | storage/repositories.py:279-351 | every other bucket, of every user, reads as before |
| PositionLaws.ReordersCompose | storage/repositories.py:292-326 | reordering twice is reordering by the composed permutation |
| PositionLaws.RestoreSnapshotIff | storage/repositories.py:526-557 | restoring a user's snapshot changes nothing exactly when indices have no gaps and no label or ISIN is the empty text |
| PositionLaws.RestoreReadsBack | storage/repositories.py:526-557 | a restore reads back as the given lists, empty buckets gone |
| PositionLaws.ReplacedContiguous | storage/repositories.py:279-351 | replacing, reordering and deleting buckets keep indices without gaps |
| PositionLaws.RestoredContiguous | storage/repositories.py:530-557 | a restore leaves no gaps, whatever was there |
| PositionLaws.StoredSettledIff | storage/repositories.py:338-349 | which inputs are stored with an empty text |
| PositionLaws.StoredSpelling | storage/repositories.py:338-349 | of two spellings the first one counts unless it is missing or empty; the rest is stored as it is |
| PositionLaws.WildcardReadsOwnIff | storage/repositories.py:209 | what the wildcard user reads is that user's own rows exactly when nobody else has any |
| PositionLaws.RemovalsAgreeIff | storage/sqlite_storage.py:835-847 | removing a row leaves the table and the memory storage alike exactly when its names keep clear of the separator |
| PositionLaws.CleanTextsDiffer | storage/records.py:615-634 | no two keys with such names have the same text |
| Constituents.ReorderConstituents | visual/web/backend/constituents.py:521-554 | a refused order leaves the store untouched; otherwise the user's rows are what the user read with that bucket reordered, for the wildcard user too |
| Constituents.DeleteConstituent | visual/web/backend/constituents.py:557-582 | an index out of range leaves the store untouched; otherwise the user's rows are what the user read without that row |
| Constituents.ReordersAgree | visual/web/backend/constituents.py:543-554 | the page's reorder through restore and the repository's own reorder leave the same table |
| Backends.RowObject.Merge | storage/records.py:89-103 | a rejected update rolls the live row back |
| Backends.Storage.Get | storage/memory_storage.py:39-40 | a live row from memory, a fresh validated copy from the database, with the same content |
| Backends.Storage.Put | storage/sqlite_storage.py:742-795 | afterwards the store says what the object says |
| Backends.Storage.Upsert | storage/sqlite_storage.py:829-835 | both kinds of storage end with the same content; a rejected update of a new key leaves an empty row |
| CacheRows.FieldsStable | storage/records.py:195-222 | validating a validated cache row changes nothing |
| CacheRows.ClearAgreesIff | storage/records.py:110-118 | clearing fields leaves live rows and copies alike exactly when no unknown name follows a present one |
| CacheRows.BackendsAgreeIff | storage/repositories.py:132-141 | a run of cache operations is observed alike on live rows and on copies exactly when no clearing in it is torn |
| CacheRepositories.CacheRepository.Stage | storage/repositories.py:81-116 | the given fields over the stored ones, or the row as it was when refused, whichever the storage |
| CacheLaws.StageSetsFields | storage/repositories.py:81-116 | accepted exactly for a price that is not negative and plausible splits; then given fields replace the stored ones, the others and all other rows stay |
| CacheLaws.QuotesSetPrices | storage/repositories.py:118-130 | every ISIN ends with its last quote before the first refused one, its splits as they were |
| CacheLaws.ClearAnswers | storage/records.py:110-118 | the fields named before an unknown name are gone, and the answer tells what happened, on live rows and on copies |
| CacheLaws.RestoreSetsRows | storage/repositories.py:153-168 | every ISIN has its last good row, or the one it had |
| CacheRepositories.CacheRepository.StageQuotes | storage/repositories.py:118-130 | quotes in order up to the first refused one; the count of those taken |
| CacheRepositories.CacheRepository.ClearFields | storage/repositories.py:132-141 | what clearing does on either kind of storage |
| CacheRepositories.CacheRepository.Restore | storage/repositories.py:153-168 | good rows replace, bad rows are skipped, and the count is of the good ones |
| CacheRepositories.CacheRepository.RunOps | storage/repositories.py:81-168 | a run of operations on the repository itself, over live row objects or over copies, shows after each of them the store and the answer that the run of pure steps shows |
| CacheRepositories.RunOnBoth | storage/repositories.py:81-168 | the same calls on a memory and on a database repository are seen alike exactly when no clearing is torn |
| IsinRegistries.IsinRegistry.RegisterIsin | storage/repositories.py:815-846 | only null fields are filled; a refused issuer leaves the store as it was on either storage |
| IsinRegistries.IsinRegistry.IncrementVisits | storage/repositories.py:798-809 | one more visit than before, one for a new row |
| IsinRegistries.RegistrationFills | storage/repositories.py:815-846 | exactly the null fields are filled with what is given; when it is refused, and that no other ISIN changes |
| IsinRegistries.CorrectionsOverwrite | storage/repositories.py:848-880 | a correction overwrites its own field, a visit counts one, nothing else changes |
| IsinRegistries.IsinRegistry.RunOps | storage/repositories.py:798-880 | a run of registrations, corrections and visits shows the same stores and answers whichever the storage |
| IsinRegistries.RunOnBoth | storage/repositories.py:798-880 | the same calls on a memory and on a database registry are seen alike, always |
| IsinRegistries.RegistrationsCombine | storage/repositories.py:815-846 | two registrations are one with the first value given for each field |
| IsinRegistries.FirstRegistrationWins | storage/repositories.py:815-846 | over any run that only registers or visits an ISIN, whatever it does to others, every field keeps the first value it was given |
| Users.UsersRepository.CheckCredentials | storage/repositories.py:603-616 | yes exactly for an existing account with that password |
| Users.SetPasswordCounts | storage/repositories.py:618-651 | a password that was set is the one accepted, and a removed account accepts none |
| Users.RunOnBoth | storage/repositories.py:584-651 | the same calls on a memory and on a database repository are seen alike, always |
| Users.AccountsAreIndependent | storage/repositories.py:584-651 | over any run an account's fate depends on the calls that name its user alone |
| Users.FirstPasswordStays | storage/repositories.py:618-630 | an account keeps its first password however often it is added again |
| CurateRows.CuratedAims | cli/curate.py:198-230 | saving both splits at once with the fallback is saving each on its own; a refused split leaves its field, a new ISIN an empty row at least |
| CurateRows.TargetSavesSplits | cli/curate.py:186-235 | the price stays, and each split is stored or, where it is empty or implausible, left as it was |
| CurateRows.CutShortAims | storage/sqlite_storage.py:829-835 | a save that is cut short anywhere leaves a row from which the same target is reached |
| CurateRows.TargetIsStable | cli/curate.py:186-235 | curating again what has been curated changes nothing |
| Curate.PushIsNoOp | cli/context.py:462-476 | pushing the in-memory copy back is a no-op as long as it mirrors the store |
| Curate.Curator.SavePosition | utils.py:56-109 | staging plus mirroring keeps the copy a mirror, also when the update is refused or cut short |
| Curate.Curator.Round | cli/curate.py:278-305 | one ISIN with its bookkeeping, stopped before, within or after its save or after its bookkeeping: it is in the store before it is listed as examined, failed and examined stay disjoint, and unless killed the run file lists exactly them |
| Curate.Curator.PrepareRunFile | cli/curate.py:238-255 | a run that cannot be resumed is refused; a stop before the run file is written leaves what was there |
| Curate.Curator.Finish | cli/curate.py:306-319 | stopped before or after the last write or the removal, the run file still tells the truth or is gone |
| Curate.Curator.RunCurate | cli/curate.py:258-329 | exit 0 means every selected ISIN was looked up and saved; exit 1 leaves exactly the failures pending in the run file; no resumed run takes an examined ISIN out of it |
| Curate.Curator.RunToCompletion | cli/curate.py:272-329 | stopped any number of times at any of these points, resumed where a run file is left, started anew where none is, and then finished, the cache is what one undisturbed run leaves |
| Curate.CompletedHistoriesAgree | cli/curate.py:258-329 | two completed histories from one cache end in the same cache |
| Reconcile.RemovalIsFiltering | scrape/scalable.py:1100-1101 | removing the first equal row for each stale row is filtering the stale rows out |
| ReconcileRun.Context.Update | scrape/scalable.py:963-1103 | an empty fetch changes nothing; otherwise the loops, the appending and the removing leave the updated portfolio, whose rows the laws below describe field by field |
| ReconcileRun.MarkBucket | scrape/traderepublic.py:323-352 | one bucket's rows are overwritten in place and its stale rows collected, unchanged |
| ReconcileLaws.OtherBrokersKept | scrape/scalable.py:987-990 | in every bucket the other brokers' rows keep content and order |
| ReconcileLaws.RowsMatchFetch | scrape/scalable.py:1017-1033 | what was not fetched has no row; what was fetched has as many as before, or one where there was none |
| ReconcileRows.RowsShowFetch | scrape/traderepublic.py:323-384 | every account row has the fetched value, no shares and no ISIN, every fund row the fetched value and shares |
| ReconcileRows.BucketRenewed | scrape/scalable.py:987-1033 | in every bucket the rows of what was not fetched go, the others stay in order with the fetched figures and otherwise as they were, and new rows come last |
| ReconcileRows.NewRows | scrape/scalable.py:1035-1085 | new rows are those of an account or of a fund that had none, with the literal defaults and in the right bucket |
| ReconcileRows.SheetTellsFetch | scrape/scalable.py:973-979 | the last fund entry of an ISIN counts, and the accounts' values stand under their keys |
| ReconcileLaws.SheetIsKeyed | scrape/scalable.py:973-980 | the funds of every fetch are keyed by ISIN |
| ReconcileLaws.SheetIsPlain | scrape/scalable.py:973-980 | a fetch only has to keep clear of the accounts' names for the two laws above to apply |
| ReconcileRuns.UpdateIsIdempotentIff | scrape/scalable.py:963-1103 | a second update with the same fetch changes nothing exactly when no fund without a row of its own is named like a fetched account, and the rows of those named like an unfetched one come last where they are appended |
| ReconcileRuns.FetchedAccountsIdempotentIff | scrape/scalable.py:963-1103 | where those accounts were fetched: exactly when every fund named like an account has a row under its ISIN |
| ReconcileRuns.UpdateIsIdempotent | scrape/scalable.py:963-1103 | with no fund named like an account a second update changes nothing |
| ReconcileRuns.SettlesIff | scrape/scalable.py:963-1103 | from the second update on nothing changes any more exactly when no fund without a row of its own is named like a fetched account |
| ReconcileRuns.RowsGrow | scrape/scalable.py:1068-1085 | every update after the first adds exactly one row for each such fund, for ever |
| ReconcileRuns.FundNamedLikeAccount | scrape/scalable.py:949-960 | a concrete fund named like the fetched cash account: one more row at every run |
| SharedConnection.Database.ConnectStore | storage/sqlite_storage.py:198-218 | an idempotent connect; a failed table gives its reference back |
| SharedConnection.Database.CloseStore | storage/sqlite_storage.py:312-323 | the connection closes exactly when its last holder lets go |
| SharedConnection.Database.ExitBlock | storage/sqlite_storage.py:341-348 | the block's transaction ends only if its store still holds the connection |
| SharedConnection.EnterBegins | storage/sqlite_storage.py:325-339 | when a block begins its own transaction, and what stays when it is refused |
| SharedConnection.ExitEnds | storage/sqlite_storage.py:341-348 | a block's end ends the transaction and lets the store's connection go; without a connection it leaves the transaction |
| SharedConnection.CommitEnds | storage/sqlite_storage.py:198-222 | a commit ends the transaction and nothing else, and so does connecting |
| SharedConnection.RunCounts | storage/sqlite_storage.py:113-160 | over every run the count equals the number of connected stores and all hold the one open connection |
| SharedConnection.StepGuardsIff | storage/sqlite_storage.py:325-348 | a step leaves a transaction open without its lock exactly when the outermost block ends with its store disconnected |
| SharedConnection.OpenIff | storage/sqlite_storage.py:325-348 | a statement can land inside another thread's transaction exactly while that transaction's thread does not hold the lock |
| SharedConnection.LeakAdmitsIntrusion | storage/sqlite_storage.py:325-348 | after a leak the next statement of every other thread lands in the transaction through every connected store, and a store that has to connect first ends it |
| SharedConnection.NoStatementIntrudesIff | storage/sqlite_storage.py:325-348 | at no point of a run can a statement land inside another thread's transaction exactly when no step of the run leaks |
| SharedConnection.CarefulRunsAreSafe | storage/sqlite_storage.py:312-348 | nothing leaks as long as no store is closed inside its own innermost block |
| SharedConnection.CloseInsideLeaksIff | storage/sqlite_storage.py:312-348 | such a close makes the outermost block's end leak exactly when another store keeps the connection open |
| SharedConnection.ClosingInsideLeaks | storage/sqlite_storage.py:325-348 | a concrete run from a closed file to a statement in another thread's transaction |

## Left out

- Rounding: all floats are reals, so the residual correction in the split coercion is 0 and infinities, NaN and non-numeric weights do not occur.
- HTTP handling, sessions, cookies, HTML and SVG rendering, drag and drop: plumbing around the modelled parts.
- Scrapers, price fetching, retries and issuer probing: a fetch is an input or an abstract function of the ISIN.
- `scrape/oskar.py`: its reconciliation leaves duplicate stale rows, so the clean laws do not apply.
- SQL text, JSON encoding, WAL and pragmas: a table is a map and every autocommitted statement a step.
- The JSON backend, migrations, config parsing, colours and the fiscal simulation.
- UpdateSafety.MutualExclusion: other actors (a person at systemctl, another server process) that start the timer behind the server's back are not modelled.
- UpdateRelease.AbandonedWedgesTheServer: exceptions before the job is claimed, or after it is cleared while answering, hold no job and are not modelled.
- UpdateRelease.ReleasableIffNotAbandoned: is about what some continuation can do; fairness of the thread scheduler is not modelled.
- LabelWrap.WrapLabel: text measurement is an abstract function that is assumed monotone on runs of words.
- Drift.WeightedMonthlyReturns: requires positive growth factors and weights with a positive sum, where the source would divide by zero or lose the meaning of a share.
- Leverage.LeveragedPaths: the unleveraged path, the returns on investment and the standard deviations are left out.
- Sectors.CalculateSectors: a position's value is always a number; the source's sum over values raises on a missing one before the loop's guard is reached.
- Splits.RowsToFractions: names are compared as they are; folding unknown sector labels into "Other" is not modelled.
- GeoLaws.ChartLosesLittle: is about the computed geosplit data; the plotted chart of a sum of portfolios is the merge of the plotted charts instead.
- PositionKeys.ParseIndex: the source's `int()` accepts more spellings of an index than the decimal digits that are written here.
- PositionStore.PositionTable.Remove: the repositories never change a row they were handed, so the live rows of the memory storage are modelled by their texts only (`RemovalsAgreeIff`).
- PositionStore.PositionRepository.Restore: values that are not lists of dictionaries, which the source skips with a warning, are excluded by the types.
- Upserting and deleting single positions: they may leave gaps in the indices and add only easy members.
- Constituents: adding a row and editing one cell go through the same restore and are not repeated.
- CacheRepositories.CacheRepository.Stage: a call without any update flag returns before it touches the store and is not modelled.
- IsinRegistries.IsinRegistry.RegisterIsin: blank names are the ASCII ones.
- The sessions repository: three columns over the same storage, with a clock.
- Users.UsersRepository.CheckCredentials: that the comparison takes the same time for every input is not modelled.
- Curate.Curator.RunCurate: the set of selected ISINs and the lookups are fixed over a chain of runs; reading a malformed or foreign run file, which is refused, and the flush of the ISIN registry are left out; listing an ISIN, dropping it from the failures and noting it as the last one is one step, so an interrupt between the two, which would list it twice, is no stop point.
- ReconcileLaws.RowsMatchFetch: assumes, like `RowsShowFetch`, that no fetched fund is named like one of the broker's accounts; `ReconcileRuns` says what happens otherwise.
- ReconcileRuns.UpdateIsIdempotentIff: assumes that a broker's two accounts have different names, and that bucket names do not repeat, being keys of a dictionary.
- ReconcileRun.Context.Update: rows use one spelling of name and broker, and quotes are not staged.
- SharedConnection.RunCounts: one database file; the lock is taken for whole operations, as the source takes it.
