# Cream bots: a verified model of the arbitrage pipeline

This project models the bots' own logic, from scanning a chain to choosing which
arbitrage paths ("arbs") to act on, and proves what that logic promises.

| part of the system | files |
|---|---|
| pool scanners that resume from their data file | `Pools.dfy`, `PoolScanner.dfy` |
| builders of the 2-pool and 3-pool path files | `PathFiles.dfy`, `TwoPoolPaths.dfy`, `TwoPoolCount.dfy`, `ThreePoolPaths.dfy`, `ThreePoolBuilder.dfy` |
| V3 liquidity snapshot fetcher | `WindowScan.dfy`, `TickLedger.dfy`, `Reordering.dfy`, `SnapshotFiles.dfy`, `LiquiditySnapshot.dfy`, `LiquidityRuns.dfy`, `SnapshotTheorems.dfy`, `SnapshotFromLogs.dfy` |
| loading the arbs into the bot | `PoolLoading.dfy`, `LoadedBot.dfy` |
| pool events, queue, consumer and processing tasks | `Pipeline.dfy` |
| from calculation results to the reported arbs | `Reduction.dfy`, `Arbitrage.dfy` |
| list comprehensions and `sorted` | `Seqs.dfy`, `StableSort.dfy` |

Loops and in-place updates of the bots are methods and classes here, each proved
equal to a function of its inputs; the theorems are lemmas about those functions.

**The fetcher.** For every pattern of failing queries the successful windows tile the
block range, so the accumulated events are the range's events, and against a provider
with a width limit the number of queries has an explicit bound. All Mints are
collected before all Burns and the sort key is (block, transaction) only, so the log
order inside a transaction is lost; `SoundReordering` shows when that is harmless. The
per-tick update is the library call `external_update`; it is taken as a trusted
definition from sections 6.3 and 6.2.4 of the Uniswap v3 Core whitepaper: gross and
net liquidity gain the delta at the lower tick, at the upper tick gross gains and net
loses it, a tick is removed when its gross liquidity is 0, and its bitmap bit flips
when gross moves between 0 and nonzero. A bitmap word is modelled as the set of its
set positions.

**Results where the code does less than one might expect.**

* That no prefix of the chain order drives any tick's gross liquidity negative is *not*
  enough for the replay order to give the same ledger: a removal at gross 0 forgets
  net liquidity, and the two orders can remove at different points
  (`GrossAloneIsNotEnough` gives four events of one transaction that do). It gives the
  same ledger exactly when, at every tick, the net liquidity that removals forget in
  chain order is what is left at the last end of a transaction without gross liquidity
  (`SoundReorderingIff`). For that it suffices that net liquidity is 0 wherever gross
  is 0 (`SoundReordering`), which the protocol guarantees, since no position's
  liquidity is ever negative (`PositionsOkIsClean`). Such events do reach the fetcher:
  the four are the rest of a protocol history whose first mint an earlier run has lost
  because the pool files did not list the pool yet (`WitnessIsReachable`).
* A window that failures have shrunk below 20 blocks never widens again, since
  `int(1.05 * span)` rounds the growth down to nothing (`SpanStuck`); from 20 blocks on
  it recovers (`SpanRecovers`).
* A pool missing from the pool files during one fetcher run loses that run's events for
  good. Its entries still end like those of a full run exactly when, at every tick, the
  lost events add up to no gross liquidity, and leave no net liquidity beyond what
  their own replay forgets unless later events empty the tick (`LatePool`). For a pool
  that has no earlier ledger this says that the lost events cancel out at every tick
  (`LateNewPool`); on an earlier ledger they need not (`LostWithoutTrace`).
* The selected set of the reduction depends on the order in which calculations
  complete, unless there is a pool-disjoint set of profitable arbs such that every
  other profitable arb conflicts with a strictly better member of it; that set is then
  what every order selects. The condition is exact (`ScheduleIndependence`,
  `DecisiveIsSelected`); distinct profits satisfy it, two arbs of equal profit that
  share a pool do not (`ScheduleMatters`).
* `load_pools` tests a pool's tokens against the blacklist of *pools*. A pool of a
  blacklisted token is loaded all the same (`UnfilteredPool`); all such pools are kept
  out exactly when every blacklisted token is on the pool blacklist too
  (`TokensFilteredIff`).
* `find_affected_arbs` is asymmetric. Its docstring says that any pool of the cycle
  triggers an arb; a pool of the path does so exactly when the arb has two pools or the
  pool does not hold W (`AffectedKinds`; `OuterPoolDoesNotTrigger` gives a triangle).
  A change of an outer pool leaves a 3-pool arb stale until another pool triggers it
  (`StaleUntilTriggered`).
* Consecutive windows of the pool scanners share a block, so pools of interior window
  boundaries are recorded twice (`ResumeCompleteness`, `BoundaryPoolTwice`); the path
  builders absorb the repeats (`RepeatsDoNotMatter`, `TriangleRepeatsDoNotMatter`).
* A Mint or Burn handler whose pool update succeeds but whose snapshot update raises
  schedules no put. The change is lost exactly when the pool is not announced at that
  moment and no later update of it succeeds (`EveryInterleaving`, `NoLostUpdate`; a
  single half update is one, `HalfUpdateIsLost`).

**Assumptions.** Pools are as the factories create them: two different tokens, an
address of "0x" and 40 digits, one record per address (a repeated record is equal), and
V2 and V3 addresses differ where a count is stated. keccak is injective. `get_logs`
queries a fixed chain in log order whose blocks up to the current height no longer
change. Event amounts are uint128 and a chain has fewer than 2^128 logs. The tick helper
works on the very dictionaries of the snapshot, as the assignment of `tick_data` and
`tick_bitmap` suggests; `CopiedUpdate` says what the closing `dict.update`
would do otherwise. `int(1.05 * span)` and `int(0.75 * span)` are the
integer floors of 21 span / 20 and 3 span / 4.

## Model

| member | source | states |
|---|---|---|
| StableSort.SortIsTheStableSort | src/cream_bots/builders/liquidity_fetcher.py:258-261 | `sorted` is pinned down: a list is its result iff it is in key order and keeps the input order within each key |
| StableSort.SortIgnoresOrder | src/cream_bots/app/core/arbitrage_service.py:171-179 | with pairwise different keys the result does not depend on the input order |
| Reduction.RemoveOverlap | src/cream_bots/app/core/arbitrage_service.py:202-223 | the destructive pop/filter/remove loop ends and selects exactly the arbs of the recursive greedy specification |
| Reduction.GreedyIsOnePass | src/cream_bots/app/core/arbitrage_service.py:202-223 | greedy selection equals a one-pass scan that keeps an arb iff it conflicts with none kept earlier |
| Reduction.GreedySnoc | src/cream_bots/app/core/arbitrage_service.py:202-223 | a worse arb never changes what is selected before it, and is selected iff it conflicts with nothing selected |
| Reduction.GreedyDisjoint | src/cream_bots/app/core/arbitrage_service.py:208-219 | selected arbs come from the list and pairwise share no pool |
| Reduction.GreedyMaximal | src/cream_bots/app/core/arbitrage_service.py:208-219 | every dropped arb conflicts with a selected arb ranked before it |
| Reduction.SelectionFacts | src/cream_bots/app/core/arbitrage_service.py:171-223 | selected arbs are profitable, pool-disjoint, and each dropped profitable arb conflicts with a selected one of at least its profit |
| Reduction.SelectionByAddress | src/cream_bots/app/core/arbitrage_service.py:202-219 | in terms of pool addresses: selected arbs share none, each dropped profitable arb shares one with a selected arb of at least its profit |
| Reduction.OneTriggerOneWinner | src/cream_bots/app/core/arbitrage_service.py:202-223 | if all arbs go through one pool, exactly the first of the list is selected |
| Reduction.GreedyBound | src/cream_bots/app/core/arbitrage_service.py:171-223 | with at most k pools per arb, k times the selected profit is at least the profit of any pairwise pool-disjoint subfamily |
| Reduction.GreedyBoundIsTight | src/cream_bots/app/core/arbitrage_service.py:202-223 | for every k >= 2 arbs of two to k pools attain the factor k: a disjoint family worth k times the selection |
| Reduction.DecisiveIsSelected | src/cream_bots/app/core/arbitrage_service.py:149-179 | a pool-disjoint set of profitable arbs, each other profitable arb conflicting with a strictly better member, is what every completion order selects |
| Reduction.ScheduleIndependence | src/cream_bots/app/core/arbitrage_service.py:149-179 | every completion order gives the same selected set iff the results have such a set |
| Reduction.DistinctProfitsSettle | src/cream_bots/app/core/arbitrage_service.py:149-179 | pairwise distinct profits make the selection independent of completion order |
| Reduction.ScheduleMatters | src/cream_bots/app/core/arbitrage_service.py:149-179 | of two arbs of equal profit that share a pool the first to complete is selected |
| Arbitrage.FindAffectedArbs | src/cream_bots/app/core/arbitrage_service.py:58-69 | returns, in order, exactly the 2-pool arbs that hold the pool and the 3-pool arbs whose middle pool it is |
| Arbitrage.IndexResults | src/cream_bots/app/core/arbitrage_service.py:188-196 | every arb's id is indexed, by the last result zipped with an arb of that id |
| Arbitrage.CollectReports | src/cream_bots/app/core/arbitrage_service.py:229-233 | each selected arb is reported with the result indexed under its id |
| Arbitrage.ProcessOnchainArbs | src/cream_bots/app/core/arbitrage_service.py:170-238 | the strict zip raises iff a profitable result has no helper; nothing is reported iff no result is profitable; otherwise exactly the greedy selection is reported, each arb with its last result |
| Arbitrage.ArbsOfComplete | src/cream_bots/app/core/arbitrage_service.py:181-192 | the helper list is as long as the result list iff every result has a helper, and is then aligned with it |
| Arbitrage.ProcessingIsSelection | src/cream_bots/app/core/arbitrage_service.py:171-196 | for results of loaded helpers the zipped lists are the helpers in completion order, ranked by their own calculated profit |
| Arbitrage.ReportsAreOwn | src/cream_bots/app/core/arbitrage_service.py:229-233 | under the load invariant each reported result is the reported arb's own and is not negative |
| Arbitrage.OneTriggerOneReport | src/cream_bots/app/core/arbitrage_service.py:58-69 | one changed pool leads to exactly one reported arb, of maximal profit, iff some affected arb has a nonnegative profit |
| TickLedger.TouchKeepsInvariants | src/cream_bots/builders/liquidity_fetcher.py:270-279 | one tick update keeps "no entry has gross 0" and "bit set iff entry" over aligned ticks |
| TickLedger.ReplayKeepsInvariants | src/cream_bots/builders/liquidity_fetcher.py:263-279 | so does every replay |
| TickLedger.SameTicksSameLedger | src/cream_bots/builders/liquidity_fetcher.py:289-292 | the tick entries determine the bitmap |
| TickLedger.ReplayCong | src/cream_bots/builders/liquidity_fetcher.py:237-247 | replay cannot tell an absent bitmap word from a stored zero word |
| TickLedger.ReplayIsSum | src/cream_bots/builders/liquidity_fetcher.py:263-279 | while every prefix is in order at a tick, the replayed entry is the plain sum of the changes |
| TickLedger.ReplayGross | src/cream_bots/builders/liquidity_fetcher.py:263-279 | the gross liquidity of a replayed tick is the plain sum in every case |
| TickLedger.ReplayEntry | src/cream_bots/builders/liquidity_fetcher.py:263-279 | in every case the replayed entry is the sum that forgets its net liquidity whenever its gross reaches 0 |
| TickLedger.FoldedCompare | src/cream_bots/builders/liquidity_fetcher.py:263-279 | a replay keeps the difference in net liquidity of two entries of equal gross, unless some event empties the tick, and then forgets it |
| TickLedger.FoldedDropped | src/cream_bots/builders/liquidity_fetcher.py:263-279 | a replayed entry is the plain sum less the net sum at the last point where the tick had no gross liquidity |
| TickLedger.NetConserved | src/cream_bots/builders/liquidity_fetcher.py:263-279 | net liquidity summed over all ticks is conserved |
| TickLedger.GrossBoundsNet | src/cream_bots/builders/liquidity_fetcher.py:263-279 | with nonnegative positions, gross bounds the absolute net of every tick |
| TickLedger.PositionsOkIsClean | src/cream_bots/builders/liquidity_fetcher.py:263-279 | nonnegative positions give, after every prefix and at every tick, gross >= 0 and net 0 wherever gross is 0 |
| TickLedger.LedgerInvariants | src/cream_bots/builders/liquidity_fetcher.py:263-292 | after any protocol history: nets sum to 0, gross is positive and bounds net, the bitmap says exactly which ticks have entries |
| TickLedger.LiquidityHeadroom | src/cream_bots/builders/liquidity_fetcher.py:244-279 | from 2^256 at tick 0, in-range liquidity stays nonnegative through every prefix of fewer than 2^128 events below 2^128 |
| Reordering.ZeroEventsAreNeutral | src/cream_bots/builders/liquidity_fetcher.py:179-180 | dropping zero-amount events changes nothing in the ledger |
| Reordering.ReplayOrderSplits | src/cream_bots/builders/liquidity_fetcher.py:258-261 | the replay order splits wherever no (block, transaction) key straddles the cut |
| Reordering.ReplayOrderOfGroup | src/cream_bots/builders/liquidity_fetcher.py:137-197 | inside one transaction the replay order is all mints, then all burns |
| Reordering.ReplayOrderByTransaction | src/cream_bots/builders/liquidity_fetcher.py:258-261 | the replay order is by block, then by transaction, and of one transaction mints before burns, each in log order |
| Reordering.ReplayOrderClean | src/cream_bots/builders/liquidity_fetcher.py:258-279 | if no prefix of the chain order is out of order at a tick (gross negative; or, strictly, net left at gross 0), no prefix of the replay order is, and both sum to the same entry |
| Reordering.SoundReordering | src/cream_bots/builders/liquidity_fetcher.py:258-279 | replaying in the fetcher's order gives the ledger of the on-chain log order, for histories that leave no net liquidity at gross 0 |
| Reordering.ReplayOrderDrops | src/cream_bots/builders/liquidity_fetcher.py:258-279 | the replay order forgets net liquidity only where a transaction of the chain ends |
| Reordering.SoundReorderingIff | src/cream_bots/builders/liquidity_fetcher.py:258-279 | for every history that drives no gross negative, the two orders give the same ledger iff chain order forgets at every tick what is left where transactions end |
| Reordering.ReplayOrderGross | src/cream_bots/builders/liquidity_fetcher.py:258-279 | if no prefix of the chain order drives a ledger entry's gross negative, no prefix of the replay order does |
| Reordering.GrossAloneIsNotEnough | src/cream_bots/builders/liquidity_fetcher.py:258-279 | four events of one transaction, with gross nonnegative at every tick after every prefix, whose two orders leave different entries |
| Reordering.WitnessIsReachable | src/cream_bots/builders/liquidity_fetcher.py:227-228 | those four events continue a mint, as a protocol history, that a run without the pool has lost |
| WindowScan.WindowsTile | src/cream_bots/builders/liquidity_fetcher.py:150-205 | for every failure pattern the successful windows are nonempty, contiguous and start at the first block (when the chain has reached it) |
| WindowScan.ExactCover | src/cream_bots/builders/liquidity_fetcher.py:150-205 | every block of a completed scan lies in exactly one window |
| WindowScan.LogsJoin | src/cream_bots/builders/liquidity_fetcher.py:153-162 | logs of adjacent windows concatenate to the logs of their union |
| WindowScan.StepUsesBound | src/cream_bots/builders/liquidity_fetcher.py:151-205 | against a provider that accepts at least the windows up to some width every query uses up part of the bound and the span stays above the floor |
| WindowScan.SpanStays | src/cream_bots/builders/liquidity_fetcher.py:161-165 | against such a provider the span never falls below min(10000, floor(3 (L + 1) / 4)) |
| WindowScan.SpanAfterQuery | src/cream_bots/builders/liquidity_fetcher.py:161-205 | a failure takes the span to floor(0.75 span), a success to floor(1.05 span) |
| WindowScan.SpanRecovers | src/cream_bots/builders/liquidity_fetcher.py:204-205 | from 20 on every success widens the span, so enough in a row take it beyond any width |
| WindowScan.SpanStuck | src/cream_bots/builders/liquidity_fetcher.py:204-205 | a span below 20 never widens again |
| WindowScan.ScanTerminates | src/cream_bots/builders/liquidity_fetcher.py:140-205 | against such a provider the loop ends within 32 + 2 * (blocks ahead / (floor + 1)) queries |
| WindowScan.AtMostOneFailure | src/cream_bots/builders/liquidity_fetcher.py:161-205 | at most one query fails between two successes, if exactly the windows up to some width are accepted |
| WindowScan.NeverEnds | src/cream_bots/builders/liquidity_fetcher.py:150-165 | when every query fails the loop does not end |
| WindowScan.EventStore.AccumulateOne | src/cream_bots/builders/liquidity_fetcher.py:167-197 | one log appends (block, transaction, (signed amount, lower tick, upper tick)) to its own pool only; a zero amount changes nothing |
| WindowScan.EventStore.Accumulate | src/cream_bots/builders/liquidity_fetcher.py:167-197 | the logs are appended pool by pool, in order |
| WindowScan.EventStore.FetchWindow | src/cream_bots/builders/liquidity_fetcher.py:161-205 | a successful window extends what is accumulated to exactly the range covered |
| WindowScan.EventStore.Query | src/cream_bots/builders/liquidity_fetcher.py:150-205 | one turn of the loop is one step of the control state, and keeps the accumulated events exact |
| WindowScan.EventStore.FetchKind | src/cream_bots/builders/liquidity_fetcher.py:140-205 | whatever fails, what one event kind's loop has accumulated is exactly the range covered, once, in chain order |
| SnapshotFiles.IntRoundTrip | src/cream_bots/builders/liquidity_fetcher.py:124-129 | `int(str(i)) == i`, negative keys included |
| SnapshotFiles.PrintedDigits | src/cream_bots/builders/liquidity_fetcher.py:294-319 | keys are written as decimal numerals |
| SnapshotFiles.SaveLoad | src/cream_bots/builders/liquidity_fetcher.py:121-131 | loading a saved snapshot gives it back, minus its zero bitmap words |
| SnapshotFiles.ReloadedReadsTheSame | src/cream_bots/builders/liquidity_fetcher.py:294-319 | a reloaded ledger reads like the saved one and keeps "bit set iff entry" |
| LiquiditySnapshot.LpHelper.ExternalUpdate | src/cream_bots/builders/liquidity_fetcher.py:270-279 | mutates the shared dictionaries by the trusted tick step; needs the in-range liquidity to stay nonnegative |
| LiquiditySnapshot.LpHelper.ReplaySorted | src/cream_bots/builders/liquidity_fetcher.py:258-279 | the loop over the sorted events replays them all, and its liquidity assertion cannot fail |
| LiquiditySnapshot.Fetcher.ReplayPool | src/cream_bots/builders/liquidity_fetcher.py:230-279 | replays into the pool's own dictionaries and touches no other pool's |
| LiquiditySnapshot.Fetcher.StoreUpdate | src/cream_bots/builders/liquidity_fetcher.py:281-292 | the closing updates leave the replayed ledger under the pool, creating the entry if missing, and nothing else changes |
| LiquiditySnapshot.Fetcher.MergePool | src/cream_bots/builders/liquidity_fetcher.py:225-292 | one turn replaces exactly one pool's ledger by the replay of its events into the previous one |
| LiquiditySnapshot.Fetcher.MergeAll | src/cream_bots/builders/liquidity_fetcher.py:225-292 | fails iff a known pool with events has an unlisted fee; otherwise every known pool is merged, whatever the order, and unknown ones are skipped |
| LiquidityRuns.HistorySplits | src/cream_bots/builders/liquidity_fetcher.py:140-144 | a pool's history splits at a block boundary and no sort key straddles it |
| LiquidityRuns.HistoryResumes | src/cream_bots/builders/liquidity_fetcher.py:140-144 | the range that a continued run scans misses and repeats none of a pool's events |
| LiquidityRuns.EntriesAreParts | src/cream_bots/builders/liquidity_fetcher.py:137-197 | the accumulated entries of a pool are the mints of its history and then the burns |
| LiquidityRuns.FetchLiquidity | src/cream_bots/builders/liquidity_fetcher.py:106-320 | the outcome of one run: which error arises when, and on success a file for the newest block that saves, for each known pool, its history of exactly the scanned range replayed into the loaded ledger |
| SnapshotTheorems.SavedRunUnique | src/cream_bots/builders/liquidity_fetcher.py:140-320 | the file of a run depends on no failure pattern |
| SnapshotTheorems.IncrementalEqualsFull | src/cream_bots/builders/liquidity_fetcher.py:106-144 | run to B1, save, load, run to B2: the same file record as one run straight to B2, for every pool both runs treat alike |
| SnapshotTheorems.RunsCompose | src/cream_bots/builders/liquidity_fetcher.py:106-320 | with the same pool files a continued run writes the file of one full run |
| SnapshotTheorems.SeriesExtends | src/cream_bots/builders/liquidity_fetcher.py:106-320 | the files that successive successful runs write are a series |
| SnapshotTheorems.AnySeriesIsOneRun | src/cream_bots/builders/liquidity_fetcher.py:106-320 | so does any series of runs |
| SnapshotTheorems.SnapshotMatchesChain | src/cream_bots/builders/liquidity_fetcher.py:106-320 | after any series of runs a known pool's loaded ledger is that of its on-chain log order and satisfies all ledger invariants |
| SnapshotFromLogs.FileGross | src/cream_bots/builders/liquidity_fetcher.py:167-320 | after any series of runs the loaded gross liquidity of a known pool's tick is the sum of +amount for each Mint and -amount for each Burn log with the tick as an end |
| SnapshotFromLogs.FileEntries | src/cream_bots/builders/liquidity_fetcher.py:167-320 | for logs that the protocol can emit the net liquidity is the same sum with upper ends negated |
| SnapshotFromLogs.FilePools | src/cream_bots/builders/liquidity_fetcher.py:225-228 | the pools of the file are the known ones with a log of nonzero amount |
| SnapshotTheorems.LatePool | src/cream_bots/builders/liquidity_fetcher.py:227-228 | a pool unknown to the first run ends with the entries of a full run iff the lost events leave no trace: no gross at any tick, and no net beyond what their replay forgets unless later events empty the tick |
| SnapshotTheorems.LateNewPool | src/cream_bots/builders/liquidity_fetcher.py:227-228 | without an earlier ledger that means that the lost events cancel out at every tick |
| SnapshotTheorems.LostWithoutTrace | src/cream_bots/builders/liquidity_fetcher.py:227-228 | with one it does not: four lost events that leave net liquidity and no trace |
| SnapshotTheorems.CopiedUpdate | src/cream_bots/builders/liquidity_fetcher.py:246-247 | had the replay worked on copies, the closing update would revive exactly the ticks it removes, and the bitmap would match only if there are none |
| PoolScanner.Scanner.Run | src/cream_bots/builders/lp_fetcher_v2.py:67-136 | a run that stops after any number of windows leaves the old records plus exactly those windows' events |
| PoolScanner.WindowsComplete | src/cream_bots/builders/lp_fetcher_v2.py:92-127 | window by window the records are exactly the pools up to the block reached, in block order, once each, or twice if the block is shared by two windows |
| PoolScanner.ReachedIs | src/cream_bots/builders/lp_fetcher_v2.py:92-101 | n windows from block i reach min(current, i + n * 10000) |
| PoolScanner.SharedIs | src/cream_bots/builders/lp_fetcher_v2.py:92-101 | the shared blocks are exactly those that start a window other than the run's first |
| PoolScanner.RunKeepsComplete | src/cream_bots/builders/lp_fetcher_v3.py:72-133 | a run keeps the records exact, for the block it reaches and the blocks it shares |
| PoolScanner.ResumeCompleteness | src/cream_bots/builders/lp_fetcher_v2.py:74-136 | after any runs, stopped anywhere, the file holds exactly the pools up to the end of the furthest completed window, twice iff the block is an interior window boundary of some run, else once |
| PoolScanner.ScanFromScratch | src/cream_bots/builders/lp_fetcher_v3.py:65-133 | after any stopped runs and one unstopped run every pool since deployment and up to the current block is recorded |
| PoolScanner.BoundaryPoolTwice | src/cream_bots/builders/lp_fetcher_v2.py:92-101 | a pool at the boundary of a run's first two windows is recorded twice |
| PathFiles.PutAllMembers | src/cream_bots/builders/arbs_2pool.py:49-75 | loading by address keeps one entry per pool, whatever the list repeats |
| PathFiles.HexInjective | src/cream_bots/builders/arbs_3pool.py:173-180 | joining fixed-width addresses is injective |
| PathFiles.HexAppend | src/cream_bots/builders/arbs_2pool.py:118-125 | the addresses are joined in path order |
| PathFiles.IdInjective | src/cream_bots/builders/arbs_2pool.py:118-125 | two different cycles never share an id |
| PathFiles.PathPools | src/cream_bots/builders/arbs_3pool.py:182-191 | an entry's dictionary has exactly the pools of its path, each under its address |
| PathFiles.FileContents | src/cream_bots/builders/arbs_3pool.py:170-213 | the file holds exactly one entry per cycle, under the cycle's own id |
| PathFiles.SameCyclesSameFile | src/cream_bots/builders/arbs_3pool.py:118-213 | the file depends on the set of cycles only |
| TwoPoolPaths.BuildIndex | src/cream_bots/builders/arbs_2pool.py:81-91 | the index lists, per token, exactly the pools that hold it, in order |
| TwoPoolPaths.BuildTwoPoolPaths | src/cream_bots/builders/arbs_2pool.py:49-145 | the indexed nested loops write exactly the specified cycles |
| TwoPoolPaths.CycleIffTwoCycle | src/cream_bots/builders/arbs_2pool.py:99-116 | a pair is emitted iff it is an ordered pair of different pools over the same {W, X} |
| TwoPoolPaths.TwoPoolFileIsComplete | src/cream_bots/builders/arbs_2pool.py:99-135 | every such pair is filed under its own id with its pools in path order |
| TwoPoolPaths.TwoPoolFileIsSound | src/cream_bots/builders/arbs_2pool.py:99-135 | every filed entry is the path of such a pair |
| TwoPoolPaths.TwoPoolFileIs | src/cream_bots/builders/arbs_2pool.py:118-135 | the file entry by entry: the hash of the joined addresses, both pools by address and the path of each pair, and nothing else |
| TwoPoolPaths.TwoCycleReverses | src/cream_bots/builders/arbs_2pool.py:99-135 | the set of pairs is closed under reversal |
| TwoPoolPaths.RepeatsDoNotMatter | src/cream_bots/builders/arbs_2pool.py:49-75 | repeating or reordering pools in the input files changes nothing |
| TwoPoolCount.TwoPoolPathCount | src/cream_bots/builders/arbs_2pool.py:99-135 | the file has the sum over X of n (n - 1) entries, n the number of W-X pools |
| ThreePoolPaths.CombinationsAreTriangles | src/cream_bots/builders/arbs_3pool.py:118-213 | over any adequate token list the loops emit exactly the pool triples W-A, A-B, B-W, in both directions |
| ThreePoolPaths.FilteredTokensAdequate | src/cream_bots/builders/arbs_3pool.py:106-115 | the degree filter on W's neighbours loses no token of any triangle |
| ThreePoolPaths.CombinationsDistinct | src/cream_bots/builders/arbs_3pool.py:118-143 | no cycle is emitted twice |
| ThreePoolPaths.CombinationsLength | src/cream_bots/builders/arbs_3pool.py:118-143 | the number of emitted cycles is the sum of 2 w(A) e(A,B) w(B) |
| ThreePoolBuilder.BuildThreePoolPaths | src/cream_bots/builders/arbs_3pool.py:53-222 | fails iff no pool holds W; otherwise the nested loops write exactly the specified cycles |
| ThreePoolBuilder.TokenOrderDoesNotMatter | src/cream_bots/builders/arbs_3pool.py:106-121 | the file is independent of neighbour order and of the degree filter |
| ThreePoolBuilder.ThreePoolFileIsComplete | src/cream_bots/builders/arbs_3pool.py:118-213 | every triangle is filed under its own id with its pools in path order |
| ThreePoolBuilder.ThreePoolFileIsSound | src/cream_bots/builders/arbs_3pool.py:118-213 | every filed entry is the path of a triangle |
| ThreePoolBuilder.ThreePoolFileIs | src/cream_bots/builders/arbs_3pool.py:170-213 | the file entry by entry: the hash of the joined addresses, the three pools by address and the path of each triangle, and nothing else |
| ThreePoolBuilder.TriangleReverses | src/cream_bots/builders/arbs_3pool.py:170-213 | the set of triangles is closed under reversal |
| ThreePoolBuilder.TriangleRepeatsDoNotMatter | src/cream_bots/builders/arbs_3pool.py:53-102 | repeating or reordering pools in the input files changes nothing |
| ThreePoolBuilder.ThreePoolPathCount | src/cream_bots/builders/arbs_3pool.py:118-213 | the file has the sum over unordered {A, B} of 2 w(A) e(A,B) w(B) entries |
| PoolLoading.BotState.LiquidityPoolData | src/cream_bots/app/core/pool_service.py:95-109 | an address is loaded iff it is not blacklisted and some record of it has neither token on the pool blacklist; its last such record is kept |
| PoolLoading.UnfilteredPool | src/cream_bots/app/core/pool_service.py:100-108 | for each blacklisted token that is not on the pool blacklist, a pool of it that is loaded |
| PoolLoading.TokensFilteredIff | src/cream_bots/app/core/pool_service.py:100-108 | all pools of blacklisted tokens are filtered out iff the token blacklist is part of the pool blacklist |
| PoolLoading.BotState.ArbPaths | src/cream_bots/app/core/pool_service.py:117-136 | keeps, in order, exactly the filed arbs whose key is not blacklisted and whose pools were all loaded |
| PoolLoading.BotState.SwapPools | src/cream_bots/app/core/pool_service.py:194-204 | the found pools are as many as the path iff every pool has a helper, and are then the path |
| PoolLoading.BotState.LoadPools | src/cream_bots/app/core/pool_service.py:95-219 | adds to `all_arbs` the helpers of the loadable filed arbs, over what was there |
| PoolLoading.HelpersAreLoadable | src/cream_bots/app/core/pool_service.py:188-214 | those are exactly the loadable filed arbs, the last one for each id, under its own id and with its pools in path order |
| PoolLoading.HelpersAvoidBlacklists | src/cream_bots/app/core/pool_service.py:100-135 | a loaded helper comes from a filed arb whose key and id are not blacklisted; no pool of it is blacklisted, and each has a helper and a record with neither token on the pool blacklist |
| PoolLoading.AllowedAreLoaded | src/cream_bots/app/core/pool_service.py:188-214 | every filed arb that meets these conditions is loaded |
| PoolLoading.HelpersKeyed | src/cream_bots/app/core/pool_service.py:206-214 | every helper sits under its own id |
| LoadedBot.LoadedHelpers | src/cream_bots/app/core/pool_service.py:188-214 | every loaded helper is a closed walk through W from a builder's file whose pools survived filtering and have helpers |
| LoadedBot.AffectedKinds | src/cream_bots/app/core/arbitrage_service.py:60-67 | a pool affects a helper iff it is on its path and the helper has two pools or the pool does not hold W; so a pool that holds W affects only 2-pool arbs, any other pool only 3-pool arbs |
| LoadedBot.OuterPoolDoesNotTrigger | src/cream_bots/app/core/arbitrage_service.py:65-67 | a triangle and an outer pool of it that does not affect it |
| LoadedBot.OneChangedPool | src/cream_bots/app/core/arbitrage_service.py:84-104 | end to end for one consumed address of a loaded bot: no zip error, and exactly one arb, of maximal profit, is selected iff some affected arb has a nonnegative profit |
| LoadedBot.HelperSize | src/cream_bots/builders/arbs_3pool.py:188-190 | every helper has two or three pools, so at most three different ones |
| LoadedBot.LoadedBound | src/cream_bots/app/core/arbitrage_service.py:171-223 | for loaded helpers no pool-disjoint profitable family is worth more than three times the selection |
| Pipeline.StepKeepsInv | src/cream_bots/app/core/event_service.py:213-257 | every step of handlers, puts, consumer and tasks keeps updates = pending + queued + consumed |
| Pipeline.EveryInterleaving | src/cream_bots/app/core/event_service.py:303-317 | in every reachable state updates = pending + queued + consumed, and a pool is scanned at its latest version or announced iff it was not lost: half updated while unannounced and not updated since |
| Pipeline.NoLostUpdate | src/cream_bots/app/core/arbitrage_service.py:84-104 | once nothing is in flight a pool is scanned at its latest version iff it was not lost, and then every arb it affects was calculated at that version |
| Pipeline.HalfUpdateIsLost | src/cream_bots/app/core/event_service.py:189-211 | a single half update leaves nothing in flight and the pool behind |
| Pipeline.StaleIffChangedSince | src/cream_bots/app/core/arbitrage_service.py:130-139 | in every reachable state an arb was calculated at the latest version of a pool of its path iff no change of it came after the arb's last calculation |
| Pipeline.StaleUntilTriggered | src/cream_bots/app/core/arbitrage_service.py:58-69 | until a pool that affects an arb is updated, every change of a pool of its path leaves it stale |
| Pipeline.SomethingToDo | src/cream_bots/app/core/arbitrage_service.py:84-104 | while something is in flight some step other than an event is possible |
| Pipeline.FirstInFirstOut | src/cream_bots/app/core/arbitrage_service.py:84-90 | whatever is interleaved, the consumer takes what was queued first and then what the puts add, in that order |
| Pipeline.ScannedInTurn | src/cream_bots/app/core/arbitrage_service.py:84-90 | the address at position i is scanned by the consumer's step number i + 1, at the version it then has |
| Pipeline.RunKeepsOrder | src/cream_bots/app/core/arbitrage_service.py:128-139 | in every reachable state what a task has still to calculate is the end of the list that one pool affects |
| Pipeline.SchedulesEnd | src/cream_bots/app/core/arbitrage_service.py:84-104 | without new events every schedule ends, within an explicit number of steps |

## Left out

- FetchLiquidity: the retry loops are cut off after a given number of queries and the outcome is then Unfinished, because the code's loop need not end when single-block queries keep failing (NeverEnds); ScanTerminates gives a sufficient number.
- FetchLiquidity: one chain only. With several chains the loop variable `lp` keeps the last pool of an earlier chain, so the NameError modelled as NoPoolLoaded is that of the first chain. A pool file that is missing ends the whole run before anything is fetched.
- FetchLiquidity: a snapshot file that does not parse counts as no file.
- LpHelper.ExternalUpdate: the library's block stamps on the helper and on tick and bitmap records are not modelled, nor its locks and its log of past states.
- AnySeriesIsOneRun: for pool files that do not change between the runs; for files that do, see IncrementalEqualsFull and LatePool, pool by pool.
- AtMostOneFailure: for providers that accept exactly the windows up to some width; ScanTerminates needs only that these are accepted.
- Scanner.Run: the stop signal is a number of windows after which it is seen; a signal in the middle of a window is seen before the next one. V2 and V3 share the model; V2's fee, pool id and exchange fields are carried along only.
- BuildThreePoolPaths: an edge carries its pool record itself instead of the address and type by which the code looks the record up again; the token lists come out in first-edge order, which TokenOrderDoesNotMatter makes irrelevant. The constant `arb_types` field of a path is omitted.
- LoadPools: the token set computed only for a log line, the wait for the first event and the creation of pool helpers are left out, the last of these being a given set of addresses.
- ProcessOnchainArbs: the reduction in `process_backrun_arbs` (src/cream_bots/app/core/arbitrage_service.py:348-399) is the same code and is not repeated; failed calculations are simply absent from the results.
- EveryInterleaving: a processing task's calculations are steps of their own, its final reduction is the separate theorem OneTriggerOneReport. Events of unknown pools, events with amount 0 and pool updates that raise change nothing and are no steps; removing a pool from its manager after a failed assertion is left out.
- The profit calculation, swap mathematics, pool managers and live snapshot of the degenbot library: profits are given integers.
- Redis, web3, websocket, HTTP, file handles, argument parsing, logging, ABI decoding and address checksums.
- Exchange, anvil, aggregator, blacklist and bootstrap services, the callback and sniper bots and configuration: registration and wiring with only easy claims.
- Chain reorganisations, a kill in the middle of a file write, and cancelled tasks.
- The handover from the saved snapshot to live events, which depends on when the subscription starts and on library fetching.
