# A verified model of the OrderBook-rs engine

OrderBook-rs is a limit order book: price levels hold queues of resting orders, a taker sweeps
the opposite side best price first, and what it does not fill may rest. This project models the
engine in Dafny 4.11 and proves what the engine promises about it. `dafny verify dfyconfig.toml`
checks everything.

The model has three layers.

- **Functions.** `Levels`, `Stp`, `Matching` and `Engine` describe a level match, the self-trade
  decision, the unified sweep and every operation of the book as functions. Levels of a side are
  listed best first. Each operation returns the new levels, a reply and a log of effects in the
  order the engine performs them; the location index, the per-user index and the outbound feed
  are what replaying that log gives (`Effects`).
- **Theorems** about these functions: queues (`QueueLaws`), sweeps (`VisitLaws`, `SweepLaws`,
  `BudgetLaws`, `ThroughLaws`, `LotLaws`, `NotionalLaws`), the book and its runs (`SideLaws`,
  `CoreLaws`, `OpLaws`, `Runs`, `CrossLaws`, `SubmitLaws`, `ModifyLaws`, `MassCancelLaws`,
  `AdmissionLaws`, `FailureLaws`), snapshots (`Snapshots`, `SnapshotLaws`), journals (`Replays`,
  `JournalLaws`), the submit gate
  as a state machine over all interleavings (`Gate`, `GateLaws`), dry runs (`Analytics`), fees
  (`Fees`). `CornerCases`, `CrossExample`, `JournalExample` and `GateExample` hold concrete runs that show why a
  condition is needed. `Seqs` and `Arith` hold facts about sequences and arithmetic.
- **The class `OrderBook`** (module `Books`) with the fields the engine updates in place, its
  best-price cache (`Cache.PriceLevelCache`) and its loops. Every method is proved against the
  function of the same operation; `Valid` carries ordered queues, exact indexes and a cache that
  agrees with the levels. `Apply` ties each command on the object to a step of the specified run,
  so the theorems about runs hold for the object. `Ledgers` and `InPlace` hold the lemmas the
  loops need.

Central results, each for all inputs or all runs: the fill-or-kill dry run equals the sweep
(`FokExact`) and the order is all-or-nothing under every interleaving (`FillOrKillAtomic`); no run whose
orders stay matchable crosses the book (`NeverCrossed`, with the exact condition in `RestDrainsExactly`); both indexes, the consumer's
view of the book and the event numbers stay exact over every run (`RunInv`, `ReachableBook`);
submissions conserve quantity (`SubmissionConserved`); no self-trade (`NoSelfTrade`); no
trade-through for base quantities and notional buys, with the exact condition and a counterexample
for notional sells; modifies are atomic exactly when the target level has room
(`ModifyAtomicExactly`); a restored snapshot behaves as the original under every later command
stream (`RestoredRuns`); a replayed journal rebuilds the live book, up to kill switch and market
close, exactly when every command the replay skips moved nothing and every command it repeats gets
the same verdict on expiry (`ReplayExactly`, in every prevention mode).

A journal holds what the sequencer's commands can say: orders and updates without the time they
read, market orders without a user or limit, and no entry for the kill switch or the market close.
So the theorems about journals take the clock of the replay as a parameter, and other calls on the
live book count as commands without a record. They assume that the live side records every command
that has an entry, in order, and marks as rejected exactly those that returned an error.

Machine arithmetic is explicit: quantities are below 2^64, prices and notionals below 2^128, and
saturating operations are written out (`Sat64`, `Sat128`, `SatSub`). Time is a parameter of the
operations that read the clock.

Where a promise fails for some inputs, a concrete run shows it and a theorem says exactly when it
holds:

- A notional sell can trade at a worse bid while a better one holds depth, because the leftover
  notional still funds a lot there (`NotionalSellTradesThrough`, `QuoteThroughExactly`).
- A notional match whose quantity exceeds a u64 leaves trades out of its result
  (`NotionalLosesTrade`, `MatchResultLaws`).
- Where a level removes an order whose quantity is updated to zero, the ids of that order stay in
  both indexes if the level keeps other orders (`ZeroUpdateOrphans`, `ResizeExactly`).
- A modify onto a level without room is refused after the original has gone
  (`FullLevelLosesOrder`, `ModifyAtomicExactly`).
- A user's list is documented as never reordered, but a filled or withdrawn order is swapped out of
  it; cancellation by user follows the list (`FillReorders`, `AdmissionOrderExactly`).
- A record that is marked as rejected is skipped by the replay although the command, which returned
  an error, may have moved the book: a partly filled immediate order, or a taker stopped together
  with its own maker (`SkippedFillDiverges`, `SkippedCancelDiverges`, `FailureKeepsExactly`).
- The market close is not journalled, so a day order evicted at the close stays in the replayed
  book; a replay that reads a later clock refuses orders that were accepted (`CloseNotJournalled`,
  `LateReplayFails`, `KeptExactly`).
- The self-cross check of a modify can turn away an order whose sweep would not be stopped, where a
  reserve displays less than a lot (`UnevenReserveBlocks`, `ReachesWholeExactly`).
- A reserve that cannot display anything, or displays less than a lot, can cross the book
  (`DimReserveCrosses`, `UnevenReserveCrosses`, `RestDrainsExactly`).

## Model

| member | source | states |
|---|---|---|
| `Orders.ResidualConserved` | src/orderbook/modifications.rs:152-216 | For every order kind, splitting an unmatched remainder over the two tranches loses and invents nothing, and the display ends up empty exactly in the two stated cases |
| `Orders.ReserveSplit` | src/orderbook/modifications.rs:186-216 | No subtraction of the reserve split saturates; the display pays first, and it is refreshed only once nothing but hidden quantity is left |
| `Levels.MatchDraws` | src/orderbook/matching.rs:16-47 | A level match takes its executed quantity out of the drawable depth, and a remainder is left only when nothing drawable is |
| `Levels.MatchExecutes` | src/orderbook/matching.rs:16-47 | A level match executes exactly the smaller of what is asked and what is drawable; the fills carry it, and executing nothing changes nothing |
| `Levels.MatchAttributes` | src/orderbook/matching.rs:835-893 | Each maker gives up exactly the quantity of the fills that name it |
| `Levels.MatchConservesMakers` | src/orderbook/matching.rs:876-893 | Each maker is afterwards either queued or reported filled, exactly once |
| `Levels.MatchLeavesUnmatchable` | src/orderbook/matching.rs:16-47 | A match for at least the drawable depth leaves exactly the orders nobody can match, in their order |
| `Levels.TimePriority` | README.md:375-379 | Without hidden parts the i-th fill is the i-th order of the queue, for what the orders before it left over |
| `Levels.PlacesKept` | README.md:375-379 | The makers that leave are a prefix of the queue; a partly filled maker keeps its place |
| `QueueLaws.DisplayFirst` | README.md:375-379 | For any queue and either way of queueing a replenished maker again: at every moment of a match an order has been touched only if the whole display of every matchable order ahead of it has been filled |
| `QueueLaws.StopsInside` | README.md:375-379 | The exact queue after a match that stops inside a display: the partly filled maker before everything that stood behind it, replenished makers at the back only where the crate puts them there |
| `QueueLaws.UntouchedKept` | README.md:375-379 | Orders without a fill keep their content and their relative order |
| `Levels.MatchAhead` | src/orderbook/matching.rs:498-528 | A quantity of at most the display ahead of the taker's own order never reaches that order, even when makers ahead replenish |
| `Stp.CheckStpAtLevel` | src/orderbook/stp.rs:117-170 | One pass over the queue returns the action of the mode, with the saturating quantity displayed ahead of the taker's first own order |
| `VisitLaws.VisitExecutes` | src/orderbook/matching.rs:474-635 | A visited level executes the smaller of the cap and the depth this taker can reach there, its fills add up to that, and it stops the walk exactly in the two taker-cancelling cases |
| `VisitLaws.VisitForeign` | src/orderbook/matching.rs:474-607 | With prevention active a visit fills no maker of the taker's user, in all three modes |
| `VisitLaws.VisitConserves` | src/orderbook/matching.rs:474-635 | Every maker of a visited level is afterwards queued, filled or cancelled, exactly once |
| `SweepLaws.VisitsConserve` | src/orderbook/matching.rs:415-635 | Over a whole walk every maker is queued, filled or cancelled, exactly once |
| `SweepLaws.TradesSum` | src/orderbook/matching.rs:835-872 | The trades of a walk carry exactly the executed quantities, and their value is the cost of the walk |
| `SweepLaws.NoSelfTrade` | src/orderbook/matching.rs:474-607 | With prevention active no trade of any sweep pairs the taker with a maker of the same user |
| `SweepLaws.TradesOrdered` | src/orderbook/matching.rs:415-440 | Trades come best price first, within the limit, and only at walked levels |
| `SweepLaws.VisitsShown` | src/orderbook/matching.rs:864-873 | The level events of a walk leave a consumer with the visible quantity of every level, walked or not |
| `BudgetLaws.BaseAccounts` | src/orderbook/matching.rs:169-195 | Requested quantity equals remaining plus executed after every base-quantity walk |
| `BudgetLaws.QuoteAccounts` | src/orderbook/matching.rs:169-195 | Requested notional equals remaining plus the sum of price times executed after every notional walk; no subtraction saturates |
| `BudgetLaws.QuoteAccountsAt` | src/orderbook/matching.rs:169-195 | The same account holds at every level of the walk: the cap is computed from the exact rest and the level spends no more than it |
| `BudgetLaws.FokExact` | src/orderbook/matching.rs:964-1063 | For every book, side, limit, lot size, prevention mode and taker the fill-or-kill dry run returns exactly what the sweep executes |
| `BudgetLaws.QuoteExact` | src/orderbook/matching.rs:415-635 | A dry run for a notional, which only adds up affordable depth, finds exactly what the notional sweep executes |
| `ThroughLaws.BaseDrains` | src/orderbook/matching.rs:415-635 | A base-quantity walk goes past a level only after nothing there is left that this taker could draw |
| `ThroughLaws.BaseNeverThrough` | src/orderbook/matching.rs:415-635 | No base-quantity sweep trades at a level while a better walked level holds drawable depth |
| `ThroughLaws.QuoteThroughExactly` | src/orderbook/matching.rs:169-182 | A notional market walk never trades through if and only if its budget, once short of a level, buys nothing more |
| `ThroughLaws.BuysStopShort` | src/orderbook/matching.rs:169-182 | A notional buy always meets that condition while the quantity affordable at the best ask fits a u64 |
| `ThroughLaws.NotionalBuyNeverThrough` | src/orderbook/matching.rs:415-635 | Notional buys within that bound never trade through |
| `ThroughLaws.NotionalSellTradesThrough` | src/orderbook/matching.rs:169-182 | A concrete notional sell that does: 150 against bids at 100 and 30 |
| `SelfCross.NeverStopped` | src/orderbook/matching.rs:477-607 | Without a mode that stops the taker, and for post-only takers, no sweep cancels the taker |
| `SelfCross.ReachesExactly` | src/orderbook/modifications.rs:1126-1190 | A sweep that cancels the taker was announced by the self-cross check for any lot size; without lots the check rejects exactly those sweeps |
| `LotLaws.ReachesWholeExactly` | src/orderbook/modifications.rs:1126-1190 | For whole quantities and levels in whole lots the self-cross check rejects exactly the sweeps that cancel the taker, whatever the lot size |
| `CrossExample.UnevenReserveBlocks` | src/orderbook/modifications.rs:1126-1190 | Otherwise it can reject too much: a reserve that displays less than a lot, on a reachable book |
| `OpLaws.AddTradesLaws` | src/orderbook/matching.rs:843-858 | Trades are kept exactly while they fit the quantity slot; slot and kept trades always account for each other |
| `OpLaws.NormalizeKeepsAll` | src/orderbook/matching.rs:758-779 | Rebuilding a notional result keeps all trades and filled ids with nothing remaining; the fallback is never taken |
| `OpLaws.MatchResultLaws` | src/orderbook/matching.rs:676-752 | The result names every filled maker; a base-quantity result holds all trades and the exact rest; a notional one holds all trades if and only if the dry run over the book fits a u64 |
| `NotionalLaws.NotionalSucceedsExactly` | src/orderbook/matching.rs:676-752 | A notional match succeeds if and only if the dry run finds anything to trade |
| `NotionalLaws.BuysReportAll` | src/orderbook/matching.rs:758-779 | A notional buy whose amount divided by the best ask fits a u64 reports every trade |
| `NotionalLaws.CostFloor` | src/orderbook/matching.rs:169-195 | A walk costs at least its best price for every unit it executes |
| `CornerCases.NotionalLosesTrade` | src/orderbook/matching.rs:843-858 | Two asks of the largest quantity and an amount that buys one more: the second trade is missing from the result |
| `CoreLaws.MatchMoves` | src/orderbook/matching.rs:353-752 | A match keeps levels sorted and non-empty, removes exactly the makers its log names, keeps both indexes exact and announces every changed level truly |
| `CoreLaws.RestMoves` | src/orderbook/modifications.rs:1596-1676 | Resting an order keeps the levels sorted, indexes exactly that order once and announces its level truly |
| `CoreLaws.RemoveMoves` | src/orderbook/modifications.rs:779-870 | Removing an order keeps the other orders, drops an emptied level, cleans both indexes and announces the level truly |
| `CoreLaws.Found` | src/orderbook/book.rs:2714-2740 | An indexed id rests exactly once, in the level the index names, and lookup returns that order |
| `OpLaws.AddMoves` | src/orderbook/modifications.rs:1332-1716 | Every submission, admitted or refused, keeps all book invariants |
| `OpLaws.UpdateMoves` | src/orderbook/modifications.rs:273-761 | Every update that does not orphan its order keeps all book invariants |
| `OpLaws.ResizeExactly` | src/orderbook/modifications.rs:384-487 | A quantity update keeps the indexes exact if and only if it does not drop an order at zero from a level that stays |
| `CornerCases.ZeroUpdateOrphans` | src/orderbook/modifications.rs:463-474 | Two asks on one level, the first updated to zero: no registry explains the indexes afterwards |
| `OpLaws.CancelAllMoves` | src/orderbook/mass_cancel.rs:151-254 | The bulk clear keeps all book invariants and leaves nothing registered |
| `OpLaws.CancelEachMoves` | src/orderbook/mass_cancel.rs:631-660 | A batch of cancellations keeps all book invariants |
| `Effects.TracksKept` | src/orderbook/private.rs:118-175 | The per-user lists hold exactly the resting ids of each user, each once, and no empty list, under appends, retains and swap-removals |
| `Effects.SeenShown` | src/orderbook/matching.rs:864-873 | A consumer that folds the event stream holds what replaying the log of level changes gives |
| `Effects.ConsecutiveKept` | src/orderbook/book.rs:552-554 | Trade and level events together carry consecutive numbers |
| `Runs.CommitInv` | src/orderbook/matching.rs:835-899 | Any move of the book keeps index exactness, the consumer's view and the numbering |
| `Runs.StepSound` | src/orderbook/modifications.rs:779-946 | Every command keeps sorted non-empty queues and exact indexes |
| `Runs.StepInv` | src/orderbook/matching.rs:835-899 | Every command also keeps the consumer's view true and the event numbers consecutive |
| `Runs.RunInv` | src/orderbook/matching.rs:835-899 | So does every run of commands |
| `Runs.LocationsExact` | src/orderbook/modifications.rs:779-946 | An id is indexed at a price and side if and only if it rests exactly once in that queue |
| `Runs.UsersExact` | src/orderbook/private.rs:118-175 | A user's list holds exactly the ids of that user's resting orders, each once; no empty list stays |
| `Runs.ReachableBook` | src/orderbook/modifications.rs:779-946 | On every reachable book: sorted non-empty levels, exact indexes, a true consumer view and consecutive numbers |
| `Runs.CancelUserCommits` | src/orderbook/mass_cancel.rs:382-398 | Taking the user's list out of the index before cancelling its ids ends in the same book as leaving it in |
| `CrossLaws.SweepStuck` | src/orderbook/matching.rs:415-635 | A taker for whole lots left with quantity walked every level within its limit and left there only orders nobody can match |
| `CrossLaws.RestCrossesExactly` | src/orderbook/modifications.rs:1596-1676 | From an uncrossed book whose other side is in whole lots a resting order crosses it if and only if a level within its limit holds an unmatchable order |
| `CrossLaws.RestDrainsExactly` | src/orderbook/modifications.rs:1596-1676 | For every lot size and every uncrossed book a resting order leaves it uncrossed if and only if a dry run on the book before the call empties every level within its limit |
| `CrossLaws.RunCalm` | src/orderbook/modifications.rs:1467-1716 | No run whose orders stay matchable crosses the book, whatever the lot size; a reserve must hide and refresh whole lots, which admission does not check |
| `CrossLaws.NeverCrossed` | src/orderbook/modifications.rs:1467-1716 | From the empty book the best bid stays strictly below the best ask in all such runs |
| `CrossExample.DimReserveCrosses` | src/orderbook/modifications.rs:186-216 | Why orders must stay matchable: three submissions, one a reserve without replenish amount, that cross the book |
| `CrossExample.UnevenReserveCrosses` | src/orderbook/modifications.rs:1007-1040 | Why a reserve must be in whole lots: only its total is checked, and one that displays less than a lot leaves a taker resting against the next level |
| `LotLaws.CapWhole` | src/orderbook/matching.rs:169-180 | Every cap of the walk is a whole number of lots, and a whole base quantity is not rounded |
| `LotLaws.VisitInLots` | src/orderbook/matching.rs:474-635 | A visited level in whole lots executes whole lots and stays in them, under every prevention mode |
| `LotLaws.ResidualInLots` | src/orderbook/modifications.rs:152-216 | What is left of a whole order after a whole execution rests in whole lots |
| `LotLaws.RevisedInLots` | src/orderbook/modifications.rs:1007-1040 | An update of an order in whole lots that validates is in whole lots |
| `SubmitLaws.AdmittedExactly` | src/orderbook/modifications.rs:1332-1465 | An order is admitted if and only if it meets every rule: switch off, representable total, new id, known user, tick, lots, size, not expired, post-only clear of the other side, fill-or-kill filled whole by the sweep itself, room on its level when it crosses |
| `SubmitLaws.PlaceQueue` | src/orderbook/modifications.rs:1606-1640 | A new order joins the back of the queue at its price |
| `SubmitLaws.RestedOrder` | src/orderbook/modifications.rs:1596-1676 | An order that comes to rest is found with exactly its unexecuted quantity and otherwise unchanged |
| `SubmitLaws.SubmissionConserved` | src/orderbook/modifications.rs:1332-1716 | Executed plus rested equals submitted; a remainder is dropped only by an immediate order or a taker stopped by self-trade prevention; a refusal or a full level changes nothing and executes nothing |
| `SubmitLaws.FullLevelTurnsAway` | src/orderbook/modifications.rs:1411-1440 | The headroom check works: an order that meets a full level has traded nothing and changed nothing |
| `SubmitLaws.MatchReplies` | src/orderbook/modifications.rs:1467-1518 | The sweep of an admitted order is never rejected as post-only and fails only when it stops the taker |
| `ModifyLaws.ChecksSurvive` | src/orderbook/modifications.rs:300-382 | The verdicts of the checks before a modify still hold after the original is cancelled |
| `ModifyLaws.ReaddSucceedsExactly` | src/orderbook/modifications.rs:300-382 | After the checks the re-add succeeds if and only if the target level has room, and otherwise changes nothing |
| `ModifyLaws.ModifyAtomicExactly` | src/orderbook/modifications.rs:300-382 | A modify that fails its checks changes nothing; one that passes is cancel-then-add and succeeds exactly when the target level has room |
| `CornerCases.FullLevelLosesOrder` | src/orderbook/modifications.rs:488-560 | A bid moved onto a full level is refused, and is gone |
| `ModifyLaws.RejectedUpdateChangesNothing` | src/orderbook/modifications.rs:273-382 | With room at the target a rejected price, price-and-quantity or replace update leaves queues and indexes unchanged |
| `MassCancelLaws.CancelEachPurges` | src/orderbook/mass_cancel.rs:642-660 | Cancelling ids one by one removes exactly those orders and keeps the order of the others |
| `MassCancelLaws.CancelEachReports` | src/orderbook/mass_cancel.rs:642-660 | Distinct resting ids are reported one for one, in order, each with the order that rested |
| `MassCancelLaws.CancelBySideExact` | src/orderbook/mass_cancel.rs:305-318 | Cancelling a side empties it, reports its orders by ascending price and queue order, and leaves the other side alone |
| `MassCancelLaws.CancelByRangeExact` | src/orderbook/mass_cancel.rs:454-489 | Cancelling a price range removes and reports exactly the orders of the side inside it |
| `MassCancelLaws.CancelByUserExact` | src/orderbook/mass_cancel.rs:382-398 | Cancelling a user removes exactly that user's orders from both sides, reported in list order |
| `AdmissionLaws.SwapKeepsOrderExactly` | src/orderbook/private.rs:145-170 | Swapping an entry out keeps the order of the others if and only if it is one of the last two |
| `AdmissionLaws.AdmissionOrderExactly` | src/orderbook/mass_cancel.rs:334-343 | A user's list follows the order of admission throughout if and only if every fill and withdrawal takes one of its last two entries |
| `CornerCases.FillReorders` | src/orderbook/mass_cancel.rs:334-343 | Three asks of one user, the oldest filled: cancellation by user takes the youngest before the one admitted ahead of it |
| `MassCancelLaws.EvictExact` | src/orderbook/mass_cancel.rs:574-625 | Eviction removes and reports exactly the expired orders, bids before asks; a second eviction at the same time finds none |
| `MassCancelLaws.BulkRefinesOneByOne` | src/orderbook/mass_cancel.rs:151-254 | The bulk clear equals cancelling every order one by one: same orders in the same order, same queues, same location index, same and empty user index |
| `Snapshots.ConvertLevels` | src/orderbook/book.rs:3218-3248 | The loop over one side's levels computes the specified validation, sorting and repeated-price check |
| `Snapshots.FindRepeatedId` | src/orderbook/book.rs:3250-3267 | The scan with a set of seen ids finds the first id that occurs twice |
| `Snapshots.PrepareSnapshotLevels` | src/orderbook/book.rs:3215-3270 | The fallible phase computes the specified preparation without touching a book |
| `Snapshots.PrepareExactly` | src/orderbook/book.rs:3215-3270 | Preparation succeeds if and only if every level is accepted, no side repeats a price and no id occurs twice; then both sides are strictly ascending |
| `Snapshots.RestoredIndexExact` | src/orderbook/book.rs:3188-3350 | After any successful restore an id is indexed at a price and side if and only if a level there holds it, whatever the level contents |
| `SnapshotLaws.RestoredSound` | src/orderbook/book.rs:3188-3350 | Restoring any snapshot whose levels fit their side gives sorted queues and exact indexes, so every theorem about runs applies from there on |
| `SnapshotLaws.RoundTrip` | src/orderbook/book.rs:3016-3140 | A package of every level, restored into any book of the same symbol, gives back queues, indexes, configuration and next number exactly |
| `SnapshotLaws.RunsAlike` | src/orderbook/book.rs:3016-3140 | Books that differ only in past events and list order stay alike under every command stream and report the same trades with the same numbers; without cancellations by user they send the same events |
| `SnapshotLaws.RestoredRuns` | src/orderbook/book.rs:3063-3140 | So the restored book answers every later command stream as the original: same queues and indexes, same makers in the same order, same trade numbers |
| `GateLaws.ExecuteKeeps` | src/orderbook/book.rs:741-783 | Every interleaving keeps mutual exclusion and what the holder of the write side knows about the book |
| `GateLaws.FillOrKillAtomic` | src/orderbook/book.rs:741-783 | In every interleaving of per-level steps a fill-or-kill order executes its whole quantity or nothing |
| `GateLaws.SweepRefinesMatch` | src/orderbook/matching.rs:353-752 | Its level-by-level sweep ends in the state the whole match reaches from the book it started on |
| `GateExample.SharedGateSplitsTheOrder` | src/orderbook/book.rs:762-783 | With the read side instead, an interleaving in which an order for twenty executes ten |
| `Analytics.SimulateMarketOrder` | src/orderbook/book.rs:1940-2001 | The simulation loop lists the specified slices, their totals and the average of the cost it accumulates, with 128-bit products and a saturating sum |
| `Analytics.PeekMatch` | src/orderbook/matching.rs:906-951 | The peek loop returns the smaller of the quantity and the depth within the limit |
| `Analytics.MarketImpact` | src/orderbook/book.rs:1810-1910 | The impact loop reports levels consumed, worst price, slippage with its basis points, the average price and the depth of the whole side |
| `Analytics.SimulationExact` | src/orderbook/book.rs:1940-2001 | Without prevention, lots and undrawable depth, the slices are exactly what the sweep executes at each level within its limit |
| `Analytics.MarketOrderForeseen` | src/orderbook/book.rs:1940-2001 | For a market order: same per-level quantities, as many slices as levels traded at, worth exactly what the order pays, the last at the price of its last trade, same total and rest |
| `Analytics.SweepSlicesLaws` | src/orderbook/book.rs:1940-2001 | The slices of any walk: one per level traded at, worth its cost, ending at the price of the last trade |
| `Analytics.CostExact` | src/orderbook/book.rs:1968-1985 | A cost that fits 128 bits is computed exactly: no product wraps and no sum saturates |
| `Analytics.AverageBounded` | src/orderbook/book.rs:1810-1910 | Where the dearest price times the quantity fits 128 bits the reported average is the exact one and lies between the best and the worst price |
| `Analytics.CanFillExactly` | src/orderbook/market_impact.rs:92-94 | The reported depth covers the quantity if and only if the market order fills it |
| `Analytics.PeekExact` | src/orderbook/matching.rs:906-951 | Then the peeked quantity is the executed total, within any limit |
| `Analytics.PeekNeverShort` | src/orderbook/matching.rs:906-951 | In any configuration the peeked quantity is at least what the sweep executes |
| `Fees.ExactWithinLimit` | src/orderbook/fees.rs:234-256 | The fallible fee succeeds if and only if the notional is at most the largest u128 divided by the rate, and is then the mathematical fee |
| `Fees.SaturatingFee` | src/orderbook/fees.rs:167-186 | The saturating fee is the mathematical one cut off at a fixed magnitude, and exact if and only if that magnitude is not exceeded |
| `Fees.FeeMonotone` | src/orderbook/fees.rs:167-186 | The magnitude of the fee never falls as the notional grows, across the cut-off too |
| `Fees.ScheduleLimitExact` | src/orderbook/fees.rs:296-333 | The limit of a schedule is exactly the bound below which both legs are exact |
| `Fees.ClampCanBeExact` | src/orderbook/fees.rs:262-283 | A clamped fee that still is the mathematical one |
| `Cache.PriceLevelCache.constructor` | src/orderbook/cache.rs:53-60 | A new cache is void on both sides |
| `Cache.PriceLevelCache.Invalidate` | src/orderbook/cache.rs:62-66 | Invalidation voids both sides |
| `Cache.PriceLevelCache.GetCachedBestBid` | src/orderbook/cache.rs:68-79 | A hit returns the stored price, zero included; a void side misses |
| `Cache.PriceLevelCache.GetCachedBestAsk` | src/orderbook/cache.rs:81-88 | The same for asks |
| `Cache.PriceLevelCache.UpdateBestBid` | src/orderbook/cache.rs:90-103 | Refilling the bid slot never touches the ask slot; an empty side leaves it void |
| `Cache.PriceLevelCache.UpdateBestAsk` | src/orderbook/cache.rs:105-116 | The same for asks |
| `Books.OrderBook.constructor` | src/orderbook/book.rs:440-480 | A new book is empty, valid and has a void cache |
| `Books.OrderBook.BestBid` | src/orderbook/book.rs:1261-1273 | Through the cache, the best bid is the highest bid price of the live levels |
| `Books.OrderBook.BestAsk` | src/orderbook/book.rs:1279-1291 | Through the cache, the best ask is the lowest ask price of the live levels |
| `Books.OrderBook.WillCrossMarket` | src/orderbook/private.rs:64-70 | The crossing test reads the best prices through the cache and decides by the live levels |
| `Books.OrderBook.NotifyLevel` | src/orderbook/book.rs:552-554 | A level event takes the next number and changes nothing else |
| `Books.OrderBook.TrackResting` | src/orderbook/private.rs:118-125 | Indexes an order by location and owner |
| `Books.OrderBook.UntrackUserOrder` | src/orderbook/private.rs:127-143 | Drops an id from its owner's list and an emptied list |
| `Books.OrderBook.UntrackOrderById` | src/orderbook/private.rs:145-170 | Scanning the lists in any order removes the id from the one list that holds it, by swapping |
| `Books.OrderBook.CancelRestingMakerOnLevel` | src/orderbook/modifications.rs:896-946 | Cancels one maker on a level that stays in the map: queue, event, indexes |
| `Books.OrderBook.CancelOwnMakers` | src/orderbook/matching.rs:530-558 | Cancels every maker of the taker's user in queue order, with one event each |
| `Books.OrderBook.VisitInPlace` | src/orderbook/matching.rs:474-635 | Visiting a level in place does what the visit function says to the queue, the indexes and the feed |
| `Books.OrderBook.SweepInPlace` | src/orderbook/matching.rs:415-635 | The loop over the levels computes the specified walk: result, filled makers, emptied prices, flags, queues and effects |
| `Ledgers.RecordFills` | src/orderbook/matching.rs:835-893 | Recording a level's fills keeps the trades that fit and all filled ids |
| `Books.OrderBook.DropLevels` | src/orderbook/matching.rs:637-641 | The batch removal drops exactly the levels at the recorded prices |
| `Books.OrderBook.ForgetFilled` | src/orderbook/matching.rs:649-664 | The batch cleanup removes every filled maker from both indexes |
| `Books.OrderBook.MatchOrderInner` | src/orderbook/matching.rs:353-752 | The whole match in place equals the specified match, replies included, keeps the book valid and leaves the cache void |
| `Books.OrderBook.FokFillableQuantity` | src/orderbook/matching.rs:964-1063 | The feasibility loop computes the dry run |
| `Books.OrderBook.ValidateOrderShape` | src/orderbook/modifications.rs:973-1103 | The shape checks give the specified verdict while refilling the cache with true prices |
| `Books.OrderBook.CheckFields` | src/orderbook/modifications.rs:973-1060 | The checks that read only the order and the configuration give the first error in order |
| `Books.OrderBook.CheckModifyStpSelfCross` | src/orderbook/modifications.rs:1126-1190 | The self-cross loop computes the specified walk |
| `Books.OrderBook.RestInPlace` | src/orderbook/modifications.rs:1606-1676 | Resting in place equals the specified rest |
| `Books.OrderBook.FinishInPlace` | src/orderbook/modifications.rs:1497-1716 | What follows the sweep in place equals the specification, and the cache stays true |
| `Books.OrderBook.AddOrderInner` | src/orderbook/modifications.rs:1332-1716 | Admission in place equals the specified submission and keeps the book valid |
| `Books.OrderBook.AddOrder` | src/orderbook/modifications.rs:1280-1300 | A public submission is one step of the specified run and gives the specified reply |
| `Books.OrderBook.CancelOrderWithReason` | src/orderbook/modifications.rs:779-880 | Cancelling in place equals the specified cancellation and leaves the cache void |
| `Books.OrderBook.CancelOrder` | src/orderbook/modifications.rs:767-772 | A public cancellation is one step of the run and returns the order that rested |
| `Books.OrderBook.WithdrawInPlace` | src/orderbook/modifications.rs:562-617 | The cancel variant of an update equals its specification although it invalidates the cache only at the start |
| `Books.OrderBook.DropInPlace` | src/orderbook/modifications.rs:463-474 | A level that drops an order at zero cleans the indexes only when the level goes |
| `Books.OrderBook.ResizeInPlace` | src/orderbook/modifications.rs:384-487 | The quantity update in place equals its specification |
| `Books.OrderBook.ModifyInPlace` | src/orderbook/modifications.rs:488-560 | Validate, check, cancel, add: equals the specified modify |
| `Books.OrderBook.UpdateOrder` | src/orderbook/modifications.rs:273-761 | Every update in place equals its specification, keeps the cache true and the book valid unless it orphans its order |
| `Books.OrderBook.MatchOrder` | src/orderbook/book.rs:2771-2900 | Market, limit and notional matches in place are one step of the run |
| `Books.OrderBook.SubmitMarketOrder` | src/orderbook/operations.rs:378-490 | A market order by quantity or amount is refused while the kill switch is on and otherwise is one step of the run |
| `Books.OrderBook.SetKillSwitch` | src/orderbook/book.rs:599-607 | Only the flag changes |
| `Books.OrderBook.SetMarketClose` | src/orderbook/book.rs:1242-1256 | Only the close changes |
| `Books.OrderBook.CancelOrderBatch` | src/orderbook/mass_cancel.rs:642-660 | The batch loop equals the specified cancellations |
| `Books.OrderBook.CollectOrderIds` | src/orderbook/mass_cancel.rs:671-690 | The collecting loops return the selected ids by ascending price and queue order |
| `Books.OrderBook.CancelOrdersBySide` | src/orderbook/mass_cancel.rs:305-318 | One step of the run; returns every order of the side by ascending price |
| `Books.OrderBook.CancelOrdersByPriceRange` | src/orderbook/mass_cancel.rs:454-489 | One step of the run; returns the orders inside the range |
| `Books.OrderBook.CancelOrdersByUser` | src/orderbook/mass_cancel.rs:382-398 | One step of the run, though the user's list is gone while its ids are cancelled; returns the orders in list order |
| `Books.OrderBook.EvictExpiredOrders` | src/orderbook/mass_cancel.rs:574-625 | One step of the run; returns the expired orders, bids first |
| `Books.OrderBook.CancelAllOrders` | src/orderbook/mass_cancel.rs:151-254 | One step of the run: zero announcements, cleared maps; returns every id |
| `Books.OrderBook.Apply` | src/orderbook/sequencer/replay.rs:668-735 | Each command in place is one step of the specified run, returns the specified error and leaves the cache true |
| `Books.OrderBook.Replay` | src/orderbook/sequencer/replay.rs:593-653 | The replay loop in place computes the specified replay: gaps, skipped records, each command at the time its clock shows, the first failure, the end of the numbers, the last applied number; without an error it is the run of the records that were not rejected |
| `Replays.ReplaySucceeds` | src/orderbook/sequencer/replay.rs:593-653 | A replay without an error saw consecutive numbers and ends in the run of the records that were not rejected |
| `Replays.GapReported` | src/orderbook/sequencer/replay.rs:610-618 | A reported gap is the first number that does not follow |
| `Replays.EntryRoundTrip` | src/orderbook/sequencer/types.rs:29-125 | A journal entry stands for its command at the time of the replay, and every entry is the entry of a command: orders and updates lose their time; only market orders without a user and a limit have an entry, settings have none |
| `JournalLaws.KeptExactly` | src/orderbook/sequencer/replay.rs:668-735 | The replayed book follows the live one through a command, up to kill switch and close, if and only if a command that is not repeated moves nothing and a repeated one gets the same verdict on expiry from the clock and close of the replay |
| `JournalLaws.ReplayExactly` | src/orderbook/sequencer/replay.rs:593-653 | Replaying the journal of a live run succeeds and rebuilds its book at every moment, up to kill switch and close, if and only if every command is kept and no record takes the last number |
| `JournalLaws.JournalRebuildsExactly` | src/orderbook/sequencer/replay.rs:593-653 | The same from the empty book, for every configuration, prevention mode, command stream and clock |
| `JournalLaws.OnTimeRebuildsExactly` | src/orderbook/book.rs:3049-3053 | Where the replay reads the live times and no close is set, the journal rebuilds the book if and only if every command that the replay skips moved nothing: kill-switch changes need no record |
| `FailureLaws.UndisturbedExactly` | src/orderbook/matching.rs:415-635 | A dry run over reach and prevention verdicts says exactly which sweeps have no effects; those leave every level as it was, all others announce a level first |
| `FailureLaws.MatchStillExactly` | src/orderbook/matching.rs:353-752 | A match changes nothing if and only if that dry run finds nothing, for every stop condition and prevention mode |
| `FailureLaws.FailureKeepsExactly` | src/orderbook/sequencer/replay.rs:664-672 | In every prevention mode a command that fails keeps the book if and only if it was refused before its sweep or its sweep moves nothing, and for a modify if and only if it failed its checks |
| `FailureLaws.RefusedBySwitch` | src/orderbook/modifications.rs:280-294 | What the kill switch refuses fails and keeps the book |
| `JournalExample.SkippedFillDiverges` | src/orderbook/sequencer/replay.rs:664-672 | An ask and an immediate order that takes it and fails for the rest: the replay still holds the ask |
| `JournalExample.SkippedCancelDiverges` | src/orderbook/matching.rs:559-607 | Under the mode that cancels both sides, a taker stopped before it trades: the replay still holds the ask that was cancelled with it |
| `JournalExample.CloseNotJournalled` | src/orderbook/sequencer/types.rs:29-125 | The close is set, a day order rests and is evicted at the close; no command fails, but the replay knows no close and keeps the order |
| `JournalExample.LateReplayFails` | src/orderbook/sequencer/replay.rs:674-681 | An order accepted live is refused by a replay that reads a later clock |
| `Books.OrderBook.CreateSnapshotPackage` | src/orderbook/book.rs:2973-3035 | Captures the best levels up to the depth, the configuration and the next number |
| `Books.OrderBook.RebuildSide` | src/orderbook/book.rs:3321-3349 | The rebuild loops index every order of the prepared levels |
| `Books.OrderBook.CommitRestoredLevels` | src/orderbook/book.rs:3292-3350 | The infallible phase clears the book, installs the levels best first and rebuilds the indexes |
| `Books.OrderBook.RestoreFromSnapshotPackage` | src/orderbook/book.rs:3063-3140 | A failed restore changes nothing; a successful one gives the specified book, valid again when the levels fit their side |

## Left out

- The price level queue belongs to the external `pricelevel` crate; the model gives it a body. Two
  of its choices stay open as configuration: whether a replenished maker re-queues at the front or
  the back, and whether a quantity update to zero removes the order. Every theorem holds for both.
  A quantity update replaces the visible quantity; the order moves to the back only when its total grows.
- Levels.TimePriority: the closed form for queues without hidden parts; `QueueLaws.DisplayFirst` covers any queue.
- Levels.PlacesKept: the closed form for queues without hidden parts; `QueueLaws.StopsInside` covers any queue.
- A level has room for an order when the sum of all its visible and hidden quantity fits a u64; the crate's
  counters are taken as that one sum.
- Reserve orders replenish when their display is used up; a replenish threshold above zero is not modelled.
- A taker whose own id already rests (skipped by the crate) is not modelled: taker ids are fresh.
- Which level snapshots the crate accepts and the checksum function are parameters (`Codec`); round
  trips assume only that sound levels are accepted.
- Runs.StepInv: commands fit their machine types, and a quantity update to zero is excluded where
  the level drops such an order; `ResizeExactly` gives the exact condition.
- Books.OrderBook.UpdateOrder: keeps the book valid only for updates that do not orphan their order, as above.
- Analytics.SimulateMarketOrder: the average is a real number; floating-point rounding is not modelled. A product
  beyond 128 bits wraps, as it does without overflow checks.
- Analytics.MarketImpact: the same for the average and the basis points.
- SnapshotLaws.RunsAlike: cancellations by user may send their level events in another order after a
  restore, because the order of the per-user lists is rebuilt; the resulting books and all trades are still equal.
- Books.OrderBook.Replay: reading the journal, the progress callback and the trade-id namespace are not modelled.
- SelfCross.ReachesExactly: its exact half is for books without lots; `LotLaws.ReachesWholeExactly` covers lots.
- Books.OrderBook.RestoreFromSnapshotPackage: fee schedule, risk state and last trade price are outside the modelled state.
- GateLaws.FillOrKillAtomic: operations that hold the read side are modelled as arbitrary changes to the
  book at each of their steps; the restore from a bare snapshot takes no gate and is no step.
- Risk limits (also in the market order wrappers), the order lifecycle tracker, metrics, tracing and reject codes.
- Fee schedules in snapshots and in trade reports, and the last trade price.
- Repricing of pegged and trailing-stop orders.
- JSON and binary serialization, journal files, publishers, channels and book managers.
- Depth queries, iterators, statistics and the remaining floating-point analytics: they read the levels
  and no operation depends on them.
- Races inside the skip list and hash maps, memory ordering of the cache's atomic fields, pools and allocators.
- Listener callbacks that read or change the book; both listeners are installed.
