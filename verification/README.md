# Verified model of the trading engine's accounting, streaming and protocol code

This project models the parts of the IB trading repository whose correctness no single test can settle, and proves
what they are for. `dafny verify dfyconfig.toml` checks all of it.

**Futures P&L.** A fill is matched against a stack of signed lots, newest first (`LotMatching`), while the broker
carries one average cost (`AverageCost`). Every fill satisfies one identity under both methods: realized P&L is the
cash of the fill plus the change of the position's basis. From it follow the header's claims: round trips total the
same, only the split between realized and open differs (`LifoGuarantees`). `SeedSolver` shows that the cost of a
position older than the visible history enters the walk affinely, so that the solver recovers exactly the cost that
reproduces the broker's numbers. `ShareStack` is an independent reference, a stack of single shares, which block
matching of whole lots refines; `JoinedLots` is a second one for fractions too, a stack in which adjacent lots of one
cost are joined; `FillPartitions` draws the consequence for whole walks. `LifoPnl` and `PnlRollup` put the pieces
together up to the published 24 h and session figures; `RowAccounting` and `RollupFigures` say what these come to on
the execution rows alone.

**Streams.** `BarAggregation` proves the incremental bar builder equal to grouping by slot and folding, over any split
into calls, crash and replay, and `BarContents` says of which raw bars a bar consists. `SwingPoints`, `CloseTrend` and
`Sawtooth` prove that detection over the whole frame with trimmed lists never looks ahead, and what every output means.
`ExecAccumulator` and `ExecMarkers` treat the execution store and the chart markers; `MergedFields` and `OrderMarkers`
state what they hold on the executions alone.

**Protocols.** `BotLifecycle` has the lifecycle handlers as methods on the persisted document; `ExitCycle` follows one
exit over any sequence of fill reports; `BotInterleavings` is the transition system of racing order pipelines,
handlers, and writers that store the whole document without the state lock. `WsChannels`, `WsReplica` and `WsProtocol`
are the diff channel: the diffs, an ideal client that applies them, and the dirty set, listener and refresh steps in
every interleaving, lost announcements included.

**Pricing and tags.** `Pricing` covers the reprice ladder and profit takers, `OrderRef` the order tags.

Money and quantities are exact reals, times are integer microseconds, texts are sequences of characters. A method that
follows imperative source is proved equal to a specification function, and the lemmas are about that function.

Where the code does not keep what its documentation says, the code is modelled, and the exact condition proved:

- "A fill seen once keeps its corrected time" (`exec_accumulator.py`): it does exactly while that time is in the window
  (`ExecAccumulator.FrozenWhileInWindow`); `CorrectedTimeIsLost` is the run that then stores the uncorrected time.
- Merging one batch again is not idempotent: `ExecAccumulator.SettlesExactly` states exactly which of the first three
  merges still change something. `UnpairedIsLate` is the usual case of two, `RepeatedIdNeedsThree` a case of three.
- A closed trade's recorded P&L is that of the final order alone, and zero without a positive entry price.
  `ExitCycle.RecordedExactly` says exactly when it is that of the whole exit; `RetriedExitMisreports` and
  `UnpricedEntryRecordsNothing` are exits for which it is not.
- The rules of the bot's states are kept by every step that takes the state lock. Some writers do not take it: they read
  the whole document and later, one of them after waiting for the broker, write it back whole with the state they read.
  `BotInterleavings` has the exact conditions. The placements less the steps out of an order-placed state are the
  orders in flight exactly when no such write entered that state (`RunsAreSafe`; `PositionWriteEnters` is a run, and
  `PositionWriteAdmitsSecond` one in which such a write leaves the state and admits a second exit). "Off means clean for
  a start" holds over a run exactly when no such write stores an unclean off document (`OffIsCleanExactly`;
  `LateWriteKeepsClean` is the condition for the bookkeeping after an entry fill, `StopBeforeBookkeeping` a run).
- A stopped or failed bot stays so, without a start, exactly until a pipeline rolls back to a waiting state or a writer
  without the lock puts back a document it read while the bot was running: no state prevents either
  (`BotInterleavings.HaltedUntilRevived`; the runs are `RollBackRevives`, after which a bot waits to exit a position it
  does not hold, and `PositionWriteRevives`).
- Rolling back an exit leaves the placeholder order id on the document (`BotInterleavings.FailedOrderRestores`). A
  pipeline that read the state while another order was placed does not roll back at all: when that order is cancelled
  and its own then fails, the bot waits for the fill of an order no engine has (`StaleReadSticks`).
- The id of an entry order that its fill overtakes is dropped, so the position keeps the placeholder as its entry
  order (`BotLifecycle.OvertakenIdIsDropped`).
- A diff identifies rows without a key field by position, which a client cannot. It is carried over, whatever the rows
  hold, exactly when no position lacks the field in both lists, or no other position lacks it in either
  (`WsReplica.FollowedExactly`; `UnkeyedRowsDiverge` is the smallest failing case). Every channel that `ws.py` builds
  itself carries the field; only order and alert documents that another process stored without an `id` could lack it.

## Model

| member | source | states |
|---|---|---|
| LotMatching.Book.RealizeLifo | ib_trader/engine/lifo_pnl.py:89-121 | The in-place matching of one fill leaves the lots and returns the realized P&L (None when nothing closed) of the specification `Apply` |
| LotMatching.Book.ReduceNewest | ib_trader/engine/lifo_pnl.py:105-115 | One turn of the loop: the newest lot is reduced in place or popped, all others are untouched |
| LotProperties.MatchAllConserves | ib_trader/engine/lifo_pnl.py:101-115 | Matching conserves net quantity, and realized P&L plus basis plus the worth of the remainder, so the closing shares of the commission are exactly accounted for |
| LotProperties.AccountingIdentity | ib_trader/engine/lifo_pnl.py:89-121 | For every fill: realized P&L is its cash plus the change of the lots' basis, and the net quantity moves by the fill |
| LotProperties.SharesAdd | ib_trader/engine/lifo_pnl.py:108-117 | Closing and opening parts of the commission add up to the commission |
| LotProperties.ApplyShape | ib_trader/engine/lifo_pnl.py:104-121 | Lots stay nonzero and of one sign; P&L is realized exactly when the fill opposes the position; lower lots are untouched; a flip leaves only the rest at its price |
| ShareStack.BlockRefinesShares | ib_trader/engine/lifo_pnl.py:89-121 | Whole-lot matching leaves the lots that stand for the shares a one-share-at-a-time stack leaves, closes the same shares and realizes what they gain |
| JoinedLots.ApplyIsTrade | ib_trader/engine/lifo_pnl.py:89-121 | Applying a fill of any size is trading its quantity, at its price and its commission per unit, on the stack whose alike neighbours are joined: same lots up to joining, same P&L |
| JoinedLots.TradeInTwo | ib_trader/engine/lifo_pnl.py:89-121 | On that stack trading in two goes leaves the lots and realizes the P&L of trading at once |
| JoinedLots.JoinedIffShares | ib_trader/engine/lifo_pnl.py:104-121 | Whole lots join to the same stack exactly when they stand for the same single shares |
| FillPartitions.PartitionsChangeNothing | ib_trader/engine/lifo_pnl.py:89-121 | Over a whole sequence each fill, of whole or fractional size, may come in any number of parts with pro-rata commission, and the walk may start from lots whose neighbours of one cost are cut differently: total P&L stays the same, and so do the lots up to such cuts |
| FillPartitions.WholePartitions | ib_trader/engine/lifo_pnl.py:89-121 | On whole quantities: from lots that stand for the same shares to lots that stand for the same shares |
| AverageCost.SimulateAvg | ib_trader/engine/lifo_pnl.py:124-159 | The broker-style walk: final average (None when flat), realized P&L until the seed is gone, and whether it is |
| AverageCost.AddingIdentity | ib_trader/engine/lifo_pnl.py:138-143 | Opening or adding at average cost moves the basis by exactly the cash paid |
| AverageCost.ReducingIdentity | ib_trader/engine/lifo_pnl.py:144-158 | A partial close realizes its cash plus the change of the basis |
| AverageCost.CrossingIdentity | ib_trader/engine/lifo_pnl.py:150-158 | A fill through zero realizes its cash less the old basis plus what the rest opens |
| SeedSolver.LifoTotalIs | ib_trader/engine/lifo_pnl.py:89-121 | Over any fills, total LIFO P&L is total cash plus the change of the basis |
| SeedSolver.AverageTotalIs | ib_trader/engine/lifo_pnl.py:124-159 | The same for the average-cost walk, a different algorithm |
| SeedSolver.LifoThroughIs | ib_trader/engine/lifo_pnl.py:104-121 | LIFO P&L through the fill that closes the seed depends on the seed only through its basis |
| SeedSolver.AverageThroughIs | ib_trader/engine/lifo_pnl.py:124-159 | So does the average-cost P&L through that fill |
| SeedSolver.AverageIsAffine | ib_trader/engine/lifo_pnl.py:16-19 | While the seed is held, the final average is affine in the seed's cost with a weight in (0, 1] |
| SeedSolver.RealizedIsAffine | ib_trader/engine/lifo_pnl.py:124-159 | Once the seed is closed, realized P&L is affine in its cost with slope -(seed quantity x multiplier) |
| SeedSolver.SumReported | ib_trader/engine/lifo_pnl.py:177-187 | The loop sums the broker's P&L over the seed-closing fills, None when one is missing |
| SeedSolver.SolveSeedCost | ib_trader/engine/lifo_pnl.py:162-190 | The solver's answer, including each fallback reason |
| SeedSolver.SolveExactly | ib_trader/engine/lifo_pnl.py:162-190 | It answers exactly when the broker's number is there, with the one cost at which the walk reproduces that number; the other two fallbacks are unreachable |
| LifoPnl.SortedStably | ib_trader/engine/lifo_pnl.py:229 | Rows are ordered by time then exec id, none is lost, and rows with equal keys keep the order they came in |
| LifoPnl.ReadRows | ib_trader/engine/lifo_pnl.py:230-239 | Fills and reported P&L are read off the rows; one incomplete row gives up |
| LifoPnl.WalkFills | ib_trader/engine/lifo_pnl.py:256-261 | Applying the fills to the book records the realized P&L by exec id |
| LifoPnl.ComputeOne | ib_trader/engine/lifo_pnl.py:221-261 | The whole of one contract, with every fallback |
| RowAccounting.ContractAccounts | ib_trader/engine/lifo_pnl.py:71-82 | On the rows alone: the P&L recorded on them is what they brought in (multiplier times shares sold at their prices less shares bought at theirs, less commissions), plus the basis of the open lots, less that of the position before them at some cost; the open lots hold the position |
| RowAccounting.FlatContractEarns | ib_trader/engine/lifo_pnl.py:221-261 | A contract flat before and after its rows has recorded exactly multiplier times (sold less bought at the prices) less the commissions, and has no open lots |
| RowAccounting.MultiplierIsFirst | ib_trader/engine/lifo_pnl.py:221-227 | The multiplier is that of the first row that has a nonzero one, and without one the position's |
| RowAccounting.ResultExactly | ib_trader/engine/lifo_pnl.py:225-246 | Without a positive multiplier, and then with an incomplete row, there is no LIFO result and the reason says so; otherwise there is one when the position is the shares bought less those sold |
| RowAccounting.SeededExactly | ib_trader/engine/lifo_pnl.py:241-255 | With a position from before: the solver's reason, or refused when the cost is more than half the first walked price away from it, and otherwise a LIFO result |
| RowAccounting.WalkedInOrder | ib_trader/engine/lifo_pnl.py:229 | Rows are walked by time and, at one time, by the text order of their ids, spelled out |
| LifoGuarantees.OnlyTheSplitDiffers | ib_trader/engine/lifo_pnl.py:5-7 | From one seed, realized plus open P&L agree under both methods at every mark price; round trips total the same |
| LifoGuarantees.ClosedSeedMatchesBroker | ib_trader/engine/lifo_pnl.py:16-24 | When the fills close the seed, LIFO P&L through the closing fill is what the broker reported on the reducing fills up to it |
| LifoGuarantees.HeldSeedMatchesBroker | ib_trader/engine/lifo_pnl.py:5-17 | When the seed survives, LIFO realized plus open P&L equals average-cost realized plus open P&L at the broker's average, at every mark price |
| LifoGuarantees.SolverInvertsWalk | ib_trader/engine/lifo_pnl.py:162-190 | Given the numbers of a walk from cost c, the solver returns exactly c |
| LifoGuarantees.RecordsReducingFills | ib_trader/engine/lifo_pnl.py:256-261 | With distinct ids exactly the reducing fills are recorded, their sum is the LIFO total, and the open lots hold the position |
| LifoGuarantees.ResultOfClosedSeed | ib_trader/engine/lifo_pnl.py:241-261 | The same agreement with the broker, read off the result of a contract whose seed closed |
| LifoGuarantees.ResultOfHeldSeed | ib_trader/engine/lifo_pnl.py:241-261 | The same for a contract whose seed is held |
| PnlRollup.OpenLotsHoldPosition | ib_trader/engine/lifo_pnl.py:241-261 | The open lots of every LIFO result are of one side and add up to the position's quantity |
| PnlRollup.ComputeLifo | ib_trader/engine/lifo_pnl.py:193-218 | One result per futures contract with executions, and for no other |
| PnlRollup.SessionStartIsLatest | ib_trader/engine/pnl_rollup.py:30-43 | The session start is the latest such hour not after now, and every session time is within 24 h |
| PnlRollup.ComputePnlRollup | ib_trader/engine/pnl_rollup.py:46-113 | The slots of the rollup, those without signal dropped |
| PnlRollup.SlotSums | ib_trader/engine/pnl_rollup.py:63-104 | A contract's 24 h figures are the sums over its executions in the window, on either basis |
| PnlRollup.SessionSums | ib_trader/engine/pnl_rollup.py:88-104 | The session figures are the sums over the contract's futures rows since the session start |
| RollupFigures.RollupMeans | ib_trader/engine/pnl_rollup.py:63-113 | A contract is in the rollup exactly when a figure of the last 24 hours is not zero or a futures row with P&L is in the session; its four figures are the sums over those windows, the session figure there exactly in the latter case |
| RollupFigures.FirstDecides | ib_trader/engine/pnl_rollup.py:77-87 | Basis and kind of a slot are those of the contract's first row with P&L |
| RollupFigures.PnlOfMeans | ib_trader/engine/pnl_rollup.py:71-76 | A row's P&L is what the futures contract's LIFO result records for its id, and without such a result the broker's |
| RollupFigures.RowsOfExactly | ib_trader/engine/lifo_pnl.py:207-214 | A contract's rows are the futures rows with its symbol, each as often as received |
| PnlRollup.RoundTripAgrees | ib_trader/engine/pnl_rollup.py:46-113 | End to end: flat contract, fills in the window, broker numbers from a true cost: the LIFO 24 h figure equals the broker's |
| BarAggregation.BarAggregator.AddBars | ib_trader/bots/bar_aggregator.py:56-121 | Ingesting bars returns the completed ones and leaves the state of the specification |
| BarAggregation.BarAggregator.FromSnapshot | ib_trader/bots/bar_aggregator.py:160-192 | Rebuilding from a snapshot, under an overriding lookback if given |
| BarAggregation.WindowIsNewestBars | ib_trader/bots/bar_aggregator.py:123-131 | The window is there exactly when the accepted raw bars have finished lookback slots, and is then the newest of their bars, oldest first |
| BarAggregation.SlotStartAligned | ib_trader/bots/bar_aggregator.py:37-54 | The slot start is the multiple of the target size at or below the time, less than one slot away |
| BarAggregation.IngestRefines | ib_trader/bots/bar_aggregator.py:56-131 | For any stream: bars returned plus partial bar are the strictly newer raw bars grouped by slot and folded; the ring is the last completed bars |
| BarAggregation.BarsAlignedAndConserved | ib_trader/bots/bar_aggregator.py:56-121 | Bars start at strictly increasing aligned times and carry exactly the accepted volume |
| BarContents.BarsSumUpSlots | ib_trader/bots/bar_aggregator.py:37-121 | From the raw bars: those newer than all before count; each bar starts at a multiple of the target and has the first open, highest high, lowest low, last close and total volume of exactly those that count and whose time is in its slot; each that counts is in one |
| BarAggregation.IngestSplits | ib_trader/bots/bar_aggregator.py:56-121 | How a stream is cut into calls changes nothing |
| BarAggregation.ResumeEqualsUninterrupted | ib_trader/bots/bar_aggregator.py:148-192 | Snapshot, rebuild, replay of bars already seen, and the rest: outputs and state of the uninterrupted run |
| BarAggregation.OverrideOnlyResizes | ib_trader/bots/bar_aggregator.py:160-192 | Another lookback returns the same bars and keeps another number of last bars |
| SwingPoints.UniqueExtreme | signals_lib/trend.py:55-62 | Being the window's extreme and occurring once in it is being strictly beyond every other bar of it |
| SwingPoints.MarkSwings | signals_lib/sawtooth.py:44-51 | The pass marks exactly the bars whose high is strictly above, and those whose low is strictly below, all others of a full window around them |
| SwingPoints.KeptIsLast | signals_lib/trend.py:76-85 | The trimmed list of whole-frame swings is the end of what the bars so far confirm |
| SwingPoints.ConfirmedExactly | signals_lib/trend.py:72-85 | The confirmed swings are, in order, exactly those with a full window of bars after them: none early, none missed |
| SwingPoints.TrimmedRun | signals_lib/trend.py:101-109 | Trimming cuts the ascending run to min(run, kept - 1) |
| SwingPoints.CountRun | signals_lib/trend.py:101-109 | Counting back gives the length of the ascending run at the end |
| CloseTrend.AddCloseTrendFeatures | signals_lib/trend.py:47-120 | Every output column holds, at every bar, the features of the whole-frame pass |
| CloseTrend.TrendNeedsOnlyThePast | signals_lib/trend.py:64-120 | Each output is that of the frame cut off after the bar with its untrimmed history; trimming only caps the strength |
| CloseTrend.NoLookAhead | signals_lib/trend.py:31-32 | Frames that agree on bars 0..i have equal outputs there |
| CloseTrend.TrendMeans | signals_lib/trend.py:72-120 | From the closes: an up-trend is enough peaks and valleys with a full window after them, the last of each rising; strength, age and nearness of the newest valley, with the constants spelled out |
| CloseTrend.StrengthBounds | signals_lib/trend.py:101-109 | In an up-trend the strength is between trend_points - 1 and trend_points + 2, else zero |
| CloseTrend.ValleyAge | signals_lib/trend.py:112-114 | The age reported is that of the newest bar that closes strictly below all others of the full window around it, as an if and only if |
| Sawtooth.AddSawtoothFeatures | signals_lib/sawtooth.py:35-107 | Every output column holds, at every bar, the features of the whole-frame pass |
| Sawtooth.ToothNeedsOnlyThePast | signals_lib/sawtooth.py:53-107 | Each output is that of the frame cut off after the bar with its untrimmed history |
| Sawtooth.NoLookAhead | signals_lib/sawtooth.py:3-6 | Frames that agree on bars 0..i have equal outputs there |
| Sawtooth.ToothMeans | signals_lib/sawtooth.py:53-107 | The same for the four outputs from highs, lows and closes |
| Sawtooth.BounceFollowsDip | signals_lib/sawtooth.py:95-107 | A bounce is exactly an up-trend in which the newest swing low was confirmed at this bar or one of the three before, with the price just above it |
| ExecAccumulator.MergeExecutions | ib_trader/engine/exec_accumulator.py:103-156 | Merging a batch and pruning gives the store of the specification |
| ExecAccumulator.MergeIsPointwise | ib_trader/engine/exec_accumulator.py:113-156 | What a merge leaves under an id depends only on what was there and on that id's own records |
| MergedFields.MergeMeans | ib_trader/engine/exec_accumulator.py:48-156 | The merged store on the reports: an id is there exactly when it was stored or is usably reported and its time, corrected once, is in the window; the profit is the first one, the commission the one that came with it or else the first nonzero, the multiplier the first that came without it |
| ExecAccumulator.FrozenWhileInWindow | ib_trader/engine/exec_accumulator.py:103-156 | Over any sweeps with non-decreasing clock a stored execution is still there, with its time and any realized P&L, exactly when its time is in the last window |
| ExecAccumulator.FirstSeenDecides | ib_trader/engine/exec_accumulator.py:119-132 | A new id gets its first record's time, corrected once, and the first realized P&L reported |
| ExecAccumulator.FixedExactly | ib_trader/engine/exec_accumulator.py:103-156 | Merging a batch changes nothing exactly when every id of the store and batch is settled: each of its records finds its time and figures there |
| ExecAccumulator.SettlesExactly | ib_trader/engine/exec_accumulator.py:103-156 | Re-merging any batch, ids repeated or not, settles after three merges; after two exactly when no id that drops out of the window comes back unfilled; after one exactly when every id is settled by then |
| ExecAccumulator.RepeatedIdNeedsThree | ib_trader/engine/exec_accumulator.py:103-156 | A batch that reports an id twice, first without P&L and multiplier, can need all three |
| ExecAccumulator.UnpairedIsLate | ib_trader/engine/exec_accumulator.py:134-149 | A fill stored before its P&L and multiplier were known is late in the batch that brings both: two merges differ from one |
| ExecAccumulator.CorrectedTimeIsLost | ib_trader/engine/exec_accumulator.py:37-41 | A run of three sweeps that report one fill: its time is stored corrected, leaves the window with the record, and comes back uncorrected |
| ExecMarkers.ComputeExecMarkers | ib_trader/engine/exec_markers.py:45-127 | The markers by contract of the specification |
| OrderMarkers.OneMarkerPerOrder | ib_trader/engine/exec_markers.py:68-127 | On the executions: before the cap one marker per order in order of appearance, with the quantity, quantity-weighted price, first side text and earliest corrected time of the order's usable executions; at most 300 are kept |
| OrderMarkers.OneMarkerIff | ib_trader/engine/exec_markers.py:86-88 | Two usable executions share a marker exactly when they share the contract and a nonzero order id, or have none and share the execution id |
| ExecMarkers.GroupsSumUp | ib_trader/engine/exec_markers.py:68-112 | A group exists exactly for an order with fills; it has their quantity, notional and earliest time, and the first side |
| ExecMarkers.PriceBetween | ib_trader/engine/exec_markers.py:112-120 | A marker's price lies between its fills' lowest and highest price |
| ExecMarkers.MarkersConserve | ib_trader/engine/exec_markers.py:68-120 | Before the cap a contract's markers carry exactly the quantity and notional of its fills |
| ExecMarkers.CapKeepsNewest | ib_trader/engine/exec_markers.py:121-127 | Sorted, complete up to the cap, and no dropped marker is newer than a kept one |
| BotLifecycle.OnlyStartRevives | ib_trader/bots/runtime.py:678-808 | A halted bot leaves its halt by the start handler and by no other |
| BotLifecycle.HandlersKeepPosition | ib_trader/bots/runtime.py:732-929 | Every handler but a fill keeps the tracked position or leaves none; one that ends in error changes nothing but state, reason and what the last exit order sold |
| BotLifecycle.HandlersNeverPlace | ib_trader/bots/runtime.py:678-1408 | No handler enters an order-placed state, and one that ends off leaves the document clean |
| BotLifecycle.RoutingLosesNothing | ib_trader/bots/runtime.py:2700-2797 | Routing a fill or a dead order by state loses nothing: the other leg's handler would have left the document alone |
| BotLifecycle.BotRunner.OnOrderUpdate | ib_trader/bots/runtime.py:2665-2797 | An order update runs the handler its state routes it to |
| BotLifecycle.OvertakenIdIsDropped | ib_trader/bots/runtime.py:1522-1565 | An id that its order's fill overtakes is dropped: a finished document stays clean, a position keeps the placeholder as its entry order |
| BotLifecycle.BotRunner.OnStop | ib_trader/bots/runtime.py:704-730 | Whatever the state, the document ends clean for a start, and an order in flight is cancelled |
| BotLifecycle.BotRunner.OnEntryTimeout | ib_trader/bots/runtime.py:810-852 | Back to awaiting an entry, keeping the entry line and direction |
| BotLifecycle.BotRunner.OnEntryCancelled | ib_trader/bots/runtime.py:881-912 | A cancelled entry: cleared and awaiting an entry, the strategy told |
| BotLifecycle.BotRunner.OnPlaceOrder | ib_trader/bots/runtime.py:931-1014 | The gate: an order passes only from the matching awaiting state, otherwise nothing changes |
| BotLifecycle.BotRunner.OnEntryFilled | ib_trader/bots/runtime.py:1016-1147 | Entry fills: progress, empty terminal fill, position opened |
| BotLifecycle.BotRunner.OnExitFilled | ib_trader/bots/runtime.py:1149-1408 | Exit reports: what is recorded, retried, paged and told to the strategy, with all quantities and prices, and the document left |
| BotLifecycle.ClosedPnlMeans | ib_trader/bots/runtime.py:1220-1242 | A long trade records exit less entry price times quantity and multiplier, a short one the opposite, and one without a positive entry price zero |
| BotLifecycle.BotRunner.RevertToState | ib_trader/bots/runtime.py:1596-1609 | Rolling back to the state read before placing |
| BotLifecycle.BotRunner.ForceOffState | ib_trader/bots/lifecycle.py:200-237 | The operator's reset leaves an off document that is clean for a start |
| BotLifecycle.BotRunner.ApplyPositionEvent | ib_trader/bots/runtime.py:412-560 | A position event writes the document it read with a confirmed smaller quantity, closes at zero, parks on a larger one, and otherwise changes nothing |
| ExitCycle.ExitCycleTracks | ib_trader/bots/runtime.py:980-1408 | After an accepted exit for the whole position and any reports: tracked quantity is start less ended orders, the open order and every retry are for exactly the residual on the closing side, and after at most MAX_EXIT_RETRIES + 1 ended orders the cycle is flat or errored with the residual |
| ExitCycle.FittingCycleConserves | ib_trader/bots/runtime.py:1195-1340 | When no order overfills, total sold never exceeds the start and the cycle ends flat exactly when all is sold |
| ExitCycle.CycleTells | ib_trader/bots/runtime.py:1149-1408 | Over any reports a cycle pages exactly when it gets stuck, once, with the residual; records one closed trade exactly when it ends flat, with the quantity left for the last order and what that order filled; and tells the strategy of every other ended order |
| ExitCycle.RecordedExactly | ib_trader/bots/runtime.py:1220-1242 | For any reports and any entry price, none or negative included: the recorded P&L is what the exit earned exactly when the orders before the last and its overfill earned nothing together, or, without a positive entry price, the whole exit earned nothing |
| ExitCycle.RecordedProfit | ib_trader/bots/runtime.py:1220-1242 | So with a positive entry price and no overfill it is exactly when the orders before the final one earned nothing |
| ExitCycle.UnpricedEntryRecordsNothing | ib_trader/bots/runtime.py:1228-1239 | After an entry fill reported without a price the exit records zero whatever it earned |
| ExitCycle.RetriedExitMisreports | ib_trader/bots/runtime.py:1220-1242 | An exit that needs a retry and sold its first part at another price than the entry records another P&L than it earned |
| ExitCycle.ExitClosesEntry | ib_trader/bots/runtime.py:1016-1408 | From the entry fill on, every retry trades against the entry for what is left of the quantity entered, whatever sides the reports carry |
| ExitCycle.LateFillKeepsEntryLine | ib_trader/bots/runtime.py:810-912 | An entry order that fills after all, in any number of parts, opens its position: with its entry line when it had timed out, without when it had been cancelled |
| BotInterleavings.RunsAreSafe | ib_trader/bots/runtime.py:1410-1609 | In every interleaving, unlocked writes included, accepted placements are the pipelines past the gate, and these less the steps leaving an order-placed state are one exactly in such a state, exactly when no unlocked write has entered one |
| BotInterleavings.AtMostOneReachesEngine | ib_trader/bots/runtime.py:1466-1515 | With no step leaving an order-placed state, an unlocked write included, at most one more pipeline reaches the engine, whatever stale states were read, and none while an order is placed |
| BotInterleavings.BeginsToWait | ib_trader/bots/runtime.py:431-1609 | A step begins to wait for an exit exactly when it is a nonempty entry fill, a cancelled exit, a rollback to that state, or an unlocked write of a document read in it |
| BotInterleavings.OnlyFillsEnter | ib_trader/bots/runtime.py:431-1609 | An entry fill records its position; cancelled exits and rollbacks to an exit keep the one there is; a step that begins to wait for an entry leaves none, an unlocked write exactly when what it writes holds none |
| BotInterleavings.HaltedUntilRevived | ib_trader/bots/runtime.py:431-1609 | Over any run without a start a halted bot stays halted exactly when no pipeline rolls back to a waiting state and no unlocked write puts back a document read while the bot was running |
| BotInterleavings.OffIsCleanExactly | ib_trader/bots/runtime.py:242-1609 | Over any run an off document is clean for a start at every point exactly when no unlocked write stores an unclean one |
| BotInterleavings.PositionWriteRevives | ib_trader/bots/runtime.py:431-491 | A stop, forced stop, crash or mismatch while a position event waits for the broker is undone by its write |
| BotInterleavings.PositionWriteAdmitsSecond | ib_trader/bots/runtime.py:431-491 | An exit placed during that wait is forgotten, and a second exit passes the gate |
| BotInterleavings.PositionWriteEnters | ib_trader/bots/runtime.py:431-491 | An exit that is cancelled during that wait is placed again by the write, with no order accepted |
| BotInterleavings.FailedOrderRestores | ib_trader/bots/runtime.py:1466-1609 | A pipeline that fails undisturbed leaves the document as it was, but the position gone from an entry and the placeholder id on an exit |
| BotInterleavings.TakenOrderIsRecorded | ib_trader/bots/runtime.py:1466-1565 | A pipeline whose order is taken leaves the bot waiting for its fill, with quantity and id |
| BotInterleavings.StaleReadSticks | ib_trader/bots/runtime.py:1446-1594 | An exit whose pipeline read the state while another was placed is not rolled back when it fails, and stays placed |
| BotInterleavings.RollBackRevives | ib_trader/bots/runtime.py:1566-1609 | The run that stops a bot in flight and then rolls back: it waits again, with nothing held |
| BotInterleavings.LateWriteKeepsClean | ib_trader/bots/runtime.py:242-326 | The unlocked entry bookkeeping keeps off-means-clean exactly under the stated condition |
| BotInterleavings.StopBeforeBookkeeping | ib_trader/bots/runtime.py:2707-2755 | A stop between an entry fill and its bookkeeping leaves an off document a start refuses |
| WsChannels.ChannelState.Update | ib_trader/api/ws.py:162-175 | Rows and digest are replaced and the diff returned, None when nothing changed |
| WsReplica.DiffCarriesOver | ib_trader/api/ws.py:126-144 | Applying the diff of two lists to the rows of the first gives the rows of the second, whenever their rows without a key field, if any, can be followed |
| WsChannels.EmptyDiffIff | ib_trader/api/ws.py:126-144 | A diff is empty exactly when both lists hold the same rows by key, in whatever order |
| WsChannels.DiffExactly | ib_trader/api/ws.py:126-144 | A row is sent as added, updated or removed exactly when it is only in the new list, in both with other contents, or only in the old one |
| WsReplica.FollowedExactly | ib_trader/api/ws.py:126-144 | The diffs carry a client over, whatever the rows hold, exactly when no position is without the key field in both lists or no other position is in either |
| WsReplica.UnkeyedRowsDiverge | ib_trader/api/ws.py:126-144 | Dropping the second of two rows without the key field takes both from the client |
| WsReplica.UpdateKeepsReplica | ib_trader/api/ws.py:162-175 | With a faithful digest each update leaves an ideal client with the new rows, and sends nothing exactly when the server knows the same rows by the same keys |
| WsProtocol.RunsAreSafe | ib_trader/api/ws.py:908-1115 | In every interleaving, lost announcements included, each subscribed channel's replica matches the server's copy, which is current, or has a refetch to come, or was touched by a loss since the last full refetch |
| WsProtocol.ServesSubscription | ib_trader/api/ws.py:1029-1049 | From a subscription to the next exactly those of its names that are one of the eight channels are subscribed, the client holds exactly those once the snapshot is sent, and the invariant holds of each |
| WsProtocol.NeverStuck | ib_trader/api/ws.py:987-1115 | The main loop can always go on with a refresh or snapshot it has begun |
| WsProtocol.DirtyIsRefreshed | ib_trader/api/ws.py:1098-1115 | A subscribed channel that is dirty when the loop is idle is in the refresh that may then begin |
| WsProtocol.CanCatchUp | ib_trader/api/ws.py:1029-1115 | From every reachable state of a connection that subscribed the main loop alone can bring an ideal client to hold exactly what was last written to the channels it subscribed to |
| WsProtocol.QuietMeansConverged | ib_trader/api/ws.py:908-1115 | Once nothing is left to announce, hear or refetch and nothing was lost since the last full refetch, an ideal client holds, of exactly the channels it last subscribed to, what was last written to them |
| WsProtocol.FullRefreshConverges | ib_trader/api/ws.py:1102-1115 | Whatever is lost: when a full refresh began after the last write, the same holds as soon as the loop is idle |
| WsProtocol.DueUntilFetched | ib_trader/api/ws.py:944-955 | From hearing an announcement until the refetch a channel it touches stays dirty or in the refresh or snapshot under way |
| Pricing.RoundIsNearest | ib_trader/engine/pricing.py:19-29 | Rounding is to the nearest tick, ties to the even one |
| Pricing.LadderWalks | ib_trader/engine/pricing.py:44-70 | For a bid and ask on the grid every step is on the grid between mid and far side, no step goes back, and the last is the far side |
| Pricing.StepsAreEven | ib_trader/engine/pricing.py:30-70 | For any quotes and steps each price is within half a tick of the step's equal part of the way from the snapped middle to the far side, and on the grid; refused exactly for a total of zero or a tick that is not positive |
| Pricing.ProfitTakerMissesLittle | ib_trader/engine/pricing.py:73-116 | A profit taker is priced exactly when quantity and multiplier are nonzero, and misses the profit by at most half a tick per unit, long or short |
| OrderRef.DecodeOfEncode | ib_trader/engine/order_ref.py:57-143 | A tag is made exactly for separator-free fields, a valid side and the length limit, and decodes to the fields |
| OrderRef.EncodeSpells | ib_trader/engine/order_ref.py:57-96 | The tag spelled out: prefix, fields and serial with colons between; made exactly for colon-free fields, side "B" or "S" and at most 128 characters |
| OrderRef.DecodesExactly | ib_trader/engine/order_ref.py:97-143 | A text decodes to fields exactly when it spells them so, with a serial that reads as theirs |
| OrderRef.OursExactly | ib_trader/bots/runtime.py:2353-2354 | The bot's prefix test accepts a decodable tag exactly when host and bot reference match |

## Left out

- Decimal context precision, float conversion, NaN and infinities (except where a branch depends on a zero divisor), ISO text parsing, letter case and blank stripping of sides, symbols and security types: reals, integers, capital texts and a flag for futures instead. The second `quantize` of `_snap` changes nothing on exact multiples.
- Executions without a usable timestamp in the rollup, and a time zone whose offset changes during the window: times are integers at one fixed offset.
- Lots in a result are values; a caller that keeps the list itself would see later changes.
- `to_state_dict` hands out the live partial-bar dictionary, which later bars still change; a snapshot here is the value at the time of the call. Resume through the JSON file, which turns slot times into text, is not claimed.
- `merge_executions` edits records it shares with its input; records here are values.
- BarAggregation: a raw bar's symbol and further fields, and a non-positive target size.
- Negative windows and counts in the two detectors, and the log lines and data frame around them.
- ExecMarkers.ComputeExecMarkers: rows whose shares or price do not parse as numbers.
- BotLifecycle.BotRunner.OnOrderUpdate: reading the state and handling the update are one step here; a handler in between is covered by `BotInterleavings`, where any event may come at any time. The unlocked bookkeeping after an update is not part of it.
- BotLifecycle.BotRunner.OnExitFilled: trailing-stop, water-mark, cooldown, exit-reason and audit fields are not in the document, because no invariant or branch here reads them; email and audit rows are left out, alerts, closed trades, notices and engine calls are effects in a list, a cancelled order by its symbol only.
- BotInterleavings.RunsAreSafe: pipelines with one order each; several orders in one pipeline, the order-rate limiter (its stop is a handler step) and a failing id patch are not modelled.
- BotInterleavings.HaltedUntilRevived: a handler's own read and write are one step, so an unlocked write that falls between them, and is lost, is a run without it. An unlocked write may change any field but the state, whichever writer it comes from (`_apply_position_event`, `_apply_reconciled`, `_write_state`, through which the strategy writes). `force_off_state` and the writes of a failed state for a bot without an instance (`internal_api.py`, `runner.py`) also take no lock and are single steps.
- BotInterleavings.LateWriteKeepsClean: one write of `_write_state` with its read; the split version is an unlocked write of `BotInterleavings.OffIsCleanExactly`.
- The patched id is not claimed to be the current order's, and a rolled-back document is not claimed to be in a state the engine agrees with: neither is checked by the code.
- WsProtocol.RunsAreSafe: the digest is assumed to tell row lists apart, rows are assumed to carry the key field, and messages arrive in order, so the client is what it holds after everything sent; disconnects, quote, position, command and log streams are left out. Which refreshes are full is left open rather than timed.
- WsProtocol.QuietMeansConverged: the client is an ideal one that applies every diff. The repository's own (`frontend/src/data/store.ts`) applies added, updated and removed rows for `bots` only, takes updates of commands and the latest status row, and ignores diffs of the other channels.
- WsReplica.DiffCarriesOver: a key text that looks like a positional fallback cannot occur, because the two are different constructors.
- OrderRef.DecodeOfEncode: `int()` also reads blanks, underscores and a plus sign; such serials decode to nothing here, and no encoded tag has them.
- `calc_shares_from_dollars`, `notional_value`, session clocks, serial search, throttling, configuration and backfill scripts: only easy members.
- Strategies, support and resistance detection, order execution and the ledger.
