# Verification of the trading simulator

A Dafny model of a simulated exchange and the machinery around it: the matching and accounting
engine, the shared-memory channels, the order-book cache and its delta broadcast, order
deduplication, the circuit breaker and the backtester.  `dafny verify dfyconfig.toml` checks it.

Prices, quantities and money are exact reals; rounding to ticks is written out with half-to-even
`round`.  Market prices, clocks and random draws are inputs of the steps, so every result holds for
all of them.

- `Basics`, `Rounding` - shared definitions and price ticks.
- `Accounts`, `Journal` - the account as a value: average-cost positions, margins, fees, funding,
  deficit cover. An account carries a journal of everything posted to it, and the remainders of at
  most 1e-12 that a closing fill forgets, as history; `Journal.Reconciled` ties the totals to it.
- `Desk` - orders, the four books, OCO groups and the counters, with the invariant
  `Desk.Sound`: books hold exactly the pending orders, order flow is conserved, groups are
  exclusive, icebergs have sliced what they should.
- `Engine` - the exchange as a state machine: `Submit`, `CheckAdvanced`, `CheckStops`, funding,
  cancels, and runs of these in any order.
- `Runs`, `RunTheorems`, `OrderTallies`, `RunWitnesses` - every step keeps the invariants, what that
  says of whole runs, the counters against the stored orders, and two runs that reach the exceptional
  states.
- `EquityAtFixedMarks`, `LiquidationBounds`, `PriceHistory`, `OrderOutcomes`, `LimitPrices`,
  `FillCharges` - no free money at fixed prices, the liquidation levels and what one check of the stops
  does to each position, resting orders against the whole price history, what may become of an order
  at submission, at its expiry and at a cancel, which limit orders are filled past their limits, and
  every submission and check decided in plain arithmetic, with what a fill costs and does to a position.
- `PositionLifecycle`, `DeferredRemoval`, `Exchange` - the exchange as it is programmed: position
  objects in a list and an index, orders changed in place, loops over snapshots of the books with
  removal after the loop. Each method is proved to do what `Engine` and `Accounts` say.
- `RingBuffer`, `SnapshotSlot` - the two shared-memory protocols, access by access.
- `OrderBooks`, `BookDeltas` - cached order books scaled in place, and their delta broadcast.
- `OrderDeduplication`, `CircuitBreakers`, `Backtesting`.

Results where the code does not do what one might expect of it:

- An opposite remainder of at most 1e-12 is dropped with its margin. A fill keeps the money over the
  open positions exactly unless it does that with margin locked (`Journal.FillConservesIff`), and so
  does a run (`RunTheorems.OpenMoneyConservedIff`, `RunTheorems.TwoOrdersLoseMargin`).
- A completed iceberg has traded its quantity less the visible part, and reports all of it
  (`RunTheorems.IcebergAccounting`, `RunWitnesses.IcebergFills`); and slices it traded stay when a
  sibling of its group fills (`RunTheorems.OneTradesIff`, `RunWitnesses.TwoMembersTrade`).
- An immediate limit fill may be stored at a price past its limit. For a limit on the tick grid it is
  so exactly when the averaging of a fill of more than 500 units moves it by more than half a tick,
  or by half a tick from an odd one (`LimitPrices.OnTickFillPastIff`, `LimitPrices.LargeFillAtLimit`);
  for any limit, exactly when the moved limit rounds to a tick past it
  (`LimitPrices.ImmediateFillPastIff`, `LimitPrices.SmallFillPastLimit`). A resting fill is past its
  limit exactly when the limit itself rounds that way (`LimitPrices.RestingFillPrice`).
- A position marked at its entry escapes liquidation exactly when its room, counted from the rounded
  level, exceeds half a cent, or is half a cent from an odd one (`LiquidationBounds.LiquidatedAtEntryIff`).
- A market sale has a non-negative price exactly up to a size (`EquityAtFixedMarks.SellPriceSignIff`).
- A sell trailing stop never falls exactly when its trail is absolute or at most 100 percent
  (`PriceHistory.SellTrailNeverFallsIff`).
- A bulk pop of a negative count winds the ring's tail back: a run stays in order exactly when none is
  published (`RingBuffer.DeliversInOrderIff`, `RingBuffer.PopSoundIff`).
- A snapshot write that fails half-way upsets the guard. From then on, as long as no other write
  fails, an observer that begins at rest is safe exactly when the failed writes are even in number and
  the words left are a whole message (`SnapshotSlot.NewReaderSafeIff`, `SnapshotSlot.TwoFailuresTorn`).
- A client that keeps a list of levels agrees with one that keeps a dictionary exactly when no price is
  repeated in the list (`BookDeltas.ListClientAgreesIff`). Over a run both list clients hold the
  server's books if no full book repeated a price (`BookDeltas.ListClientsHoldServerBook`), and a
  repeated price outlives the book that had it (`BookDeltas.RepeatedPriceOutlivesBook`). Generated books
  do repeat prices, at any depth from three levels up (`BookDeltas.FullBookRepeatsPrice`).
- A key pushed out of the deduplication window is submitted again
  (`OrderDeduplication.RepeatedIff`, `OrderDeduplication.EvictedIsResubmitted`).
- With its default configuration the breaker, once tripped, can never close again through its own
  probes (`CircuitBreakers.ClosableIff`, `CircuitBreakers.DefaultsWedge`).

## Model

| member | source | states |
|---|---|---|
| `Rounding.RoundPriceMonotone` | exchange_simulator/models.py:9-17 | rounding to ticks keeps the order of any two prices, also across the change of tick at one dollar |
| `Rounding.RoundPriceIdempotent` | exchange_simulator/models.py:9-17 | a rounded price is on the grid: rounding it again changes nothing |
| `Rounding.RoundPriceError` | exchange_simulator/models.py:9-17 | the error is at most half a tick of the regime |
| `Rounding.RoundPriceKeepsSide` | exchange_simulator/models.py:9-17 | rounding cannot carry a price across a mark that is on the grid |
| `Accounts.FillMovesTotal` | exchange_simulator/exchange_position_lifecycle.py:27-80 | any per-position total moves by a fill exactly by what the fill adds less what it removes, in all cases: new, enlarged, reduced, closed, flipped, dust |
| `Accounts.MarginAfterFill` | exchange_simulator/exchange_position_lifecycle.py:27-80 | cash returned plus margins held balance: the margins after a fill are those before, plus the fill's, less what was paid back net of profit |
| `Accounts.CostAfterFill` | exchange_simulator/exchange_position_lifecycle.py:27-80 | entry price times signed quantity, summed, changes by the fill's cash plus the profit it realises |
| `Accounts.ExposureAfterFill` | exchange_simulator/exchange_position_lifecycle.py:27-80 | the signed quantities, weighted by any function of the symbol, change by the signed fill |
| `Accounts.FundingOnExposure` | exchange_simulator/exchange.py:126-140 | charging funding takes the rate times the net exposure at the given prices out of the balance, so that longs pay shorts at a positive rate, and changes nothing else |
| `Journal.PostReconciled` | exchange_simulator/exchange_position_lifecycle.py:26-131 | every posting (trade, funding, deficit cover) keeps money, profit, fees and per-symbol positions reconciled with the journal and one position per symbol |
| `Journal.PositionIsNetFills` | exchange_simulator/exchange_position_lifecycle.py:26-112 | the position shown for a symbol plus dropped remainders is the sum of the signed fills in it |
| `Journal.FillConservesIff` | exchange_simulator/exchange_position_lifecycle.py:46-80 | a fill keeps cash, insurance and open margins, with profit and fees undone, if and only if it does not overshoot an opposite position by at most 1e-12 with margin locked; otherwise it loses exactly the overshoot's share of that margin |
| `Journal.DustIff` | exchange_simulator/exchange_position_lifecycle.py:72-78 | a fill drops a remainder exactly when it exceeds an opposite position by at most 1e-12 |
| `Journal.NoGain` | exchange_simulator/models.py:448-450 | no posting at or behind the mark raises balance plus margins plus unrealized profit plus insurance |
| `PositionLifecycle.AccountBook.UpdateFor` | exchange_simulator/exchange_position_lifecycle.py:19-44 | updating position objects, the list and the symbol index in place gives the account `UpdatePosition` gives, with list and index still holding the same objects |
| `PositionLifecycle.AccountBook.ClosePosition` | exchange_simulator/exchange_position_lifecycle.py:46-80 | closing, reducing or flipping in place gives the value-level result, with the released margin, profit and trade counts |
| `PositionLifecycle.AccountBook.OpenResidual` | exchange_simulator/exchange_position_lifecycle.py:82-99 | the residual of a flip becomes a new position at the fill price with default stop and target |
| `PositionLifecycle.AccountBook.Enlarge` | exchange_simulator/exchange_position_lifecycle.py:33-42 | only the position of the symbol changes, to the average price and the summed quantity and margin |
| `PositionLifecycle.AccountBook.Discard` | exchange_simulator/exchange_position_lifecycle.py:72-74 | removes exactly the position's entry from both the list and the index |
| `PositionLifecycle.AccountBook.Settle` | exchange_simulator/exchange_order_submission.py:370-372 | fee, margin lock and position update together post the trade |
| `PositionLifecycle.AccountBook.ChargeFunding` | exchange_simulator/exchange.py:126-140 | the loop charges every position once, longs paying shorts at a positive rate, and posts each payment |
| `PositionLifecycle.AccountBook.CoverDeficit` | exchange_simulator/exchange_liquidation.py:106-111 | a negative balance becomes zero at the insurance fund's expense; any other is left alone |
| `PositionLifecycle.AccountBook.MarkedEquity` | exchange_simulator/models.py:380-384 | marking every position in place and summing gives the reported equity |
| `Desk.ResolveSound` | exchange_simulator/exchange_order_submission.py:377-395 | resolving a group after a fill cancels every other pending member, empties them from the books and keeps all invariants |
| `Desk.FillRestingSound` | exchange_simulator/exchange_advanced_orders.py:68-72 | filling a resting order with its group keeps books exact, flow conserved and groups exclusive |
| `Desk.RejectRestingSound` | exchange_simulator/exchange_advanced_orders.py:207-233 | a resting order that fails its margin check is appended to the history a second time; books, order flow and groups stay sound and no terminal order changes |
| `Desk.CancelRestingSound` | exchange_simulator/exchange_advanced_orders.py:49-60 | a cancelled or expired order leaves its book and the invariants stand |
| `Desk.EnterSound` | exchange_simulator/exchange_order_submission.py:95-113 | entering a new order with any first status keeps the invariants, including in a group already resolved |
| `Desk.RetuneSound` | exchange_simulator/models.py:190-252 | updating a stop or trail in place keeps the invariants |
| `Runs.SubmitKeeps` | exchange_simulator/exchange_order_submission.py:26-133 | a submission with any parameters keeps the account reconciled, the desk sound, and journal and orders matched |
| `Runs.SweepKeeps` | exchange_simulator/exchange_advanced_orders.py:37-195 | so does a pass over a snapshot of a book, even as fills cancel later entries of it |
| `Runs.SliceKeeps` | exchange_simulator/exchange_advanced_orders.py:292-333 | so does an iceberg slice, accepted or refused |
| `Runs.CloseAllKeeps` | exchange_simulator/exchange_liquidation.py:17-30 | so do forced closes with deficit cover |
| `Runs.FundingKeeps` | exchange_simulator/exchange.py:126-140 | so does charging funding |
| `Runs.CancelAllKeeps` | exchange_simulator/exchange_advanced_orders.py:89-104 | so does cancelling all orders or those of a symbol |
| `Runs.RunKeeps` | exchange_simulator/exchange.py:57-105 | all invariants hold after any sequence of events, and terminal orders stay as they are |
| `Runs.SubmitEnters` | exchange_simulator/exchange_order_submission.py:60-133 | a submission that passes validation stores exactly one new order, with the requested terms if it rests |
| `OrderOutcomes.SubmissionFate` | exchange_simulator/exchange_order_submission.py:271-375 | immediate-or-cancel, fill-or-kill and market orders never rest; a priced post-only order never fills at once; a limit order that does has the market through its limit; the account moves only with a fill |
| `OrderOutcomes.ExpiredIsCancelled` | exchange_simulator/exchange_advanced_orders.py:49-60 | an order past its expiry is cancelled by the next check and cannot fill, whatever the market and its siblings do |
| `OrderOutcomes.TurnedAwayIff` | exchange_simulator/exchange_order_submission.py:64-96 | a request becomes an order if and only if quantity, parameters, time in force and expiry are acceptable; any other is only counted as rejected |
| `OrderOutcomes.RestsAsRequested` | exchange_simulator/exchange_order_submission.py:212-261 | an order that rests waits for exactly the stop, limit, trail, expiry or visible size requested |
| `OrderOutcomes.JoinsTheQueue` | exchange_simulator/exchange_order_submission.py:234-331 | and stands last in the book of its kind, the other books unchanged |
| `OrderOutcomes.GoodTillDate` | exchange_simulator/exchange_advanced_orders.py:49-60 | a good-till-date order that comes to rest is cancelled by the first check at or after its date |
| `OrderOutcomes.FirstInLine` | exchange_simulator/exchange_advanced_orders.py:21-44 | the first resting order in the line of limits, stop-limits, trailing stops and icebergs, if it ends in a check, ends as if it were alone |
| `OrderOutcomes.CancelledExactly` | exchange_simulator/exchange_advanced_orders.py:89-104 | cancelling all orders, or those of a symbol, cancels exactly the pending ones meant, changes no other and leaves the account alone |
| `FillCharges.MarketPriceIs` | exchange_simulator/exchange_order_submission.py:192-209 | the market price is the mid moved against the trader by the slippage, and above 50 units by quantity/500000 of it |
| `FillCharges.SubmissionDecided` | exchange_simulator/exchange_order_submission.py:87-133 | every valid submission decided: closed group, no market, resting, not through, post-only, fill-or-kill, and otherwise filled exactly if forced or affordable, at its limit or the market, with fee notional * fee% and margin * leverage = notional |
| `FillCharges.LimitTick` | exchange_simulator/exchange_advanced_orders.py:45-69 | one check of a resting limit: cancelled from its expiry on, else filled in full, or rejected if not affordable, exactly when the market is through the limit |
| `FillCharges.StopLimitTick` | exchange_simulator/exchange_advanced_orders.py:111-129 | one check of a stop-limit: triggered at or below the stop for a sell, at or above for a buy, then filled or rejected at its limit |
| `FillCharges.TrailingTick` | exchange_simulator/exchange_advanced_orders.py:139-156 | one check of a trailing stop: at or past its level it is filled at the price less slippage, or rejected |
| `FillCharges.IcebergTick` | exchange_simulator/exchange_advanced_orders.py:166-192 | one check of an iceberg: a slice of the visible size or what is hidden, at its floor once the market is through it or else at the market, or refused |
| `FillCharges.EveryFillCharged` | exchange_simulator/exchange_order_submission.py:397-409 | over any run every trade has the fee of the configured percentage and a margin that times the leverage is its value, none only in a forced close |
| `FillCharges.PositionAfterFill` | exchange_simulator/exchange_position_lifecycle.py:19-99 | what a fill does to the position of its symbol: opened with default stop 2% and target 4%, averaged, reduced in proportion, closed, or flipped |
| `FillCharges.CloseBooked` | exchange_simulator/exchange_position_lifecycle.py:46-62 | a fill against a position books its move on the quantity closed and counts one trade, won if the move was in its favour |
| `FillCharges.TradesCounted` | exchange_simulator/exchange_position_lifecycle.py:46-62 | in every reachable state the trades counted are the closing fills of the journal |
| `RunTheorems.ReachableGood` | exchange_simulator/exchange.py:57-105 | every state reachable from a new exchange satisfies every invariant, with nothing assumed of requests, prices or order of events |
| `RunTheorems.MoneyIsConserved` | exchange_simulator/exchange_order_submission.py:397-409 | balance + insurance + margins (held and dropped) = initial + profit - fees + funding, in every reachable state |
| `RunTheorems.OpenMoneyConservedIff` | exchange_simulator/exchange_position_lifecycle.py:72-78 | over the open positions alone the sum is short by exactly what the fills dropped; with no negative margin it holds if and only if no fill of the run dropped any |
| `RunTheorems.TwoOrdersLoseMargin` | exchange_simulator/exchange_position_lifecycle.py:72-78 | two submitted market orders after which money is missing though neither loss nor fee was booked |
| `RunTheorems.AverageCostIsExact` | exchange_simulator/exchange_position_lifecycle.py:34-80 | in every reachable state total profit is net fill cash plus cost held, and each position is the net of its signed fills |
| `RunTheorems.OneCancelsOther` | exchange_simulator/models.py:292-301 | in every reachable state a group's members are exactly the orders submitted with it; unresolved, none is filled; resolved, exactly the recorded one is, and none is pending |
| `RunTheorems.OneTradesIff` | exchange_simulator/exchange_advanced_orders.py:292-305 | at most one member of a group has traded if and only if no iceberg of it was sliced beside a filled or another sliced member |
| `RunTheorems.OrderFlowIsConserved` | exchange_simulator/exchange.py:45-54 | submitted = filled + rejected + cancelled + resting, and the books hold exactly the pending orders |
| `OrderTallies.CountersTally` | exchange_simulator/models.py:148-156 | in every reachable state the counters say how many orders are filled and how many cancelled; the rest of the submissions rests or was rejected |
| `RunTheorems.TerminalIsFinal` | exchange_simulator/models.py:148-156 | an order once filled, rejected or cancelled is the same after any further events |
| `RunTheorems.IcebergAccounting` | exchange_simulator/exchange_advanced_orders.py:292-305 | traded + hidden = quantity - visible always; when filled, exactly ceil((quantity - visible)/visible) slices were traded and the whole quantity is reported |
| `RunWitnesses.IcebergFills` | exchange_simulator/exchange_advanced_orders.py:161-195 | a submitted iceberg of three units showing one is filled by two checks: it reports three and has traded two |
| `RunWitnesses.TwoMembersTrade` | exchange_simulator/exchange_advanced_orders.py:292-305 | a run from a new exchange in which an iceberg is sliced and its sibling then filled: both have traded, the iceberg is cancelled |
| `RunTheorems.SliceProgress` | exchange_simulator/exchange_advanced_orders.py:174-192 | an accepted slice strictly shrinks the hidden quantity, a refused one changes neither order nor account |
| `EquityAtFixedMarks.MarketPriceNoBetter` | exchange_simulator/exchange_order_submission.py:192-209 | slippage and impact make a market price no better than the mark |
| `EquityAtFixedMarks.AveragedNoBetter` | exchange_simulator/exchange_order_submission.py:440-450 | averaging a large fill never improves on the mark |
| `EquityAtFixedMarks.SellPriceSignIff` | exchange_simulator/exchange_order_submission.py:192-209 | a market sale's price is non-negative if and only if slippage plus impact take at most the whole price |
| `EquityAtFixedMarks.AveragedPastLimitIff` | exchange_simulator/exchange_order_submission.py:442-448 | the average of an immediate fill, before it is rounded, lies strictly past its limit if and only if it exceeds 500 units |
| `LimitPrices.ImmediateFillPastIff` | exchange_simulator/exchange_order_submission.py:440-450 | the stored, rounded price of an immediate fill lies past its limit if and only if the limit moved by the excess of its size rounds to a tick past the limit, for every limit, side and size |
| `LimitPrices.OnTickFillPastIff` | exchange_simulator/exchange_order_submission.py:440-450 | for a limit on the grid: if and only if limit * 0.001 * (1 - 500/quantity)^2, for more than 500 units, exceeds half a tick, or equals it from an odd tick |
| `LimitPrices.LargeFillAtLimit` | exchange_simulator/exchange_order_submission.py:440-450 | 501 units bought at a limit of 100 are stored at 100 |
| `LimitPrices.SmallFillPastLimit` | exchange_simulator/models.py:9-17 | one unit bought at a limit of 100.006 is stored at 100.01 |
| `LimitPrices.SubmittedFillPastIff` | exchange_simulator/exchange_order_submission.py:347-375 | the same condition for the order a submission stores |
| `LimitPrices.RestingFillPrice` | exchange_simulator/exchange_advanced_orders.py:236-246 | over any run a filled resting limit or stop-limit was filled in full at its limit rounded to the tick: the limit itself if and only if that is on the grid, past it if and only if it rounds that way |
| `EquityAtFixedMarks.StepNoGain` | exchange_simulator/exchange_advanced_orders.py:65-68 | at prices on the grid no event but funding raises equity with insurance and remainders counted in |
| `EquityAtFixedMarks.RunNoGain` | exchange_simulator/exchange_order_submission.py:347-375 | nor does any run of such events |
| `EquityAtFixedMarks.NoEquityFromTrading` | exchange_simulator/exchange.py:161-163 | over any run at fixed prices reported equity rises by at most what the insurance fund paid in, when no remainder is dropped |
| `LiquidationBounds.FullImpliesPartial` | exchange_simulator/exchange_liquidation.py:46-69 | with a ratio of at most one, reaching the full level implies reaching the partial one |
| `LiquidationBounds.LevelsNear` | exchange_simulator/exchange_liquidation.py:46-58 | both levels lie within half a cent of entry -/+ entry * (1/leverage - maintenance), or ratio/leverage for the partial one, with the leverage written out |
| `LiquidationBounds.CheckDecides` | exchange_simulator/exchange_liquidation.py:17-81 | one check of the stops, position by position: gone past the full level or at its stop or target, cut by the ratio between the levels, and otherwise unchanged |
| `LiquidationBounds.NothingToClose` | exchange_simulator/exchange_liquidation.py:32-81 | if every mark is outside both levels and short of stop and target the check changes nothing at all |
| `LiquidationBounds.OthersUncovered` | exchange_simulator/exchange_liquidation.py:94-95 | a close that is no full liquidation costs the insurance fund nothing |
| `LiquidationBounds.LiquidatedAtEntry` | exchange_simulator/exchange_liquidation.py:46-69 | marked at entry a position is in no liquidation when entry * (ratio/leverage - maintenance) exceeds half a cent, and is in one below minus half a cent |
| `LiquidationBounds.LiquidatedAtEntryIff` | exchange_simulator/exchange_liquidation.py:46-69 | it is in no liquidation if and only if that room in cents, plus what the entry lacks to a whole cent, exceeds half a cent or equals it from an odd cent |
| `LiquidationBounds.LiquidationCovered` | exchange_simulator/exchange_liquidation.py:84-111 | after a full liquidation the balance is not negative and the fund has paid exactly the deficit |
| `LiquidationBounds.CloseReduces` | exchange_simulator/exchange_liquidation.py:84-92 | a triggered partial close takes its quantity off the position at an unchanged entry and margin per unit |
| `LiquidationBounds.CloseFrame` | exchange_simulator/exchange_liquidation.py:84-92 | a triggered close leaves the positions of other symbols alone |
| `LiquidationBounds.OtherEventsSpare` | exchange_simulator/exchange.py:57-105 | funding, cancels and submissions in other symbols trade nothing in a symbol |
| `LiquidationBounds.BandLadder` | exchange_simulator/exchange_liquidation.py:32-44 | over a run in which every event either checks the stops at a price in the position's partial band or trades nothing in its symbol, n such checks leave quantity * (1 - ratio)^n at unchanged entry and margin per unit |
| `PriceHistory.RunFollows` | exchange_simulator/exchange_advanced_orders.py:37-159 | over any run a resting order is pending exactly when no checked price fired it, with the terms the whole price history gives, unless it was cancelled; a filled limit or stop-limit was filled in full at its limit rounded to the tick |
| `PriceHistory.TrailingLevel` | exchange_simulator/models.py:224-252 | the incremental level is the trail applied to the extreme of all prices checked |
| `PriceHistory.TrailingStopHistory` | exchange_simulator/exchange_advanced_orders.py:134-159 | over any run a sell trailing stop stays pending exactly while every price is strictly above the highest so far less its trail, a buy stop strictly below the lowest plus its trail |
| `PriceHistory.SellTrailNeverFallsIff` | exchange_simulator/models.py:245-252 | a sell stop never falls, whatever comes, if and only if the trail is absolute or at most 100 percent |
| `PriceHistory.BuyTrailNeverRises` | exchange_simulator/models.py:237-244 | a buy stop never rises |
| `PriceHistory.StopLimitHistory` | exchange_simulator/models.py:190-202 | a stop-limit is triggered exactly when some price so far was at or below its stop for a sell, at or above for a buy, and attempts its fill at the first price through the limit from then on |
| `PriceHistory.StopLimitRun` | exchange_simulator/exchange_advanced_orders.py:106-132 | the same over whole runs of the exchange |
| `PriceHistory.FavourableNeverFires` | exchange_simulator/models.py:224-262 | over any run a trailing stop with a positive trail never fires while the checked prices move only in its favour |
| `PriceHistory.LimitRun` | exchange_simulator/exchange_advanced_orders.py:37-69 | over any run a limit order nobody cancelled is pending exactly when every checked price stayed strictly outside its limit |
| `DeferredRemoval.TickPurged` | exchange_simulator/exchange_advanced_orders.py:44-72 | working an entry commutes with the removal of finished entries, so removing them after the loop equals removing them at once |
| `Exchange.SimulatedExchange.SetOrderStatus` | exchange_simulator/models.py:148-156 | a status assignment is counted exactly when the order is watched and the status changes |
| `Exchange.SimulatedExchange.AppendHistory` | exchange_simulator/exchange.py:45-54 | appending counts a submission and the current status, and starts watching |
| `Exchange.SimulatedExchange.ResolveOco` | exchange_simulator/exchange_order_submission.py:377-395 | marking the group, cancelling siblings one by one and popping them afterwards gives `Resolve` |
| `Exchange.SimulatedExchange.ExecuteResting` | exchange_simulator/exchange_advanced_orders.py:197-290 | the margin check, fill and finalization give `Execute` once the finished entry is popped |
| `Exchange.SimulatedExchange.WorkIceberg` | exchange_simulator/exchange_advanced_orders.py:185-192 | the slice and, after the last, the completion give `Slice` |
| `Exchange.SimulatedExchange.WorkLimit` | exchange_simulator/exchange_advanced_orders.py:45-69 | one entry of the limit book: expiry first, then the limit |
| `Exchange.SimulatedExchange.WorkStopLimit` | exchange_simulator/exchange_advanced_orders.py:111-129 | one entry of the stop-limit book |
| `Exchange.SimulatedExchange.WorkTrailing` | exchange_simulator/exchange_advanced_orders.py:139-156 | one entry of the trailing-stop book |
| `Exchange.SimulatedExchange.WorkHidden` | exchange_simulator/exchange_advanced_orders.py:166-192 | one entry of the iceberg book |
| `Exchange.SimulatedExchange.CheckBook` | exchange_simulator/exchange_advanced_orders.py:37-72 | the loop over a snapshot, skipping entries cancelled meanwhile and popping at the end, equals the sweep |
| `Exchange.SimulatedExchange.CheckAdvancedOrders` | exchange_simulator/exchange_advanced_orders.py:21-35 | the four loops in order equal `CheckAdvanced` |
| `Exchange.SimulatedExchange.Cancel` | exchange_simulator/exchange_advanced_orders.py:74-87 | cancels the order and says so exactly when it is pending, in whichever book |
| `Exchange.SimulatedExchange.CancelAllOrders` | exchange_simulator/exchange_advanced_orders.py:89-104 | book by book, cancels every resting order or those of one symbol |
| `Exchange.SimulatedExchange.SubmitOrder` | exchange_simulator/exchange_order_submission.py:26-133 | validation, group, pricing, resting or filling give `Submit` and keep every invariant |
| `Exchange.SimulatedExchange.RouteLimit` | exchange_simulator/exchange_order_submission.py:271-333 | a priced limit order fills, rests, is cancelled or rejected exactly as `Submit` decides |
| `Exchange.SimulatedExchange.FillOrder` | exchange_simulator/exchange_order_submission.py:347-375 | margin and size checks, fill, averaging, fee, margin and group resolution give `FillNow` |
| `Exchange.SimulatedExchange.CheckStopLossTakeProfit` | exchange_simulator/exchange_liquidation.py:17-30 | triggers are collected before any close, then closed in order |
| `Exchange.SimulatedExchange.CollectTriggers` | exchange_simulator/exchange_liquidation.py:22-44 | the loop finds full liquidation, partial liquidation, stop and target in that order of precedence for each position |
| `Exchange.SimulatedExchange.CloseOne` | exchange_simulator/exchange_liquidation.py:84-95 | a forced opposite market order, and deficit cover after a full liquidation only |
| `RingBuffer.AcceptedIffPowerOfTwo` | ai-signal-bot/src/communication/shm_ring_buffer.py:116-117 | the constructor's bit test accepts exactly the powers of two |
| `RingBuffer.MaskIsModulo` | ai-signal-bot/src/communication/shm_ring_buffer.py:194-210 | masking with capacity - 1 is reduction modulo the capacity, for every counter value |
| `RingBuffer.WriterAvoidsReadable` | ai-signal-bot/src/communication/shm_ring_buffer.py:210-214 | the slot being written is never one still to be read |
| `RingBuffer.StepKeepsIff` | ai-signal-bot/src/communication/shm_ring_buffer.py:201-263 | a single read or write of either process keeps the ring invariant if and only if it does not publish a pop of a negative count |
| `RingBuffer.DeliversInOrderIff` | ai-signal-bot/src/communication/shm_ring_buffer.py:201-263 | under every interleaving, tail <= head <= tail + capacity and the delivered items are the first of the accepted ones in every state, if and only if no negative pop is published |
| `RingBuffer.NonNegativePopsNeverRewind` | ai-signal-bot/src/communication/shm_ring_buffer.py:248-263 | and none is when no pop asks for a negative count |
| `RingBuffer.StepIsAtomic` | ai-signal-bot/src/communication/shm_ring_buffer.py:201-263 | the two processes refine an atomic queue: only the publishing writes change it, by exactly the batch or the result, or, for a negative pop, by putting delivered items back in front |
| `RingBuffer.PushTakesWhatFits` | ai-signal-bot/src/communication/shm_ring_buffer.py:203-208 | a single push is refused and counted only when the ring is full; a bulk push takes as many as fit |
| `RingBuffer.PopTakesWhatIs` | ai-signal-bot/src/communication/shm_ring_buffer.py:217-263 | a single pop comes back empty-handed only from an empty ring; a bulk pop sets out to take as many as asked for or all there are |
| `RingBuffer.PushCall` | ai-signal-bot/src/communication/shm_ring_buffer.py:201-246 | a whole push, access by access, undisturbed: the queue grows by what fits, and a single push into a full ring is counted as dropped |
| `RingBuffer.PopCall` | ai-signal-bot/src/communication/shm_ring_buffer.py:217-263 | a whole pop, access by access, undisturbed: that many items come off the front, in order |
| `RingBuffer.PopSoundIff` | ai-signal-bot/src/communication/shm_ring_buffer.py:248-263 | a bulk pop keeps the invariant if and only if its count is non-negative; otherwise it winds the tail back |
| `RingBuffer.BulkPushIsSinglePushes` | ai-signal-bot/src/communication/shm_ring_buffer.py:232-246 | the queue after a bulk push is that after single pushes of the same items |
| `RingBuffer.BulkPopIsSinglePops` | ai-signal-bot/src/communication/shm_ring_buffer.py:248-263 | a bulk pop returns and leaves what repeated single pops do |
| `RingBuffer.ShmRingBuffer.Create` | ai-signal-bot/src/communication/shm_ring_buffer.py:116-117 | fails for every capacity that is no power of two, else gives an empty buffer |
| `RingBuffer.ShmRingBuffer.TryPush` | ai-signal-bot/src/communication/shm_ring_buffer.py:201-215 | appends and says so unless full, else counts one drop |
| `RingBuffer.ShmRingBuffer.TryPop` | ai-signal-bot/src/communication/shm_ring_buffer.py:217-230 | takes the oldest item, or nothing from an empty buffer |
| `RingBuffer.ShmRingBuffer.BulkPush` | ai-signal-bot/src/communication/shm_ring_buffer.py:232-246 | the loop appends as many items as fit, without touching readable slots |
| `RingBuffer.ShmRingBuffer.BulkPop` | ai-signal-bot/src/communication/shm_ring_buffer.py:248-263 | the loop takes up to the count in order; a negative count moves the tail back or fails |
| `RingBuffer.ShmRingBuffer.Size` | ai-signal-bot/src/communication/shm_ring_buffer.py:265-269 | the number of items held |
| `SnapshotSlot.RestNumber` | ai-signal-bot/src/communication/shm_market_data_writer.py:84-99 | at rest the number is twice the completed writes plus the failed ones, so even exactly when those are even in number |
| `SnapshotSlot.ReachedStep` | ai-signal-bot/src/communication/shm_market_data_writer.py:84-99 | every access by writer or observer, in any order of words and with failing writes, keeps the numbering and the stored words |
| `SnapshotSlot.ObservedSnapshot` | ai-signal-bot/src/communication/shm_market_data_writer.py:84-99 | an observer that saw one even number before and after copying all words has exactly one completely written snapshot, or the zeros |
| `SnapshotSlot.ObservedIsLatest` | ai-signal-bot/src/communication/shm_market_data_writer.py:84-99 | while the number stays the same and even the slot holds the latest complete snapshot throughout |
| `SnapshotSlot.AcceptedIsWrittenIff` | ai-signal-bot/src/communication/shm_market_data_writer.py:84-99 | in a state of any run with failed writes: whatever happens next short of another failure, every accepted copy is a completely written message if and only if the failures are even in number, the words outside a write are a whole message, and an observer under way can only complete one |
| `SnapshotSlot.NewReaderSafeIff` | ai-signal-bot/src/communication/shm_market_data_writer.py:84-99 | for an observer that begins at rest: if and only if the failures are even in number and the words are a message of the history |
| `SnapshotSlot.TwoFailuresTorn` | ai-signal-bot/src/communication/shm_market_data_writer.py:85-99 | two failed writes after which a reader at rest accepts words nobody wrote together |
| `SnapshotSlot.BegunReaderTorn` | ai-signal-bot/src/communication/shm_market_data_writer.py:85-99 | a run after which an observer under way can accept a mixture although the failures are even in number and the words a whole message |
| `SnapshotSlot.HalfWrittenAcceptedIff` | ai-signal-bot/src/communication/shm_market_data_writer.py:85-99 | a reader in the middle of a write gets its words as they stand under one number, which is even if and only if an odd number of earlier writes failed |
| `SnapshotSlot.WholeWriteRun` | ai-signal-bot/src/communication/shm_market_data_writer.py:84-99 | an uninterrupted call leaves the message and a number two higher |
| `SnapshotSlot.ShmMarketDataWriter.WriteSnapshot` | ai-signal-bot/src/communication/shm_market_data_writer.py:69-99 | the loop writes the symbol's slot and no other; an unknown symbol is ignored |
| `OrderBooks.SortedOrdered` | exchange_simulator/market_simulator.py:349-350 | sorting a side orders it by price and keeps every level |
| `OrderBooks.FullKeeps` | exchange_simulator/market_simulator.py:330-354 | a generated book is ordered, uncrossed, with non-negative quantities on lots, and its middle within half a cent of the price |
| `OrderBooks.ScaledKeeps` | exchange_simulator/market_simulator.py:315-328 | scaling keeps all of that, for any book and any positive new price |
| `OrderBooks.FullSpread` | exchange_simulator/market_simulator.py:330-347 | the best quotes of a generated book lie at half the spread, max(1, 10 * volatility) ten-thousandths of the price; pair i between i+1 and 1.3i+1 times as far, up to half a tick; the sides hold exactly these levels with their own quantities |
| `OrderBooks.ScaledNear` | exchange_simulator/market_simulator.py:318-327 | scaling moves each price by the ratio up to half a tick and changes each quantity by at most a tenth and half a lot |
| `OrderBooks.EveryBookTidy` | exchange_simulator/market_simulator.py:293-313 | after any number of updates the same holds for the latest price: rounding errors do not add up |
| `OrderBooks.CacheReused` | exchange_simulator/market_simulator.py:305-313 | above half a cent the cached book is always reused: served scaled, with as many levels |
| `OrderBooks.NoPriceNoBook` | exchange_simulator/market_simulator.py:293-304 | without a price an empty book is served and the cache stays as it is |
| `OrderBooks.OrderBook.IncrementalUpdate` | exchange_simulator/market_simulator.py:315-328 | the loop over level objects scales each once, or refuses a book whose own middle is not positive |
| `OrderBooks.GenerateFull` | exchange_simulator/market_simulator.py:330-354 | the loop and the two sorts build the full book from fresh levels |
| `OrderBooks.BookCache.GenerateOrderBook` | exchange_simulator/market_simulator.py:293-313 | serves the cached book scaled in place when usable, else a new one that replaces it; a zero price leaves the cache alone |
| `BookDeltas.DiffersIffChanged` | exchange_simulator/ws_broadcast.py:205-211 | for quantities on lots the encoder's tolerance hides nothing: a price differs exactly when its level changed |
| `BookDeltas.DecodesEncoded` | exchange_simulator/ws_broadcast.py:204-220 | applying an encoding to a copy of the old side gives the new side, up to zero-quantity levels |
| `BookDeltas.ClientHoldsServerBook` | exchange_simulator/ws_broadcast.py:181-234 | after any number of ticks and resets a client connected from the start holds every book as last broadcast, up to zero-quantity levels |
| `BookDeltas.CachedBooksQualify` | exchange_simulator/market_simulator.py:326-327 | every book the cache ever serves meets the lot condition of these results |
| `BookDeltas.ListClientAgrees` | web-ui/src/hooks/useExchangeData.js:135-153 | the list-based client does what the dictionary client does when no price is repeated, and keeps it so |
| `BookDeltas.ListClientAgreesIff` | web-ui/src/hooks/useExchangeData.js:135-153 | it does so for every change if and only if no price is repeated in its list |
| `BookDeltas.RepeatedPriceLingers` | web-ui/src/hooks/useExchangeData.js:137-147 | in any list with a repeated price the deletion of that price leaves a level of it behind |
| `BookDeltas.ListClientsFollow` | web-ui/src/hooks/useExchangeData.js:127-158 | over any run without a repeated price in a full book, the lists a list client keeps have distinct prices after every message and read as what the dictionary client holds |
| `BookDeltas.ListClientsHoldServerBook` | hft-trade-bot/src/communication/signal_receiver_handlers.h:160-237 | so the web client, which sorts after a message, and the trade bot, which moves each new level to its place, hold every book as last broadcast, up to zero-quantity levels |
| `BookDeltas.ListClientsOrdered` | hft-trade-bot/src/communication/signal_receiver_handlers.h:213-237 | both clients' sides stay in order of price if the full books came so, also with repeated prices |
| `BookDeltas.RepeatedPriceOutlivesBook` | hft-trade-bot/src/communication/signal_receiver_handlers.h:213-237 | after a full book that repeats a price and any next book without it, both clients still show it |
| `BookDeltas.FullBookRepeatsPrice` | exchange_simulator/market_simulator.py:330-354 | at a price of 5 every generated book of at least three levels has 4.99 twice among its bids and 5.01 twice among its asks |
| `BookDeltas.OrderbookBroadcaster.Collect` | exchange_simulator/ws_broadcast.py:187-190 | the loop fills a dictionary in which later levels of a price win |
| `BookDeltas.OrderbookBroadcaster.SideChanges` | exchange_simulator/ws_broadcast.py:204-211 | the two loops list exactly the differing prices, once each, gone ones with quantity zero, in whatever order they are visited |
| `BookDeltas.OrderbookBroadcaster.ComputeDelta` | exchange_simulator/ws_broadcast.py:181-230 | full book for a new key, silence when nothing differs, else both change lists; the book is remembered |
| `OrderDeduplication.RunKeeps` | exchange_simulator/ws_message_handler.py:263-267 | map and queue always hold the same distinct keys, the last recorded up to the window size, in order of recording, each with its order |
| `OrderDeduplication.RepeatedIff` | exchange_simulator/ws_message_handler.py:244-256 | an order is answered from memory exactly when its key is among the last 10,000 recorded, with that key's order and no change of state |
| `OrderDeduplication.ResubmissionIdempotent` | exchange_simulator/ws_message_handler.py:220-267 | with at most 10,000 distinct recorded ids a message log, with any other changes of the exchange between its orders, leaves the exchange as the log without repeats of recorded ids leaves one with no deduplication |
| `OrderDeduplication.EvictedIsResubmitted` | exchange_simulator/ws_message_handler.py:266-267 | recording one more id than the window holds makes the oldest one's repeat a second submission |
| `OrderDeduplication.KeyInjective` | exchange_simulator/ws_message_handler.py:245 | keys determine exchange and id as long as no exchange name contains a colon |
| `OrderDeduplication.MessageHandler.HandleOrder` | exchange_simulator/ws_message_handler.py:220-267 | the handler answers and updates book, map and queue as specified, in every branch |
| `CircuitBreakers.NothingAdmittedInCooldown` | ai-signal-bot/src/communication/circuit_breaker.py:61-68 | over every timed run without reset an admission comes at least the cooldown after every earlier trip |
| `CircuitBreakers.AdmittedOnceCooled` | ai-signal-bot/src/communication/circuit_breaker.py:61-100 | a tripped breaker that is only asked admits a request exactly when the cooldown has passed and probes are configured |
| `CircuitBreakers.FailedProbeBlocks` | ai-signal-bot/src/communication/circuit_breaker.py:115-121 | a failure in half-open trips at once and blocks for another cooldown |
| `CircuitBreakers.RequestsAccounted` | ai-signal-bot/src/communication/circuit_breaker.py:86-100 | over any run every request is either admitted or counted as blocked |
| `CircuitBreakers.TripsCounted` | ai-signal-bot/src/communication/circuit_breaker.py:126-131 | over any run each trip is counted once |
| `CircuitBreakers.StreaksStartOver` | ai-signal-bot/src/communication/circuit_breaker.py:102-131 | a trip, a close and a reset clear both streaks; a reset gives the probes back |
| `CircuitBreakers.EpisodeAdmits` | ai-signal-bot/src/communication/circuit_breaker.py:95-100 | a half-open episode admits at most the configured probes |
| `CircuitBreakers.SuccessesOnlyHalfOpen` | ai-signal-bot/src/communication/circuit_breaker.py:102-124 | successes are zero outside half-open, over every run |
| `CircuitBreakers.FirstTripIff` | ai-signal-bot/src/communication/circuit_breaker.py:115-124 | a new breaker trips exactly when a streak of failures reaches the threshold, and is closed until then |
| `CircuitBreakers.ClosableIff` | ai-signal-bot/src/communication/circuit_breaker.py:86-113 | from a new half-open episode, by outcomes of its own probes, closed is reachable if and only if the probes suffice for the successes demanded |
| `CircuitBreakers.WedgedForever` | ai-signal-bot/src/communication/circuit_breaker.py:95-113 | with all probes used and answered short of the threshold, no signal is ever admitted again |
| `CircuitBreakers.DefaultsWedge` | ai-signal-bot/src/communication/circuit_breaker.py:36-39 | so it is with the defaults after one trip and one successful probe |
| `CircuitBreakers.CircuitBreaker.State` | ai-signal-bot/src/communication/circuit_breaker.py:61-68 | reading the state performs the timed transition |
| `CircuitBreakers.CircuitBreaker.AllowSignal` | ai-signal-bot/src/communication/circuit_breaker.py:86-100 | admits exactly as specified and counts probes and blocks |
| `CircuitBreakers.CircuitBreaker.RecordSuccess` | ai-signal-bot/src/communication/circuit_breaker.py:102-113 | closes from half-open at the threshold, clears failures when closed |
| `CircuitBreakers.CircuitBreaker.RecordFailure` | ai-signal-bot/src/communication/circuit_breaker.py:115-124 | trips from half-open at once and otherwise at the threshold |
| `Backtesting.RunIsCausal` | ai-signal-bot/src/backtesting/backtester.py:126-151 | a run on a prefix of the candles has a prefix of the equity curve and, apart from the END close, of the trades |
| `Backtesting.OpeningFromPast` | ai-signal-bot/src/backtesting/backtester.py:208-246 | the direction, stop and target of a position opened at a bar depend only on earlier bars |
| `Backtesting.FinalBalance` | ai-signal-bot/src/backtesting/backtester.py:287-322 | the final balance is the initial one plus the sum of the trades' profits |
| `Backtesting.EveryTradeExact` | ai-signal-bot/src/backtesting/backtester.py:287-322 | over any run each trade books the move from entry to exit in its direction, times its quantity, less the fee on both ends |
| `Backtesting.CloseRealisesEquity` | ai-signal-bot/src/backtesting/backtester.py:287-322 | a close leaves the equity marked at the exit price after slippage, less the fees of both ends |
| `Backtesting.CurveMeetsBalance` | ai-signal-bot/src/backtesting/backtester.py:153-172 | the curve ends at the final balance but for slippage and fees of the closing trade |
| `Backtesting.BarWithPosition` | ai-signal-bot/src/backtesting/backtester.py:174-229 | a bar with a position: out at the stop if touched, else at the target if touched, else at the close exactly on an opposite signal |
| `Backtesting.BarWithoutPosition` | ai-signal-bot/src/backtesting/backtester.py:231-284 | a position opened meets the risk limit or the notional limit exactly, at the close after slippage, with the signal's stop and target |
| `Backtesting.OpensWhenItCan` | ai-signal-bot/src/backtesting/backtester.py:249-270 | with money, limits and an entry away from the stop a signal is taken |
| `Backtesting.SignalsCounted` | ai-signal-bot/src/backtesting/backtester.py:83-100 | over any run the strategy is asked at every bar but those that close at a stop or target |
| `Backtesting.WindowIsLast` | ai-signal-bot/src/backtesting/backtester.py:126-134 | the window is the last bars before the current one, twice the warm-up, at least 200, or all |
| `Backtesting.FallIs` | ai-signal-bot/src/backtesting/backtest_metrics.py:24 | a fall is in percent of a positive peak |
| `Backtesting.MaxDrawdownExact` | ai-signal-bot/src/backtesting/backtest_metrics.py:21-26 | the maximum drawdown is attained by some bar and bounds every bar's fall from the highest point up to it |
| `Backtesting.OpenedWithinLimits` | ai-signal-bot/src/backtesting/backtester.py:258-270 | an opened position risks at most the configured share at its stop and stays within the notional limit |
| `Backtesting.Backtester.Replay` | ai-signal-bot/src/backtesting/backtester.py:110-151 | the replay loop gives the specified result, with the longest drawdown of its curve |
| `Backtesting.Backtester.ManagePositionOrEntry` | ai-signal-bot/src/backtesting/backtester.py:83-100 | stop and target first, else the strategy decides on reversal or entry |
| `Backtesting.Backtester.ClosePosition` | ai-signal-bot/src/backtesting/backtester.py:287-322 | records the trade net of both fees and adds its profit to the balance |
| `Backtesting.Backtester.TrackEquityAndDrawdown` | ai-signal-bot/src/backtesting/backtester.py:102-108 | appends the marked equity and updates peak and drawdown |
| `Backtesting.Backtester.LongestDrawdown` | ai-signal-bot/src/backtesting/backtest_metrics.py:67-83 | the length of the longest stretch of consecutive bars below an earlier bar: some stretch has it and none is longer |

## Left out

- FillNow: `_depth_covers` unpacks order-book levels as pairs although they are objects, so the answer to the fill-or-kill depth test is an input of `Submit`.
- NoEquityFromTrading: assumes non-negative fees and slippage, quoted prices on the tick grid and limit prices that are not negative. Sales at the market, submitted or forced, are of sizes that `SellPriceSignIff` shows to be exactly those with a non-negative price, and a sell trailing stop needs slippage of at most 100 percent; other orders may be of any size. Dropped remainders are counted in `RunNoGain`, which needs no such condition.
- RunFollows: icebergs are not followed, as a slice depends on the balance at that moment; `IcebergAccounting` covers them.
- DeliversInOrderIff: word accesses are sequentially consistent and counters stay below 2^64, as the batched page flushes and struct packing are not modelled.
- ObservedSnapshot: names the message an observer has, for runs in which no write fails half-way; `AcceptedIsWrittenIff` covers the others.
- ObservedIsLatest: the same runs.
- WriteSnapshot: takes a message that packs; the failing case is the `Fail` access of the small-step model. A negative symbol id, which line 79 lets through, addresses bytes of another slot and then fails to pack; it is outside the model.
- ClientHoldsServerBook: the client is connected from the key's first full book; later joiners get a snapshot that is not the delta baseline.
- ListClientsHoldServerBook: as for `ClientHoldsServerBook`. Full books are taken per key, whereas the web client replaces all of its books when a message has any; the server sends them for all keys or for none unless the symbols change.
- ResubmissionIdempotent: an order's effect is any function of the exchange's state and the request, so exceptions that leave a half-made change are not separated from other outcomes.
- RunIsCausal: runs without a risk manager, because `_process_risk_update` calls a method the class does not define; the strategy is a pure function of its window.
- CheckBook: the list of filled orders the loop appends to is not collected; nor do `CheckAdvancedOrders`, `CancelAllOrders` and `CheckStopLossTakeProfit` return theirs.
- CheckAdvancedOrders: see `CheckBook`.
- CancelAllOrders: see `CheckBook`.
- CheckStopLossTakeProfit: see `CheckBook`.
- SubmitOrder: the answer of the fill-or-kill depth test is an input, as for `FillNow`.
- RouteLimit: as for `SubmitOrder`.
- CloseOne: the close reason written to the order and to its trade record.
- ClosePosition: in `AccountBook` the closed-trade record; in `Backtester` the profit percentage of the trade.
- ChargeFunding: the notification texts it returns.
- ResolveOco: the ids an OCO group remembers as cancelled, which only its dictionary form shows.
- Replay: percentages, ratios and averages derived from trades and curve are not modelled, nor the pnl percentage of a trade.
- Floating-point rounding and NaN: quantities are reals, so the NaN test of the quantity has no counterpart.
- Symbols, groups and order ids are numbers; rejection reasons, slippage fields, timestamps, trade history entries and the audit log are left out.
- The order history keeps no contents: only its counters, which do not depend on the window of 10,000.
- The slice counter that an iceberg keeps for display (`slices_remaining`, `current_slice_filled`) decides nothing and is left out.
- The cache of order books and the remembered books of the broadcaster are modelled per key; timestamps are left out.
- Sockets, encodings, authentication, subscriptions, persistence, candle generation, option pricing, real-exchange adapters, the arbitrage detector and the strategies themselves.
