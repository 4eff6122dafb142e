# Models of the trading core

This project models the stateful parts of the trading system and proves what
they keep, each module beside the file it models. Prices, quantities and
latencies are `real`; a clock reading is a parameter; what a provider, a
strategy or a brain answers is an arbitrary input.

- **Paper exchange** (`PaperLedger`, `PaperExchange`, `PaperTrading`;
  `execution.py`). Fills move signed positions and the balance. Equity moves by
  the cash flow of each fill plus an exact correction for two kinds of fill,
  exact closes of a short and flips through zero; a fill has no correction
  exactly when it is neither of these or trades at the entry price. The order book is a
  state machine over place, cancel and price events, and `PaperClient` is the
  object that takes its steps.
- **Backtest simulators** (`BrainBacktest`, `Backtest`, `Drawdown`;
  `orchestrator/brain_backtest.py`, `orchestrator/backtest.py`). Whole-run
  accounting, compounding of stop-outs, a floor for marked equity, why each
  trade closed when it did, and the maximum drawdown.
- **Order slicing and venue splitting** (`OrderSlicing`, `VenueRouting`;
  `orchestrator/execution.py`). Conservation of quantity with true rounding
  bounds for TWAP, VWAP, iceberg and the venue split.
- **Inference failover** (`InferenceBreaker`, `SemanticCache`,
  `AgentRouting`; `inference/router.py`, `inference/cache.py`,
  `orchestrator/agent_routing.py`). A circuit breaker shared by interleaved
  requests, a cache that is observationally a log, and stable reordering of
  provider chains by smoothed latency.
- **Risk engine** (`EnhancedRisk`; `orchestrator/enhanced_risk.py`). A timed
  circuit breaker over event logs, and Kelly sizing from the recorded results.
- **Streaming market state** (`MarketStructure`, `Features`, `CandleBuffer`,
  `SessionState`; `orchestrator/market_structure.py`, `features.py`,
  `orchestrator/candle_buffer.py`, `state.py`). Bounded windows and running
  values agree with definitions over the whole history.
- `RealMath`, `Sorting`, `Windows` and `Options` hold what the modules share:
  rounding to eight decimals with ties to even, sums, a stable sort with its
  characterisation, and the contents of a bounded deque.

Every method is proved to compute a function of its inputs or of the old state;
the lemmas then state what that function keeps over all inputs and all runs.

## Where code and documentation differ

The models follow the code in each case.

- An exact close of a short books its profit with the wrong sign
  (`execution.py:282`), and a flip through zero keeps the old entry price
  (`execution.py:290-295`): `PaperLedger.ShortCloseWitness` and
  `PaperLedger.FlipWitness`. `PaperLedger.PlainFillIff` says exactly which fills
  obey the law that a trader expects, `PaperLedger.PlainConservationIff` exactly
  which histories.
- An exit at the second target books half of the profit and drops the other
  half (`orchestrator/backtest.py:302-307`): `Backtest.SecondTargetWitness` has
  an input, `Backtest.ExitShortfall` the amount for any exit, and
  `Backtest.ExitBooksMarkedIff` says from position and candle exactly which
  exits book everything.
- The "trailing" stop of the brain backtest never trails: it is 1.5% from the
  entry price for the life of the position
  (`orchestrator/brain_backtest.py:259-261`): `BrainBacktest.TrailingWitness`
  has an input, `BrainBacktest.TrailsIff` says exactly when it agrees with a
  trailing one. The 3% stop and the take profit that an entry records close no
  position: `BrainBacktest.TradesExplained`.
- The iceberg planner accepts a negative total without a display size and then
  plans more than the order: `OrderSlicing.IcebergOverPlans` has the planned
  sum, `OrderSlicing.IcebergConservesIff` exactly when a plan conserves.
- `create_execution_plan` documents 0.1, 1 and 10 as its size limits; the code
  uses 0.01, 0.5 and 5 (`orchestrator/execution.py:407-446`).
  `OrderSlicing.AsDocumentedIff` has an order that gets another algorithm than
  the documented one, and says exactly which orders get that one.
- `get_optimal_provider_chain` documents an order by P50 latency; the code
  sorts by the smoothed latency (`orchestrator/agent_routing.py:523-561`):
  `AgentRouting.P50OrderWitness` has recorded latencies for which the two
  orders differ, `AgentRouting.ChainInP50OrderIff` says from table and base
  chain exactly when an adaptive chain is in P50 order.
- A swing at row 0, which only a window of 0 can produce, is never seen by the
  break detector: `MarketStructure.WindowZeroWitness` has an input, and
  `MarketStructure.DetectorMeetsDefinitionIff` says exactly when the detector
  meets the definition all the same.
- The volume ratio is never reported, since its window is one value too short
  (`features.py:46`, `features.py:171`): `Features.FeatureExtractor.VolumeRatio`.
- `CandleBuffer.get` with a limit of 0 returns everything:
  `CandleBuffer.LimitKeptIff`.
- A first session on day 0 of the epoch opens at price 0:
  `SessionState.OpenIsFirst`.

## Model

| member | source | states |
|---|---|---|
| `PaperLedger.EquityOfFill` | execution.py:262-297 | one fill, with any mark prices, changes equity by its own flow plus its correction |
| `PaperLedger.EquityOfReplay` | execution.py:262-297 | the conservation law for every sequence of fills over any symbols and marks, corrections included |
| `PaperLedger.UnbiasedIff` | execution.py:280-297 | the correction of a fill is zero exactly if it neither closes a short nor flips through zero, or trades at the entry price |
| `PaperLedger.PlainFillIff` | execution.py:280-297 | equity moves by exactly the fill's flow if and only if the fill is unbiased, a condition on position and fill known beforehand |
| `PaperLedger.PlainConservation` | execution.py:262-297 | without biased fills, equity is the initial equity plus what every fill has made |
| `PaperLedger.PlainConservationIff` | execution.py:262-297 | equity follows the plain law at every point of a history if and only if every fill of it is unbiased |
| `PaperLedger.FlipWitness` | execution.py:290-295 | selling two of a position of one leaves a short at the old entry price, and equity too low by the profit made |
| `PaperLedger.ShortCloseWitness` | execution.py:280-284 | a short sold at 100 and bought back at 90 books a loss of 10 instead of a profit of 10 |
| `PaperLedger.PositionIsNetQty` | execution.py:262-297 | a position's size is the net signed quantity of its symbol's fills, it exists exactly if that is not zero, and its entry price is within the fill prices |
| `PaperLedger.ReplayKeepsPositionsOpen` | execution.py:280-297 | no stored position ever has size 0 |
| `PaperExchange.SweepSplits` | execution.py:210-260 | a price update turns each order into exactly one fill or keeps it, never both, in order |
| `PaperExchange.KeptMeaning` | execution.py:213-236 | the orders that stay are exactly those that the price does not fill |
| `PaperExchange.NewFillMeaning` | execution.py:213-255 | the new fills are exactly those of the orders that the price fills |
| `PaperExchange.NothingMarketableLeft` | execution.py:205-236 | after a price update a pending order of the symbol is a limit order strictly away from the price |
| `PaperExchange.PriceDecides` | execution.py:205-260 | at every price update of every run: a new order of the symbol that the price reaches leaves the book and is filled, a limit order at its limit, and every other order stays |
| `PaperExchange.TradesAtOnceIff` | execution.py:301-324 | a placement trades at once and whole exactly if it is a market order and a price other than 0 is known; every other one, limit orders at any price included, only enters the book |
| `PaperExchange.StepKeepsIds` | execution.py:205-331 | each event keeps: issued ids are 1 to the counter, split disjointly into book and fills, and the counter is the number of both |
| `PaperExchange.RunInvariant` | execution.py:205-331 | in every run ids split, no id is filled twice, and orders and fills still say what was requested, limit fills at the limit |
| `PaperExchange.LedgerIsReplay` | execution.py:244-260 | in every run balance and positions are the replay of the recorded fills, and no position has size 0 |
| `PaperExchange.RunConservation` | execution.py:339-349 | in every run equity is the initial balance plus flows plus corrections of the recorded fills |
| `PaperExchange.CanceledStays` | execution.py:326-331 | a cancelled order stays in the book through any continuation and is never filled |
| `PaperExchange.CancelMarks` | execution.py:326-331 | a cancel gives every order of that id the status Canceled and changes nothing else of it, of the other orders, or of fills, balance and prices |
| `PaperExchange.CancelAllMarks` | execution.py:546-560 | cancelling all marks exactly the new orders of the symbol and changes nothing else |
| `PaperExchange.CancelledNeverFills` | execution.py:210-236 | an order in the book when its id is cancelled is in no fill after any continuation |
| `PaperExchange.AllCancelledNeverFill` | execution.py:546-560 | the same for every new order of a symbol whose orders are all cancelled |
| `PaperExchange.EveryFillThrough` | execution.py:220-236 | every fill of every run is made at an event: of a market order at the market of that moment, of a limit order at its limit with the market at or through it |
| `PaperTrading.PaperClient.constructor` | execution.py:195-203 | a new client is the start state |
| `PaperTrading.PaperClient.UpdatePosition` | execution.py:262-297 | updates balance and positions in place as one ledger step |
| `PaperTrading.PaperClient.DecideFill` | execution.py:214-229 | the branches of the fill decision give the fill price of the order |
| `PaperTrading.PaperClient.FillReached` | execution.py:213-257 | the loop over the book fills what the price reaches, in placement order, and collects their ids |
| `PaperTrading.PaperClient.RemoveOrders` | execution.py:259-260 | deletes the collected ids and nothing else |
| `PaperTrading.PaperClient.CheckFills` | execution.py:210-260 | book, ledger, fills and the shared order objects after a sweep |
| `PaperTrading.PaperClient.UpdatePrice` | execution.py:205-208 | takes the price step of the state machine |
| `PaperTrading.PaperClient.PlaceOrder` | execution.py:299-324 | takes the placement step; the returned object is the one in the book, carries what was requested, and is already filled at the known price if it is a market order with one |
| `PaperTrading.PaperClient.CancelOrder` | execution.py:326-331 | takes the cancel step, reports whether the id was in the book, and leaves the orders of that id as Canceled and everything else of the book as it was |
| `PaperTrading.PaperClient.CancelAllOrders` | execution.py:546-560 | cancels exactly the new orders of the symbol and leaves everything else of the book as it was |
| `PaperTrading.PaperClient.GetAccount` | execution.py:339-356 | reports the balance, the unrealised profit at current or entry prices, equity as their sum, and for each position its side, size, entry price and profit, from which the position can be read back |
| `InferenceBreaker.StepKeepsBound` | inference/router.py:266-313 | check, probe, failure, success, abort, cancel and reset each keep counter plus attempts in flight within the cap |
| `InferenceBreaker.CounterBound` | inference/router.py:266-383 | under any interleaving with at most k attempts in flight, counter plus attempts stay within threshold - 1 + k, for each provider |
| `InferenceBreaker.CounterBoundReached` | inference/router.py:266-313 | from the start, with never more than k attempts in flight, a sequence of steps does reach threshold - 1 + k, for every k of at least 1 |
| `InferenceBreaker.SequentialCounter` | inference/router.py:266-313 | one attempt at a time keeps the counter at most at the threshold |
| `InferenceBreaker.OpenWhileDraining` | inference/router.py:268-271 | an open breaker lets no interleaving start another attempt, and its counter never falls until a reset or the success of an attempt that was in flight when it opened |
| `InferenceBreaker.LateSuccessCloses` | inference/router.py:266-313 | from the start, a breaker that one of two concurrent requests opens is closed by the success of the other, without a reset |
| `InferenceBreaker.OpenUntilReset` | inference/router.py:268-271 | an open breaker without attempts in flight stays open, with the same counter and its provider untried, until a reset |
| `InferenceBreaker.ResetZeroes` | inference/router.py:524-529 | after a reset the named provider counts zero and every other one as before; without a name every one counts zero; requests in flight go on |
| `InferenceBreaker.TriedAfterReset` | inference/router.py:265-318 | right after its reset a registered and available provider at the head of a chain is tried, and what it answers decides, for every limit of at least 1 |
| `InferenceBreaker.CancelEnds` | inference/router.py:265-318 | a cancelled request has ended and makes no further attempt, whatever happens; counters and other requests do not change |
| `InferenceBreaker.InferIsATask` | inference/router.py:265-318 | the loop of one request has the same effect as its steps in the interleaved system, and leaves other requests alone |
| `InferenceBreaker.InferEndsAt` | inference/router.py:265-318 | for any chain, one with repeated names included: a request ends at the first position that its own earlier failures leave open and that does not fail, and each counter after it |
| `InferenceBreaker.ChainMembers` | inference/router.py:404-446 | exactly which providers a request can try: registered ones of the override, or else the preferred and the priority list |
| `InferenceBreaker.PreferredFirst` | inference/router.py:426-435 | a preferred provider comes first and once, the others keep their priority order |
| `InferenceBreaker.KeepsOrder` | inference/router.py:404-446 | without a preferred provider the chain runs through the override, or else the priority list, in order, and leaves out exactly the positions of unregistered names |
| `InferenceBreaker.InferenceRouter.constructor` | inference/router.py:219-220 | all registered providers start at zero failures |
| `InferenceBreaker.InferenceRouter.InferOnce` | inference/router.py:265-318 | the fallback loop ends as specified and leaves the specified counters |
| `InferenceBreaker.InferenceRouter.ResetCircuitBreaker` | inference/router.py:524-529 | sets the count of the named provider to zero and leaves every other one, or sets all registered ones to zero when no name is given |
| `SemanticCache.CacheIsTheLog` | inference/cache.py:110-183 | after every run with a non-decreasing clock a lookup answers the latest put of that query if unexpired, else nothing, in spite of deletion and pruning |
| `SemanticCache.AnsweredForItsTime` | inference/cache.py:110-292 | a lookup answers the last response stored for its query until the time to live given with it is over, the default one if none or zero was given |
| `SemanticCache.UnknownWithoutPut` | inference/cache.py:110-144 | a query for which nothing was stored has no answer |
| `SemanticCache.StatsCount` | inference/cache.py:125-144 | hits are the lookups that the log answers, and hits plus misses the lookups of non-empty queries |
| `SemanticCache.LookupLeaves` | inference/cache.py:125-183 | an answered lookup counts as a hit of its entry and deletes nothing, one without an answer leaves no entry for its query, and no other entry moves |
| `SemanticCache.HitCountIs` | inference/cache.py:125-144 | the hit count of an entry is the number of lookups that it has answered since its put |
| `SemanticCache.PutPrunes` | inference/cache.py:283-292 | up to a thousand entries a put drops nothing; beyond, it drops exactly the entries that have expired by then, and every other entry stays as it is |
| `SemanticCache.Cache.Fetch` | inference/cache.py:110-144 | lookup with statistics and lazy deletion takes the lookup step |
| `SemanticCache.Cache.GetExact` | inference/cache.py:176-183 | returns a live entry and deletes an expired one |
| `SemanticCache.Cache.Save` | inference/cache.py:244-292 | stores and prunes as the put step says, with two clock readings |
| `SemanticCache.Cache.SweepExpired` | inference/cache.py:314-320 | keeps exactly the live entries |
| `Drawdown.OnePassIsMaxDrawdown` | orchestrator/backtest.py:432-435 | on every positive curve the running-peak pass finds the maximum over all pairs of points |
| `Drawdown.NeverPositive` | orchestrator/backtest.py:432-435 | a curve that never gets above zero has no drawdown |
| `BrainBacktest.MeanScoreWithin` | orchestrator/brain_backtest.py:220-233 | the aggregate score lies within the scores, so the action needs a score beyond its threshold |
| `BrainBacktest.ActionIff` | orchestrator/brain_backtest.py:229-235 | BUY exactly above the buy threshold, SELL exactly if not that and below the sell threshold, HOLD otherwise |
| `BrainBacktest.AgreementDecides` | orchestrator/brain_backtest.py:216-235 | scores that all lie above the buy threshold give BUY, and scores that all lie below a sell threshold not above that one give SELL |
| `BrainBacktest.AllBrainsMean` | orchestrator/brain_backtest.py:216-229 | when every brain answers, the score is the sum of the scores by their weights, which add up to 1 |
| `BrainBacktest.UnknownBrainMean` | orchestrator/brain_backtest.py:216-229 | a brain without a weight of its own counts a twentieth |
| `BrainBacktest.StopIsFixed` | orchestrator/brain_backtest.py:260-278 | the stop in force is 1.5% from the entry price |
| `BrainBacktest.TrailsIff` | orchestrator/brain_backtest.py:259-278 | the stop in force agrees with one that follows the best close since the entry if and only if no close was better than the entry |
| `BrainBacktest.TrailingWitness` | orchestrator/brain_backtest.py:259-262 | after a rise from 100 to 120 the stop is 98.5 and not 118.2 |
| `BrainBacktest.StopMultiplies` | orchestrator/brain_backtest.py:261-283 | a stop-out multiplies the balance by a constant that depends on the direction and the parameters only |
| `BrainBacktest.BalanceIsCompounded` | orchestrator/brain_backtest.py:246-315 | at every point the balance is the initial one times one factor per long and one per short stop-out, and the open position is sized for it |
| `BrainBacktest.DefaultsAreSound` | orchestrator/brain_backtest.py:258-292 | with the default parameters both factors lie strictly between 0 and 1 |
| `BrainBacktest.EveryStopLoses` | orchestrator/brain_backtest.py:258-292 | every trade closed inside the loop loses, and the balance stays positive |
| `BrainBacktest.OnlyForcedCloseWins` | orchestrator/brain_backtest.py:258-345 | only the last trade can fail to lose, and only as the close forced by the end of the data |
| `BrainBacktest.EquityFloor` | orchestrator/brain_backtest.py:317-325 | marked equity at each candle is at least (1 - 0.95 * leverage * 0.015) of the balance |
| `BrainBacktest.ReportsMaxDrawdown` | orchestrator/brain_backtest.py:325-328 | on any candles with non-zero closes the reported drawdown is the all-pairs maximum of a positive curve; and when the curve is sure to be positive |
| `BrainBacktest.Accounting` | orchestrator/brain_backtest.py:330-348 | final balance, initial balance plus trade profits, and the last curve point coincide |
| `BrainBacktest.RunExplained` | orchestrator/brain_backtest.py:246-315 | at every candle the trades are ordered stop-outs, the open position was entered on its action and has met no stop since, and being flat means HOLD |
| `BrainBacktest.TradesExplained` | orchestrator/brain_backtest.py:246-345 | every trade of the result is the first touch of its stop at the slipped stop price, less the fee on that exit, or the forced close without a fee of a position whose stop was never touched; its profit is the leveraged move in its direction |
| `BrainBacktest.EveryTradeStaked` | orchestrator/brain_backtest.py:294-345 | every trade staked 95% of what the initial balance and the trades before it had made |
| `BrainBacktest.CurvePoint` | orchestrator/brain_backtest.py:317-325 | each curve point is the initial balance, the profits of the trades closed by then, and the leveraged move of the position that the actions explain |
| `BrainBacktest.BrainBacktestEngine.Aggregate` | orchestrator/brain_backtest.py:216-235 | weighted mean, for any non-zero confidence the same, and BUY, SELL or HOLD exactly by where it lies; HOLD without weight |
| `BrainBacktest.BrainBacktestEngine.CheckStop` | orchestrator/brain_backtest.py:258-292 | the trade that a touched stop makes |
| `BrainBacktest.BrainBacktestEngine.Run` | orchestrator/brain_backtest.py:237-348 | the loop computes the specified run |
| `Backtest.ManageBooks` | orchestrator/backtest.py:247-346 | managing a position adds to equity exactly the profits of the trades it appends |
| `Backtest.ExitShortfall` | orchestrator/backtest.py:247-346 | an exit leaves equity below the marked value by exactly the fee and, at the second target, half of the profit |
| `Backtest.ExitBooksMarkedIff` | orchestrator/backtest.py:247-346 | an exit books the marked value less the fee if and only if the candle does not close the position at its second target, or that target has no profit |
| `Backtest.SecondTargetWitness` | orchestrator/backtest.py:301-307 | a position marked 10 up at its second target books 5 |
| `Backtest.Accounting` | orchestrator/backtest.py:240-401 | for every strategy output final equity is the initial one plus all trade profits and is the last curve point, also after a forced close |
| `Backtest.RunConsistent` | orchestrator/backtest.py:240-377 | at every candle trades are ordered without overlap, and each one and the open position are explained by their signal and the candles since; being flat means no tradable signal |
| `Backtest.TradesExplained` | orchestrator/backtest.py:240-401 | in the result a stop exit is the first touch of the stop, and a target exit needs the first target touched strictly earlier and no stop in between; quantity, exit price and fee follow from signal and parameters, and profit plus fee is the leveraged move in the direction of the trade |
| `Backtest.CurvePoint` | orchestrator/backtest.py:356-377 | each curve point is the initial balance, the profits of the trades closed by then, and the leveraged move, in its direction, of the position that its signal explains |
| `Backtest.ExpectancyIsMeanPnl` | orchestrator/backtest.py:424-458 | the reported expectancy is the mean profit per trade, the wins are the trades with a profit above zero, and the profit factor exceeds one exactly if the total profit is positive |
| `Backtest.MetricsAre` | orchestrator/backtest.py:405-458 | win rate, averages, total and profit factor from the totals gained and lost, the cases without wins or without losses included |
| `Backtest.MetricsOfRun` | orchestrator/backtest.py:405-458 | total profit and maximum drawdown of a whole run |
| `Backtest.BacktestEngine.PrecomputeSignals` | orchestrator/backtest.py:228-237 | signals exist from the 51st candle on |
| `Backtest.BacktestEngine.ManageOpen` | orchestrator/backtest.py:248-346 | stop before first target before second target, one event per candle |
| `Backtest.BacktestEngine.IsTradable` | orchestrator/backtest.py:349-350 | a signal is entered if directed and of confidence 0.4 or more |
| `Backtest.BacktestEngine.Run` | orchestrator/backtest.py:202-403 | the loops compute the specified run and its metrics |
| `RealMath.NearestIff` | orchestrator/execution.py:91 | what rounding a quantity does to its multiple of 0.00000001: the nearest integer, the even one of two equally near |
| `OrderSlicing.TwapPlan` | orchestrator/execution.py:74-96 | equal rounded slices, limit orders with a market order at the end, or none |
| `OrderSlicing.TwapConserves` | orchestrator/execution.py:83-96 | the slices add up to the order within half a unit each |
| `OrderSlicing.FitProfile` | orchestrator/execution.py:138-145 | the profile is padded with 0.5 or cut to the number of slices |
| `OrderSlicing.VwapPlan` | orchestrator/execution.py:147-164 | slices in proportion to the profile, or TWAP if it has no volume |
| `OrderSlicing.VwapConserves` | orchestrator/execution.py:138-164 | the slices add up to the order within half a unit each, for any profile |
| `OrderSlicing.IcebergSlices` | orchestrator/execution.py:205-222 | the loop over what earlier slices, as rounded, have left; no plan exactly for a total of 0 without a display size |
| `OrderSlicing.CountCovers` | orchestrator/execution.py:205-208 | the number of slices is the least one for which the display size times it covers the order |
| `OrderSlicing.IcebergNeverOver` | orchestrator/execution.py:211-216 | the rounded slices never exceed the total by more than half a unit |
| `OrderSlicing.IcebergShortfall` | orchestrator/execution.py:211-216 | n slices fall short of what they can show by at most n half units |
| `OrderSlicing.IcebergConserves` | orchestrator/execution.py:205-222 | both bounds for the planned number of slices, for every display size in use above zero |
| `OrderSlicing.IcebergNegativeRounded` | orchestrator/execution.py:205-222 | the rounded slices of a negative total without a display size: the total, and then the display size again and again |
| `OrderSlicing.IcebergOverPlans` | orchestrator/execution.py:205-222 | a plan for a negative total without a display size has ten slices and this sum, which is too large below -0.00000005 and right above |
| `OrderSlicing.IcebergConservesIff` | orchestrator/execution.py:205-222 | for every order with a plan, the rounded slices add up to it within half a unit each if and only if a display size is given or the total is at least -0.00000005 |
| `OrderSlicing.IcebergExactIff` | orchestrator/execution.py:205-213 | the ideal case of slices that are not rounded: they are exact if and only if the display size in use is positive |
| `OrderSlicing.CreateExecutionPlan` | orchestrator/execution.py:432-449 | which algorithm by size and urgency, the slices of each one, the default volume profile written out, and in every branch slices that add up to the order within 0.0000001 |
| `OrderSlicing.AsDocumentedIff` | orchestrator/execution.py:407-449 | exactly which orders get the algorithm that is documented for their size and urgency |
| `VenueRouting.ScoreRange` | orchestrator/execution.py:321-341 | scores of sound venues are not negative, and at most 100 |
| `VenueRouting.ScoreIs` | orchestrator/execution.py:321-341 | the score as four piecewise linear parts of fee, liquidity, latency and reliability |
| `VenueRouting.BetterScoresHigher` | orchestrator/execution.py:321-341 | a venue that is nowhere worse in what the order uses never scores lower |
| `VenueRouting.SplitIsPlain` | orchestrator/execution.py:298-312 | what remains in the loop is the share of the unvisited scores, so the minimum never binds |
| `VenueRouting.SplitConserves` | orchestrator/execution.py:298-319 | before rounding the allocations add up to the quantity, do not grow, and name each venue at most once, in ranking order |
| `VenueRouting.SplitInProportion` | orchestrator/execution.py:298-312 | each venue gets of the quantity what its score is of the total score, and those without an allocation have score 0 |
| `VenueRouting.RoundedConserves` | orchestrator/execution.py:304-309 | rounding keeps the order and is off by at most half a unit per venue |
| `VenueRouting.BestIsFirstMaximum` | orchestrator/execution.py:281-286 | a small order goes to the first venue of the highest score |
| `VenueRouting.ScoresOf` | orchestrator/execution.py:273-292 | exactly the active venues are scored, each once |
| `VenueRouting.RouteConserves` | orchestrator/execution.py:260-319 | every positive order is routed as a whole, to distinct active venues, or by the fallback |
| `VenueRouting.WholeRoute` | orchestrator/execution.py:273-296 | the routes that do not split: the fallback without an active venue or a positive score, and the first active venue of the highest score for an order below 0.1 |
| `VenueRouting.AnyRouteConserves` | orchestrator/execution.py:260-319 | whatever the scores are, negative ones included, every positive order is routed as a whole, within half a unit for each allocation and one more |
| `VenueRouting.RestGoesFirst` | orchestrator/execution.py:314-317 | what the loop leaves is added to the first allocation, and only there |
| `VenueRouting.SmartOrderRouter.AddVenue` | orchestrator/execution.py:256-258 | replaces a venue of the same name at its place, or else adds it at the end, and leaves the others |
| `VenueRouting.SmartOrderRouter.ScoreVenue` | orchestrator/execution.py:321-341 | accumulates the specified score |
| `VenueRouting.SmartOrderRouter.Allocate` | orchestrator/execution.py:298-319 | the splitting loop computes the specified split |
| `VenueRouting.SmartOrderRouter.Route` | orchestrator/execution.py:260-319 | the four branches give the specified allocations |
| `EnhancedRisk.RawKellyIs` | orchestrator/enhanced_risk.py:283-299 | with at least 20 results and both totals positive, raw Kelly is the win rate times (1 - lost / won) |
| `EnhancedRisk.KellyPositiveIff` | orchestrator/enhanced_risk.py:283-301 | for every history of at least 20 results Kelly is positive exactly if more was won than lost, with the one exception of losses that are all zero |
| `EnhancedRisk.KellyWithinCap` | orchestrator/enhanced_risk.py:295-309 | the sized fraction lies between 0 and the cap |
| `EnhancedRisk.StatsAre` | orchestrator/enhanced_risk.py:353-364 | the statistics are counts and sums of the absolute sizes of the winning and of the losing results |
| `EnhancedRisk.KellyIsAllowed` | orchestrator/enhanced_risk.py:267-309 | from the results: below twenty the configured odds, then win rate times (1 - lost / won), in each case times the Kelly fraction and under the cap, and nothing without an edge |
| `EnhancedRisk.ApprovedIff` | orchestrator/enhanced_risk.py:159-233 | a signal other than HOLD is approved if and only if the breaker is and stays off and every limit is kept |
| `EnhancedRisk.ApprovedSize` | orchestrator/enhanced_risk.py:235-251 | the approved size is the smallest of the requested size, the position limit, and Kelly where it has a say |
| `EnhancedRisk.ApprovedSizeIs` | orchestrator/enhanced_risk.py:235-309 | the approved size, from the results so far, is the smallest of request, position limit and, where that is on and positive, what Kelly allows; action and confidence pass unchanged |
| `EnhancedRisk.OtherDecisions` | orchestrator/enhanced_risk.py:169-233 | a HOLD passes unchanged and trades nothing, a rejection has reasons and trades nothing, and an approval without equity has size 0 |
| `EnhancedRisk.ReasonIff` | orchestrator/enhanced_risk.py:159-233 | each reason against a signal is given if and only if its condition holds |
| `EnhancedRisk.BreakerLeft` | orchestrator/enhanced_risk.py:159-167 | breaker, deadline, counter and start of the hour after any validation, from the account and the three clock readings |
| `EnhancedRisk.TooVolatileIff` | orchestrator/enhanced_risk.py:199-211 | the volatility filter, with a missing mean and a missing current value |
| `EnhancedRisk.StaysOn` | orchestrator/enhanced_risk.py:313-321 | in every timed log the breaker and its deadline stay as an activation set them until the deadline |
| `EnhancedRisk.QuietPeriod` | orchestrator/enhanced_risk.py:159-167 | from an activation until its cooldown has passed every signal other than HOLD is rejected |
| `EnhancedRisk.ActivationsApart` | orchestrator/enhanced_risk.py:313-339 | activations are at least a cooldown apart |
| `EnhancedRisk.TradesOfTheHour` | orchestrator/enhanced_risk.py:344-349 | the counter holds the results recorded since the hour started: all later ones, no earlier one |
| `EnhancedRisk.ApprovalKeepsLimits` | orchestrator/enhanced_risk.py:323-333 | an approval means loss streak, drawdown and results of the current hour below their limits, in an hour that is not over |
| `EnhancedRisk.StatsOfRun` | orchestrator/enhanced_risk.py:353-364 | sizing statistics are those of exactly the results recorded, whatever was validated in between |
| `EnhancedRisk.LossStreakIs` | orchestrator/enhanced_risk.py:353-364 | the engine's loss streak is the one that the last validation was given, or 0 after a win or at the start, and one more for each loss since |
| `EnhancedRisk.StatsAreConsistent` | orchestrator/enhanced_risk.py:353-364 | counts add up to the number of results, and totals are not negative and zero without results |
| `EnhancedRisk.EnhancedRiskEngine.constructor` | orchestrator/enhanced_risk.py:112-126 | a new engine is the fresh state |
| `EnhancedRisk.EnhancedRiskEngine.IsCircuitBreakerActive` | orchestrator/enhanced_risk.py:313-321 | reports the breaker and switches it off after its deadline |
| `EnhancedRisk.EnhancedRiskEngine.ShouldTrigger` | orchestrator/enhanced_risk.py:323-333 | the trigger test, with the hourly reset only where it gets there |
| `EnhancedRisk.EnhancedRiskEngine.CheckHourlyReset` | orchestrator/enhanced_risk.py:344-349 | starts a new hour after 3600 seconds |
| `EnhancedRisk.EnhancedRiskEngine.CalcKellySize` | orchestrator/enhanced_risk.py:267-309 | computes the specified Kelly size |
| `EnhancedRisk.EnhancedRiskEngine.Validate` | orchestrator/enhanced_risk.py:139-263 | state and decision after a validation |
| `EnhancedRisk.EnhancedRiskEngine.OnTradeResult` | orchestrator/enhanced_risk.py:353-364 | state after a recorded result |
| `AgentRouting.Counts` | orchestrator/agent_routing.py:500-504 | samples are the observations, and successes plus failures |
| `AgentRouting.EffectivesAre` | orchestrator/agent_routing.py:488-489 | a failure counts with thirty seconds at least, everything else with its own latency |
| `AgentRouting.TooFew` | orchestrator/agent_routing.py:512-515 | before the third observation P50 stays at 0 |
| `AgentRouting.EmaWithin` | orchestrator/agent_routing.py:489-498 | the smoothed latency stays between any bounds of the effective latencies |
| `AgentRouting.EmaDecays` | orchestrator/agent_routing.py:495-498 | k repetitions of one latency shrink the distance to it by 0.8 to the k |
| `AgentRouting.WindowIsSuffix` | orchestrator/agent_routing.py:508-510 | the raw window is the end of the history, of length n up to 50 and 25 + (n - 51) mod 26 after |
| `AgentRouting.P50IsMedian` | orchestrator/agent_routing.py:513-515 | from three observations on P50 is the upper median of the window, by ranks |
| `AgentRouting.EntryIsOwnHistory` | orchestrator/agent_routing.py:471-505 | the entry of a pair of agent and provider is the record of that pair's observations alone |
| `AgentRouting.ChainIsStableSort` | orchestrator/agent_routing.py:546-561 | with enough data the chain is the one stable arrangement by smoothed latency, otherwise the base chain |
| `AgentRouting.ChainInP50OrderIff` | orchestrator/agent_routing.py:517-561 | an adaptive chain is in the documented order by P50 if and only if smoothed latency and P50 agree on every pair of the base chain |
| `AgentRouting.P50OrderWitness` | orchestrator/agent_routing.py:517-561 | recorded latencies of two providers whose adaptive chain is not in P50 order |
| `AgentRouting.RegisteredChain` | inference/router.py:404-411 | keeping the registered providers commutes with the sort |
| `AgentRouting.AdaptCommutesIff` | orchestrator/agent_routing.py:546-561 | exactly when an unregistered provider keeps a chain from adapting |
| `AgentRouting.OverrideIsAdaptive` | inference/router.py:404-411 | the providers that a request with an adaptive override tries |
| `AgentRouting.AgentModelRouter.RecordProviderLatency` | orchestrator/agent_routing.py:451-515 | updates the nested table as the record step says |
| `AgentRouting.AgentModelRouter.Observe` | orchestrator/agent_routing.py:486-515 | updates one record in the order of the code |
| `AgentRouting.AgentModelRouter.GetOptimalProviderChain` | orchestrator/agent_routing.py:517-561 | chooses the base chain and a threshold of 5 or 10 observations and returns the adaptive chain |
| `Sorting.SortCommutesWithFilter` | orchestrator/agent_routing.py:561 | what the built-in stable sort promises under filtering |
| `Sorting.StableSortIsUnique` | orchestrator/agent_routing.py:561 | an ordered arrangement that keeps the order per key is unique |
| `Sorting.SortOrderedIff` | orchestrator/agent_routing.py:561 | sorting by one key gives the order of another if and only if the keys agree on every pair |
| `MarketStructure.DetectSwingPoints` | orchestrator/market_structure.py:32-56 | a bar is flagged exactly if it is the extreme of its window, with its price |
| `MarketStructure.DetectStructureBreaks` | orchestrator/market_structure.py:75-128 | the loop over the three remembered swings of each kind gives the bounded flags at every row |
| `MarketStructure.MarkBreaks` | orchestrator/market_structure.py:98-126 | sets the four flags of one bar in place and no other |
| `MarketStructure.Remember` | orchestrator/market_structure.py:88-96 | the bounded list holds the last three swings |
| `MarketStructure.DetectedIsDefinition` | orchestrator/market_structure.py:86-126 | without a swing at row 0 every flag equals its definition over all swings up to the row |
| `MarketStructure.DetectedOnSwings` | orchestrator/market_structure.py:45-126 | on the swing table of any window of at least 1 the detector meets the definition |
| `MarketStructure.HistoryIsAll` | orchestrator/market_structure.py:86-96 | the history holds exactly the recorded swings, each once, in order |
| `MarketStructure.FlagsMeaning` | orchestrator/market_structure.py:86-126 | in terms of bars: a break is a price beyond the last swing but one, a change of character a price beyond the last swing while the other side made a lower low or a higher high |
| `MarketStructure.DetectorMeetsDefinitionIff` | orchestrator/market_structure.py:45-126 | the detector meets the definition at every row of a series if and only if the window is at least 1, or the second bar breaks neither extreme of the first |
| `MarketStructure.WindowZeroWitness` | orchestrator/market_structure.py:86-104 | an input with a window of 0 whose break is missed |
| `MarketStructure.SwingsSettle` | orchestrator/market_structure.py:45-54 | appended bars do not change the status of a bar with a full window |
| `MarketStructure.NoRepainting` | orchestrator/market_structure.py:45-126 | with any window, the flags that the detector returns at indices below n - window never change when bars are appended, nor does their definition |
| `MarketStructure.RepaintingWitness` | orchestrator/market_structure.py:45-104 | the flag that the detector returns at index n - window can change |
| `Features.FeatureExtractor.Update` | features.py:48-191 | after any history the windows and running values are functions of it, and every returned indicator equals its definition over the whole history |
| `Features.FeatureExtractor.ReturnOver` | features.py:63-70 | the relative change of the close over 1, 5, 15 or 60 bars |
| `Features.FeatureExtractor.BollingerBands` | features.py:112-119 | the bands around the mean of the last twenty closes, with the deviation given |
| `Features.FeatureExtractor.VolumeRatio` | features.py:171-174 | the ratio is never reported, since the window never holds the values it needs |
| `Features.ReturnsCompound` | features.py:63-70 | a return over k bars compounds the k returns over one bar |
| `Features.FlatIff` | features.py:112-119 | the deviation is zero if and only if all values of the window are the same |
| `Features.BandsMeaning` | features.py:112-119 | the bands enclose their middle, which lies within the closes; they meet exactly on a flat window; the position is below 0 or above 1 exactly outside the bands |
| `Features.FeatureExtractor.UpdateRsi` | features.py:73-84 | gains and losses of the last fourteen changes, and 100 * G / (G + L) from the code's own formula |
| `Features.FeatureExtractor.UpdateEmas` | features.py:87-109 | both averages, MACD and its signal line |
| `Features.FeatureExtractor.UpdateAtr` | features.py:122-130 | the mean true range of the last fourteen steps |
| `Features.FeatureExtractor.UpdateAdx` | features.py:134-159 | DX and both directional indicators from the sums of the last fourteen steps |
| `Features.FeatureExtractor.UpdateObv` | features.py:162-168 | on-balance volume is the signed volume sum of the whole history |
| `Features.FeatureExtractor.Stochastic` | features.py:178-189 | both oscillators from the extremes of the last fourteen bars |
| `Features.RsiRange` | features.py:73-84 | the RSI is in 0 to 100, 100 exactly without losses and 0 exactly without gains |
| `Features.AdxRange` | features.py:134-159 | DX is in 0 to 100, and the directional indicators of well-formed bars add up to at most 100 |
| `Features.MovementWithinRange` | features.py:135-145 | upward or downward movement never exceeds the true range |
| `Features.StochasticRange` | features.py:178-189 | the stochastic is in 0 to 100 and Williams %R exactly 100 below it |
| `Features.EmaWithin` | features.py:89-94 | an exponential average stays between the smallest and the largest close |
| `Features.MacdWithin` | features.py:99-109 | MACD and signal line stay within the width of the closes |
| `Features.StepsAt` | features.py:74-76 | the series behind the windows have one value per two consecutive bars |
| `Features.RsiIs` | features.py:73-84 | the RSI from the gains and losses of the last fourteen closes |
| `Features.AtrIs` | features.py:122-131 | the mean of the last fourteen true ranges, and its share of the close |
| `Features.AdxIs` | features.py:134-159 | DX and both directional indicators from the movements and true ranges of the last fourteen steps, bar by bar |
| `Features.StochasticIs` | features.py:178-189 | both oscillators from the highest high and the lowest low of the last fourteen bars |
| `Features.ObvIs` | features.py:162-168 | the volume counts for a higher close and against a lower one |
| `Features.AveragesAre` | features.py:87-109 | the averages, MACD and signal line as recurrences with the weights of the code |
| `Features.ReturnsAre` | features.py:63-70 | the returns over 1, 5, 15 and 60 bars, from the closes |
| `Features.BandsAre` | features.py:112-119 | the bands from the mean of the last twenty closes |
| `Features.TooShort` | features.py:63-189 | no value before there is enough of a history |
| `CandleBuffer.BufferIsTail` | orchestrator/candle_buffer.py:107-116 | the buffer is the last candles of the history with runs of equal timestamps collapsed to the newest, for any capacity |
| `CandleBuffer.MemoryIsTails` | orchestrator/candle_buffer.py:107-116 | the same for each symbol over interleaved pushes |
| `CandleBuffer.IncreasingIff` | orchestrator/candle_buffer.py:112-116 | collapsed timestamps increase strictly if and only if the pushed ones never decrease |
| `CandleBuffer.BufferIncreases` | orchestrator/candle_buffer.py:107-116 | buffered timestamps then increase strictly, within the capacity |
| `CandleBuffer.LatestIsSuffix` | orchestrator/candle_buffer.py:135-138 | a read is a suffix of the buffer: the last candles for a limit of at least 1, and all but as many of the oldest as a negative limit says |
| `CandleBuffer.LimitKeptIff` | orchestrator/candle_buffer.py:135-138 | the limit is kept exactly if it is positive, or zero on an empty buffer |
| `CandleBuffer.CandleBuffer.Push` | orchestrator/candle_buffer.py:83-116 | replaces or appends in the buffer of one symbol |
| `CandleBuffer.CandleBuffer.Get` | orchestrator/candle_buffer.py:118-138 | reads the buffer of one symbol |
| `SessionState.SessionIsMaximal` | state.py:108-118 | a session is the longest run of candles of one date at the end of the history |
| `SessionState.DateIff` | state.py:108-110 | a date is a day of 86,400 seconds since the epoch |
| `SessionState.SessionIsSummary` | state.py:108-131 | in every history VWAP times volume is the sum of typical price times volume of the session, high and low are its extremes, and the VWAP lies between them |
| `SessionState.TurnoversAre` | state.py:120-129 | what the VWAP averages: of each candle of the session, the mean of high, low and close times the volume |
| `SessionState.VwapIsAverage` | state.py:120-129 | with volume the VWAP is the volume-weighted mean of the session |
| `SessionState.VwapWithoutVolume` | state.py:120-129 | without any volume the VWAP is the mean of the newest high, low and close |
| `SessionState.OpenIsFirst` | state.py:110-118 | the opening price is that of the session's first candle, with one exception |
| `SessionState.IncrementalState.CheckDay` | state.py:108-118 | resets the session when the date changes |
| `SessionState.IncrementalState.Update` | state.py:120-131 | updates VWAP, volume and range in place |
| `SessionState.IncrementalState.OnNewCandle` | state.py:77-89 | takes one step of the session |

## Left out

- Network, storage and message transports, wall clocks, logging, reason strings, timestamps on records and display caps on result lists.
- Floating-point rounding, infinities and NaN; where the code tests for NaN the model has a missing value.
- Language models, brain signals, strategies and provider answers: arbitrary inputs.
- STOP and STOP_MARKET paper orders: the order response has no stop price, so that branch cannot be taken as written.
- The deletion at execution.py:296-297: the size is not zero in that branch.
- Sharpe, Sortino, Calmar and slippage formulas, the estimates of cost and duration in plans, and the percentage fields of trades: square roots, fractional powers, or single divisions.
- The cache lookup before and the cost record after a provider call in `inference/router.py`: neither touches the breaker.
- Chunks of a streamed answer: a streaming request is one attempt that ends when its last chunk does.
- The match of a model name against provider names: the provider it prefers is an input.
- The Qdrant path of the cache; the hash is taken as injective.
- Slippage of 0 or of exactly 100% either way in `orchestrator/backtest.py`, and closes of zero in both backtests: the code divides by them. What is said about stops and compounding in `orchestrator/brain_backtest.py` is for positive prices.
- OrderSlicing.IcebergExactIff: is about slices that are not rounded, the ideal that the rounding bounds are measured against; the code always rounds, and `OrderSlicing.IcebergConservesIff` has the condition for that.
- A candle without any brain score in `orchestrator/brain_backtest.py:252`: past the warm-up one brain always answers.
- Candles of negative volume in `state.py`: the VWAP can then divide by zero. The session bias, indicators and levels of that file are not modelled.
- The square root behind the Bollinger bands of `features.py`: the deviation is an input, and the lemmas about the bands assume of it that its square is the mean squared deviation. Closes of zero, by which its returns divide.
- The order of the position list that `get_account` returns: it is a map by symbol here.
- Redis and data frames in `orchestrator/candle_buffer.py`; a negative capacity, which the deque refuses.
- The tables of models and chains per agent, and the older routing statistics.
- `risk.py`, `Trade_agent/risk.py`, `binance/adapter.py` and the other gates and tables of the system: they would add only easy members.
