# Formal model of the F&O trading core

This project models the trading core of an automated futures-and-options system in Dafny and proves what that core
is there to guarantee. It follows the program's own parts, one file each:

- **Ledger and money.** `Ledger` states the law one fill must obey, independently of how any ledger computes its
  numbers, and derives what it implies over whole fill sequences. `Positions` (the internal book), `PaperBroker` (the
  simulated broker's book), `Pnl`, `Charges` and `Fifo` are proved against it; `Reconciliation` and `BookAgreement`
  compare the two books; `DayBook` says what the day's report accounts for; `Portfolio` connects fill events to
  positions and charges.
- **Orders and risk.** `Validation` and `Dedup` (pre-flight checks), `RateLimiter`, `CircuitBreaker`, `KillSwitch`,
  `Exposure` and `Risk` (the gate), `WaitingOrders` (what open lots do while orders wait and published fills are not yet
  in the book), and `Oms` (placing, polling, cancelling, and groups of legs). `TradingRun` runs gate, order manager, event
  queue and books together.
- **Strategies.** `Strategy` (what the strategies share), `IronCondor`, `ShortStrangle`, `Adaptive` and
  `DeltaNeutral`, each with a ghost record of every leg it has emitted; `Payoff` and `Valuation` say what such legs
  are worth at expiry.
- **Market data.** `MaxPain` and `OptionChain` (the live chain) and `Aggregator` (candles).

Objects whose methods update fields are classes, and loops are loops; each is tied to a specification function or
predicate about which the lemmas speak. Ghost histories (fills, ticks, grants, accepted orders, emitted legs) are what
statements over whole runs refer to: a class invariant over its history holds after every sequence of calls. Prices and
money are exact reals; quantities, open interest and epoch seconds are integers. Clock readings, broker answers, poll
results, failures and regime assessments are arbitrary parameters, so every statement holds for all of them.

## What turned out not to hold

Each with an input or a whole class of inputs on which it fails, and the condition under which the code does meet it.

- **Readers see every open position.** A key that is re-opened after having been archived on the same day is hidden from
  every reader (`BookAgreement.ReopenedPositionIsHidden`), and reconciliation then reports a mismatch although both
  books had every fill. A fill hides something exactly when it re-opens an archived key (`Positions.ReopeningHides`),
  and reconciliation agrees exactly when what is hidden nets to nothing (`BookAgreement.ReconcileBooks`).
- **The day's report accounts for every fill.** An archived entry keeps only the last round trip: after buying at 100,
  selling at 110, buying at 100 and selling at 90 no cash was made, and the archive says a loss of ten
  (`DayBook.EarlierProfitIsForgotten`, `DayBook.ArchiveKeepsTheLoss`). What is reported is short by exactly what is
  hidden and the cash of the round trips forgotten, so with nothing hidden the report is complete if and only if that
  cash nets to zero (`DayBook.ReportOfTheDay`, and symbol by symbol `DayBook.SymbolOfTheDay`). A fill makes the book
  forget exactly when it closes a key that is archived already or finds the archive full
  (`Positions.PositionTracker.UpdateFromFill`).
- **The rounded total of the charges is within 0.01 of the sum of its rounded parts.** It is if and only if what
  rounding adds to the six exact parts comes to more than -1.5 and at most 1.5 paise (`Charges.OnePaisaWhen`). One
  option sold at 250 and 75 at 15.25 miss it, one on each side (`Charges.TwoPaiseAreReached`), and 0.02 is the bound
  (`Charges.TotalIsSumOfParts`).
- **A future is charged as a future.** It is exactly when the name of its underlying holds neither "CE" nor "PE"
  (`Portfolio.FutureTakenForOption`); otherwise every trade of a turnover of twenty or more is charged too much
  (`Portfolio.FutureOvercharged`), 209.95 instead of 37.03 for 250 units of RELIANCE at 1200
  (`Portfolio.RelianceIsOvercharged`).
- **First-in first-out matching reports the profit of closed trades.** It looks for earlier buys only: nothing at all is
  reported if and only if no sale of a symbol follows a buy of it. Trades that are never net short and end flat are
  reported in full (`Fifo.ComputeTradePnls`).
- **The breaker sees every fall within its window.** Its buffer of 100 snapshots can forget the peak of a crowded window
  (`CircuitBreaking.CrowdedWindowHidesThePeak`); `CircuitBreaking.BufferMissesOnlyForgotten` says exactly what is
  missed.
- **A halt is lifted in time.** Only an order that passes the gate shows profit to the breaker, so a halted desk with
  nothing open is never released by the timer, whatever is sent and however late
  (`Risk.RiskManager.FlatDeskStaysHalted`).
- **The gate sees every fill.** A poll takes a filled order off the open orders at once, but the book changes only when
  its turn in the event queue comes, and orders may be sent in between. The gate's book is that of everything published
  if and only if what is undelivered nets to nothing, key by key (`TradingRun.TradingDesk.GateSeesEveryFill`). Otherwise
  an order of up to the lot limit passes the lot and order limits over a flat book, whatever has been filled and is
  still queued (`TradingRun.TradingDesk.UnseenFillsDoNotCount`), and single lots sent one after the other, each filled
  before the next and delivered late, exceed every number of open lots, with no exit and already with one open order
  allowed (`WaitingOrders.GateIsBlind`).
- **Exits only reduce exposure, and open lots stay within a limit.** Both hold when orders fill at once
  (`Exposure.ImmediateFillsStayWithin`, `Exposure.ReducingFillsOnlyShrink`), and when each order is over and its fill in
  the book before the next is sent, which a limit of one open order ensures if nothing is undelivered as orders are sent
  (`WaitingOrders.OneAtATimeStaysWithin`). As soon as two may wait there is no bound, even when every fill is in the
  book at each sending: from a flat book every number of open lots is exceeded (`WaitingOrders.ExitsAreUnbounded`), and
  with three, waiting exits of everything open double it the other way (`WaitingOrders.ThreeExitsDouble`). Exits waiting
  against q open units never flip the position if and only if they total at most q, and never raise the open lots if and
  only if they total at most twice that (`WaitingOrders.WaitingExitsAreSafe`). A caller that sends an order on its lots
  only while nothing is undelivered, and an exit only while everything claimed beside it, waiting or undelivered, closes
  no more than is open, keeps open lots within the product of the two limits (`WaitingOrders.SafeExitsStayWithin`), also
  on the composed desk, however late the fills are delivered (`TradingRun.TradingDesk.StaysWithin`).
- **A failed group of legs is undone.** If and only if the last leg placed fails in a way the manager handles; when
  anything is raised, nothing is cancelled or reversed, and which of the two happens depends on the broker's answers
  alone (`Oms.OrderManager.PlaceMultiLeg`, `Oms.OneEnding`); of two legs, the first stands whenever it is taken and the
  broker breaks at the second (`Oms.FirstLegStands`). A filled leg is reversed if and only if one of three tries is
  taken (`Oms.OrderManager.ReverseLeg`), by an order for the quantity ordered, so what was filled is undone if and only
  if the leg had filled in whole (`Oms.WholeFillsCancel`); a leg placed with a limit price never is, because the
  reversal has no price (`Validation.LimitLegsCannotBeReversed`), and a retry within the window is a duplicate
  (`Validation.RetryIsADuplicate`).
- **The kill switch reports success when it has flattened everything.** A close that is refused once and taken on retry
  is reported as a failure (`KillSwitching.RetriedIsReported`); success is reported if and only if every cancel is
  granted, the first attempt can be made and takes every open symbol, and the second, if there was anything to close,
  can be made too (`KillSwitching.KillSwitch.Activate`, `KillSwitching.NoErrorIff`).
- **The internal book follows what the kill switch closes.** Its orders go straight to the broker, so the internal book
  keeps every position they flattened. From books that agree, reconciliation then reports a mismatch if and only if
  something was closed, on exactly the symbols closed (`BookAgreement.ReconcileAfterKilling`).
- **Cancelling undoes an order.** Cancelling a paper order only rewrites its status, whatever it has filled
  (`PaperBroker.PaperBrokerClient.CancelOrder`): one unit bought and then cancelled is still held
  (`PaperBroker.CancelAfterFill`).
- **The hedge follows the delta.** No hedge is sent if and only if none is called for or the cap is reached, not even
  one that would take the futures position down (`DeltaNeutral.StuckAtTheCap`); and a pending hedge that is overwritten
  before it fills is no longer tracked (`DeltaNeutral.DeltaNeutralStrategy.OnTick`).
- **A straddle is at the money.** A leg is the one quoted at the strike nearest to the spot if that entry quotes its
  side, and otherwise whatever leg was tracked before, from whichever day
  (`DeltaNeutral.DeltaNeutralStrategy.TryEntry`); with only the call quoted, the put sold is the one tracked before, at
  whatever strike (`DeltaNeutral.StalePutIsSold`).
- **A new day starts afresh.** The adaptive strategy's allowance of regime switches is never restored, and resetting the
  day of a strategy while it is in a position forgets its legs; out of the market it keeps the ledger right
  (`Adaptive.AdaptiveStrategy.ResetDayState`, `IronCondor.IronCondorStrategy.ResetDayState`,
  `ShortStrangle.ShortStrangleStrategy.ResetDayState`).
- **A rate limiter grants sooner or later.** One whose bucket holds less than one token never does
  (`RateLimiting.RateLimiter.EmptyBucketNeverGrants`), any other does (`RateLimiting.RateLimiter.Acquire`).

## Model

| member | source | states |
|---|---|---|
| Ledger.SettlesIsDeterministic | src/portfolio/positions.py:38-77 | the law of one fill (quantity, cash, cost of what is left, reversal at the fill price) leaves a ledger no freedom |
| Ledger.CashIsConserved | src/portfolio/positions.py:38-77 | over any fills from flat, profit less quantity times average is minus the value of the signed fills, and the quantity is their sum |
| Ledger.AverageWithinBuiltPrices | src/portfolio/positions.py:44-75 | the average price lies between the lowest and the highest price of the fills that built the side now held |
| Ledger.SplitFillsAgree | src/portfolio/positions.py:38-77 | two partial fills at one price leave the same holding as the single fill, across flat points and reversals |
| Ledger.MarkToMarket | src/portfolio/pnl.py:44-50 | realised plus unrealised profit is cash flow plus quantity times last traded price |
| Positions.Amend | src/portfolio/positions.py:38-77 | the internal book's arithmetic obeys the law, in all its branches |
| Positions.Enter | src/portfolio/positions.py:24-97 | one fill moves its own key by the law, archives it when flat, evicts the oldest of 500, and touches nothing else |
| Positions.FillKeepsConsistency | src/portfolio/positions.py:24-97 | after any fill every open key equals the replay of its current episode and every archived key that of its last round trip |
| Positions.ReopeningHides | src/portfolio/positions.py:79-112 | a fill makes a key both open and archived exactly when it re-opens an archived one |
| Positions.TripsAndEpisode | src/portfolio/positions.py:79-90 | the completed round trips of a key and its current episode together have moved all its cash, and the archived round trip is the last |
| Positions.FillKeepsDay | src/portfolio/positions.py:79-90 | an archived entry is always of the day's last round trip of its key, and a fill loses one exactly when it displaces an entry |
| Positions.PositionTracker.UpdateFromFill | src/portfolio/positions.py:24-97 | the whole new state of both dictionaries; readers keep seeing everything unless an archived key is re-opened; a round trip of the day is forgotten exactly when a closing fill finds its key archived or the archive full |
| Positions.PositionTracker.UpdateLtp | src/portfolio/positions.py:99-103 | only the last price of that instrument's open positions changes |
| Positions.PositionTracker.GetNetQuantity | src/portfolio/positions.py:121-123 | the signed sum of all the key's fills, whatever was archived in between |
| Positions.PositionTracker.ResetDaily | src/portfolio/positions.py:117-119 | empties the archive, after which nothing is hidden and nothing of the new day is forgotten |
| PaperBroker.Amend | src/broker/paper/client.py:235-260 | the broker's independently written arithmetic obeys the same law |
| PaperBroker.PaperBrokerClient.PlaceOrder | src/broker/paper/client.py:64-130 | fills the whole order at once, at its own price or the last traded one, a market order worse than that by a two-thousandth on either side; refuses without a trace exactly when no price is known |
| PaperBroker.RoundTripCostsSlippage | src/broker/paper/client.py:77-86 | buying at market and selling back at the same last traded price loses a thousandth of it a unit |
| PaperBroker.PaperBrokerClient.UpdatePosition | src/broker/paper/client.py:224-260 | every symbol's position stays the replay of its fills |
| PaperBroker.PaperBrokerClient.CancelOrder | src/broker/paper/client.py:143-148 | exactly the orders of that id read CANCELLED and nothing else changes, filled or not |
| PaperBroker.CancelAfterFill | src/broker/paper/client.py:143-148 | an order that is filled and then cancelled reads CANCELLED while what it bought is held |
| PaperBroker.PaperBrokerClient.SetLtp | src/broker/paper/client.py:60-62 | only the cached price of that symbol changes |
| Pnl.ReportedProfitIsMarked | src/portfolio/pnl.py:44-50 | once every open position has a price, the profits listed add up to cash moved plus market value |
| Pnl.ListingIsExplained | src/portfolio/positions.py:108-112 | every position a reader sees carries exactly the cash of its current episode or, if closed, of its last round trip |
| Pnl.SumPositions | src/portfolio/pnl.py:41-50 | the loop adds realised and unrealised profit over the positions listed |
| Pnl.PnLCalculator.AddCharges | src/portfolio/pnl.py:27-34 | only that strategy's charges grow, by that amount |
| Pnl.PnLCalculator.GetPnl | src/portfolio/pnl.py:36-64 | each figure is whole paise and within half a paisa of the exact one, and the net is cash moved plus market value less charges once all is priced |
| Pnl.PnLCalculator.ResetDaily | src/portfolio/pnl.py:88-97 | charges and archive are empty and nothing is hidden |
| Charges.TotalIsSumOfParts | src/portfolio/charges.py:13-77 | the rounded total is within 0.02 of the sum of the six rounded parts, for every price, quantity, side and instrument |
| Charges.RoundingIsOdd | src/portfolio/charges.py:100-101 | negative amounts are rounded as positive ones, away from zero on a tie |
| Charges.RoundTripIsSumOfParts | src/portfolio/charges.py:80-97 | a round trip is within 0.04 of its parts, taxed on the sale only and stamped on the purchase only |
| Charges.TwoPaiseAreReached | src/portfolio/charges.py:67-77 | both ends of that bound are reached |
| Charges.OnePaisaWhen | src/portfolio/charges.py:67-77 | the difference of rounded total and rounded parts is the rounding of what rounding adds to the six exact parts, and at most a paisa if and only if that lies in (-1.5, 1.5] paise |
| Charges.ChargesGrowWithTurnover | src/portfolio/charges.py:30-77 | a larger turnover never costs less, across the brokerage cap |
| Charges.WhoPaysWhat | src/portfolio/charges.py:34-65 | brokerage is 0.03% of the turnover to the paisa until it reaches its cap of 20, and then 20; buyers pay no STT and sellers no stamp duty |
| Charges.ChargesPerMillion | src/core/constants.py:57-77 | every figure on every million of turnover, for both sides and both kinds of instrument, and there the total is exactly the sum of its parts |
| Charges.OptionsCostMore | src/portfolio/charges.py:30-77 | on the same trade an option is charged at least a paisa more than a future from a turnover of twenty on |
| Fifo.MatchSale | src/backtest/metrics.py:115-124 | a sale takes earlier buys in order, leaves sales alone, and earns exactly what it took times the price difference |
| Fifo.Enter | src/backtest/metrics.py:111-126 | one trade's cash and units are all found in its profits and the open lots, used-up buys stay a prefix, and a sale of no more than is held leaves no open sale |
| Fifo.ComputeTradePnls | src/backtest/metrics.py:97-128 | over any trades, cash in less cash out is the sum of profits less the cost of open buys plus the value of open sales; units are conserved per symbol; nothing is reported if and only if no sale of a symbol follows a buy; trades never net short that end flat are reported in full |
| Reconciliation.BrokerMap | src/portfolio/reconciliation.py:34-40 | the map of the broker's non-zero quantities, the last entry of a symbol winning |
| Reconciliation.InternalMap | src/portfolio/reconciliation.py:42-48 | quantities added up over strategies |
| Reconciliation.Compare | src/portfolio/reconciliation.py:50-64 | every disagreement is reported exactly once with the right figures, and nothing else is |
| Reconciliation.Reconcile | src/portfolio/reconciliation.py:23-76 | the verdict is agreement if and only if every symbol's net quantity agrees, and missing broker data is an error |
| Reconciliation.ByKeyIsBySymbol | src/portfolio/reconciliation.py:42-48 | summing fills by strategy and instrument or by symbol gives the same totals |
| BookAgreement.SeenPlusHiddenIsTraded | src/portfolio/positions.py:108-116 | what readers see of a symbol plus what the archive hides is what was traded in it |
| BookAgreement.ReconcileBooks | src/portfolio/reconciliation.py:23-76 | with every fill in both books, reconciliation reports agreement if and only if the hidden positions net to nothing, and always when no key is both open and archived |
| BookAgreement.ReopenedPositionIsHidden | src/portfolio/positions.py:108-112 | a fill that re-opens an archived key hides that position, of non-zero quantity, from readers |
| BookAgreement.ReconcileAfterKilling | src/risk/kill_switch.py:69-108 | after the kill switch reconciliation names exactly the symbols it closed that readers still see and those left alone that are partly hidden; from agreeing books, exactly the symbols closed, and a mismatch if and only if there is one |
| BookAgreement.MoneyAgrees | src/broker/paper/client.py:224-260 | while nothing has been archived, profit less quantity times average agrees per symbol between the two books |
| DayBook.DayCashIsOfTheDay | src/portfolio/positions.py:117-119 | what a key's day is about is the cash of the fills since the reset and of the position the day began with |
| DayBook.KeyOfTheDay | src/portfolio/positions.py:79-112 | key by key, that cash and the value held is what readers see, what is hidden from them, and the round trips forgotten |
| DayBook.DaySplits | src/portfolio/positions.py:79-112 | the same over any selection of keys and any way of valuing open positions |
| DayBook.SymbolOfTheDay | src/portfolio/positions.py:79-112 | per symbol, books listed plus books hidden are the cash of all fills less that of earlier days' and of forgotten round trips; equal to all of it on a first day with nothing hidden or forgotten |
| DayBook.ReportOfTheDay | src/portfolio/pnl.py:36-64 | the profit reported, of one strategy or of all, accounts for every fill if and only if what is hidden and forgotten nets to zero |
| DayBook.ReportedNet | src/portfolio/pnl.py:36-64 | the net figure is, to the paisa, the true profit less charges, less what is hidden and less what is forgotten |
| DayBook.EarlierProfitIsForgotten | src/portfolio/positions.py:79-81 | two round trips of one key in a day: cash nets to zero, the last one lost ten, the earlier one made ten |
| DayBook.ArchiveKeepsTheLoss | src/portfolio/positions.py:79-81 | whatever else is traded, the archived entry of such a key says a loss of ten and forgets the ten won |
| Portfolio.PortfolioManager.OnOrderFilled | src/portfolio/manager.py:44-81 | a fill event moves the position of its strategy and instrument by the law of one fill, of the quantity and at the price the event itself names, and charges its strategy, and no other |
| Portfolio.PortfolioManager.Dispatch | src/portfolio/manager.py:33-34 | events taken in the order published bring exactly their fills into the book: per key quantity and cash move by what the events name |
| Portfolio.PositionsAreFills | src/oms/tracker.py:125-176 | each key's net quantity is the signed sum of its fill events and all its cash is theirs, each at the price of its fill, and no broker id contributes twice; a position never flat in between says so itself |
| Portfolio.FilledCashIsMoved | src/portfolio/positions.py:38-77 | the cash of the fills entered is minus the signed quantities times the prices of the fill events |
| Portfolio.PublishedIsDeliverable | src/oms/tracker.py:125-143 | every fill event published has a price and a quantity, so the book can take it in |
| Portfolio.FutureTakenForOption | src/portfolio/manager.py:55-59 | for every underlying, year and month, a future's symbol is read as a future if and only if the underlying's name holds neither CE nor PE |
| Portfolio.FutureOvercharged | src/portfolio/manager.py:55-63 | and then every trade of a turnover of twenty or more is charged more than a future owes, and otherwise exactly that |
| Portfolio.RelianceIsOvercharged | src/portfolio/manager.py:55-63 | 209.95 instead of 37.03 for 250 units of RELIANCE at 1200 |
| MaxPain.PainAt | src/options/chain_analyzer.py:38-48 | the inner loop adds up what the writers of all open contracts pay at one settlement price |
| MaxPain.PainIsPayout | src/options/chain_analyzer.py:42-48 | total pain is the sum over entries of call open interest times the intrinsic value of the call and put open interest times that of the put |
| MaxPain.ComputeMaxPain | src/options/chain_analyzer.py:26-54 | the first listed strike at which total pain is least, zero for an empty chain |
| MaxPain.MaxPainIsGlobal | src/options/chain_analyzer.py:26-54 | that strike minimises total pain over every real settlement price, listed or not |
| MaxPain.MaxPainIsLowest | src/options/chain_analyzer.py:50-52 | it is the lowest listed strike that does |
| MaxPain.OptimalIffBalanced | src/options/chain_analyzer.py:26-54 | a listed strike is a global optimum if and only if the call interest strictly below it is at most the put interest at or above it, and the put interest strictly above it at most the call interest at or below it |
| OptionChain.FindOrCreateEntry | src/market_data/option_chain.py:189-197 | finds the strike or inserts it in its sorted place, keeping every other entry |
| OptionChain.AtmIsNearest | src/options/chain_analyzer.py:57-61 | the at-the-money strike is listed, none is nearer to the spot, and it is the first of those as near |
| OptionChain.UpdateChain | src/market_data/option_chain.py:116-161 | a quote changes only its own side of its own strike; strikes stay sorted, the total of its side moves by what the quote moves by and the other stays, the ratio is puts to calls, and the published max pain is the global optimum of the payout and balanced in open interest |
| OptionChain.TotalsAreOfSides | src/options/chain_analyzer.py:8-14 | the two totals are the open interest of all calls and of all puts |
| OptionChain.OptionChainBuilder.OnSpotTick | src/market_data/option_chain.py:87-105 | an index price reaches every chain on that underlying and no other |
| OptionChain.OptionChainBuilder.OnTick | src/market_data/option_chain.py:76-161 | in every reachable state each chain is sorted, with the right totals and ratio and a max pain that is optimal and balanced; a tick changes one quote of one chain or the spot of one underlying |
| OptionChain.OptionChainBuilder.RegisterSpot | src/market_data/option_chain.py:72-74 | only that token now stands for the index |
| OptionChain.OptionChainBuilder.RegisterOption | src/market_data/option_chain.py:50-70 | a new chain starts empty and an existing one is left alone |
| Aggregator.Feed | src/market_data/aggregator.py:120-163 | one tick through one builder closes its candle exactly when the tick is past its end, and the builder stands for the ticks since |
| Aggregator.GroupsPartition | src/market_data/aggregator.py:117-163 | the closed groups and the one being built are the ticks themselves, cut up, for any stream |
| Aggregator.GroupsAreBuckets | src/market_data/aggregator.py:88-93 | with ticks in time order every group lies in one aligned bucket and buckets increase |
| Aggregator.GroupIsItsBucket | src/market_data/aggregator.py:117-163 | then each group is all the ticks of its bucket: the streaming form refines a plain group-by |
| Aggregator.ClosedCandleRollsUp | src/market_data/aggregator.py:43-93 | each closed coarse group has the open, close, high, low and open interest of the closed fine groups of its span, and their volume and what was traded between them |
| Aggregator.CandleTells | src/market_data/aggregator.py:43-74 | a candle has the first and last price of its ticks, the highest and lowest reached by any, the last open interest, and as volume what the running total grew by |
| Aggregator.VolumeAddsUp | src/market_data/aggregator.py:53-55 | while running totals never fall, the volume of a group is that of its parts plus the growth from the last tick of each part to the first of the next |
| Aggregator.CandlesCountFromAnywhere | src/market_data/aggregator.py:44-55 | adding a constant to every running total leaves every candle as it is |
| Aggregator.StandardTimeframesNest | src/market_data/aggregator.py:15-23 | one-minute buckets nest in five- and fifteen-minute ones, and five in fifteen |
| Aggregator.TimeframesMakeUpDays | src/market_data/aggregator.py:88-93 | every timeframe consists of whole minutes and divides the day |
| Aggregator.OHLCAggregator.OnTick | src/market_data/aggregator.py:117-163 | per instrument and timeframe the candles closed are exactly those of the closed groups, and those kept are the newest 10,000 |
| Aggregator.OHLCAggregator.CompletedCandlesRollUp | src/market_data/aggregator.py:117-163 | below the cap, every completed coarse candle summarises the completed fine candles that start in its span, volume included while the running totals never fall |
| Aggregator.OHLCAggregator.GetLatestCandle | src/market_data/aggregator.py:165-173 | the candle of the ticks since the last one closed |
| Aggregator.OHLCAggregator.GetCompletedCandles | src/market_data/aggregator.py:175-187 | below the cap, the newest of all candles the key's ticks have closed |
| Aggregator.OHLCAggregator.NewestAreKept | src/market_data/aggregator.py:175-187 | past the cap too, what is returned for a key are the newest of its closed candles up to the limit, and what is missing is what the cap dropped |
| Aggregator.OHLCAggregator.KeptAreFiltered | src/market_data/aggregator.py:175-187 | only kept candles that match the filters are returned, a filter left out matching all, and all of them when the limit is large enough |
| Validation.Preflight | src/oms/validator.py:40-105 | lets through exactly the orders in market hours, in whole lots, within the freeze quantity, priced where needed and within a tenth of the last price |
| Validation.WhatIsSound | src/oms/validator.py:40-105 | in numbers: lots of 30, 40 or 75 and freeze quantities of 900 or 1800 by index, a price where the type asks for one, and a price between nine and eleven tenths of the last one |
| Validation.OrderValidator.Validate | src/oms/validator.py:40-47 | unsound orders leave no trace; a sound one passes exactly when no equal one did within the window, and then blocks its repetition |
| Validation.SameIdentity | src/oms/dedup.py:40-61 | two orders are the same to the duplicate check if and only if they agree in strategy, instrument, side, quantity, type and written price |
| Validation.ReversalTakesBack | src/oms/manager.py:177-191 | the reversal of a leg is for the same strategy, instrument and type, for minus its quantity, and at no price |
| Validation.LimitLegsCannotBeReversed | src/oms/manager.py:181-191 | the reversal of a sound leg is itself sound at any last price if and only if the leg is neither a limit nor a stop-limit order |
| Validation.RetryIsADuplicate | src/oms/manager.py:193-216 | the same order within the window of an accepted one is always a duplicate |
| Dedup.Cleanup | src/oms/dedup.py:53-61 | removes exactly the expired entries, which are a prefix |
| Dedup.OrderDeduplicator.Check | src/oms/dedup.py:25-38 | accepts exactly when no equal order was accepted in the last window; accepted equals are more than a window apart; the map stays oldest first |
| RateLimiting.GrantFits | src/utils/rate_limiter.py:25-35 | granting a token keeps every span of grants within the burst plus the rate times its length |
| RateLimiting.RateLimiter.Refill | src/utils/rate_limiter.py:37-42 | tokens accrue with time up to the burst and stay between zero and the burst |
| RateLimiting.RateLimiter.Acquire | src/utils/rate_limiter.py:25-35 | ends for a bucket of at least one, after at most one wait, and every span of grants stays within the bound |
| RateLimiting.RateLimiter.AvailableTokens | src/utils/rate_limiter.py:44-47 | reading the tokens only brings them up to date |
| CircuitBreaking.RapidLossIsFall | src/risk/circuit_breaker.py:92-99 | the rapid-loss test says that profit has fallen by more than the amount from some snapshot in the window |
| CircuitBreaking.BufferMissesOnlyForgotten | src/risk/circuit_breaker.py:48-70 | the full history shows a fall exactly when the buffer does or a forgotten snapshot in the window does |
| CircuitBreaking.SmallWindowForgetsNothing | src/risk/circuit_breaker.py:48-94 | nothing is forgotten while at most a hundred snapshots fall into the window |
| CircuitBreaking.CrowdedWindowHidesThePeak | src/risk/circuit_breaker.py:48-94 | with 101 snapshots in a window a fall of 6000 against a limit of 5000 goes unseen |
| CircuitBreaking.Alarming | src/risk/circuit_breaker.py:87-99 | the two tests raise an alarm exactly on a loss beyond the day limit or a fall beyond the amount from a profit in the window |
| CircuitBreaking.CircuitBreaker.CheckPnl | src/risk/circuit_breaker.py:67-102 | ends open exactly when it was open or the reading is alarming, unless the timer lifts the halt; nothing else closes it |
| CircuitBreaking.CircuitBreaker.TimerLiftsAfter | src/risk/circuit_breaker.py:72-85 | the timer lifts a halt from the set number of minutes after the trip on, and never when none is set |
| CircuitBreaking.CircuitBreaker.RunningMeansWithinLimits | src/risk/circuit_breaker.py:67-102 | a reading that is not alarming, in a window that is not overcrowded, is within the day limit and within the rapid-loss amount of every profit in the window's full history |
| CircuitBreaking.CircuitBreaker.AlarmMeansBeyondLimits | src/risk/circuit_breaker.py:87-102 | an alarm always means a loss beyond the day limit or a fall by more than the amount from a profit in the window, over the full history |
| CircuitBreaking.CircuitBreaker.Trip | src/risk/circuit_breaker.py:104-111 | a second trip does not restart the clock of the first |
| CircuitBreaking.CircuitBreaker.Reset | src/risk/circuit_breaker.py:131-139 | forgets the history exactly when it was not closed already |
| CircuitBreaking.CircuitBreaker.HalfOpen | src/risk/circuit_breaker.py:141-144 | leaves any state for half-open, keeping the history |
| CircuitBreaking.CircuitBreaker.OnDisconnect | src/risk/circuit_breaker.py:146-149 | only the start of the disconnection is remembered, the latest one |
| CircuitBreaking.CircuitBreaker.OnReconnect | src/risk/circuit_breaker.py:151-157 | trips exactly when the disconnection lasted longer than the threshold |
| Exposure.CountTotalLots | src/risk/manager.py:59-65 | the sum of whole lots over the positions shown |
| Exposure.LotsCountUnits | src/risk/manager.py:51-66 | whole lots times the size of a lot are the units held |
| Exposure.IsRiskReducing | src/risk/manager.py:68-82 | the first position of the instrument facing the order decides |
| Exposure.VisibleLots | src/risk/manager.py:59-65 | while nothing is hidden the count is that of the whole book |
| Exposure.ReducingIsOwnKey | src/risk/manager.py:68-82 | while nothing is hidden an order counts as reducing exactly when it takes from its own position no more than is there |
| Exposure.FillChangesLots | src/portfolio/positions.py:24-97 | a full fill adds at most its own lots, and takes exactly its own lots when it reduces |
| Exposure.ImmediateFillsStayWithin | src/risk/limits.py:44-49 | with each order filled before the next check, open lots never exceed the limit, or their start if higher |
| Exposure.ReducingFillsOnlyShrink | src/risk/manager.py:100-106 | while only reducing orders pass and fill at once, open lots never increase |
| WaitingOrders.AnyOrderStaysWithin | src/risk/limits.py:44-56 | with fills of any part, late deliveries, cancels and rejections in any order, only orders that pass on their lots, and none sent while a published fill is missing from the book, filled plus published plus waiting lots never exceed the lot limit times the open-order limit |
| WaitingOrders.BoundIsReached | src/risk/limits.py:44-56 | that product is reached from a flat book, with no fill published |
| WaitingOrders.SafeExitsStayWithin | src/risk/manager.py:68-106 | with exits too, and fills published and delivered whenever, open lots and what could be added to them never exceed that product, as long as orders on their lots are sent while every fill is in the book and each exit, with all that is claimed beside it, closes no more than is open |
| WaitingOrders.SafeExitsOnlyShrink | src/risk/manager.py:98-106 | while only such exits pass and nothing else is claimed, open lots never rise |
| WaitingOrders.WaitingExitsAreSafe | src/risk/manager.py:68-82 | exits filling one after the other against q units never flip the position if and only if they total at most q, and never raise the open lots if and only if they total at most 2q |
| WaitingOrders.OneAtATimeStaysWithin | src/risk/limits.py:51-56 | when each order is over and its fill in the book before the next is sent, open lots never exceed the lot limit or their start, whatever passes as reducing; a limit of one open order does that if no fill is undelivered as orders are sent |
| WaitingOrders.ExitsAreUnbounded | src/risk/manager.py:68-106 | with room for two waiting orders, runs from a flat book that send only while every fill is in the book exceed every number of open lots |
| WaitingOrders.ThreeExitsDouble | src/risk/manager.py:68-106 | with room for three, waiting exits of all q units lead to twice as many open lots the other way, for every q |
| WaitingOrders.GateIsBlind | src/oms/tracker.py:97-180 | when orders may be sent while fills are published and not in the book, runs of orders that all pass on their lots exceed every number of open lots, with any open-order limit of at least one and without exits |
| Risk.CheckLimits | src/risk/limits.py:65-89 | loss, strategy and lot limits bind every order that does not reduce, the open-order limit binds all |
| Risk.RiskManager.ValidateOrder | src/risk/manager.py:84-141 | the verdict in every case, in the order of the checks, and that only a passing order changes anything in the breaker, by showing it the day's profit; what passes without reducing risk is within both loss limits, the lot limit and the greeks limits |
| Risk.RiskManager.PassedIsAdmitted | src/risk/manager.py:84-125 | what passes is what the runs above admit, while nothing is hidden |
| Risk.RiskManager.FlatDeskStaysHalted | src/risk/manager.py:98-106 | no sequence of orders on a halted desk with nothing open passes, however late they come, and the breaker stays exactly as it was |
| KillSwitching.KillSwitch.CloseAll | src/risk/kill_switch.py:73-98 | one attempt closes exactly the open, priced symbols whose order is taken, once each; it finds so many open, and counts one error for each that still is |
| KillSwitching.KillSwitch.CloseRepeatedly | src/risk/kill_switch.py:69-108 | over up to three attempts, what any of them takes is closed and every failure is counted; an attempt that finds nothing open is the last |
| KillSwitching.KillSwitch.Activate | src/risk/kill_switch.py:38-140 | a symbol is flat after exactly one order against its position if and only if its close goes through in one of three attempts, all others are untouched; symbols closed, orders cancelled and errors are counted exactly; success if and only if nothing had to be tried twice or refused, and then nothing is open; every close is filled at the last traded price less the slippage |
| KillSwitching.NoErrorIff | src/risk/kill_switch.py:69-108 | the attempts report no error if and only if the first can be made and takes every open symbol and the second, if there was one open, can be made |
| KillSwitching.RetriedIsReported | src/risk/kill_switch.py:77-108 | a symbol whose first close is refused and whose second is taken ends closed with one error reported |
| KillSwitching.KillSwitch.CancelOpenOrders | src/risk/kill_switch.py:55-67 | exactly the open orders whose cancel is not refused, and any that share their id, read CANCELLED; the count is of the ids cancelled, the errors of the open orders refused |
| KillSwitching.KillSwitch.Reset | src/risk/kill_switch.py:142-145 | re-opens the gate |
| Oms.OrderManager.PlaceOrder | src/oms/manager.py:51-125 | a handled rejection returns an order that never reached the broker; an accepted one is tracked under its own broker id; what is raised escapes and leaves the orders as they were; in every case exactly what should be is announced |
| Oms.OrderManager.CheckOrders | src/oms/tracker.py:97-180 | exactly the tracked orders reported COMPLETE or TRADED with a price and a quantity, REJECTED or CANCELLED are ended as reported and let go, every other stays as it was; every fill event names the price and quantity reported, every fill reported of a tracked order is told, and each broker id gets at most one |
| Oms.OrderManager.CancelOrder | src/oms/manager.py:232-248 | succeeds exactly for an order the broker took and agrees to cancel, and then ends and untracks that one |
| Oms.OrderManager.CancelAll | src/oms/manager.py:250-259 | with polls in between, no order of the strategy whose cancel is granted is still submitted; the count is exactly that of the cancels published, of different orders that now read cancelled |
| Oms.OrderManager.GetOpenOrders | src/oms/manager.py:264-271 | the open orders are exactly the tracked ones |
| Oms.OrderManager.PlaceLegs | src/oms/manager.py:136-153 | every leg but the last was taken; it fails exactly on a leg the broker's answer rejects in a handled way, is broken off exactly by what that answer raises, and otherwise places all; no other order is made and none cancelled |
| Oms.OneEnding | src/oms/manager.py:136-153 | how placing a group ends is decided by the answers to its orders alone |
| Oms.FirstLegStands | src/oms/manager.py:136-153 | when the first of two legs is taken and the broker breaks at the second, placing ends with one leg standing and no failure handled |
| Oms.WholeFillsCancel | src/oms/manager.py:177-191 | a leg and the order reversing it, filled in whole, cancel if and only if the leg had filled in whole, because the reversal is for the quantity ordered |
| Oms.OrderManager.CancelLegs | src/oms/manager.py:159-166 | every leg whose cancel is granted is over afterwards |
| Oms.OrderManager.ReverseLeg | src/oms/manager.py:181-228 | the leg is reversed if and only if one of three tries is taken, by the only order the broker takes, which is for the same strategy, instrument and type and minus the quantity of the leg; otherwise it takes none and the breach is published |
| Oms.OrderManager.ReverseLegs | src/oms/manager.py:168-228 | exactly the filled legs are unwound, each reversed by its own order if and only if one of its tries is taken; per strategy and instrument the legs reversed and the orders reversing them ask for nothing |
| Oms.OrderManager.PlaceMultiLeg | src/oms/manager.py:127-230 | the ending is that of placing the legs; after a failed leg every earlier one whose cancel is granted is cancelled, rejected, or filled; exactly the legs that had filled when the cancels were through are dealt with, reversed if and only if one of their tries is taken, by an order for minus their quantity, else reported; the legs reversed and the orders reversing them sum to zero per strategy and instrument; no other order is taken; what is raised leaves everything in place with nothing cancelled |
| Oms.FinishedOrdersOk | src/oms/tracker.py:71-78 | ending one order keeps every other tracked under its own broker id |
| Oms.FilledFillsOk | src/oms/tracker.py:117-176 | reporting a tracked order filled keeps fill events unique per broker id |
| TradingRun.OpenOrdersAreWaiting | src/risk/manager.py:113-115 | the number of open orders the gate reads is that of the orders being tracked |
| TradingRun.TradingDesk.Send | src/oms/manager.py:51-125 | an order through gate and broker waits exactly when both take it, whatever is undelivered, and the bounds below keep being claimed exactly when nothing was hidden and the order was guarded, or nothing was hidden, waiting or undelivered |
| TradingRun.TradingDesk.Poll | src/oms/tracker.py:97-180 | the orders a poll ends wait no longer, and exactly what it published joins the queue; the book is not told |
| TradingRun.TradingDesk.Deliver | src/core/events.py:128-148 | the book takes in the oldest event it has not, in the order published, and only a fill changes it |
| TradingRun.TradingDesk.DeliverAll | src/core/events.py:128-148 | afterwards every fill published is in the book |
| TradingRun.TradingDesk.BookIsBehind | src/portfolio/manager.py:44-63 | per key the book is short of everything published by exactly what is undelivered |
| TradingRun.TradingDesk.GateSeesEveryFill | src/risk/manager.py:84-116 | the book the gate reads is that of everything published if and only if what is undelivered nets to nothing on every key |
| TradingRun.TradingDesk.UnseenFillsDoNotCount | src/risk/manager.py:108-135 | over a flat book with nothing waiting any order of up to the lot limit meets the limits, whatever is undelivered |
| TradingRun.TradingDesk.Cancel | src/oms/manager.py:232-248 | a granted cancel takes exactly the order of that id off the waiting list, if it waits, and leaves any other state of the desk |
| TradingRun.TradingDesk.NewDay | src/portfolio/pnl.py:88-97 | the daily reset leaves every position open and hides nothing from the gate |
| TradingRun.TradingDesk.StaysWithin | src/risk/manager.py:84-141 | over the whole life of such a desk open lots, and what the waiting orders and undelivered fills could add to them, stay within the product of the limits while every order was guarded, and within the lot limit while each was over and in the book before the next was sent, or within their start if higher |
| Strategy.ClosingCancels | src/strategy/implementations/short_strangle.py:366-370 | the opposite legs cancel a set of legs per instrument |
| Strategy.FindBestPair | src/strategy/implementations/short_strangle.py:118-138 | the nearest eligible delta on each side, the first of equals |
| Strategy.BestIsNearest | src/strategy/implementations/short_strangle.py:118-138 | the entry chosen has a positive call or negative put delta as near to the target as any such, and nearer than any such before it |
| Strategy.WhatFiltersBlock | src/strategy/base.py:82-177 | an entry is blocked above the volatility limit, with put interest outside its share of call interest, and with a spot further from max pain than its percentage |
| Strategy.HighVolatilityHalves | src/strategy/base.py:99-112 | in high volatility half the lots are dealt, rounded down and at least one, and otherwise all |
| Strategy.LotsPassTheChecks | src/core/constants.py:40-45 | the lot sizes the strategies reckon in are those the order checks ask for |
| Strategy.IndexContracts | src/core/constants.py:40-45 | lots of 75, 30 and 40 and strike steps of 50, 100 and 50 |
| Strategy.FindWing | src/strategy/implementations/iron_condor.py:311-380 | a quoted entry at exactly that strike, if there is one |
| Payoff.ComputePayoff | src/options/payoff.py:47-60 | the curve is, at every spot, the sum of the legs' payoffs |
| Payoff.CondorFloor | src/options/payoff.py:50-60 | a condor is worth at least quantity times credit less one wing, or two when the short strikes cross, and at most quantity times credit |
| Valuation.SameNetSameWorth | src/options/payoff.py:50-60 | two leg lists with the same net quantity per instrument are worth the same at any prices |
| IronCondor.FindSpread | src/strategy/implementations/iron_condor.py:311-400 | the short leg nearest its target and a wing at exactly the offset, whenever there is such a pair |
| IronCondor.FindCondor | src/strategy/implementations/iron_condor.py:125-192 | both spreads of an entry; it fails only when one side has none or both wings would share a strike |
| IronCondor.CoveredLegsFloor | src/strategy/implementations/iron_condor.py:156-208 | covered legs lose at most one wing a unit at every settlement price, two if the short strikes crossed |
| IronCondor.IronCondorStrategy.OnTick | src/strategy/implementations/iron_condor.py:75-94 | exits if and only if it is time, or at present prices the legs held lose more than the stop loss or have earned the profit target of what they brought in; rolls a side exactly when buying its two legs back costs more than its share of that, the put side only if the call side does not, and a covered replacement exists; enters whenever it may and can; emitted legs always net to what is held; one entry a day |
| IronCondor.ExitsAreDue | src/strategy/implementations/iron_condor.py:226-264 | the per-unit tests of the code say exactly that, in terms of the worth of the legs held |
| IronCondor.RollsAreDue | src/strategy/implementations/iron_condor.py:266-296 | and so do its tests for a roll: cooldown, time of day and the cost of closing each side |
| IronCondor.WingInSteps | src/strategy/implementations/iron_condor.py:156-161 | the wings are so many strike steps of the index away |
| IronCondor.IronCondorStrategy.AdjustThreatenedSide | src/strategy/implementations/iron_condor.py:296-447 | rolls one side into a covered spread at the same quantity, or does nothing at all when there is none |
| IronCondor.IronCondorStrategy.NeverNaked | src/strategy/implementations/iron_condor.py:296-471 | after any run, everything emitted so far is worth at least minus one wing a unit at every spot, two if the short strikes crossed, and nothing when out |
| IronCondor.IronCondorStrategy.PayoffFloor | src/options/payoff.py:50-60 | in every reachable entered state, whatever premiums the legs were dealt at, the payoff at every spot is at least quantity times credit less one wing, or less two if the short strikes crossed |
| IronCondor.IronCondorStrategy.CreateExitSignal | src/strategy/implementations/iron_condor.py:449-471 | closes exactly what is held and stays out for the day |
| IronCondor.IronCondorStrategy.ResetDayState | src/strategy/base.py:291-299 | keeps the ledger right exactly when out of the market |
| ShortStrangle.FindRoll | src/strategy/implementations/short_strangle.py:274-340 | the nearest eligible delta other than where the leg already is |
| ShortStrangle.ShortStrangleStrategy.OnTick | src/strategy/implementations/short_strangle.py:61-79 | exits if and only if it is time, or at present prices buying the legs back loses more than the stop loss, has earned the profit target, or has bounced off its lowest by more than the trail, tighter from two o'clock; rolls the threatened leg exactly when that is allowed and possible, enters whenever it may and can; emitted legs net to what is held; at most one entry between day resets and two rolls a date |
| ShortStrangle.ExitsAreDue | src/strategy/implementations/short_strangle.py:175-226 | the per-unit tests of the code say exactly that, in terms of the worth of the legs held |
| ShortStrangle.ShortStrangleStrategy.TryRoll | src/strategy/implementations/short_strangle.py:228-268 | the call before the put, within cap and cooldown |
| ShortStrangle.ShortStrangleStrategy.RollLeg | src/strategy/implementations/short_strangle.py:270-354 | one leg moves to its target, the other stays, and the ledger follows |
| ShortStrangle.ShortStrangleStrategy.CreateExitSignal | src/strategy/implementations/short_strangle.py:356-371 | closes exactly what is held |
| ShortStrangle.ShortStrangleStrategy.ResetDayState | src/strategy/base.py:291-299 | keeps the ledger right exactly when out of the market |
| Adaptive.AdaptiveStrategy.OnTick | src/strategy/adaptive.py:95-127 | exits exactly when time, regime or stop call for it, enters what the assessment advises whenever it can; emitted legs net to what is held, whichever kind it is |
| Adaptive.AdaptiveStrategy.HandleRegime | src/strategy/adaptive.py:129-178 | an open position is left exactly on advice to sit out or on a significant shift within the allowance |
| Adaptive.AdaptiveStrategy.EnterStrangle | src/strategy/adaptive.py:180-238 | sells the nearest deltas, whenever both sides have one, with no wings left over from a condor |
| Adaptive.AdaptiveStrategy.EnterIronCondor | src/strategy/adaptive.py:240-330 | a covered condor, whenever both spreads exist |
| Adaptive.AdaptiveStrategy.CheckPosition | src/strategy/adaptive.py:332-374 | exits exactly when closing the legs held loses more than the stop loss of their kind, or has bounced off its lowest by more than the trail of a strangle |
| Adaptive.ExitsAreDue | src/strategy/adaptive.py:332-374 | the per-unit tests of the code say exactly that, in terms of the worth of the legs held |
| Adaptive.SizeIsAdvised | src/strategy/adaptive.py:145-150 | so many whole lots as the advised multiple of the usual ones has in full, and at least one |
| Adaptive.AdaptiveStrategy.NeverNaked | src/strategy/adaptive.py:240-330 | a condor held after any run of regimes is worth at least minus two wings a unit at every spot, and nothing is owed when out |
| Adaptive.AdaptiveStrategy.CreateExitSignal | src/strategy/adaptive.py:376-389 | closes exactly what is held, wings only for a condor |
| Adaptive.AdaptiveStrategy.ResetDayState | src/strategy/base.py:291-299 | does not restore the allowance of switches; the ledger stays right when out of the market and is wrong when in a strangle, or in a condor with wings |
| DeltaNeutral.PortfolioDelta | src/strategy/implementations/delta_neutral.py:293-323 | the loop finds the deltas of the two short legs against the futures held |
| DeltaNeutral.DeltaIsOfLegs | src/strategy/implementations/delta_neutral.py:293-323 | the net delta is the worth of the two legs sold at their deltas and of the futures at one each |
| DeltaNeutral.HedgeShrinksDelta | src/strategy/implementations/delta_neutral.py:338-357 | a filled hedge strictly shrinks the net delta, to at most half a lot uncapped and without changing its sign capped |
| DeltaNeutral.NewHedgeWithinCap | src/strategy/implementations/delta_neutral.py:345-356 | a new hedge, whatever pending one it replaces, is whole lots and within the cap together with those held |
| DeltaNeutral.StuckAtTheCap | src/strategy/implementations/delta_neutral.py:345-354 | no hedge is sent if and only if none is called for or the cap is reached |
| DeltaNeutral.HedgeIsCalledFor | src/strategy/implementations/delta_neutral.py:338-357 | a hedge is sent if and only if the net delta exceeds the threshold and half a lot and the cap leaves room, and it goes against the net delta |
| DeltaNeutral.DeltaNeutralStrategy.OnTick | src/strategy/implementations/delta_neutral.py:72-104 | exits exactly when it must, enters exactly when it may and can, from the entry time on and never when stopped for the day, and hedges exactly when one is due, called for and tradable; the quantity no longer tracked grows by the pending hedge that is overwritten |
| DeltaNeutral.StopsAreDue | src/strategy/implementations/delta_neutral.py:88-100 | the stop loss of the code is a loss on the worth of the two legs held |
| DeltaNeutral.DeltaNeutralStrategy.TrackedHedgeIsCapped | src/strategy/implementations/delta_neutral.py:333-436 | in every reachable state the tracked hedge is whole lots and within the cap |
| DeltaNeutral.DeltaNeutralStrategy.CheckDeltaHedge | src/strategy/implementations/delta_neutral.py:325-388 | the hedge sent is the one called for at the net delta, and becomes the pending one |
| DeltaNeutral.DeltaNeutralStrategy.OnOrderUpdate | src/strategy/implementations/delta_neutral.py:418-435 | a fill confirms whatever is pending and a rejection discards it, whatever quantity was reported |
| DeltaNeutral.DeltaNeutralStrategy.CreateExitSignal | src/strategy/implementations/delta_neutral.py:390-416 | the legs emitted are minus the two options and the futures held, per instrument |
| DeltaNeutral.DeltaNeutralStrategy.TryEntry | src/strategy/implementations/delta_neutral.py:106-232 | enters if and only if the filters allow and both legs can be found: a strangle at the nearest deltas, or a straddle of the quotes at the strike nearest to the spot, a side not quoted there keeping the leg tracked before |
| DeltaNeutral.DeltaNeutralStrategy.ResetDayState | src/strategy/base.py:291-299 | clears the two flags and nothing else: no exit will come for a position then held, and its hedge stays on the books |
| DeltaNeutral.FindStraddle | src/strategy/implementations/delta_neutral.py:151-160 | each leg is what the first entry at exactly the strike quotes, and the leg tracked before if it is not listed or not quoted |
| DeltaNeutral.AtTheMoneyIsNearest | src/strategy/implementations/delta_neutral.py:149-150 | the strike at the money is on the grid of strikes and at most half a step from the spot |
| DeltaNeutral.StalePutIsSold | src/strategy/implementations/delta_neutral.py:151-160 | with only the call quoted at the strike nearest the spot, the put leg is the one tracked before, for every spot and every such leg |

## Left out

- Binary floating point and Decimal precision: prices and money are exact reals.
- Position objects handed out to callers: positions are values in the two dictionaries, so aliasing of a returned position is not captured.
- Order objects shared by manager, tracker and caller are modelled as one store indexed by order id; identity of Python objects is not captured.
- Candle builders are values in the aggregator's dictionary, which is the only holder of each.
- Strike insertion is modelled as insertion into a sorted list, which is what appending one entry and sorting yields.
- The checks before the broker (validation, margin, risk) enter `Oms` as an arbitrary outcome; `Validation` and `Risk` model the checks themselves, `TradingRun` puts the risk gate before the broker, and the margin check is not part of this model.
- The order history list, order timestamps, slippage, log lines, metrics, the intraday profit curve and the breaker's reason text.
- Updating position greeks from the option chain on each tick.
- Malformed numbers in broker data, which raise out of a poll half way through.
- Duplicate timeframes in the aggregator's list.
- Rate limiters with a negative burst or a rate that is not positive.
- Breakevens, extremes and the automatic spot range of the payoff curve.
- Implied volatility, greeks, put-call ratio by volume, skew and high-interest strikes: deltas and prices are arbitrary inputs.
- Spot trend filter: it enters as whether it blocks.
- Saving and loading strategy state, which does not restore every field.
- The short straddle strategy, whose leg tokens can survive from an earlier day like those of the delta-neutral straddle.
- Greeks risk aggregation: whether a limit is breached enters the gate as given.
- Event-bus concurrency and Redis: events form a queue in the order published, a poll is atomic after the broker's answer, each cancel is atomic, and so is each sending: one dispatcher sends the orders one at a time, so no delivery and no other order comes between the gate and the broker, and a poll that does could as well come after.
- MD5 hashing: the identity of an order is its six fields.
- Stopping strategies, notifications, the database, the web API, the Zerodha client and the simulators.
- Portfolio.PortfolioManager.Dispatch: requires every instrument to go by one symbol, as the exchange guarantees.
- TradingRun.TradingDesk.Send: takes orders that pre-flight validation lets through, in whole lots and with a strategy's name.
- TradingRun.TradingDesk.Poll: requires reported fills to be of whole lots and of no more than was ordered, as the exchange guarantees.
- KillSwitching.KillSwitch.Activate: against the immediately filling paper broker, because a broker that fills later has no final position to state.
