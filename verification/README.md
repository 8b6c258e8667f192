# Replay, ledgers and shadows: a verified model

The repository trades sleeves of stocks, replays them over past bars, and grades
what it traded against what a replay of the same rules would have held. This
project models the replay and the books that have to agree with it, and proves
what the system relies on.

| file | what it models |
|---|---|
| Market, Costs | bars and sessions; commissions, slippage, the three simulated fills, sizing a buy to sleeve cash |
| Replay | one session of the day-stepped replay as a function on its book, phase by phase, and the run over all sessions |
| BacktestRunner | the same replay as it is written: a class whose fields the phases update in place, proved equal to the functions |
| ReplayBooks, ReplayAccounts, ReplayLifecycle, ReplayFlows, ReplayTape, ReplayIdle, ReplayHistory, LookAhead | what holds of every run: conservation, order of events, flows, valuation, no look-ahead |
| ReplaySessions, ReplayDecisions, ReplayProvenance | a session read off the bars ticker by ticker, what its decisions are told and come to, and where every trade and lot of a run comes from |
| ReplayFunding, ReplayPhases, ReplaySolvency, ReplayOverdraft | funding safety: affordable queues, the bound on cash at every step of a session, and exactly when cash can never be negative |
| Momentum, MomentumSleeve, Breadth, BreadthMeaning, MomentumRegimes | the momentum rankings and signals over the replay and what they mean on closes, market breadth, and the regimes computed from it |
| RegimeRuns, RegimeMarkets | whole replays on which the regimes' switch shows, in general and on two small markets |
| LiveLedger, LiveRecords, LiveContext, BookParity, ParityRuns, ParityEquity | the live fill ledger, what it accepts and writes down, the pending orders shown beside it, and the proof that the replay's book is the one the ledger would hold, at the same value |
| Shadow, ShadowHoldings, ShadowClaims, ShadowFlows, Divergence | the rolling shadow: warm-up, flows from live's books to the curve handed back, normalisation, holdings reconstructed afterwards |
| Fundamentals | the point-in-time fundamentals cache and its refreshes |
| HedgeRegime, RankedSelection, BarRepair, BarMeaning, Drawdown | hysteresis labels, ranking and replacement pairing, self-checking bar repairs, drawdown measured three ways |
| SellControl, SellPass | sell availability, the sells of one daily pass, one pass of the outbox |

Prices and cash are exact reals; dates are day numbers; a ticker is its place in
alphabetical order. A run is a function of its rules, its signal function, its
flow plan and its bars. The signal function, the risk decision and universe
membership are arbitrary functions of what they are shown, so every theorem
about a run holds for all strategies. The replay also writes a tape of its
fills, flows and closing marks, which it never reads: it is what a live ledger
would be fed.

Where the code and its documentation differ the model follows the code:

- Bar repairs are documented as idempotent (backtest/bar_corrections.py:23-24,
  scripts/run_backtest.py:642). They are exactly when the factor is 1 or far
  enough from 1 that a repaired field no longer looks broken:
  `BarRepair.ScaleIdempotent` and `BarRepair.RepairIdempotent` give the condition
  both ways.
- A zero hedge band is documented to give the plain labels
  (scripts/run_backtest.py:761-762). The edges are rounded to nine decimals, so
  this holds exactly for thresholds that survive the rounding: `HedgeRegime.ZeroBand`.
- A refresh is documented to replace nothing
  (scripts/fetch_fundamentals.py:364-371). Storing the first Alpha Vantage quarter
  drops the rows of the older source, so what a lookup answered for a past date
  changes exactly when it was such a row: `Fundamentals.MergeKeepsHistory`.
- Cash staying at or above zero needs each exit to be worth its commission
  (backtest/runner.py:251-274). What that takes can be told beforehand: a sleeve of
  whole shares is never overdrawn, whatever its strategy, risk rules, flows and bars
  from a given price up, if and only if one share at that price, slippage off, fetches
  both the commission minimum and the rate per share; one of fractional shares if and
  only if there is no commission minimum and a share fetches the rate:
  `ReplayOverdraft.NeverOverdrawnIff`. Below that a three-session run that keeps every
  rule ends overdrawn. `ReplayFunding.CashBound` bounds the shortfall in general.
- A momentum sleeve given computed regimes uses its own stops while the regime table is
  empty (scripts/run_backtest.py:1173-1180, 1244). The rankings, the breadth and the
  regimes leak nothing, but whether the table is empty depends on all the bars there
  are: it fills once some ticker has a full moving average. Take bars that have one
  only after a cut. On a session up to the cut that a ticker prints, with more bars so
  far than the lookback, a bear ticker is answered differently if and only if it is
  ranked high enough and can be bought at the close, and any other ticker, at a close
  above zero, if and only if the sleeve's own stops are not the neutral ones; every
  other answer a replay can ask for is the same: `MomentumRegimes.RegimesAgreeIff`,
  `MomentumRegimes.IdleOnPrices`. Where no answer differs the replay of the bars up to
  the cut is a prefix of the full one, for every rule book and flow plan; where a bear
  ticker's does, rules are given under which it is not, so for neutral stops the
  condition is exact over runs: `RegimeRuns.RegimeRunsIff`. For other stops it is exact
  over answers, and `RegimeMarkets.PullbackSold` is a run, on the default stops, that
  sells early what the full one keeps.
- A live context keys a pending order by its symbol, or by its recommendation when the
  symbol is taken (scripts/paper_state.py:570-576). When that is taken too the earlier
  order is overwritten, so what a strategy is told is pending is never too much, and is
  all of it if and only if every order goes under a key not taken:
  `LiveContext.NeverOverstated`, `LiveContext.ToldInFullIff`.
- The research drawdown is documented to equal the backtest's
  (scripts/run_sleeve_evaluation.py:235-245). Returns cannot tell a curve from its
  negation, so a curve that starts below zero is measured upside down
  (`Drawdown.ResearchMeasures`), and every curve that starts at a given value measures
  alike if and only if that value is not below zero: `Drawdown.StartDecides`.

## Model

| member | source | states |
|---|---|---|
| `Market.Sessions` | backtest/runner.py:694-705 | the sessions are every date some ticker printed on, strictly ascending |
| `Market.BarOnIsLast` | backtest/runner.py:226-232 | of several bars of one date the last listed is the one replayed |
| `Market.TruncatedSessions` | backtest/runner.py:694-705 | cutting the bars at a date leaves exactly the sessions up to that date |
| `Costs.EntryFillsAtOrBelow` | backtest/simulator.py:23-60 | an entry fills whole, just when the bar trades at or below its limit, at the limit or a lower open with slippage and commission on top |
| `Costs.FillWithinReservation` | backtest/simulator.py:44-60 | a filled buy costs, commission included, at most the worst case reserved for it, whichever branch fills it, when the buffer covers the slippage |
| `Costs.SizingIsGreatestFit` | services/risk_management/funding.py:133-245 | a buy passes whole exactly when it fits; otherwise it is the largest multiple of the step that fits, and it is refused exactly when neither the request nor one step fits |
| `Costs.SizeToSleeveCash` | services/risk_management/funding.py:133-245 | clamping, closed-form size, flooring and the shaving loop arrive at that decision; the loop has nothing to shave in exact arithmetic |
| `Costs.ReservationNonNegative` | services/risk_management/funding.py:113-130 | a reservation is never negative |
| `BacktestRunner.ReplayRun.constructor` | backtest/runner.py:129-243 | a new run starts with the initial capital, no positions, every flow pending in key order, and scale 1 unless a basis is given |
| `BacktestRunner.ReplayRun.TradeLots` | backtest/runner.py:251-274 | every lot of a holding becomes one trade, in lot order, and the proceeds are what those trades raise after commission |
| `BacktestRunner.ReplayRun.CloseLots` | backtest/runner.py:245-275 | closing a ticker removes its lots, records their trades and hands the proceeds back without touching cash itself |
| `BacktestRunner.ReplayRun.AgeTickers` | backtest/runner.py:283-287 | a ticker that prints is aged to zero, every other known ticker by one, and no ticker appears or disappears |
| `BacktestRunner.ReplayRun.WriteOffOne` | backtest/runner.py:289-316 | a ticker at the delisting limit loses its queued entry and exit, and its lots are sold at the last close less slippage, with the queued reason or as delisted |
| `BacktestRunner.ReplayRun.WriteOffStopped` | backtest/runner.py:289-316 | the whole write-off phase equals its specification, tickers taken in name order |
| `BacktestRunner.ReplayRun.FillExits` | backtest/runner.py:318-337 | exits queued earlier fill at today's open in the order they were queued; those that do not print stay queued |
| `BacktestRunner.ReplayRun.BookFill` | backtest/runner.py:353-366 | a filled entry takes price times quantity plus commission from cash and appends one lot, keeping the lots already held |
| `BacktestRunner.ReplayRun.FillEntries` | backtest/runner.py:339-368 | every queued entry is worked once against today's bar in table order, then all are expired |
| `BacktestRunner.ReplayRun.Record` | backtest/runner.py:370-377 | exactly the tickers that printed gain today's bar and close; a stale count starts at zero and is otherwise kept |
| `BacktestRunner.ReplayRun.GateUniverse` | backtest/runner.py:379-393 | the non-members are those printing, held or leaving; each held one has an exit queued, an earlier reason kept |
| `BacktestRunner.ReplayRun.PayFlow` | backtest/runner.py:401-410 | one flow is scaled, a withdrawal clamped to cash, and today's credited total grows by what was paid |
| `BacktestRunner.ReplayRun.PayFlows` | backtest/runner.py:395-410 | all due flows are paid in key order; it stops with the unscaled-flow error exactly when one is due and no scale is known |
| `BacktestRunner.ReplayRun.BindBook` | backtest/runner.py:412-423 | the context a strategy sees is the blended book, built before any decision |
| `BacktestRunner.ReplayRun.Value` | backtest/runner.py:708-750 | the value the risk check and the session close use: cash plus every lot at its mark |
| `BacktestRunner.ReplayRun.HeldQuantities` | backtest/runner.py:724-727 | the risk check is shown each ticker's lots added up, and no other ticker |
| `BacktestRunner.ReplayRun.ReservedNotional` | backtest/runner.py:462-464 | what the queued entries would cost at their limits, over all of them |
| `BacktestRunner.ReplayRun.CommittedCash` | backtest/runner.py:510-512 | the reservations of all queued entries, which the next buy may not touch |
| `BacktestRunner.ReplayRun.AskRisk` | backtest/runner.py:453-467 | value, holdings, exposure, lots and reserved notional, computed by their loops, are those of the book as it then stands, queued entries included |
| `BacktestRunner.ReplayRun.ConsiderBuy` | backtest/runner.py:441-538 | a buy signal ends in exactly one funnel place, or queues one entry reserved at its worst-case cost |
| `BacktestRunner.ReplayRun.TakeDecisions` | backtest/runner.py:425-538 | all decisions of a session equal the specification: table order, non-members skipped, later decisions seeing earlier entries |
| `BacktestRunner.ReplayRun.CloseSession` | backtest/runner.py:540-558 | the value is taken before peaks rise, only printed tickers' peaks rise, and the scale is learned at the first session on or after the basis |
| `BacktestRunner.ReplayRun.RunSession` | backtest/runner.py:277-558 | one session in place equals one step of the specification, or fails with the same fault |
| `BacktestRunner.ReplayRun.ListOpen` | backtest/runner.py:579-589 | the open positions listed at the end are all lots of all held tickers |
| `BacktestRunner.ReplayRun.Run` | backtest/runner.py:129-602 | the whole run, fields updated in place over indexed bars, ends in the state of the specification or with its fault |
| `BacktestRunner.BlendLots` | backtest/runner.py:637-691 | accumulating lots in a loop gives total quantity, weighted average, highest peak and earliest entry |
| `BacktestRunner.IndexBars` | backtest/runner.py:226-232 | the index holds, for each ticker and date, the last bar it printed that day, and nothing else |
| `BacktestRunner.FaultStops` | backtest/runner.py:397-404 | a faulted run replays no later session |
| `ReplayBooks.CloseKeeps` | backtest/runner.py:245-275 | closing a position keeps initial capital plus flows plus realised equal to cash plus cost of what is open, and the count of fills |
| `ReplayBooks.OpenKeeps` | backtest/runner.py:353-366 | so does opening a lot |
| `ReplayBooks.LotTraded` | backtest/runner.py:251-274 | selling one more lot adds one trade, one reported sale and exactly what that trade raises |
| `ReplayBooks.StepBalanced` | backtest/runner.py:277-558 | a session keeps the money balance, the count of fills against trades and lots, and the shape of the book |
| `ReplayBooks.RunBalanced` | backtest/runner.py:277-558 | they hold in every state of every run |
| `ReplayAccounts.MarkExists` | backtest/runner.py:540-552 | a held ticker always has a last close, so the entry-price fallback is never taken |
| `ReplayAccounts.NavAtCloses` | backtest/runner.py:540-552 | each session's value is cash plus every lot at its ticker's last close |
| `ReplayAccounts.Conservation` | backtest/runner.py:245-558 | at every session end cash is initial capital plus applied flows plus closed pnl less cost and commission of open lots, and the recorded value is initial plus flows plus realised plus unrealised |
| `ReplayAccounts.EntryAccounting` | backtest/runner.py:441-563 | signals split exactly into refused, whole-share-skipped, cash-skipped and queued; queued into filled, expired (never negative) and pending; filled is trades plus open lots |
| `ReplayAccounts.RunDated` | backtest/runner.py:552-553 | one value and one date per session replayed, in session order, the first value being the initial capital |
| `ReplayAccounts.StepStages` | backtest/runner.py:277-558 | flows move only cash and decisions only the queues and the funnel |
| `ReplaySessions.SessionHoldings` | backtest/runner.py:283-368 | a session leaves a ticker the lots it had unless it sells them whole (its bars stopped, or it prints with an exit queued), and one new lot if a queued entry's limit was traded at or below, bought at the lower of limit and open with slippage on top; every lot's peak then covers today's close |
| `ReplaySessions.SessionTrades` | backtest/runner.py:245-337 | it adds one trade for each lot sold, in lot order, with the lot's own entry, at today's open or, when its bars have stopped, at the last close, slippage off, both commissions and the profit spelled out, for the reason queued or as delisted |
| `ReplaySessions.SessionCounts` | backtest/runner.py:283-287 | a ticker that prints counts no session, any other known one a session more, and is known by its latest close |
| `ReplayProvenance.RunTrue` | backtest/simulator.py:23-110 | in every state of every run each trade was bought on a day its ticker printed, at the open or a lower price it traded at, and sold at the open of a day it printed, or at the close of its last bar at least the delisting limit of sessions before; each lot was bought so and its peak is the highest of its price and the closes since; each count is of the sessions since the last bar |
| `ReplayProvenance.OpenAreLots` | backtest/runner.py:579-589 | the positions handed back are exactly the open lots, each under its ticker |
| `ReplayDecisions.SessionExits` | backtest/runner.py:318-439 | the exits that stand after a session are those carried over the night of a ticker that does not print, those of held non-members, and those of held members that print and the strategy sells, each with the earliest of those reasons |
| `ReplayDecisions.DecisionEnds` | backtest/runner.py:425-538 | each decision, in table order, changes the queued entries and the funnel only for a buy answered of a member that prints, and then as BuyEnds says, on the book the earlier ones left |
| `ReplayDecisions.BuyEnds` | backtest/runner.py:441-538 | before the start a buy is not counted; after it, it is counted once and refused, short of a whole share, short of cash, or queued at its limit for all that is wanted if its worst case fits the uncommitted cash and otherwise for the most units that do, with its reservation spelled out |
| `ReplayDecisions.SessionDecides` | backtest/runner.py:366-368 | a session's queued entries and funnel are those its decisions end with, begun from no entries |
| `ReplayDecisions.RiskIsToldAt` | backtest/runner.py:453-467 | at every decision the risk check is told the order as signalled, the value at last closes, how much of it is invested, every holding whole, lots and queued entry, and the queued notional |
| `ReplayDecisions.StrategyIsTold` | backtest/runner.py:412-423 | decisions depend on a strategy only through what it answers when told the seed as its budget and, of each holding with an exit queued, that all of it is leaving |
| `ReplayFunding.FlowAmountSafe` | backtest/runner.py:405-407 | a withdrawal never takes cash below zero, is paid in full when cash covers it, and never becomes a deposit |
| `ReplayFunding.BuyAffordable` | backtest/runner.py:502-538 | a queued entry's reservation fits the cash not already committed to earlier ones |
| `ReplayFunding.EntriesWithinReservations` | backtest/runner.py:339-368 | working any number of queued entries takes at most what they reserved |
| `ReplayFunding.RunCovered` | backtest/runner.py:277-558 | in every state of a run, cash plus the shortfall so far covers every queued reservation, from any seed that is not negative |
| `ReplayFunding.CashBound` | backtest/runner.py:318-368 | after any session queued worst-case costs sum to at most cash; cash is never lower than the summed excess of exit commissions over exit values, so never negative when each exit is worth its commission |
| `ReplayPhases.CashThroughout` | backtest/runner.py:289-538 | the same bound on cash holds after every write-off, exit, fill, flow and decision of every session of every run, what is queued is affordable after every decision, and where every price reaches the floor cash is never negative at any of them |
| `ReplayFunding.NoShortfall` | backtest/runner.py:251-274 | exits worth their commission leave no shortfall |
| `ReplaySolvency.ExitRaisesIff` | backtest/runner.py:251-274 | an exit raises at least nothing if and only if the quantity times the price got is at least the larger of the commission minimum and the quantity times the rate |
| `ReplaySolvency.FloorIsExact` | backtest/costs.py:96-108 | the floor on what one share fetches holds if and only if no quantity the sleeve can hold, whole shares or any fraction, is sold for less than its commission |
| `ReplaySolvency.NoFractionalFloor` | backtest/costs.py:96-108 | with a positive commission minimum every price, however high, has a fractional quantity whose exit costs more than it brings |
| `ReplaySolvency.RunSolid` | backtest/runner.py:277-558 | where every open and close reaches the floor, in every state of every run each lot and queued entry is of a quantity worth selling, and each exit so far raised at least nothing |
| `ReplaySolvency.CashNeverNegative` | backtest/runner.py:277-558 | there cash is never negative, for every strategy, risk rule and flow plan |
| `ReplayOverdraft.DealLeavesRaised` | backtest/runner.py:277-558 | a purchase with the whole of the cash followed by a sale at the same flat price leaves exactly what the sale raised, at any price, quantity and cost model that charges |
| `ReplayOverdraft.CashCanFallBelowZero` | backtest/runner.py:251-274 | one such run keeps every rule and ends half a dollar overdrawn |
| `ReplayOverdraft.NeverOverdrawnIff` | backtest/runner.py:251-274 | no run on prices at or above a given one is ever overdrawn if and only if that price reaches the floor for every ticker |
| `ReplayLifecycle.WorkEntriesDates` | backtest/runner.py:339-368 | filling entries never closes a trade on its entry date nor opens a lot after today |
| `ReplayLifecycle.DecideApart` | backtest/runner.py:425-538 | one decision keeps queued entries to printed members without a queued exit and overwrites none |
| `ReplayLifecycle.DecisionsApart` | backtest/runner.py:425-538 | so do all of a session's decisions: queued counts exactly the entries standing |
| `ReplayLifecycle.RunOrderly` | backtest/runner.py:283-439 | after every session of every run: each trade is entered before it is closed, each held ticker is below the delisting limit, entries and exits are queued for different tickers and entries for members only, and each held non-member has an exit queued |
| `ReplayFlows.ApplyFlowsPays` | backtest/runner.py:395-410 | due flows are exactly the leading ones by key; each is paid once, in order, and paying fails exactly when one is due without a scale |
| `ReplayFlows.PendingAscend` | backtest/runner.py:395-396 | flows wait in ascending key order, each given flow once |
| `ReplayFlows.RunSettles` | backtest/runner.py:395-410 | in every state of a run each flow is paid exactly once, at the first session on or after its key, at the one scale learned from the basis session's value, or is still pending; of a withdrawal this says only that at most the scaled amount is paid, ReplayTape.RunTold fixes it |
| `ReplayTape.RunTold` | backtest/runner.py:395-410 | in every state of a run fills and flows add up to the cash, each flow paid exactly its scaled amount with a withdrawal clamped to the cash on hand at that moment, and the record handed back holds for each session that was paid a flow the sum paid, in session order, and nothing else |
| `ReplayFlows.RunFaults` | backtest/runner.py:397-404 | whether and with what fault a run fails is decided by flow keys, basis and sessions alone, and this says exactly when |
| `ReplayFlows.AgreeBeforeFirstFlow` | backtest/runner.py:395-410 | until the first session at or after a flow key, a run equals the run without flows |
| `LookAhead.SamePrefix` | backtest/runner.py:277-558 | runs whose strategies answer alike whatever a replay of the bars can ask them up to a cut are in equal states after every session up to it |
| `LookAhead.NoLookAhead` | backtest/runner.py:277-558 | running on bars cut at any date gives exactly the full run's state at that date: values, dates, trades, cash, queues and funnel |
| `LookAhead.SameStrategyNoLookAhead` | backtest/runner.py:277-558 | the same for one strategy that reads only what it is shown |
| `ReplayHistory.HistoryIsPrinted` | backtest/runner.py:370-377 | after every session a strategy would be shown exactly what each ticker printed, one bar a session, whatever order its bars came in, and each last close is the close of the latest |
| `ReplayHistory.HistoryIsBarsSoFar` | backtest/runner.py:370-377 | for bars in date order that is each ticker's bars up to that date, and each last close is the close of the latest of them |
| `Momentum.IndexPrices` | scripts/run_backtest.py:1114-1124 | closes by date for eligible tickers only, a later bar of a date winning |
| `Momentum.PrecomputeRankings` | scripts/run_backtest.py:1124-1144 | the table has a ranking for exactly the dates with a full lookback, and it is the ranking of that date |
| `MomentumSleeve.RankingMeans` | scripts/run_backtest.py:1124-1156 | on closes: everyone ranked is an eligible member that closed then and a lookback of dates before, above zero; each has grown by more than those after it, or as much and earlier in the table; and one is left out only of a full ranking, by tickers that all grew more |
| `MomentumSleeve.SleeveAnswers` | scripts/run_backtest.py:1159-1273 | of a holding, a sale of what is not leaving already, for a bear ticker out of season, a fall from the peak or the average price by the regime's stops, or a rank past the exit band; of any other ticker, a purchase when it is among the first, in season, of a slice of capital in whole shares or to four decimals |
| `MomentumSleeve.LeavingIsNotSold` | scripts/run_backtest.py:1197-1205 | on a replay's own book it never sells a holding with an exit queued |
| `Momentum.RankingTruncated` | scripts/run_backtest.py:1124-1144 | the ranking of a date does not change when later bars are cut off |
| `Momentum.SignalsAgree` | scripts/run_backtest.py:1159-1273 | signals built on cut bars and on all bars answer alike whatever a replay can ask them up to the cut, given regime tables that agree up to it |
| `Momentum.MomentumNoLookAhead` | scripts/run_backtest.py:1077-1275 | so the momentum replay on cut bars, rankings precomputed on them, is the prefix of the full replay |
| `Breadth.ComputeBreadth` | scripts/run_backtest.py:674-695 | the loops give each date the share of tickers with a full average that closed above it, and no date without one |
| `BreadthMeaning.BreadthMeans` | scripts/run_backtest.py:674-695 | a day's breadth is the share, of the tickers with a full average on it, of those whose close is above theirs, and there is none when no ticker has one |
| `BreadthMeaning.RegimeMeans` | scripts/run_backtest.py:698-723 | which breadths each regime stands for, both ways |
| `BreadthMeaning.BroaderIsCalmer` | scripts/run_backtest.py:698-723 | with thresholds in order a higher breadth is never called worse |
| `Breadth.BreadthTruncated` | scripts/run_backtest.py:674-695 | the breadth of a date does not change when later bars are cut off |
| `Breadth.ComputeRegime` | scripts/run_backtest.py:698-723 | every date with a breadth is labelled by it, and no other |
| `Breadth.RegimesTruncated` | scripts/run_backtest.py:698-723 | the regimes computed from cut bars are exactly those of all the bars up to the cut |
| `MomentumRegimes.SwitchedOnIff` | scripts/run_backtest.py:674-723 | there are regimes on some date if and only if some ticker has bars for a full moving average |
| `MomentumRegimes.TurnLeaks` | scripts/run_backtest.py:1159-1245 | when only later bars turn regimes on, a ticker whose answer turns on them is answered differently on a session up to the cut, shown exactly its bars up to that session |
| `MomentumRegimes.RegimesAgreeIff` | scripts/run_backtest.py:1159-1273 | signals with regimes computed from cut bars answer as those with regimes computed from all the bars, whatever a replay can ask them up to the cut, if and only if some ticker has a full average by the cut or none ever has, or on no session up to it does a ticker that prints, with more bars than the lookback, have an answer that turns on the switch |
| `MomentumRegimes.IdleOnPrices` | scripts/run_backtest.py:1159-1245 | at closes above zero no answer turns on it exactly when the stops are the neutral ones or no ticker but a bear one has more bars than the lookback by the cut, and no bear ticker with that many is ranked and priced to be bought |
| `MomentumRegimes.RegimeReplayNoLookAhead` | scripts/run_backtest.py:1077-1275 | then the whole momentum replay with rankings and regimes computed from cut bars is the prefix of the full one |
| `RegimeRuns.BearRunDiffers` | scripts/run_backtest.py:1240-1256 | where a bear ticker's answer turns on the switch the replay of cut bars counts a buy, and at a close above zero queues it, that the replay of all the bars never counts |
| `RegimeRuns.RegimeRunsIff` | scripts/run_backtest.py:1077-1275 | for neutral stops the replay of cut bars is a prefix under every rule book and flow plan if and only if regimes are on for both or neither or no bear ticker's answer turns on it; for other stops each half separately |
| `RegimeMarkets.InverseFundBought` | scripts/run_backtest.py:1240-1256 | on two sessions of one inverse fund the cut replay queues a buy the full one does not |
| `RegimeMarkets.PullbackSold` | scripts/run_backtest.py:1172-1206 | on four sessions of one ticker and the default stops the cut replay queues a trailing-stop sale the full one does not |
| `LiveLedger.PaperTradingState.BookSale` | scripts/paper_state.py:290-349 | a sell credits cash, caps at the held quantity, records pnl against the average price, and removes a row sold out |
| `LiveLedger.PaperTradingState.ApplyFillAccounting` | scripts/paper_state.py:188-349 | every branch of one fill: refusals leave the ledger untouched, otherwise rows, trades and cash are those of the specification |
| `LiveLedger.PaperTradingState.UpdatePeakPrices` | scripts/paper_state.py:385-408 | the selected rows with a price take it and raise their peaks; every other row is unchanged |
| `LiveLedger.PaperTradingState.ComputeEquity` | scripts/paper_state.py:410-431 | equity is the portfolio's cash plus its rows at price, or at average price when there is none |
| `LiveLedger.PaperTradingState.BuildPositions` | scripts/paper_state.py:510-555 | the positions a strategy is shown are the open rows of the portfolio and account |
| `LiveRecords.FillMeans` | scripts/paper_state.py:188-349 | a fill is accepted if and only if its sleeve is known, a strict one can be attributed to one row, and the money or the shares are there; then it changes its own row, the cash and the records as spelled out, and no other row |
| `LiveRecords.RefusalMeans` | scripts/paper_state.py:188-300 | a refused fill is refused for the first that holds of: sleeve unknown, no account, no contract, an open row of the contract without account, two rows, another ticker, then overdraft, another contract, an emptied row, more than is held, or neither buy nor sell |
| `LiveRecords.TradesAreSales` | scripts/paper_state.py:290-349 | after any accepted fills every trade was written down by one of them: at its price, commission and day, against the average price and entry day its row then had, for what the row lost; its profit is the difference of the prices over the quantity |
| `LiveRecords.FillKeepsWorth` | scripts/paper_state.py:410-431 | a fill at the market leaves cash and rows together short by its commission alone, over all accounts or over its own; from another account only the cash moves |
| `LiveRecords.PeaksMean` | scripts/paper_state.py:385-408 | an update of prices changes the viewed rows that have one: price taken, peaks covering it |
| `LiveRecords.ContextShows` | scripts/paper_state.py:510-555 | a strategy is shown the last viewed row of each ticker, with the larger of its two peaks, and no other ticker |
| `LiveContext.BuildPending` | scripts/paper_state.py:555-585 | the loop keeps this portfolio's working intents, under the symbol or, when that is taken, under the recommendation |
| `LiveContext.NeverOverstated` | backtest/portfolio_context.py:42-48 | for any intents the pending quantity told of a symbol and side is at most what remains of the working ones there |
| `LiveContext.ToldInFullIff` | scripts/paper_state.py:555-585 | it is all that remains, for every symbol and side, if and only if each working intent goes under a key not taken when it is placed |
| `LiveContext.PendingIsRemaining` | scripts/paper_state.py:555-585 | in particular when every recommendation has an identity of its own that is no other's symbol |
| `LiveContext.PendingListed` | scripts/paper_state.py:555-585 | the context then lists exactly the open intents in order, each with what remains of it, the first of a symbol under the symbol and later ones under their own identity |
| `LiveLedger.FillBalances` | scripts/paper_state.py:188-349 | one accepted fill changes cash plus book cost less realised pnl by its commission alone, and bought-less-sold by what it bought |
| `LiveLedger.LedgerIdentity` | scripts/paper_state.py:260-344 | over any accepted strict fills, cash plus average price times quantity equals its start plus trade pnl less commissions, and each ticker's quantity is buys less sells |
| `LiveLedger.PositionsStayPositive` | scripts/paper_state.py:260-344 | no sequence of accepted fills leaves an open row with a quantity that is not positive |
| `LiveLedger.NoAcceptedOverdraft` | scripts/paper_state.py:260-285 | an accepted strict buy never leaves cash below minus the tolerance |
| `BookParity.BuyAgrees` | backtest/runner.py:353-366 | a replayed buy fed to the live ledger keeps cash, quantity, average, peak and entry date the same in both |
| `BookParity.SellDown` | scripts/paper_state.py:290-349 | selling the lots one by one takes a live row through exactly their running remainder, and it is removed with the last |
| `BookParity.SaleAgrees` | backtest/runner.py:245-275 | a replayed close, fed lot by lot, keeps both books the same |
| `ParityRuns.StepParity` | backtest/runner.py:277-558 | a whole session fed to the live ledger keeps both books the same at the decision point and at the close |
| `ParityRuns.RunParity` | backtest/runner.py:277-558 | so does every prefix of every run |
| `ParityRuns.MirroredContext` | backtest/runner.py:637-691 | books that hold the same show a strategy the same positions |
| `ParityRuns.BooksAgree` | backtest/runner.py:642-663 | feeding a live ledger everything a run reported is never refused and leaves its cash and the positions it shows equal to the replay's, at every decision point and every session end, multi-lot positions included; a strict ledger when each exit is worth its commission |
| `ParityEquity.EquityAgrees` | scripts/paper_state.py:410-431 | the equity the live ledger computes of the sleeve at a session's last closes is exactly the value the replay recorded for the session |
| `ParityRuns.StrictBooksAgree` | backtest/runner.py:642-663 | a strict live ledger agrees on conditions known beforehand: a seed that is not negative and prices that reach the floor |
| `ShadowHoldings.Reconstruct` | backtest/shadow_series.py:192-220 | the loops over final trades and open lots total what was held at the session, over the value |
| `ShadowHoldings.HeldIsValueLessCash` | backtest/shadow_series.py:192-220 | what the final trades and lots say was held at a session, at the closes then known, is that session's value less its cash |
| `ShadowHoldings.InvestedIsExact` | backtest/shadow_series.py:192-220 | so the reconstructed exposure is exactly (value - cash) / value as the runner stood at that close |
| `Shadow.FetchYearsLeast` | backtest/shadow_series.py:137-151 | the years fetched are the least, and at least one, that hold window, warm-up and lookback |
| `Shadow.IncludeFlows` | backtest/shadow_series.py:280-302 | each curve day carries the scaled total of every flow applied up to it, though the loop pops each flow once |
| `Shadow.UnwindFlows` | shared/capital_flows.py:188-228 | going backwards, each value carries the product of the flow factors after it |
| `Shadow.RemoveFlows` | shared/capital_flows.py:188-228 | a curve without flows is returned as it is, otherwise the unwound one |
| `Shadow.ReplayWindowDetail` | backtest/shadow_series.py:223-338 | the window replay, errors in the order the code finds them, equals its specification on the runner |
| `Shadow.Grade` | backtest/shadow_series.py:304-338 | normalising, adjusting and measuring exposure equal their specification |
| `ShadowClaims.NeverTruncated` | backtest/shadow_series.py:250-265 | with the years fetched and no more than the window's sessions from its start, the warm-up is never truncated |
| `ShadowClaims.WindowRunFaults` | backtest/shadow_series.py:276-302 | the wrapped run fails only for a zero seed with flows inside the window |
| `ShadowClaims.NeverUnscaled` | backtest/shadow_series.py:280-302 | a window replay never raises the runner's unscaled-flow error |
| `ShadowClaims.GradingFails` | backtest/shadow_series.py:304-312 | grading fails exactly when the value at the window's start is not positive |
| `ShadowClaims.SeedThroughWarmup` | backtest/shadow_series.py:171-189 | the value is exactly the seed through the gate date, and nothing is held or queued before it |
| `ShadowClaims.GateOpens` | backtest/shadow_series.py:171-189 | from the warm-up's first session on every decision is the signal function's own |
| `ShadowClaims.WindowOpens` | backtest/shadow_series.py:266-278 | the window runs on the sleeve's rules with live's opening value as its seed and buys from the warm-up's first session on |
| `ShadowClaims.WindowSplits` | backtest/shadow_series.py:250-265 | a window without a session on or after its start yields nothing; the warm-up is truncated exactly when fewer sessions come before it than warm-up and lookback take |
| `ShadowClaims.CurveOpensOnSeed` | backtest/shadow_series.py:304-330 | the returned curve covers exactly the window, starts at the seed and is the run's values at one scale, which is 1 without warm-up |
| `ShadowClaims.ZeroWarmup` | backtest/shadow_series.py:250-265 | without warm-up the value at the window's start is the seed |
| `ShadowClaims.OpeningExposure` | backtest/shadow_series.py:330-338 | the exposure reported is the one held at the close the window starts from |
| `ShadowClaims.NormalisingKeepsReturns` | backtest/shadow_series.py:312-330 | the window and daily returns of the normalised curve are those of the run itself |
| `ShadowClaims.AdjustedReturns` | shared/capital_flows.py:188-228 | on an adjusted curve each step's ratio is that of the values with that day's flow taken out, and the last value is kept |
| `ShadowFlows.ShadowSteps` | backtest/shadow_series.py:304-338 | end to end, flows or none: on the curve handed back each session's ratio to the one before is that of the run's values with what the run credits that day taken out, unless that is under a millionth on the curve, and the curve ends at the run's last value at the normalising scale |
| `ShadowFlows.FlowsEnterAsLive` | backtest/shadow_series.py:276-302 | each flow live recorded after the window's first session, up to the last, and no other, is paid into the run once, in date order, at the first session on or after its day, and enters the curve at the size it had live, a withdrawal at no more than that |
| `Divergence.DailyReturns` | backtest/divergence.py:314-327 | a return for each step from a positive value, in order |
| `Divergence.ScalingKeepsReturns` | backtest/divergence.py:296-327 | scaling a series by any positive factor changes neither its window return nor its daily returns |
| `Divergence.NegativeScaleDrops` | backtest/divergence.py:296-311 | a negative factor loses the window return |
| `Divergence.WindowReturnIs` | backtest/divergence.py:296-311 | a window's return takes its first value to its last; there is none for a single value or from nothing |
| `Divergence.DailyReturnIs` | backtest/divergence.py:314-327 | each daily return takes the value before to its day's, and is left out exactly when that is not above zero |
| `Divergence.DailyCompounds` | backtest/divergence.py:296-327 | on a curve above zero the daily returns compound to the window's |
| `Fundamentals.LatestOutranks` | scripts/fetch_fundamentals.py:165-209 | the row answered for a date is available on it and is outranked by no other available row, later ones winning ties; none is answered exactly when none is available |
| `Fundamentals.SortedLatest` | scripts/fetch_fundamentals.py:190-209 | sorting by availability does not change any answer |
| `Fundamentals.Scan` | scripts/fetch_fundamentals.py:200-209 | scanning the sorted rows and stopping at the first not yet available finds that row |
| `Fundamentals.BuildIndex` | scripts/fetch_fundamentals.py:165-199 | an index for every ticker, refused exactly for a negative lag |
| `Fundamentals.Lookup` | scripts/fetch_fundamentals.py:154-209 | index and scan answer a row of the ticker that is filed by the day, or the lag past its period when it has no filing date, and seen by it if stamped, none of its public rivals having come out after it; none exactly when no row is public; refused for a negative lag |
| `Fundamentals.LatestAnswers` | scripts/fetch_fundamentals.py:154-209 | so does the specification, on any rows, lag and day |
| `Fundamentals.OneRowAnswers` | scripts/fetch_fundamentals.py:154-163 | a cache of one row answers it from exactly the day it is public |
| `Fundamentals.MergeFirstSeen` | scripts/fetch_fundamentals.py:356-389 | the loop yields the merged rows, and the periods reported are those of the rows it appended |
| `Fundamentals.MergeReplacesNothing` | scripts/fetch_fundamentals.py:356-389 | stored quarters come through unaltered, the result is sorted with unique periods, and each added row is new, first of its period and in time |
| `Fundamentals.KeptCovers` | scripts/fetch_fundamentals.py:376-384 | every offered quarter in time is stored afterwards |
| `Fundamentals.MergeKeepsHistory` | scripts/fetch_fundamentals.py:356-389 | a refresh keeps the answer for an earlier date if and only if it does not store its first quarter over a legacy row that was being answered |
| `Fundamentals.LegacyIsForgotten` | scripts/fetch_fundamentals.py:385-389 | storing the first quarter makes every earlier date answer nothing |
| `Fundamentals.RefreshesStore` | scripts/fetch_fundamentals.py:356-389 | over any refreshes stored quarters survive unaltered, unique and sorted |
| `Fundamentals.RefreshesKeepHistory` | scripts/fetch_fundamentals.py:356-389 | no sequence of refreshes changes the answer for any date before them |
| `HedgeRegime.ComputeHedgeRegime` | scripts/run_backtest.py:744-794 | a label for every date, each that of the hysteresis over breadths in date order |
| `HedgeRegime.LabelsPrefix` | scripts/run_backtest.py:744-794 | later breadths do not change earlier labels |
| `HedgeRegime.PlainIsRegime` | scripts/run_backtest.py:698-723 | reading crash as bear gives the plain labels for every breadth if and only if the crash edge is not above the bear edge or the edges cross |
| `HedgeRegime.ZeroBand` | scripts/run_backtest.py:744-794 | band zero gives the plain labels on every series if and only if the thresholds survive the rounding of the edges |
| `HedgeRegime.NeverSwitchesMore` | scripts/run_backtest.py:744-794 | the labels never switch more often than the plain ones, whatever the edges |
| `HedgeRegime.EdgesNear` | scripts/run_backtest.py:773-777 | no rounded edge is further than half a unit of the ninth place from its threshold plus or less the band |
| `HedgeRegime.EdgesOrdered` | scripts/run_backtest.py:773-777 | so the edges stay in order whenever the band covers the rounding, or the thresholds have nine decimals |
| `HedgeRegime.DecisiveMerges` | scripts/run_backtest.py:744-794 | with edges in order a breadth sends every label to the same next one if and only if it is beyond an entering edge or between the leaving edges |
| `HedgeRegime.MergingIff` | scripts/run_backtest.py:744-794 | and at any edges at all if and only if its plain label is reached from each of the others |
| `HedgeRegime.StartsForgotten` | scripts/run_backtest.py:744-794 | from the first such breadth on, runs from any two starting labels agree forever, whatever the thresholds and the band |
| `HedgeRegime.DecisiveForgets` | scripts/run_backtest.py:744-794 | in particular from the first breadth above the bull edge plus band, below the bear edge less band, or between the leaving edges |
| `RankedSelection.SortedBy` | backtest/ranked_selection.py:37-44 | every name once, ordered by weight and then by name |
| `RankedSelection.RankingIsTop` | backtest/ranked_selection.py:28-44 | each selected name beats every later one and every one left out, ties by name, and as many are selected as asked for or exist |
| `RankedSelection.PairOff` | backtest/ranked_selection.py:81-94 | the loop pairs the weakest leaving with the strongest arriving, keeping those that reach the margin |
| `RankedSelection.PairReplacements` | backtest/ranked_selection.py:47-94 | the whole function, refusals included, equals its specification |
| `RankedSelection.DeltasMean` | backtest/ranked_selection.py:67-94 | the pairs replace dropped holdings by newcomers, as many as the fewer of the two, each name once, at their score difference; no holding left is weaker than one replaced and no newcomer left out stronger than one let in, names breaking ties |
| `RankedSelection.DeltasFail` | backtest/ranked_selection.py:56-74 | nothing is emitted for the technical policy; the margin is refused exactly when below zero, and unscored names exactly when there are some, all named |
| `RankedSelection.RankFails` | backtest/ranked_selection.py:28-36 | a ranking is refused exactly for an empty top or for scores that are not finite, all named |
| `RankedSelection.ImprovementsFall` | backtest/ranked_selection.py:75-94 | improvements never rise along the pairs |
| `RankedSelection.FrontWeighsLeast` | backtest/ranked_selection.py:75-80 | the first k of an ordering weigh no more than any k distinct names |
| `RankedSelection.NoPairingBeats` | backtest/ranked_selection.py:75-94 | no disjoint pairing of the same size has a greater total improvement |
| `RankedSelection.MarginEmitsPrefix` | backtest/ranked_selection.py:81-94 | with a margin exactly the leading pairs that reach it are emitted |
| `RankedSelection.RankedSelectionNeverWorse` | backtest/ranked_selection.py:28-94 | when the selection is the top of a ranking covering every holding, no replacement loses score |
| `BarRepair.CorrectionKeepsDates` | backtest/bar_corrections.py:81-95 | a correction keeps length and dates |
| `BarRepair.FixedIsProper` | backtest/bar_corrections.py:102-116 | a repaired bar has open and close between its low and its high |
| `BarRepair.ScaleIdempotent` | backtest/bar_corrections.py:119-138 | scaling is idempotent on all bars if and only if the factor is 1 or the rescaled seam no longer lies within tolerance of it |
| `BarRepair.RepairIdempotent` | backtest/bar_corrections.py:98-116 | repairing is idempotent on all bars if and only if the factor is 1, nothing is repaired, or a repaired field is out of tolerance |
| `BarRepair.PipelineIdempotent` | scripts/run_backtest.py:633-663 | clip, drop and correct twice equals once exactly when the correction does on what reaches it, hence for every such factor |
| `BarRepair.ApplySymbolTables` | scripts/run_backtest.py:633-663 | every series is the repaired one, and the names reported are exactly the aliased ones left without bars |
| `BarMeaning.ScaleMeans` | backtest/bar_corrections.py:119-138 | a scale applies exactly when the seam at its date is off by the factor to a fiftieth; every price before the seam is then multiplied and every volume divided, to a whole share, the rest stands, and the seam is closed to a fiftieth |
| `BarMeaning.RepairMeans` | backtest/bar_corrections.py:98-116 | a repair applies exactly when the day's first bar opens above zero with every named field a factor below its open, and then to that bar alone: named fields multiplied, high and low stretched to hold open and close |
| `BarMeaning.TablesKeep` | backtest/symbol_aliases.py:196-219 | the tables keep, in order, exactly a name's bars before its alias ends and from the day it has its own prices, or none |
| `Drawdown.MeasureDrawdown` | backtest/metrics.py:98-117 | the running-peak loop computes the drawdown |
| `Drawdown.DrawdownIsLargestFall` | backtest/metrics.py:98-117 | on a non-negative curve it is the largest relative fall from any point to a later one, and lies in [0, 1] |
| `Drawdown.CheckAggregateDrawdown` | backtest/aggregate_risk.py:26-82 | the risk monitor's own loop measures the same drawdown and raises the alerts due to it |
| `Drawdown.AlertsOnFalls` | backtest/aggregate_risk.py:41-82 | a warning or a breaker is raised exactly when some point fell that far from an earlier one |
| `Drawdown.AlertsOnRunningFalls` | backtest/aggregate_risk.py:41-82 | on any curve at all they are raised exactly when some point fell that far below the running peak |
| `Drawdown.ReturnsFromEquityCurve` | scripts/run_sleeve_evaluation.py:193-222 | the loop yields one return a step, or the fault of the first step that has none |
| `Drawdown.ReturnsExist` | scripts/run_sleeve_evaluation.py:193-222 | returns exist exactly when the lengths match and no denominator is zero |
| `Drawdown.FirstZero` | scripts/run_sleeve_evaluation.py:193-222 | the fault names the first value that nothing can grow from |
| `Drawdown.ResearchAgrees` | scripts/run_sleeve_evaluation.py:225-245 | returns padded and compounded again have the drawdown the backtest measured on every curve with returns that does not start below zero |
| `Drawdown.ResearchMeasures` | scripts/run_sleeve_evaluation.py:225-245 | on every curve that has returns they have the drawdown of the curve, or of its negation when it starts below zero |
| `Drawdown.StartDecides` | scripts/run_sleeve_evaluation.py:225-245 | every curve with returns that starts at a given value measures alike both ways if and only if that value is not below zero |
| `Drawdown.ReturnsCompound` | scripts/run_sleeve_evaluation.py:235-245 | and compound to its total return |
| `Drawdown.UnpaddedMeasures` | scripts/run_sleeve_evaluation.py:235-245 | without the pad the metric measures the curve from its second point on |
| `Drawdown.UnpaddedMissesFirstDay` | scripts/run_sleeve_evaluation.py:235-245 | so on a curve that is never negative it falls short exactly when some fall from day zero exceeds every later one |
| `SellControl.BuildSellAvailability` | scripts/run_paper.py:917-970 | the loops, clamping at every step, come to each holding less all active sells of its contract, never below zero, an intent the broker already works counted once |
| `SellPass.FreeToSell` | scripts/run_paper.py:917-970 | of a listed symbol there is free its contract's holding less what open sell orders and sells under way, not yet at the broker, have still to fill, and never less than nothing |
| `SellControl.AcceptSells` | scripts/run_paper.py:1402-1431 | the nested loop over sleeves and their signals equals one pass over all asks |
| `SellControl.SellsWithinAvailability` | scripts/run_paper.py:1418-1431 | accepted sells of a symbol and what remains of it add up to its starting availability, over all sleeves of a pass |
| `SellControl.SellsUncapped` | scripts/run_paper.py:1402-1434 | without an availability every sell that is not skipped goes through as asked |
| `SellPass.AskEnds` | scripts/run_paper.py:1402-1431 | each ask is granted what it asks, or all when it names nothing, up to what there was less what earlier asks of the symbol were granted, and nothing when that is nothing or it rests on degraded data |
| `SellPass.AskUncapped` | scripts/run_paper.py:1402-1434 | without an availability each ask not resting on degraded data is granted as it stands |
| `SellControl.OrderOutbox.Publish` | scripts/run_paper.py:1600-1656 | publishing one intent sends it once, marks it and takes what it sells from the map |
| `SellControl.OrderOutbox.ReplayOne` | scripts/run_paper.py:1586-1656 | each branch of one intent: left alone, expired, replaced by a capped sell, or sent |
| `SellControl.OrderOutbox.PublishUnpublished` | scripts/run_paper.py:1564-1657 | the pass over the selected intents leaves the store and the stream of its specification and counts what it sent |
| `SellControl.PublishedWithinAvailability` | scripts/run_paper.py:1586-1656 | what one pass sells of a symbol, capped replacements included, is at most what was available plus 1e-6 |
| `SellControl.OutboxWithinHoldings` | scripts/run_paper.py:1564-1657 | with the availability computed from the same snapshot, what the pass sells of a symbol is at most what that snapshot leaves uncovered plus 1e-6 |
| `SellPass.IntentEnds` | scripts/run_paper.py:1586-1656 | an intent taken up goes out as it stands, waits for a snapshot of its account and mode, is cancelled when nothing is left, or is replaced by one for what is left when it asks for over a millionth more |
| `SellPass.OutboxTouches` | scripts/run_paper.py:1564-1657 | a pass takes up exactly the proposed, unpublished intents of the account, sells alone when entries are held, sends at most one message for each and leaves it out, cancelled or waiting; every other intent is as it was |

## Left out

- Broker, database, stream and market-data access, printing, parsing and alert texts: rows are records, tables are maps.
- Floating-point rounding in prices and cash: they are exact reals. Rounding that is part of a rule (regime edges, share steps) is modelled.
- The metrics block of a replay result, its observers, the skip ledger, and the sector and signal payloads carried through.
- A missing membership calendar: it is the one that contains everything.
- The risk engine and the strategies other than momentum: arbitrary functions of what they are shown.
- BacktestRunner.ReplayRun.AskRisk: in the portfolio shown the peak is the value itself and sector exposure and margin are constants, so they are not carried.
- ReplayFunding.CashBound: needs a non-negative minimum commission and slippage that leaves prices non-negative.
- ParityRuns.BooksAgree: the cash-flow step of a live ledger is its deposit, which the fill accounting does not contain.
- LiveLedger.PaperTradingState.BuildPositions: the budget and the reserved notional of the live context are passed through as given; pending orders are built by LiveContext.BuildPending.
- BacktestRunner.ReplayRun.ListOpen: the order in which held positions are listed is not kept; open positions come in bar-table order and no property depends on it.
- ReplayProvenance.RunTrue: a delisting limit of at least one session.
- BreadthMeaning.BreadthMeans: bars in date order and each ticker once.
- Momentum.SignalsAgree: the two regime tables are given and agree up to the cut; Breadth.RegimesTruncated and MomentumRegimes.RegimesAgreeIff say when computed ones do. A zero price, on which the code would divide by zero, gives no signal.
- Momentum.MomentumNoLookAhead: likewise; the tables computed from the bars are in MomentumRegimes.RegimeReplayNoLookAhead.
- MomentumRegimes.RegimesAgreeIff: bars come in date order for each ticker, and the averaging period is at least one; the histories are those a replay shows, the books it is asked about are any.
- RegimeRuns.RegimeRunsIff: for stops that are not the neutral ones the condition on runs is given from both sides, not exactly, since a ticker also has to be held at a peak or an average that tells them apart.
- ReplayFlows.RunSettles: bounds what is paid of a withdrawal; ReplayTape.RunTold gives it exactly.
- Shadow.ReplayWindowDetail: one sleeve; the loop over sleeves and the pairing with live series are not modelled.
- BarRepair.ScaleIdempotent: factors are positive.
- ShadowClaims.CurveOpensOnSeed: a run no flow entered; with flows the curve is anchored at its last day instead, which ShadowClaims.AdjustedReturns describes.
- ShadowClaims.NormalisingKeepsReturns: likewise, and for a positive seed, since a negative scale loses the window return.
- ReplayOverdraft.NeverOverdrawnIff: commissions that are not negative and slippage from nothing to the whole price.
- Drawdown.AlertsOnFalls: curves of two points or more that are never negative; Drawdown.AlertsOnRunningFalls covers every curve.
- Drawdown.UnpaddedMeasures: curves whose first two points are above zero, where the unpadded metric is defined and is a drawdown.
- Drawdown.ResearchAgrees: the missing values the research metric drops do not arise from a padded curve.
- SellControl.OrderOutbox.PublishUnpublished: one pass from a consistent store; a crash between steps and the pass after it are not modelled, nor are message fields other than identity, symbol, side and quantity.
- SellControl.AcceptSells: the buy side of the daily pass, and the refusals that do not depend on availability, other than degraded data.
- Statement parsing, refresh scheduling, planning order and locks of the fetch scripts.
- Training, scoring, sentiment and evaluation code.
