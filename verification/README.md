# A verified model of the paper-trading core

The system watches markets, turns signals into theses and theses into decisions, and executes approved
decisions against a paper book. This project models the part of it that touches money, and the components
around it whose behaviour over time is easy to get wrong, and proves what they promise.

## The trading core

`PaperExecutor`, `Portfolio`, `RiskEngine` and `ModeController` together are one state machine
(`Execution.dfy`). Its state is the mode, the book, the queue of parked decisions in insertion order, the order
keys used, the instruments waiting for a close, and the persisted event stream. Its steps are a market tick, a
proposal, a re-delivered approval, an operator's execute, reject, close, mode change or halt, and a thesis
invalidation. Publishing an event and everything its subscribers do is one atomic step, in subscription order:
portfolio, risk engine, executor. A history (`History.dfy`) is any sequence of steps, restarts and passes of the
tick pruner over one store. A restart is a crash or an orderly stop, followed by rehydration and the reconciliation
of positions with their theses; a pass of the pruner deletes the ticks before any cutoff whatever.

The same behaviour is written out as objects updated in place (`PaperBook.dfy`, `Desk.dfy`, `Gateway.dfy`):
every method is proved to take the object's state to the one the state machine says, and the theorems are
about the state machine.

Files, from the ground up:

- `Numbers`, `Rounding`, `Pricing`, `Totals`, `Sizing`: half-even rounding, significant figures, sums, sizes.
- `Events`, `Ledger`, `Risk`, `Execution`: the values, the book, the pre-trade gates, the transitions.
- `Conservation`, `Orders`, `Following`, `Safety`, `Account`, `Lifecycle`, `Openings`, `Daily`: one invariant each,
  kept by every step.
- `Fills`, `Decisions`: what one fill does to the book to the last digit, and which outcome each call has, exactly when.
- `Store`, `Recovery`, `Startup`, `Liveness`, `Clock`, `Pruning`, `Prices`: the event store's queries, startup over
  them, and what the pruner takes away.
- `History`, `Theorems`, `Solvency`, `Witnesses`: all invariants over whole histories, the results a reader wants, and
  concrete histories that meet the assumptions or show a condition failing.
- `PaperBook`, `Desk`, `Gateway`: the objects.
- `Resolver`, `Scoring`, `Resumption`, `Calibration`, `EquityCurve`, `Projection`, `Throttle`, `Broadcast`, `Windows`, `Alerts`,
  `Theses`, `Score`, `Evidence`: the independent components, each with its specification, its object or loop, and its laws.

## What is assumed of the surroundings

- Event times do not decrease, and a tick names its instrument and carries a positive price. Where this is not
  needed it is not assumed: `AtMostOnce`, `RunKeepsTrade`, `DeferredAreUnpriced`, `DeferredStays` and `RestartIff` allow
  any tick.
- Approvals come from the risk engine, and a decision id is proposed once. `AtMostOnce`, `RunKeepsTrade` and the results
  on deferred closes also allow re-delivered approvals.
- The validator is injected into the executor, as the gateway does.
- Money and prices are exact reals; every explicit rounding step of the code (half-even cents, eight-decimal
  quantities, significant figures) is kept. Times are integers in the unit of the time to live.
- The trading day and the UTC day of a moment are functions given from outside; where a result needs them to be
  monotone it says so.
- What a proposal contains is arbitrary; it stands for whatever the language model produced.

`DefaultsQualify` and `TradingHappens` show that the shipped settings meet the assumptions on settings and that a
legal history under them does open positions, on either side.

## Exact conditions

Some promises hold only under a condition; it is proved to be the right one.

- Rounding to significant figures is the nearest multiple of the unit, half to even, and nothing else (`QuantizePriceIff`).
- No price collapses to zero when at least one significant figure is kept, and only then (`NeverCollapses`).
- Stops lie strictly beyond their price when `stop_loss_pct` is above 0.00000005, and only then (`StopSafeIff`).
- No opening overdraws the cash when the buffer on the smallest trade is worth at least half a cent, fee included,
  and only then (`AffordableIff`).
- Cash never goes negative when before every move it can pay for what the shorts that the move will close cost beyond
  their margin, and only then (`CashNeverNegativeIff`, `MoveCashIff`). What a move will close, and at what price, is told
  from the state before it (`Leaves`, `PriceOf`, `MoveForeseen`). For one short the condition is
  `0 <= cash + quantity * (2 * entry - buy-back cost)` (`ShortCloseCashIff`); the close returns cash when the buy-back
  costs at most twice the entry, and only then (`ShortCloseCreditIff`). `ShortOverdraws` is a legal history under the
  shipped settings that ends below -39000.
- A restart rebuilds the book of the stream, prices included, when the last tick of every priced instrument has a
  price and the empty name is not priced last, and only then (`RestartIff`; `UnpricedTickLosesPrice` is an example of the
  other case).
- A price survives pruning and restart when the instrument's last tick is not before the cutoff, and only then; money
  always survives (`PriceSurvivesIff`). While nothing is pruned every held position has a price (`UnprunedIsPriced`).
- Startup leaves a position alone when its thesis was created, never invalidated and has not run out, and only then
  (`StartupFollowsStream`).
- A priced tick leaves a position held when no close waits for it and the price is on the safe side of its stop, and
  only then (`TickDecides`).
- An event other than a proposal may reach the resolver before or after a proposal alike when it is inert for that
  proposal, and only then (`ProposalCommutesIff`; `LateProposalDiffers` is a stream of the other kind).
- A re-delivered approval fills again in PAPER when this process has not used its key (and size and price allow it),
  and only then (`RedeliveryFillsIff`). Keys do not outlive the process, so the results across restarts assume that
  nothing is re-delivered.
- A token bucket ever grants a permit when its rate is at least one, and only then (`GrantsIff`); a caller who found it
  empty is granted from the end of its computed sleep on, and not before (`WaitIsExact`).
- The risk engine clears a proposal when every gate holds, and only then; each refusal names the first gate that fails
  (`ClearedIff`, `GatesInOrder`). An operator's execute fills when the decision is younger than its time to live and is
  cleared again, and only then (`ExecuteDecides`). A tick records a breach when it reaches the stop of a held position, and
  only then (`BreachIsRecorded`).
- A tracked decision is resolved by a tick when its deadline has passed or the price has reached its stop, and only then
  (`TickFateMeans`, `TickResolves`).
- A client's message is dropped when the queue is full, and only then (`EnqueueDropsIff`).
- A tick brings an alert, and a signal a request for a thesis, when the window calls for it and every earlier one of the
  key is a cooldown old, and only then (`AlertIff`, `RequestIff`).

## Where comments and code differ

The model follows the code.

- `portfolio/ledger.py` speaks of the UTC trading day in several comments; `trading_day` is the New York calendar day.
- `risk/settings.py` says that the daily loss limit halts automatically; the risk engine only refuses new positions.
- `core/pricing.py` says that a nonzero price never rounds to zero; this needs at least one significant figure.
- `portfolio/ledger.py` expects the affordability gate to rule out negative cash. No open leaves cash negative
  (`OpensNeverOverdraw`), but a short bought back far above its entry can (`ShortOverdraws`), and that is logged nowhere.
- `gateway/app.py` seeds marks "correct on restart"; a held instrument whose last tick the pruner has deleted comes back
  without a price, and so without a working stop until its next tick (`PriceSurvivesIff`, `DeferredThenFlattened`).
- A decision proposed in ASSISTED and unresolved at a restart is scored as PAPER afterwards (`ResumeIsLive` is up to the mode;
  `ResumeIsExactIff` says when the mode survives).
- The last stored tick restores the mark after a restart only when that tick has a price.

## Model

| member | source | states |
|---|---|---|
| Theorems.StopSafety | risk/engine.py:167-267 | After every legal history, restarts and pruning included, each held position has a stop, and whatever the process knows of its price is strictly on the safe side of it |
| Theorems.TickDecides | risk/engine.py:232-267 | A priced tick, the first one after a restart included, leaves a position held if and only if no close waits for it and the price is on the safe side of its stop |
| Theorems.UnprunedIsPriced | portfolio/ledger.py:122-143 | While nothing is pruned every held position has a price and a restart rebuilds the live book, prices included |
| Theorems.ValueConserved | portfolio/ledger.py:249-343 | Total value is initial cash plus realized and unrealized P&L, less the entry fees of open positions, plus the summed quantity rounding; each open's rounding is at most half of 1e-8 units at its price |
| Solvency.CashNeverNegativeIff | portfolio/ledger.py:264-323 | Cash never goes below zero in a legal history if and only if before each move it covers the credits, negative ones included, of the positions the move will close, told from the state before it |
| Solvency.MoveCashIff | portfolio/ledger.py:264-323 | The same for one step, restart or pass of the pruner from a solvent book; opens always fit |
| Solvency.MoveForeseen | portfolio/executor.py:236-354 | The state before a move tells exactly which positions it closes and at what price: by tick, by the operator, by invalidation, at a restart |
| Solvency.CashNeverNegative | portfolio/ledger.py:264-323 | In particular it never does while shorts that close do so within twice their entry, costs included |
| Theorems.AtMostOnce | portfolio/executor.py:446-497 | From a flat start, over any interleaving with re-delivered approvals and repeated closes, a decision has at most one opening and one closing fill, a held position's close key is unused, and a close does nothing only for want of a position or a price |
| Theorems.RunKeepsTrade | portfolio/executor.py:446-497 | The same order invariant over any interleaving in a process booted with carried positions, as long as their decisions are not approved again |
| Theorems.EveryLifeQualifies | gateway/app.py:200-252 | After every legal history the state meets the assumptions of the run results, with the decisions opened so far as the carried ones |
| Theorems.AtMostOnceForever | portfolio/executor.py:90-93 | At most one opening and one closing fill per decision also across restarts, although a new process starts with no keys |
| Theorems.RedeliveryFillsIff | portfolio/executor.py:446-497 | In PAPER a re-delivered approval fills if and only if its size is positive, the instrument has a usable price and this process has not used the key |
| Theorems.DeferredAreUnpriced | portfolio/executor.py:95-101 | In a process booted with whatever positions, priced or not, and in any interleaving, every instrument waiting for a close is held and has no usable price |
| Theorems.FirstPriceFlattens | portfolio/executor.py:342-354 | In such a process the first usable price closes a waiting instrument and takes it off the list |
| Witnesses.DeferredThenFlattened | gateway/app.py:80-122 | A legal history under the shipped settings after which a close is deferred at startup, and any first price flattens the position |
| Theorems.DeferredStays | portfolio/executor.py:417-430 | No step loses a deferred close: the instrument is still deferred afterwards, or its position is gone |
| Theorems.NoOrphans | gateway/app.py:80-122 | After startup every held position has a live thesis or waits for a price; positions with a live thesis are untouched, and of the others exactly those without a tick left in the store are still held |
| Theorems.StartupFollowsStream | gateway/app.py:90-118 | With liveness read off the stored events, startup leaves alone exactly the positions whose thesis was created, never invalidated and has not run out |
| Theorems.InvalidatedIsSettled | gateway/app.py:83-89 | A position whose thesis was ever invalidated is closed by any later restart or waits for a price |
| Liveness.LiveIffAlive | gateway/app.py:90-116 | A decision counts as live if and only if the last that was heard of it names a thesis whose last creation has not run out and that was never invalidated |
| Liveness.EndedStaysDead | gateway/app.py:92-94 | Whatever is stored after an invalidation, a decision governed by that thesis is dead at any time |
| Liveness.LivesItsHours | gateway/app.py:97-114 | A thesis is live until exactly the hours it names have passed, eight where it names none |
| Liveness.CollectTheses | gateway/app.py:90-101 | The loops fill the specified maps |
| Theorems.EveryParkedLeavesOnce | portfolio/executor.py:153-234 | Approvals of an id equal waiting plus executed plus operator-rejected plus expired, at most one in all, and every fill of an approval came strictly within the time to live |
| Theorems.TickSweeps | portfolio/executor.py:352-365 | After a tick exactly the entries younger than the time to live still wait |
| Theorems.RestartRebuildsBook | gateway/app.py:202-210 | At any time the book a restart would rebuild has the live cash, positions, realized trades and daily accumulator, the live price of exactly the instruments with a tick in the store, and the marks of those that ticked since they were opened |
| Theorems.PriceSurvivesIff | ingestion/pruner.py:71-73 | After a pass of the pruner a restart still rebuilds all the money, and a price if and only if the last tick of the instrument is not before the cutoff |
| Theorems.OpensPassTheGates | risk/engine.py:114-163 | Every open happened outside OBSERVE, with room for a position, the instrument free, the day's summed realized loss below its limit, and a size within both limits up to half a cent |
| Theorems.KillSwitchForever | core/mode.py:87-107 | What was queued at a halt or a demotion has no further opening order or fill in any later history, restarts included, unless approved anew |
| Theorems.NeverOpenedAgain | portfolio/executor.py:367-374 | A decision that is not waiting gets no further opening order or fill in any legal history that does not approve it |
| Witnesses.DefaultsQualify | risk/settings.py:18-31 | The shipped settings meet every assumption the results make about settings |
| Witnesses.TradingHappens | portfolio/settings.py:17-24 | The assumptions can be met: under the shipped settings a legal history opens a position on either side |
| Witnesses.ShortOverdraws | portfolio/ledger.py:321-323 | A legal history under the shipped settings ends with cash below -39000: a short opened at 100 is stopped out at 10000 |
| History.HistoryIsGood | gateway/app.py:200-252 | All invariants of book, orders, queue, stops and stream hold after any number of lives over one store that is pruned at any time |
| History.AdvanceKeepsGood | gateway/app.py:202-252 | One step, one restart, graceful or not, or one pass of the pruner keeps them |
| Pruning.PruneFollows | ingestion/pruner.py:71-73 | Without old ticks the stream still accounts for all the money, and the prices and marks it still has are the live ones |
| Pruning.PriceSurvives | ingestion/pruner.py:71-73 | The pruned stream still has a priced tick of an instrument if and only if its last tick is not before the cutoff, and it is the same one |
| Pruning.PruneLives | ingestion/pruner.py:71-73 | Pruning leaves the queue, the balance of every id and the age bound as they were |
| Prices.NextKeepsPriced | portfolio/ledger.py:349-386 | Each step keeps every held instrument priced and every price in the stream |
| Execution.OrderKeyInjective | core/schemas/decision.py:165-174 | Two orders share a key only if decision and intent agree |
| Orders.NextKeepsTrade | portfolio/executor.py:236-292 | Each step keeps at most one open and one close fill per decision, distinct decisions per position, and free close keys |
| Orders.CloseSucceeds | portfolio/executor.py:242-270 | A close goes through if and only if the position is held and has a usable price |
| Orders.NextKeepsDeferred | portfolio/executor.py:406-430 | Each step keeps every deferred instrument held and unpriced |
| Lifecycle.NextLives | portfolio/executor.py:153-234 | Each step keeps the queue equal to the unsettled approvals of the stream, the balance of every id, and the age bound on fills |
| Lifecycle.UnsettledOne | gateway/app.py:220-242 | One more event appends a fresh approval to the unsettled list, or removes exactly the id it settles |
| Lifecycle.SettlesSplit | portfolio/executor.py:387-399 | Leaving the queue by a fill, a rejection or an expiry are disjoint ways |
| Openings.StepOpens | portfolio/executor.py:387-399 | A step opens nothing but the one decision it approves in PAPER or executes from the queue, and nothing at all in OBSERVE |
| Openings.OpenPassesGates | risk/engine.py:114-163 | Whatever opens in a step had passed every gate in that very state |
| Openings.KillSwitch | portfolio/executor.py:330-340 | After a halt or a demotion the queue is empty and nothing from it is opened by any run that does not approve it anew |
| Openings.ModeMoves | core/mode.py:65-107 | Only a permitted operator transition or a halt changes the mode, and to what |
| Openings.LadderRules | core/mode.py:43-51 | Every other mode may go to OBSERVE and to ASSISTED, every move starts or ends there, and no mode beyond ASSISTED is entered |
| Openings.WiredModes | core/mode.py:41-49 | From OBSERVE, PAPER or ASSISTED no run reaches another mode |
| Conservation.ReplayCashIdentity | portfolio/ledger.py:249-343 | Cash equals initial cash plus realized P&L less what open positions tie up plus the rounding, over any stream of fills that never opens over a held instrument, malformed fills and unknown closes included |
| Conservation.TotalValueConserved | portfolio/models.py:20-40 | The cash identity turns into the conservation of total value |
| Conservation.ClosingAtMark | portfolio/models.py:24-40 | Closing at the mark realizes the unrealized P&L less both fees and returns the equity contribution less the closing fee |
| Conservation.CloseKeepsValue | portfolio/ledger.py:149-157 | A close at the mark lowers total value by the fee and nothing else |
| Account.NextConserves | portfolio/executor.py:499-509 | Each step whose opens come from the risk engine keeps the conservation law and the bound on every opening fill's rounding |
| Account.OpensNeverOverdraw | portfolio/ledger.py:264-272 | No open leaves cash negative, whatever it was before |
| Account.NextKeepsCash | portfolio/ledger.py:264-323 | Each step keeps cash nonnegative while the shorts it closes are covered |
| Account.ShortCloseCashIff | portfolio/ledger.py:321-323 | Cash after buying back a short is not negative if and only if cash and quantity times (twice the entry less the buy-back cost) are not, together |
| Account.ShortCloseCreditIff | portfolio/ledger.py:321-323 | Closing a short returns cash if and only if its buy-back cost is within twice the entry |
| Account.NoFreeRoundTrip | portfolio/executor.py:499-509 | Opening and closing at one market price always realizes a loss, on either side |
| Sizing.SizeWithinLimits | risk/sizing.py:24-34 | The approved size is within the position cap and the loss budget, up to half a cent |
| Sizing.SizeUsesLimits | risk/sizing.py:24-34 | The target is within half a cent of the tighter limit and the approved size within half a cent of target or spendable cash |
| Sizing.TargetInCents | risk/sizing.py:24-34 | The target is the lesser of both limits to the nearest cent, half to even, and zero without value or stop distance |
| Sizing.AffordableIff | risk/engine.py:151-165 | No approved size and fee can exceed the cash if and only if the buffer on the smallest trade covers the half-cent rounding |
| Daily.DailyPnlIsDaySum | portfolio/ledger.py:195-220 | On nondecreasing trading days the accumulator reads as the sum of realized P&L over that day's closes |
| Daily.BreakerHolds | risk/engine.py:131-137 | Every open happened while that sum was above the loss limit |
| Pricing.QuantizePriceMonotone | core/pricing.py:23-35 | A larger price never rounds below a smaller one, across decades and through zero |
| Pricing.QuantizePriceOdd | core/pricing.py:26-27 | The sign carries through |
| Pricing.QuantizePriceIdempotent | core/pricing.py:30-35 | Rounding twice is rounding once, also when the first rounding reached the next decade |
| Pricing.QuantizePriceNear | core/pricing.py:32-35 | The relative error is at most half of 10^(1 - sig_figs) |
| Pricing.NeverCollapses | core/pricing.py:26-28 | No nonzero price rounds to zero if and only if at least one figure is kept |
| Pricing.QuantizePriceIff | core/pricing.py:30-35 | A price in the decade of 10^e becomes the nearest multiple of 10^(e + 1 - sig_figs), half to even, and nothing else |
| Rounding.QuantizeIff | core/pricing.py:35 | `quantize` returns the nearest multiple of the quantum, of two the even one, and nothing else |
| Risk.StopSafeIff | risk/engine.py:177-181 | Every stop lies strictly beyond its price, for all positive prices and both sides, if and only if stop_loss_pct exceeds half a unit in the eighth figure |
| Risk.ClearedMeans | risk/engine.py:114-197 | A clearance implies every gate, a usable price and the size limits |
| Risk.ClearedIff | risk/engine.py:114-176 | A proposal is cleared if and only if the mode is not OBSERVE, there is room for a position, the instrument is free and priced, equity is positive with the day's loss below its limit, and the target is positive with an affordable part no smaller than the minimum trade |
| Risk.GatesInOrder | risk/engine.py:114-176 | Each of the seven refusals is given exactly when its gate is the first that fails |
| Risk.ClearanceCarries | risk/engine.py:139-181 | A clearance carries a stop `stop_loss_pct` away from the price on the losing side, rounded to eight figures, and as its size, in whole cents, what the cash less its buffer allows of what the tighter of loss budget and position cap allows of the account value |
| Fills.OpenTakes | portfolio/executor.py:471-548 | An open takes size plus fee from cash and adds one position: entered at the price slipped against the buyer and rounded to eight figures, for the size's worth in whole 1e-8 units, with the ticket's side, stop and id; all other positions, prices and realized results stay |
| Fills.CloseReturns | portfolio/executor.py:250-255 | On either side a close returns the equity contribution at the market price, less slippage on the quantity, less the fee on the slipped notional |
| Fills.ClosePays | portfolio/ledger.py:298-343 | That credit goes into cash, the credit less size and entry fee is realized, and the position, and no other, is gone |
| Fills.OrdersPrecedeFills | portfolio/executor.py:446-497 | Every fill is recorded right after its order, under a key not used before and used up now |
| Decisions.ProposalDecides | portfolio/executor.py:387-399 | After any legal history a fresh proposal is recorded as refused, parked last in the queue, or filled at once and exactly once, by verdict and mode |
| Decisions.ExecuteDecides | portfolio/executor.py:153-196 | An execute takes the decision off the queue in any case; it fills, at the size and stop of a fresh verdict, if and only if it is younger than its time to live and cleared again, and expires otherwise |
| Decisions.OperatorAnswers | portfolio/executor.py:153-234 | Execute is refused exactly in OBSERVE and PAPER and finds nothing exactly for an id not waiting, changing nothing; reject takes exactly the decision off the queue and records it |
| Decisions.BreachIsRecorded | risk/engine.py:232-267 | A priced tick records a breach if and only if the instrument is held and the price reaches or passes its stop |
| Decisions.InvalidationSettles | portfolio/executor.py:406-430 | An invalidation closes a held instrument if and only if it has a price, and else defers the close |
| Decisions.ModeKeepsQueue | portfolio/executor.py:330-335 | A mode change is recorded, keeps the queue exactly when the new mode may execute from it, and leaves the book alone |
| Decisions.HaltSettles | core/mode.py:87-107 | A halt is recorded first, then one expiry for each waiting decision, then the mode change if it was one; no position is touched |
| Decisions.RestartObserves | gateway/app.py:201-252 | A new process is in OBSERVE, whatever the old one was in |
| Safety.NextKeepsStops | risk/engine.py:232-267 | Each step keeps every held and priced position on the safe side: a breaching tick closes it, any other, the first one included, leaves it safe |
| Recovery.RestartIff | portfolio/ledger.py:86-143 | On a time-ordered stream, replayed fills and seeded prices give the live book if and only if no priced instrument's last tick lacks a price and the empty name is not priced last |
| Recovery.RestartEqualsLive | portfolio/ledger.py:122-143 | The rebuilt book has the live money, the live prices of exactly the instruments with a tick in the store, and the marks of those that ticked since they were opened |
| Recovery.UnpricedTickLosesPrice | portfolio/ledger.py:134-139 | A concrete stream on which the live price is known and the rebuilt one is not |
| Following.NextFollows | portfolio/ledger.py:349-386 | Each step keeps the live money equal to the replay of the persisted stream, and the prices and fresh marks of the stream equal to the live ones |
| Startup.QueueSurvives | portfolio/executor.py:294-320 | The queue and the expiries a new process produces are those of one sweep of the live queue, in order |
| Startup.ReparkSplits | portfolio/executor.py:307-319 | Every unsettled approval is re-parked or, past its time to live, expired |
| Startup.OnlyLiveTheses | portfolio/executor.py:432-442 | Reconciliation closes or defers exactly the positions without a live thesis |
| Store.SortIsStable | core/bus/store.py:115 | The sort orders by time, keeps the same events, and keeps arrival order within each time |
| Store.RangeHolds | core/bus/store.py:102-115 | A range query returns exactly the matching events within its bounds, each as often as it is stored, in time order |
| Store.RangeOfSorted | core/bus/store.py:102-115 | On a time-ordered stream the query is the plain filter |
| Store.LatestIsLatest | core/bus/store.py:117-130 | The event kept for a key has that key and none of that key is later |
| Store.LatestOfOne | core/bus/store.py:121-129 | One step of the scan equals last-write-wins over the stable sort of one event more |
| Store.KeptExactly | core/bus/store.py:132-138 | Pruning removes exactly the events of the given types before the cutoff |
| Store.LatestAfterPrune | core/bus/store.py:117-138 | Pruning drops a key's latest event if and only if that event is before the cutoff, and changes no other |
| Store.PruneInvisible | core/bus/store.py:132-138 | Pruning changes no query over other types or over the kept period |
| Store.EventStore.Append | core/bus/store.py:85-86 | The event becomes the last one |
| Store.EventStore.Recent | core/bus/store.py:88-100 | The matching events in arrival order |
| Store.EventStore.InRange | core/bus/store.py:102-115 | The range query |
| Store.EventStore.LatestPerKey | core/bus/store.py:117-130 | The scan computes the last write per key of the stably sorted matching events |
| Store.EventStore.Prune | core/bus/store.py:132-138 | The kept events in order, and how many were deleted |
| PaperBook.Portfolio.TotalValue | portfolio/ledger.py:149-157 | Cash plus every position's equity contribution, whatever the order of the walk |
| PaperBook.Portfolio.DailyRealizedPnl | portfolio/ledger.py:199-209 | The day-aware reading of the accumulator |
| PaperBook.Portfolio.OpenPosition | portfolio/ledger.py:249-284 | The new book: cash less cost and fee, the position, the rollover |
| PaperBook.Portfolio.ClosePosition | portfolio/ledger.py:298-343 | The new book and the realized P&L; nothing for an instrument not held |
| PaperBook.Portfolio.HandleTick | portfolio/ledger.py:349-358 | Price recorded and position marked, or nothing |
| PaperBook.Portfolio.HandleFill | portfolio/ledger.py:360-386 | Open, close or ignore; a payload that does not parse leaves the book untouched |
| PaperBook.Portfolio.Rehydrate | portfolio/ledger.py:86-120 | The fold of all fills, unreadable ones skipped |
| PaperBook.Portfolio.SeedPrices | portfolio/ledger.py:122-143 | Prices and marks of the last stored ticks, whatever the order of the walk |
| Desk.RiskEngine.Evaluate | risk/engine.py:103-197 | The verdict of the specified gates, size and stop, with nothing written |
| Desk.RiskEngine.Breached | risk/engine.py:232-249 | True exactly when the tick reaches or passes the stop of the held position |
| Desk.ModeController.Set | core/mode.py:65-85 | Unchanged, refused, or the new mode |
| Desk.ModeController.Halt | core/mode.py:87-107 | OBSERVE, and whether that was a change |
| Desk.PaperExecutor.Submit | portfolio/executor.py:446-469 | A key is accepted and published once |
| Desk.PaperExecutor.Fill | portfolio/executor.py:471-548 | The whole new state of an opening attempt |
| Desk.PaperExecutor.ClosePosition | portfolio/executor.py:236-292 | The whole new state, and true exactly when the position could be closed |
| Desk.PaperExecutor.CloseOrDefer | portfolio/executor.py:417-430 | Closed and off the list, or deferred |
| Desk.PaperExecutor.ReconcileOrphans | portfolio/executor.py:432-442 | The list worked off in order |
| Desk.PaperExecutor.SweepExpired | portfolio/executor.py:360-365 | Exactly the stale entries leave, one expiry each, in queue order |
| Desk.PaperExecutor.ExpirePending | portfolio/executor.py:367-374 | The queue is emptied, one expiry each |
| Desk.PaperExecutor.HandleApproved | portfolio/executor.py:387-399 | Ignored, filled or parked, by mode |
| Desk.PaperExecutor.Execute | portfolio/executor.py:153-196 | New state and answer of an operator's execute: halted, unknown, stale or done |
| Desk.PaperExecutor.Reject | portfolio/executor.py:198-234 | New state and answer of an operator's reject |
| Desk.PaperExecutor.RehydratePending | portfolio/executor.py:294-320 | The re-parked queue and the published expiries |
| Desk.PaperExecutor.HandleTick | portfolio/executor.py:342-354 | The deferred close retried, then the sweep |
| Desk.PaperExecutor.HandleThesisInvalidated | portfolio/executor.py:406-415 | A held instrument is closed or deferred |
| Gateway.TradingDesk.OnTick | gateway/app.py:211-243 | One tick through portfolio, risk engine and executor is one step of the state machine |
| Gateway.TradingDesk.OnProposal | risk/engine.py:78-101 | One proposal is one step |
| Gateway.TradingDesk.OnApproval | portfolio/executor.py:387-399 | One delivery of an approval is one step |
| Gateway.TradingDesk.OnInvalidation | portfolio/executor.py:406-415 | One invalidation is one step |
| Gateway.TradingDesk.SetMode | core/mode.py:65-85 | One operator transition is one step |
| Gateway.TradingDesk.Halt | core/mode.py:87-107 | One halt is one step |
| Gateway.TradingDesk.PruneTicks | ingestion/pruner.py:71-73 | One pass of the pruner takes old ticks from the store and leaves the process as it is |
| Gateway.TradingDesk.Stop | portfolio/executor.py:133-136 | An orderly stop empties the queue, one expiry each |
| Gateway.TradingDesk.Startup | gateway/app.py:200-252 | Startup over a store is the specified boot followed by reconciliation |
| Gateway.TradingDesk.FindOrphans | gateway/app.py:102-118 | Exactly the held instruments whose thesis is dead, whatever the order of the walk |
| Gateway.TerminalParts | gateway/app.py:225-240 | The three startup queries together give the settled ids |
| Resolver.CatchUpIsLive | calibration/resolver.py:99-119 | Seeding every proposal and replaying the rest leaves the same tracked decisions and publishes the same outcomes in the same order as live handling |
| Resolver.ProposalCommutesIff | calibration/resolver.py:128-192 | A tick, invalidation or approval has the same effect before and after a proposal if and only if it is inert for it: an earlier tick or one of another instrument, another thesis, another decision |
| Resolver.LateProposalDiffers | calibration/resolver.py:155-164 | A proposal that arrives after a tick at its own time is entered when seeded and not when handled live |
| Resumption.ResumeIsLive | gateway/app.py:273-295 | A new resolver seeded with only the proposals that have no outcome, and caught up on the rest, tracks exactly what the old one tracked, up to the mode, and publishes nothing |
| Resumption.ResumeIsExactIff | gateway/app.py:276-290 | It tracks the very same entries, modes included, if and only if each was proposed in OBSERVE or PAPER |
| Resumption.RestartInvisible | gateway/app.py:273-295 | Whatever comes after the restart, approvals included, old and new process together publish what one process would have published, in the same order, up to the mode |
| Resumption.HandleLess | calibration/resolver.py:140-224 | Not having heard of some decisions changes nothing for the others |
| Resolver.ScoredAtMostOnce | calibration/resolver.py:128-250 | Over any stream, approvals and stop breaches included, a decision proposed once is published at most once and is not tracked any more when it is |
| Resolver.HitMeansProfit | calibration/resolver.py:243-250 | A hit is a move in the predicted direction |
| Resolver.DeadlinesClear | calibration/resolver.py:155-171 | After a priced tick nothing of the instrument is past its deadline and everything proposed by then has an entry price |
| Scoring.TickResolves | calibration/resolver.py:154-177 | A priced tick decides about each decision on its instrument: without an entry it is dropped at its deadline, entered from its proposal on, and left alone before; with one it is tracked on if and only if the deadline has not come and the price is strictly on the safe side of its stop, and is otherwise gone, with its outcome published; decisions on other instruments stay |
| Scoring.TickFateMeans | calibration/resolver.py:154-171 | The same for one decision: a due deadline comes before a stop, and the stop works from the side it protects |
| Scoring.ResolveMeans | calibration/resolver.py:234-250 | An outcome is published exactly when there is an entry price other than zero; its return is the percentage the price moved in the predicted direction, and it is a hit exactly when that is positive |
| Scoring.InvalidationResolves | calibration/resolver.py:179-192 | An invalidation settles every decision of the thesis at its last price, silently where there is none, and no other decision |
| Scoring.ApprovalAttaches | calibration/resolver.py:128-138 | An approval gives its stop to the decision it names and changes nothing else |
| Scoring.TrackedUntil | calibration/resolver.py:198-232 | A proposal is tracked if and only if it names a decision, an instrument and a side, until the horizon it names has passed; an unknown horizon is intraday |
| Resolver.OutcomeResolver.HandleTick | calibration/resolver.py:140-177 | Collect-then-resolve equals deciding every entry on its own, in order |
| Resolver.OutcomeResolver.HandleInvalidated | calibration/resolver.py:179-192 | Every decision of the thesis is resolved or dropped |
| Resolver.OutcomeResolver.HandleApproved | calibration/resolver.py:128-138 | The stop is attached to the tracked decision |
| Resolver.OutcomeResolver.HandleProposed | calibration/resolver.py:198-224 | The proposal is tracked, or ignored when malformed |
| Resolver.OutcomeResolver.Seed | calibration/resolver.py:99-107 | The proposals handled in order |
| Resolver.OutcomeResolver.Replay | calibration/resolver.py:109-119 | The ticks and invalidations handled in order, other events passed over |
| Calibration.BucketsPartition | calibration/engine.py:52-59 | Every sample lies in exactly one bucket, as often as it was given |
| Calibration.SizesAddUp | calibration/engine.py:42-45 | The bucket sizes add up to the number of samples |
| Calibration.EceInUnit | calibration/engine.py:36-49 | The error lies in [0, 1] |
| Calibration.EceIgnoresOrder | calibration/engine.py:36-49 | The error depends only on the multiset of samples |
| Calibration.RefinementReveals | calibration/engine.py:36-59 | The error with n buckets is at most the error with k·n |
| Calibration.OneBucketIsMeanGap | calibration/engine.py:46-48 | With one bucket it is the distance of mean confidence and hit rate, and every bucketing reports at least that |
| Calibration.BucketBounds | calibration/engine.py:57-58 | A sample lies in bucket i of n if and only if its confidence is in [i/n, (i+1)/n), the last bucket also holding 1 |
| Calibration.EceOfOneBucket | calibration/engine.py:43-48 | Samples of one bucket contribute the distance of their mean confidence and hit rate |
| Calibration.EceAdds | calibration/engine.py:42-48 | Samples that share no bucket contribute by their numbers |
| Calibration.Bucketed | calibration/engine.py:52-59 | The appended lists are the buckets |
| Calibration.ComputeEce | calibration/engine.py:36-49 | The loop computes the share-weighted error, and nothing without samples |
| EquityCurve.BuildEquityCurve | analytics/equity_curve.py:47-87 | The two cursors return the plain recomputation of every day, and raise exactly when a fill up to today does not parse |
| EquityCurve.PlainPointsDaily | analytics/equity_curve.py:41-46 | One point per day in order, each the equity of all fills and last ticks up to that day |
| Projection.CurveEndsAtRestart | analytics/equity_curve.py:61-87 | On the store's own stream the point of the day that everything so far belongs to is the total value of the book a restart would rebuild |
| Projection.CurveStartsFlat | analytics/equity_curve.py:52-62 | Before the day of the first fill the equity is the initial cash |
| Projection.CurveCovers | analytics/equity_curve.py:54-87 | There is one point for every day from that of the first fill to today, both included, in order |
| Throttle.RateBound | reasoning/llm/throttle.py:41-53 | In any run and any stretch of length T at most rate + T·rate/per permits are granted |
| Throttle.AllowanceInRange | reasoning/llm/throttle.py:45-51 | The allowance stays in [0, rate] |
| Throttle.SecondCheckGrants | reasoning/llm/throttle.py:50-53 | Having slept the computed time a caller is granted on its second check |
| Throttle.GrantsIff | reasoning/llm/throttle.py:45-52 | A bucket ever grants if and only if its rate is at least one |
| Throttle.WaitIsExact | reasoning/llm/throttle.py:45-53 | A bucket that holds one permit grants if and only if the computed sleep is over |
| Throttle.BurstIsGranted | reasoning/llm/throttle.py:45-51 | As many checks as the bucket holds permits, however close together, are all granted |
| Throttle.IdleFills | reasoning/llm/throttle.py:45-48 | After an idle period the bucket holds its full rate, whatever it held |
| Throttle.TokenBucket.TryTake | reasoning/llm/throttle.py:44-52 | One pass of the loop |
| Throttle.TokenBucket.Acquire | reasoning/llm/throttle.py:41-53 | The loop ends at the first or the second reading of the clock |
| Broadcast.ChannelKeepsItsPromises | gateway/broadcaster.py:72-103 | Bounded queue, a suffix of what was enqueued; delivery in order; enqueued = delivered + in flight + failed + queued + dropped; unfinished count equals the work left; at most one failure |
| Broadcast.EveryMessageHasAFate | gateway/broadcaster.py:72-103 | Every message that left the queue was delivered, is in flight, failed or was dropped, exactly one of these |
| Broadcast.EnqueueDropsIff | gateway/broadcaster.py:72-85 | An enqueue drops a message, the oldest, if and only if as many as the queue holds are waiting, and always appends the new one |
| Broadcast.NothingDroppedEarly | gateway/broadcaster.py:72-85 | In any run nothing is dropped while no more messages have come than the queue holds, or if it is unbounded |
| Broadcast.DrainDelivers | gateway/broadcaster.py:87-103 | A writer left alone delivers exactly what is waiting, in order, and leaves nothing unfinished |
| Broadcast.ClientChannel.Enqueue | gateway/broadcaster.py:72-85 | One enqueue with its drop of the oldest message |
| Broadcast.ClientChannel.Finish | gateway/broadcaster.py:90-103 | One send, successful or not |
| Windows.PushAndTrim | ingestion/alerts/generator.py:109-113 | Appending and popping from the front leaves exactly the recent entries |
| Windows.WindowFollows | reasoning/thesis/generator.py:118-123 | The window over the history so far, pushed and trimmed, is the window over the longer history |
| Windows.EmitKeepsSpaced | ingestion/alerts/generator.py:142-148 | An emission the cooldown lets through keeps all emissions of its key a cooldown apart |
| Windows.RecentExactly | ingestion/alerts/generator.py:111-113 | The window holds exactly what is not older than the cutoff, as often as it came |
| Windows.CooledIff | reasoning/thesis/generator.py:133-138 | The cooldown lets an emission through if and only if every earlier one of its key is at least that old |
| Alerts.AlertsAreSpaced | ingestion/alerts/generator.py:138-148 | Alerts of one instrument and kind are at least a cooldown apart |
| Alerts.CandidatesMean | ingestion/alerts/generator.py:86-134 | A tick gives rise to a crossing, or to a move of at least the threshold since the oldest price of a window four fifths full, exactly when there is one |
| Alerts.AlertIff | ingestion/alerts/generator.py:72-140 | An alert comes if and only if the tick is accepted, gives rise to it, and every earlier one of its instrument and kind is a cooldown old |
| Alerts.PriceAlertGenerator.HandleTick | ingestion/alerts/generator.py:72-140 | The alerts that come out are those of looking at the whole tick history |
| Theses.RequestsAreSpaced | reasoning/thesis/generator.py:133-138 | Theses of one instrument are requested at least a cooldown apart |
| Theses.RequestIff | reasoning/thesis/generator.py:109-146 | A thesis is requested if and only if the signal is watched, is a seed or makes the window large enough, and every earlier request is a cooldown old; the prompt holds the latest signals of the window |
| Theses.ThesisGenerator.Hear | reasoning/thesis/generator.py:115-127 | A thesis is requested, and with which signals, exactly as the whole signal history calls for |
| Theses.ThesisGenerator.HandleSignal | reasoning/thesis/generator.py:109-127 | A signal reaches its instruments in the order it names them |
| Score.ScoreIgnoresOrder | discovery/score.py:77-91 | The score depends on which votes there are, not on order or repeats |
| Score.DominatedVote | discovery/score.py:90-91 | A vote no stronger than one of its factor and sign changes nothing |
| Score.EvidencePushesItsWay | discovery/score.py:93-100 | Bullish evidence never lowers the score and bearish evidence never raises it |
| Score.BullishEvidenceFades | discovery/score.py:58-61 | Left alone, bullish evidence only loses score |
| Evidence.OnePiece | discovery/score.py:77-107 | One piece of evidence scores weight times decay at its age times value, held to [0, 1] |
| Evidence.TwoPieces | discovery/score.py:77-107 | Two pieces of distinct factors combine as independent chances and earn the bonus, of one factor the stronger counts, and a bearish one is subtracted |
| Evidence.ChancesCombine | discovery/score.py:51-55 | Any number of factors of one sign combine as independent chances |
| Score.ScoreInstrument | discovery/score.py:64-108 | The folds compute the score, a number in [0, 1], and the agreeing factors |
| Score.NoisyOrOf | discovery/score.py:51-55 | One minus the product over all factors, whatever the order |

## Left out

- Feeds, HTTP, WebSockets, the SQLite store, parsing of RSS, XML and JSON, the web client and the API routes: input and output without a law of their own.
- Providers, prompts and the extraction of their answers: a proposal is arbitrary input.
- Floating-point and 28-digit decimal rounding, and the text form of numbers: arithmetic is exact between the explicit rounding steps.
- Interleaving of handlers within one published event: a step is atomic.
- The `limit` of the history queries at startup: the history is taken to fit.
- SEMI_AUTO and SUPERVISED execution: no code path fills in these modes and no transition enters them.
- `_daily_trades`, snapshots and log lines: display only.
- Stops of resolver entries after a restart: approvals are not replayed, so seed and replay is about streams without approvals.
- The resolver's catch-up over a pruned store: it is taken to reach back to the oldest unresolved proposal.
- Store.EventStore.LatestPerKey: keys by the instrument of ticks, the one kind it is asked for; other payloads that name an instrument are not keyed.
- The thesis events themselves: they are read at startup as a stream of their own, beside that of the trading core, and an invalidation step names the instrument alone.
- Decision ids of order fills whose numbers do not parse: such a fill carries nothing in the model, so it does not count as an execution at startup.
- The half-life formula: decay is any share that does not grow with age.
- Confidences outside [0, 1]: the decision schema excludes them before calibration sees them.
- Ratios of the equity curve (Sharpe, Sortino, volatility), gate reports and economic metrics: formatting and closed formulas.
- Broadcaster fan-out to many clients: each client has its own channel, modelled alone.
- Score.ScoreInstrument: the contributions sorted for display are not returned.
- Theses.ThesisGenerator.Hear: stops at the request for a thesis; building the prompt and publishing the answer are not modelled.
- EquityCurve.BuildEquityCurve: asks for inputs in day order, as its documentation does.
