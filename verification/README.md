# JD Holdings: a verified model of the trading core

JD Holdings trades leveraged funds automatically. Orders are rows that carry cumulative fills; a
separate progress row says how much of each fill has reached the position ledger; a BUY is reserved
against cash, risk budget and target quantity before it is sent; an operator can halt BUYs at any
moment; and an automatic layer opens delegated capital in 50/75/100% stages. Strategy research runs
on a simulator whose trade log another module replays, and on an integer-share rebalancer.

This project states that core as Dafny state machines and proves what holds over **every** run of
them: any order of reservations, refreshes, partial fills, repeated applications, crashes,
recoveries, halts, capital changes, market moves and price paths. `dafny verify dfyconfig.toml`
checks everything.

| module | what it models |
|---|---|
| `Numeric`, `Sums`, `Results` | `quantize`, floors and ceilings, exact over `real`; sums over tables; outcomes |
| `Ledger`, `LedgerProofs`, `LedgerRuns` | order, progress and core-position tables; every transaction as a function; safety over runs |
| `Reservations` | when a reservation, refresh and core fill are refused, in table sums, and what each writes |
| `Repository` | the same transactions as a class that rewrites its tables row by row, proved equal to those functions |
| `DryRun`, `PaperRuns`, `PaperAccount` | the paper broker, and its agreement with the ledger in shares, averages, statuses and cash |
| `BuyBarrier`, `BuyGates` | submit, halt, resume, quarantine, release and capital change interleaved around the BUY lock; what shut gates forbid, and what each operation does undisturbed |
| `Capital`, `CapitalProofs`, `CapitalRules`, `CapitalService` | configuration, ramp, unitised NAV, high-water mark, guard; each operation's exact effect; the service class over its key table |
| `Strategy`, `TradeLog`, `Backtest` | stage budgets and decisions; the log; the daily simulation as a class |
| `Decisions`, `History`, `CycleMemory`, `CycleAccounts` | when the strategy buys; every trade of every simulated log through its session; what positions and closed cycles remember, against the log |
| `Overlay` | replaying the log into the overlay's activity series |
| `Allocation`, `Rebalance`, `Portfolio` | monthly rule and weights; the in-place integer rebalance; the portfolio loop |
| `TakeProfitLegs` | cancel, partial fill and reissue of take-profit legs |
| `Reconciliation` | the skew test between order and holdings endpoints |

A transaction is an atomic step that leaves the old state when it raises. A crash is a run that
stops after some transaction. The broker, the market, the indicators and the clock are arbitrary
inputs; what a broker is trusted for is written out as `Ledger.Allowed`, `Ledger.FairRefresh` and
`TakeProfitLegs.Reports` (an incremental BUY fill is not dearer than its limit, SELL proceeds never
fall, an ended order fills no more). Sessions are integers.

## What the proofs showed about the code

* The first exposure cap is rounded to cents and may exceed a capital that is not whole cents; the
  next increase then lowers it (`Strategy.CapFallsOnPartCents`). A cap survives every later score
  exactly when it fits the capital (`Strategy.CapNeverFallsExactly`).
* A take-profit fill is written in two transactions. A crash between them leaves the position too
  high by the fill, and nothing that happens later takes it off
  (`TakeProfitLegs.CrashBetweenTransactionsLosesTheDelta`).
* A take-profit order that ended with a fill nobody applied makes the next reissue of its leg too
  large (`TakeProfitLegs.ReissueFitsExactly`). A crash between refresh and application leaves one
  behind, and so does a cancel pass that raises over the second leg after it stored the first leg's
  end (`TakeProfitLegs.PassLosesAFillExactly`). `TakeProfitLegs.StoppedPassOversells` is such a run: one
  of two shares sold, and two asked for next.
* The JH AUTO document, in its part on system quarantine, says a live configuration change that fails
  stays quarantined. In the code the whole change runs in one outer transaction (`final_ops_hardening.py:42-51`), so the
  quarantine written by the failing call is rolled back with the rest. The model follows the code;
  `CapitalProofs.QuarantinedAfterAChangeExactly` says when BUY is quarantined afterwards, and
  `CapitalProofs.RefusalCanLeaveBuyOpen` is a run in which it is not.
* The core ledger books a price-only correction of a fill and the paper broker would ignore it; for a
  BUY of shares still held their averages then part until that order's next fill
  (`DryRun.PriceCorrectionPartsExactly`, `DryRun.NextFillHeals`). The paper broker itself never emits
  one (`PaperRuns.BrokerNeverCorrects`), so in its own runs they never part.
* A deposit onto an account whose losses exceed its principal is budgeted as if nothing had been owed: the equity
  the flow reckons with is then, and only then, not the one marked afterwards
  (`CapitalRules.FlowEquityIsMarkedExactly`).
* Once SELLs are present the core cost, unlike the quantity, depends on the order in which fills are
  applied: swapping a BUY and a SELL keeps it if and only if the BUY filled at the row's average
  (`LedgerRuns.SwapKeepsCostExactly`).

## Model

| member | source | states |
|---|---|---|
| Repository.SQLiteRepository.ReserveBuyOrder | src/jd_holdings/application/managed_account.py:268-365 | the reservation transaction of `Ledger.ReserveBuy`, step by step: gates, core target, then cash and risk budget in this order; a refusal changes nothing (what it decides is `Reservations.ReserveRefusedExactly`) |
| Repository.SQLiteRepository.RawManagedCash | src/jd_holdings/application/managed_account.py:58-94 | the loop over filled rows is the cash fold of the specification, fees and accounting start included |
| Repository.SQLiteRepository.ReservedOpenBuy | src/jd_holdings/application/managed_account.py:129-145 | unfilled shares of open BUYs at their limit with fee |
| Repository.SQLiteRepository.CommittedCoreBuyQuantity | src/jd_holdings/application/managed_account.py:148-169 | BUY shares ordered or filled and not yet in the core ledger |
| Repository.SQLiteRepository.UpdateOrderRow | src/jd_holdings/application/database.py:1081-1144 | the refresh transaction of `Ledger.UpdateOrder`, column by column; a refusal changes nothing (what it stores is `Reservations.RefreshStores`) |
| Reservations.RefreshRefusedExactly | src/jd_holdings/application/database.py:1104-1136 | a refresh is refused if and only if the id is unknown, an ended order would change status, the fill fell or passed the order, or a fill has no positive price |
| Reservations.RefreshStores | src/jd_holdings/application/database.py:1094-1109 | an accepted refresh stores the reported status, and broker id, fill and average where reported; every other column, row and table is untouched |
| Reservations.EndedOrderFreesAll | src/jd_holdings/application/managed_account.py:129-145 | an order reported ended is open no more and reserves nothing: the reserved total falls by exactly what it held |
| Reservations.CoreFillRefusedExactly | src/jd_holdings/application/database.py:1495-1550 | a core fill is refused if and only if order or symbol is unknown, its fill or notional fell, a cost would turn negative, or more is sold than held |
| Reservations.CoreFillWrites | src/jd_holdings/application/database.py:1551-1576 | an accepted one moves one row and one progress mark to the order's figures, and nothing when nothing is new |
| Reservations.SellKeepsAverage | src/jd_holdings/application/database.py:1538-1550 | a SELL leaves the average of what is kept, and no cost once nothing is |
| Repository.SQLiteRepository.ApplyCoreFillRow | src/jd_holdings/application/database.py:1495-1576 | only the part beyond the progress row reaches the position, price corrections included |
| Repository.SQLiteRepository.RecoverUnappliedCoreFills | src/jd_holdings/bot.py:36-42 | startup recovery is the recovery function, stopping at the first fill that raises |
| LedgerRuns.RunTables | src/jd_holdings/application/database.py:1081-1576 | over every run the tables stay well formed: unique ids, fills within the order, progress within the fill, cost equal to average times quantity while shares are held |
| LedgerRuns.OrdersOnlyMoveForward | src/jd_holdings/application/database.py:1081-1144 | over any sequence of events, whatever the broker reports, late and unfair snapshots included, a stored status never leaves a terminal value and fills only grow, within the ordered quantity |
| LedgerRuns.OpenBuysAreAlwaysCovered | src/jd_holdings/application/managed_account.py:268-365 | in every run, whenever a BUY is open, raw managed cash less open BUY reservations is at least zero |
| LedgerRuns.ReservationAdmitted | src/jd_holdings/application/managed_account.py:310-344 | what an admitted reservation adds to the reserved amount, and that both cash and risk budget had room for it |
| Reservations.ReserveRefusedExactly | src/jd_holdings/application/managed_account.py:268-348 | a BUY is refused if and only if one of the five AUTO conditions fails, a core symbol has no row, held, committed and requested shares pass the target (or, before it is fixed, cost more than the weight of the budget), or its cost passes free cash, the free risk budget or the broker's cash |
| Reservations.TargetQuantityExact | src/jd_holdings/core/twin_core.py:48-57 | as many shares as the weight of the equity pays for with fee, and not one more; none without equity, weight or price |
| Reservations.WeightBoundsCoreBuys | src/jd_holdings/application/managed_account.py:320-335 | on a row whose target is not fixed, held, committed and new shares of an admitted BUY cost at most the weight of the budget |
| Reservations.WeightRefusesExample | src/jd_holdings/application/managed_account.py:320-341 | a weight of 5% of 10000 pays for four shares of 100, and five are refused |
| Reservations.ReservationWrites | src/jd_holdings/application/managed_account.py:349-365 | an accepted reservation adds one CREATED, unfilled row with the request's figures, or none if the id is taken |
| Reservations.RefreshMovesCash | src/jd_holdings/application/managed_account.py:58-94 | a refresh moves managed cash by the new notional, a BUY's with its fee, a SELL's less its fee, and not at all for an order from before AUTO accounting |
| Reservations.NothingElseMovesCash | src/jd_holdings/application/managed_account.py:58-94 | every other transaction but a launch moves it by the change of principal alone |
| Reservations.CapitalChangesExactly | src/jd_holdings/automation/service.py:594-599 | a change of principal or a launch happens exactly while no order is open; it clears every target quantity and leaves positions alone; a launch shuts the gates |
| LedgerRuns.CutBesideAnOpenBuy | src/jd_holdings/automation/service.py:333-334 | why capital changes are refused while orders are open: a cut keeps an open BUY covered exactly when it is no larger than the unreserved cash |
| LedgerRuns.TargetIsNeverExceeded | src/jd_holdings/application/managed_account.py:148-169 | with a positive target fixed, held plus committed quantity never exceeds the larger of the target and where it started, through partial fills, UNKNOWN orders, cancels and the unapplied window |
| LedgerRuns.RiskBudgetIsRespected | src/jd_holdings/application/managed_account.py:306-344 | when every fill is applied before the next reservation, invested cost plus open reservations stays within the risk budget from a successful reservation until the budget is recomputed |
| LedgerRuns.HoldingsAreConserved | src/jd_holdings/application/database.py:1495-1576 | in every run, whatever the broker's prices, held shares less the applied fills of all rows never change |
| LedgerRuns.SchedulesAgree | src/jd_holdings/bot.py:36-42 | two schedules of the same refreshes, at any prices, with repeated applies, crashes and recoveries anywhere, end with the same quantity and progress, and without SELLs the same cost |
| LedgerRuns.CostDependsOnOrderWithSells | src/jd_holdings/application/database.py:1531-1550 | with a SELL among the fills, the order of application decides the remaining cost: a concrete pair |
| LedgerRuns.SwapKeepsCostExactly | src/jd_holdings/application/database.py:1531-1550 | exactly when it does: swapping a BUY and a SELL keeps the cost if and only if the BUY filled at the row's average; the shares are the same either way |
| LedgerRuns.SameSideFillsCommute | src/jd_holdings/application/database.py:1531-1550 | fills of one side may be applied in either order |
| LedgerProofs.RecoveryEmptiesTheWindow | src/jd_holdings/application/database.py:1463-1493 | after a recovery that raises nothing the unapplied list is empty, and the order table is untouched |
| LedgerProofs.UnappliedExact | src/jd_holdings/application/database.py:1463-1493 | an id is listed if and only if a core order of that id has a fill whose quantity or notional the progress row lacks |
| LedgerProofs.AppliedRowKeeps | src/jd_holdings/application/database.py:1519-1550 | one application moves the shares by the delta and a BUY's cost by the notional delta, keeps cost equal to average times quantity, and a SELL never raises cost |
| DryRun.DryRunBroker.PlaceOrder | src/jd_holdings/application/broker.py:82-131 | a client id is placed once; a fillable order fills whole at the market price and reaches the paper account, and a fill that raises leaves the order behind |
| DryRun.DryRunBroker.FillRemaining | src/jd_holdings/application/broker.py:168-189 | the rest of an order fills at one price, its average becomes the volume-weighted one, and it reaches the paper account once |
| DryRun.DryRunBroker.CancelOrder | src/jd_holdings/application/broker.py:136-140 | only a working order is canceled, and what it filled stays |
| PaperRuns.PaperRunAgrees | src/jd_holdings/application/broker.py:82-242 | over every run of the dry-run broker's own placements, trades, cancels and polls, with other ledger transactions in between and each answer stored and applied as it comes, shares and average prices of ledger and paper account agree symbol by symbol |
| PaperRuns.BrokerNeverCorrects | src/jd_holdings/application/broker.py:82-189 | no operation of the paper broker changes what shares already executed cost |
| PaperAccount.PlacedExactly | src/jd_holdings/application/broker.py:82-131 | a new order takes the next number and fills whole at the market price if and only if it is a market order, a BUY at or below its limit or a SELL at or above it; it rests otherwise, and a known client id changes nothing |
| PaperAccount.CanceledExactly | src/jd_holdings/application/broker.py:136-140 | a cancel ends exactly a pending or partly filled order and leaves everything else alone |
| PaperAccount.RestFilledExactly | src/jd_holdings/application/broker.py:168-189 | the rest trades whole and adds to the notional exactly what it cost |
| PaperAccount.BuyingPowerIsExplained | src/jd_holdings/application/broker.py:191-242 | over every run buying power falls by what BUYs filled for, rises by what SELLs did, and moves for no other reason |
| PaperAccount.PollIsStored | src/jd_holdings/application/broker.py:133-134 | after a poll the ledger's row has the broker's status, fill and average, whatever it lagged behind |
| PaperAccount.StatusesAgree | src/jd_holdings/application/broker.py:82-242 | once every row has the broker's status they agree over every run |
| PaperRuns.RestartRejoins | src/jd_holdings/bot.py:62-162 | a broker rebuilt at restart, its holdings from the core rows and its resting core orders from the order table, is together with the ledger again, so the agreement goes on from there |
| DryRun.FillOrderKeepsAverages | src/jd_holdings/application/database.py:1495-1576 | from any broker: fills applied as they happen keep shares and averages equal as long as no snapshot changes the price of BUY shares already applied; a SELL correction does no harm |
| DryRun.SharesAgreeWhenSettled | src/jd_holdings/application/broker.py:191-242 | from equal openings, over any interleaving of ledger transactions, crashes, recoveries and broker fills: whenever both sides have applied every fill their shares agree |
| DryRun.OpeningsStayEqual | src/jd_holdings/application/broker.py:191-242 | the law behind it: what each side held before the orders stays equal through every step of either |
| DryRun.PriceCorrectionPartsExactly | src/jd_holdings/application/database.py:1523-1536 | a price-only correction parts ledger and paper average exactly when it is of a BUY, shares are held and the notional changed |
| DryRun.NextFillHeals | src/jd_holdings/application/broker.py:208-212 | the next fill of that order brings the averages together again |
| DryRun.RestartAgrees | src/jd_holdings/bot.py:62-91 | the broker rebuilt at restart holds each core row's shares and any booster's; without a booster, exactly the row at its average |
| DryRun.DryRunBroker.RestoreOrders | src/jd_holdings/bot.py:104-162 | at restart exactly the working DRY orders without a fill come back, pending under their old number, and no number of the past is used again |
| PaperAccount.RestoredExactly | src/jd_holdings/bot.py:104-162 | an order comes back if and only if its row is CREATED, SUBMITTED or PENDING with a DRY number and no fill |
| BuyBarrier.AtMostOnePost | src/jd_holdings/application/order_manager.py:103-263 | in any run of concurrent submits, retries, exceptions and crashes the broker is asked to place a given order at most once |
| BuyBarrier.NoBuyFromHaltToResume | src/jd_holdings/application/operational_safety.py:116-252 | from the moment a halt releases the lock until a resume clears the flag, no interleaving of submit, quarantine, release, refresh, crash or capital change places or reserves a BUY; halt flag and latch stay set and every open BUY stays covered |
| BuyBarrier.OnlyResumeReopens | src/jd_holdings/application/operational_safety.py:229-252 | only a resume lifts a completed halt, and only over a table without an open BUY |
| BuyBarrier.HaltReadsEveryOpenBuy | src/jd_holdings/application/operational_safety.py:145-147 | what a halt reads is exactly the BUYs locally open at that moment |
| BuyBarrier.HaltAccountsForEveryBuy | src/jd_holdings/application/operational_safety.py:116-180 | canceled and uncertain are disjoint, together list exactly the BUYs the halt read, and cover every BUY open when the lock is released: reserved only, placed but not persisted, or left by an earlier process |
| BuyBarrier.RunKeepsInv | src/jd_holdings/automation/service.py:611-657 | mutual exclusion, ownership of rows by the thread that inserted them, the clear flag of a thread about to send, and the halt's bookkeeping hold in every run (what the other gates forbid is in `BuyGates`) |
| BuyGates.ReservedOverOpenGates | src/jd_holdings/application/managed_account.py:287-298 | a BUY row is created only in a world with latch and quarantine clear and state RUNNING |
| BuyGates.ReachesPostOverOpenGates | src/jd_holdings/application/jh_auto_guard.py:77-88 | a thread comes to send a BUY only under the lock, with halt, latch and quarantine clear and state RUNNING |
| BuyGates.ReachesGuardOutsideSafeMode | src/jd_holdings/application/order_manager.py:103-263 | and only after it saw safe mode off |
| BuyGates.NoBuyWhileShut | src/jd_holdings/application/jh_auto_guard.py:77-88 | over every run in which latch, quarantine or a state other than RUNNING stands at each step, no BUY is reserved or sent |
| BuyGates.NoBuyUnderQuarantine | src/jd_holdings/automation/service.py:611-657 | from quarantine on, no interleaving reserves or sends a BUY until a release clears it |
| BuyGates.NoBuyAfterStartOrChange | src/jd_holdings/live_bot.py:118-118 | so none does after a process start or an accepted capital change |
| BuyGates.NoBuyInSafeMode | src/jd_holdings/application/order_manager.py:103-263 | while safe mode is on nothing is bought, by threads that had reserved before it included |
| BuyGates.ReservedBuyGoesOutExactly | src/jd_holdings/application/order_manager.py:103-263 | a reserved BUY left to itself is sent if and only if nothing stands in its way; else it ends REJECTED under halt or safe mode, UNKNOWN under the guard, unsent |
| BuyGates.UndisturbedSubmit | src/jd_holdings/application/order_manager.py:103-263 | a new order left to itself: a BUY goes out if and only if no key stands in its way, a SELL always, with the broker's status stored; else nothing is written |
| BuyGates.RetrySendsNothing | src/jd_holdings/application/order_manager.py:103-263 | a retry of a known order sends nothing and stores the status of a placed, open one |
| BuyGates.UndisturbedResume | src/jd_holdings/application/operational_safety.py:181-252 | a resume left to itself opens BUY if and only if no BUY is open and safe mode is off; otherwise the halt is on afterwards |
| BuyGates.UndisturbedRelease | src/jd_holdings/automation/service.py:626-657 | a release left to itself opens BUY if and only if latch, safe mode and open orders are clear; over a latch or safe mode the account leaves RUNNING |
| BuyGates.UndisturbedQuarantine | src/jd_holdings/automation/service.py:611-618 | a quarantine left to itself sets all three keys |
| BuyBarrier.CancelOpenBuys | src/jd_holdings/application/operational_safety.py:145-165 | the halt's loop sorts each open BUY into canceled or uncertain, in table order |
| BuyBarrier.ReportExact | src/jd_holdings/application/operational_safety.py:109-114 | an order is reported canceled exactly when it had a broker id and its read-back showed that very order with status CANCELED |
| BuyBarrier.HaltLoopIsTheMethod | src/jd_holdings/application/operational_safety.py:145-165 | the halting thread's cancel loop, step by step, ends with the method's two lists |
| BuyGates.CancelStepExactly | src/jd_holdings/application/operational_safety.py:145-165 | one cancel moves its row to canceled if and only if the halt found a broker id and the cancel settled, else to uncertain |
| CapitalProofs.GuardAcceptsEveryLaunchedAccount | src/jd_holdings/application/jh_auto_guard.py:97-116 | from any sound store, whatever mark and budget an older ledger left in it, every state reachable after a launch passes the guard's separate arithmetic: target is the floored product, principal is positive and within it, mark at least principal, risk budget within the 75% bound |
| CapitalProofs.StartsSound | src/jd_holdings/automation/live_service.py:15-22 | an empty store is sound, and so is one that still carries any mark and risk budget of an older ledger |
| CapitalProofs.LaunchDropsTheOldMark | src/jd_holdings/automation/live_service.py:23-39 | a launch from any such store opens half the target with mark and risk budget equal to it: no profit of the old ledger is left above principal |
| CapitalProofs.StagesFollowTheFormula | src/jd_holdings/automation/service.py:674-731 | while a ramp runs, principal is the floored 50/75/100% formula on a ramp aimed at the current target, full only at stage 3, and stage k comes no sooner than three sessions per earlier stage |
| CapitalProofs.StageFractions | src/jd_holdings/automation/service.py:719-731 | the stages are half, three quarters and all of what the target adds, floored to cents |
| CapitalProofs.ShareIsFloored | src/jd_holdings/automation/service.py:301-304 | the target is the product of base and ratio floored to cents |
| CapitalProofs.FullPrincipalTakesSixSessions | src/jd_holdings/automation/service.py:674-731 | with the configuration left alone, the whole target is open no sooner than six completed sessions after launch |
| CapitalProofs.AdvanceNeedsThisStagesFill | src/jd_holdings/automation/final_ops_hardening.py:53-67 | principal moves inside a ramp only three sessions past the fill date of this very stage and with an AUTO fill recorded during it, all six gates open and the targets held |
| CapitalProofs.ConfigRefusedExactly | src/jd_holdings/automation/service.py:323-407 | a live change fails exactly on open orders, on growth inside a running ramp, or on withdrawing too much, at any equity and any number of units; never on the contract check that follows |
| CapitalProofs.QuarantinedAfterAChangeExactly | src/jd_holdings/automation/prelive_hardening.py:69-108 | after a change attempt BUY is quarantined exactly when the change was accepted or it was quarantined before |
| CapitalProofs.RefusalCanLeaveBuyOpen | src/jd_holdings/automation/prelive_hardening.py:69-108 | the failing side is reached: from any launched account without latch or safe mode, a release and then an open order lead to a change that is refused and leaves BUY open |
| CapitalProofs.LaunchedExample | src/jd_holdings/automation/service.py:436-484 | such an account exists: 10000 at 50% launches with 2500 of its 5000 open |
| CapitalProofs.FlowRefusedExactly | src/jd_holdings/automation/service.py:530-552 | a live flow raises exactly when it withdraws, by more than a millionth of a unit, more than the equity, or more than the units at the fallback price when equity or units are zero |
| CapitalProofs.FlowCreatesNoPerformance | src/jd_holdings/automation/service.py:523-570 | equity per unit, and the high-water mark above principal, are the same on both sides of a flow |
| CapitalProofs.UnitValueIsTimeWeighted | src/jd_holdings/automation/service.py:523-570 | over any solvent run of flows, ramps, recordings and market moves, unit value grows by the product of the market's own equity ratios |
| CapitalProofs.GainIsPeakProfit | src/jd_holdings/application/managed_account.py:197-235 | the high-water mark above principal is the peak of recorded profit, whatever capital came and went |
| CapitalRules.RecordedBudgetExactly | src/jd_holdings/application/managed_account.py:212-224 | a recording leaves the largest risk budget within the marked equity and the principal with three quarters of the recorded gain |
| CapitalRules.RecordedBudgetFollowsThePeak | src/jd_holdings/application/managed_account.py:197-235 | in every run, right after a recording, the budget is the lesser of the equity and the principal with three quarters of the peak profit |
| CapitalRules.ReinvestmentExample | src/jd_holdings/application/managed_account.py:217-224 | principal 5000 and 2000 of profit: mark 7000, budget 6500 |
| CapitalRules.FlowBudgetExactly | src/jd_holdings/automation/service.py:523-570 | a flow leaves the largest budget within its equity and the new principal with three quarters of the gain |
| CapitalRules.FlowEquityIsMarkedExactly | src/jd_holdings/automation/service.py:523-570 | that equity is the one marked afterwards, except exactly for a deposit onto an account that lost more than its principal |
| CapitalRules.FlowIsPricedAtUnitValue | src/jd_holdings/automation/service.py:530-552 | a flow is booked at the equity of one unit before it |
| CapitalRules.FlowDropsTheTargets | src/jd_holdings/automation/service.py:594-599 | a flow drops the target quantities, and no stage advances before they are built again |
| CapitalRules.LiveChangeExactly | src/jd_holdings/automation/service.py:323-404 | an accepted live change stores the figures and their floored product, closes BUY by three keys, and moves the principal to a target below it, by half of what the target gained, or not at all |
| CapitalRules.IdleChangeExactly | src/jd_holdings/automation/service.py:323-363 | before a launch a change moves figures and target only and is never refused |
| CapitalRules.LaunchExactly | src/jd_holdings/automation/service.py:409-484 | a first launch fails if and only if the configuration is missing, orders are open, the preflight failed or safe mode is on; a repeated one changes nothing |
| CapitalRules.RampCheckExactly | src/jd_holdings/automation/service.py:659-731 | the ramp check is never refused; it does nothing behind a shut gate, forgets the fill date without evidence, ends the last stage, waits three sessions, and then opens the next part |
| CapitalRules.ReleaseExactly | src/jd_holdings/automation/service.py:626-657 | a release opens BUY if and only if the account is launched and ready without latch, safe mode and open orders; otherwise no gate opens |
| CapitalRules.GuardRefusesExactly | src/jd_holdings/application/jh_auto_guard.py:90-116 | which figures the guard stops BUY for, each limit in numbers |
| CapitalRules.MoneyAcceptedExactly | src/jd_holdings/automation/service.py:279-289 | base capital is cut to whole cents and accepted from 100 up to ten million |
| CapitalRules.RatioAcceptedExactly | src/jd_holdings/automation/service.py:291-299 | a ratio is accepted from one to a hundred percent and rounded to a hundredth of one |
| CapitalService.JHAutoService.SetOperatorConfig | src/jd_holdings/automation/prelive_hardening.py:69-108 | the configuration change as one transaction over the keys: whole or not at all, closing BUY when it succeeds |
| CapitalService.JHAutoService.ApplyExternalFlow | src/jd_holdings/automation/service.py:523-570 | the flow computes units, NAV, mark and risk budget, or raises before its first write |
| CapitalService.JHAutoService.AuthorizeLaunch | src/jd_holdings/automation/service.py:436-484 | launch opens half the target, drops the mark of an earlier ledger, and happens once |
| CapitalService.JHAutoService.AdvanceRampIfReady | src/jd_holdings/automation/service.py:674-731 | one ramp check: forget, date, wait, promote or finish |
| CapitalService.JHAutoService.RecordV322Equity | src/jd_holdings/application/managed_account.py:197-235 | a recording as the recording transition of the run theorems (which budget it leaves is `CapitalRules.RecordedBudgetExactly`) |
| CapitalService.JHAutoService.TryReleaseQuarantine | src/jd_holdings/automation/service.py:626-657 | a release only with the contract intact and no latch, safe mode or open order |
| Strategy.CapNeverFallsExactly | src/jd_holdings/core/strategy.py:24-30 | with increases allowed, a cap survives every later score exactly when it fits the capital |
| Strategy.WholeCentsFit | src/jd_holdings/core/strategy.py:12-21 | first caps fit when the capital is whole cents and ratios are at most one |
| Strategy.CapFallsOnPartCents | src/jd_holdings/core/strategy.py:12-30 | a capital of 100.006 whose first cap is 100.01 and falls |
| Strategy.BudgetStaysInStage | src/jd_holdings/core/strategy.py:33-44 | spending a stage budget lifts the staged capital at most half a cent past the rounded cumulative target, and not at all on a first entry |
| Strategy.OrderQuantityExact | src/jd_holdings/core/execution.py:57-69 | the order is affordable with fee, and one more share would not be, unless a maximum binds |
| Strategy.TakeProfitPrices | src/jd_holdings/core/take_profit.py:14-53 | each leg sells at its target return or within a cent above it, and never below the base return |
| Strategy.FirstLegCovers | src/jd_holdings/core/take_profit.py:37-43 | the first leg is the smallest whole number of shares covering the fraction |
| Decisions.AllowedExactly | src/jd_holdings/core/strategy.py:96-317 | a purchase is decided if and only if the rule of its state asks for it: the entry score and a stage worth a cent from EMPTY, the stage's score and its drop from the anchor from a holding stage, and from PARTIAL_TP_1 an armed rebuy below the maximum, at its drop from the average, with cap left |
| Decisions.EntryExactly | src/jd_holdings/core/strategy.py:96-134 | when a first entry is allowed, and its stage, cap and budget |
| Decisions.AddExactly | src/jd_holdings/core/strategy.py:147-195 | when an added entry is allowed, its stage, cap and budget, and its trigger within half a hundredth of a cent |
| Decisions.RebuyExactly | src/jd_holdings/core/strategy.py:218-269 | when a rebuy is allowed, and its budget: the lesser of free cap and the cost of the shares the first leg sold |
| Decisions.TriggerExample | src/jd_holdings/core/strategy.py:181-182 | anchor 100 and drop 8%: no entry at 100, one at 90 |
| Decisions.ExposureExactly | src/jd_holdings/core/strategy.py:12-21 | which ratio of the capital each band of scores opens |
| Decisions.CapAtExactly | src/jd_holdings/core/strategy.py:21-21 | a cap is that ratio of the capital to the nearest cent |
| Decisions.UpdateCapExactly | src/jd_holdings/core/strategy.py:24-30 | a later cap is the previous one, or the larger of it and the score's but not past the capital |
| Decisions.StageBudgetExactly | src/jd_holdings/core/strategy.py:33-44 | the budget is what the stage's target misses, to the nearest cent, and nothing past it |
| Decisions.StageTargetExactly | src/jd_holdings/core/strategy.py:40-42 | a stage's target is its weight of the cap to the nearest cent |
| Decisions.FillsExactly | src/jd_holdings/backtest/engine.py:478-515 | a pending order fills if and only if open and fill price have not run away or recovered past its trigger, and budget and cash pay for one share |
| Decisions.PricesExactly | src/jd_holdings/backtest/engine.py:479-494 | triggers, chase limit, unit cost and targets as price plus or minus the rate of it |
| Decisions.AmountsExactly | src/jd_holdings/backtest/engine.py:490-494 | share costs and fill price as amount plus the rate of it |
| Decisions.RemainderPriceExactly | src/jd_holdings/core/remainder_exit.py:17-26 | the remainder goes out within a cent above the exit return |
| Decisions.LegRateExactly | src/jd_holdings/core/take_profit.py:24-35 | the rate of a leg is its base, or the multiple of the range where that is used and higher |
| Backtest.BoughtOk | src/jd_holdings/backtest/engine.py:517-565 | every purchase decided in the current state keeps cost equal to average times quantity, a full take-profit plan, stage and cap |
| Backtest.Simulation.ExecutePending | src/jd_holdings/backtest/engine.py:469-581 | a pending order meets the state it was decided in; it fills or is skipped for the first reason that applies; a skip changes nothing, a fill books shares, cost, cash, stage, cap and plan, and keeps the invariant |
| Backtest.Simulation.CheckPending | src/jd_holdings/backtest/engine.py:478-515 | the checks in their order, the exposure block never reached: what fills is affordable and within its budget |
| Backtest.EntryDecision | src/jd_holdings/core/strategy.py:96-195 | an allowed entry is the first from an empty position or the stage after the current one, with a positive budget of exactly that stage (when one is allowed is `Decisions.AllowedExactly`) |
| Backtest.Simulation.SellLegs | src/jd_holdings/backtest/engine.py:583-622 | which legs sell at a session's high, at which price and size, and that an emptied holding closes its cycle with its cash flow |
| Backtest.Simulation.ProcessTakeProfit | src/jd_holdings/backtest/strategy_engine.py:21-84 | the remainder exit happens if and only if TP1 was done in an earlier session, TP2 is not due, the wait is over and the price reached; the wait is never negative |
| Backtest.Simulation.Run | src/jd_holdings/backtest/engine.py:274-408 | the loop is the fold of the session function, and for every price path cash is nonnegative and equals capital plus all closed and open cycle flows, and capital plus the log's flows; EMPTY exactly at zero shares; every end-of-day quantity and every holding session is the log's |
| Backtest.Simulation.RunDay | src/jd_holdings/backtest/engine.py:311-393 | one session in its order, keeping the invariant, never lowering the cap inside a cycle when first caps fit, and leaving a decision made in the state it will execute in |
| History.EveryPurchaseWasWanted | src/jd_holdings/backtest/engine.py:311-383 | over every price path, every purchase in the log was asked for by its state's rule at the close of the session before: first entries by the score, added ones below the drop from the anchor, rebuys below the drop from the average and no more shares than the first leg sold |
| History.EveryTradeHasItsSession | src/jd_holdings/backtest/engine.py:311-383 | every trade in the log is the pending order or a sale of some session, at that session's price and size |
| History.EverySessionIsLogged | src/jd_holdings/backtest/engine.py:469-622 | each pending order that meets its terms, and each leg or remainder a session's high reaches, is in the log |
| History.PendingExactly | src/jd_holdings/backtest/engine.py:372-382 | after a session an order is pending if and only if the rule of the state it ended in asks for one |
| CycleMemory.PositionRemembersItsCycle | src/jd_holdings/backtest/engine.py:517-565 | over every price path the anchor is the price of the open cycle's one first purchase, the counters are the log's, the staged capital is what its entries cost; no cycle has more entries than stages or more rebuys than allowed |
| CycleMemory.ArmedExactly | src/jd_holdings/backtest/engine.py:364-370 | a rebuy is armed after a session if and only if the first leg is sold and this session recovered, or an earlier one did with neither a rebuy nor the cycle's end since |
| CycleMemory.HoldingDaysCount | src/jd_holdings/backtest/engine.py:332-334 | holding days are the sessions since the first purchase, and the calendar and the shares sold are those of the logged first leg |
| CycleMemory.RemainderWaits | src/jd_holdings/backtest/strategy_engine.py:21-84 | the remainder of a cycle is sold no sooner than the configured sessions after its first leg |
| CycleMemory.ExitDueExactly | src/jd_holdings/backtest/strategy_engine.py:36-58 | with the first leg sold on session j the remainder exit is due on session i if and only if it is enabled, the wait from j is over, and the high reaches its price but not the second leg's |
| CycleAccounts.CyclesAreBookedAsTraded | src/jd_holdings/backtest/engine.py:583-678 | each closed cycle's result is the cash of its own trades and its entries are theirs, and cash is the capital with everything the log moved |
| CycleAccounts.HoldingDaysAreSessions | src/jd_holdings/backtest/engine.py:583-678 | each closed cycle's holding days are the sessions from its first purchase to its last sale, both included |
| CycleAccounts.CycleStartsFromItsCash | src/jd_holdings/backtest/engine.py:531-531 | the open cycle's starting equity is the cash just before its first purchase |
| Overlay.VirtualActiveSeries | src/jd_holdings/core/v322_allocation.py:262-281 | the loop with its clamp and its shift by one session; it raises exactly when the replayed quantity differs from the expected one |
| Overlay.ReplayIsExact | src/jd_holdings/core/v322_allocation.py:271-275 | on an index with every trade date each session replays to the log's own quantity and the clamp never binds |
| Overlay.ReplayEndsAtTheLog | src/jd_holdings/core/v322_allocation.py:276-280 | so the replay assertion never fires |
| Overlay.MissedDateIsCaught | src/jd_holdings/core/v322_allocation.py:276-280 | an index without the trade date fails the replay of the simplest log |
| Overlay.NoLookAhead | src/jd_holdings/core/v322_allocation.py:281-281 | a session's overlay depends on no trade dated that session or later |
| Overlay.SimulateAndReplay | src/jd_holdings/backtest/portfolio_engine.py:91-94 | engine and replay together, for every price path and any index with every trade date: on each session they share the replayed quantity is the engine's, and the next entry is active exactly when shares were held during it |
| Overlay.SessionMatches | src/jd_holdings/core/v322_allocation.py:268-275 | the same, session by session, for any log and any index that covers it |
| Allocation.OneWayWithinAMonth | src/jd_holdings/core/v322_allocation.py:196-225 | inside a month leverage never rises, drops only to the defensive level, and the semiconductor sleeve never returns |
| Allocation.BrakeAlwaysHolds | src/jd_holdings/core/v322_allocation.py:169-174 | a session of high volatility is never held above the defensive level |
| Allocation.LeverageExactly | src/jd_holdings/core/v322_allocation.py:166-186 | half under high volatility, 1.5 if and only if every measure confirms the uptrend, 1.25 if and only if three of five votes do, else 1 |
| Allocation.MonthIsItsHistory | src/jd_holdings/core/v322_allocation.py:196-225 | a month is held at what its first session chose until a later one brakes it, and semiconductors stay if and only if they led in every session of it so far |
| Allocation.WeightsCarryTheLeverage | src/jd_holdings/core/v322_allocation.py:228-239 | base weights are nonnegative, sum to at most one and carry exactly the chosen leverage |
| Allocation.SleeveIsShared | src/jd_holdings/core/v322_allocation.py:228-239 | semiconductors take half of the leveraged sleeve |
| Allocation.OverlayKeepsTheTotal | src/jd_holdings/core/v322_allocation.py:242-259 | the overlay moves 5% out of QQQ: same total, a tenth more exposure, nothing to an inactive fund |
| Allocation.KeptExactly | src/jd_holdings/core/v322_allocation.py:242-259 | a weight is dropped only when it is next to nothing |
| Rebalance.Rebalance | src/jd_holdings/backtest/portfolio_engine.py:252-307 | the in-place rebalance: sells reach their target, buys stop at the target or the last affordable share, cash is conserved and nonnegative, and every target is met if and only if the cash after selling covers all purchases |
| Rebalance.ShortfallIsSlippage | src/jd_holdings/backtest/portfolio_engine.py:252-307 | with weights summing to at most one the purchases exceed the cash after selling by at most the slippage on the open value, net of sell fee, of what is sold; so not at all without slippage |
| Portfolio.Execute | src/jd_holdings/backtest/portfolio_engine.py:151-180 | one execution with payable targets: cash and shares stay nonnegative, cash is conserved, and without slippage final quantities equal the desired ones |
| Portfolio.Run | src/jd_holdings/backtest/portfolio_engine.py:133-199 | every session of every run trades to the target of the close before it, only when that target changed, sized by the HWM75 base of the peak so far; cash, shares and equity stay nonnegative, and without slippage each execution meets its targets to the share |
| Portfolio.SizingFollowsThePeak | src/jd_holdings/backtest/portfolio_engine.py:146-149 | every session is sized by the largest amount within the equity at the open and the capital with three quarters of what the best close before it gained |
| Portfolio.OnlyNewTargetsTrade | src/jd_holdings/backtest/portfolio_engine.py:151-180 | a session whose target is the one before it trades nothing, and another is executed |
| Portfolio.PlannedLooksBack | src/jd_holdings/backtest/portfolio_engine.py:133-199 | what a session trades to depends on nothing of its own or a later day |
| Portfolio.StagedScales | src/jd_holdings/backtest/portfolio_engine.py:133-199 | onboarding scales every weight by the same fraction |
| Portfolio.MarkedAtTheClose | src/jd_holdings/backtest/portfolio_engine.py:180-187 | a session's equity is its cash and its shares at the close, less the fee of selling them |
| TakeProfitLegs.PositionEqualsRemainingLegs | src/jd_holdings/application/position_manager.py:130-243 | over any sequence of refreshes, applications, placements, cancel passes and reissues, nothing asked of the broker or of their order: the position equals the plan's remaining legs, no leg passes its target, and the "more than held" guard is unreachable |
| TakeProfitLegs.SurplusIsForever | src/jd_holdings/application/position_manager.py:130-243 | shares beyond the plan's remaining legs never change, whatever happens |
| TakeProfitLegs.OrdersStayWithinTargets | src/jd_holdings/application/tp_manager.py:29-120 | with a fair broker and no reissue over an unapplied order, no leg's orders together fill past its target, and once settled the shares gone are the shares filled |
| TakeProfitLegs.ApplyRefusedExactly | src/jd_holdings/application/position_manager.py:155-165 | in such a run a fill is refused exactly for an ended plan or an order older than fills already applied |
| TakeProfitLegs.LegFillIsTheSum | src/jd_holdings/application/position_manager.py:155-160 | the cumulative fill recomputed from order size is the sum of the fills of all orders of the leg |
| TakeProfitLegs.ApplyIsIdempotent | src/jd_holdings/application/position_manager.py:130-243 | in any state, applying an order again at once changes nothing; it raises exactly when the plan is over and the filled order was not marked |
| TakeProfitLegs.RepeatIsHarmless | src/jd_holdings/application/position_manager.py:130-243 | over any run of cancels, partial fills, reissues and applications, fair or not: an order already applied, applied again at any later time, changes at most its own mark unless it filled further meanwhile |
| TakeProfitLegs.CompletePassSettles | src/jd_holdings/application/tp_manager.py:101-120 | a cancel pass that raises nothing leaves nothing open and nothing unapplied, which is what a reissue needs |
| TakeProfitLegs.PassLosesAFillExactly | src/jd_holdings/application/tp_manager.py:101-120 | a pass loses a fill exactly when it stored the first leg's ended fill and the second leg's open order did not confirm |
| TakeProfitLegs.StoppedPassOversells | src/jd_holdings/application/tp_manager.py:101-120 | a run of a fair broker that loses a fill: of two shares one is sold before the pass raises, and the reissue after it asks for two where one is left |
| TakeProfitLegs.CrashBetweenTransactionsLosesTheDelta | src/jd_holdings/application/position_manager.py:166-186 | a crash between the two writes leaves the position too high by the fill through every later run |
| TakeProfitLegs.ReissueFitsExactly | src/jd_holdings/application/tp_manager.py:29-99 | over ended orders, each leg's reissue and the remainder exit ask for exactly what is left if and only if every fill of the leg was applied, and for more otherwise |
| TakeProfitLegs.TakeProfitDesk.ApplySellFill | src/jd_holdings/application/position_manager.py:130-243 | the method, step by step, is the application function with every error case |
| TakeProfitLegs.TakeProfitDesk.CancelAndSettle | src/jd_holdings/application/tp_manager.py:101-120 | the pass over both legs, stored read-backs included when it raises, and its caller's applications |
| TakeProfitLegs.TakeProfitDesk.PlaceLegs | src/jd_holdings/application/tp_manager.py:29-68 | each leg's remainder goes out, and nothing for a finished leg |
| TakeProfitLegs.TakeProfitDesk.PlaceRemainderExit | src/jd_holdings/application/tp_manager.py:70-99 | the whole holding goes out on the second leg, only in the remainder phase |
| Reconciliation.TransitionExplains | src/jd_holdings/application/reconciliation.py:237-272 | the loop is the skew test over open remainders and this cycle's fills |
| Reconciliation.ExplainsExactly | src/jd_holdings/application/reconciliation.py:237-272 | a different quantity is let through if and only if some view of the holdings, ahead by part of the open remainders or behind by part of this cycle's fills, shows it |
| Reconciliation.QuantityAcceptedExactly | src/jd_holdings/application/reconciliation.py:331-366 | a symbol passes its quantity checks if and only if the broker reports the holdings of some view; negative and fractional quantities never pass |
| Reconciliation.IssuesExactly | src/jd_holdings/application/reconciliation.py:331-366 | which issue is raised, each if and only if: negative, fractional, a mismatch no view explains, unmanaged shares, a holding the broker lacks |

## Left out

- `Decimal` precision and `float` rounding: amounts are exact reals; only the explicit `quantize`, floor and ceiling calls round.
- SQL, schema migration, JSON payloads, network clients, token caches, Telegram and command-line code: tables are sequences and maps, calls are inputs.
- Indicators, scores, regimes and performance metrics: arbitrary inputs of the state machines; excursion statistics of a cycle are not kept.
- The booster ledger of the live account: its cost enters the risk budget as a constant, and `apply_buy_fill` is represented by a fresh take-profit plan.
- SGOV idle cash and cash-release intents: they repeat the cumulative-fill pattern of the core ledger; simulated idle-cash yield is off.
- Average price and cost of a position under take-profit orders: unchanged while shares remain, zero after; `TakeProfitLegs` keeps quantities only.
- Market orders and orders without a price: the ledger model prices every order; the paper broker's market flag is kept for SELLs.
- Resting take-profit orders at a paper restart: `DryRun.DryRunBroker.RestoreOrders` rebuilds them, but `PaperRuns` follows core orders only.
- The walk of the paper broker over all resting orders of a symbol: `PaperRuns` trades one order at a time, in any order.
- Idle-cash shares added to the paper account at restart: the idle-cash ledger is not part of this model.
- AUTO switched on over a ledger with open BUYs: the mode does not change during a run.
- AUTO cycle rows, attempt limits and retry cool-downs: only the fill evidence they leave for the ramp is modelled.
- The guard's version, session and gate checks at order time are a single yes or no in `BuyBarrier`; its capital checks are in `Capital`.
- A failing guard in `BuyBarrier` may mark the row REJECTED as well as UNKNOWN, which only adds runs.
- The broker's acceptance of a POST whose outcome stayed unknown: such a row has no broker id, is never refreshed and stays outside the take-profit legs.
- Calendars and time zones: sessions are consecutive integers, and a stage's waiting time is their difference.
- Configuration facts `validate_config` does not check but the code relies on: a sell fee of at most one, target prices that are not negative, at most four entry stages.
- Hash-derived ids and approval tokens: ids are distinct by assumption.
- Reconciliation's open-order and take-profit-plan comparisons, which are set differences, and its safe-mode transitions.
- Portfolio onboarding fractions are inputs between zero and one; the schedule that chooses them is not modelled.
