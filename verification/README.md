# Verified models of the bookkeeping engine and its tax oracle

Two parts of the system are modelled here and their properties proved.

**The tax oracle** (`features/tax-estimator/docs/reference-calc`) is the reference arithmetic the tax estimator is held
against. The model has the section 6654 penalty ledger (dated installments and payments replayed in order, each payment
going to the earliest unpaid installment, interest in legs cut at rate and year boundaries), the Schedule AI columns and
their self-employment tax, the two capital-gain worksheets, the section 199A phase-in, and the section 6655 installments
with their due dates. Money and rates are exact reals, dates are ordinals, and every table (brackets, rates, installments,
holidays) has any length and content.

**Stateful pieces of the engine** (`packages/api/src`): the Idempotency-Key protocol as a state machine over any
interleaving of requests, transactions, expiries and sweeps; the rotating log file over a file system in which every
operation may fail; the session secrets with the egress allowlist they control; the rate limiter; the counter of JSON
array elements; and the expansion of recorded routes with its independent count.

Where the source changes state step by step, the model does too: classes and loops are proved against specification
functions, and the promises of the source are proved about those functions, over all runs.

## What the proofs found

Some promises hold only under a condition. Each has a lemma with the exact condition or with an input that breaks it.

- `accrue_legs` claims that each leg lies in one rate period. With overlapping periods a leg can begin inside one period
  and run into another. The interest is right on every stretch exactly when the table changes its rate at period ends and
  year ends only: `UnderpaymentInterest.StepsAtCutsIsExact`, `UnderpaymentInterest.OverlappingPeriodsMisprice`.
- A schedule overpaid by its third quarter hands the ledger a negative last payment. The source adds it to the first
  installment and leaves the overpayment on hand, so interest is charged although nothing is short, exactly when the last
  need is negative: `PenaltyBook.NegativePayment`, `PenaltyOvercharge.OverchargedIffTakenBack`,
  `VoucherSchedule.LastVoucherSettles`, `VoucherSchedule.OverpaidFirstOwesAgain`.
- The comment above Part II says that it always equals the self-employment tax on the annualized figures. It does exactly
  when both net earnings are on the same side of the $400 minimum: `SelfEmploymentTax.PartIIMatchesTheReturn`.
- More gain of the kinds taxed at 25% and 28% can lower the tax of the Schedule D worksheet: where the ordinary brackets
  below line 19 are cheaper for a stretch than the preferential rates, as for $250 in the 2025 joint table, and where
  unrecaptured gain displaces collectibles gain: `CapitalGains.MoreSpecialGainIsExact`, `CapitalGains.JointTableDips`,
  `CapitalGains.BeyondTheNetGain`.
- A route bug is said never to be reported as a success. Its stored error replays as a success exactly when the error has
  no storable body (JSON null, or over the cap): `IdempotencyTheorems.UnstoredErrorReplaysAsSuccess`.
- The comment on storing a route bug says that a row of another request is left alone. The statement compares hashes only,
  so a request that posts nothing can store its error in the row of one that was answered 201, and a retry is told 500. A
  live row of an answered success still replays it exactly when that has not happened: `IdempotencyReplays.ForeignBugRewrites`,
  `IdempotencyReplays.RetryIsToldASuccess`.
- `existsSync` answers false on any error, and then a rename overwrites a live file. The exact combinations of failures
  under which a rotation loses only the oldest file, and under which the log at least keeps no gap, are
  `RotatingLog.LosslessIsExact` and `RotatingLog.SafetyIsExact`; the disks that break them are in
  `RotatingLog.DishonestRotationOverwrites` and `RotatingLog.OlderFileSurvives`.
- A stored secret can lose its scrubbing when an older value is evicted of which it is the JSON-escaped form:
  `SessionSecrets.EveryRunScrubs`, `SessionSecrets.StoredKeyIsUncovered`.
- A base URL with port 0 is stored before the guard refuses its target, so the host of the URL before it stays allowed:
  `SessionSecrets.RefusedTargetKeepsTheOldHost`.
- A refused caller who waits the advertised seconds is refused again when the wait was a whole number of seconds, because
  a bucket still counts in its last millisecond: `RateLimiter.WaitingAsTold`.
- The stack counter's comment says that a route with N paths is counted N times. It is counted once, so the two counts
  differ as soon as a list of paths stands over a route: `RouteCounts.NeverFewer`, `RouteCounts.CountsDiffer`.
- The recorded chain is said to hold every function that runs. Middleware given in the same `use` call as a router is
  in it twice, and middleware mounted before a router on a path below the router's is missing. Without these two each
  chain is right: `RouteExpansion.SameCallListsTwice`, `RouteChains.MiddlewareBelowTheMountIsMissed`,
  `RouteChains.WalkRecordsWhatRuns`.

## Model

| member | source | states |
|---|---|---|
| Calendar.YearLength | features/tax-estimator/docs/reference-calc/rivera_fixture.py:160-161 | the leap-year rule counts exactly the days between two year ends of the calendar |
| UnderpaymentInterest.AccrueLegs | features/tax-estimator/docs/reference-calc/rivera_fixture.py:168-181 | the legs tile the interval without gap or overlap, end exactly at the cuts and at its end, and on a table that steps only at cuts each leg has one rate and year length and the legs add up to the day-by-day interest; an error names an unrated day |
| UnderpaymentInterest.InterestAdditive | features/tax-estimator/docs/reference-calc/rivera_fixture.py:168-181 | interest may be split at any date |
| UnderpaymentInterest.DisjointTablesStepAtCuts | features/tax-estimator/docs/reference-calc/rivera_fixture.py:163-174 | a table of periods that do not overlap changes its rate at period ends only, so its legs are right |
| UnderpaymentInterest.StepsAtCutsIsExact | features/tax-estimator/docs/reference-calc/rivera_fixture.py:168-181 | on every stretch the legs' interest is the day-by-day interest if and only if the table changes its rate at cuts only |
| UnderpaymentInterest.UncutStepMisprices | features/tax-estimator/docs/reference-calc/rivera_fixture.py:172-178 | a step after any other rated day puts the two days around it in one leg at the first day's rate, which is not their interest or charges a day without a rate |
| UnderpaymentInterest.OverlappingPeriodsMisprice | features/tax-estimator/docs/reference-calc/rivera_fixture.py:163-178 | such a table: two overlapping periods, the leg from day 48 to 50 they give, and that its interest is wrong |
| PenaltyEvents.SortOrders | features/tax-estimator/docs/reference-calc/rivera_fixture.py:190-197 | sorting permutes the events into date order with dues before payments before the end |
| PenaltyEvents.ReplayCarriesTheEstimate | features/tax-estimator/docs/reference-calc/rivera_fixture.py:190-197 | the sorted events hold each installment once in order, and the payments in them up to a day are the withholding and payments of the estimate up to that day |
| PenaltyBook.NegativePayment | features/tax-estimator/docs/reference-calc/rivera_fixture.py:213-220 | a negative payment goes to the first balance and leaves an overpayment on hand alone: the balances are then the shortfall if and only if there was none on hand |
| PenaltyBook.DayOfTheBook | features/tax-estimator/docs/reference-calc/rivera_fixture.py:206-222 | on every day of the replay, for payments of any sign, the balances are the cumulative shortfall of the estimate plus the overcharge |
| PenaltyOvercharge.OverchargedIffTakenBack | features/tax-estimator/docs/reference-calc/rivera_fixture.py:206-222 | for every sequence of installments and payments of any sign: the balances are the shortfall after every event if and only if no negative payment arrives while more is paid than has fallen due, or takes the amount on hand below zero before anything has |
| PenaltyOvercharge.TotalIsTheShortfallAlone | features/tax-estimator/docs/reference-calc/rivera_fixture.py:206-229 | for payments of any sign: the total is the interest on the cumulative shortfall, for every rate table, if and only if the balances are the shortfall at the end of every day, as they are when no negative payment takes back |
| PenaltyLedger.Ledger.AccrueOne | features/tax-estimator/docs/reference-calc/rivera_fixture.py:199-205 | interest of one installment to a date and the segments it adds, one a leg of its balance since its last accrual; the error is a day the balance needs and the table lacks |
| PenaltyLedger.Ledger.AccrueTo | features/tax-estimator/docs/reference-calc/rivera_fixture.py:199-205 | the same for every installment, to a date capped at the return due date, with balances and dates otherwise unchanged |
| PenaltySegments.ItemsGain | features/tax-estimator/docs/reference-calc/rivera_fixture.py:168-181 | accruing a balance from one event to the next keeps the itemization: the segments follow one another without overlap, each is charged on the balance of each of its days at the rate and year length of the day after, ends at the first event, period end or December 31, and every day with a balance is in one |
| PenaltySegments.OneSegmentADay | features/tax-estimator/docs/reference-calc/rivera_fixture.py:168-181 | no day is in two segments |
| PenaltyLedger.Ledger.FallDue | features/tax-estimator/docs/reference-calc/rivera_fixture.py:208-212 | a new installment starts with what an overpayment on hand leaves of it, as in the book, and is paid in full that day iff nothing is left |
| PenaltyBook.InstallmentReflects | features/tax-estimator/docs/reference-calc/rivera_fixture.py:208-212 | each balance, the new one included, is again the part of its installment not covered by the cumulative payments |
| PenaltyLedger.Ledger.Receive | features/tax-estimator/docs/reference-calc/rivera_fixture.py:213-220 | a payment of any sign goes to the earliest unpaid installments and the excess is carried, as in the book; which installments are thereby paid in full, and when |
| PenaltyBook.OverpaidMeansSettled | features/tax-estimator/docs/reference-calc/rivera_fixture.py:208-220 | without negative payments a carried overpayment means that every due balance is zero, and there is no overcharge |
| PenaltyBook.PaymentReflects | features/tax-estimator/docs/reference-calc/rivera_fixture.py:213-220 | after a payment that is not negative each balance is again the part of its installment not covered by the cumulative payments |
| PenaltySchedule.PenaltySchedule | features/tax-estimator/docs/reference-calc/rivera_fixture.py:183-229 | for payments of any sign each row is the interest on its balance and carries the date of the last event that settled it, and the total is the interest on the cumulative shortfall and on the overcharge, which is zero when no negative payment takes back; without negative amounts each row has the interest, final balance and paid-in-full date of its installment as day-by-day functions of the estimate; it fails exactly at a day that is needed and has no rate; the segments of each row are itemized as above between its due date and the return due date, and without negative amounts each is charged on what is unpaid of the installment day by day |
| PenaltyReplay.TotalIsShortfallAndOvercharge | features/tax-estimator/docs/reference-calc/rivera_fixture.py:206-229 | for payments of any sign the penalties of the installments add up to the interest on the shortfall and on the overcharge |
| PenaltySchedule.TotalIsTheShortfall | features/tax-estimator/docs/reference-calc/rivera_fixture.py:213-229 | rows that are right one by one add up to the shortfall formula |
| Estimate.AllocationKeepsTheTotal | features/tax-estimator/docs/reference-calc/rivera_fixture.py:213-229 | allocating payments to the earliest installment never changes the total: it is the price of max(0, required by d - paid by d) over every day d |
| Estimate.PartsMakeTheShortfall | features/tax-estimator/docs/reference-calc/rivera_fixture.py:213-220 | on every day the unpaid parts of the installments add up to the cumulative shortfall |
| Estimate.NothingBeforeTheFirstDueDate | features/tax-estimator/docs/reference-calc/rivera_fixture.py:202-212 | the sum may begin at the first due date |
| Estimate.PaymentDominance | features/tax-estimator/docs/reference-calc/rivera_fixture.py:191-222 | paying at least as much by every date never costs more |
| Estimate.LatePaymentsChangeNothing | features/tax-estimator/docs/reference-calc/rivera_fixture.py:200-200 | payments on or after the return due date change no installment's penalty |
| VoucherSchedule.Vouchers | features/tax-estimator/docs/reference-calc/rivera_fixture.py:252-261 | the carry loop: each voucher needs its installment less withholding less what the earlier ones leave over, and the last is neither short nor over |
| VoucherSchedule.ShortfallIsTheSchedules | features/tax-estimator/docs/reference-calc/rivera_fixture.py:252-265 | with payments on their due dates, the cumulative shortfall of the estimate is the schedule's carry, on every day |
| VoucherSchedule.BalancesAreTheSchedules | features/tax-estimator/docs/reference-calc/rivera_fixture.py:252-265 | without a negative last payment the ledger's balances are that carry |
| VoucherSchedule.OverchargeOfTheLast | features/tax-estimator/docs/reference-calc/rivera_fixture.py:252-265 | what the ledger charges beyond the shortfall, exactly: nothing before the last due date, from then on the smaller of the last voucher's negative need and its negative payment |
| VoucherSchedule.SpuriousInterest | features/tax-estimator/docs/reference-calc/rivera_fixture.py:252-265 | the interest charged beyond that on the shortfall, in closed form |
| VoucherSchedule.LastVoucherSettles | features/tax-estimator/docs/reference-calc/rivera_fixture.py:261-265 | paying the last voucher's need leaves no shortfall on any later day, but balances of what the earlier payments exceed it by: zero if and only if the need is not negative |
| VoucherSchedule.OverpaidFirstOwesAgain | features/tax-estimator/docs/reference-calc/rivera_fixture.py:252-265 | installments of 100 and 100 with 300 paid on the first: the last voucher needs -100, and the first installment owes 100 again |
| ScheduleAI.Columns | features/tax-estimator/docs/reference-calc/scenarios_fixture.py:289-319 | every column is figured by the form's lines, and the required amounts through a column are the closed form |
| ScheduleAI.BelowTheRegularSchedule | features/tax-estimator/docs/reference-calc/scenarios_fixture.py:308-319 | the closed form is between zero and the regular schedule and never falls |
| ScheduleAI.FullRecapture | features/tax-estimator/docs/reference-calc/scenarios_fixture.py:337-337 | the columns recapture the whole required annual payment if and only if the last column's line 21 reaches it, and the installments add up to what the columns require |
| ScheduleAI.AnnualizingNeverCostsMore | features/tax-estimator/docs/reference-calc/scenarios_fixture.py:308-319 | with the same payments the penalty on Schedule AI installments is never above the one on regular installments |
| SelfEmploymentTax.PartIIMatchesTheReturn | features/tax-estimator/docs/reference-calc/scenarios_fixture.py:297-304 | line 17 equals the annualized return's total if and only if the period's and the year's net earnings are on the same side of the minimum; below it Part II is zero |
| SelfEmploymentTax.SocialSecurityStopsAtTheWageBase | features/tax-estimator/docs/reference-calc/scenarios_fixture.py:122-124 | a further dollar of earnings bears both rates below the wage base left by wages and Medicare alone above it |
| SelfEmploymentTax.WagesUseTheBase | features/tax-estimator/docs/reference-calc/scenarios_fixture.py:116-124 | wages use up the wage base first: only what they leave of it bears Social Security, and all net earnings bear Medicare |
| SelfEmploymentTax.SeTaxScales | features/tax-estimator/docs/reference-calc/scenarios_fixture.py:116-124 | tax on scaled earnings against scaled room is the scaled tax |
| SelfEmploymentTax.SmallQuarterDropsTheTax | features/tax-estimator/docs/reference-calc/scenarios_fixture.py:297-304 | a quarter of $420 loses $237.38 of tax with the 2026 figures |
| BracketTax.Marginal | features/tax-estimator/docs/reference-calc/state_brackets_fixture.py:52-58 | the loop over lower ends computes the schedule's tax |
| BracketTax.BracketTax | features/tax-estimator/docs/reference-calc/scenarios_fixture.py:94-99 | the loop over upper ends computes the tax of the same schedule written by lower ends |
| BracketTax.LayersAreTax | features/tax-estimator/docs/reference-calc/state_brackets_fixture.py:52-58 | a schedule's tax is the sum, over its steps, of the rate increment on the income above the step |
| BracketTax.TaxMonotone | features/tax-estimator/docs/reference-calc/scenarios_fixture.py:94-99 | tax never falls with income |
| BracketTax.TaxConvex | features/tax-estimator/docs/reference-calc/scenarios_fixture.py:94-99 | on a progressive schedule the tax on a further amount never falls as income grows |
| CapitalGains.PortionsAreBands | features/tax-estimator/docs/reference-calc/scenarios_fixture.py:106-112 | the worksheet's portions are non-negative, add up to the income, and are the parts of the preferential stack in each band |
| CapitalGains.WorksheetStacks | features/tax-estimator/docs/reference-calc/scenarios_fixture.py:101-113 | the worksheet amount is the ordinary tax plus the preferential schedule between ordinary and total income |
| CapitalGains.TaxGrowsWithIncome | features/tax-estimator/docs/reference-calc/scenarios_fixture.py:101-114 | for fixed preferential income the tax never falls with taxable income |
| CapitalGains.WithoutPreference | features/tax-estimator/docs/reference-calc/scenarios_fixture.py:106-107 | without preferential income the worksheet is the ordinary tax |
| CapitalGains.BucketsPartition | features/tax-estimator/docs/reference-calc/state_brackets_fixture.py:62-76 | the six buckets of the Schedule D worksheet are non-negative and add up to taxable income |
| CapitalGains.SpecialGains | features/tax-estimator/docs/reference-calc/state_brackets_fixture.py:65-75 | the 0, 15 and 20% buckets hold the income up to the dividends and the net gain that is of neither special kind; the special gain fills ordinary brackets up to line 19, and of what is left 25% takes the unrecaptured gain and 28% the rest |
| CapitalGains.ScheduleDStacks | features/tax-estimator/docs/reference-calc/state_brackets_fixture.py:62-76 | line 45 is the short worksheet on the income and gain the special rates leave, plus 25% of the one kind and 28% of the other |
| CapitalGains.BothKindsInFull | features/tax-estimator/docs/reference-calc/state_brackets_fixture.py:141-142 | the buckets of the second scenario of the reference calculation |
| CapitalGains.SpecialRatesBounded | features/tax-estimator/docs/reference-calc/state_brackets_fixture.py:65-75 | the 25% bucket is no more than the unrecaptured gain, the 28% bucket no more than the collectibles gain, and both together no more than the net gain |
| CapitalGains.ScheduleDIsTheShortWorksheet | features/tax-estimator/docs/reference-calc/state_brackets_fixture.py:62-76 | without collectibles and unrecaptured gain its buckets and tax are those of the short worksheet |
| CapitalGains.MoreSpecialGainIsExact | features/tax-estimator/docs/reference-calc/state_brackets_fixture.py:62-76 | for fixed income and net gain, more collectibles or unrecaptured gain within the net gain never lowers the tax if and only if, up to line 19, what ordinary rates cost more than preferential ones never dips |
| CapitalGains.JointTableDips | features/tax-estimator/docs/reference-calc/state_brackets_fixture.py:48-50 | the 2025 joint table dips: $250 of collectibles gain lowers the tax by $7.50 |
| CapitalGains.BeyondTheNetGain | features/tax-estimator/docs/reference-calc/state_brackets_fixture.py:69-75 | once both kinds make up the net gain, more unrecaptured gain moves gain from 28% to 25%, and the tax falls exactly when any moves and the tax then is below the one at ordinary rates |
| QbiDeduction.BetweenTheLimits | features/tax-estimator/docs/reference-calc/scenarios_fixture.py:145-149 | the component is between the smaller of tentative amount and wage limit, and the tentative amount |
| QbiDeduction.PhaseInIsEven | features/tax-estimator/docs/reference-calc/scenarios_fixture.py:139-149 | equal steps through the range take equal parts of the excess over the wage limit, from none at its start to all at its end |
| QbiDeduction.PhaseInIs | features/tax-estimator/docs/reference-calc/scenarios_fixture.py:140-141 | the phase-in is zero up to the threshold, one from a range above it, and even in between |
| QbiDeduction.WhichWageLimit | features/tax-estimator/docs/reference-calc/scenarios_fixture.py:147-147 | the wage limit is the larger share of the wages alone, raised by what the share of the property exceeds the part of the wages given up for it |
| QbiDeduction.OutsideTheRange | features/tax-estimator/docs/reference-calc/scenarios_fixture.py:141-149 | up to the threshold the component is the rate on positive income for either kind of business; above the range it is the smaller of that and the wage limit, and nothing for a service business |
| QbiDeduction.JointFigures | features/tax-estimator/docs/reference-calc/scenarios_fixture.py:66-67 | a joint return with the 2026 figures: the two wage limits, the component halfway through the range and beyond it |
| QbiDeduction.ServiceIsAShare | features/tax-estimator/docs/reference-calc/scenarios_fixture.py:140-149 | a service business gets exactly the share not phased out of what the same business would get otherwise |
| QbiDeduction.MoreIncomeNeverRaisesIt | features/tax-estimator/docs/reference-calc/scenarios_fixture.py:136-149 | the component never rises with taxable income |
| CorporateInstallments.NextBusinessDay | features/tax-estimator/docs/reference-calc/scenarios2_fixture.py:81-84 | the loop ends for every finite holiday set at the first open day |
| CorporateInstallments.RollingIsMonotone | features/tax-estimator/docs/reference-calc/scenarios2_fixture.py:81-84 | rolling keeps the order of dates and does nothing to an open day |
| CorporateInstallments.LaterMonthIsLater | features/tax-estimator/docs/reference-calc/scenarios2_fixture.py:110-111 | a later month of the taxable year has a later statutory date, across year ends |
| CorporateInstallments.MonthLengths | features/tax-estimator/docs/reference-calc/scenarios2_fixture.py:110-111 | the day numbers give every month its calendar length and fill the year |
| CorporateInstallments.KnownDates | features/tax-estimator/docs/reference-calc/scenarios2_fixture.py:110-111 | the 15ths of five months by their ordinals, in a calendar year, across a fiscal year end and in a leap year |
| CorporateInstallments.WeekdaysFollow | features/tax-estimator/docs/reference-calc/scenarios2_fixture.py:81-84 | the days of the week follow one another, and April 15, 2026 is a Wednesday |
| CorporateInstallments.SaturdayMoves | features/tax-estimator/docs/reference-calc/scenarios2_fixture.py:81-84 | August 15, 2026 moves to Monday, and past a holiday on Monday to Tuesday |
| CorporateInstallments.Installments | features/tax-estimator/docs/reference-calc/scenarios2_fixture.py:101-122 | required and cumulative amounts of every installment in closed form, with the large corporation's first reduction recaptured in the second, and due dates rolled from the 15th of their months |
| CorporateInstallments.InstallmentsAddUp | features/tax-estimator/docs/reference-calc/scenarios2_fixture.py:101-122 | they add up to the required annual payment, except exactly for a single installment of a large corporation with a smaller prior year |
| CorporateInstallments.DueDatesInOrder | features/tax-estimator/docs/reference-calc/scenarios2_fixture.py:109-112 | the rolled due dates are in order for every start month and holiday set |
| IdempotencySafety.EveryRunKeeps | packages/api/src/services/idempotency.service.ts:151-202 | the protocol's invariant holds after every interleaving of requests, transactions, settlements, expiries and sweeps |
| IdempotencySafety.InsertRowKeeps | packages/api/src/services/idempotency.service.ts:175-197 | the insert of a claim keeps it, whatever was committed since the lookup |
| IdempotencySafety.CommitKeeps | packages/api/src/services/idempotency.service.ts:186-198 | so does the commit that makes the posting and its key row visible |
| IdempotencyTheorems.OneOfTwoExpired | packages/api/src/middleware/idempotent.ts:20-30 | of any two postings of one key at least one has outlived its 24 hours |
| IdempotencyTheorems.NoSecondPosting | packages/api/src/middleware/idempotent.ts:20-44 | while a posting is live no continuation without an expiry commits another |
| IdempotencyTheorems.OnePostingPerWindow | packages/api/src/middleware/idempotent.ts:20-44 | a run without an expiry posts at most once |
| IdempotencyTheorems.RetryNeverRunsAgain | packages/api/src/middleware/idempotent.ts:157-165 | a request arriving while a posting is live is answered before its handler: for the same hash by what a retry of that row may be sent, for another by 422 |
| IdempotencyTheorems.FailureAfterCommitIsReplayed | packages/api/src/middleware/idempotent.ts:213-228 | a request that fails while a posting of its hash is live, its own or a concurrent attempt's, answers with what a retry of that posting's row may be sent |
| IdempotencyTheorems.RefusedUnlessPostedOrBug | packages/api/src/middleware/idempotent.ts:213-230 | in every reachable state a refused request is replayed, by what a retry of the live row may be sent, if and only if the second lookup works and its hash has a live posting or the live record of a route bug; otherwise it gets its own error |
| IdempotencyProgress.FreeKeyPosts | packages/api/src/services/idempotency.service.ts:151-198 | when nothing stands in its way a claim goes through, and its commit makes the posting and the live key row visible together |
| IdempotencyProgress.HeldKeyRefuses | packages/api/src/services/idempotency.service.ts:159-161 | until the transaction that holds the lock ends, in every continuation it keeps it, no other transaction checks, inserts or has claimed, nothing is posted, and a claim that asks for the lock is refused |
| IdempotencyReplays.AnsweredRowStays | packages/api/src/services/idempotency.service.ts:263-318 | in every continuation without an expiry the row of an answered request stays, live and its own; it is unchanged unless a route bug of its hash is stored in it, and then it holds an error |
| IdempotencyReplays.RetryIsToldASuccess | packages/api/src/middleware/idempotent.ts:157-165 | after any such continuation a retry of an answered success is told a success if and only if no route bug of its hash was stored meanwhile, or one whose error was not kept |
| IdempotencyReplays.SuccessComesBack | packages/api/src/middleware/idempotent.ts:202-212 | after any continuation in which the row neither expires nor is rewritten, a settled success with a stored body comes back with its status, read afresh if and only if the route replays live, has a reader that works and the row names the record; without a stored body the reader answers with the success status of the request that posted, and the minimal reply is 200 |
| IdempotencyReplays.PostingIsTold | packages/api/src/middleware/idempotent.ts:99-123 | wherever a run stands, also when the process died between commit and answer, a retry of a live posting is told what its row holds, with the success status of the request that posted |
| IdempotencyReplays.BugComesBack | packages/api/src/services/idempotency.service.ts:290-318 | a stored route bug comes back with its status and body for as long as its row stays, or as a success when the body was not stored |
| IdempotencyReplays.OwnAnswerIsSent | packages/api/src/middleware/idempotent.ts:178-233 | a handler's answer is sent with its own status, stored or not, claimed or not; only a success after a route bug becomes 500 |
| IdempotencyReplays.PostAndRetry | packages/api/src/middleware/idempotent.ts:157-212 | a request that finds the key free posts once; in every continuation without an expiry there is still that one posting, and a retry is told the status answered, read afresh where the route asks for it, unless a route bug of the hash was stored meanwhile |
| IdempotencyTheorems.ReplaysMatchTheRequest | packages/api/src/middleware/idempotent.ts:99-123 | every replay is what may be sent for a row of the request's own hash that stands for a posting or a route bug |
| IdempotencyTheorems.RouteBugsNeverSucceed | packages/api/src/middleware/idempotent.ts:185-201 | a request that hit a route bug never answers 2xx |
| IdempotencyRouteBugs.SecondClaimNeverSucceeds | packages/api/src/services/idempotency.service.ts:132-157 | a claim in a second transaction or a savepoint makes the request fail for good: in every continuation it never answers 2xx |
| IdempotencyRouteBugs.NothingClaimsAfterABug | packages/api/src/services/idempotency.service.ts:151-154 | no transaction a request begins after its route bug ever claims the key |
| IdempotencyReplays.WhoChangesTheRow | packages/api/src/services/idempotency.service.ts:267-318 | in every reachable state the key row changes only by expiry, the sweep of an expired row, the commit of a claim, its own request's settlement, or the store of a route bug by any request of its hash; and as long as it holds no error, under each of these guards it does |
| IdempotencyReplays.ForeignBugRewrites | packages/api/src/services/idempotency.service.ts:290-318 | the run in which one request posts and answers 201, another of the same hash stores its route bug over that row, and a retry is told 500 |
| IdempotencyTheorems.UnguardedOnlyAfterTheAnswer | packages/api/src/services/idempotency.service.ts:151-153 | a claim is skipped only for a request that has answered |
| IdempotencyTheorems.BugRowReplay | packages/api/src/middleware/idempotent.ts:100-122 | a stored route bug replays as a success if and only if its body was not stored |
| IdempotencyTheorems.ReplayedSuccessWasPosted | packages/api/src/services/idempotency.service.ts:290-318 | when every error has a storable body, each replayed success stands for a committed posting of the same hash |
| IdempotencyTheorems.UnstoredErrorReplaysAsSuccess | packages/api/src/services/idempotency.service.ts:298-318 | the run that breaks this otherwise: nothing is posted, and the retry is told a success exactly when the error's body was not stored |
| RotatingLog.SafeRotationKeepsASuffix | packages/api/src/desktop/log-tee.ts:47-64 | a rotation that fails anywhere leaves a suffix of the log as long as no file is overwritten while an older one may survive it; when none is overwritten it loses the oldest file and nothing else |
| RotatingLog.WhereFilesGo | packages/api/src/desktop/log-tee.ts:56-61 | for every disk and every combination of failures: the file a name holds after the renames, by the names they were able to move |
| RotatingLog.WhenAllIsWell | packages/api/src/desktop/log-tee.ts:56-61 | when nothing fails every file but the oldest is under the next name and the log file's name is free |
| RotatingLog.WhenTheLogStays | packages/api/src/desktop/log-tee.ts:56-63 | the log file stays, unchanged, exactly when it is there and the removal, its own rename or a rename before it fails |
| RotatingLog.SafetyIsExact | packages/api/src/desktop/log-tee.ts:47-64 | for every combination of failures: the log keeps a suffix on every disk if and only if that holds |
| RotatingLog.LosslessIsExact | packages/api/src/desktop/log-tee.ts:47-64 | for every combination of failures: a rotation loses the oldest file and nothing else on every disk if and only if no existence check fails for a name whose lower neighbour moves |
| RotatingLog.HonestRotationsAreLossless | packages/api/src/desktop/log-tee.ts:47-64 | checks that tell the truth are enough for that, and with two kept files any checks keep a suffix |
| RotatingLog.OlderFileSurvives | packages/api/src/desktop/log-tee.ts:56-64 | the disk on which the overwritten file leaves a gap in the middle of the log |
| RotatingLog.DishonestRotationOverwrites | packages/api/src/desktop/log-tee.ts:58-60 | the disk on which a false answer overwrites a file that should have been kept |
| RotatingLog.RotatingFileSink.constructor | packages/api/src/desktop/log-tee.ts:29-69 | opening the sink changes nothing in the log |
| RotatingLog.RotatingFileSink.Rotate | packages/api/src/desktop/log-tee.ts:47-67 | file by file where everything is after a rotation, whatever fails in it: which name each file has, exactly when the log file stayed, and the empty one that takes its place; names beyond the oldest are never touched, and a safe rotation keeps a suffix of the log |
| RotatingLog.RotatingFileSink.Write | packages/api/src/desktop/log-tee.ts:71-81 | what is appended, and that the files oldest first are a suffix of everything written as long as each rotation was safe; while rotations move the log file away, exactly when is stated, a file the sink started is at most the larger of the limit and its largest write |
| EgressGuard.Guard.Sync | packages/api/src/desktop/egress-guard.ts:462-466 | the list in force becomes the static entries followed by the features' lists |
| EgressGuard.Guard.SetAllowance | packages/api/src/desktop/egress-guard.ts:493-498 | replaces one feature's list by one entry per target, in order, or throws, exactly for a reserved source or an unusable target, and changes nothing |
| EgressGuard.Guard.Install | packages/api/src/desktop/egress-guard.ts:575-582 | throws exactly when the setting does not parse, one of its targets is unusable, or the first installation cannot patch, and then leaves the list in force; otherwise every configured target is an entry and is let through online; the offline setting is fixed by the first installation |
| EgressGuard.Guard.IsAllowed | packages/api/src/desktop/egress-guard.ts:180-188 | the loop decides by the entries in force, offline by the database's alone |
| EgressGuard.SetAllowanceKeeps | packages/api/src/desktop/egress-guard.ts:477-498 | setting a list throws exactly for a reserved source or an unusable target; afterwards the source has one entry per target, or none is left of it for an empty list, and no other source's list changes |
| EgressGuard.ToEntriesIsAll | packages/api/src/desktop/egress-guard.ts:477-498 | targets are taken all or none: if and only if each is usable, one entry per target, in order, with the normalized host, the port and the source |
| EgressGuard.NamedTargetsPass | packages/api/src/desktop/egress-guard.ts:180-188 | after a call that does not throw every target it named is let through online, under any spelling of its host, on its port |
| EgressGuard.OfflineIsTheDatabaseAlone | packages/api/src/desktop/egress-guard.ts:180-188 | offline, no feature's and no configured entry can change a decision |
| EgressGuard.OnlineIsStaticOrAFeature | packages/api/src/desktop/egress-guard.ts:180-188 | online, a destination is allowed exactly when a static entry or some feature's current list matches it |
| SecretRegistry.RegisterKeeps | packages/api/src/desktop/session-secrets.ts:72-80 | at most 64 different values stay registered, the new one among them, and no stored one is dropped |
| SecretRegistry.RegisterKeepsScrubbed | packages/api/src/desktop/session-secrets.ts:72-80 | a stored value, and the new one, stay scrubbed if and only if they are not the escaped form of the value that is evicted |
| SecretRegistry.RegisterPairs | packages/api/src/desktop/session-secrets.ts:72-80 | every scrubbed value is scrubbed as it is and JSON-escaped, through registrations and evictions |
| SecretStore.Store.RegisterSessionValue | packages/api/src/desktop/session-secrets.ts:72-80 | the eviction loop computes the registry's specification |
| SecretStore.Store.SetOllamaBaseUrl | packages/api/src/desktop/session-secrets.ts:230-240 | the store is written before the guard is asked, also when the guard throws |
| SecretStore.Store.AllowSmtpEgress | packages/api/src/desktop/session-secrets.ts:263-291 | which checks refuse, and that a refusal changes nothing |
| SecretStore.Store.DeleteSessionSecret | packages/api/src/desktop/session-secrets.ts:297-314 | the value, its companion and its allowance go together |
| SessionSecrets.SmtpKeeps | packages/api/src/desktop/session-secrets.ts:263-291 | a mail server is recorded exactly when clear text is only to the owner's network and, unless it is on this machine, its port is a mail port, it passes the host check and the guard takes it; a refusal changes nothing |
| SessionSecrets.EveryRunAgrees | packages/api/src/desktop/session-secrets.ts:181-314 | after every interleaving of the setters: a cloud host is allowed iff its key is stored, the mail server iff a non-loopback one is recorded, the registry holds every stored secret, a model name is kept only with a URL, the list in force is synced; and the model server's allowance is its stored URL's target iff the URL set last is one the guard takes |
| SessionSecrets.RefusedTargetKeepsTheOldHost | packages/api/src/desktop/session-secrets.ts:230-240 | a URL with an unusable target is stored although the call throws, and the old allowance stays |
| SessionSecrets.OnlyWhatTheOwnerNamed | packages/api/src/desktop/session-secrets.ts:15-23 | online, after every run, a destination is let through exactly when it is always allowed, configured, named by the owner in this session, or another feature's |
| SessionSecrets.OfflineIgnoresTheSession | packages/api/src/desktop/egress-guard.ts:180-188 | offline, after every run, the session plays no part |
| SessionSecrets.ForgettingClosesEverything | packages/api/src/desktop/session-secrets.ts:317-319 | dropping the four names leaves no secret and no session allowance, and keeps the scrubber's registrations |
| SessionSecrets.EveryRunScrubs | packages/api/src/desktop/session-secrets.ts:66-80 | through every run each stored secret that is long enough is scrubbed if and only if no step evicts a value of which a stored secret is the escaped form |
| SessionSecrets.StoredKeyIsUncovered | packages/api/src/desktop/session-secrets.ts:66-80 | the run that breaks it: 63 changes of a key whose escaped form is another stored key leave that one unscrubbed |
| SessionSecrets.EveryRunPairs | packages/api/src/desktop/session-secrets.ts:66-80 | when the spellings of different secrets differ, each scrubbed secret is scrubbed in both its spellings, through every run |
| RateLimiter.Limiter.CheckRateLimit | packages/api/src/mcp/rate-limiter.ts:21-38 | the new buckets, whether the call is allowed, and the seconds to wait |
| RateLimiter.ShortestWait | packages/api/src/mcp/rate-limiter.ts:31-34 | the advertised seconds are the fewest after which the bucket's end is reached |
| RateLimiter.Limiter.Sweep | packages/api/src/mcp/rate-limiter.ts:41-46 | the deletion while iterating computes the swept map |
| RateLimiter.SweptIs | packages/api/src/mcp/rate-limiter.ts:41-46 | the swept map holds exactly the buckets whose end is at most a minute past, each in its place |
| RateLimiter.StepFinds | packages/api/src/mcp/rate-limiter.ts:10-46 | what one event does to any key's bucket: a check counts, refuses or starts it anew, another key's check drops it exactly when it is the oldest of a full map and a new bucket is made, and nothing else touches it while it is live |
| RateLimiter.EveryRunIsOk | packages/api/src/mcp/rate-limiter.ts:10-46 | over every run the map is within its cap and no bucket has let through more than the maximum |
| RateLimiter.AdmittedWithinAWindow | packages/api/src/mcp/rate-limiter.ts:21-46 | any 60,000 ms admit at most 2 max - 1 calls, plus max for each time the bucket was dropped while live |
| RateLimiter.TwiceTheLimitLessOne | packages/api/src/mcp/rate-limiter.ts:21-46 | the bound for runs from the start whose bucket is not dropped while live |
| RateLimiter.TheBoundIsReached | packages/api/src/mcp/rate-limiter.ts:21-38 | for every maximum some run admits 2 max - 1 calls one millisecond apart |
| RateLimiter.WaitingAsTold | packages/api/src/mcp/rate-limiter.ts:31-34 | after the advertised wait the caller is let through unless the wait was a whole number of seconds |
| JsonArrayCap.CountArrayElements | packages/api/src/middleware/json-array-cap.ts:27-44 | the walk with its own stack returns the exact recursive total, or stops early with a number above the cap and no more than the total |
| JsonArrayCap.ElementOrMember | packages/api/src/middleware/json-array-cap.ts:27-44 | everything in a body but the body itself is counted as an element of an array or is the value of an object |
| JsonArrayCap.EveryArrayCounts | packages/api/src/middleware/json-array-cap.ts:27-44 | an array counts wherever it stands, in arrays and under keys, at any depth |
| JsonArrayCap.Refuses | packages/api/src/middleware/json-array-cap.ts:46-57 | a body is refused exactly when it carries more elements than the cap |
| RouteExpansion.Expansion.WalkRouter | packages/api/src/openapi/recorder.ts:279-355 | the walk that pushes to its collections computes the recursive expansion, chains included |
| RouteExpansion.HandlersAnswer | packages/api/src/openapi/recorder.ts:336-338 | a route's part of a chain holds exactly the handlers given for its method or for every method, each registration's once and in registration order |
| RouteExpansion.ApplicableApplies | packages/api/src/openapi/recorder.ts:283-285 | the part above it holds exactly the middleware mounted so far whose path applies, each once and in mounting order |
| RouteExpansion.VerbsInOrder | packages/api/src/openapi/recorder.ts:317-326 | a route's methods are those its registrations are for, each once, in alphabetical order |
| RouteExpansion.SameCallListsTwice | packages/api/src/openapi/recorder.ts:301-310 | middleware given in the same call as a router is in its operations' chains twice |
| RouteExpansion.OwnCallListsOnce | packages/api/src/openapi/recorder.ts:301-310 | in a call of its own, once |
| RouteChains.WalkRecordsWhatRuns | packages/api/src/openapi/recorder.ts:73-79 | over the whole walk, each operation's recorded chain is the one said to run (the middleware of every router on the way that applies to its path, outermost first, then its handlers) if and only if no router on the way has middleware in front of it in its own `use` call and none has middleware mounted below its path; only an operation with both may be right by chance |
| RouteChains.WalkCollects | packages/api/src/openapi/recorder.ts:325-349 | over the whole tree, in order: an operation with an HTTP method and a path that converts is recorded when it is first met, with its method, its Express path, the converted path and its chain; it is shadowed when met again, and everything else is skipped |
| RouteChains.ListIsEachPath | packages/api/src/openapi/recorder.ts:288-300 | an entry on a list of paths is the same as one entry for each of them, in order; without a readable path it is skipped once |
| RouteChains.BothMistakesMayCancel | packages/api/src/openapi/recorder.ts:73-79 | that chance: a function missed below the mount and listed twice at it |
| RouteChains.MiddlewareBelowTheMountIsMissed | packages/api/src/openapi/recorder.ts:283-302 | middleware mounted on a path below a router's, before the router, is missing from the chains of the operations it applies to |
| RouteCounts.Collect | packages/api/src/openapi/recorder.ts:269-359 | no operation is recorded twice, every shadowed one is recorded, and the collection accounts for exactly what the tree expands to |
| RouteCounts.NeverFewer | packages/api/src/openapi/recorder.ts:369-399 | where nothing is hidden the expansion accounts for no fewer operations than the stack counts, and for as many iff no list of paths repeats one |
| RouteCounts.NeverMore | packages/api/src/openapi/recorder.ts:369-399 | where paths are single it accounts for no more, and for as many iff no pattern and no `all` beside other methods hides one |
| RouteCounts.CountsDiffer | packages/api/src/openapi/recorder.ts:369-399 | on every tree the expansion's count and what is hidden from it are the stack's count and what lists of paths repeat, so the two agree iff as much is hidden as repeated |

## Left out

- Python's floats and the rounding of reported fields: all arithmetic is on exact reals and the properties are about the unrounded values.
- The 2026 dollar amounts, the scenario drivers, the whole Form 1040 calculation and the state, farmer and passive-loss fixtures: fixed sequences of additions, minimums and table look-ups without loops or state.
- PenaltySchedule.PenaltySchedule: what the source reports as still unpaid at the return due date is its balance after all events, and is stated so.
- The bare number the capital-gain worksheet returns without preferential income: the model returns the tax.
- ScheduleAI.Columns: the line 21 amounts are inputs; the annualized returns behind them are not part of this model.
- CorporateInstallments.Installments: whether a corporation is large and what its two yearly amounts are come as inputs; the $500 minimum, the state rows and the range of the calendar library are left out.
- QbiDeduction.MoreIncomeNeverRaisesIt: for a service business the tentative amount and the wage limit must not be negative.
- Idempotency: one user and key; the request hash is a number; headers, details of the 422, redaction, the bodies routes read for a replay, and what an action does besides claiming are left out. A savepoint that is rolled back by itself is not modelled apart from its transaction.
- IdempotencyTheorems.RouteBugsNeverSucceed: about answers sent through res.json, the only ones the middleware sees.
- RotatingLog.RotatingFileSink.Write: at least one kept file and a positive limit, as the desktop profile guarantees (packages/api/src/desktop/profile.ts:125-131); redaction and the tee of the console are left out, and nobody else changes the files.
- Egress guard: patching, DNS, sockets, workers and the parsing and comparison of host names, which are parameters of the model.
- Session secrets: the validation of URLs and hosts (a parameter answers for it), white space around a host or model name, and fingerprints. Nothing ties a recorded mail server to a stored password; the source does not either.
- SessionSecrets.EveryRunAgrees: an installation of the guard that throws is not a step of a run, since start-up ends with it.
- RateLimiter.AdmittedWithinAWindow: time is whole milliseconds given to each event; the events of the stretch need only lie within one interval.
- JsonArrayCap.CountArrayElements: object keys and scalar values are not represented.
- Routes: prototype patching, joining of path strings, and the conversion to document form are parameters; arrays of functions are flat, and two registrations of one method in a route are one.
- RouteChains.WalkRecordsWhatRuns: what runs is taken from the routers an operation is in; middleware inside an earlier router on the same path, which Express enters and leaves without an answer, is not counted. That what applies at a path applies below it is a condition on the path functions.
- The other services of the engine, the web application and the queue adapters.
