# Rent-vs-buy projection and What-If sweep, in Dafny

This project models the calculation core of a rent-versus-buy calculator.
The calculator projects, year by year, what a buyer and a renter are worth.

- The buyer pays an annuity mortgage, owns a home that appreciates, and sells it at the end, paying capital-gains tax.
- The renter invests the down payment in stocks. Each year the renter also invests whatever the buyer spends beyond the rent.
- Both sides are also expressed in today's money. The *premium* of a year is the renter's real value less the buyer's.

There are two calculators:

- `RentBuyCalculator.calculateAll` of the React application (src/utils/calculator.js). It has a configurable closing cost, a 37.1% capital-gains rate above a $500,000 exclusion measured from the purchase price, and federal and California mortgage-interest deductions.
- The older `calculateAll` of the plain-HTML pages (calculator.js). It uses a fixed 3% sale cost, measures the gain from the reassessed value, taxes it at 33%, taxes the portfolio at 36.8%, and has no deductions.

Both build a year-1 row from the inputs, then run a loop for years 2 to `maxYears` that carries the previous year's values forward and pushes one value onto each of 21 parallel arrays.

- The model states each calculator twice:
  - a specification function `Row(inp, k)` for year k + 1, with `Projection(inp)` holding the first `RowCount(inp)` rows;
  - the imperative `CalculateAll` method, with the source's `previous*` locals and pushes, proved equal to `Projection`.
- Lemmas then prove what the projection promises:
  - the loan follows the amortization schedule and stays paid off;
  - prices and rent compound;
  - the renter's invested total is a running sum;
  - the real columns are the nominal ones deflated;
  - the two calculators agree where they should.

There are also two What-If sweeps. Each fills a heatmap whose axes vary two of mortgage rate, home price, down payment and investing horizon:

- `WhatIfAnalysis` of the React application (src/utils/whatif.js), which uses the React calculator;
- `WhatIfAnalysis` of the HTML pages (whatif.js), which uses the older calculator. It has step-count ranges, a down-payment percentage, and scenarios that are rounded, derived and range-checked. It fills a preallocated matrix from a flat list of items, and counts the verdicts.

Each cell runs the projection on its own scenario. It reads the first year that reaches the scenario's investing horizon, and says "rent" exactly when the renter is ahead there.

Amounts are Dafny `real`s. Where the code's JavaScript numbers turn NaN, a small `Number = Num(real) | NaN` type (module `JsNumber`) carries the NaN. Those places are:

- a 0/0 payment at a zero mortgage rate;
- a 0/0 range step;
- an undefined reassessment rate.

Reading the form fields becomes a parameter.

Two behaviours of the code shape the model:

- Neither calculator guards a zero rate: the PMT quotient (src/utils/calculator.js:285, calculator.js:253) is 0 / 0 there. The sweeps reach that NaN, and it is modelled there.
- A projection has `RowCount` rows: year 1 always, then the years 2, 3, … while `year <= maxYears`. A fractional horizon therefore gives its whole years, and a horizon below 2 gives one row (ScenarioInputs.RowCountByHorizon).

Files:

- `numeric.dfy`: Math.max/min/pow/round and the compounding helpers.
- `js_number.dfy`: JavaScript numbers with NaN.
- `scenario_inputs.dfy`: the input record and the `maxYears` rule.
- `amortization.dfy`: the PMT formula and the loan schedule.
- `results.dfy`: the 21 result arrays, the horizon search and the verdict.
- `calculator.dfy`: the React calculator.
- `projection_properties.dfy`: its properties.
- `legacy_calculator.dfy`: the older calculator.
- `whatif.dfy`: the React sweep.
- `legacy_whatif.dfy`: the HTML sweep.

## Model

| member | source | states |
|---|---|---|
| Numeric.Round | whatif.js:536-537 | Math.round lands within half a unit of its argument, rounding halves up |
| JsNumber.Quotient | whatif.js:370 | a quotient is a number exactly when the divisor is nonzero; 0 / 0 is NaN; a number result times the divisor gives back the dividend |
| JsNumber.Max | calculator.js:116 | Math.max is NaN as soon as one argument is NaN, and otherwise the larger argument |
| ScenarioInputs.RowCount | src/utils/calculator.js:155-157 | the projection has at least one row (year 1 is always emitted), and exactly the whole years up to maxYears |
| ScenarioInputs.RowCountByHorizon | src/utils/calculator.js:155 | a horizon of 0 means absent and gives loanTerm + 10 years; a horizon of 1 or more gives its whole years; a horizon below 2 gives the single year-1 row |
| Amortization.YearlyPaymentIsPmt | src/utils/calculator.js:74-75 | 12 times the monthly payment is the annual PMT annuity L·r·(1+r)^n / ((1+r)^n − 1) |
| Amortization.Pmt | src/utils/calculator.js:285 | defines the PMT annuity L·r·q / (q − 1); PmtExceedsInterest, PaymentRetiresLoan and PmtOfNoLoan state its properties |
| Amortization.MonthlyPayment | src/utils/calculator.js:274-293 | defines `calculateMonthlyPayment`, the annual PMT over 12; YearlyPaymentIsPmt states its value |
| Amortization.PaymentDefinedIff | src/utils/calculator.js:285 | for a nonnegative rate the PMT formula is defined exactly when the rate is positive and the term is at least a year; there is no zero-rate guard |
| Amortization.BalanceFollowsSchedule | src/utils/calculator.js:285 | paying the annuity k times leaves the closed-form scheduled balance |
| Amortization.PaymentRetiresLoan | src/utils/calculator.js:285 | after loanTerm annual payments the balance is exactly 0 |
| Amortization.ScheduledBalanceBounds | src/utils/calculator.js:285 | at a positive rate the scheduled balance runs from the loan down to 0 and stays within those bounds |
| Amortization.PmtExceedsInterest | src/utils/calculator.js:285 | the annual payment exceeds a year's interest by loan·r / ((1+r)^n − 1) |
| Amortization.PaymentCoversInterest | src/utils/calculator.js:285 | at a positive rate the yearly payment covers a year's interest on the loan, strictly when there is a loan |
| Results.PushReadsBack | src/utils/calculator.js:214-234 | pushing a year onto all 21 arrays keeps them in lockstep, appends that year and leaves earlier years unchanged |
| Results.ColumnsReadBack | src/utils/calculator.js:214-234 | pushing a list of years one by one leaves the arrays in lockstep, holding each year at its position |
| Results.YearNumbers | src/utils/calculator.js:133 | the years column is 1, 2, …, n |
| Results.HorizonIndex | src/utils/whatif.js:174-175 | the index is the first year reaching the horizon, or the last index when no year does |
| Results.HorizonIndexOfYears | whatif.js:466-472 | over years 1..n, a horizon up to 1 picks year 1, a horizon beyond n picks the last year, and one in between picks the year that rounds it up |
| Results.Recommend | src/utils/whatif.js:177 | the verdict is 'rent' exactly when the difference is positive |
| Calculator.CapitalGain | src/utils/calculator.js:87 | the gain is max(0, selling price − purchase price): nonnegative, and either 0 or the excess over the price |
| Calculator.CapitalGainsTax | src/utils/calculator.js:89-90 | the tax is nonnegative, 0 exactly when the gain is within the $500,000 exclusion, and 37.1% of the excess otherwise |
| Calculator.EndOfYearLoan | src/utils/calculator.js:170 | the end-of-year loan is nonnegative; it is either 0 or exactly loan + interest − payment, and the latter whenever that is nonnegative |
| Calculator.DeflateUndoesInflation | src/utils/calculator.js:172 | compounding a year's real value at the inflation rate gives back the nominal value |
| Calculator.FirstYearDeductible | src/utils/calculator.js:99-100 | the year-1 deductible interest is the whole interest up to the loan cap, is scaled by cap/loan above it, and for a negative loan (a down payment above the price) satisfies d · loan = interest · cap |
| Calculator.DeductibleInterest | src/utils/calculator.js:178-184 | from year 2, no loan means nothing deductible; the whole interest is deductible up to the cap and is scaled by cap/loan above it; the deductible part never exceeds the interest |
| Calculator.FederalSavings | src/utils/calculator.js:188-189 | the federal saving is nonnegative, 0 exactly when interest plus the SALT cap is within the standard deduction, and otherwise (interest + SALT cap − standard deduction) · 23.8% |
| Calculator.CaliforniaSavings | src/utils/calculator.js:193-194 | the California saving is nonnegative, 0 exactly when interest plus property tax is within the standard deduction, and otherwise (interest + tax − standard deduction) · 13.3% |
| Calculator.FirstRow | src/utils/calculator.js:78-153 | defines the year-1 row; RowColumns states its column relations |
| Calculator.NextRow | src/utils/calculator.js:158-211 | defines a later year from the year before; RowColumns and RowStep state its relations, ProjectYear that the loop body computes it |
| Calculator.Row | src/utils/calculator.js:157-211 | defines year k + 1 as year 1 followed by k loop steps; RowYear and the ProjectionProperties lemmas state its properties |
| Calculator.Rows | src/utils/calculator.js:157 | the first n years, one row each, in order |
| Calculator.PrefixReadsBack | src/utils/calculator.js:133-153 | the first n years pushed are in lockstep and read back as rows 1..n |
| Calculator.PrefixStep | src/utils/calculator.js:214-234 | pushing year n + 1 onto the first n years gives the first n + 1 years |
| Calculator.ProjectionReadsBack | src/utils/calculator.js:155-157 | the projection holds RowCount years numbered 1.., each read back as its row |
| Calculator.Projection | src/utils/calculator.js:155-157 | all 21 arrays of the projection have RowCount entries |
| Calculator.RowYear | src/utils/calculator.js:214 | row k is year k + 1 |
| Calculator.ProjectYear | src/utils/calculator.js:158-211 | one loop iteration computes the next year's row from the previous one |
| Calculator.CalculateAll | src/utils/calculator.js:32-259 | the 21 arrays pushed by the year-1 block and the loop are the projection |
| ProjectionProperties.RowColumns | src/utils/calculator.js:78-211 | within every year, interest, tax and maintenance, sale, gain, tax, buyer value, portfolio, rent tax, real values and premium follow their formulas |
| ProjectionProperties.RowStep | src/utils/calculator.js:157-256 | from one year to the next: the loan amortizes, prices and rent grow, the portfolio carries over, and the invested total adds the new investment |
| ProjectionProperties.PaidOffStep | src/utils/calculator.js:158-159 | once a year's loan is 0 it is 0 the next year too, whenever the yearly payment is nonnegative |
| ProjectionProperties.LoanFollowsSchedule | src/utils/calculator.js:157-158 | at a positive rate the loan column is the scheduled balance up to the term, and 0 from the term on |
| ProjectionProperties.TaxableValueGrowth | src/utils/calculator.js:160 | the taxable value is the price compounded at the reassessment rate |
| ProjectionProperties.HomeValueGrowth | src/utils/calculator.js:162 | the home value is the price compounded at the home return, one year ahead |
| ProjectionProperties.RentExpenseGrowth | src/utils/calculator.js:200 | the rent is the first year's rent compounded at the rent increase |
| ProjectionProperties.RentNondecreasing | src/utils/calculator.js:200 | with a nonnegative rent and increase, the rent never falls |
| ProjectionProperties.HomeValuesNondecreasing | src/utils/calculator.js:160-162 | with nonnegative rates, taxable and home values never fall |
| ProjectionProperties.TotalInvestedIsRunningSum | src/utils/calculator.js:207 | the invested total is the down payment plus the sum of the new investments so far |
| ProjectionProperties.ReturnIsGrowth | src/utils/calculator.js:199 | the start balance plus its return is the balance grown at the stock return |
| ProjectionProperties.RenterPortfolioCompounds | src/utils/calculator.js:198 | the portfolio starts with the down payment, each year starts where the last ended, and each year end is the grown start plus the new investment |
| ProjectionProperties.RentValueAfterTax | src/utils/calculator.js:208-209 | the renter keeps the invested total plus 62.9% of the growth |
| ProjectionProperties.BuyerNetWorth | src/utils/calculator.js:170-171 | the buyer's value is the sale net of next year's loan and of the tax; the tax is 0 exactly when the sale is within the exclusion |
| ProjectionProperties.RealColumns | src/utils/calculator.js:210-211 | the real values compounded at inflation give back the nominal ones, and the premium is rent real − buy real |
| ProjectionProperties.NoLoanNoMortgageCost | src/utils/calculator.js:203 | without a loan the buyer's cost has no mortgage payment |
| ProjectionProperties.TaxSavings | src/utils/calculator.js:99-113 | a year's tax savings, federal plus California on the deductible share of the interest, are never negative |
| ProjectionProperties.NewInvestmentColumn | src/utils/calculator.js:99-124 | in every year the new investment is the buyer's cost (payment while a balance is outstanding, plus tax and maintenance, less that year's federal and California savings on the deductible interest) minus the rent |
| ProjectionProperties.OutstandingLoanPaysPayment | src/utils/calculator.js:203-204 | with a loan outstanding, the new investment plus the rent equals the payment plus tax and maintenance less the year's tax savings, and so is at most the payment plus tax and maintenance |
| ProjectionProperties.PmtOfNoLoan | src/utils/calculator.js:285 | no loan means no payment |
| ProjectionProperties.NoLoanStaysZero | src/utils/calculator.js:78 | with no loan, the payment is 0 and the loan column is 0 in every year |
| ProjectionProperties.MonthlyBuyCostTimesTwelve | src/utils/calculator.js:295-299 | twelve months of the monthly cost are the yearly payment plus a year's tax and maintenance on the price |
| ProjectionProperties.MonthlyBuyCostIsYearOneOutlay | src/utils/calculator.js:295-299 | that is the buyer's year-1 outlay before tax savings |
| Calculator.MonthlyBuyCost | src/utils/calculator.js:295-299 | defines `calculateMonthlyBuyCost`; MonthlyBuyCostTimesTwelve and MonthlyBuyCostIsYearOneOutlay state its value |
| ProjectionProperties.ReferenceScenario | src/utils/calculator.js:15-29 | the default inputs give a year-1 loan of 1,225,000, interest of 76,562.5, tax and maintenance of 19,425, a home value of 1,802,500 sold for 1,748,425 with no gain, a year-2 rent of 56,700, and 40 rows |
| LegacyCalculator.CapitalGain | calculator.js:134 | the gain is max(0, selling price − reassessed value) |
| LegacyCalculator.CapitalGainsTax | calculator.js:137 | the tax is nonnegative, 0 exactly within the $500,000 exclusion, and 33% of the excess otherwise |
| LegacyCalculator.FirstRow | calculator.js:61-83 | defines the year-1 row; LegacyCalculator.RowColumns states its column relations |
| LegacyCalculator.NextRow | calculator.js:116-176 | defines a later year from the year before; ProjectYear states that the loop body computes it |
| LegacyCalculator.Row | calculator.js:113-176 | defines year k + 1 as year 1 followed by k loop steps; RowYear, RowColumns and SharedColumns state its properties |
| LegacyCalculator.Rows | calculator.js:113 | the first n years, one row each, in order |
| LegacyCalculator.PrefixReadsBack | calculator.js:88-108 | the first n years pushed are in lockstep and read back as rows 1..n |
| LegacyCalculator.PrefixStep | calculator.js:179-199 | pushing year n + 1 onto the first n years gives the first n + 1 years |
| LegacyCalculator.ProjectionReadsBack | calculator.js:111-113 | the projection holds RowCount years numbered 1.., each read back as its row |
| LegacyCalculator.Projection | calculator.js:111-113 | all 21 arrays of the projection have RowCount entries |
| LegacyCalculator.RowYear | calculator.js:179 | row k is year k + 1 |
| LegacyCalculator.ProjectYear | calculator.js:116-220 | one loop iteration computes the next year's row |
| LegacyCalculator.CalculateAll | calculator.js:32-224 | the arrays pushed are the projection |
| LegacyCalculator.RowColumns | calculator.js:61-176 | in every year: 97% sale, gain over reassessed value, 33% tax, a new investment with no tax savings, 36.8% portfolio tax, real values and premium |
| LegacyCalculator.RowPremium | calculator.js:176 | every year's premium is rent real − buy real |
| LegacyCalculator.SharedColumns | calculator.js:116-154 | the older and React calculators agree on loan, interest, taxable value, tax and maintenance, home value and rent in every year |
| LegacyCalculator.FormulasIgnoreClosingCost | calculator.js:63-83 | no formula of the older calculator reads the closing-cost rate |
| LegacyCalculator.FirstYearIgnoresClosingCost | calculator.js:61-83 | year 1 is the same whatever the closing-cost rate |
| LegacyCalculator.NextYearIgnoresClosingCost | calculator.js:116-176 | each later year is the same whatever the closing-cost rate |
| LegacyCalculator.ClosingCostIgnored | calculator.js:131 | every row is the same whatever the closing-cost rate |
| LegacyCalculator.SaleAgreesAtThreePercent | calculator.js:131 | at a 3% closing cost both calculators sell for the same price |
| LegacyCalculator.GainBasisNotBelowPrice | calculator.js:134 | with nonnegative reassessment the basis is at least the price, so the older gain never exceeds the React one |
| LegacyCalculator.LoanFollowsSchedule | calculator.js:116 | at a positive rate the loan is the scheduled balance up to the term, and 0 after |
| WhatIf.FirstOther | src/utils/whatif.js:104 | `find` returns an option different from x, and all options before it equal x |
| WhatIf.AdjustYAxis | src/utils/whatif.js:104 | afterwards y differs from x; y is unchanged when it already differed, and otherwise it is the first option different from x |
| WhatIf.AxisRange | src/utils/whatif.js:145-147 | the range starts at min and steps by step; every value is at most max + 0.0001, and the next one would pass it; it is nonempty exactly when min ≤ max + 0.0001 |
| WhatIf.ParameterRange | src/utils/whatif.js:139-151 | an unselected parameter gives its single value, and a selected one gives the axis range |
| WhatIf.SetParam | src/utils/whatif.js:189 | assigning a parameter sets it and leaves every other field alone |
| WhatIf.Scenario | src/utils/whatif.js:184-191 | defines the scenario of one grid position; ScenarioValues states each of its fields |
| WhatIf.FillSinglesValues | src/utils/whatif.js:186-188 | each parameter on neither axis takes its single value, and the others are untouched |
| WhatIf.ScenarioValues | src/utils/whatif.js:184-190 | the scenario has y from the y value, x from the x value unless both axes name it, singles elsewhere, rent = 12 × monthly rent, the base values, and a reassessment rate of 1%, which the code leaves unset (see Findings) |
| WhatIf.CreateScenario | src/utils/whatif.js:184-191 | the field-by-field updates build that scenario |
| WhatIf.ProjectionYears | src/utils/whatif.js:174 | the years column of a projection is 1..RowCount |
| WhatIf.CellOf | src/utils/whatif.js:173-177 | defines the corrected cell of a scenario; CellReadsHorizonYear states its value |
| WhatIf.CellReadsHorizonYear | src/utils/whatif.js:173-177 | a cell's difference is the premium of the horizon year, which is the whole horizon or year 1 below 1; the cell says 'rent' exactly when that premium is positive |
| WhatIf.ComputeCell | src/utils/whatif.js:173-177 | projecting, searching the horizon and classifying gives that cell |
| WhatIf.HeatmapRow | src/utils/whatif.js:171-178 | the inner loop gives one cell per x value, cell j being the cell of the scenario at (x[j], y) |
| WhatIf.CalculateHeatmapData | src/utils/whatif.js:167-182 | the matrix has one row per y value of one cell per x value, and cell (i, j) is the cell of the scenario at (x[j], y[i]) |
| WhatIf.NextRenterColumnsAgree | src/utils/calculator.js:160-210 | with a numeric reassessment rate, a later year's JavaScript-number columns are the projection's |
| WhatIf.RenterColumnsAgree | src/utils/calculator.js:157-256 | with a numeric reassessment rate, the JavaScript-number columns are the projection's in every year |
| WhatIf.UnsetRateLosesLaterYears | src/utils/calculator.js:160 | with an undefined reassessment rate every year after the first has NaN taxable value, portfolio, invested total and rent real |
| WhatIf.CellAsWritten | src/utils/whatif.js:173-177 | defines the cell as written, in JavaScript numbers with the reassessment rate unset; AsWrittenAlwaysBuys and UnsetRateFlipsCell state its value |
| WhatIf.AsWrittenAlwaysBuys | src/utils/whatif.js:176-177 | as written, a horizon of 2 or more makes the difference NaN and the verdict 'buy' |
| WhatIf.UnsetRateFlipsCell | src/utils/whatif.js:184-190 | each cell the corrected sweep marks 'rent' at such a horizon is marked 'buy' as written |
| LegacyWhatIf.Without | whatif.js:213 | `filter` keeps exactly the options other than x, and its first element is the first such option |
| LegacyWhatIf.AdjustYAxis | whatif.js:210-215 | afterwards y differs from x; y is unchanged when it already differed, and otherwise it is the first option different from x |
| LegacyWhatIf.ValidateRanges | whatif.js:108-134 | minimums are kept; a maximum above its minimum is kept; otherwise it becomes min(min + 1, 15), min(min + 500000, 5000000) or min(min + 5, 50) |
| LegacyWhatIf.ValidateRangesOrders | whatif.js:118-133 | a minimum below its slider's top ends up strictly below its maximum, and an interest minimum of 15 is left equal to its maximum |
| LegacyWhatIf.ValidateRangesIdempotent | whatif.js:108-134 | validating twice changes nothing more |
| LegacyWhatIf.Steps | whatif.js:361 | a range with min ≤ max has at least one step, exactly one when min = max, and none when min exceeds max by more than half a step |
| LegacyWhatIf.RangeValue | whatif.js:370 | the intended value i of a range: value 0 is min; RangeEndpoints, RangeValueBetween and RangeSpacing state the rest |
| LegacyWhatIf.RangeValueAsWritten | whatif.js:370 | defines value i as written, in JavaScript numbers; RangeAsWrittenLosesSingleValue relates it to RangeValue |
| LegacyWhatIf.RangeEndpoints | whatif.js:368-372 | with two steps or more the range starts at min, ends at max, and lies between them |
| LegacyWhatIf.RangeValueBetween | whatif.js:370 | each value of such a range lies between min and max |
| LegacyWhatIf.RangeSpacing | whatif.js:370 | successive values are (max − min) / (steps − 1) apart |
| LegacyWhatIf.RangeAsWrittenLosesSingleValue | whatif.js:368-372 | the code's values equal the intended ones from two steps on, and a single step gives NaN |
| LegacyWhatIf.AxisRangeAsWritten | whatif.js:360-372 | the error for a NaN bound; otherwise max(0, steps) values min + (max − min)·i / (steps − 1), in JavaScript numbers |
| LegacyWhatIf.AxisRange | whatif.js:360-372 | the same range, with a single step giving min; it fails exactly for a NaN bound |
| LegacyWhatIf.ParameterRange | whatif.js:341-391 | an unselected parameter gives its single value, and a selected one gives the axis range |
| LegacyWhatIf.SetParam | whatif.js:530-537 | assigning a parameter sets it and leaves every other field alone |
| LegacyWhatIf.FillSingles | whatif.js:525-533 | filling in single values never touches the base fields |
| LegacyWhatIf.FillSinglesValues | whatif.js:525-533 | each parameter on neither axis takes its single value, and the others are untouched |
| LegacyWhatIf.Round4 | whatif.js:536-537 | rounding to four decimals keeps numbers numbers and NaN NaN |
| LegacyWhatIf.Round4Close | whatif.js:536-537 | rounding to four decimals moves a value by at most 0.00005 |
| LegacyWhatIf.DraftOf | whatif.js:506-537 | the draft keeps the base loan term |
| LegacyWhatIf.DraftValues | whatif.js:506-537 | the draft has the rounded y value, the rounded x value unless both axes name it, singles elsewhere, 12 × monthly rent, reassessment 1%, and the base values |
| LegacyWhatIf.Derive | whatif.js:547-551 | the derived scenario keeps the draft's values; its down payment is within half a dollar of price × percent / 100, its loan is the rest of the price, its property tax is within half a cent, and its closing costs are within half a dollar of 3% |
| LegacyWhatIf.CheckRates | whatif.js:556-567 | the rate checks pass exactly when every rate is in bounds; otherwise the error of the first failing check, in the order mortgage rate, stock return, home return, inflation |
| LegacyWhatIf.Validate | whatif.js:539-569 | a draft is accepted exactly when all swept parameters are numbers and all rates are in bounds; a NaN is reported before a bad rate; an accepted scenario is the derived one |
| LegacyWhatIf.FillScenario | whatif.js:506-537 | the field-by-field updates build the draft |
| LegacyWhatIf.CreateScenario | whatif.js:506-570 | creating a scenario is validating that draft |
| LegacyWhatIf.ToInputs | whatif.js:459 | defines the record the older calculator receives from an accepted scenario, with the closing-cost rate it does not read set to 0 |
| LegacyWhatIf.CellOf | whatif.js:459-489 | defines the cell of an accepted scenario; CellReadsHorizonYear states its value |
| LegacyWhatIf.OneValueAxisFails | whatif.js:360-372 | as written, a one-value axis yields NaN and every scenario built on it is rejected, while the intended value is min |
| LegacyWhatIf.CellReadsHorizonYear | whatif.js:474-489 | a cell holds the buy and rent real values and the premium of the horizon year, and says 'rent' exactly when the premium is positive |
| LegacyWhatIf.FindHorizonIndex | whatif.js:466-472 | the search loop finds the first year reaching the horizon, or the last year |
| LegacyWhatIf.ZeroRateMakesNaN | calculator.js:58-71 | at a zero rate the NaN payment (the 0 / 0 of line 253) makes the buyer's value NaN in every year, whatever the loan |
| LegacyWhatIf.PaymentJs | calculator.js:245-256 | the older payment in JavaScript numbers (the PMT quotient over 12, times 12) is the projection's yearly payment at a positive rate and NaN at a zero rate |
| LegacyWhatIf.ZeroQuotientAtUnitGrowth | calculator.js:253 | the PMT denominator (1 + r)^n − 1 is 0 exactly at a zero rate, and then the numerator is 0 too, so the quotient is 0 / 0 |
| LegacyWhatIf.CellOutcome | whatif.js:474-480 | a scenario fails with the NaN error exactly when its mortgage rate is 0, and otherwise gives its cell |
| LegacyWhatIf.ZeroRateItemFails | whatif.js:476-479 | an item whose scenario has a zero rate means not every grid scenario has a nonzero rate |
| LegacyWhatIf.ComputeCell | whatif.js:459-489 | one loop iteration gives that outcome |
| LegacyWhatIf.RowMajorBefore | whatif.js:432-442 | items of earlier rows come before the current row |
| LegacyWhatIf.RowMajorUnique | whatif.js:432-442 | a flat position names a single grid cell |
| LegacyWhatIf.BuildRow | whatif.js:433-441 | a row of items, one per x value; it fails exactly when a scenario of the row is rejected, with the error of the first rejected one |
| LegacyWhatIf.BuildCalculations | whatif.js:432-442 | one item per grid cell in row order, each carrying its cell's accepted scenario; it fails exactly when some scenario is rejected, with the error of the first rejected scenario in row order |
| LegacyWhatIf.RejectedInRow | whatif.js:432-442 | the first rejection in a row, after rows that were all accepted, is the first rejection of the grid |
| LegacyWhatIf.ItemOfPosition | whatif.js:432-442 | the item at flat position i·columns + j belongs to cell (i, j) |
| LegacyWhatIf.Put | whatif.js:484 | writing one matrix cell keeps the shape and every other cell |
| LegacyWhatIf.PlaceNext | whatif.js:484-491 | writing the next item's cell keeps the earlier items' cells and the untouched cells |
| LegacyWhatIf.CalculateHeatmapDataOptimized | whatif.js:455-504 | it fails with the NaN error exactly when some item has a zero rate; otherwise every item's cell is at its position, the other cells are unchanged, and completed counts all items |
| LegacyWhatIf.Holes | whatif.js:446-448 | one row of holes per y value, each row one hole per x value |
| LegacyWhatIf.CalculateHeatmapData | whatif.js:417-452 | it succeeds exactly when every scenario is accepted with a nonzero rate, and then cell (i, j) is the cell of the scenario at (x[j], y[i]); when a scenario is rejected it fails with the error of the first rejected scenario in row order; when all are accepted, a failure is the NaN error |
| LegacyWhatIf.GridCells | whatif.js:432-448 | a matrix holding every item's cell holds each position's cell |
| LegacyWhatIf.GridItemsFit | whatif.js:432-448 | grid items can be projected, sit at distinct cells, and fit the matrix |
| LegacyWhatIf.RowSplits | whatif.js:781-786 | in a row, the buy and rent counts add up to the row length |
| LegacyWhatIf.CountsSplit | whatif.js:781-786 | the buy and rent counts add up to the number of cells |
| LegacyWhatIf.RectangleCells | whatif.js:778 | n rows of m cells are n·m cells |
| LegacyWhatIf.UpdateSummaryStats | whatif.js:777-787 | the counters are the numbers of 'buy' and 'rent' cells; they add up to the number of cells, and to the total rows × first-row length when the rows are even |

## Left out

- Page input and output are not modelled. This covers reading form fields (`getBaseScenario`, the slider lookups, `getInputs`/`setInputs`), charts, the summary's HTML, button progress and the `setTimeout` yields. The form values are parameters, and the sweeps are plain sequential loops.
- `getBaseScenario` of the HTML sweep rejects NaN and infinite base values. Here the base values are plain reals, so that check has nothing to reject.
- Floating point is not modelled: amounts are exact reals. Rounding error, including the drift of `v += step` in the React range, is not captured. Infinity is not modelled: a nonzero amount divided by zero is excluded by a precondition.
- NaN is modelled only where a sweep reaches it: a zero mortgage rate, a one-value range, and the React sweep's missing reassessment rate.
- Calculator.CalculateAll: requires a defined PMT formula and inflation ≠ −100%. At a zero rate or a zero-year term the code computes 0/0 or x/0. This calculator's NaN path is modelled only for the older one (LegacyWhatIf.ZeroRateMakesNaN).
- LegacyCalculator.CalculateAll: requires the same, for the same reason.
- WhatIf.CalculateHeatmapData: requires every cell's scenario to be computable. A zero-rate cell would hold a NaN difference here, and that case is not modelled.
- LegacyWhatIf.CalculateHeatmapData: requires a loan term of at least a year. With a zero-year term the payment is L·r / 0, an infinity, which is not modelled.
- LegacyWhatIf.AxisRange: requires a positive slider step. A zero or NaN step is not modelled. The code's `isNaN(steps)` check can otherwise fire only for a NaN bound, which is modelled.
- LegacyWhatIf.UpdateSummaryStats: requires a nonempty matrix whose cells are all filled. The code reads `data[0].length`, and it only runs after a successful sweep.
- LegacyWhatIf.ToInputs: the HTML sweep's scenario has no closing-cost rate. It is given 0, which the older calculator never reads (LegacyCalculator.ClosingCostIgnored).
- The HTML sweep's `propertyTaxAmount`, `closingCostsAmount` and `mortgagePoints` are carried or omitted but not read; the older calculator does not use them.
- `calculateLoanAmount` in both calculators is not part of this model. It is a monthly-compounding balance formula that no modelled operation calls.
- The React sweep's axis values are given as plain reals. Its `createScenario` copies them without rounding.
- WhatIf.AxisRange: requires a positive step. With a zero or negative step and min ≤ max + 0.0001 the loop at src/utils/whatif.js:146 never ends, which is not modelled.
- The React sweep's range loop is bounded by the number of steps that fit. The loop is unbounded in the code, and the two agree for every positive step.
- WhatIf.UnsetRateFlipsCell is stated for every scenario with a positive premium at a horizon of two years or more. No particular numeric scenario is evaluated.

## Findings

| source | as written | input that shows it | evidently intended | confidence | as-written member | corrected member |
|---|---|---|---|---|---|---|
| src/utils/whatif.js:184-190 | `createScenario` copies the base scenario, which has no `propertyReassessmentRate`. The calculator then computes `taxableValue * (1 + undefined / 100)`, which is NaN from year 2 on (src/utils/calculator.js:160). That makes the portfolio and rent real NaN, the difference NaN, and `NaN > 0` false, so every cell says 'buy'. | any scenario with an investing horizon of 2 or more whose renter is ahead, e.g. a 10-year horizon with a premium > 0 at year 10 | the scenario carries a reassessment rate of 1%, as the HTML sweep's does (whatif.js:517), and the cell says 'rent' when the renter is ahead | high, not executed | WhatIf.UnsetRateFlipsCell | WhatIf.CellReadsHorizonYear |
| whatif.js:360-372 | with min equal to max, `steps` is 1 and each value is `min + 0 / 0`, which is NaN. `createScenario` then rejects the scenario with "Invalid numeric value". | an interest range with interestMin = interestMax = 15, which `validateRanges` leaves as it is, because min(15 + 1, 15) = 15 | a one-value range holding min | medium, not executed | LegacyWhatIf.OneValueAxisFails | LegacyWhatIf.AxisRange |
