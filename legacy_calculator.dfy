/** The older `RentBuyCalculator.calculateAll` used by the plain HTML pages.
    It shares the loan, interest, reassessment, home value, rent and portfolio
    recurrences with the React calculator, but sells at a fixed 97% of the
    home value, taxes the gain over the reassessed value at 33%, taxes the
    portfolio's growth at 36.8%, and has no tax savings from deductions. */
module LegacyCalculator {
  import opened Numeric
  import opened ScenarioInputs
  import opened Amortization
  import opened Results
  import Calculator
  import ProjectionProperties

  /** The sale nets 97% of the home value, whatever closingCostRate says. */
  const SaleFactor: real := 0.97
  /** 20% federal plus 13% California on the home's gain. */
  const GainsTaxRate: real := 0.33
  /** 20% federal, 13% California and 3.8% net investment income tax on the
      portfolio's growth. */
  const PortfolioTaxRate: real := 0.368
  const GainsExclusion: real := 500000.0

  function SellingPrice(homeValue: real): real
  {
    homeValue * SaleFactor
  }

  /** The gain over the reassessed taxable value, never negative. */
  function CapitalGain(sellingPrice: real, taxableValue: real): (g: real)
    ensures g >= 0.0 && g >= sellingPrice - taxableValue
    ensures g == 0.0 || g == sellingPrice - taxableValue
  {
    Max(0.0, sellingPrice - taxableValue)
  }

  /** 33% on the part of the gain above the $500,000 exclusion. */
  function CapitalGainsTax(gain: real): (t: real)
    ensures t >= 0.0
    ensures t == 0.0 <==> gain <= GainsExclusion
    ensures gain > GainsExclusion ==> t == (gain - GainsExclusion) * GainsTaxRate
  {
    Max(0.0, gain - GainsExclusion) * GainsTaxRate
  }

  /** The buyer's outlay beyond the rent: the payment while a balance is
      outstanding, plus tax and maintenance, minus the rent. */
  function NewInvestment(loan: real, payment: real, rentExpense: real, taxMaintenance: real): real
  {
    (if loan > 0.0 then payment else 0.0) - rentExpense + taxMaintenance
  }

  function RentTax(yearEndBalance: real, totalInvested: real): real
  {
    (yearEndBalance - totalInvested) * PortfolioTaxRate
  }

  /** Year 1, computed from the inputs alone. */
  function FirstRow(inp: Inputs): YearRow
    requires Calculator.Computable(inp)
  {
    var payment := YearlyPayment(inp);
    var loan := LoanAmount(inp);
    var interest := Calculator.Interest(inp, loan);
    var taxableValue := inp.homePrice;
    var taxMaintenance := Calculator.TaxMaintenance(inp, taxableValue);
    var homeValue := Calculator.NextHomeValue(inp, inp.homePrice);
    var sellingPrice := SellingPrice(homeValue);
    var capitalGain := CapitalGain(sellingPrice, taxableValue);
    var tax := CapitalGainsTax(capitalGain);
    var buyValue := sellingPrice - Calculator.EndOfYearLoan(loan, interest, payment) - tax;
    var buyReal := Calculator.Deflate(inp, buyValue, 1);
    var rentStartBalance := inp.downPayment;
    var rentReturn := Calculator.RentReturn(inp, rentStartBalance);
    var rentExpense := inp.rent;
    var newInvestment := NewInvestment(loan, payment, rentExpense, taxMaintenance);
    var yearEndBalance := rentStartBalance + rentReturn + newInvestment;
    var totalInvested := inp.downPayment + newInvestment;
    var rentTax := RentTax(yearEndBalance, totalInvested);
    var rentValue := yearEndBalance - rentTax;
    var rentReal := Calculator.Deflate(inp, rentValue, 1);
    YearRow(1, loan, interest, taxableValue, taxMaintenance, homeValue, sellingPrice,
      capitalGain, tax, buyValue, buyReal, rentStartBalance, rentReturn, rentExpense,
      newInvestment, yearEndBalance, totalInvested, rentTax, rentValue, rentReal,
      rentReal - buyReal)
  }

  /** Year `year` >= 2, computed from the year before it. */
  function NextRow(inp: Inputs, prev: YearRow, year: nat): YearRow
    requires Calculator.Computable(inp)
  {
    var payment := YearlyPayment(inp);
    var loan := Calculator.EndOfYearLoan(prev.loan, prev.interest, payment);
    var interest := Calculator.Interest(inp, loan);
    var taxableValue := Calculator.NextTaxableValue(inp, prev.taxableValue);
    var taxMaintenance := Calculator.TaxMaintenance(inp, taxableValue);
    var homeValue := Calculator.NextHomeValue(inp, prev.homeValue);
    var sellingPrice := SellingPrice(homeValue);
    var capitalGain := CapitalGain(sellingPrice, taxableValue);
    var tax := CapitalGainsTax(capitalGain);
    var buyValue := sellingPrice - Calculator.EndOfYearLoan(loan, interest, payment) - tax;
    var buyReal := Calculator.Deflate(inp, buyValue, year);
    var rentStartBalance := prev.yearEndBalance;
    var rentReturn := Calculator.RentReturn(inp, rentStartBalance);
    var rentExpense := Calculator.NextRentExpense(inp, prev.rentExpense);
    var newInvestment := NewInvestment(loan, payment, rentExpense, taxMaintenance);
    var yearEndBalance := rentStartBalance + rentReturn + newInvestment;
    var totalInvested := prev.totalInvested + newInvestment;
    var rentTax := RentTax(yearEndBalance, totalInvested);
    var rentValue := yearEndBalance - rentTax;
    var rentReal := Calculator.Deflate(inp, rentValue, year);
    YearRow(year, loan, interest, taxableValue, taxMaintenance, homeValue, sellingPrice,
      capitalGain, tax, buyValue, buyReal, rentStartBalance, rentReturn, rentExpense,
      newInvestment, yearEndBalance, totalInvested, rentTax, rentValue, rentReal,
      rentReal - buyReal)
  }

  /** Year k + 1 of the older projection. */
  function Row(inp: Inputs, k: nat): YearRow
    requires Calculator.Computable(inp)
  {
    if k == 0 then FirstRow(inp) else NextRow(inp, Row(inp, k - 1), k + 1)
  }

  function Rows(inp: Inputs, n: nat): (rows: seq<YearRow>)
    requires Calculator.Computable(inp)
    ensures |rows| == n && forall k :: 0 <= k < n ==> rows[k] == Row(inp, k)
  {
    seq(n, k requires 0 <= k < n => Row(inp, k))
  }

  function Prefix(inp: Inputs, n: nat): Series
    requires Calculator.Computable(inp)
  {
    Columns(Rows(inp, n))
  }

  /** Pushing one more year extends the prefix by that year. */
  lemma PrefixStep(inp: Inputs, n: nat)
    requires Calculator.Computable(inp)
    ensures Prefix(inp, n + 1) == Push(Prefix(inp, n), Row(inp, n))
  {
    assert Rows(inp, n + 1)[..n] == Rows(inp, n);
  }

  function Projection(inp: Inputs): (r: Series)
    requires Calculator.Computable(inp)
    ensures Lockstep(r, RowCount(inp))
  {
    PrefixReadsBack(inp, RowCount(inp));
    Prefix(inp, RowCount(inp))
  }

  /** The columns stay in lockstep, and entry k of every column is year k + 1. */
  lemma PrefixReadsBack(inp: Inputs, n: nat)
    requires Calculator.Computable(inp)
    ensures Lockstep(Prefix(inp, n), n)
    ensures forall k :: 0 <= k < n ==> RowAt(Prefix(inp, n), k) == Row(inp, k)
  {
    ColumnsReadBack(Rows(inp, n));
  }

  /** What the older `calculateAll` returns: RowCount entries in every
      column, the years 1..RowCount, entry k holding year k + 1. */
  lemma ProjectionReadsBack(inp: Inputs)
    requires Calculator.Computable(inp)
    ensures Lockstep(Projection(inp), RowCount(inp))
    ensures forall k :: 0 <= k < RowCount(inp) ==> Projection(inp).years[k] == k + 1
    ensures forall k :: 0 <= k < RowCount(inp) ==> RowAt(Projection(inp), k) == Row(inp, k)
  {
    PrefixReadsBack(inp, RowCount(inp));
    forall k | 0 <= k < RowCount(inp)
      ensures Projection(inp).years[k] == k + 1
    {
      RowYear(inp, k);
      assert RowAt(Projection(inp), k).year == Projection(inp).years[k];
    }
  }

  lemma RowYear(inp: Inputs, k: nat)
    requires Calculator.Computable(inp)
    ensures Row(inp, k).year == k + 1
  {
  }

  /** Each column of a later year, in terms of the other columns of that year
      and of the year before. */
  lemma NextRowColumns(inp: Inputs, prev: YearRow, year: nat)
    requires Calculator.Computable(inp)
    ensures var r := NextRow(inp, prev, year);
      && r.year == year
      && r.loan == Calculator.EndOfYearLoan(prev.loan, prev.interest, YearlyPayment(inp))
      && r.interest == Calculator.Interest(inp, r.loan)
      && r.taxableValue == Calculator.NextTaxableValue(inp, prev.taxableValue)
      && r.taxMaintenance == Calculator.TaxMaintenance(inp, r.taxableValue)
      && r.homeValue == Calculator.NextHomeValue(inp, prev.homeValue)
      && r.sellingPrice == SellingPrice(r.homeValue)
      && r.capitalGain == CapitalGain(r.sellingPrice, r.taxableValue)
      && r.tax == CapitalGainsTax(r.capitalGain)
      && r.buyValue == r.sellingPrice - Calculator.EndOfYearLoan(r.loan, r.interest, YearlyPayment(inp)) - r.tax
      && r.buyReal == Calculator.Deflate(inp, r.buyValue, year)
      && r.rentStartBalance == prev.yearEndBalance
      && r.rentReturn == Calculator.RentReturn(inp, r.rentStartBalance)
      && r.rentExpense == Calculator.NextRentExpense(inp, prev.rentExpense)
      && r.newInvestment == NewInvestment(r.loan, YearlyPayment(inp), r.rentExpense, r.taxMaintenance)
      && r.yearEndBalance == r.rentStartBalance + r.rentReturn + r.newInvestment
      && r.totalInvested == prev.totalInvested + r.newInvestment
      && r.rentTax == RentTax(r.yearEndBalance, r.totalInvested)
      && r.rentValue == r.yearEndBalance - r.rentTax
      && r.rentReal == Calculator.Deflate(inp, r.rentValue, year)
      && r.premium == r.rentReal - r.buyReal
  {
  }

  /** The body of the older loop: year `year` column by column. */
  method ProjectYear(inputs: Inputs, yearlyPayment: real, previous: YearRow, year: nat)
    returns (row: YearRow)
    requires Calculator.Computable(inputs) && yearlyPayment == YearlyPayment(inputs)
    ensures row == NextRow(inputs, previous, year)
  {
    var loan := Calculator.EndOfYearLoan(previous.loan, previous.interest, yearlyPayment);
    var interest := Calculator.Interest(inputs, loan);
    var taxableValue := Calculator.NextTaxableValue(inputs, previous.taxableValue);
    var taxMaintenance := Calculator.TaxMaintenance(inputs, taxableValue);
    var homeValue := Calculator.NextHomeValue(inputs, previous.homeValue);
    var sellingPrice := SellingPrice(homeValue);
    var capitalGain := CapitalGain(sellingPrice, taxableValue);
    var tax := CapitalGainsTax(capitalGain);
    var endOfYearLoan := Calculator.EndOfYearLoan(loan, interest, yearlyPayment);
    var buyValue := sellingPrice - endOfYearLoan - tax;
    var buyReal := Calculator.Deflate(inputs, buyValue, year);
    var rentStartBalance := previous.yearEndBalance;
    var rentReturn := Calculator.RentReturn(inputs, rentStartBalance);
    var rentExpense := Calculator.NextRentExpense(inputs, previous.rentExpense);
    var newInvestment := NewInvestment(loan, yearlyPayment, rentExpense, taxMaintenance);
    var yearEndBalance := rentStartBalance + rentReturn + newInvestment;
    var totalInvested := previous.totalInvested + newInvestment;
    var rentTax := RentTax(yearEndBalance, totalInvested);
    var rentValue := yearEndBalance - rentTax;
    var rentReal := Calculator.Deflate(inputs, rentValue, year);
    var premium := rentReal - buyReal;

    row := YearRow(year, loan, interest, taxableValue, taxMaintenance, homeValue,
      sellingPrice, capitalGain, tax, buyValue, buyReal, rentStartBalance, rentReturn,
      rentExpense, newInvestment, yearEndBalance, totalInvested, rentTax, rentValue,
      rentReal, premium);
    NextRowColumns(inputs, previous, year);
  }

  /** The older `calculateAll`: year 1 from the inputs, then years
      2..maxYears from the `previous*` locals, one push per column per year. */
  method CalculateAll(inputs: Inputs) returns (results: Series)
    requires Calculator.Computable(inputs)
    ensures results == Projection(inputs)
  {
    results := EmptySeries();
    var yearlyPayment := MonthlyPayment(inputs) * 12.0;

    var previous := FirstRow(inputs);
    PrefixStep(inputs, 0);
    results := Push(results, previous);

    var year: nat := 2;
    while (year as real) <= MaxYears(inputs)
      invariant 2 <= year <= RowCount(inputs) + 1
      invariant results == Prefix(inputs, year - 1)
      invariant previous == Row(inputs, year - 2)
      decreases RowCount(inputs) + 1 - year
    {
      var row := ProjectYear(inputs, yearlyPayment, previous, year);
      assert row == Row(inputs, year - 1);
      PrefixStep(inputs, year - 1);
      results := Push(results, row);
      previous := row;
      year := year + 1;
    }
  }

  // ---- Properties ----

  /** The relations between the columns of one year, in year 1 and later:
      the 97% sale, the gain over the reassessed value, the new investment
      without any tax-savings term (the React calculator's buyer cost with
      zero savings), and the 36.8% tax on the portfolio's growth. */
  lemma RowColumns(inp: Inputs, k: nat)
    requires Calculator.Computable(inp)
    ensures var r := Row(inp, k);
      && r.year == k + 1
      && r.interest == Calculator.Interest(inp, r.loan)
      && r.sellingPrice == r.homeValue * SaleFactor
      && r.capitalGain == CapitalGain(r.sellingPrice, r.taxableValue)
      && r.tax == CapitalGainsTax(r.capitalGain)
      && r.newInvestment
         == Calculator.BuyerAnnualCost(r.loan, YearlyPayment(inp), r.taxMaintenance, 0.0) - r.rentExpense
      && r.rentTax == (r.yearEndBalance - r.totalInvested) * PortfolioTaxRate
      && r.rentValue == r.yearEndBalance - r.rentTax
      && r.buyReal == Calculator.Deflate(inp, r.buyValue, k + 1)
      && r.rentReal == Calculator.Deflate(inp, r.rentValue, k + 1)
      && r.premium == r.rentReal - r.buyReal
  {
    if k > 0 {
      NextRowColumns(inp, Row(inp, k - 1), k + 1);
    }
  }

  /** Every year's premium is the renter's real value less the buyer's. */
  lemma RowPremium(inp: Inputs, k: nat)
    requires Calculator.Computable(inp)
    ensures Row(inp, k).premium == Row(inp, k).rentReal - Row(inp, k).buyReal
  {
    RowColumns(inp, k);
  }

  /** The older calculator and the React one compute the same loan,
      interest, taxable value, tax and maintenance, home value and rent in
      every year: they differ only in the sale, the taxes and the savings. */
  lemma {:induction false} SharedColumns(inp: Inputs, k: nat)
    requires Calculator.Computable(inp)
    ensures Row(inp, k).year == Calculator.Row(inp, k).year
    ensures Row(inp, k).loan == Calculator.Row(inp, k).loan
    ensures Row(inp, k).interest == Calculator.Row(inp, k).interest
    ensures Row(inp, k).taxableValue == Calculator.Row(inp, k).taxableValue
    ensures Row(inp, k).taxMaintenance == Calculator.Row(inp, k).taxMaintenance
    ensures Row(inp, k).homeValue == Calculator.Row(inp, k).homeValue
    ensures Row(inp, k).rentExpense == Calculator.Row(inp, k).rentExpense
  {
    if k > 0 {
      var j := k - 1;
      SharedColumns(inp, j);
      NextRowColumns(inp, Row(inp, j), k + 1);
      Calculator.NextRowColumns(inp, Calculator.Row(inp, j), k + 1);
    }
  }

  /** The column formulas the older projection uses do not read
      closingCostRate. */
  lemma FormulasIgnoreClosingCost(inp: Inputs, closingCostRate: real)
    requires Calculator.Computable(inp)
    ensures Calculator.Computable(inp.(closingCostRate := closingCostRate))
    ensures YearlyPayment(inp.(closingCostRate := closingCostRate)) == YearlyPayment(inp)
    ensures forall x :: Calculator.Interest(inp.(closingCostRate := closingCostRate), x) == Calculator.Interest(inp, x)
    ensures forall x :: Calculator.TaxMaintenance(inp.(closingCostRate := closingCostRate), x) == Calculator.TaxMaintenance(inp, x)
    ensures forall x :: Calculator.NextTaxableValue(inp.(closingCostRate := closingCostRate), x) == Calculator.NextTaxableValue(inp, x)
    ensures forall x :: Calculator.NextHomeValue(inp.(closingCostRate := closingCostRate), x) == Calculator.NextHomeValue(inp, x)
    ensures forall x :: Calculator.RentReturn(inp.(closingCostRate := closingCostRate), x) == Calculator.RentReturn(inp, x)
    ensures forall x :: Calculator.NextRentExpense(inp.(closingCostRate := closingCostRate), x) == Calculator.NextRentExpense(inp, x)
    ensures forall x, y :: Calculator.Deflate(inp.(closingCostRate := closingCostRate), x, y) == Calculator.Deflate(inp, x, y)
  {
  }

  /** Year 1 of the older projection does not read closingCostRate. */
  lemma FirstYearIgnoresClosingCost(inp: Inputs, closingCostRate: real)
    requires Calculator.Computable(inp)
    ensures Calculator.Computable(inp.(closingCostRate := closingCostRate))
    ensures FirstRow(inp.(closingCostRate := closingCostRate)) == FirstRow(inp)
  {
    FormulasIgnoreClosingCost(inp, closingCostRate);
  }

  /** A later year of the older projection does not read closingCostRate. */
  lemma NextYearIgnoresClosingCost(inp: Inputs, closingCostRate: real, prev: YearRow, year: nat)
    requires Calculator.Computable(inp)
    ensures Calculator.Computable(inp.(closingCostRate := closingCostRate))
    ensures NextRow(inp.(closingCostRate := closingCostRate), prev, year) == NextRow(inp, prev, year)
  {
    FormulasIgnoreClosingCost(inp, closingCostRate);
  }

  /** closingCostRate has no effect on the older projection. */
  lemma {:induction false} ClosingCostIgnored(inp: Inputs, closingCostRate: real, k: nat)
    requires Calculator.Computable(inp)
    ensures Calculator.Computable(inp.(closingCostRate := closingCostRate))
    ensures Row(inp.(closingCostRate := closingCostRate), k) == Row(inp, k)
  {
    if k == 0 {
      FirstYearIgnoresClosingCost(inp, closingCostRate);
    } else {
      var other := inp.(closingCostRate := closingCostRate);
      var j := k - 1;
      ClosingCostIgnored(inp, closingCostRate, j);
      NextYearIgnoresClosingCost(inp, closingCostRate, Row(inp, j), k + 1);
      assert Row(other, k) == NextRow(other, Row(other, j), k + 1);
    }
  }

  /** With the default 3% closing cost the two calculators sell for the same
      price: 97% of the home value is the home value less 3%. */
  lemma SaleAgreesAtThreePercent(inp: Inputs, k: nat)
    requires Calculator.Computable(inp) && inp.closingCostRate == 3.0
    ensures Row(inp, k).sellingPrice == Calculator.Row(inp, k).sellingPrice
  {
    RowColumns(inp, k);
    SharedColumns(inp, k);
    ProjectionProperties.RowColumns(inp, k);
  }

  /** Taxing the gain over the reassessed value instead of the price: with a
      nonnegative price and reassessment rate the taxable value never falls
      below the price, so the older gain never exceeds the React calculator's
      at the same sale price. */
  lemma GainBasisNotBelowPrice(inp: Inputs, k: nat, sellingPrice: real)
    requires Calculator.Computable(inp)
    requires inp.homePrice >= 0.0 && inp.propertyReassessmentRate >= 0.0
    ensures Row(inp, k).taxableValue >= inp.homePrice
    ensures CapitalGain(sellingPrice, Row(inp, k).taxableValue) <= Calculator.CapitalGain(inp, sellingPrice)
  {
    SharedColumns(inp, k);
    ProjectionProperties.TaxableValueGrowth(inp, k);
    CompoundMonotone(inp.homePrice, inp.propertyReassessmentRate, 0, k);
    assert Compound(inp.homePrice, inp.propertyReassessmentRate, 0) == inp.homePrice;
  }

  /** The older loan column follows the same amortization schedule: the
      scheduled balance for the first loanTerm years, then 0. */
  lemma LoanFollowsSchedule(inp: Inputs, k: nat)
    requires Calculator.Computable(inp)
    requires inp.mortgageRate > 0.0 && LoanAmount(inp) >= 0.0
    ensures k <= inp.loanTerm ==> Row(inp, k).loan == ScheduledBalance(inp, k)
    ensures k >= inp.loanTerm ==> Row(inp, k).loan == 0.0
  {
    SharedColumns(inp, k);
    ProjectionProperties.LoanFollowsSchedule(inp, k);
  }
}
