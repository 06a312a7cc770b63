/** `RentBuyCalculator.calculateAll` of the React application: a year-by-year
    projection of buying with a mortgage against renting and investing the
    down payment plus the monthly surplus. Year 1 is computed from the inputs,
    every later year from the year before it. The column formulas are
    functions; `Row` is the specification of year k + 1 and `CalculateAll` the
    imperative loop, proved to push exactly `Rows`. */
module Calculator {
  import opened Numeric
  import opened ScenarioInputs
  import opened Amortization
  import opened Results

  // Capital gains rates: 20% federal plus 3.8% net investment income tax,
  // and California's 12.3% plus the 1% mental health services tax.
  const FedRate: real := 0.238
  const CaBaseRate: real := 0.123
  const CaMentalHealthTax: real := 0.01
  const CaRate: real := CaBaseRate + CaMentalHealthTax
  const TaxRate: real := FedRate + CaRate

  const CapitalGainsExclusion: real := 500000.0

  // Mortgage interest deduction limits and 2024 married-filing-jointly figures.
  const FedLoanLimit: real := 750000.0
  const CaLoanLimit: real := 1000000.0
  const FedStd: real := 29200.0
  const CaStd: real := 10726.0
  const FedSaltCap: real := 10000.0

  /** Everything the projection needs is a number: the PMT formula does not
      divide by zero and the inflation deflator (1 + inflation / 100)^year is
      never zero. */
  predicate Computable(inp: Inputs)
  {
    PaymentDefined(inp) && inp.inflation != -100.0
  }

  /** `calculateMonthlyBuyCost`: the monthly mortgage payment plus a twelfth
      of a year's tax and maintenance on the purchase price. */
  function MonthlyBuyCost(inp: Inputs): real
    requires PaymentDefined(inp)
  {
    MonthlyPayment(inp) + inp.homePrice * (inp.taxMaintenanceRate / 100.0) / 12.0
  }

  // ---- Column formulas ----

  function Interest(inp: Inputs, loan: real): real
  {
    AnnualRate(inp) * loan
  }

  function NextTaxableValue(inp: Inputs, previous: real): real
  {
    Grow(previous, inp.propertyReassessmentRate)
  }

  function TaxMaintenance(inp: Inputs, taxableValue: real): real
  {
    taxableValue * (inp.taxMaintenanceRate / 100.0)
  }

  function NextHomeValue(inp: Inputs, previous: real): real
  {
    Grow(previous, inp.homeReturn)
  }

  function SellingPrice(inp: Inputs, homeValue: real): real
  {
    homeValue * (1.0 - inp.closingCostRate / 100.0)
  }

  /** The gain over the purchase price, never negative. */
  function CapitalGain(inp: Inputs, sellingPrice: real): (g: real)
    ensures g >= 0.0 && g >= sellingPrice - inp.homePrice
    ensures g == 0.0 || g == sellingPrice - inp.homePrice
  {
    Max(0.0, sellingPrice - inp.homePrice)
  }

  /** Tax on the part of the gain above the $500,000 exclusion: nothing up to
      the exclusion, the full 37.1% rate on every dollar beyond it. */
  function CapitalGainsTax(gain: real): (t: real)
    ensures t >= 0.0
    ensures t == 0.0 <==> gain <= CapitalGainsExclusion
    ensures gain > CapitalGainsExclusion ==> t == (gain - CapitalGainsExclusion) * TaxRate
  {
    Max(0.0, gain - CapitalGainsExclusion) * TaxRate
  }

  /** The balance after a year's interest and payment, floored at zero. */
  function EndOfYearLoan(loan: real, interest: real, payment: real): (b: real)
    ensures b >= 0.0 && b >= loan + interest - payment
    ensures loan + interest - payment >= 0.0 ==> b == loan + interest - payment
    ensures b == 0.0 || b == loan + interest - payment
  {
    Max(0.0, loan + interest - payment)
  }

  /** A nominal amount of year `year` in today's money. */
  function Deflate(inp: Inputs, nominal: real, year: nat): real
    requires inp.inflation != -100.0
  {
    nominal / Pow(1.0 + inp.inflation / 100.0, year)
  }

  /** Deflating undoes `year` years of inflation: the real amount,
      compounded at the inflation rate, is the nominal one again. */
  lemma DeflateUndoesInflation(inp: Inputs, nominal: real, year: nat)
    requires inp.inflation != -100.0
    ensures Compound(Deflate(inp, nominal, year), inp.inflation, year) == nominal
  {
    CancelDivisor(nominal, Pow(1.0 + inp.inflation / 100.0, year));
  }

  /** The deductible share of a year's interest in year 1:
      `interest * Math.min(1, limit / (homePrice - downPayment))`. A zero loan
      makes the ratio Infinity, and the minimum is then 1; a negative loan
      (a down payment above the price) makes it negative, and it is taken
      as it is. */
  function FirstYearDeductible(interest: real, loan: real, limit: real): (d: real)
    requires limit > 0.0
    ensures loan == 0.0 ==> d == interest
    ensures 0.0 < loan <= limit ==> d == interest
    ensures loan > limit ==> d * loan == interest * limit
    ensures loan < 0.0 ==> d * loan == interest * limit
  {
    if loan == 0.0 then interest
    else
      var ratio := limit / loan;
      CancelDivisor(limit, loan);
      assert 0.0 < loan <= limit ==> ratio >= 1.0;
      assert loan < 0.0 ==> ratio < 0.0;
      interest * Min(1.0, ratio)
  }

  /** The deductible share of a later year's interest: the interest on the
      first `limit` dollars of the balance, and nothing once the loan is paid
      off (`if (loan > 0)`). */
  function DeductibleInterest(interest: real, loan: real, limit: real): (d: real)
    requires limit > 0.0
    ensures loan <= 0.0 ==> d == 0.0
    ensures 0.0 < loan <= limit ==> d == interest
    ensures loan > limit ==> d * loan == interest * limit
    ensures loan > 0.0 && interest >= 0.0 ==> 0.0 <= d <= interest
  {
    if loan > 0.0 then interest * Min(1.0, limit / loan) else 0.0
  }

  /** Federal savings: itemized deductions (deductible interest plus the $10,000
      SALT cap) beyond the standard deduction, at the federal rate. */
  function FederalSavings(deductibleInterest: real): (s: real)
    ensures s >= 0.0
    ensures s == 0.0 <==> deductibleInterest <= FedStd - FedSaltCap
    ensures deductibleInterest > FedStd - FedSaltCap ==> s == (deductibleInterest + FedSaltCap - FedStd) * FedRate
  {
    Max(0.0, deductibleInterest + FedSaltCap - FedStd) * FedRate
  }

  /** California savings: deductible interest plus property tax (no SALT
      cap) beyond the California standard deduction, at the California rate. */
  function CaliforniaSavings(deductibleInterest: real, taxMaintenance: real): (s: real)
    ensures s >= 0.0
    ensures s == 0.0 <==> deductibleInterest + taxMaintenance <= CaStd
    ensures deductibleInterest + taxMaintenance > CaStd ==> s == (deductibleInterest + taxMaintenance - CaStd) * CaRate
  {
    Max(0.0, deductibleInterest + taxMaintenance - CaStd) * CaRate
  }

  /** What owning costs in a year: the mortgage payment while a balance is
      outstanding, plus tax and maintenance, less the tax savings. */
  function BuyerAnnualCost(loan: real, payment: real, taxMaintenance: real, savings: real): real
  {
    (if loan > 0.0 then payment else 0.0) + taxMaintenance - savings
  }

  function RentReturn(inp: Inputs, startBalance: real): real
  {
    startBalance * (inp.stockReturn / 100.0)
  }

  function NextRentExpense(inp: Inputs, previous: real): real
  {
    Grow(previous, inp.rentIncrease)
  }

  /** Capital gains tax on the portfolio's growth over what was put in. */
  function RentTax(yearEndBalance: real, totalInvested: real): real
  {
    (yearEndBalance - totalInvested) * TaxRate
  }

  // ---- Rows ----

  /** Year 1, computed from the inputs alone. */
  function FirstRow(inp: Inputs): YearRow
    requires Computable(inp)
  {
    var payment := YearlyPayment(inp);
    var loan := LoanAmount(inp);
    var interest := Interest(inp, loan);
    var taxableValue := inp.homePrice;
    var taxMaintenance := TaxMaintenance(inp, taxableValue);
    var homeValue := NextHomeValue(inp, inp.homePrice);
    var sellingPrice := SellingPrice(inp, homeValue);
    var capitalGain := CapitalGain(inp, sellingPrice);
    var tax := CapitalGainsTax(capitalGain);
    var buyValue := sellingPrice - EndOfYearLoan(loan, interest, payment) - tax;
    var buyReal := Deflate(inp, buyValue, 1);
    var savings := FederalSavings(FirstYearDeductible(interest, loan, FedLoanLimit))
                 + CaliforniaSavings(FirstYearDeductible(interest, loan, CaLoanLimit), taxMaintenance);
    var rentStartBalance := inp.downPayment;
    var rentReturn := RentReturn(inp, rentStartBalance);
    var rentExpense := inp.rent;
    var newInvestment := BuyerAnnualCost(loan, payment, taxMaintenance, savings) - rentExpense;
    var yearEndBalance := rentStartBalance + rentReturn + newInvestment;
    var totalInvested := inp.downPayment + newInvestment;
    var rentTax := RentTax(yearEndBalance, totalInvested);
    var rentValue := yearEndBalance - rentTax;
    var rentReal := Deflate(inp, rentValue, 1);
    YearRow(1, loan, interest, taxableValue, taxMaintenance, homeValue, sellingPrice,
      capitalGain, tax, buyValue, buyReal, rentStartBalance, rentReturn, rentExpense,
      newInvestment, yearEndBalance, totalInvested, rentTax, rentValue, rentReal,
      rentReal - buyReal)
  }

  /** Year `year` >= 2, computed from the year before it. */
  function NextRow(inp: Inputs, prev: YearRow, year: nat): YearRow
    requires Computable(inp)
  {
    var payment := YearlyPayment(inp);
    var loan := EndOfYearLoan(prev.loan, prev.interest, payment);
    var interest := Interest(inp, loan);
    var taxableValue := NextTaxableValue(inp, prev.taxableValue);
    var taxMaintenance := TaxMaintenance(inp, taxableValue);
    var homeValue := NextHomeValue(inp, prev.homeValue);
    var sellingPrice := SellingPrice(inp, homeValue);
    var capitalGain := CapitalGain(inp, sellingPrice);
    var tax := CapitalGainsTax(capitalGain);
    var buyValue := sellingPrice - EndOfYearLoan(loan, interest, payment) - tax;
    var buyReal := Deflate(inp, buyValue, year);
    var savings := FederalSavings(DeductibleInterest(interest, loan, FedLoanLimit))
                 + CaliforniaSavings(DeductibleInterest(interest, loan, CaLoanLimit), taxMaintenance);
    var rentStartBalance := prev.yearEndBalance;
    var rentReturn := RentReturn(inp, rentStartBalance);
    var rentExpense := NextRentExpense(inp, prev.rentExpense);
    var newInvestment := BuyerAnnualCost(loan, payment, taxMaintenance, savings) - rentExpense;
    var yearEndBalance := rentStartBalance + rentReturn + newInvestment;
    var totalInvested := prev.totalInvested + newInvestment;
    var rentTax := RentTax(yearEndBalance, totalInvested);
    var rentValue := yearEndBalance - rentTax;
    var rentReal := Deflate(inp, rentValue, year);
    YearRow(year, loan, interest, taxableValue, taxMaintenance, homeValue, sellingPrice,
      capitalGain, tax, buyValue, buyReal, rentStartBalance, rentReturn, rentExpense,
      newInvestment, yearEndBalance, totalInvested, rentTax, rentValue, rentReal,
      rentReal - buyReal)
  }

  /** Year k + 1 of the projection. */
  function Row(inp: Inputs, k: nat): YearRow
    requires Computable(inp)
  {
    if k == 0 then FirstRow(inp) else NextRow(inp, Row(inp, k - 1), k + 1)
  }

  /** The columns after the first n years have been pushed. */
  function Rows(inp: Inputs, n: nat): (rows: seq<YearRow>)
    requires Computable(inp)
    ensures |rows| == n && forall k :: 0 <= k < n ==> rows[k] == Row(inp, k)
  {
    seq(n, k requires 0 <= k < n => Row(inp, k))
  }

  function Prefix(inp: Inputs, n: nat): Series
    requires Computable(inp)
  {
    Columns(Rows(inp, n))
  }

  /** Pushing one more year extends the prefix by that year. */
  lemma PrefixStep(inp: Inputs, n: nat)
    requires Computable(inp)
    ensures Prefix(inp, n + 1) == Push(Prefix(inp, n), Row(inp, n))
  {
    assert Rows(inp, n + 1)[..n] == Rows(inp, n);
  }

  function Projection(inp: Inputs): (r: Series)
    requires Computable(inp)
    ensures Lockstep(r, RowCount(inp))
  {
    PrefixReadsBack(inp, RowCount(inp));
    Prefix(inp, RowCount(inp))
  }

  /** The columns stay in lockstep, and entry k of every column is year k + 1. */
  lemma PrefixReadsBack(inp: Inputs, n: nat)
    requires Computable(inp)
    ensures Lockstep(Prefix(inp, n), n)
    ensures forall k :: 0 <= k < n ==> RowAt(Prefix(inp, n), k) == Row(inp, k)
  {
    ColumnsReadBack(Rows(inp, n));
  }

  /** What `calculateAll` returns, read column by column: RowCount entries in
      every column, entry k holding year k + 1. */
  lemma ProjectionReadsBack(inp: Inputs)
    requires Computable(inp)
    ensures Lockstep(Projection(inp), RowCount(inp))
    ensures forall k :: 0 <= k < RowCount(inp) ==> Projection(inp).years[k] == k + 1
    ensures forall k :: 0 <= k < RowCount(inp) ==> RowAt(Projection(inp), k) == Row(inp, k)
  {
    PrefixReadsBack(inp, RowCount(inp));
    forall k | 0 <= k < RowCount(inp)
      ensures Projection(inp).years[k] == k + 1
    {
      RowYear(inp, k);
      assert RowAt(Projection(inp), k).year == Projection(inp).years[k];
    }
  }

  lemma RowYear(inp: Inputs, k: nat)
    requires Computable(inp)
    ensures Row(inp, k).year == k + 1
  {
  }

  /** Each column of a later year, in terms of the other columns of that year
      and of the year before. */
  lemma NextRowColumns(inp: Inputs, prev: YearRow, year: nat)
    requires Computable(inp)
    ensures var r := NextRow(inp, prev, year);
      && r.year == year
      && r.loan == EndOfYearLoan(prev.loan, prev.interest, YearlyPayment(inp))
      && r.interest == Interest(inp, r.loan)
      && r.taxableValue == NextTaxableValue(inp, prev.taxableValue)
      && r.taxMaintenance == TaxMaintenance(inp, r.taxableValue)
      && r.homeValue == NextHomeValue(inp, prev.homeValue)
      && r.sellingPrice == SellingPrice(inp, r.homeValue)
      && r.capitalGain == CapitalGain(inp, r.sellingPrice)
      && r.tax == CapitalGainsTax(r.capitalGain)
      && r.buyValue == r.sellingPrice - EndOfYearLoan(r.loan, r.interest, YearlyPayment(inp)) - r.tax
      && r.buyReal == Deflate(inp, r.buyValue, year)
      && r.rentStartBalance == prev.yearEndBalance
      && r.rentReturn == RentReturn(inp, r.rentStartBalance)
      && r.rentExpense == NextRentExpense(inp, prev.rentExpense)
      && r.newInvestment == BuyerAnnualCost(r.loan, YearlyPayment(inp), r.taxMaintenance,
           FederalSavings(DeductibleInterest(r.interest, r.loan, FedLoanLimit))
           + CaliforniaSavings(DeductibleInterest(r.interest, r.loan, CaLoanLimit), r.taxMaintenance))
           - r.rentExpense
      && r.yearEndBalance == r.rentStartBalance + r.rentReturn + r.newInvestment
      && r.totalInvested == prev.totalInvested + r.newInvestment
      && r.rentTax == RentTax(r.yearEndBalance, r.totalInvested)
      && r.rentValue == r.yearEndBalance - r.rentTax
      && r.rentReal == Deflate(inp, r.rentValue, year)
      && r.premium == r.rentReal - r.buyReal
  {
  }

  // ---- The imperative calculation ----

  /** The body of `calculateAll`'s loop: year `year` computed column by column
      from the previous year's values, in the source's order. */
  method ProjectYear(inputs: Inputs, yearlyPayment: real, previous: YearRow, year: nat)
    returns (row: YearRow)
    requires Computable(inputs) && yearlyPayment == YearlyPayment(inputs)
    ensures row == NextRow(inputs, previous, year)
  {
    var loan := EndOfYearLoan(previous.loan, previous.interest, yearlyPayment);
    var interest := Interest(inputs, loan);
    var taxableValue := NextTaxableValue(inputs, previous.taxableValue);
    var taxMaintenance := TaxMaintenance(inputs, taxableValue);
    var homeValue := NextHomeValue(inputs, previous.homeValue);
    var sellingPrice := SellingPrice(inputs, homeValue);
    var capitalGain := CapitalGain(inputs, sellingPrice);
    var tax := CapitalGainsTax(capitalGain);
    var endOfYearLoan := EndOfYearLoan(loan, interest, yearlyPayment);
    var buyValue := sellingPrice - endOfYearLoan - tax;
    var buyReal := Deflate(inputs, buyValue, year);

    var fedDeductibleInterest := DeductibleInterest(interest, loan, FedLoanLimit);
    var caDeductibleInterest := DeductibleInterest(interest, loan, CaLoanLimit);
    var taxSavings := FederalSavings(fedDeductibleInterest)
                    + CaliforniaSavings(caDeductibleInterest, taxMaintenance);

    var rentStartBalance := previous.yearEndBalance;
    var rentReturn := RentReturn(inputs, rentStartBalance);
    var rentExpense := NextRentExpense(inputs, previous.rentExpense);
    var buyerAnnualCost := BuyerAnnualCost(loan, yearlyPayment, taxMaintenance, taxSavings);
    var newInvestment := buyerAnnualCost - rentExpense;
    var yearEndBalance := rentStartBalance + rentReturn + newInvestment;
    var totalInvested := previous.totalInvested + newInvestment;
    var rentTax := RentTax(yearEndBalance, totalInvested);
    var rentValue := yearEndBalance - rentTax;
    var rentReal := Deflate(inputs, rentValue, year);
    var premium := rentReal - buyReal;

    row := YearRow(year, loan, interest, taxableValue, taxMaintenance, homeValue,
      sellingPrice, capitalGain, tax, buyValue, buyReal, rentStartBalance, rentReturn,
      rentExpense, newInvestment, yearEndBalance, totalInvested, rentTax, rentValue,
      rentReal, premium);
    NextRowColumns(inputs, previous, year);
  }

  /** `calculateAll`: computes year 1, then loops over the years 2..maxYears
      carrying the previous year's values (the `previous*` locals, gathered
      here in one row) and pushing one entry onto every column per year. */
  method CalculateAll(inputs: Inputs) returns (results: Series)
    requires Computable(inputs)
    ensures results == Projection(inputs)
  {
    results := EmptySeries();
    var yearlyPayment := MonthlyPayment(inputs) * 12.0;

    var previous := FirstRow(inputs);
    PrefixStep(inputs, 0);
    results := Push(results, previous);

    var year: nat := 2;
    while (year as real) <= MaxYears(inputs)
      invariant 2 <= year <= RowCount(inputs) + 1
      invariant results == Prefix(inputs, year - 1)
      invariant previous == Row(inputs, year - 2)
      decreases RowCount(inputs) + 1 - year
    {
      var row := ProjectYear(inputs, yearlyPayment, previous, year);
      assert row == Row(inputs, year - 1);
      PrefixStep(inputs, year - 1);
      results := Push(results, row);
      previous := row;
      year := year + 1;
    }
  }
}
