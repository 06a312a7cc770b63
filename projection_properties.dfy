/** What the projection of `calculateAll` promises, year by year: the loan
    follows the amortization schedule and stays paid off, the price-driven
    columns compound, the renter's portfolio compounds and receives the
    buyer's extra cost, and the real columns are the nominal ones deflated. */
module ProjectionProperties {
  import opened Numeric
  import opened ScenarioInputs
  import opened Amortization
  import opened Results
  import opened Calculator

  /** The relations between the columns of one year that hold in year 1 and
      in every later year alike. */
  lemma RowColumns(inp: Inputs, k: nat)
    requires Computable(inp)
    ensures var r := Row(inp, k);
      && r.year == k + 1
      && r.interest == Interest(inp, r.loan)
      && r.taxMaintenance == TaxMaintenance(inp, r.taxableValue)
      && r.sellingPrice == SellingPrice(inp, r.homeValue)
      && r.capitalGain == CapitalGain(inp, r.sellingPrice)
      && r.tax == CapitalGainsTax(r.capitalGain)
      && r.buyValue == r.sellingPrice - EndOfYearLoan(r.loan, r.interest, YearlyPayment(inp)) - r.tax
      && r.buyReal == Deflate(inp, r.buyValue, k + 1)
      && r.rentReturn == RentReturn(inp, r.rentStartBalance)
      && r.yearEndBalance == r.rentStartBalance + r.rentReturn + r.newInvestment
      && r.rentTax == RentTax(r.yearEndBalance, r.totalInvested)
      && r.rentValue == r.yearEndBalance - r.rentTax
      && r.rentReal == Deflate(inp, r.rentValue, k + 1)
      && r.premium == r.rentReal - r.buyReal
  {
    if k > 0 {
      NextRowColumns(inp, Row(inp, k - 1), k + 1);
    }
  }

  /** How year k + 2 follows from year k + 1: the loan, taxable value,
      home value, rent, portfolio and invested total. */
  lemma RowStep(inp: Inputs, k: nat)
    requires Computable(inp)
    ensures var prev, r := Row(inp, k), Row(inp, k + 1);
      && r.loan == EndOfYearLoan(prev.loan, prev.interest, YearlyPayment(inp))
      && r.taxableValue == NextTaxableValue(inp, prev.taxableValue)
      && r.homeValue == NextHomeValue(inp, prev.homeValue)
      && r.rentExpense == NextRentExpense(inp, prev.rentExpense)
      && r.rentStartBalance == prev.yearEndBalance
      && r.totalInvested == prev.totalInvested + r.newInvestment
  {
    NextRowColumns(inp, Row(inp, k), k + 2);
  }

  /** One year of the loan column on the schedule: a balance on the schedule
      after j years, charged a year's interest and the yearly payment, is the
      scheduled balance after j + 1 years, as long as that is not negative. */
  lemma ScheduledLoanStep(inp: Inputs, prevLoan: real, j: nat)
    requires PaymentDefined(inp) && prevLoan == ScheduledBalance(inp, j)
    requires ScheduledBalance(inp, j + 1) >= 0.0
    ensures EndOfYearLoan(prevLoan, Interest(inp, prevLoan), YearlyPayment(inp)) == ScheduledBalance(inp, j + 1)
  {
    var rate, q := AnnualRate(inp), Growth(inp, inp.loanTerm);
    assert q != 1.0;
    YearlyPaymentIsPmt(inp);
    GrowthStep(inp, j + 1);
    ScheduleStep(LoanAmount(inp), rate, q, prevLoan, Growth(inp, j), Growth(inp, j + 1));
    assert prevLoan + Interest(inp, prevLoan) == prevLoan * (1.0 + rate);
  }

  /** A paid-off loan stays paid off: once a year's loan is 0, the next
      year's is 0 too, as long as the payment is not negative (no balance
      accrues no interest, and the balance is floored at 0). */
  lemma PaidOffStep(inp: Inputs, k: nat)
    requires Computable(inp) && YearlyPayment(inp) >= 0.0 && Row(inp, k).loan == 0.0
    ensures Row(inp, k + 1).loan == 0.0
  {
    RowColumns(inp, k);
    RowStep(inp, k);
  }

  /** With a positive rate and a down payment no larger than the price, the
      loan column is the amortization schedule of the PMT payment for the
      first loanTerm years, reaches exactly 0 in year loanTerm + 1 and stays 0
      afterwards. */
  lemma {:induction false} LoanFollowsSchedule(inp: Inputs, k: nat)
    requires Computable(inp)
    requires inp.mortgageRate > 0.0 && LoanAmount(inp) >= 0.0
    ensures k <= inp.loanTerm ==> Row(inp, k).loan == ScheduledBalance(inp, k)
    ensures k >= inp.loanTerm ==> Row(inp, k).loan == 0.0
  {
    PaymentDefinedIff(inp);
    if k == 0 {
      ScheduledBalanceBounds(inp, 0);
    } else {
      var j := k - 1;
      LoanFollowsSchedule(inp, j);
      RowColumns(inp, j);
      RowStep(inp, j);
      if k <= inp.loanTerm {
        ScheduledBalanceBounds(inp, k);
        ScheduledLoanStep(inp, Row(inp, j).loan, j);
      } else {
        PaymentCoversInterest(inp);
        PaidOffStep(inp, j);
      }
    }
  }

  /** The taxable value is reassessed once a year from the purchase price:
      year k + 1 carries the price compounded k times at the reassessment rate. */
  lemma {:induction false} TaxableValueGrowth(inp: Inputs, k: nat)
    requires Computable(inp)
    ensures Row(inp, k).taxableValue == Compound(inp.homePrice, inp.propertyReassessmentRate, k)
  {
    if k > 0 {
      var j := k - 1;
      TaxableValueGrowth(inp, j);
      RowStep(inp, j);
      GrowCompound(Row(inp, j).taxableValue, inp.homePrice, inp.propertyReassessmentRate, j, k);
    }
  }

  /** The home appreciates from the purchase price already in year 1: year
      k + 1 is worth the price compounded k + 1 times at the home return. */
  lemma {:induction false} HomeValueGrowth(inp: Inputs, k: nat)
    requires Computable(inp)
    ensures Row(inp, k).homeValue == Compound(inp.homePrice, inp.homeReturn, k + 1)
  {
    if k > 0 {
      var j := k - 1;
      HomeValueGrowth(inp, j);
      RowStep(inp, j);
      GrowCompound(Row(inp, j).homeValue, inp.homePrice, inp.homeReturn, k, k + 1);
    } else {
      GrowCompound(inp.homePrice, inp.homePrice, inp.homeReturn, 0, 1);
    }
  }

  /** Rent starts at the given annual rent and rises by rentIncrease a year:
      year k + 1 pays the rent compounded k times. */
  lemma {:induction false} RentExpenseGrowth(inp: Inputs, k: nat)
    requires Computable(inp)
    ensures Row(inp, k).rentExpense == Compound(inp.rent, inp.rentIncrease, k)
  {
    if k > 0 {
      var j := k - 1;
      RentExpenseGrowth(inp, j);
      RowStep(inp, j);
      GrowCompound(Row(inp, j).rentExpense, inp.rent, inp.rentIncrease, j, k);
    }
  }

  /** With nonnegative rent and a nonnegative rent increase, the rent never
      falls from one year to a later one. */
  lemma RentNondecreasing(inp: Inputs, j: nat, k: nat)
    requires Computable(inp) && j <= k
    requires inp.rent >= 0.0 && inp.rentIncrease >= 0.0
    ensures Row(inp, j).rentExpense <= Row(inp, k).rentExpense
  {
    RentExpenseGrowth(inp, j);
    RentExpenseGrowth(inp, k);
    CompoundMonotone(inp.rent, inp.rentIncrease, j, k);
  }

  /** With a nonnegative price and nonnegative home return and reassessment
      rates, the home value and the taxable value never fall. */
  lemma HomeValuesNondecreasing(inp: Inputs, j: nat, k: nat)
    requires Computable(inp) && j <= k
    requires inp.homePrice >= 0.0 && inp.homeReturn >= 0.0 && inp.propertyReassessmentRate >= 0.0
    ensures Row(inp, j).taxableValue <= Row(inp, k).taxableValue
    ensures Row(inp, j).homeValue <= Row(inp, k).homeValue
  {
    TaxableValueGrowth(inp, j);
    TaxableValueGrowth(inp, k);
    CompoundMonotone(inp.homePrice, inp.propertyReassessmentRate, j, k);
    HomeValueGrowth(inp, j);
    HomeValueGrowth(inp, k);
    CompoundMonotone(inp.homePrice, inp.homeReturn, j + 1, k + 1);
  }

  /** The newInvestments column of the first n years. */
  function NewInvestments(inp: Inputs, n: nat): (s: seq<real>)
    requires Computable(inp)
    ensures |s| == n
  {
    if n == 0 then [] else NewInvestments(inp, n - 1) + [Row(inp, n - 1).newInvestment]
  }

  /** The invested total is the down payment plus every year's new
      investment so far. */
  lemma {:induction false} TotalInvestedIsRunningSum(inp: Inputs, k: nat)
    requires Computable(inp)
    ensures Row(inp, k).totalInvested == inp.downPayment + Sum(NewInvestments(inp, k + 1))
  {
    var s := NewInvestments(inp, k + 1);
    assert s[..k] == NewInvestments(inp, k);
    if k > 0 {
      var j := k - 1;
      TotalInvestedIsRunningSum(inp, j);
      RowStep(inp, j);
    }
  }

  /** A start balance plus its stock return is the balance grown at the
      stock return. */
  lemma ReturnIsGrowth(inp: Inputs, start: real)
    ensures start + RentReturn(inp, start) == Grow(start, inp.stockReturn)
  {
  }

  /** The renter's portfolio: it starts from the down payment, each year
      starts from the previous year-end balance, and grows at the stock
      return before receiving the year's new investment. */
  lemma RenterPortfolioCompounds(inp: Inputs, k: nat)
    requires Computable(inp)
    ensures Row(inp, 0).rentStartBalance == inp.downPayment
    ensures Row(inp, k + 1).rentStartBalance == Row(inp, k).yearEndBalance
    ensures Row(inp, k).yearEndBalance
         == Grow(Row(inp, k).rentStartBalance, inp.stockReturn) + Row(inp, k).newInvestment
  {
    RowColumns(inp, k);
    RowStep(inp, k);
    ReturnIsGrowth(inp, Row(inp, k).rentStartBalance);
  }

  /** The renter keeps the invested total plus 62.9% of the portfolio's
      growth over it: the 37.1% rate applies to the gain only. */
  lemma RentValueAfterTax(inp: Inputs, k: nat)
    requires Computable(inp)
    ensures Row(inp, k).rentValue
         == Row(inp, k).totalInvested + (1.0 - TaxRate) * (Row(inp, k).yearEndBalance - Row(inp, k).totalInvested)
  {
    RowColumns(inp, k);
  }

  /** The buyer's net worth is the net sale price less the balance still
      owed at the end of the year, which is the next year's loan column, less
      the capital gains tax; and the tax is zero exactly when the net sale
      price exceeds the purchase price by at most the $500,000 exclusion. */
  lemma BuyerNetWorth(inp: Inputs, k: nat)
    requires Computable(inp)
    ensures Row(inp, k).buyValue == Row(inp, k).sellingPrice - Row(inp, k + 1).loan - Row(inp, k).tax
    ensures Row(inp, k).tax >= 0.0
    ensures Row(inp, k).tax == 0.0 <==> Row(inp, k).sellingPrice <= inp.homePrice + CapitalGainsExclusion
  {
    RowColumns(inp, k);
    RowStep(inp, k);
  }

  /** The real columns are the nominal ones in today's money: compounding
      them at the inflation rate for k + 1 years gives the nominal values
      back; and the premium is the renter's real lead over the buyer. */
  lemma RealColumns(inp: Inputs, k: nat)
    requires Computable(inp)
    ensures Compound(Row(inp, k).buyReal, inp.inflation, k + 1) == Row(inp, k).buyValue
    ensures Compound(Row(inp, k).rentReal, inp.inflation, k + 1) == Row(inp, k).rentValue
    ensures Row(inp, k).premium == Row(inp, k).rentReal - Row(inp, k).buyReal
  {
    RowColumns(inp, k);
    DeflateUndoesInflation(inp, Row(inp, k).buyValue, k + 1);
    DeflateUndoesInflation(inp, Row(inp, k).rentValue, k + 1);
  }

  /** In a year with no loan balance the buyer pays no mortgage and gets no
      federal savings (the $10,000 SALT cap alone is below the standard
      deduction): the renter's new investment is the tax and maintenance
      bill less the California savings on it, less the rent. */
  lemma NoLoanNoMortgageCost(inp: Inputs, k: nat)
    requires Computable(inp) && Row(inp, k).loan == 0.0
    ensures Row(inp, k).newInvestment
         == Row(inp, k).taxMaintenance - CaliforniaSavings(0.0, Row(inp, k).taxMaintenance) - Row(inp, k).rentExpense
  {
    RowColumns(inp, k);
    assert Row(inp, k).interest == 0.0;
    assert FederalSavings(0.0) == 0.0;
    if k > 0 {
      NextRowColumns(inp, Row(inp, k - 1), k + 1);
    }
  }

  /** A year's tax savings on owning: federal plus California savings on
      the deductible share of the interest. Year 1 takes the share
      `min(1, limit / loan)` of the first-year block; later years take it
      only while a balance is outstanding. */
  function TaxSavings(k: nat, interest: real, loan: real, taxMaintenance: real): (s: real)
    ensures s >= 0.0
  {
    if k == 0 then
      FederalSavings(FirstYearDeductible(interest, loan, FedLoanLimit))
      + CaliforniaSavings(FirstYearDeductible(interest, loan, CaLoanLimit), taxMaintenance)
    else
      FederalSavings(DeductibleInterest(interest, loan, FedLoanLimit))
      + CaliforniaSavings(DeductibleInterest(interest, loan, CaLoanLimit), taxMaintenance)
  }

  /** The renter invests each year what owning costs beyond the rent: the
      payment while a balance is outstanding, plus tax and maintenance, less
      the tax savings. */
  lemma NewInvestmentColumn(inp: Inputs, k: nat)
    requires Computable(inp)
    ensures var r := Row(inp, k);
      r.newInvestment
      == BuyerAnnualCost(r.loan, YearlyPayment(inp), r.taxMaintenance, TaxSavings(k, r.interest, r.loan, r.taxMaintenance))
         - r.rentExpense
  {
    if k > 0 {
      NextRowColumns(inp, Row(inp, k - 1), k + 1);
    }
  }

  /** While a balance is outstanding the buyer's outlay beyond the rent is
      the full yearly payment plus tax and maintenance, less the year's tax
      savings, which are never negative. */
  lemma OutstandingLoanPaysPayment(inp: Inputs, k: nat)
    requires Computable(inp) && Row(inp, k).loan > 0.0
    ensures var r := Row(inp, k);
      r.newInvestment + r.rentExpense
      == YearlyPayment(inp) + r.taxMaintenance - TaxSavings(k, r.interest, r.loan, r.taxMaintenance)
    ensures Row(inp, k).newInvestment + Row(inp, k).rentExpense <= YearlyPayment(inp) + Row(inp, k).taxMaintenance
  {
    NewInvestmentColumn(inp, k);
  }

  /** On plain numbers: the PMT amount of a zero loan is 0. */
  lemma PmtOfNoLoan(loan: real, rate: real, q: real)
    requires loan == 0.0 && q != 1.0
    ensures Pmt(loan, rate, q) == 0.0
  {
    assert loan * rate * q == 0.0;
    DivideBoth(0.0, q - 1.0, loan * rate * q);
  }

  /** Buying outright: with no loan the payment is 0 and the loan column is 0
      in every year. */
  lemma {:induction false} NoLoanStaysZero(inp: Inputs, k: nat)
    requires Computable(inp) && LoanAmount(inp) == 0.0
    ensures YearlyPayment(inp) == 0.0
    ensures Row(inp, k).loan == 0.0
  {
    PmtOfNoLoan(LoanAmount(inp), AnnualRate(inp), Growth(inp, inp.loanTerm));
    YearlyPaymentIsPmt(inp);
    if k > 0 {
      var j := k - 1;
      NoLoanStaysZero(inp, j);
      PaidOffStep(inp, j);
    }
  }

  lemma MonthlyBuyCostTimesTwelve(inp: Inputs)
    requires PaymentDefined(inp)
    ensures MonthlyBuyCost(inp) * 12.0 == YearlyPayment(inp) + TaxMaintenance(inp, inp.homePrice)
  {
  }

  /** `calculateMonthlyBuyCost` is a twelfth of year 1's outlay on the house:
      the yearly payment plus tax and maintenance on the purchase price. */
  lemma MonthlyBuyCostIsYearOneOutlay(inp: Inputs)
    requires Computable(inp)
    ensures MonthlyBuyCost(inp) * 12.0 == YearlyPayment(inp) + Row(inp, 0).taxMaintenance
  {
    RowColumns(inp, 0);
    MonthlyBuyCostTimesTwelve(inp);
  }

  /** The spreadsheet's reference scenario (`getInputs` defaults): a
      $1,225,000 loan, $76,562.50 first-year interest, $19,425 of tax and
      maintenance, a home worth $1,802,500 after one year that nets
      $1,748,425 on sale (no gain, no tax), rent of $54,000 then $56,700, and
      40 projected years. */
  lemma ReferenceScenario()
    ensures Computable(DefaultInputs())
    ensures var r := Row(DefaultInputs(), 0);
      && r.loan == 1225000.0 && r.interest == 76562.5
      && r.taxableValue == 1750000.0 && r.taxMaintenance == 19425.0
      && r.homeValue == 1802500.0 && r.sellingPrice == 1748425.0
      && r.capitalGain == 0.0 && r.tax == 0.0
      && r.rentStartBalance == 525000.0 && r.rentReturn == 31500.0 && r.rentExpense == 54000.0
    ensures Row(DefaultInputs(), 1).rentExpense == 56700.0
    ensures Row(DefaultInputs(), 1).taxableValue == 1767500.0
    ensures RowCount(DefaultInputs()) == 40
  {
    var inp := DefaultInputs();
    assert Growth(inp, inp.loanTerm) > 1.0;
    RowColumns(inp, 0);
    RowStep(inp, 0);
  }
}
