/** `calculateMonthlyPayment`: the spreadsheet PMT formula with ANNUAL
    compounding (rate = mortgageRate / 100, periods = loanTerm years), divided
    by 12. The projection multiplies it back by 12 and subtracts the result
    once a year. The formula has no zero-rate branch: it is defined exactly when
    (1 + rate)^loanTerm differs from 1. */
module Amortization {
  import opened Numeric
  import opened ScenarioInputs

  function AnnualRate(inp: Inputs): real
  {
    inp.mortgageRate / 100.0
  }

  function LoanAmount(inp: Inputs): real
  {
    inp.homePrice - inp.downPayment
  }

  /** (1 + rate)^k */
  function Growth(inp: Inputs, k: nat): real
  {
    Pow(1.0 + AnnualRate(inp), k)
  }

  /** The PMT denominator (1 + rate)^loanTerm - 1 is nonzero. */
  predicate PaymentDefined(inp: Inputs)
  {
    Growth(inp, inp.loanTerm) != 1.0
  }

  /** The PMT formula on plain numbers: loan * rate * q / (q - 1), where q is
      (1 + rate)^periods. */
  function Pmt(loan: real, rate: real, q: real): real
    requires q != 1.0
  {
    loan * rate * q / (q - 1.0)
  }

  /** `pmtAnnual` of `calculateMonthlyPayment`. */
  function AnnualPmt(inp: Inputs): real
    requires PaymentDefined(inp)
  {
    Pmt(LoanAmount(inp), AnnualRate(inp), Growth(inp, inp.loanTerm))
  }

  function MonthlyPayment(inp: Inputs): real
    requires PaymentDefined(inp)
  {
    AnnualPmt(inp) / 12.0
  }

  /** `yearlyPayment = monthlyPayment * 12`, the amount the projection pays each year. */
  function YearlyPayment(inp: Inputs): real
    requires PaymentDefined(inp)
  {
    MonthlyPayment(inp) * 12.0
  }

  /** Reference definition of amortization: the balance left after k years
      when `loan` accrues `rate` once a year and `payment` is paid once a year. */
  function BalanceAfter(loan: real, rate: real, payment: real, k: nat): real
  {
    if k == 0 then loan else BalanceAfter(loan, rate, payment, k - 1) * (1.0 + rate) - payment
  }

  /** Closed form of the balance: loan * (q - g) / (q - 1), with q the growth
      over the whole term and g the growth over the years already paid. */
  function Schedule(loan: real, q: real, g: real): real
    requires q != 1.0
  {
    loan * (q - g) / (q - 1.0)
  }

  /** The balance the PMT payment leaves after k years, in closed form. */
  function ScheduledBalance(inp: Inputs, k: nat): real
    requires PaymentDefined(inp)
  {
    Schedule(LoanAmount(inp), Growth(inp, inp.loanTerm), Growth(inp, k))
  }

  lemma YearlyPaymentIsPmt(inp: Inputs)
    requires PaymentDefined(inp)
    ensures YearlyPayment(inp) == AnnualPmt(inp)
  {
    CancelDivisor(AnnualPmt(inp), 12.0);
  }

  lemma PmtTimesDenominator(loan: real, rate: real, q: real)
    requires q != 1.0
    ensures Pmt(loan, rate, q) * (q - 1.0) == loan * rate * q
  {
    CancelDivisor(loan * rate * q, q - 1.0);
  }

  /** On plain numbers: scaling a quotient and subtracting another over the
      same divisor gives one quotient. */
  lemma QuotientStep(a: real, b: real, d: real, c: real)
    requires d != 0.0
    ensures (a / d) * c - b / d == (a * c - b) / d
  {
    CancelDivisor(a, d);
    CancelDivisor(b, d);
    assert ((a / d) * c - b / d) * d == (a / d) * d * c - (b / d) * d;
    DivideBoth((a / d) * c - b / d, d, a * c - b);
  }

  /** One year of the schedule, on plain numbers: paying the PMT amount moves
      the closed form from g to (1 + rate) * g. */
  lemma ScheduleStep(loan: real, rate: real, q: real, prev: real, g: real, next: real)
    requires q != 1.0
    requires prev == Schedule(loan, q, g) && next == (1.0 + rate) * g
    ensures prev * (1.0 + rate) - Pmt(loan, rate, q) == Schedule(loan, q, next)
  {
    QuotientStep(loan * (q - g), loan * rate * q, q - 1.0, 1.0 + rate);
    assert loan * (q - g) * (1.0 + rate) - loan * rate * q == loan * (q - next);
  }

  lemma ScheduleEnds(loan: real, q: real)
    requires q != 1.0
    ensures Schedule(loan, q, 1.0) == loan
    ensures Schedule(loan, q, q) == 0.0
  {
    CancelDivisor(loan, q - 1.0);
  }

  lemma BalanceStep(loan: real, rate: real, payment: real, k: nat)
    requires k >= 1
    ensures BalanceAfter(loan, rate, payment, k) == BalanceAfter(loan, rate, payment, k - 1) * (1.0 + rate) - payment
  {
  }

  lemma GrowthStep(inp: Inputs, k: nat)
    requires k >= 1
    ensures Growth(inp, k) == (1.0 + AnnualRate(inp)) * Growth(inp, k - 1)
  {
  }

  /** Paying the PMT amount every year follows the closed-form schedule. */
  lemma {:induction false} BalanceFollowsSchedule(inp: Inputs, k: nat)
    requires PaymentDefined(inp)
    ensures BalanceAfter(LoanAmount(inp), AnnualRate(inp), YearlyPayment(inp), k)
         == ScheduledBalance(inp, k)
  {
    var loan, rate, q := LoanAmount(inp), AnnualRate(inp), Growth(inp, inp.loanTerm);
    YearlyPaymentIsPmt(inp);
    assert YearlyPayment(inp) == Pmt(loan, rate, q);
    if k == 0 {
      ScheduleEnds(loan, q);
      assert Growth(inp, 0) == 1.0;
    } else {
      BalanceFollowsSchedule(inp, k - 1);
      var prev := BalanceAfter(loan, rate, YearlyPayment(inp), k - 1);
      assert prev == Schedule(loan, q, Growth(inp, k - 1));
      GrowthStep(inp, k);
      ScheduleStep(loan, rate, q, prev, Growth(inp, k - 1), Growth(inp, k));
      BalanceStep(loan, rate, YearlyPayment(inp), k);
    }
  }

  /** The PMT amount retires the loan exactly: after loanTerm yearly
      payments the balance is 0. */
  lemma PaymentRetiresLoan(inp: Inputs)
    requires PaymentDefined(inp)
    ensures BalanceAfter(LoanAmount(inp), AnnualRate(inp), YearlyPayment(inp), inp.loanTerm) == 0.0
  {
    BalanceFollowsSchedule(inp, inp.loanTerm);
    ScheduleEnds(LoanAmount(inp), Growth(inp, inp.loanTerm));
  }

  lemma {:induction false} PowOfOne(n: nat)
    ensures Pow(1.0, n) == 1.0
  {
    if n > 0 {
      PowOfOne(n - 1);
    }
  }

  /** For a nonnegative rate the formula is defined exactly when the rate is
      positive and the term is at least one year: a zero rate gives 0/0. */
  lemma PaymentDefinedIff(inp: Inputs)
    requires inp.mortgageRate >= 0.0
    ensures PaymentDefined(inp) <==> inp.mortgageRate > 0.0 && inp.loanTerm >= 1
  {
    if inp.mortgageRate == 0.0 {
      PowOfOne(inp.loanTerm);
    }
  }

  /** On plain numbers: for 1 <= g <= q the closed form lies in [0, loan],
      equals loan at g = 1 and 0 at g = q. */
  lemma ScheduleBounds(loan: real, q: real, g: real)
    requires loan >= 0.0 && 1.0 <= g <= q && q != 1.0
    ensures 0.0 <= Schedule(loan, q, g) <= loan
    ensures g == 1.0 ==> Schedule(loan, q, g) == loan
    ensures g == q ==> Schedule(loan, q, g) == 0.0
  {
    FractionBounds(q - g, q - 1.0);
    MulDivAssoc(loan, q - g, q - 1.0);
    ScaleBounds(loan, (q - g) / (q - 1.0));
  }

  /** With a positive rate, the schedule starts at the loan amount, ends at 0
      after loanTerm years, and stays within [0, loan] in between. */
  lemma ScheduledBalanceBounds(inp: Inputs, k: nat)
    requires inp.mortgageRate > 0.0 && inp.loanTerm >= 1 && LoanAmount(inp) >= 0.0
    requires k <= inp.loanTerm
    ensures PaymentDefined(inp)
    ensures 0.0 <= ScheduledBalance(inp, k) <= LoanAmount(inp)
    ensures k == 0 ==> ScheduledBalance(inp, k) == LoanAmount(inp)
    ensures k == inp.loanTerm ==> ScheduledBalance(inp, k) == 0.0
  {
    PowMonotone(1.0 + AnnualRate(inp), k, inp.loanTerm);
    ScheduleBounds(LoanAmount(inp), Growth(inp, inp.loanTerm), Growth(inp, k));
  }

  /** On plain numbers: with q > 1 and a nonnegative loan * rate, the PMT
      amount exceeds loan * rate by loan * rate / (q - 1). */
  lemma PmtExceedsInterest(loan: real, rate: real, q: real)
    requires q > 1.0 && loan * rate >= 0.0
    ensures Pmt(loan, rate, q) - loan * rate == loan * rate / (q - 1.0)
    ensures Pmt(loan, rate, q) >= loan * rate
    ensures loan * rate > 0.0 ==> Pmt(loan, rate, q) > loan * rate
  {
    var P := Pmt(loan, rate, q);
    var a := loan * rate;
    PmtTimesDenominator(loan, rate, q);
    assert (P - a) * (q - 1.0) == a;
    DivideBoth(P - a, q - 1.0, a);
  }

  /** With a positive rate and a nonnegative loan the yearly payment covers at
      least the first year's interest (so the balance never grows); strictly
      more when the loan is positive. */
  lemma PaymentCoversInterest(inp: Inputs)
    requires inp.mortgageRate > 0.0 && inp.loanTerm >= 1 && LoanAmount(inp) >= 0.0
    ensures PaymentDefined(inp)
    ensures YearlyPayment(inp) >= LoanAmount(inp) * AnnualRate(inp) >= 0.0
    ensures LoanAmount(inp) > 0.0 ==> YearlyPayment(inp) > LoanAmount(inp) * AnnualRate(inp)
  {
    YearlyPaymentIsPmt(inp);
    PmtExceedsInterest(LoanAmount(inp), AnnualRate(inp), Growth(inp, inp.loanTerm));
  }
}
