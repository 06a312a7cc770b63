/** The input record of `RentBuyCalculator.calculateAll`, and how many years
    it projects. Rates are percentages, divided by 100 where they are used. */
module ScenarioInputs {

  /** One scenario. `investingHorizon` is 0 when the caller leaves it out:
      the calculator's `inputs.investingHorizon ? ... : ...` treats an absent
      horizon and a horizon of 0 alike. */
  datatype Inputs = Inputs(
    homePrice: real,
    downPayment: real,
    loanTerm: nat,
    mortgageRate: real,
    taxMaintenanceRate: real,
    rent: real,
    rentIncrease: real,
    propertyReassessmentRate: real,
    homeReturn: real,
    stockReturn: real,
    inflation: real,
    closingCostRate: real,
    investingHorizon: real)

  /** `maxYears`: the investing horizon when it is nonzero, else loanTerm + 10. */
  function MaxYears(inp: Inputs): real
  {
    if inp.investingHorizon != 0.0 then inp.investingHorizon else (inp.loanTerm + 10) as real
  }

  /** Number of projected years: year 1 is always emitted, then the loop
      `for (year = 2; year <= maxYears; year++)` adds years 2..n. */
  function RowCount(inp: Inputs): (n: nat)
    ensures n >= 1
    ensures n >= 2 ==> n as real <= MaxYears(inp)
    ensures MaxYears(inp) < (n + 1) as real
  {
    if MaxYears(inp) >= 2.0 then MaxYears(inp).Floor else 1
  }

  /** The defaults `getInputs` returns when no inputs were set (the
      reference spreadsheet's values). No horizon is given. */
  function DefaultInputs(): Inputs
  {
    Inputs(
      homePrice := 1750000.0, downPayment := 525000.0, loanTerm := 30,
      mortgageRate := 6.25, taxMaintenanceRate := 1.11, rent := 54000.0,
      rentIncrease := 5.0, propertyReassessmentRate := 1.0, homeReturn := 3.0,
      stockReturn := 6.0, inflation := 2.0, closingCostRate := 3.0,
      investingHorizon := 0.0)
  }

  /** The loop emits exactly the years 1..RowCount: the horizon rounded
      down when it is at least 1, a single year when it is below 1 but not 0,
      and loanTerm + 10 years when it is 0 (absent). */
  lemma {:induction false} RowCountByHorizon(inp: Inputs)
    ensures inp.investingHorizon == 0.0 ==> RowCount(inp) == inp.loanTerm + 10
    ensures inp.investingHorizon >= 1.0 ==> RowCount(inp) == inp.investingHorizon.Floor
    ensures inp.investingHorizon != 0.0 && inp.investingHorizon < 2.0 ==> RowCount(inp) == 1
  {
  }
}
