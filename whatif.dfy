/** The What-If sweep of the React application (`WhatIfAnalysis` in
    src/utils/whatif.js): two of the four swept parameters span the axes of a
    heatmap, the other two keep their single values, and every cell runs the
    projection on its own scenario and reads off whether renting or buying is
    ahead at the investing horizon. The form fields the class reads from the
    page are parameters here. */
module WhatIf {
  import opened Numeric
  import opened ScenarioInputs
  import opened Amortization
  import opened Results
  import opened Calculator
  import JsNumber

  /** The parameters a sweep can put on an axis. */
  datatype Param = MortgageRate | HomePrice | DownPayment | InvestingHorizon

  /** The y-axis candidates `updateAxisOptions` falls back to. */
  const AxisOptions: seq<Param> := [MortgageRate, HomePrice, DownPayment]

  /** The parameters `createScenario` always sets. */
  const SweptParams: seq<Param> := [MortgageRate, HomePrice, DownPayment, InvestingHorizon]

  /** The slack `getParameterRange` allows above the maximum. */
  const Tolerance: real := 0.0001

  // ---- Axis options ----

  /** `options.find(o => o !== x)`. */
  function FirstOther(options: seq<Param>, x: Param): (o: Param)
    requires exists k :: 0 <= k < |options| && options[k] != x
    ensures o != x
    ensures exists k :: 0 <= k < |options| && options[k] == o && forall l :: 0 <= l < k ==> options[l] == x
  {
    if options[0] != x then options[0]
    else
      assert forall k :: 0 < k < |options| ==> options[1..][k - 1] == options[k];
      var o := FirstOther(options[1..], x);
      var k :| 0 <= k < |options[1..]| && options[1..][k] == o && forall l :: 0 <= l < k ==> options[1..][l] == x;
      assert options[k + 1] == o;
      o
  }

  /** `updateAxisOptions`: the y axis keeps its parameter unless it equals
      the x axis, and then becomes the first of mortgage rate, home price and
      down payment that differs from x. */
  function AdjustYAxis(x: Param, y: Param): (y': Param)
    ensures y' != x
    ensures x != y ==> y' == y
    ensures x == y ==> exists k :: 0 <= k < |AxisOptions| && AxisOptions[k] == y'
                          && forall l :: 0 <= l < k ==> AxisOptions[l] == x
  {
    if x == y then
      assert AxisOptions[0] != x || AxisOptions[1] != x;
      FirstOther(AxisOptions, x)
    else y
  }

  // ---- Parameter ranges ----

  /** A nonnegative count n with n * step <= d fits under d / step. */
  lemma CountFits(n: nat, d: real, step: real)
    requires step > 0.0 && n as real * step <= d
    ensures n <= (d / step).Floor
  {
    CancelDivisor(d, step);
    assert (d / step - n as real) * step == d - n as real * step;
    assert d / step >= n as real;
  }

  /** The loop of `getParameterRange` for a parameter on an axis:
      `for (let v = min; v <= max + 0.0001; v += step) range.push(v)`. The
      values start at min, go up by step, stay within the tolerance above
      max, and the next value would not. */
  method AxisRange(min: real, max: real, step: real) returns (range: seq<real>)
    requires step > 0.0
    ensures forall i :: 0 <= i < |range| ==> range[i] == min + i as real * step
    ensures forall i :: 0 <= i < |range| ==> range[i] <= max + Tolerance
    ensures min + |range| as real * step > max + Tolerance
    ensures |range| > 0 <==> min <= max + Tolerance
    ensures |range| > 0 ==> range[0] == min
  {
    var bound: nat := if min <= max + Tolerance then ((max + Tolerance - min) / step).Floor + 1 else 0;
    range := [];
    var v := min;
    while v <= max + Tolerance
      invariant v == min + |range| as real * step
      invariant forall i :: 0 <= i < |range| ==> range[i] == min + i as real * step
      invariant forall i :: 0 <= i < |range| ==> range[i] <= max + Tolerance
      invariant |range| <= bound
      decreases bound - |range|
    {
      CountFits(|range|, max + Tolerance - min, step);
      range := range + [v];
      v := v + step;
    }
  }

  /** `getParameterRange`: the axis range for a parameter on an axis, and a
      one-element range holding its single value otherwise. */
  method ParameterRange(onAxis: bool, min: real, max: real, step: real, single: real)
    returns (range: seq<real>)
    requires step > 0.0
    ensures !onAxis ==> range == [single]
    ensures onAxis ==> forall i :: 0 <= i < |range| ==> range[i] == min + i as real * step && range[i] <= max + Tolerance
    ensures onAxis ==> min + |range| as real * step > max + Tolerance
  {
    if onAxis {
      range := AxisRange(min, max, step);
    } else {
      range := [single];
    }
  }

  // ---- Scenarios ----

  /** `getBaseScenario`: the form's base values. */
  datatype BaseScenario = BaseScenario(
    monthlyRent: real,
    rentIncrease: real,
    taxMaintenanceRate: real,
    homeReturn: real,
    stockReturn: real,
    inflation: real,
    loanTerm: nat,
    investingHorizon: real,
    closingCostRate: real)

  /** The single-value sliders of the four swept parameters. */
  datatype Singles = Singles(mortgageRate: real, homePrice: real, downPayment: real, investingHorizon: real)

  function SingleValue(singles: Singles, p: Param): real
  {
    match p
    case MortgageRate => singles.mortgageRate
    case HomePrice => singles.homePrice
    case DownPayment => singles.downPayment
    case InvestingHorizon => singles.investingHorizon
  }

  /** `s[p]`. */
  function Value(s: Inputs, p: Param): real
  {
    match p
    case MortgageRate => s.mortgageRate
    case HomePrice => s.homePrice
    case DownPayment => s.downPayment
    case InvestingHorizon => s.investingHorizon
  }

  /** `s[p] = v`: sets one parameter and leaves every other field alone. */
  function SetParam(s: Inputs, p: Param, v: real): (s': Inputs)
    ensures Value(s', p) == v
    ensures forall q :: q != p ==> Value(s', q) == Value(s, q)
    ensures s'.loanTerm == s.loanTerm && s'.taxMaintenanceRate == s.taxMaintenanceRate
    ensures s'.rent == s.rent && s'.rentIncrease == s.rentIncrease
    ensures s'.propertyReassessmentRate == s.propertyReassessmentRate
    ensures s'.homeReturn == s.homeReturn && s'.stockReturn == s.stockReturn
    ensures s'.inflation == s.inflation && s'.closingCostRate == s.closingCostRate
  {
    match p
    case MortgageRate => s.(mortgageRate := v)
    case HomePrice => s.(homePrice := v)
    case DownPayment => s.(downPayment := v)
    case InvestingHorizon => s.(investingHorizon := v)
  }

  /** The reassessment rate a scenario carries: 1% a year, the calculator's
      own default and the rate the older sweep sets. */
  const ReassessmentRate: real := 1.0

  /** The object literal `createScenario` starts from: the base values, the
      monthly rent made annual, and the sweep's defaults for the swept
      parameters. */
  function StartScenario(base: BaseScenario): Inputs
  {
    Inputs(
      homePrice := 1750000.0, downPayment := 525000.0, loanTerm := base.loanTerm,
      mortgageRate := 6.25, taxMaintenanceRate := base.taxMaintenanceRate,
      rent := base.monthlyRent * 12.0, rentIncrease := base.rentIncrease,
      propertyReassessmentRate := ReassessmentRate, homeReturn := base.homeReturn,
      stockReturn := base.stockReturn, inflation := base.inflation,
      closingCostRate := base.closingCostRate, investingHorizon := base.investingHorizon)
  }

  /** The `forEach` over the parameters `ps`: each one on neither axis takes
      its single value. */
  function FillSingles(s: Inputs, ps: seq<Param>, xP: Param, yP: Param, singles: Singles): Inputs
  {
    if |ps| == 0 then s
    else
      var s' := FillSingles(s, ps[..|ps| - 1], xP, yP, singles);
      var p := ps[|ps| - 1];
      if p != xP && p != yP then SetParam(s', p, SingleValue(singles, p)) else s'
  }

  /** What `FillSingles` leaves in every parameter and field. */
  lemma {:induction false} FillSinglesValues(s: Inputs, ps: seq<Param>, xP: Param, yP: Param, singles: Singles)
    ensures var f := FillSingles(s, ps, xP, yP, singles);
      && (forall p :: p in ps && p != xP && p != yP ==> Value(f, p) == SingleValue(singles, p))
      && (forall p :: p !in ps || p == xP || p == yP ==> Value(f, p) == Value(s, p))
      && f.loanTerm == s.loanTerm && f.taxMaintenanceRate == s.taxMaintenanceRate
      && f.rent == s.rent && f.rentIncrease == s.rentIncrease
      && f.propertyReassessmentRate == s.propertyReassessmentRate
      && f.homeReturn == s.homeReturn && f.stockReturn == s.stockReturn
      && f.inflation == s.inflation && f.closingCostRate == s.closingCostRate
  {
    if |ps| > 0 {
      var front := ps[..|ps| - 1];
      FillSinglesValues(s, front, xP, yP, singles);
      assert forall p :: p in ps <==> p in front || p == ps[|ps| - 1];
    }
  }

  /** The scenario of the cell at (xV, yV): singles first, then the x value,
      then the y value. */
  function Scenario(xP: Param, xV: real, yP: Param, yV: real, base: BaseScenario, singles: Singles): Inputs
  {
    SetParam(SetParam(FillSingles(StartScenario(base), SweptParams, xP, yP, singles), xP, xV), yP, yV)
  }

  /** Every scenario puts the y value on the y parameter, the x value on the
      x parameter unless both axes name the same one (y is assigned last),
      the single value on each parameter on neither axis, the yearly rent
      (twelve months of the base rent) and the 1% reassessment rate, and
      carries every other base value unchanged. */
  lemma ScenarioValues(xP: Param, xV: real, yP: Param, yV: real, base: BaseScenario, singles: Singles)
    ensures var s := Scenario(xP, xV, yP, yV, base, singles);
      && Value(s, yP) == yV
      && (xP != yP ==> Value(s, xP) == xV)
      && (forall p :: p != xP && p != yP ==> Value(s, p) == SingleValue(singles, p))
      && s.rent == base.monthlyRent * 12.0
      && s.propertyReassessmentRate == ReassessmentRate
      && s.loanTerm == base.loanTerm && s.taxMaintenanceRate == base.taxMaintenanceRate
      && s.rentIncrease == base.rentIncrease && s.homeReturn == base.homeReturn
      && s.stockReturn == base.stockReturn && s.inflation == base.inflation
      && s.closingCostRate == base.closingCostRate
  {
    FillSinglesValues(StartScenario(base), SweptParams, xP, yP, singles);
    assert forall p :: p in SweptParams;
  }

  /** `createScenario`: the scenario object, updated parameter by parameter.
      The single values are what `getParameterRange` returns for a parameter
      on neither axis. */
  method CreateScenario(xP: Param, xV: real, yP: Param, yV: real, base: BaseScenario, singles: Singles)
    returns (s: Inputs)
    ensures s == Scenario(xP, xV, yP, yV, base, singles)
  {
    var start := StartScenario(base);
    s := start;
    var i := 0;
    while i < |SweptParams|
      invariant 0 <= i <= |SweptParams|
      invariant s == FillSingles(start, SweptParams[..i], xP, yP, singles)
    {
      var p := SweptParams[i];
      if p != xP && p != yP {
        s := SetParam(s, p, SingleValue(singles, p));
      }
      assert SweptParams[..i + 1][..i] == SweptParams[..i];
      i := i + 1;
    }
    assert SweptParams[..|SweptParams|] == SweptParams;
    s := SetParam(s, xP, xV);
    s := SetParam(s, yP, yV);
  }

  // ---- Cells ----

  /** One heatmap cell: the renter's lead in today's money, and the verdict. */
  datatype Cell = Cell(difference: real, recommendation: Recommendation)

  /** The cell of a scenario: the projection's real values at the first year
      reaching the scenario's horizon (the last year if none does), their
      difference, and `diff > 0 ? 'rent' : 'buy'`. */
  function CellOf(s: Inputs): Cell
    requires Computable(s)
  {
    var results := Projection(s);
    var idx := HorizonIndex(results.years, s.investingHorizon);
    var diff := results.rentReals[idx] - results.buyReals[idx];
    Cell(diff, Recommend(diff))
  }

  /** The years column of a projection is 1, 2, ..., RowCount. */
  lemma ProjectionYears(s: Inputs)
    requires Computable(s)
    ensures Projection(s).years == YearNumbers(RowCount(s))
  {
    ProjectionReadsBack(s);
  }

  /** The row a cell reads: its position in the projection. */
  function HorizonRow(s: Inputs): nat
  {
    HorizonIndex(YearNumbers(RowCount(s)), s.investingHorizon)
  }

  /** A cell reports the premium (renter's real value less buyer's) of the
      horizon year, rounded down when the horizon is a fraction, or of year 1
      when the horizon is below 1 (including an absent horizon); it says
      'rent' exactly when that premium is positive. */
  lemma CellReadsHorizonYear(s: Inputs)
    requires Computable(s)
    ensures HorizonRow(s) < RowCount(s)
    ensures CellOf(s).difference == Row(s, HorizonRow(s)).premium
    ensures CellOf(s).recommendation == Rent <==> Row(s, HorizonRow(s)).premium > 0.0
    ensures s.investingHorizon >= 1.0 ==> Row(s, HorizonRow(s)).year == s.investingHorizon.Floor
    ensures s.investingHorizon < 1.0 ==> Row(s, HorizonRow(s)).year == 1
  {
    ProjectionReadsBack(s);
    ProjectionYears(s);
    var n := RowCount(s);
    var k := HorizonRow(s);
    var r := Row(s, k);
    assert RowAt(Projection(s), k) == r;
    if k == 0 {
      assert r == FirstRow(s);
    } else {
      NextRowColumns(s, Row(s, k - 1), k + 1);
    }
    RowYear(s, k);
    HorizonIndexOfYears(n, s.investingHorizon);
    RowCountByHorizon(s);
  }

  // ---- The sweep ----

  /** The body of the inner loop of `calculateHeatmapData` after the
      scenario is built: project it, find the horizon year, and classify. */
  method ComputeCell(scenario: Inputs) returns (cell: Cell)
    requires Computable(scenario)
    ensures cell == CellOf(scenario)
  {
    var projection := CalculateAll(scenario);
    ProjectionReadsBack(scenario);
    var idx := HorizonIndex(projection.years, scenario.investingHorizon);
    var diff := projection.rentReals[idx] - projection.buyReals[idx];
    cell := Cell(diff, Recommend(diff));
  }

  /** What `calculateHeatmapData` returns. */
  datatype HeatmapResults = HeatmapResults(
    xValues: seq<real>, yValues: seq<real>, data: seq<seq<Cell>>, xParam: Param, yParam: Param)

  /** Every cell's scenario can be projected. */
  predicate AllComputable(xP: Param, yP: Param, xRange: seq<real>, yRange: seq<real>, base: BaseScenario, singles: Singles)
  {
    forall i, j :: 0 <= i < |yRange| && 0 <= j < |xRange| ==> Computable(Scenario(xP, xRange[j], yP, yRange[i], base, singles))
  }

  /** `calculateHeatmapData`: one row per y value, holding one cell per x
      value; cell (i, j) is the cell of the scenario at (xRange[j], yRange[i]). */
  method CalculateHeatmapData(xP: Param, yP: Param, xRange: seq<real>, yRange: seq<real>,
                              base: BaseScenario, singles: Singles)
    returns (results: HeatmapResults)
    requires AllComputable(xP, yP, xRange, yRange, base, singles)
    ensures results.xValues == xRange && results.yValues == yRange
    ensures results.xParam == xP && results.yParam == yP
    ensures |results.data| == |yRange|
    ensures forall i :: 0 <= i < |yRange| ==> |results.data[i]| == |xRange|
    ensures forall i, j :: 0 <= i < |yRange| && 0 <= j < |xRange| ==>
              results.data[i][j] == CellOf(Scenario(xP, xRange[j], yP, yRange[i], base, singles))
  {
    var data: seq<seq<Cell>> := [];
    var i := 0;
    while i < |yRange|
      invariant 0 <= i <= |yRange|
      invariant |data| == i
      invariant forall a :: 0 <= a < i ==> |data[a]| == |xRange|
      invariant forall a, b :: 0 <= a < i && 0 <= b < |xRange| ==>
                  data[a][b] == CellOf(Scenario(xP, xRange[b], yP, yRange[a], base, singles))
    {
      var row := HeatmapRow(xP, yP, xRange, yRange[i], base, singles);
      data := data + [row];
      i := i + 1;
    }
    results := HeatmapResults(xRange, yRange, data, xP, yP);
  }

  /** The inner loop of `calculateHeatmapData` for one y value: one cell per
      x value, in order. */
  method HeatmapRow(xP: Param, yP: Param, xRange: seq<real>, yV: real, base: BaseScenario, singles: Singles)
    returns (row: seq<Cell>)
    requires forall b :: 0 <= b < |xRange| ==> Computable(Scenario(xP, xRange[b], yP, yV, base, singles))
    ensures |row| == |xRange|
    ensures forall b :: 0 <= b < |xRange| ==> row[b] == CellOf(Scenario(xP, xRange[b], yP, yV, base, singles))
  {
    row := [];
    var j := 0;
    while j < |xRange|
      invariant 0 <= j <= |xRange|
      invariant |row| == j
      invariant forall b :: 0 <= b < j ==> row[b] == CellOf(Scenario(xP, xRange[b], yP, yV, base, singles))
    {
      var scenario := CreateScenario(xP, xRange[j], yP, yV, base, singles);
      var cell := ComputeCell(scenario);
      row := row + [cell];
      j := j + 1;
    }
  }

  // ---- The scenario as written ----

  /** The columns of a later year that the reassessment rate reaches, in
      JavaScript numbers: the taxable value, the portfolio at year end, the
      total invested and the renter's real value. */
  datatype RenterColumns = RenterColumns(
    taxableValue: JsNumber.Number, yearEndBalance: JsNumber.Number,
    totalInvested: JsNumber.Number, rentReal: JsNumber.Number)

  /** Lines 160-209 of `calculateAll` for year `year` in JavaScript numbers,
      with the reassessment rate given as a number. Each step is the
      projection's column formula on plain amounts, and NaN as soon as one
      of its operands is NaN. The loan, interest and rent expense do not
      depend on the rate and come from `row`, that year of the real-valued
      projection. */
  function NextRenterColumns(inp: Inputs, rate: JsNumber.Number, prev: RenterColumns, row: YearRow, year: nat): RenterColumns
    requires Computable(inp)
  {
    var taxableValue :=
      if prev.taxableValue.Num? && rate.Num? then JsNumber.Num(Grow(prev.taxableValue.value, rate.value)) else JsNumber.NaN;
    var taxMaintenance :=
      if taxableValue.Num? then JsNumber.Num(TaxMaintenance(inp, taxableValue.value)) else JsNumber.NaN;
    var fedSavings := FederalSavings(DeductibleInterest(row.interest, row.loan, FedLoanLimit));
    var caDeductible := DeductibleInterest(row.interest, row.loan, CaLoanLimit);
    var newInvestment :=
      if taxMaintenance.Num? then
        var savings := fedSavings + CaliforniaSavings(caDeductible, taxMaintenance.value);
        JsNumber.Num(BuyerAnnualCost(row.loan, YearlyPayment(inp), taxMaintenance.value, savings) - row.rentExpense)
      else JsNumber.NaN;
    var yearEndBalance :=
      if prev.yearEndBalance.Num? && newInvestment.Num? then
        JsNumber.Num(prev.yearEndBalance.value + RentReturn(inp, prev.yearEndBalance.value) + newInvestment.value)
      else JsNumber.NaN;
    var totalInvested := JsNumber.Add(prev.totalInvested, newInvestment);
    var rentValue :=
      if yearEndBalance.Num? && totalInvested.Num? then
        JsNumber.Num(yearEndBalance.value - RentTax(yearEndBalance.value, totalInvested.value))
      else JsNumber.NaN;
    var rentReal := if rentValue.Num? then JsNumber.Num(Deflate(inp, rentValue.value, year)) else JsNumber.NaN;
    RenterColumns(taxableValue, yearEndBalance, totalInvested, rentReal)
  }

  /** Those columns for year k + 1: year 1 does not read the rate. */
  function RenterColumnsAt(inp: Inputs, rate: JsNumber.Number, k: nat): RenterColumns
    requires Computable(inp)
  {
    if k == 0 then
      var r := Row(inp, 0);
      RenterColumns(JsNumber.Num(r.taxableValue), JsNumber.Num(r.yearEndBalance),
        JsNumber.Num(r.totalInvested), JsNumber.Num(r.rentReal))
    else NextRenterColumns(inp, rate, RenterColumnsAt(inp, rate, k - 1), Row(inp, k), k + 1)
  }

  /** A year's columns as JavaScript numbers. */
  function Numbers(r: YearRow): RenterColumns
  {
    RenterColumns(JsNumber.Num(r.taxableValue), JsNumber.Num(r.yearEndBalance),
      JsNumber.Num(r.totalInvested), JsNumber.Num(r.rentReal))
  }

  /** One later year: with the scenario's own rate the JavaScript-number
      columns follow the projection's. */
  lemma NextRenterColumnsAgree(inp: Inputs, prev: YearRow, year: nat)
    requires Computable(inp)
    ensures NextRenterColumns(inp, JsNumber.Num(inp.propertyReassessmentRate), Numbers(prev),
                              NextRow(inp, prev, year), year)
         == Numbers(NextRow(inp, prev, year))
  {
    NextRowColumns(inp, prev, year);
  }

  /** With the scenario's own rate the JavaScript-number columns are the
      projection's in every year. */
  lemma {:induction false} RenterColumnsAgree(inp: Inputs, k: nat)
    requires Computable(inp)
    ensures RenterColumnsAt(inp, JsNumber.Num(inp.propertyReassessmentRate), k) == Numbers(Row(inp, k))
  {
    if k > 0 {
      var j := k - 1;
      RenterColumnsAgree(inp, j);
      assert Row(inp, k) == NextRow(inp, Row(inp, j), k + 1);
      NextRenterColumnsAgree(inp, Row(inp, j), k + 1);
    }
  }

  /** The cell `calculateHeatmapData` shows for the scenario `createScenario`
      builds as written: that object has no `propertyReassessmentRate`, so
      `1 + undefined / 100` is NaN in every year after the first. The
      difference is a JavaScript number and the verdict `diff > 0`. */
  datatype JsCell = JsCell(difference: JsNumber.Number, recommendation: Recommendation)

  function CellAsWritten(s: Inputs): JsCell
    requires Computable(s)
  {
    var k := HorizonRow(s);
    var diff := JsNumber.Sub(RenterColumnsAt(s, JsNumber.NaN, k).rentReal, JsNumber.Num(Row(s, k).buyReal));
    JsCell(diff, if JsNumber.IsPositive(diff) then Rent else Buy)
  }

  /** Without a reassessment rate every year after the first loses its
      taxable value, and with it the portfolio and the renter's real value. */
  lemma UnsetRateLosesLaterYears(inp: Inputs, k: nat)
    requires Computable(inp) && k >= 1
    ensures RenterColumnsAt(inp, JsNumber.NaN, k) == RenterColumns(JsNumber.NaN, JsNumber.NaN, JsNumber.NaN, JsNumber.NaN)
  {
  }

  /** As written, a horizon of two years or more makes every cell's
      difference NaN and every verdict 'buy', whatever the scenario. */
  lemma AsWrittenAlwaysBuys(s: Inputs)
    requires Computable(s) && s.investingHorizon >= 2.0
    ensures CellAsWritten(s).difference == JsNumber.NaN
    ensures CellAsWritten(s).recommendation == Buy
  {
    RowCountByHorizon(s);
    HorizonIndexOfYears(RowCount(s), s.investingHorizon);
    UnsetRateLosesLaterYears(s, HorizonRow(s));
  }

  /** Every cell the corrected sweep marks 'rent' at a horizon of two years
      or more is marked 'buy' as written. */
  lemma UnsetRateFlipsCell(s: Inputs)
    requires Computable(s) && s.investingHorizon >= 2.0
    requires Row(s, HorizonRow(s)).premium > 0.0
    ensures CellOf(s).recommendation == Rent
    ensures CellAsWritten(s).recommendation == Buy
  {
    CellReadsHorizonYear(s);
    AsWrittenAlwaysBuys(s);
  }
}
