/** The What-If sweep of the plain-HTML pages (`WhatIfAnalysis` in the root
    whatif.js), which runs the older calculator. Its axis ranges have a
    fixed number of evenly spaced values; its scenarios are built from a
    down-payment percentage, rounded, checked and rejected when a value is
    missing or out of range; its sweep first builds every scenario and then
    fills a preallocated matrix; its summary counts the verdicts. The form
    fields the class reads from the page are parameters here. */
module LegacyWhatIf {
  import opened Numeric
  import opened ScenarioInputs
  import opened Amortization
  import opened Results
  import J = JsNumber
  import Calculator
  import LegacyCalculator
  import WhatIf

  /** The parameters a sweep can put on an axis. */
  datatype Param = MortgageRate | HomePrice | DownPaymentPercent | InvestingHorizon

  /** The y-axis candidates `updateAxisOptions` filters. */
  const AxisOptions: seq<Param> := [MortgageRate, HomePrice, DownPaymentPercent]

  /** The parameters `createScenario` always sets. */
  const SweptParams: seq<Param> := [MortgageRate, HomePrice, DownPaymentPercent, InvestingHorizon]

  /** The errors the sweep throws, one per message. */
  datatype Error =
    | InvalidRange          // "Invalid range parameters"
    | InvalidValue          // "Invalid numeric value"
    | InvalidMortgageRate
    | InvalidStockReturn
    | InvalidHomeReturn
    | InvalidInflation
    | NaNResult             // "Calculator producing NaN values"

  datatype Outcome<T> = Ok(value: T) | Fails(error: Error)

  // ---- Axis options ----

  /** `options.filter(o => o !== x)`. */
  function Without(options: seq<Param>, x: Param): (r: seq<Param>)
    ensures forall o :: o in r <==> o in options && o != x
    ensures (exists k :: 0 <= k < |options| && options[k] != x) ==>
              |r| > 0 && exists k :: 0 <= k < |options| && options[k] == r[0] && forall l :: 0 <= l < k ==> options[l] == x
  {
    if |options| == 0 then []
    else
      var rest := Without(options[1..], x);
      assert forall k :: 0 < k < |options| ==> options[1..][k - 1] == options[k];
      if options[0] != x then [options[0]] + rest
      else
        assert (exists k :: 0 <= k < |options| && options[k] != x) ==> exists k :: 0 <= k < |options[1..]| && options[1..][k] != x;
        if exists k :: 0 <= k < |options[1..]| && options[1..][k] != x then
          var k :| 0 <= k < |options[1..]| && options[1..][k] == rest[0] && forall l :: 0 <= l < k ==> options[1..][l] == x;
          assert options[k + 1] == rest[0];
          rest
        else rest
  }

  /** `updateAxisOptions`: when both axes name the same parameter, the y axis
      becomes the first of mortgage rate, home price and down-payment
      percentage that differs from x; otherwise it is left alone. */
  function AdjustYAxis(x: Param, y: Param): (y': Param)
    ensures y' != x
    ensures x != y ==> y' == y
    ensures x == y ==> exists k :: 0 <= k < |AxisOptions| && AxisOptions[k] == y'
                          && forall l :: 0 <= l < k ==> AxisOptions[l] == x
  {
    if x == y then
      assert AxisOptions[0] != x || AxisOptions[1] != x;
      Without(AxisOptions, x)[0]
    else y
  }

  // ---- Range sliders ----

  /** The range sliders `validateRanges` reads: interest and price with
      `parseFloat`, down payment with `parseInt`. */
  datatype RangeSliders = RangeSliders(
    interestMin: real, interestMax: real, priceMin: real, priceMax: real, downMin: int, downMax: int)

  /** `validateRanges`: a maximum not above its minimum is raised to the
      minimum plus one step (1 point, $500,000, 5 points), capped at the
      slider's top (15%, $5,000,000, 50%). */
  function ValidateRanges(r: RangeSliders): (r': RangeSliders)
    ensures r'.interestMin == r.interestMin && r'.priceMin == r.priceMin && r'.downMin == r.downMin
    ensures r.interestMin < r.interestMax ==> r'.interestMax == r.interestMax
    ensures r.priceMin < r.priceMax ==> r'.priceMax == r.priceMax
    ensures r.downMin < r.downMax ==> r'.downMax == r.downMax
    ensures r.interestMin >= r.interestMax ==> r'.interestMax == Min(r.interestMin + 1.0, 15.0)
    ensures r.priceMin >= r.priceMax ==> r'.priceMax == Min(r.priceMin + 500000.0, 5000000.0)
    ensures r.downMin >= r.downMax ==> r'.downMax == if r.downMin + 5 <= 50 then r.downMin + 5 else 50
  {
    var interestMax := if r.interestMin >= r.interestMax then Min(r.interestMin + 1.0, 15.0) else r.interestMax;
    var priceMax := if r.priceMin >= r.priceMax then Min(r.priceMin + 500000.0, 5000000.0) else r.priceMax;
    var downMax := if r.downMin >= r.downMax then (if r.downMin + 5 <= 50 then r.downMin + 5 else 50) else r.downMax;
    r.(interestMax := interestMax, priceMax := priceMax, downMax := downMax)
  }

  /** After `validateRanges` every minimum below its slider's top lies
      strictly below its maximum; a minimum at the top is left equal to it. */
  lemma ValidateRangesOrders(r: RangeSliders)
    ensures r.interestMin < 15.0 ==> ValidateRanges(r).interestMin < ValidateRanges(r).interestMax
    ensures r.priceMin < 5000000.0 ==> ValidateRanges(r).priceMin < ValidateRanges(r).priceMax
    ensures r.downMin < 50 ==> ValidateRanges(r).downMin < ValidateRanges(r).downMax
    ensures r.interestMin == 15.0 && r.interestMax <= 15.0 ==> ValidateRanges(r).interestMax == r.interestMin
  {
  }

  /** Validating twice changes nothing more. */
  lemma ValidateRangesIdempotent(r: RangeSliders)
    ensures ValidateRanges(ValidateRanges(r)) == ValidateRanges(r)
  {
  }

  // ---- Parameter ranges ----

  /** `steps = Math.round((max - min) / stepSize) + 1`. */
  function Steps(min: real, max: real, stepSize: real): (n: int)
    requires stepSize > 0.0
    ensures min <= max ==> n >= 1
    ensures min == max ==> n == 1
    ensures min > max + stepSize / 2.0 ==> n <= 0
  {
    Round((max - min) / stepSize) + 1
  }

  /** Value i of a range with `steps` values: `min + (max - min) * i / (steps - 1)`,
      and min alone when there is a single value. */
  function RangeValue(min: real, max: real, i: nat, steps: int): (v: real)
    ensures i == 0 ==> v == min
  {
    if steps == 1 then min else min + (max - min) * i as real / (steps - 1) as real
  }

  /** Value i as written, in JavaScript numbers: with a single value the
      quotient is 0 / 0. */
  function RangeValueAsWritten(min: real, max: real, i: nat, steps: int): J.Number
    requires i < steps
  {
    assert steps == 1 ==> i as real == 0.0;
    J.Add(J.Num(min), J.Quotient((max - min) * i as real, (steps - 1) as real))
  }

  /** With two values or more the range runs evenly from min to max: it
      starts at min, ends at max, and every value lies between them. */
  lemma RangeEndpoints(min: real, max: real, steps: int)
    requires steps >= 2
    ensures RangeValue(min, max, 0, steps) == min
    ensures RangeValue(min, max, steps - 1, steps) == max
    ensures min <= max ==> forall i: nat :: i < steps ==> min <= RangeValue(min, max, i, steps) <= max
  {
    var d := (steps - 1) as real;
    DivideBoth(0.0, d, (max - min) * 0.0);
    CancelDivisor(max - min, d);
    if min <= max {
      forall i: nat | i < steps
        ensures min <= RangeValue(min, max, i, steps) <= max
      {
        RangeValueBetween(min, max, i, steps);
      }
    }
  }

  lemma RangeValueBetween(min: real, max: real, i: nat, steps: int)
    requires steps >= 2 && i < steps && min <= max
    ensures min <= RangeValue(min, max, i, steps) <= max
  {
    var d := (steps - 1) as real;
    assert 0.0 <= i as real <= d;
    FractionBounds(i as real, d);
    ScaleBounds(max - min, i as real / d);
    MulDivAssoc(max - min, i as real, d);
  }

  /** Successive values are one `(max - min) / (steps - 1)` apart. */
  lemma RangeSpacing(min: real, max: real, i: nat, steps: int)
    requires steps >= 2 && i + 1 < steps
    ensures RangeValue(min, max, i + 1, steps) - RangeValue(min, max, i, steps) == (max - min) / (steps - 1) as real
  {
    var d := (steps - 1) as real;
    MulDivAssoc(max - min, (i + 1) as real, d);
    MulDivAssoc(max - min, i as real, d);
    assert (i + 1) as real / d - i as real / d == 1.0 / d;
    MulDivAssoc(max - min, 1.0, d);
    assert (max - min) * ((i + 1) as real / d) - (max - min) * (i as real / d) == (max - min) * (1.0 / d);
  }

  /** The range as written agrees with the intended one from two values on;
      with a single value (min == max, for instance) it holds NaN instead of min. */
  lemma RangeAsWrittenLosesSingleValue(min: real, max: real, i: nat, steps: int)
    requires i < steps
    ensures steps >= 2 ==> RangeValueAsWritten(min, max, i, steps) == J.Num(RangeValue(min, max, i, steps))
    ensures steps == 1 ==> RangeValueAsWritten(min, max, i, steps) == J.NaN
  {
  }

  /** `getParameterRange` for a parameter on an axis, as written: the error
      for a NaN bound, else `steps` values from the loop
      `for (i = 0; i < steps; i++) range.push(min + (max - min) * i / (steps - 1))`. */
  method AxisRangeAsWritten(min: J.Number, max: J.Number, stepSize: real) returns (r: Outcome<seq<J.Number>>)
    requires stepSize > 0.0
    ensures r.Fails? <==> min.NaN? || max.NaN?
    ensures r.Fails? ==> r.error == InvalidRange
    ensures r.Ok? ==> var steps := Steps(min.value, max.value, stepSize);
      && |r.value| == (if steps > 0 then steps else 0)
      && forall i :: 0 <= i < |r.value| ==> r.value[i] == RangeValueAsWritten(min.value, max.value, i, steps)
  {
    if min.NaN? || max.NaN? {
      return Fails(InvalidRange);
    }
    var steps := Steps(min.value, max.value, stepSize);
    var range: seq<J.Number> := [];
    var i := 0;
    while i < steps
      invariant 0 <= i <= (if steps > 0 then steps else 0) && |range| == i
      invariant forall k :: 0 <= k < i ==> range[k] == RangeValueAsWritten(min.value, max.value, k, steps)
    {
      range := range + [RangeValueAsWritten(min.value, max.value, i, steps)];
      i := i + 1;
    }
    r := Ok(range);
  }

  /** `getParameterRange` for a parameter on an axis, with a single value
      giving min. */
  method AxisRange(min: J.Number, max: J.Number, stepSize: real) returns (r: Outcome<seq<J.Number>>)
    requires stepSize > 0.0
    ensures r.Fails? <==> min.NaN? || max.NaN?
    ensures r.Fails? ==> r.error == InvalidRange
    ensures r.Ok? ==> var steps := Steps(min.value, max.value, stepSize);
      && |r.value| == (if steps > 0 then steps else 0)
      && forall i :: 0 <= i < |r.value| ==> r.value[i] == J.Num(RangeValue(min.value, max.value, i, steps))
  {
    if min.NaN? || max.NaN? {
      return Fails(InvalidRange);
    }
    var steps := Steps(min.value, max.value, stepSize);
    var range: seq<J.Number> := [];
    var i := 0;
    while i < steps
      invariant 0 <= i <= (if steps > 0 then steps else 0) && |range| == i
      invariant forall k :: 0 <= k < i ==> range[k] == J.Num(RangeValue(min.value, max.value, k, steps))
    {
      range := range + [J.Num(RangeValue(min.value, max.value, i, steps))];
      i := i + 1;
    }
    r := Ok(range);
  }

  /** `getParameterRange`: the axis range for a parameter on an axis, and the
      single value alone otherwise. */
  method ParameterRange(onAxis: bool, min: J.Number, max: J.Number, stepSize: real, single: J.Number)
    returns (r: Outcome<seq<J.Number>>)
    requires stepSize > 0.0
    ensures !onAxis ==> r == Ok([single])
    ensures onAxis ==> (r.Fails? <==> min.NaN? || max.NaN?)
    ensures onAxis && r.Ok? ==> var steps := Steps(min.value, max.value, stepSize);
      && |r.value| == (if steps > 0 then steps else 0)
      && forall i :: 0 <= i < |r.value| ==> r.value[i] == J.Num(RangeValue(min.value, max.value, i, steps))
  {
    if onAxis {
      r := AxisRange(min, max, stepSize);
    } else {
      r := Ok([single]);
    }
  }

  // ---- Scenarios ----

  /** `getBaseScenario`: the form's base values (it rejects NaN and infinite
      ones itself). */
  datatype BaseScenario = BaseScenario(
    monthlyRent: real,
    rentIncrease: real,
    taxMaintenanceRate: real,
    homeReturn: real,
    stockReturn: real,
    inflation: real,
    loanTerm: nat,
    investingHorizon: real)

  /** The single-value sliders, as `parseFloat` reads them. */
  datatype Singles = Singles(mortgageRate: J.Number, homePrice: J.Number, downPaymentPercent: J.Number, investingHorizon: J.Number)

  /** The scenario object before its checks: the swept parameters hold
      whatever numbers they were given, NaN included. */
  datatype Draft = Draft(
    homePrice: J.Number,
    loanTerm: nat,
    downPaymentPercent: J.Number,
    mortgageRate: J.Number,
    taxMaintenanceRate: real,
    rent: real,
    rentIncrease: real,
    propertyReassessmentRate: real,
    homeReturn: real,
    stockReturn: real,
    inflation: real,
    investingHorizon: J.Number)

  function SingleValue(singles: Singles, p: Param): J.Number
  {
    match p
    case MortgageRate => singles.mortgageRate
    case HomePrice => singles.homePrice
    case DownPaymentPercent => singles.downPaymentPercent
    case InvestingHorizon => singles.investingHorizon
  }

  /** `scenario[p]`. */
  function Value(d: Draft, p: Param): J.Number
  {
    match p
    case MortgageRate => d.mortgageRate
    case HomePrice => d.homePrice
    case DownPaymentPercent => d.downPaymentPercent
    case InvestingHorizon => d.investingHorizon
  }

  /** `scenario[p] = v`: sets one parameter and leaves every other field alone. */
  function SetParam(d: Draft, p: Param, v: J.Number): (d': Draft)
    ensures Value(d', p) == v
    ensures forall q :: q != p ==> Value(d', q) == Value(d, q)
    ensures d'.loanTerm == d.loanTerm && d'.taxMaintenanceRate == d.taxMaintenanceRate
    ensures d'.rent == d.rent && d'.rentIncrease == d.rentIncrease
    ensures d'.propertyReassessmentRate == d.propertyReassessmentRate
    ensures d'.homeReturn == d.homeReturn && d'.stockReturn == d.stockReturn && d'.inflation == d.inflation
  {
    match p
    case MortgageRate => d.(mortgageRate := v)
    case HomePrice => d.(homePrice := v)
    case DownPaymentPercent => d.(downPaymentPercent := v)
    case InvestingHorizon => d.(investingHorizon := v)
  }

  /** The object literal `createScenario` starts from. */
  function StartDraft(base: BaseScenario): Draft
  {
    Draft(
      homePrice := J.Num(1750000.0), loanTerm := base.loanTerm,
      downPaymentPercent := J.Num(30.0), mortgageRate := J.Num(6.25),
      taxMaintenanceRate := base.taxMaintenanceRate, rent := base.monthlyRent * 12.0,
      rentIncrease := base.rentIncrease, propertyReassessmentRate := 1.0,
      homeReturn := base.homeReturn, stockReturn := base.stockReturn,
      inflation := base.inflation, investingHorizon := J.Num(base.investingHorizon))
  }

  /** The `forEach` over the parameters `ps`: each one on neither axis takes
      its single value. */
  function FillSingles(d: Draft, ps: seq<Param>, xP: Param, yP: Param, singles: Singles): (f: Draft)
    ensures f.loanTerm == d.loanTerm && f.taxMaintenanceRate == d.taxMaintenanceRate
    ensures f.rent == d.rent && f.rentIncrease == d.rentIncrease
    ensures f.propertyReassessmentRate == d.propertyReassessmentRate
    ensures f.homeReturn == d.homeReturn && f.stockReturn == d.stockReturn && f.inflation == d.inflation
  {
    if |ps| == 0 then d
    else
      var d' := FillSingles(d, ps[..|ps| - 1], xP, yP, singles);
      var p := ps[|ps| - 1];
      if p != xP && p != yP then SetParam(d', p, SingleValue(singles, p)) else d'
  }

  lemma {:induction false} FillSinglesValues(d: Draft, ps: seq<Param>, xP: Param, yP: Param, singles: Singles)
    ensures var f := FillSingles(d, ps, xP, yP, singles);
      && (forall p :: p in ps && p != xP && p != yP ==> Value(f, p) == SingleValue(singles, p))
      && (forall p :: p !in ps || p == xP || p == yP ==> Value(f, p) == Value(d, p))
  {
    if |ps| > 0 {
      var front := ps[..|ps| - 1];
      FillSinglesValues(d, front, xP, yP, singles);
      assert forall p :: p in ps <==> p in front || p == ps[|ps| - 1];
    }
  }

  /** `Math.round(parseFloat(v) * 10000) / 10000`: v to four decimals. */
  function Round4(v: J.Number): (r: J.Number)
    ensures r.Num? <==> v.Num?
  {
    if v.Num? then J.Num(Round(v.value * 10000.0) as real / 10000.0) else J.NaN
  }

  /** Rounding to four decimals moves a value by at most half of 0.0001. */
  lemma Round4Close(v: real)
    ensures -0.00005 < Round4(J.Num(v)).value - v <= 0.00005
  {
    var n := Round(v * 10000.0) as real;
    CancelDivisor(v, 10000.0);
    assert (n / 10000.0 - v) * 10000.0 == n - v * 10000.0;
  }

  /** The scenario of the cell at (xV, yV) before its checks: singles first,
      then the rounded x value, then the rounded y value. */
  function DraftOf(xP: Param, xV: J.Number, yP: Param, yV: J.Number, base: BaseScenario, singles: Singles): (d: Draft)
    ensures d.loanTerm == base.loanTerm
  {
    SetParam(SetParam(FillSingles(StartDraft(base), SweptParams, xP, yP, singles), xP, Round4(xV)), yP, Round4(yV))
  }

  /** Every draft puts the rounded y value on the y parameter, the rounded x
      value on the x parameter unless both axes name it, the single value on
      each parameter on neither axis, twelve months of rent and the 1%
      reassessment rate, and carries the other base values. */
  lemma DraftValues(xP: Param, xV: J.Number, yP: Param, yV: J.Number, base: BaseScenario, singles: Singles)
    ensures var d := DraftOf(xP, xV, yP, yV, base, singles);
      && Value(d, yP) == Round4(yV)
      && (xP != yP ==> Value(d, xP) == Round4(xV))
      && (forall p :: p != xP && p != yP ==> Value(d, p) == SingleValue(singles, p))
      && d.rent == base.monthlyRent * 12.0
      && d.propertyReassessmentRate == 1.0
      && d.loanTerm == base.loanTerm && d.taxMaintenanceRate == base.taxMaintenanceRate
      && d.rentIncrease == base.rentIncrease && d.homeReturn == base.homeReturn
      && d.stockReturn == base.stockReturn && d.inflation == base.inflation
  {
    FillSinglesValues(StartDraft(base), SweptParams, xP, yP, singles);
    assert forall p :: p in SweptParams;
  }

  /** A scenario that passed its checks, with its derived amounts. */
  datatype ValidScenario = ValidScenario(
    homePrice: real,
    loanTerm: nat,
    downPaymentPercent: real,
    mortgageRate: real,
    taxMaintenanceRate: real,
    rent: real,
    rentIncrease: real,
    propertyReassessmentRate: real,
    homeReturn: real,
    stockReturn: real,
    inflation: real,
    investingHorizon: real,
    downPayment: real,
    loanAmount: real,
    propertyTaxAmount: real,
    closingCostsAmount: real)

  /** Every swept parameter is a number. */
  predicate AllNumbers(d: Draft)
  {
    d.homePrice.Num? && d.downPaymentPercent.Num? && d.mortgageRate.Num? && d.investingHorizon.Num?
  }

  /** The rates stay within the bounds `createScenario` accepts. */
  predicate RatesInBounds(mortgageRate: real, stockReturn: real, homeReturn: real, inflation: real)
  {
    && 0.0 <= mortgageRate <= 20.0
    && -10.0 <= stockReturn <= 50.0
    && -10.0 <= homeReturn <= 50.0
    && -5.0 <= inflation <= 20.0
  }

  /** The amounts `createScenario` derives from a draft whose swept
      parameters are numbers: the down payment (rounded to the dollar), the
      loan, the property tax (to the cent) and 3% closing costs. */
  function Derive(d: Draft): (v: ValidScenario)
    requires AllNumbers(d)
    ensures v.homePrice == d.homePrice.value && v.mortgageRate == d.mortgageRate.value
    ensures v.downPaymentPercent == d.downPaymentPercent.value
    ensures v.investingHorizon == d.investingHorizon.value
    ensures v.loanTerm == d.loanTerm && v.rent == d.rent && v.rentIncrease == d.rentIncrease
    ensures v.taxMaintenanceRate == d.taxMaintenanceRate
    ensures v.propertyReassessmentRate == d.propertyReassessmentRate
    ensures v.homeReturn == d.homeReturn && v.stockReturn == d.stockReturn && v.inflation == d.inflation
    ensures -0.5 < v.downPayment - v.homePrice * v.downPaymentPercent / 100.0 <= 0.5
    ensures v.loanAmount == v.homePrice - v.downPayment
    ensures -0.005 < v.propertyTaxAmount - v.homePrice * v.taxMaintenanceRate / 100.0 <= 0.005
    ensures -0.5 < v.closingCostsAmount - v.homePrice * 0.03 <= 0.5
  {
    var homePrice := d.homePrice.value;
    var downPayment := Round(homePrice * d.downPaymentPercent.value / 100.0) as real;
    var tax := homePrice * d.taxMaintenanceRate / 100.0;
    var propertyTax := Round(tax * 100.0) as real / 100.0;
    assert (propertyTax - tax) * 100.0 == Round(tax * 100.0) as real - tax * 100.0;
    ValidScenario(
      homePrice, d.loanTerm, d.downPaymentPercent.value, d.mortgageRate.value,
      d.taxMaintenanceRate, d.rent, d.rentIncrease, d.propertyReassessmentRate,
      d.homeReturn, d.stockReturn, d.inflation, d.investingHorizon.value,
      downPayment, homePrice - downPayment, propertyTax, Round(homePrice * 0.03) as real)
  }

  /** The range checks of `createScenario`, in its order. */
  function CheckRates(v: ValidScenario): (r: Outcome<ValidScenario>)
    ensures r.Ok? <==> RatesInBounds(v.mortgageRate, v.stockReturn, v.homeReturn, v.inflation)
    ensures r.Ok? ==> r.value == v
    ensures r.Fails? ==> r.error in {InvalidMortgageRate, InvalidStockReturn, InvalidHomeReturn, InvalidInflation}
    ensures !(0.0 <= v.mortgageRate <= 20.0) ==> r == Fails(InvalidMortgageRate)
    ensures 0.0 <= v.mortgageRate <= 20.0 && !(-10.0 <= v.stockReturn <= 50.0) ==> r == Fails(InvalidStockReturn)
    ensures 0.0 <= v.mortgageRate <= 20.0 && -10.0 <= v.stockReturn <= 50.0 && !(-10.0 <= v.homeReturn <= 50.0)
            ==> r == Fails(InvalidHomeReturn)
    ensures (0.0 <= v.mortgageRate <= 20.0 && -10.0 <= v.stockReturn <= 50.0 && -10.0 <= v.homeReturn <= 50.0 &&
             !(-5.0 <= v.inflation <= 20.0)) ==> r == Fails(InvalidInflation)
  {
    if v.mortgageRate > 20.0 || v.mortgageRate < 0.0 then Fails(InvalidMortgageRate)
    else if v.stockReturn > 50.0 || v.stockReturn < -10.0 then Fails(InvalidStockReturn)
    else if v.homeReturn > 50.0 || v.homeReturn < -10.0 then Fails(InvalidHomeReturn)
    else if v.inflation > 20.0 || v.inflation < -5.0 then Fails(InvalidInflation)
    else Ok(v)
  }

  /** The checks of `createScenario`: a draft is accepted exactly when every
      swept parameter is a number and every rate is in bounds, and a NaN
      wins over a bad rate; an accepted scenario is the draft with its
      derived amounts. */
  function Validate(d: Draft): (r: Outcome<ValidScenario>)
    ensures r.Ok? <==> AllNumbers(d) && RatesInBounds(d.mortgageRate.value, d.stockReturn, d.homeReturn, d.inflation)
    ensures !AllNumbers(d) ==> r == Fails(InvalidValue)
    ensures r.Ok? ==> r.value == Derive(d)
    ensures r.Ok? ==> r.value.loanTerm == d.loanTerm &&
                      RatesInBounds(r.value.mortgageRate, r.value.stockReturn, r.value.homeReturn, r.value.inflation)
  {
    if !AllNumbers(d) then Fails(InvalidValue) else CheckRates(Derive(d))
  }

  /** The first half of `createScenario`: the scenario object, updated
      field by field. */
  method FillScenario(xP: Param, xV: J.Number, yP: Param, yV: J.Number, base: BaseScenario, singles: Singles)
    returns (d: Draft)
    ensures d == DraftOf(xP, xV, yP, yV, base, singles)
  {
    var start := StartDraft(base);
    d := start;
    var i := 0;
    while i < |SweptParams|
      invariant 0 <= i <= |SweptParams|
      invariant d == FillSingles(start, SweptParams[..i], xP, yP, singles)
    {
      var p := SweptParams[i];
      if p != xP && p != yP {
        d := SetParam(d, p, SingleValue(singles, p));
      }
      assert SweptParams[..i + 1][..i] == SweptParams[..i];
      i := i + 1;
    }
    assert SweptParams[..|SweptParams|] == SweptParams;
    d := SetParam(d, xP, Round4(xV));
    d := SetParam(d, yP, Round4(yV));
  }

  /** `createScenario`: the scenario object, rejected when a value is NaN,
      completed with its derived amounts, and rejected when a rate is out of
      bounds. */
  method CreateScenario(xP: Param, xV: J.Number, yP: Param, yV: J.Number, base: BaseScenario, singles: Singles)
    returns (r: Outcome<ValidScenario>)
    ensures r == Validate(DraftOf(xP, xV, yP, yV, base, singles))
  {
    var scenario := FillScenario(xP, xV, yP, yV, base, singles);
    if !AllNumbers(scenario) {
      return Fails(InvalidValue);
    }
    var v := Derive(scenario);
    if v.mortgageRate > 20.0 || v.mortgageRate < 0.0 {
      return Fails(InvalidMortgageRate);
    }
    if v.stockReturn > 50.0 || v.stockReturn < -10.0 {
      return Fails(InvalidStockReturn);
    }
    if v.homeReturn > 50.0 || v.homeReturn < -10.0 {
      return Fails(InvalidHomeReturn);
    }
    if v.inflation > 20.0 || v.inflation < -5.0 {
      return Fails(InvalidInflation);
    }
    r := Ok(v);
  }

  /** The input record the older calculator receives. The scenario has no
      closing-cost rate; the older calculator does not read one
      (`LegacyCalculator.ClosingCostIgnored`), so 0 stands in for it. */
  function ToInputs(v: ValidScenario): Inputs
  {
    Inputs(
      homePrice := v.homePrice, downPayment := v.downPayment, loanTerm := v.loanTerm,
      mortgageRate := v.mortgageRate, taxMaintenanceRate := v.taxMaintenanceRate,
      rent := v.rent, rentIncrease := v.rentIncrease,
      propertyReassessmentRate := v.propertyReassessmentRate, homeReturn := v.homeReturn,
      stockReturn := v.stockReturn, inflation := v.inflation, closingCostRate := 0.0,
      investingHorizon := v.investingHorizon)
  }

  // ---- A one-value axis as written ----

  /** As written, an axis whose minimum equals its maximum yields the single
      value NaN, and every scenario built from it is rejected: the analysis
      fails with "Invalid numeric value". With the intended range the value
      is the minimum itself. */
  lemma OneValueAxisFails(min: real, stepSize: real, xP: Param, yP: Param, yV: J.Number,
                          base: BaseScenario, singles: Singles)
    requires stepSize > 0.0 && xP != yP
    ensures Steps(min, min, stepSize) == 1
    ensures RangeValueAsWritten(min, min, 0, 1) == J.NaN
    ensures Validate(DraftOf(xP, RangeValueAsWritten(min, min, 0, 1), yP, yV, base, singles)) == Fails(InvalidValue)
    ensures RangeValue(min, min, 0, 1) == min
  {
    DivideBoth(0.0, stepSize, min - min);
    DraftValues(xP, J.NaN, yP, yV, base, singles);
    var d := DraftOf(xP, J.NaN, yP, yV, base, singles);
    assert Value(d, xP) == J.NaN;
  }

  // ---- Cells ----

  /** One heatmap cell. */
  datatype Cell = Cell(buyReal: real, rentReal: real, difference: real, recommendation: Recommendation)

  /** A matrix entry: `new Array(n)` starts with holes. */
  datatype Slot = Hole | Filled(cell: Cell)

  /** The cell of a scenario the calculator can project: the real values at
      the first year reaching the horizon (the last year if none does), their
      difference, and `difference > 0 ? 'rent' : 'buy'`. */
  function CellOf(v: ValidScenario): Cell
    requires Calculator.Computable(ToInputs(v))
  {
    var inp := ToInputs(v);
    var results := LegacyCalculator.Projection(inp);
    var idx := HorizonIndex(results.years, v.investingHorizon);
    var diff := results.rentReals[idx] - results.buyReals[idx];
    Cell(results.buyReals[idx], results.rentReals[idx], diff, Recommend(diff))
  }

  /** A cell reports the premium of the horizon year (rounded down, year 1
      below a horizon of 1), and says 'rent' exactly when it is positive. */
  lemma CellReadsHorizonYear(v: ValidScenario)
    requires Calculator.Computable(ToInputs(v))
    ensures var inp := ToInputs(v);
      var r := LegacyCalculator.Row(inp, WhatIf.HorizonRow(inp));
      && CellOf(v).difference == r.premium
      && CellOf(v).buyReal == r.buyReal && CellOf(v).rentReal == r.rentReal
      && (CellOf(v).recommendation == Rent <==> r.premium > 0.0)
      && (v.investingHorizon >= 1.0 ==> r.year == v.investingHorizon.Floor)
      && (v.investingHorizon < 1.0 ==> r.year == 1)
  {
    var inp := ToInputs(v);
    LegacyCalculator.ProjectionReadsBack(inp);
    var n := RowCount(inp);
    var k := WhatIf.HorizonRow(inp);
    assert LegacyCalculator.Projection(inp).years == YearNumbers(n);
    HorizonIndexOfYears(n, inp.investingHorizon);
    RowCountByHorizon(inp);
    assert RowAt(LegacyCalculator.Projection(inp), k) == LegacyCalculator.Row(inp, k);
    LegacyCalculator.RowYear(inp, k);
    LegacyCalculator.RowPremium(inp, k);
  }

  /** The horizon search of `calculateHeatmapDataOptimized`: start from the
      last year and stop at the first year reaching the horizon. */
  method FindHorizonIndex(years: seq<int>, h: real) returns (idx: nat)
    requires |years| > 0
    ensures idx == HorizonIndex(years, h)
  {
    idx := |years| - 1;
    var i := 0;
    while i < |years|
      invariant 0 <= i <= |years|
      invariant forall j :: 0 <= j < i ==> years[j] as real < h
    {
      if years[i] as real >= h {
        idx := i;
        return;
      }
      i := i + 1;
    }
  }

  /** `calculateMonthlyPayment` times 12 in JavaScript numbers: the PMT
      quotient, which is 0 / 0 at a zero rate. A positive rate gives the
      projection's yearly payment and a zero rate gives NaN. */
  function PaymentJs(inp: Inputs): (r: J.Number)
    requires inp.mortgageRate >= 0.0 && inp.loanTerm >= 1
    ensures inp.mortgageRate > 0.0 ==> PaymentDefined(inp) && r == J.Num(YearlyPayment(inp))
    ensures inp.mortgageRate == 0.0 ==> r == J.NaN
  {
    ZeroQuotientAtUnitGrowth(inp);
    var q := Growth(inp, inp.loanTerm);
    J.Mul(J.DivBy(J.Quotient(LoanAmount(inp) * AnnualRate(inp) * q, q - 1.0), 12.0), J.Num(12.0))
  }

  /** The PMT denominator is 0 (a growth factor of 1) exactly at a zero
      rate, and then the numerator is 0 too, so the quotient is 0 / 0. */
  lemma ZeroQuotientAtUnitGrowth(inp: Inputs)
    requires inp.mortgageRate >= 0.0 && inp.loanTerm >= 1
    ensures Growth(inp, inp.loanTerm) == 1.0 <==> inp.mortgageRate == 0.0
    ensures Growth(inp, inp.loanTerm) == 1.0 ==> LoanAmount(inp) * AnnualRate(inp) * Growth(inp, inp.loanTerm) == 0.0
  {
    PaymentDefinedIff(inp);
  }

  /** A year's buyer value in today's money in JavaScript numbers:
      `sellingPrice - Math.max(0, loan + interest - yearlyPayment) - tax`,
      deflated; the loan may itself be NaN. */
  function BuyRealJs(inp: Inputs, loan: J.Number, sellingPrice: real, tax: real, payment: J.Number, year: nat): J.Number
    requires inp.inflation != -100.0
  {
    var interest := J.Mul(J.Num(AnnualRate(inp)), loan);
    var owed := J.Max(J.Num(0.0), J.Sub(J.Add(loan, interest), payment));
    var buyValue := J.Sub(J.Sub(J.Num(sellingPrice), owed), J.Num(tax));
    if buyValue.Num? then J.Num(Calculator.Deflate(inp, buyValue.value, year)) else J.NaN
  }

  /** At a zero rate the NaN payment makes the buyer's value NaN in every
      year, whatever the loan, so the sweep throws "Calculator producing NaN
      values". */
  lemma ZeroRateMakesNaN(inp: Inputs)
    requires inp.mortgageRate >= 0.0 && inp.loanTerm >= 1 && inp.inflation != -100.0
    ensures inp.mortgageRate == 0.0 ==>
              forall loan, sellingPrice, tax, year :: BuyRealJs(inp, loan, sellingPrice, tax, PaymentJs(inp), year) == J.NaN
  {
  }

  /** What the sweep makes of one accepted scenario: its cell, or the NaN
      error at a zero mortgage rate. */
  function CellOutcome(v: ValidScenario): (r: Outcome<Cell>)
    requires v.loanTerm >= 1 && RatesInBounds(v.mortgageRate, v.stockReturn, v.homeReturn, v.inflation)
    ensures r.Fails? <==> v.mortgageRate == 0.0
    ensures r.Fails? ==> r.error == NaNResult
    ensures r.Ok? ==> Calculator.Computable(ToInputs(v)) && r.value == CellOf(v)
  {
    if v.mortgageRate == 0.0 then Fails(NaNResult)
    else
      PaymentDefinedIff(ToInputs(v));
      Ok(CellOf(v))
  }

  /** The body of the loop of `calculateHeatmapDataOptimized` for one item. */
  method ComputeCell(v: ValidScenario) returns (r: Outcome<Cell>)
    requires v.loanTerm >= 1 && RatesInBounds(v.mortgageRate, v.stockReturn, v.homeReturn, v.inflation)
    ensures r == CellOutcome(v)
  {
    if v.mortgageRate == 0.0 {
      return Fails(NaNResult);
    }
    var inp := ToInputs(v);
    PaymentDefinedIff(inp);
    var calculation := LegacyCalculator.CalculateAll(inp);
    LegacyCalculator.ProjectionReadsBack(inp);
    var horizonIndex := FindHorizonIndex(calculation.years, v.investingHorizon);
    var buyReal := calculation.buyReals[horizonIndex];
    var rentReal := calculation.rentReals[horizonIndex];
    var difference := rentReal - buyReal;
    r := Ok(Cell(buyReal, rentReal, difference, Recommend(difference)));
  }

  // ---- The sweep ----

  /** One entry of `allCalculations`. */
  datatype Item = Item(scenario: ValidScenario, rowIndex: nat, colIndex: nat, xValue: J.Number, yValue: J.Number)

  /** The checked scenario of grid position (i, j): x from column j, y from row i. */
  function ScenarioAt(xP: Param, yP: Param, xRange: seq<J.Number>, yRange: seq<J.Number>,
                      base: BaseScenario, singles: Singles, i: nat, j: nat): (r: Outcome<ValidScenario>)
    requires i < |yRange| && j < |xRange|
    ensures r.Ok? ==> r.value.loanTerm == base.loanTerm &&
                      RatesInBounds(r.value.mortgageRate, r.value.stockReturn, r.value.homeReturn, r.value.inflation)
  {
    Validate(DraftOf(xP, xRange[j], yP, yRange[i], base, singles))
  }

  /** Positions of earlier rows come before the current row in row-major order. */
  lemma RowMajorBefore(a: nat, b: nat, i: nat, cols: nat)
    requires a < i && b < cols
    ensures a * cols + b < i * cols
  {
    assert i * cols - a * cols == (i - a) * cols;
    assert (i - a) * cols == (i - 1 - a) * cols + cols;
  }

  /** A row-major offset names a single grid position. */
  lemma RowMajorUnique(a: nat, b: nat, i: nat, j: nat, cols: nat)
    requires b < cols && j < cols && a * cols + b == i * cols + j
    ensures a == i && b == j
  {
    if a < i {
      RowMajorBefore(a, b, i, cols);
    } else if i < a {
      RowMajorBefore(i, j, a, cols);
    }
  }

  /** The item `calculateHeatmapData` builds at grid position (i, j). */
  predicate ItemAt(xP: Param, yP: Param, xRange: seq<J.Number>, yRange: seq<J.Number>,
                   base: BaseScenario, singles: Singles, it: Item)
  {
    && it.rowIndex < |yRange| && it.colIndex < |xRange|
    && it.xValue == xRange[it.colIndex] && it.yValue == yRange[it.rowIndex]
    && ScenarioAt(xP, yP, xRange, yRange, base, singles, it.rowIndex, it.colIndex) == Ok(it.scenario)
  }

  /** `createScenario` accepts the scenario of every grid position. */
  predicate AllAccepted(xP: Param, yP: Param, xRange: seq<J.Number>, yRange: seq<J.Number>,
                        base: BaseScenario, singles: Singles)
  {
    forall i, j :: 0 <= i < |yRange| && 0 <= j < |xRange| ==> ScenarioAt(xP, yP, xRange, yRange, base, singles, i, j).Ok?
  }

  /** Position (i, j) holds the first scenario of the grid, in row order,
      that `createScenario` rejects, and it rejects it with error e. */
  predicate FirstRejected(xP: Param, yP: Param, xRange: seq<J.Number>, yRange: seq<J.Number>,
                          base: BaseScenario, singles: Singles, i: nat, j: nat, e: Error)
  {
    && i < |yRange| && j < |xRange|
    && ScenarioAt(xP, yP, xRange, yRange, base, singles, i, j) == Fails(e)
    && (forall a, b :: 0 <= a < i && 0 <= b < |xRange| ==> ScenarioAt(xP, yP, xRange, yRange, base, singles, a, b).Ok?)
    && (forall b :: 0 <= b < j ==> ScenarioAt(xP, yP, xRange, yRange, base, singles, i, b).Ok?)
  }

  /** The inner loop of `calculateHeatmapData` for row i: one item per x
      value, stopping at the first rejected scenario with its error. */
  method BuildRow(xP: Param, yP: Param, xRange: seq<J.Number>, yRange: seq<J.Number>,
                  base: BaseScenario, singles: Singles, i: nat)
    returns (r: Outcome<seq<Item>>)
    requires i < |yRange|
    ensures r.Ok? <==> forall j :: 0 <= j < |xRange| ==> ScenarioAt(xP, yP, xRange, yRange, base, singles, i, j).Ok?
    ensures r.Fails? ==> exists j :: 0 <= j < |xRange| &&
                           ScenarioAt(xP, yP, xRange, yRange, base, singles, i, j) == Fails(r.error) &&
                           forall b :: 0 <= b < j ==> ScenarioAt(xP, yP, xRange, yRange, base, singles, i, b).Ok?
    ensures r.Ok? ==> |r.value| == |xRange| && forall j :: 0 <= j < |xRange| ==>
              r.value[j].rowIndex == i && r.value[j].colIndex == j &&
              ItemAt(xP, yP, xRange, yRange, base, singles, r.value[j])
  {
    var items: seq<Item> := [];
    var j := 0;
    while j < |xRange|
      invariant 0 <= j <= |xRange| && |items| == j
      invariant forall b :: 0 <= b < j ==> ScenarioAt(xP, yP, xRange, yRange, base, singles, i, b).Ok?
      invariant forall b :: 0 <= b < j ==>
                  items[b].rowIndex == i && items[b].colIndex == b &&
                  ItemAt(xP, yP, xRange, yRange, base, singles, items[b])
    {
      var scenario := CreateScenario(xP, xRange[j], yP, yRange[i], base, singles);
      assert scenario == ScenarioAt(xP, yP, xRange, yRange, base, singles, i, j);
      if scenario.Fails? {
        return Fails(scenario.error);
      }
      items := items + [Item(scenario.value, i, j, xRange[j], yRange[i])];
      j := j + 1;
    }
    r := Ok(items);
  }

  /** The nested loops of `calculateHeatmapData` that build one item per grid
      position, row after row (item t sits at row t / |xRange|, column
      t % |xRange|); the first rejected scenario stops them with its error. */
  method BuildCalculations(xP: Param, yP: Param, xRange: seq<J.Number>, yRange: seq<J.Number>,
                           base: BaseScenario, singles: Singles)
    returns (r: Outcome<seq<Item>>)
    ensures r.Ok? <==> AllAccepted(xP, yP, xRange, yRange, base, singles)
    ensures r.Fails? ==> exists i, j :: FirstRejected(xP, yP, xRange, yRange, base, singles, i, j, r.error)
    ensures r.Ok? ==> |r.value| == |yRange| * |xRange|
    ensures r.Ok? ==> forall t :: 0 <= t < |r.value| ==>
              r.value[t].rowIndex * |xRange| + r.value[t].colIndex == t &&
              ItemAt(xP, yP, xRange, yRange, base, singles, r.value[t])
  {
    var cols := |xRange|;
    var items: seq<Item> := [];
    var i := 0;
    while i < |yRange|
      invariant 0 <= i <= |yRange|
      invariant |items| == i * cols
      invariant forall a, b :: 0 <= a < i && 0 <= b < cols ==>
                  ScenarioAt(xP, yP, xRange, yRange, base, singles, a, b).Ok?
      invariant forall t :: 0 <= t < |items| ==>
                  items[t].rowIndex * cols + items[t].colIndex == t &&
                  ItemAt(xP, yP, xRange, yRange, base, singles, items[t])
    {
      var row := BuildRow(xP, yP, xRange, yRange, base, singles, i);
      if row.Fails? {
        RejectedInRow(xP, yP, xRange, yRange, base, singles, i, row.error);
        return Fails(row.error);
      }
      forall t | |items| <= t < |items| + cols
        ensures (items + row.value)[t].rowIndex * cols + (items + row.value)[t].colIndex == t
      {
        assert (items + row.value)[t] == row.value[t - i * cols];
      }
      items := items + row.value;
      assert (i + 1) * cols == i * cols + cols;
      i := i + 1;
    }
    r := Ok(items);
  }

  /** The first rejection in row i, after rows that were all accepted, is
      the first rejection of the grid. */
  lemma RejectedInRow(xP: Param, yP: Param, xRange: seq<J.Number>, yRange: seq<J.Number>,
                      base: BaseScenario, singles: Singles, i: nat, e: Error)
    requires i < |yRange|
    requires forall a, b :: 0 <= a < i && 0 <= b < |xRange| ==> ScenarioAt(xP, yP, xRange, yRange, base, singles, a, b).Ok?
    requires exists j :: 0 <= j < |xRange| && ScenarioAt(xP, yP, xRange, yRange, base, singles, i, j) == Fails(e) &&
                         forall b :: 0 <= b < j ==> ScenarioAt(xP, yP, xRange, yRange, base, singles, i, b).Ok?
    ensures exists i', j :: FirstRejected(xP, yP, xRange, yRange, base, singles, i', j, e)
  {
    var j :| 0 <= j < |xRange| && ScenarioAt(xP, yP, xRange, yRange, base, singles, i, j) == Fails(e) &&
             forall b :: 0 <= b < j ==> ScenarioAt(xP, yP, xRange, yRange, base, singles, i, b).Ok?;
    assert FirstRejected(xP, yP, xRange, yRange, base, singles, i, j, e);
  }

  /** The item at row-major offset i * |xRange| + j is the one of position (i, j). */
  lemma ItemOfPosition(items: seq<Item>, rows: nat, cols: nat, i: nat, j: nat)
    requires |items| == rows * cols && i < rows && j < cols
    requires forall t :: 0 <= t < |items| ==> items[t].colIndex < cols && items[t].rowIndex * cols + items[t].colIndex == t
    ensures i * cols + j < |items|
    ensures items[i * cols + j].rowIndex == i && items[i * cols + j].colIndex == j
  {
    RowMajorBefore(i, j, rows, cols);
    var t := i * cols + j;
    RowMajorUnique(items[t].rowIndex, items[t].colIndex, i, j, cols);
  }

  /** `data[i][j] = slot` on a matrix of rows. */
  function Put(data: seq<seq<Slot>>, i: nat, j: nat, slot: Slot): (data': seq<seq<Slot>>)
    requires i < |data| && j < |data[i]|
    ensures |data'| == |data| && forall a :: 0 <= a < |data| ==> |data'[a]| == |data[a]|
    ensures data'[i][j] == slot
    ensures forall a, b :: 0 <= a < |data| && 0 <= b < |data[a]| && (a != i || b != j) ==> data'[a][b] == data[a][b]
  {
    data[i := data[i][j := slot]]
  }

  /** Every item sits at its own grid position. */
  predicate DistinctPositions(items: seq<Item>)
  {
    forall t, u :: 0 <= t < |items| && 0 <= u < |items| && t != u ==>
      items[t].rowIndex != items[u].rowIndex || items[t].colIndex != items[u].colIndex
  }

  /** Every item's scenario has a loan term of a year or more and rates in bounds. */
  predicate ProjectableItems(items: seq<Item>)
  {
    forall t :: 0 <= t < |items| ==>
      items[t].scenario.loanTerm >= 1 &&
      RatesInBounds(items[t].scenario.mortgageRate, items[t].scenario.stockReturn,
                    items[t].scenario.homeReturn, items[t].scenario.inflation)
  }

  /** No item before the n-th sits at position (i, j). */
  predicate Untouched(items: seq<Item>, n: nat, i: nat, j: nat)
    requires n <= |items|
  {
    forall t :: 0 <= t < n ==> items[t].rowIndex != i || items[t].colIndex != j
  }

  /** Two matrices have the same rows of the same lengths. */
  predicate SameShape(data: seq<seq<Slot>>, data0: seq<seq<Slot>>)
  {
    |data| == |data0| && forall i :: 0 <= i < |data0| ==> |data[i]| == |data0[i]|
  }

  /** Every item's position lies inside the matrix. */
  predicate Fits(items: seq<Item>, data: seq<seq<Slot>>)
  {
    forall t :: 0 <= t < |items| ==> items[t].rowIndex < |data| && items[t].colIndex < |data[items[t].rowIndex]|
  }

  /** The first n items have their cells in the matrix. */
  predicate Placed(items: seq<Item>, n: nat, data: seq<seq<Slot>>)
    requires ProjectableItems(items) && Fits(items, data) && n <= |items|
  {
    forall t :: 0 <= t < n ==>
      CellOutcome(items[t].scenario).Ok? &&
      data[items[t].rowIndex][items[t].colIndex] == Filled(CellOutcome(items[t].scenario).value)
  }

  /** Positions no item before the n-th sits at still hold their first entry. */
  predicate Kept(items: seq<Item>, n: nat, data: seq<seq<Slot>>, data0: seq<seq<Slot>>)
    requires SameShape(data, data0) && n <= |items|
  {
    forall i, j :: 0 <= i < |data0| && 0 <= j < |data0[i]| && Untouched(items, n, i, j) ==>
      data[i][j] == data0[i][j]
  }

  /** Writing the n-th item's cell keeps the earlier cells and the untouched
      positions. */
  lemma PlaceNext(items: seq<Item>, n: nat, data: seq<seq<Slot>>, data0: seq<seq<Slot>>, c: Cell)
    requires ProjectableItems(items) && DistinctPositions(items) && Fits(items, data0)
    requires n < |items| && SameShape(data, data0)
    requires Placed(items, n, data) && Kept(items, n, data, data0)
    requires CellOutcome(items[n].scenario) == Ok(c)
    ensures var data' := Put(data, items[n].rowIndex, items[n].colIndex, Filled(c));
      SameShape(data', data0) && Placed(items, n + 1, data') && Kept(items, n + 1, data', data0)
  {
    var data' := Put(data, items[n].rowIndex, items[n].colIndex, Filled(c));
    forall t | 0 <= t < n + 1
      ensures data'[items[t].rowIndex][items[t].colIndex] == Filled(CellOutcome(items[t].scenario).value)
    {
      if t < n {
        assert items[t].rowIndex != items[n].rowIndex || items[t].colIndex != items[n].colIndex;
      }
    }
    forall i, j | 0 <= i < |data0| && 0 <= j < |data0[i]| && Untouched(items, n + 1, i, j)
      ensures data'[i][j] == data0[i][j]
    {
      assert Untouched(items, n, i, j);
      assert items[n].rowIndex != i || items[n].colIndex != j;
    }
  }

  /** `calculateHeatmapDataOptimized`: for each item in turn, compute its cell
      and write it into the matrix at the item's position, counting the
      completed items; the first zero-rate scenario stops it with the NaN
      error. */
  method CalculateHeatmapDataOptimized(items: seq<Item>, data0: seq<seq<Slot>>)
    returns (r: Outcome<seq<seq<Slot>>>, completed: nat)
    requires ProjectableItems(items) && DistinctPositions(items) && Fits(items, data0)
    ensures r.Fails? <==> exists t :: 0 <= t < |items| && items[t].scenario.mortgageRate == 0.0
    ensures r.Fails? ==> r.error == NaNResult
    ensures r.Ok? ==> completed == |items|
    ensures r.Ok? ==> SameShape(r.value, data0)
    ensures r.Ok? ==> Placed(items, |items|, r.value)
    ensures r.Ok? ==> Kept(items, |items|, r.value, data0)
  {
    var data := data0;
    completed := 0;
    while completed < |items|
      invariant 0 <= completed <= |items|
      invariant forall t :: 0 <= t < completed ==> items[t].scenario.mortgageRate != 0.0
      invariant SameShape(data, data0)
      invariant Placed(items, completed, data)
      invariant Kept(items, completed, data, data0)
    {
      var item := items[completed];
      var cell := ComputeCell(item.scenario);
      if cell.Fails? {
        return Fails(cell.error), completed;
      }
      PlaceNext(items, completed, data, data0, cell.value);
      data := Put(data, item.rowIndex, item.colIndex, Filled(cell.value));
      completed := completed + 1;
    }
    r := Ok(data);
  }

  /** What `calculateHeatmapData` returns. */
  datatype HeatmapResults = HeatmapResults(
    xValues: seq<J.Number>, yValues: seq<J.Number>, data: seq<seq<Slot>>, xParam: Param, yParam: Param)

  /** `calculateHeatmapData`: build every scenario (failing with the error of
      the first rejected one), allocate one row of holes per y value, and
      fill it. It succeeds exactly when every scenario of the grid is
      accepted with a nonzero rate, and then cell (i, j) is the cell of the
      scenario at (xRange[j], yRange[i]); with every scenario accepted, a
      failure is the NaN error. */
  method CalculateHeatmapData(xP: Param, yP: Param, xRange: seq<J.Number>, yRange: seq<J.Number>,
                              base: BaseScenario, singles: Singles)
    returns (r: Outcome<HeatmapResults>)
    requires base.loanTerm >= 1
    ensures r.Ok? <==> forall i, j :: 0 <= i < |yRange| && 0 <= j < |xRange| ==>
              ScenarioAt(xP, yP, xRange, yRange, base, singles, i, j).Ok? &&
              ScenarioAt(xP, yP, xRange, yRange, base, singles, i, j).value.mortgageRate != 0.0
    ensures (r.Fails? && AllAccepted(xP, yP, xRange, yRange, base, singles)) ==> r.error == NaNResult
    ensures !AllAccepted(xP, yP, xRange, yRange, base, singles)
            ==> r.Fails? && exists i, j :: FirstRejected(xP, yP, xRange, yRange, base, singles, i, j, r.error)
    ensures r.Ok? ==> r.value.xValues == xRange && r.value.yValues == yRange
    ensures r.Ok? ==> r.value.xParam == xP && r.value.yParam == yP
    ensures r.Ok? ==> |r.value.data| == |yRange| && forall i :: 0 <= i < |yRange| ==> |r.value.data[i]| == |xRange|
    ensures r.Ok? ==> forall i, j :: 0 <= i < |yRange| && 0 <= j < |xRange| ==>
              CellOutcome(ScenarioAt(xP, yP, xRange, yRange, base, singles, i, j).value).Ok? &&
              r.value.data[i][j] == Filled(CellOutcome(ScenarioAt(xP, yP, xRange, yRange, base, singles, i, j).value).value)
  {
    var items := BuildCalculations(xP, yP, xRange, yRange, base, singles);
    if items.Fails? {
      return Fails(items.error);
    }
    var data := Holes(|yRange|, |xRange|);
    GridItemsFit(xP, yP, xRange, yRange, base, singles, items.value, data);
    var filled, completed := CalculateHeatmapDataOptimized(items.value, data);
    if filled.Fails? {
      var t :| 0 <= t < |items.value| && items.value[t].scenario.mortgageRate == 0.0;
      ZeroRateItemFails(xP, yP, xRange, yRange, base, singles, items.value[t]);
      return Fails(filled.error);
    }
    GridCells(xP, yP, xRange, yRange, base, singles, items.value, filled.value);
    r := Ok(HeatmapResults(xRange, yRange, filled.value, xP, yP));
  }

  /** An item of the grid with a zero mortgage rate keeps the grid from
      being accepted with nonzero rates. */
  lemma ZeroRateItemFails(xP: Param, yP: Param, xRange: seq<J.Number>, yRange: seq<J.Number>,
                          base: BaseScenario, singles: Singles, it: Item)
    requires ItemAt(xP, yP, xRange, yRange, base, singles, it) && it.scenario.mortgageRate == 0.0
    ensures !forall i, j :: 0 <= i < |yRange| && 0 <= j < |xRange| ==>
              ScenarioAt(xP, yP, xRange, yRange, base, singles, i, j).Ok? &&
              ScenarioAt(xP, yP, xRange, yRange, base, singles, i, j).value.mortgageRate != 0.0
  {
    assert ScenarioAt(xP, yP, xRange, yRange, base, singles, it.rowIndex, it.colIndex) == Ok(it.scenario);
  }

  /** A matrix that holds the cell of every item of the grid holds, at every
      position, the cell of that position's scenario. */
  lemma GridCells(xP: Param, yP: Param, xRange: seq<J.Number>, yRange: seq<J.Number>,
                  base: BaseScenario, singles: Singles, items: seq<Item>, data: seq<seq<Slot>>)
    requires base.loanTerm >= 1 && ProjectableItems(items)
    requires |items| == |yRange| * |xRange|
    requires |data| == |yRange| && forall i :: 0 <= i < |yRange| ==> |data[i]| == |xRange|
    requires forall t :: 0 <= t < |items| ==>
               items[t].rowIndex * |xRange| + items[t].colIndex == t &&
               ItemAt(xP, yP, xRange, yRange, base, singles, items[t])
    requires Fits(items, data) && Placed(items, |items|, data)
    ensures forall i, j :: 0 <= i < |yRange| && 0 <= j < |xRange| ==>
              && ScenarioAt(xP, yP, xRange, yRange, base, singles, i, j).Ok?
              && ScenarioAt(xP, yP, xRange, yRange, base, singles, i, j).value.mortgageRate != 0.0
              && CellOutcome(ScenarioAt(xP, yP, xRange, yRange, base, singles, i, j).value).Ok?
              && data[i][j] == Filled(CellOutcome(ScenarioAt(xP, yP, xRange, yRange, base, singles, i, j).value).value)
  {
    forall i, j | 0 <= i < |yRange| && 0 <= j < |xRange|
      ensures && ScenarioAt(xP, yP, xRange, yRange, base, singles, i, j).Ok?
              && ScenarioAt(xP, yP, xRange, yRange, base, singles, i, j).value.mortgageRate != 0.0
              && CellOutcome(ScenarioAt(xP, yP, xRange, yRange, base, singles, i, j).value).Ok?
              && data[i][j] == Filled(CellOutcome(ScenarioAt(xP, yP, xRange, yRange, base, singles, i, j).value).value)
    {
      ItemOfPosition(items, |yRange|, |xRange|, i, j);
      var t := i * |xRange| + j;
      assert ItemAt(xP, yP, xRange, yRange, base, singles, items[t]);
    }
  }

  /** The items of a grid, numbered row after row, can all be projected
      when the base loan term is a year or more, sit at distinct positions,
      and fit a matrix of one row per y value and one column per x value. */
  lemma GridItemsFit(xP: Param, yP: Param, xRange: seq<J.Number>, yRange: seq<J.Number>,
                     base: BaseScenario, singles: Singles, items: seq<Item>, data: seq<seq<Slot>>)
    requires base.loanTerm >= 1
    requires |data| == |yRange| && forall i :: 0 <= i < |yRange| ==> |data[i]| == |xRange|
    requires forall t :: 0 <= t < |items| ==>
               items[t].rowIndex * |xRange| + items[t].colIndex == t &&
               ItemAt(xP, yP, xRange, yRange, base, singles, items[t])
    ensures ProjectableItems(items) && DistinctPositions(items) && Fits(items, data)
  {
  }

  /** The matrix `calculateHeatmapData` allocates: one row per y value, each
      of one hole per x value. */
  method Holes(rows: nat, cols: nat) returns (data: seq<seq<Slot>>)
    ensures |data| == rows && forall i :: 0 <= i < rows ==> |data[i]| == cols
    ensures forall i, j :: 0 <= i < rows && 0 <= j < cols ==> data[i][j] == Hole
  {
    data := [];
    var i := 0;
    while i < rows
      invariant 0 <= i <= rows && |data| == i
      invariant forall a :: 0 <= a < i ==> data[a] == seq(cols, _ => Hole)
    {
      data := data + [seq(cols, _ => Hole)];
      i := i + 1;
    }
  }

  // ---- Summary ----

  /** The number of cells with verdict `rec` in a row. */
  function CountIn(row: seq<Slot>, rec: Recommendation): nat
    requires forall j :: 0 <= j < |row| ==> row[j].Filled?
  {
    if |row| == 0 then 0
    else CountIn(row[..|row| - 1], rec) + (if row[|row| - 1].cell.recommendation == rec then 1 else 0)
  }

  /** The number of cells with verdict `rec` in the matrix. */
  function Count(data: seq<seq<Slot>>, rec: Recommendation): nat
    requires forall i, j :: 0 <= i < |data| && 0 <= j < |data[i]| ==> data[i][j].Filled?
  {
    if |data| == 0 then 0
    else Count(data[..|data| - 1], rec) + CountIn(data[|data| - 1], rec)
  }

  /** The number of cells. */
  function Cells(data: seq<seq<Slot>>): nat
  {
    if |data| == 0 then 0 else Cells(data[..|data| - 1]) + |data[|data| - 1]|
  }

  /** Every filled cell is either 'buy' or 'rent'. */
  lemma {:induction false} RowSplits(row: seq<Slot>)
    requires forall j :: 0 <= j < |row| ==> row[j].Filled?
    ensures CountIn(row, Buy) + CountIn(row, Rent) == |row|
  {
    if |row| > 0 {
      RowSplits(row[..|row| - 1]);
    }
  }

  /** So the buy and rent counts add up to the number of cells. */
  lemma {:induction false} CountsSplit(data: seq<seq<Slot>>)
    requires forall i, j :: 0 <= i < |data| && 0 <= j < |data[i]| ==> data[i][j].Filled?
    ensures Count(data, Buy) + Count(data, Rent) == Cells(data)
  {
    if |data| > 0 {
      CountsSplit(data[..|data| - 1]);
      RowSplits(data[|data| - 1]);
    }
  }

  /** A matrix of n rows of the same length m has n * m cells. */
  lemma {:induction false} RectangleCells(data: seq<seq<Slot>>, m: nat)
    requires forall i :: 0 <= i < |data| ==> |data[i]| == m
    ensures Cells(data) == |data| * m
  {
    if |data| > 0 {
      RectangleCells(data[..|data| - 1], m);
      assert |data| * m == (|data| - 1) * m + m;
    }
  }

  /** The counting of `updateSummaryStats`: the total is rows times the first
      row's length, and each cell adds one to the buy or the rent count. */
  method UpdateSummaryStats(data: seq<seq<Slot>>) returns (total: int, buyCount: nat, rentCount: nat)
    requires |data| > 0
    requires forall i, j :: 0 <= i < |data| && 0 <= j < |data[i]| ==> data[i][j].Filled?
    ensures total == |data| * |data[0]|
    ensures buyCount == Count(data, Buy) && rentCount == Count(data, Rent)
    ensures buyCount + rentCount == Cells(data)
    ensures (forall i :: 0 <= i < |data| ==> |data[i]| == |data[0]|) ==> buyCount + rentCount == total
  {
    total := |data| * |data[0]|;
    buyCount, rentCount := 0, 0;
    var i := 0;
    while i < |data|
      invariant 0 <= i <= |data|
      invariant buyCount == Count(data[..i], Buy) && rentCount == Count(data[..i], Rent)
    {
      var row := data[i];
      var j := 0;
      while j < |row|
        invariant 0 <= j <= |row|
        invariant buyCount == Count(data[..i], Buy) + CountIn(row[..j], Buy)
        invariant rentCount == Count(data[..i], Rent) + CountIn(row[..j], Rent)
      {
        assert row[..j + 1][..j] == row[..j];
        if row[j].cell.recommendation == Buy {
          buyCount := buyCount + 1;
        } else if row[j].cell.recommendation == Rent {
          rentCount := rentCount + 1;
        }
        j := j + 1;
      }
      assert row[..|row|] == row;
      assert data[..i + 1][..i] == data[..i];
      i := i + 1;
    }
    assert data[..|data|] == data;
    CountsSplit(data);
    if forall i :: 0 <= i < |data| ==> |data[i]| == |data[0]| {
      RectangleCells(data, |data[0]|);
    }
  }
}
