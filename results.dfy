/** The `results` object `calculateAll` returns: one array per spreadsheet
    column, one entry per projected year. A projected year is a `YearRow`;
    the arrays are a `Series`, filled by pushing one row after another. */
module Results {

  /** The values `calculateAll` pushes for one year, in push order. */
  datatype YearRow = YearRow(
    year: int,
    loan: real,
    interest: real,
    taxableValue: real,
    taxMaintenance: real,
    homeValue: real,
    sellingPrice: real,
    capitalGain: real,
    tax: real,
    buyValue: real,
    buyReal: real,
    rentStartBalance: real,
    rentReturn: real,
    rentExpense: real,
    newInvestment: real,
    yearEndBalance: real,
    totalInvested: real,
    rentTax: real,
    rentValue: real,
    rentReal: real,
    premium: real)

  datatype Series = Series(
    years: seq<int>,
    loans: seq<real>,
    interests: seq<real>,
    taxableValues: seq<real>,
    taxMaintenances: seq<real>,
    homeValues: seq<real>,
    sellingPrices: seq<real>,
    capitalGains: seq<real>,
    taxes: seq<real>,
    buyValues: seq<real>,
    buyReals: seq<real>,
    rentStartBalances: seq<real>,
    rentReturns: seq<real>,
    rentExpenses: seq<real>,
    newInvestments: seq<real>,
    yearEndBalances: seq<real>,
    totalInvested: seq<real>,
    rentTaxes: seq<real>,
    rentValues: seq<real>,
    rentReals: seq<real>,
    premiums: seq<real>)

  /** The object literal `calculateAll` starts from: every array empty. */
  function EmptySeries(): Series
  {
    Series([], [], [], [], [], [], [], [], [], [], [], [], [], [], [], [], [], [], [], [], [])
  }

  /** Every column holds exactly n entries. */
  predicate Lockstep(s: Series, n: nat)
  {
    && |s.years| == n && |s.loans| == n && |s.interests| == n
    && |s.taxableValues| == n && |s.taxMaintenances| == n && |s.homeValues| == n
    && |s.sellingPrices| == n && |s.capitalGains| == n && |s.taxes| == n
    && |s.buyValues| == n && |s.buyReals| == n && |s.rentStartBalances| == n
    && |s.rentReturns| == n && |s.rentExpenses| == n && |s.newInvestments| == n
    && |s.yearEndBalances| == n && |s.totalInvested| == n && |s.rentTaxes| == n
    && |s.rentValues| == n && |s.rentReals| == n && |s.premiums| == n
  }

  /** The k-th entry of every column, read back as one row. */
  function RowAt(s: Series, k: nat): YearRow
    requires k < |s.years| && Lockstep(s, |s.years|)
  {
    YearRow(s.years[k], s.loans[k], s.interests[k], s.taxableValues[k],
      s.taxMaintenances[k], s.homeValues[k], s.sellingPrices[k], s.capitalGains[k],
      s.taxes[k], s.buyValues[k], s.buyReals[k], s.rentStartBalances[k],
      s.rentReturns[k], s.rentExpenses[k], s.newInvestments[k], s.yearEndBalances[k],
      s.totalInvested[k], s.rentTaxes[k], s.rentValues[k], s.rentReals[k], s.premiums[k])
  }

  /** The 21 `results.<column>.push(...)` calls for one year. */
  function Push(s: Series, r: YearRow): Series
  {
    Series(
      s.years + [r.year], s.loans + [r.loan], s.interests + [r.interest],
      s.taxableValues + [r.taxableValue], s.taxMaintenances + [r.taxMaintenance],
      s.homeValues + [r.homeValue], s.sellingPrices + [r.sellingPrice],
      s.capitalGains + [r.capitalGain], s.taxes + [r.tax], s.buyValues + [r.buyValue],
      s.buyReals + [r.buyReal], s.rentStartBalances + [r.rentStartBalance],
      s.rentReturns + [r.rentReturn], s.rentExpenses + [r.rentExpense],
      s.newInvestments + [r.newInvestment], s.yearEndBalances + [r.yearEndBalance],
      s.totalInvested + [r.totalInvested], s.rentTaxes + [r.rentTax],
      s.rentValues + [r.rentValue], s.rentReals + [r.rentReal], s.premiums + [r.premium])
  }

  /** Pushing a row onto columns in lockstep keeps them in lockstep, puts the
      row at the new last position and leaves the earlier entries alone. */
  lemma PushReadsBack(s: Series, r: YearRow, n: nat)
    requires Lockstep(s, n)
    ensures Lockstep(Push(s, r), n + 1)
    ensures RowAt(Push(s, r), n) == r
    ensures forall k :: 0 <= k < n ==> RowAt(Push(s, r), k) == RowAt(s, k)
  {
  }

  /** The columns after pushing `rows` one after the other onto empty arrays. */
  function Columns(rows: seq<YearRow>): Series
  {
    if |rows| == 0 then EmptySeries() else Push(Columns(rows[..|rows| - 1]), rows[|rows| - 1])
  }

  /** Pushed rows read back in order, with the columns in lockstep. */
  lemma {:induction false} ColumnsReadBack(rows: seq<YearRow>)
    ensures Lockstep(Columns(rows), |rows|)
    ensures forall k :: 0 <= k < |rows| ==> RowAt(Columns(rows), k) == rows[k]
  {
    if |rows| > 0 {
      var n := |rows| - 1;
      ColumnsReadBack(rows[..n]);
      PushReadsBack(Columns(rows[..n]), rows[n], n);
    }
  }

  /** `findIndex(y => y >= h)` over the years column, falling back to the
      last year when no year reaches h (`idx === -1 ? length - 1 : idx`). */
  function HorizonIndex(years: seq<int>, h: real): (i: nat)
    requires |years| > 0
    ensures i < |years|
    ensures (exists j :: 0 <= j < |years| && years[j] as real >= h) ==>
              years[i] as real >= h && forall j :: 0 <= j < i ==> years[j] as real < h
    ensures (forall j :: 0 <= j < |years| ==> years[j] as real < h) ==> i == |years| - 1
  {
    FirstReaching(years, h, 0)
  }

  /** The search loop behind `findIndex`, from position `from`. */
  function FirstReaching(years: seq<int>, h: real, from: nat): (i: nat)
    requires from < |years|
    ensures from <= i < |years|
    ensures (exists j :: from <= j < |years| && years[j] as real >= h) ==>
              years[i] as real >= h && forall j :: from <= j < i ==> years[j] as real < h
    ensures (forall j :: from <= j < |years| ==> years[j] as real < h) ==> i == |years| - 1
    decreases |years| - from
  {
    if years[from] as real >= h then from
    else if from == |years| - 1 then from
    else FirstReaching(years, h, from + 1)
  }

  /** The years column of a projection: 1, 2, ..., n. */
  function YearNumbers(n: nat): (ys: seq<int>)
    ensures |ys| == n
    ensures forall k :: 0 <= k < n ==> ys[k] == k + 1
  {
    if n == 0 then [] else YearNumbers(n - 1) + [n]
  }

  /** Over the years 1..n, the horizon index is the horizon year's position
      when 1 <= h <= n, the first year when h <= 1 and the last year when h
      lies beyond year n. */
  lemma HorizonIndexOfYears(n: nat, h: real)
    requires n >= 1
    ensures h <= 1.0 ==> HorizonIndex(YearNumbers(n), h) == 0
    ensures 1.0 < h <= n as real ==> HorizonIndex(YearNumbers(n), h) as real + 1.0 >= h
                                      && HorizonIndex(YearNumbers(n), h) as real < h
    ensures h > n as real ==> HorizonIndex(YearNumbers(n), h) == n - 1
  {
    var ys := YearNumbers(n);
    var i := HorizonIndex(ys, h);
    if h <= n as real {
      assert ys[n - 1] as real >= h;
      if 1.0 < h && i > 0 {
        assert ys[i - 1] as real < h;
      }
    }
  }

  /** Recommendation shown in a heatmap cell. */
  datatype Recommendation = Buy | Rent

  /** `diff > 0 ? 'rent' : 'buy'`: renting wins only on a strictly positive
      difference. */
  function Recommend(diff: real): (r: Recommendation)
    ensures r == Rent <==> diff > 0.0
  {
    if diff > 0.0 then Rent else Buy
  }
}
