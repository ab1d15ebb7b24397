/** The per-region figures `_get_current_30min_price` computes for the
    current window: pure formulas over the records collected so far. */
module Aggregation {
  import opened Wrappers
  import opened Errors
  import opened Records
  import opened Dicts
  import Constants

  datatype ForecastPoint = ForecastPoint(startTime: int, endTime: int, price: real)

  /** The `data` dict stored per region under "current_30min_forecast". */
  datatype RegionSummary = RegionSummary(
    current30MinAvg: real,
    current30MinForecast: real,
    current30MinEstimated: real,
    currentCumulativePrice: int,
    currentPercentCumulativePrice: real,
    administeredPriceCap: real,
    marketPriceCap: real,
    cumulativePriceThreshold: real,
    marketSuspendedFlag: bool,
    apcFlag: bool,
    periodsOfCurrent30Min: nat,
    forecast: seq<ForecastPoint>)

  /** `sum(item["PRICE"] for item in s)`; the total is the one Python's
      left-to-right accumulation reaches, the last price added to the sum of
      the ones before it. */
  function SumPrices(s: seq<CumulRecord>): (t: real)
    ensures s == [] ==> t == 0.0
    ensures s != [] ==> t == SumPrices(s[..|s| - 1]) + s[|s| - 1].price
    decreases |s|
  {
    if s == [] then 0.0
    else
      var t := s[0].price + SumPrices(s[1..]);
      assert s[1..] != [] ==> s[1..][..|s[1..]| - 1] == s[..|s| - 1][1..];
      t
  }

  /** The sum over records gathered in two parts is the sum of the parts'
      sums. */
  lemma {:induction false} SumPricesConcat(a: seq<CumulRecord>, b: seq<CumulRecord>)
    ensures SumPrices(a + b) == SumPrices(a) + SumPrices(b)
    decreases |b|
  {
    if b != [] {
      var init := b[..|b| - 1];
      SumPricesConcat(a, init);
      assert (a + b)[..|a + b| - 1] == a + init;
    } else {
      assert a + b == a;
    }
  }

  ghost predicate IsEarliest(s: seq<CumulRecord>, k: int)
  {
    0 <= k < |s| &&
    (forall j :: 0 <= j < |s| ==> s[k].settlementDate <= s[j].settlementDate) &&
    (forall j :: 0 <= j < k ==> s[j].settlementDate > s[k].settlementDate)
  }

  ghost predicate IsLatest(s: seq<CumulRecord>, k: int)
  {
    0 <= k < |s| &&
    (forall j :: 0 <= j < |s| ==> s[j].settlementDate <= s[k].settlementDate) &&
    (forall j :: 0 <= j < k ==> s[j].settlementDate < s[k].settlementDate)
  }

  /** `min(s, key=SETTLEMENTDATE)`: the first record with the least settlement time. */
  function EarliestIndex(s: seq<CumulRecord>): (k: nat)
    requires s != []
    ensures k < |s|
    ensures forall j :: 0 <= j < |s| ==> s[k].settlementDate <= s[j].settlementDate
    decreases |s|
  {
    if |s| == 1 then 0
    else
      var k := EarliestIndex(s[..|s| - 1]);
      if s[|s| - 1].settlementDate < s[k].settlementDate then |s| - 1 else k
  }

  /** EarliestIndex picks the first record with the least settlement time. */
  lemma {:induction false} EarliestIndexIsEarliest(s: seq<CumulRecord>)
    requires s != []
    ensures IsEarliest(s, EarliestIndex(s))
    decreases |s|
  {
    if |s| > 1 {
      var init := s[..|s| - 1];
      EarliestIndexIsEarliest(init);
      var k := EarliestIndex(init);
      forall j | 0 <= j < |init| ensures s[j] == init[j] {
      }
    }
  }

  /** `max(s, key=SETTLEMENTDATE)`: the first record with the greatest settlement time. */
  function LatestIndex(s: seq<CumulRecord>): (k: nat)
    requires s != []
    ensures k < |s|
    ensures forall j :: 0 <= j < |s| ==> s[j].settlementDate <= s[k].settlementDate
    decreases |s|
  {
    if |s| == 1 then 0
    else
      var k := LatestIndex(s[..|s| - 1]);
      if s[|s| - 1].settlementDate > s[k].settlementDate then |s| - 1 else k
  }

  /** LatestIndex picks the first record with the greatest settlement time. */
  lemma {:induction false} LatestIndexIsLatest(s: seq<CumulRecord>)
    requires s != []
    ensures IsLatest(s, LatestIndex(s))
    decreases |s|
  {
    if |s| > 1 {
      var init := s[..|s| - 1];
      LatestIndexIsLatest(init);
      forall j | 0 <= j < |init| ensures s[j] == init[j] {
      }
    }
  }

  /** Python's `round(x, 0)` on the exact value: to the nearest integer, ties to even. */
  function RoundHalfEven(x: real): (n: int)
    ensures x - 0.5 <= n as real <= x + 0.5
  {
    var f := x.Floor;
    var d := x - f as real;
    if d < 0.5 then f
    else if d > 0.5 then f + 1
    else if f % 2 == 0 then f
    else f + 1
  }

  /** The rounded value is a nearest integer, and the even one on a tie. */
  lemma RoundHalfEvenNearest(x: real)
    ensures x - 0.5 <= RoundHalfEven(x) as real <= x + 0.5
    ensures (RoundHalfEven(x) as real - x == 0.5 || x - RoundHalfEven(x) as real == 0.5) ==> RoundHalfEven(x) % 2 == 0
  {
  }

  /** The blended estimate: the observed sum plus the forecast price for
      each of the 6 - count periods taken as missing, over six. */
  function Estimate(actualSum: real, forecast: real, count: int): (e: real)
    ensures e * 6.0 == actualSum + forecast * (6 - count) as real
  {
    (actualSum + forecast * (6 - count) as real) / 6.0
  }

  /** `total / count`, the price per counted record. */
  function Average(total: real, count: nat): (a: real)
    requires count > 0
    ensures a * count as real == total
  {
    total / count as real
  }

  /** `value / threshold * 100`. */
  function Percent(value: real, threshold: real): (p: real)
    requires threshold != 0.0
    ensures p * threshold == value * 100.0
  {
    value / threshold * 100.0
  }

  /** While at most six periods have been counted, the estimate lies between
      the average of the observed prices and the forecast. */
  lemma EstimateBetweenAverageAndForecast(actualSum: real, forecast: real, count: int)
    requires 1 <= count <= 6
    ensures var avg := actualSum / count as real;
      var e := Estimate(actualSum, forecast, count);
      (avg <= forecast ==> avg <= e <= forecast) && (forecast <= avg ==> forecast <= e <= avg)
  {
    if count == 1 {
      assert count as real == 1.0;
    } else if count == 2 {
      assert count as real == 2.0;
    } else if count == 3 {
      assert count as real == 3.0;
    } else if count == 4 {
      assert count as real == 4.0;
    } else if count == 5 {
      assert count as real == 5.0;
    } else {
      assert count as real == 6.0;
    }
  }

  /** With six periods counted the estimate is the average; with none it is
      the forecast. */
  lemma EstimateAtTheEnds(actualSum: real, forecast: real)
    ensures Estimate(actualSum, forecast, 6) == Average(actualSum, 6)
    ensures Estimate(0.0, forecast, 0) == forecast
  {
  }

  /** Once the count passes six the forecast gets a negative weight: the
      estimate leaves the interval between the average and the forecast on
      the average's side (twelve records averaging 50 with a forecast of 80
      give 20). */
  lemma EstimateOverfull(actualSum: real, forecast: real, count: int)
    requires count > 6
    ensures var avg := actualSum / count as real;
      var e := Estimate(actualSum, forecast, count);
      (avg < forecast ==> e < avg) && (forecast < avg ==> avg < e) && (avg == forecast ==> e == avg)
  {
    var c := count as real;
    var avg := actualSum / c;
    assert actualSum == avg * c;
    var e := Estimate(actualSum, forecast, count);
    assert e - avg == (c - 6.0) * (avg - forecast) / 6.0;
    if avg < forecast {
      assert (c - 6.0) * (forecast - avg) > 0.0;
    } else if forecast < avg {
      assert (c - 6.0) * (avg - forecast) > 0.0;
    }
  }

  /** The forecast list of the summary: one point per forecast record. */
  function ForecastPoints(s: seq<CumulRecord>): (pts: seq<ForecastPoint>)
    ensures |pts| == |s|
    ensures forall i :: 0 <= i < |s| ==>
      pts[i] == ForecastPoint(s[i].periodStartDate, s[i].settlementDate, PricePerKw(s[i].price))
  {
    if s == [] then []
    else [ForecastPoint(s[0].periodStartDate, s[0].settlementDate, PricePerKw(s[0].price))] + ForecastPoints(s[1..])
  }

  /** The cumulative price of the latest actual record, rounded to a whole number. */
  function LatestCumulative(actuals: seq<CumulRecord>): (c: int)
    requires actuals != []
    ensures exists k :: IsLatest(actuals, k) && c == RoundHalfEven(actuals[k].cumulativePrice)
  {
    var k := LatestIndex(actuals);
    LatestIndexIsLatest(actuals);
    RoundHalfEven(actuals[k].cumulativePrice)
  }

  /** Every lookup the region's summary needs succeeds. */
  predicate LookupsSucceed(region: string, cumul: Nested<PeriodType, CumulRecord>,
                           limits: map<string, real>, nem: map<string, NemSummary>)
  {
    && Forecast in cumul && region in cumul[Forecast]
    && Actual in cumul && region in cumul[Actual]
    && Constants.CumulativePriceThreshold in limits
    && limits[Constants.CumulativePriceThreshold] != 0.0
    && Constants.AdministeredPriceCap in limits
    && Constants.MarketPriceCap in limits
    && region in nem
  }

  /** The `data` dict of one region once every lookup has succeeded
      (lines 156-161 and 166-183). */
  function BuildSummary(region: string, inWindow: seq<CumulRecord>,
                        cumul: Nested<PeriodType, CumulRecord>,
                        limits: map<string, real>, nem: map<string, NemSummary>): (s: RegionSummary)
    requires inWindow != []
    requires NonEmpty(cumul)
    requires LookupsSucceed(region, cumul, limits, nem)
    ensures s.periodsOfCurrent30Min == |inWindow|
  {
    var n := |inWindow|;
    var actualKw := PricePerKw(SumPrices(inWindow));
    var forecasts := cumul[Forecast][region];
    var actuals := cumul[Actual][region];
    var earliest := EarliestIndex(forecasts);
    var forecastKw := PricePerKw(forecasts[earliest].price);
    var cumulative := LatestCumulative(actuals);
    var threshold := limits[Constants.CumulativePriceThreshold];
    var percent := Percent(cumulative as real, threshold);
    RegionSummary(
      current30MinAvg := Average(actualKw, n),
      current30MinForecast := forecastKw,
      current30MinEstimated := Estimate(actualKw, forecastKw, n),
      currentCumulativePrice := cumulative,
      currentPercentCumulativePrice := percent,
      administeredPriceCap := limits[Constants.AdministeredPriceCap],
      marketPriceCap := limits[Constants.MarketPriceCap],
      cumulativePriceThreshold := threshold,
      marketSuspendedFlag := nem[region].marketSuspendedFlag == 1,
      apcFlag := nem[region].apcFlag == 1,
      periodsOfCurrent30Min := n,
      forecast := ForecastPoints(forecasts))
  }

  /** The fields of a region's summary: the average and the estimate of the
      in-window prices in $/kW, the forecast price of the earliest forecast
      record, the rounded cumulative price of the latest actual record and
      its percentage of the threshold, the three limits, the two flags, and
      one forecast point per forecast record. */
  lemma BuildSummaryFields(region: string, inWindow: seq<CumulRecord>,
                           cumul: Nested<PeriodType, CumulRecord>,
                           limits: map<string, real>, nem: map<string, NemSummary>)
    requires inWindow != []
    requires NonEmpty(cumul)
    requires LookupsSucceed(region, cumul, limits, nem)
    ensures var s := BuildSummary(region, inWindow, cumul, limits, nem);
      && s.current30MinAvg == Average(PricePerKw(SumPrices(inWindow)), |inWindow|)
      && (exists k :: IsEarliest(cumul[Forecast][region], k) && s.current30MinForecast == PricePerKw(cumul[Forecast][region][k].price))
      && s.current30MinEstimated == Estimate(PricePerKw(SumPrices(inWindow)), s.current30MinForecast, |inWindow|)
      && (exists k :: IsLatest(cumul[Actual][region], k) && s.currentCumulativePrice == RoundHalfEven(cumul[Actual][region][k].cumulativePrice))
      && s.cumulativePriceThreshold == limits[Constants.CumulativePriceThreshold]
      && s.currentPercentCumulativePrice == Percent(s.currentCumulativePrice as real, s.cumulativePriceThreshold)
      && s.administeredPriceCap == limits[Constants.AdministeredPriceCap]
      && s.marketPriceCap == limits[Constants.MarketPriceCap]
      && (s.marketSuspendedFlag <==> nem[region].marketSuspendedFlag == 1)
      && (s.apcFlag <==> nem[region].apcFlag == 1)
      && s.forecast == ForecastPoints(cumul[Forecast][region])
  {
    EarliestIndexIsEarliest(cumul[Forecast][region]);
    LatestIndexIsLatest(cumul[Actual][region]);
  }

  /** The summary of one region from its in-window records, or the exception
      the first failing lookup raises: "forecast" or the region missing from
      the forecast records (line 159), the region missing from the actual
      records (line 161), a missing market limit or a zero threshold (lines
      174-176), the region missing from the region summaries (line 178). */
  function SummarizeRegion(region: string, inWindow: seq<CumulRecord>,
                           cumul: Nested<PeriodType, CumulRecord>,
                           limits: map<string, real>, nem: map<string, NemSummary>): (r: Result<RegionSummary>)
    requires inWindow != []
    requires NonEmpty(cumul)
    ensures r.Ok? <==> LookupsSucceed(region, cumul, limits, nem)
    ensures r.Ok? ==> r.value == BuildSummary(region, inWindow, cumul, limits, nem)
    ensures Forecast !in cumul ==> r == Err(KeyError("forecast"))
    ensures Forecast in cumul && region !in cumul[Forecast] ==> r == Err(KeyError(region))
    ensures r == Err(ZeroDivisionError) ==>
      Constants.CumulativePriceThreshold in limits && limits[Constants.CumulativePriceThreshold] == 0.0
  {
    if Forecast !in cumul then Err(KeyError("forecast"))
    else if region !in cumul[Forecast] then Err(KeyError(region))
    else if Actual !in cumul then Err(KeyError("actual"))
    else if region !in cumul[Actual] then Err(KeyError(region))
    else if Constants.CumulativePriceThreshold !in limits then Err(KeyError(Constants.CumulativePriceThreshold))
    else if limits[Constants.CumulativePriceThreshold] == 0.0 then Err(ZeroDivisionError)
    else if Constants.AdministeredPriceCap !in limits then Err(KeyError(Constants.AdministeredPriceCap))
    else if Constants.MarketPriceCap !in limits then Err(KeyError(Constants.MarketPriceCap))
    else if region !in nem then Err(KeyError(region))
    else Ok(BuildSummary(region, inWindow, cumul, limits, nem))
  }

  /** Each lookup raises its own exception once the ones before it have
      succeeded: KeyError("actual") or the region's KeyError for the actual
      records (line 161), the KeyError of each market limit's name and the
      ZeroDivisionError of a zero threshold (lines 174-177), the region's
      KeyError for the region summaries (line 178); and no other exception
      is raised. */
  lemma SummarizeRegionRaises(region: string, inWindow: seq<CumulRecord>,
                              cumul: Nested<PeriodType, CumulRecord>,
                              limits: map<string, real>, nem: map<string, NemSummary>)
    requires inWindow != []
    requires NonEmpty(cumul)
    ensures var r := SummarizeRegion(region, inWindow, cumul, limits, nem);
      var cpt := Constants.CumulativePriceThreshold;
      var apc := Constants.AdministeredPriceCap;
      var mpc := Constants.MarketPriceCap;
      var forecastFound := Forecast in cumul && region in cumul[Forecast];
      var actualFound := forecastFound && Actual in cumul && region in cumul[Actual];
      var thresholdFound := actualFound && cpt in limits;
      var divides := thresholdFound && limits[cpt] != 0.0;
      var apcFound := divides && apc in limits;
      var mpcFound := apcFound && mpc in limits;
      && (forecastFound && Actual !in cumul ==> r == Err(KeyError("actual")))
      && (forecastFound && Actual in cumul && region !in cumul[Actual] ==> r == Err(KeyError(region)))
      && (actualFound && cpt !in limits ==> r == Err(KeyError(cpt)))
      && (r == Err(ZeroDivisionError) <==> thresholdFound && limits[cpt] == 0.0)
      && (divides && apc !in limits ==> r == Err(KeyError(apc)))
      && (apcFound && mpc !in limits ==> r == Err(KeyError(mpc)))
      && (mpcFound && region !in nem ==> r == Err(KeyError(region)))
      && (r.Err? ==> r.error in {ZeroDivisionError, KeyError("forecast"), KeyError("actual"), KeyError(region),
                                 KeyError(cpt), KeyError(apc), KeyError(mpc)})
  {
  }

  /** The lookups of lines 159 and 161 have succeeded, so line 165 has put
      an (empty) entry for the region in place before the rest can raise. */
  predicate ReachesPlaceholder(region: string, cumul: Nested<PeriodType, CumulRecord>)
  {
    Forecast in cumul && region in cumul[Forecast] && Actual in cumul && region in cumul[Actual]
  }

  /** Every requested region with in-window records can be summarised. */
  predicate AllSummarize(regions: seq<string>, current: map<string, seq<CumulRecord>>,
                         cumul: Nested<PeriodType, CumulRecord>,
                         limits: map<string, real>, nem: map<string, NemSummary>)
  {
    forall k :: k in current && k in regions ==> LookupsSucceed(k, cumul, limits, nem)
  }

  /** The requested regions that have in-window records. */
  function Targets(current: map<string, seq<CumulRecord>>, regions: seq<string>): set<string>
  {
    set k | k in current && k in regions
  }

  /** Every stored summary counts at least one period. */
  ghost predicate CountsPeriods(m: map<string, Option<RegionSummary>>)
  {
    forall r :: r in m && m[r].Some? ==> m[r].value.periodsOfCurrent30Min >= 1
  }

  /** `after` is `before` with the value `want` gives each target stored
      over it; every other entry is untouched. */
  ghost predicate StoredOver<V>(before: map<string, V>, after: map<string, V>, targets: set<string>, want: map<string, V>)
  {
    && targets <= want.Keys
    && after.Keys == before.Keys + targets
    && forall k :: k in after ==> after[k] == if k in targets then want[k] else before[k]
  }

  lemma StoredOverNone<V>(before: map<string, V>, want: map<string, V>)
    ensures StoredOver(before, before, {}, want)
  {
  }

  /** Storing the wanted value of one more target. */
  lemma StoredOverAdd<V>(before: map<string, V>, after: map<string, V>, targets: set<string>,
                         want: map<string, V>, k0: string)
    requires StoredOver(before, after, targets, want)
    requires k0 in want
    ensures StoredOver(before, after[k0 := want[k0]], targets + {k0}, want)
  {
  }

  /** The summary of every region with in-window records whose lookups succeed. */
  ghost function Wanted(current: map<string, seq<CumulRecord>>, cumul: Nested<PeriodType, CumulRecord>,
                        limits: map<string, real>, nem: map<string, NemSummary>): map<string, Option<RegionSummary>>
    requires NonEmpty(cumul)
  {
    map k | k in current && current[k] != [] && SummarizeRegion(k, current[k], cumul, limits, nem).Ok? ::
      Some(SummarizeRegion(k, current[k], cumul, limits, nem).value)
  }

  /** The summary of each target region is stored over the dict as it was;
      every other entry is untouched. */
  ghost predicate SummarizedAs(before: map<string, Option<RegionSummary>>, after: map<string, Option<RegionSummary>>,
                               targets: set<string>, current: map<string, seq<CumulRecord>>,
                               cumul: Nested<PeriodType, CumulRecord>,
                               limits: map<string, real>, nem: map<string, NemSummary>)
  {
    NonEmpty(cumul) && StoredOver(before, after, targets, Wanted(current, cumul, limits, nem))
  }

  /** No target yet: the dict as it was. */
  lemma SummarizedNone(before: map<string, Option<RegionSummary>>, current: map<string, seq<CumulRecord>>,
                       cumul: Nested<PeriodType, CumulRecord>, limits: map<string, real>, nem: map<string, NemSummary>)
    requires NonEmpty(cumul)
    ensures SummarizedAs(before, before, {}, current, cumul, limits, nem)
  {
    StoredOverNone(before, Wanted(current, cumul, limits, nem));
  }

  /** Storing the summary of one more target region. */
  lemma SummarizedAdd(before: map<string, Option<RegionSummary>>, after: map<string, Option<RegionSummary>>,
                      targets: set<string>, region: string,
                      current: map<string, seq<CumulRecord>>, cumul: Nested<PeriodType, CumulRecord>,
                      limits: map<string, real>, nem: map<string, NemSummary>, s: RegionSummary)
    requires SummarizedAs(before, after, targets, current, cumul, limits, nem)
    requires region in current && current[region] != []
    requires SummarizeRegion(region, current[region], cumul, limits, nem) == Ok(s)
    ensures SummarizedAs(before, after[region := Some(s)], targets + {region}, current, cumul, limits, nem)
  {
    var want := Wanted(current, cumul, limits, nem);
    assert region in want && want[region] == Some(s);
    StoredOverAdd(before, after, targets, want, region);
  }

  /** What the summary loop may have left in the `current_30min_forecast`
      dict when it raised: each entry is as before, the empty placeholder of
      a requested region that had none, or the summary of a requested region. */
  ghost predicate Partial(before: map<string, Option<RegionSummary>>, after: map<string, Option<RegionSummary>>,
                          regions: seq<string>, current: map<string, seq<CumulRecord>>,
                          cumul: Nested<PeriodType, CumulRecord>, limits: map<string, real>, nem: map<string, NemSummary>)
  {
    && NonEmpty(cumul)
    && (forall k :: k in current ==> current[k] != [])
    && before.Keys <= after.Keys
    && forall k :: k in after ==>
      || (k in before && after[k] == before[k])
      || (k in current && k in regions && k !in before && after[k] == None)
      || (k in current && k in regions && after[k].Some? &&
          SummarizeRegion(k, current[k], cumul, limits, nem) == Ok(after[k].value))
  }

  /** The loop raised at a requested region after the summaries of other
      requested regions were stored, with or without putting that region's
      placeholder: not every region summarises, the error is that region's,
      and the dict is partial. */
  lemma Raised(before: map<string, Option<RegionSummary>>, prev: map<string, Option<RegionSummary>>,
               after: map<string, Option<RegionSummary>>, targets: set<string>, region: string,
               regions: seq<string>, current: map<string, seq<CumulRecord>>,
               cumul: Nested<PeriodType, CumulRecord>, limits: map<string, real>, nem: map<string, NemSummary>,
               e: Error)
    requires forall k :: k in current ==> current[k] != []
    requires forall k :: k in targets ==> k in regions
    requires SummarizedAs(before, prev, targets, current, cumul, limits, nem)
    requires region in current && region in regions
    requires SummarizeRegion(region, current[region], cumul, limits, nem) == Err(e)
    requires after == prev || (region !in prev && after == prev[region := None])
    ensures !AllSummarize(regions, current, cumul, limits, nem)
    ensures exists k :: (k in current && k in regions && SummarizeRegion(k, current[k], cumul, limits, nem) == Err(e))
    ensures Partial(before, after, regions, current, cumul, limits, nem)
  {
  }

  /** Once every region has been visited, the targets are all the requested
      regions with in-window records, and each of them summarises. */
  lemma Finished(before: map<string, Option<RegionSummary>>, after: map<string, Option<RegionSummary>>,
                 targets: set<string>, regions: seq<string>, current: map<string, seq<CumulRecord>>,
                 cumul: Nested<PeriodType, CumulRecord>, limits: map<string, real>, nem: map<string, NemSummary>)
    requires forall k :: k in targets <==> k in current && k in regions
    requires SummarizedAs(before, after, targets, current, cumul, limits, nem)
    ensures AllSummarize(regions, current, cumul, limits, nem)
    ensures SummarizedAs(before, after, Targets(current, regions), current, cumul, limits, nem)
  {
    assert targets == Targets(current, regions);
  }
}
