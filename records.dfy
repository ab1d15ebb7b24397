/** The feed records the service consumes, already decoded from JSON, and
    the normalised records it derives from them. Timestamps are instants
    (`Time`), so the feed's +10:00 offset has already been applied. */
module Records {
  import opened Wrappers
  import opened Time

  /** An entry of the 5MIN feed: REGIONID, SETTLEMENTDATE, RRP ($/MWh), PERIODTYPE. */
  datatype FiveMinEntry = FiveMinEntry(regionId: string, settlementDate: int, rrp: real, periodType: string)

  /** A 5MIN entry with the SPOTPRICEPERKW and PERIODSTARTDATE the service adds. */
  datatype PriceRecord = PriceRecord(
    regionId: string,
    settlementDate: int,
    rrp: real,
    periodType: string,
    spotPricePerKw: real,
    periodStartDate: int)

  /** An entry of the cumulative-price feed: A (1 actual, 0 forecast), DT, R, P, CP. */
  datatype CumulEntry = CumulEntry(a: int, dt: int, r: string, p: real, cp: real)

  /** The two kinds of cumulative-price record ("actual" and "forecast"). */
  datatype PeriodType = Actual | Forecast

  /** The cleaned cumulative-price record the service builds from an entry. */
  datatype CumulRecord = CumulRecord(
    periodType: PeriodType,
    settlementDate: int,
    periodStartDate: int,
    regionId: string,
    price: real,
    cumulativePrice: real)

  /** An entry of the market price limits feed: KEY, VALUE. */
  datatype LimitEntry = LimitEntry(key: string, value: real)

  /** An entry of the region summary feed, reduced to the columns the
      aggregation reads: REGIONID, MARKETSUSPENDEDFLAG, APCFLAG. */
  datatype NemSummary = NemSummary(regionId: string, marketSuspendedFlag: int, apcFlag: int)

  /** $/MWh to $/kWh (the rounding to four places is not modelled). */
  function PricePerKw(pricePerMw: real): (r: real)
    ensures r * 1000.0 == pricePerMw
  {
    pricePerMw / 1000.0
  }

  /** How long a period of each kind ends after it starts: a 5-minute actual
      period, a 30-minute forecast period. */
  function Lead(t: PeriodType): (d: int)
    ensures d > 0
  {
    match t
    case Actual => FiveMinutes
    case Forecast => ThirtyMinutes
  }

  /** A cleaned record's period start is its settlement time minus its kind's lead. */
  ghost predicate WellFormed(c: CumulRecord)
  {
    c.periodStartDate == c.settlementDate - Lead(c.periodType)
  }

  /** A 5MIN entry with its derived fields, given the lead to subtract. */
  function Normalize(e: FiveMinEntry, lead: int): (r: PriceRecord)
    ensures r.periodStartDate + lead == e.settlementDate
    ensures r.spotPricePerKw * 1000.0 == e.rrp
    ensures (r.regionId, r.settlementDate, r.rrp, r.periodType) == (e.regionId, e.settlementDate, e.rrp, e.periodType)
  {
    PriceRecord(e.regionId, e.settlementDate, e.rrp, e.periodType, PricePerKw(e.rrp), e.settlementDate - lead)
  }

  /** The cleaning step of `_get_current_cumulative_price`. None when A is
      neither 1 nor 0: the record then has no PERIODTYPE and the lookup of
      that key raises. */
  function Clean(e: CumulEntry): (r: Option<CumulRecord>)
    ensures r.Some? <==> e.a == 1 || e.a == 0
    ensures r.Some? ==> WellFormed(r.value)
    ensures r.Some? ==> (r.value.periodType == Actual <==> e.a == 1)
    ensures r.Some? ==> r.value.settlementDate == e.dt && r.value.regionId == e.r
    ensures r.Some? ==> r.value.price == e.p && r.value.cumulativePrice == e.cp
  {
    if e.a == 1 then Some(CumulRecord(Actual, e.dt, e.dt - FiveMinutes, e.r, e.p, e.cp))
    else if e.a == 0 then Some(CumulRecord(Forecast, e.dt, e.dt - ThirtyMinutes, e.r, e.p, e.cp))
    else None
  }
}
