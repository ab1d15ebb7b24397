/** The `AemoNemData` service object (src/aemonemdata/aemonem.py): the
    dicts and lists it keeps on the instance, and the record loops that
    update them. Each fetch is given as the reply the endpoint sent; the
    loops run over the decoded records of that reply. */
module AemoNem {
  import opened Wrappers
  import opened Errors
  import opened Time
  import opened Records
  import opened Dicts
  import opened Api
  import opened Feeds
  import opened Aggregation
  import opened CurrentPrice
  import Constants
  import WindowClock

  /** The endpoints the aggregation requests. */
  datatype Endpoint = CumulativePrice | MarketPriceLimits | ElecNemSummary

  /** The requests of one `_get_current_30min_price` call that gets through
      every fetch: the market limits only while they are not cached. */
  function Plan(capCached: bool): seq<Endpoint>
  {
    [CumulativePrice] + (if capCached then [] else [MarketPriceLimits]) + [ElecNemSummary]
  }

  /** What a stored `_get_data_full` record looks like. */
  ghost predicate FullShape(kind: string, region: string, x: PriceRecord)
  {
    x.periodType == kind && x.regionId == region && x.periodStartDate == x.settlementDate - FiveMinutes
  }

  /** The cumulative-price reply was accepted and every entry had an A of 1 or 0. */
  predicate Ingests(reply: Reply<seq<CumulEntry>>)
  {
    ApiResponse(reply).Ok? && |CleanedPrefix(reply.body.value.payload)| == |reply.body.value.payload|
  }

  /** The cumulative-price dict after the records of an accepted reply were appended. */
  function Ingested(m: Nested<PeriodType, CumulRecord>, reply: Reply<seq<CumulEntry>>): Nested<PeriodType, CumulRecord>
    requires ApiResponse(reply).Ok?
  {
    AppendAll(m, Filed(CleanedPrefix(reply.body.value.payload)))
  }

  /** The loop of lines 130-135: the latest record of each region, by
      settlement time. */
  method LatestLoop(actuals: map<string, seq<CumulRecord>>) returns (current: map<string, CumulRecord>)
    requires forall r :: r in actuals ==> actuals[r] != []
    ensures current == LatestActuals(actuals)
  {
    var remaining := actuals.Keys;
    ghost var done: set<string> := {};
    current := map[];
    while remaining != {}
      invariant remaining + done == actuals.Keys && remaining !! done
      invariant current == LatestWithin(actuals, done)
      decreases remaining
    {
      var region :| region in remaining;
      var latest := actuals[region][LatestIndex(actuals[region])];
      LatestWithinAdd(actuals, done, region);
      current := current[region := latest];
      remaining := remaining - {region};
      done := done + {region};
    }
    LatestWithinAll(actuals);
  }

  /** One pass of the summary loop of lines 154-184, for the region `region`:
      a region that was not requested is skipped; a requested one gets its
      summary stored, or the loop raises. */
  method SummaryStep(region: string, regions: seq<string>, current: map<string, seq<CumulRecord>>,
                     cumul: Nested<PeriodType, CumulRecord>, limits: map<string, real>,
                     nem: map<string, NemSummary>, before: map<string, Option<RegionSummary>>,
                     after: map<string, Option<RegionSummary>>, ghost targets: set<string>)
    returns (r: Outcome, after': map<string, Option<RegionSummary>>, ghost targets': set<string>)
    requires forall k :: k in current ==> current[k] != []
    requires forall k :: k in targets ==> k in regions
    requires region in current && region !in targets
    requires SummarizedAs(before, after, targets, current, cumul, limits, nem)
    requires CountsPeriods(after)
    ensures CountsPeriods(after')
    ensures r.Pass? ==> targets' == if region in regions then targets + {region} else targets
    ensures r.Pass? ==> SummarizedAs(before, after', targets', current, cumul, limits, nem)
    ensures r.Fail? ==> !AllSummarize(regions, current, cumul, limits, nem)
    ensures r.Fail? ==> exists k :: (k in current && k in regions &&
      SummarizeRegion(k, current[k], cumul, limits, nem) == Err(r.error))
    ensures r.Fail? ==> Partial(before, after', regions, current, cumul, limits, nem)
  {
    r, after', targets' := Pass, after, targets;
    if region in regions {
      var s := SummarizeRegion(region, current[region], cumul, limits, nem);
      if s.Err? {
        if ReachesPlaceholder(region, cumul) && region !in after {
          after' := after[region := None];
        }
        Raised(before, after, after', targets, region, regions, current, cumul, limits, nem, s.error);
        return Fail(s.error), after', targets';
      }
      SummarizedAdd(before, after, targets, region, current, cumul, limits, nem, s.value);
      after' := after[region := Some(s.value)];
      targets' := targets + {region};
    }
  }

  /** The summary loop of lines 154-184 over the `current_price` dict:
      every requested region gets its summary, or the loop raises at the
      first requested region whose lookups fail, after putting the empty
      placeholder of line 165 in place when the lookups of lines 159 and
      161 succeeded and the region had no entry. On success each
      placeholder is overwritten by its summary. */
  method SummaryLoop(regions: seq<string>, current: map<string, seq<CumulRecord>>,
                     cumul: Nested<PeriodType, CumulRecord>, limits: map<string, real>,
                     nem: map<string, NemSummary>, before: map<string, Option<RegionSummary>>)
    returns (r: Outcome, after: map<string, Option<RegionSummary>>)
    requires NonEmpty(cumul)
    requires forall k :: k in current ==> current[k] != []
    requires CountsPeriods(before)
    ensures CountsPeriods(after)
    ensures r.Pass? <==> AllSummarize(regions, current, cumul, limits, nem)
    ensures r.Pass? ==> SummarizedAs(before, after, Targets(current, regions), current, cumul, limits, nem)
    ensures r.Fail? ==> exists k :: (k in current && k in regions &&
      SummarizeRegion(k, current[k], cumul, limits, nem) == Err(r.error))
    ensures r.Fail? ==> Partial(before, after, regions, current, cumul, limits, nem)
  {
    after := before;
    var remaining := current.Keys;
    ghost var done: set<string> := {};
    ghost var targets: set<string> := {};
    SummarizedNone(before, current, cumul, limits, nem);
    while remaining != {}
      invariant remaining + done == current.Keys && remaining !! done
      invariant forall k :: k in targets <==> k in done && k in regions
      invariant SummarizedAs(before, after, targets, current, cumul, limits, nem)
      invariant CountsPeriods(after)
      decreases remaining
    {
      var region :| region in remaining;
      remaining := remaining - {region};
      r, after, targets := SummaryStep(region, regions, current, cumul, limits, nem, before, after, targets);
      if r.Fail? {
        return;
      }
      done := done + {region};
    }
    Finished(before, after, targets, regions, current, cumul, limits, nem);
    r := Pass;
  }

  /** How the cumulative-price fetch of line 141 ends: the reply's
      exception, the KeyError of an entry whose A is neither 1 nor 0, or no
      exception. */
  function CumulResult(reply: Reply<seq<CumulEntry>>): Outcome
  {
    if ApiResponse(reply).Err? then Fail(ApiResponse(reply).error)
    else if Ingests(reply) then Pass
    else Fail(KeyError("PERIODTYPE"))
  }

  /** `cumul_price` after line 141: an accepted reply's records are
      appended, up to an entry that raised. */
  function CumulAfter(cumul0: Nested<PeriodType, CumulRecord>, cumulReply: Reply<seq<CumulEntry>>): Nested<PeriodType, CumulRecord>
  {
    if ApiResponse(cumulReply).Err? then cumul0 else Ingested(cumul0, cumulReply)
  }

  /** How a fetch whose record loop cannot raise ends: the reply's exception, if any. */
  function ReplyResult<T>(reply: Reply<T>): Outcome
  {
    if ApiResponse(reply).Err? then Fail(ApiResponse(reply).error) else Pass
  }

  /** How lines 142-143 end: nothing is requested while the limits are cached. */
  function LimitsStep(capCached: bool, capReply: Reply<seq<LimitEntry>>): Outcome
  {
    if capCached then Pass else ReplyResult(capReply)
  }

  /** `mkt_limits` after lines 142-143: an accepted reply's limits are stored
      when they were requested. */
  function LimitsStored(capCached: bool, limits0: map<string, real>, capReply: Reply<seq<LimitEntry>>): map<string, real>
  {
    if !capCached && ApiResponse(capReply).Ok? then StoreAll(limits0, Named(capReply.body.value.payload)) else limits0
  }

  /** `elec_nem_summary` after line 144: an accepted reply's summaries are stored. */
  function SummariesStored(nem0: map<string, NemSummary>, nemReply: Reply<seq<NemSummary>>): map<string, NemSummary>
  {
    if ApiResponse(nemReply).Ok? then StoreAll(nem0, ByRegion(nemReply.body.value.payload)) else nem0
  }

  /** The exception of lines 141-144 and the requests made, in order: the
      cumulative prices, the market limits unless cached, the region
      summaries, stopping at the first fetch that raises. */
  function FetchResult(capCached: bool, cumulReply: Reply<seq<CumulEntry>>, capReply: Reply<seq<LimitEntry>>,
                       nemReply: Reply<seq<NemSummary>>): (Outcome, seq<Endpoint>)
  {
    if CumulResult(cumulReply).Fail? then (CumulResult(cumulReply), [CumulativePrice])
    else if LimitsStep(capCached, capReply).Fail? then (LimitsStep(capCached, capReply), [CumulativePrice, MarketPriceLimits])
    else (ReplyResult(nemReply), Plan(capCached))
  }

  /** How the fetch of one endpoint of Plan ends. */
  function EndpointResult(e: Endpoint, cumulReply: Reply<seq<CumulEntry>>, capReply: Reply<seq<LimitEntry>>,
                          nemReply: Reply<seq<NemSummary>>): Outcome
  {
    match e
    case CumulativePrice => CumulResult(cumulReply)
    case MarketPriceLimits => ReplyResult(capReply)
    case ElecNemSummary => ReplyResult(nemReply)
  }

  /** The requests are a non-empty prefix of Plan; every request but the
      last ended without an exception, and the call ends as the last one
      did; it passes exactly when every request of Plan passes. */
  lemma FetchStopsAtFirstError(capCached: bool, cumulReply: Reply<seq<CumulEntry>>,
                               capReply: Reply<seq<LimitEntry>>, nemReply: Reply<seq<NemSummary>>)
    ensures var fetched := FetchResult(capCached, cumulReply, capReply, nemReply).1;
      && fetched != [] && fetched <= Plan(capCached)
      && (forall i :: 0 <= i < |fetched| - 1 ==> EndpointResult(fetched[i], cumulReply, capReply, nemReply).Pass?)
      && FetchResult(capCached, cumulReply, capReply, nemReply).0 ==
           EndpointResult(fetched[|fetched| - 1], cumulReply, capReply, nemReply)
    ensures FetchResult(capCached, cumulReply, capReply, nemReply).0.Pass? <==>
      forall i :: 0 <= i < |Plan(capCached)| ==> EndpointResult(Plan(capCached)[i], cumulReply, capReply, nemReply).Pass?
    ensures FetchResult(capCached, cumulReply, capReply, nemReply).0.Pass? ==>
      FetchResult(capCached, cumulReply, capReply, nemReply).1 == Plan(capCached)
  {
    var plan := Plan(capCached);
    if capCached {
      assert plan == [CumulativePrice, ElecNemSummary];
    } else {
      assert plan == [CumulativePrice, MarketPriceLimits, ElecNemSummary];
    }
  }

  /** Lines 42-45 of `get_aemo_data`: resolve every code in order, raising
      the KeyError of the first unknown one. */
  method ResolveCodes(codes: seq<string>) returns (r: Result<seq<string>>)
    ensures r == ResolveRegions(codes)
  {
    var regions: seq<string> := [];
    var i := 0;
    while i < |codes|
      invariant 0 <= i <= |codes|
      invariant ResolveRegions(codes[..i]) == Ok(regions)
    {
      assert codes[..i + 1][..i] == codes[..i];
      var lookup := Constants.LookupRegion(codes[i]);
      if lookup.Err? {
        ResolveStaysFailed(codes, i + 1);
        return Err(lookup.error);
      }
      regions := regions + [lookup.value];
      i := i + 1;
    }
    assert codes[..|codes|] == codes;
    r := Ok(regions);
  }

  class AemoNemData {
    /** `_region_id`. */
    var regionId: Option<string>
    /** `_aemo_data_full`: 5MIN records by PERIODTYPE, then REGIONID. */
    var dataFull: Nested<string, PriceRecord>
    /** `_aemo_data_now`; None is the initial empty dict. */
    var dataNow: Option<PriceRecord>
    /** `_aemo_data_actual` and `_aemo_data_forecast`. */
    var dataActual: seq<PriceRecord>
    var dataForecast: seq<PriceRecord>
    /** The "actual" and "forecast" keys of `_aemo_data_cumul_price`. */
    var cumulPrice: Nested<PeriodType, CumulRecord>
    /** Its "current" key, the latest actual record per region. */
    var cumulCurrent: Option<map<string, CumulRecord>>
    /** `_aemo_data_results["current_price"]`; the key is present exactly when this is non-empty. */
    var currentPrice: map<string, seq<CumulRecord>>
    /** `_aemo_data_results["current_30min_forecast"]`; None is the empty
        dict a region gets before its summary is worked out. */
    var forecastSummaries: map<string, Option<RegionSummary>>
    /** `_aemo_data_elec_nem_summary`, by REGIONID. */
    var elecNemSummary: map<string, NemSummary>
    /** `_ameo_mkt_limits`. */
    var mktLimits: map<string, real>
    /** `_mkt_cap is not None`; once set it is the same dict as `_ameo_mkt_limits`. */
    var mktCapCached: bool

    /** The 5MIN records filed by `_get_data_full`. */
    ghost predicate ValidFull()
      reads this`dataFull
    {
      NonEmpty(dataFull) && AllItems(dataFull, FullShape)
    }

    /** The actual list of `get_data` and `_get_data_full`. */
    ghost predicate ValidActual()
      reads this`dataActual
    {
      forall i :: 0 <= i < |dataActual| ==> dataActual[i].periodStartDate == dataActual[i].settlementDate - FiveMinutes
    }

    /** The forecast list and the current forecast of `get_data`. */
    ghost predicate ValidForecasts()
      reads this`dataForecast, this`dataNow
    {
      && (forall i :: 0 <= i < |dataForecast| ==>
            dataForecast[i].periodType == "FORECAST" &&
            dataForecast[i].periodStartDate == dataForecast[i].settlementDate - ThirtyMinutes)
      && (dataNow.Some? ==>
            dataNow.value.periodType == "FORECAST" &&
            dataNow.value.periodStartDate == dataNow.value.settlementDate - ThirtyMinutes)
    }

    /** The cumulative-price dict: every record under its own type and region. */
    ghost predicate ValidCumul()
      reads this`cumulPrice, this`cumulCurrent
    {
      && NonEmpty(cumulPrice) && AllItems(cumulPrice, CumulShape)
      && (cumulCurrent.Some? ==> forall r :: r in cumulCurrent.value ==> CumulShape(Actual, r, cumulCurrent.value[r]))
    }

    /** `current_price`: non-empty lists of actual records of their region. */
    ghost predicate ValidCurrent()
      reads this`currentPrice
    {
      && (forall r :: r in currentPrice ==> currentPrice[r] != [])
      && (forall r, i :: r in currentPrice && 0 <= i < |currentPrice[r]| ==> CumulShape(Actual, r, currentPrice[r][i]))
    }

    /** Every summary counts at least one period. */
    ghost predicate ValidSummaries()
      reads this`forecastSummaries
    {
      CountsPeriods(forecastSummaries)
    }

    /** Region summaries under their own REGIONID; only the three limit keys. */
    ghost predicate ValidLimits()
      reads this`elecNemSummary, this`mktLimits
    {
      && (forall r :: r in elecNemSummary ==> elecNemSummary[r].regionId == r)
      && mktLimits.Keys <= LimitKeys
    }

    /** The lists of `get_data` and `_get_data_full`, which the 30-minute
        window never touches. */
    ghost predicate ValidData()
      reads this`dataFull, this`dataActual, this`dataForecast, this`dataNow
    {
      ValidFull() && ValidActual() && ValidForecasts()
    }

    /** The fields of the 30-minute window: cumulative prices, gathered
        records, summaries and limits. */
    ghost predicate ValidWindow()
      reads this`cumulPrice, this`cumulCurrent, this`currentPrice, this`forecastSummaries, this`elecNemSummary, this`mktLimits
    {
      ValidCumul() && ValidCurrent() && ValidSummaries() && ValidLimits()
    }

    /** What the loops keep true of the instance between calls. */
    ghost predicate Valid()
      reads this
    {
      ValidData() && ValidWindow()
    }

    /** `__init__`: every dict and list empty, nothing cached. */
    constructor ()
      ensures Valid()
      ensures regionId == None && dataFull == map[] && dataNow == None
      ensures dataActual == [] && dataForecast == []
      ensures cumulPrice == map[] && cumulCurrent == None
      ensures currentPrice == map[] && forecastSummaries == map[]
      ensures elecNemSummary == map[] && mktLimits == map[] && !mktCapCached
    {
      regionId := None;
      dataFull := map[];
      dataNow := None;
      dataActual := [];
      dataForecast := [];
      cumulPrice := map[];
      cumulCurrent := None;
      currentPrice := map[];
      forecastSummaries := map[];
      elecNemSummary := map[];
      mktLimits := map[];
      mktCapCached := false;
    }

    /** `get_data`: the region's ACTUAL and FORECAST records of the 5MIN feed
        are appended to the two lists, and the first FORECAST record becomes
        `_aemo_data_now`. The region is recorded before the fetch. */
    method GetData(region: string, reply: Reply<seq<FiveMinEntry>>)
      returns (r: Result<(seq<PriceRecord>, seq<PriceRecord>)>)
      requires ValidActual() && ValidForecasts()
      modifies this`regionId, this`dataActual, this`dataForecast, this`dataNow
      ensures ValidActual() && ValidForecasts()
      ensures regionId == Some(region)
      ensures ApiResponse(reply).Err? ==>
        r == Err(ApiResponse(reply).error) &&
        dataActual == old(dataActual) && dataForecast == old(dataForecast) && dataNow == old(dataNow)
      ensures ApiResponse(reply).Ok? ==>
        var feed := reply.body.value.payload;
        && dataActual == old(dataActual) + ActualsOf(region, feed)
        && dataForecast == old(dataForecast) + ForecastsOf(region, feed)
        && dataNow == (if FirstForecast(region, feed).Some? then FirstForecast(region, feed) else old(dataNow))
        && r == Ok((dataActual, dataForecast))
    {
      regionId := Some(region);
      var response := ApiResponse(reply);
      if response.Err? {
        return Err(response.error);
      }
      var feed := response.value.payload;
      var firstForecast := false;
      var i := 0;
      while i < |feed|
        invariant 0 <= i <= |feed|
        invariant regionId == Some(region)
        invariant dataActual == old(dataActual) + ActualsOf(region, feed[..i])
        invariant dataForecast == old(dataForecast) + ForecastsOf(region, feed[..i])
        invariant firstForecast <==> FirstForecast(region, feed[..i]).Some?
        invariant dataNow == if firstForecast then FirstForecast(region, feed[..i]) else old(dataNow)
        invariant ValidActual() && ValidForecasts()
      {
        SelectStep(region, feed, i, old(dataActual), old(dataForecast));
        firstForecast := SelectEntry(feed[i], firstForecast);
        i := i + 1;
      }
      assert feed[..|feed|] == feed;
      r := Ok((dataActual, dataForecast));
    }

    /** The body of the 5MIN loop of `get_data` for one entry: an ACTUAL or
        FORECAST entry of the recorded region is appended to its list, and
        the first FORECAST one also becomes `_aemo_data_now`. */
    method SelectEntry(e: FiveMinEntry, seen: bool) returns (seen': bool)
      requires regionId.Some?
      requires ValidActual() && ValidForecasts()
      modifies this`dataActual, this`dataForecast, this`dataNow
      ensures ValidActual() && ValidForecasts()
      ensures var mine := e.regionId == regionId.value;
        && dataActual == old(dataActual) + (if mine && e.periodType == "ACTUAL" then [Normalize(e, FiveMinutes)] else [])
        && dataForecast == old(dataForecast) + (if mine && e.periodType == "FORECAST" then [Normalize(e, ThirtyMinutes)] else [])
        && seen' == (seen || (mine && e.periodType == "FORECAST"))
        && dataNow == if !seen && mine && e.periodType == "FORECAST" then Some(Normalize(e, ThirtyMinutes)) else old(dataNow)
    {
      seen' := seen;
      if e.regionId == regionId.value {
        if e.periodType == "ACTUAL" {
          PushActual(Normalize(e, FiveMinutes));
        } else if e.periodType == "FORECAST" {
          var x := Normalize(e, ThirtyMinutes);
          PushForecast(x);
          if !seen {
            seen' := true;
            SetNow(x);
          }
        }
      }
    }

    /** `_aemo_data_actual.append(x)`. */
    method PushActual(x: PriceRecord)
      requires ValidActual()
      requires x.periodStartDate == x.settlementDate - FiveMinutes
      modifies this`dataActual
      ensures ValidActual()
      ensures dataActual == old(dataActual) + [x]
    {
      dataActual := dataActual + [x];
    }

    /** `_aemo_data_forecast.append(x)`. */
    method PushForecast(x: PriceRecord)
      requires ValidForecasts()
      requires x.periodType == "FORECAST" && x.periodStartDate == x.settlementDate - ThirtyMinutes
      modifies this`dataForecast
      ensures ValidForecasts()
      ensures dataForecast == old(dataForecast) + [x]
    {
      dataForecast := dataForecast + [x];
    }

    /** `_aemo_data_now = x`. */
    method SetNow(x: PriceRecord)
      requires ValidForecasts()
      requires x.periodType == "FORECAST" && x.periodStartDate == x.settlementDate - ThirtyMinutes
      modifies this`dataNow
      ensures ValidForecasts()
      ensures dataNow == Some(x)
    {
      dataNow := Some(x);
    }

    /** `_get_data_full`: every 5MIN record, whatever its type, gets a period
        start five minutes before its settlement, goes onto the actual list,
        and is filed under its PERIODTYPE and REGIONID. */
    method GetDataFull(reply: Reply<seq<FiveMinEntry>>) returns (r: Result<Nested<string, PriceRecord>>)
      requires ValidFull() && ValidActual()
      modifies this`dataFull, this`dataActual
      ensures ValidFull() && ValidActual()
      ensures ApiResponse(reply).Err? ==>
        r == Err(ApiResponse(reply).error) && dataFull == old(dataFull) && dataActual == old(dataActual)
      ensures ApiResponse(reply).Ok? ==>
        var feed := reply.body.value.payload;
        && dataActual == old(dataActual) + FullRecords(feed)
        && dataFull == AppendAll(old(dataFull), Tag(FullRecords(feed)))
        && r == Ok(dataFull)
    {
      var response := ApiResponse(reply);
      if response.Err? {
        return Err(response.error);
      }
      var feed := response.value.payload;
      var i := 0;
      while i < |feed|
        invariant 0 <= i <= |feed|
        invariant dataActual == old(dataActual) + FullRecords(feed[..i])
        invariant dataFull == AppendAll(old(dataFull), Tag(FullRecords(feed[..i])))
        invariant ValidFull() && ValidActual()
      {
        var x := Normalize(feed[i], FiveMinutes);
        FullStep(feed, i, old(dataActual), old(dataFull));
        FileFull(x);
        i := i + 1;
      }
      assert feed[..|feed|] == feed;
      r := Ok(dataFull);
    }

    /** One record of `_get_data_full`. */
    method FileFull(x: PriceRecord)
      requires ValidFull() && ValidActual()
      requires x.periodStartDate == x.settlementDate - FiveMinutes
      modifies this`dataFull, this`dataActual
      ensures ValidFull() && ValidActual()
      ensures dataActual == old(dataActual) + [x]
      ensures dataFull == Append(old(dataFull), Keyed(x.periodType, x.regionId, x))
    {
      PushActual(x);
      AppendKeepsAllItems(dataFull, Keyed(x.periodType, x.regionId, x), FullShape);
      dataFull := Append(dataFull, Keyed(x.periodType, x.regionId, x));
    }

    /** `_get_current_cumulative_price`: each entry is cleaned and appended to
        the list at its type and region; an entry whose A is neither 1 nor 0
        has no PERIODTYPE, and the lookup raises after the entries before it
        were appended. */
    method GetCurrentCumulativePrice(reply: Reply<seq<CumulEntry>>) returns (r: Outcome)
      requires ValidCumul()
      modifies this`cumulPrice
      ensures ValidCumul()
      ensures r == CumulResult(reply)
      ensures cumulPrice == CumulAfter(old(cumulPrice), reply)
    {
      var response := ApiResponse(reply);
      if response.Err? {
        return Fail(response.error);
      }
      var feed := response.value.payload;
      ghost var cs := CleanedPrefix(feed);
      var i := 0;
      while i < |feed|
        invariant 0 <= i <= |cs|
        invariant cumulPrice == AppendAll(old(cumulPrice), Filed(cs[..i]))
        invariant ValidCumul()
      {
        var clean := Clean(feed[i]);
        if clean.None? {
          assert cs[..i] == cs;
          return Fail(KeyError("PERIODTYPE"));
        }
        var c := clean.value;
        CumulStep(cs, i, old(cumulPrice));
        FileCumul(c);
        i := i + 1;
      }
      assert cs[..i] == cs;
      r := Pass;
    }

    /** One record of `_get_current_cumulative_price`. */
    method FileCumul(c: CumulRecord)
      requires ValidCumul()
      requires WellFormed(c)
      modifies this`cumulPrice
      ensures ValidCumul()
      ensures cumulPrice == Append(old(cumulPrice), Keyed(c.periodType, c.regionId, c))
    {
      var x := Keyed(c.periodType, c.regionId, c);
      AppendKeepsAllItems(cumulPrice, x, CumulShape);
      cumulPrice := Append(cumulPrice, x);
    }

    /** `_get_current_cumul_price`: the ingest, then the latest actual record
        of each region of the ingested dict replaces the whole dict. */
    method GetCurrentCumulPrice(reply: Reply<seq<CumulEntry>>) returns (r: Outcome)
      requires ValidCumul()
      modifies this`cumulPrice, this`cumulCurrent
      ensures ValidCumul()
      ensures ApiResponse(reply).Err? ==>
        r == Fail(ApiResponse(reply).error) && cumulPrice == old(cumulPrice) && cumulCurrent == old(cumulCurrent)
      ensures ApiResponse(reply).Ok? && !Ingests(reply) ==>
        r == Fail(KeyError("PERIODTYPE")) && cumulPrice == Ingested(old(cumulPrice), reply) &&
        cumulCurrent == old(cumulCurrent)
      ensures Ingests(reply) ==> cumulPrice == map[]
      ensures Ingests(reply) && Actual !in Ingested(old(cumulPrice), reply) ==>
        r == Fail(KeyError("actual")) && cumulCurrent == None
      ensures Ingests(reply) && Actual in Ingested(old(cumulPrice), reply) ==>
        r == Pass && cumulCurrent == Some(LatestActuals(Ingested(old(cumulPrice), reply)[Actual]))
    {
      r := GetCurrentCumulativePrice(reply);
      if r.Fail? {
        assert !Ingests(reply);
        return;
      }
      assert Ingests(reply);
      r := KeepLatest();
    }

    /** Lines 128-136 after the ingest: the dict is replaced by one holding
        only "current", the latest actual record of each region; without
        "actual" records the loop raises once the dict has been replaced. */
    method KeepLatest() returns (r: Outcome)
      requires ValidCumul()
      modifies this`cumulPrice, this`cumulCurrent
      ensures ValidCumul()
      ensures cumulPrice == map[]
      ensures Actual !in old(cumulPrice) ==> r == Fail(KeyError("actual")) && cumulCurrent == None
      ensures Actual in old(cumulPrice) ==> r == Pass && cumulCurrent == Some(LatestActuals(old(cumulPrice)[Actual]))
    {
      var test := cumulPrice;
      cumulPrice := map[];
      cumulCurrent := None;
      if Actual !in test {
        return Fail(KeyError("actual"));
      }
      LatestActualsShape(test);
      var current := LatestLoop(test[Actual]);
      cumulCurrent := Some(current);
      r := Pass;
    }

    /** `_get_mkt_limit_cap`: the three named limits are stored, a later
        entry with the same key overwriting an earlier one. */
    method GetMktLimitCap(reply: Reply<seq<LimitEntry>>) returns (r: Result<map<string, real>>)
      requires ValidLimits()
      modifies this`mktLimits
      ensures ValidLimits()
      ensures ApiResponse(reply).Err? ==> r == Err(ApiResponse(reply).error) && mktLimits == old(mktLimits)
      ensures ApiResponse(reply).Ok? ==>
        mktLimits == StoreAll(old(mktLimits), Named(reply.body.value.payload)) && r == Ok(mktLimits)
    {
      var response := ApiResponse(reply);
      if response.Err? {
        return Err(response.error);
      }
      var entries := response.value.payload;
      var i := 0;
      while i < |entries|
        invariant 0 <= i <= |entries|
        invariant mktLimits == StoreAll(old(mktLimits), Named(entries[..i]))
        invariant ValidLimits()
      {
        var e := entries[i];
        LimitStep(entries, i, old(mktLimits));
        if e.key == Constants.AdministeredPriceCap {
          mktLimits := mktLimits[Constants.AdministeredPriceCap := e.value];
        } else if e.key == Constants.CumulativePriceThreshold {
          mktLimits := mktLimits[Constants.CumulativePriceThreshold := e.value];
        } else if e.key == Constants.MarketPriceCap {
          mktLimits := mktLimits[Constants.MarketPriceCap := e.value];
        } else {
          assert e.key !in LimitKeys;
        }
        i := i + 1;
      }
      assert entries[..|entries|] == entries;
      r := Ok(mktLimits);
    }

    /** `_get_mkt_limit`: each region summary entry is stored under its REGIONID. */
    method GetMktLimit(reply: Reply<seq<NemSummary>>) returns (r: Result<map<string, NemSummary>>)
      requires ValidLimits()
      modifies this`elecNemSummary
      ensures ValidLimits()
      ensures ApiResponse(reply).Err? ==> r == Err(ApiResponse(reply).error) && elecNemSummary == old(elecNemSummary)
      ensures ApiResponse(reply).Ok? ==>
        elecNemSummary == StoreAll(old(elecNemSummary), ByRegion(reply.body.value.payload)) && r == Ok(elecNemSummary)
    {
      var response := ApiResponse(reply);
      if response.Err? {
        return Err(response.error);
      }
      var feed := response.value.payload;
      var i := 0;
      while i < |feed|
        invariant 0 <= i <= |feed|
        invariant elecNemSummary == StoreAll(old(elecNemSummary), ByRegion(feed[..i]))
        invariant ValidLimits()
      {
        var data := feed[i];
        NemStep(feed, i, old(elecNemSummary));
        elecNemSummary := elecNemSummary[data.regionId := data];
        i := i + 1;
      }
      assert feed[..|feed|] == feed;
      r := Ok(elecNemSummary);
    }

    /** `current_price[region].append(c)`, creating the list on first use. */
    method PushCurrent(region: string, c: CumulRecord)
      requires ValidCurrent()
      requires CumulShape(Actual, region, c)
      modifies this`currentPrice
      ensures ValidCurrent()
      ensures currentPrice == old(currentPrice)[region := Get(old(currentPrice), region) + [c]]
    {
      currentPrice := currentPrice[region := Get(currentPrice, region) + [c]];
    }

    /** Lines 147-153 for one requested region: its records whose period
        starts inside the window are appended to its list, in order. */
    method FilterRegion(region: string, records: seq<CumulRecord>, w: Window)
      requires ValidCurrent()
      requires forall i :: 0 <= i < |records| ==> CumulShape(Actual, region, records[i])
      modifies this`currentPrice
      ensures ValidCurrent()
      ensures currentPrice == Add(old(currentPrice), region, InWindow(records, w))
    {
      var j := 0;
      while j < |records|
        invariant 0 <= j <= |records|
        invariant currentPrice == Add(old(currentPrice), region, InWindow(records[..j], w))
        invariant ValidCurrent()
      {
        var c := records[j];
        FilterStep(old(currentPrice), region, records, j, w);
        if w.start <= c.periodStartDate && c.periodStartDate < w.end {
          PushCurrent(region, c);
        }
        j := j + 1;
      }
      assert records[..|records|] == records;
    }

    /** Lines 146-153 for one region of the actual records: only a requested
        region has its in-window records appended. */
    method VisitRegion(region: string, actual: PriceLists, regions: seq<string>, w: Window)
      requires ValidCurrent()
      requires region in actual
      requires forall i :: 0 <= i < |actual[region]| ==> CumulShape(Actual, region, actual[region][i])
      modifies this`currentPrice
      ensures ValidCurrent()
      ensures currentPrice == Add(old(currentPrice), region, Picked(actual, regions, w, region))
    {
      if region in regions {
        FilterRegion(region, actual[region], w);
      } else {
        AddNothing(currentPrice, region);
      }
    }

    /** Lines 145-153: the in-window actual records of the requested regions
        are appended to `current_price`. */
    method FilterCurrentWindow(regions: seq<string>, w: Window)
      requires ValidCumul() && ValidCurrent()
      requires Actual in cumulPrice
      modifies this`currentPrice
      ensures ValidCurrent()
      ensures currentPrice == Gathered(old(currentPrice), cumulPrice[Actual], regions, w)
    {
      var actual := cumulPrice[Actual];
      ActualShapes(cumulPrice);
      var remaining := actual.Keys;
      ghost var visited: set<string> := {};
      GatheredSoFarStart(currentPrice, actual, regions, w);
      while remaining != {}
        invariant remaining + visited == actual.Keys && remaining !! visited
        invariant GatheredSoFar(old(currentPrice), currentPrice, actual, regions, w, visited)
        invariant ValidCurrent()
        decreases remaining
      {
        var region :| region in remaining;
        GatheredSoFarVisit(old(currentPrice), currentPrice, actual, regions, w, visited, region);
        VisitRegion(region, actual, regions, w);
        remaining := remaining - {region};
        visited := visited + {region};
      }
      GatheredSoFarEnd(old(currentPrice), currentPrice, actual, regions, w);
    }

    /** Lines 154-184 on the instance: the summary loop runs over the
        `current_price` dict and leaves `current_30min_forecast` as it would
        be after the loop finished or raised. */
    method SummarizeRegions(regions: seq<string>) returns (r: Outcome)
      requires ValidCumul() && ValidCurrent() && ValidSummaries()
      modifies this`forecastSummaries
      ensures ValidSummaries()
      ensures r.Pass? <==> AllSummarize(regions, currentPrice, cumulPrice, mktLimits, elecNemSummary)
      ensures r.Pass? ==> SummarizedAs(old(forecastSummaries), forecastSummaries, Targets(currentPrice, regions),
                                       currentPrice, cumulPrice, mktLimits, elecNemSummary)
      ensures r.Fail? ==> exists k :: (k in currentPrice && k in regions &&
        SummarizeRegion(k, currentPrice[k], cumulPrice, mktLimits, elecNemSummary) == Err(r.error))
      ensures r.Fail? ==> Partial(old(forecastSummaries), forecastSummaries, regions,
                                  currentPrice, cumulPrice, mktLimits, elecNemSummary)
    {
      r, forecastSummaries := SummaryLoop(regions, currentPrice, cumulPrice, mktLimits, elecNemSummary, forecastSummaries);
    }

    /** Lines 145-184 left the instance so: the in-window "actual" records of
        the requested regions were gathered onto `current0`, the result is not
        empty, every requested region summarised, and the summaries were
        stored over `summaries0`. */
    ghost predicate WindowSummarized(regions: seq<string>, w: Window, current0: map<string, seq<CumulRecord>>,
                                     summaries0: map<string, Option<RegionSummary>>)
      reads this
    {
      && Actual in cumulPrice
      && currentPrice == Gathered(current0, cumulPrice[Actual], regions, w)
      && currentPrice != map[]
      && AllSummarize(regions, currentPrice, cumulPrice, mktLimits, elecNemSummary)
      && SummarizedAs(summaries0, forecastSummaries, Targets(currentPrice, regions),
                      currentPrice, cumulPrice, mktLimits, elecNemSummary)
    }

    /** The state a `_get_current_30min_price` call that raised nothing
        leaves, from the state before it. */
    ghost predicate SettledWindow(regions: seq<string>, w: Window, cumulReply: Reply<seq<CumulEntry>>,
                                  cumul0: Nested<PeriodType, CumulRecord>, current0: map<string, seq<CumulRecord>>,
                                  summaries0: map<string, Option<RegionSummary>>)
      reads this
    {
      && Ingests(cumulReply)
      && cumulPrice == Ingested(cumul0, cumulReply)
      && WindowSummarized(regions, w, current0, summaries0)
    }

    /** The fields lines 141-144 leave, failure point by failure point: the
        cumulative records of an accepted reply stay appended (up to an
        entry that raised); when that fetch raised nothing else changes;
        otherwise the limits are stored and cached as lines 142-143 say,
        and the region summaries are stored only when those passed. */
    ghost predicate FetchedState(cached0: bool, cumul0: Nested<PeriodType, CumulRecord>, limits0: map<string, real>,
                                 nem0: map<string, NemSummary>, cumulReply: Reply<seq<CumulEntry>>,
                                 capReply: Reply<seq<LimitEntry>>, nemReply: Reply<seq<NemSummary>>)
      reads this`cumulPrice, this`mktCapCached, this`mktLimits, this`elecNemSummary
    {
      && cumulPrice == CumulAfter(cumul0, cumulReply)
      && (CumulResult(cumulReply).Fail? ==>
            mktCapCached == cached0 && mktLimits == limits0 && elecNemSummary == nem0)
      && (CumulResult(cumulReply).Pass? ==>
            && mktCapCached == (cached0 || ApiResponse(capReply).Ok?)
            && mktLimits == LimitsStored(cached0, limits0, capReply)
            && elecNemSummary == (if LimitsStep(cached0, capReply).Fail? then nem0 else SummariesStored(nem0, nemReply)))
    }

    /** How the summary loop of lines 154-184 ends on the instance: it passes
        exactly when every requested region with records summarises, and
        then each summary is stored over `summaries0`; otherwise the
        exception is one of those regions' and the dict holds only the
        entries the loop may have left. */
    ghost predicate SummaryOutcome(regions: seq<string>, summaries0: map<string, Option<RegionSummary>>, r: Outcome)
      reads this`cumulPrice, this`currentPrice, this`forecastSummaries, this`mktLimits, this`elecNemSummary
    {
      && (r.Pass? <==> AllSummarize(regions, currentPrice, cumulPrice, mktLimits, elecNemSummary))
      && (r.Pass? ==> SummarizedAs(summaries0, forecastSummaries, Targets(currentPrice, regions),
                                   currentPrice, cumulPrice, mktLimits, elecNemSummary))
      && (r.Fail? ==> Partial(summaries0, forecastSummaries, regions, currentPrice, cumulPrice, mktLimits, elecNemSummary))
      && (r.Fail? ==> exists k :: (k in currentPrice && k in regions &&
            SummarizeRegion(k, currentPrice[k], cumulPrice, mktLimits, elecNemSummary) == Err(r.error)))
    }

    /** How lines 145-184 end, from `current0` and `summaries0`: a missing
        "actual" key raises at once; otherwise the in-window records stay
        gathered, an empty `current_price` raises leaving the summaries
        alone, and else the summary loop ends as SummaryOutcome says. */
    ghost predicate WindowComputed(regions: seq<string>, w: Window, current0: map<string, seq<CumulRecord>>,
                                   summaries0: map<string, Option<RegionSummary>>, r: Outcome)
      reads this`cumulPrice, this`currentPrice, this`forecastSummaries, this`mktLimits, this`elecNemSummary
    {
      if Actual !in cumulPrice then
        r == Fail(KeyError("actual")) && currentPrice == current0 && forecastSummaries == summaries0
      else
        && currentPrice == Gathered(current0, cumulPrice[Actual], regions, w)
        && if currentPrice == map[] then r == Fail(KeyError("current_price")) && forecastSummaries == summaries0
           else SummaryOutcome(regions, summaries0, r)
    }

    /** A whole `_get_current_30min_price` call at the instant `now`, from the
        fields before it: the requests and the fetched fields as
        FetchResult and FetchedState say; a fetch that raised ends the call
        with its exception and leaves the results alone; otherwise lines
        145-184 end as WindowComputed says. */
    ghost predicate WindowCall(regions: seq<string>, now: int, cumulReply: Reply<seq<CumulEntry>>,
                               capReply: Reply<seq<LimitEntry>>, nemReply: Reply<seq<NemSummary>>,
                               cached0: bool, cumul0: Nested<PeriodType, CumulRecord>, limits0: map<string, real>,
                               nem0: map<string, NemSummary>, current0: map<string, seq<CumulRecord>>,
                               summaries0: map<string, Option<RegionSummary>>, r: Outcome, fetched: seq<Endpoint>)
      reads this
    {
      var f := FetchResult(cached0, cumulReply, capReply, nemReply);
      && fetched == f.1
      && FetchedState(cached0, cumul0, limits0, nem0, cumulReply, capReply, nemReply)
      && (f.0.Fail? ==> r == f.0 && currentPrice == current0 && forecastSummaries == summaries0)
      && (f.0.Pass? ==> WindowComputed(regions, WindowClock.Current30MinWindow(now), current0, summaries0, r))
    }

    /** A call that raised nothing made every request of Plan and left the
        settled window. */
    lemma WindowCallPass(regions: seq<string>, now: int, cumulReply: Reply<seq<CumulEntry>>,
                         capReply: Reply<seq<LimitEntry>>, nemReply: Reply<seq<NemSummary>>,
                         cached0: bool, cumul0: Nested<PeriodType, CumulRecord>, limits0: map<string, real>,
                         nem0: map<string, NemSummary>, current0: map<string, seq<CumulRecord>>,
                         summaries0: map<string, Option<RegionSummary>>, r: Outcome, fetched: seq<Endpoint>)
      requires WindowCall(regions, now, cumulReply, capReply, nemReply, cached0, cumul0, limits0, nem0,
                          current0, summaries0, r, fetched)
      requires r.Pass?
      ensures fetched == Plan(cached0)
      ensures SettledWindow(regions, WindowClock.Current30MinWindow(now), cumulReply, cumul0, current0, summaries0)
    {
      FetchStopsAtFirstError(cached0, cumulReply, capReply, nemReply);
    }

    /** What a call leaves behind even when it raises: an accepted
        cumulative-price reply stays appended, and once the fetches passed and
        "actual" is present the in-window records stay appended to
        `current_price`, so the next call builds on both. */
    lemma WindowCallKeepsPartialEffects(regions: seq<string>, now: int, cumulReply: Reply<seq<CumulEntry>>,
                                        capReply: Reply<seq<LimitEntry>>, nemReply: Reply<seq<NemSummary>>,
                                        cached0: bool, cumul0: Nested<PeriodType, CumulRecord>,
                                        limits0: map<string, real>, nem0: map<string, NemSummary>,
                                        current0: map<string, seq<CumulRecord>>,
                                        summaries0: map<string, Option<RegionSummary>>, r: Outcome,
                                        fetched: seq<Endpoint>)
      requires WindowCall(regions, now, cumulReply, capReply, nemReply, cached0, cumul0, limits0, nem0,
                          current0, summaries0, r, fetched)
      ensures ApiResponse(cumulReply).Ok? ==> cumulPrice == Ingested(cumul0, cumulReply)
      ensures FetchResult(cached0, cumulReply, capReply, nemReply).0.Pass? && Actual in cumulPrice ==>
        currentPrice == Gathered(current0, cumulPrice[Actual], regions, WindowClock.Current30MinWindow(now))
    {
    }

    /** Lines 141-144: fetch the cumulative prices, the market limits unless
        they are cached, and the region summaries, stopping at the first
        exception. */
    method FetchWindowInputs(cumulReply: Reply<seq<CumulEntry>>, capReply: Reply<seq<LimitEntry>>,
                             nemReply: Reply<seq<NemSummary>>)
      returns (r: Outcome, fetched: seq<Endpoint>)
      requires ValidCumul() && ValidLimits()
      modifies this`cumulPrice, this`mktLimits, this`mktCapCached, this`elecNemSummary
      ensures ValidCumul() && ValidLimits()
      ensures (r, fetched) == FetchResult(old(mktCapCached), cumulReply, capReply, nemReply)
      ensures FetchedState(old(mktCapCached), old(cumulPrice), old(mktLimits), old(elecNemSummary),
                           cumulReply, capReply, nemReply)
    {
      r := GetCurrentCumulativePrice(cumulReply);
      if r.Fail? {
        return r, [CumulativePrice];
      }
      r, fetched := FetchLimitsAndSummaries(capReply, nemReply);
    }

    /** Lines 142-144, once the cumulative prices were fetched: the market
        limits unless cached, then the region summaries unless that raised. */
    method FetchLimitsAndSummaries(capReply: Reply<seq<LimitEntry>>, nemReply: Reply<seq<NemSummary>>)
      returns (r: Outcome, fetched: seq<Endpoint>)
      requires ValidLimits()
      modifies this`mktLimits, this`mktCapCached, this`elecNemSummary
      ensures ValidLimits()
      ensures LimitsStep(old(mktCapCached), capReply).Fail? ==>
        r == LimitsStep(old(mktCapCached), capReply) && fetched == [CumulativePrice, MarketPriceLimits]
        && elecNemSummary == old(elecNemSummary)
      ensures LimitsStep(old(mktCapCached), capReply).Pass? ==>
        r == ReplyResult(nemReply) && fetched == Plan(old(mktCapCached))
        && elecNemSummary == SummariesStored(old(elecNemSummary), nemReply)
      ensures mktCapCached == (old(mktCapCached) || ApiResponse(capReply).Ok?)
      ensures mktLimits == LimitsStored(old(mktCapCached), old(mktLimits), capReply)
    {
      fetched := [CumulativePrice];
      if !mktCapCached {
        fetched := fetched + [MarketPriceLimits];
      }
      r := FetchLimitsUnlessCached(capReply);
      if r.Fail? {
        return;
      }
      fetched := fetched + [ElecNemSummary];
      var nem := GetMktLimit(nemReply);
      r := if nem.Err? then Fail(nem.error) else Pass;
    }

    /** Lines 142-143: request the market limits unless they are cached, and
        mark them cached once an accepted reply is stored. */
    method FetchLimitsUnlessCached(capReply: Reply<seq<LimitEntry>>) returns (r: Outcome)
      requires ValidLimits()
      modifies this`mktLimits, this`mktCapCached
      ensures ValidLimits()
      ensures r == LimitsStep(old(mktCapCached), capReply)
      ensures mktCapCached == (old(mktCapCached) || ApiResponse(capReply).Ok?)
      ensures mktLimits == LimitsStored(old(mktCapCached), old(mktLimits), capReply)
    {
      r := Pass;
      if !mktCapCached {
        var cap := GetMktLimitCap(capReply);
        if cap.Err? {
          return Fail(cap.error);
        }
        mktCapCached := true;
      }
    }

    /** Lines 145-184: the in-window records are gathered and the requested
        regions summarised; a missing "actual" key or an empty
        `current_price` raises its KeyError. */
    method ComputeWindow(regions: seq<string>, w: Window) returns (r: Outcome)
      requires ValidCumul() && ValidCurrent() && ValidSummaries()
      modifies this`currentPrice, this`forecastSummaries
      ensures ValidCurrent() && ValidSummaries()
      ensures WindowComputed(regions, w, old(currentPrice), old(forecastSummaries), r)
    {
      if Actual !in cumulPrice {
        return Fail(KeyError("actual"));
      }
      FilterCurrentWindow(regions, w);
      if currentPrice == map[] {
        return Fail(KeyError("current_price"));
      }
      r := SummarizeRegions(regions);
    }

    /** `_get_current_30min_price` at the instant `now`: fetch the cumulative
        prices, the market limits unless cached, and the region summaries;
        then filter the current window and summarise the requested regions. */
    method Get30MinPrice(regions: seq<string>, now: int, cumulReply: Reply<seq<CumulEntry>>,
                         capReply: Reply<seq<LimitEntry>>, nemReply: Reply<seq<NemSummary>>)
      returns (r: Outcome, fetched: seq<Endpoint>)
      requires ValidWindow()
      modifies this`cumulPrice, this`mktLimits, this`mktCapCached, this`elecNemSummary
      modifies this`currentPrice, this`forecastSummaries
      ensures ValidWindow()
      ensures WindowCall(regions, now, cumulReply, capReply, nemReply, old(mktCapCached), old(cumulPrice),
                         old(mktLimits), old(elecNemSummary), old(currentPrice), old(forecastSummaries), r, fetched)
    {
      var w := WindowClock.Current30MinWindow(now);
      r, fetched := FetchWindowInputs(cumulReply, capReply, nemReply);
      if r.Pass? {
        r := ComputeWindow(regions, w);
      }
    }

    /** `get_aemo_data`: with no state nothing happens; otherwise every code
        is resolved before anything is fetched, and an unknown code raises
        its KeyError with the instance untouched. */
    method GetAemoData(state: Option<seq<string>>, now: int, cumulReply: Reply<seq<CumulEntry>>,
                       capReply: Reply<seq<LimitEntry>>, nemReply: Reply<seq<NemSummary>>)
      returns (r: Outcome, fetched: seq<Endpoint>)
      requires ValidWindow()
      modifies this`cumulPrice, this`mktLimits, this`mktCapCached, this`elecNemSummary
      modifies this`currentPrice, this`forecastSummaries
      ensures ValidWindow()
      ensures state.None? || ResolveRegions(state.value).Err? ==>
        && fetched == []
        && cumulPrice == old(cumulPrice) && mktLimits == old(mktLimits) && mktCapCached == old(mktCapCached)
        && elecNemSummary == old(elecNemSummary) && currentPrice == old(currentPrice)
        && forecastSummaries == old(forecastSummaries)
      ensures state.None? ==> r == Pass
      ensures state.Some? && ResolveRegions(state.value).Err? ==> r == Fail(ResolveRegions(state.value).error)
      ensures state.Some? && ResolveRegions(state.value).Ok? ==>
        WindowCall(ResolveRegions(state.value).value, now, cumulReply, capReply, nemReply, old(mktCapCached),
                   old(cumulPrice), old(mktLimits), old(elecNemSummary), old(currentPrice), old(forecastSummaries),
                   r, fetched)
    {
      if state.None? {
        return Pass, [];
      }
      var resolved := ResolveCodes(state.value);
      if resolved.Err? {
        return Fail(resolved.error), [];
      }
      r, fetched := Get30MinPrice(resolved.value, now, cumulReply, capReply, nemReply);
    }
  }
}
