/** What each record loop of `AemoNemData` makes of a feed, as functions of
    the records that arrived so far. Every function unfolds on the last
    record, in the order the loops walk the feeds. */
module Feeds {
  import opened Wrappers
  import opened Errors
  import opened Time
  import opened Records
  import opened Dicts
  import Constants
  import Aggregation

  // ----- the 5MIN feed (get_data, _get_data_full) -----

  /** The ACTUAL entries of one region, with their 5-minute period start. */
  function ActualsOf(region: string, feed: seq<FiveMinEntry>): (r: seq<PriceRecord>)
    ensures |r| <= |feed|
    ensures forall x :: x in r ==>
      exists e :: (e in feed && e.regionId == region && e.periodType == "ACTUAL" && x == Normalize(e, Lead(Actual)))
    decreases |feed|
  {
    if feed == [] then []
    else
      var e := feed[|feed| - 1];
      ActualsOf(region, feed[..|feed| - 1]) +
        (if e.regionId == region && e.periodType == "ACTUAL" then [Normalize(e, Lead(Actual))] else [])
  }

  /** The FORECAST entries of one region, with their 30-minute period start. */
  function ForecastsOf(region: string, feed: seq<FiveMinEntry>): (r: seq<PriceRecord>)
    ensures |r| <= |feed|
    ensures forall x :: x in r ==>
      exists e :: (e in feed && e.regionId == region && e.periodType == "FORECAST" && x == Normalize(e, Lead(Forecast)))
    decreases |feed|
  {
    if feed == [] then []
    else
      var e := feed[|feed| - 1];
      ForecastsOf(region, feed[..|feed| - 1]) +
        (if e.regionId == region && e.periodType == "FORECAST" then [Normalize(e, Lead(Forecast))] else [])
  }

  /** The record the `_first_forecast` flag lets through: the region's first
      FORECAST entry, if any. */
  function FirstForecast(region: string, feed: seq<FiveMinEntry>): (r: Option<PriceRecord>)
    ensures r.Some? <==> ForecastsOf(region, feed) != []
    decreases |feed|
  {
    if feed == [] then None
    else
      var e := feed[|feed| - 1];
      var before := FirstForecast(region, feed[..|feed| - 1]);
      if before.Some? then before
      else if e.regionId == region && e.periodType == "FORECAST" then Some(Normalize(e, Lead(Forecast)))
      else None
  }

  /** Every ACTUAL entry of the region is kept. */
  lemma {:induction false} ActualsOfKeepsAll(region: string, feed: seq<FiveMinEntry>)
    ensures forall e :: e in feed && e.regionId == region && e.periodType == "ACTUAL" ==>
      Normalize(e, Lead(Actual)) in ActualsOf(region, feed)
    decreases |feed|
  {
    if feed != [] {
      ActualsOfKeepsAll(region, feed[..|feed| - 1]);
      assert forall e :: e in feed ==> e in feed[..|feed| - 1] || e == feed[|feed| - 1];
    }
  }

  /** Every FORECAST entry of the region is kept. */
  lemma {:induction false} ForecastsOfKeepsAll(region: string, feed: seq<FiveMinEntry>)
    ensures forall e :: e in feed && e.regionId == region && e.periodType == "FORECAST" ==>
      Normalize(e, Lead(Forecast)) in ForecastsOf(region, feed)
    decreases |feed|
  {
    if feed != [] {
      ForecastsOfKeepsAll(region, feed[..|feed| - 1]);
      assert forall e :: e in feed ==> e in feed[..|feed| - 1] || e == feed[|feed| - 1];
    }
  }

  /** The ACTUAL records of a feed read in two parts are those of the first
      part followed by those of the second: the feed order is kept. */
  lemma {:induction false} ActualsOfConcat(region: string, a: seq<FiveMinEntry>, b: seq<FiveMinEntry>)
    ensures ActualsOf(region, a + b) == ActualsOf(region, a) + ActualsOf(region, b)
    decreases |b|
  {
    if b != [] {
      var b' := b[..|b| - 1];
      var e := b[|b| - 1];
      assert (a + b)[..|a + b| - 1] == a + b';
      assert (a + b)[|a + b| - 1] == e;
      ActualsOfConcat(region, a, b');
    } else {
      assert a + b == a;
    }
  }

  /** The FORECAST records keep the feed order in the same way. */
  lemma {:induction false} ForecastsOfConcat(region: string, a: seq<FiveMinEntry>, b: seq<FiveMinEntry>)
    ensures ForecastsOf(region, a + b) == ForecastsOf(region, a) + ForecastsOf(region, b)
    decreases |b|
  {
    if b != [] {
      var b' := b[..|b| - 1];
      var e := b[|b| - 1];
      assert (a + b)[..|a + b| - 1] == a + b';
      assert (a + b)[|a + b| - 1] == e;
      ForecastsOfConcat(region, a, b');
    } else {
      assert a + b == a;
    }
  }

  /** One more entry through the `get_data` loop. */
  lemma SelectStep(region: string, feed: seq<FiveMinEntry>, i: nat, a0: seq<PriceRecord>, f0: seq<PriceRecord>)
    requires i < |feed|
    ensures var e := feed[i];
      a0 + ActualsOf(region, feed[..i + 1]) == (a0 + ActualsOf(region, feed[..i])) +
        (if e.regionId == region && e.periodType == "ACTUAL" then [Normalize(e, FiveMinutes)] else [])
    ensures var e := feed[i];
      f0 + ForecastsOf(region, feed[..i + 1]) == (f0 + ForecastsOf(region, feed[..i])) +
        (if e.regionId == region && e.periodType == "FORECAST" then [Normalize(e, ThirtyMinutes)] else [])
    ensures var e := feed[i];
      FirstForecast(region, feed[..i + 1]) ==
        if FirstForecast(region, feed[..i]).Some? then FirstForecast(region, feed[..i])
        else if e.regionId == region && e.periodType == "FORECAST" then Some(Normalize(e, ThirtyMinutes))
        else None
  {
    assert feed[..i + 1][..i] == feed[..i];
  }

  /** Every entry of the feed, whatever its type, with a 5-minute period start. */
  function FullRecords(feed: seq<FiveMinEntry>): (r: seq<PriceRecord>)
    ensures |r| == |feed|
    ensures forall i :: 0 <= i < |feed| ==> r[i] == Normalize(feed[i], FiveMinutes)
    ensures forall i :: 0 <= i < |feed| ==> (r[i].regionId, r[i].periodType) == (feed[i].regionId, feed[i].periodType)
    decreases |feed|
  {
    if feed == [] then [] else FullRecords(feed[..|feed| - 1]) + [Normalize(feed[|feed| - 1], FiveMinutes)]
  }

  /** A record addressed to `[PERIODTYPE][REGIONID]`. */
  function Tag(rs: seq<PriceRecord>): seq<Keyed<string, PriceRecord>>
    decreases |rs|
  {
    if rs == [] then []
    else
      var x := rs[|rs| - 1];
      Tag(rs[..|rs| - 1]) + [Keyed(x.periodType, x.regionId, x)]
  }

  lemma TagSnoc(rs: seq<PriceRecord>, x: PriceRecord)
    ensures Tag(rs + [x]) == Tag(rs) + [Keyed(x.periodType, x.regionId, x)]
  {
    assert (rs + [x])[..|rs|] == rs;
  }

  /** One more entry through the `_get_data_full` loop. */
  lemma FullStep(feed: seq<FiveMinEntry>, i: nat, a0: seq<PriceRecord>, f0: Nested<string, PriceRecord>)
    requires i < |feed|
    ensures var x := Normalize(feed[i], FiveMinutes);
      a0 + FullRecords(feed[..i + 1]) == (a0 + FullRecords(feed[..i])) + [x]
    ensures var x := Normalize(feed[i], FiveMinutes);
      AppendAll(f0, Tag(FullRecords(feed[..i + 1]))) ==
        Append(AppendAll(f0, Tag(FullRecords(feed[..i]))), Keyed(x.periodType, x.regionId, x))
  {
    var x := Normalize(feed[i], FiveMinutes);
    assert feed[..i + 1][..i] == feed[..i];
    assert FullRecords(feed[..i + 1]) == FullRecords(feed[..i]) + [x];
    TagSnoc(FullRecords(feed[..i]), x);
    AppendAllSnoc(f0, Tag(FullRecords(feed[..i])), Keyed(x.periodType, x.regionId, x));
  }

  /** The kept records of get_data carry the region asked for, their type,
      and the period start of their type. */
  lemma {:induction false} SelectedRecordsNormalised(region: string, feed: seq<FiveMinEntry>)
    ensures forall x :: x in ActualsOf(region, feed) ==>
      x.regionId == region && x.periodType == "ACTUAL" && x.periodStartDate == x.settlementDate - FiveMinutes
    ensures forall x :: x in ForecastsOf(region, feed) ==>
      x.regionId == region && x.periodType == "FORECAST" && x.periodStartDate == x.settlementDate - ThirtyMinutes
    decreases |feed|
  {
    if feed != [] {
      SelectedRecordsNormalised(region, feed[..|feed| - 1]);
    }
  }

  /** The flag keeps the first of the forecasts, and only when there is one. */
  lemma {:induction false} FirstForecastIsFirst(region: string, feed: seq<FiveMinEntry>)
    ensures FirstForecast(region, feed) == if ForecastsOf(region, feed) == [] then None else Some(ForecastsOf(region, feed)[0])
    decreases |feed|
  {
    if feed != [] {
      FirstForecastIsFirst(region, feed[..|feed| - 1]);
    }
  }

  /** `_get_data_full` keeps every entry, and gives each, forecasts included,
      a period start five minutes before its settlement. */
  lemma {:induction false} FullFeedLeadIsFiveMinutes(feed: seq<FiveMinEntry>)
    ensures |FullRecords(feed)| == |feed|
    ensures forall i :: 0 <= i < |feed| ==>
      FullRecords(feed)[i].settlementDate == feed[i].settlementDate &&
      FullRecords(feed)[i].periodStartDate == feed[i].settlementDate - FiveMinutes
    decreases |feed|
  {
    if feed != [] {
      FullFeedLeadIsFiveMinutes(feed[..|feed| - 1]);
    }
  }

  /** Each tagged record is filed under its own type and region. */
  lemma {:induction false} TagFilesUnderOwnKeys(rs: seq<PriceRecord>)
    ensures |Tag(rs)| == |rs|
    ensures forall i :: 0 <= i < |rs| ==> Tag(rs)[i] == Keyed(rs[i].periodType, rs[i].regionId, rs[i])
    decreases |rs|
  {
    if rs != [] {
      TagFilesUnderOwnKeys(rs[..|rs| - 1]);
    }
  }

  // ----- the cumulative-price feed (_get_current_cumulative_price) -----

  /** The cleaned records up to the first entry whose A is neither 1 nor 0
      (the loop raises there). */
  function CleanedPrefix(feed: seq<CumulEntry>): (cs: seq<CumulRecord>)
    ensures |cs| <= |feed|
    ensures forall i :: 0 <= i < |cs| ==> Clean(feed[i]) == Some(cs[i])
    ensures |cs| < |feed| ==> Clean(feed[|cs|]).None?
    decreases |feed|
  {
    if feed == [] then []
    else match Clean(feed[0])
      case None => []
      case Some(c) => [c] + CleanedPrefix(feed[1..])
  }

  /** A cleaned record addressed to `[PERIODTYPE][REGIONID]`. */
  function Filed(cs: seq<CumulRecord>): seq<Keyed<PeriodType, CumulRecord>>
    decreases |cs|
  {
    if cs == [] then []
    else
      var c := cs[|cs| - 1];
      Filed(cs[..|cs| - 1]) + [Keyed(c.periodType, c.regionId, c)]
  }

  lemma FiledSnoc(cs: seq<CumulRecord>, c: CumulRecord)
    ensures Filed(cs + [c]) == Filed(cs) + [Keyed(c.periodType, c.regionId, c)]
  {
    assert (cs + [c])[..|cs|] == cs;
  }

  /** One more cleaned record through the `_get_current_cumulative_price` loop. */
  lemma CumulStep(cs: seq<CumulRecord>, i: nat, m0: Nested<PeriodType, CumulRecord>)
    requires i < |cs|
    ensures AppendAll(m0, Filed(cs[..i + 1])) ==
      Append(AppendAll(m0, Filed(cs[..i])), Keyed(cs[i].periodType, cs[i].regionId, cs[i]))
  {
    assert cs[..i + 1] == cs[..i] + [cs[i]];
    FiledSnoc(cs[..i], cs[i]);
    AppendAllSnoc(m0, Filed(cs[..i]), Keyed(cs[i].periodType, cs[i].regionId, cs[i]));
  }

  /** What a stored cleaned record looks like: filed under its own type and
      region, with the period start of its type. */
  ghost predicate CumulShape(kind: PeriodType, region: string, c: CumulRecord)
  {
    c.periodType == kind && c.regionId == region && WellFormed(c)
  }

  /** Each list of the cumulative-price dict grows by the cleaned entries of
      its type and region, in arrival order, and only by them. */
  lemma {:induction false} FiledBucket(m: Nested<PeriodType, CumulRecord>, cs: seq<CumulRecord>,
                                       kind: PeriodType, region: string)
    ensures Bucket(AppendAll(m, Filed(cs)), kind, region) ==
      Bucket(m, kind, region) + Matching(Filed(cs), kind, region)
    ensures forall c :: c in Matching(Filed(cs), kind, region) ==> c in cs && c.periodType == kind && c.regionId == region
    decreases |cs|
  {
    BucketAfterAppendAll(m, Filed(cs), kind, region);
    if cs != [] {
      FiledBucket(m, cs[..|cs| - 1], kind, region);
      assert Filed(cs)[..|Filed(cs)| - 1] == Filed(cs[..|cs| - 1]);
    }
  }

  /** `max(..., key=SETTLEMENTDATE)` for every region of the actual records. */
  function LatestActuals(actuals: map<string, seq<CumulRecord>>): (latest: map<string, CumulRecord>)
    requires forall r :: r in actuals ==> actuals[r] != []
    ensures latest.Keys == actuals.Keys
    ensures forall r :: r in latest ==> exists k :: (Aggregation.IsLatest(actuals[r], k) && latest[r] == actuals[r][k])
  {
    assert forall r :: r in actuals ==> Aggregation.IsLatest(actuals[r], Aggregation.LatestIndex(actuals[r])) by {
      forall r | r in actuals ensures Aggregation.IsLatest(actuals[r], Aggregation.LatestIndex(actuals[r])) {
        Aggregation.LatestIndexIsLatest(actuals[r]);
      }
    }
    map r | r in actuals :: actuals[r][Aggregation.LatestIndex(actuals[r])]
  }

  /** Every stored actual record has the shape of its region. */
  lemma ActualShapes(m: Nested<PeriodType, CumulRecord>)
    requires AllItems(m, CumulShape) && Actual in m
    ensures forall r, i :: r in m[Actual] && 0 <= i < |m[Actual][r]| ==> CumulShape(Actual, r, m[Actual][r][i])
  {
  }

  /** LatestActuals, on the regions of ks only. */
  ghost function LatestWithin(actuals: map<string, seq<CumulRecord>>, ks: set<string>): map<string, CumulRecord>
    requires forall r :: r in actuals ==> actuals[r] != []
  {
    map r | r in ks && r in actuals :: actuals[r][Aggregation.LatestIndex(actuals[r])]
  }

  /** Adding one more region. */
  lemma LatestWithinAdd(actuals: map<string, seq<CumulRecord>>, ks: set<string>, region: string)
    requires forall r :: r in actuals ==> actuals[r] != []
    requires region in actuals
    ensures LatestWithin(actuals, ks + {region}) ==
      LatestWithin(actuals, ks)[region := actuals[region][Aggregation.LatestIndex(actuals[region])]]
  {
  }

  /** On every region it is LatestActuals. */
  lemma LatestWithinAll(actuals: map<string, seq<CumulRecord>>)
    requires forall r :: r in actuals ==> actuals[r] != []
    ensures LatestWithin(actuals, actuals.Keys) == LatestActuals(actuals)
  {
  }

  /** The latest record of a region is one of its records, so it has their shape. */
  lemma LatestActualsShape(m: Nested<PeriodType, CumulRecord>)
    requires NonEmpty(m) && AllItems(m, CumulShape) && Actual in m
    ensures forall r :: r in m[Actual] ==> m[Actual][r] != []
    ensures forall r :: r in LatestActuals(m[Actual]) ==> CumulShape(Actual, r, LatestActuals(m[Actual])[r])
  {
    var actuals := m[Actual];
    forall r | r in LatestActuals(actuals) ensures CumulShape(Actual, r, LatestActuals(actuals)[r]) {
      var k :| Aggregation.IsLatest(actuals[r], k) && LatestActuals(actuals)[r] == actuals[r][k];
      assert CumulShape(Actual, r, m[Actual][r][k]);
    }
  }

  // ----- the market price limits feed (_get_mkt_limit_cap) -----

  /** The three limit keys the service keeps. */
  const LimitKeys: set<string> :=
    {Constants.AdministeredPriceCap, Constants.CumulativePriceThreshold, Constants.MarketPriceCap}

  /** The entries with one of the three keys, as (key, value) pairs. */
  function Named(entries: seq<LimitEntry>): seq<(string, real)>
    decreases |entries|
  {
    if entries == [] then []
    else
      var e := entries[|entries| - 1];
      Named(entries[..|entries| - 1]) + (if e.key in LimitKeys then [(e.key, e.value)] else [])
  }

  /** One more entry through the `_get_mkt_limit_cap` loop. */
  lemma LimitStep(entries: seq<LimitEntry>, i: nat, m0: map<string, real>)
    requires i < |entries|
    ensures StoreAll(m0, Named(entries[..i + 1])) ==
      if entries[i].key in LimitKeys then StoreAll(m0, Named(entries[..i]))[entries[i].key := entries[i].value]
      else StoreAll(m0, Named(entries[..i]))
  {
    var e := entries[i];
    assert entries[..i + 1][..i] == entries[..i];
    if e.key in LimitKeys {
      StoreAllSnoc(m0, Named(entries[..i]), (e.key, e.value));
    } else {
      assert Named(entries[..i + 1]) == Named(entries[..i]) + [];
      assert Named(entries[..i]) + [] == Named(entries[..i]);
    }
  }

  /** The VALUE of the last entry with the given KEY. */
  function LastValue(entries: seq<LimitEntry>, key: string): Option<real>
    decreases |entries|
  {
    if entries == [] then None
    else if entries[|entries| - 1].key == key then Some(entries[|entries| - 1].value)
    else LastValue(entries[..|entries| - 1], key)
  }

  lemma {:induction false} NamedLastFor(entries: seq<LimitEntry>, key: string)
    ensures LastFor(Named(entries), key) == if key in LimitKeys then LastValue(entries, key) else None
    decreases |entries|
  {
    if entries != [] {
      var init := entries[..|entries| - 1];
      NamedLastFor(init, key);
      var e := entries[|entries| - 1];
      if e.key in LimitKeys {
        assert (Named(init) + [(e.key, e.value)])[..|Named(init)|] == Named(init);
      } else {
        assert Named(entries) == Named(init);
      }
    }
  }

  /** After the extraction loop a key is stored exactly when it is one of the
      three and some entry carries it (or it was stored before); it holds the
      VALUE of the last such entry. */
  lemma LimitsAfterExtraction(m: map<string, real>, entries: seq<LimitEntry>, key: string)
    ensures key in StoreAll(m, Named(entries)) <==> key in m || (key in LimitKeys && LastValue(entries, key).Some?)
    ensures key in StoreAll(m, Named(entries)) ==>
      StoreAll(m, Named(entries))[key] ==
        if key in LimitKeys && LastValue(entries, key).Some? then LastValue(entries, key).value else m[key]
  {
    StoreAllKeepsLast(m, Named(entries), key);
    NamedLastFor(entries, key);
  }

  // ----- the region summary feed (_get_mkt_limit) -----

  /** Each summary entry keyed by its REGIONID. */
  function ByRegion(feed: seq<NemSummary>): seq<(string, NemSummary)>
    decreases |feed|
  {
    if feed == [] then [] else ByRegion(feed[..|feed| - 1]) + [(feed[|feed| - 1].regionId, feed[|feed| - 1])]
  }

  /** One more entry through the `_get_mkt_limit` loop. */
  lemma NemStep(feed: seq<NemSummary>, i: nat, m0: map<string, NemSummary>)
    requires i < |feed|
    ensures StoreAll(m0, ByRegion(feed[..i + 1])) == StoreAll(m0, ByRegion(feed[..i]))[feed[i].regionId := feed[i]]
  {
    assert feed[..i + 1][..i] == feed[..i];
    StoreAllSnoc(m0, ByRegion(feed[..i]), (feed[i].regionId, feed[i]));
  }

  // ----- region codes (get_aemo_data) -----

  /** `[REGIONS[code.lower()] for code in state]`, stopping at the first
      unknown code. */
  function ResolveRegions(codes: seq<string>): (r: Result<seq<string>>)
    ensures r.Ok? ==> |r.value| == |codes| && forall x :: x in r.value ==> x in Constants.Regions.Values
    ensures r.Err? ==> r.error.KeyError?
    decreases |codes|
  {
    if codes == [] then Ok([])
    else
      match ResolveRegions(codes[..|codes| - 1])
      case Err(e) => Err(e)
      case Ok(rs) =>
        match Constants.LookupRegion(codes[|codes| - 1])
        case Err(e) => Err(e)
        case Ok(region) => Ok(rs + [region])
  }

  /** Every code resolves, in order, exactly when all are known; otherwise
      the KeyError names the first unknown code, lower-cased. */
  lemma ResolveRegionsSpec(codes: seq<string>)
    ensures ResolveRegions(codes).Ok? <==> forall i :: 0 <= i < |codes| ==> Constants.Lower(codes[i]) in Constants.Regions
    ensures ResolveRegions(codes).Ok? ==> |ResolveRegions(codes).value| == |codes|
    ensures ResolveRegions(codes).Ok? ==>
      forall i :: 0 <= i < |codes| ==> ResolveRegions(codes).value[i] == Constants.Regions[Constants.Lower(codes[i])]
    ensures ResolveRegions(codes).Err? ==> exists j :: (FirstUnknown(codes, j) &&
      ResolveRegions(codes).error == KeyError(Constants.Lower(codes[j])))
  {
    ResolveRegionsOkIff(codes);
    ResolveRegionsValues(codes);
    ResolveRegionsFirstUnknown(codes);
  }

  /** The codes resolve exactly when every lower-cased code is a key. */
  lemma {:induction false} ResolveRegionsOkIff(codes: seq<string>)
    ensures ResolveRegions(codes).Ok? <==> forall i :: 0 <= i < |codes| ==> Constants.Lower(codes[i]) in Constants.Regions
    decreases |codes|
  {
    if codes != [] {
      var init := codes[..|codes| - 1];
      ResolveRegionsOkIff(init);
      assert forall i :: 0 <= i < |init| ==> init[i] == codes[i];
    }
  }

  /** A resolved list holds, position by position, the region of each code. */
  lemma {:induction false} ResolveRegionsValues(codes: seq<string>)
    ensures ResolveRegions(codes).Ok? ==> forall i :: 0 <= i < |codes| ==>
      Constants.Lower(codes[i]) in Constants.Regions &&
      ResolveRegions(codes).value[i] == Constants.Regions[Constants.Lower(codes[i])]
    decreases |codes|
  {
    if codes != [] {
      var init := codes[..|codes| - 1];
      ResolveRegionsValues(init);
      assert forall i :: 0 <= i < |init| ==> init[i] == codes[i];
    }
  }

  /** A failure is the KeyError of the first unknown code. */
  lemma {:induction false} ResolveRegionsFirstUnknown(codes: seq<string>)
    ensures ResolveRegions(codes).Err? ==> exists j :: (FirstUnknown(codes, j) &&
      ResolveRegions(codes).error == KeyError(Constants.Lower(codes[j])))
    decreases |codes|
  {
    if codes != [] {
      var init := codes[..|codes| - 1];
      var last := codes[|codes| - 1];
      assert forall i :: 0 <= i < |init| ==> init[i] == codes[i];
      match ResolveRegions(init)
      case Err(e) => {
        ResolveRegionsFirstUnknown(init);
        var j :| FirstUnknown(init, j) && e == KeyError(Constants.Lower(init[j]));
        assert FirstUnknown(codes, j);
      }
      case Ok(rs) => {
        if Constants.Lower(last) !in Constants.Regions {
          ResolveRegionsOkIff(init);
          assert FirstUnknown(codes, |codes| - 1);
        }
      }
    }
  }

  /** Once a prefix of the codes fails, the whole list fails the same way. */
  lemma {:induction false} ResolveStaysFailed(codes: seq<string>, n: nat)
    requires n <= |codes|
    requires ResolveRegions(codes[..n]).Err?
    ensures ResolveRegions(codes) == ResolveRegions(codes[..n])
    decreases |codes| - n
  {
    if n == |codes| {
      assert codes[..n] == codes;
    } else {
      var init := codes[..|codes| - 1];
      assert init[..n] == codes[..n];
      ResolveStaysFailed(init, n);
    }
  }

  /** codes[j] is the first code with no region. */
  ghost predicate FirstUnknown(codes: seq<string>, j: int)
  {
    0 <= j < |codes| && Constants.Lower(codes[j]) !in Constants.Regions &&
    forall i :: 0 <= i < j ==> Constants.Lower(codes[i]) in Constants.Regions
  }
}
