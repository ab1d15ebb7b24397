/** The `current_price` dict of the results (lines 145-153 of
    src/aemonemdata/aemonem.py): for every requested region, the actual
    records whose period starts inside the current window, appended to what
    earlier calls left there. */
module CurrentPrice {
  import opened Time
  import opened Records
  import opened Dicts

  type PriceLists = map<string, seq<CumulRecord>>

  /** `start <= PERIODSTARTDATE < end`. */
  predicate Inside(c: CumulRecord, w: Window)
  {
    w.start <= c.periodStartDate < w.end
  }

  /** The records of s whose period starts inside w, in order. */
  function InWindow(s: seq<CumulRecord>, w: Window): (r: seq<CumulRecord>)
    ensures |r| <= |s|
    ensures forall c :: c in r ==> c in s
    decreases |s|
  {
    if s == [] then []
    else InWindow(s[..|s| - 1], w) + (if Inside(s[|s| - 1], w) then [s[|s| - 1]] else [])
  }

  /** Every kept record starts inside the window. */
  lemma {:induction false} InWindowInside(s: seq<CumulRecord>, w: Window)
    ensures forall i :: 0 <= i < |InWindow(s, w)| ==> Inside(InWindow(s, w)[i], w)
    decreases |s|
  {
    if s != [] {
      var init := s[..|s| - 1];
      InWindowInside(init, w);
      var r := InWindow(s, w);
      assert r == InWindow(init, w) + (if Inside(s[|s| - 1], w) then [s[|s| - 1]] else []);
      forall i | 0 <= i < |r| ensures Inside(r[i], w) {
        if i < |InWindow(init, w)| {
          assert r[i] == InWindow(init, w)[i];
        }
      }
    }
  }

  /** No in-window record is dropped. */
  lemma {:induction false} InWindowKeepsAllInside(s: seq<CumulRecord>, w: Window)
    ensures forall c :: c in s && Inside(c, w) ==> c in InWindow(s, w)
    decreases |s|
  {
    if s != [] {
      InWindowKeepsAllInside(s[..|s| - 1], w);
      assert forall c :: c in s ==> c in s[..|s| - 1] || c == s[|s| - 1];
    }
  }

  /** Filtering distributes over concatenation. */
  lemma {:induction false} InWindowConcat(a: seq<CumulRecord>, b: seq<CumulRecord>, w: Window)
    ensures InWindow(a + b, w) == InWindow(a, w) + InWindow(b, w)
    decreases |b|
  {
    if b != [] {
      var b' := b[..|b| - 1];
      var x := b[|b| - 1];
      var tail := if Inside(x, w) then [x] else [];
      assert (a + b)[..|a + b| - 1] == a + b';
      assert (a + b)[|a + b| - 1] == x;
      assert InWindow(a + b, w) == InWindow(a + b', w) + tail;
      InWindowConcat(a, b', w);
      assert InWindow(b, w) == InWindow(b', w) + tail;
      assert (InWindow(a, w) + InWindow(b', w)) + tail == InWindow(a, w) + (InWindow(b', w) + tail);
    } else {
      assert a + b == a;
    }
  }

  /** `d[k]`, with the empty list for a missing key. */
  function Get(m: PriceLists, k: string): seq<CumulRecord>
  {
    if k in m then m[k] else []
  }

  /** Appending xs to the list at k, creating it only when something is appended. */
  function Add(m: PriceLists, k: string, xs: seq<CumulRecord>): (m': PriceLists)
    ensures Get(m', k) == Get(m, k) + xs
    ensures forall j :: j != k ==> Get(m', j) == Get(m, j)
    ensures m'.Keys == if xs == [] then m.Keys else m.Keys + {k}
  {
    if xs == [] then m else m[k := Get(m, k) + xs]
  }

  /** Appending one more item to the list at k. */
  lemma AddSnoc(m: PriceLists, k: string, xs: seq<CumulRecord>, x: CumulRecord)
    ensures Add(m, k, xs + [x]) == Add(m, k, xs)[k := Get(Add(m, k, xs), k) + [x]]
  {
    var a := Add(m, k, xs + [x]);
    var b := Add(m, k, xs)[k := Get(Add(m, k, xs), k) + [x]];
    assert Get(a, k) == Get(m, k) + (xs + [x]) == (Get(m, k) + xs) + [x];
    SameLists(a, b);
  }

  /** What the filter loop appends for region k: its in-window actual
      records when it was requested, nothing otherwise. */
  function Picked(actual: PriceLists, regions: seq<string>, w: Window, k: string): seq<CumulRecord>
  {
    if k in regions then InWindow(Get(actual, k), w) else []
  }

  /** The `current_price` dict after the filter loop. */
  function Gathered(current: PriceLists, actual: PriceLists, regions: seq<string>, w: Window): (g: PriceLists)
    ensures forall k :: Get(g, k) == Get(current, k) + Picked(actual, regions, w, k)
    ensures forall k :: k in g <==> k in current || Picked(actual, regions, w, k) != []
  {
    var added := set k | k in actual && k in regions && InWindow(actual[k], w) != [];
    assert forall k :: k !in actual ==> Picked(actual, regions, w, k) == [];
    map k | k in current.Keys + added :: Get(current, k) + Picked(actual, regions, w, k)
  }

  /** Two price-list dicts with the same lists under every key are equal. */
  lemma SameLists(m: PriceLists, n: PriceLists)
    requires forall k :: Get(m, k) == Get(n, k)
    requires forall k :: k in m <==> k in n
    ensures m == n
  {
    forall k | k in m ensures m[k] == n[k] {
      assert Get(m, k) == Get(n, k);
    }
  }

  /** One more record through the inner filter loop. */
  lemma InWindowStep(s: seq<CumulRecord>, j: nat, w: Window)
    requires j < |s|
    ensures InWindow(s[..j + 1], w) == InWindow(s[..j], w) + (if Inside(s[j], w) then [s[j]] else [])
  {
    assert s[..j + 1][..j] == s[..j];
  }

  /** One more record through the inner filter loop, on the dict. */
  lemma FilterStep(base: PriceLists, region: string, s: seq<CumulRecord>, j: nat, w: Window)
    requires j < |s|
    ensures var before := Add(base, region, InWindow(s[..j], w));
      Add(base, region, InWindow(s[..j + 1], w)) ==
        if Inside(s[j], w) then before[region := Get(before, region) + [s[j]]] else before
  {
    InWindowStep(s, j, w);
    if Inside(s[j], w) {
      AddSnoc(base, region, InWindow(s[..j], w), s[j]);
    } else {
      assert InWindow(s[..j + 1], w) == InWindow(s[..j], w);
    }
  }

  /** Appending nothing leaves the dict as it was. */
  lemma AddNothing(m: PriceLists, k: string)
    ensures Add(m, k, []) == m
  {
  }

  /** The filter loop has visited the regions in `visited`: each list holds
      what it held before plus the picked records of a visited region. */
  ghost predicate GatheredSoFar(current0: PriceLists, current: PriceLists, actual: PriceLists,
                                regions: seq<string>, w: Window, visited: set<string>)
  {
    && (forall k :: Get(current, k) == Get(current0, k) + (if k in visited then Picked(actual, regions, w, k) else []))
    && (forall k :: k in current <==> k in current0 || (k in visited && Picked(actual, regions, w, k) != []))
  }

  lemma GatheredSoFarStart(current0: PriceLists, actual: PriceLists, regions: seq<string>, w: Window)
    ensures GatheredSoFar(current0, current0, actual, regions, w, {})
  {
  }

  /** Visiting one more region appends its picked records to its list. */
  lemma GatheredSoFarVisit(current0: PriceLists, current: PriceLists, actual: PriceLists,
                           regions: seq<string>, w: Window, visited: set<string>, region: string)
    requires GatheredSoFar(current0, current, actual, regions, w, visited)
    requires region !in visited
    ensures GatheredSoFar(current0, Add(current, region, Picked(actual, regions, w, region)), actual, regions, w,
                          visited + {region})
  {
    var p := Picked(actual, regions, w, region);
    var next := Add(current, region, p);
    var visited' := visited + {region};
    forall k ensures Get(next, k) == Get(current0, k) + (if k in visited' then Picked(actual, regions, w, k) else []) {
      VisitListAt(current0, current, actual, regions, w, visited, region, k);
    }
    forall k ensures k in next <==> k in current0 || (k in visited' && Picked(actual, regions, w, k) != []) {
      VisitKeyAt(current0, current, actual, regions, w, visited, region, k);
    }
  }

  lemma VisitListAt(current0: PriceLists, current: PriceLists, actual: PriceLists,
                    regions: seq<string>, w: Window, visited: set<string>, region: string, k: string)
    requires Get(current, k) == Get(current0, k) + (if k in visited then Picked(actual, regions, w, k) else [])
    requires region !in visited
    ensures Get(Add(current, region, Picked(actual, regions, w, region)), k) ==
      Get(current0, k) + (if k in visited + {region} then Picked(actual, regions, w, k) else [])
  {
    if k == region {
      assert Get(current, k) == Get(current0, k) + [];
    }
  }

  lemma VisitKeyAt(current0: PriceLists, current: PriceLists, actual: PriceLists,
                   regions: seq<string>, w: Window, visited: set<string>, region: string, k: string)
    requires k in current <==> k in current0 || (k in visited && Picked(actual, regions, w, k) != [])
    ensures var p := Picked(actual, regions, w, region);
      k in Add(current, region, p) <==> k in current0 || (k in visited + {region} && Picked(actual, regions, w, k) != [])
  {
  }

  /** Once every region of the actual records is visited, the dict is `Gathered`. */
  lemma GatheredSoFarEnd(current0: PriceLists, current: PriceLists, actual: PriceLists,
                         regions: seq<string>, w: Window)
    requires GatheredSoFar(current0, current, actual, regions, w, actual.Keys)
    ensures current == Gathered(current0, actual, regions, w)
  {
    var g := Gathered(current0, actual, regions, w);
    forall k ensures Get(current, k) == Get(g, k) && (k in current <==> k in g) {
      if k !in actual {
        assert Picked(actual, regions, w, k) == [];
        assert Get(current, k) == Get(current0, k) + [];
      }
    }
    SameLists(current, g);
  }

  // ----- repeated calls in one window -----

  /** The filter appends a requested region's in-window records to its list. */
  lemma GatheredRegion(current: PriceLists, actual: PriceLists, regions: seq<string>, w: Window, region: string)
    requires region in regions
    ensures Get(Gathered(current, actual, regions, w), region) == Get(current, region) + InWindow(Get(actual, region), w)
  {
  }

  /** One call: the cumulative feed is appended to the stored records, and
      every in-window record of the requested region, old and new, is
      appended to its `current_price` list. */
  lemma CallAppendsStoredAndNew(m: Nested<PeriodType, CumulRecord>, current: PriceLists,
                                items: seq<Keyed<PeriodType, CumulRecord>>,
                                regions: seq<string>, w: Window, region: string)
    requires region in regions
    ensures Get(Gathered(current, Level(AppendAll(m, items), Actual), regions, w), region) ==
      Get(current, region) + InWindow(Bucket(m, Actual, region), w) + InWindow(Matching(items, Actual, region), w)
  {
    var m' := AppendAll(m, items);
    var b := Bucket(m, Actual, region);
    var s := Matching(items, Actual, region);
    BucketAfterAppendAll(m, items, Actual, region);
    assert Get(Level(m', Actual), region) == Bucket(m', Actual, region) == b + s;
    InWindowConcat(b, s, w);
    GatheredRegion(current, Level(m', Actual), regions, w, region);
  }

  /** As written: two calls in the same window, from a fresh instance, fed
      the same cumulative-price records leave each requested region's
      `current_price` list holding its in-window records three times over:
      once from the first call, twice from the second, which filters the
      feed appended onto itself. */
  lemma RepeatedCallTriplesCount(items: seq<Keyed<PeriodType, CumulRecord>>, regions: seq<string>,
                                 w: Window, region: string)
    requires region in regions
    ensures var first := AppendAll(map[], items);
      var second := AppendAll(first, items);
      var afterFirst := Gathered(map[], Level(first, Actual), regions, w);
      var afterSecond := Gathered(afterFirst, Level(second, Actual), regions, w);
      var once := InWindow(Matching(items, Actual, region), w);
      Get(afterSecond, region) == once + once + once
  {
    var e: Nested<PeriodType, CumulRecord> := map[];
    var first := AppendAll(e, items);
    var s := Matching(items, Actual, region);
    CallAppendsStoredAndNew(e, map[], items, regions, w, region);
    BucketAfterAppendAll(e, items, Actual, region);
    assert Bucket(e, Actual, region) == [];
    var afterFirst := Gathered(map[], Level(first, Actual), regions, w);
    assert Get(afterFirst, region) == InWindow(s, w);
    CallAppendsStoredAndNew(first, afterFirst, items, regions, w, region);
    assert Bucket(first, Actual, region) == s;
  }

  /** With six actual records of one region inside the window, the second
      call counts eighteen periods. */
  lemma RepeatedCallCountsEighteen(items: seq<Keyed<PeriodType, CumulRecord>>, regions: seq<string>,
                                   w: Window, region: string)
    requires region in regions
    requires |InWindow(Matching(items, Actual, region), w)| == 6
    ensures var first := AppendAll(map[], items);
      var second := AppendAll(first, items);
      var afterFirst := Gathered(map[], Level(first, Actual), regions, w);
      var afterSecond := Gathered(afterFirst, Level(second, Actual), regions, w);
      |Get(afterSecond, region)| == 18
  {
    RepeatedCallTriplesCount(items, regions, w, region);
  }

  // ----- the intended count -----

  /** Corrected: the in-window records of the current feed alone, replacing
      rather than extending what earlier calls gathered. */
  function FreshWindowRecords(items: seq<Keyed<PeriodType, CumulRecord>>, region: string, w: Window): (r: seq<CumulRecord>)
    ensures forall c :: c in r <==> c in Matching(items, Actual, region) && Inside(c, w)
  {
    InWindowInside(Matching(items, Actual, region), w);
    InWindowKeepsAllInside(Matching(items, Actual, region), w);
    InWindow(Matching(items, Actual, region), w)
  }

  /** The period starts of s are pairwise distinct. */
  ghost predicate DistinctStarts(s: seq<CumulRecord>)
  {
    forall i, j :: 0 <= i < j < |s| ==> s[i].periodStartDate != s[j].periodStartDate
  }

  /** The period starts of s fall on 5-minute boundaries. */
  ghost predicate FiveMinuteAligned(s: seq<CumulRecord>)
  {
    forall i :: 0 <= i < |s| ==> s[i].periodStartDate % FiveMinutes == 0
  }

  /** The six 5-minute period starts of a window. */
  function Slots(w: Window): set<int>
  {
    {w.start, w.start + FiveMinutes, w.start + 2 * FiveMinutes,
     w.start + 3 * FiveMinutes, w.start + 4 * FiveMinutes, w.start + 5 * FiveMinutes}
  }

  lemma SlotsHasSix(w: Window)
    ensures |Slots(w)| == 6
  {
  }

  /** A 5-minute boundary inside an aligned window is one of its six slots. */
  lemma AlignedInsideIsSlot(t: int, w: Window)
    requires w.start % FiveMinutes == 0 && w.end == w.start + ThirtyMinutes
    requires t % FiveMinutes == 0 && w.start <= t < w.end
    ensures t in Slots(w)
  {
    var q := (t - w.start) / FiveMinutes;
    assert (t - w.start) % FiveMinutes == 0;
    assert t - w.start == q * FiveMinutes;
    assert 0 <= q < 6;
  }

  /** A list with distinct period starts has as many starts as records. */
  lemma {:induction false} DistinctStartsCount(s: seq<CumulRecord>)
    requires DistinctStarts(s)
    ensures |set i | 0 <= i < |s| :: s[i].periodStartDate| == |s|
    decreases |s|
  {
    if s != [] {
      var init := s[..|s| - 1];
      assert DistinctStarts(init);
      DistinctStartsCount(init);
      var before := set i | 0 <= i < |init| :: init[i].periodStartDate;
      var after := set i | 0 <= i < |s| :: s[i].periodStartDate;
      assert after == before + {s[|s| - 1].periodStartDate};
      assert s[|s| - 1].periodStartDate !in before;
    }
  }

  /** Counted once per call, a region with one record per 5-minute period
      has at most six periods in the current window. */
  lemma FreshWindowAtMostSix(items: seq<Keyed<PeriodType, CumulRecord>>, region: string, w: Window)
    requires w.start % FiveMinutes == 0 && w.end == w.start + ThirtyMinutes
    requires DistinctStarts(FreshWindowRecords(items, region, w))
    requires FiveMinuteAligned(FreshWindowRecords(items, region, w))
    ensures |FreshWindowRecords(items, region, w)| <= 6
  {
    var s := FreshWindowRecords(items, region, w);
    var starts := set i | 0 <= i < |s| :: s[i].periodStartDate;
    DistinctStartsCount(s);
    InWindowInside(Matching(items, Actual, region), w);
    forall t | t in starts ensures t in Slots(w) {
      var i :| 0 <= i < |s| && s[i].periodStartDate == t;
      assert Inside(s[i], w);
      AlignedInsideIsSlot(t, w);
    }
    assert Slots(w) == starts + (Slots(w) - starts);
    SlotsHasSix(w);
  }
}
