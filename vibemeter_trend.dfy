/** The data shaping of the vibemeter trend chart
    (frontend/src/components/charts/VibemeterTrendChart.tsx, lines 42-118):
    choose the input, keep the responses of a trailing window of whole days,
    group them by UTC calendar day, average each day, sort the days, and add
    the optional overall average and least-squares trendline. The clock is the
    parameter `now`; instants are milliseconds since the epoch. */
module VibemeterTrend {
  import opened Common
  import opened EmployeeTypes
  import opened Sorting
  import opened Trendline

  /** The chart's own response record (`VibeResponse` of this component). */
  datatype ChartResponse = ChartResponse(id: string, employeeId: string, timestamp: int, vibeScore: real)

  /** One calendar day: its key, the mean score and the number of responses. */
  datatype DailyAverage = DailyAverage(day: int, avgScore: real, count: nat)

  /** One point of the plotted series; `trendline` and `overallAverage` are
      present only when the corresponding option is on. */
  datatype ChartPoint = ChartPoint(
    date: int,
    avgScore: real,
    count: nat,
    trendline: Option<real>,
    overallAverage: Option<JsNumber>)

  /** `1000 * 60 * 60 * 24`. */
  const DayMs: int := 86400000

  // ---------------------------------------------------------------------
  // Input selection
  // ---------------------------------------------------------------------

  /** The mapping of an application-wide response to the chart's record. */
  function FromAppResponse(v: VibeResponse): ChartResponse
  {
    ChartResponse(v.id, v.employeeId, v.date, v.score)
  }

  /** `data || mappedVibeData || []`: `data` wins whenever it is given (even
      empty), else the mapped `vibeData`, else nothing. */
  function SelectInput(data: Option<seq<ChartResponse>>, vibeData: Option<seq<VibeResponse>>)
    : (r: seq<ChartResponse>)
    ensures data.Some? ==> r == data.value
    ensures data.None? && vibeData.Some? ==>
              |r| == |vibeData.value| &&
              forall i :: 0 <= i < |r| ==> r[i] == FromAppResponse(vibeData.value[i])
    ensures data.None? && vibeData.None? ==> r == []
  {
    match data
    case Some(d) => d
    case None =>
      match vibeData
      case Some(vs) => Map(vs, FromAppResponse)
      case None => []
  }

  // ---------------------------------------------------------------------
  // Trailing window
  // ---------------------------------------------------------------------

  function Abs(x: int): nat
  {
    if x < 0 then -x else x
  }

  /** `Math.ceil(a / b)` for a non-negative integer `a` and positive `b`. */
  function CeilDiv(a: nat, b: int): (q: int)
    requires b > 0
    ensures q * b >= a
    ensures (q - 1) * b < a || (a == 0 && q == 0)
  {
    var q := (a + b - 1) / b;
    assert a + b - 1 == q * b + (a + b - 1) % b;
    q
  }

  /** The window test of one instant: its whole-day distance from `now`,
      rounded up, is at most `days`. */
  predicate InWindow(timestamp: int, days: int, now: int)
  {
    CeilDiv(Abs(now - timestamp), DayMs) <= days
  }

  /** The rounded-up day distance is within `days` exactly when the distance
      in milliseconds is within `days` whole days: the boundary is inclusive
      and instants after `now` count by their distance too. */
  lemma InWindowIff(timestamp: int, days: int, now: int)
    ensures InWindow(timestamp, days, now) <==> Abs(now - timestamp) <= days * DayMs
  {
    var a := Abs(now - timestamp);
    var q := CeilDiv(a, DayMs);
    if q <= days {
      assert q * DayMs <= days * DayMs;
    } else {
      assert (q - 1) * DayMs >= days * DayMs;
    }
  }

  /** With a 30-day window, a response exactly 30 days old is kept and one
      31 days old is dropped. */
  lemma ThirtyDayBoundary(now: int)
    ensures InWindow(now - 30 * DayMs, 30, now)
    ensures !InWindow(now - 31 * DayMs, 30, now)
  {
    InWindowIff(now - 30 * DayMs, 30, now);
    InWindowIff(now - 31 * DayMs, 30, now);
  }

  /** `chartData.filter(...)` with the window test. */
  function FilterWindow(items: seq<ChartResponse>, days: int, now: int): seq<ChartResponse>
  {
    Filter(items, (x: ChartResponse) => InWindow(x.timestamp, days, now))
  }

  /** The window keeps exactly the responses within `days · 86400000` ms of
      `now`, in their order. */
  lemma FilterWindowKeeps(items: seq<ChartResponse>, days: int, now: int)
    ensures FilterWindow(items, days, now)
            == Filter(items, (x: ChartResponse) => Abs(now - x.timestamp) <= days * DayMs)
  {
    forall i | 0 <= i < |items|
      ensures InWindow(items[i].timestamp, days, now)
              == (Abs(now - items[i].timestamp) <= days * DayMs)
    {
      InWindowIff(items[i].timestamp, days, now);
    }
    FilterSame(items, (x: ChartResponse) => InWindow(x.timestamp, days, now),
               (x: ChartResponse) => Abs(now - x.timestamp) <= days * DayMs);
  }

  // ---------------------------------------------------------------------
  // Group by day
  // ---------------------------------------------------------------------

  /** The UTC calendar day of an instant (`toISOString().split('T')[0]`),
      as a day number; floor division also for instants before 1970. */
  function DayKey(timestamp: int): int
  {
    timestamp / DayMs
  }

  function DayKeys(items: seq<ChartResponse>): seq<int>
  {
    Map(items, (x: ChartResponse) => DayKey(x.timestamp))
  }

  /** The responses of one day, in input order. */
  function OnDay(items: seq<ChartResponse>, day: int): seq<ChartResponse>
  {
    Filter(items, (x: ChartResponse) => DayKey(x.timestamp) == day)
  }

  lemma OnDaySnoc(items: seq<ChartResponse>, x: ChartResponse, day: int)
    ensures OnDay(items + [x], day)
            == OnDay(items, day) + (if DayKey(x.timestamp) == day then [x] else [])
  {
    FilterAppend(items, [x], (y: ChartResponse) => DayKey(y.timestamp) == day);
    assert [x][1..] == [];
  }

  lemma OnDaySnocSame(items: seq<ChartResponse>, x: ChartResponse)
    ensures OnDay(items + [x], DayKey(x.timestamp)) == OnDay(items, DayKey(x.timestamp)) + [x]
  {
    OnDaySnoc(items, x, DayKey(x.timestamp));
  }

  lemma OnDaySnocOther(items: seq<ChartResponse>, x: ChartResponse, day: int)
    requires DayKey(x.timestamp) != day
    ensures OnDay(items + [x], day) == OnDay(items, day)
  {
    OnDaySnoc(items, x, day);
    assert OnDay(items, day) + [] == OnDay(items, day);
  }

  /** What `groupedData` and its key order hold after the responses
      `items` have been pushed. */
  ghost predicate GroupedSoFar(items: seq<ChartResponse>, groups: map<int, seq<ChartResponse>>, keys: seq<int>)
  {
    && keys == Distinct(DayKeys(items))
    && (forall d :: d in groups <==> d in keys)
    && (forall d :: d in groups ==> groups[d] == OnDay(items, d))
  }

  lemma DayKeysSnoc(items: seq<ChartResponse>, item: ChartResponse)
    ensures DayKeys(items + [item]) == DayKeys(items) + [DayKey(item.timestamp)]
  {
  }

  /** A day none of the responses falls on has an empty bucket. */
  lemma {:induction false} OnDayAbsent(items: seq<ChartResponse>, day: int)
    requires forall i :: 0 <= i < |items| ==> DayKey(items[i].timestamp) != day
    ensures OnDay(items, day) == []
  {
    if items != [] {
      OnDayAbsent(items[1..], day);
    }
  }

  /** Pushing one more response onto the bucket of its day (creating the
      bucket and its key on first sight) keeps the grouping exact. */
  lemma GroupStep(items: seq<ChartResponse>, item: ChartResponse,
                  groups: map<int, seq<ChartResponse>>, keys: seq<int>,
                  groups': map<int, seq<ChartResponse>>, keys': seq<int>)
    requires GroupedSoFar(items, groups, keys)
    requires var date := DayKey(item.timestamp);
      groups' == groups[date := (if date in groups then groups[date] else []) + [item]]
    requires keys' == if DayKey(item.timestamp) in groups then keys else keys + [DayKey(item.timestamp)]
    ensures GroupedSoFar(items + [item], groups', keys')
  {
    var date := DayKey(item.timestamp);
    var prev := if date in groups then groups[date] else [];
    KeysStep(items, item, keys, date in keys);
    if date !in groups {
      PrevEmpty(items, date, keys);
    }
    ContentStep(items, item, groups, prev);
  }

  lemma ContentStep(items: seq<ChartResponse>, item: ChartResponse,
                    groups: map<int, seq<ChartResponse>>, prev: seq<ChartResponse>)
    requires forall d :: d in groups ==> groups[d] == OnDay(items, d)
    requires prev == OnDay(items, DayKey(item.timestamp))
    ensures var g := groups[DayKey(item.timestamp) := prev + [item]];
      forall d :: d in g ==> g[d] == OnDay(items + [item], d)
  {
    var date := DayKey(item.timestamp);
    OnDaySnocSame(items, item);
    forall d | d in groups && d != date ensures groups[d] == OnDay(items + [item], d) {
      OnDaySnocOther(items, item, d);
    }
  }

  lemma KeysStep(items: seq<ChartResponse>, item: ChartResponse, keys: seq<int>, seen: bool)
    requires keys == Distinct(DayKeys(items))
    requires seen <==> DayKey(item.timestamp) in keys
    ensures Distinct(DayKeys(items + [item]))
            == if seen then keys else keys + [DayKey(item.timestamp)]
  {
    DayKeysSnoc(items, item);
    DistinctSnoc(DayKeys(items), DayKey(item.timestamp));
  }

  lemma PrevEmpty(items: seq<ChartResponse>, date: int, keys: seq<int>)
    requires keys == Distinct(DayKeys(items))
    requires date !in keys
    ensures OnDay(items, date) == []
  {
    forall i | 0 <= i < |items| ensures DayKey(items[i].timestamp) != date {
      assert DayKeys(items)[i] == DayKey(items[i].timestamp);
    }
    OnDayAbsent(items, date);
  }

  /** One step of the pass, stated on the prefix of the responses visited. */
  lemma GroupPrefixStep(items: seq<ChartResponse>, i: nat,
                        groups: map<int, seq<ChartResponse>>, keys: seq<int>,
                        groups': map<int, seq<ChartResponse>>, keys': seq<int>)
    requires i < |items|
    requires GroupedSoFar(items[..i], groups, keys)
    requires var date := DayKey(items[i].timestamp);
      groups' == groups[date := (if date in groups then groups[date] else []) + [items[i]]]
    requires keys' == if DayKey(items[i].timestamp) in groups then keys else keys + [DayKey(items[i].timestamp)]
    ensures GroupedSoFar(items[..i + 1], groups', keys')
  {
    TakeSnoc(items, i);
    GroupStep(items[..i], items[i], groups, keys, groups', keys');
  }

  /** Before any response is visited there are no groups and no keys. */
  lemma GroupedNothing()
    ensures GroupedSoFar([], map[], [])
  {
    assert DayKeys([]) == [];
  }

  /** `groupedData`, filled by one pass that pushes each response onto the
      list of its day; `keys` is the order in which the days were first seen
      (the order of `Object.keys`). Every response lands in the bucket of its
      own day and no other. */
  method GroupByDay(items: seq<ChartResponse>) returns (groups: map<int, seq<ChartResponse>>, keys: seq<int>)
    ensures GroupedSoFar(items, groups, keys)
  {
    groups := map[];
    keys := [];
    GroupedNothing();
    for i := 0 to |items|
      invariant GroupedSoFar(items[..i], groups, keys)
    {
      var item := items[i];
      var date := DayKey(item.timestamp);
      ghost var groups0, keys0 := groups, keys;
      keys := if date in groups then keys else keys + [date];
      groups := groups[date := (if date in groups then groups[date] else []) + [item]];
      GroupPrefixStep(items, i, groups0, keys0, groups, keys);
    }
    assert items[..|items|] == items;
  }

  /** Each day seen among the responses has a non-empty bucket. */
  lemma OnDayNonEmpty(items: seq<ChartResponse>, day: int)
    requires day in DayKeys(items)
    ensures |OnDay(items, day)| > 0
  {
    var i :| 0 <= i < |items| && DayKeys(items)[i] == day;
    FilterMembers(items, (x: ChartResponse) => DayKey(x.timestamp) == day);
    assert items[i] in OnDay(items, day);
  }

  /** A day's bucket holds as many responses as the day occurs among the
      responses' day keys. */
  lemma {:induction false} OnDayMultiplicity(items: seq<ChartResponse>, day: int)
    ensures |OnDay(items, day)| == multiset(DayKeys(items))[day]
    decreases |items|
  {
    if items != [] {
      var init := items[..|items| - 1];
      var x := items[|items| - 1];
      assert items == init + [x];
      OnDaySnoc(init, x, day);
      OnDayMultiplicity(init, day);
      assert DayKeys(items) == DayKeys(init) + [DayKey(x.timestamp)];
    }
  }

  // ---------------------------------------------------------------------
  // Daily averages
  // ---------------------------------------------------------------------

  function Scores(items: seq<ChartResponse>): seq<real>
  {
    Map(items, (x: ChartResponse) => x.vibeScore)
  }

  /** One entry of `dailyAverages`: the day, the bucket's mean score and size. */
  function Summarise(day: int, bucket: seq<ChartResponse>): DailyAverage
    requires |bucket| > 0
  {
    DailyAverage(day, Mean(Scores(bucket)), |bucket|)
  }

  function Days(daily: seq<DailyAverage>): seq<int>
  {
    Map(daily, (a: DailyAverage) => a.day)
  }

  function TotalCount(daily: seq<DailyAverage>): nat
  {
    if daily == [] then 0 else daily[0].count + TotalCount(daily[1..])
  }

  /** The comparator of the sort: by day, earliest first. */
  predicate DayLe(a: DailyAverage, b: DailyAverage)
  {
    a.day <= b.day
  }

  lemma DayLeTotalPreorder()
    ensures TotalPreorder(DayLe)
  {
  }

  /** One daily entry is exactly the summary of its day's responses. */
  ghost predicate Faithful(items: seq<ChartResponse>, a: DailyAverage)
  {
    && a.day in DayKeys(items)
    && |OnDay(items, a.day)| > 0
    && a.count == |OnDay(items, a.day)|
    && a.avgScore == Mean(Scores(OnDay(items, a.day)))
  }

  /** What the daily-average list promises about the responses it summarises:
      strictly ascending days, every response's day present, every entry
      the summary of its day. */
  ghost predicate SummarisesDays(items: seq<ChartResponse>, daily: seq<DailyAverage>)
  {
    && (forall i, j :: 0 <= i < j < |daily| ==> daily[i].day < daily[j].day)
    && (forall i :: 0 <= i < |items| ==> DayKey(items[i].timestamp) in Days(daily))
    && (forall i :: 0 <= i < |daily| ==> Faithful(items, daily[i]))
  }

  /** Two faithful entries for the same day are the same entry. */
  lemma DistinctFaithfulDays(items: seq<ChartResponse>, a: DailyAverage, b: DailyAverage)
    requires Faithful(items, a) && Faithful(items, b)
    requires a != b
    ensures a.day != b.day
  {
  }

  /** Sorting a list of faithful, pairwise different entries that covers
      every response's day yields a list that summarises the days. */
  lemma SortedSummaries(items: seq<ChartResponse>, unsorted: seq<DailyAverage>)
    requires NoDuplicates(unsorted)
    requires forall k :: 0 <= k < |unsorted| ==> Faithful(items, unsorted[k])
    requires forall i :: 0 <= i < |items| ==> DayKey(items[i].timestamp) in Days(unsorted)
    ensures SummarisesDays(items, SortBy(unsorted, DayLe))
  {
    var daily := SortBy(unsorted, DayLe);
    DayLeTotalPreorder();
    SortBySorted(unsorted, DayLe);
    PermutationKeepsNoDuplicates(unsorted, daily);
    PermutationKeepsFaithful(items, unsorted, daily);
    SortedFaithfulStrict(items, daily);
    PermutationKeepsDays(items, unsorted, daily);
  }

  lemma PermutationKeepsFaithful(items: seq<ChartResponse>, a: seq<DailyAverage>, b: seq<DailyAverage>)
    requires multiset(a) == multiset(b)
    requires forall k :: 0 <= k < |a| ==> Faithful(items, a[k])
    ensures forall i :: 0 <= i < |b| ==> Faithful(items, b[i])
  {
    forall i | 0 <= i < |b| ensures Faithful(items, b[i]) {
      assert b[i] in multiset(a);
      var k :| 0 <= k < |a| && a[k] == b[i];
    }
  }

  lemma SortedFaithfulStrict(items: seq<ChartResponse>, daily: seq<DailyAverage>)
    requires SortedBy(daily, DayLe)
    requires NoDuplicates(daily)
    requires forall i :: 0 <= i < |daily| ==> Faithful(items, daily[i])
    ensures forall i, j :: 0 <= i < j < |daily| ==> daily[i].day < daily[j].day
  {
    forall i, j | 0 <= i < j < |daily| ensures daily[i].day < daily[j].day {
      assert DayLe(daily[i], daily[j]);
      DistinctFaithfulDays(items, daily[i], daily[j]);
    }
  }

  lemma PermutationKeepsDays(items: seq<ChartResponse>, a: seq<DailyAverage>, b: seq<DailyAverage>)
    requires multiset(a) == multiset(b)
    requires forall i :: 0 <= i < |items| ==> DayKey(items[i].timestamp) in Days(a)
    ensures forall i :: 0 <= i < |items| ==> DayKey(items[i].timestamp) in Days(b)
  {
    forall i | 0 <= i < |items| ensures DayKey(items[i].timestamp) in Days(b) {
      var k :| 0 <= k < |a| && Days(a)[k] == DayKey(items[i].timestamp);
      assert a[k] in multiset(b);
      var j :| 0 <= j < |b| && b[j] == a[k];
      assert Days(b)[j] == DayKey(items[i].timestamp);
    }
  }

  /** The entries built from the groups, one per key, are faithful, pairwise
      different and cover every response's day. */
  lemma UnsortedSummaries(items: seq<ChartResponse>, groups: map<int, seq<ChartResponse>>, keys: seq<int>,
                          unsorted: seq<DailyAverage>)
    requires GroupedSoFar(items, groups, keys)
    requires |unsorted| == |keys|
    requires forall k :: 0 <= k < |keys| ==>
               && |groups[keys[k]]| > 0
               && unsorted[k] == Summarise(keys[k], groups[keys[k]])
    ensures NoDuplicates(unsorted)
    ensures forall k :: 0 <= k < |unsorted| ==> Faithful(items, unsorted[k])
    ensures forall i :: 0 <= i < |items| ==> DayKey(items[i].timestamp) in Days(unsorted)
  {
    forall i, j | 0 <= i < j < |unsorted| ensures unsorted[i] != unsorted[j] {
      assert unsorted[i].day == keys[i] && unsorted[j].day == keys[j];
    }
    forall i | 0 <= i < |items| ensures DayKey(items[i].timestamp) in Days(unsorted) {
      assert DayKeys(items)[i] == DayKey(items[i].timestamp);
      var k := FirstIndex(keys, DayKey(items[i].timestamp));
      assert Days(unsorted)[k] == keys[k];
    }
  }

  lemma {:induction false} TotalCountIsTally(items: seq<ChartResponse>, daily: seq<DailyAverage>)
    requires forall i :: 0 <= i < |daily| ==> daily[i].count == |OnDay(items, daily[i].day)|
    ensures TotalCount(daily) == SumMultiplicities(Days(daily), multiset(DayKeys(items)))
  {
    if daily != [] {
      TotalCountIsTally(items, daily[1..]);
      OnDayMultiplicity(items, daily[0].day);
      assert Days(daily)[1..] == Days(daily[1..]);
    }
  }

  /** The day buckets partition the responses: the counts of the daily list
      add up to the number of responses. */
  lemma CountsCoverResponses(items: seq<ChartResponse>, daily: seq<DailyAverage>)
    requires SummarisesDays(items, daily)
    ensures TotalCount(daily) == |items|
  {
    TotalCountIsTally(items, daily);
    forall d | d in DayKeys(items) ensures d in Days(daily) {
      var i :| 0 <= i < |items| && DayKeys(items)[i] == d;
    }
    TallyTotal(DayKeys(items), Days(daily));
  }

  /** Each day's average lies between the lowest and the highest score of
      that day. */
  lemma DailyAverageBounds(items: seq<ChartResponse>, daily: seq<DailyAverage>, i: nat, lo: real, hi: real)
    requires SummarisesDays(items, daily)
    requires i < |daily|
    requires forall k :: 0 <= k < |items| ==> lo <= items[k].vibeScore <= hi
    ensures lo <= daily[i].avgScore <= hi
  {
    var bucket := OnDay(items, daily[i].day);
    FilterMembers(items, (x: ChartResponse) => DayKey(x.timestamp) == daily[i].day);
    MeanBounds(Scores(bucket), lo, hi);
  }

  lemma PermutationKeepsNoDuplicates<T>(a: seq<T>, b: seq<T>)
    requires multiset(a) == multiset(b)
    requires NoDuplicates(a)
    ensures NoDuplicates(b)
  {
    forall i, j | 0 <= i < j < |b| ensures b[i] != b[j] {
      if b[i] == b[j] {
        var x := b[i];
        assert b == b[..i] + [x] + b[i + 1..j] + [x] + b[j + 1..];
        assert multiset(b)[x] >= 2;
        AtMostOnce(a, x);
      }
    }
  }

  lemma {:induction false} AtMostOnce<T>(a: seq<T>, x: T)
    requires NoDuplicates(a)
    ensures multiset(a)[x] <= 1
  {
    if a != [] {
      assert a == [a[0]] + a[1..];
      AtMostOnce(a[1..], x);
      if a[0] == x {
        assert x !in a[1..];
      }
    }
  }

  /** `dailyAverages`: one entry per day present among the responses, sorted
      by day. */
  method DailyAverages(items: seq<ChartResponse>) returns (daily: seq<DailyAverage>)
    ensures |daily| == |Distinct(DayKeys(items))|
    ensures SummarisesDays(items, daily)
    ensures TotalCount(daily) == |items|
  {
    var groups, keys := GroupByDay(items);
    forall k | 0 <= k < |keys| ensures |groups[keys[k]]| > 0 {
      OnDayNonEmpty(items, keys[k]);
    }
    var unsorted := seq(|keys|, k requires 0 <= k < |keys| => Summarise(keys[k], groups[keys[k]]));
    UnsortedSummaries(items, groups, keys, unsorted);
    daily := SortBy(unsorted, DayLe);
    SortedSummaries(items, unsorted);
    CountsCoverResponses(items, daily);
  }

  /** `overallAverage`: only when `showAverage`; the mean of the daily
      averages, with the source's unguarded division, so an empty list gives
      NaN. */
  function OverallAverage(daily: seq<DailyAverage>, showAverage: bool): (r: Option<JsNumber>)
    ensures !showAverage ==> r == None
    ensures showAverage && |daily| == 0 ==> r == Some(NaN)
    ensures showAverage && |daily| > 0 ==>
              r == Some(Finite(Mean(Map(daily, (a: DailyAverage) => a.avgScore))))
  {
    if showAverage then
      Some(Divide(Sum(Map(daily, (a: DailyAverage) => a.avgScore)), |daily| as real))
    else None
  }

  /** The overall average lies within the range of the daily averages. */
  lemma OverallAverageBounds(daily: seq<DailyAverage>, lo: real, hi: real)
    requires |daily| > 0
    requires forall i :: 0 <= i < |daily| ==> lo <= daily[i].avgScore <= hi
    ensures OverallAverage(daily, true).value.Finite?
    ensures lo <= OverallAverage(daily, true).value.value <= hi
  {
    MeanBounds(Map(daily, (a: DailyAverage) => a.avgScore), lo, hi);
  }

  // ---------------------------------------------------------------------
  // Chart points and trendline
  // ---------------------------------------------------------------------

  /** `formattedChartData` before the trendline: every point starts with a
      zero trendline when the trendline is requested. */
  function FormatChartData(daily: seq<DailyAverage>, showTrendline: bool, overall: Option<JsNumber>)
    : (r: seq<ChartPoint>)
    ensures |r| == |daily|
    ensures forall i :: 0 <= i < |r| ==>
              && r[i].date == daily[i].day
              && r[i].avgScore == daily[i].avgScore
              && r[i].count == daily[i].count
              && r[i].trendline == (if showTrendline then Some(0.0) else None)
              && r[i].overallAverage == overall
  {
    Map(daily, (a: DailyAverage) =>
      ChartPoint(a.day, a.avgScore, a.count, if showTrendline then Some(0.0) else None, overall))
  }

  function AvgScores(points: seq<ChartPoint>): seq<real>
  {
    Map(points, (p: ChartPoint) => p.avgScore)
  }

  /** The daily entries a list of points plots. */
  function Summaries(points: seq<ChartPoint>): seq<DailyAverage>
  {
    Map(points, (p: ChartPoint) => DailyAverage(p.date, p.avgScore, p.count))
  }

  /** The trendline pass: with the option on and more than one point, each
      point's trendline becomes the fitted value at its position and nothing
      else changes; otherwise the array is left as it is. */
  method AddTrendline(points: array<ChartPoint>, showTrendline: bool)
    modifies points
    ensures showTrendline && points.Length > 1 ==>
              forall i :: 0 <= i < points.Length ==>
                points[i] == old(points[i]).(trendline := Some(Fitted(AvgScores(old(points[..])), i)))
    ensures !(showTrendline && points.Length > 1) ==> points[..] == old(points[..])
  {
    if showTrendline && points.Length > 1 {
      ghost var orig := points[..];
      var ys := AvgScores(points[..]);
      var slope := Slope(ys);
      var intercept := Intercept(ys);
      var index := 0;
      while index < points.Length
        invariant 0 <= index <= points.Length
        invariant forall i :: 0 <= i < index ==>
                    points[i] == orig[i].(trendline := Some(LineAt(slope, intercept, i)))
        invariant forall i :: index <= i < points.Length ==> points[i] == orig[i]
      {
        points[index] := points[index].(trendline := Some(LineAt(slope, intercept, index)));
        index := index + 1;
      }
    }
  }

  /** Points that carry the daily entries field by field plot exactly those
      entries. */
  lemma PointsCarryDaily(daily: seq<DailyAverage>, points: seq<ChartPoint>)
    requires |points| == |daily|
    requires forall i :: 0 <= i < |points| ==>
               points[i].date == daily[i].day && points[i].avgScore == daily[i].avgScore
               && points[i].count == daily[i].count
    ensures Summaries(points) == daily
    ensures AvgScores(points) == Map(daily, (a: DailyAverage) => a.avgScore)
  {
  }

  /** `formattedChartData`: the daily entries as plotted points, with the
      overall average and the trendline when requested. */
  method PlotDaily(daily: seq<DailyAverage>, showAverage: bool, showTrendline: bool)
    returns (points: seq<ChartPoint>)
    ensures Summaries(points) == daily
    ensures showTrendline && |points| > 1 ==>
              forall i :: 0 <= i < |points| ==> points[i].trendline == Some(Fitted(AvgScores(points), i))
    ensures showTrendline && |points| <= 1 ==>
              forall i :: 0 <= i < |points| ==> points[i].trendline == Some(0.0)
    ensures !showTrendline ==> forall i :: 0 <= i < |points| ==> points[i].trendline.None?
    ensures !showAverage ==> forall i :: 0 <= i < |points| ==> points[i].overallAverage.None?
    ensures showAverage && |points| > 0 ==>
              forall i :: 0 <= i < |points| ==>
                points[i].overallAverage == Some(Finite(Mean(AvgScores(points))))
  {
    var overall := OverallAverage(daily, showAverage);
    var formatted := FormatChartData(daily, showTrendline, overall);
    var arr := new ChartPoint[|formatted|](i requires 0 <= i < |formatted| => formatted[i]);
    assert arr[..] == formatted;
    AddTrendline(arr, showTrendline);
    points := arr[..];
    PointsCarryDaily(daily, formatted);
    if showTrendline && |formatted| > 1 {
      forall i | 0 <= i < |points|
        ensures points[i] == formatted[i].(trendline := Some(Fitted(AvgScores(formatted), i)))
      {
      }
    } else {
      assert points == formatted;
    }
    PointsCarryDaily(daily, points);
  }

  /** The whole component's data: the points it plots for the given inputs
      and clock. They summarise, day by day and in order, the responses of
      the window; the trendline is the least-squares fit of their averages
      and the overall average the mean of those averages. */
  method TrendChartData(
    data: Option<seq<ChartResponse>>, vibeData: Option<seq<VibeResponse>>,
    days: int, now: int, showAverage: bool, showTrendline: bool)
    returns (points: seq<ChartPoint>)
    ensures SummarisesDays(FilterWindow(SelectInput(data, vibeData), days, now), Summaries(points))
    ensures |points| == |Distinct(DayKeys(FilterWindow(SelectInput(data, vibeData), days, now)))|
    ensures showTrendline && |points| > 1 ==>
              forall i :: 0 <= i < |points| ==> points[i].trendline == Some(Fitted(AvgScores(points), i))
    ensures showTrendline && |points| <= 1 ==>
              forall i :: 0 <= i < |points| ==> points[i].trendline == Some(0.0)
    ensures !showTrendline ==> forall i :: 0 <= i < |points| ==> points[i].trendline.None?
    ensures !showAverage ==> forall i :: 0 <= i < |points| ==> points[i].overallAverage.None?
    ensures showAverage && |points| > 0 ==>
              forall i :: 0 <= i < |points| ==>
                points[i].overallAverage == Some(Finite(Mean(AvgScores(points))))
  {
    var chartData := SelectInput(data, vibeData);
    var filtered := FilterWindow(chartData, days, now);
    var daily := DailyAverages(filtered);
    points := PlotDaily(daily, showAverage, showTrendline);
    assert |points| == |Summaries(points)| == |daily|;
  }
}
