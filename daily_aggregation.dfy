/**
 * The dashboard's daily aggregation: hourly samples, given as parallel
 * arrays, are grouped by the calendar date in front of the `T` of their
 * timestamp; each day gets its count, its temperature extremes, its
 * precipitation total and the means of its readings; the days are sorted by
 * date; and a second reduction summarises all days.
 */
module DailyAggregation {
  import opened Options
  import opened Series

  /** `HistoricalWeatherData`: parallel arrays, one entry per sample. */
  datatype HistoricalWeatherData = HistoricalWeatherData(
    time: seq<string>,
    temperature2m: seq<real>,
    humidity: seq<real>,
    windSpeed: seq<real>,
    shortwaveRadiation: seq<real>,
    precipitation: seq<real>)

  /** Every reading array has one entry per timestamp. */
  predicate Aligned(d: HistoricalWeatherData) {
    && |d.temperature2m| == |d.time|
    && |d.humidity| == |d.time|
    && |d.windSpeed| == |d.time|
    && |d.shortwaveRadiation| == |d.time|
    && |d.precipitation| == |d.time|
  }

  /**
   * The running record of one day while the samples are read: the readings
   * whose means are taken later (`avgTemp`, `avgHumidity`, `avgWindSpeed`,
   * `avgRadiation` in the source), the running extremes (`None` standing for
   * the initial -Infinity and +Infinity), the running precipitation total and
   * the count.
   */
  datatype DayAcc = DayAcc(
    date: string,
    temps: seq<real>,
    maxTemp: Option<real>,
    minTemp: Option<real>,
    humidities: seq<real>,
    windSpeeds: seq<real>,
    totalPrecipitation: real,
    radiations: seq<real>,
    dataPoints: nat)

  /** One day of the output (`dateLabel`, a display string, is left out). */
  datatype DailySummary = DailySummary(
    date: string,
    avgTemp: real,
    maxTemp: real,
    minTemp: real,
    avgHumidity: real,
    avgWindSpeed: real,
    totalPrecipitation: real,
    avgRadiation: real)

  /** The overall statistics of the days. */
  datatype OverallStats = OverallStats(
    avgTemp: real,
    maxTemp: real,
    minTemp: real,
    avgHumidity: real,
    avgWindSpeed: real,
    totalPrecipitation: real,
    avgRadiation: real,
    maxRadiation: real)

  /* ---------- grouping key ---------- */

  /** `t.split('T')[0]`: the longest prefix of `t` without a `T`. */
  function DateKey(t: string): (k: string)
    ensures k <= t
    ensures forall i :: 0 <= i < |k| ==> k[i] != 'T'
    ensures |k| < |t| ==> t[|k|] == 'T'
  {
    if t == [] || t[0] == 'T' then [] else [t[0]] + DateKey(t[1..])
  }

  /** The date part of an ISO timestamp `date + "T" + clock` is `date`. */
  lemma {:induction false} DateKeyOfStamp(date: string, clock: string)
    requires forall i :: 0 <= i < |date| ==> date[i] != 'T'
    ensures DateKey(date + "T" + clock) == date
  {
    if date != [] {
      assert (date + "T" + clock)[1..] == date[1..] + "T" + clock;
      DateKeyOfStamp(date[1..], clock);
    }
  }

  /* ---------- the reference definition of a day ---------- */

  /** How many of the first `n` samples fall on day `k`. */
  function CountKey(time: seq<string>, k: string, n: nat): nat
    requires n <= |time|
  {
    if n == 0 then 0
    else CountKey(time, k, n - 1) + (if DateKey(time[n - 1]) == k then 1 else 0)
  }

  /** The entries of column `xs` among the first `n` samples that fall on day `k`, in sample order. */
  function DayValues(xs: seq<real>, time: seq<string>, k: string, n: nat): (r: seq<real>)
    requires n <= |xs| && n <= |time|
    ensures |r| == CountKey(time, k, n)
  {
    if n == 0 then []
    else DayValues(xs, time, k, n - 1) + (if DateKey(time[n - 1]) == k then [xs[n - 1]] else [])
  }

  /**
   * The distinct days of the first `n` samples in order of first appearance:
   * the iteration order of the source's `Map`.
   */
  function KeysInOrder(time: seq<string>, n: nat): (ks: seq<string>)
    requires n <= |time|
    ensures forall k :: k in ks <==> CountKey(time, k, n) > 0
    ensures forall i, j :: 0 <= i < j < |ks| ==> ks[i] != ks[j]
  {
    if n == 0 then []
    else
      var ks := KeysInOrder(time, n - 1);
      if DateKey(time[n - 1]) in ks then ks else ks + [DateKey(time[n - 1])]
  }

  /**
   * What the accumulator of day `k` holds after the first `n` samples: exactly
   * that day's readings, their total and count, and their extremes.
   */
  predicate Holds(a: DayAcc, d: HistoricalWeatherData, k: string, n: nat)
    requires Aligned(d) && n <= |d.time|
  {
    var temps := DayValues(d.temperature2m, d.time, k, n);
    && a.date == k
    && a.temps == temps
    && a.humidities == DayValues(d.humidity, d.time, k, n)
    && a.windSpeeds == DayValues(d.windSpeed, d.time, k, n)
    && a.radiations == DayValues(d.shortwaveRadiation, d.time, k, n)
    && a.totalPrecipitation == Sum(DayValues(d.precipitation, d.time, k, n))
    && a.dataPoints == CountKey(d.time, k, n)
    && (temps == [] ==> a.maxTemp.None? && a.minTemp.None?)
    && (temps != [] ==> a.maxTemp == Some(Max(temps)) && a.minTemp == Some(Min(temps)))
  }

  /** The summary of day `k` straight from the samples of that day. */
  function DayOf(d: HistoricalWeatherData, k: string): (r: DailySummary)
    requires Aligned(d) && CountKey(d.time, k, |d.time|) > 0
    ensures r.date == k
    ensures r.minTemp <= r.avgTemp <= r.maxTemp
  {
    var n := |d.time|;
    var temps := DayValues(d.temperature2m, d.time, k, n);
    DailySummary(k, Mean(temps), Max(temps), Min(temps),
                 Mean(DayValues(d.humidity, d.time, k, n)),
                 Mean(DayValues(d.windSpeed, d.time, k, n)),
                 Sum(DayValues(d.precipitation, d.time, k, n)),
                 Mean(DayValues(d.shortwaveRadiation, d.time, k, n)))
  }

  /* ---------- the grouping pass ---------- */

  /** A day seen for the first time: exact for that day as long as none of its samples has been taken. */
  function NewDay(date: string): (a: DayAcc)
    ensures forall d: HistoricalWeatherData, n: nat ::
      Aligned(d) && n <= |d.time| && CountKey(d.time, date, n) == 0 ==> Holds(a, d, date, n)
  {
    DayAcc(date, [], None, None, [], [], 0.0, [], 0)
  }

  /** `Math.max(running, t)` with `None` standing for -Infinity. */
  function RaiseMax(running: Option<real>, t: real): real {
    if running.None? then t else Larger(running.value, t)
  }

  /** `Math.min(running, t)` with `None` standing for +Infinity. */
  function LowerMin(running: Option<real>, t: real): real {
    if running.None? then t else Smaller(running.value, t)
  }

  /** Sum of the day counts of the days `ks`. */
  function TotalPoints(dayMap: map<string, DayAcc>, ks: seq<string>): nat
    requires forall k :: k in ks ==> k in dayMap
  {
    if ks == [] then 0 else TotalPoints(dayMap, ks[..|ks| - 1]) + dayMap[ks[|ks| - 1]].dataPoints
  }

  /**
   * The map after the first `n` samples: one exact accumulator for each day
   * seen so far, and the days in the order they were first seen.
   */
  ghost predicate Grouped(dayMap: map<string, DayAcc>, order: seq<string>, d: HistoricalWeatherData, n: nat)
    requires Aligned(d) && n <= |d.time|
  {
    && order == KeysInOrder(d.time, n)
    && (forall k :: k in dayMap <==> k in order)
    && (forall k :: k in dayMap ==> Holds(dayMap[k], d, k, n))
  }

  /**
   * The `forEach` over the samples: a day is added to the map the first time
   * it is seen, then its accumulator takes the sample. Afterwards every day
   * of the data has exactly its own samples, and the counts add up to the
   * number of samples.
   */
  method GroupByDay(d: HistoricalWeatherData) returns (dayMap: map<string, DayAcc>, order: seq<string>)
    requires Aligned(d)
    ensures order == KeysInOrder(d.time, |d.time|)
    ensures forall k :: k in dayMap <==> k in order
    ensures forall k :: k in dayMap ==> CountKey(d.time, k, |d.time|) > 0 && Holds(dayMap[k], d, k, |d.time|)
    ensures TotalPoints(dayMap, order) == |d.time|
  {
    dayMap := map[];
    order := [];
    var idx := 0;
    while idx < |d.time|
      invariant idx <= |d.time|
      invariant Grouped(dayMap, order, d, idx)
    {
      dayMap, order := AddSample(dayMap, order, d, idx);
      idx := idx + 1;
    }
    GroupedCounts(dayMap, order, d);
  }

  /** Once all samples are grouped, every day has samples and the counts add up to their number. */
  lemma GroupedCounts(dayMap: map<string, DayAcc>, order: seq<string>, d: HistoricalWeatherData)
    requires Aligned(d) && Grouped(dayMap, order, d, |d.time|)
    ensures forall k :: k in dayMap ==> CountKey(d.time, k, |d.time|) > 0
    ensures TotalPoints(dayMap, order) == |d.time|
  {
    PointsAreCounts(d, dayMap, order);
    CountsCoverSamples(d.time, |d.time|);
  }

  /** The body of the `forEach`: sample `idx` goes to the accumulator of its day. */
  method AddSample(dayMap: map<string, DayAcc>, order: seq<string>, d: HistoricalWeatherData, idx: nat)
    returns (dayMap': map<string, DayAcc>, order': seq<string>)
    requires Aligned(d) && idx < |d.time| && Grouped(dayMap, order, d, idx)
    ensures Grouped(dayMap', order', d, idx + 1)
  {
    var date := DateKey(d.time[idx]);
    dayMap', order' := dayMap, order;
    if date !in dayMap' {
      dayMap', order' := OpenDay(dayMap', order', d, idx);
    }
    dayMap' := TakeSample(dayMap', d, idx);
  }

  /** A day seen for the first time gets a fresh accumulator and its place in the order. */
  method OpenDay(dayMap: map<string, DayAcc>, order: seq<string>, d: HistoricalWeatherData, idx: nat)
    returns (dayMap': map<string, DayAcc>, order': seq<string>)
    requires Aligned(d) && idx < |d.time| && Grouped(dayMap, order, d, idx)
    requires DateKey(d.time[idx]) !in dayMap
    ensures dayMap' == dayMap[DateKey(d.time[idx]) := NewDay(DateKey(d.time[idx]))]
    ensures order' == KeysInOrder(d.time, idx + 1)
    ensures forall k :: k in dayMap' <==> k in order'
    ensures forall k :: k in dayMap' ==> Holds(dayMap'[k], d, k, idx)
  {
    var date := DateKey(d.time[idx]);
    dayMap' := dayMap[date := NewDay(date)];
    order' := order + [date];
  }

  /** The accumulator of the sample's day takes the sample. */
  method TakeSample(dayMap: map<string, DayAcc>, d: HistoricalWeatherData, idx: nat)
    returns (dayMap': map<string, DayAcc>)
    requires Aligned(d) && idx < |d.time| && DateKey(d.time[idx]) in dayMap
    requires forall k :: k in dayMap ==> Holds(dayMap[k], d, k, idx)
    ensures dayMap'.Keys == dayMap.Keys
    ensures forall k :: k in dayMap' ==> Holds(dayMap'[k], d, k, idx + 1)
  {
    var date := DateKey(d.time[idx]);
    var day := Take(dayMap[date], d, idx);
    dayMap' := dayMap[date := day];
    forall k | k in dayMap'
      ensures Holds(dayMap'[k], d, k, idx + 1)
    {
      TakeHolds(dayMap[k], d, k, idx);
    }
  }

  /**
   * One sample taken into a day's accumulator: its readings appended, the
   * extremes moved, the precipitation added and the count raised.
   */
  function Take(a: DayAcc, d: HistoricalWeatherData, idx: nat): (r: DayAcc)
    requires Aligned(d) && idx < |d.time|
    ensures r.date == a.date && r.dataPoints == a.dataPoints + 1
    ensures |r.temps| == |a.temps| + 1 && r.temps[..|a.temps|] == a.temps
    ensures r.maxTemp.Some? && r.minTemp.Some?
    ensures r.minTemp.value <= d.temperature2m[idx] <= r.maxTemp.value
    ensures a.maxTemp.Some? ==> a.maxTemp.value <= r.maxTemp.value
    ensures a.minTemp.Some? ==> r.minTemp.value <= a.minTemp.value
  {
    var temp := d.temperature2m[idx];
    a.(temps := a.temps + [temp],
       maxTemp := Some(RaiseMax(a.maxTemp, temp)),
       minTemp := Some(LowerMin(a.minTemp, temp)),
       humidities := a.humidities + [d.humidity[idx]],
       windSpeeds := a.windSpeeds + [d.windSpeed[idx]],
       totalPrecipitation := a.totalPrecipitation + d.precipitation[idx],
       radiations := a.radiations + [d.shortwaveRadiation[idx]],
       dataPoints := a.dataPoints + 1)
  }

  /**
   * Taking sample `n` into the accumulator of its own day, and leaving every
   * other day's accumulator alone, keeps each accumulator exact.
   */
  lemma TakeHolds(a: DayAcc, d: HistoricalWeatherData, k: string, n: nat)
    requires Aligned(d) && n < |d.time| && Holds(a, d, k, n)
    ensures DateKey(d.time[n]) == k ==> Holds(Take(a, d, n), d, k, n + 1)
    ensures DateKey(d.time[n]) != k ==> Holds(a, d, k, n + 1)
  {
    var temps := DayValues(d.temperature2m, d.time, k, n);
    var ps := DayValues(d.precipitation, d.time, k, n);
    if DateKey(d.time[n]) == k {
      var temp := d.temperature2m[n];
      var temps' := temps + [temp];
      assert DayValues(d.temperature2m, d.time, k, n + 1) == temps';
      if temps != [] {
        assert temps'[..|temps|] == temps;
        assert Max(temps') == Larger(Max(temps), temp);
        assert Min(temps') == Smaller(Min(temps), temp);
      }
      var ps' := ps + [d.precipitation[n]];
      assert DayValues(d.precipitation, d.time, k, n + 1) == ps';
      assert ps'[..|ps|] == ps;
      assert Sum(ps') == Sum(ps) + d.precipitation[n];
    } else {
      assert DayValues(d.temperature2m, d.time, k, n + 1) == temps;
      assert DayValues(d.precipitation, d.time, k, n + 1) == ps;
    }
  }

  /** The map's counts, summed over `ks`, are the counts of the reference definition. */
  lemma {:induction false} PointsAreCounts(d: HistoricalWeatherData, dayMap: map<string, DayAcc>, ks: seq<string>)
    requires Aligned(d)
    requires forall k :: k in ks ==> k in dayMap && Holds(dayMap[k], d, k, |d.time|)
    ensures TotalPoints(dayMap, ks) == SumCounts(d.time, ks, |d.time|)
  {
    if ks != [] {
      PointsAreCounts(d, dayMap, ks[..|ks| - 1]);
    }
  }

  /** The counts of the days `ks` among the first `n` samples, added up. */
  function SumCounts(time: seq<string>, ks: seq<string>, n: nat): nat
    requires n <= |time|
  {
    if ks == [] then 0 else SumCounts(time, ks[..|ks| - 1], n) + CountKey(time, ks[|ks| - 1], n)
  }

  /** One more sample adds one to the count of its day, if that day is among `ks` (once). */
  lemma {:induction false} SumCountsStep(time: seq<string>, ks: seq<string>, n: nat)
    requires n < |time|
    requires forall i, j :: 0 <= i < j < |ks| ==> ks[i] != ks[j]
    ensures SumCounts(time, ks, n + 1) == SumCounts(time, ks, n) + (if DateKey(time[n]) in ks then 1 else 0)
  {
    if ks != [] {
      var init := ks[..|ks| - 1];
      SumCountsStep(time, init, n);
      assert DateKey(time[n]) in ks <==> DateKey(time[n]) in init || DateKey(time[n]) == ks[|ks| - 1];
      if DateKey(time[n]) == ks[|ks| - 1] {
        assert DateKey(time[n]) !in init;
      }
    }
  }

  /** The counts of all distinct days add up to the number of samples. */
  lemma {:induction false} CountsCoverSamples(time: seq<string>, n: nat)
    requires n <= |time|
    ensures SumCounts(time, KeysInOrder(time, n), n) == n
  {
    if n > 0 {
      var m := n - 1;
      CountsCoverSamples(time, m);
      CountsStep(time, m);
      assert m + 1 == n;
    }
  }

  /** Sample `n` raises the total of the counts by one. */
  lemma CountsStep(time: seq<string>, n: nat)
    requires n < |time| && SumCounts(time, KeysInOrder(time, n), n) == n
    ensures SumCounts(time, KeysInOrder(time, n + 1), n + 1) == n + 1
  {
    var ks := KeysInOrder(time, n);
    var key := DateKey(time[n]);
    SumCountsStep(time, ks, n);
    if key !in ks {
      var ks' := ks + [key];
      assert KeysInOrder(time, n + 1) == ks';
      assert ks'[..|ks'| - 1] == ks;
      assert CountKey(time, key, n + 1) == 1;
    }
  }

  /* ---------- finishing, sorting ---------- */

  /** The per-day record built from a finished accumulator (`toFixed(1)` rounding is left out). */
  function Finish(a: DayAcc): (r: DailySummary)
    requires a.temps != [] && a.humidities != [] && a.windSpeeds != [] && a.radiations != []
    requires a.maxTemp.Some? && a.minTemp.Some?
    ensures r.date == a.date && r.totalPrecipitation == a.totalPrecipitation
    ensures Min(a.temps) <= r.avgTemp <= Max(a.temps)
    ensures Min(a.humidities) <= r.avgHumidity <= Max(a.humidities)
    ensures Min(a.windSpeeds) <= r.avgWindSpeed <= Max(a.windSpeeds)
    ensures Min(a.radiations) <= r.avgRadiation <= Max(a.radiations)
  {
    DailySummary(a.date, Mean(a.temps), a.maxTemp.value, a.minTemp.value,
                 Mean(a.humidities), Mean(a.windSpeeds), a.totalPrecipitation, Mean(a.radiations))
  }

  /** A finished accumulator gives the reference summary of its day. */
  lemma FinishIsDayOf(d: HistoricalWeatherData, a: DayAcc, k: string)
    requires Aligned(d) && CountKey(d.time, k, |d.time|) > 0 && Holds(a, d, k, |d.time|)
    ensures a.temps != [] && a.humidities != [] && a.windSpeeds != [] && a.radiations != []
    ensures a.maxTemp.Some? && a.minTemp.Some?
    ensures Finish(a) == DayOf(d, k)
  {
  }

  /** Strict lexicographic order of strings; on `YYYY-MM-DD` dates it is calendar order. */
  predicate Before(a: string, b: string) {
    if a == [] then b != []
    else if b == [] then false
    else a[0] < b[0] || (a[0] == b[0] && Before(a[1..], b[1..]))
  }

  /** `a` is `b` or comes before it. */
  predicate AtMost(a: string, b: string) {
    a == b || Before(a, b)
  }

  lemma {:induction false} BeforeIrreflexive(a: string)
    ensures !Before(a, a)
  {
    if a != [] {
      BeforeIrreflexive(a[1..]);
    }
  }

  lemma {:induction false} BeforeTotal(a: string, b: string)
    ensures a == b || Before(a, b) || Before(b, a)
  {
    if a != [] && b != [] && a[0] == b[0] {
      BeforeTotal(a[1..], b[1..]);
      if a[1..] == b[1..] {
        assert a == [a[0]] + a[1..] && b == [b[0]] + b[1..];
      }
    }
  }

  lemma {:induction false} BeforeTransitive(a: string, b: string, c: string)
    requires Before(a, b) && Before(b, c)
    ensures Before(a, c)
  {
    if a != [] && a[0] == b[0] && b[0] == c[0] {
      BeforeTransitive(a[1..], b[1..], c[1..]);
    }
  }

  lemma AtMostTransitive(a: string, b: string, c: string)
    requires AtMost(a, b) && AtMost(b, c)
    ensures AtMost(a, c)
  {
    if a != b && b != c {
      BeforeTransitive(a, b, c);
    }
  }

  /** No day comes after a later one. */
  predicate Sorted(days: seq<DailySummary>) {
    forall i, j :: 0 <= i < j < |days| ==> AtMost(days[i].date, days[j].date)
  }

  predicate DistinctDates(days: seq<DailySummary>) {
    forall i, j :: 0 <= i < j < |days| ==> days[i].date != days[j].date
  }

  /** Inserting `x` before the first day that is not earlier than it. */
  function Insert(x: DailySummary, days: seq<DailySummary>): (r: seq<DailySummary>)
    ensures multiset(r) == multiset(days) + multiset{x}
    ensures |r| == |days| + 1
  {
    if days == [] then [x]
    else if AtMost(x.date, days[0].date) then [x] + days
    else
      assert days == [days[0]] + days[1..];
      [days[0]] + Insert(x, days[1..])
  }

  lemma {:induction false} InsertKeepsOrder(x: DailySummary, days: seq<DailySummary>)
    requires Sorted(days)
    ensures Sorted(Insert(x, days))
  {
    if days != [] {
      if AtMost(x.date, days[0].date) {
        InsertInFront(x, days);
      } else {
        InsertKeepsOrder(x, days[1..]);
        InsertBehind(x, days);
      }
    }
  }

  /** `x` goes in front of a sorted list whose first day is not earlier than it. */
  lemma InsertInFront(x: DailySummary, days: seq<DailySummary>)
    requires Sorted(days) && days != [] && AtMost(x.date, days[0].date)
    ensures Sorted([x] + days)
  {
    var r := [x] + days;
    forall j | 1 <= j < |r| ensures AtMost(x.date, r[j].date) {
      if j > 1 { AtMostTransitive(x.date, days[0].date, days[j - 1].date); }
    }
  }

  /** A first day earlier than `x` stays in front of the sorted rest with `x` inserted. */
  lemma InsertBehind(x: DailySummary, days: seq<DailySummary>)
    requires Sorted(days) && days != [] && !AtMost(x.date, days[0].date)
    requires Sorted(Insert(x, days[1..]))
    ensures Sorted(Insert(x, days))
  {
    BeforeTotal(x.date, days[0].date);
    var rest := Insert(x, days[1..]);
    assert Insert(x, days) == [days[0]] + rest;
    forall j | 0 <= j < |rest| ensures AtMost(days[0].date, rest[j].date) {
      assert rest[j] in multiset(rest);
      assert rest[j] == x || rest[j] in days[1..];
    }
  }

  /**
   * The `sort` of the days by date: a sorted permutation of its input.
   * With distinct dates the sorted order is unique, so any sorting
   * algorithm yields this sequence.
   */
  function SortByDate(days: seq<DailySummary>): (r: seq<DailySummary>)
    ensures multiset(r) == multiset(days)
    ensures |r| == |days|
    ensures Sorted(r)
  {
    if days == [] then []
    else
      assert days == [days[0]] + days[1..];
      InsertKeepsOrder(days[0], SortByDate(days[1..]));
      Insert(days[0], SortByDate(days[1..]))
  }

  /** The dates of the days, in order. */
  function Dates(days: seq<DailySummary>): (r: seq<string>)
    ensures |r| == |days| && forall i :: 0 <= i < |days| ==> r[i] == days[i].date
  {
    seq(|days|, i requires 0 <= i < |days| => days[i].date)
  }

  /* ---------- dailyData ---------- */

  /**
   * `days` is the daily view of `d`: each entry is the reference summary of
   * a day of the samples, every day of the samples has an entry, and the
   * dates strictly increase (so no day appears twice).
   */
  ghost predicate Summarises(d: HistoricalWeatherData, days: seq<DailySummary>) {
    && Aligned(d)
    && (forall i :: 0 <= i < |days| ==>
          CountKey(d.time, days[i].date, |d.time|) > 0 && days[i] == DayOf(d, days[i].date))
    && (forall k :: k in Dates(days) <==> CountKey(d.time, k, |d.time|) > 0)
    && (forall i, j :: 0 <= i < j < |days| ==> Before(days[i].date, days[j].date))
  }

  /**
   * `dailyData`: nothing for absent or empty data; otherwise exactly one
   * summary per distinct day of the samples, each the reference summary of
   * its day, in strictly increasing date order.
   */
  method DailyData(data: Option<HistoricalWeatherData>) returns (days: seq<DailySummary>)
    requires data.Some? ==> Aligned(data.value)
    ensures data.None? || data.value.time == [] ==> days == []
    ensures data.Some? ==> Summarises(data.value, days)
    ensures data.Some? ==> |days| == |KeysInOrder(data.value.time, |data.value.time|)|
  {
    if data.None? || |data.value.time| == 0 {
      return [];
    }
    var d := data.value;
    var dayMap, order := GroupByDay(d);
    var summaries := FinishDays(d, dayMap, order);
    days := SortByDate(summaries);
    SortedSummaries(d, order, summaries, days);
  }

  /** The sorted summaries of all the days of `d`, one per day, describe `d`. */
  lemma SortedSummaries(d: HistoricalWeatherData, order: seq<string>, summaries: seq<DailySummary>, days: seq<DailySummary>)
    requires Aligned(d) && order == KeysInOrder(d.time, |d.time|) && |summaries| == |order|
    requires forall i :: 0 <= i < |order| ==>
      CountKey(d.time, order[i], |d.time|) > 0 && summaries[i] == DayOf(d, order[i])
    requires forall i :: 0 <= i < |order| ==> summaries[i].date == order[i]
    requires multiset(days) == multiset(summaries) && Sorted(days)
    ensures Summarises(d, days)
  {
    DaysAreReference(d, order, summaries, days);
    DaysCoverKeys(d, order, summaries, days);
    DaysStrictlyOrdered(order, summaries, days);
  }

  /** `Array.from(dailyMap.values()).map(...)`: each finished accumulator, in map order. */
  method FinishDays(d: HistoricalWeatherData, dayMap: map<string, DayAcc>, order: seq<string>)
    returns (summaries: seq<DailySummary>)
    requires Aligned(d) && order == KeysInOrder(d.time, |d.time|)
    requires forall k :: k in dayMap <==> k in order
    requires forall k :: k in dayMap ==> CountKey(d.time, k, |d.time|) > 0 && Holds(dayMap[k], d, k, |d.time|)
    ensures |summaries| == |order|
    ensures forall i :: 0 <= i < |order| ==>
      CountKey(d.time, order[i], |d.time|) > 0 && summaries[i] == DayOf(d, order[i])
    ensures forall i :: 0 <= i < |order| ==> summaries[i].date == order[i]
  {
    forall k | k in dayMap
      ensures Finish.requires(dayMap[k]) && Finish(dayMap[k]) == DayOf(d, k)
    {
      FinishIsDayOf(d, dayMap[k], k);
    }
    summaries := seq(|order|, i requires 0 <= i < |order| => Finish(dayMap[order[i]]));
  }

  /** Every sorted summary is the reference summary of a day of the data. */
  lemma DaysAreReference(d: HistoricalWeatherData, order: seq<string>, summaries: seq<DailySummary>, days: seq<DailySummary>)
    requires Aligned(d) && |summaries| == |order|
    requires forall i :: 0 <= i < |order| ==>
      CountKey(d.time, order[i], |d.time|) > 0 && summaries[i] == DayOf(d, order[i])
    requires multiset(days) == multiset(summaries)
    ensures forall i :: 0 <= i < |days| ==>
      CountKey(d.time, days[i].date, |d.time|) > 0 && days[i] == DayOf(d, days[i].date)
  {
    forall i | 0 <= i < |days|
      ensures CountKey(d.time, days[i].date, |d.time|) > 0 && days[i] == DayOf(d, days[i].date)
    {
      assert days[i] in multiset(summaries);
      var j :| 0 <= j < |order| && summaries[j] == days[i];
    }
  }

  /** The sorted summaries are those of exactly the days of the data. */
  lemma DaysCoverKeys(d: HistoricalWeatherData, order: seq<string>, summaries: seq<DailySummary>, days: seq<DailySummary>)
    requires Aligned(d) && order == KeysInOrder(d.time, |d.time|) && |summaries| == |order|
    requires forall i :: 0 <= i < |order| ==> summaries[i].date == order[i]
    requires multiset(days) == multiset(summaries)
    ensures forall k :: k in Dates(days) <==> CountKey(d.time, k, |d.time|) > 0
  {
    forall k | k in Dates(days) ensures CountKey(d.time, k, |d.time|) > 0 {
      var i :| 0 <= i < |days| && Dates(days)[i] == k;
      assert days[i] in multiset(summaries);
      var j :| 0 <= j < |order| && summaries[j] == days[i];
      assert order[j] == k;
    }
    forall k | CountKey(d.time, k, |d.time|) > 0 ensures k in Dates(days) {
      var j :| 0 <= j < |order| && order[j] == k;
      assert summaries[j] in multiset(days);
      var i :| 0 <= i < |days| && days[i] == summaries[j];
      assert Dates(days)[i] == k;
    }
  }

  /** Sorted summaries of distinct days come in strictly increasing date order. */
  lemma DaysStrictlyOrdered(order: seq<string>, summaries: seq<DailySummary>, days: seq<DailySummary>)
    requires |summaries| == |order|
    requires forall i, j :: 0 <= i < j < |order| ==> order[i] != order[j]
    requires forall i :: 0 <= i < |order| ==> summaries[i].date == order[i]
    requires multiset(days) == multiset(summaries) && Sorted(days)
    ensures forall i, j :: 0 <= i < j < |days| ==> Before(days[i].date, days[j].date)
  {
    forall i, j | 0 <= i < j < |days| ensures Before(days[i].date, days[j].date) {
      if days[i].date == days[j].date {
        assert days[i] in multiset(summaries) && days[j] in multiset(summaries);
        DuplicateInPermutation(summaries, days, i, j);
      }
    }
  }

  /** A permutation of a sequence with a repeated element has a repeated element too. */
  lemma DuplicateInPermutation(xs: seq<DailySummary>, ys: seq<DailySummary>, i: nat, j: nat)
    requires multiset(xs) == multiset(ys)
    requires i < j < |ys| && ys[i] == ys[j]
    ensures exists p, q :: 0 <= p < q < |xs| && xs[p] == xs[q]
  {
    var x := ys[i];
    assert ys == ys[..j] + [ys[j]] + ys[j + 1..];
    assert x in ys[..j];
    assert multiset(ys)[x] >= 2;
    assert multiset(xs)[x] >= 2;
    var p :| 0 <= p < |xs| && xs[p] == x;
    assert xs == xs[..p] + [xs[p]] + xs[p + 1..];
    assert multiset(xs[..p] + xs[p + 1..])[x] >= 1;
    assert x in xs[..p] + xs[p + 1..];
    if x in xs[..p] {
      var q :| 0 <= q < p && xs[q] == x;
      assert xs[q] == xs[p];
    } else {
      var q :| p < q < |xs| && xs[q] == x;
      assert xs[p] == xs[q];
    }
  }

  /* ---------- stats ---------- */

  /** `dailyData.map(d => d.avgTemp)`. */
  function AvgTemps(days: seq<DailySummary>): (r: seq<real>)
    ensures |r| == |days| && forall i :: 0 <= i < |days| ==> r[i] == days[i].avgTemp
  {
    seq(|days|, i requires 0 <= i < |days| => days[i].avgTemp)
  }

  /** `dailyData.map(d => d.maxTemp)`. */
  function MaxTemps(days: seq<DailySummary>): (r: seq<real>)
    ensures |r| == |days| && forall i :: 0 <= i < |days| ==> r[i] == days[i].maxTemp
  {
    seq(|days|, i requires 0 <= i < |days| => days[i].maxTemp)
  }

  /** `dailyData.map(d => d.minTemp)`. */
  function MinTemps(days: seq<DailySummary>): (r: seq<real>)
    ensures |r| == |days| && forall i :: 0 <= i < |days| ==> r[i] == days[i].minTemp
  {
    seq(|days|, i requires 0 <= i < |days| => days[i].minTemp)
  }

  /** `dailyData.map(d => d.avgHumidity)`. */
  function AvgHumidities(days: seq<DailySummary>): (r: seq<real>)
    ensures |r| == |days| && forall i :: 0 <= i < |days| ==> r[i] == days[i].avgHumidity
  {
    seq(|days|, i requires 0 <= i < |days| => days[i].avgHumidity)
  }

  /** `dailyData.map(d => d.avgWindSpeed)`. */
  function AvgWindSpeeds(days: seq<DailySummary>): (r: seq<real>)
    ensures |r| == |days| && forall i :: 0 <= i < |days| ==> r[i] == days[i].avgWindSpeed
  {
    seq(|days|, i requires 0 <= i < |days| => days[i].avgWindSpeed)
  }

  /** `dailyData.map(d => d.avgRadiation)`. */
  function AvgRadiations(days: seq<DailySummary>): (r: seq<real>)
    ensures |r| == |days| && forall i :: 0 <= i < |days| ==> r[i] == days[i].avgRadiation
  {
    seq(|days|, i requires 0 <= i < |days| => days[i].avgRadiation)
  }

  /** `dailyData.map(d => d.totalPrecipitation)`. */
  function Precipitations(days: seq<DailySummary>): (r: seq<real>)
    ensures |r| == |days| && forall i :: 0 <= i < |days| ==> r[i] == days[i].totalPrecipitation
  {
    seq(|days|, i requires 0 <= i < |days| => days[i].totalPrecipitation)
  }

  /**
   * `stats`: `null` when there are no days; otherwise the hottest daily
   * maximum, the coldest daily minimum and the strongest daily mean
   * radiation (each attained by some day), the precipitation total, and the
   * means of the daily means, each between the smallest and the largest
   * daily value (`toFixed(1)` formatting is left out).
   */
  function Stats(days: seq<DailySummary>): (r: Option<OverallStats>)
    ensures r.None? <==> days == []
    ensures r.Some? ==> forall i :: 0 <= i < |days| ==>
      && days[i].maxTemp <= r.value.maxTemp
      && r.value.minTemp <= days[i].minTemp
      && days[i].avgRadiation <= r.value.maxRadiation
    ensures r.Some? ==> exists i :: 0 <= i < |days| && days[i].maxTemp == r.value.maxTemp
    ensures r.Some? ==> exists i :: 0 <= i < |days| && days[i].minTemp == r.value.minTemp
    ensures r.Some? ==> exists i :: 0 <= i < |days| && days[i].avgRadiation == r.value.maxRadiation
    ensures r.Some? ==>
      exists i, j :: 0 <= i < |days| && 0 <= j < |days| && days[i].avgTemp <= r.value.avgTemp <= days[j].avgTemp
    ensures r.Some? ==>
      exists i, j :: 0 <= i < |days| && 0 <= j < |days|
        && days[i].avgHumidity <= r.value.avgHumidity <= days[j].avgHumidity
    ensures r.Some? ==>
      exists i, j :: 0 <= i < |days| && 0 <= j < |days|
        && days[i].avgWindSpeed <= r.value.avgWindSpeed <= days[j].avgWindSpeed
    ensures r.Some? ==>
      exists i :: 0 <= i < |days| && days[i].avgRadiation <= r.value.avgRadiation
    ensures r.Some? ==> r.value.avgRadiation <= r.value.maxRadiation
  {
    if days == [] then None
    else
      var radiation := AvgRadiations(days);
      Some(OverallStats(
        Mean(AvgTemps(days)),
        Max(MaxTemps(days)),
        Min(MinTemps(days)),
        Mean(AvgHumidities(days)),
        Mean(AvgWindSpeeds(days)),
        Sum(Precipitations(days)),
        Mean(radiation),
        Max(radiation)))
  }

  /** When every day's mean lies between its extremes, the overall mean lies between the overall extremes. */
  lemma OverallMeanWithinExtremes(days: seq<DailySummary>)
    requires days != []
    requires forall i :: 0 <= i < |days| ==> days[i].minTemp <= days[i].avgTemp <= days[i].maxTemp
    ensures Stats(days).value.minTemp <= Stats(days).value.avgTemp <= Stats(days).value.maxTemp
  {
    var r := Stats(days).value;
    var i, j :| 0 <= i < |days| && 0 <= j < |days| && days[i].avgTemp <= r.avgTemp <= days[j].avgTemp;
    assert r.minTemp <= days[i].minTemp;
    assert days[j].maxTemp <= r.maxTemp;
  }

  /* ---------- the overall figures against the samples ---------- */

  /** Every value of a day comes from the column, at a sample of that day. */
  lemma {:induction false} DayValueIsSample(xs: seq<real>, time: seq<string>, k: string, n: nat, x: real)
    requires n <= |xs| && n <= |time| && x in DayValues(xs, time, k, n)
    ensures exists j :: 0 <= j < n && DateKey(time[j]) == k && xs[j] == x
  {
    if x !in DayValues(xs, time, k, n - 1) {
      assert DateKey(time[n - 1]) == k && xs[n - 1] == x;
    } else {
      DayValueIsSample(xs, time, k, n - 1, x);
    }
  }

  /** Every sample of a day is among that day's values. */
  lemma {:induction false} SampleIsDayValue(xs: seq<real>, time: seq<string>, n: nat, j: nat)
    requires n <= |xs| && n <= |time| && j < n
    ensures xs[j] in DayValues(xs, time, DateKey(time[j]), n)
  {
    if j < n - 1 {
      SampleIsDayValue(xs, time, n - 1, j);
    }
  }

  /** The hottest daily maximum is the hottest sample. */
  lemma StatsMaxIsHottestSample(d: HistoricalWeatherData, days: seq<DailySummary>)
    requires Summarises(d, days) && d.time != []
    ensures days != [] && Stats(days).value.maxTemp == Max(d.temperature2m)
  {
    var top := Max(d.temperature2m);
    // no day is hotter than the hottest sample ...
    forall i | 0 <= i < |days| ensures days[i].maxTemp <= top {
      SamplesBoundDay(d, days[i].date);
    }
    // ... and the hottest sample lies in some day, whose maximum reaches it
    var j :| 0 <= j < |d.time| && d.temperature2m[j] == top;
    DayBoundsSample(d, days, j);
    PinnedMax(days, top);
  }

  /** The coldest daily minimum is the coldest sample. */
  lemma StatsMinIsColdestSample(d: HistoricalWeatherData, days: seq<DailySummary>)
    requires Summarises(d, days) && d.time != []
    ensures days != [] && Stats(days).value.minTemp == Min(d.temperature2m)
  {
    var bottom := Min(d.temperature2m);
    forall i | 0 <= i < |days| ensures bottom <= days[i].minTemp {
      SamplesBoundDay(d, days[i].date);
    }
    var j :| 0 <= j < |d.time| && d.temperature2m[j] == bottom;
    DayBoundsSample(d, days, j);
    PinnedMin(days, bottom);
  }

  /** A bound on the daily maxima that some day reaches is the overall maximum. */
  lemma PinnedMax(days: seq<DailySummary>, top: real)
    requires forall i :: 0 <= i < |days| ==> days[i].maxTemp <= top
    requires exists i :: 0 <= i < |days| && top <= days[i].maxTemp
    ensures days != [] && Stats(days).value.maxTemp == top
  {
  }

  /** A bound under the daily minima that some day reaches is the overall minimum. */
  lemma PinnedMin(days: seq<DailySummary>, bottom: real)
    requires forall i :: 0 <= i < |days| ==> bottom <= days[i].minTemp
    requires exists i :: 0 <= i < |days| && days[i].minTemp <= bottom
    ensures days != [] && Stats(days).value.minTemp == bottom
  {
  }

  /** A day's extremes are attained by samples, so they lie within the extremes of all samples. */
  lemma SamplesBoundDay(d: HistoricalWeatherData, k: string)
    requires Aligned(d) && CountKey(d.time, k, |d.time|) > 0
    ensures Min(d.temperature2m) <= DayOf(d, k).minTemp && DayOf(d, k).maxTemp <= Max(d.temperature2m)
  {
    var values := DayValues(d.temperature2m, d.time, k, |d.time|);
    assert Max(values) in values && Min(values) in values;
    DayValueIsSample(d.temperature2m, d.time, k, |d.time|, Max(values));
    DayValueIsSample(d.temperature2m, d.time, k, |d.time|, Min(values));
  }

  /** Each sample lies within the extremes of its own day, which is among the days. */
  lemma DayBoundsSample(d: HistoricalWeatherData, days: seq<DailySummary>, j: nat)
    requires Summarises(d, days) && j < |d.time|
    ensures exists i :: 0 <= i < |days| && days[i].minTemp <= d.temperature2m[j] <= days[i].maxTemp
  {
    var k := DateKey(d.time[j]);
    SampleIsDayValue(d.temperature2m, d.time, |d.time|, j);
    assert k in Dates(days);
    var i :| 0 <= i < |days| && Dates(days)[i] == k;
    assert days[i] == DayOf(d, k);
  }

  /** The day totals of column `xs` over the days `ks`, for the first `n` samples, added up. */
  function DayTotals(xs: seq<real>, time: seq<string>, ks: seq<string>, n: nat): real
    requires n <= |xs| && n <= |time|
  {
    if ks == [] then 0.0
    else DayTotals(xs, time, ks[..|ks| - 1], n) + Sum(DayValues(xs, time, ks[|ks| - 1], n))
  }

  /** One more sample adds its value to the total of its day, if that day is among `ks` (once). */
  lemma {:induction false} DayTotalsStep(xs: seq<real>, time: seq<string>, ks: seq<string>, n: nat)
    requires n < |xs| && n < |time|
    requires forall i, j :: 0 <= i < j < |ks| ==> ks[i] != ks[j]
    ensures DayTotals(xs, time, ks, n + 1)
         == DayTotals(xs, time, ks, n) + (if DateKey(time[n]) in ks then xs[n] else 0.0)
  {
    if ks != [] {
      var init := ks[..|ks| - 1];
      var last := ks[|ks| - 1];
      DayTotalsStep(xs, time, init, n);
      assert DateKey(time[n]) in ks <==> DateKey(time[n]) in init || DateKey(time[n]) == last;
      var vs := DayValues(xs, time, last, n);
      if DateKey(time[n]) == last {
        assert DateKey(time[n]) !in init;
        assert (vs + [xs[n]])[..|vs|] == vs;
        assert Sum(DayValues(xs, time, last, n + 1)) == Sum(vs) + xs[n];
      } else {
        assert DayValues(xs, time, last, n + 1) == vs;
      }
    }
  }

  /**
   * Over distinct days that take in every sample, the day totals of a column
   * add up to the column's total: grouping loses no sample and counts none twice.
   */
  lemma {:induction false} DayTotalsCoverColumn(xs: seq<real>, time: seq<string>, ks: seq<string>, n: nat)
    requires n <= |xs| && n <= |time|
    requires forall i, j :: 0 <= i < j < |ks| ==> ks[i] != ks[j]
    requires forall j :: 0 <= j < n ==> DateKey(time[j]) in ks
    ensures DayTotals(xs, time, ks, n) == Sum(xs[..n])
  {
    if n == 0 {
      DayTotalsEmpty(xs, time, ks);
      assert xs[..0] == [];
    } else {
      DayTotalsCoverColumn(xs, time, ks, n - 1);
      DayTotalsCoverStep(xs, time, ks, n - 1);
    }
  }

  /** A sample whose day is among `ks` moves the day totals exactly as it moves the column total. */
  lemma DayTotalsCoverStep(xs: seq<real>, time: seq<string>, ks: seq<string>, n: nat)
    requires n < |xs| && n < |time|
    requires forall i, j :: 0 <= i < j < |ks| ==> ks[i] != ks[j]
    requires DateKey(time[n]) in ks && DayTotals(xs, time, ks, n) == Sum(xs[..n])
    ensures DayTotals(xs, time, ks, n + 1) == Sum(xs[..n + 1])
  {
    DayTotalsStep(xs, time, ks, n);
    var prefix := xs[..n + 1];
    assert prefix[..n] == xs[..n];
    assert Sum(prefix) == Sum(xs[..n]) + xs[n];
  }

  /** Before any sample every day total is zero. */
  lemma {:induction false} DayTotalsEmpty(xs: seq<real>, time: seq<string>, ks: seq<string>)
    ensures DayTotals(xs, time, ks, 0) == 0.0
  {
    if ks != [] {
      DayTotalsEmpty(xs, time, ks[..|ks| - 1]);
    }
  }

  /** The precipitation column of reference summaries is the list of their day totals. */
  lemma {:induction false} PrecipitationsAreDayTotals(d: HistoricalWeatherData, days: seq<DailySummary>)
    requires Aligned(d)
    requires forall i :: 0 <= i < |days| ==>
      days[i].totalPrecipitation == Sum(DayValues(d.precipitation, d.time, days[i].date, |d.time|))
    ensures Sum(Precipitations(days)) == DayTotals(d.precipitation, d.time, Dates(days), |d.time|)
  {
    if days != [] {
      var init := days[..|days| - 1];
      PrecipitationsAreDayTotals(d, init);
      var ps := Precipitations(days);
      assert ps[..|days| - 1] == Precipitations(init);
      assert Dates(days)[..|days| - 1] == Dates(init);
      assert Sum(ps) == Sum(Precipitations(init)) + days[|days| - 1].totalPrecipitation;
    }
  }

  /** The overall precipitation total is the total of all samples. */
  lemma StatsTotalIsSampleTotal(d: HistoricalWeatherData, days: seq<DailySummary>)
    requires Summarises(d, days) && d.time != []
    ensures days != [] && Stats(days).value.totalPrecipitation == Sum(d.precipitation)
  {
    DayBoundsSample(d, days, 0);
    DailyTotalsCoverSamples(d, days);
    assert Stats(days).value.totalPrecipitation == Sum(Precipitations(days));
  }

  /** The daily precipitation totals of a daily view add up to the total of all samples. */
  lemma DailyTotalsCoverSamples(d: HistoricalWeatherData, days: seq<DailySummary>)
    requires Summarises(d, days)
    ensures Sum(Precipitations(days)) == Sum(d.precipitation)
  {
    var n := |d.time|;
    DatesPartitionSamples(d, days);
    DailyTotalsAreDayTotals(d, days);
    PrecipitationsAreDayTotals(d, days);
    DayTotalsCoverColumn(d.precipitation, d.time, Dates(days), n);
    assert d.precipitation[..n] == d.precipitation;
  }

  /** Each day of a daily view totals the precipitation of its own samples. */
  lemma DailyTotalsAreDayTotals(d: HistoricalWeatherData, days: seq<DailySummary>)
    requires Summarises(d, days)
    ensures forall i :: 0 <= i < |days| ==>
      days[i].totalPrecipitation == Sum(DayValues(d.precipitation, d.time, days[i].date, |d.time|))
  {
    forall i | 0 <= i < |days|
      ensures days[i].totalPrecipitation == Sum(DayValues(d.precipitation, d.time, days[i].date, |d.time|))
    {
      assert days[i] == DayOf(d, days[i].date);
    }
  }

  /** The dates of a daily view are distinct, and every sample falls on one of them. */
  lemma DatesPartitionSamples(d: HistoricalWeatherData, days: seq<DailySummary>)
    requires Summarises(d, days)
    ensures forall i, j :: 0 <= i < j < |days| ==> Dates(days)[i] != Dates(days)[j]
    ensures forall j :: 0 <= j < |d.time| ==> DateKey(d.time[j]) in Dates(days)
  {
    forall i, j | 0 <= i < j < |days| ensures Dates(days)[i] != Dates(days)[j] {
      BeforeIrreflexive(days[i].date);
    }
    forall j | 0 <= j < |d.time| ensures DateKey(d.time[j]) in Dates(days) {
      SampleIsDayValue(d.precipitation, d.time, |d.time|, j);
    }
  }
}
