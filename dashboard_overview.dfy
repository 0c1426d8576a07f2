/** The dashboard overview: four headline metrics taken from the most recent
    saved calculation, a period selector that fixes the length and labels of
    the chart series, and the K/M abbreviation of large numbers. */
module DashboardOverview {
  import opened JsValues
  import opened Text
  import SavedCalculations

  datatype Period = Today | Week | Month | Year

  datatype Trend = Up | Down

  /** `MetricData`. */
  datatype Metric = Metric(value: Number, change: real, trend: Trend)

  /** `OverviewData`. */
  datatype OverviewData = OverviewData(earnings: Metric, pageViews: Metric, ctr: Metric, rpm: Metric)

  /** The state before anything is loaded: every metric zero, unchanged, up. */
  const Initial := OverviewData(
    Metric(Num(0.0), 0.0, Up), Metric(Num(0.0), 0.0, Up),
    Metric(Num(0.0), 0.0, Up), Metric(Num(0.0), 0.0, Up))

  /** A metric's arrow points up exactly when its change is not negative. */
  predicate TrendAgrees(m: Metric) {
    m.trend == Up <==> m.change >= 0.0
  }

  predicate TrendsAgree(d: OverviewData) {
    TrendAgrees(d.earnings) && TrendAgrees(d.pageViews) && TrendAgrees(d.ctr) && TrendAgrees(d.rpm)
  }

  /** The metrics of one saved calculation: its monthly earnings, thirty
      days of its daily page views, its click-through rate and its rpm,
      with the fixed changes the overview displays. */
  function FromLatest(latest: SavedCalculations.SavedCalculation): (d: OverviewData)
    ensures d.earnings.value == Num(latest.results.monthlyEarnings)
    ensures d.ctr.value == Num(latest.ctr) && d.rpm.value == Num(latest.results.rpm)
    ensures d.pageViews.value.NaN? <==> latest.pageViews.NaN?
    ensures latest.pageViews.Num? ==> Over(d.pageViews.value, 30.0) == latest.pageViews
    ensures TrendsAgree(d)
  {
    OverviewData(
      Metric(Num(latest.results.monthlyEarnings), 12.5, Up),
      Metric(Times(latest.pageViews, 30.0), 8.3, Up),
      Metric(Num(latest.ctr), -2.1, Down),
      Metric(Num(latest.results.rpm), 15.7, Up))
  }

  /** The loading step of the effect: a stored, non-empty list replaces the
      metrics with those of its first entry; otherwise they stay as they
      are. */
  function Loaded(stored: Option<seq<SavedCalculations.SavedCalculation>>, current: OverviewData): OverviewData {
    if stored.Some? && |stored.value| > 0 then FromLatest(stored.value[0]) else current
  }

  /** With a non-empty stored list the overview shows the first (latest)
      entry: its monthly earnings, ctr and rpm as they were saved, and a
      page-view figure that is thirty times the saved daily views (dividing
      by thirty gives those views back, NaN included). */
  lemma LoadedShowsLatest(stored: seq<SavedCalculations.SavedCalculation>, current: OverviewData)
    requires |stored| > 0
    ensures var d := Loaded(Some(stored), current);
      && d.earnings.value == Num(stored[0].results.monthlyEarnings)
      && d.ctr.value == Num(stored[0].ctr)
      && d.rpm.value == Num(stored[0].results.rpm)
      && (d.pageViews.value.NaN? <==> stored[0].pageViews.NaN?)
      && (stored[0].pageViews.Num? ==> Over(d.pageViews.value, 30.0) == stored[0].pageViews)
  {
    var d := Loaded(Some(stored), current);
    if stored[0].pageViews.Num? {
      assert d.pageViews.value.value == stored[0].pageViews.value * 30.0;
    }
  }

  /** An absent or empty list leaves the metrics unchanged, and loading the
      same storage twice is loading it once. */
  lemma LoadedKeepsOrReplaces(stored: Option<seq<SavedCalculations.SavedCalculation>>, current: OverviewData)
    ensures (stored.None? || stored.value == []) ==> Loaded(stored, current) == current
    ensures Loaded(stored, Loaded(stored, current)) == Loaded(stored, current)
    ensures TrendsAgree(current) ==> TrendsAgree(Loaded(stored, current))
  {
  }

  /** The number of chart points for a period: hours of a day, or days. */
  function SeriesLength(p: Period): (n: nat)
    ensures n > 0
  {
    match p
    case Today => 24
    case Week => 7
    case Month => 30
    case Year => 365
  }

  /** Different periods give series of different lengths, each longer than
      the one before. */
  lemma SeriesLengthIncreasing()
    ensures SeriesLength(Week) < SeriesLength(Today) < SeriesLength(Month) < SeriesLength(Year)
  {
  }

  /** The label of point `i`: the hour "i:00" for today, "Day i+1" for the
      other periods. */
  function SeriesName(p: Period, i: nat): string {
    if p == Today then NatToString(i) + ":00" else "Day " + NatToString(i + 1)
  }

  /** The `name`s of the generated chart data. */
  function SeriesNames(p: Period): (names: seq<string>)
    ensures |names| == SeriesLength(p)
  {
    seq(SeriesLength(p), i requires 0 <= i => SeriesName(p, i))
  }

  /** A label reads back as its point: the hour before ":00" for today, the
      day number (counting from one) after "Day " otherwise. */
  lemma SeriesNameReadsBack(p: Period, i: nat)
    ensures var name := SeriesName(p, i);
      if p == Today then
        && |name| > 3 && name[|name| - 3..] == ":00"
        && (forall k :: 0 <= k < |name| - 3 ==> '0' <= name[k] <= '9')
        && ParseDigits(name[..|name| - 3]) == i
      else
        && |name| > 4 && name[..4] == "Day "
        && (forall k :: 4 <= k < |name| ==> '0' <= name[k] <= '9')
        && ParseDigits(name[4..]) == i + 1
  {
    var name := SeriesName(p, i);
    if p == Today {
      var digits := NatToString(i);
      assert name[..|name| - 3] == digits;
      ParseNatToString(i);
    } else {
      var digits := NatToString(i + 1);
      assert name[4..] == digits;
      ParseNatToString(i + 1);
    }
  }

  /** No two points of a series share a label. */
  lemma SeriesNamesDistinct(p: Period)
    ensures var names := SeriesNames(p);
      forall i, j :: 0 <= i < j < |names| ==> names[i] != names[j]
  {
    var names := SeriesNames(p);
    forall i, j | 0 <= i < j < |names| ensures names[i] != names[j] {
      SeriesNameReadsBack(p, i);
      SeriesNameReadsBack(p, j);
    }
  }

  /** `formatNumber` without the digits: the figure shown and its suffix. */
  datatype Abbreviated = Abbreviated(scaled: Number, suffix: string)

  /** The divisor that a suffix stands for. */
  function Scale(suffix: string): real {
    if suffix == "M" then 1000000.0 else if suffix == "K" then 1000.0 else 1.0
  }

  /** `formatNumber`: millions from 1,000,000 up, thousands from 1000 up,
      the number itself below that (and for NaN, which no comparison
      admits). */
  function Abbreviate(num: Number): (a: Abbreviated)
    ensures a.suffix == "M" <==> num.Num? && num.value >= 1000000.0
    ensures a.suffix == "K" <==> num.Num? && 1000.0 <= num.value < 1000000.0
    ensures a.suffix == "" <==> num.NaN? || num.value < 1000.0
  {
    if num.Num? && num.value >= 1000000.0 then Abbreviated(Over(num, 1000000.0), "M")
    else if num.Num? && num.value >= 1000.0 then Abbreviated(Over(num, 1000.0), "K")
    else Abbreviated(num, "")
  }

  /** Multiplying the figure shown by what its suffix stands for gives the
      number back, and a suffixed figure is at least one (below a thousand
      for "K"): the largest suffix that keeps it so is chosen. */
  lemma AbbreviateRoundTrip(num: Number)
    ensures var a := Abbreviate(num);
      && Times(a.scaled, Scale(a.suffix)) == num
      && (a.suffix == "K" ==> 1.0 <= a.scaled.value < 1000.0)
      && (a.suffix == "M" ==> a.scaled.value >= 1.0)
      && (a.suffix == "" && num.Num? ==> a.scaled.value < 1000.0)
  {
    var a := Abbreviate(num);
    if num.Num? {
      assert a.scaled.value * Scale(a.suffix) == num.value;
    }
  }

  /** A larger number never gets a smaller suffix. */
  function SuffixRank(suffix: string): nat {
    if suffix == "M" then 2 else if suffix == "K" then 1 else 0
  }

  lemma AbbreviateMonotone(x: real, y: real)
    requires x <= y
    ensures SuffixRank(Abbreviate(Num(x)).suffix) <= SuffixRank(Abbreviate(Num(y)).suffix)
  {
  }

  /** The component's state: the selected period, the metrics, the labels
      of the chart series (its random values are not modelled) and the
      "adsense-saved-calculations" entry of local storage. */
  class Overview {
    var period: Period
    var data: OverviewData
    var chartNames: seq<string>
    var stored: Option<seq<SavedCalculations.SavedCalculation>>

    predicate Valid()
      reads this
    {
      TrendsAgree(data)
    }

    constructor (storage: Option<seq<SavedCalculations.SavedCalculation>>)
      ensures period == Month && data == Initial && chartNames == [] && stored == storage
      ensures Valid()
    {
      period, data, chartNames, stored := Month, Initial, [], storage;
    }

    /** The effect: load the latest saved calculation, then generate the
        series for the current period. */
    method Refresh()
      requires Valid()
      modifies this`data, this`chartNames
      ensures data == Loaded(stored, old(data))
      ensures chartNames == SeriesNames(period)
      ensures Valid()
    {
      if stored.Some? && |stored.value| > 0 {
        data := FromLatest(stored.value[0]);
      }
      chartNames := SeriesNames(period);
    }

    /** Choosing a period re-runs the effect. */
    method SetPeriod(p: Period)
      requires Valid()
      modifies this`period, this`data, this`chartNames
      ensures period == p
      ensures data == Loaded(stored, old(data))
      ensures chartNames == SeriesNames(p) && |chartNames| == SeriesLength(p)
      ensures Valid()
    {
      period := p;
      Refresh();
    }

    /** The page-view card: the abbreviated page-view metric. */
    function PageViewsCard(): (a: Abbreviated)
      reads this
      ensures Times(a.scaled, Scale(a.suffix)) == data.pageViews.value
    {
      AbbreviateRoundTrip(data.pageViews.value);
      Abbreviate(data.pageViews.value)
    }
  }
}
