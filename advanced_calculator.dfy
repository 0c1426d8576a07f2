/** The advanced AdSense revenue estimator: niche and geography CPC
    multipliers, the `results` estimate, the revenue pie split and the list
    of the last five saved calculations (stored under "adsense-calculations"). */
module AdvancedCalculator {
  import opened JsValues

  /** CPC multiplier per content niche. */
  const NicheMultipliers: map<string, real> := map[
    "finance" := 2.5, "insurance" := 2.8, "legal" := 3.2, "health" := 2.0,
    "technology" := 1.8, "travel" := 1.5, "lifestyle" := 1.2,
    "entertainment" := 1.0, "gaming" := 0.8, "general" := 1.0]

  /** CPC multiplier per visitor geography. */
  const GeoMultipliers: map<string, real> := map[
    "us" := 1.0, "uk" := 0.8, "ca" := 0.7, "au" := 0.6, "de" := 0.5,
    "fr" := 0.4, "in" := 0.2, "global" := 0.6]

  /** Every entry of either table is positive. */
  lemma TablesPositive()
    ensures forall k | k in NicheMultipliers :: NicheMultipliers[k] > 0.0
    ensures forall k | k in GeoMultipliers :: GeoMultipliers[k] > 0.0
  {
  }

  /** `TABLE[key] || 1`: an unknown key (undefined) and a zero entry give 1. */
  function Multiplier(table: map<string, real>, key: string): (m: real)
    ensures key !in table ==> m == 1.0
    ensures key in table && table[key] != 0.0 ==> m == table[key]
  {
    if key in table then OrElse(Num(table[key]), 1.0) else 1.0
  }

  /** The calculator's inputs. `pageViews` is the parse of the page-view text
      field; the other numbers come from sliders and are never NaN. */
  datatype Inputs = Inputs(
    pageViews: Number, ctr: real, cpc: real, niche: string, geography: string,
    adDensity: real, fillRate: real)

  /** The inputs after the `|| default` normalisation. */
  datatype Normalized = Normalized(
    views: real, clickRate: real, costPerClick: real,
    nicheMultiplier: real, geoMultiplier: real, density: real, fill: real)

  datatype CalculationResults = CalculationResults(
    dailyEarnings: real, monthlyEarnings: real, yearlyEarnings: real,
    dailyClicks: real, monthlyClicks: real, yearlyClicks: real,
    rpm: real, ecpm: real, impressions: real, fillRate: real)

  /** The normalisation at the top of `results`: unparseable or zero page
      views become 0, ad density 0 becomes 1, fill rate 0 becomes 85%. */
  function Normalize(i: Inputs): (n: Normalized)
    ensures n.views == (if Falsy(i.pageViews) then 0.0 else i.pageViews.value)
    ensures n.clickRate == i.ctr / 100.0 && n.costPerClick == i.cpc
    ensures n.density == (if i.adDensity == 0.0 then 1.0 else i.adDensity)
    ensures n.fill == (if i.fillRate == 0.0 then 0.85 else i.fillRate / 100.0)
    ensures n.density != 0.0 && n.fill != 0.0
    ensures n.nicheMultiplier > 0.0 && n.geoMultiplier > 0.0
    ensures i.niche !in NicheMultipliers ==> n.nicheMultiplier == 1.0
    ensures i.geography !in GeoMultipliers ==> n.geoMultiplier == 1.0
  {
    TablesPositive();
    Normalized(
      OrElse(i.pageViews, 0.0),
      OrElse(Num(i.ctr / 100.0), 0.0),
      OrElse(Num(i.cpc), 0.0),
      Multiplier(NicheMultipliers, i.niche),
      Multiplier(GeoMultipliers, i.geography),
      OrElse(Num(i.adDensity), 1.0),
      OrElse(Num(i.fillRate / 100.0), 0.85))
  }

  /** The CPC after both multipliers. */
  function AdjustedCpc(n: Normalized): real {
    n.costPerClick * n.nicheMultiplier * n.geoMultiplier
  }

  /** True when `results` returns null. */
  predicate Insufficient(n: Normalized) {
    n.views <= 0.0 || n.clickRate <= 0.0 || n.costPerClick <= 0.0
  }

  /** The `results` memo: null on insufficient input, otherwise the daily
      figures, their flat ×30 / ×365 projections, RPM and eCPM. */
  function Results(i: Inputs): (r: Option<CalculationResults>)
    ensures r.None? <==> Insufficient(Normalize(i))
    ensures r.Some? ==> r.value == Estimate(Normalize(i))
  {
    var n := Normalize(i);
    if Insufficient(n) then None
    else Some(Estimate(n))
  }

  /** The arithmetic of `results` once the guard has passed: impressions,
      clicks and earnings per day, their flat ×30 / ×365 projections, and RPM
      and eCPM in closed form. */
  function Estimate(n: Normalized): (r: CalculationResults)
    requires n.views > 0.0 && n.density != 0.0 && n.fill != 0.0
    ensures r.dailyEarnings == n.views * n.density * n.fill * n.clickRate * AdjustedCpc(n)
    ensures r.rpm == n.density * n.fill * n.clickRate * AdjustedCpc(n) * 1000.0
    ensures r.ecpm == n.clickRate * AdjustedCpc(n) * 1000.0
    ensures r.impressions == n.views * n.density * n.fill
    ensures r.monthlyEarnings == 30.0 * r.dailyEarnings && r.yearlyEarnings == 365.0 * r.dailyEarnings
    ensures r.monthlyClicks == 30.0 * r.dailyClicks && r.yearlyClicks == 365.0 * r.dailyClicks
    ensures r.fillRate == n.fill * 100.0
  {
    var adjustedCpc := AdjustedCpc(n);
    var impressions := n.views * n.density * n.fill;
    var dailyClicks := impressions * n.clickRate;
    var dailyEarnings := dailyClicks * adjustedCpc;
    RatiosCancel(n.views, n.density, n.fill, n.clickRate, adjustedCpc);
    CalculationResults(
      dailyEarnings, dailyEarnings * 30.0, dailyEarnings * 365.0,
      dailyClicks, dailyClicks * 30.0, dailyClicks * 365.0,
      (dailyEarnings / n.views) * 1000.0,
      (dailyEarnings / impressions) * 1000.0,
      impressions, n.fill * 100.0)
  }

  /** With e = v·d·f·c·a: e/v = d·f·c·a and e/(v·d·f) = c·a; in particular
      impressions = v·d·f is never zero once views are positive, because the
      defaults keep density and fill away from zero. */
  lemma RatiosCancel(v: real, d: real, f: real, c: real, a: real)
    requires v > 0.0 && d != 0.0 && f != 0.0
    ensures v * d * f != 0.0
    ensures (v * d * f * c * a) / v == d * f * c * a
    ensures (v * d * f * c * a) / (v * d * f) == c * a
  {
    var imp := v * d * f;
    assert v * d != 0.0;
    assert imp != 0.0;
    assert v * d * f * c * a == imp * (c * a);
    assert imp * (c * a) / imp == c * a;
    assert v * d * f * c * a == v * (d * f * c * a);
    assert v * (d * f * c * a) / v == d * f * c * a;
  }

  /** RPM is earnings per thousand page views and eCPM earnings per thousand
      impressions as computed, and neither division is by zero: the guard
      makes views positive, and impressions are non-zero with them. */
  lemma EstimateRatios(n: Normalized)
    requires n.views > 0.0 && n.density != 0.0 && n.fill != 0.0
    ensures Estimate(n).impressions != 0.0
    ensures Estimate(n).rpm == Estimate(n).dailyEarnings / n.views * 1000.0
    ensures Estimate(n).ecpm == Estimate(n).dailyEarnings / Estimate(n).impressions * 1000.0
  {
    var v, d, f, c, a := n.views, n.density, n.fill, n.clickRate, AdjustedCpc(n);
    RatiosCancel(v, d, f, c, a);
  }

  /** Null exactly when parsed views ≤ 0, ctr/100 ≤ 0 or cpc ≤ 0; text that
      does not parse counts as 0 views and so yields null. */
  lemma NullIffInsufficient(i: Inputs)
    ensures Results(i).None? <==>
      (Falsy(i.pageViews) || i.pageViews.value <= 0.0 || i.ctr <= 0.0 || i.cpc <= 0.0)
    ensures i.pageViews.NaN? ==> Results(i).None?
  {
  }

  /** Whenever a result exists the adjusted CPC is positive, and with a
      positive density and fill the daily earnings are positive too. */
  lemma AdjustedCpcPositive(i: Inputs)
    requires Results(i).Some?
    ensures AdjustedCpc(Normalize(i)) > 0.0
    ensures i.adDensity >= 0.0 && i.fillRate >= 0.0 ==> Results(i).value.dailyEarnings > 0.0
  {
    var n := Normalize(i);
    assert n.costPerClick * n.nicheMultiplier > 0.0;
    if i.adDensity >= 0.0 && i.fillRate >= 0.0 {
      assert n.density > 0.0 && n.fill > 0.0;
      assert n.views * n.density > 0.0;
      assert n.views * n.density * n.fill > 0.0;
      assert n.views * n.density * n.fill * n.clickRate > 0.0;
    }
  }

  /** A zero fill-rate slider falls back to 85%, which is what is reported. */
  lemma ZeroFillReportsEightyFive(i: Inputs)
    requires Results(i).Some? && i.fillRate == 0.0
    ensures Results(i).value.fillRate == 85.0
  {
  }

  /** One slice of the earnings breakdown pie. */
  datatype PieSlice = PieSlice(name: string, value: real, color: string)

  /** `pieData`: 70% display, 20% in-article, 10% matched content. */
  function PieData(results: Option<CalculationResults>): (slices: seq<PieSlice>)
    ensures results.None? <==> slices == []
    ensures results.Some? ==>
      && |slices| == 3
      && slices[0].value + slices[1].value + slices[2].value == results.value.dailyEarnings
      && slices[0].value == 0.7 * results.value.dailyEarnings
      && slices[1].value == 0.2 * results.value.dailyEarnings
      && slices[2].value == 0.1 * results.value.dailyEarnings
  {
    match results
    case None => []
    case Some(r) =>
      [ PieSlice("Display Ads", r.dailyEarnings * 0.7, "#3b82f6"),
        PieSlice("In-Article", r.dailyEarnings * 0.2, "#8b5cf6"),
        PieSlice("Matched Content", r.dailyEarnings * 0.1, "#06b6d4") ]
  }

  /** A saved calculation of the advanced calculator. */
  datatype SavedCalculation = SavedCalculation(
    id: int, date: string, pageViews: Number, ctr: real, cpc: real,
    niche: string, geography: string, results: CalculationResults)

  /** Most-recent-first list that keeps at most this many entries. */
  const MaxSaved: nat := 5

  /** `[calculation, ...saved.slice(0, 4)]`. */
  function Prepend(saved: seq<SavedCalculation>, c: SavedCalculation): (r: seq<SavedCalculation>)
    ensures |r| == if |saved| + 1 < MaxSaved then |saved| + 1 else MaxSaved
    ensures r[0] == c
    ensures forall k :: 1 <= k < |r| ==> r[k] == saved[k - 1]
  {
    [c] + saved[..if |saved| < MaxSaved - 1 then |saved| else MaxSaved - 1]
  }

  /** Saving keeps the list bounded: the newest entry is first, the rest is
      the old list in its old order, cut to the cap. */
  lemma PrependBounded(saved: seq<SavedCalculation>, c: SavedCalculation)
    ensures |Prepend(saved, c)| <= MaxSaved
    ensures Prepend(saved, c)[1..] == saved[..|Prepend(saved, c)| - 1]
  {
  }

  /** Saving into a full list drops exactly the oldest entry. */
  lemma PrependEvictsOldest(saved: seq<SavedCalculation>, c: SavedCalculation)
    requires |saved| == MaxSaved
    ensures Prepend(saved, c) == [c] + saved[..MaxSaved - 1]
    ensures (forall i, j :: 0 <= i < j < |saved| ==> saved[i] != saved[j]) && saved[MaxSaved - 1] != c
      ==> saved[MaxSaved - 1] !in Prepend(saved, c)
  {
    var kept := saved[..MaxSaved - 1];
    assert Prepend(saved, c) == [c] + kept;
    if forall i, j :: 0 <= i < j < |saved| ==> saved[i] != saved[j] {
      forall k | 0 <= k < |kept| ensures kept[k] != saved[MaxSaved - 1] {
        assert kept[k] == saved[k];
      }
    }
  }

  /** The component's state that `saveCalculation` reads and writes. */
  class Calculator {
    var inputs: Inputs
    var savedCalculations: seq<SavedCalculation>
    /** The "adsense-calculations" entry of local storage. */
    var stored: Option<seq<SavedCalculation>>

    /** Initial state: the component's default inputs and an empty list. */
    constructor (storage: Option<seq<SavedCalculation>>)
      ensures inputs == Inputs(Num(10000.0), 2.5, 0.75, "general", "us", 3.0, 85.0)
      ensures savedCalculations == [] && stored == storage
    {
      inputs := Inputs(Num(10000.0), 2.5, 0.75, "general", "us", 3.0, 85.0);
      savedCalculations := [];
      stored := storage;
    }

    /** The mount effect: a stored list replaces the in-memory one. */
    method Load()
      modifies this`savedCalculations
      ensures savedCalculations == if stored.Some? then stored.value else old(savedCalculations)
    {
      if stored.Some? {
        savedCalculations := stored.value;
      }
    }

    /** Editing an input: only the inputs change. */
    method SetInputs(i: Inputs)
      modifies this`inputs
      ensures inputs == i
    {
      inputs := i;
    }

    function CurrentResults(): Option<CalculationResults>
      reads this
    {
      Results(inputs)
    }

    /** `saveCalculation`: with a result, prepend a record (id and date come
        from the clock) keeping at most five, and write the list to storage;
        without a result nothing changes. */
    method SaveCalculation(id: int, date: string)
      modifies this`savedCalculations, this`stored
      ensures CurrentResults().None? ==>
        savedCalculations == old(savedCalculations) && stored == old(stored)
      ensures CurrentResults().Some? ==>
        && savedCalculations == Prepend(old(savedCalculations), SavedCalculation(
             id, date, inputs.pageViews, inputs.ctr, inputs.cpc, inputs.niche,
             inputs.geography, CurrentResults().value))
        && stored == Some(savedCalculations)
      ensures |savedCalculations| <= MaxSaved || savedCalculations == old(savedCalculations)
    {
      var results := Results(inputs);
      if results.Some? {
        var calculation := SavedCalculation(
          id, date, inputs.pageViews, inputs.ctr, inputs.cpc, inputs.niche,
          inputs.geography, results.value);
        var updated := [calculation] + savedCalculations[..if |savedCalculations| < 4 then |savedCalculations| else 4];
        savedCalculations := updated;
        stored := Some(updated);
      }
    }
  }

  /** The default inputs estimate 10000·3·0.85 = 25500 impressions a day and
      25500·0.025·0.75 = 478.125 in daily earnings. */
  lemma DefaultEstimate()
    ensures Results(Inputs(Num(10000.0), 2.5, 0.75, "general", "us", 3.0, 85.0)).Some?
    ensures Results(Inputs(Num(10000.0), 2.5, 0.75, "general", "us", 3.0, 85.0)).value.impressions == 25500.0
    ensures Results(Inputs(Num(10000.0), 2.5, 0.75, "general", "us", 3.0, 85.0)).value.dailyEarnings == 478.125
  {
  }
}
