/** The basic AdSense estimator: three text inputs, no multipliers, no ad
    density or fill rate, and eCPM reported equal to RPM. */
module BasicCalculator {
  import opened JsValues
  import AdvancedCalculator

  /** The parses of the three text fields. */
  datatype Inputs = Inputs(pageViews: Number, ctr: Number, cpc: Number)

  datatype CalculationResults = CalculationResults(
    dailyEarnings: real, monthlyEarnings: real, yearlyEarnings: real,
    dailyClicks: real, monthlyClicks: real, yearlyClicks: real,
    rpm: real, ecpm: real)

  /** `Number.parseFloat(pageViews) || 0`. */
  function Views(i: Inputs): real {
    OrElse(i.pageViews, 0.0)
  }

  /** `Number.parseFloat(ctr) / 100 || 0`: NaN and 0 both become 0. */
  function ClickRate(i: Inputs): (c: real)
    ensures i.ctr.NaN? ==> c == 0.0
    ensures i.ctr.Num? ==> c == i.ctr.value / 100.0
  {
    OrElse(Over(i.ctr, 100.0), 0.0)
  }

  /** `Number.parseFloat(cpc) || 0`. */
  function CostPerClick(i: Inputs): real {
    OrElse(i.cpc, 0.0)
  }

  predicate Insufficient(i: Inputs) {
    Views(i) <= 0.0 || ClickRate(i) <= 0.0 || CostPerClick(i) <= 0.0
  }

  /** The `results` memo of the basic calculator. */
  function Results(i: Inputs): (r: Option<CalculationResults>)
    ensures r.None? <==> Insufficient(i)
    ensures r.Some? ==> r.value == Estimate(Views(i), ClickRate(i), CostPerClick(i))
  {
    if Insufficient(i) then None
    else Some(Estimate(Views(i), ClickRate(i), CostPerClick(i)))
  }

  /** The arithmetic after the guard: earnings are views·rate·cpc, projected
      flatly over 30 and 365 days; RPM does not depend on the views, and eCPM
      is simply reported equal to it. */
  function Estimate(views: real, clickRate: real, costPerClick: real): (r: CalculationResults)
    requires views > 0.0
    ensures r.dailyClicks == views * clickRate
    ensures r.dailyEarnings == views * clickRate * costPerClick
    ensures r.monthlyEarnings == 30.0 * r.dailyEarnings && r.yearlyEarnings == 365.0 * r.dailyEarnings
    ensures r.monthlyClicks == 30.0 * r.dailyClicks && r.yearlyClicks == 365.0 * r.dailyClicks
    ensures r.rpm == clickRate * costPerClick * 1000.0
    ensures r.ecpm == r.rpm
  {
    var dailyClicks := views * clickRate;
    var dailyEarnings := dailyClicks * costPerClick;
    assert dailyEarnings == views * (clickRate * costPerClick);
    CalculationResults(
      dailyEarnings, dailyEarnings * 30.0, dailyEarnings * 365.0,
      dailyClicks, dailyClicks * 30.0, dailyClicks * 365.0,
      (dailyEarnings / views) * 1000.0, (dailyEarnings / views) * 1000.0)
  }

  /** Null exactly when a parsed input is not positive; text that does not
      parse counts as 0 and so yields null. */
  lemma NullIffInsufficient(i: Inputs)
    ensures Results(i).None? <==>
      || AtMost(i.pageViews, 0.0) || i.pageViews.NaN?
      || AtMost(i.ctr, 0.0) || i.ctr.NaN?
      || AtMost(i.cpc, 0.0) || i.cpc.NaN?
  {
  }

  /** RPM (and so eCPM) depends on the click rate and CPC only. */
  lemma RpmIndependentOfViews(i: Inputs, j: Inputs)
    requires Results(i).Some? && Results(j).Some?
    requires i.ctr == j.ctr && i.cpc == j.cpc
    ensures Results(i).value.rpm == Results(j).value.rpm
    ensures Results(i).value.ecpm == Results(i).value.rpm
  {
  }

  /** With the click rate and CPC fixed, more page views earn strictly more. */
  lemma EarningsIncreaseWithViews(i: Inputs, j: Inputs)
    requires Results(i).Some? && Results(j).Some?
    requires i.ctr == j.ctr && i.cpc == j.cpc
    requires Views(i) < Views(j)
    ensures Results(i).value.dailyEarnings < Results(j).value.dailyEarnings
  {
    var k := ClickRate(i) * CostPerClick(i);
    assert k > 0.0;
    assert Results(i).value.dailyEarnings == Views(i) * k;
    assert Results(j).value.dailyEarnings == Views(j) * k;
    assert (Views(j) - Views(i)) * k > 0.0;
  }

  /** The basic calculator is the advanced one with neutral settings: niche
      "general", geography "us", one ad per page and a 100% fill rate. */
  lemma MatchesAdvancedWhenNeutral(pageViews: Number, ctr: real, cpc: real)
    ensures
      var basic := Results(Inputs(pageViews, Num(ctr), Num(cpc)));
      var advanced := AdvancedCalculator.Results(
        AdvancedCalculator.Inputs(pageViews, ctr, cpc, "general", "us", 1.0, 100.0));
      && (basic.None? <==> advanced.None?)
      && (basic.Some? ==>
        && basic.value.dailyEarnings == advanced.value.dailyEarnings
        && basic.value.monthlyEarnings == advanced.value.monthlyEarnings
        && basic.value.yearlyEarnings == advanced.value.yearlyEarnings
        && basic.value.dailyClicks == advanced.value.dailyClicks
        && basic.value.monthlyClicks == advanced.value.monthlyClicks
        && basic.value.yearlyClicks == advanced.value.yearlyClicks
        && basic.value.rpm == advanced.value.rpm
        && basic.value.ecpm == advanced.value.ecpm)
  {
    var ai := AdvancedCalculator.Inputs(pageViews, ctr, cpc, "general", "us", 1.0, 100.0);
    var n := AdvancedCalculator.Normalize(ai);
    assert n.nicheMultiplier == 1.0 && n.geoMultiplier == 1.0;
    assert n.density == 1.0 && n.fill == 1.0;
    assert AdvancedCalculator.AdjustedCpc(n) == cpc;
  }

  /** 10000 views at 2.5% and $0.75 a click: 250 clicks and $187.50 a day,
      $5625 a month, RPM $18.75. */
  lemma ExampleEstimate()
    ensures Results(Inputs(Num(10000.0), Num(2.5), Num(0.75))).Some?
    ensures var r := Results(Inputs(Num(10000.0), Num(2.5), Num(0.75))).value;
      r.dailyClicks == 250.0 && r.dailyEarnings == 187.5 && r.monthlyEarnings == 5625.0
      && r.rpm == 18.75
  {
  }
}
