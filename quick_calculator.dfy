/** The quick calculator: three text fields and a Calculate button that
    stores the monthly estimate, without the basic calculator's guard. */
module QuickCalculator {
  import opened JsValues
  import BasicCalculator

  /** The monthly figure `calculate` computes: the three inputs normalised as
      in the basic calculator, then views·rate·cpc·30. Invalid or zero input
      gives 0, never null. */
  function MonthlyEstimate(i: BasicCalculator.Inputs): (r: real)
    ensures Falsy(i.pageViews) || Falsy(i.cpc) || i.ctr.NaN? || i.ctr == Num(0.0) ==> r == 0.0
  {
    var views := BasicCalculator.Views(i);
    var clickRate := BasicCalculator.ClickRate(i);
    var costPerClick := BasicCalculator.CostPerClick(i);
    var dailyClicks := views * clickRate;
    var dailyEarnings := dailyClicks * costPerClick;
    dailyEarnings * 30.0
  }

  /** Whenever the basic calculator produces a result, the quick calculator
      shows the same monthly earnings for the same inputs. */
  lemma AgreesWithBasic(i: BasicCalculator.Inputs)
    requires BasicCalculator.Results(i).Some?
    ensures MonthlyEstimate(i) == BasicCalculator.Results(i).value.monthlyEarnings
  {
  }

  /** Where the basic calculator shows nothing for non-positive input, the
      quick calculator computes a number: 0 for a zero or unparseable field. */
  lemma ZeroWhereBasicIsNull(i: BasicCalculator.Inputs)
    requires i.pageViews.NaN? || i.ctr.NaN? || i.cpc.NaN?
    ensures BasicCalculator.Results(i).None?
    ensures MonthlyEstimate(i) == 0.0
  {
  }

  class Quick {
    var pageViews: Number
    var ctr: Number
    var cpc: Number
    /** The displayed estimate; null until Calculate is first pressed. */
    var result: Option<real>

    function Inputs(): BasicCalculator.Inputs
      reads this
    {
      BasicCalculator.Inputs(pageViews, ctr, cpc)
    }

    constructor ()
      ensures pageViews == Num(10000.0) && ctr == Num(2.5) && cpc == Num(0.75)
      ensures result == None
    {
      pageViews, ctr, cpc := Num(10000.0), Num(2.5), Num(0.75);
      result := None;
    }

    /** Editing a field changes that field only; the result is untouched. */
    method SetPageViews(v: Number)
      modifies this`pageViews
      ensures pageViews == v
    {
      pageViews := v;
    }

    method SetCtr(v: Number)
      modifies this`ctr
      ensures ctr == v
    {
      ctr := v;
    }

    method SetCpc(v: Number)
      modifies this`cpc
      ensures cpc == v
    {
      cpc := v;
    }

    /** `calculate`: the result becomes the monthly estimate of the current
      inputs, which it does not change, so calling it again changes nothing. */
    method Calculate()
      modifies this`result
      ensures result == Some(MonthlyEstimate(Inputs()))
      ensures result.Some?
    {
      var views := OrElse(pageViews, 0.0);
      var clickRate := OrElse(Over(ctr, 100.0), 0.0);
      var costPerClick := OrElse(cpc, 0.0);
      var dailyClicks := views * clickRate;
      var dailyEarnings := dailyClicks * costPerClick;
      var monthlyEarnings := dailyEarnings * 30.0;
      assert monthlyEarnings == MonthlyEstimate(Inputs());
      result := Some(monthlyEarnings);
    }
  }
}
