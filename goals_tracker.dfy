/** The goals card: three fixed goals, each shown with its progress towards
    its target, a progress bar capped at 100, a "Complete" badge, and its
    current and target values formatted by unit. */
module GoalsTracker {

  datatype Goal = Goal(id: string, title: string, current: real, target: real, unit: string)

  /** The goals the card starts with; nothing ever replaces them. */
  const Goals: seq<Goal> := [
    Goal("1", "Monthly Revenue", 1250.0, 2000.0, "$"),
    Goal("2", "Page Views", 75000.0, 100000.0, ""),
    Goal("3", "CTR", 2.3, 3.0, "%")]

  /** `(goal.current / goal.target) * 100`: the percentage of the target
      reached. */
  function Progress(g: Goal): (p: real)
    requires g.target != 0.0
    ensures p * g.target == g.current * 100.0
  {
    (g.current / g.target) * 100.0
  }

  /** `isComplete`. */
  predicate IsComplete(g: Goal)
    requires g.target != 0.0
  {
    Progress(g) >= 100.0
  }

  /** For a positive target, a goal is complete exactly when its current
      value has reached the target. */
  lemma CompleteIffReached(g: Goal)
    requires g.target > 0.0
    ensures IsComplete(g) <==> g.current >= g.target
  {
    var p := Progress(g);
    if p >= 100.0 {
      assert p * g.target >= 100.0 * g.target;
    } else {
      assert p * g.target < 100.0 * g.target;
    }
  }

  /** `Math.min(progress, 100)`: the bar never runs past full, is full
      exactly when the goal is complete, and otherwise shows the progress. */
  function BarValue(g: Goal): (v: real)
    requires g.target != 0.0
    ensures v <= 100.0 && v <= Progress(g)
    ensures v == 100.0 <==> IsComplete(g)
    ensures !IsComplete(g) ==> v == Progress(g)
  {
    if Progress(g) < 100.0 then Progress(g) else 100.0
  }

  /** A formatted number: `toLocaleString()` or `toFixed(1)` of the value
      (the digits themselves are not modelled). */
  datatype Figure = Localized(value: real) | OneDecimal(value: real)

  /** `formatValue` as prefix, figure and suffix. */
  datatype Formatted = Formatted(prefix: string, figure: Figure, suffix: string)

  /** `formatValue`: a "$" unit is written before a localized figure, a "%"
      unit after a figure with one decimal, and any other unit is not
      written at all. */
  function FormatValue(value: real, unit: string): (f: Formatted)
    ensures f.figure.value == value
    ensures f.figure.OneDecimal? <==> unit == "%"
    ensures f.prefix == (if unit == "$" then "$" else "")
    ensures f.suffix == (if unit == "%" then "%" else "")
  {
    if unit == "$" then Formatted("$", Localized(value), "")
    else if unit == "%" then Formatted("", OneDecimal(value), "%")
    else Formatted("", Localized(value), "")
  }

  /** The symbol shown with a value is the goal's unit when that unit is
      "$" or "%", written once, and nothing otherwise. */
  lemma FormatShowsUnitOnce(value: real, unit: string)
    ensures var f := FormatValue(value, unit);
      (unit == "$" || unit == "%") ==> f.prefix + f.suffix == unit
    ensures var f := FormatValue(value, unit);
      (unit != "$" && unit != "%") ==> f.prefix + f.suffix == ""
  {
  }

  /** What the card shows for one goal. */
  datatype Row = Row(
    title: string, complete: bool, bar: real, progress: real,
    current: Formatted, target: Formatted)

  function RowOf(g: Goal): Row
    requires g.target != 0.0
  {
    Row(g.title, IsComplete(g), BarValue(g), Progress(g),
      FormatValue(g.current, g.unit), FormatValue(g.target, g.unit))
  }

  /** `goals.map(...)`: one row per goal, in order; every bar is at most
      full and a row carries the badge exactly when its bar is full. */
  function Rows(goals: seq<Goal>): (rows: seq<Row>)
    requires forall k :: 0 <= k < |goals| ==> goals[k].target != 0.0
    ensures |rows| == |goals|
    ensures forall k :: 0 <= k < |rows| ==>
      rows[k].title == goals[k].title && rows[k].bar <= 100.0 && (rows[k].complete <==> rows[k].bar == 100.0)
  {
    seq(|goals|, k requires 0 <= k < |goals| => RowOf(goals[k]))
  }

  /** The fixed goals: distinct ids, positive targets, and none complete
      (62.5%, 75% and about 76.7% of the way). */
  lemma InitialGoals()
    ensures forall i, j :: 0 <= i < j < |Goals| ==> Goals[i].id != Goals[j].id
    ensures forall k :: 0 <= k < |Goals| ==> Goals[k].target > 0.0
    ensures Progress(Goals[0]) == 62.5 && Progress(Goals[1]) == 75.0
    ensures forall k :: 0 <= k < |Goals| ==> !IsComplete(Goals[k])
  {
    forall k | 0 <= k < |Goals| ensures !IsComplete(Goals[k]) {
      CompleteIffReached(Goals[k]);
    }
  }
}
