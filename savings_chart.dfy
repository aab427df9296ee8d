/** The savings projection chart (src/components/SavingsChart.tsx): how many months the goal
    takes, the cumulative series of points plotted, and the top of the y axis. */
module SavingsChart {
  import opened Numbers

  /** One plotted point: month `x` and the amount `y` saved by then. */
  datatype Point = Point(x: int, y: real)

  /** `monthsToGoal`: with a positive monthly saving, the least number of whole months whose
      savings reach the goal (the ceiling of the quotient); with none, 0. */
  function MonthsToGoal(monthlySave: real, goalAmount: real): (m: int)
    ensures monthlySave <= 0.0 ==> m == 0
    ensures monthlySave > 0.0 ==> m as real * monthlySave >= goalAmount
    ensures monthlySave > 0.0 ==> (m - 1) as real * monthlySave < goalAmount
  {
    if monthlySave > 0.0 then
      CeilDivBounds(goalAmount, monthlySave);
      Ceil(goalAmount / monthlySave)
    else
      0
  }

  /** The ceiling of a quotient by a positive divisor `k`: `k` times it reaches `a`, `k` times
      one less does not. */
  lemma CeilDivBounds(a: real, k: real)
    requires k > 0.0
    ensures Ceil(a / k) as real * k >= a
    ensures (Ceil(a / k) - 1) as real * k < a
  {
    var q := a / k;
    var c := Ceil(q);
    assert q * k == a;
    MulMonotone(q, c as real, k);
    calc {
      c as real * k;
    >=
      q * k;
    ==
      a;
    }
    var below := (c - 1) as real;
    MulStrict(below, q, k);
    calc {
      below * k;
    <
      q * k;
    ==
      a;
    }
  }

  /** The number of entries `Array.from({ length: n })` creates: a negative length counts as 0. */
  function ArrayLength(n: int): nat
  {
    if n > 0 then n else 0
  }

  /** `data`: `monthsToGoal + 1` points, month `i` carrying `i * monthlySave`. */
  function Data(monthlySave: real, goalAmount: real): (d: seq<Point>)
  {
    var len := ArrayLength(MonthsToGoal(monthlySave, goalAmount) + 1);
    seq(len, i requires 0 <= i < len => Point(i, i as real * monthlySave))
  }

  /** The series counts the months 0, 1, ..., monthsToGoal in order, each point at the
      cumulative saving; for a goal that is not negative there are monthsToGoal + 1 points,
      the first of them (0, 0). */
  lemma DataShape(monthlySave: real, goalAmount: real)
    ensures var d := Data(monthlySave, goalAmount); var m := MonthsToGoal(monthlySave, goalAmount);
      && |d| == ArrayLength(m + 1)
      && (forall i :: 0 <= i < |d| ==> d[i].x == i && d[i].y == i as real * monthlySave)
      && (goalAmount >= 0.0 ==> |d| == m + 1 && d[0] == Point(0, 0.0))
  {
    var m := MonthsToGoal(monthlySave, goalAmount);
    if goalAmount >= 0.0 && monthlySave > 0.0 {
      assert m >= 0 by {
        if m < 0 {
          MulMonotone(m as real, -1.0, monthlySave);
        }
      }
    }
  }

  /** Without a positive monthly saving the chart has no projection: 0 months and the single
      point (0, 0), whatever the goal. */
  lemma NoSavingsSinglePoint(monthlySave: real, goalAmount: real)
    requires monthlySave <= 0.0
    ensures MonthsToGoal(monthlySave, goalAmount) == 0
    ensures Data(monthlySave, goalAmount) == [Point(0, 0.0)]
  {
  }

  /** The ceiling rule: for a positive goal and saving, the last point reaches the goal and the
      one before it falls short. */
  lemma CeilingRule(monthlySave: real, goalAmount: real)
    requires monthlySave > 0.0 && goalAmount > 0.0
    ensures var d := Data(monthlySave, goalAmount); var m := MonthsToGoal(monthlySave, goalAmount);
      && m >= 1 && |d| == m + 1
      && d[m].y >= goalAmount && d[m - 1].y < goalAmount
  {
    var m := MonthsToGoal(monthlySave, goalAmount);
    assert m >= 1 by {
      if m < 1 {
        MulMonotone(m as real, 0.0, monthlySave);
      }
    }
  }

  /** `maxY`: `Math.max(goalAmount, ...ys)` over the points' amounts. */
  function MaxY(goalAmount: real, d: seq<Point>): (r: real)
    ensures r >= goalAmount
    ensures forall i :: 0 <= i < |d| ==> r >= d[i].y
    ensures r == goalAmount || exists i :: 0 <= i < |d| && r == d[i].y
  {
    if d == [] then goalAmount
    else
      var rest := MaxY(goalAmount, d[1..]);
      if d[0].y > rest then d[0].y else rest
  }

  /** An amount that is at least the goal and at least every other amount is the axis top. */
  lemma MaxYAt(goalAmount: real, d: seq<Point>, j: int)
    requires 0 <= j < |d| && d[j].y >= goalAmount
    requires forall i :: 0 <= i < |d| ==> d[i].y <= d[j].y
    ensures MaxY(goalAmount, d) == d[j].y
  {
  }

  /** For a positive goal and saving the series rises, so the axis top is the last amount. */
  lemma MaxYIsLastPoint(monthlySave: real, goalAmount: real)
    requires monthlySave > 0.0 && goalAmount > 0.0
    ensures var d := Data(monthlySave, goalAmount);
      MaxY(goalAmount, d) == d[|d| - 1].y
  {
    var d := Data(monthlySave, goalAmount);
    CeilingRule(monthlySave, goalAmount);
    var last := |d| - 1;
    forall i | 0 <= i < |d|
      ensures d[i].y <= d[last].y
    {
      MulMonotone(i as real, last as real, monthlySave);
    }
    MaxYAt(goalAmount, d, last);
  }
}
