/** The dashboard (src/components/Dashboard.tsx): the stored goal list with its add, edit and
    star operations, the display order that promotes the starred goal, and the months needed
    to reach the primary goal. */
module Dashboard {
  import opened Wrappers
  import opened Numbers
  import opened GoalModal
  import SavingsChart
  import SavePercentageForm

  /** The `sf-income` record. */
  datatype IncomeRecord = IncomeRecord(income: real, currency: string)

  /** A goal as stored under `sf-goals`: the dialog's fields plus the star. */
  datatype StoredGoal = StoredGoal(name: string, price: real, image: string, starred: bool)

  /** One row of the display order: the goal and its index in the stored list. */
  datatype Entry = Entry(goal: StoredGoal, idx: int)

  /** `monthsNeeded`: a whole number of months, or `Infinity` (shown as "N/A"). */
  datatype Months = Finite(count: int) | Infinity

  function WithStar(g: Goal, starred: bool): StoredGoal
  {
    StoredGoal(g.name, g.price, g.image, starred)
  }

  /** The fields the dialog edits, without the star. */
  function Fields(s: StoredGoal): Goal
  {
    Goal(s.name, s.price, s.image)
  }

  /** The goals the onboarding page appends have no `starred` field; the dashboard's
      truthiness tests read the missing field as false. */
  function FromPage(gs: seq<Goal>): seq<StoredGoal>
  {
    seq(|gs|, i requires 0 <= i < |gs| => WithStar(gs[i], false))
  }

  predicate NoneStarred(gs: seq<StoredGoal>)
  {
    forall i :: 0 <= i < |gs| ==> !gs[i].starred
  }

  /** The intended invariant of the list: no two goals are starred. */
  predicate AtMostOneStarred(gs: seq<StoredGoal>)
  {
    forall i, j :: 0 <= i < |gs| && 0 <= j < |gs| && gs[i].starred && gs[j].starred ==> i == j
  }

  function StarCount(gs: seq<StoredGoal>): nat
  {
    if gs == [] then 0 else (if gs[0].starred then 1 else 0) + StarCount(gs[1..])
  }

  lemma {:induction false} StarCountZero(gs: seq<StoredGoal>)
    ensures StarCount(gs) == 0 <==> NoneStarred(gs)
  {
    if gs != [] {
      StarCountZero(gs[1..]);
      assert forall i :: 1 <= i < |gs| ==> gs[i] == gs[1..][i - 1];
    }
  }

  // ---------------------------------------------------------------------------------------
  // handleSave and toggleStar, as functions from the old list to the new one

  /** `handleSave` in add mode: `[...goals, { ...g, starred: false }]`. */
  function Append(gs: seq<StoredGoal>, g: Goal): seq<StoredGoal>
  {
    gs + [WithStar(g, false)]
  }

  /** `handleSave` in edit mode: the goal at `idx` takes the new fields and keeps its star. */
  function Edit(gs: seq<StoredGoal>, idx: int, g: Goal): seq<StoredGoal>
  {
    seq(|gs|, i requires 0 <= i < |gs| => if i == idx then WithStar(g, gs[i].starred) else gs[i])
  }

  /** `handleSave`, by the edit index: none means add, an index means edit. */
  function Save(gs: seq<StoredGoal>, editIdx: Option<int>, g: Goal): seq<StoredGoal>
  {
    match editIdx
    case None => Append(gs, g)
    case Some(idx) => Edit(gs, idx, g)
  }

  /** `toggleStar`: the goal at `k` flips its star, every other goal loses its star. */
  function Toggle(gs: seq<StoredGoal>, k: int): seq<StoredGoal>
  {
    seq(|gs|, i requires 0 <= i < |gs| => gs[i].(starred := if i == k then !gs[i].starred else false))
  }

  /** Adding puts exactly one unstarred goal at the end and leaves the earlier ones alone. */
  lemma AppendAtEnd(gs: seq<StoredGoal>, g: Goal)
    ensures var r := Append(gs, g);
      && |r| == |gs| + 1 && r[..|gs|] == gs
      && Fields(r[|gs|]) == g && !r[|gs|].starred
      && (AtMostOneStarred(gs) ==> AtMostOneStarred(r))
  {
  }

  /** Editing replaces only position `idx`, keeps every star where it was, and does nothing
      at all for an index outside the list. */
  lemma EditInPlace(gs: seq<StoredGoal>, idx: int, g: Goal)
    ensures var r := Edit(gs, idx, g);
      && |r| == |gs|
      && (forall i :: 0 <= i < |gs| ==> r[i].starred == gs[i].starred)
      && (forall i :: 0 <= i < |gs| && i != idx ==> r[i] == gs[i])
      && (0 <= idx < |gs| ==> Fields(r[idx]) == g)
      && (!(0 <= idx < |gs|) ==> r == gs)
      && (AtMostOneStarred(gs) ==> AtMostOneStarred(r))
  {
  }

  /** Toggling keeps the length and every goal's name, price and image. */
  lemma ToggleKeepsGoals(gs: seq<StoredGoal>, k: int)
    ensures var r := Toggle(gs, k);
      |r| == |gs| && forall i :: 0 <= i < |gs| ==> Fields(r[i]) == Fields(gs[i])
  {
  }

  /** Toggling an index in the list stars that goal exactly when it was not starred, and
      unstars all the others. */
  lemma ToggleInRange(gs: seq<StoredGoal>, k: int)
    requires 0 <= k < |gs|
    ensures var r := Toggle(gs, k);
      && (r[k].starred <==> !gs[k].starred)
      && (forall i :: 0 <= i < |r| && i != k ==> !r[i].starred)
  {
  }

  /** After any toggle, whatever the list and the index, at most one goal is starred. */
  lemma ToggleAtMostOne(gs: seq<StoredGoal>, k: int)
    ensures AtMostOneStarred(Toggle(gs, k))
  {
  }

  /** Toggling the starred goal, or an index outside the list, leaves no goal starred. */
  lemma ToggleClears(gs: seq<StoredGoal>, k: int)
    requires !(0 <= k < |gs|) || gs[k].starred
    ensures NoneStarred(Toggle(gs, k))
  {
  }

  /** What the user can do to the list from the dashboard. */
  datatype Action = AddGoal(goal: Goal) | EditGoal(index: int, goal: Goal) | ToggleStar(index: int)

  function Step(gs: seq<StoredGoal>, a: Action): seq<StoredGoal>
  {
    match a
    case AddGoal(g) => Save(gs, None, g)
    case EditGoal(idx, g) => Save(gs, Some(idx), g)
    case ToggleStar(k) => Toggle(gs, k)
  }

  function Run(gs: seq<StoredGoal>, actions: seq<Action>): seq<StoredGoal>
    decreases |actions|
  {
    if actions == [] then gs else Run(Step(gs, actions[0]), actions[1..])
  }

  /** A session of adds, edits and toggles keeps the at-most-one-star invariant; one that
      toggles at least once establishes it even from a list loaded with several stars. */
  lemma {:induction false} RunKeepsAtMostOne(gs: seq<StoredGoal>, actions: seq<Action>)
    requires AtMostOneStarred(gs) || exists i :: 0 <= i < |actions| && actions[i].ToggleStar?
    ensures AtMostOneStarred(Run(gs, actions))
    decreases |actions|
  {
    if actions != [] {
      var a := actions[0];
      var next := Step(gs, a);
      if a.AddGoal? {
        AppendAtEnd(gs, a.goal);
      } else if a.EditGoal? {
        EditInPlace(gs, a.index, a.goal);
      } else {
        ToggleAtMostOne(gs, a.index);
      }
      if !AtMostOneStarred(next) {
        var i :| 0 <= i < |actions| && actions[i].ToggleStar?;
        assert actions[1..][i - 1] == actions[i];
      }
      RunKeepsAtMostOne(next, actions[1..]);
    }
  }

  // ---------------------------------------------------------------------------------------
  // sortedList: the display order

  /** `arr.find(g => g.starred)`, by position (`arr.indexOf` of the goal found): the first
      starred goal, or none when no goal is starred. */
  function FirstStarred(gs: seq<StoredGoal>): (r: Option<nat>)
    ensures r.Some? ==> r.value < |gs| && gs[r.value].starred
    ensures r.Some? ==> forall j :: 0 <= j < r.value ==> !gs[j].starred
    ensures r.None? <==> NoneStarred(gs)
  {
    if gs == [] then None
    else if gs[0].starred then Some(0)
    else
      match FirstStarred(gs[1..])
      case None => None
      case Some(k) => Some(k + 1)
  }

  /** `arr.map((g, i) => ({ goal: g, idx: i }))`. */
  function Indexed(gs: seq<StoredGoal>): seq<Entry>
  {
    seq(|gs|, i requires 0 <= i < |gs| => Entry(gs[i], i))
  }

  /** `.filter(item => !item.goal.starred)`: the unstarred entries, in their order. */
  function Unstarred(es: seq<Entry>): (r: seq<Entry>)
    ensures |r| <= |es|
  {
    if es == [] then []
    else (if es[0].goal.starred then [] else [es[0]]) + Unstarred(es[1..])
  }

  /** `sortedList`: canonical order when nothing is starred; otherwise the first starred goal
      followed by every unstarred goal, each entry with its canonical index. */
  function SortedList(gs: seq<StoredGoal>): seq<Entry>
  {
    match FirstStarred(gs)
    case None => Indexed(gs)
    case Some(k) => [Entry(gs[k], k)] + Unstarred(Indexed(gs))
  }

  /** The filter keeps only unstarred entries, and only ones it was given. */
  lemma {:induction false} UnstarredSubset(es: seq<Entry>)
    ensures forall e :: e in Unstarred(es) ==> e in es && !e.goal.starred
  {
    if es != [] {
      UnstarredSubset(es[1..]);
    }
  }

  lemma {:induction false} UnstarredKeepsAll(es: seq<Entry>)
    requires forall i :: 0 <= i < |es| ==> !es[i].goal.starred
    ensures Unstarred(es) == es
  {
    if es != [] {
      UnstarredKeepsAll(es[1..]);
    }
  }

  lemma {:induction false} UnstarredConcat(a: seq<Entry>, b: seq<Entry>)
    ensures Unstarred(a + b) == Unstarred(a) + Unstarred(b)
  {
    if a != [] {
      var head := if a[0].goal.starred then [] else [a[0]];
      assert (a + b)[0] == a[0];
      assert (a + b)[1..] == a[1..] + b;
      UnstarredConcat(a[1..], b);
      calc {
        Unstarred(a + b);
        head + Unstarred(a[1..] + b);
        head + (Unstarred(a[1..]) + Unstarred(b));
        (head + Unstarred(a[1..])) + Unstarred(b);
        Unstarred(a) + Unstarred(b);
      }
    } else {
      assert a + b == b;
    }
  }

  /** With only entry `k` starred, filtering removes exactly that one entry. */
  lemma {:induction false} UnstarredDropsOne(es: seq<Entry>, k: int)
    requires 0 <= k < |es| && es[k].goal.starred
    requires forall i :: 0 <= i < |es| && i != k ==> !es[i].goal.starred
    ensures Unstarred(es) == es[..k] + es[k + 1..]
  {
    var tail := es[1..];
    if k == 0 {
      forall i | 0 <= i < |tail|
        ensures !tail[i].goal.starred
      {
        assert tail[i] == es[i + 1];
      }
      UnstarredKeepsAll(tail);
      assert es[..0] + es[1..] == tail;
    } else {
      forall i | 0 <= i < |tail| && i != k - 1
        ensures !tail[i].goal.starred
      {
        assert tail[i] == es[i + 1];
      }
      assert tail[k - 1] == es[k];
      UnstarredDropsOne(tail, k - 1);
      assert Unstarred(es) == [es[0]] + (tail[..k - 1] + tail[k..]);
      assert [es[0]] + tail[..k - 1] == es[..k];
      assert tail[k..] == es[k + 1..];
    }
  }

  predicate IncreasingIdx(es: seq<Entry>)
  {
    forall i, j :: 0 <= i < j < |es| ==> es[i].idx < es[j].idx
  }

  lemma {:induction false} UnstarredIncreasing(es: seq<Entry>)
    requires IncreasingIdx(es)
    ensures IncreasingIdx(Unstarred(es))
  {
    if es != [] {
      var tail := es[1..];
      UnstarredIncreasing(tail);
      UnstarredSubset(tail);
      forall e | e in Unstarred(tail)
        ensures es[0].idx < e.idx
      {
        var m :| 0 <= m < |tail| && tail[m] == e;
        assert es[m + 1] == e;
      }
    }
  }

  /** Filtering drops one entry per starred goal among the entries. */
  lemma {:induction false} UnstarredCount(es: seq<Entry>)
    ensures |Unstarred(es)| == |es| - StarCount(seq(|es|, i requires 0 <= i < |es| => es[i].goal))
  {
    var goals := seq(|es|, i requires 0 <= i < |es| => es[i].goal);
    if es != [] {
      var tail := es[1..];
      UnstarredCount(tail);
      assert goals[1..] == seq(|tail|, i requires 0 <= i < |tail| => tail[i].goal);
    }
  }

  /** Every entry of the view addresses the stored goal it shows, and no index appears
      twice, whatever the stars. */
  lemma SortedListReferences(gs: seq<StoredGoal>)
    ensures var v := SortedList(gs);
      && (forall i :: 0 <= i < |v| ==> 0 <= v[i].idx < |gs| && v[i].goal == gs[v[i].idx])
      && (forall i, j :: 0 <= i < |v| && 0 <= j < |v| && i != j ==> v[i].idx != v[j].idx)
  {
    match FirstStarred(gs)
    case None =>
    case Some(k) =>
      var rest := Unstarred(Indexed(gs));
      RestReferences(gs);
      var v := SortedList(gs);
      assert v == [Entry(gs[k], k)] + rest;
      assert forall i :: 0 < i < |v| ==> v[i] == rest[i - 1];
  }

  /** The filtered rows address the goals they show, carry unstarred goals, and keep their
      indices increasing. */
  lemma RestReferences(gs: seq<StoredGoal>)
    ensures var rest := Unstarred(Indexed(gs));
      && (forall i :: 0 <= i < |rest| ==>
            0 <= rest[i].idx < |gs| && rest[i].goal == gs[rest[i].idx] && !rest[i].goal.starred)
      && IncreasingIdx(rest)
  {
    var all := Indexed(gs);
    var rest := Unstarred(all);
    UnstarredIncreasing(all);
    UnstarredSubset(all);
    forall i | 0 <= i < |rest|
      ensures 0 <= rest[i].idx < |gs| && rest[i].goal == gs[rest[i].idx] && !rest[i].goal.starred
    {
      assert rest[i] in all;
    }
  }

  /** With no starred goal the view is the stored list in canonical order. */
  lemma SortedListNoStar(gs: seq<StoredGoal>)
    requires NoneStarred(gs)
    ensures var v := SortedList(gs);
      |v| == |gs| && forall i :: 0 <= i < |gs| ==> v[i] == Entry(gs[i], i)
  {
  }

  /** With exactly the goal at `k` starred, the view is that goal first and then every other
      goal in canonical order, all with their canonical indices. */
  lemma SortedListOneStar(gs: seq<StoredGoal>, k: int)
    requires AtMostOneStarred(gs) && 0 <= k < |gs| && gs[k].starred
    ensures SortedList(gs) == [Entry(gs[k], k)] + Indexed(gs)[..k] + Indexed(gs)[k + 1..]
  {
    assert FirstStarred(gs) == Some(k);
    UnstarredDropsOne(Indexed(gs), k);
  }

  /** The canonical indices a view lists, in display order. */
  function Idxs(v: seq<Entry>): seq<int>
  {
    seq(|v|, i requires 0 <= i < |v| => v[i].idx)
  }

  /** With at most one star the view lists every canonical index exactly once. */
  lemma SortedListPermutation(gs: seq<StoredGoal>)
    requires AtMostOneStarred(gs)
    ensures var v := SortedList(gs);
      && |v| == |gs|
      && (forall j :: 0 <= j < |gs| ==> j in Idxs(v))
      && (forall i, j :: 0 <= i < |v| && 0 <= j < |v| && i != j ==> v[i].idx != v[j].idx)
  {
    var v := SortedList(gs);
    var all := Indexed(gs);
    SortedListReferences(gs);
    match FirstStarred(gs)
    case None =>
      assert v == all;
      forall j | 0 <= j < |gs|
        ensures j in Idxs(v)
      {
        assert Idxs(v)[j] == j;
      }
    case Some(k) =>
      SortedListOneStar(gs, k);
      assert |v| == |gs|;
      forall j | 0 <= j < |gs|
        ensures j in Idxs(v)
      {
        if j < k {
          assert v[j + 1] == all[..k][j];
          assert Idxs(v)[j + 1] == j;
        } else if j == k {
          assert Idxs(v)[0] == k;
        } else {
          assert v[j] == all[k + 1..][j - k - 1];
          assert Idxs(v)[j] == j;
        }
      }
  }

  /** The view shows one row per unstarred goal and one for the first starred goal, so with
      several stars the extra starred goals are missing from it. */
  lemma SortedListLength(gs: seq<StoredGoal>)
    ensures |SortedList(gs)| == |gs| - StarCount(gs) + (if StarCount(gs) > 0 then 1 else 0)
    ensures StarCount(gs) >= 2 ==> |SortedList(gs)| < |gs|
  {
    var all := Indexed(gs);
    UnstarredCount(all);
    assert seq(|all|, i requires 0 <= i < |all| => all[i].goal) == gs;
    StarCountZero(gs);
  }

  /** Starring the unstarred goal at `k` promotes it to the front of the view; the other rows
      follow in canonical order with `k` removed. */
  lemma StarPromotion(gs: seq<StoredGoal>, k: int)
    requires 0 <= k < |gs| && !gs[k].starred
    ensures var r := Toggle(gs, k); var v := SortedList(r);
      && v[0] == Entry(r[k], k)
      && v[1..] == Indexed(r)[..k] + Indexed(r)[k + 1..]
  {
    var r := Toggle(gs, k);
    ToggleAtMostOne(gs, k);
    SortedListOneStar(r, k);
  }

  /** Goals appended by the onboarding page carry no star, so such a list is shown in the
      order entered, and appending on the page is the dashboard's add. */
  lemma FromPageLoads(gs: seq<Goal>, g: Goal)
    ensures var s := FromPage(gs);
      && |s| == |gs| && NoneStarred(s)
      && (forall i :: 0 <= i < |gs| ==> Fields(s[i]) == gs[i])
      && SortedList(s) == Indexed(s)
      && FromPage(gs + [g]) == Append(s, g)
  {
  }

  // ---------------------------------------------------------------------------------------
  // monthlySave and monthsNeeded

  /** `income * (percentage / 100)`. */
  function MonthlySave(income: real, percentage: real): real
  {
    income * (percentage / 100.0)
  }

  /** With a non-negative income and a rate in [0, 100] the monthly saving lies in [0, income],
      and it is positive exactly when both income and rate are. */
  lemma MonthlySaveBounds(income: real, percentage: real)
    requires income >= 0.0 && 0.0 <= percentage <= 100.0
    ensures 0.0 <= MonthlySave(income, percentage) <= income
    ensures MonthlySave(income, percentage) > 0.0 <==> income > 0.0 && percentage > 0.0
  {
    var f := percentage / 100.0;
    assert 0.0 <= f <= 1.0;
    MulMonotone(f, 1.0, income);
  }

  /** A rate entered on the savings-rate page is clamped, so it keeps the saving within
      [0, income]. */
  lemma EnteredRateBoundsSaving(income: real, parsed: Option<real>)
    requires income >= 0.0
    ensures 0.0 <= MonthlySave(income, SavePercentageForm.InputRate(parsed)) <= income
  {
    MonthlySaveBounds(income, SavePercentageForm.InputRate(parsed));
  }

  /** The primary goal: the starred one, else the first; none for an empty list. */
  function Primary(gs: seq<StoredGoal>): (r: Option<StoredGoal>)
    ensures r.None? <==> gs == []
    ensures r.Some? && !NoneStarred(gs) ==> r.value.starred
    ensures NoneStarred(gs) && gs != [] ==> r == Some(gs[0])
    ensures FirstStarred(gs).Some? ==> r == Some(gs[FirstStarred(gs).value])
  {
    match FirstStarred(gs)
    case Some(k) => Some(gs[k])
    case None => if gs == [] then None else Some(gs[0])
  }

  /** `monthsNeeded`: from the first row of the view, the ceiling of price over saving, or
      `Infinity` when the list is empty or nothing is saved. */
  function MonthsNeeded(gs: seq<StoredGoal>, monthlySave: real): Months
  {
    var view := SortedList(gs);
    if |view| > 0 && monthlySave > 0.0 then Finite(Ceil(view[0].goal.price / monthlySave))
    else Infinity
  }

  /** `monthsNeeded` is finite exactly for a non-empty list and a positive saving, and is then
      the least number of months whose savings reach the primary goal's price. */
  lemma MonthsNeededSpec(gs: seq<StoredGoal>, monthlySave: real)
    ensures MonthsNeeded(gs, monthlySave).Finite? <==> gs != [] && monthlySave > 0.0
    ensures MonthsNeeded(gs, monthlySave).Finite? ==>
      var n := MonthsNeeded(gs, monthlySave).count; var price := Primary(gs).value.price;
      && n == Ceil(price / monthlySave)
      && n as real * monthlySave >= price
      && (n - 1) as real * monthlySave < price
  {
    var view := SortedList(gs);
    if gs != [] {
      assert |view| > 0;
      assert view[0].goal == Primary(gs).value;
      if monthlySave > 0.0 {
        SavingsChart.CeilDivBounds(Primary(gs).value.price, monthlySave);
      }
    }
  }

  /** The dashboard and the chart use the same ceiling rule when something is saved, but
      disagree on the case with no saving: the dashboard reports `Infinity`, the chart 0. */
  lemma MonthsNeededVersusChart(gs: seq<StoredGoal>, monthlySave: real)
    requires gs != []
    ensures monthlySave > 0.0 ==>
      MonthsNeeded(gs, monthlySave) == Finite(SavingsChart.MonthsToGoal(monthlySave, Primary(gs).value.price))
    ensures monthlySave <= 0.0 ==>
      MonthsNeeded(gs, monthlySave) == Infinity
      && SavingsChart.MonthsToGoal(monthlySave, Primary(gs).value.price) == 0
  {
    MonthsNeededSpec(gs, monthlySave);
  }

  /** Income 3000 at 20% saves 600 a month; a goal of 1000 then takes two months, and the
      chart plots (0, 0), (1, 600), (2, 1200). */
  lemma ProjectionScenario()
    ensures MonthlySave(3000.0, 20.0) == 600.0
    ensures MonthsNeeded([StoredGoal("Bike", 1000.0, "bike.png", false)], 600.0) == Finite(2)
    ensures SavingsChart.MonthsToGoal(600.0, 1000.0) == 2
    ensures SavingsChart.Data(600.0, 1000.0)
      == [SavingsChart.Point(0, 0.0), SavingsChart.Point(1, 600.0), SavingsChart.Point(2, 1200.0)]
  {
    var gs := [StoredGoal("Bike", 1000.0, "bike.png", false)];
    assert SortedList(gs) == [Entry(gs[0], 0)];
    assert Ceil(1000.0 / 600.0) == 2;
  }

  /** A zero rate saves nothing, so no goal list has a finite projection. */
  lemma ZeroRateScenario(gs: seq<StoredGoal>, income: real)
    ensures MonthsNeeded(gs, MonthlySave(income, 0.0)) == Infinity
  {
  }

  // ---------------------------------------------------------------------------------------
  // The component's state

  class GoalStore {
    var goals: seq<StoredGoal>
    var showModal: bool
    var editIdx: Option<int>
    const income: real
    const currency: string
    const percentage: real
    const monthlySave: real

    /** Loads income, rate and goals from what is stored, defaulting to an income of 0 USD,
        a rate of 0 and an empty list; the dialog starts closed, in add mode. */
    constructor (storedIncome: Option<IncomeRecord>, storedPercentage: Option<real>,
                 storedGoals: Option<seq<StoredGoal>>)
      ensures storedIncome.None? ==> income == 0.0 && currency == "USD"
      ensures storedIncome.Some? ==> income == storedIncome.value.income && currency == storedIncome.value.currency
      ensures percentage == storedPercentage.GetOr(0.0)
      ensures monthlySave == MonthlySave(income, percentage)
      ensures storedGoals.None? ==> goals == []
      ensures storedGoals.Some? ==> goals == storedGoals.value
      ensures !showModal && editIdx == None
    {
      var record := storedIncome.GetOr(IncomeRecord(0.0, "USD"));
      income, currency := record.income, record.currency;
      percentage := storedPercentage.GetOr(0.0);
      monthlySave := MonthlySave(record.income, storedPercentage.GetOr(0.0));
      goals := storedGoals.GetOr([]);
      showModal, editIdx := false, None;
    }

    /** `openAdd`. */
    method OpenAdd()
      modifies this`editIdx, this`showModal
      ensures editIdx == None && showModal
    {
      editIdx, showModal := None, true;
    }

    /** `openEdit`: aim the dialog at a canonical index. */
    method OpenEdit(origIdx: int)
      modifies this`editIdx, this`showModal
      ensures editIdx == Some(origIdx) && showModal
    {
      editIdx, showModal := Some(origIdx), true;
    }

    /** The dialog's `onClose`. */
    method CloseModal()
      modifies this`showModal
      ensures !showModal
    {
      showModal := false;
    }

    /** The dialog's `initial`: the goal under the edit index, or none in add mode or when
        the edit index is outside the list. */
    function ModalInitial(): (r: Option<Goal>)
      reads this
      ensures r.Some? <==> editIdx.Some? && 0 <= editIdx.value < |goals|
      ensures r.Some? ==> r.value == Fields(goals[editIdx.value])
    {
      match editIdx
      case Some(i) => if 0 <= i < |goals| then Some(Fields(goals[i])) else None
      case None => None
    }

    /** `handleSave`: append in add mode, replace in edit mode keeping the star; the
        at-most-one-star invariant is kept. */
    method HandleSave(g: Goal)
      modifies this`goals
      ensures goals == Save(old(goals), editIdx, g)
      ensures AtMostOneStarred(old(goals)) ==> AtMostOneStarred(goals)
    {
      match editIdx
      case None =>
        AppendAtEnd(goals, g);
        goals := Append(goals, g);
      case Some(idx) =>
        EditInPlace(goals, idx, g);
        goals := Edit(goals, idx, g);
    }

    /** `toggleStar`: afterwards at most one goal is starred. */
    method ToggleStar(origIdx: int)
      modifies this`goals
      ensures goals == Toggle(old(goals), origIdx)
      ensures AtMostOneStarred(goals)
    {
      ToggleAtMostOne(goals, origIdx);
      goals := Toggle(goals, origIdx);
    }

    /** The number shown under "Months Until"; `Infinity` is shown as "N/A". */
    method MonthsUntil() returns (m: Months)
      ensures m.Finite? <==> goals != [] && monthlySave > 0.0
      ensures m.Finite? ==> m.count as real * monthlySave >= Primary(goals).value.price
      ensures m.Finite? ==> (m.count - 1) as real * monthlySave < Primary(goals).value.price
    {
      MonthsNeededSpec(goals, monthlySave);
      m := MonthsNeeded(goals, monthlySave);
    }
  }
}
