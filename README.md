# solid-finances goal store, modelled in Dafny

solid-finances is a browser onboarding wizard and dashboard for personal savings. The user
enters an income, a savings rate and one or more purchase goals. The dashboard keeps an ordered,
starrable list of goals and shows how many months the primary goal takes. A chart plots the
cumulative savings month by month.

This project models the logic behind those screens:

- `Dashboard` (src/components/Dashboard.tsx) is the goal store. The class `GoalStore` holds
  the `goals` signal, the dialog flag and the edit index. Its methods `HandleSave` and
  `ToggleStar` replace the list with new lists. The functions `Append`, `Edit` and `Toggle`
  compute those lists. The pure views are `SortedList` (display order with canonical indices),
  `MonthlySave`, `Primary` and `MonthsNeeded`.
- `SavingsChart` (src/components/SavingsChart.tsx) holds `MonthsToGoal`, the point series
  `Data` and the axis top `MaxY`.
- `GoalModal` (src/components/GoalModal.tsx) holds the `Goal` record and the shared submit
  guard `Accepts`. `Validate` is the guard plus the goal builder. The class `Modal` holds the
  three form fields, their seeding and reset from `initial`, and `Submit`, which returns the
  callbacks it fires.
- `GoalsPage` (src/components/GoalsPage.tsx) is the onboarding page. It loads the list and
  appends one validated goal in `AddGoal`. `AddGoal` reports whether `onNext` was called.
- `SavePercentageForm` (src/components/SavePercentageForm.tsx) holds the rate clamp and the
  rate signal.
- `Text` models JavaScript's `String.prototype.trim`, using the white-space and line-terminator
  sets of ECMA-262 (sections 12.2 and 12.3). `Numbers` holds `Math.ceil` on reals and the
  `parseFloat(...) || 0` idiom, with two facts about scaling by a non-negative factor.
  `Wrappers` holds `Option`.

Money, prices, incomes and rates are `real`. A parse result is an `Option<real>`, where `None`
stands for NaN. A stored record that may be absent is an `Option` passed to a constructor.

Behaviour worth knowing:

- An edit at an index outside the list is a silent no-op.
- `toggleStar` at an index outside the list clears every star. It is not an error.
- Neither the dashboard nor the dialog returns an error for bad input. The dialog's `submit`
  simply calls nothing.
- With no monthly saving, the dashboard reports `Infinity`, which it shows as "N/A". The chart
  reports 0 months and the single point (0, 0). `MonthsNeededVersusChart` states both
  behaviours.
- Goals appended by the onboarding page have no `starred` field. The dashboard reads the
  missing field as false (`FromPage`).
- `sortedList` is a permutation of the list only when at most one goal is starred. With
  several stars, only the first starred goal shows and the other starred goals are missing
  (`SortedListLength`).
- `Array.from({ length: n })` makes an empty array for a negative `n`. So a negative goal can
  give fewer than `monthsToGoal + 1` points (`ArrayLength`). For a goal of 0 or more the count
  is exactly `monthsToGoal + 1`.

## Model

| member | source | states |
|---|---|---|
| `Dashboard.Append` | src/components/Dashboard.tsx:43-44 | defines `handleSave` in add mode: the dialog's goal, unstarred, after the old list; see `AppendAtEnd` |
| `Dashboard.Edit` | src/components/Dashboard.tsx:46-48 | defines `handleSave` in edit mode: goal `idx` takes the dialog's fields and keeps its star; see `EditInPlace` |
| `Dashboard.Save` | src/components/Dashboard.tsx:41-50 | defines `handleSave`: `Append` when the edit index is null, `Edit` otherwise; see `GoalStore.HandleSave` |
| `Dashboard.Toggle` | src/components/Dashboard.tsx:53-58 | defines `toggleStar`: flips goal `k` and clears every other star; see `ToggleInRange`, `ToggleAtMostOne`, `ToggleClears` |
| `Dashboard.Indexed` | src/components/Dashboard.tsx:64 | defines `arr.map((g, i) => ({ goal: g, idx: i }))`: each goal paired with its own index; see `SortedListNoStar` |
| `Dashboard.SortedList` | src/components/Dashboard.tsx:61-71 | defines `sortedList`: the first starred goal with its index, then the unstarred rows in order; see `SortedListOneStar`, `SortedListPermutation`, `SortedListLength` |
| `Dashboard.FromPage` | src/components/GoalsPage.tsx:44-48 | defines how goals appended by the onboarding page load on the dashboard: same fields, star read as false; see `FromPageLoads` |
| `Dashboard.MonthlySave` | src/components/Dashboard.tsx:74 | defines `monthlySave` as income times the rate over 100; see `MonthlySaveBounds` |
| `Dashboard.MonthsNeeded` | src/components/Dashboard.tsx:75-80 | defines `monthsNeeded` from the view's first row; see `MonthsNeededSpec`, `MonthsNeededVersusChart` |
| `SavingsChart.ArrayLength` | src/components/SavingsChart.tsx:20 | defines the entry count of `Array.from({ length: n })`, 0 for a negative `n`; see `DataShape` |
| `SavingsChart.Data` | src/components/SavingsChart.tsx:19-24 | defines `data`: point `i` is month `i` with `i * monthlySave`; see `DataShape`, `CeilingRule` |
| `GoalModal.Accepts` | src/components/GoalModal.tsx:43 | defines the submit guard: a name that is not blank after trimming, a positive price and an image; see `Validate`, `TrimEmptyIff` |
| `Text.TrimStart` | src/components/GoalModal.tsx:43-44 | defines the removal of leading white space; see `TrimStartShape` |
| `Text.TrimEnd` | src/components/GoalModal.tsx:43-44 | defines the removal of trailing white space; see `TrimEndShape` |
| `Text.Trim` | src/components/GoalModal.tsx:43-44 | defines `String.prototype.trim`; see `TrimIsCore`, `TrimEmptyIff`, `TrimIdempotent` |
| `Text.TrimStartShape` | src/components/GoalModal.tsx:43 | dropping leading white space leaves a suffix that does not start with white space, and only white space is dropped |
| `Text.TrimEndShape` | src/components/GoalModal.tsx:43 | dropping trailing white space leaves a prefix that does not end with white space, and only white space is dropped |
| `Text.TrimIsCore` | src/components/GoalModal.tsx:43-44 | `trim` keeps one contiguous piece of the input with only white space on both sides, and that piece neither starts nor ends with white space |
| `Text.TrimEmptyIff` | src/components/GoalModal.tsx:43 | the trimmed name is empty exactly when the name is all white space, so the guard rejects exactly blank names |
| `Text.TrimIdempotent` | src/components/GoalModal.tsx:44 | trimming the already trimmed name changes nothing |
| `Numbers.Ceil` | src/components/Dashboard.tsx:78 | `Math.ceil` gives an integer at or above `x` and less than `x + 1` |
| `Numbers.CeilIsLeast` | src/components/SavingsChart.tsx:14 | every integer at or above `x` is at or above `Ceil(x)` |
| `Numbers.OrZero` | src/components/GoalModal.tsx:71 | the price input gives the parsed number, or 0 when the parse fails |
| `GoalModal.Validate` | src/components/GoalModal.tsx:43-44 | a goal is built exactly when the guard accepts; it has the trimmed name and the price and image as entered, and it is valid (non-empty, already trimmed name, positive price, non-empty image) |
| `GoalModal.Modal.constructor` | src/components/GoalModal.tsx:19-21 | the fields start from `initial` when it is given, else from '', 0 and '' |
| `GoalModal.Modal.Reset` | src/components/GoalModal.tsx:24-30 | a present `initial` overwrites all three fields; an absent one leaves them as they were |
| `GoalModal.Modal.InputName` | src/components/GoalModal.tsx:64 | typing sets the name |
| `GoalModal.Modal.InputPrice` | src/components/GoalModal.tsx:71 | typing sets the price to the parse result, or 0 |
| `GoalModal.Modal.LoadImage` | src/components/GoalModal.tsx:36 | a file that has been read sets the image |
| `GoalModal.Modal.Submit` | src/components/GoalModal.tsx:41-46 | a blank name, a price of 0 or less, or no image fires no callback; otherwise `onSave` gets the trimmed goal and `onClose` runs after it; every saved goal is valid |
| `GoalsPage.Page.constructor` | src/components/GoalsPage.tsx:17-31 | the list is the stored one, or empty when nothing is stored; the fields start at '', 0 and ''; the page starts on the question |
| `GoalsPage.Page.ChooseNow` | src/components/GoalsPage.tsx:72 | "Now" shows the form |
| `GoalsPage.Page.InputName` | src/components/GoalsPage.tsx:117 | typing sets the name |
| `GoalsPage.Page.InputPrice` | src/components/GoalsPage.tsx:130-132 | typing sets the price to the parse result, or 0 |
| `GoalsPage.Page.LoadImage` | src/components/GoalsPage.tsx:37 | a file that has been read sets the image |
| `GoalsPage.Page.AddGoal` | src/components/GoalsPage.tsx:42-50 | when validation fails, the list is unchanged and `onNext` is not called; otherwise exactly one valid, trimmed goal is appended at the end, the earlier goals are unchanged, and `onNext` is called |
| `Dashboard.StarCountZero` | src/components/Dashboard.tsx:63 | no goal is counted as starred exactly when none is starred |
| `Dashboard.AppendAtEnd` | src/components/Dashboard.tsx:43-44 | add mode appends one unstarred goal with the dialog's fields at the end, leaves the earlier goals alone, and keeps at most one star |
| `Dashboard.EditInPlace` | src/components/Dashboard.tsx:46-48 | edit mode changes only position `idx`, which takes the new fields; every star stays where it was; the length is kept; an index outside the list changes nothing |
| `Dashboard.ToggleKeepsGoals` | src/components/Dashboard.tsx:54-57 | a toggle keeps the length and every goal's name, price and image |
| `Dashboard.ToggleInRange` | src/components/Dashboard.tsx:54-57 | toggling index `k` stars goal `k` exactly when it was unstarred and unstars every other goal |
| `Dashboard.ToggleAtMostOne` | src/components/Dashboard.tsx:52-58 | after any toggle, whatever the list and the index, at most one goal is starred |
| `Dashboard.ToggleClears` | src/components/Dashboard.tsx:56 | toggling the starred goal, or an index outside the list, leaves no goal starred |
| `Dashboard.RunKeepsAtMostOne` | src/components/Dashboard.tsx:41-58 | any sequence of adds, edits and toggles keeps the at-most-one-star invariant, and one toggle is enough to restore it |
| `Dashboard.FirstStarred` | src/components/Dashboard.tsx:63 | `find` plus `indexOf`: the position of the first starred goal, or none exactly when no goal is starred |
| `Dashboard.Unstarred` | src/components/Dashboard.tsx:66-68 | the filter never makes the list longer |
| `Dashboard.UnstarredSubset` | src/components/Dashboard.tsx:66-68 | the filter keeps only unstarred entries taken from its input |
| `Dashboard.UnstarredDropsOne` | src/components/Dashboard.tsx:66-68 | when only entry `k` is starred, the filter removes exactly that entry |
| `Dashboard.UnstarredCount` | src/components/Dashboard.tsx:66-68 | the filter removes one entry per starred goal |
| `Dashboard.UnstarredIncreasing` | src/components/Dashboard.tsx:66-68 | the filter keeps the canonical indices in increasing order |
| `Dashboard.SortedListReferences` | src/components/Dashboard.tsx:60-71 | every entry of the view carries an index inside the list whose goal is the goal shown, and no index appears twice, whatever the stars |
| `Dashboard.RestReferences` | src/components/Dashboard.tsx:66-68 | the filtered rows carry unstarred goals, address the goals they show, and keep canonical indices increasing |
| `Dashboard.SortedListNoStar` | src/components/Dashboard.tsx:64 | with no starred goal the view is `(goals[i], i)` in canonical order |
| `Dashboard.SortedListOneStar` | src/components/Dashboard.tsx:65-70 | with one star, on `k`, the view is `(goals[k], k)` and then the other goals in canonical order, each with its own index |
| `Dashboard.SortedListPermutation` | src/components/Dashboard.tsx:61-71 | with at most one star the view has one entry per goal and lists every index 0..n-1 exactly once |
| `Dashboard.SortedListLength` | src/components/Dashboard.tsx:63-70 | the view has one row per unstarred goal plus one when some goal is starred, so with two or more stars it is shorter than the list |
| `Dashboard.StarPromotion` | src/components/Dashboard.tsx:53-70 | starring the unstarred goal `k` puts `(goal, k)` first in the view, followed by the canonical order without `k` |
| `Dashboard.FromPageLoads` | src/components/GoalsPage.tsx:44-48 | goals written by the onboarding page load unstarred and with their fields, so they show in the order entered; appending on the page is the dashboard's add |
| `Dashboard.MonthlySaveBounds` | src/components/Dashboard.tsx:74 | with an income of 0 or more and a rate in [0, 100], the monthly saving lies in [0, income]; it is positive exactly when income and rate both are |
| `Dashboard.EnteredRateBoundsSaving` | src/components/SavePercentageForm.tsx:24-27 | a rate entered on the rate page keeps the dashboard's monthly saving within [0, income] |
| `Dashboard.Primary` | src/components/Dashboard.tsx:76 | there is a primary goal exactly when the list is non-empty; it is the first starred goal when one is starred, and the first goal when none is |
| `Dashboard.MonthsNeededSpec` | src/components/Dashboard.tsx:75-80 | `monthsNeeded` is finite exactly when the list is non-empty and the saving is positive; it is then the ceiling of the primary price over the saving, the least number of months whose savings reach the price |
| `Dashboard.MonthsNeededVersusChart` | src/components/Dashboard.tsx:77-79 | with a positive saving the dashboard and the chart give the same month count; with none, the dashboard gives `Infinity` and the chart 0 |
| `Dashboard.ProjectionScenario` | src/components/Dashboard.tsx:74-79 | income 3000 at 20% saves 600; a goal of 1000 takes 2 months; the chart plots (0, 0), (1, 600), (2, 1200) |
| `Dashboard.ZeroRateScenario` | src/components/Dashboard.tsx:74-79 | a rate of 0 gives `Infinity` for every list |
| `Dashboard.GoalStore.constructor` | src/components/Dashboard.tsx:12-30 | loads income, currency, rate and goals from the stored records, with defaults 0 and "USD", 0 and the empty list; computes the monthly saving; the dialog starts closed, in add mode |
| `Dashboard.GoalStore.OpenAdd` | src/components/Dashboard.tsx:32-35 | clears the edit index and opens the dialog |
| `Dashboard.GoalStore.OpenEdit` | src/components/Dashboard.tsx:36-39 | aims the dialog at a canonical index and opens it |
| `Dashboard.GoalStore.CloseModal` | src/components/Dashboard.tsx:158 | closes the dialog |
| `Dashboard.GoalStore.ModalInitial` | src/components/Dashboard.tsx:157 | the dialog's `initial` is the goal under the edit index, present exactly when the edit index is set and inside the list |
| `Dashboard.GoalStore.HandleSave` | src/components/Dashboard.tsx:41-50 | the new list is the add or the edit of the old one, chosen by the edit index; at most one star is kept |
| `Dashboard.GoalStore.ToggleStar` | src/components/Dashboard.tsx:53-58 | the new list is the toggle of the old one, and at most one goal is starred afterwards |
| `Dashboard.GoalStore.MonthsUntil` | src/components/Dashboard.tsx:75-80 | the "Months Until" value is finite exactly for a non-empty list and a positive saving, and it is then the least number of months that reaches the primary price |
| `SavingsChart.MonthsToGoal` | src/components/SavingsChart.tsx:12-16 | with a positive saving, the least month count whose savings reach the goal; otherwise 0 |
| `SavingsChart.CeilDivBounds` | src/components/SavingsChart.tsx:14 | the ceiling of `a / k`, times `k`, reaches `a`, and one month fewer does not |
| `SavingsChart.DataShape` | src/components/SavingsChart.tsx:19-24 | point `i` is `(i, i * monthlySave)`; for a goal of 0 or more there are `monthsToGoal + 1` points and the first is (0, 0) |
| `SavingsChart.NoSavingsSinglePoint` | src/components/SavingsChart.tsx:13-23 | without a positive saving there are 0 months and the series is the single point (0, 0) |
| `SavingsChart.CeilingRule` | src/components/SavingsChart.tsx:14-22 | for a positive goal and saving, the last point reaches the goal and the one before it does not |
| `SavingsChart.MaxY` | src/components/SavingsChart.tsx:32-34 | the axis top is at least the goal and every amount, and it is one of them |
| `SavingsChart.MaxYAt` | src/components/SavingsChart.tsx:32-34 | an amount at least the goal and every other amount is the axis top |
| `SavingsChart.MaxYIsLastPoint` | src/components/SavingsChart.tsx:32-34 | for a positive goal and saving, the axis top is the last point's amount |
| `SavePercentageForm.Clamp` | src/components/SavePercentageForm.tsx:26 | the rate always lies in [0, 100]; a rate already there is kept; below 0 becomes 0, above 100 becomes 100 |
| `SavePercentageForm.ClampIdempotent` | src/components/SavePercentageForm.tsx:26 | clamping a clamped rate changes nothing |
| `SavePercentageForm.InputRate` | src/components/SavePercentageForm.tsx:24-26 | an unparseable input gives 0; otherwise the input clamped to [0, 100] |
| `SavePercentageForm.RateForm.constructor` | src/components/SavePercentageForm.tsx:11-13 | the rate starts from the stored record, or 0 when none is stored |
| `SavePercentageForm.RateForm.HandleInput` | src/components/SavePercentageForm.tsx:23-28 | the stored rate becomes the clamped input and lies in [0, 100] |

## Left out

- GoalsPage.Page: the page's list is modelled at the TypeScript `Goal[]` type. A list it
  loads from storage may carry `starred` flags written by the dashboard, and the page writes
  those flags back unchanged; the model does not track them.
- Persistence: `localStorage` reads and writes, and `JSON.parse` and `JSON.stringify`. These
  are I/O and a foreign library. Stored records are constructor parameters of type `Option`.
  The effects that write the list after each change are not modelled, and neither is the
  store/reload round trip.
- Malformed stored data: a stored goal with missing fields, or a stored string that does not
  parse, would need the JSON layer. That layer is not part of this model.
- Solid's reactivity (`createSignal`, `createEffect`, `createMemo`). Signals are class fields.
  Memos are functions of those fields. Effects are methods, like `Modal.Reset`. When an effect
  runs is the framework's concern.
- All JSX rendering: CSS classes, the dialog's `show` flag, the "Cancel", "Later" and "Next"
  buttons that only call `onClose` or `onNext`, and the "N/A" text.
- SavingsChart's pixel scaling (`scaleX`, `scaleY`, `points`, `guideY`). This is floating-point
  layout.
- `FileReader` and the data-URL conversion in `handleFile`. This is browser I/O. The image is
  an opaque string handed to `LoadImage`.
- `parseFloat` itself, which is a foreign call. Only its result is modelled, as `Option<real>`.
- IEEE-754 arithmetic. Money is `real`, so NaN, infinities, rounding and `-0` from
  `Math.ceil` are not modelled.
- src/App.tsx stage routing, src/components/Landing.tsx, src/components/IncomeForm.tsx,
  src/theme.tsx, src/components/NavBar.tsx and tailwind.config.js. They are wiring, input
  parsing, storage writes and DOM class toggling, with no rules of the goal store.
- Object identity: `arr.indexOf(starred)` compares references. The model takes the index of
  the first starred goal. That is the same index, because no goal object appears twice in the
  list.
