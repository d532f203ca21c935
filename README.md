# Carbon footprint dashboard: activity logger and dashboard state

This project models the logic in the EcoTracker carbon-footprint dashboard. The user fills in a
form for four activity categories: transport, energy, food and shopping. In each category they
pick a subtype, such as car, electricity, vegan meal or clothing, and enter a quantity. The form
multiplies each quantity by a fixed emission factor, sums the products, and lets the user save
the result. The dashboard shows monthly figures compared with a goal, rates the daily total with
a badge, switches between individual and business mode, and opens and closes the logger.

Modules:

- `Wrappers` (`Wrappers.dfy`): `Option`. `None` stands for an empty text field or a `null` state
  value.
- `EmissionFactors` (`EmissionFactors.dfy`): the four categories, the subtype keys and the
  factor table. The source nests the table by category and then by subtype. Each subtype key
  belongs to exactly one category, and `CategoryOf` records which.
- `ActivityLogger` (`ActivityLogger.dfy`): the form data and the estimator specification.
  - `Estimate` is the sum of the category terms, taken in the order transport, energy, food,
    shopping.
  - The `Logger` class holds the component's state: the `userType` prop, `activeTab`, `formData`, `calculated` and
    an event log. Each toast the component raises and each call of its `onClose` callback is
    appended to the log, as `Notify(Toast(title, variant, emissions))` or `Closed`.
  - `Logger.CalculateEmissions` is written as the source writes it: four guarded `+=` steps.
    It is proved to store `Estimate(formData)`.
- `CarbonDashboard` (`CarbonDashboard.dfy`):
  - the emission level classifier;
  - the goal figures, with the mock totals and the goal taken as parameters;
  - the `Dashboard` class, which holds `userType`, `showLogger` and the logger that is mounted
    while it is shown.

Each form field is modelled as a value: `None` is an empty field and `Some(q)` is a quantity
that has already been parsed. A category counts only when both of its fields are filled in. A
quantity of 0 counts as filled in and adds 0. The source never rejects a negative quantity, so
the model does not either. The non-negativity lemma assumes non-negative quantities.

Factors and quantities are exact `real` numbers. Every property here holds for mathematical
reals, not for JavaScript doubles.

The subtype select widget of each category offers only that category's keys. `Fits` and the
`WellFormed` invariant of `Logger` say this, and it is the only precondition on a form update.
Bike and walk have the factor 0 (ActivityLogger.tsx:43-44); every other factor is positive.

The estimator looks a factor up by the subtype alone. This agrees with the table's
category-then-subtype lookup on every form a `Logger` can hold, because its `Valid()` keeps each
stored subtype among its own category's keys.

The user type is a prop of the logger: `Logger.userType` is set when the dashboard mounts it, and
the dashboard's invariant keeps it equal to the dashboard's current user type.

## Model

| member | source | states |
|---|---|---|
| `EmissionFactors.Factor` | src/components/ActivityLogger.tsx:38-61 | every factor in the table is non-negative, and a factor is 0 exactly for bike and walk |
| `EmissionFactors.Subtypes` | src/components/ActivityLogger.tsx:38-61 | the keys listed under a category are exactly the subtypes that belong to that category |
| `ActivityLogger.Update` | src/components/ActivityLogger.tsx:116-125 | updating one field sets only that field of that category; the category's other field and every other category are unchanged |
| `ActivityLogger.UpdatePreservesWellFormed` | src/components/ActivityLogger.tsx:166-177 | if the new subtype is one the category's select offers, every stored subtype is still a key of its own category after the update |
| `ActivityLogger.EstimateExpanded` | src/components/ActivityLogger.tsx:63-91 | the estimate is the transport, energy, food and shopping terms added in that order |
| `ActivityLogger.EmptyFormEstimatesZero` | src/components/ActivityLogger.tsx:64-90 | an all-empty form estimates to 0, a value rather than "unset" |
| `ActivityLogger.EstimateAfterReplace` | src/components/ActivityLogger.tsx:63-90 | replacing one category's entry swaps exactly that category's term; the other three terms stay |
| `ActivityLogger.ClearingRemovesTerm` | src/components/ActivityLogger.tsx:63-90 | emptying either field of one category removes exactly that category's term from the estimate |
| `ActivityLogger.BikeAndWalkAddNothing` | src/components/ActivityLogger.tsx:39-45 | a bike or walk entry, at any distance, gives the same estimate as an empty transport entry |
| `ActivityLogger.TotalNonNegative` | src/components/ActivityLogger.tsx:63-90 | with non-negative quantities, a running total over any list of categories is non-negative |
| `ActivityLogger.EstimateNonNegative` | src/components/ActivityLogger.tsx:38-90 | non-negative quantities give a non-negative estimate |
| `ActivityLogger.PopulatedAmong` | src/components/ActivityLogger.tsx:67-85 | the chosen categories are exactly those in the list whose subtype and quantity fields are both non-empty, each as often as it occurs in the list (a filled-in category once per visit, an unfilled one never) |
| `ActivityLogger.TotalIsSumOverPopulated` | src/components/ActivityLogger.tsx:63-90 | over any list of categories, the guarded running total equals the plain sum of factor times quantity over the filled-in categories |
| `ActivityLogger.EstimateIsSumOverPopulated` | src/components/ActivityLogger.tsx:63-90 | the estimate is the sum of factor times quantity over exactly the filled-in categories |
| `ActivityLogger.CarTripExample` | src/components/ActivityLogger.tsx:67-70 | a 15.5 km car trip with nothing else filled in estimates to 3.255 kg |
| `ActivityLogger.ElectricityAndVeganExample` | src/components/ActivityLogger.tsx:72-82 | 25.3 kWh of electricity plus two vegan meals estimate to 26.436 kg |
| `ActivityLogger.SaveEvents` | src/components/ActivityLogger.tsx:93-107 | a save emits exactly one toast. The toast is destructive ("Calculate First") exactly when no result is set; otherwise it is "Activity Saved" carrying the result. The close callback runs once when a result is set and never otherwise |
| `ActivityLogger.Logger.constructor` | src/components/ActivityLogger.tsx:21-34 | the initial state: the given user type prop, transport tab, every field empty, no result, no events |
| `ActivityLogger.Logger.SelectTab` | src/components/ActivityLogger.tsx:145 | selecting a tab changes only the active tab; the form data, the result and the events stay |
| `ActivityLogger.Logger.UpdateFormData` | src/components/ActivityLogger.tsx:116-125 | the form data becomes `Update(old form, c, u)`, the result becomes unset, and the tab and events stay |
| `ActivityLogger.Logger.CalculateEmissions` | src/components/ActivityLogger.tsx:63-91 | the four guarded additions store `Estimate(formData)`; the form data, tab and events stay |
| `ActivityLogger.Logger.SaveActivity` | src/components/ActivityLogger.tsx:93-107 | the event log grows by `SaveEvents(result)` and nothing else changes |
| `ActivityLogger.Logger.Cancel` | src/components/ActivityLogger.tsx:326-328 | Cancel only calls the close callback, adding one `Closed` event |
| `ActivityLogger.CalculateTwice` | src/components/ActivityLogger.tsx:63-91 | two calculations with no edit between them store the same value, and the form data stays unchanged |
| `CarbonDashboard.EmissionLevel` | src/components/CarbonDashboard.tsx:32-36 | the level is low iff e ≤ 5, moderate iff 5 < e ≤ 12, and high iff e > 12 |
| `CarbonDashboard.BadgeOfEmission` | src/components/CarbonDashboard.tsx:32-36 | the badge label is "Excellent!", "Good" or "Needs Attention", and its colour "success", "warning" or "destructive", exactly under the same thresholds as the level |
| `CarbonDashboard.EmissionLevelMonotone` | src/components/CarbonDashboard.tsx:32-36 | a larger emission never gets a better level |
| `CarbonDashboard.ProgressPercent` | src/components/CarbonDashboard.tsx:30 | the signed figure times the goal is 100 times (goal − monthly); for a positive goal it is negative exactly when the month is over the goal |
| `CarbonDashboard.OverPercentAsWritten` | src/components/CarbonDashboard.tsx:168 | the displayed "% over" figure is never negative; it is either 0 or the below-goal percentage |
| `CarbonDashboard.OverPercentAsWrittenIsZeroWhenOver` | src/components/CarbonDashboard.tsx:30 | for a positive goal, the "% over" figure as written is 0 exactly when the month is at or over the goal |
| `CarbonDashboard.MockFiguresShowZeroPercentOver` | src/components/CarbonDashboard.tsx:26-30 | with the dashboard's own figures (185.7 kg against a 150 kg goal), the gap is 35.7 kg over, the displayed figure is "0% over", and the corrected figure is 23.8 |
| `CarbonDashboard.OverPercent` | src/components/CarbonDashboard.tsx:168 | corrected "% over": never negative, positive exactly when the month is over the goal, and then the actual excess as a percentage of the goal |
| `CarbonDashboard.ProgressBarValue` | src/components/CarbonDashboard.tsx:171 | the bar never exceeds 100. For a positive goal it is 100 exactly when the month reaches the goal, and it is non-negative when the month's total is non-negative |
| `CarbonDashboard.GoalGap` | src/components/CarbonDashboard.tsx:175-177 | the text says "over" exactly when monthly > goal; the reported difference is non-negative and equals the month's distance from the goal |
| `CarbonDashboard.Dashboard.constructor` | src/components/CarbonDashboard.tsx:22-23 | the user type starts as individual and the logger starts hidden |
| `CarbonDashboard.Dashboard.SetUserType` | src/components/CarbonDashboard.tsx:64-81 | a toggle button sets the user type to its own value, and a mounted logger receives the new value as its prop; whether the logger is shown, and which logger, stays |
| `CarbonDashboard.Dashboard.OpenLogger` | src/components/CarbonDashboard.tsx:83-84 | "Log Activity" shows the logger, which holds the dashboard's current user type. A logger that was not already shown is mounted fresh, in its initial state |
| `CarbonDashboard.Dashboard.CloseLogger` | src/components/CarbonDashboard.tsx:280 | the logger's close callback hides the logger and leaves the user type unchanged |
| `CarbonDashboard.Dashboard.SaveInLogger` | src/components/CarbonDashboard.tsx:277-281 | saving in the shown logger records `SaveEvents(result)`; the logger is hidden afterwards exactly when a result was set |
| `CarbonDashboard.Dashboard.CancelLogger` | src/components/CarbonDashboard.tsx:277-281 | Cancel in the shown logger records one `Closed` event and hides the logger |

## Left out

- Rendering is not modelled: JSX, styling, icons, and the dialog, select, input and progress widgets. This includes the dialog's `onOpenChange` wiring (ActivityLogger.tsx:128) and the "Log Business/Personal Activity" heading chosen by the user type (ActivityLogger.tsx:133), which is the only use the logger makes of its user type.
- `parseFloat` and the NaN it returns for non-numeric text are not modelled. A quantity is either empty or an already-parsed number.
- The model uses exact real arithmetic. It does not model IEEE-754 rounding of doubles or the `toFixed` formatting of displayed figures.
- The saved toast's text rounds the value with `toFixed(2)` (ActivityLogger.tsx:97); the model's toast carries the exact value.
- Toast descriptions are not modelled. A toast keeps its title, its variant and, for a saved activity, the emissions value. Auto-dismissal is left out too.
- The dashboard's mock figures are taken only as parameters of the goal functions. Its activity breakdown, achievements, tips and weekly average (CarbonDashboard.tsx:138) are constant display text and are left out.
- EmissionChart.tsx is not part of this model. It passes constant arrays to a charting library.
- The save button is disabled while no result is set (ActivityLogger.tsx:341), but `saveActivity` still handles that case, so the model lets a save happen in any state.
- `ProgressBarValue`, `OverPercentAsWritten`: division by a zero goal is excluded by a precondition. The source divides by the constant goal of 150.

## Findings

| source | as written | input that shows it | evidently intended | confidence | as-written member | corrected member |
|---|---|---|---|---|---|---|
| src/components/CarbonDashboard.tsx:168 | the "% over" figure is `max(0, (goal − monthly) / goal × 100)`. That is the percentage *under* the goal, so any month over the goal reads 0 | monthly = 185.7, goal = 150 (the dashboard's own figures): shows "0% over" although the month is 23.8 % over | `max(0, (monthly − goal) / goal × 100)`: positive exactly when over the goal | medium (not executed) | `CarbonDashboard.OverPercentAsWrittenIsZeroWhenOver` | `CarbonDashboard.OverPercent` |
