# Grade projector: a verified model of the projection engine

The grade projector is a small React application. A student enters their past semesters, or one
CGPA with its credits. They choose whether the future credits are those of the next semester or
the total credits of the whole degree, and they may give a target CGPA. On "Calculate
Projection" the application computes the following:

- the current CGPA,
- the best CGPA still possible,
- the SGPA the remaining credits need to reach the target,
- a difficulty tier (COMFORTABLE, EASY REACH, MODERATE, HARD GRIND or IMPOSSIBLE),
- a 13-row table of what-if scenarios.

The results panel then shows a feedback box and colours and highlights the table rows.

This project models three pieces of the application in Dafny:

- the calculation handler (`calculateProjections`),
- the three editing operations of the semester list,
- the display decisions of the results panel.

It then proves what these pieces promise.

| module | file | models |
|---|---|---|
| `Parsing` | `parsing.dfy` | `Option`, the number reader as a parameter, JavaScript truthiness of a parsed number |
| `History` | `history.dfy` | add, remove and update of semester rows (`HistoryCard.jsx`) |
| `Engine` | `engine.dfy` | aggregation, the three early exits, strategy credits, averages, the difficulty ladder, the scenario loop, and what a computed result means (`App.jsx`) |
| `ProjectionLaws` | `projection_laws.dfy` | the required-SGPA round trip, ordering of the table and of the tiers, quick mode, the editor's effect on the outcome |
| `Display` | `display.dfy` | change class, highlight, sign, badge class, feedback box, rendered table (`Results.jsx`) |
| `Validated` | `validated.dfy` | the handler with the two missing guards added (see Findings) |
| `Fixtures` | `fixtures.dfy` | worked examples: a regression example, an early exit, the two division-by-zero inputs |

Modelling choices:

- **Arithmetic.** Arithmetic is exact over `real`. The original computes in IEEE-754 doubles and never rounds along the way.
- **Parsing.** `parseFloat` becomes a parameter `parse: string -> Option<real>`, where `None` stands for NaN.
- **Early exits.** The handler has three early exits. Each one shows an alert and produces no result, and each is an `Aborted` outcome here.
- **Division by zero.** The original divides by `totalCredits`, and with a target by `creditsToEarn`, without checking either. When one of them is zero it publishes Infinity or NaN. That outcome is `NonFinite`.
- **Meaning of a result.** `Engine.Describes` collects what a computed result means: the averages as multiply-back equations, the table and the tier. `Engine.Project`, `Engine.CheckAndProject` and `Engine.Calculate` promise it of every result they compute. The display lemmas are stated over any result it describes.
- **Scenario table.** The loop produces 13 rows, SGPA 10.0 down to 4.0 in steps of 0.5, with no rounding.
- **Sensible plan.** A plan is sensible (`ProjectionLaws.Sensible`) when the past credits are positive, the credits to earn are positive and the total is their sum. The handler as written also computes results on plans that are not sensible (zero or negative credits next semester, negative past credits), and the ordering laws below are stated only for sensible ones.
- **Best case.** Grades are not bounded by the form, so on a sensible plan the best case reaches the current CGPA exactly when that CGPA is at most 10 (`ComputedBestCase`).

## Model

| member | source | states |
|---|---|---|
| History.AddSemester | grade-projector-app/src/components/HistoryCard.jsx:12-14 | one more row; the earlier rows are unchanged and the new last row is blank |
| History.SetField | grade-projector-app/src/components/HistoryCard.jsx:23 | the spread sets the chosen field and keeps the other field |
| History.DropPosition | grade-projector-app/src/components/HistoryCard.jsx:17 | the position filter removes exactly the row at an in-range index, and keeps the list as is for any other index |
| History.RemoveSemester | grade-projector-app/src/components/HistoryCard.jsx:16-19 | never empty; with more than one row and the index in range, exactly that row goes and the rest keep their order; removing the only row leaves one blank row; an out-of-range index changes nothing |
| History.UpdateSemester | grade-projector-app/src/components/HistoryCard.jsx:21-25 | same length; the field of row `index` holds the value; that row's other field and every other row are unchanged |
| History.UpdateOverwrites | grade-projector-app/src/components/HistoryCard.jsx:21-25 | two edits of the same field keep only the last value |
| History.UpdateWithSameValueIsIdentity | grade-projector-app/src/components/HistoryCard.jsx:21-25 | writing back a field's own value changes nothing |
| History.RemoveUndoesAdd | grade-projector-app/src/components/HistoryCard.jsx:12-19 | removing the row just added restores a non-empty list |
| Engine.UsableRows | grade-projector-app/src/App.jsx:41-48 | the rows the loop counts: a row is kept iff it is one of the given rows and both its fields parse, and each usable row keeps its multiplicity (a repeated semester counts every time); never more rows than given |
| Engine.PastTotals | grade-projector-app/src/App.jsx:40-56 | detailed mode totals the usable rows alone; quick mode totals nothing unless both fields parse, and then the entered credits with the entered CGPA as their average |
| Engine.AccumulatePast | grade-projector-app/src/App.jsx:40-48 | the loop's running sums equal the fold over all rows and also the fold over the usable rows alone |
| Engine.TallyAppend | grade-projector-app/src/App.jsx:41-48 | the sums of a concatenated list are the sums of its parts |
| Engine.TallyInsert | grade-projector-app/src/App.jsx:41-48 | inserting a row anywhere adds exactly that row's grade points and credits |
| Engine.TallySkipsUnusableRow | grade-projector-app/src/App.jsx:44-47 | a row with a field that does not parse contributes nothing, wherever it stands |
| Engine.TallyOnlyUsableRows | grade-projector-app/src/App.jsx:41-48 | dropping every unusable row leaves the sums unchanged |
| Engine.SingleRowMatchesQuick | grade-projector-app/src/App.jsx:40-56 | one semester row in detailed mode sums to the same totals as the same pair in quick mode |
| Engine.TallyAroundIndex | grade-projector-app/src/App.jsx:41-48 | the sums of a list are those without row `index` plus that row's |
| Engine.AddSemesterKeepsTotals | grade-projector-app/src/components/HistoryCard.jsx:12-14 | if blank text does not parse, adding a semester leaves the past totals unchanged |
| Engine.RemoveSemesterTotals | grade-projector-app/src/components/HistoryCard.jsx:16-19 | removing a row takes away exactly that row's contribution |
| Engine.UpdateSemesterTotals | grade-projector-app/src/components/HistoryCard.jsx:21-25 | editing a row replaces that row's contribution and keeps the rest |
| Engine.PlanCredits | grade-projector-app/src/App.jsx:72-85 | next semester: credits to earn are the entered credits. Degree: the total is the entered credits, and it is accepted iff it exceeds the past credits, which makes the credits to earn positive. Either way total = past + to earn |
| Engine.Average | grade-projector-app/src/App.jsx:87 | the current CGPA times the past credits gives back the past points |
| Engine.ProjectedCgpa | grade-projector-app/src/App.jsx:117 | the projected CGPA times the total credits equals the past points plus SGPA times the credits to earn |
| Engine.RequiredSgpa | grade-projector-app/src/App.jsx:96-97 | the required SGPA supplies exactly the points missing to reach the target over the total credits |
| Engine.Label | grade-projector-app/src/App.jsx:92-110 | a tier a target landed in gets one of the five ladder labels; no target leaves the label empty |
| Engine.LabelInjective | grade-projector-app/src/App.jsx:100-111 | distinct tiers carry distinct labels |
| Engine.Classify | grade-projector-app/src/App.jsx:98-111 | exactly one of the five tiers, each characterized by an if-and-only-if in ladder order; a required SGPA of exactly 10 is not IMPOSSIBLE |
| Engine.ScenariosFrom | grade-projector-app/src/App.jsx:115-124 | from pass `k`, the loop emits `13 - k` rows, row `i` at SGPA `10 - (k + i) * 0.5` |
| Engine.ScenarioTable | grade-projector-app/src/App.jsx:115-124 | 13 rows; row `k` is the scenario at SGPA `10 - k * 0.5` |
| Engine.SnapshotAverages | grade-projector-app/src/App.jsx:87 | a snapshot carries the past credits, and its current CGPA times them is the past points |
| Engine.SnapshotBestAndTable | grade-projector-app/src/App.jsx:88 | a snapshot's best case scores 10 on every remaining credit; its table is the scenario loop's from its current CGPA |
| Engine.SnapshotGoal | grade-projector-app/src/App.jsx:91-112 | with a target, the required SGPA lands on it, the tier is the ladder's and the goal is reachable iff not IMPOSSIBLE. Without one, no required SGPA, an empty tier, reachable and no target |
| Engine.SnapshotDescribes | grade-projector-app/src/App.jsx:87-136 | the snapshot is described by the past totals, plan and target it is built from |
| Engine.Project | grade-projector-app/src/App.jsx:87-136 | never an early exit; non-finite iff the total credits are zero, or a target is set and the credits to earn are zero; every result is described by the past totals, plan and target |
| Engine.CheckAndProject | grade-projector-app/src/App.jsx:58-136 | the three exits in order, each as an if-and-only-if on the totals and parsed fields; non-finite iff all checks pass and the strategy's plan divides by zero; every result comes from a plan and is described by the totals, that plan and the target |
| Engine.Calculate | grade-projector-app/src/App.jsx:35-136 | the whole handler: past grades are checked first, then future credits, then the degree total; non-finite iff the checks pass and the plan divides by zero; every result is described by the aggregated record, the plan and the parsed target |
| ProjectionLaws.RequiredSgpaRoundTrip | grade-projector-app/src/App.jsx:96-97 | an SGPA projects exactly onto the target iff it is the required SGPA (the formula of line 117 inverts that of lines 96-97) |
| ProjectionLaws.RequiredSgpaIncreasing | grade-projector-app/src/App.jsx:96-97 | with positive credits ahead and a positive total, a higher target needs a strictly higher SGPA |
| ProjectionLaws.TierMonotone | grade-projector-app/src/App.jsx:100-111 | a higher required SGPA never lands on an easier tier |
| ProjectionLaws.HigherTargetNeverEasier | grade-projector-app/src/App.jsx:95-111 | on a sensible plan, raising the target never makes the tier easier |
| ProjectionLaws.ScenarioTableShape | grade-projector-app/src/App.jsx:115-124 | 13 rows from SGPA 10.0 to 4.0 in steps of 0.5; each change is the new CGPA minus the current one; the first row is the best case |
| ProjectionLaws.ProjectedCgpaStrictlyIncreasing | grade-projector-app/src/App.jsx:117 | with positive credits ahead and a positive total, a better SGPA gives a strictly better CGPA |
| ProjectionLaws.ScenariosStrictlyDecrease | grade-projector-app/src/App.jsx:116-117 | with positive credits ahead and a positive total, the new CGPA strictly decreases down the table |
| ProjectionLaws.ChangeFromCurrent | grade-projector-app/src/App.jsx:117-118 | the change is `(sgpa - current) * creditsToEarn / totalCredits` |
| ProjectionLaws.GainIffAboveCurrent | grade-projector-app/src/App.jsx:117-118 | on a sensible plan the CGPA rises iff the SGPA exceeds the current CGPA |
| ProjectionLaws.TableAgainstCurrent | grade-projector-app/src/App.jsx:115-124 | on a sensible plan the table strictly decreases and a row gains iff its SGPA beats the current CGPA |
| ProjectionLaws.BestCaseAgainstCurrent | grade-projector-app/src/App.jsx:88 | on a sensible plan the best case is the projection at SGPA 10, and it reaches the current CGPA iff that is at most 10 |
| ProjectionLaws.ComputedBestCase | grade-projector-app/src/App.jsx:87-124 | on a sensible plan a computed result's first scenario is its best case, which reaches the current CGPA iff the current CGPA is at most 10 |
| ProjectionLaws.ComputedAgainstCurrent | grade-projector-app/src/App.jsx:115-124 | on a sensible plan a computed result's table strictly decreases, and a row gains iff its SGPA beats the current CGPA |
| ProjectionLaws.QuickModeKeepsCgpa | grade-projector-app/src/App.jsx:49-56 | in quick mode the past credits are the entered credits and they average to exactly the entered CGPA |
| ProjectionLaws.QuickModeUnparsedAborts | grade-projector-app/src/App.jsx:49-61 | in quick mode an unparsed field leaves no past credits, so the past-grades exit is taken |
| ProjectionLaws.AddSemesterKeepsOutcome | grade-projector-app/src/components/HistoryCard.jsx:12-14 | adding a blank semester never changes what the handler yields |
| Display.ChangeClass | grade-projector-app/src/components/Results.jsx:87-88 | positive iff change > 0.01, negative iff change < -0.01, neutral otherwise |
| Display.SignPrefix | grade-projector-app/src/components/Results.jsx:96 | a plus iff the change is positive, nothing otherwise |
| Display.IsHighlighted | grade-projector-app/src/components/Results.jsx:89 | no highlight without a target or with a target of zero; with a truthy target a row at or above the target, or short of it by at most 0.001, is highlighted, and no highlighted row is short by more than 0.001 |
| Display.RenderRow | grade-projector-app/src/components/Results.jsx:86-97 | a row shows the scenario's numbers unchanged; it is green iff the change exceeds 0.01 and red iff it is below -0.01; it carries a plus iff the change is positive; it is lit iff the target highlights its new CGPA; hence a green change always carries a plus and a red one never does |
| Display.DifficultyClass | grade-projector-app/src/components/Results.jsx:18-26 | no class iff the label is not one of the five tier labels |
| Display.DifficultyClassOfTiers | grade-projector-app/src/components/Results.jsx:18-26 | every tier but the empty one gets a class of its own |
| Display.FeedbackBox | grade-projector-app/src/components/Results.jsx:48-70 | hidden iff there is no target; the stray text "0" iff the target is zero. Reachable iff truthy and reachable, showing the required SGPA, the tier and its badge. Unreachable iff truthy and not reachable, showing the best case |
| Display.Render | grade-projector-app/src/components/Results.jsx:4-100 | no result renders nothing; otherwise the feedback box and one styled row per scenario, in order |
| Display.ComputedIsRenderable | grade-projector-app/src/components/Results.jsx:48-56 | a computed result has a required SGPA whenever the panel reads one |
| Display.HighlightedRowsFormPrefix | grade-projector-app/src/components/Results.jsx:89 | on a table whose CGPA never rises, a row is highlighted iff it is among the leading highlighted rows |
| Display.TableHighlightsFormPrefix | grade-projector-app/src/components/Results.jsx:89 | with positive credits ahead and a positive total, the scenario rows that meet a target form a leading run of the table |
| Display.RenderedHighlightsFormPrefix | grade-projector-app/src/components/Results.jsx:86-92 | on a sensible plan the highlighted rendered rows are exactly a prefix of the table |
| Display.ChangeClassMonotone | grade-projector-app/src/components/Results.jsx:87-88 | a larger change never gets a lower colour class |
| Display.TableTrendsAndSigns | grade-projector-app/src/components/Results.jsx:87-96 | on a sensible plan colour classes never rise down the table, and a row's sign is a plus iff its SGPA beats the current CGPA |
| Display.RenderedTrendsAndSigns | grade-projector-app/src/components/Results.jsx:86-97 | the same for the rendered rows of a computed result |
| Display.FeedbackOfDescribed | grade-projector-app/src/components/Results.jsx:48-70 | with a truthy target the box is reachable iff the tier is not IMPOSSIBLE; its SGPA lands on the target; the unreachable box shows the best case |
| Validated.CheckAndProjectValidated | grade-projector-app/src/App.jsx:58-85 | the exits with positivity guards, each an if-and-only-if; never non-finite; a result agrees with the original |
| Validated.CalculateValidated | grade-projector-app/src/App.jsx:35-136 | the guarded handler is never non-finite and agrees with the original on every result |
| Validated.ValidatedAgreesOnSensibleInputs | grade-projector-app/src/App.jsx:58-85 | with positive past credits and positive credits ahead, the guarded and original checks coincide |
| Validated.ValidatedResultIsSensible | grade-projector-app/src/App.jsx:72-97 | every guarded result comes from a sensible plan and is described by it |
| Fixtures.RegressionFixture | grade-projector-app/src/App.jsx:35-136 | {8.5, 24} and {9.0, 24}, 24 credits next, target 9: current 8.75, required 9.5, MODERATE, reachable, best case 660/72, 13 rows |
| Fixtures.RegressionPanel | grade-projector-app/src/components/Results.jsx:48-92 | the same example renders the reachable box with 9.5 and the moderate badge, and highlights exactly the first two rows |
| Fixtures.DegreeFixture | grade-projector-app/src/App.jsx:78-84 | 48 past credits against a degree total of 40 stops at the degree check |
| Fixtures.NextZeroCreditsDividesByZero | grade-projector-app/src/App.jsx:75-97 | zero next-semester credits with a target divide by zero; the guarded handler refuses them |
| Fixtures.NegativePastCreditsDividesByZero | grade-projector-app/src/App.jsx:58-88 | past credits of -10 and 10 credits next give a zero total and divide by zero; the guarded handler refuses them |

## Left out

- Persistence through `localStorage` and the reset handler: I/O through a hook whose source is not part of this model.
- `alert`, `setResults`, `setTimeout` and `scrollIntoView`. The exits are `Aborted` outcomes, and a result is the returned `Computed` value.
- `parseFloat`'s own semantics (prefix parsing, whitespace, NaN): the reader is a parameter. Lemmas that need blank text to be NaN take `parse("") == None` as a hypothesis.
- IEEE-754 rounding: arithmetic is exact. The values the original publishes after a division by zero (Infinity, NaN) and how the panel would show them are folded into the single outcome `NonFinite`.
- `toFixed` formatting of the panel's numbers: it is presentation only, and the views keep exact values.
- The strategy and mode strings: the code treats any strategy other than `'next'` as the degree strategy, and any mode other than `'detailed'` as quick mode. The form sets only these two values each, so both are two-variant datatypes.
- History.UpdateSemester: requires an index within the list. The card only edits rendered rows, and the JavaScript behaviour of writing past the end of an array is not modelled.
- The results stat cards (current CGPA, past credits, the goal shown as `--` when falsy) and the static badge markup of the unreachable box: presentation with no decision.
- `CGPAProgressRing.jsx`: SVG geometry and animation in floating point.
- `ScenarioChart.jsx`: a chart wrapper whose only logic is reversing the table.
- `ConfirmModal.jsx`, `Tooltip.jsx`, `AnimatedButton.jsx`, `AnimatedStatCard.jsx`, `Header.jsx`, `StrategyCard.jsx` and the JSX of `HistoryCard.jsx`: components with no decisions.
- ProjectionLaws.HigherTargetNeverEasier: stated over the engine's required-SGPA and ladder functions, not over two whole results. The link to a result is `Describes`, whose required SGPA is unique by `RequiredSgpaRoundTrip`.

## Findings

| source | as written | input that shows it | evidently intended | confidence | as-written member | corrected member |
|---|---|---|---|---|---|---|
| grade-projector-app/src/App.jsx:75-77 | the next-semester strategy accepts any parsed credits, including zero and negative values | one semester {"8", "24"}, next semester, future credits "0", target "9": `requiredSGPA` divides 24 by 0 at line 97 | reject next-semester credits that are not positive, as the degree strategy does for its remainder | not executed | Fixtures.NextZeroCreditsDividesByZero | Validated.CalculateValidated |
| grade-projector-app/src/App.jsx:58 | the past-credits guard tests `=== 0`, so a negative credit sum passes | one semester {"8", "-10"}, next semester, future credits "10", no target: the total credits are 0 and `maxPossibleCGPA` divides 20 by 0 at line 88 | reject past credits that are not positive | not executed | Fixtures.NegativePastCreditsDividesByZero | Validated.CalculateValidated |
