/** Worked examples of the calculation, with a fixed number reader standing in for the
    browser's: a regression example, an early exit of the rest-of-degree strategy, and the
    two inputs that reach a division by zero in the original handler.
 */
module Fixtures {
  import opened Parsing
  import opened History
  import opened Engine
  import opened ProjectionLaws
  import opened Display
  import opened Validated

  /** A number reader that knows the handful of strings the fixtures type; everything else,
      blank text included, is not a number. */
  function FixtureParse(s: string): Option<real>
  {
    match s
    case "8.5" => Some(8.5)
    case "9.0" => Some(9.0)
    case "9" => Some(9.0)
    case "8" => Some(8.0)
    case "0" => Some(0.0)
    case "10" => Some(10.0)
    case "-10" => Some(-10.0)
    case "24" => Some(24.0)
    case "40" => Some(40.0)
    case "48" => Some(48.0)
    case _ => None
  }

  /** What the reader makes of each string the fixtures type. */
  lemma FixtureReadings()
    ensures FixtureParse("8.5") == Some(8.5) && FixtureParse("9.0") == Some(9.0)
    ensures FixtureParse("9") == Some(9.0) && FixtureParse("8") == Some(8.0)
    ensures FixtureParse("0") == Some(0.0) && FixtureParse("10") == Some(10.0)
    ensures FixtureParse("-10") == Some(-10.0) && FixtureParse("24") == Some(24.0)
    ensures FixtureParse("40") == Some(40.0) && FixtureParse("48") == Some(48.0)
    ensures FixtureParse("") == None
  {
  }

  /** The totals of a one-semester record whose fields read as `grade` and `credits`. */
  lemma OneRowTotals(row: SemesterRow, parse: Parser, grade: real, credits: real)
    requires parse(row.sgpa) == Some(grade) && parse(row.credits) == Some(credits)
    ensures Tally([row], parse) == Totals(grade * credits, credits)
  {
    TallySingle(row, parse);
  }

  /** The past totals of a detailed record of one semester whose fields read as `grade`
      and `credits`. */
  lemma OneRowPast(inp: Inputs, grade: real, credits: real)
    requires inp.mode == Detailed && |inp.semesters| == 1
    requires FixtureParse(inp.semesters[0].sgpa) == Some(grade)
    requires FixtureParse(inp.semesters[0].credits) == Some(credits)
    ensures PastTotals(inp, FixtureParse) == Totals(grade * credits, credits)
  {
    assert inp.semesters == [inp.semesters[0]];
    OneRowTotals(inp.semesters[0], FixtureParse, grade, credits);
  }

  const BlankQuick: QuickEntry := QuickEntry("", "")

  /** Both handlers on a form whose past totals and parsed fields are known. */
  lemma HandlersOn(inp: Inputs, parse: Parser, past: Totals, future: Option<real>, target: Option<real>)
    requires PastTotals(inp, parse) == past
    requires parse(inp.futureCredits) == future && parse(inp.targetCgpa) == target
    ensures Calculate(inp, parse) == CheckAndProject(past, inp.strategy, future, target)
    ensures CalculateValidated(inp, parse) == CheckAndProjectValidated(past, inp.strategy, future, target)
  {
  }

  /** Two semesters of 24 credits at SGPA 8.5 and 9.0, 24 credits next semester, target 9. */
  const RegressionInputs: Inputs :=
    Inputs(Detailed, [SemesterRow("8.5", "24"), SemesterRow("9.0", "24")], BlankQuick, NextSemester, "24", "9")

  lemma RegressionTotals()
    ensures PastTotals(RegressionInputs, FixtureParse) == Totals(420.0, 48.0)
  {
    var rows := RegressionInputs.semesters;
    FixtureReadings();
    assert rows == [rows[0]] + [rows[1]];
    TallyAppend([rows[0]], [rows[1]], FixtureParse);
    OneRowTotals(rows[0], FixtureParse, 8.5, 24.0);
    OneRowTotals(rows[1], FixtureParse, 9.0, 24.0);
  }

  /** The regression example reaches the projection with past totals 420 and 48 and the
      plan of 24 credits to earn out of 72. */
  lemma RegressionOutcome()
    ensures Calculate(RegressionInputs, FixtureParse) == Project(420.0, 48.0, Plan(24.0, 72.0), Some(9.0))
  {
    var inp := RegressionInputs;
    RegressionTotals();
    FixtureReadings();
    assert FixtureParse(inp.futureCredits) == Some(24.0);
    assert FixtureParse(inp.targetCgpa) == Some(9.0);
    assert Calculate(inp, FixtureParse) == CheckAndProject(Totals(420.0, 48.0), NextSemester, Some(24.0), Some(9.0));
    assert PlanCredits(NextSemester, 48.0, 24.0) == Some(Plan(24.0, 72.0));
  }

  /** What any result described by the regression totals, plan and target holds. */
  lemma RegressionValues(p: Projection)
    requires Describes(p, 420.0, 48.0, Plan(24.0, 72.0), Some(9.0))
    ensures p.currentCgpa == 8.75 && p.requiredSgpa == Some(9.5)
    ensures p.difficulty == Moderate && p.isGoalReachable
  {
    assert p.currentCgpa == 8.75;
    assert p.requiredSgpa.value == 9.5;
  }

  /** The regression example: current CGPA 8.75, required SGPA 9.5 (a gap of 0.75, so
      MODERATE), reachable, best case 660/72, thirteen scenario rows. */
  lemma RegressionFixture()
    ensures var o := Calculate(RegressionInputs, FixtureParse);
      && o.Computed?
      && o.projection.currentCgpa == 8.75
      && o.projection.pastCredits == 48.0
      && o.projection.requiredSgpa == Some(9.5)
      && o.projection.difficulty == Moderate
      && o.projection.isGoalReachable
      && o.projection.maxPossibleCgpa * 72.0 == 660.0
      && |o.projection.scenarios| == ScenarioCount
  {
    var plan := Plan(24.0, 72.0);
    RegressionOutcome();
    RegressionValues(Project(420.0, 48.0, plan, Some(9.0)).projection);
  }

  /** The rows highlighted for any result described by the regression totals, plan and
      target: the first two. */
  lemma RegressionHighlights(p: Projection)
    requires Describes(p, 420.0, 48.0, Plan(24.0, 72.0), Some(9.0))
    ensures Renderable(p)
    ensures var v := Render(Some(p)).value;
      |v.rows| == 13 && forall i :: 0 <= i < 13 ==> (v.rows[i].highlighted <==> i < 2)
  {
    var plan := Plan(24.0, 72.0);
    RenderedHighlightsFormPrefix(p, 420.0, 48.0, plan, Some(9.0));
    var v := Render(Some(p)).value;
    assert p.scenarios[1] == ScenarioAt(420.0, p.currentCgpa, plan, 9.5);
    assert p.scenarios[2] == ScenarioAt(420.0, p.currentCgpa, plan, 9.0);
    assert v.rows[1].highlighted;
    assert !v.rows[2].highlighted;
  }

  /** The panel of any result described by the regression totals, plan and target. */
  lemma RegressionPanelValues(p: Projection)
    requires Describes(p, 420.0, 48.0, Plan(24.0, 72.0), Some(9.0))
    ensures Renderable(p)
    ensures FeedbackBox(p) == Reachable(9.5, "MODERATE", "moderate")
    ensures var v := Render(Some(p)).value;
      |v.rows| == 13 && forall i :: 0 <= i < 13 ==> (v.rows[i].highlighted <==> i < 2)
  {
    RegressionValues(p);
    RegressionHighlights(p);
    assert p.targetCgpa == Some(9.0) && Truthy(p.targetCgpa);
    assert Label(p.difficulty) == "MODERATE" && DifficultyClass("MODERATE") == "moderate";
  }

  /** The panel for the regression example: the reachable box with required SGPA 9.5 and
      the MODERATE badge, and exactly the first two rows (SGPA 10 and 9.5) highlighted. */
  lemma RegressionPanel()
    ensures Calculate(RegressionInputs, FixtureParse).Computed?
    ensures var p := Calculate(RegressionInputs, FixtureParse).projection;
      && Renderable(p)
      && FeedbackBox(p) == Reachable(9.5, "MODERATE", "moderate")
      && var v := Render(Some(p)).value;
         |v.rows| == 13 && forall i :: 0 <= i < 13 ==> (v.rows[i].highlighted <==> i < 2)
  {
    var o := Calculate(RegressionInputs, FixtureParse);
    var q := Project(420.0, 48.0, Plan(24.0, 72.0), Some(9.0));
    RegressionOutcome();
    assert o == q;
    assert !DividesByZero(Plan(24.0, 72.0), Some(9.0));
    assert q.Computed?;
    RegressionPanelValues(q.projection);
  }

  /** 48 past credits against a degree total of 40: the rest-of-degree check stops. */
  const DegreeInputs: Inputs :=
    Inputs(Detailed, [SemesterRow("8", "48")], BlankQuick, RestOfDegree, "40", "")

  lemma DegreeFixture()
    ensures Calculate(DegreeInputs, FixtureParse) == Aborted(CreditsNotAbovePast)
    ensures CalculateValidated(DegreeInputs, FixtureParse) == Aborted(CreditsNotAbovePast)
  {
    var inp := DegreeInputs;
    OneRowPast(inp, 8.0, 48.0);
    FixtureReadings();
    assert FixtureParse(inp.futureCredits) == Some(40.0);
    assert FixtureParse(inp.targetCgpa) == None;
    HandlersOn(inp, FixtureParse, Totals(384.0, 48.0), Some(40.0), None);
  }

  /** Zero credits next semester with a target: the required SGPA divides by zero. */
  const NextZeroCreditsInputs: Inputs :=
    Inputs(Detailed, [SemesterRow("8", "24")], BlankQuick, NextSemester, "0", "9")

  lemma NextZeroCreditsDividesByZero()
    ensures Calculate(NextZeroCreditsInputs, FixtureParse) == NonFinite
    ensures CalculateValidated(NextZeroCreditsInputs, FixtureParse) == Aborted(NoCreditsAhead)
  {
    var inp := NextZeroCreditsInputs;
    OneRowPast(inp, 8.0, 24.0);
    FixtureReadings();
    assert FixtureParse(inp.futureCredits) == Some(0.0);
    assert FixtureParse(inp.targetCgpa) == Some(9.0);
    HandlersOn(inp, FixtureParse, Totals(192.0, 24.0), Some(0.0), Some(9.0));
    assert PlanCredits(NextSemester, 24.0, 0.0) == Some(Plan(0.0, 24.0));
  }

  /** A semester of -10 credits and 10 credits next semester: the credit base is zero, and
      the best case divides by zero. */
  const NegativePastCreditsInputs: Inputs :=
    Inputs(Detailed, [SemesterRow("8", "-10")], BlankQuick, NextSemester, "10", "")

  lemma NegativePastCreditsDividesByZero()
    ensures Calculate(NegativePastCreditsInputs, FixtureParse) == NonFinite
    ensures CalculateValidated(NegativePastCreditsInputs, FixtureParse) == Aborted(InvalidPastGrades)
  {
    var inp := NegativePastCreditsInputs;
    OneRowPast(inp, 8.0, -10.0);
    FixtureReadings();
    assert FixtureParse(inp.futureCredits) == Some(10.0);
    assert FixtureParse(inp.targetCgpa) == None;
    HandlersOn(inp, FixtureParse, Totals(-80.0, -10.0), Some(10.0), None);
    assert PlanCredits(NextSemester, -10.0, 10.0) == Some(Plan(10.0, 0.0));
  }
}
