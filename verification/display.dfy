/** The results panel: which feedback box appears, and how each scenario row is styled.

    Number formatting (`toFixed`) is presentation only and is not modelled; the views keep
    the exact values.
 */
module Display {
  import opened Parsing
  import opened Engine
  import opened ProjectionLaws

  /** A change larger than this, either way, is coloured as a gain or a loss. */
  const ChangeThreshold: real := 0.01
  /** A scenario counts as meeting the target when it falls short by at most this much. */
  const HighlightTolerance: real := 0.001

  /** Colour class of a change. */
  datatype Trend = Positive | Negative | Neutral

  /** Order of the colour classes, losses first. */
  function TrendRank(t: Trend): nat
  {
    match t
    case Negative => 0
    case Neutral => 1
    case Positive => 2
  }

  /** The change class of a scenario: three cases, exclusive and exhaustive. */
  function ChangeClass(change: real): (t: Trend)
    ensures t == Positive <==> change > ChangeThreshold
    ensures t == Negative <==> change < -ChangeThreshold
    ensures t == Neutral <==> -ChangeThreshold <= change <= ChangeThreshold
  {
    if change > ChangeThreshold then Positive
    else if change < -ChangeThreshold then Negative
    else Neutral
  }

  /** A row is highlighted when a truthy target is met, up to the tolerance: without a
      target, or with a target of zero, nothing is highlighted; a row that meets the target,
      or falls short of it by at most the tolerance, is; and no highlighted row falls short
      of it by more than the tolerance. */
  function IsHighlighted(target: Option<real>, newCgpa: real): (lit: bool)
    ensures target.None? || target == Some(0.0) ==> !lit
    ensures Truthy(target) && newCgpa >= target.value ==> lit
    ensures Truthy(target) && target.value - newCgpa <= HighlightTolerance ==> lit
    ensures lit ==> target.Some? && newCgpa >= target.value - HighlightTolerance
  {
    Truthy(target) && newCgpa >= target.value - HighlightTolerance
  }

  /** The sign shown before a change: a plus for a gain, nothing otherwise (a loss carries
      its own minus sign). */
  function SignPrefix(change: real): (prefix: string)
    ensures prefix == "+" <==> change > 0.0
    ensures prefix == "" <==> change <= 0.0
  {
    if change > 0.0 then "+" else ""
  }

  /** Badge class of a difficulty label; a label outside the ladder's five, the empty one
      included, gets no class. */
  function DifficultyClass(difficulty: string): (css: string)
    ensures css == "" <==> difficulty !in TierLabels
  {
    match difficulty
    case "COMFORTABLE" => "comfortable"
    case "EASY REACH" => "easy"
    case "MODERATE" => "moderate"
    case "HARD GRIND" => "hard"
    case "IMPOSSIBLE" => "impossible"
    case _ => ""
  }

  /** The badge tells the tiers apart: every tier but the empty one gets a class of its own,
      and the empty label gets none. */
  lemma DifficultyClassOfTiers(t1: Tier, t2: Tier)
    ensures DifficultyClass(Label(t1)) == "" <==> t1 == NoTier
    ensures DifficultyClass(Label(t1)) == DifficultyClass(Label(t2)) ==> t1 == t2
  {
  }

  /** The feedback box above the table.  `ZeroText` is what the guard `targetCGPA && ...`
      puts on the page for a target of zero: the falsy number itself, as the text "0". */
  datatype Feedback =
    | Hidden
    | ZeroText
    | Reachable(requiredSgpa: real, tierLabel: string, badge: string)
    | Unreachable(maxPossibleCgpa: real)   // "Goal Unreachable" with the IMPOSSIBLE badge

  /** The panel reads the required SGPA whenever a truthy target is reachable. */
  predicate Renderable(p: Projection)
  {
    Truthy(p.targetCgpa) && p.isGoalReachable ==> p.requiredSgpa.Some?
  }

  /** Which feedback box a result shows. */
  function FeedbackBox(p: Projection): (f: Feedback)
    requires Renderable(p)
    ensures f.Hidden? <==> p.targetCgpa.None?
    ensures f.ZeroText? <==> p.targetCgpa == Some(0.0)
    ensures f.Reachable? <==> Truthy(p.targetCgpa) && p.isGoalReachable
    ensures f.Unreachable? <==> Truthy(p.targetCgpa) && !p.isGoalReachable
    ensures f.Reachable? ==>
      f.requiredSgpa == p.requiredSgpa.value
      && f.tierLabel == Label(p.difficulty)
      && f.badge == DifficultyClass(Label(p.difficulty))
    ensures f.Unreachable? ==> f.maxPossibleCgpa == p.maxPossibleCgpa
  {
    if p.targetCgpa.None? then Hidden
    else if p.targetCgpa.value == 0.0 then ZeroText
    else if p.isGoalReachable then
      Reachable(p.requiredSgpa.value, Label(p.difficulty), DifficultyClass(Label(p.difficulty)))
    else Unreachable(p.maxPossibleCgpa)
  }

  /** One rendered row of the scenario table. */
  datatype RowView = RowView(sgpa: real, newCgpa: real, change: real, highlighted: bool, trend: Trend, prefix: string)

  /** A rendered row shows the scenario's numbers as they are, coloured by its change,
      signed by its change and lit by the target; a green change always carries a plus and
      a red one never does; only a truthy target highlights. */
  function RenderRow(target: Option<real>, s: Scenario): (row: RowView)
    ensures row.sgpa == s.sgpa && row.newCgpa == s.newCgpa && row.change == s.change
    ensures row.trend == Positive <==> s.change > ChangeThreshold
    ensures row.trend == Negative <==> s.change < -ChangeThreshold
    ensures row.prefix == "+" <==> s.change > 0.0
    ensures row.highlighted == IsHighlighted(target, s.newCgpa)
    ensures row.trend == Positive ==> row.prefix == "+"
    ensures row.trend == Negative ==> row.prefix == ""
    ensures row.trend == Neutral && row.prefix == "+" ==> 0.0 < s.change <= ChangeThreshold
    ensures row.highlighted ==> Truthy(target)
  {
    RowView(s.sgpa, s.newCgpa, s.change, IsHighlighted(target, s.newCgpa), ChangeClass(s.change), SignPrefix(s.change))
  }

  /** The rendered panel: feedback box and table rows. */
  datatype View = View(feedback: Feedback, rows: seq<RowView>)

  /** The whole panel; no result renders nothing. */
  function Render(results: Option<Projection>): (v: Option<View>)
    requires results.Some? ==> Renderable(results.value)
    ensures v.None? <==> results.None?
    ensures v.Some? ==>
      && v.value.feedback == FeedbackBox(results.value)
      && |v.value.rows| == |results.value.scenarios|
      && forall i :: 0 <= i < |v.value.rows| ==>
           v.value.rows[i] == RenderRow(results.value.targetCgpa, results.value.scenarios[i])
  {
    match results
    case None => None
    case Some(p) =>
      Some(View(FeedbackBox(p), seq(|p.scenarios|, i requires 0 <= i < |p.scenarios| => RenderRow(p.targetCgpa, p.scenarios[i]))))
  }

  /** Every computed result can be rendered. */
  lemma ComputedIsRenderable(pastPoints: real, pastCredits: real, plan: Plan, target: Option<real>)
    requires pastCredits != 0.0 && plan.totalCredits != 0.0
    requires target.Some? ==> plan.creditsToEarn != 0.0
    ensures Project(pastPoints, pastCredits, plan, target).Computed?
    ensures Renderable(Project(pastPoints, pastCredits, plan, target).projection)
  {
  }

  // ---------------------------------------------------------------------------
  // Highlighted rows form a prefix of the table

  predicate NonIncreasing(rows: seq<Scenario>)
  {
    forall i, j :: 0 <= i < j < |rows| ==> rows[i].newCgpa >= rows[j].newCgpa
  }

  /** How many rows, from the top, are highlighted without a break. */
  function LeadingHighlighted(target: Option<real>, rows: seq<Scenario>): (n: nat)
    ensures n <= |rows|
  {
    if |rows| == 0 || !IsHighlighted(target, rows[0].newCgpa) then 0
    else 1 + LeadingHighlighted(target, rows[1..])
  }

  /** On a table whose projected CGPA never rises, the highlighted rows are exactly the
      first `LeadingHighlighted` ones. */
  lemma {:induction false} HighlightedRowsFormPrefix(target: Option<real>, rows: seq<Scenario>)
    requires NonIncreasing(rows)
    ensures forall i :: 0 <= i < |rows| ==>
      (IsHighlighted(target, rows[i].newCgpa) <==> i < LeadingHighlighted(target, rows))
  {
    if |rows| > 0 {
      if IsHighlighted(target, rows[0].newCgpa) {
        var rest := rows[1..];
        assert NonIncreasing(rest) by {
          forall i, j | 0 <= i < j < |rest|
            ensures rest[i].newCgpa >= rest[j].newCgpa
          {
            assert rest[i] == rows[i + 1] && rest[j] == rows[j + 1];
          }
        }
        HighlightedRowsFormPrefix(target, rest);
        forall i | 1 <= i < |rows|
          ensures IsHighlighted(target, rows[i].newCgpa) <==> i < LeadingHighlighted(target, rows)
        {
          assert rows[i] == rest[i - 1];
        }
      } else {
        forall i | 0 <= i < |rows|
          ensures !IsHighlighted(target, rows[i].newCgpa)
        {
          if i > 0 {
            assert rows[0].newCgpa >= rows[i].newCgpa;
          }
        }
      }
    }
  }

  /** On a sensible plan the rendered table highlights exactly its first rows: the ones
      whose projected CGPA meets the target. */
  lemma RenderedHighlightsFormPrefix(p: Projection, pastPoints: real, pastCredits: real, plan: Plan, target: Option<real>)
    requires Sensible(pastCredits, plan)
    requires Describes(p, pastPoints, pastCredits, plan, target)
    ensures Renderable(p)
    ensures var v := Render(Some(p)).value;
      forall i :: 0 <= i < |v.rows| ==>
        (v.rows[i].highlighted <==> i < LeadingHighlighted(p.targetCgpa, p.scenarios))
  {
    TableHighlightsFormPrefix(pastPoints, p.currentCgpa, plan, p.targetCgpa);
    var v := Render(Some(p)).value;
    forall i | 0 <= i < |v.rows|
      ensures v.rows[i].highlighted <==> i < LeadingHighlighted(p.targetCgpa, p.scenarios)
    {
      assert v.rows[i] == RenderRow(p.targetCgpa, p.scenarios[i]);
    }
  }

  /** On a sensible plan the scenario table meets a target in a leading run of rows. */
  lemma TableHighlightsFormPrefix(pastPoints: real, current: real, plan: Plan, target: Option<real>)
    requires plan.creditsToEarn > 0.0 && plan.totalCredits > 0.0
    ensures var table := ScenarioTable(pastPoints, current, plan);
      forall i :: 0 <= i < |table| ==>
        (IsHighlighted(target, table[i].newCgpa) <==> i < LeadingHighlighted(target, table))
  {
    ScenariosStrictlyDecrease(pastPoints, current, plan);
    HighlightedRowsFormPrefix(target, ScenarioTable(pastPoints, current, plan));
  }

  /** Raising the change never lowers its colour class. */
  lemma ChangeClassMonotone(lo: real, hi: real)
    requires lo <= hi
    ensures TrendRank(ChangeClass(lo)) <= TrendRank(ChangeClass(hi))
  {
  }

  /** On a sensible plan the colour classes of the scenario table run from gains down to
      losses, and a row's change is signed with a plus exactly when its SGPA beats the
      current CGPA. */
  lemma TableTrendsAndSigns(pastPoints: real, pastCredits: real, current: real, plan: Plan)
    requires Sensible(pastCredits, plan)
    requires current * pastCredits == pastPoints
    ensures var table := ScenarioTable(pastPoints, current, plan);
      && (forall i, j :: 0 <= i < j < |table| ==>
            TrendRank(ChangeClass(table[i].change)) >= TrendRank(ChangeClass(table[j].change)))
      && (forall i :: 0 <= i < |table| ==> (SignPrefix(table[i].change) == "+" <==> table[i].sgpa > current))
  {
    var table := ScenarioTable(pastPoints, current, plan);
    ScenarioTableShape(pastPoints, current, plan);
    ScenariosStrictlyDecrease(pastPoints, current, plan);
    forall i, j | 0 <= i < j < |table|
      ensures TrendRank(ChangeClass(table[i].change)) >= TrendRank(ChangeClass(table[j].change))
    {
      ChangeClassMonotone(table[j].change, table[i].change);
    }
    forall i | 0 <= i < |table|
      ensures SignPrefix(table[i].change) == "+" <==> table[i].sgpa > current
    {
      assert table[i] == ScenarioAt(pastPoints, current, plan, ScenarioSgpa(i));
      GainIffAboveCurrent(pastPoints, pastCredits, current, plan, ScenarioSgpa(i));
    }
  }

  /** On a sensible plan the rendered colour classes run from gains down to losses along
      the table, and a rendered row carries a plus sign exactly when its SGPA beats the
      current CGPA. */
  lemma RenderedTrendsAndSigns(p: Projection, pastPoints: real, pastCredits: real, plan: Plan, target: Option<real>)
    requires Sensible(pastCredits, plan)
    requires Describes(p, pastPoints, pastCredits, plan, target)
    ensures Renderable(p)
    ensures var v := Render(Some(p)).value;
      && (forall i, j :: 0 <= i < j < |v.rows| ==> TrendRank(v.rows[i].trend) >= TrendRank(v.rows[j].trend))
      && (forall i :: 0 <= i < |v.rows| ==> (v.rows[i].prefix == "+" <==> v.rows[i].sgpa > p.currentCgpa))
  {
    TableTrendsAndSigns(pastPoints, pastCredits, p.currentCgpa, plan);
  }

  /** With a truthy target, a result whose outlook is described shows the reachable box with the required
      SGPA that lands on the target exactly when the tier is not IMPOSSIBLE, and otherwise
      the unreachable box with the best case. */
  lemma FeedbackOfDescribed(p: Projection, pastPoints: real, plan: Plan, target: Option<real>)
    requires DescribesOutlook(p, pastPoints, plan, target)
    requires Truthy(target)
    ensures Renderable(p)
    ensures FeedbackBox(p).Reachable? <==> p.difficulty != Impossible
    ensures FeedbackBox(p).Reachable? ==>
      pastPoints + FeedbackBox(p).requiredSgpa * plan.creditsToEarn == target.value * plan.totalCredits
    ensures FeedbackBox(p).Unreachable? ==>
      FeedbackBox(p).maxPossibleCgpa * plan.totalCredits == pastPoints + MaxGrade * plan.creditsToEarn
  {
    assert p.targetCgpa == target && p.requiredSgpa.Some?;
    assert p.isGoalReachable <==> p.difficulty != Impossible;
    var f := FeedbackBox(p);
    if p.isGoalReachable {
      assert f.requiredSgpa == p.requiredSgpa.value;
    } else {
      assert f.maxPossibleCgpa == p.maxPossibleCgpa;
    }
  }
}
