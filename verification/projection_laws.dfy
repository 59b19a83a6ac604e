/** Laws of the projection engine: the round trip of the required SGPA, the shape and
    ordering of the scenario table, how the tier moves with the target, and how the history
    editor's operations act on the outcome.
 */
module ProjectionLaws {
  import opened Parsing
  import opened History
  import opened Engine

  // ---------------------------------------------------------------------------
  // Real arithmetic helpers

  /** A non-zero factor can be cancelled from both sides. */
  lemma CancelFactor(x: real, y: real, e: real)
    requires e != 0.0 && x * e == y * e
    ensures x == y
  {
    assert (x - y) * e == 0.0;
  }

  /** Two solutions of the same linear equation with a non-zero coefficient are equal. */
  lemma SameSolution(x: real, y: real, e: real, v: real)
    requires e != 0.0 && x * e == v && y * e == v
    ensures x == y
  {
    CancelFactor(x, y, e);
  }

  /** A factor whose product with a positive real is positive is itself positive. */
  lemma PositiveFactor(x: real, e: real)
    requires e > 0.0 && x * e > 0.0
    ensures x > 0.0
  {
    assert x == (x * e) / e;
  }

  /** Scaling by a positive ratio keeps the sign. */
  lemma SignOfScaled(d: real, e: real, t: real)
    requires e > 0.0 && t > 0.0
    ensures d * e / t > 0.0 <==> d > 0.0
    ensures d * e / t >= 0.0 <==> d >= 0.0
  {
    if d > 0.0 {
      assert d * e > 0.0;
    } else if d < 0.0 {
      assert d * e < 0.0;
      assert (-(d * e)) / t > 0.0;
    }
  }

  /** An average of `grade * credits` points over `credits` credits is `grade`. */
  lemma AverageOfPair(grade: real, credits: real)
    requires credits != 0.0
    ensures Average(grade * credits, credits) == grade
  {
    CancelFactor(Average(grade * credits, credits), grade, credits);
  }

  // ---------------------------------------------------------------------------
  // The required SGPA

  /** The required SGPA is the one and only SGPA whose projected CGPA is the target. */
  lemma RequiredSgpaRoundTrip(pastPoints: real, target: real, plan: Plan, sgpa: real)
    requires plan.creditsToEarn != 0.0 && plan.totalCredits != 0.0
    ensures ProjectedCgpa(pastPoints, sgpa, plan) == target <==> sgpa == RequiredSgpa(pastPoints, target, plan)
  {
    var e, t := plan.creditsToEarn, plan.totalCredits;
    var required := RequiredSgpa(pastPoints, target, plan);
    var projected := ProjectedCgpa(pastPoints, sgpa, plan);
    if sgpa == required {
      assert projected * t == target * t;
      CancelFactor(projected, target, t);
    }
    if projected == target {
      assert sgpa * e == required * e;
      CancelFactor(sgpa, required, e);
    }
  }

  /** With positive credits ahead and a positive credit base, a higher target needs a
      strictly higher SGPA. */
  lemma RequiredSgpaIncreasing(pastPoints: real, plan: Plan, lo: real, hi: real)
    requires plan.creditsToEarn > 0.0 && plan.totalCredits > 0.0
    requires lo < hi
    ensures RequiredSgpa(pastPoints, lo, plan) < RequiredSgpa(pastPoints, hi, plan)
  {
    var e, t := plan.creditsToEarn, plan.totalCredits;
    var r1, r2 := RequiredSgpa(pastPoints, lo, plan), RequiredSgpa(pastPoints, hi, plan);
    assert (r2 - r1) * e == (hi - lo) * t;
    assert (hi - lo) * t > 0.0;
    PositiveFactor(r2 - r1, e);
  }

  /** Climbing the ladder: a higher required SGPA never lands on an easier tier. */
  lemma TierMonotone(lo: real, hi: real, current: real)
    requires lo <= hi
    ensures Rank(Classify(lo, current)) <= Rank(Classify(hi, current))
  {
  }

  /** The predicate of a sensible plan: positive past credits and positive credits still to
      earn, so the credit base is positive too. */
  predicate Sensible(pastCredits: real, plan: Plan)
  {
    pastCredits > 0.0 && plan.creditsToEarn > 0.0 && plan.totalCredits == pastCredits + plan.creditsToEarn
  }

  /** Raising the target never makes the tier easier: on a sensible plan the required
      SGPA of the higher target is classified at least as hard as that of the lower one,
      whatever the current CGPA. */
  lemma HigherTargetNeverEasier(pastPoints: real, pastCredits: real, plan: Plan, current: real, lo: real, hi: real)
    requires Sensible(pastCredits, plan)
    requires lo <= hi
    ensures Rank(Classify(RequiredSgpa(pastPoints, lo, plan), current))
         <= Rank(Classify(RequiredSgpa(pastPoints, hi, plan), current))
  {
    if lo < hi {
      RequiredSgpaIncreasing(pastPoints, plan, lo, hi);
    }
    TierMonotone(RequiredSgpa(pastPoints, lo, plan), RequiredSgpa(pastPoints, hi, plan), current);
  }

  // ---------------------------------------------------------------------------
  // The scenario table

  /** The scenario table has 13 rows, SGPA 10.0 down to 4.0 in steps of 0.5, each change
      measured from the current CGPA, and its first row is the best case. */
  lemma ScenarioTableShape(pastPoints: real, current: real, plan: Plan)
    requires plan.totalCredits != 0.0
    ensures var table := ScenarioTable(pastPoints, current, plan);
      && |table| == 13
      && table[0].sgpa == 10.0
      && table[12].sgpa == 4.0
      && (forall k :: 0 <= k < 12 ==> table[k + 1].sgpa == table[k].sgpa - 0.5)
      && (forall k :: 0 <= k < 13 ==> table[k].change == table[k].newCgpa - current)
      && table[0].newCgpa == ProjectedCgpa(pastPoints, MaxGrade, plan)
  {
    var table := ScenarioTable(pastPoints, current, plan);
    forall k | 0 <= k < 12
      ensures table[k + 1].sgpa == table[k].sgpa - 0.5
    {
      assert table[k + 1].sgpa == ScenarioSgpa(k + 1);
      assert table[k].sgpa == ScenarioSgpa(k);
    }
  }

  /** With positive credits ahead and a positive credit base, a better future SGPA gives a
      strictly better projected CGPA. */
  lemma ProjectedCgpaStrictlyIncreasing(pastPoints: real, plan: Plan, lo: real, hi: real)
    requires plan.creditsToEarn > 0.0 && plan.totalCredits > 0.0
    requires lo < hi
    ensures ProjectedCgpa(pastPoints, lo, plan) < ProjectedCgpa(pastPoints, hi, plan)
  {
    var e, t := plan.creditsToEarn, plan.totalCredits;
    var c1, c2 := ProjectedCgpa(pastPoints, lo, plan), ProjectedCgpa(pastPoints, hi, plan);
    assert (c2 - c1) * t == (hi - lo) * e;
    assert (hi - lo) * e > 0.0;
    PositiveFactor(c2 - c1, t);
  }

  /** With positive credits ahead and a positive credit base, the projected CGPA strictly
      decreases down the scenario table. */
  lemma ScenariosStrictlyDecrease(pastPoints: real, current: real, plan: Plan)
    requires plan.creditsToEarn > 0.0 && plan.totalCredits > 0.0
    ensures var table := ScenarioTable(pastPoints, current, plan);
      forall i, j :: 0 <= i < j < |table| ==> table[i].newCgpa > table[j].newCgpa
  {
    var table := ScenarioTable(pastPoints, current, plan);
    forall i, j | 0 <= i < j < |table|
      ensures table[i].newCgpa > table[j].newCgpa
    {
      assert ScenarioSgpa(j) < ScenarioSgpa(i);
      ProjectedCgpaStrictlyIncreasing(pastPoints, plan, ScenarioSgpa(j), ScenarioSgpa(i));
    }
  }

  /** Scoring `sgpa` on the remaining credits moves the CGPA away from the current one by
      `(sgpa - current) * creditsToEarn / totalCredits`. */
  lemma ChangeFromCurrent(pastPoints: real, pastCredits: real, current: real, plan: Plan, sgpa: real)
    requires pastCredits != 0.0 && plan.totalCredits != 0.0
    requires plan.totalCredits == pastCredits + plan.creditsToEarn
    requires current * pastCredits == pastPoints
    ensures ProjectedCgpa(pastPoints, sgpa, plan) - current
         == (sgpa - current) * plan.creditsToEarn / plan.totalCredits
  {
    var e, t := plan.creditsToEarn, plan.totalCredits;
    var projected := ProjectedCgpa(pastPoints, sgpa, plan);
    calc {
      (projected - current) * t;
      pastPoints + sgpa * e - current * t;
      current * pastCredits + sgpa * e - current * (pastCredits + e);
      (sgpa - current) * e;
    }
    CancelFactor(projected - current, (sgpa - current) * e / t, t);
  }

  /** On a sensible plan, scoring `sgpa` raises the CGPA above the current one exactly when
      `sgpa` exceeds the current CGPA, and keeps it at least as high exactly when `sgpa` is
      at least the current CGPA. */
  lemma GainIffAboveCurrent(pastPoints: real, pastCredits: real, current: real, plan: Plan, sgpa: real)
    requires Sensible(pastCredits, plan)
    requires current * pastCredits == pastPoints
    ensures ProjectedCgpa(pastPoints, sgpa, plan) - current > 0.0 <==> sgpa > current
    ensures ProjectedCgpa(pastPoints, sgpa, plan) >= current <==> sgpa >= current
  {
    ChangeFromCurrent(pastPoints, pastCredits, current, plan, sgpa);
    SignOfScaled(sgpa - current, plan.creditsToEarn, plan.totalCredits);
  }

  /** On a sensible plan the scenario table strictly decreases, and a row shows a gain
      exactly when its SGPA exceeds the current CGPA. */
  lemma TableAgainstCurrent(pastPoints: real, pastCredits: real, current: real, plan: Plan)
    requires Sensible(pastCredits, plan)
    requires current * pastCredits == pastPoints
    ensures var table := ScenarioTable(pastPoints, current, plan);
      && (forall i, j :: 0 <= i < j < |table| ==> table[i].newCgpa > table[j].newCgpa)
      && (forall k :: 0 <= k < |table| ==> (table[k].change > 0.0 <==> table[k].sgpa > current))
  {
    var table := ScenarioTable(pastPoints, current, plan);
    ScenariosStrictlyDecrease(pastPoints, current, plan);
    forall k | 0 <= k < |table|
      ensures table[k].change > 0.0 <==> table[k].sgpa > current
    {
      assert table[k] == ScenarioAt(pastPoints, current, plan, ScenarioSgpa(k));
      GainIffAboveCurrent(pastPoints, pastCredits, current, plan, ScenarioSgpa(k));
    }
  }

  /** On a sensible plan the CGPA of scoring the top of the scale on every remaining credit
      is the projected CGPA of SGPA 10, and it reaches the current CGPA exactly when the
      current CGPA is at most the top of the scale. */
  lemma BestCaseAgainstCurrent(pastPoints: real, pastCredits: real, current: real, best: real, plan: Plan)
    requires Sensible(pastCredits, plan)
    requires current * pastCredits == pastPoints
    requires best * plan.totalCredits == pastPoints + MaxGrade * plan.creditsToEarn
    ensures best == ProjectedCgpa(pastPoints, MaxGrade, plan)
    ensures best >= current <==> current <= MaxGrade
  {
    SameSolution(best, ProjectedCgpa(pastPoints, MaxGrade, plan), plan.totalCredits,
                 pastPoints + MaxGrade * plan.creditsToEarn);
    GainIffAboveCurrent(pastPoints, pastCredits, current, plan, MaxGrade);
  }

  /** On a sensible plan the first scenario row of a computed result is its best case, and
      the best case reaches the current CGPA exactly when the current CGPA is at most the
      top of the scale (grades are not assumed to lie within the scale). */
  lemma ComputedBestCase(p: Projection, pastPoints: real, pastCredits: real, plan: Plan, target: Option<real>)
    requires Sensible(pastCredits, plan)
    requires Describes(p, pastPoints, pastCredits, plan, target)
    ensures |p.scenarios| == ScenarioCount
    ensures p.scenarios[0].newCgpa == p.maxPossibleCgpa
    ensures p.maxPossibleCgpa >= p.currentCgpa <==> p.currentCgpa <= MaxGrade
  {
    BestCaseAgainstCurrent(pastPoints, pastCredits, p.currentCgpa, p.maxPossibleCgpa, plan);
    ScenarioTableShape(pastPoints, p.currentCgpa, plan);
  }

  /** On a sensible plan the scenario table of a computed result strictly decreases, and a
      row shows a gain exactly when its SGPA exceeds the current CGPA. */
  lemma ComputedAgainstCurrent(p: Projection, pastPoints: real, pastCredits: real, plan: Plan, target: Option<real>)
    requires Sensible(pastCredits, plan)
    requires Describes(p, pastPoints, pastCredits, plan, target)
    ensures forall i, j :: 0 <= i < j < |p.scenarios| ==> p.scenarios[i].newCgpa > p.scenarios[j].newCgpa
    ensures forall k :: 0 <= k < |p.scenarios| ==>
      (p.scenarios[k].change > 0.0 <==> p.scenarios[k].sgpa > p.currentCgpa)
  {
    TableAgainstCurrent(pastPoints, pastCredits, p.currentCgpa, plan);
  }

  // ---------------------------------------------------------------------------
  // The whole calculation

  /** In quick mode the past record averages to exactly the CGPA the student entered, so
      this is the current CGPA of any computed result. */
  lemma QuickModeKeepsCgpa(inp: Inputs, parse: Parser)
    requires inp.mode == Quick
    requires parse(inp.quick.cgpa).Some? && parse(inp.quick.credits).Some?
    requires parse(inp.quick.credits).value != 0.0
    ensures PastTotals(inp, parse).credits == parse(inp.quick.credits).value
    ensures Average(PastTotals(inp, parse).points, PastTotals(inp, parse).credits) == parse(inp.quick.cgpa).value
  {
    var g, c := parse(inp.quick.cgpa).value, parse(inp.quick.credits).value;
    assert PastTotals(inp, parse) == Totals(g * c, c);
    AverageOfPair(g, c);
  }

  /** In quick mode, a field that does not parse leaves no past record. */
  lemma QuickModeUnparsedAborts(inp: Inputs, parse: Parser)
    requires inp.mode == Quick
    requires parse(inp.quick.cgpa).None? || parse(inp.quick.credits).None?
    ensures Calculate(inp, parse) == Aborted(InvalidPastGrades)
  {
  }

  /** The add button never changes what the calculation yields, as long as blank text does
      not parse. */
  lemma AddSemesterKeepsOutcome(inp: Inputs, parse: Parser)
    requires parse("") == None
    ensures Calculate(inp.(semesters := AddSemester(inp.semesters)), parse) == Calculate(inp, parse)
  {
    AddSemesterKeepsTotals(inp.semesters, parse);
    assert PastTotals(inp.(semesters := AddSemester(inp.semesters)), parse) == PastTotals(inp, parse);
  }
}
