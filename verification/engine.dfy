/** The projection engine behind the "Calculate Projection" button.

    From the past record (itemized semesters or one CGPA/credits pair), a strategy for the
    future credits and an optional target CGPA, the engine derives the current CGPA, the
    best CGPA still possible, the SGPA the remaining credits need to reach the target, a
    difficulty tier, and a table of what-if scenarios.

    Arithmetic is exact over `real`: the original computes in IEEE-754 doubles with no
    intermediate rounding, and that rounding is not modelled.  A division by zero, which
    the original lets through and which publishes Infinity or NaN, is the outcome
    `NonFinite` here.
 */
module Engine {
  import opened Parsing
  import opened History

  /** Top of the grading scale: the SGPA of a perfect semester. */
  const MaxGrade: real := 10.0
  /** A gap in grade points below which a required SGPA is an easy reach. */
  const EasyReachGap: real := 0.5
  /** A gap in grade points below which a required SGPA is moderate. */
  const ModerateGap: real := 1.0
  /** The scenario table starts at `MaxGrade` and goes down by this step ... */
  const ScenarioStep: real := 0.5
  /** ... while the assumed SGPA is at least this value. */
  const LowestScenarioSgpa: real := 4.0
  /** Number of rows the scenario loop produces: 10.0, 9.5, ..., 4.0. */
  const ScenarioCount: nat := 13

  /** Input mode: itemized semesters, or one pre-aggregated CGPA and credits pair. */
  datatype Mode = Detailed | Quick

  /** Strategy: `NextSemester` reads the future credits as the credits of the next
      semester alone; `RestOfDegree` reads them as the total credits of the whole degree. */
  datatype Strategy = NextSemester | RestOfDegree

  /** The quick-mode fields, as typed. */
  datatype QuickEntry = QuickEntry(cgpa: string, credits: string)

  /** Everything the form holds when the button is pressed. */
  datatype Inputs = Inputs(
    mode: Mode,
    semesters: seq<SemesterRow>,
    quick: QuickEntry,
    strategy: Strategy,
    futureCredits: string,
    targetCgpa: string)

  /** Grade points and credits accumulated from the past record. */
  datatype Totals = Totals(points: real, credits: real)

  const NoTotals: Totals := Totals(0.0, 0.0)

  function AddTotals(a: Totals, b: Totals): Totals
  {
    Totals(a.points + b.points, a.credits + b.credits)
  }

  /** Difficulty tier.  `NoTier` is the empty label used when no target was entered. */
  datatype Tier = NoTier | Comfortable | EasyReach | Moderate | HardGrind | Impossible

  /** The labels of the tiers a target can land in. */
  const TierLabels: set<string> := {"COMFORTABLE", "EASY REACH", "MODERATE", "HARD GRIND", "IMPOSSIBLE"}

  /** The label the original stores in the result for each tier: one of the five ladder
      labels for a tier a target landed in, and the empty string when there was no target. */
  function Label(t: Tier): (l: string)
    ensures l in TierLabels <==> t != NoTier
    ensures l == "" <==> t == NoTier
  {
    match t
    case NoTier => ""
    case Comfortable => "COMFORTABLE"
    case EasyReach => "EASY REACH"
    case Moderate => "MODERATE"
    case HardGrind => "HARD GRIND"
    case Impossible => "IMPOSSIBLE"
  }

  /** Distinct tiers carry distinct labels. */
  lemma LabelInjective(t1: Tier, t2: Tier)
    ensures Label(t1) == Label(t2) ==> t1 == t2
  {
  }

  /** Position of a tier on the ladder, easiest first. */
  function Rank(t: Tier): nat
  {
    match t
    case NoTier => 0
    case Comfortable => 0
    case EasyReach => 1
    case Moderate => 2
    case HardGrind => 3
    case Impossible => 4
  }

  /** One row of the scenario table: assumed SGPA, resulting CGPA, change from now. */
  datatype Scenario = Scenario(sgpa: real, newCgpa: real, change: real)

  /** The result snapshot handed to the results panel. */
  datatype Projection = Projection(
    currentCgpa: real,
    pastCredits: real,
    targetCgpa: Option<real>,
    requiredSgpa: Option<real>,
    maxPossibleCgpa: real,
    isGoalReachable: bool,
    difficulty: Tier,
    scenarios: seq<Scenario>)

  /** The three early exits, each of which shows an alert and produces no result. */
  datatype Abort =
    | InvalidPastGrades     // no past credits
    | MissingFutureCredits  // future credits field holds no number
    | CreditsNotAbovePast   // rest-of-degree total does not exceed past credits
    | NoCreditsAhead        // next-semester credits are not positive (validated check only)

  /** What pressing the button yields. */
  datatype Outcome =
    | Aborted(reason: Abort)
    | NonFinite                     // a division by zero the original does not guard
    | Computed(projection: Projection)

  /** Credits still to earn and the credit base at the end of the horizon. */
  datatype Plan = Plan(creditsToEarn: real, totalCredits: real)

  // ---------------------------------------------------------------------------
  // Aggregation of the past record

  /** Contribution of one grade/credits pair: `grade * credits` points and `credits`
      credits when both parsed, nothing otherwise. */
  function PairTotals(grade: Option<real>, credits: Option<real>): Totals
  {
    if grade.Some? && credits.Some? then Totals(grade.value * credits.value, credits.value)
    else NoTotals
  }

  /** A semester row both of whose fields parse. */
  predicate Usable(row: SemesterRow, parse: Parser)
  {
    parse(row.sgpa).Some? && parse(row.credits).Some?
  }

  function RowTotals(row: SemesterRow, parse: Parser): Totals
  {
    PairTotals(parse(row.sgpa), parse(row.credits))
  }

  /** Totals over the semester rows, accumulated front to back. */
  function Tally(rows: seq<SemesterRow>, parse: Parser): Totals
    decreases |rows|
  {
    if |rows| == 0 then NoTotals
    else AddTotals(Tally(rows[..|rows| - 1], parse), RowTotals(rows[|rows| - 1], parse))
  }

  /** The rows of `rows` that parse, in order. */
  function UsableRows(rows: seq<SemesterRow>, parse: Parser): (r: seq<SemesterRow>)
    ensures forall x :: x in r <==> x in rows && Usable(x, parse)
    ensures forall x :: multiset(r)[x] == if Usable(x, parse) then multiset(rows)[x] else 0
    ensures |r| <= |rows|
    decreases |rows|
  {
    if |rows| == 0 then []
    else
      var init, last := rows[..|rows| - 1], rows[|rows| - 1];
      assert rows == init + [last];
      UsableRows(init, parse) + (if Usable(last, parse) then [last] else [])
  }

  /** The `forEach` of detailed mode: a loop over the rows with two running sums. */
  method AccumulatePast(rows: seq<SemesterRow>, parse: Parser) returns (points: real, credits: real)
    ensures Totals(points, credits) == Tally(rows, parse)
    ensures Totals(points, credits) == Tally(UsableRows(rows, parse), parse)
  {
    points, credits := 0.0, 0.0;
    for i := 0 to |rows|
      invariant Totals(points, credits) == Tally(rows[..i], parse)
    {
      var sgpa := parse(rows[i].sgpa);
      var cr := parse(rows[i].credits);
      if sgpa.Some? && cr.Some? {
        points := points + sgpa.value * cr.value;
        credits := credits + cr.value;
      }
      assert rows[..i + 1][..i] == rows[..i];
    }
    assert rows[..|rows|] == rows;
    TallyOnlyUsableRows(rows, parse);
  }

  /** The past totals of either input mode: in detailed mode those of the rows that
      parse; in quick mode nothing unless both fields parse, and then the credits typed
      with the CGPA typed as their average. */
  function PastTotals(inp: Inputs, parse: Parser): (t: Totals)
    ensures inp.mode == Detailed ==> t == Tally(UsableRows(inp.semesters, parse), parse)
    ensures inp.mode == Quick && (parse(inp.quick.cgpa).None? || parse(inp.quick.credits).None?) ==>
      t == NoTotals
    ensures inp.mode == Quick && parse(inp.quick.cgpa).Some? && parse(inp.quick.credits).Some? ==>
      parse(inp.quick.credits) == Some(t.credits) && t.points == parse(inp.quick.cgpa).value * t.credits
  {
    match inp.mode
    case Detailed =>
      TallyOnlyUsableRows(inp.semesters, parse);
      Tally(inp.semesters, parse)
    case Quick => PairTotals(parse(inp.quick.cgpa), parse(inp.quick.credits))
  }

  /** Totals are additive over concatenation of row lists. */
  lemma {:induction false} TallyAppend(a: seq<SemesterRow>, b: seq<SemesterRow>, parse: Parser)
    ensures Tally(a + b, parse) == AddTotals(Tally(a, parse), Tally(b, parse))
    decreases |b|
  {
    if |b| == 0 {
      assert a + b == a;
    } else {
      var b' := b[..|b| - 1];
      assert (a + b)[..|a + b| - 1] == a + b';
      assert (a + b)[|a + b| - 1] == b[|b| - 1];
      TallyAppend(a, b', parse);
    }
  }

  /** A list of one row totals that row's contribution. */
  lemma TallySingle(row: SemesterRow, parse: Parser)
    ensures Tally([row], parse) == RowTotals(row, parse)
  {
    assert [row][..0] == [];
  }

  /** Inserting a row anywhere adds exactly that row's contribution. */
  lemma TallyInsert(a: seq<SemesterRow>, row: SemesterRow, b: seq<SemesterRow>, parse: Parser)
    ensures AddTotals(Tally(a + b, parse), RowTotals(row, parse)) == Tally(a + [row] + b, parse)
  {
    TallyAppend(a + [row], b, parse);
    TallyAppend(a, [row], parse);
    TallyAppend(a, b, parse);
    TallySingle(row, parse);
  }

  /** A row that does not parse contributes nothing, wherever it stands. */
  lemma TallySkipsUnusableRow(a: seq<SemesterRow>, row: SemesterRow, b: seq<SemesterRow>, parse: Parser)
    requires !Usable(row, parse)
    ensures Tally(a + [row] + b, parse) == Tally(a + b, parse)
  {
    TallyInsert(a, row, b, parse);
  }

  /** Only the rows that parse count: dropping all others leaves the totals unchanged. */
  lemma {:induction false} TallyOnlyUsableRows(rows: seq<SemesterRow>, parse: Parser)
    ensures Tally(rows, parse) == Tally(UsableRows(rows, parse), parse)
    decreases |rows|
  {
    if |rows| > 0 {
      var init := rows[..|rows| - 1];
      var last := rows[|rows| - 1];
      TallyOnlyUsableRows(init, parse);
      var kept := if Usable(last, parse) then [last] else [];
      TallyAppend(UsableRows(init, parse), kept, parse);
      if Usable(last, parse) {
        assert kept[..0] == [];
      }
    }
  }

  /** One semester row in detailed mode totals the same as the same pair in quick mode. */
  lemma SingleRowMatchesQuick(sgpa: string, credits: string, parse: Parser)
    ensures Tally([SemesterRow(sgpa, credits)], parse) == PairTotals(parse(sgpa), parse(credits))
  {
    assert [SemesterRow(sgpa, credits)][..0] == [];
  }

  /** Adding a blank semester does not move the totals, since blank text parses to nothing. */
  lemma AddSemesterKeepsTotals(rows: seq<SemesterRow>, parse: Parser)
    requires parse("") == None
    ensures Tally(AddSemester(rows), parse) == Tally(rows, parse)
  {
    TallySkipsUnusableRow(rows, EmptyRow, [], parse);
    assert rows + [EmptyRow] + [] == AddSemester(rows);
    assert rows + [] == rows;
  }

  /** The totals of a list are those of the list without row `index` plus that row's. */
  lemma {:induction false} TallyAroundIndex(rows: seq<SemesterRow>, index: nat, parse: Parser)
    requires index < |rows|
    ensures AddTotals(Tally(rows[..index] + rows[index + 1..], parse), RowTotals(rows[index], parse))
         == Tally(rows, parse)
    decreases |rows|
  {
    var init, last := rows[..|rows| - 1], rows[|rows| - 1];
    if index == |rows| - 1 {
      assert rows[..index] + rows[index + 1..] == init;
    } else {
      TallyAroundIndex(init, index, parse);
      var without := init[..index] + init[index + 1..];
      assert rows[..index] + rows[index + 1..] == without + [last];
      assert (without + [last])[..|without|] == without;
      assert init[index] == rows[index];
    }
  }

  /** Removing row `index` takes away exactly that row's contribution. */
  lemma RemoveSemesterTotals(rows: seq<SemesterRow>, index: nat, parse: Parser)
    requires 1 < |rows| && index < |rows|
    ensures AddTotals(Tally(RemoveSemester(rows, index), parse), RowTotals(rows[index], parse))
         == Tally(rows, parse)
  {
    assert RemoveSemester(rows, index) == rows[..index] + rows[index + 1..];
    TallyAroundIndex(rows, index, parse);
  }

  /** Editing row `index` replaces that row's contribution and leaves the rest. */
  lemma UpdateSemesterTotals(rows: seq<SemesterRow>, index: nat, field: Field, value: string, parse: Parser)
    requires index < |rows|
    ensures var r := UpdateSemester(rows, index, field, value);
      AddTotals(Tally(r, parse), RowTotals(rows[index], parse))
        == AddTotals(Tally(rows, parse), RowTotals(r[index], parse))
  {
    var r := UpdateSemester(rows, index, field, value);
    assert r[..index] + r[index + 1..] == rows[..index] + rows[index + 1..];
    TallyAroundIndex(rows, index, parse);
    TallyAroundIndex(r, index, parse);
  }

  // ---------------------------------------------------------------------------
  // Strategy credits

  /** Credits to earn and total credits under a strategy, or `None` when the
      rest-of-degree total does not exceed the past credits. */
  function PlanCredits(strategy: Strategy, pastCredits: real, futureCredits: real): (r: Option<Plan>)
    ensures r.Some? ==> r.value.totalCredits == pastCredits + r.value.creditsToEarn
    ensures strategy == NextSemester ==> r.Some? && r.value.creditsToEarn == futureCredits
    ensures strategy == RestOfDegree ==> (r.Some? <==> futureCredits > pastCredits)
    ensures strategy == RestOfDegree && r.Some? ==>
      r.value.totalCredits == futureCredits && r.value.creditsToEarn > 0.0
  {
    match strategy
    case NextSemester => Some(Plan(futureCredits, pastCredits + futureCredits))
    case RestOfDegree =>
      var toEarn := futureCredits - pastCredits;
      if toEarn <= 0.0 then None else Some(Plan(toEarn, futureCredits))
  }

  // ---------------------------------------------------------------------------
  // Projection

  /** Dividing and multiplying back by the same non-zero real is the identity. */
  lemma QuotientTimesDivisor(x: real, y: real)
    requires y != 0.0
    ensures (x / y) * y == x
  {
  }

  /** Points per credit. */
  function Average(points: real, credits: real): (avg: real)
    requires credits != 0.0
    ensures avg * credits == points
  {
    QuotientTimesDivisor(points, credits);
    points / credits
  }

  /** CGPA at the end of the horizon if the remaining credits score `sgpa`: the past points
      plus `sgpa` points per remaining credit, spread over the whole credit base. */
  function ProjectedCgpa(pastPoints: real, sgpa: real, plan: Plan): (cgpa: real)
    requires plan.totalCredits != 0.0
    ensures cgpa * plan.totalCredits == pastPoints + sgpa * plan.creditsToEarn
  {
    Average(pastPoints + sgpa * plan.creditsToEarn, plan.totalCredits)
  }

  /** SGPA the remaining credits need: the points still missing to reach `target` over the
      whole credit base, per remaining credit. */
  function RequiredSgpa(pastPoints: real, target: real, plan: Plan): (sgpa: real)
    requires plan.creditsToEarn != 0.0
    ensures pastPoints + sgpa * plan.creditsToEarn == target * plan.totalCredits
  {
    Average(target * plan.totalCredits - pastPoints, plan.creditsToEarn)
  }

  /** The difficulty ladder, tried top to bottom; exactly one tier applies. */
  function Classify(required: real, current: real): (t: Tier)
    ensures t != NoTier
    ensures t == Impossible <==> required > MaxGrade
    ensures t == Comfortable <==> required <= MaxGrade && required <= current
    ensures t == EasyReach <==> current < required <= MaxGrade && required - current < EasyReachGap
    ensures t == Moderate <==>
      current < required <= MaxGrade && EasyReachGap <= required - current < ModerateGap
    ensures t == HardGrind <==> current < required <= MaxGrade && ModerateGap <= required - current
  {
    var gap := required - current;
    if required > MaxGrade then Impossible
    else if required <= current then Comfortable
    else if gap < EasyReachGap then EasyReach
    else if gap < ModerateGap then Moderate
    else HardGrind
  }

  /** Assumed SGPA of the `k`-th pass of the scenario loop. */
  function ScenarioSgpa(k: nat): real
  {
    MaxGrade - k as real * ScenarioStep
  }

  function ScenarioAt(pastPoints: real, current: real, plan: Plan, sgpa: real): Scenario
    requires plan.totalCredits != 0.0
  {
    var cgpa := ProjectedCgpa(pastPoints, sgpa, plan);
    Scenario(sgpa, cgpa, cgpa - current)
  }

  /** The scenario loop from its `k`-th pass on: the assumed SGPA starts at `MaxGrade`
      and falls by `ScenarioStep` while it is at least `LowestScenarioSgpa`. */
  function ScenariosFrom(pastPoints: real, current: real, plan: Plan, k: nat): (r: seq<Scenario>)
    requires plan.totalCredits != 0.0
    requires k <= ScenarioCount
    ensures |r| == ScenarioCount - k
    ensures forall i :: 0 <= i < |r| ==> r[i] == ScenarioAt(pastPoints, current, plan, ScenarioSgpa(k + i))
    decreases ScenarioCount - k
  {
    var sgpa := ScenarioSgpa(k);
    if sgpa < LowestScenarioSgpa then []
    else [ScenarioAt(pastPoints, current, plan, sgpa)] + ScenariosFrom(pastPoints, current, plan, k + 1)
  }

  /** The 13-row table of the scenario loop. */
  function ScenarioTable(pastPoints: real, current: real, plan: Plan): (r: seq<Scenario>)
    requires plan.totalCredits != 0.0
    ensures |r| == ScenarioCount
    ensures forall k :: 0 <= k < ScenarioCount ==> r[k] == ScenarioAt(pastPoints, current, plan, ScenarioSgpa(k))
  {
    ScenariosFrom(pastPoints, current, plan, 0)
  }

  /** The facts that tie a result snapshot to the past totals, plan and target it was
      computed from: the current CGPA is the past points per past credit, the table is the
      scenario loop's, and the outlook below holds. */
  predicate Describes(p: Projection, pastPoints: real, pastCredits: real, plan: Plan, target: Option<real>)
  {
    && pastCredits != 0.0
    && plan.totalCredits != 0.0
    && p.pastCredits == pastCredits
    && p.currentCgpa * pastCredits == pastPoints
    && p.scenarios == ScenarioTable(pastPoints, p.currentCgpa, plan)
    && DescribesOutlook(p, pastPoints, plan, target)
  }

  /** The outlook part of a snapshot, which the feedback box reads: the best case is every
      remaining credit scored at the top of the scale; with a target the required SGPA lands
      exactly on it, the tier is the ladder's verdict on the required SGPA and the goal is
      reachable unless the tier is IMPOSSIBLE; without a target there is no required SGPA,
      no tier and nothing unreachable. */
  predicate DescribesOutlook(p: Projection, pastPoints: real, plan: Plan, target: Option<real>)
  {
    && p.maxPossibleCgpa * plan.totalCredits == pastPoints + MaxGrade * plan.creditsToEarn
    && p.targetCgpa == target
    && (target.None? ==> p.requiredSgpa.None? && p.difficulty == NoTier && p.isGoalReachable)
    && (target.Some? ==>
          && p.requiredSgpa.Some?
          && pastPoints + p.requiredSgpa.value * plan.creditsToEarn == target.value * plan.totalCredits
          && p.difficulty == Classify(p.requiredSgpa.value, p.currentCgpa)
          && (p.isGoalReachable <==> p.difficulty != Impossible))
  }

  /** The result snapshot for past totals, a plan and an optional target, assembled from
      the averages, the ladder and the scenario table. */
  function Snapshot(pastPoints: real, pastCredits: real, plan: Plan, target: Option<real>): Projection
    requires pastCredits != 0.0 && plan.totalCredits != 0.0
    requires target.Some? ==> plan.creditsToEarn != 0.0
  {
    var current := Average(pastPoints, pastCredits);
    var required: Option<real> :=
      if target.Some? then Some(RequiredSgpa(pastPoints, target.value, plan)) else None;
    var difficulty := if required.Some? then Classify(required.value, current) else NoTier;
    Projection(
      current, pastCredits, target, required,
      ProjectedCgpa(pastPoints, MaxGrade, plan),
      difficulty != Impossible, difficulty,
      ScenarioTable(pastPoints, current, plan))
  }

  /** The past fields of a snapshot. */
  lemma SnapshotAverages(pastPoints: real, pastCredits: real, plan: Plan, target: Option<real>)
    requires pastCredits != 0.0 && plan.totalCredits != 0.0
    requires target.Some? ==> plan.creditsToEarn != 0.0
    ensures var p := Snapshot(pastPoints, pastCredits, plan, target);
      && p.pastCredits == pastCredits
      && p.currentCgpa * pastCredits == pastPoints
  {
    var p := Snapshot(pastPoints, pastCredits, plan, target);
    assert p.currentCgpa == Average(pastPoints, pastCredits);
  }

  /** The best case and the scenario table of a snapshot. */
  lemma SnapshotBestAndTable(pastPoints: real, pastCredits: real, plan: Plan, target: Option<real>)
    requires pastCredits != 0.0 && plan.totalCredits != 0.0
    requires target.Some? ==> plan.creditsToEarn != 0.0
    ensures var p := Snapshot(pastPoints, pastCredits, plan, target);
      && p.maxPossibleCgpa * plan.totalCredits == pastPoints + MaxGrade * plan.creditsToEarn
      && p.scenarios == ScenarioTable(pastPoints, p.currentCgpa, plan)
  {
    var p := Snapshot(pastPoints, pastCredits, plan, target);
    assert p.maxPossibleCgpa == ProjectedCgpa(pastPoints, MaxGrade, plan);
  }

  /** The goal fields of a snapshot. */
  lemma SnapshotGoal(pastPoints: real, pastCredits: real, plan: Plan, target: Option<real>)
    requires pastCredits != 0.0 && plan.totalCredits != 0.0
    requires target.Some? ==> plan.creditsToEarn != 0.0
    ensures var p := Snapshot(pastPoints, pastCredits, plan, target);
      && p.targetCgpa == target
      && (target.None? ==> p.requiredSgpa.None? && p.difficulty == NoTier && p.isGoalReachable)
      && (target.Some? ==>
            && p.requiredSgpa.Some?
            && pastPoints + p.requiredSgpa.value * plan.creditsToEarn == target.value * plan.totalCredits
            && p.difficulty == Classify(p.requiredSgpa.value, p.currentCgpa)
            && (p.isGoalReachable <==> p.difficulty != Impossible))
  {
    var p := Snapshot(pastPoints, pastCredits, plan, target);
    if target.Some? {
      assert p.requiredSgpa == Some(RequiredSgpa(pastPoints, target.value, plan));
    }
  }

  /** A snapshot is described by the totals, plan and target it is computed from. */
  lemma SnapshotDescribes(pastPoints: real, pastCredits: real, plan: Plan, target: Option<real>)
    requires pastCredits != 0.0 && plan.totalCredits != 0.0
    requires target.Some? ==> plan.creditsToEarn != 0.0
    ensures Describes(Snapshot(pastPoints, pastCredits, plan, target), pastPoints, pastCredits, plan, target)
  {
    SnapshotAverages(pastPoints, pastCredits, plan, target);
    SnapshotBestAndTable(pastPoints, pastCredits, plan, target);
    SnapshotGoal(pastPoints, pastCredits, plan, target);
  }

  /** The divisions the original performs without a check: by the total credits always,
      and by the credits to earn when there is a target. */
  predicate DividesByZero(plan: Plan, target: Option<real>)
  {
    plan.totalCredits == 0.0 || (target.Some? && plan.creditsToEarn == 0.0)
  }

  /** Everything after the credit checks.  The original divides by the total credits
      (and, with a target, by the credits to earn) without checking them. */
  function Project(pastPoints: real, pastCredits: real, plan: Plan, target: Option<real>): (o: Outcome)
    requires pastCredits != 0.0
    ensures !o.Aborted?
    ensures o.NonFinite? <==> DividesByZero(plan, target)
    ensures o.Computed? ==> Describes(o.projection, pastPoints, pastCredits, plan, target)
  {
    if DividesByZero(plan, target) then NonFinite
    else
      SnapshotDescribes(pastPoints, pastCredits, plan, target);
      Computed(Snapshot(pastPoints, pastCredits, plan, target))
  }

  /** The three checks, in order, on already aggregated past totals, then the projection. */
  function CheckAndProject(past: Totals, strategy: Strategy, future: Option<real>, target: Option<real>): (o: Outcome)
    ensures o == Aborted(InvalidPastGrades) <==> past.credits == 0.0
    ensures o == Aborted(MissingFutureCredits) <==> past.credits != 0.0 && future.None?
    ensures o == Aborted(CreditsNotAbovePast) <==>
      past.credits != 0.0 && future.Some? && strategy == RestOfDegree && future.value <= past.credits
    ensures o != Aborted(NoCreditsAhead)
    ensures o.NonFinite? <==>
      && past.credits != 0.0 && future.Some?
      && PlanCredits(strategy, past.credits, future.value).Some?
      && DividesByZero(PlanCredits(strategy, past.credits, future.value).value, target)
    ensures o.Computed? ==>
      && past.credits != 0.0 && future.Some?
      && PlanCredits(strategy, past.credits, future.value).Some?
      && Describes(o.projection, past.points, past.credits,
                   PlanCredits(strategy, past.credits, future.value).value, target)
  {
    if past.credits == 0.0 then Aborted(InvalidPastGrades)
    else match future
      case None => Aborted(MissingFutureCredits)
      case Some(credits) =>
        match PlanCredits(strategy, past.credits, credits)
        case None => Aborted(CreditsNotAbovePast)
        case Some(plan) => Project(past.points, past.credits, plan, target)
  }

  /** The whole button handler: aggregate the past record, then check and project. */
  function Calculate(inp: Inputs, parse: Parser): (o: Outcome)
    ensures var past, future, target := PastTotals(inp, parse), parse(inp.futureCredits), parse(inp.targetCgpa);
      && (o == Aborted(InvalidPastGrades) <==> past.credits == 0.0)
      && (o == Aborted(MissingFutureCredits) <==> past.credits != 0.0 && future.None?)
      && (o == Aborted(CreditsNotAbovePast) <==>
            past.credits != 0.0 && future.Some? && inp.strategy == RestOfDegree && future.value <= past.credits)
      && (o.NonFinite? <==>
            && past.credits != 0.0 && future.Some?
            && PlanCredits(inp.strategy, past.credits, future.value).Some?
            && DividesByZero(PlanCredits(inp.strategy, past.credits, future.value).value, target))
      && (o.Computed? ==>
            && past.credits != 0.0 && future.Some?
            && PlanCredits(inp.strategy, past.credits, future.value).Some?
            && Describes(o.projection, past.points, past.credits,
                         PlanCredits(inp.strategy, past.credits, future.value).value, target))
  {
    CheckAndProject(PastTotals(inp, parse), inp.strategy, parse(inp.futureCredits), parse(inp.targetCgpa))
  }
}
