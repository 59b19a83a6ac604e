/** The calculation with the two guards the button handler evidently intends: past credits
    must be positive, not merely non-zero, and the credits still to earn must be positive
    under either strategy. With them no division by zero is left, and every result is one
    the projection laws apply to.
 */
module Validated {
  import opened Parsing
  import opened Engine
  import opened ProjectionLaws

  /** The checks in the handler's order, each tightened to a positivity test, then the
      projection. */
  function CheckAndProjectValidated(past: Totals, strategy: Strategy, future: Option<real>, target: Option<real>): (o: Outcome)
    ensures o == Aborted(InvalidPastGrades) <==> past.credits <= 0.0
    ensures o == Aborted(MissingFutureCredits) <==> past.credits > 0.0 && future.None?
    ensures o == Aborted(CreditsNotAbovePast) <==>
      past.credits > 0.0 && future.Some? && strategy == RestOfDegree && future.value <= past.credits
    ensures o == Aborted(NoCreditsAhead) <==>
      past.credits > 0.0 && future.Some? && strategy == NextSemester && future.value <= 0.0
    ensures !o.NonFinite?
    ensures o.Computed? ==> o == CheckAndProject(past, strategy, future, target)
  {
    if past.credits <= 0.0 then Aborted(InvalidPastGrades)
    else match future
      case None => Aborted(MissingFutureCredits)
      case Some(credits) =>
        if strategy == NextSemester && credits <= 0.0 then Aborted(NoCreditsAhead)
        else match PlanCredits(strategy, past.credits, credits)
          case None => Aborted(CreditsNotAbovePast)
          case Some(plan) => Project(past.points, past.credits, plan, target)
  }

  /** The validated button handler. */
  function CalculateValidated(inp: Inputs, parse: Parser): (o: Outcome)
    ensures !o.NonFinite?
    ensures o.Computed? ==> o == Calculate(inp, parse)
  {
    CheckAndProjectValidated(PastTotals(inp, parse), inp.strategy, parse(inp.futureCredits), parse(inp.targetCgpa))
  }

  /** On inputs with positive past credits and positive credits ahead, the validated
      handler and the original one agree. */
  lemma ValidatedAgreesOnSensibleInputs(past: Totals, strategy: Strategy, future: Option<real>, target: Option<real>)
    requires past.credits > 0.0 && future.Some?
    requires strategy == NextSemester ==> future.value > 0.0
    ensures CheckAndProjectValidated(past, strategy, future, target) == CheckAndProject(past, strategy, future, target)
  {
  }

  /** Every validated result comes from a sensible plan and is described by the past
      totals, that plan and the target, so all the projection laws hold of it. */
  lemma ValidatedResultIsSensible(past: Totals, strategy: Strategy, future: Option<real>, target: Option<real>)
    requires CheckAndProjectValidated(past, strategy, future, target).Computed?
    ensures future.Some? && PlanCredits(strategy, past.credits, future.value).Some?
    ensures var plan := PlanCredits(strategy, past.credits, future.value).value;
      && Sensible(past.credits, plan)
      && Describes(CheckAndProjectValidated(past, strategy, future, target).projection,
                   past.points, past.credits, plan, target)
  {
    var plan := PlanCredits(strategy, past.credits, future.value).value;
    assert CheckAndProjectValidated(past, strategy, future, target) == Project(past.points, past.credits, plan, target);
  }
}
