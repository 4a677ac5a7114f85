/** The assertion handler, `handle_assert_contract` in `src/hpl/runtime/effects/handlers.py`. */
module Handlers {
  import opened Text
  import opened Contracts
  import opened Engine

  /** An absent `ok` is true and absent errors are none; errors that are not a list count as one. */
  function AssertContract(args: AssertArgs): Outcome {
    if args.ok.Missing? || args.ok.Truthy() then Outcome(true, [], [])
    else
      match args.errors
      case Missing => Outcome(false, [], [])
      case List(items, _) => Outcome(false, items, [])
      case _ => Outcome(false, [args.errors.Text()], [])
  }

  /** The assertion is stated to have failed, and no error is stated. */
  predicate IsSilent(args: AssertArgs) {
    && args.ok != Missing && Falsy(args.ok)
    && (args.errors == Missing || (args.errors.List? && args.errors.items == []))
  }

  /** The handler refuses without a reason exactly for these arguments. */
  lemma RefusesWithoutReasonIff(args: AssertArgs)
    ensures !AssertContract(args).ok && AssertContract(args).reasons == [] <==> IsSilent(args)
  {
    TruthMeans(args.ok);
  }

  /** It accepts unless a failure is stated, leaves no artifact, and refuses with the errors stated, or with
      the text of what is stated instead of a list. */
  lemma AssertContractMeans(args: AssertArgs)
    ensures var o := AssertContract(args);
            && (o.ok <==> args.ok == Missing || !Falsy(args.ok)) && o.artifacts == []
            && (o.ok || args.errors == Missing ==> o.reasons == [])
            && (!o.ok && args.errors.List? ==> o.reasons == args.errors.items)
            && (!o.ok && args.errors != Missing && !args.errors.List? ==> o.reasons == [Shown(args.errors)])
  {
    TruthMeans(args.ok);
    TruthMeans(args.errors);
  }

  predicate IsAssertion(step: Step) {
    EffectType(step) == "ASSERT_CONTRACT"
  }

  /** Assertion steps are run by the assertion handler, and the handlers of other steps give reasons when they
      refuse. */
  ghost predicate RunByHandlers(q: Request) {
    forall i: nat :: i < |q.plan.steps| ==>
                       if IsAssertion(q.plan.steps[i]) then q.handler(i) == AssertContract(q.plan.steps[i].assertion)
                       else q.handler(i).ok || q.handler(i).reasons != []
  }

  lemma SilentSteps(q: Request)
    requires RunByHandlers(q)
    ensures (exists i: nat :: i < |q.plan.steps| && !q.handler(i).ok && q.handler(i).reasons == []) <==>
              exists i: nat :: i < |q.plan.steps| && IsAssertion(q.plan.steps[i]) && IsSilent(q.plan.steps[i].assertion)
  {
    forall i: nat | i < |q.plan.steps|
      ensures !q.handler(i).ok && q.handler(i).reasons == [] <==>
                IsAssertion(q.plan.steps[i]) && IsSilent(q.plan.steps[i].assertion)
    {
      if IsAssertion(q.plan.steps[i]) { RefusesWithoutReasonIff(q.plan.steps[i].assertion); }
    }
  }
}
