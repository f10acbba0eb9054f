/** Rule stacks that `build` lets through and the executor cannot run. */
module PayrollExamples {
  import opened Wrappers
  import opened PayrollRounding
  import opened PayrollRules
  import opened PayrollPlan
  import opened PayrollExecutor
  import opened PayrollPay

  const CITED := [Citation("statutory.yaml", Statutory, "any")]

  function Salary(code: string, phase: Phase): ResolvedComponent {
    ResolvedComponent(code, Earning, phase, "BaseSalary", map[], [], true, true, false, CITED)
  }

  function Tsu(code: string, phase: Phase, base: string, inputs: seq<string>): ResolvedComponent {
    ResolvedComponent(code, Deduction, phase, "TSUContribution",
                      map["rate" := Parameter.Number(0.11), "base_components" := Names([base])], inputs, true, true, false, CITED)
  }

  /** A deduction before tax whose base is only known after tax. */
  const LATE := [Tsu("tsu", PreTaxDeduction, "bonus", ["bonus"]), Salary("bonus", PostTax)]

  /** A deduction that forgets to list its base among its inputs. */
  const FORGETFUL := [Salary("salary", Gross), Tsu("tsu", Tax, "salary", [])]

  /** Two components pass every check of `build`. */
  lemma PairPasses(salary: ResolvedComponent, tsu: ResolvedComponent, components: seq<ResolvedComponent>)
    requires components == [salary, tsu] || components == [tsu, salary]
    requires salary == Salary(salary.code, salary.phase) && salary.code != tsu.code
    requires exists base, inputs :: tsu == Tsu(tsu.code, tsu.phase, base, inputs) && (inputs == [] || inputs == [salary.code])
    ensures DistinctCodes(components) && AllPass(components, DEFAULT_REGISTRY, |components|) && Cited(components)
  {
    hide ParametersValid;
    assert components[0].code in Codes(components) && components[1].code in Codes(components);
    var base, inputs :| tsu == Tsu(tsu.code, tsu.phase, base, inputs) && (inputs == [] || inputs == [salary.code]);
    assert FirstMissing(tsu.inputsRequired, Codes(components)).None?;
    TsuParameters(tsu, base, inputs);
    assert forall c :: c in components ==> c == salary || c == tsu;
  }

  lemma TsuParameters(tsu: ResolvedComponent, base: string, inputs: seq<string>)
    requires tsu == Tsu(tsu.code, tsu.phase, base, inputs)
    ensures ParametersValid(TsuContribution, tsu.parameters) && ParametersValid(BaseSalary, map[])
  {
  }

  /** Neither stack can be paid: a base too late, a base not declared. */
  lemma BaseIsLate()
    ensures !CanBePaid(LATE, DEFAULT_REGISTRY)
  {
    hide InTime;
    var tsu, bonus := LATE[0], LATE[1];
    TsuParameters(tsu, "bonus", ["bonus"]);
    assert tsu in LATE && "bonus" in BasesOf(tsu.primitive, tsu.parameters, DEFAULT_REGISTRY);
    if InTime(LATE, tsu, "bonus") {
      BonusIsLate(tsu);
    }
  }

  lemma BonusIsLate(tsu: ResolvedComponent)
    requires tsu == LATE[0]
    ensures !InTime(LATE, tsu, "bonus")
  {
    assert forall d :: d in LATE ==> d == LATE[0] || d == LATE[1];
  }

  lemma BaseIsForgotten()
    ensures !CanBePaid(FORGETFUL, DEFAULT_REGISTRY)
  {
    hide InTime;
    var tsu := FORGETFUL[1];
    TsuParameters(tsu, "salary", []);
    assert tsu in FORGETFUL && "salary" in BasesOf(tsu.primitive, tsu.parameters, DEFAULT_REGISTRY);
  }

  /** `build` accepts the stack, and every plan it could give fails: the bonus has not
      been produced when the deduction needs it. */
  lemma LaterPhaseIsAccepted(ctx: ExecutionContext)
    ensures DistinctCodes(LATE) && AllPass(LATE, DEFAULT_REGISTRY, |LATE|) && !SomePhaseHasCycle(LATE)
    ensures forall steps :: IsPlanOf(LATE, steps) ==> Run(steps, ctx, DEFAULT_REGISTRY) == Err(TsuMissingBaseComponent("bonus"))
  {
    hide AllPass, IsPlanOf, Run, CanBePaid, FirstStarved;
    var tsu, bonus := LATE[0], LATE[1];
    PairPasses(bonus, tsu, LATE);
    DifferentPhasesNoCycle(tsu, bonus);
    BaseIsLate();
    forall steps | IsPlanOf(LATE, steps) ensures Run(steps, ctx, DEFAULT_REGISTRY) == Err(TsuMissingBaseComponent("bonus")) {
      BuiltPlanRuns(LATE, steps, ctx, DEFAULT_REGISTRY);
      var i :| 0 <= i < |steps| && FirstStarved(steps, i, DEFAULT_REGISTRY, Run(steps, ctx, DEFAULT_REGISTRY).error);
      OnlyBase(LATE, steps, i, tsu, bonus, Run(steps, ctx, DEFAULT_REGISTRY).error);
    }
  }

  /** `build` accepts the stack, and every plan it could give fails for a base that is
      there but not declared. */
  lemma UndeclaredBaseIsAccepted(ctx: ExecutionContext)
    ensures DistinctCodes(FORGETFUL) && AllPass(FORGETFUL, DEFAULT_REGISTRY, |FORGETFUL|) && !SomePhaseHasCycle(FORGETFUL)
    ensures NoLaterPhase(FORGETFUL)
    ensures forall steps :: IsPlanOf(FORGETFUL, steps) ==> Run(steps, ctx, DEFAULT_REGISTRY) == Err(TsuMissingBaseComponent("salary"))
  {
    hide AllPass, IsPlanOf, Run, CanBePaid, FirstStarved;
    var salary, tsu := FORGETFUL[0], FORGETFUL[1];
    PairPasses(salary, tsu, FORGETFUL);
    DifferentPhasesNoCycle(salary, tsu);
    BaseIsForgotten();
    assert forall c :: c in FORGETFUL ==> c.inputsRequired == [];
    forall steps | IsPlanOf(FORGETFUL, steps) ensures Run(steps, ctx, DEFAULT_REGISTRY) == Err(TsuMissingBaseComponent("salary")) {
      BuiltPlanRuns(FORGETFUL, steps, ctx, DEFAULT_REGISTRY);
      var i :| 0 <= i < |steps| && FirstStarved(steps, i, DEFAULT_REGISTRY, Run(steps, ctx, DEFAULT_REGISTRY).error);
      OnlyBase(FORGETFUL, steps, i, tsu, salary, Run(steps, ctx, DEFAULT_REGISTRY).error);
    }
  }

  /** In a stack of one salary and one TSU on it, only that salary can be missing. */
  lemma OnlyBase(components: seq<ResolvedComponent>, steps: seq<PlanStep>, i: nat, tsu: ResolvedComponent, salary: ResolvedComponent,
                 error: ExecutionError)
    requires IsPlanOf(components, steps) && forall c :: c in components ==> c == tsu || c == salary
    requires salary == Salary(salary.code, salary.phase) && tsu == Tsu(tsu.code, tsu.phase, salary.code, tsu.inputsRequired)
    requires i < |steps| && FirstStarved(steps, i, DEFAULT_REGISTRY, error)
    ensures error == TsuMissingBaseComponent(salary.code)
  {
    hide IsPhasedOrder, IsSortedIn, BasesArrive, Arrives;
    var order: seq<ResolvedComponent> :| IsPhasedOrder(components, order, |PHASE_ORDER|) && (forall phase :: IsSortedIn(components, order, phase))
      && |order| == |steps| && forall k :: 0 <= k < |steps| ==> steps[k] == StepOf(order[k], k);
    PlanMembers(components, order);
    assert order[i] in components;
  }
}
