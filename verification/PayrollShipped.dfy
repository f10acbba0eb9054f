/** The statutory document that ships, from its declarations to the payslip: every
    plan for it runs, and pays the rounded salary less the rounded contribution. */
module PayrollShipped {
  import opened Wrappers
  import opened PayrollRounding
  import opened PayrollRules
  import opened PayrollPlan
  import opened PayrollExecutor
  import opened PayrollPay
  import opened PayrollService

  const TSU_RATE := 0.11

  const BASE_DECL := ComponentDecl(Earning, Gross, "BaseSalary", map[], [], true, true, false, false)

  const TSU_DECL := ComponentDecl(Deduction, Tax, "TSUContribution",
                                  map["rate" := Parameter.Number(TSU_RATE), "base_components" := Names(["base_salary"])],
                                  ["base_salary"], false, false, false, false)

  const STATUTORY := Document(Statutory, "statutory_pt.yaml", [("base_salary", BASE_DECL), ("tsu_employee", TSU_DECL)])

  const COMPANY := Document(Company, "default_company.yaml", [])

  const BASE := ResolvedComponent("base_salary", Earning, Gross, "BaseSalary", map[], [], true, true, false,
                                  [Citation("statutory_pt.yaml", Statutory, "base_salary")])

  const TSU := ResolvedComponent("tsu_employee", Deduction, Tax, "TSUContribution", TSU_DECL.parameters, ["base_salary"], false, false, false,
                                 [Citation("statutory_pt.yaml", Statutory, "tsu_employee")])

  // ---- resolving -----------------------------------------------------------

  lemma CodesDiffer()
    ensures BASE.code != TSU.code
  {
    assert BASE.code[0] == 'b' && TSU.code[0] == 't';
  }

  lemma ShippedEntries()
    ensures Flatten([STATUTORY, COMPANY]) == [Entry(Statutory, "statutory_pt.yaml", "base_salary", BASE_DECL),
                                              Entry(Statutory, "statutory_pt.yaml", "tsu_employee", TSU_DECL)]
  {
    assert [STATUTORY, COMPANY][..1] == [STATUTORY] && [STATUTORY][..0] == [];
    assert EntriesOf(COMPANY) == [];
    assert Flatten([STATUTORY]) == [] + EntriesOf(STATUTORY);
  }

  lemma ShippedLive(code: string)
    ensures Live(Flatten([STATUTORY, COMPANY]), code) ==
            if code == BASE.code then [0] else if code == TSU.code then [1] else []
  {
    ShippedEntries();
    CodesDiffer();
    var entries := Flatten([STATUTORY, COMPANY]);
    assert IsLive(entries, 0) && IsLive(entries, 1);
    assert LiveUpTo(entries, code, 0) == [];
    assert LiveUpTo(entries, code, 1) == if code == BASE.code then [0] else [];
  }

  lemma ShippedMeaning(code: string)
    ensures Meaning(Flatten([STATUTORY, COMPANY]), code) ==
            if code == BASE.code then Some(BASE) else if code == TSU.code then Some(TSU) else None
  {
    ShippedEntries();
    ShippedLive(code);
    hide LiveUpTo, Flatten;
    var entries := Flatten([STATUTORY, COMPANY]);
    if code == BASE.code {
      OneDeclaration(entries, code, 0);
    } else if code == TSU.code {
      OneDeclaration(entries, code, 1);
    }
  }

  lemma OneDeclaration(entries: seq<Entry>, code: string, i: nat)
    requires i < |entries|
    ensures var decl := entries[i].decl;
            Assemble(entries, code, [i]) ==
            ResolvedComponent(code, decl.kind, decl.phase, decl.primitive, decl.parameters, decl.inputsRequired,
                              decl.taxable, decl.subjectToTsu, decl.locked, [CitationOf(entries[i])])
  {
    var live: seq<nat> := [i];
    assert live[..0] == [];
    assert map[] + entries[i].decl.parameters == entries[i].decl.parameters;
    assert Overlay(entries, live) == entries[i].decl.parameters;
    assert TopmostInputs(entries, live) == entries[i].decl.inputsRequired;
    assert Citations(entries, live) == [CitationOf(entries[i])];
  }

  /** The documents resolve to the two components, salary first. */
  lemma ShippedResolves(dict: seq<ResolvedComponent>)
    requires IsResolution([STATUTORY, COMPANY], Ok(dict))
    ensures dict == [BASE, TSU]
  {
    hide Live, Meaning, Flatten;
    var entries := Flatten([STATUTORY, COMPANY]);
    CodesDiffer();
    var b := ShippedAt(dict, BASE);
    var t := ShippedAt(dict, TSU);
    ShippedLive(BASE.code);
    ShippedLive(TSU.code);
    forall p | 0 <= p < |dict| ensures dict[p] == BASE || dict[p] == TSU {
      ShippedMeaning(dict[p].code);
      ResolvedMeaning(dict, entries, dict[p]);
    }
    AtMostTwo(dict);
    if t < b { assert false; }
  }

  lemma AtMostTwo(dict: seq<ResolvedComponent>)
    requires DistinctCodes(dict) && forall p :: 0 <= p < |dict| ==> dict[p] == BASE || dict[p] == TSU
    ensures |dict| <= 2
  {
    assert |dict| > 2 ==> dict[0].code != dict[1].code && dict[1].code != dict[2].code;
  }

  lemma ShippedAt(dict: seq<ResolvedComponent>, comp: ResolvedComponent) returns (p: nat)
    requires Resolves(dict, Flatten([STATUTORY, COMPANY])) && (comp == BASE || comp == TSU)
    ensures p < |dict| && dict[p] == comp
  {
    hide Meaning, Live;
    ShippedMeaning(comp.code);
    CodesDiffer();
    var entries := Flatten([STATUTORY, COMPANY]);
    assert Get(dict, comp.code) == Meaning(entries, comp.code) == Some(comp);
    p := Find(dict, comp.code).value;
  }

  // ---- planning ------------------------------------------------------------

  const SHIPPED := [BASE, TSU]

  lemma ShippedPasses()
    ensures DistinctCodes(SHIPPED) && AllPass(SHIPPED, DEFAULT_REGISTRY, |SHIPPED|) && Cited(SHIPPED) && NoLaterPhase(SHIPPED)
  {
    hide ParametersValid;
    CodesDiffer();
    ShippedParameters();
    assert SHIPPED[0].code in Codes(SHIPPED);
    assert FirstMissing(TSU.inputsRequired, Codes(SHIPPED)).None?;
    assert forall c :: c in SHIPPED ==> c == BASE || c == TSU;
  }

  lemma ShippedParameters()
    ensures ParametersValid(TsuContribution, TSU.parameters) && ParametersValid(BaseSalary, BASE.parameters)
    ensures TSU.parameters["rate"] == Parameter.Number(TSU_RATE) && TSU.parameters["base_components"] == Names([BASE.code])
  {
    assert "rate"[0] == 'r' && "base_components"[0] == 'b';
  }

  /** There is only one plan: salary, then contribution. */
  lemma ShippedPlan(steps: seq<PlanStep>)
    requires IsPlanOf(SHIPPED, steps)
    ensures steps == [StepOf(BASE, 0), StepOf(TSU, 1)]
  {
    hide IsSortedIn, IsPhasedOrder, StepOf;
    var order: seq<ResolvedComponent> :| IsPhasedOrder(SHIPPED, order, |PHASE_ORDER|) && (forall phase :: IsSortedIn(SHIPPED, order, phase))
      && |order| == |steps| && forall i :: 0 <= i < |steps| ==> steps[i] == StepOf(order[i], i);
    PlanMembers(SHIPPED, order);
    ShippedOrder(order);
  }

  lemma ShippedOrder(order: seq<ResolvedComponent>)
    requires IsPhasedOrder(SHIPPED, order, |PHASE_ORDER|) && multiset(order) == multiset(SHIPPED)
    ensures order == SHIPPED
  {
    hide CountsUpTo, SamePhaseDependenciesFirst;
    assert |multiset(order)| == |multiset(SHIPPED)|;
    SalaryFirst(order[0], order[1]);
    assert order == [order[0], order[1]];
  }

  lemma SalaryFirst(a: ResolvedComponent, b: ResolvedComponent)
    requires multiset{a, b} == multiset{BASE, TSU} && Rank(a.phase) <= Rank(b.phase)
    ensures a == BASE && b == TSU
  {
    assert a in multiset{a, b} && b in multiset{a, b} && BASE in multiset{a, b} && TSU in multiset{a, b};
  }

  // ---- paying --------------------------------------------------------------

  /** What the employee contributes: the rate of the rounded salary, rounded. */
  function Contribution(ctx: ExecutionContext): real {
    ctx.policy.Apply(Product(ctx.policy.Apply(ctx.baseMonthlySalary), TSU_RATE))
  }

  lemma FirstStepRuns(ctx: ExecutionContext)
    ensures RunStep(StepOf(BASE, 0), map[], ctx, DEFAULT_REGISTRY) ==
            Ok(StepOutcome(PrimitiveResult(ctx.policy.Apply(ctx.baseMonthlySalary), None), map[], BASE.citations[0]))
  {
    OneCitation(BASE.citations);
  }

  lemma SecondStepRuns(ctx: ExecutionContext, salary: real)
    ensures RunStep(StepOf(TSU, 1), map[BASE.code := salary], ctx, DEFAULT_REGISTRY) ==
            Ok(StepOutcome(PrimitiveResult(ctx.policy.Apply(Product(salary, TSU_RATE)), Some(TSU_RATE)),
                           map[BASE.code := salary], TSU.citations[0]))
  {
    hide ParametersValid, RoundingPolicy.Apply, Product;
    OneCitation(TSU.citations);
    ShippedParameters();
    var inputs := BuildInputs(TsuContribution, TSU.inputsRequired, map[BASE.code := salary]);
    assert inputs == map[BASE.code := salary];
    OneBase(BASE.code, inputs);
  }

  lemma OneBase(base: string, inputs: Amounts)
    requires base in inputs
    ensures BaseSum([base], inputs) == Ok(inputs[base])
  {
    assert [base][..0] == [];
  }

  lemma OneCitation(citations: seq<Citation>)
    requires |citations| == 1
    ensures PrimaryCitation(citations) == Some(citations[0])
  {
    assert citations[..0] == [];
  }

  lemma ShippedRun(steps: seq<PlanStep>, ctx: ExecutionContext)
    requires steps == [StepOf(BASE, 0), StepOf(TSU, 1)]
    ensures Run(steps, ctx, DEFAULT_REGISTRY).Ok?
    ensures var outcomes := Run(steps, ctx, DEFAULT_REGISTRY).value;
            |outcomes| == 2 && outcomes[0].result.amount == ctx.policy.Apply(ctx.baseMonthlySalary)
            && outcomes[1].result.amount == Contribution(ctx)
  {
    hide Run, RunStep, RoundingPolicy.Apply, Product, Produced;
    FirstStepRuns(ctx);
    SecondStepRuns(ctx, ctx.policy.Apply(ctx.baseMonthlySalary));
    assert steps[..0] == [] && steps[..1] == [StepOf(BASE, 0)] && steps[..2] == steps;
    RunNothing(ctx, DEFAULT_REGISTRY);
    RunOneMore(steps, ctx, DEFAULT_REGISTRY, 0);
    var first := Run(steps[..1], ctx, DEFAULT_REGISTRY).value;
    ProducedByOne(steps[..1], first);
    RunOneMore(steps, ctx, DEFAULT_REGISTRY, 1);
  }

  lemma ProducedByOne(steps: seq<PlanStep>, outcomes: seq<StepOutcome>)
    requires |steps| == |outcomes| == 1
    ensures Produced(steps, outcomes) == map[steps[0].code := outcomes[0].result.amount]
  {
    assert steps[..0] == [] && outcomes[..0] == [];
  }

  lemma ShippedLines(steps: seq<PlanStep>, outcomes: seq<StepOutcome>)
    requires steps == [StepOf(BASE, 0), StepOf(TSU, 1)] && |outcomes| == 2
    ensures Lines(steps, outcomes, GrossBucket) == [LineOf(steps[0], outcomes[0])]
    ensures Lines(steps, outcomes, DeductionBucket) == [LineOf(steps[1], outcomes[1])]
    ensures Lines(steps, outcomes, EmployerBucket) == []
  {
    hide LineOf;
    assert steps[..1] == [StepOf(BASE, 0)] && steps[..1][..0] == [] && outcomes[..1][..0] == [] && outcomes[..1] == [outcomes[0]];
    assert Lines(steps[..1], outcomes[..1], GrossBucket) == [LineOf(steps[0], outcomes[0])];
    assert Lines(steps[..1], outcomes[..1], DeductionBucket) == [] && Lines(steps[..1], outcomes[..1], EmployerBucket) == [];
  }

  /** From the shipped documents to the payslip, for any salary and rounding policy:
      one salary line, one contribution line, and the net exactly their difference;
      with a salary that is not negative neither is the net. */
  lemma ShippedPayslip(dict: seq<ResolvedComponent>, plan: CalculationPlan, ctx: ExecutionContext)
    requires IsResolution([STATUTORY, COMPANY], Ok(dict)) && IsPlanOf(dict, plan.steps)
    ensures Run(plan.steps, ctx, DEFAULT_REGISTRY).Ok?
    ensures var slip := Payslip(plan, Run(plan.steps, ctx, DEFAULT_REGISTRY).value, ctx);
            && |slip.grossEarnings| == |slip.deductions| == 1 && slip.employerContributions == []
            && slip.grossEarnings[0].amount == ctx.policy.Apply(ctx.baseMonthlySalary)
            && slip.deductions[0].amount == Contribution(ctx)
            && slip.netPay == ctx.policy.Apply(ctx.baseMonthlySalary) - Contribution(ctx)
            && (ctx.baseMonthlySalary >= 0.0 ==> slip.netPay >= 0.0)
  {
    hide Run, Lines, RoundingPolicy.Apply, Product, Resolves, IsPlanOf, Trail;
    ShippedResolves(dict);
    ShippedPlan(plan.steps);
    ShippedRun(plan.steps, ctx);
    var outcomes := Run(plan.steps, ctx, DEFAULT_REGISTRY).value;
    ShippedLines(plan.steps, outcomes);
    NetPayIsExact(plan, ctx, DEFAULT_REGISTRY);
    OneLine(LineOf(plan.steps[0], outcomes[0]));
    OneLine(LineOf(plan.steps[1], outcomes[1]));
    if ctx.baseMonthlySalary >= 0.0 {
      ShippedDeducts(plan.steps);
      CodesDiffer();
      NetPayNonNegative(plan, ctx, DEFAULT_REGISTRY, 1);
    }
  }

  lemma OneLine(line: PayslipLine)
    ensures Total([line]) == line.amount
  {
    assert [line][..0] == [];
  }

  lemma ShippedDeducts(steps: seq<PlanStep>)
    requires steps == [StepOf(BASE, 0), StepOf(TSU, 1)]
    ensures IsTsuOverGross(steps, 1, DEFAULT_REGISTRY)
    ensures forall j :: 0 <= j < |steps| && BucketOf(steps[j].phase) == DeductionBucket ==> j == 1
  {
    hide ParametersValid;
    ShippedParameters();
    assert steps[0].code == BASE.code && BucketOf(steps[0].phase) == GrossBucket;
  }

  // ---- nothing goes wrong --------------------------------------------------

  lemma ShippedNoConflict(i: nat)
    requires i < |Flatten([STATUTORY, COMPANY])|
    ensures !LockConflict(Flatten([STATUTORY, COMPANY]), i)
  {
    ShippedEntries();
    CodesDiffer();
    var entries := Flatten([STATUTORY, COMPANY]);
    hide Flatten;
    assert entries[..0] == [] && entries[..1] == [entries[0]];
    assert Live([], BASE.code) == [];
    assert LiveUpTo([entries[0]], TSU.code, 0) == [];
    assert Live([entries[0]], TSU.code) == [];
  }

  /** Once its records are found, a dry run over the shipped documents never fails. */
  lemma ShippedNeverRefused(request: Request, error: PayrollError)
    ensures !IsRefusal([STATUTORY, COMPANY], DEFAULT_REGISTRY, request, error)
  {
    hide Flatten, LockConflict, AllPass, SomePhaseHasCycle, ComponentError, DistinctCodes, Run, IsPlanOf, Resolves;
    ShippedPasses();
    CodesDiffer();
    DifferentPhasesNoCycle(BASE, TSU);
    match error {
      case LookupFailed(_) =>
      case ResolvingFailed(e) =>
        forall i | 0 <= i < |Flatten([STATUTORY, COMPANY])| ensures !LockConflict(Flatten([STATUTORY, COMPANY]), i) { ShippedNoConflict(i); }
      case BuildingFailed(e) =>
        forall dict | IsResolution([STATUTORY, COMPANY], Ok(dict)) ensures dict == SHIPPED { ShippedResolves(dict); }
        forall i ensures !FailsFirst(SHIPPED, DEFAULT_REGISTRY, i) { PassedNeverFails(i); }
      case ExecutionFailed(e) =>
        forall dict, plan: CalculationPlan | IsPlanFor([STATUTORY, COMPANY], DEFAULT_REGISTRY, request, dict, plan)
          ensures Run(plan.steps, ContextOf(request), DEFAULT_REGISTRY).Ok?
        {
          ShippedPayslip(dict, plan, ContextOf(request));
        }
    }
  }

  lemma PassedNeverFails(i: int)
    requires AllPass(SHIPPED, DEFAULT_REGISTRY, |SHIPPED|)
    ensures !FailsFirst(SHIPPED, DEFAULT_REGISTRY, i)
  {
    hide ComponentError;
  }

  /** Main result for the documents that ship: a dry run always gives a payslip with
      one salary and one contribution, which add up to the cent. */
  lemma ShippedDryRun(request: Request, slip: PayslipResult)
    requires IsPayslipFor([STATUTORY, COMPANY], DEFAULT_REGISTRY, request, slip)
    ensures |slip.grossEarnings| == |slip.deductions| == 1 && slip.employerContributions == []
    ensures slip.grossEarnings[0].amount == DEFAULT_POLICY.Apply(request.baseMonthlySalary)
    ensures slip.deductions[0].amount == Contribution(ContextOf(request))
    ensures slip.netPay == slip.grossEarnings[0].amount - slip.deductions[0].amount
    ensures request.baseMonthlySalary >= 0.0 ==> slip.netPay >= 0.0
  {
    hide IsResolution, IsPlanOf, Run, Payslip, RoundingPolicy.Apply, Contribution;
    var dict, plan: CalculationPlan :| IsPlanFor([STATUTORY, COMPANY], DEFAULT_REGISTRY, request, dict, plan)
      && Run(plan.steps, ContextOf(request), DEFAULT_REGISTRY).Ok?
      && slip == Payslip(plan, Run(plan.steps, ContextOf(request), DEFAULT_REGISTRY).value, ContextOf(request));
    ShippedPayslip(dict, plan, ContextOf(request));
  }
}
