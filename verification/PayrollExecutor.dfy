/** Running a calculation plan: primitives in order, amounts fed forward, lines
    routed by phase. The meaning of a component is also given without any order,
    by recursion over its dependencies, and the two agree. */
module PayrollExecutor {
  import opened Wrappers
  import opened PayrollRounding
  import opened PayrollRules
  import opened PayrollPlan

  /** What the primitives read of the contract and the company. */
  datatype ExecutionContext = ExecutionContext(baseMonthlySalary: real, policy: RoundingPolicy)

  datatype ExecutionError =
    | PrimitiveNotRegistered(name: string)
    | ParametersRejected(code: string)
    | TsuMissingBaseComponent(base: string)
    | NoCitation(code: string)

  type Amounts = map<string, real>

  datatype PayslipLine = PayslipLine(code: string, amount: real, rate: Option<real>, sourceAuditRef: nat)

  datatype AuditEntry = AuditEntry(stepIndex: nat, primitive: string, inputs: Amounts, amount: real, citation: Citation)

  datatype PayslipResult = PayslipResult(
    periodId: string,
    employeeId: string,
    grossEarnings: seq<PayslipLine>,
    deductions: seq<PayslipLine>,
    employerContributions: seq<PayslipLine>,
    netPay: real,
    audit: seq<AuditEntry>)

  // ---- primitives ----------------------------------------------------------

  datatype PrimitiveResult = PrimitiveResult(amount: real, rate: Option<real>)

  function BaseSalaryResult(ctx: ExecutionContext): PrimitiveResult {
    PrimitiveResult(ctx.policy.Apply(ctx.baseMonthlySalary), None)
  }

  /** The sum of the base components, or the first one that is missing. */
  function BaseSum(bases: seq<string>, inputs: Amounts): Result<real, ExecutionError> {
    if bases == [] then Ok(0.0)
    else
      var last := bases[|bases| - 1];
      match BaseSum(bases[..|bases| - 1], inputs)
      case Err(e) => Err(e)
      case Ok(sum) => if last in inputs then Ok(sum + inputs[last]) else Err(TsuMissingBaseComponent(last))
  }

  function TsuResult(rate: real, bases: seq<string>, inputs: Amounts, ctx: ExecutionContext):
    Result<PrimitiveResult, ExecutionError>
  {
    match BaseSum(bases, inputs)
    case Err(e) => Err(e)
    case Ok(sum) => Ok(PrimitiveResult(ctx.policy.Apply(Product(sum, rate)), Some(rate)))
  }

  lemma {:induction false} BaseSumFailsEarly(bases: seq<string>, inputs: Amounts, n: nat)
    requires n <= |bases| && BaseSum(bases[..n], inputs).Err?
    ensures BaseSum(bases, inputs) == BaseSum(bases[..n], inputs)
  {
    if n == |bases| {
      assert bases[..n] == bases;
    } else {
      assert bases[..|bases| - 1][..n] == bases[..n];
      BaseSumFailsEarly(bases[..|bases| - 1], inputs, n);
    }
  }

  method TsuContributionExecute(rate: real, bases: seq<string>, inputs: Amounts, ctx: ExecutionContext)
    returns (r: Result<PrimitiveResult, ExecutionError>)
    ensures r == TsuResult(rate, bases, inputs, ctx)
  {
    var base := 0.0;
    for i := 0 to |bases|
      invariant BaseSum(bases[..i], inputs) == Ok(base)
    {
      assert bases[..i + 1][..i] == bases[..i];
      if bases[i] !in inputs {
        BaseSumFailsEarly(bases, inputs, i + 1);
        return Err(TsuMissingBaseComponent(bases[i]));
      }
      base := base + inputs[bases[i]];
    }
    assert bases[..|bases|] == bases;
    return Ok(PrimitiveResult(ctx.policy.Apply(Product(base, rate)), Some(rate)));
  }

  // ---- one step ------------------------------------------------------------

  /** `_build_inputs`: only a primitive with `component_values` is fed, and only
      with what has been produced. */
  function BuildInputs(primitive: Primitive, inputsRequired: seq<string>, produced: Amounts): Amounts {
    match primitive
    case BaseSalary => map[]
    case TsuContribution => map code | code in inputsRequired && code in produced :: produced[code]
  }

  datatype StepOutcome = StepOutcome(result: PrimitiveResult, inputs: Amounts, citation: Citation)

  function RunPrimitive(primitive: Primitive, parameters: map<string, Parameter>, inputs: Amounts, ctx: ExecutionContext):
    Result<PrimitiveResult, ExecutionError>
    requires ParametersValid(primitive, parameters)
  {
    match primitive
    case BaseSalary => Ok(BaseSalaryResult(ctx))
    case TsuContribution => TsuResult(parameters["rate"].n, parameters["base_components"].names, inputs, ctx)
  }

  function RunStep(step: PlanStep, produced: Amounts, ctx: ExecutionContext, registry: Registry):
    Result<StepOutcome, ExecutionError>
  {
    if step.primitive !in registry then Err(PrimitiveNotRegistered(step.primitive))
    else
      var primitive := registry[step.primitive];
      if !ParametersValid(primitive, step.parameters) then Err(ParametersRejected(step.code))
      else
        var inputs := BuildInputs(primitive, step.inputsRequired, produced);
        match RunPrimitive(primitive, step.parameters, inputs, ctx)
        case Err(e) => Err(e)
        case Ok(result) =>
          match PrimaryCitation(step.citations)
          case None => Err(NoCitation(step.code))
          case Some(citation) => Ok(StepOutcome(result, inputs, citation))
  }

  // ---- the whole plan ------------------------------------------------------

  /** The amounts of the first steps, one per step, or the first error. */
  function Run(steps: seq<PlanStep>, ctx: ExecutionContext, registry: Registry): (r: Result<seq<StepOutcome>, ExecutionError>)
    ensures r.Ok? ==> |r.value| == |steps|
  {
    if steps == [] then Ok([])
    else
      var init, last := steps[..|steps| - 1], steps[|steps| - 1];
      match Run(init, ctx, registry)
      case Err(e) => Err(e)
      case Ok(outcomes) =>
        match RunStep(last, Produced(init, outcomes), ctx, registry)
        case Err(e) => Err(e)
        case Ok(outcome) => Ok(outcomes + [outcome])
  }

  /** The `produced` dictionary after the given steps. */
  function Produced(steps: seq<PlanStep>, outcomes: seq<StepOutcome>): Amounts
    requires |steps| == |outcomes|
  {
    if steps == [] then map[]
    else Produced(steps[..|steps| - 1], outcomes[..|steps| - 1])[steps[|steps| - 1].code := outcomes[|steps| - 1].result.amount]
  }

  function LineOf(step: PlanStep, outcome: StepOutcome): PayslipLine {
    PayslipLine(step.code, outcome.result.amount, outcome.result.rate, step.index)
  }

  function EntryOf(step: PlanStep, outcome: StepOutcome): AuditEntry {
    AuditEntry(step.index, step.primitive, outcome.inputs, outcome.result.amount, outcome.citation)
  }

  datatype Bucket = GrossBucket | DeductionBucket | EmployerBucket | NoBucket

  /** Where `_route_line` puts a line: employer cost is kept apart from what the
      employee is paid, and inputs leave no line. */
  function BucketOf(phase: Phase): Bucket {
    match phase
    case Input => NoBucket
    case Gross => GrossBucket
    case PreTaxDeduction => DeductionBucket
    case Tax => DeductionBucket
    case PostTax => DeductionBucket
    case EmployerPhase => EmployerBucket
  }

  /** The lines of one bucket, in step order. */
  function Lines(steps: seq<PlanStep>, outcomes: seq<StepOutcome>, bucket: Bucket): seq<PayslipLine>
    requires |steps| == |outcomes|
  {
    if steps == [] then []
    else
      var n := |steps| - 1;
      Lines(steps[..n], outcomes[..n], bucket) +
      (if BucketOf(steps[n].phase) == bucket then [LineOf(steps[n], outcomes[n])] else [])
  }

  /** The audit trail: one entry per step, in step order. */
  function Trail(steps: seq<PlanStep>, outcomes: seq<StepOutcome>): seq<AuditEntry>
    requires |steps| == |outcomes|
  {
    seq(|steps|, i requires 0 <= i < |steps| => EntryOf(steps[i], outcomes[i]))
  }

  function Total(lines: seq<PayslipLine>): real {
    if lines == [] then 0.0 else Total(lines[..|lines| - 1]) + lines[|lines| - 1].amount
  }

  function Payslip(plan: CalculationPlan, outcomes: seq<StepOutcome>, ctx: ExecutionContext): PayslipResult
    requires |plan.steps| == |outcomes|
  {
    var gross := Lines(plan.steps, outcomes, GrossBucket);
    var deductions := Lines(plan.steps, outcomes, DeductionBucket);
    PayslipResult(plan.periodId, plan.employeeId, gross, deductions, Lines(plan.steps, outcomes, EmployerBucket),
                  ctx.policy.Apply(Total(gross) - Total(deductions)),
                  Trail(plan.steps, outcomes))
  }

  lemma {:induction false} RunFailsEarly(steps: seq<PlanStep>, ctx: ExecutionContext, registry: Registry, n: nat)
    requires n <= |steps| && Run(steps[..n], ctx, registry).Err?
    ensures Run(steps, ctx, registry) == Run(steps[..n], ctx, registry)
  {
    if n == |steps| {
      assert steps[..n] == steps;
    } else {
      assert steps[..|steps| - 1][..n] == steps[..n];
      RunFailsEarly(steps[..|steps| - 1], ctx, registry, n);
    }
  }

  class Executor {
    const registry: Registry

    constructor (registry: Registry)
      ensures this.registry == registry
    {
      this.registry := registry;
    }

    method Execute(plan: CalculationPlan, ctx: ExecutionContext) returns (r: Result<PayslipResult, ExecutionError>)
      ensures var run := Run(plan.steps, ctx, registry);
              r == if run.Ok? then Ok(Payslip(plan, run.value, ctx)) else Err(run.error)
    {
      hide Run, RunStep, Lines, Trail, Produced, Total, LineOf, EntryOf;
      var gross: seq<PayslipLine> := [];
      var deductions: seq<PayslipLine> := [];
      var employer: seq<PayslipLine> := [];
      var audit: seq<AuditEntry> := [];
      var produced: Amounts := map[];
      ghost var outcomes: seq<StepOutcome> := [];
      RunNothing(ctx, registry);
      assert plan.steps[..0] == [];
      for i := 0 to |plan.steps|
        invariant Run(plan.steps[..i], ctx, registry) == Ok(outcomes) && |outcomes| == i
        invariant produced == Produced(plan.steps[..i], outcomes)
        invariant gross == Lines(plan.steps[..i], outcomes, GrossBucket)
        invariant deductions == Lines(plan.steps[..i], outcomes, DeductionBucket)
        invariant employer == Lines(plan.steps[..i], outcomes, EmployerBucket)
        invariant audit == Trail(plan.steps[..i], outcomes)
      {
        var step := plan.steps[i];
        RunOneMore(plan.steps, ctx, registry, i);
        var run := RunOne(step, produced, ctx);
        if run.Err? { return Err(run.error); }
        var outcome := run.value;
        audit := audit + [EntryOf(step, outcome)];
        var line := LineOf(step, outcome);
        OneMoreLine(plan.steps, outcomes, outcome, i);
        match step.phase {
          case Gross => gross := gross + [line];
          case PreTaxDeduction => deductions := deductions + [line];
          case Tax => deductions := deductions + [line];
          case PostTax => deductions := deductions + [line];
          case EmployerPhase => employer := employer + [line];
          case Input =>
        }
        produced := produced[step.code := outcome.result.amount];
        outcomes := outcomes + [outcome];
      }
      assert plan.steps[..|plan.steps|] == plan.steps;
      var grossTotal := SumAmounts(gross);
      var deductionTotal := SumAmounts(deductions);
      var net := ctx.policy.Apply(grossTotal - deductionTotal);
      return Ok(PayslipResult(plan.periodId, plan.employeeId, gross, deductions, employer, net, audit));
    }

    method RunOne(step: PlanStep, produced: Amounts, ctx: ExecutionContext) returns (r: Result<StepOutcome, ExecutionError>)
      ensures r == RunStep(step, produced, ctx, registry)
    {
      if step.primitive !in registry { return Err(PrimitiveNotRegistered(step.primitive)); }
      var primitive := registry[step.primitive];
      if !ParametersValid(primitive, step.parameters) { return Err(ParametersRejected(step.code)); }
      var inputs := BuildInputs(primitive, step.inputsRequired, produced);
      var run: Result<PrimitiveResult, ExecutionError>;
      match primitive {
        case BaseSalary => run := Ok(BaseSalaryResult(ctx));
        case TsuContribution =>
          run := TsuContributionExecute(step.parameters["rate"].n, step.parameters["base_components"].names, inputs, ctx);
      }
      if run.Err? { return Err(run.error); }
      var citation := SelectPrimaryCitation(step.citations);
      if citation.None? { return Err(NoCitation(step.code)); }
      return Ok(StepOutcome(run.value, inputs, citation.value));
    }
  }

  method SumAmounts(lines: seq<PayslipLine>) returns (total: real)
    ensures total == Total(lines)
  {
    total := 0.0;
    for i := 0 to |lines|
      invariant total == Total(lines[..i])
    {
      assert lines[..i + 1][..i] == lines[..i];
      total := total + lines[i].amount;
    }
    assert lines[..|lines|] == lines;
  }

  lemma RunNothing(ctx: ExecutionContext, registry: Registry)
    ensures Run([], ctx, registry) == Ok([]) && Produced([], []) == map[] && Trail([], []) == []
    ensures forall bucket :: Lines([], [], bucket) == []
  {
  }

  lemma RunOneMore(steps: seq<PlanStep>, ctx: ExecutionContext, registry: Registry, i: nat)
    requires i < |steps| && Run(steps[..i], ctx, registry).Ok?
    ensures var outcomes := Run(steps[..i], ctx, registry).value;
            var run := RunStep(steps[i], Produced(steps[..i], outcomes), ctx, registry);
            match run
            case Err(e) => Run(steps, ctx, registry) == Err(e)
            case Ok(outcome) => Run(steps[..i + 1], ctx, registry) == Ok(outcomes + [outcome])
  {
    assert steps[..i + 1][..i] == steps[..i];
    if Run(steps[..i + 1], ctx, registry).Err? { RunFailsEarly(steps, ctx, registry, i + 1); }
  }

  lemma OneMoreLine(steps: seq<PlanStep>, outcomes: seq<StepOutcome>, outcome: StepOutcome, i: nat)
    requires i < |steps| && |outcomes| == i
    ensures forall bucket :: Lines(steps[..i + 1], outcomes + [outcome], bucket) ==
              Lines(steps[..i], outcomes, bucket) + if BucketOf(steps[i].phase) == bucket then [LineOf(steps[i], outcome)] else []
    ensures Produced(steps[..i + 1], outcomes + [outcome]) == Produced(steps[..i], outcomes)[steps[i].code := outcome.result.amount]
    ensures Trail(steps[..i + 1], outcomes + [outcome]) == Trail(steps[..i], outcomes) + [EntryOf(steps[i], outcome)]
  {
    assert steps[..i + 1][..i] == steps[..i] && steps[..i + 1][i] == steps[i];
    assert forall k :: 0 <= k < i ==> steps[..i + 1][k] == steps[..i][k];
    assert (outcomes + [outcome])[..i] == outcomes;
  }

  // ---- the amount a component stands for -----------------------------------

  /** The part of a step that determines its amount. */
  datatype Formula = Formula(primitive: string, parameters: map<string, Parameter>, inputsRequired: seq<string>)

  function FormulaOf(step: PlanStep): Formula {
    Formula(step.primitive, step.parameters, step.inputsRequired)
  }

  /** The formulas of a plan, by component, without their order. */
  function Formulas(steps: seq<PlanStep>): map<string, Formula>
  {
    if steps == [] then map[]
    else Formulas(steps[..|steps| - 1])[steps[|steps| - 1].code := FormulaOf(steps[|steps| - 1])]
  }

  /** The amount of `code` by recursion over its dependencies; `above` are the
      components being evaluated, so a circular definition has no amount. */
  function Denote(formulas: map<string, Formula>, ctx: ExecutionContext, registry: Registry, code: string, above: set<string>):
    Option<real>
    decreases formulas.Keys - above, 0
  {
    if code !in formulas || code in above then None
    else
      var f := formulas[code];
      if f.primitive !in registry || !ParametersValid(registry[f.primitive], f.parameters) then None
      else
        match registry[f.primitive]
        case BaseSalary => Some(ctx.policy.Apply(ctx.baseMonthlySalary))
        case TsuContribution =>
          assert formulas.Keys - (above + {code}) < formulas.Keys - above by { assert code in formulas.Keys - above; }
          match DenoteSum(formulas, ctx, registry, f.inputsRequired, f.parameters["base_components"].names, above + {code})
          case None => None
          case Some(sum) => Some(ctx.policy.Apply(Product(sum, f.parameters["rate"].n)))
  }

  function DenoteSum(formulas: map<string, Formula>, ctx: ExecutionContext, registry: Registry,
                     inputs: seq<string>, bases: seq<string>, above: set<string>): Option<real>
    decreases formulas.Keys - above, |bases|
  {
    if bases == [] then Some(0.0)
    else
      var last := bases[|bases| - 1];
      match DenoteSum(formulas, ctx, registry, inputs, bases[..|bases| - 1], above)
      case None => None
      case Some(sum) =>
        if last !in inputs then None
        else
          match Denote(formulas, ctx, registry, last, above)
          case None => None
          case Some(amount) => Some(sum + amount)
  }

  ghost predicate Agrees(steps: seq<PlanStep>, ctx: ExecutionContext, registry: Registry, i: nat, amount: real)
    requires i < |steps|
  {
    forall above: set<string> :: (forall j :: 0 <= j <= i ==> steps[j].code !in above) ==>
      Denote(Formulas(steps), ctx, registry, steps[i].code, above) == Some(amount)
  }

  lemma {:induction false} FormulaAt(steps: seq<PlanStep>, i: nat)
    requires DistinctSteps(steps) && i < |steps|
    ensures steps[i].code in Formulas(steps) && Formulas(steps)[steps[i].code] == FormulaOf(steps[i])
  {
    if i < |steps| - 1 { FormulaAt(steps[..|steps| - 1], i); }
  }

  lemma {:induction false} RunPrefix(steps: seq<PlanStep>, ctx: ExecutionContext, registry: Registry, i: nat)
    requires i <= |steps| && Run(steps, ctx, registry).Ok?
    ensures Run(steps[..i], ctx, registry) == Ok(Run(steps, ctx, registry).value[..i])
  {
    if i == |steps| {
      assert steps[..i] == steps && Run(steps, ctx, registry).value[..i] == Run(steps, ctx, registry).value;
    } else {
      var init := steps[..|steps| - 1];
      RunPrefix(init, ctx, registry, i);
      assert init[..i] == steps[..i];
      assert Run(steps, ctx, registry).value[..i] == Run(init, ctx, registry).value[..i];
    }
  }

  lemma {:induction false} ProducedAt(steps: seq<PlanStep>, outcomes: seq<StepOutcome>, i: nat)
    requires DistinctSteps(steps) && |steps| == |outcomes| && i < |steps|
    ensures steps[i].code in Produced(steps, outcomes)
    ensures Produced(steps, outcomes)[steps[i].code] == outcomes[i].result.amount
  {
    if i < |steps| - 1 { ProducedAt(steps[..|steps| - 1], outcomes[..|steps| - 1], i); }
  }

  lemma {:induction false} ProducedOnly(steps: seq<PlanStep>, outcomes: seq<StepOutcome>, code: string) returns (j: nat)
    requires |steps| == |outcomes| && code in Produced(steps, outcomes)
    ensures j < |steps| && steps[j].code == code
  {
    j := |steps| - 1;
    if steps[j].code != code {
      j := ProducedOnly(steps[..|steps| - 1], outcomes[..|steps| - 1], code);
    }
  }

  lemma {:induction false} SumAgrees(steps: seq<PlanStep>, outcomes: seq<StepOutcome>, ctx: ExecutionContext, registry: Registry,
                                     i: nat, bases: seq<string>, above: set<string>)
    requires DistinctSteps(steps) && |steps| == |outcomes| && i < |steps|
    requires forall j :: 0 <= j < i ==> Agrees(steps, ctx, registry, j, outcomes[j].result.amount)
    requires forall j :: 0 <= j < i ==> steps[j].code !in above
    ensures var inputs := BuildInputs(TsuContribution, steps[i].inputsRequired, Produced(steps[..i], outcomes[..i]));
            BaseSum(bases, inputs).Ok? ==>
              DenoteSum(Formulas(steps), ctx, registry, steps[i].inputsRequired, bases, above) == Some(BaseSum(bases, inputs).value)
  {
    hide Formulas, Denote;
    var produced := Produced(steps[..i], outcomes[..i]);
    var inputs := BuildInputs(TsuContribution, steps[i].inputsRequired, produced);
    if bases != [] && BaseSum(bases, inputs).Ok? {
      SumAgrees(steps, outcomes, ctx, registry, i, bases[..|bases| - 1], above);
      var last := bases[|bases| - 1];
      assert last in inputs;
      var j := ProducedOnly(steps[..i], outcomes[..i], last);
      ProducedAt(steps[..i], outcomes[..i], j);
      assert Agrees(steps, ctx, registry, j, outcomes[j].result.amount);
    }
  }

  /** Step `i` was run on what the steps before it produced. */
  lemma OutcomeAt(steps: seq<PlanStep>, ctx: ExecutionContext, registry: Registry, i: nat)
    requires Run(steps, ctx, registry).Ok? && i < |steps|
    ensures var outcomes := Run(steps, ctx, registry).value;
            RunStep(steps[i], Produced(steps[..i], outcomes[..i]), ctx, registry) == Ok(outcomes[i])
  {
    hide RunStep, Produced;
    var outcomes := Run(steps, ctx, registry).value;
    RunPrefix(steps, ctx, registry, i + 1);
    RunPrefix(steps, ctx, registry, i);
    assert steps[..i + 1][..i] == steps[..i] && steps[..i + 1][i] == steps[i];
    assert outcomes[..i + 1] == outcomes[..i] + [outcomes[i]];
  }

  /** Main result: each recorded amount is the component's amount by recursion
      over its dependencies, whatever the order of the steps was. */
  lemma {:induction false} ExecutionRefinesMeaning(steps: seq<PlanStep>, ctx: ExecutionContext, registry: Registry, i: nat)
    requires DistinctSteps(steps) && Run(steps, ctx, registry).Ok? && i < |steps|
    ensures Agrees(steps, ctx, registry, i, Run(steps, ctx, registry).value[i].result.amount)
    decreases i
  {
    hide Run, RunStep, Denote, Produced, DistinctSteps, Formulas;
    var outcomes := Run(steps, ctx, registry).value;
    OutcomeAt(steps, ctx, registry, i);
    forall j | 0 <= j < i ensures Agrees(steps, ctx, registry, j, outcomes[j].result.amount) {
      ExecutionRefinesMeaning(steps, ctx, registry, j);
    }
    forall above: set<string> | forall j :: 0 <= j <= i ==> steps[j].code !in above
      ensures Denote(Formulas(steps), ctx, registry, steps[i].code, above) == Some(outcomes[i].result.amount)
    {
      DenoteStep(steps, outcomes, ctx, registry, i, above);
    }
  }

  lemma DenoteStep(steps: seq<PlanStep>, outcomes: seq<StepOutcome>, ctx: ExecutionContext, registry: Registry,
                   i: nat, above: set<string>)
    requires DistinctSteps(steps) && |steps| == |outcomes| && i < |steps|
    requires forall j :: 0 <= j < i ==> Agrees(steps, ctx, registry, j, outcomes[j].result.amount)
    requires forall j :: 0 <= j <= i ==> steps[j].code !in above
    requires RunStep(steps[i], Produced(steps[..i], outcomes[..i]), ctx, registry) == Ok(outcomes[i])
    ensures Denote(Formulas(steps), ctx, registry, steps[i].code, above) == Some(outcomes[i].result.amount)
  {
    hide BaseSum, DenoteSum, Produced, BuildInputs, Product, RoundingPolicy.Apply, Formulas, Agrees;
    var step := steps[i];
    FormulaAt(steps, i);
    if registry[step.primitive].TsuContribution? {
      SumAgrees(steps, outcomes, ctx, registry, i, step.parameters["base_components"].names, above + {step.code});
    }
  }
}
