/** What stands on a payslip: which line is where, what each line and each audit entry
    says, and what the net is the sum of. */
module PayrollLedger {
  import opened Wrappers
  import opened PayrollRounding
  import opened PayrollRules
  import opened PayrollPlan
  import opened PayrollExecutor
  import opened PayrollPay
  import opened PayrollService

  /** A line that refers to step `i`. */
  ghost predicate HasLine(lines: seq<PayslipLine>, i: int) {
    exists k :: 0 <= k < |lines| && lines[k].sourceAuditRef == i
  }

  /** Earnings add to the net, the three kinds of deduction take from it, and neither what
      the employer pays nor an input does either. */
  function Signed(phase: Phase, amount: real): real {
    match phase
    case Input => 0.0
    case Gross => amount
    case PreTaxDeduction => -amount
    case Tax => -amount
    case PostTax => -amount
    case EmployerPhase => 0.0
  }

  function SignedSum(steps: seq<PlanStep>, audit: seq<AuditEntry>): real
    requires |steps| == |audit|
  {
    if steps == [] then 0.0
    else SignedSum(steps[..|steps| - 1], audit[..|audit| - 1]) + Signed(steps[|steps| - 1].phase, audit[|audit| - 1].amount)
  }

  /** Every line belongs to a step: its code, its amount, and its rate if it has one. */
  ghost predicate AreLinesOf(steps: seq<PlanStep>, audit: seq<AuditEntry>, registry: Registry, lines: seq<PayslipLine>) {
    && RefsRise(lines)
    && forall k :: 0 <= k < |lines| ==> IsLineFor(steps, audit, registry, lines[k])
  }

  ghost predicate IsLineFor(steps: seq<PlanStep>, audit: seq<AuditEntry>, registry: Registry, line: PayslipLine) {
    && line.sourceAuditRef < |steps| == |audit|
    && var step := steps[line.sourceAuditRef];
       && line.code == step.code && line.amount == audit[line.sourceAuditRef].amount
       && step.primitive in registry
       && match registry[step.primitive]
          case BaseSalary => line.rate == None
          case TsuContribution => "rate" in step.parameters && step.parameters["rate"].Number? && line.rate == Some(step.parameters["rate"].n)
  }

  /** A TSU was given the amounts of the steps it requires, of those that came before it;
      a salary was given nothing. */
  ghost predicate WasGiven(steps: seq<PlanStep>, audit: seq<AuditEntry>, registry: Registry, i: int)
    requires 0 <= i < |steps| == |audit|
  {
    && audit[i].stepIndex == i && audit[i].primitive == steps[i].primitive && steps[i].primitive in registry
    && match registry[steps[i].primitive]
       case BaseSalary => audit[i].inputs == map[]
       case TsuContribution =>
         && (forall code :: code in audit[i].inputs <==> code in steps[i].inputsRequired && ProducedBefore(steps, i, code))
         && forall j :: 0 <= j < i && steps[j].code in audit[i].inputs ==> audit[i].inputs[steps[j].code] == audit[j].amount
  }

  /** The whole of a payslip, phase by phase. */
  ghost predicate IsLedger(steps: seq<PlanStep>, registry: Registry, slip: PayslipResult) {
    && |slip.audit| == |steps|
    && (forall i :: 0 <= i < |steps| ==>
          && (HasLine(slip.grossEarnings, i) <==> steps[i].phase == Gross)
          && (HasLine(slip.deductions, i) <==> steps[i].phase == PreTaxDeduction || steps[i].phase == Tax || steps[i].phase == PostTax)
          && (HasLine(slip.employerContributions, i) <==> steps[i].phase == EmployerPhase)
          && WasGiven(steps, slip.audit, registry, i))
    && AreLinesOf(steps, slip.audit, registry, slip.grossEarnings) && AreLinesOf(steps, slip.audit, registry, slip.deductions)
    && AreLinesOf(steps, slip.audit, registry, slip.employerContributions)
    && slip.netPay == SignedSum(steps, slip.audit)
  }

  // ---- proofs --------------------------------------------------------------

  lemma {:induction false} TotalsAreSigned(steps: seq<PlanStep>, outcomes: seq<StepOutcome>)
    requires |steps| == |outcomes|
    ensures Total(Lines(steps, outcomes, GrossBucket)) - Total(Lines(steps, outcomes, DeductionBucket)) == SignedSum(steps, Trail(steps, outcomes))
  {
    if steps == [] {
      NothingIsSigned(steps, outcomes);
    } else {
      hide Lines, BucketOf, Total, Signed, SignedSum, Trail;
      var n := |steps| - 1;
      TotalsAreSigned(steps[..n], outcomes[..n]);
      SignedByBucket(steps[n].phase, outcomes[n].result.amount);
      SignedStep(steps, outcomes);
      WholeTotalStep(steps, outcomes, GrossBucket);
      WholeTotalStep(steps, outcomes, DeductionBucket);
    }
  }

  lemma NothingIsSigned(steps: seq<PlanStep>, outcomes: seq<StepOutcome>)
    requires steps == [] && outcomes == []
    ensures SignedSum(steps, Trail(steps, outcomes)) == 0.0 && forall bucket :: Total(Lines(steps, outcomes, bucket)) == 0.0
  {
  }

  lemma SignedStep(steps: seq<PlanStep>, outcomes: seq<StepOutcome>)
    requires |steps| == |outcomes| > 0
    ensures var n := |steps| - 1;
            SignedSum(steps, Trail(steps, outcomes)) ==
            SignedSum(steps[..n], Trail(steps[..n], outcomes[..n])) + Signed(steps[n].phase, outcomes[n].result.amount)
  {
    hide Signed;
    var n := |steps| - 1;
    assert Trail(steps, outcomes)[..n] == Trail(steps[..n], outcomes[..n]);
  }

  lemma WholeTotalStep(steps: seq<PlanStep>, outcomes: seq<StepOutcome>, bucket: Bucket)
    requires |steps| == |outcomes| > 0
    ensures var n := |steps| - 1;
            Total(Lines(steps, outcomes, bucket)) ==
            Total(Lines(steps[..n], outcomes[..n], bucket)) + if BucketOf(steps[n].phase) == bucket then outcomes[n].result.amount else 0.0
  {
    hide Lines, Total, BucketOf;
    var n := |steps| - 1;
    TotalStep(steps, outcomes, n, bucket);
    assert steps[..n + 1] == steps && outcomes[..n + 1] == outcomes;
  }

  lemma SignedByBucket(phase: Phase, amount: real)
    ensures Signed(phase, amount) ==
            if BucketOf(phase) == GrossBucket then amount else if BucketOf(phase) == DeductionBucket then 0.0 - amount else 0.0
  {
  }

  lemma LineIsThere(steps: seq<PlanStep>, outcomes: seq<StepOutcome>, bucket: Bucket, i: nat)
    requires |steps| == |outcomes| && Numbered(steps) && i < |steps|
    ensures HasLine(Lines(steps, outcomes, bucket), i) <==> BucketOf(steps[i].phase) == bucket
  {
    hide Lines, BucketOf;
    LinesAreSteps(steps, outcomes, bucket);
    var lines := Lines(steps, outcomes, bucket);
    if BucketOf(steps[i].phase) == bucket {
      var k := StepHasLine(steps, outcomes, bucket, i);
      assert RefersTo(lines, k, i);
    }
    if k :| 0 <= k < |lines| && lines[k].sourceAuditRef == i {
      assert IsLineOfStep(steps, outcomes, bucket, lines[k]);
    }
  }

  lemma RunOutcome(steps: seq<PlanStep>, outcomes: seq<StepOutcome>, ctx: ExecutionContext, registry: Registry, i: nat)
    requires Run(steps, ctx, registry) == Ok(outcomes) && i < |steps|
    ensures outcomes[i].inputs.Keys == (if steps[i].primitive in registry && registry[steps[i].primitive].TsuContribution?
                                        then set code | code in steps[i].inputsRequired && code in Produced(steps[..i], outcomes[..i]) else {})
    ensures forall code :: code in outcomes[i].inputs ==>
              code in Produced(steps[..i], outcomes[..i]) && outcomes[i].inputs[code] == Produced(steps[..i], outcomes[..i])[code]
    ensures steps[i].primitive in registry && ParametersValid(registry[steps[i].primitive], steps[i].parameters)
    ensures outcomes[i].result.rate ==
            match registry[steps[i].primitive] { case BaseSalary => None case TsuContribution => Some(steps[i].parameters["rate"].n) }
  {
    hide Run, Produced, PrimaryCitation, BaseSum, RoundingPolicy.Apply;
    OutcomeAt(steps, ctx, registry, i);
  }

  lemma StepWasGiven(steps: seq<PlanStep>, outcomes: seq<StepOutcome>, ctx: ExecutionContext, registry: Registry, i: nat)
    requires Run(steps, ctx, registry) == Ok(outcomes) && i < |steps| && Numbered(steps) && DistinctSteps(steps)
    ensures WasGiven(steps, Trail(steps, outcomes), registry, i)
  {
    hide Run, Produced, DistinctSteps, ParametersValid;
    RunOutcome(steps, outcomes, ctx, registry, i);
    var inputs, before := outcomes[i].inputs, outcomes[..i];
    forall code ensures code in Produced(steps[..i], before) <==> ProducedBefore(steps, i, code) {
      ProducedExactly(steps, before, i, code);
    }
    forall j | 0 <= j < i ensures Produced(steps[..i], before)[steps[j].code] == outcomes[j].result.amount {
      assert ProducedBefore(steps, i, steps[j].code);
      ProducedValue(steps, before, i, j);
    }
  }

  lemma {:induction false} ProducedValue(steps: seq<PlanStep>, outcomes: seq<StepOutcome>, i: nat, j: nat)
    requires i == |outcomes| <= |steps| && j < i && DistinctSteps(steps)
    ensures steps[j].code in Produced(steps[..i], outcomes) && Produced(steps[..i], outcomes)[steps[j].code] == outcomes[j].result.amount
  {
    assert steps[..i][..i - 1] == steps[..i - 1];
    if j < i - 1 { ProducedValue(steps, outcomes[..i - 1], i - 1, j); }
  }

  lemma LinesAreFor(steps: seq<PlanStep>, outcomes: seq<StepOutcome>, ctx: ExecutionContext, registry: Registry, bucket: Bucket)
    requires Run(steps, ctx, registry) == Ok(outcomes) && Numbered(steps)
    ensures AreLinesOf(steps, Trail(steps, outcomes), registry, Lines(steps, outcomes, bucket))
  {
    hide Run, Lines, BucketOf, RefsRise, Produced, ParametersValid;
    LinesAreSteps(steps, outcomes, bucket);
    var lines := Lines(steps, outcomes, bucket);
    forall k | 0 <= k < |lines| ensures IsLineFor(steps, Trail(steps, outcomes), registry, lines[k]) {
      assert IsLineOfStep(steps, outcomes, bucket, lines[k]);
      RunOutcome(steps, outcomes, ctx, registry, lines[k].sourceAuditRef);
      TsuHasRate(registry, steps[lines[k].sourceAuditRef]);
    }
  }

  lemma TsuHasRate(registry: Registry, step: PlanStep)
    requires step.primitive in registry && ParametersValid(registry[step.primitive], step.parameters)
    ensures registry[step.primitive].TsuContribution? ==> "rate" in step.parameters && step.parameters["rate"].Number?
  {
  }

  /** Main result on payslips: whatever runs to the end leaves a ledger of its steps. */
  lemma PayslipIsLedger(plan: CalculationPlan, ctx: ExecutionContext, registry: Registry)
    requires Run(plan.steps, ctx, registry).Ok? && Numbered(plan.steps) && DistinctSteps(plan.steps)
    ensures IsLedger(plan.steps, registry, Payslip(plan, Run(plan.steps, ctx, registry).value, ctx))
  {
    hide Run, Lines, Total, DistinctSteps, Numbered, WasGiven, AreLinesOf, HasLine, SignedSum, Trail;
    var steps, outcomes := plan.steps, Run(plan.steps, ctx, registry).value;
    var slip := Payslip(plan, outcomes, ctx);
    TrailLength(steps, outcomes);
    forall i | 0 <= i < |steps|
      ensures WasGiven(steps, slip.audit, registry, i)
      ensures forall bucket :: HasLine(Lines(steps, outcomes, bucket), i) <==> BucketOf(steps[i].phase) == bucket
    {
      StepWasGiven(steps, outcomes, ctx, registry, i);
      forall bucket ensures HasLine(Lines(steps, outcomes, bucket), i) <==> BucketOf(steps[i].phase) == bucket {
        LineIsThere(steps, outcomes, bucket, i);
      }
    }
    forall bucket ensures AreLinesOf(steps, slip.audit, registry, Lines(steps, outcomes, bucket)) {
      LinesAreFor(steps, outcomes, ctx, registry, bucket);
    }
    TotalsAreSigned(steps, outcomes);
    NetPayIsExact(plan, ctx, registry);
  }

  lemma TrailLength(steps: seq<PlanStep>, outcomes: seq<StepOutcome>)
    requires |steps| == |outcomes|
    ensures |Trail(steps, outcomes)| == |steps|
  {
  }

  /** Main result from documents to payslip: every payslip is the ledger of a plan of what
      the documents resolve to, for the period and the employee asked for. */
  lemma EveryPayslipIsLedger(layers: seq<Document>, registry: Registry, request: Request, slip: PayslipResult)
    returns (dict: seq<ResolvedComponent>, plan: CalculationPlan)
    requires IsPayslipFor(layers, registry, request, slip)
    ensures IsPlanFor(layers, registry, request, dict, plan) && IsLedger(plan.steps, registry, slip)
    ensures slip.periodId == request.periodId && slip.employeeId == request.employeeId
  {
    hide IsResolution, AllPass, Run, IsPlanOf, IsLedger, Numbered, DistinctSteps, DistinctCodes, Cited, NoLaterPhase, RespectsInputs,
         Lines, Total, Trail;
    dict, plan :| IsPlanFor(layers, registry, request, dict, plan) && Run(plan.steps, ContextOf(request), registry).Ok?
      && slip == Payslip(plan, Run(plan.steps, ContextOf(request), registry).value, ContextOf(request));
    ResolutionIsBuildable(layers, dict);
    BuiltPlanRespectsInputs(dict, plan.steps, registry);
    IsNumbered(dict, plan.steps);
    PayslipIsLedger(plan, ContextOf(request), registry);
  }

  lemma IsNumbered(components: seq<ResolvedComponent>, steps: seq<PlanStep>)
    requires IsPlanOf(components, steps)
    ensures Numbered(steps)
  {
    hide IsPlanOf, Earlier, IsStepFor;
    PlanSays(components, steps);
  }
}
