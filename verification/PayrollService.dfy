/** A dry-run payslip, from rule documents to result: resolve, plan, execute. */
module PayrollService {
  import opened Wrappers
  import opened PayrollRounding
  import opened PayrollRules
  import opened PayrollPlan
  import opened PayrollExecutor
  import opened PayrollPay

  // ---- the records a payslip is about --------------------------------------

  datatype Period = Period(periodId: string, companyId: string)

  datatype Employee = Employee(employeeId: string)

  datatype Contract = Contract(contractId: string, baseMonthlySalary: real)

  /** What the repositories hold: contracts by employee, time inputs by period and
      employee. */
  datatype Records = Records(
    periods: map<string, Period>,
    employees: map<string, Employee>,
    contracts: map<string, Contract>,
    timeInputs: set<(string, string)>)

  datatype Missing = PeriodNotFound | EmployeeNotFound | ContractNotFound | TimeInputNotFound

  datatype PayrollError =
    | LookupFailed(missing: Missing)
    | ResolvingFailed(error: ResolveError)
    | BuildingFailed(reason: PlanError)
    | ExecutionFailed(cause: ExecutionError)

  /** Whose payslip, and for which period. */
  datatype Request = Request(employeeId: string, contractId: string, periodId: string, companyId: string, baseMonthlySalary: real)

  /** Building a plan needs a period, an employee and a contract. */
  ghost predicate HasPlanRecords(records: Records, periodId: string, employeeId: string) {
    periodId in records.periods && employeeId in records.employees && employeeId in records.contracts
  }

  /** A payslip needs a time input too. */
  ghost predicate HasPayslipRecords(records: Records, periodId: string, employeeId: string) {
    HasPlanRecords(records, periodId, employeeId) && (periodId, employeeId) in records.timeInputs
  }

  /** The record reported is missing and those looked up before it are there. */
  ghost predicate IsFirstMissing(records: Records, periodId: string, employeeId: string, missing: Missing) {
    && (periodId !in records.periods <==> missing.PeriodNotFound?)
    && (missing.EmployeeNotFound? ==> employeeId !in records.employees)
    && (missing.ContractNotFound? ==> employeeId in records.employees && employeeId !in records.contracts)
    && (missing.TimeInputNotFound? ==> HasPlanRecords(records, periodId, employeeId) && (periodId, employeeId) !in records.timeInputs)
  }

  ghost function RequestFor(records: Records, periodId: string, employeeId: string): Request
    requires HasPlanRecords(records, periodId, employeeId)
  {
    Request(records.employees[employeeId].employeeId, records.contracts[employeeId].contractId, records.periods[periodId].periodId,
            records.periods[periodId].companyId, records.contracts[employeeId].baseMonthlySalary)
  }

  /** The company's default policy, hard-coded for now. */
  const DEFAULT_POLICY := RoundingPolicy(RoundHalfUp, 2)

  /** The default policy rounds to whole cents, half a cent away from zero. */
  lemma DefaultIsCents(amount: real)
    ensures var cents := amount * 100.0;
            DEFAULT_POLICY.Apply(amount) ==
            if amount >= 0.0 then (cents + 0.5).Floor as real / 100.0 else -((0.5 - cents).Floor as real / 100.0)
  {
    assert PowerOfTen(2) == 10.0 * PowerOfTen(1) == 100.0;
    var k := RoundToInt(amount * 100.0, RoundHalfUp);
    assert DEFAULT_POLICY.Units(amount) == amount * 100.0 && DEFAULT_POLICY.Quantum() == 1.0 / 100.0;
    assert DEFAULT_POLICY.Apply(amount) == k as real * (1.0 / 100.0) == k as real / 100.0;
    if amount >= 0.0 {
      assert k == (amount * 100.0 + 0.5).Floor;
    } else {
      assert k == -((0.5 - amount * 100.0).Floor);
    }
  }

  function ContextOf(request: Request): ExecutionContext {
    ExecutionContext(request.baseMonthlySalary, DEFAULT_POLICY)
  }

  /** A plan of what the documents resolve to. */
  ghost predicate IsPlanFor(layers: seq<Document>, registry: Registry, request: Request, dict: seq<ResolvedComponent>, plan: CalculationPlan) {
    && IsResolution(layers, Ok(dict)) && AllPass(dict, registry, |dict|) && IsPlanOf(dict, plan.steps)
    && plan == CalculationPlan(request.employeeId, request.contractId, request.periodId, request.companyId, DEFAULT_POLICY, plan.steps)
  }

  ghost predicate IsPayslipFor(layers: seq<Document>, registry: Registry, request: Request, slip: PayslipResult) {
    exists dict, plan ::
      IsPlanFor(layers, registry, request, dict, plan) && Run(plan.steps, ContextOf(request), registry).Ok?
      && slip == Payslip(plan, Run(plan.steps, ContextOf(request), registry).value, ContextOf(request))
  }

  /** Why there is no payslip once every record is found: a locked component overridden, a component or a cycle
      that `build` refuses, or the error of the first step that fails. */
  ghost predicate IsRefusal(layers: seq<Document>, registry: Registry, request: Request, error: PayrollError) {
    match error
    case LookupFailed(_) => false
    case ResolvingFailed(e) => IsResolution(layers, Err(e))
    case BuildingFailed(e) =>
      exists dict ::
        IsResolution(layers, Ok(dict)) && DistinctCodes(dict)
        && ((exists i :: FailsFirst(dict, registry, i) && e == ComponentError(dict[i], Codes(dict), registry).value)
            || (AllPass(dict, registry, |dict|) && SomePhaseHasCycle(dict) && ReportsCycle(dict, e)))
    case ExecutionFailed(e) =>
      exists dict, plan :: IsPlanFor(layers, registry, request, dict, plan) && Run(plan.steps, ContextOf(request), registry) == Err(e)
  }

  /** How a dry run ends once every record is found. */
  ghost predicate IsDryRun(layers: seq<Document>, registry: Registry, request: Request, r: Result<PayslipResult, PayrollError>) {
    if r.Ok? then IsPayslipFor(layers, registry, request, r.value) else IsRefusal(layers, registry, request, r.error)
  }

  class PayrollService {
    const layers: seq<Document>
    const registry: Registry
    var records: Records

    constructor (layers: seq<Document>, registry: Registry, records: Records)
      ensures this.layers == layers && this.registry == registry && this.records == records
    {
      this.layers := layers;
      this.registry := registry;
      this.records := records;
    }

    /** The records a plan is built from, or the first one that is missing. */
    method LookUp(periodId: string, employeeId: string) returns (r: Result<Request, PayrollError>)
      ensures r.Ok? <==> HasPlanRecords(records, periodId, employeeId)
      ensures r.Ok? ==> r.value == RequestFor(records, periodId, employeeId)
      ensures r.Ok? ==> r.value.employeeId == records.employees[employeeId].employeeId && r.value.periodId == records.periods[periodId].periodId
      ensures r.Ok? ==> r.value.companyId == records.periods[periodId].companyId && r.value.contractId == records.contracts[employeeId].contractId
      ensures r.Ok? ==> r.value.baseMonthlySalary == records.contracts[employeeId].baseMonthlySalary
      ensures r.Err? ==> r.error.LookupFailed? && IsFirstMissing(records, periodId, employeeId, r.error.missing)
    {
      if periodId !in records.periods { return Err(LookupFailed(PeriodNotFound)); }
      if employeeId !in records.employees { return Err(LookupFailed(EmployeeNotFound)); }
      if employeeId !in records.contracts { return Err(LookupFailed(ContractNotFound)); }
      var period, employee, contract := records.periods[periodId], records.employees[employeeId], records.contracts[employeeId];
      return Ok(Request(employee.employeeId, contract.contractId, period.periodId, period.companyId, contract.baseMonthlySalary));
    }

    method BuildCalculationPlan(periodId: string, employeeId: string)
      returns (r: Result<CalculationPlan, PayrollError>, ghost dict: seq<ResolvedComponent>)
      ensures !HasPlanRecords(records, periodId, employeeId) ==>
                r.Err? && r.error.LookupFailed? && IsFirstMissing(records, periodId, employeeId, r.error.missing)
      ensures HasPlanRecords(records, periodId, employeeId) ==>
                var request := RequestFor(records, periodId, employeeId);
                if r.Ok? then IsPlanFor(layers, registry, request, dict, r.value) else IsRefusal(layers, registry, request, r.error)
    {
      hide IsResolution, AllPass, FailsFirst, SomePhaseHasCycle, ReportsCycle, IsPlanOf, DistinctCodes, HasPlanRecords, IsFirstMissing;
      dict := [];
      var found := LookUp(periodId, employeeId);
      if found.Err? { return Err(found.error), dict; }
      var request := found.value;
      var snapshot := Resolve(layers);
      if snapshot.Err? { return Err(ResolvingFailed(snapshot.error)), dict; }
      dict := snapshot.value;
      ResolutionIsBuildable(layers, dict);
      var builder := new CalculationPlanBuilder(registry);
      var plan := builder.Build(snapshot.value, request.employeeId, request.contractId, request.periodId, request.companyId, DEFAULT_POLICY);
      PassesOrFails(dict, registry);
      if plan.Err? { return Err(BuildingFailed(plan.error)), dict; }
      assert !exists i :: FailsFirst(dict, registry, i);
      return Ok(plan.value), dict;
    }

    method DryRunPayslip(periodId: string, employeeId: string) returns (r: Result<PayslipResult, PayrollError>)
      ensures !HasPayslipRecords(records, periodId, employeeId) ==>
                r.Err? && r.error.LookupFailed? && IsFirstMissing(records, periodId, employeeId, r.error.missing)
      ensures HasPayslipRecords(records, periodId, employeeId) ==>
                IsDryRun(layers, registry, RequestFor(records, periodId, employeeId), r)
    {
      hide IsPlanFor, Run, Payslip;
      var found := LookUp(periodId, employeeId);
      if found.Err? { return Err(found.error); }
      if (periodId, employeeId) !in records.timeInputs { return Err(LookupFailed(TimeInputNotFound)); }
      ghost var dict;
      var plan;
      plan, dict := BuildCalculationPlan(periodId, employeeId);
      if plan.Err? { return Err(plan.error); }
      var executor := new Executor(registry);
      var slip := executor.Execute(plan.value, ContextOf(found.value));
      if slip.Err? { return Err(ExecutionFailed(slip.error)); }
      return Ok(slip.value);
    }
  }

  lemma ResolutionIsBuildable(layers: seq<Document>, dict: seq<ResolvedComponent>)
    requires IsResolution(layers, Ok(dict))
    ensures DistinctCodes(dict) && Cited(dict)
  {
    hide Resolves;
    ResolvedIsBuildable(dict, Flatten(layers));
  }

  lemma PassesOrFails(components: seq<ResolvedComponent>, registry: Registry)
    ensures AllPass(components, registry, |components|) || exists i :: FailsFirst(components, registry, i)
  {
    FirstFailure(components, registry, |components|);
  }

  lemma {:induction false} FirstFailure(components: seq<ResolvedComponent>, registry: Registry, n: nat)
    requires n <= |components|
    ensures AllPass(components, registry, n) || exists i :: FailsFirst(components, registry, i)
  {
    hide ComponentError, Codes;
    if n > 0 {
      FirstFailure(components, registry, n - 1);
      if AllPass(components, registry, n - 1) && ComponentError(components[n - 1], Codes(components), registry).Some? {
        assert FailsFirst(components, registry, n - 1);
      }
    }
  }

  /** Every payslip adds up to the last cent, whatever the rule documents say. */
  lemma EveryPayslipAddsUp(layers: seq<Document>, registry: Registry, request: Request, slip: PayslipResult)
    requires IsPayslipFor(layers, registry, request, slip)
    ensures slip.netPay == Total(slip.grossEarnings) - Total(slip.deductions)
  {
    hide IsPlanFor, Run, Payslip;
    var dict, plan :| IsPlanFor(layers, registry, request, dict, plan) && Run(plan.steps, ContextOf(request), registry).Ok?
      && slip == Payslip(plan, Run(plan.steps, ContextOf(request), registry).value, ContextOf(request));
    NetPayIsExact(plan, ContextOf(request), registry);
  }

  /** Whatever the rule documents say, execution fails exactly when some TSU has a base
      that it does not declare or that comes in a later phase, and names such a base. */
  lemma ExecutionFailsOnlyForBases(layers: seq<Document>, registry: Registry, request: Request, dict: seq<ResolvedComponent>,
                                   plan: CalculationPlan)
    requires IsPlanFor(layers, registry, request, dict, plan)
    ensures Run(plan.steps, ContextOf(request), registry).Err? <==>
            exists c, base :: c in dict && base in BasesOf(c.primitive, c.parameters, registry)
                              && !(base in c.inputsRequired && InTime(dict, c, base))
    ensures Run(plan.steps, ContextOf(request), registry).Err? ==>
              exists i :: 0 <= i < |plan.steps| && FirstStarved(plan.steps, i, registry, Run(plan.steps, ContextOf(request), registry).error)
  {
    hide Run, AllPass, IsPlanOf, BasesOf, InTime, FirstStarved, Resolves;
    ResolutionIsBuildable(layers, dict);
    BuiltPlanRuns(dict, plan.steps, ContextOf(request), registry);
  }
}
