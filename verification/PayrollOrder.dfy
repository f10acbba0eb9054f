/** The order of declarations inside a rule document decides nothing: not what a stack
    resolves to, not whether it is refused and why, not what it pays. */
module PayrollOrder {
  import opened Wrappers
  import opened PayrollRounding
  import opened PayrollRules
  import opened PayrollPlan
  import opened PayrollExecutor
  import opened PayrollPay
  import opened PayrollService

  // ---- one code at a time --------------------------------------------------

  /** The declarations of one code, in order. */
  function Own(entries: seq<Entry>, code: string): seq<Entry> {
    if entries == [] then []
    else
      var rest, last := Own(entries[..|entries| - 1], code), entries[|entries| - 1];
      if last.code == code then rest + [last] else rest
  }

  ghost predicate ConflictsOn(entries: seq<Entry>, code: string) {
    exists i :: 0 <= i < |entries| && entries[i].code == code && LockConflict(entries, i)
  }

  lemma ConflictOfMore(entries: seq<Entry>, entry: Entry, code: string)
    ensures ConflictsOn(entries + [entry], code) <==>
            ConflictsOn(entries, code) || (entry.code == code && !entry.decl.disabled && Overrides(Meaning(entries, code), entry.decl))
  {
    hide Meaning, Overrides;
    var more := entries + [entry];
    assert more[|entries|] == entry && more[..|entries|] == entries;
    forall i | 0 <= i < |entries| ensures more[i] == entries[i] && (LockConflict(more, i) <==> LockConflict(entries, i)) {
      assert more[..i] == entries[..i];
    }
    if i :| 0 <= i < |entries| && entries[i].code == code && LockConflict(entries, i) {
      assert more[i].code == code && LockConflict(more, i);
    }
  }

  /** What a code means, and whether its declarations conflict, depends on them alone. */
  lemma {:induction false} OwnDecides(entries: seq<Entry>, code: string)
    ensures Meaning(entries, code) == Meaning(Own(entries, code), code)
    ensures ConflictsOn(entries, code) <==> ConflictsOn(Own(entries, code), code)
  {
    hide Meaning, Merged, Overrides, ConflictsOn;
    if entries != [] {
      var init, last := entries[..|entries| - 1], entries[|entries| - 1];
      assert entries == init + [last];
      OwnDecides(init, code);
      MeaningOfMore(init, last, code);
      ConflictOfMore(init, last, code);
      if last.code == code {
        MeaningOfMore(Own(init, code), last, code);
        ConflictOfMore(Own(init, code), last, code);
      }
    }
  }

  // ---- stacks in another order ---------------------------------------------

  /** The same documents, with the declarations of each in any order. */
  ghost predicate SameDocuments(a: seq<Document>, b: seq<Document>) {
    |a| == |b| && forall l :: 0 <= l < |a| ==>
      a[l].layer == b[l].layer && a[l].path == b[l].path && multiset(a[l].components) == multiset(b[l].components)
  }

  lemma {:induction false} OwnConcat(a: seq<Entry>, b: seq<Entry>, code: string)
    ensures Own(a + b, code) == Own(a, code) + Own(b, code)
  {
    if b == [] {
      assert a + b == a;
    } else {
      assert (a + b)[..|a + b| - 1] == a + b[..|b| - 1];
      OwnConcat(a, b[..|b| - 1], code);
    }
  }

  lemma {:induction false} OwnOfNone(entries: seq<Entry>, code: string)
    requires forall i :: 0 <= i < |entries| ==> entries[i].code != code
    ensures Own(entries, code) == []
  {
    if entries != [] { OwnOfNone(entries[..|entries| - 1], code); }
  }

  /** A document declares a code at most once. */
  lemma OwnOfOne(entries: seq<Entry>, code: string, i: nat)
    requires i < |entries| && entries[i].code == code && forall j :: 0 <= j < |entries| && j != i ==> entries[j].code != code
    ensures Own(entries, code) == [entries[i]]
  {
    var before, after := entries[..i], entries[i + 1..];
    assert entries == before + ([entries[i]] + after);
    OwnConcat(before, [entries[i]] + after, code);
    OwnConcat([entries[i]], after, code);
    OwnOfNone(before, code);
    OwnOfNone(after, code);
    assert [entries[i]][..0] == [];
  }

  lemma OwnOfDocument(a: Document, b: Document, code: string)
    requires DeclaresOnce(a) && DeclaresOnce(b)
    requires a.layer == b.layer && a.path == b.path && multiset(a.components) == multiset(b.components)
    ensures Own(EntriesOf(a), code) == Own(EntriesOf(b), code)
  {
    if i :| 0 <= i < |a.components| && a.components[i].0 == code {
      assert a.components[i] in multiset(b.components);
      var j :| 0 <= j < |b.components| && b.components[j] == a.components[i];
      OwnOfOne(EntriesOf(a), code, i);
      OwnOfOne(EntriesOf(b), code, j);
    } else {
      forall j | 0 <= j < |b.components| ensures b.components[j].0 != code {
        assert b.components[j] in multiset(a.components);
      }
      OwnOfNone(EntriesOf(a), code);
      OwnOfNone(EntriesOf(b), code);
    }
  }

  lemma {:induction false} OwnOfStack(a: seq<Document>, b: seq<Document>, code: string)
    requires SameDocuments(a, b) && (forall l :: 0 <= l < |a| ==> DeclaresOnce(a[l]) && DeclaresOnce(b[l]))
    ensures Own(Flatten(a), code) == Own(Flatten(b), code)
  {
    if a != [] {
      var n := |a| - 1;
      OwnOfStack(a[..n], b[..n], code);
      OwnOfDocument(a[n], b[n], code);
      OwnConcat(Flatten(a[..n]), EntriesOf(a[n]), code);
      OwnConcat(Flatten(b[..n]), EntriesOf(b[n]), code);
    }
  }

  lemma SameDocumentsMeanTheSame(a: seq<Document>, b: seq<Document>, code: string)
    requires IsStack(a) && IsStack(b) && SameDocuments(a, b)
    ensures Meaning(Flatten(a), code) == Meaning(Flatten(b), code)
    ensures ConflictsOn(Flatten(a), code) <==> ConflictsOn(Flatten(b), code)
  {
    hide Meaning, ConflictsOn, Flatten;
    OwnOfStack(a, b, code);
    OwnDecides(Flatten(a), code);
    OwnDecides(Flatten(b), code);
  }

  ghost predicate HasConflict(layers: seq<Document>) {
    exists i :: 0 <= i < |Flatten(layers)| && LockConflict(Flatten(layers), i)
  }

  lemma ConflictMoves(a: seq<Document>, b: seq<Document>)
    requires IsStack(a) && IsStack(b) && SameDocuments(a, b) && HasConflict(a)
    ensures HasConflict(b)
  {
    hide LockConflict, Flatten, IsStack, SameDocuments;
    var i :| 0 <= i < |Flatten(a)| && LockConflict(Flatten(a), i);
    var code := Flatten(a)[i].code;
    assert ConflictsOn(Flatten(a), code);
    SameDocumentsMeanTheSame(a, b, code);
  }

  /** A resolution is an error exactly when some declaration conflicts. */
  lemma ErrsOnConflict(layers: seq<Document>, r: Result<seq<ResolvedComponent>, ResolveError>)
    requires IsResolution(layers, r)
    ensures r.Err? <==> HasConflict(layers)
  {
    hide LockConflict, Flatten, Resolves;
  }

  /** Main result on resolving: documents whose declarations are permuted resolve
      together or fail together, and then to the same components up to order. */
  lemma DocumentOrderKeepsComponents(a: seq<Document>, b: seq<Document>, ra: Result<seq<ResolvedComponent>, ResolveError>,
                                     rb: Result<seq<ResolvedComponent>, ResolveError>)
    requires IsStack(a) && IsStack(b) && SameDocuments(a, b) && IsResolution(a, ra) && IsResolution(b, rb)
    ensures ra.Ok? <==> rb.Ok?
    ensures ra.Ok? ==> multiset(ra.value) == multiset(rb.value)
  {
    hide IsResolution, HasConflict, IsStack;
    ErrsOnConflict(a, ra);
    ErrsOnConflict(b, rb);
    if HasConflict(a) { ConflictMoves(a, b); }
    if HasConflict(b) { ConflictMoves(b, a); }
    if ra.Ok? { SameMeaningsSameMembers(a, b, ra.value, rb.value); }
  }

  lemma SameMeaningsSameMembers(a: seq<Document>, b: seq<Document>, da: seq<ResolvedComponent>, db: seq<ResolvedComponent>)
    requires IsStack(a) && IsStack(b) && SameDocuments(a, b) && IsResolution(a, Ok(da)) && IsResolution(b, Ok(db))
    ensures multiset(da) == multiset(db)
  {
    hide Flatten, IsStack, Meaning, Get, LockConflict, Live, SameDocuments;
    forall code ensures Get(da, code) == Get(db, code) { SameDocumentsMeanTheSame(a, b, code); }
    forall c: ResolvedComponent ensures multiset(da)[c] == multiset(db)[c] {
      DistinctMultiplicity(da, c);
      DistinctMultiplicity(db, c);
      MemberByCode(da, c);
      MemberByCode(db, c);
    }
  }

  lemma MemberByCode(dict: seq<ResolvedComponent>, c: ResolvedComponent)
    requires DistinctCodes(dict)
    ensures c in dict <==> Get(dict, c.code) == Some(c)
  {
    hide Find;
    if c in dict {
      var i :| 0 <= i < |dict| && dict[i] == c;
      GetUnique(dict, i);
    }
  }

  // ---- payslips ------------------------------------------------------------

  /** Every line of one payslip has its like in the other. */
  ghost predicate PaysWhat(some: seq<PayslipLine>, others: seq<PayslipLine>) {
    forall line :: line in some ==> exists other :: other in others && other.code == line.code && other.amount == line.amount
  }

  ghost predicate SamePay(a: PayslipResult, b: PayslipResult) {
    && a.netPay == b.netPay
    && PaysWhat(a.grossEarnings, b.grossEarnings) && PaysWhat(b.grossEarnings, a.grossEarnings)
    && PaysWhat(a.deductions, b.deductions) && PaysWhat(b.deductions, a.deductions)
    && PaysWhat(a.employerContributions, b.employerContributions) && PaysWhat(b.employerContributions, a.employerContributions)
  }

  ghost predicate SameAmounts(p: seq<PlanStep>, q: seq<PlanStep>, a: seq<StepOutcome>, b: seq<StepOutcome>)
    requires |p| == |a| && |q| == |b|
  {
    forall i, j :: 0 <= i < |p| && 0 <= j < |q| && p[i].code == q[j].code ==> a[i].result.amount == b[j].result.amount
  }

  lemma PlanIsNumbered(components: seq<ResolvedComponent>, steps: seq<PlanStep>)
    requires IsPlanOf(components, steps)
    ensures Numbered(steps)
  {
  }

  lemma LinesMove(p: seq<PlanStep>, q: seq<PlanStep>, a: seq<StepOutcome>, b: seq<StepOutcome>, bucket: Bucket)
    requires |p| == |a| && |q| == |b| && Numbered(p) && Numbered(q)
    requires multiset(Contents(p)) == multiset(Contents(q)) && SameAmounts(p, q, a, b)
    ensures PaysWhat(Lines(p, a, bucket), Lines(q, b, bucket))
  {
    hide Lines, BucketOf;
    LinesAreSteps(p, a, bucket);
    LinesAreSteps(q, b, bucket);
    var lines, others := Lines(p, a, bucket), Lines(q, b, bucket);
    forall line | line in lines ensures exists other :: other in others && other.code == line.code && other.amount == line.amount {
      var k :| 0 <= k < |lines| && lines[k] == line;
      assert IsLineOfStep(p, a, bucket, lines[k]);
      var i := line.sourceAuditRef;
      assert Contents(p)[i] in multiset(Contents(q));
      var j :| 0 <= j < |q| && Contents(q)[j] == Contents(p)[i];
      var l := StepHasLine(q, b, bucket, j);
      assert IsLineOfStep(q, b, bucket, others[l]);
    }
  }

  lemma SameComponentsSamePay(da: seq<ResolvedComponent>, db: seq<ResolvedComponent>, p: CalculationPlan, q: CalculationPlan,
                              ctx: ExecutionContext, registry: Registry)
    requires DistinctCodes(da) && DistinctCodes(db) && multiset(da) == multiset(db) && AllPass(da, registry, |da|) && Cited(da)
    requires IsPlanOf(da, p.steps) && IsPlanOf(db, q.steps)
    requires Run(p.steps, ctx, registry).Ok? && Run(q.steps, ctx, registry).Ok?
    ensures SamePay(Payslip(p, Run(p.steps, ctx, registry).value, ctx), Payslip(q, Run(q.steps, ctx, registry).value, ctx))
  {
    hide Run, Lines, Total, AllPass, IsPlanOf, Contents, ComponentContents, Runnable, Trail, RoundingPolicy.Apply, DistinctCodes, Numbered;
    DeclarationOrderDoesNotMatter(da, db, p, q, ctx, registry);
    SameMembers(da, db, registry);
    StepFacts(da, p.steps, registry);
    StepFacts(db, q.steps, registry);
    ContentsPermute(da, db);
    PlanIsNumbered(da, p.steps);
    PlanIsNumbered(db, q.steps);
    var a, b := Run(p.steps, ctx, registry).value, Run(q.steps, ctx, registry).value;
    assert SameAmounts(p.steps, q.steps, a, b) && SameAmounts(q.steps, p.steps, b, a);
    forall bucket ensures PaysWhat(Lines(p.steps, a, bucket), Lines(q.steps, b, bucket)) { LinesMove(p.steps, q.steps, a, b, bucket); }
    forall bucket ensures PaysWhat(Lines(q.steps, b, bucket), Lines(p.steps, a, bucket)) { LinesMove(q.steps, p.steps, b, a, bucket); }
  }

  // ---- dry runs ------------------------------------------------------------

  /** How far a dry run over a stack gets, from its components. */
  datatype Outcome = Conflicting | Unbuildable | Unpayable | Paid

  ghost function OutcomeOf(r: Result<PayslipResult, PayrollError>): Outcome
    requires r.Err? ==> !r.error.LookupFailed?
  {
    match r
    case Ok(_) => Paid
    case Err(ResolvingFailed(_)) => Conflicting
    case Err(BuildingFailed(_)) => Unbuildable
    case Err(ExecutionFailed(_)) => Unpayable
  }

  ghost function OutcomeFor(dict: seq<ResolvedComponent>, registry: Registry): Outcome
    requires DistinctCodes(dict)
  {
    if !AllPass(dict, registry, |dict|) || SomePhaseHasCycle(dict) then Unbuildable
    else if !CanBePaid(dict, registry) then Unpayable
    else Paid
  }

  lemma PlansAreAcyclic(components: seq<ResolvedComponent>, steps: seq<PlanStep>)
    requires DistinctCodes(components) && IsPlanOf(components, steps)
    ensures !SomePhaseHasCycle(components)
  {
    hide HasCycle, GraphOf, InPhase, IsPhasedOrder, OnDemand, PostOrderAll, DependenciesFirst, DistinctCodes;
    var order :| IsPhasedOrder(components, order, |PHASE_ORDER|) && (forall phase :: IsSortedIn(components, order, phase))
      && |order| == |steps| && forall i :: 0 <= i < |steps| ==> steps[i] == StepOf(order[i], i);
    forall phase ensures !PhaseHasCycle(components, phase) {
      var inPhase, sorted := InPhase(components, phase), InPhase(order, phase);
      assert IsSortedIn(components, order, phase);
      SortedIsAcyclic(inPhase, sorted);
    }
  }

  lemma SortedIsAcyclic(components: seq<ResolvedComponent>, sorted: seq<ResolvedComponent>)
    requires DistinctCodes(components) && multiset(sorted) == multiset(components) && IsOrdering(GraphOf(components), sorted)
    ensures !HasCycle(GraphOf(components))
  {
    hide HasCycle, GraphOf, IsOrdering, DistinctCodes;
    forall c: ResolvedComponent ensures c in components <==> c in sorted {
      assert c in multiset(components) <==> c in multiset(sorted);
    }
    SameCodes(components, sorted);
    SameCodes(sorted, components);
    assert Codes(sorted) == GraphOf(components).Keys;
    OrderedIsAcyclic(GraphOf(components), sorted);
  }

  lemma FailsFirstFails(dict: seq<ResolvedComponent>, registry: Registry, i: int)
    requires FailsFirst(dict, registry, i)
    ensures !AllPass(dict, registry, |dict|)
  {
    hide ComponentError;
  }

  /** How a dry run ends is settled by what the documents resolve to. */
  lemma OutcomeIsSettled(layers: seq<Document>, registry: Registry, request: Request, r: Result<PayslipResult, PayrollError>)
    requires IsDryRun(layers, registry, request, r)
    ensures r.Err? ==> !r.error.LookupFailed?
    ensures OutcomeOf(r) == Conflicting ==> HasConflict(layers)
    ensures OutcomeOf(r) != Conflicting ==>
              exists dict :: IsResolution(layers, Ok(dict)) && DistinctCodes(dict) && OutcomeOf(r) == OutcomeFor(dict, registry)
  {
    hide IsResolution, AllPass, SomePhaseHasCycle, CanBePaid, Run, IsPlanOf, ReportsCycle, DistinctCodes, Payslip, HasConflict, FirstStarved;
    if r.Ok? {
      var dict, plan :| IsPlanFor(layers, registry, request, dict, plan) && Run(plan.steps, ContextOf(request), registry).Ok?;
      PlanIsSettled(layers, registry, request, dict, plan);
    } else {
      match r.error {
        case ResolvingFailed(e) => ErrsOnConflict(layers, Err(e));
        case BuildingFailed(e) =>
          var dict := BuildingIsSettled(layers, registry, request, e);
        case ExecutionFailed(e) =>
          var dict, plan :| IsPlanFor(layers, registry, request, dict, plan) && Run(plan.steps, ContextOf(request), registry) == Err(e);
          PlanIsSettled(layers, registry, request, dict, plan);
      }
    }
  }

  lemma BuildingIsSettled(layers: seq<Document>, registry: Registry, request: Request, e: PlanError) returns (dict: seq<ResolvedComponent>)
    requires IsRefusal(layers, registry, request, BuildingFailed(e))
    ensures IsResolution(layers, Ok(dict)) && DistinctCodes(dict) && OutcomeFor(dict, registry) == Unbuildable
  {
    hide IsResolution, SomePhaseHasCycle, ReportsCycle, DistinctCodes, ComponentError, CanBePaid;
    dict :| IsResolution(layers, Ok(dict)) && DistinctCodes(dict)
      && ((exists i :: FailsFirst(dict, registry, i) && e == ComponentError(dict[i], Codes(dict), registry).value)
          || (AllPass(dict, registry, |dict|) && SomePhaseHasCycle(dict) && ReportsCycle(dict, e)));
    if i :| FailsFirst(dict, registry, i) { FailsFirstFails(dict, registry, i); }
  }

  lemma PlanIsSettled(layers: seq<Document>, registry: Registry, request: Request, dict: seq<ResolvedComponent>, plan: CalculationPlan)
    requires IsPlanFor(layers, registry, request, dict, plan)
    ensures DistinctCodes(dict) && Cited(dict)
    ensures OutcomeFor(dict, registry) == if Run(plan.steps, ContextOf(request), registry).Ok? then Paid else Unpayable
  {
    hide IsResolution, AllPass, SomePhaseHasCycle, CanBePaid, Run, IsPlanOf, FirstStarved, DistinctCodes, Cited;
    ResolutionIsBuildable(layers, dict);
    PlansAreAcyclic(dict, plan.steps);
    BuiltPlanRuns(dict, plan.steps, ContextOf(request), registry);
  }

  lemma SameOutcome(da: seq<ResolvedComponent>, db: seq<ResolvedComponent>, registry: Registry)
    requires DistinctCodes(da) && DistinctCodes(db) && multiset(da) == multiset(db)
    ensures OutcomeFor(da, registry) == OutcomeFor(db, registry)
  {
    hide AllPass, SomePhaseHasCycle, CanBePaid, DistinctCodes;
    DeclarationOrderKeepsAcceptance(da, db, registry);
    SameMembers(da, db, registry);
  }

  /** Main result from documents to payslip: permuting the declarations inside each
      document of a stack changes neither whether a dry run ends in a payslip, nor at
      which stage it is refused, nor anything that is paid. */
  lemma DocumentOrderDoesNotMatter(a: seq<Document>, b: seq<Document>, registry: Registry, request: Request,
                                   ra: Result<PayslipResult, PayrollError>, rb: Result<PayslipResult, PayrollError>)
    requires IsStack(a) && IsStack(b) && SameDocuments(a, b)
    requires IsDryRun(a, registry, request, ra) && IsDryRun(b, registry, request, rb)
    ensures (ra.Err? ==> !ra.error.LookupFailed?) && (rb.Err? ==> !rb.error.LookupFailed?) && OutcomeOf(ra) == OutcomeOf(rb)
    ensures ra.Ok? && rb.Ok? ==> SamePay(ra.value, rb.value)
  {
    hide IsPayslipFor, IsRefusal, IsResolution, IsStack, OutcomeFor, DistinctCodes, HasConflict, SamePay, SameDocuments;
    OutcomeIsSettled(a, registry, request, ra);
    OutcomeIsSettled(b, registry, request, rb);
    if OutcomeOf(ra) == Conflicting {
      ConflictMoves(a, b);
      if OutcomeOf(rb) != Conflicting { NoConflict(b, registry, rb); }
    } else if OutcomeOf(rb) == Conflicting {
      SameDocumentsSwap(a, b);
      ConflictMoves(b, a);
      NoConflict(a, registry, ra);
    } else {
      var da :| IsResolution(a, Ok(da)) && DistinctCodes(da) && OutcomeOf(ra) == OutcomeFor(da, registry);
      var db :| IsResolution(b, Ok(db)) && DistinctCodes(db) && OutcomeOf(rb) == OutcomeFor(db, registry);
      DocumentOrderKeepsComponents(a, b, Ok(da), Ok(db));
      SameOutcome(da, db, registry);
    }
    if ra.Ok? && rb.Ok? { BothPaid(a, b, registry, request, ra.value, rb.value); }
  }

  lemma SameDocumentsSwap(a: seq<Document>, b: seq<Document>)
    requires SameDocuments(a, b)
    ensures SameDocuments(b, a)
  {
  }

  lemma NoConflict(layers: seq<Document>, registry: Registry, r: Result<PayslipResult, PayrollError>)
    requires exists dict :: IsResolution(layers, Ok(dict)) && DistinctCodes(dict)
    ensures !HasConflict(layers)
  {
    hide IsResolution, HasConflict;
    var dict :| IsResolution(layers, Ok(dict)) && DistinctCodes(dict);
    ErrsOnConflict(layers, Ok(dict));
  }

  lemma BothPaid(a: seq<Document>, b: seq<Document>, registry: Registry, request: Request, sa: PayslipResult, sb: PayslipResult)
    requires IsStack(a) && IsStack(b) && SameDocuments(a, b)
    requires IsPayslipFor(a, registry, request, sa) && IsPayslipFor(b, registry, request, sb)
    ensures SamePay(sa, sb)
  {
    hide IsResolution, IsStack, AllPass, Run, IsPlanOf, Payslip, SamePay, DistinctCodes, Cited, SameDocuments;
    var ctx := ContextOf(request);
    var da, p :| IsPlanFor(a, registry, request, da, p) && Run(p.steps, ctx, registry).Ok?
      && sa == Payslip(p, Run(p.steps, ctx, registry).value, ctx);
    var db, q :| IsPlanFor(b, registry, request, db, q) && Run(q.steps, ctx, registry).Ok?
      && sb == Payslip(q, Run(q.steps, ctx, registry).value, ctx);
    ResolutionIsBuildable(a, da);
    ResolutionIsBuildable(b, db);
    DocumentOrderKeepsComponents(a, b, Ok(da), Ok(db));
    SameComponentsSamePay(da, db, p, q, ctx, registry);
  }
}
