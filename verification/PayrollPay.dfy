/** What a payslip promises: when a plan can be executed, that declaration order
    does not matter, and that net pay is exact. */
module PayrollPay {
  import opened Wrappers
  import opened PayrollRounding
  import opened PayrollRules
  import opened PayrollPlan
  import opened PayrollExecutor

  // ---- when execution succeeds ---------------------------------------------

  /** A step `build` has let through, with the citations `resolve` gives. */
  predicate Runnable(step: PlanStep, registry: Registry) {
    step.primitive in registry && ParametersValid(registry[step.primitive], step.parameters) && step.citations != []
  }

  /** What a TSU adds up; nothing for another primitive. */
  function BasesOf(primitive: string, parameters: map<string, Parameter>, registry: Registry): seq<string> {
    if primitive in registry && registry[primitive].TsuContribution? && ParametersValid(registry[primitive], parameters)
    then parameters["base_components"].names else []
  }

  ghost predicate ProducedBefore(steps: seq<PlanStep>, i: nat, code: string)
    requires i <= |steps|
  {
    exists j :: 0 <= j < i && steps[j].code == code
  }

  /** The amount of `base` reaches step `i`: declared among its inputs, and there by
      then. Nothing in `build` compares the bases of a TSU with either. */
  ghost predicate Arrives(steps: seq<PlanStep>, i: nat, base: string)
    requires i < |steps|
  {
    base in steps[i].inputsRequired && ProducedBefore(steps, i, base)
  }

  ghost predicate BasesArrive(steps: seq<PlanStep>, i: nat, registry: Registry)
    requires i < |steps|
  {
    forall base :: base in BasesOf(steps[i].primitive, steps[i].parameters, registry) ==> Arrives(steps, i, base)
  }

  /** Step `i` is the first whose bases do not all arrive, and `error` names one. */
  ghost predicate FirstStarved(steps: seq<PlanStep>, i: nat, registry: Registry, error: ExecutionError)
    requires i < |steps|
  {
    && (forall k :: 0 <= k < i ==> BasesArrive(steps, k, registry))
    && error.TsuMissingBaseComponent? && error.base in BasesOf(steps[i].primitive, steps[i].parameters, registry)
    && !Arrives(steps, i, error.base)
  }

  lemma {:induction false} BaseSumSucceeds(bases: seq<string>, inputs: Amounts)
    ensures var sum := BaseSum(bases, inputs);
            && (sum.Ok? <==> forall base :: base in bases ==> base in inputs)
            && (sum.Err? ==> sum.error.TsuMissingBaseComponent? && sum.error.base in bases && sum.error.base !in inputs)
  {
    if bases != [] {
      BaseSumSucceeds(bases[..|bases| - 1], inputs);
      assert bases == bases[..|bases| - 1] + [bases[|bases| - 1]];
    }
  }

  lemma CitationExists(citations: seq<Citation>)
    requires citations != []
    ensures PrimaryCitation(citations).Some?
  {
  }

  lemma {:induction false} ProducedExactly(steps: seq<PlanStep>, outcomes: seq<StepOutcome>, i: nat, code: string)
    requires i == |outcomes| <= |steps|
    ensures code in Produced(steps[..i], outcomes) <==> ProducedBefore(steps, i, code)
  {
    if i > 0 {
      assert steps[..i][..i - 1] == steps[..i - 1];
      ProducedExactly(steps, outcomes[..i - 1], i - 1, code);
    }
  }

  lemma StepSucceeds(steps: seq<PlanStep>, outcomes: seq<StepOutcome>, i: nat, ctx: ExecutionContext, registry: Registry)
    requires i < |steps| && |outcomes| == i && Runnable(steps[i], registry)
    ensures var run := RunStep(steps[i], Produced(steps[..i], outcomes), ctx, registry);
            && (run.Ok? <==> BasesArrive(steps, i, registry))
            && (run.Err? && (forall k :: 0 <= k < i ==> BasesArrive(steps, k, registry)) ==> FirstStarved(steps, i, registry, run.error))
  {
    hide Produced, PrimaryCitation, BaseSum, ProducedBefore;
    var step, produced := steps[i], Produced(steps[..i], outcomes);
    CitationExists(step.citations);
    forall code ensures code in produced <==> ProducedBefore(steps, i, code) {
      ProducedExactly(steps, outcomes, i, code);
    }
    if registry[step.primitive].TsuContribution? {
      var bases, inputs := step.parameters["base_components"].names, BuildInputs(TsuContribution, step.inputsRequired, produced);
      BaseSumSucceeds(bases, inputs);
      assert forall base :: base in inputs <==> Arrives(steps, i, base);
      assert bases == BasesOf(step.primitive, step.parameters, registry);
    } else {
      assert BasesOf(step.primitive, step.parameters, registry) == [];
    }
  }

  /** Running a plan: it goes to the end exactly when every base of every TSU is
      declared and produced before it is needed; otherwise the first step that lacks
      one fails and names it. */
  lemma {:induction false} ExecutionSucceeds(steps: seq<PlanStep>, n: nat, ctx: ExecutionContext, registry: Registry)
    requires n <= |steps| && forall i :: 0 <= i < |steps| ==> Runnable(steps[i], registry)
    ensures var run := Run(steps[..n], ctx, registry);
            && (run.Ok? <==> forall i :: 0 <= i < n ==> BasesArrive(steps, i, registry))
            && (run.Err? ==> exists i :: 0 <= i < n && FirstStarved(steps, i, registry, run.error))
  {
    hide Runnable, BasesArrive, FirstStarved, RunStep, Produced;
    if n > 0 {
      ExecutionSucceeds(steps, n - 1, ctx, registry);
      assert steps[..n][..n - 1] == steps[..n - 1] && steps[..n][n - 1] == steps[n - 1];
      if Run(steps[..n - 1], ctx, registry).Ok? {
        StepSucceeds(steps, Run(steps[..n - 1], ctx, registry).value, n - 1, ctx, registry);
      }
    }
  }

  // ---- which rule stacks can be paid ---------------------------------------

  /** A component with this code in the same or an earlier phase. */
  ghost predicate InTime(components: seq<ResolvedComponent>, c: ResolvedComponent, base: string) {
    exists d :: d in components && d.code == base && Rank(d.phase) <= Rank(c.phase)
  }

  ghost predicate BasesInTime(components: seq<ResolvedComponent>, c: ResolvedComponent, registry: Registry) {
    forall base :: base in BasesOf(c.primitive, c.parameters, registry) ==> base in c.inputsRequired && InTime(components, c, base)
  }

  ghost predicate CanBePaid(components: seq<ResolvedComponent>, registry: Registry) {
    forall c :: c in components ==> BasesInTime(components, c, registry)
  }

  lemma ProducedExactlyInTime(components: seq<ResolvedComponent>, order: seq<ResolvedComponent>, i: nat, base: string)
    requires PhasesRise(order) && SamePhaseDependenciesFirst(components, order)
    requires i < |order| && base in order[i].inputsRequired && forall c :: c in components <==> c in order
    ensures (exists j :: 0 <= j < i && order[j].code == base) <==> InTime(components, order[i], base)
  {
    hide SamePhaseDependenciesFirst, PhasesRise, Rank;
    if j :| 0 <= j < i && order[j].code == base {
      EarlierRanksLower(order, j, i);
      assert order[j] in components;
    }
    if d :| d in components && d.code == base && Rank(d.phase) <= Rank(order[i].phase) {
      if d.phase == order[i].phase {
        var j := SamePhaseEarlier(components, order, i, d);
        assert order[j].code == base;
      } else {
        assert d in order;
        var j := OtherPhaseEarlier(order, i, d);
        assert order[j].code == base;
      }
    }
  }

  lemma EarlierRanksLower(order: seq<ResolvedComponent>, j: nat, i: nat)
    requires PhasesRise(order) && j < i < |order|
    ensures Rank(order[j].phase) <= Rank(order[i].phase)
  {
  }

  lemma ArriveExactlyInTime(components: seq<ResolvedComponent>, order: seq<ResolvedComponent>, steps: seq<PlanStep>, i: nat, registry: Registry)
    requires IsPhasedOrder(components, order, |PHASE_ORDER|) && forall c :: c in components <==> c in order
    requires |order| == |steps| && forall k :: 0 <= k < |steps| ==> steps[k] == StepOf(order[k], k)
    requires i < |steps|
    ensures BasesArrive(steps, i, registry) <==> BasesInTime(components, order[i], registry)
  {
    hide PhasesRise, SamePhaseDependenciesFirst, CountsUpTo, InTime, BasesOf;
    forall base | base in order[i].inputsRequired ensures ProducedBefore(steps, i, base) <==> InTime(components, order[i], base) {
      ProducedExactlyInTime(components, order, i, base);
      assert forall j :: 0 <= j < i ==> steps[j].code == order[j].code;
    }
  }

  /** Main result: the plan built from a rule stack runs to the end exactly when every
      base of every TSU is declared among its inputs and belongs to a component of the
      same or an earlier phase. It is a property of the components alone, and a base
      that is missing is the only way a built plan can fail. */
  lemma BuiltPlanRuns(components: seq<ResolvedComponent>, steps: seq<PlanStep>, ctx: ExecutionContext, registry: Registry)
    requires DistinctCodes(components) && AllPass(components, registry, |components|) && Cited(components)
    requires IsPlanOf(components, steps)
    ensures Run(steps, ctx, registry).Ok? <==> CanBePaid(components, registry)
    ensures Run(steps, ctx, registry).Err? ==> exists i :: 0 <= i < |steps| && FirstStarved(steps, i, registry, Run(steps, ctx, registry).error)
  {
    hide Run, AllPass, Runnable, BasesArrive, BasesInTime, FirstStarved, IsPhasedOrder, IsSortedIn, Contents, ComponentContents;
    StepFacts(components, steps, registry);
    ExecutionSucceeds(steps, |steps|, ctx, registry);
    assert steps[..|steps|] == steps;
    var order :| IsPhasedOrder(components, order, |PHASE_ORDER|) && (forall phase :: IsSortedIn(components, order, phase))
      && |order| == |steps| && forall i :: 0 <= i < |steps| ==> steps[i] == StepOf(order[i], i);
    PlanMembers(components, order);
    forall i | 0 <= i < |steps| ensures BasesArrive(steps, i, registry) <==> BasesInTime(components, order[i], registry) {
      ArriveExactlyInTime(components, order, steps, i, registry);
    }
  }

  // ---- declaration order does not matter -----------------------------------

  datatype Content = Content(code: string, phase: Phase, formula: Formula)

  function ContentOf(step: PlanStep): Content {
    Content(step.code, step.phase, FormulaOf(step))
  }

  function Contents(steps: seq<PlanStep>): (contents: seq<Content>)
    ensures |contents| == |steps|
  {
    seq(|steps|, i requires 0 <= i < |steps| => ContentOf(steps[i]))
  }

  function Weigh(contents: seq<Content>, weight: Content -> real): real {
    if contents == [] then 0.0 else Weigh(contents[..|contents| - 1], weight) + weight(contents[|contents| - 1])
  }

  lemma {:induction false} WeighConcat(a: seq<Content>, b: seq<Content>, weight: Content -> real)
    ensures Weigh(a + b, weight) == Weigh(a, weight) + Weigh(b, weight)
  {
    if b == [] {
      assert a + b == a;
    } else {
      WeighConcat(a, b[..|b| - 1], weight);
      assert (a + b)[..|a + b| - 1] == a + b[..|b| - 1];
    }
  }

  lemma RemoveAt<T>(b: seq<T>, k: nat)
    requires k < |b|
    ensures multiset(b[..k] + b[k + 1..]) == multiset(b) - multiset{b[k]}
  {
    assert b == b[..k] + [b[k]] + b[k + 1..];
  }

  lemma RemoveLast<T>(a: seq<T>)
    requires a != []
    ensures multiset(a[..|a| - 1]) == multiset(a) - multiset{a[|a| - 1]}
  {
    RemoveAt(a, |a| - 1);
    assert a[..|a| - 1] + a[|a|..] == a[..|a| - 1];
  }

  lemma WeighRemoveAt(b: seq<Content>, k: nat, weight: Content -> real)
    requires k < |b|
    ensures Weigh(b, weight) == Weigh(b[..k] + b[k + 1..], weight) + weight(b[k])
  {
    hide Weigh;
    var init, tail := b[..k + 1], b[k + 1..];
    assert b == init + tail && init[..k] == b[..k];
    WeighConcat(init, tail, weight);
    WeighConcat(b[..k], tail, weight);
    WeighLast(init, weight);
  }

  lemma WeighLast(contents: seq<Content>, weight: Content -> real)
    requires contents != []
    ensures Weigh(contents, weight) == Weigh(contents[..|contents| - 1], weight) + weight(contents[|contents| - 1])
  {
  }

  lemma {:induction false} WeighPermutation(a: seq<Content>, b: seq<Content>, weight: Content -> real)
    requires multiset(a) == multiset(b)
    ensures Weigh(a, weight) == Weigh(b, weight)
  {
    if a == [] {
      assert |multiset(b)| == 0;
    } else {
      var n := |a| - 1;
      assert a[n] in multiset(b);
      var k :| 0 <= k < |b| && b[k] == a[n];
      RemoveLast(a);
      RemoveAt(b, k);
      WeighPermutation(a[..n], b[..k] + b[k + 1..], weight);
      WeighRemoveAt(b, k, weight);
    }
  }

  /** What a component contributes to a bucket, read off its meaning. */
  function Share(formulas: map<string, Formula>, ctx: ExecutionContext, registry: Registry, bucket: Bucket): Content -> real {
    (c: Content) =>
      if BucketOf(c.phase) != bucket then 0.0
      else match Denote(formulas, ctx, registry, c.code, {})
           case None => 0.0
           case Some(amount) => amount
  }

  lemma TotalStep(steps: seq<PlanStep>, outcomes: seq<StepOutcome>, n: nat, bucket: Bucket)
    requires n < |steps| == |outcomes|
    ensures Total(Lines(steps[..n + 1], outcomes[..n + 1], bucket)) ==
            Total(Lines(steps[..n], outcomes[..n], bucket)) +
            if BucketOf(steps[n].phase) == bucket then outcomes[n].result.amount else 0.0
  {
    hide Lines, LineOf;
    assert outcomes[..n + 1] == outcomes[..n] + [outcomes[n]];
    OneMoreLine(steps, outcomes[..n], outcomes[n], n);
    LineAmount(steps[n], outcomes[n]);
    var before, line := Lines(steps[..n], outcomes[..n], bucket), LineOf(steps[n], outcomes[n]);
    if BucketOf(steps[n].phase) == bucket {
      assert (before + [line])[..|before|] == before;
    } else {
      assert before + [] == before;
    }
  }

  lemma LineAmount(step: PlanStep, outcome: StepOutcome)
    ensures LineOf(step, outcome).amount == outcome.result.amount
  {
  }

  lemma {:induction false} TotalIsShares(steps: seq<PlanStep>, outcomes: seq<StepOutcome>, n: nat,
                                         ctx: ExecutionContext, registry: Registry, bucket: Bucket)
    requires n <= |steps| && DistinctSteps(steps) && Run(steps, ctx, registry) == Ok(outcomes)
    ensures Total(Lines(steps[..n], outcomes[..n], bucket)) ==
            Weigh(Contents(steps)[..n], Share(Formulas(steps), ctx, registry, bucket))
  {
    hide Run, DistinctSteps, Share, Lines, Total, Weigh, Contents, Formulas;
    if n == 0 {
      NothingWeighs(steps, outcomes, Contents(steps), bucket, Share(Formulas(steps), ctx, registry, bucket));
    } else {
      TotalIsShares(steps, outcomes, n - 1, ctx, registry, bucket);
      TotalStep(steps, outcomes, n - 1, bucket);
      assert Contents(steps)[..n][..n - 1] == Contents(steps)[..n - 1];
      WeighLast(Contents(steps)[..n], Share(Formulas(steps), ctx, registry, bucket));
      ShareAt(steps, outcomes, n - 1, ctx, registry, bucket);
    }
  }

  lemma NothingWeighs(steps: seq<PlanStep>, outcomes: seq<StepOutcome>, contents: seq<Content>, bucket: Bucket, weight: Content -> real)
    ensures Total(Lines(steps[..0], outcomes[..0], bucket)) == Weigh(contents[..0], weight)
  {
  }

  lemma ShareAt(steps: seq<PlanStep>, outcomes: seq<StepOutcome>, i: nat, ctx: ExecutionContext, registry: Registry, bucket: Bucket)
    requires i < |steps| && DistinctSteps(steps) && Run(steps, ctx, registry) == Ok(outcomes)
    ensures Share(Formulas(steps), ctx, registry, bucket)(Contents(steps)[i]) ==
            if BucketOf(steps[i].phase) == bucket then outcomes[i].result.amount else 0.0
  {
    hide Run, DistinctSteps, Formulas, Denote;
    ExecutionRefinesMeaning(steps, ctx, registry, i);
    assert Denote(Formulas(steps), ctx, registry, steps[i].code, {}) == Some(outcomes[i].result.amount);
    assert Contents(steps)[i].code == steps[i].code && Contents(steps)[i].phase == steps[i].phase;
  }

  lemma {:induction false} FormulasMean(steps: seq<PlanStep>, code: string)
    requires DistinctSteps(steps)
    ensures code in Formulas(steps) ==> exists i :: 0 <= i < |steps| && steps[i].code == code && Formulas(steps)[code] == FormulaOf(steps[i])
  {
    if steps != [] {
      var init := steps[..|steps| - 1];
      FormulasMean(init, code);
      if code in Formulas(init) && steps[|steps| - 1].code != code {
        var i :| 0 <= i < |init| && init[i].code == code && Formulas(init)[code] == FormulaOf(init[i]);
        assert steps[i] == init[i];
      } else if code in Formulas(steps) {
        assert steps[|steps| - 1].code == code;
      }
    }
  }

  lemma FormulaTransfers(s: seq<PlanStep>, t: seq<PlanStep>, code: string)
    requires DistinctSteps(s) && DistinctSteps(t) && multiset(Contents(s)) == multiset(Contents(t))
    requires code in Formulas(s)
    ensures code in Formulas(t) && Formulas(t)[code] == Formulas(s)[code]
  {
    FormulasMean(s, code);
    var i :| 0 <= i < |s| && s[i].code == code && Formulas(s)[code] == FormulaOf(s[i]);
    assert Contents(s)[i] in multiset(Contents(t));
    var j :| 0 <= j < |t| && Contents(t)[j] == Contents(s)[i];
    FormulaAt(t, j);
  }

  lemma SameFormulas(s: seq<PlanStep>, t: seq<PlanStep>)
    requires DistinctSteps(s) && DistinctSteps(t) && multiset(Contents(s)) == multiset(Contents(t))
    ensures Formulas(s) == Formulas(t)
  {
    hide Formulas;
    forall code | code in Formulas(s) ensures code in Formulas(t) && Formulas(t)[code] == Formulas(s)[code] {
      FormulaTransfers(s, t, code);
    }
    forall code | code in Formulas(t) ensures code in Formulas(s) {
      FormulaTransfers(t, s, code);
    }
  }

  /** Two runs of the same steps in any two orders that both succeed pay the same:
      component by component, bucket by bucket and in the net. */
  lemma OrderDoesNotMatter(p: CalculationPlan, q: CalculationPlan, ctx: ExecutionContext, registry: Registry)
    requires DistinctSteps(p.steps) && DistinctSteps(q.steps)
    requires multiset(Contents(p.steps)) == multiset(Contents(q.steps))
    requires Run(p.steps, ctx, registry).Ok? && Run(q.steps, ctx, registry).Ok?
    ensures forall i, j :: 0 <= i < |p.steps| && 0 <= j < |q.steps| && p.steps[i].code == q.steps[j].code ==>
              Run(p.steps, ctx, registry).value[i].result.amount == Run(q.steps, ctx, registry).value[j].result.amount
    ensures forall bucket :: Total(Lines(p.steps, Run(p.steps, ctx, registry).value, bucket)) ==
                             Total(Lines(q.steps, Run(q.steps, ctx, registry).value, bucket))
    ensures Payslip(p, Run(p.steps, ctx, registry).value, ctx).netPay == Payslip(q, Run(q.steps, ctx, registry).value, ctx).netPay
  {
    hide Run, Lines, Denote, Formulas, Total, Weigh, Contents, RoundingPolicy.Apply, DistinctSteps, Trail;
    SameFormulas(p.steps, q.steps);
    var a, b := Run(p.steps, ctx, registry).value, Run(q.steps, ctx, registry).value;
    forall i, j | 0 <= i < |p.steps| && 0 <= j < |q.steps| && p.steps[i].code == q.steps[j].code
      ensures a[i].result.amount == b[j].result.amount
    {
      ExecutionRefinesMeaning(p.steps, ctx, registry, i);
      ExecutionRefinesMeaning(q.steps, ctx, registry, j);
      assert Denote(Formulas(p.steps), ctx, registry, p.steps[i].code, {}) == Some(a[i].result.amount);
      assert Denote(Formulas(q.steps), ctx, registry, q.steps[j].code, {}) == Some(b[j].result.amount);
    }
    forall bucket ensures Total(Lines(p.steps, a, bucket)) == Total(Lines(q.steps, b, bucket)) {
      BucketTotal(p.steps, ctx, registry, bucket);
      BucketTotal(q.steps, ctx, registry, bucket);
      WeighPermutation(Contents(p.steps), Contents(q.steps), Share(Formulas(p.steps), ctx, registry, bucket));
    }
  }

  lemma BucketTotal(steps: seq<PlanStep>, ctx: ExecutionContext, registry: Registry, bucket: Bucket)
    requires DistinctSteps(steps) && Run(steps, ctx, registry).Ok?
    ensures Total(Lines(steps, Run(steps, ctx, registry).value, bucket)) ==
            Weigh(Contents(steps), Share(Formulas(steps), ctx, registry, bucket))
  {
    hide Run, Lines, Weigh, Formulas, Share;
    var outcomes := Run(steps, ctx, registry).value;
    TotalIsShares(steps, outcomes, |steps|, ctx, registry, bucket);
    assert steps[..|steps|] == steps && outcomes[..|steps|] == outcomes && Contents(steps)[..|steps|] == Contents(steps);
  }

  ghost predicate Cited(components: seq<ResolvedComponent>) {
    forall c :: c in components ==> c.citations != []
  }

  lemma {:induction false} StepFacts(components: seq<ResolvedComponent>, steps: seq<PlanStep>, registry: Registry)
    requires DistinctCodes(components) && AllPass(components, registry, |components|) && Cited(components)
    requires IsPlanOf(components, steps)
    ensures multiset(Contents(steps)) == multiset(ComponentContents(components))
    ensures forall i :: 0 <= i < |steps| ==> Runnable(steps[i], registry)
  {
    hide AllPass, IsPhasedOrder, IsSortedIn;
    var order :| IsPhasedOrder(components, order, |PHASE_ORDER|) && (forall phase :: IsSortedIn(components, order, phase))
      && |order| == |steps| && forall i :: 0 <= i < |steps| ==> steps[i] == StepOf(order[i], i);
    PlanMembers(components, order);
    assert Contents(steps) == ComponentContents(order);
    ContentsPermute(order, components);
    forall i | 0 <= i < |steps| ensures Runnable(steps[i], registry) {
      assert order[i] in components;
      PassedIsRunnable(components, order[i], registry);
    }
  }

  lemma PassedIsRunnable(components: seq<ResolvedComponent>, c: ResolvedComponent, registry: Registry)
    requires AllPass(components, registry, |components|) && c in components
    ensures c.primitive in registry && ParametersValid(registry[c.primitive], c.parameters)
  {
    var i :| 0 <= i < |components| && components[i] == c;
    assert ComponentError(components[i], Codes(components), registry).None?;
  }

  function ComponentContents(components: seq<ResolvedComponent>): seq<Content> {
    seq(|components|, i requires 0 <= i < |components| => ContentOf(StepOf(components[i], 0)))
  }

  lemma {:induction false} ContentsPermute(a: seq<ResolvedComponent>, b: seq<ResolvedComponent>)
    requires multiset(a) == multiset(b)
    ensures multiset(ComponentContents(a)) == multiset(ComponentContents(b))
  {
    hide ComponentContents, ContentOf, StepOf;
    if a == [] {
      assert |multiset(b)| == 0;
      assert b == [];
    } else {
      var init := a[..|a| - 1];
      var k := FindLast(a, b);
      var rest := b[..k] + b[k + 1..];
      ContentsPermute(init, rest);
      ContentsRemoveAt(a, |a| - 1);
      ContentsRemoveAt(b, k);
      assert a[..|a| - 1] + a[|a|..] == init;
      AddedBack(multiset(ComponentContents(a)), multiset(ComponentContents(b)), multiset(ComponentContents(init)),
                ContentOf(StepOf(b[k], 0)));
    }
  }

  lemma FindLast(a: seq<ResolvedComponent>, b: seq<ResolvedComponent>) returns (k: nat)
    requires a != [] && multiset(a) == multiset(b)
    ensures k < |b| && b[k] == a[|a| - 1]
    ensures multiset(a[..|a| - 1]) == multiset(b[..k] + b[k + 1..])
  {
    assert a[|a| - 1] in multiset(b);
    k :| 0 <= k < |b| && b[k] == a[|a| - 1];
    RemoveLast(a);
    RemoveAt(b, k);
  }

  lemma AddedBack<T>(m: multiset<T>, n: multiset<T>, rest: multiset<T>, x: T)
    requires x in m && x in n && rest == m - multiset{x} == n - multiset{x}
    ensures m == n
  {
    assert m == rest + multiset{x} && n == rest + multiset{x};
  }

  lemma ContentsRemoveAt(b: seq<ResolvedComponent>, k: nat)
    requires k < |b|
    ensures ContentOf(StepOf(b[k], 0)) in multiset(ComponentContents(b))
    ensures multiset(ComponentContents(b[..k] + b[k + 1..])) ==
            multiset(ComponentContents(b)) - multiset{ContentOf(StepOf(b[k], 0))}
  {
    var contents := ComponentContents(b);
    assert contents[k] == ContentOf(StepOf(b[k], 0)) && contents[k] in contents;
    RemoveAt(contents, k);
    assert contents[..k] + contents[k + 1..] == ComponentContents(b[..k] + b[k + 1..]);
  }

  lemma SameGraph(a: seq<ResolvedComponent>, b: seq<ResolvedComponent>, phase: Phase)
    requires DistinctCodes(a) && DistinctCodes(b) && multiset(a) == multiset(b)
    ensures PhaseHasCycle(a, phase) <==> PhaseHasCycle(b, phase)
  {
    hide HasCycle, InPhase, DistinctCodes, GraphOf;
    InPhaseDistinct(a, phase);
    InPhaseDistinct(b, phase);
    var s, t := InPhase(a, phase), InPhase(b, phase);
    forall c: ResolvedComponent ensures c in s <==> c in t {
      assert c in multiset(a) <==> c in multiset(b);
    }
    GraphByMembers(s, t);
    GraphByMembers(t, s);
    assert GraphOf(s) == GraphOf(t);
  }

  lemma GraphByMembers(s: seq<ResolvedComponent>, t: seq<ResolvedComponent>)
    requires DistinctCodes(s) && DistinctCodes(t) && forall c :: c in s ==> c in t
    ensures forall code :: code in GraphOf(s) ==> code in GraphOf(t) && GraphOf(s)[code] == GraphOf(t)[code]
  {
    forall code | code in GraphOf(s) ensures code in GraphOf(t) && GraphOf(s)[code] == GraphOf(t)[code] {
      var i :| 0 <= i < |s| && s[i].code == code;
      assert s[i] in t;
      var j :| 0 <= j < |t| && t[j] == s[i];
    }
  }

  /** `build` accepts or refuses a stack whatever the order it is declared in. */
  lemma DeclarationOrderKeepsAcceptance(a: seq<ResolvedComponent>, b: seq<ResolvedComponent>, registry: Registry)
    requires DistinctCodes(a) && DistinctCodes(b) && multiset(a) == multiset(b)
    ensures AllPass(a, registry, |a|) <==> AllPass(b, registry, |b|)
    ensures SomePhaseHasCycle(a) <==> SomePhaseHasCycle(b)
  {
    hide AllPass, PhaseHasCycle, DistinctCodes, CanBePaid;
    SameMembers(a, b, registry);
    forall phase ensures PhaseHasCycle(a, phase) <==> PhaseHasCycle(b, phase) {
      SameGraph(a, b, phase);
    }
  }

  /** Main result over the whole pipeline: two rule stacks that declare the same
      components in different orders build plans that succeed together and then pay
      the same. */
  lemma DeclarationOrderDoesNotMatter(a: seq<ResolvedComponent>, b: seq<ResolvedComponent>,
                                      p: CalculationPlan, q: CalculationPlan, ctx: ExecutionContext, registry: Registry)
    requires DistinctCodes(a) && DistinctCodes(b) && multiset(a) == multiset(b)
    requires AllPass(a, registry, |a|) && Cited(a)
    requires IsPlanOf(a, p.steps) && IsPlanOf(b, q.steps)
    ensures Run(p.steps, ctx, registry).Ok? <==> Run(q.steps, ctx, registry).Ok?
    ensures Run(p.steps, ctx, registry).Ok? ==>
              Payslip(p, Run(p.steps, ctx, registry).value, ctx).netPay == Payslip(q, Run(q.steps, ctx, registry).value, ctx).netPay
    ensures Run(p.steps, ctx, registry).Ok? ==>
              forall i, j :: 0 <= i < |p.steps| && 0 <= j < |q.steps| && p.steps[i].code == q.steps[j].code ==>
                Run(p.steps, ctx, registry).value[i].result.amount == Run(q.steps, ctx, registry).value[j].result.amount
  {
    hide Run, AllPass, IsPlanOf, Contents, DistinctCodes, DistinctSteps, Runnable, CanBePaid, FirstStarved, Payslip, Cited, RespectsInputs;
    SameMembers(a, b, registry);
    BuiltPlanRuns(a, p.steps, ctx, registry);
    BuiltPlanRuns(b, q.steps, ctx, registry);
    if Run(p.steps, ctx, registry).Ok? {
      BuiltPlanRespectsInputs(a, p.steps, registry);
      BuiltPlanRespectsInputs(b, q.steps, registry);
      StepFacts(a, p.steps, registry);
      StepFacts(b, q.steps, registry);
      ContentsPermute(a, b);
      OrderDoesNotMatter(p, q, ctx, registry);
    }
  }

  /** What depends on the components alone is the same for two orders of them. */
  lemma SameMembers(a: seq<ResolvedComponent>, b: seq<ResolvedComponent>, registry: Registry)
    requires multiset(a) == multiset(b)
    ensures AllPass(a, registry, |a|) <==> AllPass(b, registry, |b|)
    ensures (Cited(a) <==> Cited(b)) && (CanBePaid(a, registry) <==> CanBePaid(b, registry))
  {
    hide ComponentError, BasesOf, Codes, AllPass;
    forall c: ResolvedComponent ensures c in a <==> c in b {
      assert c in multiset(a) <==> c in multiset(b);
    }
    SameCodes(a, b);
    SameCodes(b, a);
    assert Codes(a) == Codes(b);
    PassesByMember(a, registry);
    PassesByMember(b, registry);
  }

  lemma SameCodes(a: seq<ResolvedComponent>, b: seq<ResolvedComponent>)
    requires forall c :: c in a ==> c in b
    ensures Codes(a) <= Codes(b)
  {
    forall code | code in Codes(a) ensures code in Codes(b) {
      var i :| 0 <= i < |a| && a[i].code == code;
      assert a[i] in b;
    }
  }

  lemma PassesByMember(components: seq<ResolvedComponent>, registry: Registry)
    ensures AllPass(components, registry, |components|) <==> forall c :: c in components ==> ComponentError(c, Codes(components), registry).None?
  {
    hide ComponentError, Codes;
  }

  // ---- the audit trail -----------------------------------------------------

  /** What resolving gives, `build` can take: one component per code, each with the
      documents it comes from. */
  lemma ResolvedIsBuildable(dict: seq<ResolvedComponent>, entries: seq<Entry>)
    requires Resolves(dict, entries)
    ensures DistinctCodes(dict) && Cited(dict)
  {
    hide LiveUpTo, Overlay, TopmostInputs;
    forall p | 0 <= p < |dict| ensures dict[p].citations != [] {
      GetUnique(dict, p);
      assert Get(dict, dict[p].code) == Meaning(entries, dict[p].code);
      assert Live(entries, dict[p].code) != [];
    }
  }

  /** From rule documents to payslip: the plan built from a resolved stack runs to the
      end exactly when every base of every TSU is declared and in time. */
  lemma ResolvedStackRuns(layers: seq<Document>, dict: seq<ResolvedComponent>, plan: CalculationPlan,
                          ctx: ExecutionContext, registry: Registry)
    requires IsResolution(layers, Ok(dict)) && AllPass(dict, registry, |dict|) && IsPlanOf(dict, plan.steps)
    ensures Run(plan.steps, ctx, registry).Ok? <==> CanBePaid(dict, registry)
  {
    hide Run, AllPass, IsPlanOf, CanBePaid, FirstStarved, Resolves;
    ResolvedIsBuildable(dict, Flatten(layers));
    BuiltPlanRuns(dict, plan.steps, ctx, registry);
  }

  /** From rule documents to payslip: every audit entry cites the topmost document
      that still contributes to the component it is about. */
  lemma PayslipCitesTopmostLayer(layers: seq<Document>, dict: seq<ResolvedComponent>, plan: CalculationPlan,
                                 ctx: ExecutionContext, registry: Registry, i: nat)
    requires IsStack(layers) && IsResolution(layers, Ok(dict)) && IsPlanOf(dict, plan.steps)
    requires Run(plan.steps, ctx, registry).Ok? && i < |plan.steps|
    ensures var entries := Flatten(layers);
            var live := Live(entries, plan.steps[i].code);
            live != [] && Payslip(plan, Run(plan.steps, ctx, registry).value, ctx).audit[i].citation == CitationOf(entries[live[|live| - 1]])
  {
    hide Run, Flatten, LiveUpTo, IsStack, PrimaryCitation, IsPhasedOrder, IsSortedIn, Resolves, Lines, Total, Produced, RoundingPolicy.Apply;
    var order: seq<ResolvedComponent> :| IsPhasedOrder(dict, order, |PHASE_ORDER|) && (forall phase :: IsSortedIn(dict, order, phase))
      && |order| == |plan.steps| && forall j :: 0 <= j < |plan.steps| ==> plan.steps[j] == StepOf(order[j], j);
    PlanMembers(dict, order);
    ResolvedMeaning(dict, Flatten(layers), order[i]);
    AuditCitesTopmostLayer(layers, order[i].code);
    StepCitation(plan.steps, ctx, registry, i);
  }

  lemma ResolvedMeaning(dict: seq<ResolvedComponent>, entries: seq<Entry>, comp: ResolvedComponent)
    requires Resolves(dict, entries) && comp in dict
    ensures Meaning(entries, comp.code) == Some(comp)
  {
    hide Meaning, Find, Live;
    var p :| 0 <= p < |dict| && dict[p] == comp;
    GetUnique(dict, p);
    assert Get(dict, comp.code) == Meaning(entries, comp.code);
  }

  lemma StepCitation(steps: seq<PlanStep>, ctx: ExecutionContext, registry: Registry, i: nat)
    requires Run(steps, ctx, registry).Ok? && i < |steps|
    ensures PrimaryCitation(steps[i].citations) == Some(Run(steps, ctx, registry).value[i].citation)
  {
    hide Run, PrimaryCitation, Produced, RunPrimitive, BuildInputs;
    OutcomeAt(steps, ctx, registry, i);
  }

  ghost predicate Numbered(steps: seq<PlanStep>) {
    forall i :: 0 <= i < |steps| ==> steps[i].index == i
  }

  /** The line was made by the step it refers to, and belongs in the bucket. */
  predicate IsLineOfStep(steps: seq<PlanStep>, outcomes: seq<StepOutcome>, bucket: Bucket, line: PayslipLine)
    requires |steps| == |outcomes|
  {
    var i := line.sourceAuditRef;
    i < |steps| && BucketOf(steps[i].phase) == bucket && line == LineOf(steps[i], outcomes[i])
  }

  predicate RefersTo(lines: seq<PayslipLine>, k: nat, i: nat) {
    k < |lines| && lines[k].sourceAuditRef == i
  }

  ghost predicate AreLinesOfSteps(steps: seq<PlanStep>, outcomes: seq<StepOutcome>, bucket: Bucket, lines: seq<PayslipLine>)
    requires |steps| == |outcomes|
  {
    forall k :: 0 <= k < |lines| ==> IsLineOfStep(steps, outcomes, bucket, lines[k])
  }

  ghost predicate RefsRise(lines: seq<PayslipLine>) {
    forall k, l :: 0 <= k < l < |lines| ==> lines[k].sourceAuditRef < lines[l].sourceAuditRef
  }

  lemma {:induction false} LinesAreSteps(steps: seq<PlanStep>, outcomes: seq<StepOutcome>, bucket: Bucket)
    requires |steps| == |outcomes| && Numbered(steps)
    ensures AreLinesOfSteps(steps, outcomes, bucket, Lines(steps, outcomes, bucket)) && RefsRise(Lines(steps, outcomes, bucket))
  {
    hide BucketOf;
    if steps != [] {
      var n := |steps| - 1;
      LinesAreSteps(steps[..n], outcomes[..n], bucket);
      var rest, lines := Lines(steps[..n], outcomes[..n], bucket), Lines(steps, outcomes, bucket);
      assert forall k :: 0 <= k < |rest| ==> IsLineOfStep(steps[..n], outcomes[..n], bucket, rest[k]) && lines[k] == rest[k];
    }
  }

  lemma {:induction false} StepHasLine(steps: seq<PlanStep>, outcomes: seq<StepOutcome>, bucket: Bucket, i: nat) returns (k: nat)
    requires |steps| == |outcomes| && Numbered(steps) && i < |steps| && BucketOf(steps[i].phase) == bucket
    ensures RefersTo(Lines(steps, outcomes, bucket), k, i)
  {
    hide BucketOf;
    var n := |steps| - 1;
    if i < n {
      k := StepHasLine(steps[..n], outcomes[..n], bucket, i);
    } else {
      k := |Lines(steps[..n], outcomes[..n], bucket)|;
    }
  }

  /** Every payslip line points at the audit entry that explains it: same step, same
      amount. Lines come in step order, and every step of a bucket's phases has
      exactly one line there. */
  lemma LinesMatchAudit(plan: CalculationPlan, outcomes: seq<StepOutcome>, ctx: ExecutionContext, bucket: Bucket)
    requires |plan.steps| == |outcomes| && Numbered(plan.steps)
    ensures var lines, audit := Lines(plan.steps, outcomes, bucket), Payslip(plan, outcomes, ctx).audit;
            && |audit| == |plan.steps|
            && (forall k :: 0 <= k < |lines| ==>
                  var ref := lines[k].sourceAuditRef;
                  && ref < |audit| && audit[ref].stepIndex == ref && audit[ref].amount == lines[k].amount
                  && plan.steps[ref].code == lines[k].code && BucketOf(plan.steps[ref].phase) == bucket)
            && RefsRise(lines)
            && (forall i :: 0 <= i < |audit| && BucketOf(plan.steps[i].phase) == bucket ==> exists k :: RefersTo(lines, k, i))
  {
    hide Lines, Total, BucketOf, RoundingPolicy.Apply, Product, RefsRise;
    LinesAreSteps(plan.steps, outcomes, bucket);
    var lines, audit := Lines(plan.steps, outcomes, bucket), Payslip(plan, outcomes, ctx).audit;
    forall k | 0 <= k < |lines|
      ensures var ref := lines[k].sourceAuditRef;
              && ref < |audit| && audit[ref].stepIndex == ref && audit[ref].amount == lines[k].amount
              && plan.steps[ref].code == lines[k].code && BucketOf(plan.steps[ref].phase) == bucket
    {
      assert IsLineOfStep(plan.steps, outcomes, bucket, lines[k]);
    }
    forall i | 0 <= i < |plan.steps| && BucketOf(plan.steps[i].phase) == bucket ensures exists k :: RefersTo(lines, k, i) {
      var k := StepHasLine(plan.steps, outcomes, bucket, i);
    }
  }

  // ---- money ---------------------------------------------------------------

  lemma RoundedAmount(step: PlanStep, produced: Amounts, ctx: ExecutionContext, registry: Registry)
    requires RunStep(step, produced, ctx, registry).Ok?
    ensures ctx.policy.IsMultiple(RunStep(step, produced, ctx, registry).value.result.amount)
  {
    hide BaseSum, PrimaryCitation, Product, RoundToInt;
    var outcome := RunStep(step, produced, ctx, registry).value;
    match registry[step.primitive] {
      case BaseSalary => ApplyIsNearestMultiple(ctx.policy, ctx.baseMonthlySalary);
      case TsuContribution =>
        var sum := BaseSum(step.parameters["base_components"].names, outcome.inputs).value;
        ApplyIsNearestMultiple(ctx.policy, Product(sum, step.parameters["rate"].n));
    }
  }

  lemma {:induction false} TotalIsMultiple(steps: seq<PlanStep>, outcomes: seq<StepOutcome>, n: nat,
                                           ctx: ExecutionContext, registry: Registry, bucket: Bucket)
    requires n <= |steps| && Run(steps, ctx, registry) == Ok(outcomes)
    ensures ctx.policy.IsMultiple(Total(Lines(steps[..n], outcomes[..n], bucket)))
  {
    hide Run, RoundingPolicy.IsMultiple, RunStep;
    if n == 0 {
      assert Lines(steps[..0], outcomes[..0], bucket) == [];
      ZeroIsMultiple(ctx.policy);
    } else {
      hide Lines, Total;
      TotalIsMultiple(steps, outcomes, n - 1, ctx, registry, bucket);
      TotalStep(steps, outcomes, n - 1, bucket);
      OutcomeAt(steps, ctx, registry, n - 1);
      RoundedAmount(steps[n - 1], Produced(steps[..n - 1], outcomes[..n - 1]), ctx, registry);
      MultiplesAreClosed(ctx.policy, Total(Lines(steps[..n - 1], outcomes[..n - 1], bucket)), outcomes[n - 1].result.amount);
    }
  }

  /** Main result: not a cent is lost. Every line is already rounded, so the last
      rounding changes nothing and net pay is gross less deductions; what the
      employer contributes does not enter. */
  lemma NetPayIsExact(plan: CalculationPlan, ctx: ExecutionContext, registry: Registry)
    requires Run(plan.steps, ctx, registry).Ok?
    ensures var slip := Payslip(plan, Run(plan.steps, ctx, registry).value, ctx);
            slip.netPay == Total(slip.grossEarnings) - Total(slip.deductions)
  {
    hide Run, Lines, Total, RoundingPolicy.Apply, RoundingPolicy.IsMultiple, Trail;
    var outcomes := Run(plan.steps, ctx, registry).value;
    TotalIsMultiple(plan.steps, outcomes, |plan.steps|, ctx, registry, GrossBucket);
    TotalIsMultiple(plan.steps, outcomes, |plan.steps|, ctx, registry, DeductionBucket);
    assert plan.steps[..|plan.steps|] == plan.steps && outcomes[..|plan.steps|] == outcomes;
    var gross, deductions := Total(Lines(plan.steps, outcomes, GrossBucket)), Total(Lines(plan.steps, outcomes, DeductionBucket));
    MultiplesAreClosed(ctx.policy, gross, deductions);
    ApplyFixesMultiples(ctx.policy, gross - deductions);
  }

  // ---- how much TSU can take -----------------------------------------------

  /** The gross amounts of the components in `codes`. */
  function GrossOver(steps: seq<PlanStep>, outcomes: seq<StepOutcome>, codes: set<string>): real
    requires |steps| == |outcomes|
  {
    if steps == [] then 0.0
    else
      var n := |steps| - 1;
      GrossOver(steps[..n], outcomes[..n], codes) +
      if BucketOf(steps[n].phase) == GrossBucket && steps[n].code in codes then outcomes[n].result.amount else 0.0
  }

  ghost predicate NonNegative(outcomes: seq<StepOutcome>) {
    forall i :: 0 <= i < |outcomes| ==> outcomes[i].result.amount >= 0.0
  }

  lemma {:induction false} GrossOverBounded(steps: seq<PlanStep>, outcomes: seq<StepOutcome>, codes: set<string>)
    requires |steps| == |outcomes| && NonNegative(outcomes)
    ensures 0.0 <= GrossOver(steps, outcomes, codes) <= Total(Lines(steps, outcomes, GrossBucket))
  {
    hide Lines, Total;
    if steps == [] {
      NothingWeighs(steps, outcomes, [], GrossBucket, _ => 0.0);
      assert steps[..0] == steps && outcomes[..0] == outcomes;
    } else {
      var n := |steps| - 1;
      GrossOverBounded(steps[..n], outcomes[..n], codes);
      TotalStep(steps, outcomes, n, GrossBucket);
      assert steps[..n + 1] == steps && outcomes[..n + 1] == outcomes;
    }
  }

  lemma {:induction false} GrossOverAdd(steps: seq<PlanStep>, outcomes: seq<StepOutcome>, codes: set<string>, j: nat)
    requires |steps| == |outcomes| && DistinctSteps(steps) && j < |steps|
    requires BucketOf(steps[j].phase) == GrossBucket && steps[j].code !in codes
    ensures GrossOver(steps, outcomes, codes + {steps[j].code}) == GrossOver(steps, outcomes, codes) + outcomes[j].result.amount
  {
    var n := |steps| - 1;
    if j < n {
      GrossOverAdd(steps[..n], outcomes[..n], codes, j);
    } else {
      GrossOverIgnores(steps[..n], outcomes[..n], codes, steps[n].code);
    }
  }

  lemma {:induction false} GrossOverIgnores(steps: seq<PlanStep>, outcomes: seq<StepOutcome>, codes: set<string>, code: string)
    requires |steps| == |outcomes| && forall i :: 0 <= i < |steps| ==> steps[i].code != code
    ensures GrossOver(steps, outcomes, codes + {code}) == GrossOver(steps, outcomes, codes)
  {
    if steps != [] {
      var n := |steps| - 1;
      assert steps[n].code != code;
      GrossOverIgnores(steps[..n], outcomes[..n], codes, code);
    }
  }

  /** The bases are different gross components of the plan. */
  ghost predicate GrossBases(steps: seq<PlanStep>, bases: seq<string>) {
    && (forall k, l :: 0 <= k < l < |bases| ==> bases[k] != bases[l])
    && forall k :: 0 <= k < |bases| ==> exists j :: 0 <= j < |steps| && steps[j].code == bases[k] && BucketOf(steps[j].phase) == GrossBucket
  }

  lemma {:induction false} BaseSumIsGross(steps: seq<PlanStep>, outcomes: seq<StepOutcome>, i: nat, bases: seq<string>, inputs: Amounts)
    requires |steps| == |outcomes| && DistinctSteps(steps) && i < |steps| && GrossBases(steps, bases)
    requires inputs == BuildInputs(TsuContribution, steps[i].inputsRequired, Produced(steps[..i], outcomes[..i]))
    requires BaseSum(bases, inputs).Ok?
    ensures BaseSum(bases, inputs).value == GrossOver(steps, outcomes, Elements(bases))
  {
    hide Produced, GrossOver, DistinctSteps;
    if bases == [] {
      GrossOverNothing(steps, outcomes);
      assert Elements(bases) == {};
    } else {
      var init, last := bases[..|bases| - 1], bases[|bases| - 1];
      BaseSumIsGross(steps, outcomes, i, init, inputs);
      assert Elements(bases) == Elements(init) + {last};
      assert last !in Elements(init);
      var j :| 0 <= j < |steps| && steps[j].code == last && BucketOf(steps[j].phase) == GrossBucket;
      InputAmount(steps, outcomes, i, j);
      GrossOverAdd(steps, outcomes, Elements(init), j);
    }
  }

  lemma {:induction false} GrossOverNothing(steps: seq<PlanStep>, outcomes: seq<StepOutcome>)
    requires |steps| == |outcomes|
    ensures GrossOver(steps, outcomes, {}) == 0.0
  {
    if steps != [] { GrossOverNothing(steps[..|steps| - 1], outcomes[..|steps| - 1]); }
  }

  lemma InputAmount(steps: seq<PlanStep>, outcomes: seq<StepOutcome>, i: nat, j: nat)
    requires |steps| == |outcomes| && DistinctSteps(steps) && i < |steps| && j < |steps|
    ensures var produced := Produced(steps[..i], outcomes[..i]);
            steps[j].code in produced ==> produced[steps[j].code] == outcomes[j].result.amount
  {
    hide Produced;
    var produced := Produced(steps[..i], outcomes[..i]);
    if steps[j].code in produced {
      var k := ProducedOnly(steps[..i], outcomes[..i], steps[j].code);
      assert steps[k].code == steps[j].code;
      assert k == j;
      ProducedAt(steps[..i], outcomes[..i], k);
    }
  }

  lemma {:induction false} BaseSumNonNegative(bases: seq<string>, inputs: Amounts)
    requires BaseSum(bases, inputs).Ok? && forall code :: code in inputs ==> inputs[code] >= 0.0
    ensures BaseSum(bases, inputs).value >= 0.0
  {
    if bases != [] { BaseSumNonNegative(bases[..|bases| - 1], inputs); }
  }

  lemma {:induction false} ProducedNonNegative(steps: seq<PlanStep>, outcomes: seq<StepOutcome>, code: string)
    requires |steps| == |outcomes| && NonNegative(outcomes) && code in Produced(steps, outcomes)
    ensures Produced(steps, outcomes)[code] >= 0.0
  {
    var n := |steps| - 1;
    if steps[n].code != code { ProducedNonNegative(steps[..n], outcomes[..n], code); }
  }

  lemma ApplyNonNegative(policy: RoundingPolicy, value: real)
    requires value >= 0.0
    ensures policy.Apply(value) >= 0.0
  {
    ZeroIsMultiple(policy);
    ApplyFixesMultiples(policy, 0.0);
    ApplyMonotone(policy, 0.0, value);
  }

  lemma StepNonNegative(step: PlanStep, produced: Amounts, ctx: ExecutionContext, registry: Registry)
    requires RunStep(step, produced, ctx, registry).Ok? && ctx.baseMonthlySalary >= 0.0
    requires forall code :: code in produced ==> produced[code] >= 0.0
    ensures RunStep(step, produced, ctx, registry).value.result.amount >= 0.0
  {
    hide BaseSum, PrimaryCitation, Product, RoundingPolicy.Apply;
    var outcome := RunStep(step, produced, ctx, registry).value;
    match registry[step.primitive] {
      case BaseSalary => ApplyNonNegative(ctx.policy, ctx.baseMonthlySalary);
      case TsuContribution =>
        var bases, rate := step.parameters["base_components"].names, step.parameters["rate"].n;
        BaseSumNonNegative(bases, outcome.inputs);
        ProductBounds(BaseSum(bases, outcome.inputs).value, rate);
        ApplyNonNegative(ctx.policy, Product(BaseSum(bases, outcome.inputs).value, rate));
    }
  }

  lemma ProductBounds(a: real, rate: real)
    requires a >= 0.0 && 0.0 <= rate <= 1.0
    ensures 0.0 <= Product(a, rate) <= a
  {
    assert a * (1.0 - rate) >= 0.0;
  }

  lemma {:induction false} AmountsNonNegative(steps: seq<PlanStep>, outcomes: seq<StepOutcome>, n: nat,
                                              ctx: ExecutionContext, registry: Registry)
    requires n <= |steps| && Run(steps, ctx, registry) == Ok(outcomes) && ctx.baseMonthlySalary >= 0.0
    ensures NonNegative(outcomes[..n])
  {
    hide Run, RunStep, Produced;
    if n > 0 {
      AmountsNonNegative(steps, outcomes, n - 1, ctx, registry);
      OutcomeAt(steps, ctx, registry, n - 1);
      var produced := Produced(steps[..n - 1], outcomes[..n - 1]);
      forall code | code in produced ensures produced[code] >= 0.0 {
        ProducedNonNegative(steps[..n - 1], outcomes[..n - 1], code);
      }
      StepNonNegative(steps[n - 1], produced, ctx, registry);
      assert outcomes[..n] == outcomes[..n - 1] + [outcomes[n - 1]];
    }
  }

  /** Every deduction is a TSU over different gross components. */
  ghost predicate DeductsTsuOverGross(steps: seq<PlanStep>, registry: Registry) {
    forall i :: 0 <= i < |steps| && BucketOf(steps[i].phase) == DeductionBucket ==> IsTsuOverGross(steps, i, registry)
  }

  ghost predicate IsTsuOverGross(steps: seq<PlanStep>, i: nat, registry: Registry)
    requires i < |steps|
  {
    && steps[i].primitive in registry && registry[steps[i].primitive].TsuContribution?
    && ParametersValid(TsuContribution, steps[i].parameters)
    && GrossBases(steps, steps[i].parameters["base_components"].names)
  }

  /** One TSU is a rounded fraction of gross pay. */
  lemma TsuAmount(steps: seq<PlanStep>, outcomes: seq<StepOutcome>, i: nat, ctx: ExecutionContext, registry: Registry)
    returns (base: real)
    requires DistinctSteps(steps) && Run(steps, ctx, registry) == Ok(outcomes) && ctx.baseMonthlySalary >= 0.0
    requires i < |steps| && IsTsuOverGross(steps, i, registry)
    ensures 0.0 <= base <= Total(Lines(steps, outcomes, GrossBucket))
    ensures outcomes[i].result.amount == ctx.policy.Apply(Product(base, steps[i].parameters["rate"].n))
  {
    hide Run, Lines, Total, DistinctSteps, GrossBases, BaseSum, PrimaryCitation, Produced, Product, RoundingPolicy.Apply;
    OutcomeAt(steps, ctx, registry, i);
    var bases := steps[i].parameters["base_components"].names;
    base := BaseSum(bases, outcomes[i].inputs).value;
    BaseSumIsGross(steps, outcomes, i, bases, outcomes[i].inputs);
    AmountsNonNegative(steps, outcomes, |steps|, ctx, registry);
    assert outcomes[..|steps|] == outcomes;
    GrossOverBounded(steps, outcomes, Elements(bases));
  }

  /** The rates of the deductions among the first `n` steps, added up. */
  ghost function RateSum(steps: seq<PlanStep>, registry: Registry, n: nat): real
    requires n <= |steps| && DeductsTsuOverGross(steps, registry)
  {
    if n == 0 then 0.0
    else RateSum(steps, registry, n - 1) +
         if BucketOf(steps[n - 1].phase) == DeductionBucket then
           assert IsTsuOverGross(steps, n - 1, registry);
           steps[n - 1].parameters["rate"].n
         else 0.0
  }

  function DeductionCount(steps: seq<PlanStep>, n: nat): nat
    requires n <= |steps|
  {
    if n == 0 then 0
    else DeductionCount(steps, n - 1) + if BucketOf(steps[n - 1].phase) == DeductionBucket then 1 else 0
  }

  lemma {:induction false} DeductionsCounted(steps: seq<PlanStep>, n: nat)
    requires n <= |steps|
    ensures DeductionCount(steps, n) ==
            |set i: nat | i < n && (steps[i].phase == PreTaxDeduction || steps[i].phase == Tax || steps[i].phase == PostTax)|
  {
    var deducting := set i: nat | i < n && (steps[i].phase == PreTaxDeduction || steps[i].phase == Tax || steps[i].phase == PostTax);
    if n == 0 {
      assert deducting == {};
    } else {
      DeductionsCounted(steps, n - 1);
      var before := set i: nat | i < n - 1 && (steps[i].phase == PreTaxDeduction || steps[i].phase == Tax || steps[i].phase == PostTax);
      assert deducting == before + if n - 1 in deducting then {n - 1} else {};
    }
  }

  lemma TsuAtMost(policy: RoundingPolicy, base: real, gross: real, rate: real)
    requires 0.0 <= base <= gross && 0.0 <= rate <= 1.0
    ensures policy.Apply(Product(base, rate)) <= Product(gross, rate) + policy.Quantum() / 2.0
  {
    hide RoundingPolicy.Apply;
    assert (gross - base) * rate >= 0.0;
    assert Product(base, rate) <= Product(gross, rate);
    ApplyIsNearestMultiple(policy, Product(base, rate));
  }

  lemma {:induction false} DeductionsBounded(steps: seq<PlanStep>, outcomes: seq<StepOutcome>, n: nat,
                                             ctx: ExecutionContext, registry: Registry)
    requires DistinctSteps(steps) && Run(steps, ctx, registry) == Ok(outcomes) && ctx.baseMonthlySalary >= 0.0
    requires n <= |steps| && DeductsTsuOverGross(steps, registry)
    ensures Total(Lines(steps[..n], outcomes[..n], DeductionBucket)) <=
            Product(Total(Lines(steps, outcomes, GrossBucket)), RateSum(steps, registry, n)) +
            Product(DeductionCount(steps, n) as real, ctx.policy.Quantum() / 2.0)
  {
    hide Run, DistinctSteps, GrossBases, Product, RoundingPolicy.Apply, RoundingPolicy.Quantum, DeductsTsuOverGross;
    var gross, half := Total(Lines(steps, outcomes, GrossBucket)), ctx.policy.Quantum() / 2.0;
    if n == 0 {
      assert Lines(steps[..0], outcomes[..0], DeductionBucket) == [];
      ProductLinear(gross, 0.0, 0.0);
      ProductLinear(half, 0.0, 0.0);
    } else {
      hide Lines, Total;
      DeductionsBounded(steps, outcomes, n - 1, ctx, registry);
      TotalStep(steps, outcomes, n - 1, DeductionBucket);
      if BucketOf(steps[n - 1].phase) == DeductionBucket {
        DeductionAtMost(steps, outcomes, n - 1, ctx, registry);
        ProductLinear(gross, RateSum(steps, registry, n - 1), steps[n - 1].parameters["rate"].n);
        ProductLinear(half, DeductionCount(steps, n - 1) as real, 1.0);
      }
    }
  }

  lemma DeductionAtMost(steps: seq<PlanStep>, outcomes: seq<StepOutcome>, i: nat, ctx: ExecutionContext, registry: Registry)
    requires DistinctSteps(steps) && Run(steps, ctx, registry) == Ok(outcomes) && ctx.baseMonthlySalary >= 0.0
    requires i < |steps| && DeductsTsuOverGross(steps, registry) && BucketOf(steps[i].phase) == DeductionBucket
    ensures IsTsuOverGross(steps, i, registry)
    ensures outcomes[i].result.amount <=
            Product(Total(Lines(steps, outcomes, GrossBucket)), steps[i].parameters["rate"].n) + ctx.policy.Quantum() / 2.0
  {
    hide Run, DistinctSteps, GrossBases, Product, RoundingPolicy.Apply, RoundingPolicy.Quantum, Lines, Total;
    assert IsTsuOverGross(steps, i, registry);
    var base := TsuAmount(steps, outcomes, i, ctx, registry);
    TsuAtMost(ctx.policy, base, Total(Lines(steps, outcomes, GrossBucket)), steps[i].parameters["rate"].n);
  }

  lemma ProductLinear(a: real, b: real, c: real)
    ensures Product(a, b + c) == Product(a, b) + Product(a, c)
    ensures Product(b + c, a) == Product(b, a) + Product(c, a)
    ensures Product(1.0, a) == a && Product(a, 0.0) == 0.0 && Product(0.0, a) == 0.0
    ensures Product(a, b) == Product(b, a)
  {
  }

  /** With k TSU deductions at rates r1..rk over gross components, net pay is at
      least the unrounded remainder less k half quanta. */
  lemma NetPayLowerBound(plan: CalculationPlan, ctx: ExecutionContext, registry: Registry)
    requires DistinctSteps(plan.steps) && Run(plan.steps, ctx, registry).Ok? && ctx.baseMonthlySalary >= 0.0
    requires DeductsTsuOverGross(plan.steps, registry)
    ensures var slip := Payslip(plan, Run(plan.steps, ctx, registry).value, ctx);
            slip.netPay >= Product(Total(slip.grossEarnings), 1.0 - RateSum(plan.steps, registry, |plan.steps|))
                           - Product(DeductionCount(plan.steps, |plan.steps|) as real, ctx.policy.Quantum() / 2.0)
  {
    hide Run, Lines, Total, DistinctSteps, DeductsTsuOverGross, RateSum, Product, RoundingPolicy.Apply, RoundingPolicy.Quantum, Trail;
    var steps, outcomes := plan.steps, Run(plan.steps, ctx, registry).value;
    NetPayIsExact(plan, ctx, registry);
    DeductionsBounded(steps, outcomes, |steps|, ctx, registry);
    assert steps[..|steps|] == steps && outcomes[..|steps|] == outcomes;
    var gross, rates := Total(Lines(steps, outcomes, GrossBucket)), RateSum(steps, registry, |steps|);
    ProductLinear(gross, 1.0 - rates, rates);
    ProductLinear(gross, 1.0, 0.0);
  }

  lemma {:induction false} OneDeduction(steps: seq<PlanStep>, outcomes: seq<StepOutcome>, n: nat, i: nat)
    requires |steps| == |outcomes| && n <= |steps| && i < |steps|
    requires forall j :: 0 <= j < |steps| && BucketOf(steps[j].phase) == DeductionBucket ==> j == i
    ensures Total(Lines(steps[..n], outcomes[..n], DeductionBucket)) ==
            if i < n && BucketOf(steps[i].phase) == DeductionBucket then outcomes[i].result.amount else 0.0
  {
    if n == 0 {
      assert Lines(steps[..0], outcomes[..0], DeductionBucket) == [];
    } else {
      hide Lines, Total;
      OneDeduction(steps, outcomes, n - 1, i);
      TotalStep(steps, outcomes, n - 1, DeductionBucket);
    }
  }

  /** With one TSU deduction the employee never owes money. */
  lemma NetPayNonNegative(plan: CalculationPlan, ctx: ExecutionContext, registry: Registry, i: nat)
    requires DistinctSteps(plan.steps) && Run(plan.steps, ctx, registry).Ok? && ctx.baseMonthlySalary >= 0.0
    requires i < |plan.steps| && IsTsuOverGross(plan.steps, i, registry)
    requires forall j :: 0 <= j < |plan.steps| && BucketOf(plan.steps[j].phase) == DeductionBucket ==> j == i
    ensures Payslip(plan, Run(plan.steps, ctx, registry).value, ctx).netPay >= 0.0
  {
    hide Run, Lines, Total, DistinctSteps, GrossBases, Product, RoundingPolicy.Apply, RoundingPolicy.IsMultiple, Trail;
    var steps, outcomes := plan.steps, Run(plan.steps, ctx, registry).value;
    var gross := Total(Lines(steps, outcomes, GrossBucket));
    NetPayIsExact(plan, ctx, registry);
    OneDeduction(steps, outcomes, |steps|, i);
    TotalIsMultiple(steps, outcomes, |steps|, ctx, registry, GrossBucket);
    assert steps[..|steps|] == steps && outcomes[..|steps|] == outcomes;
    var base := TsuAmount(steps, outcomes, i, ctx, registry);
    var rate := steps[i].parameters["rate"].n;
    ProductBounds(base, rate);
    ApplyMonotone(ctx.policy, Product(base, rate), gross);
    ApplyFixesMultiples(ctx.policy, gross);
  }
}
