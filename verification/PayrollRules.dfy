/** Layered payroll rules: `RuleResolver.resolve` folds the statutory, agreement
    (cct) and company documents into one component per code. */
module PayrollRules {
  import opened Wrappers

  datatype Layer = Statutory | Cct | Company | Contract

  datatype ComponentType = Earning | Deduction | EmployerContribution

  datatype Phase = Input | Gross | PreTaxDeduction | Tax | PostTax | EmployerPhase

  /** A parsed parameter value. */
  datatype Parameter = Number(n: real) | Names(names: seq<string>) | Other(text: string)

  datatype ComponentDecl = ComponentDecl(
    kind: ComponentType,
    phase: Phase,
    primitive: string,
    parameters: map<string, Parameter>,
    inputsRequired: seq<string>,
    taxable: bool,
    subjectToTsu: bool,
    disabled: bool,
    locked: bool)

  datatype Citation = Citation(documentPath: string, layer: Layer, componentCode: string)

  datatype ResolvedComponent = ResolvedComponent(
    code: string,
    kind: ComponentType,
    phase: Phase,
    primitive: string,
    parameters: map<string, Parameter>,
    inputsRequired: seq<string>,
    taxable: bool,
    subjectToTsu: bool,
    locked: bool,
    citations: seq<Citation>)

  /** A rule document: its `components` mapping, in document order. */
  datatype Document = Document(layer: Layer, path: string, components: seq<(string, ComponentDecl)>)

  /** One declaration in the order `resolve` meets it. */
  datatype Entry = Entry(layer: Layer, path: string, code: string, decl: ComponentDecl)

  datatype ResolveError = LockedComponentOverride(code: string, layer: Layer)

  // ---- the insertion-ordered dictionary `resolved` -------------------------

  ghost predicate DistinctCodes(dict: seq<ResolvedComponent>) {
    forall i, j :: 0 <= i < j < |dict| ==> dict[i].code != dict[j].code
  }

  function Find(dict: seq<ResolvedComponent>, code: string): (r: Option<nat>)
    ensures r.Some? ==> r.value < |dict| && dict[r.value].code == code
    ensures r.None? ==> forall i :: 0 <= i < |dict| ==> dict[i].code != code
  {
    if dict == [] then None
    else if dict[|dict| - 1].code == code then Some(|dict| - 1)
    else Find(dict[..|dict| - 1], code)
  }

  function Get(dict: seq<ResolvedComponent>, code: string): Option<ResolvedComponent> {
    match Find(dict, code)
    case None => None
    case Some(i) => Some(dict[i])
  }

  /** An existing key keeps its place; a new one goes to the end. */
  function Put(dict: seq<ResolvedComponent>, comp: ResolvedComponent): seq<ResolvedComponent> {
    match Find(dict, comp.code)
    case None => dict + [comp]
    case Some(i) => dict[i := comp]
  }

  function Pop(dict: seq<ResolvedComponent>, code: string): seq<ResolvedComponent> {
    match Find(dict, code)
    case None => dict
    case Some(i) => dict[..i] + dict[i + 1..]
  }

  // ---- merging one declaration ---------------------------------------------

  predicate StructuralDiffers(lower: ResolvedComponent, higher: ComponentDecl) {
    higher.kind != lower.kind || higher.phase != lower.phase || higher.primitive != lower.primitive
  }

  predicate Overrides(lower: Option<ResolvedComponent>, higher: ComponentDecl) {
    lower.Some? && lower.value.locked && (higher.parameters != map[] || StructuralDiffers(lower.value, higher))
  }

  /** What one more declaration makes of a component, or of none. */
  function Merged(lower: Option<ResolvedComponent>, entry: Entry): ResolvedComponent {
    var higher := entry.decl;
    var citation := Citation(entry.path, entry.layer, entry.code);
    if lower.None? then
      ResolvedComponent(entry.code, higher.kind, higher.phase, higher.primitive, higher.parameters,
                        higher.inputsRequired, higher.taxable, higher.subjectToTsu, higher.locked, [citation])
    else
      var low := lower.value;
      low.(code := entry.code,
           parameters := low.parameters + higher.parameters,
           inputsRequired := if higher.inputsRequired != [] then higher.inputsRequired else low.inputsRequired,
           citations := low.citations + [citation])
  }

  function MergeComponent(lower: Option<ResolvedComponent>, entry: Entry): Result<ResolvedComponent, ResolveError> {
    if Overrides(lower, entry.decl) then Err(LockedComponentOverride(entry.code, entry.layer)) else Ok(Merged(lower, entry))
  }

  // ---- what a resolved code means, without folding -------------------------

  /** Declaration `i` still counts: it is enabled and nothing after it disables
      its code. */
  predicate IsLive(entries: seq<Entry>, i: nat)
    requires i < |entries|
  {
    !entries[i].decl.disabled &&
    forall j :: i < j < |entries| && entries[j].code == entries[i].code ==> !entries[j].decl.disabled
  }

  /** The live declarations of `code` among the first `n`, lowest first. */
  function LiveUpTo(entries: seq<Entry>, code: string, n: nat): (live: seq<nat>)
    requires n <= |entries|
    ensures forall k :: 0 <= k < |live| ==> live[k] < n && entries[live[k]].code == code && IsLive(entries, live[k])
    ensures forall k, l :: 0 <= k < l < |live| ==> live[k] < live[l]
    ensures forall i :: 0 <= i < n && entries[i].code == code && IsLive(entries, i) ==> i in live
  {
    if n == 0 then []
    else if entries[n - 1].code == code && IsLive(entries, n - 1) then LiveUpTo(entries, code, n - 1) + [n - 1]
    else LiveUpTo(entries, code, n - 1)
  }

  function Live(entries: seq<Entry>, code: string): seq<nat> {
    LiveUpTo(entries, code, |entries|)
  }

  /** Higher layers win key by key. */
  function Overlay(entries: seq<Entry>, live: seq<nat>): map<string, Parameter>
    requires forall k :: 0 <= k < |live| ==> live[k] < |entries|
  {
    if live == [] then map[]
    else Overlay(entries, live[..|live| - 1]) + entries[live[|live| - 1]].decl.parameters
  }

  /** The highest layer that lists any inputs decides them. */
  function TopmostInputs(entries: seq<Entry>, live: seq<nat>): seq<string>
    requires forall k :: 0 <= k < |live| ==> live[k] < |entries|
  {
    if live == [] then []
    else
      var top := entries[live[|live| - 1]].decl.inputsRequired;
      if top != [] then top else TopmostInputs(entries, live[..|live| - 1])
  }

  function CitationOf(entry: Entry): Citation {
    Citation(entry.path, entry.layer, entry.code)
  }

  function Citations(entries: seq<Entry>, live: seq<nat>): seq<Citation>
    requires forall k :: 0 <= k < |live| ==> live[k] < |entries|
  {
    seq(|live|, k requires 0 <= k < |live| => CitationOf(entries[live[k]]))
  }

  function Assemble(entries: seq<Entry>, code: string, live: seq<nat>): ResolvedComponent
    requires live != [] && forall k :: 0 <= k < |live| ==> live[k] < |entries|
  {
    var lowest := entries[live[0]].decl;
    ResolvedComponent(code, lowest.kind, lowest.phase, lowest.primitive,
                      Overlay(entries, live), TopmostInputs(entries, live),
                      lowest.taxable, lowest.subjectToTsu, lowest.locked,
                      Citations(entries, live))
  }

  /** The component a code stands for, read off its live declarations. */
  function Meaning(entries: seq<Entry>, code: string): Option<ResolvedComponent> {
    var live := Live(entries, code);
    if live == [] then None else Some(Assemble(entries, code, live))
  }

  /** Declaration `i` tries to change a component that is locked when it comes. */
  predicate LockConflict(entries: seq<Entry>, i: nat)
    requires i < |entries|
  {
    !entries[i].decl.disabled && Overrides(Meaning(entries[..i], entries[i].code), entries[i].decl)
  }

  /** Declaration `i` is one of `code`, enabled, and so is every later one of `code` among
      the first `n`. */
  ghost predicate Stands(entries: seq<Entry>, code: string, i: int, n: int) {
    && 0 <= i < n <= |entries| && entries[i].code == code && !entries[i].decl.disabled
    && forall j :: i < j < n && entries[j].code == code ==> !entries[j].decl.disabled
  }

  /** Declaration `l` is the lowest of `code` that still stands after the first `n`. */
  ghost predicate IsLowest(entries: seq<Entry>, code: string, l: int, n: int) {
    Stands(entries, code, l, n) && forall j :: j < l ==> !Stands(entries, code, j, n)
  }

  /** The higher declaration sets a parameter, or differs from the lower one in type, phase
      or primitive. */
  ghost predicate ChangesRule(lower: ComponentDecl, higher: ComponentDecl) {
    higher.parameters != map[] || lower.kind != higher.kind || lower.phase != higher.phase || lower.primitive != higher.primitive
  }

  /** Declaration `i` would change the rule of a component that is locked below it. */
  ghost predicate OverridesLock(entries: seq<Entry>, i: int) {
    && 0 <= i < |entries| && !entries[i].decl.disabled
    && exists l :: 0 <= l < i && IsLowest(entries, entries[i].code, l, i) && entries[l].decl.locked
         && ChangesRule(entries[l].decl, entries[i].decl)
  }

  lemma LiveMeansStanding(entries: seq<Entry>, code: string, n: nat)
    requires n <= |entries|
    ensures forall i :: i in Live(entries[..n], code) <==> Stands(entries, code, i, n)
    ensures Live(entries[..n], code) != [] ==> IsLowest(entries, code, Live(entries[..n], code)[0], n)
  {
    var so := entries[..n];
    forall i: nat | i < n && entries[i].code == code ensures IsLive(so, i) <==> Stands(entries, code, i, n) {}
    var live := Live(so, code);
    if live != [] {
      forall j | j < live[0] ensures !Stands(entries, code, j, n) {
        assert j in live <==> Stands(entries, code, j, n);
      }
    }
  }

  lemma OnlyOneLowest(entries: seq<Entry>, code: string, k: int, l: int, n: int)
    requires IsLowest(entries, code, k, n) && IsLowest(entries, code, l, n)
    ensures k == l && Stands(entries, code, k, n)
  {
  }

  /** A declaration conflicts exactly when it overrides a lock. */
  lemma ConflictIsOverride(entries: seq<Entry>, i: nat)
    requires i < |entries|
    ensures LockConflict(entries, i) <==> OverridesLock(entries, i)
  {
    hide LiveUpTo, Overlay, TopmostInputs, Citations, IsLowest, Stands;
    var code := entries[i].code;
    var live := Live(entries[..i], code);
    LiveMeansStanding(entries, code, i);
    forall l | IsLowest(entries, code, l, i) ensures live != [] && l == live[0] {
      OnlyOneLowest(entries, code, l, l, i);
      assert l in live;
      OnlyOneLowest(entries, code, l, live[0], i);
    }
    if live != [] { assert live[0] in live; }
  }

  /** The dictionary `resolved` after `entries`: one component per code with a
      live declaration, in the order of their lowest live declarations. */
  ghost predicate Resolves(dict: seq<ResolvedComponent>, entries: seq<Entry>) {
    && DistinctCodes(dict)
    && (forall code :: Get(dict, code) == Meaning(entries, code))
    && (forall p :: 0 <= p < |dict| ==> Live(entries, dict[p].code) != [])
    && (forall p, q :: 0 <= p < q < |dict| ==> Live(entries, dict[p].code)[0] < Live(entries, dict[q].code)[0])
  }

  // ---- one more declaration ------------------------------------------------

  lemma {:induction false} LivePrefix(entries: seq<Entry>, entry: Entry, code: string, n: nat)
    requires n <= |entries|
    requires entry.code != code || !entry.decl.disabled
    ensures LiveUpTo(entries + [entry], code, n) == LiveUpTo(entries, code, n)
  {
    if n > 0 {
      LivePrefix(entries, entry, code, n - 1);
      assert forall j :: 0 <= j < |entries| ==> (entries + [entry])[j] == entries[j];
      if entries[n - 1].code == code && IsLive(entries, n - 1) {
        assert IsLive(entries + [entry], n - 1);
      }
      if entries[n - 1].code == code && IsLive(entries + [entry], n - 1) {
        forall j | n - 1 < j < |entries| && entries[j].code == code
          ensures !entries[j].decl.disabled
        {
          assert (entries + [entry])[j] == entries[j];
        }
      }
    }
  }

  lemma {:induction false} LiveDisabled(entries: seq<Entry>, entry: Entry, n: nat)
    requires n <= |entries| + 1 && entry.decl.disabled
    ensures LiveUpTo(entries + [entry], entry.code, n) == []
  {
    if n > 0 {
      LiveDisabled(entries, entry, n - 1);
      assert (entries + [entry])[|entries|] == entry;
    }
  }

  lemma LiveStep(entries: seq<Entry>, entry: Entry, code: string)
    ensures Live(entries + [entry], code) ==
            if entry.code != code then Live(entries, code)
            else if entry.decl.disabled then []
            else Live(entries, code) + [|entries|]
  {
    var more := entries + [entry];
    assert more[|entries|] == entry;
    if entry.code == code && entry.decl.disabled {
      LiveDisabled(entries, entry, |more|);
    } else {
      LivePrefix(entries, entry, code, |entries|);
    }
  }

  lemma {:induction false} AssemblePrefix(entries: seq<Entry>, entry: Entry, code: string, live: seq<nat>)
    requires forall k :: 0 <= k < |live| ==> live[k] < |entries|
    ensures Overlay(entries + [entry], live) == Overlay(entries, live)
    ensures TopmostInputs(entries + [entry], live) == TopmostInputs(entries, live)
    ensures Citations(entries + [entry], live) == Citations(entries, live)
    ensures live != [] ==> Assemble(entries + [entry], code, live) == Assemble(entries, code, live)
  {
    if live != [] {
      AssemblePrefix(entries, entry, code, live[..|live| - 1]);
      assert (entries + [entry])[live[|live| - 1]] == entries[live[|live| - 1]];
      assert (entries + [entry])[live[0]] == entries[live[0]];
    }
  }

  lemma LayersStep(entries: seq<Entry>, entry: Entry, live: seq<nat>)
    requires forall k :: 0 <= k < |live| ==> live[k] < |entries|
    ensures var more, longer := entries + [entry], live + [|entries|];
            && Overlay(more, longer) == Overlay(entries, live) + entry.decl.parameters
            && TopmostInputs(more, longer) == (if entry.decl.inputsRequired != [] then entry.decl.inputsRequired else TopmostInputs(entries, live))
            && Citations(more, longer) == Citations(entries, live) + [CitationOf(entry)]
    ensures Overlay(entries, []) == map[] && TopmostInputs(entries, []) == [] && Citations(entries, []) == []
  {
    hide Assemble;
    var more, longer := entries + [entry], live + [|entries|];
    AssemblePrefix(entries, entry, entry.code, live);
    assert more[|entries|] == entry && longer[..|live|] == live;
  }

  lemma AssembleStep(entries: seq<Entry>, entry: Entry, live: seq<nat>)
    requires forall k :: 0 <= k < |live| ==> live[k] < |entries|
    ensures Assemble(entries + [entry], entry.code, live + [|entries|]) ==
            Merged(if live == [] then None else Some(Assemble(entries, entry.code, live)), entry)
  {
    hide Overlay, TopmostInputs, Citations;
    LayersStep(entries, entry, live);
    if live == [] {
      assert map[] + entry.decl.parameters == entry.decl.parameters;
      assert [] + [CitationOf(entry)] == [CitationOf(entry)];
    }
  }

  /** One more declaration, whether it conflicts or not. */
  lemma MeaningOfMore(entries: seq<Entry>, entry: Entry, code: string)
    ensures Meaning(entries + [entry], code) ==
            if entry.code != code then Meaning(entries, code)
            else if entry.decl.disabled then None
            else Some(Merged(Meaning(entries, code), entry))
  {
    hide Merged, Assemble, LiveUpTo;
    LiveStep(entries, entry, code);
    if entry.code != code {
      AssemblePrefix(entries, entry, code, Live(entries, code));
    } else if !entry.decl.disabled {
      AssembleStep(entries, entry, Live(entries, code));
    }
  }

  /** Merging is one step of the meaning. */
  lemma MeaningStep(entries: seq<Entry>, entry: Entry, code: string)
    requires !Overrides(Meaning(entries, entry.code), entry.decl) || entry.decl.disabled
    ensures entry.code != code ==> Meaning(entries + [entry], code) == Meaning(entries, code)
    ensures entry.code == code && entry.decl.disabled ==> Meaning(entries + [entry], code) == None
    ensures entry.code == code && !entry.decl.disabled ==>
              MergeComponent(Meaning(entries, code), entry).Ok? &&
              Meaning(entries + [entry], code) == Some(MergeComponent(Meaning(entries, code), entry).value)
  {
    hide Meaning, Merged, Overrides;
    MeaningOfMore(entries, entry, code);
  }

  // ---- dictionary facts ----------------------------------------------------

  lemma GetUnique(dict: seq<ResolvedComponent>, i: nat)
    requires DistinctCodes(dict) && i < |dict|
    ensures Find(dict, dict[i].code) == Some(i)
  {
  }

  lemma PutStep(dict: seq<ResolvedComponent>, comp: ResolvedComponent)
    requires DistinctCodes(dict)
    ensures DistinctCodes(Put(dict, comp))
    ensures forall code :: Get(Put(dict, comp), code) == if code == comp.code then Some(comp) else Get(dict, code)
  {
    var after := Put(dict, comp);
    forall code
      ensures Get(after, code) == if code == comp.code then Some(comp) else Get(dict, code)
    {
      match Find(dict, code) {
        case Some(i) =>
          assert after[i].code == code;
          GetUnique(after, i);
        case None =>
          if code == comp.code { GetUnique(after, |dict|); }
      }
    }
  }

  lemma PopShape(dict: seq<ResolvedComponent>, gone: string)
    ensures Find(dict, gone).None? ==> Pop(dict, gone) == dict
    ensures Find(dict, gone).Some? ==>
              var at, after := Find(dict, gone).value, Pop(dict, gone);
              |after| == |dict| - 1
              && (forall i :: 0 <= i < at ==> after[i] == dict[i])
              && (forall i :: at <= i < |after| ==> after[i] == dict[i + 1])
  {
    hide Find;
  }

  lemma PopGet(dict: seq<ResolvedComponent>, gone: string, code: string)
    requires DistinctCodes(dict)
    ensures Get(Pop(dict, gone), code) == if code == gone then None else Get(dict, code)
  {
    hide Pop;
    PopShape(dict, gone);
    var after := Pop(dict, gone);
    if Find(dict, gone).Some? {
      var at := Find(dict, gone).value;
      match Find(after, code) {
        case Some(i) => GetUnique(dict, if i < at then i else i + 1);
        case None =>
          assert forall i :: 0 <= i < |dict| && i != at ==> dict[i] == after[if i < at then i else i - 1];
      }
    }
  }

  lemma PopStep(dict: seq<ResolvedComponent>, gone: string)
    requires DistinctCodes(dict)
    ensures DistinctCodes(Pop(dict, gone))
    ensures forall code :: Get(Pop(dict, gone), code) == if code == gone then None else Get(dict, code)
  {
    hide Pop, Find, Get;
    forall p, q | 0 <= p < q < |Pop(dict, gone)| ensures Pop(dict, gone)[p].code != Pop(dict, gone)[q].code {
      var p', q' := PopIndex(dict, gone, p, q);
    }
    forall code ensures Get(Pop(dict, gone), code) == if code == gone then None else Get(dict, code) {
      PopGet(dict, gone, code);
    }
  }

  /** Popping keeps the order of what stays. */
  lemma PopIndex(dict: seq<ResolvedComponent>, gone: string, p: nat, q: nat) returns (p': nat, q': nat)
    requires DistinctCodes(dict) && p < q < |Pop(dict, gone)|
    ensures p' < q' < |dict|
    ensures Pop(dict, gone)[p] == dict[p'] && Pop(dict, gone)[q] == dict[q']
  {
    hide Pop, DistinctCodes;
    PopShape(dict, gone);
    match Find(dict, gone) {
      case None => p', q' := p, q;
      case Some(at) => p', q' := if p < at then p else p + 1, if q < at then q else q + 1;
    }
  }

  lemma ResolvesDisable(dict: seq<ResolvedComponent>, entries: seq<Entry>, entry: Entry)
    requires Resolves(dict, entries) && entry.decl.disabled
    ensures Resolves(Pop(dict, entry.code), entries + [entry])
  {
    hide Pop, Meaning, Live, Overrides;
    var after := Pop(dict, entry.code);
    PopStep(dict, entry.code);
    forall code ensures Get(after, code) == Meaning(entries + [entry], code) {
      MeaningStep(entries, entry, code);
    }
    forall p | 0 <= p < |after|
      ensures Live(entries + [entry], after[p].code) == Live(entries, after[p].code)
      ensures Live(entries + [entry], after[p].code) != []
    {
      GetUnique(after, p);
      assert Get(after, after[p].code).Some?;
      LiveStep(entries, entry, after[p].code);
      MeaningHasLive(entries, after[p].code);
    }
    forall p, q | 0 <= p < q < |after|
      ensures Live(entries + [entry], after[p].code)[0] < Live(entries + [entry], after[q].code)[0]
    {
      var p', q' := PopIndex(dict, entry.code, p, q);
    }
  }

  lemma MeaningHasLive(entries: seq<Entry>, code: string)
    ensures Meaning(entries, code).Some? <==> Live(entries, code) != []
  {
  }

  lemma PutKeepsOrder(dict: seq<ResolvedComponent>, entries: seq<Entry>, entry: Entry, comp: ResolvedComponent, p: nat)
    requires Resolves(dict, entries) && !entry.decl.disabled && comp.code == entry.code
    requires p < |Put(dict, comp)|
    ensures Live(entries + [entry], Put(dict, comp)[p].code) != []
    ensures Live(entries + [entry], Put(dict, comp)[p].code)[0] ==
            if p < |dict| then Live(entries, dict[p].code)[0] else |entries|
  {
    hide Meaning, Live;
    var after := Put(dict, comp);
    LiveStep(entries, entry, after[p].code);
    if p == |dict| {
      assert Get(dict, entry.code).None?;
      MeaningHasLive(entries, entry.code);
    } else {
      assert after[p].code == dict[p].code;
    }
  }

  lemma MergeLookup(dict: seq<ResolvedComponent>, entries: seq<Entry>, entry: Entry, comp: ResolvedComponent, code: string)
    requires DistinctCodes(dict) && !entry.decl.disabled && comp.code == entry.code
    requires Get(dict, code) == Meaning(entries, code) && Get(dict, entry.code) == Meaning(entries, entry.code)
    requires MergeComponent(Get(dict, entry.code), entry) == Ok(comp)
    ensures Get(Put(dict, comp), code) == Meaning(entries + [entry], code)
  {
    PutStep(dict, comp);
    MeaningStep(entries, entry, code);
  }

  lemma MergeOrder(dict: seq<ResolvedComponent>, entries: seq<Entry>, entry: Entry, comp: ResolvedComponent, p: nat, q: nat)
    requires Resolves(dict, entries) && !entry.decl.disabled && comp.code == entry.code
    requires p < q < |Put(dict, comp)|
    ensures Live(entries + [entry], Put(dict, comp)[p].code) != []
    ensures Live(entries + [entry], Put(dict, comp)[q].code) != []
    ensures Live(entries + [entry], Put(dict, comp)[p].code)[0] < Live(entries + [entry], Put(dict, comp)[q].code)[0]
  {
    PutKeepsOrder(dict, entries, entry, comp, p);
    PutKeepsOrder(dict, entries, entry, comp, q);
  }

  lemma ResolvesMerge(dict: seq<ResolvedComponent>, entries: seq<Entry>, entry: Entry, comp: ResolvedComponent)
    requires Resolves(dict, entries) && !entry.decl.disabled
    requires MergeComponent(Get(dict, entry.code), entry) == Ok(comp)
    ensures Resolves(Put(dict, comp), entries + [entry])
  {
    hide Get, Put, Meaning, Live, MergeComponent;
    var after := Put(dict, comp);
    MergedCode(dict, entries, entry, comp);
    PutStep(dict, comp);
    forall code ensures Get(after, code) == Meaning(entries + [entry], code) {
      MergeLookup(dict, entries, entry, comp, code);
    }
    forall p | 0 <= p < |after| ensures Live(entries + [entry], after[p].code) != [] {
      PutKeepsOrder(dict, entries, entry, comp, p);
    }
    forall p, q | 0 <= p < q < |after|
      ensures Live(entries + [entry], after[p].code)[0] < Live(entries + [entry], after[q].code)[0]
    {
      MergeOrder(dict, entries, entry, comp, p, q);
    }
  }

  lemma MergedCode(dict: seq<ResolvedComponent>, entries: seq<Entry>, entry: Entry, comp: ResolvedComponent)
    requires MergeComponent(Get(dict, entry.code), entry) == Ok(comp)
    ensures comp.code == entry.code
  {
  }

  // ---- the resolver --------------------------------------------------------

  function EntriesOf(doc: Document): seq<Entry> {
    seq(|doc.components|, i requires 0 <= i < |doc.components| =>
      Entry(doc.layer, doc.path, doc.components[i].0, doc.components[i].1))
  }

  function Flatten(layers: seq<Document>): seq<Entry> {
    if layers == [] then [] else Flatten(layers[..|layers| - 1]) + EntriesOf(layers[|layers| - 1])
  }

  /** The per-code specification of `resolve`: it fails exactly at the first
      declaration that overrides a locked component; otherwise every code means
      what its live declarations say. */
  ghost predicate IsResolution(layers: seq<Document>, r: Result<seq<ResolvedComponent>, ResolveError>) {
    var entries := Flatten(layers);
    match r
    case Ok(dict) => Resolves(dict, entries) && forall i :: 0 <= i < |entries| ==> !LockConflict(entries, i)
    case Err(e) =>
      exists i :: 0 <= i < |entries| && LockConflict(entries, i)
        && e == LockedComponentOverride(entries[i].code, entries[i].layer)
        && forall j :: 0 <= j < i ==> !LockConflict(entries, j)
  }

  lemma {:induction false} FlattenAt(layers: seq<Document>, l: nat, d: nat)
    requires l < |layers| && d <= |layers[l].components|
    ensures Flatten(layers[..l + 1]) == Flatten(layers[..l]) + EntriesOf(layers[l])
    ensures Flatten(layers[..l + 1]) <= Flatten(layers)
    ensures d < |layers[l].components| ==>
              var n := |Flatten(layers[..l])| + d;
              n < |Flatten(layers)| && Flatten(layers)[n] == EntriesOf(layers[l])[d]
              && EntriesOf(layers[l])[d] == Entry(layers[l].layer, layers[l].path, layers[l].components[d].0, layers[l].components[d].1)
  {
    assert layers[..l + 1][..l] == layers[..l];
    FlattenPrefix(layers, l + 1);
  }

  lemma {:induction false} FlattenPrefix(layers: seq<Document>, n: nat)
    requires n <= |layers|
    ensures Flatten(layers[..n]) <= Flatten(layers)
  {
    if n == |layers| {
      assert layers[..n] == layers;
    } else {
      FlattenPrefix(layers[..|layers| - 1], n);
      assert layers[..|layers| - 1][..n] == layers[..n];
    }
  }

  /** The first `n` declarations are folded and none of them conflicts. */
  ghost predicate Folded(dict: seq<ResolvedComponent>, entries: seq<Entry>, n: nat) {
    n <= |entries| && Resolves(dict, entries[..n]) && forall i :: 0 <= i < n ==> !LockConflict(entries, i)
  }

  lemma FoldDisable(dict: seq<ResolvedComponent>, entries: seq<Entry>, n: nat)
    requires Folded(dict, entries, n) && n < |entries| && entries[n].decl.disabled
    ensures Folded(Pop(dict, entries[n].code), entries, n + 1)
  {
    assert entries[..n + 1] == entries[..n] + [entries[n]];
    ResolvesDisable(dict, entries[..n], entries[n]);
  }

  lemma FoldMerge(dict: seq<ResolvedComponent>, entries: seq<Entry>, n: nat, comp: ResolvedComponent)
    requires Folded(dict, entries, n) && n < |entries| && !entries[n].decl.disabled
    requires MergeComponent(Get(dict, entries[n].code), entries[n]) == Ok(comp)
    ensures Folded(Put(dict, comp), entries, n + 1)
  {
    hide Resolves, Get, Put, Meaning;
    assert entries[..n + 1] == entries[..n] + [entries[n]];
    FoldedGet(dict, entries, n, entries[n].code);
    ResolvesMerge(dict, entries[..n], entries[n], comp);
    assert !LockConflict(entries, n);
  }

  lemma FoldConflict(dict: seq<ResolvedComponent>, layers: seq<Document>, n: nat)
    requires Folded(dict, Flatten(layers), n) && n < |Flatten(layers)| && !Flatten(layers)[n].decl.disabled
    requires MergeComponent(Get(dict, Flatten(layers)[n].code), Flatten(layers)[n]).Err?
    ensures IsResolution(layers, Err(MergeComponent(Get(dict, Flatten(layers)[n].code), Flatten(layers)[n]).error))
  {
    hide Resolves, Flatten, Get, Meaning;
    var entries := Flatten(layers);
    FoldedGet(dict, entries, n, entries[n].code);
    assert LockConflict(entries, n);
  }

  lemma FoldedGet(dict: seq<ResolvedComponent>, entries: seq<Entry>, n: nat, code: string)
    requires Folded(dict, entries, n)
    ensures Get(dict, code) == Meaning(entries[..n], code)
  {
    hide Get, Meaning;
  }

  lemma FoldDone(dict: seq<ResolvedComponent>, layers: seq<Document>)
    requires Folded(dict, Flatten(layers), |Flatten(layers)|)
    ensures IsResolution(layers, Ok(dict))
  {
    hide Resolves, Flatten;
    assert Flatten(layers)[..|Flatten(layers)|] == Flatten(layers);
  }

  /** Read off the declarations alone: nothing overrides a lock, or the first that does is
      named. */
  ghost predicate KeepsLocks(layers: seq<Document>, r: Result<seq<ResolvedComponent>, ResolveError>) {
    var entries := Flatten(layers);
    if r.Ok? then forall i :: !OverridesLock(entries, i)
    else exists i :: OverridesLock(entries, i) && (forall j :: j < i ==> !OverridesLock(entries, j))
                     && r.error == LockedComponentOverride(entries[i].code, entries[i].layer)
  }

  /** Resolving fails exactly at the first declaration that overrides a lock. */
  lemma ResolutionKeepsLocks(layers: seq<Document>, r: Result<seq<ResolvedComponent>, ResolveError>)
    requires IsResolution(layers, r)
    ensures KeepsLocks(layers, r)
  {
    hide Resolves, LockConflict, OverridesLock, Flatten;
    var entries := Flatten(layers);
    forall i ensures OverridesLock(entries, i) <==> 0 <= i < |entries| && LockConflict(entries, i) {
      OverridesInRange(entries, i);
      if 0 <= i < |entries| { ConflictIsOverride(entries, i); }
    }
  }

  lemma OverridesInRange(entries: seq<Entry>, i: int)
    ensures OverridesLock(entries, i) ==> 0 <= i < |entries|
  {
  }

  method Resolve(layers: seq<Document>) returns (r: Result<seq<ResolvedComponent>, ResolveError>)
    ensures IsResolution(layers, r) && KeepsLocks(layers, r)
  {
    hide IsResolution, KeepsLocks, Folded, MergeComponent, Get, Put, Pop;
    ghost var entries := Flatten(layers);
    ghost var n := 0;
    var resolved: seq<ResolvedComponent> := [];
    FoldNothing(entries);
    for l := 0 to |layers|
      invariant n == |Flatten(layers[..l])|
      invariant Folded(resolved, entries, n)
    {
      var doc := layers[l];
      FlattenAt(layers, l, 0);
      for d := 0 to |doc.components|
        invariant n == |Flatten(layers[..l])| + d
        invariant Folded(resolved, entries, n)
      {
        FlattenAt(layers, l, d);
        var entry := Entry(doc.layer, doc.path, doc.components[d].0, doc.components[d].1);
        if entry.decl.disabled {
          FoldDisable(resolved, entries, n);
          resolved := Pop(resolved, entry.code);
        } else {
          var merged := MergeComponent(Get(resolved, entry.code), entry);
          if merged.Err? {
            FoldConflict(resolved, layers, n);
            ResolutionKeepsLocks(layers, Err(merged.error));
            return Err(merged.error);
          }
          FoldMerge(resolved, entries, n, merged.value);
          resolved := Put(resolved, merged.value);
        }
        n := n + 1;
      }
    }
    assert layers[..|layers|] == layers;
    FoldDone(resolved, layers);
    ResolutionKeepsLocks(layers, Ok(resolved));
    return Ok(resolved);
  }

  lemma FoldNothing(entries: seq<Entry>)
    ensures Folded([], entries, 0)
  {
  }

  // ---- what the layers promise ---------------------------------------------

  ghost predicate SameRule(comp: ResolvedComponent, decl: ComponentDecl) {
    && comp.locked
    && comp.kind == decl.kind && comp.phase == decl.phase
    && comp.primitive == decl.primitive && comp.parameters == decl.parameters
  }

  lemma MergeKeepsLock(lower: ResolvedComponent, entry: Entry, decl: ComponentDecl)
    requires SameRule(lower, decl) && !Overrides(Some(lower), entry.decl)
    ensures SameRule(MergeComponent(Some(lower), entry).value, decl)
  {
    assert lower.parameters + map[] == lower.parameters;
  }

  /** A lock holds through every higher layer: as long as nothing conflicts, the
      component keeps the type, phase, primitive and parameters of its lowest
      live declaration. */
  lemma {:induction false} LockedComponentKeepsItsRule(entries: seq<Entry>, code: string, n: nat)
    requires n <= |entries| && forall i :: 0 <= i < n ==> !LockConflict(entries, i)
    requires Live(entries[..n], code) != [] && entries[Live(entries[..n], code)[0]].decl.locked
    ensures SameRule(Meaning(entries[..n], code).value, entries[Live(entries[..n], code)[0]].decl)
  {
    if n > 0 {
      var done, entry := entries[..n - 1], entries[n - 1];
      assert done + [entry] == entries[..n];
      assert !LockConflict(entries, n - 1);
      LiveStep(done, entry, code);
      if Live(done, code) != [] {
        LockedComponentKeepsItsRule(entries, code, n - 1);
        if entry.code == code {
          LockStep(done, entry, entries[Live(done, code)[0]].decl);
        } else {
          MeaningStep(done, entry, code);
        }
      } else {
        FirstRule(done, entry);
      }
    }
  }

  lemma LockStep(done: seq<Entry>, entry: Entry, decl: ComponentDecl)
    requires Meaning(done, entry.code).Some? && SameRule(Meaning(done, entry.code).value, decl)
    requires !entry.decl.disabled && !Overrides(Meaning(done, entry.code), entry.decl)
    ensures Meaning(done + [entry], entry.code).Some?
    ensures SameRule(Meaning(done + [entry], entry.code).value, decl)
  {
    MeaningStep(done, entry, entry.code);
    MergeKeepsLock(Meaning(done, entry.code).value, entry, decl);
  }

  lemma FirstRule(done: seq<Entry>, entry: Entry)
    requires Live(done, entry.code) == [] && !entry.decl.disabled && entry.decl.locked
    ensures Meaning(done + [entry], entry.code).Some?
    ensures SameRule(Meaning(done + [entry], entry.code).value, entry.decl)
  {
    MeaningStep(done, entry, entry.code);
  }

  /** The lock does not cover `inputs_required`: a higher layer that is let
      through keeps them exactly when it lists none or lists the same ones, and
      one that repeats the structure, sets no parameter and lists others is let
      through. */
  lemma LockLeavesInputsOpen(lower: ResolvedComponent, layer: Layer, path: string, decl: ComponentDecl)
    requires lower.locked
    ensures var merged := MergeComponent(Some(lower), Entry(layer, path, lower.code, decl));
            merged.Ok? ==> (merged.value.inputsRequired == lower.inputsRequired <==>
                            decl.inputsRequired == [] || decl.inputsRequired == lower.inputsRequired)
    ensures exists other: ComponentDecl ::
              var merged := MergeComponent(Some(lower), Entry(layer, path, lower.code, other));
              merged.Ok? && merged.value.inputsRequired != lower.inputsRequired
  {
    var other := decl.(kind := lower.kind, phase := lower.phase, primitive := lower.primitive,
                       parameters := map[], inputsRequired := lower.inputsRequired + ["another"]);
    var merged := MergeComponent(Some(lower), Entry(layer, path, lower.code, other));
    assert merged.Ok? && |merged.value.inputsRequired| == |lower.inputsRequired| + 1;
  }

  // ---- the citation the audit trail shows ----------------------------------

  function Priority(layer: Layer): nat {
    match layer
    case Statutory => 0
    case Cct => 1
    case Company => 2
    case Contract => 3
  }

  /** Raises nothing but for an empty chain; the audit shows what it returns. */
  method SelectPrimaryCitation(citations: seq<Citation>) returns (r: Option<Citation>)
    ensures r.None? <==> citations == []
    ensures r == PrimaryCitation(citations)
  {
    if citations == [] { return None; }
    var best := citations[0];
    for i := 1 to |citations|
      invariant Some(best) == PrimaryCitation(citations[..i])
    {
      assert citations[..i + 1][..i] == citations[..i];
      if Priority(citations[i].layer) > Priority(best.layer) { best := citations[i]; }
    }
    assert citations[..|citations|] == citations;
    return Some(best);
  }

  function PrimaryCitation(citations: seq<Citation>): Option<Citation> {
    if citations == [] then None
    else
      var last := citations[|citations| - 1];
      match PrimaryCitation(citations[..|citations| - 1])
      case None => Some(last)
      case Some(best) => if Priority(last.layer) > Priority(best.layer) then Some(last) else Some(best)
  }

  ghost predicate IsFirstHighest(citations: seq<Citation>, i: int) {
    && 0 <= i < |citations|
    && (forall j :: 0 <= j < |citations| ==> Priority(citations[j].layer) <= Priority(citations[i].layer))
    && (forall j :: 0 <= j < i ==> Priority(citations[j].layer) < Priority(citations[i].layer))
  }

  /** On ties the first of the highest layer wins, because `max` keeps the first of
      equals; the last one would win only if it is that one. */
  lemma {:induction false} PrimaryIsFirstOfHighest(citations: seq<Citation>, i: nat)
    requires IsFirstHighest(citations, i)
    ensures PrimaryCitation(citations) == Some(citations[i])
  {
    var n := |citations| - 1;
    var init := citations[..n];
    if i < n {
      PrimaryIsFirstOfHighest(init, i);
    } else if n > 0 {
      var best := FirstHighest(init);
      PrimaryIsFirstOfHighest(init, best);
    }
  }

  lemma {:induction false} FirstHighest(citations: seq<Citation>) returns (i: nat)
    requires citations != []
    ensures IsFirstHighest(citations, i)
  {
    var n := |citations| - 1;
    if n == 0 {
      i := 0;
    } else {
      i := FirstHighest(citations[..n]);
      if Priority(citations[n].layer) > Priority(citations[i].layer) { i := n; }
    }
  }

  /** Documents come lowest layer first, at most one per layer, and a document
      declares a code at most once. */
  ghost predicate IsStack(layers: seq<Document>) {
    && (forall i, j :: 0 <= i < j < |layers| ==> Priority(layers[i].layer) < Priority(layers[j].layer))
    && (forall l :: 0 <= l < |layers| ==> DeclaresOnce(layers[l]))
  }

  ghost predicate DeclaresOnce(doc: Document) {
    forall i, j :: 0 <= i < j < |doc.components| ==> doc.components[i].0 != doc.components[j].0
  }

  ghost predicate LayersRise(entries: seq<Entry>) {
    forall i, j :: 0 <= i < j < |entries| && entries[i].code == entries[j].code ==>
      Priority(entries[i].layer) < Priority(entries[j].layer)
  }

  lemma {:induction false} StackLayersRise(layers: seq<Document>)
    requires IsStack(layers)
    ensures LayersRise(Flatten(layers))
    ensures Priority(Statutory) < Priority(Cct) < Priority(Company) < Priority(Contract)
    ensures forall e :: e in Flatten(layers) ==> exists l :: 0 <= l < |layers| && layers[l].layer == e.layer
  {
    if layers != [] {
      var last := layers[|layers| - 1];
      var rest := layers[..|layers| - 1];
      StackLayersRise(rest);
      assert DeclaresOnce(last);
      var low := Flatten(rest);
      var all := low + EntriesOf(last);
      forall i, j | 0 <= i < j < |all| && all[i].code == all[j].code
        ensures Priority(all[i].layer) < Priority(all[j].layer)
      {
        if i < |low| <= j {
          assert all[i] in low;
          var l :| 0 <= l < |rest| && rest[l].layer == all[i].layer;
          assert layers[l].layer == all[i].layer;
        }
      }
      forall e | e in all ensures exists l :: 0 <= l < |layers| && layers[l].layer == e.layer {
        if e in low {
          var l :| 0 <= l < |rest| && rest[l].layer == e.layer;
          assert layers[l].layer == e.layer;
        } else {
          assert layers[|layers| - 1].layer == e.layer;
        }
      }
    }
  }

  lemma {:induction false} PrimaryIsLastWhenRising(citations: seq<Citation>)
    requires citations != []
    requires forall i, j :: 0 <= i < j < |citations| ==> Priority(citations[i].layer) < Priority(citations[j].layer)
    ensures PrimaryCitation(citations) == Some(citations[|citations| - 1])
  {
    if |citations| > 1 {
      PrimaryIsLastWhenRising(citations[..|citations| - 1]);
    }
  }

  /** The audited citation of a resolved component names the topmost document
      that still contributes to it. */
  lemma AuditCitesTopmostLayer(layers: seq<Document>, code: string)
    requires IsStack(layers) && Meaning(Flatten(layers), code).Some?
    ensures var entries := Flatten(layers);
            var live := Live(entries, code);
            live != [] &&
            PrimaryCitation(Meaning(entries, code).value.citations) == Some(CitationOf(entries[live[|live| - 1]]))
  {
    hide Flatten, LiveUpTo, IsStack, PrimaryCitation, Overlay, TopmostInputs;
    StackLayersRise(layers);
    PrimaryIsLastWhenRising(Meaning(Flatten(layers), code).value.citations);
  }
}
