/** What a resolved component is, declaration by declaration. */
module PayrollMeaning {
  import opened Wrappers
  import opened PayrollRules

  /** The declarations at these positions, lowest first. */
  ghost predicate ArePositions(entries: seq<Entry>, at: seq<nat>) {
    forall k :: 0 <= k < |at| ==> at[k] < |entries|
  }

  ghost predicate Sets(entries: seq<Entry>, at: seq<nat>, k: int, key: string) {
    0 <= k < |at| && at[k] < |entries| && key in entries[at[k]].decl.parameters
  }

  /** Of the declarations at these positions, the topmost to set the parameter is `k`. */
  ghost predicate SetsLast(entries: seq<Entry>, at: seq<nat>, k: int, key: string) {
    Sets(entries, at, k, key) && forall m :: k < m ==> !Sets(entries, at, m, key)
  }

  ghost predicate Lists(entries: seq<Entry>, at: seq<nat>, k: int) {
    0 <= k < |at| && at[k] < |entries| && entries[at[k]].decl.inputsRequired != []
  }

  ghost predicate ListsLast(entries: seq<Entry>, at: seq<nat>, k: int) {
    Lists(entries, at, k) && forall m :: k < m ==> !Lists(entries, at, m)
  }

  /** The parameter is there exactly when some declaration sets it, and then as the
      topmost of them has it. */
  ghost predicate TakesLast(entries: seq<Entry>, at: seq<nat>, parameters: map<string, Parameter>, key: string) {
    && (key in parameters <==> exists k :: Sets(entries, at, k, key))
    && (forall k :: SetsLast(entries, at, k, key) ==> key in parameters && parameters[key] == entries[at[k]].decl.parameters[key])
  }

  /** The inputs are those of the topmost declaration that lists any. */
  ghost predicate TakesInputs(entries: seq<Entry>, at: seq<nat>, inputs: seq<string>) {
    && (forall k :: ListsLast(entries, at, k) ==> inputs == entries[at[k]].decl.inputsRequired)
    && ((forall k :: !Lists(entries, at, k)) ==> inputs == [])
  }

  /** One more position on top. */
  lemma SetsStep(entries: seq<Entry>, at: seq<nat>, k: int, key: string)
    requires at != [] && ArePositions(entries, at)
    ensures var n := |at| - 1;
            && (Sets(entries, at, n, key) <==> key in entries[at[n]].decl.parameters)
            && (SetsLast(entries, at, n, key) <==> Sets(entries, at, n, key))
            && (k != n ==> (Sets(entries, at[..n], k, key) <==> Sets(entries, at, k, key)))
            && (k != n && SetsLast(entries, at, k, key) ==>
                  !Sets(entries, at, n, key) && SetsLast(entries, at[..n], k, key) && at[..n][k] == at[k])
  {
    var n := |at| - 1;
    assert forall m :: m < n ==> (Sets(entries, at[..n], m, key) <==> Sets(entries, at, m, key));
  }

  lemma {:induction false} OverlaySays(entries: seq<Entry>, at: seq<nat>, key: string)
    requires ArePositions(entries, at)
    ensures TakesLast(entries, at, Overlay(entries, at), key)
  {
    if at != [] {
      var n := |at| - 1;
      OverlaySays(entries, at[..n], key);
      forall k
        ensures k != n ==> (Sets(entries, at[..n], k, key) <==> Sets(entries, at, k, key))
        ensures k != n && SetsLast(entries, at, k, key) ==>
                  !Sets(entries, at, n, key) && SetsLast(entries, at[..n], k, key) && at[..n][k] == at[k]
      {
        SetsStep(entries, at, k, key);
      }
      SetsStep(entries, at, n, key);
      hide SetsLast;
      assert !Sets(entries, at[..n], n, key);
    }
  }

  lemma {:induction false} InputsSay(entries: seq<Entry>, at: seq<nat>)
    requires ArePositions(entries, at)
    ensures TakesInputs(entries, at, TopmostInputs(entries, at))
  {
    if at != [] {
      var n := |at| - 1;
      var init := at[..n];
      InputsSay(entries, init);
      forall k | k < n ensures Lists(entries, init, k) <==> Lists(entries, at, k) {}
      if Lists(entries, at, n) {
        forall k | ListsLast(entries, at, k) ensures k == n {}
      } else {
        forall k | ListsLast(entries, at, k) ensures ListsLast(entries, init, k) && init[k] == at[k] {}
      }
    }
  }

  /** Structure and flags of the lowest declaration, each parameter from the topmost that
      sets it, inputs from the topmost that lists any, and a citation for each, lowest
      first. */
  ghost predicate IsMadeOf(entries: seq<Entry>, at: seq<nat>, comp: ResolvedComponent) {
    && at != [] && ArePositions(entries, at)
    && HasStructure(comp, entries[at[0]].decl)
    && (forall key :: TakesLast(entries, at, comp.parameters, key))
    && TakesInputs(entries, at, comp.inputsRequired) && CitesAll(entries, at, comp.citations)
  }

  ghost predicate HasStructure(comp: ResolvedComponent, decl: ComponentDecl) {
    && comp.kind == decl.kind && comp.phase == decl.phase && comp.primitive == decl.primitive
    && comp.taxable == decl.taxable && comp.subjectToTsu == decl.subjectToTsu && comp.locked == decl.locked
  }

  ghost predicate CitesAll(entries: seq<Entry>, at: seq<nat>, citations: seq<Citation>)
    requires ArePositions(entries, at)
  {
    && |citations| == |at|
    && forall k :: 0 <= k < |at| ==>
         && citations[k].documentPath == entries[at[k]].path && citations[k].layer == entries[at[k]].layer
         && citations[k].componentCode == entries[at[k]].code
  }

  /** The positions are those of the declarations of the code that stand, in order. */
  ghost predicate AreStanding(entries: seq<Entry>, code: string, at: seq<nat>) {
    && (forall i :: i in at <==> Stands(entries, code, i, |entries|))
    && (forall k, l :: 0 <= k < l < |at| ==> at[k] < at[l])
  }

  lemma AssembledIsMade(entries: seq<Entry>, code: string, at: seq<nat>)
    requires at != [] && ArePositions(entries, at)
    ensures IsMadeOf(entries, at, Assemble(entries, code, at)) && Assemble(entries, code, at).code == code
  {
    hide Overlay, TopmostInputs, TakesLast, TakesInputs;
    forall key ensures TakesLast(entries, at, Overlay(entries, at), key) { OverlaySays(entries, at, key); }
    InputsSay(entries, at);
  }

  /** Main result: a code has a meaning exactly when one of its declarations stands, and
      then it is what those declarations say. */
  lemma MeaningSays(entries: seq<Entry>, code: string) returns (standing: seq<nat>)
    ensures AreStanding(entries, code, standing)
    ensures Meaning(entries, code).None? <==> standing == []
    ensures Meaning(entries, code).Some? ==> IsMadeOf(entries, standing, Meaning(entries, code).value) && Meaning(entries, code).value.code == code
  {
    hide IsMadeOf, Stands, LiveUpTo, Assemble, IsLowest;
    standing := Live(entries, code);
    assert entries[..|entries|] == entries;
    LiveMeansStanding(entries, code, |entries|);
    LiveInRange(entries, code);
    if standing != [] { AssembledIsMade(entries, code, standing); }
  }

  lemma LiveInRange(entries: seq<Entry>, code: string)
    ensures ArePositions(entries, Live(entries, code))
    ensures forall k, l :: 0 <= k < l < |Live(entries, code)| ==> Live(entries, code)[k] < Live(entries, code)[l]
  {
  }
}
