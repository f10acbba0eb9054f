/** From resolved components to a calculation plan: checks, a depth-first
    topological sort inside each phase, and step numbering. */
module PayrollPlan {
  import opened Wrappers
  import opened PayrollRules
  import opened PayrollRounding

  // ---- the dependency graph of one phase -----------------------------------

  type Graph = map<string, ResolvedComponent>

  ghost predicate Keyed(graph: Graph) {
    forall code :: code in graph ==> graph[code].code == code
  }

  ghost predicate DependsOn(graph: Graph, a: string, b: string) {
    a in graph && b in graph && b in graph[a].inputsRequired
  }

  /** A walk along dependencies, dependents first. */
  ghost predicate IsWalk(graph: Graph, walk: seq<string>) {
    walk != [] && walk[0] in graph && forall i :: 0 <= i < |walk| - 1 ==> DependsOn(graph, walk[i], walk[i + 1])
  }

  ghost predicate IsCycle(graph: Graph, walk: seq<string>) {
    IsWalk(graph, walk) && |walk| > 1 && walk[0] == walk[|walk| - 1]
  }

  /** A walk that ends where it has been: what the cycle error reports. */
  ghost predicate RunsIntoItself(graph: Graph, walk: seq<string>) {
    IsWalk(graph, walk) && walk[|walk| - 1] in walk[..|walk| - 1]
  }

  ghost predicate HasCycle(graph: Graph) {
    exists walk :: IsCycle(graph, walk)
  }

  ghost predicate Reaches(graph: Graph, a: string, b: string) {
    exists walk :: IsWalk(graph, walk) && walk[0] == a && walk[|walk| - 1] == b
  }

  ghost predicate DependenciesFirst(graph: Graph, ordered: seq<ResolvedComponent>) {
    forall i, dep :: 0 <= i < |ordered| && dep in ordered[i].inputsRequired && dep in graph ==>
      exists j :: 0 <= j < i && ordered[j].code == dep
  }

  lemma {:induction false} ReachesTrans(graph: Graph, a: string, b: string, c: string)
    requires DependsOn(graph, a, b) && Reaches(graph, b, c)
    ensures Reaches(graph, a, c)
  {
    var walk :| IsWalk(graph, walk) && walk[0] == b && walk[|walk| - 1] == c;
    var longer := [a] + walk;
    forall i | 0 <= i < |longer| - 1 ensures DependsOn(graph, longer[i], longer[i + 1]) {
      if i > 0 { assert DependsOn(graph, walk[i - 1], walk[i]); }
    }
    assert IsWalk(graph, longer);
  }

  lemma ReachesSelf(graph: Graph, a: string)
    requires a in graph
    ensures Reaches(graph, a, a)
  {
    assert IsWalk(graph, [a]);
  }

  lemma WalkClosed(graph: Graph, stack: seq<string>, code: string)
    requires IsWalk(graph, stack + [code]) && code in stack
    ensures HasCycle(graph) && RunsIntoItself(graph, stack + [code])
  {
    var walk := stack + [code];
    assert walk[..|stack|] == stack;
    var i :| 0 <= i < |stack| && stack[i] == code;
    var cycle := walk[i..];
    forall k | 0 <= k < |cycle| - 1 ensures DependsOn(graph, cycle[k], cycle[k + 1]) {
      assert DependsOn(graph, walk[i + k], walk[i + k + 1]);
    }
    if i > 0 { assert DependsOn(graph, walk[i - 1], walk[i]); }
    assert IsCycle(graph, cycle);
  }

  // ---- the sorter ----------------------------------------------------------

  ghost function Codes(components: seq<ResolvedComponent>): set<string> {
    set i | 0 <= i < |components| :: components[i].code
  }

  /** `by_code`. */
  function GraphOf(components: seq<ResolvedComponent>): (graph: Graph)
    requires DistinctCodes(components)
    ensures Keyed(graph) && graph.Keys == Codes(components)
    ensures forall i :: 0 <= i < |components| ==> components[i].code in graph && graph[components[i].code] == components[i]
  {
    map i | 0 <= i < |components| :: components[i].code := components[i]
  }

  /** No component whose dependencies are being visited has been emitted. */
  ghost predicate Clear(stack: seq<string>, visited: set<string>) {
    forall i :: 0 <= i < |stack| ==> stack[i] !in visited
  }

  ghost predicate AllReached(graph: Graph, code: string, codes: set<string>) {
    forall x :: x in codes ==> Reaches(graph, code, x)
  }

  /** The first `n` inputs that exist in the phase have been emitted. */
  ghost predicate Ready(graph: Graph, c: ResolvedComponent, n: nat, visited: set<string>)
    requires n <= |c.inputsRequired|
  {
    forall e :: 0 <= e < n && c.inputsRequired[e] in graph ==> c.inputsRequired[e] in visited
  }

  /** `ordered` lists phase components, each once and after its dependencies. */
  ghost predicate IsOrdering(graph: Graph, ordered: seq<ResolvedComponent>) {
    && DistinctCodes(ordered)
    && (forall i :: 0 <= i < |ordered| ==> ordered[i].code in graph && graph[ordered[i].code] == ordered[i])
    && DependenciesFirst(graph, ordered)
  }

  ghost predicate IsSimple(stack: seq<string>, codes: set<string>) {
    && (forall i, j :: 0 <= i < j < |stack| ==> stack[i] != stack[j])
    && (forall i :: 0 <= i < |stack| ==> stack[i] in codes)
  }

  /** Depth-first post-order, without the shared state: what has come out after
      `code` and all it needs, or nothing when it needs itself. `above` holds the
      components still waiting for their dependencies. */
  ghost function PostOrder(graph: Graph, code: string, above: set<string>, done: seq<ResolvedComponent>): Option<seq<ResolvedComponent>>
    decreases graph.Keys - above, 0
  {
    if code in Codes(done) then Some(done)
    else if code in above || code !in graph then None
    else
      assert graph.Keys - (above + {code}) < graph.Keys - above by { assert code in graph.Keys - above; }
      match PostOrderAll(graph, graph[code].inputsRequired, above + {code}, done)
      case None => None
      case Some(after) => Some(after + [graph[code]])
  }

  /** One after the other; codes outside the phase are passed over. */
  ghost function PostOrderAll(graph: Graph, codes: seq<string>, above: set<string>, done: seq<ResolvedComponent>):
    Option<seq<ResolvedComponent>>
    decreases graph.Keys - above, |codes| + 1
  {
    if codes == [] then Some(done)
    else
      var last := codes[|codes| - 1];
      match PostOrderAll(graph, codes[..|codes| - 1], above, done)
      case None => None
      case Some(after) => if last in graph then PostOrder(graph, last, above, after) else Some(after)
  }

  lemma PostOrderStep(graph: Graph, codes: seq<string>, d: nat, above: set<string>, done: seq<ResolvedComponent>)
    requires d < |codes|
    ensures PostOrderAll(graph, codes[..d + 1], above, done) ==
            match PostOrderAll(graph, codes[..d], above, done)
            case None => None
            case Some(after) => if codes[d] in graph then PostOrder(graph, codes[d], above, after) else Some(after)
  {
    assert codes[..d + 1][..d] == codes[..d];
  }

  lemma {:induction false} PostOrderFails(graph: Graph, codes: seq<string>, d: nat, above: set<string>, done: seq<ResolvedComponent>)
    requires d <= |codes| && PostOrderAll(graph, codes[..d], above, done).None?
    ensures PostOrderAll(graph, codes, above, done).None?
  {
    if d == |codes| {
      assert codes[..d] == codes;
    } else {
      assert codes[..|codes| - 1][..d] == codes[..d];
      PostOrderFails(graph, codes[..|codes| - 1], d, above, done);
    }
  }

  lemma PostOrderDone(graph: Graph, c: ResolvedComponent, above: set<string>, done: seq<ResolvedComponent>)
    requires c.code in graph && graph[c.code] == c && c.code !in Codes(done) && c.code !in above
    ensures PostOrder(graph, c.code, above, done) ==
            match PostOrderAll(graph, c.inputsRequired, above + {c.code}, done)
            case None => None
            case Some(after) => Some(after + [c])
  {
  }

  lemma PostOrderAtOnce(graph: Graph, code: string, above: set<string>, done: seq<ResolvedComponent>)
    ensures code in Codes(done) ==> PostOrder(graph, code, above, done) == Some(done)
    ensures code !in Codes(done) && code in above ==> PostOrder(graph, code, above, done) == None
    ensures PostOrderAll(graph, [], above, done) == Some(done)
  {
  }

  lemma ElementsPush(stack: seq<string>, code: string)
    ensures Elements(stack + [code]) == Elements(stack) + {code}
    ensures code in stack <==> code in Elements(stack)
  {
    var pushed := stack + [code];
    forall x | x in Elements(stack) ensures x in Elements(pushed) {
      var i :| 0 <= i < |stack| && stack[i] == x;
      assert pushed[i] == x;
    }
    assert pushed[|stack|] == code;
  }

  /** The closure variables of `_topological_sort`: `by_code`, `visited` and
      `ordered`. */
  class TopologicalSorter {
    const byCode: Graph
    var visited: set<string>
    var ordered: seq<ResolvedComponent>

    ghost predicate Valid()
      reads this
    {
      Keyed(byCode) && visited == Codes(ordered) && IsOrdering(byCode, ordered)
    }

    constructor (components: seq<ResolvedComponent>)
      requires DistinctCodes(components)
      ensures Valid() && ordered == [] && byCode == GraphOf(components)
    {
      byCode := GraphOf(components);
      visited := {};
      ordered := [];
    }

    /** `stack` holds the components whose dependencies are being visited. */
    method Visit(c: ResolvedComponent, stack: seq<string>) returns (cycle: Option<seq<string>>)
      requires Valid() && c.code in byCode && byCode[c.code] == c
      requires IsWalk(byCode, stack + [c.code]) && IsSimple(stack, byCode.Keys) && Clear(stack, visited)
      modifies this`visited, this`ordered
      decreases |byCode.Keys| - |stack|
      ensures Valid() && Clear(stack, visited)
      ensures PostOrder(byCode, c.code, Elements(stack), old(ordered)) == if cycle.None? then Some(ordered) else None
      ensures cycle.Some? ==> HasCycle(byCode) && RunsIntoItself(byCode, cycle.value)
      ensures old(ordered) <= ordered
      ensures cycle.None? ==> c.code in visited && AllReached(byCode, c.code, visited - old(visited))
      ensures c.code in old(visited) ==> cycle.None? && ordered == old(ordered)
      ensures c.code !in stack && c.code !in old(visited) && Ready(byCode, c, |c.inputsRequired|, old(visited)) ==>
              cycle.None? && ordered == old(ordered) + [c]
    {
      hide IsOrdering, IsWalk, IsSimple, AllReached, Codes, Clear, Ready, HasCycle, Reaches, RunsIntoItself,
           PostOrder, PostOrderAll, Elements;
      PostOrderAtOnce(byCode, c.code, Elements(stack), ordered);
      ElementsPush(stack, c.code);
      if c.code in visited {
        ReachedNone(byCode, c.code, visited - old(visited));
        return None;
      }
      if c.code in stack {
        WalkClosed(byCode, stack, c.code);
        return Some(stack + [c.code]);
      }
      PushFits(byCode.Keys, stack, c.code);
      PushClear(stack, c.code, visited);
      ReachedNone(byCode, c.code, visited - old(visited));
      ReadyNone(byCode, c, visited);
      PostOrderDone(byCode, c, Elements(stack), ordered);
      PostOrderAtOnce(byCode, c.code, Elements(stack + [c.code]), ordered);
      assert c.inputsRequired[..0] == [];
      for d := 0 to |c.inputsRequired|
        invariant Valid() && Clear(stack + [c.code], visited)
        invariant old(ordered) <= ordered && old(visited) <= visited
        invariant Ready(byCode, c, d, visited)
        invariant AllReached(byCode, c.code, visited - old(visited))
        invariant PostOrderAll(byCode, c.inputsRequired[..d], Elements(stack + [c.code]), old(ordered)) == Some(ordered)
        invariant Ready(byCode, c, d, old(visited)) ==> ordered == old(ordered)
      {
        var dep := c.inputsRequired[d];
        ghost var before := visited;
        PostOrderStep(byCode, c.inputsRequired, d, Elements(stack + [c.code]), old(ordered));
        if dep in byCode {
          WalkExtends(byCode, stack, c.code, dep);
          ghost var soFar := ordered;
          if Ready(byCode, c, |c.inputsRequired|, old(visited)) { ReadyAt(byCode, c, d, old(visited)); }
          var found := Visit(byCode[dep], stack + [c.code]);
          CodesGrow(soFar, ordered);
          if found.Some? {
            PushClear(stack, c.code, visited);
            PostOrderFails(byCode, c.inputsRequired, d + 1, Elements(stack + [c.code]), old(ordered));
            return found;
          }
          ReachThrough(byCode, c.code, dep, before - old(visited), visited - before, visited - old(visited));
        }
        ReadyStep(byCode, c, d, before, visited);
        ReadyStep(byCode, c, d, old(visited), old(visited));
      }
      PushClear(stack, c.code, visited);
      ClearAdd(stack, c.code, visited);
      assert c.inputsRequired[..|c.inputsRequired|] == c.inputsRequired;
      ReachSelfToo(byCode, c.code, visited - old(visited), visited + {c.code} - old(visited));
      AppendKeepsOrder(byCode, ordered, c, visited);
      visited := visited + {c.code};
      ordered := ordered + [c];
      return None;
    }
  }

  lemma ReachedNone(graph: Graph, code: string, codes: set<string>)
    requires codes == {}
    ensures AllReached(graph, code, codes)
  {
  }

  lemma ReachSelfToo(graph: Graph, code: string, early: set<string>, all: set<string>)
    requires AllReached(graph, code, early) && code in graph && all <= early + {code}
    ensures AllReached(graph, code, all)
  {
    ReachesSelf(graph, code);
  }

  lemma PushClear(stack: seq<string>, code: string, visited: set<string>)
    ensures Clear(stack + [code], visited) <==> code !in visited && Clear(stack, visited)
  {
    var pushed := stack + [code];
    assert pushed[|stack|] == code;
    assert forall i :: 0 <= i < |stack| ==> pushed[i] == stack[i];
  }

  lemma ClearAdd(stack: seq<string>, code: string, visited: set<string>)
    requires Clear(stack, visited) && code !in stack
    ensures Clear(stack, visited + {code})
  {
  }

  lemma ReadyAt(graph: Graph, c: ResolvedComponent, d: nat, visited: set<string>)
    requires d < |c.inputsRequired| && Ready(graph, c, |c.inputsRequired|, visited) && c.inputsRequired[d] in graph
    ensures c.inputsRequired[d] in visited
  {
  }

  lemma ReadyNone(graph: Graph, c: ResolvedComponent, visited: set<string>)
    ensures Ready(graph, c, 0, visited)
  {
  }

  /** One more input of `c` has been looked at. */
  lemma ReadyStep(graph: Graph, c: ResolvedComponent, d: nat, before: set<string>, after: set<string>)
    requires d < |c.inputsRequired| && before <= after
    ensures Ready(graph, c, d, before) && (c.inputsRequired[d] in graph ==> c.inputsRequired[d] in after) ==>
              Ready(graph, c, d + 1, after)
    ensures Ready(graph, c, d + 1, before) ==>
              Ready(graph, c, d, before) && (c.inputsRequired[d] in graph ==> c.inputsRequired[d] in before)
  {
  }

  lemma CodesGrow(small: seq<ResolvedComponent>, big: seq<ResolvedComponent>)
    requires small <= big
    ensures Codes(small) <= Codes(big)
  {
    forall code | code in Codes(small) ensures code in Codes(big) {
      var i :| 0 <= i < |small| && small[i].code == code;
      assert big[i].code == code;
    }
  }

  lemma ReachThrough(graph: Graph, code: string, dep: string, early: set<string>, late: set<string>, all: set<string>)
    requires AllReached(graph, code, early) && AllReached(graph, dep, late) && DependsOn(graph, code, dep)
    requires all <= early + late
    ensures AllReached(graph, code, all)
  {
    forall x | x in all ensures Reaches(graph, code, x) {
      if x in late { ReachesTrans(graph, code, dep, x); }
    }
  }

  ghost function Elements(stack: seq<string>): set<string> {
    set i | 0 <= i < |stack| :: stack[i]
  }

  lemma PushFits(codes: set<string>, stack: seq<string>, code: string)
    requires IsSimple(stack, codes) && code in codes && code !in stack
    ensures IsSimple(stack + [code], codes)
    ensures |stack| < |codes|
  {
    SimpleSize(stack + [code]);
    assert forall x :: x in Elements(stack + [code]) ==> x in codes;
    SubsetSize(Elements(stack + [code]), codes);
  }

  lemma {:induction false} SimpleSize(stack: seq<string>)
    requires forall i, j :: 0 <= i < j < |stack| ==> stack[i] != stack[j]
    ensures |Elements(stack)| == |stack|
  {
    if stack != [] {
      var rest, last := stack[..|stack| - 1], stack[|stack| - 1];
      SimpleSize(rest);
      assert Elements(stack) == Elements(rest) + {last};
    }
  }

  lemma {:induction false} SubsetSize(small: set<string>, big: set<string>)
    requires small <= big
    ensures |small| <= |big|
  {
    if small != {} {
      var x :| x in small;
      SubsetSize(small - {x}, big - {x});
    }
  }

  lemma WalkExtends(graph: Graph, stack: seq<string>, code: string, dep: string)
    requires IsWalk(graph, stack + [code]) && DependsOn(graph, code, dep)
    ensures IsWalk(graph, stack + [code] + [dep])
  {
    var walk := stack + [code] + [dep];
    forall i | 0 <= i < |walk| - 1 ensures DependsOn(graph, walk[i], walk[i + 1]) {
      if i < |stack| { assert DependsOn(graph, (stack + [code])[i], (stack + [code])[i + 1]); }
    }
  }

  lemma CodesAppend(ordered: seq<ResolvedComponent>, c: ResolvedComponent)
    ensures Codes(ordered + [c]) == Codes(ordered) + {c.code}
  {
    var more := ordered + [c];
    CodesGrow(ordered, more);
    assert more[|ordered|] == c;
    forall code | code in Codes(more) ensures code in Codes(ordered) + {c.code} {
      var i :| 0 <= i < |more| && more[i].code == code;
      if i < |ordered| { assert ordered[i].code == code; }
    }
  }

  lemma AppendKeepsOrder(graph: Graph, ordered: seq<ResolvedComponent>, c: ResolvedComponent, visited: set<string>)
    requires visited == Codes(ordered) && c.code !in visited && c.code in graph && graph[c.code] == c
    requires IsOrdering(graph, ordered) && Ready(graph, c, |c.inputsRequired|, visited)
    ensures visited + {c.code} == Codes(ordered + [c])
    ensures IsOrdering(graph, ordered + [c])
  {
    hide Codes, Ready;
    CodesAppend(ordered, c);
    AppendKeepsDistinct(graph, ordered, c);
    forall i, dep | 0 <= i <= |ordered| && dep in (ordered + [c])[i].inputsRequired && dep in graph
      ensures exists j :: 0 <= j < i && (ordered + [c])[j].code == dep
    {
      var j := AppendedDependency(graph, ordered, c, i, dep);
    }
  }

  lemma AppendKeepsDistinct(graph: Graph, ordered: seq<ResolvedComponent>, c: ResolvedComponent)
    requires c.code !in Codes(ordered) && c.code in graph && graph[c.code] == c && IsOrdering(graph, ordered)
    ensures DistinctCodes(ordered + [c])
    ensures forall i :: 0 <= i <= |ordered| ==> (ordered + [c])[i].code in graph && graph[(ordered + [c])[i].code] == (ordered + [c])[i]
  {
    hide DependenciesFirst;
    assert forall i :: 0 <= i < |ordered| ==> ordered[i].code in Codes(ordered);
  }

  lemma AppendedDependency(graph: Graph, ordered: seq<ResolvedComponent>, c: ResolvedComponent, i: nat, dep: string) returns (j: nat)
    requires DependenciesFirst(graph, ordered) && Ready(graph, c, |c.inputsRequired|, Codes(ordered))
    requires i <= |ordered| && dep in (ordered + [c])[i].inputsRequired && dep in graph
    ensures j < i && (ordered + [c])[j].code == dep
  {
    hide Codes, Ready;
    if i < |ordered| {
      j :| 0 <= j < i && ordered[j].code == dep;
    } else {
      AppendedIsReady(graph, ordered, c, dep);
      j :| 0 <= j < |ordered| && ordered[j].code == dep;
    }
  }

  lemma AppendedIsReady(graph: Graph, ordered: seq<ResolvedComponent>, c: ResolvedComponent, dep: string)
    requires Ready(graph, c, |c.inputsRequired|, Codes(ordered)) && dep in c.inputsRequired && dep in graph
    ensures exists j :: 0 <= j < |ordered| && ordered[j].code == dep
  {
    var e :| 0 <= e < |c.inputsRequired| && c.inputsRequired[e] == dep;
    assert dep in Codes(ordered);
  }

  // ---- sorting one phase ---------------------------------------------------

  ghost predicate NeededBy(graph: Graph, components: seq<ResolvedComponent>, codes: set<string>) {
    forall x :: x in codes ==> NeededByOne(graph, components, x)
  }

  ghost predicate NeededByOne(graph: Graph, components: seq<ResolvedComponent>, code: string) {
    exists j :: 0 <= j < |components| && Reaches(graph, components[j].code, code)
  }

  /** Up to the point where `components[i]` comes out, the output holds only what
      the components declared up to `i` need. */
  ghost predicate OnDemand(graph: Graph, components: seq<ResolvedComponent>, ordered: seq<ResolvedComponent>, upTo: nat)
    requires upTo <= |components|
  {
    forall i :: 0 <= i < upTo ==> OnDemandAt(graph, components, ordered, i)
  }

  ghost predicate OnDemandAt(graph: Graph, components: seq<ResolvedComponent>, ordered: seq<ResolvedComponent>, i: nat)
    requires i < |components|
  {
    exists n: nat :: n <= |ordered| && components[i].code in Codes(ordered[..n])
      && NeededBy(graph, components[..i + 1], Codes(ordered[..n]))
  }

  lemma OnDemandStep(graph: Graph, components: seq<ResolvedComponent>, i: nat,
                     before: seq<ResolvedComponent>, after: seq<ResolvedComponent>)
    requires i < |components| && before <= after
    requires OnDemand(graph, components, before, i) && NeededBy(graph, components[..i], Codes(before))
    requires components[i].code in Codes(after)
    requires AllReached(graph, components[i].code, Codes(after) - Codes(before))
    ensures OnDemand(graph, components, after, i + 1) && NeededBy(graph, components[..i + 1], Codes(after))
  {
    hide Reaches, Codes;
    forall x | x in Codes(after) ensures NeededByOne(graph, components[..i + 1], x) {
      if x in Codes(before) {
        assert NeededByOne(graph, components[..i], x);
        var j :| 0 <= j < i && Reaches(graph, components[..i][j].code, x);
        assert components[..i + 1][j] == components[j];
      } else {
        assert components[..i + 1][i] == components[i];
      }
    }
    assert after[..|after|] == after;
    assert OnDemandAt(graph, components, after, i);
    forall k | 0 <= k < i ensures OnDemandAt(graph, components, after, k) {
      assert OnDemandAt(graph, components, before, k);
      var n: nat :| n <= |before| && components[k].code in Codes(before[..n])
        && NeededBy(graph, components[..k + 1], Codes(before[..n]));
      assert after[..n] == before[..n];
    }
  }

  lemma {:induction false} WalkDescends(graph: Graph, ordered: seq<ResolvedComponent>, walk: seq<string>) returns (p: nat, q: nat)
    requires IsOrdering(graph, ordered) && Codes(ordered) == graph.Keys && IsWalk(graph, walk)
    ensures p < |ordered| && ordered[p].code == walk[0]
    ensures q <= p && ordered[q].code == walk[|walk| - 1]
    ensures |walk| > 1 ==> q < p
  {
    assert walk[0] in Codes(ordered);
    p :| 0 <= p < |ordered| && ordered[p].code == walk[0];
    q := p;
    if |walk| > 1 {
      assert DependsOn(graph, walk[0], walk[1]);
      var tail := walk[1..];
      forall i | 0 <= i < |tail| - 1 ensures DependsOn(graph, tail[i], tail[i + 1]) {
        assert DependsOn(graph, walk[i + 1], walk[i + 2]);
      }
      var p';
      p', q := WalkDescends(graph, ordered, tail);
      var j :| 0 <= j < p && ordered[j].code == walk[1];
      assert j == p';
    }
  }

  lemma OrderedIsAcyclic(graph: Graph, ordered: seq<ResolvedComponent>)
    requires IsOrdering(graph, ordered) && Codes(ordered) == graph.Keys
    ensures !HasCycle(graph)
  {
    if HasCycle(graph) {
      var walk :| IsCycle(graph, walk);
      var p, q := WalkDescends(graph, ordered, walk);
      assert false;
    }
  }

  lemma {:induction false} DistinctMultiplicity(components: seq<ResolvedComponent>, c: ResolvedComponent)
    requires DistinctCodes(components)
    ensures multiset(components)[c] == if c in components then 1 else 0
  {
    if components != [] {
      var rest, last := components[..|components| - 1], components[|components| - 1];
      assert components == rest + [last];
      DistinctMultiplicity(rest, c);
      if c == last {
        assert forall i :: 0 <= i < |rest| ==> rest[i] == components[i] && rest[i].code != last.code;
      }
    }
  }

  lemma OrderingIsPermutation(components: seq<ResolvedComponent>, ordered: seq<ResolvedComponent>)
    requires DistinctCodes(components)
    requires IsOrdering(GraphOf(components), ordered) && Codes(components) == Codes(ordered)
    ensures multiset(ordered) == multiset(components)
  {
    var graph := GraphOf(components);
    forall c ensures multiset(ordered)[c] == multiset(components)[c] {
      DistinctMultiplicity(components, c);
      DistinctMultiplicity(ordered, c);
      if c in components {
        var i :| 0 <= i < |components| && components[i] == c;
        assert c.code in Codes(ordered);
        var j :| 0 <= j < |ordered| && ordered[j].code == c.code;
        assert ordered[j] == graph[c.code] == c;
      }
      if c in ordered {
        var i :| 0 <= i < |ordered| && ordered[i] == c;
        assert c.code in Codes(components);
        var j :| 0 <= j < |components| && components[j].code == c.code;
        assert components[j] == graph[c.code] == c;
      }
    }
  }

  /** While the input is already in order, its next component is ready. */
  lemma SortedIsReady(components: seq<ResolvedComponent>, i: nat, visited: set<string>)
    requires DistinctCodes(components) && i < |components|
    requires DependenciesFirst(GraphOf(components), components) && visited == Codes(components[..i])
    ensures components[i].code !in visited
    ensures Ready(GraphOf(components), components[i], |components[i].inputsRequired|, visited)
  {
    hide GraphOf;
    var graph, c := GraphOf(components), components[i];
    assert forall j :: 0 <= j < i ==> components[..i][j].code != c.code;
    forall e | 0 <= e < |c.inputsRequired| && c.inputsRequired[e] in graph ensures c.inputsRequired[e] in visited {
      EarlierIsVisited(graph, components, i, c.inputsRequired[e]);
    }
  }

  lemma EarlierIsVisited(graph: Graph, components: seq<ResolvedComponent>, i: nat, dep: string)
    requires i < |components| && DependenciesFirst(graph, components)
    requires dep in components[i].inputsRequired && dep in graph
    ensures dep in Codes(components[..i])
  {
    var j :| 0 <= j < i && components[j].code == dep;
    assert components[..i][j].code == dep;
  }

  ghost function CodeList(components: seq<ResolvedComponent>): (codes: seq<string>)
    ensures |codes| == |components|
  {
    seq(|components|, i requires 0 <= i < |components| => components[i].code)
  }

  lemma CodeListAt(components: seq<ResolvedComponent>, i: nat)
    requires i < |components|
    ensures CodeList(components)[i] == components[i].code && Elements([]) == {}
  {
  }

  /** Everything once, dependencies first, nothing before it is called for, and no
      change to what is in order already. */
  ghost predicate IsSortOf(components: seq<ResolvedComponent>, sorted: seq<ResolvedComponent>)
    requires DistinctCodes(components)
  {
    var graph := GraphOf(components);
    && multiset(sorted) == multiset(components) && IsOrdering(graph, sorted)
    && OnDemand(graph, components, sorted, |components|)
    && (DependenciesFirst(graph, components) ==> sorted == components)
    && PostOrderAll(graph, CodeList(components), {}, []) == Some(sorted)
  }

  method TopologicalSort(components: seq<ResolvedComponent>) returns (r: Result<seq<ResolvedComponent>, seq<string>>)
    requires DistinctCodes(components)
    ensures r.Err? <==> HasCycle(GraphOf(components))
    ensures r.Err? ==> RunsIntoItself(GraphOf(components), r.error)
    ensures r.Ok? ==> IsSortOf(components, r.value)
    ensures r.Err? <==> PostOrderAll(GraphOf(components), CodeList(components), {}, []).None?
  {
    hide IsOrdering, IsWalk, Codes, Clear, Ready, HasCycle, AllReached, OnDemand, NeededBy, DependenciesFirst,
         GraphOf, RunsIntoItself, PostOrder, PostOrderAll, CodeList, Elements;
    ghost var graph := GraphOf(components);
    var sorter := new TopologicalSorter(components);
    StartEmpty(graph, components);
    for i := 0 to |components|
      invariant sorter.Valid() && sorter.byCode == graph
      invariant Codes(components[..i]) <= sorter.visited
      invariant OnDemand(graph, components, sorter.ordered, i)
      invariant NeededBy(graph, components[..i], sorter.visited)
      invariant DependenciesFirst(graph, components) ==> sorter.ordered == components[..i]
      invariant PostOrderAll(graph, CodeList(components)[..i], {}, []) == Some(sorter.ordered)
    {
      ghost var before := sorter.ordered;
      if DependenciesFirst(graph, components) { SortedIsReady(components, i, sorter.visited); }
      StartWalk(graph, components[i].code, sorter.visited);
      PostOrderStep(graph, CodeList(components), i, {}, []);
      CodeListAt(components, i);
      var cycle := sorter.Visit(components[i], []);
      if cycle.Some? {
        PostOrderFails(graph, CodeList(components), i + 1, {}, []);
        SortedHasNoCycle(components);
        return Err(cycle.value);
      }
      OnDemandStep(graph, components, i, before, sorter.ordered);
      assert components[..i + 1] == components[..i] + [components[i]];
      CodesAppend(components[..i], components[i]);
      CodesGrow(before, sorter.ordered);
    }
    assert components[..|components|] == components && CodeList(components)[..|components|] == CodeList(components);
    AllEmitted(components, sorter.ordered);
    return Ok(sorter.ordered);
  }

  lemma StartEmpty(graph: Graph, components: seq<ResolvedComponent>)
    ensures Codes([]) == {} && components[..0] == []
    ensures OnDemand(graph, components, [], 0) && NeededBy(graph, components[..0], {})
    ensures PostOrderAll(graph, CodeList(components)[..0], {}, []) == Some([])
  {
  }

  lemma StartWalk(graph: Graph, code: string, visited: set<string>)
    requires code in graph
    ensures IsWalk(graph, [] + [code]) && IsSimple([], graph.Keys) && Clear([], visited)
  {
  }

  lemma SortedHasNoCycle(components: seq<ResolvedComponent>)
    requires DistinctCodes(components)
    ensures DependenciesFirst(GraphOf(components), components) ==> !HasCycle(GraphOf(components))
  {
    if DependenciesFirst(GraphOf(components), components) {
      OrderedIsAcyclic(GraphOf(components), components);
    }
  }

  lemma AllEmitted(components: seq<ResolvedComponent>, ordered: seq<ResolvedComponent>)
    requires DistinctCodes(components)
    requires IsOrdering(GraphOf(components), ordered) && Codes(components) <= Codes(ordered)
    ensures multiset(ordered) == multiset(components)
    ensures !HasCycle(GraphOf(components))
  {
    var graph := GraphOf(components);
    forall code | code in Codes(ordered) ensures code in graph {
      var i :| 0 <= i < |ordered| && ordered[i].code == code;
    }
    assert Codes(ordered) == graph.Keys;
    OrderedIsAcyclic(graph, ordered);
    OrderingIsPermutation(components, ordered);
  }

  // ---- building the plan ---------------------------------------------------

  /** The two primitives the package registers. */
  datatype Primitive = BaseSalary | TsuContribution

  type Registry = map<string, Primitive>

  const DEFAULT_REGISTRY: Registry := map["BaseSalary" := BaseSalary, "TSUContribution" := TsuContribution]

  const PHASE_ORDER: seq<Phase> := [Input, Gross, PreTaxDeduction, Tax, PostTax, EmployerPhase]

  /** The parameter schemas: a base salary takes anything, a TSU needs a rate
      between 0 and 1 and at least one base component. */
  predicate ParametersValid(primitive: Primitive, parameters: map<string, Parameter>) {
    primitive.TsuContribution? ==>
      && "rate" in parameters && parameters["rate"].Number? && 0.0 <= parameters["rate"].n <= 1.0
      && "base_components" in parameters && parameters["base_components"].Names?
      && parameters["base_components"].names != []
  }

  datatype PlanError =
    | UnresolvedDependency(code: string, dep: string)
    | UnknownPrimitive(code: string)
    | ParameterSchemaInvalid(code: string)
    | CyclicDependency(stack: seq<string>)

  datatype PlanStep = PlanStep(
    index: nat,
    phase: Phase,
    code: string,
    primitive: string,
    parameters: map<string, Parameter>,
    inputsRequired: seq<string>,
    citations: seq<Citation>)

  datatype CalculationPlan = CalculationPlan(
    employeeId: string,
    contractId: string,
    periodId: string,
    companyId: string,
    roundingPolicy: RoundingPolicy,
    steps: seq<PlanStep>)

  function StepOf(comp: ResolvedComponent, index: nat): PlanStep {
    PlanStep(index, comp.phase, comp.code, comp.primitive, comp.parameters, comp.inputsRequired, comp.citations)
  }

  function FirstMissing(inputs: seq<string>, codes: set<string>): (r: Option<string>)
    ensures r.None? <==> forall k :: 0 <= k < |inputs| ==> inputs[k] in codes
  {
    if inputs == [] then None
    else if inputs[0] !in codes then Some(inputs[0])
    else FirstMissing(inputs[1..], codes)
  }

  /** What `build` raises for one component, if anything. */
  function ComponentError(comp: ResolvedComponent, codes: set<string>, registry: Registry): Option<PlanError> {
    var missing := FirstMissing(comp.inputsRequired, codes);
    if missing.Some? then Some(UnresolvedDependency(comp.code, missing.value))
    else if comp.primitive !in registry then Some(UnknownPrimitive(comp.code))
    else if !ParametersValid(registry[comp.primitive], comp.parameters) then Some(ParameterSchemaInvalid(comp.code))
    else None
  }

  ghost predicate IsDeclared(components: seq<ResolvedComponent>, code: string) {
    exists c :: c in components && c.code == code
  }

  /** The first input of the component that no component declares. */
  ghost predicate LacksFirst(components: seq<ResolvedComponent>, comp: ResolvedComponent, k: int) {
    && 0 <= k < |comp.inputsRequired| && !IsDeclared(components, comp.inputsRequired[k])
    && forall j :: 0 <= j < k ==> IsDeclared(components, comp.inputsRequired[j])
  }

  /** A TSU without a rate, with one that is not a number between 0 and 1, or without a
      list of bases, or with an empty one. */
  ghost predicate AreBad(primitive: Primitive, parameters: map<string, Parameter>) {
    && primitive == TsuContribution
    && (|| "rate" !in parameters || !parameters["rate"].Number? || parameters["rate"].n < 0.0 || parameters["rate"].n > 1.0
        || "base_components" !in parameters || !parameters["base_components"].Names? || |parameters["base_components"].names| == 0)
  }

  lemma {:induction false} FirstMissingSays(inputs: seq<string>, codes: set<string>) returns (k: nat)
    requires FirstMissing(inputs, codes).Some?
    ensures k < |inputs| && FirstMissing(inputs, codes) == Some(inputs[k]) && inputs[k] !in codes
    ensures forall j :: 0 <= j < k ==> inputs[j] in codes
  {
    if inputs[0] !in codes {
      k := 0;
    } else {
      k := FirstMissingSays(inputs[1..], codes);
      k := k + 1;
    }
  }

  /** What is wrong with a component, in the order `build` looks: an input nobody declares,
      a primitive nobody registers, parameters the primitive does not take. */
  lemma ComponentErrorSays(components: seq<ResolvedComponent>, comp: ResolvedComponent, registry: Registry)
    ensures var error := ComponentError(comp, Codes(components), registry);
            && (forall k :: LacksFirst(components, comp, k) ==> error == Some(UnresolvedDependency(comp.code, comp.inputsRequired[k])))
            && ((forall k :: !LacksFirst(components, comp, k)) ==>
                  error == if comp.primitive !in registry then Some(UnknownPrimitive(comp.code))
                           else if AreBad(registry[comp.primitive], comp.parameters) then Some(ParameterSchemaInvalid(comp.code))
                           else None)
  {
    var codes := Codes(components);
    forall dep ensures dep in codes <==> IsDeclared(components, dep) {
      if c :| c in components && c.code == dep {
        var i :| 0 <= i < |components| && components[i] == c;
      }
      if dep in codes {
        var i :| 0 <= i < |components| && components[i].code == dep;
        assert components[i] in components;
      }
    }
    if FirstMissing(comp.inputsRequired, codes).Some? {
      var k := FirstMissingSays(comp.inputsRequired, codes);
      assert LacksFirst(components, comp, k);
      forall l | LacksFirst(components, comp, l) ensures l == k {}
    }
  }

  ghost predicate AllPass(components: seq<ResolvedComponent>, registry: Registry, n: int) {
    forall j :: 0 <= j < n && j < |components| ==> ComponentError(components[j], Codes(components), registry).None?
  }

  ghost predicate FailsFirst(components: seq<ResolvedComponent>, registry: Registry, i: int) {
    && 0 <= i < |components| && ComponentError(components[i], Codes(components), registry).Some?
    && AllPass(components, registry, i)
  }

  function InPhase(components: seq<ResolvedComponent>, phase: Phase): seq<ResolvedComponent> {
    if components == [] then []
    else
      var rest, last := InPhase(components[..|components| - 1], phase), components[|components| - 1];
      if last.phase == phase then rest + [last] else rest
  }

  function Rank(phase: Phase): nat {
    match phase
    case Input => 0
    case Gross => 1
    case PreTaxDeduction => 2
    case Tax => 3
    case PostTax => 4
    case EmployerPhase => 5
  }

  /** `order` holds the components of phases below `upTo`, phase by phase, and
      inside a phase after the components they depend on. */
  ghost predicate IsPhasedOrder(components: seq<ResolvedComponent>, order: seq<ResolvedComponent>, upTo: nat) {
    CountsUpTo(components, order, upTo) && PhasesRise(order) && SamePhaseDependenciesFirst(components, order)
  }

  /** The components of `order` in one phase are those of `components`, sorted. */
  ghost predicate IsSortedIn(components: seq<ResolvedComponent>, order: seq<ResolvedComponent>, phase: Phase) {
    DistinctCodes(InPhase(components, phase)) && IsSortOf(InPhase(components, phase), InPhase(order, phase))
  }

  ghost predicate IsPlanOf(components: seq<ResolvedComponent>, steps: seq<PlanStep>) {
    exists order :: IsPhasedOrder(components, order, |PHASE_ORDER|)
      && (forall phase :: IsSortedIn(components, order, phase))
      && |order| == |steps| && forall i :: 0 <= i < |steps| ==> steps[i] == StepOf(order[i], i)
  }

  /** `phase` is the first one whose dependencies form a cycle. */
  ghost predicate FirstCyclicPhase(components: seq<ResolvedComponent>, phase: Phase)
    requires DistinctCodes(components)
  {
    && PhaseHasCycle(components, phase)
    && forall other :: Rank(other) < Rank(phase) ==> !PhaseHasCycle(components, other)
  }

  ghost predicate PhaseHasCycle(components: seq<ResolvedComponent>, phase: Phase)
    requires DistinctCodes(components)
  {
    InPhaseDistinct(components, phase);
    HasCycle(GraphOf(InPhase(components, phase)))
  }

  ghost predicate SomePhaseHasCycle(components: seq<ResolvedComponent>)
    requires DistinctCodes(components)
  {
    exists phase :: PhaseHasCycle(components, phase)
  }

  lemma {:induction false} InPhaseMultiplicity(components: seq<ResolvedComponent>, phase: Phase, c: ResolvedComponent)
    ensures multiset(InPhase(components, phase))[c] == if c.phase == phase then multiset(components)[c] else 0
  {
    if components != [] {
      InPhaseMultiplicity(components[..|components| - 1], phase, c);
      assert components == components[..|components| - 1] + [components[|components| - 1]];
    }
  }

  lemma {:induction false} InPhaseDistinct(components: seq<ResolvedComponent>, phase: Phase)
    requires DistinctCodes(components)
    ensures DistinctCodes(InPhase(components, phase))
    ensures forall c :: c in InPhase(components, phase) <==> c in components && c.phase == phase
  {
    if components != [] {
      var rest, last := components[..|components| - 1], components[|components| - 1];
      InPhaseDistinct(rest, phase);
      assert components == rest + [last];
      forall i | 0 <= i < |InPhase(rest, phase)| ensures InPhase(rest, phase)[i].code != last.code {
        assert InPhase(rest, phase)[i] in rest;
      }
    }
  }

  ghost predicate CountsUpTo(components: seq<ResolvedComponent>, order: seq<ResolvedComponent>, upTo: nat) {
    forall c :: multiset(order)[c] == if Rank(c.phase) < upTo then multiset(components)[c] else 0
  }

  ghost predicate PhasesRise(order: seq<ResolvedComponent>) {
    forall i, j :: 0 <= i < j < |order| ==> Rank(order[i].phase) <= Rank(order[j].phase)
  }

  ghost predicate SamePhaseDependenciesFirst(components: seq<ResolvedComponent>, order: seq<ResolvedComponent>) {
    forall i, d :: 0 <= i < |order| && d in components && d.code in order[i].inputsRequired && d.phase == order[i].phase ==>
      exists j :: 0 <= j < i && order[j] == d
  }

  lemma CountsAppended(components: seq<ResolvedComponent>, order: seq<ResolvedComponent>, phase: Phase,
                       sorted: seq<ResolvedComponent>)
    requires CountsUpTo(components, order, Rank(phase))
    requires multiset(sorted) == multiset(InPhase(components, phase))
    ensures CountsUpTo(components, order + sorted, Rank(phase) + 1)
  {
    var more := order + sorted;
    forall c: ResolvedComponent
      ensures multiset(more)[c] == if Rank(c.phase) < Rank(phase) + 1 then multiset(components)[c] else 0
    {
      InPhaseMultiplicity(components, phase, c);
      assert multiset(more) == multiset(order) + multiset(sorted);
    }
  }

  lemma PhasesAppended(components: seq<ResolvedComponent>, order: seq<ResolvedComponent>, phase: Phase,
                       sorted: seq<ResolvedComponent>)
    requires CountsUpTo(components, order, Rank(phase)) && PhasesRise(order) && DistinctCodes(components)
    requires multiset(sorted) == multiset(InPhase(components, phase))
    ensures PhasesRise(order + sorted)
    ensures forall i :: 0 <= i < |sorted| ==> sorted[i].phase == phase
  {
    InPhaseDistinct(components, phase);
    forall i | 0 <= i < |order| ensures Rank(order[i].phase) < Rank(phase) { assert multiset(order)[order[i]] > 0; }
    forall i | 0 <= i < |sorted| ensures sorted[i].phase == phase { assert sorted[i] in multiset(sorted); }
  }

  lemma DependenciesAppended(components: seq<ResolvedComponent>, order: seq<ResolvedComponent>, phase: Phase,
                             sorted: seq<ResolvedComponent>)
    requires DistinctCodes(components) && SamePhaseDependenciesFirst(components, order)
    requires DistinctCodes(InPhase(components, phase))
    requires IsOrdering(GraphOf(InPhase(components, phase)), sorted)
    requires forall i :: 0 <= i < |sorted| ==> sorted[i].phase == phase
    ensures SamePhaseDependenciesFirst(components, order + sorted)
  {
    hide GraphOf, IsOrdering;
    var more, inPhase := order + sorted, InPhase(components, phase);
    InPhaseDistinct(components, phase);
    forall i, d | 0 <= i < |more| && d in components && d.code in more[i].inputsRequired && d.phase == more[i].phase
      ensures exists j :: 0 <= j < i && more[j] == d
    {
      if i < |order| {
        var j :| 0 <= j < i && order[j] == d;
        assert more[j] == d;
      } else {
        var j := SortedDependency(inPhase, sorted, i - |order|, d);
        assert more[|order| + j] == d;
      }
    }
  }

  lemma PhaseAppended(components: seq<ResolvedComponent>, order: seq<ResolvedComponent>, phase: Phase,
                      sorted: seq<ResolvedComponent>)
    requires DistinctCodes(components) && IsPhasedOrder(components, order, Rank(phase))
    requires DistinctCodes(InPhase(components, phase))
    requires IsOrdering(GraphOf(InPhase(components, phase)), sorted)
    requires multiset(sorted) == multiset(InPhase(components, phase))
    ensures IsPhasedOrder(components, order + sorted, Rank(phase) + 1)
  {
    hide GraphOf, IsOrdering, CountsUpTo, PhasesRise, SamePhaseDependenciesFirst, InPhase;
    CountsAppended(components, order, phase, sorted);
    PhasesAppended(components, order, phase, sorted);
    DependenciesAppended(components, order, phase, sorted);
  }

  lemma SortedDependency(inPhase: seq<ResolvedComponent>, sorted: seq<ResolvedComponent>, i: nat, d: ResolvedComponent)
    returns (j: nat)
    requires DistinctCodes(inPhase) && IsOrdering(GraphOf(inPhase), sorted)
    requires i < |sorted| && d in inPhase && d.code in sorted[i].inputsRequired
    ensures j < i && sorted[j] == d
  {
    var graph := GraphOf(inPhase);
    var k :| 0 <= k < |inPhase| && inPhase[k] == d;
    assert d.code in graph && graph[d.code] == d;
    j :| 0 <= j < i && sorted[j].code == d.code;
  }

  /** The error names a cycle of the first phase that has one. */
  ghost predicate ReportsCycle(components: seq<ResolvedComponent>, error: PlanError)
    requires DistinctCodes(components)
  {
    error.CyclicDependency? && exists phase ::
      FirstCyclicPhase(components, phase) && DistinctCodes(InPhase(components, phase))
      && RunsIntoItself(GraphOf(InPhase(components, phase)), error.stack)
  }

  lemma {:induction false} InPhaseConcat(a: seq<ResolvedComponent>, b: seq<ResolvedComponent>, phase: Phase)
    ensures InPhase(a + b, phase) == InPhase(a, phase) + InPhase(b, phase)
  {
    if b == [] {
      assert a + b == a;
    } else {
      assert (a + b)[..|a + b| - 1] == a + b[..|b| - 1];
      InPhaseConcat(a, b[..|b| - 1], phase);
    }
  }

  lemma {:induction false} InOnePhase(sorted: seq<ResolvedComponent>, phase: Phase, other: Phase)
    requires forall i :: 0 <= i < |sorted| ==> sorted[i].phase == phase
    ensures InPhase(sorted, other) == if other == phase then sorted else []
  {
    if sorted != [] { InOnePhase(sorted[..|sorted| - 1], phase, other); }
  }

  lemma {:induction false} InNoPhase(order: seq<ResolvedComponent>, phase: Phase)
    requires forall i :: 0 <= i < |order| ==> order[i].phase != phase
    ensures InPhase(order, phase) == []
  {
    if order != [] { InNoPhase(order[..|order| - 1], phase); }
  }

  lemma SortedPhase(components: seq<ResolvedComponent>, phase: Phase, sorted: seq<ResolvedComponent>)
    requires DistinctCodes(components) && DistinctCodes(InPhase(components, phase))
    requires IsSortOf(InPhase(components, phase), sorted)
    ensures forall i :: 0 <= i < |sorted| ==> sorted[i].phase == phase
  {
    hide IsOrdering, OnDemand, DependenciesFirst, GraphOf, PostOrderAll, InPhase;
    InPhaseDistinct(components, phase);
    forall i | 0 <= i < |sorted| ensures sorted[i].phase == phase { assert sorted[i] in multiset(sorted); }
  }

  lemma EarlierPhases(components: seq<ResolvedComponent>, order: seq<ResolvedComponent>, phase: Phase)
    requires CountsUpTo(components, order, Rank(phase))
    ensures forall i :: 0 <= i < |order| ==> order[i].phase != phase
  {
    forall i | 0 <= i < |order| ensures order[i].phase != phase { assert multiset(order)[order[i]] > 0; }
  }

  /** Sorting one more phase leaves the earlier ones as they are. */
  lemma SortedAppended(components: seq<ResolvedComponent>, order: seq<ResolvedComponent>, phase: Phase,
                       sorted: seq<ResolvedComponent>)
    requires DistinctCodes(components) && CountsUpTo(components, order, Rank(phase))
    requires DistinctCodes(InPhase(components, phase)) && IsSortOf(InPhase(components, phase), sorted)
    ensures forall other :: Rank(other) < Rank(phase) && IsSortedIn(components, order, other) ==>
              IsSortedIn(components, order + sorted, other)
    ensures IsSortedIn(components, order + sorted, phase)
  {
    hide IsSortOf, GraphOf, InPhase, DistinctCodes, CountsUpTo, Rank;
    SortedPhase(components, phase, sorted);
    EarlierPhases(components, order, phase);
    InNoPhase(order, phase);
    forall other ensures InPhase(order + sorted, other) == InPhase(order, other) + (if other == phase then sorted else []) {
      InPhaseConcat(order, sorted, other);
      InOnePhase(sorted, phase, other);
    }
    assert [] + sorted == sorted;
    forall other: Phase ensures InPhase(order, other) + [] == InPhase(order, other) {}
  }

  class CalculationPlanBuilder {
    const registry: Registry

    constructor (registry: Registry)
      ensures this.registry == registry
    {
      this.registry := registry;
    }

    /** `components` are the values of the resolved stack, in dictionary order. */
    method Build(components: seq<ResolvedComponent>, employeeId: string, contractId: string, periodId: string,
                 companyId: string, roundingPolicy: RoundingPolicy)
      returns (r: Result<CalculationPlan, PlanError>)
      requires DistinctCodes(components)
      ensures forall i :: FailsFirst(components, registry, i) ==>
                r == Err(ComponentError(components[i], Codes(components), registry).value)
      ensures AllPass(components, registry, |components|) ==>
                if SomePhaseHasCycle(components) then r.Err? && ReportsCycle(components, r.error) else r.Ok?
      ensures r.Ok? ==> r.value == CalculationPlan(employeeId, contractId, periodId, companyId, roundingPolicy, r.value.steps)
      ensures r.Ok? ==> IsPlanOf(components, r.value.steps)
    {
      hide GraphOf, IsOrdering, HasCycle, InPhase, IsPhasedOrder, ComponentError, StepOf, DistinctCodes, IsSortOf, IsSortedIn,
           PhaseHasCycle, ReportsCycle, RunsIntoItself;
      var allCodes := set i | 0 <= i < |components| :: components[i].code;
      for i := 0 to |components|
        invariant AllPass(components, registry, i)
      {
        var error := ComponentError(components[i], allCodes, registry);
        if error.Some? { return Err(error.value); }
      }
      var steps: seq<PlanStep> := [];
      ghost var order: seq<ResolvedComponent> := [];
      NothingPhased(components);
      for p := 0 to |PHASE_ORDER|
        invariant IsPhasedOrder(components, order, p)
        invariant |order| == |steps| && forall i :: 0 <= i < |steps| ==> steps[i] == StepOf(order[i], i)
        invariant forall phase :: Rank(phase) < p ==> IsSortedIn(components, order, phase) && !PhaseHasCycle(components, phase)
      {
        var phase := PHASE_ORDER[p];
        assert Rank(phase) == p && forall other :: Rank(other) == p ==> other == phase;
        InPhaseDistinct(components, phase);
        var inPhase := InPhase(components, phase);
        var sorted := TopologicalSort(inPhase);
        if sorted.Err? {
          CycleFound(components, phase, sorted.error);
          return Err(CyclicDependency(sorted.error));
        }
        NoCycleFound(components, phase);
        SortExtendsPlan(components, order, phase, sorted.value);
        for k := 0 to |sorted.value|
          invariant |steps| == |order| + k
          invariant forall i :: 0 <= i < |steps| ==> steps[i] == StepOf((order + sorted.value)[i], i)
        {
          steps := steps + [StepOf(sorted.value[k], |steps|)];
        }
        order := order + sorted.value;
      }
      assert forall phase: Phase :: Rank(phase) < |PHASE_ORDER|;
      return Ok(CalculationPlan(employeeId, contractId, periodId, companyId, roundingPolicy, steps));
    }
  }

  lemma CycleFound(components: seq<ResolvedComponent>, phase: Phase, stack: seq<string>)
    requires DistinctCodes(components) && DistinctCodes(InPhase(components, phase))
    requires HasCycle(GraphOf(InPhase(components, phase))) && RunsIntoItself(GraphOf(InPhase(components, phase)), stack)
    requires forall other :: Rank(other) < Rank(phase) ==> !PhaseHasCycle(components, other)
    ensures SomePhaseHasCycle(components) && ReportsCycle(components, CyclicDependency(stack))
  {
    hide GraphOf, HasCycle, InPhase, DistinctCodes, RunsIntoItself;
    assert PhaseHasCycle(components, phase);
    assert FirstCyclicPhase(components, phase);
  }

  lemma NoCycleFound(components: seq<ResolvedComponent>, phase: Phase)
    requires DistinctCodes(components) && DistinctCodes(InPhase(components, phase))
    requires !HasCycle(GraphOf(InPhase(components, phase)))
    ensures !PhaseHasCycle(components, phase)
  {
  }

  lemma SortExtendsPlan(components: seq<ResolvedComponent>, order: seq<ResolvedComponent>, phase: Phase,
                        sorted: seq<ResolvedComponent>)
    requires DistinctCodes(components) && IsPhasedOrder(components, order, Rank(phase))
    requires DistinctCodes(InPhase(components, phase)) && IsSortOf(InPhase(components, phase), sorted)
    ensures IsPhasedOrder(components, order + sorted, Rank(phase) + 1)
    ensures forall other :: Rank(other) < Rank(phase) && IsSortedIn(components, order, other) ==>
              IsSortedIn(components, order + sorted, other)
    ensures IsSortedIn(components, order + sorted, phase)
  {
    hide GraphOf, IsOrdering, CountsUpTo, PhasesRise, SamePhaseDependenciesFirst, InPhase, OnDemand, DependenciesFirst, IsSortedIn, Rank;
    PhaseAppended(components, order, phase, sorted);
    SortedAppended(components, order, phase, sorted);
  }

  lemma NothingPhased(components: seq<ResolvedComponent>)
    ensures IsPhasedOrder(components, [], 0)
  {
  }

  // ---- when a built plan can be executed in order --------------------------

  ghost predicate DistinctSteps(steps: seq<PlanStep>) {
    forall i, j :: 0 <= i < j < |steps| ==> steps[i].code != steps[j].code
  }

  /** Everything a step requires has been produced when its turn comes. */
  ghost predicate RespectsInputs(steps: seq<PlanStep>) {
    forall i, dep :: 0 <= i < |steps| && dep in steps[i].inputsRequired ==> exists j :: 0 <= j < i && steps[j].code == dep
  }

  ghost predicate NoLaterPhase(components: seq<ResolvedComponent>) {
    forall c, d :: c in components && d in components && d.code in c.inputsRequired ==> Rank(d.phase) <= Rank(c.phase)
  }

  lemma PlanMembers(components: seq<ResolvedComponent>, order: seq<ResolvedComponent>)
    requires IsPhasedOrder(components, order, |PHASE_ORDER|)
    ensures multiset(order) == multiset(components)
    ensures forall c :: c in components <==> c in order
  {
    hide PhasesRise, SamePhaseDependenciesFirst, Rank;
    assert CountsUpTo(components, order, |PHASE_ORDER|);
    forall c: ResolvedComponent ensures multiset(order)[c] == multiset(components)[c] {
      EveryPhaseRanked(c.phase);
    }
    assert multiset(order) == multiset(components);
    forall c: ResolvedComponent ensures c in components <==> c in order {
      assert c in multiset(components) <==> c in multiset(order);
    }
  }

  lemma EveryPhaseRanked(phase: Phase)
    ensures Rank(phase) < |PHASE_ORDER|
  {
  }

  lemma {:induction false} PermutationIsDistinct(components: seq<ResolvedComponent>, order: seq<ResolvedComponent>)
    requires DistinctCodes(components) && multiset(order) == multiset(components)
    ensures DistinctCodes(order)
  {
    forall i, j | 0 <= i < j < |order| ensures order[i].code != order[j].code {
      assert order[i] in multiset(order) && order[j] in multiset(order);
      if order[i] == order[j] {
        DistinctMultiplicity(components, order[i]);
        TwiceInSequence(order, i, j);
      } else {
        assert order[i] in components && order[j] in components;
      }
    }
  }

  lemma TwiceInSequence(order: seq<ResolvedComponent>, i: nat, j: nat)
    requires i < j < |order| && order[i] == order[j]
    ensures multiset(order)[order[i]] >= 2
  {
    assert order == order[..j] + order[j..];
    assert order[i] in order[..j] && order[i] in order[j..];
  }

  /** `build` never compares phases across a dependency, and that is all that is
      missing: a built plan can feed every amount forward exactly when each
      dependency lies in the same or an earlier phase. */
  lemma BuiltPlanRespectsInputs(components: seq<ResolvedComponent>, steps: seq<PlanStep>, registry: Registry)
    requires DistinctCodes(components) && AllPass(components, registry, |components|)
    requires IsPlanOf(components, steps)
    ensures DistinctSteps(steps)
    ensures RespectsInputs(steps) <==> NoLaterPhase(components)
  {
    hide AllPass, DistinctCodes, SamePhaseDependenciesFirst, CountsUpTo, PhasesRise, GraphOf, IsSortedIn;
    var order :| IsPhasedOrder(components, order, |PHASE_ORDER|) && (forall phase :: IsSortedIn(components, order, phase))
      && |order| == |steps| && forall i :: 0 <= i < |steps| ==> steps[i] == StepOf(order[i], i);
    PlanMembers(components, order);
    PermutationIsDistinct(components, order);
    OrderRespects(components, order, registry);
    StepsMirrorOrder(order, steps);
  }

  ghost predicate InputsFirst(order: seq<ResolvedComponent>) {
    forall i, dep :: 0 <= i < |order| && dep in order[i].inputsRequired ==> exists j :: 0 <= j < i && order[j].code == dep
  }

  lemma StepsMirrorOrder(order: seq<ResolvedComponent>, steps: seq<PlanStep>)
    requires |order| == |steps| && forall i :: 0 <= i < |steps| ==> steps[i] == StepOf(order[i], i)
    ensures DistinctCodes(order) ==> DistinctSteps(steps)
    ensures InputsFirst(order) <==> RespectsInputs(steps)
  {
    assert forall i :: 0 <= i < |steps| ==> steps[i].code == order[i].code && steps[i].inputsRequired == order[i].inputsRequired;
    if InputsFirst(order) {
      forall i, dep | 0 <= i < |steps| && dep in steps[i].inputsRequired ensures exists j :: 0 <= j < i && steps[j].code == dep {
        var j :| 0 <= j < i && order[j].code == dep;
        assert steps[j].code == dep;
      }
    }
    if RespectsInputs(steps) {
      forall i, dep | 0 <= i < |order| && dep in order[i].inputsRequired ensures exists j :: 0 <= j < i && order[j].code == dep {
        assert dep in steps[i].inputsRequired;
        var j :| 0 <= j < i && steps[j].code == dep;
        assert order[j].code == dep;
      }
    }
  }

  lemma OrderRespects(components: seq<ResolvedComponent>, order: seq<ResolvedComponent>, registry: Registry)
    requires IsPhasedOrder(components, order, |PHASE_ORDER|) && DistinctCodes(order)
    requires forall c :: c in components <==> c in order
    requires AllPass(components, registry, |components|)
    ensures InputsFirst(order) <==> NoLaterPhase(components)
  {
    hide CountsUpTo, SamePhaseDependenciesFirst, DistinctCodes;
    if InputsFirst(order) {
      forall c, d | c in components && d in components && d.code in c.inputsRequired
        ensures Rank(d.phase) <= Rank(c.phase)
      {
        DependencyRank(order, c, d);
      }
    }
    if NoLaterPhase(components) {
      forall i, dep | 0 <= i < |order| && dep in order[i].inputsRequired
        ensures exists j :: 0 <= j < i && order[j].code == dep
      {
        DependencyEarlier(components, order, registry, i, dep);
      }
    }
  }

  lemma DependencyRank(order: seq<ResolvedComponent>, c: ResolvedComponent, d: ResolvedComponent)
    requires InputsFirst(order) && PhasesRise(order) && DistinctCodes(order)
    requires c in order && d in order && d.code in c.inputsRequired
    ensures Rank(d.phase) <= Rank(c.phase)
  {
    var i :| 0 <= i < |order| && order[i] == c;
    var k :| 0 <= k < |order| && order[k] == d;
    var j :| 0 <= j < i && order[j].code == d.code;
    assert j == k;
  }

  lemma DependencyEarlier(components: seq<ResolvedComponent>, order: seq<ResolvedComponent>, registry: Registry,
                          i: nat, dep: string)
    requires IsPhasedOrder(components, order, |PHASE_ORDER|) && NoLaterPhase(components)
    requires forall c :: c in components <==> c in order
    requires AllPass(components, registry, |components|)
    requires i < |order| && dep in order[i].inputsRequired
    ensures exists j :: 0 <= j < i && order[j].code == dep
  {
    hide CountsUpTo, PhasesRise, SamePhaseDependenciesFirst, AllPass, Rank;
    var c := order[i];
    assert c in components;
    var d := DependencyExists(components, registry, c, dep);
    var j: nat;
    if d.phase == c.phase {
      j := SamePhaseEarlier(components, order, i, d);
    } else {
      j := OtherPhaseEarlier(order, i, d);
    }
    assert order[j].code == dep;
  }

  lemma SamePhaseEarlier(components: seq<ResolvedComponent>, order: seq<ResolvedComponent>, i: nat, d: ResolvedComponent)
    returns (j: nat)
    requires SamePhaseDependenciesFirst(components, order) && i < |order|
    requires d in components && d.code in order[i].inputsRequired && d.phase == order[i].phase
    ensures j < i && order[j] == d
  {
    j :| 0 <= j < i && order[j] == d;
  }

  lemma OtherPhaseEarlier(order: seq<ResolvedComponent>, i: nat, d: ResolvedComponent) returns (j: nat)
    requires PhasesRise(order) && i < |order| && d in order
    requires Rank(d.phase) <= Rank(order[i].phase) && d.phase != order[i].phase
    ensures j < i && order[j] == d
  {
    j :| 0 <= j < |order| && order[j] == d;
  }

  lemma DependencyExists(components: seq<ResolvedComponent>, registry: Registry, c: ResolvedComponent, dep: string)
    returns (d: ResolvedComponent)
    requires AllPass(components, registry, |components|) && c in components && dep in c.inputsRequired
    ensures d in components && d.code == dep
  {
    var i :| 0 <= i < |components| && components[i] == c;
    assert ComponentError(components[i], Codes(components), registry).None?;
    assert dep in Codes(components);
    var k :| 0 <= k < |components| && components[k].code == dep;
    d := components[k];
  }

  /** Two components in different phases, neither depending on itself: no phase has a
      cycle. */
  lemma DifferentPhasesNoCycle(a: ResolvedComponent, b: ResolvedComponent)
    requires a.phase != b.phase && a.code != b.code && a.code !in a.inputsRequired && b.code !in b.inputsRequired
    ensures DistinctCodes([a, b]) && !SomePhaseHasCycle([a, b])
  {
    var components := [a, b];
    forall phase ensures !PhaseHasCycle(components, phase) {
      var inPhase := InPhase(components, phase);
      InPhaseDistinct(components, phase);
      assert components[..1] == [a] && [a][..0] == [];
      assert InPhase([a], phase) == if a.phase == phase then [a] else [];
      assert [] + [b] == [b];
      assert inPhase == if phase == a.phase then [a] else if phase == b.phase then [b] else [];
      SortedHasNoCycle(inPhase);
    }
  }

  // ---- what a plan says ----------------------------------------------------

  /** The order of the phases. */
  ghost predicate Earlier(p: Phase, q: Phase) {
    match p
    case Input => q != Input
    case Gross => q == PreTaxDeduction || q == Tax || q == PostTax || q == EmployerPhase
    case PreTaxDeduction => q == Tax || q == PostTax || q == EmployerPhase
    case Tax => q == PostTax || q == EmployerPhase
    case PostTax => q == EmployerPhase
    case EmployerPhase => false
  }

  ghost predicate IsStepFor(step: PlanStep, c: ResolvedComponent) {
    && step.code == c.code && step.phase == c.phase && step.primitive == c.primitive && step.parameters == c.parameters
    && step.inputsRequired == c.inputsRequired && step.citations == c.citations
  }

  ghost predicate IsStepOfSome(step: PlanStep, components: seq<ResolvedComponent>) {
    exists c :: c in components && IsStepFor(step, c)
  }

  /** Every component has one step, which says what it says; steps are numbered from zero
      and no step of an earlier phase comes after one of a later phase. */
  lemma PlanSays(components: seq<ResolvedComponent>, steps: seq<PlanStep>)
    requires IsPlanOf(components, steps)
    ensures |steps| == |components| && forall i :: 0 <= i < |steps| ==> steps[i].index == i
    ensures forall i :: 0 <= i < |steps| ==> IsStepOfSome(steps[i], components)
    ensures forall c :: c in components ==> exists i :: 0 <= i < |steps| && IsStepFor(steps[i], c)
    ensures forall i, j :: 0 <= i < j < |steps| ==> !Earlier(steps[j].phase, steps[i].phase)
  {
    hide IsPlanOf, IsPhasedOrder, IsStepFor, Earlier;
    var order := OrderBehind(components, steps);
    forall i | 0 <= i < |steps| ensures IsStepOfSome(steps[i], components) {
      assert order[i] in components && IsStepFor(steps[i], order[i]);
    }
    forall c | c in components ensures exists i :: 0 <= i < |steps| && IsStepFor(steps[i], c) {
      var i :| 0 <= i < |order| && order[i] == c;
      assert IsStepFor(steps[i], c);
    }
    forall i, j | 0 <= i < j < |steps| ensures !Earlier(steps[j].phase, steps[i].phase) { LaterRanks(components, order, i, j); }
  }

  lemma OrderBehind(components: seq<ResolvedComponent>, steps: seq<PlanStep>) returns (order: seq<ResolvedComponent>)
    requires IsPlanOf(components, steps)
    ensures IsPhasedOrder(components, order, |PHASE_ORDER|) && |order| == |steps| == |components|
    ensures forall c :: c in components <==> c in order
    ensures forall i :: 0 <= i < |steps| ==> steps[i].index == i && steps[i].phase == order[i].phase && IsStepFor(steps[i], order[i])
  {
    hide IsSortedIn, IsPhasedOrder, StepOf, IsStepFor;
    order :| IsPhasedOrder(components, order, |PHASE_ORDER|) && (forall phase :: IsSortedIn(components, order, phase))
      && |order| == |steps| && forall i :: 0 <= i < |steps| ==> steps[i] == StepOf(order[i], i);
    PlanMembers(components, order);
    SameLength(order, components);
    StepsSay(order, steps);
  }

  lemma StepsSay(order: seq<ResolvedComponent>, steps: seq<PlanStep>)
    requires |order| == |steps| && forall i :: 0 <= i < |steps| ==> steps[i] == StepOf(order[i], i)
    ensures forall i :: 0 <= i < |steps| ==> steps[i].index == i && steps[i].phase == order[i].phase && IsStepFor(steps[i], order[i])
  {
  }

  lemma SameLength(a: seq<ResolvedComponent>, b: seq<ResolvedComponent>)
    requires multiset(a) == multiset(b)
    ensures |a| == |b|
  {
    assert |multiset(a)| == |a| && |multiset(b)| == |b|;
  }

  lemma LaterRanks(components: seq<ResolvedComponent>, order: seq<ResolvedComponent>, i: nat, j: nat)
    requires IsPhasedOrder(components, order, |PHASE_ORDER|) && i < j < |order|
    ensures !Earlier(order[j].phase, order[i].phase)
  {
    hide CountsUpTo, SamePhaseDependenciesFirst;
    assert Rank(order[i].phase) <= Rank(order[j].phase);
  }
}
