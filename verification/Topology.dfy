/**
 Validation of a graph plan: the depth-first cycle check, the memoised depth of
 every node, and the worklist that finds what a resume re-runs. All three are
 specified by paths, never by the algorithm that finds them.
 */
module Topology {
  import opened Common

  type Key = string
  type Edges = map<Key, seq<Key>>

  /** The dependencies of a key; an undeclared key has none. */
  function After(edges: Edges, key: Key): seq<Key> {
    if key in edges then edges[key] else []
  }

  /** A walk from a dependency to its dependents. */
  ghost predicate IsPath(edges: Edges, p: seq<Key>) {
    && |p| > 0
    && forall i :: 0 <= i < |p| - 1 ==> p[i] in After(edges, p[i + 1])
  }

  ghost predicate PathTo(edges: Edges, p: seq<Key>, b: Key) {
    IsPath(edges, p) && p[|p| - 1] == b
  }

  ghost predicate PathBetween(edges: Edges, p: seq<Key>, a: Key, b: Key) {
    PathTo(edges, p, b) && p[0] == a
  }

  /** b depends on a, directly or not; every key reaches itself. */
  ghost predicate Reaches(edges: Edges, a: Key, b: Key) {
    exists p :: PathBetween(edges, p, a, b)
  }

  ghost predicate Cycle(edges: Edges, p: seq<Key>) {
    IsPath(edges, p) && |p| >= 2 && p[0] == p[|p| - 1]
  }

  ghost predicate Cyclic(edges: Edges) {
    exists p :: Cycle(edges, p)
  }

  /** Every dependency is declared. */
  ghost predicate Closed(edges: Edges) {
    forall k, d :: k in edges && d in edges[k] ==> d in edges
  }

  lemma ReachesSelf(edges: Edges, a: Key)
    ensures Reaches(edges, a, a)
  {
    assert PathBetween(edges, [a], a, a);
  }

  lemma ReachesStep(edges: Edges, a: Key, b: Key, c: Key)
    requires Reaches(edges, a, b) && b in After(edges, c)
    ensures Reaches(edges, a, c)
  {
    var p :| PathBetween(edges, p, a, b);
    assert PathBetween(edges, p + [c], a, c);
  }

  /** The last edge of a walk: either it is trivial or it enters through a dependency. */
  lemma ReachesLast(edges: Edges, a: Key, b: Key)
    requires Reaches(edges, a, b)
    ensures a == b || exists d :: d in After(edges, b) && Reaches(edges, a, d)
  {
    var p :| PathBetween(edges, p, a, b);
    if |p| > 1 {
      var q := p[..|p| - 1];
      assert PathBetween(edges, q, a, q[|q| - 1]);
      assert q[|q| - 1] in After(edges, b);
    }
  }

  // ---------------------------------------------------------------------------
  // Orderings: the certificate that a plan is acyclic
  // ---------------------------------------------------------------------------

  /** Each key comes after everything it depends on. */
  ghost predicate Ordered(edges: Edges, order: seq<Key>) {
    && Distinct(order)
    && forall i, d :: 0 <= i < |order| && d in After(edges, order[i]) ==> d in order[..i]
  }

  ghost function IndexOf(order: seq<Key>, key: Key): (i: nat)
    requires key in order
    ensures i < |order| && order[i] == key
  {
    var i :| 0 <= i < |order| && order[i] == key;
    i
  }

  lemma DependencyComesFirst(edges: Edges, order: seq<Key>, d: Key, key: Key)
    requires Ordered(edges, order) && key in order && d in After(edges, key)
    ensures d in order && IndexOf(order, d) < IndexOf(order, key)
  {
    var i := IndexOf(order, key);
    assert d in order[..i];
    var j :| 0 <= j < i && order[j] == d;
  }

  lemma OrderedAppend(edges: Edges, order: seq<Key>, key: Key)
    requires Ordered(edges, order) && key !in order
    requires forall d :: d in After(edges, key) ==> d in order
    ensures Ordered(edges, order + [key])
  {
    var longer := order + [key];
    forall i, d | 0 <= i < |longer| && d in After(edges, longer[i])
      ensures d in longer[..i]
    {
      if i < |order| {
        assert d in order[..i] && longer[..i] == order[..i];
      } else {
        assert longer[..i] == order;
      }
    }
  }

  lemma {:induction false} PathClimbs(edges: Edges, order: seq<Key>, p: seq<Key>)
    requires Ordered(edges, order) && IsPath(edges, p)
    requires p[|p| - 1] in order
    ensures p[0] in order && IndexOf(order, p[0]) + |p| - 1 <= IndexOf(order, p[|p| - 1])
    decreases |p|
  {
    if |p| > 1 {
      var q := p[..|p| - 1];
      DependencyComesFirst(edges, order, p[|p| - 2], p[|p| - 1]);
      PathClimbs(edges, order, q);
    }
  }

  lemma OrderedIsAcyclic(edges: Edges, order: seq<Key>)
    requires Ordered(edges, order) && edges.Keys <= Elements(order)
    ensures !Cyclic(edges)
  {
    if Cyclic(edges) {
      var p :| Cycle(edges, p);
      assert p[|p| - 2] in After(edges, p[|p| - 1]);
      PathClimbs(edges, order, p);
    }
  }

  // ---------------------------------------------------------------------------
  // The cycle check
  // ---------------------------------------------------------------------------

  ghost function Universe(edges: Edges): set<Key> {
    edges.Keys + set k, d | k in edges && d in edges[k] :: d
  }

  /** One run of the depth-first search; the fields are its two shared sets. */
  class DepthFirst {
    const edges: Edges
    var visiting: set<Key>
    var visited: set<Key>
    ghost var finished: seq<Key>

    constructor (edges: Edges)
      ensures this.edges == edges && visiting == {} && visited == {} && Valid()
    {
      this.edges := edges;
      visiting, visited, finished := {}, {}, [];
    }

    ghost predicate Valid()
      reads this
    {
      && visited == Elements(finished)
      && Ordered(edges, finished)
      && visiting !! visited
      && visiting + visited <= Universe(edges)
    }

    method Visit(key: Key, ghost trail: seq<Key>) returns (cyclic: bool)
      requires Valid() && key in Universe(edges)
      requires visiting == Elements(trail) && IsPath(edges, [key] + trail)
      modifies this
      ensures cyclic ==> Cyclic(edges)
      ensures !cyclic ==> Valid() && visiting == old(visiting) && key in visited
      ensures !cyclic ==> old(visited) <= visited
      decreases Universe(edges) - visiting - visited
    {
      if key in visiting {
        ghost var p := [key] + trail;
        ghost var i :| 0 <= i < |trail| && trail[i] == key;
        assert Cycle(edges, p[..i + 2]);
        return true;
      }
      if key in visited {
        return false;
      }
      ghost var here := [key] + trail;
      ghost var unseen := Universe(edges) - visiting - visited;
      assert key in unseen;
      visiting := visiting + {key};
      var deps := After(edges, key);
      for i := 0 to |deps|
        invariant Valid() && visiting == old(visiting) + {key}
        invariant old(visited) <= visited
        invariant forall j :: 0 <= j < i ==> deps[j] in visited
      {
        assert key in edges && deps[i] in edges[key];
        assert deps[i] in Universe(edges);
        assert IsPath(edges, [deps[i]] + here);
        assert visiting == Elements(here);
        assert Universe(edges) - visiting - visited < unseen;
        var found := Visit(deps[i], here);
        if found {
          return true;
        }
      }
      visiting := visiting - {key};
      ElementsAppend(finished, key);
      OrderedAppend(edges, finished, key);
      visited, finished := visited + {key}, finished + [key];
      return false;
    }
  }

  /** True exactly when some walk returns to where it began. */
  method HasCycle(edges: Edges) returns (cyclic: bool, ghost order: seq<Key>)
    ensures cyclic <==> Cyclic(edges)
    ensures !cyclic ==> Ordered(edges, order) && edges.Keys <= Elements(order)
  {
    var search := new DepthFirst(edges);
    var rest := edges.Keys;
    while rest != {}
      invariant search.Valid() && search.visiting == {} && search.edges == edges
      invariant rest <= edges.Keys && edges.Keys - rest <= search.visited
      decreases rest
    {
      var key :| key in rest;
      var found := search.Visit(key, []);
      if found {
        return true, [];
      }
      rest := rest - {key};
    }
    order := search.finished;
    OrderedIsAcyclic(edges, order);
    cyclic := false;
  }

  // ---------------------------------------------------------------------------
  // Depths
  // ---------------------------------------------------------------------------

  /** depth is the number of edges on the longest walk from a root to key. */
  ghost predicate LongestWalk(edges: Edges, key: Key, depth: nat) {
    && (exists p :: PathTo(edges, p, key) && |p| == depth + 1 && After(edges, p[0]) == [])
    && (forall p :: PathTo(edges, p, key) ==> |p| <= depth + 1)
  }

  /** Depth strictly increases along every edge. */
  lemma DepthIncreases(edges: Edges, d: Key, key: Key, below: nat, depth: nat)
    requires d in After(edges, key)
    requires LongestWalk(edges, d, below) && LongestWalk(edges, key, depth)
    ensures below < depth
  {
    var p :| PathTo(edges, p, d) && |p| == below + 1 && After(edges, p[0]) == [];
    assert PathTo(edges, p + [key], key);
  }

  /** The recursion the source memoises; the order makes it well founded. */
  ghost function Longest(edges: Edges, order: seq<Key>, key: Key): nat
    requires Ordered(edges, order) && key in order
    decreases IndexOf(order, key), |After(edges, key)| + 1
  {
    var after := After(edges, key);
    if after == [] then 0 else 1 + Deepest(edges, order, key, |after|)
  }

  /** The greatest depth among the first n dependencies of a key. */
  ghost function Deepest(edges: Edges, order: seq<Key>, key: Key, n: nat): nat
    requires Ordered(edges, order) && key in order && n <= |After(edges, key)|
    decreases IndexOf(order, key), n
  {
    if n == 0 then 0
    else
      var d := After(edges, key)[n - 1];
      DependencyComesFirst(edges, order, d, key);
      var here, before := Longest(edges, order, d), Deepest(edges, order, key, n - 1);
      if here > before then here else before
  }

  /** One step of the maximum, and of the recursion around it. */
  lemma DeepestNext(edges: Edges, order: seq<Key>, key: Key, n: nat)
    requires Ordered(edges, order) && key in order && n < |After(edges, key)|
    ensures var d := After(edges, key)[n];
            && d in order && IndexOf(order, d) < IndexOf(order, key)
            && Deepest(edges, order, key, n + 1) ==
               if Longest(edges, order, d) > Deepest(edges, order, key, n) then Longest(edges, order, d)
               else Deepest(edges, order, key, n)
  {
    hide Ordered, Longest;
    DependencyComesFirst(edges, order, After(edges, key)[n], key);
  }

  lemma LongestFrom(edges: Edges, order: seq<Key>, key: Key)
    requires Ordered(edges, order) && key in order
    ensures Deepest(edges, order, key, 0) == 0
    ensures Longest(edges, order, key) ==
            if After(edges, key) == [] then 0 else 1 + Deepest(edges, order, key, |After(edges, key)|)
  {
  }

  lemma {:induction false} DeepestIsGreatest(edges: Edges, order: seq<Key>, key: Key, n: nat)
    requires Ordered(edges, order) && key in order && n <= |After(edges, key)|
    ensures forall j :: 0 <= j < n ==>
                          var d := After(edges, key)[j];
                          d in order && Longest(edges, order, d) <= Deepest(edges, order, key, n)
    ensures n > 0 ==>
              exists j :: 0 <= j < n &&
                          var d := After(edges, key)[j];
                          d in order && Longest(edges, order, d) == Deepest(edges, order, key, n)
  {
    hide Ordered, Longest, Deepest;
    if n > 0 {
      var after := After(edges, key);
      DeepestNext(edges, order, key, n - 1);
      LongestFrom(edges, order, key);
      DeepestIsGreatest(edges, order, key, n - 1);
      if Longest(edges, order, after[n - 1]) != Deepest(edges, order, key, n) {
        var j :| 0 <= j < n - 1 && after[j] in order &&
                 Longest(edges, order, after[j]) == Deepest(edges, order, key, n - 1);
        assert After(edges, key)[j] == after[j];
      }
    }
  }

  lemma {:induction false} WalkOfLength(edges: Edges, order: seq<Key>, key: Key) returns (p: seq<Key>)
    requires Ordered(edges, order) && key in order
    ensures PathTo(edges, p, key) && |p| == Longest(edges, order, key) + 1 && After(edges, p[0]) == []
    decreases IndexOf(order, key)
  {
    hide Ordered, Longest, Deepest, IndexOf;
    LongestFrom(edges, order, key);
    var after := After(edges, key);
    if after == [] {
      p := [key];
    } else {
      DeepestIsGreatest(edges, order, key, |after|);
      var j :| 0 <= j < |after| && after[j] in order &&
               Longest(edges, order, after[j]) == Deepest(edges, order, key, |after|);
      DependencyComesFirst(edges, order, after[j], key);
      p := WalkOfLength(edges, order, after[j]);
      p := p + [key];
    }
  }

  lemma {:induction false} WalkIsShort(edges: Edges, order: seq<Key>, key: Key, q: seq<Key>)
    requires Ordered(edges, order) && key in order && PathTo(edges, q, key)
    ensures |q| <= Longest(edges, order, key) + 1
    decreases |q|
  {
    if |q| > 1 {
      var d := q[|q| - 2];
      DependencyComesFirst(edges, order, d, key);
      WalkIsShort(edges, order, d, q[..|q| - 1]);
      DeepestIsGreatest(edges, order, key, |After(edges, key)|);
      var j :| 0 <= j < |After(edges, key)| && After(edges, key)[j] == d;
      assert Longest(edges, order, After(edges, key)[j]) <= Deepest(edges, order, key, |After(edges, key)|);
    }
  }

  /** The recursion measures the longest walk. */
  lemma LongestIsLongestWalk(edges: Edges, order: seq<Key>, key: Key)
    requires Ordered(edges, order) && key in order
    ensures LongestWalk(edges, key, Longest(edges, order, key))
  {
    var p := WalkOfLength(edges, order, key);
    forall q | PathTo(edges, q, key)
      ensures |q| <= Longest(edges, order, key) + 1
    {
      WalkIsShort(edges, order, key, q);
    }
  }

  /** One run of the memoised depth recursion. */
  class DepthMemo {
    const edges: Edges
    var depths: map<Key, nat>

    constructor (edges: Edges)
      ensures this.edges == edges && depths == map[]
    {
      this.edges := edges;
      depths := map[];
    }

    ghost predicate Valid(order: seq<Key>)
      reads this
    {
      && Closed(edges) && Ordered(edges, order) && edges.Keys <= Elements(order)
      && depths.Keys <= edges.Keys
      && forall k :: k in depths ==> depths[k] == Longest(edges, order, k)
    }

    method Depth(key: Key, ghost order: seq<Key>) returns (depth: nat)
      requires Valid(order) && key in edges
      modifies this
      ensures Valid(order) && key in depths && depth == depths[key]
      ensures old(depths.Keys) <= depths.Keys
      decreases IndexOf(order, key)
    {
      hide Ordered, Longest, Deepest, IndexOf;
      if key in depths {
        return depths[key];
      }
      var after := edges[key];
      LongestFrom(edges, order, key);
      depth := 0;
      if |after| > 0 {
        var best := 0;
        for i := 0 to |after|
          invariant Valid(order) && old(depths.Keys) <= depths.Keys
          invariant best == Deepest(edges, order, key, i)
        {
          DeepestNext(edges, order, key, i);
          var d := Depth(after[i], order);
          if d > best {
            best := d;
          }
        }
        depth := 1 + best;
      }
      depths := depths[key := depth];
    }
  }

  /** The depth of every declared key, as stored on the node rows. */
  method ComputeDepths(edges: Edges, ghost order: seq<Key>) returns (depths: map<Key, nat>)
    requires Closed(edges) && Ordered(edges, order) && edges.Keys <= Elements(order)
    ensures depths.Keys == edges.Keys
    ensures forall k :: k in edges ==> LongestWalk(edges, k, depths[k])
  {
    var memo := new DepthMemo(edges);
    var rest := edges.Keys;
    while rest != {}
      invariant memo.Valid(order) && memo.edges == edges
      invariant rest <= edges.Keys && edges.Keys - rest <= memo.depths.Keys
      decreases rest
    {
      var key :| key in rest;
      var _ := memo.Depth(key, order);
      rest := rest - {key};
    }
    depths := memo.depths;
    forall k | k in edges
      ensures LongestWalk(edges, k, depths[k])
    {
      LongestIsLongestWalk(edges, order, k);
    }
  }

  // ---------------------------------------------------------------------------
  // Accepting a plan
  // ---------------------------------------------------------------------------

  datatype NodeSpec = NodeSpec(key: Key, after: seq<Key>, gated: bool)

  datatype PlanError =
    | EmptyPlan
    | DuplicateKeys
    | SelfDependency(key: Key)
    | UnknownDependency(key: Key)
    | CyclicPlan

  /** The dictionary of declared nodes; a later declaration wins. */
  function EdgesOf(specs: seq<NodeSpec>): Edges {
    if specs == [] then map[]
    else
      var last := specs[|specs| - 1];
      EdgesOf(specs[..|specs| - 1])[last.key := last.after]
  }

  ghost predicate DistinctKeys(specs: seq<NodeSpec>) {
    forall i, j :: 0 <= i < j < |specs| ==> specs[i].key != specs[j].key
  }

  ghost predicate SoundDependencies(specs: seq<NodeSpec>, spec: NodeSpec) {
    spec.key !in spec.after && forall d :: d in spec.after ==> d in EdgesOf(specs)
  }

  /** What a plan must be to be started. */
  ghost predicate Acceptable(specs: seq<NodeSpec>) {
    && specs != []
    && DistinctKeys(specs)
    && Closed(EdgesOf(specs))
    && !Cyclic(EdgesOf(specs))
  }

  /** Every entry comes from a declaration of its key. */
  lemma {:induction false} DeclarationOf(specs: seq<NodeSpec>, k: Key) returns (i: nat)
    requires k in EdgesOf(specs)
    ensures i < |specs| && specs[i].key == k && k in EdgesOf(specs) && specs[i].after == EdgesOf(specs)[k]
  {
    var front, last := specs[..|specs| - 1], specs[|specs| - 1];
    if k == last.key {
      i := |specs| - 1;
    } else {
      i := DeclarationOf(front, k);
    }
  }

  /** Every declaration has an entry, its own where the keys are distinct. */
  lemma {:induction false} DeclaredEntry(specs: seq<NodeSpec>, i: nat)
    requires i < |specs|
    ensures specs[i].key in EdgesOf(specs)
    ensures DistinctKeys(specs) ==> EdgesOf(specs)[specs[i].key] == specs[i].after
  {
    var front := specs[..|specs| - 1];
    if i < |front| {
      DeclaredEntry(front, i);
      assert front[i] == specs[i];
    }
  }

  lemma EdgesOfKeys(specs: seq<NodeSpec>)
    ensures forall k :: k in EdgesOf(specs) <==> exists i :: 0 <= i < |specs| && specs[i].key == k
    ensures forall k :: k in EdgesOf(specs) ==>
                          exists i :: 0 <= i < |specs| && specs[i].key == k && specs[i].after == EdgesOf(specs)[k]
    ensures DistinctKeys(specs) ==>
              forall i :: 0 <= i < |specs| ==> specs[i].key in EdgesOf(specs) && EdgesOf(specs)[specs[i].key] == specs[i].after
  {
    hide EdgesOf, DistinctKeys;
    forall k | k in EdgesOf(specs)
      ensures exists i :: 0 <= i < |specs| && specs[i].key == k && specs[i].after == EdgesOf(specs)[k]
    {
      var i := DeclarationOf(specs, k);
    }
    forall i | 0 <= i < |specs|
      ensures specs[i].key in EdgesOf(specs)
      ensures DistinctKeys(specs) ==> EdgesOf(specs)[specs[i].key] == specs[i].after
    {
      DeclaredEntry(specs, i);
    }
  }

  lemma DependenciesChecked(specs: seq<NodeSpec>)
    requires forall i :: 0 <= i < |specs| ==> SoundDependencies(specs, specs[i])
    ensures Closed(EdgesOf(specs))
  {
    EdgesOfKeys(specs);
    var edges := EdgesOf(specs);
    forall k, d | k in edges && d in edges[k]
      ensures d in edges
    {
      var i :| 0 <= i < |specs| && specs[i].key == k && specs[i].after == edges[k];
      assert SoundDependencies(specs, specs[i]);
    }
  }

  lemma FaultyDependencies(specs: seq<NodeSpec>, i: nat)
    requires i < |specs| && DistinctKeys(specs) && !SoundDependencies(specs, specs[i])
    ensures !Acceptable(specs)
  {
    EdgesOfKeys(specs);
    var k := specs[i].key;
    assert EdgesOf(specs)[k] == specs[i].after;
    if k in specs[i].after {
      assert Cycle(EdgesOf(specs), [k, k]);
    }
  }

  /** The checks of `Graph.start`, in its order. */
  method ValidatePlan(specs: seq<NodeSpec>) returns (r: Result<map<Key, nat>, PlanError>)
    ensures r.Ok? <==> Acceptable(specs)
    ensures r.Ok? ==> r.value.Keys == EdgesOf(specs).Keys
    ensures r.Ok? ==> forall k :: k in r.value ==> LongestWalk(EdgesOf(specs), k, r.value[k])
    ensures r == Err(EmptyPlan) <==> specs == []
    ensures r == Err(DuplicateKeys) <==> specs != [] && !DistinctKeys(specs)
    ensures r == Err(CyclicPlan) ==> Cyclic(EdgesOf(specs))
    ensures r.Err? && (r.error.SelfDependency? || r.error.UnknownDependency?) ==>
              exists i :: 0 <= i < |specs| && specs[i].key == r.error.key && !SoundDependencies(specs, specs[i])
  {
    hide LongestWalk, Ordered, Cyclic, EdgesOf;
    if |specs| == 0 {
      return Err(EmptyPlan);
    }
    var keys: set<Key> := {};
    for i := 0 to |specs|
      invariant forall j :: 0 <= j < i ==> specs[j].key in keys
      invariant forall k :: k in keys ==> exists j :: 0 <= j < i && specs[j].key == k
      invariant forall j, l :: 0 <= j < l < i ==> specs[j].key != specs[l].key
    {
      if specs[i].key in keys {
        return Err(DuplicateKeys);
      }
      keys := keys + {specs[i].key};
    }
    var edges := EdgesOf(specs);
    EdgesOfKeys(specs);
    for i := 0 to |specs|
      invariant forall j :: 0 <= j < i ==> SoundDependencies(specs, specs[j])
    {
      if specs[i].key in specs[i].after {
        FaultyDependencies(specs, i);
        return Err(SelfDependency(specs[i].key));
      }
      if exists d :: d in specs[i].after && d !in keys {
        FaultyDependencies(specs, i);
        return Err(UnknownDependency(specs[i].key));
      }
    }
    DependenciesChecked(specs);
    var cyclic, order := HasCycle(edges);
    if cyclic {
      return Err(CyclicPlan);
    }
    var depths := ComputeDepths(edges, order);
    r := Ok(depths);
  }
}
