/** The dependency graph of tasks: an upward depth-first walk and a downward fixed point. */
module DependencyGraph {
  import opened Common

  // Each task with the tasks it depends on, in stored order.
  type Graph = map<Id, seq<Id>>

  function Insert(x: Id, s: seq<Id>): seq<Id> {
    if s == [] || x <= s[0] then [x] + s else [s[0]] + Insert(x, s[1..])
  }

  function Sort(s: seq<Id>): seq<Id> {
    if s == [] then [] else Insert(s[0], Sort(s[1..]))
  }

  ghost predicate Ascending(s: seq<Id>) {
    forall i, j | 0 <= i < j < |s| :: s[i] <= s[j]
  }

  lemma {:induction false} InsertElements(x: Id, s: seq<Id>)
    ensures multiset(Insert(x, s)) == multiset{x} + multiset(s)
    ensures forall y :: y in Insert(x, s) <==> y == x || y in s
  {
    if s == [] || x <= s[0] {
    } else {
      InsertElements(x, s[1..]);
      assert s == [s[0]] + s[1..];
    }
  }

  lemma {:induction false} InsertAscending(x: Id, s: seq<Id>)
    requires Ascending(s)
    ensures Ascending(Insert(x, s))
  {
    if s == [] || x <= s[0] {
    } else {
      InsertAscending(x, s[1..]);
      InsertElements(x, s[1..]);
      var rest := Insert(x, s[1..]);
      forall i | 0 <= i < |rest|
        ensures s[0] <= rest[i]
      {
        assert rest[i] in rest;
      }
    }
  }

  /** Sorting permutes its input into ascending order. */
  lemma {:induction false} SortIsSorted(s: seq<Id>)
    ensures multiset(Sort(s)) == multiset(s)
    ensures Ascending(Sort(s))
    ensures forall x :: x in Sort(s) <==> x in s
  {
    if s == [] {
    } else {
      SortIsSorted(s[1..]);
      InsertElements(s[0], Sort(s[1..]));
      InsertAscending(s[0], Sort(s[1..]));
      assert s == [s[0]] + s[1..];
    }
  }

  // ----- Reachability, the reference definition of the closure -----

  ghost predicate ReachIn(g: Graph, a: Id, b: Id, n: nat)
    decreases n
  {
    if n == 0 then a == b
    else a in g && exists p :: p in g[a] && ReachIn(g, p, b, n - 1)
  }

  ghost predicate Reach(g: Graph, a: Id, b: Id) {
    exists n: nat :: ReachIn(g, a, b, n)
  }

  ghost predicate ReachPlus(g: Graph, a: Id, b: Id) {
    exists n: nat :: n > 0 && ReachIn(g, a, b, n)
  }

  ghost predicate Complete(g: Graph, t: Id) {
    forall k :: Reach(g, t, k) ==> k in g
  }

  ghost predicate Acyclic(g: Graph, t: Id) {
    forall k, n: nat :: Reach(g, t, k) && ReachIn(g, k, k, n) ==> n == 0
  }

  lemma {:induction false} ReachInTransitive(g: Graph, a: Id, b: Id, c: Id, m: nat, n: nat)
    requires ReachIn(g, a, b, m) && ReachIn(g, b, c, n)
    ensures ReachIn(g, a, c, m + n)
    decreases m
  {
    if m > 0 {
      var p :| p in g[a] && ReachIn(g, p, b, m - 1);
      ReachInTransitive(g, p, b, c, m - 1, n);
    }
  }

  lemma ReachTransitive(g: Graph, a: Id, b: Id, c: Id)
    requires Reach(g, a, b) && Reach(g, b, c)
    ensures Reach(g, a, c)
  {
    var m: nat :| ReachIn(g, a, b, m);
    var n: nat :| ReachIn(g, b, c, n);
    ReachInTransitive(g, a, b, c, m, n);
  }

  lemma ReachParent(g: Graph, a: Id, p: Id)
    requires a in g && p in g[a]
    ensures ReachIn(g, a, p, 1) && Reach(g, a, p)
  {
    assert ReachIn(g, p, p, 0);
    assert ReachIn(g, a, p, 1);
  }

  lemma ReachSelf(g: Graph, a: Id)
    ensures Reach(g, a, a)
  {
    assert ReachIn(g, a, a, 0);
  }

  // ----- The walk, as a function of the tasks already listed -----

  function WalkFrom(g: Graph, key: Id, visiting: set<Id>, ordered: seq<Id>): Result<seq<Id>>
    decreases g.Keys - visiting, 0
  {
    if key in visiting then Err(DependencyCycle)
    else if key in ordered then Ok(ordered)
    else if key !in g then Err(DependencyMissing)
    else
      assert g.Keys - (visiting + {key}) < g.Keys - visiting;
      var after :- WalkAll(g, Sort(g[key]), visiting + {key}, ordered);
      Ok(after + [key])
  }

  function WalkAll(g: Graph, parents: seq<Id>, visiting: set<Id>, ordered: seq<Id>): Result<seq<Id>>
    decreases g.Keys - visiting, |parents|
  {
    if parents == [] then Ok(ordered)
    else
      var after :- WalkFrom(g, parents[0], visiting, ordered);
      WalkAll(g, parents[1..], visiting, after)
  }

  /** The closure of a task, parents before children, or the reason there is none. */
  function Ancestors(g: Graph, t: Id): Result<seq<Id>> {
    WalkFrom(g, t, {}, [])
  }

  // Every listed task exists and all its parents are listed before it.
  ghost predicate Topological(g: Graph, s: seq<Id>) {
    forall i | 0 <= i < |s| :: s[i] in g && forall p | p in g[s[i]] :: p in s[..i]
  }

  ghost predicate Listing(g: Graph, visiting: set<Id>, s: seq<Id>) {
    && NoDuplicates(s)
    && Topological(g, s)
    && forall v | v in visiting :: v !in s
  }

  lemma ListingSnoc(g: Graph, visiting: set<Id>, s: seq<Id>, key: Id)
    requires Listing(g, visiting + {key}, s) && key in g && key !in visiting
    requires forall p | p in g[key] :: p in s
    ensures Listing(g, visiting, s + [key])
  {
    var r := s + [key];
    forall i | 0 <= i < |r|
      ensures r[i] in g && forall p | p in g[r[i]] :: p in r[..i]
    {
      if i < |s| {
        assert r[..i] == s[..i];
      } else {
        assert r[..i] == s;
      }
    }
  }

  lemma {:induction false} WalkFromSound(g: Graph, key: Id, visiting: set<Id>, ordered: seq<Id>)
    requires Listing(g, visiting, ordered)
    requires WalkFrom(g, key, visiting, ordered).Ok?
    ensures var r := WalkFrom(g, key, visiting, ordered).value;
      && Listing(g, visiting, r) && ordered <= r && key in r
      && (forall x | x in r[|ordered|..] :: Reach(g, key, x))
      && (key !in ordered ==> r[|r| - 1] == key)
    decreases g.Keys - visiting, 0
  {
    var r := WalkFrom(g, key, visiting, ordered).value;
    if key in ordered {
    } else {
      var inner := visiting + {key};
      assert g.Keys - inner < g.Keys - visiting;
      SortIsSorted(g[key]);
      WalkAllSound(g, Sort(g[key]), inner, ordered);
      var after := WalkAll(g, Sort(g[key]), inner, ordered).value;
      assert r == after + [key];
      ListingSnoc(g, visiting, after, key);
      forall x | x in r[|ordered|..]
        ensures Reach(g, key, x)
      {
        if x == key {
          ReachSelf(g, key);
        } else {
          assert r[|ordered|..] == after[|ordered|..] + [key];
          var p :| p in Sort(g[key]) && Reach(g, p, x);
          ReachParent(g, key, p);
          ReachTransitive(g, key, p, x);
        }
      }
    }
  }

  lemma {:induction false} WalkAllSound(g: Graph, parents: seq<Id>, visiting: set<Id>, ordered: seq<Id>)
    requires Listing(g, visiting, ordered)
    requires WalkAll(g, parents, visiting, ordered).Ok?
    ensures var r := WalkAll(g, parents, visiting, ordered).value;
      && Listing(g, visiting, r) && ordered <= r
      && (forall p | p in parents :: p in r)
      && (forall x | x in r[|ordered|..] :: exists p :: p in parents && Reach(g, p, x))
    decreases g.Keys - visiting, |parents|
  {
    if parents == [] {
    } else {
      WalkFromSound(g, parents[0], visiting, ordered);
      var after := WalkFrom(g, parents[0], visiting, ordered).value;
      WalkAllSound(g, parents[1..], visiting, after);
      var r := WalkAll(g, parents[1..], visiting, after).value;
      assert parents == [parents[0]] + parents[1..];
      assert r == after + r[|after|..];
      assert r[|ordered|..] == after[|ordered|..] + r[|after|..];
      forall x | x in r[|ordered|..]
        ensures exists p :: p in parents && Reach(g, p, x)
      {
        if x in after[|ordered|..] {
          assert Reach(g, parents[0], x);
        } else {
          var p :| p in parents[1..] && Reach(g, p, x);
          assert p in parents;
        }
      }
    }
  }

  // A topological listing is closed under the dependency edges.
  lemma {:induction false} ListingClosed(g: Graph, s: seq<Id>, i: nat, k: Id, n: nat)
    requires Topological(g, s) && i < |s| && ReachIn(g, s[i], k, n)
    ensures k in s[..i + 1]
    ensures n > 0 ==> k in s[..i]
    decreases n
  {
    if n > 0 {
      var p :| p in g[s[i]] && ReachIn(g, p, k, n - 1);
      assert p in s[..i];
      var j :| 0 <= j < i && s[j] == p;
      ListingClosed(g, s, j, k, n - 1);
      var m :| 0 <= m < j + 1 && s[m] == k;
      assert s[..i][m] == k;
    }
  }

  /** A normal return lists exactly the reachable tasks, once each, parents first, the task last. */
  lemma AncestorsExact(g: Graph, t: Id)
    requires Ancestors(g, t).Ok?
    ensures var r := Ancestors(g, t).value;
      && NoDuplicates(r) && Topological(g, r)
      && |r| > 0 && r[|r| - 1] == t
      && forall k :: k in r <==> Reach(g, t, k)
  {
    WalkFromSound(g, t, {}, []);
    var r := Ancestors(g, t).value;
    assert r[0..] == r;
    forall k
      ensures k in r <==> Reach(g, t, k)
    {
      if Reach(g, t, k) {
        var n: nat :| ReachIn(g, t, k, n);
        ListingClosed(g, r, |r| - 1, k, n);
      }
    }
  }

  lemma {:induction false} WalkFromTotal(g: Graph, root: Id, key: Id, visiting: set<Id>, ordered: seq<Id>)
    requires Reach(g, root, key)
    requires forall v | v in visiting :: Reach(g, root, v) && ReachPlus(g, v, key)
    ensures Complete(g, root) && Acyclic(g, root) ==> WalkFrom(g, key, visiting, ordered).Ok?
    ensures WalkFrom(g, key, visiting, ordered).Err? ==>
      var e := WalkFrom(g, key, visiting, ordered).error;
      && (e == DependencyCycle || e == DependencyMissing)
      && (Complete(g, root) ==> e == DependencyCycle)
      && (Acyclic(g, root) ==> e == DependencyMissing)
    decreases g.Keys - visiting, 0
  {
    if key in visiting {
      var n: nat :| n > 0 && ReachIn(g, key, key, n);
      assert !Acyclic(g, root);
    } else if key !in ordered && key in g {
      var inner := visiting + {key};
      assert g.Keys - inner < g.Keys - visiting;
      SortIsSorted(g[key]);
      forall p, v | p in g[key] && v in inner
        ensures Reach(g, root, v) && ReachPlus(g, v, p)
      {
        ReachParent(g, key, p);
        if v != key {
          var n: nat :| n > 0 && ReachIn(g, v, key, n);
          ReachInTransitive(g, v, key, p, n, 1);
        }
      }
      forall p | p in g[key]
        ensures Reach(g, root, p)
      {
        ReachParent(g, key, p);
        ReachTransitive(g, root, key, p);
      }
      WalkAllTotal(g, root, Sort(g[key]), inner, ordered);
    }
  }

  lemma {:induction false} WalkAllTotal(g: Graph, root: Id, parents: seq<Id>, visiting: set<Id>, ordered: seq<Id>)
    requires forall p | p in parents :: Reach(g, root, p)
    requires forall p, v | p in parents && v in visiting ::
      Reach(g, root, v) && ReachPlus(g, v, p)
    ensures Complete(g, root) && Acyclic(g, root) ==> WalkAll(g, parents, visiting, ordered).Ok?
    ensures WalkAll(g, parents, visiting, ordered).Err? ==>
      var e := WalkAll(g, parents, visiting, ordered).error;
      && (e == DependencyCycle || e == DependencyMissing)
      && (Complete(g, root) ==> e == DependencyCycle)
      && (Acyclic(g, root) ==> e == DependencyMissing)
    decreases g.Keys - visiting, |parents|
  {
    if parents != [] {
      WalkFromTotal(g, root, parents[0], visiting, ordered);
      var first := WalkFrom(g, parents[0], visiting, ordered);
      if first.Ok? {
        WalkAllTotal(g, root, parents[1..], visiting, first.value);
      }
    }
  }

  /** The walk returns normally exactly when the reachable part is complete and acyclic. */
  lemma AncestorsReturnsIff(g: Graph, t: Id)
    ensures Ancestors(g, t).Ok? <==> Complete(g, t) && Acyclic(g, t)
    ensures Ancestors(g, t).Err? ==>
      Ancestors(g, t).error == DependencyCycle || Ancestors(g, t).error == DependencyMissing
    ensures Ancestors(g, t).Err? && Complete(g, t) ==> Ancestors(g, t).error == DependencyCycle
    ensures Ancestors(g, t).Err? && Acyclic(g, t) ==> Ancestors(g, t).error == DependencyMissing
  {
    ReachSelf(g, t);
    WalkFromTotal(g, t, t, {}, []);
    if Ancestors(g, t).Ok? {
      AncestorsExact(g, t);
      var r := Ancestors(g, t).value;
      forall k, n: nat | Reach(g, t, k) && ReachIn(g, k, k, n)
        ensures n == 0
      {
        var i :| 0 <= i < |r| && r[i] == k;
        ListingClosed(g, r, i, k, n);
      }
    }
  }

  // ----- Whole graphs -----

  // Every task of the graph has a closure.
  ghost predicate GraphOk(g: Graph) {
    forall t | t in g :: Ancestors(g, t).Ok?
  }

  // The set of tasks in a closure.
  function Closure(g: Graph, t: Id): set<Id>
    requires Ancestors(g, t).Ok?
  {
    set k | k in Ancestors(g, t).value
  }

  lemma ClosureIsReach(g: Graph, t: Id)
    requires Ancestors(g, t).Ok?
    ensures forall k :: k in Closure(g, t) <==> Reach(g, t, k)
    ensures Closure(g, t) <= g.Keys && t in Closure(g, t)
  {
    AncestorsExact(g, t);
    ReachSelf(g, t);
  }

  /** Closures nest: an ancestor's closure is part of the closure, and never leads back. */
  lemma ClosureNested(g: Graph, t: Id, a: Id)
    requires Ancestors(g, t).Ok? && a in Closure(g, t)
    ensures Ancestors(g, a).Ok? && Closure(g, a) <= Closure(g, t)
    ensures a != t ==> t !in Closure(g, a)
  {
    ClosureIsReach(g, t);
    AncestorsReturnsIff(g, t);
    forall k | Reach(g, a, k)
      ensures Reach(g, t, k)
    {
      ReachTransitive(g, t, a, k);
    }
    AncestorsReturnsIff(g, a);
    ClosureIsReach(g, a);
    if a != t && t in Closure(g, a) {
      var m: nat :| ReachIn(g, t, a, m);
      var n: nat :| ReachIn(g, a, t, n);
      ReachInTransitive(g, t, a, t, m, n);
      ReachSelf(g, t);
    }
  }

  // A task listed in a closure comes after its whole own closure.
  lemma ClosureBefore(g: Graph, t: Id, i: nat)
    requires Ancestors(g, t).Ok? && i < |Ancestors(g, t).value|
    ensures var r := Ancestors(g, t).value;
      Ancestors(g, r[i]).Ok? && forall k | k in Closure(g, r[i]) :: k in r[..i + 1]
  {
    AncestorsExact(g, t);
    var r := Ancestors(g, t).value;
    ClosureNested(g, t, r[i]);
    ClosureIsReach(g, r[i]);
    forall k | k in Closure(g, r[i])
      ensures k in r[..i + 1]
    {
      var n: nat :| ReachIn(g, r[i], k, n);
      ListingClosed(g, r, i, k, n);
    }
  }

  // ----- Adding a task that nothing refers to -----

  ghost predicate ClosedGraph(g: Graph) {
    forall t, p | t in g && p in g[t] :: p in g
  }

  lemma GraphOkClosed(g: Graph)
    requires GraphOk(g)
    ensures ClosedGraph(g)
  {
    forall t, p | t in g && p in g[t]
      ensures p in g
    {
      ClosureIsReach(g, t);
      ReachParent(g, t, p);
    }
  }

  lemma {:induction false} WalkFromExtended(g: Graph, t: Id, ps: seq<Id>, key: Id, visiting: set<Id>, ordered: seq<Id>)
    requires ClosedGraph(g) && t !in g && key in g
    ensures WalkFrom(g[t := ps], key, visiting, ordered) == WalkFrom(g, key, visiting, ordered)
    decreases g.Keys - visiting, 0
  {
    if key !in visiting && key !in ordered {
      assert g.Keys - (visiting + {key}) < g.Keys - visiting;
      SortIsSorted(g[key]);
      WalkAllExtended(g, t, ps, Sort(g[key]), visiting + {key}, ordered);
    }
  }

  lemma {:induction false} WalkAllExtended(g: Graph, t: Id, ps: seq<Id>, parents: seq<Id>, visiting: set<Id>,
                                           ordered: seq<Id>)
    requires ClosedGraph(g) && t !in g && forall p | p in parents :: p in g
    ensures WalkAll(g[t := ps], parents, visiting, ordered) == WalkAll(g, parents, visiting, ordered)
    decreases g.Keys - visiting, |parents|
  {
    if parents != [] {
      WalkFromExtended(g, t, ps, parents[0], visiting, ordered);
      var after := WalkFrom(g, parents[0], visiting, ordered);
      if after.Ok? {
        WalkAllExtended(g, t, ps, parents[1..], visiting, after.value);
      }
    }
  }

  lemma {:induction false} ReachInExtended(g: Graph, t: Id, ps: seq<Id>, a: Id, b: Id, n: nat)
    requires ClosedGraph(g) && t !in g && a in g
    requires ReachIn(g[t := ps], a, b, n)
    ensures b in g
    decreases n
  {
    if n > 0 {
      var p :| p in g[a] && ReachIn(g[t := ps], p, b, n - 1);
      ReachInExtended(g, t, ps, p, b, n - 1);
    }
  }

  /** A new task with existing parents leaves every old closure alone and has one of its own. */
  lemma GraphExtended(g: Graph, t: Id, ps: seq<Id>)
    requires GraphOk(g) && t !in g && forall p | p in ps :: p in g
    ensures GraphOk(g[t := ps])
    ensures forall k | k in g :: Ancestors(g[t := ps], k) == Ancestors(g, k)
  {
    var g' := g[t := ps];
    GraphOkClosed(g);
    forall k | k in g
      ensures Ancestors(g', k) == Ancestors(g, k)
    {
      WalkFromExtended(g, t, ps, k, {}, []);
    }
    forall k | Reach(g', t, k)
      ensures k in g' && forall n: nat | ReachIn(g', k, k, n) :: n == 0
    {
      var n: nat :| ReachIn(g', t, k, n);
      if n == 0 {
        forall m: nat | ReachIn(g', t, t, m)
          ensures m == 0
        {
          if m > 0 {
            var p :| p in ps && ReachIn(g', p, t, m - 1);
            ReachInExtended(g, t, ps, p, t, m - 1);
          }
        }
      } else {
        var p :| p in ps && ReachIn(g', p, k, n - 1);
        assert Reach(g', p, k);
        AncestorsReturnsIff(g', p);
      }
    }
    AncestorsReturnsIff(g', t);
  }

  // ----- The walk, as the service runs it -----

  /** The three collections that one call of the walk updates in place. */
  class AncestorWalk {
    const graph: Graph
    var visited: set<Id>
    var visiting: set<Id>
    var ordered: seq<Id>

    constructor (graph: Graph)
      ensures this.graph == graph && visited == {} && visiting == {} && ordered == []
    {
      this.graph := graph;
      visited, visiting, ordered := {}, {}, [];
    }

    ghost predicate Valid()
      reads this
    {
      visited == set k | k in ordered
    }

    method Walk(key: Id) returns (r: Result<()>)
      requires Valid()
      modifies this
      ensures r.Err? ==> WalkFrom(graph, key, old(visiting), old(ordered)) == Err(r.error)
      ensures r.Ok? ==> WalkFrom(graph, key, old(visiting), old(ordered)) == Ok(ordered)
      ensures r.Ok? ==> Valid() && visiting == old(visiting)
      decreases graph.Keys - visiting
    {
      if key in visiting {
        return Err(DependencyCycle);
      }
      if key in visited {
        return Ok(());
      }
      if key !in graph {
        return Err(DependencyMissing);
      }
      ghost var before, listed := visiting, ordered;
      visiting := visiting + {key};
      ghost var inner := visiting;
      assert graph.Keys - inner < graph.Keys - before;
      var parents := Sort(graph[key]);
      var i := 0;
      while i < |parents|
        invariant 0 <= i <= |parents|
        invariant Valid() && visiting == inner
        invariant WalkAll(graph, parents, inner, listed) == WalkAll(graph, parents[i..], inner, ordered)
      {
        var step := Walk(parents[i]);
        if step.Err? {
          return step;
        }
        i := i + 1;
      }
      visiting := visiting - {key};
      visited := visited + {key};
      ordered := ordered + [key];
      assert visiting == before;
      return Ok(());
    }
  }

  method AncestorsOf(g: Graph, t: Id) returns (r: Result<seq<Id>>)
    ensures r == Ancestors(g, t)
  {
    var walk := new AncestorWalk(g);
    var done := walk.Walk(t);
    r := if done.Ok? then Ok(walk.ordered) else Err(done.error);
  }

  // ----- The downward fixed point -----

  ghost predicate ReachesSome(g: Graph, k: Id, seeds: set<Id>) {
    exists j :: j in seeds && Reach(g, k, j)
  }

  // The tasks from which some seed can be reached.
  ghost function Downstream(g: Graph, seeds: set<Id>): set<Id> {
    set k | k in g && ReachesSome(g, k, seeds)
  }

  ghost predicate NoParentIn(g: Graph, a: Id, s: set<Id>)
    requires a in g
  {
    forall p | p in g[a] :: p !in s
  }

  lemma {:induction false} ClosedSetKeepsPaths(g: Graph, s: set<Id>, k: Id, j: Id, n: nat)
    requires forall a | a in g && a !in s :: NoParentIn(g, a, s)
    requires j in s && ReachIn(g, k, j, n)
    ensures k in s
    decreases n
  {
    if n > 0 && k !in s {
      assert NoParentIn(g, k, s);
      var p :| p in g[k] && ReachIn(g, p, j, n - 1);
      ClosedSetKeepsPaths(g, s, p, j, n - 1);
    }
  }

  lemma ChildReachesSome(g: Graph, k: Id, p: Id, seeds: set<Id>)
    requires k in g && p in g[k] && ReachesSome(g, p, seeds)
    ensures ReachesSome(g, k, seeds)
  {
    var j :| j in seeds && Reach(g, p, j);
    ReachParent(g, k, p);
    ReachTransitive(g, k, p, j);
  }

  // Once a level adds nothing, everything downstream has been found.
  lemma FixedPointIsDownstream(g: Graph, seeds: set<Id>, s: set<Id>)
    requires seeds <= s <= g.Keys
    requires forall k | k in s :: ReachesSome(g, k, seeds)
    requires forall a | a in g && a !in s :: NoParentIn(g, a, s)
    ensures s == Downstream(g, seeds)
  {
    forall k | k in g && ReachesSome(g, k, seeds)
      ensures k in s
    {
      var j :| j in seeds && Reach(g, k, j);
      var n: nat :| ReachIn(g, k, j, n);
      ClosedSetKeepsPaths(g, s, k, j, n);
    }
  }

  /** Grows the seeds level by level until no task is added; the result is everything downstream. */
  method Propagate(g: Graph, seeds: set<Id>) returns (result: set<Id>)
    requires seeds <= g.Keys
    ensures result == Downstream(g, seeds)
  {
    result := seeds;
    forall k | k in seeds
      ensures ReachesSome(g, k, seeds)
    {
      ReachSelf(g, k);
    }
    while true
      invariant seeds <= result <= g.Keys
      invariant forall k | k in result :: ReachesSome(g, k, seeds)
      decreases g.Keys - result
    {
      var added := set k | k in g && k !in result && exists p :: p in g[k] && p in result;
      if added == {} {
        forall a | a in g && a !in result
          ensures NoParentIn(g, a, result)
        {
          assert a !in added;
        }
        FixedPointIsDownstream(g, seeds, result);
        return;
      }
      forall k | k in added
        ensures ReachesSome(g, k, seeds)
      {
        var p :| p in g[k] && p in result;
        ChildReachesSome(g, k, p, seeds);
      }
      ghost var k :| k in added;
      assert k in g.Keys - result;
      result := result + added;
    }
  }

  /** The two directions agree: a task is downstream of the seeds iff its closure meets them. */
  lemma DownstreamIsClosureMeets(g: Graph, seeds: set<Id>)
    requires GraphOk(g)
    ensures Downstream(g, seeds) == set k | k in g && Closure(g, k) * seeds != {}
  {
    forall k | k in g
      ensures ReachesSome(g, k, seeds) <==> Closure(g, k) * seeds != {}
    {
      ClosureIsReach(g, k);
      if Closure(g, k) * seeds != {} {
        var j :| j in Closure(g, k) * seeds;
        assert j in seeds && Reach(g, k, j);
      }
      if ReachesSome(g, k, seeds) {
        var j :| j in seeds && Reach(g, k, j);
        assert j in Closure(g, k) * seeds;
      }
    }
  }
}
