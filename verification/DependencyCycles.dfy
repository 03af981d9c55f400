/** Why the greedy order can stop early, and the cycle that explains it. */
module DependencyCycles {
  import opened Collections
  import opened DependencyOrder

  /** The first listed dependency that is still stuck. */
  function FirstIn(s: seq<Id>, keep: set<Id>): (r: Option<Id>)
    ensures r.None? <==> forall x | x in s :: x !in keep
    ensures r.Some? ==> r.value in s && r.value in keep
  {
    if s == [] then None else if s[0] in keep then Some(s[0]) else FirstIn(s[1..], keep)
  }

  function IndexOf(s: seq<Id>, x: Id): (i: nat)
    requires x in s
    ensures i < |s| && s[i] == x && x !in s[..i]
  {
    if s[0] == x then 0 else 1 + IndexOf(s[1..], x)
  }

  /** A walk in progress: distinct nodes, each depending on the next, the last on `current`. */
  predicate Walking(d: Depends, path: seq<Id>, current: Id) {
    Distinct(path) && (path != [] ==> IsPath(d, path) && current in d[Last(path)])
  }

  lemma WalkAdvances(d: Depends, path: seq<Id>, current: Id)
    requires current in d && current !in path
    ensures |d.Keys - Elements(path + [current])| < |d.Keys - Elements(path)|
  {
    assert current in d.Keys - Elements(path);
    ElementsSnoc(path, current);
    SubsetCardinalityStrict(d.Keys - Elements(path + [current]), d.Keys - Elements(path));
  }

  /** Follows first stuck dependencies from `current` until a node repeats; the answer is the loop
      without the approach to it. */
  function Walk(d: Depends, stuck: set<Id>, path: seq<Id>, current: Id): Option<seq<Id>>
    requires Walking(d, path, current)
    decreases |d.Keys - Elements(path)|
  {
    if current in path then
      Some(path[IndexOf(path, current)..])
    else if current !in d then
      None
    else
      match FirstIn(d[current], stuck)
      case None => None
      case Some(next) =>
        WalkAdvances(d, path, current);
        Walk(d, stuck, path + [current], next)
  }

  /** Every member of the set has a dependency inside it, so no walk inside it can get out. */
  predicate Trapped(d: Depends, stuck: set<Id>) {
    forall n | n in stuck :: n in d && FirstIn(d[n], stuck).Some?
  }

  /** A simple cycle inside `stuck` that `start` needs. */
  ghost predicate IsLoop(d: Depends, stuck: set<Id>, start: Id, c: seq<Id>) {
    && IsCycle(d, c)
    && Distinct(c)
    && (forall x | x in c :: x in stuck)
    && Reaches(d, start, c[0])
  }

  lemma WalkCloses(d: Depends, stuck: set<Id>, path: seq<Id>, k: nat)
    requires k < |path| && Walking(d, path, path[k]) && forall x | x in path :: x in stuck
    ensures IsLoop(d, stuck, path[0], path[k..])
  {
    assert Last(path[k..]) == Last(path);
    assert IsPath(d, path[..k + 1]) && Last(path[..k + 1]) == path[k];
  }

  /** Where the walk stands, and where it set out from. */
  predicate WalkingFrom(d: Depends, stuck: set<Id>, start: Id, path: seq<Id>, current: Id) {
    && Walking(d, path, current)
    && current in stuck
    && (forall x | x in path :: x in stuck)
    && start == if path == [] then current else path[0]
  }

  lemma WalkingExtends(d: Depends, path: seq<Id>, current: Id, next: Id)
    requires Walking(d, path, current) && current in d && current !in path && next in d[current]
    ensures Walking(d, path + [current], next)
  {
    var path' := path + [current];
    forall i | 0 <= i < |path'| - 1 ensures path'[i + 1] in d[path'[i]] {
      if i == |path| - 1 {
        assert path'[i] == Last(path);
      }
    }
  }

  lemma WalkExtends(d: Depends, stuck: set<Id>, start: Id, path: seq<Id>, current: Id, next: Id)
    requires WalkingFrom(d, stuck, start, path, current)
    requires current in d && current !in path && next in d[current] && next in stuck
    ensures WalkingFrom(d, stuck, start, path + [current], next)
  {
    WalkingExtends(d, path, current, next);
  }

  lemma {:induction false} WalkFindsCycle(d: Depends, stuck: set<Id>, start: Id, path: seq<Id>, current: Id)
    requires Trapped(d, stuck) && WalkingFrom(d, stuck, start, path, current)
    ensures Walk(d, stuck, path, current).Some?
    ensures IsLoop(d, stuck, start, Walk(d, stuck, path, current).value)
    decreases |d.Keys - Elements(path)|
  {
    if current in path {
      WalkCloses(d, stuck, path, IndexOf(path, current));
    } else {
      var next := FirstIn(d[current], stuck).value;
      WalkAdvances(d, path, current);
      WalkExtends(d, stuck, start, path, current, next);
      WalkFindsCycle(d, stuck, start, path + [current], next);
    }
  }

  /** No node of a cycle is ever in a deployment order. */
  lemma {:induction false} CycleNeverPlaced(d: Depends, t: seq<Id>, c: seq<Id>, i: nat)
    requires Continues(d, {}, t) && IsCycle(d, c) && i < |t|
    ensures t[i] !in c
    decreases i
  {
    if t[i] in c {
      var j :| 0 <= j < |c| && c[j] == t[i];
      var next := if j + 1 < |c| then c[j + 1] else c[0];
      assert next in d[t[i]];
      assert next in t[..i];
      var m :| 0 <= m < i && t[..i][m] == next;
      CycleNeverPlaced(d, t, c, m);
    }
  }

  /** What a placed node depends on, directly or not, is placed. */
  lemma {:induction false} PlacedPath(d: Depends, t: seq<Id>, p: seq<Id>)
    requires Continues(d, {}, t) && IsPath(d, p) && p[0] in t
    ensures Last(p) in t
    decreases |p|
  {
    if |p| > 1 {
      var i :| 0 <= i < |t| && t[i] == p[0];
      assert p[1] in t[..i];
      assert p[1] in t;
      PlacedPath(d, t, p[1..]);
    }
  }

  /** The two reasons a node cannot be ordered: it needs a cycle, or it needs a node whose manifest
      repeats a dependency (the counter of such a node never reaches zero). */
  ghost predicate Unorderable(d: Depends, n: Id) {
    ReachesCycle(d, n) || exists m: Id :: Reaches(d, n, m) && !Distinct(d[m])
  }

  lemma ReachesSelf(d: Depends, a: Id)
    requires a in d
    ensures Reaches(d, a, a)
  {
    assert IsPath(d, [a]) && Last([a]) == a;
  }

  lemma ReachesStep(d: Depends, a: Id, b: Id, x: Id)
    requires Reaches(d, a, b) && b in d && x in d[b] && x in d
    ensures Reaches(d, a, x)
  {
    var p: seq<Id> :| IsPath(d, p) && p[0] == a && Last(p) == b;
    var q := p + [x];
    forall i | 0 <= i < |q| - 1 ensures q[i + 1] in d[q[i]] {
      if i == |p| - 1 {
        assert q[i] == Last(p);
      }
    }
    assert IsPath(d, q) && Last(q) == x;
  }

  lemma {:induction false} KahnPlacesDistinct(d: Depends, placed: set<Id>, n: Id)
    requires n in KahnFrom(d, placed)
    ensures n in d && Distinct(d[n])
    decreases |d.Keys - placed|
  {
    if Ready(d, placed) != {} {
      var next := Min(Ready(d, placed));
      assert IsReady(d, placed, next);
      assert d.Keys - (placed + {next}) == d.Keys - placed - {next};
      if n != next {
        KahnPlacesDistinct(d, placed + {next}, n);
      }
    }
  }

  lemma PlacedIsOrderable(d: Depends, n: Id)
    requires n in Kahn(d)
    ensures !Unorderable(d, n)
  {
    var t := Kahn(d);
    KahnContinues(d, {});
    forall m: Id | Reaches(d, n, m) ensures m in t && Distinct(d[m]) {
      var p: seq<Id> :| IsPath(d, p) && p[0] == n && Last(p) == m;
      PlacedPath(d, t, p);
      KahnPlacesDistinct(d, {}, m);
    }
    forall c: seq<Id> | IsCycle(d, c) ensures c[0] !in t {
      if c[0] in t {
        var i :| 0 <= i < |t| && t[i] == c[0];
        CycleNeverPlaced(d, t, c, i);
      }
    }
  }

  lemma LeftOutReachesCycle(d: Depends, n: Id)
    requires Closed(d) && n in d && n !in Kahn(d)
    requires forall m: Id | Reaches(d, n, m) :: Distinct(d[m])
    ensures ReachesCycle(d, n)
  {
    var stuck := set m | m in d && m !in Kahn(d) && Reaches(d, n, m);
    forall m | m in stuck ensures FirstIn(d[m], stuck).Some? {
      KahnExhausts(d, {}, m);
      var x :| x in d[m] && x !in Kahn(d);
      ReachesStep(d, n, m, x);
      assert x in stuck;
    }
    ReachesSelf(d, n);
    WalkFindsCycle(d, stuck, n, [], n);
  }

  /** The nodes left out of the greedy order are exactly those that need a cycle or a repeated
      dependency. */
  lemma UnplacedExactly(d: Depends, n: Id)
    requires Closed(d) && n in d
    ensures n !in Kahn(d) <==> Unorderable(d, n)
  {
    if n in Kahn(d) {
      PlacedIsOrderable(d, n);
    } else if forall m: Id | Reaches(d, n, m) :: Distinct(d[m]) {
      LeftOutReachesCycle(d, n);
    }
  }

  lemma KahnIsShort(d: Depends)
    ensures (forall n | n in d :: n in Kahn(d)) <==> |Kahn(d)| == |d|
    ensures |Kahn(d)| <= |d|
  {
    var t := Kahn(d);
    KahnContinues(d, {});
    ElementsCardinality(t);
    SubsetCardinality(Elements(t), d.Keys);
    assert (forall n | n in d :: n in t) <==> d.Keys == Elements(t);
  }

  lemma OrderableExactly(d: Depends)
    ensures (forall n | n in d :: !Unorderable(d, n)) <==> Acyclic(d) && DistinctDepends(d)
  {
    if forall n | n in d :: !Unorderable(d, n) {
      forall c: seq<Id> ensures !IsCycle(d, c) {
        if IsCycle(d, c) {
          ReachesSelf(d, c[0]);
        }
      }
      forall n | n in d ensures Distinct(d[n]) {
        ReachesSelf(d, n);
      }
    }
  }

  /** The order is complete exactly when there is no cycle and no repeated dependency. */
  lemma CompleteExactly(d: Depends)
    requires Closed(d)
    ensures |Kahn(d)| == |d| <==> Acyclic(d) && DistinctDepends(d)
  {
    forall n | n in d ensures n !in Kahn(d) <==> Unorderable(d, n) {
      UnplacedExactly(d, n);
    }
    KahnIsShort(d);
    OrderableExactly(d);
  }

  /** An acyclic graph has a deployment order, the greedy order is one, and every other is after it
      in lexicographic order: the plan does not depend on how the graph was read. */
  lemma LeastOrder(d: Depends)
    requires Closed(d) && DistinctDepends(d) && Acyclic(d)
    ensures Topological(d, Kahn(d))
    ensures forall t | Topological(d, t) :: LexLeq(Kahn(d), t)
  {
    CompleteExactly(d);
    KahnIsShort(d);
    KahnContinues(d, {});
    forall t | Topological(d, t) ensures LexLeq(Kahn(d), t) {
      KahnLeast(d, {}, t);
    }
  }

  lemma {:induction false} PathDescends(d: Depends, p: seq<Id>)
    requires IsPath(d, p) && forall n | n in d :: forall x | x in d[n] :: x < n
    ensures Last(p) <= p[0]
    decreases |p|
  {
    if |p| > 1 {
      PathDescends(d, p[1..]);
      assert p[0 + 1] in d[p[0]];
    }
  }

  /** A manifest that lists a dependency twice stalls the sort without there being any cycle: its
      counter is never taken down to zero. */
  lemma RepeatedDependencyStalls()
    ensures var d: Depends := map[1 := [], 2 := [1, 1]];
      Closed(d) && Acyclic(d) && |Kahn(d)| != |d|
  {
    var d: Depends := map[1 := [], 2 := [1, 1]];
    forall c: seq<Id> ensures !IsCycle(d, c) {
      if IsPath(d, c) {
        PathDescends(d, c);
      }
    }
    assert d[2][0] == d[2][1];
    CompleteExactly(d);
  }
}
