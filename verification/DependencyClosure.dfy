/** How the greedy order behaves when the graph is cut down to a closure or grown by one node. */
module DependencyClosure {
  import opened Collections
  import opened DependencyOrder
  import opened DependencyCycles

  /** The subgraph induced by `keep`. */
  function Induced(d: Depends, keep: set<Id>): Depends {
    map n | n in d && n in keep :: d[n]
  }

  predicate DependencyClosed(d: Depends, keep: set<Id>) {
    forall n | n in d && n in keep :: forall x | x in d[n] :: x in keep
  }

  ghost function ReachableFrom(d: Depends, n: Id): set<Id> {
    set m | m in d && Reaches(d, n, m)
  }

  // ----- Restriction to a closure -----

  lemma ReadyRestricts(d: Depends, keep: set<Id>, placed: set<Id>)
    requires DependencyClosed(d, keep)
    ensures Ready(Induced(d, keep), placed * keep) == Ready(d, placed) * keep
  {
    forall n ensures n in Ready(Induced(d, keep), placed * keep) <==> n in Ready(d, placed) * keep {
    }
  }

  /** Sorting and then keeping a dependency-closed part gives the order that part has on its own. */
  lemma {:induction false} KahnRestricts(d: Depends, keep: set<Id>, placed: set<Id>)
    requires DependencyClosed(d, keep)
    ensures Filter(KahnFrom(d, placed), keep) == KahnFrom(Induced(d, keep), placed * keep)
    decreases |d.Keys - placed|
  {
    ReadyRestricts(d, keep, placed);
    if Ready(d, placed) != {} {
      var next := Min(Ready(d, placed));
      assert d.Keys - (placed + {next}) == d.Keys - placed - {next};
      KahnRestricts(d, keep, placed + {next});
      var rest := KahnFrom(d, placed + {next});
      assert ([next] + rest)[1..] == rest;
      if next in keep {
        assert next in Ready(d, placed) * keep;
        assert Min(Ready(d, placed) * keep) == next;
        assert (placed + {next}) * keep == placed * keep + {next};
      } else {
        assert (placed + {next}) * keep == placed * keep;
      }
    }
  }

  /** What one migration needs is closed, so selecting it keeps its own deployment order. */
  lemma ClosureOrder(d: Depends, n: Id)
    requires Closed(d)
    ensures Filter(Kahn(d), ReachableFrom(d, n)) == Kahn(Induced(d, ReachableFrom(d, n)))
  {
    var keep := ReachableFrom(d, n);
    forall m, x | m in d && m in keep && x in d[m] ensures x in keep {
      ReachesStep(d, n, m, x);
    }
    KahnRestricts(d, keep, {});
    assert {} * keep == {};
  }

  // ----- A node that depends on every head -----

  /** The nodes nothing depends on. */
  function Heads(d: Depends): set<Id> {
    set h | h in d && forall m | m in d :: h !in d[m]
  }

  /** Once every head is placed, everything is: an unplaced node last in some deployment order
      would itself be a head. */
  lemma {:induction false} HeadsNeedEverything(d: Depends, placed: set<Id>, t: seq<Id>)
    requires Topological(d, t) && Settled(d, placed) && Heads(d) <= placed
    ensures placed == d.Keys
  {
    forall n | n in d ensures n in placed {
      var i :| 0 <= i < |t| && t[i] == n;
      PlacedFromTheEnd(d, placed, t, i);
    }
  }

  lemma {:induction false} PlacedFromTheEnd(d: Depends, placed: set<Id>, t: seq<Id>, i: nat)
    requires Topological(d, t) && i < |t| && Settled(d, placed) && Heads(d) <= placed
    ensures t[i] in placed
    decreases |t| - i
  {
    if t[i] !in placed {
      assert t[i] !in Heads(d);
      var m :| m in d && t[i] in d[m];
      var j :| 0 <= j < |t| && t[j] == m;
      var k :| 0 <= k < j && t[..j][k] == t[i];
      assert k == i;
      PlacedFromTheEnd(d, placed, t, j);
    }
  }

  /** `new` with no explicit dependencies: one more node, depending on all the heads. */
  function Extended(d: Depends, added: Id, heads: seq<Id>): Depends {
    d[added := heads]
  }

  lemma ReadyExtends(d: Depends, added: Id, heads: seq<Id>, placed: set<Id>)
    requires Closed(d) && added !in d && added !in placed
    requires Distinct(heads) && Elements(heads) == Heads(d)
    ensures Heads(d) <= placed ==> Ready(Extended(d, added, heads), placed) == Ready(d, placed) + {added}
    ensures !(Heads(d) <= placed) ==> Ready(Extended(d, added, heads), placed) == Ready(d, placed)
  {
    var d' := Extended(d, added, heads);
    assert (forall h | h in heads :: h in placed) <==> Heads(d) <= placed;
    assert forall n | n in d :: added !in d[n];
    assert forall n | n in d :: n in Ready(d', placed) <==> n in Ready(d, placed);
  }

  lemma SettledGrows(d: Depends, placed: set<Id>)
    requires Settled(d, placed) && Ready(d, placed) != {}
    ensures var next := Min(Ready(d, placed));
      next in d && next !in placed && Settled(d, placed + {next}) && |d.Keys - (placed + {next})| < |d.Keys - placed|
  {
    var next := Min(Ready(d, placed));
    assert IsReady(d, placed, next);
    assert d.Keys - (placed + {next}) == d.Keys - placed - {next};
  }

  /** `placed` contains what its members depend on. */
  predicate Settled(d: Depends, placed: set<Id>) {
    placed <= d.Keys && forall n | n in d && n in placed :: forall x | x in d[n] :: x in placed
  }

  lemma ExtendedLast(d: Depends, added: Id, heads: seq<Id>)
    requires Closed(d) && added !in d && Distinct(heads) && Elements(heads) == Heads(d)
    ensures KahnFrom(Extended(d, added, heads), d.Keys) == [added]
    ensures KahnFrom(d, d.Keys) == []
  {
    var d' := Extended(d, added, heads);
    ReadyExtends(d, added, heads, d.Keys);
    assert Ready(d, d.Keys) == {};
    assert Ready(d', d.Keys) == {added};
    assert Ready(d', d.Keys + {added}) == {};
    assert KahnFrom(d', d.Keys + {added}) == [];
  }

  lemma KahnUnfolds(d: Depends, placed: set<Id>)
    requires Ready(d, placed) != {}
    ensures var next := Min(Ready(d, placed));
      KahnFrom(d, placed) == [next] + KahnFrom(d, placed + {next})
  {
  }

  lemma {:induction false} ExtendedFrom(d: Depends, added: Id, heads: seq<Id>, placed: set<Id>, t: seq<Id>)
    requires Closed(d) && DistinctDepends(d) && Topological(d, t) && Settled(d, placed)
    requires added !in d && Distinct(heads) && Elements(heads) == Heads(d)
    ensures KahnFrom(Extended(d, added, heads), placed) == KahnFrom(d, placed) + [added]
    decreases |d.Keys - placed|
  {
    if Heads(d) <= placed {
      HeadsNeedEverything(d, placed, t);
      ExtendedLast(d, added, heads);
    } else {
      HeadLeft(d, placed, t);
      SettledGrows(d, placed);
      ExtendedFrom(d, added, heads, placed + {Min(Ready(d, placed))}, t);
      ExtendedStep(d, added, heads, placed);
    }
  }

  lemma ExtendedStep(d: Depends, added: Id, heads: seq<Id>, placed: set<Id>)
    requires Closed(d) && added !in d && Distinct(heads) && Elements(heads) == Heads(d)
    requires Settled(d, placed) && !(Heads(d) <= placed) && Ready(d, placed) != {}
    requires var next := Min(Ready(d, placed));
      KahnFrom(Extended(d, added, heads), placed + {next}) == KahnFrom(d, placed + {next}) + [added]
    ensures KahnFrom(Extended(d, added, heads), placed) == KahnFrom(d, placed) + [added]
  {
    ReadyExtends(d, added, heads, placed);
    KahnUnfolds(d, placed);
    KahnUnfolds(Extended(d, added, heads), placed);
  }

  lemma HeadLeft(d: Depends, placed: set<Id>, t: seq<Id>)
    requires DistinctDepends(d) && Topological(d, t) && !(Heads(d) <= placed)
    ensures Ready(d, placed) != {}
  {
    var h :| h in Heads(d) && h !in placed;
    var i :| 0 <= i < |t| && t[i] == h;
    SomethingReady(d, placed, t, i);
  }

  /** Whatever is unplaced, something at or before it in a deployment order is ready. */
  lemma {:induction false} SomethingReady(d: Depends, placed: set<Id>, t: seq<Id>, i: nat)
    requires DistinctDepends(d) && Topological(d, t) && i < |t| && t[i] !in placed
    ensures Ready(d, placed) != {}
    decreases i
  {
    if IsReady(d, placed, t[i]) {
      assert t[i] in Ready(d, placed);
    } else {
      var x :| x in d[t[i]] && x !in placed;
      var m :| 0 <= m < i && t[..i][m] == x;
      SomethingReady(d, placed, t, m);
    }
  }

  lemma OnlyHead(d: Depends, added: Id, heads: seq<Id>)
    requires Closed(d) && added !in d && Elements(heads) == Heads(d)
    ensures Heads(Extended(d, added, heads)) == {added}
  {
    var d' := Extended(d, added, heads);
    forall n | n in d ensures n !in Heads(d') {
      if n in Heads(d) {
        assert n in heads && added in d';
      } else {
        var m :| m in d && n in d[m];
        assert m in d' && n in d'[m];
      }
    }
    assert forall m | m in d' :: added !in d'[m] by {
      assert forall x | x in heads :: x in Elements(heads);
    }
  }

  lemma {:induction false} PathAvoids(d: Depends, added: Id, deps: seq<Id>, p: seq<Id>)
    requires Closed(d) && added !in d && forall x | x in deps :: x in d
    requires IsPath(Extended(d, added, deps), p) && p[0] in d
    ensures IsPath(d, p)
    decreases |p|
  {
    if |p| > 1 {
      var rest := p[1..];
      assert p[0 + 1] in Extended(d, added, deps)[p[0]];
      PathAvoids(d, added, deps, rest);
      assert forall i | 0 < i < |p| :: p[i] == rest[i - 1];
    }
  }

  /** Whatever existing migrations a new one depends on, the project stays one that can be built and
      ordered. */
  lemma NewMigrationIsSafe(d: Depends, added: Id, deps: seq<Id>)
    requires Closed(d) && DistinctDepends(d) && Acyclic(d)
    requires added !in d && Distinct(deps) && forall x | x in deps :: x in d
    ensures Closed(Extended(d, added, deps)) && DistinctDepends(Extended(d, added, deps)) && Acyclic(Extended(d, added, deps))
  {
    var e := Extended(d, added, deps);
    forall c: seq<Id> ensures !IsCycle(e, c) {
      if IsPath(e, c) && c[0] in d {
        PathAvoids(d, added, deps, c);
        assert !IsCycle(d, c);
      }
    }
  }

  /** A migration created on top of all heads deploys last, leaves the order of everything else
      alone, and becomes the only head. */
  lemma NewMigrationAppends(d: Depends, added: Id, heads: seq<Id>)
    requires Closed(d) && DistinctDepends(d) && Acyclic(d)
    requires added !in d && Distinct(heads) && Elements(heads) == Heads(d)
    ensures Kahn(Extended(d, added, heads)) == Kahn(d) + [added]
    ensures Heads(Extended(d, added, heads)) == {added}
    ensures Acyclic(Extended(d, added, heads))
  {
    LeastOrder(d);
    ExtendedFrom(d, added, heads, {}, Kahn(d));
    OnlyHead(d, added, heads);
    assert forall x | x in heads :: x in Elements(heads);
    NewMigrationIsSafe(d, added, heads);
  }
}
