/** The order a dependency relation puts on migrations: what a deployment order is, what a cycle
    is, and the greedy order the graph computes. Nothing here depends on how the graph is stored. */
module DependencyOrder {
  import opened Collections

  /** A UUIDv7. Only its ordering, which is creation order, matters here. */
  type Id = nat

  /** Every node with the dependency list of its manifest. */
  type Depends = map<Id, seq<Id>>

  predicate Closed(d: Depends) {
    forall n | n in d :: forall x | x in d[n] :: x in d
  }

  /** No manifest lists a dependency twice (what manifest validation enforces). */
  predicate DistinctDepends(d: Depends) {
    forall n | n in d :: Distinct(d[n])
  }

  /** `p` follows dependency edges: each node is followed by one it depends on. */
  predicate IsPath(d: Depends, p: seq<Id>) {
    && |p| > 0
    && (forall i | 0 <= i < |p| :: p[i] in d)
    && (forall i | 0 <= i < |p| - 1 :: p[i + 1] in d[p[i]])
  }

  ghost predicate Reaches(d: Depends, from: Id, to: Id) {
    exists p: seq<Id> :: IsPath(d, p) && p[0] == from && Last(p) == to
  }

  predicate IsCycle(d: Depends, c: seq<Id>) {
    IsPath(d, c) && c[0] in d[Last(c)]
  }

  ghost predicate Acyclic(d: Depends) {
    forall c: seq<Id> :: !IsCycle(d, c)
  }

  ghost predicate ReachesCycle(d: Depends, n: Id) {
    exists c: seq<Id> :: IsCycle(d, c) && Reaches(d, n, c[0])
  }

  /** `t` continues a deployment in which `placed` is already done: it repeats nothing, and each
      node comes after everything it depends on. */
  predicate Continues(d: Depends, placed: set<Id>, t: seq<Id>) {
    && Distinct(t)
    && (forall i | 0 <= i < |t| ::
          t[i] in d && t[i] !in placed && forall x | x in d[t[i]] :: x in placed || x in t[..i])
  }

  /** ... and it leaves no node out. */
  predicate Completes(d: Depends, placed: set<Id>, t: seq<Id>) {
    Continues(d, placed, t) && forall n | n in d && n !in placed :: n in t
  }

  predicate Topological(d: Depends, t: seq<Id>) {
    Completes(d, {}, t)
  }

  predicate IsReady(d: Depends, placed: set<Id>, n: Id) {
    n in d && n !in placed && Distinct(d[n]) && forall x | x in d[n] :: x in placed
  }

  function Ready(d: Depends, placed: set<Id>): set<Id> {
    set n | n in d && IsReady(d, placed, n)
  }

  /** Repeatedly place the least node that is ready, until none is. */
  function KahnFrom(d: Depends, placed: set<Id>): seq<Id>
    decreases |d.Keys - placed|
  {
    var ready := Ready(d, placed);
    if ready == {} then
      []
    else
      var next := Min(ready);
      assert d.Keys - (placed + {next}) == d.Keys - placed - {next};
      [next] + KahnFrom(d, placed + {next})
  }

  function Kahn(d: Depends): seq<Id> {
    KahnFrom(d, {})
  }

  // ----- What the greedy order is -----

  lemma ContinuesCons(d: Depends, placed: set<Id>, next: Id, rest: seq<Id>)
    requires next in d && next !in placed && forall x | x in d[next] :: x in placed
    requires Continues(d, placed + {next}, rest)
    ensures Continues(d, placed, [next] + rest)
  {
    var t := [next] + rest;
    forall i | 0 <= i < |t|
      ensures t[i] in d && t[i] !in placed && forall x | x in d[t[i]] :: x in placed || x in t[..i]
    {
      if i > 0 {
        assert t[i] == rest[i - 1];
        assert t[..i] == [next] + rest[..i - 1];
      }
    }
    assert forall i | 0 <= i < |rest| :: rest[i] != next;
  }

  /** The greedy order is a deployment order of the nodes it places. */
  lemma {:induction false} KahnContinues(d: Depends, placed: set<Id>)
    ensures Continues(d, placed, KahnFrom(d, placed))
    decreases |d.Keys - placed|
  {
    if Ready(d, placed) != {} {
      var next := Min(Ready(d, placed));
      assert d.Keys - (placed + {next}) == d.Keys - placed - {next};
      KahnContinues(d, placed + {next});
      ContinuesCons(d, placed, next, KahnFrom(d, placed + {next}));
    }
  }

  /** It stops only when nothing more is ready. */
  lemma {:induction false} KahnExhausts(d: Depends, placed: set<Id>, n: Id)
    requires n in d && n !in placed && n !in KahnFrom(d, placed)
    ensures Distinct(d[n]) ==> exists x :: x in d[n] && x !in placed && x !in KahnFrom(d, placed)
    decreases |d.Keys - placed|
  {
    if Ready(d, placed) == {} {
      assert !IsReady(d, placed, n);
    } else {
      var next := Min(Ready(d, placed));
      assert d.Keys - (placed + {next}) == d.Keys - placed - {next};
      KahnExhausts(d, placed + {next}, n);
    }
  }

  /** Placing what the greedy order places next never disturbs the rest of it. */
  lemma {:induction false} KahnFromPrefix(d: Depends, placed: set<Id>, k: nat)
    requires k <= |KahnFrom(d, placed)|
    ensures var t := KahnFrom(d, placed);
      KahnFrom(d, placed + Elements(t[..k])) == t[k..]
    decreases k
  {
    var t := KahnFrom(d, placed);
    if k == 0 {
      assert placed + Elements(t[..0]) == placed;
    } else {
      var next := Min(Ready(d, placed));
      assert t[1..] == KahnFrom(d, placed + {next});
      KahnFromPrefix(d, placed + {next}, k - 1);
      assert t[..k] == [next] + t[1..][..k - 1];
      assert placed + Elements(t[..k]) == placed + {next} + Elements(t[1..][..k - 1]);
      assert t[1..][k - 1..] == t[k..];
    }
  }

  // ----- The least deployment order -----

  /** Any way to finish a deployment is at least the greedy one, compared position by position. */
  lemma {:induction false} KahnLeast(d: Depends, placed: set<Id>, t: seq<Id>)
    requires DistinctDepends(d)
    requires Completes(d, placed, t)
    ensures Completes(d, placed, KahnFrom(d, placed))
    ensures LexLeq(KahnFrom(d, placed), t)
    decreases |t|
  {
    if t == [] {
      assert d.Keys - placed == {};
      assert Ready(d, placed) == {};
    } else {
      assert t[0] in t;
      assert IsReady(d, placed, t[0]);
      assert t[0] in Ready(d, placed);
      var next := Min(Ready(d, placed));
      var t' := MoveFirst(d, placed, t, next);
      KahnLeast(d, placed + {next}, t');
      ContinuesCons(d, placed, next, KahnFrom(d, placed + {next}));
      if t[0] == next {
        assert t' == t[1..];
      }
    }
  }

  /** A ready node can be moved to the front of any completion. */
  lemma MoveFirst(d: Depends, placed: set<Id>, t: seq<Id>, next: Id) returns (rest: seq<Id>)
    requires Completes(d, placed, t) && IsReady(d, placed, next)
    ensures Completes(d, placed + {next}, rest)
    ensures |rest| == |t| - 1
    ensures t != [] && t[0] == next ==> rest == t[1..]
  {
    var k :| 0 <= k < |t| && t[k] == next;
    rest := Without(t, k);
    WithoutDistinct(t, k);
    forall i | 0 <= i < |rest|
      ensures rest[i] in d && rest[i] !in placed + {next}
      ensures forall x | x in d[rest[i]] :: x in placed + {next} || x in rest[..i]
    {
      WithoutAt(t, k, i);
      assert rest[i] in rest;
    }
  }
}
