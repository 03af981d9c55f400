/** The migration graph: built from discovered packages, checked, sorted and searched. A reference
    to a migration in the graph is represented by its id. */
module Graphs {
  import opened Collections
  import opened DependencyOrder
  import opened DependencyCycles
  import opened DependencyClosure
  import opened Migrations

  datatype Graph = Graph(migrations: map<Id, Migration>, dependents: map<Id, set<Id>>)

  datatype GraphError =
    | UnknownDependency(migration: Id, dependency: Id)
    | NoSuchMigration(id: Id)
    | Cycle(ids: seq<Id>)

  function DependsOf(migrations: map<Id, Migration>): Depends {
    map id | id in migrations :: migrations[id].manifest.depends
  }

  function DependentsIn(d: Depends): map<Id, set<Id>> {
    map n | n in d :: set m | m in d && n in d[m]
  }

  /** What holds of every graph once its edges are resolved, before cycles are looked for. */
  predicate Linked(g: Graph) {
    var d := DependsOf(g.migrations);
    && (forall id | id in g.migrations :: g.migrations[id].manifest.id == id)
    && Closed(d)
    && g.dependents == DependentsIn(d)
  }

  /** What holds of every graph `Build` returns. */
  ghost predicate Valid(g: Graph) {
    Linked(g) && Acyclic(DependsOf(g.migrations)) && DistinctDepends(DependsOf(g.migrations))
  }

  // ----- Counters -----

  /** What is left of a node's dependency counter once `placed` has been placed: each distinct
      placed dependency has been subtracted once from the length of the list. */
  function Outstanding(d: Depends, placed: set<Id>, n: Id): (k: int)
    requires n in d
    ensures k >= 0
  {
    ElementsCardinality(d[n]);
    SubsetCardinality(Elements(d[n]) * placed, Elements(d[n]));
    |d[n]| - |Elements(d[n]) * placed|
  }

  /** The counter is the number of unplaced dependencies when the list does not repeat itself. */
  lemma OutstandingCounts(d: Depends, placed: set<Id>, n: Id)
    requires n in d && Distinct(d[n])
    ensures Outstanding(d, placed, n) == |Elements(d[n]) - placed|
  {
    ElementsCardinality(d[n]);
    var e := Elements(d[n]);
    assert e == e * placed + (e - placed);
    assert |e| == |e * placed| + |e - placed|;
  }

  /** A counter reaches zero exactly when its node is free to go. */
  lemma OutstandingZero(d: Depends, placed: set<Id>, n: Id)
    requires n in d
    ensures Outstanding(d, placed, n) == 0 <==> Distinct(d[n]) && forall x | x in d[n] :: x in placed
  {
    var e := Elements(d[n]);
    ElementsCardinality(d[n]);
    SubsetCardinality(e * placed, e);
    assert e * placed == e <==> forall x | x in d[n] :: x in placed by {
      assert forall x :: x in e <==> x in d[n];
    }
  }

  /** Placing a node takes one from the counter of each dependent, which was still positive. */
  lemma OutstandingDrops(d: Depends, placed: set<Id>, next: Id, n: Id)
    requires n in d && next !in placed
    ensures next in d[n] ==> Outstanding(d, placed, n) > 0
    ensures Outstanding(d, placed + {next}, n) == Outstanding(d, placed, n) - if next in d[n] then 1 else 0
  {
    var e := Elements(d[n]);
    ElementsCardinality(d[n]);
    if next in d[n] {
      assert e * (placed + {next}) == e * placed + {next};
      SubsetCardinality(e * (placed + {next}), e);
    } else {
      assert e * (placed + {next}) == e * placed;
    }
  }

  ghost predicate Counted(d: Depends, placed: set<Id>, remaining: map<Id, nat>) {
    remaining.Keys == d.Keys - placed && forall n | n in remaining :: remaining[n] == Outstanding(d, placed, n)
  }

  function Zeroed(remaining: map<Id, nat>): set<Id> {
    set n | n in remaining && remaining[n] == 0
  }

  lemma ZeroedIsReady(d: Depends, placed: set<Id>, remaining: map<Id, nat>)
    requires Counted(d, placed, remaining)
    ensures Zeroed(remaining) == Ready(d, placed)
  {
    forall n | n in remaining ensures n in Zeroed(remaining) <==> n in Ready(d, placed) {
      OutstandingZero(d, placed, n);
    }
  }

  /** Midway through the dependents of `next`: those still to do have their old counter. */
  ghost predicate Counting(d: Depends, placed: set<Id>, next: Id, todo: set<Id>, remaining: map<Id, nat>) {
    && remaining.Keys == d.Keys - (placed + {next})
    && (forall n | n in remaining :: remaining[n] ==
          Outstanding(d, if n in todo then placed else placed + {next}, n))
  }

  lemma CountingStarts(d: Depends, placed: set<Id>, next: Id, remaining: map<Id, nat>)
    requires Counted(d, placed, remaining) && next in d && next !in placed
    ensures Counting(d, placed, next, DependentsIn(d)[next], remaining - {next})
  {
    forall n | n in remaining - {next} && n !in DependentsIn(d)[next]
      ensures remaining[n] == Outstanding(d, placed + {next}, n)
    {
      OutstandingDrops(d, placed, next, n);
    }
  }

  lemma CountingSteps(d: Depends, placed: set<Id>, next: Id, todo: set<Id>, remaining: map<Id, nat>, m: Id)
    requires Counting(d, placed, next, todo, remaining)
    requires next in d && next !in placed && todo <= DependentsIn(d)[next]
    requires m in todo && m in remaining
    ensures remaining[m] > 0
    ensures Counting(d, placed, next, todo - {m}, remaining[m := remaining[m] - 1])
  {
    OutstandingDrops(d, placed, next, m);
  }

  lemma CountingSkips(d: Depends, placed: set<Id>, next: Id, todo: set<Id>, remaining: map<Id, nat>, m: Id)
    requires Counting(d, placed, next, todo, remaining) && m !in remaining
    ensures Counting(d, placed, next, todo - {m}, remaining)
  {
  }

  lemma CountingEnds(d: Depends, placed: set<Id>, next: Id, remaining: map<Id, nat>)
    requires Counting(d, placed, next, {}, remaining)
    ensures Counted(d, placed + {next}, remaining)
  {
  }

  lemma ZeroedUpdate(remaining: map<Id, nat>, m: Id, count: nat)
    requires m in remaining && remaining[m] > 0
    ensures Zeroed(remaining[m := count]) == Zeroed(remaining) + if count == 0 then {m} else {}
  {
  }

  lemma ZeroedRemove(remaining: map<Id, nat>, m: Id)
    ensures Zeroed(remaining - {m}) == Zeroed(remaining) - {m}
  {
  }

  // ----- Sorting -----

  /** Kahn's algorithm, always taking the least node that is ready. */
  method TopologicalSort(g: Graph) returns (order: seq<Id>)
    requires Linked(g)
    ensures order == Kahn(DependsOf(g.migrations))
  {
    ghost var d := DependsOf(g.migrations);
    ghost var placed: set<Id> := {};
    var remaining := InitialCounters(g);
    var ready := Zeroed(remaining);
    order := [];
    EmptyConcat(Kahn(d));
    while ready != {}
      invariant Counted(d, placed, remaining)
      invariant ready == Zeroed(remaining)
      invariant Kahn(d) == order + KahnFrom(d, placed)
      decreases |d.Keys - placed|
    {
      SortStep(d, placed, remaining);
      var next := Min(ready);
      SnocCons(order, next, KahnFrom(d, placed + {next}));
      ready := ready - {next};
      remaining := remaining - {next};
      order := order + [next];
      remaining, ready := TakeFromDependents(g, placed, next, remaining, ready);
      placed := placed + {next};
    }
    ZeroedIsReady(d, placed, remaining);
    EmptyConcat(order);
  }

  /** Everything one round of the sort relies on. */
  lemma SortStep(d: Depends, placed: set<Id>, remaining: map<Id, nat>)
    requires Counted(d, placed, remaining) && Zeroed(remaining) != {}
    ensures var next := Min(Zeroed(remaining));
      && next in d && next !in placed
      && Counting(d, placed, next, DependentsIn(d)[next], remaining - {next})
      && Zeroed(remaining - {next}) == Zeroed(remaining) - {next}
      && KahnFrom(d, placed) == [next] + KahnFrom(d, placed + {next})
      && |d.Keys - (placed + {next})| < |d.Keys - placed|
  {
    ZeroedIsReady(d, placed, remaining);
    var next := Min(Zeroed(remaining));
    assert IsReady(d, placed, next);
    CountingStarts(d, placed, next, remaining);
    KahnUnfolds(d, placed);
    CountShrinks(d.Keys, placed, next);
    ZeroedRemove(remaining, next);
  }

  method InitialCounters(g: Graph) returns (remaining: map<Id, nat>)
    ensures Counted(DependsOf(g.migrations), {}, remaining)
  {
    remaining := map id | id in g.migrations :: |g.migrations[id].manifest.depends|;
    assert forall n | n in g.migrations :: Elements(g.migrations[n].manifest.depends) * {} == {};
  }

  lemma CountShrinks(all: set<Id>, placed: set<Id>, next: Id)
    requires next in all && next !in placed
    ensures |all - (placed + {next})| < |all - placed|
  {
    assert all - (placed + {next}) == all - placed - {next};
  }

  /** Subtracts one from the counter of every dependent of `next`; those that reach zero become
      ready. */
  method TakeFromDependents(g: Graph, ghost placed: set<Id>, next: Id, counters: map<Id, nat>, free: set<Id>)
    returns (remaining: map<Id, nat>, ready: set<Id>)
    requires Linked(g) && next in g.migrations && next !in placed
    requires Counting(DependsOf(g.migrations), placed, next, g.dependents[next], counters)
    requires free == Zeroed(counters)
    ensures Counted(DependsOf(g.migrations), placed + {next}, remaining)
    ensures ready == Zeroed(remaining)
  {
    ghost var d := DependsOf(g.migrations);
    var todo := g.dependents[next];
    assert todo == DependentsIn(d)[next] && next in d;
    hide Linked, DependsOf, DependentsIn, Counting, Counted, Zeroed, Outstanding;
    remaining, ready := counters, free;
    while todo != {}
      invariant todo <= DependentsIn(d)[next]
      invariant Counting(d, placed, next, todo, remaining)
      invariant ready == Zeroed(remaining)
      decreases todo
    {
      var dependent := Min(todo);
      remaining, ready := TakeFrom(d, placed, next, todo, dependent, remaining, ready);
      todo := todo - {dependent};
    }
    CountingEnds(d, placed, next, remaining);
  }

  method TakeFrom(ghost d: Depends, ghost placed: set<Id>, ghost next: Id, ghost todo: set<Id>, dependent: Id,
      counters: map<Id, nat>, free: set<Id>)
    returns (remaining: map<Id, nat>, ready: set<Id>)
    requires Counting(d, placed, next, todo, counters) && free == Zeroed(counters)
    requires next in d && next !in placed && todo <= DependentsIn(d)[next] && dependent in todo
    ensures Counting(d, placed, next, todo - {dependent}, remaining) && ready == Zeroed(remaining)
  {
    hide Counting, Zeroed, Outstanding;
    remaining, ready := counters, free;
    if dependent in remaining {
      CountingSteps(d, placed, next, todo, remaining, dependent);
      ZeroedUpdate(remaining, dependent, remaining[dependent] - 1);
      var count := remaining[dependent] - 1;
      remaining := remaining[dependent := count];
      if count == 0 {
        ready := ready + {dependent};
      }
    } else {
      CountingSkips(d, placed, next, todo, remaining, dependent);
    }
  }

  // ----- Building -----

  /** Packages by id; a later package with the same id replaces an earlier one. */
  function ById(packages: seq<Migration>): map<Id, Migration> {
    if packages == [] then map[] else ById(packages[..|packages| - 1])[Last(packages).manifest.id := Last(packages)]
  }

  /** The order in which packages were discovered does not matter. */
  lemma {:induction false} ByIdIn(packages: seq<Migration>, m: Migration)
    requires forall i, j :: 0 <= i < j < |packages| ==> packages[i].manifest.id != packages[j].manifest.id
    ensures m in packages <==> m.manifest.id in ById(packages) && ById(packages)[m.manifest.id] == m
    ensures forall id | id in ById(packages) :: ById(packages)[id].manifest.id == id
  {
    if packages != [] {
      var front := packages[..|packages| - 1];
      ByIdIn(front, m);
      assert packages == front + [Last(packages)];
      if m.manifest.id == Last(packages).manifest.id && m != Last(packages) {
        forall i | 0 <= i < |front| ensures front[i] != m {
          assert front[i] == packages[i];
        }
      }
    }
  }

  lemma InputOrderIsIrrelevant(a: seq<Migration>, b: seq<Migration>)
    requires forall i, j :: 0 <= i < j < |a| ==> a[i].manifest.id != a[j].manifest.id
    requires forall i, j :: 0 <= i < j < |b| ==> b[i].manifest.id != b[j].manifest.id
    requires forall m :: m in a <==> m in b
    ensures ById(a) == ById(b)
  {
    forall id | id in ById(a) ensures id in ById(b) && ById(b)[id] == ById(a)[id] {
      ByIdIn(a, ById(a)[id]);
      ByIdIn(b, ById(a)[id]);
    }
    forall id | id in ById(b) ensures id in ById(a) {
      ByIdIn(b, ById(b)[id]);
      ByIdIn(a, ById(b)[id]);
    }
  }

  method CollectById(packages: seq<Migration>) returns (migrations: map<Id, Migration>)
    ensures migrations == ById(packages)
    ensures forall id | id in migrations :: migrations[id].manifest.id == id
  {
    migrations := map[];
    for i := 0 to |packages|
      invariant migrations == ById(packages[..i])
      invariant forall id | id in migrations :: migrations[id].manifest.id == id
    {
      assert packages[..i + 1][..i] == packages[..i];
      migrations := migrations[packages[i].manifest.id := packages[i]];
    }
    assert packages[..|packages|] == packages;
  }

  /** The first edge, in id order and then list order, that leads nowhere. */
  ghost predicate FirstDangling(d: Depends, n: Id, x: Id) {
    && n in d && x !in d
    && (forall m | m in d && m < n :: forall y | y in d[m] :: y in d)
    && exists i :: 0 <= i < |d[n]| && d[n][i] == x && forall y | y in d[n][..i] :: y in d
  }

  /** The dependents known once the edges of `done` have been followed. */
  ghost predicate LinkedSoFar(d: Depends, done: set<Id>, dependents: map<Id, set<Id>>) {
    && dependents.Keys == d.Keys
    && (forall n | n in dependents :: dependents[n] == set m | m in done && m in d && n in d[m])
  }

  /** Follows the edges of one migration. */
  method LinkOne(ghost d: Depends, ghost done: set<Id>, id: Id, list: seq<Id>, known: map<Id, set<Id>>)
    returns (dependents: map<Id, set<Id>>, missing: Option<Id>)
    requires LinkedSoFar(d, done, known) && id in d && d[id] == list
    ensures missing.None? ==> LinkedSoFar(d, done + {id}, dependents) && forall y | y in list :: y in d
    ensures missing.Some? ==>
      exists i :: 0 <= i < |list| && list[i] == missing.value && missing.value !in d && forall y | y in list[..i] :: y in d
  {
    dependents := known;
    for j := 0 to |list|
      invariant dependents.Keys == d.Keys
      invariant forall n | n in dependents :: dependents[n] == known[n] + if n in list[..j] then {id} else {}
      invariant forall y | y in list[..j] :: y in d
    {
      if list[j] !in dependents {
        return dependents, Some(list[j]);
      }
      assert list[..j + 1] == list[..j] + [list[j]];
      dependents := dependents[list[j] := dependents[list[j]] + {id}];
    }
    assert list[..|list|] == list;
    return dependents, None;
  }

  /** Resolves every edge, collecting for each node the nodes that depend on it. */
  method LinkDependents(migrations: map<Id, Migration>) returns (r: Result<map<Id, set<Id>>, GraphError>)
    ensures r.Ok? <==> Closed(DependsOf(migrations))
    ensures r.Ok? ==> r.value == DependentsIn(DependsOf(migrations))
    ensures r.Err? ==> r.error.UnknownDependency?
                       && FirstDangling(DependsOf(migrations), r.error.migration, r.error.dependency)
  {
    ghost var d := DependsOf(migrations);
    var dependents: map<Id, set<Id>> := map id | id in migrations :: {};
    var todo := migrations.Keys;
    while todo != {}
      invariant todo <= d.Keys
      invariant LinkedSoFar(d, d.Keys - todo, dependents)
      invariant forall m | m in d.Keys - todo :: forall y | y in d[m] :: y in d
    {
      var id := Min(todo);
      var missing;
      dependents, missing := LinkOne(d, d.Keys - todo, id, migrations[id].manifest.depends, dependents);
      if missing.Some? {
        assert forall m | m in d && m < id :: m in d.Keys - todo;
        return Err(UnknownDependency(id, missing.value));
      }
      assert d.Keys - (todo - {id}) == d.Keys - todo + {id};
      todo := todo - {id};
    }
    assert forall n | n in d :: dependents[n] == DependentsIn(d)[n];
    return Ok(dependents);
  }

  /** Recovers one concrete cycle among the nodes that could not be ordered. */
  method FindCycle(g: Graph, stuck: set<Id>) returns (cycle: Option<seq<Id>>)
    ensures cycle == if stuck == {} then None else Walk(DependsOf(g.migrations), stuck, [], Min(stuck))
  {
    ghost var d := DependsOf(g.migrations);
    if stuck == {} {
      return None;
    }
    var path: seq<Id>, onPath: set<Id>, current := [], {}, Min(stuck);
    while true
      invariant onPath == Elements(path)
      invariant Walking(d, path, current)
      invariant Walk(d, stuck, path, current) == Walk(d, stuck, [], Min(stuck))
      decreases |d.Keys - Elements(path)|
    {
      if current in onPath {
        return Some(path[IndexOf(path, current)..]);
      }
      if current !in g.migrations {
        return None;
      }
      var next := FirstIn(g.migrations[current].manifest.depends, stuck);
      if next.None? {
        return None;
      }
      WalkSteps(d, stuck, path, current);
      onPath, path, current := onPath + {current}, path + [current], next.value;
    }
  }

  lemma WalkSteps(d: Depends, stuck: set<Id>, path: seq<Id>, current: Id)
    requires Walking(d, path, current) && current in d && current !in path && FirstIn(d[current], stuck).Some?
    ensures var next := FirstIn(d[current], stuck).value;
      Walking(d, path + [current], next) && Walk(d, stuck, path, current) == Walk(d, stuck, path + [current], next)
    ensures |d.Keys - Elements(path + [current])| < |d.Keys - Elements(path)|
    ensures Elements(path + [current]) == Elements(path) + {current}
  {
    WalkAdvances(d, path, current);
    ElementsSnoc(path, current);
    WalkingExtends(d, path, current, FirstIn(d[current], stuck).value);
  }

  /** Fails when the graph could not be ordered, naming a cycle. */
  method CheckForCycles(g: Graph) returns (r: Result<(), GraphError>)
    requires Linked(g)
    ensures r.Ok? <==> Acyclic(DependsOf(g.migrations)) && DistinctDepends(DependsOf(g.migrations))
    ensures r.Err? ==> r.error.Cycle?
    ensures r.Err? && DistinctDepends(DependsOf(g.migrations)) ==>
      IsCycle(DependsOf(g.migrations), r.error.ids) && Distinct(r.error.ids)
  {
    ghost var d := DependsOf(g.migrations);
    CompleteExactly(d);
    assert d.Keys == g.migrations.Keys;
    assert |d| == |d.Keys| && |g.migrations| == |g.migrations.Keys|;
    var sorted := TopologicalSort(g);
    if |sorted| == |g.migrations| {
      return Ok(());
    }
    var stuck := set id | id in g.migrations && id !in sorted;
    var cycle := FindCycle(g, stuck);
    if DistinctDepends(d) {
      StuckHasCycle(d, stuck);
    }
    match cycle
    case Some(ids) => return Err(Cycle(ids));
    case None => return Err(Cycle(Ascending(stuck)));
  }

  lemma StuckHasCycle(d: Depends, stuck: set<Id>)
    requires Closed(d) && DistinctDepends(d) && |Kahn(d)| != |d|
    requires stuck == set id | id in d && id !in Kahn(d)
    ensures stuck != {}
    ensures var c := Walk(d, stuck, [], Min(stuck)); c.Some? && IsCycle(d, c.value) && Distinct(c.value)
  {
    KahnIsShort(d);
    var n :| n in d && n !in Kahn(d);
    assert n in stuck;
    forall m | m in stuck ensures FirstIn(d[m], stuck).Some? {
      KahnExhausts(d, {}, m);
    }
    WalkFindsCycle(d, stuck, Min(stuck), [], Min(stuck));
  }

  /** Validates packages and builds the graph. */
  method Build(packages: seq<Migration>) returns (r: Result<Graph, GraphError>)
    ensures var d := DependsOf(ById(packages));
      && (r.Ok? <==> Closed(d) && Acyclic(d) && DistinctDepends(d))
      && (r.Ok? ==> Valid(r.value) && r.value.migrations == ById(packages))
      && (r.Err? && !Closed(d) ==>
            r.error.UnknownDependency? && FirstDangling(d, r.error.migration, r.error.dependency))
      && (r.Err? && Closed(d) && DistinctDepends(d) ==>
            r.error.Cycle? && IsCycle(d, r.error.ids) && Distinct(r.error.ids))
  {
    var migrations := CollectById(packages);
    var dependents := LinkDependents(migrations);
    if dependents.Err? {
      return Err(dependents.error);
    }
    var g := Graph(migrations, dependents.value);
    var acyclic := CheckForCycles(g);
    if acyclic.Err? {
      return Err(acyclic.error);
    }
    return Ok(g);
  }

  // ----- Queries -----

  /** Every migration in the order it must be deployed in. */
  function DeploymentOrder(g: Graph): seq<Id> {
    Kahn(DependsOf(g.migrations))
  }

  /** The current tips of the graph, in id order. */
  function HeadsOf(g: Graph): (r: seq<Id>)
    requires Linked(g)
    ensures Increasing(r) && Elements(r) == Heads(DependsOf(g.migrations))
  {
    var heads := set id | id in g.dependents && g.dependents[id] == {};
    assert heads == Heads(DependsOf(g.migrations)) by {
      var d := DependsOf(g.migrations);
      forall n | n in d ensures n in heads <==> n in Heads(d) {
        assert g.dependents[n] == set m | m in d && n in d[m];
        if n !in heads {
          var m :| m in g.dependents[n];
          assert m in d && n in d[m];
        } else {
          assert forall m | m in d && n in d[m] :: m in g.dependents[n];
        }
      }
    }
    assert forall x :: x in Elements(Ascending(heads)) <==> x in heads;
    Ascending(heads)
  }

  /** A migration with everything it needs, in deployment order: what `--to` selects. */
  method ClosureOf(g: Graph, id: Id) returns (r: Result<seq<Id>, GraphError>)
    requires Valid(g)
    ensures r.Err? <==> id !in g.migrations
    ensures r.Err? ==> r.error == NoSuchMigration(id)
    ensures r.Ok? ==> var d := DependsOf(g.migrations);
      r.value == Kahn(Induced(d, ReachableFrom(d, id))) && forall x :: x in r.value <==> x in ReachableFrom(d, id)
  {
    ghost var d := DependsOf(g.migrations);
    if id !in g.migrations {
      return Err(NoSuchMigration(id));
    }
    var included := Needed(g, id);
    ClosureOrder(d, id);
    LeastOrder(d);
    var order := TopologicalSort(g);
    return Ok(Filter(order, included));
  }

  /** Midway through the search: what is included or waiting is needed, and whatever something
      included depends on is included or waiting. */
  ghost predicate Searching(d: Depends, id: Id, included: set<Id>, stack: seq<Id>) {
    && included <= ReachableFrom(d, id)
    && (forall x | x in stack :: x in ReachableFrom(d, id))
    && (id in included || id in stack)
    && (forall n | n in included :: forall x | x in d[n] :: x in included || x in stack)
  }

  lemma SearchSkips(d: Depends, id: Id, included: set<Id>, below: seq<Id>, current: Id)
    requires Searching(d, id, included, below + [current]) && current in included
    ensures Searching(d, id, included, below)
  {
    assert forall x :: x in below + [current] <==> x in below || x == current;
  }

  lemma SearchIncludes(d: Depends, id: Id, included: set<Id>, below: seq<Id>, current: Id)
    requires Closed(d) && Searching(d, id, included, below + [current]) && current !in included
    ensures current in d && |d.Keys - (included + {current})| < |d.Keys - included|
    ensures Searching(d, id, included + {current}, below + d[current])
  {
    hide ReachableFrom;
    assert forall x :: x in below + [current] <==> x in below || x == current;
    assert current in below + [current];
    assert current in ReachableFrom(d, id) by { assert Searching(d, id, included, below + [current]); }
    ReachableIsKnown(d, id, current);
    CountShrinks(d.Keys, included, current);
    DependsReachable(d, id, current);
  }

  lemma ReachableIsKnown(d: Depends, id: Id, n: Id)
    requires n in ReachableFrom(d, id)
    ensures n in d
  {
  }

  lemma SearchEnds(d: Depends, id: Id, included: set<Id>)
    requires Searching(d, id, included, [])
    ensures id in included && included <= ReachableFrom(d, id)
    ensures included <= d.Keys && forall n | n in included :: forall x | x in d[n] :: x in included
  {
  }

  /** The worklist behind `ClosureOf`: everything needed, directly or not. */
  method Needed(g: Graph, id: Id) returns (included: set<Id>)
    requires Valid(g) && id in g.migrations
    ensures included == ReachableFrom(DependsOf(g.migrations), id)
  {
    ghost var d := DependsOf(g.migrations);
    var stack := [id];
    included := {};
    hide Valid, Linked, ReachableFrom, Closed, Searching;
    assert Searching(d, id, included, stack) by { SearchStarts(d, id); }
    assert Closed(d) by { ValidMeansClosed(g); }
    while stack != []
      invariant Searching(d, id, included, stack)
      decreases |d.Keys - included|, |stack|
    {
      var current := stack[|stack| - 1];
      ghost var below := stack[..|stack| - 1];
      assert stack == below + [current];
      stack := stack[..|stack| - 1];
      if current in included {
        SearchSkips(d, id, included, below, current);
      } else {
        SearchIncludes(d, id, included, below, current);
        included := included + {current};
        stack := stack + g.migrations[current].manifest.depends;
      }
    }
    SearchEnds(d, id, included);
    ClosedHoldsReachable(d, id, included);
  }

  lemma SearchStarts(d: Depends, id: Id)
    requires id in d
    ensures Searching(d, id, {}, [id])
  {
    ReachesSelf(d, id);
  }

  lemma ValidMeansClosed(g: Graph)
    requires Valid(g)
    ensures Closed(DependsOf(g.migrations))
  {
  }

  lemma DependsReachable(d: Depends, id: Id, n: Id)
    requires Closed(d) && n in ReachableFrom(d, id)
    ensures forall x | x in d[n] :: x in ReachableFrom(d, id)
  {
    forall x | x in d[n] ensures x in ReachableFrom(d, id) {
      ReachesStep(d, id, n, x);
    }
  }

  /** A closed set that holds `id` holds everything `id` needs. */
  lemma ClosedHoldsReachable(d: Depends, id: Id, included: set<Id>)
    requires id in included && included <= ReachableFrom(d, id)
    requires forall n | n in included :: forall x | x in d[n] :: x in included
    ensures included == ReachableFrom(d, id)
  {
    forall m | m in ReachableFrom(d, id) ensures m in included {
      var p: seq<Id> :| IsPath(d, p) && p[0] == id && Last(p) == m;
      PathStays(d, included, p);
    }
  }

  lemma {:induction false} PathStays(d: Depends, included: set<Id>, p: seq<Id>)
    requires IsPath(d, p) && p[0] in included && included <= d.Keys
    requires forall n | n in included :: forall x | x in d[n] :: x in included
    ensures Last(p) in included
    decreases |p|
  {
    if |p| > 1 {
      PathStays(d, included, p[1..]);
    }
  }
}
