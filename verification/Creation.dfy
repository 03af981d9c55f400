/** Creating a migration: choosing what it depends on. */
module Creation {
  import opened Collections
  import opened DependencyOrder
  import opened DependencyClosure
  import opened Migrations
  import opened Graphs

  /** What the dependencies given by name come to, `None` for a name that matches nothing or too much:
      repetitions are dropped, the order of first mention is kept. */
  method ResolveExplicitDependencies(g: Graph, requested: seq<Option<Id>>) returns (r: Option<seq<Id>>, belowHead: bool)
    requires Linked(g) && forall x | x in requested && x.Some? :: x.value in g.migrations
    ensures r.None? <==> None in requested
    ensures r.Some? ==> Distinct(r.value) && forall id :: id in r.value <==> Some(id) in requested
    ensures r.Some? ==>
      var heads := Heads(DependsOf(g.migrations)); belowHead <==> heads != {} && exists id :: id in r.value && id !in heads
  {
    var resolved: seq<Id> := [];
    for i := 0 to |requested|
      invariant Distinct(resolved) && None !in requested[..i]
      invariant forall id :: id in resolved <==> Some(id) in requested[..i]
      invariant forall id | id in resolved :: id in g.migrations
    {
      assert requested[..i + 1] == requested[..i] + [requested[i]] && requested[i] in requested;
      match requested[i]
      case None => return None, false;
      case Some(id) =>
        if id !in resolved {
          resolved := resolved + [id];
        }
    }
    assert requested[..|requested|] == requested;
    var heads := HeadsOf(g);
    return Some(resolved), BelowHead(resolved, Elements(heads));
  }

  /** Whether something chosen is not one of the current heads, and there are any. */
  predicate BelowHead(chosen: seq<Id>, heads: set<Id>) {
    heads != {} && exists id :: id in chosen && id !in heads
  }
}
