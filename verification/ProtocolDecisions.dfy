/** What a run decides from what it read is safe to carry out. */
module ProtocolDecisions {
  import opened Collections
  import opened DependencyOrder
  import opened DependencyCycles
  import opened DependencyClosure
  import opened Migrations
  import opened Lint
  import opened Graphs
  import opened History
  import opened Ledger
  import opened Registry
  import opened Rehash
  import opened Protocol
  import opened ProtocolInvariant

  // ----- Reverting -----

  lemma PlannedRow(g: Graph, applied: AppliedRows, n: Id)
    requires MakePlan(g, applied).Ok? && n in applied
    ensures n in g.migrations && CheckUnchanged(g.migrations[n], applied[n]).Ok?
  {
    hide CheckUnchanged, MakePlan;
    PlanExactly(g, applied);
  }

  lemma RecordedIsDeclared(g: Graph, n: Id, row: AppliedRow, id: Id)
    requires Linked(g) && n in g.migrations && id in g.migrations
    requires Coherent(n, row) && CheckUnchanged(g.migrations[n], row).Ok? && id in row.depends
    ensures id in g.dependents && n in g.dependents[id]
  {
    UnchangedMeans(g.migrations[n], n, row);
    assert id in Elements(row.depends) && id in Elements(g.migrations[n].manifest.depends);
    assert n in DependentsIn(DependsOf(g.migrations))[id];
  }

  /** The leaf check looks at what the checkout declares; after the history check that is what the
      database recorded. */
  lemma LeafIsLeaf(g: Graph, t: Tables, state: RegistryState, id: Id)
    requires Linked(g) && RowsCoherent(t) && t.applied == state.applied && t.attempts == state.unresolved
    requires Revertible(g, state, id)
    ensures CanRevert(t, id)
  {
    hide CheckUnchanged, RunsNothing, MakePlan, Linked, Coherent;
    forall n | n in t.applied ensures id !in t.applied[n].depends {
      PlannedRow(g, state.applied, n);
      if id in t.applied[n].depends {
        RecordedIsDeclared(g, n, t.applied[n], id);
      }
    }
  }

  lemma RevertibleIsUndoable(run: Run, state: RegistryState, id: Id)
    requires run.job == RevertJob(id) && Revertible(run.graph, state, id)
    ensures Undoable(run.graph, run.job, id) && Passes(run.graph, state.applied)
  {
    hide MakePlan, RunsNothing;
  }

  // ----- Baselining -----

  lemma ReachableIsClosed(d: Depends, id: Id)
    requires Closed(d) && id in d
    ensures DependencyClosed(d, ReachableFrom(d, id)) && ReachableFrom(d, id) <= d.Keys
  {
    forall n | n in ReachableFrom(d, id) ensures forall x | x in d[n] :: x in ReachableFrom(d, id) {
      DependsReachable(d, id, n);
    }
  }

  lemma InducedContinues(d: Depends, keep: set<Id>, placed: set<Id>, t: seq<Id>)
    requires Continues(Induced(d, keep), placed, t)
    ensures Continues(d, placed, t)
  {
  }

  /** What a baseline records can be recorded front to back. */
  lemma SelectionContinues(g: Graph, state: RegistryState, id: Id)
    requires Valid(g) && id in g.migrations
    ensures Continues(DependsOf(g.migrations), state.applied.Keys, BaselineSelection(g, state, id))
  {
    hide Continues, Filter, KahnFrom, DependencyClosed, ReachableFrom;
    var d := DependsOf(g.migrations);
    var reach, done := ReachableFrom(d, id), state.applied.Keys;
    var i := Induced(d, reach);
    ReachableIsClosed(d, id);
    KahnContinues(i, {});
    assert i.Keys == reach;
    FilterContinues(i, done, {}, Kahn(i));
    InducedContinues(d, reach, done, Filter(Kahn(i), reach - done));
  }

  lemma {:induction false} SourcesName(g: Graph, ids: seq<Id>)
    requires Linked(g) && Sources(g, ids).Some?
    ensures var sources := Sources(g, ids).value;
      && |sources| == |ids|
      && forall k | 0 <= k < |ids| ::
           ids[k] in g.migrations && sources[k].migration == g.migrations[ids[k]] && sources[k].migration.manifest.id == ids[k]
  {
    if ids != [] {
      SourcesName(g, ids[1..]);
      assert g.migrations[ids[0]].manifest.id == ids[0];
    }
  }

  lemma SourcesCover(g: Graph, job: Job, applied: set<Id>, sources: seq<Source>, ids: seq<Id>)
    requires Linked(g) && job.BaselineJob? && job.id in g.migrations && Sources(g, ids) == Some(sources)
    requires forall x :: x in ids <==>
      x in g.migrations && Reaches(DependsOf(g.migrations), job.id, x) && x !in applied
    ensures Covers(g, job, applied, sources)
  {
    hide Linked, Sources, Reaches;
    SourcesName(g, ids);
    forall x ensures x in BaselineIds(sources) <==> x in ids {
      if x in ids {
        var k :| 0 <= k < |ids| && ids[k] == x;
        assert sources[k] in sources;
      }
    }
  }

  /** The selection, whatever its order, is what the target needs and is not applied. */
  lemma SelectionIsNeeded(g: Graph, state: RegistryState, id: Id)
    requires Valid(g) && id in g.migrations
    ensures forall x :: x in BaselineSelection(g, state, id) <==>
      x in g.migrations && Reaches(DependsOf(g.migrations), id, x) && x !in state.applied
  {
    hide KahnFrom, Acyclic, Reaches, Induced;
    var d := DependsOf(g.migrations);
    LeastOrder(d);
    ClosureOrder(d, id);
  }

  lemma {:induction false} SourcesFollow(g: Graph, applied: set<Id>, ids: seq<Id>)
    requires Linked(g) && Continues(DependsOf(g.migrations), applied, ids) && Sources(g, ids).Some?
    ensures CanBaseline(applied, Sources(g, ids).value)
    decreases |ids|
  {
    if ids != [] {
      ContinuesTail(DependsOf(g.migrations), applied, ids);
      assert ids[..0] == [];
      SourcesFollow(g, applied + {ids[0]}, ids[1..]);
    }
  }

  // ----- Rehashing -----

  lemma AcceptedNeedsReason(g: Graph, state: RegistryState, acceptCurrent: bool, plan: seq<RehashEntry>, e: RehashEntry)
    requires MakeRehashPlan(g, state, acceptCurrent) == Ok(plan) && e in plan && e.disposition == Accepted
    ensures acceptCurrent
  {
  }

  // ----- Any decision -----

  lemma DeploysFromClaimed(t: Tables, r: RunId, run: Run, state: RegistryState)
    requires Valid(run.graph) && Current(t, run, state) && run.job.DeployJob?
    requires state.unresolved == map[] && MakePlan(run.graph, state.applied).Ok?
    requires forall id: Id :: Untouched(t.log, r, id)
    ensures Proceeding(t, r, run, MakePlan(run.graph, state.applied).value.pending)
  {
    hide MakePlan, Valid, Untouched;
    PlanIsDeployable(run.graph, state.applied);
  }

  lemma BaselinesFromClaimed(run: Run, state: RegistryState, sources: seq<Source>)
    requires Valid(run.graph) && run.job.BaselineJob? && run.job.id in run.graph.migrations
    requires Sources(run.graph, BaselineSelection(run.graph, state, run.job.id)) == Some(sources)
    ensures CanBaseline(state.applied.Keys, sources) && Covers(run.graph, run.job, state.applied.Keys, sources)
  {
    hide CanBaseline, Sources, BaselineSelection, Covers, Reaches;
    var ids := BaselineSelection(run.graph, state, run.job.id);
    SelectionContinues(run.graph, state, run.job.id);
    SourcesFollow(run.graph, state.applied.Keys, ids);
    SelectionIsNeeded(run.graph, state, run.job.id);
    SourcesCover(run.graph, run.job, state.applied.Keys, sources, ids);
  }

  lemma DecidesFromClaimed(t: Tables, r: RunId, run: Run, state: RegistryState)
    requires Sound(t) && Valid(run.graph) && run.pc == Claimed(state) && Current(t, run, state)
    requires forall id: Id :: Untouched(t.log, r, id)
    ensures Knows(t, r, run.(pc := Decision(run)))
  {
    hide Revertible, CanRevert, Undoable, CanBaseline, Covers, Snapshot, Attempting, Rehashes, MakePlan, BaselineSelection, Sources,
      Valid, Deployable, Untouched;
    match run.job
    case DeployJob =>
      if state.unresolved == map[] && MakePlan(run.graph, state.applied).Ok? {
        DeploysFromClaimed(t, r, run, state);
      }
    case RevertJob(id) =>
      if Revertible(run.graph, state, id) {
        assert Linked(run.graph) by { ValidIsLinked(run.graph); }
        LeafIsLeaf(run.graph, t, state, id);
        RevertibleIsUndoable(run, state, id);
      }
    case BaselineJob(id) =>
      if id in run.graph.migrations && Sources(run.graph, BaselineSelection(run.graph, state, id)).Some? {
        BaselinesFromClaimed(run, state, Sources(run.graph, BaselineSelection(run.graph, state, id)).value);
      }
    case _ =>
  }

  lemma ValidIsLinked(g: Graph)
    requires Valid(g)
    ensures Linked(g)
  {
  }

  lemma RehashesFromRefreshed(run: Run, state: RegistryState, plan: seq<RehashEntry>)
    requires Admitted(run) && run.job.RehashJob? && MakeRehashPlan(run.graph, state, run.job.acceptCurrent) == Ok(plan)
    ensures ReasonFits(plan, run.job.reason) && state.format.Some?
  {
    hide Valid, DeployPasses, Entries;
    forall e | e in plan && e.disposition == Accepted ensures run.job.acceptCurrent {
      AcceptedNeedsReason(run.graph, state, run.job.acceptCurrent, plan, e);
    }
  }

  lemma DecidesFromRefreshed(t: Tables, r: RunId, run: Run, state: RegistryState)
    requires Admitted(run) && run.pc == Refreshed(state) && Snapshot(t, run, state)
    ensures Knows(t, r, run.(pc := Decision(run)))
  {
    hide CanRevert, Undoable, CanBaseline, Covers, Attempting, Proceeding, Current, MakeRehashPlan, Validate, IsEmpty, ReadState,
      Admitted, Resolvable;
    if run.job.RehashJob? && MakeRehashPlan(run.graph, state, run.job.acceptCurrent).Ok? {
      RehashesFromRefreshed(run, state, MakeRehashPlan(run.graph, state, run.job.acceptCurrent).value);
    }
  }
}
