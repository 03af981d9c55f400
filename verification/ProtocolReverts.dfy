/** Which reverts go through: exactly those of applied, unchanged leaves that are declared reversible and
    have a script that does something. */
module ProtocolReverts {
  import opened Collections
  import opened DependencyOrder
  import opened Migrations
  import opened Lint
  import opened Graphs
  import opened History
  import opened Ledger
  import opened Registry
  import opened Transactions
  import opened Protocol
  import opened ProtocolInvariant
  import opened ProtocolSteps
  import opened ProtocolDecisions
  import opened ProtocolSafety
  import opened ProtocolTheorems
  import opened ProtocolLiveness
  import opened ProtocolRecovery

  /** No applied migration was recorded as depending on `id`. */
  predicate IsLeaf(rows: AppliedRows, id: Id) {
    id in rows && forall n | n in rows :: id !in rows[n].depends
  }

  /** The checkout declares the migration reversible and says how, in a script that is not empty. */
  predicate DeclaresRevert(g: Graph, id: Id) {
    && id in g.migrations && g.migrations[id].manifest.reversibility == Reversible
    && g.migrations[id].revert.Some? && !IsBlank(g.migrations[id].revert.value.sql)
    && (g.migrations[id].revert.value.parsed.Some? ==> g.migrations[id].revert.value.parsed.value.statements != [])
  }

  /** Everything a revert asks for, said of the tables. */
  predicate MayRevert(g: Graph, t: Tables, id: Id) {
    t.attempts == map[] && MakePlan(g, t.applied).Ok? && IsLeaf(t.applied, id) && DeclaresRevert(g, id)
  }

  lemma DeclaredIsRecorded(g: Graph, rows: AppliedRows, id: Id, n: Id)
    requires Linked(g) && MakePlan(g, rows).Ok? && id in g.dependents && n in g.dependents[id] && n in rows && Coherent(n, rows[n])
    ensures id in rows[n].depends
  {
    hide MakePlan, CheckUnchanged;
    PlannedRow(g, rows, n);
    UnchangedMeans(g.migrations[n], n, rows[n]);
    assert n in DependentsIn(DependsOf(g.migrations))[id];
    assert id in Elements(g.migrations[n].manifest.depends) && Elements(rows[n].depends) == Elements(g.migrations[n].manifest.depends);
  }

  /** The check on the checkout's reverse edges asks for exactly that. */
  lemma RevertibleExactly(g: Graph, t: Tables, state: RegistryState, id: Id)
    requires Linked(g) && RowsCoherent(t) && t.applied == state.applied && t.attempts == state.unresolved && state.format.Some?
    ensures Revertible(g, state, id) <==> MayRevert(g, t, id)
  {
    hide MakePlan, Linked, IsBlank, Coherent;
    if Revertible(g, state, id) {
      LeafIsLeaf(g, t, state, id);
    } else if MayRevert(g, t, id) {
      forall n | id in g.dependents && n in g.dependents[id] && n in t.applied ensures false {
        DeclaredIsRecorded(g, t.applied, id, n);
      }
    }
  }

  /** Whoever is about to revert may: in every reachable database, its target is an applied leaf of a
      history that passes the check, declared reversible, with a script that does something. */
  lemma RevertersMay(w: World, r: RunId)
    requires Reachable(w) && r in w.runs && w.runs[r].pc.Reverting?
    ensures w.runs[r].job == RevertJob(w.runs[r].pc.id)
    ensures MayRevert(w.runs[r].graph, TablesOf(w, w.runs[r].schema), w.runs[r].pc.id)
  {
    hide Inv, Reachable, Common, SoleClaim, Sound, LocksAccounted, MakePlan, IsBlank;
    ReachableIsSafe(w);
    Here(w, r);
  }

  /** What a revert leaves, entry by entry. */
  predicate RevertLeaves(t: Tables, after: Tables, r: RunId, n: nat, id: Id, script: Script) {
    && after.applied == t.applied - {id} && after.attempts == t.attempts && after.audit == t.audit
    && after.log == t.log + AsDone(ScriptEffects(r, id, RevertScript, Some(script)))
                      + [Logged(EventRow(r, n, id, Revert, Succeeded, Required, Some(script)))]
  }

  /** A revert that nothing hinders runs to its end: the script takes effect, exactly its target stops
      being applied, and both locks are as they were. */
  lemma RevertCompletes(w: World, r: RunId, id: Id) returns (later: World)
    requires Reachable(w) && r in w.runs && w.runs[r].pc == Opened && w.runs[r].job == RevertJob(id) && Unhindered(w, w.runs[r])
    requires MayRevert(w.runs[r].graph, TablesOf(w, w.runs[r].schema), id)
    requires RunsWhole(w.runs[r].graph.migrations[id].revert.value)
    ensures Leads(w, later) && later.locks == w.locks && later.inFlight == w.inFlight
    ensures later.runs == w.runs[r := w.runs[r].(pc := Ended, sequence := w.runs[r].sequence + 1)]
    ensures var run := w.runs[r];
      && (forall s: Schema | s != run.schema :: TablesOf(later, s) == TablesOf(w, s))
      && RevertLeaves(TablesOf(w, run.schema), TablesOf(later, run.schema), r, run.sequence + 1, id, run.graph.migrations[id].revert.value)
      && Owned(TablesOf(later, run.schema), run)
  {
    hide Inv, Reachable, Leads, Trace, Next, ReadState, CheckProject, OwnershipHolds, Revertible, MakePlan, Reverted, RevertLeaves,
      RunsWhole, IsLeaf;
    ReachableIsSafe(w);
    var run := w.runs[r];
    var state := ReadState(TablesOf(w, run.schema)).value;
    assert MayClaim(run.job, run.graph, state) by { RevertIsAdmitted(w, r, id, state); }
    var claimed := ReachesClaim(w, r, state);
    later := RevertsClaimed(claimed, r, id, state);
    LeadsOn(w, claimed, later);
    LeavesFromUpgrade(TablesOf(w, run.schema), run.project, r, run.sequence + 1, id, run.graph.migrations[id].revert.value);
  }

  lemma RevertIsAdmitted(w: World, r: RunId, id: Id, state: RegistryState)
    requires Inv(w) && r in w.runs && ReadState(TablesOf(w, w.runs[r].schema)) == Ok(state)
    requires MayRevert(w.runs[r].graph, TablesOf(w, w.runs[r].schema), id)
    ensures Revertible(w.runs[r].graph, state, id)
  {
    hide Inv, Common, Knows, SoleClaim, LocksAccounted, MakePlan, Linked, MatchesLog, SoundLog, RowsClosed, AttemptsReady, AuditKeyed,
      Below, Revertible, DeclaresRevert;
    var run, t := w.runs[r], TablesOf(w, w.runs[r].schema);
    Here(w, r);
    CommonMeans(t, r, run);
    ReadsExactly(t);
    assert t.meta.Some?;
    RevertibleExactly(run.graph, t, state, id);
  }

  lemma LeavesFromUpgrade(t: Tables, project: ProjectId, r: RunId, n: nat, id: Id, script: Script)
    ensures RevertLeaves(t, Reverted(Upgraded(t, project), r, n, id, script), r, n, id, script)
    ensures Reverted(Upgraded(t, project), r, n, id, script).meta == Some(Meta(project, REGISTRY_FORMAT_VERSION))
  {
  }

  lemma RevertingRuns(w: World, r: RunId, id: Id, script: Script)
    requires Inv(w) && r in w.runs && w.runs[r].pc == Reverting(id) && RunsWhole(script)
    requires id in w.runs[r].graph.migrations && w.runs[r].graph.migrations[id].revert == Some(script)
    ensures var run, t := w.runs[r], TablesOf(w, w.runs[r].schema);
      && Body(r, run).Some? && !ScriptRefused(run)
      && RunPrivately(t, Body(r, run).value) == Some(Reverted(t, r, run.sequence + 1, id, script))
  {
    hide Inv, Common, Knows, SoleClaim, LocksAccounted, Sound, RunPrivately, Reverted, AllOrdinary, Below;
    var run, t := w.runs[r], TablesOf(w, w.runs[r].schema);
    Here(w, r);
    CommonMeans(t, r, run);
    RevertBodyRuns(t, r, run.sequence + 1, id, script);
  }

  lemma RevertsClaimed(w: World, r: RunId, id: Id, state: RegistryState) returns (later: World)
    requires Inv(w) && r in w.runs && w.runs[r].pc == Claimed(state) && w.runs[r].job == RevertJob(id)
    requires Revertible(w.runs[r].graph, state, id) && RunsWhole(w.runs[r].graph.migrations[id].revert.value)
    requires !Holds(w.locks, Ownership, r)
    ensures Leads(w, later)
    ensures var run := w.runs[r];
      later == Replace(w, r, run.(pc := Ended, sequence := run.sequence + 1),
                 Reverted(TablesOf(w, run.schema), r, run.sequence + 1, id, run.graph.migrations[id].revert.value))
                 .(locks := w.locks - {Deployment(run.project)})
  {
    hide Inv, Leads, Trace, Next, Body, Reverted, RunPrivately, RunsWhole, MakePlan, RunsNothing, ScriptRefused;
    var decided := Decides(w, r);
    assert decided.runs[r].pc == Reverting(id);
    RevertingRuns(decided, r, id, w.runs[r].graph.migrations[id].revert.value);
    later := CommitsAndEnds(decided, r);
    LeadsOn(w, decided, later);
  }
}
