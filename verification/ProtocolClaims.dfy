/** Which commands go on to claim the database, said of the tables and not of what was read. */
module ProtocolClaims {
  import opened Collections
  import opened DependencyOrder
  import opened Migrations
  import opened Lint
  import opened Graphs
  import opened History
  import opened Edits
  import opened Ledger
  import opened Registry
  import opened Rehash
  import opened Transactions
  import opened Protocol
  import opened ProtocolInvariant
  import opened ProtocolSteps
  import opened ProtocolSafety
  import opened ProtocolTheorems
  import opened ProtocolReverts

  /** What a command asks of the database before it claims it. A deploy asks nothing yet; a rehash never
      claims. */
  predicate MayProceed(job: Job, g: Graph, t: Tables) {
    match job
    case DeployJob => true
    case RevertJob(id) => MayRevert(g, t, id)
    case BaselineJob(_) => t.attempts == map[]
    case ResolveJob(id, _) => id in t.attempts
    case RehashJob(_, _) => false
  }

  lemma ProceedsExactly(job: Job, g: Graph, t: Tables, state: RegistryState)
    requires Linked(g) && RowsCoherent(t) && Formatted(t) && t.applied == state.applied && t.attempts == state.unresolved
    requires t.meta.Some? ==> state.format.Some?
    ensures MayClaim(job, g, state) ==> MayProceed(job, g, t)
    ensures state.format.Some? && MayProceed(job, g, t) ==> MayClaim(job, g, state)
    ensures t.meta.None? ==> (MayClaim(job, g, state) <==> MayProceed(job, g, t))
  {
    hide Linked, MakePlan, Coherent, Revertible, MayRevert;
    if job.RevertJob? {
      if state.format.Some? {
        RevertibleExactly(g, t, state, job.id);
      } else {
        NothingToRevert(g, t, state, job.id);
      }
    }
  }

  lemma NothingToRevert(g: Graph, t: Tables, state: RegistryState, id: Id)
    requires Formatted(t) && t.meta.None? && state.format.None?
    ensures !Revertible(g, state, id) && !MayRevert(g, t, id)
  {
    hide MakePlan, RunsNothing;
  }

  /** A run that has read the database as it is goes on to claim it exactly when it may proceed; with the
      ownership lock free, it then can. */
  lemma ClaimsExactly(w: World, r: RunId, state: RegistryState)
    requires Inv(w) && r in w.runs && w.runs[r].pc == Refreshed(state) && ReadState(TablesOf(w, w.runs[r].schema)) == Ok(state)
    requires Ownership !in w.locks
    ensures Next(w, AcquireOwnership(r)).Some? <==> MayProceed(w.runs[r].job, w.runs[r].graph, TablesOf(w, w.runs[r].schema))
    ensures Next(w, Decide(r)).Some? <==> !MayProceed(w.runs[r].job, w.runs[r].graph, TablesOf(w, w.runs[r].schema))
  {
    hide Inv, Common, SoleClaim, LocksAccounted, MatchesLog, SoundLog, RowsClosed, AttemptsReady, AuditKeyed, Linked, Below, MayClaim,
      MayProceed, Formatted, Coherent, Decision;
    var run, t := w.runs[r], TablesOf(w, w.runs[r].schema);
    Here(w, r);
    CommonMeans(t, r, run);
    ReadsExactly(t);
    ReadStateIsExact(t);
    ProceedsExactly(run.job, run.graph, t, state);
  }

  /** And whoever has claimed it may: no command touches a database it was going to refuse. */
  lemma ClaimersMay(w: World, r: RunId)
    requires Reachable(w) && r in w.runs && (w.runs[r].pc.Unclaimed? || w.runs[r].pc.Raised? || w.runs[r].pc.Claimed?)
    ensures MayProceed(w.runs[r].job, w.runs[r].graph, TablesOf(w, w.runs[r].schema))
  {
    hide Inv, Reachable, Common, SoleClaim, LocksAccounted, MatchesLog, SoundLog, RowsClosed, AttemptsReady, AuditKeyed, Linked, Below,
      Formatted, Coherent, MakePlan, RunsNothing, MayRevert;
    ReachableIsSafe(w);
    var run, t := w.runs[r], TablesOf(w, w.runs[r].schema);
    Here(w, r);
    CommonMeans(t, r, run);
    if run.pc.Unclaimed? {
      ReadStateIsExact(t);
    }
    if run.job.RevertJob? {
      RevertibleExactly(run.graph, t, run.pc.state, run.job.id);
    }
  }

  /** Everything a rehash asks for, said of the tables: every row can be carried over, and there is one to
      move. */
  predicate MayRehash(g: Graph, t: Tables, acceptCurrent: bool) {
    && t.meta.Some? && t.attempts == map[]
    && (forall id | id in t.applied :: CarriesOver(g, t.applied, id, t.applied[id], acceptCurrent))
    && (exists id :: id in t.applied && t.applied[id].algorithm == RAW_V1)
  }

  /** A rehash that has read the registry as it is goes on exactly when it may. */
  lemma RehashesExactly(w: World, r: RunId, state: RegistryState)
    requires Inv(w) && r in w.runs && w.runs[r].pc == Refreshed(state) && w.runs[r].job.RehashJob?
    requires ReadState(TablesOf(w, w.runs[r].schema)) == Ok(state)
    ensures Decision(w.runs[r]).Rehashing? <==> MayRehash(w.runs[r].graph, TablesOf(w, w.runs[r].schema), w.runs[r].job.acceptCurrent)
    ensures !Decision(w.runs[r]).Rehashing? ==> Decision(w.runs[r]) == Ending
  {
    hide Inv, Common, Knows, SoleClaim, LocksAccounted, Sound, Decision, ReadState, MayRehash;
    var run, t := w.runs[r], TablesOf(w, w.runs[r].schema);
    Here(w, r);
    ReadsExactly(t);
    ReadStateIsExact(t);
    RehashDecision(run, t, state);
  }

  lemma RehashDecision(run: Run, t: Tables, state: RegistryState)
    requires run.pc == Refreshed(state) && run.job.RehashJob? && t.applied == state.applied && t.attempts == state.unresolved
    requires state.format.Some? <==> t.meta.Some?
    ensures Decision(run) == Ending || Decision(run).Rehashing?
    ensures Decision(run).Rehashing? <==> MayRehash(run.graph, t, run.job.acceptCurrent)
  {
    hide Entries, Validate, CarriesOver, IsEmpty, MakePlan, Revertible, BaselineSelection, Sources;
    if MakeRehashPlan(run.graph, state, run.job.acceptCurrent).Ok? {
      var plan := MakeRehashPlan(run.graph, state, run.job.acceptCurrent).value;
      ValidatesExactly(run.graph, state, run.job.acceptCurrent);
      if Validate(plan).Ok? {
        EmptyExactly(run.graph, state, run.job.acceptCurrent, plan);
      }
    }
  }

  /** And in every reachable database whoever is about to rehash may. */
  lemma RehashersMay(w: World, r: RunId)
    requires Reachable(w) && r in w.runs && w.runs[r].pc.Rehashing?
    ensures w.runs[r].job.RehashJob? && MayRehash(w.runs[r].graph, TablesOf(w, w.runs[r].schema), w.runs[r].job.acceptCurrent)
  {
    hide Inv, Reachable, Common, SoleClaim, LocksAccounted, Sound, ReadState, Entries, Validate, CarriesOver, IsEmpty;
    ReachableIsSafe(w);
    var run, t := w.runs[r], TablesOf(w, w.runs[r].schema);
    Here(w, r);
    ReadStateIsExact(t);
    ValidatesExactly(run.graph, run.pc.state, run.job.acceptCurrent);
    EmptyExactly(run.graph, run.pc.state, run.job.acceptCurrent, run.pc.plan);
  }

  /** Nothing in the database is anybody else's. */
  ghost predicate NoStranger(w: World, run: Run) {
    forall s: Schema | TablesOf(w, s).meta.Some? :: s == run.schema && TablesOf(w, s).meta.value.project == run.project
  }

  lemma OwnershipExactly(w: World, run: Run)
    ensures OwnershipHolds(w.schemas, run.schema, run.project) <==> NoStranger(w, run)
  {
    assert forall s :: s in Registries(w.schemas) <==> TablesOf(w, s).meta.Some?;
  }

  /** A registry of another project, or in another schema, stops a run both before it claims the database
      and, when one has appeared since, after; nothing else does. */
  lemma StrangersStop(w: World, r: RunId, next: World)
    requires r in w.runs && (Next(w, CheckOwnership(r)) == Some(next) || Next(w, RecheckOwnership(r)) == Some(next))
    ensures r in next.runs && next.schemas == w.schemas
    ensures next.runs[r].pc == Ending <==> !NoStranger(w, w.runs[r])
  {
    hide Survives, Body, RunPrivately, Transact, ReadState, MayClaim, OwnershipHolds, VerifyCommands, Decision, Verifies, NoStranger;
    OwnershipExactly(w, w.runs[r]);
  }

  /** What is checked before anything connects holds of every run there is: the graph was built, a deploy
      or a baseline passed lint, and whoever accepts the current source gave a reason. */
  lemma CheckedBeforehand(w: World, r: RunId)
    requires Reachable(w) && r in w.runs
    ensures Graphs.Valid(w.runs[r].graph)
    ensures w.runs[r].job.DeployJob? || w.runs[r].job.BaselineJob? ==>
      forall id | id in w.runs[r].graph.migrations :: DeployPasses(w.runs[r].graph.migrations[id])
    ensures w.runs[r].job.RehashJob? && w.runs[r].job.acceptCurrent ==>
      w.runs[r].job.reason.Some? && !IsBlank(w.runs[r].job.reason.value)
  {
    hide Inv, Reachable, Knows, SoleClaim, Sound, LocksAccounted, Graphs.Valid, DeployPasses, IsBlank;
    ReachableIsSafe(w);
    Here(w, r);
  }

  /** Nobody deploys or reverts over an edited history: whatever has been applied, a run that goes on has
      it in its own checkout as it was when it was recorded. */
  lemma WorkersSeeNoEdits(w: World, r: RunId, id: Id, source: Migration)
    requires Reachable(w) && r in w.runs && id in TablesOf(w, w.runs[r].schema).applied
    requires var pc := w.runs[r].pc;
      pc.Deploying? || pc.Sending? || pc.Waiting? || pc.Finishing? || pc.Verifying? || pc.Reverting?
    requires var row := TablesOf(w, w.runs[r].schema).applied[id]; Records(source, row.algorithm, row.run, row)
    requires TreeFits(source) && forall x | x in w.runs[r].graph.migrations :: TreeFits(w.runs[r].graph.migrations[x])
    ensures id in w.runs[r].graph.migrations
    ensures Unedited(source, w.runs[r].graph.migrations[id], TablesOf(w, w.runs[r].schema).applied[id].algorithm)
  {
    hide Inv, Reachable, Common, SoleClaim, Sound, LocksAccounted, CanRevert, Undoable, OwnAttempt, Deployable, AllUntouched, MakePlan,
      CheckUnchanged, Records, Unedited, TreeFits;
    ReachableIsSafe(w);
    Here(w, r);
    var run, t := w.runs[r], TablesOf(w, w.runs[r].schema);
    assert MakePlan(run.graph, t.applied).Ok?;
    PlanExactly(run.graph, t.applied);
    EditsShow(source, run.graph.migrations[id], t.applied[id].algorithm, t.applied[id].run, t.applied[id]);
  }
}
