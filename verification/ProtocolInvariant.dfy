/** What holds of every reachable world, and why one run's writes never disturb another's view. */
module ProtocolInvariant {
  import opened Collections
  import opened DependencyOrder
  import opened Migrations
  import opened Lint
  import opened Graphs
  import opened History
  import opened Ledger
  import opened Registry
  import opened Rehash
  import opened Protocol

  // ----- Locks -----

  /** The run is between acquiring and releasing its deployment lock. */
  predicate Deploys(pc: Pc) {
    pc != Opened && pc != Ended
  }

  /** ... and between acquiring and releasing the ownership lock. */
  predicate Claims(pc: Pc) {
    pc.Claiming? || pc.Unclaimed? || pc.Raised?
  }

  predicate Entitled(l: Lock, run: Run) {
    match l
    case Deployment(p) => p == run.project && Deploys(run.pc)
    case Ownership => Claims(run.pc) || run.pc == Ending
  }

  predicate Holds(locks: map<Lock, RunId>, l: Lock, r: RunId) {
    l in locks && locks[l] == r
  }

  predicate Secured(locks: map<Lock, RunId>, r: RunId, run: Run) {
    && (Deploys(run.pc) ==> Holds(locks, Deployment(run.project), r))
    && (Claims(run.pc) ==> Holds(locks, Ownership, r))
  }

  predicate LocksAccounted(locks: map<Lock, RunId>, runs: map<RunId, Run>) {
    && (forall l | l in locks :: locks[l] in runs && Entitled(l, runs[locks[l]]))
    && (forall r | r in runs :: Secured(locks, r, runs[r]))
  }

  // ----- What a run knows -----

  /** The registry is this project's and in the current format. */
  predicate Owned(t: Tables, run: Run) {
    t.meta == Some(Meta(run.project, REGISTRY_FORMAT_VERSION))
  }

  /** What was read is still there, unless another project has claimed the schema since. */
  predicate Snapshot(t: Tables, run: Run, state: RegistryState) {
    && CheckProject(state, run.project).Ok?
    && (state.format.Some? ==> t.meta.Some? && t.meta.value.project == run.project)
    && (t.meta.None? || t.meta.value.project == run.project ==> ReadState(t) == Ok(state))
  }

  predicate Untouched(log: Log, r: RunId, id: Id) {
    !WasSent(log, r, id) && !Landed(log, r, id)
  }

  predicate AllUntouched(log: Log, r: RunId, ids: seq<Id>) {
    forall id | id in ids :: Untouched(log, r, id)
  }

  /** The run has written nothing yet that it would have to remember. */
  predicate Early(pc: Pc) {
    pc.Opened? || pc.Locked? || pc.Read? || pc.Refreshed? || pc.Claiming? || pc.Unclaimed? || pc.Raised? || pc.Claimed?
  }

  ghost predicate Common(t: Tables, r: RunId, run: Run) {
    && Admitted(run)
    && Free(t, r, run.sequence + 1)
    && (run.pc != Ending && run.pc != Ended ==> forall a | a in t.audit :: a.run != r)
    && (Early(run.pc) ==> forall id: Id :: Untouched(t.log, r, id))
  }

  /** What is applied passes the history check of this checkout. */
  predicate Passes(g: Graph, applied: AppliedRows) {
    MakePlan(g, applied).Ok?
  }

  /** `id` is this run's own unresolved attempt, and the rest can follow it. */
  ghost predicate Attempting(t: Tables, r: RunId, run: Run, id: Id, rest: seq<Id>) {
    && Owned(t, run) && run.job.DeployJob? && id in run.graph.migrations
    && StructuralDigest(run.graph.migrations[id]).Some?
    && OwnAttempt(t, r, run.graph.migrations[id], StructuralDigest(run.graph.migrations[id]).value)
    && Deployable(run.graph, t.applied.Keys + {id}, rest)
    && id !in rest && AllUntouched(t.log, r, rest) && Passes(run.graph, t.applied)
  }

  /** Everything left to do can be done front to back. */
  ghost predicate Proceeding(t: Tables, r: RunId, run: Run, pending: seq<Id>) {
    && Owned(t, run) && run.job.DeployJob? && t.attempts == map[]
    && Deployable(run.graph, t.applied.Keys, pending) && AllUntouched(t.log, r, pending) && Passes(run.graph, t.applied)
  }

  /** What was asked to be reverted is declared reversible and has a script that does something. */
  predicate Undoable(g: Graph, job: Job, id: Id) {
    && job == RevertJob(id) && id in g.migrations
    && g.migrations[id].manifest.reversibility == Reversible
    && g.migrations[id].revert.Some? && !RunsNothing(g.migrations[id].revert.value)
  }

  /** What is about to be recorded is everything the target needs, itself included, and nothing that is
      recorded already; all of it from this checkout. */
  ghost predicate Covers(g: Graph, job: Job, applied: set<Id>, sources: seq<Source>) {
    && job.BaselineJob? && job.id in g.migrations
    && (forall e | e in sources :: e.migration.manifest.id in g.migrations
                                   && g.migrations[e.migration.manifest.id] == e.migration)
    && (forall x :: x in BaselineIds(sources) <==>
          x in g.migrations && Reaches(DependsOf(g.migrations), job.id, x) && x !in applied)
  }

  predicate Resolvable(t: Tables, id: Id, attempt: AttemptRow) {
    id in t.attempts && t.attempts[id] == attempt
  }

  predicate Rehashes(t: Tables, run: Run, state: RegistryState, plan: seq<RehashEntry>) {
    && ReadState(t) == Ok(state) && CheckProject(state, run.project).Ok? && t.meta.Some? && run.job.RehashJob?
    && Planned(run.graph, state, run.job.acceptCurrent, plan) && ReasonFits(plan, run.job.reason) && !IsEmpty(plan)
  }

  predicate Current(t: Tables, run: Run, state: RegistryState) {
    Owned(t, run) && t.applied == state.applied && t.attempts == state.unresolved
  }

  /** What a run may rely on where it stands. */
  ghost predicate Knows(t: Tables, r: RunId, run: Run) {
    match run.pc
    case Read(state) => Snapshot(t, run, state)
    case Refreshed(state) => Snapshot(t, run, state)
    case Claiming(state) => Snapshot(t, run, state) && MayClaim(run.job, run.graph, state)
    case Unclaimed(state) => ReadState(t) == Ok(state) && CheckProject(state, run.project).Ok? && MayClaim(run.job, run.graph, state)
    case Raised(state) => Current(t, run, state) && MayClaim(run.job, run.graph, state)
    case Claimed(state) => Current(t, run, state) && MayClaim(run.job, run.graph, state)
    case Deploying(pending) => Proceeding(t, r, run, pending)
    case Sending(id, rest) => Attempting(t, r, run, id, rest) && Untouched(t.log, r, id)
    case Waiting(id, rest) => Attempting(t, r, run, id, rest) && WasSent(t.log, r, id)
    case Finishing(id, rest) => Attempting(t, r, run, id, rest) && Landed(t.log, r, id)
    case Verifying(id, rest) => Proceeding(t, r, run, rest) && id in run.graph.migrations
    case Reporting(n) => Owned(t, run) && n.outcome in {Failed, Unknown}
    case Reverting(id) => Owned(t, run) && CanRevert(t, id) && Undoable(run.graph, run.job, id) && Passes(run.graph, t.applied)
    case Baselining(sources) =>
      && Owned(t, run) && t.attempts == map[] && CanBaseline(t.applied.Keys, sources)
      && Covers(run.graph, run.job, t.applied.Keys, sources)
    case Resolving(id, attempt, _) => Owned(t, run) && Resolvable(t, id, attempt)
    case Rehashing(state, plan) => Rehashes(t, run, state, plan)
    case _ => true
  }

  ghost predicate View(t: Tables, r: RunId, run: Run) {
    Common(t, r, run) && Knows(t, r, run)
  }

  // ----- The invariant -----

  ghost predicate Registered(w: World) {
    && (forall s: Schema :: Sound(TablesOf(w, s)))
    && (forall a: Schema, b: Schema :: TablesOf(w, a).meta.Some? && TablesOf(w, b).meta.Some? ==> a == b)
  }

  /** A run that has checked ownership under the ownership lock is still right about it. */
  ghost predicate SoleClaim(w: World, run: Run) {
    run.pc.Unclaimed? ==> forall s: Schema | TablesOf(w, s).meta.Some? :: s == run.schema
  }

  ghost predicate Tracked(w: World, f: Flight) {
    && TablesOf(w, f.schema).meta.Some?
    && WasSent(TablesOf(w, f.schema).log, f.run, f.id) && !Landed(TablesOf(w, f.schema).log, f.run, f.id)
    && !DropsSession(w, f)
  }

  ghost predicate Inv(w: World) {
    && Registered(w)
    && LocksAccounted(w.locks, w.runs)
    && (forall r | r in w.runs :: View(TablesOf(w, w.runs[r].schema), r, w.runs[r]) && SoleClaim(w, w.runs[r]))
    && (forall f | f in w.inFlight :: Tracked(w, f))
  }

  // ----- One run's writes, seen by another -----

  /** What any write of run `r` leaves alone. */
  predicate Grows(t: Tables, after: Tables, r: RunId) {
    && (t.meta.Some? ==> after.meta.Some? && after.meta.value.project == t.meta.value.project)
    && (forall e | e in t.log :: e in after.log)
    && (forall e | e in after.log :: e in t.log || (RunOf(e) == r && !(e.Done? && e.effect.role == Standalone)))
    && (forall a | a in after.audit :: a in t.audit || a.run == r)
  }

  lemma CommonStays(t: Tables, after: Tables, q: RunId, run: Run, r: RunId)
    requires Grows(t, after, r) && q != r && Common(t, q, run)
    ensures Common(after, q, run)
  {
    forall id: Id | Untouched(t.log, q, id) ensures Untouched(after.log, q, id) {
      assert RunOf(Sent(q, id)) == q && RunOf(Done(Effect(q, id, Standalone, 0))) == q;
    }
  }

  /** Runs of one project never write under each other, and what another project writes is in a
      registry this run does not work on. */
  lemma ViewStays(t: Tables, after: Tables, q: RunId, run: Run, r: RunId)
    requires Grows(t, after, r) && q != r && View(t, q, run)
    requires Deploys(run.pc) ==> after.meta.Some? && after.meta.value.project != run.project
    requires run.pc.Unclaimed? ==> t.meta.Some?
    ensures View(after, q, run)
  {
    CommonStays(t, after, q, run, r);
  }

  /** A landing statement changes only the log, and only by its own effect. */
  lemma ViewSurvivesLanding(t: Tables, q: RunId, run: Run, r: RunId, id: Id)
    requires View(t, q, run) && WasSent(t.log, r, id)
    ensures View(WithLanded(t, r, id), q, run)
  {
    hide CanBaseline, Covers, Undoable, Passes, MayClaim, Planned, ReasonFits, IsEmpty, Deployable, Admitted, StructuralDigest;
    var after := WithLanded(t, r, id);
    assert forall x: Id | Untouched(t.log, q, x) :: Untouched(after.log, q, x);
  }
}
