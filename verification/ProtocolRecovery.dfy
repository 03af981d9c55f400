/** The commands that repair or convert a database can run to their end: an interrupted statement can
    be accounted for and the deploy taken up again, and a rehash can commit. */
module ProtocolRecovery {
  import opened Collections
  import opened DependencyOrder
  import opened Migrations
  import opened Lint
  import opened Graphs
  import opened History
  import opened Ledger
  import opened Registry
  import opened Rehash
  import opened Transactions
  import opened Protocol
  import opened ProtocolInvariant
  import opened ProtocolSteps
  import opened ProtocolSafety
  import opened ProtocolWrites
  import opened ProtocolTheorems
  import opened ProtocolLiveness

  // ----- Ending -----

  /** A run that has committed its one transaction gives the lock back and ends. */
  lemma CommitsAndEnds(w: World, r: RunId) returns (later: World)
    requires Inv(w) && r in w.runs && Transacts(w.runs[r].pc) && Body(r, w.runs[r]).Some? && !ScriptRefused(w.runs[r])
    requires AfterCommit(w.runs[r]) == Ending && !Holds(w.locks, Ownership, r)
    ensures Inv(later) && Leads(w, later)
    ensures var run, t := w.runs[r], TablesOf(w, w.runs[r].schema);
      && RunPrivately(t, Body(r, run).value).Some?
      && later == Replace(w, r, After(run, Ended), RunPrivately(t, Body(r, run).value).value)
                    .(locks := w.locks - {Deployment(run.project)})
  {
    hide Inv, Body, RunPrivately, Leads, Trace, Next, Events, ScriptRefused, AfterCommit, Transacts;
    var run, t := w.runs[r], TablesOf(w, w.runs[r].schema);
    var done := CommitsWhole(w, r);
    later := LetsGo(done, r);
    LeadsAfter(w, Exchange(r, |Body(r, run).value| + 2, 0, true), done, later);
  }

  // ----- Resolving -----

  /** From claiming to the end: the attempt is accounted for. */
  lemma ResolvesClaimed(w: World, r: RunId, state: RegistryState) returns (later: World)
    requires Inv(w) && r in w.runs && w.runs[r].pc == Claimed(state) && w.runs[r].job.ResolveJob?
    requires w.runs[r].job.id in state.unresolved && !Holds(w.locks, Ownership, r)
    ensures Inv(later) && Leads(w, later)
    ensures var run, t := w.runs[r], TablesOf(w, w.runs[r].schema);
      later == Replace(w, r, run.(pc := Ended, sequence := run.sequence + 1),
                 Resolved(t, r, run.sequence + 1, run.job.id, state.unresolved[run.job.id], run.job.applied))
                 .(locks := w.locks - {Deployment(run.project)})
  {
    hide Inv, RunPrivately, Leads, Trace, Next, Body, Resolved, Free;
    var decided := Decides(w, r);
    assert decided.runs[r].pc == Resolving(w.runs[r].job.id, state.unresolved[w.runs[r].job.id], w.runs[r].job.applied);
    ResolvingGoesThrough(decided, r);
    later := CommitsAndEnds(decided, r);
    LeadsOn(w, decided, later);
  }

  lemma ResolvingGoesThrough(w: World, r: RunId)
    requires Inv(w) && r in w.runs && w.runs[r].pc.Resolving?
    ensures var run, t := w.runs[r], TablesOf(w, w.runs[r].schema);
      && Body(r, run).Some?
      && RunPrivately(t, Body(r, run).value) == Some(Resolved(t, r, run.sequence + 1, run.pc.id, run.pc.attempt, run.pc.applied))
  {
    hide Inv, RunPrivately, Transact, Resolved, Free;
    var run, t := w.runs[r], TablesOf(w, w.runs[r].schema);
    ResolvingIsOpen(w, r);
    DoAllRuns(t, ResolveWrites(r, run.sequence + 1, run.pc.id, run.pc.attempt, run.pc.applied));
    ResolveTransacts(t, r, run.sequence + 1, run.pc.id, run.pc.attempt, run.pc.applied);
  }

  lemma ResolvingIsOpen(w: World, r: RunId)
    requires Inv(w) && r in w.runs && w.runs[r].pc.Resolving?
    ensures w.runs[r].pc.id !in TablesOf(w, w.runs[r].schema).applied
    ensures Free(TablesOf(w, w.runs[r].schema), r, w.runs[r].sequence + 1)
  {
    hide Inv, Common, SoleClaim, LocksAccounted, MatchesLog, SoundLog, RowsClosed, AttemptsReady, RowsCoherent, AuditKeyed, Formatted,
      Below;
    Here(w, r);
    CommonMeans(TablesOf(w, w.runs[r].schema), r, w.runs[r]);
  }

  /** A resolution that nothing hinders runs to its end and leaves both locks as it found them. */
  lemma ResolveCompletes(w: World, r: RunId, state: RegistryState) returns (later: World)
    requires Inv(w) && r in w.runs && w.runs[r].pc == Opened && w.runs[r].job.ResolveJob? && Unhindered(w, w.runs[r])
    requires ReadState(TablesOf(w, w.runs[r].schema)) == Ok(state) && RequireInitialized(state).Ok?
    requires w.runs[r].job.id in state.unresolved
    ensures Inv(later) && Leads(w, later) && later.locks == w.locks && later.inFlight == w.inFlight
    ensures var run, t := w.runs[r], TablesOf(w, w.runs[r].schema);
      && later.runs == w.runs[r := run.(pc := Ended, sequence := run.sequence + 1)]
      && later.schemas == w.schemas[run.schema := Resolved(Upgraded(t, run.project), r, run.sequence + 1, run.job.id,
                                                    state.unresolved[run.job.id], run.job.applied)]
  {
    hide Inv, Leads, ReadState, CheckProject, OwnershipHolds, Resolved, Upgraded;
    var claimed := ReachesClaim(w, r, state);
    later := ResolvesClaimed(claimed, r, state);
    LeadsOn(w, claimed, later);
  }

  /** From the beginning to the claim, for a command that nothing hinders. */
  lemma ReachesClaim(w: World, r: RunId, state: RegistryState) returns (later: World)
    requires Inv(w) && r in w.runs && w.runs[r].pc == Opened && Unhindered(w, w.runs[r])
    requires ReadState(TablesOf(w, w.runs[r].schema)) == Ok(state) && MayClaim(w.runs[r].job, w.runs[r].graph, state)
    ensures Inv(later) && Leads(w, later) && later.inFlight == w.inFlight
    ensures later.runs == w.runs[r := w.runs[r].(pc := Claimed(state))]
    ensures later.schemas == w.schemas[w.runs[r].schema := Upgraded(TablesOf(w, w.runs[r].schema), w.runs[r].project)]
    ensures later.locks == w.locks[Deployment(w.runs[r].project) := r]
  {
    hide Inv, Leads, ReadState, CheckProject, OwnershipHolds, Upgraded, MayClaim;
    var a := Prepares(w, r, state);
    var b := ClaimsDatabase(a, r, state);
    later := ClaimsThrough(b, r, state);
    LeadsOn(a, b, later);
    LeadsOn(w, a, later);
  }

  // ----- After a crash -----

  /** Accounting for the attempt of an unchanged migration, either way, leaves a history that passes
      the check. */
  lemma PlanAfterResolve(g: Graph, t: Tables, r: RunId, author: RunId, n: nat, m: Migration, digest: Digest, applied: bool)
    requires MakePlan(g, t.applied).Ok? && AttemptsReady(t) && OwnAttempt(t, r, m, digest)
    requires m.manifest.id in g.migrations && g.migrations[m.manifest.id] == m
    ensures MakePlan(g, Resolved(t, author, n, m.manifest.id, AttemptFor(m, digest, r), applied).applied).Ok?
  {
    hide MakePlan;
    var id := m.manifest.id;
    var rows := Resolved(t, author, n, id, AttemptFor(m, digest, r), applied).applied;
    PlanExactly(g, t.applied);
    forall x | x in rows
      ensures x in g.migrations && CheckUnchanged(g.migrations[x], rows[x]).Ok?
      ensures forall y | y in g.migrations[x].manifest.depends :: y in rows
    {
      if x == id && applied {
        assert forall y | y in m.manifest.depends :: y in t.applied;
      }
    }
    PlanExactly(g, rows);
  }

  /** A history that passes the check is one every reader can read. */
  lemma PlannedIsReadable(g: Graph, t: Tables, run: Run)
    requires MakePlan(g, t.applied).Ok? && Owned(t, run)
    requires forall id | id in t.attempts :: KnownAlgorithm(t.attempts[id].algorithm)
    ensures ReadState(t) == Ok(RegistryState(Some(REGISTRY_FORMAT_VERSION), Some(run.project), t.applied, t.attempts))
    ensures CheckProject(ReadState(t).value, run.project).Ok?
  {
    hide MakePlan, CurrentDigest;
    PlanExactly(g, t.applied);
  }

  lemma OwnedIsSole(w: World, run: Run)
    requires Registered(w) && TablesOf(w, run.schema).meta.Some? && TablesOf(w, run.schema).meta.value.project == run.project
    ensures OwnershipHolds(w.schemas, run.schema, run.project)
  {
    hide Sound;
    forall s | s in Registries(w.schemas) ensures s == run.schema && w.schemas[s].meta.value.project == run.project {
      assert TablesOf(w, s).meta.Some?;
    }
  }

  /** What stands when a run dies between recording an attempt and recording what became of it. */
  lemma AttemptAtCrash(w: World, r: RunId)
    requires Inv(w) && r in w.runs && (w.runs[r].pc.Sending? || w.runs[r].pc.Waiting? || w.runs[r].pc.Finishing?)
    ensures var run, t, id := w.runs[r], TablesOf(w, w.runs[r].schema), w.runs[r].pc.id;
      && Owned(t, run) && run.job.DeployJob? && Admitted(run) && id in run.graph.migrations
      && StructuralDigest(run.graph.migrations[id]).Some? && run.graph.migrations[id].manifest.id == id
      && OwnAttempt(t, r, run.graph.migrations[id], StructuralDigest(run.graph.migrations[id]).value)
      && AttemptsReady(t) && t.attempts.Keys == {id} && MakePlan(run.graph, t.applied).Ok?
    ensures Holds(w.locks, Deployment(w.runs[r].project), r) && Registered(w)
  {
    hide Inv, Common, SoleClaim, MatchesLog, SoundLog, RowsClosed, RowsCoherent, AuditKeyed, Formatted, Deployable, AllUntouched,
      MakePlan, WasSent, Landed, Untouched;
    var run := w.runs[r];
    Here(w, r);
    CommonAdmits(TablesOf(w, run.schema), r, run);
    IdOfItself(run.graph, run.pc.id);
    assert Registered(w) by { InvIsRegistered(w); }
  }

  lemma InvIsRegistered(w: World)
    requires Inv(w)
    ensures Registered(w)
  {
    hide View, LocksAccounted, Registered, SoleClaim, Tracked;
  }

  lemma Crashes(w: World, r: RunId) returns (next: World)
    requires Inv(w) && r in w.runs && w.runs[r].pc != Ended
    ensures Inv(next) && Next(w, Crash(r)) == Some(next)
    ensures next == Put(w, r, w.runs[r].(pc := Ended)).(locks := WithoutLocksOf(w.locks, r))
  {
    hide Inv, Survives, VerifyCommands, Transact, Body, RunPrivately, ReadState, OwnershipHolds, CheckProject, UpgradeWrites,
      MayClaim, Decision, WithoutLocksOf;
    next := Put(w, r, w.runs[r].(pc := Ended)).(locks := WithoutLocksOf(w.locks, r));
    NextKeeps(w, Crash(r), next);
  }

  lemma Starts(w: World, r: RunId, run: Run) returns (next: World)
    requires Inv(w) && Unused(w, r) && run.pc == Opened && run.sequence == 0 && Admitted(run)
    ensures Inv(next) && Next(w, Start(r, run)) == Some(next) && next == Put(w, r, run)
  {
    hide Inv, Unused, Admitted;
    next := Put(w, r, run);
    NextKeeps(w, Start(r, run), next);
  }

  /** A run of the same checkout and configuration, about to begin. */
  function Fresh(run: Run, job: Job): Run {
    Run(run.project, run.schema, run.graph, job, Opened, 0)
  }

  lemma CrashFrees(w: World, r: RunId)
    requires r in w.runs && Holds(w.locks, Deployment(w.runs[r].project), r) && Ownership !in w.locks
    ensures Deployment(w.runs[r].project) !in WithoutLocksOf(w.locks, r) && Ownership !in WithoutLocksOf(w.locks, r)
  {
  }

  lemma UnusedStays(w: World, next: World, q: RunId)
    requires Unused(w, q) && next.schemas == w.schemas && next.runs.Keys == w.runs.Keys
    ensures Unused(next, q)
  {
  }

  /** A database in which `r` has died leaving the attempt of `id` behind. */
  ghost predicate Interrupted(w: World, r: RunId, id: Id) {
    && Inv(w) && r in w.runs && Deployment(w.runs[r].project) !in w.locks && Ownership !in w.locks
    && (var run, t := w.runs[r], TablesOf(w, w.runs[r].schema);
        && Owned(t, run) && run.job.DeployJob? && Admitted(run) && id in run.graph.migrations
        && StructuralDigest(run.graph.migrations[id]).Some? && run.graph.migrations[id].manifest.id == id
        && OwnAttempt(t, r, run.graph.migrations[id], StructuralDigest(run.graph.migrations[id]).value)
        && AttemptsReady(t) && t.attempts.Keys == {id} && MakePlan(run.graph, t.applied).Ok?)
  }

  /** A database of `r`'s project with nothing unresolved and a history that passes the check. */
  ghost predicate Settled(w: World, r: RunId) {
    && Inv(w) && r in w.runs && Deployment(w.runs[r].project) !in w.locks && Ownership !in w.locks
    && (var run, t := w.runs[r], TablesOf(w, w.runs[r].schema);
        Owned(t, run) && run.job.DeployJob? && Admitted(run) && t.attempts == map[] && MakePlan(run.graph, t.applied).Ok?)
  }

  lemma ResolvesAttempt(w: World, r: RunId, resolver: RunId, again: RunId, id: Id, applied: bool) returns (later: World)
    requires Interrupted(w, r, id) && Unused(w, resolver) && Unused(w, again) && resolver != again
    ensures Settled(later, r) && Unused(later, again) && Leads(w, later)
    ensures SameRun(later.runs[r], w.runs[r])
  {
    hide Inv, Leads, Trace, Next, MakePlan, Unused, Admitted, StructuralDigest, ReadState, CheckProject, OwnershipHolds, Resolved, AttemptsReady;
    var was, t := w.runs[r], TablesOf(w, w.runs[r].schema);
    var m := was.graph.migrations[id];
    var run := Fresh(was, ResolveJob(id, applied));
    FreshIsAdmitted(was, ResolveJob(id, applied));
    var started := Starts(w, resolver, run);
    assert t.attempts[id].algorithm == STRUCTURAL_V1;
    PlannedIsReadable(was.graph, t, run);
    assert OwnershipHolds(w.schemas, run.schema, run.project) by { InvIsRegistered(w); OwnedIsSole(w, run); }
    var state := ReadState(t).value;
    later := ResolveCompletes(started, resolver, state);
    assert Upgraded(t, was.project) == t;
    ResolvedIsSettled(t, was, resolver, id, m, StructuralDigest(m).value, r, applied);
    StrangerStays(w, later, run.schema, resolver, again);
    LeadsAfter(w, Start(resolver, run), started, later);
    NotUnused(w, r, resolver);
  }

  /** Dying with an attempt on record. */
  lemma LeavesInterrupted(w: World, r: RunId) returns (next: World)
    requires Inv(w) && r in w.runs && (w.runs[r].pc.Sending? || w.runs[r].pc.Waiting? || w.runs[r].pc.Finishing?)
    requires Ownership !in w.locks
    ensures Next(w, Crash(r)) == Some(next) && Interrupted(next, r, w.runs[r].pc.id)
    ensures next.schemas == w.schemas && next.runs.Keys == w.runs.Keys && SameRun(next.runs[r], w.runs[r])
  {
    hide Inv, Next, MakePlan, Admitted, StructuralDigest, AttemptsReady, WithoutLocksOf;
    AttemptAtCrash(w, r);
    next := Crashes(w, r);
    CrashFrees(w, r);
    StillAdmitted(w.runs[r], Ended);
  }

  lemma StillAdmitted(run: Run, pc: Pc)
    requires Admitted(run)
    ensures Admitted(run.(pc := pc))
  {
    hide Graphs.Valid, DeployPasses;
  }

  lemma NotUnused(w: World, r: RunId, q: RunId)
    requires r in w.runs && Unused(w, q)
    ensures r != q
  {
  }

  lemma FreshIsAdmitted(run: Run, job: Job)
    requires Admitted(run) && run.job.DeployJob? && !job.RehashJob?
    ensures Admitted(Fresh(run, job))
  {
    hide Graphs.Valid, DeployPasses;
  }

  lemma ResolvedIsSettled(t: Tables, run: Run, author: RunId, id: Id, m: Migration, digest: Digest, r: RunId, applied: bool)
    requires Owned(t, run) && OwnAttempt(t, r, m, digest) && m.manifest.id == id && AttemptsReady(t) && t.attempts.Keys == {id}
    requires id in run.graph.migrations && run.graph.migrations[id] == m && MakePlan(run.graph, t.applied).Ok?
    ensures var after := Resolved(t, author, 1, id, t.attempts[id], applied);
      && Owned(after, run) && after.attempts == map[] && MakePlan(run.graph, after.applied).Ok?
      && after.audit == t.audit
      && (forall e | e in after.log :: e in t.log || RunOf(e) == author)
  {
    hide MakePlan, AttemptsReady;
    PlanAfterResolve(run.graph, t, r, author, 1, m, digest, applied);
  }

  lemma StrangerStays(w: World, later: World, s: Schema, author: RunId, q: RunId)
    requires Unused(w, q) && q != author && later.runs.Keys == w.runs.Keys + {author}
    requires later.schemas == w.schemas[s := TablesOf(later, s)]
    requires TablesOf(later, s).audit == TablesOf(w, s).audit
    requires forall e | e in TablesOf(later, s).log :: e in TablesOf(w, s).log || RunOf(e) == author
    ensures Unused(later, q)
  {
  }

  lemma DeploysAgain(w: World, r: RunId, again: RunId) returns (later: World)
    requires Settled(w, r) && Unused(w, again)
    requires forall id | id in w.runs[r].graph.migrations :: Runnable(w.runs[r].graph.migrations[id])
    ensures Leads(w, later)
    ensures w.runs[r].graph.migrations.Keys <= TablesOf(later, w.runs[r].schema).applied.Keys
  {
    hide Inv, Leads, Trace, Next, MakePlan, Unused, Admitted, Runnable, ReadState, CheckProject, OwnershipHolds;
    var was, t := w.runs[r], TablesOf(w, w.runs[r].schema);
    var run := Fresh(was, DeployJob);
    FreshIsAdmitted(was, DeployJob);
    var started := Starts(w, again, run);
    PlannedIsReadable(was.graph, t, run);
    assert OwnershipHolds(w.schemas, run.schema, run.project) by { InvIsRegistered(w); OwnedIsSole(w, run); }
    later := DeployRuns(started, again);
    LeadsAfter(w, Start(again, run), started, later);
  }

  /** A crash in the middle of a nontransactional deploy, the operator's account of it, and a new deploy
      of the same project can leave every migration applied, whichever account it was. */
  lemma CrashedAttemptRecovers(w: World, r: RunId, resolver: RunId, again: RunId, applied: bool) returns (later: World)
    requires Reachable(w) && r in w.runs && (w.runs[r].pc.Sending? || w.runs[r].pc.Waiting? || w.runs[r].pc.Finishing?)
    requires Unused(w, resolver) && Unused(w, again) && resolver != again && Ownership !in w.locks
    requires forall id | id in w.runs[r].graph.migrations :: Runnable(w.runs[r].graph.migrations[id])
    ensures Leads(w, later)
    ensures w.runs[r].graph.migrations.Keys <= TablesOf(later, w.runs[r].schema).applied.Keys
  {
    hide Inv, Reachable, Leads, Trace, Next, Runnable, MakePlan, Unused, Interrupted, Settled, TablesOf;
    ReachableIsSafe(w);
    var crashed := LeavesInterrupted(w, r);
    UnusedStays(w, crashed, resolver);
    UnusedStays(w, crashed, again);
    var resolved := ResolvesAttempt(crashed, r, resolver, again, w.runs[r].pc.id, applied);
    later := DeploysAgain(resolved, r, again);
    LeadsOn(crashed, resolved, later);
    LeadsAfter(w, Crash(r), crashed, later);
  }

  /** Dying between two migrations, with nothing on record that has not been accounted for. */
  lemma LeavesSettled(w: World, r: RunId) returns (next: World)
    requires Inv(w) && r in w.runs && (w.runs[r].pc.Deploying? || w.runs[r].pc.Verifying?) && Ownership !in w.locks
    ensures Next(w, Crash(r)) == Some(next) && Settled(next, r)
    ensures next.schemas == w.schemas && next.runs.Keys == w.runs.Keys && SameRun(next.runs[r], w.runs[r])
  {
    hide Inv, Common, Sound, SoleClaim, Next, MakePlan, Admitted, Deployable, AllUntouched, WithoutLocksOf;
    Here(w, r);
    CommonAdmits(TablesOf(w, w.runs[r].schema), r, w.runs[r]);
    next := Crashes(w, r);
    CrashFrees(w, r);
    StillAdmitted(w.runs[r], Ended);
  }

  /** A crash between two migrations, or in the middle of a transactional one, asks for nothing but a
      new deploy. */
  lemma CrashedDeployRecovers(w: World, r: RunId, again: RunId) returns (later: World)
    requires Reachable(w) && r in w.runs && (w.runs[r].pc.Deploying? || w.runs[r].pc.Verifying?)
    requires Unused(w, again) && Ownership !in w.locks
    requires forall id | id in w.runs[r].graph.migrations :: Runnable(w.runs[r].graph.migrations[id])
    ensures Leads(w, later)
    ensures w.runs[r].graph.migrations.Keys <= TablesOf(later, w.runs[r].schema).applied.Keys
  {
    hide Inv, Reachable, Leads, Trace, Next, Runnable, Unused, Settled, TablesOf;
    ReachableIsSafe(w);
    var crashed := LeavesSettled(w, r);
    UnusedStays(w, crashed, again);
    later := DeploysAgain(crashed, r, again);
    LeadsAfter(w, Crash(r), crashed, later);
  }

  // ----- Rehashing -----

  /** A rehash that nothing hinders, whose plan validates and changes something, runs to its end: every
      row moves, in one transaction, and the lock is given back. */
  lemma RehashCanCommit(w: World, r: RunId, state: RegistryState, plan: seq<RehashEntry>) returns (ready: World, later: World)
    requires Inv(w) && r in w.runs && w.runs[r].pc == Opened && w.runs[r].job.RehashJob? && Unhindered(w, w.runs[r])
    requires ReadState(TablesOf(w, w.runs[r].schema)) == Ok(state)
    requires Planned(w.runs[r].graph, state, w.runs[r].job.acceptCurrent, plan) && !IsEmpty(plan)
    ensures Leads(w, ready) && r in ready.runs && ready.runs[r].pc == Rehashing(state, plan)
    ensures Inv(later) && Leads(ready, later) && later.locks == w.locks && AllComplete(plan)
    ensures var run, t := w.runs[r], TablesOf(w, w.runs[r].schema);
      && later.runs == w.runs[r := run.(pc := Ended)]
      && TablesOf(later, run.schema) == Rehashed(t, run.project, plan, r, run.job.reason)
      && AllMoved(run.graph, t.applied, TablesOf(later, run.schema).applied)
  {
    hide Inv, Leads, Trace, Next, ReadState, CheckProject, OwnershipHolds, Rehashed, RunPrivately, AllMoved, Planned, IsEmpty, Body;
    var run := w.runs[r];
    var a := Prepares(w, r, state);
    ready := RehashDecides(a, r, state, plan);
    LeadsOn(w, a, ready);
    RehashingCommits(ready, r);
    later := CommitsAndEnds(ready, r);
  }

  lemma RehashDecides(w: World, r: RunId, state: RegistryState, plan: seq<RehashEntry>) returns (later: World)
    requires Inv(w) && r in w.runs && w.runs[r].pc == Refreshed(state) && w.runs[r].job.RehashJob?
    requires Planned(w.runs[r].graph, state, w.runs[r].job.acceptCurrent, plan) && !IsEmpty(plan)
    ensures Inv(later) && Leads(w, later) && later == Put(w, r, w.runs[r].(pc := Rehashing(state, plan)))
  {
    hide Inv, Leads, MakeRehashPlan, Validate, IsEmpty;
    later := Decides(w, r);
  }

  lemma RehashingCommits(w: World, r: RunId)
    requires Inv(w) && r in w.runs && w.runs[r].pc.Rehashing? && w.runs[r].job.RehashJob?
    ensures AllComplete(w.runs[r].pc.plan)
    ensures var run, t := w.runs[r], TablesOf(w, w.runs[r].schema);
      && Body(r, run).Some?
      && RunPrivately(t, Body(r, run).value) == Some(Rehashed(t, run.project, run.pc.plan, r, run.job.reason))
      && AllMoved(run.graph, t.applied, Rehashed(t, run.project, run.pc.plan, r, run.job.reason).applied)
  {
    hide Inv, Common, SoleClaim, LocksAccounted, Sound, MakeRehashPlan, Validate, ReadState, CheckProject, Fits, RunPrivately, Transact,
      RehashWrites, UpgradeWrites, Rehashed, AllMoved;
    var run, t := w.runs[r], TablesOf(w, w.runs[r].schema);
    Here(w, r);
    CommonMeans(t, r, run);
    PlannedMoves(run.graph, run.pc.state, run.job.acceptCurrent, run.pc.plan);
    DoAllRuns(t, UpgradeWrites(run.pc.state, run.project) + RehashWrites(run.pc.plan, r, run.job.reason));
    assert Rehashable(t, run.pc.state, run.project);
    assert AuditFree(t.audit, r, t.applied.Keys);
    RehashMeaning(t, run.pc.state, run.project, run.graph, run.job.acceptCurrent, run.pc.plan, r, run.job.reason);
  }
}
