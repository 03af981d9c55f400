/** Each transaction a run can make takes a sound registry to a sound registry, and leaves the run
    knowing what its next step relies on. */
module ProtocolSteps {
  import opened Collections
  import opened DependencyOrder
  import opened DependencyCycles
  import opened Migrations
  import opened Lint
  import opened Graphs
  import opened History
  import opened Ledger
  import opened Registry
  import opened Rehash
  import opened Transactions
  import opened Protocol
  import opened ProtocolInvariant

  function After(run: Run, pc: Pc): Run {
    run.(sequence := run.sequence + Events(run), pc := pc)
  }

  /** What every committed transaction leaves, whatever its kind. */
  ghost predicate Kept(t: Tables, r: RunId, run: Run, after: Tables) {
    && Sound(after) && Grows(t, after, r) && Owned(after, run)
    && Free(after, r, run.sequence + Events(run) + 1)
    && (after.audit == t.audit || run.pc.Rehashing?)
  }

  /** The tables are ones a committed transaction may leave, whether or not the run hears of it. */
  ghost predicate Commits(t: Tables, r: RunId, run: Run, after: Tables) {
    && Kept(t, r, run, after)
    && View(after, r, After(run, AfterCommit(run)))
    && View(after, r, After(run, AfterFailure(run)))
  }

  /** The script holds a statement PostgreSQL does not run inside a transaction. */
  predicate ScriptRefused(run: Run) {
    match run.pc
    case Deploying(_) =>
      && At(run).Some? && At(run).value.manifest.transaction == Required && At(run).value.deploy.parsed.Some?
      && !AllOrdinary(At(run).value.deploy.parsed.value.statements)
    case Reverting(_) =>
      && At(run).Some? && At(run).value.revert.Some? && At(run).value.revert.value.parsed.Some?
      && !AllOrdinary(At(run).value.revert.value.parsed.value.statements)
    case _ => false
  }

  /** Everything a transaction can come to. The registry's own constraints never refuse it. */
  ghost predicate Outcome(t: Tables, r: RunId, run: Run, body: seq<Command>) {
    && (forall c | c in body :: Private(c))
    && (RunPrivately(t, body).None? ==> ScriptRefused(run))
    && (RunPrivately(t, body).Some? ==> Commits(t, r, run, RunPrivately(t, body).value))
  }

  lemma CommonAfter(t: Tables, r: RunId, run: Run, after: Tables, pc: Pc)
    requires Common(t, r, run) && Transacts(run.pc) && Kept(t, r, run, after)
    requires !Early(pc) && (run.pc.Rehashing? ==> pc == Ending)
    ensures Common(after, r, After(run, pc))
  {
    hide Sound;
  }

  lemma CommonMeans(t: Tables, r: RunId, run: Run)
    requires Common(t, r, run)
    ensures Linked(run.graph) && Free(t, r, run.sequence + 1)
    ensures run.pc.Rehashing? ==> forall a | a in t.audit :: a.run != r
  {
    hide DeployPasses;
  }

  lemma KnowsAfterFailure(t: Tables, r: RunId, run: Run, after: Tables)
    requires Kept(t, r, run, after)
    ensures Knows(after, r, After(run, AfterFailure(run)))
    ensures !Early(AfterFailure(run)) && (run.pc.Rehashing? ==> AfterFailure(run) == Ending)
  {
    hide Sound, Snapshot, Attempting, Proceeding, Rehashes, Current, CanRevert, Undoable, CanBaseline, Covers, Resolvable;
  }

  /** What is left to say once the tables are known to be sound. */
  lemma Concludes(t: Tables, r: RunId, run: Run, body: seq<Command>, after: Tables)
    requires forall c | c in body :: Private(c)
    requires RunPrivately(t, body) == if ScriptRefused(run) then None else Some(after)
    requires Common(t, r, run) && Transacts(run.pc) && Kept(t, r, run, after)
    requires Knows(after, r, After(run, AfterCommit(run)))
    ensures Outcome(t, r, run, body)
  {
    hide Knows, Common, Kept;
    KnowsAfterFailure(t, r, run, after);
    CommonAfter(t, r, run, after, AfterCommit(run));
    CommonAfter(t, r, run, after, AfterFailure(run));
  }

  lemma KnowsVerifying(t: Tables, r: RunId, run: Run, id: Id, rest: seq<Id>, k: nat)
    requires Proceeding(t, r, run, rest) && id in run.graph.migrations
    ensures Knows(t, r, run.(sequence := run.sequence + k, pc := Verifying(id, rest)))
  {
    hide Snapshot, Attempting, Rehashes, Current, CanRevert, Undoable, CanBaseline, Covers, Resolvable;
  }

  lemma KnowsEnding(t: Tables, r: RunId, run: Run, k: nat)
    ensures Knows(t, r, run.(sequence := run.sequence + k, pc := Ending))
  {
    hide Snapshot, Attempting, Proceeding, Rehashes, Current, CanRevert, Undoable, CanBaseline, Covers, Resolvable;
  }

  lemma KnowsSending(t: Tables, r: RunId, run: Run, id: Id, rest: seq<Id>, k: nat)
    requires Attempting(t, r, run, id, rest) && Untouched(t.log, r, id)
    ensures Knows(t, r, run.(sequence := run.sequence + k, pc := Sending(id, rest)))
  {
    hide Snapshot, Proceeding, Rehashes, Current, CanRevert, Undoable, CanBaseline, Covers, Resolvable;
  }

  // ----- Deploying -----

  lemma DeployableFirst(g: Graph, applied: set<Id>, pending: seq<Id>)
    requires Linked(g) && Deployable(g, applied, pending) && pending != []
    ensures pending[0] in g.migrations && pending[0] !in applied && g.migrations[pending[0]].manifest.id == pending[0]
    ensures forall x | x in g.migrations[pending[0]].manifest.depends :: x in applied
    ensures Deployable(g, applied + {pending[0]}, pending[1..]) && pending[0] !in pending[1..]
  {
    ContinuesTail(DependsOf(g.migrations), applied, pending);
    assert pending[..0] == [];
  }

  /** Recording a migration of the checkout on top of what it needs leaves a history that passes. */
  lemma PassesOn(g: Graph, applied: AppliedRows, r: RunId, m: Migration, digest: Digest)
    requires Passes(g, applied) && m.manifest.id in g.migrations && g.migrations[m.manifest.id] == m
    requires StructuralDigest(m) == Some(digest) && forall x | x in m.manifest.depends :: x in applied
    ensures Passes(g, applied[m.manifest.id := RowFor(m, digest, r)])
  {
    hide MakePlan;
    PlanExactly(g, applied);
    PlanExactly(g, applied[m.manifest.id := RowFor(m, digest, r)]);
  }

  lemma EffectsGrow(t: Tables, effects: seq<Effect>, r: RunId)
    requires forall f | f in effects :: f.run == r && f.role != Standalone
    ensures forall e | e in AsDone(effects) :: e.Done? && e.effect in effects
    ensures Grows(t, WithEffects(t, effects), r)
  {
    if effects != [] {
      EffectsGrow(t, effects[..|effects| - 1], r);
    }
  }

  lemma DeployedGrows(t: Tables, r: RunId, n: nat, m: Migration, digest: Digest)
    ensures Grows(t, Deployed(t, r, n, m, digest), r)
  {
    EffectsGrow(t, ScriptEffects(r, m.manifest.id, DeployScript, Some(m.deploy)), r);
  }

  lemma RevertedGrows(t: Tables, r: RunId, n: nat, id: Id, script: Script)
    ensures Grows(t, Reverted(t, r, n, id, script), r)
  {
    EffectsGrow(t, ScriptEffects(r, id, RevertScript, Some(script)), r);
  }

  /** Nothing this run may still send was touched by its own transaction. */
  lemma UntouchedByDeploy(t: Tables, r: RunId, n: nat, m: Migration, digest: Digest, ids: seq<Id>)
    requires AllUntouched(t.log, r, ids)
    ensures AllUntouched(Deployed(t, r, n, m, digest).log, r, ids)
  {
    EffectsGrow(t, ScriptEffects(r, m.manifest.id, DeployScript, Some(m.deploy)), r);
  }

  /** One transactional deploy, among the run's other knowledge. */
  lemma TransactionalStep(t: Tables, r: RunId, run: Run, pending: seq<Id>, n: nat, m: Migration, digest: Digest)
    requires Sound(t) && Linked(run.graph) && Proceeding(t, r, run, pending) && Free(t, r, n) && pending != []
    requires pending[0] in run.graph.migrations && run.graph.migrations[pending[0]] == m
    requires StructuralDigest(m) == Some(digest) && m.manifest.transaction == Required
    ensures m.manifest.id !in t.applied
    ensures Sound(Deployed(t, r, n, m, digest)) && Free(Deployed(t, r, n, m, digest), r, n + 1)
    ensures Grows(t, Deployed(t, r, n, m, digest), r) && Deployed(t, r, n, m, digest).audit == t.audit
    ensures Owned(Deployed(t, r, n, m, digest), run)
    ensures Proceeding(Deployed(t, r, n, m, digest), r, run, pending[1..])
  {
    hide Sound, Untouched, Deployable, Grows, Linked, Below, Passes, StructuralDigest;
    var after := Deployed(t, r, n, m, digest);
    DeployableFirst(run.graph, t.applied.Keys, pending);
    DeployKeepsSound(t, r, n, m, digest);
    DeployedGrows(t, r, n, m, digest);
    PassesOn(run.graph, t.applied, r, m, digest);
    UntouchedByDeploy(t, r, n, m, digest, pending[1..]);
    assert after.applied.Keys == t.applied.Keys + {pending[0]};
  }

  lemma TransactionalCommits(t: Tables, r: RunId, run: Run, m: Migration, digest: Digest)
    requires Sound(t) && Common(t, r, run) && run.pc.Deploying? && run.pc.pending != []
    requires Proceeding(t, r, run, run.pc.pending)
    requires At(run) == Some(m) && StructuralDigest(m) == Some(digest) && m.manifest.transaction == Required
    requires EnsureRunnerOwnsTransaction(m.deploy).Ok?
    ensures Outcome(t, r, run, DeployBody(r, run.sequence + 1, m, digest, m.deploy.parsed.value.statements))
  {
    hide Sound, Knows, Common, View, Outcome, Commits, Proceeding, Attempting, Grows, Rehashes, CanRevert, Undoable,
      CanBaseline, Covers, Resolvable, Below, Linked, Free;
    CommonMeans(t, r, run);
    var n, pending := run.sequence + 1, run.pc.pending;
    var after := Deployed(t, r, n, m, digest);
    TransactionalStep(t, r, run, pending, n, m, digest);
    DeployBodyRuns(t, r, n, m, digest);
    KnowsVerifying(after, r, run, pending[0], pending[1..], 1);
    Concludes(t, r, run, DeployBody(r, n, m, digest, m.deploy.parsed.value.statements), after);
  }

  lemma AttemptBegins(t: Tables, r: RunId, run: Run, pending: seq<Id>, n: nat, m: Migration, digest: Digest)
    requires Linked(run.graph) && Proceeding(t, r, run, pending) && pending != []
    requires pending[0] in run.graph.migrations && run.graph.migrations[pending[0]] == m
    requires StructuralDigest(m) == Some(digest) && m.manifest.transaction == Forbidden
    ensures CanApply(t, m, digest) && m.manifest.id == pending[0]
    ensures Attempting(WithAttempt(t, r, n, m, digest), r, run, pending[0], pending[1..])
    ensures Untouched(WithAttempt(t, r, n, m, digest).log, r, pending[0])
  {
    hide Linked, Deployable, Passes, StructuralDigest;
    DeployableFirst(run.graph, t.applied.Keys, pending);
    assert pending[0] in pending && forall x | x in pending[1..] :: x in pending;
  }

  lemma AttemptStep(t: Tables, r: RunId, run: Run, pending: seq<Id>, n: nat, m: Migration, digest: Digest)
    requires Sound(t) && Linked(run.graph) && Proceeding(t, r, run, pending) && Free(t, r, n) && pending != []
    requires pending[0] in run.graph.migrations && run.graph.migrations[pending[0]] == m
    requires StructuralDigest(m) == Some(digest) && m.manifest.transaction == Forbidden
    ensures Transact(t, AttemptWrites(r, n, m, digest)) == Some(WithAttempt(t, r, n, m, digest))
    ensures Sound(WithAttempt(t, r, n, m, digest)) && Free(WithAttempt(t, r, n, m, digest), r, n + 1)
    ensures Grows(t, WithAttempt(t, r, n, m, digest), r)
    ensures WithAttempt(t, r, n, m, digest).audit == t.audit
    ensures Attempting(WithAttempt(t, r, n, m, digest), r, run, pending[0], pending[1..])
    ensures Untouched(WithAttempt(t, r, n, m, digest).log, r, pending[0])
    ensures Owned(WithAttempt(t, r, n, m, digest), run)
  {
    hide Sound, Linked, Deployable, Attempting, Untouched, Below, CanApply, AllUntouched;
    AttemptBegins(t, r, run, pending, n, m, digest);
    AttemptKeepsSound(t, r, n, m, digest);
  }

  lemma AttemptCommits(t: Tables, r: RunId, run: Run, m: Migration, digest: Digest)
    requires Sound(t) && Common(t, r, run) && run.pc.Deploying? && run.pc.pending != []
    requires Proceeding(t, r, run, run.pc.pending)
    requires At(run) == Some(m) && StructuralDigest(m) == Some(digest) && m.manifest.transaction == Forbidden
    ensures Outcome(t, r, run, DoAll(AttemptWrites(r, run.sequence + 1, m, digest)))
  {
    hide Sound, Knows, Common, View, Outcome, Commits, Proceeding, Attempting, Grows, Rehashes, CanRevert, Undoable,
      CanBaseline, Covers, Resolvable, Below, Linked, Free;
    CommonMeans(t, r, run);
    var n, pending := run.sequence + 1, run.pc.pending;
    var after := WithAttempt(t, r, n, m, digest);
    DoAllRuns(t, AttemptWrites(r, n, m, digest));
    AttemptStep(t, r, run, pending, n, m, digest);
    KnowsSending(after, r, run, pending[0], pending[1..], 1);
    Concludes(t, r, run, DoAll(AttemptWrites(r, n, m, digest)), after);
  }

  lemma AttemptingMeans(t: Tables, r: RunId, run: Run, id: Id, rest: seq<Id>, m: Migration, digest: Digest)
    requires Attempting(t, r, run, id, rest) && run.graph.migrations[id] == m && StructuralDigest(m) == Some(digest)
    ensures OwnAttempt(t, r, m, digest) && Owned(t, run)
  {
    hide OwnAttempt, Deployable, AllUntouched;
  }

  lemma FinishProceeds(t: Tables, r: RunId, run: Run, id: Id, rest: seq<Id>, n: nat, m: Migration, digest: Digest)
    requires Attempting(t, r, run, id, rest) && m.manifest.id == id && t.attempts - {id} == map[]
    requires run.graph.migrations[id] == m && StructuralDigest(m) == Some(digest) && forall x | x in m.manifest.depends :: x in t.applied
    ensures Proceeding(Finished(t, r, n, m, digest), r, run, rest)
  {
    hide Deployable, OwnAttempt, Passes, StructuralDigest;
    PassesOn(run.graph, t.applied, r, m, digest);
    assert Finished(t, r, n, m, digest).applied.Keys == t.applied.Keys + {id};
  }

  lemma AttemptIsReady(t: Tables, r: RunId, m: Migration, digest: Digest)
    requires Sound(t) && OwnAttempt(t, r, m, digest)
    ensures forall x | x in m.manifest.depends :: x in t.applied
  {
    hide MatchesLog, SoundLog, StructuralDigest;
  }

  lemma FinishedGrows(t: Tables, r: RunId, n: nat, m: Migration, digest: Digest)
    ensures Grows(t, Finished(t, r, n, m, digest), r) && Finished(t, r, n, m, digest).audit == t.audit
  {
  }

  lemma AttemptingIsNamed(t: Tables, r: RunId, run: Run, id: Id, rest: seq<Id>)
    requires Linked(run.graph) && Attempting(t, r, run, id, rest)
    ensures run.graph.migrations[id].manifest.id == id
  {
    hide OwnAttempt, Deployable, AllUntouched, Passes;
  }

  lemma FinishStep(t: Tables, r: RunId, run: Run, id: Id, rest: seq<Id>, n: nat, m: Migration, digest: Digest)
    requires Sound(t) && Linked(run.graph) && Attempting(t, r, run, id, rest) && Landed(t.log, r, id) && Free(t, r, n)
    requires run.graph.migrations[id] == m && StructuralDigest(m) == Some(digest)
    ensures Transact(t, FinishWrites(r, n, m, digest)) == Some(Finished(t, r, n, m, digest))
    ensures Sound(Finished(t, r, n, m, digest)) && Free(Finished(t, r, n, m, digest), r, n + 1)
    ensures Grows(t, Finished(t, r, n, m, digest), r) && Finished(t, r, n, m, digest).audit == t.audit
    ensures Proceeding(Finished(t, r, n, m, digest), r, run, rest)
  {
    hide Sound, Linked, Below, Landed, Attempting, Proceeding, Untouched, OwnAttempt, Grows, StructuralDigest, Transact;
    AttemptingIsNamed(t, r, run, id, rest);
    AttemptingMeans(t, r, run, id, rest, m, digest);
    FinishedGrows(t, r, n, m, digest);
    FinishKeepsSound(t, r, n, m, digest);
    AttemptIsReady(t, r, m, digest);
    FinishProceeds(t, r, run, id, rest, n, m, digest);
  }

  lemma FinishCommits(t: Tables, r: RunId, run: Run, m: Migration, digest: Digest)
    requires Sound(t) && Common(t, r, run) && run.pc.Finishing?
    requires Attempting(t, r, run, run.pc.id, run.pc.rest) && Landed(t.log, r, run.pc.id)
    requires At(run) == Some(m) && StructuralDigest(m) == Some(digest)
    ensures Outcome(t, r, run, DoAll(FinishWrites(r, run.sequence + 1, m, digest)))
  {
    hide Sound, Knows, Common, View, Outcome, Commits, Proceeding, Grows, Rehashes, CanRevert, Undoable, CanBaseline, Covers,
      Resolvable, Below, Linked, Free;
    CommonMeans(t, r, run);
    var n := run.sequence + 1;
    var after := Finished(t, r, n, m, digest);
    DoAllRuns(t, FinishWrites(r, n, m, digest));
    FinishStep(t, r, run, run.pc.id, run.pc.rest, n, m, digest);
    KnowsVerifying(after, r, run, run.pc.id, run.pc.rest, 1);
    Concludes(t, r, run, DoAll(FinishWrites(r, n, m, digest)), after);
  }

  lemma RevertStep(t: Tables, r: RunId, n: nat, id: Id, script: Script)
    requires Sound(t) && CanRevert(t, id) && Free(t, r, n)
    ensures Sound(Reverted(t, r, n, id, script)) && Free(Reverted(t, r, n, id, script), r, n + 1)
    ensures Grows(t, Reverted(t, r, n, id, script), r)
    ensures Reverted(t, r, n, id, script).meta == t.meta && Reverted(t, r, n, id, script).audit == t.audit
  {
    RevertKeepsSound(t, r, n, id, script);
    RevertedGrows(t, r, n, id, script);
  }

  lemma RevertCommits(t: Tables, r: RunId, run: Run, script: Script)
    requires Sound(t) && Common(t, r, run) && run.pc.Reverting? && Owned(t, run) && CanRevert(t, run.pc.id)
    requires At(run).Some? && At(run).value.revert == Some(script) && EnsureRunnerOwnsTransaction(script).Ok?
    ensures Outcome(t, r, run, RevertBody(r, run.sequence + 1, run.pc.id, script, script.parsed.value.statements))
  {
    hide Sound, Knows, Common, View, Outcome, Commits, Proceeding, Attempting, Grows, Rehashes, CanRevert, Undoable,
      CanBaseline, Covers, Resolvable, Below, Linked, Free;
    CommonMeans(t, r, run);
    var n := run.sequence + 1;
    var after := Reverted(t, r, n, run.pc.id, script);
    RevertBodyRuns(t, r, n, run.pc.id, script);
    RevertStep(t, r, n, run.pc.id, script);
    KnowsEnding(after, r, run, Events(run));
    Concludes(t, r, run, RevertBody(r, n, run.pc.id, script, script.parsed.value.statements), after);
  }

  lemma ResolveStep(t: Tables, r: RunId, n: nat, id: Id, a: AttemptRow, applied: bool)
    requires Sound(t) && Resolvable(t, id, a) && Free(t, r, n)
    ensures Transact(t, ResolveWrites(r, n, id, a, applied)) == Some(Resolved(t, r, n, id, a, applied))
    ensures Sound(Resolved(t, r, n, id, a, applied)) && Free(Resolved(t, r, n, id, a, applied), r, n + 1)
    ensures Grows(t, Resolved(t, r, n, id, a, applied), r)
    ensures Resolved(t, r, n, id, a, applied).meta == t.meta && Resolved(t, r, n, id, a, applied).audit == t.audit
  {
    ResolveKeepsSound(t, r, n, id, a, applied);
  }

  lemma ResolveCommits(t: Tables, r: RunId, run: Run, id: Id, a: AttemptRow, applied: bool)
    requires Sound(t) && Common(t, r, run) && run.pc == Resolving(id, a, applied) && Owned(t, run) && Resolvable(t, id, a)
    ensures Outcome(t, r, run, DoAll(ResolveWrites(r, run.sequence + 1, id, a, applied)))
  {
    hide Sound, Knows, Common, View, Outcome, Commits, Proceeding, Attempting, Grows, Rehashes, CanRevert, Undoable,
      CanBaseline, Covers, Resolvable, Below, Linked, Free;
    CommonMeans(t, r, run);
    var n := run.sequence + 1;
    DoAllRuns(t, ResolveWrites(r, n, id, a, applied));
    ResolveStep(t, r, n, id, a, applied);
    KnowsEnding(Resolved(t, r, n, id, a, applied), r, run, Events(run));
    Concludes(t, r, run, DoAll(ResolveWrites(r, n, id, a, applied)), Resolved(t, r, n, id, a, applied));
  }

  // ----- Baselining -----

  lemma {:induction false} BaselineGrows(t: Tables, r: RunId, n: nat, ms: seq<Source>)
    requires Transact(t, BaselineWrites(r, n, ms)).Some?
    ensures Grows(t, Transact(t, BaselineWrites(r, n, ms)).value, r)
    ensures Transact(t, BaselineWrites(r, n, ms)).value.audit == t.audit
    decreases |ms|
  {
    if ms != [] {
      var m := ms[0].migration;
      var row := InsertApplied(m.manifest.id, RowFor(m, ms[0].digest, r));
      var ev := InsertEvent(EventRow(r, n, m.manifest.id, Baseline, Succeeded, m.manifest.transaction, None));
      TransactConcat(t, [row, ev], BaselineWrites(r, n + 1, ms[1..]));
      TwoWrites(t, row, ev);
      var next := Transact(t, [row, ev]).value;
      BaselineGrows(next, r, n + 1, ms[1..]);
      assert Grows(t, next, r);
    }
  }

  lemma BaselineStep(t: Tables, r: RunId, n: nat, ms: seq<Source>)
    requires Sound(t) && t.meta.Some? && t.attempts == map[] && CanBaseline(t.applied.Keys, ms) && Free(t, r, n)
    ensures var after := Transact(t, BaselineWrites(r, n, ms));
      && after.Some? && Sound(after.value) && Free(after.value, r, n + |ms|)
      && Grows(t, after.value, r) && after.value.meta == t.meta && after.value.audit == t.audit
  {
    BaselineKeepsSound(t, r, n, ms);
    BaselineGrows(t, r, n, ms);
  }

  lemma BaselineCommits(t: Tables, r: RunId, run: Run, sources: seq<Source>)
    requires Sound(t) && Common(t, r, run) && run.pc == Baselining(sources) && Owned(t, run)
    requires t.attempts == map[] && CanBaseline(t.applied.Keys, sources)
    ensures Outcome(t, r, run, DoAll(BaselineWrites(r, run.sequence + 1, sources)))
  {
    hide Sound, Knows, Common, View, Outcome, Commits, Proceeding, Attempting, Grows, Rehashes, CanRevert, Undoable,
      CanBaseline, Covers, Resolvable, Below, Linked, Free;
    CommonMeans(t, r, run);
    var n := run.sequence + 1;
    DoAllRuns(t, BaselineWrites(r, n, sources));
    BaselineStep(t, r, n, sources);
    KnowsEnding(Transact(t, BaselineWrites(r, n, sources)).value, r, run, Events(run));
    Concludes(t, r, run, DoAll(BaselineWrites(r, n, sources)), Transact(t, BaselineWrites(r, n, sources)).value);
  }

  // ----- Rehashing -----

  lemma {:induction false} AuditByRun(plan: seq<RehashEntry>, r: RunId, reason: Option<string>)
    requires AllComplete(plan)
    ensures forall a | a in AuditRows(plan, r, reason) :: a.run == r
  {
    if plan != [] {
      AuditByRun(plan[1..], r, reason);
    }
  }

  lemma RehashStep(t: Tables, r: RunId, run: Run, state: RegistryState, plan: seq<RehashEntry>)
    requires Sound(t) && Linked(run.graph) && Rehashes(t, run, state, plan) && forall a | a in t.audit :: a.run != r
    requires AllComplete(plan)
    ensures var after := Rehashed(t, run.project, plan, r, run.job.reason);
      && Transact(t, UpgradeWrites(state, run.project) + RehashWrites(plan, r, run.job.reason)) == Some(after)
      && Sound(after) && Grows(t, after, r) && after.log == t.log && Owned(after, run)
  {
    RehashMeaning(t, state, run.project, run.graph, run.job.acceptCurrent, plan, r, run.job.reason);
    AuditByRun(plan, r, run.job.reason);
  }

  lemma RehashCommits(t: Tables, r: RunId, run: Run, state: RegistryState, plan: seq<RehashEntry>)
    requires Sound(t) && Common(t, r, run) && run.pc == Rehashing(state, plan) && Rehashes(t, run, state, plan)
    requires AllComplete(plan)
    ensures run.job.RehashJob?
    ensures Outcome(t, r, run, DoAll(UpgradeWrites(state, run.project) + RehashWrites(plan, r, run.job.reason)))
  {
    hide Sound, Knows, Common, View, Outcome, Commits, Proceeding, Attempting, Grows, Planned, CanRevert, Undoable, CanBaseline, Covers,
      Resolvable, Linked;
    CommonMeans(t, r, run);
    var writes := UpgradeWrites(state, run.project) + RehashWrites(plan, r, run.job.reason);
    DoAllRuns(t, writes);
    RehashStep(t, r, run, state, plan);
    KnowsEnding(Rehashed(t, run.project, plan, r, run.job.reason), r, run, Events(run));
    Concludes(t, r, run, DoAll(writes), Rehashed(t, run.project, plan, r, run.job.reason));
  }

  // ----- Any transaction -----

  /** Whatever a run commits, the registry stays sound and the run stays right about it. */
  lemma BodyCommits(t: Tables, r: RunId, run: Run)
    requires Sound(t) && Common(t, r, run) && Knows(t, r, run) && Transacts(run.pc) && Body(r, run).Some?
    ensures Outcome(t, r, run, Body(r, run).value)
  {
    hide Sound, Common, Outcome, Snapshot, Attempting, Proceeding, Current, CanRevert, Undoable, CanBaseline, Covers, Resolvable;
    match run.pc
    case Deploying(_) =>
      var m := At(run).value;
      if m.manifest.transaction == Required {
        TransactionalCommits(t, r, run, m, StructuralDigest(m).value);
      } else {
        AttemptCommits(t, r, run, m, StructuralDigest(m).value);
      }
    case Finishing(_, _) => FinishCommits(t, r, run, At(run).value, StructuralDigest(At(run).value).value);
    case Reverting(_) => RevertCommits(t, r, run, At(run).value.revert.value);
    case Baselining(sources) => BaselineCommits(t, r, run, sources);
    case Resolving(id, a, applied) => ResolveCommits(t, r, run, id, a, applied);
    case Rehashing(state, plan) => RehashCommits(t, r, run, state, plan);
  }

  /** A transaction that did not commit leaves the run able to go on. */
  lemma FailureIsHarmless(t: Tables, r: RunId, run: Run, burned: nat)
    requires Sound(t) && View(t, r, run) && Transacts(run.pc)
    ensures View(t, r, run.(sequence := run.sequence + burned, pc := AfterFailure(run)))
    ensures t.meta.Some? && t.meta.value.project == run.project
  {
    hide Sound, CanRevert, Undoable, CanBaseline, Covers, Snapshot, Resolvable, Planned, ReasonFits, OwnAttempt, Deployable, Untouched, Passes,
      AllUntouched, StructuralDigest, Graphs.Valid, DeployPasses;
  }
}
