/** Databases an earlier release recorded: their formats, their comparison policy, and the rehash that
    brings them to the current one. */
module ProtocolLegacy {
  import opened Collections
  import opened DependencyOrder
  import opened Migrations
  import opened Lint
  import opened Graphs
  import opened History
  import opened Ledger
  import opened Registry
  import opened Rehash
  import opened Protocol
  import opened ProtocolInvariant
  import opened ProtocolSteps
  import opened ProtocolTheorems
  import opened ProtocolPromises
  import opened ProtocolLiveness
  import opened ProtocolRecovery

  // ----- What an earlier release would have recorded -----

  /** The row as it would have been recorded under the exact-bytes policy. */
  function AsRaw(row: AppliedRow): AppliedRow {
    row.(definition := RawV1(row.definition.id, row.mode, Elements(row.depends), row.deploy), algorithm := RAW_V1)
  }

  function AsRawAttempt(a: AttemptRow): AttemptRow {
    a.(definition := RawV1(a.definition.id, Forbidden, Elements(a.depends), a.deploy), algorithm := RAW_V1)
  }

  /** The same history, recorded in an earlier format. */
  function Legacy(t: Tables, version: int): Tables {
    Tables(
      if t.meta.None? then None else Some(t.meta.value.(version := version)),
      map id | id in t.applied :: AsRaw(t.applied[id]),
      map id | id in t.attempts :: AsRawAttempt(t.attempts[id]),
      t.log,
      [])
  }

  /** The formats before the current one. The first had nowhere to keep an attempt. */
  predicate HeldBy(t: Tables, version: int) {
    t.meta.Some? && (version == 2 || (version == 1 && t.attempts == map[]))
  }

  /** Every history the current release can leave is also a sound one in the earlier formats. */
  lemma LegacyIsSound(t: Tables, version: int)
    requires Sound(t) && HeldBy(t, version)
    ensures Sound(Legacy(t, version))
  {
    hide SoundLog;
    var older := Legacy(t, version);
    assert AttemptRuns(older) == AttemptRuns(t);
    assert older.applied.Keys == t.applied.Keys;
  }

  /** A database at rest, as an earlier release would have left it. */
  function LegacyWorld(start: World, s: Schema, version: int): World {
    start.(schemas := start.schemas[s := Legacy(TablesOf(start, s), version)])
  }

  lemma LegacyIsFounded(start: World, s: Schema, version: int)
    requires Founded(start) && HeldBy(TablesOf(start, s), version)
    ensures Founded(LegacyWorld(start, s, version))
  {
    hide Sound;
    var w := LegacyWorld(start, s, version);
    LegacyIsSound(TablesOf(start, s), version);
    assert forall x: Schema | x != s :: TablesOf(w, x) == TablesOf(start, x);
    assert TablesOf(w, s) == Legacy(TablesOf(start, s), version);
    forall x: Schema ensures Sound(TablesOf(w, x)) {
      assert Sound(TablesOf(start, x));
    }
    assert forall x: Schema | TablesOf(w, x).meta.Some? :: TablesOf(start, x).meta.Some?;
  }

  // ----- Rehashing it -----

  /** Every row was recorded from the source at hand, which still passes lint. */
  predicate RecordedFrom(g: Graph, rows: AppliedRows) {
    forall id | id in rows ::
      && id in g.migrations && g.migrations[id].manifest.id == id && DeployPasses(g.migrations[id])
      && StructuralDigest(g.migrations[id]).Some?
      && rows[id] == RowFor(g.migrations[id], StructuralDigest(g.migrations[id]).value, rows[id].run)
  }

  lemma RawRowVerifies(g: Graph, state: RegistryState, rows: AppliedRows, id: Id, acceptCurrent: bool)
    requires id in rows && id in state.applied && RecordedFrom(g, rows) && state.applied[id] == AsRaw(rows[id])
    requires forall x | x in rows[id].depends :: x in state.applied
    ensures Classify(g, state, id, state.applied[id], acceptCurrent).error.None?
    ensures Classify(g, state, id, state.applied[id], acceptCurrent).disposition == Verified
  {
    hide DeployPasses;
    assert RAW_V1 != STRUCTURAL_V1;
  }

  lemma LegacyPlan(g: Graph, state: RegistryState, rows: AppliedRows, acceptCurrent: bool) returns (plan: seq<RehashEntry>)
    requires RecordedFrom(g, rows) && rows != map[] && state.format.Some? && state.unresolved == map[]
    requires state.applied.Keys == rows.Keys && forall id | id in rows :: state.applied[id] == AsRaw(rows[id])
    requires forall id | id in rows :: forall x | x in rows[id].depends :: x in rows
    ensures Planned(g, state, acceptCurrent, plan) && !IsEmpty(plan)
  {
    hide RecordedFrom, Classify, AsRaw;
    var ids := Ascending(state.applied.Keys);
    plan := Entries(g, state, ids, acceptCurrent);
    forall k | 0 <= k < |plan| ensures plan[k].error.None? && plan[k].disposition == Verified {
      assert ids[k] in ids;
      RawRowVerifies(g, state, rows, ids[k], acceptCurrent);
    }
    var id :| id in rows;
    assert id in ids;
    assert plan[0] in plan;
  }

  lemma LegacyReads(t: Tables, version: int)
    requires HeldBy(t, version)
    ensures ReadState(Legacy(t, version)) ==
            Ok(RegistryState(Some(version), Some(t.meta.value.project), Legacy(t, version).applied, Legacy(t, version).attempts))
  {
  }

  lemma MovedBack(g: Graph, rows: AppliedRows, was: AppliedRows, now: AppliedRows)
    requires RecordedFrom(g, rows) && was.Keys == rows.Keys && forall id | id in rows :: was[id] == AsRaw(rows[id])
    requires AllMoved(g, was, now)
    ensures now == rows
  {
    hide DeployPasses, StructuralDigest;
    forall id | id in rows ensures now[id] == rows[id] {
      assert HasMoved(g, id, was[id], now[id]);
    }
  }

  lemma StillUnused(start: World, s: Schema, version: int, r: RunId)
    requires Unused(start, r)
    ensures Unused(LegacyWorld(start, s, version), r)
  {
  }

  lemma FoundedLeads(start: World, later: World)
    requires Founded(start) && Leads(start, later)
    ensures Reachable(later)
  {
    hide Founded, Trace;
    var moves: seq<Move> :| Trace(start, moves) == Some(later);
    assert Founded(start) && Trace(start, moves) == Some(later);
  }

  /** A rehash has just been started on a database of an earlier release. */
  ghost predicate AboutToRehash(w: World, r: RunId, t: Tables, version: int) {
    && Inv(w) && w.locks == map[] && r in w.runs && w.runs[r].pc == Opened && w.runs[r].job.RehashJob?
    && TablesOf(w, w.runs[r].schema) == Legacy(t, version)
    && HeldBy(t, version) && t.attempts == map[] && t.meta.value.project == w.runs[r].project
    && t.applied != map[] && RecordedFrom(w.runs[r].graph, t.applied) && RowsClosed(t)
  }

  lemma LegacyStarts(start: World, s: Schema, version: int, r: RunId, run: Run) returns (begun: World)
    requires Founded(start) && HeldBy(TablesOf(start, s), version) && TablesOf(start, s).attempts == map[]
    requires TablesOf(start, s).applied != map[] && RecordedFrom(run.graph, TablesOf(start, s).applied)
    requires run.pc == Opened && run.sequence == 0 && Admitted(run) && run.job.RehashJob?
    requires run.schema == s && run.project == TablesOf(start, s).meta.value.project && Unused(start, r)
    ensures AboutToRehash(begun, r, TablesOf(start, s), version) && begun.runs == map[r := run]
    ensures Founded(LegacyWorld(start, s, version)) && Leads(LegacyWorld(start, s, version), begun)
  {
    hide Founded, Inv, Leads, Trace, Next, Admitted, Unused, Legacy, RecordedFrom, Sound, RowsClosed;
    var w := LegacyWorld(start, s, version);
    LegacyIsFounded(start, s, version);
    FoundedIsSafe(w);
    FoundedIsIdle(w);
    FoundedIsClosed(start, s);
    StillUnused(start, s, version, r);
    begun := Starts(w, r, run);
    LeadsAtOnce(begun);
    LeadsAfter(w, Start(r, run), begun, begun);
  }

  lemma FoundedIsClosed(start: World, s: Schema)
    requires Founded(start)
    ensures RowsClosed(TablesOf(start, s))
  {
    assert Sound(TablesOf(start, s));
  }

  lemma LegacyIsPlanned(g: Graph, t: Tables, version: int, acceptCurrent: bool) returns (state: RegistryState, plan: seq<RehashEntry>)
    requires HeldBy(t, version) && t.attempts == map[] && t.applied != map[] && RecordedFrom(g, t.applied) && RowsClosed(t)
    ensures ReadState(Legacy(t, version)) == Ok(state) && state.project == Some(t.meta.value.project)
    ensures Planned(g, state, acceptCurrent, plan) && !IsEmpty(plan)
  {
    hide RecordedFrom, AsRaw, Planned, IsEmpty, ReadState;
    LegacyReads(t, version);
    state := ReadState(Legacy(t, version)).value;
    plan := LegacyPlan(g, state, t.applied, acceptCurrent);
  }

  /** What a rehash leaves of an earlier release's tables. */
  lemma RehashedBack(g: Graph, t: Tables, version: int, now: Tables, project: ProjectId, plan: seq<RehashEntry>, r: RunId,
      reason: Option<string>)
    requires HeldBy(t, version) && RecordedFrom(g, t.applied) && AllComplete(plan)
    requires now == Rehashed(Legacy(t, version), project, plan, r, reason) && AllMoved(g, Legacy(t, version).applied, now.applied)
    ensures now.applied == t.applied && now.meta == Some(Meta(project, REGISTRY_FORMAT_VERSION)) && now.log == t.log
  {
    hide RecordedFrom, AsRaw, AllMoved, AllComplete, MovedRows, AuditRows;
    assert Legacy(t, version).applied.Keys == t.applied.Keys;
    MovedBack(g, t.applied, Legacy(t, version).applied, now.applied);
  }

  lemma LegacyCommits(w: World, r: RunId, t: Tables, version: int) returns (ready: World, later: World)
    requires AboutToRehash(w, r, t, version)
    ensures Leads(w, ready) && r in ready.runs && ready.runs[r].pc.Rehashing?
    ensures Leads(ready, later) && later.runs == w.runs[r := w.runs[r].(pc := Ended)] && later.locks == map[]
    ensures var now := TablesOf(later, w.runs[r].schema);
      now.applied == t.applied && Owned(now, w.runs[r]) && now.log == t.log
  {
    hide Inv, Leads, Legacy, HeldBy, RecordedFrom, RowsClosed, ReadState, Planned, IsEmpty, OwnershipHolds, AllMoved, AllComplete, Rehashed;
    var run := w.runs[r];
    var state, plan := LegacyIsPlanned(run.graph, t, version, run.job.acceptCurrent);
    assert OwnershipHolds(w.schemas, run.schema, run.project) by {
      InvIsRegistered(w);
      LegacyMeta(t, version);
      OwnedIsSole(w, run);
    }
    ready, later := RehashCanCommit(w, r, state, plan);
    RehashedBack(run.graph, t, version, TablesOf(later, run.schema), run.project, plan, r, run.job.reason);
  }

  lemma LegacyMeta(t: Tables, version: int)
    requires HeldBy(t, version)
    ensures Legacy(t, version).meta.Some? && Legacy(t, version).meta.value.project == t.meta.value.project
  {
  }

  /** A rehash of a registry in an earlier format, recorded from this checkout, gets to its transaction
      and commits it; and the rows it leaves are exactly those the current release would have recorded
      in the first place. */
  lemma LegacyRehashes(start: World, s: Schema, version: int, r: RunId, run: Run) returns (ready: World, later: World)
    requires Founded(start) && HeldBy(TablesOf(start, s), version) && TablesOf(start, s).attempts == map[]
    requires TablesOf(start, s).applied != map[] && RecordedFrom(run.graph, TablesOf(start, s).applied)
    requires run.pc == Opened && run.sequence == 0 && Admitted(run) && run.job.RehashJob?
    requires run.schema == s && run.project == TablesOf(start, s).meta.value.project && Unused(start, r)
    ensures Reachable(ready) && r in ready.runs && ready.runs[r].pc.Rehashing?
    ensures Reachable(later) && r in later.runs && later.runs[r] == run.(pc := Ended) && later.locks == map[]
    ensures TablesOf(later, s).applied == TablesOf(start, s).applied && Owned(TablesOf(later, s), run)
    ensures TablesOf(later, s).log == TablesOf(start, s).log
  {
    hide Founded, Leads, Admitted, Unused, RecordedFrom, Reachable, HeldBy, AboutToRehash;
    var begun := LegacyStarts(start, s, version, r, run);
    assert begun.runs[r].schema == s;
    ready, later := LegacyCommits(begun, r, TablesOf(start, s), version);
    LeadsOn(LegacyWorld(start, s, version), begun, ready);
    LeadsOn(LegacyWorld(start, s, version), ready, later);
    FoundedLeads(LegacyWorld(start, s, version), ready);
    FoundedLeads(LegacyWorld(start, s, version), later);
  }

  // ----- One that exists -----

  function FirstDeploy(project: ProjectId, r: RunId, m: Migration, digest: Digest): Tables {
    Deployed(Upgraded(EMPTY, project), r, 1, m, digest)
  }

  lemma FirstDeployIsSound(project: ProjectId, r: RunId, m: Migration, digest: Digest)
    requires m.manifest.depends == [] && m.manifest.transaction == Required && StructuralDigest(m) == Some(digest)
    ensures Sound(FirstDeploy(project, r, m, digest))
  {
    hide SoundLog, MatchesLog, RowsSound, StructuralDigest;
    EmptyIsSound();
    UpgradeKeepsSound(EMPTY, UNINITIALIZED, project);
    DeployKeepsSound(Upgraded(EMPTY, project), r, 1, m, digest);
  }

  lemma FirstDeployIsFounded(project: ProjectId, r: RunId, m: Migration, digest: Digest, s: Schema)
    requires m.manifest.depends == [] && m.manifest.transaction == Required && StructuralDigest(m) == Some(digest)
    ensures Founded(NOWHERE.(schemas := map[s := FirstDeploy(project, r, m, digest)]))
  {
    hide Sound;
    EmptyIsSound();
    FirstDeployIsSound(project, r, m, digest);
  }

  lemma NobodyElseRan(project: ProjectId, q: RunId, m: Migration, digest: Digest, s: Schema, r: RunId)
    requires q != r
    ensures Unused(NOWHERE.(schemas := map[s := FirstDeploy(project, q, m, digest)]), r)
  {
    EffectsGrow(EMPTY, ScriptEffects(q, m.manifest.id, DeployScript, Some(m.deploy)), q);
  }

  /** Rehashes do happen: a project of one migration, deployed by a release of either earlier format,
      has a history that reaches the rehash transaction. */
  lemma RehashHappens(q: RunId, r: RunId, run: Run, m: Migration, version: int) returns (ready: World)
    requires q != r && (version == 1 || version == 2)
    requires m.manifest.depends == [] && m.manifest.transaction == Required && StructuralDigest(m).Some? && DeployPasses(m)
    requires run.graph.migrations == map[m.manifest.id := m]
    requires run.pc == Opened && run.sequence == 0 && Admitted(run) && run.job.RehashJob?
    ensures Reachable(ready) && r in ready.runs && ready.runs[r].pc.Rehashing?
  {
    hide Reachable, Admitted, Unused, Founded, DeployPasses, StructuralDigest;
    var digest := StructuralDigest(m).value;
    var t := FirstDeploy(run.project, q, m, digest);
    var start := NOWHERE.(schemas := map[run.schema := t]);
    FirstDeployIsFounded(run.project, q, m, digest, run.schema);
    NobodyElseRan(run.project, q, m, digest, run.schema, r);
    assert t.applied == map[m.manifest.id := RowFor(m, digest, q)] && m.manifest.id in t.applied;
    assert t.attempts == map[] && TablesOf(start, run.schema) == t;
    assert RecordedFrom(run.graph, t.applied);
    var later;
    ready, later := LegacyRehashes(start, run.schema, version, r, run);
  }
}
