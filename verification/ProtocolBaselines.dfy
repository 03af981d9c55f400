/** What a baseline records: everything its target needs, each migration once, and nothing else. */
module ProtocolBaselines {
  import opened Collections
  import opened DependencyOrder
  import opened Migrations
  import opened Lint
  import opened Graphs
  import opened History
  import opened Edits
  import opened Ledger
  import opened Registry
  import opened Transactions
  import opened Protocol
  import opened ProtocolInvariant
  import opened ProtocolSteps
  import opened ProtocolDecisions
  import opened ProtocolSafety
  import opened ProtocolTheorems
  import opened ProtocolLiveness
  import opened ProtocolRecovery

  /** `x` is needed by `id`, which needs itself. */
  ghost predicate Needs(g: Graph, id: Id, x: Id) {
    x in g.migrations && Reaches(DependsOf(g.migrations), id, x)
  }

  // ----- The transaction, row by row and event by event -----

  function BaselineEvent(e: Source, r: RunId, n: nat): Entry {
    Logged(EventRow(r, n, e.migration.manifest.id, Baseline, Succeeded, e.migration.manifest.transaction, None))
  }

  function BaselineEvents(ms: seq<Source>, r: RunId, n: nat): Log
    decreases |ms|
  {
    if ms == [] then [] else [BaselineEvent(ms[0], r, n)] + BaselineEvents(ms[1..], r, n + 1)
  }

  predicate BaselineLeaves(t: Tables, after: Tables, r: RunId, n: nat, ms: seq<Source>) {
    && after.meta == t.meta && after.attempts == t.attempts && after.audit == t.audit
    && after.log == t.log + BaselineEvents(ms, r, n)
    && after.applied.Keys == t.applied.Keys + BaselineIds(ms)
    && (forall id | id in t.applied :: after.applied[id] == t.applied[id])
    && (forall e | e in ms :: after.applied[e.migration.manifest.id] == RowFor(e.migration, e.digest, r))
  }

  lemma BaselineLeavesNext(t: Tables, after: Tables, r: RunId, n: nat, ms: seq<Source>)
    requires ms != [] && ms[0].migration.manifest.id !in t.applied
    requires BaselineLeaves(Baselined(t, r, n, ms[0].migration, ms[0].digest), after, r, n + 1, ms[1..])
    ensures BaselineLeaves(t, after, r, n, ms)
  {
    hide RowFor;
    var next := Baselined(t, r, n, ms[0].migration, ms[0].digest);
    var id := ms[0].migration.manifest.id;
    assert ms == [ms[0]] + ms[1..];
    assert next.applied.Keys == t.applied.Keys + {id} && id in next.applied && next.applied[id] == RowFor(ms[0].migration, ms[0].digest, r);
    assert next.log == t.log + [BaselineEvent(ms[0], r, n)];
    SnocCons(t.log, BaselineEvent(ms[0], r, n), BaselineEvents(ms[1..], r, n + 1));
    BaselineIdsCons(t.applied.Keys, ms);
    forall e | e in ms ensures after.applied[e.migration.manifest.id] == RowFor(e.migration, e.digest, r) {
      assert e == ms[0] || e in ms[1..];
    }
  }

  lemma {:induction false} BaselineTransacts(t: Tables, r: RunId, n: nat, ms: seq<Source>)
    requires Free(t, r, n) && CanBaseline(t.applied.Keys, ms)
    ensures Transact(t, BaselineWrites(r, n, ms)).Some?
    ensures BaselineLeaves(t, Transact(t, BaselineWrites(r, n, ms)).value, r, n, ms)
    decreases |ms|
  {
    hide BaselineLeaves;
    if ms == [] {
      NothingRecorded(t, r, n);
    } else {
      var next := Baselined(t, r, n, ms[0].migration, ms[0].digest);
      Registry.BaselineStep(t, r, n, ms);
      assert next.applied.Keys == t.applied.Keys + {ms[0].migration.manifest.id};
      BaselineTransacts(next, r, n + 1, ms[1..]);
      BaselineLeavesNext(t, Transact(t, BaselineWrites(r, n, ms)).value, r, n, ms);
    }
  }

  lemma NothingRecorded(t: Tables, r: RunId, n: nat)
    ensures Transact(t, BaselineWrites(r, n, [])) == Some(t) && BaselineLeaves(t, t, r, n, [])
  {
    assert t.applied.Keys + BaselineIds([]) == t.applied.Keys;
  }

  /** One success event of run `r` for each of `ids`, and nothing else. */
  predicate OneEventEach(added: Log, r: RunId, ids: set<Id>) {
    && (forall k | 0 <= k < |added| ::
          && added[k].Logged? && added[k].event.run == r && added[k].event.migration in ids
          && added[k].event.action == Baseline && added[k].event.outcome == Succeeded)
    && (forall i, j :: 0 <= i < j < |added| ==> added[i].event.migration != added[j].event.migration)
    && (forall x | x in ids :: exists k :: 0 <= k < |added| && added[k].event.migration == x)
  }

  lemma {:induction false} BaselineEventsAt(ms: seq<Source>, r: RunId, n: nat)
    ensures |BaselineEvents(ms, r, n)| == |ms|
    ensures forall k | 0 <= k < |ms| :: BaselineEvents(ms, r, n)[k] == BaselineEvent(ms[k], r, n + k)
    decreases |ms|
  {
    if ms != [] {
      BaselineEventsAt(ms[1..], r, n + 1);
    }
  }

  lemma {:induction false} BaselinedOnce(applied: set<Id>, ms: seq<Source>)
    requires CanBaseline(applied, ms)
    ensures forall i, j :: 0 <= i < j < |ms| ==> ms[i].migration.manifest.id != ms[j].migration.manifest.id
    ensures forall k | 0 <= k < |ms| :: ms[k].migration.manifest.id !in applied
    decreases |ms|
  {
    if ms != [] {
      var rest := ms[1..];
      BaselinedOnce(applied + {ms[0].migration.manifest.id}, rest);
      assert forall k | 0 < k < |ms| :: ms[k] == rest[k - 1];
    }
  }

  lemma EventsAreOneEach(applied: set<Id>, ms: seq<Source>, r: RunId, n: nat)
    requires CanBaseline(applied, ms)
    ensures OneEventEach(BaselineEvents(ms, r, n), r, BaselineIds(ms))
  {
    BaselineEventsAt(ms, r, n);
    BaselinedOnce(applied, ms);
    var added := BaselineEvents(ms, r, n);
    assert forall k | 0 <= k < |ms| :: ms[k] in ms && ms[k].migration.manifest.id in BaselineIds(ms);
    forall x | x in BaselineIds(ms) ensures exists k :: 0 <= k < |added| && added[k].event.migration == x {
      var e :| e in ms && e.migration.manifest.id == x;
      var k :| 0 <= k < |ms| && ms[k] == e;
      assert added[k].event.migration == x;
    }
  }

  // ----- What runs are at -----

  /** Whoever is about to record a baseline records the closure of its target, less what is applied. */
  lemma BaselinersCover(w: World, r: RunId)
    requires Reachable(w) && r in w.runs && w.runs[r].pc.Baselining?
    ensures w.runs[r].job.BaselineJob?
    ensures var run := w.runs[r];
      && (forall e | e in run.pc.sources ::
            var x := e.migration.manifest.id;
            x in run.graph.migrations && run.graph.migrations[x] == e.migration)
      && (forall x :: (exists e :: e in run.pc.sources && e.migration.manifest.id == x) <==>
            Needs(run.graph, run.job.id, x) && x !in TablesOf(w, run.schema).applied)
  {
    hide Inv, Reachable, Common, SoleClaim, Sound, LocksAccounted, CanBaseline, Reaches;
    ReachableIsSafe(w);
    Here(w, r);
    var sources := w.runs[r].pc.sources;
    forall x ensures (exists e :: e in sources && e.migration.manifest.id == x) <==> x in BaselineIds(sources) {
    }
  }

  // ----- From the start to the end -----

  /** Everything the target needs that is not applied yet can be hashed. */
  ghost predicate CanRecord(g: Graph, rows: AppliedRows, id: Id) {
    forall x | Needs(g, id, x) && x !in rows :: g.migrations[x].deploy.parsed.Some?
  }

  /** What a baseline of `id` leaves: the rows there were, one from the checkout for everything `id` needs
      that had none, and one event for each of those. */
  ghost predicate Baselines(g: Graph, t: Tables, after: Tables, r: RunId, id: Id) {
    && (forall x :: x in after.applied <==> x in t.applied || Needs(g, id, x))
    && (forall x | x in t.applied :: after.applied[x] == t.applied[x])
    && (forall x | Needs(g, id, x) && x !in t.applied :: x in after.applied && Records(g.migrations[x], STRUCTURAL_V1, r, after.applied[x]))
    && after.attempts == t.attempts && after.audit == t.audit
    && t.log <= after.log && OneEventEach(after.log[|t.log|..], r, after.applied.Keys - t.applied.Keys)
  }

  lemma LeavesIsBaseline(g: Graph, job: Job, t: Tables, after: Tables, r: RunId, n: nat, sources: seq<Source>)
    requires job.BaselineJob? && Covers(g, job, t.applied.Keys, sources) && CanBaseline(t.applied.Keys, sources)
    requires BaselineLeaves(t, after, r, n, sources)
    ensures Baselines(g, t, after, r, job.id)
  {
    hide Reaches, RowFor, OneEventEach, CanBaseline;
    EventsAreOneEach(t.applied.Keys, sources, r, n);
    assert after.log[|t.log|..] == BaselineEvents(sources, r, n);
    assert after.applied.Keys - t.applied.Keys == BaselineIds(sources);
    forall x | Needs(g, job.id, x) && x !in t.applied
      ensures x in after.applied && Records(g.migrations[x], STRUCTURAL_V1, r, after.applied[x])
    {
      assert x in BaselineIds(sources);
      var e :| e in sources && e.migration.manifest.id == x;
      SourceRecords(t.applied.Keys, sources, e, r);
    }
  }

  lemma {:induction false} SourceRecords(applied: set<Id>, ms: seq<Source>, e: Source, r: RunId)
    requires CanBaseline(applied, ms) && e in ms
    ensures Records(e.migration, STRUCTURAL_V1, r, RowFor(e.migration, e.digest, r))
    decreases |ms|
  {
    if e != ms[0] {
      SourceRecords(applied + {ms[0].migration.manifest.id}, ms[1..], e, r);
    }
  }

  lemma NothingIsBaseline(g: Graph, t: Tables, after: Tables, r: RunId, id: Id)
    requires forall x | Needs(g, id, x) :: x in t.applied
    requires after == t.(meta := after.meta)
    ensures Baselines(g, t, after, r, id)
  {
    hide Needs;
    assert after.log[|t.log|..] == [];
    assert after.applied.Keys - t.applied.Keys == {};
  }

  lemma {:induction false} SourcesExist(g: Graph, ids: seq<Id>)
    requires forall x | x in ids :: x in g.migrations && StructuralDigest(g.migrations[x]).Some?
    ensures Sources(g, ids).Some?
  {
    if ids != [] {
      SourcesExist(g, ids[1..]);
    }
  }

  /** What a run that has claimed the database decides. */
  lemma BaselineDecides(run: Run, state: RegistryState, id: Id)
    requires Graphs.Valid(run.graph) && run.pc == Claimed(state) && run.job == BaselineJob(id) && id in run.graph.migrations
    requires state.unresolved == map[] && MakePlan(run.graph, state.applied).Ok? && CanRecord(run.graph, state.applied, id)
    ensures Decision(run) == Ending || Decision(run).Baselining?
    ensures Decision(run) == Ending ==> forall x | Needs(run.graph, id, x) :: x in state.applied
  {
    hide Graphs.Valid, MakePlan, BaselineSelection, Reaches, Sources, StructuralDigest;
    var ids := BaselineSelection(run.graph, state, id);
    SelectionIsNeeded(run.graph, state, id);
    forall x | x in ids ensures x in run.graph.migrations && StructuralDigest(run.graph.migrations[x]).Some? {
      ParsedHashes(run.graph.migrations[x]);
    }
    SourcesExist(run.graph, ids);
    if ids != [] {
      assert RequireNotBlocked(state).Ok?;
    } else {
      assert forall x | Needs(run.graph, id, x) && x !in state.applied :: x in ids;
    }
  }

  lemma ParsedHashes(m: Migration)
    requires m.deploy.parsed.Some?
    ensures StructuralDigest(m).Some?
  {
  }

  lemma CoversForBaseline(g: Graph, job: Job, applied: set<Id>, sources: seq<Source>)
    requires Covers(g, job, applied, sources)
    ensures job.BaselineJob?
  {
    hide Reaches;
  }

  lemma BaseliningRuns(w: World, r: RunId)
    requires Inv(w) && r in w.runs && w.runs[r].pc.Baselining?
    ensures var run, t := w.runs[r], TablesOf(w, w.runs[r].schema);
      && Body(r, run).Some? && RunPrivately(t, Body(r, run).value).Some? && run.job.BaselineJob?
      && Baselines(run.graph, t, RunPrivately(t, Body(r, run).value).value, r, run.job.id)
      && RunPrivately(t, Body(r, run).value).value.meta == t.meta
  {
    hide Inv, Common, SoleClaim, LocksAccounted, Sound, RunPrivately, Transact, CanBaseline, Covers, Baselines, Below;
    var run, t := w.runs[r], TablesOf(w, w.runs[r].schema);
    Here(w, r);
    CommonMeans(t, r, run);
    CoversForBaseline(run.graph, run.job, t.applied.Keys, run.pc.sources);
    DoAllRuns(t, BaselineWrites(r, run.sequence + 1, run.pc.sources));
    BaselineTransacts(t, r, run.sequence + 1, run.pc.sources);
    LeavesIsBaseline(run.graph, run.job, t, Transact(t, BaselineWrites(r, run.sequence + 1, run.pc.sources)).value, r, run.sequence + 1,
      run.pc.sources);
  }

  /** The other schemas, runs and flights, and both locks, are as they were, and the run has ended. */
  ghost predicate EndsAlone(w: World, later: World, r: RunId)
    requires r in w.runs
  {
    && r in later.runs && later.runs[r].pc == Ended && later.runs == w.runs[r := later.runs[r]]
    && SameRun(w.runs[r], later.runs[r])
    && later.locks == w.locks && later.inFlight == w.inFlight
    && forall s: Schema | s != w.runs[r].schema :: TablesOf(later, s) == TablesOf(w, s)
  }

  /** A run that has claimed, about to decide on a baseline it can record. */
  ghost predicate AboutToBaseline(w: World, r: RunId, id: Id) {
    && Inv(w) && r in w.runs && w.runs[r].pc.Claimed? && w.runs[r].job == BaselineJob(id) && !Holds(w.locks, Ownership, r)
    && (var run, t := w.runs[r], TablesOf(w, w.runs[r].schema);
        && id in run.graph.migrations && t.attempts == map[] && MakePlan(run.graph, t.applied).Ok? && CanRecord(run.graph, t.applied, id))
  }

  lemma ClaimedIsCurrent(w: World, r: RunId)
    requires Inv(w) && r in w.runs && w.runs[r].pc.Claimed?
    ensures Current(TablesOf(w, w.runs[r].schema), w.runs[r], w.runs[r].pc.state) && Graphs.Valid(w.runs[r].graph)
  {
    hide Inv, Common, SoleClaim, LocksAccounted, Sound, Graphs.Valid, DeployPasses;
    Here(w, r);
    CommonAdmits(TablesOf(w, w.runs[r].schema), r, w.runs[r]);
  }

  lemma BaselinesClaimed(w: World, r: RunId, id: Id) returns (later: World)
    requires AboutToBaseline(w, r, id)
    ensures Leads(w, later) && r in later.runs
    ensures EndsAlone(w.(locks := w.locks - {Deployment(w.runs[r].project)}), later, r)
    ensures var run, t, after := w.runs[r], TablesOf(w, w.runs[r].schema), TablesOf(later, w.runs[r].schema);
      Baselines(run.graph, t, after, r, id) && after.meta == t.meta
  {
    hide Inv, Leads, Trace, Next, Body, RunPrivately, MakePlan, Graphs.Valid, CanRecord, Baselines, Needs, Decision, Events;
    var run, t := w.runs[r], TablesOf(w, w.runs[r].schema);
    ClaimedIsCurrent(w, r);
    BaselineDecides(run, run.pc.state, id);
    var decided := Decides(w, r);
    if Decision(run) == Ending {
      NothingIsBaseline(run.graph, t, t, r, id);
      later := LetsGo(decided, r);
    } else {
      BaseliningRuns(decided, r);
      BaseliningEnds(decided.runs[r]);
      later := CommitsAndEnds(decided, r);
    }
    LeadsOn(w, decided, later);
  }

  lemma BaseliningEnds(run: Run)
    requires run.pc.Baselining?
    ensures Transacts(run.pc) && AfterCommit(run) == Ending && !ScriptRefused(run)
  {
  }

  lemma BaselinesFromUpgrade(g: Graph, t: Tables, project: ProjectId, after: Tables, r: RunId, id: Id)
    requires Baselines(g, Upgraded(t, project), after, r, id)
    ensures Baselines(g, t, after, r, id)
  {
    hide Needs, OneEventEach, Records;
  }

  lemma BaselineIsAdmitted(w: World, r: RunId, state: RegistryState)
    requires Inv(w) && r in w.runs && w.runs[r].job.BaselineJob? && ReadState(TablesOf(w, w.runs[r].schema)) == Ok(state)
    requires TablesOf(w, w.runs[r].schema).attempts == map[]
    ensures MayClaim(w.runs[r].job, w.runs[r].graph, state)
  {
    hide Inv, Common, Knows, SoleClaim, LocksAccounted, Sound, ReadState;
    Here(w, r);
    ReadStateIsExact(TablesOf(w, w.runs[r].schema));
  }

  /** A baseline that nothing hinders runs to its end: what is applied afterwards is what was, with its
      rows, and everything the target reaches through dependencies, recorded from the checkout, with one
      success event for each migration that is new. */
  lemma BaselineCompletes(w: World, r: RunId, id: Id) returns (later: World)
    requires Reachable(w) && r in w.runs && w.runs[r].pc == Opened && w.runs[r].job == BaselineJob(id) && Unhindered(w, w.runs[r])
    requires var run, t := w.runs[r], TablesOf(w, w.runs[r].schema);
      && id in run.graph.migrations && t.attempts == map[] && MakePlan(run.graph, t.applied).Ok?
      && CanRecord(run.graph, t.applied, id)
    ensures Leads(w, later) && EndsAlone(w, later, r)
    ensures var run := w.runs[r];
      Baselines(run.graph, TablesOf(w, run.schema), TablesOf(later, run.schema), r, id) && Owned(TablesOf(later, run.schema), run)
  {
    hide Inv, Reachable, Leads, ReadState, CheckProject, OwnershipHolds, MakePlan, Baselines, CanRecord, MayClaim;
    ReachableIsSafe(w);
    var run, t := w.runs[r], TablesOf(w, w.runs[r].schema);
    var state := ReadState(t).value;
    BaselineIsAdmitted(w, r, state);
    var claimed := ReachesClaim(w, r, state);
    later := BaselinesClaimed(claimed, r, id);
    LeadsOn(w, claimed, later);
    BaselinesFromUpgrade(run.graph, t, run.project, TablesOf(later, run.schema), r, id);
  }
}
