/** A deploy that nothing interrupts applies everything it planned. */
module ProtocolLiveness {
  import opened Collections
  import opened DependencyOrder
  import opened Migrations
  import opened Lint
  import opened Graphs
  import opened History
  import opened Ledger
  import opened Registry
  import opened Transactions
  import opened Protocol
  import opened ProtocolInvariant
  import opened ProtocolSteps
  import opened ProtocolSafety
  import opened ProtocolWrites
  import opened ProtocolTheorems

  ghost predicate Leads(w: World, later: World) {
    exists moves: seq<Move> :: Trace(w, moves) == Some(later)
  }

  lemma LeadsAtOnce(w: World)
    ensures Leads(w, w)
  {
    assert Trace(w, []) == Some(w);
  }

  lemma LeadsAfter(w: World, move: Move, next: World, later: World)
    requires Next(w, move) == Some(next) && Leads(next, later)
    ensures Leads(w, later)
  {
    hide Next;
    var moves: seq<Move> :| Trace(next, moves) == Some(later);
    assert ([move] + moves)[0] == move && ([move] + moves)[1..] == moves;
    assert Trace(w, [move] + moves) == Some(later);
  }

  /** A script that can run as its mode asks. */
  predicate Runnable(m: Migration) {
    && StructuralDigest(m).Some?
    && (m.manifest.transaction == Required ==>
          EnsureRunnerOwnsTransaction(m.deploy).Ok? && AllOrdinary(m.deploy.parsed.value.statements))
  }

  predicate AllRunnable(g: Graph, ids: seq<Id>) {
    forall id | id in ids :: id in g.migrations && Runnable(g.migrations[id])
  }

  /** Run `r` is about to deploy `pending`. */
  ghost predicate AboutToDeploy(w: World, r: RunId, pending: seq<Id>) {
    Inv(w) && r in w.runs && w.runs[r].pc == Deploying(pending)
  }

  ghost function AppliedIn(w: World, r: RunId): set<Id>
    requires r in w.runs
  {
    TablesOf(w, w.runs[r].schema).applied.Keys
  }

  /** Committing the transaction a run is at. */
  lemma CommitsWhole(w: World, r: RunId) returns (next: World)
    requires Inv(w) && r in w.runs && Transacts(w.runs[r].pc) && Body(r, w.runs[r]).Some? && !ScriptRefused(w.runs[r])
    ensures var run, t := w.runs[r], TablesOf(w, w.runs[r].schema);
      && RunPrivately(t, Body(r, run).value).Some?
      && next == Replace(w, r, After(run, AfterCommit(run)), RunPrivately(t, Body(r, run).value).value)
      && Next(w, Exchange(r, |Body(r, run).value| + 2, 0, true)) == Some(next) && Inv(next)
  {
    hide Inv, Body, RunPrivately, Survives, AfterCommit, AfterFailure, ScriptRefused, Events, Transact, Common, Knows,
      SoleClaim,
      LocksAccounted, Commits, Sound, Registries, ReadState, MayClaim, Decision, VerifyCommands;
    var run, t := w.runs[r], TablesOf(w, w.runs[r].schema);
    var body := Body(r, run).value;
    Here(w, r);
    BodyCommits(t, r, run);
    AllOrNothing(t, body, |body| + 2);
    next := Replace(w, r, After(run, AfterCommit(run)), RunPrivately(t, body).value);
    var program := [BeginTx] + body + [CommitTx];
    assert program[..|body| + 2] == program;
    NextKeeps(w, Exchange(r, |body| + 2, 0, true), next);
  }

  lemma AtPending(w: World, r: RunId, pending: seq<Id>)
    requires AboutToDeploy(w, r, pending) && pending != []
    ensures var run := w.runs[r];
      && Linked(run.graph) && pending[0] in run.graph.migrations && run.graph.migrations[pending[0]].manifest.id == pending[0]
      && pending[0] !in AppliedIn(w, r) && Free(TablesOf(w, run.schema), r, run.sequence + 1)
  {
    hide Inv, Common, SoleClaim, LocksAccounted, Sound, Untouched, Linked, Below;
    Here(w, r);
    CommonMeans(TablesOf(w, w.runs[r].schema), r, w.runs[r]);
    DeployableFirst(w.runs[r].graph, AppliedIn(w, r), pending);
  }

  /** Passing over verification. */
  lemma Skips(w: World, r: RunId, id: Id, rest: seq<Id>) returns (next: World)
    requires Inv(w) && r in w.runs && w.runs[r].pc == Verifying(id, rest) && id in w.runs[r].graph.migrations
    ensures Next(w, Move.Verify(r, true, 0, false, false)) == Some(next)
    ensures next == Put(w, r, w.runs[r].(pc := Deploying(rest))) && AboutToDeploy(next, r, rest)
  {
    hide Inv, Survives, VerifyCommands, Transact, Body, RunPrivately, Registries, ReadState, MayClaim, Decision;
    next := Put(w, r, w.runs[r].(pc := Deploying(rest)));
    NextKeeps(w, Move.Verify(r, true, 0, false, false), next);
  }

  lemma DeployRequired(w: World, r: RunId, pending: seq<Id>) returns (later: World)
    requires AboutToDeploy(w, r, pending) && pending != [] && pending[0] in w.runs[r].graph.migrations
    requires Runnable(w.runs[r].graph.migrations[pending[0]])
    requires w.runs[r].graph.migrations[pending[0]].manifest.transaction == Required
    ensures Leads(w, later) && AboutToDeploy(later, r, pending[1..]) && SameRun(later.runs[r], w.runs[r])
    ensures AppliedIn(later, r) == AppliedIn(w, r) + {pending[0]}
  {
    hide Inv, Trace, Next, RunPrivately, Linked, Leads, Deployed;
    var run := w.runs[r];
    var t := TablesOf(w, run.schema);
    var m := run.graph.migrations[pending[0]];
    var digest := StructuralDigest(m).value;
    AtPending(w, r, pending);
    DeployBodyRuns(t, r, run.sequence + 1, m, digest);
    DeployedKeys(t, r, run.sequence + 1, m, digest);
    var done := CommitsWhole(w, r);
    later := Skips(done, r, pending[0], pending[1..]);
    LeadsAtOnce(later);
    LeadsAfter(done, Move.Verify(r, true, 0, false, false), later, later);
    LeadsAfter(w, Exchange(r, |Body(r, run).value| + 2, 0, true), done, later);
  }

  lemma DeployedKeys(t: Tables, r: RunId, n: nat, m: Migration, digest: Digest)
    ensures Deployed(t, r, n, m, digest).applied.Keys == t.applied.Keys + {m.manifest.id}
  {
  }

  /** Sending the statement, its taking effect, and hearing that it did. */
  lemma StatementCompletes(w: World, r: RunId, id: Id, rest: seq<Id>) returns (later: World)
    requires Inv(w) && r in w.runs && w.runs[r].pc == Sending(id, rest)
    ensures Inv(later) && r in later.runs && later.runs[r] == w.runs[r].(pc := Finishing(id, rest))
    ensures AppliedIn(later, r) == AppliedIn(w, r)
    ensures Trace(w, [Send(r), Land(Flight(w.runs[r].schema, r, id)), Hear(r, Succeeds)]) == Some(later)
  {
    hide Inv, Next, Trace;
    var f := Flight(w.runs[r].schema, r, id);
    var sent := Sends(w, r, id, rest);
    var landed := Lands(sent, r, id, rest, f);
    later := Hears(landed, r, id, rest);
    ThreeMoves(w, Send(r), Land(f), Hear(r, Succeeds), sent, landed, later);
  }

  lemma ThreeMoves(w: World, a: Move, b: Move, c: Move, x: World, y: World, z: World)
    requires Next(w, a) == Some(x) && Next(x, b) == Some(y) && Next(y, c) == Some(z)
    ensures Trace(w, [a, b, c]) == Some(z)
  {
    hide Next;
    assert [a, b, c][1..] == [b, c] && [b, c][1..] == [c] && [c][1..] == [];
    assert Trace(z, []) == Some(z);
    assert Trace(y, [c]) == Some(z);
    assert Trace(x, [b, c]) == Some(z);
  }

  lemma Sends(w: World, r: RunId, id: Id, rest: seq<Id>) returns (next: World)
    requires Inv(w) && r in w.runs && w.runs[r].pc == Sending(id, rest)
    ensures Next(w, Send(r)) == Some(next) && Inv(next)
    ensures r in next.runs && next.runs[r] == w.runs[r].(pc := Waiting(id, rest)) && Flight(w.runs[r].schema, r, id) in next.inFlight
    ensures AppliedIn(next, r) == AppliedIn(w, r)
  {
    hide Inv, Survives, VerifyCommands, Transact, Body, RunPrivately, Registries, ReadState, MayClaim, Decision;
    next := Replace(w, r, w.runs[r].(pc := Waiting(id, rest)), WithSent(TablesOf(w, w.runs[r].schema), r, id))
      .(inFlight := w.inFlight + {Flight(w.runs[r].schema, r, id)});
    NextKeeps(w, Send(r), next);
  }

  lemma Lands(w: World, r: RunId, id: Id, rest: seq<Id>, f: Flight) returns (next: World)
    requires Inv(w) && r in w.runs && w.runs[r].pc == Waiting(id, rest) && f == Flight(w.runs[r].schema, r, id) && f in w.inFlight
    ensures Next(w, Land(f)) == Some(next) && Inv(next)
    ensures next.runs == w.runs && Landed(TablesOf(next, f.schema).log, r, id) && AppliedIn(next, r) == AppliedIn(w, r)
  {
    hide Inv, DropsSession;
    next := Next(w, Land(f)).value;
    NextKeeps(w, Land(f), next);
    assert Last(TablesOf(next, f.schema).log) == Done(Effect(r, id, Standalone, 0));
  }

  lemma Hears(w: World, r: RunId, id: Id, rest: seq<Id>) returns (next: World)
    requires Inv(w) && r in w.runs && w.runs[r].pc == Waiting(id, rest) && Landed(TablesOf(w, w.runs[r].schema).log, r, id)
    ensures Next(w, Hear(r, Succeeds)) == Some(next) && Inv(next)
    ensures next == Put(w, r, w.runs[r].(pc := Finishing(id, rest)))
  {
    hide Inv, Survives, VerifyCommands, Transact, Body, RunPrivately, Registries, ReadState, MayClaim, Decision,
      Landed, Free;
    NamedWhileWaiting(w, r);
    next := Put(w, r, w.runs[r].(pc := Finishing(id, rest)));
    NextKeeps(w, Hear(r, Succeeds), next);
  }

  lemma NamedWhileWaiting(w: World, r: RunId)
    requires Inv(w) && r in w.runs && (w.runs[r].pc.Waiting? || w.runs[r].pc.Finishing?)
    ensures w.runs[r].pc.id in w.runs[r].graph.migrations && StructuralDigest(w.runs[r].graph.migrations[w.runs[r].pc.id]).Some?
    ensures w.runs[r].graph.migrations[w.runs[r].pc.id].manifest.id == w.runs[r].pc.id
    ensures w.runs[r].pc.id !in AppliedIn(w, r) && Free(TablesOf(w, w.runs[r].schema), r, w.runs[r].sequence + 1)
  {
    hide Inv, Common, SoleClaim, LocksAccounted, MatchesLog, SoundLog, RowsClosed, AttemptsReady, RowsCoherent,
      AuditKeyed, Formatted,
      Deployable, Untouched, Linked, Below;
    Here(w, r);
    CommonMeans(TablesOf(w, w.runs[r].schema), r, w.runs[r]);
    IdOfItself(w.runs[r].graph, w.runs[r].pc.id);
  }

  lemma IdOfItself(g: Graph, id: Id)
    requires Linked(g) && id in g.migrations
    ensures g.migrations[id].manifest.id == id
  {
  }

  lemma TraceConcat(w: World, a: seq<Move>, next: World, later: World)
    requires Trace(w, a) == Some(next) && Leads(next, later)
    ensures Leads(w, later)
    decreases |a|
  {
    hide Next;
    if a != [] {
      var first := Next(w, a[0]).value;
      TraceConcat(first, a[1..], next, later);
      LeadsAfter(w, a[0], first, later);
    }
  }

  /** Recording that the statement went through. */
  lemma Finishes(w: World, r: RunId, id: Id, rest: seq<Id>) returns (later: World)
    requires Inv(w) && r in w.runs && w.runs[r].pc == Finishing(id, rest)
    ensures Leads(w, later) && AboutToDeploy(later, r, rest) && SameRun(later.runs[r], w.runs[r])
    ensures AppliedIn(later, r) == AppliedIn(w, r) + {id}
  {
    hide Inv, Trace, Next, RunPrivately, Linked, Leads, Finished;
    var run := w.runs[r];
    var t := TablesOf(w, run.schema);
    NamedWhileWaiting(w, r);
    var m := run.graph.migrations[id];
    var digest := StructuralDigest(m).value;
    FinishTransacts(t, r, run.sequence + 1, m, digest);
    DoAllRuns(t, FinishWrites(r, run.sequence + 1, m, digest));
    FinishedKeys(t, r, run.sequence + 1, m, digest);
    var done := CommitsWhole(w, r);
    later := Skips(done, r, id, rest);
    LeadsAtOnce(later);
    LeadsAfter(done, Move.Verify(r, true, 0, false, false), later, later);
    LeadsAfter(w, Exchange(r, |Body(r, run).value| + 2, 0, true), done, later);
  }

  lemma FinishedKeys(t: Tables, r: RunId, n: nat, m: Migration, digest: Digest)
    ensures Finished(t, r, n, m, digest).applied.Keys == t.applied.Keys + {m.manifest.id}
  {
  }

  lemma DeployForbidden(w: World, r: RunId, pending: seq<Id>) returns (later: World)
    requires AboutToDeploy(w, r, pending) && pending != [] && pending[0] in w.runs[r].graph.migrations
    requires Runnable(w.runs[r].graph.migrations[pending[0]])
    requires w.runs[r].graph.migrations[pending[0]].manifest.transaction == Forbidden
    ensures Leads(w, later) && AboutToDeploy(later, r, pending[1..]) && SameRun(later.runs[r], w.runs[r])
    ensures AppliedIn(later, r) == AppliedIn(w, r) + {pending[0]}
  {
    hide Inv, Trace, Next, RunPrivately, Linked, Leads, WithAttempt, Transact;
    var run := w.runs[r];
    var t := TablesOf(w, run.schema);
    var m := run.graph.migrations[pending[0]];
    var digest := StructuralDigest(m).value;
    AtPending(w, r, pending);
    DoAllRuns(t, AttemptWrites(r, run.sequence + 1, m, digest));
    var begun := CommitsWhole(w, r);
    AttemptRowsKept(t, r, run.sequence + 1, m, digest);
    var heard := StatementCompletes(begun, r, pending[0], pending[1..]);
    later := Finishes(heard, r, pending[0], pending[1..]);
    TraceConcat(begun, [Send(r), Land(Flight(run.schema, r, pending[0])), Hear(r, Succeeds)], heard, later);
    LeadsAfter(w, Exchange(r, |Body(r, run).value| + 2, 0, true), begun, later);
  }

  lemma AttemptRowsKept(t: Tables, r: RunId, n: nat, m: Migration, digest: Digest)
    requires Free(t, r, n)
    ensures Transact(t, AttemptWrites(r, n, m, digest)).Some? ==>
      Transact(t, AttemptWrites(r, n, m, digest)).value.applied == t.applied
  {
    var ev := EventRow(r, n, m.manifest.id, Action.Deploy, Attempted, Forbidden, Some(m.deploy));
    TwoWrites(t, InsertAttempt(m.manifest.id, AttemptFor(m, digest, r)), InsertEvent(ev));
  }

  /** From the moment a deploy has its plan, there is a way to apply all of it: nothing the protocol
      checks or records along the way stands against it. */
  lemma {:induction false} DeployCompletes(w: World, r: RunId, pending: seq<Id>) returns (later: World)
    requires AboutToDeploy(w, r, pending) && AllRunnable(w.runs[r].graph, pending)
    ensures Leads(w, later) && AboutToDeploy(later, r, []) && SameRun(later.runs[r], w.runs[r])
    ensures AppliedIn(later, r) == AppliedIn(w, r) + Elements(pending)
    decreases |pending|
  {
    hide Inv, Trace, Runnable;
    if pending == [] {
      later := w;
      LeadsAtOnce(w);
    } else {
      var id, rest := pending[0], pending[1..];
      assert id in pending && forall x | x in rest :: x in pending;
      var next;
      if w.runs[r].graph.migrations[id].manifest.transaction == Required {
        next := DeployRequired(w, r, pending);
      } else {
        next := DeployForbidden(w, r, pending);
      }
      later := DeployCompletes(next, r, rest);
      LeadsOn(w, next, later);
      assert pending == [id] + rest;
      ElementsCons(id, rest);
      UnionAssociates(AppliedIn(w, r), {id}, Elements(rest));
    }
  }

  lemma LeadsOn(w: World, next: World, later: World)
    requires Leads(w, next) && Leads(next, later)
    ensures Leads(w, later)
  {
    hide Trace;
    var moves: seq<Move> :| Trace(w, moves) == Some(next);
    TraceConcat(w, moves, next, later);
  }

  // ----- From the start -----

  /** Nothing stands in the way of a command that is about to begin: both locks are free, the registry
      is readable and this project's if there is one, and no other registry exists. */
  predicate Unhindered(w: World, run: Run) {
    var t := TablesOf(w, run.schema);
    && Deployment(run.project) !in w.locks && Ownership !in w.locks
    && ReadState(t).Ok? && CheckProject(ReadState(t).value, run.project).Ok?
    && OwnershipHolds(w.schemas, run.schema, run.project)
  }

  /** And for a deploy: nothing is unresolved and the history check passes. */
  predicate Clear(w: World, run: Run) {
    var t := TablesOf(w, run.schema);
    && run.job.DeployJob? && Unhindered(w, run)
    && ReadState(t).value.unresolved == map[] && MakePlan(run.graph, ReadState(t).value.applied).Ok?
  }

  lemma Prepares(w: World, r: RunId, state: RegistryState) returns (later: World)
    requires Inv(w) && r in w.runs && w.runs[r].pc == Opened && Unhindered(w, w.runs[r])
    requires ReadState(TablesOf(w, w.runs[r].schema)) == Ok(state)
    ensures Inv(later) && Leads(w, later)
    ensures later == Put(w, r, w.runs[r].(pc := Refreshed(state))).(locks := w.locks[Deployment(w.runs[r].project) := r])
  {
    hide Inv, Survives, VerifyCommands, Transact, Body, RunPrivately, ReadState, MayClaim, Decision, OwnershipHolds,
      CheckProject, MakePlan,
      Trace, Leads;
    var run := w.runs[r];
    var a := Put(w, r, run.(pc := Locked)).(locks := w.locks[Deployment(run.project) := r]);
    var b := Put(a, r, run.(pc := Read(state)));
    later := Put(b, r, run.(pc := Refreshed(state)));
    NextKeeps(w, Acquire(r), a);
    NextKeeps(a, ReadRegistry(r), b);
    NextKeeps(b, CheckOwnership(r), later);
    LeadsAtOnce(later);
    LeadsAfter(b, CheckOwnership(r), later, later);
    LeadsAfter(a, ReadRegistry(r), b, later);
    LeadsAfter(w, Acquire(r), a, later);
  }

  lemma ClaimsDatabase(w: World, r: RunId, state: RegistryState) returns (later: World)
    requires Inv(w) && r in w.runs && w.runs[r].pc == Refreshed(state) && MayClaim(w.runs[r].job, w.runs[r].graph, state)
    requires Ownership !in w.locks && OwnershipHolds(w.schemas, w.runs[r].schema, w.runs[r].project)
    ensures Inv(later) && Leads(w, later)
    ensures later == Put(w, r, w.runs[r].(pc := Unclaimed(state))).(locks := w.locks[Ownership := r])
  {
    hide Inv, Survives, VerifyCommands, Transact, Body, RunPrivately, ReadState, Decision, OwnershipHolds,
      CheckProject, MakePlan,
      Trace, Leads, MayClaim;
    var run := w.runs[r];
    var a := Put(w, r, run.(pc := Claiming(state))).(locks := w.locks[Ownership := r]);
    later := Put(a, r, run.(pc := Unclaimed(state)));
    NextKeeps(w, AcquireOwnership(r), a);
    NextKeeps(a, RecheckOwnership(r), later);
    LeadsAtOnce(later);
    LeadsAfter(a, RecheckOwnership(r), later, later);
    LeadsAfter(w, AcquireOwnership(r), a, later);
  }

  lemma Upgrades(w: World, r: RunId, state: RegistryState) returns (later: World)
    requires Inv(w) && r in w.runs && w.runs[r].pc == Unclaimed(state)
    ensures Inv(later) && Next(w, Upgrade(r, true)) == Some(later)
    ensures later == Replace(w, r, w.runs[r].(pc := Raised(state)), Upgraded(TablesOf(w, w.runs[r].schema), w.runs[r].project))
    ensures AppliedIn(later, r) == AppliedIn(w, r) == state.applied.Keys
  {
    hide Inv, Survives, VerifyCommands, Transact, Body, RunPrivately, ReadState, OwnershipHolds, CheckProject, MakePlan,
      UpgradeWrites, Sound, Common, SoleClaim, LocksAccounted;
    var run := w.runs[r];
    var t := TablesOf(w, run.schema);
    Here(w, r);
    UpgradeKeepsSound(t, state, run.project);
    ReadStateIsExact(t);
    later := Replace(w, r, run.(pc := Raised(state)), Upgraded(t, run.project));
    NextKeeps(w, Upgrade(r, true), later);
  }

  /** Claiming is over: the registry is in the current format and the ownership lock is back. */
  lemma ClaimsThrough(w: World, r: RunId, state: RegistryState) returns (later: World)
    requires Inv(w) && r in w.runs && w.runs[r].pc == Unclaimed(state)
    ensures Inv(later) && Leads(w, later) && r in later.runs
    ensures later == Replace(w, r, w.runs[r].(pc := Claimed(state)), Upgraded(TablesOf(w, w.runs[r].schema), w.runs[r].project))
                       .(locks := w.locks - {Ownership})
    ensures AppliedIn(later, r) == AppliedIn(w, r) == state.applied.Keys
  {
    hide Inv, Survives, VerifyCommands, Transact, Body, RunPrivately, ReadState, OwnershipHolds, CheckProject, Trace, Leads,
      UpgradeWrites, Sound, Upgraded, MayClaim, Decision;
    var a := Upgrades(w, r, state);
    var run := a.runs[r];
    later := Put(a, r, run.(pc := Claimed(state))).(locks := a.locks - {Ownership});
    NextKeeps(a, ReleaseOwnership(r), later);
    LeadsAtOnce(later);
    LeadsAfter(a, ReleaseOwnership(r), later, later);
    LeadsAfter(w, Upgrade(r, true), a, later);
  }

  lemma Decides(w: World, r: RunId) returns (later: World)
    requires Inv(w) && r in w.runs
    requires w.runs[r].pc.Claimed? || (w.runs[r].pc.Refreshed? && !MayClaim(w.runs[r].job, w.runs[r].graph, w.runs[r].pc.state))
    ensures Inv(later) && Leads(w, later) && later == Put(w, r, w.runs[r].(pc := Decision(w.runs[r])))
  {
    hide Inv, Survives, VerifyCommands, Transact, Body, RunPrivately, ReadState, OwnershipHolds, CheckProject, Trace, Leads,
      UpgradeWrites, MayClaim, Decision;
    later := Put(w, r, w.runs[r].(pc := Decision(w.runs[r])));
    NextKeeps(w, Decide(r), later);
    LeadsAtOnce(later);
    LeadsAfter(w, Decide(r), later, later);
  }

  lemma UpgradesAndDecides(w: World, r: RunId, state: RegistryState) returns (later: World)
    requires Inv(w) && r in w.runs && w.runs[r].pc == Unclaimed(state) && w.runs[r].job.DeployJob?
    requires state.unresolved == map[] && MakePlan(w.runs[r].graph, state.applied).Ok?
    ensures AboutToDeploy(later, r, MakePlan(w.runs[r].graph, state.applied).value.pending) && Leads(w, later)
    ensures SameRun(later.runs[r], w.runs[r]) && AppliedIn(later, r) == AppliedIn(w, r) == state.applied.Keys
  {
    hide Inv, Leads, Upgraded, MakePlan, MayClaim;
    var a := ClaimsThrough(w, r, state);
    later := Decides(a, r);
    LeadsOn(w, a, later);
  }

  /** The last step of every command: the deployment lock is given back. */
  lemma LetsGo(w: World, r: RunId) returns (later: World)
    requires Inv(w) && r in w.runs && w.runs[r].pc == Ending && !Holds(w.locks, Ownership, r)
    ensures Inv(later) && Leads(w, later)
    ensures later == Put(w, r, w.runs[r].(pc := Ended)).(locks := w.locks - {Deployment(w.runs[r].project)})
  {
    hide Inv, Survives, VerifyCommands, Transact, Body, RunPrivately, ReadState, OwnershipHolds, CheckProject, Trace, Leads,
      UpgradeWrites, MayClaim, Decision;
    later := Put(w, r, w.runs[r].(pc := Ended)).(locks := w.locks - {Deployment(w.runs[r].project)});
    NextKeeps(w, Release(r), later);
    LeadsAtOnce(later);
    LeadsAfter(w, Release(r), later, later);
  }

  /** From any reachable database in which nothing stands in its way, a deploy can run to the end and
      leave every migration of the project applied. */
  lemma DeployCanComplete(w: World, r: RunId) returns (later: World)
    requires Reachable(w) && r in w.runs && w.runs[r].pc == Opened && Clear(w, w.runs[r])
    requires forall id | id in w.runs[r].graph.migrations :: Runnable(w.runs[r].graph.migrations[id])
    ensures Leads(w, later) && r in later.runs && SameRun(later.runs[r], w.runs[r])
    ensures w.runs[r].graph.migrations.Keys <= AppliedIn(later, r)
  {
    hide Inv, Reachable, Leads, Runnable, Clear;
    ReachableIsSafe(w);
    later := DeployRuns(w, r);
  }

  lemma DeployRuns(w: World, r: RunId) returns (later: World)
    requires Inv(w) && r in w.runs && w.runs[r].pc == Opened && Clear(w, w.runs[r])
    requires forall id | id in w.runs[r].graph.migrations :: Runnable(w.runs[r].graph.migrations[id])
    ensures Leads(w, later) && r in later.runs && SameRun(later.runs[r], w.runs[r])
    ensures w.runs[r].graph.migrations.Keys <= AppliedIn(later, r)
  {
    hide Inv, Leads, Runnable, MakePlan, ReadState, OwnershipHolds, CheckProject, Graphs.Valid, Deployable;
    var run := w.runs[r];
    var state := ReadState(TablesOf(w, run.schema)).value;
    assert Graphs.Valid(run.graph) by { GraphIsValid(w, r); }
    PlanIsDeployable(run.graph, state.applied);
    var a := Prepares(w, r, state);
    var b := ClaimsDatabase(a, r, state);
    var c := UpgradesAndDecides(b, r, state);
    later := DeployCompletes(c, r, MakePlan(run.graph, state.applied).value.pending);
    LeadsOn(b, c, later);
    LeadsOn(a, b, later);
    LeadsOn(w, a, later);
  }

  lemma GraphIsValid(w: World, r: RunId)
    requires Inv(w) && r in w.runs
    ensures Graphs.Valid(w.runs[r].graph)
  {
    hide Inv, Common, Knows, SoleClaim, LocksAccounted, Sound;
    Here(w, r);
    CommonHasValidGraph(TablesOf(w, w.runs[r].schema), r, w.runs[r]);
  }

  lemma CommonHasValidGraph(t: Tables, r: RunId, run: Run)
    requires Common(t, r, run)
    ensures Graphs.Valid(run.graph)
  {
    hide Graphs.Valid, DeployPasses;
  }
}
