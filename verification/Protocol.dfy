/** Every command that changes a database, as a machine whose steps any number of runs take in any
    order. A run may fail or die between any two of them. */
module Protocol {
  import opened Collections
  import opened DependencyOrder
  import opened DependencyClosure
  import opened Migrations
  import opened Lint
  import opened Graphs
  import opened History
  import opened Ledger
  import opened Registry
  import opened Transactions
  import opened Rehash

  type Schema = string

  /** Advisory locks: one per project, and one for claiming the database. The digests that lock keys
      are cut from are taken not to collide. */
  datatype Lock = Deployment(project: ProjectId) | Ownership

  /** What a run was asked to do. Selectors are already resolved to ids. */
  datatype Job =
    | DeployJob
    | RevertJob(id: Id)
    | BaselineJob(id: Id)
    | ResolveJob(id: Id, applied: bool)
    | RehashJob(acceptCurrent: bool, reason: Option<string>)

  /** An event that describes something already settled. */
  datatype Notice = Notice(id: Id, action: Action, outcome: Outcome, mode: Mode, script: Option<Script>)

  /** Where a run stands. Everything from `Locked` to `Ending` is under the deployment lock, and
      `Claiming` to `Raised` under the ownership lock as well. */
  datatype Pc =
    | Opened
    | Locked
    | Read(state: RegistryState)
    | Refreshed(state: RegistryState)
    | Claiming(state: RegistryState)
    | Unclaimed(state: RegistryState)
    | Raised(state: RegistryState)
    | Claimed(state: RegistryState)
    | Deploying(pending: seq<Id>)
    | Sending(id: Id, rest: seq<Id>)
    | Waiting(id: Id, rest: seq<Id>)
    | Finishing(id: Id, rest: seq<Id>)
    | Verifying(id: Id, rest: seq<Id>)
    | Reporting(notice: Notice)
    | Reverting(id: Id)
    | Baselining(sources: seq<Source>)
    | Resolving(id: Id, attempt: AttemptRow, applied: bool)
    | Rehashing(state: RegistryState, plan: seq<RehashEntry>)
    | Ending
    | Ended

  /** One process: its checkout, its configuration, and how far its event sequence has got. */
  datatype Run = Run(project: ProjectId, schema: Schema, graph: Graph, job: Job, pc: Pc, sequence: nat)

  /** A nontransactional statement the server may still be executing. */
  datatype Flight = Flight(schema: Schema, run: RunId, id: Id)

  datatype World = World(
    schemas: map<Schema, Tables>,
    locks: map<Lock, RunId>,
    runs: map<RunId, Run>,
    inFlight: set<Flight>)

  datatype Answer = Succeeds | IsRefused | IsLost

  datatype Move =
    | Start(r: RunId, run: Run)
    | Acquire(r: RunId)
    | ReadRegistry(r: RunId)
    | CheckOwnership(r: RunId)
    | AcquireOwnership(r: RunId)
    | RecheckOwnership(r: RunId)
    | Upgrade(r: RunId, seen: bool)
    | ReleaseOwnership(r: RunId)
    | Decide(r: RunId)
    | Exchange(r: RunId, commands: nat, burned: nat, seen: bool)
    | Send(r: RunId)
    | Land(f: Flight)
    | Vanish(f: Flight)
    | Hear(r: RunId, answer: Answer)
    | Verify(r: RunId, skipped: bool, commands: nat, passed: bool, written: bool)
    | Report(r: RunId, written: bool)
    | Fail(r: RunId)
    | Release(r: RunId)
    | Crash(r: RunId)

  function TablesOf(w: World, s: Schema): Tables {
    if s in w.schemas then w.schemas[s] else EMPTY
  }

  // ----- What a run decides from what it read -----

  /** Registries found in the database, in whatever schema. */
  function Registries(schemas: map<Schema, Tables>): set<Schema> {
    set s | s in schemas && schemas[s].meta.Some?
  }

  /** Refuses a database that holds a registry other than this project's own. */
  predicate OwnershipHolds(schemas: map<Schema, Tables>, schema: Schema, project: ProjectId) {
    forall s | s in Registries(schemas) :: s == schema && schemas[s].meta.value.project == project
  }

  /** Whether `id` may be reverted: applied, unchanged, a leaf of the applied graph, and with a
      script that does something. */
  predicate Revertible(g: Graph, state: RegistryState, id: Id) {
    && RequireInitialized(state).Ok? && RequireNotBlocked(state).Ok? && MakePlan(g, state.applied).Ok?
    && id in g.migrations && id in state.applied
    && (id in g.dependents ==> forall m | m in g.dependents[id] :: m !in state.applied)
    && g.migrations[id].manifest.reversibility == Reversible
    && g.migrations[id].revert.Some? && !RunsNothing(g.migrations[id].revert.value)
  }

  /** What is checked before the database is claimed. A deploy claims first and looks later. */
  predicate MayClaim(job: Job, g: Graph, state: RegistryState) {
    match job
    case DeployJob => true
    case RevertJob(id) => Revertible(g, state, id)
    case BaselineJob(_) => RequireNotBlocked(state).Ok?
    case ResolveJob(id, _) => RequireInitialized(state).Ok? && id in state.unresolved
    case RehashJob(_, _) => false
  }

  /** What a baseline records: the closure of its target, in order, less what is applied. */
  ghost function BaselineSelection(g: Graph, state: RegistryState, id: Id): seq<Id> {
    var d := DependsOf(g.migrations);
    Filter(Kahn(Induced(d, ReachableFrom(d, id))), ReachableFrom(d, id) - state.applied.Keys)
  }

  function Sources(g: Graph, ids: seq<Id>): Option<seq<Source>> {
    if ids == [] then Some([])
    else if ids[0] !in g.migrations || StructuralDigest(g.migrations[ids[0]]).None? then None
    else
      match Sources(g, ids[1..])
      case None => None
      case Some(rest) => Some([Source(g.migrations[ids[0]], StructuralDigest(g.migrations[ids[0]]).value)] + rest)
  }

  /** Where a run goes once it has read, and where required claimed, the database. What was checked
      before the claim is checked again: on the same state it comes out the same. */
  ghost function Decision(run: Run): Pc {
    match run.pc
    case Claimed(state) =>
      (match run.job
       case DeployJob =>
         if RequireNotBlocked(state).Ok? && MakePlan(run.graph, state.applied).Ok?
         then Deploying(MakePlan(run.graph, state.applied).value.pending) else Ending
       case RevertJob(id) => if Revertible(run.graph, state, id) then Reverting(id) else Ending
       case BaselineJob(id) =>
         if RequireNotBlocked(state).Ok? && MakePlan(run.graph, state.applied).Ok? && id in run.graph.migrations
            && BaselineSelection(run.graph, state, id) != []
         then
           (match Sources(run.graph, BaselineSelection(run.graph, state, id))
            case None => Ending
            case Some(sources) => Baselining(sources))
         else Ending
       case ResolveJob(id, applied) => if id in state.unresolved then Resolving(id, state.unresolved[id], applied) else Ending
       case RehashJob(_, _) => Ending)
    case Refreshed(state) =>
      if run.job.RehashJob? then
        (match MakeRehashPlan(run.graph, state, run.job.acceptCurrent)
         case Err(_) => Ending
         case Ok(plan) => if Validate(plan).Ok? && !IsEmpty(plan) then Rehashing(state, plan) else Ending)
      else Ending
    case _ => Ending
  }

  // ----- Transactions -----

  /** The migration a run is at. */
  function At(run: Run): Option<Migration> {
    match run.pc
    case Deploying(pending) =>
      if pending != [] && pending[0] in run.graph.migrations then Some(run.graph.migrations[pending[0]]) else None
    case Finishing(id, _) => if id in run.graph.migrations then Some(run.graph.migrations[id]) else None
    case Reverting(id) => if id in run.graph.migrations then Some(run.graph.migrations[id]) else None
    case _ => None
  }

  /** The body of the transaction a run is about to make, between its begin and its commit; `None`
      when a check made beforehand stops it. */
  function Body(r: RunId, run: Run): Option<seq<Command>> {
    var next := run.sequence + 1;
    match run.pc
    case Deploying(_) =>
      if At(run).None? || StructuralDigest(At(run).value).None? then None
      else
        var m, digest := At(run).value, StructuralDigest(At(run).value).value;
        if m.manifest.transaction == Forbidden then Some(DoAll(AttemptWrites(r, next, m, digest)))
        else if EnsureRunnerOwnsTransaction(m.deploy).Err? then None
        else Some(DeployBody(r, next, m, digest, m.deploy.parsed.value.statements))
    case Finishing(_, _) =>
      if At(run).None? || StructuralDigest(At(run).value).None? then None
      else Some(DoAll(FinishWrites(r, next, At(run).value, StructuralDigest(At(run).value).value)))
    case Reverting(id) =>
      if At(run).None? || At(run).value.revert.None? || EnsureRunnerOwnsTransaction(At(run).value.revert.value).Err? then None
      else
        var script := At(run).value.revert.value;
        Some(RevertBody(r, next, id, script, script.parsed.value.statements))
    case Baselining(sources) => Some(DoAll(BaselineWrites(r, next, sources)))
    case Resolving(id, attempt, applied) => Some(DoAll(ResolveWrites(r, next, id, attempt, applied)))
    case Rehashing(state, plan) =>
      if run.job.RehashJob? && AllComplete(plan)
      then Some(DoAll(UpgradeWrites(state, run.project) + RehashWrites(plan, r, run.job.reason))) else None
    case _ => None
  }

  predicate Transacts(pc: Pc) {
    || (pc.Deploying? && pc.pending != []) || pc.Finishing? || pc.Reverting? || pc.Baselining? || pc.Resolving? || pc.Rehashing?
  }

  /** How many events the transaction numbers. */
  function Events(run: Run): nat {
    match run.pc
    case Baselining(sources) => |sources|
    case Rehashing(_, _) => 0
    case _ => 1
  }

  function AfterCommit(run: Run): Pc {
    match run.pc
    case Deploying(pending) =>
      if pending == [] || At(run).None? then Ending
      else if At(run).value.manifest.transaction == Forbidden then Sending(pending[0], pending[1..])
      else Verifying(pending[0], pending[1..])
    case Finishing(id, rest) => Verifying(id, rest)
    case _ => Ending
  }

  /** Where a run goes when its transaction failed, or when it could not tell. */
  function AfterFailure(run: Run): Pc {
    match run.pc
    case Deploying(pending) =>
      if At(run).None? || StructuralDigest(At(run).value).None? || At(run).value.manifest.transaction == Forbidden then Ending
      else Reporting(Notice(pending[0], Deploy, Failed, Required, Some(At(run).value.deploy)))
    case Reverting(id) =>
      Reporting(Notice(id, Revert, Failed, Required, if At(run).None? then None else At(run).value.revert))
    case _ => Ending
  }

  // ----- Moves -----

  function Put(w: World, r: RunId, run: Run): World {
    w.(runs := w.runs[r := run])
  }

  function Replace(w: World, r: RunId, run: Run, t: Tables): World {
    w.(runs := w.runs[r := run], schemas := w.schemas[run.schema := t])
  }

  function WithoutLocksOf(locks: map<Lock, RunId>, r: RunId): map<Lock, RunId> {
    map l | l in locks && locks[l] != r :: locks[l]
  }

  /** No entry, audit row or lock mentions this run id yet. */
  predicate Unused(w: World, r: RunId) {
    && r !in w.runs
    && (forall s | s in w.schemas :: forall e | e in w.schemas[s].log :: RunOf(e) != r)
    && (forall s | s in w.schemas :: forall a | a in w.schemas[s].audit :: a.run != r)
  }

  function RunOf(e: Entry): RunId {
    match e
    case Logged(ev) => ev.run
    case Sent(run, _) => run
    case Done(f) => f.run
  }

  function EventFrom(r: RunId, sequence: nat, n: Notice): EventRow {
    EventRow(r, sequence, n.id, n.action, n.outcome, n.mode, n.script)
  }

  /** What is checked before a command connects: the graph has been built, a rehash that accepts the
      current source has a reason, and a deploy or a baseline has passed lint. */
  ghost predicate Admitted(run: Run) {
    && Graphs.Valid(run.graph)
    && (run.job.RehashJob? && run.job.acceptCurrent ==> run.job.reason.Some? && !IsBlank(run.job.reason.value))
    && (run.job.DeployJob? || run.job.BaselineJob? ==> forall id | id in run.graph.migrations :: DeployPasses(run.graph.migrations[id]))
  }

  /** Whether a statement, once it takes effect, makes its session give up all its locks. */
  predicate DropsSession(w: World, f: Flight) {
    && f.run in w.runs && f.id in w.runs[f.run].graph.migrations
    && Discards(w.runs[f.run].graph.migrations[f.id].deploy)
  }

  /** `DISCARD`, the one statement that resets the session by being what it is. User SQL is taken not to
      call the lock functions itself. */
  predicate Discards(script: Script) {
    !RunsNothing(script) && script.parsed.Some? && NonTransactional(true) in script.parsed.value.statements
  }

  /** One verification: what its transaction leaves, and the event written afterwards. It passes only
      when all of it was exchanged and none of it refused. */
  function VerifyCommands(r: RunId, id: Id, script: Script): seq<Command> {
    if EnsureRunnerOwnsTransaction(script).Err? || RunsNothing(script) then []
    else [BeginTx] + ([Other] + ScriptCommands(r, id, VerifyScript, script.parsed.value.statements)) + [RollbackTx]
  }

  /** One move; `None` when it cannot be made. */
  ghost function Next(w: World, move: Move): Option<World> {
    match move
    case Start(r, run) =>
      if Unused(w, r) && run.pc == Opened && run.sequence == 0 && Admitted(run) then Some(Put(w, r, run)) else None
    case Land(f) =>
      if f in w.inFlight
      then Some(w.(inFlight := w.inFlight - {f},
                   locks := if DropsSession(w, f) then WithoutLocksOf(w.locks, f.run) else w.locks,
                   schemas := w.schemas[f.schema := WithLanded(TablesOf(w, f.schema), f.run, f.id)]))
      else None
    case Vanish(f) => if f in w.inFlight then Some(w.(inFlight := w.inFlight - {f})) else None
    case _ => if move.r in w.runs then Act(w, move, move.r, w.runs[move.r]) else None
  }

  ghost function Act(w: World, move: Move, r: RunId, run: Run): Option<World>
    requires !move.Start? && !move.Land? && !move.Vanish?
  {
    var t := TablesOf(w, run.schema);
    match move
    case Acquire(_) =>
      if run.pc == Opened && Deployment(run.project) !in w.locks
      then Some(Put(w, r, run.(pc := Locked)).(locks := w.locks[Deployment(run.project) := r])) else None
    case ReadRegistry(_) =>
      if run.pc != Locked then None
      else if ReadState(t).Ok? && CheckProject(ReadState(t).value, run.project).Ok?
      then Some(Put(w, r, run.(pc := Read(ReadState(t).value))))
      else Some(Put(w, r, run.(pc := Ending)))
    case CheckOwnership(_) =>
      if !run.pc.Read? then None
      else Some(Put(w, r, run.(pc := if OwnershipHolds(w.schemas, run.schema, run.project) then Refreshed(run.pc.state) else Ending)))
    case AcquireOwnership(_) =>
      if run.pc.Refreshed? && MayClaim(run.job, run.graph, run.pc.state) && Ownership !in w.locks
      then Some(Put(w, r, run.(pc := Claiming(run.pc.state))).(locks := w.locks[Ownership := r])) else None
    case RecheckOwnership(_) =>
      if !run.pc.Claiming? then None
      else Some(Put(w, r, run.(pc := if OwnershipHolds(w.schemas, run.schema, run.project) then Unclaimed(run.pc.state) else Ending)))
    case Upgrade(_, seen) =>
      if !run.pc.Unclaimed? then None
      else
        (match Transact(t, UpgradeWrites(run.pc.state, run.project))
         case None => Some(Put(w, r, run.(pc := Ending)))
         case Some(t') => Some(Replace(w, r, run.(pc := if seen then Raised(run.pc.state) else Ending), t')))
    case ReleaseOwnership(_) =>
      if run.pc.Raised? then Some(Put(w, r, run.(pc := Claimed(run.pc.state))).(locks := w.locks - {Ownership})) else None
    case Decide(_) =>
      if run.pc.Claimed? || (run.pc.Refreshed? && !MayClaim(run.job, run.graph, run.pc.state)) || run.pc == Deploying([])
      then Some(Put(w, r, run.(pc := Decision(run)))) else None
    case Exchange(_, commands, burned, seen) =>
      if !Transacts(run.pc) || burned > Events(run) then None
      else if Body(r, run).None? then Some(Put(w, r, run.(pc := AfterFailure(run))))
      else if commands > |Body(r, run).value| + 2 then None
      else
        var program := [BeginTx] + Body(r, run).value + [CommitTx];
        var committed := commands == |program| && RunPrivately(t, Body(r, run).value).Some?;
        Some(Replace(w, r,
          run.(sequence := run.sequence + if committed then Events(run) else burned,
               pc := if committed && seen then AfterCommit(run) else AfterFailure(run)),
          Survives(Server(t, None), program[..commands])))
    case Send(_) =>
      if run.pc.Sending?
      then Some(Replace(w, r, run.(pc := Waiting(run.pc.id, run.pc.rest)), WithSent(t, r, run.pc.id))
                  .(inFlight := w.inFlight + {Flight(run.schema, r, run.pc.id)}))
      else None
    case Hear(_, answer) =>
      if !run.pc.Waiting? || run.pc.id !in run.graph.migrations then None
      else
        var notice := Notice(run.pc.id, Deploy, Failed, Forbidden, Some(run.graph.migrations[run.pc.id].deploy));
        (match answer
         case Succeeds =>
           if Landed(t.log, r, run.pc.id) then Some(Put(w, r, run.(pc := Finishing(run.pc.id, run.pc.rest)))) else None
         case IsRefused =>
           if Flight(run.schema, r, run.pc.id) !in w.inFlight then Some(Put(w, r, run.(pc := Reporting(notice)))) else None
         case IsLost => Some(Put(w, r, run.(pc := Reporting(notice.(outcome := Unknown))))))
    case Verify(_, skipped, commands, passed, written) =>
      if !run.pc.Verifying? || run.pc.id !in run.graph.migrations then None
      else if skipped then Some(Put(w, r, run.(pc := Deploying(run.pc.rest))))
      else if run.graph.migrations[run.pc.id].verify.None? then None
      else
        var script := run.graph.migrations[run.pc.id].verify.value;
        var program := VerifyCommands(r, run.pc.id, script);
        if commands > |program| || (passed && !(commands == |program| && Verifies(script))) then None
        else
          var left := Survives(Server(t, None), program[..commands]);
          var ev := EventRow(r, run.sequence + 1, run.pc.id, Action.Verify, if passed then Succeeded else Failed, Required, Some(script));
          Some(Replace(w, r,
            run.(sequence := run.sequence + 1, pc := if passed && written then Deploying(run.pc.rest) else Ending),
            if written then WithEvent(left, ev) else left))
    case Report(_, written) =>
      if !run.pc.Reporting? then None
      else
        Some(Replace(w, r, run.(sequence := run.sequence + 1, pc := Ending),
          if written then WithEvent(t, EventFrom(r, run.sequence + 1, run.pc.notice)) else t))
    case Fail(_) => if run.pc != Ending && run.pc != Ended then Some(Put(w, r, run.(pc := if run.pc == Opened then Ended else Ending))) else None
    case Release(_) =>
      if run.pc != Ending then None
      else if Ownership in w.locks && w.locks[Ownership] == r then Some(w.(locks := w.locks - {Ownership}))
      else Some(Put(w, r, run.(pc := Ended)).(locks := w.locks - {Deployment(run.project)}))
    case Crash(_) =>
      if run.pc == Ended then None else Some(Put(w, r, run.(pc := Ended)).(locks := WithoutLocksOf(w.locks, r)))
  }

  /** A whole history of moves. */
  ghost function Trace(w: World, moves: seq<Move>): Option<World>
    decreases |moves|
  {
    if moves == [] then Some(w)
    else
      match Next(w, moves[0])
      case None => None
      case Some(n) => Trace(n, moves[1..])
  }
}
