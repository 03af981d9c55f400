/** Every move of every run keeps the invariant, so every reachable database satisfies it. */
module ProtocolSafety {
  import opened Collections
  import opened DependencyOrder
  import opened Migrations
  import opened Lint
  import opened Graphs
  import opened History
  import opened Ledger
  import opened Registry
  import opened Rehash
  import opened Transactions
  import opened Protocol
  import opened ProtocolInvariant
  import opened ProtocolSteps
  import opened ProtocolDecisions

  // ----- Changing one run -----

  predicate SameRun(a: Run, b: Run) {
    a.project == b.project && a.schema == b.schema && a.graph == b.graph && a.job == b.job
  }

  lemma TrackedStays(w: World, next: World, f: Flight)
    requires Tracked(w, f) && TablesOf(next, f.schema) == TablesOf(w, f.schema)
    requires f.run in w.runs <==> f.run in next.runs
    requires f.run in w.runs ==> SameRun(w.runs[f.run], next.runs[f.run])
    ensures Tracked(next, f)
  {
  }

  /** A run that changes its position, and perhaps its locks, but no table. */
  lemma RunMoves(w: World, next: World, r: RunId)
    requires Inv(w) && r in w.runs && r in next.runs && SameRun(w.runs[r], next.runs[r])
    requires next.runs == w.runs[r := next.runs[r]] && next.schemas == w.schemas && next.inFlight == w.inFlight
    requires LocksAccounted(next.locks, next.runs)
    requires View(TablesOf(w, w.runs[r].schema), r, next.runs[r]) && SoleClaim(w, next.runs[r])
    ensures Inv(next)
  {
    hide View, LocksAccounted, Sound, DropsSession, Tracked;
    assert forall s: Schema :: TablesOf(next, s) == TablesOf(w, s);
    forall f | f in next.inFlight ensures Tracked(next, f) {
      TrackedStays(w, next, f);
    }
  }

  /** Moving without touching locks keeps them accounted for, if the run keeps what they require. */
  lemma LocksKept(locks: map<Lock, RunId>, runs: map<RunId, Run>, r: RunId, run: Run)
    requires LocksAccounted(locks, runs) && r in runs && run.project == runs[r].project
    requires Deploys(runs[r].pc) && Deploys(run.pc) && (Claims(run.pc) ==> Claims(runs[r].pc))
    requires Claims(runs[r].pc) ==> Claims(run.pc) || run.pc == Ending
    requires runs[r].pc == Ending ==> run.pc == Ending
    ensures LocksAccounted(locks, runs[r := run])
  {
  }

  /** A move within the deployment lock that writes nothing. */
  lemma Advances(w: World, r: RunId, run: Run)
    requires Inv(w) && r in w.runs && SameRun(w.runs[r], run)
    requires Deploys(w.runs[r].pc) && Deploys(run.pc) && w.runs[r].pc != Ending
    requires (Claims(run.pc) ==> Claims(w.runs[r].pc)) && (Claims(w.runs[r].pc) ==> Claims(run.pc) || run.pc == Ending)
    requires View(TablesOf(w, run.schema), r, run) && SoleClaim(w, run)
    ensures Inv(Put(w, r, run))
  {
    hide View, LocksAccounted, SoleClaim;
    LocksKept(w.locks, w.runs, r, run);
    RunMoves(w, Put(w, r, run), r);
  }

  // ----- Writing -----

  /** Two runs of one project never hold positions under the deployment lock together, and two runs
      never both claim the database. */
  lemma Exclusion(w: World, q: RunId, r: RunId)
    requires LocksAccounted(w.locks, w.runs) && q in w.runs && r in w.runs && q != r
    ensures Deploys(w.runs[q].pc) && Deploys(w.runs[r].pc) ==> w.runs[q].project != w.runs[r].project
    ensures !(Claims(w.runs[q].pc) && Claims(w.runs[r].pc))
  {
    assert Secured(w.locks, q, w.runs[q]) && Secured(w.locks, r, w.runs[r]);
  }

  /** The conditions under which a run may replace the tables of its schema. */
  ghost predicate MayWrite(w: World, r: RunId, run: Run, after: Tables) {
    && r in w.runs && SameRun(w.runs[r], run) && Deploys(w.runs[r].pc)
    && Sound(after) && Grows(TablesOf(w, run.schema), after, r) && View(after, r, run)
    && after.meta.Some? && after.meta.value.project == run.project
    && (TablesOf(w, run.schema).meta.None? ==> w.runs[r].pc.Unclaimed?)
    && !run.pc.Unclaimed?
  }

  lemma OthersStay(w: World, r: RunId, run: Run, after: Tables, q: RunId)
    requires Inv(w) && MayWrite(w, r, run, after) && q in w.runs && q != r
    ensures View(TablesOf(Replace(w, r, run, after), w.runs[q].schema), q, w.runs[q])
    ensures SoleClaim(Replace(w, r, run, after), w.runs[q])
  {
    hide View, LocksAccounted, Sound, Grows, Tracked;
    Exclusion(w, q, r);
    var t := TablesOf(w, run.schema);
    if w.runs[q].schema == run.schema {
      assert View(t, q, w.runs[q]);
      ViewStays(t, after, q, w.runs[q], r);
    }
    forall s: Schema | w.runs[q].pc.Unclaimed? && TablesOf(Replace(w, r, run, after), s).meta.Some?
      ensures s == w.runs[q].schema
    {
      assert TablesOf(w, s).meta.Some?;
    }
  }

  lemma FlightStays(w: World, r: RunId, run: Run, after: Tables, f: Flight)
    requires r in w.runs && SameRun(w.runs[r], run) && Tracked(w, f) && Grows(TablesOf(w, run.schema), after, r)
    ensures Tracked(Replace(w, r, run, after), f)
  {
  }

  lemma StillOneRegistry(w: World, r: RunId, run: Run, after: Tables)
    requires Inv(w) && MayWrite(w, r, run, after)
    ensures Registered(Replace(w, r, run, after))
  {
    hide View, LocksAccounted, Sound, Grows, Tracked;
    var next := Replace(w, r, run, after);
    assert SoleClaim(w, w.runs[r]);
    assert TablesOf(next, run.schema) == after;
    assert forall s: Schema | s != run.schema :: TablesOf(next, s) == TablesOf(w, s);
    forall s: Schema ensures Sound(TablesOf(next, s)) {
      assert Sound(TablesOf(w, s));
    }
  }

  lemma Writes(w: World, r: RunId, run: Run, after: Tables)
    requires Inv(w) && MayWrite(w, r, run, after) && LocksAccounted(w.locks, w.runs[r := run])
    ensures Inv(Replace(w, r, run, after))
  {
    hide View, LocksAccounted, Sound, Grows, Tracked, Registered, SoleClaim;
    var next := Replace(w, r, run, after);
    StillOneRegistry(w, r, run, after);
    forall q | q in next.runs ensures View(TablesOf(next, next.runs[q].schema), q, next.runs[q]) && SoleClaim(next, next.runs[q]) {
      if q != r {
        OthersStay(w, r, run, after, q);
      } else {
        assert SoleClaim(next, run) by { NotClaiming(next, run); }
      }
    }
    forall f | f in next.inFlight ensures Tracked(next, f) {
      FlightStays(w, r, run, after, f);
    }
  }

  lemma NotClaiming(w: World, run: Run)
    requires !run.pc.Unclaimed?
    ensures SoleClaim(w, run)
  {
  }

  // ----- Taking and giving back locks -----

  lemma AcquireAccounted(locks: map<Lock, RunId>, runs: map<RunId, Run>, r: RunId, run: Run)
    requires LocksAccounted(locks, runs) && r in runs && runs[r].pc == Opened && run.pc == Locked
    requires Deployment(run.project) !in locks
    ensures LocksAccounted(locks[Deployment(run.project) := r], runs[r := run])
  {
    assert forall l | l in locks :: locks[l] != r;
  }

  lemma ClaimAccounted(locks: map<Lock, RunId>, runs: map<RunId, Run>, r: RunId, run: Run)
    requires LocksAccounted(locks, runs) && r in runs && runs[r].pc.Refreshed? && run.pc.Claiming?
    requires run.project == runs[r].project && Ownership !in locks
    ensures LocksAccounted(locks[Ownership := r], runs[r := run])
  {
    assert Secured(locks, r, runs[r]);
  }

  lemma UnclaimAccounted(locks: map<Lock, RunId>, runs: map<RunId, Run>, r: RunId, run: Run)
    requires LocksAccounted(locks, runs) && r in runs && Holds(locks, Ownership, r)
    requires Deploys(runs[r].pc) && Deploys(run.pc) && !Claims(run.pc) && run.project == runs[r].project
    ensures LocksAccounted(locks - {Ownership}, runs[r := run])
  {
    forall q | q in runs && q != r ensures Secured(locks - {Ownership}, q, runs[q]) {
      assert Secured(locks, q, runs[q]);
    }
    assert Secured(locks, r, runs[r]);
  }

  lemma ReleaseAccounted(locks: map<Lock, RunId>, runs: map<RunId, Run>, r: RunId, run: Run)
    requires LocksAccounted(locks, runs) && r in runs && runs[r].pc == Ending && !Holds(locks, Ownership, r)
    requires run.pc == Ended && run.project == runs[r].project
    ensures LocksAccounted(locks - {Deployment(run.project)}, runs[r := run])
  {
    assert Secured(locks, r, runs[r]);
    var left := locks - {Deployment(run.project)};
    forall q | q in runs && q != r ensures Secured(left, q, runs[q]) {
      assert Secured(locks, q, runs[q]);
    }
    forall l | l in left ensures left[l] != r {
      assert Entitled(l, runs[locks[l]]);
    }
  }

  lemma CrashAccounted(locks: map<Lock, RunId>, runs: map<RunId, Run>, r: RunId, run: Run)
    requires LocksAccounted(locks, runs) && r in runs && run.pc == Ended
    ensures LocksAccounted(WithoutLocksOf(locks, r), runs[r := run])
  {
    forall q | q in runs && q != r ensures Secured(WithoutLocksOf(locks, r), q, runs[q]) {
      assert Secured(locks, q, runs[q]);
    }
  }

  // ----- Moves that write nothing -----

  lemma CommonMoves(t: Tables, r: RunId, run: Run, pc: Pc)
    requires Common(t, r, run) && (Early(pc) ==> Early(run.pc))
    requires pc != Ending && pc != Ended ==> run.pc != Ending && run.pc != Ended
    ensures Common(t, r, run.(pc := pc))
  {
  }

  /** What the invariant says of one run. */
  lemma Here(w: World, r: RunId)
    requires Inv(w) && r in w.runs
    ensures var t := TablesOf(w, w.runs[r].schema);
      Sound(t) && Common(t, r, w.runs[r]) && Knows(t, r, w.runs[r]) && SoleClaim(w, w.runs[r])
    ensures LocksAccounted(w.locks, w.runs) && Secured(w.locks, r, w.runs[r])
  {
    hide Sound, Common, Knows, Tracked, SoleClaim, Secured, Entitled;
  }

  lemma KnowsFold(t: Tables, r: RunId, run: Run)
    requires match run.pc
             case Read(state) => Snapshot(t, run, state)
             case Refreshed(state) => Snapshot(t, run, state)
             case Claiming(state) => Snapshot(t, run, state) && MayClaim(run.job, run.graph, state)
             case Unclaimed(state) =>
               ReadState(t) == Ok(state) && CheckProject(state, run.project).Ok? && MayClaim(run.job, run.graph, state)
             case Raised(state) => Current(t, run, state) && MayClaim(run.job, run.graph, state)
             case Claimed(state) => Current(t, run, state) && MayClaim(run.job, run.graph, state)
             case Deploying(pending) => Proceeding(t, r, run, pending)
             case Waiting(id, rest) => Attempting(t, r, run, id, rest) && WasSent(t.log, r, id)
             case Finishing(id, rest) => Attempting(t, r, run, id, rest) && Landed(t.log, r, id)
             case Reporting(n) => Owned(t, run) && n.outcome in {Failed, Unknown}
             case Opened => true
             case Locked => true
             case Ending => true
             case Ended => true
             case _ => false
    ensures Knows(t, r, run)
  {
    hide Snapshot, Attempting, Proceeding, Current, ReadState, CheckProject, MayClaim;
  }

  /** Stopping early is always safe. */
  lemma StopKeeps(w: World, r: RunId)
    requires Inv(w) && r in w.runs && Deploys(w.runs[r].pc) && w.runs[r].pc != Ending
    ensures Inv(Put(w, r, w.runs[r].(pc := Ending)))
  {
    hide Inv, Common, Knows, SoleClaim;
    var run := w.runs[r].(pc := Ending);
    Here(w, r);
    CommonMoves(TablesOf(w, run.schema), r, w.runs[r], Ending);
    KnowsFold(TablesOf(w, run.schema), r, run);
    NotClaiming(w, run);
    Advances(w, r, run);
  }

  lemma AcquireKeeps(w: World, r: RunId)
    requires Inv(w) && r in w.runs && w.runs[r].pc == Opened && Deployment(w.runs[r].project) !in w.locks
    ensures Inv(Put(w, r, w.runs[r].(pc := Locked)).(locks := w.locks[Deployment(w.runs[r].project) := r]))
  {
    hide Inv, Common, Knows, SoleClaim, LocksAccounted, Sound;
    var run := w.runs[r].(pc := Locked);
    Here(w, r);
    CommonMoves(TablesOf(w, run.schema), r, w.runs[r], Locked);
    KnowsFold(TablesOf(w, run.schema), r, run);
    NotClaiming(w, run);
    AcquireAccounted(w.locks, w.runs, r, run);
    RunMoves(w, Put(w, r, run).(locks := w.locks[Deployment(run.project) := r]), r);
  }

  lemma ReadKeeps(w: World, r: RunId)
    requires Inv(w) && r in w.runs && w.runs[r].pc == Locked
    requires ReadState(TablesOf(w, w.runs[r].schema)).Ok?
    requires CheckProject(ReadState(TablesOf(w, w.runs[r].schema)).value, w.runs[r].project).Ok?
    ensures Inv(Put(w, r, w.runs[r].(pc := Read(ReadState(TablesOf(w, w.runs[r].schema)).value))))
  {
    hide Inv, Common, Knows, SoleClaim, Sound;
    var t := TablesOf(w, w.runs[r].schema);
    var run := w.runs[r].(pc := Read(ReadState(t).value));
    Here(w, r);
    CommonMoves(t, r, w.runs[r], run.pc);
    KnowsFold(t, r, run);
    NotClaiming(w, run);
    Advances(w, r, run);
  }

  lemma CheckKeeps(w: World, r: RunId)
    requires Inv(w) && r in w.runs && w.runs[r].pc.Read?
    ensures Inv(Put(w, r, w.runs[r].(pc := Refreshed(w.runs[r].pc.state))))
  {
    hide Inv, Common, SoleClaim, Sound, ReadState;
    var t := TablesOf(w, w.runs[r].schema);
    var run := w.runs[r].(pc := Refreshed(w.runs[r].pc.state));
    Here(w, r);
    CommonMoves(t, r, w.runs[r], run.pc);
    KnowsFold(t, r, run);
    NotClaiming(w, run);
    Advances(w, r, run);
  }

  lemma ClaimKeeps(w: World, r: RunId)
    requires Inv(w) && r in w.runs && w.runs[r].pc.Refreshed? && Ownership !in w.locks
    requires MayClaim(w.runs[r].job, w.runs[r].graph, w.runs[r].pc.state)
    ensures Inv(Put(w, r, w.runs[r].(pc := Claiming(w.runs[r].pc.state))).(locks := w.locks[Ownership := r]))
  {
    hide Inv, MayClaim, Common, SoleClaim, LocksAccounted, Sound, ReadState;
    var run := w.runs[r].(pc := Claiming(w.runs[r].pc.state));
    Here(w, r);
    CommonMoves(TablesOf(w, run.schema), r, w.runs[r], run.pc);
    KnowsFold(TablesOf(w, run.schema), r, run);
    NotClaiming(w, run);
    ClaimAccounted(w.locks, w.runs, r, run);
    RunMoves(w, Put(w, r, run).(locks := w.locks[Ownership := r]), r);
  }

  /** Under the ownership lock, the database is either empty or this project's. */
  lemma RecheckKeeps(w: World, r: RunId)
    requires Inv(w) && r in w.runs && w.runs[r].pc.Claiming?
    requires OwnershipHolds(w.schemas, w.runs[r].schema, w.runs[r].project)
    ensures Inv(Put(w, r, w.runs[r].(pc := Unclaimed(w.runs[r].pc.state))))
  {
    hide Inv, MayClaim, Common, Sound, ReadState;
    var t := TablesOf(w, w.runs[r].schema);
    var run := w.runs[r].(pc := Unclaimed(w.runs[r].pc.state));
    Here(w, r);
    assert forall s: Schema | TablesOf(w, s).meta.Some? :: s in Registries(w.schemas);
    assert SoleClaim(w, run);
    assert ReadState(t) == Ok(run.pc.state);
    CommonMoves(t, r, w.runs[r], run.pc);
    KnowsFold(t, r, run);
    Advances(w, r, run);
  }

  lemma ReleaseOwnershipKeeps(w: World, r: RunId)
    requires Inv(w) && r in w.runs && w.runs[r].pc.Raised?
    ensures Inv(Put(w, r, w.runs[r].(pc := Claimed(w.runs[r].pc.state))).(locks := w.locks - {Ownership}))
  {
    hide Inv, MayClaim, Common, SoleClaim, LocksAccounted, Sound;
    var run := w.runs[r].(pc := Claimed(w.runs[r].pc.state));
    Here(w, r);
    CommonMoves(TablesOf(w, run.schema), r, w.runs[r], run.pc);
    KnowsFold(TablesOf(w, run.schema), r, run);
    NotClaiming(w, run);
    UnclaimAccounted(w.locks, w.runs, r, run);
    RunMoves(w, Put(w, r, run).(locks := w.locks - {Ownership}), r);
  }

  lemma DecideKeeps(w: World, r: RunId)
    requires Inv(w) && r in w.runs
    requires w.runs[r].pc.Claimed? || w.runs[r].pc.Refreshed? || w.runs[r].pc == Deploying([])
    ensures Inv(Put(w, r, w.runs[r].(pc := Decision(w.runs[r]))))
  {
    hide Inv, Common, SoleClaim, LocksAccounted, Sound, Decision;
    var was := w.runs[r];
    var run := was.(pc := Decision(was));
    var t := TablesOf(w, run.schema);
    Here(w, r);
    assert Admitted(was) by { CommonAdmits(t, r, was); }
    DecisionIsLater(was);
    match was.pc {
      case Claimed(state) => CommonAdmits(t, r, was); DecidesFromClaimed(t, r, was, state);
      case Refreshed(state) => DecidesFromRefreshed(t, r, was, state);
      case Deploying(_) => KnowsFold(t, r, run);
    }
    CommonMoves(t, r, was, run.pc);
    NotClaiming(w, run);
    Advances(w, r, run);
  }

  lemma CommonAdmits(t: Tables, r: RunId, run: Run)
    requires Common(t, r, run)
    ensures Admitted(run) && Graphs.Valid(run.graph)
    ensures Early(run.pc) ==> forall id: Id :: Untouched(t.log, r, id)
  {
    hide Graphs.Valid, DeployPasses;
  }

  lemma DecisionIsLater(run: Run)
    ensures Deploys(Decision(run)) && !Early(Decision(run)) && !Claims(Decision(run)) && Decision(run) != Ended
    ensures run.pc.Deploying? ==> Decision(run) == Ending
  {
    hide MakePlan, Revertible, BaselineSelection, Sources, MakeRehashPlan, Validate, IsEmpty;
  }

  lemma ReleaseKeeps(w: World, r: RunId)
    requires Inv(w) && r in w.runs && w.runs[r].pc == Ending
    ensures Holds(w.locks, Ownership, r) ==> Inv(w.(locks := w.locks - {Ownership}))
    ensures !Holds(w.locks, Ownership, r) ==>
      Inv(Put(w, r, w.runs[r].(pc := Ended)).(locks := w.locks - {Deployment(w.runs[r].project)}))
  {
    hide Inv, Common, SoleClaim, LocksAccounted, Sound;
    Here(w, r);
    if Holds(w.locks, Ownership, r) {
      UnclaimAccounted(w.locks, w.runs, r, w.runs[r]);
      assert w.runs[r := w.runs[r]] == w.runs;
      RunMoves(w, w.(locks := w.locks - {Ownership}), r);
    } else {
      ReleaseAccounted(w.locks, w.runs, r, w.runs[r].(pc := Ended));
      EndKeeps(w, r, w.locks - {Deployment(w.runs[r].project)});
    }
  }

  lemma EndKeeps(w: World, r: RunId, locks: map<Lock, RunId>)
    requires Inv(w) && r in w.runs
    requires LocksAccounted(locks, w.runs[r := w.runs[r].(pc := Ended)])
    ensures Inv(Put(w, r, w.runs[r].(pc := Ended)).(locks := locks))
  {
    hide Inv, Common, Knows, SoleClaim, LocksAccounted, Sound;
    var run := w.runs[r].(pc := Ended);
    Here(w, r);
    CommonMoves(TablesOf(w, run.schema), r, w.runs[r], Ended);
    KnowsFold(TablesOf(w, run.schema), r, run);
    NotClaiming(w, run);
    RunMoves(w, Put(w, r, run).(locks := locks), r);
  }

  lemma CrashKeeps(w: World, r: RunId)
    requires Inv(w) && r in w.runs
    ensures Inv(Put(w, r, w.runs[r].(pc := Ended)).(locks := WithoutLocksOf(w.locks, r)))
  {
    hide Common, Knows, SoleClaim, LocksAccounted, Sound;
    CrashAccounted(w.locks, w.runs, r, w.runs[r].(pc := Ended));
    EndKeeps(w, r, WithoutLocksOf(w.locks, r));
  }
}
