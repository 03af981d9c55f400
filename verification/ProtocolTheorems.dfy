/** What is promised of every database that any number of runs, failing and dying anywhere, can
    produce. */
module ProtocolTheorems {
  import opened Collections
  import opened DependencyOrder
  import opened Migrations
  import opened Lint
  import opened Graphs
  import opened History
  import opened Ledger
  import opened Registry
  import opened Rehash
  import opened Transactions
  import opened Protocol
  import opened ProtocolInvariant
  import opened ProtocolSteps
  import opened ProtocolDecisions
  import opened ProtocolSafety
  import opened ProtocolWrites

  const NOWHERE := World(map[], map[], map[], {})

  /** A database at rest, as this release may find it: never used, or holding one sound registry in
      whatever format, with rows of either comparison policy. */
  ghost predicate Founded(start: World) {
    start.locks == map[] && start.runs == map[] && start.inFlight == {} && Registered(start)
  }

  /** A world some history of moves leads to, from a database at rest. */
  ghost predicate Reachable(w: World) {
    exists start: World, moves: seq<Move> :: Founded(start) && Trace(start, moves) == Some(w)
  }

  lemma FoundedIsSafe(start: World)
    requires Founded(start)
    ensures Inv(start)
  {
    hide Sound;
  }

  lemma NowhereIsFounded()
    ensures Founded(NOWHERE)
  {
    EmptyIsSound();
    hide Sound;
  }

  lemma FailKeeps(w: World, r: RunId)
    requires Inv(w) && r in w.runs && w.runs[r].pc != Ending && w.runs[r].pc != Ended
    ensures Inv(Put(w, r, w.runs[r].(pc := if w.runs[r].pc == Opened then Ended else Ending)))
  {
    hide Inv, LocksAccounted;
    if w.runs[r].pc == Opened {
      Here(w, r);
      OpenedEnds(w.locks, w.runs, r, w.runs[r].(pc := Ended));
      EndKeeps(w, r, w.locks);
    } else {
      StopKeeps(w, r);
    }
  }

  lemma OpenedEnds(locks: map<Lock, RunId>, runs: map<RunId, Run>, r: RunId, run: Run)
    requires LocksAccounted(locks, runs) && r in runs && runs[r].pc == Opened && run.pc == Ended
    ensures LocksAccounted(locks, runs[r := run])
  {
  }

  lemma VerificationKeeps(w: World, r: RunId, skipped: bool, commands: nat, passed: bool, written: bool, next: World)
    requires Inv(w) && r in w.runs
    requires Act(w, Move.Verify(r, skipped, commands, passed, written), r, w.runs[r]) == Some(next)
    ensures Inv(next)
  {
    hide Inv, Survives, Body, RunPrivately, Transact, Registries, MayClaim, ReadState, VerifyCommands, Decision;
    var was := w.runs[r];
    if skipped {
      SkipKeeps(w, r);
    } else {
      var script := was.graph.migrations[was.pc.id].verify.value;
      VerifyCommandsLeaveNothing(TablesOf(w, was.schema), r, was.pc.id, script, commands);
      VerifyKeeps(w, r, passed, written, script);
    }
  }

  lemma VerifyCommandsLeaveNothing(t: Tables, r: RunId, id: Id, script: Script, k: nat)
    requires k <= |VerifyCommands(r, id, script)|
    ensures Survives(Server(t, None), VerifyCommands(r, id, script)[..k]) == t
  {
    hide RunsNothing;
    if VerifyCommands(r, id, script) != [] {
      VerifyLeavesNothing(t, r, id, script, k);
    }
  }

  /** Every move a run can make. */
  lemma ActKeeps(w: World, move: Move, next: World)
    requires Inv(w) && !move.Start? && !move.Land? && !move.Vanish? && move.r in w.runs
    requires Act(w, move, move.r, w.runs[move.r]) == Some(next)
    ensures Inv(next)
  {
    hide Inv, Survives, Body, RunPrivately, Transact, Registries, MayClaim, ReadState, VerifyCommands, Decision,
      OwnershipHolds,
      CheckProject, UpgradeWrites, WithEvent, Events, AfterCommit, AfterFailure, Transacts, Landed, WithoutLocksOf, WithSent;
    var r := move.r;
    match move
    case Acquire(_) => AcquireKeeps(w, r);
    case ReadRegistry(_) =>
      if next == Put(w, r, w.runs[r].(pc := Ending)) { StopKeeps(w, r); } else { ReadKeeps(w, r); }
    case CheckOwnership(_) =>
      if next == Put(w, r, w.runs[r].(pc := Ending)) { StopKeeps(w, r); } else { CheckKeeps(w, r); }
    case AcquireOwnership(_) => ClaimKeeps(w, r);
    case RecheckOwnership(_) =>
      if next == Put(w, r, w.runs[r].(pc := Ending)) { StopKeeps(w, r); } else { RecheckKeeps(w, r); }
    case Upgrade(_, seen) => UpgradeKeeps(w, r, seen);
    case ReleaseOwnership(_) => ReleaseOwnershipKeeps(w, r);
    case Decide(_) => DecideKeeps(w, r);
    case Exchange(_, commands, burned, seen) => ExchangeKeeps(w, r, commands, burned, seen, next);
    case Send(_) => SendKeeps(w, r);
    case Hear(_, _) => HearKeeps(w, r, next.runs[r].pc);
    case Verify(_, skipped, commands, passed, written) => VerificationKeeps(w, r, skipped, commands, passed, written, next);
    case Report(_, written) => ReportKeeps(w, r, written);
    case Fail(_) => FailKeeps(w, r);
    case Release(_) => ReleaseKeeps(w, r);
    case Crash(_) => CrashKeeps(w, r);
  }

  lemma NextKeeps(w: World, move: Move, next: World)
    requires Inv(w) && Next(w, move) == Some(next)
    ensures Inv(next)
  {
    hide Inv, Act, DropsSession, Unused, Admitted;
    match move
    case Start(r, run) => StartKeeps(w, r, run);
    case Land(f) => LandKeeps(w, f);
    case Vanish(f) => VanishKeeps(w, f);
    case _ => ActKeeps(w, move, next);
  }

  lemma {:induction false} TraceKeeps(w: World, moves: seq<Move>, last: World)
    requires Inv(w) && Trace(w, moves) == Some(last)
    ensures Inv(last)
    decreases |moves|
  {
    hide Inv, Next;
    if moves != [] {
      var next := Next(w, moves[0]).value;
      NextKeeps(w, moves[0], next);
      TraceKeeps(next, moves[1..], last);
    }
  }

  /** Every reachable world satisfies the invariant. */
  lemma ReachableIsSafe(w: World)
    requires Reachable(w)
    ensures Inv(w)
  {
    hide Inv, Trace, Founded;
    var start: World, moves: seq<Move> :| Founded(start) && Trace(start, moves) == Some(w);
    FoundedIsSafe(start);
    TraceKeeps(start, moves, w);
  }
}
