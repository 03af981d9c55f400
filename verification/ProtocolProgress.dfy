/** No set of runs, across projects and with unlimited waits, can block for ever. */
module ProtocolProgress {
  import opened Collections
  import opened DependencyOrder
  import opened Migrations
  import opened Lint
  import opened Graphs
  import opened History
  import opened Ledger
  import opened Registry
  import opened Rehash
  import opened Transactions
  import opened Protocol
  import opened ProtocolInvariant
  import opened ProtocolSteps
  import opened ProtocolSafety
  import opened ProtocolWrites
  import opened ProtocolTheorems

  // ----- Something can always happen -----

  /** A step of work: not a new run, not a failure, and not the loss of an answer. */
  predicate Forward(move: Move) {
    && !move.Start? && !move.Fail? && !move.Crash? && !move.Vanish?
    && !(move.Hear? && move.answer == IsLost)
  }

  ghost predicate CanMove(w: World, move: Move) {
    Forward(move) && Next(w, move).Some?
  }

  /** The whole of the transaction the run is at, or the discovery that it cannot be started. */
  ghost function WholeExchange(r: RunId, run: Run): Move {
    Exchange(r, if Body(r, run).Some? then |Body(r, run).value| + 2 else 0, 0, true)
  }

  ghost function Answered(w: World, r: RunId, run: Run, id: Id): Move {
    if Landed(TablesOf(w, run.schema).log, r, id) then Hear(r, Succeeds)
    else if Flight(run.schema, r, id) in w.inFlight then Land(Flight(run.schema, r, id))
    else Hear(r, IsRefused)
  }

  /** The move a run under the deployment lock makes next. */
  ghost function Suggested(w: World, r: RunId, run: Run): Move {
    match run.pc
    case Opened => Acquire(r)
    case Locked => ReadRegistry(r)
    case Read(_) => CheckOwnership(r)
    case Refreshed(state) => if MayClaim(run.job, run.graph, state) then AcquireOwnership(r) else Decide(r)
    case Claiming(_) => RecheckOwnership(r)
    case Unclaimed(_) => Upgrade(r, true)
    case Raised(_) => ReleaseOwnership(r)
    case Claimed(_) => Decide(r)
    case Deploying(pending) => if pending == [] then Decide(r) else WholeExchange(r, run)
    case Sending(_, _) => Send(r)
    case Waiting(id, _) => Answered(w, r, run, id)
    case Verifying(_, _) => Move.Verify(r, true, 0, false, false)
    case Reporting(_) => Report(r, true)
    case Ending => Release(r)
    case Ended => Crash(r)
    case _ => WholeExchange(r, run)
  }

  /** Only two positions wait for anyone else. */
  ghost predicate Blocked(w: World, run: Run) {
    || (run.pc == Opened && Deployment(run.project) in w.locks)
    || (run.pc.Refreshed? && MayClaim(run.job, run.graph, run.pc.state) && Ownership in w.locks)
  }

  lemma NamedMigrations(w: World, r: RunId)
    requires Inv(w) && r in w.runs && (w.runs[r].pc.Waiting? || w.runs[r].pc.Verifying?)
    ensures w.runs[r].pc.id in w.runs[r].graph.migrations
  {
    hide Inv, Sound, Common, LocksAccounted, SoleClaim, Deployable, OwnAttempt;
    Here(w, r);
  }

  lemma Unblocked(w: World, r: RunId)
    requires Inv(w) && r in w.runs && w.runs[r].pc != Ended && !Blocked(w, w.runs[r])
    ensures CanMove(w, Suggested(w, r, w.runs[r]))
  {
    hide Inv, Body, Survives, Transact, RunPrivately, Registries, MayClaim, ReadState, VerifyCommands, Decision,
      OwnershipHolds,
      CheckProject, UpgradeWrites, WithEvent, AfterCommit, AfterFailure, Landed, WithoutLocksOf, WithSent, WithLanded, DropsSession;
    if w.runs[r].pc.Waiting? || w.runs[r].pc.Verifying? {
      NamedMigrations(w, r);
    }
  }

  /** The next step of a run's work: a move of its own, or the landing of its own statement. */
  ghost predicate Serves(w: World, r: RunId, move: Move) {
    r in w.runs && (MoveOf(move, r) || (move.Land? && w.runs[r].pc.Waiting? && move.f == Flight(w.runs[r].schema, r, w.runs[r].pc.id)))
  }

  lemma SuggestionServes(w: World, r: RunId)
    requires r in w.runs && w.runs[r].pc != Ended
    ensures Serves(w, r, Suggested(w, r, w.runs[r]))
  {
    hide Body, MayClaim, Landed;
  }

  /** A run that holds the ownership lock never waits; without such a run, one waiting for it can
      take it; and a run waiting for a deployment lock waits for a run past that point. So while any
      run is unfinished, the work of some unfinished run can go on. */
  lemma NeverDeadlocked(w: World, r: RunId)
    requires Reachable(w) && r in w.runs && w.runs[r].pc != Ended
    ensures exists q, move :: q in w.runs && w.runs[q].pc != Ended && Serves(w, q, move) && CanMove(w, move)
  {
    hide Reachable, Inv, CanMove, Suggested, MayClaim, Serves;
    ReachableIsSafe(w);
    Here(w, r);
    var q := Unstuck(w, r);
    Unblocked(w, q);
    SuggestionServes(w, q);
    assert Serves(w, q, Suggested(w, q, w.runs[q])) && CanMove(w, Suggested(w, q, w.runs[q]));
  }

  lemma Unstuck(w: World, r: RunId) returns (q: RunId)
    requires LocksAccounted(w.locks, w.runs) && r in w.runs && w.runs[r].pc != Ended
    ensures q in w.runs && w.runs[q].pc != Ended && !Blocked(w, w.runs[q])
  {
    hide MayClaim;
    if Ownership in w.locks {
      q := w.locks[Ownership];
      assert Entitled(Ownership, w.runs[q]);
    } else if w.runs[r].pc == Opened && Deployment(w.runs[r].project) in w.locks {
      q := w.locks[Deployment(w.runs[r].project)];
      assert Entitled(Deployment(w.runs[r].project), w.runs[q]);
    } else {
      q := r;
    }
  }

  // ----- And not for ever -----

  /** How far a run still is from its end. */
  ghost function Distance(run: Run): nat {
    var whole := 5 * |DeploymentOrder(run.graph)|;
    match run.pc
    case Opened => whole + 11
    case Locked => whole + 10
    case Read(_) => whole + 9
    case Refreshed(_) => whole + 8
    case Claiming(_) => whole + 7
    case Unclaimed(_) => whole + 6
    case Raised(_) => whole + 5
    case Claimed(_) => whole + 4
    case Deploying(pending) => 5 * |pending| + 3
    case Sending(_, rest) => 5 * |rest| + 7
    case Waiting(_, rest) => 5 * |rest| + 6
    case Finishing(_, rest) => 5 * |rest| + 5
    case Verifying(_, rest) => 5 * |rest| + 4
    case Reporting(_) => 2
    case Ending => 1
    case Ended => 0
    case _ => 3
  }

  ghost function Remaining(w: World, r: RunId): nat {
    if r !in w.runs then 0 else 2 * Distance(w.runs[r]) + if Holds(w.locks, Ownership, r) then 1 else 0
  }

  predicate MoveOf(move: Move, r: RunId) {
    !move.Start? && !move.Land? && !move.Vanish? && move.r == r
  }

  lemma {:induction false} FilterIsShorter(s: seq<Id>, keep: set<Id>)
    ensures |Filter(s, keep)| <= |s|
  {
    if s != [] {
      FilterIsShorter(s[1..], keep);
    }
  }

  lemma PendingIsBounded(g: Graph, applied: AppliedRows)
    requires MakePlan(g, applied).Ok?
    ensures |MakePlan(g, applied).value.pending| <= |DeploymentOrder(g)|
  {
    hide CheckRows, KahnFrom;
    FilterIsShorter(DeploymentOrder(g), Elements(DeploymentOrder(g)) - applied.Keys);
  }

  lemma DecisionIsCloser(run: Run)
    requires run.pc.Claimed? || run.pc.Refreshed? || run.pc == Deploying([])
    ensures Distance(run.(pc := Decision(run))) < Distance(run)
  {
    hide MakePlan, Revertible, BaselineSelection, Sources, MakeRehashPlan, Validate, IsEmpty, DeploymentOrder;
    if run.pc.Claimed? && MakePlan(run.graph, run.pc.state.applied).Ok? {
      PendingIsBounded(run.graph, run.pc.state.applied);
    }
  }

  lemma AfterIsCloser(run: Run, k: nat)
    requires Transacts(run.pc)
    ensures Distance(run.(sequence := run.sequence + k, pc := AfterCommit(run))) < Distance(run)
    ensures Distance(run.(sequence := run.sequence + k, pc := AfterFailure(run))) < Distance(run)
  {
    hide DeploymentOrder;
  }

  predicate Prepares(move: Move) {
    || move.Acquire? || move.ReadRegistry? || move.CheckOwnership? || move.AcquireOwnership? || move.RecheckOwnership?
    || move.Upgrade? || move.ReleaseOwnership?
  }

  lemma PreparingApproaches(w: World, move: Move, r: RunId, next: World)
    requires r in w.runs && MoveOf(move, r) && Prepares(move) && Act(w, move, r, w.runs[r]) == Some(next)
    ensures r in next.runs && Distance(next.runs[r]) < Distance(w.runs[r])
    ensures Holds(next.locks, Ownership, r) ==> Holds(w.locks, Ownership, r) || move.AcquireOwnership?
  {
    hide Body, Survives, Transact, RunPrivately, Registries, MayClaim, ReadState, OwnershipHolds, CheckProject,
      UpgradeWrites,
      DeploymentOrder;
  }

  lemma ExchangeApproaches(w: World, move: Move, r: RunId, next: World)
    requires r in w.runs && MoveOf(move, r) && move.Exchange? && Act(w, move, r, w.runs[r]) == Some(next)
    ensures r in next.runs && Distance(next.runs[r]) < Distance(w.runs[r]) && next.locks == w.locks
  {
    hide Body, Survives, RunPrivately, Events, AfterCommit, AfterFailure, Distance, Transacts;
    var run := w.runs[r];
    AfterIsCloser(run, 0);
    assert run.(sequence := run.sequence + 0) == run;
    AfterIsCloser(run, next.runs[r].sequence - run.sequence);
  }

  lemma WorkingApproaches(w: World, move: Move, r: RunId, next: World)
    requires r in w.runs && MoveOf(move, r) && (move.Send? || move.Hear?)
    requires Act(w, move, r, w.runs[r]) == Some(next)
    ensures r in next.runs && Distance(next.runs[r]) < Distance(w.runs[r]) && next.locks == w.locks
  {
    hide Landed, WithSent, DeploymentOrder;
  }

  lemma VerifyingApproaches(w: World, move: Move, r: RunId, next: World)
    requires r in w.runs && MoveOf(move, r) && move.Verify? && Act(w, move, r, w.runs[r]) == Some(next)
    ensures r in next.runs && Distance(next.runs[r]) < Distance(w.runs[r]) && next.locks == w.locks
  {
    hide Survives, VerifyCommands, WithEvent, DeploymentOrder;
  }

  lemma StoppingApproaches(w: World, move: Move, r: RunId, next: World)
    requires r in w.runs && MoveOf(move, r) && (move.Report? || move.Fail? || move.Crash?)
    requires Act(w, move, r, w.runs[r]) == Some(next)
    ensures r in next.runs && Distance(next.runs[r]) < Distance(w.runs[r])
    ensures Holds(next.locks, Ownership, r) ==> Holds(w.locks, Ownership, r)
  {
    hide Survives, VerifyCommands, WithEvent, Landed, WithSent, DeploymentOrder;
  }

  lemma ReleasingApproaches(w: World, r: RunId, next: World)
    requires r in w.runs && Act(w, Release(r), r, w.runs[r]) == Some(next)
    ensures r in next.runs && Remaining(next, r) < Remaining(w, r)
  {
    hide DeploymentOrder;
  }

  /** Each of its own moves takes a run closer to its end. */
  lemma MovesApproach(w: World, move: Move, r: RunId, next: World)
    requires r in w.runs && MoveOf(move, r) && Act(w, move, r, w.runs[r]) == Some(next)
    ensures r in next.runs && Remaining(next, r) < Remaining(w, r)
  {
    hide Act, Distance;
    if Prepares(move) {
      PreparingApproaches(w, move, r, next);
    } else if move.Exchange? {
      ExchangeApproaches(w, move, r, next);
    } else if move.Decide? {
      DecidingApproaches(w, r, next);
    } else if move.Release? {
      ReleasingApproaches(w, r, next);
    } else if move.Report? || move.Fail? || move.Crash? {
      StoppingApproaches(w, move, r, next);
    } else if move.Verify? {
      VerifyingApproaches(w, move, r, next);
    } else {
      WorkingApproaches(w, move, r, next);
    }
  }

  lemma DecidingApproaches(w: World, r: RunId, next: World)
    requires r in w.runs && Act(w, Decide(r), r, w.runs[r]) == Some(next)
    ensures r in next.runs && Distance(next.runs[r]) < Distance(w.runs[r]) && next.locks == w.locks
  {
    hide Decision, Distance, MayClaim;
    DecisionIsCloser(w.runs[r]);
  }

  /** Other runs' moves, and the server's, do not take it further away. */
  lemma OthersDoNotDelay(w: World, move: Move, r: RunId, next: World)
    requires Inv(w) && r in w.runs && !MoveOf(move, r) && Next(w, move) == Some(next)
    ensures r in next.runs && Remaining(next, r) <= Remaining(w, r)
  {
    hide Inv, Next, Distance;
    if move.Start? || move.Land? || move.Vanish? {
      ServerDoesNotDelay(w, move, r, next);
    } else {
      OnlyItself(w, move, next);
      LocksOfOthers(w, move, r, next);
    }
  }

  /** A move changes no run but its own. */
  lemma OnlyItself(w: World, move: Move, next: World)
    requires !move.Start? && !move.Land? && !move.Vanish? && Next(w, move) == Some(next)
    ensures move.r in w.runs && move.r in next.runs && next.runs == w.runs[move.r := next.runs[move.r]]
  {
    hide Body, Survives, Transact, RunPrivately, Registries, MayClaim, ReadState, VerifyCommands, Decision, OwnershipHolds, Events,
      CheckProject, UpgradeWrites, WithEvent, AfterCommit, AfterFailure, Landed, WithSent, Transacts, Verifies, WithoutLocksOf;
  }

  lemma ServerDoesNotDelay(w: World, move: Move, r: RunId, next: World)
    requires Inv(w) && r in w.runs && (move.Start? || move.Land? || move.Vanish?) && Next(w, move) == Some(next)
    ensures r in next.runs && Remaining(next, r) <= Remaining(w, r)
  {
    hide Inv, WithLanded, DropsSession, Distance, Admitted;
    if move.Land? {
      LandKeeps(w, move.f);
    }
  }

  lemma LocksOfOthers(w: World, move: Move, r: RunId, next: World)
    requires r in w.runs && !MoveOf(move, r) && !move.Start? && !move.Land? && !move.Vanish? && Next(w, move) == Some(next)
    ensures Holds(next.locks, Ownership, r) ==> Holds(w.locks, Ownership, r)
  {
    hide Body, Survives, Transact, RunPrivately, Registries, MayClaim, ReadState, VerifyCommands, Decision,
      OwnershipHolds, Events,
      CheckProject, UpgradeWrites, WithEvent, AfterCommit, AfterFailure, Landed, WithSent, WithLanded, Transacts;
  }

  function MovesBy(moves: seq<Move>, r: RunId): nat {
    if moves == [] then 0 else (if MoveOf(moves[0], r) then 1 else 0) + MovesBy(moves[1..], r)
  }

  /** Whatever happens around it, a run makes no more moves of its own than it had left: every run
      ends, and every lock it holds is given back. */
  lemma {:induction false} EveryRunEnds(w: World, moves: seq<Move>, r: RunId, last: World)
    requires Inv(w) && r in w.runs && Trace(w, moves) == Some(last)
    ensures r in last.runs && MovesBy(moves, r) + Remaining(last, r) <= Remaining(w, r)
    decreases |moves|
  {
    hide Inv, Next, Remaining;
    if moves != [] {
      var next := Next(w, moves[0]).value;
      NextKeeps(w, moves[0], next);
      if MoveOf(moves[0], r) {
        NextIsAct(w, moves[0], r);
        MovesApproach(w, moves[0], r, next);
      } else {
        OthersDoNotDelay(w, moves[0], r, next);
      }
      EveryRunEnds(next, moves[1..], r, last);
    }
  }

  lemma NextIsAct(w: World, move: Move, r: RunId)
    requires r in w.runs && MoveOf(move, r)
    ensures Next(w, move) == Act(w, move, r, w.runs[r])
  {
    hide Act;
  }

  // ----- Both together -----

  /** What all these runs still have to do. */
  ghost function Left(w: World, rs: set<RunId>): nat {
    if rs == {} then 0 else Remaining(w, Min(rs)) + Left(w, rs - {Min(rs)})
  }

  ghost function Work(w: World): nat {
    2 * Left(w, w.runs.Keys) + |w.inFlight|
  }

  lemma {:induction false} LeftShrinks(w: World, next: World, rs: set<RunId>, q: RunId)
    requires forall r | r in rs :: Remaining(next, r) <= Remaining(w, r)
    requires q in rs ==> Remaining(next, q) < Remaining(w, q)
    ensures Left(next, rs) <= Left(w, rs) && (q in rs ==> Left(next, rs) < Left(w, rs))
    decreases rs
  {
    hide Remaining;
    if rs != {} {
      LeftShrinks(w, next, rs - {Min(rs)}, q);
    }
  }

  lemma {:induction false} LeftStays(w: World, next: World, rs: set<RunId>)
    requires forall r | r in rs :: Remaining(next, r) <= Remaining(w, r)
    ensures Left(next, rs) <= Left(w, rs)
    decreases rs
  {
    hide Remaining;
    if rs != {} {
      LeftStays(w, next, rs - {Min(rs)});
    }
  }

  lemma FlightsGrow(w: World, move: Move, r: RunId, next: World)
    requires r in w.runs && MoveOf(move, r) && Act(w, move, r, w.runs[r]) == Some(next)
    ensures next.inFlight == w.inFlight
            || (w.runs[r].pc.Sending? && next.inFlight == w.inFlight + {Flight(w.runs[r].schema, r, w.runs[r].pc.id)})
  {
    hide Survives, Body, RunPrivately, Transact, ReadState, MayClaim, OwnershipHolds, VerifyCommands, Decision, WithEvent, WithSent,
      AfterCommit, AfterFailure, Registries, Landed, WithoutLocksOf, Events, Transacts, UpgradeWrites, CheckProject, Verifies;
  }

  lemma OneFlightAtMost(w: World, move: Move, r: RunId, next: World)
    requires r in w.runs && MoveOf(move, r) && Act(w, move, r, w.runs[r]) == Some(next)
    ensures |next.inFlight| <= |w.inFlight| + 1 && next.runs.Keys == w.runs.Keys
  {
    hide Act, Next;
    NextIsAct(w, move, r);
    OnlyItself(w, move, next);
    FlightsGrow(w, move, r, next);
  }

  lemma LandingTakesOne(w: World, f: Flight, next: World)
    requires Next(w, Land(f)) == Some(next)
    ensures |next.inFlight| < |w.inFlight| && next.runs == w.runs
  {
    SubsetCardinalityStrict(next.inFlight, w.inFlight);
  }

  /** A step of some run's work leaves less to do altogether. */
  lemma StepShrinks(w: World, q: RunId, move: Move, next: World)
    requires Inv(w) && Serves(w, q, move) && Next(w, move) == Some(next)
    ensures Work(next) < Work(w) && next.runs.Keys == w.runs.Keys && Inv(next)
  {
    hide Inv, Next, Act, Remaining, Left;
    NextKeeps(w, move, next);
    forall r | r in w.runs && !MoveOf(move, r) ensures Remaining(next, r) <= Remaining(w, r) {
      OthersDoNotDelay(w, move, r, next);
    }
    if MoveOf(move, q) {
      NextIsAct(w, move, q);
      MovesApproach(w, move, q, next);
      OneFlightAtMost(w, move, q, next);
      LeftShrinks(w, next, w.runs.Keys, q);
    } else {
      LandingTakesOne(w, move.f, next);
      LeftStays(w, next, w.runs.Keys);
    }
  }

  lemma EndedHoldNothing(w: World)
    requires Inv(w) && forall r | r in w.runs :: w.runs[r].pc == Ended
    ensures w.locks == map[]
  {
    hide View, Registered, SoleClaim, Tracked;
    assert forall l | l in w.locks :: w.locks[l] in w.runs && Entitled(l, w.runs[w.locks[l]]);
  }

  /** From any world that satisfies the invariant, work alone (no failure, no crash, no lost answer)
      can bring every run to its end and every lock back. */
  lemma {:induction false} AllCanEnd(w: World) returns (moves: seq<Move>, last: World)
    requires Inv(w)
    ensures Trace(w, moves) == Some(last) && forall move | move in moves :: Forward(move)
    ensures last.runs.Keys == w.runs.Keys && forall r | r in last.runs :: last.runs[r].pc == Ended
    ensures last.locks == map[]
    decreases Work(w)
  {
    hide Inv, Next, Work, Serves, Suggested, MayClaim;
    if r :| r in w.runs && w.runs[r].pc != Ended {
      Here(w, r);
      var q := Unstuck(w, r);
      Unblocked(w, q);
      SuggestionServes(w, q);
      var move := Suggested(w, q, w.runs[q]);
      var next := Next(w, move).value;
      StepShrinks(w, q, move, next);
      var rest;
      rest, last := AllCanEnd(next);
      moves := [move] + rest;
      assert moves[0] == move && moves[1..] == rest;
    } else {
      moves, last := [], w;
      EndedHoldNothing(w);
    }
  }
}
