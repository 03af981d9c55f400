/** Registry formats through any history: none ever goes down, and a registry a newer release has left is
    never touched. */
module ProtocolFormats {
  import opened Collections
  import opened DependencyOrder
  import opened Migrations
  import opened Lint
  import opened Graphs
  import opened History
  import opened Ledger
  import opened Registry
  import opened Rehash
  import opened Transactions
  import opened Protocol
  import opened ProtocolInvariant
  import opened ProtocolSteps
  import opened ProtocolSafety
  import opened ProtocolWrites
  import opened ProtocolTheorems
  import opened ProtocolProgress
  import opened ProtocolPromises
  import opened RunnerMoves

  /** The format of a schema's registry; 0 when it has none. */
  function Format(t: Tables): int {
    if t.meta.None? then 0 else t.meta.value.version
  }

  lemma UnclaimedReads(w: World, r: RunId)
    requires Inv(w) && r in w.runs && w.runs[r].pc.Unclaimed?
    ensures var run, t := w.runs[r], TablesOf(w, w.runs[r].schema);
      ReadState(t) == Ok(run.pc.state) && CheckProject(run.pc.state, run.project).Ok? && Sound(t)
  {
    hide Inv, Common, SoleClaim, Sound, LocksAccounted, ReadState, CheckProject;
    Here(w, r);
  }

  /** Whoever changes a registry could read it. */
  lemma WritersRead(w: World, move: Move, r: RunId, next: World)
    requires Inv(w) && r in w.runs && MoveOf(move, r) && Act(w, move, r, w.runs[r]) == Some(next) && next.schemas != w.schemas
    ensures Format(TablesOf(w, w.runs[r].schema)) <= REGISTRY_FORMAT_VERSION
    ensures forall s: Schema | s != w.runs[r].schema :: TablesOf(next, s) == TablesOf(w, s)
  {
    hide Inv, Act, Sound, ReadState, Transacts;
    var t := TablesOf(w, w.runs[r].schema);
    WritersAreAt(w, move, r, next);
    ReadsExactly(t);
    if move.Upgrade? {
      UnclaimedReads(w, r);
    } else {
      WritersHaveRegistry(w, r);
    }
  }

  lemma UpgradesRaise(w: World, r: RunId, seen: bool, next: World)
    requires Inv(w) && r in w.runs && Act(w, Upgrade(r, seen), r, w.runs[r]) == Some(next)
    ensures next.schemas != w.schemas ==> Format(TablesOf(next, w.runs[r].schema)) == REGISTRY_FORMAT_VERSION
  {
    hide Inv, Sound, ReadState, CheckProject, UpgradeWrites, Survives, Body, RunPrivately, Registries, MayClaim, Decision,
      VerifyCommands, OwnershipHolds;
    if w.runs[r].pc.Unclaimed? {
      UnclaimedReads(w, r);
      UpgradeKeepsSound(TablesOf(w, w.runs[r].schema), w.runs[r].pc.state, w.runs[r].project);
    }
  }

  /** What a committed transaction leaves is in the current format. */
  lemma CommitsAreCurrent(w: World, r: RunId)
    requires Inv(w) && r in w.runs && Transacts(w.runs[r].pc) && Body(r, w.runs[r]).Some?
    ensures var t, body := TablesOf(w, w.runs[r].schema), Body(r, w.runs[r]).value;
      RunPrivately(t, body).Some? ==> Format(RunPrivately(t, body).value) == REGISTRY_FORMAT_VERSION
  {
    hide Inv, Common, Knows, SoleClaim, Sound, LocksAccounted, View, Body, RunPrivately, Transacts, Grows, Free;
    Here(w, r);
    BodyCommits(TablesOf(w, w.runs[r].schema), r, w.runs[r]);
  }

  lemma ExchangesAreCurrent(w: World, move: Move, r: RunId, next: World)
    requires Inv(w) && r in w.runs && MoveOf(move, r) && move.Exchange? && Act(w, move, r, w.runs[r]) == Some(next)
    ensures var t, after := TablesOf(w, w.runs[r].schema), TablesOf(next, w.runs[r].schema);
      after == t || Format(after) == REGISTRY_FORMAT_VERSION
  {
    hide Inv, Body, RunPrivately, Survives, AfterCommit, AfterFailure, Events, Transact, Registries, ReadState, MayClaim, Decision,
      VerifyCommands, Transacts, OwnershipHolds;
    NextIsAct(w, move, r);
    if Body(r, w.runs[r]).Some? {
      OneExchange(w, r, move);
      CommitsAreCurrent(w, r);
    }
  }

  lemma OthersKeepFormat(w: World, move: Move, r: RunId, next: World)
    requires Inv(w) && r in w.runs && MoveOf(move, r) && !move.Upgrade? && !move.Exchange? && Act(w, move, r, w.runs[r]) == Some(next)
    ensures TablesOf(next, w.runs[r].schema).meta == TablesOf(w, w.runs[r].schema).meta
  {
    hide Inv, Body, RunPrivately, Survives, AfterCommit, AfterFailure, Events, Transact, Registries, ReadState, MayClaim, Decision,
      VerifyCommands, Transacts, OwnershipHolds, CheckProject, WithoutLocksOf, Landed, Verifies;
    var run := w.runs[r];
    if move.Verify? && !move.skipped {
      var script := run.graph.migrations[run.pc.id].verify.value;
      VerifyCommandsLeaveNothing(TablesOf(w, run.schema), r, run.pc.id, script, move.commands);
    }
  }

  lemma ActKeepsFormat(w: World, move: Move, r: RunId, next: World, s: Schema)
    requires Inv(w) && r in w.runs && MoveOf(move, r) && Act(w, move, r, w.runs[r]) == Some(next)
    ensures Format(TablesOf(w, s)) <= Format(TablesOf(next, s))
    ensures Format(TablesOf(w, s)) > REGISTRY_FORMAT_VERSION ==> TablesOf(next, s) == TablesOf(w, s)
  {
    hide Inv, Act;
    if next.schemas != w.schemas {
      WritersRead(w, move, r, next);
      if move.Upgrade? {
        UpgradesRaise(w, r, move.seen, next);
      } else if move.Exchange? {
        ExchangesAreCurrent(w, move, r, next);
      } else {
        OthersKeepFormat(w, move, r, next);
      }
    }
  }

  /** No move lowers the format of a registry, and none but a statement that lands late changes one in a
      format above this release's. */
  lemma FormatsNeverDrop(w: World, move: Move, next: World, s: Schema)
    requires Reachable(w) && Next(w, move) == Some(next)
    ensures Format(TablesOf(w, s)) <= Format(TablesOf(next, s))
    ensures Format(TablesOf(w, s)) > 3 && !move.Land? ==> TablesOf(next, s) == TablesOf(w, s)
  {
    hide Inv, Reachable, Act, DropsSession, Unused, Admitted;
    ReachableIsSafe(w);
    if !move.Start? && !move.Land? && !move.Vanish? {
      ActKeepsFormat(w, move, move.r, next, s);
    }
  }

  // ----- A registry of a newer release -----

  /** Nothing a run does puts a statement in flight for a schema it could not read. */
  lemma SendersOwn(w: World, r: RunId)
    requires Inv(w) && r in w.runs && w.runs[r].pc.Sending?
    ensures Format(TablesOf(w, w.runs[r].schema)) == REGISTRY_FORMAT_VERSION
  {
    hide Inv, ReadState;
    WritersHaveRegistry(w, r);
  }

  predicate NoFlights(w: World, s: Schema) {
    forall f | f in w.inFlight :: f.schema != s
  }

  lemma FlightsOf(w: World, move: Move, r: RunId, next: World, s: Schema)
    requires r in w.runs && MoveOf(move, r) && Act(w, move, r, w.runs[r]) == Some(next) && NoFlights(w, s)
    ensures NoFlights(next, s) || (move.Send? && w.runs[r].pc.Sending? && w.runs[r].schema == s)
  {
    hide Survives, Body, RunPrivately, Transact, ReadState, MayClaim, OwnershipHolds, VerifyCommands, Decision, WithEvent, WithSent,
      AfterCommit, AfterFailure, Registries, Landed, WithoutLocksOf, Events, Transacts, UpgradeWrites, CheckProject;
  }

  lemma NewerStays(w: World, move: Move, next: World, s: Schema)
    requires Inv(w) && Next(w, move) == Some(next) && Format(TablesOf(w, s)) > REGISTRY_FORMAT_VERSION && NoFlights(w, s)
    ensures TablesOf(next, s) == TablesOf(w, s) && NoFlights(next, s)
  {
    hide Inv, Act, DropsSession, Unused, Admitted;
    if !move.Start? && !move.Land? && !move.Vanish? {
      ActKeepsFormat(w, move, move.r, next, s);
      FlightsOf(w, move, move.r, next, s);
      if !NoFlights(next, s) {
        SendersOwn(w, move.r);
      }
    }
  }

  lemma {:induction false} NewerStaysThrough(w: World, moves: seq<Move>, last: World, s: Schema)
    requires Inv(w) && Trace(w, moves) == Some(last) && Format(TablesOf(w, s)) > REGISTRY_FORMAT_VERSION && NoFlights(w, s)
    ensures TablesOf(last, s) == TablesOf(w, s)
    decreases |moves|
  {
    hide Inv, Next, Format, NoFlights;
    if moves != [] {
      var next := Next(w, moves[0]).value;
      NextKeeps(w, moves[0], next);
      NewerStays(w, moves[0], next, s);
      NewerStaysThrough(next, moves[1..], last, s);
    }
  }

  /** A registry found in a format above this release's is left exactly as it was, whatever any number of
      runs attempt. */
  lemma NewerIsUntouched(start: World, moves: seq<Move>, last: World, s: Schema)
    requires Founded(start) && Trace(start, moves) == Some(last)
    requires TablesOf(start, s).meta.Some? && TablesOf(start, s).meta.value.version > 3
    ensures TablesOf(last, s) == TablesOf(start, s)
  {
    hide Inv, Founded, Trace;
    FoundedIsSafe(start);
    FoundedIsIdle(start);
    NewerStaysThrough(start, moves, last, s);
  }
}
