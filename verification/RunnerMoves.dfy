/** The runner and the protocol agree: what a runner's transaction can leave behind is exactly what the
    protocol's move can leave behind. */
module RunnerMoves {
  import opened Collections
  import opened DependencyOrder
  import opened Migrations
  import opened Lint
  import opened Graphs
  import opened History
  import opened Ledger
  import opened Registry
  import opened Rehash
  import opened Transactions
  import opened Runners
  import opened Protocol
  import opened ProtocolInvariant
  import opened ProtocolSteps
  import opened ProtocolSafety
  import opened ProtocolWrites
  import opened ProtocolTheorems
  import opened ProtocolLiveness

  /** Some way of making the run's next transaction leaves `after` in its schema. */
  ghost predicate CanLeave(w: World, r: RunId, after: Tables) {
    r in w.runs && exists move: Move ::
      move.Exchange? && move.r == r && Next(w, move).Some? && TablesOf(Next(w, move).value, w.runs[r].schema) == after
  }

  /** The tables a transaction can end in: as they were, or with all of it. */
  predicate MayEnd(t: Tables, body: seq<Command>, after: Tables) {
    after == t || RunPrivately(t, body) == Some(after)
  }

  lemma ExchangeLeaves(w: World, r: RunId, commands: nat, seen: bool)
    requires r in w.runs && Transacts(w.runs[r].pc) && Body(r, w.runs[r]).Some? && commands <= |Body(r, w.runs[r]).value| + 2
    requires forall c | c in Body(r, w.runs[r]).value :: Private(c)
    ensures var t, body := TablesOf(w, w.runs[r].schema), Body(r, w.runs[r]).value;
      var next := Next(w, Exchange(r, commands, 0, seen));
      && next.Some?
      && TablesOf(next.value, w.runs[r].schema) ==
           if commands == |body| + 2 && RunPrivately(t, body).Some? then RunPrivately(t, body).value else t
  {
    hide Body, RunPrivately, Survives, AfterCommit, AfterFailure, Events, Transact, Registries, ReadState, MayClaim,
      Decision, VerifyCommands;
    AllOrNothing(TablesOf(w, w.runs[r].schema), Body(r, w.runs[r]).value, commands);
  }

  /** Every end of the transaction, and nothing else, is left by some move. */
  lemma MoveLeaves(w: World, r: RunId, after: Tables)
    requires Inv(w) && r in w.runs && Transacts(w.runs[r].pc) && Body(r, w.runs[r]).Some?
    ensures CanLeave(w, r, after) <==> MayEnd(TablesOf(w, w.runs[r].schema), Body(r, w.runs[r]).value, after)
  {
    hide Inv, Next, Body, RunPrivately;
    var body := Body(r, w.runs[r]).value;
    BodyIsPrivate(w, r);
    ExchangeLeaves(w, r, 0, false);
    ExchangeLeaves(w, r, |body| + 2, true);
    assert Exchange(r, 0, 0, false).Exchange? && Exchange(r, |body| + 2, 0, true).Exchange?;
    forall move: Move | move.Exchange? && move.r == r && Next(w, move).Some?
      ensures MayEnd(TablesOf(w, w.runs[r].schema), body, TablesOf(Next(w, move).value, w.runs[r].schema))
    {
      OneExchange(w, r, move);
    }
  }

  lemma OneExchange(w: World, r: RunId, move: Move)
    requires Inv(w) && r in w.runs && Transacts(w.runs[r].pc) && Body(r, w.runs[r]).Some?
    requires move.Exchange? && move.r == r && Next(w, move).Some?
    ensures MayEnd(TablesOf(w, w.runs[r].schema), Body(r, w.runs[r]).value, TablesOf(Next(w, move).value, w.runs[r].schema))
  {
    hide Inv, Body, RunPrivately, Survives, AfterCommit, AfterFailure, Events, Transact, Registries, ReadState,
      MayClaim, Decision,
      VerifyCommands, Transacts;
    BodyIsPrivate(w, r);
    AllOrNothing(TablesOf(w, w.runs[r].schema), Body(r, w.runs[r]).value, move.commands);
  }

  /** A check made beforehand stops it: nothing is left behind. */
  lemma UnstartedLeaves(w: World, r: RunId, after: Tables)
    requires r in w.runs && Transacts(w.runs[r].pc) && Body(r, w.runs[r]).None?
    ensures CanLeave(w, r, after) <==> after == TablesOf(w, w.runs[r].schema)
  {
    hide Body, RunPrivately, Survives, AfterCommit, AfterFailure, Events, Transact, Registries, ReadState, MayClaim,
      Decision, VerifyCommands, Transacts;
    assert Next(w, Exchange(r, 0, 0, false)).Some? && Exchange(r, 0, 0, false).Exchange?;
  }

  /** `Runner.DeployInner` leaves what the deploy move leaves: the whole deploy is possible exactly when
      the source can be hashed, the guard lets the script through and PostgreSQL runs it in a
      transaction. */
  lemma DeployIsTheMove(w: World, r: RunId, after: Tables)
    requires Inv(w) && r in w.runs && w.runs[r].pc.Deploying? && w.runs[r].pc.pending != []
    requires At(w.runs[r]).Some? ==> At(w.runs[r]).value.manifest.transaction == Required
    ensures At(w.runs[r]).Some?
    ensures var run, t, m := w.runs[r], TablesOf(w, w.runs[r].schema), At(w.runs[r]).value;
      CanLeave(w, r, after) <==>
        after == t
        || (StructuralDigest(m).Some? && RunsWhole(m.deploy)
            && after == Deployed(t, r, run.sequence + 1, m, StructuralDigest(m).value))
  {
    hide Inv, CanLeave, RunPrivately, Deployed, StructuralDigest, AllOrdinary, Free, Linked;
    var run, t := w.runs[r], TablesOf(w, w.runs[r].schema);
    AtPending(w, r, run.pc.pending);
    var m := At(run).value;
    if Body(r, run).None? {
      UnstartedLeaves(w, r, after);
    } else {
      DeployBodyRuns(t, r, run.sequence + 1, m, StructuralDigest(m).value);
      MoveLeaves(w, r, after);
    }
  }

  lemma NumbersAreFree(w: World, r: RunId)
    requires Inv(w) && r in w.runs
    ensures Free(TablesOf(w, w.runs[r].schema), r, w.runs[r].sequence + 1)
  {
    hide Inv, Common, Knows, SoleClaim, LocksAccounted, Sound, Below;
    Here(w, r);
    CommonMeans(TablesOf(w, w.runs[r].schema), r, w.runs[r]);
  }

  /** `Runner.RevertInner` leaves what the revert move leaves. */
  lemma RevertIsTheMove(w: World, r: RunId, after: Tables)
    requires Inv(w) && r in w.runs && w.runs[r].pc.Reverting?
    ensures var run, t := w.runs[r], TablesOf(w, w.runs[r].schema);
      CanLeave(w, r, after) <==>
        after == t
        || (At(run).Some? && At(run).value.revert.Some? && RunsWhole(At(run).value.revert.value)
            && after == Reverted(t, r, run.sequence + 1, run.pc.id, At(run).value.revert.value))
  {
    hide Inv, CanLeave, RunPrivately, Reverted, AllOrdinary, Free;
    var run, t := w.runs[r], TablesOf(w, w.runs[r].schema);
    if Body(r, run).None? {
      UnstartedLeaves(w, r, after);
    } else {
      NumbersAreFree(w, r);
      RevertBodyRuns(t, r, run.sequence + 1, run.pc.id, At(run).value.revert.value);
      MoveLeaves(w, r, after);
    }
  }

  /** `RecordAttempt`, `FinishAttempt`, `Resolve` and `Baseline` leave what their moves leave. */
  lemma WritesAreTheMove(w: World, r: RunId, after: Tables, writes: seq<Write>)
    requires Inv(w) && r in w.runs && Transacts(w.runs[r].pc) && Body(r, w.runs[r]) == Some(DoAll(writes))
    ensures CanLeave(w, r, after) <==>
      after == TablesOf(w, w.runs[r].schema) || Transact(TablesOf(w, w.runs[r].schema), writes) == Some(after)
  {
    hide Inv, CanLeave, RunPrivately, Transact, Body;
    DoAllRuns(TablesOf(w, w.runs[r].schema), writes);
    MoveLeaves(w, r, after);
  }

  /** `Rehash` leaves what its move leaves. */
  lemma RehashIsTheMove(w: World, r: RunId, after: Tables)
    requires Inv(w) && r in w.runs && w.runs[r].pc.Rehashing? && w.runs[r].job.RehashJob?
    ensures AllComplete(w.runs[r].pc.plan)
    ensures var run, t := w.runs[r], TablesOf(w, w.runs[r].schema);
      CanLeave(w, r, after) <==>
        after == t || Runners.RehashCommits(t, after, run.graph, run.pc.state, run.project, run.job.acceptCurrent, r, run.job.reason)
  {
    hide Inv, CanLeave, RunPrivately, Transact, MakeRehashPlan, Validate, UpgradeWrites, RehashWrites;
    var run, t := w.runs[r], TablesOf(w, w.runs[r].schema);
    RehashingIsPlanned(w, r);
    WritesAreTheMove(w, r, after, UpgradeWrites(run.pc.state, run.project) + RehashWrites(run.pc.plan, r, run.job.reason));
  }

  lemma RehashingIsPlanned(w: World, r: RunId)
    requires Inv(w) && r in w.runs && w.runs[r].pc.Rehashing? && w.runs[r].job.RehashJob?
    ensures Planned(w.runs[r].graph, w.runs[r].pc.state, w.runs[r].job.acceptCurrent, w.runs[r].pc.plan)
    ensures AllComplete(w.runs[r].pc.plan)
  {
    hide Inv, Common, SoleClaim, LocksAccounted, Sound, MakeRehashPlan, Validate, Fits;
    Here(w, r);
    ValidatedPlan(w.runs[r].graph, w.runs[r].pc.state, w.runs[r].job.acceptCurrent);
    FitsIsComplete(w.runs[r].pc.state.applied, w.runs[r].pc.plan);
  }

  lemma FitsIsComplete(applied: AppliedRows, plan: seq<RehashEntry>)
    requires Fits(applied, plan)
    ensures AllComplete(plan)
  {
  }

  // ----- Verifying and reporting -----

  /** `Runner.Verify` leaves what a verification that is not skipped leaves. */
  lemma VerifyIsTheMove(w: World, r: RunId, script: Script, after: Tables)
    requires r in w.runs && w.runs[r].pc.Verifying? && w.runs[r].pc.id in w.runs[r].graph.migrations
    requires w.runs[r].graph.migrations[w.runs[r].pc.id].verify == Some(script)
    ensures VerifyEnds(TablesOf(w, w.runs[r].schema), after, r, w.runs[r].sequence + 1, w.runs[r].pc.id, script) <==>
      exists move: Move :: move.Verify? && move.r == r && !move.skipped && Next(w, move).Some?
        && TablesOf(Next(w, move).value, w.runs[r].schema) == after
  {
    hide Next, Verifies;
    var run, t := w.runs[r], TablesOf(w, w.runs[r].schema);
    var id, n := run.pc.id, |VerifyCommands(r, run.pc.id, script)|;
    VerifyMove(w, r, script, 0, false, false);
    VerifyMove(w, r, script, 0, false, true);
    VerifyMove(w, r, script, n, true, true);
    forall move: Move | move.Verify? && move.r == r && !move.skipped && Next(w, move).Some?
      ensures VerifyEnds(t, TablesOf(Next(w, move).value, run.schema), r, run.sequence + 1, id, script)
    {
      VerifyMove(w, r, script, move.commands, move.passed, move.written);
    }
    if VerifyEnds(t, after, r, run.sequence + 1, id, script) {
      var move := if after == t then Move.Verify(r, false, 0, false, false)
        else if after == WithEvent(t, VerifyEvent(r, run.sequence + 1, id, script, Outcome.Failed)) then Move.Verify(r, false, 0, false, true)
        else Move.Verify(r, false, n, true, true);
      assert move.Verify? && Next(w, move).Some? && TablesOf(Next(w, move).value, run.schema) == after;
    }
  }

  lemma VerifyMove(w: World, r: RunId, script: Script, commands: nat, passed: bool, written: bool)
    requires r in w.runs && w.runs[r].pc.Verifying? && w.runs[r].pc.id in w.runs[r].graph.migrations
    requires w.runs[r].graph.migrations[w.runs[r].pc.id].verify == Some(script)
    ensures var run, t := w.runs[r], TablesOf(w, w.runs[r].schema);
      var next := Next(w, Move.Verify(r, false, commands, passed, written));
      var program := VerifyCommands(r, run.pc.id, script);
      && (next.Some? <==> commands <= |program| && (passed ==> commands == |program| && Verifies(script)))
      && (next.Some? ==> TablesOf(next.value, run.schema) == if written
            then WithEvent(t, VerifyEvent(r, run.sequence + 1, run.pc.id, script, if passed then Succeeded else Outcome.Failed)) else t)
  {
    hide Survives, VerifyCommands, WithEvent, Verifies, Body, RunPrivately, Transact, Registries, ReadState, MayClaim, Decision,
      OwnershipHolds;
    if commands <= |VerifyCommands(r, w.runs[r].pc.id, script)| {
      VerifyCommandsLeaveNothing(TablesOf(w, w.runs[r].schema), r, w.runs[r].pc.id, script, commands);
    }
  }

  /** `Runner.Record` leaves what reporting leaves. */
  lemma ReportIsTheMove(w: World, r: RunId, after: Tables)
    requires r in w.runs && w.runs[r].pc.Reporting?
    ensures var run, t := w.runs[r], TablesOf(w, w.runs[r].schema);
      (after == t || after == WithEvent(t, EventFrom(r, run.sequence + 1, run.pc.notice))) <==>
        exists written :: Next(w, Report(r, written)).Some? && TablesOf(Next(w, Report(r, written)).value, run.schema) == after
  {
    hide WithEvent, Survives, Body, RunPrivately, Transact, Registries, ReadState, MayClaim, Decision, VerifyCommands, OwnershipHolds;
    assert TablesOf(Next(w, Report(r, false)).value, w.runs[r].schema) == TablesOf(w, w.runs[r].schema);
    assert TablesOf(Next(w, Report(r, true)).value, w.runs[r].schema)
        == WithEvent(TablesOf(w, w.runs[r].schema), EventFrom(r, w.runs[r].sequence + 1, w.runs[r].pc.notice));
  }

  // ----- A nontransactional statement -----

  lemma SentMove(w: World, r: RunId) returns (next: World)
    requires Inv(w) && r in w.runs && w.runs[r].pc.Sending?
    ensures Next(w, Send(r)) == Some(next) && Inv(next)
    ensures next.runs == w.runs[r := w.runs[r].(pc := Waiting(w.runs[r].pc.id, w.runs[r].pc.rest))]
    ensures TablesOf(next, w.runs[r].schema) == WithSent(TablesOf(w, w.runs[r].schema), r, w.runs[r].pc.id)
    ensures Flight(w.runs[r].schema, r, w.runs[r].pc.id) in next.inFlight
  {
    hide Inv, Survives, Body, RunPrivately, Transact, Registries, ReadState, MayClaim, Decision, VerifyCommands, OwnershipHolds;
    next := Next(w, Send(r)).value;
    NextKeeps(w, Send(r), next);
  }

  lemma LandMove(w: World, f: Flight) returns (next: World)
    requires Inv(w) && f in w.inFlight
    ensures Next(w, Land(f)) == Some(next) && Inv(next)
    ensures next.runs == w.runs && TablesOf(next, f.schema) == WithLanded(TablesOf(w, f.schema), f.run, f.id)
  {
    hide Inv, DropsSession, Act;
    next := Next(w, Land(f)).value;
    NextKeeps(w, Land(f), next);
  }

  /** The notice a run reports when its statement did not go through. */
  function NoticeOf(run: Run, outcome: Outcome): Notice
    requires run.pc.Waiting? && run.pc.id in run.graph.migrations
  {
    Notice(run.pc.id, Action.Deploy, outcome, Forbidden, Some(run.graph.migrations[run.pc.id].deploy))
  }

  /** Hearing of no success, and saying so. */
  lemma ReportsOutcome(w: World, r: RunId, answer: Answer) returns (later: World)
    requires r in w.runs && w.runs[r].pc.Waiting? && w.runs[r].pc.id in w.runs[r].graph.migrations && answer != Succeeds
    requires answer == IsRefused ==> Flight(w.runs[r].schema, r, w.runs[r].pc.id) !in w.inFlight
    ensures Leads(w, later)
    ensures TablesOf(later, w.runs[r].schema) == WithEvent(TablesOf(w, w.runs[r].schema),
      EventFrom(r, w.runs[r].sequence + 1, NoticeOf(w.runs[r], if answer == IsRefused then Outcome.Failed else Outcome.Unknown)))
  {
    hide Leads, Trace, WithEvent, Landed, Survives, Body, RunPrivately, Transact, Registries, ReadState, MayClaim, Decision,
      VerifyCommands, OwnershipHolds;
    var notice := NoticeOf(w.runs[r], if answer == IsRefused then Outcome.Failed else Outcome.Unknown);
    var heard := Put(w, r, w.runs[r].(pc := Reporting(notice)));
    assert Next(w, Hear(r, answer)) == Some(heard);
    later := Next(heard, Report(r, true)).value;
    LeadsAtOnce(later);
    LeadsAfter(heard, Report(r, true), later, later);
    LeadsAfter(w, Hear(r, answer), heard, later);
  }

  /** The same, once the server has let go of the statement without carrying it out. */
  lemma ReportsRefusal(w: World, r: RunId) returns (later: World)
    requires r in w.runs && w.runs[r].pc.Waiting? && w.runs[r].pc.id in w.runs[r].graph.migrations
    requires Flight(w.runs[r].schema, r, w.runs[r].pc.id) in w.inFlight
    ensures Leads(w, later)
    ensures TablesOf(later, w.runs[r].schema) == WithEvent(TablesOf(w, w.runs[r].schema),
      EventFrom(r, w.runs[r].sequence + 1, NoticeOf(w.runs[r], Outcome.Failed)))
  {
    hide Leads, Trace, WithEvent, Survives, Body, RunPrivately, Transact, Registries, ReadState, MayClaim, Decision, VerifyCommands,
      OwnershipHolds;
    var f := Flight(w.runs[r].schema, r, w.runs[r].pc.id);
    var gone := w.(inFlight := w.inFlight - {f});
    later := ReportsOutcome(gone, r, IsRefused);
    LeadsAfter(w, Vanish(f), gone, later);
  }

  /** Hearing of the success and recording it. */
  lemma RecordsCompletion(w: World, r: RunId, id: Id, rest: seq<Id>, m: Migration, digest: Digest) returns (later: World)
    requires Inv(w) && r in w.runs && w.runs[r].pc == Waiting(id, rest) && Landed(TablesOf(w, w.runs[r].schema).log, r, id)
    requires id in w.runs[r].graph.migrations && w.runs[r].graph.migrations[id] == m && StructuralDigest(m) == Some(digest)
    ensures Leads(w, later)
    ensures TablesOf(later, w.runs[r].schema) == Finished(TablesOf(w, w.runs[r].schema), r, w.runs[r].sequence + 1, m, digest)
  {
    hide Inv, Leads, Next, Transact, RunPrivately, Finished, Free, Landed, StructuralDigest;
    var heard := Hears(w, r, id, rest);
    var run, t := heard.runs[r], TablesOf(w, w.runs[r].schema);
    NamedWhileWaiting(heard, r);
    DoAllRuns(t, FinishWrites(r, run.sequence + 1, m, digest));
    FinishTransacts(t, r, run.sequence + 1, m, digest);
    later := CommitsWhole(heard, r);
    LeadsAtOnce(later);
    LeadsAfter(heard, Exchange(r, |Body(r, run).value| + 2, 0, true), later, later);
    LeadsAfter(w, Hear(r, Succeeds), heard, later);
  }

  /** The source a run is sending from. */
  lemma SendingFrom(w: World, r: RunId)
    requires Inv(w) && r in w.runs && w.runs[r].pc.Sending?
    ensures w.runs[r].pc.id in w.runs[r].graph.migrations && StructuralDigest(w.runs[r].graph.migrations[w.runs[r].pc.id]).Some?
    ensures w.runs[r].graph.migrations[w.runs[r].pc.id].manifest.id == w.runs[r].pc.id
  {
    hide Inv, Common, SoleClaim, Sound, LocksAccounted, Deployable, OwnAttempt, Linked, Below, StructuralDigest;
    Here(w, r);
    CommonMeans(TablesOf(w, w.runs[r].schema), r, w.runs[r]);
    IdOfItself(w.runs[r].graph, w.runs[r].pc.id);
  }

  /** Once sent: whatever `Runner.RunAttempt` can leave, some history of this run's moves and its
      statement's landing leaves. */
  lemma SentEnds(w: World, r: RunId, m: Migration, digest: Digest, before: Tables, alive: bool, verdict: Verdict, after: Tables)
      returns (later: World)
    requires Inv(w) && r in w.runs && w.runs[r].pc.Waiting?
    requires w.runs[r].pc.id in w.runs[r].graph.migrations && w.runs[r].graph.migrations[w.runs[r].pc.id] == m
    requires m.manifest.id == w.runs[r].pc.id && StructuralDigest(m) == Some(digest)
    requires Flight(w.runs[r].schema, r, w.runs[r].pc.id) in w.inFlight
    requires TablesOf(w, w.runs[r].schema) == WithSent(before, r, m.manifest.id) && after != before
    requires StatementEnds(before, after, alive, verdict, r, w.runs[r].sequence + 1, m, digest)
    ensures Leads(w, later) && TablesOf(later, w.runs[r].schema) == after
  {
    hide Inv, Leads, Next, WithEvent, Finished, WithSent, WithLanded, StructuralDigest;
    var run, n := w.runs[r], w.runs[r].sequence + 1;
    var sent := TablesOf(w, run.schema);
    if after == sent {
      later := w;
      LeadsAtOnce(w);
    } else if after == WithEvent(sent, StatementEvent(r, n, m, Outcome.Failed)) {
      later := ReportsRefusal(w, r);
    } else if after == WithEvent(sent, StatementEvent(r, n, m, Outcome.Unknown)) {
      later := ReportsOutcome(w, r, IsLost);
    } else {
      later := LandedEnds(w, r, m, digest, after);
    }
  }

  lemma LandedEnds(w: World, r: RunId, m: Migration, digest: Digest, after: Tables) returns (later: World)
    requires Inv(w) && r in w.runs && w.runs[r].pc.Waiting?
    requires w.runs[r].pc.id in w.runs[r].graph.migrations && w.runs[r].graph.migrations[w.runs[r].pc.id] == m
    requires m.manifest.id == w.runs[r].pc.id && StructuralDigest(m) == Some(digest)
    requires Flight(w.runs[r].schema, r, w.runs[r].pc.id) in w.inFlight
    requires var n, landed := w.runs[r].sequence + 1, WithLanded(TablesOf(w, w.runs[r].schema), r, m.manifest.id);
      after == landed || after == WithEvent(landed, StatementEvent(r, n, m, Outcome.Unknown)) || after == Finished(landed, r, n, m, digest)
    ensures Leads(w, later) && TablesOf(later, w.runs[r].schema) == after
  {
    hide Inv, Leads, Next, WithEvent, Finished, WithLanded, StructuralDigest, Landed;
    var run, f := w.runs[r], Flight(w.runs[r].schema, r, w.runs[r].pc.id);
    var landed := LandMove(w, f);
    if after == TablesOf(landed, run.schema) {
      later := landed;
      LeadsAtOnce(landed);
    } else if after == WithEvent(TablesOf(landed, run.schema), StatementEvent(r, run.sequence + 1, m, Outcome.Unknown)) {
      later := ReportsOutcome(landed, r, IsLost);
    } else {
      LandedShows(TablesOf(w, run.schema), r, run.pc.id);
      later := RecordsCompletion(landed, r, run.pc.id, run.pc.rest, m, digest);
    }
    LeadsAfter(w, Land(f), landed, later);
  }

  lemma LandedShows(t: Tables, r: RunId, id: Id)
    ensures Landed(WithLanded(t, r, id).log, r, id)
  {
    assert Last(WithLanded(t, r, id).log) == Done(Effect(r, id, Standalone, 0));
  }

  /** Everything `Runner.RunAttempt` can leave behind is left by some history of the protocol: the
      statement sent or not, carried out or not, heard of or not, recorded or not. */
  lemma StatementIsInTheMoves(w: World, r: RunId, alive: bool, verdict: Verdict, after: Tables) returns (later: World)
    requires Inv(w) && r in w.runs && w.runs[r].pc.Sending? && w.runs[r].pc.id in w.runs[r].graph.migrations
    requires StructuralDigest(w.runs[r].graph.migrations[w.runs[r].pc.id]).Some?
    requires var run, m := w.runs[r], w.runs[r].graph.migrations[w.runs[r].pc.id];
      StatementEnds(TablesOf(w, run.schema), after, alive, verdict, r, run.sequence + 1, m, StructuralDigest(m).value)
    ensures Leads(w, later) && TablesOf(later, w.runs[r].schema) == after
  {
    hide Inv, Leads, Next, StatementEnds, WithSent, StructuralDigest;
    SendingFrom(w, r);
    if after == TablesOf(w, w.runs[r].schema) {
      later := w;
      LeadsAtOnce(w);
    } else {
      var m := w.runs[r].graph.migrations[w.runs[r].pc.id];
      var sent := SentMove(w, r);
      later := SentEnds(sent, r, m, StructuralDigest(m).value, TablesOf(w, w.runs[r].schema), alive, verdict, after);
      LeadsAfter(w, Send(r), sent, later);
    }
  }

  // ----- Failures -----

  /** A transaction that does not go through, and the report of it. */
  lemma FailsAndReports(w: World, r: RunId, burned: nat, notice: Notice) returns (later: World)
    requires Inv(w) && r in w.runs && Transacts(w.runs[r].pc) && AfterFailure(w.runs[r]) == Reporting(notice)
    requires burned <= Events(w.runs[r]) && (Body(r, w.runs[r]).None? ==> burned == 0)
    ensures Leads(w, later)
    ensures TablesOf(later, w.runs[r].schema) ==
            WithEvent(TablesOf(w, w.runs[r].schema), EventFrom(r, w.runs[r].sequence + burned + 1, notice))
  {
    hide Inv, Leads, Trace, WithEvent, Body, RunPrivately, Survives, AfterCommit, AfterFailure, Events, Transact, Registries, ReadState,
      MayClaim, Decision, VerifyCommands, Transacts, OwnershipHolds;
    var run, t := w.runs[r], TablesOf(w, w.runs[r].schema);
    if Body(r, run).Some? {
      BodyIsPrivate(w, r);
      AllOrNothing(t, Body(r, run).value, 0);
    }
    var failed := Next(w, Exchange(r, 0, burned, false)).value;
    assert failed.runs[r] == run.(sequence := run.sequence + burned, pc := Reporting(notice)) && TablesOf(failed, run.schema) == t;
    later := Reports(failed, r, notice);
    LeadsAfter(w, Exchange(r, 0, burned, false), failed, later);
  }

  lemma Reports(w: World, r: RunId, notice: Notice) returns (later: World)
    requires r in w.runs && w.runs[r].pc == Reporting(notice)
    ensures Leads(w, later)
    ensures TablesOf(later, w.runs[r].schema) == WithEvent(TablesOf(w, w.runs[r].schema), EventFrom(r, w.runs[r].sequence + 1, notice))
  {
    hide Leads, Trace, WithEvent, Survives, Body, RunPrivately, Transact, Registries, ReadState, MayClaim, Decision, VerifyCommands,
      OwnershipHolds;
    later := Next(w, Report(r, true)).value;
    LeadsAtOnce(later);
    LeadsAfter(w, Report(r, true), later, later);
  }

  /** Everything `Runner.Deploy` can leave behind, the failure event included, is left by some history of
      the protocol. The event takes the next number, or the one after it when the transaction had got as
      far as numbering its own. */
  lemma DeployIsInTheMoves(w: World, r: RunId, alive: bool, k: nat, after: Tables) returns (later: World)
    requires Inv(w) && r in w.runs && w.runs[r].pc.Deploying? && w.runs[r].pc.pending != [] && At(w.runs[r]).Some?
    requires At(w.runs[r]).value.manifest.transaction == Required && StructuralDigest(At(w.runs[r]).value).Some?
    requires var run, t, m := w.runs[r], TablesOf(w, w.runs[r].schema), At(w.runs[r]).value;
      var committed := Deployed(t, r, run.sequence + 1, m, StructuralDigest(m).value);
      && FailedLeaves(t, after, alive, DeployEvent(r, k, m, Outcome.Failed), committed)
      && (after == committed ==> RunsWhole(m.deploy))
      && (k == run.sequence + 1 || (k == run.sequence + 2 && EnsureRunnerOwnsTransaction(m.deploy).Ok?))
    ensures Leads(w, later) && TablesOf(later, w.runs[r].schema) == after
  {
    hide Inv, Leads, Next, WithEvent, Deployed, StructuralDigest, AllOrdinary, Linked, RunPrivately;
    var run, t, m := w.runs[r], TablesOf(w, w.runs[r].schema), At(w.runs[r]).value;
    AtPending(w, r, run.pc.pending);
    if after == t {
      later := w;
      LeadsAtOnce(w);
    } else if after == WithEvent(t, DeployEvent(r, k, m, Outcome.Failed)) {
      later := FailsAndReports(w, r, k - run.sequence - 1, Notice(m.manifest.id, Action.Deploy, Outcome.Failed, Required, Some(m.deploy)));
    } else {
      DeployIsTheMove(w, r, after);
      later := LeavesByMove(w, r, after);
    }
  }

  lemma LeavesByMove(w: World, r: RunId, after: Tables) returns (later: World)
    requires CanLeave(w, r, after)
    ensures Leads(w, later) && TablesOf(later, w.runs[r].schema) == after
  {
    hide Next, Leads, Trace;
    var move: Move :| move.Exchange? && move.r == r && Next(w, move).Some? && TablesOf(Next(w, move).value, w.runs[r].schema) == after;
    later := Next(w, move).value;
    LeadsAtOnce(later);
    LeadsAfter(w, move, later, later);
  }

  /** The same for `Runner.Revert`. */
  lemma RevertIsInTheMoves(w: World, r: RunId, script: Script, alive: bool, k: nat, after: Tables) returns (later: World)
    requires Inv(w) && r in w.runs && w.runs[r].pc.Reverting? && At(w.runs[r]).Some? && At(w.runs[r]).value.revert == Some(script)
    requires var run, t := w.runs[r], TablesOf(w, w.runs[r].schema);
      var committed := Reverted(t, r, run.sequence + 1, run.pc.id, script);
      && FailedLeaves(t, after, alive, EventRow(r, k, run.pc.id, Action.Revert, Outcome.Failed, Required, Some(script)), committed)
      && (after == committed ==> RunsWhole(script))
      && (k == run.sequence + 1 || (k == run.sequence + 2 && EnsureRunnerOwnsTransaction(script).Ok?))
    ensures Leads(w, later) && TablesOf(later, w.runs[r].schema) == after
  {
    hide Inv, Leads, Next, WithEvent, Reverted, AllOrdinary, RunPrivately;
    var run, t := w.runs[r], TablesOf(w, w.runs[r].schema);
    if after == t {
      later := w;
      LeadsAtOnce(w);
    } else if after == WithEvent(t, EventRow(r, k, run.pc.id, Action.Revert, Outcome.Failed, Required, Some(script))) {
      later := FailsAndReports(w, r, k - run.sequence - 1, Notice(run.pc.id, Action.Revert, Outcome.Failed, Required, Some(script)));
    } else {
      RevertIsTheMove(w, r, after);
      later := LeavesByMove(w, r, after);
    }
  }

  /** After a verification a deploy goes on exactly when its success is on record, as the deploy loop
      does; otherwise it ends. */
  lemma VerificationDecides(w: World, r: RunId, script: Script, commands: nat, passed: bool, written: bool, next: World)
    requires r in w.runs && w.runs[r].pc.Verifying? && w.runs[r].pc.id in w.runs[r].graph.migrations
    requires w.runs[r].graph.migrations[w.runs[r].pc.id].verify == Some(script)
    requires Next(w, Move.Verify(r, false, commands, passed, written)) == Some(next)
    ensures var run, t := w.runs[r], TablesOf(w, w.runs[r].schema);
      r in next.runs && next.runs[r].pc ==
        if TablesOf(next, run.schema) == WithEvent(t, VerifyEvent(r, run.sequence + 1, run.pc.id, script, Succeeded))
        then Deploying(run.pc.rest) else Ending
  {
    VerifyMove(w, r, script, commands, passed, written);
    hide Survives, VerifyCommands, Verifies, Body, RunPrivately, Transact, Registries, ReadState, MayClaim, Decision, OwnershipHolds;
    EventsDiffer(TablesOf(w, w.runs[r].schema), VerifyEvent(r, w.runs[r].sequence + 1, w.runs[r].pc.id, script, Succeeded),
      VerifyEvent(r, w.runs[r].sequence + 1, w.runs[r].pc.id, script, Outcome.Failed));
  }

  lemma EventsDiffer(t: Tables, a: EventRow, b: EventRow)
    requires a != b
    ensures WithEvent(t, a) != WithEvent(t, b) && WithEvent(t, a) != t
  {
    assert Last(WithEvent(t, a).log) != Last(WithEvent(t, b).log);
    assert |WithEvent(t, a).log| > |t.log|;
  }
}
