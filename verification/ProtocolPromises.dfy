/** The promises, stated of every reachable database. */
module ProtocolPromises {
  import opened Collections
  import opened DependencyOrder
  import opened Migrations
  import opened Lint
  import opened Graphs
  import opened History
  import opened Ledger
  import opened Registry
  import opened Rehash
  import opened Transactions
  import opened Protocol
  import opened ProtocolInvariant
  import opened ProtocolSteps
  import opened ProtocolSafety
  import opened ProtocolWrites
  import opened ProtocolTheorems
  import opened ProtocolProgress

  lemma ReachableTables(w: World, s: Schema)
    requires Reachable(w)
    ensures Sound(TablesOf(w, s))
  {
    hide Sound, View, LocksAccounted, Tracked, Trace;
    ReachableIsSafe(w);
  }

  /** The applied set is closed under the recorded dependencies, and so is it once any unresolved
      attempt is counted in. */
  lemma DependenciesStayApplied(w: World, s: Schema)
    requires Reachable(w)
    ensures RowsClosed(TablesOf(w, s)) && AttemptsReady(TablesOf(w, s))
  {
    hide Reachable;
    ReachableTables(w, s);
  }

  /** Replaying the log in commit order gives exactly what is applied and what is unresolved. */
  lemma LogExplainsTables(w: World, s: Schema)
    requires Reachable(w)
    ensures MatchesLog(TablesOf(w, s))
  {
    hide Reachable;
    ReachableTables(w, s);
  }

  /** Event numbers strictly grow within a run, through rollbacks and lost commits. */
  lemma EventNumbersGrow(w: World, s: Schema, i: nat, j: nat)
    requires Reachable(w) && i < j < |TablesOf(w, s).log|
    requires TablesOf(w, s).log[i].Logged? && TablesOf(w, s).log[j].Logged?
    requires TablesOf(w, s).log[i].event.run == TablesOf(w, s).log[j].event.run
    ensures TablesOf(w, s).log[i].event.sequence < TablesOf(w, s).log[j].event.sequence
  {
    hide Reachable;
    ReachableTables(w, s);
    EventsAreOrdered(TablesOf(w, s).log, i, j);
  }

  /** Every nontransactional effect was announced: first the committed attempt, then the sending, by
      the same run. At most one attempt is unresolved, and nothing is both applied and unresolved. */
  lemma AttemptsComeFirst(w: World, s: Schema, k: nat)
    requires Reachable(w) && k < |TablesOf(w, s).log|
    requires TablesOf(w, s).log[k].Done? && TablesOf(w, s).log[k].effect.role == Standalone
    ensures var log := TablesOf(w, s).log;
      exists i, j :: 0 <= i < j < k && IsAttempt(log[i], log[k].effect.run, log[k].effect.migration)
                     && log[j] == Sent(log[k].effect.run, log[k].effect.migration)
  {
    hide Reachable;
    ReachableTables(w, s);
    WriteAhead(TablesOf(w, s).log, k);
  }

  lemma StatesAreExclusive(w: World, s: Schema)
    requires Reachable(w)
    ensures Exclusive(TablesOf(w, s))
  {
    hide Reachable;
    ReachableTables(w, s);
  }

  /** No statement is sent twice without an account of the first in between. */
  lemma NeverSentTwice(w: World, s: Schema, i: nat, j: nat)
    requires Reachable(w) && i < j < |TablesOf(w, s).log|
    requires TablesOf(w, s).log[i].Sent? && TablesOf(w, s).log[j].Sent?
    requires TablesOf(w, s).log[i].migration == TablesOf(w, s).log[j].migration
    ensures exists k :: i < k < j && Resolves(TablesOf(w, s).log[k], TablesOf(w, s).log[i].migration)
  {
    hide Reachable;
    ReachableTables(w, s);
    SentOnce(TablesOf(w, s).log, i, j);
  }

  /** The transactional effects that are durable are exactly those of the committed success events,
      in the same order. */
  lemma EffectsMatchEvents(w: World, s: Schema)
    requires Reachable(w)
    ensures Durable(TablesOf(w, s).log) == Promised(TablesOf(w, s).log)
  {
    hide Reachable;
    ReachableTables(w, s);
  }

  /** However many projects race on one database, at most one registry ever exists. */
  lemma OneRegistry(w: World, a: Schema, b: Schema)
    requires Reachable(w) && TablesOf(w, a).meta.Some? && TablesOf(w, b).meta.Some?
    ensures a == b
  {
    hide Sound, View, LocksAccounted, Tracked, Trace;
    ReachableIsSafe(w);
  }

  /** The check every changing command makes before it plans: it stops exactly when the history holds
      an attempt nobody has accounted for, and names that attempt, which is the only one. */
  lemma BlockedNamesTheAttempt(w: World, s: Schema, state: RegistryState)
    requires Reachable(w) && ReadState(TablesOf(w, s)) == Ok(state)
    ensures var unresolved := Replay(TablesOf(w, s).log).unresolved;
      && (RequireNotBlocked(state).Ok? <==> unresolved == map[])
      && (RequireNotBlocked(state).Err? ==>
            RequireNotBlocked(state).error.TargetBlocked? && unresolved.Keys == {RequireNotBlocked(state).error.id})
  {
    hide Reachable, SoundLog;
    var t := TablesOf(w, s);
    ReachableTables(w, s);
    ReadStateIsExact(t);
    assert AttemptRuns(t).Keys == t.attempts.Keys;
    if t.attempts != map[] {
      var id := RequireNotBlocked(state).error.id;
      forall x | x in t.attempts ensures x == id {
        assert Exclusive(t);
      }
      assert t.attempts.Keys == {id};
    }
  }

  /** Two runs of one project are never both between acquiring and releasing the deployment lock. */
  lemma MutualExclusion(w: World, q: RunId, r: RunId)
    requires Reachable(w) && q in w.runs && r in w.runs && q != r && w.runs[q].project == w.runs[r].project
    ensures !(Deploys(w.runs[q].pc) && Deploys(w.runs[r].pc))
  {
    hide Sound, View, LocksAccounted, Tracked, Trace;
    ReachableIsSafe(w);
    Exclusion(w, q, r);
  }

  /** A run that is about to write reads a registry that no other project owns and that is exactly
      what it planned from. */
  lemma PlansStayTrue(w: World, r: RunId)
    requires Reachable(w) && r in w.runs
    ensures View(TablesOf(w, w.runs[r].schema), r, w.runs[r])
  {
    hide Sound, View, LocksAccounted, Tracked, Trace;
    ReachableIsSafe(w);
  }

  /** The registry's keys and compare-and-sets never refuse a transaction: if its SQL can run in one,
      exchanging all of it commits. */
  lemma RegistryNeverRefuses(w: World, r: RunId)
    requires Reachable(w) && r in w.runs && Transacts(w.runs[r].pc) && Body(r, w.runs[r]).Some?
    requires !ScriptRefused(w.runs[r])
    ensures RunPrivately(TablesOf(w, w.runs[r].schema), Body(r, w.runs[r]).value).Some?
  {
    hide Sound, View, LocksAccounted, Tracked, Trace, Body, Common, Knows, Commits, RunPrivately, Inv, SoleClaim;
    ReachableIsSafe(w);
    Here(w, r);
    BodyCommits(TablesOf(w, w.runs[r].schema), r, w.runs[r]);
  }

  lemma WritersDeploy(w: World, move: Move, next: World, s: Schema)
    requires !move.Start? && !move.Land? && !move.Vanish? && move.r in w.runs
    requires Act(w, move, move.r, w.runs[move.r]) == Some(next) && TablesOf(next, s) != TablesOf(w, s)
    ensures w.runs[move.r].schema == s && Deploys(w.runs[move.r].pc)
  {
    hide Survives, Body, RunPrivately, Transact, ReadState, MayClaim, OwnershipHolds, VerifyCommands, Decision,
      WithEvent, WithSent,
      AfterCommit, AfterFailure, Registries, Landed, WithoutLocksOf, Events;
  }

  /** Only a holder of the deployment lock changes a registry, apart from a statement that lands late;
      and that adds nothing but its own effect. */
  lemma WritesAreLocked(w: World, move: Move, next: World, s: Schema)
    requires Reachable(w) && Next(w, move) == Some(next) && TablesOf(next, s) != TablesOf(w, s)
    ensures move.Land? ==> s == move.f.schema && TablesOf(next, s) == WithLanded(TablesOf(w, s), move.f.run, move.f.id)
    ensures !move.Land? ==>
      && !move.Start? && !move.Vanish? && move.r in w.runs && w.runs[move.r].schema == s
      && Holds(w.locks, Deployment(w.runs[move.r].project), move.r)
  {
    hide Inv, Reachable, Sound, Common, Knows, SoleClaim, Act, WithLanded, DropsSession, Unused, Admitted;
    ReachableIsSafe(w);
    if !move.Start? && !move.Land? && !move.Vanish? {
      Here(w, move.r);
      WritersDeploy(w, move, next, s);
    }
  }

  /** Verifying changes nothing but the history, on every path; and the history says it passed only of
      a script that does something and runs whole in a transaction. */
  lemma VerifyOnlyLogs(w: World, r: RunId, skipped: bool, commands: nat, passed: bool, written: bool, next: World, s: Schema)
    requires Next(w, Move.Verify(r, skipped, commands, passed, written)) == Some(next)
    ensures TablesOf(next, s) == TablesOf(w, s) || (written && r in w.runs && w.runs[r].schema == s &&
      exists ev: EventRow ::
        && ev.run == r && ev.action == Action.Verify && TablesOf(next, s) == WithEvent(TablesOf(w, s), ev)
        && (ev.outcome != Failed ==> ev.outcome == Succeeded && ev.script.Some? && Verifies(ev.script.value)))
  {
    hide Survives, Body, RunPrivately, Transact, ReadState, MayClaim, OwnershipHolds, VerifyCommands, Decision,
      WithEvent, Verifies;
    var run := w.runs[r];
    if !skipped {
      var script := run.graph.migrations[run.pc.id].verify.value;
      VerifyCommandsLeaveNothing(TablesOf(w, run.schema), r, run.pc.id, script, commands);
      var ev := EventRow(r, run.sequence + 1, run.pc.id, Action.Verify, if passed then Succeeded else Failed, Required, Some(script));
      assert ev.run == r && ev.action == Action.Verify && (ev.outcome != Failed ==> ev.outcome == Succeeded && Verifies(script));
    }
  }

  /** What a run is told of its statement is true: it hears of a success only once the effect is there,
      and of a refusal only when the statement can no longer take effect. */
  lemma AnswersAreTrue(w: World, r: RunId, answer: Answer, next: World)
    requires Reachable(w) && Next(w, Hear(r, answer)) == Some(next)
    ensures r in w.runs && w.runs[r].pc.Waiting? && WasSent(TablesOf(w, w.runs[r].schema).log, r, w.runs[r].pc.id)
    ensures answer == Succeeds ==> Landed(TablesOf(w, w.runs[r].schema).log, r, w.runs[r].pc.id)
    ensures answer == IsRefused ==> Flight(w.runs[r].schema, r, w.runs[r].pc.id) !in next.inFlight
    ensures r in next.runs && (next.runs[r].pc.Finishing? <==> answer == Succeeds)
  {
    hide Inv, Reachable, Common, SoleClaim, Sound, LocksAccounted, Attempting, Survives, Body, RunPrivately, Transact, ReadState,
      MayClaim, OwnershipHolds, VerifyCommands, Decision, Verifies;
    ReachableIsSafe(w);
    Here(w, r);
  }

  /** Why lint refuses `DISCARD`: a statement that discards its session gives up every lock of its run, and
      the run goes on believing that it has them. */
  lemma DiscardGivesUpLocks(w: World, f: Flight, next: World)
    requires Next(w, Land(f)) == Some(next) && f.run in w.runs && f.id in w.runs[f.run].graph.migrations
    requires var script := w.runs[f.run].graph.migrations[f.id].deploy;
      !IsBlank(script.sql) && script.parsed.Some? && script.parsed.value.statements == [NonTransactional(true)]
    ensures next.runs == w.runs && forall l | l in next.locks :: next.locks[l] != f.run
  {
    hide WithLanded, IsBlank;
    var statements := w.runs[f.run].graph.migrations[f.id].deploy.parsed.value.statements;
    assert statements[0] == NonTransactional(true) && NonTransactional(true) in statements;
  }

  // ----- Who may create a registry -----

  /** Whoever else writes does so to a registry that exists, in a format this release knows. */
  lemma WritersHaveRegistry(w: World, r: RunId)
    requires Inv(w) && r in w.runs
    requires Transacts(w.runs[r].pc) || w.runs[r].pc.Sending? || w.runs[r].pc.Verifying? || w.runs[r].pc.Reporting?
    ensures var t := TablesOf(w, w.runs[r].schema);
      t.meta.Some? && if w.runs[r].pc.Rehashing? then ReadState(t).Ok? else t.meta.value.version == REGISTRY_FORMAT_VERSION
  {
    hide Inv, Common, SoleClaim, Sound, LocksAccounted, Planned, ReasonFits, ReadState, CanRevert, Undoable, CanBaseline, Covers, OwnAttempt, Deployable;
    Here(w, r);
  }

  lemma WritersAreAt(w: World, move: Move, r: RunId, next: World)
    requires r in w.runs && MoveOf(move, r) && Act(w, move, r, w.runs[r]) == Some(next) && next.schemas != w.schemas
    ensures if move.Upgrade? then w.runs[r].pc.Unclaimed?
            else Transacts(w.runs[r].pc) || w.runs[r].pc.Sending? || w.runs[r].pc.Verifying? || w.runs[r].pc.Reporting?
    ensures forall s: Schema | s != w.runs[r].schema :: TablesOf(next, s) == TablesOf(w, s)
  {
    hide Survives, Body, RunPrivately, Transact, ReadState, MayClaim, OwnershipHolds, VerifyCommands, Decision, WithEvent, WithSent,
      AfterCommit, AfterFailure, Registries, Landed, WithoutLocksOf, Events, Transacts, UpgradeWrites, CheckProject;
  }

  lemma OnlyUpgradesCreate(w: World, move: Move, next: World, s: Schema)
    requires Inv(w) && Next(w, move) == Some(next) && TablesOf(w, s).meta.None? && TablesOf(next, s).meta.Some?
    ensures move.Upgrade? && move.r in w.runs && w.runs[move.r].pc.Unclaimed? && Holds(w.locks, Ownership, move.r)
    ensures w.runs[move.r].schema == s
  {
    hide Inv, Act, Sound, Common, Knows, SoleClaim, DropsSession, Unused, Admitted;
    if move.Land? {
      LandNeedsRegistry(w, move.f);
    } else if !move.Start? && !move.Vanish? && move.r in w.runs {
      Here(w, move.r);
      WritersAreAt(w, move, move.r, next);
      if !move.Upgrade? {
        WritersHaveRegistry(w, move.r);
      }
    }
  }

  lemma LandNeedsRegistry(w: World, f: Flight)
    requires Inv(w) && f in w.inFlight
    ensures TablesOf(w, f.schema).meta.Some?
  {
    hide View, Sound, LocksAccounted, SoleClaim;
    assert Tracked(w, f);
  }

  /** A registry comes into being only under both locks, and only by a deploy or a baseline: a rehash,
      whose upgrade is made outside the ownership lock, only raises the format of one that exists, and a
      revert or a resolution of what is not there does not get that far. */
  lemma CreationIsClaimed(w: World, move: Move, next: World, s: Schema)
    requires Reachable(w) && Next(w, move) == Some(next) && TablesOf(w, s).meta.None? && TablesOf(next, s).meta.Some?
    ensures move.Upgrade? && move.r in w.runs && (w.runs[move.r].job.DeployJob? || w.runs[move.r].job.BaselineJob?)
    ensures Holds(w.locks, Ownership, move.r) && Holds(w.locks, Deployment(w.runs[move.r].project), move.r)
  {
    hide Inv, Reachable, Next;
    ReachableIsSafe(w);
    OnlyUpgradesCreate(w, move, next, s);
    CreatorsMay(w, move.r);
  }

  lemma CreatorsMay(w: World, r: RunId)
    requires Inv(w) && r in w.runs && w.runs[r].pc.Unclaimed?
    ensures Holds(w.locks, Deployment(w.runs[r].project), r)
    ensures TablesOf(w, w.runs[r].schema).meta.None? ==> w.runs[r].job.DeployJob? || w.runs[r].job.BaselineJob?
  {
    hide Inv, Common, SoleClaim, Sound, MakePlan, RunsNothing;
    Here(w, r);
  }

  lemma FoundedIsIdle(start: World)
    requires Founded(start)
    ensures start.runs == map[] && start.locks == map[] && start.inFlight == {}
  {
    hide Registered;
  }
}
