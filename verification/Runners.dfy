/** The runner: it owns one connection, counts its events, and turns each operation into exactly one
    transaction, whatever the connection does. */
module Runners {
  import opened Collections
  import opened DependencyOrder
  import opened Migrations
  import opened Lint
  import opened Graphs
  import opened History
  import opened Ledger
  import opened Registry
  import opened Rehash
  import opened Transactions
  import opened Sessions

  /** What an operation returns. `NoDigest` is a source that cannot be hashed, `NoAnswer` a statement
      nobody heard of again, `NothingToDo` a success that sent nothing. */
  datatype Verdict = Success | Failure | NoDigest | NoAnswer | NothingToDo

  // ----- Numbers stay free -----

  lemma EffectsStayFree(t: Tables, effects: seq<Effect>, run: RunId, n: nat)
    requires Free(t, run, n) && forall f | f in effects :: f.role != Standalone
    ensures Free(WithEffects(t, effects), run, n)
  {
    EffectsAppend(t.log, effects);
  }

  lemma DeployedFree(t: Tables, run: RunId, n: nat, m: Migration, digest: Digest)
    requires Free(t, run, n)
    ensures Free(Deployed(t, run, n, m, digest), run, n + 1)
  {
    EffectsStayFree(t, ScriptEffects(run, m.manifest.id, DeployScript, Some(m.deploy)), run, n);
  }

  lemma RevertedFree(t: Tables, run: RunId, n: nat, id: Id, script: Script)
    requires Free(t, run, n)
    ensures Free(Reverted(t, run, n, id, script), run, n + 1)
  {
    EffectsStayFree(t, ScriptEffects(run, id, RevertScript, Some(script)), run, n);
  }

  lemma DeployTail(t: Tables, run: RunId, n: nat, m: Migration, digest: Digest)
    requires Free(t, run, n)
    ensures var after := WithEffects(t, ScriptEffects(run, m.manifest.id, DeployScript, Some(m.deploy)));
      Transact(after, [InsertApplied(m.manifest.id, RowFor(m, digest, run))] + [InsertEvent(DeployEvent(run, n, m, Succeeded))])
        == if m.manifest.id in t.applied then None else Some(Deployed(t, run, n, m, digest))
  {
    var id := m.manifest.id;
    var effects := ScriptEffects(run, id, DeployScript, Some(m.deploy));
    var row, ev := InsertApplied(id, RowFor(m, digest, run)), InsertEvent(DeployEvent(run, n, m, Succeeded));
    assert [row] + [ev] == [row, ev];
    TwoWrites(WithEffects(t, effects), row, ev);
    if id !in t.applied {
      ScriptWritesApply(t, effects);
      TransactConcat(t, ScriptWrites(effects), [row, ev]);
      DeployTransacts(t, run, n, m, digest);
    }
  }

  lemma RevertTail(t: Tables, run: RunId, n: nat, id: Id, script: Script)
    requires Free(t, run, n)
    ensures var after := WithEffects(t, ScriptEffects(run, id, RevertScript, Some(script)));
      var ev := EventRow(run, n, id, Action.Revert, Succeeded, Required, Some(script));
      && Transact(after, [] + [InsertEvent(ev)]) == Some(WithEvent(after, ev))
      && Apply(WithEvent(after, ev), DeleteApplied(id)) == Some(Reverted(t, run, n, id, script))
  {
    var effects := ScriptEffects(run, id, RevertScript, Some(script));
    var ev := EventRow(run, n, id, Action.Revert, Succeeded, Required, Some(script));
    EffectsStayFree(t, effects, run, n);
    EventInserts(WithEffects(t, effects), ev);
    OneWrite(WithEffects(t, effects), InsertEvent(ev));
    assert [] + [InsertEvent(ev)] == [InsertEvent(ev)];
  }

  /** What a failed deploy or revert may have left: nothing, its failure event, or, when the answer to
      the commit was lost, all of it. */
  predicate FailedLeaves(t: Tables, after: Tables, alive: bool, ev: EventRow, committed: Tables) {
    after == t || after == WithEvent(t, ev) || (!alive && after == committed)
  }

  function VerifyEvent(run: RunId, n: nat, id: Id, script: Script, outcome: Outcome): EventRow {
    EventRow(run, n, id, Action.Verify, outcome, Required, Some(script))
  }

  /** What a verification may leave: nothing, a failure, or the success of a script that can pass. */
  predicate VerifyEnds(t: Tables, after: Tables, run: RunId, n: nat, id: Id, script: Script) {
    || after == t
    || after == WithEvent(t, VerifyEvent(run, n, id, script, Outcome.Failed))
    || (Verifies(script) && after == WithEvent(t, VerifyEvent(run, n, id, script, Succeeded)))
  }

  class Runner {
    const runId: RunId
    const session: Session
    var sequence: nat

    constructor (session: Session, runId: RunId)
      ensures this.session == session && this.runId == runId && sequence == 0
    {
      this.session, this.runId, this.sequence := session, runId, 0;
    }

    /** No transaction is open, and the event numbers from the next one on are free. */
    ghost predicate Valid()
      reads this, session
    {
      session.Valid() && session.server.tx.None? && Free(session.server.durable, runId, sequence + 1)
    }

    ghost function Durable(): Tables
      reads session
    {
      session.server.durable
    }

    /** Writes inside the open transaction, then one event, which is numbered when it is reached. */
    method WriteNumbered(before: seq<Write>, ev: EventRow) returns (ok: bool)
      requires session.Valid() && session.server.tx.Some? && ev.run == runId && ev.sequence == sequence + 1
      modifies this, session
      ensures session.Valid() && Durable() == old(Durable()) && old(sequence) <= sequence <= old(sequence) + 1
      ensures old(session.Obedient()) ==>
        session.Obedient() && (Transact(old(session.server.tx.value), before + [InsertEvent(ev)]).Some? ==> ok)
      ensures ok ==> session.alive && session.server.tx.Some? && sequence == old(sequence) + 1
                     && session.server.tx == Transact(old(session.server.tx.value), before + [InsertEvent(ev)])
    {
      DoAllRuns(session.server.tx.value, before);
      TransactConcat(session.server.tx.value, before, [InsertEvent(ev)]);
      ok := session.SendAll(DoAll(before));
      if ok {
        OneWrite(session.server.tx.value, InsertEvent(ev));
        sequence := sequence + 1;
        ok := session.Send(Do(InsertEvent(ev)));
      }
    }

    /** A transaction of the runner's own writes and one event. */
    method Transaction(before: seq<Write>, ev: EventRow) returns (ok: bool)
      requires Valid() && ev.run == runId && ev.sequence == sequence + 1
      modifies this, session
      ensures session.Valid() && session.server.tx.None? && old(sequence) <= sequence <= old(sequence) + 1
      ensures old(session.Obedient()) ==>
        session.Obedient() && (Transact(old(Durable()), before + [InsertEvent(ev)]).Some? ==> ok)
      ensures ok ==> session.alive && sequence == old(sequence) + 1
                     && Transact(old(Durable()), before + [InsertEvent(ev)]) == Some(Durable())
      ensures !ok ==> (Durable() == old(Durable())
                       || (!session.alive && sequence == old(sequence) + 1
                           && Transact(old(Durable()), before + [InsertEvent(ev)]) == Some(Durable())))
    {
      hide Transact, Free;
      ok := session.Send(BeginTx);
      if ok {
        ok := WriteNumbered(before, ev);
      }
      if ok {
        ok := session.Send(CommitTx);
      } else {
        session.Abandon();
      }
    }

    /** Appends one event on its own, outside any transaction. */
    method Record(ev: EventRow) returns (ok: bool)
      requires Valid() && ev.run == runId && ev.sequence == sequence + 1
      modifies this, session
      ensures Valid() && sequence == old(sequence) + 1
      ensures old(session.Obedient()) ==> session.Obedient() && ok
      ensures ok ==> Durable() == WithEvent(old(Durable()), ev)
      ensures Durable() == old(Durable()) || (old(session.alive) && Durable() == WithEvent(old(Durable()), ev))
      ensures session.alive ==> old(session.alive)
    {
      EventInserts(Durable(), ev);
      sequence := sequence + 1;
      ok := session.Send(Do(InsertEvent(ev)));
    }

    // ----- Transactional deploys -----

    method DeployInner(m: Migration, digest: Digest) returns (ok: bool)
      requires Valid()
      modifies this, session
      ensures session.Valid() && session.server.tx.None? && old(sequence) <= sequence <= old(sequence) + 1
      ensures old(session.Obedient()) ==>
        session.Obedient() && (m.manifest.id !in old(Durable()).applied && RunsWhole(m.deploy) ==> ok)
      ensures !RunsWhole(m.deploy) ==> !ok && Durable() == old(Durable())
      ensures ok ==> sequence == old(sequence) + 1 && m.manifest.id !in old(Durable()).applied
                     && Durable() == Deployed(old(Durable()), runId, sequence, m, digest)
      ensures !ok ==> (Durable() == old(Durable())
                       || (!session.alive && sequence == old(sequence) + 1
                           && Durable() == Deployed(old(Durable()), runId, sequence, m, digest)))
    {
      var id := m.manifest.id;
      ghost var was := Durable();
      var ev := DeployEvent(runId, sequence + 1, m, Succeeded);
      if EnsureRunnerOwnsTransaction(m.deploy).Ok? {
        GuardedIsPrivate(runId, id, DeployScript, m.deploy);
        ScriptRuns(was, runId, id, DeployScript, m.deploy.parsed.value.statements);
      }
      DeployTail(was, runId, sequence + 1, m, digest);
      hide Transact, Free, Deployed, RunPrivately, AllOrdinary;
      ok := session.Send(BeginTx);
      if ok {
        ok := EnsureRunnerOwnsTransaction(m.deploy).Ok?;
      }
      if ok {
        ok := session.SendAll(ScriptCommands(runId, id, DeployScript, m.deploy.parsed.value.statements));
      }
      if ok {
        ok := WriteNumbered([InsertApplied(id, RowFor(m, digest, runId))], ev);
      }
      if ok {
        ok := session.Send(CommitTx);
      } else {
        session.Abandon();
      }
    }

    /** Applies one migration in a transaction of the runner's own. */
    method Deploy(m: Migration) returns (r: Verdict)
      requires Valid()
      modifies this, session
      ensures Valid() && old(sequence) <= sequence
      ensures r == NoDigest <==> StructuralDigest(m).None?
      ensures r == NoDigest ==> Durable() == old(Durable()) && sequence == old(sequence)
      ensures old(session.Obedient()) ==> session.Obedient()
      ensures old(session.Obedient()) && r != NoDigest && m.manifest.id !in old(Durable()).applied && RunsWhole(m.deploy) ==> r == Success
      ensures r == Success ==>
        && m.manifest.id !in old(Durable()).applied
        && Durable() == Deployed(old(Durable()), runId, old(sequence) + 1, m, StructuralDigest(m).value)
      ensures r == Failure ==> FailedLeaves(old(Durable()), Durable(), session.alive, DeployEvent(runId, sequence, m, Failed),
        Deployed(old(Durable()), runId, old(sequence) + 1, m, StructuralDigest(m).value))
      ensures old(session.Obedient()) && r == Failure ==>
        Durable() == WithEvent(old(Durable()), DeployEvent(runId, sequence, m, Failed))
      ensures r != NoAnswer && r != NothingToDo
    {
      var definition := StructuralDigest(m);
      if definition.None? {
        return NoDigest;
      }
      DeployedFree(Durable(), runId, sequence + 1, m, definition.value);
      hide Deployed, Free;
      var ok := DeployInner(m, definition.value);
      if ok {
        return Success;
      }
      if Durable() == old(Durable()) {
        FreeLater(Durable(), runId, old(sequence) + 1, sequence + 1);
      }
      var _ := Record(DeployEvent(runId, sequence + 1, m, Failed));
      return Failure;
    }

    // ----- Nontransactional deploys -----

    method RecordAttempt(m: Migration, digest: Digest) returns (ok: bool)
      requires Valid()
      modifies this, session
      ensures Valid() && old(sequence) <= sequence <= old(sequence) + 1
      ensures old(session.Obedient()) ==> session.Obedient() && (m.manifest.id !in old(Durable()).attempts ==> ok)
      ensures ok ==> session.alive && sequence == old(sequence) + 1
                     && Durable() == WithAttempt(old(Durable()), runId, sequence, m, digest)
      ensures !ok ==> (Durable() == old(Durable())
                       || (!session.alive && sequence == old(sequence) + 1
                           && Durable() == WithAttempt(old(Durable()), runId, sequence, m, digest)))
    {
      var id := m.manifest.id;
      var ev := EventRow(runId, sequence + 1, id, Action.Deploy, Attempted, Forbidden, Some(m.deploy));
      assert [InsertAttempt(id, AttemptFor(m, digest, runId))] + [InsertEvent(ev)] == AttemptWrites(runId, sequence + 1, m, digest);
      AttemptTransactsExactly(Durable(), runId, sequence + 1, m, digest);
      ok := Transaction([InsertAttempt(id, AttemptFor(m, digest, runId))], ev);
    }

    method FinishAttempt(m: Migration, digest: Digest) returns (ok: bool)
      requires Valid()
      modifies this, session
      ensures Valid() && old(sequence) <= sequence <= old(sequence) + 1
      ensures old(session.Obedient()) ==> session.Obedient() && (m.manifest.id !in old(Durable()).applied ==> ok)
      ensures ok ==> sequence == old(sequence) + 1 && Durable() == Finished(old(Durable()), runId, sequence, m, digest)
      ensures !ok ==> (Durable() == old(Durable())
                       || (!session.alive && sequence == old(sequence) + 1
                           && Durable() == Finished(old(Durable()), runId, sequence, m, digest)))
    {
      var id := m.manifest.id;
      var ev := EventRow(runId, sequence + 1, id, Action.Deploy, Succeeded, Forbidden, Some(m.deploy));
      var before := [InsertApplied(id, RowFor(m, digest, runId)), DeleteAttempt(id)];
      assert before + [InsertEvent(ev)] == FinishWrites(runId, sequence + 1, m, digest);
      FinishTransactsExactly(Durable(), runId, sequence + 1, m, digest);
      ok := Transaction(before, ev);
    }

    /** Sends the statement of a recorded attempt and records what became of it. The attempt row is
        removed by the record of a success and by nothing else. */
    method RunAttempt(m: Migration, digest: Digest) returns (r: Verdict)
      requires Valid()
      modifies this, session
      ensures Valid() && (r == Success || r == Failure || r == NoAnswer)
      ensures old(session.Obedient()) ==> session.Obedient() && (m.manifest.id !in old(Durable()).applied ==> r == Success)
      ensures StatementEnds(old(Durable()), Durable(), session.alive, r, runId, old(sequence) + 1, m, digest)
      ensures old(session.ObedientAfter(Refused)) ==>
        && r == Failure
        && Durable() == WithEvent(WithSent(old(Durable()), runId, m.manifest.id), StatementEvent(runId, sequence, m, Outcome.Failed))
      ensures forall took | old(session.ObedientAfter(Unheard(took))) ::
        var sent := WithSent(old(Durable()), runId, m.manifest.id);
        && r == NoAnswer
        && Durable() == WithEvent(if took then WithLanded(sent, runId, m.manifest.id) else sent,
                          StatementEvent(runId, sequence, m, Outcome.Unknown))
    {
      var id := m.manifest.id;
      StatementStaysFree(Durable(), runId, id, sequence + 1);
      var answer := session.SendStandalone(runId, id);
      hide WithSent, WithLanded, Finished, Free, WithEvent;
      if answer == Completed {
        var ok := FinishAttempt(m, digest);
        return if ok then Success else Failure;
      }
      var _ := Record(StatementEvent(runId, sequence + 1, m, if answer == Rejected then Outcome.Failed else Outcome.Unknown));
      return if answer == Rejected then Failure else NoAnswer;
    }

    /** Settings of the session; nothing is recorded. */
    method ApplySessionTimeouts() returns (ok: bool)
      requires Valid()
      modifies session
      ensures Valid() && Durable() == old(Durable())
      ensures old(session.Obedient()) ==> session.Obedient() && ok
    {
      ok := session.Send(Other);
    }

    /** Applies one migration that cannot run in a transaction: the attempt is committed before the
        statement is sent, and its row stays on every failure, refusals included. */
    method DeployNontransactional(m: Migration) returns (r: Verdict)
      requires Valid()
      modifies this, session
      ensures Valid()
      ensures r != NothingToDo && (r == NoDigest <==> StructuralDigest(m).None?)
      ensures r == NoDigest ==> Durable() == old(Durable())
      ensures old(session.Obedient()) ==> session.Obedient()
      ensures old(session.Obedient()) && m.manifest.id !in old(Durable()).applied && m.manifest.id !in old(Durable()).attempts ==>
        r == Success || r == NoDigest
      ensures r == Success ==> Durable() == WholeAttempt(old(Durable()), runId, old(sequence) + 1, m, StructuralDigest(m).value)
      ensures r != NoDigest ==>
        AttemptEnds(old(Durable()), Durable(), session.alive, r, runId, old(sequence) + 1, m, StructuralDigest(m).value)
      ensures r == Failure || r == NoAnswer ==>
        AttemptLeaves(old(Durable()), Durable(), session.alive, runId, old(sequence) + 1, m, StructuralDigest(m).value)
    {
      hide WithAttempt, WholeAttempt, Completion, AttemptLeaves, AttemptEnds, StatementEnds, Free, StructuralDigest, Exec, Transact,
        FailedLeaves, VerifyEnds;
      var definition := StructuralDigest(m);
      if definition.None? {
        return NoDigest;
      }
      ghost var was, n := Durable(), sequence + 1;
      var ok := ApplySessionTimeouts();
      if ok {
        ok := RecordAttempt(m, definition.value);
      }
      if !ok {
        EndsUnrecorded(was, Durable(), session.alive, runId, n, m, definition.value);
        return Failure;
      }
      RowsKept(was, runId, n, m, definition.value);
      r := RunAttempt(m, definition.value);
      EndsRecorded(was, Durable(), session.alive, r, runId, n, m, definition.value);
    }

    // ----- Resolving -----

    /** Records an operator's account of an interrupted statement; runs no SQL of theirs. */
    method Resolve(id: Id, a: AttemptRow, applied: bool) returns (ok: bool)
      requires Valid()
      modifies this, session
      ensures Valid()
      ensures old(session.Obedient()) ==> session.Obedient() && (!applied || id !in old(Durable()).applied ==> ok)
      ensures ok ==> Durable() == Resolved(old(Durable()), runId, old(sequence) + 1, id, a, applied)
      ensures ok && applied ==> id !in old(Durable()).applied
      ensures !ok ==> (Durable() == old(Durable())
                       || (!session.alive && Durable() == Resolved(old(Durable()), runId, old(sequence) + 1, id, a, applied)))
    {
      var ev := EventRow(runId, sequence + 1, id, Action.Resolve, if applied then AssertedApplied else AssertedNotApplied, Forbidden, None);
      var before := (if applied then [InsertApplied(id, RowFromAttempt(a, runId))] else []) + [DeleteAttempt(id)];
      assert before + [InsertEvent(ev)] == ResolveWrites(runId, sequence + 1, id, a, applied);
      ResolveTransactsExactly(Durable(), runId, sequence + 1, id, a, applied);
      ok := Transaction(before, ev);
    }

    // ----- Reverting -----

    method RevertInner(id: Id, script: Script) returns (ok: bool)
      requires Valid()
      modifies this, session
      ensures session.Valid() && session.server.tx.None? && old(sequence) <= sequence <= old(sequence) + 1
      ensures old(session.Obedient()) ==> session.Obedient() && (RunsWhole(script) ==> ok)
      ensures !RunsWhole(script) ==> !ok && Durable() == old(Durable())
      ensures ok ==> sequence == old(sequence) + 1 && Durable() == Reverted(old(Durable()), runId, sequence, id, script)
      ensures !ok ==> (Durable() == old(Durable())
                       || (!session.alive && sequence == old(sequence) + 1
                           && Durable() == Reverted(old(Durable()), runId, sequence, id, script)))
    {
      ghost var was := Durable();
      if EnsureRunnerOwnsTransaction(script).Err? {
        return false;
      }
      var ev := EventRow(runId, sequence + 1, id, Action.Revert, Succeeded, Required, Some(script));
      GuardedIsPrivate(runId, id, RevertScript, script);
      ScriptRuns(was, runId, id, RevertScript, script.parsed.value.statements);
      RevertTail(was, runId, sequence + 1, id, script);
      hide Transact, Free, Reverted, RunPrivately, AllOrdinary, Apply;
      ok := session.Send(BeginTx);
      if ok {
        ok := session.SendAll(ScriptCommands(runId, id, RevertScript, script.parsed.value.statements));
      }
      if ok {
        ok := WriteNumbered([], ev);
      }
      if ok {
        ok := session.Send(Do(DeleteApplied(id)));
      }
      if ok {
        ok := session.Send(CommitTx);
      } else {
        session.Abandon();
      }
    }

    /** Reverts one migration in a transaction of the runner's own. */
    method Revert(m: Migration) returns (r: Verdict)
      requires Valid()
      modifies this, session
      ensures Valid()
      ensures r == NothingToDo <==> m.revert.None?
      ensures r == NothingToDo ==> Durable() == old(Durable()) && sequence == old(sequence)
      ensures old(session.Obedient()) ==> session.Obedient()
      ensures old(session.Obedient()) && r != NothingToDo && RunsWhole(m.revert.value) ==> r == Success
      ensures r == Success ==>
        Durable() == Reverted(old(Durable()), runId, old(sequence) + 1, m.manifest.id, m.revert.value)
      ensures r == Failure ==> FailedLeaves(old(Durable()), Durable(), session.alive,
        EventRow(runId, sequence, m.manifest.id, Action.Revert, Outcome.Failed, Required, m.revert),
        Reverted(old(Durable()), runId, old(sequence) + 1, m.manifest.id, m.revert.value))
      ensures old(session.Obedient()) && r == Failure ==>
        Durable() == WithEvent(old(Durable()), EventRow(runId, sequence, m.manifest.id, Action.Revert, Outcome.Failed, Required, m.revert))
      ensures r != NoAnswer && r != NoDigest
    {
      if m.revert.None? {
        return NothingToDo;
      }
      RevertedFree(Durable(), runId, sequence + 1, m.manifest.id, m.revert.value);
      hide Reverted, Free;
      var ok := RevertInner(m.manifest.id, m.revert.value);
      if ok {
        return Success;
      }
      if Durable() == old(Durable()) {
        FreeLater(Durable(), runId, old(sequence) + 1, sequence + 1);
      }
      var _ := Record(EventRow(runId, sequence + 1, m.manifest.id, Action.Revert, Outcome.Failed, Required, m.revert));
      return Failure;
    }

    // ----- Verifying -----

    /** Runs a verification script in a transaction that is always rolled back. */
    method VerifyInner(id: Id, script: Script) returns (ok: bool)
      requires Valid()
      modifies session
      ensures session.Valid() && session.server.tx.None? && Durable() == old(Durable())
      ensures old(session.Obedient()) ==> session.Obedient() && (Verifies(script) ==> ok)
      ensures ok ==> Verifies(script)
    {
      if EnsureRunnerOwnsTransaction(script).Err? || RunsNothing(script) {
        return false;
      }
      GuardedIsPrivate(runId, id, VerifyScript, script);
      ScriptRuns(Durable(), runId, id, VerifyScript, script.parsed.value.statements);
      ok := session.Send(BeginTx);
      if ok {
        ok := session.Send(Other);
      }
      if ok {
        ok := session.SendAll(ScriptCommands(runId, id, VerifyScript, script.parsed.value.statements));
      }
      session.Abandon();
    }

    /** Verifies one migration: on every path the registry changes by one event at most, a success is
        recorded only of a script that can pass, and reported only when that event was written. */
    method Verify(m: Migration) returns (r: Verdict)
      requires Valid()
      modifies this, session
      ensures Valid()
      ensures r == NothingToDo <==> m.verify.None?
      ensures r == NothingToDo ==> Durable() == old(Durable()) && sequence == old(sequence)
      ensures old(session.Obedient()) ==> session.Obedient()
      ensures old(session.Obedient()) && r != NothingToDo && Verifies(m.verify.value) ==> r == Success
      ensures r == Success ==>
        && sequence == old(sequence) + 1 && Verifies(m.verify.value)
        && Durable() == WithEvent(old(Durable()), VerifyEvent(runId, sequence, m.manifest.id, m.verify.value, Succeeded))
      ensures old(session.Obedient()) && r == Failure ==>
        Durable() == WithEvent(old(Durable()), VerifyEvent(runId, sequence, m.manifest.id, m.verify.value, Outcome.Failed))
      ensures r != NothingToDo ==>
        sequence == old(sequence) + 1 && VerifyEnds(old(Durable()), Durable(), runId, sequence, m.manifest.id, m.verify.value)
      ensures r != NoAnswer && r != NoDigest
    {
      if m.verify.None? {
        return NothingToDo;
      }
      var ok := VerifyInner(m.manifest.id, m.verify.value);
      var outcome := if ok then Succeeded else Outcome.Failed;
      var recorded := Record(VerifyEvent(runId, sequence + 1, m.manifest.id, m.verify.value, outcome));
      return if ok && recorded then Success else Failure;
    }

    // ----- Baselining -----

    /** One migration's row and event, inside the open transaction. */
    method BaselineOne(source: Source) returns (ok: bool)
      requires session.Valid() && session.server.tx.Some?
      modifies this, session
      ensures session.Valid() && Durable() == old(Durable()) && old(sequence) <= sequence <= old(sequence) + 1
      ensures old(session.Obedient()) ==>
        && session.Obedient()
        && (Transact(old(session.server.tx.value), BaselineWrites(runId, old(sequence) + 1, [source])).Some? ==> ok)
      ensures ok ==> session.alive && session.server.tx.Some? && sequence == old(sequence) + 1
                     && session.server.tx == Transact(old(session.server.tx.value), BaselineWrites(runId, sequence, [source]))
    {
      var m := source.migration;
      var row := InsertApplied(m.manifest.id, RowFor(m, source.digest, runId));
      var ev := EventRow(runId, sequence + 1, m.manifest.id, Action.Baseline, Succeeded, m.manifest.transaction, None);
      BaselineOfOne(runId, sequence + 1, source);
      assert [row] + [InsertEvent(ev)] == BaselineWrites(runId, sequence + 1, [source]);
      ok := WriteNumbered([row], ev);
    }

    /** Records a closure as applied, all of it or none. */
    method Baseline(ms: seq<Source>) returns (ok: bool)
      requires Valid()
      modifies this, session
      ensures Valid()
      ensures old(session.Obedient()) && Transact(old(Durable()), BaselineWrites(runId, old(sequence) + 1, ms)).Some? ==> ok
      ensures ok ==> sequence == old(sequence) + |ms| && Transact(old(Durable()), BaselineWrites(runId, old(sequence) + 1, ms)) == Some(Durable())
      ensures !ok ==> (Durable() == old(Durable())
                       || (!session.alive && Transact(old(Durable()), BaselineWrites(runId, old(sequence) + 1, ms)) == Some(Durable())))
    {
      hide Transact, BaselineWrites, Free, RunPrivately, Apply;
      ghost var was, start := Durable(), sequence;
      ok := session.Send(BeginTx);
      var i := 0;
      assert ms[..0] == [] && BaselineWrites(runId, start + 1, []) == [] by { BaselineOfNone(runId, start + 1); }
      TransactNothing(was);
      while ok && i < |ms|
        invariant 0 <= i <= |ms|
        invariant session.Valid() && session.server.durable == was
        invariant start <= sequence <= start + i && (ok ==> session.alive && session.server.tx.Some? && sequence == start + i)
        invariant old(session.Obedient()) ==> session.Obedient()
        invariant old(session.Obedient()) && Transact(was, BaselineWrites(runId, start + 1, ms)).Some? ==> ok
        invariant ok ==> session.server.tx == Transact(was, BaselineWrites(runId, start + 1, ms[..i]))
        decreases |ms| - i
      {
        BaselineSnoc(was, runId, start + 1, ms[..i], ms[i]);
        if Transact(was, BaselineWrites(runId, start + 1, ms)).Some? {
          BaselinePrefix(was, runId, start + 1, ms, i + 1);
        }
        assert ms[..i] + [ms[i]] == ms[..i + 1];
        ok := BaselineOne(ms[i]);
        i := i + 1;
      }
      assert i == |ms| ==> ms[..i] == ms;
      FreeLater(was, runId, start + 1, sequence + 1);
      BaselineStaysFree(was, runId, start + 1, ms);
      if ok {
        ok := session.Send(CommitTx);
      } else {
        session.Abandon();
      }
    }

    // ----- Rehashing -----

    /** Moves every applied row to its structural identity, all of them or none. */
    method Rehash(g: Graph, state: RegistryState, project: ProjectId, acceptCurrent: bool, reason: Option<string>) returns (r: Verdict)
      requires Valid()
      modifies session
      ensures session.Valid() && session.server.tx.None?
      ensures (old(session.Obedient()) && RehashStarts(g, state, acceptCurrent, reason)
               && Transact(old(Durable()), UpgradeWrites(state, project) +
                    RehashWrites(MakeRehashPlan(g, state, acceptCurrent).value, runId, reason)).Some?) ==> r == Success
      ensures r == NothingToDo ==>
        && Durable() == old(Durable()) && MakeRehashPlan(g, state, acceptCurrent).Ok?
        && IsEmpty(MakeRehashPlan(g, state, acceptCurrent).value)
      ensures r == Success ==> RehashCommits(old(Durable()), Durable(), g, state, project, acceptCurrent, runId, reason)
      ensures r == Failure ==>
        (Durable() == old(Durable())
         || (!session.alive && RehashCommits(old(Durable()), Durable(), g, state, project, acceptCurrent, runId, reason)))
      ensures r == NothingToDo || r == Success || r == Failure
    {
      if acceptCurrent && (reason.None? || IsBlank(reason.value)) {
        return Failure;
      }
      var plan := MakeRehashPlan(g, state, acceptCurrent);
      if plan.Err? || Validate(plan.value).Err? {
        return Failure;
      }
      if IsEmpty(plan.value) {
        return NothingToDo;
      }
      ValidatedPlan(g, state, acceptCurrent);
      var ok := ApplyPlan(state, project, plan.value, reason);
      return if ok then Success else Failure;
    }

    /** The compare-and-set and the audit row of one entry. */
    method ApplyEntry(e: RehashEntry, reason: Option<string>) returns (ok: bool)
      requires session.Valid() && session.server.tx.Some? && Changes(e) && Complete(e)
      modifies session
      ensures session.Valid() && Durable() == old(Durable())
      ensures old(session.Obedient()) ==>
        session.Obedient() && (Transact(old(session.server.tx.value), EntryWrites(e, runId, reason)).Some? ==> ok)
      ensures ok ==> session.alive && session.server.tx.Some?
                     && session.server.tx == Transact(old(session.server.tx.value), EntryWrites(e, runId, reason))
    {
      var swap := SwapDefinition(e.id, e.oldDefinition, e.oldAlgorithm, e.newDefinition.value);
      var audit := InsertAudit(AuditFor(e, runId, reason));
      TwoWrites(session.server.tx.value, swap, audit);
      ok := session.Send(Do(swap));
      if ok {
        ok := session.Send(Do(audit));
      }
    }

    method ApplyPlan(state: RegistryState, project: ProjectId, plan: seq<RehashEntry>, reason: Option<string>) returns (ok: bool)
      requires Valid() && AllComplete(plan)
      modifies session
      ensures session.Valid() && session.server.tx.None?
      ensures
        old(session.Obedient()) && Transact(old(Durable()), UpgradeWrites(state, project) + RehashWrites(plan, runId, reason)).Some?
        ==> ok
      ensures ok ==> Transact(old(Durable()), UpgradeWrites(state, project) + RehashWrites(plan, runId, reason)) == Some(Durable())
      ensures !ok ==>
        (Durable() == old(Durable())
         || (!session.alive
             && Transact(old(Durable()), UpgradeWrites(state, project) + RehashWrites(plan, runId, reason)) == Some(Durable())))
    {
      hide Apply, Free, RunPrivately, EntryWrites, Changes, UpgradeWrites, Transact, RehashWrites, Complete, AllComplete;
      ghost var was := Durable();
      var upgrade := UpgradeWrites(state, project);
      DoAllRuns(was, upgrade);
      TransactConcat(was, upgrade, RehashWrites(plan, runId, reason));
      ghost var goal := Transact(was, upgrade + RehashWrites(plan, runId, reason));
      ok := session.Send(BeginTx);
      if ok {
        ok := session.SendAll(DoAll(upgrade));
      }
      var i := 0;
      assert plan[0..] == plan;
      while ok && i < |plan|
        invariant 0 <= i <= |plan| && AllComplete(plan[i..])
        invariant session.Valid() && session.server.durable == was
        invariant ok ==> session.alive && session.server.tx.Some?
        invariant old(session.Obedient()) ==> session.Obedient()
        invariant old(session.Obedient()) && goal.Some? ==> ok
        invariant ok ==> goal == Transact(session.server.tx.value, RehashWrites(plan[i..], runId, reason))
        decreases |plan| - i
      {
        RehashUnfolds(session.server.tx.value, plan, i, runId, reason);
        if Changes(plan[i]) {
          ok := ApplyEntry(plan[i], reason);
        }
        i := i + 1;
      }
      if ok {
        assert plan[i..] == [];
        RehashOfNone(session.server.tx.value, runId, reason);
        ok := session.Send(CommitTx);
      } else {
        session.Abandon();
      }
    }
  }

  /** What a rehash writes for one row that changes. */
  function EntryWrites(e: RehashEntry, run: RunId, reason: Option<string>): seq<Write>
    requires Changes(e) && Complete(e)
  {
    [SwapDefinition(e.id, e.oldDefinition, e.oldAlgorithm, e.newDefinition.value), InsertAudit(AuditFor(e, run, reason))]
  }

  lemma RehashOfNone(t: Tables, run: RunId, reason: Option<string>)
    ensures Transact(t, RehashWrites([], run, reason)) == Some(t)
  {
  }

  lemma RehashUnfolds(t: Tables, plan: seq<RehashEntry>, i: nat, run: RunId, reason: Option<string>)
    requires AllComplete(plan) && i < |plan|
    ensures AllComplete(plan[i..]) && AllComplete(plan[i + 1..]) && Complete(plan[i])
    ensures Transact(t, RehashWrites(plan[i..], run, reason)) ==
            if !Changes(plan[i]) then Transact(t, RehashWrites(plan[i + 1..], run, reason))
            else match Transact(t, EntryWrites(plan[i], run, reason))
                 case None => None
                 case Some(next) => Transact(next, RehashWrites(plan[i + 1..], run, reason))
  {
    var rest := plan[i..];
    assert rest[0] == plan[i] && rest[1..] == plan[i + 1..];
    assert forall j | 0 <= j < |rest| :: rest[j] == plan[i + j];
    if Changes(plan[i]) {
      TransactConcat(t, EntryWrites(plan[i], run, reason), RehashWrites(plan[i + 1..], run, reason));
    } else {
      EmptyConcat(RehashWrites(plan[i + 1..], run, reason));
    }
  }

  /** What has to hold before anything is sent: a reason where one is needed, a plan that can be made
      and validated (and is then complete), and something to change. */
  predicate RehashStarts(g: Graph, state: RegistryState, acceptCurrent: bool, reason: Option<string>) {
    var plan := MakeRehashPlan(g, state, acceptCurrent);
    && (acceptCurrent ==> reason.Some? && !IsBlank(reason.value))
    && plan.Ok? && Validate(plan.value).Ok? && AllComplete(plan.value) && !IsEmpty(plan.value)
  }

  /** `after` is `t` with a whole validated rehash committed. */
  predicate RehashCommits(t: Tables, after: Tables, g: Graph, state: RegistryState, project: ProjectId, acceptCurrent: bool,
      run: RunId, reason: Option<string>)
  {
    var plan := MakeRehashPlan(g, state, acceptCurrent);
    && plan.Ok? && Validate(plan.value).Ok? && AllComplete(plan.value)
    && Transact(t, UpgradeWrites(state, project) + RehashWrites(plan.value, run, reason)) == Some(after)
  }

  lemma TransactNothing(t: Tables)
    ensures Transact(t, []) == Some(t)
  {
  }

  lemma BaselineOfNone(run: RunId, n: nat)
    ensures BaselineWrites(run, n, []) == []
  {
  }

  lemma BaselineOfOne(run: RunId, n: nat, e: Source)
    ensures BaselineWrites(run, n, [e]) ==
            [InsertApplied(e.migration.manifest.id, RowFor(e.migration, e.digest, run)),
             InsertEvent(EventRow(run, n, e.migration.manifest.id, Action.Baseline, Succeeded, e.migration.manifest.transaction, None))]
  {
    assert [e][1..] == [];
  }

  lemma {:induction false} BaselineConcat(run: RunId, n: nat, a: seq<Source>, b: seq<Source>)
    ensures BaselineWrites(run, n, a + b) == BaselineWrites(run, n, a) + BaselineWrites(run, n + |a|, b)
    decreases |a|
  {
    if a == [] {
      assert a + b == b;
    } else {
      assert (a + b)[1..] == a[1..] + b;
      BaselineConcat(run, n + 1, a[1..], b);
    }
  }

  lemma {:induction false} BaselineStaysFree(t: Tables, run: RunId, n: nat, ms: seq<Source>)
    requires Free(t, run, n)
    ensures var after := Transact(t, BaselineWrites(run, n, ms)); after.Some? ==> Free(after.value, run, n + |ms|)
    decreases |ms|
  {
    if ms != [] && ms[0].migration.manifest.id !in t.applied {
      var next := Baselined(t, run, n, ms[0].migration, ms[0].digest);
      BaselineStep(t, run, n, ms);
      assert Free(next, run, n + 1);
      BaselineStaysFree(next, run, n + 1, ms[1..]);
    }
  }

  lemma BaselinePrefix(t: Tables, run: RunId, n: nat, ms: seq<Source>, k: nat)
    requires k <= |ms| && Transact(t, BaselineWrites(run, n, ms)).Some?
    ensures Transact(t, BaselineWrites(run, n, ms[..k])).Some?
  {
    BaselineConcat(run, n, ms[..k], ms[k..]);
    assert ms[..k] + ms[k..] == ms;
    TransactConcat(t, BaselineWrites(run, n, ms[..k]), BaselineWrites(run, n + k, ms[k..]));
  }

  lemma BaselineSnoc(t: Tables, run: RunId, n: nat, ms: seq<Source>, last: Source)
    ensures Transact(t, BaselineWrites(run, n, ms + [last])) ==
            match Transact(t, BaselineWrites(run, n, ms))
            case None => None
            case Some(next) => Transact(next, BaselineWrites(run, n + |ms|, [last]))
  {
    BaselineConcat(run, n, ms, [last]);
    TransactConcat(t, BaselineWrites(run, n, ms), BaselineWrites(run, n + |ms|, [last]));
  }

  // ----- What the transactions come to, whether or not a key refuses them -----

  lemma AttemptTransactsExactly(t: Tables, run: RunId, n: nat, m: Migration, digest: Digest)
    requires Free(t, run, n)
    ensures Transact(t, AttemptWrites(run, n, m, digest)) ==
            if m.manifest.id in t.attempts then None else Some(WithAttempt(t, run, n, m, digest))
    ensures Free(WithAttempt(t, run, n, m, digest), run, n + 1)
  {
    if m.manifest.id !in t.attempts {
      AttemptTransacts(t, run, n, m, digest);
    }
  }

  lemma FinishTransactsExactly(t: Tables, run: RunId, n: nat, m: Migration, digest: Digest)
    requires Free(t, run, n)
    ensures Transact(t, FinishWrites(run, n, m, digest)) ==
            if m.manifest.id in t.applied then None else Some(Finished(t, run, n, m, digest))
    ensures Free(Finished(t, run, n, m, digest), run, n + 1)
  {
    if m.manifest.id !in t.applied {
      FinishTransacts(t, run, n, m, digest);
    }
  }

  lemma ResolveTransactsExactly(t: Tables, run: RunId, n: nat, id: Id, a: AttemptRow, applied: bool)
    requires Free(t, run, n)
    ensures Transact(t, ResolveWrites(run, n, id, a, applied)) ==
            if applied && id in t.applied then None else Some(Resolved(t, run, n, id, a, applied))
    ensures Free(Resolved(t, run, n, id, a, applied), run, n + 1)
  {
    var ev := EventRow(run, n, id, Action.Resolve, if applied then AssertedApplied else AssertedNotApplied, Forbidden, None);
    if !applied {
      assert ResolveWrites(run, n, id, a, applied) == [DeleteAttempt(id), InsertEvent(ev)];
      TwoWrites(t, DeleteAttempt(id), InsertEvent(ev));
      EventInserts(t.(attempts := t.attempts - {id}), ev);
    } else if id !in t.applied {
      ResolveTransacts(t, run, n, id, a, applied);
    }
  }

  /** The registry after a sent statement took effect and was recorded. */
  function Completion(t: Tables, run: RunId, n: nat, m: Migration, digest: Digest): Tables {
    Finished(WithLanded(WithSent(t, run, m.manifest.id), run, m.manifest.id), run, n, m, digest)
  }

  /** The registry after a nontransactional deploy that went through. */
  function WholeAttempt(t: Tables, run: RunId, n: nat, m: Migration, digest: Digest): Tables {
    Completion(WithAttempt(t, run, n, m, digest), run, n + 1, m, digest)
  }

  /** The attempt is on record and nothing else in the registry has changed but its history. */
  predicate AttemptStands(t: Tables, after: Tables, run: RunId, m: Migration, digest: Digest) {
    && after.attempts == t.attempts[m.manifest.id := AttemptFor(m, digest, run)]
    && after.applied == t.applied && after.meta == t.meta && after.audit == t.audit
    && t.log <= after.log
  }

  lemma FreeLater(t: Tables, run: RunId, n: nat, later: nat)
    requires Free(t, run, n) && n <= later
    ensures Free(t, run, later)
  {
  }

  lemma StatementStaysFree(t: Tables, run: RunId, id: Id, n: nat)
    requires Free(t, run, n)
    ensures Free(WithSent(t, run, id), run, n) && Free(WithLanded(WithSent(t, run, id), run, id), run, n)
  {
  }

  function StatementEvent(run: RunId, n: nat, m: Migration, outcome: Outcome): EventRow {
    EventRow(run, n, m.manifest.id, Action.Deploy, outcome, Forbidden, Some(m.deploy))
  }

  /** What the statement of a recorded attempt, and the record of what became of it, may leave. Refused:
      the failure event or, when that could not be written, nothing more. Carried out but not recorded:
      the effect alone, unless only the answer to the record was lost. Unanswered: whatever became of
      it, and the event that says so when it could be written. */
  predicate StatementEnds(t: Tables, after: Tables, alive: bool, r: Verdict, run: RunId, n: nat, m: Migration, digest: Digest) {
    var sent := WithSent(t, run, m.manifest.id);
    var landed := WithLanded(sent, run, m.manifest.id);
    var failed, unheard := StatementEvent(run, n, m, Outcome.Failed), StatementEvent(run, n, m, Outcome.Unknown);
    match r
    case Success => after == Completion(t, run, n, m, digest)
    case Failure => after == sent || after == WithEvent(sent, failed) || after == landed
                    || (!alive && after == Completion(t, run, n, m, digest))
    case NoAnswer => (!alive && after == t) || after == sent || after == WithEvent(sent, unheard)
                     || after == landed || after == WithEvent(landed, unheard)
    case _ => false
  }

  /** The same for a nontransactional deploy, from before its attempt. */
  predicate AttemptEnds(t: Tables, after: Tables, alive: bool, r: Verdict, run: RunId, n: nat, m: Migration, digest: Digest) {
    || (r == Failure && (after == t || (!alive && after == WithAttempt(t, run, n, m, digest))))
    || StatementEnds(WithAttempt(t, run, n, m, digest), after, alive, r, run, n + 1, m, digest)
  }

  /** What they have in common: past the first commit the attempt is on record, and nothing is applied
      unless only the answer to the last commit was lost. */
  predicate AttemptLeaves(t: Tables, after: Tables, alive: bool, run: RunId, n: nat, m: Migration, digest: Digest) {
    after == t || AttemptStands(t, after, run, m, digest) || (!alive && after == WholeAttempt(t, run, n, m, digest))
  }

  lemma RowsKept(t: Tables, run: RunId, n: nat, m: Migration, digest: Digest)
    ensures WithAttempt(t, run, n, m, digest).applied == t.applied
  {
  }

  lemma EndsUnrecorded(t: Tables, after: Tables, alive: bool, run: RunId, n: nat, m: Migration, digest: Digest)
    requires after == t || (!alive && after == WithAttempt(t, run, n, m, digest))
    ensures AttemptEnds(t, after, alive, Failure, run, n, m, digest) && AttemptLeaves(t, after, alive, run, n, m, digest)
  {
  }

  lemma EndsRecorded(t: Tables, after: Tables, alive: bool, r: Verdict, run: RunId, n: nat, m: Migration, digest: Digest)
    requires StatementEnds(WithAttempt(t, run, n, m, digest), after, alive, r, run, n + 1, m, digest)
    ensures AttemptEnds(t, after, alive, r, run, n, m, digest)
    ensures if r == Success then after == WholeAttempt(t, run, n, m, digest) else AttemptLeaves(t, after, alive, run, n, m, digest)
  {
  }

  // ----- Whatever happened, the history is kept -----

  /** Nothing that was on record is gone. */
  predicate Keeps(t: Tables, after: Tables) {
    forall e | e in t.log :: e in after.log
  }

  lemma DeployedKeeps(t: Tables, run: RunId, n: nat, m: Migration, digest: Digest)
    ensures Keeps(t, Deployed(t, run, n, m, digest))
  {
  }

  lemma EventKeeps(t: Tables, ev: EventRow)
    ensures Keeps(t, WithEvent(t, ev)) && Keeps(t, t)
  {
  }

  lemma AttemptKeeps(t: Tables, after: Tables, alive: bool, run: RunId, n: nat, m: Migration, digest: Digest)
    requires AttemptLeaves(t, after, alive, run, n, m, digest) || after == WholeAttempt(t, run, n, m, digest)
    ensures Keeps(t, after)
  {
  }

  // ----- Whatever happened, the registry is sound -----

  /** Every end a transactional deploy can come to, lost answers included, is a sound registry. */
  lemma DeployLeavesSound(t: Tables, after: Tables, alive: bool, run: RunId, n: nat, k: nat, m: Migration, digest: Digest)
    requires Sound(t) && t.meta.Some? && Free(t, run, n) && n <= k && CanApply(t, m, digest) && m.manifest.transaction == Required
    requires FailedLeaves(t, after, alive, DeployEvent(run, k, m, Failed), Deployed(t, run, n, m, digest))
    ensures Sound(after)
  {
    hide Sound, CanApply;
    FreeLater(t, run, n, k);
    DescriptiveKeepsSound(t, DeployEvent(run, k, m, Failed));
    DeployKeepsSound(t, run, n, m, digest);
  }

  /** A statement, sent and perhaps carried out, over an attempt that is on record. */
  lemma StatementIsSound(t: Tables, run: RunId, id: Id, n: nat)
    requires Sound(t) && t.meta.Some? && id in t.attempts && t.attempts[id].run == run
    requires !WasSent(t.log, run, id) && !Landed(t.log, run, id) && Free(t, run, n)
    ensures Sound(WithSent(t, run, id)) && Free(WithSent(t, run, id), run, n)
    ensures var landed := WithLanded(WithSent(t, run, id), run, id);
      Sound(landed) && Free(landed, run, n) && Landed(landed.log, run, id)
  {
    hide Sound;
    var sent := WithSent(t, run, id);
    SendKeepsSound(t, run, id);
    StatementStaysFree(t, run, id, n);
    assert Last(sent.log) == Sent(run, id);
    LandKeepsSound(sent, run, id);
    assert Last(WithLanded(sent, run, id).log) == Done(Effect(run, id, Standalone, 0));
  }

  lemma StatementLeavesSound(t: Tables, after: Tables, alive: bool, r: Verdict, run: RunId, n: nat, m: Migration, digest: Digest)
    requires Sound(t) && t.meta.Some? && OwnAttempt(t, run, m, digest)
    requires !WasSent(t.log, run, m.manifest.id) && !Landed(t.log, run, m.manifest.id) && Free(t, run, n)
    requires StatementEnds(t, after, alive, r, run, n, m, digest)
    ensures Sound(after)
  {
    hide Sound, Below, StructuralDigest, WasSent, Landed;
    var id := m.manifest.id;
    var sent := WithSent(t, run, id);
    var landed := WithLanded(sent, run, id);
    StatementIsSound(t, run, id, n);
    DescriptiveKeepsSound(sent, StatementEvent(run, n, m, Outcome.Failed));
    DescriptiveKeepsSound(sent, StatementEvent(run, n, m, Outcome.Unknown));
    DescriptiveKeepsSound(landed, StatementEvent(run, n, m, Outcome.Unknown));
    FinishKeepsSound(landed, run, n, m, digest);
  }

  /** Every end a nontransactional deploy can come to is a sound registry. */
  lemma AttemptLeavesSound(t: Tables, after: Tables, alive: bool, r: Verdict, run: RunId, n: nat, m: Migration, digest: Digest)
    requires Sound(t) && t.meta.Some? && t.meta.value.version != 1 && Free(t, run, n)
    requires CanApply(t, m, digest) && m.manifest.transaction == Forbidden
    requires !WasSent(t.log, run, m.manifest.id) && !Landed(t.log, run, m.manifest.id)
    requires AttemptEnds(t, after, alive, r, run, n, m, digest)
    ensures Sound(after)
  {
    hide Sound, Below, StructuralDigest, StatementEnds;
    var begun := WithAttempt(t, run, n, m, digest);
    AttemptKeepsSound(t, run, n, m, digest);
    if StatementEnds(begun, after, alive, r, run, n + 1, m, digest) {
      assert OwnAttempt(begun, run, m, digest);
      StatementLeavesSound(begun, after, alive, r, run, n + 1, m, digest);
    }
  }

  lemma RevertLeavesSound(t: Tables, after: Tables, alive: bool, run: RunId, n: nat, k: nat, id: Id, script: Script)
    requires Sound(t) && t.meta.Some? && Free(t, run, n) && n <= k && CanRevert(t, id)
    requires FailedLeaves(t, after, alive, EventRow(run, k, id, Action.Revert, Outcome.Failed, Required, Some(script)),
      Reverted(t, run, n, id, script))
    ensures Sound(after)
  {
    hide Sound, CanRevert;
    FreeLater(t, run, n, k);
    DescriptiveKeepsSound(t, EventRow(run, k, id, Action.Revert, Outcome.Failed, Required, Some(script)));
    RevertKeepsSound(t, run, n, id, script);
  }

  /** What a committed rehash leaves: every applied row has the structural identity of its source and
      its old evidence, and planning gives what it gave before. */
  lemma RehashLeaves(t: Tables, after: Tables, g: Graph, state: RegistryState, project: ProjectId, acceptCurrent: bool, run: RunId,
      reason: Option<string>)
    requires Rehashable(t, state, project) && Linked(g) && AuditFree(t.audit, run, t.applied.Keys)
    requires acceptCurrent ==> reason.Some? && !IsBlank(reason.value)
    requires RehashCommits(t, after, g, state, project, acceptCurrent, run, reason)
    ensures Sound(after) && AllMoved(g, t.applied, after.applied) && after.log == t.log
    ensures MakePlan(g, after.applied).Ok? && (MakePlan(g, t.applied).Ok? ==> MakePlan(g, after.applied) == MakePlan(g, t.applied))
  {
    hide Sound, MakePlan, Linked, Validate, Classify, MovedRows, AuditRows, AllMoved, RehashWrites, UpgradeWrites,
      Transact;
    var plan := MakeRehashPlan(g, state, acceptCurrent).value;
    assert ReasonFits(plan, reason) by { AcceptedMeansAccepting(g, state, acceptCurrent, plan); }
    ReadStateIsExact(t);
    RehashMeaning(t, state, project, g, acceptCurrent, plan, run, reason);
    RehashKeepsPlan(g, state, acceptCurrent, plan, after.applied);
  }

  lemma AcceptedMeansAccepting(g: Graph, state: RegistryState, acceptCurrent: bool, plan: seq<RehashEntry>)
    requires MakeRehashPlan(g, state, acceptCurrent) == Ok(plan)
    ensures (exists e :: e in plan && e.disposition == Accepted) ==> acceptCurrent
  {
    hide Precheck, CheckUnchanged;
  }
}
