/** One session talking to the server: transactions as private copies, and what survives when the
    session dies between any two commands. */
module Transactions {
  import opened Collections
  import opened DependencyOrder
  import opened Migrations
  import opened Lint
  import opened History
  import opened Ledger
  import opened Registry

  /** `OutsideOnly` is a statement PostgreSQL refuses inside a transaction block; `Other` is a
      statement that changes neither data nor the transaction. */
  datatype Command =
    | BeginTx
    | CommitTx
    | RollbackTx
    | Do(w: Write)
    | OutsideOnly(w: Write)
    | Other

  /** What is committed, and the private copy of the open transaction if there is one. */
  datatype Server = Server(durable: Tables, tx: Option<Tables>)

  /** A write goes to the private copy if there is one, and is its own transaction otherwise. */
  function ExecWrite(s: Server, w: Write): Option<Server> {
    var written := Apply(if s.tx.Some? then s.tx.value else s.durable, w);
    if written.None? then None
    else Some(if s.tx.Some? then s.(tx := written) else s.(durable := written.value))
  }

  /** One command; `None` is an error, after which an open transaction can only be rolled back. */
  function Exec(s: Server, c: Command): Option<Server> {
    match c
    case BeginTx => Some(if s.tx.Some? then s else s.(tx := Some(s.durable)))
    case CommitTx => Some(if s.tx.Some? then Server(s.tx.value, None) else s)
    case RollbackTx => Some(s.(tx := None))
    case Do(w) => ExecWrite(s, w)
    case OutsideOnly(w) => if s.tx.Some? then None else ExecWrite(s, w)
    case Other => Some(s)
  }

  /** What is left in the database if the session sends these commands, stops at the first error,
      and then goes away. */
  function Survives(s: Server, cs: seq<Command>): Tables
    decreases |cs|
  {
    if cs == [] then s.durable
    else
      match Exec(s, cs[0])
      case None => s.durable
      case Some(n) => Survives(n, cs[1..])
  }

  /** Commands that stay inside whatever transaction is open. */
  predicate Private(c: Command) {
    c.Do? || c.OutsideOnly? || c.Other?
  }

  function RunCommand(t: Tables, c: Command): Option<Tables> {
    if c.Do? then Apply(t, c.w) else if c.Other? then Some(t) else None
  }

  /** The effect of private commands on the copy they run in. */
  function RunPrivately(t: Tables, cs: seq<Command>): Option<Tables>
    decreases |cs|
  {
    if cs == [] then Some(t)
    else
      match RunCommand(t, cs[0])
      case None => None
      case Some(n) => RunPrivately(n, cs[1..])
  }

  lemma {:induction false} PrivatePrefix(s: Server, cs: seq<Command>, k: nat)
    requires s.tx.Some? && (forall c | c in cs :: Private(c)) && k <= |cs|
    ensures Survives(s, cs[..k]) == s.durable
    decreases k
  {
    if k > 0 {
      assert cs[..k][0] == cs[0] && cs[..k][1..] == cs[1..][..k - 1];
      assert cs[0] in cs;
      match Exec(s, cs[0])
      case None =>
      case Some(n) => PrivatePrefix(n, cs[1..], k - 1);
    }
  }

  lemma {:induction false} PrivateThenCommit(s: Server, cs: seq<Command>)
    requires s.tx.Some? && forall c | c in cs :: Private(c)
    ensures Survives(s, cs + [CommitTx]) ==
            match RunPrivately(s.tx.value, cs) case None => s.durable case Some(t) => t
    decreases |cs|
  {
    if cs == [] {
      assert cs + [CommitTx] == [CommitTx];
      assert [CommitTx][1..] == [];
    } else {
      assert (cs + [CommitTx])[1..] == cs[1..] + [CommitTx];
      assert cs[0] in cs;
      match Exec(s, cs[0])
      case None =>
      case Some(n) => PrivateThenCommit(n, cs[1..]);
    }
  }

  /** A transaction the runner owns: at every point where the session can die, the database holds
      either what it held before or the whole transaction, and it holds the whole transaction only
      after the commit. */
  lemma AllOrNothing(t: Tables, body: seq<Command>, k: nat)
    requires (forall c | c in body :: Private(c)) && k <= |body| + 2
    ensures var program := [BeginTx] + body + [CommitTx];
      Survives(Server(t, None), program[..k]) ==
        if k == |program| && RunPrivately(t, body).Some? then RunPrivately(t, body).value else t
  {
    var program := [BeginTx] + body + [CommitTx];
    var open := Server(t, Some(t));
    if k > 0 {
      assert program[..k][0] == BeginTx;
      if k == |program| {
        assert program[..k][1..] == body + [CommitTx];
        PrivateThenCommit(open, body);
      } else {
        assert program[..k][1..] == body[..k - 1];
        PrivatePrefix(open, body, k - 1);
      }
    }
  }

  /** A verification: whatever the session does before it dies, nothing is left behind. */
  lemma NothingRemains(t: Tables, body: seq<Command>, k: nat)
    requires (forall c | c in body :: Private(c)) && k <= |body| + 2
    ensures Survives(Server(t, None), ([BeginTx] + body + [RollbackTx])[..k]) == t
  {
    var program := [BeginTx] + body + [RollbackTx];
    var open := Server(t, Some(t));
    if k > 0 {
      assert program[..k][0] == BeginTx;
      if k == |program| {
        assert program[..k][1..] == body + [RollbackTx];
        PrivateThenRollback(open, body);
      } else {
        assert program[..k][1..] == body[..k - 1];
        PrivatePrefix(open, body, k - 1);
      }
    }
  }

  lemma {:induction false} PrivateThenRollback(s: Server, cs: seq<Command>)
    requires s.tx.Some? && forall c | c in cs :: Private(c)
    ensures Survives(s, cs + [RollbackTx]) == s.durable
    decreases |cs|
  {
    if cs == [] {
      assert cs + [RollbackTx] == [RollbackTx];
      assert [RollbackTx][1..] == [];
    } else {
      assert (cs + [RollbackTx])[1..] == cs[1..] + [RollbackTx];
      assert cs[0] in cs;
      match Exec(s, cs[0])
      case None =>
      case Some(n) => PrivateThenRollback(n, cs[1..]);
    }
  }

  // ----- Scripts -----

  /** What one statement of a script asks of the server. */
  function StatementCommand(kind: StatementKind, f: Effect): Command {
    match kind
    case Ordinary => Do(RunStatement(f))
    case NonTransactional(_) => OutsideOnly(RunStatement(f))
    case TransactionControl(op) =>
      match op
      case Begin => BeginTx
      case Commit => CommitTx
      case Rollback => RollbackTx
      case PrepareTransaction => RollbackTx
      case _ => Other
  }

  function ScriptCommands(run: RunId, id: Id, role: Role, statements: seq<StatementKind>): seq<Command> {
    seq(|statements|, i requires 0 <= i < |statements| => StatementCommand(statements[i], Effect(run, id, role, i)))
  }

  /** The whole exchange of a transactional deploy. */
  function DeployProgram(run: RunId, sequence: nat, m: Migration, digest: Digest, statements: seq<StatementKind>): seq<Command> {
    [BeginTx] + DeployBody(run, sequence, m, digest, statements) + [CommitTx]
  }

  function DeployBody(run: RunId, sequence: nat, m: Migration, digest: Digest, statements: seq<StatementKind>): seq<Command> {
    ScriptCommands(run, m.manifest.id, DeployScript, statements) +
    DoAll([InsertApplied(m.manifest.id, RowFor(m, digest, run)), InsertEvent(DeployEvent(run, sequence, m, Succeeded))])
  }

  function RevertBody(run: RunId, sequence: nat, id: Id, script: Script, statements: seq<StatementKind>): seq<Command> {
    ScriptCommands(run, id, RevertScript, statements) +
    DoAll([InsertEvent(EventRow(run, sequence, id, Revert, Succeeded, Required, Some(script))), DeleteApplied(id)])
  }

  function DoAll(ws: seq<Write>): seq<Command> {
    seq(|ws|, i requires 0 <= i < |ws| => Do(ws[i]))
  }

  /** A transaction without user SQL does its writes. */
  lemma {:induction false} DoAllRuns(t: Tables, ws: seq<Write>)
    ensures RunPrivately(t, DoAll(ws)) == Transact(t, ws)
    ensures forall c | c in DoAll(ws) :: Private(c)
    decreases |ws|
  {
    if ws != [] {
      assert DoAll(ws)[1..] == DoAll(ws[1..]);
      match Apply(t, ws[0])
      case None =>
      case Some(n) => DoAllRuns(n, ws[1..]);
    }
  }

  /** The guard keeps every statement of a script inside the runner's transaction. */
  lemma GuardedIsPrivate(run: RunId, id: Id, role: Role, script: Script)
    requires EnsureRunnerOwnsTransaction(script).Ok?
    ensures forall c | c in ScriptCommands(run, id, role, script.parsed.value.statements) :: Private(c)
  {
    PlainIsPrivate(run, id, role, script.parsed.value.statements);
  }

  lemma {:induction false} RunPrivatelyConcat(t: Tables, a: seq<Command>, b: seq<Command>)
    requires forall c | c in a :: Private(c)
    ensures RunPrivately(t, a + b) == match RunPrivately(t, a) case None => None case Some(m) => RunPrivately(m, b)
    decreases |a|
  {
    if a == [] {
      assert a + b == b;
    } else {
      assert (a + b)[1..] == a[1..] + b;
      match RunCommand(t, a[0])
      case None =>
      case Some(n) => RunPrivatelyConcat(n, a[1..], b);
    }
  }

  lemma RunOne(t: Tables, c: Command)
    ensures RunPrivately(t, [c]) == RunCommand(t, c)
  {
    assert [c][1..] == [];
    match RunCommand(t, c)
    case None =>
    case Some(n) => assert RunPrivately(n, []) == Some(n);
  }

  lemma PlainIsPrivate(run: RunId, id: Id, role: Role, statements: seq<StatementKind>)
    requires forall s | s in statements :: !s.TransactionControl?
    ensures forall c | c in ScriptCommands(run, id, role, statements) :: Private(c)
  {
    forall c | c in ScriptCommands(run, id, role, statements) ensures Private(c) {
      var i :| 0 <= i < |statements| && c == StatementCommand(statements[i], Effect(run, id, role, i));
      assert statements[i] in statements;
    }
  }

  lemma ScriptSnoc(run: RunId, id: Id, role: Role, front: seq<StatementKind>, last: StatementKind)
    ensures ScriptCommands(run, id, role, front + [last]) ==
            ScriptCommands(run, id, role, front) + [StatementCommand(last, Effect(run, id, role, |front|))]
    ensures StatementEffects(run, id, role, front + [last]) ==
            StatementEffects(run, id, role, front) + [Effect(run, id, role, |front|)]
  {
  }

  lemma AsDoneSnoc(log: Log, effects: seq<Effect>, f: Effect)
    ensures log + AsDone(effects + [f]) == log + AsDone(effects) + [Done(f)]
  {
    assert (effects + [f])[..|effects|] == effects;
  }

  predicate AllOrdinary(statements: seq<StatementKind>) {
    forall s | s in statements :: s.Ordinary?
  }

  /** A script the runner's guard lets through and PostgreSQL runs inside a transaction. */
  predicate RunsWhole(script: Script) {
    EnsureRunnerOwnsTransaction(script).Ok? && AllOrdinary(script.parsed.value.statements)
  }

  /** A verification script that can pass: it does something, and runs whole. */
  predicate Verifies(script: Script) {
    !RunsNothing(script) && RunsWhole(script)
  }

  lemma VerifiesExactly(script: Script)
    ensures Verifies(script) <==>
      && !IsBlank(script.sql) && script.parsed.Some? && script.parsed.value.statements != []
      && forall s | s in script.parsed.value.statements :: s == Ordinary
  {
  }

  /** A script of ordinary statements takes effect statement by statement; one PostgreSQL refuses in
      a transaction takes the whole script down. */
  lemma {:induction false} ScriptRuns(t: Tables, run: RunId, id: Id, role: Role, statements: seq<StatementKind>)
    requires forall s | s in statements :: !s.TransactionControl?
    ensures RunPrivately(t, ScriptCommands(run, id, role, statements)) ==
            if AllOrdinary(statements)
            then Some(t.(log := t.log + AsDone(StatementEffects(run, id, role, statements)))) else None
    decreases |statements|
  {
    if statements == [] {
      assert ScriptCommands(run, id, role, statements) == [];
      EmptyConcat(t.log);
    } else {
      var n := |statements| - 1;
      var front, last := statements[..n], statements[n];
      assert statements == front + [last];
      ScriptRuns(t, run, id, role, front);
      PlainIsPrivate(run, id, role, front);
      ScriptSnoc(run, id, role, front, last);
      var c := StatementCommand(last, Effect(run, id, role, n));
      RunPrivatelyConcat(t, ScriptCommands(run, id, role, front), [c]);
      AllOrdinarySnoc(front, last);
      if AllOrdinary(front) {
        var effects := StatementEffects(run, id, role, front);
        RunOne(t.(log := t.log + AsDone(effects)), c);
        AsDoneSnoc(t.log, effects, Effect(run, id, role, n));
      }
    }
  }

  lemma AllOrdinarySnoc(front: seq<StatementKind>, last: StatementKind)
    ensures AllOrdinary(front + [last]) <==> AllOrdinary(front) && last.Ordinary?
  {
    assert forall s :: s in front + [last] <==> s in front || s == last;
  }

  function StatementEffects(run: RunId, id: Id, role: Role, statements: seq<StatementKind>): seq<Effect> {
    seq(|statements|, i requires 0 <= i => Effect(run, id, role, i))
  }

  /** A guarded script followed by the runner's writes: all of it, unless a statement is refused. */
  lemma ScriptThenWrites(t: Tables, run: RunId, id: Id, role: Role, script: Script, tail: seq<Write>)
    requires EnsureRunnerOwnsTransaction(script).Ok?
    ensures var statements := script.parsed.value.statements;
      var body := ScriptCommands(run, id, role, statements) + DoAll(tail);
      && (forall c | c in body :: Private(c))
      && RunPrivately(t, body) == if AllOrdinary(statements)
           then Transact(t, ScriptWrites(ScriptEffects(run, id, role, Some(script))) + tail) else None
  {
    var statements := script.parsed.value.statements;
    var effects := ScriptEffects(run, id, role, Some(script));
    GuardedIsPrivate(run, id, role, script);
    ScriptRuns(t, run, id, role, statements);
    RunPrivatelyConcat(t, ScriptCommands(run, id, role, statements), DoAll(tail));
    DoAllRuns(WithEffects(t, effects), tail);
    assert effects == StatementEffects(run, id, role, statements);
    ScriptWritesApply(t, effects);
    TransactConcat(t, ScriptWrites(effects), tail);
  }

  lemma DeployBodyRuns(t: Tables, run: RunId, sequence: nat, m: Migration, digest: Digest)
    requires EnsureRunnerOwnsTransaction(m.deploy).Ok? && Free(t, run, sequence) && m.manifest.id !in t.applied
    ensures var statements := m.deploy.parsed.value.statements;
      var body := DeployBody(run, sequence, m, digest, statements);
      && (forall c | c in body :: Private(c))
      && RunPrivately(t, body) == if AllOrdinary(statements) then Some(Deployed(t, run, sequence, m, digest)) else None
  {
    ScriptThenWrites(t, run, m.manifest.id, DeployScript, m.deploy,
      [InsertApplied(m.manifest.id, RowFor(m, digest, run)), InsertEvent(DeployEvent(run, sequence, m, Succeeded))]);
    DeployTransacts(t, run, sequence, m, digest);
  }

  lemma RevertBodyRuns(t: Tables, run: RunId, sequence: nat, id: Id, script: Script)
    requires EnsureRunnerOwnsTransaction(script).Ok? && Free(t, run, sequence)
    ensures var statements := script.parsed.value.statements;
      var body := RevertBody(run, sequence, id, script, statements);
      && (forall c | c in body :: Private(c))
      && RunPrivately(t, body) == if AllOrdinary(statements) then Some(Reverted(t, run, sequence, id, script)) else None
  {
    ScriptThenWrites(t, run, id, RevertScript, script,
      [InsertEvent(EventRow(run, sequence, id, Revert, Succeeded, Required, Some(script))), DeleteApplied(id)]);
    RevertTransacts(t, run, sequence, id, script);
  }

  /** The outcome of a transactional deploy, whatever happens to the session: the tables are as they
      were, or the script, the applied row and the event are all there, the latter only after the
      final commit. */
  lemma DeployIsAtomic(t: Tables, run: RunId, sequence: nat, m: Migration, digest: Digest, k: nat)
    requires EnsureRunnerOwnsTransaction(m.deploy).Ok? && Free(t, run, sequence) && m.manifest.id !in t.applied
    requires k <= |DeployProgram(run, sequence, m, digest, m.deploy.parsed.value.statements)|
    ensures var statements := m.deploy.parsed.value.statements;
      var program := DeployProgram(run, sequence, m, digest, statements);
      Survives(Server(t, None), program[..k]) ==
        if k == |program| && AllOrdinary(statements) then Deployed(t, run, sequence, m, digest) else t
  {
    DeployBodyRuns(t, run, sequence, m, digest);
    AllOrNothing(t, DeployBody(run, sequence, m, digest, m.deploy.parsed.value.statements), k);
  }

  /** The same for a revert: the script's effects and the row's removal, or neither. */
  lemma RevertIsAtomic(t: Tables, run: RunId, sequence: nat, id: Id, script: Script, k: nat)
    requires EnsureRunnerOwnsTransaction(script).Ok? && Free(t, run, sequence)
    requires k <= |script.parsed.value.statements| + 4
    ensures var statements := script.parsed.value.statements;
      var program := [BeginTx] + RevertBody(run, sequence, id, script, statements) + [CommitTx];
      Survives(Server(t, None), program[..k]) ==
        if k == |program| && AllOrdinary(statements) then Reverted(t, run, sequence, id, script) else t
  {
    RevertBodyRuns(t, run, sequence, id, script);
    AllOrNothing(t, RevertBody(run, sequence, id, script, script.parsed.value.statements), k);
  }

  /** Without the guard the promise fails: a script that commits for itself leaves its first
      statements behind with nothing recorded about them. */
  lemma UnguardedScriptEscapes(t: Tables, run: RunId, sequence: nat, m: Migration, digest: Digest, a: seq<StatementKind>, b: seq<StatementKind>)
    requires m.deploy.parsed.Some?
    requires m.deploy.parsed.value.statements == a + [TransactionControl(TransactionOperation.Commit)] + b
    requires a != [] && AllOrdinary(a)
    ensures var program := DeployProgram(run, sequence, m, digest, m.deploy.parsed.value.statements);
      var left := Survives(Server(t, None), program[..|a| + 2]);
      && |a| + 2 < |program|
      && left.log == t.log + AsDone(StatementEffects(run, m.manifest.id, DeployScript, a))
      && left.log != t.log && left.applied == t.applied
  {
    var statements := m.deploy.parsed.value.statements;
    var program := DeployProgram(run, sequence, m, digest, statements);
    var id := m.manifest.id;
    var first := ScriptCommands(run, id, DeployScript, a);
    assert program[..|a| + 2] == [BeginTx] + (first + [CommitTx]);
    assert ([BeginTx] + (first + [CommitTx]))[1..] == first + [CommitTx];
    PlainIsPrivate(run, id, DeployScript, a);
    PrivateThenCommit(Server(t, Some(t)), first);
    ScriptRuns(t, run, id, DeployScript, a);
    var effects := StatementEffects(run, id, DeployScript, a);
    assert AsDone(effects) == AsDone(effects[..|effects| - 1]) + [Done(Last(effects))];
    assert |t.log + AsDone(effects)| > |t.log|;
  }

  /** `verify.sql` in its rolled-back transaction leaves nothing at any point. */
  lemma VerifyLeavesNothing(t: Tables, run: RunId, id: Id, script: Script, k: nat)
    requires EnsureRunnerOwnsTransaction(script).Ok?
    requires k <= |script.parsed.value.statements| + 3
    ensures var program := [BeginTx] + ([Other] + ScriptCommands(run, id, VerifyScript, script.parsed.value.statements)) + [RollbackTx];
      Survives(Server(t, None), program[..k]) == t
  {
    GuardedIsPrivate(run, id, VerifyScript, script);
    NothingRemains(t, [Other] + ScriptCommands(run, id, VerifyScript, script.parsed.value.statements), k);
  }
}
