/** The lint verdicts that decide how a script may run. */
module Lint {
  import opened Collections
  import opened Migrations

  datatype Finding =
    | ScriptParseError
    | ScriptTransactionControl(operation: TransactionOperation)
    | ScriptStatementCount
    | ExecutionModeUnsupported

  /** Nothing to run: blank text, or text that parses to no statements. */
  predicate RunsNothing(script: Script) {
    IsBlank(script.sql) || (script.parsed.Some? && script.parsed.value.statements == [])
  }

  function FirstControl(statements: seq<StatementKind>): (r: Option<TransactionOperation>)
    ensures r.None? <==> forall s | s in statements :: !s.TransactionControl?
    ensures r.Some? ==> TransactionControl(r.value) in statements
  {
    if statements == [] then
      None
    else if statements[0].TransactionControl? then
      Some(statements[0].operation)
    else
      FirstControl(statements[1..])
  }

  /** The check made immediately before any script is sent. */
  function EnsureRunnerOwnsTransaction(script: Script): (r: Result<(), Finding>)
    ensures r.Ok? <==> script.parsed.Some? && forall s | s in script.parsed.value.statements :: !s.TransactionControl?
  {
    match script.parsed
    case None => Err(ScriptParseError)
    case Some(p) =>
      match FirstControl(p.statements)
      case None => Ok(())
      case Some(op) => Err(ScriptTransactionControl(op))
  }

  /** One error for each statement that controls transactions, in order. */
  function ControlFindings(statements: seq<StatementKind>): (r: seq<Finding>)
    ensures r == [] <==> forall s | s in statements :: !s.TransactionControl?
  {
    if statements == [] then []
    else
      ControlFindings(statements[..|statements| - 1]) +
      if Last(statements).TransactionControl? then [ScriptTransactionControl(Last(statements).operation)] else []
  }

  /** The findings are the operations of the transaction statements, in order: the one at position
      `at[k]` gave the k-th, and no other position holds one. */
  ghost predicate OneForEach(statements: seq<StatementKind>, findings: seq<Finding>, at: seq<nat>) {
    && |at| == |findings| && Increasing(at)
    && (forall k | 0 <= k < |at| ::
          at[k] < |statements| && statements[at[k]].TransactionControl?
          && findings[k] == ScriptTransactionControl(statements[at[k]].operation))
    && (forall i: nat | i < |statements| && statements[i].TransactionControl? :: i in at)
  }

  lemma NothingYet(statements: seq<StatementKind>)
    requires statements == []
    ensures ControlFindings(statements) == [] && OneForEach(statements, ControlFindings(statements), [])
  {
  }

  lemma OneMore(statements: seq<StatementKind>, findings: seq<Finding>, at: seq<nat>, operation: TransactionOperation)
    requires OneForEach(statements, findings, at)
    ensures OneForEach(statements + [TransactionControl(operation)], findings + [ScriptTransactionControl(operation)], at + [|statements|])
  {
    var all := statements + [TransactionControl(operation)];
    forall i: nat | i < |all| && all[i].TransactionControl? ensures i in at + [|statements|] {
      assert i < |statements| ==> statements[i].TransactionControl?;
    }
  }

  lemma NoMore(statements: seq<StatementKind>, findings: seq<Finding>, at: seq<nat>, next: StatementKind)
    requires OneForEach(statements, findings, at) && !next.TransactionControl?
    ensures OneForEach(statements + [next], findings, at)
  {
    var all := statements + [next];
    forall i: nat | i < |all| && all[i].TransactionControl? ensures i in at {
      assert statements[i].TransactionControl?;
    }
  }

  lemma ControlSnoc(statements: seq<StatementKind>, next: StatementKind)
    ensures ControlFindings(statements + [next]) ==
            ControlFindings(statements) + if next.TransactionControl? then [ScriptTransactionControl(next.operation)] else []
  {
    assert (statements + [next])[..|statements|] == statements;
  }

  lemma OneForEachNext(statements: seq<StatementKind>, at: seq<nat>, next: StatementKind)
    requires OneForEach(statements, ControlFindings(statements), at)
    ensures ControlFindings(statements + [next]) ==
            if next.TransactionControl? then ControlFindings(statements) + [ScriptTransactionControl(next.operation)]
            else ControlFindings(statements)
    ensures OneForEach(statements + [next], ControlFindings(statements + [next]),
              if next.TransactionControl? then at + [|statements|] else at)
  {
    hide OneForEach, ControlFindings;
    ControlSnoc(statements, next);
    EmptyConcat(ControlFindings(statements));
    if next.TransactionControl? {
      OneMore(statements, ControlFindings(statements), at, next.operation);
      assert next == TransactionControl(next.operation);
    } else {
      NoMore(statements, ControlFindings(statements), at, next);
    }
  }

  lemma PrefixGrows<T>(s: seq<T>, i: nat)
    requires i < |s|
    ensures s[..i + 1] == s[..i] + [s[i]]
  {
  }

  method CheckTransactionControl(p: ParsedScript, findings: seq<Finding>) returns (r: seq<Finding>, ghost at: seq<nat>)
    ensures r == findings + ControlFindings(p.statements)
    ensures OneForEach(p.statements, ControlFindings(p.statements), at)
  {
    hide OneForEach, ControlFindings;
    r, at := findings, [];
    EmptyConcat(findings);
    NothingYet(p.statements[..0]);
    for i := 0 to |p.statements|
      invariant r == findings + ControlFindings(p.statements[..i])
      invariant OneForEach(p.statements[..i], ControlFindings(p.statements[..i]), at)
    {
      OneForEachNext(p.statements[..i], at, p.statements[i]);
      PrefixGrows(p.statements, i);
      if p.statements[i].TransactionControl? {
        r := r + [ScriptTransactionControl(p.statements[i].operation)];
        at := at + [i];
      }
    }
    assert p.statements[..|p.statements|] == p.statements;
  }

  /** One error for each statement PostgreSQL refuses inside a transaction. */
  function OutsideFindings(statements: seq<StatementKind>): (r: seq<Finding>)
    ensures r == [] <==> forall s | s in statements :: !s.NonTransactional?
    ensures forall f | f in r :: f == ScriptStatementCount
  {
    if statements == [] then []
    else
      OutsideFindings(statements[..|statements| - 1]) + if Last(statements).NonTransactional? then [ScriptStatementCount] else []
  }

  /** The errors of a statement list for its mode. */
  function ModeFindings(mode: Mode, statements: seq<StatementKind>): (r: seq<Finding>)
    ensures r == [] <==> ModeFits(mode, statements)
    ensures ScriptStatementCount in r <==>
      if mode == Required then exists s :: s in statements && s.NonTransactional? else |statements| != 1
  {
    match mode
    case Required =>
      var r := OutsideFindings(statements);
      assert r != [] ==> r[0] in r;
      r
    case Forbidden =>
      if |statements| != 1 then [ScriptStatementCount]
      else if statements[0] == NonTransactional(false) then []
      else [ExecutionModeUnsupported]
  }

  method CheckExecutionMode(mode: Mode, p: ParsedScript, findings: seq<Finding>) returns (r: seq<Finding>)
    ensures r == findings + ModeFindings(mode, p.statements)
  {
    r := findings;
    match mode
    case Required =>
      for i := 0 to |p.statements|
        invariant r == findings + OutsideFindings(p.statements[..i])
      {
        assert p.statements[..i + 1][..i] == p.statements[..i];
        if p.statements[i].NonTransactional? {
          r := r + [ScriptStatementCount];
        }
      }
      assert p.statements[..|p.statements|] == p.statements;
    case Forbidden =>
      if |p.statements| != 1 {
        r := r + [ScriptStatementCount];
      }
      if |p.statements| == 1 && p.statements[0].NonTransactional? && p.statements[0].discardsSession {
        r := r + [ExecutionModeUnsupported];
      }
      if |p.statements| == 1 && !p.statements[0].NonTransactional? {
        r := r + [ExecutionModeUnsupported];
      }
  }

  /** A transactional script holds nothing PostgreSQL refuses in a transaction; a nontransactional
      one is a single statement PostgreSQL does refuse there, and not the one that resets the
      session and with it gives the deployment lock back. */
  predicate ModeFits(mode: Mode, statements: seq<StatementKind>) {
    match mode
    case Required => forall s | s in statements :: !s.NonTransactional?
    case Forbidden => |statements| == 1 && statements[0] == NonTransactional(false)
  }

  /** A deploy script passes when it is empty (only a warning) or parses, leaves transactions to the
      runner and fits its mode. */
  predicate DeployPasses(m: Migration) {
    RunsNothing(m.deploy) ||
    (&& EnsureRunnerOwnsTransaction(m.deploy).Ok?
     && ModeFits(m.manifest.transaction, m.deploy.parsed.value.statements))
  }

  /** Statement by statement: an empty script passes; otherwise a transactional one consists of ordinary
      statements, and a nontransactional one is a single statement of its kind that keeps the session. */
  lemma DeployPassesExactly(m: Migration)
    ensures DeployPasses(m) <==>
      || IsBlank(m.deploy.sql)
      || (m.deploy.parsed.Some? &&
            var statements := m.deploy.parsed.value.statements;
            statements == [] || (if m.manifest.transaction == Required then forall s | s in statements :: s == Ordinary
                                 else statements == [NonTransactional(false)]))
  {
    if m.deploy.parsed.Some? {
      var statements := m.deploy.parsed.value.statements;
      assert |statements| == 1 ==> statements == [statements[0]] && statements[0] in statements;
    }
  }

  /** Lints one deploy script: the errors that always fail, in the order they are found. */
  method CheckDeployScript(m: Migration) returns (findings: seq<Finding>)
    ensures findings == [] <==> DeployPasses(m)
    ensures !RunsNothing(m.deploy) && m.deploy.parsed.Some? ==>
      findings == ControlFindings(m.deploy.parsed.value.statements) +
                  ModeFindings(m.manifest.transaction, m.deploy.parsed.value.statements)
  {
    findings := [];
    if RunsNothing(m.deploy) {
      return;
    }
    match m.deploy.parsed
    case None => findings := [ScriptParseError];
    case Some(p) =>
      ghost var at;
      findings, at := CheckTransactionControl(p, findings);
      findings := CheckExecutionMode(m.manifest.transaction, p, findings);
  }
}
