/** One registry schema: its tables, the writes that change them, and what holds of them between
    transactions. */
module Registry {
  import opened Collections
  import opened DependencyOrder
  import opened Migrations
  import opened History
  import opened Ledger

  type ProjectId = nat

  const REGISTRY_FORMAT_VERSION: int := 3

  datatype Meta = Meta(project: ProjectId, version: int)

  /** A nontransactional statement that was started and never resolved. */
  datatype AttemptRow = AttemptRow(
    definition: Digest,
    algorithm: string,
    deploy: string,
    depends: seq<Id>,
    run: RunId)

  /** One comparison-identity transition, kept for ever. */
  datatype AuditRow = AuditRow(
    run: RunId,
    migration: Id,
    oldAlgorithm: string,
    oldDefinition: Digest,
    newAlgorithm: string,
    newDefinition: Digest,
    originalDeploy: string,
    currentDeploy: string,
    operatorAccepted: bool,
    reason: Option<string>)

  /** The tables of one schema. `log` is `events` interleaved with the effects of user SQL. */
  datatype Tables = Tables(
    meta: Option<Meta>,
    applied: AppliedRows,
    attempts: map<Id, AttemptRow>,
    log: Log,
    audit: seq<AuditRow>)

  const EMPTY: Tables := Tables(None, map[], map[], [], [])

  // ----- Writes -----

  datatype Write =
    | RunStatement(effect: Effect)
    | InsertApplied(id: Id, row: AppliedRow)
    | DeleteApplied(id: Id)
    | InsertAttempt(id: Id, attempt: AttemptRow)
    | DeleteAttempt(id: Id)
    | InsertEvent(event: EventRow)
    | SwapDefinition(id: Id, was: Digest, wasAlgorithm: string, becomes: Digest)
    | InsertAudit(audit: AuditRow)
    | CreateMeta(meta: Meta)
    | SetFormat(version: int)

  /** One write. `None` is a refusal: a primary key or check constraint, a table that already
      exists, or a compare-and-set that matched no row. */
  function Apply(t: Tables, w: Write): Option<Tables> {
    match w
    case RunStatement(f) => Some(t.(log := t.log + [Done(f)]))
    case InsertApplied(id, row) => if id in t.applied then None else Some(t.(applied := t.applied[id := row]))
    case DeleteApplied(id) => Some(t.(applied := t.applied - {id}))
    case InsertAttempt(id, a) => if id in t.attempts then None else Some(t.(attempts := t.attempts[id := a]))
    case DeleteAttempt(id) => Some(t.(attempts := t.attempts - {id}))
    case InsertEvent(ev) =>
      if exists e :: e in t.log && e.Logged? && e.event.run == ev.run && e.event.sequence == ev.sequence then None
      else Some(t.(log := t.log + [Logged(ev)]))
    case SwapDefinition(id, was, wasAlgorithm, becomes) =>
      if id in t.applied && t.applied[id].definition == was && t.applied[id].algorithm == wasAlgorithm then
        Some(t.(applied := t.applied[id := t.applied[id].(definition := becomes, algorithm := STRUCTURAL_V1)]))
      else None
    case InsertAudit(a) =>
      if (exists b :: b in t.audit && b.run == a.run && b.migration == a.migration)
         || (a.operatorAccepted && (a.reason.None? || IsBlank(a.reason.value)))
      then None
      else Some(t.(audit := t.audit + [a]))
    case CreateMeta(m) => if t.meta.Some? then None else Some(t.(meta := Some(m)))
    case SetFormat(v) => if t.meta.None? then None else Some(t.(meta := Some(t.meta.value.(version := v))))
  }

  /** A transaction's writes, all or none. */
  function Transact(t: Tables, ws: seq<Write>): Option<Tables>
    decreases |ws|
  {
    if ws == [] then Some(t)
    else
      match Apply(t, ws[0])
      case None => None
      case Some(next) => Transact(next, ws[1..])
  }

  lemma {:induction false} TransactConcat(t: Tables, a: seq<Write>, b: seq<Write>)
    ensures Transact(t, a + b) == match Transact(t, a) case None => None case Some(m) => Transact(m, b)
    decreases |a|
  {
    if a == [] {
      assert a + b == b;
    } else {
      assert (a + b)[1..] == a[1..] + b;
      match Apply(t, a[0])
      case None =>
      case Some(next) => TransactConcat(next, a[1..], b);
    }
  }

  /** What the keys and checks of the tables guarantee by themselves. */
  predicate Constrained(t: Tables) {
    && (forall i, j :: 0 <= i < j < |t.log| && t.log[i].Logged? && t.log[j].Logged? && t.log[i].event.run == t.log[j].event.run ==>
          t.log[i].event.sequence != t.log[j].event.sequence)
    && (forall i, j :: 0 <= i < j < |t.audit| ==> t.audit[i].run != t.audit[j].run || t.audit[i].migration != t.audit[j].migration)
    && (forall a | a in t.audit && a.operatorAccepted :: a.reason.Some? && !IsBlank(a.reason.value))
  }

  /** Whatever is written, the keys hold, history and audit only grow, and a registry stays whose it is. */
  predicate Extends(t: Tables, after: Tables) {
    && (Constrained(t) ==> Constrained(after)) && t.log <= after.log && t.audit <= after.audit
    && (t.meta.Some? ==> after.meta.Some? && after.meta.value.project == t.meta.value.project)
  }

  lemma ApplyExtends(t: Tables, w: Write)
    ensures Apply(t, w).Some? ==> Extends(t, Apply(t, w).value)
  {
    match w {
      case InsertEvent(ev) => assert forall i | 0 <= i < |t.log| :: t.log[i] in t.log;
      case InsertAudit(a) => assert forall i | 0 <= i < |t.audit| :: t.audit[i] in t.audit;
      case _ =>
    }
  }

  lemma {:induction false} ConstraintsHold(t: Tables, ws: seq<Write>)
    ensures Transact(t, ws).Some? ==> Extends(t, Transact(t, ws).value)
    decreases |ws|
  {
    if ws != [] {
      ApplyExtends(t, ws[0]);
      match Apply(t, ws[0])
      case None =>
      case Some(next) => ConstraintsHold(next, ws[1..]);
    }
  }

  // ----- What the runner writes, transaction by transaction -----

  function ScriptWrites(effects: seq<Effect>): seq<Write> {
    if effects == [] then [] else ScriptWrites(effects[..|effects| - 1]) + [RunStatement(Last(effects))]
  }

  lemma {:induction false} ScriptWritesApply(t: Tables, effects: seq<Effect>)
    ensures Transact(t, ScriptWrites(effects)) == Some(t.(log := t.log + AsDone(effects)))
  {
    if effects == [] {
      assert t.log + AsDone(effects) == t.log;
    } else {
      var front := effects[..|effects| - 1];
      ScriptWritesApply(t, front);
      TransactConcat(t, ScriptWrites(front), [RunStatement(Last(effects))]);
      assert t.log + AsDone(front) + [Done(Last(effects))] == t.log + AsDone(effects);
    }
  }

  function DeployEvent(run: RunId, sequence: nat, m: Migration, outcome: Outcome): EventRow {
    EventRow(run, sequence, m.manifest.id, Deploy, outcome, m.manifest.transaction, Some(m.deploy))
  }

  /** A transactional deploy: the script, the applied row and the success event. */
  function DeployWrites(run: RunId, sequence: nat, m: Migration, digest: Digest): seq<Write> {
    ScriptWrites(ScriptEffects(run, m.manifest.id, DeployScript, Some(m.deploy))) +
    [InsertApplied(m.manifest.id, RowFor(m, digest, run)), InsertEvent(DeployEvent(run, sequence, m, Succeeded))]
  }

  function AttemptFor(m: Migration, digest: Digest, run: RunId): AttemptRow {
    AttemptRow(digest, STRUCTURAL_V1, m.deploy.sql, m.manifest.depends, run)
  }

  /** The record that a nontransactional statement is about to run. */
  function AttemptWrites(run: RunId, sequence: nat, m: Migration, digest: Digest): seq<Write> {
    [InsertAttempt(m.manifest.id, AttemptFor(m, digest, run)),
     InsertEvent(EventRow(run, sequence, m.manifest.id, Deploy, Attempted, Forbidden, Some(m.deploy)))]
  }

  /** The record that it succeeded. */
  function FinishWrites(run: RunId, sequence: nat, m: Migration, digest: Digest): seq<Write> {
    [InsertApplied(m.manifest.id, RowFor(m, digest, run)), DeleteAttempt(m.manifest.id),
     InsertEvent(EventRow(run, sequence, m.manifest.id, Deploy, Succeeded, Forbidden, Some(m.deploy)))]
  }

  function RowFromAttempt(a: AttemptRow, run: RunId): AppliedRow {
    AppliedRow(a.definition, a.algorithm, a.deploy, a.depends, Forbidden, run)
  }

  /** An operator's account of an interrupted run, taken from the attempt and not from the project. */
  function ResolveWrites(run: RunId, sequence: nat, id: Id, a: AttemptRow, applied: bool): seq<Write> {
    (if applied then [InsertApplied(id, RowFromAttempt(a, run))] else []) +
    [DeleteAttempt(id),
     InsertEvent(EventRow(run, sequence, id, Resolve, if applied then AssertedApplied else AssertedNotApplied, Forbidden, None))]
  }

  /** A revert: the script, the event and the removal of the applied row. */
  function RevertWrites(run: RunId, sequence: nat, id: Id, script: Script): seq<Write> {
    ScriptWrites(ScriptEffects(run, id, RevertScript, Some(script))) +
    [InsertEvent(EventRow(run, sequence, id, Revert, Succeeded, Required, Some(script))), DeleteApplied(id)]
  }

  /** A migration to record, with the digest of the source at hand. */
  datatype Source = Source(migration: Migration, digest: Digest)

  /** A baseline: rows and events for a whole closure, no SQL. */
  function BaselineWrites(run: RunId, sequence: nat, ms: seq<Source>): seq<Write>
    decreases |ms|
  {
    if ms == [] then []
    else
      [InsertApplied(ms[0].migration.manifest.id, RowFor(ms[0].migration, ms[0].digest, run)),
       InsertEvent(EventRow(run, sequence, ms[0].migration.manifest.id, Baseline, Succeeded, ms[0].migration.manifest.transaction, None))]
      + BaselineWrites(run, sequence + 1, ms[1..])
  }

  // ----- What holds between transactions -----

  /** Everything an applied migration was recorded as depending on is applied. */
  predicate RowsClosed(t: Tables) {
    forall id | id in t.applied :: forall x | x in t.applied[id].depends :: x in t.applied
  }

  /** Everything an unresolved attempt depends on is applied: `resolve --applied` relies on it. */
  predicate AttemptsReady(t: Tables) {
    forall id | id in t.attempts :: forall x | x in t.attempts[id].depends :: x in t.applied
  }

  predicate CoherentAttempt(id: Id, a: AttemptRow) {
    a.definition.id == id && a.definition.depends == Elements(a.depends) && a.definition.mode == Forbidden
  }

  predicate RowsCoherent(t: Tables) {
    && (forall id | id in t.applied :: Coherent(id, t.applied[id]))
    && (forall id | id in t.attempts :: CoherentAttempt(id, t.attempts[id]))
  }

  /** No migration is both applied and unresolved, and at most one attempt is unresolved. */
  predicate Exclusive(t: Tables) {
    && (forall id | id in t.attempts :: id !in t.applied)
    && (forall a, b | a in t.attempts && b in t.attempts :: a == b)
  }

  function AttemptRuns(t: Tables): map<Id, RunId> {
    map id | id in t.attempts :: t.attempts[id].run
  }

  /** The tables are what replaying the log gives. */
  predicate MatchesLog(t: Tables) {
    Replay(t.log) == Standing(t.applied.Keys, AttemptRuns(t))
  }

  /** Audit rows keep their primary key. */
  predicate AuditKeyed(t: Tables) {
    forall i, j :: 0 <= i < j < |t.audit| ==> t.audit[i].run != t.audit[j].run || t.audit[i].migration != t.audit[j].migration
  }

  /** A schema without a registry holds nothing, and the first format had no attempts. */
  predicate Formatted(t: Tables) {
    && (t.meta.None? ==> t == EMPTY)
    && (t.meta.Some? ==> t.meta.value.version >= 1)
    && (t.meta.Some? && t.meta.value.version == 1 ==> t.attempts == map[])
  }

  predicate RowsSound(t: Tables) {
    RowsClosed(t) && AttemptsReady(t) && RowsCoherent(t) && Exclusive(t) && AuditKeyed(t) && Formatted(t)
  }

  predicate Sound(t: Tables) {
    RowsSound(t) && MatchesLog(t) && SoundLog(t.log)
  }

  /** Sequence numbers from `sequence` on are free for `run`. */
  predicate Free(t: Tables, run: RunId, sequence: nat) {
    Below(t.log, run, sequence)
  }

  // ----- Transactions keep it -----

  lemma EmptyIsSound()
    ensures Sound(EMPTY)
  {
  }

  function WithEvent(t: Tables, ev: EventRow): Tables {
    t.(log := t.log + [Logged(ev)])
  }

  lemma EventInserts(t: Tables, ev: EventRow)
    requires Below(t.log, ev.run, ev.sequence)
    ensures Apply(t, InsertEvent(ev)) == Some(WithEvent(t, ev))
  {
  }

  /** An event that only describes (a failure, an unknown outcome, a verification) changes nothing
      else. */
  predicate Descriptive(ev: EventRow) {
    ev.outcome in {Failed, Unknown} || ev.action == Verify
  }

  lemma DescriptiveRows(t: Tables, ev: EventRow)
    requires RowsSound(t) && t.meta.Some?
    ensures RowsSound(WithEvent(t, ev))
  {
  }

  lemma DescriptiveLog(t: Tables, ev: EventRow)
    requires MatchesLog(t) && SoundLog(t.log) && Descriptive(ev) && Free(t, ev.run, ev.sequence)
    ensures MatchesLog(WithEvent(t, ev)) && SoundLog(WithEvent(t, ev).log) && Free(WithEvent(t, ev), ev.run, ev.sequence + 1)
  {
    hide SoundLog;
    EntryAppends(t.log, Logged(ev));
  }

  lemma DescriptiveKeepsSound(t: Tables, ev: EventRow)
    requires Sound(t) && t.meta.Some? && Descriptive(ev) && Free(t, ev.run, ev.sequence)
    ensures Transact(t, [InsertEvent(ev)]) == Some(WithEvent(t, ev))
    ensures Sound(WithEvent(t, ev)) && Free(WithEvent(t, ev), ev.run, ev.sequence + 1)
  {
    EventInserts(t, ev);
    OneWrite(t, InsertEvent(ev));
    DescriptiveRows(t, ev);
    DescriptiveLog(t, ev);
  }

  /** `t` with a script's effects logged. */
  function WithEffects(t: Tables, effects: seq<Effect>): Tables {
    t.(log := t.log + AsDone(effects))
  }

  lemma EffectsKeepSound(t: Tables, effects: seq<Effect>, run: RunId, bound: nat)
    requires SoundLog(t.log) && MatchesLog(t) && Below(t.log, run, bound)
    requires forall f | f in effects :: f.role != Standalone
    ensures var after := WithEffects(t, effects);
      && Legal(after.log) && SequencesIncrease(after.log) && MatchesLog(after)
      && Promised(after.log) + effects == Durable(after.log)
      && Below(after.log, run, bound)
    ensures Transact(t, ScriptWrites(effects)) == Some(WithEffects(t, effects))
  {
    EffectsAppend(t.log, effects);
    ScriptWritesApply(t, effects);
  }

  /** The registry after a transactional deploy has committed. */
  function Deployed(t: Tables, run: RunId, sequence: nat, m: Migration, digest: Digest): Tables {
    var after := WithEffects(t, ScriptEffects(run, m.manifest.id, DeployScript, Some(m.deploy)));
    WithEvent(after, DeployEvent(run, sequence, m, Succeeded))
      .(applied := t.applied[m.manifest.id := RowFor(m, digest, run)])
  }

  /** `m` can be recorded as applied: nothing is unresolved, it is new, and what it needs is there. */
  predicate CanApply(t: Tables, m: Migration, digest: Digest) {
    && t.attempts == map[]
    && m.manifest.id !in t.applied
    && (forall x | x in m.manifest.depends :: x in t.applied)
    && StructuralDigest(m) == Some(digest)
  }

  lemma OneWrite(t: Tables, a: Write)
    ensures Transact(t, [a]) == Apply(t, a)
  {
    assert [a][1..] == [];
    match Apply(t, a)
    case None =>
    case Some(n) => assert Transact(n, []) == Some(n);
  }

  lemma TwoWrites(t: Tables, a: Write, b: Write)
    ensures Transact(t, [a, b]) == match Apply(t, a) case None => None case Some(n) => Apply(n, b)
  {
    assert [a, b][1..] == [b];
    match Apply(t, a)
    case None =>
    case Some(n) => OneWrite(n, b);
  }

  lemma ThreeWrites(t: Tables, a: Write, b: Write, c: Write)
    ensures Transact(t, [a, b, c]) == match Apply(t, a) case None => None case Some(n) => Transact(n, [b, c])
  {
    assert [a, b, c][1..] == [b, c];
  }

  lemma DeployTransacts(t: Tables, run: RunId, sequence: nat, m: Migration, digest: Digest)
    requires Free(t, run, sequence) && m.manifest.id !in t.applied
    ensures Transact(t, DeployWrites(run, sequence, m, digest)) == Some(Deployed(t, run, sequence, m, digest))
  {
    var id := m.manifest.id;
    var effects := ScriptEffects(run, id, DeployScript, Some(m.deploy));
    var after := WithEffects(t, effects);
    var ev := DeployEvent(run, sequence, m, Succeeded);
    EffectsAppend(t.log, effects);
    ScriptWritesApply(t, effects);
    TransactConcat(t, ScriptWrites(effects), [InsertApplied(id, RowFor(m, digest, run)), InsertEvent(ev)]);
    TwoWrites(after, InsertApplied(id, RowFor(m, digest, run)), InsertEvent(ev));
    EventInserts(after.(applied := t.applied[id := RowFor(m, digest, run)]), ev);
  }

  lemma DeployRows(t: Tables, run: RunId, sequence: nat, m: Migration, digest: Digest)
    requires RowsSound(t) && t.meta.Some? && CanApply(t, m, digest)
    ensures RowsSound(Deployed(t, run, sequence, m, digest))
  {
  }

  lemma DeployLog(t: Tables, run: RunId, sequence: nat, m: Migration, digest: Digest)
    requires MatchesLog(t) && SoundLog(t.log) && Free(t, run, sequence)
    requires CanApply(t, m, digest) && m.manifest.transaction == Required
    ensures MatchesLog(Deployed(t, run, sequence, m, digest)) && SoundLog(Deployed(t, run, sequence, m, digest).log)
    ensures Free(Deployed(t, run, sequence, m, digest), run, sequence + 1)
  {
    var effects := ScriptEffects(run, m.manifest.id, DeployScript, Some(m.deploy));
    var after := WithEffects(t, effects);
    EffectsKeepSound(t, effects, run, sequence);
    ReplayAppend(after.log, Logged(DeployEvent(run, sequence, m, Succeeded)));
    assert AttemptRuns(t) == map[];
    assert Deployed(t, run, sequence, m, digest).applied.Keys == t.applied.Keys + {m.manifest.id};
  }

  lemma DeployKeepsSound(t: Tables, run: RunId, sequence: nat, m: Migration, digest: Digest)
    requires Sound(t) && t.meta.Some? && Free(t, run, sequence)
    requires CanApply(t, m, digest) && m.manifest.transaction == Required
    ensures Transact(t, DeployWrites(run, sequence, m, digest)) == Some(Deployed(t, run, sequence, m, digest))
    ensures Sound(Deployed(t, run, sequence, m, digest))
    ensures Free(Deployed(t, run, sequence, m, digest), run, sequence + 1)
  {
    hide RowsClosed, AttemptsReady, RowsCoherent, Exclusive, AuditKeyed, Formatted, MatchesLog, SoundLog, Below,
      StructuralDigest;
    DeployTransacts(t, run, sequence, m, digest);
    DeployRows(t, run, sequence, m, digest);
    DeployLog(t, run, sequence, m, digest);
  }

  /** The registry after an attempt has been recorded. */
  function WithAttempt(t: Tables, run: RunId, sequence: nat, m: Migration, digest: Digest): Tables {
    WithEvent(t, EventRow(run, sequence, m.manifest.id, Deploy, Attempted, Forbidden, Some(m.deploy)))
      .(attempts := t.attempts[m.manifest.id := AttemptFor(m, digest, run)])
  }

  lemma AttemptRows(t: Tables, run: RunId, sequence: nat, m: Migration, digest: Digest)
    requires RowsSound(t) && t.meta.Some? && t.meta.value.version != 1
    requires CanApply(t, m, digest) && m.manifest.transaction == Forbidden
    ensures RowsSound(WithAttempt(t, run, sequence, m, digest))
  {
  }

  lemma AttemptLog(t: Tables, run: RunId, sequence: nat, m: Migration, digest: Digest)
    requires MatchesLog(t) && SoundLog(t.log) && Free(t, run, sequence) && CanApply(t, m, digest)
    ensures MatchesLog(WithAttempt(t, run, sequence, m, digest)) && SoundLog(WithAttempt(t, run, sequence, m, digest).log)
    ensures Free(WithAttempt(t, run, sequence, m, digest), run, sequence + 1)
  {
    hide SoundLog;
    EntryAppends(t.log, Logged(EventRow(run, sequence, m.manifest.id, Deploy, Attempted, Forbidden, Some(m.deploy))));
    assert AttemptRuns(t) == map[];
    assert AttemptRuns(WithAttempt(t, run, sequence, m, digest)) == AttemptRuns(t)[m.manifest.id := run];
  }

  lemma AttemptTransacts(t: Tables, run: RunId, sequence: nat, m: Migration, digest: Digest)
    requires Free(t, run, sequence) && m.manifest.id !in t.attempts
    ensures Transact(t, AttemptWrites(run, sequence, m, digest)) == Some(WithAttempt(t, run, sequence, m, digest))
  {
    var id := m.manifest.id;
    var ev := EventRow(run, sequence, id, Deploy, Attempted, Forbidden, Some(m.deploy));
    TwoWrites(t, InsertAttempt(id, AttemptFor(m, digest, run)), InsertEvent(ev));
    EventInserts(t.(attempts := t.attempts[id := AttemptFor(m, digest, run)]), ev);
  }

  lemma AttemptKeepsSound(t: Tables, run: RunId, sequence: nat, m: Migration, digest: Digest)
    requires Sound(t) && t.meta.Some? && t.meta.value.version != 1 && Free(t, run, sequence)
    requires CanApply(t, m, digest) && m.manifest.transaction == Forbidden
    ensures Transact(t, AttemptWrites(run, sequence, m, digest)) == Some(WithAttempt(t, run, sequence, m, digest))
    ensures Sound(WithAttempt(t, run, sequence, m, digest))
    ensures Free(WithAttempt(t, run, sequence, m, digest), run, sequence + 1)
  {
    assert m.manifest.id !in t.attempts;
    hide RowsClosed, AttemptsReady, RowsCoherent, Exclusive, AuditKeyed, Formatted, MatchesLog, SoundLog, Below,
      CanApply;
    AttemptTransacts(t, run, sequence, m, digest);
    AttemptRows(t, run, sequence, m, digest);
    AttemptLog(t, run, sequence, m, digest);
  }

  /** The statement of an attempt is handed to the server. */
  function WithSent(t: Tables, run: RunId, id: Id): Tables {
    t.(log := t.log + [Sent(run, id)])
  }

  lemma SendKeepsSound(t: Tables, run: RunId, id: Id)
    requires Sound(t) && id in t.attempts && t.attempts[id].run == run && !WasSent(t.log, run, id)
    ensures Sound(WithSent(t, run, id))
    ensures forall r, n: nat | Free(t, r, n) :: Free(WithSent(t, run, id), r, n)
  {
    EntryAppends(t.log, Sent(run, id));
  }

  /** The statement takes effect, whether or not anyone is still there to hear of it. */
  function WithLanded(t: Tables, run: RunId, id: Id): Tables {
    t.(log := t.log + [Done(Effect(run, id, Standalone, 0))])
  }

  lemma LandKeepsSound(t: Tables, run: RunId, id: Id)
    requires Sound(t) && WasSent(t.log, run, id) && !Landed(t.log, run, id) && t.meta.Some?
    ensures Sound(WithLanded(t, run, id))
    ensures forall r, n: nat | Free(t, r, n) :: Free(WithLanded(t, run, id), r, n)
  {
    EntryAppends(t.log, Done(Effect(run, id, Standalone, 0)));
  }

  /** The registry after a nontransactional success has been recorded. */
  function Finished(t: Tables, run: RunId, sequence: nat, m: Migration, digest: Digest): Tables {
    WithEvent(t, EventRow(run, sequence, m.manifest.id, Deploy, Succeeded, Forbidden, Some(m.deploy)))
      .(applied := t.applied[m.manifest.id := RowFor(m, digest, run)], attempts := t.attempts - {m.manifest.id})
  }

  /** `run` made the unresolved attempt of `m`, from the source it still holds. */
  predicate OwnAttempt(t: Tables, run: RunId, m: Migration, digest: Digest) {
    && m.manifest.id in t.attempts
    && t.attempts[m.manifest.id] == AttemptFor(m, digest, run)
    && StructuralDigest(m) == Some(digest)
    && m.manifest.transaction == Forbidden
  }

  lemma FinishTransacts(t: Tables, run: RunId, sequence: nat, m: Migration, digest: Digest)
    requires Free(t, run, sequence) && m.manifest.id !in t.applied
    ensures Transact(t, FinishWrites(run, sequence, m, digest)) == Some(Finished(t, run, sequence, m, digest))
  {
    var id := m.manifest.id;
    var ev := EventRow(run, sequence, id, Deploy, Succeeded, Forbidden, Some(m.deploy));
    var a := t.(applied := t.applied[id := RowFor(m, digest, run)]);
    var b := a.(attempts := a.attempts - {id});
    ThreeWrites(t, InsertApplied(id, RowFor(m, digest, run)), DeleteAttempt(id), InsertEvent(ev));
    TwoWrites(a, DeleteAttempt(id), InsertEvent(ev));
    EventInserts(b, ev);
  }

  lemma FinishRows(t: Tables, run: RunId, sequence: nat, m: Migration, digest: Digest)
    requires RowsSound(t) && OwnAttempt(t, run, m, digest)
    ensures RowsSound(Finished(t, run, sequence, m, digest)) && Finished(t, run, sequence, m, digest).attempts == map[]
  {
  }

  lemma FinishLog(t: Tables, run: RunId, sequence: nat, m: Migration, digest: Digest)
    requires MatchesLog(t) && SoundLog(t.log) && Free(t, run, sequence) && OwnAttempt(t, run, m, digest)
    requires Landed(t.log, run, m.manifest.id)
    ensures MatchesLog(Finished(t, run, sequence, m, digest)) && SoundLog(Finished(t, run, sequence, m, digest).log)
    ensures Free(Finished(t, run, sequence, m, digest), run, sequence + 1)
  {
    hide SoundLog, Landed;
    var id := m.manifest.id;
    var after := Finished(t, run, sequence, m, digest);
    EntryAppends(t.log, Logged(EventRow(run, sequence, id, Deploy, Succeeded, Forbidden, Some(m.deploy))));
    assert AttemptRuns(after) == AttemptRuns(t) - {id};
    assert after.applied.Keys == t.applied.Keys + {id};
  }

  lemma FinishKeepsSound(t: Tables, run: RunId, sequence: nat, m: Migration, digest: Digest)
    requires Sound(t) && Free(t, run, sequence) && OwnAttempt(t, run, m, digest) && Landed(t.log, run, m.manifest.id)
    ensures Transact(t, FinishWrites(run, sequence, m, digest)) == Some(Finished(t, run, sequence, m, digest))
    ensures Sound(Finished(t, run, sequence, m, digest)) && Finished(t, run, sequence, m, digest).attempts == map[]
    ensures Free(Finished(t, run, sequence, m, digest), run, sequence + 1)
  {
    assert m.manifest.id !in t.applied;
    hide RowsClosed, AttemptsReady, RowsCoherent, Exclusive, AuditKeyed, Formatted, MatchesLog, SoundLog, Below,
      Landed, OwnAttempt;
    FinishTransacts(t, run, sequence, m, digest);
    FinishRows(t, run, sequence, m, digest);
    FinishLog(t, run, sequence, m, digest);
  }

  /** The registry after an operator has said what happened. */
  function Resolved(t: Tables, run: RunId, sequence: nat, id: Id, a: AttemptRow, applied: bool): Tables {
    WithEvent(t, EventRow(run, sequence, id, Resolve, if applied then AssertedApplied else AssertedNotApplied, Forbidden, None))
      .(applied := if applied then t.applied[id := RowFromAttempt(a, run)] else t.applied, attempts := t.attempts - {id})
  }

  lemma ResolveTransacts(t: Tables, run: RunId, sequence: nat, id: Id, a: AttemptRow, applied: bool)
    requires Free(t, run, sequence) && id !in t.applied
    ensures Transact(t, ResolveWrites(run, sequence, id, a, applied)) == Some(Resolved(t, run, sequence, id, a, applied))
  {
    var ev := EventRow(run, sequence, id, Resolve, if applied then AssertedApplied else AssertedNotApplied, Forbidden, None);
    var i := if applied then t.(applied := t.applied[id := RowFromAttempt(a, run)]) else t;
    if applied {
      assert ResolveWrites(run, sequence, id, a, applied)
          == [InsertApplied(id, RowFromAttempt(a, run)), DeleteAttempt(id), InsertEvent(ev)];
      ThreeWrites(t, InsertApplied(id, RowFromAttempt(a, run)), DeleteAttempt(id), InsertEvent(ev));
    } else {
      assert ResolveWrites(run, sequence, id, a, applied) == [DeleteAttempt(id), InsertEvent(ev)];
    }
    TwoWrites(i, DeleteAttempt(id), InsertEvent(ev));
    EventInserts(i.(attempts := i.attempts - {id}), ev);
  }

  lemma ResolveRows(t: Tables, run: RunId, sequence: nat, id: Id, a: AttemptRow, applied: bool)
    requires RowsSound(t) && id in t.attempts && t.attempts[id] == a
    ensures RowsSound(Resolved(t, run, sequence, id, a, applied))
  {
  }

  lemma ResolveLog(t: Tables, run: RunId, sequence: nat, id: Id, a: AttemptRow, applied: bool)
    requires MatchesLog(t) && SoundLog(t.log) && Free(t, run, sequence) && id in t.attempts && id !in t.applied
    ensures MatchesLog(Resolved(t, run, sequence, id, a, applied)) && SoundLog(Resolved(t, run, sequence, id, a, applied).log)
    ensures Free(Resolved(t, run, sequence, id, a, applied), run, sequence + 1)
  {
    var after := Resolved(t, run, sequence, id, a, applied);
    hide SoundLog;
    EntryAppends(t.log, Logged(EventRow(run, sequence, id, Resolve,
      if applied then AssertedApplied else AssertedNotApplied, Forbidden, None)));
    assert AttemptRuns(after) == AttemptRuns(t) - {id};
    assert applied ==> after.applied.Keys == t.applied.Keys + {id};
  }

  /** Resolving never consults a plan; it is sound because an attempt's dependencies stay applied for
      as long as it is unresolved. */
  lemma ResolveKeepsSound(t: Tables, run: RunId, sequence: nat, id: Id, a: AttemptRow, applied: bool)
    requires Sound(t) && Free(t, run, sequence) && id in t.attempts && t.attempts[id] == a
    ensures Transact(t, ResolveWrites(run, sequence, id, a, applied)) == Some(Resolved(t, run, sequence, id, a, applied))
    ensures Sound(Resolved(t, run, sequence, id, a, applied))
    ensures Free(Resolved(t, run, sequence, id, a, applied), run, sequence + 1)
  {
    assert id !in t.applied;
    hide RowsClosed, AttemptsReady, RowsCoherent, Exclusive, AuditKeyed, Formatted, MatchesLog, SoundLog, Below;
    ResolveTransacts(t, run, sequence, id, a, applied);
    ResolveRows(t, run, sequence, id, a, applied);
    ResolveLog(t, run, sequence, id, a, applied);
  }

  /** The registry after a revert has committed. */
  function Reverted(t: Tables, run: RunId, sequence: nat, id: Id, script: Script): Tables {
    var after := WithEffects(t, ScriptEffects(run, id, RevertScript, Some(script)));
    WithEvent(after, EventRow(run, sequence, id, Revert, Succeeded, Required, Some(script)))
      .(applied := t.applied - {id})
  }

  /** Nothing is unresolved and nothing applied was recorded as depending on `id`. */
  predicate CanRevert(t: Tables, id: Id) {
    t.attempts == map[] && id in t.applied && forall n | n in t.applied :: id !in t.applied[n].depends
  }

  lemma RevertTransacts(t: Tables, run: RunId, sequence: nat, id: Id, script: Script)
    requires Free(t, run, sequence)
    ensures Transact(t, RevertWrites(run, sequence, id, script)) == Some(Reverted(t, run, sequence, id, script))
  {
    var effects := ScriptEffects(run, id, RevertScript, Some(script));
    var after := WithEffects(t, effects);
    var ev := EventRow(run, sequence, id, Revert, Succeeded, Required, Some(script));
    EffectsAppend(t.log, effects);
    ScriptWritesApply(t, effects);
    TransactConcat(t, ScriptWrites(effects), [InsertEvent(ev), DeleteApplied(id)]);
    TwoWrites(after, InsertEvent(ev), DeleteApplied(id));
    EventInserts(after, ev);
  }

  lemma RevertKeepsSound(t: Tables, run: RunId, sequence: nat, id: Id, script: Script)
    requires Sound(t) && Free(t, run, sequence) && CanRevert(t, id)
    ensures Transact(t, RevertWrites(run, sequence, id, script)) == Some(Reverted(t, run, sequence, id, script))
    ensures Sound(Reverted(t, run, sequence, id, script))
    ensures Free(Reverted(t, run, sequence, id, script), run, sequence + 1)
  {
    hide RowsClosed, AttemptsReady, RowsCoherent, Exclusive, AuditKeyed, Formatted, MatchesLog, SoundLog, Below,
      CanRevert;
    RevertTransacts(t, run, sequence, id, script);
    RevertRows(t, run, sequence, id, script);
    RevertLog(t, run, sequence, id, script);
  }

  lemma RevertRows(t: Tables, run: RunId, sequence: nat, id: Id, script: Script)
    requires RowsSound(t) && CanRevert(t, id)
    ensures RowsSound(Reverted(t, run, sequence, id, script))
  {
  }

  lemma RevertLog(t: Tables, run: RunId, sequence: nat, id: Id, script: Script)
    requires MatchesLog(t) && SoundLog(t.log) && Free(t, run, sequence) && CanRevert(t, id)
    ensures MatchesLog(Reverted(t, run, sequence, id, script)) && SoundLog(Reverted(t, run, sequence, id, script).log)
    ensures Free(Reverted(t, run, sequence, id, script), run, sequence + 1)
  {
    var effects := ScriptEffects(run, id, RevertScript, Some(script));
    EffectsKeepSound(t, effects, run, sequence);
    ReplayAppend(WithEffects(t, effects).log, Logged(EventRow(run, sequence, id, Revert, Succeeded, Required, Some(script))));
    assert AttemptRuns(t) == map[];
    assert Reverted(t, run, sequence, id, script).applied.Keys == t.applied.Keys - {id};
  }

  /** The registry after one migration of a closure has been recorded. */
  function Baselined(t: Tables, run: RunId, sequence: nat, m: Migration, digest: Digest): Tables {
    WithEvent(t, EventRow(run, sequence, m.manifest.id, Baseline, Succeeded, m.manifest.transaction, None))
      .(applied := t.applied[m.manifest.id := RowFor(m, digest, run)])
  }

  lemma BaselineOneRows(t: Tables, run: RunId, sequence: nat, m: Migration, digest: Digest)
    requires RowsSound(t) && t.meta.Some? && CanApply(t, m, digest)
    ensures RowsSound(Baselined(t, run, sequence, m, digest))
  {
  }

  lemma BaselineOneLog(t: Tables, run: RunId, sequence: nat, m: Migration, digest: Digest)
    requires MatchesLog(t) && SoundLog(t.log) && Free(t, run, sequence) && CanApply(t, m, digest)
    ensures MatchesLog(Baselined(t, run, sequence, m, digest)) && SoundLog(Baselined(t, run, sequence, m, digest).log)
    ensures Free(Baselined(t, run, sequence, m, digest), run, sequence + 1)
  {
    hide SoundLog;
    EntryAppends(t.log, Logged(EventRow(run, sequence, m.manifest.id, Baseline, Succeeded, m.manifest.transaction, None)));
    assert AttemptRuns(t) == map[];
    assert Baselined(t, run, sequence, m, digest).applied.Keys == t.applied.Keys + {m.manifest.id};
  }

  lemma BaselineOneKeepsSound(t: Tables, run: RunId, sequence: nat, m: Migration, digest: Digest)
    requires Sound(t) && t.meta.Some? && Free(t, run, sequence) && CanApply(t, m, digest)
    ensures Sound(Baselined(t, run, sequence, m, digest)) && Baselined(t, run, sequence, m, digest).attempts == map[]
    ensures Free(Baselined(t, run, sequence, m, digest), run, sequence + 1)
  {
    assert Baselined(t, run, sequence, m, digest).attempts == map[];
    hide RowsClosed, AttemptsReady, RowsCoherent, Exclusive, AuditKeyed, Formatted, MatchesLog, SoundLog, Below,
      CanApply;
    BaselineOneRows(t, run, sequence, m, digest);
    BaselineOneLog(t, run, sequence, m, digest);
  }

  /** A closure can be recorded front to back. */
  predicate CanBaseline(applied: set<Id>, ms: seq<Source>)
    decreases |ms|
  {
    ms == [] ||
    (&& ms[0].migration.manifest.id !in applied
     && (forall x | x in ms[0].migration.manifest.depends :: x in applied)
     && StructuralDigest(ms[0].migration) == Some(ms[0].digest)
     && CanBaseline(applied + {ms[0].migration.manifest.id}, ms[1..]))
  }

  function BaselineIds(ms: seq<Source>): set<Id> {
    set e | e in ms :: e.migration.manifest.id
  }

  predicate BaselineResult(t: Tables, run: RunId, sequence: nat, ms: seq<Source>, r: Tables) {
    && Sound(r) && r.meta == t.meta && r.attempts == map[] && Free(r, run, sequence + |ms|)
    && r.applied.Keys == t.applied.Keys + BaselineIds(ms)
  }

  lemma {:induction false} BaselineKeepsSound(t: Tables, run: RunId, sequence: nat, ms: seq<Source>)
    requires Sound(t) && t.meta.Some? && t.attempts == map[] && Free(t, run, sequence)
    requires CanBaseline(t.applied.Keys, ms)
    ensures Transact(t, BaselineWrites(run, sequence, ms)).Some?
    ensures BaselineResult(t, run, sequence, ms, Transact(t, BaselineWrites(run, sequence, ms)).value)
    decreases |ms|
  {
    hide RowsSound, MatchesLog, SoundLog, Below;
    if ms == [] {
      assert BaselineIds(ms) == {};
    } else {
      var Source(m, digest) := ms[0];
      var next := Baselined(t, run, sequence, m, digest);
      BaselineOneKeepsSound(t, run, sequence, m, digest);
      BaselineStep(t, run, sequence, ms);
      assert next.applied.Keys == t.applied.Keys + {m.manifest.id};
      BaselineKeepsSound(next, run, sequence + 1, ms[1..]);
      BaselineIdsCons(t.applied.Keys, ms);
    }
  }

  lemma BaselineIdsCons(applied: set<Id>, ms: seq<Source>)
    requires ms != []
    ensures applied + {ms[0].migration.manifest.id} + BaselineIds(ms[1..]) == applied + BaselineIds(ms)
  {
    assert ms == [ms[0]] + ms[1..];
  }

  lemma BaselineStep(t: Tables, run: RunId, sequence: nat, ms: seq<Source>)
    requires ms != [] && Free(t, run, sequence) && ms[0].migration.manifest.id !in t.applied
    ensures Transact(t, BaselineWrites(run, sequence, ms)) ==
            Transact(Baselined(t, run, sequence, ms[0].migration, ms[0].digest), BaselineWrites(run, sequence + 1, ms[1..]))
  {
    var Source(m, digest) := ms[0];
    var id := m.manifest.id;
    var ev := EventRow(run, sequence, id, Baseline, Succeeded, m.manifest.transaction, None);
    var first := [InsertApplied(id, RowFor(m, digest, run)), InsertEvent(ev)];
    TransactConcat(t, first, BaselineWrites(run, sequence + 1, ms[1..]));
    TwoWrites(t, InsertApplied(id, RowFor(m, digest, run)), InsertEvent(ev));
    EventInserts(t.(applied := t.applied[id := RowFor(m, digest, run)]), ev);
  }

  // ----- Reading -----

  /** One consistent read of a schema. */
  datatype RegistryState = RegistryState(
    format: Option<int>,
    project: Option<ProjectId>,
    applied: AppliedRows,
    unresolved: map<Id, AttemptRow>)

  datatype RegistryError =
    | FormatTooNew(version: int)
    | InvalidFormat(version: int)
    | UnreadableAlgorithm
    | ProjectMismatch
    | NotInitialized
    | TargetBlocked(id: Id)

  const UNINITIALIZED := RegistryState(None, None, map[], map[])

  /** Reads metadata and state from one snapshot: no metadata means no registry, the first format has
      no attempts table, and a newer or damaged registry is refused. */
  function ReadState(t: Tables): Result<RegistryState, RegistryError> {
    if t.meta.None? then Ok(UNINITIALIZED)
    else
      var version := t.meta.value.version;
      if version > REGISTRY_FORMAT_VERSION then Err(FormatTooNew(version))
      else if version < 1 then Err(InvalidFormat(version))
      else
        var unresolved := if version >= 2 then t.attempts else map[];
        if (exists id :: id in t.applied && !KnownAlgorithm(t.applied[id].algorithm))
           || (exists id :: id in unresolved && !KnownAlgorithm(unresolved[id].algorithm))
        then Err(UnreadableAlgorithm)
        else Ok(RegistryState(Some(version), Some(t.meta.value.project), t.applied, unresolved))
  }

  /** Every applied row, and every attempt of a format that has them, names a policy this release can
      reproduce. */
  predicate PoliciesKnown(t: Tables) {
    && (forall id | id in t.applied :: KnownAlgorithm(t.applied[id].algorithm))
    && (t.meta.Some? && t.meta.value.version >= 2 ==> forall id | id in t.attempts :: KnownAlgorithm(t.attempts[id].algorithm))
  }

  /** A read succeeds exactly when there is no registry, or one in a format this release knows with
      policies it knows; and the newer format, the damaged one and the unknown policy each have their
      own refusal, in that order. */
  lemma ReadsExactly(t: Tables)
    ensures ReadState(t).Ok? <==> t.meta.None? || (1 <= t.meta.value.version <= 3 && PoliciesKnown(t))
    ensures ReadState(t).Ok? ==> (RequireInitialized(ReadState(t).value).Ok? <==> t.meta.Some?)
    ensures t.meta.None? ==> ReadState(t).value.format.None? && ReadState(t).value.applied == map[] && ReadState(t).value.unresolved == map[]
    ensures t.meta.Some? ==>
      var version := t.meta.value.version;
      && (ReadState(t) == Err(FormatTooNew(version)) <==> version > 3)
      && (ReadState(t) == Err(InvalidFormat(version)) <==> version < 1)
      && (ReadState(t) == Err(UnreadableAlgorithm) <==> 1 <= version <= 3 && !PoliciesKnown(t))
      && (ReadState(t).Ok? ==>
            ReadState(t).value == RegistryState(Some(version), Some(t.meta.value.project), t.applied, if version == 1 then map[] else t.attempts))
  {
  }

  /** Of sound tables a reader sees exactly the rows. */
  lemma ReadStateIsExact(t: Tables)
    requires Sound(t) && ReadState(t).Ok?
    ensures ReadState(t).value.applied == t.applied && ReadState(t).value.unresolved == t.attempts
  {
  }

  function CheckProject(state: RegistryState, project: ProjectId): Result<(), RegistryError> {
    if state.project.Some? && state.project.value != project then Err(ProjectMismatch) else Ok(())
  }

  function RequireInitialized(state: RegistryState): Result<(), RegistryError> {
    if state.format.Some? then Ok(()) else Err(NotInitialized)
  }

  function RequireNotBlocked(state: RegistryState): (r: Result<(), RegistryError>)
    ensures r.Ok? <==> state.unresolved == map[]
    ensures r.Err? ==> r.error.TargetBlocked? && r.error.id in state.unresolved
  {
    if state.unresolved == map[] then Ok(()) else
      assert state.unresolved.Keys != {};
      Err(TargetBlocked(Min(state.unresolved.Keys)))
  }

  /** Brings a registry that was read as `state` to the current format, inside a transaction. */
  function UpgradeWrites(state: RegistryState, project: ProjectId): seq<Write> {
    if state.format == Some(REGISTRY_FORMAT_VERSION) then []
    else if state.format.None? then [CreateMeta(Meta(project, REGISTRY_FORMAT_VERSION))]
    else [SetFormat(REGISTRY_FORMAT_VERSION)]
  }

  /** The tables after an upgrade: only the metadata changes. */
  function Upgraded(t: Tables, project: ProjectId): Tables {
    t.(meta := Some(Meta(project, REGISTRY_FORMAT_VERSION)))
  }

  lemma UpgradeKeepsSound(t: Tables, state: RegistryState, project: ProjectId)
    requires Sound(t) && ReadState(t) == Ok(state) && CheckProject(state, project).Ok?
    ensures Transact(t, UpgradeWrites(state, project)) == Some(Upgraded(t, project))
    ensures Sound(Upgraded(t, project))
    ensures forall r, n: nat | Free(t, r, n) :: Free(Upgraded(t, project), r, n)
  {
    if t.meta.None? {
      OneWrite(t, CreateMeta(Meta(project, REGISTRY_FORMAT_VERSION)));
    } else {
      OneWrite(t, SetFormat(REGISTRY_FORMAT_VERSION));
    }
  }
}
