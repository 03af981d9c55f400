/** The one-way transition of applied comparison identities from exact bytes to structure. */
module Rehash {
  import opened Collections
  import opened DependencyOrder
  import opened Canonical
  import opened Migrations
  import opened Lint
  import opened Graphs
  import opened History
  import opened Ledger
  import opened Registry

  datatype Disposition = Verified | Accepted | AlreadyCurrent | SourceMismatch | Blocked

  datatype RehashError =
    | ReasonRequired
    | RegistryNotInitialized
    | RegistryBlocked
    | FromHistory(error: HistoryError)
    | DependenciesDiffer(id: Id)
    | ModeDiffers(id: Id)
    | SourceFailsLint(id: Id)
    | SourceDiffers(id: Id)

  datatype RehashEntry = RehashEntry(
    id: Id,
    disposition: Disposition,
    oldDefinition: Digest,
    oldAlgorithm: string,
    newDefinition: Option<Digest>,
    originalDeploy: string,
    currentDeploy: Option<string>,
    error: Option<RehashError>)

  predicate Changes(e: RehashEntry) {
    e.disposition == Verified || e.disposition == Accepted
  }

  function CheckExecutionMetadata(m: Migration, row: AppliedRow): Result<(), RehashError> {
    if !SameList(m.manifest.depends, row.depends) then Err(DependenciesDiffer(m.manifest.id))
    else if m.manifest.transaction != row.mode then Err(ModeDiffers(m.manifest.id))
    else Ok(())
  }

  /** Everything that has to hold of one applied migration before its source is compared. */
  function Precheck(g: Graph, state: RegistryState, id: Id, row: AppliedRow): Result<Digest, RehashError> {
    if !KnownAlgorithm(row.algorithm) then Err(FromHistory(UnknownAlgorithm(row.algorithm)))
    else if id !in g.migrations then Err(FromHistory(MigrationMissing(id)))
    else
      var m := g.migrations[id];
      match CheckDependenciesApplied(m, state.applied)
      case Err(e) => Err(FromHistory(e))
      case Ok(_) =>
        match CheckExecutionMetadata(m, row)
        case Err(e) => Err(e)
        case Ok(_) =>
          if !DeployPasses(m) then Err(SourceFailsLint(id))
          else
            match StructuralDigest(m)
            case None => Err(FromHistory(UnparsableSource(id)))
            case Some(digest) => Ok(digest)
  }

  /** Decides how one applied migration takes part, and captures the evidence. */
  function Classify(g: Graph, state: RegistryState, id: Id, row: AppliedRow, acceptCurrent: bool): RehashEntry {
    var blank := RehashEntry(id, Blocked, row.definition, row.algorithm, None, row.deploy, None, None);
    match Precheck(g, state, id, row)
    case Err(e) =>
      // The source bytes are captured before they are parsed.
      var captured := id in g.migrations && e == FromHistory(UnparsableSource(id));
      blank.(error := Some(e), currentDeploy := if captured then Some(g.migrations[id].deploy.sql) else None)
    case Ok(digest) =>
      var m := g.migrations[id];
      var entry := blank.(currentDeploy := Some(m.deploy.sql), newDefinition := Some(digest));
      if row.algorithm == STRUCTURAL_V1 then
        match CheckUnchanged(m, row)
        case Err(e) => entry.(error := Some(FromHistory(e)))
        case Ok(_) => entry.(disposition := AlreadyCurrent)
      else if RawDigest(m) == row.definition then entry.(disposition := Verified)
      else if acceptCurrent then entry.(disposition := Accepted)
      else entry.(disposition := SourceMismatch, error := Some(SourceDiffers(id)))
  }

  /** Everything a rehash asks of a row before it looks at what its policy recorded. */
  predicate Admissible(g: Graph, rows: AppliedRows, id: Id, row: AppliedRow) {
    && KnownAlgorithm(row.algorithm) && id in g.migrations
    && (forall x | x in g.migrations[id].manifest.depends :: x in rows)
    && SameList(g.migrations[id].manifest.depends, row.depends)
    && g.migrations[id].manifest.transaction == row.mode
    && DeployPasses(g.migrations[id]) && g.migrations[id].deploy.parsed.Some?
  }

  /** The row was recorded under the exact-bytes policy of exactly this source. */
  predicate BytesMatch(m: Migration, row: AppliedRow) {
    row.definition == RawV1(m.manifest.id, m.manifest.transaction, Elements(m.manifest.depends), m.deploy.sql)
  }

  /** What the part an entry takes says about its row and the source: proof exactly when the recorded
      bytes are those of the source, an operator's word exactly when they are not and it was given. */
  predicate Classified(g: Graph, state: RegistryState, id: Id, row: AppliedRow, acceptCurrent: bool, e: RehashEntry) {
    var admissible := Admissible(g, state.applied, id, row);
    var raw := row.algorithm == RAW_V1;
    && e.id == id && e.oldDefinition == row.definition && e.oldAlgorithm == row.algorithm && e.originalDeploy == row.deploy
    && (e.disposition == Verified <==> admissible && raw && BytesMatch(g.migrations[id], row))
    && (e.disposition == Accepted <==> admissible && raw && !BytesMatch(g.migrations[id], row) && acceptCurrent)
    && (e.disposition == SourceMismatch <==> admissible && raw && !BytesMatch(g.migrations[id], row) && !acceptCurrent)
    && (e.disposition == AlreadyCurrent <==> admissible && !raw && StructuralDigest(g.migrations[id]) == Some(row.definition))
    && (e.error.None? <==> e.disposition == Verified || e.disposition == Accepted || e.disposition == AlreadyCurrent)
    && (e.disposition == SourceMismatch ==> e.error == Some(SourceDiffers(id)))
    && (e.error.None? ==> e.newDefinition == StructuralDigest(g.migrations[id]) && e.currentDeploy == Some(g.migrations[id].deploy.sql))
  }

  lemma PrecheckExactly(g: Graph, state: RegistryState, id: Id, row: AppliedRow)
    ensures Precheck(g, state, id, row).Ok? <==> Admissible(g, state.applied, id, row)
    ensures Admissible(g, state.applied, id, row) ==> Some(Precheck(g, state, id, row).value) == StructuralDigest(g.migrations[id])
    ensures Admissible(g, state.applied, id, row) ==> KnownAlgorithm(row.algorithm) && id in g.migrations
  {
    hide DeployPasses, Canonicalize;
  }

  lemma ClassifiesExactly(g: Graph, state: RegistryState, id: Id, row: AppliedRow, acceptCurrent: bool)
    ensures Classified(g, state, id, row, acceptCurrent, Classify(g, state, id, row, acceptCurrent))
  {
    hide Precheck, Admissible, StructuralDigest;
    PrecheckExactly(g, state, id, row);
    assert RAW_V1 != STRUCTURAL_V1;
  }

  /** A row that cannot take part is refused for the first thing that stands against it. */
  lemma ObstacleIsNamed(g: Graph, state: RegistryState, id: Id, row: AppliedRow, acceptCurrent: bool)
    requires KnownAlgorithm(row.algorithm) && (id in g.migrations ==> g.migrations[id].manifest.id == id)
    ensures var error := Classify(g, state, id, row, acceptCurrent).error;
      && (error == Some(FromHistory(MigrationMissing(id))) <==> id !in g.migrations)
      && (id in g.migrations && (forall x | x in g.migrations[id].manifest.depends :: x in state.applied) ==>
            var m := g.migrations[id];
            && (error == Some(DependenciesDiffer(id)) <==> !SameList(m.manifest.depends, row.depends))
            && (error == Some(ModeDiffers(id)) <==> SameList(m.manifest.depends, row.depends) && m.manifest.transaction != row.mode)
            && (error == Some(SourceFailsLint(id)) <==>
                  SameList(m.manifest.depends, row.depends) && m.manifest.transaction == row.mode && !DeployPasses(m)))
  {
    hide DeployPasses, Canonicalize;
  }

  /** The same, field by field: an entry starts out blocked, keeps what was captured before a check
      failed, and carries the error of the first that did. */
  method FillEntry(g: Graph, state: RegistryState, id: Id, row: AppliedRow, acceptCurrent: bool) returns (entry: RehashEntry)
    ensures entry == Classify(g, state, id, row, acceptCurrent)
    ensures Classified(g, state, id, row, acceptCurrent, entry)
  {
    ClassifiesExactly(g, state, id, row, acceptCurrent);
    hide Classified;
    entry := RehashEntry(id, Blocked, row.definition, row.algorithm, None, row.deploy, None, None);
    if !KnownAlgorithm(row.algorithm) {
      return entry.(error := Some(FromHistory(UnknownAlgorithm(row.algorithm))));
    }
    if id !in g.migrations {
      return entry.(error := Some(FromHistory(MigrationMissing(id))));
    }
    var m := g.migrations[id];
    var dependencies := CheckDependenciesApplied(m, state.applied);
    if dependencies.Err? {
      return entry.(error := Some(FromHistory(dependencies.error)));
    }
    var metadata := CheckExecutionMetadata(m, row);
    if metadata.Err? {
      return entry.(error := Some(metadata.error));
    }
    var findings := CheckDeployScript(m);
    if findings != [] {
      return entry.(error := Some(SourceFailsLint(id)));
    }
    entry := entry.(currentDeploy := Some(m.deploy.sql));
    entry := entry.(newDefinition := StructuralDigest(m));
    if entry.newDefinition.None? {
      return entry.(error := Some(FromHistory(UnparsableSource(id))));
    }
    if row.algorithm == STRUCTURAL_V1 {
      var checked := CheckUnchanged(m, row);
      if checked.Err? {
        return entry.(error := Some(FromHistory(checked.error)));
      }
      entry := entry.(disposition := AlreadyCurrent);
    } else if RawDigest(m) == row.definition {
      entry := entry.(disposition := Verified);
    } else if acceptCurrent {
      entry := entry.(disposition := Accepted);
    } else {
      entry := entry.(disposition := SourceMismatch, error := Some(SourceDiffers(id)));
    }
  }

  function Entries(g: Graph, state: RegistryState, ids: seq<Id>, acceptCurrent: bool): seq<RehashEntry>
    requires forall id | id in ids :: id in state.applied
  {
    seq(|ids|, i requires 0 <= i < |ids| =>
      assert ids[i] in ids; Classify(g, state, ids[i], state.applied[ids[i]], acceptCurrent))
  }

  /** A complete batch, every applied row in id order; computed without touching the registry. */
  function MakeRehashPlan(g: Graph, state: RegistryState, acceptCurrent: bool): Result<seq<RehashEntry>, RehashError> {
    if state.format.None? then Err(RegistryNotInitialized)
    else if state.unresolved != map[] then Err(RegistryBlocked)
    else Ok(Entries(g, state, Ascending(state.applied.Keys), acceptCurrent))
  }

  /** Refuses the whole batch for its first entry that cannot take part. */
  function Validate(plan: seq<RehashEntry>): (r: Result<(), RehashError>)
    ensures r.Ok? <==> forall e | e in plan :: e.error.None?
  {
    if plan == [] then Ok(()) else if plan[0].error.Some? then Err(plan[0].error.value) else Validate(plan[1..])
  }

  predicate IsEmpty(plan: seq<RehashEntry>) {
    forall e | e in plan :: !Changes(e)
  }

  function AuditFor(e: RehashEntry, run: RunId, reason: Option<string>): AuditRow
    requires e.newDefinition.Some? && e.currentDeploy.Some?
  {
    AuditRow(run, e.id, e.oldAlgorithm, e.oldDefinition, STRUCTURAL_V1, e.newDefinition.value, e.originalDeploy,
      e.currentDeploy.value, e.disposition == Accepted, if e.disposition == Accepted then reason else None)
  }

  predicate Complete(e: RehashEntry) {
    Changes(e) ==> e.newDefinition.Some? && e.currentDeploy.Some?
  }

  predicate AllComplete(plan: seq<RehashEntry>) {
    forall i | 0 <= i < |plan| :: Complete(plan[i])
  }

  /** A compare-and-set and its audit row for every entry that changes. */
  function RehashWrites(plan: seq<RehashEntry>, run: RunId, reason: Option<string>): seq<Write>
    requires AllComplete(plan)
  {
    if plan == [] then []
    else
      (if Changes(plan[0]) then
         [SwapDefinition(plan[0].id, plan[0].oldDefinition, plan[0].oldAlgorithm, plan[0].newDefinition.value),
          InsertAudit(AuditFor(plan[0], run, reason))]
       else [])
      + RehashWrites(plan[1..], run, reason)
  }

  // ----- What a rehash does -----

  /** A row after its comparison identity has moved: nothing about its execution changes. */
  function Moved(row: AppliedRow, digest: Digest): AppliedRow {
    row.(definition := digest, algorithm := STRUCTURAL_V1)
  }

  /** The rows after the batch. */
  function MovedRows(applied: AppliedRows, plan: seq<RehashEntry>): AppliedRows
    requires AllComplete(plan)
  {
    if plan == [] then applied
    else if Changes(plan[0]) && plan[0].id in applied then
      MovedRows(applied[plan[0].id := Moved(applied[plan[0].id], plan[0].newDefinition.value)], plan[1..])
    else
      MovedRows(applied, plan[1..])
  }

  function AuditRows(plan: seq<RehashEntry>, run: RunId, reason: Option<string>): seq<AuditRow>
    requires AllComplete(plan)
  {
    if plan == [] then []
    else (if Changes(plan[0]) then [AuditFor(plan[0], run, reason)] else []) + AuditRows(plan[1..], run, reason)
  }

  /** The batch matches the rows it was planned from. */
  predicate Fits(applied: AppliedRows, plan: seq<RehashEntry>) {
    && (forall i, j :: 0 <= i < j < |plan| ==> plan[i].id != plan[j].id)
    && AllComplete(plan)
    && (forall i | 0 <= i < |plan| :: plan[i].id in applied && plan[i].oldDefinition == applied[plan[i].id].definition
                                      && plan[i].oldAlgorithm == applied[plan[i].id].algorithm)
  }

  predicate ReasonFits(plan: seq<RehashEntry>, reason: Option<string>) {
    (exists e :: e in plan && e.disposition == Accepted) ==> reason.Some? && !IsBlank(reason.value)
  }

  predicate AuditFree(audit: seq<AuditRow>, run: RunId, ids: set<Id>) {
    forall b | b in audit && b.run == run :: b.migration !in ids
  }

  function Ids(plan: seq<RehashEntry>): set<Id> {
    set e | e in plan :: e.id
  }

  /** The tables once one entry has been written. */
  function WithMoved(t: Tables, e: RehashEntry, run: RunId, reason: Option<string>): Tables
    requires Complete(e)
  {
    if !Changes(e) || e.id !in t.applied then t
    else
      t.(applied := t.applied[e.id := Moved(t.applied[e.id], e.newDefinition.value)],
         audit := t.audit + [AuditFor(e, run, reason)])
  }

  lemma MoveOne(t: Tables, plan: seq<RehashEntry>, run: RunId, reason: Option<string>)
    requires plan != [] && Fits(t.applied, plan) && ReasonFits(plan, reason) && AuditFree(t.audit, run, Ids(plan))
    ensures Transact(t, RehashWrites(plan, run, reason)) ==
            Transact(WithMoved(t, plan[0], run, reason), RehashWrites(plan[1..], run, reason))
  {
    var e := plan[0];
    assert e in plan && e.id in Ids(plan);
    if Changes(e) {
      var a := AuditFor(e, run, reason);
      var swap := SwapDefinition(e.id, e.oldDefinition, e.oldAlgorithm, e.newDefinition.value);
      var swapped := t.(applied := t.applied[e.id := Moved(t.applied[e.id], e.newDefinition.value)]);
      assert Apply(t, swap) == Some(swapped);
      assert Apply(swapped, InsertAudit(a)) == Some(WithMoved(t, e, run, reason));
      TwoWrites(t, swap, InsertAudit(a));
      TransactConcat(t, [swap, InsertAudit(a)], RehashWrites(plan[1..], run, reason));
    } else {
      assert [] + RehashWrites(plan[1..], run, reason) == RehashWrites(plan[1..], run, reason);
    }
  }

  lemma FitsNext(applied: AppliedRows, plan: seq<RehashEntry>, row: AppliedRow)
    requires plan != [] && Fits(applied, plan)
    ensures Fits(applied[plan[0].id := row], plan[1..])
  {
    hide Complete;
    var rest := plan[1..];
    assert forall i | 0 <= i < |rest| :: rest[i] == plan[i + 1];
  }

  lemma AuditRest(t: Tables, plan: seq<RehashEntry>, run: RunId, reason: Option<string>)
    requires plan != [] && Fits(t.applied, plan) && AuditFree(t.audit, run, Ids(plan))
    ensures AuditFree(WithMoved(t, plan[0], run, reason).audit, run, Ids(plan[1..]))
  {
    hide Complete, Moved;
    FirstIsApart(t.applied, plan);
  }

  lemma FitsRest(t: Tables, plan: seq<RehashEntry>, run: RunId, reason: Option<string>)
    requires plan != [] && Fits(t.applied, plan) && ReasonFits(plan, reason) && AuditFree(t.audit, run, Ids(plan))
    ensures var next := WithMoved(t, plan[0], run, reason);
      Fits(next.applied, plan[1..]) && ReasonFits(plan[1..], reason) && AuditFree(next.audit, run, Ids(plan[1..]))
  {
    var e := plan[0];
    assert forall f | f in plan[1..] :: f in plan;
    AuditRest(t, plan, run, reason);
    FitsNext(t.applied, plan, if Changes(e) then Moved(t.applied[e.id], e.newDefinition.value) else t.applied[e.id]);
    hide AuditFor, Complete, Moved, AuditFree, Fits;
    assert t.applied[e.id := t.applied[e.id]] == t.applied;
  }

  /** Every compare-and-set of a fitting batch matches and every audit row is new: the transaction
      goes through as a whole. */
  lemma {:induction false} RehashTransacts(t: Tables, plan: seq<RehashEntry>, run: RunId, reason: Option<string>)
    requires Fits(t.applied, plan) && ReasonFits(plan, reason) && AuditFree(t.audit, run, Ids(plan))
    ensures Transact(t, RehashWrites(plan, run, reason)) ==
            Some(t.(applied := MovedRows(t.applied, plan), audit := t.audit + AuditRows(plan, run, reason)))
    decreases |plan|
  {
    if plan == [] {
      EmptyConcat(t.audit);
    } else {
      MoveOne(t, plan, run, reason);
      FitsRest(t, plan, run, reason);
      var next := WithMoved(t, plan[0], run, reason);
      RehashTransacts(next, plan[1..], run, reason);
      AuditConcat(t.audit, plan, run, reason);
    }
  }

  /** The row an entry was planned from is still there. */
  predicate StillThere(applied: AppliedRows, e: RehashEntry) {
    e.id in applied && applied[e.id].definition == e.oldDefinition && applied[e.id].algorithm == e.oldAlgorithm
  }

  /** And nothing else goes through: a single changed entry whose row is no longer what was planned from
      refuses the whole transaction. */
  lemma {:induction false} StaleIsRefused(t: Tables, plan: seq<RehashEntry>, run: RunId, reason: Option<string>)
    requires AllComplete(plan) && forall i, j :: 0 <= i < j < |plan| ==> plan[i].id != plan[j].id
    requires Transact(t, RehashWrites(plan, run, reason)).Some?
    ensures forall i | 0 <= i < |plan| && Changes(plan[i]) :: StillThere(t.applied, plan[i])
    decreases |plan|
  {
    if plan != [] {
      var rest := plan[1..];
      assert forall i | 0 <= i < |rest| :: rest[i] == plan[i + 1];
      var next := t;
      if Changes(plan[0]) {
        next := FirstApplies(t, plan, run, reason);
      } else {
        EmptyConcat(RehashWrites(rest, run, reason));
      }
      StaleIsRefused(next, rest, run, reason);
      forall i | 0 < i < |plan| && Changes(plan[i]) ensures StillThere(t.applied, plan[i]) {
        assert StillThere(next.applied, rest[i - 1]);
      }
    }
  }

  lemma FirstApplies(t: Tables, plan: seq<RehashEntry>, run: RunId, reason: Option<string>) returns (next: Tables)
    requires plan != [] && AllComplete(plan) && Changes(plan[0]) && Transact(t, RehashWrites(plan, run, reason)).Some?
    ensures StillThere(t.applied, plan[0])
    ensures Transact(next, RehashWrites(plan[1..], run, reason)).Some?
    ensures forall id | id != plan[0].id :: (id in next.applied <==> id in t.applied) && (id in t.applied ==> next.applied[id] == t.applied[id])
  {
    var e := plan[0];
    var swap := SwapDefinition(e.id, e.oldDefinition, e.oldAlgorithm, e.newDefinition.value);
    var audit := InsertAudit(AuditFor(e, run, reason));
    TransactConcat(t, [swap, audit], RehashWrites(plan[1..], run, reason));
    TwoWrites(t, swap, audit);
    next := Apply(Apply(t, swap).value, audit).value;
  }

  lemma AuditConcat(audit: seq<AuditRow>, plan: seq<RehashEntry>, run: RunId, reason: Option<string>)
    requires plan != [] && AllComplete(plan)
    ensures audit + AuditRows(plan, run, reason) ==
            (if Changes(plan[0]) then audit + [AuditFor(plan[0], run, reason)] else audit) + AuditRows(plan[1..], run, reason)
  {
    assert Complete(plan[0]);
    hide AuditFor;
    var rest := AuditRows(plan[1..], run, reason);
    if Changes(plan[0]) {
      SnocCons(audit, AuditFor(plan[0], run, reason), rest);
    } else {
      EmptyConcat(rest);
    }
  }

  /** What one entry makes of its row. */
  function MovedBy(row: AppliedRow, e: RehashEntry): AppliedRow
    requires Complete(e)
  {
    if Changes(e) then Moved(row, e.newDefinition.value) else row
  }

  /** What the batch makes of the rows it names. */
  predicate MovesAsPlanned(applied: AppliedRows, rows: AppliedRows, plan: seq<RehashEntry>) {
    && rows.Keys == applied.Keys
    && (forall i | 0 <= i < |plan| :: plan[i].id in rows && Complete(plan[i]) && rows[plan[i].id] == MovedBy(applied[plan[i].id], plan[i]))
    && (forall id | id in applied && id !in Ids(plan) :: rows[id] == applied[id])
  }

  lemma FirstIsApart(applied: AppliedRows, plan: seq<RehashEntry>)
    requires plan != [] && Fits(applied, plan)
    ensures plan[0].id in applied && Complete(plan[0]) && plan[0].id !in Ids(plan[1..])
    ensures forall id :: id in Ids(plan) <==> id == plan[0].id || id in Ids(plan[1..])
  {
    hide Complete;
    var rest := plan[1..];
    assert plan == [plan[0]] + rest;
    forall f | f in rest ensures f.id != plan[0].id {
      var i :| 0 <= i < |rest| && rest[i] == f;
      assert plan[i + 1] == f;
    }
  }

  lemma MovesFirst(applied: AppliedRows, rows: AppliedRows, plan: seq<RehashEntry>)
    requires plan != [] && Fits(applied, plan) && Complete(plan[0]) && plan[0].id in applied
    requires MovesAsPlanned(applied[plan[0].id := MovedBy(applied[plan[0].id], plan[0])], rows, plan[1..])
    ensures MovesAsPlanned(applied, rows, plan)
  {
    hide MovedBy, Complete, Ids;
    var next := applied[plan[0].id := MovedBy(applied[plan[0].id], plan[0])];
    FirstIsApart(applied, plan);
    assert rows.Keys == applied.Keys;
    forall i | 0 <= i < |plan|
      ensures plan[i].id in rows && Complete(plan[i]) && rows[plan[i].id] == MovedBy(applied[plan[i].id], plan[i])
    {
      if i > 0 {
        assert plan[i] == plan[1..][i - 1];
        assert plan[i].id != plan[0].id;
      }
    }
  }

  lemma {:induction false} MovedRowsAt(applied: AppliedRows, plan: seq<RehashEntry>)
    requires Fits(applied, plan)
    ensures MovesAsPlanned(applied, MovedRows(applied, plan), plan)
    decreases |plan|
  {
    if plan != [] {
      var e := plan[0];
      FirstIsApart(applied, plan);
      hide Ids, Moved, Fits, MovesAsPlanned;
      var next := applied[e.id := MovedBy(applied[e.id], e)];
      assert !Changes(e) ==> next == applied;
      FitsNext(applied, plan, MovedBy(applied[e.id], e));
      MovedRowsAt(next, plan[1..]);
      MovesFirst(applied, MovedRows(next, plan[1..]), plan);
    }
  }

  /** What an entry that can take part is known to satisfy. */
  predicate TakesPart(g: Graph, state: RegistryState, e: RehashEntry) {
    && e.id in state.applied && e.id in g.migrations
    && StructuralDigest(g.migrations[e.id]).Some?
    && (forall x | x in g.migrations[e.id].manifest.depends :: x in state.applied)
    && SameList(g.migrations[e.id].manifest.depends, state.applied[e.id].depends)
    && g.migrations[e.id].manifest.transaction == state.applied[e.id].mode
    && DeployPasses(g.migrations[e.id])
    && e.oldDefinition == state.applied[e.id].definition && e.oldAlgorithm == state.applied[e.id].algorithm
    && e.newDefinition == StructuralDigest(g.migrations[e.id]) && e.currentDeploy.Some?
    && (if Changes(e) then e.oldAlgorithm == RAW_V1
        else e.oldAlgorithm == STRUCTURAL_V1 && e.newDefinition == Some(e.oldDefinition))
  }

  lemma EntryTakesPart(g: Graph, state: RegistryState, id: Id, acceptCurrent: bool)
    requires id in state.applied && Classify(g, state, id, state.applied[id], acceptCurrent).error.None?
    ensures TakesPart(g, state, Classify(g, state, id, state.applied[id], acceptCurrent))
  {
  }

  lemma EntriesTakePart(g: Graph, state: RegistryState, ids: seq<Id>, acceptCurrent: bool)
    requires forall id | id in ids :: id in state.applied
    requires Validate(Entries(g, state, ids, acceptCurrent)).Ok?
    ensures var plan := Entries(g, state, ids, acceptCurrent);
      forall i | 0 <= i < |plan| :: TakesPart(g, state, plan[i]) && plan[i].id == ids[i]
  {
    hide TakesPart, Precheck, CheckUnchanged, RawDigest;
    var plan := Entries(g, state, ids, acceptCurrent);
    forall i | 0 <= i < |plan| ensures TakesPart(g, state, plan[i]) && plan[i].id == ids[i] {
      assert ids[i] in ids && plan[i] in plan;
      EntryTakesPart(g, state, ids[i], acceptCurrent);
    }
  }

  lemma IdsOf(plan: seq<RehashEntry>, ids: seq<Id>)
    requires |plan| == |ids| && forall i | 0 <= i < |plan| :: plan[i].id == ids[i]
    ensures forall id :: id in Ids(plan) <==> id in ids
  {
    forall id ensures id in Ids(plan) <==> id in ids {
      if id in ids {
        var i :| 0 <= i < |ids| && ids[i] == id;
        assert plan[i] in plan;
      }
    }
  }

  /** A validated plan covers every applied row once, and every entry can take part. */
  lemma ValidatedPlan(g: Graph, state: RegistryState, acceptCurrent: bool)
    requires MakeRehashPlan(g, state, acceptCurrent).Ok? && Validate(MakeRehashPlan(g, state, acceptCurrent).value).Ok?
    ensures var plan := MakeRehashPlan(g, state, acceptCurrent).value;
      && (forall i | 0 <= i < |plan| :: TakesPart(g, state, plan[i]))
      && Fits(state.applied, plan)
      && (forall id :: id in Ids(plan) <==> id in state.applied)
  {
    var ids := Ascending(state.applied.Keys);
    EntriesTakePart(g, state, ids, acceptCurrent);
    IdsOf(Entries(g, state, ids, acceptCurrent), ids);
  }

  /** The row at `id` can be carried over. */
  predicate CarriesOver(g: Graph, rows: AppliedRows, id: Id, row: AppliedRow, acceptCurrent: bool) {
    && Admissible(g, rows, id, row)
    && (if row.algorithm == RAW_V1 then BytesMatch(g.migrations[id], row) || acceptCurrent
        else StructuralDigest(g.migrations[id]) == Some(row.definition))
  }

  /** A batch validates exactly when every applied row can be carried over. So without the operator's
      word a single source that is not what was recorded refuses all of it. */
  lemma ValidatesExactly(g: Graph, state: RegistryState, acceptCurrent: bool)
    requires MakeRehashPlan(g, state, acceptCurrent).Ok?
    ensures Validate(MakeRehashPlan(g, state, acceptCurrent).value).Ok? <==>
      forall id | id in state.applied :: CarriesOver(g, state.applied, id, state.applied[id], acceptCurrent)
  {
    hide Classify, CarriesOver;
    var ids := Ascending(state.applied.Keys);
    var plan := MakeRehashPlan(g, state, acceptCurrent).value;
    forall k | 0 <= k < |ids|
      ensures plan[k].error.None? <==> CarriesOver(g, state.applied, ids[k], state.applied[ids[k]], acceptCurrent)
    {
      assert ids[k] in ids;
      CarriesOverExactly(g, state, ids[k], state.applied[ids[k]], acceptCurrent);
    }
    forall id | id in state.applied && Validate(plan).Ok? ensures CarriesOver(g, state.applied, id, state.applied[id], acceptCurrent) {
      assert id in ids;
      var k :| 0 <= k < |ids| && ids[k] == id;
      assert plan[k] in plan;
    }
  }

  lemma CarriesOverExactly(g: Graph, state: RegistryState, id: Id, row: AppliedRow, acceptCurrent: bool)
    ensures Classify(g, state, id, row, acceptCurrent).error.None? <==> CarriesOver(g, state.applied, id, row, acceptCurrent)
  {
    hide Classify, DeployPasses, StructuralDigest;
    ClassifiesExactly(g, state, id, row, acceptCurrent);
    assert RAW_V1 != STRUCTURAL_V1;
  }

  /** A validated batch has something to write exactly when some row is still of the exact-bytes policy. */
  lemma EmptyExactly(g: Graph, state: RegistryState, acceptCurrent: bool, plan: seq<RehashEntry>)
    requires MakeRehashPlan(g, state, acceptCurrent) == Ok(plan) && Validate(plan).Ok?
    ensures IsEmpty(plan) <==> forall id | id in state.applied :: state.applied[id].algorithm != RAW_V1
  {
    hide MakeRehashPlan, Validate, SameList, DeployPasses, StructuralDigest;
    ValidatedPlan(g, state, acceptCurrent);
    forall id | id in state.applied && IsEmpty(plan) ensures state.applied[id].algorithm != RAW_V1 {
      var i := EntryOf(plan, id);
      assert plan[i] in plan;
    }
    forall e | e in plan && Changes(e) ensures e.id in state.applied && state.applied[e.id].algorithm == RAW_V1 {
      var i :| 0 <= i < |plan| && plan[i] == e;
    }
  }

  /** What the entries of a validated batch claim is so: `Verified` that the recorded bytes are those of
      the source, `Accepted` that they are not and that the operator answered for it. */
  lemma DispositionsAreProof(g: Graph, state: RegistryState, acceptCurrent: bool, plan: seq<RehashEntry>, e: RehashEntry)
    requires MakeRehashPlan(g, state, acceptCurrent) == Ok(plan) && Validate(plan).Ok? && e in plan
    ensures e.id in state.applied && e.id in g.migrations
    ensures var m, row := g.migrations[e.id], state.applied[e.id];
      && (e.disposition == Verified <==> row.algorithm == RAW_V1 && BytesMatch(m, row))
      && (e.disposition == Accepted <==> row.algorithm == RAW_V1 && !BytesMatch(m, row))
      && (e.disposition == Accepted ==> acceptCurrent)
      && e.oldDefinition == row.definition && e.originalDeploy == row.deploy && e.currentDeploy == Some(m.deploy.sql)
  {
    hide Classify, DeployPasses, StructuralDigest;
    var ids := Ascending(state.applied.Keys);
    var k :| 0 <= k < |plan| && plan[k] == e;
    assert ids[k] in ids;
    ClassifiesExactly(g, state, ids[k], state.applied[ids[k]], acceptCurrent);
  }

  /** The audit rows of a validated batch tell proof from an operator's word: a row says that the change
      was accepted, and why, exactly when the source was not the one recorded. */
  lemma AuditTellsProof(g: Graph, state: RegistryState, acceptCurrent: bool, plan: seq<RehashEntry>, run: RunId,
      reason: Option<string>, a: AuditRow)
    requires MakeRehashPlan(g, state, acceptCurrent) == Ok(plan) && Validate(plan).Ok? && AllComplete(plan)
    requires a in AuditRows(plan, run, reason)
    ensures a.migration in state.applied && a.migration in g.migrations
    ensures var m, row := g.migrations[a.migration], state.applied[a.migration];
      && row.algorithm == RAW_V1 && a.run == run && a.oldDefinition == row.definition
      && a.originalDeploy == row.deploy && a.currentDeploy == m.deploy.sql
      && a.oldAlgorithm == RAW_V1 && a.newAlgorithm == STRUCTURAL_V1 && Some(a.newDefinition) == StructuralDigest(m)
      && (a.operatorAccepted <==> !BytesMatch(m, row))
      && a.reason == (if a.operatorAccepted then reason else None)
      && (a.operatorAccepted ==> acceptCurrent)
  {
    hide Classify, BytesMatch, MakeRehashPlan, Validate, DeployPasses, SameList, StructuralDigest;
    ValidatedPlan(g, state, acceptCurrent);
    AuditRowsIn(plan, run, reason);
    var i :| 0 <= i < |plan| && Changes(plan[i]) && a == AuditFor(plan[i], run, reason);
    assert plan[i] in plan;
    DispositionsAreProof(g, state, acceptCurrent, plan, plan[i]);
  }

  /** A row has the structural identity of the checked-out source, and everything that says how it
      was executed is as it was. */
  predicate HasMoved(g: Graph, id: Id, was: AppliedRow, row: AppliedRow) {
    && id in g.migrations
    && row.algorithm == STRUCTURAL_V1
    && Some(row.definition) == StructuralDigest(g.migrations[id])
    && row == was.(definition := row.definition, algorithm := STRUCTURAL_V1)
  }

  predicate AllMoved(g: Graph, was: AppliedRows, rows: AppliedRows) {
    rows.Keys == was.Keys && forall id | id in rows :: HasMoved(g, id, was[id], rows[id])
  }

  lemma RowMoves(g: Graph, state: RegistryState, e: RehashEntry)
    requires TakesPart(g, state, e)
    ensures var row := state.applied[e.id];
      HasMoved(g, e.id, row, if Changes(e) then Moved(row, e.newDefinition.value) else row)
  {
  }

  lemma RowsMove(g: Graph, state: RegistryState, plan: seq<RehashEntry>)
    requires forall i | 0 <= i < |plan| :: TakesPart(g, state, plan[i])
    requires Fits(state.applied, plan) && forall id :: id in Ids(plan) <==> id in state.applied
    ensures AllMoved(g, state.applied, MovedRows(state.applied, plan))
  {
    hide TakesPart, MovedRows, HasMoved, Changes, Moved, Ids, Complete;
    forall id | id in state.applied
      ensures id in MovedRows(state.applied, plan) && HasMoved(g, id, state.applied[id], MovedRows(state.applied, plan)[id])
    {
      RowMovesAt(g, state, plan, id);
    }
    MovedRowsAt(state.applied, plan);
  }

  lemma RowMovesAt(g: Graph, state: RegistryState, plan: seq<RehashEntry>, id: Id)
    requires forall i | 0 <= i < |plan| :: TakesPart(g, state, plan[i])
    requires Fits(state.applied, plan) && id in Ids(plan) && id in state.applied
    ensures id in MovedRows(state.applied, plan) && HasMoved(g, id, state.applied[id], MovedRows(state.applied, plan)[id])
  {
    hide TakesPart, MovedRows, HasMoved, Changes, Moved;
    var i := EntryOf(plan, id);
    MovedRowsAt(state.applied, plan);
    RowMoves(g, state, plan[i]);
  }

  lemma EntryOf(plan: seq<RehashEntry>, id: Id) returns (i: nat)
    requires id in Ids(plan)
    ensures i < |plan| && plan[i].id == id
  {
    var e :| e in plan && e.id == id;
    i :| 0 <= i < |plan| && plan[i] == e;
  }

  /** Each changed row gets exactly one audit row, from its old identity to its new one. */
  lemma {:induction false} AuditRowsIn(plan: seq<RehashEntry>, run: RunId, reason: Option<string>)
    requires AllComplete(plan)
    requires forall i, j :: 0 <= i < j < |plan| ==> plan[i].id != plan[j].id
    ensures forall a :: a in AuditRows(plan, run, reason) <==>
              exists i :: 0 <= i < |plan| && Changes(plan[i]) && a == AuditFor(plan[i], run, reason)
    ensures forall i, j :: 0 <= i < j < |AuditRows(plan, run, reason)| ==>
              AuditRows(plan, run, reason)[i].migration != AuditRows(plan, run, reason)[j].migration
  {
    if plan != [] {
      var rest := plan[1..];
      assert forall i | 0 <= i < |rest| :: rest[i] == plan[i + 1];
      AuditRowsIn(rest, run, reason);
      var tail := AuditRows(rest, run, reason);
      forall a ensures a in AuditRows(plan, run, reason) <==>
              exists i :: 0 <= i < |plan| && Changes(plan[i]) && a == AuditFor(plan[i], run, reason)
      {
        if i :| 0 <= i < |rest| && Changes(rest[i]) && a == AuditFor(rest[i], run, reason) {
          assert plan[i + 1] == rest[i];
        }
        if i :| 0 <= i < |plan| && Changes(plan[i]) && a == AuditFor(plan[i], run, reason) {
          if i > 0 {
            assert rest[i - 1] == plan[i];
          }
        }
      }
      forall k | 0 <= k < |tail| ensures tail[k].migration != plan[0].id {
        assert tail[k] in tail;
        var i :| 0 <= i < |rest| && Changes(rest[i]) && tail[k] == AuditFor(rest[i], run, reason);
        assert plan[i + 1] == rest[i];
      }
    }
  }

  lemma MovedPlans(g: Graph, was: AppliedRows, rows: AppliedRows)
    requires AllMoved(g, was, rows)
    requires forall id | id in was :: forall x | x in g.migrations[id].manifest.depends :: x in was
    ensures MakePlan(g, rows).Ok?
    ensures MakePlan(g, was).Ok? ==> MakePlan(g, rows) == MakePlan(g, was)
  {
    forall id | id in rows ensures CheckUnchanged(g.migrations[id], rows[id]).Ok? {
      assert HasMoved(g, id, was[id], rows[id]);
    }
    PlanExactly(g, rows);
  }

  lemma MovedEntry(g: Graph, state: RegistryState, id: Id, was: AppliedRow, acceptCurrent: bool)
    requires id in state.applied && HasMoved(g, id, was, state.applied[id])
    requires (forall x | x in g.migrations[id].manifest.depends :: x in state.applied)
    requires SameList(g.migrations[id].manifest.depends, was.depends) && g.migrations[id].manifest.transaction == was.mode
    requires DeployPasses(g.migrations[id])
    ensures var e := Classify(g, state, id, state.applied[id], acceptCurrent); e.error.None? && e.disposition == AlreadyCurrent
  {
  }

  /** Tables a rehash may start from: what it read, initialized and with nothing unresolved. */
  predicate Rehashable(t: Tables, state: RegistryState, project: ProjectId) {
    Sound(t) && ReadState(t) == Ok(state) && CheckProject(state, project).Ok?
  }

  /** The tables a committed rehash leaves. */
  function Rehashed(t: Tables, project: ProjectId, plan: seq<RehashEntry>, run: RunId, reason: Option<string>): Tables
    requires AllComplete(plan)
  {
    Upgraded(t, project).(applied := MovedRows(t.applied, plan), audit := t.audit + AuditRows(plan, run, reason))
  }

  lemma MovedSound(g: Graph, t: Tables, after: Tables)
    requires Sound(t) && t.meta.Some? && t.attempts == map[] && AllMoved(g, t.applied, after.applied)
    requires after.meta.Some? && after.meta.value.version == REGISTRY_FORMAT_VERSION
    requires after.log == t.log && after.attempts == t.attempts && AuditKeyed(after)
    requires forall id | id in after.applied :: Coherent(id, after.applied[id])
    ensures Sound(after)
  {
    forall id | id in after.applied ensures forall x | x in after.applied[id].depends :: x in after.applied {
      assert HasMoved(g, id, t.applied[id], after.applied[id]);
    }
    assert AttemptRuns(after) == AttemptRuns(t);
  }

  lemma MovedCoherent(g: Graph, was: AppliedRows, rows: AppliedRows, plan: seq<RehashEntry>, state: RegistryState)
    requires Linked(g) && AllMoved(g, was, rows) && state.applied == was
    requires forall i | 0 <= i < |plan| :: TakesPart(g, state, plan[i])
    requires forall id :: id in Ids(plan) <==> id in was
    ensures forall id | id in rows :: Coherent(id, rows[id])
  {
    forall id | id in rows ensures Coherent(id, rows[id]) {
      assert HasMoved(g, id, was[id], rows[id]);
      assert id in Ids(plan);
      var e :| e in plan && e.id == id;
      SameListElements(g.migrations[id].manifest.depends, was[id].depends);
    }
  }

  lemma SameListElements(a: seq<Id>, b: seq<Id>)
    requires SameList(a, b)
    ensures Elements(a) == Elements(b)
  {
    forall x ensures x in a <==> x in b {
      assert x in a <==> x in multiset(a);
      assert x in b <==> x in multiset(b);
    }
  }

  lemma AuditStaysKeyed(audit: seq<AuditRow>, plan: seq<RehashEntry>, run: RunId, reason: Option<string>, ids: set<Id>)
    requires AllComplete(plan) && AuditFree(audit, run, ids) && forall id :: id in Ids(plan) <==> id in ids
    requires forall i, j :: 0 <= i < j < |plan| ==> plan[i].id != plan[j].id
    requires forall i, j :: 0 <= i < j < |audit| ==> audit[i].run != audit[j].run || audit[i].migration != audit[j].migration
    ensures var all := audit + AuditRows(plan, run, reason);
      forall i, j :: 0 <= i < j < |all| ==> all[i].run != all[j].run || all[i].migration != all[j].migration
  {
    AuditRowsIn(plan, run, reason);
    var added := AuditRows(plan, run, reason);
    forall k | 0 <= k < |added| ensures added[k].run == run && added[k].migration in ids {
      assert added[k] in added;
      var i :| 0 <= i < |plan| && Changes(plan[i]) && added[k] == AuditFor(plan[i], run, reason);
      assert plan[i] in plan && plan[i].id in Ids(plan);
    }
    forall i | 0 <= i < |audit| ensures audit[i].run == run ==> audit[i].migration !in ids {
      assert audit[i] in audit;
    }
  }

  /** The plan of a rehash whose every entry can take part. */
  predicate Planned(g: Graph, state: RegistryState, acceptCurrent: bool, plan: seq<RehashEntry>) {
    MakeRehashPlan(g, state, acceptCurrent) == Ok(plan) && Validate(plan).Ok?
  }

  lemma PlannedMoves(g: Graph, state: RegistryState, acceptCurrent: bool, plan: seq<RehashEntry>)
    requires Planned(g, state, acceptCurrent, plan)
    ensures AllComplete(plan) && AllMoved(g, state.applied, MovedRows(state.applied, plan))
  {
    ValidatedPlan(g, state, acceptCurrent);
    RowsMove(g, state, plan);
  }

  lemma PlannedCoherent(g: Graph, state: RegistryState, acceptCurrent: bool, plan: seq<RehashEntry>)
    requires Linked(g) && Planned(g, state, acceptCurrent, plan) && AllComplete(plan)
    ensures forall id | id in MovedRows(state.applied, plan) :: Coherent(id, MovedRows(state.applied, plan)[id])
  {
    ValidatedPlan(g, state, acceptCurrent);
    RowsMove(g, state, plan);
    MovedCoherent(g, state.applied, MovedRows(state.applied, plan), plan, state);
  }

  lemma PlannedAudit(g: Graph, state: RegistryState, acceptCurrent: bool, plan: seq<RehashEntry>, audit: seq<AuditRow>, run: RunId,
      reason: Option<string>)
    requires Planned(g, state, acceptCurrent, plan) && AllComplete(plan) && AuditFree(audit, run, state.applied.Keys)
    requires forall i, j :: 0 <= i < j < |audit| ==> audit[i].run != audit[j].run || audit[i].migration != audit[j].migration
    ensures var all := audit + AuditRows(plan, run, reason);
      forall i, j :: 0 <= i < j < |all| ==> all[i].run != all[j].run || all[i].migration != all[j].migration
  {
    ValidatedPlan(g, state, acceptCurrent);
    AuditStaysKeyed(audit, plan, run, reason, state.applied.Keys);
  }

  lemma PlannedTransacts(t: Tables, g: Graph, state: RegistryState, acceptCurrent: bool, plan: seq<RehashEntry>, run: RunId,
      reason: Option<string>)
    requires Planned(g, state, acceptCurrent, plan) && t.applied == state.applied
    requires ReasonFits(plan, reason) && AuditFree(t.audit, run, state.applied.Keys)
    ensures AllComplete(plan)
    ensures Transact(t, RehashWrites(plan, run, reason)) ==
            Some(t.(applied := MovedRows(t.applied, plan), audit := t.audit + AuditRows(plan, run, reason)))
  {
    ValidatedPlan(g, state, acceptCurrent);
    assert Ids(plan) == state.applied.Keys;
    RehashTransacts(t, plan, run, reason);
  }

  /** A rehash commits as a whole and means nothing but the change of policy: every applied row ends
      up with the structural identity of its source, its execution evidence untouched. */
  lemma RehashMeaning(t: Tables, state: RegistryState, project: ProjectId, g: Graph, acceptCurrent: bool,
      plan: seq<RehashEntry>, run: RunId, reason: Option<string>)
    requires Rehashable(t, state, project) && Linked(g) && Planned(g, state, acceptCurrent, plan)
    requires ReasonFits(plan, reason) && AuditFree(t.audit, run, t.applied.Keys)
    ensures AllComplete(plan)
    ensures Transact(t, UpgradeWrites(state, project) + RehashWrites(plan, run, reason)) == Some(Rehashed(t, project, plan, run, reason))
    ensures Sound(Rehashed(t, project, plan, run, reason))
    ensures AllMoved(g, t.applied, Rehashed(t, project, plan, run, reason).applied)
  {
    ReadStateIsExact(t);
    UpgradeKeepsSound(t, state, project);
    PlannedTransacts(Upgraded(t, project), g, state, acceptCurrent, plan, run, reason);
    TransactConcat(t, UpgradeWrites(state, project), RehashWrites(plan, run, reason));
    PlannedMoves(g, state, acceptCurrent, plan);
    PlannedCoherent(g, state, acceptCurrent, plan);
    PlannedAudit(g, state, acceptCurrent, plan, t.audit, run, reason);
    MovedSound(g, t, Rehashed(t, project, plan, run, reason));
  }

  /** Afterwards `history::plan` succeeds, with the same migrations applied and pending. */
  lemma RehashKeepsPlan(g: Graph, state: RegistryState, acceptCurrent: bool, plan: seq<RehashEntry>, rows: AppliedRows)
    requires Planned(g, state, acceptCurrent, plan) && AllMoved(g, state.applied, rows)
    ensures MakePlan(g, rows).Ok?
    ensures MakePlan(g, state.applied).Ok? ==> MakePlan(g, rows) == MakePlan(g, state.applied)
  {
    forall id | id in state.applied
      ensures id in g.migrations && forall x | x in g.migrations[id].manifest.depends :: x in state.applied
    {
      var e := PlannedEntry(g, state, acceptCurrent, plan, id);
    }
    MovedPlans(g, state.applied, rows);
  }

  lemma PlannedEntry(g: Graph, state: RegistryState, acceptCurrent: bool, plan: seq<RehashEntry>, id: Id) returns (e: RehashEntry)
    requires Planned(g, state, acceptCurrent, plan) && id in state.applied
    ensures e in plan && e.id == id && TakesPart(g, state, e)
  {
    ValidatedPlan(g, state, acceptCurrent);
    assert id in Ids(plan);
    e :| e in plan && e.id == id;
  }

  /** And a second rehash, accepting or not, finds every row current and nothing to write. */
  lemma RehashTwice(g: Graph, state: RegistryState, acceptCurrent: bool, plan: seq<RehashEntry>, later: RegistryState, again: bool)
    requires Planned(g, state, acceptCurrent, plan) && AllMoved(g, state.applied, later.applied)
    requires later.format.Some? && later.unresolved == map[]
    ensures MakeRehashPlan(g, later, again).Ok? && Validate(MakeRehashPlan(g, later, again).value).Ok?
    ensures IsEmpty(MakeRehashPlan(g, later, again).value)
  {
    var ids := Ascending(later.applied.Keys);
    var second := Entries(g, later, ids, again);
    forall k | 0 <= k < |second| ensures second[k].error.None? && second[k].disposition == AlreadyCurrent {
      assert ids[k] in ids;
      var e := PlannedEntry(g, state, acceptCurrent, plan, ids[k]);
      MovedEntry(g, later, ids[k], state.applied[ids[k]], again);
    }
  }
}
