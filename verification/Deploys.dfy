/** Applying a plan and reporting on it. */
module Deploys {
  import opened Collections
  import opened DependencyOrder
  import opened Migrations
  import opened Graphs
  import opened History
  import Ledger
  import opened Registry
  import opened Transactions
  import opened Sessions
  import opened Runners

  datatype Status = Succeeded | Failed | Skipped

  /** One migration of a deploy report. A failed verification leaves a migration that succeeded and
      an error beside it. */
  datatype ReportEntry = ReportEntry(id: Id, status: Status, errored: bool)

  /** Nothing on record keeps `m` from being applied, and its script can run as its mode asks. */
  predicate MayGoThrough(t: Tables, m: Migration) {
    && m.manifest.id !in t.applied && m.manifest.id !in t.attempts
    && (m.manifest.transaction == Required ==> RunsWhole(m.deploy))
  }

  /** The verification script, if there is one, does something and runs whole. */
  predicate MayVerify(m: Migration) {
    m.verify.Some? ==> Verifies(m.verify.value)
  }

  /** The rows once `m` has been recorded from its source. */
  function WithRow(applied: AppliedRows, m: Migration, run: RunId): AppliedRows
    requires StructuralDigest(m).Some?
  {
    applied[m.manifest.id := RowFor(m, StructuralDigest(m).value, run)]
  }

  /** The whole of either path. */
  function PathTaken(t: Tables, run: RunId, n: nat, m: Migration): Tables
    requires StructuralDigest(m).Some?
  {
    match m.manifest.transaction
    case Forbidden => WholeAttempt(t, run, n, m, StructuralDigest(m).value)
    case Required => Deployed(t, run, n, m, StructuralDigest(m).value)
  }

  lemma PathKeeps(t: Tables, run: RunId, n: nat, m: Migration)
    requires StructuralDigest(m).Some?
    ensures PathTaken(t, run, n, m).applied == WithRow(t.applied, m, run) && Keeps(t, PathTaken(t, run, n, m))
    ensures t.attempts == map[] ==> PathTaken(t, run, n, m).attempts == map[]
  {
    hide StructuralDigest;
  }

  lemma StandingKeeps(t: Tables, after: Tables, alive: bool, run: RunId, n: nat, m: Migration, digest: Digest)
    requires AttemptLeaves(t, after, alive, run, n, m, digest) && after != WholeAttempt(t, run, n, m, digest)
    ensures after.applied == t.applied && Keeps(t, after)
  {
  }

  /** The path a migration takes is its mode's. */
  method Execute(runner: Runner, m: Migration) returns (ok: bool)
    requires runner.Valid() && StructuralDigest(m).Some?
    modifies runner, runner.session
    ensures runner.Valid()
    ensures old(runner.session.Obedient()) ==> runner.session.Obedient() && (MayGoThrough(old(runner.Durable()), m) ==> ok)
    ensures ok ==> runner.Durable() == PathTaken(old(runner.Durable()), runner.runId, old(runner.sequence) + 1, m)
    ensures runner.Durable().applied == old(runner.Durable()).applied
            || runner.Durable().applied == WithRow(old(runner.Durable()).applied, m, runner.runId)
    ensures Keeps(old(runner.Durable()), runner.Durable())
  {
    hide RunsWhole, RowFor, Free, Keeps, WithRow, StructuralDigest, AttemptLeaves, AttemptEnds, Deployed, WholeAttempt;
    ghost var was, n, digest := runner.Durable(), runner.sequence + 1, StructuralDigest(m).value;
    PathKeeps(was, runner.runId, n, m);
    var verdict;
    if m.manifest.transaction == Forbidden {
      verdict := runner.DeployNontransactional(m);
      if runner.Durable() != WholeAttempt(was, runner.runId, n, m, digest) {
        StandingKeeps(was, runner.Durable(), runner.session.alive, runner.runId, n, m, digest);
      }
    } else {
      verdict := runner.Deploy(m);
      EventKeeps(was, DeployEvent(runner.runId, runner.sequence, m, Ledger.Outcome.Failed));
    }
    return verdict == Success;
  }

  /** A verification of `m` by this run, with the script it has, is on record as passed. */
  predicate Passed(e: Ledger.Entry, run: RunId, m: Migration) {
    && e.Logged? && e.event.run == run && e.event.migration == m.manifest.id && e.event.action == Ledger.Verify
    && e.event.outcome == Ledger.Outcome.Succeeded && e.event.script == m.verify
  }

  predicate Verified(log: Ledger.Log, run: RunId, m: Migration) {
    m.verify.Some? ==> exists e :: e in log && Passed(e, run, m)
  }

  lemma VerifyKeeps(t: Tables, after: Tables, run: RunId, n: nat, m: Migration, passed: bool)
    requires if m.verify.None? then after == t && !passed else VerifyEnds(t, after, run, n, m.manifest.id, m.verify.value)
    requires passed ==> after == WithEvent(t, VerifyEvent(run, n, m.manifest.id, m.verify.value, Ledger.Outcome.Succeeded))
    ensures Keeps(t, after) && (passed || m.verify.None? ==> Verified(after.log, run, m))
  {
    hide Verifies;
    if passed {
      assert Passed(after.log[|t.log|], run, m);
    }
  }

  lemma KeepsOn(a: Tables, b: Tables, c: Tables)
    requires Keeps(a, b) && Keeps(b, c)
    ensures Keeps(a, c)
  {
  }

  /** Applies one migration and verifies it. */
  method ApplyOne(runner: Runner, m: Migration, verify: bool) returns (entry: ReportEntry)
    requires runner.Valid() && StructuralDigest(m).Some?
    modifies runner, runner.session
    ensures runner.Valid()
    ensures entry.id == m.manifest.id && entry.status != Skipped && (entry.status == Failed ==> entry.errored)
    ensures entry.status == Succeeded && entry.errored ==> verify && m.verify.Some?
    ensures entry.status == Succeeded ==> runner.Durable().applied == WithRow(old(runner.Durable()).applied, m, runner.runId)
    ensures runner.Durable().applied == old(runner.Durable()).applied
            || runner.Durable().applied == WithRow(old(runner.Durable()).applied, m, runner.runId)
    ensures entry.status == Succeeded && old(runner.Durable()).attempts == map[] ==> runner.Durable().attempts == map[]
    ensures old(runner.session.Obedient()) ==> runner.session.Obedient()
    ensures old(runner.session.Obedient()) && MayGoThrough(old(runner.Durable()), m) ==>
      entry.status == Succeeded && (!verify || MayVerify(m) ==> !entry.errored)
    ensures Keeps(old(runner.Durable()), runner.Durable())
    ensures verify && !entry.errored ==> Verified(runner.Durable().log, runner.runId, m)
  {
    hide MayGoThrough, StructuralDigest, RunsWhole, Verifies, PathTaken, WithRow;
    PathKeeps(runner.Durable(), runner.runId, runner.sequence + 1, m);
    var ok := Execute(runner, m);
    if !ok {
      return ReportEntry(m.manifest.id, Failed, true);
    }
    if !verify {
      return ReportEntry(m.manifest.id, Succeeded, false);
    }
    ghost var applied := runner.Durable();
    var verified := runner.Verify(m);
    VerifyKeeps(applied, runner.Durable(), runner.runId, runner.sequence, m, verified == Success);
    KeepsOn(old(runner.Durable()), applied, runner.Durable());
    return ReportEntry(m.manifest.id, Succeeded, verified == Failure);
  }

  predicate Grown(before: set<Id>, after: set<Id>, id: Id) {
    after == before || after == before + {id}
  }

  /** A report whose first `k` entries went through, whose next one, if any, has the error, and whose
      others were passed over. */
  predicate Shaped(report: seq<ReportEntry>, k: nat) {
    && k <= |report|
    && (forall i | 0 <= i < k :: report[i].status == Succeeded && !report[i].errored)
    && (k < |report| ==> report[k].errored && report[k].status != Skipped)
    && (forall i | k < i < |report| :: report[i].status == Skipped && !report[i].errored)
  }

  predicate Lists(report: seq<ReportEntry>, ids: seq<Id>) {
    |report| == |ids| && forall i | 0 <= i < |ids| :: report[i].id == ids[i]
  }

  /** How far the loop has got: what is on the report and what is applied. */
  predicate Accounts(report: seq<ReportEntry>, ids: seq<Id>, k: nat, failed: bool, was: set<Id>, now: set<Id>) {
    && Lists(report, ids) && Shaped(report, k)
    && (if failed then
          && k < |ids| && Grown(was + Elements(ids[..k]), now, ids[k])
          && (report[k].status == Succeeded ==> ids[k] in now)
        else
          k == |ids| && now == was + Elements(ids))
  }

  lemma AccountsBegin(was: set<Id>)
    ensures Accounts([], [], 0, false, was, was)
  {
  }

  lemma AccountsEnd(report: seq<ReportEntry>, ids: seq<Id>, k: nat, failed: bool, was: set<Id>, now: set<Id>)
    requires Accounts(report, ids, k, failed, was, now)
    ensures failed <==> k < |ids|
    ensures !failed ==> k == |ids| && now == was + Elements(ids)
  {
  }

  lemma NamedByKey(g: Graph)
    requires Linked(g)
    ensures forall id | id in g.migrations :: g.migrations[id].manifest.id == id
  {
  }

  lemma AccountsSkip(report: seq<ReportEntry>, ids: seq<Id>, k: nat, was: set<Id>, now: set<Id>, id: Id)
    requires Accounts(report, ids, k, true, was, now)
    ensures Accounts(report + [ReportEntry(id, Skipped, false)], ids + [id], k, true, was, now)
  {
    assert (ids + [id])[..k] == ids[..k];
  }

  lemma AccountsEntry(report: seq<ReportEntry>, ids: seq<Id>, was: set<Id>, before: set<Id>, now: set<Id>, entry: ReportEntry)
    requires Accounts(report, ids, |ids|, false, was, before) && Grown(before, now, entry.id)
    requires entry.status != Skipped && (entry.status == Failed ==> entry.errored)
    requires entry.status == Succeeded ==> now == before + {entry.id}
    ensures Accounts(report + [entry], ids + [entry.id], if entry.errored then |ids| else |ids| + 1, entry.errored, was, now)
  {
    assert (ids + [entry.id])[..|ids|] == ids;
    ElementsSnoc(ids, entry.id);
    UnionAssociates(was, Elements(ids), {entry.id});
  }

  /** Nothing is in the way of any of these. */
  ghost predicate Smooth(t: Tables, g: Graph, ids: seq<Id>, verify: bool) {
    && t.attempts == map[] && Distinct(ids)
    && forall id | id in ids ::
        id in g.migrations && MayGoThrough(t, g.migrations[id]) && (verify ==> MayVerify(g.migrations[id]))
  }

  lemma SmoothIsClear(t: Tables, g: Graph, ids: seq<Id>, verify: bool)
    ensures Smooth(t, g, ids, verify) ==> t.attempts == map[]
  {
  }

  lemma SmoothGoesOn(t: Tables, now: Tables, g: Graph, ids: seq<Id>, verify: bool, i: nat)
    requires Linked(g) && Smooth(t, g, ids, verify) && i < |ids| && now.attempts == map[]
    requires now.applied.Keys == t.applied.Keys + Elements(ids[..i])
    ensures MayGoThrough(now, g.migrations[ids[i]]) && (verify ==> MayVerify(g.migrations[ids[i]]))
  {
    hide RunsWhole, Verifies;
    assert ids[i] in ids && ids[i] !in ids[..i];
    assert g.migrations[ids[i]].manifest.id == ids[i];
  }

  /** The rows are what recording the first `j` of these on top of `was` gives. */
  predicate RowsUpTo(g: Graph, was: AppliedRows, now: AppliedRows, ids: seq<Id>, j: nat, run: RunId) {
    && j <= |ids| && (forall id | id in ids[..j] :: id in g.migrations && StructuralDigest(g.migrations[id]).Some?)
    && now == WithApplied(g, was, ids[..j], run)
  }

  lemma RowsBegin(g: Graph, was: AppliedRows, ids: seq<Id>, run: RunId)
    ensures RowsUpTo(g, was, was, ids, 0, run)
  {
  }

  lemma RowsNext(g: Graph, was: AppliedRows, before: AppliedRows, ids: seq<Id>, j: nat, run: RunId)
    requires RowsUpTo(g, was, before, ids, j, run) && j < |ids| && ids[j] in g.migrations && g.migrations[ids[j]].manifest.id == ids[j]
    requires StructuralDigest(g.migrations[ids[j]]).Some?
    ensures RowsUpTo(g, was, WithRow(before, g.migrations[ids[j]], run), ids, j + 1, run)
  {
    hide RowFor, StructuralDigest;
    assert ids[..j + 1] == ids[..j] + [ids[j]] && ids[..j + 1][..j] == ids[..j];
  }

  lemma RowAddsKey(applied: AppliedRows, m: Migration, run: RunId)
    requires StructuralDigest(m).Some?
    ensures WithRow(applied, m, run).Keys == applied.Keys + {m.manifest.id}
  {
  }

  lemma GrownByRow(before: AppliedRows, after: AppliedRows, m: Migration, run: RunId)
    requires StructuralDigest(m).Some? && (after == before || after == WithRow(before, m, run))
    ensures Grown(before.Keys, after.Keys, m.manifest.id)
  {
    RowAddsKey(before, m, run);
  }

  /** The first `k` of these have been verified, those of them that say how. */
  predicate VerifiedUpTo(g: Graph, log: Ledger.Log, run: RunId, ids: seq<Id>, k: nat) {
    k <= |ids| && forall i | 0 <= i < k :: ids[i] in g.migrations && Verified(log, run, g.migrations[ids[i]])
  }

  lemma NoneVerified(g: Graph, log: Ledger.Log, run: RunId, ids: seq<Id>)
    ensures VerifiedUpTo(g, log, run, ids, 0)
  {
  }

  lemma VerifiedKeeps(g: Graph, t: Tables, after: Tables, run: RunId, ids: seq<Id>, k: nat)
    requires VerifiedUpTo(g, t.log, run, ids, k) && Keeps(t, after)
    ensures VerifiedUpTo(g, after.log, run, ids, k)
  {
    hide Passed;
  }

  lemma VerifiedNext(g: Graph, log: Ledger.Log, run: RunId, ids: seq<Id>, k: nat)
    requires VerifiedUpTo(g, log, run, ids, k) && k < |ids| && ids[k] in g.migrations && Verified(log, run, g.migrations[ids[k]])
    ensures VerifiedUpTo(g, log, run, ids, k + 1)
  {
    hide Verified;
  }

  /** Applies every pending migration in order. The report accounts for each of them once, and what is
      applied afterwards is what it says went through, recorded from the checkout, and at most the one with
      the error; when asked for, every one without an error has its verification on record. When nothing is
      in the way of deploying or verifying them, there is no error. */
  method ApplyAll(runner: Runner, g: Graph, pending: seq<Id>, verify: bool) returns (report: seq<ReportEntry>, ghost k: nat)
    requires runner.Valid() && Linked(g)
    requires forall id | id in pending :: id in g.migrations && StructuralDigest(g.migrations[id]).Some?
    modifies runner, runner.session
    ensures Accounts(report, pending, k, k < |pending|, old(runner.Durable()).applied.Keys, runner.Durable().applied.Keys)
    ensures RowsUpTo(g, old(runner.Durable()).applied, runner.Durable().applied, pending, k, runner.runId)
            || RowsUpTo(g, old(runner.Durable()).applied, runner.Durable().applied, pending, k + 1, runner.runId)
    ensures verify ==> VerifiedUpTo(g, runner.Durable().log, runner.runId, pending, k)
    ensures old(runner.session.Obedient()) && Smooth(old(runner.Durable()), g, pending, verify) ==> k == |pending|
  {
    hide StructuralDigest, MayGoThrough, MayVerify, Grown, Accounts, Smooth, Linked, Elements, Free, RowsUpTo, WithRow, VerifiedUpTo,
      Verified, Keeps;
    report, k := [], 0;
    var failed := false;
    ghost var start := runner.Durable();
    ghost var smooth := runner.session.Obedient() && Smooth(start, g, pending, verify);
    AccountsBegin(start.applied.Keys);
    assert pending[..0] == [];
    NamedByKey(g);
    RowsBegin(g, start.applied, pending, runner.runId);
    NoneVerified(g, start.log, runner.runId, pending);
    SmoothIsClear(start, g, pending, verify);
    for i := 0 to |pending|
      invariant runner.Valid()
      invariant Accounts(report, pending[..i], k, failed, start.applied.Keys, runner.Durable().applied.Keys)
      invariant k <= i && (!failed ==> k == i)
      invariant RowsUpTo(g, start.applied, runner.Durable().applied, pending, k, runner.runId)
                || (failed && RowsUpTo(g, start.applied, runner.Durable().applied, pending, k + 1, runner.runId))
      invariant verify ==> VerifiedUpTo(g, runner.Durable().log, runner.runId, pending, k)
      invariant smooth ==> !failed && runner.session.Obedient() && runner.Durable().attempts == map[]
    {
      assert pending[i] in pending && pending[..i + 1] == pending[..i] + [pending[i]];
      var m := g.migrations[pending[i]];
      if failed {
        AccountsSkip(report, pending[..i], k, start.applied.Keys, runner.Durable().applied.Keys, m.manifest.id);
        report := report + [ReportEntry(m.manifest.id, Skipped, false)];
      } else {
        ghost var before := runner.Durable();
        AccountsEnd(report, pending[..i], k, failed, start.applied.Keys, before.applied.Keys);
        if smooth {
          SmoothGoesOn(start, before, g, pending, verify, i);
        }
        RowsNext(g, start.applied, before.applied, pending, i, runner.runId);
        RowAddsKey(before.applied, m, runner.runId);
        var entry := ApplyOne(runner, m, verify);
        GrownByRow(before.applied, runner.Durable().applied, m, runner.runId);
        if verify {
          VerifiedKeeps(g, before, runner.Durable(), runner.runId, pending, i);
          if !entry.errored {
            VerifiedNext(g, runner.Durable().log, runner.runId, pending, i);
          }
        }
        AccountsEntry(report, pending[..i], start.applied.Keys, before.applied.Keys, runner.Durable().applied.Keys, entry);
        report := report + [entry];
        failed := entry.errored;
        k := if failed then i else i + 1;
      }
    }
    assert pending[..|pending|] == pending;
    AccountsEnd(report, pending, k, failed, start.applied.Keys, runner.Durable().applied.Keys);
  }

  /** However far a deploy got, planning again on the same checkout gives the rest of its plan, in order. */
  lemma DeployResumes(g: Graph, applied: AppliedRows, now: AppliedRows, j: nat, run: RunId)
    requires Graphs.Valid(g) && MakePlan(g, applied).Ok?
    requires forall id | id in g.migrations :: StructuralDigest(g.migrations[id]).Some?
    requires RowsUpTo(g, applied, now, MakePlan(g, applied).value.pending, j, run)
    ensures MakePlan(g, now).Ok? && MakePlan(g, now).value.pending == MakePlan(g, applied).value.pending[j..]
  {
    hide MakePlan, WithApplied, Graphs.Valid, StructuralDigest;
    Resumable(g, applied, j, run);
  }
}
