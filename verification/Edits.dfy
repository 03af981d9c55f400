/** What the history check sees of an edit to a migration that has already been applied. */
module Edits {
  import opened Collections
  import opened Canonical
  import opened DependencyOrder
  import opened Migrations
  import opened Graphs
  import opened History
  import opened Ledger
  import opened Registry

  /** What a deploy or a baseline of `m` puts on record, under the structural policy or as earlier
      releases did under the exact-bytes policy. */
  predicate Records(m: Migration, algorithm: string, run: RunId, row: AppliedRow) {
    && row.algorithm == algorithm && row.run == run
    && row.deploy == m.deploy.sql && row.depends == m.manifest.depends && row.mode == m.manifest.transaction
    && (if algorithm == STRUCTURAL_V1 then StructuralDigest(m) == Some(row.definition)
        else algorithm == RAW_V1 && row.definition == RawDigest(m))
  }

  /** No object in the parse tree repeats a key. */
  predicate TreeFits(m: Migration) {
    m.deploy.parsed.Some? ==> WellFormed(m.deploy.parsed.value.tree)
  }

  /** Nothing has changed but what the policy disregards: the order of the dependency list and, under
      the structural policy, everything about the script that its parse tree does not show. */
  ghost predicate Unedited(a: Migration, b: Migration, algorithm: string) {
    && b.manifest.id == a.manifest.id
    && b.manifest.transaction == a.manifest.transaction
    && Elements(b.manifest.depends) == Elements(a.manifest.depends)
    && (if algorithm == STRUCTURAL_V1 then
          a.deploy.parsed.Some? && b.deploy.parsed.Some? && Same(a.deploy.parsed.value.tree, b.deploy.parsed.value.tree)
        else
          b.deploy.sql == a.deploy.sql)
  }

  /** An applied migration passes the integrity check exactly when it has not been edited: an edit is
      noticed, and a reformatting is not. */
  lemma EditsShow(a: Migration, b: Migration, algorithm: string, run: RunId, row: AppliedRow)
    requires Records(a, algorithm, run, row) && TreeFits(a) && TreeFits(b)
    ensures CheckUnchanged(b, row).Ok? <==> Unedited(a, b, algorithm)
  {
    hide Canonicalize, Same, WellFormed;
    assert RAW_V1 != STRUCTURAL_V1;
    if algorithm == STRUCTURAL_V1 && b.deploy.parsed.Some? {
      CanonicalExactly(a.deploy.parsed.value.tree, b.deploy.parsed.value.tree);
    }
  }

  /** Every way of applying a migration puts it on record: a transactional deploy, a nontransactional
      one, a baseline, and an operator's account of an attempt. */
  lemma EveryRowRecords(t: Tables, run: RunId, sequence: nat, m: Migration, digest: Digest, author: RunId)
    requires StructuralDigest(m) == Some(digest)
    ensures var id := m.manifest.id;
      && Records(m, STRUCTURAL_V1, run, Deployed(t, run, sequence, m, digest).applied[id])
      && Records(m, STRUCTURAL_V1, run, Finished(t, run, sequence, m, digest).applied[id])
      && Records(m, STRUCTURAL_V1, run, Baselined(t, run, sequence, m, digest).applied[id])
      && (m.manifest.transaction == Forbidden ==>
            Records(m, STRUCTURAL_V1, author, Resolved(t, author, sequence, id, AttemptFor(m, digest, run), true).applied[id]))
  {
  }

  /** Every applied row was recorded from the source listed for it. */
  predicate AllRecorded(sources: map<Id, Migration>, rows: AppliedRows) {
    && sources.Keys == rows.Keys
    && forall id | id in rows :: TreeFits(sources[id]) && Records(sources[id], rows[id].algorithm, rows[id].run, rows[id])
  }

  /** A project can be planned against a database exactly when every applied migration is still in it,
      has not been edited since it was recorded, and has its dependencies applied. */
  lemma PlansSeeEdits(g: Graph, sources: map<Id, Migration>, rows: AppliedRows)
    requires AllRecorded(sources, rows) && forall id | id in g.migrations :: TreeFits(g.migrations[id])
    ensures MakePlan(g, rows).Ok? <==>
      forall id | id in rows ::
        && id in g.migrations
        && Unedited(sources[id], g.migrations[id], rows[id].algorithm)
        && forall x | x in g.migrations[id].manifest.depends :: x in rows
  {
    hide MakePlan, CheckUnchanged, Unedited, Records, TreeFits;
    PlanExactly(g, rows);
    forall id | id in rows && id in g.migrations
      ensures CheckUnchanged(g.migrations[id], rows[id]).Ok? <==> Unedited(sources[id], g.migrations[id], rows[id].algorithm)
    {
      EditsShow(sources[id], g.migrations[id], rows[id].algorithm, rows[id].run, rows[id]);
    }
  }
}
