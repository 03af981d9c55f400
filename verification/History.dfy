/** Comparing what a database has applied with the checked-out project. */
module History {
  import opened Collections
  import opened DependencyOrder
  import opened DependencyCycles
  import opened Migrations
  import opened Graphs

  type RunId = nat

  /** One applied migration, as the database recorded it. `deploy` stands for the digest of the
      script bytes that ran. */
  datatype AppliedRow = AppliedRow(
    definition: Digest,
    algorithm: string,
    deploy: string,
    depends: seq<Id>,
    mode: Mode,
    run: RunId)

  type AppliedRows = map<Id, AppliedRow>

  datatype HistoryError =
    | MigrationMissing(id: Id)
    | DependenciesNotApplied(id: Id, absent: seq<Id>)
    | UnknownAlgorithm(algorithm: string)
    | UnparsableSource(id: Id)
    | DependenciesChanged(id: Id)
    | ModeChanged(id: Id)
    | DefinitionChanged(id: Id, scriptChanged: bool)

  /** What a run intends to do: both lists in deployment order. */
  datatype Plan = Plan(pending: seq<Id>, applied: seq<Id>)

  function Absent(depends: seq<Id>, applied: AppliedRows): (r: seq<Id>)
    ensures r == [] <==> forall x | x in depends :: x in applied
    ensures forall x :: x in r <==> x in depends && x !in applied
  {
    if depends == [] then
      []
    else
      (if depends[0] in applied then [] else [depends[0]]) + Absent(depends[1..], applied)
  }

  function CheckDependenciesApplied(m: Migration, applied: AppliedRows): Result<(), HistoryError> {
    var absent := Absent(m.manifest.depends, applied);
    if absent == [] then Ok(()) else Err(DependenciesNotApplied(m.manifest.id, absent))
  }

  /** The digest of the checked-out source under the algorithm the row was recorded with. */
  function CurrentDigest(m: Migration, algorithm: string): Option<Digest> {
    if algorithm == STRUCTURAL_V1 then StructuralDigest(m) else Some(RawDigest(m))
  }

  /** Whether two dependency lists are equal once sorted. */
  predicate SameList(a: seq<Id>, b: seq<Id>) {
    multiset(a) == multiset(b)
  }

  function CheckUnchanged(m: Migration, row: AppliedRow): Result<(), HistoryError> {
    if !KnownAlgorithm(row.algorithm) then
      Err(UnknownAlgorithm(row.algorithm))
    else
      match CurrentDigest(m, row.algorithm)
      case None => Err(UnparsableSource(m.manifest.id))
      case Some(digest) =>
        if digest == row.definition then Ok(())
        else if !SameList(m.manifest.depends, row.depends) then Err(DependenciesChanged(m.manifest.id))
        else if m.manifest.transaction != row.mode then Err(ModeChanged(m.manifest.id))
        else Err(DefinitionChanged(m.manifest.id, m.deploy.sql != row.deploy))
  }

  function CheckRow(g: Graph, applied: AppliedRows, id: Id): Result<(), HistoryError>
    requires id in applied
  {
    if id !in g.migrations then
      Err(MigrationMissing(id))
    else
      match CheckUnchanged(g.migrations[id], applied[id])
      case Err(e) => Err(e)
      case Ok(_) => CheckDependenciesApplied(g.migrations[id], applied)
  }

  /** The first failing row, in the order given. */
  function CheckRows(g: Graph, applied: AppliedRows, ids: seq<Id>): (r: Result<(), HistoryError>)
    requires forall id | id in ids :: id in applied
    ensures r.Ok? <==> forall id | id in ids :: CheckRow(g, applied, id).Ok?
  {
    if ids == [] then Ok(())
    else if CheckRow(g, applied, ids[0]).Err? then CheckRow(g, applied, ids[0])
    else CheckRows(g, applied, ids[1..])
  }

  /** Checks every applied migration, then computes what remains. */
  function MakePlan(g: Graph, applied: AppliedRows): Result<Plan, HistoryError> {
    match CheckRows(g, applied, Ascending(applied.Keys))
    case Err(e) => Err(e)
    case Ok(_) =>
      var order := DeploymentOrder(g);
      Ok(Plan(Filter(order, Elements(order) - applied.Keys), Filter(order, applied.Keys)))
  }

  // ----- What a plan promises -----

  /** The part of a row that planning relies on: the digest was taken of the recorded dependencies
      and mode. */
  predicate Coherent(id: Id, row: AppliedRow) {
    && row.definition.id == id
    && row.definition.depends == Elements(row.depends)
    && row.definition.mode == row.mode
  }

  /** A row that passes the integrity check records exactly the dependencies and mode the source
      still declares. */
  lemma UnchangedMeans(m: Migration, id: Id, row: AppliedRow)
    requires Coherent(id, row) && CheckUnchanged(m, row).Ok?
    ensures Elements(m.manifest.depends) == Elements(row.depends)
    ensures m.manifest.transaction == row.mode && m.manifest.id == id
  {
  }

  lemma {:induction false} CountsOnce(s: seq<Id>, x: Id)
    requires Distinct(s)
    ensures multiset(s)[x] == if x in s then 1 else 0
  {
    if s != [] {
      assert s == [s[0]] + s[1..];
      assert Distinct(s[1..]) by {
        assert forall i | 0 <= i < |s[1..]| :: s[1..][i] == s[i + 1];
      }
      CountsOnce(s[1..], x);
      assert s[0] !in s[1..];
    }
  }

  /** Without repetitions, lists equal once sorted are lists of the same elements. */
  lemma SameListExactly(a: seq<Id>, b: seq<Id>)
    requires Distinct(a) && Distinct(b)
    ensures SameList(a, b) <==> Elements(a) == Elements(b)
  {
    forall x ensures multiset(a)[x] == (if x in Elements(a) then 1 else 0) && multiset(b)[x] == if x in Elements(b) then 1 else 0 {
      CountsOnce(a, x);
      CountsOnce(b, x);
    }
    if SameList(a, b) {
      assert forall x :: x in Elements(a) <==> multiset(a)[x] == 1;
      assert forall x :: x in Elements(b) <==> multiset(b)[x] == 1;
    } else {
      assert exists x :: multiset(a)[x] != multiset(b)[x];
    }
  }

  /** The error says what has changed: the dependencies if their set has, else the mode if it has, and
      the definition only when what differs is the script itself. For a row recorded under the
      exact-bytes policy that always means other bytes. */
  lemma UnchangedExactly(m: Migration, row: AppliedRow)
    requires Coherent(m.manifest.id, row) && KnownAlgorithm(row.algorithm)
    requires Distinct(m.manifest.depends) && Distinct(row.depends)
    ensures CheckUnchanged(m, row) == Err(UnparsableSource(m.manifest.id)) <==> row.algorithm == STRUCTURAL_V1 && m.deploy.parsed.None?
    ensures var id, digest := m.manifest.id, CurrentDigest(m, row.algorithm);
      var sameDepends, sameMode := Elements(m.manifest.depends) == Elements(row.depends), m.manifest.transaction == row.mode;
      digest.Some? ==>
        && (CheckUnchanged(m, row).Ok? <==> digest == Some(row.definition))
        && (CheckUnchanged(m, row) == Err(DependenciesChanged(id)) <==> !sameDepends)
        && (CheckUnchanged(m, row) == Err(ModeChanged(id)) <==> sameDepends && !sameMode)
        && (CheckUnchanged(m, row) == Err(DefinitionChanged(id, m.deploy.sql != row.deploy)) <==>
              sameDepends && sameMode && digest != Some(row.definition))
    ensures row.algorithm == RAW_V1 && row.definition == RawV1(m.manifest.id, row.mode, Elements(row.depends), row.deploy) ==>
      CheckUnchanged(m, row) != Err(DefinitionChanged(m.manifest.id, false))
  {
    SameListExactly(m.manifest.depends, row.depends);
    assert RAW_V1 != STRUCTURAL_V1;
  }

  lemma {:induction false} FirstToFail(g: Graph, applied: AppliedRows, ids: seq<Id>) returns (k: nat)
    requires (forall id | id in ids :: id in applied) && CheckRows(g, applied, ids).Err?
    ensures k < |ids| && CheckRow(g, applied, ids[k]) == CheckRows(g, applied, ids)
    ensures forall i | 0 <= i < k :: CheckRow(g, applied, ids[i]).Ok?
  {
    hide CheckRow;
    if CheckRow(g, applied, ids[0]).Err? {
      k := 0;
    } else {
      var rest := FirstToFail(g, applied, ids[1..]);
      k := rest + 1;
      assert forall i | 0 < i < k :: ids[i] == ids[1..][i - 1];
    }
  }

  /** A plan that cannot be made is refused for the smallest applied migration that fails its check, and
      for what is wrong with that one. */
  lemma PlanNamesFirst(g: Graph, applied: AppliedRows)
    requires MakePlan(g, applied).Err?
    ensures exists id ::
      id in applied && CheckRow(g, applied, id) == Err(MakePlan(g, applied).error)
      && forall x | x in applied && x < id :: CheckRow(g, applied, x).Ok?
  {
    hide CheckRow, CheckRows;
    var ids := Ascending(applied.Keys);
    var k := FirstToFail(g, applied, ids);
    assert ids[k] in ids;
    forall x | x in applied && x < ids[k] ensures CheckRow(g, applied, x).Ok? {
      assert x in ids;
      var i :| 0 <= i < |ids| && ids[i] == x;
    }
    assert CheckRow(g, applied, ids[k]) == Err(MakePlan(g, applied).error);
  }

  /** Planning succeeds exactly when every applied migration is in the project, unchanged, and has
      its dependencies applied. */
  lemma PlanExactly(g: Graph, applied: AppliedRows)
    ensures MakePlan(g, applied).Ok? <==>
      forall id | id in applied ::
        && id in g.migrations
        && CheckUnchanged(g.migrations[id], applied[id]).Ok?
        && forall x | x in g.migrations[id].manifest.depends :: x in applied
  {
    hide CheckRow, CheckRows, CheckUnchanged;
    var ids := Ascending(applied.Keys);
    assert forall id | id in applied :: id in ids;
    forall id | id in applied
      ensures CheckRow(g, applied, id).Ok? <==>
        && id in g.migrations
        && CheckUnchanged(g.migrations[id], applied[id]).Ok?
        && forall x | x in g.migrations[id].manifest.depends :: x in applied
    {
      RowPasses(g, applied, id);
    }
  }

  lemma RowPasses(g: Graph, applied: AppliedRows, id: Id)
    requires id in applied
    ensures CheckRow(g, applied, id).Ok? <==>
      && id in g.migrations
      && CheckUnchanged(g.migrations[id], applied[id]).Ok?
      && forall x | x in g.migrations[id].manifest.depends :: x in applied
  {
    hide CheckUnchanged;
  }

  /** `pending` can be deployed front to back on top of what is applied. */
  ghost predicate Deployable(g: Graph, applied: set<Id>, pending: seq<Id>) {
    Continues(DependsOf(g.migrations), applied, pending)
  }

  lemma {:induction false} FilterContinues(d: Depends, done: set<Id>, placed: set<Id>, t: seq<Id>)
    requires Continues(d, placed, t)
    requires forall x | x in placed :: x in done
    ensures Continues(d, done, Filter(t, d.Keys - done))
    decreases |t|
  {
    hide Continues;
    var keep := d.Keys - done;
    if t == [] {
      NothingContinues(d, done);
    } else {
      ContinuesTail(d, placed, t);
      ContinuesHead(d, placed, t);
      FilterContinues(d, done + {t[0]}, placed + {t[0]}, t[1..]);
      FilterAgrees(t[1..], d.Keys - (done + {t[0]}), keep);
      if t[0] in keep {
        ContinuesCons(d, done, t[0], Filter(t[1..], keep));
      } else {
        assert done + {t[0]} == done;
        EmptyConcat(Filter(t[1..], keep));
      }
    }
  }

  lemma NothingContinues(d: Depends, done: set<Id>)
    ensures Continues(d, done, [])
  {
  }

  lemma ContinuesHead(d: Depends, placed: set<Id>, t: seq<Id>)
    requires Continues(d, placed, t) && t != []
    ensures t[0] in d && t[0] !in placed && t[0] !in t[1..] && forall x | x in d[t[0]] :: x in placed
  {
    assert t[..0] == [];
  }

  lemma {:induction false} FilterAgrees(t: seq<Id>, a: set<Id>, b: set<Id>)
    requires forall x | x in t :: x in a <==> x in b
    ensures Filter(t, a) == Filter(t, b)
  {
    if t != [] {
      FilterAgrees(t[1..], a, b);
    }
  }

  lemma ContinuesTail(d: Depends, placed: set<Id>, t: seq<Id>)
    requires Continues(d, placed, t) && t != []
    ensures Continues(d, placed + {t[0]}, t[1..])
  {
    var r := t[1..];
    forall i | 0 <= i < |r|
      ensures r[i] in d && r[i] !in placed + {t[0]} && forall x | x in d[r[i]] :: x in placed + {t[0]} || x in r[..i]
    {
      assert r[i] == t[i + 1];
      assert t[..i + 1] == [t[0]] + r[..i];
    }
  }

  /** What stands earlier in `part` stands earlier in `whole`. */
  predicate KeepsOrder(whole: seq<Id>, part: seq<Id>) {
    forall a, b, i, j :: 0 <= a < b < |part| && 0 <= i < |whole| && 0 <= j < |whole| && part[a] == whole[i] && part[b] == whole[j] ==> i < j
  }

  lemma LongerWhole(whole: seq<Id>, part: seq<Id>, x: Id)
    requires KeepsOrder(whole, part) && x !in part
    ensures KeepsOrder([x] + whole, part)
  {
    var longer := [x] + whole;
    assert forall i | 0 < i < |longer| :: longer[i] == whole[i - 1];
    assert forall a | 0 <= a < |part| :: part[a] in part && part[a] != longer[0];
  }

  lemma LongerBoth(whole: seq<Id>, part: seq<Id>, x: Id)
    requires KeepsOrder([x] + whole, part) && x !in whole && x !in part
    ensures KeepsOrder([x] + whole, [x] + part)
  {
    var longer, more := [x] + whole, [x] + part;
    assert forall i | 0 < i < |longer| :: longer[i] == whole[i - 1] && whole[i - 1] in whole;
    forall a, b, i, j | 0 <= a < b < |more| && 0 <= i < |longer| && 0 <= j < |longer| && more[a] == longer[i] && more[b] == longer[j]
      ensures i < j
    {
      assert more[b] == part[b - 1] && part[b - 1] in part;
      assert a > 0 ==> more[a] == part[a - 1];
    }
  }

  lemma {:induction false} FilterKeepsOrder(s: seq<Id>, keep: set<Id>)
    requires Distinct(s)
    ensures KeepsOrder(s, Filter(s, keep))
  {
    hide KeepsOrder;
    if s == [] {
      NothingToOrder();
    } else {
      assert s == [s[0]] + s[1..] && s[0] !in s[1..];
      assert Distinct(s[1..]) by {
        assert forall i | 0 <= i < |s[1..]| :: s[1..][i] == s[i + 1];
      }
      var inner := Filter(s[1..], keep);
      FilterKeepsOrder(s[1..], keep);
      LongerWhole(s[1..], inner, s[0]);
      if s[0] in keep {
        LongerBoth(s[1..], inner, s[0]);
      } else {
        EmptyConcat(inner);
      }
    }
  }

  lemma NothingToOrder()
    ensures KeepsOrder([], [])
  {
  }

  /** A plan lists every migration once: the applied ones, and the rest in an order in which each
      comes after everything it depends on. */
  lemma PlanIsDeployable(g: Graph, applied: AppliedRows)
    requires Valid(g) && MakePlan(g, applied).Ok?
    ensures var p := MakePlan(g, applied).value;
      && Deployable(g, applied.Keys, p.pending)
      && (forall x :: x in p.pending <==> x in g.migrations && x !in applied)
      && (forall x :: x in p.applied <==> x in applied)
      && Distinct(p.applied)
  {
    hide CheckRows, KahnFrom, Closed, Acyclic;
    var d := DependsOf(g.migrations);
    var order := DeploymentOrder(g);
    LeastOrder(d);
    PlanExactly(g, applied);
    FilterContinues(d, applied.Keys, {}, order);
    FilterAgrees(order, Elements(order) - applied.Keys, d.Keys - applied.Keys);
    FilterDistinct(order, applied.Keys);
  }

  /** Both lists keep the order in which the whole project would be deployed. */
  lemma PlanKeepsOrder(g: Graph, applied: AppliedRows)
    requires Valid(g) && MakePlan(g, applied).Ok?
    ensures KeepsOrder(DeploymentOrder(g), MakePlan(g, applied).value.pending)
    ensures KeepsOrder(DeploymentOrder(g), MakePlan(g, applied).value.applied)
  {
    hide CheckRows, KahnFrom, Closed, Acyclic, KeepsOrder;
    var order := DeploymentOrder(g);
    LeastOrder(DependsOf(g.migrations));
    FilterKeepsOrder(order, Elements(order) - applied.Keys);
    FilterKeepsOrder(order, applied.Keys);
  }

  /** A project in which 3 depends on 5, and 4 on nothing. */
  const SAMPLE: Depends := map[3 := [5], 4 := [], 5 := []]

  /** What is pending is the whole order with the applied part taken out. That is not the order the
      remainder would have on its own: once 5 is applied, the code goes on with 4 and then 3. */
  lemma PendingIsNotResorted()
    ensures Filter(Kahn(SAMPLE), {3, 4}) == [4, 3] && KahnFrom(SAMPLE, {5}) == [3, 4]
  {
    SampleReady();
    hide KahnFrom, IsReady;
    Places(SAMPLE, {}, 4);
    Places(SAMPLE, {4}, 5);
    Places(SAMPLE, {4, 5}, 3);
    PlacesNothing(SAMPLE, {3, 4, 5});
    Places(SAMPLE, {5}, 3);
    Places(SAMPLE, {3, 5}, 4);
    assert {} + {4} == {4} && {4} + {5} == {4, 5} && {4, 5} + {3} == {3, 4, 5} && {5} + {3} == {3, 5} && {3, 5} + {4} == {3, 4, 5};
    assert Kahn(SAMPLE) == [4, 5, 3];
    assert [4, 5, 3][1..] == [5, 3] && [5, 3][1..] == [3] && [3][1..] == [];
  }

  lemma SampleReady()
    ensures !IsReady(SAMPLE, {}, 3) && IsReady(SAMPLE, {}, 4) && !IsReady(SAMPLE, {4}, 3) && !IsReady(SAMPLE, {4}, 4)
    ensures IsReady(SAMPLE, {4}, 5) && IsReady(SAMPLE, {4, 5}, 3) && IsReady(SAMPLE, {5}, 3)
    ensures !IsReady(SAMPLE, {3, 5}, 3) && IsReady(SAMPLE, {3, 5}, 4)
  {
    assert SAMPLE[3] == [5] && 5 in SAMPLE[3];
  }

  lemma Places(d: Depends, placed: set<Id>, next: Id)
    requires IsReady(d, placed, next) && forall n | n in d && n < next :: !IsReady(d, placed, n)
    ensures KahnFrom(d, placed) == [next] + KahnFrom(d, placed + {next})
  {
    assert next in Ready(d, placed);
  }

  lemma PlacesNothing(d: Depends, placed: set<Id>)
    requires d.Keys <= placed
    ensures KahnFrom(d, placed) == []
  {
    assert Ready(d, placed) == {};
  }

  // ----- Resuming -----

  lemma {:induction false} FilterSuffix(t: seq<Id>, keep: set<Id>, k: nat)
    requires Distinct(t) && k <= |Filter(t, keep)|
    ensures Filter(t, keep - Elements(Filter(t, keep)[..k])) == Filter(t, keep)[k..]
  {
    if t == [] {
    } else {
      var rest := t[1..];
      assert Distinct(rest) by {
        assert forall i | 0 <= i < |rest| :: rest[i] == t[i + 1];
      }
      var all, inner := Filter(t, keep), Filter(rest, keep);
      assert t[0] !in rest;
      if t[0] in keep && k > 0 {
        FilterSuffix(rest, keep, k - 1);
        assert all == [t[0]] + inner;
        assert all[..k] == [t[0]] + inner[..k - 1];
        assert all[k..] == inner[k - 1..];
        FilterAgrees(rest, keep - Elements(all[..k]), keep - Elements(inner[..k - 1]));
      } else if t[0] in keep {
        assert keep - Elements(all[..0]) == keep;
      } else {
        FilterSuffix(rest, keep, k);
        assert all == inner;
      }
    }
  }

  /** What a deploy of `id` records. */
  function RowFor(m: Migration, digest: Digest, run: RunId): AppliedRow {
    AppliedRow(digest, STRUCTURAL_V1, m.deploy.sql, m.manifest.depends, m.manifest.transaction, run)
  }

  /** The rows after the migrations of `done` have been recorded from the checked-out source. */
  function WithApplied(g: Graph, applied: AppliedRows, done: seq<Id>, run: RunId): AppliedRows
    requires forall id | id in done :: id in g.migrations && StructuralDigest(g.migrations[id]).Some?
  {
    if done == [] then applied
    else
      var id := Last(done);
      WithApplied(g, applied, done[..|done| - 1], run)[id := RowFor(g.migrations[id], StructuralDigest(g.migrations[id]).value, run)]
  }

  lemma {:induction false} WithAppliedRows(g: Graph, applied: AppliedRows, done: seq<Id>, run: RunId)
    requires forall id | id in done :: id in g.migrations && StructuralDigest(g.migrations[id]).Some?
    ensures var r := WithApplied(g, applied, done, run);
      && r.Keys == applied.Keys + Elements(done)
      && (forall id | id in r :: r[id] == if id in done
            then RowFor(g.migrations[id], StructuralDigest(g.migrations[id]).value, run) else applied[id])
  {
    if done != [] {
      var front := done[..|done| - 1];
      WithAppliedRows(g, applied, front, run);
      assert done == front + [Last(done)];
      ElementsSnoc(front, Last(done));
    }
  }

  lemma ResumedRowsPass(g: Graph, applied: AppliedRows, p: seq<Id>, k: nat, run: RunId)
    requires MakePlan(g, applied).Ok? && Deployable(g, applied.Keys, p) && k <= |p|
    requires forall id | id in g.migrations :: StructuralDigest(g.migrations[id]).Some?
    requires forall id | id in p[..k] :: id in g.migrations
    ensures MakePlan(g, WithApplied(g, applied, p[..k], run)).Ok?
  {
    hide MakePlan, WithApplied;
    var d := DependsOf(g.migrations);
    var later := WithApplied(g, applied, p[..k], run);
    WithAppliedRows(g, applied, p[..k], run);
    PlanExactly(g, applied);
    forall id | id in later
      ensures id in g.migrations && CheckUnchanged(g.migrations[id], later[id]).Ok?
      ensures forall x | x in g.migrations[id].manifest.depends :: x in later
    {
      if id in p[..k] {
        var i :| 0 <= i < k && p[i] == id;
        forall x | x in d[p[i]] ensures x in later {
          assert x in applied.Keys || x in p[..i];
          assert x in p[..i] ==> x in p[..k];
        }
      }
    }
    PlanExactly(g, later);
  }

  /** If a deploy stops after recording the first `k` pending migrations, planning again on the same
      project gives the rest, in the same order. */
  lemma Resumable(g: Graph, applied: AppliedRows, k: nat, run: RunId)
    requires Valid(g) && MakePlan(g, applied).Ok?
    requires k <= |MakePlan(g, applied).value.pending|
    requires forall id | id in g.migrations :: StructuralDigest(g.migrations[id]).Some?
    ensures forall id | id in MakePlan(g, applied).value.pending[..k] :: id in g.migrations
    ensures var p := MakePlan(g, applied).value.pending;
      var again := MakePlan(g, WithApplied(g, applied, p[..k], run));
      again.Ok? && again.value.pending == p[k..]
  {
    var p := MakePlan(g, applied).value.pending;
    PlanIsDeployable(g, applied);
    assert forall id | id in p[..k] :: id in p;
    ResumedRowsPass(g, applied, p, k, run);
    WithAppliedRows(g, applied, p[..k], run);
    RemainderIsSuffix(g, applied, WithApplied(g, applied, p[..k], run), k);
  }

  lemma RemainderIsSuffix(g: Graph, applied: AppliedRows, later: AppliedRows, k: nat)
    requires Valid(g) && MakePlan(g, applied).Ok? && MakePlan(g, later).Ok?
    requires k <= |MakePlan(g, applied).value.pending|
    requires later.Keys == applied.Keys + Elements(MakePlan(g, applied).value.pending[..k])
    ensures MakePlan(g, later).value.pending == MakePlan(g, applied).value.pending[k..]
  {
    hide CheckRows, KahnFrom, Filter;
    var order := DeploymentOrder(g);
    KahnContinues(DependsOf(g.migrations), {});
    var keep := Elements(order) - applied.Keys;
    FilterSuffix(order, keep, k);
    assert Elements(order) - later.Keys == keep - Elements(Filter(order, keep)[..k]);
  }
}
