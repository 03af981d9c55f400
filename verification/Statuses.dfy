/** The status command: a reader that takes no lock and changes nothing. */
module Statuses {
  import opened Collections
  import opened DependencyOrder
  import opened DependencyCycles
  import opened Migrations
  import opened Graphs
  import opened History
  import opened Ledger
  import opened Registry
  import opened Protocol
  import opened ProtocolTheorems
  import opened ProtocolPromises

  datatype State = IsApplied | IsPending | IsBlocked

  /** One line of a status report; the definition is the recorded one, or the source's when nothing
      is recorded. */
  datatype Line = Line(id: Id, state: State, definition: Digest)

  predicate Labels(lines: seq<Line>, ids: seq<Id>, state: State) {
    |lines| == |ids| && forall i | 0 <= i < |ids| :: lines[i].id == ids[i] && lines[i].state == state
  }

  predicate Hashable(g: Graph, ids: seq<Id>) {
    forall id | id in ids :: id in g.migrations && StructuralDigest(g.migrations[id]).Some?
  }

  // ----- The lines -----

  /** The lines for the applied part of a plan. */
  method AppliedLines(state: RegistryState, ids: seq<Id>) returns (lines: seq<Line>)
    requires forall id | id in ids :: id in state.applied
    ensures |lines| == |ids|
    ensures forall i | 0 <= i < |ids| :: ids[i] in state.applied && lines[i] == Line(ids[i], IsApplied, state.applied[ids[i]].definition)
    ensures Labels(lines, ids, IsApplied)
  {
    lines := [];
    for i := 0 to |ids|
      invariant |lines| == i
      invariant forall j | 0 <= j < i :: ids[j] in state.applied && lines[j] == Line(ids[j], IsApplied, state.applied[ids[j]].definition)
    {
      assert ids[i] in ids;
      lines := lines + [Line(ids[i], IsApplied, state.applied[ids[i]].definition)];
    }
  }

  /** The pending ids that are really pending, in order. */
  function Waiting(state: RegistryState, ids: seq<Id>): seq<Id> {
    Filter(ids, Elements(ids) - state.unresolved.Keys)
  }

  /** The lines for the pending part: an unresolved migration is not pending. Fails at the first
      source that cannot be hashed. */
  method PendingLines(g: Graph, state: RegistryState, ids: seq<Id>) returns (r: Result<seq<Line>, HistoryError>)
    requires forall id | id in ids :: id in g.migrations && g.migrations[id].manifest.id == id
    ensures r.Ok? <==> Hashable(g, Waiting(state, ids))
    ensures r.Ok? ==> Describes(g, Waiting(state, ids), r.value) && Labels(r.value, Waiting(state, ids), IsPending)
    ensures r.Err? ==> r.error.UnparsableSource? && r.error.id in Waiting(state, ids)
  {
    var lines := [];
    var keep: set<Id> := Elements(ids) - state.unresolved.Keys;
    for i := 0 to |ids|
      invariant Describes(g, Filter(ids[..i], keep), lines)
    {
      assert ids[..i + 1] == ids[..i] + [ids[i]] && ids[i] in ids;
      FilterConcat(ids[..i], [ids[i]], keep);
      FilterOne(ids[i], keep);
      if ids[i] !in state.unresolved {
        if StructuralDigest(g.migrations[ids[i]]).None? {
          return Err(UnparsableSource(ids[i]));
        }
        lines := lines + [Line(ids[i], IsPending, StructuralDigest(g.migrations[ids[i]]).value)];
      }
    }
    assert ids[..|ids|] == ids;
    return Ok(lines);
  }

  lemma FilterOne(id: Id, keep: set<Id>)
    ensures Filter([id], keep) == if id in keep then [id] else []
  {
    assert [id][1..] == [];
  }

  predicate Describes(g: Graph, ids: seq<Id>, lines: seq<Line>) {
    && |lines| == |ids|
    && forall i | 0 <= i < |ids| ::
         ids[i] in g.migrations && StructuralDigest(g.migrations[ids[i]]).Some?
         && lines[i] == Line(ids[i], IsPending, StructuralDigest(g.migrations[ids[i]]).value)
  }

  /** The lines for the unresolved attempts, taken from the registry and not from the project. */
  method BlockedLines(state: RegistryState, ids: seq<Id>) returns (lines: seq<Line>)
    requires forall id | id in ids :: id in state.unresolved
    ensures |lines| == |ids|
    ensures forall i | 0 <= i < |ids| :: ids[i] in state.unresolved && lines[i] == Line(ids[i], IsBlocked, state.unresolved[ids[i]].definition)
    ensures Labels(lines, ids, IsBlocked)
  {
    lines := [];
    for i := 0 to |ids|
      invariant |lines| == i
      invariant forall j | 0 <= j < i :: ids[j] in state.unresolved && lines[j] == Line(ids[j], IsBlocked, state.unresolved[ids[j]].definition)
    {
      assert ids[i] in ids;
      lines := lines + [Line(ids[i], IsBlocked, state.unresolved[ids[i]].definition)];
    }
  }

  /** What a report says of each migration. */
  predicate Says(lines: seq<Line>, id: Id, state: State) {
    && (exists i :: 0 <= i < |lines| && lines[i].id == id && lines[i].state == state)
    && (forall i, j | 0 <= i < |lines| && 0 <= j < |lines| && lines[i].id == id && lines[j].id == id :: i == j)
  }

  /** Every migration of the project or of the registry is listed exactly once, in the state it is
      in, provided nothing is both applied and unresolved. */
  predicate Accurate(g: Graph, state: RegistryState, lines: seq<Line>) {
    && (forall id | id in state.applied :: Says(lines, id, IsApplied))
    && (forall id | id in state.unresolved :: Says(lines, id, IsBlocked))
    && (forall id | id in g.migrations && id !in state.applied && id !in state.unresolved :: Says(lines, id, IsPending))
    && (forall i | 0 <= i < |lines| :: lines[i].id in g.migrations || lines[i].id in state.unresolved)
  }

  lemma DistinctConcat(a: seq<Id>, b: seq<Id>)
    requires Distinct(a) && Distinct(b) && forall x | x in a :: x !in b
    ensures Distinct(a + b)
  {
    forall i, j | 0 <= i < j < |a + b| ensures (a + b)[i] != (a + b)[j] {
      if i < |a| <= j {
        assert a[i] in a && b[j - |a|] in b;
      }
    }
  }

  /** In a list without repeated ids, every line is the only one about its migration. */
  lemma LineSays(lines: seq<Line>, ids: seq<Id>, part: seq<Line>, at: nat, id: Id, state: State)
    requires |lines| == |ids| && Distinct(ids) && forall i | 0 <= i < |ids| :: lines[i].id == ids[i]
    requires at + |part| <= |lines| && lines[at..at + |part|] == part
    requires exists i :: 0 <= i < |part| && part[i].id == id && part[i].state == state
    ensures Says(lines, id, state)
  {
    var i :| 0 <= i < |part| && part[i].id == id && part[i].state == state;
    assert lines[at + i] == part[i];
    forall j, k | 0 <= j < |lines| && 0 <= k < |lines| && lines[j].id == id && lines[k].id == id ensures j == k {
      assert ids[j] == ids[k];
    }
  }

  lemma LabelledSays(a: seq<Line>, p: seq<Line>, b: seq<Line>, ia: seq<Id>, ip: seq<Id>, ib: seq<Id>, id: Id, state: State)
    requires Labels(a, ia, IsApplied) && Labels(p, ip, IsPending) && Labels(b, ib, IsBlocked)
    requires Distinct(ia + ip + ib)
    requires id in match state case IsApplied => ia case IsPending => ip case IsBlocked => ib
    ensures Says(a + p + b, id, state)
  {
    var lines, ids := a + p + b, ia + ip + ib;
    match state {
      case IsApplied =>
        var i :| 0 <= i < |ia| && ia[i] == id;
        assert a[i].id == id && a[i].state == state;
        LineSays(lines, ids, a, 0, id, state);
      case IsPending =>
        var i :| 0 <= i < |ip| && ip[i] == id;
        assert p[i].id == id && p[i].state == state;
        LineSays(lines, ids, p, |a|, id, state);
      case IsBlocked =>
        var i :| 0 <= i < |ib| && ib[i] == id;
        assert b[i].id == id && b[i].state == state;
        assert lines[|a + p|..|a + p| + |b|] == b;
        LineSays(lines, ids, b, |a + p|, id, state);
    }
  }

  /** What the three lists of ids have to be for the report to be accurate. */
  ghost predicate Covers(g: Graph, state: RegistryState, ia: seq<Id>, ip: seq<Id>, ib: seq<Id>) {
    && Distinct(ia) && Distinct(ip) && Distinct(ib)
    && (forall x :: x in ia <==> x in state.applied) && (forall x :: x in ib <==> x in state.unresolved)
    && (forall x :: x in ip <==> x in g.migrations && x !in state.applied && x !in state.unresolved)
    && (forall x | x in state.applied :: x in g.migrations)
  }

  lemma CoveringIsAccurate(g: Graph, state: RegistryState, a: seq<Line>, p: seq<Line>, b: seq<Line>, ia: seq<Id>, ip: seq<Id>, ib: seq<Id>)
    requires Labels(a, ia, IsApplied) && Labels(p, ip, IsPending) && Labels(b, ib, IsBlocked)
    requires Covers(g, state, ia, ip, ib) && state.applied.Keys !! state.unresolved.Keys
    ensures Accurate(g, state, a + p + b)
  {
    DistinctConcat(ia, ip);
    DistinctConcat(ia + ip, ib);
    hide Says, Labels, Distinct;
    forall id | id in state.applied ensures Says(a + p + b, id, IsApplied) {
      LabelledSays(a, p, b, ia, ip, ib, id, IsApplied);
    }
    forall id | id in state.unresolved ensures Says(a + p + b, id, IsBlocked) {
      LabelledSays(a, p, b, ia, ip, ib, id, IsBlocked);
    }
    forall id | id in g.migrations && id !in state.applied && id !in state.unresolved ensures Says(a + p + b, id, IsPending) {
      LabelledSays(a, p, b, ia, ip, ib, id, IsPending);
    }
    LinesAreKnown(g, state, a, p, b, ia, ip, ib);
  }

  lemma LinesAreKnown(g: Graph, state: RegistryState, a: seq<Line>, p: seq<Line>, b: seq<Line>, ia: seq<Id>, ip: seq<Id>, ib: seq<Id>)
    requires Labels(a, ia, IsApplied) && Labels(p, ip, IsPending) && Labels(b, ib, IsBlocked) && Covers(g, state, ia, ip, ib)
    ensures forall i | 0 <= i < |a + p + b| :: (a + p + b)[i].id in g.migrations || (a + p + b)[i].id in state.unresolved
  {
    hide Distinct;
    forall i | 0 <= i < |a + p + b| ensures (a + p + b)[i].id in g.migrations || (a + p + b)[i].id in state.unresolved {
      if i < |a| {
        assert ia[i] in ia;
      } else if i < |a| + |p| {
        assert ip[i - |a|] in ip;
      } else {
        assert ib[i - |a| - |p|] in ib;
      }
    }
  }

  lemma PlanCovers(g: Graph, state: RegistryState)
    requires Valid(g) && MakePlan(g, state.applied).Ok?
    ensures var plan := MakePlan(g, state.applied).value;
      && Covers(g, state, plan.applied, Waiting(state, plan.pending), Ascending(state.unresolved.Keys))
      && (forall id | id in plan.pending :: id in g.migrations && g.migrations[id].manifest.id == id)
      && (forall id | id in plan.applied :: id in g.migrations && id in state.applied)
  {
    hide MakePlan, Filter, Acyclic, Closed;
    var plan := MakePlan(g, state.applied).value;
    PlanIsDeployable(g, state.applied);
    PlanExactly(g, state.applied);
    FilterDistinct(plan.pending, Elements(plan.pending) - state.unresolved.Keys);
  }

  /** A report in its order: what is applied and what is pending as the plan has them, then what is
      blocked in id order. */
  predicate InOrder(g: Graph, state: RegistryState, lines: seq<Line>, ia: seq<Id>, ip: seq<Id>, ib: seq<Id>) {
    && |lines| == |ia| + |ip| + |ib|
    && (forall i | 0 <= i < |ia| :: ia[i] in state.applied && lines[i] == Line(ia[i], IsApplied, state.applied[ia[i]].definition))
    && Describes(g, ip, lines[|ia|..|ia| + |ip|])
    && (forall i | 0 <= i < |ib| :: ib[i] in state.unresolved && lines[|ia| + |ip| + i] == Line(ib[i], IsBlocked, state.unresolved[ib[i]].definition))
  }

  method Report(g: Graph, state: RegistryState) returns (r: Result<seq<Line>, HistoryError>, warned: seq<Id>)
    requires Valid(g)
    ensures warned == Ascending(state.unresolved.Keys)
    ensures r.Ok? <==> MakePlan(g, state.applied).Ok? && Hashable(g, Waiting(state, MakePlan(g, state.applied).value.pending))
    ensures r.Ok? ==> InOrder(g, state, r.value, MakePlan(g, state.applied).value.applied,
      Waiting(state, MakePlan(g, state.applied).value.pending), warned)
    ensures r.Ok? && state.applied.Keys !! state.unresolved.Keys ==> Accurate(g, state, r.value)
  {
    warned := Ascending(state.unresolved.Keys);
    var plan := MakePlan(g, state.applied);
    if plan.Err? {
      return Err(plan.error), warned;
    }
    PlanCovers(g, state);
    hide MakePlan, Valid, Waiting, Accurate, Covers, Labels, Hashable, Describes;
    var applied := AppliedLines(state, plan.value.applied);
    var pending := PendingLines(g, state, plan.value.pending);
    if pending.Err? {
      return pending, warned;
    }
    var blocked := BlockedLines(state, warned);
    if state.applied.Keys !! state.unresolved.Keys {
      CoveringIsAccurate(g, state, applied, pending.value, blocked, plan.value.applied, Waiting(state, plan.value.pending), warned);
    }
    PutTogether(g, state, applied, pending.value, blocked, plan.value.applied, Waiting(state, plan.value.pending), warned);
    return Ok(applied + pending.value + blocked), warned;
  }

  lemma PutTogether(g: Graph, state: RegistryState, a: seq<Line>, p: seq<Line>, b: seq<Line>, ia: seq<Id>, ip: seq<Id>, ib: seq<Id>)
    requires |a| == |ia| && forall i | 0 <= i < |ia| :: ia[i] in state.applied && a[i] == Line(ia[i], IsApplied, state.applied[ia[i]].definition)
    requires Describes(g, ip, p)
    requires |b| == |ib| && forall i | 0 <= i < |ib| :: ib[i] in state.unresolved && b[i] == Line(ib[i], IsBlocked, state.unresolved[ib[i]].definition)
    ensures InOrder(g, state, a + p + b, ia, ip, ib)
  {
    assert (a + p + b)[|ia|..|ia| + |ip|] == p;
  }

  // ----- What a reader of a running database sees -----

  /** Whatever instant it reads at, a status report says of each migration exactly what the history
      says: applied, unresolved, or neither. */
  lemma ReportTellsHistory(w: World, s: Schema, g: Graph, state: RegistryState, lines: seq<Line>)
    requires Reachable(w) && ReadState(TablesOf(w, s)) == Ok(state) && Accurate(g, state, lines)
    ensures state.applied.Keys !! state.unresolved.Keys
    ensures var told := Replay(TablesOf(w, s).log);
      && (forall id :: id in told.applied ==> Says(lines, id, IsApplied))
      && (forall id :: id in told.unresolved ==> Says(lines, id, IsBlocked))
      && (forall id :: id in g.migrations && id !in told.applied && id !in told.unresolved ==> Says(lines, id, IsPending))
  {
    hide Reachable, Says, SoundLog;
    ReachableTables(w, s);
    ReadStateIsExact(TablesOf(w, s));
  }

  /** Once an attempt has been committed, no report shows its migration as plain pending until an
      operator says it did not happen or it is reverted. */
  lemma NeverPlainPending(w: World, s: Schema, g: Graph, state: RegistryState, lines: seq<Line>, k: nat, id: Id)
    requires Reachable(w) && ReadState(TablesOf(w, s)) == Ok(state) && Accurate(g, state, lines) && Says(lines, id, IsPending)
    requires k < |TablesOf(w, s).log| && TablesOf(w, s).log[k].Logged?
    requires TablesOf(w, s).log[k].event.migration == id && TablesOf(w, s).log[k].event.action == Deploy
    requires TablesOf(w, s).log[k].event.outcome == Attempted
    ensures exists i :: k < i < |TablesOf(w, s).log| && Withdraws(TablesOf(w, s).log[i], id)
  {
    hide Reachable, Accurate, SoundLog, ReadState;
    var log := TablesOf(w, s).log;
    ReportTellsHistory(w, s, g, state, lines);
    OneState(lines, id, IsPending, IsApplied);
    OneState(lines, id, IsPending, IsBlocked);
    assert log[..k + 1][..k] == log[..k];
    assert Accounted(Replay(log[..k + 1]), id);
    NeverForgotten(log, k + 1, id);
  }

  lemma OneState(lines: seq<Line>, id: Id, a: State, b: State)
    requires Says(lines, id, a) && a != b
    ensures !Says(lines, id, b)
  {
  }
}
