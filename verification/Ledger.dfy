/** The order in which things became durable in one database: committed event rows, interleaved with
    the effects of user SQL. The effects are not a table; they are what the events claim about. */
module Ledger {
  import opened Collections
  import opened DependencyOrder
  import opened Migrations
  import opened History

  datatype Action = Deploy | Verify | Revert | Baseline | Resolve

  datatype Outcome = Attempted | Succeeded | Failed | Unknown | AssertedApplied | AssertedNotApplied

  /** One row of `events`. `script` stands for the digest of the script that ran. */
  datatype EventRow = EventRow(
    run: RunId,
    sequence: nat,
    migration: Id,
    action: Action,
    outcome: Outcome,
    mode: Mode,
    script: Option<Script>)

  /** `Standalone` is the single statement of a nontransactional migration. */
  datatype Role = DeployScript | RevertScript | VerifyScript | Standalone

  /** One statement of a script taking effect. */
  datatype Effect = Effect(run: RunId, migration: Id, role: Role, statement: nat)

  /** `Sent` marks a nontransactional statement being handed to the server. */
  datatype Entry =
    | Logged(event: EventRow)
    | Sent(run: RunId, migration: Id)
    | Done(effect: Effect)

  type Log = seq<Entry>

  // ----- What the log says -----

  datatype Standing = Standing(applied: set<Id>, unresolved: map<Id, RunId>)

  function Advance(s: Standing, e: Entry): Standing {
    match e
    case Logged(ev) =>
      (match (ev.action, ev.outcome)
      case (Deploy, Attempted) => s.(unresolved := s.unresolved[ev.migration := ev.run])
      case (Deploy, Succeeded) => Standing(s.applied + {ev.migration}, s.unresolved - {ev.migration})
      case (Baseline, Succeeded) => Standing(s.applied + {ev.migration}, s.unresolved - {ev.migration})
      case (Resolve, AssertedApplied) => Standing(s.applied + {ev.migration}, s.unresolved - {ev.migration})
      case (Resolve, AssertedNotApplied) => s.(unresolved := s.unresolved - {ev.migration})
      case (Revert, Succeeded) => s.(applied := s.applied - {ev.migration})
      case _ => s)
    case _ => s
  }

  /** Replays a log from an empty database: what is applied, and which attempts nobody has resolved
      and who made them. */
  function Replay(log: Log): Standing {
    if log == [] then Standing({}, map[]) else Advance(Replay(log[..|log| - 1]), Last(log))
  }

  /** What may happen next in a well-run database. */
  predicate Permitted(log: Log, e: Entry) {
    var s := Replay(log);
    match e
    case Logged(ev) =>
      (match (ev.action, ev.outcome)
       case (Deploy, Attempted) => ev.mode == Forbidden && s.unresolved == map[] && ev.migration !in s.applied
       case (Deploy, Succeeded) =>
         if ev.mode == Forbidden then
           && ev.migration in s.unresolved && s.unresolved[ev.migration] == ev.run
           && Landed(log, ev.run, ev.migration)
         else
           s.unresolved == map[] && ev.migration !in s.applied && ev.script.Some?
       case (Baseline, Succeeded) => s.unresolved == map[] && ev.migration !in s.applied
       case (Resolve, AssertedApplied) => ev.migration in s.unresolved && ev.migration !in s.applied
       case (Resolve, AssertedNotApplied) => ev.migration in s.unresolved
       case (Revert, Succeeded) => s.unresolved == map[] && ev.migration in s.applied && ev.script.Some?
       case _ => true)
    case Sent(run, id) => id in s.unresolved && s.unresolved[id] == run && !WasSent(log, run, id)
    case Done(f) => f.role == Standalone ==> f.statement == 0 && WasSent(log, f.run, f.migration) && !Landed(log, f.run, f.migration)
  }

  predicate WasSent(log: Log, run: RunId, id: Id) {
    Sent(run, id) in log
  }

  predicate Landed(log: Log, run: RunId, id: Id) {
    Done(Effect(run, id, Standalone, 0)) in log
  }

  /** Every entry was permitted when it was written. */
  predicate Legal(log: Log) {
    log == [] || (Legal(log[..|log| - 1]) && Permitted(log[..|log| - 1], Last(log)))
  }

  // ----- Sequence numbers -----

  predicate Below(log: Log, run: RunId, bound: int) {
    forall e | e in log :: e.Logged? && e.event.run == run ==> e.event.sequence < bound
  }

  predicate SequencesIncrease(log: Log) {
    log == [] ||
    (&& SequencesIncrease(log[..|log| - 1])
     && (Last(log).Logged? ==> Below(log[..|log| - 1], Last(log).event.run, Last(log).event.sequence)))
  }

  // ----- Promised and durable effects -----

  function ScriptEffects(run: RunId, id: Id, role: Role, script: Option<Script>): seq<Effect> {
    if script.None? || script.value.parsed.None? then
      []
    else
      seq(|script.value.parsed.value.statements|, i requires 0 <= i => Effect(run, id, role, i))
  }

  /** The effects an event claims to have committed with. */
  function Claimed(e: Entry): seq<Effect> {
    match e
    case Logged(ev) =>
      if ev.action == Deploy && ev.outcome == Succeeded && ev.mode == Required then
        ScriptEffects(ev.run, ev.migration, DeployScript, ev.script)
      else if ev.action == Revert && ev.outcome == Succeeded then
        ScriptEffects(ev.run, ev.migration, RevertScript, ev.script)
      else
        []
    case _ => []
  }

  function Promised(log: Log): seq<Effect> {
    if log == [] then [] else Promised(log[..|log| - 1]) + Claimed(Last(log))
  }

  /** The transactional effects that really became durable, in order. */
  function Durable(log: Log): seq<Effect> {
    if log == [] then []
    else Durable(log[..|log| - 1]) + if Last(log).Done? && Last(log).effect.role != Standalone then [Last(log).effect] else []
  }

  /** What holds of the log of every reachable database. */
  predicate SoundLog(log: Log) {
    Legal(log) && SequencesIncrease(log) && Promised(log) == Durable(log)
  }

  // ----- Appending -----

  lemma ReplayAppend(log: Log, e: Entry)
    ensures Replay(log + [e]) == Advance(Replay(log), e)
    ensures Legal(log + [e]) <==> Legal(log) && Permitted(log, e)
    ensures Promised(log + [e]) == Promised(log) + Claimed(e)
    ensures Durable(log + [e]) == Durable(log) + if e.Done? && e.effect.role != Standalone then [e.effect] else []
    ensures SequencesIncrease(log + [e]) <==>
            SequencesIncrease(log) && (e.Logged? ==> Below(log, e.event.run, e.event.sequence))
  {
    assert (log + [e])[..|log|] == log;
  }

  function AsDone(effects: seq<Effect>): Log {
    if effects == [] then [] else AsDone(effects[..|effects| - 1]) + [Done(Last(effects))]
  }

  /** The effects of a script in a transaction change no standing and break no rule. */
  lemma {:induction false} EffectsAppend(log: Log, effects: seq<Effect>)
    requires forall f | f in effects :: f.role != Standalone
    ensures var after := log + AsDone(effects);
      && Replay(after) == Replay(log)
      && (Legal(after) <==> Legal(log))
      && (SequencesIncrease(after) <==> SequencesIncrease(log))
      && Promised(after) == Promised(log)
      && Durable(after) == Durable(log) + effects
    ensures forall e | e in AsDone(effects) :: e.Done? && e.effect.role != Standalone
  {
    if effects == [] {
      assert log + AsDone(effects) == log;
    } else {
      var front, last := effects[..|effects| - 1], Last(effects);
      assert effects == front + [last];
      EffectsAppend(log, front);
      assert log + AsDone(effects) == (log + AsDone(front)) + [Done(last)];
      ReplayAppend(log + AsDone(front), Done(last));
      assert Durable(log) + front + [last] == Durable(log) + effects;
    }
  }

  /** An entry that is permitted and claims no transactional effect keeps the log sound. */
  lemma EntryAppends(log: Log, e: Entry)
    requires SoundLog(log) && Permitted(log, e) && Claimed(e) == [] && !(e.Done? && e.effect.role != Standalone)
    requires e.Logged? ==> Below(log, e.event.run, e.event.sequence)
    ensures SoundLog(log + [e]) && Replay(log + [e]) == Advance(Replay(log), e)
  {
    hide Permitted, Claimed, Below;
    ReplayAppend(log, e);
    EmptyConcat(Promised(log));
    EmptyConcat(Durable(log));
  }

  // ----- What a legal log tells a reader -----

  /** Every effect of a nontransactional statement was preceded by the statement being sent, and that
      by the committed record of the attempt, by the same run. */
  lemma {:induction false} WriteAhead(log: Log, k: nat)
    requires Legal(log) && k < |log| && log[k].Done? && log[k].effect.role == Standalone
    ensures exists i, j :: 0 <= i < j < k && IsAttempt(log[i], log[k].effect.run, log[k].effect.migration)
                           && log[j] == Sent(log[k].effect.run, log[k].effect.migration)
  {
    LegalPrefix(log, k + 1);
    assert log[..k + 1][..k] == log[..k];
    var f := log[k].effect;
    var j :| 0 <= j < |log[..k]| && log[..k][j] == Sent(f.run, f.migration);
    SentAfterAttempt(log, j);
    var i :| 0 <= i < j && IsAttempt(log[i], f.run, f.migration);
    assert log[j] == Sent(f.run, f.migration);
  }

  predicate IsAttempt(e: Entry, run: RunId, id: Id) {
    e.Logged? && e.event.run == run && e.event.migration == id && e.event.action == Deploy && e.event.outcome == Attempted
  }

  predicate Resolves(e: Entry, id: Id) {
    && e.Logged? && e.event.migration == id
    && ((e.event.action in {Deploy, Baseline} && e.event.outcome == Succeeded)
        || (e.event.action == Resolve && e.event.outcome in {AssertedApplied, AssertedNotApplied}))
  }

  lemma {:induction false} LegalPrefix(log: Log, k: nat)
    requires Legal(log) && k <= |log|
    ensures Legal(log[..k])
    decreases |log|
  {
    if k == |log| {
      assert log[..k] == log;
    } else {
      LegalPrefix(log[..|log| - 1], k);
      assert log[..|log| - 1][..k] == log[..k];
    }
  }

  /** An unresolved attempt has its attempt event, and nothing after it resolves it. */
  lemma {:induction false} UnresolvedSince(log: Log, id: Id) returns (i: nat)
    requires id in Replay(log).unresolved
    ensures i < |log| && IsAttempt(log[i], Replay(log).unresolved[id], id)
    ensures forall k | i < k < |log| :: !Resolves(log[k], id)
  {
    var n := |log| - 1;
    var front := log[..n];
    if IsAttempt(log[n], Replay(log).unresolved[id], id) {
      i := n;
    } else {
      assert id in Replay(front).unresolved && Replay(front).unresolved[id] == Replay(log).unresolved[id];
      i := UnresolvedSince(front, id);
      assert !Resolves(log[n], id);
      forall k | i < k < |log| ensures !Resolves(log[k], id) {
        if k < n {
          assert front[k] == log[k];
        }
      }
    }
  }

  lemma SentAfterAttempt(log: Log, j: nat)
    requires Legal(log) && j < |log| && log[j].Sent?
    ensures exists i :: 0 <= i < j && IsAttempt(log[i], log[j].run, log[j].migration)
                        && forall k | i < k < j :: !Resolves(log[k], log[j].migration)
  {
    LegalPrefix(log, j + 1);
    assert log[..j + 1][..j] == log[..j];
    var i := UnresolvedSince(log[..j], log[j].migration);
    assert IsAttempt(log[i], log[j].run, log[j].migration);
    forall k | i < k < j ensures !Resolves(log[k], log[j].migration) {
      assert log[..j][k] == log[k];
    }
  }

  lemma {:induction false} SequencesPrefix(log: Log, k: nat)
    requires SequencesIncrease(log) && k <= |log|
    ensures SequencesIncrease(log[..k])
    decreases |log|
  {
    if k == |log| {
      assert log[..k] == log;
    } else {
      SequencesPrefix(log[..|log| - 1], k);
      assert log[..|log| - 1][..k] == log[..k];
    }
  }

  /** Within a run, event numbers grow in the order the events were committed; the key of `events`
      never collides. */
  lemma EventsAreOrdered(log: Log, i: nat, j: nat)
    requires SequencesIncrease(log) && i < j < |log| && log[i].Logged? && log[j].Logged?
    requires log[i].event.run == log[j].event.run
    ensures log[i].event.sequence < log[j].event.sequence
  {
    SequencesPrefix(log, j + 1);
    assert log[..j + 1][..j] == log[..j] && Last(log[..j + 1]) == log[j];
    assert log[i] in log[..j];
  }

  /** Says that the effect is not there: the only ways a migration stops being accounted for. */
  predicate Withdraws(e: Entry, id: Id) {
    && e.Logged? && e.event.migration == id
    && ((e.event.action == Resolve && e.event.outcome == AssertedNotApplied) || (e.event.action == Revert && e.event.outcome == Succeeded))
  }

  predicate Accounted(s: Standing, id: Id) {
    id in s.applied || id in s.unresolved
  }

  /** Once an attempt is committed, its migration stays applied or unresolved until an operator says
      it did not happen or it is reverted. */
  lemma {:induction false} NeverForgotten(log: Log, k: nat, id: Id)
    requires k <= |log| && Accounted(Replay(log[..k]), id) && !Accounted(Replay(log), id)
    ensures exists i :: k <= i < |log| && Withdraws(log[i], id)
    decreases |log|
  {
    assert log[..|log|] == log;
    if k < |log| {
      var n := |log| - 1;
      var front := log[..n];
      assert front[..k] == log[..k];
      if Accounted(Replay(front), id) {
        assert Withdraws(log[n], id);
      } else {
        NeverForgotten(front, k, id);
        var i :| k <= i < n && Withdraws(front[i], id);
        assert Withdraws(log[i], id);
      }
    }
  }

  /** While nothing resolves it, an attempt stays unresolved, and whose it is does not change. */
  lemma {:induction false} StaysUnresolved(log: Log, k: nat, id: Id)
    requires Legal(log) && k <= |log| && id in Replay(log[..k]).unresolved
    requires forall i | k <= i < |log| :: !Resolves(log[i], id)
    ensures id in Replay(log).unresolved && Replay(log).unresolved[id] == Replay(log[..k]).unresolved[id]
    decreases |log|
  {
    if k == |log| {
      assert log[..k] == log;
    } else {
      var n := |log| - 1;
      assert log[..n][..k] == log[..k];
      forall i | k <= i < n ensures !Resolves(log[..n][i], id) {
        assert log[..n][i] == log[i];
      }
      StaysUnresolved(log[..n], k, id);
      assert !Resolves(log[n], id);
    }
  }

  /** A statement is never sent again while its earlier attempt is unresolved, by any run. */
  lemma SentOnce(log: Log, i: nat, j: nat)
    requires Legal(log) && i < j < |log| && log[i].Sent? && log[j].Sent? && log[i].migration == log[j].migration
    ensures exists k :: i < k < j && Resolves(log[k], log[i].migration)
  {
    var id := log[i].migration;
    LegalPrefix(log, i + 1);
    LegalPrefix(log, j + 1);
    assert log[..i + 1][..i] == log[..i] && Last(log[..i + 1]) == log[i];
    assert log[..j + 1][..j] == log[..j] && Last(log[..j + 1]) == log[j];
    assert log[..j][..i] == log[..i] && log[..j][i] == log[i];
    if forall k | i < k < j :: !Resolves(log[k], id) {
      forall k | i <= k < j ensures !Resolves(log[..j][k], id) {
        assert log[..j][k] == log[k];
      }
      StaysUnresolved(log[..j], i, id);
      assert false;
    }
  }
}
