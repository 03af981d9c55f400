/** The moves that write: upgrades, transactions, nontransactional statements and single events. */
module ProtocolWrites {
  import opened Collections
  import opened DependencyOrder
  import opened Migrations
  import opened Lint
  import opened Graphs
  import opened History
  import opened Ledger
  import opened Registry
  import opened Rehash
  import opened Transactions
  import opened Protocol
  import opened ProtocolInvariant
  import opened ProtocolSteps
  import opened ProtocolSafety

  // ----- Claiming and upgrading -----

  lemma UpgradeCommon(t: Tables, r: RunId, run: Run, pc: Pc)
    requires Common(t, r, run) && run.pc.Unclaimed? && (Early(pc) || pc == Ending)
    ensures Common(Upgraded(t, run.project), r, run.(pc := pc))
  {
    hide Valid, DeployPasses;
  }

  lemma UpgradeGrows(t: Tables, r: RunId, run: Run, state: RegistryState)
    requires ReadState(t) == Ok(state) && CheckProject(state, run.project).Ok?
    ensures Grows(t, Upgraded(t, run.project), r)
  {
  }

  lemma UpgradeKeeps(w: World, r: RunId, seen: bool)
    requires Inv(w) && r in w.runs && w.runs[r].pc.Unclaimed?
    ensures var t, was := TablesOf(w, w.runs[r].schema), w.runs[r];
      var after := Transact(t, UpgradeWrites(was.pc.state, was.project));
      && after.Some?
      && Inv(Replace(w, r, was.(pc := if seen then Raised(was.pc.state) else Ending), after.value))
  {
    hide Inv, MayClaim, Common, Sound, SoleClaim, LocksAccounted, Grows, ReadState, CheckProject;
    var was := w.runs[r];
    var state := was.pc.state;
    var t := TablesOf(w, was.schema);
    var run := was.(pc := if seen then Raised(state) else Ending);
    var after := Upgraded(t, was.project);
    Here(w, r);
    UpgradeKeepsSound(t, state, was.project);
    ReadStateIsExact(t);
    UpgradeGrows(t, r, was, state);
    UpgradeCommon(t, r, was, run.pc);
    KnowsFold(after, r, run);
    LocksKept(w.locks, w.runs, r, run);
    Writes(w, r, run, after);
  }

  // ----- Transactions -----

  /** The conditions that every write by a run that owns the registry meets. */
  lemma OwnerWrites(w: World, r: RunId, run: Run, after: Tables)
    requires Inv(w) && r in w.runs && SameRun(w.runs[r], run) && Deploys(w.runs[r].pc) && Deploys(run.pc)
    requires !Claims(w.runs[r].pc) && !Claims(run.pc) && w.runs[r].pc != Ending
    requires TablesOf(w, run.schema).meta.Some?
    requires Sound(after) && Grows(TablesOf(w, run.schema), after, r) && View(after, r, run)
    requires after.meta.Some? && after.meta.value.project == run.project
    ensures Inv(Replace(w, r, run, after))
  {
    hide Inv, View, Sound, SoleClaim, LocksAccounted, Grows;
    Here(w, r);
    LocksKept(w.locks, w.runs, r, run);
    Writes(w, r, run, after);
  }

  lemma FailedKeeps(w: World, r: RunId, burned: nat)
    requires Inv(w) && r in w.runs && Transacts(w.runs[r].pc)
    ensures var was := w.runs[r];
      Inv(Replace(w, r, was.(sequence := was.sequence + burned, pc := AfterFailure(was)), TablesOf(w, was.schema)))
  {
    hide Inv, Common, Knows, View, Sound, SoleClaim, LocksAccounted, AfterFailure;
    var was := w.runs[r];
    var t := TablesOf(w, was.schema);
    var run := was.(sequence := was.sequence + burned, pc := AfterFailure(was));
    Here(w, r);
    ViewFold(t, r, was);
    FailureIsHarmless(t, r, was, burned);
    AfterIsLater(was);
    OwnerWrites(w, r, run, t);
  }

  lemma AfterIsLater(run: Run)
    requires Transacts(run.pc)
    ensures Deploys(AfterFailure(run)) && Deploys(AfterCommit(run))
    ensures !Claims(run.pc) && !Claims(AfterFailure(run)) && !Claims(AfterCommit(run)) && run.pc != Ending
    ensures Deploys(run.pc)
  {
  }

  lemma ViewFold(t: Tables, r: RunId, run: Run)
    requires Common(t, r, run) && Knows(t, r, run)
    ensures View(t, r, run)
  {
    hide Common, Knows;
  }

  lemma CommittedKeeps(w: World, r: RunId, seen: bool)
    requires Inv(w) && r in w.runs && Transacts(w.runs[r].pc) && Body(r, w.runs[r]).Some?
    requires RunPrivately(TablesOf(w, w.runs[r].schema), Body(r, w.runs[r]).value).Some?
    ensures var was := w.runs[r];
      Inv(Replace(w, r, After(was, if seen then AfterCommit(was) else AfterFailure(was)),
        RunPrivately(TablesOf(w, was.schema), Body(r, was).value).value))
  {
    hide Inv, Common, Knows, View, Sound, SoleClaim, LocksAccounted, Grows, AfterFailure, AfterCommit, Body,
      RunPrivately;
    var was := w.runs[r];
    var t := TablesOf(w, was.schema);
    Here(w, r);
    BodyCommits(t, r, was);
    ViewFold(t, r, was);
    FailureIsHarmless(t, r, was, 0);
    AfterIsLater(was);
    OwnerWrites(w, r, After(was, if seen then AfterCommit(was) else AfterFailure(was)), RunPrivately(t, Body(r, was).value).value);
  }

  /** However much of a transaction is exchanged before the session dies, and whether or not the run
      learns of the commit. */
  lemma ExchangeKeeps(w: World, r: RunId, commands: nat, burned: nat, seen: bool, next: World)
    requires Inv(w) && r in w.runs && Act(w, Exchange(r, commands, burned, seen), r, w.runs[r]) == Some(next)
    ensures Inv(next)
  {
    hide Inv, RunPrivately, Survives, AfterFailure, AfterCommit, Body, Transact, Registries, Landed, MayClaim,
      ReadState;
    var was := w.runs[r];
    var t := TablesOf(w, was.schema);
    if Body(r, was).None? {
      UnstartedKeeps(w, r);
    } else {
      var body := Body(r, was).value;
      BodyIsPrivate(w, r);
      AllOrNothing(t, body, commands);
      if commands == |body| + 2 && RunPrivately(t, body).Some? {
        CommittedKeeps(w, r, seen);
      } else {
        FailedKeeps(w, r, burned);
      }
    }
  }

  lemma BodyIsPrivate(w: World, r: RunId)
    requires Inv(w) && r in w.runs && Transacts(w.runs[r].pc) && Body(r, w.runs[r]).Some?
    ensures forall c | c in Body(r, w.runs[r]).value :: Private(c)
  {
    hide Inv, Common, Knows, View, Sound, SoleClaim, LocksAccounted, Body, Commits, RunPrivately;
    Here(w, r);
    BodyCommits(TablesOf(w, w.runs[r].schema), r, w.runs[r]);
  }

  lemma UnstartedKeeps(w: World, r: RunId)
    requires Inv(w) && r in w.runs && Transacts(w.runs[r].pc)
    ensures Inv(Put(w, r, w.runs[r].(pc := AfterFailure(w.runs[r]))))
  {
    hide Inv, Common, Knows, View, Sound, SoleClaim, LocksAccounted, AfterFailure;
    var was := w.runs[r];
    var run := was.(pc := AfterFailure(was));
    var t := TablesOf(w, was.schema);
    Here(w, r);
    assert View(t, r, run) by {
      ViewFold(t, r, was);
      FailureIsHarmless(t, r, was, 0);
      assert was.(sequence := was.sequence + 0, pc := AfterFailure(was)) == run;
    }
    AfterIsLater(was);
    NotClaiming(w, run);
    Advances(w, r, run);
  }

  // ----- Nontransactional statements -----

  lemma SentView(t: Tables, r: RunId, run: Run, id: Id, rest: seq<Id>)
    requires Common(t, r, run) && run.pc == Sending(id, rest) && Attempting(t, r, run, id, rest)
    ensures Common(WithSent(t, r, id), r, run.(pc := Waiting(id, rest)))
    ensures Attempting(WithSent(t, r, id), r, run.(pc := Waiting(id, rest)), id, rest)
    ensures WasSent(WithSent(t, r, id).log, r, id) && Grows(t, WithSent(t, r, id), r)
  {
    hide Valid, DeployPasses;
    assert Last(WithSent(t, r, id).log) == Sent(r, id);
  }

  lemma AttemptIsOne(t: Tables, r: RunId, run: Run, id: Id, rest: seq<Id>)
    requires Admitted(run) && Attempting(t, r, run, id, rest)
    ensures id in t.attempts && t.attempts[id].run == r && t.meta.Some? && t.meta.value.project == run.project
    ensures id in run.graph.migrations && !Discards(run.graph.migrations[id].deploy)
  {
    hide Deployable, AllUntouched;
    assert run.graph.migrations[id].manifest.id == id;
  }

  lemma FlightJoins(w: World, f: Flight)
    requires Inv(w) && Tracked(w, f)
    ensures Inv(w.(inFlight := w.inFlight + {f}))
  {
    hide View, LocksAccounted, Sound;
    var next := w.(inFlight := w.inFlight + {f});
    assert forall s: Schema :: TablesOf(next, s) == TablesOf(w, s);
    forall g | g in next.inFlight ensures Tracked(next, g) {
      TrackedStays(w, next, g);
    }
  }

  lemma SendKeeps(w: World, r: RunId)
    requires Inv(w) && r in w.runs && w.runs[r].pc.Sending?
    ensures var was := w.runs[r];
      var id := was.pc.id;
      Inv(Replace(w, r, was.(pc := Waiting(id, was.pc.rest)), WithSent(TablesOf(w, was.schema), r, id))
            .(inFlight := w.inFlight + {Flight(was.schema, r, id)}))
  {
    hide Inv, Common, Sound, SoleClaim, LocksAccounted, Grows, Attempting, Discards;
    var was := w.runs[r];
    var Sending(id, rest) := was.pc;
    var t := TablesOf(w, was.schema);
    var run := was.(pc := Waiting(id, rest));
    var after := WithSent(t, r, id);
    Here(w, r);
    CommonAdmits(t, r, was);
    AttemptIsOne(t, r, was, id, rest);
    SendKeepsSound(t, r, id);
    SentView(t, r, was, id, rest);
    KnowsFold(after, r, run);
    OwnerWrites(w, r, run, after);
    FlightJoins(Replace(w, r, run, after), Flight(was.schema, r, id));
  }

  /** The statement takes effect, however long after its client is gone. */
  lemma LandKeeps(w: World, f: Flight)
    requires Inv(w) && f in w.inFlight
    ensures !DropsSession(w, f)
    ensures Inv(w.(inFlight := w.inFlight - {f}, schemas := w.schemas[f.schema := WithLanded(TablesOf(w, f.schema), f.run, f.id)]))
  {
    hide View, LocksAccounted, Sound, DropsSession, SoleClaim;
    assert Tracked(w, f);
    var t := TablesOf(w, f.schema);
    var after := WithLanded(t, f.run, f.id);
    var next := w.(inFlight := w.inFlight - {f}, schemas := w.schemas[f.schema := after]);
    assert Sound(t);
    LandKeepsSound(t, f.run, f.id);
    assert TablesOf(next, f.schema) == after;
    assert forall s: Schema | s != f.schema :: TablesOf(next, s) == TablesOf(w, s);
    assert Registered(next) by {
      forall s: Schema ensures Sound(TablesOf(next, s)) {
        assert Sound(TablesOf(w, s));
      }
    }
    forall q | q in next.runs ensures View(TablesOf(next, next.runs[q].schema), q, next.runs[q]) && SoleClaim(next, next.runs[q]) {
      assert View(TablesOf(w, w.runs[q].schema), q, w.runs[q]) && SoleClaim(w, w.runs[q]);
      if w.runs[q].schema == f.schema {
        ViewSurvivesLanding(t, q, w.runs[q], f.run, f.id);
      }
      SoleClaimSurvives(w, next, w.runs[q]);
    }
    forall g | g in next.inFlight ensures Tracked(next, g) {
      OtherFlights(w, f, g);
    }
  }

  lemma SoleClaimSurvives(w: World, next: World, run: Run)
    requires SoleClaim(w, run) && forall s: Schema | TablesOf(next, s).meta.Some? :: TablesOf(w, s).meta.Some?
    ensures SoleClaim(next, run)
  {
  }

  lemma OtherFlights(w: World, f: Flight, g: Flight)
    requires Tracked(w, f) && Tracked(w, g) && g != f
    ensures Tracked(w.(inFlight := w.inFlight - {f}, schemas := w.schemas[f.schema := WithLanded(TablesOf(w, f.schema), f.run, f.id)]), g)
  {
    hide Discards;
  }

  lemma VanishKeeps(w: World, f: Flight)
    requires Inv(w)
    ensures Inv(w.(inFlight := w.inFlight - {f}))
  {
    hide View, LocksAccounted, Sound, DropsSession;
    var next := w.(inFlight := w.inFlight - {f});
    assert forall s: Schema :: TablesOf(next, s) == TablesOf(w, s);
    forall g | g in next.inFlight ensures Tracked(next, g) {
      TrackedStays(w, next, g);
    }
  }

  lemma HearKeeps(w: World, r: RunId, pc: Pc)
    requires Inv(w) && r in w.runs && w.runs[r].pc.Waiting?
    requires (pc == Finishing(w.runs[r].pc.id, w.runs[r].pc.rest) && Landed(TablesOf(w, w.runs[r].schema).log, r, w.runs[r].pc.id))
          || (pc.Reporting? && pc.notice.outcome in {Failed, Unknown})
    ensures Inv(Put(w, r, w.runs[r].(pc := pc)))
  {
    hide Inv, Common, Sound, SoleClaim, LocksAccounted, Untouched, Deployable, AllUntouched, OwnAttempt;
    var was := w.runs[r];
    var t := TablesOf(w, was.schema);
    var run := was.(pc := pc);
    Here(w, r);
    assert Attempting(t, r, run, was.pc.id, was.pc.rest);
    CommonMoves(t, r, was, pc);
    KnowsFold(t, r, run);
    NotClaiming(w, run);
    Advances(w, r, run);
  }

  // ----- Events that only describe -----

  lemma DescribedView(t: Tables, r: RunId, run: Run, pc: Pc, ev: EventRow)
    requires Common(t, r, run) && !Early(pc) && run.pc != Ending && run.pc != Ended
    requires ev.run == r && ev.sequence == run.sequence + 1
    ensures var later := run.(sequence := run.sequence + 1, pc := pc);
      Common(t, r, later) && Common(WithEvent(t, ev), r, later)
    ensures Grows(t, WithEvent(t, ev), r) && Grows(t, t, r)
  {
    hide Valid, DeployPasses;
  }

  lemma ReportKeeps(w: World, r: RunId, written: bool)
    requires Inv(w) && r in w.runs && w.runs[r].pc.Reporting?
    ensures var was, t := w.runs[r], TablesOf(w, w.runs[r].schema);
      Inv(Replace(w, r, was.(sequence := was.sequence + 1, pc := Ending),
        if written then WithEvent(t, EventFrom(r, was.sequence + 1, was.pc.notice)) else t))
  {
    hide Inv, Common, Sound, SoleClaim, LocksAccounted, Grows;
    var was, t := w.runs[r], TablesOf(w, w.runs[r].schema);
    var ev := EventFrom(r, was.sequence + 1, was.pc.notice);
    var run := was.(sequence := was.sequence + 1, pc := Ending);
    var after := if written then WithEvent(t, ev) else t;
    Here(w, r);
    CommonMeans(t, r, was);
    DescriptiveKeepsSound(t, ev);
    DescribedView(t, r, was, Ending, ev);
    KnowsFold(after, r, run);
    OwnerWrites(w, r, run, after);
  }

  lemma VerifiedProceeds(t: Tables, r: RunId, run: Run, later: Run, rest: seq<Id>, ev: EventRow)
    requires Proceeding(t, r, run, rest) && SameRun(run, later)
    ensures Proceeding(t, r, later, rest) && Proceeding(WithEvent(t, ev), r, later, rest)
  {
    hide Deployable;
  }

  lemma VerifyKeeps(w: World, r: RunId, passed: bool, written: bool, script: Script)
    requires Inv(w) && r in w.runs && w.runs[r].pc.Verifying?
    ensures var was, t := w.runs[r], TablesOf(w, w.runs[r].schema);
      var ev := EventRow(r, was.sequence + 1, was.pc.id, Action.Verify, if passed then Succeeded else Failed, Required, Some(script));
      Inv(Replace(w, r, was.(sequence := was.sequence + 1, pc := if passed && written then Deploying(was.pc.rest) else Ending),
        if written then WithEvent(t, ev) else t))
  {
    hide Inv, Common, Sound, SoleClaim, LocksAccounted, Grows, Proceeding;
    var was, t := w.runs[r], TablesOf(w, w.runs[r].schema);
    var ev := EventRow(r, was.sequence + 1, was.pc.id, Action.Verify, if passed then Succeeded else Failed, Required, Some(script));
    var pc := if passed && written then Deploying(was.pc.rest) else Ending;
    var run := was.(sequence := was.sequence + 1, pc := pc);
    var after := if written then WithEvent(t, ev) else t;
    Here(w, r);
    CommonMeans(t, r, was);
    assert t.meta.Some? && t.meta.value.project == was.project by { ProceedingOwns(t, r, was, was.pc.rest); }
    DescriptiveKeepsSound(t, ev);
    DescribedView(t, r, was, pc, ev);
    VerifiedProceeds(t, r, was, run, was.pc.rest, ev);
    KnowsFold(after, r, run);
    OwnerWrites(w, r, run, after);
  }

  lemma ProceedingOwns(t: Tables, r: RunId, run: Run, rest: seq<Id>)
    requires Proceeding(t, r, run, rest)
    ensures t.meta.Some? && t.meta.value.project == run.project
  {
  }

  /** A verification that is passed over. */
  lemma SkipKeeps(w: World, r: RunId)
    requires Inv(w) && r in w.runs && w.runs[r].pc.Verifying?
    ensures Inv(Put(w, r, w.runs[r].(pc := Deploying(w.runs[r].pc.rest))))
  {
    hide Inv, Common, Sound, SoleClaim, LocksAccounted, Proceeding;
    var was, t := w.runs[r], TablesOf(w, w.runs[r].schema);
    var run := was.(pc := Deploying(was.pc.rest));
    Here(w, r);
    CommonMoves(t, r, was, run.pc);
    VerifiedProceeds(t, r, was, run, was.pc.rest, EventRow(r, 0, 0, Action.Verify, Failed, Required, None));
    KnowsFold(t, r, run);
    NotClaiming(w, run);
    Advances(w, r, run);
  }

  // ----- Starting -----

  lemma FreshCommon(w: World, r: RunId, run: Run)
    requires Unused(w, r) && run.pc == Opened && run.sequence == 0 && Admitted(run)
    ensures View(TablesOf(w, run.schema), r, run)
  {
    hide Admitted;
    var t := TablesOf(w, run.schema);
    forall id: Id ensures Untouched(t.log, r, id) {
      assert RunOf(Sent(r, id)) == r && RunOf(Done(Effect(r, id, Standalone, 0))) == r;
    }
  }

  lemma StartKeeps(w: World, r: RunId, run: Run)
    requires Inv(w) && Unused(w, r) && run.pc == Opened && run.sequence == 0 && Admitted(run)
    ensures Inv(Put(w, r, run))
  {
    hide View, Sound, DropsSession, SoleClaim, Admitted;
    var next := Put(w, r, run);
    FreshCommon(w, r, run);
    NotClaiming(next, run);
    assert forall s: Schema :: TablesOf(next, s) == TablesOf(w, s);
    forall q | q in w.runs ensures SoleClaim(next, w.runs[q]) {
      SoleClaimSurvives(w, next, w.runs[q]);
    }
    forall f | f in next.inFlight ensures Tracked(next, f) {
      StrangerFlight(w, r, f);
      TrackedStays(w, next, f);
    }
    StartAccounted(w, r, run);
  }

  lemma StrangerFlight(w: World, r: RunId, f: Flight)
    requires Unused(w, r) && Tracked(w, f)
    ensures f.run != r
  {
    assert RunOf(Sent(f.run, f.id)) == f.run;
  }

  lemma StartAccounted(w: World, r: RunId, run: Run)
    requires LocksAccounted(w.locks, w.runs) && r !in w.runs && run.pc == Opened
    ensures LocksAccounted(w.locks, w.runs[r := run])
  {
  }
}
