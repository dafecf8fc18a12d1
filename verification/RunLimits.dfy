/**
 What the run protocol does not give, by reachable states of the whole system:
 "terminal events fire exactly once" (RunTheorems has the exact count), "a failed run
 has no result", and "a check before every write stops an execution whose row was
 closed" (RunFences and EvaluationTheorems say exactly when).
 */
module RunLimits {
  import opened Common
  import opened RunTable
  import opened RunProtocol
  import opened RunInvariants
  import opened RunTheorems
  import opened RunFences
  import Ev = Evaluation
  import F = FindingProtocol
  import C = Criteria
  import Comp = CoverageComposer
  import Cov = Coverage
  import CovT = CoverageTheorems
  import J = Judgment

  /** The whole system goes through `w` and then comes to `w'`. */
  ghost predicate Through(w: Ev.World, w': Ev.World) {
    exists states, actions :: Ev.Execution(states, actions) && w in states && states[|actions|] == w'
  }

  /** The runs, before anything was done about findings. */
  function NoFindings(w: World): Ev.World {
    Ev.World(w, F.World(w.now, map[], map[], map[], []))
  }

  ghost predicate Reachable(w: World) {
    Through(NoFindings(w), NoFindings(w))
  }

  lemma ReachInit(w: World)
    requires Init(w)
    ensures Reachable(w)
  {
    assert Ev.Execution([NoFindings(w)], []) && [NoFindings(w)][0] == NoFindings(w);
  }

  lemma ThroughNext(w: Ev.World, w': Ev.World, a: Ev.Action, next: Ev.World)
    requires Through(w, w') && Ev.Enabled(w', a) && next == Ev.Apply(w', a)
    ensures Through(w, next) && Through(next, next)
  {
    var states: seq<Ev.World>, actions: seq<Ev.Action> :|
      Ev.Execution(states, actions) && w in states && states[|actions|] == w';
    var more, further := states + [next], actions + [a];
    forall i | 0 <= i < |further| ensures Ev.Enabled(more[i], further[i]) && more[i + 1] == Ev.Apply(more[i], further[i]) {
      if i < |actions| {
        assert more[i] == states[i] && more[i + 1] == states[i + 1] && further[i] == actions[i];
      } else {
        assert i == |actions|;
      }
    }
    assert Ev.Execution(more, further) && more[|further|] == next;
  }

  /** The next step of the executor enters a finding call or returns from one. */
  predicate OfACall(pc: Pc) {
    pc.FindingsFenced? || pc.Recording? || pc.ResolveFenced?
  }

  predicate NotOfACall(w: World, a: Action) {
    a.Execute? && a.choice.Proceed? && a.run in w.execs ==> !OfACall(w.execs[a.run].pc)
  }

  lemma ReachNext(w: World, a: Action)
    requires Reachable(w) && Enabled(w, a) && NotOfACall(w, a)
    ensures Reachable(Apply(w, a))
  {
    if a.Tick? {
      ThroughNext(NoFindings(w), NoFindings(w), Ev.Tick(a.delta), NoFindings(Apply(w, a)));
    } else {
      Ev.TimeStays(w, a);
      ThroughNext(NoFindings(w), NoFindings(w), Ev.RunStep(a), NoFindings(Apply(w, a)));
    }
  }

  /** A system with one subject and nothing else yet. */
  function Fresh(checks: Checks, timeout: nat, catalog: C.Catalog): World {
    World(0, timeout, checks, catalog, map[0 := "repository"], map[], map[], map[], map[], map[], map[], [])
  }

  ghost predicate ReachableCatalog(checks: Checks, timeout: nat, c: C.Catalog) {
    Reachable(Fresh(checks, timeout, c))
  }

  lemma Administered(checks: Checks, timeout: nat, c: C.Catalog, a: C.Action)
    requires ReachableCatalog(checks, timeout, c) && C.Enabled(c, a)
    ensures ReachableCatalog(checks, timeout, C.Apply(c, a))
  {
    ReachNext(Fresh(checks, timeout, c), Administer(a));
  }

  const ROW: C.CriterionRow := C.CriterionRow(0, "cve", J.ASSERTION, "Known vulnerability")

  predicate Drafted(c: C.Catalog) {
    0 in c.versions && c.versions[0].kind == "repository" && c.versions[0].publishedAt.None? && c.locks == map[] && c.txs == map[]
  }

  lemma DraftReached(checks: Checks, timeout: nat) returns (c: C.Catalog)
    ensures ReachableCatalog(checks, timeout, c) && Drafted(c) && c.criteria == map[] && c.usedIds == {}
  {
    var c0 := C.Catalog(map[], map[], map[], map[], {});
    ReachInit(Fresh(checks, timeout, c0));
    c := C.Apply(c0, C.CreateVersion(0, "repository", "npm", "1"));
    Administered(checks, timeout, c0, C.CreateVersion(0, "repository", "npm", "1"));
  }

  lemma CriterionReached(checks: Checks, timeout: nat) returns (c: C.Catalog)
    ensures ReachableCatalog(checks, timeout, c) && Drafted(c) && c.criteria == map[0 := ROW] && c.usedIds == {0}
  {
    var c1 := DraftReached(checks, timeout);
    var c2 := C.Apply(c1, C.Begin(0, C.Add(ROW)));
    Administered(checks, timeout, c1, C.Begin(0, C.Add(ROW)));
    var c3 := C.Apply(c2, C.Acquire(0));
    Administered(checks, timeout, c2, C.Acquire(0));
    var c4 := C.Apply(c3, C.CheckDraft(0));
    Administered(checks, timeout, c3, C.CheckDraft(0));
    c := C.Apply(c4, C.Commit(0, 0, 0));
    Administered(checks, timeout, c4, C.Commit(0, 0, 0));
  }

  /** A publication has seen the draft. */
  predicate Publishing(c: C.Catalog) {
    && 0 in c.versions && c.versions[0].kind == "repository" && c.versions[0].publishedAt.None? && c.criteria == map[0 := ROW]
    && c.locks == map[0 := 0] && c.txs == map[0 := C.Tx(C.Publish(0), C.SeenDraft(0))] && c.usedIds == {0}
  }

  lemma PublishingReached(checks: Checks, timeout: nat) returns (c: C.Catalog)
    ensures ReachableCatalog(checks, timeout, c) && Publishing(c)
  {
    var c1 := CriterionReached(checks, timeout);
    var c2 := C.Apply(c1, C.Begin(0, C.Publish(0)));
    Administered(checks, timeout, c1, C.Begin(0, C.Publish(0)));
    var c3 := C.Apply(c2, C.Acquire(0));
    Administered(checks, timeout, c2, C.Acquire(0));
    c := C.Apply(c3, C.CheckDraft(0));
    Administered(checks, timeout, c3, C.CheckDraft(0));
  }

  lemma PublishedReached(checks: Checks, timeout: nat) returns (c: C.Catalog)
    ensures ReachableCatalog(checks, timeout, c) && C.Published(c, 0) && c.versions[0].kind == "repository"
    ensures c.criteria == map[0 := ROW]
  {
    var c4 := PublishingReached(checks, timeout);
    var c5 := C.Apply(c4, C.CountCriteria(0));
    assert 0 in C.Rows(c4, 0);
    Administered(checks, timeout, c4, C.CountCriteria(0));
    c := C.Apply(c5, C.Commit(0, 0, 1));
    Administered(checks, timeout, c5, C.Commit(0, 0, 1));
  }

  // ---- One run under an executor that stops heartbeating ----

  /** Run 0 is being executed, its executor stands at `pc`, and nothing has been reported. */
  predicate Working(w: World, pc: Pc) {
    && w.runs.Keys == {0} && w.runs[0].status == Running && w.runs[0].updatedAt <= w.now
    && 0 in w.execs && w.execs[0] == Exec(w.runs[0].startedAt, pc)
    && w.sweeps == map[] && w.log == []
  }

  /** A request stands before its insert. */
  predicate Admitting(w: World) {
    && w.runs == map[] && w.execs == map[] && w.sweeps == map[] && w.log == [] && w.results == map[]
    && w.requests == map[0 := Admitted(0, 0)] && C.Rows(w.catalog, 0) == map[0 := ROW]
  }

  lemma AdmittingReached(checks: Checks, timeout: nat) returns (w: World)
    ensures Reachable(w) && Admitting(w) && w.checks == checks && w.timeout == timeout
  {
    var c := PublishedReached(checks, timeout);
    var w0 := Fresh(checks, timeout, c);
    ReachNext(w0, Handle(0, ReadSubject(0)));
    var w1 := Apply(w0, Handle(0, ReadSubject(0)));
    ReachNext(w1, Handle(0, ReadVersion(0)));
    w := Apply(w1, Handle(0, ReadVersion(0)));
  }

  /** Its run is inserted. */
  predicate InsertedOne(w: World) {
    && w.runs == map[0 := Run(0, 0, Queued, None, None, None, w.now, w.now)] && w.execs == map[] && w.sweeps == map[]
    && w.log == [] && w.results == map[] && w.requests == map[0 := Created(0)] && C.Rows(w.catalog, 0) == map[0 := ROW]
  }

  lemma InsertReached(checks: Checks, timeout: nat) returns (w: World)
    ensures Reachable(w) && InsertedOne(w) && w.checks == checks && w.timeout == timeout
  {
    var w2 := AdmittingReached(checks, timeout);
    ReachNext(w2, Handle(0, Insert(0)));
    w := Apply(w2, Handle(0, Insert(0)));
  }

  lemma ExecutingReached(checks: Checks, timeout: nat) returns (w: World)
    ensures Reachable(w) && Working(w, Collecting) && w.results == map[] && w.checks == checks && w.timeout == timeout
    ensures C.Rows(w.catalog, w.runs[0].version) == map[0 := ROW]
  {
    var w3 := InsertReached(checks, timeout);
    ReachNext(w3, Handle(0, Start));
    var w4 := Apply(w3, Handle(0, Start));
    ReachNext(w4, Handle(0, Open));
    w := Apply(w4, Handle(0, Open));
  }

  function ByTheSweep(): Report {
    Report(Event, BySweep(0), 0, Failed, Some(STALE_RUN_ERROR))
  }

  function ByTheExecutor(): Report {
    Report(Event, ByExecutor, 0, Failed, Some(STALE_RUN_ERROR))
  }

  /** A sweep closed run 0 and published its failure, while the executor stands at `pc`. */
  predicate About(w: World, pc: Pc) {
    && 0 in w.runs && w.runs[0].status == Failed && w.runs[0].error == Some(STALE_RUN_ERROR)
    && 0 in w.execs && w.execs[0].pc == pc && w.log == [ByTheSweep()]
  }

  /** Sweep 0 has begun with a cutoff that run 0 misses. */
  predicate Begun(w: World, pc: Pc) {
    && w.runs.Keys == {0} && w.runs[0].status == Running && 0 in w.execs && w.execs[0].pc == pc && w.log == []
    && 0 in w.sweeps && !w.sweeps[0].selected && w.runs[0].updatedAt < w.sweeps[0].cutoff
    && w.sweeps[0].queue == [] && !w.sweeps[0].published
  }

  /** Nothing but rows, sweeps, executors and the log differs. */
  ghost predicate SameSetting(w: World, w': World) {
    w'.checks == w.checks && w'.timeout == w.timeout && w'.results == w.results && w'.catalog == w.catalog
  }

  lemma BegunReached(w: World, pc: Pc) returns (w': World)
    requires Reachable(w) && Working(w, pc)
    ensures Reachable(w') && Begun(w', pc) && SameSetting(w, w')
  {
    ReachNext(w, Tick(w.timeout + 1));
    var w1 := Apply(w, Tick(w.timeout + 1));
    ReachNext(w1, SweepBy(0, Begin));
    w' := Apply(w1, SweepBy(0, Begin));
  }

  /** The sweep has closed run 0 and has yet to report it. */
  predicate Swept0(w: World, pc: Pc) {
    && 0 in w.runs && w.runs[0].status == Failed && w.runs[0].error == Some(STALE_RUN_ERROR)
    && 0 in w.execs && w.execs[0].pc == pc && w.log == []
    && 0 in w.sweeps && Reporting(w.sweeps[0]) && w.sweeps[0].queue == [0] && !w.sweeps[0].published
  }

  lemma SweptReached(w: World, pc: Pc) returns (w': World)
    requires Reachable(w) && Begun(w, pc)
    ensures Reachable(w') && Swept0(w', pc) && SameSetting(w, w')
  {
    ReachNext(w, SweepBy(0, Select));
    var w1 := Apply(w, SweepBy(0, Select));
    assert w1.sweeps[0].candidates == map[0 := w.runs[0].updatedAt];
    ReachNext(w1, SweepBy(0, Reap(0)));
    w' := Apply(w1, SweepBy(0, Reap(0)));
    assert w'.sweeps[0].candidates == map[];
  }

  lemma ReapedReached(w: World, pc: Pc) returns (w': World)
    requires Reachable(w) && Swept0(w, pc)
    ensures Reachable(w') && About(w', pc) && SameSetting(w, w')
  {
    ReachNext(w, SweepBy(0, Publish));
    w' := Apply(w, SweepBy(0, Publish));
  }

  lemma ExecuteNext(w: World, choice: Choice, pc: Pc, effect: Effect)
    requires Reachable(w) && ExecutorEnabled(w, 0, choice) && Advance(w.execs[0], ViewOf(w, 0), choice) == (pc, effect)
    requires choice.Proceed? ==> !OfACall(w.execs[0].pc)
    ensures Reachable(AfterEffect(w, 0, pc, effect))
  {
    ReachNext(w, Execute(0, choice));
  }

  lemma MovesOn(w: World, choice: Choice, pc: Pc, pc': Pc) returns (w': World)
    requires Reachable(w) && About(w, pc) && Fits(pc, choice) && Advance(w.execs[0], ViewOf(w, 0), choice) == (pc', Nothing)
    requires !OfACall(pc)
    ensures Reachable(w') && About(w', pc') && w'.checks == w.checks && w'.timeout == w.timeout
  {
    ExecuteNext(w, choice, pc', Nothing);
    w' := AfterEffect(w, 0, pc', Nothing);
  }

  /** The executor fails, finds its row closed and rereads it. */
  lemma RereadReached(w: World) returns (w': World)
    requires Reachable(w) && About(w, Collecting)
    ensures Reachable(w') && About(w', Lost(STALE_RUN_ERROR)) && w'.checks == w.checks && w'.timeout == w.timeout
  {
    var w1 := MovesOn(w, Throw("collector failed"), Collecting, Catching("collector failed"));
    var w2 := MovesOn(w1, Proceed, Catching("collector failed"), Superseded("collector failed"));
    w' := MovesOn(w2, Proceed, Superseded("collector failed"), Lost(STALE_RUN_ERROR));
  }

  /** Then it publishes the failure again. */
  lemma RepublishedReached(w: World) returns (w': World)
    requires Reachable(w) && About(w, Lost(STALE_RUN_ERROR))
    ensures Reachable(w') && w'.log == [ByTheSweep(), ByTheExecutor()] && w'.checks == w.checks && w'.timeout == w.timeout
  {
    ExecuteNext(w, Proceed, LostPublished(STALE_RUN_ERROR), Says(Event, Failed, Some(STALE_RUN_ERROR)));
    w' := AfterEffect(w, 0, LostPublished(STALE_RUN_ERROR), Says(Event, Failed, Some(STALE_RUN_ERROR)));
  }

  /** Under any checks and any timeout, one run can have two FAILED events with the same text. */
  lemma FailurePublishedTwice(checks: Checks, timeout: nat)
    ensures exists w :: Reachable(w) && w.checks == checks && w.timeout == timeout && Count(w.log, Event, 0) == 2
                        && forall report :: report in w.log ==> report.status == Failed && report.error == Some(STALE_RUN_ERROR)
  {
    var w1 := ExecutingReached(checks, timeout);
    var w2 := BegunReached(w1, Collecting);
    var w3 := SweptReached(w2, Collecting);
    var w4 := ReapedReached(w3, Collecting);
    var w5 := RereadReached(w4);
    var w6 := RepublishedReached(w5);
    var log := [ByTheSweep(), ByTheExecutor()];
    assert log[..1] == [ByTheSweep()] && [ByTheSweep()][..0] == [];
    assert Count([ByTheSweep()], Event, 0) == 1;
  }

  // ---- A failed run with a result ----

  const NO_EVIDENCE: Comp.Input := Comp.Input([], [], Cov.Bucket(0.0, None, None, None), [])

  /** The checks let a judgment without evidence and without verdicts pass. */
  ghost predicate AllowsNothing(checks: Checks) {
    checks.composes(NO_EVIDENCE) && checks.coverage(NO_EVIDENCE) && forall rows :: checks.verdicts(rows, NO_EVIDENCE, [])
  }

  /** The services' own checks do. */
  lemma ServicesAllowNothing(checks: Checks)
    requires ServiceChecks(checks)
    ensures AllowsNothing(checks)
  {
    assert Comp.Problems(NO_EVIDENCE) == [];
    CovT.ComposedFromValidBucketsAcceptedIff(NO_EVIDENCE);
    forall rows ensures checks.verdicts(rows, NO_EVIDENCE, []) {
      assert J.VerdictsOk(C.KindsIn(rows), [], Some(Comp.IdsOf(NO_EVIDENCE.items)));
    }
  }

  lemma GoesOn(w: World, choice: Choice, pc: Pc, pc': Pc) returns (w': World)
    requires Reachable(w) && Working(w, pc) && Fits(pc, choice) && Advance(w.execs[0], ViewOf(w, 0), choice) == (pc', Nothing)
    requires !OfACall(pc)
    ensures Reachable(w') && Working(w', pc') && SameSetting(w, w') && w'.runs == w.runs
  {
    ExecuteNext(w, choice, pc', Nothing);
    w' := AfterEffect(w, 0, pc', Nothing);
  }

  /** The executor has passed every check and is about to archive. */
  lemma CheckedReached(w: World, draft: Draft) returns (w': World)
    requires Reachable(w) && Working(w, Collecting) && w.results == map[] && AllowsNothing(w.checks)
    requires draft == Draft(ViewOf(w, 0).criteria, NO_EVIDENCE, [], draft.findings)
    ensures Reachable(w') && Working(w', VerdictsChecked(draft)) && SameSetting(w, w')
  {
    var w1 := GoesOn(w, Proceed, Collecting, Judging(draft.judged));
    var w2 := GoesOn(w1, Judgment(NO_EVIDENCE, [], draft.findings), Judging(draft.judged), Composed(draft));
    var w3 := GoesOn(w2, Proceed, Composed(draft), ResultFenced(draft));
    var w4 := GoesOn(w3, Proceed, ResultFenced(draft), ResultChecked(draft));
    w' := GoesOn(w4, Proceed, ResultChecked(draft), VerdictsChecked(draft));
  }

  /** ... and archives. */
  lemma StoredReached(w: World, draft: Draft) returns (w': World)
    requires Reachable(w) && Working(w, VerdictsChecked(draft)) && w.results == map[]
    ensures Reachable(w') && Working(w', ResultStored(draft)) && 0 in w'.results && w'.checks == w.checks
  {
    var result := Archived(draft.input, draft.verdicts);
    ExecuteNext(w, Proceed, ResultStored(draft), Stores(result));
    w' := AfterEffect(w, 0, ResultStored(draft), Stores(result));
  }

  lemma StoredThenFailed(w: World, draft: Draft) returns (w': World)
    requires Reachable(w) && Working(w, VerdictsChecked(draft)) && w.results == map[]
    ensures Reachable(w') && 0 in w'.runs && w'.runs[0].status == Failed && 0 in w'.results && w'.checks == w.checks
  {
    var w1 := StoredReached(w, draft);
    ExecuteNext(w1, Throw("finding store failed"), Catching("finding store failed"), Nothing);
    var w2 := AfterEffect(w1, 0, Catching("finding store failed"), Nothing);
    ExecuteNext(w2, Proceed, Lost("finding store failed"), Fails("finding store failed"));
    w' := AfterEffect(w2, 0, Lost("finding store failed"), Fails("finding store failed"));
  }

  /** Under the services' checks a run can fail after its result was archived, and then has both. */
  lemma FailedRunKeepsItsResult(checks: Checks, timeout: nat)
    requires ServiceChecks(checks)
    ensures exists w, id :: Reachable(w) && w.checks == checks && id in w.runs && w.runs[id].status == Failed && id in w.results
  {
    ServicesAllowNothing(checks);
    var w1 := ExecutingReached(checks, timeout);
    var draft := Draft(ViewOf(w1, 0).criteria, NO_EVIDENCE, [], []);
    var w2 := CheckedReached(w1, draft);
    var w3 := StoredThenFailed(w2, draft);
  }

  /** The next step archives a result for a run that has failed already. */
  ghost predicate ArchivesForFailed(w: World, a: Action, id: Id) {
    Enabled(w, a) && Archives(w, a, id) && id in w.runs && w.runs[id].status == Failed && id !in w.results
  }

  /** Under the services' checks a sweep can close the row between the last check and the archiving of the result. */
  lemma ResultArchivedAfterFailure(checks: Checks, timeout: nat)
    requires ServiceChecks(checks)
    ensures exists w, a, id :: Reachable(w) && w.checks == checks && ArchivesForFailed(w, a, id)
  {
    ServicesAllowNothing(checks);
    var w1 := ExecutingReached(checks, timeout);
    var draft := Draft(ViewOf(w1, 0).criteria, NO_EVIDENCE, [], []);
    var w2 := CheckedReached(w1, draft);
    var w3 := BegunReached(w2, VerdictsChecked(draft));
    var w4 := SweptReached(w3, VerdictsChecked(draft));
    assert ArchivesForFailed(w4, Execute(0, Proceed), 0);
  }
}
