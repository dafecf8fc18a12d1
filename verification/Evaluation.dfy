/**
 The run protocol and the finding protocol as one system. The executor of RunProtocol
 enters `recordFindings` and `resolveAbsentFindings` and later returns from them; in
 between the calls go through their own database calls, which are the steps of
 FindingProtocol (evaluation-runner.service.ts, evaluation-finding.service.ts). No
 check of the run row happens inside these calls.
 */
module Evaluation {
  import opened Common
  import T = RunTable
  import R = RunProtocol
  import RI = RunInvariants
  import RT = RunTheorems
  import opened RunJudgments
  import FT = FindingTable
  import F = FindingProtocol
  import C = Criteria
  import Comp = CoverageComposer
  import J = Judgment

  type Id = nat

  datatype World = World(runs: R.World, findings: F.World)

  /**
   One clock; a step of the run protocol alone; the validated call of `recordFindings`
   with the candidates' texts; a step inside a finding call, or of a suppression or reopening.
   */
  datatype Action =
    | Tick(delta: nat)
    | RunStep(step: R.Action)
    | Call(run: Id, sightings: seq<FT.Sighting>)
    | FindingStep(move: F.Action)

  // ---- What the finding service reads of a run ----

  function ObservedAt(row: T.Run): nat {
    row.startedAt.GetOr(row.createdAt)
  }

  ghost function PassOf(w: R.World, run: Id): FT.Pass
    requires run in w.runs && w.runs[run].version in w.catalog.versions
  {
    var row := w.runs[run];
    FT.Pass(run, row.subject, w.catalog.versions[row.version].evaluationKey, ObservedAt(row),
            C.KindsIn(C.Rows(w.catalog, row.version)))
  }

  /** The executor's next step validates its candidates with success, or finds that there are none. */
  predicate Validates(w: R.World, run: Id) {
    && R.ExecutorEnabled(w, run, R.Proceed) && w.execs[run].pc.FindingsFenced?
    && var draft := w.execs[run].pc.draft;
       draft.findings == [] || w.checks.findings(C.Rows(w.catalog, w.runs[run].version), draft.input, draft.findings)
  }

  ghost function BeginOf(w: R.World, run: Id, sightings: seq<FT.Sighting>): F.Action
    requires run in w.runs && w.runs[run].version in w.catalog.versions
    requires run in w.execs && w.execs[run].pc.FindingsFenced?
  {
    F.Begin(PassOf(w, run), sightings, Some(Comp.IdsOf(w.execs[run].pc.draft.input.items)))
  }

  ghost predicate CallEnabled(w: World, run: Id, sightings: seq<FT.Sighting>) {
    && Validates(w.runs, run) && w.runs.runs[run].version in w.runs.catalog.versions
    && FT.ClaimsOf(sightings) == w.runs.execs[run].pc.draft.findings
    && F.Enabled(w.findings, BeginOf(w.runs, run, sightings))
  }

  /** The executor goes on by itself unless it enters a finding call, or is inside one that has not come to its end. */
  predicate GoesOn(w: World, run: Id)
    requires run in w.runs.execs
  {
    match w.runs.execs[run].pc
    case FindingsFenced(_) => !Validates(w.runs, run)
    case Recording(_) => run in w.findings.recordings && w.findings.recordings[run].pc.Recorded?
    case ResolveFenced => run in w.findings.recordings && w.findings.recordings[run].pc.Done?
    case _ => true
  }

  /** The executor is inside a finding call. */
  predicate Inside(w: World, run: Id) {
    && run in w.runs.execs && run in w.findings.recordings
    && ((w.runs.execs[run].pc.Recording? && !w.findings.recordings[run].pc.Recorded?) || w.runs.execs[run].pc.ResolveFenced?)
  }

  ghost predicate Enabled(w: World, a: Action) {
    match a
    case Tick(_) => true
    case RunStep(step) =>
      && !step.Tick? && R.Enabled(w.runs, step)
      && (step.Execute? && step.choice.Proceed? ==> GoesOn(w, step.run))
    case Call(run, sightings) => CallEnabled(w, run, sightings)
    case FindingStep(step) =>
      && !step.Tick? && !step.Begin? && F.Enabled(w.findings, step)
      && (step.Step? ==> Inside(w, step.run) && !step.choice.Quit?)
  }

  ghost function Apply(w: World, a: Action): World
    requires Enabled(w, a)
  {
    match a
    case Tick(delta) => World(R.Apply(w.runs, R.Tick(delta)), F.Apply(w.findings, F.Tick(delta)))
    case RunStep(step) => w.(runs := R.Apply(w.runs, step))
    case Call(run, sightings) =>
      World(R.Apply(w.runs, R.Execute(run, R.Proceed)), F.Apply(w.findings, BeginOf(w.runs, run, sightings)))
    case FindingStep(step) => w.(findings := F.Apply(w.findings, step))
  }

  ghost predicate Init(w: World) {
    R.Init(w.runs) && F.Init(w.findings) && w.findings.now == w.runs.now
  }

  ghost predicate Execution(states: seq<World>, actions: seq<Action>) {
    && |states| == |actions| + 1 && Init(states[0])
    && forall i :: 0 <= i < |actions| ==> Enabled(states[i], actions[i]) && states[i + 1] == Apply(states[i], actions[i])
  }

  // ---- The invariant ----

  /** The run's executor has called `recordFindings`. */
  predicate HasCalled(pc: R.Pc) {
    || pc.Recording? || pc.Recorded? || pc.ResolveFenced? || pc.Resolved? || pc.SuccessFenced? || R.Succeeding(pc)
  }

  predicate MayHaveCalled(pc: R.Pc) {
    HasCalled(pc) || pc.Catching? || pc.Superseded? || R.Failing(pc)
  }

  /** No candidate is left, and the absent findings are not listed yet. */
  predicate BeforeListing(rec: F.Recording) {
    rec.pc.Recorded? || (rec.pc.Looking? && rec.candidates == [])
  }

  /** Where the executor stands and how far its finding calls have come. */
  predicate InStep(pc: R.Pc, rec: F.Recording) {
    match pc
    case Recording(_) => rec.pc.Looking? || F.OnCandidate(rec.pc) || rec.pc.Recorded?
    case Recorded => BeforeListing(rec)
    case ResolveFenced => BeforeListing(rec) || rec.pc.Resolving? || rec.pc.TellingClosed? || rec.pc.Done?
    case Resolved => rec.pc.Done?
    case SuccessFenced => rec.pc.Done?
    case Won => rec.pc.Done?
    case WonPublished => rec.pc.Done?
    case Finished => rec.pc.Done?
    case _ => true
  }

  ghost predicate LinkOk(w: World, run: Id) {
    && run in w.findings.recordings
    && run in w.runs.runs && run in w.runs.execs && w.runs.runs[run].version in w.runs.catalog.versions
    && MayHaveCalled(w.runs.execs[run].pc)
    && w.findings.recordings[run].pass == PassOf(w.runs, run)
    && InStep(w.runs.execs[run].pc, w.findings.recordings[run])
  }

  ghost predicate Linked(w: World) {
    && (forall run :: run in w.findings.recordings ==> LinkOk(w, run))
    && CallsKnown(w)
  }

  /** Every executor that has made its call has a pass. */
  ghost predicate CallsKnown(w: World) {
    forall run :: run in w.runs.execs && HasCalled(w.runs.execs[run].pc) ==> run in w.findings.recordings
  }

  ghost predicate StartOk(now: nat, row: T.Run) {
    row.startedAt.Some? ==> row.startedAt.value <= now
  }

  ghost predicate StartsOk(now: nat, runs: T.Table) {
    forall id :: id in runs ==> StartOk(now, runs[id])
  }

  ghost predicate Inv(w: World) {
    && RI.Inv(w.runs) && F.Inv(w.findings) && w.findings.now == w.runs.now
    && StartsOk(w.runs.now, w.runs.runs) && Linked(w)
  }

  // ---- Steps of the run protocol ----

  /** What a pass reads of a run's row. */
  predicate SameStart(row: T.Run, row': T.Run) {
    row'.subject == row.subject && row'.version == row.version && ObservedAt(row') == ObservedAt(row)
  }

  /** The rows under execution stay what a pass reads of them, and no row starts in the future. */
  ghost predicate RowsStay(w: R.World, runs': T.Table) {
    && (forall id :: id in w.execs && id in w.runs ==> id in runs' && SameStart(w.runs[id], runs'[id]))
    && (StartsOk(w.now, w.runs) ==> StartsOk(w.now, runs'))
  }

  lemma HandlerKeepsRows(w: R.World, q: Id, step: R.HandlerStep)
    requires R.HandlerEnabled(w, q, step) && RI.ExecsOk(w.runs, w.execs, w.closedBy)
    ensures RowsStay(w, R.HandlerApply(w, q, step).runs)
  {
  }

  lemma EffectKeepsRows(w: R.World, run: Id, pc: R.Pc, effect: R.Effect)
    requires run in w.execs && run in w.runs
    ensures RowsStay(w, R.AfterEffect(w, run, pc, effect).runs)
  {
  }

  lemma SweepKeepsRows(w: R.World, id: Id, step: R.SweepStep)
    requires R.SweepEnabled(w, id, step)
    ensures RowsStay(w, R.SweepApply(w, id, step).runs)
  {
  }

  lemma StepKeepsRows(w: R.World, a: R.Action)
    requires R.Enabled(w, a) && RI.ExecsOk(w.runs, w.execs, w.closedBy)
    ensures RowsStay(w, R.Apply(w, a).runs)
  {
    match a {
      case Tick(_) =>
      case Administer(_) =>
      case Handle(q, step) => HandlerKeepsRows(w, q, step);
      case Execute(run, choice) =>
        var (pc, effect) := R.Advance(w.execs[run], R.ViewOf(w, run), choice);
        EffectKeepsRows(w, run, pc, effect);
      case Heartbeat(_) =>
      case SweepBy(id, step) => SweepKeepsRows(w, id, step);
    }
  }

  lemma CatalogStays(w: R.World, a: R.Action, version: Id)
    requires R.Enabled(w, a) && C.Inv(w.catalog) && C.Published(w.catalog, version)
    ensures var catalog' := R.Apply(w, a).catalog;
            && version in catalog'.versions && catalog'.versions[version] == w.catalog.versions[version]
            && C.Rows(catalog', version) == C.Rows(w.catalog, version)
  {
    match a {
      case Tick(_) =>
      case Administer(step) => C.PublishedIsFrozen(w.catalog, step, version);
      case Handle(_, _) =>
      case Execute(run, choice) => ExecutorLeavesCatalog(w, run, choice);
      case Heartbeat(_) =>
      case SweepBy(_, _) =>
    }
  }

  lemma ExecutorLeavesCatalog(w: R.World, run: Id, choice: R.Choice)
    requires R.ExecutorEnabled(w, run, choice)
    ensures R.ExecutorApply(w, run, choice).catalog == w.catalog && R.ExecutorApply(w, run, choice).now == w.now
  {
  }

  lemma PassStays(w: R.World, a: R.Action, run: Id)
    requires RI.Inv(w) && R.Enabled(w, a) && run in w.execs && run in w.runs
    ensures var w' := R.Apply(w, a);
            && run in w'.runs && w.runs[run].version in w.catalog.versions && w'.runs[run].version in w'.catalog.versions
            && PassOf(w', run) == PassOf(w, run)
  {
    assert RI.Admissible(w.catalog, w.subjects, w.runs[run].subject, w.runs[run].version);
    StepKeepsRows(w, a);
    CatalogStays(w, a, w.runs[run].version);
  }

  /** A step of the executor itself, seen from its finding calls. */
  lemma AdvanceStaysInStep(exec: R.Exec, view: R.View, choice: R.Choice, rec: F.Recording)
    requires R.Fits(exec.pc, choice) && MayHaveCalled(exec.pc) && InStep(exec.pc, rec)
    requires choice.Proceed? && exec.pc.Recording? ==> rec.pc.Recorded?
    requires choice.Proceed? && exec.pc.ResolveFenced? ==> rec.pc.Done?
    ensures var pc := R.Advance(exec, view, choice).0;
            MayHaveCalled(pc) && InStep(pc, rec) && (HasCalled(pc) ==> HasCalled(exec.pc))
  {
  }

  /** Without the call no step of an executor leads behind it. */
  lemma AdvanceBeforeCall(exec: R.Exec, view: R.View, choice: R.Choice)
    requires R.Fits(exec.pc, choice) && !HasCalled(exec.pc)
    requires exec.pc.FindingsFenced? && choice.Proceed? ==>
               exec.pc.draft.findings != [] && !view.checks.findings(view.criteria, exec.pc.draft.input, exec.pc.draft.findings)
    ensures !HasCalled(R.Advance(exec, view, choice).0)
  {
  }

  lemma RunStepKeepsLink(w: World, step: R.Action, run: Id)
    requires Inv(w) && Enabled(w, RunStep(step)) && run in w.findings.recordings
    ensures LinkOk(Apply(w, RunStep(step)), run)
  {
    assert LinkOk(w, run);
    PassStays(w.runs, step, run);
    StepMovesOne(w.runs, step, run);
    if step.Execute? && step.run == run {
      AdvanceStaysInStep(w.runs.execs[run], R.ViewOf(w.runs, run), step.choice, w.findings.recordings[run]);
    }
  }

  lemma RunStepKeepsCalls(w: World, step: R.Action, run: Id)
    requires CallsKnown(w) && RI.RequestsOk(w.runs.runs, w.runs.execs, w.runs.requests) && Enabled(w, RunStep(step))
    requires run in R.Apply(w.runs, step).execs && HasCalled(R.Apply(w.runs, step).execs[run].pc)
    ensures run in w.findings.recordings
  {
    if run in w.runs.execs {
      StepMovesOne(w.runs, step, run);
      if step.Execute? && step.run == run && !HasCalled(w.runs.execs[run].pc) {
        AdvanceBeforeCall(w.runs.execs[run], R.ViewOf(w.runs, run), step.choice);
      }
    } else {
      NewExecsBegin(w.runs, step, run);
    }
  }

  lemma RunStepKeepsInv(w: World, step: R.Action)
    requires Inv(w) && Enabled(w, RunStep(step))
    ensures Inv(Apply(w, RunStep(step)))
  {
    RI.InvIsPreserved(w.runs, step);
    StepKeepsRows(w.runs, step);
    TimeStays(w.runs, step);
    var w' := Apply(w, RunStep(step));
    forall run | run in w'.findings.recordings ensures LinkOk(w', run) {
      RunStepKeepsLink(w, step, run);
    }
    forall run | run in w'.runs.execs && HasCalled(w'.runs.execs[run].pc) ensures run in w'.findings.recordings {
      RunStepKeepsCalls(w, step, run);
    }
  }

  lemma TimeStays(w: R.World, a: R.Action)
    requires R.Enabled(w, a) && !a.Tick?
    ensures R.Apply(w, a).now == w.now
  {
    if a.Execute? {
      ExecutorLeavesCatalog(w, a.run, a.choice);
    }
  }

  // ---- Calls and their steps ----

  /** Nothing but its validation keeps a call from being made: the check it passed is the one the finding service makes. */
  lemma CallIsEnabled(w: World, run: Id, sightings: seq<FT.Sighting>)
    requires Inv(w) && RT.ServiceChecks(w.runs.checks) && Validates(w.runs, run)
    requires FT.ClaimsOf(sightings) == w.runs.execs[run].pc.draft.findings
    ensures CallEnabled(w, run, sightings)
  {
    ReadyToCall(w, run);
    StartIsPast(w, run);
    ClaimsAreAdmissible(w.runs, run, sightings);
    BeginIsEnabled(w, run, sightings);
  }

  lemma ReadyToCall(w: World, run: Id)
    requires RI.ProvenanceOk(w.runs) && Linked(w)
    requires run in w.runs.runs && run in w.runs.execs && w.runs.execs[run].pc.FindingsFenced?
    ensures w.runs.runs[run].version in w.runs.catalog.versions && run !in w.findings.recordings
  {
    VersionIsKnown(w.runs, run);
    NotCalledYet(w, run);
  }

  lemma BeginIsEnabled(w: World, run: Id, sightings: seq<FT.Sighting>)
    requires Validates(w.runs, run) && w.runs.runs[run].version in w.runs.catalog.versions
    requires run !in w.findings.recordings && ObservedAt(w.runs.runs[run]) <= w.findings.now
    requires FT.ClaimsOf(sightings) == w.runs.execs[run].pc.draft.findings
    requires FT.Admissible(PassOf(w.runs, run), sightings, Some(Comp.IdsOf(w.runs.execs[run].pc.draft.input.items)))
    ensures CallEnabled(w, run, sightings)
  {
  }

  lemma VersionIsKnown(w: R.World, run: Id)
    requires RI.ProvenanceOk(w) && run in w.runs
    ensures w.runs[run].version in w.catalog.versions && C.Published(w.catalog, w.runs[run].version)
  {
    assert RI.Admissible(w.catalog, w.subjects, w.runs[run].subject, w.runs[run].version);
  }

  lemma StartIsPast(w: World, run: Id)
    requires Inv(w) && run in w.runs.runs
    ensures ObservedAt(w.runs.runs[run]) <= w.findings.now
  {
    assert RI.RowOk(w.runs.now, w.runs.runs[run]) && StartOk(w.runs.now, w.runs.runs[run]);
  }

  lemma ClaimsAreAdmissible(w: R.World, run: Id, sightings: seq<FT.Sighting>)
    requires RT.ServiceChecks(w.checks) && Validates(w, run) && w.runs[run].version in w.catalog.versions
    requires FT.ClaimsOf(sightings) == w.execs[run].pc.draft.findings
    ensures FT.Admissible(PassOf(w, run), sightings, Some(Comp.IdsOf(w.execs[run].pc.draft.input.items)))
  {
    var (draft, rows) := (w.execs[run].pc.draft, C.Rows(w.catalog, w.runs[run].version));
    assert w.checks.findings(rows, draft.input, draft.findings) <==>
           J.FindingsOk(C.KindsIn(rows), draft.findings, Some(Comp.IdsOf(draft.input.items)));
  }

  lemma NotCalledYet(w: World, run: Id)
    requires Linked(w) && run in w.runs.execs && !MayHaveCalled(w.runs.execs[run].pc)
    ensures run !in w.findings.recordings
  {
    assert run in w.findings.recordings ==> LinkOk(w, run);
  }

  /** What beginning a pass does to the passes. */
  lemma BeginAdds(w: F.World, pass: FT.Pass, sightings: seq<FT.Sighting>, ids: Option<set<string>>)
    requires F.Enabled(w, F.Begin(pass, sightings, ids))
    ensures var w' := F.Apply(w, F.Begin(pass, sightings, ids));
            w'.recordings == w.recordings[pass.run := F.Recording(pass, sightings, F.Looking(0))] && w'.now == w.now
  {
  }

  /** The call's own step of the executor. */
  lemma CallAdvances(w: R.World, run: Id)
    requires Validates(w, run)
    ensures var pc := R.Advance(w.execs[run], R.ViewOf(w, run), R.Proceed).0;
            if w.execs[run].pc.draft.findings == [] then pc == R.Recorded else pc == R.Recording(w.execs[run].pc.draft)
  {
  }

  lemma OwnCallLinks(w: World, run: Id, sightings: seq<FT.Sighting>, w': World)
    requires CallEnabled(w, run, sightings) && w' == Apply(w, Call(run, sightings))
    requires run in w'.runs.runs && w'.runs.runs[run].version in w'.runs.catalog.versions
    requires PassOf(w'.runs, run) == PassOf(w.runs, run)
    ensures LinkOk(w', run)
  {
    ExecutorMovesOne(w.runs, run, R.Proceed, run);
    BeginAdds(w.findings, PassOf(w.runs, run), sightings, Some(Comp.IdsOf(w.runs.execs[run].pc.draft.input.items)));
    CallAdvances(w.runs, run);
  }

  lemma OtherCallKeepsLink(w: World, run: Id, sightings: seq<FT.Sighting>, w': World, id: Id)
    requires LinkOk(w, id) && id != run && CallEnabled(w, run, sightings) && w' == Apply(w, Call(run, sightings))
    requires id in w'.runs.runs && w'.runs.runs[id].version in w'.runs.catalog.versions
    requires PassOf(w'.runs, id) == PassOf(w.runs, id)
    ensures LinkOk(w', id)
  {
    ExecutorMovesOne(w.runs, run, R.Proceed, id);
    BeginAdds(w.findings, PassOf(w.runs, run), sightings, Some(Comp.IdsOf(w.runs.execs[run].pc.draft.input.items)));
  }

  lemma CallKeepsLink(w: World, run: Id, sightings: seq<FT.Sighting>, id: Id)
    requires RI.Inv(w.runs) && Linked(w) && CallEnabled(w, run, sightings)
    requires id in w.findings.recordings || id == run
    ensures LinkOk(Apply(w, Call(run, sightings)), id)
  {
    assert id in w.findings.recordings ==> LinkOk(w, id);
    PassStays(w.runs, R.Execute(run, R.Proceed), id);
    if id == run {
      OwnCallLinks(w, run, sightings, Apply(w, Call(run, sightings)));
    } else {
      OtherCallKeepsLink(w, run, sightings, Apply(w, Call(run, sightings)), id);
    }
  }

  lemma CallKeepsInv(w: World, run: Id, sightings: seq<FT.Sighting>)
    requires Inv(w) && Enabled(w, Call(run, sightings))
    ensures Inv(Apply(w, Call(run, sightings)))
  {
    var step := R.Execute(run, R.Proceed);
    RI.InvIsPreserved(w.runs, step);
    F.InvIsPreserved(w.findings, BeginOf(w.runs, run, sightings));
    StepKeepsRows(w.runs, step);
    TimeStays(w.runs, step);
    var w' := Apply(w, Call(run, sightings));
    forall id | id in w'.findings.recordings ensures LinkOk(w', id) {
      CallKeepsLink(w, run, sightings, id);
    }
    forall id | id in w'.runs.execs && HasCalled(w'.runs.execs[id].pc) ensures id in w'.findings.recordings {
      ExecutorMovesOne(w.runs, run, R.Proceed, run);
      if id != run {
        ExecutorMovesOne(w.runs, run, R.Proceed, id);
      }
    }
  }

  /** The call stays where it may be. */
  lemma CallGoesOn(pc: R.Pc, rec: F.Recording, rows: FT.Table, now: nat, choice: F.Choice)
    requires F.PcOk(rec, rows.Keys) && F.Fits(rec, choice) && !choice.Quit? && InStep(pc, rec)
    requires (pc.Recording? && !rec.pc.Recorded?) || pc.ResolveFenced?
    ensures InStep(pc, rec.(pc := F.Advance(rec, rows, now, choice).0))
  {
  }

  /** What a step inside a call, or a suppression or reopening, does to the passes. */
  ghost predicate PassesMove(w: F.World, a: F.Action, w': F.World)
    requires F.Enabled(w, a)
  {
    && w'.now == w.now
    && w'.recordings ==
       if a.Step? then w.recordings[a.run := w.recordings[a.run].(pc := F.Advance(w.recordings[a.run], w.rows, w.now, a.choice).0)]
       else w.recordings
  }

  lemma FindingStepMoves(w: F.World, a: F.Action)
    requires F.Enabled(w, a) && !a.Tick? && !a.Begin?
    ensures PassesMove(w, a, F.Apply(w, a))
  {
  }

  lemma FindingStepKeepsLink(w: World, step: F.Action, run: Id)
    requires F.Inv(w.findings) && Linked(w) && Enabled(w, FindingStep(step)) && run in w.findings.recordings
    ensures LinkOk(Apply(w, FindingStep(step)), run)
  {
    assert LinkOk(w, run);
    FindingStepMoves(w.findings, step);
    var w' := Apply(w, FindingStep(step));
    assert w'.runs == w.runs;
    if step.Step? && step.run == run {
      assert F.RecordingOk(run, w.findings.recordings[run], w.findings.rows.Keys);
      CallGoesOn(w.runs.execs[run].pc, w.findings.recordings[run], w.findings.rows, w.findings.now, step.choice);
      assert LinkOk(w', run);
    } else {
      assert w'.findings.recordings[run] == w.findings.recordings[run];
    }
  }

  lemma FindingStepKeepsInv(w: World, step: F.Action)
    requires Inv(w) && Enabled(w, FindingStep(step))
    ensures Inv(Apply(w, FindingStep(step)))
  {
    F.InvIsPreserved(w.findings, step);
    FindingStepMoves(w.findings, step);
    var w' := Apply(w, FindingStep(step));
    assert w'.findings.recordings.Keys == w.findings.recordings.Keys && w'.runs == w.runs;
    forall run | run in w'.findings.recordings ensures LinkOk(w', run) {
      FindingStepKeepsLink(w, step, run);
    }
  }

  lemma TickKeepsInv(w: World, delta: nat)
    requires Inv(w)
    ensures Inv(Apply(w, Tick(delta)))
  {
    RI.InvIsPreserved(w.runs, R.Tick(delta));
    var w' := Apply(w, Tick(delta));
    forall run | run in w'.findings.recordings ensures LinkOk(w', run) {
      assert LinkOk(w, run);
    }
  }

  /** Every step of either protocol keeps both invariants and the link between them. */
  lemma InvIsPreserved(w: World, a: Action)
    requires Inv(w) && Enabled(w, a)
    ensures Inv(Apply(w, a))
  {
    match a {
      case Tick(delta) => TickKeepsInv(w, delta);
      case RunStep(step) => RunStepKeepsInv(w, step);
      case Call(run, sightings) => CallKeepsInv(w, run, sightings);
      case FindingStep(step) => FindingStepKeepsInv(w, step);
    }
  }

  lemma {:induction false} InvAlways(states: seq<World>, actions: seq<Action>, i: nat)
    requires Execution(states, actions) && i < |states|
    ensures Inv(states[i])
  {
    if i == 0 {
      RI.InvHoldsInitially(states[0].runs);
    } else {
      InvAlways(states, actions, i - 1);
      InvIsPreserved(states[i - 1], actions[i - 1]);
    }
  }
}
