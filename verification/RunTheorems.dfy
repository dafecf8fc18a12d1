/**
 What the evaluation run protocol guarantees over every interleaving of request
 handlers, executors, heartbeats, sweeps and criteria administration.
 */
module RunTheorems {
  import opened Common
  import opened RunTable
  import opened RunProtocol
  import opened RunInvariants
  import C = Criteria
  import Cov = Coverage
  import Comp = CoverageComposer
  import J = Judgment

  // ---- Terminal rows ----

  lemma FrozenNext(states: seq<World>, actions: seq<Action>, i: nat)
    requires Execution(states, actions) && i < |actions|
    ensures Frozen(states[i].runs, states[i + 1].runs)
  {
    TerminalRowsAreFrozen(states[i], actions[i]);
  }

  /** A row that reached a terminal status is never written again: no later conditional write matches it. */
  lemma {:induction false} TerminalIsFinal(states: seq<World>, actions: seq<Action>, i: nat, j: nat, id: Id)
    requires Execution(states, actions) && i <= j < |states|
    requires id in states[i].runs && !Active(states[i].runs[id])
    ensures id in states[j].runs && states[j].runs[id] == states[i].runs[id]
    decreases j
  {
    if i < j {
      TerminalIsFinal(states, actions, i, j - 1, id);
      FrozenNext(states, actions, j - 1);
    }
  }

  /** Over a whole run of the system at most one write closes a row, be it a success, a failure or a sweep's. */
  lemma ClosedAtMostOnce(states: seq<World>, actions: seq<Action>, i: nat, j: nat, id: Id)
    requires Execution(states, actions) && i < |actions| && j < |actions|
    requires IsActive(states[i].runs, id) && !IsActive(states[i + 1].runs, id)
    requires IsActive(states[j].runs, id) && !IsActive(states[j + 1].runs, id)
    ensures i == j
  {
    FrozenNext(states, actions, i);
    FrozenNext(states, actions, j);
    if i < j {
      TerminalIsFinal(states, actions, i + 1, j, id);
    } else if j < i {
      TerminalIsFinal(states, actions, j + 1, i, id);
    }
  }

  ghost predicate StartKept(runs: Table, runs': Table, id: Id) {
    id in runs && runs[id].startedAt.Some? ==> id in runs' && runs'[id].startedAt == runs[id].startedAt
  }

  lemma StartStaysStep(w: World, a: Action, id: Id)
    requires RowsOk(w.now, w.runs) && Enabled(w, a)
    ensures StartKept(w.runs, Apply(w, a).runs, id)
  {
    match a {
      case Tick(_) =>
      case Administer(_) =>
      case Handle(q, step) => HandlerKeepsStart(w, q, step, id);
      case Execute(run, choice) => ExecutorKeepsStart(w, run, choice, id);
      case Heartbeat(_) =>
      case SweepBy(sweep, step) => SweepKeepsStart(w, sweep, step, id);
    }
  }

  lemma HandlerKeepsStart(w: World, q: Id, step: HandlerStep, id: Id)
    requires RowsOk(w.now, w.runs) && HandlerEnabled(w, q, step)
    ensures StartKept(w.runs, HandlerApply(w, q, step).runs, id)
  {
    assert id in w.runs ==> RowOk(w.now, w.runs[id]);
  }

  lemma ExecutorKeepsStart(w: World, run: Id, choice: Choice, id: Id)
    requires ExecutorEnabled(w, run, choice)
    ensures StartKept(w.runs, ExecutorApply(w, run, choice).runs, id)
  {
    var (pc, effect) := Advance(w.execs[run], ViewOf(w, run), choice);
    EffectKeepsStart(w, run, pc, effect, id);
  }

  lemma EffectKeepsStart(w: World, run: Id, pc: Pc, effect: Effect, id: Id)
    requires run in w.execs && run in w.runs
    ensures StartKept(w.runs, AfterEffect(w, run, pc, effect).runs, id)
  {
  }

  lemma SweepKeepsStart(w: World, sweep: Id, step: SweepStep, id: Id)
    requires SweepEnabled(w, sweep, step)
    ensures StartKept(w.runs, SweepApply(w, sweep, step).runs, id)
  {
  }

  lemma StartNext(states: seq<World>, actions: seq<Action>, i: nat, id: Id)
    requires Execution(states, actions) && i < |actions|
    ensures StartKept(states[i].runs, states[i + 1].runs, id)
  {
    InvAlways(states, actions, i);
    StartStaysStep(states[i], actions[i], id);
  }

  /** `startedAt` is written at most once. */
  lemma {:induction false} StartedOnce(states: seq<World>, actions: seq<Action>, i: nat, j: nat, id: Id)
    requires Execution(states, actions) && i <= j < |states|
    requires id in states[i].runs && states[i].runs[id].startedAt.Some?
    ensures id in states[j].runs && states[j].runs[id].startedAt == states[i].runs[id].startedAt
    decreases j
  {
    if i < j {
      StartedOnce(states, actions, i, j - 1, id);
      StartNext(states, actions, j - 1, id);
    }
  }

  /** No reachable state has two active runs for one subject and version. */
  lemma OneActiveRun(states: seq<World>, actions: seq<Action>, i: nat, a: Id, b: Id)
    requires Execution(states, actions) && i < |states|
    requires IsActive(states[i].runs, a) && IsActive(states[i].runs, b)
    requires states[i].runs[a].subject == states[i].runs[b].subject && states[i].runs[a].version == states[i].runs[b].version
    ensures a == b
  {
    InvAlways(states, actions, i);
  }

  /** A closed row has one closer, and a reaped row is on the list of exactly one sweep. */
  lemma ReapedByOneSweep(states: seq<World>, actions: seq<Action>, i: nat, id: Id)
    requires Execution(states, actions) && i < |states|
    ensures id in states[i].closedBy <==> id in states[i].runs && !Active(states[i].runs[id])
    ensures forall s :: s in states[i].sweeps && id in states[i].sweeps[s].reaped <==>
                        id in states[i].closedBy && states[i].closedBy[id] == BySweep(s)
  {
    InvAlways(states, actions, i);
  }

  // ---- Reports ----

  /**
   Every terminal event and observer notification carries the status and error text
   that the run row has from then on, whoever closed the row and whenever.
   */
  lemma ReportsMatchTheFinalRow(states: seq<World>, actions: seq<Action>, i: nat, j: nat, report: Report)
    requires Execution(states, actions) && i <= j < |states| && report in states[i].log
    ensures report.run in states[j].runs
    ensures !Active(states[j].runs[report.run])
    ensures states[j].runs[report.run].status == report.status && states[j].runs[report.run].error == report.error
  {
    InvAlways(states, actions, i);
    assert Truthful(states[i].runs, report);
    TerminalIsFinal(states, actions, i, j, report.run);
  }

  /** The sweep that closed the run has reported it on the channel. */
  predicate SweepReported(w: World, id: Id, channel: Channel) {
    && id in w.closedBy && w.closedBy[id].BySweep? && w.closedBy[id].sweep in w.sweeps
    && !Pending(w.sweeps[w.closedBy[id].sweep], id, channel)
  }

  /** The run's own executor has reported it on the channel. */
  predicate ExecutorReported(w: World, id: Id, channel: Channel) {
    id in w.execs && Reported(w.execs[id].pc, channel)
  }

  /** At every moment, on each channel: one report per reporter that has come so far. */
  lemma ReportsAreCounted(states: seq<World>, actions: seq<Action>, i: nat, id: Id, channel: Channel)
    requires Execution(states, actions) && i < |states|
    ensures Count(states[i].log, channel, id)
         == (if ExecutorReported(states[i], id, channel) then 1 else 0) + if SweepReported(states[i], id, channel) then 1 else 0
  {
    InvAlways(states, actions, i);
    var w := states[i];
    assert Count(w.log, channel, id) == OwnReports(w.execs, id, channel) + SweepReports(w.closedBy, w.sweeps, id, channel);
  }

  /**
   How often a closed run is reported. One that a sweep closed and has reported: once,
   and once more if its executor lived to report it as well, so a run whose process
   died is reported exactly once. One that its executor closed: once, as soon as the
   executor has reported it.
   */
  lemma ClosedRunReports(states: seq<World>, actions: seq<Action>, i: nat, id: Id, channel: Channel)
    requires Execution(states, actions) && i < |states| && id in states[i].closedBy
    ensures states[i].closedBy[id].BySweep? ==>
              && states[i].closedBy[id].sweep in states[i].sweeps
              && (id !in states[i].sweeps[states[i].closedBy[id].sweep].queue ==>
                    Count(states[i].log, channel, id) == 1 + if ExecutorReported(states[i], id, channel) then 1 else 0)
    ensures states[i].closedBy[id].ByExecutor? ==>
              Count(states[i].log, channel, id) == if ExecutorReported(states[i], id, channel) then 1 else 0
  {
    InvAlways(states, actions, i);
    ReportsAreCounted(states, actions, i, id, channel);
  }

  /** At no time are there more reports than reporters: none before the row is terminal, at most two ever. */
  lemma NoReportBeforeTheEnd(states: seq<World>, actions: seq<Action>, i: nat, id: Id, channel: Channel)
    requires Execution(states, actions) && i < |states|
    ensures Count(states[i].log, channel, id) <= 2
    ensures IsActive(states[i].runs, id) ==> Count(states[i].log, channel, id) == 0
    ensures id in states[i].runs && states[i].runs[id].status == Succeeded ==> Count(states[i].log, channel, id) <= 1
  {
    InvAlways(states, actions, i);
    var w := states[i];
    assert Count(w.log, channel, id) == OwnReports(w.execs, id, channel) + SweepReports(w.closedBy, w.sweeps, id, channel);
  }

  // ---- Staleness ----

  /** The clock never gets more than the timeout ahead of the row while the run is active. */
  ghost predicate TouchedInTime(states: seq<World>, id: Id) {
    forall i :: 0 <= i < |states| && IsActive(states[i].runs, id) ==>
      states[i].now - states[i].runs[id].updatedAt <= states[i].timeout
  }

  lemma ReapNeedsStaleness(w: World, a: Action, id: Id)
    requires SweepsOk(w.now - w.timeout, w.runs, w.sweeps) && Enabled(w, a)
    requires IsActive(w.runs, id) ==> w.now - w.runs[id].updatedAt <= w.timeout
    requires NotBySweep(w.closedBy, id)
    requires forall sweep :: sweep in w.sweeps ==> Older(w.sweeps[sweep])
    ensures NotBySweep(Apply(w, a).closedBy, id)
  {
    match a {
      case Tick(_) =>
      case Administer(_) =>
      case Handle(q, step) =>
      case Execute(run, choice) => ExecutorClosesByExecutor(w, run, choice, id);
      case Heartbeat(_) =>
      case SweepBy(sweep, step) => SweepSparesFresh(w, sweep, step, id);
    }
  }

  predicate NotBySweep(closedBy: Closers, id: Id) {
    id in closedBy ==> closedBy[id] == ByExecutor
  }

  lemma ExecutorClosesByExecutor(w: World, run: Id, choice: Choice, id: Id)
    requires ExecutorEnabled(w, run, choice) && NotBySweep(w.closedBy, id)
    ensures NotBySweep(ExecutorApply(w, run, choice).closedBy, id)
  {
    var (pc, effect) := Advance(w.execs[run], ViewOf(w, run), choice);
    EffectClosesByExecutor(w, run, pc, effect, id);
  }

  lemma SweepSparesFresh(w: World, sweep: Id, step: SweepStep, id: Id)
    requires SweepsOk(w.now - w.timeout, w.runs, w.sweeps) && SweepEnabled(w, sweep, step)
    requires IsActive(w.runs, id) ==> w.now - w.runs[id].updatedAt <= w.timeout
    requires NotBySweep(w.closedBy, id)
    requires forall s :: s in w.sweeps ==> Older(w.sweeps[s])
    ensures NotBySweep(SweepApply(w, sweep, step).closedBy, id)
  {
    if step.Reap? {
      assert SweepOk(w.now - w.timeout, w.runs, w.sweeps[sweep]) && Older(w.sweeps[sweep]);
    }
  }

  lemma EffectClosesByExecutor(w: World, run: Id, pc: Pc, effect: Effect, id: Id)
    requires run in w.execs && run in w.runs && NotBySweep(w.closedBy, id)
    ensures NotBySweep(AfterEffect(w, run, pc, effect).closedBy, id)
  {
  }

  /** The rows a sweep selected were older than its cutoff. */
  ghost predicate Older(s: Sweep) {
    forall id :: id in s.candidates ==> s.candidates[id] < s.cutoff
  }

  lemma {:induction false} CandidatesAreOld(states: seq<World>, actions: seq<Action>, i: nat)
    requires Execution(states, actions) && i < |states|
    ensures forall sweep :: sweep in states[i].sweeps ==> Older(states[i].sweeps[sweep])
  {
    if i > 0 {
      CandidatesAreOld(states, actions, i - 1);
      OlderStep(states[i - 1], actions[i - 1]);
    }
  }

  lemma OlderStep(w: World, a: Action)
    requires Enabled(w, a) && forall sweep :: sweep in w.sweeps ==> Older(w.sweeps[sweep])
    ensures forall sweep :: sweep in Apply(w, a).sweeps ==> Older(Apply(w, a).sweeps[sweep])
  {
    match a {
      case Tick(_) =>
      case Administer(_) =>
      case Handle(q, step) =>
      case Execute(run, choice) => ExecutorLeaves(w, run, choice);
      case Heartbeat(_) =>
      case SweepBy(id, step) => NextSweepIsOlder(w, id, step);
    }
  }

  lemma ExecutorLeaves(w: World, run: Id, choice: Choice)
    requires ExecutorEnabled(w, run, choice)
    ensures ExecutorApply(w, run, choice).sweeps == w.sweeps
    ensures ExecutorApply(w, run, choice).checks == w.checks && ExecutorApply(w, run, choice).timeout == w.timeout
  {
  }

  lemma NextSweepIsOlder(w: World, id: Id, step: SweepStep)
    requires SweepEnabled(w, id, step) && forall sweep :: sweep in w.sweeps ==> Older(w.sweeps[sweep])
    ensures Older(NextSweep(w, id, step))
  {
    if id in w.sweeps {
      assert Older(w.sweeps[id]);
    }
  }

  /** A run touched at gaps of at most the timeout is never reaped, however sweeps interleave with its heartbeats. */
  lemma {:induction false} TouchedInTimeNeverReaped(states: seq<World>, actions: seq<Action>, i: nat, id: Id)
    requires Execution(states, actions) && i < |states| && TouchedInTime(states, id)
    ensures NotBySweep(states[i].closedBy, id)
    ensures forall s :: s in states[i].sweeps ==> id !in states[i].sweeps[s].reaped
  {
    if i > 0 {
      TouchedInTimeNeverReaped(states, actions, i - 1, id);
      FreshNext(states, actions, i - 1, id);
    }
    ReapedByOneSweep(states, actions, i, id);
  }

  lemma FreshNext(states: seq<World>, actions: seq<Action>, i: nat, id: Id)
    requires Execution(states, actions) && i < |actions| && TouchedInTime(states, id) && NotBySweep(states[i].closedBy, id)
    ensures NotBySweep(states[i + 1].closedBy, id)
  {
    InvAlways(states, actions, i);
    CandidatesAreOld(states, actions, i);
    ReapNeedsStaleness(states[i], actions[i], id);
  }

  /**
   When a sweep has worked through its candidates, no active row is older than its
   cutoff: every row that was stale at its start is terminal or was touched since.
   */
  lemma SweepLeavesNothingStale(states: seq<World>, actions: seq<Action>, i: nat, sweep: Id, id: Id)
    requires Execution(states, actions) && i < |states| && sweep in states[i].sweeps
    requires states[i].sweeps[sweep].selected && states[i].sweeps[sweep].candidates == map[]
    ensures IsActive(states[i].runs, id) ==> states[i].runs[id].updatedAt >= states[i].sweeps[sweep].cutoff
  {
    InvAlways(states, actions, i);
    assert SweepOk(states[i].now - states[i].timeout, states[i].runs, states[i].sweeps[sweep]);
  }

  /** ... so a subject and version held only by rows older than the cutoff admits a new run. */
  lemma SweepFreesThePair(states: seq<World>, actions: seq<Action>, i: nat, sweep: Id, subject: Id, version: Id)
    requires Execution(states, actions) && i < |states| && sweep in states[i].sweeps
    requires states[i].sweeps[sweep].selected && states[i].sweeps[sweep].candidates == map[]
    requires forall id ::
               IsActive(states[i].runs, id) && states[i].runs[id].subject == subject && states[i].runs[id].version == version
               ==> states[i].runs[id].updatedAt < states[i].sweeps[sweep].cutoff
    ensures !Occupied(states[i].runs, subject, version)
  {
    forall id | id in states[i].runs && states[i].runs[id].subject == subject && states[i].runs[id].version == version
      ensures !Active(states[i].runs[id])
    {
      SweepLeavesNothingStale(states, actions, i, sweep, id);
    }
  }

  // ---- Criteria and results ----

  /** The checks the services make, for the protocol's `checks`. */
  ghost predicate ServiceChecks(checks: Checks) {
    && (forall input :: checks.composes(input) <==> Comp.Problems(input) == [])
    && (forall input :: checks.coverage(input) <==> Cov.StatsOk(Comp.Compose(input), Comp.IdsOf(input.items)))
    && (forall rows, input, verdicts :: checks.verdicts(rows, input, verdicts) <==>
          J.VerdictsOk(C.KindsIn(rows), verdicts, Some(Comp.IdsOf(input.items))))
    && (forall rows, input, findings :: checks.findings(rows, input, findings) <==>
          J.FindingsOk(C.KindsIn(rows), findings, Some(Comp.IdsOf(input.items))))
  }

  /** Every run was opened against a published version of its subject's kind, which has criteria. */
  lemma RunsArePublishedKind(states: seq<World>, actions: seq<Action>, i: nat, id: Id)
    requires Execution(states, actions) && i < |states| && id in states[i].runs
    ensures var w, run := states[i], states[i].runs[id];
            && C.Published(w.catalog, run.version) && run.subject in w.subjects
            && w.catalog.versions[run.version].kind == w.subjects[run.subject]
            && C.Rows(w.catalog, run.version) != map[]
  {
    InvAlways(states, actions, i);
    var w, run := states[i], states[i].runs[id];
    assert Admissible(w.catalog, w.subjects, run.subject, run.version);
    var c :| c in w.catalog.criteria && w.catalog.criteria[c].version == run.version;
    assert c in C.Rows(w.catalog, run.version);
  }

  /** Whatever administration happens meanwhile, the second and third read return what the judgment saw. */
  lemma ThreeReadsAgree(states: seq<World>, actions: seq<Action>, i: nat, id: Id)
    requires Execution(states, actions) && i < |states| && id in states[i].execs && HasDraft(states[i].execs[id].pc)
    ensures id in states[i].runs
    ensures ViewOf(states[i], id).criteria == states[i].execs[id].pc.draft.judged
  {
    InvAlways(states, actions, i);
    assert ReadsOk(states[i].checks, C.Rows(states[i].catalog, states[i].runs[id].version), states[i].execs[id].pc);
  }

  /** The fence's "restarted" refusal cannot happen: an execution always sees its own start time. */
  lemma NeverRestarted(states: seq<World>, actions: seq<Action>, i: nat, id: Id)
    requires Execution(states, actions) && i < |states| && id in states[i].execs
    ensures id in states[i].runs && states[i].runs[id].startedAt == states[i].execs[id].startedAt
  {
    InvAlways(states, actions, i);
  }

  lemma {:induction false} ChecksAreConstant(states: seq<World>, actions: seq<Action>, i: nat)
    requires Execution(states, actions) && i < |states|
    ensures states[i].checks == states[0].checks && states[i].timeout == states[0].timeout
  {
    if i > 0 {
      ChecksAreConstant(states, actions, i - 1);
      ConfigStays(states[i - 1], actions[i - 1]);
    }
  }

  lemma ConfigStays(w: World, a: Action)
    requires Enabled(w, a)
    ensures Apply(w, a).checks == w.checks && Apply(w, a).timeout == w.timeout
  {
    match a {
      case Tick(_) =>
      case Administer(_) =>
      case Handle(q, step) =>
      case Execute(run, choice) => ExecutorLeaves(w, run, choice);
      case Heartbeat(_) =>
      case SweepBy(id, step) =>
    }
  }

  /**
   A succeeded run has an archived result. Any archived result has a coverage snapshot
   the validator accepts for its manifest, and consistent verdicts: each on a distinct
   SCORED criterion of the run's version, citing manifest items only.
   */
  lemma ResultsAreSound(states: seq<World>, actions: seq<Action>, i: nat, id: Id)
    requires Execution(states, actions) && i < |states| && ServiceChecks(states[0].checks) && id in states[i].runs
    ensures states[i].runs[id].status == Succeeded ==> id in states[i].results
    ensures id in states[i].results ==>
              var result := states[i].results[id];
              var manifest := Comp.IdsOf(result.input.items);
              && Cov.StatsOk(Comp.Compose(result.input), manifest)
              && J.VerdictsOk(C.KindsIn(C.Rows(states[i].catalog, states[i].runs[id].version)), result.verdicts, Some(manifest))
  {
    InvAlways(states, actions, i);
    ChecksAreConstant(states, actions, i);
    var w := states[i];
    if w.runs[id].status == Succeeded {
      assert id in w.execs;
      assert ExecOk(w.execs[id], w.runs[id], Own(w.closedBy, id));
    }
    if id in w.results {
      assert ResultOk(w.checks, C.Rows(w.catalog, w.runs[id].version), w.results[id]);
    }
  }
}
