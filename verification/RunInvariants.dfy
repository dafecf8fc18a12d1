/** What every step of RunProtocol keeps. */
module RunInvariants {
  import opened Common
  import opened RunTable
  import opened RunProtocol
  import C = Criteria

  // ---- Rows ----

  ghost predicate RowOk(now: nat, run: Run) {
    && run.createdAt <= run.updatedAt <= now
    && (run.error.Some? <==> run.status == Failed)
    && (run.finishedAt.Some? <==> !Active(run))
    && (run.status == Queued ==> run.startedAt.None?)
    && (run.status == Running || run.status == Succeeded ==> run.startedAt.Some?)
  }

  ghost predicate RowsOk(now: nat, runs: Table) {
    && (forall id :: id in runs ==> RowOk(now, runs[id]))
    && OneActive(runs)
  }

  // ---- Who closed a row ----

  /** Where an executor stands agrees with its row; `own` says it closed the row itself. */
  predicate ExecOk(exec: Exec, run: Run, own: bool) {
    var pc := exec.pc;
    && exec.startedAt == run.startedAt
    && run.status != Queued
    && (Trying(pc) || pc.Catching? ==> run.status != Succeeded && !own)
    && (pc.Superseded? ==> run.status == Failed && !own)
    && (Succeeding(pc) ==> run.status == Succeeded && own)
    && (Failing(pc) ==> run.status == Failed && run.error == Some(pc.text))
  }

  type Execs = map<Id, Exec>
  type Closers = map<Id, Source>
  type Sweeps = map<Id, Sweep>

  predicate Own(closedBy: Closers, id: Id) {
    id in closedBy && closedBy[id] == ByExecutor
  }

  ghost predicate ExecsOk(runs: Table, execs: Execs, closedBy: Closers) {
    && (forall id :: id in execs ==> id in runs && ExecOk(execs[id], runs[id], Own(closedBy, id)))
    && (forall id :: id in runs && id !in execs ==> runs[id].status != Succeeded && !Own(closedBy, id))
  }

  /** Exactly the terminal rows have a closer. */
  ghost predicate ClosersOk(runs: Table, closedBy: Closers) {
    forall id :: id in closedBy <==> id in runs && !Active(runs[id])
  }

  /** A sweep's list of reaped rows is exactly the rows it closed, with the shared text. */
  ghost predicate ReapedOk(runs: Table, closedBy: Closers, sweeps: Sweeps) {
    && (forall id :: id in closedBy && closedBy[id].BySweep? ==>
          closedBy[id].sweep in sweeps && id in sweeps[closedBy[id].sweep].reaped)
    && (forall sweep, id :: sweep in sweeps && id in sweeps[sweep].reaped ==>
          id in closedBy && closedBy[id] == BySweep(sweep))
    && (forall id :: id in closedBy && id in runs && closedBy[id].BySweep? ==>
          runs[id].status == Failed && runs[id].error == Some(STALE_RUN_ERROR))
  }

  ghost predicate OwnersOk(w: World) {
    ExecsOk(w.runs, w.execs, w.closedBy) && ClosersOk(w.runs, w.closedBy) && ReapedOk(w.runs, w.closedBy, w.sweeps)
  }

  predicate OpensRun(r: Request) {
    r.Created? || r.Started?
  }

  ghost predicate RequestOk(runs: Table, execs: Execs, r: Request) {
    && (OpensRun(r) ==> r.run in runs && r.run !in execs)
    && (r.Started? ==> r.run in runs && runs[r.run].status != Queued)
  }

  ghost predicate RequestsOk(runs: Table, execs: Execs, requests: map<Id, Request>) {
    && (forall q :: q in requests ==> RequestOk(runs, execs, requests[q]))
    && (forall p, q :: p in requests && q in requests && p != q && OpensRun(requests[p]) && OpensRun(requests[q]) ==>
          requests[p].run != requests[q].run)
  }

  // ---- Sweeps ----

  /**
   A sweep reports only rows it closed, each once; and once it has selected, every
   active row older than its cutoff is still among its candidates, untouched.
   */
  ghost predicate SweepOk(latest: int, runs: Table, s: Sweep) {
    && s.cutoff <= latest
    && (forall i, j :: 0 <= i < j < |s.queue| ==> s.queue[i] != s.queue[j])
    && (forall id :: id in s.queue ==> id in s.reaped)
    && (s.published ==> s.selected && s.queue != [] && s.candidates == map[])
    && (!s.selected ==> s.candidates == map[] && s.reaped == {})
    && (s.selected ==> NoneMissed(runs, s))
  }

  ghost predicate NoneMissed(runs: Table, s: Sweep) {
    forall id :: IsActive(runs, id) && runs[id].updatedAt < s.cutoff ==>
      id in s.candidates && s.candidates[id] == runs[id].updatedAt
  }

  ghost predicate SweepsOk(latest: int, runs: Table, sweeps: Sweeps) {
    forall sweep :: sweep in sweeps ==> SweepOk(latest, runs, sweeps[sweep])
  }

  // ---- Provenance ----

  ghost predicate Admissible(catalog: C.Catalog, subjects: map<Id, string>, subject: Id, version: Id) {
    && C.Published(catalog, version) && subject in subjects
    && catalog.versions[version].kind == subjects[subject]
  }

  /** What an executor holds was read from the criteria of its version, and passed the checks. */
  ghost predicate ReadsOk(checks: Checks, rows: Rows, pc: Pc) {
    && (pc.Judging? ==> pc.criteria == rows)
    && (HasDraft(pc) ==> pc.draft.judged == rows && checks.composes(pc.draft.input))
    && (pc.ResultChecked? || pc.VerdictsChecked? ==> checks.coverage(pc.draft.input))
    && (pc.VerdictsChecked? ==> checks.verdicts(rows, pc.draft.input, pc.draft.verdicts))
    && (pc.Recording? ==> checks.findings(rows, pc.draft.input, pc.draft.findings))
  }

  ghost predicate RunsAdmitted(catalog: C.Catalog, subjects: map<Id, string>, runs: Table) {
    forall id :: id in runs ==> Admissible(catalog, subjects, runs[id].subject, runs[id].version)
  }

  ghost predicate RequestsAdmitted(catalog: C.Catalog, subjects: map<Id, string>, requests: map<Id, Request>) {
    forall q :: q in requests && requests[q].Admitted? ==>
      Admissible(catalog, subjects, requests[q].subject, requests[q].version)
  }

  ghost predicate AllReadsOk(checks: Checks, catalog: C.Catalog, runs: Table, execs: Execs) {
    forall id :: id in execs && id in runs ==> ReadsOk(checks, C.Rows(catalog, runs[id].version), execs[id].pc)
  }

  ghost predicate ProvenanceOk(w: World) {
    && C.Inv(w.catalog)
    && RunsAdmitted(w.catalog, w.subjects, w.runs)
    && RequestsAdmitted(w.catalog, w.subjects, w.requests)
    && AllReadsOk(w.checks, w.catalog, w.runs, w.execs)
  }

  // ---- Results ----

  ghost predicate ResultOk(checks: Checks, rows: Rows, result: Archived) {
    checks.coverage(result.input) && checks.verdicts(rows, result.input, result.verdicts)
  }

  ghost predicate ResultsValid(checks: Checks, catalog: C.Catalog, runs: Table, results: map<Id, Archived>) {
    forall id :: id in results && id in runs ==> ResultOk(checks, C.Rows(catalog, runs[id].version), results[id])
  }

  ghost predicate ResultsPlaced(execs: Execs, results: map<Id, Archived>) {
    && (forall id :: id in results ==> id in execs)
    && (forall id :: id in execs ==> ResultFits(execs[id].pc, id in results))
  }

  ghost predicate ResultsOk(w: World) {
    ResultsValid(w.checks, w.catalog, w.runs, w.results) && ResultsPlaced(w.execs, w.results)
  }

  predicate ResultFits(pc: Pc, hasResult: bool) {
    (BeforeResult(pc) ==> !hasResult) && (AfterResult(pc) ==> hasResult)
  }

  // ---- Reports ----

  ghost function Count(log: seq<Report>, channel: Channel, run: Id): nat {
    if log == [] then 0
    else
      var last := log[|log| - 1];
      Count(log[..|log| - 1], channel, run) + if last.channel == channel && last.run == run then 1 else 0
  }

  predicate Reported(pc: Pc, channel: Channel) {
    || pc.Finished? || pc.Abandoned?
    || (channel == Event && (pc.WonPublished? || pc.LostPublished?))
  }

  predicate Pending(s: Sweep, run: Id, channel: Channel) {
    run in s.queue && (channel == Event ==> !(s.published && run == s.queue[0]))
  }

  /** Reports the run's own executor has made on a channel. */
  function OwnReports(execs: Execs, run: Id, channel: Channel): nat {
    if run in execs && Reported(execs[run].pc, channel) then 1 else 0
  }

  /** Reports made by the sweep that closed the run. */
  function SweepReports(closedBy: Closers, sweeps: Sweeps, run: Id, channel: Channel): nat {
    if run in closedBy && closedBy[run].BySweep? && closedBy[run].sweep in sweeps
       && !Pending(sweeps[closedBy[run].sweep], run, channel) then 1 else 0
  }

  ghost predicate Truthful(runs: Table, report: Report) {
    && report.run in runs && !Active(runs[report.run])
    && report.status == runs[report.run].status && report.error == runs[report.run].error
  }

  ghost predicate LogTrue(runs: Table, log: seq<Report>) {
    forall report :: report in log ==> Truthful(runs, report)
  }

  ghost predicate CountsOk(execs: Execs, closedBy: Closers, sweeps: Sweeps, log: seq<Report>) {
    forall run, channel :: Count(log, channel, run) == OwnReports(execs, run, channel) + SweepReports(closedBy, sweeps, run, channel)
  }

  ghost predicate LogOk(w: World) {
    LogTrue(w.runs, w.log) && CountsOk(w.execs, w.closedBy, w.sweeps, w.log)
  }

  /** The part of the invariant about rows and who acts on them. */
  ghost predicate ControlOk(w: World) {
    && RowsOk(w.now, w.runs) && OwnersOk(w) && RequestsOk(w.runs, w.execs, w.requests)
    && SweepsOk(w.now - w.timeout, w.runs, w.sweeps)
  }

  ghost predicate Inv(w: World) {
    ControlOk(w) && ProvenanceOk(w) && ResultsOk(w) && LogOk(w)
  }

  // ---- Steps of an executor ----

  function RowAfter(run: Run, effect: Effect, now: nat): Run {
    match effect
    case Succeeds => run.(status := Succeeded, finishedAt := Some(now), updatedAt := now)
    case Fails(text) => run.(status := Failed, error := Some(text), finishedAt := Some(now), updatedAt := now)
    case _ => run
  }

  predicate Closes(effect: Effect) {
    effect.Succeeds? || effect.Fails?
  }

  /** One step keeps program point, row and ownership in agreement, and closes only an active row. */
  lemma AdvanceKeepsExecOk(exec: Exec, view: View, choice: Choice, own: bool, now: nat)
    requires Fits(exec.pc, choice) && ExecOk(exec, view.row, own) && RowOk(now, view.row)
    ensures var (pc, effect) := Advance(exec, view, choice);
            && (Closes(effect) ==> Active(view.row))
            && ExecOk(exec.(pc := pc), RowAfter(view.row, effect, now), own || Closes(effect))
  {
  }

  lemma RowsExecutor(w: World, run: Id, choice: Choice)
    requires RowsOk(w.now, w.runs) && OwnersOk(w) && ExecutorEnabled(w, run, choice)
    ensures RowsOk(w.now, ExecutorApply(w, run, choice).runs)
  {
  }

  lemma OwnersExecutor(w: World, run: Id, choice: Choice)
    requires RowsOk(w.now, w.runs) && OwnersOk(w) && ExecutorEnabled(w, run, choice)
    ensures OwnersOk(ExecutorApply(w, run, choice))
  {
    AdvanceKeepsExecOk(w.execs[run], ViewOf(w, run), choice, Own(w.closedBy, run), w.now);
    var (pc, effect) := Advance(w.execs[run], ViewOf(w, run), choice);
    OwnersAfterEffect(w, run, pc, effect);
  }

  lemma OwnersAfterEffect(w: World, run: Id, pc: Pc, effect: Effect)
    requires OwnersOk(w) && run in w.execs && run in w.runs
    requires Closes(effect) ==> Active(w.runs[run])
    requires ExecOk(w.execs[run].(pc := pc), RowAfter(w.runs[run], effect, w.now), Own(w.closedBy, run) || Closes(effect))
    ensures OwnersOk(AfterEffect(w, run, pc, effect))
  {
    var w' := AfterEffect(w, run, pc, effect);
    var e', r' := w.execs[run].(pc := pc), RowAfter(w.runs[run], effect, w.now);
    assert w'.runs == w.runs[run := r'] && w'.execs == w.execs[run := e'];
    ExecsAfterOwnStep(w.runs, w.execs, w.closedBy, run, e', r', w'.closedBy);
    ClosersAfterOwnStep(w.runs, w.closedBy, run, r', w'.closedBy);
    ReapedAfterOwnStep(w.runs, w.closedBy, w.sweeps, run, r', w'.closedBy);
  }

  /** What an executor's step may do to its row and its entry in the history. */
  ghost predicate OwnStep(runs: Table, closedBy: Closers, run: Id, row: Run, closedBy': Closers) {
    && run in runs
    && ((row == runs[run] && closedBy' == closedBy)
        || (Active(runs[run]) && !Active(row) && closedBy' == closedBy[run := ByExecutor]))
  }

  lemma ExecsAfterOwnStep(runs: Table, execs: Execs, closedBy: Closers, run: Id, exec: Exec, row: Run, closedBy': Closers)
    requires ExecsOk(runs, execs, closedBy) && run in execs
    requires OwnStep(runs, closedBy, run, row, closedBy') && ExecOk(exec, row, Own(closedBy', run))
    ensures ExecsOk(runs[run := row], execs[run := exec], closedBy')
  {
  }

  lemma ClosersAfterOwnStep(runs: Table, closedBy: Closers, run: Id, row: Run, closedBy': Closers)
    requires ClosersOk(runs, closedBy) && OwnStep(runs, closedBy, run, row, closedBy')
    ensures ClosersOk(runs[run := row], closedBy')
  {
  }

  lemma ReapedAfterOwnStep(runs: Table, closedBy: Closers, sweeps: Sweeps, run: Id, row: Run, closedBy': Closers)
    requires ClosersOk(runs, closedBy) && ReapedOk(runs, closedBy, sweeps)
    requires OwnStep(runs, closedBy, run, row, closedBy')
    ensures ReapedOk(runs[run := row], closedBy', sweeps)
  {
  }

  // ---- Steps that change one row ----

  lemma RowsAfterRow(now: nat, runs: Table, id: Id, row: Run)
    requires RowsOk(now, runs) && RowOk(now, row)
    requires id in runs && row.subject == runs[id].subject && row.version == runs[id].version
    requires Active(row) ==> Active(runs[id])
    ensures RowsOk(now, runs[id := row])
  {
  }

  lemma RowsAfterInsert(now: nat, runs: Table, id: Id, subject: Id, version: Id)
    requires RowsOk(now, runs) && id !in runs && !Occupied(runs, subject, version)
    ensures RowsOk(now, Inserted(runs, id, subject, version, now))
  {
  }

  lemma ExecsAfterRow(runs: Table, execs: Execs, closedBy: Closers, id: Id, row: Run)
    requires ExecsOk(runs, execs, closedBy) && (id in execs ==> ExecOk(execs[id], row, Own(closedBy, id)))
    requires row.status != Succeeded && !Own(closedBy, id)
    ensures ExecsOk(runs[id := row], execs, closedBy)
  {
  }

  lemma ReapedAfterRow(runs: Table, closedBy: Closers, sweeps: Sweeps, id: Id, row: Run)
    requires ReapedOk(runs, closedBy, sweeps) && id !in closedBy
    ensures ReapedOk(runs[id := row], closedBy, sweeps)
  {
  }

  lemma SweepsAfterRow(latest: int, runs: Table, sweeps: Sweeps, id: Id, row: Run)
    requires SweepsOk(latest, runs, sweeps)
    requires Active(row) ==> row.updatedAt >= latest
    ensures SweepsOk(latest, runs[id := row], sweeps)
  {
    forall sweep | sweep in sweeps ensures SweepOk(latest, runs[id := row], sweeps[sweep]) {
      assert SweepOk(latest, runs, sweeps[sweep]);
    }
  }

  // ---- Heartbeats and the clock ----

  lemma HeartbeatKeeps(w: World, run: Id)
    requires RowsOk(w.now, w.runs) && OwnersOk(w) && RequestsOk(w.runs, w.execs, w.requests)
    requires SweepsOk(w.now - w.timeout, w.runs, w.sweeps)
    ensures var runs := Touch(w.runs, run, w.now);
            && RowsOk(w.now, runs) && OwnersOk(w.(runs := runs)) && RequestsOk(runs, w.execs, w.requests)
            && SweepsOk(w.now - w.timeout, runs, w.sweeps)
  {
    if IsActive(w.runs, run) {
      var row := w.runs[run].(updatedAt := w.now);
      assert Touch(w.runs, run, w.now) == w.runs[run := row];
      RowsAfterRow(w.now, w.runs, run, row);
      OwnersAfterActiveRow(w, run, row);
      SweepsAfterRow(w.now - w.timeout, w.runs, w.sweeps, run, row);
      RequestsAfterTouch(w.runs, w.execs, w.requests, run, row);
    }
  }

  lemma RequestsAfterTouch(runs: Table, execs: Execs, requests: map<Id, Request>, run: Id, row: Run)
    requires RequestsOk(runs, execs, requests) && IsActive(runs, run) && row == runs[run].(updatedAt := row.updatedAt)
    ensures RequestsOk(runs[run := row], execs, requests)
  {
  }

  lemma TickKeeps(w: World, delta: nat)
    requires RowsOk(w.now, w.runs) && SweepsOk(w.now - w.timeout, w.runs, w.sweeps)
    ensures RowsOk(w.now + delta, w.runs) && SweepsOk(w.now + delta - w.timeout, w.runs, w.sweeps)
  {
    forall sweep | sweep in w.sweeps ensures SweepOk(w.now + delta - w.timeout, w.runs, w.sweeps[sweep]) {
      assert SweepOk(w.now - w.timeout, w.runs, w.sweeps[sweep]);
    }
  }

  // ---- Executors on requests and sweeps ----

  lemma RequestsAfterOwnStep(runs: Table, execs: Execs, requests: map<Id, Request>, run: Id, exec: Exec, row: Run)
    requires RequestsOk(runs, execs, requests) && run in execs && run in runs
    ensures RequestsOk(runs[run := row], execs[run := exec], requests)
  {
    forall q | q in requests ensures RequestOk(runs[run := row], execs[run := exec], requests[q]) {
      assert RequestOk(runs, execs, requests[q]);
    }
  }

  lemma ExecutorKeepsOthers(w: World, run: Id, pc: Pc, effect: Effect)
    requires run in w.execs && run in w.runs && (Closes(effect) ==> Active(w.runs[run]))
    requires RequestsOk(w.runs, w.execs, w.requests) && SweepsOk(w.now - w.timeout, w.runs, w.sweeps)
    ensures var w' := AfterEffect(w, run, pc, effect);
            RequestsOk(w'.runs, w'.execs, w'.requests) && SweepsOk(w'.now - w'.timeout, w'.runs, w'.sweeps)
  {
    var w' := AfterEffect(w, run, pc, effect);
    var row := RowAfter(w.runs[run], effect, w.now);
    assert w'.runs == w.runs[run := row];
    RequestsAfterOwnStep(w.runs, w.execs, w.requests, run, w.execs[run].(pc := pc), row);
    if Closes(effect) {
      SweepsAfterRow(w.now - w.timeout, w.runs, w.sweeps, run, row);
    } else {
      assert w'.runs == w.runs;
    }
  }

  // ---- Request handlers ----

  lemma HandlerKeepsRows(w: World, q: Id, step: HandlerStep)
    requires RowsOk(w.now, w.runs) && RequestsOk(w.runs, w.execs, w.requests) && HandlerEnabled(w, q, step)
    ensures RowsOk(w.now, HandlerApply(w, q, step).runs)
  {
    if step.Insert? {
      if !Occupied(w.runs, w.requests[q].subject, w.requests[q].version) {
        RowsAfterInsert(w.now, w.runs, step.run, w.requests[q].subject, w.requests[q].version);
      }
    } else if step.Start? {
      var run := w.requests[q].run;
      assert RequestOk(w.runs, w.execs, w.requests[q]);
      if w.runs[run].status == Queued {
        RowsAfterRow(w.now, w.runs, run, w.runs[run].(status := Running, startedAt := Some(w.now), updatedAt := w.now));
      }
    }
  }

  lemma HandlerKeepsSweeps(w: World, q: Id, step: HandlerStep)
    requires SweepsOk(w.now - w.timeout, w.runs, w.sweeps) && HandlerEnabled(w, q, step)
    ensures SweepsOk(w.now - w.timeout, HandlerApply(w, q, step).runs, w.sweeps)
  {
    if step.Insert? {
      if !Occupied(w.runs, w.requests[q].subject, w.requests[q].version) {
        SweepsAfterRow(w.now - w.timeout, w.runs, w.sweeps, step.run,
                       Run(w.requests[q].subject, w.requests[q].version, Queued, None, None, None, w.now, w.now));
      }
    } else if step.Start? {
      var run := w.requests[q].run;
      if run in w.runs && w.runs[run].status == Queued {
        SweepsAfterRow(w.now - w.timeout, w.runs, w.sweeps, run,
                       w.runs[run].(status := Running, startedAt := Some(w.now), updatedAt := w.now));
      }
    }
  }

  lemma HandlerKeepsOwners(w: World, q: Id, step: HandlerStep)
    requires RowsOk(w.now, w.runs) && OwnersOk(w) && RequestsOk(w.runs, w.execs, w.requests) && HandlerEnabled(w, q, step)
    ensures OwnersOk(HandlerApply(w, q, step))
  {
    var w' := HandlerApply(w, q, step);
    if step.Insert? && !Refused(w, q) {
      OwnersAfterActiveRow(w, step.run, w'.runs[step.run]);
    } else if step.Start? {
      assert RequestOk(w.runs, w.execs, w.requests[q]);
      if w.runs[w.requests[q].run].status == Queued {
        OwnersAfterActiveRow(w, w.requests[q].run, w'.runs[w.requests[q].run]);
      }
    } else if step.Open? {
      assert RequestOk(w.runs, w.execs, w.requests[q]);
      OwnersAfterOpen(w, w.requests[q].run);
    }
  }

  lemma OwnersAfterActiveRow(w: World, id: Id, row: Run)
    requires OwnersOk(w) && Active(row) && (id in w.runs ==> Active(w.runs[id]))
    requires id in w.execs ==> ExecOk(w.execs[id], row, false)
    ensures OwnersOk(w.(runs := w.runs[id := row]))
  {
    ExecsAfterRow(w.runs, w.execs, w.closedBy, id, row);
    ReapedAfterRow(w.runs, w.closedBy, w.sweeps, id, row);
  }

  lemma OwnersAfterOpen(w: World, run: Id)
    requires OwnersOk(w) && run in w.runs && run !in w.execs && w.runs[run].status != Queued
    ensures OwnersOk(w.(execs := w.execs[run := Exec(w.runs[run].startedAt, Collecting)]))
  {
  }

  lemma HandlerKeepsRequests(w: World, q: Id, step: HandlerStep)
    requires RequestsOk(w.runs, w.execs, w.requests) && HandlerEnabled(w, q, step)
    requires ExecsOk(w.runs, w.execs, w.closedBy)
    ensures var w' := HandlerApply(w, q, step); RequestsOk(w'.runs, w'.execs, w'.requests)
  {
    var w' := HandlerApply(w, q, step);
    forall p | p in w'.requests ensures RequestOk(w'.runs, w'.execs, w'.requests[p]) {
      if p in w.requests {
        assert RequestOk(w.runs, w.execs, w.requests[p]);
        assert step.Open? && OpensRun(w.requests[p]) && p != q ==> OpensRun(w.requests[q]);
      }
    }
  }

  // ---- Sweeps ----

  lemma ReapKeepsRows(w: World, id: Id, step: SweepStep)
    requires RowsOk(w.now, w.runs) && SweepEnabled(w, id, step)
    ensures RowsOk(w.now, SweepApply(w, id, step).runs)
  {
    if step.Reap? && Reapable(w.runs, step.run, w.sweeps[id].candidates[step.run]) {
      RowsAfterRow(w.now, w.runs, step.run, ReapedRow(w, step.run));
    }
  }

  function ReapedRow(w: World, run: Id): Run
    requires run in w.runs
  {
    w.runs[run].(status := Failed, error := Some(STALE_RUN_ERROR), finishedAt := Some(w.now), updatedAt := w.now)
  }

  lemma ReapKeepsRequests(w: World, id: Id, step: SweepStep)
    requires RequestsOk(w.runs, w.execs, w.requests) && SweepEnabled(w, id, step)
    ensures var w' := SweepApply(w, id, step); RequestsOk(w'.runs, w'.execs, w'.requests)
  {
    var w' := SweepApply(w, id, step);
    forall q | q in w'.requests ensures RequestOk(w'.runs, w'.execs, w'.requests[q]) {
      assert RequestOk(w.runs, w.execs, w.requests[q]);
    }
  }

  lemma ReapKeepsOwners(w: World, id: Id, step: SweepStep)
    requires OwnersOk(w) && SweepEnabled(w, id, step)
    requires id in w.sweeps && !w.sweeps[id].selected ==> w.sweeps[id].reaped == {}
    ensures OwnersOk(SweepApply(w, id, step))
  {
    var s' := NextSweep(w, id, step);
    if Hits(w, id, step) {
      OwnersAfterReap(w, step.run, ReapedRow(w, step.run), id, s');
    } else {
      ReapedAfterSweepChange(w.runs, w.closedBy, w.sweeps, id, s');
    }
  }

  lemma OwnersAfterReap(w: World, run: Id, row: Run, id: Id, s: Sweep)
    requires OwnersOk(w) && IsActive(w.runs, run) && id in w.sweeps && s.reaped == w.sweeps[id].reaped + {run}
    requires row.status == Failed && row.error == Some(STALE_RUN_ERROR) && row.startedAt == w.runs[run].startedAt
    ensures OwnersOk(w.(runs := w.runs[run := row], closedBy := w.closedBy[run := BySweep(id)], sweeps := w.sweeps[id := s]))
  {
    ExecsAfterReap(w.runs, w.execs, w.closedBy, run, row, id);
    ReapedAfterReap(w.runs, w.closedBy, w.sweeps, run, row, id, s);
  }

  lemma ExecsAfterReap(runs: Table, execs: Execs, closedBy: Closers, run: Id, row: Run, sweep: Id)
    requires ExecsOk(runs, execs, closedBy) && IsActive(runs, run)
    requires row.status == Failed && row.startedAt == runs[run].startedAt
    ensures ExecsOk(runs[run := row], execs, closedBy[run := BySweep(sweep)])
  {
  }

  lemma ReapedAfterReap(runs: Table, closedBy: Closers, sweeps: Sweeps, run: Id, row: Run, sweep: Id, s: Sweep)
    requires ReapedOk(runs, closedBy, sweeps) && ClosersOk(runs, closedBy) && IsActive(runs, run) && sweep in sweeps
    requires s.reaped == sweeps[sweep].reaped + {run}
    requires row.status == Failed && row.error == Some(STALE_RUN_ERROR)
    ensures ReapedOk(runs[run := row], closedBy[run := BySweep(sweep)], sweeps[sweep := s])
  {
  }

  lemma ReapedAfterSweepChange(runs: Table, closedBy: Closers, sweeps: Sweeps, sweep: Id, s: Sweep)
    requires ReapedOk(runs, closedBy, sweeps)
    requires s.reaped == if sweep in sweeps then sweeps[sweep].reaped else {}
    ensures ReapedOk(runs, closedBy, sweeps[sweep := s])
  {
  }

  lemma SweepKeepsSweeps(w: World, id: Id, step: SweepStep)
    requires SweepsOk(w.now - w.timeout, w.runs, w.sweeps) && OwnersOk(w) && SweepEnabled(w, id, step)
    ensures var w' := SweepApply(w, id, step); SweepsOk(w'.now - w'.timeout, w'.runs, w'.sweeps)
  {
    var latest := w.now - w.timeout;
    if Hits(w, id, step) {
      assert SweepOk(latest, w.runs, w.sweeps[id]);
      ReapKeepsItsSweep(latest, w.runs, w.closedBy, w.sweeps, id, step.run, ReapedRow(w, step.run));
      SweepsAfterRow(latest, w.runs, w.sweeps, step.run, ReapedRow(w, step.run));
    } else {
      QuietSweepStep(w, id, step);
    }
  }

  lemma QuietSweepStep(w: World, id: Id, step: SweepStep)
    requires SweepsOk(w.now - w.timeout, w.runs, w.sweeps) && SweepEnabled(w, id, step) && !Hits(w, id, step)
    ensures var w' := SweepApply(w, id, step); w'.runs == w.runs && SweepsOk(w'.now - w'.timeout, w.runs, w'.sweeps)
  {
    var w' := SweepApply(w, id, step);
    var latest := w.now - w.timeout;
    if id in w.sweeps {
      assert SweepOk(latest, w.runs, w.sweeps[id]);
      var s := w.sweeps[id];
      assert s.published ==> s.queue[0] in s.queue;
      assert NoneMissed(w.runs, s) || !s.selected;
    }
    assert SweepOk(latest, w.runs, w'.sweeps[id]);
  }

  lemma ReapKeepsItsSweep(latest: int, runs: Table, closedBy: Closers, sweeps: Sweeps, id: Id, run: Id, row: Run)
    requires id in sweeps && SweepOk(latest, runs, sweeps[id]) && ReapedOk(runs, closedBy, sweeps) && ClosersOk(runs, closedBy)
    requires sweeps[id].selected && run in sweeps[id].candidates && Reapable(runs, run, sweeps[id].candidates[run])
    requires !Active(row)
    ensures var s := sweeps[id];
            SweepOk(latest, runs[run := row],
                    s.(candidates := s.candidates - {run}, reaped := s.reaped + {run}, queue := s.queue + [run]))
  {
    assert run !in sweeps[id].reaped;
    assert !sweeps[id].published;
  }

  // ---- Provenance and results ----

  lemma AdvanceKeepsReadsOk(exec: Exec, view: View, choice: Choice)
    requires Fits(exec.pc, choice) && ReadsOk(view.checks, view.criteria, exec.pc) && ResultFits(exec.pc, view.hasResult)
    ensures var (pc, effect) := Advance(exec, view, choice);
            && ReadsOk(view.checks, view.criteria, pc)
            && ResultFits(pc, view.hasResult || effect.Stores?)
            && (effect.Stores? ==> ResultOk(view.checks, view.criteria, effect.result))
  {
  }

  /** Rows may change, but not the subject and version they were opened with. */
  ghost predicate SameOrigins(runs: Table, runs': Table) {
    && runs'.Keys == runs.Keys
    && forall id :: id in runs ==> runs'[id].version == runs[id].version && runs'[id].subject == runs[id].subject
  }

  lemma OriginsSuffice(w: World, runs': Table)
    requires ProvenanceOk(w) && ResultsOk(w) && SameOrigins(w.runs, runs')
    ensures ProvenanceOk(w.(runs := runs')) && ResultsOk(w.(runs := runs'))
  {
  }

  lemma ReadsAfterStep(checks: Checks, catalog: C.Catalog, runs: Table, execs: Execs, run: Id, exec: Exec)
    requires AllReadsOk(checks, catalog, runs, execs)
    requires run in runs ==> ReadsOk(checks, C.Rows(catalog, runs[run].version), exec.pc)
    ensures AllReadsOk(checks, catalog, runs, execs[run := exec])
  {
  }

  lemma EffectKeepsOrigins(w: World, run: Id, pc: Pc, effect: Effect)
    requires run in w.execs && run in w.runs
    ensures SameOrigins(w.runs, AfterEffect(w, run, pc, effect).runs)
  {
  }

  lemma EffectKeepsProvenance(w: World, run: Id, pc: Pc, effect: Effect)
    requires ProvenanceOk(w) && ResultsOk(w) && run in w.execs && run in w.runs
    requires ReadsOk(w.checks, C.Rows(w.catalog, w.runs[run].version), pc)
    requires ResultFits(pc, run in w.results || effect.Stores?)
    requires effect.Stores? ==> ResultOk(w.checks, C.Rows(w.catalog, w.runs[run].version), effect.result)
    ensures ProvenanceOk(AfterEffect(w, run, pc, effect)) && ResultsOk(AfterEffect(w, run, pc, effect))
  {
    var exec := w.execs[run].(pc := pc);
    var results' := if effect.Stores? then w.results[run := effect.result] else w.results;
    ReadsAfterStep(w.checks, w.catalog, w.runs, w.execs, run, exec);
    ResultsAfterStep(w.checks, w.catalog, w.runs, w.results, run, results');
    PlacesAfterStep(w.execs, w.results, run, exec, results');
    EffectKeepsOrigins(w, run, pc, effect);
    OriginsSuffice(w.(execs := w.execs[run := exec], results := results'), AfterEffect(w, run, pc, effect).runs);
  }

  lemma ResultsAfterStep(
    checks: Checks, catalog: C.Catalog, runs: Table, results: map<Id, Archived>, run: Id, results': map<Id, Archived>)
    requires ResultsValid(checks, catalog, runs, results) && run in runs
    requires results' == results
          || (run in results' && results' == results[run := results'[run]]
              && ResultOk(checks, C.Rows(catalog, runs[run].version), results'[run]))
    ensures ResultsValid(checks, catalog, runs, results')
  {
    forall id | id in results' && id in runs ensures ResultOk(checks, C.Rows(catalog, runs[id].version), results'[id]) {
      if id in results && results'[id] == results[id] {
        assert ResultOk(checks, C.Rows(catalog, runs[id].version), results[id]);
      }
    }
  }

  lemma PlacesAfterStep(execs: Execs, results: map<Id, Archived>, run: Id, exec: Exec, results': map<Id, Archived>)
    requires ResultsPlaced(execs, results) && run in execs
    requires results' == results || (run in results' && results' == results[run := results'[run]])
    requires ResultFits(exec.pc, run in results')
    ensures ResultsPlaced(execs[run := exec], results')
  {
  }

  lemma ExecutorKeepsProvenance(w: World, run: Id, choice: Choice)
    requires ProvenanceOk(w) && ResultsOk(w) && ExecutorEnabled(w, run, choice)
    ensures ProvenanceOk(ExecutorApply(w, run, choice)) && ResultsOk(ExecutorApply(w, run, choice))
  {
    AdvanceKeepsReadsOk(w.execs[run], ViewOf(w, run), choice);
    var (pc, effect) := Advance(w.execs[run], ViewOf(w, run), choice);
    EffectKeepsProvenance(w, run, pc, effect);
  }

  /** Administration of criteria cannot reach what a run depends on. */
  lemma AdministerKeepsProvenance(w: World, step: C.Action)
    requires ProvenanceOk(w) && ResultsOk(w) && ExecsOk(w.runs, w.execs, w.closedBy) && C.Enabled(w.catalog, step)
    ensures ProvenanceOk(w.(catalog := C.Apply(w.catalog, step))) && ResultsOk(w.(catalog := C.Apply(w.catalog, step)))
  {
    C.InvIsPreserved(w.catalog, step);
    var catalog' := C.Apply(w.catalog, step);
    forall version | C.Published(w.catalog, version)
      ensures C.Published(catalog', version) && catalog'.versions[version] == w.catalog.versions[version]
      ensures C.Rows(catalog', version) == C.Rows(w.catalog, version)
    {
      C.PublishedIsFrozen(w.catalog, step, version);
    }
    CatalogChange(w, catalog');
  }

  lemma CatalogChange(w: World, catalog': C.Catalog)
    requires ProvenanceOk(w) && ResultsOk(w) && C.Inv(catalog')
    requires forall version :: C.Published(w.catalog, version) ==>
               && C.Published(catalog', version) && catalog'.versions[version] == w.catalog.versions[version]
               && C.Rows(catalog', version) == C.Rows(w.catalog, version)
    ensures ProvenanceOk(w.(catalog := catalog')) && ResultsOk(w.(catalog := catalog'))
  {
    forall id | id in w.runs ensures C.Rows(catalog', w.runs[id].version) == C.Rows(w.catalog, w.runs[id].version) {
      assert Admissible(w.catalog, w.subjects, w.runs[id].subject, w.runs[id].version);
    }
  }

  lemma RequestsStayAdmitted(w: World, q: Id, step: HandlerStep)
    requires RequestsAdmitted(w.catalog, w.subjects, w.requests) && HandlerEnabled(w, q, step)
    ensures RequestsAdmitted(w.catalog, w.subjects, RequestsAfter(w, q, step))
  {
  }

  lemma RequestsChange(w: World, requests': map<Id, Request>)
    requires ProvenanceOk(w) && ResultsOk(w) && RequestsAdmitted(w.catalog, w.subjects, requests')
    ensures ProvenanceOk(w.(requests := requests')) && ResultsOk(w.(requests := requests'))
  {
  }

  lemma OpeningKeepsProvenance(w: World, run: Id, exec: Exec)
    requires ProvenanceOk(w) && ResultsOk(w) && run !in w.execs && exec.pc.Collecting?
    ensures ProvenanceOk(w.(execs := w.execs[run := exec])) && ResultsOk(w.(execs := w.execs[run := exec]))
  {
    ReadsAfterStep(w.checks, w.catalog, w.runs, w.execs, run, exec);
    PlacesAfterOpen(w.execs, w.results, run, exec);
  }

  /** The world after a request handler's step, but for the request itself. */
  function BesidesRequests(w: World, q: Id, step: HandlerStep): World
    requires HandlerEnabled(w, q, step)
  {
    HandlerApply(w, q, step).(requests := w.requests)
  }

  lemma InsertKeepsProvenance(w: World, q: Id, run: Id)
    requires ProvenanceOk(w) && ResultsOk(w) && HandlerEnabled(w, q, Insert(run)) && ExecsOk(w.runs, w.execs, w.closedBy)
    ensures ProvenanceOk(BesidesRequests(w, q, Insert(run))) && ResultsOk(BesidesRequests(w, q, Insert(run)))
  {
    if !Refused(w, q) {
      NewRunKeepsProvenance(w, run, Run(w.requests[q].subject, w.requests[q].version, Queued, None, None, None, w.now, w.now));
    }
  }

  lemma BesidesRequestsKeepsProvenance(w: World, q: Id, step: HandlerStep)
    requires ProvenanceOk(w) && ResultsOk(w) && HandlerEnabled(w, q, step)
    requires RequestsOk(w.runs, w.execs, w.requests) && ExecsOk(w.runs, w.execs, w.closedBy)
    ensures ProvenanceOk(BesidesRequests(w, q, step)) && ResultsOk(BesidesRequests(w, q, step))
  {
    match step {
      case ReadSubject(_) =>
      case ReadVersion(_) =>
      case Insert(run) => InsertKeepsProvenance(w, q, run);
      case Start => OriginsSuffice(w, MarkRunning(w.runs, w.requests[q].run, w.now));
      case Open =>
        assert RequestOk(w.runs, w.execs, w.requests[q]);
        OpeningKeepsProvenance(w, w.requests[q].run, Exec(w.runs[w.requests[q].run].startedAt, Collecting));
    }
  }

  lemma HandlerKeepsProvenance(w: World, q: Id, step: HandlerStep)
    requires ProvenanceOk(w) && ResultsOk(w) && HandlerEnabled(w, q, step)
    requires RequestsOk(w.runs, w.execs, w.requests) && ExecsOk(w.runs, w.execs, w.closedBy)
    ensures ProvenanceOk(HandlerApply(w, q, step)) && ResultsOk(HandlerApply(w, q, step))
  {
    BesidesRequestsKeepsProvenance(w, q, step);
    RequestsStayAdmitted(w, q, step);
    RequestsChange(BesidesRequests(w, q, step), RequestsAfter(w, q, step));
  }

  lemma NewRunKeepsProvenance(w: World, run: Id, row: Run)
    requires ProvenanceOk(w) && ResultsOk(w) && ExecsOk(w.runs, w.execs, w.closedBy) && run !in w.runs
    requires Admissible(w.catalog, w.subjects, row.subject, row.version)
    ensures ProvenanceOk(w.(runs := w.runs[run := row])) && ResultsOk(w.(runs := w.runs[run := row]))
  {
  }

  lemma PlacesAfterOpen(execs: Execs, results: map<Id, Archived>, run: Id, exec: Exec)
    requires ResultsPlaced(execs, results) && run !in execs && exec.pc.Collecting?
    ensures ResultsPlaced(execs[run := exec], results)
  {
  }

  // ---- Terminal rows and reports ----

  /** No step changes a row that is no longer active, and none removes a row. */
  ghost predicate Frozen(runs: Table, runs': Table) {
    forall id :: id in runs ==> id in runs' && (!Active(runs[id]) ==> runs'[id] == runs[id])
  }

  lemma TerminalRowsAreFrozen(w: World, a: Action)
    requires Enabled(w, a)
    ensures Frozen(w.runs, Apply(w, a).runs)
  {
    match a {
      case Tick(_) =>
      case Administer(_) =>
      case Handle(q, step) => HandlerFreezes(w, q, step);
      case Execute(run, choice) => ExecutorFreezes(w, run, choice);
      case Heartbeat(run) =>
      case SweepBy(id, step) => SweepFreezes(w, id, step);
    }
  }

  lemma HandlerFreezes(w: World, q: Id, step: HandlerStep)
    requires HandlerEnabled(w, q, step)
    ensures Frozen(w.runs, HandlerApply(w, q, step).runs)
  {
  }

  lemma ExecutorFreezes(w: World, run: Id, choice: Choice)
    requires ExecutorEnabled(w, run, choice)
    ensures Frozen(w.runs, ExecutorApply(w, run, choice).runs)
  {
    var (pc, effect) := Advance(w.execs[run], ViewOf(w, run), choice);
    EffectFreezes(w, run, pc, effect);
  }

  lemma SweepFreezes(w: World, id: Id, step: SweepStep)
    requires SweepEnabled(w, id, step)
    ensures Frozen(w.runs, SweepApply(w, id, step).runs)
  {
  }

  lemma EffectFreezes(w: World, run: Id, pc: Pc, effect: Effect)
    requires run in w.execs && run in w.runs
    ensures Frozen(w.runs, AfterEffect(w, run, pc, effect).runs)
  {
  }

  lemma LogStaysTrue(runs: Table, runs': Table, log: seq<Report>, log': seq<Report>)
    requires LogTrue(runs, log) && Frozen(runs, runs')
    requires log' == log || (exists report :: log' == log + [report] && Truthful(runs', report))
    ensures LogTrue(runs', log')
  {
    forall report | report in log ensures Truthful(runs', report) {
      assert Truthful(runs, report);
    }
  }

  lemma CountOneMore(log: seq<Report>, report: Report, channel: Channel, run: Id)
    ensures Count(log + [report], channel, run)
         == Count(log, channel, run) + if report.channel == channel && report.run == run then 1 else 0
  {
    assert (log + [report])[..|log|] == log;
  }

  /** A step reports on a channel exactly when it moves past that report, and never twice. */
  lemma AdvanceReportsOnce(exec: Exec, view: View, choice: Choice, channel: Channel)
    requires Fits(exec.pc, choice)
    ensures var (pc, effect) := Advance(exec, view, choice);
            var says := effect.Says? && effect.channel == channel;
            && (Reported(pc, channel) <==> Reported(exec.pc, channel) || says)
            && (says ==> !Reported(exec.pc, channel))
  {
  }

  lemma AdvanceReportsTruth(exec: Exec, view: View, choice: Choice, own: bool, now: nat)
    requires Fits(exec.pc, choice) && ExecOk(exec, view.row, own) && RowOk(now, view.row)
    ensures var (pc, effect) := Advance(exec, view, choice);
            effect.Says? ==> !Active(view.row) && effect.status == view.row.status && effect.error == view.row.error
  {
  }

  lemma ExecutorKeepsLog(w: World, run: Id, choice: Choice)
    requires RowsOk(w.now, w.runs) && OwnersOk(w) && LogOk(w) && ExecutorEnabled(w, run, choice)
    ensures LogOk(ExecutorApply(w, run, choice))
  {
    var exec, view := w.execs[run], ViewOf(w, run);
    AdvanceKeepsExecOk(exec, view, choice, Own(w.closedBy, run), w.now);
    AdvanceReportsTruth(exec, view, choice, Own(w.closedBy, run), w.now);
    var (pc, effect) := Advance(exec, view, choice);
    forall channel ensures SaysOnce(exec.pc, pc, effect, channel) {
      AdvanceReportsOnce(exec, view, choice, channel);
    }
    EffectKeepsTruth(w, run, pc, effect);
    EffectKeepsCounts(w, run, pc, effect);
  }

  lemma EffectKeepsTruth(w: World, run: Id, pc: Pc, effect: Effect)
    requires run in w.execs && run in w.runs && LogTrue(w.runs, w.log)
    requires effect.Says? ==>
               !Active(w.runs[run]) && effect.status == w.runs[run].status && effect.error == w.runs[run].error
    ensures var w' := AfterEffect(w, run, pc, effect); LogTrue(w'.runs, w'.log)
  {
    EffectFreezes(w, run, pc, effect);
    var w' := AfterEffect(w, run, pc, effect);
    if effect.Says? {
      assert Truthful(w'.runs, Report(effect.channel, ByExecutor, run, effect.status, effect.error));
    }
    LogStaysTrue(w.runs, w'.runs, w.log, w'.log);
  }

  ghost predicate SaysOnce(before: Pc, after: Pc, effect: Effect, channel: Channel) {
    var says := effect.Says? && effect.channel == channel;
    (Reported(after, channel) <==> Reported(before, channel) || says) && (says ==> !Reported(before, channel))
  }

  lemma EffectKeepsCounts(w: World, run: Id, pc: Pc, effect: Effect)
    requires run in w.execs && run in w.runs && ClosersOk(w.runs, w.closedBy)
    requires CountsOk(w.execs, w.closedBy, w.sweeps, w.log)
    requires Closes(effect) ==> Active(w.runs[run])
    requires forall channel :: SaysOnce(w.execs[run].pc, pc, effect, channel)
    ensures var w' := AfterEffect(w, run, pc, effect); CountsOk(w'.execs, w'.closedBy, w'.sweeps, w'.log)
  {
    var w' := AfterEffect(w, run, pc, effect);
    forall id, channel
      ensures Count(w'.log, channel, id) == OwnReports(w'.execs, id, channel) + SweepReports(w'.closedBy, w'.sweeps, id, channel)
    {
      assert SaysOnce(w.execs[run].pc, pc, effect, channel);
      assert Count(w.log, channel, id) == OwnReports(w.execs, id, channel) + SweepReports(w.closedBy, w.sweeps, id, channel);
      if effect.Says? {
        CountOneMore(w.log, Report(effect.channel, ByExecutor, run, effect.status, effect.error), channel, id);
      }
    }
  }

  lemma SweepKeepsLog(w: World, id: Id, step: SweepStep)
    requires OwnersOk(w) && SweepsOk(w.now - w.timeout, w.runs, w.sweeps) && LogOk(w) && SweepEnabled(w, id, step)
    ensures LogOk(SweepApply(w, id, step))
  {
    var w' := SweepApply(w, id, step);
    SweepFreezes(w, id, step);
    if step.Publish? || step.Notify? {
      var run := w.sweeps[id].queue[0];
      assert SweepOk(w.now - w.timeout, w.runs, w.sweeps[id]);
      assert run in w.sweeps[id].queue;
      assert Truthful(w.runs, w'.log[|w.log|]);
    }
    LogStaysTrue(w.runs, w'.runs, w.log, w'.log);
    match step {
      case Begin => BeginCounts(w.execs, w.closedBy, w.sweeps, w.log, id, w'.sweeps[id]);
      case Select => CandidatesDoNotCount(w.execs, w.closedBy, w.sweeps, w.log, id, w'.sweeps[id]);
      case Reap(run) =>
        if Reapable(w.runs, run, w.sweeps[id].candidates[run]) {
          ReapCounts(w.execs, w.closedBy, w.sweeps, w.log, id, run, w'.sweeps[id]);
        } else {
          CandidatesDoNotCount(w.execs, w.closedBy, w.sweeps, w.log, id, w'.sweeps[id]);
        }
      case Publish => PublishCounts(w.execs, w.closedBy, w.sweeps, w.log, id);
      case Notify => NotifyCounts(w.execs, w.closedBy, w.sweeps, w.log, id);
    }
  }

  lemma BeginCounts(execs: Execs, closedBy: Closers, sweeps: Sweeps, log: seq<Report>, id: Id, s: Sweep)
    requires CountsOk(execs, closedBy, sweeps, log) && id !in sweeps
    requires forall run :: run in closedBy && closedBy[run].BySweep? ==> closedBy[run].sweep in sweeps
    ensures CountsOk(execs, closedBy, sweeps[id := s], log)
  {
    forall run, channel
      ensures SweepReports(closedBy, sweeps[id := s], run, channel) == SweepReports(closedBy, sweeps, run, channel)
    {
    }
  }

  lemma CandidatesDoNotCount(execs: Execs, closedBy: Closers, sweeps: Sweeps, log: seq<Report>, id: Id, s: Sweep)
    requires CountsOk(execs, closedBy, sweeps, log) && id in sweeps
    requires s.queue == sweeps[id].queue && s.published == sweeps[id].published
    ensures CountsOk(execs, closedBy, sweeps[id := s], log)
  {
    forall run, channel
      ensures SweepReports(closedBy, sweeps[id := s], run, channel) == SweepReports(closedBy, sweeps, run, channel)
    {
    }
  }

  lemma ReapCounts(execs: Execs, closedBy: Closers, sweeps: Sweeps, log: seq<Report>, id: Id, run: Id, s: Sweep)
    requires CountsOk(execs, closedBy, sweeps, log) && id in sweeps && run !in closedBy
    requires s.queue == sweeps[id].queue + [run] && !s.published && !sweeps[id].published
    ensures CountsOk(execs, closedBy[run := BySweep(id)], sweeps[id := s], log)
  {
    forall other, channel
      ensures SweepReports(closedBy[run := BySweep(id)], sweeps[id := s], other, channel)
           == SweepReports(closedBy, sweeps, other, channel)
    {
    }
  }

  lemma PublishCounts(execs: Execs, closedBy: Closers, sweeps: Sweeps, log: seq<Report>, id: Id)
    requires CountsOk(execs, closedBy, sweeps, log) && id in sweeps && sweeps[id].queue != [] && !sweeps[id].published
    requires sweeps[id].queue[0] in closedBy && closedBy[sweeps[id].queue[0]] == BySweep(id)
    ensures CountsOk(execs, closedBy, sweeps[id := sweeps[id].(published := true)],
                     log + [Report(Event, BySweep(id), sweeps[id].queue[0], Failed, Some(STALE_RUN_ERROR))])
  {
    var sweeps' := sweeps[id := sweeps[id].(published := true)];
    var report := Report(Event, BySweep(id), sweeps[id].queue[0], Failed, Some(STALE_RUN_ERROR));
    assert sweeps[id].queue[0] in sweeps[id].queue;
    forall run, channel
      ensures Count(log + [report], channel, run)
           == OwnReports(execs, run, channel) + SweepReports(closedBy, sweeps', run, channel)
    {
      CountOneMore(log, report, channel, run);
      assert Count(log, channel, run) == OwnReports(execs, run, channel) + SweepReports(closedBy, sweeps, run, channel);
    }
  }

  lemma NotifyCounts(execs: Execs, closedBy: Closers, sweeps: Sweeps, log: seq<Report>, id: Id)
    requires CountsOk(execs, closedBy, sweeps, log) && id in sweeps && sweeps[id].queue != [] && sweeps[id].published
    requires forall i, j :: 0 <= i < j < |sweeps[id].queue| ==> sweeps[id].queue[i] != sweeps[id].queue[j]
    requires sweeps[id].queue[0] in closedBy && closedBy[sweeps[id].queue[0]] == BySweep(id)
    ensures CountsOk(execs, closedBy, sweeps[id := sweeps[id].(published := false, queue := sweeps[id].queue[1..])],
                     log + [Report(Observer, BySweep(id), sweeps[id].queue[0], Failed, Some(STALE_RUN_ERROR))])
  {
    var queue := sweeps[id].queue;
    var sweeps' := sweeps[id := sweeps[id].(published := false, queue := queue[1..])];
    var report := Report(Observer, BySweep(id), queue[0], Failed, Some(STALE_RUN_ERROR));
    assert queue == [queue[0]] + queue[1..];
    assert queue[0] in queue && queue[0] !in queue[1..];
    forall run, channel
      ensures Count(log + [report], channel, run)
           == OwnReports(execs, run, channel) + SweepReports(closedBy, sweeps', run, channel)
    {
      CountOneMore(log, report, channel, run);
      assert Count(log, channel, run) == OwnReports(execs, run, channel) + SweepReports(closedBy, sweeps, run, channel);
    }
  }

  lemma HandlerKeepsLog(w: World, q: Id, step: HandlerStep)
    requires LogOk(w) && HandlerEnabled(w, q, step) && RequestsOk(w.runs, w.execs, w.requests)
    ensures LogOk(HandlerApply(w, q, step))
  {
    var w' := HandlerApply(w, q, step);
    HandlerFreezes(w, q, step);
    LogStaysTrue(w.runs, w'.runs, w.log, w'.log);
    if step.Open? {
      assert RequestOk(w.runs, w.execs, w.requests[q]);
      forall run, channel ensures OwnReports(w'.execs, run, channel) == OwnReports(w.execs, run, channel) {
      }
    }
  }

  // ---- The invariant as a whole ----

  lemma HandlerKeepsInv(w: World, q: Id, step: HandlerStep)
    requires Inv(w) && HandlerEnabled(w, q, step)
    ensures Inv(HandlerApply(w, q, step))
  {
    assert ControlOk(HandlerApply(w, q, step)) by { HandlerKeepsControl(w, q, step); }
    assert ProvenanceOk(HandlerApply(w, q, step)) && ResultsOk(HandlerApply(w, q, step)) by {
      HandlerKeepsProvenance(w, q, step);
    }
    assert LogOk(HandlerApply(w, q, step)) by { HandlerKeepsLog(w, q, step); }
  }

  lemma HandlerKeepsControl(w: World, q: Id, step: HandlerStep)
    requires ControlOk(w) && HandlerEnabled(w, q, step)
    ensures ControlOk(HandlerApply(w, q, step))
  {
    var w' := HandlerApply(w, q, step);
    assert w'.now == w.now && w'.timeout == w.timeout && w'.sweeps == w.sweeps;
    assert RowsOk(w'.now, w'.runs) by { HandlerKeepsRows(w, q, step); }
    assert OwnersOk(w') by { HandlerKeepsOwners(w, q, step); }
    assert RequestsOk(w'.runs, w'.execs, w'.requests) by { HandlerKeepsRequests(w, q, step); }
    assert SweepsOk(w'.now - w'.timeout, w'.runs, w'.sweeps) by { HandlerKeepsSweeps(w, q, step); }
  }

  lemma ExecutorKeepsInv(w: World, run: Id, choice: Choice)
    requires Inv(w) && ExecutorEnabled(w, run, choice)
    ensures Inv(ExecutorApply(w, run, choice))
  {
    RowsExecutor(w, run, choice);
    OwnersExecutor(w, run, choice);
    ExecutorKeepsProvenance(w, run, choice);
    ExecutorKeepsLog(w, run, choice);
    ExecutorKeepsRequestsAndSweeps(w, run, choice);
  }

  lemma ExecutorKeepsRequestsAndSweeps(w: World, run: Id, choice: Choice)
    requires RowsOk(w.now, w.runs) && OwnersOk(w) && ExecutorEnabled(w, run, choice)
    requires RequestsOk(w.runs, w.execs, w.requests) && SweepsOk(w.now - w.timeout, w.runs, w.sweeps)
    ensures var w' := ExecutorApply(w, run, choice);
            RequestsOk(w'.runs, w'.execs, w'.requests) && SweepsOk(w'.now - w'.timeout, w'.runs, w'.sweeps)
  {
    AdvanceKeepsExecOk(w.execs[run], ViewOf(w, run), choice, Own(w.closedBy, run), w.now);
    var (pc, effect) := Advance(w.execs[run], ViewOf(w, run), choice);
    ExecutorKeepsOthers(w, run, pc, effect);
  }

  lemma SweepKeepsInv(w: World, id: Id, step: SweepStep)
    requires Inv(w) && SweepEnabled(w, id, step)
    ensures Inv(SweepApply(w, id, step))
  {
    if id in w.sweeps {
      assert SweepOk(w.now - w.timeout, w.runs, w.sweeps[id]);
    }
    ReapKeepsRows(w, id, step);
    ReapKeepsOwners(w, id, step);
    ReapKeepsRequests(w, id, step);
    SweepKeepsSweeps(w, id, step);
    SweepKeepsLog(w, id, step);
    SweepKeepsProvenance(w, id, step);
  }

  lemma SweepKeepsProvenance(w: World, id: Id, step: SweepStep)
    requires ProvenanceOk(w) && ResultsOk(w) && SweepEnabled(w, id, step)
    ensures ProvenanceOk(SweepApply(w, id, step)) && ResultsOk(SweepApply(w, id, step))
  {
    var w' := SweepApply(w, id, step);
    SweepKeepsOrigins(w, id, step);
    OriginsSuffice(w, w'.runs);
    assert ProvenanceOk(w') <==> ProvenanceOk(w.(runs := w'.runs));
    assert ResultsOk(w') <==> ResultsOk(w.(runs := w'.runs));
  }

  lemma TableStepsKeepOrigins(runs: Table, id: Id, error: string, now: nat)
    ensures SameOrigins(runs, Touch(runs, id, now)) && SameOrigins(runs, Fail(runs, id, error, now))
    ensures Frozen(runs, Touch(runs, id, now))
  {
  }

  lemma SweepKeepsOrigins(w: World, id: Id, step: SweepStep)
    requires SweepEnabled(w, id, step)
    ensures SameOrigins(w.runs, SweepApply(w, id, step).runs)
    ensures var w' := SweepApply(w, id, step);
            && w'.checks == w.checks && w'.catalog == w.catalog && w'.subjects == w.subjects && w'.requests == w.requests
            && w'.execs == w.execs && w'.results == w.results
  {
    if step.Reap? {
      TableStepsKeepOrigins(w.runs, step.run, STALE_RUN_ERROR, w.now);
    }
  }

  lemma HeartbeatKeepsInv(w: World, run: Id)
    requires Inv(w)
    ensures Inv(w.(runs := Touch(w.runs, run, w.now)))
  {
    var runs := Touch(w.runs, run, w.now);
    TableStepsKeepOrigins(w.runs, run, "", w.now);
    HeartbeatKeepsRest(w, runs);
    HeartbeatKeeps(w, run);
  }

  lemma HeartbeatKeepsRest(w: World, runs: Table)
    requires ProvenanceOk(w) && ResultsOk(w) && LogOk(w) && SameOrigins(w.runs, runs) && Frozen(w.runs, runs)
    ensures ProvenanceOk(w.(runs := runs)) && ResultsOk(w.(runs := runs)) && LogOk(w.(runs := runs))
  {
    OriginsSuffice(w, runs);
    LogStaysTrue(w.runs, runs, w.log, w.log);
  }

  lemma AdministerKeepsInv(w: World, step: C.Action)
    requires Inv(w) && C.Enabled(w.catalog, step)
    ensures Inv(w.(catalog := C.Apply(w.catalog, step)))
  {
    AdministerKeepsProvenance(w, step);
  }

  lemma InvIsPreserved(w: World, a: Action)
    requires Inv(w) && Enabled(w, a)
    ensures Inv(Apply(w, a))
  {
    match a {
      case Tick(delta) => TickKeeps(w, delta);
      case Administer(step) => AdministerKeepsInv(w, step);
      case Handle(q, step) => HandlerKeepsInv(w, q, step);
      case Execute(run, choice) => ExecutorKeepsInv(w, run, choice);
      case Heartbeat(run) => HeartbeatKeepsInv(w, run);
      case SweepBy(id, step) => SweepKeepsInv(w, id, step);
    }
  }

  lemma InvHoldsInitially(w: World)
    requires Init(w)
    ensures Inv(w)
  {
  }

  lemma {:induction false} InvAlways(states: seq<World>, actions: seq<Action>, i: nat)
    requires Execution(states, actions) && i < |states|
    ensures Inv(states[i])
  {
    if i == 0 {
      InvHoldsInitially(states[0]);
    } else {
      InvAlways(states, actions, i - 1);
      InvIsPreserved(states[i - 1], actions[i - 1]);
    }
  }
}
