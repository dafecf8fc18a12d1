/**
 Every interleaving of request handlers, executors with their heartbeats, sweeps of
 any number of replicas, and criteria administration (evaluation-runner.service.ts,
 evaluation-run.service.ts, evaluation-result.service.ts). One action is one
 database call, one port call, one report, or the return from a call of the finding
 service; between two actions of an actor any other actor may act. What happens inside
 `recordFindings` and `resolveAbsentFindings`, database call by database call, is
 FindingProtocol; Evaluation puts the two together.
 */
module RunProtocol {
  import opened Common
  import opened RunTable
  import C = Criteria
  import Comp = CoverageComposer
  import J = Judgment

  type Rows = map<C.Id, C.CriterionRow>

  /** A judgment with its evidence: the arbitrary output of the feature's ports. */
  datatype Draft = Draft(judged: Rows, input: Comp.Input, verdicts: seq<J.Verdict>, findings: seq<J.Candidate>)

  /**
   The archived snapshot: the manifest (`input.items`), the verdicts, and the inputs
   the coverage buckets were composed from.
   */
  datatype Archived = Archived(input: Comp.Input, verdicts: seq<J.Verdict>)

  /**
   The checks a draft passes on its way into the tables. The protocol is proved for
   any checks; RunTheorems instantiates the ones the services use.
   */
  datatype Checks = Checks(
    composes: Comp.Input -> bool,
    coverage: Comp.Input -> bool,
    verdicts: (Rows, Comp.Input, seq<J.Verdict>) -> bool,
    findings: (Rows, Comp.Input, seq<J.Candidate>) -> bool)

  /** Progress of `open`: subject read, version checked, row inserted, row started. */
  datatype Request =
    | SubjectRead(subject: Id)
    | Admitted(subject: Id, version: Id)
    | Created(run: Id)
    | Started(run: Id)

  /** Progress of `execute`; at Recording and ResolveFenced it is inside the finding service. */
  datatype Pc =
    | Collecting
    | Judging(criteria: Rows)
    | Composed(draft: Draft)
    | ResultFenced(draft: Draft)
    | ResultChecked(draft: Draft)
    | VerdictsChecked(draft: Draft)
    | ResultStored(draft: Draft)
    | FindingsFenced(draft: Draft)
    | Recording(draft: Draft)
    | Recorded
    | ResolveFenced
    | Resolved
    | SuccessFenced
    | Won
    | WonPublished
    | Finished
    | Catching(error: string)
    | Superseded(error: string)
    | Lost(text: string)
    | LostPublished(text: string)
    | Abandoned(text: string)

  datatype Exec = Exec(startedAt: Option<nat>, pc: Pc)

  /** One call of `reapStaleRuns`: its cutoff, rows still to close, rows it closed, rows still to report. */
  datatype Sweep = Sweep(cutoff: int, selected: bool, candidates: map<Id, nat>, reaped: set<Id>, queue: seq<Id>, published: bool)

  datatype Source = ByExecutor | BySweep(sweep: Id)

  datatype Report = Report(channel: Channel, source: Source, run: Id, status: Status, error: Option<string>)

  datatype World = World(
    now: nat,
    timeout: nat,
    checks: Checks,
    catalog: C.Catalog,
    subjects: map<Id, string>,
    runs: Table,
    results: map<Id, Archived>,
    requests: map<Id, Request>,
    execs: map<Id, Exec>,
    sweeps: map<Id, Sweep>,
    // History, never read by any actor: who issued the terminal write, and every report.
    closedBy: map<Id, Source>,
    log: seq<Report>)

  /** What the environment decides at a step: the ports' judgment, or a failure. */
  datatype Choice =
    | Proceed
    | Judgment(input: Comp.Input, verdicts: seq<J.Verdict>, findings: seq<J.Candidate>)
    | Throw(error: string)

  datatype HandlerStep = ReadSubject(subject: Id) | ReadVersion(version: Id) | Insert(run: Id) | Start | Open

  datatype SweepStep = Begin | Select | Reap(run: Id) | Publish | Notify

  datatype Action =
    | Tick(delta: nat)
    | Administer(step: C.Action)
    | Handle(request: Id, handler: HandlerStep)
    | Execute(run: Id, choice: Choice)
    | Heartbeat(run: Id)
    | SweepBy(sweep: Id, sweeper: SweepStep)

  // ---- Program points ----

  /** Inside the try block of `execute`, where a failing port or check leads to the catch block. */
  predicate Trying(pc: Pc) {
    || pc.Collecting? || pc.Judging? || pc.Composed? || pc.ResultFenced? || pc.ResultChecked? || pc.VerdictsChecked?
    || pc.ResultStored? || pc.FindingsFenced? || pc.Recording? || pc.Recorded? || pc.ResolveFenced? || pc.Resolved?
    || pc.SuccessFenced?
  }

  predicate HasDraft(pc: Pc) {
    || pc.Composed? || pc.ResultFenced? || pc.ResultChecked? || pc.VerdictsChecked? || pc.ResultStored?
    || pc.FindingsFenced? || pc.Recording?
  }

  predicate BeforeResult(pc: Pc) {
    pc.Collecting? || pc.Judging? || pc.Composed? || pc.ResultFenced? || pc.ResultChecked? || pc.VerdictsChecked?
  }

  predicate AfterResult(pc: Pc) {
    || pc.ResultStored? || pc.FindingsFenced? || pc.Recording? || pc.Recorded? || pc.ResolveFenced? || pc.Resolved?
    || pc.SuccessFenced? || Succeeding(pc)
  }

  predicate Succeeding(pc: Pc) {
    pc.Won? || pc.WonPublished? || pc.Finished?
  }

  predicate Failing(pc: Pc) {
    pc.Lost? || pc.LostPublished? || pc.Abandoned?
  }

  // ---- The executor's program ----

  /** What one step of an executor can read: its row, its version's criteria, whether it has a result. */
  datatype View = View(row: Run, criteria: Rows, hasResult: bool, checks: Checks)

  /** The one write or report a step makes. */
  datatype Effect =
    | Nothing
    | Succeeds
    | Fails(text: string)
    | Stores(result: Archived)
    | Says(channel: Channel, status: Status, error: Option<string>)

  predicate Fits(pc: Pc, choice: Choice) {
    match choice
    case Proceed => !pc.Judging? && !pc.Finished? && !pc.Abandoned?
    case Judgment(_, _, _) => pc.Judging?
    case Throw(_) => Trying(pc)
  }

  function Advance(exec: Exec, view: View, choice: Choice): (Pc, Effect)
    requires Fits(exec.pc, choice)
  {
    if choice.Throw? then (Catching(choice.error), Nothing)
    else match exec.pc
      case Collecting => (Judging(view.criteria), Nothing)
      case Judging(criteria) =>
        if view.checks.composes(choice.input)
        then (Composed(Draft(criteria, choice.input, choice.verdicts, choice.findings)), Nothing)
        else (Catching("evaluated refs outside the evidence"), Nothing)
      case Composed(draft) => (PassFence(exec, view, ResultFenced(draft)), Nothing)
      case ResultFenced(draft) =>
        if Active(view.row) && view.checks.coverage(draft.input) then (ResultChecked(draft), Nothing)
        else (Catching("result refused"), Nothing)
      case ResultChecked(draft) =>
        if view.checks.verdicts(view.criteria, draft.input, draft.verdicts) then (VerdictsChecked(draft), Nothing)
        else (Catching("verdicts refused"), Nothing)
      case VerdictsChecked(draft) =>
        if view.hasResult then (Catching("already has a result"), Nothing)
        else (ResultStored(draft), Stores(Archived(draft.input, draft.verdicts)))
      case ResultStored(draft) => (PassFence(exec, view, FindingsFenced(draft)), Nothing)
      case FindingsFenced(draft) =>
        if draft.findings == [] then (Recorded, Nothing)
        else if view.checks.findings(view.criteria, draft.input, draft.findings) then (Recording(draft), Nothing)
        else (Catching("findings refused"), Nothing)
      case Recording(_) => (Recorded, Nothing)
      case Recorded => (PassFence(exec, view, ResolveFenced), Nothing)
      case ResolveFenced => (Resolved, Nothing)
      case Resolved => (PassFence(exec, view, SuccessFenced), Nothing)
      case SuccessFenced =>
        if Active(view.row) then (Won, Succeeds) else (Catching("cannot be marked succeeded"), Nothing)
      case Won => (WonPublished, Says(Event, Succeeded, None))
      case WonPublished => (Finished, Says(Observer, Succeeded, None))
      case Finished => (Finished, Nothing)
      case Catching(error) =>
        if Active(view.row) then (Lost(FormatRunError(error)), Fails(FormatRunError(error))) else (Superseded(error), Nothing)
      case Superseded(error) => (Lost(view.row.error.GetOr(FormatRunError(error))), Nothing)
      case Lost(text) => (LostPublished(text), Says(Event, Failed, Some(text)))
      case LostPublished(text) => (Abandoned(text), Says(Observer, Failed, Some(text)))
      case Abandoned(text) => (Abandoned(text), Nothing)
  }

  /** `assertActive`: on to `next`, or into the catch block. */
  function PassFence(exec: Exec, view: View, next: Pc): Pc {
    if Active(view.row) && view.row.startedAt == exec.startedAt then next else Catching("no longer active")
  }

  predicate ExecutorEnabled(w: World, run: Id, choice: Choice) {
    run in w.execs && run in w.runs && Fits(w.execs[run].pc, choice)
  }

  function ViewOf(w: World, run: Id): View
    requires run in w.runs
  {
    View(w.runs[run], C.Rows(w.catalog, w.runs[run].version), run in w.results, w.checks)
  }

  function ExecutorApply(w: World, run: Id, choice: Choice): World
    requires ExecutorEnabled(w, run, choice)
  {
    var (pc, effect) := Advance(w.execs[run], ViewOf(w, run), choice);
    AfterEffect(w, run, pc, effect)
  }

  function AfterEffect(w: World, run: Id, pc: Pc, effect: Effect): World
    requires run in w.execs && run in w.runs
  {
    w.(execs := w.execs[run := w.execs[run].(pc := pc)],
       runs := match effect
               case Succeeds => Succeed(w.runs, run, w.now)
               case Fails(text) => Fail(w.runs, run, text, w.now)
               case _ => w.runs,
       results := if effect.Stores? then w.results[run := effect.result] else w.results,
       closedBy := if effect.Succeeds? || effect.Fails? then w.closedBy[run := ByExecutor] else w.closedBy,
       log := if effect.Says? then w.log + [Report(effect.channel, ByExecutor, run, effect.status, effect.error)] else w.log)
  }

  // ---- Request handlers ----

  predicate HandlerEnabled(w: World, q: Id, step: HandlerStep) {
    match step
    case ReadSubject(subject) => q !in w.requests && subject in w.subjects
    case ReadVersion(version) =>
      && q in w.requests && w.requests[q].SubjectRead? && w.requests[q].subject in w.subjects
      && C.Published(w.catalog, version)
      && w.catalog.versions[version].kind == w.subjects[w.requests[q].subject]
    case Insert(run) => q in w.requests && w.requests[q].Admitted? && run !in w.runs
    case Start => q in w.requests && w.requests[q].Created?
    case Open => q in w.requests && w.requests[q].Started? && w.requests[q].run in w.runs
  }

  function HandlerApply(w: World, q: Id, step: HandlerStep): World
    requires HandlerEnabled(w, q, step)
  {
    w.(requests := RequestsAfter(w, q, step),
       runs := match step
               case Insert(run) => if Refused(w, q) then w.runs
                                   else Inserted(w.runs, run, w.requests[q].subject, w.requests[q].version, w.now)
               case Start => MarkRunning(w.runs, w.requests[q].run, w.now)
               case _ => w.runs,
       execs := if step.Open? then w.execs[w.requests[q].run := Exec(w.runs[w.requests[q].run].startedAt, Collecting)]
                else w.execs)
  }

  /** The insert violates the partial unique index: the request ends with a conflict. */
  predicate Refused(w: World, q: Id)
    requires q in w.requests && w.requests[q].Admitted?
  {
    Occupied(w.runs, w.requests[q].subject, w.requests[q].version)
  }

  function RequestsAfter(w: World, q: Id, step: HandlerStep): map<Id, Request>
    requires HandlerEnabled(w, q, step)
  {
    match step
    case ReadSubject(subject) => w.requests[q := SubjectRead(subject)]
    case ReadVersion(version) => w.requests[q := Admitted(w.requests[q].subject, version)]
    case Insert(run) => if Refused(w, q) then w.requests - {q} else w.requests[q := Created(run)]
    case Start => w.requests[q := Started(w.requests[q].run)]
    case Open => w.requests - {q}
  }

  // ---- Sweeps ----

  predicate SweepEnabled(w: World, id: Id, step: SweepStep) {
    match step
    case Begin => id !in w.sweeps
    case Select => id in w.sweeps && !w.sweeps[id].selected
    case Reap(run) => id in w.sweeps && w.sweeps[id].selected && run in w.sweeps[id].candidates
    case Publish => id in w.sweeps && Reporting(w.sweeps[id]) && !w.sweeps[id].published
    case Notify => id in w.sweeps && Reporting(w.sweeps[id]) && w.sweeps[id].published
  }

  /** The loop over the candidates is over and there are rows left to report. */
  predicate Reporting(s: Sweep) {
    s.selected && s.candidates == map[] && s.queue != []
  }

  /** The conditional write of the sweep matches the row. */
  predicate Hits(w: World, id: Id, step: SweepStep)
    requires SweepEnabled(w, id, step)
  {
    step.Reap? && Reapable(w.runs, step.run, w.sweeps[id].candidates[step.run])
  }

  function SweepApply(w: World, id: Id, step: SweepStep): World
    requires SweepEnabled(w, id, step)
  {
    w.(sweeps := w.sweeps[id := NextSweep(w, id, step)],
       runs := if Hits(w, id, step) then Fail(w.runs, step.run, STALE_RUN_ERROR, w.now) else w.runs,
       closedBy := if Hits(w, id, step) then w.closedBy[step.run := BySweep(id)] else w.closedBy,
       log := if step.Publish? || step.Notify?
              then w.log + [ReapReport(w, id, if step.Publish? then Event else Observer)] else w.log)
  }

  function ReapReport(w: World, id: Id, channel: Channel): Report
    requires id in w.sweeps && w.sweeps[id].queue != []
  {
    Report(channel, BySweep(id), w.sweeps[id].queue[0], Failed, Some(STALE_RUN_ERROR))
  }

  function NextSweep(w: World, id: Id, step: SweepStep): Sweep
    requires SweepEnabled(w, id, step)
  {
    match step
    case Begin => Sweep(w.now - w.timeout, false, map[], {}, [], false)
    case Select => w.sweeps[id].(selected := true, candidates := Stale(w.runs, w.sweeps[id].cutoff))
    case Reap(run) =>
      var s := w.sweeps[id];
      if Hits(w, id, step)
      then s.(candidates := s.candidates - {run}, reaped := s.reaped + {run}, queue := s.queue + [run])
      else s.(candidates := s.candidates - {run})
    case Publish => w.sweeps[id].(published := true)
    case Notify => w.sweeps[id].(published := false, queue := w.sweeps[id].queue[1..])
  }

  // ---- The system ----

  predicate Enabled(w: World, a: Action) {
    match a
    case Tick(_) => true
    case Administer(step) => C.Enabled(w.catalog, step)
    case Handle(q, step) => HandlerEnabled(w, q, step)
    case Execute(run, choice) => ExecutorEnabled(w, run, choice)
    case Heartbeat(run) => run in w.execs
    case SweepBy(id, step) => SweepEnabled(w, id, step)
  }

  function Apply(w: World, a: Action): World
    requires Enabled(w, a)
  {
    match a
    case Tick(delta) => w.(now := w.now + delta)
    case Administer(step) => w.(catalog := C.Apply(w.catalog, step))
    case Handle(q, step) => HandlerApply(w, q, step)
    case Execute(run, choice) => ExecutorApply(w, run, choice)
    case Heartbeat(run) => w.(runs := Touch(w.runs, run, w.now))
    case SweepBy(id, step) => SweepApply(w, id, step)
  }

  ghost predicate Init(w: World) {
    && C.Init(w.catalog) && w.runs == map[] && w.results == map[] && w.requests == map[] && w.execs == map[]
    && w.sweeps == map[] && w.closedBy == map[] && w.log == []
  }

  ghost predicate Execution(states: seq<World>, actions: seq<Action>) {
    && |states| == |actions| + 1 && Init(states[0])
    && forall i :: 0 <= i < |actions| ==> Enabled(states[i], actions[i]) && states[i + 1] == Apply(states[i], actions[i])
  }
}
