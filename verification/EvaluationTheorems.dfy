/**
 What holds of the run protocol and the finding protocol together: each of them runs
 as it does alone, findings answer the published criteria of their runs, and how much
 an executor still writes once its row is closed.
 */
module EvaluationTheorems {
  import opened Common
  import opened Evaluation
  import opened RunJudgments
  import T = RunTable
  import R = RunProtocol
  import RI = RunInvariants
  import Fences = RunFences
  import FT = FindingTable
  import F = FindingProtocol
  import C = Criteria
  import J = Judgment
  import Comp = CoverageComposer

  // ---- Either protocol runs as it does alone ----

  /** The run protocol alone goes through `w` and then comes to `w'`. */
  ghost predicate RunsThrough(w: R.World, w': R.World) {
    exists states, actions :: R.Execution(states, actions) && w in states && states[|actions|] == w'
  }

  ghost predicate FindingsThrough(w: F.World, w': F.World) {
    exists states, actions :: F.Execution(states, actions) && w in states && states[|actions|] == w'
  }

  lemma RunsInit(w: R.World)
    requires R.Init(w)
    ensures RunsThrough(w, w)
  {
    assert R.Execution([w], []) && [w][0] == w;
  }

  lemma RunsExtend(states: seq<R.World>, actions: seq<R.Action>, a: R.Action, w: R.World)
    requires R.Execution(states, actions) && R.Enabled(states[|actions|], a) && w == R.Apply(states[|actions|], a)
    ensures R.Execution(states + [w], actions + [a])
  {
    var more, further := states + [w], actions + [a];
    forall k | 0 <= k < |further| ensures R.Enabled(more[k], further[k]) && more[k + 1] == R.Apply(more[k], further[k]) {
      if k < |actions| {
        assert more[k] == states[k] && more[k + 1] == states[k + 1] && further[k] == actions[k];
      } else {
        assert k == |actions|;
      }
    }
  }

  lemma RunsNext(w: R.World, w': R.World, a: R.Action, next: R.World)
    requires RunsThrough(w, w') && R.Enabled(w', a) && next == R.Apply(w', a)
    ensures RunsThrough(w, next) && RunsThrough(next, next)
  {
    var states: seq<R.World>, actions: seq<R.Action> :| R.Execution(states, actions) && w in states && states[|actions|] == w';
    RunsExtend(states, actions, a, next);
    assert (states + [next])[|actions + [a]|] == next;
  }

  lemma FindingsInit(w: F.World)
    requires F.Init(w)
    ensures FindingsThrough(w, w)
  {
    assert F.Execution([w], []) && [w][0] == w;
  }

  lemma FindingsExtend(states: seq<F.World>, actions: seq<F.Action>, a: F.Action, w: F.World)
    requires F.Execution(states, actions) && F.Enabled(states[|actions|], a) && w == F.Apply(states[|actions|], a)
    ensures F.Execution(states + [w], actions + [a])
  {
    var more, further := states + [w], actions + [a];
    forall k | 0 <= k < |further| ensures F.Enabled(more[k], further[k]) && more[k + 1] == F.Apply(more[k], further[k]) {
      if k < |actions| {
        assert more[k] == states[k] && more[k + 1] == states[k + 1] && further[k] == actions[k];
      } else {
        assert k == |actions|;
      }
    }
  }

  lemma FindingsNext(w: F.World, w': F.World, a: F.Action, next: F.World)
    requires FindingsThrough(w, w') && F.Enabled(w', a) && next == F.Apply(w', a)
    ensures FindingsThrough(w, next) && FindingsThrough(next, next)
  {
    var states: seq<F.World>, actions: seq<F.Action> :| F.Execution(states, actions) && w in states && states[|actions|] == w';
    FindingsExtend(states, actions, a, next);
    assert (states + [next])[|actions + [a]|] == next;
  }

  /** A step of the system is at most one step of either protocol. */
  ghost predicate IsRunStep(w: R.World, w': R.World) {
    w' == w || exists a :: R.Enabled(w, a) && w' == R.Apply(w, a)
  }

  ghost predicate IsFindingStep(w: F.World, w': F.World) {
    w' == w || exists a :: F.Enabled(w, a) && w' == F.Apply(w, a)
  }

  lemma StepProjects(w: World, a: Action)
    requires Enabled(w, a)
    ensures IsRunStep(w.runs, Apply(w, a).runs) && IsFindingStep(w.findings, Apply(w, a).findings)
  {
    match a {
      case Tick(delta) =>
        assert R.Enabled(w.runs, R.Tick(delta)) && F.Enabled(w.findings, F.Tick(delta));
      case RunStep(step) => assert R.Enabled(w.runs, step);
      case Call(run, sightings) =>
        assert R.Enabled(w.runs, R.Execute(run, R.Proceed));
        assert F.Enabled(w.findings, BeginOf(w.runs, run, sightings));
      case FindingStep(move) => assert F.Enabled(w.findings, move);
    }
  }

  lemma ThroughNext(w: World, w': World, next: World)
    requires IsRunStep(w'.runs, next.runs) && IsFindingStep(w'.findings, next.findings)
    requires RunsThrough(w.runs, w'.runs) && FindingsThrough(w.findings, w'.findings)
    ensures RunsThrough(w.runs, next.runs) && FindingsThrough(w.findings, next.findings)
    ensures RunsThrough(w'.runs, w'.runs) ==> RunsThrough(next.runs, next.runs)
    ensures FindingsThrough(w'.findings, w'.findings) ==> FindingsThrough(next.findings, next.findings)
  {
    if next.runs != w'.runs {
      var a :| R.Enabled(w'.runs, a) && next.runs == R.Apply(w'.runs, a);
      RunsNext(w.runs, w'.runs, a, next.runs);
    }
    if next.findings != w'.findings {
      var a :| F.Enabled(w'.findings, a) && next.findings == F.Apply(w'.findings, a);
      FindingsNext(w.findings, w'.findings, a, next.findings);
    }
  }

  lemma {:induction false} EachProjects(states: seq<World>, actions: seq<Action>, i: nat)
    requires Execution(states, actions) && i < |states|
    ensures RunsThrough(states[i].runs, states[i].runs) && FindingsThrough(states[i].findings, states[i].findings)
  {
    if i == 0 {
      RunsInit(states[0].runs);
      FindingsInit(states[0].findings);
    } else {
      EachProjects(states, actions, i - 1);
      StepProjects(states[i - 1], actions[i - 1]);
      ThroughNext(states[i - 1], states[i - 1], states[i]);
    }
  }

  ghost predicate StepsProject(states: seq<World>, k: nat)
    requires k + 1 < |states|
  {
    IsRunStep(states[k].runs, states[k + 1].runs) && IsFindingStep(states[k].findings, states[k + 1].findings)
  }

  lemma {:induction false} ThroughSteps(states: seq<World>, i: nat, j: nat)
    requires i <= j < |states| && forall k :: i <= k < j ==> StepsProject(states, k)
    requires RunsThrough(states[i].runs, states[i].runs) && FindingsThrough(states[i].findings, states[i].findings)
    ensures RunsThrough(states[i].runs, states[j].runs) && FindingsThrough(states[i].findings, states[j].findings)
    decreases j
  {
    if i < j {
      ThroughSteps(states, i, j - 1);
      assert StepsProject(states, j - 1);
      ThroughNext(states[i], states[j - 1], states[j]);
    }
  }

  /**
   Of any two moments of the whole system, the run protocol alone goes through the two
   states of the runs, and the finding protocol alone through the two states of the
   findings: what is proved of either holds of the system.
   */
  lemma BothProject(states: seq<World>, actions: seq<Action>, i: nat, j: nat)
    requires Execution(states, actions) && i <= j < |states|
    ensures RunsThrough(states[i].runs, states[j].runs) && FindingsThrough(states[i].findings, states[j].findings)
  {
    EachProjects(states, actions, i);
    forall k | i <= k < j ensures StepsProject(states, k) {
      StepProjects(states[k], actions[k]);
    }
    ThroughSteps(states, i, j);
  }

  // ---- Findings and their runs ----

  /**
   A finding was seen last by a run of its subject, at the start of that run, and
   answers an ASSERTION criterion of the published version that the run judges by.
   */
  lemma FindingsAnswerPublishedCriteria(states: seq<World>, actions: seq<Action>, i: nat, id: FT.FindingId)
    requires Execution(states, actions) && i < |states| && id in states[i].findings.rows
    ensures var (runs, f) := (states[i].runs, states[i].findings.rows[id]);
            && f.lastSeenRun in runs.runs
            && var row := runs.runs[f.lastSeenRun];
               && row.subject == id.subject && f.lastSeenAt == (if row.startedAt.Some? then row.startedAt.value else row.createdAt)
               && C.Published(runs.catalog, row.version) && runs.catalog.versions[row.version].evaluationKey == id.evaluationKey
               && exists c :: c in runs.catalog.criteria && runs.catalog.criteria[c].version == row.version
                    && runs.catalog.criteria[c].criterionKey == f.criterionKey && runs.catalog.criteria[c].kind == J.ASSERTION
  {
    InvAlways(states, actions, i);
    var (w, f) := (states[i], states[i].findings.rows[id]);
    assert F.SeenBy(w.findings.recordings, id, f);
    assert LinkOk(w, f.lastSeenRun);
    VersionIsKnown(w.runs, f.lastSeenRun);
    KindIsOfARow(C.Rows(w.runs.catalog, w.runs.runs[f.lastSeenRun].version), f.criterionKey);
  }

  lemma KindIsOfARow(rows: map<C.Id, C.CriterionRow>, key: string)
    requires key in C.KindsIn(rows)
    ensures exists c :: c in rows && rows[c].criterionKey == key && rows[c].kind == C.KindsIn(rows)[key]
  {
  }

  // ---- From the judgment to the findings ----

  /** What the run's pass records is what was judged. */
  ghost predicate Hands(w: World, run: Id, judgment: R.Choice)
    requires judgment.Judgment?
  {
    && Keeps(w.runs, run, judgment)
    && (run in w.findings.recordings ==> FT.ClaimsOf(w.findings.recordings[run].candidates) == judgment.findings)
  }

  lemma RunsKeepJudgment(w: World, a: Action, run: Id, judgment: R.Choice)
    requires RI.RequestsOk(w.runs.runs, w.runs.execs, w.runs.requests) && Enabled(w, a)
    requires judgment.Judgment? && Keeps(w.runs, run, judgment)
    ensures Keeps(Apply(w, a).runs, run, judgment)
  {
    StepProjects(w, a);
    if Apply(w, a).runs != w.runs {
      var step :| R.Enabled(w.runs, step) && Apply(w, a).runs == R.Apply(w.runs, step);
      JudgmentIsKept(w.runs, step, run, judgment);
    }
  }

  /** Only a call gives a pass its candidates, and for good. */
  lemma CandidatesStay(w: World, a: Action, run: Id)
    requires Enabled(w, a) && run in Apply(w, a).findings.recordings
    ensures if a.Call? && a.run == run
            then run in w.runs.execs && w.runs.execs[run].pc.FindingsFenced?
                 && FT.ClaimsOf(Apply(w, a).findings.recordings[run].candidates) == w.runs.execs[run].pc.draft.findings
            else run in w.findings.recordings
                 && Apply(w, a).findings.recordings[run].candidates == w.findings.recordings[run].candidates
  {
    match a {
      case Tick(_) =>
      case RunStep(_) =>
      case Call(caller, sightings) =>
        BeginAdds(w.findings, PassOf(w.runs, caller), sightings, BeginOf(w.runs, caller, sightings).evidenceIds);
      case FindingStep(move) => FindingStepMoves(w.findings, move);
    }
  }

  lemma HandsNext(w: World, a: Action, run: Id, judgment: R.Choice)
    requires RI.RequestsOk(w.runs.runs, w.runs.execs, w.runs.requests) && Enabled(w, a)
    requires judgment.Judgment? && Hands(w, run, judgment)
    ensures Hands(Apply(w, a), run, judgment)
  {
    RunsKeepJudgment(w, a, run, judgment);
    if run in Apply(w, a).findings.recordings {
      CandidatesStay(w, a, run);
    }
  }

  lemma HandsFirst(w: World, step: R.Action, run: Id)
    requires RI.ResultsPlaced(w.runs.execs, w.runs.results) && Linked(w) && Enabled(w, RunStep(step)) && Judges(step, run)
    ensures Hands(Apply(w, RunStep(step)), run, step.choice)
  {
    JudgmentIsTaken(w.runs, step, run);
    assert run in w.findings.recordings ==> LinkOk(w, run);
  }

  lemma {:induction false} HandsOn(states: seq<World>, actions: seq<Action>, j: nat, i: nat, run: Id)
    requires Execution(states, actions) && j < i < |states| && actions[j].RunStep? && Judges(actions[j].step, run)
    ensures Hands(states[i], run, actions[j].step.choice)
    decreases i
  {
    InvAlways(states, actions, i - 1);
    if i == j + 1 {
      HandsFirst(states[j], actions[j].step, run);
    } else {
      HandsOn(states, actions, j, i - 1, run);
      HandsNext(states[i - 1], actions[i - 1], run, actions[j].step.choice);
    }
  }

  /**
   Whatever happens after a judgment, the run's pass records exactly the findings that
   were judged, in their order, and the archived result holds exactly its verdicts.
   */
  lemma JudgmentReachesBothTables(
    states: seq<World>, actions: seq<Action>, j: nat, i: nat, run: Id,
    input: Comp.Input, verdicts: seq<J.Verdict>, findings: seq<J.Candidate>)
    requires Execution(states, actions) && j < i < |states|
    requires actions[j] == RunStep(R.Execute(run, R.Judgment(input, verdicts, findings)))
    ensures run in states[i].findings.recordings ==> FT.ClaimsOf(states[i].findings.recordings[run].candidates) == findings
    ensures run in states[i].runs.results ==> states[i].runs.results[run] == R.Archived(input, verdicts)
  {
    HandsOn(states, actions, j, i, run);
  }

  /** A run succeeds only after every candidate was recorded and every listed finding had its turn. */
  lemma SucceededRunsAreThrough(states: seq<World>, actions: seq<Action>, i: nat, run: Id)
    requires Execution(states, actions) && i < |states| && run in states[i].runs.runs
    requires states[i].runs.runs[run].status == T.Succeeded
    ensures run in states[i].findings.recordings && states[i].findings.recordings[run].pc.Done?
  {
    InvAlways(states, actions, i);
    var w := states[i].runs;
    assert RI.ExecOk(w.execs[run], w.runs[run], RI.Own(w.closedBy, run));
    assert LinkOk(states[i], run);
  }

  // ---- Finding rows written after the run was closed ----

  /** Candidates that are still to be written, or listed rows that still have their turn. */
  function Left(rec: F.Recording): nat {
    match rec.pc
    case Looking(n) => if n < |rec.candidates| then |rec.candidates| - n else 0
    case Creating(n) => if n < |rec.candidates| then |rec.candidates| - n else 0
    case Refinding(n) => if n < |rec.candidates| then |rec.candidates| - n else 0
    case Updating(n, _) => if n < |rec.candidates| then |rec.candidates| - n else 0
    case Refreshing(n) => if n < |rec.candidates| then |rec.candidates| - n else 0
    case Rereading(n) => if n < |rec.candidates| then |rec.candidates| - n - 1 else 0
    case Telling(n, _) => if n < |rec.candidates| then |rec.candidates| - n - 1 else 0
    case Resolving(todo, _) => |todo|
    case TellingClosed(todo, _, _) => |todo|
    case _ => 0
  }

  /** The rows an executor has in hand before its next check of the run. */
  function Due(w: World, run: Id): nat {
    if run !in w.runs.execs then 0
    else match w.runs.execs[run].pc
      case FindingsFenced(draft) => |draft.findings|
      case Recording(_) => LeftOf(w, run)
      case ResolveFenced => LeftOf(w, run)
      case _ => 0
  }

  function LeftOf(w: World, run: Id): nat {
    if run in w.findings.recordings then Left(w.findings.recordings[run]) else 0
  }

  /** The action writes a finding row on behalf of the run. */
  ghost predicate Writes(w: World, a: Action, run: Id) {
    && Enabled(w, a) && a.FindingStep? && a.move.Step? && a.move.run == run
    && F.Advance(w.findings.recordings[run], w.findings.rows, w.findings.now, a.move.choice).1.Puts?
  }

  /** The action lists the findings that the run did not observe. */
  ghost predicate Lists(w: World, a: Action, run: Id) {
    Enabled(w, a) && a.FindingStep? && a.move.Step? && a.move.run == run && w.findings.recordings[run].pc.Recorded?
  }

  ghost function Listed(w: World, a: Action, run: Id): nat {
    if Lists(w, a, run) then |FT.Absent(w.findings.rows, w.findings.recordings[run].pass)| else 0
  }

  ghost function WritesIn(states: seq<World>, actions: seq<Action>, i: nat, k: nat, run: Id): nat
    requires i <= k <= |actions| <= |states|
    decreases k
  {
    if k == i then 0
    else WritesIn(states, actions, i, k - 1, run) + if Writes(states[k - 1], actions[k - 1], run) then 1 else 0
  }

  ghost function ListedIn(states: seq<World>, actions: seq<Action>, i: nat, k: nat, run: Id): nat
    requires i <= k <= |actions| <= |states|
    decreases k
  {
    if k == i then 0 else ListedIn(states, actions, i, k - 1, run) + Listed(states[k - 1], actions[k - 1], run)
  }

  /** The effect as a number of rows. */
  function Put(effect: F.Effect): nat {
    if effect.Puts? then 1 else 0
  }

  /** While it records a pass writes exactly the candidate that is then no longer left. */
  lemma CandidateUsesUp(rec: F.Recording, rows: FT.Table, now: nat)
    requires F.Fits(rec, F.Go) && F.PcOk(rec, rows.Keys) && (rec.pc.Looking? || F.OnCandidate(rec.pc))
    ensures var (pc, effect) := F.Advance(rec, rows, now, F.Go); Left(rec.(pc := pc)) + Put(effect) == Left(rec)
  {
  }

  lemma TurnUsesUp(rec: F.Recording, rows: FT.Table, now: nat, choice: F.Choice)
    requires F.Fits(rec, choice) && !choice.Quit? && !rec.pc.Looking? && !F.OnCandidate(rec.pc)
    ensures var (pc, effect) := F.Advance(rec, rows, now, choice);
            Left(rec.(pc := pc)) + Put(effect) <= Left(rec) + if rec.pc.Recorded? then |FT.Absent(rows, rec.pass)| else 0
  {
    if rec.pc.Resolving? && choice.Pick? {
      PickUsesUp(rec, rows, now, choice.id);
    }
  }

  lemma PickUsesUp(rec: F.Recording, rows: FT.Table, now: nat, id: FT.FindingId)
    requires rec.pc.Resolving? && id in rec.pc.todo
    ensures var (pc, effect) := F.Advance(rec, rows, now, F.Pick(id)); Left(rec.(pc := pc)) + 1 == Left(rec) && Put(effect) <= 1
  {
    SmallerList(rec.pc.todo, id);
  }

  lemma SmallerList(todo: map<FT.FindingId, FT.Finding>, id: FT.FindingId)
    requires id in todo
    ensures |todo - {id}| == |todo| - 1
  {
    assert (todo - {id}).Keys == todo.Keys - {id};
    assert |todo| == |todo.Keys| && |todo - {id}| == |(todo - {id}).Keys|;
  }

  /** A step of a pass writes at most one of the rows it has left, and exactly one while it records. */
  lemma StepUsesUp(rec: F.Recording, rows: FT.Table, now: nat, choice: F.Choice)
    requires F.Fits(rec, choice) && F.PcOk(rec, rows.Keys) && !choice.Quit?
    ensures var (pc, effect) := F.Advance(rec, rows, now, choice);
            var left := Left(rec.(pc := pc)) + Put(effect);
            && left <= Left(rec) + (if rec.pc.Recorded? then |FT.Absent(rows, rec.pass)| else 0)
            && (rec.pc.Looking? || F.OnCandidate(rec.pc) ==> left == Left(rec))
  {
    if rec.pc.Looking? || F.OnCandidate(rec.pc) {
      CandidateUsesUp(rec, rows, now);
    } else {
      TurnUsesUp(rec, rows, now, choice);
    }
  }

  /** The executor is recording, or about to, or has just recorded. */
  predicate Records(w: World, run: Id) {
    && run in w.runs.execs
    && var pc := w.runs.execs[run].pc; pc.FindingsFenced? || pc.Recording? || pc.Recorded?
  }

  /** What an action may make of the rows in hand. */
  ghost predicate UsesUp(w: World, a: Action, w': World, run: Id) {
    var put := if Writes(w, a, run) then 1 else 0;
    && Due(w', run) + put <= Due(w, run) + Listed(w, a, run)
    && (Records(w', run) ==> Records(w, run) && Due(w', run) + put == Due(w, run))
  }

  /** Over a closed row an executor by itself takes up no new call. */
  lemma ClosedAdvance(exec: R.Exec, view: R.View, choice: R.Choice)
    requires R.Fits(exec.pc, choice) && !T.Active(view.row)
    requires exec.pc.FindingsFenced? && choice.Proceed? ==>
               exec.pc.draft.findings != [] && !view.checks.findings(view.criteria, exec.pc.draft.input, exec.pc.draft.findings)
    ensures var pc := R.Advance(exec, view, choice).0;
            && !pc.FindingsFenced? && !pc.Recording? && !pc.ResolveFenced?
            && (pc.Recorded? ==> choice.Proceed? && exec.pc.Recording?)
  {
  }

  lemma RunStepUsesUp(w: World, step: R.Action, run: Id)
    requires RI.RequestsOk(w.runs.runs, w.runs.execs, w.runs.requests) && Enabled(w, RunStep(step))
    requires run in w.runs.runs && !T.Active(w.runs.runs[run])
    ensures UsesUp(w, RunStep(step), Apply(w, RunStep(step)), run)
  {
    if run in w.runs.execs {
      StepMovesOne(w.runs, step, run);
      if step.Execute? && step.run == run {
        ClosedAdvance(w.runs.execs[run], R.ViewOf(w.runs, run), step.choice);
      }
    } else if run in R.Apply(w.runs, step).execs {
      NewExecsBegin(w.runs, step, run);
    }
  }

  lemma CallUsesUp(w: World, caller: Id, sightings: seq<FT.Sighting>, run: Id)
    requires Enabled(w, Call(caller, sightings))
    ensures UsesUp(w, Call(caller, sightings), Apply(w, Call(caller, sightings)), run)
  {
    ExecutorMovesOne(w.runs, caller, R.Proceed, caller);
    BeginAdds(w.findings, PassOf(w.runs, caller), sightings, BeginOf(w.runs, caller, sightings).evidenceIds);
    if run == caller {
      CallAdvances(w.runs, caller);
    } else if run in w.runs.execs {
      ExecutorMovesOne(w.runs, caller, R.Proceed, run);
    }
  }

  lemma FindingStepUsesUp(w: World, move: F.Action, run: Id)
    requires F.Inv(w.findings) && Linked(w) && Enabled(w, FindingStep(move))
    ensures UsesUp(w, FindingStep(move), Apply(w, FindingStep(move)), run)
  {
    if move.Step? && move.run == run {
      assert F.RecordingOk(run, w.findings.recordings[run], w.findings.rows.Keys) && LinkOk(w, run);
      OwnStepUsesUp(w, run, move.choice);
    } else {
      OthersUseUpNothing(w, move, run);
    }
  }

  lemma OthersUseUpNothing(w: World, move: F.Action, run: Id)
    requires Enabled(w, FindingStep(move)) && !(move.Step? && move.run == run)
    ensures UsesUp(w, FindingStep(move), Apply(w, FindingStep(move)), run)
  {
    FindingStepMoves(w.findings, move);
    var w' := Apply(w, FindingStep(move));
    assert w'.runs == w.runs;
    assert run in w.findings.recordings ==> w'.findings.recordings[run] == w.findings.recordings[run];
  }

  lemma OwnStepUsesUp(w: World, run: Id, choice: F.Choice)
    requires Enabled(w, FindingStep(F.Step(run, choice)))
    requires F.PcOk(w.findings.recordings[run], w.findings.rows.Keys) && LinkOk(w, run)
    ensures UsesUp(w, FindingStep(F.Step(run, choice)), Apply(w, FindingStep(F.Step(run, choice))), run)
  {
    FindingStepMoves(w.findings, F.Step(run, choice));
    assert Apply(w, FindingStep(F.Step(run, choice))).runs == w.runs;
    StepUsesUp(w.findings.recordings[run], w.findings.rows, w.findings.now, choice);
  }

  lemma ActionUsesUp(w: World, a: Action, run: Id)
    requires F.Inv(w.findings) && Linked(w) && RI.RequestsOk(w.runs.runs, w.runs.execs, w.runs.requests)
    requires Enabled(w, a) && run in w.runs.runs && !T.Active(w.runs.runs[run])
    ensures UsesUp(w, a, Apply(w, a), run)
  {
    match a {
      case Tick(_) =>
      case RunStep(step) => RunStepUsesUp(w, step, run);
      case Call(caller, sightings) => CallUsesUp(w, caller, sightings, run);
      case FindingStep(move) => FindingStepUsesUp(w, move, run);
    }
  }

  lemma ClosedStays(w: World, a: Action, run: Id)
    requires Enabled(w, a) && run in w.runs.runs && !T.Active(w.runs.runs[run])
    ensures run in Apply(w, a).runs.runs && !T.Active(Apply(w, a).runs.runs[run])
  {
    StepProjects(w, a);
    if Apply(w, a).runs != w.runs {
      var step :| R.Enabled(w.runs, step) && Apply(w, a).runs == R.Apply(w.runs, step);
      RI.TerminalRowsAreFrozen(w.runs, step);
    }
  }

  lemma {:induction false} StaysClosed(states: seq<World>, actions: seq<Action>, i: nat, k: nat, run: Id)
    requires Execution(states, actions) && i <= k < |states|
    requires run in states[i].runs.runs && !T.Active(states[i].runs.runs[run])
    ensures run in states[k].runs.runs && !T.Active(states[k].runs.runs[run])
    decreases k
  {
    if i < k {
      StaysClosed(states, actions, i, k - 1, run);
      ClosedStays(states[k - 1], actions[k - 1], run);
    }
  }

  lemma UsesUpAt(states: seq<World>, actions: seq<Action>, i: nat, k: nat, run: Id)
    requires Execution(states, actions) && i <= k < |actions|
    requires run in states[i].runs.runs && !T.Active(states[i].runs.runs[run])
    ensures UsesUp(states[k], actions[k], states[k + 1], run)
  {
    InvAlways(states, actions, k);
    StaysClosed(states, actions, i, k, run);
    ActionUsesUp(states[k], actions[k], run);
  }

  ghost predicate UsesUpFrom(states: seq<World>, actions: seq<Action>, i: nat, k: nat, run: Id)
    requires k <= |actions| < |states|
  {
    forall m :: i <= m < k ==> UsesUp(states[m], actions[m], states[m + 1], run)
  }

  lemma {:induction false} UsesAddUp(states: seq<World>, actions: seq<Action>, i: nat, k: nat, run: Id)
    requires i <= k <= |actions| < |states| && UsesUpFrom(states, actions, i, k, run)
    ensures WritesIn(states, actions, i, k, run) + Due(states[k], run) <= Due(states[i], run) + ListedIn(states, actions, i, k, run)
    ensures Records(states[k], run) ==>
              Records(states[i], run) && WritesIn(states, actions, i, k, run) + Due(states[k], run) == Due(states[i], run)
    decreases k
  {
    if i < k {
      UsesAddUp(states, actions, i, k - 1, run);
      assert UsesUp(states[k - 1], actions[k - 1], states[k - 1 + 1], run);
    }
  }

  /**
   The finding rows an executor writes after its row is closed, with those it then still
   has in hand, are at most those it had in hand when the row was closed and those it
   lists since. No check of the row comes in between, so nothing stops it earlier.
   */
  lemma WritesAfterClosing(states: seq<World>, actions: seq<Action>, i: nat, k: nat, run: Id)
    requires Execution(states, actions) && i <= k < |states|
    requires run in states[i].runs.runs && !T.Active(states[i].runs.runs[run])
    ensures WritesIn(states, actions, i, k, run) + Due(states[k], run) <= Due(states[i], run) + ListedIn(states, actions, i, k, run)
    ensures Records(states[k], run) ==>
              Records(states[i], run) && WritesIn(states, actions, i, k, run) + Due(states[k], run) == Due(states[i], run)
  {
    forall m | i <= m < k ensures UsesUp(states[m], actions[m], states[m + 1], run) {
      UsesUpAt(states, actions, i, m, run);
    }
    UsesAddUp(states, actions, i, k, run);
  }

  // ---- ... and which of them ----

  lemma StageStays(w: World, a: Action, run: Id)
    requires Enabled(w, a) && run in w.runs.runs && !T.Active(w.runs.runs[run])
    ensures var stage := Fences.StageAt(Apply(w, a).runs, run); stage == Fences.NoWrite || stage == Fences.StageAt(w.runs, run)
  {
    StepProjects(w, a);
    if Apply(w, a).runs != w.runs {
      var step :| R.Enabled(w.runs, step) && Apply(w, a).runs == R.Apply(w.runs, step);
      Fences.ActionLeavesStage(w.runs, step, run);
    }
  }

  lemma {:induction false} StageFromClosing(states: seq<World>, actions: seq<Action>, i: nat, k: nat, run: Id)
    requires Execution(states, actions) && i <= k < |states|
    requires run in states[i].runs.runs && !T.Active(states[i].runs.runs[run])
    ensures var stage := Fences.StageAt(states[k].runs, run);
            stage == Fences.NoWrite || stage == Fences.StageAt(states[i].runs, run)
    decreases k
  {
    if i < k {
      StageFromClosing(states, actions, i, k - 1, run);
      StaysClosed(states, actions, i, k - 1, run);
      StageStays(states[k - 1], actions[k - 1], run);
    }
  }

  /** The pass has listed what it did not observe. */
  predicate HasListed(w: World, run: Id) {
    && run in w.findings.recordings
    && var pc := w.findings.recordings[run].pc; pc.Resolving? || pc.TellingClosed? || pc.Done?
  }

  lemma ListedStays(w: World, a: Action, run: Id)
    requires Enabled(w, a)
    ensures HasListed(w, run) ==> HasListed(Apply(w, a), run) && !Lists(w, a, run)
    ensures Lists(w, a, run) ==> HasListed(Apply(w, a), run)
  {
    match a {
      case Tick(_) =>
      case RunStep(_) =>
      case Call(caller, sightings) =>
        BeginAdds(w.findings, PassOf(w.runs, caller), sightings, BeginOf(w.runs, caller, sightings).evidenceIds);
      case FindingStep(move) => FindingStepMoves(w.findings, move);
    }
  }

  lemma {:induction false} ListedOnwards(states: seq<World>, actions: seq<Action>, i: nat, k: nat, run: Id)
    requires Execution(states, actions) && i <= k < |states| && HasListed(states[i], run)
    ensures HasListed(states[k], run)
    decreases k
  {
    if i < k {
      ListedOnwards(states, actions, i, k - 1, run);
      ListedNext(states, actions, k - 1, run);
    }
  }

  lemma ListedNext(states: seq<World>, actions: seq<Action>, k: nat, run: Id)
    requires Execution(states, actions) && k < |actions|
    ensures HasListed(states[k], run) ==> HasListed(states[k + 1], run) && !Lists(states[k], actions[k], run)
    ensures Lists(states[k], actions[k], run) ==> HasListed(states[k + 1], run)
  {
    ListedStays(states[k], actions[k], run);
  }

  /** A run lists what it did not observe at most once. */
  lemma ListsOnce(states: seq<World>, actions: seq<Action>, l: nat, m: nat, run: Id)
    requires Execution(states, actions) && l < m < |actions| && Lists(states[l], actions[l], run)
    ensures !Lists(states[m], actions[m], run)
  {
    ListedNext(states, actions, l, run);
    ListedOnwards(states, actions, l + 1, m, run);
    ListedNext(states, actions, m, run);
  }

  lemma {:induction false} NothingListedIn(states: seq<World>, actions: seq<Action>, i: nat, k: nat, run: Id)
    requires i <= k <= |actions| < |states|
    requires forall m :: i <= m < k ==> !Lists(states[m], actions[m], run)
    ensures ListedIn(states, actions, i, k, run) == 0
    decreases k
  {
    if i < k {
      NothingListedIn(states, actions, i, k - 1, run);
    }
  }

  lemma {:induction false} ListedInIs(states: seq<World>, actions: seq<Action>, i: nat, k: nat, l: nat, run: Id)
    requires i <= l < k <= |actions| < |states|
    requires forall m :: i <= m < k && m != l ==> !Lists(states[m], actions[m], run)
    ensures ListedIn(states, actions, i, k, run) == Listed(states[l], actions[l], run)
    decreases k
  {
    if l < k - 1 {
      ListedInIs(states, actions, i, k - 1, l, run);
    } else {
      NothingListedIn(states, actions, i, k - 1, run);
    }
  }

  /** Before its listing an executor that has left its recording has nothing in hand. */
  lemma NothingDueBeforeListing(states: seq<World>, actions: seq<Action>, i: nat, l: nat, run: Id)
    requires Execution(states, actions) && i <= l < |actions| && Lists(states[l], actions[l], run)
    requires run in states[i].runs.execs && states[i].runs.execs[run].pc.ResolveFenced?
    ensures Due(states[i], run) == 0
  {
    ListedNext(states, actions, l, run);
    if HasListed(states[i], run) {
      ListedOnwards(states, actions, i, l, run);
    }
    LinkedAt(states, actions, i);
    NothingDueUnlisted(states[i], run);
  }

  lemma LinkedAt(states: seq<World>, actions: seq<Action>, i: nat)
    requires Execution(states, actions) && i < |states|
    ensures Linked(states[i])
  {
    InvAlways(states, actions, i);
  }

  lemma NothingDueUnlisted(w: World, run: Id)
    requires Linked(w) && run in w.runs.execs && w.runs.execs[run].pc.ResolveFenced? && !HasListed(w, run)
    ensures Due(w, run) == 0
  {
    assert run in w.findings.recordings ==> LinkOk(w, run);
  }

  /** A finding is written only inside a call; a listing is made only by the second one. */
  lemma WritesInside(w: World, a: Action, run: Id)
    requires Enabled(w, a)
    ensures Writes(w, a, run) || Lists(w, a, run) ==>
              Fences.StageAt(w.runs, run) == Fences.ToRecord || Fences.StageAt(w.runs, run) == Fences.ToResolve
    ensures Lists(w, a, run) ==> Fences.StageAt(w.runs, run) == Fences.ToResolve
  {
  }

  lemma {:induction false} NoWritesIn(states: seq<World>, actions: seq<Action>, i: nat, k: nat, run: Id)
    requires i <= k <= |actions| < |states|
    requires forall m :: i <= m < k ==> !Writes(states[m], actions[m], run)
    ensures WritesIn(states, actions, i, k, run) == 0
    decreases k
  {
    if i < k {
      NoWritesIn(states, actions, i, k - 1, run);
    }
  }

  /**
   What is written to findings for a run that was closed at moment `i`, by moment `k`,
   depends on the check its executor had passed last. Past the one before the recording:
   at most its remaining candidates, and all of them if it comes to the end of the
   recording. Past the one before the resolving: at most the listed rows that still have
   their turn, the listing being taken before or after the closing. Otherwise nothing.
   */
  lemma WritesBelongToTheCall(states: seq<World>, actions: seq<Action>, i: nat, k: nat, run: Id)
    requires Execution(states, actions) && i <= k < |states|
    requires run in states[i].runs.runs && !T.Active(states[i].runs.runs[run])
    ensures var stage := Fences.StageAt(states[i].runs, run);
            var written := WritesIn(states, actions, i, k, run);
            && (stage == Fences.ToRecord ==>
                  && written + Due(states[k], run) <= Due(states[i], run)
                  && (Records(states[k], run) ==> written + Due(states[k], run) == Due(states[i], run)))
            && (stage == Fences.ToResolve ==>
                  || written + Due(states[k], run) <= Due(states[i], run)
                  || exists l :: i <= l < k && Lists(states[l], actions[l], run)
                       && written + Due(states[k], run) <= |FT.Absent(states[l].findings.rows, states[l].findings.recordings[run].pass)|)
            && (stage == Fences.NoWrite || stage == Fences.ToArchive ==> written == 0)
  {
    WritesAfterClosing(states, actions, i, k, run);
    forall m | i <= m < k ensures StageOfWrite(states, actions, i, m, run) {
      StageFromClosing(states, actions, i, m, run);
      WritesInside(states[m], actions[m], run);
    }
    if l :| i <= l < k && Lists(states[l], actions[l], run) {
      assert StageOfWrite(states, actions, i, l, run);
      ListingOfResolving(states, actions, i, k, l, run);
    } else {
      NothingListedIn(states, actions, i, k, run);
      if Fences.StageAt(states[i].runs, run) == Fences.NoWrite || Fences.StageAt(states[i].runs, run) == Fences.ToArchive {
        forall m | i <= m < k ensures !Writes(states[m], actions[m], run) {
          assert StageOfWrite(states, actions, i, m, run);
        }
        NoWritesIn(states, actions, i, k, run);
      }
    }
  }

  /** A write or listing at moment `m` belongs to the stage of moment `i`. */
  ghost predicate StageOfWrite(states: seq<World>, actions: seq<Action>, i: nat, m: nat, run: Id)
    requires i < |states| && m < |actions| && m < |states|
  {
    var stage := Fences.StageAt(states[i].runs, run);
    && (Writes(states[m], actions[m], run) ==> stage == Fences.ToRecord || stage == Fences.ToResolve)
    && (Lists(states[m], actions[m], run) ==> stage == Fences.ToResolve)
  }

  lemma ListingOfResolving(states: seq<World>, actions: seq<Action>, i: nat, k: nat, l: nat, run: Id)
    requires Execution(states, actions) && i <= l < k < |states| && Lists(states[l], actions[l], run)
    requires Fences.StageAt(states[i].runs, run) == Fences.ToResolve
    ensures Due(states[i], run) == 0
    ensures ListedIn(states, actions, i, k, run) == Listed(states[l], actions[l], run)
  {
    NothingDueBeforeListing(states, actions, i, l, run);
    forall m | i <= m < k && m != l ensures !Lists(states[m], actions[m], run) {
      if m < l && Lists(states[m], actions[m], run) {
        ListsOnce(states, actions, m, l, run);
      } else if l < m {
        ListsOnce(states, actions, l, m, run);
      }
    }
    ListedInIs(states, actions, i, k, l, run);
  }
}
