/**
 What the fences of `execute` buy (evaluation-runner.service.ts): which call an executor
 can still complete once its row is closed, and so when a failed run owns a result.
 How many finding rows such a call writes is the subject of EvaluationTheorems.
 */
module RunFences {
  import opened Common
  import opened RunTable
  import opened RunProtocol
  import opened RunInvariants
  import opened RunTheorems

  datatype Stage = NoWrite | ToArchive | ToRecord | ToResolve

  /** The writing call that is still to come, or going on, before the next check of the row. */
  function StageOf(pc: Pc): Stage {
    match pc
    case ResultChecked(_) => ToArchive
    case VerdictsChecked(_) => ToArchive
    case FindingsFenced(_) => ToRecord
    case Recording(_) => ToRecord
    case ResolveFenced => ToResolve
    case _ => NoWrite
  }

  /** The step ends that call: the result is archived, the findings are recorded, or the absent ones resolved. */
  predicate Completes(pc: Pc) {
    pc.VerdictsChecked? || pc.Recording? || pc.ResolveFenced?
  }

  function StageAt(w: World, id: Id): Stage {
    if id in w.execs then StageOf(w.execs[id].pc) else NoWrite
  }

  /** The action ends a writing call of the run's executor. */
  predicate CompletesAt(w: World, a: Action, id: Id) {
    a == Execute(id, Proceed) && id in w.execs && Completes(w.execs[id].pc)
  }

  /** Over a closed row a step enters no new stage, and completing a call ends the one it is in. */
  lemma AdvanceLeavesStage(exec: Exec, view: View, choice: Choice)
    requires Fits(exec.pc, choice) && !Active(view.row)
    ensures var stage := StageOf(Advance(exec, view, choice).0);
            stage == NoWrite || (stage == StageOf(exec.pc) && !(choice == Proceed && Completes(exec.pc)))
  {
  }

  lemma ExecutorLeavesStage(w: World, run: Id, choice: Choice, id: Id)
    requires ExecutorEnabled(w, run, choice) && id in w.runs && !Active(w.runs[id])
    ensures var stage := StageAt(ExecutorApply(w, run, choice), id);
            stage == NoWrite || (stage == StageAt(w, id) && !CompletesAt(w, Execute(run, choice), id))
  {
    if run == id {
      AdvanceLeavesStage(w.execs[run], ViewOf(w, run), choice);
    }
  }

  lemma HandlerLeavesStage(w: World, q: Id, step: HandlerStep, id: Id)
    requires HandlerEnabled(w, q, step)
    ensures StageAt(HandlerApply(w, q, step), id) == NoWrite || StageAt(HandlerApply(w, q, step), id) == StageAt(w, id)
  {
  }

  lemma ActionLeavesStage(w: World, a: Action, id: Id)
    requires Enabled(w, a) && id in w.runs && !Active(w.runs[id])
    ensures var stage := StageAt(Apply(w, a), id);
            stage == NoWrite || (stage == StageAt(w, id) && !CompletesAt(w, a, id))
  {
    match a {
      case Tick(_) =>
      case Administer(_) =>
      case Handle(q, step) => HandlerLeavesStage(w, q, step, id);
      case Execute(run, choice) => ExecutorLeavesStage(w, run, choice, id);
      case Heartbeat(_) =>
      case SweepBy(_, _) =>
    }
  }

  lemma {:induction false} StageAfterClosing(states: seq<World>, actions: seq<Action>, i: nat, k: nat, id: Id)
    requires Execution(states, actions) && i <= k < |states| && id in states[i].runs && !Active(states[i].runs[id])
    ensures StageAt(states[k], id) == NoWrite || StageAt(states[k], id) == StageAt(states[i], id)
    decreases k
  {
    if i < k {
      StageAfterClosing(states, actions, i, k - 1, id);
      TerminalIsFinal(states, actions, i, k - 1, id);
      ActionLeavesStage(states[k - 1], actions[k - 1], id);
    }
  }

  /**
   After a row is closed its executor completes at most one more writing call, and only
   the one for which it had already passed the check when the row was closed:
   `createResult`, `recordFindings` or `resolveAbsentFindings`.
   */
  lemma OneCallAfterClosing(states: seq<World>, actions: seq<Action>, i: nat, k: nat, id: Id)
    requires Execution(states, actions) && i <= k < |actions| && id in states[i].runs && !Active(states[i].runs[id])
    requires CompletesAt(states[k], actions[k], id)
    ensures StageAt(states[i], id) == StageAt(states[k], id) != NoWrite
    ensures forall m :: k < m < |actions| ==> !CompletesAt(states[m], actions[m], id)
  {
    StageAfterClosing(states, actions, i, k, id);
    TerminalIsFinal(states, actions, i, k, id);
    ActionLeavesStage(states[k], actions[k], id);
    TerminalIsFinal(states, actions, i, k + 1, id);
    forall m | k < m < |actions| ensures !CompletesAt(states[m], actions[m], id) {
      StageAfterClosing(states, actions, k + 1, m, id);
    }
  }

  // ---- Results ----

  /** The step archives the run's result. */
  predicate Archives(w: World, a: Action, id: Id) {
    a == Execute(id, Proceed) && id in w.execs && w.execs[id].pc.VerdictsChecked?
  }

  lemma ExecutorArchives(w: World, run: Id, choice: Choice, id: Id)
    requires ExecutorEnabled(w, run, choice) && ResultsPlaced(w.execs, w.results)
    ensures id in ExecutorApply(w, run, choice).results <==> id in w.results || Archives(w, Execute(run, choice), id)
  {
  }

  lemma ResultNext(w: World, a: Action, id: Id)
    requires Enabled(w, a) && ResultsPlaced(w.execs, w.results)
    ensures id in Apply(w, a).results <==> id in w.results || Archives(w, a, id)
  {
    match a {
      case Tick(_) =>
      case Administer(_) =>
      case Handle(_, _) =>
      case Execute(run, choice) => ExecutorArchives(w, run, choice, id);
      case Heartbeat(_) =>
      case SweepBy(_, _) =>
    }
  }

  /** A run has a result exactly once its executor took the archiving step. */
  lemma {:induction false} ResultsComeFromArchiving(states: seq<World>, actions: seq<Action>, i: nat, j: nat, id: Id)
    requires Execution(states, actions) && i <= j < |states|
    ensures id in states[j].results <==> id in states[i].results || exists k :: i <= k < j && Archives(states[k], actions[k], id)
    decreases j
  {
    if i < j {
      ResultsComeFromArchiving(states, actions, i, j - 1, id);
      InvAlways(states, actions, j - 1);
      ResultNext(states[j - 1], actions[j - 1], id);
    }
  }

  /**
   When a closed run owns a result: it had one when it was closed, or its executor stood
   past the check that the run is active and has archived since. An executor that had
   not come that far never archives anything for a closed run.
   */
  lemma ClosedRunHasResultIff(states: seq<World>, actions: seq<Action>, i: nat, j: nat, id: Id)
    requires Execution(states, actions) && i <= j < |states| && id in states[i].runs && !Active(states[i].runs[id])
    ensures id in states[j].results <==>
              || id in states[i].results
              || (StageAt(states[i], id) == ToArchive && exists k :: i <= k < j && Archives(states[k], actions[k], id))
    ensures id in states[i].results ==> StageAt(states[i], id) != ToArchive
  {
    ResultsComeFromArchiving(states, actions, i, j, id);
    forall k | i <= k < j && Archives(states[k], actions[k], id) ensures StageAt(states[i], id) == ToArchive {
      ArchivesFromItsStage(states, actions, i, k, id);
    }
    if StageAt(states[i], id) == ToArchive {
      NotArchivedYet(states, actions, i, id);
    }
  }

  lemma ArchivesFromItsStage(states: seq<World>, actions: seq<Action>, i: nat, k: nat, id: Id)
    requires Execution(states, actions) && i <= k < |actions| && id in states[i].runs && !Active(states[i].runs[id])
    requires Archives(states[k], actions[k], id)
    ensures StageAt(states[i], id) == ToArchive
  {
    OneCallAfterClosing(states, actions, i, k, id);
  }

  lemma NotArchivedYet(states: seq<World>, actions: seq<Action>, i: nat, id: Id)
    requires Execution(states, actions) && i < |states| && StageAt(states[i], id) == ToArchive
    ensures id !in states[i].results
  {
    InvAlways(states, actions, i);
    assert ResultFits(states[i].execs[id].pc, id in states[i].results);
  }
}
