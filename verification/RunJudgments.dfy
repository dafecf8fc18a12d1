/**
 What becomes of a judgment: the executor that got it archives it as it was, and every
 archived result was judged (evaluation-runner.service.ts).
 */
module RunJudgments {
  import opened Common
  import opened RunTable
  import opened RunProtocol
  import opened RunInvariants
  import J = Judgment
  import Comp = CoverageComposer

  // ---- Executors move by their own steps ----

  /** Only its own steps move an executor; none is dropped or opened again. */
  ghost predicate MovesOnly(w: World, a: Action, w': World, run: Id)
    requires run in w.execs
  {
    && run in w'.execs
    && if a.Execute? && a.run == run
       then ExecutorEnabled(w, run, a.choice)
            && w'.execs[run].pc == Advance(w.execs[run], ViewOf(w, run), a.choice).0
       else w'.execs[run].pc == w.execs[run].pc
  }

  lemma ExecutorMovesOne(w: World, run: Id, choice: Choice, id: Id)
    requires ExecutorEnabled(w, run, choice) && id in w.execs
    ensures MovesOnly(w, Execute(run, choice), ExecutorApply(w, run, choice), id)
    ensures ExecutorApply(w, run, choice).execs.Keys == w.execs.Keys
  {
  }

  lemma StepMovesOne(w: World, a: Action, id: Id)
    requires Enabled(w, a) && RequestsOk(w.runs, w.execs, w.requests) && id in w.execs
    ensures MovesOnly(w, a, Apply(w, a), id)
  {
    match a {
      case Tick(_) =>
      case Administer(_) =>
      case Handle(q, step) => assert step.Open? ==> RequestOk(w.runs, w.execs, w.requests[q]);
      case Execute(run, choice) => ExecutorMovesOne(w, run, choice, id);
      case Heartbeat(_) =>
      case SweepBy(_, _) =>
    }
  }

  /** An executor that is new stands at the beginning. */
  lemma NewExecsBegin(w: World, a: Action, id: Id)
    requires Enabled(w, a) && id !in w.execs && id in Apply(w, a).execs
    ensures Apply(w, a).execs[id].pc.Collecting?
  {
  }

  lemma OnlyOwnResults(w: World, a: Action, id: Id)
    requires Enabled(w, a) && !(a.Execute? && a.run == id)
    ensures id in Apply(w, a).results <==> id in w.results
    ensures id in w.results ==> Apply(w, a).results[id] == w.results[id]
  {
    if a.Execute? {
      var (pc, effect) := Advance(w.execs[a.run], ViewOf(w, a.run), a.choice);
    }
  }

  // ---- From the judgment on ----

  /** The action is the judgment of the run. */
  predicate Judges(a: Action, run: Id) {
    a.Execute? && a.run == run && a.choice.Judgment?
  }

  predicate Carries(draft: Draft, judgment: Choice)
    requires judgment.Judgment?
  {
    draft.input == judgment.input && draft.verdicts == judgment.verdicts && draft.findings == judgment.findings
  }

  /** The run was judged; what its executor holds and what is archived for it is that judgment. */
  predicate Keeps(w: World, run: Id, judgment: Choice)
    requires judgment.Judgment?
  {
    && run in w.execs && !w.execs[run].pc.Collecting? && !w.execs[run].pc.Judging?
    && (HasDraft(w.execs[run].pc) ==> Carries(w.execs[run].pc.draft, judgment))
    && (run in w.results ==> w.results[run] == Archived(judgment.input, judgment.verdicts))
  }

  /** What a step makes of the judgment in hand. */
  lemma AdvanceCarries(exec: Exec, view: View, choice: Choice)
    requires Fits(exec.pc, choice)
    ensures var (pc, effect) := Advance(exec, view, choice);
            && (!exec.pc.Collecting? ==> !pc.Collecting? && !pc.Judging?)
            && (HasDraft(pc) ==> if exec.pc.Judging? then choice.Judgment? && Carries(pc.draft, choice)
                                 else HasDraft(exec.pc) && pc.draft == exec.pc.draft)
            && (effect.Stores? ==> HasDraft(exec.pc) && effect.result == Archived(exec.pc.draft.input, exec.pc.draft.verdicts))
  {
  }

  lemma ExecutorResult(w: World, run: Id, choice: Choice)
    requires ExecutorEnabled(w, run, choice)
    ensures var (pc, effect) := Advance(w.execs[run], ViewOf(w, run), choice);
            var w' := ExecutorApply(w, run, choice);
            && run in w'.execs && w'.execs[run].pc == pc
            && w'.results == if effect.Stores? then w.results[run := effect.result] else w.results
  {
  }

  lemma JudgmentIsKept(w: World, a: Action, run: Id, judgment: Choice)
    requires Enabled(w, a) && RequestsOk(w.runs, w.execs, w.requests) && judgment.Judgment? && Keeps(w, run, judgment)
    ensures Keeps(Apply(w, a), run, judgment)
  {
    if a.Execute? && a.run == run {
      AdvanceCarries(w.execs[run], ViewOf(w, run), a.choice);
      ExecutorResult(w, run, a.choice);
    } else {
      StepMovesOne(w, a, run);
      OnlyOwnResults(w, a, run);
    }
  }

  lemma JudgmentIsTaken(w: World, a: Action, run: Id)
    requires Enabled(w, a) && Judges(a, run) && ResultsPlaced(w.execs, w.results)
    ensures Keeps(Apply(w, a), run, a.choice)
  {
    AdvanceCarries(w.execs[run], ViewOf(w, run), a.choice);
    ExecutorResult(w, run, a.choice);
    assert ResultFits(w.execs[run].pc, run in w.results);
  }

  lemma {:induction false} JudgmentStays(states: seq<World>, actions: seq<Action>, j: nat, i: nat, run: Id)
    requires Execution(states, actions) && j < i < |states| && Judges(actions[j], run)
    ensures Keeps(states[i], run, actions[j].choice)
    decreases i
  {
    InvAlways(states, actions, i - 1);
    if i == j + 1 {
      JudgmentIsTaken(states[j], actions[j], run);
    } else {
      JudgmentStays(states, actions, j, i - 1, run);
      JudgmentIsKept(states[i - 1], actions[i - 1], run, actions[j].choice);
    }
  }

  /** Whatever happens between judgment and archiving, the archived result is the judgment: its evidence, its verdicts. */
  lemma ResultIsTheJudgment(
    states: seq<World>, actions: seq<Action>, j: nat, i: nat, run: Id,
    input: Comp.Input, verdicts: seq<J.Verdict>, findings: seq<J.Candidate>)
    requires Execution(states, actions) && j < i < |states|
    requires actions[j] == Execute(run, Judgment(input, verdicts, findings)) && run in states[i].results
    ensures states[i].results[run] == Archived(input, verdicts)
  {
    JudgmentStays(states, actions, j, i, run);
  }

  /** A run is judged at most once. */
  lemma JudgedOnce(states: seq<World>, actions: seq<Action>, j: nat, k: nat, run: Id)
    requires Execution(states, actions) && j < |actions| && k < |actions| && Judges(actions[j], run) && Judges(actions[k], run)
    ensures j == k
  {
    if j < k {
      JudgmentStays(states, actions, j, k, run);
    } else if k < j {
      JudgmentStays(states, actions, k, j, run);
    }
  }

  // ---- Every result was judged ----

  predicate WasJudged(actions: seq<Action>, i: nat, run: Id)
    requires i <= |actions|
  {
    exists j :: 0 <= j < i && Judges(actions[j], run)
  }

  /** Past the judgment with success, or with a result. */
  predicate NeedsJudgment(w: World, run: Id) {
    (run in w.execs && HasDraft(w.execs[run].pc)) || run in w.results
  }

  lemma NeedNext(w: World, a: Action, run: Id)
    requires Enabled(w, a) && RequestsOk(w.runs, w.execs, w.requests) && NeedsJudgment(Apply(w, a), run)
    ensures NeedsJudgment(w, run) || Judges(a, run)
  {
    if a.Execute? && a.run == run {
      AdvanceCarries(w.execs[run], ViewOf(w, run), a.choice);
      ExecutorResult(w, run, a.choice);
    } else {
      OnlyOwnResults(w, a, run);
      if run in w.execs {
        StepMovesOne(w, a, run);
      } else if run in Apply(w, a).execs {
        NewExecsBegin(w, a, run);
      }
    }
  }

  /** ... so a result that exists was judged, and by JudgedOnce and ResultIsTheJudgment is exactly that judgment. */
  lemma {:induction false} ResultsWereJudged(states: seq<World>, actions: seq<Action>, i: nat, run: Id)
    requires Execution(states, actions) && i < |states| && NeedsJudgment(states[i], run)
    ensures WasJudged(actions, i, run)
  {
    if i > 0 {
      InvAlways(states, actions, i - 1);
      NeedNext(states[i - 1], actions[i - 1], run);
      if !Judges(actions[i - 1], run) {
        ResultsWereJudged(states, actions, i - 1, run);
      }
    }
  }
}
