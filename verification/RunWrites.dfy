/**
 What each statement of the run protocol writes, and what the columns of a run mean for
 good: when it started, when it ended and why it failed (evaluation-run.service.ts).
 */
module RunWrites {
  import opened Common
  import opened RunTable
  import opened RunProtocol
  import opened RunInvariants
  import opened RunTheorems
  import opened RunJudgments
  import opened RunSweeps

  // ---- One statement each ----

  /** Nothing but one row changes. */
  ghost predicate OnlyRow(runs: Table, runs': Table, id: Id) {
    runs'.Keys == runs.Keys && forall other :: other in runs && other != id ==> runs'[other] == runs[other]
  }

  /** The insert adds one queued row for the subject and version of the request, or nothing if the pair is taken. */
  lemma InsertWrites(w: World, q: Id, id: Id)
    requires HandlerEnabled(w, q, Insert(id))
    ensures var (runs', request) := (HandlerApply(w, q, Insert(id)).runs, w.requests[q]);
            if Occupied(w.runs, request.subject, request.version) then runs' == w.runs
            else runs' == w.runs[id := Run(request.subject, request.version, Queued, None, None, None, w.now, w.now)]
  {
  }

  /** Starting a queued run writes the time; a run that is not queued any more is left alone. */
  lemma StartWrites(w: World, q: Id)
    requires HandlerEnabled(w, q, Start)
    ensures var (runs', id) := (HandlerApply(w, q, Start).runs, w.requests[q].run);
            if id in w.runs && w.runs[id].status == Queued
            then OnlyRow(w.runs, runs', id)
                 && runs'[id] == Run(w.runs[id].subject, w.runs[id].version, Running, w.runs[id].error, Some(w.now),
                                     w.runs[id].finishedAt, w.runs[id].createdAt, w.now)
            else runs' == w.runs
  {
  }

  /** A heartbeat writes the time of an active row and nothing else. */
  lemma HeartbeatWrites(w: World, id: Id)
    requires Enabled(w, Heartbeat(id))
    ensures var runs' := Apply(w, Heartbeat(id)).runs;
            if IsActive(w.runs, id)
            then OnlyRow(w.runs, runs', id)
                 && runs'[id].updatedAt == w.now && runs'[id].status == w.runs[id].status && runs'[id].startedAt == w.runs[id].startedAt
                 && SameRequest(runs'[id], w.runs[id]) && SameOutcome(runs'[id], w.runs[id])
            else runs' == w.runs
  {
  }

  /** What closing a row writes: the outcome and its time; what was asked for and when it started stay. */
  predicate IsClosed(row: Run, row': Run, status: Status, error: Option<string>, now: nat) {
    && row'.status == status && row'.error == error && row'.finishedAt == Some(now) && row'.updatedAt == now
    && row'.startedAt == row.startedAt && SameRequest(row', row)
  }

  /** An executor writes its row in two places only: to succeed, and to fail with the cut text of what it caught. */
  lemma ExecutorWrites(w: World, id: Id, choice: Choice)
    requires ExecutorEnabled(w, id, choice)
    ensures var (runs', pc) := (ExecutorApply(w, id, choice).runs, w.execs[id].pc);
            if choice.Proceed? && Active(w.runs[id]) && pc.SuccessFenced?
            then OnlyRow(w.runs, runs', id) && IsClosed(w.runs[id], runs'[id], Succeeded, w.runs[id].error, w.now)
            else if choice.Proceed? && Active(w.runs[id]) && pc.Catching?
            then OnlyRow(w.runs, runs', id)
                 && exists text :: IsClosed(w.runs[id], runs'[id], Failed, Some(text), w.now) && IsCut(pc.error, text)
            else runs' == w.runs
  {
    var (pc, effect) := Advance(w.execs[id], ViewOf(w, id), choice);
    EffectWrites(w, id, pc, effect);
    if choice.Proceed? && Active(w.runs[id]) && w.execs[id].pc.Catching? {
      var text := FormatRunError(w.execs[id].pc.error);
      assert effect == Fails(text) && IsCut(w.execs[id].pc.error, text);
    }
  }

  lemma EffectWrites(w: World, id: Id, pc: Pc, effect: Effect)
    requires id in w.execs && id in w.runs && (Closes(effect) ==> Active(w.runs[id]))
    ensures var runs' := AfterEffect(w, id, pc, effect).runs;
            match effect
            case Succeeds => OnlyRow(w.runs, runs', id) && IsClosed(w.runs[id], runs'[id], Succeeded, w.runs[id].error, w.now)
            case Fails(text) => OnlyRow(w.runs, runs', id) && IsClosed(w.runs[id], runs'[id], Failed, Some(text), w.now)
            case _ => runs' == w.runs
  {
  }

  /** The stored text is the text, or its first thousand characters. */
  predicate IsCut(text: string, stored: string) {
    if |text| <= 1000 then stored == text else |stored| == 1000 && stored == text[..1000]
  }

  /** A sweep writes a row only while it is as it was selected, and then closes it as abandoned. */
  lemma SweepWrites(w: World, sweep: Id, step: SweepStep)
    requires SweepEnabled(w, sweep, step)
    ensures var runs' := SweepApply(w, sweep, step).runs;
            if step.Reap? && IsActive(w.runs, step.run) && w.runs[step.run].updatedAt == w.sweeps[sweep].candidates[step.run]
            then OnlyRow(w.runs, runs', step.run)
                 && IsClosed(w.runs[step.run], runs'[step.run], Failed,
                             Some("Run abandoned: no progress within the timeout window (process restart?)"), w.now)
            else runs' == w.runs
  {
  }

  // ---- When a run ended ----

  /** The end that a closed row has is the moment of the step that closed it. */
  ghost predicate EndsNow(w: World, w': World, id: Id) {
    IsActive(w.runs, id) && !IsActive(w'.runs, id) ==> id in w'.runs && w'.runs[id].finishedAt == Some(w.now)
  }

  lemma EndsAtItsStep(w: World, a: Action, id: Id)
    requires Enabled(w, a)
    ensures EndsNow(w, Apply(w, a), id)
  {
    match a {
      case Tick(_) =>
      case Administer(_) =>
      case Handle(_, _) =>
      case Execute(run, choice) => ExecutorWrites(w, run, choice);
      case Heartbeat(_) =>
      case SweepBy(sweep, step) => SweepWrites(w, sweep, step);
    }
  }

  /** Every closed run carries the time at which it was closed: there is one such moment, and `finishedAt` is it. */
  lemma FinishedAtIsTheEnd(states: seq<World>, actions: seq<Action>, j: nat, i: nat, id: Id) returns (k: nat)
    requires Execution(states, actions) && j <= i < |states| && IsActive(states[j].runs, id) && !IsActive(states[i].runs, id)
    ensures j <= k < i && IsActive(states[k].runs, id) && !IsActive(states[k + 1].runs, id)
    ensures id in states[i].runs && states[i].runs[id].finishedAt == Some(states[k].now)
  {
    k := ClosingStep(states, j, i, id);
    EndsAtItsStep(states[k], actions[k], id);
    TerminalIsFinal(states, actions, k + 1, i, id);
  }

  // ---- Why it failed ----

  /** The run's execution was thrown out with this error. */
  predicate Throws(a: Action, run: Id) {
    a.Execute? && a.run == run && a.choice.Throw?
  }

  /** Past the failure: either nothing is written yet, or the executor itself has written the cut text of this error. */
  predicate Blames(w: World, run: Id, error: string) {
    && run in w.execs && run in w.runs
    && !Trying(w.execs[run].pc) && !Succeeding(w.execs[run].pc)
    && (w.execs[run].pc.Catching? ==> w.execs[run].pc.error == error)
    && (Own(w.closedBy, run) ==> w.runs[run].status == Failed && w.runs[run].error.Some? && IsCut(error, w.runs[run].error.value))
    && (Own(w.closedBy, run) ==> !w.execs[run].pc.Catching?)
  }

  lemma ThrowBlames(w: World, run: Id, choice: Choice)
    requires OwnersOk(w) && ExecutorEnabled(w, run, choice) && choice.Throw?
    ensures Blames(ExecutorApply(w, run, choice), run, choice.error)
  {
    assert ExecOk(w.execs[run], w.runs[run], Own(w.closedBy, run));
  }

  /** Past the failure an executor can only fail the row, and then with the cut text. */
  lemma AdvanceBlames(exec: Exec, view: View, choice: Choice, error: string)
    requires Fits(exec.pc, choice) && !Trying(exec.pc) && !Succeeding(exec.pc) && (exec.pc.Catching? ==> exec.pc.error == error)
    ensures var (pc, effect) := Advance(exec, view, choice);
            && !Trying(pc) && !Succeeding(pc) && !pc.Catching? && !effect.Succeeds?
            && (effect.Fails? ==> exec.pc.Catching? && Active(view.row) && IsCut(error, effect.text))
  {
  }

  lemma EffectBlames(w: World, run: Id, pc: Pc, effect: Effect, error: string)
    requires run in w.execs && run in w.runs && Blames(w, run, error)
    requires !Trying(pc) && !Succeeding(pc) && !pc.Catching? && !effect.Succeeds?
    requires effect.Fails? ==> Active(w.runs[run]) && IsCut(error, effect.text)
    ensures Blames(AfterEffect(w, run, pc, effect), run, error)
  {
    if effect.Fails? {
      EffectWrites(w, run, pc, effect);
    }
  }

  lemma OwnStepBlames(w: World, run: Id, choice: Choice, error: string)
    requires ExecutorEnabled(w, run, choice) && Blames(w, run, error)
    ensures Blames(ExecutorApply(w, run, choice), run, error)
  {
    AdvanceBlames(w.execs[run], ViewOf(w, run), choice, error);
    var (pc, effect) := Advance(w.execs[run], ViewOf(w, run), choice);
    EffectBlames(w, run, pc, effect, error);
  }

  lemma OthersBlame(w: World, a: Action, run: Id, error: string)
    requires OwnersOk(w) && RequestsOk(w.runs, w.execs, w.requests) && Enabled(w, a) && !(a.Execute? && a.run == run)
    requires Blames(w, run, error)
    ensures Blames(Apply(w, a), run, error)
  {
    StepMovesOne(w, a, run);
    TerminalRowsAreFrozen(w, a);
    OwnStays(w, a, run);
  }

  /** Only an executor's own step makes it the closer of its row, and for good. */
  lemma OwnStays(w: World, a: Action, run: Id)
    requires OwnersOk(w) && Enabled(w, a) && !(a.Execute? && a.run == run)
    ensures Own(Apply(w, a).closedBy, run) <==> Own(w.closedBy, run)
  {
    if a.Execute? {
      var (pc, effect) := Advance(w.execs[a.run], ViewOf(w, a.run), a.choice);
    }
  }

  lemma {:induction false} BlameStays(states: seq<World>, actions: seq<Action>, j: nat, i: nat, run: Id)
    requires Execution(states, actions) && j < i < |states| && Throws(actions[j], run)
    ensures Blames(states[i], run, actions[j].choice.error)
    decreases i
  {
    InvAlways(states, actions, i - 1);
    if i == j + 1 {
      ThrowBlames(states[j], run, actions[j].choice);
    } else {
      BlameStays(states, actions, j, i - 1, run);
      BlameNext(states[i - 1], actions[i - 1], run, actions[j].choice.error);
    }
  }

  lemma BlameNext(w: World, a: Action, run: Id, error: string)
    requires OwnersOk(w) && RequestsOk(w.runs, w.execs, w.requests) && Enabled(w, a) && Blames(w, run, error)
    ensures Blames(Apply(w, a), run, error)
  {
    if a.Execute? && a.run == run {
      OwnStepBlames(w, run, a.choice, error);
    } else {
      OthersBlame(w, a, run, error);
    }
  }

  /** A run whose executor threw never succeeds; if the executor closes it, then as FAILED with the cut text of that very error. */
  lemma FailureNamesItsCause(states: seq<World>, actions: seq<Action>, j: nat, i: nat, run: Id, error: string)
    requires Execution(states, actions) && j < i < |states| && actions[j] == Execute(run, Throw(error))
    ensures run in states[i].runs && states[i].runs[run].status != Succeeded
    ensures run in states[i].closedBy && states[i].closedBy[run] == ByExecutor ==>
              states[i].runs[run].status == Failed && states[i].runs[run].error.Some? && IsCut(error, states[i].runs[run].error.value)
  {
    BlameStays(states, actions, j, i, run);
    InvAlways(states, actions, i);
    assert ExecOk(states[i].execs[run], states[i].runs[run], Own(states[i].closedBy, run));
  }

  // ---- Heartbeats and the clock ----

  /** The row is at least as fresh as `moment`, or no longer active. */
  predicate FreshSince(runs: Table, id: Id, moment: nat) {
    IsActive(runs, id) ==> runs[id].updatedAt >= moment
  }

  lemma TouchFreshens(w: World, a: Action, id: Id)
    requires Enabled(w, a) && a == Heartbeat(id)
    ensures FreshSince(Apply(w, a).runs, id, w.now)
  {
    HeartbeatWrites(w, id);
  }

  lemma FreshnessStays(w: World, a: Action, id: Id, moment: nat)
    requires Enabled(w, a) && moment <= w.now && id in w.runs && FreshSince(w.runs, id, moment)
    ensures id in Apply(w, a).runs && FreshSince(Apply(w, a).runs, id, moment)
  {
    TerminalRowsAreFrozen(w, a);
    match a {
      case Tick(_) =>
      case Administer(_) =>
      case Handle(_, _) =>
      case Execute(run, choice) => ExecutorWrites(w, run, choice);
      case Heartbeat(run) => HeartbeatWrites(w, run);
      case SweepBy(sweep, step) => SweepWrites(w, sweep, step);
    }
  }

  lemma TimeGoesOn(w: World, a: Action)
    requires Enabled(w, a)
    ensures Apply(w, a).now >= w.now
  {
    if a.Execute? {
      var (pc, effect) := Advance(w.execs[a.run], ViewOf(w, a.run), a.choice);
    }
  }

  lemma {:induction false} BeatLasts(states: seq<World>, actions: seq<Action>, k: nat, i: nat, id: Id)
    requires Execution(states, actions) && k < i < |states| && actions[k] == Heartbeat(id) && id in states[k].runs
    ensures states[i].now >= states[k].now && id in states[i].runs && FreshSince(states[i].runs, id, states[k].now)
    decreases i
  {
    if i == k + 1 {
      TouchFreshens(states[k], actions[k], id);
      FreshnessStays(states[k], actions[k], id, 0);
      TimeGoesOn(states[k], actions[k]);
    } else {
      BeatLasts(states, actions, k, i - 1, id);
      FreshnessStays(states[i - 1], actions[i - 1], id, states[k].now);
      TimeGoesOn(states[i - 1], actions[i - 1]);
    }
  }

  /** Once the run is older than the timeout, there is always a heartbeat not longer ago than that. */
  ghost predicate BeatsInTime(states: seq<World>, actions: seq<Action>, id: Id)
    requires |actions| < |states|
  {
    forall i :: 0 <= i < |states| && IsActive(states[i].runs, id) && states[i].now > states[i].runs[id].createdAt + states[i].timeout ==>
      exists k :: 0 <= k < i && k < |actions| && BeatAt(states, actions, k, id) && states[i].now - states[k].now <= states[i].timeout
  }

  predicate BeatAt(states: seq<World>, actions: seq<Action>, k: nat, id: Id)
    requires k < |actions| < |states|
  {
    actions[k] == Heartbeat(id) && id in states[k].runs
  }

  /** A run with a heartbeat at least once per timeout is never reaped, whatever sweeps do. */
  lemma BeatenInTimeNeverReaped(states: seq<World>, actions: seq<Action>, i: nat, id: Id)
    requires Execution(states, actions) && i < |states| && BeatsInTime(states, actions, id)
    ensures NotBySweep(states[i].closedBy, id)
    ensures forall s :: s in states[i].sweeps ==> id !in states[i].sweeps[s].reaped
  {
    forall m | 0 <= m < |states| && IsActive(states[m].runs, id)
      ensures states[m].now - states[m].runs[id].updatedAt <= states[m].timeout
    {
      InvAlways(states, actions, m);
      assert RowOk(states[m].now, states[m].runs[id]);
      if states[m].now > states[m].runs[id].createdAt + states[m].timeout {
        var k :| 0 <= k < m && k < |actions| && BeatAt(states, actions, k, id) && states[m].now - states[k].now <= states[m].timeout;
        BeatLasts(states, actions, k, m, id);
      }
    }
    TouchedInTimeNeverReaped(states, actions, i, id);
  }
}
