/**
 What a sweep achieves, told by the clock and the rows alone: which runs a sweep begun
 at some moment has failed by the time it is through (evaluation-run.service.ts).
 */
module RunSweeps {
  import opened Common
  import opened RunTable
  import opened RunProtocol
  import opened RunInvariants
  import opened RunTheorems

  // ---- The cutoff ----

  predicate HasCutoff(w: World, sweep: Id, cutoff: int) {
    sweep in w.sweeps && w.sweeps[sweep].cutoff == cutoff
  }

  lemma CutoffNext(w: World, a: Action, sweep: Id, cutoff: int)
    requires Enabled(w, a) && HasCutoff(w, sweep, cutoff)
    ensures HasCutoff(Apply(w, a), sweep, cutoff)
  {
    match a {
      case Tick(_) =>
      case Administer(_) =>
      case Handle(_, _) =>
      case Execute(run, choice) => ExecutorLeaves(w, run, choice);
      case Heartbeat(_) =>
      case SweepBy(_, _) =>
    }
  }

  /** A sweep's cutoff is the timeout before the moment it began. */
  lemma {:induction false} CutoffIsTheTimeoutAgo(states: seq<World>, actions: seq<Action>, j: nat, i: nat, sweep: Id)
    requires Execution(states, actions) && j < i < |states| && actions[j] == SweepBy(sweep, Begin)
    ensures HasCutoff(states[i], sweep, states[j].now - states[j].timeout)
    decreases i
  {
    if j + 1 < i {
      CutoffIsTheTimeoutAgo(states, actions, j, i - 1, sweep);
      CutoffNext(states[i - 1], actions[i - 1], sweep, states[j].now - states[j].timeout);
    }
  }

  // ---- Rows that nobody touches ----

  /** The action is a heartbeat of the run, or the write that starts it. */
  predicate Touches(w: World, a: Action, id: Id) {
    || a == Heartbeat(id)
    || (a.Handle? && a.handler.Start? && a.request in w.requests && w.requests[a.request].Created? && w.requests[a.request].run == id)
  }

  predicate StaysUntouched(runs: Table, runs': Table, id: Id) {
    IsActive(runs, id) ==> id in runs' && (Active(runs'[id]) ==> runs'[id].updatedAt == runs[id].updatedAt)
  }

  lemma UntouchedNext(w: World, a: Action, id: Id)
    requires Enabled(w, a) && !Touches(w, a, id)
    ensures StaysUntouched(w.runs, Apply(w, a).runs, id)
  {
    match a {
      case Tick(_) =>
      case Administer(_) =>
      case Handle(_, _) =>
      case Execute(run, choice) =>
        var (pc, effect) := Advance(w.execs[run], ViewOf(w, run), choice);
        EffectTouchesNone(w, run, pc, effect, id);
      case Heartbeat(_) =>
      case SweepBy(_, _) =>
    }
  }

  lemma EffectTouchesNone(w: World, run: Id, pc: Pc, effect: Effect, id: Id)
    requires run in w.execs && run in w.runs
    ensures StaysUntouched(w.runs, AfterEffect(w, run, pc, effect).runs, id)
  {
  }

  /** Nobody touches the run between the two moments. */
  ghost predicate Untouched(states: seq<World>, actions: seq<Action>, j: nat, i: nat, id: Id)
    requires i <= |actions| <= |states|
  {
    forall k :: j <= k < i ==> !Touches(states[k], actions[k], id)
  }

  ghost predicate AgeKept(states: seq<World>, k: nat, id: Id)
    requires k + 1 < |states|
  {
    Frozen(states[k].runs, states[k + 1].runs) && StaysUntouched(states[k].runs, states[k + 1].runs, id)
  }

  lemma AgeKeptAt(states: seq<World>, actions: seq<Action>, k: nat, id: Id)
    requires Execution(states, actions) && k < |actions| && !Touches(states[k], actions[k], id)
    ensures AgeKept(states, k, id)
  {
    FrozenNext(states, actions, k);
    UntouchedNext(states[k], actions[k], id);
  }

  lemma {:induction false} AgeKeptLong(states: seq<World>, j: nat, i: nat, id: Id)
    requires j <= i < |states| && id in states[j].runs && forall k :: j <= k < i ==> AgeKept(states, k, id)
    ensures id in states[i].runs
    ensures Active(states[i].runs[id]) ==> Active(states[j].runs[id]) && states[i].runs[id].updatedAt == states[j].runs[id].updatedAt
    decreases i
  {
    if j < i {
      AgeKeptLong(states, j, i - 1, id);
      assert AgeKept(states, i - 1, id);
    }
  }

  lemma UntouchedKeepsAge(states: seq<World>, actions: seq<Action>, j: nat, i: nat, id: Id)
    requires Execution(states, actions) && j <= i < |states| && Untouched(states, actions, j, i, id) && id in states[j].runs
    ensures id in states[i].runs
    ensures Active(states[i].runs[id]) ==> Active(states[j].runs[id]) && states[i].runs[id].updatedAt == states[j].runs[id].updatedAt
  {
    forall k | j <= k < i ensures AgeKept(states, k, id) {
      AgeKeptAt(states, actions, k, id);
    }
    AgeKeptLong(states, j, i, id);
  }

  // ---- The law ----

  /** Active, and longer than the timeout without a sign of life. */
  predicate IsStale(w: World, id: Id) {
    IsActive(w.runs, id) && w.now - w.runs[id].updatedAt > w.timeout
  }

  /** The sweep has selected its rows and had a turn for each of them. */
  predicate IsThrough(w: World, sweep: Id) {
    sweep in w.sweeps && w.sweeps[sweep].selected && w.sweeps[sweep].candidates == map[]
  }

  /**
   A run that has given no sign of life for longer than the timeout when a sweep begins,
   and gives none until the sweep is through, is closed by then: by the sweep, by
   another one, or by its own executor.
   */
  lemma StaleRunIsClosed(states: seq<World>, actions: seq<Action>, j: nat, i: nat, sweep: Id, id: Id)
    requires Execution(states, actions) && j < i < |states| && actions[j] == SweepBy(sweep, Begin)
    requires IsThrough(states[i], sweep) && IsStale(states[j], id) && Untouched(states, actions, j, i, id)
    ensures id in states[i].runs && !Active(states[i].runs[id])
  {
    CutoffIsTheTimeoutAgo(states, actions, j, i, sweep);
    UntouchedKeepsAge(states, actions, j, i, id);
    SweepLeavesNothingStale(states, actions, i, sweep, id);
  }

  // ---- The pair ----

  /** Only an insert adds a row, and it changes no other. */
  ghost predicate AddsOrKeeps(w: World, a: Action, w': World) {
    || w'.runs.Keys == w.runs.Keys
    || (a.Handle? && a.handler.Insert? && forall id :: id in w.runs ==> id in w'.runs && w'.runs[id] == w.runs[id])
  }

  lemma StepAddsOrKeeps(w: World, a: Action)
    requires Enabled(w, a)
    ensures AddsOrKeeps(w, a, Apply(w, a))
  {
    match a {
      case Tick(_) =>
      case Administer(_) =>
      case Handle(_, _) =>
      case Execute(run, choice) =>
        var (pc, effect) := Advance(w.execs[run], ViewOf(w, run), choice);
        EffectKeepsOrigins(w, run, pc, effect);
      case Heartbeat(_) =>
      case SweepBy(_, _) =>
    }
  }

  /** The step that closes a run leaves its pair free. */
  lemma ClosingFreesThePair(w: World, a: Action, id: Id)
    requires Enabled(w, a) && OneActive(w.runs) && IsActive(w.runs, id) && !IsActive(Apply(w, a).runs, id)
    requires SameOriginsAll(w.runs, Apply(w, a).runs)
    ensures !Occupied(Apply(w, a).runs, w.runs[id].subject, w.runs[id].version)
  {
    TerminalRowsAreFrozen(w, a);
    StepAddsOrKeeps(w, a);
  }

  ghost predicate SameOriginsAll(runs: Table, runs': Table) {
    forall id :: id in runs ==> id in runs' && runs'[id].subject == runs[id].subject && runs'[id].version == runs[id].version
  }

  lemma OriginsStay(w: World, a: Action)
    requires Enabled(w, a)
    ensures SameOriginsAll(w.runs, Apply(w, a).runs)
  {
    match a {
      case Tick(_) =>
      case Administer(_) =>
      case Handle(_, _) =>
      case Execute(run, choice) =>
        var (pc, effect) := Advance(w.execs[run], ViewOf(w, run), choice);
        EffectKeepsOrigins(w, run, pc, effect);
      case Heartbeat(_) =>
      case SweepBy(_, _) =>
    }
  }

  ghost predicate OriginsKept(states: seq<World>, k: nat)
    requires k + 1 < |states|
  {
    SameOriginsAll(states[k].runs, states[k + 1].runs)
  }

  lemma OriginsKeptAt(states: seq<World>, actions: seq<Action>, k: nat)
    requires Execution(states, actions) && k < |actions|
    ensures OriginsKept(states, k)
  {
    OriginsStay(states[k], actions[k]);
  }

  lemma {:induction false} OriginsKeptLong(states: seq<World>, j: nat, i: nat, id: Id)
    requires j <= i < |states| && id in states[j].runs && forall k :: j <= k < i ==> OriginsKept(states, k)
    ensures id in states[i].runs && states[i].runs[id].subject == states[j].runs[id].subject
    ensures states[i].runs[id].version == states[j].runs[id].version
    decreases i
  {
    if j < i {
      OriginsKeptLong(states, j, i - 1, id);
      assert OriginsKept(states, i - 1);
    }
  }

  /** Somewhere between the two moments the run is closed. */
  lemma {:induction false} ClosingStep(states: seq<World>, j: nat, i: nat, id: Id) returns (k: nat)
    requires j <= i < |states| && IsActive(states[j].runs, id) && !IsActive(states[i].runs, id)
    ensures j <= k < i && IsActive(states[k].runs, id) && !IsActive(states[k + 1].runs, id)
    decreases i - j
  {
    if IsActive(states[j + 1].runs, id) {
      k := ClosingStep(states, j + 1, i, id);
    } else {
      k := j;
    }
  }

  /** ... and so a subject and version held by such a run admits a new one by the time the sweep is through. */
  lemma StaleRunFreesThePair(states: seq<World>, actions: seq<Action>, j: nat, i: nat, sweep: Id, id: Id) returns (k: nat)
    requires Execution(states, actions) && j < i < |states| && actions[j] == SweepBy(sweep, Begin)
    requires IsThrough(states[i], sweep) && IsStale(states[j], id) && Untouched(states, actions, j, i, id)
    ensures j < k <= i && !Occupied(states[k].runs, states[j].runs[id].subject, states[j].runs[id].version)
  {
    StaleRunIsClosed(states, actions, j, i, sweep, id);
    var c := ClosingStep(states, j, i, id);
    InvAlways(states, actions, c);
    OriginsStay(states[c], actions[c]);
    forall m | j <= m < c ensures OriginsKept(states, m) {
      OriginsKeptAt(states, actions, m);
    }
    OriginsKeptLong(states, j, c, id);
    ClosingFreesThePair(states[c], actions[c], id);
    k := c + 1;
  }
}
