/**
 What a pass makes of one finding that nobody else writes meanwhile, in any interleaving
 and however much happens to all other findings: the interleaved program does to that
 row what the undisturbed recording of FindingTable does.
 */
module FindingSolo {
  import opened Common
  import opened FindingTable
  import opened FindingProtocol
  import opened FindingTheorems
  import opened FindingClosings

  function Look(t: Table, id: FindingId): Option<Finding> {
    if id in t then Some(t[id]) else None
  }

  // ---- What has been done to one row when a pass stands at a program point ----

  /** The row is as after the first `n` candidates. */
  ghost predicate RowUpTo(base: Table, rows: Table, rec: Recording, id: FindingId, n: nat) {
    n <= |rec.candidates| && Look(rows, id) == Look(ObserveAll(base, rec.pass, rec.candidates[..n]), id)
  }

  /** The listing would take the row once everything is recorded. */
  ghost predicate Taken(base: Table, rec: Recording, id: FindingId) {
    IsAbsent(ObserveAll(base, rec.pass, rec.candidates), rec.pass, id)
  }

  /** Everything is recorded; a row that was taken is listed as it is, or closed. */
  ghost predicate RowListed(base: Table, rows: Table, rec: Recording, id: FindingId, todo: map<FindingId, Finding>) {
    var full := ObserveAll(base, rec.pass, rec.candidates);
    if id in todo then Taken(base, rec, id) && todo[id] == full[id] && Look(rows, id) == Some(full[id])
    else if Taken(base, rec, id) then id in rows && IsClosing(full[id], rows[id])
    else Look(rows, id) == Look(full, id)
  }

  ghost predicate RowProgress(base: Table, rows: Table, rec: Recording, id: FindingId) {
    match rec.pc
    case Looking(n) => RowUpTo(base, rows, rec, id, n)
    case Creating(n) => n < |rec.candidates| && RowUpTo(base, rows, rec, id, n) && (Target(rec) == id ==> id !in rows)
    case Refinding(n) => n < |rec.candidates| && RowUpTo(base, rows, rec, id, n) && Target(rec) != id
    case Updating(n, seen) =>
      n < |rec.candidates| && RowUpTo(base, rows, rec, id, n) && (Target(rec) == id ==> id in rows && rows[id].status == seen)
    case Refreshing(n) => n < |rec.candidates| && RowUpTo(base, rows, rec, id, n) && Target(rec) != id
    case Rereading(n) => RowUpTo(base, rows, rec, id, n + 1)
    case Telling(n, _) => RowUpTo(base, rows, rec, id, n + 1)
    case Recorded => RowUpTo(base, rows, rec, id, |rec.candidates|)
    case Resolving(todo, _) => RowListed(base, rows, rec, id, todo)
    case TellingClosed(todo, _, _) => RowListed(base, rows, rec, id, todo)
    case Done(_) => RowListed(base, rows, rec, id, map[])
    case Stopped => RowUpTo(base, rows, rec, id, |rec.candidates|)
  }

  /** One more candidate changes its own row only. */
  lemma NextCandidate(base: Table, rec: Recording, n: nat, id: FindingId)
    requires n < |rec.candidates|
    ensures var s := rec.candidates[n];
            var before := Look(ObserveAll(base, rec.pass, rec.candidates[..n]), id);
            Look(ObserveAll(base, rec.pass, rec.candidates[..n + 1]), id)
            == if IdOf(rec.pass, s) != id then before
               else if before.None? then Some(NewRow(rec.pass, s))
               else Some(Updated(before.value, before.value.status, rec.pass, s))
  {
    assert rec.candidates[..n + 1][..n] == rec.candidates[..n];
  }

  /** A step about another finding leaves the row and what is known of it. */
  lemma OtherCandidate(base: Table, rows: Table, rec: Recording, now: nat, id: FindingId)
    requires PcOk(rec, rows.Keys) && Fits(rec, Go) && OnCandidate(rec.pc) && Target(rec) != id
    requires RowProgress(base, rows, rec, id)
    ensures var (pc, effect) := Advance(rec, rows, now, Go); RowProgress(base, RowsAfter(rows, effect), rec.(pc := pc), id)
  {
    NextCandidate(base, rec, rec.pc.next, id);
  }

  lemma OwnCandidate(base: Table, rows: Table, rec: Recording, now: nat)
    requires PcOk(rec, rows.Keys) && Fits(rec, Go) && OnCandidate(rec.pc) && RowProgress(base, rows, rec, Target(rec))
    ensures var (pc, effect) := Advance(rec, rows, now, Go);
            RowProgress(base, RowsAfter(rows, effect), rec.(pc := pc), Target(rec))
  {
    NextCandidate(base, rec, rec.pc.next, Target(rec));
  }

  lemma ListingProgresses(base: Table, rows: Table, rec: Recording, id: FindingId)
    requires rec.pc.Recorded? && RowProgress(base, rows, rec, id)
    ensures RowListed(base, rows, rec, id, Absent(rows, rec.pass))
    ensures Taken(base, rec, id) <==> id in Absent(rows, rec.pass)
  {
    assert rec.candidates[..|rec.candidates|] == rec.candidates;
  }

  lemma TurnProgresses(base: Table, rows: Table, rec: Recording, now: nat, id: FindingId)
    requires RowProgress(base, rows, rec, id) && rec.pc.Resolving? && id in rec.pc.todo
    ensures var (pc, effect) := Advance(rec, rows, now, Pick(id)); RowProgress(base, RowsAfter(rows, effect), rec.(pc := pc), id)
  {
    var full := ObserveAll(base, rec.pass, rec.candidates);
    assert rows[id] == full[id] && Closable(rows, id, rec.pc.todo[id]);
  }

  lemma OtherTurn(base: Table, rows: Table, rec: Recording, now: nat, other: FindingId, id: FindingId)
    requires RowProgress(base, rows, rec, id) && rec.pc.Resolving? && other in rec.pc.todo && other != id
    ensures var (pc, effect) := Advance(rec, rows, now, Pick(other)); RowProgress(base, RowsAfter(rows, effect), rec.(pc := pc), id)
  {
  }

  lemma StepProgresses(base: Table, rows: Table, rec: Recording, now: nat, choice: Choice, id: FindingId)
    requires PcOk(rec, rows.Keys) && Fits(rec, choice) && RowProgress(base, rows, rec, id)
    ensures var (pc, effect) := Advance(rec, rows, now, choice); RowProgress(base, RowsAfter(rows, effect), rec.(pc := pc), id)
  {
    if OnCandidate(rec.pc) {
      if Target(rec) == id {
        OwnCandidate(base, rows, rec, now);
      } else {
        OtherCandidate(base, rows, rec, now, id);
      }
    } else if rec.pc.Recorded? && choice.Go? {
      ListingProgresses(base, rows, rec, id);
    } else if rec.pc.Resolving? && choice.Pick? {
      if choice.id == id {
        TurnProgresses(base, rows, rec, now, id);
      } else {
        OtherTurn(base, rows, rec, now, choice.id, id);
      }
    }
  }

  // ---- Everybody else ----

  /** The one row an action writes, if it writes any. */
  function Written(w: World, a: Action): Option<FindingId>
    requires Enabled(w, a)
  {
    match a
    case Step(run, choice) =>
      var effect := Advance(w.recordings[run], w.rows, w.now, choice).1;
      if effect.Puts? then Some(effect.id) else None
    case AskSuppress(_, id, note, actor) => if Suppressible(w, id, note, actor) then Some(id) else None
    case AskReopen(_, id) => if id in w.rows then Some(id) else None
    case _ => None
  }

  lemma OnlyWritten(w: World, a: Action, id: FindingId)
    requires Enabled(w, a) && Written(w, a) != Some(id)
    ensures Look(Apply(w, a).rows, id) == Look(w.rows, id)
  {
  }

  lemma StepKeepsPass(w: World, run: Id, choice: Choice)
    requires StepEnabled(w, run, choice)
    ensures var (pc, effect) := Advance(w.recordings[run], w.rows, w.now, choice);
            var w' := StepApply(w, run, choice);
            w'.recordings[run] == w.recordings[run].(pc := pc) && w'.rows == RowsAfter(w.rows, effect)
  {
  }

  // ---- A finding that nobody else writes ----

  predicate IsOwn(a: Action, run: Id) {
    a.Step? && a.run == run
  }

  /** The pass begins at step `i`, and up to step `j` nobody else writes this finding. */
  ghost predicate Spared(states: seq<World>, actions: seq<Action>, i: nat, j: nat, id: FindingId) {
    && Execution(states, actions) && i < j <= |actions| && actions[i].Begin?
    && forall k :: i < k < j ==> SparesAt(states[k], actions[k], actions[i].pass.run, id)
  }

  predicate SparesAt(w: World, a: Action, run: Id, id: FindingId) {
    Enabled(w, a) ==> IsOwn(a, run) || Written(w, a) != Some(id)
  }

  /** The pass is known, and has done to the row what the undisturbed recording does. */
  ghost predicate PassAt(w: World, base: Table, pass: Pass, candidates: seq<Sighting>, id: FindingId) {
    && pass.run in w.recordings
    && w.recordings[pass.run].pass == pass && w.recordings[pass.run].candidates == candidates
    && RowProgress(base, w.rows, w.recordings[pass.run], id)
  }

  lemma ProgressNext(w: World, a: Action, base: Table, pass: Pass, candidates: seq<Sighting>, id: FindingId)
    requires Inv(w) && Enabled(w, a) && PassAt(w, base, pass, candidates, id) && SparesAt(w, a, pass.run, id)
    ensures PassAt(Apply(w, a), base, pass, candidates, id)
  {
    if IsOwn(a, pass.run) {
      assert RecordingOk(pass.run, w.recordings[pass.run], w.rows.Keys);
      StepProgresses(base, w.rows, w.recordings[pass.run], w.now, a.choice, id);
      StepKeepsPass(w, pass.run, a.choice);
    } else {
      OnlyWritten(w, a, id);
      OthersKeepTurn(w, a, pass.run);
      SameRowProgress(base, w.rows, Apply(w, a).rows, w.recordings[pass.run], id);
    }
  }

  lemma SameRowProgress(base: Table, rows: Table, rows': Table, rec: Recording, id: FindingId)
    requires RowProgress(base, rows, rec, id) && Look(rows', id) == Look(rows, id)
    ensures RowProgress(base, rows', rec, id)
  {
  }

  lemma PassBegins(w: World, a: Action, id: FindingId)
    requires Enabled(w, a) && a.Begin?
    ensures PassAt(Apply(w, a), w.rows, a.pass, a.candidates, id)
  {
    assert a.candidates[..0] == [];
  }

  lemma {:induction false} SparedProgresses(states: seq<World>, actions: seq<Action>, i: nat, j: nat, id: FindingId)
    requires Spared(states, actions, i, j, id)
    ensures PassAt(states[j], states[i].rows, actions[i].pass, actions[i].candidates, id)
    decreases j
  {
    if j == i + 1 {
      PassBegins(states[i], actions[i], id);
    } else {
      SparedProgresses(states, actions, i, j - 1, id);
      InvAlways(states, actions, j - 1);
      assert SparesAt(states[j - 1], actions[j - 1], actions[i].pass.run, id);
      ProgressNext(states[j - 1], actions[j - 1], states[i].rows, actions[i].pass, actions[i].candidates, id);
    }
  }

  predicate FirstSame(f: Finding, f': Finding) {
    f'.firstSeenRun == f.firstSeenRun && f'.firstSeenAt == f.firstSeenAt
  }

  /** What a finished pass leaves of a finding, from what it found. */
  ghost predicate PassedOver(t: Table, t': Table, pass: Pass, ss: seq<Sighting>, id: FindingId) {
    && (id in t' <==> id in t || Sees(pass, ss, id))
    && (id in t ==> FirstSame(t[id], t'[id]))
    && (Suppresses(t, id) ==> Suppresses(t', id) && SameSuppression(t[id], t'[id]))
    && (Sees(pass, ss, id) ==>
          && t'[id].status == (if Suppresses(t, id) then SUPPRESSED else OPEN)
          && t'[id].lastSeenRun == pass.run && t'[id].lastSeenAt == pass.observedAt
          && TextsOf(t, pass, ss, id, t'[id]))
    && (forall i: nat :: LastSightingOf(pass, ss, id, i) ==> Reports(t'[id], ss[i]))
    && (!Sees(pass, ss, id) && id in t ==> if IsAbsent(t, pass, id) then IsClosing(t[id], t'[id]) else t'[id] == t[id])
  }

  lemma DonePassedOver(base: Table, rows: Table, rec: Recording, id: FindingId)
    requires rec.pc.Done? && RowProgress(base, rows, rec, id)
    ensures PassedOver(base, rows, rec.pass, rec.candidates, id)
    ensures Taken(base, rec, id) <==> IsAbsent(base, rec.pass, id) && !Sees(rec.pass, rec.candidates, id)
  {
    ObservedRow(base, rec.pass, rec.candidates, id);
  }

  /**
   Any finding that only this pass writes between its beginning and its end, whatever
   runs, suppressions and reopenings happen to the others: observed, it is created,
   refreshed or reopened, or stays suppressed; unobserved, it is closed exactly if it was
   open and last seen by a run that started earlier, and is left untouched otherwise.
   */
  lemma PassOnFinding(states: seq<World>, actions: seq<Action>, i: nat, j: nat, id: FindingId)
    requires Spared(states, actions, i, j, id)
    requires actions[i].pass.run in states[j].recordings && states[j].recordings[actions[i].pass.run].pc.Done?
    ensures PassedOver(states[i].rows, states[j].rows, actions[i].pass, actions[i].candidates, id)
  {
    SparedProgresses(states, actions, i, j, id);
    DonePassedOver(states[i].rows, states[j].rows, states[j].recordings[actions[i].pass.run], id);
  }

  // ---- How often it closes the finding ----

  /** How often the pass has closed the finding so far: once, if it was taken and had its turn. */
  ghost function TimesClosed(base: Table, rec: Recording, id: FindingId): nat {
    if Listing(rec.pc) && Taken(base, rec, id) && id !in TodoOf(rec.pc) then 1 else 0
  }

  lemma StepClosesOnce(base: Table, rows: Table, rec: Recording, now: nat, choice: Choice, id: FindingId)
    requires Fits(rec, choice) && RowProgress(base, rows, rec, id)
    ensures var (pc, effect) := Advance(rec, rows, now, choice);
            TimesClosed(base, rec.(pc := pc), id)
            == TimesClosed(base, rec, id) + multiset(MoveOf(rows, RowsAfter(rows, effect), id))[Resolved]
  {
    if rec.pc.Recorded? && choice.Go? {
      ListingProgresses(base, rows, rec, id);
    } else if rec.pc.Resolving? && choice.Pick? && choice.id == id {
      assert Closable(rows, id, rec.pc.todo[id]);
    }
  }

  ghost function ResolvedMoves(states: seq<World>, actions: seq<Action>, n: nat, run: Id, id: FindingId): nat
    requires n <= |actions| < |states|
  {
    multiset(MovesBy(states, actions, n, run, id))[Resolved]
  }

  lemma NoMovesBefore(states: seq<World>, actions: seq<Action>, n: nat, run: Id, id: FindingId)
    requires Execution(states, actions) && n < |states| && run !in states[n].recordings
    ensures ResolvedMoves(states, actions, n, run, id) == 0
  {
    CountIsTheResolvedMoves(states, actions, n, run, id);
    assert ClosedBy(states, actions, n, run) == [];
  }

  lemma ResolvedMovesNext(states: seq<World>, actions: seq<Action>, n: nat, run: Id, id: FindingId)
    requires n < |actions| < |states|
    ensures ResolvedMoves(states, actions, n + 1, run, id)
         == ResolvedMoves(states, actions, n, run, id)
          + if IsOwn(actions[n], run) then multiset(MoveOf(states[n].rows, states[n + 1].rows, id))[Resolved] else 0
  {
  }

  ghost function TimesAt(w: World, base: Table, run: Id, id: FindingId): nat {
    if run in w.recordings then TimesClosed(base, w.recordings[run], id) else 0
  }

  /** What action `n` adds to the closings is the resolution it makes. */
  ghost predicate AddsItsMove(states: seq<World>, actions: seq<Action>, n: nat, base: Table, run: Id, id: FindingId)
    requires n < |actions| < |states|
  {
    TimesAt(states[n + 1], base, run, id)
    == TimesAt(states[n], base, run, id)
     + if IsOwn(actions[n], run) then multiset(MoveOf(states[n].rows, states[n + 1].rows, id))[Resolved] else 0
  }

  lemma ActionClosesOnce(w: World, a: Action, w': World, base: Table, run: Id, id: FindingId)
    requires Enabled(w, a) && w' == Apply(w, a) && run in w.recordings
    requires RowProgress(base, w.rows, w.recordings[run], id)
    ensures TimesAt(w', base, run, id)
         == TimesAt(w, base, run, id) + if IsOwn(a, run) then multiset(MoveOf(w.rows, w'.rows, id))[Resolved] else 0
  {
    if IsOwn(a, run) {
      StepClosesOnce(base, w.rows, w.recordings[run], w.now, a.choice, id);
      StepKeepsPass(w, run, a.choice);
    } else {
      OthersKeepTurn(w, a, run);
    }
  }

  lemma SparedAddsItsMove(states: seq<World>, actions: seq<Action>, i: nat, j: nat, n: nat, id: FindingId)
    requires Spared(states, actions, i, j, id) && i <= n < j
    ensures AddsItsMove(states, actions, n, states[i].rows, actions[i].pass.run, id)
  {
    if i < n {
      SparedProgresses(states, actions, i, n, id);
      ActionClosesOnce(states[n], actions[n], states[n + 1], states[i].rows, actions[i].pass.run, id);
    }
  }

  lemma {:induction false} MovesAddUp(states: seq<World>, actions: seq<Action>, i: nat, j: nat, base: Table, run: Id, id: FindingId)
    requires i <= j <= |actions| < |states|
    requires ResolvedMoves(states, actions, i, run, id) == TimesAt(states[i], base, run, id)
    requires forall n :: i <= n < j ==> AddsItsMove(states, actions, n, base, run, id)
    ensures ResolvedMoves(states, actions, j, run, id) == TimesAt(states[j], base, run, id)
    decreases j
  {
    if i < j {
      var n: nat := j - 1;
      MovesAddUp(states, actions, i, n, base, run, id);
      ResolvedMovesNext(states, actions, n, run, id);
      assert AddsItsMove(states, actions, n, base, run, id);
    }
  }

  lemma SparedCloses(states: seq<World>, actions: seq<Action>, i: nat, j: nat, id: FindingId)
    requires Spared(states, actions, i, j, id)
    ensures ResolvedMoves(states, actions, j, actions[i].pass.run, id) == TimesAt(states[j], states[i].rows, actions[i].pass.run, id)
  {
    NoMovesBefore(states, actions, i, actions[i].pass.run, id);
    forall n | i <= n < j ensures AddsItsMove(states, actions, n, states[i].rows, actions[i].pass.run, id) {
      SparedAddsItsMove(states, actions, i, j, n, id);
    }
    MovesAddUp(states, actions, i, j, states[i].rows, actions[i].pass.run, id);
  }

  /** Of a spared finding the pass has made one resolution if it was open, unobserved and last seen by an earlier run, else none. */
  lemma ClosesSparedOnce(states: seq<World>, actions: seq<Action>, i: nat, j: nat, id: FindingId)
    requires Spared(states, actions, i, j, id)
    requires actions[i].pass.run in states[j].recordings && states[j].recordings[actions[i].pass.run].pc.Done?
    ensures var pass := actions[i].pass;
            ResolvedMoves(states, actions, j, pass.run, id)
            == if IsAbsent(states[i].rows, pass, id) && !Sees(pass, actions[i].candidates, id) then 1 else 0
  {
    SparedCloses(states, actions, i, j, id);
    SparedProgresses(states, actions, i, j, id);
    DonePassedOver(states[i].rows, states[j].rows, states[j].recordings[actions[i].pass.run], id);
  }

  lemma PassedOverOpen(t: Table, t': Table, pass: Pass, ss: seq<Sighting>, id: FindingId)
    requires PassedOver(t, t', pass, ss, id) && InScope(pass, id)
    ensures id in OpenIn(t', pass) <==> id in Standing(t, pass, ss) || Escapes(t, pass, ss, id)
    ensures id in Standing(t, pass, ss) ==> !Escapes(t, pass, ss, id)
  {
    assert id in Standing(t, pass, ss) <==> Sees(pass, ss, id) && !Suppresses(t, id);
  }

  // ---- Passes without a competitor ----

  predicate SameScope(a: Pass, b: Pass) {
    a.subject == b.subject && a.evaluationKey == b.evaluationKey
  }

  /** A step of another pass over the same subject and evaluationKey. */
  predicate Competes(w: World, a: Action, pass: Pass) {
    a.Step? && a.run != pass.run && a.run in w.recordings && SameScope(w.recordings[a.run].pass, pass)
  }

  /** The pass begins at step `i`, and up to step `j` no other pass over its subject and evaluationKey takes a step. */
  ghost predicate Unrivalled(states: seq<World>, actions: seq<Action>, i: nat, j: nat) {
    && Execution(states, actions) && i < j <= |actions| && actions[i].Begin?
    && forall k :: i < k < j ==> !Competes(states[k], actions[k], actions[i].pass)
  }

  /** Nobody suppresses or reopens this finding meanwhile. */
  ghost predicate Undecided(actions: seq<Action>, i: nat, j: nat, id: FindingId)
    requires j <= |actions|
  {
    forall k :: i < k < j ==> !Decides(actions[k], id)
  }

  lemma WritesItsScope(w: World, a: Action, id: FindingId)
    requires Inv(w) && Enabled(w, a) && a.Step? && Written(w, a) == Some(id)
    ensures InScope(w.recordings[a.run].pass, id)
  {
    assert RecordingOk(a.run, w.recordings[a.run], w.rows.Keys);
  }

  lemma SparesUndecided(w: World, a: Action, pass: Pass, id: FindingId)
    requires Inv(w) && Enabled(w, a) && InScope(pass, id) && !Competes(w, a, pass) && !Decides(a, id)
    ensures SparesAt(w, a, pass.run, id)
  {
    if a.Step? && Written(w, a) == Some(id) {
      WritesItsScope(w, a, id);
    }
  }

  lemma UndecidedIsSpared(states: seq<World>, actions: seq<Action>, i: nat, j: nat, id: FindingId)
    requires Unrivalled(states, actions, i, j) && InScope(actions[i].pass, id) && Undecided(actions, i, j, id)
    ensures Spared(states, actions, i, j, id)
  {
    forall k | i < k < j ensures SparesAt(states[k], actions[k], actions[i].pass.run, id) {
      InvAlways(states, actions, k);
      SparesUndecided(states[k], actions[k], actions[i].pass, id);
    }
  }

  /**
   For a pass without a competitor, whatever humans decide meanwhile: every finding of
   its subject and evaluationKey that nobody decided about ends as PassOnFinding says,
   and it is open afterwards exactly if the pass observed it and nobody had suppressed
   it, unless a run that started no earlier had seen it last without this pass seeing it.
   */
  lemma UndisturbedPass(states: seq<World>, actions: seq<Action>, i: nat, j: nat, id: FindingId)
    requires Unrivalled(states, actions, i, j) && InScope(actions[i].pass, id) && Undecided(actions, i, j, id)
    requires actions[i].pass.run in states[j].recordings && states[j].recordings[actions[i].pass.run].pc.Done?
    ensures var (t, t', pass, ss) := (states[i].rows, states[j].rows, actions[i].pass, actions[i].candidates);
            && PassedOver(t, t', pass, ss, id)
            && (id in OpenIn(t', pass) <==> id in Standing(t, pass, ss) || Escapes(t, pass, ss, id))
            && ((id in OpenIn(t', pass) <==> id in Standing(t, pass, ss)) <==> !Escapes(t, pass, ss, id))
  {
    UndecidedIsSpared(states, actions, i, j, id);
    PassOnFinding(states, actions, i, j, id);
    PassedOverOpen(states[i].rows, states[j].rows, actions[i].pass, actions[i].candidates, id);
  }

  /** Every pass of the same subject and evaluationKey known so far started earlier. */
  ghost predicate StartsLast(w: World, pass: Pass) {
    forall run :: run in w.recordings && SameScope(w.recordings[run].pass, pass) ==>
      w.recordings[run].pass.observedAt < pass.observedAt
  }

  lemma NoneEscapes(states: seq<World>, actions: seq<Action>, i: nat, id: FindingId)
    requires Execution(states, actions) && i < |actions| && actions[i].Begin? && StartsLast(states[i], actions[i].pass)
    ensures !Escapes(states[i].rows, actions[i].pass, actions[i].candidates, id)
  {
    InvAlways(states, actions, i);
    if id in states[i].rows && InScope(actions[i].pass, id) {
      assert SeenBy(states[i].recordings, id, states[i].rows[id]);
    }
  }

  /**
   The lifecycle's promise for runs that do not overlap, whatever humans decide
   meanwhile: of the findings nobody decided about, the open ones are afterwards exactly
   those the pass observed and nobody had suppressed.
   */
  lemma NonOverlappingPassIsExact(states: seq<World>, actions: seq<Action>, i: nat, j: nat, id: FindingId)
    requires Unrivalled(states, actions, i, j) && StartsLast(states[i], actions[i].pass)
    requires InScope(actions[i].pass, id) && Undecided(actions, i, j, id)
    requires actions[i].pass.run in states[j].recordings && states[j].recordings[actions[i].pass.run].pc.Done?
    ensures id in OpenIn(states[j].rows, actions[i].pass) <==> id in Standing(states[i].rows, actions[i].pass, actions[i].candidates)
  {
    UndisturbedPass(states, actions, i, j, id);
    NoneEscapes(states, actions, i, id);
  }

  /** Nobody decides about any finding the pass can see. */
  ghost predicate NobodyDecides(actions: seq<Action>, i: nat, j: nat, pass: Pass)
    requires j <= |actions|
  {
    forall id :: InScope(pass, id) ==> Undecided(actions, i, j, id)
  }

  /** Without any decision in its scope, the whole open set is the observed set. */
  lemma OpenSetIsObservedSet(states: seq<World>, actions: seq<Action>, i: nat, j: nat)
    requires Unrivalled(states, actions, i, j) && NobodyDecides(actions, i, j, actions[i].pass)
    requires actions[i].pass.run in states[j].recordings && states[j].recordings[actions[i].pass.run].pc.Done?
    ensures OpenIn(states[j].rows, actions[i].pass) == Standing(states[i].rows, actions[i].pass, actions[i].candidates)
       <==> forall id :: !Escapes(states[i].rows, actions[i].pass, actions[i].candidates, id)
    ensures StartsLast(states[i], actions[i].pass) ==>
              OpenIn(states[j].rows, actions[i].pass) == Standing(states[i].rows, actions[i].pass, actions[i].candidates)
  {
    var (t, t', pass, ss) := (states[i].rows, states[j].rows, actions[i].pass, actions[i].candidates);
    forall id
      ensures id in OpenIn(t', pass) <==> id in Standing(t, pass, ss) || Escapes(t, pass, ss, id)
      ensures id in Standing(t, pass, ss) ==> !Escapes(t, pass, ss, id)
      ensures StartsLast(states[i], pass) ==> !Escapes(t, pass, ss, id)
    {
      if InScope(pass, id) {
        UndisturbedPass(states, actions, i, j, id);
      }
      if StartsLast(states[i], pass) {
        NoneEscapes(states, actions, i, id);
      }
    }
  }

  /** The findings that went from OPEN to RESOLVED. */
  function Resolutions(t: Table, t': Table, pass: Pass): set<FindingId> {
    set id | id in t && InScope(pass, id) && t[id].status == OPEN && id in t' && t'[id].status == RESOLVED
  }

  lemma {:induction false} NeverOutOfScope(states: seq<World>, actions: seq<Action>, n: nat, run: Id, id: FindingId)
    requires Execution(states, actions) && n < |states|
    requires run in states[n].recordings && !InScope(states[n].recordings[run].pass, id)
    ensures ResolvedMoves(states, actions, n, run, id) == 0
  {
    if n > 0 {
      var k: nat := n - 1;
      ResolvedMovesNext(states, actions, k, run, id);
      if run in states[k].recordings {
        PassIsKept(states[k], actions[k], run);
        NeverOutOfScope(states, actions, k, run, id);
        InvAlways(states, actions, k);
        if IsOwn(actions[k], run) {
          StepStaysInScope(states[k], run, actions[k].choice, id);
        }
      } else {
        NoMovesBefore(states, actions, n - 1, run, id);
        assert !IsOwn(actions[k], run);
      }
    }
  }

  lemma PassIsKept(w: World, a: Action, run: Id)
    requires Enabled(w, a) && run in w.recordings
    ensures run in Apply(w, a).recordings && Apply(w, a).recordings[run].pass == w.recordings[run].pass
  {
  }

  /** Without a competitor or a decision in its scope, what the pass returns is the number of findings that went from OPEN to RESOLVED. */
  lemma CountIsTheResolutions(states: seq<World>, actions: seq<Action>, i: nat, j: nat)
    requires Unrivalled(states, actions, i, j) && NobodyDecides(actions, i, j, actions[i].pass)
    requires actions[i].pass.run in states[j].recordings && states[j].recordings[actions[i].pass.run].pc.Done?
    ensures states[j].recordings[actions[i].pass.run].pc.count == |Resolutions(states[i].rows, states[j].rows, actions[i].pass)|
  {
    var run, gone := actions[i].pass.run, Resolutions(states[i].rows, states[j].rows, actions[i].pass);
    var closings := ClosedBy(states, actions, j, run);
    forall id ensures multiset(closings)[id] == multiset(gone)[id] {
      CountIsTheResolvedMoves(states, actions, j, run, id);
      ClosedIfGone(states, actions, i, j, id);
    }
    assert multiset(closings) == multiset(gone);
    CountIsTheResolvedMoves(states, actions, j, run, FindingId(0, "", ""));
    assert |closings| == |multiset(closings)| == |gone|;
  }

  lemma ClosedIfGone(states: seq<World>, actions: seq<Action>, i: nat, j: nat, id: FindingId)
    requires Unrivalled(states, actions, i, j) && NobodyDecides(actions, i, j, actions[i].pass)
    requires actions[i].pass.run in states[j].recordings && states[j].recordings[actions[i].pass.run].pc.Done?
    ensures ResolvedMoves(states, actions, j, actions[i].pass.run, id)
         == if id in Resolutions(states[i].rows, states[j].rows, actions[i].pass) then 1 else 0
  {
    if InScope(actions[i].pass, id) {
      UndecidedIsSpared(states, actions, i, j, id);
      ClosesSparedOnce(states, actions, i, j, id);
      PassOnFinding(states, actions, i, j, id);
    } else {
      PassStays(states, actions, i, j);
      NeverOutOfScope(states, actions, j, actions[i].pass.run, id);
    }
  }

  lemma {:induction false} PassStays(states: seq<World>, actions: seq<Action>, i: nat, j: nat)
    requires Execution(states, actions) && i < j <= |actions| && actions[i].Begin?
    ensures actions[i].pass.run in states[j].recordings && states[j].recordings[actions[i].pass.run].pass == actions[i].pass
    decreases j
  {
    if i + 1 < j {
      PassStays(states, actions, i, j - 1);
      PassIsKept(states[j - 1], actions[j - 1], actions[i].pass.run);
    }
  }
}
