/**
 Which findings a run closes and how it counts them, over every interleaving: what its
 listing takes, what becomes of each listed finding, and what the returned number is.
 */
module FindingClosings {
  import opened Common
  import opened FindingTable
  import opened FindingProtocol
  import opened FindingTheorems

  // ---- The count ----

  /** The finding whose row went to RESOLVED between two tables, if there is one. */
  ghost function ClosedIn(rows: Table, rows': Table): seq<FindingId> {
    if id: FindingId :| MoveOf(rows, rows', id) == [Resolved] then [id] else []
  }

  /** The findings one run closed during the first `n` actions, in order. */
  ghost function ClosedBy(states: seq<World>, actions: seq<Action>, n: nat, run: Id): seq<FindingId>
    requires n <= |actions| < |states|
  {
    if n == 0 then []
    else ClosedBy(states, actions, n - 1, run) +
         if actions[n - 1].Step? && actions[n - 1].run == run then ClosedIn(states[n - 1].rows, states[n].rows) else []
  }

  /** What `resolveAbsentFindings` has counted so far. */
  function CountOf(pc: Pc): nat {
    match pc
    case Resolving(_, count) => count
    case TellingClosed(_, count, _) => count
    case Done(count) => count
    case _ => 0
  }

  function CountedBy(w: World, run: Id): nat {
    if run in w.recordings then CountOf(w.recordings[run].pc) else 0
  }

  /** A step moves the one row it puts. */
  lemma OneRowMoves(rows: Table, effect: Effect, id: FindingId)
    ensures MoveOf(rows, RowsAfter(rows, effect), id) != [] ==> effect.Puts? && id == effect.id
  {
  }

  lemma ClosedInStep(rows: Table, effect: Effect)
    ensures ClosedIn(rows, RowsAfter(rows, effect))
         == if effect.Puts? && MoveOf(rows, RowsAfter(rows, effect), effect.id) == [Resolved] then [effect.id] else []
  {
    forall id ensures MoveOf(rows, RowsAfter(rows, effect), id) == [Resolved] ==> effect.Puts? && id == effect.id {
      OneRowMoves(rows, effect, id);
    }
  }

  lemma ClosedInIsTheMove(rows: Table, effect: Effect, id: FindingId)
    ensures multiset(ClosedIn(rows, RowsAfter(rows, effect)))[id] == multiset(MoveOf(rows, RowsAfter(rows, effect), id))[Resolved]
  {
    ClosedInStep(rows, effect);
    OneRowMoves(rows, effect, id);
  }

  lemma StepCounts(rec: Recording, rows: Table, now: nat, choice: Choice)
    requires Fits(rec, choice)
    ensures var (pc, effect) := Advance(rec, rows, now, choice);
            CountOf(pc) == CountOf(rec.pc) + |ClosedIn(rows, RowsAfter(rows, effect))|
  {
    ClosedInStep(rows, Advance(rec, rows, now, choice).1);
  }

  lemma ActionCounts(w: World, a: Action, w': World, run: Id)
    requires Enabled(w, a) && w' == Apply(w, a)
    ensures CountedBy(w', run) == CountedBy(w, run) + if a.Step? && a.run == run then |ClosedIn(w.rows, w'.rows)| else 0
  {
    if a.Step? && a.run == run {
      StepCounts(w.recordings[run], w.rows, w.now, a.choice);
    }
  }

  lemma ActionCloses(w: World, a: Action, w': World, run: Id, id: FindingId)
    requires Enabled(w, a) && w' == Apply(w, a) && a.Step? && a.run == run
    ensures multiset(ClosedIn(w.rows, w'.rows))[id] == multiset(MoveOf(w.rows, w'.rows, id))[Resolved]
  {
    ClosedInIsTheMove(w.rows, Advance(w.recordings[run], w.rows, w.now, a.choice).1, id);
  }

  /**
   In every interleaving the number a run counts is the number of findings it moved to
   RESOLVED: it is the length of the list of its closings, in which each finding
   occurs as often as `Resolved` occurs among the run's changes of that finding.
   */
  lemma {:induction false} CountIsTheResolvedMoves(states: seq<World>, actions: seq<Action>, n: nat, run: Id, id: FindingId)
    requires Execution(states, actions) && n < |states|
    ensures CountedBy(states[n], run) == |ClosedBy(states, actions, n, run)|
    ensures multiset(ClosedBy(states, actions, n, run))[id] == multiset(MovesBy(states, actions, n, run, id))[Resolved]
  {
    if n > 0 {
      CountIsTheResolvedMoves(states, actions, n - 1, run, id);
      ActionCounts(states[n - 1], actions[n - 1], states[n], run);
      if actions[n - 1].Step? && actions[n - 1].run == run {
        ActionCloses(states[n - 1], actions[n - 1], states[n], run, id);
      }
    }
  }

  // ---- The listing ----

  /** The row's last observer is known. */
  predicate HasObserver(w: World, id: FindingId) {
    id in w.rows && w.rows[id].lastSeenRun in w.recordings
  }

  /** When the run that saw the finding last started. */
  function LastStart(w: World, id: FindingId): nat
    requires HasObserver(w, id)
  {
    w.recordings[w.rows[id].lastSeenRun].pass.observedAt
  }

  lemma LastStartIsLastSeenAt(states: seq<World>, actions: seq<Action>, i: nat, id: FindingId)
    requires Execution(states, actions) && i < |states| && id in states[i].rows
    ensures HasObserver(states[i], id) && states[i].rows[id].lastSeenAt == LastStart(states[i], id)
  {
    InvAlways(states, actions, i);
    assert SeenBy(states[i].recordings, id, states[i].rows[id]);
  }

  /** The finding is open, in scope, and was seen last by a run that started strictly earlier. */
  predicate IsOlder(w: World, pass: Pass, id: FindingId) {
    && id.subject == pass.subject && id.evaluationKey == pass.evaluationKey
    && HasObserver(w, id) && w.rows[id].status == OPEN && LastStart(w, id) < pass.observedAt
  }

  /** Whatever overlaps what, a run lists exactly the open findings whose last observer started strictly earlier. */
  lemma ListedIff(states: seq<World>, actions: seq<Action>, i: nat, run: Id, id: FindingId)
    requires Execution(states, actions) && i < |states| && run in states[i].recordings
    ensures id in Absent(states[i].rows, states[i].recordings[run].pass) <==> IsOlder(states[i], states[i].recordings[run].pass, id)
    ensures IsOlder(states[i], states[i].recordings[run].pass, id) ==> states[i].rows[id].lastSeenRun != run
  {
    InvAlways(states, actions, i);
    assert RecordingOk(run, states[i].recordings[run], states[i].rows.Keys);
    if id in states[i].rows {
      LastStartIsLastSeenAt(states, actions, i, id);
    }
  }

  // ---- After the listing ----

  /** Action `l` is the run's listing of what it did not observe. */
  predicate Lists(w: World, a: Action, run: Id) {
    a == Step(run, Go) && run in w.recordings && w.recordings[run].pc.Recorded?
  }

  predicate Asks(a: Action, run: Id, id: FindingId) {
    a == Step(run, Pick(id))
  }

  predicate Listing(pc: Pc) {
    pc.Resolving? || pc.TellingClosed? || pc.Done?
  }

  function TodoOf(pc: Pc): map<FindingId, Finding> {
    if pc.Resolving? || pc.TellingClosed? then pc.todo else map[]
  }

  /** Where the run stands after its listing `listed`, as far as one finding goes; `asked` says it had its turn. */
  ghost predicate InTurn(rec: Recording, pass: Pass, listed: map<FindingId, Finding>, id: FindingId, asked: bool) {
    && rec.pass == pass && Listing(rec.pc)
    && (id in TodoOf(rec.pc) <==> id in listed && !asked)
    && (id in TodoOf(rec.pc) ==> TodoOf(rec.pc)[id] == listed[id])
  }

  lemma StepInTurn(rec: Recording, rows: Table, now: nat, choice: Choice, listed: map<FindingId, Finding>, id: FindingId, asked: bool)
    requires Fits(rec, choice) && InTurn(rec, rec.pass, listed, id, asked)
    ensures InTurn(rec.(pc := Advance(rec, rows, now, choice).0), rec.pass, listed, id, asked || choice == Pick(id))
    ensures choice == Pick(id) ==> id in listed && !asked
  {
  }

  /** The turn of a listed finding: it is closed exactly if it is open and was not seen by a run of another start. */
  predicate Closing(w: World, a: Action, run: Id, id: FindingId, listed: Finding) {
    Asks(a, run, id) && id in w.rows && w.rows[id].status == OPEN && w.rows[id].lastSeenAt == listed.lastSeenAt
  }

  lemma StepCloses(rec: Recording, rows: Table, now: nat, choice: Choice, listed: map<FindingId, Finding>, id: FindingId, asked: bool)
    requires Fits(rec, choice) && InTurn(rec, rec.pass, listed, id, asked)
    ensures var effect := Advance(rec, rows, now, choice).1;
            (MoveOf(rows, RowsAfter(rows, effect), id) == [Resolved]) ==
            (choice == Pick(id) && id in listed && Closable(rows, id, listed[id]))
    ensures var effect := Advance(rec, rows, now, choice).1;
            MoveOf(rows, RowsAfter(rows, effect), id) == [] || MoveOf(rows, RowsAfter(rows, effect), id) == [Resolved]
  {
  }

  /** The finding had its turn between the listing and state `m`. */
  ghost predicate Asked(actions: seq<Action>, l: nat, m: nat, run: Id, id: FindingId)
    requires m <= |actions|
  {
    l + 1 < m && (Asked(actions, l, m - 1, run, id) || Asks(actions[m - 1], run, id))
  }

  /** It had its turn, and at that moment the compare-and-set matched. */
  ghost predicate ClosedInTurn(states: seq<World>, actions: seq<Action>, l: nat, m: nat, run: Id, id: FindingId, listed: Finding)
    requires m <= |actions| < |states|
  {
    l + 1 < m && (ClosedInTurn(states, actions, l, m - 1, run, id, listed) || Closing(states[m - 1], actions[m - 1], run, id, listed))
  }

  lemma {:induction false} AskedIff(actions: seq<Action>, l: nat, m: nat, run: Id, id: FindingId)
    requires m <= |actions|
    ensures Asked(actions, l, m, run, id) <==> exists k :: l < k < m && Asks(actions[k], run, id)
  {
    if l + 1 < m {
      AskedIff(actions, l, m - 1, run, id);
    }
  }

  lemma {:induction false} ClosedInTurnIff(
    states: seq<World>, actions: seq<Action>, l: nat, m: nat, run: Id, id: FindingId, listed: Finding)
    requires m <= |actions| < |states|
    ensures ClosedInTurn(states, actions, l, m, run, id, listed)
       <==> exists k :: l < k < m && Closing(states[k], actions[k], run, id, listed)
  {
    if l + 1 < m {
      ClosedInTurnIff(states, actions, l, m - 1, run, id, listed);
    }
  }

  lemma OthersKeepTurn(w: World, a: Action, run: Id)
    requires Enabled(w, a) && run in w.recordings && !(a.Step? && a.run == run)
    ensures run in Apply(w, a).recordings && Apply(w, a).recordings[run] == w.recordings[run]
  {
  }

  /** Before its listing a run has closed nothing. */
  lemma NothingClosedYet(states: seq<World>, actions: seq<Action>, l: nat, run: Id, id: FindingId)
    requires Execution(states, actions) && l < |states| && run in states[l].recordings && CountOf(states[l].recordings[run].pc) == 0
    ensures Resolved !in MovesBy(states, actions, l, run, id)
  {
    CountIsTheResolvedMoves(states, actions, l, run, id);
    assert ClosedBy(states, actions, l, run) == [];
  }

  lemma TurnNext(w: World, a: Action, w': World, run: Id, pass: Pass, listed: map<FindingId, Finding>, id: FindingId, asked: bool)
    requires Enabled(w, a) && w' == Apply(w, a) && run in w.recordings && InTurn(w.recordings[run], pass, listed, id, asked)
    ensures run in w'.recordings && InTurn(w'.recordings[run], pass, listed, id, asked || Asks(a, run, id))
    ensures Asks(a, run, id) ==> id in listed && !asked
    ensures a.Step? && a.run == run ==>
              (Resolved in MoveOf(w.rows, w'.rows, id)) == (id in listed && Closing(w, a, run, id, listed[id]))
  {
    if a.Step? && a.run == run {
      StepInTurn(w.recordings[run], w.rows, w.now, a.choice, listed, id, asked);
      StepCloses(w.recordings[run], w.rows, w.now, a.choice, listed, id, asked);
    } else {
      OthersKeepTurn(w, a, run);
    }
  }

  lemma TurnBegins(w: World, a: Action, w': World, run: Id, id: FindingId)
    requires Enabled(w, a) && w' == Apply(w, a) && Lists(w, a, run)
    ensures run in w'.recordings
    ensures InTurn(w'.recordings[run], w.recordings[run].pass, Absent(w.rows, w.recordings[run].pass), id, false)
    ensures w'.rows == w.rows
  {
  }

  /** The rows a run listed at state `l`. */
  function ListedAt(w: World, run: Id): map<FindingId, Finding>
    requires run in w.recordings
  {
    Absent(w.rows, w.recordings[run].pass)
  }

  ghost predicate TurnAt(states: seq<World>, actions: seq<Action>, l: nat, m: nat, run: Id, id: FindingId)
    requires l < m <= |actions| < |states| && run in states[l].recordings
  {
    run in states[m].recordings &&
    InTurn(states[m].recordings[run], states[l].recordings[run].pass, ListedAt(states[l], run), id, Asked(actions, l, m, run, id))
  }

  lemma {:induction false} TurnsGoOn(states: seq<World>, actions: seq<Action>, l: nat, m: nat, run: Id, id: FindingId)
    requires Execution(states, actions) && l < m <= |actions| && Lists(states[l], actions[l], run)
    ensures TurnAt(states, actions, l, m, run, id)
    decreases m
  {
    if m == l + 1 {
      TurnBegins(states[l], actions[l], states[m], run, id);
    } else {
      TurnsGoOn(states, actions, l, m - 1, run, id);
      TurnNext(states[m - 1], actions[m - 1], states[m], run, states[l].recordings[run].pass, ListedAt(states[l], run), id,
               Asked(actions, l, m - 1, run, id));
    }
  }

  /** Among the run's changes of the finding is a resolution. */
  ghost predicate Resolves(states: seq<World>, actions: seq<Action>, n: nat, run: Id, id: FindingId)
    requires n <= |actions| < |states|
  {
    Resolved in MovesBy(states, actions, n, run, id)
  }

  lemma ResolvesNext(states: seq<World>, actions: seq<Action>, n: nat, run: Id, id: FindingId)
    requires n < |actions| < |states|
    ensures Resolves(states, actions, n + 1, run, id)
       <==> Resolves(states, actions, n, run, id)
            || (actions[n].Step? && actions[n].run == run && Resolved in MoveOf(states[n].rows, states[n + 1].rows, id))
  {
  }

  /** The finding was listed at `l` and closed in its turn before state `m`. */
  ghost predicate WasClosed(states: seq<World>, actions: seq<Action>, l: nat, m: nat, run: Id, id: FindingId)
    requires l < |states| && m <= |actions| < |states| && run in states[l].recordings
  {
    id in ListedAt(states[l], run) && ClosedInTurn(states, actions, l, m, run, id, ListedAt(states[l], run)[id])
  }

  lemma ResolvesFirst(states: seq<World>, actions: seq<Action>, l: nat, run: Id, id: FindingId)
    requires Execution(states, actions) && l < |actions| && Lists(states[l], actions[l], run)
    ensures !Resolves(states, actions, l + 1, run, id)
  {
    NothingClosedYet(states, actions, l, run, id);
    TurnBegins(states[l], actions[l], states[l + 1], run, id);
    ResolvesNext(states, actions, l, run, id);
  }

  /** What action `n` adds to the closings of a finding is its turn, if it succeeds. */
  ghost predicate StepAgrees(states: seq<World>, actions: seq<Action>, l: nat, n: nat, run: Id, id: FindingId)
    requires l < |states| && n < |actions| < |states| && run in states[l].recordings
  {
    var listed := ListedAt(states[l], run);
    (actions[n].Step? && actions[n].run == run && Resolved in MoveOf(states[n].rows, states[n + 1].rows, id))
    <==> id in listed && Closing(states[n], actions[n], run, id, listed[id])
  }

  lemma ClosesInStep(states: seq<World>, actions: seq<Action>, l: nat, n: nat, run: Id, id: FindingId)
    requires Execution(states, actions) && l < n < |actions| && Lists(states[l], actions[l], run)
    ensures StepAgrees(states, actions, l, n, run, id)
  {
    TurnsGoOn(states, actions, l, n, run, id);
    TurnNext(states[n], actions[n], states[n + 1], run, states[l].recordings[run].pass, ListedAt(states[l], run), id,
             Asked(actions, l, n, run, id));
  }

  lemma {:induction false} ClosingsAddUp(states: seq<World>, actions: seq<Action>, l: nat, m: nat, run: Id, id: FindingId)
    requires l < m <= |actions| < |states| && run in states[l].recordings
    requires !Resolves(states, actions, l + 1, run, id)
    requires forall n :: l < n < m ==> StepAgrees(states, actions, l, n, run, id)
    ensures Resolves(states, actions, m, run, id) <==> WasClosed(states, actions, l, m, run, id)
  {
    if m > l + 1 {
      var n: nat := m - 1;
      ClosingsAddUp(states, actions, l, n, run, id);
      ResolvesNext(states, actions, n, run, id);
      assert StepAgrees(states, actions, l, n, run, id);
    }
  }

  lemma ResolvesInTurn(states: seq<World>, actions: seq<Action>, l: nat, m: nat, run: Id, id: FindingId)
    requires Execution(states, actions) && l < m <= |actions| && Lists(states[l], actions[l], run)
    ensures Resolves(states, actions, m, run, id) <==> WasClosed(states, actions, l, m, run, id)
  {
    ResolvesFirst(states, actions, l, run, id);
    forall n | l < n < m ensures StepAgrees(states, actions, l, n, run, id) {
      ClosesInStep(states, actions, l, n, run, id);
    }
    ClosingsAddUp(states, actions, l, m, run, id);
  }

  /** Every listed finding has exactly one turn before the run is done, and no other has any. */
  lemma ListedHaveOneTurn(states: seq<World>, actions: seq<Action>, l: nat, m: nat, run: Id, id: FindingId)
    requires Execution(states, actions) && l < m <= |actions| && Lists(states[l], actions[l], run)
    requires run in states[m].recordings && states[m].recordings[run].pc.Done?
    ensures (exists k :: l < k < m && Asks(actions[k], run, id)) <==> IsOlder(states[l], states[l].recordings[run].pass, id)
    ensures forall k, k' :: l < k < m && l < k' < m && Asks(actions[k], run, id) && Asks(actions[k'], run, id) ==> k == k'
  {
    TurnsGoOn(states, actions, l, m, run, id);
    ListedIff(states, actions, l, run, id);
    AskedIff(actions, l, m, run, id);
    forall k, k' | l < k < k' < m && Asks(actions[k], run, id) ensures !Asks(actions[k'], run, id) {
      AskedIff(actions, l, k', run, id);
      NoSecondTurn(states, actions, l, k', run, id);
    }
    if k :| l < k < m && Asks(actions[k], run, id) {
      TurnsGoOn(states, actions, l, k, run, id);
      assert id in TodoOf(states[k].recordings[run].pc);
    }
  }

  lemma NoSecondTurn(states: seq<World>, actions: seq<Action>, l: nat, k: nat, run: Id, id: FindingId)
    requires Execution(states, actions) && l < k < |actions| && Lists(states[l], actions[l], run)
    requires Asked(actions, l, k, run, id)
    ensures !Asks(actions[k], run, id)
  {
    TurnsGoOn(states, actions, l, k, run, id);
  }

  /**
   Which findings a run closes, its own sightings included, in every interleaving: one is
   closed if and only if at the listing it was open and seen last by a run that started
   strictly earlier, and at its turn it was still open and seen last by a run of that
   same start. A finding the run observed itself is thus closed exactly when an earlier
   run took it over before the listing and nobody changed that until its turn.
   */
  lemma ClosedIff(states: seq<World>, actions: seq<Action>, l: nat, m: nat, run: Id, id: FindingId)
    requires Execution(states, actions) && l < m <= |actions| && Lists(states[l], actions[l], run)
    ensures Resolved in MovesBy(states, actions, m, run, id) <==>
              && IsOlder(states[l], states[l].recordings[run].pass, id)
              && exists k :: l < k < m && Asks(actions[k], run, id) && StillOlder(states[l], states[k], id)
  {
    ResolvesInTurn(states, actions, l, m, run, id);
    ListedIff(states, actions, l, run, id);
    if IsOlder(states[l], states[l].recordings[run].pass, id) {
      var listed := ListedAt(states[l], run)[id];
      LastStartIsLastSeenAt(states, actions, l, id);
      ClosedInTurnIff(states, actions, l, m, run, id, listed);
      forall k | l < k < m && Asks(actions[k], run, id)
        ensures Closing(states[k], actions[k], run, id, listed) <==> StillOlder(states[l], states[k], id)
      {
        if id in states[k].rows {
          LastStartIsLastSeenAt(states, actions, k, id);
        }
      }
    }
  }

  /** The finding is open and seen last by a run of the same start as when it was listed. */
  predicate StillOlder(listing: World, w: World, id: FindingId) {
    HasObserver(listing, id) && HasObserver(w, id) && w.rows[id].status == OPEN && LastStart(w, id) == LastStart(listing, id)
  }
}
