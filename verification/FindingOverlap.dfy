/**
 Where the finding lifecycle falls short: reachable states, reached by overlapping
 passes of one evaluationKey, in which a finding that every pass observed is resolved.
 */
module FindingOverlap {
  import opened Common
  import opened FindingTable
  import opened FindingProtocol
  import J = Judgment

  ghost predicate Reachable(w: World) {
    exists states, actions :: Execution(states, actions) && states[|actions|] == w
  }

  lemma ReachInit(w: World)
    requires Init(w)
    ensures Reachable(w)
  {
    assert Execution([w], []) && [w][0] == w;
  }

  lemma ReachNext(w: World, a: Action)
    requires Reachable(w) && Enabled(w, a)
    ensures Reachable(Apply(w, a))
  {
    var states: seq<World>, actions: seq<Action> :| Execution(states, actions) && states[|actions|] == w;
    var more, further := states + [Apply(w, a)], actions + [a];
    forall i | 0 <= i < |further| ensures Enabled(more[i], further[i]) && more[i + 1] == Apply(more[i], further[i]) {
      assert i < |actions| ==> Enabled(states[i], actions[i]);
    }
    assert Execution(more, further) && more[|further|] == Apply(w, a);
  }

  // ---- Stretches of one pass ----

  predicate At(w: World, run: Id, pc: Pc) {
    run in w.recordings && w.recordings[run].pc == pc
  }

  function MovedTo(w: World, run: Id, pc: Pc, id: FindingId, row: Finding): World
    requires run in w.recordings
  {
    w.(recordings := w.recordings[run := w.recordings[run].(pc := pc)], rows := w.rows[id := row])
  }

  function AtPc(w: World, run: Id, pc: Pc): World
    requires run in w.recordings
  {
    w.(recordings := w.recordings[run := w.recordings[run].(pc := pc)])
  }

  lemma ReachPc(w: World, run: Id, choice: Choice, pc: Pc)
    requires Reachable(w) && StepEnabled(w, run, choice)
    requires Advance(w.recordings[run], w.rows, w.now, choice) == (pc, Nothing)
    ensures Reachable(AtPc(w, run, pc))
  {
    ReachNext(w, Step(run, choice));
  }

  lemma ReachPut(w: World, run: Id, choice: Choice, pc: Pc, id: FindingId, row: Finding)
    requires Reachable(w) && StepEnabled(w, run, choice)
    requires Advance(w.recordings[run], w.rows, w.now, choice) == (pc, Puts(id, row))
    ensures Reachable(MovedTo(w, run, pc, id, row))
  {
    ReachNext(w, Step(run, choice));
  }

  lemma SamePc(w: World, run: Id, pc: Pc, pc': Pc)
    requires run in w.recordings
    ensures AtPc(AtPc(w, run, pc), run, pc') == AtPc(w, run, pc')
  {
    var rec := w.recordings[run];
    assert w.recordings[run := rec.(pc := pc)][run := rec.(pc := pc')] == w.recordings[run := rec.(pc := pc')];
  }

  /** The pass inserts its next candidate. */
  lemma ReachCreated(w: World, run: Id, n: nat) returns (log: seq<Entry>)
    requires Reachable(w) && At(w, run, Looking(n)) && n < |w.recordings[run].candidates|
    requires IdOf(w.recordings[run].pass, w.recordings[run].candidates[n]) !in w.rows
    ensures var rec := w.recordings[run];
            var id := IdOf(rec.pass, rec.candidates[n]);
            Reachable(MovedTo(w, run, Looking(n + 1), id, NewRow(rec.pass, rec.candidates[n])).(log := log))
  {
    var rec := w.recordings[run];
    var s := rec.candidates[n];
    var id := IdOf(rec.pass, s);
    var notice := Notice(id, s.claim.severity, Created);
    ReachPc(w, run, Go, Creating(n));
    var w1 := AtPc(w, run, Creating(n));
    ReachPut(w1, run, Go, Telling(n, notice), id, NewRow(rec.pass, s));
    var w2 := MovedTo(w1, run, Telling(n, notice), id, NewRow(rec.pass, s));
    ReachNext(w2, Step(run, Go));
    var w3 := Apply(w2, Step(run, Go));
    assert w3.recordings == w.recordings[run := rec.(pc := Looking(n + 1))];
    log := w3.log;
    assert w3 == MovedTo(w, run, Looking(n + 1), id, NewRow(rec.pass, s)).(log := w3.log);
  }

  /** The pass reads its next candidate, which is open. */
  lemma ReachRead(w: World, run: Id, n: nat)
    requires Reachable(w) && At(w, run, Looking(n)) && n < |w.recordings[run].candidates|
    requires IdOf(w.recordings[run].pass, w.recordings[run].candidates[n]) in w.rows
    requires w.rows[IdOf(w.recordings[run].pass, w.recordings[run].candidates[n])].status == OPEN
    ensures Reachable(AtPc(w, run, Updating(n, OPEN)))
  {
    ReachPc(w, run, Go, Updating(n, OPEN));
  }

  /** ... and its conditional write matches. */
  lemma ReachUpdated(w: World, run: Id, n: nat)
    requires Reachable(w) && At(w, run, Updating(n, OPEN)) && n < |w.recordings[run].candidates|
    requires IdOf(w.recordings[run].pass, w.recordings[run].candidates[n]) in w.rows
    requires w.rows[IdOf(w.recordings[run].pass, w.recordings[run].candidates[n])].status == OPEN
    ensures var rec := w.recordings[run];
            var id := IdOf(rec.pass, rec.candidates[n]);
            Reachable(MovedTo(w, run, Looking(n + 1), id, Observed(w.rows[id], rec.pass, rec.candidates[n])))
  {
    var rec := w.recordings[run];
    var id := IdOf(rec.pass, rec.candidates[n]);
    ReachPut(w, run, Go, Looking(n + 1), id, Observed(w.rows[id], rec.pass, rec.candidates[n]));
  }

  /** ... or misses because the finding was resolved meanwhile: only the observation is refreshed. */
  lemma ReachMissed(w: World, run: Id, n: nat)
    requires Reachable(w) && At(w, run, Updating(n, OPEN)) && n < |w.recordings[run].candidates|
    requires IdOf(w.recordings[run].pass, w.recordings[run].candidates[n]) in w.rows
    requires w.rows[IdOf(w.recordings[run].pass, w.recordings[run].candidates[n])].status == RESOLVED
    ensures var rec := w.recordings[run];
            var id := IdOf(rec.pass, rec.candidates[n]);
            Reachable(MovedTo(w, run, Looking(n + 1), id, Observed(w.rows[id], rec.pass, rec.candidates[n])))
  {
    var rec := w.recordings[run];
    var id := IdOf(rec.pass, rec.candidates[n]);
    ReachPc(w, run, Go, Refreshing(n));
    var w1 := AtPc(w, run, Refreshing(n));
    ReachPut(w1, run, Go, Looking(n + 1), id, Observed(w.rows[id], rec.pass, rec.candidates[n]));
    SamePc(w, run, Refreshing(n), Looking(n + 1));
  }

  /** With every candidate recorded, the pass lists a single finding. */
  lemma ReachListed(w: World, run: Id, id: FindingId)
    requires Reachable(w) && run in w.recordings && At(w, run, Looking(|w.recordings[run].candidates|))
    requires id in w.rows && Absent(w.rows, w.recordings[run].pass) == map[id := w.rows[id]]
    ensures Reachable(AtPc(w, run, Resolving(map[id := w.rows[id]], 0)))
  {
    ReachPc(w, run, Go, Recorded);
    var w1 := AtPc(w, run, Recorded);
    ReachPc(w1, run, Go, Resolving(map[id := w.rows[id]], 0));
    SamePc(w, run, Recorded, Resolving(map[id := w.rows[id]], 0));
  }

  /** ... and closes it. */
  lemma ReachClosed(w: World, run: Id, id: FindingId)
    requires Reachable(w) && run in w.recordings && At(w, run, Looking(|w.recordings[run].candidates|))
    requires id in w.rows && Absent(w.rows, w.recordings[run].pass) == map[id := w.rows[id]]
    ensures exists pc: Pc :: pc.TellingClosed? && Reachable(MovedTo(w, run, pc, id, Resolve(w.rows[id], w.now)))
  {
    var rec := w.recordings[run];
    var listed := map[id := w.rows[id]];
    ReachListed(w, run, id);
    var w2 := AtPc(w, run, Resolving(listed, 0));
    assert IsAbsent(w.rows, rec.pass, id) by {
      assert id in Absent(w.rows, rec.pass);
    }
    var pc := TellingClosed(listed - {id}, 1, Notice(id, w.rows[id].severity, Resolved));
    ReachPut(w2, run, Pick(id), pc, id, Resolve(w.rows[id], w.now));
    SamePc(w, run, Resolving(listed, 0), pc);
    assert MovedTo(w2, run, pc, id, Resolve(w.rows[id], w.now)) == MovedTo(w, run, pc, id, Resolve(w.rows[id], w.now));
  }

  // ---- Two runs of one subject and evaluationKey, of two criteria versions ----

  const CLAIM: J.Candidate := J.Candidate("cve", "lodash", "HIGH", None)
  const SEEN: Sighting := Sighting(CLAIM, "prototype pollution", None, None)
  const EARLIER: Pass := Pass(1, 0, "npm", 10, map["cve" := J.ASSERTION])
  const LATER: Pass := Pass(2, 0, "npm", 20, map["cve" := J.ASSERTION])
  const X: FindingId := FindingId(0, "npm", "lodash")

  /** Every pass observed the finding, nobody ever suppressed or reopened anything, and yet it is resolved. */
  ghost predicate ObservedByAllYetResolved(w: World, id: FindingId) {
    && id in w.rows && w.rows[id].status == RESOLVED
    && w.calls == map[] && w.recordings != map[]
    && forall run :: run in w.recordings ==>
         Sees(w.recordings[run].pass, w.recordings[run].candidates, id) && !w.recordings[run].pc.Stopped?
  }

  function Start(): World {
    World(30, map[], map[], map[], [])
  }

  function BothBegun(): World {
    Start().(recordings := map[1 := Recording(EARLIER, [SEEN], Looking(0)), 2 := Recording(LATER, [SEEN], Looking(0))])
  }

  lemma SeenIsAdmissible(pass: Pass)
    requires pass.kinds == map["cve" := J.ASSERTION]
    ensures Admissible(pass, [SEEN], None)
  {
    assert ClaimsOf([SEEN])[0] == CLAIM;
  }

  lemma ReachBothBegun()
    ensures Reachable(BothBegun())
  {
    SeenIsAdmissible(EARLIER);
    SeenIsAdmissible(LATER);
    ReachInit(Start());
    ReachNext(Start(), Begin(EARLIER, [SEEN], None));
    var w1 := Apply(Start(), Begin(EARLIER, [SEEN], None));
    ReachNext(w1, Begin(LATER, [SEEN], None));
    assert Apply(w1, Begin(LATER, [SEEN], None)) == BothBegun();
  }

  /** Both runs recorded the finding, the earlier one last. */
  predicate RecordedBackwards(w: World) {
    && w.rows == map[X := Observed(NewRow(LATER, SEEN), EARLIER, SEEN)] && w.calls == map[]
    && w.recordings == map[1 := Recording(EARLIER, [SEEN], Looking(1)), 2 := Recording(LATER, [SEEN], Looking(1))]
  }

  lemma RecordedBackwardsReached() returns (w: World)
    ensures Reachable(w) && RecordedBackwards(w)
    ensures exists before :: Reachable(before) && X in before.rows && w.rows[X].lastSeenAt < before.rows[X].lastSeenAt
  {
    ReachBothBegun();
    var log := ReachCreated(BothBegun(), 2, 0);
    var w1 := MovedTo(BothBegun(), 2, Looking(1), X, NewRow(LATER, SEEN)).(log := log);
    ReachRead(w1, 1, 0);
    ReachUpdated(AtPc(w1, 1, Updating(0, OPEN)), 1, 0);
    w := MovedTo(AtPc(w1, 1, Updating(0, OPEN)), 1, Looking(1), X, Observed(NewRow(LATER, SEEN), EARLIER, SEEN));
    assert w1.rows[X].lastSeenAt == 20 && w.rows[X].lastSeenAt == 10;
  }

  lemma BothSee()
    ensures Sees(EARLIER, [SEEN], X) && Sees(LATER, [SEEN], X)
  {
    assert IdOf(EARLIER, [SEEN][0]) == X && IdOf(LATER, [SEEN][0]) == X;
  }

  lemma ClosedThoughObserved(w: World, pc: Pc)
    requires RecordedBackwards(w) && pc.TellingClosed?
    ensures ObservedByAllYetResolved(MovedTo(w, 2, pc, X, Resolve(w.rows[X], w.now)), X)
  {
    BothSee();
    var w' := MovedTo(w, 2, pc, X, Resolve(w.rows[X], w.now));
    assert 1 in w'.recordings && X in w'.rows;
    forall run | run in w'.recordings
      ensures Sees(w'.recordings[run].pass, w'.recordings[run].candidates, X) && !w'.recordings[run].pc.Stopped?
    {
      assert run == 1 || run == 2;
    }
  }

  /**
   The later run records the finding, the earlier one records it again with its own,
   earlier start time, so that `lastSeenAt` moves backwards; the later run then lists
   the finding it has just observed as absent and closes it.
   */
  lemma OverlapResolvesWhatBothObserved()
    ensures exists w :: Reachable(w) && ObservedByAllYetResolved(w, X)
  {
    var w := RecordedBackwardsReached();
    assert Absent(w.rows, LATER) == map[X := w.rows[X]];
    ReachClosed(w, 2, X);
    var pc: Pc :| pc.TellingClosed? && Reachable(MovedTo(w, 2, pc, X, Resolve(w.rows[X], w.now)));
    ClosedThoughObserved(w, pc);
  }

  /** The conditional write of `updateFinding` leaves a finding resolved exactly when it missed a concurrent resolution. */
  lemma ObservationLeavesResolvedIff(w: World, run: Id)
    requires Inv(w) && StepEnabled(w, run, Go) && OnCandidate(w.recordings[run].pc)
    requires Advance(w.recordings[run], w.rows, w.now, Go).1.Puts?
    ensures var rec := w.recordings[run];
            var row := StepApply(w, run, Go).rows[Target(rec)];
            && row.lastSeenRun == run
            && (row.status == RESOLVED <==> rec.pc.Refreshing? && w.rows[Target(rec)].status == RESOLVED)
  {
    assert RecordingOk(run, w.recordings[run], w.rows.Keys);
  }

  const EMPTY: Pass := Pass(3, 0, "npm", 30, map["cve" := J.ASSERTION])

  /** A run has observed the finding, is the last to have seen it, and the finding is resolved. */
  ghost predicate JustObservedYetResolved(w: World, run: Id, id: FindingId) {
    && id in w.rows && w.rows[id].status == RESOLVED && w.rows[id].lastSeenRun == run
    && At(w, run, Looking(1)) && |w.recordings[run].candidates| == 1 && w.calls == map[]
  }

  /** The second run has read the finding as open, and it has been resolved since. */
  predicate ClosedUnderReader(w: World) {
    && 2 in w.recordings && w.recordings[2] == Recording(LATER, [SEEN], Updating(0, OPEN))
    && X in w.rows && w.rows[X].status == RESOLVED && w.calls == map[]
  }

  lemma ReadReached() returns (w: World)
    ensures Reachable(w) && w.rows == map[X := NewRow(EARLIER, SEEN)] && w.calls == map[] && w.now == 30
    ensures 2 in w.recordings && w.recordings[2] == Recording(LATER, [SEEN], Updating(0, OPEN)) && 3 !in w.recordings
  {
    ReachBothBegun();
    var log := ReachCreated(BothBegun(), 1, 0);
    var w1 := MovedTo(BothBegun(), 1, Looking(1), X, NewRow(EARLIER, SEEN)).(log := log);
    ReachRead(w1, 2, 0);
    w := AtPc(w1, 2, Updating(0, OPEN));
  }

  lemma ClosedUnderReaderReached() returns (w: World)
    ensures Reachable(w) && ClosedUnderReader(w)
  {
    var w2 := ReadReached();
    assert Admissible(EMPTY, [], None);
    ReachNext(w2, Begin(EMPTY, [], None));
    var w3 := Apply(w2, Begin(EMPTY, [], None));
    assert Absent(w3.rows, EMPTY) == map[X := w3.rows[X]];
    ReachClosed(w3, 3, X);
    var pc: Pc :| pc.TellingClosed? && Reachable(MovedTo(w3, 3, pc, X, Resolve(w3.rows[X], w3.now)));
    w := MovedTo(w3, 3, pc, X, Resolve(w3.rows[X], w3.now));
  }

  /**
   A run reads an open finding, a third one that did not observe it closes it, and the
   first run's conditional write misses: it refreshes the row but leaves it resolved.
   */
  lemma MissLeavesObservedResolved()
    ensures exists w :: Reachable(w) && JustObservedYetResolved(w, 2, X)
  {
    var w4 := ClosedUnderReaderReached();
    ReachMissed(w4, 2, 0);
    var w5 := MovedTo(w4, 2, Looking(1), X, Observed(w4.rows[X], LATER, SEEN));
    assert JustObservedYetResolved(w5, 2, X);
  }

  // ---- One run with the same finding under two criteria ----

  const SEEN_AGAIN: Sighting := Sighting(J.Candidate("cve2", "lodash", "HIGH", None), "prototype pollution", None, None)
  const TWICE: Pass := Pass(1, 0, "npm", 10, map["cve" := J.ASSERTION, "cve2" := J.ASSERTION])

  function TwiceBegun(): World {
    Start().(recordings := map[1 := Recording(TWICE, [SEEN, SEEN_AGAIN], Looking(0)), 3 := Recording(EMPTY, [], Looking(0))])
  }

  lemma ReachTwiceBegun()
    ensures Reachable(TwiceBegun())
  {
    var claims := ClaimsOf([SEEN, SEEN_AGAIN]);
    assert claims[0] == CLAIM && claims[1] == SEEN_AGAIN.claim;
    assert J.Identity(claims[0]) == "cve/lodash" && J.Identity(claims[1]) == "cve2/lodash";
    ReachInit(Start());
    ReachNext(Start(), Begin(TWICE, [SEEN, SEEN_AGAIN], None));
    var w1 := Apply(Start(), Begin(TWICE, [SEEN, SEEN_AGAIN], None));
    assert Admissible(EMPTY, [], None);
    ReachNext(w1, Begin(EMPTY, [], None));
    assert Apply(w1, Begin(EMPTY, [], None)) == TwiceBegun();
  }

  /** The pass is about to try a listed finding that another run has observed again since the listing. */
  ghost predicate ObservedAgainSinceListing(w: World, run: Id, id: FindingId) {
    && run in w.recordings && w.recordings[run].pc.Resolving? && id in w.recordings[run].pc.todo && id in w.rows
    && w.rows[id].lastSeenRun != run && w.rows[id].criterionKey != w.recordings[run].pc.todo[id].criterionKey
    && w.calls == map[]
  }

  /** The later run has listed the finding, and the earlier one has its second sighting to record. */
  predicate ListedBetween(w: World) {
    && w.rows == map[X := NewRow(TWICE, SEEN)] && w.calls == map[] && 1 in w.recordings && 3 in w.recordings
    && w.recordings[1] == Recording(TWICE, [SEEN, SEEN_AGAIN], Looking(1))
    && w.recordings[3] == Recording(EMPTY, [], Resolving(map[X := NewRow(TWICE, SEEN)], 0))
  }

  lemma ListedBetweenReached() returns (w: World)
    ensures Reachable(w) && ListedBetween(w)
  {
    ReachTwiceBegun();
    var log := ReachCreated(TwiceBegun(), 1, 0);
    var w1 := MovedTo(TwiceBegun(), 1, Looking(1), X, NewRow(TWICE, SEEN)).(log := log);
    assert Absent(w1.rows, EMPTY) == map[X := w1.rows[X]];
    ReachListed(w1, 3, X);
    w := AtPc(w1, 3, Resolving(map[X := w1.rows[X]], 0));
  }

  /**
   One run has the same fingerprint under two criteria, which the validator admits. A later
   run lists the finding between its two sightings: the second one leaves `lastSeenAt`
   as it was, and the later run closes the finding that was just observed again.
   */
  lemma ReobservationAfterListingIsClosed()
    ensures exists w :: Reachable(w) && ObservedAgainSinceListing(w, 3, X) && StepEnabled(w, 3, Pick(X))
                        && X in StepApply(w, 3, Pick(X)).rows && StepApply(w, 3, Pick(X)).rows[X].status == RESOLVED
  {
    var w2 := ListedBetweenReached();
    ReachRead(w2, 1, 1);
    var w3 := AtPc(w2, 1, Updating(1, OPEN));
    ReachUpdated(w3, 1, 1);
    var w4 := MovedTo(w3, 1, Looking(2), X, Observed(w3.rows[X], TWICE, SEEN_AGAIN));
    assert ObservedAgainSinceListing(w4, 3, X);
  }
}
