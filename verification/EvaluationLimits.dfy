/**
 A reachable state of the whole system in which a run has failed, and from which its
 executor still inserts one finding after the other for it.
 */
module EvaluationLimits {
  import opened Common
  import opened RunLimits
  import opened Evaluation
  import opened RunJudgments
  import T = RunTable
  import R = RunProtocol
  import RI = RunInvariants
  import RT = RunTheorems
  import FT = FindingTable
  import F = FindingProtocol
  import C = Criteria
  import Comp = CoverageComposer
  import J = Judgment

  const LODASH: FT.Sighting := FT.Sighting(J.Candidate("cve", "lodash", "HIGH", None), "prototype pollution", None, None)
  const MINIMIST: FT.Sighting := FT.Sighting(J.Candidate("cve", "minimist", "LOW", None), "prototype pollution", None, None)
  const BOTH: seq<FT.Sighting> := [LODASH, MINIMIST]

  const CLAIMS: seq<J.Candidate> := [LODASH.claim, MINIMIST.claim]

  lemma ClaimsPass(checks: R.Checks)
    requires RT.ServiceChecks(checks)
    ensures checks.findings(map[0 := ROW], NO_EVIDENCE, CLAIMS)
  {
    var rows: map<C.Id, C.CriterionRow> := map[0 := ROW];
    assert rows[0].criterionKey == "cve";
    var kinds := C.KindsIn(rows);
    assert "cve" in kinds && kinds["cve"] == J.ASSERTION;
    assert J.Identity(CLAIMS[0]) == "cve/lodash" && J.Identity(CLAIMS[1]) == "cve/minimist";
    assert J.FindingsOk(kinds, CLAIMS, Some(Comp.IdsOf(NO_EVIDENCE.items)));
  }

  /** Run 0 has failed, and its executor has passed the check before its recording. */
  predicate FailedBeforeRecording(w: R.World, draft: R.Draft) {
    && 0 in w.runs && w.runs[0].status == T.Failed && 0 in w.execs && w.execs[0].pc == R.FindingsFenced(draft)
  }

  lemma FailedReached(checks: R.Checks, timeout: nat) returns (w: R.World, draft: R.Draft)
    requires RT.ServiceChecks(checks)
    ensures Reachable(w) && FailedBeforeRecording(w, draft) && w.checks == checks
    ensures draft == R.Draft(map[0 := ROW], NO_EVIDENCE, [], CLAIMS)
  {
    ServicesAllowNothing(checks);
    var w1 := ExecutingReached(checks, timeout);
    draft := R.Draft(map[0 := ROW], NO_EVIDENCE, [], CLAIMS);
    var w2 := CheckedReached(w1, draft);
    var w3 := StoredReached(w2, draft);
    var w4 := RunLimits.GoesOn(w3, R.Proceed, R.ResultStored(draft), R.FindingsFenced(draft));
    var w5 := BegunReached(w4, R.FindingsFenced(draft));
    w := SweptReached(w5, R.FindingsFenced(draft));
  }

  lemma ReachableInv(w: R.World)
    requires Reachable(w)
    ensures Inv(NoFindings(w))
  {
    var states: seq<World>, actions: seq<Action> :|
      Execution(states, actions) && NoFindings(w) in states && states[|actions|] == NoFindings(w);
    InvAlways(states, actions, |actions|);
  }

  /** What the executor holds was read from the criteria that are still there. */
  lemma ReadsStand(w: R.World, draft: R.Draft)
    requires Inv(NoFindings(w)) && FailedBeforeRecording(w, draft)
    ensures C.Rows(w.catalog, w.runs[0].version) == draft.judged
  {
    assert RI.ReadsOk(w.checks, C.Rows(w.catalog, w.runs[0].version), w.execs[0].pc);
  }

  /** Run 0 has failed and its executor is recording; the pass stands at `pc`. */
  predicate Goes(w: World, pc: F.Pc) {
    && 0 in w.runs.runs && w.runs.runs[0].status == T.Failed && 0 in w.runs.execs && w.runs.execs[0].pc.Recording?
    && 0 in w.findings.recordings && w.findings.recordings[0].candidates == BOTH && w.findings.recordings[0].pass.run == 0
    && w.findings.recordings[0].pc == pc
  }

  lemma CallIsPossible(w: R.World, draft: R.Draft)
    requires Reachable(w) && FailedBeforeRecording(w, draft) && RT.ServiceChecks(w.checks)
    requires draft == R.Draft(map[0 := ROW], NO_EVIDENCE, [], CLAIMS)
    ensures CallEnabled(NoFindings(w), 0, BOTH)
  {
    ReachableInv(w);
    ReadsStand(w, draft);
    ClaimsPass(w.checks);
    ItValidates(w, draft);
    CallIsEnabled(NoFindings(w), 0, BOTH);
  }

  lemma ItValidates(w: R.World, draft: R.Draft)
    requires FailedBeforeRecording(w, draft) && draft == R.Draft(map[0 := ROW], NO_EVIDENCE, [], CLAIMS)
    requires C.Rows(w.catalog, w.runs[0].version) == map[0 := ROW] && w.checks.findings(map[0 := ROW], NO_EVIDENCE, CLAIMS)
    ensures Validates(w, 0) && FT.ClaimsOf(BOTH) == w.execs[0].pc.draft.findings
  {
    assert FT.ClaimsOf(BOTH) == CLAIMS;
  }

  lemma AfterCall(w: R.World, draft: R.Draft, w': World)
    requires FailedBeforeRecording(w, draft) && draft.findings == CLAIMS && CallEnabled(NoFindings(w), 0, BOTH)
    requires w' == Apply(NoFindings(w), Call(0, BOTH))
    ensures Goes(w', F.Looking(0)) && w'.findings.rows == map[]
  {
    ExecutorMovesOne(w, 0, R.Proceed, 0);
    CallAdvances(w, 0);
    BeginAdds(NoFindings(w).findings, PassOf(w, 0), BOTH, BeginOf(w, 0, BOTH).evidenceIds);
    RI.ExecutorFreezes(w, 0, R.Proceed);
  }

  lemma CallReached(w: R.World, draft: R.Draft) returns (w': World)
    requires Reachable(w) && FailedBeforeRecording(w, draft) && RT.ServiceChecks(w.checks)
    requires draft == R.Draft(map[0 := ROW], NO_EVIDENCE, [], CLAIMS)
    ensures Through(NoFindings(w), w') && Goes(w', F.Looking(0)) && w'.findings.rows == map[]
  {
    CallIsPossible(w, draft);
    w' := Apply(NoFindings(w), Call(0, BOTH));
    AfterCall(w, draft, w');
    ThroughNext(NoFindings(w), NoFindings(w), Call(0, BOTH), w');
  }

  /** The world after a step of the pass. */
  function Stepped(w: World, pc: F.Pc, effect: F.Effect): World
    requires 0 in w.findings.recordings
  {
    w.(findings := F.AfterEffect(w.findings, 0, pc, effect))
  }

  lemma StepReached(before: World, w: World, at: F.Pc, pc: F.Pc, effect: F.Effect)
    requires Through(before, w) && Goes(w, at) && !at.Recorded? && F.Fits(w.findings.recordings[0], F.Go)
    requires F.Advance(w.findings.recordings[0], w.findings.rows, w.findings.now, F.Go) == (pc, effect)
    ensures Through(before, Stepped(w, pc, effect)) && Goes(Stepped(w, pc, effect), pc)
    ensures Stepped(w, pc, effect).findings.rows == F.RowsAfter(w.findings.rows, effect)
    ensures Stepped(w, pc, effect).findings.recordings[0].pass == w.findings.recordings[0].pass
  {
    ThroughNext(before, w, FindingStep(F.Step(0, F.Go)), Stepped(w, pc, effect));
  }

  /** The next candidate is new, and its row is inserted. */
  lemma NewReached(before: World, w: World, n: nat) returns (w': World)
    requires Through(before, w) && Goes(w, F.Looking(n)) && n < 2
    requires FT.IdOf(w.findings.recordings[0].pass, BOTH[n]) !in w.findings.rows
    ensures Through(before, w') && Goes(w', F.Looking(n + 1))
    ensures var pass := w.findings.recordings[0].pass;
            && w'.findings.recordings[0].pass == pass
            && w'.findings.rows == w.findings.rows[FT.IdOf(pass, BOTH[n]) := FT.NewRow(pass, BOTH[n])]
  {
    StepReached(before, w, F.Looking(n), F.Creating(n), F.Nothing);
    var w1 := Stepped(w, F.Creating(n), F.Nothing);
    w' := CreateReached(before, w1, n);
  }

  lemma CreateReached(before: World, w: World, n: nat) returns (w': World)
    requires Through(before, w) && Goes(w, F.Creating(n)) && n < 2
    requires FT.IdOf(w.findings.recordings[0].pass, BOTH[n]) !in w.findings.rows
    ensures Through(before, w') && Goes(w', F.Looking(n + 1))
    ensures var pass := w.findings.recordings[0].pass;
            && w'.findings.recordings[0].pass == pass
            && w'.findings.rows == w.findings.rows[FT.IdOf(pass, BOTH[n]) := FT.NewRow(pass, BOTH[n])]
  {
    var pass := w.findings.recordings[0].pass;
    var notice := FT.Notice(FT.IdOf(pass, BOTH[n]), BOTH[n].claim.severity, FT.Created);
    var put := F.Puts(FT.IdOf(pass, BOTH[n]), FT.NewRow(pass, BOTH[n]));
    StepReached(before, w, F.Creating(n), F.Telling(n, notice), put);
    w' := ToldReached(before, Stepped(w, F.Telling(n, notice), put), n, notice);
  }

  lemma ToldReached(before: World, w: World, n: nat, notice: FT.Notice) returns (w': World)
    requires Through(before, w) && Goes(w, F.Telling(n, notice)) && n < 2
    ensures Through(before, w') && Goes(w', F.Looking(n + 1))
    ensures w'.findings.rows == w.findings.rows && w'.findings.recordings[0].pass == w.findings.recordings[0].pass
  {
    StepReached(before, w, F.Telling(n, notice), F.Looking(n + 1), F.Says(notice));
    w' := Stepped(w, F.Looking(n + 1), F.Says(notice));
  }

  /** Nothing was found for run 0 when it failed, and later there are two findings that it alone has seen. */
  ghost predicate WritesTwoAfterFailure(w: World, w': World) {
    && 0 in w.runs.runs && w.runs.runs[0].status == T.Failed && w.findings.rows == map[]
    && |w'.findings.rows| == 2
    && forall id :: id in w'.findings.rows ==> w'.findings.rows[id].firstSeenRun == 0 && w'.findings.rows[id].lastSeenRun == 0
  }

  /**
   Under the services' checks a sweep can close a row between the check before the
   recording and the recording, and the executor then inserts two findings, with no
   check of the row between them.
   */
  lemma FindingsWrittenAfterFailure(checks: R.Checks, timeout: nat)
    requires RT.ServiceChecks(checks)
    ensures exists w, w' :: Through(w, w') && w.runs.checks == checks && WritesTwoAfterFailure(w, w')
  {
    var w0, draft := FailedReached(checks, timeout);
    var w1 := CallReached(w0, draft);
    var w3 := BothReached(NoFindings(w0), w1);
    TwoRows(NoFindings(w0), w3, w1.findings.recordings[0].pass);
  }

  lemma BothReached(before: World, w: World) returns (w': World)
    requires Through(before, w) && Goes(w, F.Looking(0)) && w.findings.rows == map[]
    ensures Through(before, w')
    ensures var pass := w.findings.recordings[0].pass;
            w'.findings.rows ==
            map[FT.IdOf(pass, LODASH) := FT.NewRow(pass, LODASH), FT.IdOf(pass, MINIMIST) := FT.NewRow(pass, MINIMIST)]
  {
    var pass := w.findings.recordings[0].pass;
    var w1 := NewReached(before, w, 0);
    assert FT.IdOf(pass, LODASH).fingerprint == "lodash" && FT.IdOf(pass, MINIMIST).fingerprint == "minimist";
    w' := NewReached(before, w1, 1);
  }

  lemma TwoRows(w: World, w': World, pass: FT.Pass)
    requires 0 in w.runs.runs && w.runs.runs[0].status == T.Failed && w.findings.rows == map[] && pass.run == 0
    requires w'.findings.rows ==
             map[FT.IdOf(pass, LODASH) := FT.NewRow(pass, LODASH), FT.IdOf(pass, MINIMIST) := FT.NewRow(pass, MINIMIST)]
    ensures WritesTwoAfterFailure(w, w')
  {
    var (a, b) := (FT.IdOf(pass, LODASH), FT.IdOf(pass, MINIMIST));
    assert a.fingerprint == "lodash" && b.fingerprint == "minimist";
    assert w'.findings.rows.Keys == {a, b};
    assert |w'.findings.rows| == |w'.findings.rows.Keys|;
  }
}
