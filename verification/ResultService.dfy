/**
 EvaluationResultService as an object over its tables, one caller at a time
 (evaluation-result.service.ts): archiving a result and reviewing it. How archiving
 interleaves with sweeps and other executors is the subject of RunProtocol.
 */
module ResultService {
  import opened Common
  import opened RunTable
  import Cov = Coverage
  import Comp = CoverageComposer
  import J = Judgment

  datatype ReviewStatus = APPROVED | REJECTED

  datatype Review = Review(status: ReviewStatus, reviewedBy: string, reviewedAt: nat, note: Option<string>)

  /** The archived conclusion of a run; only `review` is ever rewritten. */
  datatype Snapshot = Snapshot(
    subject: Id,
    version: Id,
    manifest: seq<Cov.Item>,
    coverage: Cov.Stats,
    verdicts: seq<J.Verdict>,
    summary: string)

  datatype ResultRow = ResultRow(snapshot: Snapshot, review: Option<Review>)

  datatype Input = Input(manifest: seq<Cov.Item>, coverage: Cov.Stats, verdicts: seq<J.Verdict>, summary: string)

  datatype Refusal =
    | NotFound
    | Conflict
    | BadCoverage(coverage: seq<Cov.Problem>)
    | BadJudgment(judgment: seq<J.Problem>)
    | NoteRequired

  function SnapshotOf(run: Run, input: Input): Snapshot {
    Snapshot(run.subject, run.version, input.manifest, input.coverage, input.verdicts, input.summary)
  }

  /** Overruling a conclusion needs a note with something in it. */
  predicate ReviewAllowed(status: ReviewStatus, note: Option<string>) {
    status == REJECTED ==> note.Some? && !IsBlank(note.value)
  }

  // ---- Reviews over time ----

  datatype ReviewCall = ReviewCall(result: Id, status: ReviewStatus, reviewedBy: string, note: Option<string>, now: nat)

  function ReviewOf(c: ReviewCall): Review {
    Review(c.status, c.reviewedBy, c.now, c.note)
  }

  predicate Accepted(results: map<Id, ResultRow>, c: ReviewCall) {
    ReviewAllowed(c.status, c.note) && c.result in results
  }

  function Reviewed(results: map<Id, ResultRow>, c: ReviewCall): map<Id, ResultRow> {
    if Accepted(results, c) then results[c.result := results[c.result].(review := Some(ReviewOf(c)))] else results
  }

  function ReviewedAll(results: map<Id, ResultRow>, calls: seq<ReviewCall>): map<Id, ResultRow> {
    if calls == [] then results else Reviewed(ReviewedAll(results, calls[..|calls| - 1]), calls[|calls| - 1])
  }

  /** The `i`-th call is the last one that may review the result. */
  ghost predicate LastSay(calls: seq<ReviewCall>, id: Id, i: nat) {
    && i < |calls| && calls[i].result == id && ReviewAllowed(calls[i].status, calls[i].note)
    && forall j :: i < j < |calls| && calls[j].result == id ==> !ReviewAllowed(calls[j].status, calls[j].note)
  }

  /**
   However often a result is reviewed, its snapshot stays as archived and its review is
   exactly the latest admissible say, note included: never a blend of two.
   */
  lemma {:induction false} LatestReviewStands(results: map<Id, ResultRow>, calls: seq<ReviewCall>, id: Id)
    requires id in results
    ensures ReviewedAll(results, calls).Keys == results.Keys
    ensures ReviewedAll(results, calls)[id].snapshot == results[id].snapshot
    ensures forall i: nat :: LastSay(calls, id, i) ==>
              ReviewedAll(results, calls)[id].review ==
              Some(Review(calls[i].status, calls[i].reviewedBy, calls[i].now, calls[i].note))
    ensures (forall i: nat :: !LastSay(calls, id, i)) ==> ReviewedAll(results, calls)[id] == results[id]
  {
    if calls != [] {
      var n := |calls| - 1;
      var before := calls[..n];
      LatestReviewStands(results, before, id);
      if calls[n].result == id && ReviewAllowed(calls[n].status, calls[n].note) {
        assert LastSay(calls, id, n);
      } else {
        forall i: nat ensures LastSay(calls, id, i) <==> LastSay(before, id, i) {
          assert LastSay(before, id, i) ==> before[i] == calls[i];
        }
      }
    }
  }

  // ---- The service ----

  class EvaluationResultService {
    var runs: Table
    /** What `listCriteria` returns for each version. */
    var criteria: map<Id, seq<J.Criterion>>
    var results: map<Id, ResultRow>

    constructor (runs: Table, criteria: map<Id, seq<J.Criterion>>)
      ensures this.runs == runs && this.criteria == criteria && results == map[]
    {
      this.runs, this.criteria, results := runs, criteria, map[];
    }

    function CriteriaOf(version: Id): seq<J.Criterion>
      reads this`criteria
    {
      if version in criteria then criteria[version] else []
    }

    ghost predicate CoverageAccepted(input: Input) {
      Cov.StatsOk(input.coverage, Comp.IdsOf(input.manifest))
    }

    ghost predicate VerdictsAccepted(run: Id, input: Input)
      reads this`runs, this`criteria
      requires run in runs
    {
      J.VerdictsOk(J.KindsOf(CriteriaOf(runs[run].version)), input.verdicts, Some(Comp.IdsOf(input.manifest)))
    }

    /**
     Archives a result exactly when the run exists, is active and has none yet, the
     coverage is valid for the manifest and the verdicts are consistent; the refusals
     come in this order, and none of them writes.
     */
    method CreateResult(run: Id, input: Input) returns (r: Result<Snapshot, Refusal>)
      modifies this`results
      ensures r.Ok? <==> IsActive(runs, run) && CoverageAccepted(input) && VerdictsAccepted(run, input) && run !in old(results)
      ensures r == Err(NotFound) <==> run !in runs
      ensures r.Err? && r.error.BadCoverage? <==> IsActive(runs, run) && !CoverageAccepted(input)
      ensures r.Err? && r.error.BadJudgment? <==>
                IsActive(runs, run) && CoverageAccepted(input) && !VerdictsAccepted(run, input)
      ensures r.Err? ==> results == old(results)
      ensures r.Ok? ==>
                && r.value.subject == runs[run].subject && r.value.version == runs[run].version
                && r.value.manifest == input.manifest && r.value.coverage == input.coverage
                && r.value.verdicts == input.verdicts && r.value.summary == input.summary
      ensures r.Ok? ==> results == old(results)[run := ResultRow(r.value, None)]
    {
      if run !in runs {
        return Err(NotFound);
      }
      if !Active(runs[run]) {
        return Err(Conflict);
      }
      var manifestIds := Comp.IdsOf(input.manifest);
      var coverageProblems := Cov.ValidateCoverageStats(input.coverage, Some(manifestIds));
      if coverageProblems != [] {
        return Err(BadCoverage(coverageProblems));
      }
      var judgmentProblems := J.ValidateJudgment(CriteriaOf(runs[run].version), input.verdicts, [], Some(manifestIds));
      if judgmentProblems != [] {
        return Err(BadJudgment(judgmentProblems));
      }
      if run in results {
        return Err(Conflict);
      }
      var snapshot := SnapshotOf(runs[run], input);
      results := results[run := ResultRow(snapshot, None)];
      r := Ok(snapshot);
    }

    method ReviewResult(call: ReviewCall) returns (r: Result<ResultRow, Refusal>)
      modifies this`results
      ensures r.Ok? <==> Accepted(old(results), call)
      ensures r == Err(NoteRequired) <==> !ReviewAllowed(call.status, call.note)
      ensures r.Err? ==> results == old(results)
      ensures r.Ok? ==> results == old(results)[call.result := r.value]
                        && r.value.snapshot == old(results)[call.result].snapshot
                        && r.value.review == Some(Review(call.status, call.reviewedBy, call.now, call.note))
      ensures results == Reviewed(old(results), call)
    {
      if call.status == REJECTED && (call.note.None? || IsBlank(call.note.value)) {
        return Err(NoteRequired);
      }
      if call.result !in results {
        return Err(NotFound);
      }
      results := results[call.result := results[call.result].(review := Some(ReviewOf(call)))];
      r := Ok(results[call.result]);
    }
  }
}
