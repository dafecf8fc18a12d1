/**
 Consistency of a judgment (evaluation-invariants.ts): verdicts answer SCORED
 criteria, finding candidates answer ASSERTION criteria, and every evidence
 reference names an item of the manifest.
 */
module Judgment {
  import opened Common

  datatype Kind = SCORED | ASSERTION

  datatype Criterion = Criterion(criterionKey: string, kind: Kind)

  type Kinds = map<string, Kind>

  datatype Score = Finite(value: real) | NotFinite

  /** `coverage.included` and `coverage.skipped`, None when absent. */
  datatype Verdict = Verdict(
    criterionKey: string,
    score: Score,
    confidence: string,
    included: Option<real>,
    skipped: Option<real>,
    evidenceRefs: seq<string>)

  datatype Candidate = Candidate(
    criterionKey: string,
    fingerprint: string,
    severity: string,
    evidenceRefs: Option<seq<string>>)

  datatype Problem =
    | VerdictUnknown(key: string)
    | VerdictOnAssertion(key: string)
    | VerdictRepeated(key: string)
    | VerdictScore(key: string)
    | VerdictConfidence(key: string, confidence: string)
    | VerdictCoverage(key: string)
    | VerdictEvidence(key: string, ref: string)
    | FindingUnknown(key: string)
    | FindingOnScored(key: string)
    | FindingFingerprint(key: string)
    | FindingSeverity(fingerprint: string, severity: string)
    | FindingRepeated(identity: string)
    | FindingEvidence(key: string, ref: string)

  const CONFIDENCES: set<string> := {"high", "medium", "low"}
  const SEVERITIES: set<string> := {"INFO", "LOW", "MEDIUM", "HIGH", "CRITICAL"}

  predicate IsCount(x: Option<real>) {
    x.Some? && x.value.Floor as real == x.value && x.value >= 0.0
  }

  function Identity(f: Candidate): string {
    f.criterionKey + "/" + f.fingerprint
  }

  function RefsOf(f: Candidate): seq<string> {
    f.evidenceRefs.GetOr([])
  }

  /** `new Map(criteria.map(...))`: the last criterion wins when keys repeat. */
  function KindsOf(criteria: seq<Criterion>): Kinds {
    if criteria == [] then map[]
    else
      var last := criteria[|criteria| - 1];
      KindsOf(criteria[..|criteria| - 1])[last.criterionKey := last.kind]
  }

  predicate Cited(ref: string, evidenceIds: Option<set<string>>) {
    evidenceIds.Some? ==> ref in evidenceIds.value
  }

  // ---- What a consistent judgment is ----

  predicate VerdictOk(kinds: Kinds, v: Verdict, evidenceIds: Option<set<string>>) {
    && v.criterionKey in kinds && kinds[v.criterionKey] == SCORED
    && v.score.Finite?
    && v.confidence in CONFIDENCES
    && IsCount(v.included) && IsCount(v.skipped)
    && forall ref :: ref in v.evidenceRefs ==> Cited(ref, evidenceIds)
  }

  predicate FindingOk(kinds: Kinds, f: Candidate, evidenceIds: Option<set<string>>) {
    && f.criterionKey in kinds && kinds[f.criterionKey] == ASSERTION
    && f.fingerprint != ""
    && f.severity in SEVERITIES
    && forall ref :: ref in RefsOf(f) ==> Cited(ref, evidenceIds)
  }

  predicate VerdictsOk(kinds: Kinds, verdicts: seq<Verdict>, evidenceIds: Option<set<string>>) {
    && (forall i :: 0 <= i < |verdicts| ==> VerdictOk(kinds, verdicts[i], evidenceIds))
    && (forall i, j :: 0 <= i < j < |verdicts| ==> verdicts[i].criterionKey != verdicts[j].criterionKey)
  }

  predicate FindingsOk(kinds: Kinds, findings: seq<Candidate>, evidenceIds: Option<set<string>>) {
    && (forall i :: 0 <= i < |findings| ==> FindingOk(kinds, findings[i], evidenceIds))
    && (forall i, j :: 0 <= i < j < |findings| ==> Identity(findings[i]) != Identity(findings[j]))
  }

  /** A verdict that answers a scored criterion, rated and counted, and cites evidence of the run only. */
  predicate Answers(kinds: Kinds, v: Verdict, ids: set<string>) {
    && v.criterionKey in kinds && kinds[v.criterionKey] == SCORED && v.score.Finite?
    && (v.confidence == "high" || v.confidence == "medium" || v.confidence == "low")
    && v.included.Some? && v.included.value >= 0.0 && v.included.value == v.included.value.Floor as real
    && v.skipped.Some? && v.skipped.value >= 0.0 && v.skipped.value == v.skipped.value.Floor as real
    && forall k :: 0 <= k < |v.evidenceRefs| ==> v.evidenceRefs[k] in ids
  }

  lemma VerdictsOkMeans(kinds: Kinds, verdicts: seq<Verdict>, ids: set<string>)
    ensures VerdictsOk(kinds, verdicts, Some(ids)) <==>
              && (forall i :: 0 <= i < |verdicts| ==> Answers(kinds, verdicts[i], ids))
              && (forall i, j :: 0 <= i < j < |verdicts| ==> verdicts[i].criterionKey != verdicts[j].criterionKey)
  {
    forall i | 0 <= i < |verdicts| ensures VerdictOk(kinds, verdicts[i], Some(ids)) <==> Answers(kinds, verdicts[i], ids) {
      var v := verdicts[i];
      assert (forall ref :: ref in v.evidenceRefs ==> ref in ids) <==> forall k :: 0 <= k < |v.evidenceRefs| ==> v.evidenceRefs[k] in ids;
    }
  }

  /** A candidate that answers an assertion with a fingerprint and a severity, and cites evidence of the run only. */
  predicate Asserts(kinds: Kinds, f: Candidate, ids: set<string>) {
    && f.criterionKey in kinds && kinds[f.criterionKey] == ASSERTION && f.fingerprint != ""
    && (f.severity == "INFO" || f.severity == "LOW" || f.severity == "MEDIUM" || f.severity == "HIGH" || f.severity == "CRITICAL")
    && (f.evidenceRefs.Some? ==> forall k :: 0 <= k < |f.evidenceRefs.value| ==> f.evidenceRefs.value[k] in ids)
  }

  lemma FindingsOkMeans(kinds: Kinds, findings: seq<Candidate>, ids: set<string>)
    ensures FindingsOk(kinds, findings, Some(ids)) <==>
              && (forall i :: 0 <= i < |findings| ==> Asserts(kinds, findings[i], ids))
              && (forall i, j :: 0 <= i < j < |findings| ==>
                    findings[i].criterionKey + "/" + findings[i].fingerprint != findings[j].criterionKey + "/" + findings[j].fingerprint)
  {
    forall i | 0 <= i < |findings| ensures FindingOk(kinds, findings[i], Some(ids)) <==> Asserts(kinds, findings[i], ids) {
      var refs := RefsOf(findings[i]);
      assert (forall ref :: ref in refs ==> ref in ids) <==> forall k :: 0 <= k < |refs| ==> refs[k] in ids;
    }
  }

  // ---- Which problems each element causes ----

  /** Keys of earlier verdicts that name a criterion. */
  function SeenVerdicts(kinds: Kinds, earlier: seq<Verdict>): set<string> {
    set v | v in earlier && v.criterionKey in kinds :: v.criterionKey
  }

  function SeenFindings(kinds: Kinds, earlier: seq<Candidate>): set<string> {
    set f | f in earlier && f.criterionKey in kinds :: Identity(f)
  }

  predicate VerdictCauses(kinds: Kinds, v: Verdict, seen: set<string>, evidenceIds: Option<set<string>>, p: Problem) {
    var key := v.criterionKey;
    if key !in kinds then p == VerdictUnknown(key)
    else
      || (p == VerdictOnAssertion(key) && kinds[key] != SCORED)
      || (p == VerdictRepeated(key) && key in seen)
      || (p == VerdictScore(key) && !v.score.Finite?)
      || (p == VerdictConfidence(key, v.confidence) && v.confidence !in CONFIDENCES)
      || (p == VerdictCoverage(key) && !(IsCount(v.included) && IsCount(v.skipped)))
      || (p.VerdictEvidence? && p.key == key && p.ref in v.evidenceRefs && !Cited(p.ref, evidenceIds))
  }

  predicate FindingCauses(kinds: Kinds, f: Candidate, seen: set<string>, evidenceIds: Option<set<string>>, p: Problem) {
    var key := f.criterionKey;
    if key !in kinds then p == FindingUnknown(key)
    else
      || (p == FindingOnScored(key) && kinds[key] != ASSERTION)
      || (p == FindingFingerprint(key) && f.fingerprint == "")
      || (p == FindingSeverity(f.fingerprint, f.severity) && f.severity !in SEVERITIES)
      || (p == FindingRepeated(Identity(f)) && Identity(f) in seen)
      || (p.FindingEvidence? && p.key == key && p.ref in RefsOf(f) && !Cited(p.ref, evidenceIds))
  }

  ghost predicate SomeVerdictCauses(kinds: Kinds, verdicts: seq<Verdict>, evidenceIds: Option<set<string>>, p: Problem) {
    exists i :: 0 <= i < |verdicts|
                && VerdictCauses(kinds, verdicts[i], SeenVerdicts(kinds, verdicts[..i]), evidenceIds, p)
  }

  ghost predicate SomeFindingCauses(kinds: Kinds, findings: seq<Candidate>, evidenceIds: Option<set<string>>, p: Problem) {
    exists i :: 0 <= i < |findings|
                && FindingCauses(kinds, findings[i], SeenFindings(kinds, findings[..i]), evidenceIds, p)
  }

  // ---- The validator ----

  method CheckVerdict(kinds: Kinds, v: Verdict, seen: set<string>, evidenceIds: Option<set<string>>)
    returns (problems: seq<Problem>)
    ensures forall p :: p in problems <==> VerdictCauses(kinds, v, seen, evidenceIds, p)
  {
    var key := v.criterionKey;
    if key !in kinds {
      return [VerdictUnknown(key)];
    }
    problems := if kinds[key] != SCORED then [VerdictOnAssertion(key)] else [];
    if key in seen {
      problems := problems + [VerdictRepeated(key)];
    }
    if !v.score.Finite? {
      problems := problems + [VerdictScore(key)];
    }
    if v.confidence !in CONFIDENCES {
      problems := problems + [VerdictConfidence(key, v.confidence)];
    }
    if !IsCount(v.included) || !IsCount(v.skipped) {
      problems := problems + [VerdictCoverage(key)];
    }
    if evidenceIds.Some? {
      ghost var before := problems;
      for i := 0 to |v.evidenceRefs|
        invariant forall p :: p in problems <==>
                    p in before || (p.VerdictEvidence? && p.key == key && p.ref in v.evidenceRefs[..i] && p.ref !in evidenceIds.value)
      {
        if v.evidenceRefs[i] !in evidenceIds.value {
          problems := problems + [VerdictEvidence(key, v.evidenceRefs[i])];
        }
      }
    }
  }

  method CheckFinding(kinds: Kinds, f: Candidate, seen: set<string>, evidenceIds: Option<set<string>>)
    returns (problems: seq<Problem>)
    ensures forall p :: p in problems <==> FindingCauses(kinds, f, seen, evidenceIds, p)
  {
    var key := f.criterionKey;
    if key !in kinds {
      return [FindingUnknown(key)];
    }
    problems := if kinds[key] != ASSERTION then [FindingOnScored(key)] else [];
    if f.fingerprint == "" {
      problems := problems + [FindingFingerprint(key)];
    }
    if f.severity !in SEVERITIES {
      problems := problems + [FindingSeverity(f.fingerprint, f.severity)];
    }
    if Identity(f) in seen {
      problems := problems + [FindingRepeated(Identity(f))];
    }
    if evidenceIds.Some? {
      ghost var before := problems;
      var refs := RefsOf(f);
      for i := 0 to |refs|
        invariant forall p :: p in problems <==>
                    p in before || (p.FindingEvidence? && p.key == key && p.ref in refs[..i] && p.ref !in evidenceIds.value)
      {
        if refs[i] !in evidenceIds.value {
          problems := problems + [FindingEvidence(key, refs[i])];
        }
      }
    }
  }

  /** Reports exactly the problems the elements cause, and none exactly when the judgment is consistent. */
  method ValidateJudgment(criteria: seq<Criterion>, verdicts: seq<Verdict>, findings: seq<Candidate>,
                          evidenceIds: Option<set<string>>)
    returns (problems: seq<Problem>)
    ensures var kinds := KindsOf(criteria);
            && (forall p :: p in problems <==>
                  SomeVerdictCauses(kinds, verdicts, evidenceIds, p) || SomeFindingCauses(kinds, findings, evidenceIds, p))
            && (problems == [] <==> VerdictsOk(kinds, verdicts, evidenceIds) && FindingsOk(kinds, findings, evidenceIds))
  {
    var kinds: Kinds := map[];
    for i := 0 to |criteria|
      invariant kinds == KindsOf(criteria[..i])
    {
      assert criteria[..i + 1][..i] == criteria[..i];
      kinds := kinds[criteria[i].criterionKey := criteria[i].kind];
    }
    assert criteria[..|criteria|] == criteria;
    var verdictProblems := CheckVerdicts(kinds, verdicts, evidenceIds);
    var findingProblems := CheckFindings(kinds, findings, evidenceIds);
    problems := verdictProblems + findingProblems;
    VerdictsAreOkIff(kinds, verdicts, evidenceIds);
    FindingsAreOkIff(kinds, findings, evidenceIds);
    assert problems != [] ==> problems[0] in problems;
  }

  method CheckVerdicts(kinds: Kinds, verdicts: seq<Verdict>, evidenceIds: Option<set<string>>)
    returns (problems: seq<Problem>)
    ensures forall p :: p in problems <==> SomeVerdictCauses(kinds, verdicts, evidenceIds, p)
  {
    problems := [];
    var seen: set<string> := {};
    for i := 0 to |verdicts|
      invariant seen == SeenVerdicts(kinds, verdicts[..i])
      invariant forall p :: p in problems <==>
                  exists j :: 0 <= j < i && VerdictCauses(kinds, verdicts[j], SeenVerdicts(kinds, verdicts[..j]), evidenceIds, p)
    {
      var more := CheckVerdict(kinds, verdicts[i], seen, evidenceIds);
      problems := problems + more;
      if verdicts[i].criterionKey in kinds {
        seen := seen + {verdicts[i].criterionKey};
      }
      assert verdicts[..i + 1] == verdicts[..i] + [verdicts[i]];
    }
  }

  method CheckFindings(kinds: Kinds, findings: seq<Candidate>, evidenceIds: Option<set<string>>)
    returns (problems: seq<Problem>)
    ensures forall p :: p in problems <==> SomeFindingCauses(kinds, findings, evidenceIds, p)
  {
    problems := [];
    var seen: set<string> := {};
    for i := 0 to |findings|
      invariant seen == SeenFindings(kinds, findings[..i])
      invariant forall p :: p in problems <==>
                  exists j :: 0 <= j < i && FindingCauses(kinds, findings[j], SeenFindings(kinds, findings[..j]), evidenceIds, p)
    {
      var more := CheckFinding(kinds, findings[i], seen, evidenceIds);
      problems := problems + more;
      if findings[i].criterionKey in kinds {
        seen := seen + {Identity(findings[i])};
      }
      assert findings[..i + 1] == findings[..i] + [findings[i]];
    }
  }

  lemma VerdictsAreOkIff(kinds: Kinds, verdicts: seq<Verdict>, evidenceIds: Option<set<string>>)
    ensures VerdictsOk(kinds, verdicts, evidenceIds) <==> forall p :: !SomeVerdictCauses(kinds, verdicts, evidenceIds, p)
  {
    if forall p :: !SomeVerdictCauses(kinds, verdicts, evidenceIds, p) {
      forall i | 0 <= i < |verdicts|
        ensures VerdictOk(kinds, verdicts[i], evidenceIds)
        ensures verdicts[i].criterionKey !in SeenVerdicts(kinds, verdicts[..i])
      {
        var v, seen := verdicts[i], SeenVerdicts(kinds, verdicts[..i]);
        assert forall p :: VerdictCauses(kinds, v, seen, evidenceIds, p) ==> SomeVerdictCauses(kinds, verdicts, evidenceIds, p);
        assert !VerdictCauses(kinds, v, seen, evidenceIds, VerdictUnknown(v.criterionKey));
        assert !VerdictCauses(kinds, v, seen, evidenceIds, VerdictOnAssertion(v.criterionKey));
        assert !VerdictCauses(kinds, v, seen, evidenceIds, VerdictRepeated(v.criterionKey));
        assert !VerdictCauses(kinds, v, seen, evidenceIds, VerdictScore(v.criterionKey));
        assert !VerdictCauses(kinds, v, seen, evidenceIds, VerdictConfidence(v.criterionKey, v.confidence));
        assert !VerdictCauses(kinds, v, seen, evidenceIds, VerdictCoverage(v.criterionKey));
        forall ref | ref in v.evidenceRefs ensures Cited(ref, evidenceIds) {
          assert !VerdictCauses(kinds, v, seen, evidenceIds, VerdictEvidence(v.criterionKey, ref));
        }
      }
      forall i, j | 0 <= i < j < |verdicts| ensures verdicts[i].criterionKey != verdicts[j].criterionKey {
        assert verdicts[..j][i] == verdicts[i];
      }
    }
  }

  lemma FindingsAreOkIff(kinds: Kinds, findings: seq<Candidate>, evidenceIds: Option<set<string>>)
    ensures FindingsOk(kinds, findings, evidenceIds) <==> forall p :: !SomeFindingCauses(kinds, findings, evidenceIds, p)
  {
    if forall p :: !SomeFindingCauses(kinds, findings, evidenceIds, p) {
      forall i | 0 <= i < |findings|
        ensures FindingOk(kinds, findings[i], evidenceIds)
        ensures Identity(findings[i]) !in SeenFindings(kinds, findings[..i])
      {
        var f, seen := findings[i], SeenFindings(kinds, findings[..i]);
        assert forall p :: FindingCauses(kinds, f, seen, evidenceIds, p) ==> SomeFindingCauses(kinds, findings, evidenceIds, p);
        assert !FindingCauses(kinds, f, seen, evidenceIds, FindingUnknown(f.criterionKey));
        assert !FindingCauses(kinds, f, seen, evidenceIds, FindingOnScored(f.criterionKey));
        assert !FindingCauses(kinds, f, seen, evidenceIds, FindingFingerprint(f.criterionKey));
        assert !FindingCauses(kinds, f, seen, evidenceIds, FindingSeverity(f.fingerprint, f.severity));
        assert !FindingCauses(kinds, f, seen, evidenceIds, FindingRepeated(Identity(f)));
        forall ref | ref in RefsOf(f) ensures Cited(ref, evidenceIds) {
          assert !FindingCauses(kinds, f, seen, evidenceIds, FindingEvidence(f.criterionKey, ref));
        }
      }
      forall i, j | 0 <= i < j < |findings| ensures Identity(findings[i]) != Identity(findings[j]) {
        assert findings[..j][i] == findings[i];
      }
    }
  }

  // ---- When "appears more than once" means what it says ----

  /** `b` starts with `a` and a slash. */
  predicate Nested(a: string, b: string) {
    |a| < |b| && b[..|a|] == a && b[|a|] == '/'
  }

  /**
   Candidates of two different criteria can be mistaken for one another exactly
   when one criterion key is nested in the other.
   */
  lemma IdentitiesClashIff(a: string, b: string)
    requires a != b
    ensures (exists f, g :: f != "" && g != "" && a + "/" + f == b + "/" + g) <==> Nested(a, b) || Nested(b, a)
  {
    if f, g :| f != "" && g != "" && a + "/" + f == b + "/" + g {
      ClashIsNested(a, f, b, g);
    }
    if Nested(a, b) {
      NestedClashes(a, b);
    }
    if Nested(b, a) {
      NestedClashes(b, a);
    }
  }

  lemma ClashIsNested(a: string, f: string, b: string, g: string)
    requires a != b && a + "/" + f == b + "/" + g
    ensures Nested(a, b) || Nested(b, a)
  {
    var whole := a + "/" + f;
    assert whole[..|a|] == a && whole[..|b|] == b && whole[|a|] == '/' && whole[|b|] == '/';
    assert |a| < |b| ==> b[..|a|] == whole[..|a|];
    assert |b| < |a| ==> a[..|b|] == whole[..|b|];
  }

  lemma NestedClashes(a: string, b: string)
    requires Nested(a, b)
    ensures exists f, g :: f != "" && g != "" && a + "/" + f == b + "/" + g
  {
    var f := b[|a| + 1..] + "/x";
    assert b == a + "/" + b[|a| + 1..];
    assert a + "/" + f == b + "/" + "x";
  }

  /** Without nested criterion keys, the validator compares (criterion, fingerprint) pairs. */
  lemma DistinctIdentitiesArePairs(kinds: Kinds, findings: seq<Candidate>)
    requires forall a, b :: a in kinds && b in kinds ==> !Nested(a, b)
    requires forall f :: f in findings ==> f.criterionKey in kinds
    ensures (forall i, j :: 0 <= i < j < |findings| ==> Identity(findings[i]) != Identity(findings[j]))
       <==> (forall i, j :: 0 <= i < j < |findings| ==>
               (findings[i].criterionKey, findings[i].fingerprint) != (findings[j].criterionKey, findings[j].fingerprint))
  {
    forall i, j | 0 <= i < j < |findings|
      ensures Identity(findings[i]) == Identity(findings[j]) <==>
              (findings[i].criterionKey, findings[i].fingerprint) == (findings[j].criterionKey, findings[j].fingerprint)
    {
      var f, g := findings[i], findings[j];
      if Identity(f) == Identity(g) {
        if f.criterionKey != g.criterionKey {
          ClashIsNested(f.criterionKey, f.fingerprint, g.criterionKey, g.fingerprint);
        }
        var n := |f.criterionKey| + 1;
        assert Identity(f)[n..] == f.fingerprint && Identity(g)[n..] == g.fingerprint;
      }
    }
  }
}
