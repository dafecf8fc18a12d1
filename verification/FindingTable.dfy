/**
 The EvaluationFinding table and the statements the finding service issues against
 it (evaluation-finding.service.ts). A row is identified by the unique key
 (subject, evaluationKey, fingerprint).
 */
module FindingTable {
  import opened Common
  import J = Judgment

  type Id = nat

  datatype Status = OPEN | RESOLVED | SUPPRESSED

  datatype FindingId = FindingId(subject: Id, evaluationKey: string, fingerprint: string)

  datatype Finding = Finding(
    criterionKey: string,
    severity: string,
    title: string,
    detail: Option<string>,
    metadata: Option<string>,
    status: Status,
    firstSeenRun: Id,
    lastSeenRun: Id,
    firstSeenAt: nat,
    lastSeenAt: nat,
    resolvedAt: Option<nat>,
    suppressionNote: Option<string>,
    suppressedByRef: Option<string>)

  type Table = map<FindingId, Finding>

  /** A finding candidate with the texts the validator does not look at. */
  datatype Sighting = Sighting(claim: J.Candidate, title: string, detail: Option<string>, metadata: Option<string>)

  /** What the finding service reads of a run: `observedAt` is `startedAt ?? createdAt`. */
  datatype Pass = Pass(run: Id, subject: Id, evaluationKey: string, observedAt: nat, kinds: J.Kinds)

  datatype Change = Created | Reopened | Resolved | Suppressed

  /** One call of the observer's `onFindingChanged`. */
  datatype Notice = Notice(id: FindingId, severity: string, change: Change)

  function IdOf(pass: Pass, s: Sighting): FindingId {
    FindingId(pass.subject, pass.evaluationKey, s.claim.fingerprint)
  }

  predicate InScope(pass: Pass, id: FindingId) {
    id.subject == pass.subject && id.evaluationKey == pass.evaluationKey
  }

  // ---- Single statements ----

  /** The row `createFinding` inserts. */
  function NewRow(pass: Pass, s: Sighting): Finding {
    Finding(s.claim.criterionKey, s.claim.severity, s.title, s.detail, s.metadata, OPEN,
            pass.run, pass.run, pass.observedAt, pass.observedAt, None, None, None)
  }

  /** The observation fields; an absent `detail` or `metadata` leaves the column as it is. */
  function Observed(f: Finding, pass: Pass, s: Sighting): Finding {
    f.(criterionKey := s.claim.criterionKey, severity := s.claim.severity, title := s.title,
       detail := if s.detail.Some? then s.detail else f.detail,
       metadata := if s.metadata.Some? then s.metadata else f.metadata,
       lastSeenRun := pass.run, lastSeenAt := pass.observedAt)
  }

  function Reopen(f: Finding): Finding {
    f.(status := OPEN, resolvedAt := None, suppressionNote := None, suppressedByRef := None)
  }

  function Suppress(f: Finding, note: string, actor: string): Finding {
    f.(status := SUPPRESSED, suppressionNote := Some(note), suppressedByRef := Some(actor), resolvedAt := None)
  }

  function Resolve(f: Finding, now: nat): Finding {
    f.(status := RESOLVED, resolvedAt := Some(now))
  }

  /** The row after `updateFinding` saw it in status `seen` and its conditional write matched. */
  function Updated(f: Finding, seen: Status, pass: Pass, s: Sighting): Finding {
    if seen == RESOLVED then Reopen(Observed(f, pass, s)) else Observed(f, pass, s)
  }

  /** The rows `resolveAbsentFindings` lists: open, in scope, and not seen by this pass. */
  predicate IsAbsent(t: Table, pass: Pass, id: FindingId) {
    id in t && InScope(pass, id) && t[id].status == OPEN && t[id].lastSeenAt < pass.observedAt && t[id].lastSeenRun != pass.run
  }

  function Absent(t: Table, pass: Pass): map<FindingId, Finding> {
    map id | id in t && IsAbsent(t, pass, id) :: t[id]
  }

  /** The per-row compare-and-set of `resolveAbsentFindings`, against the row as it was listed. */
  predicate Closable(t: Table, id: FindingId, listed: Finding) {
    id in t && t[id].status == OPEN && t[id].lastSeenAt == listed.lastSeenAt
  }

  // ---- A whole recording, undisturbed ----

  function ObserveOne(t: Table, pass: Pass, s: Sighting): Table {
    var id := IdOf(pass, s);
    t[id := if id in t then Updated(t[id], t[id].status, pass, s) else NewRow(pass, s)]
  }

  function ObserveAll(t: Table, pass: Pass, ss: seq<Sighting>): Table {
    if ss == [] then t else ObserveOne(ObserveAll(t, pass, ss[..|ss| - 1]), pass, ss[|ss| - 1])
  }

  function NoticesOf(t: Table, pass: Pass, s: Sighting): seq<Notice> {
    var id := IdOf(pass, s);
    if id !in t then [Notice(id, s.claim.severity, Created)]
    else if t[id].status == RESOLVED then [Notice(id, s.claim.severity, Reopened)]
    else []
  }

  function NoticesOfAll(t: Table, pass: Pass, ss: seq<Sighting>): seq<Notice> {
    if ss == [] then []
    else
      var before := ss[..|ss| - 1];
      NoticesOfAll(t, pass, before) + NoticesOf(ObserveAll(t, pass, before), pass, ss[|ss| - 1])
  }

  /** The rows a recording returns, one per candidate, each as it was after that candidate. */
  function RowsOfAll(t: Table, pass: Pass, ss: seq<Sighting>): seq<Finding> {
    if ss == [] then []
    else RowsOfAll(t, pass, ss[..|ss| - 1]) + [ObserveAll(t, pass, ss)[IdOf(pass, ss[|ss| - 1])]]
  }

  /** `t'` is `t` with exactly the open rows `ids` closed. */
  ghost predicate Closed(t: Table, t': Table, ids: set<FindingId>) {
    && t'.Keys == t.Keys
    && (forall id :: id in t && id !in ids ==> t'[id] == t[id])
    && (forall id :: id in t && id in ids ==> IsClosing(t[id], t'[id]))
  }

  predicate IsClosing(f: Finding, f': Finding) {
    f'.status == RESOLVED && f'.resolvedAt.Some? && SameSighting(f, f') && SameSuppression(f, f')
  }

  /** Everything a run writes when it sees a finding. */
  predicate SameSighting(f: Finding, f': Finding) {
    && f'.criterionKey == f.criterionKey && f'.severity == f.severity && f'.title == f.title && f'.detail == f.detail
    && f'.metadata == f.metadata && f'.firstSeenRun == f.firstSeenRun && f'.lastSeenRun == f.lastSeenRun
    && f'.firstSeenAt == f.firstSeenAt && f'.lastSeenAt == f.lastSeenAt
  }

  /** What a suppression with this note by this actor makes of a row. */
  predicate IsSuppression(f: Finding, f': Finding, note: string, actor: string) {
    && f'.status == SUPPRESSED && f'.suppressionNote == Some(note) && f'.suppressedByRef == Some(actor)
    && f'.resolvedAt == None && SameSighting(f, f')
  }

  /** What a reopening makes of a row. */
  predicate IsReopening(f: Finding, f': Finding) {
    && f'.status == OPEN && f'.resolvedAt == None && f'.suppressionNote == None && f'.suppressedByRef == None
    && SameSighting(f, f')
  }

  function ClosingNotices(listed: map<FindingId, Finding>, ids: set<FindingId>): set<Notice> {
    set id | id in ids && id in listed :: Notice(id, listed[id].severity, Resolved)
  }

  /** Half way through the loop of `resolveAbsentFindings`: the rows `done` are closed and announced. */
  ghost predicate ClosedSoFar(
    t: Table, t': Table, told: seq<Notice>, told': seq<Notice>, listed: map<FindingId, Finding>, done: set<FindingId>)
  {
    && done <= listed.Keys <= t.Keys
    && (forall id :: id in listed ==> t[id] == listed[id] && listed[id].status == OPEN)
    && Closed(t, t', done)
    && multiset(told') == multiset(told) + multiset(ClosingNotices(listed, done))
  }

  lemma ClosedOneMore(
    t: Table, t': Table, told: seq<Notice>, told': seq<Notice>, listed: map<FindingId, Finding>, done: set<FindingId>,
    id: FindingId, now: nat)
    requires ClosedSoFar(t, t', told, told', listed, done) && id in listed && id !in done
    ensures Closable(t', id, listed[id])
    ensures var notice := Notice(id, listed[id].severity, Resolved);
            ClosedSoFar(t, t'[id := Resolve(t'[id], now)], told, told' + [notice], listed, done + {id})
  {
    assert t'[id] == t[id];
    OneNoticeMore(listed, done, id);
  }

  lemma OneNoticeMore(listed: map<FindingId, Finding>, ids: set<FindingId>, id: FindingId)
    requires id in listed && id !in ids
    ensures var notice := Notice(id, listed[id].severity, Resolved);
            multiset(ClosingNotices(listed, ids + {id})) == multiset(ClosingNotices(listed, ids)) + multiset{notice}
  {
    var notice := Notice(id, listed[id].severity, Resolved);
    assert ClosingNotices(listed, ids + {id}) == ClosingNotices(listed, ids) + {notice};
    assert notice !in ClosingNotices(listed, ids);
  }

  function ClaimsOf(ss: seq<Sighting>): (claims: seq<J.Candidate>)
    ensures |claims| == |ss| && forall i :: 0 <= i < |ss| ==> claims[i] == ss[i].claim
  {
    seq(|ss|, i requires 0 <= i < |ss| => ss[i].claim)
  }

  /** The candidates are consistent with the run's criteria, or there are none to check. */
  predicate Admissible(pass: Pass, ss: seq<Sighting>, evidenceIds: Option<set<string>>) {
    J.FindingsOk(pass.kinds, ClaimsOf(ss), evidenceIds)
  }

  /** A recording returns one row per candidate: the row of its finding as that candidate left it. */
  lemma {:induction false} RowsReturned(t: Table, pass: Pass, ss: seq<Sighting>, k: nat)
    requires k < |ss|
    ensures |RowsOfAll(t, pass, ss)| == |ss|
    ensures IdOf(pass, ss[k]) in ObserveAll(t, pass, ss[..k + 1])
    ensures RowsOfAll(t, pass, ss)[k] == ObserveAll(t, pass, ss[..k + 1])[IdOf(pass, ss[k])]
  {
    var n := |ss| - 1;
    RowsReturnedSize(t, pass, ss[..n]);
    if k < n {
      RowsReturned(t, pass, ss[..n], k);
      assert ss[..n][..k + 1] == ss[..k + 1];
    } else {
      assert ss[..k + 1] == ss;
    }
  }

  lemma {:induction false} RowsReturnedSize(t: Table, pass: Pass, ss: seq<Sighting>)
    ensures |RowsOfAll(t, pass, ss)| == |ss|
  {
    if ss != [] {
      RowsReturnedSize(t, pass, ss[..|ss| - 1]);
    }
  }

  // ---- What a recording does to each row ----

  predicate Sees(pass: Pass, ss: seq<Sighting>, id: FindingId) {
    exists i :: 0 <= i < |ss| && IdOf(pass, ss[i]) == id
  }

  /** A pass sees a finding exactly if one of its candidates has the fingerprint, in its own subject and evaluationKey. */
  lemma SeesMeans(pass: Pass, ss: seq<Sighting>, id: FindingId)
    ensures Sees(pass, ss, id) <==>
              && id.subject == pass.subject && id.evaluationKey == pass.evaluationKey
              && exists i :: 0 <= i < |ss| && ss[i].claim.fingerprint == id.fingerprint
  {
    if exists i :: 0 <= i < |ss| && ss[i].claim.fingerprint == id.fingerprint {
      var i :| 0 <= i < |ss| && ss[i].claim.fingerprint == id.fingerprint;
      assert IdOf(pass, ss[i]).fingerprint == id.fingerprint;
    }
  }

  predicate Suppresses(t: Table, id: FindingId) {
    id in t && t[id].status == SUPPRESSED
  }

  predicate SameSuppression(f: Finding, f': Finding) {
    f'.suppressionNote == f.suppressionNote && f'.suppressedByRef == f.suppressedByRef
  }

  /** The latest sighting of a finding within a recording decides its content. */
  predicate LastSightingOf(pass: Pass, ss: seq<Sighting>, id: FindingId, i: nat) {
    i < |ss| && IdOf(pass, ss[i]) == id && forall j :: i < j < |ss| ==> IdOf(pass, ss[j]) != id
  }

  predicate Reports(f: Finding, s: Sighting) {
    f.criterionKey == s.claim.criterionKey && f.severity == s.claim.severity && f.title == s.title
  }

  /** The latest sighting of a finding that carries a detail. */
  predicate LastDetailOf(pass: Pass, ss: seq<Sighting>, id: FindingId, i: nat) {
    && i < |ss| && IdOf(pass, ss[i]) == id && ss[i].detail.Some?
    && forall j :: i < j < |ss| && IdOf(pass, ss[j]) == id ==> ss[j].detail.None?
  }

  predicate LastMetadataOf(pass: Pass, ss: seq<Sighting>, id: FindingId, i: nat) {
    && i < |ss| && IdOf(pass, ss[i]) == id && ss[i].metadata.Some?
    && forall j :: i < j < |ss| && IdOf(pass, ss[j]) == id ==> ss[j].metadata.None?
  }

  /** The detail of a row that had `before`: that of the latest sighting that carries one, else as it was. */
  ghost predicate DetailOf(pass: Pass, ss: seq<Sighting>, id: FindingId, before: Option<string>, detail: Option<string>) {
    && (forall i: nat :: LastDetailOf(pass, ss, id, i) ==> detail == ss[i].detail)
    && ((forall i: nat :: !LastDetailOf(pass, ss, id, i)) ==> detail == before)
  }

  ghost predicate MetadataOf(pass: Pass, ss: seq<Sighting>, id: FindingId, before: Option<string>, metadata: Option<string>) {
    && (forall i: nat :: LastMetadataOf(pass, ss, id, i) ==> metadata == ss[i].metadata)
    && ((forall i: nat :: !LastMetadataOf(pass, ss, id, i)) ==> metadata == before)
  }

  /** The optional texts a recording leaves in a row that it found, or did not find, in `t`. */
  ghost predicate TextsOf(t: Table, pass: Pass, ss: seq<Sighting>, id: FindingId, f: Finding) {
    && DetailOf(pass, ss, id, if id in t then t[id].detail else None, f.detail)
    && MetadataOf(pass, ss, id, if id in t then t[id].metadata else None, f.metadata)
  }

  lemma LastDetailOneMore(pass: Pass, before: seq<Sighting>, s: Sighting, id: FindingId, i: nat)
    ensures LastDetailOf(pass, before + [s], id, i) <==>
              if IdOf(pass, s) == id && s.detail.Some? then i == |before| else LastDetailOf(pass, before, id, i)
  {
    var ss := before + [s];
    if i < |before| {
      assert ss[i] == before[i] && ss[|before|] == s;
      if LastDetailOf(pass, before, id, i) && !(IdOf(pass, s) == id && s.detail.Some?) {
        forall j | i < j < |ss| && IdOf(pass, ss[j]) == id ensures ss[j].detail.None? {
          assert j < |before| ==> ss[j] == before[j];
        }
      }
      if LastDetailOf(pass, ss, id, i) {
        forall j | i < j < |before| && IdOf(pass, before[j]) == id ensures before[j].detail.None? {
          assert ss[j] == before[j];
        }
      }
    }
  }

  lemma LastMetadataOneMore(pass: Pass, before: seq<Sighting>, s: Sighting, id: FindingId, i: nat)
    ensures LastMetadataOf(pass, before + [s], id, i) <==>
              if IdOf(pass, s) == id && s.metadata.Some? then i == |before| else LastMetadataOf(pass, before, id, i)
  {
    var ss := before + [s];
    if i < |before| {
      assert ss[i] == before[i] && ss[|before|] == s;
      if LastMetadataOf(pass, before, id, i) && !(IdOf(pass, s) == id && s.metadata.Some?) {
        forall j | i < j < |ss| && IdOf(pass, ss[j]) == id ensures ss[j].metadata.None? {
          assert j < |before| ==> ss[j] == before[j];
        }
      }
      if LastMetadataOf(pass, ss, id, i) {
        forall j | i < j < |before| && IdOf(pass, before[j]) == id ensures before[j].metadata.None? {
          assert ss[j] == before[j];
        }
      }
    }
  }

  lemma DetailOneMore(pass: Pass, ss: seq<Sighting>, s: Sighting, id: FindingId, before: Option<string>, detail: Option<string>)
    requires DetailOf(pass, ss, id, before, detail)
    ensures DetailOf(pass, ss + [s], id, before, if IdOf(pass, s) == id && s.detail.Some? then s.detail else detail)
  {
    forall i: nat
      ensures LastDetailOf(pass, ss + [s], id, i) <==>
                if IdOf(pass, s) == id && s.detail.Some? then i == |ss| else LastDetailOf(pass, ss, id, i)
    {
      LastDetailOneMore(pass, ss, s, id, i);
    }
    if IdOf(pass, s) == id && s.detail.Some? {
      assert LastDetailOf(pass, ss + [s], id, |ss|);
    }
  }

  lemma MetadataOneMore(pass: Pass, ss: seq<Sighting>, s: Sighting, id: FindingId, before: Option<string>, metadata: Option<string>)
    requires MetadataOf(pass, ss, id, before, metadata)
    ensures MetadataOf(pass, ss + [s], id, before, if IdOf(pass, s) == id && s.metadata.Some? then s.metadata else metadata)
  {
    forall i: nat
      ensures LastMetadataOf(pass, ss + [s], id, i) <==>
                if IdOf(pass, s) == id && s.metadata.Some? then i == |ss| else LastMetadataOf(pass, ss, id, i)
    {
      LastMetadataOneMore(pass, ss, s, id, i);
    }
    if IdOf(pass, s) == id && s.metadata.Some? {
      assert LastMetadataOf(pass, ss + [s], id, |ss|);
    }
  }

  /** The texts of a row as it is, or those of a row that is not there. */
  function Texts(t: Table, id: FindingId): (Option<string>, Option<string>) {
    if id in t then (t[id].detail, t[id].metadata) else (None, None)
  }

  lemma TextsAfterOne(t: Table, pass: Pass, s: Sighting, id: FindingId)
    ensures var (detail, metadata) := Texts(t, id);
            Texts(ObserveOne(t, pass, s), id)
            == (if IdOf(pass, s) == id && s.detail.Some? then s.detail else detail,
                if IdOf(pass, s) == id && s.metadata.Some? then s.metadata else metadata)
  {
  }

  /** The optional texts after any list of candidates. */
  lemma {:induction false} ObservedTexts(t: Table, pass: Pass, ss: seq<Sighting>, id: FindingId)
    ensures DetailOf(pass, ss, id, Texts(t, id).0, Texts(ObserveAll(t, pass, ss), id).0)
    ensures MetadataOf(pass, ss, id, Texts(t, id).1, Texts(ObserveAll(t, pass, ss), id).1)
  {
    if ss != [] {
      var before, s := ss[..|ss| - 1], ss[|ss| - 1];
      var texts := Texts(ObserveAll(t, pass, before), id);
      ObservedTexts(t, pass, before, id);
      TextsAfterOne(ObserveAll(t, pass, before), pass, s, id);
      DetailOneMore(pass, before, s, id, Texts(t, id).0, texts.0);
      MetadataOneMore(pass, before, s, id, Texts(t, id).1, texts.1);
      assert ss == before + [s];
    }
  }

  lemma {:induction false} ObservedStatus(t: Table, pass: Pass, ss: seq<Sighting>, id: FindingId)
    ensures var t' := ObserveAll(t, pass, ss);
            && (id in t' <==> id in t || Sees(pass, ss, id))
            && (id in t && !Sees(pass, ss, id) ==> t'[id] == t[id])
            && (Sees(pass, ss, id) ==>
                  && t'[id].status == (if Suppresses(t, id) then SUPPRESSED else OPEN)
                  && t'[id].lastSeenRun == pass.run && t'[id].lastSeenAt == pass.observedAt
                  && t'[id].firstSeenRun == (if id in t then t[id].firstSeenRun else pass.run)
                  && t'[id].firstSeenAt == (if id in t then t[id].firstSeenAt else pass.observedAt)
                  && (Suppresses(t, id) ==> SameSuppression(t[id], t'[id])))
            && (forall i: nat :: LastSightingOf(pass, ss, id, i) ==> Reports(t'[id], ss[i]))
  {
    if ss != [] {
      var n := |ss| - 1;
      var before := ss[..n];
      ObservedStatus(t, pass, before, id);
      assert Sees(pass, ss, id) <==> Sees(pass, before, id) || IdOf(pass, ss[n]) == id;
      forall i: nat | LastSightingOf(pass, ss, id, i) ensures Reports(ObserveAll(t, pass, ss)[id], ss[i]) {
        if i < n {
          assert IdOf(pass, ss[n]) != id;
          assert LastSightingOf(pass, before, id, i);
        }
      }
    }
  }

  /**
   Observing any list of candidates, repeats included: a row is touched exactly when
   its fingerprint is among them; it then stays suppressed if it was, and is open
   otherwise; who saw it first and when never changes; the last
   candidate wins, and for the optional texts the last one that carries them.
   */
  lemma ObservedRow(t: Table, pass: Pass, ss: seq<Sighting>, id: FindingId)
    ensures var t' := ObserveAll(t, pass, ss);
            && (id in t' <==> id in t || Sees(pass, ss, id))
            && (id in t && !Sees(pass, ss, id) ==> t'[id] == t[id])
            && (Sees(pass, ss, id) ==>
                  && t'[id].status == (if Suppresses(t, id) then SUPPRESSED else OPEN)
                  && t'[id].lastSeenRun == pass.run && t'[id].lastSeenAt == pass.observedAt
                  && t'[id].firstSeenRun == (if id in t then t[id].firstSeenRun else pass.run)
                  && t'[id].firstSeenAt == (if id in t then t[id].firstSeenAt else pass.observedAt)
                  && (Suppresses(t, id) ==> SameSuppression(t[id], t'[id]))
                  && TextsOf(t, pass, ss, id, t'[id]))
            && (forall i: nat :: LastSightingOf(pass, ss, id, i) ==> Reports(t'[id], ss[i]))
  {
    ObservedStatus(t, pass, ss, id);
    ObservedTexts(t, pass, ss, id);
  }

  /** The open findings of one subject and evaluationKey. */
  function OpenIn(t: Table, pass: Pass): set<FindingId> {
    set id | id in t && InScope(pass, id) && t[id].status == OPEN
  }

  /** What a pass observed and nobody suppressed. */
  function Standing(t: Table, pass: Pass, ss: seq<Sighting>): set<FindingId> {
    set i | 0 <= i < |ss| && !Suppresses(t, IdOf(pass, ss[i])) :: IdOf(pass, ss[i])
  }

  /** An open row the pass did not observe, which the listing would nevertheless skip. */
  predicate Escapes(t: Table, pass: Pass, ss: seq<Sighting>, id: FindingId) {
    && id in t && InScope(pass, id) && t[id].status == OPEN && !Sees(pass, ss, id)
    && (t[id].lastSeenAt >= pass.observedAt || t[id].lastSeenRun == pass.run)
  }

  /**
   Recording then resolving leaves open exactly what was observed and not
   suppressed, if and only if no unobserved open row was last seen at or after the
   start of this run (or by this run): the listing's own guard.
   */
  lemma OpenSetIsTheObservedSetIff(t: Table, pass: Pass, ss: seq<Sighting>, t': Table)
    requires Closed(ObserveAll(t, pass, ss), t', Absent(ObserveAll(t, pass, ss), pass).Keys)
    ensures OpenIn(t', pass) == Standing(t, pass, ss) <==> forall id :: !Escapes(t, pass, ss, id)
  {
    var mid := ObserveAll(t, pass, ss);
    forall id ensures id in OpenIn(t', pass) <==> id in Standing(t, pass, ss) || Escapes(t, pass, ss, id) {
      ObservedRow(t, pass, ss, id);
      SeenIsInScope(pass, ss, id);
      assert id in Standing(t, pass, ss) <==> Sees(pass, ss, id) && !Suppresses(t, id);
      if id in mid {
        assert t'[id].status == (if IsAbsent(mid, pass, id) then RESOLVED else mid[id].status);
      }
    }
    forall id | Escapes(t, pass, ss, id) ensures id !in Standing(t, pass, ss) {
    }
  }

  lemma SeenIsInScope(pass: Pass, ss: seq<Sighting>, id: FindingId)
    ensures Sees(pass, ss, id) ==> InScope(pass, id)
  {
  }

  /**
   What recording then resolving does to a single row, whatever the state it finds:
   the whole new status, and everything that stays.
   */
  lemma PassOnRow(t: Table, pass: Pass, ss: seq<Sighting>, t': Table, id: FindingId)
    requires Closed(ObserveAll(t, pass, ss), t', Absent(ObserveAll(t, pass, ss), pass).Keys)
    ensures id in t ==> id in t' && t'[id].firstSeenAt == t[id].firstSeenAt && t'[id].firstSeenRun == t[id].firstSeenRun
    ensures id in t && !InScope(pass, id) ==> t'[id] == t[id]
    ensures Suppresses(t, id) ==> Suppresses(t', id) && SameSuppression(t[id], t'[id])
    ensures Sees(pass, ss, id) ==> id in t' && t'[id].status == (if Suppresses(t, id) then SUPPRESSED else OPEN)
    ensures !Sees(pass, ss, id) && id in t ==>
              if IsAbsent(t, pass, id) then IsClosing(t[id], t'[id]) else t'[id] == t[id]
    ensures id in t' ==> id in t || Sees(pass, ss, id)
  {
    ObservedRow(t, pass, ss, id);
    SeenIsInScope(pass, ss, id);
  }
}
