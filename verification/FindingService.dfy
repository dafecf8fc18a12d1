/**
 EvaluationFindingService as an object over its table, one caller at a time. What
 concurrent callers can do to each other is the subject of FindingProtocol.
 */
module FindingService {
  import opened Common
  import opened FindingTable
  import J = Judgment

  datatype Refusal = BadRequest | NotFound

  class EvaluationFindingService {
    var rows: Table
    var now: nat
    /** Every call of the observer, oldest first. */
    var notices: seq<Notice>

    constructor ()
      ensures rows == map[] && notices == []
    {
      rows, now, notices := map[], 0, [];
    }

    /**
     Refused without a write exactly when the candidates contradict the criteria;
     otherwise every candidate is observed in order and its row returned.
     */
    method RecordFindings(pass: Pass, criteria: seq<J.Criterion>, candidates: seq<Sighting>, evidenceIds: Option<set<string>>)
      returns (r: Result<seq<Finding>, seq<J.Problem>>)
      requires pass.kinds == J.KindsOf(criteria)
      modifies this`rows, this`notices
      ensures r.Ok? <==> Admissible(pass, candidates, evidenceIds)
      ensures rows == if r.Ok? then ObserveAll(old(rows), pass, candidates) else old(rows)
      ensures notices == old(notices) + if r.Ok? then NoticesOfAll(old(rows), pass, candidates) else []
      ensures r.Ok? ==> r.value == RowsOfAll(old(rows), pass, candidates)
    {
      if candidates == [] {
        return Ok([]);
      }
      var problems := J.ValidateJudgment(criteria, [], ClaimsOf(candidates), evidenceIds);
      if problems != [] {
        return Err(problems);
      }
      var recorded := ObserveEach(pass, candidates);
      r := Ok(recorded);
    }

    method ObserveEach(pass: Pass, candidates: seq<Sighting>) returns (recorded: seq<Finding>)
      modifies this`rows, this`notices
      ensures rows == ObserveAll(old(rows), pass, candidates)
      ensures notices == old(notices) + NoticesOfAll(old(rows), pass, candidates)
      ensures recorded == RowsOfAll(old(rows), pass, candidates)
    {
      recorded := [];
      for i := 0 to |candidates|
        invariant rows == ObserveAll(old(rows), pass, candidates[..i])
        invariant notices == old(notices) + NoticesOfAll(old(rows), pass, candidates[..i])
        invariant recorded == RowsOfAll(old(rows), pass, candidates[..i])
      {
        assert candidates[..i + 1][..i] == candidates[..i];
        var row := Observe(pass, candidates[i]);
        recorded := recorded + [row];
      }
      assert candidates[..|candidates|] == candidates;
    }

    /** Creates the finding, or refreshes it and reopens it if it was resolved. */
    method Observe(pass: Pass, candidate: Sighting) returns (row: Finding)
      modifies this`rows, this`notices
      ensures rows == ObserveOne(old(rows), pass, candidate)
      ensures row == rows[IdOf(pass, candidate)]
      ensures notices == old(notices) +
                if IdOf(pass, candidate) !in old(rows) then [Notice(IdOf(pass, candidate), row.severity, Created)]
                else if old(rows)[IdOf(pass, candidate)].status != row.status then [Notice(IdOf(pass, candidate), row.severity, Reopened)]
                else []
      ensures notices == old(notices) + NoticesOf(old(rows), pass, candidate)
    {
      var id := IdOf(pass, candidate);
      if id !in rows {
        row := NewRow(pass, candidate);
        rows := rows[id := row];
        notices := notices + [Notice(id, row.severity, Created)];
      } else {
        var reopened := rows[id].status == RESOLVED;
        rows := rows[id := Updated(rows[id], rows[id].status, pass, candidate)];
        row := rows[id];
        if reopened {
          notices := notices + [Notice(id, row.severity, Reopened)];
        }
      }
    }

    /**
     Closes exactly the open findings of the run's evaluationKey that it did not
     observe, announces each of them once, and counts them.
     */
    method ResolveAbsentFindings(pass: Pass) returns (count: nat)
      modifies this`rows, this`notices
      ensures Closed(old(rows), rows, Absent(old(rows), pass).Keys)
      ensures count == |Absent(old(rows), pass)|
      ensures multiset(notices) == multiset(old(notices)) +
                multiset(ClosingNotices(Absent(old(rows), pass), Absent(old(rows), pass).Keys))
    {
      var absent := Absent(rows, pass);
      count := CloseEach(absent);
    }

    /** The loop over the listed rows: one compare-and-set each. */
    method CloseEach(listed: map<FindingId, Finding>) returns (count: nat)
      requires forall id :: id in listed ==> id in rows && rows[id] == listed[id] && listed[id].status == OPEN
      modifies this`rows, this`notices
      ensures Closed(old(rows), rows, listed.Keys)
      ensures count == |listed|
      ensures multiset(notices) == multiset(old(notices)) + multiset(ClosingNotices(listed, listed.Keys))
    {
      var rest := listed.Keys;
      count := 0;
      while rest != {}
        invariant rest <= listed.Keys
        invariant count + |rest| == |listed|
        invariant ClosedSoFar(old(rows), rows, old(notices), notices, listed, listed.Keys - rest)
        decreases |rest|
      {
        var id :| id in rest;
        ClosedOneMore(old(rows), rows, old(notices), notices, listed, listed.Keys - rest, id, now);
        assert listed.Keys - (rest - {id}) == listed.Keys - rest + {id};
        if Closable(rows, id, listed[id]) {
          rows := rows[id := Resolve(rows[id], now)];
          notices := notices + [Notice(id, listed[id].severity, Resolved)];
          count := count + 1;
        }
        rest := rest - {id};
      }
      assert listed.Keys - rest == listed.Keys;
    }

    /** A note and an actor are mandatory; a missing finding is an error; nothing else is. */
    method SuppressFinding(id: FindingId, note: string, suppressedByRef: string) returns (r: Result<Finding, Refusal>)
      modifies this`rows, this`notices
      ensures r == Err(BadRequest) <==> IsBlank(note) || IsBlank(suppressedByRef)
      ensures r == Err(NotFound) <==> !IsBlank(note) && !IsBlank(suppressedByRef) && id !in old(rows)
      ensures r.Ok? ==> rows == old(rows)[id := r.value] && IsSuppression(old(rows)[id], r.value, note, suppressedByRef)
      ensures r.Ok? ==> notices == old(notices) + [Notice(id, r.value.severity, Suppressed)]
      ensures r.Err? ==> rows == old(rows) && notices == old(notices)
    {
      if IsBlank(note) || IsBlank(suppressedByRef) {
        return Err(BadRequest);
      }
      if id !in rows {
        return Err(NotFound);
      }
      rows := rows[id := Suppress(rows[id], note, suppressedByRef)];
      notices := notices + [Notice(id, rows[id].severity, Suppressed)];
      r := Ok(rows[id]);
    }

    method ReopenFinding(id: FindingId) returns (r: Result<Finding, Refusal>)
      modifies this`rows, this`notices
      ensures r.Ok? <==> id in old(rows)
      ensures r.Ok? ==> rows == old(rows)[id := r.value] && IsReopening(old(rows)[id], r.value)
      ensures r.Ok? ==> notices == old(notices) + [Notice(id, r.value.severity, Reopened)]
      ensures r.Err? ==> r.error == NotFound && rows == old(rows) && notices == old(notices)
    {
      if id !in rows {
        return Err(NotFound);
      }
      rows := rows[id := Reopen(rows[id])];
      notices := notices + [Notice(id, rows[id].severity, Reopened)];
      r := Ok(rows[id]);
    }

    /**
     One whole pass on a quiet table: the open set afterwards is what the pass
     observed minus what is suppressed, unless a row escapes the listing.
     */
    method RecordAndResolve(pass: Pass, criteria: seq<J.Criterion>, candidates: seq<Sighting>, evidenceIds: Option<set<string>>)
      returns (r: Result<nat, seq<J.Problem>>)
      requires pass.kinds == J.KindsOf(criteria)
      modifies this`rows, this`notices
      ensures r.Ok? <==> Admissible(pass, candidates, evidenceIds)
      ensures r.Ok? ==>
                (OpenIn(rows, pass) == Standing(old(rows), pass, candidates)
                 <==> forall id :: !Escapes(old(rows), pass, candidates, id))
      ensures r.Ok? ==> r.value == |Absent(ObserveAll(old(rows), pass, candidates), pass)|
      ensures r.Err? ==> rows == old(rows)
    {
      var recorded := RecordFindings(pass, criteria, candidates, evidenceIds);
      if recorded.Err? {
        return Err(recorded.error);
      }
      var count := ResolveAbsentFindings(pass);
      OpenSetIsTheObservedSetIff(old(rows), pass, candidates, rows);
      r := Ok(count);
    }
  }
}
