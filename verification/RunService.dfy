/**
 EvaluationRunService as an object over its table, one caller at a time. What
 concurrent callers can do to each other is the subject of RunProtocol.
 */
module RunService {
  import opened Common
  import opened RunTable
  import C = Criteria

  datatype RunError =
    | NotFound
    | Conflict(status: Option<Status>)
    | Restarted
    | NotApplicable
    | Draft
    | WrongKind

  type Versions = map<C.Id, C.Version>

  /** The feature's choice of a version, by name. */
  datatype Selection = Selection(evaluationKey: string, version: string)

  /** The version that resolving a choice finds: published, of the subject's kind and of the chosen name. */
  predicate Resolves(versions: Versions, kind: string, selection: Selection, version: C.Id) {
    && version in versions && versions[version].publishedAt.Some?
    && versions[version].kind == kind && versions[version].evaluationKey == selection.evaluationKey
    && versions[version].version == selection.version
  }

  /** What a request may run against. */
  predicate Admissible(versions: Versions, kind: string, version: C.Id) {
    version in versions && versions[version].publishedAt.Some? && versions[version].kind == kind
  }

  /** The version of a request: the one it gives, or else the one its feature's choice resolves to. */
  predicate Requested(versions: Versions, kind: string, given: Option<C.Id>, selection: Option<Selection>, version: C.Id) {
    if given.Some? then given.value == version else selection.Some? && Resolves(versions, kind, selection.value, version)
  }

  class EvaluationRunService {
    var rows: Table
    var now: nat
    /** The kind of each subject, and the criteria versions; other services write them. */
    var subjects: map<Id, string>
    var versions: Versions
    const staleRunTimeoutMs: nat

    constructor (staleRunTimeoutMs: nat)
      ensures rows == map[] && this.staleRunTimeoutMs == staleRunTimeoutMs
    {
      rows, now, subjects, versions := map[], 0, map[], map[];
      this.staleRunTimeoutMs := staleRunTimeoutMs;
    }

    /**
     Opens a run for the requested version. It is refused exactly when there is no such subject
     or version, the version is a draft or of another kind, or the pair has an active run.
     */
    method StartRun(id: Id, subject: Id, given: Option<C.Id>, selection: Option<Selection>) returns (r: Result<Id, RunError>)
      requires id !in rows && C.UniqueNames(versions)
      modifies this`rows
      ensures r.Ok? <==> subject in subjects && exists v ::
                Requested(versions, subjects[subject], given, selection, v) && Admissible(versions, subjects[subject], v)
                && !Occupied(old(rows), subject, v)
      ensures r.Ok? ==> r.value == id && id in rows && Requested(versions, subjects[subject], given, selection, rows[id].version)
                        && rows == old(rows)[id := Run(subject, rows[id].version, Queued, None, None, None, now, now)]
      ensures r.Err? ==> rows == old(rows)
      ensures r == Err(NotFound) <==>
                || subject !in subjects
                || (given.Some? && given.value !in versions)
                || (given.None? && selection.Some? && !exists v :: Resolves(versions, subjects[subject], selection.value, v))
      ensures r == Err(NotApplicable) <==> subject in subjects && given.None? && selection.None?
      ensures r == Err(Draft) <==>
                subject in subjects && given.Some? && given.value in versions && versions[given.value].publishedAt.None?
      ensures r == Err(WrongKind) <==>
                && subject in subjects && given.Some? && given.value in versions && versions[given.value].publishedAt.Some?
                && versions[given.value].kind != subjects[subject]
      ensures OneActive(old(rows)) ==> OneActive(rows)
    {
      if subject !in subjects {
        return Err(NotFound);
      }
      var version;
      if given.Some? {
        version := given.value;
      } else {
        var resolved := ResolveVersionId(subjects[subject], selection);
        if resolved.Err? {
          return Err(resolved.error);
        }
        version := resolved.value;
      }
      if version !in versions {
        return Err(NotFound);
      }
      if versions[version].publishedAt.None? {
        return Err(Draft);
      }
      if versions[version].kind != subjects[subject] {
        return Err(WrongKind);
      }
      r := Insert(id, subject, version);
    }

    method ResolveVersionId(kind: string, selection: Option<Selection>) returns (r: Result<C.Id, RunError>)
      ensures r.Ok? ==> selection.Some? && Resolves(versions, kind, selection.value, r.value)
      ensures r.Err? ==> r.error == NotApplicable || r.error == NotFound
      ensures r == Err(NotApplicable) <==> selection.None?
      ensures r == Err(NotFound) <==> selection.Some? && !exists v :: Resolves(versions, kind, selection.value, v)
    {
      if selection.None? {
        return Err(NotApplicable);
      }
      if v :| v in versions && Resolves(versions, kind, selection.value, v) {
        return Ok(v);
      }
      r := Err(NotFound);
    }

    /** The insert of `startRun`: refused exactly when the pair already has an active run. */
    method Insert(id: Id, subject: Id, version: Id) returns (r: Result<Id, RunError>)
      requires id !in rows
      modifies this`rows
      ensures r == if Occupied(old(rows), subject, version) then Err(Conflict(None)) else Ok(id)
      ensures rows == if r.Ok? then old(rows)[id := Run(subject, version, Queued, None, None, None, now, now)] else old(rows)
      ensures OneActive(old(rows)) ==> OneActive(rows)
      ensures r.Ok? ==> IsActive(rows, id)
    {
      if Occupied(rows, subject, version) {
        return Err(Conflict(None));
      }
      rows := Inserted(rows, id, subject, version, now);
      r := Ok(id);
    }

    /**
     Starts the clock of a queued run: from now on the fence admits the execution that started
     now and no other, and a sweep that selected the row before misses it. Any other row, and a
     row that is not queued, is left as it is.
     */
    method MarkRunning(id: Id)
      modifies this`rows
      ensures rows.Keys == old(rows).Keys
      ensures forall other :: other in rows && (other != id || old(rows)[id].status != Queued) ==> rows[other] == old(rows)[other]
      ensures id in rows && old(rows)[id].status == Queued ==>
                && rows[id].status == Running
                && (forall startedAt :: Fenced(rows, id, startedAt) <==> startedAt == Some(now))
                && (forall seen :: Reapable(rows, id, seen) <==> seen == now)
                && SameRequest(rows[id], old(rows)[id]) && SameOutcome(rows[id], old(rows)[id])
      ensures OneActive(old(rows)) ==> OneActive(rows)
    {
      if id in rows && rows[id].status == Queued {
        rows := rows[id := rows[id].(status := Running, startedAt := Some(now), updatedAt := now)];
      }
    }

    /**
     A heartbeat takes an active row out of reach of every sweep whose cutoff is not later than
     now, also of one that selected it before; status, fence and outcome are as they were.
     */
    method Touch(id: Id)
      modifies this`rows
      ensures rows.Keys == old(rows).Keys
      ensures forall other :: other in rows && (other != id || !IsActive(old(rows), id)) ==> rows[other] == old(rows)[other]
      ensures IsActive(old(rows), id) ==>
                && (forall cutoff :: cutoff <= now ==> id !in Stale(rows, cutoff))
                && (forall seen :: Reapable(rows, id, seen) <==> seen == now)
      ensures forall startedAt :: Fenced(rows, id, startedAt) <==> Fenced(old(rows), id, startedAt)
      ensures id in rows ==> SameRequest(rows[id], old(rows)[id]) && SameOutcome(rows[id], old(rows)[id])
                             && rows[id].status == old(rows)[id].status && rows[id].startedAt == old(rows)[id].startedAt
      ensures OneActive(old(rows)) ==> OneActive(rows)
    {
      if id in rows && Active(rows[id]) {
        rows := rows[id := rows[id].(updatedAt := now)];
      }
    }

    method MarkSucceeded(id: Id) returns (r: Result<(), RunError>)
      modifies this`rows
      ensures r == if IsActive(old(rows), id) then Ok(())
                   else if id in old(rows) then Err(Conflict(Some(old(rows)[id].status))) else Err(NotFound)
      ensures r.Err? ==> rows == old(rows)
      ensures r.Ok? ==> id in rows && rows == old(rows)[id := rows[id]] && rows[id].status == Succeeded && rows[id].finishedAt == Some(now)
                        && rows[id].updatedAt == now && rows[id].error == old(rows)[id].error
                        && rows[id].startedAt == old(rows)[id].startedAt && SameRequest(rows[id], old(rows)[id])
      ensures rows == Succeed(old(rows), id, now)
    {
      if id in rows && Active(rows[id]) {
        rows := rows[id := rows[id].(status := Succeeded, finishedAt := Some(now), updatedAt := now)];
        return Ok(());
      }
      r := StillActiveError(id);
    }

    method MarkFailed(id: Id, error: string) returns (r: Result<(), RunError>)
      modifies this`rows
      ensures r == if IsActive(old(rows), id) then Ok(())
                   else if id in old(rows) then Err(Conflict(Some(old(rows)[id].status))) else Err(NotFound)
      ensures r.Err? ==> rows == old(rows)
      ensures r.Ok? ==> id in rows && rows == old(rows)[id := rows[id]] && rows[id].status == Failed && rows[id].finishedAt == Some(now)
                        && rows[id].updatedAt == now && rows[id].error == Some(FormatRunError(error))
                        && rows[id].startedAt == old(rows)[id].startedAt && SameRequest(rows[id], old(rows)[id])
      ensures rows == Fail(old(rows), id, FormatRunError(error), now)
    {
      if id in rows && Active(rows[id]) {
        var text := FormatRunError(error);
        rows := rows[id := rows[id].(status := Failed, error := Some(text), finishedAt := Some(now), updatedAt := now)];
        return Ok(());
      }
      r := StillActiveError(id);
    }

    method StillActiveError(id: Id) returns (r: Result<(), RunError>)
      ensures r == if id in rows then Err(Conflict(Some(rows[id].status))) else Err(NotFound)
    {
      r := if id in rows then Err(Conflict(Some(rows[id].status))) else Err(NotFound);
    }

    method AssertActive(id: Id, startedAt: Option<nat>) returns (r: Result<(), RunError>)
      ensures r.Ok? <==> Fenced(rows, id, startedAt)
      ensures r == Err(NotFound) <==> id !in rows
      ensures r == Err(Restarted) <==> IsActive(rows, id) && rows[id].startedAt != startedAt
    {
      if id !in rows {
        return Err(NotFound);
      }
      if !Active(rows[id]) {
        return Err(Conflict(Some(rows[id].status)));
      }
      if rows[id].startedAt != startedAt {
        return Err(Restarted);
      }
      r := Ok(());
    }

    /**
     One undisturbed sweep: closes exactly the stale active rows with the shared
     error text, reports each of them once, and touches nothing else.
     */
    method ReapStaleRuns() returns (reaped: seq<Id>)
      modifies this`rows
      ensures forall id :: id in reaped <==> id in Stale(old(rows), now - staleRunTimeoutMs)
      ensures forall i, j :: 0 <= i < j < |reaped| ==> reaped[i] != reaped[j]
      ensures rows == Swept(old(rows), Stale(old(rows), now - staleRunTimeoutMs).Keys, now)
      ensures forall id :: IsActive(rows, id) ==> rows[id].updatedAt >= now - staleRunTimeoutMs
    {
      var candidates := Stale(rows, now - staleRunTimeoutMs);
      SweepLeavesFreshOnly(rows, now - staleRunTimeoutMs, now);
      reaped := CloseEach(candidates);
    }

    /** The loop of the sweep: one conditional write per selected row. */
    method CloseEach(candidates: map<Id, nat>) returns (reaped: seq<Id>)
      requires Selected(rows, candidates)
      modifies this`rows
      ensures forall id :: id in reaped <==> id in candidates
      ensures forall i, j :: 0 <= i < j < |reaped| ==> reaped[i] != reaped[j]
      ensures rows == Swept(old(rows), candidates.Keys, now)
    {
      reaped := [];
      var rest := candidates.Keys;
      assert rows == Swept(rows, {}, now);
      while rest != {}
        invariant rest <= candidates.Keys
        invariant forall id :: id in reaped <==> id in candidates.Keys && id !in rest
        invariant forall i, j :: 0 <= i < j < |reaped| ==> reaped[i] != reaped[j]
        invariant rows == Swept(old(rows), candidates.Keys - rest, now)
        decreases |rest|
      {
        var id :| id in rest;
        SweepOneMore(old(rows), candidates, rest, id, now);
        if Reapable(rows, id, candidates[id]) {
          rows := Fail(rows, id, STALE_RUN_ERROR, now);
          reaped := reaped + [id];
        }
        rest := rest - {id};
      }
      assert candidates.Keys - rest == candidates.Keys;
    }
  }
}
