/**
 The EvaluationRun table and the statements the run service issues against it
 (evaluation-run.service.ts). Each function is one conditional UPDATE or INSERT.
 */
module RunTable {
  import opened Common

  type Id = nat

  datatype Status = Queued | Running | Succeeded | Failed

  datatype Run = Run(
    subject: Id,
    version: Id,
    status: Status,
    error: Option<string>,
    startedAt: Option<nat>,
    finishedAt: Option<nat>,
    createdAt: nat,
    updatedAt: nat)

  type Table = map<Id, Run>

  /** The two ways the end of a run is made known. */
  datatype Channel = Event | Observer

  const MAX_ERROR_LENGTH: nat := 1000

  const STALE_RUN_ERROR: string := "Run abandoned: no progress within the timeout window (process restart?)"

  function FormatRunError(text: string): (stored: string)
    ensures stored <= text && |stored| <= 1000
    ensures stored == text || |stored| == 1000
  {
    if |text| <= MAX_ERROR_LENGTH then text else text[..MAX_ERROR_LENGTH]
  }

  predicate Active(run: Run) {
    run.status == Queued || run.status == Running
  }

  predicate IsActive(t: Table, id: Id) {
    id in t && Active(t[id])
  }

  /** Whether the partial unique index refuses another active row for the pair. */
  predicate Occupied(t: Table, subject: Id, version: Id) {
    exists id :: id in t && Active(t[id]) && t[id].subject == subject && t[id].version == version
  }

  function Inserted(t: Table, id: Id, subject: Id, version: Id, now: nat): Table {
    t[id := Run(subject, version, Queued, None, None, None, now, now)]
  }

  /** QUEUED to RUNNING; every row write bumps `updatedAt`. */
  function MarkRunning(t: Table, id: Id, now: nat): Table {
    if id in t && t[id].status == Queued
    then t[id := t[id].(status := Running, startedAt := Some(now), updatedAt := now)] else t
  }

  function Succeed(t: Table, id: Id, now: nat): Table {
    if IsActive(t, id) then t[id := t[id].(status := Succeeded, finishedAt := Some(now), updatedAt := now)] else t
  }

  function Fail(t: Table, id: Id, error: string, now: nat): Table {
    if IsActive(t, id)
    then t[id := t[id].(status := Failed, error := Some(error), finishedAt := Some(now), updatedAt := now)] else t
  }

  function Touch(t: Table, id: Id, now: nat): Table {
    if IsActive(t, id) then t[id := t[id].(updatedAt := now)] else t
  }

  /** The fencing check: still active, and still the execution that started at `startedAt`. */
  predicate Fenced(t: Table, id: Id, startedAt: Option<nat>) {
    IsActive(t, id) && t[id].startedAt == startedAt
  }

  /** The columns that say what was asked for, and when. */
  predicate SameRequest(run: Run, before: Run) {
    run.subject == before.subject && run.version == before.version && run.createdAt == before.createdAt
  }

  /** The columns that only the end of a run writes. */
  predicate SameOutcome(run: Run, before: Run) {
    run.error == before.error && run.finishedAt == before.finishedAt
  }

  /** Rows a sweep selects: active and untouched since before the cutoff. */
  function Stale(t: Table, cutoff: int): map<Id, nat> {
    map id | id in t && Active(t[id]) && t[id].updatedAt < cutoff :: t[id].updatedAt
  }

  /** Whether the sweep's conditional write still matches the row it selected. */
  predicate Reapable(t: Table, id: Id, seenUpdatedAt: nat) {
    IsActive(t, id) && t[id].updatedAt == seenUpdatedAt
  }

  function Abandoned(run: Run, now: nat): Run {
    run.(status := Failed, error := Some(STALE_RUN_ERROR), finishedAt := Some(now), updatedAt := now)
  }

  /** The table after the active rows `ids` were closed as abandoned. */
  function Swept(t: Table, ids: set<Id>, now: nat): Table {
    map id | id in t :: if id in ids then Abandoned(t[id], now) else t[id]
  }

  /** Rows selected by a sweep, still as they were selected. */
  ghost predicate Selected(t: Table, candidates: map<Id, nat>) {
    forall id :: id in candidates ==> Reapable(t, id, candidates[id])
  }

  lemma SweepOneMore(t: Table, candidates: map<Id, nat>, rest: set<Id>, id: Id, now: nat)
    requires Selected(t, candidates) && id in rest && rest <= candidates.Keys
    ensures var swept := Swept(t, candidates.Keys - rest, now);
            && Reapable(swept, id, candidates[id])
            && Fail(swept, id, STALE_RUN_ERROR, now) == Swept(t, candidates.Keys - (rest - {id}), now)
  {
  }

  lemma SweepLeavesFreshOnly(t: Table, cutoff: int, now: nat)
    requires cutoff <= now
    ensures forall id :: IsActive(Swept(t, Stale(t, cutoff).Keys, now), id) ==>
              Swept(t, Stale(t, cutoff).Keys, now)[id].updatedAt >= cutoff
  {
  }

  ghost predicate OneActive(t: Table) {
    forall a, b :: IsActive(t, a) && IsActive(t, b) && t[a].subject == t[b].subject && t[a].version == t[b].version ==> a == b
  }
}
