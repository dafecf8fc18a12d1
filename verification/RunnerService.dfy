/**
 EvaluationRunnerService as an object around the run service (evaluation-runner.service.ts):
 the sweep with its in-flight guard, and the concluding half of `execute`. What happens
 between any two of its steps is the subject of RunProtocol.
 */
module RunnerService {
  import opened Common
  import opened RunTable
  import R = RunService

  datatype Announcement = Announcement(channel: Channel, run: Id, status: Status, error: Option<string>)

  /** What is said is what the row says. */
  predicate AsTheRow(rows: Table, said: Announcement) {
    said.run in rows && !Active(rows[said.run])
    && rows[said.run].status == said.status && rows[said.run].error == said.error
  }

  /** The terminal treatment of one run: the event, then the observer. */
  function Terminal(run: Id, status: Status, error: Option<string>): seq<Announcement> {
    [Announcement(Event, run, status, error), Announcement(Observer, run, status, error)]
  }

  function Reaped(ids: seq<Id>): seq<Announcement> {
    if ids == [] then [] else Reaped(ids[..|ids| - 1]) + Terminal(ids[|ids| - 1], Failed, Some(STALE_RUN_ERROR))
  }

  lemma {:induction false} ReapedReports(ids: seq<Id>, said: Announcement)
    ensures said in Reaped(ids) <==> said.run in ids && said.status == Failed && said.error == Some(STALE_RUN_ERROR)
  {
    if ids != [] {
      var n := |ids| - 1;
      ReapedReports(ids[..n], said);
      assert ids == ids[..n] + [ids[n]];
      assert said.channel == Event || said.channel == Observer;
      var last := Terminal(ids[n], Failed, Some(STALE_RUN_ERROR));
      assert said in last <==> said == last[0] || said == last[1];
    }
  }

  lemma {:induction false} ReapedSize(ids: seq<Id>)
    ensures |Reaped(ids)| == 2 * |ids|
  {
    if ids != [] {
      ReapedSize(ids[..|ids| - 1]);
    }
  }

  lemma ReapedReportsAll(ids: seq<Id>, stale: set<Id>, rows: Table, now: nat)
    requires forall id :: id in ids <==> id in stale
    requires forall i, j :: 0 <= i < j < |ids| ==> ids[i] != ids[j]
    requires stale <= rows.Keys
    ensures |Reaped(ids)| == 2 * |stale|
    ensures forall said :: said in Reaped(ids) <==> IsReaped(stale, said)
    ensures forall said :: said in Reaped(ids) ==> AsTheRow(Swept(rows, stale, now), said)
  {
    DistinctSize(ids, stale);
    ReapedSize(ids);
    forall said ensures said in Reaped(ids) <==> IsReaped(stale, said) {
      ReapedReports(ids, said);
    }
  }

  /** What is said of a row that the sweep closed. */
  predicate IsReaped(stale: set<Id>, said: Announcement) {
    said.run in stale && said.status == Failed && said.error == Some(STALE_RUN_ERROR)
  }

  class EvaluationRunnerService {
    const runs: R.EvaluationRunService
    var reapInFlight: bool
    var log: seq<Announcement>

    constructor (runs: R.EvaluationRunService)
      ensures this.runs == runs && !reapInFlight && log == []
    {
      this.runs, reapInFlight, log := runs, false, [];
    }

    /**
     A sweep still in flight makes this one a no-op; otherwise the stale rows are closed
     and each of them is reported once on both channels, with the text its row has.
     */
    method ReapStaleRuns()
      modifies this, runs`rows
      ensures reapInFlight == old(reapInFlight)
      ensures old(reapInFlight) ==> log == old(log) && runs.rows == old(runs.rows)
      ensures !old(reapInFlight) ==>
                var stale := Stale(old(runs.rows), runs.now - runs.staleRunTimeoutMs).Keys;
                && runs.rows == Swept(old(runs.rows), stale, runs.now)
                && old(log) <= log && |log| == |old(log)| + 2 * |stale|
                && forall said :: said in log[|old(log)|..] <==> IsReaped(stale, said)
      ensures forall said :: said in log && said !in old(log) ==> AsTheRow(runs.rows, said)
    {
      if reapInFlight {
        return;
      }
      reapInFlight := true;
      ghost var stale := Stale(runs.rows, runs.now - runs.staleRunTimeoutMs).Keys;
      var reaped := runs.ReapStaleRuns();
      ReportReaped(reaped);
      ReapedReportsAll(reaped, stale, old(runs.rows), runs.now);
      assert log[|old(log)|..] == Reaped(reaped);
      reapInFlight := false;
    }

    method ReportReaped(reaped: seq<Id>)
      requires forall id :: id in reaped ==> id in runs.rows && runs.rows[id].error == Some(STALE_RUN_ERROR)
      modifies this`log
      ensures log == old(log) + Reaped(reaped)
    {
      for i := 0 to |reaped|
        invariant log == old(log) + Reaped(reaped[..i])
      {
        assert reaped[..i + 1][..i] == reaped[..i];
        var error := runs.rows[reaped[i]].error.GetOr(STALE_RUN_ERROR);
        log := log + [Announcement(Event, reaped[i], Failed, Some(error))];
        log := log + [Announcement(Observer, reaped[i], Failed, Some(error))];
      }
      assert reaped[..|reaped|] == reaped;
    }

    /** The failure text every channel must report: what the row has, whoever closed it. */
    method PersistFailure(run: Id, error: string) returns (text: string)
      requires run in runs.rows && (runs.rows[run].status == Failed ==> runs.rows[run].error.Some?)
      modifies runs`rows
      ensures runs.rows == Fail(old(runs.rows), run, FormatRunError(error), runs.now)
      ensures runs.rows[run].status == Failed ==> runs.rows[run].error == Some(text)
    {
      var closed := runs.MarkFailed(run, error);
      if closed.Ok? {
        return FormatRunError(error);
      }
      text := runs.rows[run].error.GetOr(FormatRunError(error));
    }

    /**
     The end of `execute`: `attempt` is what became of the run so far. Also when a sweep
     closed the row meanwhile, both channels report what the row ends with.
     */
    method Conclude(run: Id, attempt: Result<(), string>) returns (r: Result<(), string>)
      requires run in runs.rows && runs.rows[run].status != Succeeded
      requires runs.rows[run].status == Failed ==> runs.rows[run].error.Some?
      requires Active(runs.rows[run]) ==> runs.rows[run].error.None?
      modifies this`log, runs`rows
      ensures runs.rows == if attempt.Ok? then Succeed(old(runs.rows), run, runs.now)
                           else Fail(old(runs.rows), run, FormatRunError(attempt.error), runs.now)
      ensures r.Ok? <==> attempt.Ok? && Active(old(runs.rows)[run])
      ensures log == old(log) + Terminal(run, runs.rows[run].status, runs.rows[run].error)
      ensures forall said :: said in log && said !in old(log) ==> AsTheRow(runs.rows, said)
    {
      var error := "";
      if attempt.Ok? {
        var marked := runs.MarkSucceeded(run);
        if marked.Ok? {
          log := log + [Announcement(Event, run, Succeeded, None)];
          log := log + [Announcement(Observer, run, Succeeded, None)];
          return Ok(());
        }
        error := "cannot be marked SUCCEEDED";
      } else {
        error := attempt.error;
      }
      var text := PersistFailure(run, error);
      log := log + [Announcement(Event, run, Failed, Some(text))];
      log := log + [Announcement(Observer, run, Failed, Some(text))];
      r := Err(error);
    }
  }

  lemma {:induction false} DistinctSize(ids: seq<Id>, stale: set<Id>)
    requires forall id :: id in ids <==> id in stale
    requires forall i, j :: 0 <= i < j < |ids| ==> ids[i] != ids[j]
    ensures |ids| == |stale|
  {
    if ids == [] {
      assert stale == {};
    } else {
      var n := |ids| - 1;
      assert forall id :: id in ids <==> id in ids[..n] || id == ids[n];
      DistinctSize(ids[..n], stale - {ids[n]});
    }
  }
}
