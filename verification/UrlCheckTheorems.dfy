/** What the alert state machine means, read off the probe history alone. */
module UrlCheckTheorems {
  import opened Common
  import opened UrlCheck

  // ---- The declarative reading ----

  /** Three consecutive outcomes `up` starting at `i`. */
  predicate Block(h: seq<Probe>, i: nat, up: bool) {
    i + 3 <= |h| && h[i].isUp == up && h[i + 1].isUp == up && h[i + 2].isUp == up
  }

  /** The last block of three consecutive equal outcomes is three failures. */
  predicate IsDown(h: seq<Probe>) {
    exists i | 0 <= i < |h| :: Block(h, i, false) && forall j | i < j < |h| :: !Block(h, j, true)
  }

  /** The length of the run of outcomes `up` that ends the first `n` probes. */
  function TrailingAt(h: seq<Probe>, n: nat, up: bool): (r: nat)
    requires n <= |h|
    ensures r <= n
  {
    if n == 0 || h[n - 1].isUp != up then 0 else TrailingAt(h, n - 1, up) + 1
  }

  /** The length of the run of outcomes `up` that ends the history. */
  function Trailing(h: seq<Probe>, up: bool): nat {
    TrailingAt(h, |h|, up)
  }

  /** The probes at which the reading turned from up to down, oldest first. */
  function Openings(h: seq<Probe>): seq<nat> {
    if h == [] then []
    else
      var before := h[..|h| - 1];
      Openings(before) + if !IsDown(before) && IsDown(h) then [|h| - 1] else []
  }

  function Closings(h: seq<Probe>): seq<nat> {
    if h == [] then []
    else
      var before := h[..|h| - 1];
      Closings(before) + if IsDown(before) && !IsDown(h) then [|h| - 1] else []
  }

  /** The longest failure streak standing after any of the probes `from` to `to - 1`. */
  function LongestStreak(h: seq<Probe>, from: nat, to: nat): nat
    requires from < to <= |h|
  {
    var here := TrailingAt(h, to, false);
    if from + 1 == to then here else Max(LongestStreak(h, from, to - 1), here)
  }

  function Max(a: nat, b: nat): nat {
    if a < b then b else a
  }

  // ---- Blocks and trailing runs ----

  lemma {:induction false} TrailingOfPrefix(h: seq<Probe>, p: Probe, n: nat, up: bool)
    requires n <= |h|
    ensures TrailingAt(h + [p], n, up) == TrailingAt(h, n, up)
  {
    if n > 0 {
      TrailingOfPrefix(h, p, n - 1, up);
    }
  }

  lemma TrailingAppend(h: seq<Probe>, p: Probe, up: bool)
    ensures Trailing(h + [p], up) == if p.isUp == up then Trailing(h, up) + 1 else 0
  {
    TrailingOfPrefix(h, p, |h|, up);
  }

  lemma TrailingBlock(h: seq<Probe>, up: bool)
    ensures Trailing(h, up) >= 3 <==> |h| >= 3 && Block(h, |h| - 3, up)
  {
    var n := |h|;
    if n >= 3 {
      assert TrailingAt(h, n - 1, up) == if h[n - 2].isUp != up then 0 else TrailingAt(h, n - 2, up) + 1;
      assert TrailingAt(h, n - 2, up) == if h[n - 3].isUp != up then 0 else TrailingAt(h, n - 3, up) + 1;
    }
  }

  /** A failure turns the reading down exactly when it completes a block; it never turns it up. */
  lemma IsDownAfterFailure(h: seq<Probe>, p: Probe)
    requires !p.isUp
    ensures IsDown(h + [p]) <==> IsDown(h) || Trailing(h + [p], false) >= 3
  {
    var h' := h + [p];
    TrailingBlock(h', false);
    if IsDown(h) {
      var i :| 0 <= i < |h| && Block(h, i, false) && forall j | i < j < |h| :: !Block(h, j, true);
      assert Block(h', i, false);
      forall j | i < j < |h'| ensures !Block(h', j, true) {
        if j + 3 <= |h| {
          assert !Block(h, j, true);
        }
      }
    }
    if IsDown(h') && !Block(h', |h'| - 3, false) {
      var i :| 0 <= i < |h'| && Block(h', i, false) && forall j | i < j < |h'| :: !Block(h', j, true);
      assert Block(h, i, false);
      forall j | i < j < |h| ensures !Block(h, j, true) {
        assert !Block(h', j, true);
      }
    }
    if |h'| >= 3 && Block(h', |h'| - 3, false) {
      assert IsDown(h');
    }
  }

  /** A success turns the reading up exactly when it completes a block; it never turns it down. */
  lemma IsDownAfterSuccess(h: seq<Probe>, p: Probe)
    requires p.isUp
    ensures IsDown(h + [p]) <==> IsDown(h) && Trailing(h + [p], true) < 3
  {
    var h' := h + [p];
    TrailingBlock(h', true);
    if IsDown(h') {
      var i :| 0 <= i < |h'| && Block(h', i, false) && forall j | i < j < |h'| :: !Block(h', j, true);
      assert Block(h, i, false);
      forall j | i < j < |h| ensures !Block(h, j, true) {
        assert !Block(h', j, true);
      }
      assert IsDown(h);
      if |h'| >= 3 && Block(h', |h'| - 3, true) {
        assert false;
      }
    }
    if IsDown(h) && Trailing(h', true) < 3 {
      var i :| 0 <= i < |h| && Block(h, i, false) && forall j | i < j < |h| :: !Block(h, j, true);
      assert Block(h', i, false);
      forall j | i < j < |h'| ensures !Block(h', j, true) {
        if j + 3 <= |h| {
          assert !Block(h, j, true);
        }
      }
    }
  }

  /**
   The alert is open exactly when the last block of three equal outcomes is three
   failures. The failure counter is the trailing failure run; the success counter is
   the trailing success run while the alert is open, always below three, and zero
   while it is closed.
   */
  lemma {:induction false} CountersMeanTrailingRuns(h: seq<Probe>)
    ensures var s := Run(h);
            && (s.isAlertOpen <==> IsDown(h))
            && s.failures == Trailing(h, false)
            && s.successes == (if s.isAlertOpen then Trailing(h, true) else 0) < 3
            && (!s.isAlertOpen ==> s.failures < 3)
            && s.alertOpenedAt.Some? == s.isAlertOpen
  {
    if h != [] {
      var before, p := h[..|h| - 1], h[|h| - 1];
      assert before + [p] == h;
      CountersMeanTrailingRuns(before);
      TrailingAppend(before, p, true);
      TrailingAppend(before, p, false);
      if p.isUp {
        IsDownAfterSuccess(before, p);
      } else {
        IsDownAfterFailure(before, p);
      }
    }
  }

  /** How many of the events open an alert. */
  function Downs(events: seq<Event>): nat {
    if events == [] then 0 else Downs(events[..|events| - 1]) + if events[|events| - 1].Down? then 1 else 0
  }

  /**
   At most one event per three probes, and at most one opening per six (counting from the
   third); openings and recoveries are in balance but for the alert that is still open.
   */
  lemma {:induction false} EventsAreRare(h: seq<Probe>)
    ensures var s := Run(h);
            && 3 * |s.events| + (if s.isAlertOpen then s.successes else s.failures) <= |h|
            && |s.events| <= |h| / 3
            && Downs(s.events) <= (|h| + 3) / 6
            && 2 * Downs(s.events) == |s.events| + (if s.isAlertOpen then 1 else 0)
  {
    if h != [] {
      var before, s := Run(h[..|h| - 1]), Run(h);
      EventsAreRare(h[..|h| - 1]);
      CountersMeanTrailingRuns(h[..|h| - 1]);
      if s.events != before.events {
        assert s.events[..|s.events| - 1] == before.events;
      }
    }
  }

  // ---- Incidents and events ----

  /** Openings and closings alternate, starting with an opening; a closing is owed exactly while down. */
  lemma {:induction false} OpeningsAndClosings(h: seq<Probe>)
    ensures var (o, c) := (Openings(h), Closings(h));
            && |o| == |c| + (if IsDown(h) then 1 else 0)
            && (forall k :: 0 <= k < |o| ==> o[k] < |h|)
            && (forall k :: 0 <= k < |c| ==> o[k] < c[k] < |h|)
            && (forall k, m :: 0 <= k < |c| && k < m < |o| ==> c[k] < o[m])
  {
    if h != [] {
      OpeningsAndClosings(h[..|h| - 1]);
    }
  }

  /** The incident of the `k`-th outage, as the history tells it. */
  function OutageIncident(h: seq<Probe>, o: seq<nat>, c: seq<nat>, k: nat): Incident
    requires k < |o| && o[k] < |h| && (k < |c| ==> o[k] < c[k] < |h|)
  {
    var since := h[o[k]].at;
    if k < |c| then Incident(since, Some(h[c[k]].at), Some(h[c[k]].at - since), LongestStreak(h, o[k], c[k]))
    else Incident(since, None, None, LongestStreak(h, o[k], |h|))
  }

  function OutagesOf(h: seq<Probe>): (r: seq<Incident>)
    ensures |r| == |Openings(h)|
  {
    OpeningsAndClosings(h);
    var (o, c) := (Openings(h), Closings(h));
    seq(|o|, k requires 0 <= k < |o| => OutageIncident(h, o, c, k))
  }

  lemma {:induction false} StreakOfPrefix(h: seq<Probe>, p: Probe, from: nat, to: nat)
    requires from < to <= |h|
    ensures LongestStreak(h + [p], from, to) == LongestStreak(h, from, to)
  {
    TrailingOfPrefix(h, p, to, false);
    if from + 1 < to {
      StreakOfPrefix(h, p, from, to - 1);
    }
  }

  /** An outage of the shorter history, seen from the longer one, unless it is still going on. */
  lemma PastOutageStays(h: seq<Probe>, p: Probe, o: seq<nat>, c: seq<nat>, c': seq<nat>, k: nat)
    requires k < |c| && k < |o| && o[k] < c[k] < |h| && c <= c'
    ensures OutageIncident(h + [p], o, c', k) == OutageIncident(h, o, c, k)
  {
    StreakOfPrefix(h, p, o[k], c[k]);
  }

  /** The last incident while it goes on: a failure raises its peak, a success leaves it. */
  lemma StreakUnfolds(h: seq<Probe>, from: nat, to: nat)
    requires from < to < |h|
    ensures LongestStreak(h, from, to + 1) == Max(LongestStreak(h, from, to), TrailingAt(h, to + 1, false))
  {
  }

  lemma OngoingPeak(h: seq<Probe>, p: Probe, h': seq<Probe>, from: nat)
    requires from < |h| && h' == h + [p]
    ensures LongestStreak(h', from, |h'|) == Max(LongestStreak(h, from, |h|), if p.isUp then 0 else Trailing(h, false) + 1)
  {
    StreakOfPrefix(h, p, from, |h|);
    StreakUnfolds(h', from, |h|);
    TrailingAppend(h, p, false);
  }

  lemma {:induction false} AlertOpenedAtTheLastOpening(h: seq<Probe>)
    ensures var (o, s) := (Openings(h), Run(h));
            s.isAlertOpen ==> o != [] && o[|o| - 1] < |h| && s.alertOpenedAt == Some(h[o[|o| - 1]].at)
  {
    CountersMeanTrailingRuns(h);
    if h != [] {
      AlertOpenedAtTheLastOpening(h[..|h| - 1]);
      CountersMeanTrailingRuns(h[..|h| - 1]);
    }
  }

  lemma TurnsAppend(h: seq<Probe>, p: Probe)
    ensures Openings(h + [p]) == if !IsDown(h) && IsDown(h + [p]) then Openings(h) + [|h|] else Openings(h)
    ensures Closings(h + [p]) == if IsDown(h) && !IsDown(h + [p]) then Closings(h) + [|h|] else Closings(h)
  {
    assert (h + [p])[..|h|] == h;
    assert Openings(h) + [] == Openings(h) && Closings(h) + [] == Closings(h);
  }

  lemma OutageAt(h: seq<Probe>, o: seq<nat>, c: seq<nat>, k: nat)
    requires o == Openings(h) && c == Closings(h) && k < |o| && o[k] < |h| && (k < |c| ==> o[k] < c[k] < |h|)
    ensures OutagesOf(h)[k] == OutageIncident(h, o, c, k)
  {
  }

  lemma StaysClosed(h: seq<Probe>, p: Probe)
    requires !IsDown(h) && !IsDown(h + [p])
    ensures OutagesOf(h + [p]) == OutagesOf(h)
  {
    TurnsAppend(h, p);
    OpeningsAndClosings(h);
    var (o, c) := (Openings(h), Closings(h));
    forall k | 0 <= k < |o| ensures OutagesOf(h + [p])[k] == OutagesOf(h)[k] {
      PastOutageStays(h, p, o, c, c, k);
    }
  }

  lemma StreakStarts(h: seq<Probe>, p: Probe)
    ensures LongestStreak(h + [p], |h|, |h| + 1) == Trailing(h + [p], false)
  {
  }

  lemma OpensAt(h: seq<Probe>, p: Probe, o: seq<nat>, c: seq<nat>, k: nat)
    requires |o| == |c| && !p.isUp && k <= |o| && (k < |o| ==> o[k] < c[k] < |h|)
    ensures OutageIncident(h + [p], o + [|h|], c, k)
         == if k < |o| then OutageIncident(h, o, c, k) else Incident(p.at, None, None, Trailing(h, false) + 1)
  {
    if k < |o| {
      PastOutageStays(h, p, o, c, c, k);
      assert (o + [|h|])[k] == o[k];
      PastSameOpenings(h, p, o, o + [|h|], c, k);
    } else {
      assert k == |o|;
      StreakStarts(h, p);
      TrailingAppend(h, p, false);
    }
  }

  lemma PastSameOpenings(h: seq<Probe>, p: Probe, o: seq<nat>, o': seq<nat>, c: seq<nat>, k: nat)
    requires k < |c| && k < |o| && o[k] < c[k] < |h| && o <= o'
    ensures OutageIncident(h + [p], o', c, k) == OutageIncident(h + [p], o, c, k)
  {
  }

  lemma Opens(h: seq<Probe>, p: Probe)
    requires !IsDown(h) && IsDown(h + [p])
    ensures !p.isUp
    ensures OutagesOf(h + [p]) == OutagesOf(h) + [Incident(p.at, None, None, Trailing(h, false) + 1)]
  {
    if p.isUp {
      IsDownAfterSuccess(h, p);
    }
    TurnsAppend(h, p);
    OpeningsAndClosings(h);
    var (o, c) := (Openings(h), Closings(h));
    var expected := OutagesOf(h) + [Incident(p.at, None, None, Trailing(h, false) + 1)];
    forall k | 0 <= k < |o| + 1 ensures OutagesOf(h + [p])[k] == expected[k] {
      OpensAt(h, p, o, c, k);
      OutageAt(h + [p], o + [|h|], c, k);
      if k < |o| {
        OutageAt(h, o, c, k);
      } else {
        assert k == |o|;
      }
    }
    assert OutagesOf(h + [p]) == expected;
  }

  /** What an outage's incident becomes while the reading stays down. */
  function Continued(incident: Incident, p: Probe, failures: nat): Incident {
    if p.isUp then incident else Raised(incident, failures)
  }

  /** The incident of the outage that goes on. */
  lemma OngoingIncident(h: seq<Probe>, p: Probe, h': seq<Probe>, o: seq<nat>, c: seq<nat>)
    requires |o| == |c| + 1 && o[|c|] < |h| && h' == h + [p]
    ensures OutageIncident(h', o, c, |c|)
         == Continued(OutageIncident(h, o, c, |c|), p, Trailing(h, false) + 1)
  {
    var from := o[|c|];
    assert OutageIncident(h, o, c, |c|) == Incident(h[from].at, None, None, LongestStreak(h, from, |h|));
    assert OutageIncident(h', o, c, |c|) == Incident(h[from].at, None, None, LongestStreak(h', from, |h'|));
    OngoingPeak(h, p, h', from);
    Merged(h[from].at, LongestStreak(h, from, |h|), LongestStreak(h', from, |h'|), p, Trailing(h, false) + 1);
  }

  lemma Merged(since: int, peak: nat, peak': nat, p: Probe, failures: nat)
    requires peak' == Max(peak, if p.isUp then 0 else failures)
    ensures Incident(since, None, None, peak')
         == if p.isUp then Incident(since, None, None, peak) else Raised(Incident(since, None, None, peak), failures)
  {
  }

  /** An incident that was closed takes no new peak. */
  lemma PastIsNotRaised(h: seq<Probe>, o: seq<nat>, c: seq<nat>, k: nat, failures: nat)
    requires k < |c| && k < |o| && o[k] < c[k] < |h|
    ensures Raised(OutageIncident(h, o, c, k), failures) == OutageIncident(h, o, c, k)
  {
  }

  lemma PastGoesOn(h: seq<Probe>, p: Probe, h': seq<Probe>, o: seq<nat>, c: seq<nat>, k: nat)
    requires k < |c| && k < |o| && o[k] < c[k] < |h| && h' == h + [p]
    ensures OutageIncident(h', o, c, k) == Continued(OutageIncident(h, o, c, k), p, Trailing(h, false) + 1)
  {
    PastOutageStays(h, p, o, c, c, k);
    PastIsNotRaised(h, o, c, k, Trailing(h, false) + 1);
  }

  lemma GoesOnAt(h: seq<Probe>, p: Probe, h': seq<Probe>, o: seq<nat>, c: seq<nat>, k: nat)
    requires |o| == |c| + 1 && k < |o| && o[k] < |h| && (k < |c| ==> o[k] < c[k] < |h|) && h' == h + [p]
    ensures OutageIncident(h', o, c, k) == Continued(OutageIncident(h, o, c, k), p, Trailing(h, false) + 1)
  {
    if k < |c| {
      PastGoesOn(h, p, h', o, c, k);
    } else {
      assert k == |c|;
      OngoingIncident(h, p, h', o, c);
    }
  }

  lemma GoesOn(h: seq<Probe>, p: Probe)
    requires IsDown(h) && IsDown(h + [p])
    ensures OutagesOf(h + [p]) == if p.isUp then OutagesOf(h) else RaisePeak(OutagesOf(h), Trailing(h, false) + 1)
  {
    TurnsAppend(h, p);
    OpeningsAndClosings(h);
    var (o, c) := (Openings(h), Closings(h));
    var failures := Trailing(h, false) + 1;
    var expected := if p.isUp then OutagesOf(h) else RaisePeak(OutagesOf(h), failures);
    forall k | 0 <= k < |o| ensures OutagesOf(h + [p])[k] == expected[k] {
      GoesOnAt(h, p, h + [p], o, c, k);
      OutageAt(h, o, c, k);
      OutageAt(h + [p], o, c, k);
    }
    assert OutagesOf(h + [p]) == expected;
  }

  lemma ClosesAt(h: seq<Probe>, p: Probe, o: seq<nat>, c: seq<nat>, k: nat)
    requires |o| == |c| + 1 && k < |o| && o[k] < |h| && o[|c|] < |h| && (k < |c| ==> o[k] < c[k] < |h|)
    ensures OutageIncident(h + [p], o, c + [|h|], k) == Shut(OutageIncident(h, o, c, k), p.at, Some(p.at - h[o[|c|]].at))
  {
    if k < |c| {
      PastOutageStays(h, p, o, c, c + [|h|], k);
    } else {
      assert k == |c|;
      StreakOfPrefix(h, p, o[k], |h|);
    }
  }

  lemma ShutAt(incidents: seq<Incident>, at: int, durationMs: Option<int>, k: nat)
    requires k < |incidents|
    ensures CloseOpen(incidents, at, durationMs)[k] == Shut(incidents[k], at, durationMs)
  {
  }

  lemma ClosesAll(h: seq<Probe>, p: Probe, o: seq<nat>, c: seq<nat>)
    requires o == Openings(h) && c == Closings(h) && Openings(h + [p]) == o && Closings(h + [p]) == c + [|h|]
    requires |o| == |c| + 1
    ensures o[|c|] < |h|
    ensures OutagesOf(h + [p]) == CloseOpen(OutagesOf(h), p.at, Some(p.at - h[o[|c|]].at))
  {
    OpeningsAndClosings(h);
    var duration := Some(p.at - h[o[|c|]].at);
    var before, after := OutagesOf(h), OutagesOf(h + [p]);
    forall k | 0 <= k < |o| ensures after[k] == CloseOpen(before, p.at, duration)[k] {
      ClosedIncident(h, p, o, c, k);
      ShutAt(before, p.at, duration, k);
    }
    assert after == CloseOpen(before, p.at, duration);
  }

  lemma Closes(h: seq<Probe>, p: Probe)
    requires IsDown(h) && !IsDown(h + [p])
    ensures Openings(h) != [] && Openings(h)[|Openings(h)| - 1] < |h|
    ensures OutagesOf(h + [p]) == CloseOpen(OutagesOf(h), p.at, Some(p.at - h[Openings(h)[|Openings(h)| - 1]].at))
  {
    TurnsAppend(h, p);
    OpeningsAndClosings(h);
    assert |Openings(h)| - 1 == |Closings(h)|;
    ClosesAll(h, p, Openings(h), Closings(h));
  }

  lemma ClosedIncident(h: seq<Probe>, p: Probe, o: seq<nat>, c: seq<nat>, k: nat)
    requires o == Openings(h) && c == Closings(h) && Openings(h + [p]) == o && Closings(h + [p]) == c + [|h|]
    requires |o| == |c| + 1 && k < |o| && o[k] < |h| && o[|c|] < |h| && (k < |c| ==> o[k] < c[k] < |h|)
    ensures OutagesOf(h + [p])[k] == Shut(OutagesOf(h)[k], p.at, Some(p.at - h[o[|c|]].at))
  {
    ClosesAt(h, p, o, c, k);
    OutageAt(h, o, c, k);
    if k < |c| {
      assert (c + [|h|])[k] == c[k];
      OutageAt(h + [p], o, c + [|h|], k);
    } else {
      assert k == |c| && (c + [|h|])[k] == |h|;
      OutageAt(h + [p], o, c + [|h|], k);
    }
  }

  lemma RunAppend(h: seq<Probe>, p: Probe)
    ensures Run(h + [p]) == Step(Run(h), p)
  {
    assert (h + [p])[..|h|] == h;
  }

  /** What a step does to the incidents, by what it does to the alert. */
  lemma StepIncidents(s: State, p: Probe)
    ensures var s' := Step(s, p);
            s'.incidents ==
            if !s.isAlertOpen then (if s'.isAlertOpen then s.incidents + [Incident(p.at, None, None, s.failures + 1)] else s.incidents)
            else if s'.isAlertOpen then (if p.isUp then s.incidents else RaisePeak(s.incidents, s.failures + 1))
            else CloseOpen(s.incidents, p.at, if s.alertOpenedAt.Some? then Some(p.at - s.alertOpenedAt.value) else None)
  {
  }

  lemma OutagesFromUp(h: seq<Probe>, p: Probe)
    requires Run(h).incidents == OutagesOf(h) && !IsDown(h)
    ensures Run(h + [p]).incidents == OutagesOf(h + [p])
  {
    RunAppend(h, p);
    StepIncidents(Run(h), p);
    CountersMeanTrailingRuns(h);
    CountersMeanTrailingRuns(h + [p]);
    if IsDown(h + [p]) {
      Opens(h, p);
    } else {
      StaysClosed(h, p);
    }
  }

  lemma OutagesFromDown(h: seq<Probe>, p: Probe)
    requires Run(h).incidents == OutagesOf(h) && IsDown(h)
    ensures Run(h + [p]).incidents == OutagesOf(h + [p])
  {
    RunAppend(h, p);
    StepIncidents(Run(h), p);
    CountersMeanTrailingRuns(h);
    CountersMeanTrailingRuns(h + [p]);
    AlertOpenedAtTheLastOpening(h);
    if IsDown(h + [p]) {
      GoesOn(h, p);
    } else {
      Closes(h, p);
    }
  }

  /**
   The incident table is the list of outages of the history: opened and recovered at
   the probes that turned the reading, with duration recovery minus opening, and with
   the longest failure streak standing at any probe of the outage as its peak.
   */
  lemma {:induction false} IncidentsAreTheOutages(h: seq<Probe>)
    ensures Run(h).incidents == OutagesOf(h)
  {
    if h != [] {
      IncidentsAreTheOutages(h[..|h| - 1]);
      if IsDown(h[..|h| - 1]) {
        OutagesFromDown(h[..|h| - 1], h[|h| - 1]);
      } else {
        OutagesFromUp(h[..|h| - 1], h[|h| - 1]);
      }
      assert h[..|h| - 1] + [h[|h| - 1]] == h;
    }
  }

  /** The event of the `n`-th turn of the reading: down at even turns, recovered at odd ones. */
  function TurnEvent(h: seq<Probe>, o: seq<nat>, c: seq<nat>, n: nat): Event
    requires n < |o| + |c| && |c| <= |o| <= |c| + 1
    requires o[n / 2] < |h| && (n % 2 == 1 ==> c[n / 2] < |h|)
  {
    var since := h[o[n / 2]].at;
    if n % 2 == 0 then Down(ErrorText(h[o[n / 2]]), 3, Some(since))
    else Recovered(Some(since), h[c[n / 2]].at, Minutes(h[c[n / 2]].at - since))
  }

  function TurnsOf(h: seq<Probe>): (r: seq<Event>)
    ensures |r| == |Openings(h)| + |Closings(h)|
  {
    OpeningsAndClosings(h);
    var (o, c) := (Openings(h), Closings(h));
    seq(|o| + |c|, n requires 0 <= n < |o| + |c| => TurnEvent(h, o, c, n))
  }

  lemma PastTurnsStay(h: seq<Probe>, p: Probe)
    ensures TurnsOf(h) <= TurnsOf(h + [p])
  {
    assert (h + [p])[..|h|] == h;
    OpeningsAndClosings(h);
    forall n | 0 <= n < |TurnsOf(h)| ensures TurnsOf(h + [p])[n] == TurnsOf(h)[n] {
    }
  }

  lemma TurnsOneMore(h: seq<Probe>, p: Probe)
    ensures |TurnsOf(h + [p])| == |TurnsOf(h)| + if IsDown(h) == IsDown(h + [p]) then 0 else 1
    ensures IsDown(h) != IsDown(h + [p]) ==>
              |TurnsOf(h)| % 2 == (if IsDown(h) then 1 else 0)
  {
    assert (h + [p])[..|h|] == h;
    OpeningsAndClosings(h);
  }

  /**
   The emitted events are exactly the turns of the history, in order: down and
   recovered alternate starting with down, every down event reports three failures
   and the opening time, every recovery both ends of its outage.
   */
  lemma {:induction false} EventsAreTheTurns(h: seq<Probe>)
    ensures Run(h).events == TurnsOf(h)
  {
    if h != [] {
      var before, p := h[..|h| - 1], h[|h| - 1];
      assert before + [p] == h;
      EventsAreTheTurns(before);
      CountersMeanTrailingRuns(before);
      CountersMeanTrailingRuns(h);
      AlertOpenedAtTheLastOpening(before);
      OpeningsAndClosings(before);
      OpeningsAndClosings(h);
      PastTurnsStay(before, p);
      TurnsOneMore(before, p);
    }
  }

  ghost predicate Monotone(h: seq<Probe>) {
    forall i, j :: 0 <= i <= j < |h| ==> h[i].at <= h[j].at
  }

  /** The recorded ends of one incident. */
  predicate EndsOk(incident: Incident) {
    incident.recoveredAt.Some? ==> incident.durationMs == Some(incident.recoveredAt.value - incident.openedAt)
  }

  ghost predicate NoOverlap(incidents: seq<Incident>) {
    && (forall k :: 0 <= k < |incidents| && incidents[k].recoveredAt.Some? ==>
          incidents[k].openedAt <= incidents[k].recoveredAt.value)
    && (forall k, m :: 0 <= k < m < |incidents| && incidents[k].recoveredAt.Some? ==>
          incidents[k].recoveredAt.value <= incidents[m].openedAt)
  }

  lemma OutageEnds(h: seq<Probe>, k: nat)
    requires k < |Openings(h)|
    ensures EndsOk(OutagesOf(h)[k])
    ensures OutagesOf(h)[k].recoveredAt.Some? <==> k < |Closings(h)|
  {
    OpeningsAndClosings(h);
  }

  lemma OutageTimes(h: seq<Probe>, k: nat)
    requires k < |Openings(h)| && k < |Closings(h)|
    ensures 0 <= Openings(h)[k] < Closings(h)[k] < |h|
    ensures OutagesOf(h)[k].openedAt == h[Openings(h)[k]].at && OutagesOf(h)[k].recoveredAt == Some(h[Closings(h)[k]].at)
  {
    OpeningsAndClosings(h);
  }

  lemma OutagesDoNotOverlap(h: seq<Probe>)
    requires Monotone(h)
    ensures NoOverlap(OutagesOf(h))
  {
    OpeningsAndClosings(h);
    forall k | 0 <= k < |OutagesOf(h)| && OutagesOf(h)[k].recoveredAt.Some?
      ensures OutagesOf(h)[k].openedAt <= OutagesOf(h)[k].recoveredAt.value
    {
      OutageEnds(h, k);
      OutageTimes(h, k);
    }
    forall k, m | 0 <= k < m < |OutagesOf(h)| && OutagesOf(h)[k].recoveredAt.Some?
      ensures OutagesOf(h)[k].recoveredAt.value <= OutagesOf(h)[m].openedAt
    {
      OutageEnds(h, k);
      OutageTimes(h, k);
      assert OutagesOf(h)[m].openedAt == h[Openings(h)[m]].at;
    }
  }

  /**
   An open alert has exactly one open incident, the last one, opened when the alert
   was; a closed alert has none. On a clock that does not run backwards incidents do
   not overlap and no duration is negative.
   */
  lemma IncidentsAreDisjoint(h: seq<Probe>)
    ensures var s := Run(h);
            && (s.isAlertOpen <==> s.incidents != [] && s.incidents[|s.incidents| - 1].recoveredAt.None?)
            && (s.isAlertOpen ==> Some(s.incidents[|s.incidents| - 1].openedAt) == s.alertOpenedAt)
            && (forall k :: 0 <= k < |s.incidents| - 1 ==> s.incidents[k].recoveredAt.Some?)
            && (forall k :: 0 <= k < |s.incidents| ==> EndsOk(s.incidents[k]))
            && (Monotone(h) ==> NoOverlap(s.incidents))
  {
    IncidentsAreTheOutages(h);
    CountersMeanTrailingRuns(h);
    AlertOpenedAtTheLastOpening(h);
    OpeningsAndClosings(h);
    forall k | 0 <= k < |Openings(h)|
      ensures EndsOk(OutagesOf(h)[k]) && (OutagesOf(h)[k].recoveredAt.Some? <==> k < |Closings(h)|)
    {
      OutageEnds(h, k);
    }
    if Monotone(h) {
      OutagesDoNotOverlap(h);
    }
  }

  lemma ThreeFailures(f: Probe)
    requires !f.isUp
    ensures Run([f, f, f]).isAlertOpen && Run([f, f, f]).successes == 0
  {
    assert Run([]) == INITIAL;
    RunAppend([], f);
    RunAppend([f], f);
    RunAppend([f, f], f);
    assert [] + [f] == [f] && [f] + [f] == [f, f] && [f, f] + [f] == [f, f, f];
  }

  /** The first success after three failures leaves the alert open. */
  lemma OneSuccessRecoversNothing(f: Probe, s: Probe)
    requires !f.isUp && s.isUp
    ensures Run([f, f, f, s]).isAlertOpen
  {
    ThreeFailures(f);
    RunAppend([f, f, f], s);
    assert [f, f, f] + [s] == [f, f, f, s];
  }
}
