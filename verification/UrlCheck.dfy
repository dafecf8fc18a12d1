/**
 The alert state machine of a monitored URL (url-check-probe.service.ts): rolling
 counters, a flag with hysteresis, an incident table and emitted events.
 */
module UrlCheck {
  import opened Common

  const ALERT_FAILURE_THRESHOLD: nat := 3
  const RECOVERY_SUCCESS_THRESHOLD: nat := 3

  /** One probe outcome; `at` is the time of the check in milliseconds. */
  datatype Probe = Probe(isUp: bool, at: int, statusCode: Option<nat>, error: string)

  datatype Incident = Incident(openedAt: int, recoveredAt: Option<int>, durationMs: Option<int>, peak: nat)

  datatype Event =
    | Down(error: string, consecutiveFailures: nat, downSince: Option<int>)
    | Recovered(downSince: Option<int>, recoveredAt: int, downtimeMinutes: int)

  datatype State = State(
    failures: nat,
    successes: nat,
    isAlertOpen: bool,
    alertOpenedAt: Option<int>,
    incidents: seq<Incident>,
    events: seq<Event>)

  const INITIAL: State := State(0, 0, false, None, [], [])

  function Decimal(n: nat): string {
    if n < 10 then [DIGITS[n]] else Decimal(n / 10) + [DIGITS[n % 10]]
  }

  const DIGITS: string := "0123456789"

  /** The probe's error, or its HTTP status when there is none. */
  function ErrorText(p: Probe): string {
    if p.error != "" then p.error else if p.statusCode.Some? then "HTTP " + Decimal(p.statusCode.value) else ""
  }

  /** The number that a text of decimal digits stands for. */
  function Number(digits: string): nat {
    if digits == [] then 0
    else 10 * Number(digits[..|digits| - 1]) + Digit(digits[|digits| - 1])
  }

  function Digit(c: char): nat {
    if '0' <= c <= '9' then (c - '0') as nat else 0
  }

  lemma {:induction false} DecimalReadsBack(n: nat)
    ensures Number(Decimal(n)) == n && Decimal(n) != "" && (Decimal(n)[0] == '0' ==> n == 0)
    ensures forall c :: c in Decimal(n) ==> '0' <= c <= '9'
  {
    DigitsAreDigits(n % 10);
    if n >= 10 {
      DecimalReadsBack(n / 10);
      assert Decimal(n)[..|Decimal(n)| - 1] == Decimal(n / 10);
    } else {
      assert Decimal(n)[..0] == [];
    }
  }

  lemma DigitsAreDigits(d: nat)
    requires d < 10
    ensures Digit(DIGITS[d]) == d && '0' <= DIGITS[d] <= '9'
  {
  }

  /** The text of a down event: the error of the probe, or its HTTP status in decimal digits, or nothing. */
  lemma ErrorTextTells(p: Probe)
    ensures p.error != "" ==> ErrorText(p) == p.error
    ensures p.error == "" && p.statusCode.None? ==> ErrorText(p) == ""
    ensures p.error == "" && p.statusCode.Some? ==>
              var text := ErrorText(p);
              && |text| > 5 && text[..5] == "HTTP " && Number(text[5..]) == p.statusCode.value
              && forall c :: c in text[5..] ==> '0' <= c <= '9'
  {
    if p.statusCode.Some? {
      DecimalReadsBack(p.statusCode.value);
      assert ("HTTP " + Decimal(p.statusCode.value))[5..] == Decimal(p.statusCode.value);
    }
  }

  /** `Math.max(0, Math.round(ms / 60000))`: halves round up. */
  function Minutes(ms: int): (r: int)
    ensures ms < 0 ==> r == 0
    ensures ms >= 0 ==> 60000 * r - 30000 <= ms < 60000 * r + 30000
  {
    if ms < 0 then 0 else (ms + 30000) / 60000
  }

  function CloseOpen(incidents: seq<Incident>, at: int, durationMs: Option<int>): (r: seq<Incident>)
    ensures |r| == |incidents|
  {
    seq(|incidents|, i requires 0 <= i < |incidents| => Shut(incidents[i], at, durationMs))
  }

  function Shut(incident: Incident, at: int, durationMs: Option<int>): Incident {
    if incident.recoveredAt.None? then incident.(recoveredAt := Some(at), durationMs := durationMs) else incident
  }

  function RaisePeak(incidents: seq<Incident>, failures: nat): (r: seq<Incident>)
    ensures |r| == |incidents|
  {
    seq(|incidents|, i requires 0 <= i < |incidents| => Raised(incidents[i], failures))
  }

  function Raised(incident: Incident, failures: nat): Incident {
    if incident.recoveredAt.None? && incident.peak < failures then incident.(peak := failures) else incident
  }

  /** The state after one more probe. */
  function Step(s: State, p: Probe): State {
    if p.isUp then
      if !s.isAlertOpen then s.(failures := 0, successes := 0)
      else if s.successes + 1 < RECOVERY_SUCCESS_THRESHOLD then s.(failures := 0, successes := s.successes + 1)
      else
        var duration := if s.alertOpenedAt.Some? then Some(p.at - s.alertOpenedAt.value) else None;
        State(0, 0, false, None, CloseOpen(s.incidents, p.at, duration),
              s.events + [Recovered(s.alertOpenedAt, p.at, Minutes(duration.GetOr(0)))])
    else if s.isAlertOpen then s.(failures := s.failures + 1, successes := 0, incidents := RaisePeak(s.incidents, s.failures + 1))
    else if s.failures + 1 < ALERT_FAILURE_THRESHOLD then s.(failures := s.failures + 1, successes := 0)
    else State(s.failures + 1, 0, true, Some(p.at), s.incidents + [Incident(p.at, None, None, s.failures + 1)],
               s.events + [Down(ErrorText(p), s.failures + 1, Some(p.at))])
  }

  function Run(h: seq<Probe>): State {
    if h == [] then INITIAL else Step(Run(h[..|h| - 1]), h[|h| - 1])
  }

  class UrlCheckTarget {
    var consecutiveFailures: nat
    var consecutiveSuccesses: nat
    var isAlertOpen: bool
    var alertOpenedAt: Option<int>
    var lastCheckedAt: Option<int>
    var lastStatusCode: Option<nat>
    var lastIsUp: Option<bool>
    var incidents: seq<Incident>
    var events: seq<Event>
    /** Every probe so far. */
    ghost var history: seq<Probe>

    ghost function Current(): State
      reads this
    {
      State(consecutiveFailures, consecutiveSuccesses, isAlertOpen, alertOpenedAt, incidents, events)
    }

    ghost predicate Valid()
      reads this
    {
      Current() == Run(history)
    }

    constructor ()
      ensures Valid() && history == []
    {
      consecutiveFailures, consecutiveSuccesses, isAlertOpen, alertOpenedAt := 0, 0, false, None;
      lastCheckedAt, lastStatusCode, lastIsUp := None, None, None;
      incidents, events, history := [], [], [];
    }

    /** One probe; the state stays a function of the history. */
    method CheckTarget(outcome: Probe)
      requires Valid()
      modifies this
      ensures Valid() && history == old(history) + [outcome]
    {
      assert (history + [outcome])[..|history|] == history;
      AdvanceState(outcome);
      history := history + [outcome];
    }

    /** One transaction and at most one event. */
    method AdvanceState(outcome: Probe)
      modifies this
      ensures Current() == Step(old(Current()), outcome) && history == old(history)
      ensures lastCheckedAt == Some(outcome.at) && lastStatusCode == outcome.statusCode && lastIsUp == Some(outcome.isUp)
    {
      var failures := if outcome.isUp then 0 else consecutiveFailures + 1;
      var successes := if outcome.isUp && isAlertOpen then consecutiveSuccesses + 1 else 0;
      var opensAlert := !outcome.isUp && failures >= ALERT_FAILURE_THRESHOLD && !isAlertOpen;
      var closesAlert := outcome.isUp && isAlertOpen && successes >= RECOVERY_SUCCESS_THRESHOLD;
      var outageContinues := !outcome.isUp && isAlertOpen;
      var openedAt := alertOpenedAt;

      consecutiveFailures, consecutiveSuccesses := failures, successes;
      lastCheckedAt, lastStatusCode, lastIsUp := Some(outcome.at), outcome.statusCode, Some(outcome.isUp);
      if opensAlert {
        isAlertOpen, alertOpenedAt := true, Some(outcome.at);
      }
      if closesAlert {
        isAlertOpen, alertOpenedAt, consecutiveSuccesses := false, None, 0;
      }
      WriteIncident(outcome.at, openedAt, failures, opensAlert, closesAlert, outageContinues);
      if opensAlert {
        events := events + [Down(ErrorText(outcome), failures, Some(outcome.at))];
      } else if closesAlert {
        events := events + [Recovered(openedAt, outcome.at, if openedAt.Some? then Minutes(outcome.at - openedAt.value) else 0)];
      }
    }

    /** The incident half of the transaction. */
    method WriteIncident(at: int, openedAt: Option<int>, failures: nat, opens: bool, closes: bool, continues: bool)
      modifies this`incidents
      ensures incidents == if opens then old(incidents) + [Incident(at, None, None, failures)]
                           else if closes then CloseOpen(old(incidents), at, if openedAt.Some? then Some(at - openedAt.value) else None)
                           else if continues then RaisePeak(old(incidents), failures)
                           else old(incidents)
    {
      if opens {
        incidents := incidents + [Incident(at, None, None, failures)];
      } else if closes {
        incidents := CloseOpen(incidents, at, if openedAt.Some? then Some(at - openedAt.value) else None);
      } else if continues {
        incidents := RaisePeak(incidents, failures);
      }
    }
  }
}
