/**
 Every interleaving of recording passes, suppressions and reopenings over the shared
 finding rows (evaluation-finding.service.ts). One action is one database call or
 one call of the observer; between two actions of an actor any other may act.
 */
module FindingProtocol {
  import opened Common
  import opened FindingTable
  import J = Judgment

  /** Progress of `recordFindings` followed by `resolveAbsentFindings`; `next` indexes the candidates. */
  datatype Pc =
    | Looking(next: nat)
    | Creating(next: nat)
    | Refinding(next: nat)
    | Updating(next: nat, seen: Status)
    | Refreshing(next: nat)
    | Rereading(next: nat)
    | Telling(next: nat, notice: Notice)
    | Recorded
    | Resolving(todo: map<FindingId, Finding>, count: nat)
    | TellingClosed(todo: map<FindingId, Finding>, count: nat, notice: Notice)
    | Done(count: nat)
    | Stopped

  datatype Recording = Recording(pass: Pass, candidates: seq<Sighting>, pc: Pc)

  /** A suppression or reopening after its write: it rereads the row, then tells the observer. */
  datatype Call = Written(id: FindingId, change: Change) | Read(notice: Notice) | Answered

  datatype Author = ByRun(run: Id) | ByCall(call: Id)

  datatype Entry = Entry(author: Author, notice: Notice)

  datatype World = World(now: nat, rows: Table, recordings: map<Id, Recording>, calls: map<Id, Call>, log: seq<Entry>)

  /** Which listed row comes next, or whether the run passes its fence before resolving. */
  datatype Choice = Go | Pick(id: FindingId) | Quit

  datatype Action =
    | Tick(delta: nat)
    | Begin(pass: Pass, candidates: seq<Sighting>, evidenceIds: Option<set<string>>)
    | Step(run: Id, choice: Choice)
    | AskSuppress(call: Id, id: FindingId, note: string, actor: string)
    | AskReopen(call: Id, id: FindingId)
    | Answer(call: Id)

  // ---- A recording pass ----

  /** The one write or report a step makes. */
  datatype Effect = Nothing | Puts(id: FindingId, row: Finding) | Says(notice: Notice)

  /** The candidate a step is about, if any. */
  predicate OnCandidate(pc: Pc) {
    pc.Creating? || pc.Refinding? || pc.Updating? || pc.Refreshing? || pc.Rereading? || pc.Telling?
  }

  predicate Fits(rec: Recording, choice: Choice) {
    match rec.pc
    case Recorded => choice.Go? || choice.Quit?
    case Resolving(todo, _) => (choice.Go? && todo == map[]) || (choice.Pick? && choice.id in todo)
    case Done(_) => false
    case Stopped => false
    case _ => choice.Go? && (OnCandidate(rec.pc) ==> rec.pc.next < |rec.candidates|)
  }

  function Target(rec: Recording): FindingId
    requires OnCandidate(rec.pc) && rec.pc.next < |rec.candidates|
  {
    IdOf(rec.pass, rec.candidates[rec.pc.next])
  }

  function Advance(rec: Recording, rows: Table, now: nat, choice: Choice): (Pc, Effect)
    requires Fits(rec, choice)
  {
    match rec.pc
    case Looking(n) =>
      if n >= |rec.candidates| then (Recorded, Nothing) else
        var id := IdOf(rec.pass, rec.candidates[n]);
        (if id in rows then Updating(n, rows[id].status) else Creating(n), Nothing)
    case Creating(n) =>
      var s := rec.candidates[n];
      if Target(rec) in rows then (Refinding(n), Nothing)
      else (Telling(n, Notice(Target(rec), s.claim.severity, Created)), Puts(Target(rec), NewRow(rec.pass, s)))
    case Refinding(n) =>
      (if Target(rec) in rows then Updating(n, rows[Target(rec)].status) else Stopped, Nothing)
    case Updating(n, seen) =>
      if Target(rec) in rows && rows[Target(rec)].status == seen
      then (if seen == RESOLVED then Rereading(n) else Looking(n + 1),
            Puts(Target(rec), Updated(rows[Target(rec)], seen, rec.pass, rec.candidates[n])))
      else (Refreshing(n), Nothing)
    case Refreshing(n) =>
      (Looking(n + 1),
       if Target(rec) in rows then Puts(Target(rec), Observed(rows[Target(rec)], rec.pass, rec.candidates[n])) else Nothing)
    case Rereading(n) =>
      (if Target(rec) in rows then Telling(n, Notice(Target(rec), rows[Target(rec)].severity, Reopened)) else Stopped, Nothing)
    case Telling(n, notice) => (Looking(n + 1), Says(notice))
    case Recorded => (if choice.Quit? then Stopped else Resolving(Absent(rows, rec.pass), 0), Nothing)
    case Resolving(todo, count) =>
      if choice.Go? then (Done(count), Nothing)
      else if Closable(rows, choice.id, todo[choice.id])
      then (TellingClosed(todo - {choice.id}, count + 1, Notice(choice.id, todo[choice.id].severity, Resolved)),
            Puts(choice.id, Resolve(rows[choice.id], now)))
      else (Resolving(todo - {choice.id}, count), Nothing)
    case TellingClosed(todo, count, notice) => (Resolving(todo, count), Says(notice))
  }

  predicate StepEnabled(w: World, run: Id, choice: Choice) {
    run in w.recordings && Fits(w.recordings[run], choice)
  }

  function StepApply(w: World, run: Id, choice: Choice): World
    requires StepEnabled(w, run, choice)
  {
    var (pc, effect) := Advance(w.recordings[run], w.rows, w.now, choice);
    AfterEffect(w, run, pc, effect)
  }

  function RowsAfter(rows: Table, effect: Effect): Table {
    if effect.Puts? then rows[effect.id := effect.row] else rows
  }

  function AfterEffect(w: World, run: Id, pc: Pc, effect: Effect): World
    requires run in w.recordings
  {
    w.(recordings := w.recordings[run := w.recordings[run].(pc := pc)],
       rows := RowsAfter(w.rows, effect),
       log := if effect.Says? then w.log + [Entry(ByRun(run), effect.notice)] else w.log)
  }

  // ---- The system ----

  predicate Enabled(w: World, a: Action) {
    match a
    case Tick(_) => true
    case Begin(pass, candidates, evidenceIds) =>
      pass.run !in w.recordings && pass.observedAt <= w.now && Admissible(pass, candidates, evidenceIds)
    case Step(run, choice) => StepEnabled(w, run, choice)
    case AskSuppress(call, _, _, _) => call !in w.calls
    case AskReopen(call, _) => call !in w.calls
    case Answer(call) => call in w.calls && !w.calls[call].Answered?
  }

  /** A suppression that is refused or finds no row ends at once. */
  predicate Suppressible(w: World, id: FindingId, note: string, actor: string) {
    !IsBlank(note) && !IsBlank(actor) && id in w.rows
  }

  function Apply(w: World, a: Action): World
    requires Enabled(w, a)
  {
    match a
    case Tick(delta) => w.(now := w.now + delta)
    case Begin(pass, candidates, _) => w.(recordings := w.recordings[pass.run := Recording(pass, candidates, Looking(0))])
    case Step(run, choice) => StepApply(w, run, choice)
    case AskSuppress(call, id, note, actor) =>
      if Suppressible(w, id, note, actor)
      then w.(rows := w.rows[id := Suppress(w.rows[id], note, actor)], calls := w.calls[call := Written(id, Suppressed)])
      else w.(calls := w.calls[call := Answered])
    case AskReopen(call, id) =>
      if id in w.rows
      then w.(rows := w.rows[id := Reopen(w.rows[id])], calls := w.calls[call := Written(id, Reopened)])
      else w.(calls := w.calls[call := Answered])
    case Answer(call) =>
      (match w.calls[call]
       case Written(id, change) =>
         w.(calls := w.calls[call := if id in w.rows then Read(Notice(id, w.rows[id].severity, change)) else Answered])
       case Read(notice) => w.(calls := w.calls[call := Answered], log := w.log + [Entry(ByCall(call), notice)])
       case Answered => w)
  }

  ghost predicate Init(w: World) {
    w.rows == map[] && w.recordings == map[] && w.calls == map[] && w.log == []
  }

  ghost predicate Execution(states: seq<World>, actions: seq<Action>) {
    && |states| == |actions| + 1 && Init(states[0])
    && forall i :: 0 <= i < |actions| ==> Enabled(states[i], actions[i]) && states[i + 1] == Apply(states[i], actions[i])
  }

  // ---- The invariant ----

  /** RESOLVED exactly with a resolution time; SUPPRESSED exactly with a note and an actor, neither of them blank. */
  predicate RowOk(f: Finding) {
    && (f.status == RESOLVED <==> f.resolvedAt.Some?)
    && (f.status == SUPPRESSED <==> f.suppressionNote.Some?) && (f.status == SUPPRESSED <==> f.suppressedByRef.Some?)
    && (f.status == SUPPRESSED ==> !IsBlank(f.suppressionNote.value) && !IsBlank(f.suppressedByRef.value))
  }

  /** The pass that saw a finding last: same subject and evaluationKey, its start time, one of its ASSERTION criteria. */
  predicate SeenBy(recordings: map<Id, Recording>, id: FindingId, f: Finding) {
    && f.lastSeenRun in recordings
    && var pass := recordings[f.lastSeenRun].pass;
       && InScope(pass, id) && f.lastSeenAt == pass.observedAt
       && f.criterionKey in pass.kinds && pass.kinds[f.criterionKey] == J.ASSERTION
       && f.severity in J.SEVERITIES && id.fingerprint != ""
  }

  predicate FirstSeenBy(recordings: map<Id, Recording>, id: FindingId, f: Finding) {
    && f.firstSeenRun in recordings
    && var pass := recordings[f.firstSeenRun].pass;
       InScope(pass, id) && f.firstSeenAt == pass.observedAt
  }

  ghost predicate RowsOk(rows: Table, recordings: map<Id, Recording>) {
    forall id :: id in rows ==> RowOk(rows[id]) && SeenBy(recordings, id, rows[id]) && FirstSeenBy(recordings, id, rows[id])
  }

  /** A candidate that passed validation. */
  predicate CandidateOk(pass: Pass, s: Sighting) {
    && s.claim.criterionKey in pass.kinds && pass.kinds[s.claim.criterionKey] == J.ASSERTION
    && s.claim.severity in J.SEVERITIES && s.claim.fingerprint != ""
  }

  /** Where a pass stands agrees with its candidates and with rows that are never deleted. */
  ghost predicate PcOk(rec: Recording, keys: set<FindingId>) {
    && (OnCandidate(rec.pc) ==> rec.pc.next < |rec.candidates|)
    && (rec.pc.Refinding? || rec.pc.Updating? || rec.pc.Refreshing? || rec.pc.Rereading? || rec.pc.Telling? ==>
          Target(rec) in keys)
    && (rec.pc.Telling? ==> rec.pc.notice.id == Target(rec))
    && (rec.pc.Resolving? || rec.pc.TellingClosed? ==> ListedOk(rec.pass, rec.pc.todo, keys))
  }

  /** Listed rows are in scope and were last seen before the pass started. */
  ghost predicate ListedOk(pass: Pass, todo: map<FindingId, Finding>, keys: set<FindingId>) {
    forall id :: id in todo ==> id in keys && InScope(pass, id) && todo[id].lastSeenAt < pass.observedAt
  }

  ghost predicate RecordingOk(run: Id, rec: Recording, keys: set<FindingId>) {
    && rec.pass.run == run
    && (forall s :: s in rec.candidates ==> CandidateOk(rec.pass, s))
    && PcOk(rec, keys)
  }

  ghost predicate RecordingsOk(recordings: map<Id, Recording>, keys: set<FindingId>) {
    forall run :: run in recordings ==> RecordingOk(run, recordings[run], keys)
  }

  ghost predicate Inv(w: World) {
    RowsOk(w.rows, w.recordings) && RecordingsOk(w.recordings, w.rows.Keys)
  }

  /** What a step may put: a row that is well formed, seen by known passes, with its first sighting kept. */
  ghost predicate GoodWrite(rows: Table, recordings: map<Id, Recording>, effect: Effect) {
    effect.Puts? ==>
      RowOk(effect.row) && SeenBy(recordings, effect.id, effect.row) && FirstSeenBy(recordings, effect.id, effect.row)
  }

  lemma StepWritesWell(w: World, run: Id, choice: Choice)
    requires Inv(w) && StepEnabled(w, run, choice)
    ensures GoodWrite(w.rows, w.recordings, Advance(w.recordings[run], w.rows, w.now, choice).1)
  {
    var rec := w.recordings[run];
    assert RecordingOk(run, rec, w.rows.Keys);
    if OnCandidate(rec.pc) {
      assert CandidateOk(rec.pass, rec.candidates[rec.pc.next]);
      assert Target(rec) in w.rows ==> RowOk(w.rows[Target(rec)]);
    }
  }

  lemma CandidateAdvancesWell(rec: Recording, rows: Table, now: nat)
    requires PcOk(rec, rows.Keys) && Fits(rec, Go) && (rec.pc.Looking? || OnCandidate(rec.pc))
    ensures var (pc, effect) := Advance(rec, rows, now, Go); PcOk(rec.(pc := pc), RowsAfter(rows, effect).Keys)
  {
  }

  lemma ResolvingAdvancesWell(rec: Recording, rows: Table, now: nat, choice: Choice)
    requires PcOk(rec, rows.Keys) && Fits(rec, choice) && (rec.pc.Resolving? || rec.pc.TellingClosed?)
    ensures var (pc, effect) := Advance(rec, rows, now, choice); PcOk(rec.(pc := pc), RowsAfter(rows, effect).Keys)
  {
    assert RowsAfter(rows, Advance(rec, rows, now, choice).1).Keys >= rows.Keys;
  }

  lemma ListingIsOk(rows: Table, pass: Pass)
    ensures ListedOk(pass, Absent(rows, pass), rows.Keys)
  {
  }

  lemma StepAdvancesWell(rec: Recording, rows: Table, now: nat, choice: Choice)
    requires PcOk(rec, rows.Keys) && Fits(rec, choice)
    ensures var (pc, effect) := Advance(rec, rows, now, choice); PcOk(rec.(pc := pc), RowsAfter(rows, effect).Keys)
  {
    if rec.pc.Looking? || OnCandidate(rec.pc) {
      CandidateAdvancesWell(rec, rows, now);
    } else if rec.pc.Recorded? {
      ListingIsOk(rows, rec.pass);
    } else {
      ResolvingAdvancesWell(rec, rows, now, choice);
    }
  }

  lemma RowsAfterEffect(rows: Table, recordings: map<Id, Recording>, effect: Effect)
    requires RowsOk(rows, recordings) && GoodWrite(rows, recordings, effect)
    ensures RowsOk(RowsAfter(rows, effect), recordings)
  {
  }

  /** Moving one pass on changes no pass's identity. */
  lemma RowsAfterMove(rows: Table, recordings: map<Id, Recording>, run: Id, pc: Pc)
    requires RowsOk(rows, recordings) && run in recordings
    ensures RowsOk(rows, recordings[run := recordings[run].(pc := pc)])
  {
  }

  lemma RecordingStays(run: Id, rec: Recording, keys: set<FindingId>, keys': set<FindingId>)
    requires RecordingOk(run, rec, keys) && keys <= keys'
    ensures RecordingOk(run, rec, keys')
  {
  }

  lemma EffectKeepsInv(w: World, run: Id, pc: Pc, effect: Effect)
    requires Inv(w) && run in w.recordings && GoodWrite(w.rows, w.recordings, effect)
    requires PcOk(w.recordings[run].(pc := pc), RowsAfter(w.rows, effect).Keys)
    ensures Inv(AfterEffect(w, run, pc, effect))
  {
    var w' := AfterEffect(w, run, pc, effect);
    RowsAfterEffect(w.rows, w.recordings, effect);
    RowsAfterMove(w'.rows, w.recordings, run, pc);
    assert w.rows.Keys <= w'.rows.Keys;
    forall r | r in w'.recordings ensures RecordingOk(r, w'.recordings[r], w'.rows.Keys) {
      RecordingStays(r, w.recordings[r], w.rows.Keys, w'.rows.Keys);
    }
  }

  lemma BeginKeepsInv(w: World, pass: Pass, candidates: seq<Sighting>, evidenceIds: Option<set<string>>)
    requires Inv(w) && Enabled(w, Begin(pass, candidates, evidenceIds))
    ensures Inv(Apply(w, Begin(pass, candidates, evidenceIds)))
  {
    var w' := Apply(w, Begin(pass, candidates, evidenceIds));
    forall s | s in candidates ensures CandidateOk(pass, s) {
      var i :| 0 <= i < |candidates| && candidates[i] == s;
      assert J.FindingOk(pass.kinds, ClaimsOf(candidates)[i], evidenceIds);
    }
    forall r | r in w'.recordings ensures RecordingOk(r, w'.recordings[r], w'.rows.Keys) {
      assert r in w.recordings ==> RecordingOk(r, w.recordings[r], w.rows.Keys);
    }
  }

  lemma PutKeepsInv(w: World, id: FindingId, row: Finding, w': World)
    requires Inv(w) && id in w.rows && GoodWrite(w.rows, w.recordings, Puts(id, row))
    requires w'.rows == w.rows[id := row] && w'.recordings == w.recordings
    ensures Inv(w')
  {
    assert w'.rows.Keys == w.rows.Keys;
  }

  lemma InvIsPreserved(w: World, a: Action)
    requires Inv(w) && Enabled(w, a)
    ensures Inv(Apply(w, a))
  {
    match a {
      case Tick(_) =>
      case Begin(pass, candidates, evidenceIds) => BeginKeepsInv(w, pass, candidates, evidenceIds);
      case Step(run, choice) =>
        StepWritesWell(w, run, choice);
        assert RecordingOk(run, w.recordings[run], w.rows.Keys);
        StepAdvancesWell(w.recordings[run], w.rows, w.now, choice);
        var (pc, effect) := Advance(w.recordings[run], w.rows, w.now, choice);
        EffectKeepsInv(w, run, pc, effect);
      case AskSuppress(_, id, note, actor) =>
        if Suppressible(w, id, note, actor) {
          PutKeepsInv(w, id, Suppress(w.rows[id], note, actor), Apply(w, a));
        }
      case AskReopen(_, id) =>
        if id in w.rows {
          PutKeepsInv(w, id, Reopen(w.rows[id]), Apply(w, a));
        }
      case Answer(_) =>
    }
  }

  lemma {:induction false} InvAlways(states: seq<World>, actions: seq<Action>, i: nat)
    requires Execution(states, actions) && i < |states|
    ensures Inv(states[i])
  {
    if i > 0 {
      InvAlways(states, actions, i - 1);
      InvIsPreserved(states[i - 1], actions[i - 1]);
    }
  }
}
