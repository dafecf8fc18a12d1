/**
 What the finding lifecycle guarantees over every interleaving of recording passes,
 suppressions and reopenings, and what it does not.
 */
module FindingTheorems {
  import opened Common
  import opened FindingTable
  import opened FindingProtocol
  import J = Judgment

  // ---- Rows ----

  /** The lifecycle columns agree with the status, and a finding answers an ASSERTION criterion of the run that saw it last. */
  lemma LifecycleIsConsistent(states: seq<World>, actions: seq<Action>, i: nat, id: FindingId)
    requires Execution(states, actions) && i < |states| && id in states[i].rows
    ensures var f := states[i].rows[id];
            && (f.status == RESOLVED <==> f.resolvedAt.Some?)
            && (f.status == SUPPRESSED <==> f.suppressionNote.Some? && f.suppressedByRef.Some?)
            && f.lastSeenRun in states[i].recordings
            && var kinds := states[i].recordings[f.lastSeenRun].pass.kinds;
               f.criterionKey in kinds && kinds[f.criterionKey] == J.ASSERTION
  {
    InvAlways(states, actions, i);
  }

  predicate FirstKept(rows: Table, rows': Table, id: FindingId) {
    id in rows ==> id in rows' && rows'[id].firstSeenRun == rows[id].firstSeenRun && rows'[id].firstSeenAt == rows[id].firstSeenAt
  }

  predicate SuppressionKept(rows: Table, rows': Table, id: FindingId) {
    Suppresses(rows, id) ==> Suppresses(rows', id) && SameSuppression(rows[id], rows'[id])
  }

  lemma StepKeeps(rec: Recording, rows: Table, now: nat, choice: Choice, id: FindingId)
    requires Fits(rec, choice)
    ensures FirstKept(rows, RowsAfter(rows, Advance(rec, rows, now, choice).1), id)
    ensures SuppressionKept(rows, RowsAfter(rows, Advance(rec, rows, now, choice).1), id)
  {
  }

  /** The action is a human decision about this finding. */
  predicate Decides(a: Action, id: FindingId) {
    (a.AskSuppress? || a.AskReopen?) && a.id == id
  }

  lemma ActionKeeps(w: World, a: Action, id: FindingId)
    requires Inv(w) && Enabled(w, a)
    ensures FirstKept(w.rows, Apply(w, a).rows, id)
    ensures !Decides(a, id) ==> SuppressionKept(w.rows, Apply(w, a).rows, id)
    ensures !(a.AskReopen? && a.id == id) && Suppresses(w.rows, id) ==> Suppresses(Apply(w, a).rows, id)
  {
    if a.Step? {
      StepKeeps(w.recordings[a.run], w.rows, w.now, a.choice, id);
    }
  }

  /** Nothing but one row changes. */
  ghost predicate OnlyRow(rows: Table, rows': Table, id: FindingId) {
    rows'.Keys == rows.Keys && forall other :: other in rows && other != id ==> rows'[other] == rows[other]
  }

  /** A suppression takes effect at once, in whatever state it finds the finding, and on nothing else. */
  lemma SuppressionTakes(w: World, call: Id, id: FindingId, note: string, actor: string)
    requires Enabled(w, AskSuppress(call, id, note, actor))
    ensures var rows' := Apply(w, AskSuppress(call, id, note, actor)).rows;
            if IsBlank(note) || IsBlank(actor) || id !in w.rows then rows' == w.rows
            else OnlyRow(w.rows, rows', id) && IsSuppression(w.rows[id], rows'[id], note, actor)
  {
  }

  lemma ReopeningTakes(w: World, call: Id, id: FindingId)
    requires Enabled(w, AskReopen(call, id))
    ensures var rows' := Apply(w, AskReopen(call, id)).rows;
            if id !in w.rows then rows' == w.rows else OnlyRow(w.rows, rows', id) && IsReopening(w.rows[id], rows'[id])
  {
  }

  /** A run closes a finding at the time of the write, and changes nothing else of it. */
  lemma ClosingTakes(w: World, run: Id, id: FindingId)
    requires Enabled(w, Step(run, Pick(id))) && Apply(w, Step(run, Pick(id))).rows != w.rows
    ensures var rows' := Apply(w, Step(run, Pick(id))).rows;
            && id in w.rows && w.rows[id].status == OPEN && OnlyRow(w.rows, rows', id)
            && IsClosing(w.rows[id], rows'[id]) && rows'[id].resolvedAt == Some(w.now)
  {
  }

  /** What is written for a candidate: its content, who saw it when, and for a row that was there its first sighting. */
  lemma SightingIsWritten(rec: Recording, rows: Table, now: nat)
    requires OnCandidate(rec.pc) && Fits(rec, Go) && Advance(rec, rows, now, Go).1.Puts?
    ensures var (effect, s) := (Advance(rec, rows, now, Go).1, rec.candidates[rec.pc.next]);
            && effect.id.subject == rec.pass.subject && effect.id.evaluationKey == rec.pass.evaluationKey
            && effect.id.fingerprint == s.claim.fingerprint
            && Reports(effect.row, s) && effect.row.lastSeenRun == rec.pass.run && effect.row.lastSeenAt == rec.pass.observedAt
            && (effect.id in rows ==>
                  var f := rows[effect.id];
                  && effect.row.firstSeenRun == f.firstSeenRun && effect.row.firstSeenAt == f.firstSeenAt
                  && effect.row.detail == (if s.detail == None then f.detail else s.detail)
                  && effect.row.metadata == if s.metadata == None then f.metadata else s.metadata)
            && (effect.id !in rows ==> effect.row == Finding(
                  s.claim.criterionKey, s.claim.severity, s.title, s.detail, s.metadata, OPEN, rec.pass.run, rec.pass.run,
                  rec.pass.observedAt, rec.pass.observedAt, None, None, None))
  {
  }

  /** Who saw a finding first, and when, is written once. */
  lemma {:induction false} FirstSeenNeverChanges(states: seq<World>, actions: seq<Action>, i: nat, j: nat, id: FindingId)
    requires Execution(states, actions) && i <= j < |states| && id in states[i].rows
    ensures FirstKept(states[i].rows, states[j].rows, id)
    decreases j
  {
    if i < j {
      FirstSeenNeverChanges(states, actions, i, j - 1, id);
      InvAlways(states, actions, j - 1);
      ActionKeeps(states[j - 1], actions[j - 1], id);
    }
  }

  /** Until somebody reopens it, a suppressed finding stays suppressed, whatever any number of runs observe or resolve. */
  lemma {:induction false} OnlyReopenLeavesSuppressed(states: seq<World>, actions: seq<Action>, i: nat, j: nat, id: FindingId)
    requires Execution(states, actions) && i <= j < |states| && Suppresses(states[i].rows, id)
    requires forall k :: i <= k < j ==> !(actions[k].AskReopen? && actions[k].id == id)
    ensures Suppresses(states[j].rows, id)
    ensures (forall k :: i <= k < j ==> !Decides(actions[k], id)) ==> SameSuppression(states[i].rows[id], states[j].rows[id])
    decreases j
  {
    if i < j {
      OnlyReopenLeavesSuppressed(states, actions, i, j - 1, id);
      InvAlways(states, actions, j - 1);
      ActionKeeps(states[j - 1], actions[j - 1], id);
    }
  }

  /** A pass writes only findings of its own subject and evaluationKey. */
  lemma StepStaysInScope(w: World, run: Id, choice: Choice, id: FindingId)
    requires Inv(w) && StepEnabled(w, run, choice) && !InScope(w.recordings[run].pass, id)
    ensures id in StepApply(w, run, choice).rows <==> id in w.rows
    ensures id in w.rows ==> StepApply(w, run, choice).rows[id] == w.rows[id]
  {
    assert RecordingOk(run, w.recordings[run], w.rows.Keys);
  }

  /**
   A run closes a finding only if the run that saw it last is another one that
   started strictly earlier: one that started at the same time or later wins.
   */
  lemma ClosesOnlyOlderSightings(states: seq<World>, actions: seq<Action>, i: nat, id: FindingId)
    requires Execution(states, actions) && i < |actions| && actions[i].Step? && id in states[i].rows
    requires states[i].rows[id].status == OPEN && states[i + 1].rows[id].status == RESOLVED
    ensures var last := states[i].rows[id].lastSeenRun;
            && last in states[i].recordings && last != actions[i].run
            && states[i].recordings[last].pass.observedAt < states[i].recordings[actions[i].run].pass.observedAt
  {
    InvAlways(states, actions, i);
    var w, run := states[i], actions[i].run;
    assert RecordingOk(run, w.recordings[run], w.rows.Keys);
    assert SeenBy(w.recordings, id, w.rows[id]);
  }

  /**
   A listed finding is closed exactly if it is still open and the run that saw it last
   started when the listed observer did: a re-observation after the listing protects it
   unless it came from a run of the very same start time.
   */
  lemma ListedIsClosedIff(states: seq<World>, actions: seq<Action>, i: nat, run: Id, id: FindingId)
    requires Execution(states, actions) && i < |states| && run in states[i].recordings
    requires states[i].recordings[run].pc.Resolving? && id in states[i].recordings[run].pc.todo
    ensures var (w, listed) := (states[i], states[i].recordings[run].pc.todo[id]);
            && id in w.rows && w.rows[id].lastSeenRun in w.recordings
            && var last := w.recordings[w.rows[id].lastSeenRun].pass;
               StepApply(w, run, Pick(id)).rows ==
               if w.rows[id].status == OPEN && last.observedAt == listed.lastSeenAt
               then w.rows[id := Resolve(w.rows[id], w.now)] else w.rows
  {
    InvAlways(states, actions, i);
    var w := states[i];
    assert RecordingOk(run, w.recordings[run], w.rows.Keys);
    assert SeenBy(w.recordings, id, w.rows[id]);
  }

  // ---- Notifications ----

  /** The lifecycle change between two tables, read off the rows alone. */
  function MoveOf(rows: Table, rows': Table, id: FindingId): seq<Change> {
    if id !in rows' then []
    else if id !in rows then [Created]
    else if rows[id].status == rows'[id].status then []
    else match rows'[id].status
      case OPEN => [Reopened]
      case RESOLVED => [Resolved]
      case SUPPRESSED => [Suppressed]
  }

  /** All changes of a finding made by one run during the first `n` actions. */
  ghost function MovesBy(states: seq<World>, actions: seq<Action>, n: nat, run: Id, id: FindingId): seq<Change>
    requires n <= |actions| < |states|
  {
    if n == 0 then []
    else MovesBy(states, actions, n - 1, run, id) +
         if actions[n - 1].Step? && actions[n - 1].run == run then MoveOf(states[n - 1].rows, states[n].rows, id) else []
  }

  /** What one run told the observer about a finding. */
  function ToldBy(log: seq<Entry>, run: Id, id: FindingId): seq<Change> {
    if log == [] then []
    else
      var last := log[|log| - 1];
      ToldBy(log[..|log| - 1], run, id) + if last.author == ByRun(run) && last.notice.id == id then [last.notice.change] else []
  }

  /** The change a pass has made and not yet reported. */
  function Untold(rec: Recording, id: FindingId): seq<Change> {
    match rec.pc
    case Rereading(n) => if n < |rec.candidates| && Target(rec) == id then [Reopened] else []
    case Telling(_, notice) => if notice.id == id then [notice.change] else []
    case TellingClosed(_, _, notice) => if notice.id == id then [notice.change] else []
    case _ => []
  }

  function UntoldBy(w: World, run: Id, id: FindingId): seq<Change> {
    if run in w.recordings then Untold(w.recordings[run], id) else []
  }

  lemma ToldOneMore(log: seq<Entry>, e: Entry, run: Id, id: FindingId)
    ensures ToldBy(log + [e], run, id) ==
            ToldBy(log, run, id) + if e.author == ByRun(run) && e.notice.id == id then [e.notice.change] else []
  {
    assert (log + [e])[..|log|] == log;
  }

  /** What a step reports to the observer about a finding. */
  function SaidOf(effect: Effect, id: FindingId): seq<Change> {
    if effect.Says? && effect.notice.id == id then [effect.notice.change] else []
  }

  /** Each step either makes a change and owes its report, or pays the report it owes. */
  lemma StepBalances(rec: Recording, rows: Table, now: nat, choice: Choice, id: FindingId)
    requires Fits(rec, choice) && PcOk(rec, rows.Keys)
    ensures var (pc, effect) := Advance(rec, rows, now, choice);
            Untold(rec, id) + MoveOf(rows, RowsAfter(rows, effect), id) == SaidOf(effect, id) + Untold(rec.(pc := pc), id)
  {
  }

  lemma Rebalance(told: seq<Change>, owed: seq<Change>, move: seq<Change>, said: seq<Change>, owed': seq<Change>)
    requires owed + move == said + owed'
    ensures (told + said) + owed' == told + owed + move
  {
    assert (told + said) + owed' == told + (said + owed');
    assert (told + owed) + move == told + (owed + move);
  }

  lemma ToldAfterStep(w: World, run: Id, pc: Pc, effect: Effect, id: FindingId)
    requires run in w.recordings
    ensures var w' := AfterEffect(w, run, pc, effect);
            && ToldBy(w'.log, run, id) == ToldBy(w.log, run, id) + SaidOf(effect, id)
            && UntoldBy(w', run, id) == Untold(w.recordings[run].(pc := pc), id)
  {
    if effect.Says? {
      ToldOneMore(w.log, Entry(ByRun(run), effect.notice), run, id);
    }
  }

  lemma StepTells(w: World, run: Id, choice: Choice, id: FindingId)
    requires Inv(w) && StepEnabled(w, run, choice)
    ensures var w' := StepApply(w, run, choice);
            ToldBy(w'.log, run, id) + UntoldBy(w', run, id)
            == ToldBy(w.log, run, id) + UntoldBy(w, run, id) + MoveOf(w.rows, w'.rows, id)
  {
    var rec := w.recordings[run];
    var (pc, effect) := Advance(rec, w.rows, w.now, choice);
    assert RecordingOk(run, rec, w.rows.Keys);
    StepBalances(rec, w.rows, w.now, choice, id);
    ToldAfterStep(w, run, pc, effect, id);
    Rebalance(ToldBy(w.log, run, id), Untold(rec, id), MoveOf(w.rows, RowsAfter(w.rows, effect), id), SaidOf(effect, id),
              Untold(rec.(pc := pc), id));
  }

  lemma OthersTellNothing(w: World, a: Action, run: Id, id: FindingId)
    requires Inv(w) && Enabled(w, a) && !(a.Step? && a.run == run)
    ensures ToldBy(Apply(w, a).log, run, id) == ToldBy(w.log, run, id)
    ensures UntoldBy(Apply(w, a), run, id) == UntoldBy(w, run, id)
  {
    var w' := Apply(w, a);
    if |w'.log| > |w.log| {
      ToldOneMore(w.log, w'.log[|w.log|], run, id);
    }
  }

  lemma ActionBalances(w: World, a: Action, w': World, run: Id, id: FindingId)
    requires Inv(w) && Enabled(w, a) && w' == Apply(w, a)
    ensures ToldBy(w'.log, run, id) + UntoldBy(w', run, id)
            == ToldBy(w.log, run, id) + UntoldBy(w, run, id) + if a.Step? && a.run == run then MoveOf(w.rows, w'.rows, id) else []
  {
    if a.Step? && a.run == run {
      StepTells(w, run, a.choice, id);
    } else {
      OthersTellNothing(w, a, run, id);
    }
  }

  lemma BalancesNext(states: seq<World>, actions: seq<Action>, n: nat, run: Id, id: FindingId)
    requires Execution(states, actions) && n < |actions|
    ensures ToldBy(states[n + 1].log, run, id) + UntoldBy(states[n + 1], run, id)
            == ToldBy(states[n].log, run, id) + UntoldBy(states[n], run, id)
             + if actions[n].Step? && actions[n].run == run then MoveOf(states[n].rows, states[n + 1].rows, id) else []
  {
    InvAlways(states, actions, n);
    ActionBalances(states[n], actions[n], states[n + 1], run, id);
  }

  /**
   For every run and finding, the created, reopened and resolved notices of the run
   are, in order, exactly the changes it made to the row, but for at most one change
   whose notice is still to come. No change goes unreported, none is reported twice.
   */
  lemma {:induction false} NoticesAreTheMoves(states: seq<World>, actions: seq<Action>, n: nat, run: Id, id: FindingId)
    requires Execution(states, actions) && n < |states|
    ensures ToldBy(states[n].log, run, id) + UntoldBy(states[n], run, id) == MovesBy(states, actions, n, run, id)
    ensures |UntoldBy(states[n], run, id)| <= 1
  {
    if n > 0 {
      NoticesAreTheMoves(states, actions, n - 1, run, id);
      BalancesNext(states, actions, n - 1, run, id);
    }
  }

  /** What the observer is told: the severity the row was created with, has when it is reread, or was listed with. */
  lemma StepAnnounces(rec: Recording, rows: Table, now: nat, choice: Choice)
    requires Fits(rec, choice)
    ensures var (pc, effect) := Advance(rec, rows, now, choice);
            && (effect.Puts? && effect.id !in rows ==>
                  pc.Telling? && pc.notice == Notice(effect.id, effect.row.severity, Created))
            && (rec.pc.Rereading? && Target(rec) in rows ==>
                  pc.Telling? && pc.notice == Notice(Target(rec), rows[Target(rec)].severity, Reopened))
            && (rec.pc.Resolving? && effect.Puts? ==>
                  effect.id in rec.pc.todo && pc.TellingClosed?
                  && pc.notice == Notice(effect.id, rec.pc.todo[effect.id].severity, Resolved))
            && (effect.Says? <==> rec.pc.Telling? || rec.pc.TellingClosed?)
            && (effect.Says? ==> effect.notice == rec.pc.notice)
  {
  }

  // ---- Notifications of human decisions ----

  /** What one call told the observer. */
  function ToldByCall(log: seq<Entry>, call: Id): seq<Notice> {
    if log == [] then []
    else
      var last := log[|log| - 1];
      ToldByCall(log[..|log| - 1], call) + if last.author == ByCall(call) then [last.notice] else []
  }

  lemma CallToldOneMore(log: seq<Entry>, e: Entry, call: Id)
    ensures ToldByCall(log + [e], call) == ToldByCall(log, call) + if e.author == ByCall(call) then [e.notice] else []
  {
    assert (log + [e])[..|log|] == log;
  }

  /** A decision that took effect: nothing is told before it is answered, and exactly that change of that finding after. */
  predicate TellsOnce(w: World, call: Id, id: FindingId, change: Change) {
    && call in w.calls && id in w.rows
    && var told := ToldByCall(w.log, call);
       match w.calls[call]
       case Written(id', change') => id' == id && change' == change && told == []
       case Read(notice) => notice.id == id && notice.change == change && told == []
       case Answered => |told| == 1 && told[0].id == id && told[0].change == change
  }

  /** An action tells at most one notice, and in its own name. */
  predicate TellsInItsName(a: Action, log: seq<Entry>, log': seq<Entry>) {
    || log' == log
    || (|log'| == |log| + 1 && log' == log + [log'[|log|]]
        && ((a.Step? && log'[|log|].author == ByRun(a.run)) || (a.Answer? && log'[|log|].author == ByCall(a.call))))
  }

  lemma ActionTellsInItsName(w: World, a: Action)
    requires Enabled(w, a)
    ensures TellsInItsName(a, w.log, Apply(w, a).log)
  {
  }

  lemma OthersTellNoCall(a: Action, log: seq<Entry>, log': seq<Entry>, call: Id)
    requires TellsInItsName(a, log, log') && a != Answer(call)
    ensures ToldByCall(log', call) == ToldByCall(log, call)
  {
    if log' != log {
      CallToldOneMore(log, log'[|log|], call);
    }
  }

  lemma OthersKeepCall(w: World, a: Action, call: Id)
    requires Enabled(w, a) && call in w.calls && a != Answer(call)
    ensures call in Apply(w, a).calls && Apply(w, a).calls[call] == w.calls[call]
  {
  }

  lemma OthersLeaveCall(w: World, a: Action, call: Id)
    requires Enabled(w, a) && call in w.calls && a != Answer(call)
    ensures var w' := Apply(w, a);
            call in w'.calls && w'.calls[call] == w.calls[call] && ToldByCall(w'.log, call) == ToldByCall(w.log, call)
  {
    OthersKeepCall(w, a, call);
    ActionTellsInItsName(w, a);
    OthersTellNoCall(a, w.log, Apply(w, a).log, call);
  }

  lemma AnswerTells(w: World, call: Id, id: FindingId, change: Change)
    requires Enabled(w, Answer(call)) && TellsOnce(w, call, id, change)
    ensures TellsOnce(Apply(w, Answer(call)), call, id, change)
  {
    if w.calls[call].Read? {
      CallToldOneMore(w.log, Entry(ByCall(call), w.calls[call].notice), call);
    }
  }

  lemma TellsOnceNext(w: World, a: Action, call: Id, id: FindingId, change: Change)
    requires Inv(w) && Enabled(w, a) && TellsOnce(w, call, id, change)
    ensures TellsOnce(Apply(w, a), call, id, change)
  {
    if a == Answer(call) {
      AnswerTells(w, call, id, change);
    } else {
      OthersLeaveCall(w, a, call);
      ActionKeeps(w, a, id);
    }
  }

  /** The decision is made by this action, and takes effect. */
  ghost predicate DecidesBy(w: World, a: Action, call: Id, id: FindingId, change: Change) {
    && Enabled(w, a) && id in w.rows
    && match a
       case AskSuppress(c, f, note, actor) => c == call && f == id && change == Suppressed && !IsBlank(note) && !IsBlank(actor)
       case AskReopen(c, f) => c == call && f == id && change == Reopened
       case _ => false
  }

  /** A call that has not been made has told nothing. */
  predicate Unheard(w: World, call: Id) {
    call !in w.calls ==> ToldByCall(w.log, call) == []
  }

  lemma UnheardNext(w: World, a: Action, call: Id)
    requires Enabled(w, a) && Unheard(w, call)
    ensures Unheard(Apply(w, a), call)
  {
    ActionTellsInItsName(w, a);
    if a != Answer(call) {
      OthersTellNoCall(a, w.log, Apply(w, a).log, call);
    }
  }

  lemma {:induction false} NothingToldBefore(states: seq<World>, actions: seq<Action>, i: nat, call: Id)
    requires Execution(states, actions) && i < |states|
    ensures Unheard(states[i], call)
  {
    if i > 0 {
      NothingToldBefore(states, actions, i - 1, call);
      UnheardNext(states[i - 1], actions[i - 1], call);
    }
  }

  /** A suppression or reopening that takes effect is announced exactly once, when its call is answered. */
  lemma {:induction false} DecisionsAreTold(states: seq<World>, actions: seq<Action>, j: nat, i: nat, call: Id, id: FindingId, change: Change)
    requires Execution(states, actions) && j < i < |states| && DecidesBy(states[j], actions[j], call, id, change)
    ensures TellsOnce(states[i], call, id, change)
    decreases i
  {
    if i == j + 1 {
      NothingToldBefore(states, actions, j, call);
    } else {
      DecisionsAreTold(states, actions, j, i - 1, call, id, change);
      InvAlways(states, actions, i - 1);
      TellsOnceNext(states[i - 1], actions[i - 1], call, id, change);
    }
  }
}
