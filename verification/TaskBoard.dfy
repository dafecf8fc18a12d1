/**
 Concurrent task updates and deletions (task.service.ts): every call reads the task,
 checks the transition, writes under a guard on the status it read, and reports a
 status change. One action is one database call or one emitted event.
 */
module TaskBoard {
  import opened Common

  type Id = nat

  datatype Status = PENDING | DEVELOPING | TESTING | DEPLOYED | COMPLETED | CANCELLED

  function Transitions(s: Status): set<Status> {
    match s
    case PENDING => {DEVELOPING, CANCELLED}
    case DEVELOPING => {TESTING, CANCELLED}
    case TESTING => {DEVELOPING, DEPLOYED, COMPLETED, CANCELLED}
    case DEPLOYED => {DEVELOPING, COMPLETED, CANCELLED}
    case COMPLETED => {}
    case CANCELLED => {}
  }

  /** The table read backwards: from where each status is reached. */
  lemma TransitionsInto(s: Status, target: Status)
    ensures target in Transitions(s) <==>
              match target
              case PENDING => false
              case DEVELOPING => s == PENDING || s == TESTING || s == DEPLOYED
              case TESTING => s == DEVELOPING
              case DEPLOYED => s == TESTING
              case COMPLETED => s == TESTING || s == DEPLOYED
              case CANCELLED => s != COMPLETED && s != CANCELLED
  {
  }

  datatype Task = Task(status: Status, deletedAt: Option<nat>, title: string, lastOperator: string)

  type Table = map<Id, Task>

  /** An update: the wanted status and title, both optional. */
  datatype Request = Request(task: Id, status: Option<Status>, title: Option<string>, operator: string)

  datatype Outcome = Updated | NotFound | Deleted | InvalidTransition | Raced

  /** What the prior read found and decided: the guard of the write and the status it sets. */
  datatype Plan = Unguarded | Guarded(previous: Status, next: Status)

  /** Progress of `updateTask`. */
  datatype Pc =
    | Begun
    | Planned(plan: Plan)
    | Missed
    | Written(plan: Plan)
    | Reread(plan: Plan)
    | Ended(outcome: Outcome)

  datatype Call = Call(request: Request, pc: Pc)

  /** TASK_STATUS_CHANGED_EVENT, with the call that emitted it. */
  datatype Event = Event(call: Id, task: Id, previous: Status, status: Status, operator: string)

  datatype World = World(tasks: Table, calls: map<Id, Call>, log: seq<Event>)

  datatype Action =
    | Create(task: Id, status: Status, title: string)
    | Begin(call: Id, request: Request)
    | Step(call: Id)
    | Delete(task: Id, now: nat, operator: string)

  datatype Effect = Nothing | Puts(task: Id, row: Task) | Emits(previous: Status, status: Status)

  /** The guarded or unguarded UPDATE matches the row. */
  predicate Matches(tasks: Table, request: Request, plan: Plan) {
    && request.task in tasks
    && (plan.Guarded? ==> tasks[request.task].status == plan.previous && tasks[request.task].deletedAt.None?)
  }

  function Patched(task: Task, request: Request, plan: Plan): Task {
    task.(title := request.title.GetOr(task.title),
          status := if plan.Guarded? then plan.next else task.status,
          lastOperator := request.operator)
  }

  function Advance(c: Call, tasks: Table): (Pc, Effect)
    requires !c.pc.Ended?
  {
    var id := c.request.task;
    match c.pc
    case Begun =>
      if c.request.status.None? then (Planned(Unguarded), Nothing)
      else if id !in tasks then (Ended(NotFound), Nothing)
      else if tasks[id].deletedAt.Some? then (Ended(Deleted), Nothing)
      else if tasks[id].status != c.request.status.value && c.request.status.value !in Transitions(tasks[id].status)
        then (Ended(InvalidTransition), Nothing)
      else (Planned(Guarded(tasks[id].status, c.request.status.value)), Nothing)
    case Planned(plan) =>
      if Matches(tasks, c.request, plan) then (Written(plan), Puts(id, Patched(tasks[id], c.request, plan)))
      else (Missed, Nothing)
    case Missed => (Ended(if id in tasks && tasks[id].deletedAt.None? then Raced else NotFound), Nothing)
    case Written(plan) => (Reread(plan), Nothing)
    case Reread(plan) =>
      (Ended(Updated), if plan.Guarded? && plan.next != plan.previous then Emits(plan.previous, plan.next) else Nothing)
  }

  predicate Enabled(w: World, a: Action) {
    match a
    case Create(task, _, _) => task !in w.tasks
    case Begin(call, _) => call !in w.calls
    case Step(call) => call in w.calls && !w.calls[call].pc.Ended?
    case Delete(task, _, _) => task in w.tasks
  }

  function AfterEffect(w: World, call: Id, pc: Pc, effect: Effect): World
    requires call in w.calls
  {
    var request := w.calls[call].request;
    w.(calls := w.calls[call := w.calls[call].(pc := pc)],
       tasks := TasksAfter(w.tasks, effect),
       log := if effect.Emits? then w.log + [Event(call, request.task, effect.previous, effect.status, request.operator)] else w.log)
  }

  function TasksAfter(tasks: Table, effect: Effect): Table {
    if effect.Puts? then tasks[effect.task := effect.row] else tasks
  }

  function Apply(w: World, a: Action): World
    requires Enabled(w, a)
  {
    match a
    case Create(task, status, title) => w.(tasks := w.tasks[task := Task(status, None, title, "")])
    case Begin(call, request) => w.(calls := w.calls[call := Call(request, Begun)])
    case Step(call) =>
      var (pc, effect) := Advance(w.calls[call], w.tasks);
      AfterEffect(w, call, pc, effect)
    case Delete(task, now, operator) =>
      w.(tasks := w.tasks[task := w.tasks[task].(deletedAt := Some(now), lastOperator := operator)])
  }

  ghost predicate Init(w: World) {
    w.tasks == map[] && w.calls == map[] && w.log == []
  }

  ghost predicate Execution(states: seq<World>, actions: seq<Action>) {
    && |states| == |actions| + 1 && Init(states[0])
    && forall i :: 0 <= i < |actions| ==> Enabled(states[i], actions[i]) && states[i + 1] == Apply(states[i], actions[i])
  }

  /** What is written: a new task has the given status and title, and a deletion sets its time and operator only. */
  lemma CreateAndDeleteWrite(w: World, task: Id, status: Status, title: string, now: nat, operator: string)
    ensures task !in w.tasks ==>
              Apply(w, Create(task, status, title)).tasks == w.tasks[task := Task(status, None, title, "")]
    ensures task in w.tasks ==>
              var tasks' := Apply(w, Delete(task, now, operator)).tasks;
              && tasks'.Keys == w.tasks.Keys && (forall other :: other in w.tasks && other != task ==> tasks'[other] == w.tasks[other])
              && tasks'[task] == Task(w.tasks[task].status, Some(now), w.tasks[task].title, operator)
  {
  }

  /** The write of an update: its title if it has one, its status if it was checked, and its operator. */
  lemma UpdateWrites(w: World, call: Id)
    requires Enabled(w, Step(call))
    ensures var (c, tasks') := (w.calls[call], Apply(w, Step(call)).tasks);
            if c.pc.Planned? && Matches(w.tasks, c.request, c.pc.plan)
            then var task := w.tasks[c.request.task];
                 && tasks'.Keys == w.tasks.Keys
                 && (forall other :: other in w.tasks && other != c.request.task ==> tasks'[other] == w.tasks[other])
                 && tasks'[c.request.task] ==
                    Task(if c.pc.plan.Guarded? then c.pc.plan.next else task.status, task.deletedAt,
                         if c.request.title.Some? then c.request.title.value else task.title, c.request.operator)
            else tasks' == w.tasks
  {
  }

  /** How a call can end, and what it then met. */
  lemma OutcomesTell(w: World, call: Id)
    requires Enabled(w, Step(call)) && Apply(w, Step(call)).calls[call].pc.Ended?
    ensures var (c, outcome) := (w.calls[call], Apply(w, Step(call)).calls[call].pc.outcome);
            var there := c.request.task in w.tasks && w.tasks[c.request.task].deletedAt == None;
            match outcome
            case Updated => c.pc.Reread?
            case NotFound => if c.pc.Begun? then c.request.task !in w.tasks else c.pc.Missed? && !there
            case Deleted => c.pc.Begun? && c.request.task in w.tasks && !there
            case InvalidTransition =>
              c.pc.Begun? && there && c.request.status.Some? && c.request.status.value != w.tasks[c.request.task].status
              && c.request.status.value !in Transitions(w.tasks[c.request.task].status)
            case Raced => c.pc.Missed? && there
  {
  }

  /** When the first check refuses a request for a status, and with which outcome. */
  lemma RefusedIff(w: World, call: Id)
    requires Enabled(w, Step(call)) && w.calls[call].pc.Begun? && w.calls[call].request.status.Some?
    ensures var (request, pc) := (w.calls[call].request, Apply(w, Step(call)).calls[call].pc);
            && (pc == Ended(NotFound) <==> request.task !in w.tasks)
            && (pc == Ended(Deleted) <==> request.task in w.tasks && w.tasks[request.task].deletedAt != None)
            && (request.task in w.tasks && w.tasks[request.task].deletedAt == None ==>
                  var (now, wanted) := (w.tasks[request.task].status, request.status.value);
                  pc == if wanted == now || wanted in Transitions(now) then Planned(Guarded(now, wanted)) else Ended(InvalidTransition))
  {
  }

  /** An event names the operator of the call it reports. */
  lemma EventsNameTheirCall(w: World, call: Id)
    requires Enabled(w, Step(call))
    ensures var (w', c) := (Apply(w, Step(call)), w.calls[call]);
            || w'.log == w.log
            || (c.pc.Reread? && c.pc.plan.Guarded? && c.pc.plan.next != c.pc.plan.previous
                && w'.log == w.log + [Event(call, c.request.task, c.pc.plan.previous, c.pc.plan.next, c.request.operator)])
    ensures w.calls[call].pc.Reread? && w.calls[call].pc.plan.Guarded? && w.calls[call].pc.plan.next != w.calls[call].pc.plan.previous ==>
              Apply(w, Step(call)).log != w.log
  {
  }

  // ---- The invariant ----

  /** A plan only ever holds a transition of the table. */
  predicate PlanOk(plan: Plan) {
    plan.Guarded? ==> plan.next == plan.previous || plan.next in Transitions(plan.previous)
  }

  predicate CallOk(c: Call, tasks: Table) {
    && (c.pc.Planned? || c.pc.Written? || c.pc.Reread? ==> PlanOk(c.pc.plan))
    && (c.pc.Written? || c.pc.Reread? ==> c.request.task in tasks)
  }

  ghost predicate Inv(w: World) {
    forall call :: call in w.calls ==> CallOk(w.calls[call], w.tasks)
  }

  lemma StepKeepsCalls(w: World, call: Id)
    requires Inv(w) && Enabled(w, Step(call))
    ensures Inv(Apply(w, Step(call)))
  {
    var w' := Apply(w, Step(call));
    assert CallOk(w.calls[call], w.tasks);
    forall other | other in w'.calls ensures CallOk(w'.calls[other], w'.tasks) {
      assert CallOk(w.calls[other], w.tasks);
    }
  }

  lemma {:induction false} InvAlways(states: seq<World>, actions: seq<Action>, i: nat)
    requires Execution(states, actions) && i < |states|
    ensures Inv(states[i])
  {
    if i > 0 {
      InvAlways(states, actions, i - 1);
      if actions[i - 1].Step? {
        StepKeepsCalls(states[i - 1], actions[i - 1].call);
      } else {
        forall call | call in states[i].calls ensures CallOk(states[i].calls[call], states[i].tasks) {
          assert call in states[i - 1].calls ==> CallOk(states[i - 1].calls[call], states[i - 1].tasks);
        }
      }
    }
  }

  // ---- Statuses ----

  /** One action moves a task along the table or not at all, and never once it is deleted. */
  predicate MovesLegally(tasks: Table, tasks': Table, id: Id) {
    id in tasks ==>
      && id in tasks'
      && (tasks'[id].status == tasks[id].status
          || (tasks'[id].status in Transitions(tasks[id].status) && tasks[id].deletedAt.None?))
      && (tasks[id].deletedAt.Some? ==> tasks'[id].deletedAt.Some?)
  }

  lemma ActionMovesLegally(w: World, a: Action, id: Id)
    requires Inv(w) && Enabled(w, a)
    ensures MovesLegally(w.tasks, Apply(w, a).tasks, id)
  {
    if a.Step? {
      assert CallOk(w.calls[a.call], w.tasks);
    }
  }

  /** The statuses a task had, from state `i` to state `j`. */
  ghost function StatusPath(states: seq<World>, id: Id, i: nat, j: nat): seq<Status>
    requires i <= j < |states| && forall k :: i <= k <= j ==> id in states[k].tasks
  {
    seq(j - i + 1, k requires 0 <= k < j - i + 1 => states[i + k].tasks[id].status)
  }

  ghost predicate IsPath(path: seq<Status>) {
    forall k :: 0 <= k < |path| - 1 ==> path[k + 1] == path[k] || path[k + 1] in Transitions(path[k])
  }

  lemma {:induction false} TaskStays(states: seq<World>, actions: seq<Action>, i: nat, j: nat, id: Id)
    requires Execution(states, actions) && i <= j < |states| && id in states[i].tasks
    ensures forall k :: i <= k <= j ==> id in states[k].tasks
    decreases j
  {
    if i < j {
      TaskStays(states, actions, i, j - 1, id);
      InvAlways(states, actions, j - 1);
      ActionMovesLegally(states[j - 1], actions[j - 1], id);
    }
  }

  /** In every interleaving the committed statuses of a task form a path in the transition table. */
  lemma StatusesFormAPath(states: seq<World>, actions: seq<Action>, i: nat, j: nat, id: Id)
    requires Execution(states, actions) && i <= j < |states| && id in states[i].tasks
    ensures forall k :: i <= k <= j ==> id in states[k].tasks
    ensures IsPath(StatusPath(states, id, i, j))
  {
    TaskStays(states, actions, i, j, id);
    var path := StatusPath(states, id, i, j);
    forall k | 0 <= k < |path| - 1 ensures path[k + 1] == path[k] || path[k + 1] in Transitions(path[k]) {
      InvAlways(states, actions, i + k);
      ActionMovesLegally(states[i + k], actions[i + k], id);
    }
  }

  /** Completed, cancelled and deleted tasks keep their status for good; a deletion is never undone. */
  lemma {:induction false} FinalStatusStays(states: seq<World>, actions: seq<Action>, i: nat, j: nat, id: Id)
    requires Execution(states, actions) && i <= j < |states| && id in states[i].tasks
    requires states[i].tasks[id].status == COMPLETED || states[i].tasks[id].status == CANCELLED || states[i].tasks[id].deletedAt.Some?
    ensures id in states[j].tasks && states[j].tasks[id].status == states[i].tasks[id].status
    ensures states[i].tasks[id].deletedAt.Some? ==> states[j].tasks[id].deletedAt.Some?
    decreases j
  {
    if i < j {
      FinalStatusStays(states, actions, i, j - 1, id);
      InvAlways(states, actions, j - 1);
      ActionMovesLegally(states[j - 1], actions[j - 1], id);
    }
  }

  /** Work that is not tested yet. */
  predicate Untested(s: Status) {
    s == PENDING || s == DEVELOPING
  }

  /** Nothing is deployed or completed without a test: in between the task was TESTING. */
  lemma {:induction false} NoneSkipsTesting(states: seq<World>, actions: seq<Action>, j: nat, i: nat, id: Id) returns (k: nat)
    requires Execution(states, actions) && j <= i < |states| && id in states[j].tasks && Untested(states[j].tasks[id].status)
    requires id in states[i].tasks && (states[i].tasks[id].status == DEPLOYED || states[i].tasks[id].status == COMPLETED)
    ensures j < k < i && id in states[k].tasks && states[k].tasks[id].status == TESTING
    decreases i - j
  {
    InvAlways(states, actions, j);
    ActionMovesLegally(states[j], actions[j], id);
    TransitionsInto(states[j].tasks[id].status, states[j + 1].tasks[id].status);
    if Untested(states[j + 1].tasks[id].status) {
      k := NoneSkipsTesting(states, actions, j + 1, i, id);
    } else {
      if states[j + 1].tasks[id].status == CANCELLED {
        FinalStatusStays(states, actions, j + 1, i, id);
      }
      k := j + 1;
    }
  }

  // ---- Events ----

  /** A change of status, read off two tables. */
  datatype Move = Move(task: Id, previous: Status, status: Status)

  function MoveOf(tasks: Table, tasks': Table, id: Id): seq<Move> {
    if id in tasks && id in tasks' && tasks[id].status != tasks'[id].status
    then [Move(id, tasks[id].status, tasks'[id].status)] else []
  }

  /** The changes one call made to a task during the first `n` actions. */
  ghost function MovesBy(states: seq<World>, actions: seq<Action>, n: nat, call: Id, id: Id): seq<Move>
    requires n <= |actions| < |states|
  {
    if n == 0 then []
    else MovesBy(states, actions, n - 1, call, id) +
         if actions[n - 1] == Step(call) then MoveOf(states[n - 1].tasks, states[n].tasks, id) else []
  }

  function EventsBy(log: seq<Event>, call: Id, id: Id): seq<Move> {
    if log == [] then []
    else
      var last := log[|log| - 1];
      EventsBy(log[..|log| - 1], call, id) +
      if last.call == call && last.task == id then [Move(id, last.previous, last.status)] else []
  }

  /** The change a call has committed and not yet announced. */
  function Owed(c: Call, id: Id): seq<Move> {
    if (c.pc.Written? || c.pc.Reread?) && c.pc.plan.Guarded? && c.pc.plan.next != c.pc.plan.previous && c.request.task == id
    then [Move(id, c.pc.plan.previous, c.pc.plan.next)] else []
  }

  function OwedBy(w: World, call: Id, id: Id): seq<Move> {
    if call in w.calls then Owed(w.calls[call], id) else []
  }

  function SaidOf(c: Call, effect: Effect, id: Id): seq<Move> {
    if effect.Emits? && c.request.task == id then [Move(id, effect.previous, effect.status)] else []
  }

  /** A step commits a change and owes its event, or emits the event it owes. */
  lemma StepBalances(c: Call, tasks: Table, id: Id)
    requires !c.pc.Ended?
    ensures var (pc, effect) := Advance(c, tasks);
            Owed(c, id) + MoveOf(tasks, TasksAfter(tasks, effect), id) == SaidOf(c, effect, id) + Owed(c.(pc := pc), id)
  {
  }

  lemma EventsOneMore(log: seq<Event>, e: Event, call: Id, id: Id)
    ensures EventsBy(log + [e], call, id)
         == EventsBy(log, call, id) + if e.call == call && e.task == id then [Move(id, e.previous, e.status)] else []
  {
    assert (log + [e])[..|log|] == log;
  }

  lemma ActionBalances(w: World, a: Action, w': World, call: Id, id: Id)
    requires Enabled(w, a) && w' == Apply(w, a)
    ensures EventsBy(w'.log, call, id) + OwedBy(w', call, id)
         == EventsBy(w.log, call, id) + OwedBy(w, call, id) + if a == Step(call) then MoveOf(w.tasks, w'.tasks, id) else []
  {
    if |w'.log| > |w.log| {
      EventsOneMore(w.log, w'.log[|w.log|], call, id);
    }
    if a == Step(call) {
      var c := w.calls[call];
      StepBalances(c, w.tasks, id);
      var (pc, effect) := Advance(c, w.tasks);
      var said, owed, owed', move := EventsBy(w.log, call, id), Owed(c, id), Owed(c.(pc := pc), id), MoveOf(w.tasks, w'.tasks, id);
      assert (said + owed) + move == said + (owed + move);
      assert (said + SaidOf(c, effect, id)) + owed' == said + (SaidOf(c, effect, id) + owed');
    }
  }

  lemma BalancesNext(states: seq<World>, actions: seq<Action>, n: nat, call: Id, id: Id)
    requires Execution(states, actions) && n < |actions|
    ensures EventsBy(states[n + 1].log, call, id) + OwedBy(states[n + 1], call, id)
         == EventsBy(states[n].log, call, id) + OwedBy(states[n], call, id)
          + if actions[n] == Step(call) then MoveOf(states[n].tasks, states[n + 1].tasks, id) else []
  {
    ActionBalances(states[n], actions[n], states[n + 1], call, id);
  }

  /**
   The status-changed events of a call are exactly the changes it committed, but for at
   most one whose event is still to come.
   */
  lemma {:induction false} EventsAreTheMoves(states: seq<World>, actions: seq<Action>, n: nat, call: Id, id: Id)
    requires Execution(states, actions) && n < |states|
    ensures EventsBy(states[n].log, call, id) + OwedBy(states[n], call, id) == MovesBy(states, actions, n, call, id)
  {
    if n > 0 {
      EventsAreTheMoves(states, actions, n - 1, call, id);
      BalancesNext(states, actions, n - 1, call, id);
    }
  }

  /** Only updates change a status: an action that does is a step of a call on that very task. */
  lemma OnlyUpdatesMove(w: World, a: Action, id: Id)
    requires Enabled(w, a) && MoveOf(w.tasks, Apply(w, a).tasks, id) != []
    ensures a.Step? && w.calls[a.call].request.task == id && w.calls[a.call].pc.Planned?
  {
  }

  /** The call's UPDATE has matched. */
  predicate Wrote(pc: Pc) {
    pc.Written? || pc.Reread? || pc == Ended(Updated)
  }

  /** A call changes a status at most in the step in which its UPDATE matches. */
  lemma StepMovesOnce(c: Call, tasks: Table, id: Id)
    requires !c.pc.Ended?
    ensures var (pc, effect) := Advance(c, tasks);
            var moves := MoveOf(tasks, TasksAfter(tasks, effect), id);
            |moves| <= 1 && (moves != [] ==> !Wrote(c.pc) && Wrote(pc)) && (Wrote(c.pc) ==> Wrote(pc))
  {
  }

  lemma ActionMovesOnce(w: World, a: Action, w': World, call: Id, id: Id)
    requires Enabled(w, a) && w' == Apply(w, a) && call in w.calls
    ensures call in w'.calls && (Wrote(w.calls[call].pc) ==> Wrote(w'.calls[call].pc))
    ensures a == Step(call) ==>
              var moves := MoveOf(w.tasks, w'.tasks, id);
              |moves| <= 1 && (moves != [] ==> !Wrote(w.calls[call].pc) && Wrote(w'.calls[call].pc))
  {
    if a == Step(call) {
      StepMovesOnce(w.calls[call], w.tasks, id);
    }
  }

  /** A call that is refused or loses the race has changed no status; no call changes more than one. */
  lemma {:induction false} LosersChangeNothing(states: seq<World>, actions: seq<Action>, n: nat, call: Id, id: Id)
    requires Execution(states, actions) && n < |states| && call in states[n].calls
    ensures !Wrote(states[n].calls[call].pc) ==> MovesBy(states, actions, n, call, id) == []
    ensures |MovesBy(states, actions, n, call, id)| <= 1
  {
    if n > 0 {
      if call in states[n - 1].calls {
        LosersChangeNothing(states, actions, n - 1, call, id);
        ActionMovesOnce(states[n - 1], actions[n - 1], states[n], call, id);
      } else {
        NoCallNoMoves(states, actions, n - 1, call, id);
      }
    }
  }

  lemma {:induction false} NoCallNoMoves(states: seq<World>, actions: seq<Action>, n: nat, call: Id, id: Id)
    requires Execution(states, actions) && n < |states| && call !in states[n].calls
    ensures MovesBy(states, actions, n, call, id) == []
  {
    if n > 0 {
      NoCallNoMoves(states, actions, n - 1, call, id);
    }
  }
}
