/**
 TaskService as an object over its table, one caller at a time (task.service.ts). What
 concurrent callers can do to each other is the subject of TaskBoard.
 */
module TaskService {
  import opened Common
  import opened TaskBoard

  /** A status change as announced to the event emitter. */
  datatype Announcement = Announcement(task: Id, previous: Status, status: Status, operator: string)

  /** The request asks for a status the task can take. */
  predicate Allowed(task: Task, request: Request) {
    request.status.Some? ==>
      task.deletedAt.None? && (request.status.value == task.status || request.status.value in Transitions(task.status))
  }

  function AnnouncementOf(before: Task, after: Task, request: Request): seq<Announcement> {
    if before.status == after.status then [] else [Announcement(request.task, before.status, after.status, request.operator)]
  }

  class TaskService {
    var tasks: Table
    var announced: seq<Announcement>

    constructor ()
      ensures tasks == map[] && announced == []
    {
      tasks, announced := map[], [];
    }

    /**
     Accepted exactly when the task exists and the wanted status, if any, is the
     current one or a transition of a task that is not deleted. Undisturbed, the guarded
     write never misses, and a change is announced exactly when there is one.
     */
    method UpdateTask(request: Request) returns (r: Result<Task, Outcome>)
      modifies this
      ensures r.Ok? <==> request.task in old(tasks) && Allowed(old(tasks)[request.task], request)
      ensures r.Err? ==> tasks == old(tasks) && announced == old(announced) && r.error != Raced
      ensures r == Err(NotFound) <==> request.task !in old(tasks)
      ensures r == Err(Deleted) <==> request.task in old(tasks) && request.status.Some? && old(tasks)[request.task].deletedAt.Some?
      ensures r.Ok? ==> tasks == old(tasks)[request.task := r.value]
      ensures r.Ok? ==> r.value.status == request.status.GetOr(old(tasks)[request.task].status)
                        && r.value.title == request.title.GetOr(old(tasks)[request.task].title)
                        && r.value.deletedAt == old(tasks)[request.task].deletedAt && r.value.lastOperator == request.operator
      ensures r.Ok? ==> announced == old(announced) + AnnouncementOf(old(tasks)[request.task], r.value, request)
    {
      var plan := Unguarded;
      if request.status.Some? {
        if request.task !in tasks {
          return Err(NotFound);
        }
        var current := tasks[request.task];
        if current.deletedAt.Some? {
          return Err(Deleted);
        }
        if current.status != request.status.value && request.status.value !in Transitions(current.status) {
          return Err(InvalidTransition);
        }
        plan := Guarded(current.status, request.status.value);
      }
      if !Matches(tasks, request, plan) {
        var outcome := ExplainMiss(request.task);
        return Err(outcome);
      }
      var updated := Patched(tasks[request.task], request, plan);
      tasks := tasks[request.task := updated];
      if plan.Guarded? && plan.next != plan.previous {
        announced := announced + [Announcement(request.task, plan.previous, plan.next, request.operator)];
      }
      r := Ok(updated);
    }

    /** Tells a missing or deleted task from one that was changed meanwhile. */
    method ExplainMiss(task: Id) returns (outcome: Outcome)
      ensures outcome == if task in tasks && tasks[task].deletedAt.None? then Raced else NotFound
    {
      outcome := if task in tasks && tasks[task].deletedAt.None? then Raced else NotFound;
    }

    /** Deleting keeps the status; deleting again renews the time. */
    method DeleteTask(task: Id, now: nat, operator: string) returns (r: Result<Task, Outcome>)
      modifies this`tasks
      ensures r.Ok? <==> task in old(tasks)
      ensures r.Ok? ==> tasks == old(tasks)[task := r.value]
      ensures r.Ok? ==> r.value == old(tasks)[task].(deletedAt := Some(now), lastOperator := operator)
      ensures r.Err? ==> r.error == NotFound && tasks == old(tasks)
    {
      if task !in tasks {
        return Err(NotFound);
      }
      tasks := tasks[task := tasks[task].(deletedAt := Some(now), lastOperator := operator)];
      r := Ok(tasks[task]);
    }
  }
}
