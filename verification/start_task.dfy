/**
 * The `vibe:start-task {name}` command of
 * packages/vibe/src/Commands/StartTaskCommand.php: register a new task for a coding
 * agent in the task file and make it the current one.
 *
 * The task file is its decoded content (`None` when the file does not exist);
 * `Str::slug` is a parameter.
 */
module StartTask {
  import opened Options

  /** The task states of packages/vibe/src/TaskStates.php. */
  datatype TaskState = InProgress | Parked | Canceled | Completed

  function StateName(s: TaskState): string
  {
    match s
    case InProgress => "in-progress"
    case Parked => "parked"
    case Canceled => "canceled"
    case Completed => "completed"
  }

  /** `TaskStates::tryFrom`: the state with the given backing value, if any. */
  function ParseState(name: string): (r: Option<TaskState>)
    ensures r.Some? ==> StateName(r.value) == name
  {
    if name == "in-progress" then Some(InProgress)
    else if name == "parked" then Some(Parked)
    else if name == "canceled" then Some(Canceled)
    else if name == "completed" then Some(Completed)
    else None
  }

  lemma StateRoundTrip(s: TaskState)
    ensures ParseState(StateName(s)) == Some(s)
  {
  }

  /** The decoded task file: each task's state by key, and the current task's key. */
  datatype TaskFile = TaskFile(tasks: map<string, TaskState>, current: Option<string>)

  /** The current task, when there is one, is a registered task. */
  predicate CurrentIsRegistered(f: TaskFile) {
    f.current.Some? ==> f.current.value in f.tasks
  }

  datatype ExitCode = Success | Failure

  /**
   * `handle` (lines 18-47). The task key is the slug of the name. Without a task
   * file, a file holding just this task, in progress and current, is written. A key
   * already registered is refused and the file is left alone. Otherwise the task is
   * added in progress and becomes current.
   */
  function StartTask(file: Option<TaskFile>, name: string, slug: string -> string): (r: (ExitCode, Option<TaskFile>))
    ensures r.0 == Failure <==> file.Some? && slug(name) in file.value.tasks
    ensures r.0 == Failure ==> r.1 == file
    ensures file.None? ==> r.1 == Some(TaskFile(map[slug(name) := InProgress], Some(slug(name))))
    ensures r.0 == Success ==> r.1.Some? && r.1.value.current == Some(slug(name))
    ensures r.0 == Success ==> slug(name) in r.1.value.tasks && r.1.value.tasks[slug(name)] == InProgress
    ensures r.0 == Success && file.Some? ==>
              && r.1.value.tasks.Keys == file.value.tasks.Keys + {slug(name)}
              && forall k :: k in file.value.tasks ==> r.1.value.tasks[k] == file.value.tasks[k]
  {
    var key := slug(name);
    match file
    case None => (Success, Some(TaskFile(map[key := InProgress], Some(key))))
    case Some(f) =>
      if key in f.tasks then (Failure, file)
      else (Success, Some(TaskFile(f.tasks[key := InProgress], Some(key))))
  }

  /** Starting a task never removes a task or changes another task's state. */
  lemma NothingElseChanges(file: Option<TaskFile>, name: string, slug: string -> string)
    requires file.Some?
    ensures var after := StartTask(file, name, slug).1;
      && after.Some?
      && file.value.tasks.Keys <= after.value.tasks.Keys
      && forall k :: k in file.value.tasks ==> after.value.tasks[k] == file.value.tasks[k]
  {
  }

  /** Every run leaves a file whose current task is registered, if the file it found had one. */
  lemma KeepsCurrentRegistered(file: Option<TaskFile>, name: string, slug: string -> string)
    requires file.Some? ==> CurrentIsRegistered(file.value)
    ensures StartTask(file, name, slug).1.Some? ==> CurrentIsRegistered(StartTask(file, name, slug).1.value)
  {
  }

  /**
   * Names are compared by slug: once one name has started a task, any name with
   * the same slug is refused.
   */
  lemma SameSlugIsRefused(file: Option<TaskFile>, first: string, second: string, slug: string -> string)
    requires slug(first) == slug(second)
    requires StartTask(file, first, slug).0 == Success
    ensures StartTask(StartTask(file, first, slug).1, second, slug).0 == Failure
    ensures StartTask(StartTask(file, first, slug).1, second, slug).1 == StartTask(file, first, slug).1
  {
  }

  /** Starting tasks under different slugs one after the other keeps both, the later one current. */
  lemma TwoTasksInARow(first: string, second: string, slug: string -> string)
    requires slug(first) != slug(second)
    ensures var after := StartTask(StartTask(None, first, slug).1, second, slug);
      && after.0 == Success
      && after.1.Some? && after.1.value.tasks.Keys == {slug(first), slug(second)}
      && after.1.value.current == Some(slug(second))
  {
  }
}
