/**
 * The platform store (client/src/context/PlatformContext.tsx): the state
 * shared by the pages, its action union and the reducer. The reducer never
 * changes a state in place; every branch builds a new one.
 */
module Platform {
  import opened Wrappers
  import opened Domain

  datatype State = State(
    project: seq<Project>,
    tasks: seq<Task>,
    loading: bool,
    error: Option<string>)

  /** The action union. There is no action that removes a task or a project. */
  datatype Action =
    | SetProjects(projects: seq<Project>)
    | SetLoading(isLoading: bool)
    | SetError(message: string)
    | AddProject(newProject: Project)
    | SetTasks(newTasks: seq<Task>)
    | AddTask(newTask: Task)
    | UpdateTask(updated: Task)

  function InitialState(): (r: State)
    ensures r.project == [] && r.tasks == []
    ensures !r.loading && r.error == None
  {
    State([], [], false, None)
  }

  /** `tasks.map(task => task.id === payload.id ? payload : task)` */
  function ReplaceById(tasks: seq<Task>, payload: Task): (r: seq<Task>)
    ensures |r| == |tasks|
    ensures forall i :: 0 <= i < |tasks| && tasks[i].id == payload.id ==> r[i] == payload
    ensures forall i :: 0 <= i < |tasks| && tasks[i].id != payload.id ==> r[i] == tasks[i]
  {
    seq(|tasks|, i requires 0 <= i < |tasks| => if tasks[i].id == payload.id then payload else tasks[i])
  }

  function Reduce(s: State, a: Action): (r: State)
    // each scalar field changes only under its own action
    ensures r.loading == if a.SetLoading? then a.isLoading else s.loading
    ensures r.error == if a.SetError? then Some(a.message) else s.error
    // the project list and the task list are independent
    ensures !(a.SetProjects? || a.AddProject?) ==> r.project == s.project
    ensures !(a.SetTasks? || a.AddTask? || a.UpdateTask?) ==> r.tasks == s.tasks
  {
    match a
    case SetProjects(ps) => s.(project := ps)
    case SetLoading(b) => s.(loading := b)
    case SetError(m) => s.(error := Some(m))
    case AddProject(p) => s.(project := s.project + [p])
    case AddTask(t) => s.(tasks := s.tasks + [t])
    case SetTasks(ts) => s.(tasks := ts)
    case UpdateTask(t) => s.(tasks := ReplaceById(s.tasks, t))
  }

  /** SET_TASKS replaces the task list wholesale and touches nothing else. */
  lemma SetTasksReplaces(s: State, ts: seq<Task>)
    ensures Reduce(s, SetTasks(ts)) == s.(tasks := ts)
  {
  }

  /** ADD_TASK appends at the end, keeping every earlier task where it was. */
  lemma AddTaskAppends(s: State, t: Task)
    ensures var r := Reduce(s, AddTask(t));
      |r.tasks| == |s.tasks| + 1 && r.tasks[..|s.tasks|] == s.tasks && r.tasks[|s.tasks|] == t
      && r.project == s.project && r.loading == s.loading && r.error == s.error
  {
  }

  /** ADD_PROJECT appends to the project list; SET_PROJECTS replaces it; tasks stay. */
  lemma ProjectActions(s: State, ps: seq<Project>, p: Project)
    ensures Reduce(s, SetProjects(ps)) == s.(project := ps)
    ensures Reduce(s, AddProject(p)) == s.(project := s.project + [p])
  {
  }

  /** UPDATE_TASK puts the payload at every position whose id matches, in place. */
  lemma UpdateTaskReplaces(s: State, t: Task)
    ensures var r := Reduce(s, UpdateTask(t));
      |r.tasks| == |s.tasks|
      && (forall i :: 0 <= i < |s.tasks| ==> r.tasks[i] == if s.tasks[i].id == t.id then t else s.tasks[i])
      && r.project == s.project && r.loading == s.loading && r.error == s.error
  {
  }

  /** UPDATE_TASK for an id that is not in the list is a no-op. */
  lemma UpdateTaskMissingIsNoOp(s: State, t: Task)
    requires forall i :: 0 <= i < |s.tasks| ==> s.tasks[i].id != t.id
    ensures Reduce(s, UpdateTask(t)) == s
  {
    assert ReplaceById(s.tasks, t) == s.tasks;
  }

  /** Folding in the same server answer twice gives the same state as once. */
  lemma UpdateTaskIdempotent(s: State, t: Task)
    ensures Reduce(Reduce(s, UpdateTask(t)), UpdateTask(t)) == Reduce(s, UpdateTask(t))
  {
    assert ReplaceById(ReplaceById(s.tasks, t), t) == ReplaceById(s.tasks, t);
  }

  /** Apart from SET_TASKS, no action makes a task id disappear from the list. */
  lemma NoTaskRemoval(s: State, a: Action)
    requires !a.SetTasks?
    ensures |Reduce(s, a).tasks| >= |s.tasks|
    ensures forall i :: 0 <= i < |s.tasks| ==> Reduce(s, a).tasks[i].id == s.tasks[i].id
  {
  }
}
