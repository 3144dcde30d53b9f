/**
 * The kanban board's drag-and-drop handling
 * (client/src/components/kanban_v2/Kanban.tsx): the fixed lane registry,
 * the resolution of a drop target (lanes before tasks) and the board object
 * whose drag handlers keep the dragged task and dispatch to the store.
 */
module Kanban {
  import opened Wrappers
  import opened Domain
  import opened Lists
  import opened Sortable
  import opened Platform

  /** A lane of the board: an identifier, a display name and its status. */
  datatype Column = Column(id: string, columnName: string, status: Status)

  const Columns: seq<Column> := [
    Column("todo", "Todo", Todo),
    Column("inProgress", "In Progress", InProgress),
    Column("inReview", "In Review", InReview),
    Column("done", "Done", Done)
  ]

  /** Four lanes with distinct ids, one per status, in status order. */
  lemma RegistryShape()
    ensures |Columns| == |AllStatuses| == 4
    ensures forall i, j :: 0 <= i < j < |Columns| ==> Columns[i].id != Columns[j].id
    ensures forall i :: 0 <= i < |Columns| ==> Columns[i].status == AllStatuses[i]
    ensures forall st: Status :: st in AllStatuses
  {
    forall st: Status ensures st in AllStatuses {
      match st
      case Todo => assert AllStatuses[0] == st;
      case InProgress => assert AllStatuses[1] == st;
      case InReview => assert AllStatuses[2] == st;
      case Done => assert AllStatuses[3] == st;
    }
  }

  function ColumnHasId(id: string): Column -> bool
  {
    (c: Column) => c.id == id
  }

  /** `columns.find(col => col.id === id)` */
  function FindColumn(id: string): (r: Option<Column>)
    ensures r.Some? <==> exists i :: 0 <= i < |Columns| && Columns[i].id == id
    ensures r.Some? ==> r.value in Columns && r.value.id == id
  {
    var r := Find(Columns, ColumnHasId(id));
    assert r.Some? ==> ColumnHasId(id)(r.value);
    r
  }

  /** `tasks.findIndex(task => task.id === id)` */
  function IndexOf(tasks: seq<Task>, id: string): (r: int)
    ensures -1 <= r < |tasks|
    ensures r >= 0 ==> tasks[r].id == id && forall k :: 0 <= k < r ==> tasks[k].id != id
    ensures r == -1 <==> forall k :: 0 <= k < |tasks| ==> tasks[k].id != id
  {
    var r := FirstIndex(tasks, HasId(id));
    assert r >= 0 ==> HasId(id)(tasks[r]);
    assert forall k :: 0 <= k < |tasks| ==> (HasId(id)(tasks[k]) <==> tasks[k].id == id);
    r
  }

  /** `tasks.find(task => task.id === id)`: the first task with that id. */
  function FindTask(tasks: seq<Task>, id: string): (r: Option<Task>)
    ensures r.None? <==> IndexOf(tasks, id) == -1
    ensures r.Some? ==> r.value == tasks[IndexOf(tasks, id)] && r.value.id == id
  {
    var i := IndexOf(tasks, id);
    if i < 0 then None else Some(tasks[i])
  }

  /**
   * `tasks.map(task => task.id === id ? { ...task, status } : task)`:
   * the optimistic status rewrite.
   */
  function SetStatus(tasks: seq<Task>, id: string, status: string): (r: seq<Task>)
    ensures |r| == |tasks|
    // same tasks in the same order, and no field but the status changes
    ensures forall i :: 0 <= i < |tasks| ==> r[i].(status := tasks[i].status) == tasks[i]
    // only the tasks carrying the dragged id get the new status
    ensures forall i :: 0 <= i < |tasks| ==> r[i].status == if tasks[i].id == id then status else tasks[i].status
  {
    seq(|tasks|, i requires 0 <= i < |tasks| =>
      if tasks[i].id == id then tasks[i].(status := status) else tasks[i])
  }

  /** What a pointer release landed on. */
  datatype Target = Lane(column: Column) | OnTask(task: Task) | Nowhere

  /** Lanes are looked up first, then tasks. */
  function ResolveTarget(tasks: seq<Task>, overId: string): (r: Target)
    ensures r.Lane? <==> FindColumn(overId).Some?
    ensures r.Lane? ==> r.column in Columns && r.column.id == overId
    ensures r.OnTask? <==> FindColumn(overId).None? && IndexOf(tasks, overId) >= 0
    ensures r.OnTask? ==> r.task == tasks[IndexOf(tasks, overId)] && r.task.id == overId
  {
    match FindColumn(overId)
    case Some(c) => Lane(c)
    case None =>
      match FindTask(tasks, overId)
      case Some(t) => OnTask(t)
      case None => Nowhere
  }

  /**
   * A drop on a task leaves a permutation of the original list in which the
   * dragged task sits at the target's former index.
   */
  lemma TaskDropPlacesDragged(tasks: seq<Task>, activeId: string, overId: string)
    requires IndexOf(tasks, activeId) >= 0 && IndexOf(tasks, overId) >= 0
    ensures var moved := ArrayMove(tasks, IndexOf(tasks, activeId), IndexOf(tasks, overId));
      && |moved| == |tasks| && multiset(moved) == multiset(tasks)
      && moved[IndexOf(tasks, overId)] == FindTask(tasks, activeId).value
  {
  }

  /** Dropping a task on itself dispatches the list it was rendered with. */
  lemma DropOnSelfKeepsList(tasks: seq<Task>, id: string)
    requires IndexOf(tasks, id) >= 0
    ensures ArrayMove(tasks, IndexOf(tasks, id), IndexOf(tasks, id)) == tasks
  {
    MoveToSelf(tasks, IndexOf(tasks, id));
  }

  /**
   * After a lane drop whose request succeeds with an answer for the dragged
   * task, every entry of that task is the answer itself (all fields), and
   * every other entry is what the board was rendered with.
   */
  lemma {:induction false} LaneDropReconciles(tasks: seq<Task>, activeId: string, lane: Column, answer: Task)
    requires answer.id == activeId
    ensures var final := ReplaceById(SetStatus(tasks, activeId, StatusWire(lane.status)), answer);
      && |final| == |tasks|
      && (forall i :: 0 <= i < |tasks| && tasks[i].id == activeId ==> final[i] == answer)
      && (forall i :: 0 <= i < |tasks| && tasks[i].id != activeId ==> final[i] == tasks[i])
  {
    var optimistic := SetStatus(tasks, activeId, StatusWire(lane.status));
    forall i | 0 <= i < |tasks| && tasks[i].id != activeId
      ensures ReplaceById(optimistic, answer)[i] == tasks[i]
    {
      assert optimistic[i].(status := tasks[i].status) == tasks[i];
      assert optimistic[i].status == tasks[i].status;
    }
  }

  /**
   * As written, a drop onto a task in another lane ends with the dragged
   * task in its ORIGINAL status: the final dispatch moves it within the
   * list the board was rendered with, overwriting the status rewrite.
   */
  lemma CrossLaneDropKeepsStatus(tasks: seq<Task>, activeId: string, overId: string)
    requires IndexOf(tasks, activeId) >= 0 && IndexOf(tasks, overId) >= 0
    requires tasks[IndexOf(tasks, activeId)].status != tasks[IndexOf(tasks, overId)].status
    ensures var moved := ArrayMove(tasks, IndexOf(tasks, activeId), IndexOf(tasks, overId));
      moved[IndexOf(tasks, overId)].status == tasks[IndexOf(tasks, activeId)].status
      && moved[IndexOf(tasks, overId)].status != tasks[IndexOf(tasks, overId)].status
  {
  }

  /** The two-task scenario: dropping a TODO task on an IN_PROGRESS task leaves it TODO. */
  lemma CrossLaneDropScenario(t1: Task, t2: Task)
    requires t1.id != t2.id
    requires t1.status == "TODO" && t2.status == "IN_PROGRESS"
    ensures FindColumn(t2.id).None? ==>
      var tasks := [t1, t2];
      && ResolveTarget(tasks, t2.id) == OnTask(t2)
      && ArrayMove(tasks, IndexOf(tasks, t1.id), IndexOf(tasks, t2.id)) == [t2, t1]
      && ArrayMove(tasks, IndexOf(tasks, t1.id), IndexOf(tasks, t2.id))[1].status == "TODO"
  {
    var tasks := [t1, t2];
    assert IndexOf(tasks, t1.id) == 0;
    assert tasks[0].id != t2.id && tasks[1].id == t2.id;
    assert IndexOf(tasks, t2.id) == 1;
  }

  /**
   * The evidently intended drop onto a task: move the dragged task within
   * the list whose status was already rewritten to the target's status.
   */
  function IntendedTaskDrop(tasks: seq<Task>, activeId: string, overId: string): (r: seq<Task>)
    requires IndexOf(tasks, activeId) >= 0 && IndexOf(tasks, overId) >= 0
    ensures |r| == |tasks|
    ensures r[IndexOf(tasks, overId)].id == activeId
    ensures r[IndexOf(tasks, overId)].status == tasks[IndexOf(tasks, overId)].status
  {
    var over := tasks[IndexOf(tasks, overId)];
    var rewritten := SetStatus(tasks, activeId, over.status);
    SetStatusKeepsIndex(tasks, activeId, over.status, activeId);
    SetStatusKeepsIndex(tasks, activeId, over.status, overId);
    ArrayMove(rewritten, IndexOf(tasks, activeId), IndexOf(tasks, overId))
  }

  /** A status rewrite keeps every task where it was, so lookups by id are unchanged. */
  lemma SetStatusKeepsIndex(tasks: seq<Task>, id: string, status: string, key: string)
    ensures IndexOf(SetStatus(tasks, id, status), key) == IndexOf(tasks, key)
  {
    var rewritten := SetStatus(tasks, id, status);
    forall k | 0 <= k < |tasks| ensures rewritten[k].id == tasks[k].id {
      assert rewritten[k].(status := tasks[k].status) == tasks[k];
    }
  }

  /** One call of the status-update endpoint: `updateTaskStatus(taskId, status)`. */
  datatype StatusRequest = StatusRequest(taskId: string, status: Status)

  /**
   * The board: the platform store it dispatches to and the task being
   * dragged. The ghost logs record every dispatched action and every
   * status-update request, so that the contracts can say what was sent.
   */
  class Board {
    var store: State
    var activeTask: Option<Task>
    ghost var dispatched: seq<Action>
    ghost var requests: seq<StatusRequest>

    constructor (initial: State)
      ensures store == initial && activeTask == None
      ensures dispatched == [] && requests == []
    {
      store := initial;
      activeTask := None;
      dispatched := [];
      requests := [];
    }

    /** `dispatch(action)`: run the reducer on the store. */
    method Dispatch(a: Action)
      modifies this`store, this`dispatched
      ensures store == Reduce(old(store), a)
      ensures dispatched == old(dispatched) + [a]
    {
      store := Reduce(store, a);
      dispatched := dispatched + [a];
    }

    /** `handleDragStart`: remember the dragged task, or none if its id is unknown. */
    method DragStart(tasks: seq<Task>, activeId: string)
      modifies this`activeTask
      ensures activeTask == FindTask(tasks, activeId)
      ensures activeTask.None? <==> forall k :: 0 <= k < |tasks| ==> tasks[k].id != activeId
      ensures activeTask.Some? ==> activeTask.value in tasks && activeTask.value.id == activeId
    {
      activeTask := FindTask(tasks, activeId);
    }

    /**
     * `handleDragEnd` run to completion. `tasks` is the list the board was
     * rendered with; `response` is the outcome of the status-update call:
     * the server's task, or None when the call throws.
     */
    method DragEnd(tasks: seq<Task>, activeId: string, overId: Option<string>, response: Option<Task>)
      modifies this
      // the dragged task is cleared on every path
      ensures activeTask == None
      // the store's project list, loading flag and error are never touched
      ensures store.project == old(store.project) && store.loading == old(store.loading)
      ensures store.error == old(store.error)
      // no target, unknown dragged id, or a target that is neither a lane nor a task: nothing happens
      ensures overId.None? || FindTask(tasks, activeId).None? || ResolveTarget(tasks, overId.value).Nowhere? ==>
        store == old(store) && dispatched == old(dispatched) && requests == old(requests)
      // a lane: optimistic rewrite, exactly one request, then the server's answer if there is one
      ensures overId.Some? && FindTask(tasks, activeId).Some? && ResolveTarget(tasks, overId.value).Lane? ==>
        var lane := ResolveTarget(tasks, overId.value).column;
        var optimistic := SetStatus(tasks, activeId, StatusWire(lane.status));
        && requests == old(requests) + [StatusRequest(activeId, lane.status)]
        && dispatched == old(dispatched) + [SetTasks(optimistic)]
                         + (if response.Some? then [UpdateTask(response.value)] else [])
        && store.tasks == if response.Some? then ReplaceById(optimistic, response.value) else optimistic
      // a task: no request; the list is the move of the dragged task within the ORIGINAL list
      ensures overId.Some? && FindTask(tasks, activeId).Some? && ResolveTarget(tasks, overId.value).OnTask? ==>
        var dragged := FindTask(tasks, activeId).value;
        var over := ResolveTarget(tasks, overId.value).task;
        var moved := ArrayMove(tasks, IndexOf(tasks, activeId), IndexOf(tasks, overId.value));
        && requests == old(requests)
        && dispatched == old(dispatched)
                         + (if dragged.status != over.status then [SetTasks(SetStatus(tasks, activeId, over.status))] else [])
                         + [SetTasks(moved)]
        && store.tasks == moved
    {
      activeTask := None;
      if overId.None? {
        return;
      }
      var dragged := FindTask(tasks, activeId);
      if dragged.None? {
        return;
      }
      match ResolveTarget(tasks, overId.value)
      case Lane(lane) =>
        DropOnLane(tasks, dragged.value, lane, response);
      case OnTask(over) =>
        DropOnTask(tasks, dragged.value, over);
      case Nowhere =>
    }

    /** The lane branch: rewrite the status locally, call the server, fold its answer in. */
    method DropOnLane(tasks: seq<Task>, dragged: Task, lane: Column, response: Option<Task>)
      modifies this`store, this`dispatched, this`requests
      ensures store.project == old(store.project) && store.loading == old(store.loading)
      ensures store.error == old(store.error)
      ensures var optimistic := SetStatus(tasks, dragged.id, StatusWire(lane.status));
        && requests == old(requests) + [StatusRequest(dragged.id, lane.status)]
        && dispatched == old(dispatched) + [SetTasks(optimistic)]
                         + (if response.Some? then [UpdateTask(response.value)] else [])
        && store.tasks == if response.Some? then ReplaceById(optimistic, response.value) else optimistic
    {
      Dispatch(SetTasks(SetStatus(tasks, dragged.id, StatusWire(lane.status))));
      requests := requests + [StatusRequest(dragged.id, lane.status)];
      if response.Some? {
        Dispatch(UpdateTask(response.value));
      }
    }

    /** The task branch: a status rewrite when the statuses differ, then the move over `tasks`. */
    method DropOnTask(tasks: seq<Task>, dragged: Task, over: Task)
      requires IndexOf(tasks, dragged.id) >= 0 && IndexOf(tasks, over.id) >= 0
      modifies this`store, this`dispatched
      ensures store.project == old(store.project) && store.loading == old(store.loading)
      ensures store.error == old(store.error)
      ensures var moved := ArrayMove(tasks, IndexOf(tasks, dragged.id), IndexOf(tasks, over.id));
        && dispatched == old(dispatched)
                         + (if dragged.status != over.status then [SetTasks(SetStatus(tasks, dragged.id, over.status))] else [])
                         + [SetTasks(moved)]
        && store.tasks == moved
    {
      if dragged.status != over.status {
        Dispatch(SetTasks(SetStatus(tasks, dragged.id, over.status)));
      }
      var oldIndex := IndexOf(tasks, dragged.id);
      var newIndex := IndexOf(tasks, over.id);
      Dispatch(SetTasks(ArrayMove(tasks, oldIndex, newIndex)));
    }
  }
}
