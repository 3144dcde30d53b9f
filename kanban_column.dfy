/**
 * One lane of the board as rendered
 * (client/src/components/kanban_v2/KanbanColumn.tsx): the tasks shown in it,
 * the count on its badge and the ids handed to the sortable list.
 */
module KanbanColumn {
  import opened Domain
  import opened Lists
  import opened Kanban

  /** `tasks.filter(task => task.status === column.status)` */
  function ColumnTasks(tasks: seq<Task>, column: Column): (r: seq<Task>)
    ensures |r| <= |tasks|
    ensures forall t :: t in r <==> t in tasks && t.status == StatusWire(column.status)
  {
    var r := Filter(tasks, HasStatus(StatusWire(column.status)));
    assert forall t :: HasStatus(StatusWire(column.status))(t) == (t.status == StatusWire(column.status));
    r
  }

  /** The number on the lane's badge. */
  function BadgeCount(tasks: seq<Task>, column: Column): (n: nat)
    ensures n == |ColumnTasks(tasks, column)| && n <= |tasks|
  {
    |ColumnTasks(tasks, column)|
  }

  /** `columnTasks.map(task => task.id)`: the sortable item ids. */
  function SortableIds(tasks: seq<Task>, column: Column): (ids: seq<string>)
    ensures |ids| == BadgeCount(tasks, column)
    ensures forall i :: 0 <= i < |ids| ==> ids[i] == ColumnTasks(tasks, column)[i].id
  {
    var shown := ColumnTasks(tasks, column);
    seq(|shown|, i requires 0 <= i < |shown| => shown[i].id)
  }

  /** A lane lists its tasks in store order: projecting a concatenation concatenates the projections. */
  lemma ColumnKeepsStoreOrder(a: seq<Task>, b: seq<Task>, column: Column)
    ensures ColumnTasks(a + b, column) == ColumnTasks(a, column) + ColumnTasks(b, column)
  {
    FilterAppend(a, b, HasStatus(StatusWire(column.status)));
  }

  /** A task whose status is one of the four is shown in exactly one lane of the registry. */
  lemma EnumTaskInExactlyOneColumn(tasks: seq<Task>, t: Task)
    requires t in tasks && IsStatus(t.status)
    ensures exists i :: 0 <= i < |Columns| && t in ColumnTasks(tasks, Columns[i])
    ensures forall i, j ::
      0 <= i < |Columns| && 0 <= j < |Columns| && t in ColumnTasks(tasks, Columns[i]) && t in ColumnTasks(tasks, Columns[j])
      ==> i == j
  {
    var st := ParseStatus(t.status).value;
    var i := match st case Todo => 0 case InProgress => 1 case InReview => 2 case Done => 3;
    assert t in ColumnTasks(tasks, Columns[i]);
    LaneStatusesDistinct();
  }

  /** Different lanes have different status strings. */
  lemma LaneStatusesDistinct()
    ensures forall i, j ::
      0 <= i < |Columns| && 0 <= j < |Columns| && i != j ==> StatusWire(Columns[i].status) != StatusWire(Columns[j].status)
  {
  }

  /** A task whose status is outside the enumeration is in no lane: it is hidden. */
  lemma OffEnumTaskHidden(tasks: seq<Task>, t: Task)
    requires !IsStatus(t.status)
    ensures forall i :: 0 <= i < |Columns| ==> t !in ColumnTasks(tasks, Columns[i])
  {
  }

  /** The four badges add up to the number of tasks with an enumerated status. */
  lemma BadgesCountBoardTasks(tasks: seq<Task>)
    ensures BadgeCount(tasks, Columns[0]) + BadgeCount(tasks, Columns[1])
          + BadgeCount(tasks, Columns[2]) + BadgeCount(tasks, Columns[3])
         == |Filter(tasks, (t: Task) => IsStatus(t.status))|
  {
    var p0, p1 := HasStatus(StatusWire(Columns[0].status)), HasStatus(StatusWire(Columns[1].status));
    var p2, p3 := HasStatus(StatusWire(Columns[2].status)), HasStatus(StatusWire(Columns[3].status));
    LanesPartition();
    var p01 := (t: Task) => p0(t) || p1(t);
    var p23 := (t: Task) => p2(t) || p3(t);
    FilterDisjointCount(tasks, p0, p1, p01);
    FilterDisjointCount(tasks, p2, p3, p23);
    FilterDisjointCount(tasks, p01, p23, (t: Task) => IsStatus(t.status));
  }

  /** The four lanes' filters never overlap, and together they accept exactly the enumerated statuses. */
  lemma LanesPartition()
    ensures forall t: Task :: !(HasStatus(StatusWire(Columns[0].status))(t) && HasStatus(StatusWire(Columns[1].status))(t))
    ensures forall t: Task :: !(HasStatus(StatusWire(Columns[2].status))(t) && HasStatus(StatusWire(Columns[3].status))(t))
    ensures forall t: Task ::
              IsStatus(t.status) == (HasStatus(StatusWire(Columns[0].status))(t) || HasStatus(StatusWire(Columns[1].status))(t)
                                     || HasStatus(StatusWire(Columns[2].status))(t) || HasStatus(StatusWire(Columns[3].status))(t))
  {
  }

  /**
   * Immediately after the optimistic rewrite of a lane drop, the dragged
   * task is shown in that lane and in no other.
   */
  lemma OptimisticLaneDropShowsInLane(tasks: seq<Task>, activeId: string, lane: Column)
    requires IndexOf(tasks, activeId) >= 0 && lane in Columns
    ensures var optimistic := SetStatus(tasks, activeId, StatusWire(lane.status));
      var moved := optimistic[IndexOf(tasks, activeId)];
      && moved.id == activeId
      && moved.status == StatusWire(lane.status)
      && moved in ColumnTasks(optimistic, lane)
      && forall i :: 0 <= i < |Columns| && Columns[i].status != lane.status ==> moved !in ColumnTasks(optimistic, Columns[i])
  {
    var k := IndexOf(tasks, activeId);
    var optimistic := SetStatus(tasks, activeId, StatusWire(lane.status));
    assert optimistic[k].(status := tasks[k].status) == tasks[k];
    forall i | 0 <= i < |Columns| && Columns[i].status != lane.status
      ensures optimistic[k] !in ColumnTasks(optimistic, Columns[i])
    {
      assert StatusWire(Columns[i].status) != StatusWire(lane.status) by {
        ParseStatusWire(Columns[i].status);
        ParseStatusWire(lane.status);
      }
    }
  }
}
