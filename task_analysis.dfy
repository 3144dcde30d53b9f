/**
 * The stacked bar chart of a project's tasks
 * (client/src/components/analytics/TaskAnalysis.tsx): for each status, how
 * many of its tasks have each priority.
 */
module TaskAnalysis {
  import opened Domain
  import opened Lists

  /** One bar: a status and its low / medium / high counts. */
  datatype ChartRow = ChartRow(status: string, low: nat, medium: nat, high: nat)

  const Statuses: seq<string> := ["TODO", "IN_PROGRESS", "IN_REVIEW", "DONE"]

  /** The predicate `task => task.priority?.toLowerCase() === priority`. */
  function PriorityIs(priority: string): Task -> bool
  {
    (t: Task) => Lower(t.priority) == priority
  }

  /** The number of tasks in `dataForStatus` with that (lower-cased) priority. */
  function PriorityCount(dataForStatus: seq<Task>, priority: string): (r: nat)
    ensures r <= |dataForStatus|
    ensures r == 0 <==> forall k :: 0 <= k < |dataForStatus| ==> Lower(dataForStatus[k].priority) != priority
  {
    var matching := Filter(dataForStatus, PriorityIs(priority));
    assert matching == [] <==> forall k :: 0 <= k < |dataForStatus| ==> !PriorityIs(priority)(dataForStatus[k]) by {
      if matching != [] {
        assert matching[0] in matching;
      }
    }
    |matching|
  }

  function Row(tasks: seq<Task>, status: string): (r: ChartRow)
    ensures r.status == status
    ensures var n := |Filter(tasks, HasStatus(status))|; r.low <= n && r.medium <= n && r.high <= n
  {
    var dataForStatus := Filter(tasks, HasStatus(status));
    ChartRow(status,
      PriorityCount(dataForStatus, "low"),
      PriorityCount(dataForStatus, "medium"),
      PriorityCount(dataForStatus, "high"))
  }

  /** `chartData`: one row per status, in board order. */
  function ChartData(tasks: seq<Task>): (rows: seq<ChartRow>)
    ensures |rows| == |AllStatuses| == 4
    ensures forall i :: 0 <= i < |rows| ==> rows[i].status == StatusWire(AllStatuses[i])
  {
    seq(|Statuses|, i requires 0 <= i < |Statuses| => Row(tasks, Statuses[i]))
  }

  /** The reference count for one cell: status equal, lower-cased priority equal. */
  function Cell(status: string, priority: string): Task -> bool
  {
    (t: Task) => t.status == status && Lower(t.priority) == priority
  }

  /** The cell (status, priority) counts the tasks with that status and that lower-cased priority. */
  lemma CellCounts(tasks: seq<Task>, i: nat)
    requires i < 4
    ensures ChartData(tasks)[i].low == |Filter(tasks, Cell(Statuses[i], "low"))|
    ensures ChartData(tasks)[i].medium == |Filter(tasks, Cell(Statuses[i], "medium"))|
    ensures ChartData(tasks)[i].high == |Filter(tasks, Cell(Statuses[i], "high"))|
  {
    var s := Statuses[i];
    FilterFilter(tasks, HasStatus(s), PriorityIs("low"), Cell(s, "low"));
    FilterFilter(tasks, HasStatus(s), PriorityIs("medium"), Cell(s, "medium"));
    FilterFilter(tasks, HasStatus(s), PriorityIs("high"), Cell(s, "high"));
  }

  /** A task whose lower-cased priority is one of the three. */
  function KnownPriority(): Task -> bool
  {
    (t: Task) => IsPriority(Lower(t.priority))
  }

  /** The three cells of a row count the row's tasks whose priority is known. */
  lemma RowSumCountsKnownPriorities(dataForStatus: seq<Task>)
    ensures PriorityCount(dataForStatus, "low") + PriorityCount(dataForStatus, "medium")
          + PriorityCount(dataForStatus, "high") == |Filter(dataForStatus, KnownPriority())|
  {
    var lowOrMedium := (t: Task) => PriorityIs("low")(t) || PriorityIs("medium")(t);
    FilterDisjointCount(dataForStatus, PriorityIs("low"), PriorityIs("medium"), lowOrMedium);
    FilterDisjointCount(dataForStatus, lowOrMedium, PriorityIs("high"), KnownPriority());
  }

  /**
   * A row never counts more than the tasks of its status, and counts all of
   * them when each of them has priority low, medium or high (in any case).
   */
  lemma RowSumBound(tasks: seq<Task>, i: nat)
    requires i < 4
    ensures var row := ChartData(tasks)[i];
      row.low + row.medium + row.high <= |Filter(tasks, HasStatus(Statuses[i]))|
    ensures (forall t :: t in tasks && t.status == Statuses[i] ==> IsPriority(Lower(t.priority))) ==>
      var row := ChartData(tasks)[i];
      row.low + row.medium + row.high == |Filter(tasks, HasStatus(Statuses[i]))|
  {
    var d := Filter(tasks, HasStatus(Statuses[i]));
    RowSumCountsKnownPriorities(d);
    if forall t :: t in tasks && t.status == Statuses[i] ==> IsPriority(Lower(t.priority)) {
      forall k | 0 <= k < |d| ensures KnownPriority()(d[k]) {
        assert d[k] in d;
      }
      FilterAll(d, KnownPriority());
    }
  }

  /** A task that shows up on the chart: known status and known lower-cased priority. */
  function OnChart(): Task -> bool
  {
    (t: Task) => IsStatus(t.status) && IsPriority(Lower(t.priority))
  }

  function RowTotal(row: ChartRow): nat
  {
    row.low + row.medium + row.high
  }

  /** The predicate: this status, and a known lower-cased priority. */
  function StatusWithKnownPriority(status: string): Task -> bool
  {
    (t: Task) => t.status == status && IsPriority(Lower(t.priority))
  }

  /** One row's total is the number of tasks of that status whose priority is known. */
  lemma RowTotalIsFilter(tasks: seq<Task>, i: nat)
    requires i < 4
    ensures RowTotal(ChartData(tasks)[i]) == |Filter(tasks, StatusWithKnownPriority(Statuses[i]))|
  {
    var s := Statuses[i];
    RowSumCountsKnownPriorities(Filter(tasks, HasStatus(s)));
    FilterFilter(tasks, HasStatus(s), KnownPriority(), StatusWithKnownPriority(s));
  }

  /** The four rows' predicates never overlap, and together they are the chart's predicate. */
  lemma StatusesPartition()
    ensures forall t: Task :: !(StatusWithKnownPriority(Statuses[0])(t) && StatusWithKnownPriority(Statuses[1])(t))
    ensures forall t: Task :: !(StatusWithKnownPriority(Statuses[2])(t) && StatusWithKnownPriority(Statuses[3])(t))
    ensures forall t: Task ::
              OnChart()(t) == (StatusWithKnownPriority(Statuses[0])(t) || StatusWithKnownPriority(Statuses[1])(t)
                               || StatusWithKnownPriority(Statuses[2])(t) || StatusWithKnownPriority(Statuses[3])(t))
  {
  }

  /** Counting the four status predicates separately counts the chart's predicate. */
  lemma StatusCountsAddUp(tasks: seq<Task>)
    ensures |Filter(tasks, StatusWithKnownPriority(Statuses[0]))| + |Filter(tasks, StatusWithKnownPriority(Statuses[1]))|
          + |Filter(tasks, StatusWithKnownPriority(Statuses[2]))| + |Filter(tasks, StatusWithKnownPriority(Statuses[3]))|
         == |Filter(tasks, OnChart())|
  {
    var q0, q1 := StatusWithKnownPriority(Statuses[0]), StatusWithKnownPriority(Statuses[1]);
    var q2, q3 := StatusWithKnownPriority(Statuses[2]), StatusWithKnownPriority(Statuses[3]);
    StatusesPartition();
    var q01 := (t: Task) => q0(t) || q1(t);
    var q23 := (t: Task) => q2(t) || q3(t);
    FilterDisjointCount(tasks, q0, q1, q01);
    FilterDisjointCount(tasks, q2, q3, q23);
    FilterDisjointCount(tasks, q01, q23, OnChart());
  }

  /** All twelve cells together count exactly the tasks with a known status and priority. */
  lemma ChartTotal(tasks: seq<Task>)
    ensures var rows := ChartData(tasks);
      RowTotal(rows[0]) + RowTotal(rows[1]) + RowTotal(rows[2]) + RowTotal(rows[3])
        == |Filter(tasks, OnChart())|
  {
    RowTotalIsFilter(tasks, 0);
    RowTotalIsFilter(tasks, 1);
    RowTotalIsFilter(tasks, 2);
    RowTotalIsFilter(tasks, 3);
    StatusCountsAddUp(tasks);
  }

  /** The chart depends only on which tasks there are, not on their order. */
  lemma ChartIgnoresOrder(a: seq<Task>, b: seq<Task>)
    requires multiset(a) == multiset(b)
    ensures ChartData(a) == ChartData(b)
  {
    forall i | 0 <= i < 4 ensures ChartData(a)[i] == ChartData(b)[i] {
      var s := Statuses[i];
      FilterPermutation(a, b, HasStatus(s));
      var da, db := Filter(a, HasStatus(s)), Filter(b, HasStatus(s));
      FilterPermutation(da, db, PriorityIs("low"));
      FilterPermutation(da, db, PriorityIs("medium"));
      FilterPermutation(da, db, PriorityIs("high"));
    }
  }
}
