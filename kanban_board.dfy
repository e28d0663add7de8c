/**
 * The board of frontend/src/components/KanbanBoard.jsx: three fixed
 * columns, each showing the tasks whose status is its id; the rule that
 * decides what a finished drag sends to the server; and a delete that
 * happens only once the user confirms.
 */
module KanbanBoard {
  import opened Wrappers
  import ApiClient

  /** A task as the client receives it. */
  datatype TaskCard = TaskCard(id: string, title: string, description: string, status: string, dueDate: string)

  datatype Column = Column(id: string, title: string)

  const Columns: seq<Column> := [
    Column("pending", "Pending"),
    Column("in-progress", "In Progress"),
    Column("completed", "Completed")
  ]

  /** The columns are pending, in progress and completed, in that order. */
  lemma ColumnOrder()
    ensures |Columns| == 3
    ensures Columns[0].id == "pending" && Columns[1].id == "in-progress" && Columns[2].id == "completed"
  {
  }

  /** `a` is `b` with some elements left out, the rest in their order in `b`. */
  predicate IsSubsequence<T(==)>(a: seq<T>, b: seq<T>)
    decreases |b|
  {
    a == [] || (|b| > 0 && ((a[0] == b[0] && IsSubsequence(a[1..], b[1..])) || IsSubsequence(a, b[1..])))
  }

  /**
   * `tasks.filter(t => t.status === columnId)`: the tasks a column shows,
   * in list order, each as many times as it occurs in the list, and no other.
   */
  function InColumn(tasks: seq<TaskCard>, columnId: string): (r: seq<TaskCard>)
    ensures forall t :: t in r <==> t in tasks && t.status == columnId
    ensures |r| <= |tasks|
    ensures multiset(r) <= multiset(tasks)
    ensures forall t: TaskCard :: t.status == columnId ==> multiset(r)[t] == multiset(tasks)[t]
    ensures IsSubsequence(r, tasks)
  {
    if |tasks| == 0 then []
    else
      assert tasks == [tasks[0]] + tasks[1..];
      var rest := InColumn(tasks[1..], columnId);
      if tasks[0].status == columnId then
        assert ([tasks[0]] + rest)[1..] == rest;
        [tasks[0]] + rest
      else rest
  }

  /** A column holds the whole list exactly when every task has its status. */
  lemma {:induction false} FullColumn(tasks: seq<TaskCard>, columnId: string)
    ensures |InColumn(tasks, columnId)| == |tasks| <==> forall t :: t in tasks ==> t.status == columnId
  {
    if |tasks| > 0 {
      FullColumn(tasks[1..], columnId);
      assert forall t :: t in tasks <==> t == tasks[0] || t in tasks[1..];
    }
  }

  /**
   * The number on a column's header: at most the list's length, zero
   * exactly when no task has the column's status, and the whole list
   * exactly when every task has it.
   */
  function ColumnCount(tasks: seq<TaskCard>, columnId: string): (c: nat)
    ensures c <= |tasks|
    ensures c == 0 <==> forall t :: t in tasks ==> t.status != columnId
    ensures c == |tasks| <==> forall t :: t in tasks ==> t.status == columnId
  {
    FullColumn(tasks, columnId);
    |InColumn(tasks, columnId)|
  }

  /** Whether some column has this id. */
  predicate IsColumnId(s: string) {
    s == "pending" || s == "in-progress" || s == "completed"
  }

  /** The tasks no column shows: their status is none of the three ids. */
  function OffBoard(tasks: seq<TaskCard>): (r: seq<TaskCard>)
    ensures forall t :: t in r <==> t in tasks && !IsColumnId(t.status)
  {
    if |tasks| == 0 then []
    else (if IsColumnId(tasks[0].status) then [] else [tasks[0]]) + OffBoard(tasks[1..])
  }

  /** The three counts and the tasks no column shows add up to the whole list: every task is counted once at most. */
  lemma {:induction false} CountsPartitionTasks(tasks: seq<TaskCard>)
    ensures ColumnCount(tasks, "pending") + ColumnCount(tasks, "in-progress")
            + ColumnCount(tasks, "completed") + |OffBoard(tasks)| == |tasks|
  {
    if |tasks| > 0 {
      CountsPartitionTasks(tasks[1..]);
    }
  }

  /** No task is shown in two columns. */
  lemma ColumnsAreDisjoint(tasks: seq<TaskCard>, t: TaskCard, a: string, b: string)
    requires t in InColumn(tasks, a) && t in InColumn(tasks, b)
    ensures a == b
  {
  }

  /** `tasks.find(t => t._id === id)`: the first task with that id, if any. */
  function Find(tasks: seq<TaskCard>, id: string): (r: Option<TaskCard>)
    ensures r.None? <==> forall t :: t in tasks ==> t.id != id
    ensures r.Some? ==> exists i :: 0 <= i < |tasks| && tasks[i] == r.value && r.value.id == id
                                    && forall j :: 0 <= j < i ==> tasks[j].id != id
  {
    if |tasks| == 0 then None
    else if tasks[0].id == id then Some(tasks[0])
    else
      var r := Find(tasks[1..], id);
      if r.Some? then
        var i :| 0 <= i < |tasks[1..]| && tasks[1..][i] == r.value && r.value.id == id
                 && forall j :: 0 <= j < i ==> tasks[1..][j].id != id;
        assert tasks[i + 1] == r.value;
        r
      else r
  }

  datatype Location = Location(droppableId: string, index: int)

  /** What the drag-and-drop library reports when a drag ends. */
  datatype DropResult = DropResult(draggableId: string, source: Location, destination: Option<Location>)

  /** Dropped back where it started: same column, same position. */
  predicate Unmoved(result: DropResult)
    requires result.destination.Some?
  {
    result.destination.value.droppableId == result.source.droppableId
    && result.destination.value.index == result.source.index
  }

  /** The drops that reach the server: a destination, an actual move, and a known task. */
  predicate SendsUpdate(tasks: seq<TaskCard>, result: DropResult) {
    result.destination.Some? && !Unmoved(result) && Find(tasks, result.draggableId).Some?
  }

  /** The update body a drop sends: the destination column's id as the task's status, and nothing else. */
  function StatusUpdate(result: DropResult): (body: map<string, string>)
    requires result.destination.Some?
    ensures body.Keys == {"status"} && body["status"] == result.destination.value.droppableId
  {
    map["status" := result.destination.value.droppableId]
  }

  /**
   * `onDragEnd`: a drop with no destination, one back in place, or one of
   * an unknown task does nothing; any other drop sends only the destination
   * column's id as the task's status, then refreshes the list if the update succeeded.
   */
  method OnDragEnd(tasks: seq<TaskCard>, result: DropResult, updateOk: bool)
    returns (sent: Option<ApiClient.Call>, refreshed: bool)
    ensures sent.Some? <==> SendsUpdate(tasks, result)
    ensures sent.Some? ==>
              sent.value == ApiClient.Put("/tasks/" + result.draggableId, StatusUpdate(result))
    ensures refreshed <==> sent.Some? && updateOk
  {
    sent, refreshed := None, false;
    if result.destination.None? {
      return;
    }
    var destination := result.destination.value;
    if destination.droppableId == result.source.droppableId && destination.index == result.source.index {
      return;
    }
    var task := Find(tasks, result.draggableId);
    if task.None? {
      return;
    }
    sent := Some(ApiClient.Put("/tasks/" + result.draggableId, StatusUpdate(result)));
    refreshed := updateOk;
  }

  /**
   * A drag of a card the board shows in its source column: reordering it
   * within that column sends the task's current status, so the update
   * leaves the status as it was.
   */
  lemma ReorderSendsSameStatus(tasks: seq<TaskCard>, result: DropResult)
    requires SendsUpdate(tasks, result)
    requires Find(tasks, result.draggableId).value in InColumn(tasks, result.source.droppableId)
    requires result.destination.value.droppableId == result.source.droppableId
    ensures result.destination.value.index != result.source.index
    ensures StatusUpdate(result)["status"] == Find(tasks, result.draggableId).value.status
  {
  }

  /**
   * The same drag into another column sends a status different from the
   * task's current one: the card moves to exactly the column it was dropped on.
   */
  lemma MoveChangesStatus(tasks: seq<TaskCard>, result: DropResult)
    requires SendsUpdate(tasks, result)
    requires Find(tasks, result.draggableId).value in InColumn(tasks, result.source.droppableId)
    requires result.destination.value.droppableId != result.source.droppableId
    ensures StatusUpdate(result)["status"] != Find(tasks, result.draggableId).value.status
    ensures StatusUpdate(result)["status"] == result.destination.value.droppableId
  {
  }

  /**
   * `deleteTask(id)`: the delete request goes out only when the user
   * confirms; success refreshes the list, failure raises an alert.
   */
  method DeleteTask(id: string, confirmed: bool, deleteOk: bool)
    returns (sent: Option<ApiClient.Call>, refreshed: bool, alert: Option<string>)
    ensures sent.Some? <==> confirmed
    ensures confirmed ==> sent == Some(ApiClient.Delete("/tasks/" + id))
    ensures refreshed <==> confirmed && deleteOk
    ensures alert == (if confirmed && !deleteOk then Some("Failed to delete task") else None)
  {
    sent, refreshed, alert := None, false, None;
    if confirmed {
      sent := Some(ApiClient.Delete("/tasks/" + id));
      if deleteOk {
        refreshed := true;
      } else {
        alert := Some("Failed to delete task");
      }
    }
  }
}
