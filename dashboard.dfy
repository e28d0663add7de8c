/**
 * The page state of frontend/src/pages/Dashboard.jsx: the status filter,
 * the fetched tasks, a loading flag, and the create/edit modal with its
 * form. Each awaited API reply is a parameter; each handler returns the
 * calls it makes.
 */
module Dashboard {
  import opened Wrappers
  import Text
  import ApiClient
  import KanbanBoard
  import TaskQuery

  type TaskCard = KanbanBoard.TaskCard

  /** The modal's form. */
  datatype Form = Form(title: string, description: string, dueDate: string, status: string)

  /** The blank form: every text empty and the status `pending`. */
  const EmptyForm: Form := Form("", "", "", "pending")

  /** The values the filter drop-down offers. */
  const FilterOptions: seq<string> := ["all", "pending", "in-progress", "completed"]

  type Reply<T> = ApiClient.Reply<T>

  /** The JSON body the form is sent as. */
  function FormBody(f: Form): map<string, string> {
    map["title" := f.title, "description" := f.description, "due_date" := f.dueDate, "status" := f.status]
  }

  /**
   * The characters a URL query value may hold as they are: none of them is
   * one that the server's query parser treats specially (`&`, `=`, `#`,
   * `%`, `+`).
   */
  const PlainQueryChars: string := "abcdefghijklmnopqrstuvwxyz0123456789-_."

  /** Every value the drop-down offers reaches the URL unencoded and unaltered. */
  lemma FilterOptionsArePlain()
    ensures forall f, c :: f in FilterOptions && c in f ==> c in PlainQueryChars
  {
    forall f, c | f in FilterOptions && c in f
      ensures c in PlainQueryChars
    {
      assert f == "all" || f == "pending" || f == "in-progress" || f == "completed";
    }
  }

  /**
   * The `status` a list URL of this shape carries: the rest of the URL
   * after `?status=`, read as one value. The server's parser reads it the
   * same way when the value holds only plain characters.
   */
  function QueryOf(url: string): TaskQuery.Query {
    var prefix := "/tasks?status=";
    if |url| >= |prefix| && url[..|prefix|] == prefix then map["status" := url[|prefix|..]] else map[]
  }

  /**
   * The list URL for a filter: the collection path, with no query for
   * `all` and an equality on `status` for any other value.
   */
  function FetchUrl(filter: string): (url: string)
    ensures "/tasks" <= url
    ensures url == "/tasks" <==> filter == "all"
    ensures filter == "all" ==> QueryOf(url) == map[]
    ensures filter != "all" ==> QueryOf(url) == map["status" := filter]
  {
    var prefix := "/tasks?status=";
    if filter == "all" then
      assert "/tasks"[..] != prefix;
      "/tasks"
    else
      assert (prefix + filter)[..|prefix|] == prefix;
      assert (prefix + filter)[|prefix|..] == filter;
      prefix + filter
  }

  /**
   * Each filter the drop-down offers, scoped to the requester on the
   * server, lists only the requester's tasks, and only those with that
   * status when it is not `all`.
   */
  lemma FilterReachesServer(filter: string, requester: string, doc: TaskQuery.Doc)
    requires filter in FilterOptions
    ensures TaskQuery.Matches(doc, TaskQuery.FilterOf(QueryOf(FetchUrl(filter)), requester)) ==>
              doc[TaskQuery.OwnerField] == requester
              && (filter != "all" ==> "status" in doc && doc["status"] == filter)
  {
  }

  /** `dueDate.split('T')[0]`: the date part of an ISO timestamp, everything before the first `T`. */
  function DatePart(dueDate: string): (d: string)
    ensures d <= dueDate
    ensures 'T' !in d
    ensures |d| == |dueDate| || dueDate[|d|] == 'T'
  {
    Text.FirstPartIsPrefixBefore(dueDate, 'T');
    Text.Split(dueDate, 'T')[0]
  }

  class DashboardState {
    var filter: string
    var tasks: seq<TaskCard>
    var loading: bool
    var showModal: bool
    var editingTask: Option<TaskCard>
    var newTask: Form

    /**
     * The filter is one of the drop-down's values, and a task is only ever
     * marked as being edited while the modal is open.
     */
    ghost predicate Valid()
      reads this
    {
      && filter in FilterOptions
      && (editingTask.Some? ==> showModal)
    }

    /** The page's first render. */
    constructor ()
      ensures Valid()
      ensures filter == "all" && tasks == [] && loading
      ensures !showModal && editingTask == None && newTask == EmptyForm
    {
      filter := "all";
      tasks := [];
      loading := true;
      showModal := false;
      editingTask := None;
      newTask := EmptyForm;
    }

    /** `fetchTasks`: the list is replaced on success and kept on failure; loading ends either way. */
    method FetchTasks(reply: Reply<seq<TaskCard>>) returns (sent: ApiClient.Call)
      requires Valid()
      modifies this`tasks, this`loading
      ensures Valid()
      ensures sent == ApiClient.Get(FetchUrl(filter))
      ensures tasks == (if reply.Fulfilled? then reply.value else old(tasks))
      ensures !loading
    {
      sent := ApiClient.Get(FetchUrl(filter));
      if reply.Fulfilled? {
        tasks := reply.value;
      }
      loading := false;
    }

    /** Choosing a filter in the drop-down, and the fetch that the change triggers. */
    method ChangeFilter(value: string, reply: Reply<seq<TaskCard>>) returns (sent: ApiClient.Call)
      requires Valid()
      requires value in FilterOptions
      modifies this`filter, this`tasks, this`loading
      ensures Valid()
      ensures filter == value
      ensures sent == ApiClient.Get(FetchUrl(value))
      ensures tasks == (if reply.Fulfilled? then reply.value else old(tasks))
      ensures !loading
    {
      filter := value;
      sent := FetchTasks(reply);
    }

    /** The "New Task" button. */
    method OpenNewTaskModal()
      requires Valid()
      modifies this`showModal
      ensures Valid()
      ensures showModal
    {
      showModal := true;
    }

    /** `openEditModal(task)`: the form takes the task's fields, its due date cut to the date part. */
    method OpenEditModal(task: TaskCard)
      requires Valid()
      modifies this`editingTask, this`newTask, this`showModal
      ensures Valid()
      ensures editingTask == Some(task) && showModal
      ensures newTask == Form(task.title, task.description, DatePart(task.dueDate), task.status)
    {
      editingTask := Some(task);
      newTask := Form(task.title, task.description, DatePart(task.dueDate), task.status);
      showModal := true;
    }

    /** `closeModal()`: the modal, the task being edited and the form go back to their defaults. */
    method CloseModal()
      requires Valid()
      modifies this`showModal, this`editingTask, this`newTask
      ensures Valid()
      ensures !showModal && editingTask == None && newTask == EmptyForm
    {
      showModal := false;
      editingTask := None;
      newTask := EmptyForm;
    }

    /**
     * `handleCreateTask`: the form is PUT to the edited task's URL when a
     * task is being edited and POSTed to `/tasks` otherwise. On success the
     * modal closes and the list is fetched again; on failure an alert names
     * the action and the state is left as it was.
     */
    method HandleCreateTask(saveOk: bool, refetch: Reply<seq<TaskCard>>)
      returns (sent: seq<ApiClient.Call>, alert: Option<string>)
      requires Valid()
      modifies this
      ensures Valid()
      ensures |sent| >= 1
      ensures sent[0] == (if old(editingTask).Some?
                          then ApiClient.Put("/tasks/" + old(editingTask).value.id, FormBody(old(newTask)))
                          else ApiClient.Post("/tasks", FormBody(old(newTask))))
      ensures filter == old(filter)
      ensures saveOk ==>
                && sent == [sent[0], ApiClient.Get(FetchUrl(filter))]
                && alert == None
                && !showModal && editingTask == None && newTask == EmptyForm
                && tasks == (if refetch.Fulfilled? then refetch.value else old(tasks))
                && !loading
      ensures !saveOk ==>
                && |sent| == 1
                && alert == Some(if old(editingTask).Some? then "Failed to update task" else "Failed to create task")
                && showModal == old(showModal) && editingTask == old(editingTask) && newTask == old(newTask)
                && tasks == old(tasks) && loading == old(loading)
    {
      var save := if editingTask.Some?
                  then ApiClient.Put("/tasks/" + editingTask.value.id, FormBody(newTask))
                  else ApiClient.Post("/tasks", FormBody(newTask));
      sent := [save];
      alert := None;
      if !saveOk {
        alert := Some(if editingTask.Some? then "Failed to update task" else "Failed to create task");
        return;
      }
      CloseModal();
      var fetch := FetchTasks(refetch);
      sent := sent + [fetch];
    }
  }
}
