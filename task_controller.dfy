/**
 * The task handlers of backend/src/controllers/task.controller.js over a
 * task collection held as a map from id to document. Every handler runs
 * behind the authentication middleware, so `requester` is always an
 * authenticated user id. The single-task handlers look the task up first
 * (404 when absent), then compare its owner with the requester (401 on a
 * mismatch), and only then read, update or delete it.
 */
module TaskController {
  import opened TaskQuery

  type UserId = string

  /** The JSON body of a response. */
  datatype Body =
    | NoData                          // `{ success, message }`
    | EmptyObject                     // `data: {}`
    | One(task: Task)                 // `data: task`
    | List(count: nat, tasks: seq<Task>)
    | ValidationErrors(errors: seq<string>)

  datatype Response = Response(status: nat, success: bool, message: string, body: Body)

  const NotFoundMessage: string := "Task not found"

  function NotFound(): Response {
    Response(404, false, NotFoundMessage, NoData)
  }

  /** The 401 answer to a requester who does not own the task, with the handler's own wording. */
  function NotOwner(message: string): Response {
    Response(401, false, message, NoData)
  }

  /** Outcome of the guard that every single-task handler runs before acting. */
  datatype Access = Missing | Foreign | Owned(doc: Doc)

  /** Every stored task has an owner. */
  ghost predicate AllOwned(tasks: map<TaskId, Doc>) {
    forall id :: id in tasks ==> OwnerField in tasks[id]
  }

  /** Existence first, then ownership. */
  function CheckAccess(tasks: map<TaskId, Doc>, id: TaskId, requester: UserId): (a: Access)
    requires AllOwned(tasks)
    ensures a == Missing <==> id !in tasks
    ensures a == Foreign <==> id in tasks && tasks[id][OwnerField] != requester
    ensures a.Owned? <==> id in tasks && tasks[id][OwnerField] == requester
    ensures a.Owned? ==> a.doc == tasks[id]
  {
    if id !in tasks then Missing
    else if tasks[id][OwnerField] != requester then Foreign
    else Owned(tasks[id])
  }

  /** A task that does not exist is reported missing, whoever asks. */
  lemma MissingWhoeverAsks(tasks: map<TaskId, Doc>, id: TaskId, u1: UserId, u2: UserId)
    requires AllOwned(tasks)
    requires id !in tasks
    ensures CheckAccess(tasks, id, u1) == CheckAccess(tasks, id, u2) == Missing
  {
  }

  /** At most one requester is let through to an existing task: its owner. */
  lemma OnlyOwnerPasses(tasks: map<TaskId, Doc>, id: TaskId, u1: UserId, u2: UserId)
    requires AllOwned(tasks)
    requires CheckAccess(tasks, id, u1).Owned? && CheckAccess(tasks, id, u2).Owned?
    ensures u1 == u2
  {
  }

  /** `findByIdAndUpdate(id, body)`: each field of the body overwrites the stored one. */
  function ApplyUpdate(doc: Doc, body: map<string, string>): (r: Doc)
    ensures r.Keys == doc.Keys + body.Keys
    ensures forall k :: k in body ==> r[k] == body[k]
    ensures forall k :: k in doc && k !in body ==> r[k] == doc[k]
  {
    doc + body
  }

  /** The body is applied unfiltered: an update may hand the task to another owner. */
  lemma UpdateMayChangeOwner(doc: Doc, body: map<string, string>)
    requires OwnerField in body
    ensures ApplyUpdate(doc, body)[OwnerField] == body[OwnerField]
  {
  }

  /** Applying the same update twice is the same as applying it once. */
  lemma UpdateIdempotent(doc: Doc, body: map<string, string>)
    ensures ApplyUpdate(ApplyUpdate(doc, body), body) == ApplyUpdate(doc, body)
  {
  }

  /** The `Task` collection. */
  class TaskStore {
    var tasks: map<TaskId, Doc>

    ghost predicate Valid()
      reads this
    {
      AllOwned(tasks)
    }

    constructor ()
      ensures Valid() && tasks == map[]
    {
      tasks := map[];
    }

    /** `Task.find(filter)`: every stored task that matches, each once, in no particular order. */
    method Find(filter: Query) returns (found: seq<Task>)
      ensures forall t :: t in found ==> t.id in tasks && t.doc == tasks[t.id] && Matches(t.doc, filter)
      ensures forall id :: id in tasks && Matches(tasks[id], filter) ==> Task(id, tasks[id]) in found
      ensures forall t :: t in found ==> multiset(found)[t] == 1
    {
      found := [];
      var rest := tasks.Keys;
      while rest != {}
        invariant rest <= tasks.Keys
        invariant forall t :: t in found ==> t.id in tasks && t.id !in rest && t.doc == tasks[t.id] && Matches(t.doc, filter)
        invariant forall id :: id in tasks && id !in rest && Matches(tasks[id], filter) ==> Task(id, tasks[id]) in found
        invariant forall t :: t in found ==> multiset(found)[t] == 1
        decreases rest
      {
        var id :| id in rest;
        if Matches(tasks[id], filter) {
          var t := Task(id, tasks[id]);
          assert t !in found;
          found := found + [t];
        }
        rest := rest - {id};
      }
    }

    /**
     * `GET /api/tasks`: the requester's tasks that match the rest of the
     * query, each once, ordered by the `sort` parameter (newest first by default).
     */
    method GetTasks(query: Query, requester: UserId) returns (r: Response)
      ensures r.status == 200 && r.success && r.body.List?
      ensures r.body.count == |r.body.tasks|
      ensures forall t :: t in r.body.tasks ==>
                t.id in tasks && t.doc == tasks[t.id] && Matches(t.doc, FilterOf(query, requester))
      ensures forall id :: id in tasks && Matches(tasks[id], FilterOf(query, requester)) ==>
                Task(id, tasks[id]) in r.body.tasks
      ensures forall t :: t in r.body.tasks ==> multiset(r.body.tasks)[t] == 1
      ensures SortedBy(r.body.tasks, SortKeys(SortSpec(SortParam(query))))
    {
      var filter := BuildFilter(query, requester);
      var found := Find(filter);
      var sorted := Sort(found, SortKeys(SortSpec(SortParam(query))));
      assert forall t :: t in sorted <==> t in found by {
        assert forall t :: t in sorted <==> t in multiset(sorted);
      }
      r := Response(200, true, "", List(|sorted|, sorted));
    }

    /** `GET /api/tasks/:id`. */
    method GetTask(id: TaskId, requester: UserId) returns (r: Response)
      requires Valid()
      ensures id !in tasks ==> r == NotFound()
      ensures id in tasks && tasks[id][OwnerField] != requester ==>
                r == NotOwner("Not authorized to access this task")
      ensures id in tasks && tasks[id][OwnerField] == requester ==>
                r == Response(200, true, "", One(Task(id, tasks[id])))
    {
      var access := CheckAccess(tasks, id, requester);
      match access {
        case Missing => r := NotFound();
        case Foreign => r := NotOwner("Not authorized to access this task");
        case Owned(doc) => r := Response(200, true, "", One(Task(id, doc)));
      }
    }

    /**
     * `POST /api/tasks`: with validation errors, 400 and nothing stored;
     * otherwise the body is stored under a fresh id with the requester as
     * owner, whatever owner the body named.
     */
    method CreateTask(requester: UserId, body: map<string, string>, errors: seq<string>, newId: TaskId)
      returns (r: Response)
      requires Valid()
      requires newId !in tasks
      modifies this
      ensures Valid()
      ensures |errors| > 0 ==> r == Response(400, false, "", ValidationErrors(errors)) && tasks == old(tasks)
      ensures |errors| == 0 ==>
                && tasks == old(tasks)[newId := body[OwnerField := requester]]
                && r == Response(201, true, "", One(Task(newId, tasks[newId])))
                && tasks[newId][OwnerField] == requester
    {
      if |errors| > 0 {
        return Response(400, false, "", ValidationErrors(errors));
      }
      var doc := body[OwnerField := requester];
      tasks := tasks[newId := doc];
      r := Response(201, true, "", One(Task(newId, doc)));
    }

    /**
     * `PUT /api/tasks/:id`: 404 or 401 leave the collection as it was; the
     * owner's body is applied to that task only, and the updated task is returned.
     */
    method UpdateTask(id: TaskId, requester: UserId, body: map<string, string>) returns (r: Response)
      requires Valid()
      modifies this
      ensures Valid()
      ensures id !in old(tasks) ==> r == NotFound() && tasks == old(tasks)
      ensures id in old(tasks) && old(tasks)[id][OwnerField] != requester ==>
                r == NotOwner("Not authorized to update this task") && tasks == old(tasks)
      ensures id in old(tasks) && old(tasks)[id][OwnerField] == requester ==>
                && tasks == old(tasks)[id := ApplyUpdate(old(tasks)[id], body)]
                && r == Response(200, true, "", One(Task(id, tasks[id])))
    {
      var access := CheckAccess(tasks, id, requester);
      match access {
        case Missing => r := NotFound();
        case Foreign => r := NotOwner("Not authorized to update this task");
        case Owned(doc) =>
          tasks := tasks[id := ApplyUpdate(doc, body)];
          r := Response(200, true, "", One(Task(id, tasks[id])));
      }
    }

    /**
     * `DELETE /api/tasks/:id`: 404 or 401 leave the collection as it was;
     * the owner's request removes exactly that task and answers `data: {}`.
     */
    method DeleteTask(id: TaskId, requester: UserId) returns (r: Response)
      requires Valid()
      modifies this
      ensures Valid()
      ensures id !in old(tasks) ==> r == NotFound() && tasks == old(tasks)
      ensures id in old(tasks) && old(tasks)[id][OwnerField] != requester ==>
                r == NotOwner("Not authorized to delete this task") && tasks == old(tasks)
      ensures id in old(tasks) && old(tasks)[id][OwnerField] == requester ==>
                tasks == old(tasks) - {id} && r == Response(200, true, "", EmptyObject)
    {
      var access := CheckAccess(tasks, id, requester);
      match access {
        case Missing => r := NotFound();
        case Foreign => r := NotOwner("Not authorized to delete this task");
        case Owned(_) =>
          tasks := tasks - {id};
          r := Response(200, true, "", EmptyObject);
      }
    }
  }
}
