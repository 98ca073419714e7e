/** The task list of the front end (frontend/src/hooks/useTasks.jsx): the
    provider owns the list of tasks and replaces it after each request to
    the dashboard API. The API's answers are parameters of the operations:
    the record or body it returns, or a failure. */
module TasksStore {
  import opened Common

  /** A task as the dashboard API returns it; only the fields the front end
      reads are kept. `completed` is the truthiness of the record's
      `completed` property, which the dashboard reads (false when the API
      leaves it out); the list operations read `status`. */
  datatype TaskRecord = TaskRecord(id: int, title: string, status: string, completed: bool)

  /** The body of `GET /api/dashboard/tasks/`: paginated, with the page under
      `results`, or the bare list. */
  datatype ListBody = Paginated(results: seq<TaskRecord>) | Bare(tasks: seq<TaskRecord>)

  /** `response.data.results || response.data`: an array is truthy even when
      empty, so a paginated body always gives its page. */
  function ListOf(body: ListBody): seq<TaskRecord>
  {
    match body
    case Paginated(results) => results
    case Bare(tasks) => tasks
  }

  /** The status a toggle asks for: back to "pending" from "completed",
      "completed" from anything else (including "in_progress"). */
  function ToggledStatus(status: string): (r: string)
    ensures r == "pending" <==> status == "completed"
    ensures r == "completed" <==> status != "completed"
  {
    if status == "completed" then "pending" else "completed"
  }

  /** The body `addTask` posts: the title and an explicit "pending" status.
      It has no description field. */
  datatype NewTask = NewTask(title: string, status: string)

  function AddRequest(title: string): NewTask
  {
    NewTask(title, "pending")
  }

  /** `tasks.find(t => t.id === id)`. */
  function Find(tasks: seq<TaskRecord>, id: int): (r: Option<TaskRecord>)
    ensures r.None? <==> forall k :: 0 <= k < |tasks| ==> tasks[k].id != id
    ensures r.Some? ==> r.value.id == id && exists k :: 0 <= k < |tasks| && tasks[k] == r.value && forall j :: 0 <= j < k ==> tasks[j].id != id
  {
    if tasks == [] then None
    else if tasks[0].id == id then Some(tasks[0])
    else
      var r := Find(tasks[1..], id);
      assert forall k :: 1 <= k < |tasks| ==> tasks[k] == tasks[1..][k - 1];
      if r.Some? then
        var k :| 0 <= k < |tasks[1..]| && tasks[1..][k] == r.value && forall j :: 0 <= j < k ==> tasks[1..][j].id != id;
        assert tasks[k + 1] == r.value && forall j :: 0 <= j < k + 1 ==> tasks[j].id != id;
        r
      else r
  }

  /** `prev.map(t => t.id === id ? updated : t)`. */
  function Replace(tasks: seq<TaskRecord>, id: int, updated: TaskRecord): (r: seq<TaskRecord>)
  {
    if tasks == [] then []
    else [if tasks[0].id == id then updated else tasks[0]] + Replace(tasks[1..], id, updated)
  }

  /** `prev.filter(t => t.id !== id)`. */
  function Remove(tasks: seq<TaskRecord>, id: int): (r: seq<TaskRecord>)
  {
    if tasks == [] then []
    else (if tasks[0].id == id then [] else [tasks[0]]) + Remove(tasks[1..], id)
  }

  /** A replacement keeps the length, puts `updated` exactly where the id
      was, and leaves every other entry where it was. */
  lemma {:induction false} ReplaceSpec(tasks: seq<TaskRecord>, id: int, updated: TaskRecord)
    ensures |Replace(tasks, id, updated)| == |tasks|
    ensures forall k :: 0 <= k < |tasks| ==>
      Replace(tasks, id, updated)[k] == if tasks[k].id == id then updated else tasks[k]
  {
    if tasks != [] {
      ReplaceSpec(tasks[1..], id, updated);
      var r := Replace(tasks, id, updated);
      forall k | 1 <= k < |tasks| ensures r[k] == if tasks[k].id == id then updated else tasks[k] {
        assert r[k] == Replace(tasks[1..], id, updated)[k - 1];
        assert tasks[1..][k - 1] == tasks[k];
      }
    }
  }

  /** Removing works piecewise: the entries kept from `a + b` are those kept
      from `a` followed by those kept from `b`, so the order of the rest is
      preserved. */
  lemma {:induction false} RemoveAppend(a: seq<TaskRecord>, b: seq<TaskRecord>, id: int)
    ensures Remove(a + b, id) == Remove(a, id) + Remove(b, id)
  {
    if a != [] {
      assert (a + b)[0] == a[0] && (a + b)[1..] == a[1..] + b;
      RemoveAppend(a[1..], b, id);
    } else {
      assert a + b == b;
    }
  }

  /** Removing drops exactly the entries with the id: whatever remains was
      there and has another id, whatever had another id remains, and a list
      without the id is left as it was. */
  lemma {:induction false} RemoveSpec(tasks: seq<TaskRecord>, id: int)
    ensures forall t :: t in Remove(tasks, id) <==> t in tasks && t.id != id
    ensures |Remove(tasks, id)| <= |tasks|
    ensures (forall k :: 0 <= k < |tasks| ==> tasks[k].id != id) ==> Remove(tasks, id) == tasks
  {
    if tasks != [] {
      RemoveSpec(tasks[1..], id);
      assert tasks == [tasks[0]] + tasks[1..];
      assert forall k :: 1 <= k < |tasks| ==> tasks[1..][k - 1] == tasks[k];
    }
  }

  /** Deleting twice is deleting once. */
  lemma {:induction false} RemoveIdempotent(tasks: seq<TaskRecord>, id: int)
    ensures Remove(Remove(tasks, id), id) == Remove(tasks, id)
  {
    RemoveSpec(tasks, id);
    var r := Remove(tasks, id);
    RemoveSpec(r, id);
    assert forall k :: 0 <= k < |r| ==> r[k] in r;
  }

  class TasksProvider {
    var tasks: seq<TaskRecord>
    var isLoading: bool

    /** The provider's initial state. */
    constructor ()
      ensures tasks == [] && !isLoading
    {
      tasks, isLoading := [], false;
    }

    /** `fetchTasks`: without an access token in `store` nothing happens;
        otherwise the list becomes the answer's tasks, or stays as it was
        if the request failed, and loading ends either way. */
    method FetchTasks(store: Store, reply: Reply<ListBody>)
      modifies this
      ensures !StoredTruthy(store, "access_token") ==> tasks == old(tasks) && isLoading == old(isLoading)
      ensures StoredTruthy(store, "access_token") ==>
        !isLoading && tasks == (if reply.Ok? then ListOf(reply.value) else old(tasks))
    {
      if !StoredTruthy(store, "access_token") {
        return;
      }
      isLoading := true;
      if reply.Ok? {
        tasks := ListOf(reply.value);
      }
      isLoading := false;
    }

    /** `addTask(title)`: posts `AddRequest(title)`; the record the server
        returns goes to the front of the list. A failure is thrown back to
        the caller (`rethrown`) and leaves the list as it was. */
    method AddTask(title: string, reply: Reply<TaskRecord>) returns (request: NewTask, rethrown: bool)
      modifies this
      ensures request == AddRequest(title)
      ensures rethrown <==> reply.Failed?
      ensures reply.Ok? ==> tasks == [reply.value] + old(tasks)
      ensures reply.Failed? ==> tasks == old(tasks)
      ensures isLoading == old(isLoading)
    {
      request := NewTask(title, "pending");
      if reply.Failed? {
        return request, true;
      }
      tasks := [reply.value] + tasks;
      rethrown := false;
    }

    /** `toggleTask(id)`: for an id not in the list nothing is sent and
        nothing changes; otherwise the toggled status of the first entry
        with the id is sent (`request`), and the server's record replaces
        every entry with the id. A failure is swallowed. */
    method ToggleTask(taskId: int, reply: Reply<TaskRecord>) returns (request: Option<string>)
      modifies this
      ensures Find(old(tasks), taskId).None? ==> request.None? && tasks == old(tasks)
      ensures Find(old(tasks), taskId).Some? ==> request == Some(ToggledStatus(Find(old(tasks), taskId).value.status))
      ensures Find(old(tasks), taskId).Some? && reply.Ok? ==> tasks == Replace(old(tasks), taskId, reply.value)
      ensures reply.Failed? ==> tasks == old(tasks)
      ensures isLoading == old(isLoading)
    {
      var task := Find(tasks, taskId);
      if task.None? {
        return None;
      }
      request := Some(ToggledStatus(task.value.status));
      if reply.Ok? {
        tasks := Replace(tasks, taskId, reply.value);
      }
    }

    /** `deleteTask(id)`: once the server confirms, every entry with the id
        leaves the list; a failure is swallowed and changes nothing. */
    method DeleteTask(taskId: int, reply: Reply<()>)
      modifies this
      ensures reply.Ok? ==> tasks == Remove(old(tasks), taskId)
      ensures reply.Failed? ==> tasks == old(tasks)
      ensures isLoading == old(isLoading)
    {
      if reply.Ok? {
        tasks := Remove(tasks, taskId);
      }
    }
  }
}
