/** The task endpoints (services/task.service.ts): one call per operation,
    with the per-task path built by concatenating the id, and a projection
    of the success envelope. */
module TaskService {
  import opened Types
  import opened Strings
  import opened ApiClient
  import opened Envelope
  import opened Browser

  /** The query parameters are forwarded as they are. */
  function GetTasksCall(params: Option<TasksQueryParams>): Call
  {
    Call(Get, "/tasks", NoBody, params)
  }

  /** `/tasks/${id}`. */
  function TaskPath(id: string): string
  {
    "/tasks/" + id
  }

  function GetTaskCall(id: string): Call
  {
    Call(Get, TaskPath(id), NoBody, None)
  }

  function CreateTaskCall(data: CreateTaskRequest): Call
  {
    Call(Post, "/tasks", CreateTaskBody(data), None)
  }

  function UpdateTaskCall(id: string, data: UpdateTaskRequest): Call
  {
    Call(Put, TaskPath(id), UpdateTaskBody(data), None)
  }

  function DeleteTaskCall(id: string): Call
  {
    Call(Delete, TaskPath(id), NoBody, None)
  }

  const StatsCall := Call(Get, "/tasks/stats", NoBody, None)

  method GetTasks(api: Client, params: Option<TasksQueryParams>, reply: Reply) returns (r: Result<TaskPage, Fault>)
    modifies api, api.jar, api.window
    ensures api.State() == Exchange(old(api.State()), GetTasksCall(params), reply)
    ensures r == UnwrapPage(Outcome(GetTasksCall(params), reply))
  {
    var response := api.Send(GetTasksCall(params), reply);
    r := UnwrapPage(response);
  }

  method GetTaskById(api: Client, id: string, reply: Reply) returns (r: Result<Task, Fault>)
    modifies api, api.jar, api.window
    ensures api.State() == Exchange(old(api.State()), GetTaskCall(id), reply)
    ensures r == UnwrapTask(Outcome(GetTaskCall(id), reply))
  {
    var response := api.Send(GetTaskCall(id), reply);
    r := UnwrapTask(response);
  }

  method CreateTask(api: Client, data: CreateTaskRequest, reply: Reply) returns (r: Result<Task, Fault>)
    modifies api, api.jar, api.window
    ensures api.State() == Exchange(old(api.State()), CreateTaskCall(data), reply)
    ensures r == UnwrapTask(Outcome(CreateTaskCall(data), reply))
  {
    var response := api.Send(CreateTaskCall(data), reply);
    r := UnwrapTask(response);
  }

  method UpdateTask(api: Client, id: string, data: UpdateTaskRequest, reply: Reply) returns (r: Result<Task, Fault>)
    modifies api, api.jar, api.window
    ensures api.State() == Exchange(old(api.State()), UpdateTaskCall(id, data), reply)
    ensures r == UnwrapTask(Outcome(UpdateTaskCall(id, data), reply))
  {
    var response := api.Send(UpdateTaskCall(id, data), reply);
    r := UnwrapTask(response);
  }

  method DeleteTask(api: Client, id: string, reply: Reply) returns (r: Result<(), Fault>)
    modifies api, api.jar, api.window
    ensures api.State() == Exchange(old(api.State()), DeleteTaskCall(id), reply)
    ensures r == UnwrapNothing(Outcome(DeleteTaskCall(id), reply))
  {
    var response := api.Send(DeleteTaskCall(id), reply);
    r := UnwrapNothing(response);
  }

  method GetTaskStats(api: Client, reply: Reply) returns (r: Result<TaskStats, Fault>)
    modifies api, api.jar, api.window
    ensures api.State() == Exchange(old(api.State()), StatsCall, reply)
    ensures r == UnwrapStats(Outcome(StatsCall, reply))
  {
    var response := api.Send(StatsCall, reply);
    r := UnwrapStats(response);
  }

  /** A per-task path has exactly two slashes, at 0 and 6, when the id has none. */
  lemma TaskPathSlashes(id: string)
    requires '/' !in id
    ensures forall i | 0 <= i < |TaskPath(id)| :: TaskPath(id)[i] == '/' <==> i == 0 || i == 6
  {
    var p := TaskPath(id);
    forall i | 0 <= i < |p| ensures p[i] == '/' <==> i == 0 || i == 6 {
      if i >= 7 {
        assert p[i] == id[i - 7];
      }
    }
  }

  /** A per-task path with a slash-free id is in neither exempt namespace. */
  lemma TaskPathIsNotExempt(id: string)
    requires '/' !in id
    ensures !Contains(TaskPath(id), "/auth/") && !Contains(TaskPath(id), "/user/")
  {
    TaskPathSlashes(id);
    NoDelimitedMatch(TaskPath(id), "/auth/");
    NoDelimitedMatch(TaskPath(id), "/user/");
  }

  /** Creating, updating and deleting a task (with a slash-free id) shows the
      server's message, or "Operation successful", when the server reports
      success; a read never shows a success notification. */
  lemma TaskMutationsNotify(id: string, data: CreateTaskRequest, update: UpdateTaskRequest,
                            params: Option<TasksQueryParams>, status: int, message: string, payload: Option<Payload>)
    requires '/' !in id
    requires 200 <= status < 300
    ensures var reply := Received(status, Some(ApiSuccess(message, payload)));
      var notice := [Plain(SuccessToast, if message != "" then message else OperationSuccessful)];
      && Notices(CreateTaskCall(data), reply) == notice
      && Notices(UpdateTaskCall(id, update), reply) == notice
      && Notices(DeleteTaskCall(id), reply) == notice
      && Notices(GetTasksCall(params), reply) == []
      && Notices(GetTaskCall(id), reply) == []
      && Notices(StatsCall, reply) == []
  {
    TaskPathIsNotExempt(id);
    NoDelimitedMatch("/tasks", "/auth/");
    NoDelimitedMatch("/tasks", "/user/");
  }

  /** A failed task call is always shown as an error notification. */
  lemma TaskErrorsNotify(id: string, update: UpdateTaskRequest, reply: Reply)
    requires '/' !in id
    requires Outcome(UpdateTaskCall(id, update), reply).Err?
    ensures Notices(UpdateTaskCall(id, update), reply)
         == [Plain(ErrorToast, ErrorMessage(Outcome(UpdateTaskCall(id, update), reply).error.kind))]
    ensures Notices(DeleteTaskCall(id), reply) == Notices(UpdateTaskCall(id, update), reply)
  {
    TaskPathIsNotExempt(id);
  }

  /** What a resolved call served is what the operation returns. */
  lemma ServedDataIsReturned(status: int, message: string, id: string, page: TaskPage, task: Task, stats: TaskStats)
    requires 200 <= status < 300
    ensures UnwrapPage(Outcome(GetTasksCall(None), Received(status, Some(ApiSuccess(message, Some(PageData(page))))))) == Ok(page)
    ensures UnwrapTask(Outcome(GetTaskCall(id), Received(status, Some(ApiSuccess(message, Some(TaskData(task))))))) == Ok(task)
    ensures UnwrapStats(Outcome(StatsCall, Received(status, Some(ApiSuccess(message, Some(StatsData(stats))))))) == Ok(stats)
    ensures UnwrapNothing(Outcome(DeleteTaskCall(id), Received(status, None))) == Ok(())
  {
  }
}
