/** The task-list hook and the statistics hook (hooks/use-tasks.ts). The
    list is only ever replaced by what a fetch returned, or emptied when a
    fetch fails; mutations never patch it and instead refetch with the
    current parameters. No operation rejects: failures become an absent
    result or `false`. */
module UseTasks {
  import opened Types
  import opened ApiClient
  import opened Envelope
  import TaskService

  /** What the list shows after a fetch answered with `res`. */
  function Listing(res: Result<TaskPage, Fault>): TaskPage
  {
    if res.Ok? then res.value else TaskPage(0, [])
  }

  /** The result the list endpoint yields for `params` and `reply`. */
  function Fetched(params: Option<TasksQueryParams>, reply: Reply): Result<TaskPage, Fault>
  {
    UnwrapPage(Outcome(TaskService.GetTasksCall(params), reply))
  }

  class TaskList {
    const api: Client
    var tasks: seq<Task>
    var count: int
    var isLoading: bool
    var params: Option<TasksQueryParams>
    /** Every page a fetch has received, in order. */
    ghost var served: seq<TaskPage>

    /** The list on screen is empty or is the last page the server sent. */
    ghost predicate ShowsServed()
      reads this
    {
      TaskPage(count, tasks) == TaskPage(0, [])
      || (served != [] && TaskPage(count, tasks) == served[|served| - 1])
    }

    /** The hook's first render. The params effect that follows is a call
        to FetchTasks with `params`. */
    constructor (api: Client, initialParams: Option<TasksQueryParams>)
      ensures this.api == api && params == initialParams
      ensures tasks == [] && count == 0 && !isLoading && served == []
      ensures ShowsServed()
    {
      this.api := api;
      tasks := [];
      count := 0;
      isLoading := false;
      params := initialParams;
      served := [];
    }

    /** Replace the list with the server's page, or empty it on failure. */
    method FetchTasks(queryParams: Option<TasksQueryParams>, reply: Reply) returns (r: Option<TaskPage>)
      modifies this, api, api.jar, api.window
      ensures var res := Fetched(queryParams, reply);
        && r == (if res.Ok? then Some(res.value) else None)
        && TaskPage(count, tasks) == Listing(res)
        && served == (if res.Ok? then old(served) + [res.value] else old(served))
      ensures api.State() == Exchange(old(api.State()), TaskService.GetTasksCall(queryParams), reply)
      ensures params == old(params) && !isLoading
      ensures ShowsServed()
    {
      isLoading := true;
      var result := TaskService.GetTasks(api, queryParams, reply);
      match result {
        case Ok(page) =>
          tasks := page.tasks;
          count := page.count;
          served := served + [page];
          r := Some(page);
        case Err(_) =>
          tasks := [];
          count := 0;
          r := None;
      }
      isLoading := false;
    }

    /** Create, then refetch with the current parameters (answered by
        `refetch`). The created task is returned even when the refetch
        fails; after a failed create nothing is refetched. */
    method CreateTask(data: CreateTaskRequest, reply: Reply, refetch: Reply) returns (r: Option<Task>)
      requires ShowsServed()
      modifies this, api, api.jar, api.window
      ensures var call := TaskService.CreateTaskCall(data);
        var res := UnwrapTask(Outcome(call, reply));
        && r == (if res.Ok? then Some(res.value) else None)
        && (res.Err? ==>
              && tasks == old(tasks) && count == old(count)
              && api.State() == Exchange(old(api.State()), call, reply))
        && (res.Ok? ==>
              && TaskPage(count, tasks) == Listing(Fetched(old(params), refetch))
              && api.State() == Exchange(Exchange(old(api.State()), call, reply), TaskService.GetTasksCall(old(params)), refetch))
      ensures params == old(params) && !isLoading
      ensures ShowsServed()
    {
      isLoading := true;
      var created := TaskService.CreateTask(api, data, reply);
      match created {
        case Ok(task) =>
          var _ := FetchTasks(params, refetch);
          r := Some(task);
        case Err(_) =>
          r := None;
      }
      isLoading := false;
    }

    /** As CreateTask, with the update call. */
    method UpdateTask(id: string, data: UpdateTaskRequest, reply: Reply, refetch: Reply) returns (r: Option<Task>)
      requires ShowsServed()
      modifies this, api, api.jar, api.window
      ensures var call := TaskService.UpdateTaskCall(id, data);
        var res := UnwrapTask(Outcome(call, reply));
        && r == (if res.Ok? then Some(res.value) else None)
        && (res.Err? ==>
              && tasks == old(tasks) && count == old(count)
              && api.State() == Exchange(old(api.State()), call, reply))
        && (res.Ok? ==>
              && TaskPage(count, tasks) == Listing(Fetched(old(params), refetch))
              && api.State() == Exchange(Exchange(old(api.State()), call, reply), TaskService.GetTasksCall(old(params)), refetch))
      ensures params == old(params) && !isLoading
      ensures ShowsServed()
    {
      isLoading := true;
      var updated := TaskService.UpdateTask(api, id, data, reply);
      match updated {
        case Ok(task) =>
          var _ := FetchTasks(params, refetch);
          r := Some(task);
        case Err(_) =>
          r := None;
      }
      isLoading := false;
    }

    /** Delete, then refetch; `true` exactly when the delete succeeded. */
    method DeleteTask(id: string, reply: Reply, refetch: Reply) returns (r: bool)
      requires ShowsServed()
      modifies this, api, api.jar, api.window
      ensures var call := TaskService.DeleteTaskCall(id);
        var res := Outcome(call, reply);
        && (r <==> res.Ok?)
        && (!r ==>
              && tasks == old(tasks) && count == old(count)
              && api.State() == Exchange(old(api.State()), call, reply))
        && (r ==>
              && TaskPage(count, tasks) == Listing(Fetched(old(params), refetch))
              && api.State() == Exchange(Exchange(old(api.State()), call, reply), TaskService.GetTasksCall(old(params)), refetch))
      ensures params == old(params) && !isLoading
      ensures ShowsServed()
    {
      isLoading := true;
      var deleted := TaskService.DeleteTask(api, id, reply);
      if deleted.Ok? {
        var _ := FetchTasks(params, refetch);
        r := true;
      } else {
        r := false;
      }
      isLoading := false;
    }

    /** Replace the parameters wholesale; the params effect then fetches
        with them. */
    method UpdateFilters(newParams: TasksQueryParams, reply: Reply)
      modifies this, api, api.jar, api.window
      ensures params == Some(newParams)
      ensures TaskPage(count, tasks) == Listing(Fetched(Some(newParams), reply))
      ensures api.State() == Exchange(old(api.State()), TaskService.GetTasksCall(Some(newParams)), reply)
      ensures !isLoading
      ensures ShowsServed()
    {
      params := Some(newParams);
      var _ := FetchTasks(params, reply);
    }
  }

  class TaskStatsPanel {
    const api: Client
    var stats: Option<TaskStats>
    var isLoading: bool

    /** The hook's first render; the mount effect is a call to FetchStats. */
    constructor (api: Client)
      ensures this.api == api && stats == None && !isLoading
    {
      this.api := api;
      stats := None;
      isLoading := false;
    }

    /** The statistics become the server's, or are cleared on failure. */
    method FetchStats(reply: Reply) returns (r: Option<TaskStats>)
      modifies this, api, api.jar, api.window
      ensures var res := UnwrapStats(Outcome(TaskService.StatsCall, reply));
        && r == (if res.Ok? then Some(res.value) else None)
        && stats == r
      ensures api.State() == Exchange(old(api.State()), TaskService.StatsCall, reply)
      ensures !isLoading
    {
      isLoading := true;
      var result := TaskService.GetTaskStats(api, reply);
      match result {
        case Ok(s) =>
          stats := Some(s);
          r := Some(s);
        case Err(_) =>
          stats := None;
          r := None;
      }
      isLoading := false;
    }
  }
}
