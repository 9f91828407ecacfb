/** The dashboard page (app/dashboard/page.tsx): the projection of the
    shared filters onto list query parameters, the conversion of a parsed
    task update into a request, and the selection handlers for the edit
    and delete dialogs. */
module Dashboard {
  import opened Types
  import opened ApiClient
  import opened Envelope
  import opened Validations
  import opened FilterContext
  import opened UseTasks
  import TaskService

  /** The query the page asks for: an empty search and the "all" filters
      become absent parameters; any other filter string is passed on as it
      is, without checking it against the enums; sorting is never set. */
  function QueryOf(searchQuery: string, statusFilter: string, priorityFilter: string): (q: TasksQueryParams)
    ensures q.search.None? <==> searchQuery == ""
    ensures q.status.None? <==> statusFilter == All
    ensures q.priority.None? <==> priorityFilter == All
    ensures q.sortBy.None? && q.order.None?
  {
    TasksQueryParams(
      if statusFilter != All then Some(statusFilter) else None,
      if priorityFilter != All then Some(priorityFilter) else None,
      if searchQuery != "" then Some(searchQuery) else None,
      None,
      None)
  }

  /** The filter values a query stands for. */
  function FiltersOf(q: TasksQueryParams): (string, string, string)
  {
    (q.search.GetOr(""), q.status.GetOr(All), q.priority.GetOr(All))
  }

  /** The projection loses nothing: the filters can be read back from the
      query, and every query without sorting, empty search or "all"
      filter is the projection of some filters. */
  lemma QueryOfRoundTrip(searchQuery: string, statusFilter: string, priorityFilter: string, q: TasksQueryParams)
    ensures FiltersOf(QueryOf(searchQuery, statusFilter, priorityFilter)) == (searchQuery, statusFilter, priorityFilter)
    ensures q.sortBy.None? && q.order.None? && q.search != Some("") && q.status != Some(All) && q.priority != Some(All)
      ==> QueryOf(FiltersOf(q).0, FiltersOf(q).1, FiltersOf(q).2) == q
  {
  }

  /** Cleared filters ask for the unfiltered list; an unknown status string
      still reaches the query. */
  lemma QueryExamples()
    ensures QueryOf("", All, All) == NoQuery
    ensures QueryOf("", "urgent", All).status == Some("urgent") && ParseStatus("urgent").None?
  {
  }

  /** handleTaskUpdated's conversion: a null due date is sent as absent;
      every other field is copied. */
  function NormalizeUpdate(data: TaskUpdateInput): (r: UpdateTaskRequest)
    ensures r.dueDate.Some? <==> data.dueDate.Defined?
    ensures data.dueDate.Defined? ==> r.dueDate.value == data.dueDate.value
    ensures r.title == data.title && r.description == data.description && r.tags == data.tags
    ensures r.status == data.status && r.priority == data.priority
  {
    UpdateTaskRequest(data.title, data.description, data.status, data.priority,
      if data.dueDate.Defined? then Some(data.dueDate.value) else None, data.tags)
  }

  /** Clearing a due date in the form and leaving it untouched send the same
      request. */
  lemma NullDueDateIsDropped(data: TaskUpdateInput)
    ensures NormalizeUpdate(data.(dueDate := Null)) == NormalizeUpdate(data.(dueDate := Undefined))
  {
  }

  class DashboardPage {
    const filters: FilterProvider
    const list: TaskList
    var selectedTask: Option<Task>
    var editDialogOpen: bool
    var deleteDialogOpen: bool

    constructor (filters: FilterProvider, list: TaskList)
      ensures this.filters == filters && this.list == list
      ensures selectedTask == None && !editDialogOpen && !deleteDialogOpen
    {
      this.filters := filters;
      this.list := list;
      selectedTask := None;
      editDialogOpen := false;
      deleteDialogOpen := false;
    }

    /** The filter effect, run whenever one of the three filters changed:
        hand the projection to the list, which fetches with it. */
    method SyncFilters(reply: Reply)
      modifies list, list.api, list.api.jar, list.api.window
      ensures list.params == Some(QueryOf(filters.searchQuery, filters.statusFilter, filters.priorityFilter))
      ensures TaskPage(list.count, list.tasks) == Listing(Fetched(list.params, reply))
      ensures list.api.State() == Exchange(old(list.api.State()), TaskService.GetTasksCall(list.params), reply)
      ensures list.ShowsServed()
    {
      list.UpdateFilters(QueryOf(filters.searchQuery, filters.statusFilter, filters.priorityFilter), reply);
    }

    method HandleEdit(task: Task)
      modifies this
      ensures selectedTask == Some(task) && editDialogOpen
      ensures deleteDialogOpen == old(deleteDialogOpen)
    {
      selectedTask := Some(task);
      editDialogOpen := true;
    }

    method HandleDelete(task: Task)
      modifies this
      ensures selectedTask == Some(task) && deleteDialogOpen
      ensures editDialogOpen == old(editDialogOpen)
    {
      selectedTask := Some(task);
      deleteDialogOpen := true;
    }

    /** Send the edited task with a null due date dropped. */
    method HandleTaskUpdated(id: string, data: TaskUpdateInput, reply: Reply, refetch: Reply)
      requires list.ShowsServed()
      modifies list, list.api, list.api.jar, list.api.window
      ensures |list.api.dispatched| > |old(list.api.dispatched)|
      ensures list.api.dispatched[|old(list.api.dispatched)|].call == TaskService.UpdateTaskCall(id, NormalizeUpdate(data))
      ensures var call := TaskService.UpdateTaskCall(id, NormalizeUpdate(data));
        var res := UnwrapTask(Outcome(call, reply));
        && (res.Err? ==>
              && list.tasks == old(list.tasks) && list.count == old(list.count)
              && list.api.State() == Exchange(old(list.api.State()), call, reply))
        && (res.Ok? ==>
              && TaskPage(list.count, list.tasks) == Listing(Fetched(old(list.params), refetch))
              && list.api.State() == Exchange(Exchange(old(list.api.State()), call, reply), TaskService.GetTasksCall(old(list.params)), refetch))
      ensures list.params == old(list.params)
      ensures list.ShowsServed() && !list.isLoading
    {
      var _ := list.UpdateTask(id, NormalizeUpdate(data), reply, refetch);
    }
  }
}
