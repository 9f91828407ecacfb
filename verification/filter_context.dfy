/** The dashboard's filter provider (contexts/filter-context.tsx): three
    filter strings and the create-dialog flag, each with its own setter,
    and a reset of the three filters. */
module FilterContext {
  import opened Types

  const OutsideProvider := "useFilters must be used within FilterProvider"

  /** The filter value meaning "no restriction". */
  const All := "all"

  class FilterProvider {
    var searchQuery: string
    var statusFilter: string
    var priorityFilter: string
    var createDialogOpen: bool

    /** No search text, no status or priority restriction, dialog closed. */
    predicate IsCleared()
      reads this
    {
      searchQuery == "" && statusFilter == All && priorityFilter == All
    }

    constructor ()
      ensures IsCleared() && !createDialogOpen
    {
      searchQuery := "";
      statusFilter := All;
      priorityFilter := All;
      createDialogOpen := false;
    }

    /** Any string is accepted; nothing else changes. */
    method SetSearchQuery(value: string)
      modifies this
      ensures searchQuery == value
      ensures statusFilter == old(statusFilter) && priorityFilter == old(priorityFilter)
      ensures createDialogOpen == old(createDialogOpen)
    {
      searchQuery := value;
    }

    method SetStatusFilter(value: string)
      modifies this
      ensures statusFilter == value
      ensures searchQuery == old(searchQuery) && priorityFilter == old(priorityFilter)
      ensures createDialogOpen == old(createDialogOpen)
    {
      statusFilter := value;
    }

    method SetPriorityFilter(value: string)
      modifies this
      ensures priorityFilter == value
      ensures searchQuery == old(searchQuery) && statusFilter == old(statusFilter)
      ensures createDialogOpen == old(createDialogOpen)
    {
      priorityFilter := value;
    }

    method SetCreateDialogOpen(value: bool)
      modifies this
      ensures createDialogOpen == value
      ensures searchQuery == old(searchQuery) && statusFilter == old(statusFilter)
      ensures priorityFilter == old(priorityFilter)
    {
      createDialogOpen := value;
    }

    /** Back to the initial filters; the dialog flag is left alone. */
    method ResetFilters()
      modifies this
      ensures IsCleared()
      ensures createDialogOpen == old(createDialogOpen)
    {
      searchQuery := "";
      statusFilter := All;
      priorityFilter := All;
    }
  }

  /** The useFilters guard: outside a provider it throws. */
  function UseFilters(context: Option<FilterProvider>): (r: Result<FilterProvider, string>)
    ensures r.Ok? <==> context.Some?
    ensures r.Ok? ==> r.value == context.value
    ensures r.Err? ==> r.error == OutsideProvider
  {
    if context.None? then Err(OutsideProvider) else Ok(context.value)
  }
}
