/** The dashboard header (components/site-header.tsx): the page title and
    description chosen from the current path by first substring match, the
    status-filter menu and its badge, and the search box whose text reaches
    the shared search query only after 500 ms without typing. */
module SiteHeader {
  import opened Types
  import opened Strings
  import opened FilterContext

  /** The value of the entry whose key is the first (in order) to occur in
      `pathname`, or `fallback` when none does. */
  function FirstMatch<V>(entries: seq<(string, V)>, pathname: string, fallback: V): V
  {
    if entries == [] then fallback
    else if Contains(pathname, entries[0].0) then entries[0].1
    else FirstMatch(entries[1..], pathname, fallback)
  }

  /** FirstMatch picks the earliest matching entry, and the fallback only
      when nothing matches. */
  lemma {:induction false} FirstMatchIsEarliest<V>(entries: seq<(string, V)>, pathname: string, fallback: V, k: int)
    requires 0 <= k < |entries| && Contains(pathname, entries[k].0)
    requires forall j | 0 <= j < k :: !Contains(pathname, entries[j].0)
    ensures FirstMatch(entries, pathname, fallback) == entries[k].1
    decreases k
  {
    if k > 0 {
      assert !Contains(pathname, entries[0].0);
      FirstMatchIsEarliest(entries[1..], pathname, fallback, k - 1);
    }
  }

  lemma {:induction false} FirstMatchFallsBack<V>(entries: seq<(string, V)>, pathname: string, fallback: V)
    requires forall j | 0 <= j < |entries| :: !Contains(pathname, entries[j].0)
    ensures FirstMatch(entries, pathname, fallback) == fallback
    decreases |entries|
  {
    if entries != [] {
      assert !Contains(pathname, entries[0].0);
      FirstMatchFallsBack(entries[1..], pathname, fallback);
    }
  }

  /** The title rules as a table, in the order they are tried. */
  const TitleEntries: seq<(string, string)> :=
    [("/dashboard", "Dashboard"), ("/profile", "Profile Settings"), ("/tasks", "My Tasks")]

  const DefaultTitle := "Primetrade"

  /** getPageTitle: a chain of substring tests. */
  function PageTitle(pathname: string): string
  {
    if Contains(pathname, "/dashboard") then "Dashboard"
    else if Contains(pathname, "/profile") then "Profile Settings"
    else if Contains(pathname, "/tasks") then "My Tasks"
    else DefaultTitle
  }

  /** The chain of tests is the first-match lookup over the title table. */
  lemma PageTitleIsFirstMatch(pathname: string)
    ensures PageTitle(pathname) == FirstMatch(TitleEntries, pathname, DefaultTitle)
  {
    var e := TitleEntries;
    assert e[0].0 == "/dashboard" && e[1].0 == "/profile" && e[2].0 == "/tasks";
    if Contains(pathname, "/dashboard") {
      FirstMatchIsEarliest(e, pathname, DefaultTitle, 0);
    } else if Contains(pathname, "/profile") {
      FirstMatchIsEarliest(e, pathname, DefaultTitle, 1);
    } else if Contains(pathname, "/tasks") {
      FirstMatchIsEarliest(e, pathname, DefaultTitle, 2);
    } else {
      FirstMatchFallsBack(e, pathname, DefaultTitle);
    }
  }

  /** The order decides: a path under both "/dashboard" and "/profile" is
      titled "Dashboard". */
  lemma TitleExamples()
    ensures PageTitle("/dashboard/profile") == "Dashboard"
    ensures PageTitle("/profile") == "Profile Settings"
    ensures PageTitle("/tasks") == "My Tasks"
    ensures PageTitle("/") == DefaultTitle
  {
    PrefixIsContained("/dashboard/profile", "/dashboard");
    PrefixIsContained("/profile", "/profile");
    PrefixIsContained("/tasks", "/tasks");
  }

  datatype Icon = DashboardIcon | UserIcon | ZapIcon

  datatype PageInfo = PageInfo(icon: Icon, desc: string)

  /** The record of page details, in its insertion order. */
  const DetailEntries: seq<(string, PageInfo)> := [
    ("/dashboard", PageInfo(DashboardIcon, "Manage your tasks efficiently")),
    ("/profile", PageInfo(UserIcon, "Account settings and preferences"))
  ]

  const DefaultDetails := PageInfo(ZapIcon, "Welcome to Primetrade")

  /** getPageDetails: walk the entries and return the first whose path
      occurs in `pathname`, else the welcome details. */
  method PageDetails(pathname: string) returns (details: PageInfo)
    ensures details == FirstMatch(DetailEntries, pathname, DefaultDetails)
    ensures details in [DetailEntries[0].1, DetailEntries[1].1, DefaultDetails]
  {
    var i := 0;
    while i < |DetailEntries|
      invariant 0 <= i <= |DetailEntries|
      invariant FirstMatch(DetailEntries[i..], pathname, DefaultDetails) == FirstMatch(DetailEntries, pathname, DefaultDetails)
    {
      if Contains(pathname, DetailEntries[i].0) {
        return DetailEntries[i].1;
      }
      assert DetailEntries[i..][1..] == DetailEntries[i + 1..];
      i := i + 1;
    }
    return DefaultDetails;
  }

  /** The badge on the filter button: only the status filter counts. */
  predicate HasActiveFilter(statusFilter: string, priorityFilter: string)
  {
    statusFilter != All
  }

  /** The filter menu's values, in display order. */
  const FilterOptions := [All, "pending", "in-progress", "completed"]

  /** The menu offers "all" and exactly the task statuses, and a chosen
      option lights the badge unless it is "all". */
  lemma FilterOptionsAreStatuses(priorityFilter: string)
    ensures forall s: TaskStatus :: StatusName(s) in FilterOptions
    ensures forall k | 1 <= k < |FilterOptions| :: ParseStatus(FilterOptions[k]).Some?
    ensures ParseStatus(FilterOptions[0]).None?
    ensures forall k | 0 <= k < |FilterOptions| :: HasActiveFilter(FilterOptions[k], priorityFilter) <==> k != 0
  {
    forall s: TaskStatus ensures StatusName(s) in FilterOptions {
      match s
      case Pending => assert StatusName(s) == FilterOptions[1];
      case InProgress => assert StatusName(s) == FilterOptions[2];
      case Completed => assert StatusName(s) == FilterOptions[3];
    }
  }

  /** Search, the filter menu and the new-task button are rendered only on
      a path containing "/dashboard". */
  predicate ShowsDashboardControls(pathname: string)
  {
    Contains(pathname, "/dashboard")
  }

  /** The controls are there on the dashboard and its sub-pages and not on
      the profile or task pages. */
  lemma DashboardControlsExamples()
    ensures ShowsDashboardControls("/dashboard") && ShowsDashboardControls("/dashboard/profile")
    ensures !ShowsDashboardControls("/profile") && !ShowsDashboardControls("/tasks")
  {
    PrefixIsContained("/dashboard", "/dashboard");
    PrefixIsContained("/dashboard/profile", "/dashboard");
  }

  /** A pending timeout: the text it will publish and the time left. */
  datatype Timer = Timer(text: string, remaining: int)

  const DebounceMs := 500

  /** The header's interactive part: the local search text, the one pending
      timeout, and (for the proofs) every text published so far. */
  class HeaderControls {
    const filters: FilterProvider
    var localSearch: string
    var timer: Option<Timer>
    ghost var published: seq<string>

    /** A pending timeout always carries the current text and at most the
        full delay. */
    predicate Valid()
      reads this
    {
      timer.Some? ==> timer.value.text == localSearch && 0 < timer.value.remaining <= DebounceMs
    }

    /** The local text starts as the shared query, and the debounce effect
        arms a timeout at mount. */
    constructor (filters: FilterProvider)
      ensures this.filters == filters && localSearch == filters.searchQuery
      ensures timer == Some(Timer(localSearch, DebounceMs)) && published == []
      ensures Valid()
    {
      this.filters := filters;
      localSearch := filters.searchQuery;
      timer := Some(Timer(filters.searchQuery, DebounceMs));
      published := [];
    }

    /** A keystroke in the search box, which is there only on the dashboard:
        the pending timeout is cancelled and a fresh one is armed for the
        new text. The shared query does not change. */
    method Type(pathname: string, text: string)
      requires ShowsDashboardControls(pathname)
      requires Valid()
      modifies this
      ensures localSearch == text && timer == Some(Timer(text, DebounceMs))
      ensures published == old(published)
      ensures Valid()
    {
      localSearch := text;
      timer := Some(Timer(text, DebounceMs));
    }

    /** `ms` milliseconds pass without typing. If the pending timeout runs
        out it publishes its text as the shared query. */
    method Advance(ms: nat)
      requires Valid()
      modifies this, filters
      ensures old(timer).None? ==> timer == None && unchanged(filters) && published == old(published)
      ensures old(timer).Some? && ms < old(timer).value.remaining ==>
        timer == Some(Timer(localSearch, old(timer).value.remaining - ms))
        && unchanged(filters) && published == old(published)
      ensures old(timer).Some? && ms >= old(timer).value.remaining ==>
        timer == None && filters.searchQuery == old(localSearch)
        && published == old(published) + [old(localSearch)]
        && filters.statusFilter == old(filters.statusFilter)
        && filters.priorityFilter == old(filters.priorityFilter)
        && filters.createDialogOpen == old(filters.createDialogOpen)
      ensures localSearch == old(localSearch)
      ensures Valid()
    {
      if timer.Some? {
        if ms < timer.value.remaining {
          timer := Some(Timer(timer.value.text, timer.value.remaining - ms));
        } else {
          var text := timer.value.text;
          timer := None;
          filters.SetSearchQuery(text);
          published := published + [text];
        }
      }
    }

    /** The sync effect, after the shared query changed elsewhere (a reset):
        the local text follows it, which re-arms the debounce. */
    method SyncFromQuery()
      requires Valid()
      modifies this
      ensures localSearch == filters.searchQuery
      ensures old(localSearch) != filters.searchQuery ==> timer == Some(Timer(localSearch, DebounceMs))
      ensures old(localSearch) == filters.searchQuery ==> timer == old(timer)
      ensures published == old(published)
      ensures Valid()
    {
      if localSearch != filters.searchQuery {
        localSearch := filters.searchQuery;
        timer := Some(Timer(localSearch, DebounceMs));
      }
    }

    /** Picking an entry of the filter menu, which is there only on the
        dashboard, sets the status filter to its value. */
    method ChooseFilter(pathname: string, k: int)
      requires ShowsDashboardControls(pathname)
      requires 0 <= k < |FilterOptions|
      modifies filters
      ensures filters.statusFilter == FilterOptions[k]
      ensures filters.searchQuery == old(filters.searchQuery) && filters.priorityFilter == old(filters.priorityFilter)
      ensures filters.createDialogOpen == old(filters.createDialogOpen)
      ensures HasActiveFilter(filters.statusFilter, filters.priorityFilter) <==> k != 0
    {
      filters.SetStatusFilter(FilterOptions[k]);
    }

    /** The new-task button, which is there only on the dashboard, opens the
        create dialog. */
    method NewTask(pathname: string)
      requires ShowsDashboardControls(pathname)
      modifies filters
      ensures filters.createDialogOpen
      ensures filters.searchQuery == old(filters.searchQuery) && filters.statusFilter == old(filters.statusFilter)
      ensures filters.priorityFilter == old(filters.priorityFilter)
    {
      filters.SetCreateDialogOpen(true);
    }
  }

  /** Five keystrokes 100 ms apart followed by a pause publish exactly one
      query, the final text. */
  method TypingBurst(filters: FilterProvider) returns (controls: HeaderControls)
    modifies filters
    ensures controls.published == ["hello"]
    ensures filters.searchQuery == "hello"
  {
    var path := "/dashboard";
    PrefixIsContained(path, "/dashboard");
    controls := new HeaderControls(filters);
    controls.Type(path, "h");
    controls.Advance(100);
    controls.Type(path, "he");
    controls.Advance(100);
    controls.Type(path, "hel");
    controls.Advance(100);
    controls.Type(path, "hell");
    controls.Advance(100);
    controls.Type(path, "hello");
    controls.Advance(499);
    assert controls.published == [];
    controls.Advance(1);
  }
}
