/** The shared record and union types of the client (types/index.ts). */
module Types {

  datatype Option<T> = None | Some(value: T)
  {
    function GetOr(default: T): T
    {
      if Some? then value else default
    }
  }

  datatype Result<T, E> = Ok(value: T) | Err(error: E)

  /** TaskStatus: exactly "pending", "in-progress" and "completed". */
  datatype TaskStatus = Pending | InProgress | Completed

  /** TaskPriority: exactly "low", "medium" and "high". */
  datatype TaskPriority = Low | Medium | High

  /** User.role: exactly "user" and "admin". */
  datatype Role = Member | Admin

  /** TasksQueryParams.order: exactly "asc" and "desc". */
  datatype SortOrder = Asc | Desc

  function StatusName(s: TaskStatus): string
  {
    match s
    case Pending => "pending"
    case InProgress => "in-progress"
    case Completed => "completed"
  }

  function PriorityName(p: TaskPriority): string
  {
    match p
    case Low => "low"
    case Medium => "medium"
    case High => "high"
  }

  function RoleName(r: Role): string
  {
    match r
    case Member => "user"
    case Admin => "admin"
  }

  function OrderName(o: SortOrder): string
  {
    match o
    case Asc => "asc"
    case Desc => "desc"
  }

  /** The string literal type TaskStatus as a membership test on strings. */
  function ParseStatus(v: string): (r: Option<TaskStatus>)
    ensures r.Some? <==> v in {"pending", "in-progress", "completed"}
    ensures r.Some? ==> StatusName(r.value) == v
  {
    if v == "pending" then Some(Pending)
    else if v == "in-progress" then Some(InProgress)
    else if v == "completed" then Some(Completed)
    else None
  }

  function ParsePriority(v: string): (r: Option<TaskPriority>)
    ensures r.Some? <==> v in {"low", "medium", "high"}
    ensures r.Some? ==> PriorityName(r.value) == v
  {
    if v == "low" then Some(Low)
    else if v == "medium" then Some(Medium)
    else if v == "high" then Some(High)
    else None
  }

  function ParseRole(v: string): (r: Option<Role>)
    ensures r.Some? <==> v in {"user", "admin"}
    ensures r.Some? ==> RoleName(r.value) == v
  {
    if v == "user" then Some(Member)
    else if v == "admin" then Some(Admin)
    else None
  }

  function ParseOrder(v: string): (r: Option<SortOrder>)
    ensures r.Some? <==> v in {"asc", "desc"}
    ensures r.Some? ==> OrderName(r.value) == v
  {
    if v == "asc" then Some(Asc)
    else if v == "desc" then Some(Desc)
    else None
  }

  /** Every enum value survives printing and parsing back. */
  lemma EnumRoundTrips(s: TaskStatus, p: TaskPriority, r: Role, o: SortOrder)
    ensures ParseStatus(StatusName(s)) == Some(s)
    ensures ParsePriority(PriorityName(p)) == Some(p)
    ensures ParseRole(RoleName(r)) == Some(r)
    ensures ParseOrder(OrderName(o)) == Some(o)
  {
    match s
    case Pending =>
    case InProgress =>
    case Completed =>
  }

  datatype User = User(
    id: string,
    name: string,
    email: string,
    avatar: Option<string>,
    bio: Option<string>,
    role: Role,
    isActive: bool,
    createdAt: string,
    updatedAt: string)

  datatype LoginRequest = LoginRequest(email: string, password: string)

  datatype SignupRequest = SignupRequest(name: string, email: string, password: string)

  datatype AuthResponse = AuthResponse(user: User, token: string)

  datatype Task = Task(
    id: string,
    title: string,
    description: Option<string>,
    status: TaskStatus,
    priority: TaskPriority,
    dueDate: Option<string>,
    owner: string,
    tags: seq<string>,
    completed: bool,
    completedAt: Option<string>,
    createdAt: string,
    updatedAt: string)

  /** Only the title is required. */
  datatype CreateTaskRequest = CreateTaskRequest(
    title: string,
    description: Option<string>,
    status: Option<TaskStatus>,
    priority: Option<TaskPriority>,
    dueDate: Option<string>,
    tags: Option<seq<string>>)

  /** Every field is optional. */
  datatype UpdateTaskRequest = UpdateTaskRequest(
    title: Option<string>,
    description: Option<string>,
    status: Option<TaskStatus>,
    priority: Option<TaskPriority>,
    dueDate: Option<string>,
    tags: Option<seq<string>>)

  /** Every field is optional. `status` and `priority` are the strings that
      actually reach the query string: the dashboard casts its filter strings
      to TaskStatus/TaskPriority without checking them. */
  datatype TasksQueryParams = TasksQueryParams(
    status: Option<string>,
    priority: Option<string>,
    search: Option<string>,
    sortBy: Option<string>,
    order: Option<SortOrder>)

  const NoQuery := TasksQueryParams(None, None, None, None, None)

  /** One page of the task list as the list endpoint returns it. */
  datatype TaskPage = TaskPage(count: int, tasks: seq<Task>)

  datatype TaskStats = TaskStats(
    total: int,
    pending: int,
    inProgress: int,
    completed: int,
    highPriority: int,
    mediumPriority: int,
    lowPriority: int)

  datatype UpdateProfileRequest = UpdateProfileRequest(
    name: Option<string>,
    bio: Option<string>,
    avatar: Option<string>)

  datatype UpdatePasswordRequest = UpdatePasswordRequest(currentPassword: string, newPassword: string)

  /** The `data` member of a success envelope, one variant per shape the
      services read. */
  datatype Payload =
    | AuthData(auth: AuthResponse)
    | UserData(user: User)
    | TaskData(task: Task)
    | PageData(page: TaskPage)
    | StatsData(stats: TaskStats)
    | OtherData

  /** ApiResponse: a union tagged by `success`. */
  datatype ApiResponse =
    | ApiSuccess(message: string, data: Option<Payload>)
    | ApiError(message: string, errors: Option<seq<string>>)
  {
    predicate Success() { ApiSuccess? }
  }
}
