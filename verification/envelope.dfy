/** The projections the services apply to a resolved call's success
    envelope (`response.data.data` and the field below it). A rejected call
    fails with the gateway's original error; a resolved call whose envelope
    lacks the expected `data` fails as `Malformed`. */
module Envelope {
  import opened Types
  import opened ApiClient

  /** `response.data.data` for signup and login. */
  function UnwrapAuth(res: Result<Response, HttpError>): (r: Result<AuthResponse, Fault>)
    ensures res.Err? ==> r == Err(Rejected(res.error))
    ensures r.Ok? <==> res.Ok? && Data(res.value).Some? && Data(res.value).value.AuthData?
    ensures r.Ok? ==> r.value == Data(res.value).value.auth
  {
    match res
    case Err(e) => Err(Rejected(e))
    case Ok(response) =>
      var d := Data(response);
      if d.Some? && d.value.AuthData? then Ok(d.value.auth) else Err(Malformed)
  }

  /** `response.data.data.user` for the current-user call. */
  function UnwrapUser(res: Result<Response, HttpError>): (r: Result<User, Fault>)
    ensures res.Err? ==> r == Err(Rejected(res.error))
    ensures r.Ok? <==> res.Ok? && Data(res.value).Some? && Data(res.value).value.UserData?
    ensures r.Ok? ==> r.value == Data(res.value).value.user
  {
    match res
    case Err(e) => Err(Rejected(e))
    case Ok(response) =>
      var d := Data(response);
      if d.Some? && d.value.UserData? then Ok(d.value.user) else Err(Malformed)
  }

  /** An operation that returns nothing succeeds exactly when the call
      resolves, whatever the body. */
  function UnwrapNothing(res: Result<Response, HttpError>): (r: Result<(), Fault>)
    ensures r.Ok? <==> res.Ok?
    ensures res.Err? ==> r == Err(Rejected(res.error))
  {
    match res
    case Err(e) => Err(Rejected(e))
    case Ok(_) => Ok(())
  }

  /** `response.data.data.task`. */
  function UnwrapTask(res: Result<Response, HttpError>): (r: Result<Task, Fault>)
    ensures res.Err? ==> r == Err(Rejected(res.error))
    ensures r.Ok? <==> res.Ok? && Data(res.value).Some? && Data(res.value).value.TaskData?
    ensures r.Ok? ==> r.value == Data(res.value).value.task
  {
    match res
    case Err(e) => Err(Rejected(e))
    case Ok(response) =>
      var d := Data(response);
      if d.Some? && d.value.TaskData? then Ok(d.value.task) else Err(Malformed)
  }

  /** `response.data.data` for the task list: `{count, tasks}`. */
  function UnwrapPage(res: Result<Response, HttpError>): (r: Result<TaskPage, Fault>)
    ensures res.Err? ==> r == Err(Rejected(res.error))
    ensures r.Ok? <==> res.Ok? && Data(res.value).Some? && Data(res.value).value.PageData?
    ensures r.Ok? ==> r.value == Data(res.value).value.page
  {
    match res
    case Err(e) => Err(Rejected(e))
    case Ok(response) =>
      var d := Data(response);
      if d.Some? && d.value.PageData? then Ok(d.value.page) else Err(Malformed)
  }

  /** `response.data.data.stats`. */
  function UnwrapStats(res: Result<Response, HttpError>): (r: Result<TaskStats, Fault>)
    ensures res.Err? ==> r == Err(Rejected(res.error))
    ensures r.Ok? <==> res.Ok? && Data(res.value).Some? && Data(res.value).value.StatsData?
    ensures r.Ok? ==> r.value == Data(res.value).value.stats
  {
    match res
    case Err(e) => Err(Rejected(e))
    case Ok(response) =>
      var d := Data(response);
      if d.Some? && d.value.StatsData? then Ok(d.value.stats) else Err(Malformed)
  }
}
