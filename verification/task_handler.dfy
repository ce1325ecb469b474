/**
 * The task endpoints' decision logic (internal/handler/task.go): the
 * details view dispatch with its authorization checks, and the delete error
 * mapping. A response is its status and what the body carries.
 */
module TaskHandler {
  import opened Wrappers
  import opened Errors
  import opened Domain
  import opened GoStrings
  import opened Http
  import Query
  import Roles
  import TaskService

  /** `dto.TaskDetailsForAdminResponse`: everything but the environment update date. */
  datatype AdminTaskView = AdminTaskView(
    id: string, softName: string, requestId: string, description: string, assigneeId: string, folderId: string,
    checkDate: Option<Time>, checkStatus: string, checkResult: string, comment: string, createdAt: Time)

  /** `dto.TaskDetailsForUserResponse`: no ids and no creation time. */
  datatype UserTaskView = UserTaskView(
    softName: string, requestId: string, description: string,
    checkDate: Option<Time>, checkStatus: string, checkResult: string, comment: string)

  datatype Body = NoBody | Plain(text: string) | Full(admin: AdminTaskView) | Short(user: UserTaskView)

  datatype Response = Response(status: int, body: Body)

  function AdminView(d: TaskService.TaskDetails): AdminTaskView {
    AdminTaskView(d.id, d.softName, d.requestId, d.description, d.assigneeId, d.folderId,
                  d.checkDate, d.checkStatus, d.checkResult, d.comment, d.createdAt)
  }

  function UserView(d: TaskService.TaskDetails): UserTaskView {
    UserTaskView(d.softName, d.requestId, d.description, d.checkDate, d.checkStatus, d.checkResult, d.comment)
  }

  /** The short view reveals nothing of the ids or the creation time: tasks differing only there look the same. */
  lemma ShortViewHidesIds(d: TaskService.TaskDetails, id: string, assigneeId: string, folderId: string, createdAt: Time)
    ensures UserView(d.(id := id, assigneeId := assigneeId, folderId := folderId, createdAt := createdAt)) == UserView(d)
  {
  }

  /** The view the caller asked for, once the task is loaded. */
  function Present(d: TaskService.TaskDetails, view: string, roles: seq<string>): (r: Response)
    ensures EqualFold(view, "full") ==>
      r == (if Roles.HasAdminRole(roles) then Response(OK, Full(AdminView(d)))
            else Response(Forbidden, Plain("Forbidden: 'fill' view is not allowed for this user")))
    ensures !EqualFold(view, "full") && EqualFold(view, "short") ==> r == Response(OK, Short(UserView(d)))
    ensures !EqualFold(view, "full") && !EqualFold(view, "short") ==> r == Response(NotFound, Plain("unknown view"))
  {
    if EqualFold(view, "full") then
      if !Roles.IsAdmin(roles) then Response(Forbidden, Plain("Forbidden: 'fill' view is not allowed for this user"))
      else Response(OK, Full(AdminView(d)))
    else if EqualFold(view, "short") then Response(OK, Short(UserView(d)))
    else Response(NotFound, Plain("unknown view"))
  }

  /**
   * `Details`. `roles` and `userId` are what the request context holds
   * (`None` when the guard put nothing there).
   */
  function Details(s: TaskService.Stores, taskId: string, query: Query.Values,
                   roles: Option<seq<string>>, userId: Option<string>): (r: Response)
    ensures taskId == "" ==> r.status == BadRequest
    ensures taskId != "" && (roles.None? || |roles.value| == 0) ==> r == Response(Forbidden, Plain("Forbidden"))
    ensures taskId != "" && roles.Some? && |roles.value| > 0 && (userId.None? || userId.value == "") ==>
      r.status == InternalServerError
    ensures r.status == OK ==>
      && taskId != "" && roles.Some? && userId.Some? && userId.value != ""
      && s.findTask(taskId).Ok?
      && (r.body.Full? ==> Roles.HasAdminRole(roles.value))
    ensures r.body.Full? || r.body.Short? ==> r.status == OK
    ensures (&& taskId != "" && roles.Some? && |roles.value| > 0 && userId.Some? && userId.value != ""
             && s.findTask(taskId).Ok?) ==>
      r == Present(TaskService.DetailsOf(s.findTask(taskId).value), Query.GetQueryString(query, "view", ""), roles.value)
  {
    if taskId == "" then Response(BadRequest, Plain("Task id is missing in URL"))
    else
      var view := Query.GetQueryString(query, "view", "");
      if roles.None? || |roles.value| == 0 then Response(Forbidden, Plain("Forbidden"))
      else if userId.None? || userId.value == "" then Response(InternalServerError, Plain("UserID not found in context"))
      else
        match TaskService.GetDetails(s, taskId, userId.value)
        case Err(e) =>
          if Is(e, TaskNotFound) then Response(NotFound, Plain(Message(e)))
          else if Is(e, NotAssignee) then Response(Forbidden, Plain(Message(e)))
          else Response(InternalServerError, Plain(Message(e)))
        case Ok(d) => Present(d, view, roles.value)
  }

  /** With no roles the stores are never consulted: the answer is the same whatever they hold. */
  lemma NoRolesNoLookup(s1: TaskService.Stores, s2: TaskService.Stores, taskId: string, query: Query.Values,
                        roles: Option<seq<string>>, userId: Option<string>)
    requires roles.None? || |roles.value| == 0
    ensures Details(s1, taskId, query, roles, userId) == Details(s2, taskId, query, roles, userId)
  {
  }

  /**
   * Errors are mapped before the view is looked at: a missing task is 404
   * even for a non-admin asking for the full view.
   */
  lemma MissingTaskIs404(s: TaskService.Stores, taskId: string, query: Query.Values, roles: seq<string>, userId: string)
    requires taskId != "" && |roles| > 0 && userId != ""
    requires s.findTask(taskId).Err? && Is(s.findTask(taskId).error, TaskNotFound)
    ensures Details(s, taskId, query, Some(roles), Some(userId)).status == NotFound
  {
  }

  /** A non-admin asking for "FULL", in any case, is refused once the task is found. */
  lemma FullViewNeedsAdmin(s: TaskService.Stores, taskId: string, roles: seq<string>, userId: string)
    requires taskId != "" && |roles| > 0 && userId != "" && !Roles.HasAdminRole(roles)
    requires s.findTask(taskId).Ok?
    ensures Details(s, taskId, map["view" := ["FULL"]], Some(roles), Some(userId)).status == Forbidden
  {
    assert EqualFold("FULL", "full");
  }

  /** `Delete`: not-found is 404, any other failure 500, success an empty 200. */
  function Delete(s: TaskService.Stores, taskId: string): (r: Response)
    ensures taskId == "" ==> r == Response(BadRequest, Plain("Task id is missing in URL"))
    ensures taskId != "" ==> (r.status == OK <==> s.deleteTask(taskId).Pass?)
    ensures taskId != "" && s.deleteTask(taskId).Fail? ==>
      (r.status == NotFound <==> Is(s.deleteTask(taskId).error, TaskNotFound))
    ensures taskId != "" && s.deleteTask(taskId).Fail? && !Is(s.deleteTask(taskId).error, TaskNotFound) ==>
      r.status == InternalServerError
    ensures r.status == OK ==> r.body == NoBody
  {
    if taskId == "" then Response(BadRequest, Plain("Task id is missing in URL"))
    else
      match TaskService.DeleteById(s, taskId)
      case Fail(e) =>
        if Is(e, TaskNotFound) then Response(NotFound, Plain("Task with ID: " + taskId + " not found"))
        else Response(InternalServerError, Plain(Message(e)))
      case Pass => Response(OK, NoBody)
  }
}
