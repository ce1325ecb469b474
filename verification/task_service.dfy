/**
 * The task service (internal/service/task.go) over abstract stores. The
 * stores, `domain.NewTask`, `(*Task).Update` and the pagination arithmetic
 * are code outside this model and appear as oracles; each operation returns
 * its error, if any, together with the write it attempted.
 */
module TaskService {
  import opened Wrappers
  import opened Errors
  import opened Domain
  import opened Store

  /** The optional fields of an update; `None` leaves a field as it is. */
  datatype Patch = Patch(
    softName: Option<string>,
    requestId: Option<string>,
    description: Option<string>,
    testEnvDateUpdate: Option<Time>,
    assigneeId: Option<string>,
    folderId: Option<string>,
    checkDate: Option<Time>,
    checkStatus: Option<string>,
    checkResult: Option<string>,
    comment: Option<string>)

  /** `service.UpdateTaskParams`: a patch, the task it targets and the caller. */
  datatype UpdateTaskParams = UpdateTaskParams(patch: Patch, taskId: string, currentUserId: string)

  /** `service.CreateTaskParams` (also the shape `domain.NewTask` receives). */
  datatype CreateTaskParams = CreateTaskParams(
    softName: string, requestId: string, description: string, testEnvDateUpdate: Time,
    folderId: string, assigneeId: string, creatorId: string)

  /** A store query page: the filter, the page and the page size. */
  datatype SearchQuery = SearchQuery(ownerId: string, page: int, pageSize: int, checkStatus: string, requestId: string)

  datatype Page = Page(tasks: seq<Task>, totalCount: int)

  datatype Stores = Stores(
    findTask: string -> Result<Task, Error>,
    saveTask: Task -> Outcome<Error>,
    deleteTask: string -> Outcome<Error>,
    searchByFolder: SearchQuery -> Result<Page, Error>,
    searchByUser: SearchQuery -> Result<Page, Error>,
    userExists: string -> Result<bool, Error>,
    folderExists: string -> Result<bool, Error>,
    /** `(*domain.Task).Update`. */
    update: (Task, Patch) -> Result<Task, Error>,
    /** `domain.NewTask`. */
    newTask: CreateTaskParams -> Result<Task, Error>,
    /** `store.CalculatePaginationResult(page, pageSize, count)`. */
    paginate: (int, int, int) -> Pagination)

  /** The result of a command, and the task it handed to the store's save, if it got that far. */
  datatype Change = Change(result: Outcome<Error>, saved: Option<Task>)

  /** `isUserExists`. */
  function CheckUser(s: Stores, userId: string): (r: Outcome<Error>)
    ensures r.Pass? <==> s.userExists(userId) == Ok(true)
    ensures s.userExists(userId) == Ok(false) ==> r.Fail? && Is(r.error, UserNotFound)
    ensures s.userExists(userId).Err? ==> r.Fail? && (Is(r.error, UserNotFound) <==> Is(s.userExists(userId).error, UserNotFound))
  {
    match s.userExists(userId)
    case Err(e) => Fail(Wrap("failed to check user existence", e))
    case Ok(found) => if found then Pass else Fail(Annotate(UserNotFound, "with id " + userId))
  }

  /** `isFolderExists`. */
  function CheckFolder(s: Stores, folderId: string): (r: Outcome<Error>)
    ensures r.Pass? <==> s.folderExists(folderId) == Ok(true)
    ensures s.folderExists(folderId) == Ok(false) ==> r.Fail? && Is(r.error, FolderNotFound)
    ensures s.folderExists(folderId).Err? ==> r.Fail? && (Is(r.error, FolderNotFound) <==> Is(s.folderExists(folderId).error, FolderNotFound))
  {
    match s.folderExists(folderId)
    case Err(e) => Fail(Wrap("failed to check folder existence", e))
    case Ok(found) => if found then Pass else Fail(Annotate(FolderNotFound, "with id " + folderId))
  }

  /** The lookup both updates start with: not-found keeps its sentinel, anything else is a db error. */
  function FindForUpdate(s: Stores, taskId: string): (r: Result<Task, Error>)
    ensures r.Ok? <==> s.findTask(taskId).Ok?
    ensures r.Ok? ==> r.value == s.findTask(taskId).value
    ensures r.Err? ==> (Is(r.error, TaskNotFound) <==> Is(s.findTask(taskId).error, TaskNotFound))
  {
    match s.findTask(taskId)
    case Err(e) =>
      if Is(e, TaskNotFound) then Err(Annotate(e, "with ID " + taskId)) else Err(Wrap("db error", e))
    case Ok(t) => Ok(t)
  }

  /** The only patch a non-admin may apply: status, result and comment as given, and the check date set to now. */
  function UserPatch(p: Patch, now: Time): (q: Patch)
    ensures q.checkStatus == p.checkStatus && q.checkResult == p.checkResult && q.comment == p.comment
    ensures q.checkDate == Some(now)
    ensures q.softName.None? && q.requestId.None? && q.description.None? && q.testEnvDateUpdate.None?
    ensures q.assigneeId.None? && q.folderId.None?
  {
    Patch(None, None, None, None, None, None, Some(now), p.checkStatus, p.checkResult, p.comment)
  }

  /** Applies a patch and saves: a refused patch is returned as is, a failed save is wrapped. */
  function UpdateAndSave(s: Stores, task: Task, patch: Patch): (c: Change)
    ensures s.update(task, patch).Err? ==> c == Change(Fail(s.update(task, patch).error), None)
    ensures s.update(task, patch).Ok? ==> c.saved == Some(s.update(task, patch).value)
    ensures c.result.Pass? <==> s.update(task, patch).Ok? && s.saveTask(s.update(task, patch).value).Pass?
  {
    match s.update(task, patch)
    case Err(e) => Change(Fail(e), None)
    case Ok(updated) =>
      match s.saveTask(updated)
      case Fail(e) => Change(Fail(Wrap("error while updating task", e)), Some(updated))
      case Pass => Change(Pass, Some(updated))
  }

  /**
   * `UpdateByUser`: only the assignee may update, and only status, result and
   * comment, with the check date forced to now.
   */
  function UpdateByUser(s: Stores, params: UpdateTaskParams, now: Time): (c: Change)
    ensures s.findTask(params.taskId).Err? ==> c.result.Fail? && c.saved.None?
    ensures s.findTask(params.taskId).Err? && Is(s.findTask(params.taskId).error, TaskNotFound) ==>
      Is(c.result.error, TaskNotFound)
    ensures s.findTask(params.taskId).Ok? && s.findTask(params.taskId).value.assigneeId != params.currentUserId ==>
      c.result.Fail? && Is(c.result.error, NotAssignee) && c.saved.None?
    ensures c.saved.Some? ==>
      && s.findTask(params.taskId).Ok?
      && s.findTask(params.taskId).value.assigneeId == params.currentUserId
      && s.update(s.findTask(params.taskId).value, UserPatch(params.patch, now)) == Ok(c.saved.value)
    ensures s.findTask(params.taskId).Ok? && s.findTask(params.taskId).value.assigneeId == params.currentUserId ==>
      c == UpdateAndSave(s, s.findTask(params.taskId).value, UserPatch(params.patch, now))
  {
    match FindForUpdate(s, params.taskId)
    case Err(e) => Change(Fail(e), None)
    case Ok(task) =>
      if task.assigneeId != params.currentUserId then
        Change(Fail(Annotate(NotAssignee, "task with ID: " + params.taskId)), None)
      else
        UpdateAndSave(s, task, UserPatch(params.patch, now))
  }

  /** The patch names no assignee, or one the user store has. */
  predicate AssigneeExists(s: Stores, p: Patch) {
    p.assigneeId.None? || s.userExists(p.assigneeId.value) == Ok(true)
  }

  /** The patch names no folder, or one the folder store has. */
  predicate FolderExists(s: Stores, p: Patch) {
    p.folderId.None? || s.folderExists(p.folderId.value) == Ok(true)
  }

  /**
   * `UpdateByAdmin`: any field may change, but a new assignee or folder must
   * exist; the checks run before the patch is applied or anything is saved.
   */
  function UpdateByAdmin(s: Stores, params: UpdateTaskParams): (c: Change)
    ensures s.findTask(params.taskId).Err? ==> c.result.Fail? && c.saved.None?
    ensures s.findTask(params.taskId).Ok? && params.patch.assigneeId.Some? && s.userExists(params.patch.assigneeId.value) == Ok(false) ==>
      c.result.Fail? && Is(c.result.error, UserNotFound) && c.saved.None?
    ensures c.saved.Some? ==>
      && s.findTask(params.taskId).Ok?
      && (params.patch.assigneeId.Some? ==> s.userExists(params.patch.assigneeId.value) == Ok(true))
      && (params.patch.folderId.Some? ==> s.folderExists(params.patch.folderId.value) == Ok(true))
      && s.update(s.findTask(params.taskId).value, params.patch) == Ok(c.saved.value)
    ensures (&& s.findTask(params.taskId).Ok? && AssigneeExists(s, params.patch)
             && params.patch.folderId.Some? && s.folderExists(params.patch.folderId.value) == Ok(false)) ==>
      c.result.Fail? && Is(c.result.error, FolderNotFound) && c.saved.None?
    ensures s.findTask(params.taskId).Ok? && AssigneeExists(s, params.patch) && FolderExists(s, params.patch) ==>
      c == UpdateAndSave(s, s.findTask(params.taskId).value, params.patch)
  {
    match FindForUpdate(s, params.taskId)
    case Err(e) => Change(Fail(e), None)
    case Ok(task) =>
      var assigneeOk := if params.patch.assigneeId.Some? then CheckUser(s, params.patch.assigneeId.value) else Pass;
      if assigneeOk.Fail? then Change(assigneeOk, None)
      else
        var folderOk := if params.patch.folderId.Some? then CheckFolder(s, params.patch.folderId.value) else Pass;
        if folderOk.Fail? then Change(folderOk, None)
        else UpdateAndSave(s, task, params.patch)
  }

  /**
   * `Save`: the assignee and the folder must exist before the task is built.
   * A failed store write is reported with `%s`, so it no longer matches any
   * sentinel.
   */
  function Save(s: Stores, params: CreateTaskParams): (c: Change)
    ensures c.saved.Some? ==>
      && s.userExists(params.assigneeId) == Ok(true)
      && s.folderExists(params.folderId) == Ok(true)
      && s.newTask(params) == Ok(c.saved.value)
    ensures s.userExists(params.assigneeId) == Ok(false) ==> c.result.Fail? && Is(c.result.error, UserNotFound) && c.saved.None?
    ensures s.userExists(params.assigneeId) == Ok(true) && s.folderExists(params.folderId) == Ok(false) ==>
      c.result.Fail? && Is(c.result.error, FolderNotFound) && c.saved.None?
    ensures c.saved.Some? && s.saveTask(c.saved.value).Fail? ==>
      c.result.Fail? && forall t | IsSentinel(t) :: !Is(c.result.error, t)
    ensures c.result.Pass? <==> c.saved.Some? && s.saveTask(c.saved.value).Pass?
    ensures s.userExists(params.assigneeId) == Ok(true) && s.folderExists(params.folderId) == Ok(true) ==>
      && (s.newTask(params).Ok? ==> c.saved == Some(s.newTask(params).value))
      && (s.newTask(params).Err? ==> c == Change(Fail(s.newTask(params).error), None))
  {
    match CheckUser(s, params.assigneeId)
    case Fail(e) => Change(Fail(e), None)
    case Pass =>
      match CheckFolder(s, params.folderId)
      case Fail(e) => Change(Fail(e), None)
      case Pass =>
        match s.newTask(params)
        case Err(e) => Change(Fail(e), None)
        case Ok(task) =>
          match s.saveTask(task)
          case Fail(e) => Change(Fail(Failure("db error while saving: " + Message(e))), Some(task))
          case Pass => Change(Pass, Some(task))
  }

  /** `DeleteByID`: a not-found error is passed through untouched; every other error is wrapped. */
  function DeleteById(s: Stores, taskId: string): (r: Outcome<Error>)
    ensures r.Pass? <==> s.deleteTask(taskId).Pass?
    ensures r.Fail? && Is(s.deleteTask(taskId).error, TaskNotFound) ==> r.error == s.deleteTask(taskId).error
    ensures r.Fail? ==> (Is(r.error, TaskNotFound) <==> Is(s.deleteTask(taskId).error, TaskNotFound))
    ensures r.Fail? && !Is(s.deleteTask(taskId).error, TaskNotFound) ==> Message(r.error) == "db error: " + Message(s.deleteTask(taskId).error)
  {
    match s.deleteTask(taskId)
    case Pass => Pass
    case Fail(e) => if !Is(e, TaskNotFound) then Fail(Wrap("db error", e)) else Fail(e)
  }

  /** `service.TaskDetails`. */
  datatype TaskDetails = TaskDetails(
    id: string, softName: string, requestId: string, description: string, assigneeId: string, folderId: string,
    testEnvDateUpdate: Time, checkDate: Option<Time>, checkStatus: string, checkResult: string, comment: string,
    createdAt: Time)

  /** Every field of the task, copied. */
  function DetailsOf(t: Task): (d: TaskDetails)
    ensures d.id == t.id && d.softName == t.softName && d.requestId == t.requestId && d.description == t.description
    ensures d.assigneeId == t.assigneeId && d.folderId == t.folderId && d.testEnvDateUpdate == t.testEnvDateUpdate
    ensures d.checkDate == t.checkDate && d.checkStatus == t.checkStatus && d.checkResult == t.checkResult
    ensures d.comment == t.comment && d.createdAt == t.createdAt
  {
    TaskDetails(t.id, t.softName, t.requestId, t.description, t.assigneeId, t.folderId,
                t.testEnvDateUpdate, t.checkDate, t.checkStatus, t.checkResult, t.comment, t.createdAt)
  }

  /** `GetDetails`. It takes the caller's id and never looks at it. */
  function GetDetails(s: Stores, taskId: string, userId: string): (r: Result<TaskDetails, Error>)
    ensures r.Ok? <==> s.findTask(taskId).Ok?
    ensures r.Ok? ==> r.value == DetailsOf(s.findTask(taskId).value)
    ensures r.Err? ==> !Is(r.error, NotAssignee) || Is(s.findTask(taskId).error, NotAssignee)
    ensures r.Err? ==> (Is(r.error, TaskNotFound) <==> Is(s.findTask(taskId).error, TaskNotFound))
  {
    match s.findTask(taskId)
    case Err(e) =>
      if Is(e, TaskNotFound) then Err(Annotate(e, "not found with ID: " + taskId)) else Err(Wrap("db error", e))
    case Ok(t) => Ok(DetailsOf(t))
  }

  /** There is no assignee check: every caller gets the same answer. */
  lemma DetailsIgnoreCaller(s: Stores, taskId: string, u1: string, u2: string)
    ensures GetDetails(s, taskId, u1) == GetDetails(s, taskId, u2)
  {
  }

  /** `dto.TaskPreview`. */
  datatype TaskPreview = TaskPreview(id: string, checkStatus: string, softName: string, requestId: string, description: string, createdAt: Time)

  function Preview(t: Task): TaskPreview {
    TaskPreview(t.id, t.checkStatus, t.softName, t.requestId, t.description, t.createdAt)
  }

  /** `mapTaskToTaskPreview`: one preview per task, in the same order. */
  method MapPreviews(tasks: seq<Task>) returns (data: seq<TaskPreview>)
    ensures |data| == |tasks|
    ensures forall i | 0 <= i < |tasks| ::
      && data[i].id == tasks[i].id && data[i].checkStatus == tasks[i].checkStatus
      && data[i].softName == tasks[i].softName && data[i].requestId == tasks[i].requestId
      && data[i].description == tasks[i].description && data[i].createdAt == tasks[i].createdAt
  {
    data := [];
    var i := 0;
    while i < |tasks|
      invariant 0 <= i <= |tasks|
      invariant |data| == i
      invariant forall j | 0 <= j < i :: data[j] == Preview(tasks[j])
    {
      data := data + [Preview(tasks[i])];
      i := i + 1;
    }
  }

  /** `dto.TaskPreviewResponse`. */
  datatype PreviewPage = PreviewPage(data: seq<TaskPreview>, pagination: Pagination)

  /** `p` previews the query's page in order, paginated over its total count. */
  predicate Lists(s: Stores, p: PreviewPage, query: Page, page: int, pageSize: int) {
    && |p.data| == |query.tasks|
    && (forall i | 0 <= i < |query.tasks| :: p.data[i] == Preview(query.tasks[i]))
    && p.pagination == s.paginate(page, pageSize, query.totalCount)
  }

  /** The two searches share their shape: existence check, query, map, paginate. */
  method SearchWith(s: Stores, precheck: Outcome<Error>, query: Result<Page, Error>, page: int, pageSize: int)
    returns (r: Result<PreviewPage, Error>)
    ensures precheck.Fail? ==> r == Err(precheck.error)
    ensures precheck.Pass? && query.Err? ==> r.Err? && Message(r.error) == "error while searching: " + Message(query.error)
    ensures precheck.Pass? && query.Err? ==> forall t | IsSentinel(t) :: Is(r.error, t) <==> Is(query.error, t)
    ensures precheck.Pass? && query.Ok? ==> r.Ok?
    ensures r.Ok? ==> precheck.Pass? && query.Ok? && Lists(s, r.value, query.value, page, pageSize)
  {
    if precheck.Fail? {
      return Err(precheck.error);
    }
    if query.Err? {
      return Err(Wrap("error while searching", query.error));
    }
    var data := MapPreviews(query.value.tasks);
    r := Ok(PreviewPage(data, s.paginate(page, pageSize, query.value.totalCount)));
  }

  /** `SearchByFolderID`: a missing folder fails before the query. */
  method SearchByFolderId(s: Stores, q: SearchQuery) returns (r: Result<PreviewPage, Error>)
    ensures s.folderExists(q.ownerId) == Ok(false) ==> r.Err? && Is(r.error, FolderNotFound)
    ensures s.folderExists(q.ownerId) != Ok(true) ==> r == Err(CheckFolder(s, q.ownerId).error)
    ensures s.folderExists(q.ownerId) == Ok(true) && s.searchByFolder(q).Err? ==>
      && r.Err? && Message(r.error) == "error while searching: " + Message(s.searchByFolder(q).error)
      && forall t | IsSentinel(t) :: Is(r.error, t) <==> Is(s.searchByFolder(q).error, t)
    ensures s.folderExists(q.ownerId) == Ok(true) && s.searchByFolder(q).Ok? ==> r.Ok?
    ensures r.Ok? ==>
      && s.folderExists(q.ownerId) == Ok(true) && s.searchByFolder(q).Ok?
      && Lists(s, r.value, s.searchByFolder(q).value, q.page, q.pageSize)
  {
    r := SearchWith(s, CheckFolder(s, q.ownerId), s.searchByFolder(q), q.page, q.pageSize);
  }

  /** `SearchByUserID`: a missing user fails before the query. */
  method SearchByUserId(s: Stores, q: SearchQuery) returns (r: Result<PreviewPage, Error>)
    ensures s.userExists(q.ownerId) == Ok(false) ==> r.Err? && Is(r.error, UserNotFound)
    ensures s.userExists(q.ownerId) != Ok(true) ==> r == Err(CheckUser(s, q.ownerId).error)
    ensures s.userExists(q.ownerId) == Ok(true) && s.searchByUser(q).Err? ==>
      && r.Err? && Message(r.error) == "error while searching: " + Message(s.searchByUser(q).error)
      && forall t | IsSentinel(t) :: Is(r.error, t) <==> Is(s.searchByUser(q).error, t)
    ensures s.userExists(q.ownerId) == Ok(true) && s.searchByUser(q).Ok? ==> r.Ok?
    ensures r.Ok? ==>
      && s.userExists(q.ownerId) == Ok(true) && s.searchByUser(q).Ok?
      && Lists(s, r.value, s.searchByUser(q).value, q.page, q.pageSize)
  {
    r := SearchWith(s, CheckUser(s, q.ownerId), s.searchByUser(q), q.page, q.pageSize);
  }
}
