/** Records exchanged with the stores (internal/store/store.go and the query results the services read). */
module Store {
  import opened Wrappers
  import opened Errors
  import opened Domain

  /** `store.SessionData`: the token bundle of one browser session. `absoluteExpiry` is a Unix time in seconds. */
  datatype SessionData = SessionData(accessToken: string, refreshToken: string, idToken: string, absoluteExpiry: int)

  /** `store.TaskCountResult`: per-assignee task counts. */
  datatype TaskCountResult = TaskCountResult(userId: string, inProgress: int, completed: int)

  /** `store.FolderSearchResult`: a folder with its number of tasks. */
  datatype FolderSearchResult = FolderSearchResult(id: string, name: string, createdAt: Time, taskCount: int)

  /** A task joined with its assignee's names, as read for a report. */
  datatype TaskWithUser = TaskWithUser(
    softName: string,
    requestId: string,
    description: string,
    firstName: string,
    lastName: string,
    testEnvDateUpdate: Time,
    checkDate: Option<Time>,
    checkStatus: string,
    checkResult: string,
    comment: string)

  /** `store.PaginationResult`, computed by code outside this model. */
  datatype Pagination = Pagination(page: int, pageSize: int, totalCount: int, totalPages: int, hasNext: bool, hasPrev: bool)

  /** `store.UserStore` as the auth core uses it, as oracles: a lookup by id and the outcome of a save. */
  datatype UserStore = UserStore(findById: string -> Result<User, Error>, save: User -> Outcome<Error>)
}
