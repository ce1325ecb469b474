/**
 * The user search (internal/service/user.go): a page of users, each with
 * the number of its tasks still to check and already checked, merged in
 * from one count query over the page's ids.
 */
module UserService {
  import opened Wrappers
  import opened Errors
  import opened Domain
  import opened Store
  import opened GoStrings

  /** The statuses counted as in progress, and as completed. */
  const InProgressStatuses: seq<string> := [NotChecked]
  const CompletedStatuses: seq<string> := [Checked, FailedCheck, PartiallyChecked]

  /** Every status is counted exactly once: the two lists are disjoint and cover all four. */
  lemma StatusClassesPartition()
    ensures (set s | s in InProgressStatuses) !! (set s | s in CompletedStatuses)
    ensures (set s | s in InProgressStatuses) + (set s | s in CompletedStatuses) == CheckStatuses
  {
    assert (set s | s in InProgressStatuses) == {NotChecked};
    assert (set s | s in CompletedStatuses) == {Checked, FailedCheck, PartiallyChecked};
  }

  datatype SearchUsersParams = SearchUsersParams(page: int, pageSize: int, fullName: string)

  datatype UserPage = UserPage(users: seq<User>, totalCount: int)

  datatype Stores = Stores(
    /** The user query, given the page, the page size and the name filter. */
    searchUsers: (int, int, string) -> Result<UserPage, Error>,
    /** `GetTaskCountsForUsers(ids, inProgress, completed)`. */
    taskCounts: (seq<string>, seq<string>, seq<string>) -> Result<seq<TaskCountResult>, Error>,
    paginate: (int, int, int) -> Pagination)

  /** `dto.UserPreview`. */
  datatype UserPreview = UserPreview(id: string, fullName: string, inProgress: int, completed: int)

  datatype UserList = UserList(data: seq<UserPreview>, pagination: Pagination)

  /** The count result a user gets: the last one carrying its id, as a map filled in order keeps it. */
  function LastFor(counts: seq<TaskCountResult>, userId: string): (r: Option<TaskCountResult>)
    ensures r.Some? ==> r.value in counts && r.value.userId == userId
    ensures r.None? ==> forall k | 0 <= k < |counts| :: counts[k].userId != userId
  {
    if |counts| == 0 then None
    else if counts[|counts| - 1].userId == userId then Some(counts[|counts| - 1])
    else LastFor(counts[..|counts| - 1], userId)
  }

  /** The preview of one user: "First Last", and zero counts when the count query said nothing about it. */
  function PreviewOf(u: User, counts: seq<TaskCountResult>): (p: UserPreview)
    ensures p.id == u.id && p.fullName == u.firstName + " " + u.lastName
    ensures LastFor(counts, u.id).None? ==> p.inProgress == 0 && p.completed == 0
    ensures LastFor(counts, u.id).Some? ==>
      p.inProgress == LastFor(counts, u.id).value.inProgress && p.completed == LastFor(counts, u.id).value.completed
  {
    match LastFor(counts, u.id)
    case None => UserPreview(u.id, u.firstName + " " + u.lastName, 0, 0)
    case Some(c) => UserPreview(u.id, u.firstName + " " + u.lastName, c.inProgress, c.completed)
  }

  /** `taskCountsMap`: one entry per user id seen, holding the last result for it. */
  method CountsByUser(counts: seq<TaskCountResult>) returns (m: map<string, TaskCountResult>)
    ensures forall id :: id in m <==> LastFor(counts, id).Some?
    ensures forall id | id in m :: m[id] == LastFor(counts, id).value
  {
    m := map[];
    var i := 0;
    while i < |counts|
      invariant 0 <= i <= |counts|
      invariant forall id :: id in m <==> LastFor(counts[..i], id).Some?
      invariant forall id | id in m :: m[id] == LastFor(counts[..i], id).value
    {
      assert counts[..i + 1][..i] == counts[..i];
      m := m[counts[i].userId := counts[i]];
      i := i + 1;
    }
    assert counts[..i] == counts;
  }

  /** The ids of a page of users, in order. */
  function IdsOf(users: seq<User>): (ids: seq<string>)
    ensures |ids| == |users| && forall i | 0 <= i < |users| :: ids[i] == users[i].id
  {
    seq(|users|, i requires 0 <= i < |users| => users[i].id)
  }

  /** One preview per user, in page order, with the counts looked up in the map built from `counts`. */
  method Merge(users: seq<User>, counts: seq<TaskCountResult>) returns (data: seq<UserPreview>)
    ensures |data| == |users|
    ensures forall i | 0 <= i < |users| :: data[i] == PreviewOf(users[i], counts)
  {
    var byUser := CountsByUser(counts);
    data := [];
    var i := 0;
    while i < |users|
      invariant 0 <= i <= |users| && |data| == i
      invariant forall j | 0 <= j < i :: data[j] == PreviewOf(users[j], counts)
    {
      var u := users[i];
      var inProgress, completed := 0, 0;
      if u.id in byUser {
        inProgress, completed := byUser[u.id].inProgress, byUser[u.id].completed;
      }
      data := data + [UserPreview(u.id, u.firstName + " " + u.lastName, inProgress, completed)];
      i := i + 1;
    }
  }

  /** `data` previews `users` one for one, in order, with counts taken from `counts`. */
  predicate Previews(data: seq<UserPreview>, users: seq<User>, counts: seq<TaskCountResult>) {
    |data| == |users| && forall i | 0 <= i < |users| :: data[i] == PreviewOf(users[i], counts)
  }

  /** The second half of `Search`, for a non-empty page: the count query, then the merge. */
  method Listing(s: Stores, users: seq<User>, pagination: Pagination) returns (r: Result<UserList, Error>)
    ensures s.taskCounts(IdsOf(users), InProgressStatuses, CompletedStatuses).Err? <==> r.Err?
    ensures r.Ok? ==>
      && r.value.pagination == pagination
      && Previews(r.value.data, users, s.taskCounts(IdsOf(users), InProgressStatuses, CompletedStatuses).value)
  {
    var counts := s.taskCounts(IdsOf(users), InProgressStatuses, CompletedStatuses);
    if counts.Err? {
      return Err(Wrap("error while getting task counts", counts.error));
    }
    var data := Merge(users, counts.value);
    r := Ok(UserList(data, pagination));
  }

  /** The page the store returns for the search: the name filter is passed trimmed. */
  function PageFor(s: Stores, params: SearchUsersParams): Result<UserPage, Error> {
    s.searchUsers(params.page, params.pageSize, TrimSpace(params.fullName))
  }

  /**
   * `Search`. The name filter reaches the store trimmed; an empty page is
   * answered without asking for counts; otherwise one preview per user, in
   * page order.
   */
  method Search(s: Stores, params: SearchUsersParams) returns (r: Result<UserList, Error>)
    ensures PageFor(s, params).Err? ==> r.Err?
    ensures PageFor(s, params).Ok? && |PageFor(s, params).value.users| == 0 ==>
      r == Ok(UserList([], s.paginate(params.page, params.pageSize, PageFor(s, params).value.totalCount)))
    ensures r.Ok? ==> PageFor(s, params).Ok?
    ensures PageFor(s, params).Ok? && |PageFor(s, params).value.users| > 0 ==>
      (r.Ok? <==> s.taskCounts(IdsOf(PageFor(s, params).value.users), InProgressStatuses, CompletedStatuses).Ok?)
    ensures r.Ok? ==> r.value.pagination == s.paginate(params.page, params.pageSize, PageFor(s, params).value.totalCount)
    ensures r.Ok? ==> |r.value.data| == |PageFor(s, params).value.users|
    ensures r.Ok? && |PageFor(s, params).value.users| > 0 ==>
      && s.taskCounts(IdsOf(PageFor(s, params).value.users), InProgressStatuses, CompletedStatuses).Ok?
      && Previews(r.value.data, PageFor(s, params).value.users,
                  s.taskCounts(IdsOf(PageFor(s, params).value.users), InProgressStatuses, CompletedStatuses).value)
  {
    var page := PageFor(s, params);
    if page.Err? {
      return Err(Wrap("error while searching users", page.error));
    }
    var pagination := s.paginate(params.page, params.pageSize, page.value.totalCount);
    if |page.value.users| == 0 {
      return Ok(UserList([], pagination));
    }
    r := Listing(s, page.value.users, pagination);
  }
}
