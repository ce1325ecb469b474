/**
 * Domain entities and constructors (internal/domain): users, folders with
 * soft deletion, tasks, and the check status / check result vocabularies.
 *
 * Times are whole seconds counted from Go's zero `time.Time`
 * (0001-01-01 00:00:00 UTC), so the zero value is 0. A `*time.Time` is an
 * `Option<Time>`.
 */
module Domain {
  import opened Wrappers
  import opened Errors

  type Time = int

  const ZeroTime: Time := 0

  // ---- users ----------------------------------------------------------------

  datatype User = User(id: string, email: string, firstName: string, lastName: string)

  /** What `NewUser` accepts: every field present. Nothing else is checked, not even the e-mail format. */
  predicate ValidUser(u: User) {
    u.id != "" && u.email != "" && u.firstName != "" && u.lastName != ""
  }

  /** `domain.NewUser`. */
  function NewUser(userId: string, email: string, firstName: string, lastName: string): (r: Result<User, Error>)
    ensures r.Err? <==> (userId == "" || email == "" || firstName == "" || lastName == "")
    ensures r.Err? ==> r.error == Validation
    ensures r.Ok? ==> ValidUser(r.value)
    ensures r.Ok? ==> r.value.id == userId && r.value.email == email
    ensures r.Ok? ==> r.value.firstName == firstName && r.value.lastName == lastName
  {
    if userId == "" || email == "" || firstName == "" || lastName == "" then
      Err(Validation)
    else
      Ok(User(userId, email, firstName, lastName))
  }

  /** Every valid user is rebuilt exactly by `NewUser` from its own fields, and only valid users are. */
  lemma NewUserRoundTrip(u: User)
    ensures NewUser(u.id, u.email, u.firstName, u.lastName) == (if ValidUser(u) then Ok(u) else Err(Validation))
  {
  }

  // ---- folders --------------------------------------------------------------

  datatype Folder = Folder(id: string, name: string, createdBy: string, createdAt: Time, deletedAt: Option<Time>)

  predicate IsDeleted(f: Folder) {
    f.deletedAt.Some?
  }

  /**
   * `domain.NewFolder`. `freshId` stands for `uuid.NewString()` and `now`
   * for `time.Now().UTC()`.
   */
  function NewFolder(name: string, userId: string, freshId: string, now: Time): (r: Result<Folder, Error>)
    ensures r.Err? <==> (name == "" || userId == "")
    ensures r.Err? ==> Is(r.error, Validation)
    ensures r.Ok? ==> r.value.name == name && r.value.createdBy == userId
    ensures r.Ok? ==> r.value.id == freshId && r.value.createdAt == now
    ensures r.Ok? ==> !IsDeleted(r.value)
  {
    if name == "" || userId == "" then
      Err(Annotate(Validation, "name or user id is empty"))
    else
      Ok(Folder(freshId, name, userId, now, None))
  }

  /** `(*Folder).Delete`: a soft delete that stamps the current time and touches nothing else. */
  function Delete(f: Folder, now: Time): (r: Folder)
    ensures IsDeleted(r) && r.deletedAt == Some(now)
    ensures r.id == f.id && r.name == f.name && r.createdBy == f.createdBy && r.createdAt == f.createdAt
  {
    f.(deletedAt := Some(now))
  }

  /** Deleting again only moves the stamp; the folder stays deleted. */
  lemma DeleteTwice(f: Folder, t1: Time, t2: Time)
    ensures Delete(Delete(f, t1), t2) == Delete(f, t2)
  {
  }

  // ---- tasks ----------------------------------------------------------------

  const NotChecked := "not_checked"
  const Checked := "checked"
  const PartiallyChecked := "partially_checked"
  const FailedCheck := "failed_check"

  /** The four values of `domain.CheckStatus`. */
  const CheckStatuses: set<string> := {NotChecked, Checked, PartiallyChecked, FailedCheck}

  const ResultSuccess := "success"
  const ResultFailure := "failure"
  const ResultWarning := "warning"

  /**
   * A task row. `assigneeId`, `folderId` and `createdAt` are the fields the
   * services read; their declarations sit in code outside this model.
   */
  datatype Task = Task(
    id: string,
    softName: string,
    requestId: string,
    description: string,
    assigneeId: string,
    folderId: string,
    testEnvDateUpdate: Time,
    checkDate: Option<Time>,
    checkStatus: string,
    checkResult: string,
    comment: string,
    createdAt: Time)
}
