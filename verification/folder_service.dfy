/**
 * The folder service (internal/service/folder.go) over an abstract folder
 * store: details with the creator's name, soft delete, creation and search.
 */
module FolderService {
  import opened Wrappers
  import opened Errors
  import opened Domain
  import opened Store

  /** A folder loaded with its creator (`store.WithCreator`). */
  datatype CreatorFolder = CreatorFolder(folder: Folder, creator: User)

  datatype FolderPage = FolderPage(results: seq<FolderSearchResult>, totalCount: int)

  datatype Stores = Stores(
    findFolder: string -> Result<Folder, Error>,
    findWithCreator: string -> Result<CreatorFolder, Error>,
    saveFolder: Folder -> Outcome<Error>,
    /** The search query, given the page, the page size and the name filter. */
    search: (int, int, string) -> Result<FolderPage, Error>,
    paginate: (int, int, int) -> Pagination)

  /** `dto.FolderDetailsResponse`. */
  datatype FolderDetails = FolderDetails(name: string, createdAt: Time, assigneePerson: string)

  /** `dto.FolderDataResponse`. */
  datatype FolderData = FolderData(name: string, createdAt: Time, id: string, taskCount: int)

  datatype FolderList = FolderList(data: seq<FolderData>, pagination: Pagination)

  /** A command's result and the folder it handed to the store's save, if any. */
  datatype Change<T> = Change(result: Result<T, Error>, saved: Option<Folder>)

  /** The lookup errors of `Details` and `Delete`: not-found keeps its sentinel, the rest is a db error. */
  function LookupError(e: Error, detail: string): (r: Error)
    ensures Is(r, FolderNotFound) <==> Is(e, FolderNotFound)
  {
    if Is(e, FolderNotFound) then Annotate(e, detail) else Wrap("db error", e)
  }

  /** `Details`: the creator is shown surname first. */
  function Details(s: Stores, folderId: string): (r: Result<FolderDetails, Error>)
    ensures r.Ok? <==> s.findWithCreator(folderId).Ok?
    ensures r.Ok? ==> var cf := s.findWithCreator(folderId).value;
      r.value == FolderDetails(cf.folder.name, cf.folder.createdAt, cf.creator.lastName + " " + cf.creator.firstName)
    ensures r.Err? ==> (Is(r.error, FolderNotFound) <==> Is(s.findWithCreator(folderId).error, FolderNotFound))
  {
    match s.findWithCreator(folderId)
    case Err(e) => Err(LookupError(e, "with ID: " + folderId))
    case Ok(cf) => Ok(FolderDetails(cf.folder.name, cf.folder.createdAt, cf.creator.lastName + " " + cf.creator.firstName))
  }

  /** `Delete`: a soft delete. The folder is marked deleted at `now` and saved back; nothing is removed. */
  function Delete(s: Stores, folderId: string, now: Time): (c: Change<()>)
    ensures s.findFolder(folderId).Err? ==>
      && c.result.Err? && c.saved.None?
      && (Is(c.result.error, FolderNotFound) <==> Is(s.findFolder(folderId).error, FolderNotFound))
    ensures s.findFolder(folderId).Ok? ==>
      var f := s.findFolder(folderId).value;
      && c.saved.Some?
      && IsDeleted(c.saved.value) && c.saved.value.deletedAt == Some(now)
      && c.saved.value.(deletedAt := f.deletedAt) == f
      && (c.result.Ok? <==> s.saveFolder(c.saved.value).Pass?)
  {
    match s.findFolder(folderId)
    case Err(e) => Change(Err(LookupError(e, "not found with ID: " + folderId)), None)
    case Ok(f) =>
      var deleted := Domain.Delete(f, now);
      match s.saveFolder(deleted)
      case Fail(e) => Change(Err(Wrap("db error", e)), Some(deleted))
      case Pass => Change(Ok(()), Some(deleted))
  }

  /**
   * `Save`: an invalid folder is rejected before any write; a stored one is
   * echoed back with no tasks. A store failure is reported with `%s`.
   */
  function Save(s: Stores, name: string, userId: string, freshId: string, now: Time): (c: Change<FolderData>)
    ensures (name == "" || userId == "") ==> c.result.Err? && Is(c.result.error, Validation) && c.saved.None?
    ensures c.saved.Some? ==> c.saved == Some(NewFolder(name, userId, freshId, now).value)
    ensures c.result.Ok? ==>
      && c.saved.Some?
      && c.result.value == FolderData(name, now, freshId, 0)
      && s.saveFolder(c.saved.value).Pass?
    ensures c.saved.Some? && s.saveFolder(c.saved.value).Fail? ==>
      c.result.Err? && forall t | IsSentinel(t) :: !Is(c.result.error, t)
    ensures name != "" && userId != "" ==> c.saved.Some?
    ensures name != "" && userId != "" && s.saveFolder(NewFolder(name, userId, freshId, now).value).Pass? ==>
      c.result == Ok(FolderData(name, now, freshId, 0))
  {
    match NewFolder(name, userId, freshId, now)
    case Err(e) => Change(Err(e), None)
    case Ok(f) =>
      match s.saveFolder(f)
      case Fail(e) => Change(Err(Failure(Message(e) + ": failed to save folder")), Some(f))
      case Pass => Change(Ok(FolderData(f.name, f.createdAt, f.id, 0)), Some(f))
  }

  function DataOf(r: FolderSearchResult): FolderData {
    FolderData(r.name, r.createdAt, r.id, r.taskCount)
  }

  /** `Search`: one entry per result, in order, with its task count. */
  method Search(s: Stores, page: int, pageSize: int, query: string) returns (r: Result<FolderList, Error>)
    ensures r.Err? <==> s.search(page, pageSize, query).Err?
    ensures r.Err? ==> Message(r.error) == Message(s.search(page, pageSize, query).error) + ": error while searching"
    ensures r.Err? ==> forall t | IsSentinel(t) :: !Is(r.error, t)
    ensures r.Ok? ==>
      var results := s.search(page, pageSize, query).value.results;
      && |r.value.data| == |results|
      && (forall i | 0 <= i < |results| ::
            && r.value.data[i].id == results[i].id && r.value.data[i].name == results[i].name
            && r.value.data[i].createdAt == results[i].createdAt && r.value.data[i].taskCount == results[i].taskCount)
      && r.value.pagination == s.paginate(page, pageSize, s.search(page, pageSize, query).value.totalCount)
  {
    var found := s.search(page, pageSize, query);
    if found.Err? {
      return Err(Failure(Message(found.error) + ": error while searching"));
    }
    var results := found.value.results;
    var data: seq<FolderData> := [];
    var i := 0;
    while i < |results|
      invariant 0 <= i <= |results| && |data| == i
      invariant forall j | 0 <= j < i :: data[j] == DataOf(results[j])
    {
      data := data + [DataOf(results[i])];
      i := i + 1;
    }
    r := Ok(FolderList(data, s.paginate(page, pageSize, found.value.totalCount)));
  }
}
