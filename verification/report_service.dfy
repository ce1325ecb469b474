/**
 * The folder report (internal/service/report.go): load the folder and its
 * tasks with their assignees, map each to a report row, hand the rows to
 * the spreadsheet generator and name the file after the folder.
 */
module ReportService {
  import opened Wrappers
  import opened Errors
  import opened Domain
  import opened Store
  import opened GoStrings

  /** `service.TaskReportRow`. A missing check date becomes the zero time. */
  datatype TaskReportRow = TaskReportRow(
    softName: string, requestId: string, description: string, assigneePerson: string,
    testEnvDateUpdate: Time, checkDate: Time, checkStatus: string, checkResult: string, comment: string)

  datatype ReportData = ReportData(fileName: string, data: seq<bv8>)

  datatype Stores = Stores(
    findFolder: string -> Result<Folder, Error>,
    tasksWithUsers: string -> Result<seq<TaskWithUser>, Error>,
    /** `ReportGenerator.Generate`. */
    generate: seq<TaskReportRow> -> Result<seq<bv8>, Error>)

  /** The row of one task: assignee surname first, the check date or the zero time. */
  function RowOf(t: TaskWithUser): (row: TaskReportRow)
    ensures row.assigneePerson == t.lastName + " " + t.firstName
    ensures t.checkDate.None? ==> row.checkDate == ZeroTime
    ensures t.checkDate.Some? ==> row.checkDate == t.checkDate.value
    ensures row.softName == t.softName && row.requestId == t.requestId && row.description == t.description
    ensures row.testEnvDateUpdate == t.testEnvDateUpdate && row.checkStatus == t.checkStatus
    ensures row.checkResult == t.checkResult && row.comment == t.comment
  {
    TaskReportRow(t.softName, t.requestId, t.description, t.lastName + " " + t.firstName, t.testEnvDateUpdate,
                  if t.checkDate.Some? then t.checkDate.value else ZeroTime, t.checkStatus, t.checkResult, t.comment)
  }

  /** The rows, one per task, in order. */
  method Rows(tasks: seq<TaskWithUser>) returns (rows: seq<TaskReportRow>)
    ensures |rows| == |tasks|
    ensures forall i | 0 <= i < |tasks| :: rows[i] == RowOf(tasks[i])
  {
    rows := [];
    var i := 0;
    while i < |tasks|
      invariant 0 <= i <= |tasks| && |rows| == i
      invariant forall j | 0 <= j < i :: rows[j] == RowOf(tasks[j])
    {
      rows := rows + [RowOf(tasks[i])];
      i := i + 1;
    }
  }

  /** The file name: the folder's name, "_", the timestamp, ".xlsx". */
  function FileName(folderName: string, stamp: string): (n: string)
    ensures HasPrefix(n, folderName + "_")
    ensures |n| >= 5 && n[|n| - 5..] == ".xlsx"
  {
    folderName + "_" + stamp + ".xlsx"
  }

  /**
   * `Create`. `stamp` is the creation time as `2006-01-02_15-04-05`
   * formats it. A missing folder fails before the tasks are read or the
   * generator runs; a generator error is returned as it is.
   */
  method Create(s: Stores, folderId: string, stamp: string) returns (r: Result<ReportData, Error>)
    ensures s.findFolder(folderId).Err? ==>
      && r.Err?
      && (Is(r.error, FolderNotFound) <==> Is(s.findFolder(folderId).error, FolderNotFound))
    ensures s.findFolder(folderId).Ok? && s.tasksWithUsers(folderId).Err? ==> r.Err?
    ensures s.findFolder(folderId).Ok? && s.tasksWithUsers(folderId).Ok? ==>
      var tasks := s.tasksWithUsers(folderId).value;
      var rows := seq(|tasks|, i requires 0 <= i < |tasks| => RowOf(tasks[i]));
      && (s.generate(rows).Err? ==> r == Err(s.generate(rows).error))
      && (s.generate(rows).Ok? ==>
            r == Ok(ReportData(FileName(s.findFolder(folderId).value.name, stamp), s.generate(rows).value)))
  {
    var folder := s.findFolder(folderId);
    if folder.Err? {
      var e := folder.error;
      return Err(if Is(e, FolderNotFound) then Annotate(e, "with ID: " + folderId) else Wrap("db error", e));
    }
    var tasks := s.tasksWithUsers(folderId);
    if tasks.Err? {
      return Err(Wrap("db error", tasks.error));
    }
    var rows := Rows(tasks.value);
    assert rows == seq(|tasks.value|, i requires 0 <= i < |tasks.value| => RowOf(tasks.value[i]));
    var report := s.generate(rows);
    if report.Err? {
      return Err(report.error);
    }
    r := Ok(ReportData(FileName(folder.value.name, stamp), report.value));
  }
}
