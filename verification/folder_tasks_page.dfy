/**
 * The folder's task table (frontend/src/pages/FolderTasksPage.jsx): the
 * description truncation and the table state behind the task request —
 * the 0-based page, the page size, the status filter and the search text.
 */
module FolderTasksPage {
  import opened GoStrings

  const Ellipsis := "..."

  /** The count `String.prototype.substring(0, n)` keeps: `n` clamped to the text. */
  function Kept(text: string, maxLength: int): (n: nat)
    ensures n <= |text| && (0 <= maxLength <= |text| ==> n == maxLength)
  {
    if maxLength < 0 then 0 else if maxLength > |text| then |text| else maxLength
  }

  /** `truncateText`. */
  function Truncate(text: string, maxLength: int): (r: string)
    ensures |text| <= maxLength ==> r == text
    ensures |text| > maxLength ==> HasPrefix(r, text[..Kept(text, maxLength)]) && r[Kept(text, maxLength)..] == Ellipsis
    ensures |r| <= (if maxLength < 0 then 0 else maxLength) + |Ellipsis|
    ensures var m := if maxLength < 0 then 0 else maxLength;
            var n := if |text| < m then |text| else m;
            r[..n] == text[..n]
  {
    if |text| <= maxLength then text else text[..Kept(text, maxLength)] + Ellipsis
  }

  /** Truncating twice to the same length changes nothing more. */
  lemma TruncateIdempotent(text: string, maxLength: int)
    ensures Truncate(Truncate(text, maxLength), maxLength) == Truncate(text, maxLength)
  {
    if |text| > maxLength {
      var r := Truncate(text, maxLength);
      var n := Kept(text, maxLength);
      assert |r| == n + 3;
      assert Kept(r, maxLength) == n;
      assert r[..n] == text[..n];
    }
  }

  /** The table's state. */
  datatype Table = Table(page: nat, rowsPerPage: int, statusFilter: string, searchQuery: string)

  /** The control a user changes. */
  datatype Event = StatusChange(status: string) | PageChange(newPage: nat) | RowsPerPageChange(rows: int) | SearchChange(text: string)

  /** The query `fetchTasks` sends: the page is 1-based on the wire. */
  datatype Request = Request(page: int, pageSize: int, checkStatus: string, requestId: string)

  /** The page first shows page 0, ten rows, no filter and no search. */
  const Initial := Table(0, 10, "", "")

  function RequestOf(t: Table): (r: Request)
    ensures r.page == t.page + 1 >= 1
    ensures r.pageSize == t.rowsPerPage && r.checkStatus == t.statusFilter && r.requestId == t.searchQuery
  {
    Request(t.page + 1, t.rowsPerPage, t.statusFilter, t.searchQuery)
  }

  /** The four handlers. */
  function Step(t: Table, e: Event): (t': Table)
    ensures e.StatusChange? ==> t' == t.(page := 0, statusFilter := e.status)
    ensures e.PageChange? ==> t' == t.(page := e.newPage)
    ensures e.RowsPerPageChange? ==> t' == t.(page := 0, rowsPerPage := e.rows)
    ensures e.SearchChange? ==> t' == t.(searchQuery := e.text)
  {
    match e
    case StatusChange(status) => Table(0, t.rowsPerPage, status, t.searchQuery)
    case PageChange(p) => Table(p, t.rowsPerPage, t.statusFilter, t.searchQuery)
    case RowsPerPageChange(rows) => Table(0, rows, t.statusFilter, t.searchQuery)
    case SearchChange(text) => Table(t.page, t.rowsPerPage, t.statusFilter, text)
  }

  /** A new status filter or page size always asks for the first page, whatever page was shown. */
  lemma FilterOrSizeRestartsAtFirstPage(t: Table, e: Event)
    requires e.StatusChange? || e.RowsPerPageChange?
    ensures RequestOf(Step(t, e)).page == 1
    ensures e.StatusChange? ==> RequestOf(Step(t, e)) == RequestOf(t).(page := 1, checkStatus := e.status)
    ensures e.RowsPerPageChange? ==> RequestOf(Step(t, e)) == RequestOf(t).(page := 1, pageSize := e.rows)
  {
  }

  /** A new search text keeps the current page: only the two other controls reset it. */
  lemma SearchKeepsPage(t: Table, text: string)
    ensures RequestOf(Step(t, SearchChange(text))).page == RequestOf(t).page
  {
  }
}
