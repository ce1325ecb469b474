/**
 * The folder report spreadsheet (internal/excel/generator.go): the value
 * translations and the cell, style and column layout the generator writes.
 * Styles are named, not built; the workbook is the sequence of cell writes.
 */
module Excel {
  import opened Domain
  import opened ReportService

  const SheetName := "Отчет по таскам"

  /** `getStatusDisplay`: the four known statuses in Russian, anything else as it is. */
  function StatusDisplay(status: string): (d: string)
    ensures status == NotChecked ==> d == "не проверено"
    ensures status == Checked ==> d == "проверено"
    ensures status == PartiallyChecked ==> d == "проверено частично"
    ensures status == FailedCheck ==> d == "провалено"
    ensures status !in CheckStatuses ==> d == status
  {
    if status == NotChecked then "не проверено"
    else if status == Checked then "проверено"
    else if status == PartiallyChecked then "проверено частично"
    else if status == FailedCheck then "провалено"
    else status
  }

  const CheckResults: set<string> := {ResultSuccess, ResultFailure, ResultWarning}

  /** `getResultDisplay`: the three known results in Russian, "" as "-", anything else as it is. */
  function ResultDisplay(result: string): (d: string)
    ensures result == ResultSuccess ==> d == "успешно"
    ensures result == ResultFailure ==> d == "неуспешно"
    ensures result == ResultWarning ==> d == "есть замечания"
    ensures result == "" ==> d == "-"
    ensures result !in CheckResults && result != "" ==> d == result
    ensures d != ""
  {
    if result == ResultSuccess then "успешно"
    else if result == ResultFailure then "неуспешно"
    else if result == ResultWarning then "есть замечания"
    else if result == "" then "-"
    else result
  }

  /** The styles the generator registers. */
  datatype Style = HeaderStyle | DefaultStyle | DateStyle | SuccessStyle | FailureStyle | WarningStyle | OtherStyle

  /** `getResultStyle`: a style per known result; everything else, "" included, gets "other". */
  function ResultStyle(result: string): (s: Style)
    ensures s == SuccessStyle <==> result == ResultSuccess
    ensures s == FailureStyle <==> result == ResultFailure
    ensures s == WarningStyle <==> result == ResultWarning
    ensures s == OtherStyle <==> result !in CheckResults
  {
    if result == ResultSuccess then SuccessStyle
    else if result == ResultFailure then FailureStyle
    else if result == ResultWarning then WarningStyle
    else OtherStyle
  }

  /** The font colour of a result style: white on green and red, black on orange and grey. */
  function ResultFont(s: Style): string
    requires s in {SuccessStyle, FailureStyle, WarningStyle, OtherStyle}
  {
    if s == WarningStyle || s == OtherStyle then "000000" else "FFFFFF"
  }

  lemma WhiteOnlyForSuccessAndFailure(result: string)
    ensures ResultFont(ResultStyle(result)) == "FFFFFF" <==> result == ResultSuccess || result == ResultFailure
  {
  }

  datatype Value = Text(text: string) | Date(time: Time) | Blank

  /** One `SetCellValue` plus `SetCellStyle` at a 1-based column and row. */
  datatype Cell = Cell(col: nat, row: nat, value: Value, style: Style)

  const Headers: seq<string> := [
    "ПО",
    "Номер заявки\nРазработчик/\nММ",
    "Описание задачи",
    "Ответственный от КБР",
    "Дата\nобновления\nтестовой\nсреды",
    "Дата\nпроверки\nФакт",
    "Статус проверки",
    "Результат\nпроверки",
    "Комментарий к тестированию"
  ]

  /** Widths of columns A to I. */
  const ColumnWidths: seq<int> := [25, 20, 40, 20, 20, 15, 15, 15, 35]

  const ColumnCount := 9

  /** A date cell: the zero time is written as an empty cell. */
  function DateValue(t: Time): Value {
    if t == ZeroTime then Blank else Date(t)
  }

  /** The values of one task, in column order. */
  function RowValues(task: TaskReportRow): (vs: seq<Value>)
    ensures |vs| == ColumnCount
  {
    [Text(task.softName), Text(task.requestId), Text(task.description), Text(task.assigneePerson),
     DateValue(task.testEnvDateUpdate), DateValue(task.checkDate),
     Text(StatusDisplay(task.checkStatus)), Text(ResultDisplay(task.checkResult)), Text(task.comment)]
  }

  /** The style of a 0-based column of a task row. */
  function ColumnStyle(col: nat, task: TaskReportRow): Style {
    if col == 4 || col == 5 then DateStyle
    else if col == 7 then ResultStyle(task.checkResult)
    else DefaultStyle
  }

  /** `writeTaskRow`: nine cells of one row, in column order. */
  function TaskRow(row: nat, task: TaskReportRow): (cells: seq<Cell>)
    ensures |cells| == ColumnCount
    ensures forall c | 0 <= c < ColumnCount :: cells[c].col == c + 1 && cells[c].row == row
    ensures forall c | 0 <= c < ColumnCount :: cells[c].style == (if c == 4 || c == 5 then DateStyle
                                                                else if c == 7 then ResultStyle(task.checkResult)
                                                                else DefaultStyle)
    ensures cells[4].value == (if task.testEnvDateUpdate == ZeroTime then Blank else Date(task.testEnvDateUpdate))
    ensures cells[5].value == (if task.checkDate == ZeroTime then Blank else Date(task.checkDate))
    ensures cells[6].value == Text(StatusDisplay(task.checkStatus)) && cells[7].value == Text(ResultDisplay(task.checkResult))
    ensures cells[0].value == Text(task.softName) && cells[1].value == Text(task.requestId)
    ensures cells[2].value == Text(task.description) && cells[3].value == Text(task.assigneePerson)
    ensures cells[8].value == Text(task.comment)
  {
    var vs := RowValues(task);
    seq(ColumnCount, c requires 0 <= c < ColumnCount => Cell(c + 1, row, vs[c], ColumnStyle(c, task)))
  }

  /** `setupSheet`: the nine headers across row 1, in the header style. */
  function HeaderRow(): (cells: seq<Cell>)
    ensures |cells| == ColumnCount == |Headers| == |ColumnWidths|
    ensures forall c | 0 <= c < ColumnCount :: cells[c] == Cell(c + 1, 1, Text(Headers[c]), HeaderStyle)
  {
    seq(ColumnCount, c requires 0 <= c < ColumnCount => Cell(c + 1, 1, Text(Headers[c]), HeaderStyle))
  }

  /** `fillData`: task i fills row i + 2, so the header row is never written over. */
  method FillData(tasks: seq<TaskReportRow>) returns (cells: seq<Cell>)
    ensures |cells| == ColumnCount * |tasks|
    ensures forall k | 0 <= k < |cells| :: cells[k] == TaskRow(k / ColumnCount + 2, tasks[k / ColumnCount])[k % ColumnCount]
    ensures forall k | 0 <= k < |cells| :: cells[k].row >= 2
  {
    cells := [];
    var i := 0;
    while i < |tasks|
      invariant 0 <= i <= |tasks|
      invariant |cells| == ColumnCount * i
      invariant forall k | 0 <= k < |cells| :: cells[k] == TaskRow(k / ColumnCount + 2, tasks[k / ColumnCount])[k % ColumnCount]
      invariant forall k | 0 <= k < |cells| :: cells[k].row >= 2
    {
      AppendRowKeepsLayout(tasks, i, cells);
      cells := cells + TaskRow(i + 2, tasks[i]);
      i := i + 1;
    }
  }

  /** Appending the row of task `i` after `i` full rows keeps every cell at row k / 9 + 2, column k % 9. */
  lemma AppendRowKeepsLayout(tasks: seq<TaskReportRow>, i: nat, cells: seq<Cell>)
    requires i < |tasks| && |cells| == ColumnCount * i
    requires forall k | 0 <= k < |cells| :: cells[k] == TaskRow(k / ColumnCount + 2, tasks[k / ColumnCount])[k % ColumnCount]
    requires forall k | 0 <= k < |cells| :: cells[k].row >= 2
    ensures var next := cells + TaskRow(i + 2, tasks[i]);
      && |next| == ColumnCount * (i + 1)
      && (forall k | 0 <= k < |next| :: next[k] == TaskRow(k / ColumnCount + 2, tasks[k / ColumnCount])[k % ColumnCount])
      && (forall k | 0 <= k < |next| :: next[k].row >= 2)
  {
    var row := TaskRow(i + 2, tasks[i]);
    var next := cells + row;
    forall k | 0 <= k < |next|
      ensures next[k] == TaskRow(k / ColumnCount + 2, tasks[k / ColumnCount])[k % ColumnCount]
      ensures next[k].row >= 2
    {
      if k >= |cells| {
        assert k / ColumnCount == i && k % ColumnCount == k - ColumnCount * i;
        assert next[k] == row[k - |cells|];
      }
    }
  }

  /** The sheet: its name, its column widths and every cell written, headers first. */
  datatype Workbook = Workbook(sheet: string, widths: seq<int>, cells: seq<Cell>)

  /** `Generate`, without the file encoding. */
  method Generate(tasks: seq<TaskReportRow>) returns (w: Workbook)
    ensures w.sheet == SheetName && w.widths == ColumnWidths
    ensures |w.cells| == ColumnCount * (|tasks| + 1)
    ensures w.cells[..ColumnCount] == HeaderRow()
    ensures forall k | ColumnCount <= k < |w.cells| :: w.cells[k].row >= 2
    ensures forall k | ColumnCount <= k < |w.cells| ::
      w.cells[k] == TaskRow((k - ColumnCount) / ColumnCount + 2, tasks[(k - ColumnCount) / ColumnCount])[(k - ColumnCount) % ColumnCount]
  {
    var data := FillData(tasks);
    w := Workbook(SheetName, ColumnWidths, HeaderRow() + data);
    DataFollowsHeader(HeaderRow(), tasks, data);
  }

  /** The data cells keep their places once a header row is put in front of them. */
  lemma DataFollowsHeader(header: seq<Cell>, tasks: seq<TaskReportRow>, data: seq<Cell>)
    requires |header| == ColumnCount && |data| == ColumnCount * |tasks|
    requires forall k | 0 <= k < |data| :: data[k] == TaskRow(k / ColumnCount + 2, tasks[k / ColumnCount])[k % ColumnCount]
    ensures var cells := header + data;
      forall k | ColumnCount <= k < |cells| ::
        cells[k] == TaskRow((k - ColumnCount) / ColumnCount + 2, tasks[(k - ColumnCount) / ColumnCount])[(k - ColumnCount) % ColumnCount]
  {
    var cells := header + data;
    forall k | ColumnCount <= k < |cells|
      ensures cells[k] == TaskRow((k - ColumnCount) / ColumnCount + 2, tasks[(k - ColumnCount) / ColumnCount])[(k - ColumnCount) % ColumnCount]
    {
      assert cells[k] == data[k - ColumnCount];
    }
  }
}
