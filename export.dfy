/**
 * Grade export: which submissions are exported, the file name, and the rows
 * of the sheet, for the Excel and the CSV variants.
 *
 * The submissions arrive already joined with their student, task and class,
 * in query order. Timestamps and the two-decimal formatting are not modelled.
 */
module Export {
  import opened Common
  import opened Tasks

  /** A submission joined with what its row shows. */
  datatype Record = Record(classId: int, taskId: int, username: string, email: string, className: string,
                           taskTitle: string, language: string, score: real, testCount: int)

  /** One sheet row, column by column (total time and submission time left out). */
  datatype Row = Row(studentName: string, studentEmail: string, className: string, taskTitle: string,
                     language: string, score: real, testCount: int)

  /** The nine column headers of the sheet. */
  const Columns: seq<string> :=
    ["学生姓名", "学生邮箱", "班级名称", "任务标题", "编程语言", "得分", "测试次数", "总耗时(秒)", "提交时间"]

  /** The header and rows a writer receives. */
  datatype Table = Table(header: seq<string>, rows: seq<Row>)

  datatype Exported = Exported(filename: string, table: Table)

  /** A record passes the class and task filters, each applied only when its id is truthy. */
  predicate Selected(r: Record, classId: Option<int>, taskId: Option<int>) {
    (!TruthyId(classId) || r.classId == classId.value) && (!TruthyId(taskId) || r.taskId == taskId.value)
  }

  /** The filtered submissions, in query order. */
  function Filtered(records: seq<Record>, classId: Option<int>, taskId: Option<int>): (r: seq<Record>)
    ensures |r| <= |records|
    ensures forall k :: 0 <= k < |r| ==> Selected(r[k], classId, taskId)
  {
    if records == [] then []
    else if Selected(records[0], classId, taskId) then [records[0]] + Filtered(records[1..], classId, taskId)
    else Filtered(records[1..], classId, taskId)
  }

  /** Exactly the selected records are exported, and the two filters are conjunctive. */
  lemma {:induction false} FilteredMembers(records: seq<Record>, classId: Option<int>, taskId: Option<int>,
                                           x: Record)
    ensures x in Filtered(records, classId, taskId) <==>
      && x in records
      && (TruthyId(classId) ==> x.classId == classId.value)
      && (TruthyId(taskId) ==> x.taskId == taskId.value)
  {
    if records != [] {
      assert records == [records[0]] + records[1..];
      FilteredMembers(records[1..], classId, taskId, x);
    }
  }

  /** The Excel file name: the task id wins over the class id (if / elif). */
  function ExcelFilename(classId: Option<int>, taskId: Option<int>): (r: string)
    ensures TruthyId(taskId) ==> r == "任务_" + IntToString(taskId.value) + "_成绩统计.xlsx"
    ensures !TruthyId(taskId) && TruthyId(classId) ==> r == "班级_" + IntToString(classId.value) + "_成绩统计.xlsx"
    ensures !TruthyId(taskId) && !TruthyId(classId) ==> r == "成绩统计.xlsx"
  {
    if TruthyId(taskId) then "任务_" + IntToString(taskId.value) + "_成绩统计.xlsx"
    else if TruthyId(classId) then "班级_" + IntToString(classId.value) + "_成绩统计.xlsx"
    else "成绩统计.xlsx"
  }

  /** The CSV file name: set for the class, then overwritten for the task. */
  function CsvFilename(classId: Option<int>, taskId: Option<int>): (r: string) {
    var byDefault := "成绩统计.csv";
    var byClass := if TruthyId(classId) then "班级_" + IntToString(classId.value) + "_成绩统计.csv" else byDefault;
    if TruthyId(taskId) then "任务_" + IntToString(taskId.value) + "_成绩统计.csv" else byClass
  }

  /** The stem both exports name their file with, before the extension. */
  function Stem(classId: Option<int>, taskId: Option<int>): string {
    if TruthyId(taskId) then "任务_" + IntToString(taskId.value) + "_成绩统计"
    else if TruthyId(classId) then "班级_" + IntToString(classId.value) + "_成绩统计"
    else "成绩统计"
  }

  /** The two file names follow the same precedence and differ only in the extension. */
  lemma SamePrecedence(classId: Option<int>, taskId: Option<int>)
    ensures ExcelFilename(classId, taskId) == Stem(classId, taskId) + ".xlsx"
    ensures CsvFilename(classId, taskId) == Stem(classId, taskId) + ".csv"
  {
  }

  /** The row of one submission; the language shows its display name. */
  function RowOf(r: Record): (row: Row)
    ensures row.studentName == r.username && row.studentEmail == r.email && row.className == r.className
    ensures row.taskTitle == r.taskTitle && row.score == r.score && row.testCount == r.testCount
    ensures row.language == LanguageDisplay(r.language)
  {
    Row(r.username, r.email, r.className, r.taskTitle, LanguageDisplay(r.language), r.score, r.testCount)
  }

  /** The row-building loop: one row per exported submission, in order. */
  method BuildRows(records: seq<Record>) returns (rows: seq<Row>)
    ensures |rows| == |records|
    ensures forall k :: 0 <= k < |records| ==> rows[k] == RowOf(records[k])
  {
    rows := [];
    for k := 0 to |records|
      invariant |rows| == k
      invariant forall j :: 0 <= j < k ==> rows[j] == RowOf(records[j])
    {
      rows := rows + [RowOf(records[k])];
    }
  }

  /** The Excel sheet always has the nine headers, also when there are no rows. */
  function ExcelTable(rows: seq<Row>): (t: Table)
    ensures t.header == Columns && t.rows == rows
  {
    Table(Columns, rows)
  }

  /**
   * The CSV as written: the frame is built from the row dictionaries alone,
   * so with no rows it has no columns and the file has no header line.
   */
  function CsvTableAsWritten(rows: seq<Row>): (t: Table)
    ensures t.rows == rows
    ensures t.header == (if rows == [] then [] else Columns)
  {
    Table(if rows == [] then [] else Columns, rows)
  }

  /** An export with no matching submission: the Excel file has its headers, the CSV file has none. */
  lemma EmptyCsvLosesHeader()
    ensures CsvTableAsWritten([]).header == [] && ExcelTable([]).header == Columns
    ensures CsvTableAsWritten([]) != ExcelTable([])
  {
  }

  /** The CSV, corrected: the same table the Excel branch writes, headers included when there are no rows. */
  function CsvTable(rows: seq<Row>): (t: Table)
    ensures t.header == Columns && t.rows == rows
  {
    ExcelTable(rows)
  }

  /** Corrected, the two formats carry the same table; as written they differ only when nothing is exported. */
  lemma FormatsAgree(rows: seq<Row>)
    ensures CsvTable(rows) == ExcelTable(rows)
    ensures rows != [] ==> CsvTableAsWritten(rows) == CsvTable(rows)
  {
  }

  datatype Format = Excel | Csv

  /** export_submissions_to_excel / export_submissions_to_csv (with the corrected CSV header). */
  method ExportSubmissions(format: Format, records: seq<Record>, classId: Option<int>, taskId: Option<int>)
    returns (e: Exported)
    ensures e.filename == if format.Excel? then ExcelFilename(classId, taskId) else CsvFilename(classId, taskId)
    ensures e.table.header == Columns
    ensures |e.table.rows| == |Filtered(records, classId, taskId)|
    ensures forall k :: 0 <= k < |e.table.rows| ==> e.table.rows[k] == RowOf(Filtered(records, classId, taskId)[k])
  {
    var selected := Filtered(records, classId, taskId);
    var rows := BuildRows(selected);
    if format.Excel? {
      e := Exported(ExcelFilename(classId, taskId), ExcelTable(rows));
    } else {
      e := Exported(CsvFilename(classId, taskId), CsvTable(rows));
    }
  }
}
