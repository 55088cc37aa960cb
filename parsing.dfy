/**
 * `parseXLSX` and `parseCSV` of the import route (server/routes/import.js):
 * a workbook or a list of CSV records becomes the surveys and the
 * consolidated questions of one import.
 */
module Parsing {
  import opened Wrappers
  import opened Dicts
  import opened Columns
  import opened Cells
  import opened Records
  import opened Questions
  import opened Consolidate

  /**
   * A worksheet: the cells of its first row, and the cells of every later
   * row, each cell with its column number. A row may list empty cells
   * (`NoValue`); the readers skip them as `eachCell` does.
   */
  datatype Sheet = Sheet(header: seq<(nat, Cell)>, body: seq<seq<(nat, Cell)>>)

  /** The two worksheets the import looks up by name, each possibly absent. */
  datatype Workbook = Workbook(surveySheet: Option<Sheet>, questionSheet: Option<Sheet>)

  /** What a parser hands to the import handler. */
  datatype ImportData = ImportData(surveys: seq<Record>, questions: seq<Question>)

  /** The records of the rows after the header row, fields named by `rename` applied to the header texts. */
  function SheetRecords(sheet: Sheet, rename: string -> string): (rows: seq<Record>)
    ensures |rows| == |sheet.body|
  {
    var headers := HeaderMap(sheet.header);
    seq(|sheet.body|, i requires 0 <= i < |sheet.body| => SheetRowRecord(headers, sheet.body[i], rename))
  }

  /** The survey rows kept by `if (survey.surveyId)`, in sheet order. */
  function RowsWithSurveyId(rows: seq<Record>): (kept: seq<Record>)
    ensures |kept| <= |rows|
  {
    if rows == [] then []
    else
      var rest := RowsWithSurveyId(rows[1..]);
      if Field(rows[0], "surveyId") != "" then [rows[0]] + rest else rest
  }

  /** The surveys of a workbook: none without a Survey Master sheet. */
  function XlsxSurveys(wb: Workbook): seq<Record> {
    match wb.surveySheet
    case None => []
    case Some(sheet) => RowsWithSurveyId(SheetRecords(sheet, MapSurveyColumnToField))
  }

  /** The questions of a workbook: none without a Question Master sheet. */
  function XlsxQuestions(wb: Workbook): seq<Question> {
    match wb.questionSheet
    case None => []
    case Some(sheet) => ConsolidatedQuestions(SheetRecords(sheet, MapQuestionColumnToField))
  }

  function ParsedXlsx(wb: Workbook): ImportData {
    ImportData(XlsxSurveys(wb), XlsxQuestions(wb))
  }

  /** The `eachRow` loop over one worksheet: the header row is read first, then every later row. */
  method ReadSheet(sheet: Sheet, rename: string -> string) returns (rows: seq<Record>)
    ensures rows == SheetRecords(sheet, rename)
  {
    var headers := ReadHeaders(sheet.header);
    rows := [];
    for i := 0 to |sheet.body|
      invariant rows == SheetRecords(sheet, rename)[..i]
    {
      var row := ReadSheetRow(headers, sheet.body[i], rename);
      rows := rows + [row];
    }
  }

  /** The `if (survey.surveyId) result.surveys.push(survey)` filter, one row at a time. */
  method KeepRowsWithSurveyId(rows: seq<Record>) returns (kept: seq<Record>)
    ensures kept == RowsWithSurveyId(rows)
  {
    kept := [];
    var i := |rows|;
    while i > 0
      invariant 0 <= i <= |rows|
      invariant kept == RowsWithSurveyId(rows[i..])
    {
      i := i - 1;
      assert rows[i..][1..] == rows[i + 1..];
      if Field(rows[i], "surveyId") != "" {
        kept := [rows[i]] + kept;
      }
    }
  }

  /** `parseXLSX`. */
  method ParseXlsx(wb: Workbook) returns (data: ImportData)
    ensures data == ParsedXlsx(wb)
  {
    var surveys: seq<Record> := [];
    if wb.surveySheet.Some? {
      var rows := ReadSheet(wb.surveySheet.value, MapSurveyColumnToField);
      surveys := KeepRowsWithSurveyId(rows);
    }
    var questions: seq<Question> := [];
    if wb.questionSheet.Some? {
      var rows := ReadSheet(wb.questionSheet.value, MapQuestionColumnToField);
      var groups := GroupQuestionRows(rows);
      questions := ProjectGroups(groups);
    }
    data := ImportData(surveys, questions);
  }

  /** The filter keeps exactly the rows with a survey id. */
  lemma {:induction false} RowsWithSurveyIdMembers(rows: seq<Record>)
    ensures forall r :: r in RowsWithSurveyId(rows) <==> r in rows && Field(r, "surveyId") != ""
  {
    if rows != [] {
      RowsWithSurveyIdMembers(rows[1..]);
      assert rows == [rows[0]] + rows[1..];
    }
  }

  /** The filter keeps every row when every row has a survey id. */
  lemma {:induction false} RowsWithSurveyIdAll(rows: seq<Record>)
    requires forall i :: 0 <= i < |rows| ==> Field(rows[i], "surveyId") != ""
    ensures RowsWithSurveyId(rows) == rows
  {
    if rows != [] {
      RowsWithSurveyIdAll(rows[1..]);
      assert rows == [rows[0]] + rows[1..];
    }
  }

  /** Every survey of a workbook has a survey id, and every sheet row with one is imported. */
  lemma XlsxSurveysHaveIds(wb: Workbook)
    requires wb.surveySheet.Some?
    ensures forall r :: r in XlsxSurveys(wb) <==>
      r in SheetRecords(wb.surveySheet.value, MapSurveyColumnToField) && Field(r, "surveyId") != ""
  {
    RowsWithSurveyIdMembers(SheetRecords(wb.surveySheet.value, MapSurveyColumnToField));
  }

  /** A sequence of question rows consolidates into at least one question exactly when one row has both ids. */
  lemma ConsolidatedNonEmptyIff(rows: seq<Record>)
    ensures ConsolidatedQuestions(rows) != [] <==> exists i :: 0 <= i < |rows| && HasIds(rows[i])
  {
    var groups := GroupRows(rows);
    GroupRowsKeys(rows);
    if exists i :: 0 <= i < |rows| && HasIds(rows[i]) {
      var i :| 0 <= i < |rows| && HasIds(rows[i]);
      assert RowOf(rows, i, GroupKey(rows[i]));
      assert GroupKey(rows[i]) in groups.keys;
    }
    if groups.keys != [] {
      assert groups.keys[0] in groups.vals;
    }
  }

  /** The workbook has questions exactly when it has a Question Master sheet with a row holding both ids. */
  lemma XlsxQuestionsNonEmptyIff(wb: Workbook)
    ensures XlsxQuestions(wb) != [] <==>
      wb.questionSheet.Some? &&
      exists i :: 0 <= i < |wb.questionSheet.value.body| &&
        HasIds(SheetRecords(wb.questionSheet.value, MapQuestionColumnToField)[i])
  {
    if wb.questionSheet.Some? {
      ConsolidatedNonEmptyIff(SheetRecords(wb.questionSheet.value, MapQuestionColumnToField));
    }
  }

  /** The mapped CSV records, with `rename` the column mapper of their kind. */
  function MappedRecords(records: seq<Record>, rename: string -> string): (mapped: seq<Record>)
    ensures |mapped| == |records|
  {
    seq(|records|, i requires 0 <= i < |records| => MappedRecord(records[i], rename))
  }

  /**
   * `parseCSV`: every record of a survey file is a survey (none is dropped),
   * the records of a question file are consolidated, and a file of neither
   * kind yields nothing.
   */
  function ParsedCsv(records: seq<Record>, sheetType: string): ImportData {
    match InferSheetType(records, sheetType)
    case Some(SurveySheet) => ImportData(MappedRecords(records, MapSurveyColumnToField), [])
    case Some(QuestionSheet) => ImportData([], ConsolidatedQuestions(MappedRecords(records, MapQuestionColumnToField)))
    case None => ImportData([], [])
  }

  /** `records.map(mapSurveyRecord)`, or the `mapQuestionRecord` call on each record, with `rename` the kind's column mapper. */
  method MapRecords(records: seq<Record>, rename: string -> string) returns (mapped: seq<Record>)
    ensures mapped == MappedRecords(records, rename)
  {
    mapped := [];
    for i := 0 to |records|
      invariant |mapped| == i
      invariant forall j :: 0 <= j < i ==> mapped[j] == MappedRecord(records[j], rename)
    {
      var r := MapRecordFields(records[i], rename);
      mapped := mapped + [r];
    }
  }

  /** `parseCSV`, after the CSV text has been read into records. */
  method ParseCsv(records: seq<Record>, sheetType: string) returns (data: ImportData)
    ensures data == ParsedCsv(records, sheetType)
  {
    var kind := InferSheetType(records, sheetType);
    if kind == Some(SurveySheet) {
      var surveys := MapRecords(records, MapSurveyColumnToField);
      data := ImportData(surveys, []);
    } else if kind == Some(QuestionSheet) {
      var rows := MapRecords(records, MapQuestionColumnToField);
      var groups := GroupQuestionRows(rows);
      var questions := ProjectGroups(groups);
      data := ImportData([], questions);
    } else {
      data := ImportData([], []);
    }
  }

  /** A CSV file is one kind or the other: it never yields both surveys and questions. */
  lemma CsvOneKind(records: seq<Record>, sheetType: string)
    ensures ParsedCsv(records, sheetType).surveys == [] || ParsedCsv(records, sheetType).questions == []
  {
  }

  /** A survey CSV yields one survey per record, ids or not, unlike a workbook. */
  lemma CsvSurveysKeepEveryRecord(records: seq<Record>, sheetType: string)
    requires InferSheetType(records, sheetType) == Some(SurveySheet)
    ensures |ParsedCsv(records, sheetType).surveys| == |records|
  {
  }

  /**
   * A CSV file yields nothing exactly when its kind cannot be told, it is a
   * survey file without records, or it is a question file none of whose
   * records has both ids.
   */
  lemma CsvEmptyIff(records: seq<Record>, sheetType: string)
    ensures ParsedCsv(records, sheetType) == ImportData([], []) <==>
      match InferSheetType(records, sheetType)
      case None => true
      case Some(SurveySheet) => records == []
      case Some(QuestionSheet) =>
        forall i :: 0 <= i < |records| ==> !HasIds(MappedRecords(records, MapQuestionColumnToField)[i])
  {
    if InferSheetType(records, sheetType) == Some(QuestionSheet) {
      ConsolidatedNonEmptyIff(MappedRecords(records, MapQuestionColumnToField));
    }
  }
}
