/**
 * Turning parsed rows into records (server/routes/import.js): renaming a
 * CSV record's columns to field names, reading a worksheet row through its
 * header row, and guessing whether a CSV file holds surveys or questions.
 */
module Records {
  import opened Wrappers
  import opened Text
  import opened Dicts
  import opened Columns
  import opened Cells

  /** A survey or question row: a plain object from field name to text. */
  type Record = Dict<string>

  datatype SheetKind = SurveySheet | QuestionSheet

  /** A field's text, '' when the field is absent. */
  function Field(r: Record, name: string): string {
    r.Get(name).GetOr("")
  }

  /** The record built from the first `n` columns of `record`, each stored under the field name `rename` gives it. */
  function MappedPrefix(record: Record, rename: string -> string, n: nat): Record
    requires n <= |record.keys|
  {
    if n == 0 then Empty()
    else
      var key := record.keys[n - 1];
      MappedPrefix(record, rename, n - 1).Put(rename(key), Field(record, key))
  }

  /** `mapSurveyRecord` / `mapQuestionRecord`, with `rename` the column mapper of the kind of record. */
  function MappedRecord(record: Record, rename: string -> string): Record {
    MappedPrefix(record, rename, |record.keys|)
  }

  /** The loop of `mapSurveyRecord` and `mapQuestionRecord`: one assignment per column, in column order. */
  method MapRecordFields(record: Record, rename: string -> string) returns (mapped: Record)
    ensures mapped == MappedRecord(record, rename)
  {
    mapped := Empty();
    var i := 0;
    while i < |record.keys|
      invariant i <= |record.keys|
      invariant mapped == MappedPrefix(record, rename, i)
    {
      var key := record.keys[i];
      MappedPrefixStep(record, rename, i);
      mapped := mapped.Put(rename(key), Field(record, key));
      i := i + 1;
    }
  }

  lemma MappedPrefixStep(record: Record, rename: string -> string, i: nat)
    requires i < |record.keys|
    ensures MappedPrefix(record, rename, i + 1)
      == MappedPrefix(record, rename, i).Put(rename(record.keys[i]), Field(record, record.keys[i]))
  {
  }

  /** `mapSurveyRecord`. */
  method MapSurveyRecord(record: Record) returns (mapped: Record)
    ensures mapped == MappedRecord(record, MapSurveyColumnToField)
  {
    mapped := MapRecordFields(record, MapSurveyColumnToField);
  }

  /** `mapQuestionRecord`. */
  method MapQuestionRecord(record: Record) returns (mapped: Record)
    ensures mapped == MappedRecord(record, MapQuestionColumnToField)
  {
    mapped := MapRecordFields(record, MapQuestionColumnToField);
  }

  /** No column after column `i` among the first `n` maps to the same field name. */
  predicate LastWithName(record: Record, rename: string -> string, i: nat, n: nat)
    requires i < n <= |record.keys|
  {
    forall j :: i < j < n ==> rename(record.keys[j]) != rename(record.keys[i])
  }

  /** The mapped prefix lists each of its fields once. */
  lemma {:induction false} MappedPrefixValid(record: Record, rename: string -> string, n: nat)
    requires n <= |record.keys|
    ensures MappedPrefix(record, rename, n).Valid()
  {
    if n > 0 {
      MappedPrefixValid(record, rename, n - 1);
    }
  }

  /** Some column among the first `n` maps to the field name `f`. */
  predicate Named(record: Record, rename: string -> string, n: nat, f: string)
    requires n <= |record.keys|
  {
    exists i :: 0 <= i < n && rename(record.keys[i]) == f
  }

  lemma NamedStep(record: Record, rename: string -> string, n: nat, f: string)
    requires 0 < n <= |record.keys|
    ensures Named(record, rename, n, f) <==> Named(record, rename, n - 1, f) || f == rename(record.keys[n - 1])
  {
    if Named(record, rename, n, f) && f != rename(record.keys[n - 1]) {
      var i :| 0 <= i < n && rename(record.keys[i]) == f;
      assert i < n - 1;
    }
  }

  /** The mapped prefix has one field per distinct mapped column name. */
  lemma {:induction false} MappedPrefixKeys(record: Record, rename: string -> string, n: nat)
    requires n <= |record.keys|
    ensures forall f :: f in MappedPrefix(record, rename, n).vals <==> Named(record, rename, n, f)
  {
    if n > 0 {
      MappedPrefixKeys(record, rename, n - 1);
      forall f ensures f in MappedPrefix(record, rename, n).vals <==> Named(record, rename, n, f) {
        NamedStep(record, rename, n, f);
      }
    }
  }

  /** In the mapped prefix, a column's field holds that column's value when no later column maps to the same field. */
  lemma {:induction false} MappedPrefixValues(record: Record, rename: string -> string, n: nat, i: nat)
    requires i < n <= |record.keys|
    requires LastWithName(record, rename, i, n)
    ensures MappedPrefix(record, rename, n).Get(rename(record.keys[i])) == Some(Field(record, record.keys[i]))
  {
    if i < n - 1 {
      assert LastWithName(record, rename, i, n - 1);
      MappedPrefixValues(record, rename, n - 1, i);
      assert rename(record.keys[n - 1]) != rename(record.keys[i]);
    }
  }

  /** A mapped record lists each field once, and its fields are exactly the mapped names of the columns. */
  lemma MappedRecordFields(record: Record, rename: string -> string)
    ensures MappedRecord(record, rename).Valid()
    ensures forall f :: f in MappedRecord(record, rename).vals <==> exists j :: 0 <= j < |record.keys| && rename(record.keys[j]) == f
  {
    MappedPrefixValid(record, rename, |record.keys|);
    MappedPrefixKeys(record, rename, |record.keys|);
  }

  /**
   * A column's field holds that column's value unless a later column maps to
   * the same field name, in which case the later one wins.
   */
  lemma MappedRecordLastWins(record: Record, rename: string -> string, i: nat)
    requires i < |record.keys| && LastWithName(record, rename, i, |record.keys|)
    ensures MappedRecord(record, rename).Get(rename(record.keys[i])) == Some(Field(record, record.keys[i]))
  {
    MappedPrefixValues(record, rename, |record.keys|, i);
  }

  /** A cell's value as stored in a record. */
  function CellString(c: Cell): string {
    CellText(NormalizeCellValue(c))
  }

  /** `headers[colNumber] = normalizeCellValue(cell.value)` over the first `n` cells of the header row. */
  function HeaderPrefix(cells: seq<(nat, Cell)>, n: nat): map<nat, string>
    requires n <= |cells|
  {
    if n == 0 then map[]
    else HeaderPrefix(cells, n - 1)[cells[n - 1].0 := CellString(cells[n - 1].1)]
  }

  /** The header text of every column of the header row. */
  function HeaderMap(cells: seq<(nat, Cell)>): map<nat, string> {
    HeaderPrefix(cells, |cells|)
  }

  /** The header row loop of `parseXLSX`. */
  method ReadHeaders(cells: seq<(nat, Cell)>) returns (headers: map<nat, string>)
    ensures headers == HeaderMap(cells)
  {
    headers := map[];
    for i := 0 to |cells|
      invariant headers == HeaderPrefix(cells, i)
    {
      headers := headers[cells[i].0 := CellString(cells[i].1)];
    }
  }

  /**
   * The record of the first `n` cells of a data row. `row.eachCell` visits
   * only cells that hold a value, so an empty cell is skipped and its field
   * stays absent; so is a cell under a missing or empty header.
   */
  function SheetRowPrefix(headers: map<nat, string>, cells: seq<(nat, Cell)>, rename: string -> string, n: nat): Record
    requires n <= |cells|
  {
    if n == 0 then Empty()
    else
      var before := SheetRowPrefix(headers, cells, rename, n - 1);
      var col := cells[n - 1].0;
      if !cells[n - 1].1.NoValue? && col in headers && headers[col] != "" then
        before.Put(rename(headers[col]), CellString(cells[n - 1].1))
      else before
  }

  function SheetRowRecord(headers: map<nat, string>, cells: seq<(nat, Cell)>, rename: string -> string): Record {
    SheetRowPrefix(headers, cells, rename, |cells|)
  }

  /** The `row.eachCell` loop of `parseXLSX`. */
  method ReadSheetRow(headers: map<nat, string>, cells: seq<(nat, Cell)>, rename: string -> string) returns (row: Record)
    ensures row == SheetRowRecord(headers, cells, rename)
  {
    row := Empty();
    for i := 0 to |cells|
      invariant row == SheetRowPrefix(headers, cells, rename, i)
    {
      var col := cells[i].0;
      if !cells[i].1.NoValue? && col in headers && headers[col] != "" {
        row := row.Put(rename(headers[col]), CellString(cells[i].1));
      }
    }
  }

  /** A worksheet row only fills fields named by a non-empty header of one of its non-empty cells. */
  lemma {:induction false} SheetRowFields(headers: map<nat, string>, cells: seq<(nat, Cell)>, rename: string -> string, n: nat)
    requires n <= |cells|
    ensures SheetRowPrefix(headers, cells, rename, n).Valid()
    ensures forall f :: f in SheetRowPrefix(headers, cells, rename, n).vals ==>
      exists i :: 0 <= i < n && !cells[i].1.NoValue? && cells[i].0 in headers && headers[cells[i].0] != "" && f == rename(headers[cells[i].0])
  {
    if n > 0 {
      SheetRowFields(headers, cells, rename, n - 1);
    }
  }

  /**
   * `inferSheetType`: an explicit 'survey' or 'question' wins; otherwise only
   * the first record's columns are looked at, and a question-id column beats a
   * survey-id column.
   */
  function InferSheetType(records: seq<Record>, sheetType: string): (r: Option<SheetKind>)
    ensures sheetType == "survey" ==> r == Some(SurveySheet)
    ensures sheetType == "question" ==> r == Some(QuestionSheet)
    ensures sheetType != "survey" && sheetType != "question" && records == [] ==> r == None
  {
    if sheetType == "survey" then Some(SurveySheet)
    else if sheetType == "question" then Some(QuestionSheet)
    else if records == [] then None
    else
      var keys := set k | k in records[0].keys :: NormalizeHeaderKey(Some(k));
      if "questionid" in keys then Some(QuestionSheet)
      else if "surveyid" in keys then Some(SurveySheet)
      else None
  }

  /** Without an explicit kind, the guess is "question" exactly when the first record has a question-id column. */
  lemma InferQuestionIff(records: seq<Record>, sheetType: string)
    requires sheetType != "survey" && sheetType != "question"
    ensures InferSheetType(records, sheetType) == Some(QuestionSheet)
      <==> records != [] && exists k :: k in records[0].keys && NormalizeHeaderKey(Some(k)) == "questionid"
  {
  }

  /** Without an explicit kind, the guess is "survey" exactly when the first record has a survey-id column and no question-id column. */
  lemma InferSurveyIff(records: seq<Record>, sheetType: string)
    requires sheetType != "survey" && sheetType != "question"
    ensures InferSheetType(records, sheetType) == Some(SurveySheet)
      <==> records != [] && (exists k :: k in records[0].keys && NormalizeHeaderKey(Some(k)) == "surveyid")
                         && !(exists k :: k in records[0].keys && NormalizeHeaderKey(Some(k)) == "questionid")
  {
  }

  /** Records after the first never influence the guess. */
  lemma InferLooksAtFirstRecordOnly(records: seq<Record>, sheetType: string)
    requires records != []
    ensures InferSheetType(records, sheetType) == InferSheetType(records[..1], sheetType)
  {
  }
}
