/**
 * The `POST /api/import` handler of server/routes/import.js: the parsed
 * surveys and questions of an upload are checked against the stored ones
 * and, when every check passes, appended to the store in one write.
 */
module Importer {
  import opened Wrappers
  import opened Text
  import opened Records
  import opened Questions
  import opened Parsing
  import opened Validator

  /** The persisted data: every survey and every question, in order. */
  datatype Snapshot = Snapshot(surveys: seq<Record>, questions: seq<Question>)

  /** The upload, by file extension, with what its parser would read from it. */
  datatype Upload =
    | NoFile
    | XlsxFile(workbook: Workbook)
    | CsvFile(records: seq<Record>)
    | OtherFile

  /** One entry of `validationErrors`; `index` counts from 1. */
  datatype ImportError =
    | SurveyRejected(index: nat, surveyId: string, surveyErrors: seq<SurveyError>)
    | SurveyExists(index: nat, surveyId: string)
    | QuestionRejected(index: nat, questionId: string, questionErrors: seq<QuestionError>)

  /** The two validators the handler calls, each giving the errors of one record. */
  datatype Validators = Validators(survey: Record -> seq<SurveyError>, question: Question -> seq<QuestionError>)

  /** `validateSurvey` and `validateQuestion` under one rule table and set of enumerations. */
  function SchemaValidators(schema: Schema): (v: Validators)
    ensures forall s :: v.survey(s) == SurveyErrors(s, schema)
    ensures forall q :: v.question(q) == QuestionErrors(q, schema)
  {
    Validators(s => SurveyErrors(s, schema), q => QuestionErrors(q, schema))
  }

  /** The response the handler sends. */
  datatype Response =
    | NoFileUploaded
    | UnsupportedFormat
    | SheetsMissing(hasSurveyMaster: bool, hasQuestionMaster: bool)
    | CsvTypeUnknown
    | DuplicatesRejected(duplicates: seq<string>, surveysCount: nat, questionsCount: nat)
    | ValidationFailed(errors: seq<ImportError>, surveysCount: nat, questionsCount: nat)
    | Imported(overwrite: bool, surveysImported: nat, questionsImported: nat, surveys: seq<Record>)

  /** The response, and the store as it is after the request. */
  datatype Outcome = Outcome(response: Response, store: Snapshot)

  function SurveyId(s: Record): string {
    Field(s, "surveyId")
  }

  /** `String(req.query.overwrite || '').toLowerCase() === 'true'`. */
  predicate OverwriteFlag(param: string) {
    Lower(param) == "true"
  }

  /** `req.query.sheetType || 'both'`. */
  function SheetTypeOrBoth(param: string): string {
    if param == "" then "both" else param
  }

  /** `new Set(importData.surveys.map(survey => survey.surveyId))`. */
  function IncomingIds(data: ImportData): set<string> {
    set s | s in data.surveys :: SurveyId(s)
  }

  /** The ids of the stored surveys whose id is incoming, in store order and with repeats. */
  function DuplicateIds(surveys: seq<Record>, incoming: set<string>): (ids: seq<string>)
    ensures forall id :: id in ids ==> id in incoming
  {
    if surveys == [] then []
    else
      var last := surveys[|surveys| - 1];
      DuplicateIds(surveys[..|surveys| - 1], incoming) + (if SurveyId(last) in incoming then [SurveyId(last)] else [])
  }

  /** The surveys whose id is not one of `ids`, in order. */
  function SurveysOutside(surveys: seq<Record>, ids: set<string>): (kept: seq<Record>)
    ensures |kept| <= |surveys|
  {
    if surveys == [] then []
    else
      var last := surveys[|surveys| - 1];
      SurveysOutside(surveys[..|surveys| - 1], ids) + (if SurveyId(last) !in ids then [last] else [])
  }

  /** The questions whose survey id is not one of `ids`, in order. */
  function QuestionsOutside(questions: seq<Question>, ids: set<string>): (kept: seq<Question>)
    ensures |kept| <= |questions|
  {
    if questions == [] then []
    else
      var last := questions[|questions| - 1];
      QuestionsOutside(questions[..|questions| - 1], ids) + (if last.info.surveyId !in ids then [last] else [])
  }

  /** The stored data the batch is checked against and appended to: filtered only when a duplicate exists. */
  function BaseStore(store: Snapshot, data: ImportData): Snapshot {
    var incoming := IncomingIds(data);
    if DuplicateIds(store.surveys, incoming) != [] then
      Snapshot(SurveysOutside(store.surveys, incoming), QuestionsOutside(store.questions, incoming))
    else store
  }

  /** `surveys.find(s => s.surveyId === id)` finds a survey. */
  predicate HasSurvey(surveys: seq<Record>, id: string) {
    exists k :: 0 <= k < |surveys| && SurveyId(surveys[k]) == id
  }

  /** The entries one incoming survey (number `i`, from 0) adds. */
  function SurveyCheck(i: nat, survey: Record, base: seq<Record>, overwrite: bool, v: Validators): seq<ImportError> {
    var id := SurveyId(survey);
    var errors := v.survey(survey);
    (if errors != [] then [SurveyRejected(i + 1, id, errors)] else [])
    + (if !overwrite && HasSurvey(base, id) then [SurveyExists(i + 1, id)] else [])
  }

  /** The entries of the first `n` incoming surveys. */
  function SurveyChecks(surveys: seq<Record>, base: seq<Record>, overwrite: bool, v: Validators, n: nat): seq<ImportError>
    requires n <= |surveys|
  {
    if n == 0 then []
    else SurveyChecks(surveys, base, overwrite, v, n - 1) + SurveyCheck(n - 1, surveys[n - 1], base, overwrite, v)
  }

  /** The entries one incoming question (number `i`, from 0) adds. */
  function QuestionCheck(i: nat, q: Question, v: Validators): seq<ImportError> {
    var errors := v.question(q);
    if errors != [] then [QuestionRejected(i + 1, q.info.questionId, errors)] else []
  }

  /** The entries of the first `n` incoming questions. */
  function QuestionChecks(questions: seq<Question>, v: Validators, n: nat): seq<ImportError>
    requires n <= |questions|
  {
    if n == 0 then []
    else QuestionChecks(questions, v, n - 1) + QuestionCheck(n - 1, questions[n - 1], v)
  }

  /** Every entry of `validationErrors` for a batch checked against `base`. */
  function BatchErrors(data: ImportData, base: Snapshot, overwrite: bool, v: Validators): seq<ImportError> {
    SurveyChecks(data.surveys, base.surveys, overwrite, v, |data.surveys|)
    + QuestionChecks(data.questions, v, |data.questions|)
  }

  /**
   * The transaction after parsing: reject duplicates unless overwriting,
   * drop the overwritten surveys and their questions, validate every
   * incoming record, and append the batch only when nothing failed.
   */
  function Transaction(store: Snapshot, data: ImportData, overwrite: bool, v: Validators): Outcome {
    var sCount, qCount := |data.surveys|, |data.questions|;
    var duplicates := DuplicateIds(store.surveys, IncomingIds(data));
    if duplicates != [] && !overwrite then
      Outcome(DuplicatesRejected(duplicates, sCount, qCount), store)
    else
      var base := BaseStore(store, data);
      var errors := BatchErrors(data, base, overwrite, v);
      if errors != [] then Outcome(ValidationFailed(errors, sCount, qCount), store)
      else Outcome(Imported(overwrite, sCount, qCount, data.surveys),
                   Snapshot(base.surveys + data.surveys, base.questions + data.questions))
  }

  /** What the parsing step yields: a response that ends the request, or the data to import. */
  datatype Parsed = Early(response: Response) | Data(data: ImportData)

  /** The file checks before the transaction. */
  function ParseUpload(upload: Upload, sheetTypeParam: string): Parsed {
    match upload
    case NoFile => Early(NoFileUploaded)
    case OtherFile => Early(UnsupportedFormat)
    case XlsxFile(wb) =>
      var data := ParsedXlsx(wb);
      if data.surveys == [] || data.questions == [] then Early(SheetsMissing(data.surveys != [], data.questions != []))
      else Data(data)
    case CsvFile(records) =>
      var data := ParsedCsv(records, SheetTypeOrBoth(sheetTypeParam));
      if data.surveys == [] && data.questions == [] then Early(CsvTypeUnknown) else Data(data)
  }

  /** The whole request. */
  function Handle(store: Snapshot, upload: Upload, overwriteParam: string, sheetTypeParam: string, schema: Schema): Outcome {
    match ParseUpload(upload, sheetTypeParam)
    case Early(response) => Outcome(response, store)
    case Data(data) => Transaction(store, data, OverwriteFlag(overwriteParam), SchemaValidators(schema))
  }

  // ---------------------------------------------------------------------
  // The handler, step by step
  // ---------------------------------------------------------------------

  /** The persisted store; `writeStore` replaces both lists at once. */
  class Store {
    var surveys: seq<Record>
    var questions: seq<Question>

    constructor(surveys: seq<Record>, questions: seq<Question>)
      ensures this.surveys == surveys && this.questions == questions
    {
      this.surveys := surveys;
      this.questions := questions;
    }

    function Contents(): Snapshot
      reads this
    {
      Snapshot(surveys, questions)
    }
  }

  /** `new Set(importData.surveys.map(...))`, one survey at a time. */
  method CollectIncomingIds(surveys: seq<Record>) returns (ids: set<string>)
    ensures ids == IncomingIds(ImportData(surveys, []))
  {
    ids := {};
    for i := 0 to |surveys|
      invariant ids == set s | s in surveys[..i] :: SurveyId(s)
    {
      assert surveys[..i + 1] == surveys[..i] + [surveys[i]];
      ids := ids + {SurveyId(surveys[i])};
    }
    assert surveys[..|surveys|] == surveys;
  }

  /** `store.surveys.filter(...).map(survey => survey.surveyId)`. */
  method FindDuplicates(surveys: seq<Record>, incoming: set<string>) returns (ids: seq<string>)
    ensures ids == DuplicateIds(surveys, incoming)
  {
    ids := [];
    for i := 0 to |surveys|
      invariant ids == DuplicateIds(surveys[..i], incoming)
    {
      assert surveys[..i + 1][..i] == surveys[..i];
      if SurveyId(surveys[i]) in incoming {
        ids := ids + [SurveyId(surveys[i])];
      }
    }
    assert surveys[..|surveys|] == surveys;
  }

  /** `store.surveys.filter(survey => !incomingSurveyIds.has(survey.surveyId))`. */
  method DropSurveys(surveys: seq<Record>, ids: set<string>) returns (kept: seq<Record>)
    ensures kept == SurveysOutside(surveys, ids)
  {
    kept := [];
    for i := 0 to |surveys|
      invariant kept == SurveysOutside(surveys[..i], ids)
    {
      assert surveys[..i + 1][..i] == surveys[..i];
      if SurveyId(surveys[i]) !in ids {
        kept := kept + [surveys[i]];
      }
    }
    assert surveys[..|surveys|] == surveys;
  }

  /** `store.questions.filter(question => !incomingSurveyIds.has(question.surveyId))`. */
  method DropQuestions(questions: seq<Question>, ids: set<string>) returns (kept: seq<Question>)
    ensures kept == QuestionsOutside(questions, ids)
  {
    kept := [];
    for i := 0 to |questions|
      invariant kept == QuestionsOutside(questions[..i], ids)
    {
      assert questions[..i + 1][..i] == questions[..i];
      if questions[i].info.surveyId !in ids {
        kept := kept + [questions[i]];
      }
    }
    assert questions[..|questions|] == questions;
  }

  /** `store.surveys.find(s => s.surveyId === id)`, as a yes-or-no answer. */
  method FindSurvey(surveys: seq<Record>, id: string) returns (found: bool)
    ensures found <==> HasSurvey(surveys, id)
  {
    found := false;
    var k := 0;
    while k < |surveys| && !found
      invariant 0 <= k <= |surveys|
      invariant found ==> HasSurvey(surveys, id)
      invariant !found ==> forall j :: 0 <= j < k ==> SurveyId(surveys[j]) != id
    {
      found := SurveyId(surveys[k]) == id;
      k := k + 1;
    }
  }

  /** The `importData.surveys.forEach` loop. */
  method CheckSurveys(surveys: seq<Record>, base: seq<Record>, overwrite: bool, schema: Schema) returns (errors: seq<ImportError>)
    ensures errors == SurveyChecks(surveys, base, overwrite, SchemaValidators(schema), |surveys|)
  {
    ghost var v := SchemaValidators(schema);
    errors := [];
    for i := 0 to |surveys|
      invariant errors == SurveyChecks(surveys, base, overwrite, v, i)
    {
      var survey := surveys[i];
      var id := SurveyId(survey);
      var isValid, surveyErrors := ValidateSurvey(survey, schema);
      var rejected: seq<ImportError> := [];
      if !isValid {
        rejected := [SurveyRejected(i + 1, id, surveyErrors)];
      }
      var existing: seq<ImportError> := [];
      if !overwrite {
        var found := FindSurvey(base, id);
        if found {
          existing := [SurveyExists(i + 1, id)];
        }
      }
      assert surveyErrors == v.survey(survey);
      assert rejected + existing == SurveyCheck(i, survey, base, overwrite, v);
      errors := errors + (rejected + existing);
    }
  }

  /** The `importData.questions.forEach` loop; the surveys are passed as `validateQuestion`'s second argument. */
  method CheckQuestions(questions: seq<Question>, surveysForValidation: seq<Record>, schema: Schema) returns (errors: seq<ImportError>)
    ensures errors == QuestionChecks(questions, SchemaValidators(schema), |questions|)
  {
    ghost var v := SchemaValidators(schema);
    errors := [];
    for i := 0 to |questions|
      invariant errors == QuestionChecks(questions, v, i)
    {
      var q := questions[i];
      var isValid, questionErrors := ValidateQuestion(q, surveysForValidation, schema);
      var rejected: seq<ImportError> := [];
      if !isValid {
        rejected := [QuestionRejected(i + 1, q.info.questionId, questionErrors)];
      }
      assert questionErrors == v.question(q);
      assert rejected == QuestionCheck(i, q, v);
      errors := errors + rejected;
    }
  }

  /** The handler after parsing: the store is written only when the batch is imported. */
  method RunTransaction(store: Store, data: ImportData, overwrite: bool, schema: Schema) returns (response: Response)
    modifies store
    ensures Outcome(response, store.Contents()) == Transaction(old(store.Contents()), data, overwrite, SchemaValidators(schema))
  {
    ghost var before := store.Contents();
    var surveys, questions := store.surveys, store.questions;
    var incoming := CollectIncomingIds(data.surveys);
    assert incoming == IncomingIds(data);
    var duplicates := FindDuplicates(surveys, incoming);
    if duplicates != [] && !overwrite {
      return DuplicatesRejected(duplicates, |data.surveys|, |data.questions|);
    }
    if duplicates != [] && overwrite {
      surveys := DropSurveys(surveys, incoming);
      questions := DropQuestions(questions, incoming);
    }
    assert Snapshot(surveys, questions) == BaseStore(before, data);
    var surveyErrors := CheckSurveys(data.surveys, surveys, overwrite, schema);
    var questionErrors := CheckQuestions(data.questions, surveys + data.surveys, schema);
    var errors := surveyErrors + questionErrors;
    assert errors == BatchErrors(data, Snapshot(surveys, questions), overwrite, SchemaValidators(schema));
    if errors != [] {
      return ValidationFailed(errors, |data.surveys|, |data.questions|);
    }
    store.surveys, store.questions := surveys + data.surveys, questions + data.questions;
    response := Imported(overwrite, |data.surveys|, |data.questions|, data.surveys);
  }

  /** The handler, from the upload to the response. */
  method HandleImport(store: Store, upload: Upload, overwriteParam: string, sheetTypeParam: string, schema: Schema)
    returns (response: Response)
    modifies store
    ensures Outcome(response, store.Contents()) == Handle(old(store.Contents()), upload, overwriteParam, sheetTypeParam, schema)
  {
    if upload.NoFile? {
      return NoFileUploaded;
    }
    var overwrite := Lower(overwriteParam) == "true";
    var data: ImportData;
    if upload.XlsxFile? {
      data := ParseXlsx(upload.workbook);
      if |data.surveys| == 0 || |data.questions| == 0 {
        return SheetsMissing(|data.surveys| > 0, |data.questions| > 0);
      }
    } else if upload.CsvFile? {
      var sheetType := if sheetTypeParam == "" then "both" else sheetTypeParam;
      data := ParseCsv(upload.records, sheetType);
      if |data.surveys| == 0 && |data.questions| == 0 {
        return CsvTypeUnknown;
      }
    } else {
      return UnsupportedFormat;
    }
    assert ParseUpload(upload, sheetTypeParam) == Data(data);
    response := RunTransaction(store, data, overwrite, schema);
  }

  // ---------------------------------------------------------------------
  // Properties of the transaction
  // ---------------------------------------------------------------------

  /** No stored id is a duplicate exactly when no stored survey has an incoming id. */
  lemma {:induction false} DuplicateIdsEmpty(surveys: seq<Record>, incoming: set<string>)
    ensures DuplicateIds(surveys, incoming) == [] <==> forall k :: 0 <= k < |surveys| ==> SurveyId(surveys[k]) !in incoming
  {
    if surveys != [] {
      var init := surveys[..|surveys| - 1];
      DuplicateIdsEmpty(init, incoming);
      assert forall k :: 0 <= k < |init| ==> init[k] == surveys[k];
    }
  }

  /** The duplicates are exactly the incoming ids that a stored survey has. */
  lemma {:induction false} DuplicateIdsMembers(surveys: seq<Record>, incoming: set<string>)
    ensures forall id :: id in DuplicateIds(surveys, incoming) <==> id in incoming && HasSurvey(surveys, id)
  {
    if surveys != [] {
      var init := surveys[..|surveys| - 1];
      DuplicateIdsMembers(init, incoming);
      forall id | HasSurvey(surveys, id) && id in incoming
        ensures id in DuplicateIds(surveys, incoming)
      {
        var k :| 0 <= k < |surveys| && SurveyId(surveys[k]) == id;
        if k < |init| {
          assert init[k] == surveys[k];
        }
      }
      forall id | HasSurvey(init, id)
        ensures HasSurvey(surveys, id)
      {
        var k :| 0 <= k < |init| && SurveyId(init[k]) == id;
        assert surveys[k] == init[k];
      }
    }
  }

  /** The survey filter keeps exactly the surveys whose id is not dropped. */
  lemma {:induction false} SurveysOutsideMembers(surveys: seq<Record>, ids: set<string>)
    ensures forall r :: r in SurveysOutside(surveys, ids) <==> r in surveys && SurveyId(r) !in ids
  {
    if surveys != [] {
      var init := surveys[..|surveys| - 1];
      SurveysOutsideMembers(init, ids);
      assert surveys == init + [surveys[|surveys| - 1]];
    }
  }

  /** The question filter keeps exactly the questions whose survey id is not dropped. */
  lemma {:induction false} QuestionsOutsideMembers(questions: seq<Question>, ids: set<string>)
    ensures forall q :: q in QuestionsOutside(questions, ids) <==> q in questions && q.info.surveyId !in ids
  {
    if questions != [] {
      var init := questions[..|questions| - 1];
      QuestionsOutsideMembers(init, ids);
      assert questions == init + [questions[|questions| - 1]];
    }
  }

  /** A rejected request leaves the store as it was. */
  lemma RejectionKeepsStore(store: Snapshot, upload: Upload, overwriteParam: string, sheetTypeParam: string, schema: Schema)
    ensures !Handle(store, upload, overwriteParam, sheetTypeParam, schema).response.Imported? ==>
      Handle(store, upload, overwriteParam, sheetTypeParam, schema).store == store
  {
  }

  /** A duplicate id without overwrite is rejected before anything is validated. */
  lemma DuplicateWithoutOverwriteRejected(store: Snapshot, data: ImportData, v: Validators, id: string)
    requires id in IncomingIds(data) && HasSurvey(store.surveys, id)
    ensures Transaction(store, data, false, v).response.DuplicatesRejected?
    ensures id in Transaction(store, data, false, v).response.duplicates
  {
    DuplicateIdsMembers(store.surveys, IncomingIds(data));
  }

  /** An import without surveys (a question-only CSV) never triggers duplicate or overwrite handling. */
  lemma QuestionOnlyImport(store: Snapshot, data: ImportData, overwrite: bool, v: Validators)
    requires data.surveys == []
    ensures !Transaction(store, data, overwrite, v).response.DuplicatesRejected?
    ensures BaseStore(store, data) == store
  {
    DuplicateIdsEmpty(store.surveys, IncomingIds(data));
  }

  /** When no stored survey has an incoming id, the batch is checked against the whole store. */
  lemma NoDuplicateKeepsStore(store: Snapshot, data: ImportData)
    requires forall k :: 0 <= k < |store.surveys| ==> SurveyId(store.surveys[k]) !in IncomingIds(data)
    ensures BaseStore(store, data) == store
  {
    DuplicateIdsEmpty(store.surveys, IncomingIds(data));
  }

  /** Each incoming survey's id is incoming. */
  lemma IncomingIdOf(data: ImportData, i: nat)
    requires i < |data.surveys|
    ensures SurveyId(data.surveys[i]) in IncomingIds(data)
  {
    assert data.surveys[i] in data.surveys;
  }

  /**
   * No incoming id is stored in the base the batch is checked against:
   * either no stored survey had one, or those that had one were dropped.
   */
  lemma BaseHoldsNoIncomingId(store: Snapshot, data: ImportData, id: string)
    requires id in IncomingIds(data)
    ensures !HasSurvey(BaseStore(store, data).surveys, id)
  {
    var incoming := IncomingIds(data);
    DuplicateIdsEmpty(store.surveys, incoming);
    SurveysOutsideMembers(store.surveys, incoming);
    var base := BaseStore(store, data).surveys;
    forall k | 0 <= k < |base|
      ensures SurveyId(base[k]) != id
    {
      if DuplicateIds(store.surveys, incoming) != [] {
        assert base[k] in base;
      }
    }
  }

  /** No entry of the survey loop is an "already exists" entry when no incoming id is in the base. */
  lemma {:induction false} SurveyChecksNoExists(surveys: seq<Record>, base: seq<Record>, overwrite: bool, v: Validators, n: nat)
    requires n <= |surveys|
    requires forall i :: 0 <= i < |surveys| ==> !HasSurvey(base, SurveyId(surveys[i]))
    ensures forall e :: e in SurveyChecks(surveys, base, overwrite, v, n) ==> e.SurveyRejected?
  {
    if n > 0 {
      SurveyChecksNoExists(surveys, base, overwrite, v, n - 1);
    }
  }

  /** The question loop only reports rejected questions. */
  lemma {:induction false} QuestionChecksKinds(questions: seq<Question>, v: Validators, n: nat)
    requires n <= |questions|
    ensures forall e :: e in QuestionChecks(questions, v, n) ==> e.QuestionRejected?
  {
    if n > 0 {
      QuestionChecksKinds(questions, v, n - 1);
    }
  }

  /**
   * The "Survey ID already exists" check inside the survey loop never
   * fires: every response lists only rejected surveys and questions.
   */
  lemma ExistsCheckNeverFires(store: Snapshot, data: ImportData, overwrite: bool, v: Validators)
    ensures Transaction(store, data, overwrite, v).response.ValidationFailed? ==>
      forall e :: e in Transaction(store, data, overwrite, v).response.errors ==> !e.SurveyExists?
  {
    var incoming := IncomingIds(data);
    var duplicates := DuplicateIds(store.surveys, incoming);
    if duplicates == [] || overwrite {
      var base := BaseStore(store, data);
      forall i | 0 <= i < |data.surveys|
        ensures !HasSurvey(base.surveys, SurveyId(data.surveys[i]))
      {
        IncomingIdOf(data, i);
        BaseHoldsNoIncomingId(store, data, SurveyId(data.surveys[i]));
      }
      SurveyChecksNoExists(data.surveys, base.surveys, overwrite, v, |data.surveys|);
      QuestionChecksKinds(data.questions, v, |data.questions|);
    }
  }

  /** A concatenation is empty exactly when both parts are. */
  lemma EmptyConcat<T>(a: seq<T>, b: seq<T>)
    ensures a + b == [] <==> a == [] && b == []
  {
    assert |a + b| == |a| + |b|;
  }

  /** One survey adds nothing exactly when it passes validation, given its id is not in the base. */
  lemma SurveyCheckEmpty(i: nat, survey: Record, base: seq<Record>, overwrite: bool, v: Validators)
    requires !HasSurvey(base, SurveyId(survey))
    ensures SurveyCheck(i, survey, base, overwrite, v) == [] <==> v.survey(survey) == []
  {
  }

  /** The survey loop reports nothing exactly when every survey passes, given no incoming id is in the base. */
  lemma {:induction false} SurveyChecksEmpty(surveys: seq<Record>, base: seq<Record>, overwrite: bool, v: Validators, n: nat)
    requires n <= |surveys|
    requires forall i :: 0 <= i < |surveys| ==> !HasSurvey(base, SurveyId(surveys[i]))
    ensures SurveyChecks(surveys, base, overwrite, v, n) == [] <==>
      forall i :: 0 <= i < n ==> v.survey(surveys[i]) == []
  {
    if n > 0 {
      SurveyChecksEmpty(surveys, base, overwrite, v, n - 1);
      SurveyCheckEmpty(n - 1, surveys[n - 1], base, overwrite, v);
      EmptyConcat(SurveyChecks(surveys, base, overwrite, v, n - 1), SurveyCheck(n - 1, surveys[n - 1], base, overwrite, v));
    }
  }

  /** The question loop reports nothing exactly when every question passes. */
  lemma {:induction false} QuestionChecksEmpty(questions: seq<Question>, v: Validators, n: nat)
    requires n <= |questions|
    ensures QuestionChecks(questions, v, n) == [] <==> forall i :: 0 <= i < n ==> v.question(questions[i]) == []
  {
    if n > 0 {
      QuestionChecksEmpty(questions, v, n - 1);
      EmptyConcat(QuestionChecks(questions, v, n - 1), QuestionCheck(n - 1, questions[n - 1], v));
    }
  }

  /**
   * All or nothing: a batch is imported exactly when no duplicate blocks
   * it and every incoming survey and question passes validation.
   */
  lemma ImportedIff(store: Snapshot, data: ImportData, overwrite: bool, v: Validators)
    ensures Transaction(store, data, overwrite, v).response.Imported? <==>
      (DuplicateIds(store.surveys, IncomingIds(data)) == [] || overwrite)
      && (forall i :: 0 <= i < |data.surveys| ==> v.survey(data.surveys[i]) == [])
      && (forall i :: 0 <= i < |data.questions| ==> v.question(data.questions[i]) == [])
  {
    var duplicates := DuplicateIds(store.surveys, IncomingIds(data));
    if duplicates == [] || overwrite {
      var base := BaseStore(store, data);
      forall i | 0 <= i < |data.surveys|
        ensures !HasSurvey(base.surveys, SurveyId(data.surveys[i]))
      {
        IncomingIdOf(data, i);
        BaseHoldsNoIncomingId(store, data, SurveyId(data.surveys[i]));
      }
      SurveyChecksEmpty(data.surveys, base.surveys, overwrite, v, |data.surveys|);
      QuestionChecksEmpty(data.questions, v, |data.questions|);
      EmptyConcat(SurveyChecks(data.surveys, base.surveys, overwrite, v, |data.surveys|),
                  QuestionChecks(data.questions, v, |data.questions|));
    }
  }

  /** Under a schema, a batch is imported exactly when no duplicate blocks it and every record meets every check. */
  lemma ImportedIffAcceptable(store: Snapshot, data: ImportData, overwrite: bool, schema: Schema)
    ensures Transaction(store, data, overwrite, SchemaValidators(schema)).response.Imported? <==>
      (DuplicateIds(store.surveys, IncomingIds(data)) == [] || overwrite)
      && (forall i :: 0 <= i < |data.surveys| ==> SurveyAcceptable(data.surveys[i], schema))
      && (forall i :: 0 <= i < |data.questions| ==> QuestionAcceptable(data.questions[i], schema))
  {
    var v := SchemaValidators(schema);
    ImportedIff(store, data, overwrite, v);
    forall i | 0 <= i < |data.surveys|
      ensures v.survey(data.surveys[i]) == [] <==> SurveyAcceptable(data.surveys[i], schema)
    {
      SurveyValidIff(data.surveys[i], schema);
    }
    forall i | 0 <= i < |data.questions|
      ensures v.question(data.questions[i]) == [] <==> QuestionAcceptable(data.questions[i], schema)
    {
      QuestionValidIff(data.questions[i], schema);
    }
  }

  /**
   * A successful import writes the kept stored surveys followed by the
   * incoming ones, in order; a stored survey is kept unless a duplicate
   * existed and its id is incoming.
   */
  lemma ImportedSurveys(store: Snapshot, data: ImportData, overwrite: bool, v: Validators)
    requires Transaction(store, data, overwrite, v).response.Imported?
    ensures var written := Transaction(store, data, overwrite, v).store.surveys;
      && |written| >= |data.surveys|
      && written[|written| - |data.surveys|..] == data.surveys
      && written[..|written| - |data.surveys|]
        == (if DuplicateIds(store.surveys, IncomingIds(data)) != [] then SurveysOutside(store.surveys, IncomingIds(data)) else store.surveys)
      && forall r :: r in written[..|written| - |data.surveys|] <==>
        r in store.surveys && (DuplicateIds(store.surveys, IncomingIds(data)) == [] || SurveyId(r) !in IncomingIds(data))
  {
    var base := BaseStore(store, data);
    SurveysOutsideMembers(store.surveys, IncomingIds(data));
    var written := base.surveys + data.surveys;
    assert written[|written| - |data.surveys|..] == data.surveys;
    assert written[..|written| - |data.surveys|] == base.surveys;
  }

  /**
   * A successful import writes the kept stored questions followed by the
   * incoming ones, in order; a stored question is kept unless a duplicate
   * existed and its survey id is incoming.
   */
  lemma ImportedQuestions(store: Snapshot, data: ImportData, overwrite: bool, v: Validators)
    requires Transaction(store, data, overwrite, v).response.Imported?
    ensures var written := Transaction(store, data, overwrite, v).store.questions;
      && |written| >= |data.questions|
      && written[|written| - |data.questions|..] == data.questions
      && written[..|written| - |data.questions|]
        == (if DuplicateIds(store.surveys, IncomingIds(data)) != [] then QuestionsOutside(store.questions, IncomingIds(data)) else store.questions)
      && forall q :: q in written[..|written| - |data.questions|] <==>
        q in store.questions && (DuplicateIds(store.surveys, IncomingIds(data)) == [] || q.info.surveyId !in IncomingIds(data))
  {
    var base := BaseStore(store, data);
    QuestionsOutsideMembers(store.questions, IncomingIds(data));
    var written := base.questions + data.questions;
    assert written[|written| - |data.questions|..] == data.questions;
    assert written[..|written| - |data.questions|] == base.questions;
  }

  /**
   * Two incoming surveys with the same new id are not rejected for it:
   * with nothing else wrong, both are imported.
   */
  lemma InBatchDuplicatesImported(store: Snapshot, a: Record, b: Record, v: Validators)
    requires SurveyId(a) == SurveyId(b)
    requires !HasSurvey(store.surveys, SurveyId(a))
    requires v.survey(a) == [] && v.survey(b) == []
    ensures Transaction(store, ImportData([a, b], []), false, v).response.Imported?
    ensures Transaction(store, ImportData([a, b], []), false, v).store.surveys == store.surveys + [a, b]
  {
    var data := ImportData([a, b], []);
    assert IncomingIds(data) == {SurveyId(a)};
    DuplicateIdsEmpty(store.surveys, IncomingIds(data));
    ImportedIff(store, data, false, v);
  }

  /** The survey filter works survey by survey: filtering two runs is filtering each. */
  lemma {:induction false} SurveysOutsideConcat(a: seq<Record>, b: seq<Record>, ids: set<string>)
    ensures SurveysOutside(a + b, ids) == SurveysOutside(a, ids) + SurveysOutside(b, ids)
  {
    if b == [] {
      assert a + b == a;
    } else {
      var init := b[..|b| - 1];
      SurveysOutsideConcat(a, init, ids);
      assert (a + b)[..|a + b| - 1] == a + init;
    }
  }

  /**
   * The survey filter keeps order and multiplicity: a survey stays where it
   * was, between what is kept before and after it, exactly when its id is not dropped.
   */
  lemma SurveysOutsideAround(a: seq<Record>, r: Record, b: seq<Record>, ids: set<string>)
    ensures SurveysOutside(a + [r] + b, ids)
      == SurveysOutside(a, ids) + (if SurveyId(r) !in ids then [r] else []) + SurveysOutside(b, ids)
  {
    SurveysOutsideConcat(a + [r], b, ids);
    SurveysOutsideConcat(a, [r], ids);
    assert [r][..0] == [];
  }

  /** The question filter works question by question: filtering two runs is filtering each. */
  lemma {:induction false} QuestionsOutsideConcat(a: seq<Question>, b: seq<Question>, ids: set<string>)
    ensures QuestionsOutside(a + b, ids) == QuestionsOutside(a, ids) + QuestionsOutside(b, ids)
  {
    if b == [] {
      assert a + b == a;
    } else {
      var init := b[..|b| - 1];
      QuestionsOutsideConcat(a, init, ids);
      assert (a + b)[..|a + b| - 1] == a + init;
    }
  }

  /**
   * The question filter keeps order and multiplicity: a question stays where
   * it was exactly when its survey id is not dropped.
   */
  lemma QuestionsOutsideAround(a: seq<Question>, q: Question, b: seq<Question>, ids: set<string>)
    ensures QuestionsOutside(a + [q] + b, ids)
      == QuestionsOutside(a, ids) + (if q.info.surveyId !in ids then [q] else []) + QuestionsOutside(b, ids)
  {
    QuestionsOutsideConcat(a + [q], b, ids);
    QuestionsOutsideConcat(a, [q], ids);
    assert [q][..0] == [];
  }

  /** Surveys at the end whose ids are all dropped do not change what the survey filter keeps. */
  lemma {:induction false} SurveysOutsideDropsTail(a: seq<Record>, b: seq<Record>, ids: set<string>)
    requires forall k :: 0 <= k < |b| ==> SurveyId(b[k]) in ids
    ensures SurveysOutside(a + b, ids) == SurveysOutside(a, ids)
  {
    if b == [] {
      assert a + b == a;
    } else {
      var init := b[..|b| - 1];
      SurveysOutsideDropsTail(a, init, ids);
      assert (a + b)[..|a + b| - 1] == a + init;
    }
  }

  /** The survey filter keeps everything when no survey has a dropped id. */
  lemma {:induction false} SurveysOutsideKeepsAll(surveys: seq<Record>, ids: set<string>)
    requires forall k :: 0 <= k < |surveys| ==> SurveyId(surveys[k]) !in ids
    ensures SurveysOutside(surveys, ids) == surveys
  {
    if surveys != [] {
      var init := surveys[..|surveys| - 1];
      SurveysOutsideKeepsAll(init, ids);
      assert surveys == init + [surveys[|surveys| - 1]];
    }
  }

  /** Questions at the end whose survey ids are all dropped do not change what the question filter keeps. */
  lemma {:induction false} QuestionsOutsideDropsTail(a: seq<Question>, b: seq<Question>, ids: set<string>)
    requires forall k :: 0 <= k < |b| ==> b[k].info.surveyId in ids
    ensures QuestionsOutside(a + b, ids) == QuestionsOutside(a, ids)
  {
    if b == [] {
      assert a + b == a;
    } else {
      var init := b[..|b| - 1];
      QuestionsOutsideDropsTail(a, init, ids);
      assert (a + b)[..|a + b| - 1] == a + init;
    }
  }

  /** The question filter keeps everything when no question has a dropped survey id. */
  lemma {:induction false} QuestionsOutsideKeepsAll(questions: seq<Question>, ids: set<string>)
    requires forall k :: 0 <= k < |questions| ==> questions[k].info.surveyId !in ids
    ensures QuestionsOutside(questions, ids) == questions
  {
    if questions != [] {
      var init := questions[..|questions| - 1];
      QuestionsOutsideKeepsAll(init, ids);
      assert questions == init + [questions[|questions| - 1]];
    }
  }

  /**
   * Importing the same accepted batch a second time with overwrite leaves
   * the store and the response as the first import made them, provided the
   * batch has surveys, each incoming question belongs to an incoming
   * survey, and before the first import either a stored survey had an
   * incoming id or no stored question had one.
   */
  lemma OverwriteReimportIdempotent(store: Snapshot, data: ImportData, v: Validators)
    requires Transaction(store, data, true, v).response.Imported?
    requires data.surveys != []
    requires forall i :: 0 <= i < |data.questions| ==> data.questions[i].info.surveyId in IncomingIds(data)
    requires DuplicateIds(store.surveys, IncomingIds(data)) != [] ||
      forall k :: 0 <= k < |store.questions| ==> store.questions[k].info.surveyId !in IncomingIds(data)
    ensures Transaction(Transaction(store, data, true, v).store, data, true, v) == Transaction(store, data, true, v)
  {
    var base := BaseStore(store, data);
    var once := Transaction(store, data, true, v).store;
    assert once == Snapshot(base.surveys + data.surveys, base.questions + data.questions);
    ReimportBase(store, data);
    ImportedIff(store, data, true, v);
    ImportedIff(once, data, true, v);
  }

  /**
   * After the batch has been appended to its base, the base of a second
   * run with the same batch is that same base, under the conditions of
   * `OverwriteReimportIdempotent`.
   */
  lemma ReimportBase(store: Snapshot, data: ImportData)
    requires data.surveys != []
    requires forall i :: 0 <= i < |data.questions| ==> data.questions[i].info.surveyId in IncomingIds(data)
    requires DuplicateIds(store.surveys, IncomingIds(data)) != [] ||
      forall k :: 0 <= k < |store.questions| ==> store.questions[k].info.surveyId !in IncomingIds(data)
    ensures var base := BaseStore(store, data);
      BaseStore(Snapshot(base.surveys + data.surveys, base.questions + data.questions), data) == base
  {
    var ids := IncomingIds(data);
    var base := BaseStore(store, data);
    // the second run finds duplicates: the first incoming survey is stored now
    IncomingIdOf(data, 0);
    assert (base.surveys + data.surveys)[|base.surveys|] == data.surveys[0];
    DuplicateIdsEmpty(base.surveys + data.surveys, ids);
    // so it drops exactly the batch the first run appended
    ReimportSurveys(store, data);
    ReimportQuestions(store, data);
  }

  /** Dropping the incoming ids from the base followed by the batch leaves the base's surveys. */
  lemma ReimportSurveys(store: Snapshot, data: ImportData)
    ensures var base := BaseStore(store, data).surveys;
      SurveysOutside(base + data.surveys, IncomingIds(data)) == base
  {
    var ids := IncomingIds(data);
    var base := BaseStore(store, data).surveys;
    forall k | 0 <= k < |data.surveys|
      ensures SurveyId(data.surveys[k]) in ids
    {
      IncomingIdOf(data, k);
    }
    SurveysOutsideDropsTail(base, data.surveys, ids);
    forall k | 0 <= k < |base|
      ensures SurveyId(base[k]) !in ids
    {
      if SurveyId(base[k]) in ids {
        BaseHoldsNoIncomingId(store, data, SurveyId(base[k]));
      }
    }
    SurveysOutsideKeepsAll(base, ids);
  }

  /** Dropping the incoming ids from the base followed by the batch leaves the base's questions. */
  lemma ReimportQuestions(store: Snapshot, data: ImportData)
    requires forall i :: 0 <= i < |data.questions| ==> data.questions[i].info.surveyId in IncomingIds(data)
    requires DuplicateIds(store.surveys, IncomingIds(data)) != [] ||
      forall k :: 0 <= k < |store.questions| ==> store.questions[k].info.surveyId !in IncomingIds(data)
    ensures var base := BaseStore(store, data).questions;
      QuestionsOutside(base + data.questions, IncomingIds(data)) == base
  {
    var ids := IncomingIds(data);
    var base := BaseStore(store, data).questions;
    QuestionsOutsideDropsTail(base, data.questions, ids);
    if DuplicateIds(store.surveys, ids) != [] {
      QuestionsOutsideMembers(store.questions, ids);
      assert forall k :: 0 <= k < |base| ==> base[k] in base;
    }
    QuestionsOutsideKeepsAll(base, ids);
  }

  /**
   * Without surveys the overwrite flag removes nothing, so importing the
   * same accepted question-only batch twice stores its questions twice.
   */
  lemma QuestionOnlyReimportRepeats(store: Snapshot, q: Question, overwrite: bool, v: Validators)
    requires v.question(q) == []
    ensures Transaction(store, ImportData([], [q]), overwrite, v).response.Imported?
    ensures Transaction(Transaction(store, ImportData([], [q]), overwrite, v).store, ImportData([], [q]), overwrite, v).store.questions
      == store.questions + [q, q]
  {
    var data := ImportData([], [q]);
    QuestionOnlyImport(store, data, overwrite, v);
    ImportedIff(store, data, overwrite, v);
    var once := Transaction(store, data, overwrite, v).store;
    QuestionOnlyImport(once, data, overwrite, v);
    ImportedIff(once, data, overwrite, v);
  }
}
