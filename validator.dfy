/**
 * The survey and question validator (server/services/validator.js). The
 * rule table, the enumerations and the child-id format it imports from
 * server/schemas/validationRules are a `Schema` parameter; that file is not
 * part of this model. Each check that fails contributes one error, in the
 * order the validator performs the checks.
 */
module Validator {
  import opened Wrappers
  import opened Text
  import opened Dicts
  import opened Cells
  import opened Records
  import opened Questions

  /** The limits a question type puts on its `tableQuestionValue`; an absent limit never fails. */
  datatype TableRule = TableRule(format: string -> bool, maxQuestions: Option<nat>, maxCharsPerQuestion: Option<nat>)

  /** A type's constraints; '' and 0 stand for a constraint that is not set. */
  datatype Constraints = Constraints(
    textInputType: string,
    questionMediaType: string,
    maxOptions: nat,
    minOptions: nat,
    tableQuestionValue: Option<TableRule>)

  /** The rule of one question type: its required fields and its optional constraints. */
  datatype TypeRule = TypeRule(required: seq<string>, constraints: Option<Constraints>)

  /** What server/schemas/validationRules exports. */
  datatype Schema = Schema(
    questionTypes: seq<string>,
    textInputTypes: seq<string>,
    questionMediaTypes: seq<string>,
    modes: seq<string>,
    yesNoValues: seq<string>,
    rules: map<string, TypeRule>,
    childFormat: string -> bool)

  // ---------------------------------------------------------------------
  // Dates
  // ---------------------------------------------------------------------

  /** Two digits, `sep`, two digits, `sep`, and one or more digits: one half of the date regex. */
  predicate Triple(t: string, sep: char) {
    && |t| > 6
    && IsDigits(t[0..2]) && t[2] == sep && IsDigits(t[3..5]) && t[5] == sep && IsDigits(t[6..])
  }

  /**
   * The regex `^\d{2}\/\d{2}\/\d{4} \d{2}:\d{2}:\d{2}$`: a ten-character date
   * part, a space, and an eight-character time part.
   */
  predicate DateShape(s: string) {
    && |s| == 19
    && s[10] == ' '
    && Triple(s[..10], '/')
    && Triple(s[11..], ':')
  }

  /** `Number` of the two-digit field at `i` of a half that has the shape. */
  function FieldAt(t: string, sep: char, i: nat): nat
    requires Triple(t, sep) && (i == 0 || i == 3)
  {
    DigitsValue(t[i..i + 2])
  }

  /**
   * `isValidDate`: the fixed shape, then the ranges of month, day, hours,
   * minutes and seconds. The year is not checked and neither is the length
   * of the month: 31 February passes.
   */
  predicate IsValidDate(s: string) {
    && DateShape(s)
    && var datePart := s[..10];
       var timePart := s[11..];
       var day := FieldAt(datePart, '/', 0);
       var month := FieldAt(datePart, '/', 3);
       var hours := FieldAt(timePart, ':', 0);
       var minutes := FieldAt(timePart, ':', 3);
       var seconds := DigitsValue(timePart[6..]);
       && 1 <= month <= 12
       && 1 <= day <= 31
       && 0 <= hours <= 23
       && 0 <= minutes <= 59
       && 0 <= seconds <= 59
  }

  /** No digit in a text of digits is `c`, when `c` is not a digit. */
  lemma NotInDigits(t: string, c: char)
    requires IsDigits(t) && !IsDigit(c)
    ensures c !in t
  {
  }

  /** Splitting a half on its separator gives its three fields, the pieces `isValidDate` reads. */
  lemma TripleSplit(t: string, sep: char)
    requires Triple(t, sep) && !IsDigit(sep)
    ensures Split(t, sep) == [t[0..2], t[3..5], t[6..]]
  {
    NotInDigits(t[0..2], sep);
    assert t[..2] == t[0..2];
    assert t[2] == sep;
    assert IndexOf(t, sep) == 2;
    var r := t[3..];
    assert Split(t, sep) == [t[0..2]] + Split(r, sep);
    assert r[0..2] == t[3..5];
    NotInDigits(r[0..2], sep);
    assert r[..2] == r[0..2];
    assert r[2] == sep;
    assert IndexOf(r, sep) == 2;
    assert r[3..] == t[6..];
    NotInDigits(t[6..], sep);
    assert Split(r, sep) == [t[3..5]] + Split(t[6..], sep);
  }

  /** A space-free half. */
  lemma TripleHasNoSpace(t: string, sep: char)
    requires Triple(t, sep) && sep != ' '
    ensures ' ' !in t
  {
    forall k | 0 <= k < |t| ensures t[k] != ' ' {
      if k < 2 { assert t[0..2][k] == t[k]; }
      else if 3 <= k < 5 { assert t[3..5][k - 3] == t[k]; }
      else if 6 <= k { assert t[6..][k - 6] == t[k]; }
    }
  }

  /** Under the shape, `split(' ')` gives the date part and the time part. */
  lemma DateShapeSplit(s: string)
    requires DateShape(s)
    ensures Split(s, ' ') == [s[..10], s[11..]]
    ensures Split(s[..10], '/') == [s[0..2], s[3..5], s[6..10]]
    ensures Split(s[11..], ':') == [s[11..13], s[14..16], s[17..]]
  {
    TripleHasNoSpace(s[..10], '/');
    assert IndexOf(s, ' ') == 10;
    TripleHasNoSpace(s[11..], ':');
    TripleSplit(s[..10], '/');
    TripleSplit(s[11..], ':');
    assert s[..10][0..2] == s[0..2] && s[..10][3..5] == s[3..5] && s[..10][6..] == s[6..10];
    assert s[11..][0..2] == s[11..13] && s[11..][3..5] == s[14..16] && s[11..][6..] == s[17..];
  }

  /** `a + sep + b + sep + c`. */
  function Joined(a: string, sep: char, b: string, c: string): string {
    a + [sep] + b + [sep] + c
  }

  /** Joining two two-digit fields and a digit field gives a half whose fields are the parts. */
  lemma JoinedTriple(a: string, sep: char, b: string, c: string)
    requires |a| == 2 && |b| == 2 && IsDigits(a) && IsDigits(b) && IsDigits(c)
    ensures Triple(Joined(a, sep, b, c), sep)
    ensures Joined(a, sep, b, c)[0..2] == a && Joined(a, sep, b, c)[3..5] == b && Joined(a, sep, b, c)[6..] == c
  {
    var t := Joined(a, sep, b, c);
    assert t[0..2] == a;
    assert t[3..5] == b;
    assert t[6..] == c;
  }

  /** The date and time text `DD/MM/YYYY HH:MM:SS` of the given parts. */
  function DateTimeText(day: nat, month: nat, year: nat, hours: nat, minutes: nat, seconds: nat): string {
    Joined(Pad2(day), '/', Pad2(month), DecimalString(year)) + " " + Joined(Pad2(hours), ':', Pad2(minutes), Pad2(seconds))
  }

  /** A four-digit number has a four-character decimal text. */
  lemma FourDigits(year: nat)
    requires 1000 <= year <= 9999
    ensures |DecimalString(year)| == 4
  {
    assert DecimalString(year) == DecimalString(year / 10) + [DigitChar(year % 10)];
    assert DecimalString(year / 10) == DecimalString(year / 100) + [DigitChar((year / 10) % 10)];
    assert DecimalString(year / 100) == DecimalString(year / 1000) + [DigitChar((year / 100) % 10)];
  }

  /**
   * A date and time written with two-digit parts and a four-digit year is
   * accepted exactly when its parts are in range.
   */
  lemma DateTimeTextValid(day: nat, month: nat, year: nat, hours: nat, minutes: nat, seconds: nat)
    requires day < 100 && month < 100 && hours < 100 && minutes < 100 && seconds < 100
    requires 1000 <= year <= 9999
    ensures IsValidDate(DateTimeText(day, month, year, hours, minutes, seconds)) <==>
      1 <= month <= 12 && 1 <= day <= 31 && hours <= 23 && minutes <= 59 && seconds <= 59
  {
    FourDigits(year);
    var d := Joined(Pad2(day), '/', Pad2(month), DecimalString(year));
    var t := Joined(Pad2(hours), ':', Pad2(minutes), Pad2(seconds));
    JoinedTriple(Pad2(day), '/', Pad2(month), DecimalString(year));
    JoinedTriple(Pad2(hours), ':', Pad2(minutes), Pad2(seconds));
    var s := DateTimeText(day, month, year, hours, minutes, seconds);
    assert |d| == 10 && |t| == 8;
    assert s[..10] == d && s[11..] == t && s[10] == ' ';
    assert DateShape(s);
  }

  /** The value of a two-digit text. */
  lemma TwoDigitsValue(t: string)
    requires |t| == 2 && IsDigits(t)
    ensures DigitsValue(t) == 10 * (t[0] as int - '0' as int) + (t[1] as int - '0' as int)
  {
    assert t[..1][..0] == [];
    assert t[..1] == [t[0]];
    assert DigitsValue(t[..1]) == t[0] as int - '0' as int;
  }

  /** A date and a time joined by one space. */
  lemma DateTimeParts(d: string, t: string)
    requires |d| == 10 && |t| == 8
    ensures var s := d + " " + t; |s| == 19 && s[..10] == d && s[10] == ' ' && s[11..] == t
  {
    var s := d + " " + t;
    assert s[..10] == d;
    assert s[11..] == t;
  }

  /** There is no calendar check: the 31st of February passes. */
  lemma ThirtyFirstOfFebruaryAccepted()
    ensures IsValidDate("31/02/2024 10:00:00")
  {
    var d, t := "31/02/2024", "10:00:00";
    DateTimeParts(d, t);
    assert d + " " + t == "31/02/2024 10:00:00";
    assert d[0..2] == "31" && d[3..5] == "02" && d[6..] == "2024";
    assert t[0..2] == "10" && t[3..5] == "00" && t[6..] == "00";
    TwoDigitsValue("31");
    TwoDigitsValue("02");
    TwoDigitsValue("10");
    TwoDigitsValue("00");
  }

  /** Year-first dates have the wrong shape. */
  lemma YearFirstRejected()
    ensures !IsValidDate("2024/02/31 10:00:00")
  {
    var s := "2024/02/31 10:00:00";
    assert s[..10][2] == '2';
  }

  /**
   * A worksheet date cell reads as `DD/MM/YYYY` without a time, so a launch
   * or close date typed as a date is never accepted.
   */
  lemma DateCellNeverValidDate(day: nat, month: nat, year: nat)
    ensures !IsValidDate(FormatCellDate(day, month, year))
  {
    var s := FormatCellDate(day, month, year);
    NotInDigits(Pad2(day), ' ');
    NotInDigits(Pad2(month), ' ');
    NotInDigits(DecimalString(year), ' ');
    assert ' ' !in s;
    if |s| == 19 {
      assert s[10] in s;
    }
  }

  // ---------------------------------------------------------------------
  // Surveys
  // ---------------------------------------------------------------------

  /** One failed survey check. */
  datatype SurveyError =
    | SurveyIdRequired
    | SurveyIdFormat
    | SurveyNameRequired
    | SurveyNameTooLong
    | SurveyDescriptionRequired
    | SurveyDescriptionTooLong
    | NotYesNo(field: string)
    | ModeInvalid
    | LaunchDateFormat
    | CloseDateFormat

  predicate IsIdChar(c: char) {
    ('A' <= c <= 'Z') || ('a' <= c <= 'z') || ('0' <= c <= '9') || c == '_'
  }

  /** The regex `^[A-Za-z0-9_]+$`. */
  predicate IsSurveyIdText(s: string) {
    |s| > 0 && forall i :: 0 <= i < |s| ==> IsIdChar(s[i])
  }

  /** The survey fields that hold 'Yes' or 'No', in the order they are checked. */
  const YesNoFields: seq<string> := [
    "public", "inSchool", "acceptMultipleEntries", "visibleOnReportBot",
    "isActive", "downloadResponse", "geoFencing", "geoTagging", "testSurvey"]

  const MaxSurveyName: nat := 99
  const MaxSurveyDescription: nat := 256

  function IdError(s: Record): seq<SurveyError> {
    var id := Field(s, "surveyId");
    if IsBlank(id) then [SurveyIdRequired] else if !IsSurveyIdText(id) then [SurveyIdFormat] else []
  }

  function NameError(s: Record): seq<SurveyError> {
    var name := Field(s, "surveyName");
    if IsBlank(name) then [SurveyNameRequired] else if |name| > MaxSurveyName then [SurveyNameTooLong] else []
  }

  function DescriptionError(s: Record): seq<SurveyError> {
    var d := Field(s, "surveyDescription");
    if IsBlank(d) then [SurveyDescriptionRequired] else if |d| > MaxSurveyDescription then [SurveyDescriptionTooLong] else []
  }

  /** A present Yes/No field must hold one of the schema's values. */
  predicate YesNoViolated(s: Record, schema: Schema, field: string) {
    Field(s, field) != "" && Field(s, field) !in schema.yesNoValues
  }

  /**
   * The errors of the first `n` Yes/No fields: only Yes/No errors, each naming
   * one of those fields, at most one per field.
   */
  function YesNoPrefix(s: Record, schema: Schema, n: nat): (errors: seq<SurveyError>)
    requires n <= |YesNoFields|
    ensures forall e :: e in errors ==> e.NotYesNo? && e.field in YesNoFields[..n]
    ensures |errors| <= n
  {
    if n == 0 then []
    else
      var field := YesNoFields[n - 1];
      assert forall f :: f in YesNoFields[..n - 1] ==> f in YesNoFields[..n] by {
        assert YesNoFields[..n] == YesNoFields[..n - 1] + [field];
      }
      YesNoPrefix(s, schema, n - 1) + (if YesNoViolated(s, schema, field) then [NotYesNo(field)] else [])
  }

  /** No two Yes/No errors of a prefix are the same: a field is reported once. */
  lemma {:induction false} YesNoPrefixOnePerField(s: Record, schema: Schema, n: nat)
    requires n <= |YesNoFields|
    ensures forall i, j :: 0 <= i < j < |YesNoPrefix(s, schema, n)| ==> YesNoPrefix(s, schema, n)[i] != YesNoPrefix(s, schema, n)[j]
  {
    if n > 0 {
      YesNoPrefixOnePerField(s, schema, n - 1);
      var field := YesNoFields[n - 1];
      var init := YesNoPrefix(s, schema, n - 1);
      assert field !in YesNoFields[..n - 1] by {
        assert forall a, b :: 0 <= a < b < |YesNoFields| ==> YesNoFields[a] != YesNoFields[b];
      }
      assert NotYesNo(field) !in init;
    }
  }

  function ModeError(s: Record, schema: Schema): seq<SurveyError> {
    var mode := Field(s, "mode");
    if mode != "" && mode !in schema.modes then [ModeInvalid] else []
  }

  function LaunchDateError(s: Record): seq<SurveyError> {
    var launch := Field(s, "launchDate");
    if launch != "" && !IsValidDate(launch) then [LaunchDateFormat] else []
  }

  function CloseDateError(s: Record): seq<SurveyError> {
    var close := Field(s, "closeDate");
    if close != "" && !IsValidDate(close) then [CloseDateFormat] else []
  }

  /** The errors of the id, the name and the description, in order. */
  function TextErrors(s: Record): (errors: seq<SurveyError>)
    ensures forall e :: e in errors ==> !e.NotYesNo? && !e.ModeInvalid? && !e.LaunchDateFormat? && !e.CloseDateFormat?
    ensures |errors| <= 3
  {
    IdError(s) + NameError(s) + DescriptionError(s)
  }

  /** The errors of the optional mode and dates, in order. */
  function OptionalErrors(s: Record, schema: Schema): (errors: seq<SurveyError>)
    ensures forall e :: e in errors ==> e.ModeInvalid? || e.LaunchDateFormat? || e.CloseDateFormat?
    ensures |errors| <= 3
  {
    ModeError(s, schema) + LaunchDateError(s) + CloseDateError(s)
  }

  /** The errors `validateSurvey` reports, in order. */
  function SurveyErrors(s: Record, schema: Schema): seq<SurveyError> {
    TextErrors(s) + YesNoPrefix(s, schema, |YesNoFields|) + OptionalErrors(s, schema)
  }

  /** Membership in three concatenated lists. */
  lemma InThree<T>(x: T, a: seq<T>, b: seq<T>, c: seq<T>)
    ensures x in a + b + c <==> x in a || x in b || x in c
  {
  }

  /** Membership in four concatenated lists. */
  lemma InFour<T>(x: T, a: seq<T>, b: seq<T>, c: seq<T>, d: seq<T>)
    ensures x in a + b + c + d <==> x in a || x in b || x in c || x in d
  {
  }

  /** The checks on the id, the name and the description. */
  method CheckSurveyTexts(s: Record) returns (errors: seq<SurveyError>)
    ensures errors == TextErrors(s)
  {
    errors := [];
    var id := Field(s, "surveyId");
    if IsBlank(id) {
      errors := errors + [SurveyIdRequired];
    } else if !IsSurveyIdText(id) {
      errors := errors + [SurveyIdFormat];
    }
    assert errors == IdError(s);
    var name := Field(s, "surveyName");
    if IsBlank(name) {
      errors := errors + [SurveyNameRequired];
    } else if |name| > MaxSurveyName {
      errors := errors + [SurveyNameTooLong];
    }
    assert errors == IdError(s) + NameError(s);
    var description := Field(s, "surveyDescription");
    if IsBlank(description) {
      errors := errors + [SurveyDescriptionRequired];
    } else if |description| > MaxSurveyDescription {
      errors := errors + [SurveyDescriptionTooLong];
    }
  }

  /** The `yesNoFields.forEach` loop. */
  method CheckYesNo(s: Record, schema: Schema) returns (errors: seq<SurveyError>)
    ensures errors == YesNoPrefix(s, schema, |YesNoFields|)
  {
    errors := [];
    for k := 0 to |YesNoFields|
      invariant errors == YesNoPrefix(s, schema, k)
    {
      var field := YesNoFields[k];
      var value := Field(s, field);
      if value != "" && value !in schema.yesNoValues {
        errors := errors + [NotYesNo(field)];
      }
    }
  }

  /** The checks on the mode and the two dates, made only when the field is present. */
  method CheckModeAndDates(s: Record, schema: Schema) returns (errors: seq<SurveyError>)
    ensures errors == OptionalErrors(s, schema)
  {
    errors := [];
    var mode := Field(s, "mode");
    if mode != "" && mode !in schema.modes {
      errors := errors + [ModeInvalid];
    }
    assert errors == ModeError(s, schema);
    var launch := Field(s, "launchDate");
    if launch != "" && !IsValidDate(launch) {
      errors := errors + [LaunchDateFormat];
    }
    assert errors == ModeError(s, schema) + LaunchDateError(s);
    var close := Field(s, "closeDate");
    if close != "" && !IsValidDate(close) {
      errors := errors + [CloseDateFormat];
    }
  }

  /** `validateSurvey`, block by block. */
  method ValidateSurvey(s: Record, schema: Schema) returns (isValid: bool, errors: seq<SurveyError>)
    ensures errors == SurveyErrors(s, schema)
    ensures isValid <==> errors == []
  {
    errors := CheckSurveyTexts(s);
    var yesNo := CheckYesNo(s, schema);
    errors := errors + yesNo;
    var rest := CheckModeAndDates(s, schema);
    errors := errors + rest;
    isValid := |errors| == 0;
  }

  /** Every survey check, stated on its own. */
  predicate SurveyAcceptable(s: Record, schema: Schema) {
    && IsSurveyIdText(Field(s, "surveyId"))
    && !IsBlank(Field(s, "surveyName")) && |Field(s, "surveyName")| <= MaxSurveyName
    && !IsBlank(Field(s, "surveyDescription")) && |Field(s, "surveyDescription")| <= MaxSurveyDescription
    && (forall k :: 0 <= k < |YesNoFields| ==> !YesNoViolated(s, schema, YesNoFields[k]))
    && (Field(s, "mode") == "" || Field(s, "mode") in schema.modes)
    && (Field(s, "launchDate") == "" || IsValidDate(Field(s, "launchDate")))
    && (Field(s, "closeDate") == "" || IsValidDate(Field(s, "closeDate")))
  }

  /** A text of id characters is never blank. */
  lemma SurveyIdNotBlank(id: string)
    requires IsSurveyIdText(id)
    ensures !IsBlank(id)
  {
    BlankIffAllSpace(id);
    assert !IsSpace(id[0]);
  }

  /** No Yes/No error among the first `n` fields exactly when none of them is violated. */
  lemma {:induction false} YesNoPrefixEmpty(s: Record, schema: Schema, n: nat)
    requires n <= |YesNoFields|
    ensures YesNoPrefix(s, schema, n) == [] <==> forall k :: 0 <= k < n ==> !YesNoViolated(s, schema, YesNoFields[k])
  {
    if n > 0 {
      YesNoPrefixEmpty(s, schema, n - 1);
      var field := YesNoFields[n - 1];
      assert YesNoPrefix(s, schema, n)
        == YesNoPrefix(s, schema, n - 1) + (if YesNoViolated(s, schema, field) then [NotYesNo(field)] else []);
    }
  }

  /** A Yes/No error names a field among the first `n` exactly when that field is violated. */
  lemma {:induction false} YesNoPrefixHas(s: Record, schema: Schema, n: nat, field: string)
    requires n <= |YesNoFields|
    ensures NotYesNo(field) in YesNoPrefix(s, schema, n) <==>
      YesNoViolated(s, schema, field) && exists k :: 0 <= k < n && YesNoFields[k] == field
  {
    if n > 0 {
      YesNoPrefixHas(s, schema, n - 1, field);
      var last := YesNoFields[n - 1];
      assert YesNoPrefix(s, schema, n)
        == YesNoPrefix(s, schema, n - 1) + (if YesNoViolated(s, schema, last) then [NotYesNo(last)] else []);
      if last == field && YesNoViolated(s, schema, field) {
        assert YesNoFields[n - 1] == field;
      }
    }
  }

  /** `validateSurvey` accepts a survey exactly when every check holds. */
  lemma SurveyValidIff(s: Record, schema: Schema)
    ensures SurveyErrors(s, schema) == [] <==> SurveyAcceptable(s, schema)
  {
    var id := Field(s, "surveyId");
    if IsSurveyIdText(id) {
      SurveyIdNotBlank(id);
    }
    YesNoPrefixEmpty(s, schema, |YesNoFields|);
  }

  /** A survey id is reported missing when blank, and malformed exactly when it is not blank and breaks the pattern. */
  lemma SurveyIdErrors(s: Record, schema: Schema)
    ensures SurveyIdRequired in SurveyErrors(s, schema) <==> IsBlank(Field(s, "surveyId"))
    ensures SurveyIdFormat in SurveyErrors(s, schema) <==>
      !IsBlank(Field(s, "surveyId")) && !IsSurveyIdText(Field(s, "surveyId"))
  {
    var t, y, o := TextErrors(s), YesNoPrefix(s, schema, |YesNoFields|), OptionalErrors(s, schema);
    InThree(SurveyIdRequired, t, y, o);
    InThree(SurveyIdFormat, t, y, o);
    InThree(SurveyIdRequired, IdError(s), NameError(s), DescriptionError(s));
    InThree(SurveyIdFormat, IdError(s), NameError(s), DescriptionError(s));
  }

  /** A Yes/No field is reported exactly when it is present and not one of the allowed values. */
  lemma SurveyYesNoErrors(s: Record, schema: Schema, field: string)
    requires field in YesNoFields
    ensures NotYesNo(field) in SurveyErrors(s, schema) <==> YesNoViolated(s, schema, field)
  {
    YesNoPrefixHas(s, schema, |YesNoFields|, field);
    var k :| 0 <= k < |YesNoFields| && YesNoFields[k] == field;
    var t, y, o := TextErrors(s), YesNoPrefix(s, schema, |YesNoFields|), OptionalErrors(s, schema);
    InThree(NotYesNo(field), t, y, o);
  }

  /** Absent optional fields are never checked. */
  lemma AbsentFieldsUnchecked(s: Record, schema: Schema)
    requires forall k :: 0 <= k < |YesNoFields| ==> Field(s, YesNoFields[k]) == ""
    requires Field(s, "mode") == "" && Field(s, "launchDate") == "" && Field(s, "closeDate") == ""
    ensures SurveyErrors(s, schema) == TextErrors(s)
  {
    YesNoPrefixEmpty(s, schema, |YesNoFields|);
  }

  // ---------------------------------------------------------------------
  // Questions
  // ---------------------------------------------------------------------

  /** One failed question check. */
  datatype QuestionError =
    | QuestionIdRequired
    | QuestionTypeInvalid
    | QuestionDescriptionRequired
    | ChildIdFormat
    | ChildSourceMissing
    | OptionsRequired
    | FieldRequired(field: string)
    | TextInputTypeFixed(expected: string)
    | MediaTypeFixed(expected: string)
    | TooManyOptions(max: nat)
    | TooFewOptions(min: nat)
    | TableFormat
    | TooManyTableQuestions(max: nat)
    | TableQuestionTooLong(line: nat)
    | TextInputTypeInvalid
    | MediaTypeInvalid
    | IsMandatoryInvalid
    | IsDynamicInvalid

  /** The text fields of a consolidated question by name, as a property lookup finds them. */
  function QuestionFields(q: Question): seq<(string, string)> {
    [
      ("surveyId", q.info.surveyId),
      ("questionId", q.info.questionId),
      ("questionType", q.info.questionType),
      ("isDynamic", q.info.isDynamic),
      ("isMandatory", q.info.isMandatory),
      ("sourceQuestion", q.info.sourceQuestion),
      ("textInputType", q.info.textInputType),
      ("textLimitCharacters", q.info.textLimitCharacters),
      ("maxValue", q.info.maxValue),
      ("minValue", q.info.minValue),
      ("questionMediaLink", q.info.questionMediaLink),
      ("questionMediaType", q.info.questionMediaType),
      ("mode", q.info.mode),
      ("medium", q.medium),
      ("questionDescription", q.content.questionDescription),
      ("questionDescriptionOptional", q.content.questionDescriptionOptional),
      ("tableHeaderValue", q.content.tableHeaderValue),
      ("tableQuestionValue", q.content.tableQuestionValue)
    ]
  }

  /** The value of the first field called `name`, or '' when there is none. */
  function Lookup(fields: seq<(string, string)>, name: string): string {
    if fields == [] then "" else if fields[0].0 == name then fields[0].1 else Lookup(fields[1..], name)
  }

  /** `questionData[name]` for the text fields of a consolidated question; '' for any other name. */
  function QuestionText(q: Question, name: string): string {
    Lookup(QuestionFields(q), name)
  }

  /** `!!questionData[name]`: the option list and the translations are objects, so always truthy. */
  predicate FieldIsSet(q: Question, name: string) {
    name == "options" || name == "translations" || QuestionText(q, name) != ""
  }

  function HeadErrors(q: Question, schema: Schema): (errors: seq<QuestionError>)
    ensures forall e :: e in errors ==> e.QuestionIdRequired? || e.QuestionTypeInvalid? || e.QuestionDescriptionRequired?
    ensures |errors| <= 3
  {
    var qt := q.info.questionType;
    (if IsBlank(q.info.questionId) then [QuestionIdRequired] else [])
    + (if qt == "" || qt !in schema.questionTypes then [QuestionTypeInvalid] else [])
    + (if IsBlank(q.content.questionDescription) then [QuestionDescriptionRequired] else [])
  }

  /** A child question id (one with a '.') must have the child format and a source question. */
  function ChildErrors(q: Question, schema: Schema): (errors: seq<QuestionError>)
    ensures forall e :: e in errors ==> e.ChildIdFormat? || e.ChildSourceMissing?
  {
    var id := q.info.questionId;
    if '.' in id then
      (if !schema.childFormat(id) then [ChildIdFormat] else [])
      + (if q.info.sourceQuestion == "" then [ChildSourceMissing] else [])
    else []
  }

  /** The errors that only a type's constraints produce. */
  predicate IsConstraintError(e: QuestionError) {
    || e.TextInputTypeFixed? || e.MediaTypeFixed? || e.TooManyOptions? || e.TooFewOptions?
    || e.TableFormat? || e.TooManyTableQuestions? || e.TableQuestionTooLong?
  }

  /** The errors that only a type's rule produces. */
  predicate IsTypeError(e: QuestionError) {
    e.OptionsRequired? || e.FieldRequired? || IsConstraintError(e)
  }

  /** The error one required field contributes. */
  function RequiredError(q: Question, field: string): seq<QuestionError> {
    if field == "options" then (if |q.content.options| == 0 then [OptionsRequired] else [])
    else if !FieldIsSet(q, field) then [FieldRequired(field)]
    else []
  }

  /** The errors of the first `n` required fields. */
  function RequiredPrefix(q: Question, required: seq<string>, n: nat): (errors: seq<QuestionError>)
    requires n <= |required|
    ensures forall e :: e in errors ==> e.OptionsRequired? || e.FieldRequired?
  {
    if n == 0 then [] else RequiredPrefix(q, required, n - 1) + RequiredError(q, required[n - 1])
  }

  function RequiredErrors(q: Question, required: seq<string>): seq<QuestionError> {
    RequiredPrefix(q, required, |required|)
  }

  function FixedTypeErrors(q: Question, c: Constraints): (errors: seq<QuestionError>)
    ensures forall e :: e in errors ==> e.TextInputTypeFixed? || e.MediaTypeFixed?
  {
    (if c.textInputType != "" && q.info.textInputType != c.textInputType then [TextInputTypeFixed(c.textInputType)] else [])
    + (if c.questionMediaType != "" && q.info.questionMediaType != c.questionMediaType then [MediaTypeFixed(c.questionMediaType)] else [])
  }

  /** Option-count bounds apply only to a non-empty option list and only when set. */
  function OptionCountErrors(q: Question, c: Constraints): (errors: seq<QuestionError>)
    ensures forall e :: e in errors ==> e.TooManyOptions? || e.TooFewOptions?
  {
    var n := |q.content.options|;
    if n > 0 then
      (if c.maxOptions > 0 && n > c.maxOptions then [TooManyOptions(c.maxOptions)] else [])
      + (if c.minOptions > 0 && n < c.minOptions then [TooFewOptions(c.minOptions)] else [])
    else []
  }

  /** A table line whose text between its first and second ':' is longer than the limit. */
  predicate LineTooLong(line: string, maxChars: Option<nat>) {
    var text := PieceAt(line, ':', 1);
    text.Some? && text.value != "" && maxChars.Some? && |text.value| > maxChars.value
  }

  /** The errors of the first `n` table lines; lines are numbered from 1. */
  function LinePrefix(lines: seq<string>, maxChars: Option<nat>, n: nat): (errors: seq<QuestionError>)
    requires n <= |lines|
    ensures forall e :: e in errors ==> e.TableQuestionTooLong?
  {
    if n == 0 then []
    else LinePrefix(lines, maxChars, n - 1) + (if LineTooLong(lines[n - 1], maxChars) then [TableQuestionTooLong(n)] else [])
  }

  /** The checks on a non-empty `tableQuestionValue`. */
  function TableErrors(value: string, t: TableRule): (errors: seq<QuestionError>)
    ensures forall e :: e in errors ==> e.TableFormat? || e.TooManyTableQuestions? || e.TableQuestionTooLong?
  {
    var lines := Split(value, '\n');
    (if !t.format(value) then [TableFormat] else [])
    + (if t.maxQuestions.Some? && |lines| > t.maxQuestions.value then [TooManyTableQuestions(t.maxQuestions.value)] else [])
    + LinePrefix(lines, t.maxCharsPerQuestion, |lines|)
  }

  function ConstraintErrors(q: Question, c: Constraints): (errors: seq<QuestionError>)
    ensures forall e :: e in errors ==> IsConstraintError(e)
  {
    var v := q.content.tableQuestionValue;
    FixedTypeErrors(q, c) + OptionCountErrors(q, c)
    + (if c.tableQuestionValue.Some? && v != "" then TableErrors(v, c.tableQuestionValue.value) else [])
  }

  /** The errors of the type's rule, when the type has one. */
  function TypeErrors(q: Question, schema: Schema): (errors: seq<QuestionError>)
    ensures forall e :: e in errors ==> IsTypeError(e)
  {
    var qt := q.info.questionType;
    if qt != "" && qt in schema.rules then
      var rule := schema.rules[qt];
      RequiredErrors(q, rule.required) + (if rule.constraints.Some? then ConstraintErrors(q, rule.constraints.value) else [])
    else []
  }

  /** The checks of the global enumerations, made whatever the type. */
  function EnumErrors(q: Question, schema: Schema): (errors: seq<QuestionError>)
    ensures forall e :: e in errors ==> e.TextInputTypeInvalid? || e.MediaTypeInvalid? || e.IsMandatoryInvalid? || e.IsDynamicInvalid?
    ensures |errors| <= 4
  {
    var i := q.info;
    (if i.textInputType != "" && i.textInputType !in schema.textInputTypes then [TextInputTypeInvalid] else [])
    + (if i.questionMediaType != "" && i.questionMediaType !in schema.questionMediaTypes then [MediaTypeInvalid] else [])
    + (if i.isMandatory != "" && i.isMandatory !in schema.yesNoValues then [IsMandatoryInvalid] else [])
    + (if i.isDynamic != "" && i.isDynamic !in schema.yesNoValues then [IsDynamicInvalid] else [])
  }

  /** The errors `validateQuestion` reports, in order. */
  function QuestionErrors(q: Question, schema: Schema): seq<QuestionError> {
    HeadErrors(q, schema) + ChildErrors(q, schema) + TypeErrors(q, schema) + EnumErrors(q, schema)
  }

  /** The `rules.required.forEach` loop. */
  method CheckRequired(q: Question, required: seq<string>) returns (errors: seq<QuestionError>)
    ensures errors == RequiredErrors(q, required)
  {
    errors := [];
    for k := 0 to |required|
      invariant errors == RequiredPrefix(q, required, k)
    {
      var field := required[k];
      if field == "options" {
        if |q.content.options| == 0 {
          errors := errors + [OptionsRequired];
        }
      } else if !FieldIsSet(q, field) {
        errors := errors + [FieldRequired(field)];
      }
    }
  }

  /** The checks on a non-empty `tableQuestionValue`, with the `questions.forEach` loop over its lines. */
  method CheckTable(value: string, t: TableRule) returns (errors: seq<QuestionError>)
    ensures errors == TableErrors(value, t)
  {
    errors := [];
    if !t.format(value) {
      errors := errors + [TableFormat];
    }
    var lines := Split(value, '\n');
    if t.maxQuestions.Some? && |lines| > t.maxQuestions.value {
      errors := errors + [TooManyTableQuestions(t.maxQuestions.value)];
    }
    ghost var head := errors;
    for idx := 0 to |lines|
      invariant errors == head + LinePrefix(lines, t.maxCharsPerQuestion, idx)
    {
      var questionText := PieceAt(lines[idx], ':', 1);
      if questionText.Some? && questionText.value != "" && t.maxCharsPerQuestion.Some?
        && |questionText.value| > t.maxCharsPerQuestion.value
      {
        errors := errors + [TableQuestionTooLong(idx + 1)];
      }
    }
  }

  /** The checks on the id, the type and the description. */
  method CheckHead(q: Question, schema: Schema) returns (errors: seq<QuestionError>)
    ensures errors == HeadErrors(q, schema)
  {
    errors := [];
    var qt := q.info.questionType;
    if IsBlank(q.info.questionId) {
      errors := errors + [QuestionIdRequired];
    }
    if qt == "" || qt !in schema.questionTypes {
      errors := errors + [QuestionTypeInvalid];
    }
    if IsBlank(q.content.questionDescription) {
      errors := errors + [QuestionDescriptionRequired];
    }
  }

  /** The child-question checks. */
  method CheckChild(q: Question, schema: Schema) returns (errors: seq<QuestionError>)
    ensures errors == ChildErrors(q, schema)
  {
    errors := [];
    var id := q.info.questionId;
    if id != "" && '.' in id {
      if !schema.childFormat(id) {
        errors := errors + [ChildIdFormat];
      }
      if q.info.sourceQuestion == "" {
        errors := errors + [ChildSourceMissing];
      }
    }
  }

  /** The `if (rules.constraints)` block. */
  method CheckConstraints(q: Question, c: Constraints) returns (errors: seq<QuestionError>)
    ensures errors == ConstraintErrors(q, c)
  {
    var fixed: seq<QuestionError> := [];
    if c.textInputType != "" && q.info.textInputType != c.textInputType {
      fixed := fixed + [TextInputTypeFixed(c.textInputType)];
    }
    if c.questionMediaType != "" && q.info.questionMediaType != c.questionMediaType {
      fixed := fixed + [MediaTypeFixed(c.questionMediaType)];
    }
    assert fixed == FixedTypeErrors(q, c);
    var counts: seq<QuestionError> := [];
    var n := |q.content.options|;
    if n > 0 {
      if c.maxOptions > 0 && n > c.maxOptions {
        counts := counts + [TooManyOptions(c.maxOptions)];
      }
      if c.minOptions > 0 && n < c.minOptions {
        counts := counts + [TooFewOptions(c.minOptions)];
      }
    }
    assert counts == OptionCountErrors(q, c);
    var table: seq<QuestionError> := [];
    var v := q.content.tableQuestionValue;
    if c.tableQuestionValue.Some? && v != "" {
      table := CheckTable(v, c.tableQuestionValue.value);
    }
    errors := fixed + counts + table;
  }

  /** The checks of the global enumerations. */
  method CheckEnums(q: Question, schema: Schema) returns (errors: seq<QuestionError>)
    ensures errors == EnumErrors(q, schema)
  {
    errors := [];
    var info := q.info;
    if info.textInputType != "" && info.textInputType !in schema.textInputTypes {
      errors := errors + [TextInputTypeInvalid];
    }
    if info.questionMediaType != "" && info.questionMediaType !in schema.questionMediaTypes {
      errors := errors + [MediaTypeInvalid];
    }
    if info.isMandatory != "" && info.isMandatory !in schema.yesNoValues {
      errors := errors + [IsMandatoryInvalid];
    }
    if info.isDynamic != "" && info.isDynamic !in schema.yesNoValues {
      errors := errors + [IsDynamicInvalid];
    }
  }

  /**
   * `validateQuestion`, block by block. The second argument, the list the
   * caller passes (the surveys, at the import), plays no part in the result.
   */
  method ValidateQuestion<T>(q: Question, existingQuestions: seq<T>, schema: Schema) returns (isValid: bool, errors: seq<QuestionError>)
    ensures errors == QuestionErrors(q, schema)
    ensures isValid <==> errors == []
  {
    errors := CheckHead(q, schema);
    var child := CheckChild(q, schema);
    errors := errors + child;
    var qt := q.info.questionType;
    var typeErrors: seq<QuestionError> := [];
    if qt != "" && qt in schema.rules {
      var rule := schema.rules[qt];
      typeErrors := CheckRequired(q, rule.required);
      if rule.constraints.Some? {
        var constraintErrors := CheckConstraints(q, rule.constraints.value);
        typeErrors := typeErrors + constraintErrors;
      }
    }
    errors := errors + typeErrors;
    var enums := CheckEnums(q, schema);
    errors := errors + enums;
    isValid := |errors| == 0;
  }

  /** A child id (one with a '.') is checked for its format. */
  lemma ChildFormatChecks(q: Question, schema: Schema)
    ensures ChildIdFormat in QuestionErrors(q, schema) <==> '.' in q.info.questionId && !schema.childFormat(q.info.questionId)
  {
    InFour(ChildIdFormat, HeadErrors(q, schema), ChildErrors(q, schema), TypeErrors(q, schema), EnumErrors(q, schema));
  }

  /** A child question is checked for the presence, not the existence, of its source question. */
  lemma ChildSourceChecks(q: Question, schema: Schema)
    ensures ChildSourceMissing in QuestionErrors(q, schema) <==> '.' in q.info.questionId && q.info.sourceQuestion == ""
  {
    InFour(ChildSourceMissing, HeadErrors(q, schema), ChildErrors(q, schema), TypeErrors(q, schema), EnumErrors(q, schema));
  }

  /** A required field is provided: a non-empty option list for "options", a truthy value otherwise. */
  predicate RequirementMet(q: Question, field: string) {
    if field == "options" then |q.content.options| > 0 else FieldIsSet(q, field)
  }

  /** Every table check, stated on its own. */
  predicate TableAcceptable(value: string, t: TableRule) {
    var lines := Split(value, '\n');
    && t.format(value)
    && (t.maxQuestions.None? || |lines| <= t.maxQuestions.value)
    && forall k :: 0 <= k < |lines| ==> !LineTooLong(lines[k], t.maxCharsPerQuestion)
  }

  /** Every check of a type's constraints, stated on its own. */
  predicate ConstraintsMet(q: Question, c: Constraints) {
    var n := |q.content.options|;
    var v := q.content.tableQuestionValue;
    && (c.textInputType == "" || q.info.textInputType == c.textInputType)
    && (c.questionMediaType == "" || q.info.questionMediaType == c.questionMediaType)
    && (n == 0 || ((c.maxOptions == 0 || n <= c.maxOptions) && (c.minOptions == 0 || c.minOptions <= n)))
    && (c.tableQuestionValue.None? || v == "" || TableAcceptable(v, c.tableQuestionValue.value))
  }

  /** Every check of a type's rule, stated on its own. */
  predicate RuleMet(q: Question, rule: TypeRule) {
    && (forall k :: 0 <= k < |rule.required| ==> RequirementMet(q, rule.required[k]))
    && (rule.constraints.None? || ConstraintsMet(q, rule.constraints.value))
  }

  /** Every question check, stated on its own. */
  predicate QuestionAcceptable(q: Question, schema: Schema) {
    var i := q.info;
    var qt := i.questionType;
    && !IsBlank(i.questionId)
    && qt != "" && qt in schema.questionTypes
    && !IsBlank(q.content.questionDescription)
    && ('.' in i.questionId ==> schema.childFormat(i.questionId) && i.sourceQuestion != "")
    && (qt != "" && qt in schema.rules ==> RuleMet(q, schema.rules[qt]))
    && (i.textInputType == "" || i.textInputType in schema.textInputTypes)
    && (i.questionMediaType == "" || i.questionMediaType in schema.questionMediaTypes)
    && (i.isMandatory == "" || i.isMandatory in schema.yesNoValues)
    && (i.isDynamic == "" || i.isDynamic in schema.yesNoValues)
  }

  /** No required-field error among the first `n` fields exactly when each of them is provided. */
  lemma {:induction false} RequiredPrefixEmpty(q: Question, required: seq<string>, n: nat)
    requires n <= |required|
    ensures RequiredPrefix(q, required, n) == [] <==> forall k :: 0 <= k < n ==> RequirementMet(q, required[k])
  {
    if n > 0 {
      RequiredPrefixEmpty(q, required, n - 1);
      var prefix, last := RequiredPrefix(q, required, n - 1), RequiredError(q, required[n - 1]);
      assert RequiredPrefix(q, required, n) == prefix + last;
      assert |prefix + last| == |prefix| + |last|;
      RequiredErrorEmpty(q, required[n - 1]);
    }
  }

  /** One required field draws no error exactly when it is provided. */
  lemma RequiredErrorEmpty(q: Question, field: string)
    ensures RequiredError(q, field) == [] <==> RequirementMet(q, field)
  {
  }

  /** A missing field is reported exactly when it is required, it is not "options", and it is not set. */
  lemma {:induction false} RequiredFieldReported(q: Question, required: seq<string>, n: nat, f: string)
    requires n <= |required|
    ensures FieldRequired(f) in RequiredPrefix(q, required, n) <==>
      f != "options" && !FieldIsSet(q, f) && exists k :: 0 <= k < n && required[k] == f
  {
    if n > 0 {
      RequiredFieldReported(q, required, n - 1, f);
      assert RequiredPrefix(q, required, n) == RequiredPrefix(q, required, n - 1) + RequiredError(q, required[n - 1]);
      if required[n - 1] == f && f != "options" && !FieldIsSet(q, f) {
        assert FieldRequired(f) in RequiredError(q, required[n - 1]);
      }
    }
  }

  /** An empty option list is reported exactly when "options" is required. */
  lemma {:induction false} OptionsRequiredReported(q: Question, required: seq<string>, n: nat)
    requires n <= |required|
    ensures OptionsRequired in RequiredPrefix(q, required, n) <==>
      |q.content.options| == 0 && exists k :: 0 <= k < n && required[k] == "options"
  {
    if n > 0 {
      OptionsRequiredReported(q, required, n - 1);
      assert RequiredPrefix(q, required, n) == RequiredPrefix(q, required, n - 1) + RequiredError(q, required[n - 1]);
      if required[n - 1] == "options" && |q.content.options| == 0 {
        assert OptionsRequired in RequiredError(q, required[n - 1]);
      }
    }
  }

  /** No line error among the first `n` lines exactly when none of them is too long. */
  lemma {:induction false} LinePrefixEmpty(lines: seq<string>, maxChars: Option<nat>, n: nat)
    requires n <= |lines|
    ensures LinePrefix(lines, maxChars, n) == [] <==> forall k :: 0 <= k < n ==> !LineTooLong(lines[k], maxChars)
  {
    if n > 0 {
      LinePrefixEmpty(lines, maxChars, n - 1);
      assert LinePrefix(lines, maxChars, n)
        == LinePrefix(lines, maxChars, n - 1) + (if LineTooLong(lines[n - 1], maxChars) then [TableQuestionTooLong(n)] else []);
    }
  }

  /** Line number `k` is reported among the first `n` lines exactly when it is one of them and too long. */
  lemma {:induction false} LinePrefixHas(lines: seq<string>, maxChars: Option<nat>, n: nat, k: nat)
    requires n <= |lines|
    requires 1 <= k
    ensures TableQuestionTooLong(k) in LinePrefix(lines, maxChars, n) <==> k <= n && LineTooLong(lines[k - 1], maxChars)
  {
    if n > 0 {
      LinePrefixHas(lines, maxChars, n - 1, k);
      assert LinePrefix(lines, maxChars, n)
        == LinePrefix(lines, maxChars, n - 1) + (if LineTooLong(lines[n - 1], maxChars) then [TableQuestionTooLong(n)] else []);
    }
  }

  /** Line `k` of a table value is reported exactly when its text between the first and second ':' is over the limit. */
  lemma TableLineChecks(value: string, t: TableRule, k: nat)
    requires 1 <= k
    ensures TableQuestionTooLong(k) in TableErrors(value, t) <==>
      k <= |Split(value, '\n')| && LineTooLong(Split(value, '\n')[k - 1], t.maxCharsPerQuestion)
  {
    var lines := Split(value, '\n');
    LinePrefixHas(lines, t.maxCharsPerQuestion, |lines|, k);
  }

  /** The table checks pass exactly when the table is acceptable. */
  lemma TableErrorsEmpty(value: string, t: TableRule)
    ensures TableErrors(value, t) == [] <==> TableAcceptable(value, t)
  {
    var lines := Split(value, '\n');
    LinePrefixEmpty(lines, t.maxCharsPerQuestion, |lines|);
  }

  /** The constraint checks pass exactly when the constraints are met. */
  lemma ConstraintErrorsEmpty(q: Question, c: Constraints)
    ensures ConstraintErrors(q, c) == [] <==> ConstraintsMet(q, c)
  {
    var v := q.content.tableQuestionValue;
    if c.tableQuestionValue.Some? && v != "" {
      TableErrorsEmpty(v, c.tableQuestionValue.value);
    }
  }

  /** The rule's checks pass exactly when the rule is met. */
  lemma TypeErrorsEmpty(q: Question, schema: Schema)
    ensures TypeErrors(q, schema) == [] <==>
      (q.info.questionType != "" && q.info.questionType in schema.rules ==> RuleMet(q, schema.rules[q.info.questionType]))
  {
    var qt := q.info.questionType;
    if qt != "" && qt in schema.rules {
      var rule := schema.rules[qt];
      RequiredPrefixEmpty(q, rule.required, |rule.required|);
      if rule.constraints.Some? {
        ConstraintErrorsEmpty(q, rule.constraints.value);
      }
    }
  }

  /** `validateQuestion` accepts a question exactly when every check holds. */
  lemma QuestionValidIff(q: Question, schema: Schema)
    ensures QuestionErrors(q, schema) == [] <==> QuestionAcceptable(q, schema)
  {
    TypeErrorsEmpty(q, schema);
  }

  /** A required field is reported missing exactly when the question's type requires it and it is not set. */
  lemma RequiredFieldChecks(q: Question, schema: Schema, f: string)
    requires q.info.questionType != "" && q.info.questionType in schema.rules
    ensures FieldRequired(f) in QuestionErrors(q, schema) <==>
      f != "options" && !FieldIsSet(q, f) && f in schema.rules[q.info.questionType].required
  {
    var rule := schema.rules[q.info.questionType];
    RequiredFieldReported(q, rule.required, |rule.required|, f);
    FieldRequiredFromType(q, schema, f);
    var cs := if rule.constraints.Some? then ConstraintErrors(q, rule.constraints.value) else [];
    assert TypeErrors(q, schema) == RequiredErrors(q, rule.required) + cs;
    assert FieldRequired(f) !in cs;
    InTwo(FieldRequired(f), RequiredErrors(q, rule.required), cs);
  }

  /** Only a type's rule reports a missing field. */
  lemma FieldRequiredFromType(q: Question, schema: Schema, f: string)
    ensures FieldRequired(f) in QuestionErrors(q, schema) <==> FieldRequired(f) in TypeErrors(q, schema)
  {
    var h, c, t, e := HeadErrors(q, schema), ChildErrors(q, schema), TypeErrors(q, schema), EnumErrors(q, schema);
    assert QuestionErrors(q, schema) == h + c + t + e;
    InFour(FieldRequired(f), h, c, t, e);
  }

  /** Membership in two concatenated lists. */
  lemma InTwo<T>(x: T, a: seq<T>, b: seq<T>)
    ensures x in a + b <==> x in a || x in b
  {
  }

  /** An empty option list draws no option-count error from a type's constraints. */
  lemma NoOptionsNoConstraintCountErrors(q: Question, c: Constraints, bound: nat)
    requires q.content.options == []
    ensures TooManyOptions(bound) !in ConstraintErrors(q, c)
    ensures TooFewOptions(bound) !in ConstraintErrors(q, c)
  {
    var v := q.content.tableQuestionValue;
    var table := if c.tableQuestionValue.Some? && v != "" then TableErrors(v, c.tableQuestionValue.value) else [];
    InThree(TooManyOptions(bound), FixedTypeErrors(q, c), OptionCountErrors(q, c), table);
    InThree(TooFewOptions(bound), FixedTypeErrors(q, c), OptionCountErrors(q, c), table);
  }

  /** An empty option list draws no option-count error from a type's rule. */
  lemma NoOptionsNoTypeCountErrors(q: Question, schema: Schema, bound: nat)
    requires q.content.options == []
    ensures TooManyOptions(bound) !in TypeErrors(q, schema)
    ensures TooFewOptions(bound) !in TypeErrors(q, schema)
  {
    var qt := q.info.questionType;
    if qt != "" && qt in schema.rules {
      var rule := schema.rules[qt];
      if rule.constraints.Some? {
        NoOptionsNoConstraintCountErrors(q, rule.constraints.value, bound);
        InTwo(TooManyOptions(bound), RequiredErrors(q, rule.required), ConstraintErrors(q, rule.constraints.value));
        InTwo(TooFewOptions(bound), RequiredErrors(q, rule.required), ConstraintErrors(q, rule.constraints.value));
      } else {
        InTwo(TooManyOptions(bound), RequiredErrors(q, rule.required), []);
        InTwo(TooFewOptions(bound), RequiredErrors(q, rule.required), []);
      }
    }
  }

  /** An empty option list is never checked against the option-count bounds. */
  lemma NoOptionsNoCountErrors(q: Question, schema: Schema, bound: nat)
    requires q.content.options == []
    ensures TooManyOptions(bound) !in QuestionErrors(q, schema)
    ensures TooFewOptions(bound) !in QuestionErrors(q, schema)
  {
    NoOptionsNoTypeCountErrors(q, schema, bound);
    var h, c, t, e := HeadErrors(q, schema), ChildErrors(q, schema), TypeErrors(q, schema), EnumErrors(q, schema);
    assert TooManyOptions(bound) !in h && TooFewOptions(bound) !in h;
    assert TooManyOptions(bound) !in c && TooFewOptions(bound) !in c;
    assert TooManyOptions(bound) !in e && TooFewOptions(bound) !in e;
    InFour(TooManyOptions(bound), h, c, t, e);
    InFour(TooFewOptions(bound), h, c, t, e);
  }

  /** A type without a rule is checked only by the type-independent checks. */
  lemma UnruledTypeChecks(q: Question, schema: Schema)
    requires q.info.questionType !in schema.rules
    ensures QuestionErrors(q, schema) == HeadErrors(q, schema) + ChildErrors(q, schema) + EnumErrors(q, schema)
  {
  }
}
