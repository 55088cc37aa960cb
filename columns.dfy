/**
 * Header normalisation and the column mapper of the import route
 * (server/routes/import.js): spreadsheet or CSV header text becomes the
 * canonical field name of a survey or question record.
 */
module Columns {
  import opened Wrappers
  import opened Text

  predicate IsLowerAlnum(c: char) {
    'a' <= c <= 'z' || '0' <= c <= '9'
  }

  predicate AllLowerAlnum(s: string) {
    forall i :: 0 <= i < |s| ==> IsLowerAlnum(s[i])
  }

  /** `.replace(/[\s_]+/g, '')` */
  function DropSpaceAndUnderscore(s: string): string {
    if s == [] then []
    else (if IsSpace(s[0]) || s[0] == '_' then [] else [s[0]]) + DropSpaceAndUnderscore(s[1..])
  }

  /** `.replace(/[^a-z0-9]/g, '')` */
  function KeepLowerAlnum(s: string): (r: string)
    ensures AllLowerAlnum(r)
  {
    if s == [] then []
    else (if IsLowerAlnum(s[0]) then [s[0]] else []) + KeepLowerAlnum(s[1..])
  }

  /**
   * `normalizeHeaderKey`: nothing for a missing header, otherwise the header
   * trimmed, lower-cased and stripped of white space, underscores and every
   * other character outside `a-z0-9`.
   */
  function NormalizeHeaderKey(value: Option<string>): (r: string)
    ensures value.None? ==> r == []
    ensures AllLowerAlnum(r)
  {
    match value
    case None => []
    case Some(s) => KeepLowerAlnum(DropSpaceAndUnderscore(Lower(Trim(s))))
  }

  lemma {:induction false} KeepConcat(a: string, b: string)
    ensures KeepLowerAlnum(a + b) == KeepLowerAlnum(a) + KeepLowerAlnum(b)
  {
    if a != [] {
      var head := if IsLowerAlnum(a[0]) then [a[0]] else [];
      assert (a + b)[0] == a[0];
      assert (a + b)[1..] == a[1..] + b;
      KeepConcat(a[1..], b);
      assert KeepLowerAlnum(a + b) == head + (KeepLowerAlnum(a[1..]) + KeepLowerAlnum(b));
      assert KeepLowerAlnum(a) == head + KeepLowerAlnum(a[1..]);
    } else {
      assert a + b == b;
    }
  }

  lemma {:induction false} KeepAllLowerAlnum(s: string)
    requires AllLowerAlnum(s)
    ensures KeepLowerAlnum(s) == s
  {
    if s != [] {
      KeepAllLowerAlnum(s[1..]);
    }
  }

  lemma {:induction false} KeepAfterDrop(s: string)
    ensures KeepLowerAlnum(DropSpaceAndUnderscore(s)) == KeepLowerAlnum(s)
  {
    if s != [] {
      var head := if IsSpace(s[0]) || s[0] == '_' then [] else [s[0]];
      KeepConcat(head, DropSpaceAndUnderscore(s[1..]));
      KeepAfterDrop(s[1..]);
      assert s == [s[0]] + s[1..];
      KeepConcat([s[0]], s[1..]);
    }
  }

  lemma {:induction false} KeepLowerOfSpace(s: string)
    requires AllSpace(s)
    ensures KeepLowerAlnum(Lower(s)) == []
  {
    if s != [] {
      assert Lower(s) == [LowerChar(s[0])] + Lower(s[1..]);
      KeepConcat([LowerChar(s[0])], Lower(s[1..]));
      KeepLowerOfSpace(s[1..]);
    }
  }

  lemma LowerConcat(a: string, b: string)
    ensures Lower(a + b) == Lower(a) + Lower(b)
  {
  }

  /**
   * Trimming and dropping white space and underscores are subsumed by the
   * final character filter: the key is the lower-cased header with every
   * character outside `a-z0-9` removed.
   */
  lemma NormalizeHeaderKeyIsFilter(s: string)
    ensures NormalizeHeaderKey(Some(s)) == KeepLowerAlnum(Lower(s))
  {
    TrimSlice(s);
    var t := Trim(s);
    var a, b :| 0 <= a <= b <= |s| && t == s[a..b] && AllSpace(s[..a]) && AllSpace(s[b..]);
    KeepAfterDrop(Lower(t));
    KeepLowerOfSlice(s, a, b);
  }

  /** Cutting white space off both ends does not change the filtered key. */
  lemma KeepLowerOfSlice(s: string, a: nat, b: nat)
    requires a <= b <= |s| && AllSpace(s[..a]) && AllSpace(s[b..])
    ensures KeepLowerAlnum(Lower(s)) == KeepLowerAlnum(Lower(s[a..b]))
  {
    assert s == s[..a] + s[a..b] + s[b..];
    KeepLowerAround(s[..a], s[a..b], s[b..]);
  }

  /** White space around a text disappears from its key. */
  lemma KeepLowerAround(x: string, t: string, y: string)
    requires AllSpace(x) && AllSpace(y)
    ensures KeepLowerAlnum(Lower(x + t + y)) == KeepLowerAlnum(Lower(t))
  {
    LowerConcat(x + t, y);
    LowerConcat(x, t);
    KeepConcat(Lower(x) + Lower(t), Lower(y));
    KeepConcat(Lower(x), Lower(t));
    KeepLowerOfSpace(x);
    KeepLowerOfSpace(y);
  }

  /** A header made only of lower-case letters and digits is its own key. */
  lemma NormalizeKeyOfKey(s: string)
    requires AllLowerAlnum(s)
    ensures NormalizeHeaderKey(Some(s)) == s
  {
    NormalizeHeaderKeyIsFilter(s);
    assert Lower(s) == s;
    KeepAllLowerAlnum(s);
  }

  /** Normalising a key again changes nothing. */
  lemma NormalizeHeaderKeyIdempotent(v: Option<string>)
    ensures NormalizeHeaderKey(Some(NormalizeHeaderKey(v))) == NormalizeHeaderKey(v)
  {
    NormalizeKeyOfKey(NormalizeHeaderKey(v));
  }

  /** `mapSurveyColumnToField`'s table, from normalised key to field name. */
  const SurveyColumns: map<string, string> := map[
    "surveyid" := "surveyId",
    "surveyname" := "surveyName",
    "surveydescription" := "surveyDescription",
    "availablemediums" := "availableMediums",
    "hierarchicalaccesslevel" := "hierarchicalAccessLevel",
    "public" := "public",
    "inschool" := "inSchool",
    "acceptmultipleentries" := "acceptMultipleEntries",
    "launchdate" := "launchDate",
    "closedate" := "closeDate",
    "mode" := "mode",
    "visibleonreportbot" := "visibleOnReportBot",
    "isactive" := "isActive",
    "downloadresponse" := "downloadResponse",
    "geofencing" := "geoFencing",
    "geotagging" := "geoTagging",
    "testsurvey" := "testSurvey"
  ]

  /** `mapQuestionColumnToField`'s table, from normalised key to field name. */
  const QuestionColumns: map<string, string> := map[
    "surveyid" := "surveyId",
    "medium" := "medium",
    "mediuminenglish" := "mediumInEnglish",
    "questionid" := "questionId",
    "questiontype" := "questionType",
    "isdynamic" := "isDynamic",
    "questiondescriptionoptional" := "questionDescriptionOptional",
    "maxvalue" := "maxValue",
    "minvalue" := "minValue",
    "ismandatory" := "isMandatory",
    "tableheadervalue" := "tableHeaderValue",
    "tablequestionvalue" := "tableQuestionValue",
    "sourcequestion" := "sourceQuestion",
    "textinputtype" := "textInputType",
    "textlimitcharacters" := "textLimitCharacters",
    "mode" := "mode",
    "questionmedialink" := "questionMediaLink",
    "questionmediatype" := "questionMediaType",
    "questiondescription" := "questionDescription"
  ]

  /** `mapSurveyColumnToField`: the table's field name for the header's key, else the header as written. */
  function MapSurveyColumnToField(columnName: string): string {
    var key := NormalizeHeaderKey(Some(columnName));
    if key in SurveyColumns then SurveyColumns[key] else columnName
  }

  /** A survey header the table does not know keeps its original spelling. */
  lemma SurveyColumnPassThrough(columnName: string)
    requires NormalizeHeaderKey(Some(columnName)) !in SurveyColumns
    ensures MapSurveyColumnToField(columnName) == columnName
  {
  }

  /** A field name normalises to its table key, so mapping it again changes nothing. */
  lemma {:induction false} FieldNameKey(k: string, name: string)
    requires AllLowerAlnum(k) && Lower(name) == k
    ensures NormalizeHeaderKey(Some(name)) == k
  {
    NormalizeHeaderKeyIsFilter(name);
    KeepAllLowerAlnum(k);
  }

  // One lemma per survey table entry: its key is its field name lower-cased.

  lemma SurveySurveyIdEntry()
    ensures SurveyColumns["surveyid"] == "surveyId"
    ensures AllLowerAlnum("surveyid") && Lower("surveyId") == "surveyid"
  {
  }

  lemma SurveySurveyNameEntry()
    ensures SurveyColumns["surveyname"] == "surveyName"
    ensures AllLowerAlnum("surveyname") && Lower("surveyName") == "surveyname"
  {
  }

  lemma SurveySurveyDescriptionEntry()
    ensures SurveyColumns["surveydescription"] == "surveyDescription"
    ensures AllLowerAlnum("surveydescription") && Lower("surveyDescription") == "surveydescription"
  {
  }

  lemma SurveyAvailableMediumsEntry()
    ensures SurveyColumns["availablemediums"] == "availableMediums"
    ensures AllLowerAlnum("availablemediums") && Lower("availableMediums") == "availablemediums"
  {
  }

  lemma SurveyHierarchicalAccessLevelEntry()
    ensures SurveyColumns["hierarchicalaccesslevel"] == "hierarchicalAccessLevel"
    ensures AllLowerAlnum("hierarchicalaccesslevel") && Lower("hierarchicalAccessLevel") == "hierarchicalaccesslevel"
  {
  }

  lemma SurveyPublicEntry()
    ensures SurveyColumns["public"] == "public"
    ensures AllLowerAlnum("public") && Lower("public") == "public"
  {
  }

  lemma SurveyInSchoolEntry()
    ensures SurveyColumns["inschool"] == "inSchool"
    ensures AllLowerAlnum("inschool") && Lower("inSchool") == "inschool"
  {
  }

  lemma SurveyAcceptMultipleEntriesEntry()
    ensures SurveyColumns["acceptmultipleentries"] == "acceptMultipleEntries"
    ensures AllLowerAlnum("acceptmultipleentries") && Lower("acceptMultipleEntries") == "acceptmultipleentries"
  {
  }

  lemma SurveyLaunchDateEntry()
    ensures SurveyColumns["launchdate"] == "launchDate"
    ensures AllLowerAlnum("launchdate") && Lower("launchDate") == "launchdate"
  {
  }

  lemma SurveyCloseDateEntry()
    ensures SurveyColumns["closedate"] == "closeDate"
    ensures AllLowerAlnum("closedate") && Lower("closeDate") == "closedate"
  {
  }

  lemma SurveyModeEntry()
    ensures SurveyColumns["mode"] == "mode"
    ensures AllLowerAlnum("mode") && Lower("mode") == "mode"
  {
  }

  lemma SurveyVisibleOnReportBotEntry()
    ensures SurveyColumns["visibleonreportbot"] == "visibleOnReportBot"
    ensures AllLowerAlnum("visibleonreportbot") && Lower("visibleOnReportBot") == "visibleonreportbot"
  {
  }

  lemma SurveyIsActiveEntry()
    ensures SurveyColumns["isactive"] == "isActive"
    ensures AllLowerAlnum("isactive") && Lower("isActive") == "isactive"
  {
  }

  lemma SurveyDownloadResponseEntry()
    ensures SurveyColumns["downloadresponse"] == "downloadResponse"
    ensures AllLowerAlnum("downloadresponse") && Lower("downloadResponse") == "downloadresponse"
  {
  }

  lemma SurveyGeoFencingEntry()
    ensures SurveyColumns["geofencing"] == "geoFencing"
    ensures AllLowerAlnum("geofencing") && Lower("geoFencing") == "geofencing"
  {
  }

  lemma SurveyGeoTaggingEntry()
    ensures SurveyColumns["geotagging"] == "geoTagging"
    ensures AllLowerAlnum("geotagging") && Lower("geoTagging") == "geotagging"
  {
  }

  lemma SurveyTestSurveyEntry()
    ensures SurveyColumns["testsurvey"] == "testSurvey"
    ensures AllLowerAlnum("testsurvey") && Lower("testSurvey") == "testsurvey"
  {
  }

  /** Every survey table key is the lower-cased spelling of its field name, and holds only letters and digits. */
  lemma SurveyColumnsKeyed(k: string)
    requires k in SurveyColumns
    ensures AllLowerAlnum(k) && Lower(SurveyColumns[k]) == k
  {
    if k == "surveyid" {
      SurveySurveyIdEntry();
    } else if k == "surveyname" {
      SurveySurveyNameEntry();
    } else if k == "surveydescription" {
      SurveySurveyDescriptionEntry();
    } else if k == "availablemediums" {
      SurveyAvailableMediumsEntry();
    } else if k == "hierarchicalaccesslevel" {
      SurveyHierarchicalAccessLevelEntry();
    } else if k == "public" {
      SurveyPublicEntry();
    } else if k == "inschool" {
      SurveyInSchoolEntry();
    } else if k == "acceptmultipleentries" {
      SurveyAcceptMultipleEntriesEntry();
    } else if k == "launchdate" {
      SurveyLaunchDateEntry();
    } else if k == "closedate" {
      SurveyCloseDateEntry();
    } else if k == "mode" {
      SurveyModeEntry();
    } else if k == "visibleonreportbot" {
      SurveyVisibleOnReportBotEntry();
    } else if k == "isactive" {
      SurveyIsActiveEntry();
    } else if k == "downloadresponse" {
      SurveyDownloadResponseEntry();
    } else if k == "geofencing" {
      SurveyGeoFencingEntry();
    } else if k == "geotagging" {
      SurveyGeoTaggingEntry();
    } else {
      assert k == "testsurvey";
      SurveyTestSurveyEntry();
    }
  }

  /** A survey field name of the table maps to itself, so mapping a survey header twice is mapping it once. */
  lemma SurveyFieldFixedPoint(k: string)
    requires k in SurveyColumns
    ensures MapSurveyColumnToField(SurveyColumns[k]) == SurveyColumns[k]
  {
    SurveyColumnsKeyed(k);
    FieldNameKey(k, SurveyColumns[k]);
  }

  datatype OptionSuffix = Plain | InEnglish | Children

  /** A recognised option header: its index digits, as written, and its suffix. */
  datatype OptionColumn = OptionColumn(index: string, suffix: OptionSuffix)

  /** The suffix as it appears in a normalised key. */
  function SuffixPattern(s: OptionSuffix): string {
    match s
    case Plain => ""
    case InEnglish => "inenglish"
    case Children => "children"
  }

  /** The suffix as it appears in the field name. */
  function SuffixName(s: OptionSuffix): string {
    match s
    case Plain => ""
    case InEnglish => "InEnglish"
    case Children => "Children"
  }

  /** `option${index}`, `option${index}InEnglish` or `option${index}Children`. */
  function OptionFieldName(o: OptionColumn): string {
    "option" + o.index + SuffixName(o.suffix)
  }

  /** The number of leading decimal digits. */
  function DigitPrefixLength(s: string): (n: nat)
    ensures n <= |s|
    ensures forall i :: 0 <= i < n ==> IsDigit(s[i])
    ensures n < |s| ==> !IsDigit(s[n])
  {
    if s != [] && IsDigit(s[0]) then 1 + DigitPrefixLength(s[1..]) else 0
  }

  /** `normalized.match(/^option(\d+)(inenglish|children)?$/)`. */
  function MatchOption(key: string): (r: Option<OptionColumn>)
    ensures r.Some? ==> IsDigits(r.value.index) && key == "option" + r.value.index + SuffixPattern(r.value.suffix)
  {
    if !StartsWith(key, "option") then None
    else
      var rest := key[6..];
      var n := DigitPrefixLength(rest);
      if n == 0 then None
      else
        var tail := rest[n..];
        assert key == "option" + rest[..n] + tail;
        if tail == "" then Some(OptionColumn(rest[..n], Plain))
        else if tail == "inenglish" then Some(OptionColumn(rest[..n], InEnglish))
        else if tail == "children" then Some(OptionColumn(rest[..n], Children))
        else None
  }

  /** The pattern recognises every key of the shape `option<digits><suffix>`, and only in one way. */
  lemma MatchOptionComplete(key: string, index: string, suffix: OptionSuffix)
    requires IsDigits(index) && key == "option" + index + SuffixPattern(suffix)
    ensures MatchOption(key) == Some(OptionColumn(index, suffix))
  {
    assert StartsWith(key, "option");
    var rest := key[6..];
    assert rest == index + SuffixPattern(suffix);
    var n := DigitPrefixLength(rest);
    assert n == |index| by {
      assert forall i :: 0 <= i < |index| ==> rest[i] == index[i];
      assert |index| < |rest| ==> rest[|index|] == SuffixPattern(suffix)[0];
    }
    assert rest[..n] == index;
    assert rest[n..] == SuffixPattern(suffix);
  }

  /**
   * `mapQuestionColumnToField` after normalisation: the option pattern first, then
   * the `questiondescription` prefix rule, then the table, else the header as written.
   */
  function QuestionFieldForKey(key: string, columnName: string): string {
    match MatchOption(key)
    case Some(o) => OptionFieldName(o)
    case None =>
      if StartsWith(key, "questiondescription") && key != "questiondescriptionoptional" then "questionDescription"
      else if key in QuestionColumns then QuestionColumns[key]
      else columnName
  }

  function MapQuestionColumnToField(columnName: string): string {
    QuestionFieldForKey(NormalizeHeaderKey(Some(columnName)), columnName)
  }

  /** `option<N>`, `option<N>InEnglish` and `option<N>Children`, in any spelling, map to the indexed option field. */
  lemma QuestionOptionColumn(columnName: string, index: string, suffix: OptionSuffix)
    requires IsDigits(index)
    requires NormalizeHeaderKey(Some(columnName)) == "option" + index + SuffixPattern(suffix)
    ensures MapQuestionColumnToField(columnName) == "option" + index + SuffixName(suffix)
  {
    MatchOptionComplete(NormalizeHeaderKey(Some(columnName)), index, suffix);
  }

  /**
   * A key beginning with `questiondescription`, other than exactly
   * `questiondescriptionoptional`, maps to `questionDescription`:
   * "Question Description in English" is a description column.
   */
  lemma QuestionDescriptionPrefix(columnName: string)
    requires var key := NormalizeHeaderKey(Some(columnName));
      StartsWith(key, "questiondescription") && key != "questiondescriptionoptional"
    ensures MapQuestionColumnToField(columnName) == "questionDescription"
  {
    var key := NormalizeHeaderKey(Some(columnName));
    assert key[..6] != "option" by { assert key[0] == 'q'; }
  }

  /** A question header that no rule and no table entry recognises keeps its original spelling. */
  lemma QuestionColumnPassThrough(columnName: string)
    requires var key := NormalizeHeaderKey(Some(columnName));
      && MatchOption(key).None?
      && !(StartsWith(key, "questiondescription") && key != "questiondescriptionoptional")
      && key !in QuestionColumns
    ensures MapQuestionColumnToField(columnName) == columnName
  {
  }

  lemma LowerSuffixName(s: OptionSuffix)
    ensures Lower(SuffixName(s)) == SuffixPattern(s)
  {
    match s
    case Plain =>
    case InEnglish => assert Lower("InEnglish") == "inenglish";
    case Children => assert Lower("Children") == "children";
  }

  lemma LowerOptionFieldName(o: OptionColumn)
    requires IsDigits(o.index)
    ensures Lower(OptionFieldName(o)) == "option" + o.index + SuffixPattern(o.suffix)
  {
    LowerConcat("option" + o.index, SuffixName(o.suffix));
    LowerConcat("option", o.index);
    assert Lower(o.index) == o.index;
    LowerSuffixName(o.suffix);
  }

  lemma OptionKeyLowerAlnum(o: OptionColumn)
    requires IsDigits(o.index)
    ensures AllLowerAlnum("option" + o.index + SuffixPattern(o.suffix))
  {
  }

  /** An option field name normalises to the key it was recognised from. */
  lemma OptionFieldNameKey(o: OptionColumn)
    requires IsDigits(o.index)
    ensures NormalizeHeaderKey(Some(OptionFieldName(o))) == "option" + o.index + SuffixPattern(o.suffix)
  {
    LowerOptionFieldName(o);
    OptionKeyLowerAlnum(o);
    FieldNameKey("option" + o.index + SuffixPattern(o.suffix), OptionFieldName(o));
  }

  /** An option field name maps to itself, so mapping an option header twice is mapping it once. */
  lemma OptionFieldFixedPoint(o: OptionColumn)
    requires IsDigits(o.index)
    ensures MapQuestionColumnToField(OptionFieldName(o)) == OptionFieldName(o)
  {
    OptionFieldNameKey(o);
    MatchOptionComplete(NormalizeHeaderKey(Some(OptionFieldName(o))), o.index, o.suffix);
  }

  /**
   * No question table key has the option shape, and the only one the
   * `questiondescription` prefix rule catches maps to `questionDescription` anyway.
   */
  lemma QuestionColumnsOutsideRules(k: string)
    requires k in QuestionColumns
    ensures MatchOption(k).None?
    ensures StartsWith(k, "questiondescription") && k != "questiondescriptionoptional" ==> QuestionColumns[k] == "questionDescription"
  {
    QuestionColumnsKeyed(k);
  }

  // One lemma per question table entry: its key is its field name lower-cased,
  // it does not have the option shape, and the description prefix rule leaves it alone
  // unless it maps to `questionDescription` anyway.

  lemma QuestionSurveyIdEntry()
    ensures QuestionColumns["surveyid"] == "surveyId"
    ensures AllLowerAlnum("surveyid") && Lower("surveyId") == "surveyid"
    ensures !StartsWith("surveyid", "option")
    ensures !StartsWith("surveyid", "questiondescription") || "surveyid" == "questiondescriptionoptional"
  {
    assert "surveyid"[..6][0] != "option"[0];
  }

  lemma QuestionMediumEntry()
    ensures QuestionColumns["medium"] == "medium"
    ensures AllLowerAlnum("medium") && Lower("medium") == "medium"
    ensures !StartsWith("medium", "option")
    ensures !StartsWith("medium", "questiondescription") || "medium" == "questiondescriptionoptional"
  {
    assert "medium"[..6][0] != "option"[0];
  }

  lemma QuestionMediumInEnglishEntry()
    ensures QuestionColumns["mediuminenglish"] == "mediumInEnglish"
    ensures AllLowerAlnum("mediuminenglish") && Lower("mediumInEnglish") == "mediuminenglish"
    ensures !StartsWith("mediuminenglish", "option")
    ensures !StartsWith("mediuminenglish", "questiondescription") || "mediuminenglish" == "questiondescriptionoptional"
  {
    assert "mediuminenglish"[..6][0] != "option"[0];
  }

  lemma QuestionQuestionIdEntry()
    ensures QuestionColumns["questionid"] == "questionId"
    ensures AllLowerAlnum("questionid") && Lower("questionId") == "questionid"
    ensures !StartsWith("questionid", "option")
    ensures !StartsWith("questionid", "questiondescription") || "questionid" == "questiondescriptionoptional"
  {
    assert "questionid"[..6][0] != "option"[0];
  }

  lemma QuestionQuestionTypeEntry()
    ensures QuestionColumns["questiontype"] == "questionType"
    ensures AllLowerAlnum("questiontype") && Lower("questionType") == "questiontype"
    ensures !StartsWith("questiontype", "option")
    ensures !StartsWith("questiontype", "questiondescription") || "questiontype" == "questiondescriptionoptional"
  {
    assert "questiontype"[..6][0] != "option"[0];
  }

  lemma QuestionIsDynamicEntry()
    ensures QuestionColumns["isdynamic"] == "isDynamic"
    ensures AllLowerAlnum("isdynamic") && Lower("isDynamic") == "isdynamic"
    ensures !StartsWith("isdynamic", "option")
    ensures !StartsWith("isdynamic", "questiondescription") || "isdynamic" == "questiondescriptionoptional"
  {
    assert "isdynamic"[..6][0] != "option"[0];
  }

  lemma QuestionQuestionDescriptionOptionalEntry()
    ensures QuestionColumns["questiondescriptionoptional"] == "questionDescriptionOptional"
    ensures AllLowerAlnum("questiondescriptionoptional") && Lower("questionDescriptionOptional") == "questiondescriptionoptional"
    ensures !StartsWith("questiondescriptionoptional", "option")
    ensures !StartsWith("questiondescriptionoptional", "questiondescription") || "questiondescriptionoptional" == "questiondescriptionoptional"
  {
    assert "questiondescriptionoptional"[..6][0] != "option"[0];
  }

  lemma QuestionMaxValueEntry()
    ensures QuestionColumns["maxvalue"] == "maxValue"
    ensures AllLowerAlnum("maxvalue") && Lower("maxValue") == "maxvalue"
    ensures !StartsWith("maxvalue", "option")
    ensures !StartsWith("maxvalue", "questiondescription") || "maxvalue" == "questiondescriptionoptional"
  {
    assert "maxvalue"[..6][0] != "option"[0];
  }

  lemma QuestionMinValueEntry()
    ensures QuestionColumns["minvalue"] == "minValue"
    ensures AllLowerAlnum("minvalue") && Lower("minValue") == "minvalue"
    ensures !StartsWith("minvalue", "option")
    ensures !StartsWith("minvalue", "questiondescription") || "minvalue" == "questiondescriptionoptional"
  {
    assert "minvalue"[..6][0] != "option"[0];
  }

  lemma QuestionIsMandatoryEntry()
    ensures QuestionColumns["ismandatory"] == "isMandatory"
    ensures AllLowerAlnum("ismandatory") && Lower("isMandatory") == "ismandatory"
    ensures !StartsWith("ismandatory", "option")
    ensures !StartsWith("ismandatory", "questiondescription") || "ismandatory" == "questiondescriptionoptional"
  {
    assert "ismandatory"[..6][0] != "option"[0];
  }

  lemma QuestionTableHeaderValueEntry()
    ensures QuestionColumns["tableheadervalue"] == "tableHeaderValue"
    ensures AllLowerAlnum("tableheadervalue") && Lower("tableHeaderValue") == "tableheadervalue"
    ensures !StartsWith("tableheadervalue", "option")
    ensures !StartsWith("tableheadervalue", "questiondescription") || "tableheadervalue" == "questiondescriptionoptional"
  {
    assert "tableheadervalue"[..6][0] != "option"[0];
  }

  lemma QuestionTableQuestionValueEntry()
    ensures QuestionColumns["tablequestionvalue"] == "tableQuestionValue"
    ensures AllLowerAlnum("tablequestionvalue") && Lower("tableQuestionValue") == "tablequestionvalue"
    ensures !StartsWith("tablequestionvalue", "option")
    ensures !StartsWith("tablequestionvalue", "questiondescription") || "tablequestionvalue" == "questiondescriptionoptional"
  {
    assert "tablequestionvalue"[..6][0] != "option"[0];
  }

  lemma QuestionSourceQuestionEntry()
    ensures QuestionColumns["sourcequestion"] == "sourceQuestion"
    ensures AllLowerAlnum("sourcequestion") && Lower("sourceQuestion") == "sourcequestion"
    ensures !StartsWith("sourcequestion", "option")
    ensures !StartsWith("sourcequestion", "questiondescription") || "sourcequestion" == "questiondescriptionoptional"
  {
    assert "sourcequestion"[..6][0] != "option"[0];
  }

  lemma QuestionTextInputTypeEntry()
    ensures QuestionColumns["textinputtype"] == "textInputType"
    ensures AllLowerAlnum("textinputtype") && Lower("textInputType") == "textinputtype"
    ensures !StartsWith("textinputtype", "option")
    ensures !StartsWith("textinputtype", "questiondescription") || "textinputtype" == "questiondescriptionoptional"
  {
    assert "textinputtype"[..6][0] != "option"[0];
  }

  lemma QuestionTextLimitCharactersEntry()
    ensures QuestionColumns["textlimitcharacters"] == "textLimitCharacters"
    ensures AllLowerAlnum("textlimitcharacters") && Lower("textLimitCharacters") == "textlimitcharacters"
    ensures !StartsWith("textlimitcharacters", "option")
    ensures !StartsWith("textlimitcharacters", "questiondescription") || "textlimitcharacters" == "questiondescriptionoptional"
  {
    assert "textlimitcharacters"[..6][0] != "option"[0];
    assert "textlimitcharacters"[..19][0] != "questiondescription"[0];
  }

  lemma QuestionModeEntry()
    ensures QuestionColumns["mode"] == "mode"
    ensures AllLowerAlnum("mode") && Lower("mode") == "mode"
    ensures !StartsWith("mode", "option")
    ensures !StartsWith("mode", "questiondescription") || "mode" == "questiondescriptionoptional"
  {
  }

  lemma QuestionQuestionMediaLinkEntry()
    ensures QuestionColumns["questionmedialink"] == "questionMediaLink"
    ensures AllLowerAlnum("questionmedialink") && Lower("questionMediaLink") == "questionmedialink"
    ensures !StartsWith("questionmedialink", "option")
    ensures !StartsWith("questionmedialink", "questiondescription") || "questionmedialink" == "questiondescriptionoptional"
  {
    assert "questionmedialink"[..6][0] != "option"[0];
  }

  lemma QuestionQuestionMediaTypeEntry()
    ensures QuestionColumns["questionmediatype"] == "questionMediaType"
    ensures AllLowerAlnum("questionmediatype") && Lower("questionMediaType") == "questionmediatype"
    ensures !StartsWith("questionmediatype", "option")
    ensures !StartsWith("questionmediatype", "questiondescription") || "questionmediatype" == "questiondescriptionoptional"
  {
    assert "questionmediatype"[..6][0] != "option"[0];
  }

  lemma QuestionQuestionDescriptionEntry()
    ensures QuestionColumns["questiondescription"] == "questionDescription"
    ensures AllLowerAlnum("questiondescription") && Lower("questionDescription") == "questiondescription"
    ensures !StartsWith("questiondescription", "option")
    ensures "questionDescription" == "questionDescription"
  {
    assert "questiondescription"[..6][0] != "option"[0];
  }

  /**
   * Every question table key is the lower-cased spelling of its field name
   * and holds only letters and digits; none begins with `option`; and the
   * only one the description prefix rule catches maps to `questionDescription`.
   */
  lemma QuestionColumnsKeyed(k: string)
    requires k in QuestionColumns
    ensures AllLowerAlnum(k) && Lower(QuestionColumns[k]) == k
    ensures !StartsWith(k, "option")
    ensures StartsWith(k, "questiondescription") && k != "questiondescriptionoptional" ==> QuestionColumns[k] == "questionDescription"
  {
    if k == "surveyid" {
      QuestionSurveyIdEntry();
    } else if k == "medium" {
      QuestionMediumEntry();
    } else if k == "mediuminenglish" {
      QuestionMediumInEnglishEntry();
    } else if k == "questionid" {
      QuestionQuestionIdEntry();
    } else if k == "questiontype" {
      QuestionQuestionTypeEntry();
    } else if k == "isdynamic" {
      QuestionIsDynamicEntry();
    } else if k == "questiondescriptionoptional" {
      QuestionQuestionDescriptionOptionalEntry();
    } else if k == "maxvalue" {
      QuestionMaxValueEntry();
    } else if k == "minvalue" {
      QuestionMinValueEntry();
    } else if k == "ismandatory" {
      QuestionIsMandatoryEntry();
    } else if k == "tableheadervalue" {
      QuestionTableHeaderValueEntry();
    } else if k == "tablequestionvalue" {
      QuestionTableQuestionValueEntry();
    } else if k == "sourcequestion" {
      QuestionSourceQuestionEntry();
    } else if k == "textinputtype" {
      QuestionTextInputTypeEntry();
    } else if k == "textlimitcharacters" {
      QuestionTextLimitCharactersEntry();
    } else if k == "mode" {
      QuestionModeEntry();
    } else if k == "questionmedialink" {
      QuestionQuestionMediaLinkEntry();
    } else if k == "questionmediatype" {
      QuestionQuestionMediaTypeEntry();
    } else {
      assert k == "questiondescription";
      QuestionQuestionDescriptionEntry();
    }
  }

  /**
   * A question field name of the table maps to itself: neither the option
   * pattern nor the description prefix rule diverts it.
   */
  lemma QuestionFieldFixedPoint(k: string)
    requires k in QuestionColumns
    ensures MapQuestionColumnToField(QuestionColumns[k]) == QuestionColumns[k]
  {
    QuestionColumnsKeyed(k);
    FieldNameKey(k, QuestionColumns[k]);
    QuestionColumnsOutsideRules(k);
  }
}
