/**
 * Consolidating question rows into questions (the `questionsByKey` loops of
 * `parseXLSX` and `parseCSV` in server/routes/import.js): rows are grouped by
 * the string `surveyId_questionId_questionType`, the first row of a group
 * seeds the shared fields, and every row stores its language's bundle.
 */
module Consolidate {
  import opened Wrappers
  import opened Text
  import opened Dicts
  import opened Records
  import opened Questions

  /** Only rows with a survey id and a question id take part. */
  predicate HasIds(row: Record) {
    Field(row, "surveyId") != "" && Field(row, "questionId") != ""
  }

  /** A value inside a template string: an absent field renders as 'undefined'. */
  function Render(v: Option<string>): string {
    match v
    case None => "undefined"
    case Some(s) => s
  }

  /** The grouping key: plain concatenation, so different id pairs can meet on one key. */
  function GroupKey(row: Record): string {
    Field(row, "surveyId") + "_" + Field(row, "questionId") + "_" + Render(row.Get("questionType"))
  }

  /** The question the first row of a group creates, before any translation is stored. */
  function Seed(row: Record): (q: Question)
    ensures q.translations == Empty()
  {
    Question(
      QuestionInfo(
        surveyId := Field(row, "surveyId"),
        questionId := Field(row, "questionId"),
        questionType := Field(row, "questionType"),
        isDynamic := Field(row, "isDynamic"),
        isMandatory := Field(row, "isMandatory"),
        sourceQuestion := Field(row, "sourceQuestion"),
        textInputType := Or(Field(row, "textInputType"), "None"),
        textLimitCharacters := Field(row, "textLimitCharacters"),
        maxValue := Field(row, "maxValue"),
        minValue := Field(row, "minValue"),
        questionMediaLink := Field(row, "questionMediaLink"),
        questionMediaType := Or(Field(row, "questionMediaType"), "None"),
        mode := Or(Field(row, "mode"), "None")),
      medium := "",
      content := Translation("", "", Field(row, "tableHeaderValue"), Field(row, "tableQuestionValue"), []),
      translations := Empty())
  }

  /** The language a row is written in: `mediumInEnglish || medium || 'English'`. */
  function Language(row: Record): (lang: string)
    ensures lang != ""
  {
    Or(Field(row, "mediumInEnglish"), Or(Field(row, "medium"), "English"))
  }

  /** The bundle a row stores for its language. */
  function TranslationOf(row: Record): Translation {
    Translation(
      Field(row, "questionDescription"),
      Field(row, "questionDescriptionOptional"),
      Field(row, "tableHeaderValue"),
      Field(row, "tableQuestionValue"),
      ParsedOptions(row))
  }

  /** What the grouping loop takes from one row: its key (none without ids), its seed, its language and its bundle. */
  datatype RowView = RowView(key: Option<string>, seed: Question, lang: string, bundle: Translation)

  function ViewOf(row: Record): RowView {
    RowView(if HasIds(row) then Some(GroupKey(row)) else None, Seed(row), Language(row), TranslationOf(row))
  }

  function Views(rows: seq<Record>): (vs: seq<RowView>)
    ensures |vs| == |rows|
  {
    seq(|rows|, i requires 0 <= i < |rows| => ViewOf(rows[i]))
  }

  /** `questionsByKey`: one question per key, keys in first-seen order. */
  type Groups = Dict<Question>

  /** Stores the row's bundle as its language's translation in its group, creating the group from the row's seed when it is new. */
  function AddView(groups: Groups, v: RowView): Groups {
    match v.key
    case None => groups
    case Some(key) =>
      var q := if key in groups.vals then groups.vals[key] else v.seed;
      groups.Put(key, q.(translations := q.translations.Put(v.lang, v.bundle)))
  }

  /** The groups after the first `n` row views, processed in order. */
  function GroupPrefix(vs: seq<RowView>, n: nat): (groups: Groups)
    requires n <= |vs|
    ensures groups.Valid()
  {
    if n == 0 then Empty() else AddView(GroupPrefix(vs, n - 1), vs[n - 1])
  }

  /** The groups of a sequence of mapped question rows. */
  function GroupRows(rows: seq<Record>): (groups: Groups)
    ensures groups.Valid()
  {
    var vs := Views(rows);
    GroupPrefix(vs, |vs|)
  }

  /** Every seed starts without translations. */
  predicate FreshSeeds(vs: seq<RowView>) {
    forall i :: 0 <= i < |vs| ==> vs[i].seed.translations == Empty<Translation>()
  }

  /** What one pass of the grouping loop reads from a row, with `parseOptions` for the bundle's options. */
  method ReadRow(row: Record) returns (v: RowView)
    ensures v == ViewOf(row)
  {
    var key := if Field(row, "surveyId") != "" && Field(row, "questionId") != "" then Some(GroupKey(row)) else None;
    var options := ParseOptions(row);
    var bundle := Translation(
      Field(row, "questionDescription"),
      Field(row, "questionDescriptionOptional"),
      Field(row, "tableHeaderValue"),
      Field(row, "tableQuestionValue"),
      options);
    v := RowView(key, Seed(row), Language(row), bundle);
  }

  /** Reads every row once, as the grouping loop does before touching `questionsByKey`. */
  method ReadRows(rows: seq<Record>) returns (vs: seq<RowView>)
    ensures vs == Views(rows)
  {
    vs := [];
    for i := 0 to |rows|
      invariant vs == Views(rows[..i])
    {
      var v := ReadRow(rows[i]);
      ViewsSnoc(rows, i);
      vs := vs + [v];
    }
    assert rows[..|rows|] == rows;
  }

  lemma ViewsSnoc(rows: seq<Record>, i: nat)
    requires i < |rows|
    ensures Views(rows[..i + 1]) == Views(rows[..i]) + [ViewOf(rows[i])]
  {
    var a := Views(rows[..i + 1]);
    var b := Views(rows[..i]) + [ViewOf(rows[i])];
    forall j | 0 <= j <= i ensures a[j] == b[j] {
      assert rows[..i + 1][j] == rows[j];
      if j < i {
        assert rows[..i][j] == rows[j];
      }
    }
  }

  /** The body of the grouping loop over the rows read: create the group if new, then upsert the language's bundle. */
  method GroupRowViews(vs: seq<RowView>) returns (groups: Groups)
    ensures groups == GroupPrefix(vs, |vs|)
  {
    groups := Empty();
    for i := 0 to |vs|
      invariant groups == GroupPrefix(vs, i)
    {
      var v := vs[i];
      ghost var before := groups;
      if v.key.Some? {
        var key := v.key.value;
        if key !in groups.vals {
          groups := groups.Put(key, v.seed);
        }
        var q := groups.vals[key];
        groups := groups.Put(key, q.(translations := q.translations.Put(v.lang, v.bundle)));
        PutTwice(before, key, v.seed, q.(translations := q.translations.Put(v.lang, v.bundle)));
      }
      assert groups == AddView(before, v);
    }
  }

  /** The grouping loop of `parseXLSX` / `parseCSV`, building `questionsByKey` in place. */
  method GroupQuestionRows(rows: seq<Record>) returns (groups: Groups)
    ensures groups == GroupRows(rows)
  {
    var vs := ReadRows(rows);
    groups := GroupRowViews(vs);
  }

  /** A view only touches its own group. */
  lemma AddViewOther(groups: Groups, v: RowView, key: string)
    requires v.key != Some(key)
    ensures AddView(groups, v).Get(key) == groups.Get(key)
  {
  }

  /** A view stores its bundle under its language in its group, creating the group from its seed if needed. */
  lemma AddViewSame(groups: Groups, v: RowView, key: string)
    requires v.key == Some(key)
    ensures key in AddView(groups, v).vals
    ensures var q := if key in groups.vals then groups.vals[key] else v.seed;
      AddView(groups, v).vals[key] == q.(translations := q.translations.Put(v.lang, v.bundle))
  {
  }

  /** The first translation stored is the first language. */
  lemma FirstPut(lang: string, b: Translation)
    ensures Empty<Translation>().Put(lang, b).keys == [lang]
  {
  }

  /** Storing a translation never changes the first language. */
  lemma PutKeepsFirst(t: Dict<Translation>, lang: string, b: Translation)
    requires t.keys != []
    ensures t.Put(lang, b).keys != [] && t.Put(lang, b).keys[0] == t.keys[0]
  {
  }

  /** View `i` carries `key`. */
  predicate ViewHasKey(vs: seq<RowView>, i: nat, key: string)
    requires i < |vs|
  {
    vs[i].key == Some(key)
  }

  /** One of the first `n` views carries `key`. */
  predicate Carried(vs: seq<RowView>, n: nat, key: string)
    requires n <= |vs|
  {
    exists i :: 0 <= i < n && ViewHasKey(vs, i, key)
  }

  lemma CarriedStep(vs: seq<RowView>, n: nat, key: string)
    requires 0 < n <= |vs|
    ensures Carried(vs, n, key) <==> Carried(vs, n - 1, key) || ViewHasKey(vs, n - 1, key)
  {
    if Carried(vs, n, key) && !ViewHasKey(vs, n - 1, key) {
      var i :| 0 <= i < n && ViewHasKey(vs, i, key);
      assert i < n - 1;
    }
  }

  /** There is exactly one group per key carried by some view. */
  lemma {:induction false} GroupPrefixKeys(vs: seq<RowView>, n: nat)
    requires n <= |vs|
    ensures forall key :: key in GroupPrefix(vs, n).vals <==> Carried(vs, n, key)
  {
    if n > 0 {
      GroupPrefixKeys(vs, n - 1);
      forall key ensures key in GroupPrefix(vs, n).vals <==> Carried(vs, n, key) {
        CarriedStep(vs, n, key);
      }
    }
  }

  /** With fresh seeds, every group lists each of its languages once. */
  lemma {:induction false} GroupPrefixTranslationsValid(vs: seq<RowView>, n: nat)
    requires n <= |vs| && FreshSeeds(vs)
    ensures forall key :: key in GroupPrefix(vs, n).vals ==> GroupPrefix(vs, n).vals[key].translations.Valid()
  {
    if n > 0 {
      GroupPrefixTranslationsValid(vs, n - 1);
    }
  }

  /** The first view with a key seeds its group: apart from its translations the group's question is that view's seed. */
  lemma {:induction false} GroupPrefixSeed(vs: seq<RowView>, n: nat, i: nat)
    requires i < n <= |vs| && vs[i].key.Some? && !Carried(vs, i, vs[i].key.value)
    ensures vs[i].key.value in GroupPrefix(vs, n).vals
    ensures var q := GroupPrefix(vs, n).vals[vs[i].key.value];
      q == vs[i].seed.(translations := q.translations)
  {
    var key := vs[i].key.value;
    var before := GroupPrefix(vs, n - 1);
    var v := vs[n - 1];
    assert GroupPrefix(vs, n) == AddView(before, v);
    if n == i + 1 {
      GroupPrefixKeys(vs, i);
      AddViewSame(before, v, key);
    } else {
      GroupPrefixSeed(vs, n - 1, i);
      if v.key == Some(key) {
        AddViewSame(before, v, key);
      } else {
        AddViewOther(before, v, key);
      }
    }
  }

  /** The language of the first view with a key is its group's first translation. */
  lemma {:induction false} GroupPrefixFirstLanguage(vs: seq<RowView>, n: nat, i: nat)
    requires FreshSeeds(vs)
    requires i < n <= |vs| && vs[i].key.Some? && !Carried(vs, i, vs[i].key.value)
    ensures vs[i].key.value in GroupPrefix(vs, n).vals
    ensures var t := GroupPrefix(vs, n).vals[vs[i].key.value].translations;
      t.keys != [] && t.keys[0] == vs[i].lang
  {
    var key := vs[i].key.value;
    var before := GroupPrefix(vs, n - 1);
    var v := vs[n - 1];
    assert GroupPrefix(vs, n) == AddView(before, v);
    if n == i + 1 {
      GroupPrefixKeys(vs, i);
      AddViewSame(before, v, key);
      assert v.seed.translations == Empty();
      FirstPut(v.lang, v.bundle);
      assert GroupPrefix(vs, n).vals[key].translations == Empty<Translation>().Put(v.lang, v.bundle);
    } else {
      GroupPrefixFirstLanguage(vs, n - 1, i);
      var t := before.vals[key].translations;
      if v.key == Some(key) {
        AddViewSame(before, v, key);
        PutKeepsFirst(t, v.lang, v.bundle);
        assert GroupPrefix(vs, n).vals[key].translations == t.Put(v.lang, v.bundle);
      } else {
        AddViewOther(before, v, key);
        assert GroupPrefix(vs, n).vals[key].translations == t;
      }
    }
  }

  /** The last view of a group for a language supplies that language's bundle. */
  lemma {:induction false} GroupPrefixLastBundle(vs: seq<RowView>, n: nat, i: nat)
    requires i < n <= |vs| && vs[i].key.Some?
    requires forall j :: i < j < n ==> !(ViewHasKey(vs, j, vs[i].key.value) && vs[j].lang == vs[i].lang)
    ensures vs[i].key.value in GroupPrefix(vs, n).vals
    ensures GroupPrefix(vs, n).vals[vs[i].key.value].translations.Get(vs[i].lang) == Some(vs[i].bundle)
  {
    if i < n - 1 {
      GroupPrefixLastBundle(vs, n - 1, i);
    }
  }

  /** View `i` belongs to the group `key` and is written in `lang`. */
  predicate ViewInLanguage(vs: seq<RowView>, i: nat, key: string, lang: string)
    requires i < |vs|
  {
    vs[i].key == Some(key) && vs[i].lang == lang
  }

  /** One of the first `n` views belongs to the group `key` and is written in `lang`. */
  predicate Spoken(vs: seq<RowView>, n: nat, key: string, lang: string)
    requires n <= |vs|
  {
    exists i :: 0 <= i < n && ViewInLanguage(vs, i, key, lang)
  }

  lemma SpokenStep(vs: seq<RowView>, n: nat, key: string, lang: string)
    requires 0 < n <= |vs|
    ensures Spoken(vs, n, key, lang) <==> Spoken(vs, n - 1, key, lang) || ViewInLanguage(vs, n - 1, key, lang)
  {
    if Spoken(vs, n, key, lang) && !ViewInLanguage(vs, n - 1, key, lang) {
      var i :| 0 <= i < n && ViewInLanguage(vs, i, key, lang);
      assert i < n - 1;
    }
  }

  /** A view written in some language belongs to a carried group. */
  lemma SpokenCarried(vs: seq<RowView>, n: nat, key: string, lang: string)
    requires n <= |vs| && Spoken(vs, n, key, lang)
    ensures Carried(vs, n, key)
  {
    var i :| 0 <= i < n && ViewInLanguage(vs, i, key, lang);
    assert ViewHasKey(vs, i, key);
  }

  /** The languages of a group are exactly the languages of its views. */
  lemma {:induction false} GroupPrefixLanguages(vs: seq<RowView>, n: nat, key: string)
    requires n <= |vs| && FreshSeeds(vs)
    requires key in GroupPrefix(vs, n).vals
    ensures forall lang :: lang in GroupPrefix(vs, n).vals[key].translations.vals <==> Spoken(vs, n, key, lang)
  {
    var before := GroupPrefix(vs, n - 1);
    var v := vs[n - 1];
    var t := GroupPrefix(vs, n).vals[key].translations;
    assert GroupPrefix(vs, n) == AddView(before, v);
    GroupPrefixKeys(vs, n - 1);
    if key in before.vals {
      GroupPrefixLanguages(vs, n - 1, key);
      if v.key == Some(key) {
        AddViewSame(before, v, key);
        assert t == before.vals[key].translations.Put(v.lang, v.bundle);
      } else {
        AddViewOther(before, v, key);
        assert t == before.vals[key].translations;
      }
      forall lang ensures lang in t.vals <==> Spoken(vs, n, key, lang) {
        SpokenStep(vs, n, key, lang);
      }
    } else {
      AddViewSame(before, v, key);
      assert t == Empty<Translation>().Put(v.lang, v.bundle);
      forall lang ensures lang in t.vals <==> Spoken(vs, n, key, lang) {
        SpokenStep(vs, n, key, lang);
        if Spoken(vs, n - 1, key, lang) {
          SpokenCarried(vs, n - 1, key, lang);
        }
      }
    }
  }

  /** A row with ids that carries `key`. */
  predicate RowOf(rows: seq<Record>, i: nat, key: string)
    requires i < |rows|
  {
    HasIds(rows[i]) && GroupKey(rows[i]) == key
  }

  /** The view of a row carries a key exactly when the row has ids, and then it is the row's key. */
  lemma ViewsOfRows(rows: seq<Record>)
    ensures FreshSeeds(Views(rows))
    ensures forall i, key :: 0 <= i < |rows| ==> (ViewHasKey(Views(rows), i, key) <==> RowOf(rows, i, key))
    ensures forall i :: 0 <= i < |rows| ==> Views(rows)[i].lang == Language(rows[i])
  {
  }

  /** Rows without ids are dropped, and there is exactly one group per distinct key of the other rows. */
  lemma GroupRowsKeys(rows: seq<Record>)
    ensures forall key :: key in GroupRows(rows).vals <==> exists i :: 0 <= i < |rows| && RowOf(rows, i, key)
  {
    var vs := Views(rows);
    ViewsOfRows(rows);
    GroupPrefixKeys(vs, |vs|);
  }

  /** Every group lists each of its languages once. */
  lemma GroupRowsTranslationsValid(rows: seq<Record>)
    ensures forall key :: key in GroupRows(rows).vals ==> GroupRows(rows).vals[key].translations.Valid()
  {
    var vs := Views(rows);
    ViewsOfRows(rows);
    GroupPrefixTranslationsValid(vs, |vs|);
  }

  /**
   * The first row with a key seeds the group: apart from its translations the
   * group's question is that row's seed, with 'None' defaults for the input
   * type, media type and mode, and its first translation is that row's language.
   */
  lemma GroupSeededByFirstRow(rows: seq<Record>, i: nat)
    requires i < |rows| && HasIds(rows[i])
    requires forall j :: 0 <= j < i ==> !RowOf(rows, j, GroupKey(rows[i]))
    ensures GroupKey(rows[i]) in GroupRows(rows).vals
    ensures var q := GroupRows(rows).vals[GroupKey(rows[i])];
      q == Seed(rows[i]).(translations := q.translations)
      && q.translations.keys != [] && q.translations.keys[0] == Language(rows[i])
  {
    var vs := Views(rows);
    ViewsOfRows(rows);
    assert !Carried(vs, i, GroupKey(rows[i]));
    GroupPrefixSeed(vs, |vs|, i);
    GroupPrefixFirstLanguage(vs, |vs|, i);
  }

  /** The last row of a group for a language supplies that language's bundle. */
  lemma LastRowForLanguageWins(rows: seq<Record>, i: nat)
    requires i < |rows| && HasIds(rows[i])
    requires forall j :: i < j < |rows| ==> !(RowOf(rows, j, GroupKey(rows[i])) && Language(rows[j]) == Language(rows[i]))
    ensures GroupKey(rows[i]) in GroupRows(rows).vals
    ensures GroupRows(rows).vals[GroupKey(rows[i])].translations.Get(Language(rows[i])) == Some(TranslationOf(rows[i]))
  {
    var vs := Views(rows);
    ViewsOfRows(rows);
    GroupPrefixLastBundle(vs, |vs|, i);
  }

  /** The languages of a group are exactly the languages of its rows. */
  lemma GroupLanguages(rows: seq<Record>, key: string)
    requires key in GroupRows(rows).vals
    ensures forall lang :: (lang in GroupRows(rows).vals[key].translations.vals
      <==> exists i :: 0 <= i < |rows| && RowOf(rows, i, key) && Language(rows[i]) == lang)
  {
    var vs := Views(rows);
    ViewsOfRows(rows);
    GroupPrefixLanguages(vs, |vs|, key);
    forall lang ensures Spoken(vs, |vs|, key, lang) <==> exists i :: 0 <= i < |rows| && RowOf(rows, i, key) && Language(rows[i]) == lang {
      SpokenRows(rows, key, lang);
    }
  }

  lemma SpokenRows(rows: seq<Record>, key: string, lang: string)
    ensures Spoken(Views(rows), |rows|, key, lang) <==> exists i :: 0 <= i < |rows| && RowOf(rows, i, key) && Language(rows[i]) == lang
  {
    var vs := Views(rows);
    ViewsOfRows(rows);
    if i :| 0 <= i < |rows| && RowOf(rows, i, key) && Language(rows[i]) == lang {
      assert ViewHasKey(vs, i, key);
      assert ViewInLanguage(vs, i, key, lang);
    }
    if Spoken(vs, |rows|, key, lang) {
      var i :| 0 <= i < |rows| && ViewInLanguage(vs, i, key, lang);
      assert ViewHasKey(vs, i, key);
    }
  }

  /** `Object.values(questionsByKey).map(applyPrimaryTranslation)`. */
  function ProjectedQuestions(groups: Groups): (qs: seq<Question>)
    requires groups.Valid()
    ensures |qs| == |groups.keys|
    ensures forall i :: 0 <= i < |qs| ==> qs[i] == ApplyPrimaryTranslation(groups.vals[groups.keys[i]])
  {
    seq(|groups.keys|, i requires 0 <= i < |groups.keys| => ApplyPrimaryTranslation(groups.vals[groups.keys[i]]))
  }

  /** The questions a sequence of mapped question rows consolidates into. */
  function ConsolidatedQuestions(rows: seq<Record>): seq<Question> {
    ProjectedQuestions(GroupRows(rows))
  }

  /** The `.map(applyPrimaryTranslation)` pass over the groups. */
  method ProjectGroups(groups: Groups) returns (qs: seq<Question>)
    requires groups.Valid()
    ensures qs == ProjectedQuestions(groups)
  {
    qs := [];
    for i := 0 to |groups.keys|
      invariant qs == ProjectedQuestions(groups)[..i]
    {
      qs := qs + [ApplyPrimaryTranslation(groups.vals[groups.keys[i]])];
    }
  }

  /** A translation table whose first language is non-empty always has a bundle for its primary language. */
  lemma PrimaryBundleExists(t: Dict<Translation>)
    requires t.Valid() && t.keys != [] && t.keys[0] != ""
    ensures PrimaryLanguage(t) in t.vals
  {
  }

  /** The group holding consolidated question `k` was seeded by some row. */
  lemma ConsolidatedSeed(rows: seq<Record>, k: nat)
    requires k < |GroupRows(rows).keys|
    ensures var g := GroupRows(rows);
      var q := g.vals[g.keys[k]];
      && q.medium == "" && q.content.questionDescription == "" && q.content.questionDescriptionOptional == ""
      && q.content.options == []
      && q.translations.Valid() && q.translations.keys != [] && PrimaryLanguage(q.translations) in q.translations.vals
  {
    var g := GroupRows(rows);
    var vs := Views(rows);
    var key := g.keys[k];
    ViewsOfRows(rows);
    GroupPrefixKeys(vs, |vs|);
    var i := FirstWithKey(vs, key, |vs|);
    GroupPrefixSeed(vs, |vs|, i);
    GroupPrefixFirstLanguage(vs, |vs|, i);
    GroupRowsTranslationsValid(rows);
    PrimaryBundleExists(g.vals[key].translations);
  }

  /** The first of the first `n` views that carries `key`. */
  function FirstWithKey(vs: seq<RowView>, key: string, n: nat): (i: nat)
    requires n <= |vs| && Carried(vs, n, key)
    ensures i < n && ViewHasKey(vs, i, key) && !Carried(vs, i, key)
  {
    CarriedStep(vs, n, key);
    if Carried(vs, n - 1, key) then FirstWithKey(vs, key, n - 1)
    else
      assert !Carried(vs, n - 1, key);
      n - 1
  }

  /**
   * A consolidated question keeps its group's shared fields and translations;
   * its medium is the primary language, and its description, optional
   * description and options are its primary bundle's (the seed leaves them
   * empty), while its table fields are the bundle's when non-empty.
   */
  lemma ConsolidatedQuestionIsPrimaryBundle(rows: seq<Record>, k: nat)
    requires k < |ConsolidatedQuestions(rows)|
    ensures var g := GroupRows(rows);
      var q := g.vals[g.keys[k]];
      var lang := PrimaryLanguage(q.translations);
      lang in q.translations.vals
      && var b := q.translations.vals[lang];
      var r := ConsolidatedQuestions(rows)[k];
      && r.info == q.info
      && r.translations == q.translations
      && r.medium == lang
      && r.content.questionDescription == b.questionDescription
      && r.content.questionDescriptionOptional == b.questionDescriptionOptional
      && r.content.options == b.options
      && (b.tableHeaderValue != "" ==> r.content.tableHeaderValue == b.tableHeaderValue)
      && (b.tableQuestionValue != "" ==> r.content.tableQuestionValue == b.tableQuestionValue)
  {
    var g := GroupRows(rows);
    var q := g.vals[g.keys[k]];
    ConsolidatedSeed(rows, k);
    ApplyPrimaryTranslationProjects(q, q.translations.vals[PrimaryLanguage(q.translations)]);
  }

  /** Rows that all carry one key make exactly one group. */
  lemma OneGroup(rows: seq<Record>, key: string)
    requires rows != [] && forall i :: 0 <= i < |rows| ==> RowOf(rows, i, key)
    ensures GroupRows(rows).vals.Keys == {key}
  {
    GroupRowsKeys(rows);
    assert RowOf(rows, 0, key);
    forall k | k in GroupRows(rows).vals ensures k == key {
      var i :| 0 <= i < |rows| && RowOf(rows, i, k);
      assert RowOf(rows, i, key);
    }
  }

  /**
   * Different id pairs can share a key: a row for survey `A_B`, question `C`
   * and a row for survey `A`, question `B_C` with the same question type end
   * up in one group.
   */
  lemma KeyCollision(r1: Record, r2: Record)
    requires Field(r1, "surveyId") == "A_B" && Field(r1, "questionId") == "C"
    requires Field(r2, "surveyId") == "A" && Field(r2, "questionId") == "B_C"
    requires r1.Get("questionType") == r2.Get("questionType")
    ensures GroupKey(r1) == GroupKey(r2)
    ensures GroupRows([r1, r2]).vals.Keys == {GroupKey(r1)}
  {
    assert GroupKey(r1) == GroupKey(r2) by {
      assert Field(r1, "surveyId") + "_" + Field(r1, "questionId") == "A_B_C";
      assert Field(r2, "surveyId") + "_" + Field(r2, "questionId") == "A_B_C";
    }
    var rows := [r1, r2];
    assert RowOf(rows, 0, GroupKey(r1)) && RowOf(rows, 1, GroupKey(r1));
    OneGroup(rows, GroupKey(r1));
  }
}
