/**
 * Question records as the import builds them (server/routes/import.js):
 * the option list read from a question row (`parseOptions`), the
 * per-language translation bundle, and the projection of the primary
 * language onto the top-level fields (`applyPrimaryTranslation`).
 */
module Questions {
  import opened Wrappers
  import opened Text
  import opened Dicts
  import opened Records

  /** One answer option of a question. */
  datatype Opt = Opt(text: string, textInEnglish: string, children: string)

  /** Everything one language contributes to a question. */
  datatype Translation = Translation(
    questionDescription: string,
    questionDescriptionOptional: string,
    tableHeaderValue: string,
    tableQuestionValue: string,
    options: seq<Opt>)

  /**
   * The fields of a question that come from the first row of its group and
   * that the primary-language projection leaves alone.
   */
  datatype QuestionInfo = QuestionInfo(
    surveyId: string,
    questionId: string,
    questionType: string,
    isDynamic: string,
    isMandatory: string,
    sourceQuestion: string,
    textInputType: string,
    textLimitCharacters: string,
    maxValue: string,
    minValue: string,
    questionMediaLink: string,
    questionMediaType: string,
    mode: string)

  /**
   * A consolidated question: its shared fields, its `medium`, its top-level
   * description, optional description, table fields and options (`content`,
   * which has the shape of a translation bundle), and its translations by
   * language. Fields a stage has not set yet hold '' (or [] for the options),
   * which is what an absent field reads as.
   */
  datatype Question = Question(
    info: QuestionInfo,
    medium: string,
    content: Translation,
    translations: Dict<Translation>)

  /** `a || b` on strings. */
  function Or(a: string, b: string): string {
    if a != "" then a else b
  }

  /** `parseOptions` looks at option indices 1 to 20. */
  const MaxOptions: nat := 20

  /** `normalizeCellValue(questionRow[name])` for a row whose values are strings. */
  function RowText(row: Record, name: string): string {
    Trim(Field(row, name))
  }

  /** A row text is already trimmed. */
  lemma RowTextTrimmed(row: Record, name: string)
    ensures Trim(RowText(row, name)) == RowText(row, name)
  {
    TrimIdempotent(Field(row, name));
  }

  /** The text of option `i`: `optionN`, falling back to `Option_N`. */
  function OptionText(row: Record, i: nat): string {
    Or(RowText(row, "option" + DecimalString(i)), RowText(row, "Option_" + DecimalString(i)))
  }

  predicate HasOption(row: Record, i: nat) {
    OptionText(row, i) != ""
  }

  /** Option `i` of a row, with its English text defaulting to the text and its children to ''. */
  function MakeOption(row: Record, i: nat): Opt {
    var n := DecimalString(i);
    var text := OptionText(row, i);
    Opt(text,
        Or(RowText(row, "option" + n + "InEnglish"), Or(RowText(row, "Option_" + n + "_in_English"), text)),
        Or(RowText(row, "option" + n + "Children"), Or(RowText(row, "Option_" + n + "Children"), "")))
  }

  /** Option `i` of a row, when it has option text. */
  function OptionAt(row: Record, i: nat): Option<Opt> {
    if HasOption(row, i) then Some(MakeOption(row, i)) else None
  }

  /** The options among `slots`, in order; slot `k` holds option index `k + 1`. */
  function Present(slots: seq<Option<Opt>>): seq<Opt> {
    if slots == [] then []
    else
      var last := slots[|slots| - 1];
      Present(slots[..|slots| - 1]) + (if last.Some? then [last.value] else [])
  }

  /** The option indices (slot position plus one) of the slots that hold an option, ascending. */
  function PresentIndices(slots: seq<Option<Opt>>): seq<nat> {
    if slots == [] then []
    else PresentIndices(slots[..|slots| - 1]) + (if slots[|slots| - 1].Some? then [|slots|] else [])
  }

  /** The twenty option slots of a row. */
  function OptionSlots(row: Record): seq<Option<Opt>> {
    seq(MaxOptions, k requires 0 <= k < MaxOptions => OptionAt(row, k + 1))
  }

  function ParsedOptions(row: Record): seq<Opt> {
    Present(OptionSlots(row))
  }

  /** `parseOptions`. */
  method ParseOptions(row: Record) returns (options: seq<Opt>)
    ensures options == ParsedOptions(row)
  {
    options := [];
    ghost var slots := OptionSlots(row);
    for i := 1 to MaxOptions + 1
      invariant options == Present(slots[..i - 1])
    {
      assert slots[..i][..i - 1] == slots[..i - 1];
      assert slots[i - 1] == OptionAt(row, i);
      var text := OptionText(row, i);
      if text != "" {
        assert Present(slots[..i]) == options + [MakeOption(row, i)];
        options := options + [MakeOption(row, i)];
      } else {
        assert Present(slots[..i]) == options;
      }
    }
    assert slots[..MaxOptions] == slots;
  }

  /** One option is kept per slot that holds one. */
  lemma {:induction false} PresentLength(slots: seq<Option<Opt>>)
    ensures |Present(slots)| == |PresentIndices(slots)| <= |slots|
  {
    if slots != [] {
      PresentLength(slots[..|slots| - 1]);
    }
  }

  /** Every kept index names a slot, and that slot holds the option kept at the same position. */
  lemma {:induction false} PresentIndicesMatch(slots: seq<Option<Opt>>)
    ensures |Present(slots)| == |PresentIndices(slots)|
    ensures forall k :: 0 <= k < |PresentIndices(slots)| ==>
      1 <= PresentIndices(slots)[k] <= |slots| && slots[PresentIndices(slots)[k] - 1] == Some(Present(slots)[k])
  {
    PresentLength(slots);
    if slots != [] {
      var init := slots[..|slots| - 1];
      PresentIndicesMatch(init);
      var idx := PresentIndices(init);
      forall k | 0 <= k < |idx| ensures init[idx[k] - 1] == slots[idx[k] - 1] { }
    }
  }

  /** The kept indices ascend. */
  lemma {:induction false} PresentIndicesAscend(slots: seq<Option<Opt>>)
    ensures forall k :: 0 <= k < |PresentIndices(slots)| ==> 1 <= PresentIndices(slots)[k] <= |slots|
    ensures forall k, l :: 0 <= k < l < |PresentIndices(slots)| ==> PresentIndices(slots)[k] < PresentIndices(slots)[l]
  {
    if slots != [] {
      PresentIndicesAscend(slots[..|slots| - 1]);
    }
  }

  /** A slot's index is kept exactly when the slot holds an option. */
  lemma {:induction false} PresentIndicesComplete(slots: seq<Option<Opt>>)
    ensures forall i :: 1 <= i <= |slots| ==> (slots[i - 1].Some? <==> i in PresentIndices(slots))
  {
    if slots != [] {
      var init := slots[..|slots| - 1];
      PresentIndicesComplete(init);
      PresentIndicesAscend(init);
      forall p | 0 <= p < |init| ensures init[p] == slots[p] { }
    }
  }

  /** An option read from a row has a non-empty, trimmed text and a non-empty English text. */
  lemma OptionAtShape(row: Record, i: nat)
    requires OptionAt(row, i).Some?
    ensures var o := OptionAt(row, i).value;
      o.text != "" && Trim(o.text) == o.text && o.textInEnglish != ""
  {
    var n := DecimalString(i);
    RowTextTrimmed(row, "option" + n);
    RowTextTrimmed(row, "Option_" + n);
  }

  /**
   * `parseOptions` yields at most twenty options, in ascending index order,
   * one for each index whose option text is non-empty and none for the others.
   */
  lemma ParsedOptionsIndices(row: Record)
    ensures var idx := PresentIndices(OptionSlots(row));
      && |ParsedOptions(row)| == |idx| <= MaxOptions
      && (forall k :: 0 <= k < |idx| ==> 1 <= idx[k] <= MaxOptions && OptionAt(row, idx[k]) == Some(ParsedOptions(row)[k]))
      && (forall k, l :: 0 <= k < l < |idx| ==> idx[k] < idx[l])
      && (forall i :: 1 <= i <= MaxOptions ==> (HasOption(row, i) <==> i in idx))
  {
    var slots := OptionSlots(row);
    var idx := PresentIndices(slots);
    PresentIndicesMatch(slots);
    PresentLength(slots);
    PresentIndicesAscend(slots);
    PresentIndicesComplete(slots);
    forall k | 0 <= k < |idx| ensures OptionAt(row, idx[k]) == Some(ParsedOptions(row)[k]) {
      OptionSlot(row, idx[k]);
    }
    forall i | 1 <= i <= MaxOptions ensures HasOption(row, i) <==> i in idx {
      OptionSlot(row, i);
    }
  }

  /** Slot `i - 1` of a row holds its option `i`, which is there exactly when the option has text. */
  lemma OptionSlot(row: Record, i: nat)
    requires 1 <= i <= MaxOptions
    ensures OptionSlots(row)[i - 1] == OptionAt(row, i)
    ensures OptionAt(row, i).Some? <==> HasOption(row, i)
  {
  }

  /** Every parsed option has a non-empty, trimmed text and a non-empty English text. */
  lemma ParsedOptionsTexts(row: Record)
    ensures forall o :: o in ParsedOptions(row) ==> o.text != "" && Trim(o.text) == o.text && o.textInEnglish != ""
  {
    var idx := PresentIndices(OptionSlots(row));
    ParsedOptionsIndices(row);
    forall o | o in ParsedOptions(row)
      ensures o.text != "" && Trim(o.text) == o.text && o.textInEnglish != ""
    {
      var k :| 0 <= k < |ParsedOptions(row)| && ParsedOptions(row)[k] == o;
      OptionAtShape(row, idx[k]);
    }
  }

  /** Without an English text the option's English text is its text; without children it has ''. */
  lemma MakeOptionDefaults(row: Record, i: nat)
    ensures var n := DecimalString(i);
      RowText(row, "option" + n + "InEnglish") == "" && RowText(row, "Option_" + n + "_in_English") == ""
      ==> MakeOption(row, i).textInEnglish == MakeOption(row, i).text
    ensures var n := DecimalString(i);
      RowText(row, "option" + n + "Children") == "" && RowText(row, "Option_" + n + "Children") == ""
      ==> MakeOption(row, i).children == ""
  {
  }

  /** The language whose bundle becomes the top-level content: 'English' if present, else the first language, else 'English'. */
  function PrimaryLanguage(translations: Dict<Translation>): (lang: string)
    ensures "English" in translations.keys ==> lang == "English"
    ensures "English" !in translations.keys && translations.keys != [] && translations.keys[0] != "" ==> lang == translations.keys[0]
    ensures lang != ""
  {
    if "English" in translations.keys then "English"
    else if translations.keys != [] && translations.keys[0] != "" then translations.keys[0]
    else "English"
  }

  /** `applyPrimaryTranslation`. */
  function ApplyPrimaryTranslation(q: Question): Question {
    var lang := PrimaryLanguage(q.translations);
    var bundle := q.translations.Get(lang);
    var b := bundle.GetOr(Translation("", "", "", "", []));
    q.(medium := Or(q.medium, lang),
       content := Translation(
         Or(b.questionDescription, q.content.questionDescription),
         Or(b.questionDescriptionOptional, q.content.questionDescriptionOptional),
         Or(b.tableHeaderValue, q.content.tableHeaderValue),
         Or(b.tableQuestionValue, q.content.tableQuestionValue),
         if bundle.Some? then b.options else q.content.options))
  }

  /**
   * The projection leaves the shared fields and the translations alone, takes the
   * options of the primary bundle, and sets every projected text field to the
   * bundle's value when that is non-empty and to the existing value otherwise.
   */
  lemma ApplyPrimaryTranslationProjects(q: Question, b: Translation)
    requires q.translations.Get(PrimaryLanguage(q.translations)) == Some(b)
    ensures var r := ApplyPrimaryTranslation(q);
      && r.info == q.info
      && r.translations == q.translations
      && r.content.options == b.options
      && r.medium != ""
      && (q.medium == "" ==> r.medium == PrimaryLanguage(q.translations))
      && (q.medium != "" ==> r.medium == q.medium)
      && (b.questionDescription != "" ==> r.content.questionDescription == b.questionDescription)
      && (b.questionDescription == "" ==> r.content.questionDescription == q.content.questionDescription)
      && (b.questionDescriptionOptional != "" ==> r.content.questionDescriptionOptional == b.questionDescriptionOptional)
      && (b.questionDescriptionOptional == "" ==> r.content.questionDescriptionOptional == q.content.questionDescriptionOptional)
      && (b.tableHeaderValue != "" ==> r.content.tableHeaderValue == b.tableHeaderValue)
      && (b.tableHeaderValue == "" ==> r.content.tableHeaderValue == q.content.tableHeaderValue)
      && (b.tableQuestionValue != "" ==> r.content.tableQuestionValue == b.tableQuestionValue)
      && (b.tableQuestionValue == "" ==> r.content.tableQuestionValue == q.content.tableQuestionValue)
  {
  }

  /** Projecting the primary translation a second time changes nothing. */
  lemma ApplyPrimaryTranslationIdempotent(q: Question)
    ensures ApplyPrimaryTranslation(ApplyPrimaryTranslation(q)) == ApplyPrimaryTranslation(q)
  {
  }
}
