# Survey import pipeline, validator and access checks

This project models, in Dafny, the survey import pipeline of CG-Dump-Server. It covers four parts.

- **The `POST /api/import` handler** (server/routes/import.js).
  - An uploaded Excel workbook or CSV file is read into survey records and consolidated question records.
    - Headers are normalised and mapped to field names.
    - Cells are normalised.
    - Question rows are grouped by `surveyId_questionId_questionType`, each language's row supplying a translation bundle.
    - The primary language is projected onto the top-level fields.
  - The batch is then checked against the stored surveys for duplicate ids.
    Without `overwrite=true` it is rejected; with it, the stored surveys and their questions are dropped.
  - Every record is validated, and the batch is appended to the store in one write only when nothing failed.
- **The validator** (server/services/validator.js): `validateSurvey`, `validateQuestion` and `isValidDate`.
  Each failed check contributes one error, in the order the code makes the checks.
- **The access checks** (packages/core/src/auth.ts).
  - `requireAuth` with its ten ordered refusals, the bypass mode, and the helpers that read the token's groups and state claim.
  - `verifyToken` and the database are function and map parameters.
- **The tabular text-input preview's pure parsing** (client/src/components/preview/TabularTextInputRenderer.jsx).
  This is the per-language choice of the table fields, `parseHeaders`, and the `key:text` line parser.

## How the model is built

Records are insertion-ordered dictionaries from field name to text (`Dicts.Dict`). The empty text stands for an absent or falsy value, as JavaScript's `||` and `if (x)` treat it.

Where the source loops or mutates, the model keeps that form, and each method is proved equal to a specification function:

- the `for`/`forEach` loops of the parsers and of the validator;
- the grouping loop over `questionsByKey`;
- the handler's transaction, a class `Importer.Store` whose `surveys` and `questions` fields are replaced by the write;
- `requireAuth` with its early returns.

The properties are then proved about those functions.

The validator's rule table, enumerations and child-id format come from server/schemas/validationRules, which is not part of this model. They form a `Schema` parameter, with the child-id regex and the table-value regex as predicates in it.

Where the documented behaviour and the code differ, the model follows the code:

- **Excel sheets.** An Excel upload is rejected unless both the surveys and the questions are non-empty. It is not enough that one sheet is present (import.js:388).
- **What question validation sees.** `validateQuestion` is called with the surveys as its second argument (import.js:471). It never reads that argument (validator.js:73). A child question's source question is checked for presence only, not existence (`Validator.ChildSourceChecks`).
- **The "already exists" check.** The check inside the survey loop (import.js:459-466) can never fire: overlapping ids were either rejected before it or removed from the store (`Importer.ExistsCheckNeverFires`).
- **Overwrite removes more than overlapping surveys' questions.** It removes every stored question whose survey id is incoming, and only when some stored survey overlaps (import.js:438-441).
- **Re-importing is idempotent only under conditions.** `Importer.OverwriteReimportIdempotent` proves it under stated conditions. `Importer.QuestionOnlyReimportRepeats` shows that a question-only batch imported twice is stored twice.
- **Table headers in the preview.** The preview defines `parseHeaders` and computes `tableHeaderValue`, but never calls the one on the other: it renders the fixed headers 'Option No' and 'Text Input' (TabularTextInputRenderer.jsx:15, 29-30). `Tabular.ParseHeaders` models the unused parser; `Tabular.Render` models what is rendered, and `Tabular.RenderIgnoresHeaderValue` shows the header value has no effect on it.

## Model

| member | source | states |
|---|---|---|
| Columns.KeepLowerAlnum | server/routes/import.js:303 | the character filter leaves only lower-case letters and digits |
| Columns.NormalizeHeaderKey | server/routes/import.js:297-304 | a missing header gives the empty key; every key consists of `a-z0-9` only |
| Columns.KeepAfterDrop | server/routes/import.js:302-303 | dropping white space and underscores first does not change what the final filter keeps |
| Columns.NormalizeHeaderKeyIsFilter | server/routes/import.js:297-304 | the key of a header is exactly the lower-cased header with every character outside `a-z0-9` removed |
| Columns.KeepLowerAround | server/routes/import.js:299-303 | white space around a header does not change its key |
| Columns.NormalizeKeyOfKey | server/routes/import.js:297-304 | a header made only of lower-case letters and digits is its own key |
| Columns.NormalizeHeaderKeyIdempotent | server/routes/import.js:297-304 | normalising a key again leaves it unchanged |
| Columns.SurveyColumnPassThrough | server/routes/import.js:180-201 | a survey header whose key is not in the table keeps its original spelling |
| Columns.FieldNameKey | server/routes/import.js:297-304 | a name whose lower-cased spelling is a key of lower-case letters and digits normalises to that key |
| Columns.SurveyFieldFixedPoint | server/routes/import.js:179-201 | every survey table field name maps to itself, so mapping a survey header twice is mapping it once |
| Columns.SurveyColumnsKeyed | server/routes/import.js:182-200 | every key of the survey table holds only lower-case letters and digits and is its field name lower-cased, proved entry by entry |
| Columns.QuestionColumnsOutsideRules | server/routes/import.js:205-249 | no question table key has the option shape, and the only one the description prefix rule catches maps to `questionDescription` anyway |
| Columns.QuestionFieldFixedPoint | server/routes/import.js:205-249 | every question table field name maps to itself: neither the option pattern nor the prefix rule diverts it |
| Columns.QuestionColumnsKeyed | server/routes/import.js:220-247 | every key of the question table is its field name lower-cased and holds only lower-case letters and digits; none begins with `option`; the only one the description prefix rule catches maps to `questionDescription`; proved entry by entry |
| Columns.DigitPrefixLength | server/routes/import.js:207 | the length of the leading run of digits: all before it are digits, the next is not |
| Columns.MatchOption | server/routes/import.js:207 | a match yields digits and a suffix that rebuild the key as `option<digits><suffix>` |
| Columns.MatchOptionComplete | server/routes/import.js:207 | every key of the form `option<digits>`, `option<digits>inenglish` or `option<digits>children` matches, with those digits and that suffix |
| Columns.QuestionOptionColumn | server/routes/import.js:207-218 | an option header in any spelling maps to `option<N>`, `option<N>InEnglish` or `option<N>Children` |
| Columns.QuestionDescriptionPrefix | server/routes/import.js:242-247 | a key starting with `questiondescription`, other than `questiondescriptionoptional`, maps to `questionDescription` |
| Columns.QuestionColumnPassThrough | server/routes/import.js:249 | a question header recognised by no rule and no table entry keeps its original spelling |
| Columns.OptionFieldNameKey | server/routes/import.js:207-218 | an option field name normalises to the key it was recognised from |
| Columns.OptionFieldFixedPoint | server/routes/import.js:207-218 | an option field name maps to itself |
| Cells.NormalizeCellValue | server/routes/import.js:270-295 | the result is missing exactly for a missing cell, and passes through unreduced exactly for a structured value with no text, runs, result or hyperlink |
| Cells.RichCellPrecedence | server/routes/import.js:284-292 | a structured value reduces to its text, else its joined rich-text runs, else its formula result, else its hyperlink |
| Cells.StringCellIdempotent | server/routes/import.js:280-282 | normalising a string cell's text again changes nothing |
| Cells.DateCellReadsBack | server/routes/import.js:273-278 | a date cell's text is two digits of day, '/', two digits of month, '/', and the year's decimal digits |
| Records.MapRecordFields | server/routes/import.js:252-268 | the column loop yields the mapped record |
| Records.MapSurveyRecord | server/routes/import.js:252-259 | `mapSurveyRecord` is the mapped record under the survey column mapper |
| Records.MapQuestionRecord | server/routes/import.js:261-268 | `mapQuestionRecord` is the mapped record under the question column mapper |
| Records.MappedRecordFields | server/routes/import.js:252-259 | a mapped record lists each field once, and its fields are exactly the mapped names of the columns |
| Records.MappedRecordLastWins | server/routes/import.js:254-257 | a column's field holds that column's value unless a later column maps to the same field name |
| Records.ReadHeaders | server/routes/import.js:32-34 | the header-row loop yields the header text of every column |
| Records.ReadSheetRow | server/routes/import.js:40-47 | the cell loop of a data row yields the row's record; an empty cell, which `eachCell` does not visit, leaves its field absent |
| Records.SheetRowFields | server/routes/import.js:40-47 | a worksheet row only fills fields named by the non-empty header of one of its non-empty cells |
| Records.InferSheetType | server/routes/import.js:306-329 | an explicit 'survey' or 'question' wins, and no records with no explicit kind gives no kind |
| Records.InferQuestionIff | server/routes/import.js:315-323 | with no explicit kind, the guess is "question" exactly when the first record has a question-id column |
| Records.InferSurveyIff | server/routes/import.js:315-326 | with no explicit kind, the guess is "survey" exactly when the first record has a survey-id column and no question-id column |
| Records.InferLooksAtFirstRecordOnly | server/routes/import.js:315-317 | records after the first never influence the guess |
| Questions.RowTextTrimmed | server/routes/import.js:354 | a normalised row text is already trimmed |
| Questions.ParseOptions | server/routes/import.js:349-369 | the loop over indices 1 to 20 yields the parsed options |
| Questions.ParsedOptionsIndices | server/routes/import.js:352-366 | at most twenty options, in ascending index order, one for each index whose option text is non-empty and none for the others |
| Questions.OptionSlot | server/routes/import.js:352-356 | slot `i - 1` holds option `i`, which is there exactly when the option has text |
| Questions.PresentIndicesAscend | server/routes/import.js:352-366 | the kept option indices lie in 1..20 and strictly ascend |
| Questions.PresentIndicesComplete | server/routes/import.js:352-366 | an index is kept exactly when its slot holds an option |
| Questions.OptionAtShape | server/routes/import.js:354-364 | an option read from a row has a non-empty trimmed text and a non-empty English text |
| Questions.ParsedOptionsTexts | server/routes/import.js:354-362 | every parsed option has a non-empty trimmed text and a non-empty English text |
| Questions.MakeOptionDefaults | server/routes/import.js:357-363 | without an English text the option's English text is its text; without children it has '' |
| Questions.PrimaryLanguage | server/routes/import.js:333-334 | 'English' when present, else the first language, never the empty text |
| Questions.ApplyPrimaryTranslationProjects | server/routes/import.js:331-346 | the projection keeps the shared fields and translations, takes the primary bundle's options when present, and sets each text field to the bundle's value when non-empty, else keeps it |
| Questions.ApplyPrimaryTranslationIdempotent | server/routes/import.js:331-346 | projecting a second time changes nothing |
| Dicts.Dict.Put | server/routes/import.js:103 | assignment keeps the dictionary well formed, sets the key, leaves every other key alone, and appends a new key at the end while an existing key keeps its place |
| Dicts.PutTwice | server/routes/import.js:103 | assigning a key twice is assigning it the second value |
| Consolidate.Seed | server/routes/import.js:80-99 | the question the first row of a group creates has no translations and 'None' defaults for input type, media type and mode |
| Consolidate.Language | server/routes/import.js:102 | the row language is `mediumInEnglish`, else `medium`, else 'English', and never empty |
| Consolidate.GroupRows | server/routes/import.js:63-111 | the groups are a well-formed dictionary |
| Consolidate.ReadRow | server/routes/import.js:68-109 | one row is read into its key, seed, language and bundle |
| Consolidate.ReadRows | server/routes/import.js:65-75 | every row is read once, in order |
| Consolidate.GroupRowViews | server/routes/import.js:77-110 | the grouping loop over the rows read yields the groups |
| Consolidate.GroupQuestionRows | server/routes/import.js:63-111 | the whole grouping loop yields the groups of the rows |
| Consolidate.AddViewOther | server/routes/import.js:80-109 | a row only touches its own group |
| Consolidate.AddViewSame | server/routes/import.js:80-109 | a row stores its bundle under its language in its group, creating the group from its seed when new |
| Consolidate.GroupPrefixKeys | server/routes/import.js:65-111 | every prefix of the loop has exactly one group per key carried so far |
| Consolidate.GroupPrefixSeed | server/routes/import.js:80-99 | the first row with a key seeds its group in every later prefix |
| Consolidate.GroupPrefixLastBundle | server/routes/import.js:102-109 | the last row of a group for a language supplies that language's bundle |
| Consolidate.GroupPrefixLanguages | server/routes/import.js:102-103 | the languages of a group are exactly those of the rows carried so far |
| Consolidate.ViewsOfRows | server/routes/import.js:77-102 | a row carries a key exactly when it has both ids, and then the key is the row's |
| Consolidate.GroupRowsKeys | server/routes/import.js:77-80 | rows without ids are dropped, and there is exactly one group per distinct key of the others |
| Consolidate.GroupRowsTranslationsValid | server/routes/import.js:103 | every group lists each of its languages once |
| Consolidate.GroupSeededByFirstRow | server/routes/import.js:80-99 | apart from its translations, a group's question is its first row's seed, and its first language is that row's |
| Consolidate.LastRowForLanguageWins | server/routes/import.js:102-109 | the last row of a group in a language supplies that language's bundle |
| Consolidate.GroupLanguages | server/routes/import.js:102-103 | the languages of a group are exactly the languages of its rows |
| Consolidate.ProjectedQuestions | server/routes/import.js:113 | one question per group, each the primary projection of its group |
| Consolidate.ProjectGroups | server/routes/import.js:113 | the projection loop yields the projected questions |
| Consolidate.PrimaryBundleExists | server/routes/import.js:333-335 | a translation table whose first language is non-empty has a bundle for its primary language |
| Consolidate.ConsolidatedSeed | server/routes/import.js:80-99 | every consolidated question comes from a group seeded by some row with its key |
| Consolidate.ConsolidatedQuestionIsPrimaryBundle | server/routes/import.js:113 | a consolidated question keeps its group's shared fields and translations, its medium is the primary language, and its description, optional description and options are the primary bundle's |
| Consolidate.OneGroup | server/routes/import.js:77-80 | rows that all carry one key make exactly one group |
| Consolidate.KeyCollision | server/routes/import.js:78 | rows for survey `A_B` with question `C`, and survey `A` with question `B_C`, of one type, fall into one group |
| Parsing.SheetRecords | server/routes/import.js:36-47 | one record per row after the header row |
| Parsing.RowsWithSurveyId | server/routes/import.js:49-51 | the kept rows are no more than the rows |
| Parsing.ReadSheet | server/routes/import.js:31-47 | the sheet loop yields the sheet's records |
| Parsing.KeepRowsWithSurveyId | server/routes/import.js:49-51 | the survey filter loop yields the rows with a survey id |
| Parsing.ParseXlsx | server/routes/import.js:22-117 | `parseXLSX` yields the workbook's surveys and consolidated questions |
| Parsing.RowsWithSurveyIdMembers | server/routes/import.js:49-51 | the filter keeps exactly the rows with a survey id |
| Parsing.RowsWithSurveyIdAll | server/routes/import.js:49-51 | when every row has a survey id, every row is kept |
| Parsing.XlsxSurveysHaveIds | server/routes/import.js:29-53 | a workbook's surveys are exactly its survey rows that have a survey id |
| Parsing.ConsolidatedNonEmptyIff | server/routes/import.js:77-113 | the rows consolidate into at least one question exactly when a row has both ids |
| Parsing.XlsxQuestionsNonEmptyIff | server/routes/import.js:56-114 | a workbook has questions exactly when its Question Master sheet has a row with both ids |
| Parsing.MappedRecords | server/routes/import.js:131 | one mapped record per CSV record |
| Parsing.MapRecords | server/routes/import.js:131 | the mapping loop yields the mapped records |
| Parsing.ParseCsv | server/routes/import.js:120-177 | `parseCSV` yields surveys or questions according to the inferred kind |
| Parsing.CsvOneKind | server/routes/import.js:128-176 | a CSV file never yields both surveys and questions |
| Parsing.CsvSurveysKeepEveryRecord | server/routes/import.js:130-131 | a survey CSV yields one survey per record, ids or not |
| Parsing.CsvEmptyIff | server/routes/import.js:128-176 | a CSV yields nothing exactly when its kind is unknown, it is a survey file with no records, or it is a question file none of whose records has both ids |
| Validator.TripleSplit | server/services/validator.js:190-192 | splitting a date or time half on its separator gives its three fields |
| Validator.DateShapeSplit | server/services/validator.js:185-192 | under the regex, splitting on ' ' gives the date part and the time part |
| Validator.DateTimeTextValid | server/services/validator.js:184-202 | a date written with two-digit parts and a year of four digits without a leading zero (1000 to 9999) is accepted exactly when month, day, hours, minutes and seconds are in range |
| Validator.ThirtyFirstOfFebruaryAccepted | server/services/validator.js:194-201 | 31/02/2024 10:00:00 is accepted: there is no calendar check |
| Validator.YearFirstRejected | server/services/validator.js:185-188 | a year-first date is rejected by the regex |
| Validator.DateCellNeverValidDate | server/services/validator.js:185-188 | a worksheet date cell's text, which has no time, is never a valid date |
| Validator.YesNoPrefix | server/services/validator.js:43-47 | the first `n` fields of the Yes/No loop yield only Yes/No errors, each naming one of those fields, so at most `n` |
| Validator.YesNoPrefixOnePerField | server/services/validator.js:43-47 | no two Yes/No errors are the same: each field is reported at most once |
| Validator.TextErrors | server/services/validator.js:16-35 | the id, name and description checks yield only their own kinds of error, at most one per check, so at most 3 |
| Validator.OptionalErrors | server/services/validator.js:49-64 | the mode and date checks yield only their own kinds of error, at most one per check, so at most 3 |
| Validator.CheckSurveyTexts | server/services/validator.js:16-35 | the checks on id, name and description yield their errors |
| Validator.CheckYesNo | server/services/validator.js:38-47 | the `yesNoFields.forEach` loop yields the Yes/No errors |
| Validator.CheckModeAndDates | server/services/validator.js:49-64 | the mode and date checks yield their errors |
| Validator.ValidateSurvey | server/services/validator.js:13-70 | the errors are the survey's errors, and `isValid` holds exactly when there are none |
| Validator.SurveyIdNotBlank | server/services/validator.js:17-21 | a text made only of id characters is never blank |
| Validator.YesNoPrefixEmpty | server/services/validator.js:43-47 | no Yes/No error among the first fields exactly when none of them is violated |
| Validator.YesNoPrefixHas | server/services/validator.js:43-47 | a Yes/No field is reported exactly when it is among the fields checked and violated |
| Validator.SurveyValidIff | server/services/validator.js:13-70 | a survey is accepted exactly when every check holds |
| Validator.SurveyIdErrors | server/services/validator.js:17-21 | the id is reported missing when blank, and malformed exactly when not blank and outside `[A-Za-z0-9_]+` |
| Validator.SurveyYesNoErrors | server/services/validator.js:43-47 | a Yes/No field is reported exactly when present and not an allowed value |
| Validator.AbsentFieldsUnchecked | server/services/validator.js:43-64 | absent Yes/No fields, mode and dates are never reported |
| Validator.HeadErrors | server/services/validator.js:78-86 | the id, type and description checks yield only their own kinds of error, at most one per check, so at most 3 |
| Validator.ChildErrors | server/services/validator.js:89-96 | a question id without '.' draws no child error |
| Validator.RequiredPrefix | server/services/validator.js:103-111 | the required-field loop yields only required-field errors |
| Validator.FixedTypeErrors | server/services/validator.js:116-123 | the fixed input-type and media-type constraints yield only constraint errors |
| Validator.OptionCountErrors | server/services/validator.js:126-133 | an empty option list draws no option-count error |
| Validator.LinePrefix | server/services/validator.js:149-154 | the per-line loop yields only line-length errors |
| Validator.TableErrors | server/services/validator.js:136-155 | the table checks yield only table errors |
| Validator.ConstraintErrors | server/services/validator.js:114-156 | the constraint block yields only constraint errors |
| Validator.TypeErrors | server/services/validator.js:99-157 | a type without a rule draws no rule error |
| Validator.EnumErrors | server/services/validator.js:160-175 | the four enumeration checks yield only their own kinds of error, at most one per check, so at most 4 |
| Validator.CheckRequired | server/services/validator.js:103-111 | the `rules.required.forEach` loop yields the required-field errors |
| Validator.CheckTable | server/services/validator.js:136-155 | the table checks, with the loop over lines, yield the table errors |
| Validator.CheckHead | server/services/validator.js:78-86 | the head checks yield their errors |
| Validator.CheckChild | server/services/validator.js:89-96 | the child checks yield their errors |
| Validator.CheckConstraints | server/services/validator.js:114-156 | the constraint block yields its errors |
| Validator.CheckEnums | server/services/validator.js:160-175 | the enumeration checks yield their errors |
| Validator.ValidateQuestion | server/services/validator.js:73-181 | the errors are the question's errors, whatever the second argument, and `isValid` holds exactly when there are none |
| Validator.ChildFormatChecks | server/services/validator.js:89-92 | a child id is reported exactly when it breaks the child format |
| Validator.ChildSourceChecks | server/services/validator.js:93-95 | a child question is reported exactly when its source question is absent |
| Validator.RequiredPrefixEmpty | server/services/validator.js:103-111 | no required-field error exactly when each required field is provided |
| Validator.RequiredErrorEmpty | server/services/validator.js:104-110 | one required field draws no error exactly when it is provided |
| Validator.RequiredFieldReported | server/services/validator.js:108-110 | a missing field is reported exactly when it is required, is not "options", and is not set |
| Validator.OptionsRequiredReported | server/services/validator.js:104-107 | an empty option list is reported exactly when "options" is required |
| Validator.LinePrefixEmpty | server/services/validator.js:149-154 | no line error exactly when no line is too long |
| Validator.LinePrefixHas | server/services/validator.js:149-154 | line `k` is reported exactly when it is one of the lines and too long |
| Validator.TableLineChecks | server/services/validator.js:143-154 | line `k` of a table value is reported exactly when its text between the first and second ':' is over the limit |
| Validator.TableErrorsEmpty | server/services/validator.js:136-155 | the table checks pass exactly when the format holds, the line count is within bounds and no line is too long |
| Validator.ConstraintErrorsEmpty | server/services/validator.js:114-156 | the constraint checks pass exactly when every constraint is met |
| Validator.TypeErrorsEmpty | server/services/validator.js:99-157 | the rule's checks pass exactly when the rule is met |
| Validator.QuestionValidIff | server/services/validator.js:73-181 | a question is accepted exactly when every check holds |
| Validator.RequiredFieldChecks | server/services/validator.js:99-111 | a field is reported missing exactly when the question's type has a rule requiring it and it is not set |
| Validator.FieldRequiredFromType | server/services/validator.js:73-181 | among all question errors, only the type's rule reports a missing field |
| Validator.NoOptionsNoConstraintCountErrors | server/services/validator.js:126-133 | an empty option list draws no count error from a type's constraints |
| Validator.NoOptionsNoTypeCountErrors | server/services/validator.js:126-133 | an empty option list draws no count error from a type's rule |
| Validator.NoOptionsNoCountErrors | server/services/validator.js:126-133 | an empty option list is never checked against the option-count bounds |
| Validator.UnruledTypeChecks | server/services/validator.js:99 | a type without a rule is checked only by the type-independent checks |
| Importer.SchemaValidators | server/routes/import.js:448-471 | the handler's validators are `validateSurvey` and `validateQuestion` under one schema |
| Importer.DuplicateIds | server/routes/import.js:414-416 | every duplicate is an incoming id |
| Importer.SurveysOutside | server/routes/import.js:439 | the survey filter keeps no more than it is given |
| Importer.QuestionsOutside | server/routes/import.js:440 | the question filter keeps no more than it is given |
| Importer.CollectIncomingIds | server/routes/import.js:413 | the loop collects the incoming survey ids |
| Importer.FindDuplicates | server/routes/import.js:414-416 | the loop yields the stored ids that are incoming, in store order |
| Importer.DropSurveys | server/routes/import.js:439 | the loop yields the surveys outside the incoming ids |
| Importer.DropQuestions | server/routes/import.js:440 | the loop yields the questions outside the incoming ids |
| Importer.FindSurvey | server/routes/import.js:459 | the search finds a survey exactly when one has the id |
| Importer.CheckSurveys | server/routes/import.js:447-467 | the survey loop yields the survey entries of `validationErrors` |
| Importer.CheckQuestions | server/routes/import.js:470-480 | the question loop yields the question entries of `validationErrors` |
| Importer.RunTransaction | server/routes/import.js:411-494 | the response and the new store are the transaction's |
| Importer.HandleImport | server/routes/import.js:372-502 | the response and the new store are the whole request's |
| Importer.DuplicateIdsEmpty | server/routes/import.js:414-418 | no duplicate exactly when no stored survey has an incoming id |
| Importer.DuplicateIdsMembers | server/routes/import.js:413-416 | the duplicates are exactly the incoming ids some stored survey has |
| Importer.SurveysOutsideMembers | server/routes/import.js:439 | the survey filter keeps exactly the surveys whose id is not incoming |
| Importer.QuestionsOutsideMembers | server/routes/import.js:440 | the question filter keeps exactly the questions whose survey id is not incoming |
| Importer.RejectionKeepsStore | server/routes/import.js:376-489 | a request that does not import leaves the store as it was |
| Importer.DuplicateWithoutOverwriteRejected | server/routes/import.js:418-436 | a stored incoming id without overwrite is rejected, and listed among the duplicates |
| Importer.QuestionOnlyImport | server/routes/import.js:413-441 | a batch without surveys is never rejected for duplicates and drops nothing |
| Importer.NoDuplicateKeepsStore | server/routes/import.js:438-441 | with no overlap, the batch is checked against the whole store |
| Importer.IncomingIdOf | server/routes/import.js:413 | each incoming survey's id is incoming |
| Importer.BaseHoldsNoIncomingId | server/routes/import.js:438-441 | the base the batch is checked against holds no incoming id |
| Importer.SurveyChecksNoExists | server/routes/import.js:459-466 | with no incoming id in the base, the survey loop reports only rejected surveys |
| Importer.QuestionChecksKinds | server/routes/import.js:470-480 | the question loop reports only rejected questions |
| Importer.ExistsCheckNeverFires | server/routes/import.js:459-466 | no response lists a "Survey ID already exists" entry from the validation loop |
| Importer.SurveyCheckEmpty | server/routes/import.js:447-467 | one survey adds no entry exactly when it passes validation |
| Importer.SurveyChecksEmpty | server/routes/import.js:447-467 | the survey loop reports nothing exactly when every survey passes |
| Importer.QuestionChecksEmpty | server/routes/import.js:470-480 | the question loop reports nothing exactly when every question passes |
| Importer.ImportedIff | server/routes/import.js:411-494 | a batch is imported exactly when no duplicate blocks it and every survey and question passes validation |
| Importer.ImportedIffAcceptable | server/routes/import.js:443-494 | under a schema, a batch is imported exactly when no duplicate blocks it and every record meets every check |
| Importer.ImportedSurveys | server/routes/import.js:438-494 | the stored surveys become the kept ones followed by the incoming ones; the kept ones are the stored sequence itself, or, when a duplicate exists, the stored sequence filtered by `Importer.SurveysOutside` (order and repeats by `Importer.SurveysOutsideAround`); a stored survey is kept unless overwritten |
| Importer.ImportedQuestions | server/routes/import.js:440-493 | the stored questions become the kept ones followed by the incoming ones; the kept ones are the stored sequence itself, or, when a duplicate exists, the stored sequence filtered by `Importer.QuestionsOutside` (order and repeats by `Importer.QuestionsOutsideAround`); a stored question is kept unless its survey was overwritten |
| Importer.InBatchDuplicatesImported | server/routes/import.js:413 | two incoming surveys with one new id are both imported |
| Importer.SurveysOutsideConcat | server/routes/import.js:439 | the survey filter of two runs of surveys is the filter of each, concatenated |
| Importer.SurveysOutsideAround | server/routes/import.js:439 | a survey stays in place, between what is kept before and after it, exactly when its id is not dropped |
| Importer.QuestionsOutsideConcat | server/routes/import.js:440 | the question filter of two runs of questions is the filter of each, concatenated |
| Importer.QuestionsOutsideAround | server/routes/import.js:440 | a question stays in place exactly when its survey id is not dropped |
| Importer.SurveysOutsideDropsTail | server/routes/import.js:439 | appended surveys whose ids are all dropped do not change what the filter keeps |
| Importer.SurveysOutsideKeepsAll | server/routes/import.js:439 | the filter keeps everything when no survey has a dropped id |
| Importer.QuestionsOutsideDropsTail | server/routes/import.js:440 | appended questions whose survey ids are all dropped do not change what the filter keeps |
| Importer.QuestionsOutsideKeepsAll | server/routes/import.js:440 | the filter keeps everything when no question has a dropped survey id |
| Importer.OverwriteReimportIdempotent | server/routes/import.js:411-494 | importing the same accepted batch again with overwrite gives the same response and store, when the batch has surveys, its questions belong to its surveys, and the first run dropped any stored question of an incoming survey |
| Importer.ReimportBase | server/routes/import.js:414-441 | a second run with the same batch drops back to the first run's base |
| Importer.ReimportSurveys | server/routes/import.js:439 | dropping the incoming ids from the base followed by the batch leaves the base's surveys |
| Importer.ReimportQuestions | server/routes/import.js:440 | dropping the incoming ids from the base followed by the batch leaves the base's questions |
| Importer.QuestionOnlyReimportRepeats | server/routes/import.js:413-493 | an accepted question-only batch imported twice, overwrite or not, is stored twice |
| Auth.GetTokenStateClaim | packages/core/src/auth.ts:31-51 | the candidate loop yields the first usable claim, trimmed |
| Auth.FirstUsableChoice | packages/core/src/auth.ts:40-50 | the result is the trimmed value of a usable candidate with no usable one before it, and nothing exactly when none is usable |
| Auth.TokenStateClaimFirst | packages/core/src/auth.ts:31-51 | the claim is the trimmed, non-blank text of the first usable of `custom:state_id`, `state_id`, `stateId`, `custom:state_code`, `state_code`, and there is none exactly when none is usable |
| Auth.ResolveStateIdCases | packages/core/src/auth.ts:53-76 | a blank claim resolves to nothing; a trimmed claim that is a state id resolves to itself; a resolved id is a state id or a code's id; nothing exactly when the claim is blank or neither an id nor, upper-cased, a code |
| Auth.GroupsCases | packages/core/src/auth.ts:92-99 | no groups for a falsy claim, the list for a list, and one group for a scalar |
| Auth.NormalizedGroups | packages/core/src/auth.ts:102 | one normalised name per group |
| Auth.NormalizedMember | packages/core/src/auth.ts:102-104 | a name is among the normalised groups exactly when some group trims and lower-cases to it |
| Auth.RoleFromGroupsPrecedence | packages/core/src/auth.ts:101-106 | admin when an admin group exists, else state user when a state_user group exists, else no role |
| Auth.PaddedAdminGroup | packages/core/src/auth.ts:101-106 | a group that trims to 'Admin', listed with 'state_user', makes the role admin |
| Auth.EnsureRoleCases | packages/core/src/auth.ts:108-112 | no expectation admits every role, a list admits its members, a single role only itself |
| Auth.RequireAuth | packages/core/src/auth.ts:179-276 | the step-by-step checks with early returns give the decision of `requireAuth` outside bypass mode |
| Auth.ChecksInOrder | packages/core/src/auth.ts:179-259 | each of the ten refusals happens exactly when its check fails after the earlier ones pass |
| Auth.GrantedContext | packages/core/src/auth.ts:236-276 | a granted request carries a provisioned user with a state, the token's role, and the token's state whenever it names one |
| Auth.DenialStatus | packages/core/src/auth.ts:179-259 | a refusal is 401 exactly for a missing bearer token, a rejected token or a missing subject, and 403 otherwise |
| Auth.BypassOutcome | packages/core/src/auth.ts:135-176 | in bypass mode only the role is checked; admin exactly for the header 'admin'; the state comes from the header's code |
| Auth.DevStateDefault | packages/core/src/auth.ts:79-80 | without an `x-dev-state` header the state code is DEV_STATE |
| Tabular.FieldFallback | client/src/components/preview/TabularTextInputRenderer.jsx:4-6 | a table field is the language bundle's value when non-empty, else the question's own |
| Tabular.NonEmptyTrimmed | client/src/components/preview/TabularTextInputRenderer.jsx:11 | the kept headers are no more than the pieces |
| Tabular.ParseHeadersMembers | client/src/components/preview/TabularTextInputRenderer.jsx:8-12 | the headers are exactly the non-empty trimmed pieces of the value split on its delimiter, and none for an empty value; their order and repeats are stated by `Tabular.ParseHeadersAround` |
| Tabular.HeadersAvoidDelimiter | client/src/components/preview/TabularTextInputRenderer.jsx:10-11 | no header contains the delimiter: '|' when the value has one, ',' otherwise |
| Tabular.NonEmptyTrimmedConcat | client/src/components/preview/TabularTextInputRenderer.jsx:11 | the header filter of two runs of pieces is the filter of each, concatenated |
| Tabular.ParseHeadersAround | client/src/components/preview/TabularTextInputRenderer.jsx:8-12 | the headers keep the pieces' order and repeats: a piece gives its trimmed text, in place, exactly when that is not empty |
| Tabular.ParseTwoHeaders | client/src/components/preview/TabularTextInputRenderer.jsx:8-12 | two trimmed, non-empty headers joined by a vertical bar parse back to themselves |
| Tabular.HeadersTrimmed | client/src/components/preview/TabularTextInputRenderer.jsx:11 | every header is non-empty and trimmed |
| Tabular.Rows | client/src/components/preview/TabularTextInputRenderer.jsx:16-21 | no more rows than lines |
| Tabular.LineRowSecondPiece | client/src/components/preview/TabularTextInputRenderer.jsx:18-19 | a line `key:text:rest` gives the trimmed key and the trimmed text, and the rest is ignored |
| Tabular.LineRowShape | client/src/components/preview/TabularTextInputRenderer.jsx:18-21 | a row has a non-empty trimmed key and value |
| Tabular.RowsMembers | client/src/components/preview/TabularTextInputRenderer.jsx:16-21 | the rows are exactly the rows of the lines that have a key and a value; their order and repeats are stated by `Tabular.TableQuestionsAround` |
| Tabular.RowsInLineOrder | client/src/components/preview/TabularTextInputRenderer.jsx:16-21 | when every line yields a row, row `k` is the row of line `k`; the general case, with dropped lines, is `Tabular.TableQuestionsAround` |
| Tabular.RowsConcat | client/src/components/preview/TabularTextInputRenderer.jsx:16-21 | the rows of two runs of lines are the rows of each, concatenated |
| Tabular.TableQuestionsAround | client/src/components/preview/TabularTextInputRenderer.jsx:16-21 | the rows keep the lines' order and repeats: a line's row, when it has one, sits between the rows of the lines before and after it |
| Tabular.RowsShape | client/src/components/preview/TabularTextInputRenderer.jsx:21 | every row has a non-empty key and text |
| Tabular.Render | client/src/components/preview/TabularTextInputRenderer.jsx:15-36 | the rendered titles are 'Option No' and 'Text Input', and there is one non-empty label per parsed row, the row's text |
| Tabular.RenderIgnoresHeaderValue | client/src/components/preview/TabularTextInputRenderer.jsx:5-15 | two questions with the same table question value render the same table, whatever their header values |
| Tabular.ParsedHeadersNotRendered | client/src/components/preview/TabularTextInputRenderer.jsx:8-15 | the header value "A" bar "B" parses to "A" and "B", yet the rendered titles are not those |
| Tabular.TableQuestionsBound | client/src/components/preview/TabularTextInputRenderer.jsx:16-21 | at most one row per line, and the empty value yields no rows |
| Tabular.AcceptedRowsWithinLimit | client/src/components/preview/TabularTextInputRenderer.jsx:18-19 | when the validator finds no line too long, every row's value is within the character limit |

## Left out

- Case mapping: `toLowerCase` and `toUpperCase` are modelled on ASCII letters only. Unicode case mapping has no counterpart here.
- Cell values: numbers and booleans are not cell kinds. A structured value that reduces to nothing is passed through as `Unreduced` and stored as the empty text.
- Truthiness: every value is a text, and the empty text is the only falsy one. Numeric 0 and `false` do not occur.
- Absent fields: an absent field reads as the empty text, so `undefined` and `''` are not told apart. The exception is the consolidation key, which renders an absent question type as 'undefined'.
- Storage: server/data/store.js is not part of this model. Its write queue, temporary file and rename are concurrency and file I/O. `writeStore` is the assignment of both lists.
- File reading: multer, ExcelJS's file reading and csv-parse are parsers outside the model, so an upload is given as its file kind with the sheets or records already read. The unlink of the temporary file is also I/O and is left out.
- Responses: the message texts, the HTTP status codes of the import route, the deduplicated `details.duplicates` list, and the 500 catch path for thrown errors are not modelled. The duplicate list is kept with repeats, as `validationErrors` lists it.
- Object keys: builtin keys of `Object.prototype` (such as a header called `constructor`) are not modelled. Nor is the engine ordering integer-like keys first in `Object.keys`.
- Consolidate.GroupQuestionRows: reads every row first and groups afterwards, where the source reads and groups in one pass. Each row's reading depends on nothing else, so the result is the same.
- Parsing.Sheet: a worksheet is its header cells and body rows with column numbers. A body row may list empty cells; the row reader skips them, as `eachCell` does not visit them. The row numbering of ExcelJS, and the lookup of sheets by name, are not modelled.
- Validator: the validator is split into one method per block of checks. Each is proved against its function, and `ValidateQuestion` composes them in the source's order.
- Validator.RequiredPrefix: every type's rule is assumed to have a `required` list, as each rule in the rule table does. A rule without one would throw in the source.
- Schema: the rule table of server/schemas/validationRules is a parameter. The child-id regex and the table-value regex are predicates of that parameter, not regular expressions.
- Importer.Validators: the transaction takes its two validators as a parameter. `Importer.SchemaValidators` supplies the real ones.
- Auth.RequireAuth: token verification (jose's `jwtVerify`, with its issuer and audience) and the Prisma lookups are parameters. Verification is a function returning no payload when it throws, the states are a set of ids with a code table, and the users are a map by subject.
- Auth.BypassAuthorize: the upserts of the development state and user are taken as inputs. These are `stateIdOf`, the id of the state with a code, and `newUserId`, the id a created user gets. Their writes to the database are not modelled.
- Auth.Request: `headers.get` is case-insensitive in the source, so `authorization` and `Authorization` are one field.
- Auth: the `email` claim read from a verified token is never used afterwards, and is not modelled.
- Regular expressions throughout are spelled out as predicates on characters.
- Text lengths are sequence lengths. JavaScript's UTF-16 code-unit counting matters only outside the basic plane, and it is not modelled.
- Tabular: the preview is modelled as its parsing and the titles and row labels it renders (`Tabular.Render`). The React markup, the text inputs and the `onAnswer` callback are user interface.
