# Lab report analysis: a verified model

This project is a Dafny model of the rule-based core of a lab-report backend. The backend turns the text of an uploaded report into classified health parameters, and then into a recommendation bundle. The model covers:

- **Analyzer** (`src/utils/healthAnalyzer.js`):
  1. the reference catalog `PARAMETER_DEFINITIONS` and the name lookup `findParameterDefinition`;
  2. the status classification `determineStatus`;
  3. the line × pattern × match extraction loop of `parseHealthParameters`;
  4. the bundle built by `generateAIRecommendations`: the three status buckets, the message tables, the category tips, the tiered risk assessment and the summary text.
- **Controller helpers** (`src/controllers/labReport.controller.js`):
  - the text-range `determineStatus`;
  - the table-driven `manualParseHealthParameters`;
  - the text-length gates and the choice of parameters in `uploadLabReport`;
  - the name grouping of `getUserHealthTrends`.
- **Text helpers** (`src/utils/ocrProcessor.js`): `cleanExtractedText` and `detectHealthContent`.

JavaScript values are modelled explicitly:

- numbers are `NaN | Num(real)`, with false comparisons on NaN;
- `parseFloat` reads the longest numeral prefix;
- strings are `seq<char>`;
- `x || fallback` for table lookups.

The code that changes state step by step becomes methods with loops, each proved equal to a specification function. These are the extraction loop, the pushes into the bundle lists, the tips loop, the `+=`-built summary, the risk if-chain, the manual parse loop and the trend grouping. The properties the code promises are lemmas about those functions.

Modules:

| module | what it holds |
|---|---|
| `Wrappers` | `Option`. |
| `JsText` | Lower-casing, trimming, `includes`, `split`, and decimal printing of numbers. |
| `JsNumber` | Number values, truthiness and `parseFloat`. |
| `Catalog` | The catalog, the lookup, and the lookup as written. |
| `Classification` | The analyzer's `determineStatus`. |
| `Extraction` | `parseHealthParameters`. |
| `Risk` | `calculateOverallRisk`. |
| `Summary` | `generateSummary`. |
| `CategoryTips` | `generateCategoryTips`. |
| `Recommendations` | `generateAIRecommendations` and the message tables. |
| `OcrText` | `cleanExtractedText` and `detectHealthContent`. |
| `LabReportController` | The controller helpers. |

## Specification functions

Most operations are specified by a function without a contract of its own. Their properties are the lemmas listed under "## Model".

| function | source | what it computes |
|---|---|---|
| `Catalog.Lookup` | src/utils/healthAnalyzer.js:115-145 | `findParameterDefinition` over own keys: the exact key, then the first partial match, then the abbreviation table. |
| `Catalog.LookupAsWritten` | src/utils/healthAnalyzer.js:115-145 | `findParameterDefinition` as written: `PARAMETER_DEFINITIONS[cleanName]` with inherited `Object.prototype` members counted as hits, then the own-key `Lookup`. |
| `Extraction.MakeRecord` | src/utils/healthAnalyzer.js:78-101 | The record one match yields, if any. |
| `Extraction.Extract` | src/utils/healthAnalyzer.js:56-113 | The records of `parseHealthParameters`, line by line, pattern by pattern, match by match. |
| `Recommendations.Recommend` | src/utils/healthAnalyzer.js:162-232 | The bundle of `generateAIRecommendations`. |
| `Recommendations.CriticalMessage` | src/utils/healthAnalyzer.js:234-250 | `getCriticalMessage`: the table entry for the lower-cased name, or `"Critical " + name + " levels detected. …"`. |
| `Recommendations.AbnormalMessage` | src/utils/healthAnalyzer.js:252-277 | `getAbnormalMessage`: the high table for status `high` and the low table otherwise, by the lower-cased name, or the capitalised name with that direction's fallback tail. |
| `LabReportController.RangeStatus` | src/controllers/labReport.controller.js:184-204 | The text-range `determineStatus`. |
| `LabReportController.ManualRecords` | src/controllers/labReport.controller.js:141-182 | The records `manualParseHealthParameters` collects. |
| `LabReportController.UploadReport` | src/controllers/labReport.controller.js:45-119 | The outcome of `uploadLabReport` for given extractor output and save result. |
| `LabReportController.Trends` | src/controllers/labReport.controller.js:330-342 | The name grouping of `getUserHealthTrends`. |
| `OcrText.CleanExtractedText` | src/utils/ocrProcessor.js:115-123 | `cleanExtractedText`. |
| `OcrText.DetectHealthContent` | src/utils/ocrProcessor.js:126-154 | `detectHealthContent`. |

## Model

| member | source | states |
|---|---|---|
| Catalog.FindParameterDefinition | src/utils/healthAnalyzer.js:115-145 | The loop with early returns gives exactly `Lookup(name)`. The order is: an own key, then the first partial match in declaration order, then the abbreviation table, else null. |
| Catalog.FindKeyAt | src/utils/healthAnalyzer.js:4-54 | A key declared at position i, and at no earlier position, gets the definition declared there. |
| Catalog.FindKeyNone | src/utils/healthAnalyzer.js:119 | The direct lookup fails exactly when no entry has that key. |
| Catalog.FirstPartialAt | src/utils/healthAnalyzer.js:124-128 | The partial step returns the first entry, in declaration order, for which the name contains the key or the key contains the name. |
| Catalog.FirstPartialNone | src/utils/healthAnalyzer.js:124-128 | The partial step fails exactly when no key is contained in the name or contains it. |
| Catalog.LookupExact | src/utils/healthAnalyzer.js:116-121 | An exact key on the trimmed, lower-cased name wins over every partial match. |
| Catalog.LookupPartial | src/utils/healthAnalyzer.js:123-128 | Without an exact key, the first partially matching entry in declaration order is returned. |
| Catalog.LookupFallback | src/utils/healthAnalyzer.js:130-144 | Only with no key and no partial match is the abbreviation table consulted. If that fails too the result is null. |
| Catalog.LookupInCatalog | src/utils/healthAnalyzer.js:115-145 | Whatever the lookup of own keys finds is a definition declared in the catalog. |
| Catalog.CatalogWellFormed | src/utils/healthAnalyzer.js:4-54 | Every entry meets several conditions:<ul><li>its category is one of the six groups;</li><li>it has a critical band;</li><li>critical min ≤ min ≤ max ≤ critical max;</li><li>its max is positive;</li><li>only lipid entries have min 0;</li><li>a min other than 0 lies strictly above the critical min.</li></ul> |
| Catalog.DiabetesWellFormed | src/utils/healthAnalyzer.js:5-10 | The diabetes entries are well formed. |
| Catalog.LipidWellFormed | src/utils/healthAnalyzer.js:12-19 | The lipid entries are well formed. |
| Catalog.BloodCountWellFormed | src/utils/healthAnalyzer.js:21-31 | The blood-count entries are well formed. |
| Catalog.RedCellEntriesWellFormed | src/utils/healthAnalyzer.js:22-26 | The first five blood-count entries are well formed. |
| Catalog.CellCountEntriesWellFormed | src/utils/healthAnalyzer.js:27-31 | The remaining blood-count entries are well formed. |
| Catalog.LiverWellFormed | src/utils/healthAnalyzer.js:33-39 | The liver entries are well formed. |
| Catalog.KidneyWellFormed | src/utils/healthAnalyzer.js:41-46 | The kidney entries are well formed. |
| Catalog.ThyroidWellFormed | src/utils/healthAnalyzer.js:48-53 | The thyroid entries are well formed. |
| Catalog.NotAKey | src/utils/healthAnalyzer.js:119 | A name that has no key's shape (longer than 17 characters, or containing `_`) is never found directly. |
| Catalog.PrototypeKeyLookup | src/utils/healthAnalyzer.js:119-120 | As written, the name `__proto__` makes the direct step return the inherited `Object.prototype`, not a catalog entry. |
| Classification.NameInjective | src/utils/healthAnalyzer.js:147-160 | The five status strings are distinct. |
| Classification.DetermineStatus | src/utils/healthAnalyzer.js:147-160 | Status is `normal` when there is no critical band or a bound is 0. Otherwise:<ul><li>`critical_low` iff value ≤ critical min;</li><li>`critical_high` iff value ≥ critical max and value is not critical-low;</li><li>`low` and `high` strictly inside the critical band, outside the normal band;</li><li>`normal` inside both bands.</li></ul> |
| Classification.GradedIffSomeValueAbnormal | src/utils/healthAnalyzer.js:148 | A definition can give a status other than `normal` exactly when it has a critical band and non-zero bounds. |
| Classification.CatalogGrading | src/utils/healthAnalyzer.js:13-19 | A catalog entry is graded exactly when its min is not 0. Every ungraded entry is a lipid entry. (Also line 148.) |
| Classification.LipidGrading | src/utils/healthAnalyzer.js:12-19 | Among the lipid keys only `hdl` and `hdl cholesterol` are graded. (Also line 148.) |
| Classification.CatalogBands | src/utils/healthAnalyzer.js:151-159 | For a graded catalog entry:<ul><li>a value inside the normal band and below the critical max is `normal`;</li><li>values at or beyond a critical bound are critical.</li></ul> |
| Classification.NestedBands | src/utils/healthAnalyzer.js:147-160 | For a graded definition with critical min < min ≤ max ≤ critical max:<ul><li>a value inside the normal band and below the critical max is `normal`;</li><li>a value at or below the critical min is `critical_low`;</li><li>a value at or above the critical max is `critical_high`.</li></ul> |
| Classification.HdlTopOfBandIsCritical | src/utils/healthAnalyzer.js:17 | HDL 200 is its normal max, and it is `critical_high`. (Also lines 151-152.) |
| Classification.CholesterolAlwaysNormal | src/utils/healthAnalyzer.js:13 | Cholesterol is `normal` for every value. (Also line 148.) |
| Classification.GlucoseStatuses | src/utils/healthAnalyzer.js:6 | Glucose readings 50, 69.5, 100, 250 and 400 are critical_low, low, normal, high and critical_high. (Also lines 147-160.) |
| Extraction.RecordOf | src/utils/healthAnalyzer.js:78-101 | One match gives a record iff its trimmed, lower-cased name is found and its number is not NaN. That record has the matched name and the parsed value. Its unit is the lower-cased matched unit, or the definition's unit when none was matched. Its band, category and status come from the found definition. It carries both ids and the trimmed line. |
| Extraction.AddRecord | src/utils/healthAnalyzer.js:84-106 | The list grows by exactly the record of the match, when there is one. |
| Extraction.AddMatches | src/utils/healthAnalyzer.js:76-107 | The match loop appends the records of the matches in match order. |
| Extraction.AddLine | src/utils/healthAnalyzer.js:75-108 | The pattern loop appends the records of patterns 0 to 3 in pattern order. |
| Extraction.ParseHealthParameters | src/utils/healthAnalyzer.js:56-113 | The nested loops give exactly `Extract`: the records line by line, then pattern by pattern, then match by match. |
| Extraction.CleanNameStable | src/utils/healthAnalyzer.js:78 | The lookup's own cleaning does not change a name that was already trimmed and lower-cased. (Also line 116.) |
| Extraction.MakeRecordSpec | src/utils/healthAnalyzer.js:78-101 | A match gives a record iff its name is found and its number parses. The record then has these fields:<ul><li>band, category and status from the found definition;</li><li>the matched name;</li><li>the parsed value;</li><li>the lower-cased unit, or the definition's unit when none was matched;</li><li>the ids;</li><li>the trimmed line.</li></ul> |
| Extraction.MatchRecordsSound | src/utils/healthAnalyzer.js:76-107 | Every record of a pattern's matches is built from one of those matches. |
| Extraction.PatternRecordsSound | src/utils/healthAnalyzer.js:75-108 | Every record of a line comes from a match of one of its patterns. |
| Extraction.TextRecordsSound | src/utils/healthAnalyzer.js:74-109 | Every record comes from a match on one of the lines. |
| Extraction.ExtractSound | src/utils/healthAnalyzer.js:56-113 | Every returned record agrees with its catalog definition and carries the given ids. It is built from a match of one of the four patterns on one of the text's lines. |
| Extraction.RecorderSound | src/utils/healthAnalyzer.js:85-102 | A record the builder yields agrees with the catalog and carries the ids. |
| Extraction.TextRecordsAppend | src/utils/healthAnalyzer.js:74-109 | Records follow line order: the records of two blocks of lines are concatenated. |
| Extraction.MatchRecordsKeep | src/utils/healthAnalyzer.js:77-107 | Every accepted match's record is kept. |
| Extraction.PatternRecordsPrefix | src/utils/healthAnalyzer.js:75-108 | The records of the first `a` patterns are a prefix of those of the first `b`, for `a <= b`: later patterns only append. |
| Extraction.PatternRecordsGrow | src/utils/healthAnalyzer.js:75-108 | Running more patterns only adds records. |
| Extraction.CountUpTo | src/utils/healthAnalyzer.js:75-108 | A record accepted under pattern p is present once the patterns up to p have run. |
| Extraction.MatchedTwiceKeptTwice | src/utils/healthAnalyzer.js:74-109 | There is no deduplication: a span matched by two patterns yields its record at least twice. |
| Extraction.TextRecordsAround | src/utils/healthAnalyzer.js:74-109 | The records of `a + [l] + b` are those of `a`, then those of line `l`, then those of `b`. |
| Extraction.LineRecordsInText | src/utils/healthAnalyzer.js:74-109 | Every record of one line, with its multiplicity, is among the records of the whole text. |
| Extraction.ExtractComplete | src/utils/healthAnalyzer.js:74-109 | Every match of any pattern on any line, whose name is found and whose number parses, has its record in the result of `parseHealthParameters`. |
| Extraction.ExtractKeepsTwice | src/utils/healthAnalyzer.js:74-109 | A match that two patterns both find on a line gives its record at least twice in the result of `parseHealthParameters`: nothing is deduplicated. |
| Risk.Ratio | src/utils/healthAnalyzer.js:341-343 | A ratio is NaN exactly when the total is 0; otherwise it lies in [0, 1]. |
| Risk.TiersInOrder | src/utils/healthAnalyzer.js:348-360 | The first tier that holds decides the result. The order is high/8, moderate/6, moderate/5, low-moderate/3, else low/0. |
| Risk.CalculateOverallRisk | src/utils/healthAnalyzer.js:340-363 | The if-chain gives exactly `Assess` of the three list lengths, ratios included. |
| Risk.RatioAbove | src/utils/healthAnalyzer.js:348-357 | `count / total > k` iff total > 0 and count > k · total. |
| Risk.ScoreNamesRisk | src/utils/healthAnalyzer.js:345-360 | Each score goes with one label: 8 high, 6 or 5 moderate, 3 low-moderate, 0 low. |
| Risk.HighTier | src/utils/healthAnalyzer.js:348 | The risk is `high` iff there are at least 3 critical values or more than 30% are critical. |
| Risk.AnyCriticalAtLeastModerate | src/utils/healthAnalyzer.js:348-353 | Any critical value gives at least `moderate` with score at least 6. |
| Risk.NoCriticalAtMostFive | src/utils/healthAnalyzer.js:354-360 | Without critical values the score is at most 5. |
| Risk.NothingClassifiedIsLow | src/utils/healthAnalyzer.js:341-345 | With no classified value both ratios are NaN and the risk is low/0. |
| Risk.MoreCriticalNeverLowers | src/utils/healthAnalyzer.js:348-360 | One more critical value never lowers the score. |
| Risk.MoreAttentionCanLowerRisk | src/utils/healthAnalyzer.js:348-353 | 1 critical with 2 attention values is `high`; 1 critical with 3 attention values is `moderate`. |
| Summary.GenerateSummary | src/utils/healthAnalyzer.js:365-402 | The `+=` chain gives exactly the concatenation of `Sentences`. |
| Summary.SentenceHeads | src/utils/healthAnalyzer.js:371-381 | The four counting sentences start with different characters. |
| Summary.ParagraphHeads | src/utils/healthAnalyzer.js:384-399 | Risk paragraphs and closing lines start with a blank line and have distinct emoji. |
| Summary.CountLinesPresent | src/utils/healthAnalyzer.js:371-381 | Which counting sentences appear:<ul><li>the header is first;</li><li>the critical count appears iff there are critical values;</li><li>the attention count appears iff there are attention values;</li><li>the normal count always appears.</li></ul> |
| Summary.SentencesPresent | src/utils/healthAnalyzer.js:371-399 | Besides the counting sentences, the summary has the label's risk paragraph. It has the urgent closing iff there are critical values, and the follow-up closing iff there are attention values and no critical ones. |
| Summary.ConcatStartsWith | src/utils/healthAnalyzer.js:371 | The concatenation starts with its first part. |
| Summary.SummaryOpensWithHeader | src/utils/healthAnalyzer.js:371 | The summary opens with the header. |
| CategoryTips.GenerateCategoryTips | src/utils/healthAnalyzer.js:279-338 | The set-and-loop gives exactly `TipsFor(Categories(parameters))`. |
| CategoryTips.CategoriesMembers | src/utils/healthAnalyzer.js:281 | A category is listed iff some parameter has it. |
| CategoryTips.CategoriesDistinct | src/utils/healthAnalyzer.js:281 | No category is listed twice. |
| CategoryTips.CategoriesPrefix | src/utils/healthAnalyzer.js:281 | Categories are listed in first-occurrence order: a prefix's categories are a prefix. |
| CategoryTips.TipsForMembers | src/utils/healthAnalyzer.js:328-335 | Under any tip table, a group is listed iff its category is listed and has a tip list. The group then carries the capitalised name and that list. |
| CategoryTips.TipsForAll | src/utils/healthAnalyzer.js:328-335 | Under any tip table, when every category has tips there is one group per category, in order. |
| CategoryTips.CapitalizeInjective | src/utils/healthAnalyzer.js:331 | Capitalising keeps apart two different words that start with a lower-case letter. |
| CategoryTips.TipTableLowerKeys | src/utils/healthAnalyzer.js:283-326 | Every key of `categoryTips` starts with a lower-case letter. |
| CategoryTips.CapitalizedKeysDistinct | src/utils/healthAnalyzer.js:331 | Two different keys of a table whose keys start with a lower-case letter stay different once capitalised. |
| CategoryTips.TipsForDistinct | src/utils/healthAnalyzer.js:328-335 | Under a table whose keys start with a lower-case letter, distinct categories give groups with distinct names. |
| CategoryTips.TipTableKeys | src/utils/healthAnalyzer.js:283-326 | The tip table covers exactly the catalog's six categories. |
| CategoryTips.ExtractedReportTips | src/utils/healthAnalyzer.js:279-338 | For extracted records there is one group per listed category, each with its tip list, and no name is repeated. |
| Recommendations.GenerateAIRecommendations | src/utils/healthAnalyzer.js:162-232 | The method gives exactly `Recommend(parameters)`. |
| Recommendations.PushCritical | src/utils/healthAnalyzer.js:185-195 | Pushes one critical alert per critical parameter, in order. |
| Recommendations.PushAttention | src/utils/healthAnalyzer.js:198-208 | Pushes one attention alert per high or low parameter, in order. |
| Recommendations.PushNormal | src/utils/healthAnalyzer.js:211-219 | Pushes one note per normal parameter, in order. |
| Recommendations.SelectMembers | src/utils/healthAnalyzer.js:180-182 | A parameter is in a bucket iff its status passes that bucket's filter. |
| Recommendations.SelectAppend | src/utils/healthAnalyzer.js:180-182 | Filtering keeps input order. |
| Recommendations.BucketsPartition | src/utils/healthAnalyzer.js:180-182 | The three filters are pairwise exclusive. A status is in none of them iff it has no `critical`, is not `high` or `low`, and is not `normal`. |
| Recommendations.SelectPartition | src/utils/healthAnalyzer.js:180-182 | The three buckets and the unsorted rest add up to the total. |
| Recommendations.SummaryNormalCount | src/utils/healthAnalyzer.js:369 | The summary's normal count is the normal bucket plus the statuses no bucket takes. |
| Recommendations.StatusBuckets | src/utils/healthAnalyzer.js:152-182 | The analyzer's status names fall into buckets as follows:<ul><li>critical_low and critical_high go in critical;</li><li>low and high go in attention;</li><li>normal goes in normal;</li><li>none is left unsorted.</li></ul> |
| Recommendations.ExtractedRecordsSorted | src/utils/healthAnalyzer.js:95 | Catalog-built records leave nothing unsorted, and the three buckets add up to the total. (Also lines 180-182.) |
| Recommendations.EmptyReport | src/utils/healthAnalyzer.js:165-177 | No parameters give empty lists and tips, risk `low`, and the fixed notice. |
| Recommendations.ListsOfReport | src/utils/healthAnalyzer.js:180-219 | For a non-empty report, `critical`, `attention` and `normal` are the entry lists of the three buckets. (Also line 231.) |
| Recommendations.CriticalEntries | src/utils/healthAnalyzer.js:180-195 | The critical entry list (`critical` of a non-empty report) holds, in input order, one entry per critical parameter. Each entry has urgency `immediate` and the critical message. |
| Recommendations.AttentionEntries | src/utils/healthAnalyzer.js:181-208 | The attention entry list (`attention` of a non-empty report) holds, in input order, one entry per high or low parameter. Each entry has urgency `moderate` and the abnormal message. |
| Recommendations.NormalEntries | src/utils/healthAnalyzer.js:182 | The note list (`normal` of a non-empty report) holds, in input order, one note per normal parameter, reading "<Name> is within normal range". (Also lines 211-219.) |
| Recommendations.RiskOfReport | src/utils/healthAnalyzer.js:222-227 | For a non-empty report:<ul><li>the tips are those of its categories;</li><li>the risk is the tier of the bucket sizes, and any critical value makes it high or moderate;</li><li>the summary contains the risk paragraph and opens with the header.</li></ul> |
| Recommendations.CriticalMessageByKey | src/utils/healthAnalyzer.js:234-250 | The table is read by the lower-cased name. A name absent from it gets exactly the generic fallback `"Critical " + name + " levels detected. …"`, which quotes the name. |
| Recommendations.AbnormalMessageByKey | src/utils/healthAnalyzer.js:252-277 | The high table is used for status `high` and the low table otherwise, by the lower-cased name. A name absent from the chosen table gets exactly that direction's generic fallback: the capitalised name followed by " is elevated. …" for `high`, or by " is below normal. …" otherwise. |
| LabReportController.FalsyIsUnknown | src/controllers/labReport.controller.js:185 | An empty range, a NaN value or a 0 value gives `Unknown`. |
| LabReportController.UnknownExactly | src/controllers/labReport.controller.js:184-204 | The result is `Unknown` iff one of these holds: the range is empty; the value is falsy; or the lower-cased range has no `<`, no `>`, and no `-` with an `a - b` band. |
| LabReportController.UpperLimitForm | src/controllers/labReport.controller.js:188-190 | A range containing `<` compares against the first numeral: below gives `Normal`, otherwise `High`, so a value equal to the limit or a limit that does not parse gives `High`. |
| LabReportController.LowerLimitForm | src/controllers/labReport.controller.js:191-193 | Without `<`, a range containing `>` gives `Normal` above the limit and `Low` otherwise. |
| LabReportController.BandForm | src/controllers/labReport.controller.js:194-201 | A `min - max` range gives `Normal` inside, `Low` below and `High` above. |
| LabReportController.VerdictsUnsorted | src/controllers/labReport.controller.js:185-203 | The four Title-case verdicts are what the function returns, and the analyzer's bucket filters take none of them. |
| LabReportController.RunEnd | src/controllers/labReport.controller.js:189 | The greedy `[\d.]+` run ends within the string. |
| LabReportController.SpaceEnd | src/controllers/labReport.controller.js:195 | The greedy `\s*` run ends within the string. |
| LabReportController.RunEndOf | src/controllers/labReport.controller.js:189 | A run of n numeral characters followed by a non-numeral ends after n characters. |
| LabReportController.BandOfRange | src/controllers/labReport.controller.js:195 | `a - b` with two numerals matches as the pair (a, b). |
| LabReportController.LimitOfRange | src/controllers/labReport.controller.js:189 | `< a` finds the numeral a. |
| LabReportController.NumeralBand | src/controllers/labReport.controller.js:194-201 | A band written as two numerals classifies a non-zero value against their values. |
| LabReportController.NumeralLimit | src/controllers/labReport.controller.js:187-192 | A sign and a numeral are left unchanged by lower-casing, and the limit is the numeral's value. |
| LabReportController.AtLimitIsHigh | src/controllers/labReport.controller.js:188-190 | A value equal to its own upper limit is `High`. |
| LabReportController.TriglyceridesAtLimit | src/controllers/labReport.controller.js:154 | The triglycerides mapping (150 against "< 150") is `High`. (Also lines 188-190.) |
| LabReportController.HaemoglobinStatus | src/controllers/labReport.controller.js:155-185 | The haemoglobin mapping's empty value parses to NaN and is `Unknown`. |
| LabReportController.CollectManualRecords | src/controllers/labReport.controller.js:158-180 | The loop gives exactly `ManualRecords` over the mappings it is given (the ten of the table, at both callers) and the lower-cased text. |
| LabReportController.ManualParseAsWritten | src/controllers/labReport.controller.js:141-182 | As written the function returns `undefined`. |
| LabReportController.ManualParse | src/controllers/labReport.controller.js:141-182 | With the missing return, the result is the collected records. |
| LabReportController.ManualRecordsMembers | src/controllers/labReport.controller.js:160-180 | A record is produced iff some search term of its mapping occurs in the lower-cased text. It is that mapping's record; there are no more records than mappings. |
| LabReportController.ManualRecordsAppend | src/controllers/labReport.controller.js:160 | Records follow mapping order. |
| LabReportController.SearchTermFound | src/controllers/labReport.controller.js:161 | A lower-case search term occurring in the text marks the mapping found. |
| LabReportController.GlucoseFound | src/controllers/labReport.controller.js:149-179 | A text containing "glucose" gets the glucose record. |
| LabReportController.GlucoseValue | src/controllers/labReport.controller.js:149-164 | The glucose value is the table's 110, whatever the text says. |
| LabReportController.GatesNest | src/controllers/labReport.controller.js:48-71 | Parsing is attempted iff the trimmed text has more than 20 characters. A trimmed length of 11 to 20 counts as extracted but not parsed. |
| LabReportController.Accept | src/controllers/labReport.controller.js:74-81 | Parsed records are taken iff there are any. The manual result is taken iff there are none and it is a non-empty array. |
| LabReportController.FailedExtraction | src/controllers/labReport.controller.js:52-55 | A failed extraction keeps the error text, is not marked extracted, and gives no health content, parameters or recommendations. (Also line 119.) |
| LabReportController.UploadSpec | src/controllers/labReport.controller.js:45-119 | Recommendations exist iff there are all of these:<ul><li>an extracted text longer than 20 characters once trimmed;</li><li>a non-empty parse;</li><li>a successful save.</li></ul>They are those of the parsed records. No manual record is accepted. Health content exists iff the text is extracted. The response text is at most the first 1000 characters. |
| LabReportController.ManualFallbackLost | src/controllers/labReport.controller.js:76-81 | A text that mentions glucose has a manual record. As written, no record is accepted; with the return, the manual records would be. (Also line 182.) |
| LabReportController.GroupTrends | src/controllers/labReport.controller.js:330-342 | The loop throws (None) iff a name is an inherited object member. Otherwise it gives exactly `Trends(parameters)`. |
| LabReportController.TrendsSpec | src/controllers/labReport.controller.js:330-342 | The keys are exactly the names. Each group holds the points of the parameters of that name, in input order. |
| LabReportController.PointsNamedAbsent | src/controllers/labReport.controller.js:331-335 | A name no parameter has gets no points. |
| LabReportController.PointsNamedCount | src/controllers/labReport.controller.js:335 | Each parameter is appended exactly once: a group is as long as the number of parameters with its name. |
| OcrText.CollapseSpaces | src/utils/ocrProcessor.js:119 | Collapsing whitespace never lengthens the text. |
| OcrText.KeepAllowed | src/utils/ocrProcessor.js:121 | Filtering characters never lengthens the text. |
| OcrText.BlankRunEnd | src/utils/ocrProcessor.js:120 | The `\n\s*\n` match ends within the string. |
| OcrText.CollapseSpacesPlain | src/utils/ocrProcessor.js:119 | After collapsing, the only whitespace left is the plain space. |
| OcrText.JoinBlankLinesNoNewline | src/utils/ocrProcessor.js:120 | Without a newline the blank-line step changes nothing. |
| OcrText.KeepAllowedChars | src/utils/ocrProcessor.js:121 | Every kept character was in the input and is allowed. |
| OcrText.CleanExtractedTextSpec | src/utils/ocrProcessor.js:115-123 | For the cleaned text:<ul><li>empty input gives "";</li><li>the blank-line step is a no-op;</li><li>the output is no longer than the input and trimmed at both ends;</li><li>every character is a word character, a space or one of the listed punctuation;</li><li>there is no newline or tab.</li></ul> |
| OcrText.CleanKeepsDoubleSpace | src/utils/ocrProcessor.js:119-121 | Filtering runs after collapsing, so "a % b" cleans to "a  b" with two spaces. |
| OcrText.FoundKeywordsMembers | src/utils/ocrProcessor.js:143-146 | A keyword is reported iff its lower case occurs in the lower-cased text. There are no more than the keywords. |
| OcrText.FoundKeywordsAppend | src/utils/ocrProcessor.js:144-146 | Reported keywords keep keyword order. |
| OcrText.DetectHealthContentSpec | src/utils/ocrProcessor.js:126-154 | Empty text gives (false, 0, [], 0). Otherwise:<ul><li>health-related iff at least 2 keywords are found;</li><li>confidence · 29 = 100 · count, within [0, 100];</li><li>textLength is the input length.</li></ul> |
| OcrText.TwoKeywordsSuffice | src/utils/ocrProcessor.js:143-149 | Two different keywords in the text make it health-related. |
| OcrText.TwoFound | src/utils/ocrProcessor.js:144-146 | Two different present keywords are both reported. |
| OcrText.KeywordInKeyword | src/utils/ocrProcessor.js:127-131 | A lower-case keyword containing another lower-case keyword contains it after lower-casing too. |
| OcrText.AbnormalIsHealthRelated | src/utils/ocrProcessor.js:128-149 | A text containing "abnormal" is health-related, because "normal" matches too. |
| OcrText.LaboratoryIsHealthRelated | src/utils/ocrProcessor.js:129-149 | A text containing "laboratory" is health-related, because "lab" matches too. |

## Left out

- The four regular expressions of `parseHealthParameters` (src/utils/healthAnalyzer.js:63-72) are a parameter of the model: a matcher that yields, per line and pattern, the three capture groups of each match. JavaScript's regex backtracking is not modelled.
- Extraction.Extract: the `\w`-run shape of the name group is not imposed on the matcher. So the model lets a matcher produce any name, which the real patterns constrain.
- File, PDF and image text extraction (Tesseract, pdf2json, fs), Cloudinary, the database (`LabReport.create`, `insertMany`, `find`, `sort`), Express, file cleanup and logging are I/O. The upload model takes the extractor's outcome and whether the save succeeded as inputs.
- `getUserHealthTrends`: the date window and the query are I/O. The grouping takes the queried parameters as input, with `createdAt` as an integer.
- LabReportController.Trends: the key order of `trendData` in the response is not modelled, because a Dafny `map` has no order. Only the key set and the order within each group are.
- Recommendations.GenerateAIRecommendations: the `extractedText` argument is accepted and unused, as in the source. The guard `!parameters` cannot fire: line 163 reads `parameters.length` first. The model takes a sequence, so a missing argument is not modelled.
- LabReportController.UploadSpec: the try/catch around parsing is not modelled (the abstract matcher cannot throw).
- LabReportController.UploadSpec: with the missing return added, manual records would go to `generateAIRecommendations`. The bundle is modelled only over analyzer records, so that path is shown up to acceptance only.
- Numbers are exact reals, not IEEE doubles. `parseFloat` reads an optional sign, digits and one decimal point. It skips leading whitespace first. It does not read exponents or `Infinity`, and the modelled inputs contain neither.
- Lower- and upper-casing are ASCII only, and lengths count characters, not UTF-16 code units. The emoji in the summary are escapes of the source's code points. The warning sign is two code points, U+26A0 followed by U+FE0F.
- Catalog.FindParameterDefinition and Extraction.ParseHealthParameters: extraction uses the own-key lookup, which is the corrected half of the first finding. In the source, the names `constructor` and `__proto__` pass the direct step at src/utils/healthAnalyzer.js:119-120 as inherited members. Lines 86-98 then push a record for them with status `normal`, because `!paramDef.critical` holds at line 148. That record's `category`, both `referenceRange` bounds and, when no unit was matched, `unit` are undefined. The model yields no record for these names.
- Prototype members are modelled for the catalog (as a finding) and for the trend grouping. The message tables (`messages[key]`) and `categoryTips[category]` would pick up inherited members for names such as `constructor`. Recommendations.CriticalMessage, Recommendations.AbnormalMessage and CategoryTips.GroupFor are modelled as reading own keys only.
- Concrete status lemmas for the manual mappings other than triglycerides, glucose's value and haemoglobin are not stated one by one. The generic forms (NumeralBand, NumeralLimit, UpperLimitForm, LowerLimitForm, BandForm) cover every mapping's range shape.
- The other handlers of the controller, the routes, the models, the environment check and `validateHealthParameters` (imported but not defined in the analyzer) hold no modelled behaviour.

## Findings

| source | as written | input that shows it | evidently intended | confidence | as-written member | corrected member |
|---|---|---|---|---|---|---|
| src/utils/healthAnalyzer.js:119-120 | The direct lookup tests `PARAMETER_DEFINITIONS[cleanName]`, which also finds members inherited from `Object.prototype`. | The name `__proto__` (a `\w` run, so the patterns can capture it) returns `Object.prototype` as a definition. | Only declared catalog keys are found. | not executed | Catalog.PrototypeKeyLookup | Catalog.LookupInCatalog |
| src/controllers/labReport.controller.js:141-182, 76-81 | `manualParseHealthParameters` builds its records and falls off the end without `return`, so the fallback at line 77 always yields `undefined`. The check at line 80 then rejects it. | A text mentioning "glucose" for which the analyzer finds no parameter. | The collected records are returned and accepted. | not executed | LabReportController.ManualFallbackLost | LabReportController.ManualParse |
