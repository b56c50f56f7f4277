# Sales-maturity radar: a Dafny model

This project models the core of *venda-maturidade-radar*, a web application
that diagnoses the maturity of a company's B2B sales area. The model covers
these parts:

- **The catalog.** Five maturity levels and ten categories of one question each. Every question has five options, scored 1 to 5.
- **The questionnaire.** It walks through the flattened question list, stores one answer per question, and averages the answers of each category into a score record.
- **The result page.** It computes the overall score, the current and next level, and up to three improvement recommendations for the lowest-scoring categories.
- **The PDF report.** The radar chart, the per-category analysis table, the recommendation cards, on four pages.
- **The admin page.** It joins leads with their results, filters them by a search term, exports CSV, computes the summary cards and clears the data.
- **The respondent report.** It shows level badges, follow-up recommendations, a WhatsApp number and per-category cards.
- **The radar component.** It builds the chart data.
- **The lead-capture form.** It validates the input and tracks the submitting state.

There is one module per source file: `MaturityData`, `Questionario`,
`Resultado`, `PdfGenerator`, `Admin`, `RelatorioRespondente`, `MaturityRadar`
and `LeadCaptureForm`. Shared helpers sit in their own modules:

- `Wrappers`: `Option`.
- `Text`: the JavaScript string operations the pages use.
- `Records`: a `Record<string, number>` as an insertion-ordered list of entries, because `Object.entries` order decides ties in the result page's sort.
- `Means`: averages and their bounds.
- `Leads`: the lead and result rows, the level badge and the category label.

Some source entities change in place and become classes whose methods are
proved against specification functions: the questionnaire's state, the admin
page's lead list, the form's submitting flag and the jsPDF document.
Everything else is functions and lemmas.

JavaScript semantics are written out explicitly:

- `Math.round(x)` is `floor(x + 0.5)`.
- The mean of an empty record (`NaN`) is `None`.
- `x || 0` on a missing key gives 0.
- `parseInt` is applied only to the decimal strings the questionnaire stores.
- `Array.prototype.sort` with `a - b` is a stable insertion sort.

Several inputs are passed in as parameters:

- Database results, `confirm`/`prompt` answers and `onSubmit` outcomes.
- Date and number formatting.
- The zod e-mail check.

## Model

| member | source | states |
|---|---|---|
| Text.ParseNatToString | src/pages/Questionario.tsx:54 | `parseInt` of the decimal text of a stored option value gives back that value |
| Text.NatToStringInjective | src/pages/Questionario.tsx:25-30 | two different option values are stored as two different strings |
| Text.ToLower | src/pages/Admin.tsx:88-90 | `toLowerCase` keeps the length, leaves no upper-case letter, and changes nothing else |
| Text.ToLowerIdempotent | src/pages/Admin.tsx:88-90 | lower-casing twice is lower-casing once |
| Text.ContainsIffOccurs | src/pages/Admin.tsx:88-90 | `includes` holds exactly when the needle occurs at some position |
| Text.Split | src/components/MaturityRadar.tsx:16 | `split` yields at least one part and no part holds the separator |
| Text.JoinSplit | src/components/MaturityRadar.tsx:16 | joining the parts of a split gives the text back |
| Text.SplitJoin | src/pages/Admin.tsx:106-109 | splitting a join of separator-free parts gives the parts back |
| Text.JoinPrefix | src/components/MaturityRadar.tsx:16 | joining the first k parts gives a prefix of joining all of them |
| Text.Take | src/pages/Resultado.tsx:29 | `slice(0, n)` keeps the first min(n, length) elements unchanged |
| Text.Filter | src/pages/Admin.tsx:87 | `filter` returns no more elements than it was given, each passing the test |
| Text.FilterMembers | src/pages/Admin.tsx:87-91 | an element survives `filter` exactly when it was present and passes the test |
| Text.FilterSubsequence | src/pages/Admin.tsx:87-91 | `filter` keeps the original order |
| Text.FilterCount | src/pages/Admin.tsx:261-263 | the length of a filtered list is the number of elements passing the test |
| Text.CountWhereExtremes | src/pages/Admin.tsx:261-263 | that number is at most the length, zero exactly when no element passes and the full length exactly when all do |
| Text.Gather | src/pages/Resultado.tsx:31-40 | collecting the values a step yields keeps at most one per element |
| Text.GatherHas | src/pages/Resultado.tsx:31-40 | every value yielded for some element is collected |
| Text.IndexOf | src/pages/Admin.tsx:441 | the first position of a character, `None` exactly when it is absent |
| Text.ReplaceFirst | src/pages/Admin.tsx:441 | `replace` with a string pattern changes only the first occurrence, and nothing when there is none |
| Records.Get | src/components/MaturityRadar.tsx:17 | a key lookup is `None` exactly when the key is absent, otherwise the value of an entry with that key |
| Records.Put | src/pages/Questionario.tsx:58 | assigning a key keeps the key order and appends a new key at the end |
| Records.GetPut | src/pages/Questionario.tsx:58 | after assigning `k`, reading `k` gives the new value and every other key is unchanged |
| Records.PutKeepsDistinct | src/pages/Questionario.tsx:58 | assignment never duplicates a key |
| Means.Mean | src/pages/Resultado.tsx:19 | the mean is undefined (`NaN`) exactly for an empty list |
| Means.MeanWithin | src/pages/Admin.tsx:244-250 | the mean of values in [lo, hi] lies in [lo, hi] |
| Leads.LevelEntry | src/pages/Admin.tsx:159-173 | reading the `colors` or `labels` object yields an entry of it for levels 1 to 5 and nothing for any other level |
| Leads.MaturityLevelBadge | src/pages/Admin.tsx:158-180 | the badge reads "Nível n - label"; outside 1..5 the label is "N/A" and the colour grey (the respondent report at RelatorioRespondente.tsx:82-104 uses the same badge) |
| Leads.BadgesDistinguishLevels | src/pages/Admin.tsx:159-173 | the five levels have pairwise different labels and colours, none of them the fallback |
| Leads.CategoryLabel | src/pages/Admin.tsx:441 | only the first hyphen of a category id becomes a space; the text before and after it is kept |
| MaturityData.FindLevelIn | src/pages/Resultado.tsx:20 | `find` returns a level with the id, `None` exactly when no level has it |
| MaturityData.FindLevel | src/pages/RelatorioRespondente.tsx:197-199 | a level is found exactly for ids 1..5, and it is the level at position id - 1 |
| MaturityData.FindCategoryIn | src/pages/Resultado.tsx:32 | `find` returns a category with the id, `None` exactly when no category has it |
| MaturityData.LevelsInOrder | src/data/maturityData.ts:30-101 | there are five levels with ids 1 to 5 in order |
| MaturityData.SalesEfficiencyIncreases | src/data/maturityData.ts:30-101 | the efficiency multiplier runs from 1.0 to 2.5 and strictly increases with the level |
| MaturityData.FourCharacteristics | src/data/maturityData.ts:30-101 | every level lists four characteristics |
| MaturityData.CategoriesShape | src/data/maturityData.ts:103-284 | ten categories of one question each |
| MaturityData.CategoryIdsDistinct | src/data/maturityData.ts:103-284 | category ids are pairwise distinct, so the score record has one key per category |
| MaturityData.QuestionIdsListDistinct | src/data/maturityData.ts:103-284 | the ten question ids differ pairwise |
| MaturityData.QuestionIdsOfCatalog | src/data/maturityData.ts:103-284 | category i holds the single question with the i-th question id |
| MaturityData.QuestionIdsDistinct | src/data/maturityData.ts:103-284 | question ids are distinct across the whole catalog, so answers never collide |
| MaturityData.FirstFiveWellFormed | src/data/maturityData.ts:103-193 | the first five categories have five options valued 1..5, each value equal to its level |
| MaturityData.LastFiveWellFormed | src/data/maturityData.ts:194-284 | the same for the last five categories |
| MaturityData.CatalogWellFormed | src/data/maturityData.ts:103-284 | every question of the catalog has the options 1..5 with value equal to level |
| MaturityData.OptionValuesInRange | src/data/maturityData.ts:24-28 | in a well-formed catalog every option value lies in 1..5 |
| Questionario.AllQuestionsLength | src/pages/Questionario.tsx:14-20 | the flattened list has one entry per question of the catalog |
| Questionario.AllQuestionsAt | src/pages/Questionario.tsx:14-20 | question j of category c sits at offset(c) + j, tagged with its category's name and id |
| Questionario.CatalogQuestionCount | src/pages/Questionario.tsx:14-20 | the catalog yields ten questions |
| Questionario.ProgressOf | src/pages/Questionario.tsx:23 | progress lies in (0, 100] and reaches 100 exactly at the last question |
| Questionario.CategoryMeans | src/pages/Questionario.tsx:48-62 | one entry per category, in catalog order, holding the category's mean answer |
| Questionario.ScoresAreCategoryMeans | src/pages/Questionario.tsx:48-62 | the record built by the `forEach` assignments equals that per-category list of means |
| Questionario.CategoryScoreBounds | src/pages/Questionario.tsx:52-57 | answers within [lo, hi] give a category mean within [lo, hi] |
| Questionario.ScoresWithinZeroFive | src/pages/Questionario.tsx:52-57 | with stored values at most 5, every category score lies in [0, 5] |
| Questionario.ScoresWithinOneFive | src/pages/Questionario.tsx:52-57 | when every question is answered with 1..5, every category score lies in [1, 5] |
| Questionario.UnansweredCountsAsZero | src/pages/Questionario.tsx:51-54 | for any category and answers, leaving a question unanswered gives the same category mean as answering it "0" |
| Questionario.Questionnaire.constructor | src/pages/Questionario.tsx:11-12 | starts at the first question with no answers |
| Questionario.Questionnaire.Progress | src/pages/Questionario.tsx:23 | the progress bar lies in (0, 100] and is full exactly at the last question |
| Questionario.Questionnaire.HandleAnswer | src/pages/Questionario.tsx:25-30 | stores the chosen value under the current question's id, which enables "next" (line 64) |
| Questionario.Questionnaire.HandleNext | src/pages/Questionario.tsx:32-40 | advances by one, or at the last question navigates with the computed scores and the answers |
| Questionario.Questionnaire.HandlePrevious | src/pages/Questionario.tsx:42-46 | steps back one question, and does nothing at the first |
| Questionario.Questionnaire.CalculateScores | src/pages/Questionario.tsx:48-62 | the loop computes the record of per-category means |
| Resultado.OverallScoreBounds | src/pages/Resultado.tsx:19 | the overall score of a non-empty record is defined and lies within the bounds of its scores |
| Resultado.OverallScoreOfEqualScores | src/pages/Resultado.tsx:19 | equal category scores give that same overall score |
| Resultado.Round | src/pages/Resultado.tsx:20 | `Math.round` picks the integer within half a unit, rounding halves up |
| Resultado.RoundHalves | src/pages/Resultado.tsx:20 | halves round towards +infinity, including -0.5 to 0 |
| Resultado.CurrentLevel | src/pages/Resultado.tsx:20 | the level whose id is the rounded overall score, or level 1 when there is none |
| Resultado.NextLevel | src/pages/Resultado.tsx:21 | the level one above the rounded score, `None` exactly when that is not 1..5 |
| Resultado.LevelProgression | src/pages/Resultado.tsx:20-21 | for scores in [1, 5] the current level is within half a unit of the score, and there is a next level exactly below level 5 |
| Resultado.LowScoreFallsBack | src/pages/Resultado.tsx:20-21 | a score rounding to 0 falls back to level 1 and still offers level 1 as the next level |
| Resultado.SortByScoreSorted | src/pages/Resultado.tsx:27-28 | the sort orders entries by ascending score and is a permutation |
| Resultado.SortByScoreStable | src/pages/Resultado.tsx:27-28 | entries with equal scores keep their record order |
| Resultado.CountBelowSort | src/pages/Resultado.tsx:27-28 | sorting does not change how many entries lie below a score |
| Resultado.CountBelowPosition | src/pages/Resultado.tsx:27-29 | in sorted order, at most p entries lie below the entry at position p |
| Resultado.LookupSuggestions | src/pages/Resultado.tsx:99 | the suggestion list of an id, `None` exactly when the table has no such key |
| Resultado.SuggestionsIn | src/pages/Resultado.tsx:99 | the lookup with an empty-list fallback: empty for an unknown id, and for a listed id exactly the list its first row holds |
| Resultado.SuggestionsFor | src/pages/Resultado.tsx:46-99 | in the shipped table a category has suggestions exactly when it has a row, and then three |
| Resultado.SuggestionTableShape | src/pages/Resultado.tsx:46-97 | the table has one row of three suggestions per catalog category, in catalog order |
| Resultado.SuggestionsCoverCatalog | src/pages/Resultado.tsx:46-97 | a category id has three suggestions exactly when it is in the catalog |
| Resultado.OrDefault | src/pages/Resultado.tsx:101 | `text || fallback`: a non-empty text is kept, an empty one is replaced by the fallback |
| Resultado.ImprovementSuggestion | src/pages/Resultado.tsx:99-101 | the fallback text when there are no suggestions or the score is negative; otherwise one of the category's suggestions, or the fallback when that entry is empty; never empty while the fallback is not |
| Resultado.SuggestionBands | src/pages/Resultado.tsx:100-101 | scores in [0,1), [1,2) and from 2 up pick the first, second and third suggestion, each with the empty-entry fallback |
| Resultado.SuggestionTableEntriesNonEmpty | src/pages/Resultado.tsx:46-97 | no suggestion in the shipped table is empty text |
| Resultado.ShippedSuggestionsNonEmpty | src/pages/Resultado.tsx:46-101 | for a catalog category and a non-negative score the page shows one of that category's own suggestions, never the fallback |
| Resultado.ShippedSuggestionListed | src/pages/Resultado.tsx:46-101 | for an id the shipped table lists and a non-negative score, the suggestion is one of that id's entries |
| Resultado.ShippedSuggestionNeverEmpty | src/pages/Resultado.tsx:99-101 | with the shipped table and fallback, the suggestion text is never empty |
| Resultado.RecommendationFor | src/pages/Resultado.tsx:31-39 | an entry is recommended exactly when its category exists and its score is below 4, with that score, the category's name and its suggestion |
| Resultado.RecommendationsFromChosen | src/pages/Resultado.tsx:31-40 | every recommendation comes from one of the chosen entries |
| Resultado.ChosenRecommended | src/pages/Resultado.tsx:31-40 | every chosen entry that qualifies is recommended |
| Resultado.RecommendationsFromGathered | src/pages/Resultado.tsx:31-40 | the `forEach` with conditional `push` keeps, in order, exactly the recommendations the entries yield |
| Resultado.RecommendationsAscending | src/pages/Resultado.tsx:27-40 | recommendations from sorted entries list ascending scores |
| Resultado.RecommendationsProperties | src/pages/Resultado.tsx:23-43 | at most three recommendations; each is below 4, names a catalog category and has at most two scores below it; they ascend; every qualifying entry among the three lowest appears |
| Resultado.GetRecommendations | src/pages/Resultado.tsx:23-43 | the `forEach` loop produces the recommendations of the three lowest entries |
| Resultado.View | src/pages/Resultado.tsx:19-44 | there is no overall score exactly when no category was scored; with scores in 1..5 the current level is one of the five and a next level exists exactly below level 5; at most three recommendations, each for a score below 4 |
| Resultado.ResultPageAsWritten | src/pages/Resultado.tsx:12-17 | as written: a visit without navigation state throws, one without scores redirects home, otherwise the view renders |
| Resultado.ResultPage | src/pages/Resultado.tsx:12-17 | as intended: never throws; redirects home exactly when there are no scores |
| Resultado.ResultPageDiffersOnlyWithoutState | src/pages/Resultado.tsx:12-17 | the two agree whenever navigation state exists, and differ on a direct visit |
| Resultado.EmptyScoresRender | src/pages/Resultado.tsx:14-21 | an empty record renders (it is truthy) with no overall score, level 1, no next level and no recommendations |
| Admin.FindResult | src/pages/Admin.tsx:75 | a lead's result is one with its lead id, `None` exactly when there is none |
| Admin.JoinResults | src/pages/Admin.tsx:73-76 | one row per lead, in order, each with that lead's result |
| Admin.FilterLeads | src/pages/Admin.tsx:87-91 | the search keeps only matching leads |
| Admin.FilterLeadsExactly | src/pages/Admin.tsx:87-91 | a lead is listed exactly when it matches on name, e-mail or company, case-insensitively, in the original order |
| Admin.EmptyTermKeepsAll | src/pages/Admin.tsx:87-91 | an empty search lists every lead |
| Admin.FilterIgnoresTermCase | src/pages/Admin.tsx:87-91 | lower-casing the search term changes nothing |
| Admin.LevelCell | src/pages/Admin.tsx:102 | the level cell is "N/A" exactly without a result or with level 0 |
| Admin.CsvRow | src/pages/Admin.tsx:94-103 | one cell per header |
| Admin.QuoteCells | src/pages/Admin.tsx:108 | every cell is wrapped in double quotes |
| Admin.CsvLines | src/pages/Admin.tsx:106-109 | a header line plus one line per lead |
| Admin.CsvOfNoLeads | src/pages/Admin.tsx:105-109 | exporting no leads gives the empty text, since there are no headers |
| Admin.CsvWithoutResult | src/pages/Admin.tsx:101-102 | a lead without a result exports "N/A" for score and level |
| Admin.DataLineRoundTrip | src/pages/Admin.tsx:108 | a data line of quote-free cells parses back into those cells |
| Admin.DataLineWithoutLineFeed | src/pages/Admin.tsx:108 | a data line of line-feed-free cells holds no line feed |
| Admin.HeaderLineWithoutLineFeed | src/pages/Admin.tsx:107 | the header line holds no line feed |
| Admin.LinesWithoutLineFeed | src/pages/Admin.tsx:106-109 | no exported line holds a line feed when no cell does |
| Admin.CsvRoundTrip | src/pages/Admin.tsx:106-109 | splitting the export at line feeds gives the header line and, for each lead, a line that parses back into its row |
| Admin.UnescapedQuoteBreaksLine | src/pages/Admin.tsx:108 | a cell holding a double quote is not escaped, so its line no longer parses |
| Admin.ResultScores | src/pages/Admin.tsx:247 | one overall score per lead that has a result |
| Admin.AverageScore | src/pages/Admin.tsx:244-250 | the average is shown exactly when some lead has a result |
| Admin.SummaryCards | src/pages/Admin.tsx:233-250 | the "with result" card counts exactly the leads with a result, and their average lies within the bounds of their scores |
| Admin.TodayCount | src/pages/Admin.tsx:261-263 | the "today" card equals the number of leads created on the given day, counted one by one; it is 0 exactly when none was and all leads exactly when all were |
| Admin.AdminPage.constructor | src/pages/Admin.tsx:39-40 | the page starts with no leads, loading |
| Admin.AdminPage.FetchLeads | src/pages/Admin.tsx:48-85 | a failed leads query keeps the list, otherwise it becomes the joined rows (a failed results query leaves leads without a result); loading ends |
| Admin.AdminPage.HandleClearAllData | src/pages/Admin.tsx:120-156 | deletion is requested exactly after confirmation and the answer "SIM"; a failed delete keeps the list, a successful one reloads it |
| RelatorioRespondente.FollowupFor | src/pages/RelatorioRespondente.tsx:110-143 | levels 1..5 have four follow-up actions each, other levels none |
| RelatorioRespondente.FollowupRecommendations | src/pages/RelatorioRespondente.tsx:106-144 | no result gives no actions; a result at levels 1..5 gives four, any other level none |
| RelatorioRespondente.ReportLevel | src/pages/RelatorioRespondente.tsx:197-199 | the level shown is the stored level when it is 1..5, and none otherwise |
| RelatorioRespondente.DigitsOnly | src/pages/RelatorioRespondente.tsx:155 | `replace(/\D/g, "")` leaves only digits and never lengthens the number |
| RelatorioRespondente.DigitsOnlyKeepsDigits | src/pages/RelatorioRespondente.tsx:155 | exactly the digits survive, in their original order |
| RelatorioRespondente.DigitsOnlyIdempotent | src/pages/RelatorioRespondente.tsx:155 | stripping twice is stripping once, and an all-digit number is unchanged |
| RelatorioRespondente.Percentage | src/pages/RelatorioRespondente.tsx:361-362 | a non-number score shows 0%, a number shows score / 5 * 100 |
| RelatorioRespondente.PercentageBounds | src/pages/RelatorioRespondente.tsx:361-362 | a score in [0, 5] gives a percentage in [0, 100], full exactly at 5 |
| RelatorioRespondente.DisplayName | src/pages/RelatorioRespondente.tsx:360-368 | a known category shows its name, an unknown id its hyphen-replaced id |
| RelatorioRespondente.CatalogNamesShown | src/pages/RelatorioRespondente.tsx:360-368 | every catalog category is shown by its own name |
| RelatorioRespondente.CategoryNamesNonEmpty | src/pages/RelatorioRespondente.tsx:368 | no catalog name is empty, so the fallback never applies to a catalog id |
| RelatorioRespondente.CategoryCards | src/pages/RelatorioRespondente.tsx:359-368 | one card per stored score, in order, with display name, numeric score and percentage |
| MaturityRadar.RadarData | src/components/MaturityRadar.tsx:15-19 | one point per category, in order, labelled with the shortened name, full mark 5 |
| MaturityRadar.RadarScores | src/components/MaturityRadar.tsx:17 | a point carries its category's recorded score, or 0 when the record lacks it |
| MaturityRadar.RadarWithinDomain | src/components/MaturityRadar.tsx:17-41 | scores in [0, 5] place every point inside the radius axis' domain [0, 5] |
| MaturityRadar.ShortLabelIsPrefix | src/components/MaturityRadar.tsx:16 | the shortened label is a prefix of the name |
| MaturityRadar.ShortLabelKeepsShortNames | src/components/MaturityRadar.tsx:16 | names of at most two words are kept whole |
| MaturityRadar.ShortLabelIdempotent | src/components/MaturityRadar.tsx:16 | a shortened label has at most two words and shortening it again changes nothing |
| LeadCaptureForm.Validate | src/components/LeadCaptureForm.tsx:12-18 | the form is accepted exactly when there are no errors; the name and phone errors appear exactly when those fields are too short |
| LeadCaptureForm.DefaultsRejected | src/components/LeadCaptureForm.tsx:33-39 | the empty defaults are rejected with at least four errors |
| LeadCaptureForm.LeadForm.constructor | src/components/LeadCaptureForm.tsx:29 | the form starts idle with nothing called |
| LeadCaptureForm.LeadForm.HandleSubmit | src/components/LeadCaptureForm.tsx:42-50 | `onSubmit` runs with the buttons disabled; `onClose` follows only a completed submit; the flag is lowered on both paths |
| LeadCaptureForm.LeadForm.Submit | src/components/LeadCaptureForm.tsx:69 | an invalid form reports its errors and calls nothing; a valid one goes through the submit handler |
| PdfGenerator.PdfDoc.constructor | src/utils/pdfGenerator.ts:114 | a new document has one empty page |
| PdfGenerator.PdfDoc.AddPage | src/utils/pdfGenerator.ts:215 | the current page is finished and a new empty one begins |
| PdfGenerator.PdfDoc.Draw | src/utils/pdfGenerator.ts:38 | a drawing call adds one element to the current page only |
| PdfGenerator.GuideCircles | src/utils/pdfGenerator.ts:34-46 | five concentric guide circles |
| PdfGenerator.GuideCircleRadii | src/utils/pdfGenerator.ts:34-46 | circle k has radius radius·k/5; the outermost has the full radius and is the only one labelled; the radii increase |
| PdfGenerator.Axes | src/utils/pdfGenerator.ts:54-84 | one axis per category |
| PdfGenerator.RadarPoints | src/utils/pdfGenerator.ts:54-68 | one data point per category |
| PdfGenerator.PointWithinOuterCircle | src/utils/pdfGenerator.ts:63-64 | a missing score puts the point at the centre, and scores in [0, 5] keep it inside the outer circle |
| PdfGenerator.Edges | src/utils/pdfGenerator.ts:87-94 | one polygon edge per point |
| PdfGenerator.EdgeTarget | src/utils/pdfGenerator.ts:92 | each edge goes to the next point, the last one back to the first |
| PdfGenerator.Walk | src/utils/pdfGenerator.ts:92 | following edges never leaves the polygon's points |
| PdfGenerator.EdgesCloseThePolygon | src/utils/pdfGenerator.ts:87-94 | following k edges from point 0 reaches point k, and n edges close the polygon; no points draw no edges |
| PdfGenerator.Dots | src/utils/pdfGenerator.ts:96-100 | one dot per point |
| PdfGenerator.DrawGuideCircles | src/utils/pdfGenerator.ts:33-46 | the loop draws exactly the five guide circles on the current page |
| PdfGenerator.DrawAxes | src/utils/pdfGenerator.ts:54-84 | the loop draws the axes and collects the data points |
| PdfGenerator.DrawPolygon | src/utils/pdfGenerator.ts:86-101 | the loops draw the closing edges and then the dots, and nothing for no points |
| PdfGenerator.DrawRadarChart | src/utils/pdfGenerator.ts:21-102 | the radar adds circles, axes, edges and dots to the current page and touches no other page |
| PdfGenerator.TruncateName | src/utils/pdfGenerator.ts:268-269 | names over 16 characters become their first 16 plus "...", others are kept |
| PdfGenerator.TruncateNameIdempotent | src/utils/pdfGenerator.ts:268-269 | truncating a truncated name changes nothing |
| PdfGenerator.BarWidthBounds | src/utils/pdfGenerator.ts:279-284 | a score in [0, 5] fills between none and all of the 20-wide bar, all of it exactly at 5 |
| PdfGenerator.AnalysisRows | src/utils/pdfGenerator.ts:247-287 | one table row per category |
| PdfGenerator.AxesMatchRows | src/utils/pdfGenerator.ts:247-287 | axis k's caption is row k's number; even rows are striped; a stripe ends before the next row begins |
| PdfGenerator.DrawAnalysisRows | src/utils/pdfGenerator.ts:247-287 | the loop with `currentY += 11` draws exactly the table rows |
| PdfGenerator.RecommendationCards | src/utils/pdfGenerator.ts:323-359 | one card per recommendation |
| PdfGenerator.CardsDisjoint | src/utils/pdfGenerator.ts:326-358 | cards 40 high spaced 50 apart never overlap |
| PdfGenerator.DrawRecommendationCards | src/utils/pdfGenerator.ts:323-359 | the loop with `currentY += 50` draws exactly the cards |
| PdfGenerator.ReportPages | src/utils/pdfGenerator.ts:104-400 | the report has four pages: cover; radar, table and impact box; cards; call to action |
| PdfGenerator.GenerateMaturityReport | src/utils/pdfGenerator.ts:104-400 | a fresh document whose pages are exactly those four |
| PdfGenerator.FourPages | src/utils/pdfGenerator.ts:215-362 | four pages; the third holds one card per recommendation; the second holds 5 circles, 4 elements per category and the impact box |

## Left out

- Network, database and browser effects: Supabase queries and deletes, `navigate`, toasts, `window.open`, `window.print`, `confirm`/`prompt`, blob download and async timing. Their outcomes are parameters of the methods that use them.
- The `catch` branches for unexpected exceptions in `fetchLeads` and `handleClearAllData`. Only reported query errors are modelled.
- Date formatting (`format`, `toLocaleDateString`) and number formatting (`toFixed`) are function parameters. The zod e-mail check is a predicate parameter.
- Everything visual in the PDF: colours, fonts, the texts of the cover, impact box and call to action, `splitTextToSize`, upper-casing the level name, the report date, page width and height, and the radar's x/y origin. Positions computed with `cos`/`sin` are kept as an axis index and a distance from the centre.
- Strings are sequences of characters, not UTF-16 code units. Lengths of names with characters outside the Basic Multilingual Plane may differ from JavaScript's.
- Text.ToLower: only ASCII and Latin-1 letters are lower-cased.
- Text.ParseDigits: only applies to digit strings. `parseInt` of other text (NaN) is outside the model, because the questionnaire stores only option values.
- Resultado.SortByScore: `NaN` scores are not modelled; scores are reals.
- Resultado.GetRecommendations, Resultado.View and PdfGenerator.GenerateMaturityReport take the catalog and the suggestion source (the per-category lists and the fallback text) as parameters. The page uses the shipped constants.
- The remaining JSX markup of every page (layout, icons, dialogs) is not modelled.
- RelatorioRespondente: the lead and result come from database queries and are parameters. The URL-encoding of the WhatsApp message is not modelled.

## Findings

| source | as written | input that shows it | evidently intended | confidence | as-written member | corrected member |
|---|---|---|---|---|---|---|
| src/pages/Resultado.tsx:12 | `location.state` is destructured before the `if (!scores)` check, so a null state throws | a direct visit to the result page, with no navigation state | redirect home, as the check on line 14 does for missing scores | not executed | Resultado.ResultPageAsWritten | Resultado.ResultPage |
