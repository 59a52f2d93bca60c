# Brand Watch dashboard core, modelled in Dafny

Brand Watch asks a language model for conversational keywords per topic,
measures how often a brand shows up in AI search answers for those keywords,
and charts the figures on a dashboard. This project models the parts of it
that compute something:

- **Backend handler** (`conversational_keywords.dfy`, module `ConversationalKeywords`):
  - keyword generation per topic: keep existing keywords, otherwise merge the model's three intent lists;
  - the ChatGPT statistics aggregated over the per-keyword searches, with the growing history;
  - injection of that record into every result;
  - request validation and order preservation in the HTTP handler.

  The language model, the web search and the clock are parameters: `llm`, `search` and `clock` (one reading per topic).
- **Response transformer** (`data_transformer.dfy`, module `DataTransformer`):
  - turns the backend's results into view items with positional ids;
  - defaults every missing field;
  - picks the headline ("aggregated") engine.
- **Performance table** (`topic_keyword_performance.dfy`, module `TopicKeywordPerformance`):
  - the derived data: processed rows, case-insensitive search, pages and the page count;
  - the automatic selection effect and toggling;
  - the chart series and the line colours;
  - a `PerformanceTable` class holding the component's state (`searchTerm`, `selectedIds`, `currentPage`).
- **Entry forms**:
  - the shared topic-list operations (`topic_forms.dfy`, module `TopicForms`);
  - the landing page with its submission and saved session record (`home_page.dfy`, class `HomePage.Home`);
  - the older keyword form (`keyword_form.dfy`, class `KeywordForm.Form`).
- **Support modules**:
  - `Wrappers` (`Option`, `Result`);
  - `Seqs` (filtering, subsequences, JavaScript index normalisation);
  - `Text` (numerals, ASCII lower-casing, substring search, `trim`, string order);
  - `Stats` (the engine-statistics record and name lookup).

Modelling choices:

- **Two names for the same fields.** The performance table reads `weeklyHistory`/`week`, while the type file and the transformer write `history`/`timepoint`. The model uses one record, `Stats.EngineStats`, with `history`/`timepoint`, and the table reads those.
- **UI engine mappings** are sequences of `(name, stats)` pairs in key order. `Stats.Lookup` finds the first entry for a name.
- **The backend's Go map** is a Dafny `map` wrapped in `Option`. `None` stands for a nil map.
- **Backend records** reuse `Stats.EngineStats`. The Go struct has no link counters, so the ChatGPT entry the handler builds has them at 0. Engines that arrive in a request keep whatever link counters they carry in the model, while Go's JSON decoding would drop them.
- **`avgVisibilityPosition`** is a `real` that is passed through unchanged.
- **Go's `/`** on integers truncates toward zero; `GoDiv` writes that out.
- **`toLowerCase`** is modelled on ASCII letters only.
- **`trim`** removes the ECMAScript whitespace and line-terminator characters.
- **`sort()` on strings** compares character codes lexicographically.

## Model

| member | source | states |
|---|---|---|
| Stats.Lookup | ui/src/components/TopicKeywordPerformance.tsx:44 | the entry for a name is absent exactly when the name is not among the keys; a found value is stored under that name |
| Text.NatToString | ui/src/utils/dataTransformer.ts:30 | `String(index)` is a non-empty digit string without a leading zero |
| Text.ParseNatToString | ui/src/utils/dataTransformer.ts:30 | reading the decimal numeral of `n` back gives `n` |
| Text.NatToStringInjective | ui/src/utils/dataTransformer.ts:30 | two indices have the same numeral exactly when they are equal |
| Text.ToLower | ui/src/components/TopicKeywordPerformance.tsx:66 | lower-casing keeps the length and turns each ASCII capital into its small letter, leaving every other character as it is |
| Text.ToLowerIdempotent | ui/src/components/TopicKeywordPerformance.tsx:66 | lower-casing twice equals lower-casing once |
| Text.Contains | ui/src/components/TopicKeywordPerformance.tsx:66 | `includes` holds exactly when the needle occurs at some position of the haystack |
| Text.TrimEmptyIffBlank | ui/src/app/page.tsx:57 | `trim()` gives "" exactly when every character is whitespace |
| Text.LessIrreflexive | ui/src/components/TopicKeywordPerformance.tsx:107 | no string sorts before itself |
| Text.LessTransitive | ui/src/components/TopicKeywordPerformance.tsx:107 | the default string order is transitive |
| Text.LessTotal | ui/src/components/TopicKeywordPerformance.tsx:107 | of two different strings one sorts before the other |
| Text.LessAsymmetric | ui/src/components/TopicKeywordPerformance.tsx:107 | two strings never sort before each other |
| Text.InsertSorted | ui/src/components/TopicKeywordPerformance.tsx:107 | inserting into a strictly ascending list keeps it strictly ascending and adds exactly the new element |
| Text.StrictlySortedUnique | ui/src/components/TopicKeywordPerformance.tsx:107 | two strictly ascending lists with the same elements are equal, so the sorted timepoints are determined by the set |
| DataTransformer.ConvertHistory | ui/src/utils/dataTransformer.ts:41-45 | a missing or non-array history becomes []; an array keeps its length, with timepoint defaulting to '' and appearances to 0 per point |
| DataTransformer.ConvertStats | ui/src/utils/dataTransformer.ts:49-59 | every numeric field is copied when present and 0 otherwise; the history follows ConvertHistory |
| DataTransformer.ConvertedEngines | ui/src/utils/dataTransformer.ts:36-60 | the converted mapping has the same names in the same order, each value converted |
| DataTransformer.BuildSearchEngines | ui/src/utils/dataTransformer.ts:36-60 | the `forEach` that adds one key at a time builds exactly ConvertedEngines |
| DataTransformer.LookupConverted | ui/src/utils/dataTransformer.ts:63-67 | looking a name up after conversion gives the converted value of the raw lookup |
| DataTransformer.Transform | ui/src/utils/dataTransformer.ts:19-33 | one item per result, in order; item i has id String(i) and the topic as name |
| DataTransformer.TransformEmpty | ui/src/utils/dataTransformer.ts:12-15 | missing or empty results give no items |
| DataTransformer.TransformIdsDistinct | ui/src/utils/dataTransformer.ts:30 | no two items share an id |
| DataTransformer.TransformEngines | ui/src/utils/dataTransformer.ts:25-26 | an item's engine names are exactly the topic's, in order (none when searchEngines is missing), each converted |
| DataTransformer.TransformKeepsDistinctNames | ui/src/utils/dataTransformer.ts:36-60 | distinct engine names stay distinct after conversion |
| DataTransformer.TransformTopic | ui/src/utils/dataTransformer.ts:19-72 | an item's engine names are the topic's engine names, and it has aggregated figures exactly when the topic has an engine |
| DataTransformer.ChooseAggregated | ui/src/utils/dataTransformer.ts:62-68 | ChatGPT's figures win whenever present; any other figures are the first engine name's; with no engine names only ChatGPT can supply them (the three Aggregated lemmas state it per topic) |
| DataTransformer.AggregatedPrefersChatGPT | ui/src/utils/dataTransformer.ts:63-64 | with a ChatGPT engine, aggregated is its converted stats whatever other engines exist |
| DataTransformer.AggregatedFallsBackToFirst | ui/src/utils/dataTransformer.ts:65-67 | without ChatGPT, aggregated is the first engine in key order |
| DataTransformer.AggregatedAbsentWithoutEngines | ui/src/utils/dataTransformer.ts:62-68 | aggregated is absent exactly when the topic has no engines |
| TopicKeywordPerformance.Process | ui/src/components/TopicKeywordPerformance.tsx:41-58 | rows keep length, order, id, name and engines; aggregated is the ChatGPT stats or the all-zero record with empty history |
| TopicKeywordPerformance.ProcessAgreesWithTransformer | ui/src/components/TopicKeywordPerformance.tsx:41-58 | on transformed items the table shows the transformer's ChatGPT figures, and zeros where the transformer chose another engine or none |
| TopicKeywordPerformance.Filtered | ui/src/components/TopicKeywordPerformance.tsx:63-68 | every row whose lower-cased name contains the lower-cased term (every row for an empty term) is kept with all its copies, and no other row is kept |
| TopicKeywordPerformance.FilteredSpec | ui/src/components/TopicKeywordPerformance.tsx:63-68 | an empty term keeps everything; otherwise the result is an order-preserving subsequence holding the rows whose lower-cased name contains the lower-cased term (Filtered adds that every copy is kept) |
| TopicKeywordPerformance.SearchIgnoresCase | ui/src/components/TopicKeywordPerformance.tsx:66 | the term "SEO" matches the name "seo tools" |
| TopicKeywordPerformance.Paginated | ui/src/components/TopicKeywordPerformance.tsx:71-74 | page p is filtered[(p-1)*10 .. min(p*10, n)], at most 10 rows, empty when its start is at or past n |
| TopicKeywordPerformance.TotalPages | ui/src/components/TopicKeywordPerformance.tsx:149 | the page count is the least p with n <= 10p, which is 0 for no rows |
| TopicKeywordPerformance.PageNonEmptyIff | ui/src/components/TopicKeywordPerformance.tsx:71-74 | a page is non-empty exactly when its number is at most the page count |
| TopicKeywordPerformance.TwentyThreeItems | ui/src/components/TopicKeywordPerformance.tsx:149 | 23 rows make 3 pages and page 4 is empty |
| TopicKeywordPerformance.PageIdsAreDataIds | ui/src/components/TopicKeywordPerformance.tsx:71-74 | every id on any page of any search is an id of the data |
| TopicKeywordPerformance.PageIdsDistinct | ui/src/components/TopicKeywordPerformance.tsx:71-74 | distinct data ids stay distinct on every page |
| TopicKeywordPerformance.PageOfDistinctIdsIsDistinct | ui/src/components/TopicKeywordPerformance.tsx:71-74 | a page slice of rows with distinct ids has distinct ids |
| TopicKeywordPerformance.FilterRowIdsDistinct | ui/src/components/TopicKeywordPerformance.tsx:63-68 | the search filter keeps distinct ids distinct |
| TopicKeywordPerformance.NextSelection | ui/src/components/TopicKeywordPerformance.tsx:77-94 | the previous ids still in the data come first, in order, and all of them stay selected; after them come, in page order, the page's first 5 - (kept count) ids that are not selected yet: every one of them, and no other id |
| TopicKeywordPerformance.SelectionKeepsValidIds | ui/src/components/TopicKeywordPerformance.tsx:77-94 | the pruned previous selection (an order-keeping subsequence) comes first; a previously selected id stays selected exactly when it is still a data id; every selected id is a data id |
| TopicKeywordPerformance.SelectionNoDuplicates | ui/src/components/TopicKeywordPerformance.tsx:77-94 | the effect introduces no duplicate ids |
| TopicKeywordPerformance.SelectionTopUpBound | ui/src/components/TopicKeywordPerformance.tsx:83-92 | a top-up happens only below 5 ids on a non-empty page and stops at 5; otherwise the pruned selection is kept |
| TopicKeywordPerformance.SelectionFromNothing | ui/src/components/TopicKeywordPerformance.tsx:83-89 | from an empty selection, the first five page ids are selected, or all of them on a page of fewer than five |
| TopicKeywordPerformance.SelectionIdempotent | ui/src/components/TopicKeywordPerformance.tsx:77-94 | running the effect again with the same data and page changes nothing |
| TopicKeywordPerformance.TopUpFillsFreeSlots | ui/src/components/TopicKeywordPerformance.tsx:77-94 | with two ids still selected and a three-row page, all three page ids are appended in page order |
| TopicKeywordPerformance.TopUpAlreadySelected | ui/src/components/TopicKeywordPerformance.tsx:83-88 | after an effect that leaves fewer than five ids, the page's leading ids are all selected already |
| TopicKeywordPerformance.Toggled | ui/src/components/TopicKeywordPerformance.tsx:142-146 | the id is selected afterwards exactly when it was not; other ids keep membership and relative order; a new id goes last |
| TopicKeywordPerformance.AppearancesAt | ui/src/components/TopicKeywordPerformance.tsx:112-113 | the appearances of the first point with that timepoint, or 0 when none has it |
| TopicKeywordPerformance.HistoryTimesMembers | ui/src/components/TopicKeywordPerformance.tsx:104 | a timepoint is collected from a history exactly when some point of it carries that timepoint |
| TopicKeywordPerformance.TimepointSetMembers | ui/src/components/TopicKeywordPerformance.tsx:101-105 | a timepoint is collected exactly when it occurs in some selected item's history |
| TopicKeywordPerformance.CollectTimepoints | ui/src/components/TopicKeywordPerformance.tsx:101-105 | the nested `forEach` loops collect exactly TimepointSet |
| TopicKeywordPerformance.SortTimepoints | ui/src/components/TopicKeywordPerformance.tsx:107 | the result is strictly ascending and holds exactly the set's elements |
| TopicKeywordPerformance.BuildRow | ui/src/components/TopicKeywordPerformance.tsx:109-115 | the row for a timepoint lists every selected item's name with its AppearancesAt value |
| TopicKeywordPerformance.ChartData | ui/src/components/TopicKeywordPerformance.tsx:97-117 | no selection gives []; otherwise one row per timepoint occurring in some selected item's history and no other, strictly ascending, each filled as BuildRow states |
| TopicKeywordPerformance.ItemColor | ui/src/components/TopicKeywordPerformance.tsx:120-134 | every colour is a palette colour, and the first ten indices get the palette's colours in order (ColorsCycle gives the repetition beyond) |
| TopicKeywordPerformance.ColorsCycle | ui/src/components/TopicKeywordPerformance.tsx:133 | colours repeat every ten lines |
| TopicKeywordPerformance.PaletteDistinct | ui/src/components/TopicKeywordPerformance.tsx:121-132 | the ten palette colours are different |
| TopicKeywordPerformance.PerformanceTable.constructor | ui/src/components/TopicKeywordPerformance.tsx:33-35 | empty search, nothing selected, page 1 |
| TopicKeywordPerformance.PerformanceTable.SyncSelection | ui/src/components/TopicKeywordPerformance.tsx:77-94 | the new selection is NextSelection of the old one, the data ids and the current page's ids; it holds data ids only and no duplicates when the old selection and the data ids had none |
| TopicKeywordPerformance.PerformanceTable.ToggleItemSelection | ui/src/components/TopicKeywordPerformance.tsx:136-147 | the selection becomes Toggled of the old selection |
| TopicKeywordPerformance.PerformanceTable.ChangeSearch | ui/src/components/TopicKeywordPerformance.tsx:245-248 | a new search term also resets the page to 1 |
| TopicKeywordPerformance.PerformanceTable.PreviousPage | ui/src/components/TopicKeywordPerformance.tsx:298 | the page goes down by one but never below 1 |
| TopicKeywordPerformance.PerformanceTable.NextPage | ui/src/components/TopicKeywordPerformance.tsx:310 | the page goes up by one but never past the page count |
| ConversationalKeywords.Tagged | backend/handlers/conversational_keywords.go:125-146 | each keyword paired with the intent, same length and order |
| ConversationalKeywords.AppendTagged | backend/handlers/conversational_keywords.go:125-130 | an append loop adds exactly the tagged keywords after what was there |
| ConversationalKeywords.MergedKeywords | backend/handlers/conversational_keywords.go:122-147 | every merged keyword carries one of the three intents (MergedGroups states the grouping) |
| ConversationalKeywords.MergedGroups | backend/handlers/conversational_keywords.go:122-147 | the merged list is as long as the three lists together, and selecting one intent gives back exactly that intent's list, in order |
| ConversationalKeywords.TopicWithKeywords | backend/handlers/conversational_keywords.go:95-155 | it fails exactly when the topic has no keywords and the model fails, with the model's error; a result keeps the topic and its engines, and a topic with keywords comes back unchanged |
| ConversationalKeywords.GenerateKeywordsForTopic | backend/handlers/conversational_keywords.go:95-155 | a topic with keywords is returned unchanged; otherwise the model's error is passed on, or the topic and its engines are kept with the merged keywords |
| ConversationalKeywords.StatsFromParsed | backend/handlers/conversational_keywords.go:230-242 | a keyword's appearances are 1 if the brand appeared, else 0; the other figures are copied and the history is empty |
| ConversationalKeywords.GoDiv | backend/handlers/conversational_keywords.go:337 | integer division truncating toward zero: the quotient times the divisor lies within one divisor of the dividend, on the dividend's side of 0 |
| ConversationalKeywords.ChatGPTStats | backend/handlers/conversational_keywords.go:245-347 | with keywords, the new history is the previous ChatGPT history plus one point at `now` carrying the total appearances |
| ConversationalKeywords.GenerateChatGPTSearchStats | backend/handlers/conversational_keywords.go:245-348 | the keyword loop, the searches and the summing loop compute exactly ChatGPTStats |
| ConversationalKeywords.SumResults | backend/handlers/conversational_keywords.go:314-331 | the count is the number of successful searches and the three running totals are their sums |
| ConversationalKeywords.ChatGPTStatsWithoutKeywords | backend/handlers/conversational_keywords.go:252-257 | without keywords the record is all zeros with an empty history, even when earlier ChatGPT history existed |
| ConversationalKeywords.ChatGPTHistoryGrowsByOne | backend/handlers/conversational_keywords.go:302-345 | with keywords the history is the previous ChatGPT history plus one point at `now` carrying the total appearances; with no successful search the counters are 0 |
| ConversationalKeywords.TotalAppearancesBounded | backend/handlers/conversational_keywords.go:326-338 | the total appearances lie between 0 and the number of successful searches, which is at most the number of keywords |
| ConversationalKeywords.AggregateOrderIndependent | backend/handlers/conversational_keywords.go:259-338 | in whatever order the concurrent searches deliver their outcomes, the total appearances, the mean brand count and the history are the same |
| ConversationalKeywords.InjectedTopicSpec | backend/handlers/conversational_keywords.go:352-357 | the result gets a map (made if nil) whose ChatGPT entry is the aggregated record; every other engine, the topic and the keywords are unchanged |
| ConversationalKeywords.InjectSearchEngineData | backend/handlers/conversational_keywords.go:350-360 | every element of the result array, in place, becomes its InjectedTopic, labelled with the clock reading taken for that element; the count and the order are unchanged |
| ConversationalKeywords.InjectAll | backend/handlers/conversational_keywords.go:401 | the collected results, injected with one clock reading each, keep their count, order and topics, each now with a ChatGPT entry |
| ConversationalKeywords.GenerateTopics | backend/handlers/conversational_keywords.go:389-399 | the topic loop yields exactly GenerateAll: every topic generated in request order, or the first error |
| ConversationalKeywords.GenerateAll | backend/handlers/conversational_keywords.go:389-398 | a successful run yields one result per topic |
| ConversationalKeywords.GenerateAllOk | backend/handlers/conversational_keywords.go:390-398 | when no generation fails there is one result per topic, in request order, each the topic's own generation result |
| ConversationalKeywords.GenerateAllErr | backend/handlers/conversational_keywords.go:390-397 | a failure reports the error of the first topic whose generation failed, all earlier topics having succeeded |
| ConversationalKeywords.HandleConversationalKeywords | backend/handlers/conversational_keywords.go:363-405 | an unreadable body gives 400 "Invalid request format"; no topics gives 400 "No topics provided"; the first generation error gives 500 with its text; otherwise 200 with one injected result per topic, in request order, each with a ChatGPT entry whose new point carries that topic's own clock reading |
| TopicForms.UpdatedTopics | ui/src/app/page.tsx:32-36 | the copy keeps the length and differs from the list only at the index, which holds the new value |
| TopicForms.Spliced | ui/src/app/page.tsx:45 | `splice(index, 1)` removes the element at an index in range, at length+index for a negative one down to -length, the first element for a more negative one (clamped to 0), and nothing past the end |
| TopicForms.SplicedCopy | ui/src/app/page.tsx:44-45 | copying and shifting the tail left computes exactly Spliced |
| TopicForms.RemovedField | ui/src/app/page.tsx:42-48 | with one field nothing is removed, otherwise Spliced; a non-empty list stays non-empty |
| TopicForms.NonBlankTopics | ui/src/app/page.tsx:57 | every topic that is not all whitespace is kept with all its copies, and no blank topic is kept |
| TopicForms.NonBlankTopicsSpec | ui/src/app/page.tsx:57 | the filter keeps the topics that are not all whitespace, in order, as a subsequence (NonBlankTopics adds that every copy is kept); it is idempotent and keeps a list without blank topics unchanged |
| TopicForms.BlankTopicDropped | ui/src/app/page.tsx:57 | a topic of three spaces is dropped |
| HomePage.RequestFor | ui/src/app/page.tsx:57-65 | a request is sent exactly when the domain is non-empty and some topic is not all whitespace; it carries the domain, description "" and the non-blank topics in order |
| HomePage.SubmitAsWritten | ui/src/app/page.tsx:50-88 | the submission as written: the saved record is {domain, filtered topics, results} exactly when a sent request got results; a thrown request shows the fixed failure text; an error response shows its message; a rejected submission leaves the form submitting |
| HomePage.Submitted | ui/src/app/page.tsx:50-88 | the intended submission: the same request, error and record, and the form is never left submitting |
| HomePage.RejectedSubmitStaysBusy | ui/src/app/page.tsx:52-87 | as written, whenever the guard rejects a submission, no request is sent and the form stays submitting |
| HomePage.BlankTopicLeavesButtonDisabled | ui/src/app/page.tsx:52-59 | with domain "example.com" and the single topic "   ", no request is sent and the code as written leaves the button disabled, while the corrected submission does not |
| HomePage.Home.constructor | ui/src/app/page.tsx:11-15 | empty domain, one empty topic field, not submitting, no error, nothing saved |
| HomePage.Home.HandleTopicChange | ui/src/app/page.tsx:32-36 | only field `index` changes, to the new value |
| HomePage.Home.AddTopicField | ui/src/app/page.tsx:38-40 | exactly one empty field is appended |
| HomePage.Home.RemoveTopicField | ui/src/app/page.tsx:42-48 | the fields become RemovedField of the old ones, and at least one field always remains |
| HomePage.Home.SubmitOutcome | ui/src/app/page.tsx:60-86 | results save the session record; a thrown request sets the fixed failure text; an error response sets its message; nothing else changes |
| HomePage.Home.HandleSubmit | ui/src/app/page.tsx:50-88 | the request, the submitting flag, the error and the saved record are those of Submitted; the results are cleared |
| KeywordForm.RequestFor | ui/src/components/KeywordForm.tsx:37-44 | a request is sent exactly when domain and description are non-empty and some topic is not all whitespace; it carries both and the non-blank topics in order |
| KeywordForm.Form.constructor | ui/src/components/KeywordForm.tsx:8-11 | empty domain and description, one empty topic field, no results |
| KeywordForm.Form.AddTopic | ui/src/components/KeywordForm.tsx:15-17 | exactly one empty field is appended |
| KeywordForm.Form.RemoveTopic | ui/src/components/KeywordForm.tsx:19-25 | the fields become RemovedField of the old ones, and at least one field always remains |
| KeywordForm.Form.UpdateTopic | ui/src/components/KeywordForm.tsx:27-31 | only field `index` changes, to the new value |
| KeywordForm.Form.HandleSubmit | ui/src/components/KeywordForm.tsx:33-53 | the request is RequestFor of the fields; a resolved response replaces the results with its data or nothing; a thrown one or a rejected submission leaves them unchanged |

## Left out

- Rendering, logging and timing are not modelled:
  - JSX markup;
  - `console`/`fmt` logging;
  - the 300 ms search debounce (the term is taken as already debounced);
  - react-query, `fetch` and the Echo server wiring.
- Browser storage and routing are not modelled. The saved session record is a field (`Home.saved`); the redirect to the dashboard is not modelled.
- The language-model and web-search calls and the JSON decoding of their output are parameters (`llm`, `search`). Their errors are the `Err` outcomes.
- The `llm` and `search` parameters are functions of their argument. Two calls with the same topic or keyword therefore get the same answer in the model. Go makes a fresh model call per keyword (conversational_keywords.go:269-275) and per topic (:389-394), and such repeated calls may answer differently; those runs are not modelled.
- `time.Now()` is read once per topic, inside `generateChatGPTSearchStats`; the handler takes the readings as `clock`, where `clock(i)` is the reading for topic `i`. Which instant each reading is, and that readings grow, are not modelled.
- The backend's goroutines, wait group, mutex and channels are not modelled. The searches run in keyword order. `AggregateOrderIndependent` shows the integer results and the history do not depend on that order.
- Floating-point arithmetic is not modelled:
  - `avgVisibilityPosition` is an exact `real`, so the mean's rounding and its dependence on summation order are not captured;
  - the one-decimal display is left out;
  - JavaScript's `|| 0` mapping a NaN to 0 is left out.
- The transformer's side effect on its input (it overwrites a missing history with `[]`) is not modelled; only the returned items are.
- A `null` engine entry, for which the transformer throws, is not modelled.
- A `null` entry in `results` or in an engine's `history` array also makes the transformer throw. The model has no null entries, so these throws are not modelled.
- Go's `int` is 64-bit, so the sums in `generateChatGPTSearchStats` (conversational_keywords.go:314-341) could in principle wrap around. `Sum`, `Aggregate` and `GoDiv` use unbounded integers and do not model that wrap-around.
- JavaScript's reordering of integer-like object keys is not modelled. Engine mappings keep key order as given.
- Chart rows list `(name, value)` pairs. Two selected items with the same name, which would overwrite one key of the row object, are kept as two entries. A topic named `week` clashing with the axis key is not modelled.
- String handling is simplified:
  - `toLowerCase` covers ASCII only (no Unicode case mapping);
  - string order is by character code, which differs from UTF-16 order only outside the Basic Multilingual Plane.
- The backend's distinction between a nil and an empty keyword or history slice in JSON output (`null` vs `[]`) is not modelled.
- TopicForms.UpdatedTopics requires an index inside the list. Index assignment outside the list (a negative key or a sparse array) is not modelled, and every caller passes the index of a rendered field.
- The landing page sends its topics as strings, while the backend expects topic objects; a real request from that page would fail to bind. The model keeps each side's own request type and does not connect them.
- The domain and description input handlers only copy the typed text and are not modelled.

## Findings

| source | as written | input that shows it | evidently intended | confidence | as-written member | corrected member |
|---|---|---|---|---|---|---|
| ui/src/app/page.tsx:52-87 | `isSubmitting` is set before the guard, but the `finally` that clears it is inside the guarded block, so a rejected submission never clears it | domain "example.com", topics ["   "]: the browser's `required` checks pass, the blank topic is filtered out, the guard rejects, and the submit button stays disabled | the submitting flag is cleared on every path | high (not executed) | HomePage.SubmitAsWritten, HomePage.BlankTopicLeavesButtonDisabled | HomePage.Submitted, HomePage.Home.HandleSubmit |
