# MoodSphere: a verified model of the mood tracker's core

MoodSphere is a web application for therapy patients. On each visit a
patient answers five 0-10 questions about their day and gets an overall
score, the mean of the answers to one decimal. The logs are synced to a
spreadsheet through a serverless endpoint, with the browser's local storage
as a fallback. The patient sees a report of their latest score, their
average, a trend and a recommendation. Staff see a dashboard of per-user
statistics built from every user's sheet rows, journal entries and thought
records.

This project models that core in Dafny, one module per source file.

- `Numeric` (numeric.dfy) holds the arithmetic the components share:
  - the left-fold sum of `reduce` and the mean;
  - `toFixed(1)` followed by `parseFloat`, read as rounding to the nearest
    tenth with halves rounding up.
- `Seqs` (seqs.dfy) holds the JavaScript array operations the core relies on:
  - `filter` by owner;
  - `Array.prototype.sort` with a numeric comparator, as a stable insertion
    sort by an integer key, with a descending sort written as a negated key;
  - `map`, and `join` for any separator.
- `Types` (types.dfy) holds the records: answers, mood logs, journal entries,
  thought records, and timestamps in milliseconds.
- `MoodEmoji`: the emoji and label for a score.
- `ReportGenerator`: the report, given one user's logs in the order they were
  made.
- `MoodQuestionnaire`: the questionnaire, as a class holding the step and the
  answers.
- `GoogleSheets`: the sync client.
  - A codec between logs and flat sheet rows: the triggers are one
    `", "`-joined column, and the question columns are looked up by id.
  - The fetch, which falls back to local storage on failure.
  - The save, which appends to the local cache once the POST completes.
  - Local storage is a map field of the `SheetsClient` class.
- `AdminDashboard`: `getUserStats`, written as a method with the
  trigger-counting loop over a mutable map. It is proved equal to a
  reference function, and the promised properties are proved about that
  function as lemmas. The module also holds which user cards the dashboard
  shows.
- `IndexPage`: the main page, as a class holding the logs and the open tab.
  It covers submitting a log, opening a tab, and the loop that fills an
  empty page with a week of random sample logs.

Several things the code reaches outside itself for become parameters:

- Dates are integer timestamps.
- `Math.random()` is a sequence of draws, consumed in the source's call
  order: each sample day draws its score first, then one draw per answer.
- `new Date()` is a `now` or `today` parameter.
- A network request is given by how it ended: rows returned, not ok, or
  failed for a fetch; a response with its `ok` flag, or failed, for a POST.

Two details of the code are easy to misread:

- A score of 1.9 gets the label "terrible": the report's label uses the
  `score >= 2` test at src/components/ReportGenerator.tsx:52, and 1.9 fails
  it (see `MoodLabelBoundaries`).
- The comment at src/lib/googleSheets.ts:57 says the log is cached even if
  the fetch fails. The code appends to the cache only after `fetch` resolves,
  whatever the status, so a request that throws caches nothing and returns
  false (see `SaveEntry`).

## Model

| member | source | states |
|---|---|---|
| Numeric.RoundTenth | src/components/ReportGenerator.tsx:18-20 | `parseFloat(x.toFixed(1))`: the result is a whole number of tenths within 0.05 of x (above x - 0.05, at most x + 0.05) |
| Numeric.MeanBounds | src/components/MoodQuestionnaire.tsx:61 | a mean lies within any bounds that hold of every element |
| Numeric.MeanBetweenExtremes | src/components/ReportGenerator.tsx:18-20 | the mean lies between the smallest and the largest value |
| Numeric.RoundTenthWithin | src/components/MoodQuestionnaire.tsx:61 | rounding to a tenth keeps a value inside integer bounds it was already inside |
| Numeric.RoundTenthMonotone | src/components/ReportGenerator.tsx:18-20 | rounding to a tenth is monotone |
| Numeric.SumPermutation | src/components/AdminDashboard.tsx:69-71 | reordering the values leaves their sum unchanged, so the order of the rows does not affect the average |
| Types.DayOfMonotone | src/components/AdminDashboard.tsx:88-93 | a later time is never on an earlier day, and adding one day moves to the next day number |
| Seqs.FilterByOwner | src/components/AdminDashboard.tsx:50-52 | `filter(e => e.username === u)`: the result holds only elements owned by u, each as often as in the input, and is no longer than the input (its order is stated by `FilterAppend` and `FilterSingle`) |
| Seqs.FilterAppend | src/components/AdminDashboard.tsx:50-52 | `filter` keeps the input order: the filter of a concatenation is the concatenation of the filters of its parts |
| Seqs.FilterSingle | src/components/AdminDashboard.tsx:50-52 | a one-element list keeps its element exactly when it belongs to the user; with `FilterAppend` this determines the filter of every list |
| Seqs.FilterEmptyIff | src/components/AdminDashboard.tsx:50-56 | the filter is empty exactly when no element is owned by u |
| Seqs.Insert | src/components/AdminDashboard.tsx:58 | one insertion step of the sort adds exactly the inserted element: the result is one longer, with the same elements plus x |
| Seqs.SortBy | src/components/AdminDashboard.tsx:58 | `sort` with a key comparator returns a reordering: the same length and the same multiset of elements |
| Seqs.SortBySorted | src/components/AdminDashboard.tsx:58 | the sorted list is in ascending key order |
| Seqs.SortByStable | src/components/AdminDashboard.tsx:82-83 | the sort is stable: for every key, the elements with that key keep their input order |
| Seqs.InsertSorted | src/components/AdminDashboard.tsx:58 | inserting into a list in key order keeps it in key order |
| Seqs.InsertStable | src/components/AdminDashboard.tsx:82-83 | an insertion puts x before the elements with its key and keeps their order |
| Seqs.KeyFilterPrefix | src/components/AdminDashboard.tsx:84 | `slice(0, n)` taken after the sort: the elements with key k in the slice are a prefix of those in the whole list |
| Seqs.Map | src/components/AdminDashboard.tsx:105 | `map(f)`: the same length as the input, with f applied at every position |
| Seqs.MapPermutation | src/components/AdminDashboard.tsx:82-85 | mapping two reorderings of the same elements gives reorderings of the same values |
| Seqs.DistinctPermutation | src/components/AdminDashboard.tsx:82-83 | reordering a list without repetitions (the keys of an object) leaves none |
| Seqs.FilterSortMembers | src/components/AdminDashboard.tsx:58-67 | every element of a filtered and sorted list comes from the input and belongs to the user |
| Seqs.FilterSortExtremes | src/components/AdminDashboard.tsx:58-67 | after filtering and sorting, the first element has the smallest key among the user's elements and the last the largest |
| Seqs.FilterSortFirst | src/components/AdminDashboard.tsx:61-67 | `sort(...)[0]` of the user's elements: empty exactly when the user has none, otherwise one of the user's elements with the smallest key |
| Seqs.FilterSortLast | src/components/AdminDashboard.tsx:58-59 | `sorted[sorted.length - 1]` of the user's elements: empty exactly when the user has none, otherwise one of the user's elements with the largest key |
| MoodEmoji.GetMoodInfo | src/components/MoodEmoji.tsx:11-23 | the five labels, each band closed below (Great from 8, Good from 6, Okay from 4, Bad from 2, Terrible below 2), and the icon: smile from 6, meh in [4, 6), frown below 4 |
| MoodEmoji.ExactlyOneLabel | src/components/MoodEmoji.tsx:11-23 | every score gets one of the five labels, and the five are distinct |
| ReportGenerator.Scores | src/components/ReportGenerator.tsx:18-20 | the overall scores of the logs, one per log, in the same order |
| ReportGenerator.TrendOf | src/components/ReportGenerator.tsx:23-28 | one score is stable; with two or more, improving iff the latest exceeds the mean of the others plus 0.5, worsening iff it is below that mean minus 0.5 |
| ReportGenerator.ClassifyTrend | src/components/ReportGenerator.tsx:23-28 | improving iff latest > previous average + 0.5, worsening iff latest < previous average - 0.5, stable iff within the closed band |
| ReportGenerator.MoodLabel | src/components/ReportGenerator.tsx:48-54 | `getMoodLabel`: each of the five labels holds exactly on its band, each band closed below |
| ReportGenerator.Insights | src/components/ReportGenerator.tsx:31-45 | exactly three insights, in order: the current score with its label, the average, and the remark for the trend |
| ReportGenerator.RecommendationFor | src/components/ReportGenerator.tsx:85-87 | challenges are recommended for discussion iff the trend is worsening, keeping the habits otherwise |
| ReportGenerator.GenerateReport | src/components/ReportGenerator.tsx:12-46 | no report exactly for an empty list; otherwise the latest score is the last log's, the average is the rounded mean, the trend is that of the scores, there are three insights (current score with its label, average, trend remark), and "discuss challenges" is recommended iff the trend is worsening |
| ReportGenerator.SingleEntryIsStable | src/components/ReportGenerator.tsx:23-24 | a single log gives a stable trend |
| ReportGenerator.TrendTrichotomy | src/components/ReportGenerator.tsx:24-28 | with two or more logs, each trend holds iff its strict comparison with the average of all but the latest holds |
| ReportGenerator.AverageWithinScores | src/components/ReportGenerator.tsx:18-20 | the exact mean lies between the lowest and highest score, and the reported average is within 0.05 of it |
| ReportGenerator.AverageOnScale | src/components/ReportGenerator.tsx:18-20 | scores on the 0..10 scale give an average on the 0..10 scale |
| ReportGenerator.MoodLabelMonotone | src/components/ReportGenerator.tsx:48-54 | a higher score never gets a lower label |
| ReportGenerator.LabelsAgreeWithEmoji | src/components/ReportGenerator.tsx:48-54 | the report's label is the emoji's label with a lower-case first letter, for every score |
| ReportGenerator.MoodLabelBoundaries | src/components/ReportGenerator.tsx:48-54 | the band boundaries 8, 6, 4 and 2 belong to the upper band, and 1.9 is "terrible" |
| ReportGenerator.TrendExamples | src/components/ReportGenerator.tsx:24-28 | against an average of 5: 5.6 improves, 4.4 worsens, and 5.4, 4.6 and the boundaries 5.5 and 4.5 are stable |
| ReportGenerator.ReportDescribesNewestEntry | src/components/ReportGenerator.tsx:15 | after a log is appended, the report exists and shows that log's score as the latest |
| MoodQuestionnaire.BuildEntry | src/components/MoodQuestionnaire.tsx:60-70 | the submitted log has five answers with ids 1..5 carrying the given values, the given date and no triggers; its score is a whole number of tenths within 0.05 of the mean, on the slider scale when the answers are |
| MoodQuestionnaire.ScoreOnSlider | src/components/MoodQuestionnaire.tsx:61 | answers on the 0..10 slider give a rounded mean on the slider |
| MoodQuestionnaire.Questionnaire.constructor | src/components/MoodQuestionnaire.tsx:36-37 | the questionnaire starts on the first question with every answer 5 |
| MoodQuestionnaire.Questionnaire.HandleNext | src/components/MoodQuestionnaire.tsx:42-48 | on the last question it submits the log built from the answers and stays; otherwise it moves one step on; the answers are unchanged and the state stays valid |
| MoodQuestionnaire.Questionnaire.HandlePrevious | src/components/MoodQuestionnaire.tsx:50-52 | one step back, answers unchanged; callable only when Previous is enabled (not on the first question, line 99) |
| MoodQuestionnaire.Questionnaire.HandleAnswerChange | src/components/MoodQuestionnaire.tsx:54-58 | the slider value replaces the current question's answer and no other; the step is unchanged |
| MoodQuestionnaire.Questionnaire.HandleSubmit | src/components/MoodQuestionnaire.tsx:60-70 | the log built from the current answers, well formed and on the slider scale, with the i-th answer carrying the i-th value |
| MoodQuestionnaire.AnswerAll | src/components/MoodQuestionnaire.tsx:40-78 | answering every question and pressing Next each time submits exactly the log built from the given answers |
| GoogleSheets.Split | src/lib/googleSheets.ts:25 | `split(', ')` always yields at least one piece |
| GoogleSheets.ReadTriggers | src/lib/googleSheets.ts:25 | no triggers exactly for an empty column; otherwise pieces that join with ", " back to the column |
| GoogleSheets.WriteTriggers | src/lib/googleSheets.ts:46 | an absent list is written like an empty one, and the column is empty exactly for the lists [] and [""] |
| GoogleSheets.FindAnswer | src/lib/googleSheets.ts:41-45 | `find(...)?.value`: absent iff no answer has the id; otherwise the value of the first answer with that id |
| GoogleSheets.FindInWellFormed | src/lib/googleSheets.ts:41-45 | in a complete log, question id's answer is found at position id - 1 |
| GoogleSheets.RowToEntry | src/lib/googleSheets.ts:15-26 | a fetched row gives a log with five answers, ids 1..5, one per question column, the row's date and score, and the split Triggers column |
| GoogleSheets.MapRows | src/lib/googleSheets.ts:15 | every fetched row is converted, in order |
| GoogleSheets.BuildPayload | src/lib/googleSheets.ts:37-47 | the posted row carries the user, date and score; each question column is absent iff no answer has that id, and otherwise holds the first such answer's value; the triggers are joined with ", " |
| GoogleSheets.SplitWithoutSeparator | src/lib/googleSheets.ts:25 | a string without ", " splits into itself |
| GoogleSheets.SplitAtSeparator | src/lib/googleSheets.ts:25 | the first ", " ends the first piece |
| GoogleSheets.SplitJoin | src/lib/googleSheets.ts:25-46 | splitting a joined non-empty list gives it back when no item contains ", " |
| GoogleSheets.JoinSplit | src/lib/googleSheets.ts:25-46 | joining the pieces of a split gives back every string |
| GoogleSheets.TriggersRoundTrip | src/lib/googleSheets.ts:25-46 | a trigger list written to the column and read back is unchanged when no item contains ", " and the list is not [""] |
| GoogleSheets.TriggersThatDoNotRoundTrip | src/lib/googleSheets.ts:25-46 | the list [""] is written as an empty column and read back as no triggers; an item containing ", " is split apart |
| GoogleSheets.ColumnRoundTrip | src/lib/googleSheets.ts:25-46 | a Triggers column read and written back is unchanged |
| GoogleSheets.PayloadOfWellFormedEntry | src/lib/googleSheets.ts:37-47 | the payload of a complete log carries the user, date and score, the five answers in their columns, and the joined triggers |
| GoogleSheets.PayloadColumnAbsent | src/lib/googleSheets.ts:41-45 | for each question 1..5, a log with no answer to it posts that column as undefined, and the posted row is then not a complete sheet row |
| GoogleSheets.SaveFetchRoundTrip | src/lib/googleSheets.ts:15-47 | the payload posted for a complete log, read back as a sheet row, converts to the same log, with an absent trigger list read as empty |
| GoogleSheets.FetchSaveRoundTrip | src/lib/googleSheets.ts:15-47 | a fetched row, converted to a log and posted again, is the same row |
| GoogleSheets.CacheKeyInjective | src/lib/googleSheets.ts:30-31 | different users have different cache keys |
| GoogleSheets.SheetsClient.constructor | src/lib/googleSheets.ts:58-60 | the client starts with the given local storage |
| GoogleSheets.SheetsClient.Cached | src/lib/googleSheets.ts:30-31 | the logs stored under the user's `moodEntries_` key, or [] when nothing is stored there |
| GoogleSheets.SheetsClient.FetchEntries | src/lib/googleSheets.ts:7-33 | when the response is ok, the rows converted in order; on a non-ok status or a failure, the user's cached logs, or [] when there are none |
| GoogleSheets.SheetsClient.SaveEntry | src/lib/googleSheets.ts:35-67 | posts the payload of the log; once the POST completes, the log is appended to that user's cache and `ok` is returned; on a failure, false with storage unchanged; no other user's cache and no other key changes |
| AdminDashboard.AllTriggers | src/components/AdminDashboard.tsx:75-77 | every trigger of the user's rows, row by row: a name is listed iff some row's Triggers column holds it |
| AdminDashboard.CountRow | src/components/AdminDashboard.tsx:76-79 | the inner `forEach`: after one row's triggers, the map counts every trigger seen so far and the key order lists them by first sighting |
| AdminDashboard.CountExisting | src/components/AdminDashboard.tsx:78 | incrementing a trigger already in the map keeps the counts correct |
| AdminDashboard.CountNew | src/components/AdminDashboard.tsx:78 | `(triggerMap[t] \|\| 0) + 1` on a new trigger sets it to 1 and appends it to the key order |
| AdminDashboard.CountTriggers | src/components/AdminDashboard.tsx:74-80 | the filled map has exactly the user's triggers as keys, each with its number of occurrences, in the order first seen |
| AdminDashboard.EntriesOfCounts | src/components/AdminDashboard.tsx:82 | `Object.entries` of the filled map is the reference list of (trigger, count) in key order |
| AdminDashboard.ObjectEntries | src/components/AdminDashboard.tsx:82 | `Object.entries`: one pair per key, in key order, each with the key's count |
| AdminDashboard.TopTriggers | src/components/AdminDashboard.tsx:82-85 | at most three names, and exactly min(3, number of distinct triggers) |
| AdminDashboard.TopTriggersOf | src/components/AdminDashboard.tsx:74-85 | the counting loop followed by sort/slice/map gives the top three of the reference trigger counts |
| AdminDashboard.NextDueOf | src/components/AdminDashboard.tsx:88-93 | today when there is no log, otherwise the day after the latest log |
| AdminDashboard.AverageScore | src/components/AdminDashboard.tsx:69-71 | "N/A" iff the user has no row; otherwise a whole number of tenths at most 0.05 outside the range of the user's scores |
| AdminDashboard.Stats | src/components/AdminDashboard.tsx:95-108 | the returned record is consistent: each count is the length of its list, avgScore, lastMoodEntry and "Today" appear iff there is no row, lastJournal and lastThought are null iff their lists are empty, and at most three triggers |
| AdminDashboard.ExpectedStats | src/components/AdminDashboard.tsx:49-56 | null exactly when none of the rows, journals and thought records belongs to the user, and otherwise the statistics record |
| AdminDashboard.GetUserStats | src/components/AdminDashboard.tsx:49-109 | the method returns exactly the reference statistics: none without activity, otherwise every field of the returned record |
| AdminDashboard.CardVisible | src/components/AdminDashboard.tsx:225-228 | a user's card is shown iff the user is an admin or has a mood row, a journal or a thought record |
| AdminDashboard.NoActivityIff | src/components/AdminDashboard.tsx:50-56 | no activity exactly when none of the rows, journals and thought records belongs to the user |
| AdminDashboard.CountsMatch | src/components/AdminDashboard.tsx:101-107 | daysRecorded, journalCount and thoughtCount are the numbers of the user's records and the lengths of the listed rows, journals and records |
| AdminDashboard.ListsMatch | src/components/AdminDashboard.tsx:105-107 | every listed mood row, journal and thought record belongs to the user and comes from the input, and each of the user's records is listed as often as it occurs |
| AdminDashboard.MoodsSorted | src/components/AdminDashboard.tsx:58 | the mood rows are the user's rows reordered oldest first, and the logs built from them keep that order |
| AdminDashboard.LastMoodIsLatest | src/components/AdminDashboard.tsx:58-59 | lastMoodEntry is null iff the user has no row, otherwise one of the user's rows with no later row |
| AdminDashboard.JournalsNewestFirst | src/components/AdminDashboard.tsx:106 | allJournals is the user's journals reordered newest first |
| AdminDashboard.LastJournalIsLatest | src/components/AdminDashboard.tsx:61-63 | lastJournal is null iff the user has no journal, otherwise one of the user's journals with no later one |
| AdminDashboard.ThoughtsNewestFirst | src/components/AdminDashboard.tsx:107 | allThoughts is the user's thought records reordered newest first |
| AdminDashboard.LastThoughtIsLatest | src/components/AdminDashboard.tsx:65-67 | lastThought is null iff the user has no thought record, otherwise one of the user's records with no later one |
| AdminDashboard.AverageScoreSpec | src/components/AdminDashboard.tsx:69-71 | "N/A" iff the user has no row; otherwise the rounded mean of the user's scores, in whatever order they are summed |
| AdminDashboard.OccurrencesAcrossRows | src/components/AdminDashboard.tsx:75-80 | each row adds the occurrences in its own split Triggers column |
| AdminDashboard.EmptyTriggersContributeNothing | src/components/AdminDashboard.tsx:76 | a row with an empty Triggers column adds no trigger |
| AdminDashboard.TriggerCountsSpec | src/components/AdminDashboard.tsx:74-82 | the trigger entries have distinct names, exactly the triggers that occur, each counted by its occurrences and at least once |
| AdminDashboard.TopTriggersOrdered | src/components/AdminDashboard.tsx:82-85 | the ranking reorders the entries into non-increasing count; the top triggers are the names of its first min(3, n), with no name twice |
| AdminDashboard.TopTriggersOmitted | src/components/AdminDashboard.tsx:82-85 | a trigger left out only happens when three are shown, and it has no higher count than the third |
| AdminDashboard.TopIsRankedPrefix | src/components/AdminDashboard.tsx:84-85 | each top trigger is the name of the ranked entry at the same position |
| AdminDashboard.TopTriggersTies | src/components/AdminDashboard.tsx:82-84 | among equal counts, the ones shown come first in the order the triggers were first seen |
| AdminDashboard.ExampleRanking | src/components/AdminDashboard.tsx:83 | Sleep 3, Health 1, Work 5, Family 3 rank as Work, Sleep, Family, Health |
| AdminDashboard.TopOfRanked | src/components/AdminDashboard.tsx:84-85 | with at least three entries, the top triggers are the names of the first three ranked entries |
| AdminDashboard.TopTriggersExample | src/components/AdminDashboard.tsx:82-85 | Sleep 3, Health 1, Work 5, Family 3 give Work, Sleep, Family: ties go to the trigger seen first |
| AdminDashboard.NextDueSpec | src/components/AdminDashboard.tsx:88-93 | "Today" iff the user has no row; otherwise the day after the latest row, later than the day of every one of the user's rows |
| AdminDashboard.AllMoodsWellFormed | src/components/AdminDashboard.tsx:36-47 | every listed log has five answers with question ids 1..5, with its row's date, score and question columns, in sorted order |
| IndexPage.BuildSampleData | src/pages/Index.tsx:35-52 | the loop from i = 6 down to 0 builds exactly the reference sample: the log for day k dated 6 - k days before today, its score from the k-th score draw rounded to a tenth, and its answers from the following five draws |
| IndexPage.SampleEntry | src/pages/Index.tsx:39-51 | a sample log has five answers for questions 1..5 and no triggers, is dated a whole number of days (6 - k) before today, and has a score that is a whole number of tenths within 0.05 of its draw scaled to [3, 8) |
| IndexPage.SampleData | src/pages/Index.tsx:35-52 | seven sample logs, the k-th being the sample log for day k |
| IndexPage.SampleDataShape | src/pages/Index.tsx:38-51 | seven logs one day apart, the last dated today, each with five answers for questions 1..5 and no triggers; with draws in [0, 1) every answer and score is in [3, 8] |
| IndexPage.SampleEntryInRange | src/pages/Index.tsx:42-50 | draws in [0, 1) give answers and a rounded score in [3, 8] |
| IndexPage.AfterSampleGuard | src/pages/Index.tsx:34 | the list after the guard is never empty: a list with logs is kept, and an empty one becomes the sample |
| IndexPage.SampleGuardIdempotent | src/pages/Index.tsx:34 | the guard leaves a non-empty list, keeps a list that had logs, and a second run changes nothing |
| IndexPage.MoodTracker.constructor | src/pages/Index.tsx:11-12 | the page starts with no logs on the Track tab |
| IndexPage.MoodTracker.HandleMoodSubmit | src/pages/Index.tsx:27-30 | the submitted log is appended at the end and the insights tab opens |
| IndexPage.MoodTracker.GenerateSampleData | src/pages/Index.tsx:33-56 | an empty list is replaced by the sample and a list with logs is kept; the tab does not change |
| IndexPage.MoodTracker.SelectTab | src/pages/Index.tsx:66-70 | the tab opens; the Track tab leaves the logs alone, and History and Insights first run the sample guard |
| IndexPage.SubmitTwiceThenHistory | src/pages/Index.tsx:27-70 | two logs submitted on a fresh page are kept in order, and opening the history then adds no sample |

## Left out

- Rendering, toasts, `alert`, dialogs, the share button and all styling are
  presentation and are not modelled. This covers the count banner and the
  empty-state texts of src/pages/Index.tsx:110-116, the insight sentences'
  wording (each insight is a tagged value), and the icon size of
  `MoodEmoji`.
- The two `useEffect` hooks of src/pages/Index.tsx:15-25 load and write the
  page's list under the global `moodEntries` key. They are left out as local
  storage I/O; the page model starts from an empty list.
- HTTP, JSON encoding and `encodeURIComponent` are not modelled. A response
  is an input saying how the request ended. `JSON.parse` throwing on a
  corrupt cache, and `setItem` throwing on a full storage, are not modelled.
- The order of asynchronous events is not modelled, and neither are two
  tabs writing the same cache.
- `parseFloat` and NaN are not modelled: numeric columns are exact reals.
  Binary floating-point rounding is not modelled either: `toFixed(1)` is
  exact round-half-up to a tenth.
- AdminDashboard.AverageScore: `avgScore` is modelled as the rounded number
  rather than the string `toFixed` prints.
- Dates are millisecond timestamps rather than ISO strings.
  `setDate(getDate() ± n)` is modelled as ± n days of 86 400 000 ms, with no
  time zones or daylight-saving shifts. The next due date is a day number,
  not the `date-fns` "MMM d, yyyy" text.
- `Object.entries` puts integer-like keys first in ascending order. The model
  keeps insertion order for every key, so a trigger named like a number is
  not ranked as the code ranks it. A trigger named like an
  `Object.prototype` member is not modelled either.
- `Math.random()` and `new Date()` are parameters.
- MoodQuestionnaire.Questionnaire.HandlePrevious: requires a step above 0,
  because the Previous button is disabled on the first question (line 99).
  The handler itself would step to -1.
- MoodQuestionnaire.OnSlider: answers are any real in [0, 10]. The slider's
  whole-number step (src/components/MoodSlider.tsx:20-22) is not imposed.
- GoogleSheets.SaveFetchRoundTrip: goes through `StoredRow`, which assumes
  that the endpoint stores every posted column unchanged and returns it under
  the same column name. The endpoint (/api/mood-sync) is an outside service
  and is not part of this model, so the round trip is proved for the posted
  payload read back as a sheet row, not for what the service actually stores.
  `FetchSaveRoundTrip` rests on the same assumption.
- AdminDashboard.AllMoodsWellFormed: states question columns 1 and 5
  explicitly. `GoogleSheets.RowToEntry` states all five, and the listed
  logs are its results.
- MedicationTracker, MoodGraph and the rest of MoodSlider are outside this
  model. The repository's src/types declarations are not part of this model;
  `Types` declares the fields the core uses.
