# neurotype backend core, modelled in Dafny

The neurotype backend stores a user's diary notes and tags each one with an
emotion profile: how many of its words are keywords of *happy*, *calm*, *sad*
and *upset*. It then aggregates those tags over time:

- a weekly dashboard with seven day buckets, the week's totals and today's
  prevalent emotion;
- a single-day analysis and a per-day "prevalent emotion" summary over a date range;
- the weekly prevalent emotion that is put into the mental-health chat assistant's prompt.

Two small connection registries sit beside this: one keeps the websocket
connections of each user, the other maps Socket.IO session ids to authenticated
users.

This project models that core and proves its properties:

| module | file | models |
|---|---|---|
| `Emotions` | emotions.dfy | the four categories in their dictionary order, the count vector `Counts`, and `Prevalent`, which is Python's `max(d, key=d.get)`: the first maximal category in the order happy, calm, sad, upset |
| `Calendar` | calendar.dfy | timestamps as integer microseconds since the epoch (UTC), days as integer day numbers, `Weekday` (Monday is 0), `WeekStart` and the end-of-day instant `23:59:59.999999` |
| `Sequences` | sequences.dfy | the first-occurrence scan and `sep.join`, shared by the tokeniser, `str.split` and `list.remove` |
| `Analysis` | analysis.dfy | the keyword table and `analyze_text`: lowercase, split into `\b\w+\b` tokens, and count, for each token, every category whose list holds it |
| `AnalysisExamples` | analysis_examples.dfy | the classifier on concrete sentences |
| `NoteService` | note_service.dfy | the note record, the user and optional date-bound filters, and the store (`NoteStore`, a class over a sequence of notes) with create, update and delete |
| `EmotionTotals` | totals.dfy | the sums of note counts the endpoints compute: over a list, one day, and a span of days |
| `Dashboard` | dashboard.dfy | `get_dashboard`: week window, the seven buckets, totals, weekly list and today's prevalent emotion |
| `NoteEndpoints` | note_endpoints.dfy | the ownership guard of `update_note`/`delete_note`, `get_daily_analysis` and `get_emotions_summary` |
| `Chatbot` | chatbot.dfy | the prompt construction in `get_chatbot_response` |
| `Chat` | chat.dfy | `ConnectionManager.connect`/`disconnect` over `active_connections` |
| `SocketServer` | socket_server.dfy | the `token=` extraction and the `connected_users` registry of the Socket.IO `connect`/`message`/`disconnect` events |

The code works by mutation in four places, and the model does the same there:

- `analyze_text` becomes a method with nested loops;
- the dashboard's bucket loops become methods over a `map<Day, Counts>`;
- the note store and the two registries become classes whose methods carry `modifies` clauses;
- the chat-prompt accumulation and the summary's result list become loops.

Each of these methods is proved against a specification function (`Classify`,
`DayTotal`, `SpanTotal`, `Total`, `Connected`, `Disconnected`, `FirstToken`),
and the properties the code promises are lemmas about those functions.

`analyze_text` adds to every category whose list holds the token; it does not
stop at the first. `Analysis.KeywordListsDisjoint` shows no keyword is in two
lists, so each token adds to at most one category.

Two behaviours of the code that are easy to miss:

- `update_user_note` sets only the supplied fields, so an updated note keeps the
  counts of its old text. `NoteService.NoteStore.UpdateUserNote` states this.
- The chat window ends at the following Monday 00:00 and the date filter's end
  bound is inclusive, so a note stamped exactly at that instant is counted in
  the chat prompt. `Chatbot.ChatWindowIff` states this. The dashboard has the
  same kind of edge: its window ends at next Monday 00:00:00.999999
  (`Dashboard.DashboardWindowIff`), so it fetches a note stamped within the first
  second of next Monday, but drops it because no bucket matches
  (`Dashboard.NextMondayIsFetchedButNotCounted`).

## Model

| member | source | states |
|---|---|---|
| Emotions.Counts.Bump | app/core/analysis.py:23 | adding n to one category raises that category by n and leaves the other three unchanged |
| Emotions.Counts.Plus | app/api/endpoints/dashboard.py:62-65 | the sum of two count vectors is their category-by-category sum |
| Emotions.ZeroHasAllKeysAtZero | app/core/analysis.py:17 | the initial count vector is 0 in each of the four categories |
| Emotions.Prevalent | app/api/endpoints/dashboard.py:82 | the chosen category holds the maximal count, and every category before it in the order happy, calm, sad, upset holds strictly less: the first maximum |
| Emotions.PrevalentIsFirstMaximum | app/api/endpoints/notes.py:132 | the first maximum is unique: any category that is maximal with all earlier categories strictly smaller is the one `Prevalent` returns |
| Emotions.PrevalentTieGoesToEarlier | app/services/chatbot_service.py:55 | if two categories tie, the later one in dictionary order is never the one chosen |
| Emotions.PrevalentOfZeroIsHappy | app/services/chatbot_service.py:42-55 | the all-zero vector has prevalent emotion happy |
| Emotions.PrevalentExample | app/api/endpoints/dashboard.py:82 | a happy/calm tie gives happy, and a sad/upset tie above calm gives sad |
| Calendar.StartOfDay | app/api/endpoints/dashboard.py:27 | midnight at the start of a day; no contract of its own: `Calendar.DayOfIff` and `Calendar.WholeDaysIff` characterise it through the dates of the timestamps it bounds |
| Calendar.EndOfDay | app/api/endpoints/dashboard.py:28 | the end-of-day instant is the last microsecond of the day, 23:59:59.999999, one before the next day's midnight |
| Calendar.DayOf | app/api/endpoints/dashboard.py:60 | a timestamp's date is the day whose start is at or before it and whose successor's start is after it |
| Calendar.DayOfIff | app/api/endpoints/notes.py:78 | a timestamp has date d exactly when it lies in d's half-open interval |
| Calendar.WholeDaysIff | app/api/endpoints/notes.py:106-118 | the half-open interval from the start of day s to the start of day e+1 holds exactly the timestamps whose date is between s and e |
| Calendar.DayOfMonotone | app/api/endpoints/dashboard.py:60 | a later timestamp never has an earlier date |
| Calendar.Weekday | app/api/endpoints/dashboard.py:23 | the weekday is one of 0..6 |
| Calendar.WeekStart | app/api/endpoints/dashboard.py:22-24 | the week start is a Monday at most six days before the given day |
| Calendar.WeekdayExamples | app/api/endpoints/dashboard.py:23 | 1970-01-01 is a Thursday, 1970-01-05 a Monday, 2024-10-13 a Sunday |
| Calendar.WeekStartOfWeekDays | app/api/endpoints/dashboard.py:23-24 | each of the seven days from a Monday has that Monday as its week start |
| Analysis.Keywords | app/core/analysis.py:4-9 | the keyword table; no contract of its own: `Analysis.KeywordListsDisjoint`, `AnalysisExamples.ExampleHits` and `AnalysisExamples.ExampleMisses` state what it holds |
| Analysis.KeywordListsDisjoint | app/core/analysis.py:4-9 | no word is a keyword of two categories |
| Analysis.Lower | app/core/analysis.py:13 | lowercasing keeps the length and maps each character on its own; what that means for the classifier is stated by `Analysis.LowerConcat`, `Analysis.LowerIdempotent` and `Analysis.ClassifyIgnoresCase` |
| Analysis.LowerConcat | app/core/analysis.py:13 | lowercasing distributes over concatenation |
| Analysis.LowerIdempotent | app/core/analysis.py:13 | lowercasing twice is lowercasing once |
| Analysis.RunLength | app/core/analysis.py:14 | the leading word run is the longest prefix of word characters |
| Analysis.Tokens | app/core/analysis.py:14 | every token is a non-empty run of word characters |
| Analysis.RunLengthStopsAtSeparator | app/core/analysis.py:14 | a word run never crosses a separator |
| Analysis.TokensSplitAtSeparator | app/core/analysis.py:14 | tokenising text split at a separator is tokenising the two parts |
| Analysis.TokensAroundSeparator | app/core/analysis.py:14 | a separator character splits tokens: the tokens of a+c+b are those of a followed by those of b |
| Analysis.WordIsOneToken | app/core/analysis.py:14 | a single word is exactly one token |
| Analysis.WordRunLength | app/core/analysis.py:14 | a string of word characters is one run |
| Analysis.TokensOfJoinedWords | app/core/analysis.py:14 | words joined by a separator tokenise back to those words |
| Analysis.Occurrences | app/core/analysis.py:20-23 | a category's count never exceeds the number of tokens |
| Analysis.OccurrencesConcat | app/core/analysis.py:20-23 | counts over two token lists add up: each occurrence counts separately |
| Analysis.Classify | app/core/analysis.py:11-25 | the classifier as a function; no contract of its own: `Analysis.AnalyzeText` ties the loop to it, and the `Classify…` lemmas state its properties. The helpers `Analysis.KeywordHits` (one for each category whose list holds a word) and `Analysis.ClassifyEach` (the word-by-word sum) belong to those lemmas' statements (`ClassifyWord`, `ClassifyJoinedWords`) |
| Analysis.AnalyzeText | app/core/analysis.py:11-25 | the nested loop leaves in each category the number of lowercased tokens that are its keywords, which is `Classify(text)` |
| Analysis.CountWord | app/core/analysis.py:21-23 | one pass over the table adds 1 to exactly the categories whose list holds the word |
| Analysis.ClassifyEmpty | app/core/analysis.py:17-25 | empty text gives all zeros |
| Analysis.NoKeywordsNoOccurrences | app/core/analysis.py:20-23 | a category none of whose keywords occurs counts 0 |
| Analysis.ClassifyWithoutKeywords | app/core/analysis.py:17-25 | text without keyword tokens gives all zeros |
| Analysis.OneCategoryPerToken | app/core/analysis.py:20-23 | a token adds to at most one category |
| Analysis.OccurrencesSumBound | app/core/analysis.py:20-23 | the four counts sum to at most the number of tokens |
| Analysis.ClassifySumAtMostTokens | app/core/analysis.py:11-25 | the classifier's total is at most the token count of the text |
| Analysis.ClassifyIgnoresCase | app/core/analysis.py:13 | classifying lowercased text gives the same counts: matching ignores case |
| Analysis.ClassifyAcrossSeparator | app/core/analysis.py:14-23 | the counts of a+c+b for a separator c are the counts of a plus those of b |
| Analysis.LowerKeepsWord | app/core/analysis.py:13-14 | lowercasing a word keeps it a word |
| Analysis.ClassifyTrailingSeparator | app/core/analysis.py:14 | trailing punctuation adds nothing and does not block the word before it |
| Analysis.ClassifyWord | app/core/analysis.py:14-23 | a single word counts 1 in each category listing its lowercase form and 0 elsewhere |
| Analysis.ClassifyJoinedWords | app/core/analysis.py:20-23 | the counts of words joined by separators are the sum of their counts word by word |
| AnalysisExamples.ExampleLowerings | app/core/analysis.py:13 | "Happy", "HAPPY" and "I" lowercase as Python does for ASCII |
| AnalysisExamples.ExampleHits | app/core/analysis.py:5-6 | "happy" hits happy only and "calm" hits calm only |
| AnalysisExamples.ExampleMisses | app/core/analysis.py:4-9 | "i", "am" and "and" hit no category |
| AnalysisExamples.ClassifyUnhappy | app/core/analysis.py:7 | "unhappy" counts as sad only |
| AnalysisExamples.ClassifyHappiness | app/core/analysis.py:5 | "happiness" counts nowhere: matching is whole-token |
| AnalysisExamples.ExampleWord | app/core/analysis.py:11-25 | each word of the sample sentence classifies to its expected hits |
| AnalysisExamples.ClassifyWholeTokens | app/core/analysis.py:14-22 | "unhappy" adds to sad only and "happiness" to nothing |
| AnalysisExamples.ClassifyPunctuated | app/core/analysis.py:14 | a keyword followed by '!' or '.' still counts |
| AnalysisExamples.ClassifyWithPunctuation | app/core/analysis.py:14 | "happy!" counts as happy and "calm." as calm |
| AnalysisExamples.SentenceWords | app/core/analysis.py:14 | the sample words joined by spaces are "I am happy and calm" |
| AnalysisExamples.ClassifySentence | app/core/analysis.py:11-25 | "I am happy and calm" gives happy 1, calm 1, sad 0, upset 0 |
| AnalysisExamples.SentenceWordByWord | app/core/analysis.py:20-23 | the word-by-word counts of the sample sentence add up to happy 1, calm 1 |
| AnalysisExamples.ClassifyRepeatedMixedCase | app/core/analysis.py:13-23 | "Happy HAPPY happy!" counts happy 3: each occurrence counts, in any case |
| AnalysisExamples.ClassifySentenceText | app/core/analysis.py:11-25 | the text "I am happy and calm" gives happy 1, calm 1, sad 0, upset 0 |
| AnalysisExamples.ClassifyRepeatedText | app/core/analysis.py:11-25 | the text "Happy HAPPY happy!" gives happy 3 and nothing else |
| NoteService.FindNote | app/services/note_service.py:9-10 | lookup by id returns the first note with that id, and nothing exactly when no note has it |
| NoteService.NotesByUser | app/services/note_service.py:12-13 | the result holds exactly the store's notes of that user |
| NoteService.CountNotesByUser | app/services/note_service.py:45-46 | the count is the number of that user's notes |
| NoteService.NotesByUserAndDate | app/services/note_service.py:48-59 | the result holds exactly the user's notes at or after the start bound and at or before the end bound, each bound applied only when given |
| NoteService.UnboundedQueryIsNotesByUser | app/services/note_service.py:48-59 | with both bounds absent the filter returns the same list as the user query |
| NoteService.BoundsAreInclusive | app/services/note_service.py:55-58 | a note stamped exactly at the start or the end bound is returned |
| NoteService.QueryIsSubsequence | app/services/note_service.py:54-59 | the filter keeps the store's order and invents no note |
| NoteService.NoteStore.constructor | app/models/note.py:10-19 | the store starts with no notes and the id counter at 1 |
| NoteService.NoteStore.CreateUserNote | app/services/note_service.py:15-32 | the new note gets the next id, the given user and time, and the classifier's counts of its text, and is appended to the store |
| NoteService.NoteStore.UpdateUserNote | app/services/note_service.py:34-39 | only the text is replaced: id, user, time and the stale emotion counts are kept, and no other note changes |
| NoteService.NoteStore.DeleteUserNote | app/services/note_service.py:41-43 | the note at that position is removed and the others stay in order |
| NoteService.DeleteRemovesOnlyThatNote | app/services/note_service.py:41-43 | with unique ids, deleting keeps exactly the notes with other ids, and the deleted id is no longer found |
| NoteService.CreatedNoteIsFound | app/services/note_service.py:28-32 | a note created with a fresh id is found by that id at the end of the store |
| EmotionTotals.Total | app/api/endpoints/notes.py:81-86 | the per-category sum over a list of notes (also the accumulation at app/services/chatbot_service.py:49-53); no contract of its own: `EmotionTotals.TotalConcat`, `EmotionTotals.TotalAppend` and `EmotionTotals.TotalOnDay` characterise it |
| EmotionTotals.DayTotal | app/api/endpoints/dashboard.py:59-65 | the per-category sum over the notes dated one day, as the day buckets accumulate; no contract of its own: `EmotionTotals.DayTotalAppend`, `EmotionTotals.TotalOnDay` and `Dashboard.AddNotes` characterise it |
| EmotionTotals.SpanTotal | app/api/endpoints/dashboard.py:67-70 | the per-category sum over the notes dated in a span of days, as the weekly totals accumulate; no contract of its own: `EmotionTotals.SpanTotalIsSumOfDays`, `EmotionTotals.SpanTotalAppend` and `EmotionTotals.SpanTotalIgnoresOutsideNote` characterise it |
| EmotionTotals.TotalConcat | app/services/chatbot_service.py:49-53 | the sum over two lists of notes is the sum of the two sums |
| EmotionTotals.TotalAppend | app/services/chatbot_service.py:49-53 | one more note adds its counts to the running total |
| EmotionTotals.SpanTotalSplitLastDay | app/api/endpoints/dashboard.py:59-70 | the sum over days lo..hi is the sum over lo..hi-1 plus day hi |
| EmotionTotals.SpanTotalOneDay | app/api/endpoints/dashboard.py:59-70 | a span of one day sums that day |
| EmotionTotals.SpanTotalEmptySpan | app/api/endpoints/dashboard.py:59-70 | an empty span sums to zero |
| EmotionTotals.SpanTotalIsSumOfDays | app/api/endpoints/dashboard.py:59-70 | the sum over a span equals the sum of its per-day sums |
| EmotionTotals.SpanTotalIgnoresOutsideNote | app/api/endpoints/dashboard.py:59-61 | a note dated outside the span adds nothing to it |
| EmotionTotals.SpanTotalAppend | app/api/endpoints/dashboard.py:59-70 | one more note adds to the span total exactly when its date is in the span |
| EmotionTotals.DayTotalAppend | app/api/endpoints/dashboard.py:59-65 | one more note adds to a day's total exactly when it is dated that day |
| EmotionTotals.OnDay | app/api/endpoints/notes.py:76-79 | the day filter keeps exactly the notes dated that day |
| EmotionTotals.OnDayAppend | app/api/endpoints/notes.py:76-79 | the day filter of one more note extends the result exactly when that note is dated that day |
| EmotionTotals.TotalOnDay | app/api/endpoints/notes.py:81-86 | summing the notes of a day is that day's total |
| EmotionTotals.CoveringQueryKeepsSpanNote | app/services/note_service.py:54-58 | a user's note dated in the span passes a date filter whose bounds cover the span |
| EmotionTotals.SpanTotalOfCoveringQuery | app/api/endpoints/dashboard.py:27-36 | filtering by bounds that cover the span does not change the span total |
| EmotionTotals.DayTotalOfCoveringQuery | app/api/endpoints/dashboard.py:27-36 | filtering by bounds that cover the span does not change the total of any day in it |
| Dashboard.WindowStart | app/api/endpoints/dashboard.py:22-27 | the window starts exactly at midnight (00:00) of the Monday of today's week, which is at or before the start of today |
| Dashboard.WindowEnd | app/api/endpoints/dashboard.py:28 | the window ends at next Monday 00:00:00.999999: Sunday's last microsecond plus one second |
| Dashboard.DashboardWindowIff | app/api/endpoints/dashboard.py:27-36 | a note is fetched exactly when it is the user's and stamped from Monday 00:00 to next Monday 00:00:00.999999, that is, dated in the week or within the first second of next Monday |
| Dashboard.EmptyBuckets | app/api/endpoints/dashboard.py:47-56 | the bucket map has exactly the seven days from the Monday, each at zero |
| Dashboard.AddNotes | app/api/endpoints/dashboard.py:58-70 | after the loop each bucket holds its day's total, the map keeps its seven keys, and the running totals are the sum over the week |
| Dashboard.WeeklyData | app/api/endpoints/dashboard.py:73-76 | the weekly list has seven entries in ascending date order, each with its bucket |
| Dashboard.GetDashboard | app/api/endpoints/dashboard.py:19-92 | total notes is the user's note count; the week has 7 days from Monday, each holding the user's total for that day; the week's counts are the sum over the week and equal the sum of the 7 entries; today's prevalent emotion is always present and is the first maximum of today's total |
| Dashboard.DayTotalAppendAll | app/api/endpoints/dashboard.py:59-65 | a note adds its counts to its own day's bucket and to no other |
| Dashboard.WeekProperties | app/api/endpoints/dashboard.py:27-84 | totals computed over the fetched notes equal those over all of the user's notes |
| Dashboard.WeekTotalsOfFetched | app/api/endpoints/dashboard.py:59-76 | the week total of the fetched notes equals that of all the user's notes and the sum of the 7 entries |
| Dashboard.WeeklySumOfWeek | app/api/endpoints/dashboard.py:59-76 | the sum of the seven daily entries is the week's total |
| Dashboard.WeekDaysOfFetched | app/api/endpoints/dashboard.py:27-36 | on every day of the week the fetched notes have the same total as all of the user's notes |
| Dashboard.WeeklySumIsSumOfDays | app/api/endpoints/dashboard.py:73-76 | summing a list of daily entries gives the sum of their days' totals |
| Dashboard.SundayIsFetched | app/api/endpoints/dashboard.py:28-36 | a note at any time on Sunday is fetched |
| Dashboard.NextMondayIsFetchedButNotCounted | app/api/endpoints/dashboard.py:28-61 | a note stamped within the first second of next Monday is fetched but dated outside the seven buckets |
| NoteEndpoints.OwnedNote | app/api/endpoints/notes.py:47-49 | the guard passes exactly when the note found by id exists and belongs to the caller |
| NoteEndpoints.OwnedNoteIff | app/api/endpoints/notes.py:60-62 | with unique ids, the guard fails exactly when no note with that id belongs to the caller |
| NoteEndpoints.UpdateNote | app/api/endpoints/notes.py:47-51 | 404 exactly when the guard fails, and then the store is unchanged; otherwise only that note's text is replaced |
| NoteEndpoints.DeleteNote | app/api/endpoints/notes.py:60-64 | 404 exactly when the guard fails, and then the store is unchanged; otherwise that note is removed and returned |
| NoteEndpoints.NotesOnDay | app/api/endpoints/notes.py:76-79 | the query holds exactly the caller's notes dated that day |
| NoteEndpoints.GetDailyAnalysis | app/api/endpoints/notes.py:76-92 | the answer carries the requested date, exactly the caller's notes of that day, and their summed counts |
| NoteEndpoints.DailyTotalsAreDayTotal | app/api/endpoints/notes.py:81-86 | the daily totals equal the user's day total used by the dashboard |
| NoteEndpoints.NotesOnDayIsOnDayOfUser | app/api/endpoints/notes.py:76-79 | filtering by user and date at once is filtering by user, then by date |
| NoteEndpoints.DailyAnalysisOfEmptyDay | app/api/endpoints/notes.py:76-92 | a day without notes gives no notes and all-zero totals |
| NoteEndpoints.NotesInRange | app/api/endpoints/notes.py:115-118 | the range query keeps exactly the caller's notes with the start bound inclusive and the end bound strict |
| NoteEndpoints.GroupByDay | app/api/endpoints/notes.py:119-121 | every group's date lies in the requested days |
| NoteEndpoints.SummaryGroups | app/api/endpoints/notes.py:106-121 | the grouped rows of the summary query; no contract of its own: `NoteEndpoints.GroupsAscending`, `NoteEndpoints.GroupsHoldDayTotals`, `NoteEndpoints.GroupsAreNonEmptyDays` and `NoteEndpoints.NonEmptyDaysHaveGroups` characterise it |
| NoteEndpoints.GetEmotionsSummary | app/api/endpoints/notes.py:124-137 | one result row per group, with the group's date and the first maximum of its sums |
| NoteEndpoints.GroupsAscending | app/api/endpoints/notes.py:119-121 | group dates strictly increase, so no date appears twice |
| NoteEndpoints.GroupsHoldDayTotals | app/api/endpoints/notes.py:109-121 | each group holds the sums of its day |
| NoteEndpoints.GroupsAreNonEmptyDays | app/api/endpoints/notes.py:119-121 | every group's day has a note |
| NoteEndpoints.NonEmptyDaysHaveGroups | app/api/endpoints/notes.py:119-121 | every day in range with a note has a group |
| NoteEndpoints.RangeOnDayIsNotesOnDay | app/api/endpoints/notes.py:106-118 | on a day within the range the range query holds that day's notes |
| NoteEndpoints.HasNoteOnIff | app/api/endpoints/notes.py:119-121 | a day has a note exactly when the day filter is non-empty |
| NoteEndpoints.RangeDayIsDailyAnalysis | app/api/endpoints/notes.py:106-121 | inside the range, a day's sums and whether it has notes are those of the daily analysis |
| NoteEndpoints.SummaryRowsAreDailyAnalyses | app/api/endpoints/notes.py:106-121 | each summary row is a day from start to end date inclusive with notes, holding that day's daily-analysis totals |
| NoteEndpoints.SummaryCoversNonEmptyDays | app/api/endpoints/notes.py:106-125 | every day from start to end date inclusive with notes has a summary row: the whole end date is covered |
| NoteEndpoints.SummaryAscending | app/api/endpoints/notes.py:119-125 | summary dates strictly increase |
| NoteEndpoints.SummaryOfEmptyRange | app/api/endpoints/notes.py:106-121 | an end date before the start date gives no rows |
| Chatbot.ChatWindowStart | app/services/chatbot_service.py:22-27 | the window starts exactly at midnight (00:00) of the Monday of the current UTC week, which is at or before now |
| Chatbot.ChatWindowEnd | app/services/chatbot_service.py:28 | the window ends at the following Monday 00:00, after now |
| Chatbot.BuildPrompt | app/services/chatbot_service.py:19-62 | totals are the sum over the notes fetched for the week window; the prevalent emotion is their first maximum; the prompt is exactly the system, assistant and user messages, with the emotion named in the second (through `Chatbot.EmotionSummary`, the f-string at app/services/chatbot_service.py:60) and the user text unchanged in the third |
| Chatbot.ChatWindowIff | app/services/chatbot_service.py:23-37 | a note is fetched exactly when it is the user's and is dated Monday to Sunday of the current week, or stamped exactly at the following Monday 00:00 |
| Chatbot.NoNotesNameHappy | app/services/chatbot_service.py:42-60 | with nothing fetched the prompt says the prevalent emotion is happy |
| Sequences.IndexOf | app/api/endpoints/chat.py:25-26 | the position found holds the element and no earlier position does; it is the length exactly when the element is absent |
| Chat.RemoveFirst | app/api/endpoints/chat.py:25-26 | `list.remove` deletes the first occurrence, and an absent socket leaves the list as it is |
| Chat.Connected | app/api/endpoints/chat.py:17-21 | the registry after `connect`; no contract of its own: `Chat.ConnectAppends` and `Chat.ConnectKeepsNoEmptyLists` characterise it |
| Chat.Disconnected | app/api/endpoints/chat.py:23-30 | the registry after `disconnect`, or KeyError; no contract of its own: `Chat.DisconnectRemovesFirst` and `Chat.ConnectThenDisconnect` characterise it |
| Chat.ConnectAppends | app/api/endpoints/chat.py:19-21 | connect appends the socket after the user's earlier sockets, creates a one-element list for a new user, and leaves other users alone |
| Chat.ConnectKeepsNoEmptyLists | app/api/endpoints/chat.py:17-21 | connect never creates an empty list |
| Chat.DisconnectRemovesFirst | app/api/endpoints/chat.py:23-30 | disconnect fails exactly for a user without an entry; otherwise it removes the first occurrence, deletes the user when the list empties, keeps no empty list and leaves other users alone |
| Chat.ConnectThenDisconnect | app/api/endpoints/chat.py:17-30 | connecting a new socket and then disconnecting it restores the registry |
| Chat.RemoveFirstOfAppended | app/api/endpoints/chat.py:25-26 | removing a socket appended to a list without it gives the list back |
| Chat.ConnectionManager.constructor | app/api/endpoints/chat.py:14-15 | the registry starts empty |
| Chat.ConnectionManager.Connect | app/api/endpoints/chat.py:17-21 | the registry becomes the connect update of the old one and keeps no empty list |
| Chat.ConnectionManager.Disconnect | app/api/endpoints/chat.py:23-30 | KeyError exactly when the user has no entry, and then nothing changes; otherwise the registry becomes the disconnect update |
| SocketServer.Split | app/main.py:65 | `str.split`: at least one piece, no piece holds the separator, and the pieces are the text up to each separator in turn |
| SocketServer.JoinSplit | app/main.py:65 | joining the pieces with the separator gives the text back |
| SocketServer.FirstToken | app/main.py:64-68 | no token exactly when no parameter starts with `token=` (`SocketServer.StartsWith` is `str.startswith`) |
| SocketServer.FirstTokenIsFirstMatch | app/main.py:65-68 | the token comes from the first parameter that starts with `token=` |
| SocketServer.EmptyQueryHasNoToken | app/main.py:63-69 | an empty query string gives no token |
| SocketServer.TokenValue | app/main.py:67 | `param.split('=')[1]` of a `token=` parameter is the rest of the parameter after `token=`, up to its next `=` |
| SocketServer.TokenValueTruncates | app/main.py:67 | the token is the text up to its first `=`, so a token containing `=` is cut short |
| SocketServer.EmptyTokenIsEmptyString | app/main.py:66-67 | `token=` with nothing after it gives the empty string, not None |
| SocketServer.ExtractToken | app/main.py:63-68 | the loop with `break` returns the token of the first matching parameter |
| SocketServer.Server.constructor | app/main.py:57 | no session is registered at start |
| SocketServer.Server.Connect | app/main.py:61-76 | the user is the authentication result of the extracted token; on failure nothing is recorded; on success only this sid is mapped to the user |
| SocketServer.Server.Message | app/main.py:81-91 | an unknown sid is refused; an absent or empty message is ignored; otherwise the user's text goes to the assistant |
| SocketServer.Server.Disconnect | app/main.py:95-96 | the sid is removed if present and its user returned; an absent sid is tolerated |

## Left out

- Database sessions, commits, refreshes and SQL: the store is an in-memory sequence of notes, and the order a query returns is the store's order.
- Row order of the summary's `GROUP BY`: SQL promises no order, and the model returns the groups in ascending date order.
- Null group sums (`summary.happy or 0`), which cannot arise: a group exists only for a day with a note, and note counts are natural numbers, never null.
- Time zones and real calendars: timestamps are UTC microseconds and dates are day numbers. The dashboard's `date.today()` is local and naive while `created_at` is UTC-aware; the model passes today's day number as a parameter and ignores the difference.
- ISO date strings: the dashboard's bucket keys are day numbers rather than `isoformat()` strings, so sorting the keys is ascending numeric order.
- Analysis.Lower: covers ASCII case only, because full Unicode lowercasing cannot be stated without Python's Unicode tables.
- Analysis.IsWordChar: `\w` is taken as ASCII letters, digits and underscore, for the same reason.
- JWT decoding and the user lookup in `authenticate_user`: modelled as the function parameter `authenticate` of `SocketServer.Server.Connect`.
- The OpenAI call, Socket.IO and WebSocket transport, `accept`/`send`/`emit`, and the websocket endpoint loop in chat.py: I/O that the model cannot see. `Chat.ConnectionManager` treats sockets as opaque integers.
- The clock in `get_chatbot_response`: `now` is a parameter of `Chatbot.BuildPrompt`.
- The `created_at` default clock of the note table (app/models/note.py:12): `now` is a parameter of `NoteStore.CreateUserNote`.
- SocketServer.Server.Message: takes the payload's message as an `Option<string>`, so `data.get('message')` on a payload that is not a dictionary (an AttributeError) and Python truthiness of a message that is not a string are not modelled.
- Dashboard profile fields (`name`, `profile_photo_url`, `plan`): copied from the user record, so they carry no behaviour.
- `read_notes` and `create_note` in notes.py: pass-throughs. `read_notes` passes its optional start and end dates to `get_notes_by_user_and_date`, which is `NoteService.NotesByUserAndDate`; `create_note` calls `NoteStore.CreateUserNote`.
- Auto-increment ids: `NoteStore` draws ids from a counter, `nextId`. The database would assign them.
- `Dashboard.AddNotes` and `Analysis.CountWord`: the dashboard loops and the inner loop of `analyze_text` are separate methods here, so each loop is proved on its own.
