# Life-planning dashboard core, in Dafny

This project models the logic of a single-file Streamlit dashboard for
life planning (`MVP_DEMO.py`). The dashboard keeps one `user_data` row per
user in a hosted table store. It asks a language model for advice in four
categories (life, investment, health, education) and keeps a shared
`daily_updates` snapshot of news, one per calendar day. The model covers:

- the calculators: health score, BMI status, stage milestones, education
  progress and the weighted life score (module `Metrics`);
- the reply formatter that turns the model's JSON reply into display text,
  and the language model as an external collaborator (module `Advice`);
- `save_user_data` / `load_user_data` over the `user_data` table, with the
  update-or-insert merge stated as a function `Upsert` (module `UserStore`);
- the per-user, per-category, per-day suggestion cache (module
  `SuggestionCache`);
- `get_daily_updates` / `load_daily_updates` over the `daily_updates` table
  (module `DailyUpdates`);
- the asset-allocation form rule and the education form's flattening of
  children into `child_{i}_*` columns (module `Forms`);
- `register_user` / `authenticate_login` over the `users` table (module
  `Accounts`).

The following collaborators are parameters:

- The table store is a set of classes holding `seq` rows.
- Every storage call that can raise is steered by an explicit fault plan
  (`StorageFault`, `DailyFault`) or a flag (`selectRaises`, `lookupRaises`).
- The language model is a class that logs every request and every reply
  and answers with arbitrary text.
- `json.loads` is a parameter `parse: string -> Option<Reply>`.
- SHA-256 is a parameter `hash: string -> string`.
- The clock is a pair of strings: `today` is the ISO date, `now` the ISO
  timestamp.

Python behaviour that matters is written out:

- truthiness (`Truthy`);
- `dict.get` with a default (`Get`);
- `int()` truncation of the life score (`ScoreOf`);
- `str.find` (`FindBrace`);
- the merge semantics of a row update (`map` union).

Behaviour a reader might expect but the code does not have:

- The allocation form rejects percentages that do not sum to exactly 100.
  It does not rescale them.
- Form fields are saved under their own names. There is no field mapper or
  sanitiser.
- Education progress is truncated toward zero, so the mean of 40 and 95 is
  67, not 68.
- Nothing forces a suggestion to refresh. The cache only expires when the
  date changes.

## Model

| member | source | states |
|---|---|---|
| Metrics.BmiPenalty | MVP_DEMO.py:1206-1210 | the BMI deduction is 20 exactly outside [18.5, 30], 10 exactly in [18.5, 20) or (25, 30], 0 exactly in [20, 25] |
| Metrics.ExerciseAdjust | MVP_DEMO.py:1212-1214 | the exercise adjustment lies in [-20, 10]; an unknown frequency gives 0; -20 exactly for "从不", +10 exactly for "每天" |
| Metrics.SleepPenalty | MVP_DEMO.py:1216-1220 | the sleep deduction is 0 exactly in [7, 8], 5 exactly in [6, 7) or (8, 9], 10 exactly outside [6, 9] |
| Metrics.AgeAdjust | MVP_DEMO.py:1226-1230 | -5 exactly above 60, +5 exactly below 25, 0 exactly in [25, 60] |
| Metrics.HealthScore | MVP_DEMO.py:1202-1232 | the health score lies in [30, 100]; it is the raw score unless the raw score reaches 100, and it is 100 exactly when the raw score is at least 100 |
| Metrics.HealthScoreFallsAwayFromBand | MVP_DEMO.py:1206-1210 | with everything else fixed, moving the BMI further from the healthy range on the same side (up from 25, or down from 20) never raises the health score |
| Metrics.BmiStatusOf | MVP_DEMO.py:1234-1243 | the four BMI labels partition the line: underweight below 18.5, normal in [18.5, 24), overweight in [24, 28), obese from 28 |
| Metrics.BmiStatusLabels | MVP_DEMO.py:1236-1243 | the returned text is "偏瘦", "正常", "偏胖" or "肥胖" exactly in the bands below 18.5, [18.5, 24), [24, 28) and from 28 |
| Metrics.StageMilestones | MVP_DEMO.py:1245-1258 | each of the five known stages has three milestones; any other grade has 0 |
| Metrics.GradeProgress | MVP_DEMO.py:1266-1269 | a grade's progress lies in [0, 95]; an unknown grade gives 0; 95 exactly for university |
| Metrics.TotalProgress | MVP_DEMO.py:1264-1269 | the summed progress of n children lies in [0, 95n] |
| Metrics.EducationProgress | MVP_DEMO.py:1260-1270 | the truncated mean progress lies in [0, 95]; no children gives 0 |
| Metrics.CalculateEducationProgress | MVP_DEMO.py:1260-1270 | the accumulating loop returns exactly `EducationProgress` of the children, within [0, 95] |
| Metrics.PrimaryAndUniversityExample | MVP_DEMO.py:1268-1270 | a primary-school child and a university child give 67, because the mean 67.5 is truncated |
| Metrics.ScoreOf | MVP_DEMO.py:1278-1280 | the life score lies in [0, 100]; within range it is the integer part of 0.4w+0.3h+0.3e; at 100 or above it is 100; below 1 it is 0 |
| Metrics.LifeScore | MVP_DEMO.py:1272-1280 | a score exists exactly when the wealth, health and education inputs (after defaults) are all numbers, and then it lies in [0, 100] |
| Metrics.LifeScoreDefaults | MVP_DEMO.py:1274-1276 | an empty record scores 50; a record with only non-zero total assets scores 58 (wealth 70); zero assets score 50 |
| Metrics.LifeScoreExample | MVP_DEMO.py:1272-1280 | wealth 70, health 85 and education 75 give a life score of 76 |
| Advice.LanguageModel.Suggest | MVP_DEMO.py:220-288 | a suggestion call never raises; it is logged as one request and returns the text that the reply log records |
| Advice.LanguageModel.AskFor | MVP_DEMO.py:340-383 | a snapshot completion is logged as one request; its text is recorded only when the call does not raise |
| Advice.FindBrace | MVP_DEMO.py:259 | the result is the index of the first '{', or -1 exactly when there is none |
| Advice.JsonSlice | MVP_DEMO.py:258-264 | the parser sees a suffix of the completion: the whole text when it has no '{', else the suffix starting at the first '{' |
| Advice.AppendSection | MVP_DEMO.py:268-279 | the loop appends a header and then one `- item` line per item, and nothing at all for an empty list |
| Advice.FormatReply | MVP_DEMO.py:266-283 | the formatter's output is `Rendered` of the reply: the summary, three optional sections and the confidence line, empty lines dropped and joined by newlines |
| Advice.RenderCompletion | MVP_DEMO.py:256-286 | a completion the parser rejects is shown raw; one it accepts is shown as `Rendered` of the parsed reply |
| Advice.BulletsAreMarked | MVP_DEMO.py:270-279 | every bullet line starts with '-' |
| Advice.BulletsHoldItems | MVP_DEMO.py:270-279 | bullet i is "- " followed by item i |
| Advice.NonEmptyKeepsNonEmpty | MVP_DEMO.py:283 | filtering out empty lines keeps a list of non-empty lines unchanged |
| Advice.BodyLinesNonEmpty | MVP_DEMO.py:268-282 | no header, bullet or confidence line is empty |
| Advice.OnlyEmptySummaryDropped | MVP_DEMO.py:267-283 | the empty-line filter drops the summary when it is empty and nothing else |
| Advice.RenderedLineCount | MVP_DEMO.py:266-283 | the number of entries joined is 1 for a non-empty summary, plus 1 + k for each non-empty section of k items, plus 1 for a confidence (headers and the confidence entry begin with a newline, so each also shows a blank line before it) |
| Advice.SummaryFirst | MVP_DEMO.py:267-283 | the rendered text starts with the summary |
| Advice.HeadersAreDistinct | MVP_DEMO.py:269-281 | the three section headers differ from each other and from every confidence line |
| Advice.SectionsPresentIffNonEmpty | MVP_DEMO.py:268-279 | each section header appears exactly when its list is non-empty |
| Advice.ConfidenceLast | MVP_DEMO.py:280-282 | with a confidence, the last line is its confidence line; without one, no confidence line appears |
| Advice.RecommendationPlacement | MVP_DEMO.py:268-271 | with recommendations, the body starts with their header and item i is at line i + 1 |
| Common.FirstIndexWhere | MVP_DEMO.py:426-428 | the index of the first row satisfying the filter, or -1 exactly when none does |
| UserStore.FirstIndex | MVP_DEMO.py:402-404 | the index of the first row owned by the user, or -1 exactly when no row is owned |
| UserStore.UpsertFirstRow | MVP_DEMO.py:400-416 | after an update or insert, the user's first row is the old first row merged with the patch, or a new row carrying the patch, the owner and the creation time |
| UserStore.UpsertSetsPatchedKeys | MVP_DEMO.py:410-416 | after saving, every patched column holds the patched value and every other column keeps its old value |
| UserStore.UpsertLeavesOthers | MVP_DEMO.py:410-416 | a save adds at most one row and leaves every other user's rows and lookups as they were |
| UserStore.UpsertKeepsUniqueOwners | MVP_DEMO.py:400-416 | if each user owned at most one row before a save, the same holds after it |
| UserStore.UserDataTable.SelectFirst | MVP_DEMO.py:424-428 | the select returns the user's first row, as `FirstRow` defines it |
| UserStore.UserDataTable.UpdateWhere | MVP_DEMO.py:411 | every row the user owns is merged with the patch and every other row is unchanged |
| UserStore.UserDataTable.Insert | MVP_DEMO.py:415 | the new row is appended |
| UserStore.SaveUserData | MVP_DEMO.py:400-420 | the save succeeds exactly when no storage call raises; it stamps the caller's dict; the table becomes `Upsert` of the stamped dict or stays unchanged; at most one row per user is kept |
| UserStore.LoadUserData | MVP_DEMO.py:422-430 | the load returns the user's first row, or the empty dict when there is none or the select raises |
| UserStore.SaveThenLoad | MVP_DEMO.py:400-430 | loading right after a save gives back every saved field |
| UserStore.SaveKeepsCreatedAt | MVP_DEMO.py:405-415 | an update keeps the row's creation time unless the caller's dict carries one |
| SuggestionCache.GetCachedSuggestion | MVP_DEMO.py:291-319 | no user id or a failed lookup costs one direct call; a fresh cached suggestion is returned with no call; a miss costs one call whose text is upserted with today's date; a failed write costs two calls and stores nothing |
| SuggestionCache.MissThenHit | MVP_DEMO.py:302-316 | after a miss is stored, the same day's next lookup hits exactly when the generated text is non-empty |
| SuggestionCache.MissKeepsOtherCategories | MVP_DEMO.py:309-311 | storing one category's suggestion leaves the other categories' text, date and hit status unchanged |
| SuggestionCache.MissKeepsOtherUsers | MVP_DEMO.py:309-315 | storing a suggestion leaves every row of another user unchanged, removes no row, leaves other users' lookups unchanged and keeps one row per user |
| SuggestionCache.SameDayTwice | MVP_DEMO.py:291-319 | two same-day requests with working storage call the model at most once and return the same text, unless the first text was empty |
| DailyUpdates.FirstIndexFor | MVP_DEMO.py:326-328 | the index of the first snapshot row of the date, or -1 exactly when there is none |
| DailyUpdates.Remapped | MVP_DEMO.py:328-333 | a stored row is handed out under exactly the three short keys, each with its column or "" |
| DailyUpdates.DailyTable.SelectFirst | MVP_DEMO.py:436-438 | the select returns the first snapshot row of the date |
| DailyUpdates.GetDailyUpdates | MVP_DEMO.py:321-397 | an existing snapshot is returned remapped with no model call; otherwise three completions, one inserted snapshot row holding their texts, and the texts under short keys are returned; any raise gives nothing and stores nothing, and a completion that raises stops the prompts after it; the model's request and reply logs are stated on every path |
| DailyUpdates.LoadDailyUpdates | MVP_DEMO.py:432-444 | the load returns today's raw row when one exists, with no model call; otherwise it returns whatever the generator returns (short keys), or the empty dict on failure; the model's request and reply logs are stated on every path |
| DailyUpdates.NewsShown | MVP_DEMO.py:542-550 | a page shows nothing for an empty dict; otherwise it shows the column's value when the dict has the column and "暂无更新" when it does not (the same guarded reads recur at 641-642, 766-767 and 906-907) |
| DailyUpdates.DailyTable.Insert | MVP_DEMO.py:386-392 | the snapshot row is appended and every existing row is kept |
| DailyUpdates.StoredSnapshotShowsNews | MVP_DEMO.py:386-392 | a stored snapshot row shows its finance, health and education texts on a page that reads it from the table |
| DailyUpdates.FirstLoadShowsPlaceholder | MVP_DEMO.py:440-441 | the short-keyed dict returned by the load that generates the day's snapshot makes the page that made that load (the dashboard, on the day's first run) show the placeholder for all three columns |
| DailyUpdates.LaterLoadFindsSnapshot | MVP_DEMO.py:436-438 | once the snapshot is stored, every later load that day finds it, so pages loaded later show the stored news |
| DailyUpdates.FirstLoadCounterexample | MVP_DEMO.py:432-444 | the stored text "A股收涨" is shown when read from the table, but the page whose load generated it shows "暂无更新" instead |
| DailyUpdates.AsColumns | MVP_DEMO.py:386-392 | the generated texts are renamed to exactly the three column names the pages read |
| DailyUpdates.LoadDailyUpdatesCorrected | MVP_DEMO.py:432-444 | as intended: with no failure, the page shows exactly the columns of today's stored snapshot, whether it already existed or was just generated |
| Forms.AllocationData | MVP_DEMO.py:586-596 | the form is accepted exactly when the four percentages sum to 100, and then the six fields are kept as entered |
| Forms.SavedAllocationSumsTo100 | MVP_DEMO.py:586-597 | after an accepted allocation is saved, the user's row holds percentages summing to 100 |
| Forms.SubmitAllocation | MVP_DEMO.py:586-599 | a sum other than 100 saves nothing; otherwise the save succeeds exactly when storage does; a failed save leaves the table unchanged; a successful one makes the table the upsert of the entered fields, and the user's row then sums to 100 |
| Forms.ChildFieldsKeys | MVP_DEMO.py:845-849 | child i's fields are exactly the four `child_{i}_*` columns |
| Forms.EducationFormData | MVP_DEMO.py:837-859 | the loop that fills the dict child by child builds exactly `EducationData` of the form's inputs |
| Forms.ChildrenFieldsContents | MVP_DEMO.py:845-849 | the children's fields are exactly the `child_{i}_*` columns of the entered indices, each holding what was entered |
| Forms.EducationDataContents | MVP_DEMO.py:837-859 | with children, the dict holds the count, budget, plan, computed progress and exactly the `child_{i}_*` columns of the entered children, as entered; without children, only a count and progress of 0 |
| Forms.SavedEducationReadsBack | MVP_DEMO.py:837-853 | after the form is saved, the user's row holds the new count, the progress and every entered child's four fields |
| Forms.StaleChildKeysSurvive | MVP_DEMO.py:837-860 | columns of children beyond the new count keep their stored values after a save |
| Forms.SubmitEducation | MVP_DEMO.py:837-860 | the save succeeds exactly when storage does; the table becomes the upsert of the form's dict or stays unchanged; the user's row then holds the new count and every entered child; `child_{i}_*` columns at or beyond the new count survive; other users' rows are untouched and one row per user is kept |
| Accounts.FirstIndexNamed | MVP_DEMO.py:194-196 | the index of the first account with the username, or -1 exactly when there is none |
| Accounts.LoginResult | MVP_DEMO.py:195-196 | login succeeds exactly when the first account with the name stores the hash of the given password, and it returns that account |
| Accounts.UsersTable.SelectFirst | MVP_DEMO.py:194-196 | the select returns the first account with the username |
| Accounts.AuthenticateLogin | MVP_DEMO.py:189-199 | the result is `LoginResult` of the table, or nothing when the lookup raises |
| Accounts.UsersTable.Insert | MVP_DEMO.py:209-214 | the new account is appended and every existing account is kept |
| Accounts.RegisterUser | MVP_DEMO.py:201-217 | registration succeeds exactly when storage works and the username is free; it then appends one account with the hashed password; otherwise the table is unchanged; usernames stay unique |
| Accounts.RegisterThenLogin | MVP_DEMO.py:189-217 | a user who has just registered can log in with the same password |
| Accounts.RegisterKeepsOtherLogins | MVP_DEMO.py:201-217 | registering one user leaves every other username's login result unchanged |

## Left out

- The Streamlit UI is not modelled: pages, widgets, charts, session state, reruns and `st.error` / `st.success` messages.
- The scheduler thread that refreshes the daily snapshot is not modelled, and neither is concurrency between sessions.
- The language model's HTTP call, the prompts' wording and the `choices`/`message` response probing are not modelled; the model's text is arbitrary.
- `get_ai_suggestion`'s own apology text on failure is not modelled separately; `LanguageModel.Suggest` covers it as "some text".
- `json.loads` is a parameter; the JSON grammar is not modelled.
- SHA-256 is a parameter; the hash function itself is not modelled.
- Database schema creation is not modelled.
- Metrics.HealthScore: BMI and sleep hours are exact reals, so floating-point rounding is not modelled.
- Metrics.LifeScore: the weighted sum is exact, so floating-point rounding before `int()` is not modelled.
- Advice.FormatReply: list items and the confidence are taken as already formatted text. A summary that is not a string (which would make the join raise) is not modelled.
- Advice.RenderCompletion: a `None` completion, rendered as the text "None", is not modelled.
- SuggestionCache.TextOf: a cached suggestion that is not text renders as "", not as its `str()`. Suggestion columns only ever receive text.
- SuggestionCache.GetCachedSuggestion: the date and both timestamps of one call come from one `today` and one `now`.
- UserStore.SaveUserData: the update and creation timestamps of one save are the same `now`.
- The table store is sequences of maps. Column types, row identifiers and duplicate rows created by concurrent inserts are not modelled.
- Metrics.CalculateEducationProgress: the truncated mean itself is defined by a function. The method states equality with it and its range, not the division bounds.

## Findings

| source | as written | input that shows it | evidently intended | confidence | as-written member | corrected member |
|---|---|---|---|---|---|---|
| MVP_DEMO.py:440-441 | on a day's first load, `load_daily_updates` returns the dict of `get_daily_updates`, keyed `finance`/`health`/`education`, while the pages read `finance_news`/`health_tips`/`education_info` | no snapshot for today and the model answers "A股收涨": the row is stored, but the page whose load generated it (the dashboard, on the day's first run) shows "暂无更新"; pages loaded later read the stored row | both paths hand the pages the stored column names, so the news just generated is shown | not executed | DailyUpdates.FirstLoadCounterexample | DailyUpdates.LoadDailyUpdatesCorrected |
