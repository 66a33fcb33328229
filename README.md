# LifeMemoryTracker core in Dafny

LifeMemoryTracker is a personal life-coaching service. Every user message is
stored as a life event in one JSON memory file (`life_memory.json`). The file
holds `life_events`, `goals`, `patterns` and `warnings`. Two near-duplicate
managers read and write it:

- `MemoryManager` (memory_manager.py) is the one the life coach uses. Its
  events carry an `id`, and it stamps `last_updated` on every save.
- `LifeMemoryManager` (models.py) is the one the career coach and the
  analytics use. Its events carry a `type`, its defaults include a
  `user_profile`, and it saves the record exactly as given.

Around that store sit:

- keyword analytics over events and goals (analytics.py);
- the life coach (life_coach.py): a rolling mood window with a negative-mood
  warning, a context builder and a keyword fallback reply;
- the career coach (career_coach.py): career-event filters, keyword counts,
  insights, skill recommendations and career plans.

The model is split by module:

- `Json`, `Text` and `Store` hold the shared pieces. `Json` is the value
  type of the file. `Text` holds substring search, ASCII lower-casing,
  `split`, slices and filters. `Store` holds the file and the default-key
  fill.
- `Memory`, `Models`, `Analytics`, `LifeCoaching` and `CareerCoaching`
  follow one source file each.

The file is a `JsonFile` object whose `stored` field is missing, unreadable
or a record. Its `writable` flag says whether opening it for writing
succeeds. Each manager is a class over that file: every operation loads the
file afresh, and each mutator states the whole new file contents.

The clock and the language-model API are parameters:

- `now` is the `datetime.now()` reading and `today` the `date.today()`
  string;
- `dayOf` parses an ISO date to a day number;
- `reply` is the API's answer, or None when the call raises.

Goals are a list, and no operation updates a goal's status. The managers
accept an empty goal text; only the web layer rejects it (routes.py:175).

## Model

| member | source | states |
|---|---|---|
| Store.JsonFile.Write | memory_manager.py:39-44 | overwrites the whole file when it can be opened for writing and reports whether it could; otherwise the file is unchanged |
| Store.WithDefaults | memory_manager.py:26-28 | keys already present keep their values; every missing default key gets its default; no other key appears |
| Store.FillDefaults | memory_manager.py:26-28 | the key-filling loop over the defaults yields exactly `WithDefaults` |
| Store.WithDefaultsShaped | models.py:31-33 | filling a well-shaped record from well-shaped defaults keeps it well shaped |
| Store.FilledIsIdentity | memory_manager.py:26-29 | a record that has every default key is returned unchanged, so reloading a saved record gives it back |
| Store.RecentEventsPositive | memory_manager.py:76-79 | for limit >= 1: the last min(limit, n) events in stored order, and [] when there are none |
| Store.RecentEventsZero | memory_manager.py:79 | `list[-0:]` is the whole list, so limit 0 returns every event |
| Store.ActiveGoalsSpec | memory_manager.py:81-84 | exactly the goals whose status is "active", in stored order |
| Store.IdsAreUnique | memory_manager.py:51 | while ids equal 1-based positions, no two items share an id |
| Store.IdsStayPositions | memory_manager.py:50-57 | appending an item numbered one past the count, or one with no id, keeps ids equal to positions |
| Store.WithGoal | memory_manager.py:62-73 | one goal appended with id = previous count + 1, status "active", progress 0 and the given target date; events, patterns, warnings and other keys unchanged |
| Store.WithGoalKeepsIds | models.py:72-81 | adding a goal keeps goal ids equal to positions |
| Memory.DefaultMemory | memory_manager.py:10-17 | the defaults: empty events, goals and warnings, no patterns, both timestamps the construction time |
| Memory.Stamp | memory_manager.py:38 | save sets `last_updated` to now and changes no other key |
| Memory.WithEvent | memory_manager.py:48-57 | exactly one event appended, with id = previous count + 1 and the given text; earlier events, goals, patterns and warnings unchanged |
| Memory.WithEventKeepsIds | memory_manager.py:50-57 | adding an event keeps event ids equal to positions |
| Memory.Stats | memory_manager.py:99-107 | each counter is the length of the list it counts; active goals <= total goals |
| Memory.MemoryManager.constructor | memory_manager.py:8-17 | the manager is bound to its file and its defaults' creation time |
| Memory.MemoryManager.Loaded | memory_manager.py:19-33 | what `load_memory` returns for the file as it stands always has the four lists and every default key |
| Memory.MemoryManager.LoadMemory | memory_manager.py:19-33 | a stored record keeps its keys and gains the missing defaults; a missing or unreadable file gives the defaults |
| Memory.MemoryManager.SaveMemory | memory_manager.py:35-44 | the stamped record replaces the file and True is returned, or False and the file unchanged on an I/O error |
| Memory.MemoryManager.ReloadSaved | memory_manager.py:19-29 | loading right after a save returns the stamped record |
| Memory.MemoryManager.AddLifeEvent | memory_manager.py:46-58 | the file then holds the loaded record with the one new event, stamped; unchanged when it cannot be written |
| Memory.MemoryManager.AddGoal | memory_manager.py:60-74 | the file then holds the loaded record with the one new goal, stamped; unchanged when it cannot be written |
| Memory.MemoryManager.GetRecentEvents | memory_manager.py:76-79 | the last min(limit, n) stored events, in order, for limit >= 1 |
| Memory.MemoryManager.GetActiveGoals | memory_manager.py:81-84 | the stored goals with status "active", as an order-preserving subsequence |
| Memory.MemoryManager.UpdatePattern | memory_manager.py:86-95 | only `patterns[name]` changes, to `{data, last_updated}`; other patterns, events and goals stay |
| Memory.MemoryManager.GetMemoryStats | memory_manager.py:97-107 | the counters of the loaded record |
| Models.DefaultStructure | models.py:12-22 | the defaults: empty events, goals, warnings and patterns, and the default user profile |
| Models.WithTypedEvent | models.py:52-62 | one event appended with date = today, the given entry and type, and no id; everything else unchanged |
| Models.WithTypedEventKeepsIds | models.py:55-62 | a typed event, having no id, keeps the other manager's event ids at their positions |
| Models.LifeMemoryManager.constructor | models.py:9-22 | the manager is bound to its file |
| Models.LifeMemoryManager.Loaded | models.py:24-38 | what `load_memory` returns always has the four lists and every default key, `user_profile` included |
| Models.LifeMemoryManager.LoadMemory | models.py:24-38 | missing top-level keys come from the default structure and present ones stay; a missing or unparsable file gives the default structure with empty lists |
| Models.LifeMemoryManager.SaveMemory | models.py:40-48 | the record replaces the file exactly as given and True is returned, or False and the file unchanged |
| Models.LifeMemoryManager.ReloadSaved | models.py:29-34 | loading right after a save returns the saved record |
| Models.LifeMemoryManager.AddLifeEvent | models.py:50-63 | the file then holds the loaded record with one typed event appended (type "general" by default) |
| Models.LifeMemoryManager.GetRecentEvents | models.py:65-68 | the last min(limit, n) stored events, in order, for limit >= 1 |
| Models.LifeMemoryManager.AddGoal | models.py:70-83 | the file then holds the loaded record with one goal appended, created today; earlier goals kept |
| Models.LifeMemoryManager.GetActiveGoals | models.py:85-88 | the stored goals with status "active", in stored order |
| Models.LifeMemoryManager.UpdatePattern | models.py:90-96 | only `patterns[name]` changes, to `{data, last_updated}` |
| Analytics.MentioningSpec | analytics.py:443-453 | the events that mention a keyword are exactly those, in stored order |
| Analytics.DateSetSpec | analytics.py:195-201 | the set of dates is exactly the dates of the events |
| Analytics.TrackingDays | analytics.py:195-201 | the number of distinct dates: at most the number of events, and zero exactly when there are none |
| Analytics.TrackingDaysAppend | analytics.py:195-201 | one more event adds a day exactly when its date is new |
| Analytics.MoodPointOf | analytics.py:53-65 | an event's mood score is positive minus negative keyword hits, each at most 10, each nonzero exactly when such a word occurs |
| Analytics.DailyMoodSpec | analytics.py:75 | `daily_mood` holds the mood points of the last min(30, n) events, in order, each score within [-10, 10] |
| Analytics.AnalyzeMoodTrends | analytics.py:43-79 | fails (the ValueError) exactly when some event date does not parse; otherwise `daily_mood` is `DailyMood` of the events |
| Analytics.Category | analytics.py:256-266 | a goal's category is the first of career, health, relationships, learning whose keyword it contains, else personal |
| Analytics.CategoryCount | analytics.py:251-268 | a category's count never exceeds the number of goals |
| Analytics.CategoryCountsPartition | analytics.py:251-268 | the five category counts add up to the number of goals |
| Analytics.CategorizeGoals | analytics.py:251-268 | a category is a key exactly when some goal falls in it; its value is that count; the values add up to the number of goals |
| Analytics.CountsTotalIsGoals | analytics.py:251-268 | a table holding exactly the nonzero category counts has the five counts as its sum |
| Analytics.OverdueListLength | analytics.py:270-285 | at most one overdue entry per goal |
| Analytics.OverdueListSound | analytics.py:270-285 | each reported goal has a target date strictly before today, and `days_overdue` is the difference |
| Analytics.OverdueListComplete | analytics.py:270-285 | every goal whose target date is before today is reported |
| Analytics.IdentifyOverdueGoals | analytics.py:270-285 | the method fails exactly when some target date does not parse; otherwise it returns the overdue list, each entry at least one day late |
| Analytics.RecoveredCount | analytics.py:322-332 | recoveries never outnumber challenges |
| Analytics.ResilienceScore | analytics.py:311-336 | 50 with fewer than five events, 75 with no challenge, else recoveries over challenges times 100, always within [0, 100] |
| Analytics.CalculateResilienceScore | analytics.py:311-336 | the nested window loop computes `ResilienceScore` |
| Analytics.TrackAchievements | analytics.py:370-396 | fails (the ValueError of the month grouping) exactly when some achievement date does not parse; otherwise the total is the number of achievement entries and `recent` the last min(10, total) of their records, in order |
| Analytics.CollectAchievements | analytics.py:376-383 | the collecting loop gives the records of exactly the achievement entries, in order, the stored `type` kept |
| Analytics.DatesParse | analytics.py:385-389 | the grouping loop gets through exactly when every date parses |
| Analytics.AnalyzeWeeklyMood | analytics.py:420-441 | "No entries this week" exactly for no events; otherwise positive, negative or balanced by comparing the keyword hits |
| Analytics.FirstMentioning | analytics.py:443-465 | the first n entries that mention a keyword, in stored order |
| Analytics.ExtractWeeklyAchievements | analytics.py:443-453 | at most five achievement entries, in stored order, each containing an achievement word |
| Analytics.ExtractWeeklyChallenges | analytics.py:455-465 | at most three challenge entries, in stored order, each containing a challenge word |
| Analytics.MentionedGoalsSpec | analytics.py:467-479 | a goal text is reported exactly when its goal (any goal, whatever its status) has one of its first three words in some entry; goal order is kept and no goal is reported twice |
| Analytics.IdentifyGoalsMentioned | analytics.py:467-479 | the nested loop with its `break` returns exactly `MentionedGoals` |
| Analytics.Unmentioned | analytics.py:493 | exactly the active goals' texts that were not mentioned |
| Analytics.SuggestNextWeekFocus | analytics.py:481-508 | one to three suggestions; the consistency, neglected-goal and challenge lines are each present exactly when their rule fires; the momentum line stands alone exactly when none fires |
| Analytics.NextWeekFocusSpec | analytics.py:481-508 | the pure rule list behind the suggestions: one to three lines, the consistency line first exactly when there are fewer than three entries, the neglected-goal line when some active goal goes unmentioned, the challenge line exactly when challenges recur, the momentum line alone exactly when no rule fires |
| Analytics.NextWeekNeglectedSpec | analytics.py:494-497 | a suggestion starts with the neglected-goal prefix exactly when some active goal goes unmentioned |
| Analytics.GenerateSummaryStats | analytics.py:29-41 | None exactly when the weekly average raises on an unparsable first or last date, or the consistency score raises, with seven or more entries, on any unparsable date; otherwise entry and goal counts are list lengths, active <= total, and days tracked is the number of distinct dates, at most the entries and zero exactly when there are none |
| LifeCoaching.MessageMoodScore | life_coach.py:140-152 | the mood of a message is within [-7, 7], positive only if a positive word occurs, negative only if a negative word occurs |
| LifeCoaching.MoodScoreOf | life_coach.py:146-152 | the two counting loops compute `MessageMoodScore` |
| LifeCoaching.NewWindow | life_coach.py:155-157 | the default window after one call holds the one score and date |
| LifeCoaching.SlideWindow | life_coach.py:156-162 | score and date appended, both cut to their last 30, other keys untouched, equal lengths kept |
| LifeCoaching.MoodUpdate | life_coach.py:155-162 | no stored window gives a new one; a readable one is slid; an unreadable one raises (None) |
| LifeCoaching.AllNegative | life_coach.py:168 | `all(score < 0)` holds exactly when every score is a negative integer |
| LifeCoaching.WarnedRecord | life_coach.py:169-173 | the saved snapshot has the warning appended and the unwrapped window under `mood_trends`; events and goals are the snapshot's |
| LifeCoaching.PatternOutcomeSpec | life_coach.py:137-176 | run on the file's record, events and goals are kept, and the warning is appended exactly under the warning rule |
| LifeCoaching.WarningsStayDistinct | life_coach.py:170-171 | a warning is appended only when not yet present, so warnings never repeat |
| LifeCoaching.WrappedWindowUnreadable | life_coach.py:155-156 | a window stored by `update_pattern` has no top-level `scores`, so reading it raises |
| LifeCoaching.AsWrittenWindowStuck | life_coach.py:155-164 | as written, after any number of calls the stored window is the one the first call wrote |
| LifeCoaching.AsWrittenNeverWarns | life_coach.py:166-173 | as written, from a store without a window, the warning rule never fires |
| LifeCoaching.CorrectedMoodUpdate | life_coach.py:155-162 | reading the window from `data`, a stored window is slid like a fresh one |
| LifeCoaching.CorrectedStep | life_coach.py:156-162 | one corrected call keeps the window equal to the last 30 scores and dates |
| LifeCoaching.CorrectedFirstCall | life_coach.py:155-164 | corrected, the first call on a store without `mood_trends` stores a window holding just that score and date |
| LifeCoaching.CorrectedCallSlides | life_coach.py:155-164 | corrected, a call on a stored window stores that window slid by the new score and date |
| LifeCoaching.CorrectedStoredStep | life_coach.py:155-164 | in a run of corrected calls, once a window is stored the next call stores it slid by that call's reading |
| LifeCoaching.CorrectedWindowSlides | life_coach.py:155-164 | corrected, after any calls the window holds the last 30 scores and dates, in order |
| LifeCoaching.CorrectedCallExtends | life_coach.py:155-164 | corrected, a call extends a window holding the last 30 of the earlier readings into the last 30 of the readings including the new one |
| LifeCoaching.LastFiveNegative | life_coach.py:167-168 | five negative readings in a row make the last five scores all negative |
| LifeCoaching.CorrectedWindowCanWarn | life_coach.py:166-168 | corrected, five negative messages in a row satisfy the warning rule |
| LifeCoaching.ContextPartsShape | life_coach.py:117-135 | at most the last five events, at most the first three goals and one pattern line |
| LifeCoaching.EventSectionShape | life_coach.py:121-125 | the event section is a header and one line for each of the last five events, in order |
| LifeCoaching.GoalSectionShape | life_coach.py:127-130 | the goal section is a header and one line for each of the first three goals, in order |
| LifeCoaching.EventLines | life_coach.py:121-125 | the event loop builds the event section |
| LifeCoaching.GoalLines | life_coach.py:127-130 | the goal loop builds the goal section |
| LifeCoaching.ContextPartsEmpty | life_coach.py:119-135 | there is some part exactly when there is an event, a goal or a pattern, and the joined parts are never the no-context text |
| LifeCoaching.BuildContext | life_coach.py:117-135 | the parts joined by newlines, or the no-context text exactly when there is nothing to show |
| LifeCoaching.FallbackResponse | life_coach.py:94-115 | a successful fallback reply of the first keyword group the lower-cased message mentions, else the default |
| LifeCoaching.LifeCoach.constructor | life_coach.py:13-22 | the coach is bound to its manager and to whether the API is available |
| LifeCoaching.LifeCoach.AnalyzePatterns | life_coach.py:137-176 | the file ends as the pattern outcome says, stamped, or is left alone when the window cannot be read |
| LifeCoaching.LifeCoach.GetMemorySummary | life_coach.py:178-191 | counts are list lengths, with the last five events, the active goals and the last three warnings |
| LifeCoaching.LifeCoach.GenerateResponse | life_coach.py:24-92 | the message is stored as an event before any reply; the reply is the API's when available, else the fallback; after an API reply a writable file holds `RepliedRecord` of the record with the event, otherwise the record with the event |
| LifeCoaching.LifeCoach.GenerateOpenAIResponse | life_coach.py:43-92 | the events are kept; when the API answers, the file ends as the stamped outcome of the pattern analysis (or untouched when it saves nothing) and the API text is returned; otherwise the fallback is returned and nothing is saved |
| LifeCoaching.RepliedRecordKeeps | life_coach.py:82 | the record after an answered message keeps the events and goals |
| LifeCoaching.LifeCoach.AddGoal | life_coach.py:193-195 | passed through to the manager's `add_goal` |
| CareerCoaching.CareerEventsSpec | career_coach.py:68-71 | exactly the events of type "career", in stored order |
| CareerCoaching.ProfessionalGoalsSpec | career_coach.py:73-76 | exactly the goals whose lower-cased text contains "career" or "job", in stored order |
| CareerCoaching.CareerContextSections | career_coach.py:83-105 | at most the last ten career events in order; each section is omitted exactly when its input is empty |
| CareerCoaching.SectionOf | career_coach.py:87-103 | one section loop builds the titled lines, or nothing for no items |
| CareerCoaching.BuildCareerContext | career_coach.py:83-105 | the header, then the history, goals and skills sections |
| CareerCoaching.FocusFromKeys | career_coach.py:152-154 | the counts dict has exactly the category names as keys |
| CareerCoaching.FocusFromValues | career_coach.py:152-154 | each category's value is the number of its keywords the text contains |
| CareerCoaching.FocusSpec | career_coach.py:139-154 | exactly five categories, none "leadership"; each count is at most 5 and nonzero exactly when a keyword occurs |
| CareerCoaching.FocusSeesKeyword | career_coach.py:148-153 | a keyword in the input or in one of the last five career entries is counted |
| CareerCoaching.CareerFocus | career_coach.py:147-154 | the category loop computes `Focus` of the joined text |
| CareerCoaching.CountKeywords | career_coach.py:153 | the keyword loop counts exactly the keywords of the list the text contains |
| CareerCoaching.CareerInsightsSpec | career_coach.py:161-178 | fewer than three events give the placeholder; otherwise the activity insight first, and the growth insight exactly when one of the last five entries mentions a growth word |
| CareerCoaching.GenerateCareerInsights | career_coach.py:161-178 | the method computes `CareerInsights` |
| CareerCoaching.SkillRecommendationsSpec | career_coach.py:185-196 | never empty; each rule's advice is present exactly when its threshold is passed; the default stands alone exactly when no rule fires |
| CareerCoaching.AsWrittenSkillsIgnoreCounts | career_coach.py:183-194 | as written, a stored `career_focus` entry yields only the networking advice |
| CareerCoaching.FocusUpdateEffect | career_coach.py:156 | after the counts are saved, events stay and the skills answer is the networking advice |
| CareerCoaching.CorrectedSkillsFollowCounts | career_coach.py:183-196 | reading `data`, certification advice exactly for more than two learning keywords, networking advice exactly for none, never leadership advice |
| CareerCoaching.WithPlan | career_coach.py:242-251 | one active plan appended to `career_plans`, created when missing; every other key unchanged |
| CareerCoaching.CareerCoach.constructor | career_coach.py:19-22 | the coach is bound to its manager |
| CareerCoaching.CareerCoach.GetCareerEvents | career_coach.py:68-71 | the career events of the loaded record |
| CareerCoaching.CareerCoach.GetProfessionalGoals | career_coach.py:73-76 | the professional goals of the loaded record |
| CareerCoaching.CareerCoach.AnalyzeCareerPatterns | career_coach.py:136-159 | only `patterns.career_focus` changes, to the wrapped five counts |
| CareerCoaching.CareerCoach.RecommendSkills | career_coach.py:180-196 | the recommendations for the stored `career_focus` entry, never empty |
| CareerCoaching.CareerCoach.AnalyzeCareerPath | career_coach.py:24-66 | the input is stored as a "career" event before the API call, and kept when it fails; after a reply the counts are stored and the answer has the insights, the networking advice and the next steps; on an unwritable file a reply gives the insights of the stored career events and the recommendations of the stored `career_focus` entry, and fails exactly when those recommendations raise |
| CareerCoaching.CareerCoach.CreateCareerPlan | career_coach.py:207-263 | no change when the API fails; otherwise one active plan appended and `plan_id` = the new number of plans, reported even when the save fails |

## Left out

- Web layer: Flask routes, sessions, authentication and the request checks are not part of this model.
- Language-model API: each call is a `reply` parameter, its answer or None for an exception. Prompts and system prompts are not modelled (`_create_career_system_prompt`, the plan prompt).
- JSON encoding and file access: the file is an abstract stored record plus a writable flag. Text encoding, indentation and `default=str` are not modelled.
- Clocks: `datetime.now()` and `date.today()` are parameters. One request takes one reading, where the source reads the clock several times.
- Floating point: averages, standard deviation, trend slope, consistency score, completion rates, growth and learning ratios. The resilience ratio is an exact `real`.
- Date grouping with `strftime`: the weekly averages of `_analyze_mood_trends`, the monthly counts of `_track_achievements` and the activity patterns. Date parsing is the `dayOf` parameter; where it fails the model fails as the source raises.
- Analytics.AnalyzeMoodTrends: only `daily_mood` and the ValueError of an unparsable date are modelled; `weekly_averages`, `overall_trend` and `mood_volatility` need week grouping and floating-point statistics.
- Analytics.GenerateSummaryStats: `average_entries_per_week` and `consistency_score` are floats and are not computed; of their two helpers only when they raise on an unparsable date is kept.
- Analytics.TrackAchievements: `monthly_counts` is not computed (month grouping) and `achievement_rate` is not computed (a float percentage); of the grouping loop only whether every date parses is kept.
- Text: `str.lower` is ASCII lower-casing and `str.split()` splits on ASCII whitespace.
- Field access: the entry, goal and date fields read as "" when missing or not a string. Where the source subscripts a field (`event["entry"]`, `goal["goal"]`, `event["date"]`) a missing one raises KeyError; where it calls `.lower()` on a non-string it raises AttributeError, and `datetime.fromisoformat` of a non-string raises TypeError (the model gives that only when `dayOf("")` is None). Where the source only prints a field or puts it in a set, a non-string value keeps its own text, and the model does not: `set(event["date"] ...)` (analytics.py:200) counts each distinct non-string date as a day of its own, where `TrackingDays` merges them all into the day ""; the career history lines (career_coach.py:90) and the context lines (life_coach.py:125, life_coach.py:130) print `str()` of the value, where `HistoryLine`, `EventLine` and `GoalLine` print "".
- Malformed files: the stored record is taken to hold lists under `life_events`, `goals`, `warnings` and `career_plans`, and a dict under `patterns`. Other shapes make the source raise.
- Aliasing: `default_memory.copy()` is shallow, so the list objects are shared between loads in the source. The model works on values.
- `generate_comprehensive_report`, `generate_weekly_report` and the report helpers `_analyze_goal_progress`, `_analyze_activity_patterns`, `_calculate_growth_metrics`, `_generate_data_driven_recommendations`, `_calculate_entry_frequency`, `_calculate_learning_frequency` and `_identify_skill_areas` are float or date-grouping report drivers, not modelled.
- The exception reply of `generate_response` and the error strings of the career methods: the model raises no exception after the event is stored, so only the reply text of a failure is kept.
- CareerCoaching.BuildCareerContext: the `skills` pattern's entries come in as pre-rendered text pairs, because a map keeps no insertion order and `str(data)` of a nested value is not modelled. `_get_skill_assessments` is left out for the same reason.
- CareerCoaching.TargetText: a list or dict target date renders as empty text, where the source prints its repr.
- CareerCoaching.CareerCoach.AnalyzeCareerPath: the context and prompt it builds are not computed, since only the API reads them.
- `_suggest_next_steps` is the constant `NextSteps` and has nothing to prove.
- The life and career coaches keep the window and skills code as written. The corrected versions are separate members, below.

## Findings

| source | as written | input that shows it | evidently intended | confidence | as-written member | corrected member |
|---|---|---|---|---|---|---|
| life_coach.py:155-156 | the window is read from the top level of the stored `mood_trends` entry, but `update_pattern` stores it wrapped as `{data, last_updated}`; from the second call on, reading `scores` raises and the error is swallowed | two messages in a row on a fresh store: the stored window keeps only the first score, so five negative messages never raise the warning | read the window from the entry's `data` so it rolls over the last 30 calls and the warning can fire | not executed | LifeCoaching.AsWrittenWindowStuck | LifeCoaching.CorrectedWindowSlides |
| career_coach.py:183-193 | the counts are read from the top level of the stored `career_focus` entry, which `update_pattern` wraps as `{data, last_updated}`; every count reads 0 | any career input, including one mentioning "mentor" or three learning keywords: the answer is always the networking advice alone | read the counts from the entry's `data`; the `leadership` rule still has no category to read | not executed | CareerCoaching.AsWrittenSkillsIgnoreCounts | CareerCoaching.CorrectedSkillsFollowCounts |
