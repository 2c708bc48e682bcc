# MorningBot core, modelled in Dafny

MorningBot is a Telegram assistant. It sends a morning brief (news, ranked email, calendar, tasks), keeps a local task
list with recurring tasks, and lets the user choose the AI backend. Every AI-backed
operation falls back on a keyword heuristic when the AI is unavailable.
This project models the deterministic logic between the AI calls and the Google/Telegram
I/O, and proves what that logic promises:

- `tasks_local.dfy` (`TasksLocal`) — the local task store: `T###` id allocation, adding plain and
  recurring tasks, completing a task, the read-only expansion of recurring templates for
  today and the `(priority, hour)` stable sort of today's list. The store is the class
  `TaskStore` over a `seq<Task>`.
- `ai_fallbacks.dfy` (`AiFallbacks`) — the `with_ai_fallback` decorator (primary, else fallback,
  else a safe default chosen by name), the news-summary fallback, the heuristic email
  scorer/ranker and the keyword-cascade instruction router.
- `router.dfy` (`Router`) — `route_instruction`: code-fence stripping, the `intent` check and
  the composition with the fallback wrapper.
- `email_ranker.dfy` (`EmailRanker`) — the preference prefilter, the mapping of the AI's 1-based
  indices back to emails and the counts of the ranking result.
- `prefs.dfy` (`Prefs`) — the default preferences, the block/prioritize/unblock actions of an AI
  answer, the word-based basic parser and the store that writes the result back.
- `brief_cache.dfy` (`ProgressCache`) — the per-user brief progress cache (`BriefCache` class over a
  map): start, update with keyword arguments, freshness, timeout and cleanup by age.
- `formatter.dfy` (`Formatter`) and `pagination.dfy` (`Pagination`) — the `format_*` message
  builders and `paginate_message`.
- `ai_config.dfy` (`AiConfig`) — the model catalogue, the default configuration, the
  provider/model update rule (`AiSettings` class over the stored file and the environment)
  and the derived status record.
- `bot.dfy` (`Bot`) — the inline-button callback data (built and parsed), the `waiting_for`
  state of the reply-keyboard conversation (`Conversation` class) and the cap on brief
  tasks.
- Shared helpers: `wrappers.dfy` (Option/Result), `records.dfy` (the dict shapes passed between
  services), `text.dfy` (the Python string operations used: `lower`, `in`, `split`, `strip`,
  `replace`, slicing, decimal formatting, fence stripping) and `stable_sort.dfy` (Python's
  stable `sorted` with a two-part key).

Outside effects become parameters:
- An AI call is an `AiReply` (`NoReply` when the client raised, `Reply(text)` otherwise).
- `json.loads` of the reply is a `parse` function returning an `Option`.
- The RRULE library is an `RruleOracle` (the rule parses, it occurs on a day, it has a COUNT; the COUNT
  answer is read only by the corrected expansion listed under Findings).
- The clock is a `now`/`today` argument.
- A JSON file that may fail to be written is a `saved: bool` argument.

## Model

| member | source | states |
|---|---|---|
| TasksLocal.GenerateTaskId | services/tasks_local.py:12-26 | the id returned is not in the store and is `T` + the zero-padded least positive counter whose id is free (every smaller counter's id is taken) |
| TasksLocal.LeastFreeIdUnique | services/tasks_local.py:18-26 | the least free id is determined by the ids already taken: two ids that both satisfy it are equal |
| TasksLocal.LeastFreeIdFirst | services/tasks_local.py:18-26 | the least free id is `T001` exactly when `T001` is not taken, so an empty store gets `T001` |
| TasksLocal.TaskNumberOfId | services/tasks_local.py:23-26 | the counter can be read back from an id, so distinct counters give distinct ids |
| TasksLocal.TaskIdHasNoUnderscore | services/tasks_local.py:23-26 | store ids never hold `_`, so they cannot end in `_today` |
| TasksLocal.TaskStore.AddTask | services/tasks_local.py:50-94 | on a successful save, exactly one record is appended after the unchanged old ones: the least free `T###` id (as `generate_task_id` yields it), given fields, not completed, no rrule, source local, created = updated; a failed save raises and leaves the store; ids stay unique |
| TasksLocal.TaskStore.AddRecurrentTask | services/tasks_local.py:96-139 | an rrule that does not parse raises before anything changes; otherwise one record carrying the rrule, with the least free `T###` id, is appended on a successful save; a failed save raises and changes nothing |
| TasksLocal.TaskStore.ExpandForToday | services/tasks_local.py:141-195 | reads the store only; returns the instances for today of the pending templates whose rule parses and occurs today, in template order |
| TasksLocal.ExpansionMembers | services/tasks_local.py:157-190 | a task is in the expansion iff it is the `_today` copy, due at midnight, of a pending template whose rule parses and occurs today (the start-day test of line 176 never holds as written) |
| TasksLocal.ExpansionIntendedMembers | services/tasks_local.py:176 | with the start-day test as intended, the expansion keeps every instance of the as-written one, adds the instance of every pending template whose rule parses, starts today and has no COUNT, and nothing else |
| TasksLocal.StartDayInstanceMissingAsWritten | services/tasks_local.py:170-176 | a weekly Monday rule on a task due today, a Tuesday: the as-written expansion is empty, the intended one holds today's instance |
| TasksLocal.RegularMembers | services/tasks_local.py:211-223 | a task is a regular task of today iff it is pending, has no rrule, and is overdue/due today or, without a due date, was created today |
| TasksLocal.TaskStore.ListTodaySorted | services/tasks_local.py:197-245 | returns today's list: regular tasks then instances, stably sorted by (priority rank, due hour) |
| TasksLocal.TodayListFacts | services/tasks_local.py:226-245 | today's list is sorted by (rank, hour), is a permutation of regular ++ expanded, holds exactly those tasks (instances only for rules that occur today), and keeps the input order among tasks with equal keys |
| TasksLocal.FindTask | services/tasks_local.py:259-260 | finds the first position holding the id, or reports that no position from the start point holds it |
| TasksLocal.CompleteFirst | services/tasks_local.py:259-262 | completing keeps the number of records and all ids in place |
| TasksLocal.TaskStore.CompleteTask | services/tasks_local.py:247-265 | succeeds iff the id is present and the save succeeds; then only the first record with that id is marked completed with the new update time; otherwise the store is unchanged |
| TasksLocal.CompleteTwice | services/tasks_local.py:259-263 | completing the same id twice is the same as completing it once at the later time |
| TasksLocal.CompletedTaskLeavesTodayList | services/tasks_local.py:212-226 | once a task is completed, neither it nor its `_today` instance is in today's list |
| TasksLocal.CompletingAnInstanceFails | services/tasks_local.py:259-265 | a `_today` instance id is never found in the store, so completing it reports failure |
| TasksLocal.AppendFreshKeepsUnique | services/tasks_local.py:81 | appending a record whose id is fresh keeps ids unique |
| StableSort.SortByFacts | services/tasks_local.py:245 | the sort result is ordered by key, is a permutation of its input, and is stable (per key, the input order is kept) |
| Text.Pad3Value | services/tasks_local.py:26 | `{n:03d}` denotes n: leading zeros do not change the value read back |
| AiFallbacks.WithAiFallback | services/ai_fallbacks.py:7-22 | the primary's value when it returns; else the fallback's value on the same arguments; else the safe default for the primary's name; it never raises |
| AiFallbacks.GetSafeDefault | services/ai_fallbacks.py:24-33 | first match on the lower-cased name: "summarize" gives the unavailable-summary text, "rank" an empty ranking with zero counts, "route" a clarify route without args, anything else a generic text |
| AiFallbacks.FallbackSummarizeNews | services/ai_fallbacks.py:35-45 | the loop builds the fallback summary text |
| AiFallbacks.SummaryListsFirstFive | services/ai_fallbacks.py:37-45 | empty input gives "No hay noticias disponibles."; otherwise the header followed by a numbered line (title, source, with defaults) for each of the first five items, and later items do not matter |
| AiFallbacks.Score | services/ai_fallbacks.py:54-69 | the score lies in -5..7; it exceeds 2 iff the subject is urgent and the sender is not automated, and is negative iff the sender is automated and the subject is not urgent; an urgent short subject from a non-automated sender scores 7 |
| AiFallbacks.FallbackRankEmails | services/ai_fallbacks.py:47-82 | the scoring loop and sort compute the heuristic ranking result |
| AiFallbacks.RankedByScoreFacts | services/ai_fallbacks.py:71-73 | the ranking is a permutation of the emails in non-increasing score order |
| AiFallbacks.FallbackRankSelectsTopScores | services/ai_fallbacks.py:47-82 | found = considered = n, selected = the number kept = min(top_k, n), the kept emails are the best-scoring prefix of the stable ranking and each scores at least as high as every email left out; empty input gives all zeros |
| AiFallbacks.FindTaskIdToken | services/ai_fallbacks.py:96 | finds the leftmost match of `t_[a-f0-9]{8}`, or proves there is none |
| AiFallbacks.FallbackRouteInstruction | services/ai_fallbacks.py:84-106 | every result has an intent from the seven; clarify iff no args, and then a non-empty message; add iff an add word occurs; add and recur carry the instruction as title with medium priority (recur with FREQ=DAILY); completar carries exactly the leftmost `t_` + 8 hex digits token as id; ajustar_prefs carries the instruction |
| AiFallbacks.FallbackRouteOrder | services/ai_fallbacks.py:88-106 | each intent is chosen iff one of its words occurs and no earlier group's word does; completar also needs a task-id match, otherwise clarify |
| Router.RoutePrimary | services/router.py:56-76 | the AI path succeeds iff there is a reply whose fence-stripped text parses and carries an intent, and then returns the parsed dict |
| Router.RouteAlwaysHasIntent | services/router.py:10-11 | the wrapped router always returns a routing dict with an intent: the AI's when it was valid, the keyword fallback's otherwise |
| Router.FencedAnswerRoutes | services/router.py:59-66 | a "```json…```" answer reaches the parser without its fences and its parsed dict is returned |
| Text.StripCodeFences | services/router.py:60-64 | "```json" loses its first 7 and last 3 characters, otherwise "```" loses 3 and 3, anything else is unchanged |
| Text.JsonFenceRoundTrip | services/email_ranker.py:144-145 | stripping the fences of "```json" + body + "```" gives back the body |
| Text.BareFenceRoundTrip | services/email_ranker.py:146-147 | stripping the fences of "```" + body + "```" gives back the body when the body does not start with "json" |
| EmailRanker.AnyPatternMatches | services/email_ranker.py:47-70 | the flag loop finds a match iff some lower-cased pattern occurs in one of the texts |
| EmailRanker.PrefilterByPrefs | services/email_ranker.py:28-77 | returns the kept emails and the original count |
| EmailRanker.PrefilterKeepsExactlyUnblocked | services/email_ranker.py:43-75 | an email is kept iff it is in the input and no blocked keyword is in its subject or sender, and no blocked domain or sender is in its sender; the result is no longer than the input |
| EmailRanker.PrefilterConcat | services/email_ranker.py:43-75 | filtering decides email by email and keeps the order: it distributes over concatenation |
| EmailRanker.PrefilterIdempotent | services/email_ranker.py:43-75 | filtering the filtered list changes nothing |
| EmailRanker.DefaultPrefsDropNewsletters | services/email_ranker.py:14-23 | with the default preferences, an email whose subject mentions "newsletter" is dropped |
| EmailRanker.Resolve | services/email_ranker.py:152-155 | no more emails than indices, all drawn from the input |
| EmailRanker.ResolveSelected | services/email_ranker.py:152-155 | the loop resolves the indices |
| EmailRanker.ResolveConcat | services/email_ranker.py:153-155 | each index is resolved on its own, in the AI's order |
| EmailRanker.ResolveSingle | services/email_ranker.py:154-155 | an index in 1..n gives `emails[idx-1]`; any other index is dropped |
| EmailRanker.Accounts | services/email_ranker.py:158 | exactly the accounts of the emails, a missing one counting as "me" |
| EmailRanker.RankOutcomes | services/email_ranker.py:79-171 | empty input gives no emails and zero counts without the AI; a usable answer gives the first top_k (Python slicing) of the named emails in the AI's order, exactly min(top_k, named) of them when top_k ≥ 0, found = n, considered = min(n, 50), selected = all resolved indices, the accounts; otherwise the heuristic ranking |
| Prefs.DefaultPreferences | services/prefs.py:29-40 | top_k 10, not only unread, importance "any", empty domain/sender lists, the four default blocked keywords |
| Prefs.Without | services/prefs.py:112-118 | keeps exactly the entries not among the values |
| Prefs.ExtendMissing | services/prefs.py:98-110 | keeps the list as its prefix and afterwards holds exactly the list's entries and the values |
| Prefs.BlockAndPrioritizeOnlyAppend | services/prefs.py:98-110 | block and prioritize append the missing values to the one list named and touch nothing else |
| Prefs.UnblockOnlyRemoves | services/prefs.py:94-118 | unblock removes exactly the values from the one blocked list named; unknown actions and prioritize-keyword change nothing |
| Prefs.ExtendMissingKeepsNoDuplicates | services/prefs.py:98-110 | extending a list without duplicates by values without duplicates yields no duplicates |
| Prefs.WithoutKeepsNoDuplicates | services/prefs.py:112-118 | removing values keeps a list free of duplicates |
| Prefs.AddIfAbsent | services/prefs.py:140-145 | appends the word only when it is missing; the list is kept as prefix and stays duplicate-free |
| Prefs.UpdatePrefsBasic | services/prefs.py:129-149 | the word loop computes the basic update and its explanation |
| Prefs.BasicFoldOnlyAppends | services/prefs.py:136-145 | only the blocked domains and keywords change, and only by appending; duplicate-freedom is kept |
| Prefs.BasicFoldAddsOnlyWords | services/prefs.py:136-145 | each appended domain is a word of the instruction holding "@" or "."; each appended keyword is a word of length > 3 other than correos/emails/de |
| Prefs.BasicFoldCollects | services/prefs.py:136-145 | every such word of the instruction ends up in its list |
| Prefs.UpdateFromInstruction | services/prefs.py:83-127 | a missing or unparseable AI answer falls back to the basic parser with its explanation; a parsed one is applied as an action, and the explanation is the AI's own or the default when it gave none |
| Prefs.PreferenceStore.UpdatePrefsFromInstruction | services/prefs.py:42-127 | the update is applied to the loaded preferences and written back only when the save succeeds |
| ProgressCache.NewProgress | services/brief_cache.py:87-95 | a new entry is generating, 0 %, all four flags false, no data, started = updated = now |
| ProgressCache.BriefCache.StartBriefGeneration | services/brief_cache.py:85-99 | stores a new entry for the user, replacing any previous one, and leaves other users alone |
| ProgressCache.BriefCache.GetProgress | services/brief_cache.py:101-103 | the user's entry when there is one |
| ProgressCache.CompletedCount | services/brief_cache.py:119-124 | at most 4, and 4 iff all four sections are done |
| ProgressCache.UpdatedProgress | services/brief_cache.py:110-129 | the percentage is 25 × completed sections, always in {0,25,50,75,100}; 100 iff all done, and then the status is completed; otherwise the status is as the arguments left it; the user is kept; the update time is `now` unless a `last_updated` argument overrides it; every other field is as the arguments set it |
| ProgressCache.KwargsEffects | services/brief_cache.py:114-116 | arguments that do not name `last_updated` leave it; unknown field names change nothing |
| ProgressCache.KwargsKeepUser | services/brief_cache.py:114-116 | no argument changes the user id |
| ProgressCache.BriefCache.UpdateProgress | services/brief_cache.py:105-131 | a user without an entry changes nothing; otherwise only that user's entry is replaced by its update |
| ProgressCache.BriefCache.IsBriefFresh | services/brief_cache.py:133-140 | holds iff the entry exists, is completed and was updated less than max_age minutes ago |
| ProgressCache.BriefCache.ShouldShowProgress | services/brief_cache.py:142-149 | holds iff the entry exists, is generating and started more than the timeout ago |
| ProgressCache.ProgressLifecycle | services/brief_cache.py:85-149 | a new brief is never fresh and shows progress exactly after the timeout; a completed one never shows progress and is fresh exactly while less than max_age minutes have passed since the completing update |
| ProgressCache.BriefCache.StaleUsers | services/brief_cache.py:153-158 | collects exactly the users whose entry was last updated before the cutoff |
| ProgressCache.BriefCache.DeleteUsers | services/brief_cache.py:160-161 | removes exactly those users and leaves other entries unchanged |
| ProgressCache.BriefCache.CleanupOldEntries | services/brief_cache.py:151-165 | keeps exactly the entries updated at or after now − max_age hours, unchanged |
| Pagination.PaginateMessage | services/formatter.py:5-79 | the line loop computes the chunks of the pagination function |
| Pagination.PaginateLongLine | services/formatter.py:33-67 | the word loop computes the long-line step |
| Pagination.ShortContentIsOneChunk | services/formatter.py:16-17 | content that fits is returned as the one unchanged chunk |
| Pagination.PaginateBounded | services/formatter.py:25-79 | when no line is longer than the limit, no chunk is |
| Pagination.LongWordIsCut | services/formatter.py:51-56 | a single word longer than the limit yields its first max characters as a chunk, then the rest |
| Pagination.PaginateRejoins | services/formatter.py:25-79 | when every line fits and has no surrounding blanks, joining the chunks with newlines gives back the content: nothing is lost, reordered or duplicated |
| Pagination.OverlongChunkAsWritten | services/formatter.py:37-67 | two words that together overflow give one chunk longer than the limit |
| Pagination.PaginateCorrectedBounded | services/formatter.py:7 | with the word path corrected, every chunk respects the limit for all content |
| Pagination.CorrectedAgreesOnShortLines | services/formatter.py:25-79 | the correction changes nothing when every line fits |
| Pagination.Pieces | services/formatter.py:51-56 | cutting a word gives pieces no longer than the limit |
| Formatter.PriorityEmoji | services/formatter.py:200 | red iff high, green iff low, yellow for medium, anything else or missing |
| Formatter.FormatTasksList | services/formatter.py:207-241 | the loop builds the task list text |
| Formatter.TasksListShowsEveryId | services/formatter.py:217-239 | no tasks give the fixed message; otherwise the header, and the numbered entry and the id line of every task occur |
| Formatter.FirstFive | services/formatter.py:153 | at most five items, the leading ones; all of them when fewer |
| Formatter.FormatBrief | services/formatter.py:117-205 | the section builders produce the brief text |
| Formatter.EmptyBriefIsHeader | services/formatter.py:133-203 | with no data (or an empty news dict) every section is omitted |
| Formatter.BriefShowsAtMostFive | services/formatter.py:153-199 | only the first five emails, events and tasks affect the brief |
| Formatter.BriefListsFirstEmails | services/formatter.py:152-181 | each of the first five emails appears as its numbered entry |
| Formatter.SenderNameShown | services/formatter.py:155-159 | a sender "name <address>" is shown as the stripped name when that is non-empty |
| Formatter.NewlinesToSpaces | services/formatter.py:178 | same length, no newline left |
| Formatter.FormatPreferences | services/formatter.py:243-288 | the section builders produce the preferences text |
| Formatter.MissingSettingsShowDefaults | services/formatter.py:255-257 | missing settings print as 10, No and any, the same as the default preferences |
| Formatter.SectionListsEvery | services/formatter.py:259-286 | a list section holds a bullet for every entry |
| Formatter.PreferencesListEveryBlock | services/formatter.py:259-286 | without lists only the settings are printed; every blocked entry is printed as a bullet |
| AiConfig.GetAvailableModels | services/ai_config.py:134-136 | non-empty iff the provider is gemini or openrouter: three Gemini models (the default first) or nine OpenRouter models |
| AiConfig.DefaultGeminiModelOffered | services/ai_config.py:8-12 | the default Gemini model is in the Gemini menu |
| AiConfig.DefaultOpenRouterModelNotOffered | services/ai_config.py:116-119 | the default OpenRouter model "gpt-4" is not in the OpenRouter menu |
| AiConfig.DefaultAiConfig | services/ai_config.py:101-108 | provider = AI_PROVIDER or gemini, Gemini model gemini-1.5-flash, OpenRouter model = OPENROUTER_MODEL or gpt-4, no update stamp |
| AiConfig.UpdatedConfig | services/ai_config.py:113-121 | the provider is set; that provider's model becomes the model or its default when the model is falsy; the other model is unchanged; the update stamp is set |
| AiConfig.UpdatedEnv | services/ai_config.py:124-127 | AI_PROVIDER is set; OPENROUTER_MODEL only for openrouter with a model; the keys are unchanged |
| AiConfig.CurrentStatus | services/ai_config.py:139-167 | provider defaults to gemini; the model is that provider's (with defaults) and none for others; configured flags follow the keys; provider_configured is the current provider's flag, false for others |
| AiConfig.UpdateThenStatus | services/ai_config.py:111-167 | after an update the status names the chosen provider and model (default for a falsy model); an unknown provider has no model and is never configured |
| AiConfig.DefaultStatus | services/ai_config.py:77-108 | with no file and no AI_PROVIDER the bot runs Gemini on gemini-1.5-flash |
| AiConfig.AiSettings.UpdateAiProvider | services/ai_config.py:111-131 | on a successful save the updated configuration is stored and returned and the environment follows it; a failed save raises and changes nothing |
| AiConfig.AiSettings.GetCurrentConfig | services/ai_config.py:139-167 | the status of the loaded configuration under the current environment |
| Bot.CompleteData | bot.py:80 | "complete_" followed by the task id |
| Bot.TaskKeyboard | bot.py:77-82 | one row with the single "mark done" button for the task (the helper is defined but no handler in bot.py calls it) |
| Bot.SplitOnce | bot.py:856 | without the separator the whole text; otherwise a first part free of it, and the two parts rebuild the text |
| Bot.SplitOnceRecovers | bot.py:856 | splitting a + "_" + b, with a free of "_", recovers a and b |
| Bot.StripsPrefixOnce | bot.py:839 | removing every "complete_" leaves the id when the id holds none |
| Bot.CompleteButtonRoundTrip | bot.py:838-839 | a complete button parses back to completing that id, for ids not holding "complete_" |
| Bot.StoreIdButtonsRoundTrip | bot.py:147-151 | the buttons of store ids and of their `_today` instances round-trip |
| Bot.ModelButtonRoundTrip | bot.py:855-859 | a model button parses back to (provider, model) when neither holds "_" |
| Bot.CatalogueIdsPlain | services/ai_config.py:8-74 | no catalogue model id holds "_" |
| Bot.ModelButtonList | bot.py:700-707 | one button per catalogue model of the provider, then the back button |
| Bot.ModelMenuButtons | bot.py:700-707 | the loop builds the model menu |
| Bot.ModelMenuRoundTrip | bot.py:700-707 | every button of a model menu parses back to its own provider and model; the last one goes back to the menu |
| Bot.ProviderButtonRoundTrip | bot.py:851-853 | both provider buttons parse back to their provider |
| Bot.InfoButtonIgnored | bot.py:838-862 | the current-configuration button matches no branch |
| Bot.TaskCompleteButtons | bot.py:146-151 | one complete button for each of the first three tasks |
| Bot.HandleInlineButton | bot.py:833-862 | dispatch by prefix: complete marks the task done iff it is found and saved, provider shows its model menu, model updates the configuration on a successful save, back shows the menu, anything else does nothing; nothing else changes |
| Bot.DueText | bot.py:794-799 | a due string exists iff `due` is given |
| Bot.DueTextParts | bot.py:795-799 | the due string is the date followed by the given time or 09:00 |
| Bot.AddPlan | bot.py:784-801 | outside clarify, the task takes the title (default: the text), notes, priority (default medium) and a due iff `due` is given |
| Bot.RecurPlan | bot.py:813-824 | outside clarify, the recurring task takes the title, rrule (default FREQ=DAILY), notes and priority |
| Bot.PlanFor | bot.py:779-831 | free text is ignored iff nothing is awaited; a plain task is planned only in the add flow, a recurring one only in the recurring flow |
| Bot.OfflineAddCreates | bot.py:784-801 | with the AI unavailable, the add flow creates a medium task titled "add " + text |
| Bot.OfflineRecurCreates | bot.py:813-824 | with the AI unavailable, the recurring flow creates a daily task titled "recur " + text |
| Bot.Conversation.HandleButtonMessage | bot.py:755-831 | the add and recurring buttons set the awaited flow, other buttons keep it and the store; free text follows its plan: clarify keeps the flow, creation or failure clears it, and a task is appended only on a successful save, under the least free `T###` id |
| Bot.Conversation.CreateFromPlan | bot.py:781-831 | carries out a plan: clarify keeps the flow, otherwise the flow is cleared and exactly one task, with the least free `T###` id, is appended on success |
| Bot.FetchAllTasks | bot.py:555-580 | at most ten tasks, local ones first; Google tasks only when sync is on and fetching them did not fail |

## Left out

- Telegram transport: command handlers, `send_paginated_message`, polling, lock files and signals are I/O. So is the brief's
  background generation with its asyncio timeouts. `format_ai_config_message` and `ai_client.reload_config` are not part of this model either.
- Google readers, OAuth and Google Tasks synchronisation (`sync_local_to_google`) are network
  clients. The Google task list reaches `Bot.FetchAllTasks` as a parameter.
- JSON persistence: files are in-memory state. A write that may fail is `saved`. Reading an
  unreadable file yields the defaults. Files missing keys (Python `KeyError`) and JSON `null`
  values for keys other than `last_updated` are not modelled.
- Concurrency: the read-modify-write of the JSON files is modelled as atomic.
- Dates: due and creation times are `Stamp(day, hour, minute)` values. `parse_date` failures on a
  stored string, time zones and the `except` that turns an unparseable due into hour 0 or into
  no due time are not modelled.
- The RRULE library is the `RruleOracle` parameter. Its own semantics are not modelled.
- `BriefProgress` objects are values. The aliasing between the cached object and the one
  `start_brief_generation` returns is not modelled.
- `prefilter_by_prefs` reads its own `load_preferences` (services/email_ranker.py:7-26), which has a different
  error default. In the model the preferences are a parameter.
- The AI prompt texts are not modelled. The AI answer is a reply parameter plus a `parse` oracle.
- Text.Lower: folds only ASCII capitals, whereas Python's `str.lower()` folds all of Unicode.
- AiFallbacks.FallbackRankSelectsTopScores: stated for `top_k >= 0`. A negative `top_k` follows
  Python slicing (handled by the model's `TakePrefix`) but is not described by the lemma.
- Router.RoutePrimary: the `parse` oracle yields only JSON objects. A JSON array or string that contains
  "intent" passes the membership test at services/router.py:69 and is returned. bot.py:785 then fails
  on `result["intent"]` and the button flow replies with its error message (bot.py:804-807). That path is not
  modelled, and Router.RouteAlwaysHasIntent holds only for object answers.
- Pagination.PaginateRejoins: stated for lines that are non-empty and have no surrounding
  blanks. Other lines are stripped at each flush, so the join equals the content only up to
  that `strip()`.
- Bot.Conversation.HandleButtonMessage: the brief, tasks, AI-menu and preference buttons are
  modelled only as keeping the state. What they display is Telegram output.
- Behaviours of the source recorded as modelled:
  - In the offline button flows the task title keeps the routing prefix ("add …", "recur …").
  - The default OpenRouter model "gpt-4" is not in the catalogue.
  - A complete button on a `_today` instance round-trips, but `complete_task` then reports not found.
  - A failed save in `complete_task` is reported like a missing task.
  - The "ai_config_info" button is unhandled.
  - The "No hay eventos/tareas" branches of `format_brief` are unreachable.

## Findings

| source | as written | input that shows it | evidently intended | confidence | as-written member | corrected member |
|---|---|---|---|---|---|---|
| services/formatter.py:37-67 | on a line longer than the limit, words are joined with a newline into the current chunk, and the chunk is emitted once it already exceeds the limit | content "aaaa bbbb" with limit 5 gives the single chunk "aaaa\nbbbb" of length 9 | every chunk is at most the limit, as the docstring at line 7 says | not executed | Pagination.OverlongChunkAsWritten | Pagination.PaginateCorrectedBounded |
| services/tasks_local.py:176 | the second test `start_date == today and rule.count is None` reads `count`, which is a method of the dateutil rule object and never `None`, so the test never holds and only `between` decides | a pending template with rrule "FREQ=WEEKLY;BYDAY=MO" due today, a Tuesday: `between` finds nothing and no instance is produced | a template without COUNT also gets an instance on its start day | not executed | TasksLocal.StartDayInstanceMissingAsWritten | TasksLocal.ExpansionIntendedMembers |
