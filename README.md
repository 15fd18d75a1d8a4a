# MindCare Pro in Dafny

This project models the core of MindCare Pro, a mental-health companion web
application with a React front end and an Express back end. The model covers:

- **The chat back end.** This is the keyword classifier of the `/api/chatbot/message` route in
  `backend/routes/chatbot.js`. It checks crisis words first, then greetings (only early in a
  conversation), then a chain of topic rules, and falls back to general support. The model
  also covers the OpenAI-or-fallback chat endpoint, the fallback classifier, and the
  register, login and token-verification handlers of `backend/server.js`, together with the
  duplicate handlers of `backend/routes/auth.js`.
- **The chat pages.** `Chatbot.js` has a client-side fallback classifier, a conversation
  history and an error banner. `AdvancedChatbot.js` has a typing placeholder and quick
  replies.
- **The wellbeing tools:**
  - the premium and enhanced task planners, with their filters, counters and completion rate;
  - the journals, with mood emoji, colour and label tables, tag toggling, the most-used tag and
    the average mood;
  - the mood trackers, with mood options, the recent/older panels and statistics;
  - the two breathing-exercise players, with step cycling, the countdown, progress and circle
    size;
  - the analytics mood bands, the screening quiz, the simple mood tracker and planner pages,
    and the helpline dialler on the home page.

**How the source is represented:**

- React components are classes. Their `useState` variables are fields, and each event handler
  is a method with a `modifies this` clause whose `ensures` gives the complete new state.
- The value logic is written as functions: classifiers, tables, filters and statistics.
  Lemmas state what the source promises about them.
- The keyword classifiers share one module, `RuleChain`. An ordered list of rules fires on
  the first match.
- A random pick `list[Math.floor(Math.random() * list.length)]` is `Selection.Pick` with a
  draw `u` in `[0, 1)` passed in as a parameter.
- A network outcome is an `Option` parameter: `Some(reply)` or `None` for a failed request.
- Database state is a `map` from e-mail to password hash. bcrypt and JWT are function
  parameters (`hash`, `matches`, `decode`).
- `new Date()` and `Date.now()` become `date` and `id` parameters. "Is this date today" is a
  predicate parameter.

**Behaviour of the code worth knowing:**

- **Greetings win on any substring.** At `backend/routes/chatbot.js:94` the greeting test
  matches the substring `hi`. So "I can't stop worrying about everything" with no history is
  answered as a greeting, not as anxiety, because "everyt**hi**ng" contains `hi`.
  `ChatbotRoute.EverythingIsAGreeting` proves this. The same happens to "I t**hi**nk I'm
  anxious" (`ChatbotRoute.ThinkIsAGreeting`).
- **The chat route's blank-message check is looser.** `backend/routes/chatbot.js:151` rejects
  only an absent or empty message. A message of spaces is answered
  (`ChatbotRoute.BlankMessageIsAnswered`). Only `backend/server.js:309` trims the message
  before checking it.
- **The chat page's stress fallback throws.** At `frontend/src/pages/Chatbot.js:141` the stress
  branch of the client fallback reads `depressionResponses`, a constant declared only inside
  the depression branch. With the server unreachable, a stress message such as the quick
  action "I'm feeling overwhelmed" gets no reply bubble at all
  (`ChatbotPage.OverwhelmedGoesUnanswered`). The model also gives the repaired page
  (`ChatbotPage.RepairedPageAlwaysAnswers`); see "## Findings".

## Model

| member | source | states |
|---|---|---|
| RuleChain.FirstMatch | backend/routes/chatbot.js:99-145 | the answer is the topic of the first rule whose context or message words occur, or the default when no rule fires |
| RuleChain.FirstFiringDecides | backend/routes/chatbot.js:99-145 | whenever rule k is the first to fire, the chain answers rule k's topic |
| RuleChain.FiringShadowsLater | backend/routes/chatbot.js:99-145 | if rule j fires, the answer comes from some rule at or before j, so later rules are shadowed |
| Selection.PickIndex | backend/routes/chatbot.js:90 | `floor(u * n)` is an index below n, bracketing `u * n` |
| Selection.Pick | backend/routes/chatbot.js:90 | a random pick always returns a member of the list |
| Selection.PickReaches | backend/routes/chatbot.js:90 | every element of the list is reached by some draw in [0, 1) |
| Text.Lower | backend/routes/chatbot.js:85 | lower-casing keeps the length and maps each character on its own |
| Text.LowerIsLower | backend/routes/chatbot.js:85 | lower-casing is idempotent |
| Text.TrimSpec | backend/server.js:309 | `trim()` is empty exactly when every character is ECMAScript white space; otherwise it neither starts nor ends with white space |
| ChatbotRoute.Responses | backend/routes/chatbot.js:5-81 | every category has at least three canned replies |
| ChatbotRoute.GetAIResponse | backend/routes/chatbot.js:84-146 | the reply is one of the replies of the message's category |
| ChatbotRoute.CrisisExactlyOnCrisisWords | backend/routes/chatbot.js:89-91 | the category is Crisis if and only if the lower-cased message contains a crisis phrase, whatever the history |
| ChatbotRoute.GreetingGate | backend/routes/chatbot.js:94-96 | the category is Greetings if and only if there is no crisis word, some greeting word occurs, and the history has fewer than two entries |
| ChatbotRoute.TopicRulesDecide | backend/routes/chatbot.js:99-142 | past the crisis and greeting checks, the topic chain over the last four history entries and the message decides |
| ChatbotRoute.TopicChainCategory | backend/routes/chatbot.js:99-145 | the topic chain never yields Crisis or Greetings |
| ChatbotRoute.OnlyLastFourEntriesCount | backend/routes/chatbot.js:86 | history older than the last four entries never changes the category |
| ChatbotRoute.ContextWorrySelectsAnxiety | backend/routes/chatbot.js:99-102 | "worry" in one of the last four history entries selects Anxiety once crisis and greeting are ruled out |
| ChatbotRoute.ExhaustedIsNeverSleep | backend/routes/chatbot.js:109-127 | "exhausted" is caught by the stress rule before the sleep rule, so it never selects Sleep |
| ChatbotRoute.WorthlessIsNeverSelfEsteem | backend/routes/chatbot.js:104-137 | "worthless" is caught by the depression rule before the self-esteem rule |
| ChatbotRoute.GeneralSupportWhenNothingMatches | backend/routes/chatbot.js:145 | general support if and only if no crisis word, no early greeting and no topic rule fires |
| ChatbotRoute.ThinkIsAGreeting | backend/routes/chatbot.js:94 | "I think I'm anxious" with empty history is classified as a greeting, because "think" contains "hi" |
| ChatbotRoute.EverythingIsAGreeting | backend/routes/chatbot.js:94 | "I can't stop worrying about everything" with empty history is classified as a greeting |
| ChatbotRoute.EndItAllIsACrisis | backend/routes/chatbot.js:89-91 | "I want to end it all" is a crisis for every history |
| ChatbotRoute.PostMessage | backend/routes/chatbot.js:148-168 | status 400 "Message is required" if and only if the message is absent or empty; otherwise the reply is drawn from the classified category, with the history defaulting to empty |
| ChatbotRoute.BlankMessageIsAnswered | backend/routes/chatbot.js:151 | a message of spaces passes the guard and is answered |
| ServerApp.FallbackResponses | backend/server.js:232-282 | each fallback category has exactly three replies |
| ServerApp.GetFallbackResponse | backend/server.js:284-301 | the fallback reply belongs to the message's fallback category |
| ServerApp.GreetingWordsWin | backend/server.js:287-288 | any greeting word in the lower-cased message selects Greetings before every other rule |
| ServerApp.CantStartIsAGreeting | backend/server.js:287-288 | "I can't start" gets a greeting reply, because "start" is one of the greeting words |
| ServerApp.OverwhelmedIsNeverStress | backend/server.js:289-294 | a message containing "overwhelmed" is Greetings or Anxiety, never Stress, because the anxiety rule comes first |
| ServerApp.OverwhelmedIsAnxiety | backend/server.js:289-290 | "overwhelmed" alone is Anxiety |
| ServerApp.OverwhelmingIsStress | backend/server.js:293-294 | "overwhelming" is not matched by the anxiety word and falls to Stress |
| ServerApp.GeneralWhenNothingMatches | backend/server.js:300 | General if and only if no fallback rule fires |
| ServerApp.ChatEndpoint | backend/server.js:305-358 | 400 "Message is required" if and only if the message is absent or blank after trimming; a non-string message ends in the apology with the flag off; otherwise the OpenAI reply when the client is configured and answers, else a fallback reply, with `usingOpenAI` equal to "a client is configured" |
| ServerApp.FlagFollowsConfiguration | backend/server.js:338-347 | a configured client whose request fails still reports `usingOpenAI` true while serving the fallback; no client reports false |
| ServerApp.BlankMessageRejected | backend/server.js:309-311 | a message that trims to empty is rejected for every client |
| ServerApp.Register | backend/server.js:82-110 | "All fields are required", then "Password must be at least 6 characters" (UTF-16 length under 6), then "User already exists with this email", each a 400 that leaves the user table unchanged; on success the hash is inserted under the new e-mail. `backend/routes/auth.js:10-88` has the same guards and rejection messages; its success and insert-failure texts differ and are not modelled |
| ServerApp.DuplicateEmailInsertsNothing | backend/server.js:108-110 | registering an existing e-mail is rejected and leaves the table unchanged |
| ServerApp.Login | backend/server.js:151-177 | 400 "Email and password are required" when a field is missing; success if and only if the e-mail is known and the password matches its hash; every other answer is 400 "Invalid email or password". `backend/routes/auth.js:91-155` has the same guards and rejection messages; its success text differs and is not modelled |
| ServerApp.LoginHidesUnknownEmail | backend/server.js:169-176 | an unknown e-mail and a wrong password get the identical answer, 400 "Invalid email or password" |
| ServerApp.BearerToken | backend/server.js:205-206 | the token is the second space-separated field of the header, and absent when that field is missing or empty |
| ServerApp.BearerTokenOfScheme | backend/server.js:205-206 | for "scheme token rest", the token is read back exactly when rest is empty or starts with a space; the scheme word is never checked |
| ServerApp.Verify | backend/server.js:204-226 | 401 "Access token required" if and only if there is no token; 403 if and only if the token does not decode; 401 "User not found" if and only if the decoded id is unknown; otherwise that user |
| ServerApp.NoTokenNoAccess | backend/server.js:208-210 | no header, or a header with only a scheme word, is refused with 401 |
| AuthRoutes.TokenOf | backend/routes/auth.js:168 | after the "Bearer " prefix, the token is the second space-separated field, which is the first field after the prefix |
| AuthRoutes.TokenAfterScheme | backend/routes/auth.js:168 | "Bearer " + token + rest yields the token when rest is empty or starts with a space |
| AuthRoutes.Verify | backend/routes/auth.js:158-194 | 401 "No token provided" if and only if the header is missing or lacks the exact "Bearer " prefix; every refusal is 401; success if and only if the token decodes to a known id |
| AuthRoutes.OnlyTheBearerSchemeIsRead | backend/routes/auth.js:161-181 | "Token x" and lower-case "bearer x" are refused as missing tokens; "Bearer x" succeeds exactly when x decodes to a known user, and is otherwise "Invalid token" |
| ChatbotPage.Responses | frontend/src/pages/Chatbot.js:99-183 | each category of the client fallback has at least one reply |
| ChatbotPage.EnhancedFallback | frontend/src/pages/Chatbot.js:99-183 | the intended fallback, with the stress list scaled by its own length: a reply from the list of the message's category |
| ChatbotPage.FallbackAsWritten | frontend/src/pages/Chatbot.js:99-183 | the fallback as written fails (throws) exactly when the message selects the stress branch, and otherwise gives the intended reply |
| ChatbotPage.EitherRepairAgrees | frontend/src/pages/Chatbot.js:126-142 | for a stress message, scaling the draw by the depression list's length (were that list in scope) picks the same reply as the intended pick, because the two lists have the same length |
| ChatbotPage.CrisisPhraseGetsHelpline | frontend/src/pages/Chatbot.js:103-105 | any crisis phrase yields the crisis category and the helpline reply |
| ChatbotPage.HiAnywhereIsAGreeting | frontend/src/pages/Chatbot.js:108-115 | without a crisis phrase, "hi" anywhere in the message makes it a greeting |
| ChatbotPage.DefaultWhenNothingMatches | frontend/src/pages/Chatbot.js:172-182 | the default category if and only if no rule fires |
| ChatbotPage.ChatbotPage.constructor | frontend/src/pages/Chatbot.js:5-18 | a single welcome message, empty input, error and history, no conversation started; the fallback is the one as written |
| ChatbotPage.ChatbotPage.Repaired | frontend/src/pages/Chatbot.js:5-18 | the same initial state, with the fallback whose stress branch is repaired |
| ChatbotPage.ChatbotPage.GetAIResponse | frontend/src/pages/Chatbot.js:56-97 | on success the server reply is returned, the error is cleared and the user/assistant pair is appended to the history; on failure the error banner is set and the history is unchanged, and the result is the local fallback's answer, or none (the promise rejects) when the fallback throws; only a failed request can reject |
| ChatbotPage.ChatbotPage.HandleSendMessage | frontend/src/pages/Chatbot.js:185-211 | blank input changes nothing; otherwise the user's text is appended, followed by a bot bubble with the answer unless `getAIResponse` rejects, in which case no bot bubble follows; the input is cleared, the conversation is marked started, the history gains the user/assistant pair only after a successful request, and the error banner is cleared on success and set to the connection notice on failure |
| ChatbotPage.ChatbotPage.HandleQuickAction | frontend/src/pages/Chatbot.js:213-235 | the action is appended, then its answer unless `getAIResponse` rejects, without touching the input box; history and error banner change as for a typed message |
| ChatbotPage.FailedRequestShowsFallback | frontend/src/pages/Chatbot.js:90-142 | on the page as written, a failed request answers with a reply from the message's fallback category, except for a message that selects the stress branch, which gets no answer |
| ChatbotPage.OverwhelmedIsStress | frontend/src/pages/Chatbot.js:103-135 | the quick action "I'm feeling overwhelmed" selects the stress branch |
| ChatbotPage.OverwhelmedGoesUnanswered | frontend/src/pages/Chatbot.js:135-141 | on the page as written, "I'm feeling overwhelmed" with the server unreachable gets no answer and no bot bubble |
| ChatbotPage.RepairedPageAlwaysAnswers | frontend/src/pages/Chatbot.js:90-142 | with the stress branch repaired, a failed request always answers with a reply from the message's category, and "I'm feeling overwhelmed" gets a stress reply |
| AdvancedChatbot.ReplyMessage | frontend/src/components/AdvancedChatbot.js:76-103 | a settled bot message carrying the server reply, or the apology when the request failed |
| AdvancedChatbot.PlaceholdersRemoved | frontend/src/components/AdvancedChatbot.js:79 | dropping loading messages leaves none, keeps every settled message and its order, and accounts for every message |
| AdvancedChatbot.SettledListIsKept | frontend/src/components/AdvancedChatbot.js:79 | a list without placeholders is left as it is |
| AdvancedChatbot.AdvancedChatbot.constructor | frontend/src/components/AdvancedChatbot.js:5-15 | only the welcome message, empty input, not loading |
| AdvancedChatbot.AdvancedChatbot.Send | frontend/src/components/AdvancedChatbot.js:50-72 | a send starts if and only if the text is not blank and no reply is pending; it appends the trimmed user message and a loading placeholder, clears the input and hides the quick replies |
| AdvancedChatbot.AdvancedChatbot.Receive | frontend/src/components/AdvancedChatbot.js:74-106 | placeholders are replaced by the reply or the apology, and loading ends |
| AdvancedChatbot.AdvancedChatbot.HandleSendMessage | frontend/src/components/AdvancedChatbot.js:50-106 | a whole exchange: blank text changes nothing; otherwise the trimmed text and the settled reply are appended |
| AdvancedChatbot.AdvancedChatbot.HandleQuickReply | frontend/src/components/AdvancedChatbot.js:45-48 | the input is cleared whether or not the send starts |
| PremiumPlanner.NewTask | frontend/src/components/PremiumPlanner.js:27-35 | a new task copies the form, is not completed and has no time spent |
| PremiumPlanner.Toggled | frontend/src/components/PremiumPlanner.js:48-54 | only tasks with the given id flip `completed`; everything else is kept |
| PremiumPlanner.ToggleTwice | frontend/src/components/PremiumPlanner.js:48-54 | toggling twice restores the list |
| PremiumPlanner.ToggleAbsent | frontend/src/components/PremiumPlanner.js:48-54 | toggling an unknown id changes nothing |
| PremiumPlanner.DeleteRemovesExactly | frontend/src/components/PremiumPlanner.js:56-60 | deleting removes every task with the id, keeps every other task, distributes over concatenation and changes nothing for an unknown id |
| PremiumPlanner.FilteredTasks | frontend/src/components/PremiumPlanner.js:80-96 | each view holds exactly the tasks meeting its test (completed, pending, high and not completed, due today); any other filter shows every task |
| PremiumPlanner.CompletedPendingPartition | frontend/src/components/PremiumPlanner.js:80-96 | the completed and pending views split the task list as a multiset |
| PremiumPlanner.CompletionRate | frontend/src/components/PremiumPlanner.js:100 | the rounded rate lies in 0..100, is 0 without tasks or completions and 100 when all are completed |
| PremiumPlanner.CountersMatchViews | frontend/src/components/PremiumPlanner.js:98-105 | the high-priority, pending and today counters equal the sizes of the matching filtered views |
| PremiumPlanner.PriorityColor | frontend/src/components/PremiumPlanner.js:62-65 | danger, warning and info for high, medium and low, and no colour for any other string that is not an inherited object key |
| PremiumPlanner.PriorityColorsDistinct | frontend/src/components/PremiumPlanner.js:62-65 | distinct priorities get distinct colours |
| PremiumPlanner.CategoryIcon | frontend/src/components/PremiumPlanner.js:67-78 | an icon exists exactly for the seven listed categories (inherited object keys aside) |
| PremiumPlanner.PremiumPlanner.constructor | frontend/src/components/PremiumPlanner.js:5-14 | no tasks, a blank form, the "all" filter and a closed modal |
| PremiumPlanner.PremiumPlanner.AddTask | frontend/src/components/PremiumPlanner.js:24-46 | blank text changes nothing; otherwise the new task is prepended, the form is reset and the modal closes |
| PremiumPlanner.PremiumPlanner.ToggleTask | frontend/src/components/PremiumPlanner.js:48-54 | the task list becomes its toggled version; nothing else changes |
| PremiumPlanner.PremiumPlanner.DeleteTask | frontend/src/components/PremiumPlanner.js:56-60 | the task list loses exactly the tasks with the id; nothing else changes |
| EnhancedPlanner.NewTask | frontend/src/components/EnhancedPlanner.js:18-25 | a new task copies the form and is not completed |
| EnhancedPlanner.Toggled | frontend/src/components/EnhancedPlanner.js:31-37 | only tasks with the given id flip `completed` |
| EnhancedPlanner.ToggleTwice | frontend/src/components/EnhancedPlanner.js:31-37 | toggling twice restores the list |
| EnhancedPlanner.DeleteRemovesExactly | frontend/src/components/EnhancedPlanner.js:39-43 | deleting removes exactly the tasks with the id |
| EnhancedPlanner.CompletionRate | frontend/src/components/EnhancedPlanner.js:61-63 | the rounded rate lies in 0..100, is 0 without tasks and 100 when all are done |
| EnhancedPlanner.PriorityColor | frontend/src/components/EnhancedPlanner.js:45-48 | danger, warning and info for high, medium and low; nothing for any other string that is not an inherited object key |
| EnhancedPlanner.CategoryIcon | frontend/src/components/EnhancedPlanner.js:50-59 | an icon exists exactly for the five listed categories (inherited object keys aside) |
| EnhancedPlanner.TablesAgreeWithPremium | frontend/src/components/EnhancedPlanner.js:45-59 | the colour table equals the premium planner's, the icons agree where defined, and only the premium planner knows "finance" and "creative" |
| EnhancedPlanner.EnhancedPlanner.constructor | frontend/src/components/EnhancedPlanner.js:5-6 | no tasks and a blank form |
| EnhancedPlanner.EnhancedPlanner.AddTask | frontend/src/components/EnhancedPlanner.js:15-29 | blank text changes nothing; otherwise the task is prepended and the form reset |
| EnhancedPlanner.EnhancedPlanner.ToggleTask | frontend/src/components/EnhancedPlanner.js:31-37 | the task list becomes its toggled version |
| EnhancedPlanner.EnhancedPlanner.DeleteTask | frontend/src/components/EnhancedPlanner.js:39-43 | the task list loses exactly the tasks with the id |
| Percent.RoundedPercent | frontend/src/components/PremiumPlanner.js:100 | `Math.round(part / whole * 100)` is bracketed by the half-up rounding inequality, and 0 for an empty list |
| Percent.PercentInRange | frontend/src/components/PremiumPlanner.js:100 | for part ≤ whole the percentage is in 0..100, 0 for none and 100 for all |
| Percent.PercentMonotone | frontend/src/components/PremiumPlanner.js:100 | completing more tasks never lowers the rate |
| MoodScale.At | frontend/src/components/Journal.js:31-34 | an array read is defined exactly for indexes in range (JavaScript gives `undefined` otherwise) |
| MoodScale.ClampedIndex | frontend/src/components/Journal.js:31-34 | `Math.min(mood - 1, 5)` is mood - 1 up to 6 and 5 above |
| MoodScale.ClampedLookup | frontend/src/components/Journal.js:31-39 | a clamped lookup is defined exactly for mood ≥ 1, gives the mood's own entry for 1..6 and the last entry above |
| Journal.MoodEmoji | frontend/src/components/Journal.js:31-34 | an emoji exists exactly for mood ≥ 1, the sixth for every mood above 6 |
| MoodScale.MoodColor | frontend/src/components/Journal.js:36-39 | a colour exists exactly for mood ≥ 1, the mood's own colour for 1..6 and "success" above 6; `EnhancedJournal.js:63` is the same function |
| Journal.EmojiAndColorAgree | frontend/src/components/Journal.js:31-39 | emoji and colour always come from the same table position |
| Journal.Journal.constructor | frontend/src/components/Journal.js:5-6 | no entries and the blank form with mood 5 |
| Journal.Journal.AddEntry | frontend/src/components/Journal.js:15-29 | a missing title or content changes nothing; otherwise the entry with the mood's emoji is prepended and the form reset |
| Journal.Journal.SetMood | frontend/src/components/Journal.js:66-70 | the slider sets the form's mood only |
| EnhancedJournal.SliderMoodsFindTheirLabels | frontend/src/components/EnhancedJournal.js:31-37 | every slider mood 1..6 gets its emoji and label |
| EnhancedJournal.ToggleTag | frontend/src/components/EnhancedJournal.js:46-53 | the tag ends up present if and only if it was absent, other tags are kept, and a new tag is appended at the end |
| EnhancedJournal.ToggleTwiceRestores | frontend/src/components/EnhancedJournal.js:46-53 | adding and then removing a tag restores the list |
| EnhancedJournal.AllTags | frontend/src/components/EnhancedJournal.js:71 | the flattened tag list holds exactly the tags of the entries |
| EnhancedJournal.Dedup | frontend/src/components/EnhancedJournal.js:71 | `new Set` keeps the same tags without repeats, in order of first appearance |
| EnhancedJournal.Leader | frontend/src/components/EnhancedJournal.js:72-76 | the stable descending sort puts first a tag of greatest count, the earliest one on ties |
| EnhancedJournal.MostUsedTag | frontend/src/components/EnhancedJournal.js:70-77 | "No tags yet" if and only if there are no entries; no tag if and only if no entry has tags; otherwise a tag of greatest count that appeared first among ties |
| EnhancedJournal.LeaderWins | frontend/src/components/EnhancedJournal.js:70-77 | the sort's first element is most used and wins ties |
| EnhancedJournal.LeaderIsMostUsed | frontend/src/components/EnhancedJournal.js:72-76 | no tag is used by more entries than the leader |
| EnhancedJournal.LeaderWinsTies | frontend/src/components/EnhancedJournal.js:72-76 | among equally used tags the leader appeared first |
| EnhancedJournal.TagsOfEntries | frontend/src/components/EnhancedJournal.js:71 | the distinct tag list is empty if and only if no entry has tags |
| EnhancedJournal.AllTagsEmpty | frontend/src/components/EnhancedJournal.js:71 | the flattened tag list is empty if and only if no entry has tags |
| EnhancedJournal.AverageMood | frontend/src/components/EnhancedJournal.js:67-69 | 0 without entries; between 1 and 6 when all moods come from the slider |
| EnhancedJournal.EnhancedJournal.constructor | frontend/src/components/EnhancedJournal.js:5-12 | no entries, the blank form and a closed modal |
| EnhancedJournal.EnhancedJournal.AddEntry | frontend/src/components/EnhancedJournal.js:28-44 | a missing title or content changes nothing; otherwise the entry with its emoji and label is prepended, the form reset and the modal closed |
| EnhancedJournal.EnhancedJournal.ToggleFormTag | frontend/src/components/EnhancedJournal.js:46-53 | only the form's tags change, by `ToggleTag` |
| EnhancedJournal.EnhancedJournal.SetMood | frontend/src/components/EnhancedJournal.js:234-239 | the slider sets the form's mood only |
| EnhancedJournal.EnhancedJournal.TotalEntries | frontend/src/components/EnhancedJournal.js:66 | the total is the entry count and is zero exactly when the most-used tag reads "No tags yet" |
| EnhancedMoodTracker.OptionsFollowTheScale | frontend/src/components/EnhancedMoodTracker.js:10-17 | six options, option i has value i + 1 and the shared emoji, label and colour |
| EnhancedMoodTracker.Find | frontend/src/components/EnhancedMoodTracker.js:37 | `find` succeeds exactly when some option has the value, and returns such an option |
| EnhancedMoodTracker.OptionOfMood | frontend/src/components/EnhancedMoodTracker.js:37 | a mood finds its option exactly for 1..6, namely option mood - 1 |
| EnhancedMoodTracker.EffectiveMood | frontend/src/components/EnhancedMoodTracker.js:34 | `selectedMood \|\| mood`: a chosen non-zero mood wins, otherwise the slider mood |
| EnhancedMoodTracker.NewEntryCarriesItsOption | frontend/src/components/EnhancedMoodTracker.js:32-38 | a new entry stores the effective mood, the trimmed note and that mood's option |
| EnhancedMoodTracker.PanelsSplitTheList | frontend/src/components/EnhancedMoodTracker.js:169-205 | the recent panel (first five) and the older panel (the rest) together show the whole list, the older one only past five entries |
| EnhancedMoodTracker.MoodStatsOf | frontend/src/components/EnhancedMoodTracker.js:47-59 | no statistics without entries; otherwise the total, the count of today's entries and an average within 1..6 |
| EnhancedMoodTracker.EnhancedMoodTracker.constructor | frontend/src/components/EnhancedMoodTracker.js:5-8 | mood 6, an empty note, no entries and no selection |
| EnhancedMoodTracker.EnhancedMoodTracker.SelectMood | frontend/src/components/EnhancedMoodTracker.js:120 | clicking an option selects it and changes nothing else |
| EnhancedMoodTracker.EnhancedMoodTracker.AddMoodEntry | frontend/src/components/EnhancedMoodTracker.js:26-45 | alerts if and only if the note is blank, and then changes nothing; otherwise it prepends the new entry, clears the note and the selection |
| EnhancedMoodTracker.EnhancedMoodTracker.Stats | frontend/src/components/EnhancedMoodTracker.js:47-59 | the statistics of the tracker's entries, with the average within 1..6 |
| MoodTrackerPage.MoodTracker.constructor | frontend/src/pages/MoodTracker.js:4-6 | mood 6, an empty note, no entries |
| MoodTrackerPage.MoodTracker.SetMood | frontend/src/pages/MoodTracker.js:20 | the slider sets the mood within 1..10 only |
| MoodTrackerPage.MoodTracker.Add | frontend/src/pages/MoodTracker.js:8-13 | alerts if and only if the note is empty, and then changes nothing; otherwise it prepends the entry and clears the note |
| PlannerPage.Planner.constructor | frontend/src/pages/Planner.js:4-5 | no task text and no tasks |
| PlannerPage.Planner.Add | frontend/src/pages/Planner.js:7-12 | logged out, it only asks to log in; with empty text it does nothing; otherwise it prepends the task and clears the text |
| BreathingCycle.NextStep | frontend/src/pages/Breathing.js:56-60 | the next step wraps to 0 after the last |
| BreathingCycle.ProgressOf | frontend/src/pages/Breathing.js:77-80 | progress of a step lies in (0, 100] |
| BreathingCycle.ProgressShape | frontend/src/pages/Breathing.js:77-80 | progress strictly grows with the step and reaches 100 only at the last step |
| BreathingCycle.ProgressFullAtLastStep | frontend/src/pages/Breathing.js:77-80 | progress is 100 exactly at the last step |
| BreathingPage.ExercisesWellFormed | frontend/src/pages/Breathing.js:9-48 | every exercise has steps and every step a positive duration |
| BreathingPage.BreathingPage.constructor | frontend/src/pages/Breathing.js:5-7 | no exercise, not running, step 0 |
| BreathingPage.BreathingPage.Delay | frontend/src/pages/Breathing.js:55-61 | the timer waits a positive number of milliseconds |
| BreathingPage.BreathingPage.Timeout | frontend/src/pages/Breathing.js:51-64 | a timer firing advances to the next step, wrapping around |
| BreathingPage.BreathingPage.StartExercise | frontend/src/pages/Breathing.js:66-70 | the exercise becomes active at step 0 and runs |
| BreathingPage.BreathingPage.StopExercise | frontend/src/pages/Breathing.js:72-75 | stops and rewinds to step 0, keeping the exercise |
| BreathingPage.BreathingPage.Progress | frontend/src/pages/Breathing.js:77-80 | 0 without an exercise, else in (0, 100] and 100 exactly at the last step |
| EnhancedBreathing.ExercisesWellFormed | frontend/src/components/EnhancedBreathing.js:10-70 | every exercise has steps and every step a positive duration |
| EnhancedBreathing.CircleSizeOf | frontend/src/components/EnhancedBreathing.js:112-118 | 200 if and only if the action contains "In", 100 if and only if it contains "Out" but not "In", else 150 |
| EnhancedBreathing.CircleSizeIsCaseSensitive | frontend/src/components/EnhancedBreathing.js:112-118 | "Breathe in" is not matched (150), while "Inhale Right" grows (200) |
| EnhancedBreathing.EnhancedBreathing.constructor | frontend/src/components/EnhancedBreathing.js:5-8 | no exercise, not running, step 0, no time left |
| EnhancedBreathing.EnhancedBreathing.StepEffect | frontend/src/components/EnhancedBreathing.js:72-77 | while running, the countdown is loaded with the current step's duration |
| EnhancedBreathing.EnhancedBreathing.Tick | frontend/src/components/EnhancedBreathing.js:78-92 | each second counts down; at 1 or below it moves to the next step, wrapping, and reloads that step's duration |
| EnhancedBreathing.EnhancedBreathing.StartExercise | frontend/src/components/EnhancedBreathing.js:95-99 | the exercise becomes active at step 0 and runs |
| EnhancedBreathing.EnhancedBreathing.StopExercise | frontend/src/components/EnhancedBreathing.js:101-105 | stops, rewinds to step 0 and clears the countdown |
| EnhancedBreathing.EnhancedBreathing.Progress | frontend/src/components/EnhancedBreathing.js:107-110 | 0 without an exercise, else in (0, 100] and 100 exactly at the last step |
| EnhancedBreathing.EnhancedBreathing.CircleSize | frontend/src/components/EnhancedBreathing.js:112-118 | 150 without an exercise, else the size for the current step's action |
| ProgressAnalytics.Band | frontend/src/components/ProgressAnalytics.js:16-28 | four mood bands split at 4, 6 and 8 |
| ProgressAnalytics.MoodColor | frontend/src/components/ProgressAnalytics.js:16-21 | success from 8, info from 6, warning from 4, otherwise danger |
| ProgressAnalytics.MoodLabel | frontend/src/components/ProgressAnalytics.js:23-28 | Excellent, Good, Okay, Needs attention on the same thresholds |
| ProgressAnalytics.ColorAndLabelAgree | frontend/src/components/ProgressAnalytics.js:16-28 | colour and label are both read off the same band |
| ProgressAnalytics.BandsAreMonotone | frontend/src/components/ProgressAnalytics.js:16-28 | a higher mood never lands in a lower band |
| ProgressAnalytics.BandsAreDistinct | frontend/src/components/ProgressAnalytics.js:16-28 | two moods share a colour, and a label, exactly when they share a band |
| MentalHealthQuiz.SumUpdate | frontend/src/components/MentalHealthQuiz.js:14-18 | replacing one answer changes the sum by the difference |
| MentalHealthQuiz.MentalHealthQuiz.constructor | frontend/src/components/MentalHealthQuiz.js:11-12 | three unanswered questions, not submitted |
| MentalHealthQuiz.MentalHealthQuiz.HandleChange | frontend/src/components/MentalHealthQuiz.js:14-18 | only the chosen answer changes, and the score moves by the difference |
| MentalHealthQuiz.MentalHealthQuiz.HandleSubmit | frontend/src/components/MentalHealthQuiz.js:20 | submitting keeps the answers |
| MentalHealthQuiz.MentalHealthQuiz.Score | frontend/src/components/MentalHealthQuiz.js:40 | the score of three answers in 0..3 lies in 0..9 |
| Home.Digits | frontend/src/pages/Home.js:194-197 | `replace(/\D/g, '')` keeps exactly the digits |
| Home.DigitsInOrder | frontend/src/pages/Home.js:195 | digit extraction distributes over concatenation, keeping order |
| Home.DigitsIdempotent | frontend/src/pages/Home.js:195 | an all-digit number is unchanged, and cleaning twice equals cleaning once |
| Home.CallTarget | frontend/src/pages/Home.js:194-197 | the dial link is "tel:" followed by digits only |
| Home.DigitsAroundTwoDashes | frontend/src/pages/Home.js:195 | dashes between digit runs are dropped and the runs are concatenated |
| Home.FoundationNumber | frontend/src/pages/Home.js:71 | the first helpline dials 18602662345 |
| Home.SnehaNumber | frontend/src/pages/Home.js:103 | the Sneha helpline dials 04424640050, keeping its leading zero |
| Home.EmergencyNumber | frontend/src/pages/Home.js:111 | the emergency number dials 112 |

## Left out

- Persistence. The `localStorage` loads and saves, the JSON encoding and the SQLite queries are not modelled. The user table is a `map`, and a database error (status 500) is not modelled.
- Network and third-party calls. `fetch`, `axios` and the OpenAI client become outcome parameters (`Option<string>`, `Client`). bcrypt and JWT become the `hash`, `matches` and `decode` parameters. Token signing and expiry are not modelled.
- Timers. `setTimeout` and `setInterval` are the `Timeout` and `Tick` methods. The random typing delay in the chat page and the chat route's 800-1200 ms delay are not modelled.
- Randomness and time. `Math.random()` is the draw parameter `u`. `Date.now()` and `new Date()` are `id` and `date` parameters, and "is today" is a predicate parameter.
- Floating point. Averages are exact reals and `toFixed(1)` is not modelled. `Math.round` is modelled as integer half-up rounding.
- Case folding. `toLowerCase` is modelled for ASCII letters only.
- Request fields. Only strings and absence are modelled for chat messages, except at the `backend/server.js` chat endpoint, which also models a non-string message. Registration and login fields are strings or absent.
- Conversation history. `ChatbotRoute` takes the history as a list of strings. The chat page sends `{role, content}` objects, whose joining is not modelled.
- A `null` or non-array `conversationHistory` in a request to `backend/routes/chatbot.js` is not modelled. The `= []` default at line 149 covers only a missing field, and `slice(-4)` (line 86) then throws inside the timer callback, so no response is sent. `ChatbotRoute.PostMessage` covers only a missing history or a list of strings.
- Success bodies of register and login: the welcome text, the signed token and the user object are not modelled, only the outcome and the e-mail. Their texts also differ between `backend/server.js` and `backend/routes/auth.js`.
- Other endpoints and views. The health, test and resources endpoints, static serving and server start-up are not modelled. Neither are the modals, scrolling, focus, the copy button, the emergency and relax handlers, or the page layout.
- The simple mood tracker's slider stores a string in the source. The model keeps it as an integer.
- ChatbotPage.ChatbotPage.HandleSendMessage: each send is modelled as running to completion before the next starts. In `frontend/src/pages/Chatbot.js` the input and send button are disabled only while `isTyping` is set (lines 362 and 372), and `simulateTyping` clears it (line 50) before the request settles. A second send can therefore start while the first is in flight, so bubbles can interleave and the second request can carry a history that lacks the first exchange. This is not modelled. The same holds for `ChatbotPage.ChatbotPage.HandleQuickAction`.
- PremiumPlanner.PriorityColor, PremiumPlanner.CategoryIcon, EnhancedPlanner.PriorityColor, EnhancedPlanner.CategoryIcon: keys inherited from `Object.prototype`, such as "constructor", "toString" and "__proto__", are not modelled. In the source those look-ups return an inherited value rather than `undefined`, so the "no colour/icon for any other string" clauses hold only for other strings. Tasks carry only the values of the form's select boxes.
- Other files. `PremiumChatbot.js`, the controller files, `db_manager.js`, `App.js` and the navigation components are not part of this model.

## Findings

| source | as written | input that shows it | evidently intended | confidence | as-written member | corrected member |
|---|---|---|---|---|---|---|
| frontend/src/pages/Chatbot.js:141 | the stress branch scales the draw by `depressionResponses.length`, but that constant is declared inside the depression branch's block (line 127), so the branch throws a `ReferenceError`; `getAIResponse` rejects from its `catch` and the handler stops after the user's bubble | the quick action "I'm feeling overwhelmed" (or any message that selects the stress branch) while the server is unreachable | scale by `stressResponses.length`, giving a uniform pick from the stress replies | high; not executed | ChatbotPage.OverwhelmedGoesUnanswered | ChatbotPage.RepairedPageAlwaysAnswers |
