# Progression model, scenario filter and chat log of the therapy-practice simulator

This project models the client-side core of a browser-based simulator in which students
practise therapeutic dialogue with simulated patients, and proves properties of it in Dafny.

- **Progression model** (`progress.dfy`, `achievements.dfy`). The provider keeps five fields:
  skill rating, achievements, streak, last-active date and completed scenarios. It offers:
  - the clamped rating update;
  - achievement unlock;
  - achievement progress with auto-unlock;
  - streak increment and reset;
  - idempotent scenario completion;
  - the daily streak check that runs once when the provider mounts;
  - loading every field from storage and mirroring every field back to it.

  The career level is derived from the rating by a band lookup. The fields are a
  `ProgressProvider` class. Each method is tied to a pure transition function on a `Progress`
  snapshot, and the lemmas are stated over those functions.
- **Scenario catalogue** (`scenarios.dfy`). The fixed catalogue, the category list offered by
  the category filter, and the search-and-filter predicate.
- **Chat log** (`chat.dfy`). The hook's message list, its `isResponding` flag and its stored
  API key. The HTTP request is abstracted as a `FetchOutcome`: either the parsed response body
  or an exception. `sendMessage` is split at its `await` into `BeginSend` and `FinishSend`, so
  the pending state can be observed.
- **Send guard** (`message_input.dfy`). The input box's send rule, the Enter-key rule, and when
  the textarea and the send button are disabled.
- **Support modules.**
  - `jstext.dfy`: the JavaScript string and number operations the core relies on (`trim`,
    `toLowerCase`, `includes`, `toString`, `parseInt(s, 10)`).
  - `storage.dfy`: `localStorage` as a map from keys to stored values.
  - `sequences.dfy`: sequence predicates.
  - `wrappers.dfy`: `Option`.

Time is an integer number of milliseconds. The calendar date used by the daily check is a
parameter `calendarDay: int -> int`. `UtcDay` is one instance of it, used for the worked examples.

Points where the code's behaviour is easy to misread:
- The code's catalogue is the five-entry list in `src/pages/Scenarios.tsx`, with no skill gating.
- The completed scenarios are a list. Duplicates are avoided by `markScenarioCompleted`, and
  `ScenarioCompletedKeepsDistinct` proves that a list with no duplicates stays that way.
- A stored rating is loaded without clamping. A rating of 5000 in storage stays 5000 until the
  next update, and its level falls back to "Student Therapist" (`LevelOutsideBands`). The rating
  is in [0, 3000] only after an update (`RatingSeriesInRange`).
- The streak check resets on an elapsed time of more than 2 × 24 h in milliseconds, not on a
  count of calendar days. A day can therefore be skipped without losing the streak
  (`SkippedDayStillIncrements`), although the comment above that test speaks of more than one day.

## Model

| member | source | states |
|---|---|---|
| `JsText.Trim` | src/components/chat/MessageInput.tsx:18 | `trim()` gives a stretch of the input with only whitespace before and after it, and it neither starts nor ends with whitespace |
| `JsText.TrimEmptyIff` | src/components/chat/MessageInput.tsx:18 | `s.trim() === ""` holds exactly when every character of `s` is ECMAScript whitespace or a line terminator |
| `JsText.Includes` | src/pages/Scenarios.tsx:68-71 | `includes` holds when the string starts with the pattern, and only when the pattern is no longer than the string; its exact meaning is `IncludesIff` |
| `JsText.IncludesIff` | src/pages/Scenarios.tsx:68-71 | `s.includes(p)` holds exactly when `p` occurs at some position of `s` |
| `JsText.Lower` | src/pages/Scenarios.tsx:68-71 | `toLowerCase` keeps the length, maps each ASCII capital to its small letter, keeps every other character, and leaves no ASCII capital |
| `JsText.LowerIdempotent` | src/pages/Scenarios.tsx:68-72 | lower-casing an already lower-cased string changes nothing |
| `JsText.LowerOfUpper` | src/pages/Scenarios.tsx:68-72 | an upper-cased string has the same lower-case form as the original |
| `JsText.NatToString` | src/context/UserProgressContext.tsx:140-142 | `n.toString()` for n ≥ 0 is a non-empty run of decimal digits whose value is `n`; JavaScript agrees for n < 10^21 (see Left out) |
| `JsText.IntToString` | src/context/UserProgressContext.tsx:140-142 | `n.toString()` starts with "-" exactly for negative `n`, and the digits after any sign have the value of \|n\| |
| `JsText.ParseInt` | src/context/UserProgressContext.tsx:106-109 | `parseInt(s, 10)` of the empty string, or of a string that starts with neither whitespace, a sign nor a digit, is NaN; of a plain digit string it is the string's decimal value |
| `JsText.ParseIntOfIntToString` | src/context/UserProgressContext.tsx:106-119 | `parseInt(n.toString(), 10)` is `n` (never NaN) for every integer of the model; in JavaScript this holds for the safe integers, \|n\| ≤ 2^53 (see Left out) |
| `Achievements.InitialAchievementsShape` | src/context/UserProgressContext.tsx:44-86 | five achievements with distinct ids, all locked; those with a total start at progress 0 towards a positive total; "first-session" and "streak-7" are present |
| `Achievements.UnlockAll` | src/context/UserProgressContext.tsx:191-197 | same length and order; every entry keeps all its fields except `unlocked`; `unlocked` becomes true exactly for the entries with the given id and stays as it was elsewhere |
| `Achievements.UnlockAllIdempotent` | src/context/UserProgressContext.tsx:191-197 | unlocking the same id twice is the same as unlocking it once |
| `Achievements.UnlockAllUnknownId` | src/context/UserProgressContext.tsx:191-197 | unlocking an id that no entry carries leaves the list unchanged |
| `Achievements.AddProgressAll` | src/context/UserProgressContext.tsx:199-219 | same length; entries with another id are unchanged; a matching entry gets progress `(progress or 0) + delta` and is unlocked iff it already was or the new progress reaches a present, non-zero total; nothing else in it changes |
| `Achievements.AddProgressKeepsUnlocked` | src/context/UserProgressContext.tsx:209-212 | a progress update never turns `unlocked` from true to false |
| `Achievements.AddProgressUnknownId` | src/context/UserProgressContext.tsx:199-219 | a progress update for an id that no entry carries leaves the list unchanged |
| `Achievements.AddProgressSeriesReachesTotal` | src/context/UserProgressContext.tsx:199-219 | after a non-empty series of progress updates, the entry holds its starting progress plus the sum of the deltas; it is unlocked once that sum reaches its non-zero total; once unlocked it stays unlocked |
| `UserProgress.FindLevel` | src/context/UserProgressContext.tsx:151-153 | `find` returns the first band containing the rating, and returns nothing exactly when no band contains it |
| `UserProgress.LevelBandsPartition` | src/context/UserProgressContext.tsx:37-41 | every rating in [0, 3000] lies in exactly one band, and its level is that band |
| `UserProgress.LevelForBand` | src/context/UserProgressContext.tsx:150-156 | a rating inside band k gets level k |
| `UserProgress.LevelOutsideBands` | src/context/UserProgressContext.tsx:151-153 | a rating outside [0, 3000] falls back to "Student Therapist" |
| `UserProgress.LevelBoundaries` | src/context/UserProgressContext.tsx:37-41 | 0 and 999 give "Student Therapist"; 1000 and 1999 give "Clinic Intern"; 2000 and 3000 give "Certified Practitioner" |
| `UserProgress.CareerLevelsTile` | src/context/UserProgressContext.tsx:37-41 | the three bands start at 0, end at 3000, are each non-empty, and each starts one above the end of the previous one |
| `UserProgress.LevelFor` | src/context/UserProgressContext.tsx:151-153 | the level is one of the career levels, and either contains the rating or is "Student Therapist" for a rating no band contains (`find(...) \|\| careerLevels[0]`) |
| `UserProgress.ClampRating` | src/context/UserProgressContext.tsx:186 | the result is in [0, 3000]; a value in range is kept; values below go to 0 and values above go to 3000 |
| `UserProgress.RatingUpdated` | src/context/UserProgressContext.tsx:184-189 | only the rating changes; the new rating is `old + points` when that is in range, else the nearer bound |
| `UserProgress.RatingSeriesInRange` | src/context/UserProgressContext.tsx:184-189 | after any non-empty series of rating updates the rating is in [0, 3000], and nothing else has changed |
| `UserProgress.AchievementUnlocked` | src/context/UserProgressContext.tsx:191-197 | only the achievement list changes; it keeps its length and every field but `unlocked`; an entry ends up unlocked iff it was unlocked before or has the given id |
| `UserProgress.AchievementProgressed` | src/context/UserProgressContext.tsx:199-219 | only the achievement list changes, keeping its length; entries with another id are unchanged; a matching entry gets progress `(progress or 0) + delta`, keeps its other fields, and is unlocked iff it already was or the new progress reaches a present, non-zero total |
| `UserProgress.StreakIncremented` | src/context/UserProgressContext.tsx:221-228 | the streak grows by exactly 1; the achievement list keeps every field but `unlocked`; "streak-7" becomes unlocked when the new streak is ≥ 7; nothing else changes |
| `UserProgress.StreakReset` | src/context/UserProgressContext.tsx:230-232 | the streak becomes 0 and nothing else changes; achievements are untouched |
| `UserProgress.ScenarioCompleted` | src/context/UserProgressContext.tsx:234-243 | the id ends up in the list; a present id changes nothing; an absent id is appended at the end; "first-session" is unlocked iff it already was or the list was empty before the call; only the list and the achievements change |
| `UserProgress.ScenarioCompletedIdempotent` | src/context/UserProgressContext.tsx:234-243 | completing the same scenario twice is the same as completing it once |
| `UserProgress.ScenarioCompletedKeepsDistinct` | src/context/UserProgressContext.tsx:235-236 | a completed list without duplicates still has none after a completion |
| `UserProgress.DailyChecked` | src/context/UserProgressContext.tsx:159-182 | the last date becomes now, and the rating and the completed list are kept. With no last date, nothing else changes. A gap over 2 days resets the streak. A gap of at most 2 days on a different calendar day increments the streak, with the "streak-7" rule. The same calendar day keeps everything |
| `UserProgress.DailyCheckedAgainIsNoOp` | src/context/UserProgressContext.tsx:159-182 | running the check a second time at the same instant changes nothing |
| `UserProgress.ThreeDaysAgoResets` | src/context/UserProgressContext.tsx:168-171 | last active three days ago: the streak is reset to 0, whatever the calendar |
| `UserProgress.YesterdayIncrements` | src/context/UserProgressContext.tsx:172-179 | last active exactly one UTC day ago: the streak goes up by 1 |
| `UserProgress.SkippedDayStillIncrements` | src/context/UserProgressContext.tsx:168-179 | last active exactly two UTC days ago: the streak still goes up by 1 |
| `UserProgress.SameDayKeeps` | src/context/UserProgressContext.tsx:172-181 | last active earlier on the same UTC day: the streak is unchanged |
| `UserProgress.LoadIntOfText` | src/context/UserProgressContext.tsx:106-119 | an integer stored as its `toString` text loads back as the same integer (in JavaScript, for \|n\| ≤ 2^53) |
| `UserProgress.LoadInt` | src/context/UserProgressContext.tsx:106-109 | `saved ? parseInt(saved, 10) : default`: an absent key, an empty text, or a text `parseInt` rejects gives the default (the NaN case is in Left out); `LoadIntOfText` gives the round trip |
| `UserProgress.LoadAchievements` | src/context/UserProgressContext.tsx:111-114 | the stored list when there is one, else the initial achievements |
| `UserProgress.LoadDate` | src/context/UserProgressContext.tsx:121-124 | a date exactly when one is stored, and it is the stored instant |
| `UserProgress.LoadCompleted` | src/context/UserProgressContext.tsx:126-129 | the stored id list when there is one, else the empty list |
| `UserProgress.Loaded` | src/context/UserProgressContext.tsx:106-129 | every key missing from the store gives its field's default (rating 500, the initial achievements, streak 0, no date, no completed scenarios); an empty store gives exactly that state; `SavedThenLoaded` is its round trip with `Saved` |
| `UserProgress.Saved` | src/context/UserProgressContext.tsx:139-147 | the persistence effect writes each field under its key (numbers as their `toString` text); the date is written only when there is one, and otherwise the old date entry survives unchanged |
| `UserProgress.SavedThenLoaded` | src/context/UserProgressContext.tsx:139-147 | loading what was saved gives back the saved state; when the saved date is null, the previously stored date comes back instead |
| `UserProgress.SavedKeepsOtherKeys` | src/context/UserProgressContext.tsx:139-147 | saving touches only the five progress keys; every other entry, such as the API key, survives |
| `UserProgress.SavedTwice` | src/context/UserProgressContext.tsx:139-147 | a second save with a date overwrites everything the first save wrote |
| `UserProgress.ProgressProvider.Mount` | src/context/UserProgressContext.tsx:106-182 | the state after mounting is the loaded state passed through one daily check, and the store holds that state |
| `UserProgress.ProgressProvider.CurrentLevel` | src/context/UserProgressContext.tsx:150-156 | `userLevel` is a career level that contains the current rating, or "Student Therapist" when none does; the model derives it instead of storing it (see Left out) |
| `UserProgress.ProgressProvider.UpdateSkillRating` | src/context/UserProgressContext.tsx:184-189 | the new state is `RatingUpdated` of the old state |
| `UserProgress.ProgressProvider.UnlockAchievement` | src/context/UserProgressContext.tsx:191-197 | the new state is `AchievementUnlocked` of the old state |
| `UserProgress.ProgressProvider.UpdateAchievementProgress` | src/context/UserProgressContext.tsx:199-219 | the new state is `AchievementProgressed` of the old state |
| `UserProgress.ProgressProvider.IncrementStreak` | src/context/UserProgressContext.tsx:221-228 | the new state is `StreakIncremented` of the old state |
| `UserProgress.ProgressProvider.ResetStreak` | src/context/UserProgressContext.tsx:230-232 | the new state is `StreakReset` of the old state |
| `UserProgress.ProgressProvider.MarkScenarioCompleted` | src/context/UserProgressContext.tsx:234-243 | the new state is `ScenarioCompleted` of the old state |
| `UserProgress.ProgressProvider.CheckDailyStreak` | src/context/UserProgressContext.tsx:159-182 | the new state is `DailyChecked` of the old state |
| `UserProgress.ProgressProvider.Persist` | src/context/UserProgressContext.tsx:139-147 | the store becomes `Saved` of the old store and the current state |
| `Scenarios.CatalogueShape` | src/pages/Scenarios.tsx:9-55 | five scenarios with distinct ids (so the list has no duplicates), each "Beginner", "Intermediate" or "Advanced" |
| `Scenarios.Distinct` | src/pages/Scenarios.tsx:63 | the result has no duplicates and holds exactly the elements of the input |
| `Scenarios.DistinctIsFirstOccurrences` | src/pages/Scenarios.tsx:63 | the set-insertion order equals a walk from the front that keeps each element the first time it is seen |
| `Scenarios.Categories` | src/pages/Scenarios.tsx:63 | "all" comes first, then each category used by some catalogue scenario, each exactly once, and no other value |
| `Scenarios.CatalogueCategories` | src/pages/Scenarios.tsx:63 | the set of catalogue categories, in insertion order, is the five categories in catalogue order |
| `Scenarios.CategoriesOffered` | src/pages/Scenarios.tsx:63 | the category list is "all" followed by the five catalogue categories in catalogue order |
| `Scenarios.MatchesSearch` | src/pages/Scenarios.tsx:67-72 | the search passes exactly when the lower-cased term occurs at some position of the lower-cased title, description or some tag |
| `Scenarios.Keep` | src/pages/Scenarios.tsx:74-80 | with an empty term and both filters on "all" every scenario passes; a chosen difficulty or category rejects every scenario with another one; passing implies the search passes |
| `Scenarios.FilterScenarios` | src/pages/Scenarios.tsx:66-81 | the result is an order-preserving subsequence of the list |
| `Scenarios.FilterKeepsExactly` | src/pages/Scenarios.tsx:66-81 | a scenario is in the result exactly when it is in the list and passes the search, the difficulty filter and the category filter |
| `Scenarios.FilteredScenarios` | src/pages/Scenarios.tsx:66-81 | the page's list is an order-preserving subsequence of the catalogue and holds exactly the catalogue scenarios that pass `Keep` |
| `Scenarios.FilterNarrows` | src/pages/Scenarios.tsx:74-78 | choosing a difficulty or a category gives a subsequence of the result for "all" with the same search term |
| `Scenarios.FilterDependsOnLowerTerm` | src/pages/Scenarios.tsx:67-72 | two search terms with the same lower-case form give the same result |
| `Scenarios.SearchIgnoresCase` | src/pages/Scenarios.tsx:67-72 | an upper-cased or lower-cased search term gives the same result as the term itself |
| `Scenarios.EmptyTermMatches` | src/pages/Scenarios.tsx:67-72 | every scenario matches the empty search term |
| `Scenarios.EmptySearchKeepsAll` | src/pages/Scenarios.tsx:67-80 | an empty search with both filters on "all" keeps the whole list, in order |
| `Scenarios.InitialPageShowsCatalogue` | src/pages/Scenarios.tsx:58-81 | with the page's initial search and filters, the whole catalogue is shown |
| `Scenarios.EmptySearchByDifficulty` | src/pages/Scenarios.tsx:74-75 | with an empty search, leading scenarios of another difficulty are dropped |
| `Scenarios.AdvancedOnly` | src/pages/Scenarios.tsx:66-81 | an empty search with difficulty "Advanced" shows exactly the two advanced scenarios, in order |
| `GeminiChat.ReplyText` | src/hooks/useGeminiChat.ts:60-62 | a reply exists exactly when the outcome is a parsed body whose `candidates[0].content.parts[0].text` is a non-empty string, and it is that string, whatever candidates and parts follow |
| `GeminiChat.ReplyTextOfWellFormed` | src/hooks/useGeminiChat.ts:60-67 | a body whose first candidate's first part carries a non-empty text yields exactly that text, for any further parts and candidates |
| `GeminiChat.NoReplyText` | src/hooks/useGeminiChat.ts:58-70 | an exception, a missing or empty candidate list, or an empty text yields no reply |
| `GeminiChat.LogAfterSend` | src/hooks/useGeminiChat.ts:21-74 | without a key the log is unchanged. With a key, the old log is kept as a prefix, followed by the user message (argument text unchanged, sender "You"). Then comes exactly one bot message (sender = patient, the reply text) when a reply exists and none otherwise, so the log grows by 1 or 2 |
| `GeminiChat.LogAfterSendWellFormed` | src/hooks/useGeminiChat.ts:24-67 | if every bot message directly follows a user message, has non-empty text and has the patient as sender, that remains true after a send |
| `GeminiChat.StoredKey` | src/hooks/useGeminiChat.ts:14 | the initial key is the stored text, or "" when nothing is stored |
| `GeminiChat.ChatSession.constructor` | src/hooks/useGeminiChat.ts:12-14 | a new hook has an empty log, is not responding, and holds the stored key |
| `GeminiChat.ChatSession.SaveApiKey` | src/hooks/useGeminiChat.ts:16-19 | the key is stored under "gemini_api_key" and becomes the hook's key; the log and the flag are untouched |
| `GeminiChat.ChatSession.BeginSend` | src/hooks/useGeminiChat.ts:21-32 | with an empty key nothing changes and no request is made; otherwise the user message is appended and the hook is responding |
| `GeminiChat.ChatSession.FinishSend` | src/hooks/useGeminiChat.ts:58-73 | the reply, if any, is appended as one bot message; `isResponding` is false in every outcome |
| `GeminiChat.ChatSession.SendMessage` | src/hooks/useGeminiChat.ts:21-74 | the log becomes `LogAfterSend` of the old log; with a key, `isResponding` is false at the end; without one, the flag is untouched |
| `MessageInput.Outgoing` | src/components/chat/MessageInput.tsx:17-21 | a message is sent iff the input is not all whitespace and the key is neither null nor empty; what is sent is the untrimmed input |
| `MessageInput.TextareaDisabled` | src/components/chat/MessageInput.tsx:39 | `!apiKey \|\| isResponding` for a `string \| null` key: disabled exactly when the key is null or empty, or a reply is pending |
| `MessageInput.SendButtonDisabled` | src/components/chat/MessageInput.tsx:43 | disabled exactly when the input is all whitespace, the key is null or empty, or a reply is pending |
| `MessageInput.ButtonEnabledIffSends` | src/components/chat/MessageInput.tsx:39-43 | the button is enabled exactly when a click would send and no reply is pending; the send rule itself does not look at the pending reply |
| `MessageInput.TextareaDisabledDisablesButton` | src/components/chat/MessageInput.tsx:39-43 | whenever the textarea is disabled, so is the button |
| `MessageInput.InputBox.constructor` | src/components/chat/MessageInput.tsx:15 | the box starts empty |
| `MessageInput.InputBox.Change` | src/components/chat/MessageInput.tsx:35 | typing replaces the input |
| `MessageInput.InputBox.HandleSendMessage` | src/components/chat/MessageInput.tsx:17-21 | the callback gets `Outgoing` of the input; after a send the input is "", otherwise it is unchanged |
| `MessageInput.InputBox.HandleKeyPress` | src/components/chat/MessageInput.tsx:23-28 | Enter without Shift prevents the default action and runs the send rule; any other key, including Shift+Enter, prevents nothing, sends nothing and keeps the input |

## Left out

- `fetch`, the request headers, the prompt text, the generation parameters and `response.json()` are not modelled. They are abstracted as a `FetchOutcome`. A `text` field that holds a non-string JSON value is not modelled.
- `JSON.stringify`/`JSON.parse` and `toISOString`/`new Date(saved)` are not modelled. Stored lists and dates are kept as structured values. A stored value of the wrong shape loads as absent, whereas the code would throw or misparse it.
- `UserProgress.LoadInt`: when `parseInt` returns NaN for non-numeric stored text, the model loads the default. The code would hold NaN, and the model has no NaN.
- `JsText.IntToString`: JavaScript numbers are doubles, and the model's integers are unbounded. `toString` uses exponent notation from 10^21 upward, and `parseInt` rounds beyond 2^53. The round trip `ParseIntOfIntToString` and `LoadIntOfText` therefore holds in JavaScript only for |n| ≤ 2^53. Ratings are clamped to [0, 3000] on update and the streak grows by one a day, so only a hand-edited store reaches such values.
- Strings are sequences of Unicode scalar values. A character outside the Basic Multilingual Plane is one `char` here but two UTF-16 code units in JavaScript, and lone surrogates cannot be represented. Lengths and positions differ from JavaScript only for such text.
- `JsText.Lower`: lower-cases ASCII letters only. `toLowerCase` also maps other scripts, so case-insensitivity is proved for ASCII case only.
- Local time zones are not modelled. The calendar date is the parameter `calendarDay`, and the worked examples use UTC days (`UtcDay`).
- Timestamps of chat messages come from the caller as parameters. No clock is modelled.
- React scheduling, batching and stale closures are not modelled. Every operation is one sequential step on the current state.
  - `incrementStreak` and `markScenarioCompleted` read render-time values, which this model does not distinguish from current state.
  - The level is a derived function (`ProgressProvider.CurrentLevel`). The effect that stores it one render later is not modelled.
- Two `sendMessage` calls in flight at once are not modelled. `SendMessage` runs to completion; `BeginSend`/`FinishSend` only show the pending state between the request and its settlement.
- The default no-op context value, the `isDisabled` prop (which `MessageInput` does not read), rendering, routing and the placeholder text are not modelled.
- Dashboard's `calculateLevelProgress` is not modelled, because it uses floating-point division.
- The chat page's scenario lookup and redirect are not modelled.
- The session-completion flow (skill reward, boss achievement, the random empathy bonus) is not part of these source files. It is not part of this model.
- `console.error` logging of failed requests is not modelled.
