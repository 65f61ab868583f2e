# Errorbook prototype: a verified model of its state logic

Errorbook is a prototype study app. A learner captures maths mistakes,
reviews the cards that are due and plays short practice sessions guided by
a coach character, Eri. Each finished session earns XP, moves a day streak
and counts towards three daily missions. This project models in Dafny the
parts of the app that decide something:

- **The reward engine** (`AppState`): the settings and game-progress records
  kept in the browser's local storage, with defaults filling missing fields.
  It also holds the XP estimate, the streak rule and the at-most-once
  application of a finished session, keyed by the log of applied session ids.
- **The practice session** (`PracticeSession`): three questions answered one
  at a time. An answer is checked after trimming and lower-casing, a score is
  kept, and a three-step hint ladder with a hint-request counter emits the
  session summary after the last question.
- **The results screen** (`SessionResults`): the score, total and perfect flag
  it shows, the per-question rows, and the XP shown before and after the
  session is applied.
- **The router** (`App`): the current screen, a back stack, the active tab and
  the badge modal.
- **The English mission** (`EnglishMission`): write, speak and listening
  phases with turn counters and a guard of twelve UTF-16 code units on the
  write phase.
- **The home screen** (`Home`): the daily mission list, the completed-missions
  count that unlocks the bonus, and the cards due today.
- **The review screen** (`Review`): the topic, error-type and due-only filters
  over the saved mistake cards (`MistakeData`).

Helper modules:

- `Wrappers` holds `Option`.
- `Seqs` holds `Array.prototype.filter` and the order-preservation facts about it.
- `JsText` holds the JavaScript string operations the screens use:
  - `trim`, with the ECMAScript whitespace set;
  - `toLowerCase` and `toUpperCase`;
  - `.length`, counted in UTF-16 code units;
  - number-to-string.

Objects whose fields the source updates are classes, and their handlers are
methods with `modifies` clauses:

- the store, the practice session, the router and the English mission;
- the XP state of the results screen and the mission list of the home screen.

Pure derivations are functions. Each is paired with lemmas about it:

- idempotence and round trips;
- bounds and order preservation;
- both directions of the if-and-only-if rules.

Local storage is a map from keys to strings. `JSON.parse` and
`JSON.stringify` are the functions of a `Codec`. Two things are assumed of
them: stringifying never gives the empty string, and parsing what was
stringified gives back the value it started from.

Two behaviours of the code are worth noting:

- **The English fallback for the total.** The results screen's fallback of 3
  for the total of an English mission can never be used. A summary always
  carries a total, and without a summary the mission is not an English one
  (`SessionResults.EnglishFallbackUnused`).
- **The listening count.** The English mission's summary reads its turn
  counters as they were before the finishing click. So the first finish
  reports no listening turn (`EnglishMission.Mission.HandlePrimaryAction`,
  `EnglishMission.StraightThrough`).

## Model

| member | source | states |
|---|---|---|
| AppState.MergeSettings | src/data/appState.ts:93-96 | each settings field is the patch's value when the patch has one, and the base's otherwise |
| AppState.MergeProgress | src/data/appState.ts:117-120 | each progress field is the patch's value when the patch has one, and the base's otherwise |
| AppState.MergeComplete | src/data/appState.ts:88-121 | spreading a complete record over any base gives that record, for settings and for progress |
| AppState.ParseJSON | src/data/appState.ts:72-82 | null, the empty string and text the parser rejects give the fallback; otherwise the parsed value |
| AppState.ReadSettings | src/data/appState.ts:88-97 | outside a browser, or with nothing stored, the settings are the defaults |
| AppState.ReadProgress | src/data/appState.ts:112-121 | outside a browser, or with nothing stored, the progress is the defaults |
| AppState.ReadAppliedSessions | src/data/appState.ts:131-137 | outside a browser, with nothing stored, with an empty string stored or with text that does not parse, the log is empty; text that parses gives the parsed log |
| AppState.ReadProgressMerges | src/data/appState.ts:112-121 | each of the seven progress fields is the stored value when present and otherwise its default (1230 XP, a streak of 7, 2 badges, 1 mission, a last score of 2 of 3, no timestamp); nothing stored, an empty string or unparseable text gives the defaults, and outside a browser the defaults are returned |
| AppState.ReadSettingsMerges | src/data/appState.ts:88-97 | stored settings override the defaults field by field, showEri defaults to true and reduceMotion to false, and unreadable or absent storage gives the defaults |
| AppState.ReadAfterWrite | src/data/appState.ts:99-148 | a record or log stored under its key is read back unchanged, and writing any one of the three keys leaves what the other two read unchanged (all six pairs) |
| AppState.EstimateSessionXP | src/data/appState.ts:150-155 | the estimate is never below 15 |
| AppState.EstimateSessionXPExamples | src/data/appState.ts:150-155 | (3,3) earns 40, (1,3) earns 20, an empty session earns 25, a score above the total is clamped and a negative score earns 15 |
| AppState.EstimateSessionXPBounds | src/data/appState.ts:150-155 | for a non-negative total the estimate lies in [15, 25 + 5 * total] and reaches the top exactly when the score reaches the total or the total is 0 |
| AppState.EstimateSessionXPMonotone | src/data/appState.ts:150-155 | a higher score never earns less |
| AppState.HighAccuracyExamples | src/data/appState.ts:170-173 | 2 of 3 is below the 0.67 threshold, 67 of 100 is on it, 3 of 3 is above it, and an empty session has accuracy 0 |
| AppState.NextStreak | src/data/appState.ts:170-173 | high accuracy adds one day; otherwise the streak drops by one but never below 1 |
| AppState.StreakChangeOf | src/data/appState.ts:174-175 | 'up', 'down' and 'same' hold exactly when the new streak is greater than, less than or equal to the old one |
| AppState.StreakFloor | src/data/appState.ts:170-175 | at streak 1 a low-accuracy session keeps the streak at 1 and reports 'same' |
| AppState.FreshRewards | src/data/appState.ts:167-175 | a fresh session earns the estimate; the streak goes up exactly when accuracy is high or the streak was not positive, and down exactly when accuracy is low and the streak was at least 2 |
| AppState.FreshProgress | src/data/appState.ts:176-186 | the new record adds the XP, takes the next streak, counts missions up to at most 3, adds a badge exactly when the raw score equals the raw total, stores the raw score and total and the timestamp |
| AppState.Apply | src/data/appState.ts:157-198 | an already-logged session returns the stored progress with 0 XP and 'same'; a fresh one earns at least 15 XP; total XP always grows by exactly the award |
| AppState.LogAfter | src/data/appState.ts:139-148 | after marking, the id is in the log; an id already present leaves the log unchanged, and a new one is appended at the end |
| AppState.LogAfterNoDuplicates | src/data/appState.ts:139-148 | marking a session never introduces a duplicate into the log |
| AppState.ApplyIsIdempotent | src/data/appState.ts:157-168 | applying the same session again, with the log the first application left, returns the same progress, earns nothing and leaves the log unchanged |
| AppState.DefaultsWellFormed | src/data/appState.ts:62-70 | the default progress has non-negative XP and badges, a streak of at least 1 and a mission count in [0, 3] |
| AppState.ApplyPreservesWellFormed | src/data/appState.ts:157-190 | applying any session keeps those bounds, never lowers XP, badges or the mission count |
| AppState.Store.GetAppSettings | src/data/appState.ts:88-97 | returns the settings read from the current storage |
| AppState.Store.GetGameProgress | src/data/appState.ts:112-121 | returns the progress read from the current storage |
| AppState.Store.UpdateAppSettings | src/data/appState.ts:99-110 | the result is the patch over the current settings; in a browser it is written under the settings key and read back, progress and the log are untouched |
| AppState.Store.MarkSessionApplied | src/data/appState.ts:139-148 | in a browser the log key is rewritten only when the id is new and the stored log becomes `LogAfter` of the old one; outside a browser nothing is written |
| AppState.Store.ApplyPracticeSession | src/data/appState.ts:157-198 | the outcome is `Apply` of the stored progress and log; a fresh session in a browser writes exactly the extended log and the new record, and reading them back gives the new values |
| AppState.ApplyTwice | src/data/appState.ts:157-168 | in a browser, the second application of a summary returns the first result's progress with no reward and writes nothing: the storage holds exactly what the first application wrote, the saved progress and a log containing the id |
| JsText.TrimUnpadded | src/screens/PracticeSession.tsx:230 | a string with visible characters at both ends is its own trim |
| JsText.Utf16Length | src/screens/EnglishMission.tsx:44 | the length lies between the number of characters and twice it, and is 0 exactly for the empty string |
| JsText.Utf16LengthOfBmp | src/screens/EnglishMission.tsx:44 | without characters above U+FFFF the length is the number of characters |
| JsText.Utf16LengthOfAstral | src/screens/EnglishMission.tsx:44 | characters above U+FFFF each count as two code units |
| JsText.Trim | src/screens/PracticeSession.tsx:229-230 | the result has no leading or trailing whitespace and is empty exactly when the input is all whitespace |
| JsText.TrimIsInfix | src/screens/PracticeSession.tsx:229-230 | the input is the trimmed text with whitespace before and after it: only the outer whitespace is removed |
| JsText.TrimSurrounded | src/screens/PracticeSession.tsx:229-230 | whitespace around a piece with visible ends is exactly what trimming removes |
| JsText.TrimIdempotent | src/screens/PracticeSession.tsx:229-230 | trimming twice is trimming once |
| JsText.ToLowerIdempotent | src/screens/PracticeSession.tsx:229-230 | lower-casing twice is lower-casing once, and the result has no capital letters |
| JsText.ToLower | src/screens/PracticeSession.tsx:230 | the result has the input's length and lower-cases each character in place |
| JsText.ToUpper | src/screens/SessionResults.tsx:366-369 | the result has the input's length and upper-cases each character in place |
| JsText.NatToString | src/screens/Review.tsx:29 | at least one decimal digit, all digits, and no leading zero |
| JsText.IntToString | src/screens/SessionResults.tsx:350-359 | a minus sign exactly for a negative number, followed by the digits of its magnitude |
| JsText.NatToStringRoundTrip | src/screens/SessionResults.tsx:347-361 | the decimal digits of a count read back as that count |
| Seqs.Filter | src/screens/Review.tsx:17-22 | an element survives exactly when it was in the input and passes the test |
| Seqs.FilterIsSubsequence | src/screens/Review.tsx:17-22 | the filter keeps the survivors in their original order |
| Seqs.FilterKeepsAll | src/screens/Review.tsx:17-22 | a test every element passes returns the whole sequence |
| PracticeSession.AnswerMatches | src/screens/PracticeSession.tsx:229-230 | the answer is accepted exactly when its trimmed, lower-cased text equals the lower-cased correct answer |
| PracticeSession.PaddedAnswerIsCorrect | src/screens/PracticeSession.tsx:229-231 | " 5/6 \t" is accepted for 5/6 |
| PracticeSession.UpperCaseAnswerIsCorrect | src/screens/PracticeSession.tsx:229-231 | "X = 6" is accepted for "x = 6" |
| PracticeSession.PlainAnswerIsCorrect | src/screens/PracticeSession.tsx:229-231 | "30" is accepted for 30 |
| PracticeSession.InnerSpacesMatter | src/screens/PracticeSession.tsx:229-231 | "x=6" is rejected for "x = 6": whitespace inside the answer counts |
| PracticeSession.InsertedSpaceMatters | src/screens/PracticeSession.tsx:229-231 | "3 0" is rejected for 30 |
| PracticeSession.AnswerMatchesIgnoresPadding | src/screens/PracticeSession.tsx:229-231 | whitespace around an answer never changes the verdict |
| PracticeSession.FinishedSummary | src/screens/PracticeSession.tsx:219-226 | the emitted summary carries the session id, score and hint count, a total of the number of questions (3), and no per-question results |
| PracticeSession.Session.constructor | src/screens/PracticeSession.tsx:194-204 | the session starts on the first question with an empty answer, no feedback, zero score and hints, and the first hint unlocked |
| PracticeSession.Session.InputEnabled | src/screens/PracticeSession.tsx:331 | the input is enabled exactly while no feedback is set |
| PracticeSession.Session.CanSubmit | src/screens/PracticeSession.tsx:339-346 | Submit is offered and enabled exactly while no feedback is set and the answer is not all whitespace; it implies the input is enabled |
| PracticeSession.Session.UpdateAnswer | src/screens/PracticeSession.tsx:321-331 | typing, allowed only while no feedback is set, changes the answer and nothing else: feedback, score, hints, toast and hint sheet are kept |
| PracticeSession.Session.Submit | src/screens/PracticeSession.tsx:229-237 | offered only with no feedback and a non-blank answer; sets feedback to correct exactly when the trimmed lower-cased answer matches, adds exactly 1 to the score on a correct answer, and freezes the input so the question cannot be scored again |
| PracticeSession.Session.DismissToast | src/screens/PracticeSession.tsx:239-241 | closes the toast and changes nothing else |
| PracticeSession.Session.ShowHint | src/screens/PracticeSession.tsx:250-254 | offered before feedback, or after incorrect feedback with the toast closed; adds exactly 1 to the hint count and opens the hint sheet, leaving the ladder and the score alone |
| PracticeSession.Session.ToastShowHint | src/screens/PracticeSession.tsx:243-248 | the same request from the open toast after incorrect feedback: one more hint and the toast closed |
| PracticeSession.Session.CloseVisualCoach | src/screens/PracticeSession.tsx:447-450 | closes the hint sheet |
| PracticeSession.Session.NextHint | src/screens/PracticeSession.tsx:256-262 | offered only while the hint sheet is open; on the last hint nothing changes; otherwise the next hint is shown and unlocked with `max(unlocked, current + 2)`; the unlocked count never falls and the hint count is untouched |
| PracticeSession.Session.SelectHint | src/screens/PracticeSession.tsx:264-268 | offered only while the hint sheet is open; shows an unlocked hint, ignores a locked one, never changes the unlocked count or the hint count |
| PracticeSession.Session.AdvanceToNext | src/screens/PracticeSession.tsx:210-227 | before the last question, moves on and resets the answer, feedback and hint ladder while carrying the score and hint count; on the last, emits the summary with a score within [0, 3] and changes no field, the hint sheet included |
| PracticeSession.Session.CanPressNext | src/screens/PracticeSession.tsx:373-399 | "Next Question" is shown exactly after incorrect feedback with the toast closed, and never while the input or Submit is available |
| PracticeSession.Session.ToastDismissed | src/components/EriFeedbackToast.tsx:157-161 | closes the toast and never touches the hint sheet; after incorrect feedback nothing else changes; after correct feedback before the last question it moves on with the answer, feedback and hint ladder reset and score and hints carried; on the last question it emits the summary and keeps every other field |
| PracticeSession.AnswerRight | src/screens/PracticeSession.tsx:229-237 | typing a right answer, submitting and letting the toast go adds one to the score and moves on, or emits the summary after the last question |
| PracticeSession.TypeRight | src/screens/PracticeSession.tsx:229-237 | typing a right answer and submitting it sets correct feedback and adds exactly one to the score, on the same question and with the same hint count |
| PracticeSession.FirstRight | src/screens/PracticeSession.tsx:229-237 | a padded right answer to the first question scores one and moves to the second |
| PracticeSession.SecondRight | src/screens/PracticeSession.tsx:229-237 | an upper-case right answer to the second question scores one and moves to the third |
| PracticeSession.LastRight | src/screens/PracticeSession.tsx:210-237 | a right answer to the last question emits the summary with one more point |
| PracticeSession.PerfectRun | src/screens/PracticeSession.tsx:194-268 | three right answers with one hint request emit a summary of 3 of 3 with one hint |
| SessionResults.ResolvedScore | src/screens/SessionResults.tsx:324-326 | the summary's score, else the score prop, else 2 |
| SessionResults.ResolvedTotal | src/screens/SessionResults.tsx:324-327 | the summary's total, else the total prop, else 3 |
| SessionResults.EnglishFallbackUnused | src/screens/SessionResults.tsx:325-327 | without a summary the mission is not an English one, so the English fallback of 3 is never taken |
| SessionResults.IsPerfect | src/screens/SessionResults.tsx:328 | with a summary, perfect exactly when its score equals its total; without one, when the score and total props (defaults 2 and 3) are equal |
| SessionResults.TurnsLabel | src/screens/SessionResults.tsx:353-359 | the label is the task, " task (", the count's decimal text (which reads back as the count when it is not negative), then " turn)" for a count of 1 and " turns)" otherwise |
| SessionResults.WriteLabel | src/screens/SessionResults.tsx:350 | the write row's text is "Write task (", the character count's decimal text (which reads back as the count when it is not negative) and " chars)" |
| SessionResults.EnglishRows | src/screens/SessionResults.tsx:347-361 | three rows labelled by the write and turn labels of their counts: writing is correct exactly at 12 or more characters, speaking and listening exactly at a positive turn count, with missing statistics read as 0 |
| SessionResults.PartDetail | src/screens/SessionResults.tsx:366-369 | a part chip is the upper-cased part id, ": " and a tick or a cross, and is correct exactly when the part is |
| SessionResults.QuestionRow | src/screens/SessionResults.tsx:362-370 | a row copies the question text and correctness, and has part chips exactly when the question has parts |
| SessionResults.MathRows | src/screens/SessionResults.tsx:362-371 | one row per recorded question, in order; missing results give no rows |
| SessionResults.Questions | src/screens/SessionResults.tsx:347-371 | an English mission shows its three task rows, a practice session its question rows, and no summary shows none |
| SessionResults.DisplayQuestions | src/screens/SessionResults.tsx:373-376 | a perfect session shows every row as correct; otherwise the rows are shown as they are; texts and chips are never changed |
| SessionResults.ImperfectEnglishRows | src/screens/SessionResults.tsx:347-376 | an imperfect English mission shows each task row by its own threshold |
| SessionResults.ShownXP | src/screens/SessionResults.tsx:343 | a non-zero award is shown as it is; a zero award shows the estimate |
| SessionResults.ShownXPIgnoresDuplicates | src/screens/SessionResults.tsx:337-344 | whether the session is fresh or already applied, the XP shown afterwards is the estimate for its score and total |
| SessionResults.Screen.constructor | src/screens/SessionResults.tsx:330-331 | the XP shown starts as the estimate for the resolved score and total, and the total XP is read from storage |
| SessionResults.Screen.ApplyEffect | src/screens/SessionResults.tsx:337-344 | without a summary nothing is applied or changed; with one the session is applied: the shown XP is the estimate and the total is the applied progress's, a fresh session in a browser writes exactly the extended log and the new record and reads them back, a duplicate writes nothing, and the shown XP stays at least 15 |
| App.ShowBottomNav | src/App.tsx:47-48 | the bottom navigation is never shown on the splash or onboarding screen |
| App.TabScreen | src/App.tsx:82-95 | every tab opens a screen other than splash and onboarding, and only the capture tab's screen hides the bottom navigation |
| App.TabScreenInjective | src/App.tsx:88-93 | different tabs open different screens |
| App.Router.constructor | src/App.tsx:40-45 | the app starts on splash, on the home tab, with an empty stack, no data and the modal closed |
| App.Router.Navigate | src/App.tsx:50-68 | 'badge-unlocked' only opens the modal; any other target becomes the screen, with the old screen pushed unless it was splash or onboarding; data goes to the session summary for the results screen, to the selected mistake otherwise, and nothing changes without data |
| App.Router.Back | src/App.tsx:70-80 | with a non-empty stack the last entry is popped and shown; with an empty stack the home screen and tab are shown; the screen shown is never splash or onboarding |
| App.Router.TabChange | src/App.tsx:82-95 | the tab is set, the stack emptied and the tab's screen shown |
| App.Router.SplashComplete | src/App.tsx:105 | splash completes to onboarding |
| App.Router.OnboardingComplete | src/App.tsx:110-113 | onboarding completes to home on the home tab |
| App.Router.CloseBadgeModal | src/App.tsx:194-197 | closing the badge modal hides it |
| App.NavigateAndBack | src/App.tsx:50-80 | going to a screen and back returns to the same screen, stack and tab |
| App.Launch | src/App.tsx:40-48 | splash and onboarding lead to home, where the bottom navigation is shown |
| EnglishMission.CompletedPhases | src/screens/EnglishMission.tsx:38-41 | the completed phases are the first `phaseIndex + 1` phases, in order |
| EnglishMission.CanContinue | src/screens/EnglishMission.tsx:43-44 | the button is disabled exactly in the write phase while the trimmed text is shorter than 12 UTF-16 code units |
| EnglishMission.CanContinueIgnoresPadding | src/screens/EnglishMission.tsx:43-44 | whitespace around the text does not count towards the 12 code units |
| EnglishMission.SixEmojiCanContinue | src/screens/EnglishMission.tsx:43-44 | six emoji above U+FFFF measure 12 code units and enable the button |
| EnglishMission.SixLettersCannotContinue | src/screens/EnglishMission.tsx:43-44 | six ASCII letters keep the button disabled |
| EnglishMission.MissionSummary | src/screens/EnglishMission.tsx:46-59 | the summary has score 3, total 3, no hints, English mode, the trimmed text's length in UTF-16 code units and the given counters |
| EnglishMission.Mission.constructor | src/screens/EnglishMission.tsx:29-33 | the mission starts in the write phase with no text and zero counters |
| EnglishMission.Mission.SetWritingText | src/screens/EnglishMission.tsx:118-123 | the text box, shown in the write phase only, sets the text |
| EnglishMission.Mission.HandlePrimaryAction | src/screens/EnglishMission.tsx:62-77 | adds a speak turn only in the speak phase and a listening turn only in the listening phase, advances on a non-last phase and finishes on the last with the counters as they were before the click; the phase stays in [0, 2] |
| EnglishMission.Mission.Finish | src/screens/EnglishMission.tsx:46-77 | any finish reports all three phases, a written length of at least 12 code units and exactly one speak turn |
| EnglishMission.FinishedMissionResults | src/screens/SessionResults.tsx:347-376 | a finished mission is shown as perfect with every row correct, although its listening row on its own is correct only if listening was clicked before the finishing click |
| EnglishMission.StraightThrough | src/screens/EnglishMission.tsx:57-73 | one click per phase reports one speak turn and no listening turn |
| Home.Toggled | src/screens/Home.tsx:52-58 | toggling flips `done` exactly on the missions with that id, keeping length, order and every other field |
| Home.ToggleTwice | src/screens/Home.tsx:52-58 | toggling the same id twice restores the list |
| Home.ToggleAbsent | src/screens/Home.tsx:52-58 | an id no mission has leaves the list unchanged |
| Home.ToggleMovesCountByOne | src/screens/Home.tsx:47-58 | with distinct ids, toggling a mission moves the done count by exactly one, down if it was done and up otherwise |
| Home.DoneCount | src/screens/Home.tsx:48 | the done count is at most the number of missions |
| Home.CompletedMissions | src/screens/Home.tsx:47-50 | the count is the larger of the done count and the stored missions-completed count |
| Home.ShowsBonus | src/screens/Home.tsx:95-102 | the bonus shows exactly from two completed missions |
| Home.StoredCountKeepsBonus | src/screens/Home.tsx:95-102 | a stored count of 2 shows the bonus whatever is ticked |
| Home.FirstTickShowsBonus | src/screens/Home.tsx:24-50 | with the default progress the starting list shows no bonus, and ticking the capture mission shows it |
| Home.DueItems | src/screens/Home.tsx:46 | a card is listed exactly when it is saved and due today |
| Home.DueItemsInOrder | src/screens/Home.tsx:46 | the due list keeps the cards' order |
| Home.DueItemsOfDemoCards | src/screens/Home.tsx:46 | of the demo cards only the first is due today |
| Home.Screen.ToggleMission | src/screens/Home.tsx:52-58 | the mission list is replaced by the toggled list |
| Home.Screen.Completed | src/screens/Home.tsx:47-50 | the screen's completed count is at least its done count and at least the stored count |
| Home.TickAndUntick | src/screens/Home.tsx:47-58 | ticking and unticking a mission leaves the list and the completed count as they were |
| Review.FilteredMistakes | src/screens/Review.tsx:17-22 | the result is drawn from the cards; every result has the selected topic, the selected error type and is due today when those filters are on |
| Review.FilteredInOrder | src/screens/Review.tsx:17-22 | the result keeps the cards' order |
| Review.ExcludedFailsAFilter | src/screens/Review.tsx:17-22 | a card left out fails at least one active filter |
| Review.ClearedShowsAll | src/screens/Review.tsx:13-22 | with every filter cleared the whole list is shown |
| Review.EmptySelectionIsCleared | src/screens/Review.tsx:18 | an empty topic string filters like no topic, as JavaScript truthiness decides |
| Review.DueOnlyIsHomeDueList | src/screens/Review.tsx:20 | the due-only switch alone gives the home screen's due list |
| Review.Header | src/screens/Review.tsx:29 | the header's number reads back as the length of the filtered list |

## Left out

- Rendering, styling and animation are not modelled: every JSX element, motion effect and icon, and the randomly placed confetti. So are the character states and the strategy sheet of the practice screen (`characterState`, `showMetaCoach`).
- AppState.ReadAppliedSessions: the parse of the applied-session log gives a list of strings or nothing, so the source's unchecked `as string[]` cast is not modelled. A stored `null` or number, on which `.includes` throws in `markSessionApplied` and `applyPracticeSession`, and a stored JSON string, on which `.includes` is a substring test, cannot be represented.
- Timers are not modelled. The feedback toast's 2400 ms auto-dismiss and its 350 ms delay before advancing are collapsed into one `ToastDismissed` event; the splash timer is the `SplashComplete` event.
- `window.localStorage` is a map of strings, and `typeof window` is the store's `inBrowser` flag. `JSON.parse`/`JSON.stringify` are an abstract `Codec`, of which two things are assumed: stringifying never gives the empty string, and parsing it back gives the value. A stored JSON field of the wrong type is treated as absent, whereas the source casts it through unchecked.
- `Date.now()` session ids and `new Date().toISOString()` are parameters: the session id is fixed at construction, and `now` is passed to each application.
- Numbers are unbounded integers. Fractional scores, `NaN` and floating-point rounding are not modelled. The 0.67 accuracy threshold is stated as `100 * score >= 67 * total`.
- The level and percentage displays computed with `Math.round` on the results and progress screens are not part of this model.
- Screen names are a datatype, so the router's default branch for an unknown screen name is not modelled. Navigation data is the type parameter of the router, with a missing or falsy value taken as `None`.
- `handleNavigate` from the splash or onboarding screen is modelled, although neither screen calls it.
- After the English mission's last click, the model keeps its state on the last phase. In the source the screen is left for the results screen.
- The review screen's chip and switch handlers only set the filters; the model takes the filters as a value instead.
- The settings screen only passes toggles to `updateAppSettings`; it is not modelled separately.
- Static content is dropped: the worked explanations of the demo mistake cards, the hint visuals, the English step texts and the coach lines.
- Multi-part practice questions are only types in the source (no shown screen produces them), so partial credit is not modelled. Their rows on the results screen are modelled.
- JsText.ToLower: maps only the ASCII letters A-Z; JavaScript's full Unicode case mapping of other letters is not modelled.
- JsText.ToUpper: maps only the ASCII letters a-z, for the same reason.
