# Sanavicare dashboard: state logic in Dafny

Sanavicare is a personal-health dashboard written in React. Nearly all of it is
presentation. This project models the small pieces of state logic under six of
its screens, and proves what they do:

- **Health-report workflow** (`disease_prediction.dfy`, module `DiseasePrediction`).
  - A four-step machine: upload, extract, edit (review), result.
  - The class `Workflow` holds the screen's state fields.
  - Its two interval callbacks are tick methods that the caller invokes.
  - Pure functions give the progress sequences, the field edits, the step indicator and the result panel.
- **Chat responder** (`health_chatbot.dfy`, module `HealthChatbot`).
  - `Classify`/`GenerateResponse`: the keyword classifier behind `generateResponse`, proved equal to a first-match search in priority order.
  - The class `Chat`: the message log, the input, the detailed flag, loading, and the replies still scheduled.
- **Mood quiz** (`mental_health.dfy`, module `MentalHealth`).
  - The class `MoodQuiz`: the five-question round, which stores the mean of the answers.
  - The threshold classifiers behind the emoji and the label, and a band function they both follow.
- **Quest checklist** (`nutrition_guidance.dfy`, module `NutritionGuidance`).
  - The list of completed quest ids, kept in the class `QuestBoard`.
  - The point sums over the quest table.
- **Export selection** (`history_exports.dfy`, module `HistoryExports`).
  - The selected range and data-type ids, kept in the class `ExportSelection`.
  - The catalogue filter and range lookup of `handleExport`, and the rule that enables the export buttons.
- **Settings toggles** (`profile_page.dfy`, module `ProfilePage`).
  - The class `ProfileSettings`: the edit flag, the profile record, the notification switches and the privacy switches.
  - The privacy switches apply JavaScript's `!` to whatever value a key holds.

Helper modules model the JavaScript built-ins the screens call. `JsString` covers
`trim`, ASCII `toLowerCase` and `includes`. `JsNumber` covers decimal `parseInt`
and `parseFloat` and the `|| 0` fallback. `Lists` covers `filter(x => x !== id)`.
`Wrappers` holds `Option`.

Each handler of a screen is a method on its class. The method's `ensures` gives
the whole new state in terms of the old one, and keeps the class's `Valid()`
invariant. The screen's quirks are kept as the code has them:

- analysis progress passes through 108;
- typed numbers are not clamped;
- reset leaves the intervals running;
- the Enter key skips the loading check;
- the string-valued profile visibility becomes `false` when its switch is used.

Where a careful workflow would validate, clamp or cancel, the code does not,
and the model follows the code:

- There is no file-type allow-list. Only the browser's `accept` attribute filters files (`DiseasePrediction.tsx:203`), so `HandleFileUpload` takes any file.
- Typed metric values are not clamped or rejected. `parseInt(text) || 0` is stored as is, so 150 typed into the age field is stored as 150 (`TypedNumeralStored`).
- Analysis progress is not clamped before it is shown. It reads 108 for one tick, then 100 (`AnalysisOvershootsOnce`).
- Reset does not stop the intervals, and a late extraction tick can move a freshly reset screen to the review step (`StaleExtractionAfterReset`). The screen offers reset only beside a finished result, when no interval is live (`ResetOnlyWhenIdle`).
- Extraction does not write a default snapshot. The snapshot holds its initial values from the start, and only the edits change it.
- Snapshot validity is not checked before analysis runs.
- The result is the fixed stub whatever the snapshot holds. There is no extraction-failure path.
- Each interval is a count of live timers, not a flag, because each handler call starts a new interval.

## Model

| member | source | states |
|---|---|---|
| DiseasePrediction.NextExtractionProgress | src/components/dashboard/DiseasePrediction.tsx:83-92 | one extraction callback: below 100 progress grows by exactly 10; at or above 100 it is pinned to 100 |
| DiseasePrediction.NextAnalysisProgress | src/components/dashboard/DiseasePrediction.tsx:102-118 | one analysis callback: below 100 progress grows by exactly 12, with no clamp; at or above 100 it is pinned to 100 |
| DiseasePrediction.ExtractionAfterValue | src/components/dashboard/DiseasePrediction.tsx:82-92 | from 0, the value after n ticks is 10·n up to the tenth tick and 100 afterwards, so every value lies in {0, 10, …, 100} |
| DiseasePrediction.ExtractionMonotone | src/components/dashboard/DiseasePrediction.tsx:83-92 | extraction values strictly increase until 100 and never exceed it; a value of 100 or more is reached exactly from the tenth tick on |
| DiseasePrediction.AnalysisAfterValue | src/components/dashboard/DiseasePrediction.tsx:101-118 | from 0, the value after n ticks is 12·n up to the ninth tick (0, 12, …, 96, 108) and 100 afterwards |
| DiseasePrediction.AnalysisOvershootsOnce | src/components/dashboard/DiseasePrediction.tsx:101-118 | exactly one observed analysis value exceeds 100, the 108 after tick nine; all values lie in 0..108; 100 or more is reached exactly from tick nine on |
| DiseasePrediction.WithField | src/components/dashboard/DiseasePrediction.tsx:291-382 | an integer-metric edit sets exactly its own field; the other four integer fields, BMI, smoking and exercise are unchanged |
| DiseasePrediction.SliderEditKeepsRanges | src/components/dashboard/DiseasePrediction.tsx:291-375 | a slider edit within the slider's [min, max] keeps a snapshot inside all slider ranges |
| DiseasePrediction.TypedNumeralStored | src/components/dashboard/DiseasePrediction.tsx:300 | typing the numeral of any integer v stores exactly v, with no clamp, so a v outside the slider's bounds takes the snapshot outside the slider ranges |
| DiseasePrediction.TypedDecimalTruncates | src/components/dashboard/DiseasePrediction.tsx:300 | typing `w.frac` into an integer field stores w, because `parseInt` stops at the dot |
| DiseasePrediction.TypedGarbageIsZero | src/components/dashboard/DiseasePrediction.tsx:300 | text that `parseInt` rejects stores 0, which is outside every slider range |
| DiseasePrediction.TypedBmiKeepsFraction | src/components/dashboard/DiseasePrediction.tsx:402 | typing `w.frac` into the BMI field stores w plus the value of the fraction digits, unclamped |
| DiseasePrediction.IsActive | src/components/dashboard/DiseasePrediction.tsx:154 | an indicator item is active iff it sits at the current step's position |
| DiseasePrediction.IsCompleted | src/components/dashboard/DiseasePrediction.tsx:155-156 | an indicator item is ticked iff it is one of the first three steps and the current step is review or result; a ticked item never comes after the current step |
| DiseasePrediction.ReviewItemActiveAndCompleted | src/components/dashboard/DiseasePrediction.tsx:154-156 | an item is both active and ticked exactly when it is the review item during the review step |
| DiseasePrediction.ResultPanelOf | src/components/dashboard/DiseasePrediction.tsx:480-503 | the result step shows progress iff progress < 100, and shows the outcome iff progress ≥ 100 and a result exists, that outcome being the stored result |
| DiseasePrediction.OvershootShowsBlank | src/components/dashboard/DiseasePrediction.tsx:480-503 | at the overshoot value 108, with no result stored yet, the result step shows nothing |
| DiseasePrediction.Workflow.constructor | src/components/dashboard/DiseasePrediction.tsx:45-64 | the screen opens in the upload step with the default snapshot, no file, no result, both progress values 0 and no interval |
| DiseasePrediction.Workflow.HandleFileUpload | src/components/dashboard/DiseasePrediction.tsx:68-74 | no file changes nothing; a file is recorded, the step becomes extract and one more extraction interval is live; progress, result and snapshot are kept |
| DiseasePrediction.Workflow.ExtractionTick | src/components/dashboard/DiseasePrediction.tsx:82-92 | progress follows `NextExtractionProgress`; the terminal tick moves to review, from whatever step, and ends its own interval; nothing else changes |
| DiseasePrediction.Workflow.HandleRunAnalysis | src/components/dashboard/DiseasePrediction.tsx:96-99 | the step becomes result, analysis progress 0, and one more analysis interval is live; an earlier result is not cleared |
| DiseasePrediction.Workflow.AnalysisTick | src/components/dashboard/DiseasePrediction.tsx:101-118 | progress follows `NextAnalysisProgress`; the terminal tick stores prediction 0, "No Disease Detected", confidence 94, whatever the snapshot, and ends its interval |
| DiseasePrediction.Workflow.ResetPrediction | src/components/dashboard/DiseasePrediction.tsx:122-130 | upload step, no file, both progress values 0 and no result; the snapshot and the live intervals are kept |
| DiseasePrediction.Workflow.SlideNumeric | src/components/dashboard/DiseasePrediction.tsx:291-375 | the snapshot becomes `WithField` of the slider value; the machine state is unchanged |
| DiseasePrediction.Workflow.TypeNumeric | src/components/dashboard/DiseasePrediction.tsx:300-382 | the snapshot becomes `WithField` of `parseInt(text) \|\| 0`; the machine state is unchanged |
| DiseasePrediction.Workflow.SlideBmi | src/components/dashboard/DiseasePrediction.tsx:393-395 | only the BMI changes, to the slider value |
| DiseasePrediction.Workflow.TypeBmi | src/components/dashboard/DiseasePrediction.tsx:402 | only the BMI changes, to `parseFloat(text) \|\| 0` |
| DiseasePrediction.Workflow.ChooseSmoking | src/components/dashboard/DiseasePrediction.tsx:416 | only the smoking answer changes |
| DiseasePrediction.Workflow.ChooseExercise | src/components/dashboard/DiseasePrediction.tsx:434-436 | only the exercise answer changes |
| DiseasePrediction.ResetOnlyWhenIdle | src/components/dashboard/DiseasePrediction.tsx:503-543 | in the states the screen's controls reach, New Analysis is shown only when no interval is live |
| DiseasePrediction.ExampleRun | src/components/dashboard/DiseasePrediction.tsx:68-120 | upload, let extraction finish, run the analysis on the untouched defaults: 11 extraction ticks, 10 analysis ticks, the stub result, and the default snapshot |
| DiseasePrediction.StaleExtractionAfterReset | src/components/dashboard/DiseasePrediction.tsx:122-130 | a reset during extraction leaves its interval live, and that interval later moves the reset screen to review with no file |
| HealthChatbot.Classify | src/components/dashboard/HealthChatbot.tsx:92-110 | the if-chain of `generateResponse` over the lowercased message; any category other than the default is one whose keyword the lowercased message contains |
| HealthChatbot.GenerateResponse | src/components/dashboard/HealthChatbot.tsx:92-110 | `generateResponse`: the table entry of the category, from the table the flag picks; a message and its lowercased form get the same response |
| HealthChatbot.AnyOccurs | src/components/dashboard/HealthChatbot.tsx:96-107 | a chain of `includes` tests holds iff some keyword of the list occurs in the message |
| HealthChatbot.FirstHitDefault | src/components/dashboard/HealthChatbot.tsx:96-110 | the first-match reference gives the default iff no listed category matches |
| HealthChatbot.FirstHitAt | src/components/dashboard/HealthChatbot.tsx:96-110 | the first-match reference gives entry k iff entry k matches and no earlier entry does |
| HealthChatbot.ClassifyIsFirstMentioned | src/components/dashboard/HealthChatbot.tsx:92-110 | the if-chain of `generateResponse` equals the first-match search over medication, exercise, nutrition, sleep, mental, labs on the lowercased message |
| HealthChatbot.FirstMentionedAt | src/components/dashboard/HealthChatbot.tsx:96-110 | over the priority list, category k is picked iff the message mentions it and none of the earlier ones |
| HealthChatbot.FirstMentionedDefault | src/components/dashboard/HealthChatbot.tsx:96-110 | over the priority list, the default is picked iff the message mentions no category |
| HealthChatbot.ClassifyPicks | src/components/dashboard/HealthChatbot.tsx:92-110 | `generateResponse` answers from category k iff the lowercased message mentions one of k's keywords and none of an earlier category's |
| HealthChatbot.ClassifyDefault | src/components/dashboard/HealthChatbot.tsx:92-110 | the default answer is given iff the lowercased message contains no keyword at all |
| HealthChatbot.ClassifyIgnoresCase | src/components/dashboard/HealthChatbot.tsx:93 | lowercasing the message first never changes the category |
| HealthChatbot.CategoryIgnoresFlag | src/components/dashboard/HealthChatbot.tsx:94-97 | the detailed flag never changes the category a reply comes from; it only picks the table, and the reply records the flag |
| HealthChatbot.Chat.constructor | src/components/dashboard/HealthChatbot.tsx:40-50 | the log holds only the greeting, the input is empty, short mode, not loading |
| HealthChatbot.Chat.SendEnabled | src/components/dashboard/HealthChatbot.tsx:323 | the send button is enabled exactly when the input is not all whitespace and no reply is pending |
| HealthChatbot.Chat.HandleSendMessage | src/components/dashboard/HealthChatbot.tsx:113-126 | blank input changes nothing; otherwise exactly one user message with the raw input is appended, the input cleared, loading set, and one reply scheduled with the input and flag of that moment |
| HealthChatbot.Chat.CompleteReply | src/components/dashboard/HealthChatbot.tsx:131-145 | the oldest scheduled reply appends exactly one bot message answered from its captured input and flag; earlier messages are kept in order; loading is cleared |
| HealthChatbot.Chat.HandleQuickAction | src/components/dashboard/HealthChatbot.tsx:148-150 | only the input text changes; no message is appended |
| HealthChatbot.Chat.SetInput | src/components/dashboard/HealthChatbot.tsx:315 | only the input text changes |
| HealthChatbot.Chat.ToggleDetailed | src/components/dashboard/HealthChatbot.tsx:198 | only the detailed flag flips |
| HealthChatbot.Chat.HandleKeyPress | src/components/dashboard/HealthChatbot.tsx:152-157 | Enter without Shift sends exactly as the send handler does, with no loading check; any other key changes nothing |
| HealthChatbot.LoadingClearedEarly | src/components/dashboard/HealthChatbot.tsx:152-157 | two Enter sends in a row schedule two replies, and the first reply clears loading while the second is still pending |
| JsString.TrimEmptyIffBlank | src/components/dashboard/HealthChatbot.tsx:114 | `trim()` gives the empty string iff every character is whitespace |
| JsString.Contains | src/components/dashboard/HealthChatbot.tsx:96 | `includes` holds iff the keyword occurs at some position of the message |
| MentalHealth.OptionValuesOnScale | src/components/dashboard/MentalHealth.tsx:29-90 | there are five questions, and every option value lies in 1..5 |
| MentalHealth.SumBounds | src/components/dashboard/MentalHealth.tsx:130 | the sum of n answers on the scale lies between n and 5·n |
| MentalHealth.MeanOnScale | src/components/dashboard/MentalHealth.tsx:130 | the mean of answers on the scale lies in [1, 5] |
| MentalHealth.Mean | src/components/dashboard/MentalHealth.tsx:130 | the average of the answers: times their number, it gives back their sum |
| MentalHealth.MoodBand | src/components/dashboard/MentalHealth.tsx:145-159 | reference band: how many of the thresholds 1.5, 2.5, 3.5, 4.5 the score reaches, one of five bands |
| MentalHealth.MoodEmoji | src/components/dashboard/MentalHealth.tsx:145-151 | `getMoodEmoji`, first match over thresholds 4.5, 3.5, 2.5, 1.5, picks the emoji of the score's band |
| MentalHealth.MoodLabel | src/components/dashboard/MentalHealth.tsx:153-159 | `getMoodLabel`, first match over the same thresholds, picks the label of the score's band |
| MentalHealth.EmojiAndLabelAgree | src/components/dashboard/MentalHealth.tsx:145-159 | two scores share an emoji iff they share a label iff they share a band |
| MentalHealth.BandMonotone | src/components/dashboard/MentalHealth.tsx:145-159 | a higher score never lands in a lower band |
| MentalHealth.MoodQuiz.constructor | src/components/dashboard/MentalHealth.tsx:106-110 | inactive, question 0, no answers, not completed, no score |
| MentalHealth.MoodQuiz.StartQuiz | src/components/dashboard/MentalHealth.tsx:113-117 | active, question 0, no answers, not completed; today's score is kept |
| MentalHealth.MoodQuiz.HandleAnswer | src/components/dashboard/MentalHealth.tsx:122-133 | exactly one value is appended; before the last question the index grows by one and the round stays active; at the last the mean of all answers becomes today's score, and the round ends completed; the index never passes 4 |
| MentalHealth.CompleteRound | src/components/dashboard/MentalHealth.tsx:122-133 | a fresh round answered five times records the chosen values and ends with their mean, which lies in [1, 5] |
| NutritionGuidance.QuestTable | src/components/dashboard/NutritionGuidance.tsx:90-142 | the quest ids are distinct, and `maxPoints` is 95 |
| NutritionGuidance.TotalPoints | src/components/dashboard/NutritionGuidance.tsx:141 | `totalPoints`, the points of the quests whose id is completed, summed in table order; never more than `maxPoints` |
| NutritionGuidance.MaxPoints | src/components/dashboard/NutritionGuidance.tsx:142 | `maxPoints`, the points of all quests; no single quest is worth more |
| NutritionGuidance.TotalFollowsMembership | src/components/dashboard/NutritionGuidance.tsx:141 | `totalPoints` depends only on which ids are completed, not on their order or repeats |
| NutritionGuidance.TotalWithId | src/components/dashboard/NutritionGuidance.tsx:141 | adding a new id adds the points of the quests carrying it |
| NutritionGuidance.PointsOfKey | src/components/dashboard/NutritionGuidance.tsx:90-139 | in a table keyed by id, the points carried by a quest's id are that quest's points |
| NutritionGuidance.QuestToggled | src/components/dashboard/NutritionGuidance.tsx:145-157 | checking a new id appends it once; re-checking or unchecking an absent id changes nothing; unchecking removes it; after the toggle the id is listed iff checked, other ids keep their membership, and a list without repeats stays so |
| NutritionGuidance.CheckThenUncheck | src/components/dashboard/NutritionGuidance.tsx:145-157 | checking an unchecked quest and then unchecking it restores the exact list |
| NutritionGuidance.TogglePoints | src/components/dashboard/NutritionGuidance.tsx:141-157 | toggling quest k moves `totalPoints` by exactly its points, and only when its completion changes |
| NutritionGuidance.QuestBoard.constructor | src/components/dashboard/NutritionGuidance.tsx:48 | the list starts as hydration and breakfast, with no repeats |
| NutritionGuidance.QuestBoard.HandleQuestToggle | src/components/dashboard/NutritionGuidance.tsx:145-157 | the list becomes `QuestToggled` of the old list, stays free of repeats, and the earned points stay within 0..95 |
| NutritionGuidance.InitialPoints | src/components/dashboard/NutritionGuidance.tsx:48 | the opening list earns 25 points |
| HistoryExports.DataTypeToggled | src/components/dashboard/HistoryExports.tsx:102-108 | a selected id loses every copy; an unselected one is appended at the end; its own membership flips and every other id's is kept |
| HistoryExports.ToggleAbsentTwice | src/components/dashboard/HistoryExports.tsx:102-108 | toggling an unselected id twice restores the exact list |
| HistoryExports.TogglePresentTwice | src/components/dashboard/HistoryExports.tsx:102-108 | toggling a selected id twice restores membership, with the id moved to the end once |
| HistoryExports.SelectedTypes | src/components/dashboard/HistoryExports.tsx:111 | exactly the catalogue entries whose id is selected; no more entries than the catalogue; none for an empty selection |
| HistoryExports.SelectedTypesAppend | src/components/dashboard/HistoryExports.tsx:111 | the filter splits over any concatenation of the catalogue, so the result keeps the catalogue's order |
| HistoryExports.SelectedTypesSingleton | src/components/dashboard/HistoryExports.tsx:111 | one entry is kept, once, exactly when its id is selected; with the split lemma this fixes the result as the in-order subsequence of selected entries |
| HistoryExports.SelectedCount | src/components/dashboard/HistoryExports.tsx:111 | in a catalogue keyed by id, the number of exported entries is the number of distinct selected catalogue ids |
| HistoryExports.ExportedCount | src/components/dashboard/HistoryExports.tsx:61-111 | the catalogue is keyed by id, so `selectedTypes.length` is the number of distinct selected catalogue ids |
| HistoryExports.SelectionOrderIrrelevant | src/components/dashboard/HistoryExports.tsx:111 | selections with the same members export the same types |
| HistoryExports.SelectingAllGivesCatalogue | src/components/dashboard/HistoryExports.tsx:111 | selecting every catalogue id exports the whole catalogue, in its order |
| HistoryExports.CatalogueOrderNotSelectionOrder | src/components/dashboard/HistoryExports.tsx:111 | mood selected before fitness still exports fitness first: the order is the catalogue's |
| HistoryExports.AtMostFourTypes | src/components/dashboard/HistoryExports.tsx:61-94 | an export holds at most the four catalogue types |
| HistoryExports.FindRange | src/components/dashboard/HistoryExports.tsx:112 | like `find`: a range is found iff some range has the value, and the one found is the first range with that value |
| HistoryExports.ExportEnabled | src/components/dashboard/HistoryExports.tsx:364 | the buttons' guard: enabled iff the selection is non-empty; when disabled no type would be exported |
| HistoryExports.EnabledIffSomeTypeExported | src/components/dashboard/HistoryExports.tsx:364 | with catalogue ids selected, the buttons are enabled iff the export names at least one type |
| HistoryExports.RangeValues | src/components/dashboard/HistoryExports.tsx:53-59 | the values the range buttons offer are exactly the values of the range table |
| HistoryExports.ExportRequestOf | src/components/dashboard/HistoryExports.tsx:110-112 | what `handleExport` reports: an offered range value always finds its range, a found range is from the table, and at most the catalogue's entries are named |
| HistoryExports.ExportSelection.constructor | src/components/dashboard/HistoryExports.tsx:49-50 | the last 7 days, with fitness and mood selected |
| HistoryExports.ExportSelection.HandleDataTypeToggle | src/components/dashboard/HistoryExports.tsx:102-108 | the selection becomes `DataTypeToggled` of the old one; the range is kept |
| HistoryExports.ExportSelection.SelectDateRange | src/components/dashboard/HistoryExports.tsx:298 | only the range changes |
| HistoryExports.ExportSelection.HandleExport | src/components/dashboard/HistoryExports.tsx:110-112 | the request names the format, the chosen range (always found) and the selected types; the buttons are enabled iff it names a type |
| Lists.Remove | src/components/dashboard/HistoryExports.tsx:105 | `filter(id => id !== x)` keeps exactly the elements other than x |
| ProfilePage.WithProfileField | src/components/dashboard/ProfilePage.tsx:246-387 | a field edit sets exactly its own field and keeps the other ten |
| ProfilePage.FieldWrites | src/components/dashboard/ProfilePage.tsx:246-387 | writing a field's own value changes nothing; of two writes to one field the last wins |
| ProfilePage.NotificationFlipped | src/components/dashboard/ProfilePage.tsx:113-114 | the named switch flips and the other four are kept |
| ProfilePage.NotificationFlips | src/components/dashboard/ProfilePage.tsx:113-114 | flipping one switch twice restores the settings; flips of two switches commute |
| ProfilePage.JsNot | src/components/dashboard/ProfilePage.tsx:123 | `!` always gives a boolean, true exactly for a falsy value |
| ProfilePage.PrivacyFlipped | src/components/dashboard/ProfilePage.tsx:122-123 | the named key becomes `!` of its value and the other three are kept |
| ProfilePage.BooleanPrivacyFlipTwice | src/components/dashboard/ProfilePage.tsx:122-123 | on a key holding a boolean, flipping twice restores the settings |
| ProfilePage.VisibilityFlipLosesString | src/components/dashboard/ProfilePage.tsx:122-123 | a non-empty visibility string becomes `false`, then `true`, and is never restored |
| ProfilePage.ProfileSettings.constructor | src/components/dashboard/ProfilePage.tsx:70-98 | not editing, with the initial profile, notification and privacy records |
| ProfilePage.ProfileSettings.ToggleEditing | src/components/dashboard/ProfilePage.tsx:186 | only the edit flag flips |
| ProfilePage.ProfileSettings.HandleSaveProfile | src/components/dashboard/ProfilePage.tsx:102-103 | editing ends; nothing else changes |
| ProfilePage.ProfileSettings.EditProfileField | src/components/dashboard/ProfilePage.tsx:246-388 | in edit mode, the profile becomes `WithProfileField` of the new value; nothing else changes |
| ProfilePage.ProfileSettings.HandleNotificationChange | src/components/dashboard/ProfilePage.tsx:113-114 | the notification record becomes `NotificationFlipped` for the key; nothing else changes |
| ProfilePage.ProfileSettings.HandlePrivacyChange | src/components/dashboard/ProfilePage.tsx:122-123 | the privacy record becomes `PrivacyFlipped` for the key; nothing else changes; every key but visibility still holds a boolean |
| ProfilePage.VisibilitySwitchOnFreshPage | src/components/dashboard/ProfilePage.tsx:93-123 | on a fresh page the visibility switch turns "private" into `false` |

## Left out

- Rendering, animation, icons, styles, toasts and the mascot's state and messages are presentation. They are not modelled.
- Real time is not modelled. `setInterval` and `setTimeout` (200, 150, 1500 and 2000 ms) become tick and completion methods that the caller invokes. Chat replies are delivered oldest first, because they all share one delay.
- Nothing about the picked file's contents or type is modelled. `HandleFileUpload` records the name, size and media type it is given.
- Floating-point numbers are exact reals here. Display formatting, size display, percentage bars, chart heights and the 0.1 BMI step are left out.
- The by-kind counts of `HistoryExports.DataTypes` come from mock arrays and are constants here.
- JsNumber.ParseInt: decimal only. Hexadecimal and engine-specific forms are not modelled.
- JsNumber.ParseFloat: digits, an optional fraction and an optional exponent. `Infinity` is not modelled.
- JsString.ToLower: lowercases ASCII letters only.
- HealthChatbot.ResponseText: the fourteen table entries are carried verbatim. That they are pairwise distinct is not proved, because comparisons of such long literals are beyond the solver's budget.
- HealthChatbot.Chat.CompleteReply: a bot message keeps the table entry it was answered from, `Canned(category, detailed)`. `ContentText` maps that entry to the displayed text `ResponseText(category, detailed)`.
- Message ids and `Date` timestamps are not modelled. Nor are the saved-conversation download of the chat and the export's setTimeout notification.
- That each quick-action text classifies into its intended category is not proved, for the same literal-cost reason as the response tables.
- The render-time `reverse()` of the mock fitness series is not modelled.
- The `quests.find` lookup is not modelled, because it only feeds the checklist's toast and mascot message.
- DiseasePrediction.Workflow.ExtractionTick: requires a live extraction interval, since only a live interval calls back. The same holds for `AnalysisTick` and analysis intervals.
- DiseasePrediction.Workflow.SlideNumeric: requires a value within the slider's bounds, because the slider component yields no other. The same holds for `SlideBmi` and 15..40.
- MentalHealth.MoodQuiz.HandleAnswer: requires an active round and a value offered by the current question. The answer buttons are rendered only during a round (`MentalHealth.tsx:203-229`).
- HistoryExports.ExportSelection.HandleDataTypeToggle: requires a catalogue id, because the cards are the only callers. `DataTypeToggled` itself takes any id.
- HistoryExports.ExportSelection.SelectDateRange: requires a value offered by a range button.
- ProfilePage.ProfileSettings.EditProfileField: requires edit mode, because the inputs are disabled outside it.
- Other files are not part of this model:
  - the fitness tracker, the dashboard home, the navigation, the layout and the mascot, which hold only view switching, static data and timer-set flags;
  - the sign-in screens, which accept any input after a timer;
  - the page's local-storage flag.
