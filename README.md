# TutorX client rules in Dafny

TutorX is a React learning app. A learner signs up or signs in through a mock
authentication service, picks a topic and a difficulty on the dashboard, and
studies an AI-generated lesson. A lesson has tabs for the text, a summary, a
tutor chat, an exam and a read-aloud mode. Finishing the exam updates the
learner's profile: progress, completed topics, the score history and a daily
streak. The dashboard and the profile page show analytics over that history. The plans page and the upgrade dialog sell the
PREMIUM and PRO tiers that unlock the harder levels, the exam and the voice
tab.

This project models those client-side rules. Each source file has its own
module:

- `Types`: the shared records and enumerations of `types.ts`.
- `FirebaseService`: the mock authentication service. It is a class with a
  `currentUser` field and a one-slot store standing for the `tutorx_user`
  browser storage entry.
- `App`: the application shell. It holds the pure profile update behind
  `recordActivity` and a class with the shell's state and handlers.
- `QuizView`: the exam, as a class stepping `currentIdx`, `selectedOption`,
  `isAnswered` and `correctCount`, with the score arithmetic.
- `DashboardView`: the keyword classifier, the domain-count loop, the
  recent-score window, the mastery trend, "Most Explored" and the level gate.
- `LessonView`: the tab locks and a class with the lesson screen's state:
  tabs, read-aloud flags and rate, and the tutor chat.
- `ProfileView`: the average and best score, recent milestones, score bands
  and streak badges.
- `PlansView`: the per-tier plan cards and the guarded click.
- `UpgradeModal`: the payment-link keys, the price table and the dialog's two
  flags.
- `Numbers`, `Seqs`, `Text`: the JavaScript operations the screens rely on.
  These are `Math.round(a / b)`, the mean, `slice(-k)`, `reverse()`,
  de-duplication through a `Set`, `trim()`, `toLowerCase()`, the keyword
  regular expressions and `replace(/[#*]/g, '')`.

`Math.round(a / b)`, as the dashboard and profile means compute it on
non-negative integers, is `(2a + b) / (2b)`. It is
specified by `b(2r - 1) <= 2a < b(2r + 1)`. The calendar day of a timestamp
is a parameter `dayOf`. The clock reading `Date.now()` is a parameter `now`.
The lesson generator and the tutor service are outside the model: their
answers are parameters (`generated`, `reply`). The speech engine is outside
the model too: the lesson screen returns the commands it would give the
engine and receives the engine's start and end events.

`App.tsx` never renders the plans page, so nothing in this code reaches its
cards; `PlansView` models the component as written.

`App.tsx` hands `markMastery` to the lesson screen, but the lesson screen
declares no such property and never calls it; `MarkMastery` models the
handler as written.

The yearly card of the upgrade dialog carries a "Save 20%" badge. Against
twelve monthly payments the yearly prices save exactly one sixth, about
16.7%, on both plans (`UpgradeModal.YearlySavesOneSixth`).

## Model

| member | source | states |
|---|---|---|
| `Numbers.RoundDiv` | components/QuizView.tsx:35 | the result is the integer nearest to a / b, halves rounded up, as `Math.round` does for non-negative values |
| `Numbers.PercentOf` | components/QuizView.tsx:35 | a rounded percentage of a part of a total is at most 100, exactly 100 for the whole and 0 for nothing |
| `Numbers.RoundDivMonotone` | components/QuizView.tsx:48 | rounding a larger numerator never gives a smaller result |
| `Numbers.SumBounds` | components/Profile.tsx:14 | the sum of n values in [lo, hi] lies in [n*lo, n*hi] |
| `Numbers.MeanRounded` | components/Dashboard.tsx:180-182 | the rounded mean is 0 for an empty list |
| `Numbers.MeanRoundedBounds` | components/Profile.tsx:14 | the rounded mean of a non-empty list lies between its least and greatest bound |
| `Seqs.TakeLast` | components/Dashboard.tsx:19 | `slice(-k)` keeps min(k, n) elements, the last ones, in their order |
| `Seqs.Reverse` | components/Profile.tsx:92 | element k of the result is element n-1-k of the input |
| `Seqs.Dedup` | App.tsx:116 | the result has no duplicates and the same members; a list without duplicates is unchanged |
| `Seqs.DedupFirstOccurrenceOrder` | App.tsx:116 | the distinct elements come in the order of their first occurrences, as a `Set` keeps insertion order |
| `Seqs.DedupAppend` | App.tsx:116 | de-duplicating a duplicate-free list plus x gives the list itself if x is in it, else the list with x appended |
| `Text.TrimStart` | components/Dashboard.tsx:36 | the result is a suffix, what was removed is white space, and the result is empty exactly for a blank string |
| `Text.TrimEnd` | components/Dashboard.tsx:36 | the result is a prefix, what was removed is white space, and the result is empty exactly for a blank string |
| `Text.Trim` | components/LessonView.tsx:90-91 | `trim()` is a middle piece of the string with only white space cut from both ends; it is empty exactly for a blank string and never starts or ends with white space |
| `Text.TrimIdentity` | components/LessonView.tsx:91 | a string without white space at its ends is its own trim |
| `Text.ToLower` | components/Dashboard.tsx:24 | each ASCII letter is lower-cased in place, the length is kept |
| `Text.StripMarkup` | components/LessonView.tsx:80 | the narrated text is a subsequence of the lesson without '#' or '*' that keeps every other character as often as the lesson has it, so the lesson with its markup deleted, in order; a lesson without markup is kept |
| `Text.StripMarkupAppend` | components/LessonView.tsx:80 | stripping distributes over concatenation |
| `Text.StripMarkupIdempotent` | components/LessonView.tsx:80 | stripping twice is stripping once |
| `Types.Scores` | types.ts:33-38 | the score of each record, in order |
| `FirebaseService.LocalStore.constructor` | services/firebaseService.ts:9 | the slot starts with the given content |
| `FirebaseService.DefaultProfile` | services/firebaseService.ts:26-34 | a new account has the given email, progress 0, no topics, no scores, FREE, streak 0, no last activity |
| `FirebaseService.MockAuth.constructor` | services/firebaseService.ts:5 | nobody is signed in at first |
| `FirebaseService.MockAuth.Login` | services/firebaseService.ts:7-22 | the stored profile is returned unchanged whatever the email, else a default profile for the email; signed-in user and slot both equal it |
| `FirebaseService.MockAuth.Register` | services/firebaseService.ts:24-38 | always a fresh default profile, which becomes the signed-in user and the slot |
| `FirebaseService.MockAuth.UpgradeTier` | services/firebaseService.ts:40-47 | fails with no signed-in user, leaving the slot alone; otherwise only the tier of the signed-in user changes, and user and slot hold the result |
| `FirebaseService.MockAuth.ResetPassword` | services/firebaseService.ts:49-51 | changes nothing |
| `FirebaseService.MockAuth.Logout` | services/firebaseService.ts:53-56 | clears the signed-in user and the slot |
| `FirebaseService.MockAuth.GetStoredUser` | services/firebaseService.ts:58-61 | returns the slot's content |
| `FirebaseService.LogoutThenRead` | services/firebaseService.ts:53-61 | after logout the slot reads back empty |
| `FirebaseService.UpgradeWithRestoredProfile` | services/firebaseService.ts:42 | a profile found in the slot is not a signed-in user, so an upgrade then fails |
| `App.IsNewDay` | App.tsx:103-104 | no last activity, or a last activity at timestamp 0, starts a new day; otherwise a new day exactly when the calendar days differ, so never at the same instant |
| `App.UpdatedProfile` | App.tsx:103-120 | progress is min(100, old + 5), or + 2 for mastery; the topic is added once and the old order kept; one score record (topic, score, now, difficulty) is appended; the streak grows on a new day, stays on the same day with 0 becoming 1; the last activity is now; email and tier are kept |
| `App.SameDayKeepsStreak` | App.tsx:103-104 | a second activity on the same calendar day keeps the streak the first set, which is at least 1 |
| `App.ProgressAfter` | App.tsx:115 | capping after each of k > 0 steps gives exactly min(100, start + k*step), the same as capping once; no lemma ties it to k calls of `UpdatedProfile`, whose ensures gives each single step |
| `App.ProgressSaturates` | App.tsx:115 | from 0, twenty quizzes give exactly 100 and further ones keep it there |
| `App.AppState.constructor` | App.tsx:16-33 | the landing screen, no user, no lesson, BEGINNER, no dialog, PREMIUM as the default upgrade target |
| `App.AppState.HandleAuth` | App.tsx:55-75 | registers from the register and landing screens and signs in from any other; the profile obtained becomes the user, the dashboard is shown and the service agrees with the app |
| `App.AppState.HandleLogout` | App.tsx:77-82 | no user, no active lesson, the landing screen, and the service signed out |
| `App.AppState.StartLearning` | App.tsx:84-97 | the chosen difficulty is kept; a generated lesson becomes active and opens, a failed generation changes nothing else |
| `App.AppState.RecordActivity` | App.tsx:99-125 | without a user or lesson nothing changes; otherwise the user and the slot become the updated profile and the service's signed-in user is left as it was |
| `App.AppState.CompleteLesson` | App.tsx:127 | the exam score is recorded with the full progress step into the user and the slot; the service's signed-in user and the other fields stay as they were |
| `App.AppState.MarkMastery` | App.tsx:128 | a score of 100 is recorded with the small progress step, whatever topic is passed; the service's signed-in user and the other fields stay as they were |
| `App.AppState.HandleUpgrade` | App.tsx:130-138 | on success the service's upgraded user becomes the app's user and the dialog closes; on failure nothing changes, the service still has no signed-in user; when app and service agree, only the tier changes; screen, lesson, difficulty, error and target stay |
| `App.AppState.TriggerUpgrade` | App.tsx:140-143 | the dialog opens for the tier asked for; user, screen, lesson, difficulty and error stay |
| `App.AppState.CloseUpgrade` | App.tsx:191 | the dialog closes; target, user, screen, lesson, difficulty and error stay |
| `App.AppState.RecordActivitySynced` | App.tsx:99-125 | the updated profile reaches the user, the slot and the service's signed-in user, so the three stay equal; the other fields stay |
| `App.AppState.CompleteLessonSynced` | App.tsx:127 | the exam score recorded the corrected way: the updated profile becomes the user, the slot and the service's signed-in user; with no user or lesson all three keep their values; the other fields stay |
| `App.AppState.MarkMasterySynced` | App.tsx:128 | the mastery mark recorded the corrected way: the updated profile becomes the user, the slot and the service's signed-in user; with no user or lesson all three keep their values; the other fields stay |
| `App.UpgradeAfterQuizLosesScore` | App.tsx:99-143 | register, pay for PREMIUM, finish the exam with 80, pay for PRO: the exam's score is lost and the tier is PRO |
| `App.DowngradeThroughDialogSetsFree` | App.tsx:130-143 | a PREMIUM learner's FREE card opens the dialog for FREE, and confirming it makes the tier FREE through the payment handler |
| `App.UpgradeAfterQuizKeepsScore` | App.tsx:99-143 | the same steps with the corrected recording keep the score through the second upgrade |
| `QuizView.FinalScore` | components/QuizView.tsx:35 | the reported score rounds 100 * correct / total; at most 100 when correct <= total, 100 for all right, 0 for none |
| `QuizView.ProgressPercent` | components/QuizView.tsx:48 | the progress label rounds 100 * (idx + 1) / total, at most 100, and 100 on the last question |
| `QuizView.ProgressMonotone` | components/QuizView.tsx:48 | the progress label never decreases as the index grows |
| `QuizView.HasSelection` | components/QuizView.tsx:22 | `!selectedOption` lets through exactly a present, non-empty selection |
| `QuizView.Quiz.CheckEnabled` | components/QuizView.tsx:114-115 | the check button is enabled only on an unanswered question with a non-empty selection |
| `QuizView.Quiz.constructor` | components/QuizView.tsx:11-14 | first question, nothing selected, unanswered, no correct answers |
| `QuizView.Quiz.Progress` | components/QuizView.tsx:48 | the label of a valid quiz is at most 100 |
| `QuizView.Quiz.HandleSelect` | components/QuizView.tsx:16-19 | a selection replaces the old one unless the question is answered; nothing else changes |
| `QuizView.Quiz.CheckAnswer` | components/QuizView.tsx:21-27 | without a selection nothing changes; otherwise the question is answered and the count grows by one exactly when the selection is the correct answer; counts stay consistent when the check button was enabled, and pressing the enabled button disables it |
| `QuizView.Quiz.HandleNext` | components/QuizView.tsx:29-38 | before the last question the index advances, selection and answer are cleared and the count is kept; on the last one the final score is reported, within 0..100, and nothing moves |
| `QuizView.PerfectRun` | components/QuizView.tsx:16-38 | two right answers report 100 |
| `DashboardView.Position` | components/Dashboard.tsx:22 | the place of each domain in the order Tech, Science, Arts, Other |
| `DashboardView.Classify` | components/Dashboard.tsx:24-28 | Tech iff a Tech keyword occurs in the lower-cased topic; Science iff no Tech one does and a Science one does; Arts likewise after both |
| `DashboardView.PaintIsTech` | components/Dashboard.tsx:25 | "paint" holds "ai", so it counts as Tech |
| `DashboardView.StartsWithTechWord` | components/Dashboard.tsx:24-25 | a topic whose lower-cased form starts with a Tech keyword is Tech |
| `DashboardView.DataScienceIsTech` | components/Dashboard.tsx:25-26 | "Data Science" matches Tech first and is not counted as Science |
| `DashboardView.CountsCoverTopics` | components/Dashboard.tsx:23-29 | each topic lands in exactly one domain, so the four counts add up to the number of topics |
| `DashboardView.DomainCounts` | components/Dashboard.tsx:22-29 | the loop builds a map with exactly the four domains, each holding how many topics classify there, summing to the number of topics |
| `DashboardView.RecentScores` | components/Dashboard.tsx:19 | the last min(7, n) records in their order |
| `DashboardView.MasteryTrend` | components/Dashboard.tsx:180-182 | 0 without recent scores; at most 100 when scores are |
| `DashboardView.MostExplored` | components/Dashboard.tsx:220 | a domain with the largest count, every domain listed before it having a strictly smaller one (stable sort, first entry) |
| `DashboardView.MostExploredWithoutTopics` | components/Dashboard.tsx:220 | with no topics the label reads Tech |
| `DashboardView.IsLevelLocked` | components/Dashboard.tsx:50-54 | Beginner never, Intermediate iff FREE, Advanced iff not PRO |
| `DashboardView.LevelLockMonotone` | components/Dashboard.tsx:50-54 | a higher tier unlocks every level a lower one does |
| `DashboardView.HandleSubmit` | components/Dashboard.tsx:34-48 | ignored exactly for a blank topic or while loading; starts the lesson with the topic as typed, untrimmed, exactly when the level is open; otherwise asks for PREMIUM (Intermediate) or PRO (Advanced), a strictly higher tier that opens it |
| `LessonView.IsTabLocked` | components/LessonView.tsx:103-107 | the exam is locked iff FREE, the voice tab iff not PRO, other tabs never |
| `LessonView.TabLockMonotone` | components/LessonView.tsx:103-107 | a higher tier unlocks every tab a lower one does |
| `LessonView.UpgradeFor` | components/LessonView.tsx:109-111 | no request for an open tab; for a locked one a strictly higher tier that opens it: PREMIUM for the exam, PRO for voice |
| `LessonView.NextRate` | components/LessonView.tsx:237 | in quarter units the rate stays within 1x..1.5x and always changes |
| `LessonView.RateCycles` | components/LessonView.tsx:237 | three presses return to the starting rate |
| `LessonView.AlternatesAppend` | components/LessonView.tsx:93-99 | appending the message whose turn it is keeps the chat alternating learner, tutor |
| `LessonView.LessonState.constructor` | components/LessonView.tsx:49-63 | the lesson tab, nothing completed, empty chat, silent at 1x |
| `LessonView.LessonState.HandleTabClick` | components/LessonView.tsx:109-113 | an open tab becomes active; a locked one stays shut and its upgrade is requested; nothing else changes |
| `LessonView.LessonState.SetContent` | App.tsx:169-179 | a new lesson replaces the old one while the screen's tab, flags, score and chat carry over |
| `LessonView.LessonState.SetTier` | components/LessonView.tsx:13 | after an upgrade the open tab stays open |
| `LessonView.LessonState.ToggleSpeech` | components/LessonView.tsx:72-86 | speaking and not paused: pause; paused: resume; otherwise speak the lesson without markup at the current rate |
| `LessonView.LessonState.OnSpeechStart` | components/LessonView.tsx:82 | the start event sets speaking |
| `LessonView.LessonState.OnSpeechEnd` | components/LessonView.tsx:83 | the end event clears speaking and paused |
| `LessonView.LessonState.StopSpeech` | components/LessonView.tsx:239 | the stop button cancels the utterance and leaves the flags to the end event |
| `LessonView.LessonState.CycleRate` | components/LessonView.tsx:237 | 1.5x goes back to 1x, any other rate goes up a quarter |
| `LessonView.LessonState.TypeInput` | components/LessonView.tsx:199 | the chat box holds what was typed |
| `LessonView.LessonState.SubmitMessage` | components/LessonView.tsx:88-94 | ignored exactly for a blank box or while an answer is awaited; otherwise the box is cleared, the trimmed question appended and sent with the history from before it |
| `LessonView.LessonState.ReceiveReply` | components/LessonView.tsx:95-100 | exactly one tutor message is appended, the reply or the fixed fallback, and the wait ends |
| `LessonView.LessonState.CompleteClass` | components/LessonView.tsx:171-172 | the lesson is marked completed; pressing again changes nothing |
| `LessonView.LessonState.ShowReview` | components/LessonView.tsx:172 | the delayed switch opens the summary tab |
| `LessonView.LessonState.QuizCompleted` | components/LessonView.tsx:219 | the exam's score is kept and the exam marked finished |
| `LessonView.PauseThenResume` | components/LessonView.tsx:72-86 | play speaks at 1x, then the button pauses and resumes |
| `LessonView.AskWhenTutorThrows` | components/LessonView.tsx:88-100 | a question whose tutor call throws leaves the trimmed question followed by the fallback message |
| `LessonView.NextTopicKeepsState` | components/LessonView.tsx:245-250 | after completing a lesson and asking a question, following a next topic opens the new lesson on the same tab, marked completed, with the old chat |
| `ProfileView.AvgScore` | components/Profile.tsx:14 | 0 without scores; at most 100 when scores are |
| `ProfileView.AvgScoreBetween` | components/Profile.tsx:14 | the average lies between the lowest and the highest score |
| `ProfileView.BestIndex` | components/Profile.tsx:15 | the head of the stable descending sort: a record with the highest score, no earlier one scoring as much |
| `ProfileView.BestTopic` | components/Profile.tsx:15 | absent exactly without scores; otherwise a record of the list with the highest score, earliest among ties |
| `ProfileView.RecentMilestones` | components/Profile.tsx:92 | the last min(3, n) records, newest first |
| `ProfileView.Band` | components/Profile.tsx:100 | top iff >= 80, middle iff 50..79, low iff < 50, so each score has one band |
| `ProfileView.BandMonotone` | components/Profile.tsx:100 | a higher score never gets a lower band |
| `ProfileView.Badges` | components/Profile.tsx:33-44 | the flame icon iff the streak is positive, the day label iff it exceeds 1, and the label only with the icon |
| `PlansView.Cards` | components/PlansView.tsx:11-71 | FREE, PREMIUM, PRO at R0, R99, R199; disabled and button texts per current tier as the table gives them |
| `PlansView.Click` | components/PlansView.tsx:138 | a card asks for its tier exactly when it is enabled |
| `PlansView.ExactlyOneCurrentPlan` | components/PlansView.tsx:28-67 | a card reads "Current Plan" exactly when it is the current tier |
| `PlansView.ClickNeverCurrent` | components/PlansView.tsx:138 | no click asks for the current tier, and only the FREE card asks for a lower one |
| `UpgradeModal.LinkTierKey` | components/UpgradeModal.tsx:18-27 | the PRO link iff the target is PRO; every other target, FREE included, gets the PREMIUM link |
| `UpgradeModal.LinkCycleKey` | components/UpgradeModal.tsx:28 | the monthly key iff the monthly plan is chosen |
| `UpgradeModal.TierName` | components/UpgradeModal.tsx:19 | the heading names the plan the link sells |
| `UpgradeModal.PriceRand` | components/UpgradeModal.tsx:21-24 | R199 / R1990 for the PRO link, R99 / R990 otherwise |
| `UpgradeModal.PriceLabel` | components/UpgradeModal.tsx:21-24 | "R199" / "R1,990" for the PRO link, "R99" / "R990" otherwise |
| `UpgradeModal.YearlySavesOneSixth` | components/UpgradeModal.tsx:21-24 | against twelve monthly payments a year saves exactly one sixth on both plans, less than the badge's fifth |
| `UpgradeModal.MonthlyPriceMatchesPlanCard` | components/UpgradeModal.tsx:22 | the monthly price of a paid tier equals its plan card's price |
| `UpgradeModal.Modal.constructor` | components/UpgradeModal.tsx:15-16 | no plan chosen, not verifying |
| `UpgradeModal.Modal.HandlePlanSelection` | components/UpgradeModal.tsx:26-32 | opens the link for the sold tier and chosen cycle and moves to the confirmation |
| `UpgradeModal.Modal.ReturnToSelection` | components/UpgradeModal.tsx:98 | back to the billing choice |
| `UpgradeModal.Modal.VerifyEnabled` | components/UpgradeModal.tsx:95 | the verify button is enabled exactly while no verification is under way |
| `UpgradeModal.Modal.ConfirmPayment` | components/UpgradeModal.tsx:34-95 | ignored while the verify button is disabled; otherwise the upgrade to the target tier follows and the button becomes disabled |
| `UpgradeModal.ConfirmTwice` | components/UpgradeModal.tsx:34-95 | a dialog asks for its target tier once and only once |
| `UpgradeModal.DowngradeThroughDialog` | components/UpgradeModal.tsx:18-37 | the FREE card's "Downgrade" is sold through the PREMIUM monthly link at R99 and confirming it asks for FREE |

## Left out

- QuizView.FinalScore, QuizView.ProgressPercent: round the exact ratio `100 * c / n`, while the app rounds the floating-point product `(c / n) * 100` (QuizView.tsx:35 and :48); at 23 correct of 40 the app shows 57 and the model 58, and the progress label on question 23 of 40 (index 22) differs the same way. Floating point is outside the model.
- The lesson generator and the tutor service (services/geminiService.ts) are network calls; their results are parameters. The tutor service catches the errors of its own request and returns an apology text, which the model receives as an ordinary reply; `None` stands for a call that throws before that.
- The browser's speech synthesis is an engine outside the model; handlers return commands and receive its start and end events.
- React effects: restoring the stored profile on start-up (App.tsx:35-41), the theme, and cancelling speech when leaving the voice tab (components/LessonView.tsx:65-70).
- Timers: the delays of the mock service and of payment confirmation; the switch to the summary after "Complete Class" is the separate `ShowReview` event.
- `window.open` of the payment link; the model returns the link's keys instead.
- JSON encoding of the stored profile and its parse errors; the slot holds the profile itself.
- The `saveProgress` logging stub and the authentication error path of `handleAuth`; the mock service never rejects a sign-in.
- The `loading` and `authLoading` spinners; `HandleSubmit` takes `loading` as an input.
- Floating-point drawing: the sparkline, bar widths, confetti and the random voice bars.
- `displayName`, `questionsAskedToday`, `lastQuestionDate` and `uploadedDocuments` are profile fields nothing in the core reads or writes.
- Rendering, the landing, sign-in and layout components, and the feature lists of the plan cards.
- Text.ToLower: lower-cases ASCII letters only. `toLowerCase` also maps other letters, and some to more than one character: U+0130 becomes "i" followed by U+0307, so a topic "Aİ" holds "ai" and is Tech in the app but Other in the model.
- QuizView.Quiz.constructor: requires a non-empty question list; the screen reads `questions[currentIdx]` and fails on an empty one.
- LessonView.LessonState.SetTier: only models a tier that does not go down, the only change the lesson's own upgrade requests make.
- Number formatting: the dialog's price strings are stated as a table, not derived from the amounts.

## Findings

| source | as written | input that shows it | evidently intended | confidence | as-written member | corrected member |
|---|---|---|---|---|---|---|
| App.tsx:122-123 | `recordActivity` writes the updated profile to the app state and to storage but not to the service's `currentUser`; `upgradeTier` then spreads the stale `currentUser` over the stored profile | register, pay for PREMIUM, finish the exam with score 80, click the locked listen tab and pay for PRO: the profile's score list goes from one record back to none, and progress, topics and streak roll back too | the recorded activity survives an upgrade, which only changes the tier | high, not executed | `App.AppState.CompleteLesson`, `App.UpgradeAfterQuizLosesScore` | `App.AppState.CompleteLessonSynced`, `App.UpgradeAfterQuizKeepsScore` |

`App.AppState.CompleteLesson` and `App.AppState.MarkMastery` record through
`RecordActivity` as the app does; `CompleteLessonSynced` and
`MarkMasterySynced` record through the corrected `RecordActivitySynced`.
