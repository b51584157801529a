# HappyGreen core, modelled in Dafny

HappyGreen is an Android app for environmental habits. Users collect points by
scanning objects and product barcodes, answering quizzes and completing
challenges. Points unlock badges and raise the user's level. Users also post
in groups and comment on posts. This project models the app's client-side
decision logic: the view models' state updates and the pure helpers the
screens use. It proves what that logic guarantees.

One Dafny module per source file:

| module | file | flavour |
|---|---|---|
| `Wrappers`, `KotlinInt`, `Decimal`, `Lists` | (shared) | `Option` with Kotlin's elvis `?:` (`GetOr`); Kotlin's truncating `Int` division and 32-bit wrap-around; decimal rendering of counts; Kotlin's `filter`, stable `sortedBy` and `distinct` with their laws |
| `Models` | data classes | the server's records as datatypes |
| `ProfileScreen` | `ProfileScreen.kt` | level, level progress, next-level threshold |
| `ProfileViewModel` | `ProfileViewModel.kt` | unlocked and next badges, as functions of the UI state |
| `BadgeViewModel` | `BadgeViewModel.kt` | a class over `BadgesUiState`: selection, points filter, categories |
| `Quiz` | `QuizViewModel.kt` | a class over `QuizUiState`; a ghost answer log ties the score to the correct answers |
| `Challenges` | `ChallengeViewModel.kt` | a class over `ChallengesUiState` and its completion map; the participant scans as `while` loops proved against scan functions |
| `DateUtils`, `CommentScreen` | `DateUtils.kt`, `CommentScreen.kt` | the date fallbacks, the relative-time labels, `trim`, and the comment composer |
| `ScreenParts`, `ObjectScanResultScreen`, `BarcodeScanScreen` | the screens of the same name | score bar colour and label, description texts, which scan view shows |
| `ObjectScan` | `ObjectScanViewModel.kt` | a class over `ObjectScanState`; case-insensitive matching of labels to catalogue objects |
| `Posts` | `PostViewModel.kt` | a class over `PostsUiState`; how missing authors and dates are completed |
| `Session` | `TokenManager.kt` | a class over the stored preferences, plus the set-once global instance |

The model treats some things as inputs:
- **Server answers.** Each is a parameter of the method that consumes it: a success with a body, an HTTP error, an I/O error or another exception.
- **Coroutines.** A `viewModelScope.launch` becomes a `Begin…` step and a `Receive…` step.
- **The platform.** The clock, the date parser and formatter, and the image labeller are parameters too.

Arithmetic and examples:
- Kotlin `Int` arithmetic is modelled where it differs from mathematical integers: division truncates toward zero, and `level * 100` wraps at 32 bits.
- Examples fix the behaviour on concrete inputs: a catalogue of three badges, a two-question quiz, a bottle scan, a session's lifecycle.

Which challenges count as active follows `getActiveChallenges` (`app/src/main/java/com/happygreen/viewmodels/ChallengeViewModel.kt`, lines 253-283):
- A challenge is listed only when its participant list is null or empty, or when the user's first record in it is not completed (lines 264-277).
- A non-empty list without a record of the user hides the challenge. So does a participant fetch that throws.

`Challenges.ActiveChallengesCharacterised` states the code's rule.

## Model

| member | source | states |
|---|---|---|
| ProfileScreen.CalculateLevel | app/src/main/java/com/example/frontend_happygreen/ui/screens/ProfileScreen.kt:490 | For points >= 0 the level is at least 1 and (level-1)*100 <= points < level*100; Kotlin's truncating division gives level 1 for -99..-1 |
| ProfileScreen.CalculateLevelProgress | app/src/main/java/com/example/frontend_happygreen/ui/screens/ProfileScreen.kt:491-496 | The progress fraction always has denominator 100; for points >= 0 its numerator is points mod 100, so the fraction lies in [0, 1) |
| ProfileScreen.LevelIsQuotientPlusOne | app/src/main/java/com/example/frontend_happygreen/ui/screens/ProfileScreen.kt:490 | For points >= 0 the level is points div 100 + 1 |
| ProfileScreen.LevelMonotone | app/src/main/java/com/example/frontend_happygreen/ui/screens/ProfileScreen.kt:490 | More points never give a lower level, negative totals included |
| ProfileScreen.NextLevelThreshold | app/src/main/java/com/example/frontend_happygreen/ui/screens/ProfileScreen.kt:235 | The "Prossimo" threshold in exact arithmetic: a multiple of 100 strictly above the points and at most 100 above them |
| ProfileScreen.NextLevelThresholdAsWritten | app/src/main/java/com/example/frontend_happygreen/ui/screens/ProfileScreen.kt:235 | The threshold as the screen computes it: a 32-bit Int congruent to level*100 modulo 2^32 (its wrap is shown by ThresholdAsWrittenWraps) |
| ProfileScreen.ThresholdAsWrittenAgreesBelowOverflow | app/src/main/java/com/example/frontend_happygreen/ui/screens/ProfileScreen.kt:235 | With 32-bit Int arithmetic the shown threshold equals the exact one for 0 <= points < 2147483600 |
| ProfileScreen.ThresholdAsWrittenWraps | app/src/main/java/com/example/frontend_happygreen/ui/screens/ProfileScreen.kt:235 | From 2147483600 points up to Int.MAX_VALUE the 32-bit product wraps to -2147483596, below the points |
| ProfileScreen.ProgressDenominatorSurvivesWrap | app/src/main/java/com/example/frontend_happygreen/ui/screens/ProfileScreen.kt:493-495 | The progress denominator is 100 for every 32-bit point total, even where level*100 wraps |
| ProfileScreen.LevelScenarios | app/src/main/java/com/example/frontend_happygreen/ui/screens/ProfileScreen.kt:490-495 | 99 points is level 1; 100 is level 2 with numerator 0; 250 is level 3 with progress 50/100 |
| ProfileViewModel.BadgeIds | app/src/main/java/com/happygreen/viewmodels/ProfileViewModel.kt:95-96 | position by position, the ids of the profile's badges |
| ProfileViewModel.EarnedBadgeIds | app/src/main/java/com/happygreen/viewmodels/ProfileViewModel.kt:94-96 | No earned ids when the profile's badge list is null; otherwise an id is earned iff some badge of the profile has it |
| ProfileViewModel.CalculateUnlockedBadges | app/src/main/java/com/happygreen/viewmodels/ProfileViewModel.kt:91-105 | Empty when the profile or the catalogue is missing; otherwise a badge is listed iff it is in the catalogue, its threshold is at most the points and its id is not earned, in catalogue order (a subsequence), with every copy of a listed badge kept |
| ProfileViewModel.UpcomingInCatalogueOrder | app/src/main/java/com/happygreen/viewmodels/ProfileViewModel.kt:116-118 | A badge is kept iff it is in the catalogue, needs more than the points and is not earned |
| ProfileViewModel.UpcomingCounts | app/src/main/java/com/happygreen/viewmodels/ProfileViewModel.kt:116-118 | Every copy of an upcoming badge is kept and none of any other, in catalogue order |
| ProfileViewModel.CalculateNextBadges | app/src/main/java/com/happygreen/viewmodels/ProfileViewModel.kt:108-122 | Empty when the profile or the catalogue is missing; otherwise sorted by threshold, a permutation of the filtered catalogue, and a badge is listed iff it needs more than the points and is not earned |
| ProfileViewModel.NextBadgesKeepCatalogueOrderOnTies | app/src/main/java/com/happygreen/viewmodels/ProfileViewModel.kt:117-119 | Badges with the same threshold keep their catalogue order (sortedBy is stable) |
| ProfileViewModel.BadgeListsPartitionCatalogue | app/src/main/java/com/happygreen/viewmodels/ProfileViewModel.kt:100-119 | An earned catalogue badge is in neither list; any other catalogue badge is in exactly one of unlocked and next |
| ProfileViewModel.UnlockedAndNextDisjoint | app/src/main/java/com/happygreen/viewmodels/ProfileViewModel.kt:100-119 | No badge is both unlocked and next, for every state |
| ProfileViewModel.NoBadgeListMeansNothingEarned | app/src/main/java/com/happygreen/viewmodels/ProfileViewModel.kt:94-102 | With a null badge list on the profile, unlocked is every catalogue badge within the points |
| ProfileViewModel.UnlockedBadgeScenario | app/src/main/java/com/happygreen/viewmodels/ProfileViewModel.kt:91-105 | Catalogue 50/150/300, 50..149 points, nothing earned: unlocked is the 50-point badge |
| ProfileViewModel.UpcomingScenario | app/src/main/java/com/happygreen/viewmodels/ProfileViewModel.kt:116-118 | The same state: the filtered candidates are the 150- and 300-point badges |
| ProfileViewModel.NextBadgesOfSortedCatalogue | app/src/main/java/com/happygreen/viewmodels/ProfileViewModel.kt:117-119 | When the candidates are already in threshold order, next lists them as they stand |
| ProfileViewModel.NextBadgeScenario | app/src/main/java/com/happygreen/viewmodels/ProfileViewModel.kt:108-122 | The same state: next is the 150-point badge, then the 300-point one |
| Quiz.CountCorrect | app/src/main/java/com/happygreen/viewmodels/QuizViewModel.kt:57-58 | The number of submitted answers that hit their question's correct option never exceeds the number of answers |
| Quiz.AllCorrectScoresEverything | app/src/main/java/com/happygreen/viewmodels/QuizViewModel.kt:57-74 | Answering every question correctly scores one point per answer |
| Quiz.AllWrongScoresNothing | app/src/main/java/com/happygreen/viewmodels/QuizViewModel.kt:57-74 | Answering every question wrongly scores 0 |
| Quiz.QuizViewModel.constructor | app/src/main/java/com/happygreen/viewmodels/QuizViewModel.kt:17-23 | The default state: no questions, index 0, selection -1, score 0, not finished |
| Quiz.QuizViewModel.LoadQuizzes | app/src/main/java/com/happygreen/viewmodels/QuizViewModel.kt:39-42 | A non-empty fetched list replaces the questions, an empty one changes nothing; the invariant is kept |
| Quiz.QuizViewModel.SelectAnswer | app/src/main/java/com/happygreen/viewmodels/QuizViewModel.kt:50-52 | Only the selection changes |
| Quiz.QuizViewModel.NextQuestion | app/src/main/java/com/happygreen/viewmodels/QuizViewModel.kt:54-76 | One point iff the selection is the current question's correct option; before the last question the index advances and the selection resets to -1; on the last one the quiz finishes with the index in place; the invariant (index in range, score = correct answers so far) is kept |
| Quiz.QuizViewModel.RestartQuiz | app/src/main/java/com/happygreen/viewmodels/QuizViewModel.kt:78-87 | Index 0, selection -1, score 0, not finished, questions unchanged |
| Quiz.ScoreBounds | app/src/main/java/com/happygreen/viewmodels/QuizViewModel.kt:54-76 | While unfinished the score is at most the index; once finished, at most the number of questions |
| Quiz.FinishedScoreCountsAllAnswers | app/src/main/java/com/happygreen/viewmodels/QuizViewModel.kt:54-76 | A finished quiz has scored exactly the correct answers among all questions: all right gives the question count, all wrong gives 0 |
| Quiz.TwoQuestionRun | app/src/main/java/com/happygreen/viewmodels/QuizViewModel.kt:50-76 | Two questions with correct option 2 answered 2 then 1: finished at index 1 with score 1 |
| Challenges.FirstMatchIndex | app/src/main/java/com/happygreen/viewmodels/ChallengeViewModel.kt:264-271 | The position of the user's first record in the participant list, or none when no record has the username |
| Challenges.SelectedMembers | app/src/main/java/com/happygreen/viewmodels/ChallengeViewModel.kt:253-283 | A challenge is selected iff it sits at a position whose fetch outcome passes the test |
| Challenges.SelectedIsSubsequence | app/src/main/java/com/happygreen/viewmodels/ChallengeViewModel.kt:253-283 | The selection keeps catalogue order |
| Challenges.IsActiveByFirstMatch | app/src/main/java/com/happygreen/viewmodels/ChallengeViewModel.kt:263-279 | Active iff the fetch succeeded and the list is null or empty, or the user's first record says not completed |
| Challenges.IsActive | app/src/main/java/com/happygreen/viewmodels/ChallengeViewModel.kt:277 | The active test; characterised by IsActiveByFirstMatch: fetched, and an empty or null list or a first record of the user not completed |
| Challenges.IsCompletedBy | app/src/main/java/com/happygreen/viewmodels/ChallengeViewModel.kt:155 | The completed test of lines 155 and 218, some record of the user is completed; FindCompletedRecord is proved to compute it and CompletedChallengesCharacterised lists by it |
| Challenges.HasRecordIffFirstMatch | app/src/main/java/com/happygreen/viewmodels/ChallengeViewModel.kt:263-273 | The user has a record iff the first-match search finds one |
| Challenges.CompletedScanRecordsTrue | app/src/main/java/com/happygreen/viewmodels/ChallengeViewModel.kt:148-161 | The completed scan maps every challenge it finds completed to true |
| Challenges.CompletedScanKeys | app/src/main/java/com/happygreen/viewmodels/ChallengeViewModel.kt:148-166 | After the completed scan an id has an entry iff it had one before or its challenge was found completed |
| Challenges.CompletedScanKeepsOthers | app/src/main/java/com/happygreen/viewmodels/ChallengeViewModel.kt:148-166 | Entries of ids outside the scanned list are unchanged |
| Challenges.ActiveScanKeys | app/src/main/java/com/happygreen/viewmodels/ChallengeViewModel.kt:253-283 | After the active scan an id has an entry iff it had one before or the user has a record for its challenge |
| Challenges.ActiveScanKeepsOthers | app/src/main/java/com/happygreen/viewmodels/ChallengeViewModel.kt:253-283 | Entries of ids outside the scanned list are unchanged |
| Challenges.ActiveExcludesCompleted | app/src/main/java/com/happygreen/viewmodels/ChallengeViewModel.kt:263-277 | With at most one record per user, a challenge is never both active and completed |
| Challenges.DuplicateRecordsBreakExclusion | app/src/main/java/com/happygreen/viewmodels/ChallengeViewModel.kt:263-277 | With records [not completed, completed] for one user the challenge is both active (first match) and completed (any match) |
| Challenges.FindUserRecord | app/src/main/java/com/happygreen/viewmodels/ChallengeViewModel.kt:259-273 | The record loop of getActiveChallenges: participating iff the user has a record; the completed flag is the first record's, false when there is none |
| Challenges.FindCompletedRecord | app/src/main/java/com/happygreen/viewmodels/ChallengeViewModel.kt:216-224 | The record loop of checkCompleted: true iff some record of the user is completed |
| Challenges.ChallengeViewModel.constructor | app/src/main/java/com/happygreen/viewmodels/ChallengeViewModel.kt:17-28 | The default ChallengesUiState over the loaded catalogue, with an empty completion map |
| Challenges.ChallengeViewModel.FilterChallengesByPoints | app/src/main/java/com/happygreen/viewmodels/ChallengeViewModel.kt:133-137 | Exactly the challenges with min <= points <= max, sorted by points, a permutation of the filtered list; empty when min > max |
| Challenges.FilterChallengesKeepCatalogueOrderOnTies | app/src/main/java/com/happygreen/viewmodels/ChallengeViewModel.kt:133-137 | Challenges with the same points keep their catalogue order (sortedBy is stable) |
| Challenges.ChallengeViewModel.GetIncompleteChallenges | app/src/main/java/com/happygreen/viewmodels/ChallengeViewModel.kt:182-184 | Exactly the challenges not flagged completed, every copy of each kept, in catalogue order |
| Challenges.ChallengeViewModel.IsChallengeCompleted | app/src/main/java/com/happygreen/viewmodels/ChallengeViewModel.kt:238-240 | The cached flag, false for an id never recorded |
| Challenges.ChallengeViewModel.UpdateChallengeCompletionStatus | app/src/main/java/com/happygreen/viewmodels/ChallengeViewModel.kt:187-191 | Sets the entry for the id and changes no other key and no other field |
| Challenges.ChallengeViewModel.CheckCompleted | app/src/main/java/com/happygreen/viewmodels/ChallengeViewModel.kt:194-235 | A challenge flagged completed gives and records true; else a cached entry is returned with the map unchanged; else the scan result is recorded and returned, false on a failed fetch; the id always has an entry afterwards |
| Challenges.ChallengeViewModel.BeginLoadChallenges | app/src/main/java/com/happygreen/viewmodels/ChallengeViewModel.kt:41 | Loading shown, the error cleared, completeSuccess down; the catalogue, the lists and the completion map unchanged |
| Challenges.ChallengeViewModel.FailCompletion | app/src/main/java/com/happygreen/viewmodels/ChallengeViewModel.kt:106-127 | Each failed completion sets the error with its own prefix and stops loading; nothing else changes |
| Challenges.ChallengeViewModel.CompleteChallengeReloadFirst | app/src/main/java/com/happygreen/viewmodels/ChallengeViewModel.kt:99-105 | The corrected order (reload launched before the flag is raised): on success the id is recorded, completeSuccess stays up, loading has ended, no error |
| Challenges.CompletionSignalLost | app/src/main/java/com/happygreen/viewmodels/ChallengeViewModel.kt:99-105 | As written, a successful completion of challenge 1 ends with the completion stored but completeSuccess false |
| Challenges.CompletionSignalKept | app/src/main/java/com/happygreen/viewmodels/ChallengeViewModel.kt:99-105 | With the reload launched first, the same completion ends with completeSuccess true |
| Challenges.ChallengeViewModel.CompleteChallenge | app/src/main/java/com/happygreen/viewmodels/ChallengeViewModel.kt:84-130 | On success the id is recorded as completed, then the reload's opening update leaves loading shown, the error cleared and completeSuccess down; on each failure the map is unchanged, completeSuccess is down, loading ends and the error carries that failure's prefix |
| Challenges.ChallengeViewModel.ClassifyActive | app/src/main/java/com/happygreen/viewmodels/ChallengeViewModel.kt:254-279 | One challenge of getActiveChallenges: the result is the active test, and the map changes as the first record dictates |
| Challenges.ChallengeViewModel.ClassifyCompleted | app/src/main/java/com/happygreen/viewmodels/ChallengeViewModel.kt:149-165 | One challenge of getCompletedChallenges: the result is the any-completed-record test, recorded as true when it holds |
| Challenges.ChallengeViewModel.GetActiveChallenges | app/src/main/java/com/happygreen/viewmodels/ChallengeViewModel.kt:243-296 | The active list is the catalogue's active challenges in order, the map is the active scan's result, loading ends, nothing else changes |
| Challenges.ChallengeViewModel.GetCompletedChallenges | app/src/main/java/com/happygreen/viewmodels/ChallengeViewModel.kt:141-179 | The completed list is the catalogue's completed challenges in order, the map is the completed scan's result, loading ends, nothing else changes |
| Challenges.ActiveChallengesCharacterised | app/src/main/java/com/happygreen/viewmodels/ChallengeViewModel.kt:253-283 | A challenge is active iff some catalogue position holds it with an active fetch: an empty or null list, or a first record not completed; a failed fetch or a list without the user excludes it |
| Challenges.CompletedChallengesCharacterised | app/src/main/java/com/happygreen/viewmodels/ChallengeViewModel.kt:148-166 | A challenge is listed iff some catalogue position holds it with a completed record of the user |
| Challenges.ActiveAndCompletedDisjoint | app/src/main/java/com/happygreen/viewmodels/ChallengeViewModel.kt:141-296 | A catalogue without repeated challenges, with one record per user, gives disjoint active and completed lists |
| BadgeViewModel.FirstDelimiter | app/src/main/java/com/happygreen/viewmodels/BadgeViewModel.kt:89 | The position of the first '-' or ' '; no earlier character is one |
| BadgeViewModel.Split | app/src/main/java/com/happygreen/viewmodels/BadgeViewModel.kt:89 | split("-", " ") always gives at least one piece |
| BadgeViewModel.SplitHasSeveralPartsIffDelimiter | app/src/main/java/com/happygreen/viewmodels/BadgeViewModel.kt:89-90 | There is more than one piece iff the name holds a delimiter |
| BadgeViewModel.SplitFirstPart | app/src/main/java/com/happygreen/viewmodels/BadgeViewModel.kt:89-90 | The first piece is the text before the first delimiter, or the whole name when there is none |
| BadgeViewModel.ExtractCategory | app/src/main/java/com/happygreen/viewmodels/BadgeViewModel.kt:88-91 | The text before the first delimiter when there is one and it is longer than 2 UTF-16 units, else "Generale"; any other category is a non-empty proper prefix of the name followed by a delimiter |
| BadgeViewModel.Utf16Length | app/src/main/java/com/happygreen/viewmodels/BadgeViewModel.kt:90 | `String.length`: between the number of characters and twice it, and equal to it when every character is in the Basic Multilingual Plane |
| BadgeViewModel.ExtractCategoryEmojiPrefix | app/src/main/java/com/happygreen/viewmodels/BadgeViewModel.kt:88-91 | Two emoji before the dash are 4 UTF-16 units, so "🌍🌱-Verde" is in category "🌍🌱" |
| BadgeViewModel.ExtractCategoryWithPrefix | app/src/main/java/com/happygreen/viewmodels/BadgeViewModel.kt:87-91 | "Eco-Detective" is in category "Eco" |
| BadgeViewModel.ExtractCategoryWithoutDelimiter | app/src/main/java/com/happygreen/viewmodels/BadgeViewModel.kt:89-90 | A name without delimiter ("Riciclatore") is in "Generale" |
| BadgeViewModel.ExtractCategoryShortPrefix | app/src/main/java/com/happygreen/viewmodels/BadgeViewModel.kt:89-90 | A prefix of 2 characters ("Re Verde") gives "Generale" |
| BadgeViewModel.Categories | app/src/main/java/com/happygreen/viewmodels/BadgeViewModel.kt:82-83 | Position by position, the category of each badge name |
| BadgeViewModel.BadgeViewModel.constructor | app/src/main/java/com/happygreen/viewmodels/BadgeViewModel.kt:15-20 | The default BadgesUiState |
| BadgeViewModel.BadgeViewModel.SelectBadge | app/src/main/java/com/happygreen/viewmodels/BadgeViewModel.kt:65-67 | Only the selected badge changes |
| BadgeViewModel.BadgeViewModel.ClearSelectedBadge | app/src/main/java/com/happygreen/viewmodels/BadgeViewModel.kt:69-71 | Only the selected badge changes, to none |
| BadgeViewModel.BadgeViewModel.FilterBadgesByRequiredPoints | app/src/main/java/com/happygreen/viewmodels/BadgeViewModel.kt:74-78 | Exactly the badges whose threshold is in min..max, sorted by threshold, a permutation of the filtered list; empty when min > max |
| BadgeViewModel.BadgeViewModel.GetBadgeCategories | app/src/main/java/com/happygreen/viewmodels/BadgeViewModel.kt:81-85 | No duplicates; a category is listed iff some badge has it; categories appear in order of first occurrence |
| BadgeViewModel.FilterKeepsCatalogueOrderOnTies | app/src/main/java/com/happygreen/viewmodels/BadgeViewModel.kt:74-78 | Badges with the same threshold keep their catalogue order |
| Lists.Filter | app/src/main/java/com/happygreen/viewmodels/ProfileViewModel.kt:100-102 | Kotlin's filter: no longer than the input, and an element is kept iff it is in the input and passes the test |
| Lists.FilterCounts | app/src/main/java/com/happygreen/viewmodels/ProfileViewModel.kt:100-102 | Every occurrence of an accepted element is kept and none of a rejected one |
| Lists.FilterIsSubsequence | app/src/main/java/com/happygreen/viewmodels/ProfileViewModel.kt:100-102 | The filtered list is a subsequence of the input |
| Lists.FilterNothingPasses | app/src/main/java/com/happygreen/viewmodels/ChallengeViewModel.kt:133-137 | A test no element passes leaves an empty list |
| Lists.SortByKey | app/src/main/java/com/happygreen/viewmodels/ProfileViewModel.kt:117-119 | Kotlin's sortedBy: sorted by the key and a permutation of the input |
| Lists.SortByKeySameMembers | app/src/main/java/com/happygreen/viewmodels/ProfileViewModel.kt:117-119 | Sorting neither adds nor drops an element |
| Lists.SortByKeySortedIsIdentity | app/src/main/java/com/happygreen/viewmodels/ProfileViewModel.kt:117-119 | A list already in key order is returned unchanged |
| Lists.SortByKeyStable | app/src/main/java/com/happygreen/viewmodels/ProfileViewModel.kt:117-119 | For every key value, the elements with that key keep their order |
| Lists.Distinct | app/src/main/java/com/happygreen/viewmodels/BadgeViewModel.kt:84 | Kotlin's distinct: no duplicates and the same members as the input |
| Lists.DistinctFirstOccurrenceOrder | app/src/main/java/com/happygreen/viewmodels/BadgeViewModel.kt:84 | distinct lists members in order of first occurrence |
| KotlinInt.TruncDiv | app/src/main/java/com/example/frontend_happygreen/utils/DateUtils.kt:60-62 | Kotlin's Int division, truncating: the quotient of a non-negative dividend is the floor division; a negative one gives a non-positive quotient |
| KotlinInt.Wrap32 | app/src/main/java/com/example/frontend_happygreen/ui/screens/ProfileScreen.kt:235 | A 32-bit Int result: in range, congruent to the exact value modulo 2^32, and the value itself when it fits |
| Decimal.NatToString | app/src/main/java/com/example/frontend_happygreen/utils/DateUtils.kt:66-68 | The decimal rendering of a count in a template: digits only, no leading zero |
| Decimal.NatToStringRoundTrip | app/src/main/java/com/example/frontend_happygreen/utils/DateUtils.kt:66-68 | Reading the rendering back gives the number |
| Decimal.NatToStringInjective | app/src/main/java/com/example/frontend_happygreen/utils/DateUtils.kt:66-68 | Different counts render differently |
| DateUtils.SuccessiveDivisions | app/src/main/java/com/example/frontend_happygreen/utils/DateUtils.kt:60-62 | Dividing by 60000, then 60, then 24 with truncation equals one division by an hour or a day for a non-negative elapsed time |
| DateUtils.Bucket | app/src/main/java/com/example/frontend_happygreen/utils/DateUtils.kt:58-73 | Exactly one bucket holds, each for its range of elapsed time ("Ora" below a minute, minutes, hours, days, older than a week), and the shown count is 1..59, 1..23 or 1..6 |
| DateUtils.Label | app/src/main/java/com/example/frontend_happygreen/utils/DateUtils.kt:64-73 | "Ora" just now, the dd/MM rendering past a week, otherwise a count followed by 'm', 'h' or 'g' for its bucket; LabelReadsBack shows the count is the elapsed time in that unit |
| DateUtils.LabelReadsBack | app/src/main/java/com/example/frontend_happygreen/utils/DateUtils.kt:64-68 | The label's number reads back as the elapsed time in its unit, followed by 'm', 'h' or 'g' |
| DateUtils.FutureIsNow | app/src/main/java/com/example/frontend_happygreen/utils/DateUtils.kt:58-65 | A negative elapsed time (a future timestamp) gives "Ora" |
| DateUtils.BucketMonotone | app/src/main/java/com/example/frontend_happygreen/utils/DateUtils.kt:64-73 | An older timestamp never lands in a more recent bucket |
| DateUtils.FormatDate | app/src/main/java/com/example/frontend_happygreen/utils/DateUtils.kt:16-31 | "Data non disponibile" for null or empty; the input when parsing throws; the current time's rendering when parsing gives null; else the parsed date's |
| DateUtils.FormatCommentDate | app/src/main/java/com/example/frontend_happygreen/utils/DateUtils.kt:48-77 | "Ora" for null or empty and when parsing throws; the input when parsing gives null; else the label of the elapsed time |
| DateUtils.CommentDateScenarios | app/src/main/java/com/example/frontend_happygreen/utils/DateUtils.kt:48-77 | 90 minutes gives "1h", 2 minutes "2m", an unparsable string "Ora" |
| CommentScreen.FormatCommentDate | app/src/main/java/com/example/frontend_happygreen/ui/screens/CommentScreen.kt:430-455 | The input when parsing gives null or throws; else the same label as the shared helper |
| CommentScreen.FormatPostDate | app/src/main/java/com/example/frontend_happygreen/ui/screens/CommentScreen.kt:458-469 | The input when parsing gives null or throws; else the formatted date |
| CommentScreen.CommentDateCopiesAgree | app/src/main/java/com/example/frontend_happygreen/ui/screens/CommentScreen.kt:430-455 | The two comment-date helpers agree on non-empty input unless parsing throws, where this one gives the input and the shared one "Ora" |
| CommentScreen.Trim | app/src/main/java/com/example/frontend_happygreen/ui/screens/CommentScreen.kt:109 | trim(): the text between the leading and the trailing whitespace, starting and ending with a non-whitespace character |
| CommentScreen.IsWhitespace | app/src/main/java/com/example/frontend_happygreen/ui/screens/CommentScreen.kt:109 | The ASCII characters Kotlin's `isWhitespace` accepts, 9 to 13 and 28 to 32 |
| CommentScreen.IsBlank | app/src/main/java/com/example/frontend_happygreen/ui/screens/CommentScreen.kt:131 | `isBlank`: every character is whitespace; TrimEmptyIffBlank shows the trimmed text is empty exactly then |
| CommentScreen.TrimEmptyIffBlank | app/src/main/java/com/example/frontend_happygreen/ui/screens/CommentScreen.kt:109 | The trimmed text is empty iff the text is all whitespace |
| CommentScreen.TrimIdempotent | app/src/main/java/com/example/frontend_happygreen/ui/screens/CommentScreen.kt:109-117 | Trimming the trimmed text changes nothing |
| CommentScreen.CommentComposer.constructor | app/src/main/java/com/example/frontend_happygreen/ui/screens/CommentScreen.kt:40-42 | An empty text and no submission in progress |
| CommentScreen.CommentComposer.SendEnabled | app/src/main/java/com/example/frontend_happygreen/ui/screens/CommentScreen.kt:131 | Enabled iff the text has a non-whitespace character and nothing is being sent |
| CommentScreen.CommentComposer.Edit | app/src/main/java/com/example/frontend_happygreen/ui/screens/CommentScreen.kt:95-101 | The field, enabled only while nothing is being sent, sets the text |
| CommentScreen.CommentComposer.Submit | app/src/main/java/com/example/frontend_happygreen/ui/screens/CommentScreen.kt:108-118 | A blank text sends nothing and leaves the flag; otherwise the trimmed, non-empty text is sent and the flag is raised; the text stays |
| CommentScreen.CommentComposer.OnSuccess | app/src/main/java/com/example/frontend_happygreen/ui/screens/CommentScreen.kt:119-123 | The text is cleared and the flag lowered |
| CommentScreen.CommentComposer.OnError | app/src/main/java/com/example/frontend_happygreen/ui/screens/CommentScreen.kt:124-127 | The flag is lowered and the text kept |
| CommentScreen.RetryAfterError | app/src/main/java/com/example/frontend_happygreen/ui/screens/CommentScreen.kt:108-131 | "  ciao " fails once and succeeds on retry: "ciao" is sent twice and the box ends empty and unlocked |
| ObjectScanResultScreen.GetSustainabilityDescription | app/src/main/java/com/example/frontend_happygreen/ui/screens/ObjectScanResultScreen.kt:399-406 | High impact iff 1..3, moderate iff 4..7, low impact iff 8..10, invalid iff <= 0 or >= 11 |
| ObjectScanResultScreen.DescriptionMatchesBarColour | app/src/main/java/com/example/frontend_happygreen/ui/screens/ObjectScanResultScreen.kt:399-406 | On 1..10 the text and the bar colour agree except at 4, drawn red with the moderate text |
| ObjectScanResultScreen.InvalidScoreStillDrawsBar | app/src/main/java/com/example/frontend_happygreen/ui/screens/ObjectScanResultScreen.kt:404 | Score 0 gets the invalid text but a red bar at 1 |
| ScreenParts.CoerceIn | app/src/main/java/com/example/frontend_happygreen/ui/screens/ScreenParts.kt:19 | coerceIn: in range, the value itself when inside, the violated bound otherwise |
| ScreenParts.NormalizedScore | app/src/main/java/com/example/frontend_happygreen/ui/screens/ScreenParts.kt:19 | Always in 1..10, unchanged inside it, 1 below and 10 above |
| ScreenParts.ScoreColour | app/src/main/java/com/example/frontend_happygreen/ui/screens/ScreenParts.kt:19-24 | Green iff score >= 8, amber iff 5..7, red iff <= 4 |
| ScreenParts.ScoreColourArgb | app/src/main/java/com/example/frontend_happygreen/ui/screens/ScreenParts.kt:20-24 | The bar is drawn 0xFF4CAF50 from score 8, 0xFFFFC107 from 5 to 7, 0xFFF44336 up to 4 |
| ScreenParts.ScoreLabel | app/src/main/java/com/example/frontend_happygreen/ui/screens/ScreenParts.kt:31 | The caption ends in "/10"; ScoreLabelReadsBack shows the number before it is the clamped score |
| ScreenParts.ScoreLabelReadsBack | app/src/main/java/com/example/frontend_happygreen/ui/screens/ScreenParts.kt:31 | The label is the normalised score in digits followed by "/10" |
| ScreenParts.ExtremeScores | app/src/main/java/com/example/frontend_happygreen/ui/screens/ScreenParts.kt:19-31 | A score <= 0 shows "1/10" in red; a score >= 11 shows "10/10" in green |
| BarcodeScanScreen.GetProductSustainabilityDescription | app/src/main/java/com/example/frontend_happygreen/ui/screens/BarcodeScanScreen.kt:476-484 | Excellent iff eco-friendly and >= 8; eco-friendly iff eco-friendly and < 8; low impact iff not eco and >= 8; moderate iff not eco and 5..7; high impact iff not eco and < 5 |
| BarcodeScanScreen.NonEcoDescriptionFollowsBarColour | app/src/main/java/com/example/frontend_happygreen/ui/screens/BarcodeScanScreen.kt:480-482 | For a product that is not eco-friendly the text follows the bar colour exactly |
| BarcodeScanScreen.DescriptionScenarios | app/src/main/java/com/example/frontend_happygreen/ui/screens/BarcodeScanScreen.kt:479-480 | (2, eco) gives the eco-friendly text; (15, not eco) the low-impact one |
| BarcodeScanScreen.SelectView | app/src/main/java/com/example/frontend_happygreen/ui/screens/BarcodeScanScreen.kt:56-167 | A product shows its details even with an error; else an error shows; else a barcode shows searching or not found by the scanning flag; the camera shows iff there is no product, error or barcode |
| BarcodeScanScreen.ScanningFlagMatters | app/src/main/java/com/example/frontend_happygreen/ui/screens/BarcodeScanScreen.kt:104-117 | Flipping the scanning flag changes the screen iff only a barcode is present |
| ObjectScan.LowerString | app/src/main/java/com/happygreen/viewmodels/ObjectScanViewModel.kt:135-137 | Character by character lower-casing, same length |
| ObjectScan.ContainsIffOccurs | app/src/main/java/com/happygreen/viewmodels/ObjectScanViewModel.kt:136-137 | The left-to-right search succeeds iff the needle occurs somewhere |
| ObjectScan.MatchIsMutualContainment | app/src/main/java/com/happygreen/viewmodels/ObjectScanViewModel.kt:134-138 | An object matches iff, ignoring case, its name contains the label or the label contains its name |
| ObjectScan.Matches | app/src/main/java/com/happygreen/viewmodels/ObjectScanViewModel.kt:134-138 | The `find` test; MatchIsMutualContainment shows it is containment either way, ignoring case |
| ObjectScan.EmptyNameMatchesEveryLabel | app/src/main/java/com/happygreen/viewmodels/ObjectScanViewModel.kt:136 | An object with an empty name matches every label |
| ObjectScan.FirstMatch | app/src/main/java/com/happygreen/viewmodels/ObjectScanViewModel.kt:134-138 | No earlier object matches, and the one at the position does unless the list is exhausted |
| ObjectScan.FindMatch | app/src/main/java/com/happygreen/viewmodels/ObjectScanViewModel.kt:134-138 | None iff no object matches; otherwise the first matching object in list order |
| ObjectScan.ExactNameIsFound | app/src/main/java/com/happygreen/viewmodels/ObjectScanViewModel.kt:135 | An object whose name equals the label ignoring case is found, it or an earlier match |
| ObjectScan.FirstMatchInListOrder | app/src/main/java/com/happygreen/viewmodels/ObjectScanViewModel.kt:134-138 | "BOTTLE" finds "Bottle" before "bottle cap" |
| ObjectScan.ObjectScanViewModel.constructor | app/src/main/java/com/happygreen/viewmodels/ObjectScanViewModel.kt:25-31 | The default ObjectScanState, nothing recorded |
| ObjectScan.ObjectScanViewModel.AnalyzeImage | app/src/main/java/com/happygreen/viewmodels/ObjectScanViewModel.kt:54-73 | Scanning starts with the error cleared; no image stops it with "Immagine non disponibile"; a conversion failure stops it with the analysis error; other fields unchanged |
| ObjectScan.ObjectScanViewModel.HandleAnalysisError | app/src/main/java/com/happygreen/viewmodels/ObjectScanViewModel.kt:118-126 | Scanning stops with "Errore nell'analisi: " and the message |
| ObjectScan.ObjectScanViewModel.OnLabels | app/src/main/java/com/happygreen/viewmodels/ObjectScanViewModel.kt:89-108 | With labels, the top label's text and confidence are stored and its text is looked up; without, the error "Nessun oggetto riconosciuto"; scanning stops either way |
| ObjectScan.ObjectScanViewModel.FetchObjectDetails | app/src/main/java/com/happygreen/viewmodels/ObjectScanViewModel.kt:128-165 | On success the details are the first match or none, and a scan is recorded iff there is a match, with the stored confidence or 0; each failed response sets its own error and changes nothing else |
| ObjectScan.ObjectScanViewModel.ResetScanState | app/src/main/java/com/happygreen/viewmodels/ObjectScanViewModel.kt:167-169 | Back to the default state |
| ObjectScan.ScanBottle | app/src/main/java/com/happygreen/viewmodels/ObjectScanViewModel.kt:54-165 | Frame, label "BOTTLE" at 0.9, catalogue lookup: "Bottle" is shown and one scan (1, 0.9) recorded |
| Posts.NormalisePost | app/src/main/java/com/happygreen/viewmodels/PostViewModel.kt:40-43 | A null author becomes "Anonimo", a null creation date the current date; present values and every other field are kept |
| Posts.NormalisePosts | app/src/main/java/com/happygreen/viewmodels/PostViewModel.kt:39-44 | Same length and order, each post normalised |
| Posts.NormaliseIdempotent | app/src/main/java/com/happygreen/viewmodels/PostViewModel.kt:39-44 | Normalising a normalised list changes nothing, whatever the date |
| Posts.CompletePostsUntouched | app/src/main/java/com/happygreen/viewmodels/PostViewModel.kt:39-44 | Posts that arrive with author and date are kept exactly |
| Posts.CompletePost | app/src/main/java/com/happygreen/viewmodels/PostViewModel.kt:137-145 | The author is the stored username ("Utente" if none) iff the server's is null or empty; both dates fall back to the current date only when null; every other field is kept |
| Posts.CompletedPostHasAuthor | app/src/main/java/com/happygreen/viewmodels/PostViewModel.kt:137-142 | The completed post has a non-empty author unless the stored username is itself empty |
| Posts.CompletePostIdempotent | app/src/main/java/com/happygreen/viewmodels/PostViewModel.kt:141-145 | Completing a completed post again changes nothing |
| Posts.EmptyAuthorHandledDifferently | app/src/main/java/com/happygreen/viewmodels/PostViewModel.kt:39-145 | An empty author is kept by the feed's rule but replaced by the created post's rule |
| Posts.PostViewModel.constructor | app/src/main/java/com/happygreen/viewmodels/PostViewModel.kt:17-31 | The default PostsUiState and the session store's instance |
| Posts.PostViewModel.BeginLoadPosts | app/src/main/java/com/happygreen/viewmodels/PostViewModel.kt:35 | The group is stored, the error cleared and loading shown |
| Posts.PostViewModel.ReceivePosts | app/src/main/java/com/happygreen/viewmodels/PostViewModel.kt:36-68 | On success the posts are the normalised list (empty when the body is null); on each failure the posts are kept and the error has that failure's prefix; loading ends |
| Posts.PostViewModel.BeginCreatePost | app/src/main/java/com/happygreen/viewmodels/PostViewModel.kt:118 | Loading shown and the error cleared |
| Posts.PostViewModel.ReceiveCreatedPost | app/src/main/java/com/happygreen/viewmodels/PostViewModel.kt:130-170 | On success with a body the completed post is prepended to the unchanged posts; otherwise the posts are unchanged; on success the reload's opening update sets the current group to the post's group and clears the error, and the reload's fetch is requested; a failure keeps the group and the error and reports its own message; loading ends in every case (the `finally`) |
| Posts.CreateThenFail | app/src/main/java/com/happygreen/viewmodels/PostViewModel.kt:106-172 | A created post without author, as "anna", then a failed creation: one post, authored by "anna", dated now, the current group the post's group, loading ended |
| Session.GetString | app/src/main/java/com/happygreen/data/TokenManager.kt:19-25 | getString(key, null): a value iff the key is stored, and then the stored one |
| Session.TokenManager.constructor | app/src/main/java/com/happygreen/data/TokenManager.kt:7-8 | The preferences already on the device |
| Session.TokenManager.IsLoggedIn | app/src/main/java/com/happygreen/data/TokenManager.kt:49-51 | Logged in iff an access token is stored |
| Session.TokenManager.GetAccessToken | app/src/main/java/com/happygreen/data/TokenManager.kt:19-21 | A value iff the access token is stored, and then the stored one |
| Session.TokenManager.GetRefreshToken | app/src/main/java/com/happygreen/data/TokenManager.kt:23-25 | A value iff the refresh token is stored, and then the stored one |
| Session.TokenManager.GetUsername | app/src/main/java/com/happygreen/data/TokenManager.kt:36-38 | A value iff the username is stored, and then the stored one |
| Session.TokenManager.SaveTokens | app/src/main/java/com/happygreen/data/TokenManager.kt:11-17 | Both tokens written, every other key (the username included) unchanged; the getters return the new tokens |
| Session.TokenManager.SaveUserData | app/src/main/java/com/happygreen/data/TokenManager.kt:27-38 | All three keys written, every other key unchanged; getUsername returns the new username afterwards |
| Session.TokenManager.ClearTokens | app/src/main/java/com/happygreen/data/TokenManager.kt:40-51 | The three keys removed and nothing else; every getter returns null and the user is logged out |
| Session.TokenManagerHolder.constructor | app/src/main/java/com/happygreen/data/TokenManager.kt:55-56 | No instance yet |
| Session.TokenManagerHolder.Initialize | app/src/main/java/com/happygreen/data/TokenManager.kt:59-63 | The first call creates the instance over the stored preferences; later calls keep it |
| Session.TokenManagerHolder.GetInstance | app/src/main/java/com/happygreen/data/TokenManager.kt:66-68 | Fails with the IllegalStateException's message iff initialize has not run; otherwise the instance |
| Session.SessionLifecycle | app/src/main/java/com/happygreen/data/TokenManager.kt:11-68 | Initialise twice, log in, log out: one instance throughout, getUsername gives "anna" while logged in, logged out at the end |
| Quiz.CountCorrectSnoc | app/src/main/java/com/happygreen/viewmodels/QuizViewModel.kt:57-58 | Scoring one more answer adds 1 iff it picks that question's correct option |
| Challenges.RecordFirstMatchKeys | app/src/main/java/com/happygreen/viewmodels/ChallengeViewModel.kt:264-273 | The per-challenge update of getActiveChallenges adds an entry exactly for a challenge where the user has a record |

## Left out

- Network loading with no decision logic beyond storing the answer: `loadBadges`, `loadChallenges`, the fetch inside `loadQuizzes`, `loadUserProfile`, `loadAvailableBadges`, `refreshProfile`, `getUserProfile`, `getPostDetails`. Their results are inputs of the modelled state updates.
- The fetch of the reload that `completeChallenge` and `createPost` launch after a success: the reload's opening update, which runs at once on the main dispatcher, is modelled (`BeginLoadChallenges`, `BeginLoadPosts`); its network call and the updates after it are not, because the reply is a later, separate input (`Posts.PostViewModel.ReceivePosts` for posts).
- `analyzeBitmap`, `clearSelectedPost` and the `selectedPost` field: they only hand a value to the platform or clear a field that nothing in the model reads.
- Floating point: the level progress is kept as an exact fraction (`ProfileScreen.Fraction`) instead of a `Float` quotient; the score bar's width fraction (`ScreenParts.kt` line 47) is not modelled; the scan confidence is a value that is only copied.
- Date parsing and formatting: they are the platform's, so they are parameters. So are the current time and the image labeller.
- Coroutines and concurrency: each launched block is split into a start step and a completion step that the caller runs in order; interleavings are not modelled, nor is the `synchronized` block of `TokenManager.initialize` (a single thread is assumed).
- Unicode: `isWhitespace`, `isBlank`, `trim` and `lowercase` are modelled on ASCII.
- DateUtils.FormatCommentDate: the `Long` elapsed milliseconds are unbounded integers, so an overflow of `now - date` is not modelled.
- Quiz.QuizViewModel.NextQuestion: requires at least one question and an unfinished quiz, because the quiz screen shows the button only then; the view model itself would index out of range on an empty list.
- The body of the `recordScan` call in `fetchObjectDetails` is sent and never read, so only the request is modelled.
- Exception messages are modelled as the text the app shows; a missing message is the text "null", as Kotlin's string template renders it.
- Posts.PostViewModel.ReceiveCreatedPost: the HTTP error's `errorBody()` is modelled as a text given with the response.
- Logging (`Log.d`, `Log.e`), navigation, layout and every composable other than the decisions cited above.

## Findings

| source | as written | input that shows it | evidently intended | confidence | as-written member | corrected member |
|---|---|---|---|---|---|---|
| app/src/main/java/com/example/frontend_happygreen/ui/screens/ProfileScreen.kt:235 | the next-level threshold is `level * 100` in 32-bit `Int` arithmetic | 2147483600 points: level 21474837, and `level * 100` wraps to -2147483596, a threshold below the points | the next multiple of 100 above the points | not executed | ProfileScreen.ThresholdAsWrittenWraps | ProfileScreen.NextLevelThreshold |
| app/src/main/java/com/happygreen/viewmodels/ChallengeViewModel.kt:99-105 | after a successful completion, `completeSuccess = true` (line 102) is followed at once by `loadChallenges()` (line 105), whose opening update on the main dispatcher (line 41) sets it back to false before any collector runs, so the screen's effect on `completeSuccess` (`ChallengeScreen.kt` line 128) does not fire | a successful completion of any challenge: the state at the end has the completion stored and `completeSuccess` false | the screen sees `completeSuccess` true after a success | not executed; depends on `viewModelScope` starting the nested coroutine undispatched on `Dispatchers.Main.immediate` | Challenges.CompletionSignalLost | Challenges.ChallengeViewModel.CompleteChallengeReloadFirst |
