# kana-sensei-quiz: the decision logic, modelled in Dafny

A browser app for learning Japanese. Most of it is UI and backend glue. This
project models the four pieces that make decisions, and proves what they
promise:

- **Pronunciation scorer and drill** (`src/pages/PronunciationPractice.tsx`).
  The scorer lower-cases both strings and strips white space. Equal results
  score 1. Otherwise the score is the count of agreeing positions below the
  shorter length, divided by the longer length. A score above 0.6 passes. The
  drill scores each new transcript against the current phrase. A delayed
  continuation then moves on, or reports the total after the last phrase.
  Modules `Text`, `Scoring` and `Drill`.
- **Quiz progression** (`src/pages/Quiz.tsx`). There is a name prompt, then at
  most ten questions. An answer is ignored while feedback is shown.
  Otherwise it is recorded and scored. A delayed continuation advances to the
  next question or builds the saved result. Module `Quiz`.
- **Result tiers** (`src/pages/Results.tsx`). The percentage decides between
  "Perfect Score!", "Great Job!" and "Keep Learning!". Module `Results`.
- **Voice selection** (`src/hooks/useSpeechSynthesis.ts`). The hook keeps the
  Japanese voices. On load it picks the persisted voice name if that voice is
  offered, and otherwise the first Japanese voice. It also has `speak`, `stop`
  and `selectVoice`. Module `Speech`.

Scores are exact fractions `num / den` (module `Scoring`) or exact reals
(module `Results`). There is no floating point. Each `setTimeout`
continuation is an explicit `Advance` step that runs on the values its
closure captured. The browser's voice list is a parameter. Local storage is an
`Option<string>` field. Calls to the platform synthesiser are recorded in a
sequence.

## Model

| member | source | states |
|---|---|---|
| `Text.LowerAll` | src/pages/PronunciationPractice.tsx:88-89 | lower-casing keeps the length and lower-cases each character in place |
| `Text.RemoveSpaces` | src/pages/PronunciationPractice.tsx:88-89 | removing `\s` leaves no white space and never lengthens the string |
| `Text.RemoveSpacesKeepsTheRest` | src/pages/PronunciationPractice.tsx:88-89 | a character occurs in the stripped string exactly when it occurs in the input and is not white space |
| `Text.RemoveSpacesAppend` | src/pages/PronunciationPractice.tsx:88-89 | stripping a concatenation strips each part and keeps their order, so the kept characters stay in input order |
| `Text.Trim` | src/pages/Quiz.tsx:108 | the trimmed name is no longer than the name and neither starts nor ends with white space |
| `Text.TrimEmptyIffBlank` | src/pages/Quiz.tsx:108 | `name.trim()` is empty exactly when every character of the name is white space |
| `Scoring.Normalize` | src/pages/PronunciationPractice.tsx:88-89 | the normal form holds no white space and is never longer than the input |
| `Scoring.Similarity` | src/pages/PronunciationPractice.tsx:87-101 | the similarity of any two strings has a positive denominator and lies in [0, 1] as a ratio |
| `Scoring.Passes` | src/pages/PronunciationPractice.tsx:65 | a passing score has more than half of the longer length matching |
| `Scoring.Score` | src/pages/PronunciationPractice.tsx:91-100 | the score's denominator is positive (no division by zero) and its numerator never exceeds it |
| `Scoring.CountMatches` | src/pages/PronunciationPractice.tsx:96-98 | the match count never exceeds the number of positions compared |
| `Scoring.CalculateSimilarity` | src/pages/PronunciationPractice.tsx:87-101 | the loop that counts matches yields exactly the specified similarity |
| `Scoring.SimilarityBounded` | src/pages/PronunciationPractice.tsx:93-100 | the similarity, as a real number, lies in [0, 1] |
| `Scoring.ValueInUnitInterval` | src/pages/PronunciationPractice.tsx:100 | a ratio with numerator at most its positive denominator is in [0, 1], and is 1 only when the two are equal |
| `Scoring.EqualNormalFormsScoreOne` | src/pages/PronunciationPractice.tsx:88-91 | strings equal after normalisation score exactly 1 |
| `Scoring.ScoreIsOneIffEqual` | src/pages/PronunciationPractice.tsx:91-100 | the score is 1 if and only if the normalised strings are equal |
| `Scoring.SimilaritySymmetric` | src/pages/PronunciationPractice.tsx:87-101 | swapping the two arguments gives the same score |
| `Scoring.NormalizeIdempotent` | src/pages/PronunciationPractice.tsx:88-89 | normalising an already normalised string changes nothing |
| `Scoring.NormalizedInputScoresAlike` | src/pages/PronunciationPractice.tsx:88-89 | scoring either input after normalising it gives the same score |
| `Scoring.InsertedSpaceIgnored` | src/pages/PronunciationPractice.tsx:88 | inserting a white-space character anywhere in the transcript leaves the score unchanged |
| `Scoring.LowerCasingIgnored` | src/pages/PronunciationPractice.tsx:88 | lower-casing the transcript first leaves the score unchanged |
| `Scoring.DisagreeEverywhereScoresZero` | src/pages/PronunciationPractice.tsx:96-100 | distinct normalised strings that differ at every shared position score 0 |
| `Scoring.SameLengthScore` | src/pages/PronunciationPractice.tsx:93-100 | normalised strings of one length n that differ in k positions score (n - k) / n |
| `Scoring.GreetingExample` | src/pages/PronunciationPractice.tsx:87-101 | "こんにちは" against "こんにちわ" scores 4/5 |
| `Scoring.DisjointExample` | src/pages/PronunciationPractice.tsx:87-101 | "abc" against "xyz" scores 0/3 |
| `Scoring.PassesIffAboveSixTenths` | src/pages/PronunciationPractice.tsx:65 | the integer test 5·num > 3·den holds exactly when the score exceeds 0.6 |
| `Scoring.ThresholdIsStrict` | src/pages/PronunciationPractice.tsx:65 | a score of exactly 0.6 fails and 0.60001 passes |
| `Drill.CountPassed` | src/pages/PronunciationPractice.tsx:65-70 | the number of passed attempts never exceeds the number of attempts |
| `Drill.AttemptKeepsInv` | src/pages/PronunciationPractice.tsx:62-70 | scoring an attempt on the current phrase keeps the drill invariant: the score counts the passed attempts, and the newest continuation's captured score plus its bonus equals that score |
| `Drill.FireKeepsInv` | src/pages/PronunciationPractice.tsx:72-76 | running the oldest continuation keeps the invariant, and the phrase index stays put or advances by one |
| `Drill.DrillSession.constructor` | src/pages/PronunciationPractice.tsx:19-22 | the drill starts at phrase 0 with score 0, no feedback and nothing scheduled |
| `Drill.DrillSession.ScoreAttempt` | src/pages/PronunciationPractice.tsx:63-70 | scoring a transcript sets the feedback from the pass test, adds 1 to the score only on a pass, and queues a continuation capturing the phrase index, the pre-attempt score and the verdict |
| `Drill.DrillSession.OnTranscript` | src/pages/PronunciationPractice.tsx:61-72 | a new non-empty transcript with a current phrase sets the feedback from the pass test, adds 1 to the score only on a pass, and schedules a continuation; anything else leaves score and feedback alone |
| `Drill.DrillSession.Advance` | src/pages/PronunciationPractice.tsx:72-83 | the continuation clears the feedback and moves to the next phrase; after the last phrase it reports the captured score plus 1 on a pass, which is the number of passed attempts up to and including the attempt that scheduled it; when it was the only continuation pending, that is the current score; the index never moves back and stays below the number of phrases |
| `Quiz.TakeQuestions` | src/pages/Quiz.tsx:50 | a quiz holds at most ten questions, the first ten of the shuffled list or all of them |
| `Quiz.CountCorrect` | src/pages/Quiz.tsx:66-68 | the number of correct answers never exceeds the number of answers |
| `Quiz.QuizSession.constructor` | src/pages/Quiz.tsx:26-33 | the quiz starts at question 0 with score 0, nothing selected and the name prompt shown |
| `Quiz.QuizSession.SetUserName` | src/pages/Quiz.tsx:150-151 | typing into the shown name field sets the name |
| `Quiz.QuizSession.StartQuiz` | src/pages/Quiz.tsx:107-113 | a blank name is refused and the prompt stays; any other name closes the prompt |
| `Quiz.QuizSession.HandleAnswer` | src/pages/Quiz.tsx:60-74 | answers are taken only once the name prompt is closed with a non-blank name; nothing changes while feedback is shown; otherwise the answer is selected, feedback shown, the score rises by exactly 1 iff the answer is the correct one, and the continuation is scheduled |
| `Quiz.QuizSession.Advance` | src/pages/Quiz.tsx:74-96 | the continuation moves to the next question and clears the selection and feedback, or on the last question builds the result under the non-blank name that closed the prompt; the saved score is the number of correct answers and never exceeds the number of questions; the index stays within the questions |
| `Quiz.SavedScoreAsWritten` | src/pages/Quiz.tsx:92 | line 92 adds 1 to the captured score exactly when the captured selection is the correct answer, and adds nothing when no answer is selected |
| `Quiz.SavedScore` | src/pages/Quiz.tsx:92 | the intended saved score adds 1 to the captured score exactly when the last answer is the correct one |
| `Quiz.SavedScoreAsWrittenDropsLastPoint` | src/pages/Quiz.tsx:92 | with the selection seen by the continuation's closure (none), line 92 adds nothing for a correct last answer, while the intended score adds 1 |
| `Quiz.LastCorrectAnswerLost` | src/pages/Quiz.tsx:60-96 | a one-question quiz answered correctly saves 1 in the model, while line 92 as written yields 0 |
| `Results.Percentage` | src/pages/Results.tsx:73 | the percentage is finite exactly when there are questions, NaN exactly for 0 of 0, and never negative |
| `Results.IntegerTestsMatchPercentage` | src/pages/Results.tsx:73-75 | `score == total` (with total > 0) and `100·score >= 70·total` decide exactly `percentage === 100` and `percentage >= 70`, including the NaN and Infinity cases when total is 0 |
| `Results.PerfectIsGood` | src/pages/Results.tsx:74-75 | a perfect percentage is always a good one |
| `Results.Classify` | src/pages/Results.tsx:73-91 | the tier is Perfect iff the percentage is 100, Great iff it is at least 70 but not 100, Keep Learning iff it is below 70; exactly one holds |
| `Results.ClassifyInIntegers` | src/pages/Results.tsx:73-75 | with total > 0, Perfect iff score == total, and not Keep Learning iff 10·score >= 7·total |
| `Results.Heading` | src/pages/Results.tsx:83-91 | the heading is "Perfect Score!" exactly when every question was answered correctly, and "Keep Learning!" exactly when fewer than 70% were |
| `Results.Emoji` | src/pages/Results.tsx:83-91 | the emoji is 🎉 exactly when every question was answered correctly, and 📚 exactly when fewer than 70% were |
| `Results.HeadingAndEmojiAgree` | src/pages/Results.tsx:83-91 | the emoji chain and the heading chain always show the same tier |
| `Speech.IsJapanese` | src/hooks/useSpeechSynthesis.ts:11 | a voice is Japanese exactly when its language tag begins with the letters "ja" |
| `Speech.JapaneseVoices` | src/hooks/useSpeechSynthesis.ts:11 | the list keeps exactly the voices whose language starts with "ja" |
| `Speech.JapaneseVoicesAppend` | src/hooks/useSpeechSynthesis.ts:11 | the filter keeps the original order |
| `Speech.FindByName` | src/hooks/useSpeechSynthesis.ts:17 | the search finds the first voice with the name, or reports that none has it |
| `Speech.ChooseVoice` | src/hooks/useSpeechSynthesis.ts:15-18 | the chosen voice is one of the Japanese voices; it is the first one with the persisted name when that name is non-empty and offered, and the first Japanese voice otherwise |
| `Speech.SelectionAfterLoad` | src/hooks/useSpeechSynthesis.ts:14-19 | a selected voice, or an empty Japanese list, leaves the selection unchanged; otherwise a Japanese voice is selected |
| `Speech.SelectionAfterLoadAsWritten` | src/hooks/useSpeechSynthesis.ts:8-24 | as evaluated on a later voices-changed event, any non-empty Japanese list replaces the selection with a Japanese voice |
| `Speech.ReloadOverridesSelectionAsWritten` | src/hooks/useSpeechSynthesis.ts:14-24 | with two voices named alike and the second selected, the as-written reload switches to the first, and the guarded one keeps the second |
| `Speech.SavedNameRoundTrip` | src/hooks/useSpeechSynthesis.ts:15-17 | loading with a persisted Japanese voice's non-empty name picks a voice of that name, and that very voice when names are unique |
| `Speech.SpeechSynthesis.constructor` | src/hooks/useSpeechSynthesis.ts:4-6 | the hook starts with no voices, no selection and not speaking |
| `Speech.SpeechSynthesis.LoadVoices` | src/hooks/useSpeechSynthesis.ts:9-21 | the voice list becomes the Japanese voices; with nothing selected and some Japanese voice, a member of that list is selected |
| `Speech.SpeechSynthesis.Speak` | src/hooks/useSpeechSynthesis.ts:31-47 | with no voice selected nothing happens; otherwise a cancel and then a "ja-JP" utterance with the selected voice go to the synthesiser |
| `Speech.SpeechSynthesis.UtteranceStarted` | src/hooks/useSpeechSynthesis.ts:42 | an utterance that starts sets `speaking` |
| `Speech.SpeechSynthesis.UtteranceEnded` | src/hooks/useSpeechSynthesis.ts:43-44 | an utterance that ends or fails clears `speaking` |
| `Speech.SpeechSynthesis.Stop` | src/hooks/useSpeechSynthesis.ts:49-52 | stopping cancels the synthesiser and always leaves `speaking` false |
| `Speech.SpeechSynthesis.SelectVoice` | src/hooks/useSpeechSynthesis.ts:54-57 | the voice is selected and its name persisted |
| `Speech.SpeechSynthesis.Unmount` | src/hooks/useSpeechSynthesis.ts:26-28 | unmounting cancels the synthesiser |
| `Speech.SelectionSurvivesReload` | src/hooks/useSpeechSynthesis.ts:54-57 | after `selectVoice` of a Japanese voice with a non-empty name, a fresh load selects a voice of that name |

## Findings

| source | as written | input that shows it | evidently intended | confidence | as-written member | corrected member |
|---|---|---|---|---|---|---|
| src/pages/Quiz.tsx:92 | the saved score is `score + (selectedAnswer === correct ? 1 : 0)`, evaluated in the closure of the render that handled the last answer; there `score` is the pre-answer score and `selectedAnswer` is still `null` | a one-question quiz answered correctly: saved score 0 of 1 | the score saved is the number of correct answers, last one included | high (not executed) | `Quiz.SavedScoreAsWritten`, `Quiz.LastCorrectAnswerLost` | `Quiz.SavedScore`, `Quiz.QuizSession.Advance` |
| src/hooks/useSpeechSynthesis.ts:14 | `loadVoices` is created once at mount, so its `!selectedVoice` guard reads the mount-time selection, which is always empty; every voices-changed event re-picks a voice | Japanese voices `Kyoko/ja-JP` and `Kyoko/ja`, the second selected and persisted by a direct `selectVoice(voice)` call; a voices-changed event selects the first. The settings screen (src/components/VoiceSettings.tsx:31-33) selects by name with `find`, which returns the first voice of that name, so through it the re-pick only ever lands on a voice of the same name while that name is still offered | a voice already selected is kept | medium (not executed) | `Speech.SelectionAfterLoadAsWritten`, `Speech.ReloadOverridesSelectionAsWritten` | `Speech.SelectionAfterLoad`, `Speech.SpeechSynthesis.LoadVoices` |

## Left out

- Rendering, styling and routing, including the navigation after saving and after the drill ends, and the toast notifications of the quiz page (src/pages/Quiz.tsx:69, 71, 109).
- The backend's queries, inserts and auth: phrase and question fetches, result insert and read, and their error notifications. Fetched data enters as constructor arguments.
- `Math.random`: the shuffle order is a parameter, and the random share id is not part of `QuizResult`.
- `setTimeout` delays. A continuation is an explicit `Advance` step. Drill continuations fire in the order they were scheduled.
- Drill.DrillSession.OnTranscript: the speech recogniser is not part of this model. Its transcript is a parameter.
- `toFixed` display, the rate and pitch arguments of `speak` and the sliders that set them, and IEEE rounding. The percentage uses exact reals, which agree with JavaScript's doubles for the scores a ten-question quiz produces.
- Text.ToLower: maps only the ASCII letters. Full Unicode case mapping is not modelled, including mappings that change a string's length.
- Strings are sequences of Unicode scalar values rather than UTF-16 code units, so characters outside the Basic Multilingual Plane count as one position here and two in the browser. White space is JavaScript's `\s` set, written out.
- The platform's `onstart`, `onend` and `onerror` events (src/hooks/useSpeechSynthesis.ts:42-44) become the explicit `UtteranceStarted` and `UtteranceEnded` steps. The events themselves are not modelled.
- Quiz.QuizSession.HandleAnswer: requires a non-empty question list and a closed name prompt. The page renders answer buttons only then (src/pages/Quiz.tsx:138-163, 221), and the handler would fail on `questions[currentIndex]` without questions.
