# Quiz app core in Dafny

This project models the logic of a browser quiz application. The model has four parts:

- **The quiz session** (`QuizGenerator`, quiz.js). It generates templated questions in four batches and shuffles them with Fisher–Yates. It grades answers by option index, keyword substring or fragment, and keeps a running score with an append-only list of answer records. It also moves a current-question index and reports the score.
- **The voice-command interpreter** (`VoiceController`, voice.js). A transcript is routed as follows:
  - a bare option token is dispatched first;
  - otherwise the ordered table of ten case-insensitive whole-string patterns is tried, and the first match wins;
  - otherwise a late `option <token>` reading is tried;
  - otherwise the transcript is "not understood".

  Handlers speak and call back, and two streak counters pick the answer feedback.
- **The top-ten leaderboard** (`Leaderboard`, leaderboard.js). It pushes an entry, stably sorts by percentage in descending order and keeps ten. It also provides a topic filter and summary statistics.
- **The decision logic of the quiz screen** (`QuizUI`, ui.js):
  - the topic guard;
  - collecting an answer from the form;
  - submit-then-advance;
  - navigation button state;
  - the result percentage and its four feedback tiers.

Modules:

| module | contents |
|---|---|
| `Wrappers` | `Option` |
| `Text` | JavaScript string behaviour used by the source: `\s` whitespace, `trim`, ASCII `toLowerCase`, `split(/\s+/)`, `includes`, decimal numerals, `join` |
| `Numeric` | `Math.round` of a ratio as exact round-half-up |
| `Sequences` | subsequences |
| `QuizSession` | quiz.js |
| `VoiceCommands` | voice.js |
| `VoiceDispatch` | concrete transcripts routed through the default command table |
| `Ranking` | leaderboard.js |
| `QuizScreen` | ui.js |

The stateful objects are classes whose methods are proved against pure specification functions:

- `QuizGenerator` keeps its questions in an `array` that the shuffle permutes in place.
- `VoiceController` records speech and callback calls in an output log.
- `Leaderboard` reassigns a `seq` of entries.
- `QuizUI` drives a `QuizGenerator`.

Random draws are parameters:

- the difficulty rolls;
- the multiple-choice keys;
- the Fisher–Yates choices `js[i] <= i`;
- the feedback phrase picks.

Places where the code behaves differently from what its names and messages suggest. The model follows the code:

- The empty-topic check exists only in the screen's `startQuiz` (ui.js:80-83). Generation itself accepts any topic.
- A question can be submitted again, for example after going back. Each submission appends a record and can add its points again (`QuizSession.SubmitTwice`).
- The seventh command pattern is written in an ordinary string literal, so its `\s` is the letter `s`:
  - "b please" is not understood;
  - "bsplease" selects b.

## Model

| member | source | states |
|---|---|---|
| Text.Trim | voice.js:143 | the result has no whitespace at either end and is the input with only leading and trailing whitespace removed |
| Text.TrimEmptyIff | ui.js:288 | trimming yields the empty string exactly when the input is all whitespace, so a blank answer counts as no answer |
| Text.TrimIdempotent | ui.js:288 | trimming twice is trimming once |
| Text.LowerConcat | quiz.js:175 | lower-casing distributes over concatenation |
| Text.LowerIdempotent | quiz.js:184 | lower-casing twice is lower-casing once, so comparing lower-cased forms ignores case |
| Text.SplitWs | quiz.js:196 | at least one field, and no field contains whitespace |
| Text.SplitWsEnds | quiz.js:196 | a text without whitespace is its own single field; the first field is empty exactly when the text is empty or starts with whitespace, the last (of several) exactly when the text ends with whitespace; every field in between is non-empty |
| Text.SplitWsJoin | quiz.js:196 | the fields joined with single spaces are the text with every whitespace run squeezed to one space, so the fields are the maximal non-whitespace runs, in order |
| Text.Utf16Length | quiz.js:197 | `length` counts UTF-16 code units: between one and two per character, and exactly one per character precisely when none lies beyond U+FFFF |
| Text.SplitFieldsOccur | quiz.js:196 | every field of the split occurs in the text |
| Text.SplitWsWord | quiz.js:196 | a leading word followed by a space is the first field, and the remainder is split after its leading whitespace |
| Text.ContainsIff | quiz.js:175 | `includes` holds exactly when the needle occurs at some position |
| Text.LowerKeepsContains | quiz.js:181 | a case-sensitive occurrence is also a case-insensitive one |
| Text.NotContainsLonger | quiz.js:181 | a needle longer than the text is never included |
| Text.NatToStringRoundTrip | quiz.js:42 | the decimal numeral in a question id reads back as its number |
| Text.NatToStringInjective | quiz.js:42 | distinct indices give distinct numerals, so ids within a batch differ |
| Numeric.RoundHalfUp | leaderboard.js:14 | the result is the integer nearest to num/den, halves rounded up |
| Numeric.Percentage | leaderboard.js:14 | the result is 100·score/total rounded half up |
| Numeric.PercentageAtLeast | ui.js:327-331 | a percentage reaches a threshold exactly when 200·score ≥ (2·threshold − 1)·total |
| Numeric.PercentageMonotone | leaderboard.js:14 | a larger score never gives a smaller percentage |
| Numeric.PercentageEnds | leaderboard.js:14 | a full score is 100 and a zero score is 0 |
| QuizSession.Qualifying | quiz.js:197 | keeps exactly the words longer than three UTF-16 code units that are not stop words: each such word as often as it occurs, no other word, in the original order |
| QuizSession.QualifyingCons | quiz.js:197 | the filter keeps the head of a word list exactly when it is a keyword, and filters the rest the same way |
| QuizSession.AstralKeyword | quiz.js:197 | a two-character word of characters beyond U+FFFF is four code units long and so is a keyword |
| QuizSession.ExtractKeywords | quiz.js:191-199 | the first three qualifying fields of the text, or all of them when there are fewer: a prefix of the qualifying fields of length min(3, their number); each is a stop-word-free field that occurs in the text |
| QuizSession.AnyIncludedIff | quiz.js:174-176 | `some(... includes ...)` holds exactly when some needle, lower-cased, occurs in the lower-cased answer |
| QuizSession.CheckAnswer | quiz.js:164-189 | an MCQ answer is correct iff it is the stored index; a short or long answer is correct iff it includes some keyword of the model answer ignoring case, so it is never correct when there are no keywords; a fill-in answer with a list is correct iff it includes some fragment ignoring case; a fill-in answer with a string is correct iff it equals that string ignoring case; an unknown type is never correct |
| QuizSession.ModelAnswerAccepted | quiz.js:169-176 | the model answer itself is accepted whenever it has a keyword |
| QuizSession.FragmentAccepted | quiz.js:178-183 | each listed fragment is itself an accepted fill-in answer |
| QuizSession.ShortAnswerKeyword | quiz.js:60-72 | the generated short-answer template has "aspect" as its first keyword, and any answer containing "aspect" is accepted |
| QuizSession.FillExampleAccepted | quiz.js:96 | a sentence containing "important principle" answers the generated fill-in question |
| QuizSession.FillExampleRejected | quiz.js:96 | a sentence containing neither fragment is rejected |
| QuizSession.IndexOfId | quiz.js:144 | `find` by id returns the first position holding that id, or nothing when no question has it |
| QuizSession.IndexOfOwnId | quiz.js:144 | with unique ids, looking up a question's own id finds that question |
| QuizSession.TotalPointsAppend | quiz.js:224 | the point total of a concatenation is the sum of the totals |
| QuizSession.CorrectCount | quiz.js:225 | the number of correct records never exceeds the number of records |
| QuizSession.SumPointsIsCorrectPoints | quiz.js:154-159 | when wrong answers record no points, the recorded points add up to the points of the correct answers |
| QuizSession.AppendRecord | quiz.js:150-159 | appending one record adds its points to the sum and adds one to the correct count exactly when it is correct |
| QuizSession.Position | quiz.js:38-102 | each output position belongs to exactly one batch and to an index below count within it |
| QuizSession.MockQuestions | quiz.js:34-105 | generation yields exactly 4·count questions |
| QuizSession.MockQuestionsLayout | quiz.js:38-102 | questions come in four batches of count (mcq, short, long, fill) with ids `mcq-k`, `short-k`, `long-k`, `fill-k`; the k-th MCQ has the k-th drawn key |
| QuizSession.MockQuestionsPoints | quiz.js:40-55 | every question is worth 1 to 5 points; its points depend only on its batch and difficulty; its difficulty is the requested one, or a drawn easy/medium/hard when none was requested |
| QuizSession.IdsDiffer | quiz.js:42 | two generated ids are equal only for the same batch and index |
| QuizSession.MockQuestionsUniqueIds | quiz.js:34-105 | the generated ids are pairwise distinct |
| QuizSession.MockQuestionsTotal | quiz.js:55 | with a fixed difficulty, the quiz is worth count times the sum of the four batch point values |
| QuizSession.GenerateMockQuestions | quiz.js:34-105 | the four push loops produce exactly the specified question list |
| QuizSession.ShufflePermutes | quiz.js:107-113 | the swaps from a position down to the front keep the same multiset of questions, keep ids unique and keep the point total |
| QuizSession.FisherYates | quiz.js:107-113 | the shuffled list has the same length and multiset, unique ids stay unique, and the point total is unchanged |
| QuizSession.SwapPermutes | quiz.js:111 | one swap is a permutation that keeps ids unique and the total unchanged |
| QuizSession.SameMultisetSamePoints | quiz.js:224 | two orderings of the same questions have the same point total |
| QuizSession.IdentityDraws | quiz.js:110 | when every draw picks its own position, the shuffle changes nothing |
| QuizSession.ShuffledQuiz | quiz.js:24-25 | a generated and shuffled quiz has 4·count questions with unique ids, is a permutation of the generated list, and keeps its total |
| QuizSession.ShuffleArray | quiz.js:107-113 | the in-place descending swap loop leaves the array equal to the Fisher–Yates shuffle of its old contents |
| QuizSession.RecordsReferToPermuted | quiz.js:25 | reordering the questions keeps every record pointing at a question of the quiz |
| QuizSession.QuizGenerator.constructor | quiz.js:4-12 | no questions, index 0, score 0, no answers, timer stopped |
| QuizSession.QuizGenerator.GenerateQuiz | quiz.js:14-32 | the state is reset, the questions are the shuffled generated list and are also returned, and the countdown starts at the quiz duration |
| QuizSession.QuizGenerator.ShuffleQuestions | quiz.js:107-113 | the question array becomes the Fisher–Yates shuffle of its old contents, and the session invariant is kept |
| QuizSession.QuizGenerator.SubmitAnswer | quiz.js:143-162 | an unknown id returns false and changes nothing; otherwise the result is the grade, exactly one record is appended with the question's points if correct and 0 if not, the score grows by those points, and score = sum of recorded points is kept |
| QuizSession.QuizGenerator.GetCurrentQuestion | quiz.js:201-203 | a question exactly when the quiz is non-empty, and then the one at the current index |
| QuizSession.QuizGenerator.NextQuestion | quiz.js:205-211 | before the last question it moves forward one and returns the new question; at the last it returns nothing and stays |
| QuizSession.QuizGenerator.PreviousQuestion | quiz.js:213-219 | after the first question it moves back one and returns the new question; at the first it returns nothing and stays |
| QuizSession.QuizGenerator.GetScore | quiz.js:221-228 | the score is the points of the correct answers, the total is the points of all questions, correct is the number of correct records, and totalQuestions is the question count |
| QuizSession.QuizGenerator.ResetQuiz | quiz.js:230-236 | questions, answers, index and score are cleared and the countdown stops with its time left unchanged |
| QuizSession.QuizGenerator.Tick | quiz.js:119-127 | one second passes and the countdown stops exactly when no time is left |
| QuizSession.SubmitTwice | quiz.js:143-162 | submitting the same correct answer twice appends two records and adds the question's points twice |
| VoiceCommands.MatchWords | voice.js:153 | a successful match captures one value per capturing group of the pattern (which word lists match, and what they capture, is stated by the four lemmas below) |
| VoiceCommands.MatchWordsSound | voice.js:153 | every word list the backtracking matcher accepts, lower-cased, spells the pattern for some choice of one alternative per group, and each capture, lower-cased, is its group's chosen alternative joined with spaces |
| VoiceCommands.MatchAltsSound | voice.js:153 | the same for a group followed by the rest of the pattern: whatever the alternatives tried in order accept spells the group and the rest |
| VoiceCommands.MatchWordsComplete | voice.js:153 | every word list that, lower-cased, spells the pattern for some choice of alternatives is accepted, so backtracking misses no match |
| VoiceCommands.MatchAltsComplete | voice.js:153 | trying the alternatives in order finds a match whenever any alternative leads to one |
| VoiceCommands.LowerJoin | voice.js:153 | lower-casing a space-joined capture lower-cases each of its words |
| VoiceCommands.Match | voice.js:153-154 | a successful match captures one value per group, one for the seventh pattern (when each pattern matches is stated by MatchPhrase and MatchOptionPlease) |
| VoiceCommands.MatchPhrase | voice.js:153-154 | a word pattern matches a transcript exactly when the transcript has no whitespace at either end and its fields, lower-cased, spell the pattern for some choice of alternatives; the captures are then the chosen alternatives, up to case and with single spaces between words |
| VoiceCommands.SPleaseIff | voice.js:26 | the tail accepted after the option character is one or more `s` followed by `please`, ignoring case |
| VoiceCommands.MatchOptionPlease | voice.js:26 | the seventh pattern matches exactly one option character, in either case, alone or followed by one or more `s` and `please`, and captures that character |
| VoiceCommands.FirstMatch | voice.js:152-164 | the found entry matches and captures the returned groups, and no earlier entry matches; nothing is found exactly when no entry matches |
| VoiceCommands.RouteDirect | voice.js:143-149 | a transcript is dispatched as a direct option exactly when its trimmed, lower-cased form is one of `a b c d 1 2 3 4`, and the token is that form |
| VoiceCommands.RouteCommand | voice.js:152-163 | a command route is not a direct option, names a matching entry and its handler with the captured groups, and no earlier entry matches |
| VoiceCommands.RouteTableFirst | voice.js:152-156 | whenever some entry matches (and no direct option applies), a command route is taken at that entry or an earlier one |
| VoiceCommands.RouteFallback | voice.js:166-170 | the late option reading applies only when no direct option and no table entry matched, and its token is the one `option <token>` captures |
| VoiceCommands.RouteNotUnderstood | voice.js:172-173 | a transcript is not understood exactly when it is no direct option, matches no entry and has no `option <token>` reading |
| VoiceCommands.OptionWordsMatch | voice.js:25 | the `option (a\|b\|c\|d\|1\|2\|3\|4)` entry matches exactly the `option <token>` transcripts, capturing the token |
| VoiceCommands.OptionAltsTokens | voice.js:25 | the entry's alternatives are exactly the option tokens |
| VoiceCommands.NormaliseOption | voice.js:220-223 | `1`–`4` become `a`–`d`, and anything else is lower-cased |
| VoiceCommands.NormaliseOptionLetters | voice.js:216-229 | every option token normalises to a single letter from a to d |
| VoiceCommands.FindCommand | voice.js:152-164 | the table loop returns the first matching entry and its groups |
| VoiceCommands.OptionEntries | voice.js:189-191 | one entry per option, the k-th reading `Option `, the letter for position k, `: ` and the k-th option |
| VoiceCommands.StreakPoolIff | voice.js:252-275 | after a correct answer, the streak pool is used exactly when the streak is at least 3, and the praise pool otherwise |
| VoiceCommands.PraiseNotStreak | voice.js:256-271 | no praise phrase is a streak phrase, so the two pools are told apart |
| VoiceCommands.EncouragementIff | voice.js:276-303 | after a wrong answer, an encouraging suffix follows the correction exactly when the wrong streak is at least 2 |
| VoiceCommands.VoiceController.constructor | voice.js:2-16 | the default table is loaded, nothing listens, voice mode is off, there is no callback, both streaks are zero and the log is empty |
| VoiceCommands.VoiceController.Speak | voice.js:99-116 | the text is spoken exactly when speech synthesis exists, and the result says whether it was |
| VoiceCommands.VoiceController.Notify | voice.js:159-160 | the callback is called with the value and kind exactly when one is set |
| VoiceCommands.VoiceController.StartListening | voice.js:70-90 | listening starts, and true is returned, exactly when recognition exists and `recognition.start()` does not throw; after a throw the controller is not listening and false is returned |
| VoiceCommands.VoiceController.StopListening | voice.js:92-97 | afterwards the controller is not listening, so a second call changes nothing |
| VoiceCommands.VoiceController.SetOnResultCallback | voice.js:118-120 | records whether a callback is set |
| VoiceCommands.VoiceController.SetCurrentQuestion | voice.js:122-126 | records the question and its options for repetition |
| VoiceCommands.VoiceController.ToggleVoiceMode | voice.js:128-138 | voice mode is negated and returned; listening follows voice mode where recognition exists and starting it succeeds; the matching announcement is spoken |
| VoiceCommands.VoiceController.HandleOptionSelect | voice.js:216-229 | an empty option returns false without a callback; otherwise the normalised letter is reported as the answer and true is returned |
| VoiceCommands.VoiceController.RepeatQuestion | voice.js:185-198 | reads the question and its lettered options, or says there is none |
| VoiceCommands.VoiceController.RunHandler | voice.js:177-248 | each handler's utterances and callback call; only the toggle handler leaves voice mode; an option handler without a token returns false |
| VoiceCommands.VoiceController.ProcessVoiceCommand | voice.js:140-174 | outside voice mode it returns false and does nothing; in voice mode it performs exactly the reaction of the transcript's route (direct option, first matching entry, late option reading, or not understood), and the result says whether the route was handled |
| VoiceCommands.VoiceController.ChooseRoute | voice.js:143-173 | the dispatch order picks the specified route |
| VoiceCommands.VoiceController.Perform | voice.js:147-173 | running a route has exactly that route's effects and result |
| VoiceCommands.VoiceController.ProvideFeedback | voice.js:251-304 | a correct answer extends the correct streak and zeroes the wrong one, and a wrong answer does the reverse; the spoken text comes from the pool the new streaks select |
| VoiceDispatch.NextQuestionRoute | voice.js:20 | "next question" or "next one", in any case, reaches the first entry, announces the move and reports `next` as a command |
| VoiceDispatch.ShowScoresRoute | voice.js:22 | "show scores" or "show leaderboard" reaches the third entry, announces it and reports `leaderboard` as a command |
| VoiceDispatch.ReadAgainRoute | voice.js:24 | "read/say question/that one more time" reaches the fifth entry and repeats the question |
| VoiceDispatch.OptionRoute | voice.js:25 | "option" with a token reaches the sixth entry and reports the normalised letter, e.g. "option 3" answers c |
| VoiceDispatch.SPleaseRoute | voice.js:26 | a token followed by one or more `s` and `please`, with no spaces, is selected by the seventh entry |
| VoiceDispatch.TokenPleaseNotUnderstood | voice.js:26 | a token, a space and "please" matches no entry and is not understood |
| VoiceDispatch.SelectRoute | voice.js:27 | "select" with a token reaches the eighth entry and reports the normalised letter, e.g. "select C" answers c |
| VoiceDispatch.PaddedOptionFallback | voice.js:166-170 | with whitespace in front, "option <token>" matches no anchored entry and is caught by the late reading, with the lower-cased token |
| Ranking.Insert | leaderboard.js:20 | inserting adds exactly the one entry |
| Ranking.InsertSorted | leaderboard.js:20 | inserting into a descending list keeps it descending |
| Ranking.SortDesc | leaderboard.js:20 | the sort is a permutation into non-increasing percentage order |
| Ranking.SortStable | leaderboard.js:20 | entries of equal percentage keep their relative order |
| Ranking.AddToSorted | leaderboard.js:17-20 | pushing onto a sorted list and sorting places the new entry after all entries of at least its percentage, with everything else in place |
| Ranking.Ranked | leaderboard.js:17-21 | the kept list has min(length, 10) entries, is sorted, takes only pushed entries, and every dropped entry scores no higher than every kept one |
| Ranking.RankedStable | leaderboard.js:20-21 | the kept entries of equal percentage appear in their pushed order |
| Ranking.TopicScores | leaderboard.js:33-37 | exactly the entries whose topic equals the argument ignoring case, in list order |
| Ranking.BestPercent | leaderboard.js:99 | the maximum percentage, attained by some entry |
| Ranking.FirstSeen | leaderboard.js:96 | distinct topics, exactly those occurring |
| Ranking.FirstSeenOrder | leaderboard.js:96 | topics are listed in order of first occurrence |
| Ranking.Statistics | leaderboard.js:82-107 | all zeros and no topics for an empty list; otherwise the count, the rounded mean percentage, the best percentage, and the distinct topics in first-occurrence order |
| Ranking.Leaderboard.constructor | leaderboard.js:2-5 | the list starts as the stored scores |
| Ranking.Leaderboard.AddScore | leaderboard.js:7-27 | returns the pushed entry with its rounded percentage, and the list becomes the ranked top ten of the old list plus that entry |
| Ranking.Leaderboard.GetScores | leaderboard.js:29-31 | returns the list's contents |
| Ranking.Leaderboard.ClearScores | leaderboard.js:39-42 | the list is empty |
| QuizScreen.TextAnswer | ui.js:286-291 | the trimmed text is an answer exactly when it is non-empty |
| QuizScreen.GetUserAnswer | ui.js:280-296 | the selected option index for an MCQ or nothing if none is selected, the trimmed non-empty text for the other known types, nothing for an unknown type; any answer returned can be graded |
| QuizScreen.ResultPercentage | ui.js:324 | the rounded percentage when the total is positive; with a zero total, NaN for a zero score and Infinity otherwise |
| QuizScreen.TierBands | ui.js:324-335 | excellent from 79.5%, good from 59.5%, not bad from 39.5%, keep practicing below, as exact bounds on score/total |
| QuizScreen.TierMonotone | ui.js:327-335 | a higher score never gets a lower tier |
| QuizScreen.TierEnds | ui.js:324-335 | a full score is excellent, a zero score keeps practicing, and an empty quiz (NaN) keeps practicing |
| QuizScreen.QuizUI.constructor | ui.js:5-73 | the setup screen, with no alerts, over the given session |
| QuizScreen.QuizUI.StartQuiz | ui.js:75-109 | a blank topic raises the topic alert and leaves the session, its timer and every screen field alone; otherwise the quiz is generated with the trimmed topic (difficulty defaulting to medium), the timer starts from the full duration, the feedback is untouched, and the first question of a non-empty quiz is shown with the buttons set for it (an empty quiz leaves the counter and buttons as they were) |
| QuizScreen.QuizUI.Launch | ui.js:85-101 | the session holds the shuffled generated quiz from its start with the timer running from the full duration, the feedback is untouched, and the first question of a non-empty quiz is shown with the buttons set for it (an empty quiz leaves the counter and buttons as they were) |
| QuizScreen.QuizUI.ShowQuestion | ui.js:111-155 | an index outside the quiz changes nothing; otherwise that question is shown and the buttons are set for it |
| QuizScreen.QuizUI.UpdateNavigationButtons | ui.js:221-234 | previous is disabled iff at the first question; next is hidden and submit shown iff at the last; next is disabled on every earlier question |
| QuizScreen.QuizUI.SubmitCurrent | ui.js:245 | exactly one record, for the current question, is appended |
| QuizScreen.QuizUI.ShowNextQuestion | ui.js:236-262 | with no answer: the proceed alert and nothing else (no submission, move, button or feedback change); with an answer: it is submitted once for the current question, then the next question is shown with the feedback untouched, or after the last question the results are shown with the counter and buttons untouched |
| QuizScreen.QuizUI.Advance | ui.js:251-261 | moves to and shows the next question with the feedback untouched, or shows the results, leaving the counter and buttons as they were, when there is none |
| QuizScreen.QuizUI.ShowPreviousQuestion | ui.js:264-278 | moves back one and shows it with the buttons set for it (so stepping back from the last question shows next, hides submit and disables next), or stays at the first question with every button as it was |
| QuizScreen.QuizUI.SubmitQuiz | ui.js:298-310 | with no answer: the submit alert and nothing else; otherwise one submission and then the results |
| QuizScreen.QuizUI.EndQuizEarly | ui.js:312-314 | shows the results of the session as it stands |
| QuizScreen.QuizUI.ShowResults | ui.js:316-345 | the results screen with feedback from the session's score report and its tier |

## Left out

- The Web Speech recognition adapter (voice.js:33-68) is platform I/O. Recognition and synthesis are booleans given to the constructor, and a recognised transcript is a parameter of `ProcessVoiceCommand`.
- Spoken text is an entry in an output log. The utterance's rate, pitch, volume and end callback in `speak` are not modelled.
- The `correctAnswer` argument of `setCurrentQuestion` (voice.js:125) is not modelled, because no handler in the core reads it.
- `startTimer`'s `setInterval` and `updateTimerDisplay` are timer callbacks and DOM text. Only one tick is modelled (`Tick`).
- The `generateQuiz` catch path is not modelled, because template generation cannot throw.
- Whether `recognition.start()` throws in `startListening` (voice.js:80-89) is platform behaviour. It is the `startSucceeds` parameter of `StartListening` and `ToggleVoiceMode`, and the logged error message is not modelled.
- localStorage and JSON (leaderboard.js:3, 44-52) are not modelled. The stored list is a constructor parameter, and `saveScores` is dropped.
- `renderScores` (leaderboard.js:54-79) and the `quizCompleted` listener with its `prompt` build HTML and ask the user, so they are left out.
- The `date` of an entry is a string parameter, standing for `toISOString()` of the clock.
- animations.js, all DOM construction, and the rendering, focus and CSS classes in ui.js are left out. So are `setLoading`, `showLeaderboard`, `retryQuiz`, `readQuestion`, `speakCurrentAnswer`, `toggleVoiceInput` and the speech in `showResults`, which are display and I/O.
- The input listeners that enable the next button (ui.js:164-216) are left out. The model records only the disabling in `UpdateNavigationButtons`.
- The 180 ms `setTimeout` transitions are collapsed into immediate sequencing.
- `parseInt` of the question-count field is not modelled: the count is a natural number parameter.
- `Math.random` is not modelled: every draw is a parameter, restricted to the range the source's expression produces.
- `Math.round` over floating point becomes exact rational round-half-up. Where the total is zero, the screen models NaN and Infinity explicitly.
- Lower-casing covers ASCII letters only, and there is no Unicode case folding. Lengths, where the source compares them (`word.length > 3`), count UTF-16 code units (`Text.Utf16Length`).
- Only `correctAnswer` of the question templates is modelled. Prompts, options text, explanations and fun facts are not.
- SplitWs: its own contract states only the shape of the fields. Where the fields start and end (SplitWsEnds) and that they are the maximal non-whitespace runs in order (SplitWsJoin) are separate lemmas, so that the many uses of the split stay cheap to verify.
- Match: its own contract states only the number of captures. When a transcript matches a pattern and what it captures are stated by MatchPhrase and MatchOptionPlease.
- MatchWords: its own contract states only the number of captures. When a word list matches and what each group captures are stated by the separate lemmas MatchWordsSound and MatchWordsComplete (and MatchPhrase for whole transcripts), which are proved by induction over the matcher.
- OptionLabel: `String.fromCharCode(65 + i)` yields a single UTF-16 code unit, which for 65 + i at or above 0xD800 is a surrogate or wraps around; a Dafny string cannot hold those, so the model gives "?" there. A question would need over 55,000 options to reach it.
- MatchAlts: a capture of a multi-word alternative is its words joined with single spaces. `exec` returns the exact substring, so "start \t over" is captured with its original whitespace. No handler reads a multi-word capture, so no behaviour depends on this.
- A general regular-expression engine is not modelled. The ten fixed patterns are matched by word-level matchers, and the seventh by a hand-written character matcher.
- QuizSession.QuizGenerator.SubmitAnswer requires that the found question can grade the answer. The source would throw when a number is lower-cased, and that path is not modelled.
- QuizScreen.QuizUI.ShowNextQuestion requires a non-empty quiz. With no questions `getCurrentQuestion` returns `undefined` (quiz.js:202), and reading its `type` in `getUserAnswer` (ui.js:281) throws a TypeError.
- QuizScreen.QuizUI.SubmitQuiz requires a non-empty quiz, for the same reason.
- Ranking.Leaderboard.AddScore requires a positive total. With a zero total the source stores a NaN or infinite percentage, which the integer model cannot hold.
