# UMatter core in Dafny

UMatter is a Django and browser-script application for trauma self-assessment.
This project models its scoring pipeline and its small rule engines, and proves
properties about them:

- `aggregate_scores`: answer letters A to D score 0..3. Each response goes into
  the bucket of its question's category. The result is one mean per category,
  Family, Financial, Career, Love, with 0 for an empty bucket.
- The `ID_TO_CATEGORY` table: each question number maps to the first word of
  its section's name.
- `get_random_questions`: draws 4/4/4/3 questions per category without
  replacement, then shuffles them in place. The random stream is an oracle
  `rand: nat -> nat`.
- `get_random_question`: picks one question from the list.
- `evaluate_assessment`:
  - the answer upsert;
  - the score records, each with a severity band and a percentage;
  - the dominant-trauma selection by a stable descending sort of the
    classifier's prediction.
- The `log_mood` low-mood alert rule.
- The `get_recovery_plan` join of a program's steps with the user's progress.
- The quiz tally and argmax of `calculateTrauma` in `scripts.js`.
- The chatbot of `chatbot.js`:
  - the keyword intent router;
  - crisis and page detection;
  - quick actions;
  - the open/closed state and the message list.
- The account views:
  - the login redirect;
  - sign-up validation with its ordered error list;
  - the records that sign-up creates;
  - the profile update rule.

Modules:

- `Wrappers`: Option and Result.
- `Categories`: the four trauma categories in their fixed order.
- `Aggregator`, `Sampler`, `Assessment`, `RecoveryPlan`, `MoodAlert`,
  `TraumaQuiz`, `Chatbot`, `Accounts`: one each per part of the source above.

Database tables are maps and sequences passed in and returned. The classifier
(`predict_trauma`) is a function parameter. Means and percentages are reals.

Behaviour of the code worth noting:

- `evaluate_assessment` stores `score / 3 * 100` without clamping it to
  [0, 100].
- Ties between equally probable categories keep the prediction's own order,
  because the sort is stable. There is no fixed category priority.
- Answers are saved before aggregation runs, so a request whose aggregation
  fails still leaves its answers saved.

## Model

| member | source | states |
|---|---|---|
| Categories.Index | UMatter/core/views.py:101 | each category has one position in the order Family, Financial, Career, Love |
| Categories.FromName | UMatter/ScoringScoring/utils/aggregator.py:33-43 | a name is either the key of exactly that category or no category at all |
| Categories.NameRoundTrip | UMatter/ScoringScoring/utils/aggregator.py:33-38 | looking up the name of a category gives back that category |
| Categories.OrderListsEachCategoryOnce | UMatter/ScoringScoring/utils/aggregator.py:46-51 | the category order has four entries, covers every category and repeats none |
| Aggregator.AnswerScore | UMatter/ScoringScoring/utils/aggregator.py:6-11 | a score exists exactly for A, B, C, D; it is at most 3 and the letter is the one scoring it |
| Aggregator.LetterRoundTrip | UMatter/ScoringScoring/utils/aggregator.py:6-11 | every score 0..3 has a letter that maps back to it, so A→0, B→1, C→2, D→3 is a bijection |
| Aggregator.FirstWord | UMatter/ScoringScoring/utils/aggregator.py:19 | `split()[0]`: no word, which is Python's IndexError, exactly when the name is all whitespace (the characters for which `str.isspace()` holds); otherwise the maximal run of non-separators after the leading separators |
| Aggregator.AddNumbersLookup | UMatter/ScoringScoring/utils/aggregator.py:20-21 | after the inner loop, every listed number maps to the section's word and every other entry is kept |
| Aggregator.BuildIdToCategory | UMatter/ScoringScoring/utils/aggregator.py:17-21 | the nested loop succeeds iff every section name has a word; it then yields the table, and on failure it names the first section without a word |
| Aggregator.IdTableDomain | UMatter/ScoringScoring/utils/aggregator.py:17-21 | a number is in the table iff some section lists it |
| Aggregator.IdTableLastSectionWins | UMatter/ScoringScoring/utils/aggregator.py:18-21 | a number maps to the first word of the last section that lists it |
| Aggregator.Classify | UMatter/ScoringScoring/utils/aggregator.py:41-43 | a response classifies iff its id is in the table, its answer is A–D and the mapped word is a bucket name; otherwise the KeyError names the first missing key |
| Aggregator.AggregateScores | UMatter/ScoringScoring/utils/aggregator.py:33-51 | succeeds iff every response classifies; then it gives four values, each the mean of its category's bucket; on failure some response does not classify |
| Aggregator.SumAtMost | UMatter/ScoringScoring/utils/aggregator.py:46-51 | a bucket of scores at most b sums to at most b times its length |
| Aggregator.BucketScoresAtMostThree | UMatter/ScoringScoring/utils/aggregator.py:40-43 | every score in a bucket is at most 3 |
| Aggregator.MeanInRange | UMatter/ScoringScoring/utils/aggregator.py:46-51 | every category's mean lies in [0, 3] |
| Aggregator.FeaturesInRange | UMatter/ScoringScoring/utils/aggregator.py:46-51 | the result has four values, each in [0, 3] |
| Aggregator.EmptyBucketMeansZero | UMatter/ScoringScoring/utils/aggregator.py:46-51 | a category that no response falls into averages to 0 |
| Aggregator.BucketEmptyWhenAbsent | UMatter/ScoringScoring/utils/aggregator.py:40-43 | a category that no response falls into has an empty bucket |
| Aggregator.BucketAppend | UMatter/ScoringScoring/utils/aggregator.py:40-43 | the bucket of two batches of responses is the first batch's bucket followed by the second's |
| Aggregator.OtherCategoriesUnaffected | UMatter/ScoringScoring/utils/aggregator.py:40-43 | one more response, added before or after the others, leaves the bucket of every other category unchanged |
| Aggregator.SumAppend | UMatter/ScoringScoring/utils/aggregator.py:47-50 | the sum of two concatenated buckets is the sum of their sums |
| Aggregator.BucketRemoveAt | UMatter/ScoringScoring/utils/aggregator.py:40-43 | removing one response removes exactly its contribution from the bucket's length and sum |
| Aggregator.BucketPermutation | UMatter/ScoringScoring/utils/aggregator.py:40-50 | reordered responses give buckets of equal length and sum |
| Aggregator.ResponseOrderIrrelevant | UMatter/ScoringScoring/utils/aggregator.py:40-51 | reordering the responses changes neither whether aggregation fails nor any mean |
| Sampler.Pool | UMatter/ScoringScoring/utils/sampler.py:21 | the pool holds exactly the questions of that category |
| Sampler.PoolSize | UMatter/ScoringScoring/utils/sampler.py:21 | the pool is as long as the number of questions of that category |
| Sampler.Pick | UMatter/ScoringScoring/utils/sampler.py:20-23 | the picked list holds the pool's element at each drawn position, in draw order |
| Sampler.MoveLastIntoRemoves | UMatter/ScoringScoring/utils/sampler.py:20-23 | one step of the sampling pool keeps its positions distinct and removes exactly the drawn position |
| Sampler.SamplePositions | UMatter/ScoringScoring/utils/sampler.py:20-23 | `random.sample` draws k distinct positions below n and consumes k draws |
| Sampler.Shuffle | UMatter/ScoringScoring/utils/sampler.py:26 | the in-place shuffle only permutes the array |
| Sampler.GetRandomQuestions | UMatter/ScoringScoring/utils/sampler.py:10-27 | succeeds iff every category has enough questions; otherwise the first short category raises ValueError. On success each category's draw is a sample without replacement, and the result is a permutation of the concatenated draws |
| Sampler.CountPermutation | UMatter/ScoringScoring/utils/sampler.py:26 | a permutation leaves every category's count unchanged |
| Sampler.PickedFromPool | UMatter/ScoringScoring/utils/sampler.py:20-23 | every question drawn for a category is in the list and carries that category |
| Sampler.DrawnMembers | UMatter/ScoringScoring/utils/sampler.py:13-24 | the concatenated draws come from the list and number as many as the quotas add up to |
| Sampler.DrawnCounts | UMatter/ScoringScoring/utils/sampler.py:13-24 | the concatenated draws hold each category exactly its quota of times |
| Sampler.SampleComposition | UMatter/ScoringScoring/utils/sampler.py:13-27 | the result has 15 questions from the list: 4 Family, 4 Financial, 4 Career, 3 Love |
| Sampler.GetRandomQuestion | UMatter/ScoringScoring/utils/sampler.py:29-30 | an element of the list, or IndexError exactly when the list is empty |
| Sampler.EveryQuestionCanBeChosen | UMatter/ScoringScoring/utils/sampler.py:29-30 | every question of the list is chosen by some draw |
| Assessment.Severity | UMatter/core/views.py:105-112 | low iff score < 1.0, moderate iff in [1.0, 1.5), high iff in [1.5, 2.0), severe iff ≥ 2.0 |
| Assessment.SeverityMonotone | UMatter/core/views.py:105-112 | a higher score never gets a lower band |
| Assessment.Percentage | UMatter/core/views.py:117 | a score in [0, 3] gives a percentage in [0, 100], and the score is recovered as percentage × 3 / 100 |
| Assessment.PercentageInjective | UMatter/core/views.py:117 | different scores are stored as different percentages |
| Assessment.ResolveUser | UMatter/core/views.py:64-69 | a user is resolved iff the id is given, is non-zero and exists; it is that id |
| Assessment.SaveAnswers | UMatter/core/views.py:72-85 | the upsert loop leaves exactly the upserted answer table |
| Assessment.UpsertedDomain | UMatter/core/views.py:72-85 | after saving, a (user, question) key has an answer iff it had one or the question exists and some response mentions it |
| Assessment.UpsertedLastWins | UMatter/core/views.py:72-85 | the last response for an existing question decides that question's stored answer |
| Assessment.UpsertedKeepsOthers | UMatter/core/views.py:72-85 | answers of other users, of unknown questions and of unmentioned questions are unchanged |
| Assessment.SaveTraumaScores | UMatter/core/views.py:101-119 | the loop creates exactly the records of the first min(4, features) categories that have a trauma type |
| Assessment.ScoreRecordsOrdered | UMatter/core/views.py:101-119 | at most one record per category, in the order Family, Financial, Career, Love, each for a category with a trauma type, with its own percentage and band |
| Assessment.ScoreRecordsComplete | UMatter/core/views.py:101-103 | a category gets a record iff it has a trauma type and a feature |
| Assessment.InsertDesc | UMatter/core/views.py:122 | inserting keeps every item and adds exactly the new one |
| Assessment.SortDesc | UMatter/core/views.py:122 | the sort is a permutation of the prediction items |
| Assessment.InsertDescKeepsOrder | UMatter/core/views.py:122 | inserting into a descending list keeps it descending |
| Assessment.SortDescIsDescending | UMatter/core/views.py:122 | the sorted items are in non-increasing probability order |
| Assessment.FirstMax | UMatter/core/views.py:122-123 | the first position of maximal probability |
| Assessment.SortHeadIsFirstMax | UMatter/core/views.py:122-123 | the stable descending sort puts first the earliest item of highest probability |
| Assessment.SortSecondIsNextMax | UMatter/core/views.py:122-124 | the second sorted item is the earliest of highest probability once the first is taken out |
| Assessment.SelectDominant | UMatter/core/views.py:122-124 | a selection exists iff the prediction is non-empty, and has a secondary iff there are at least two items |
| Assessment.SelectDominantRanks | UMatter/core/views.py:122-135 | the primary is the earliest item of highest probability and its probability is the confidence; the secondary is the earliest of highest probability among the rest |
| Assessment.TraumaOf | UMatter/core/views.py:126-127 | a name resolves iff it names a category that has a trauma type, and it resolves to that category |
| Assessment.DominantAfter | UMatter/core/views.py:126-137 | other users' rows are unchanged; there is no write without a primary; otherwise the user's row holds that primary, the category of the second name or None, and the confidence |
| Assessment.EvaluateAssessment | UMatter/core/views.py:58-150 | answers are saved for a resolved user before aggregation. The view fails iff aggregation fails or, for a resolved user, the prediction is empty. On success it returns the features and the prediction. Without a user the store is unchanged; with one it gains the score records and the dominant row |
| RecoveryPlan.FirstServing | UMatter/core/views.py:172-175 | the first position at or after the start holding an active program of the category, or the end |
| RecoveryPlan.ActiveProgram | UMatter/core/views.py:172-178 | None iff no active program of the category exists; otherwise the first such program |
| RecoveryPlan.ProgressMapDomain | UMatter/core/views.py:184-190 | a step has a progress entry iff some row is about it |
| RecoveryPlan.ProgressMapLastWins | UMatter/core/views.py:186-190 | a step's entry is the progress of the last row about it |
| RecoveryPlan.BuildProgressMap | UMatter/core/views.py:184-190 | the loop builds exactly the progress map of the rows |
| RecoveryPlan.JoinSteps | UMatter/core/views.py:192-203 | one entry per step, in the steps' order; a step without a row shows `not_started` with no completion time; otherwise it shows its last row's progress |
| RecoveryPlan.GetRecoveryPlan | UMatter/core/views.py:157-220 | errors in check order: missing id, unknown user, no assessment, no active program. A plan is returned exactly when none of them applies, and it holds the first active program of the primary trauma and the joined steps |
| MoodAlert.Recent | UMatter/core/views.py:344-347 | the window is the first min(7, n) logs of the newest-first list |
| MoodAlert.ShouldAlert | UMatter/core/views.py:349-351 | the loop alerts iff the window holds at least 5 logs with mean below 2.5 |
| MoodAlert.LogMood | UMatter/core/views.py:331-357 | an unknown user and a missing score are the errors; otherwise the answer is whether a `low_mood` Alert is created, which is the alert rule on the new log and the earlier ones |
| MoodAlert.MeanBelowThreshold | UMatter/core/views.py:350-351 | the mean is below 2.5 iff twice the sum is below five times the count |
| MoodAlert.FewLogsNoAlert | UMatter/core/views.py:349 | fewer than five logs never alert |
| MoodAlert.AllLowAlerts | UMatter/core/views.py:349-351 | five or more logs, all of mood at most 2, always alert |
| MoodAlert.AllFineNoAlert | UMatter/core/views.py:349-351 | logs all of mood at least 3 never alert |
| MoodAlert.OnlySevenCount | UMatter/core/views.py:347 | logs older than the seventh most recent play no part |
| MoodAlert.LowerMoodKeepsAlert | UMatter/core/views.py:349-351 | lowering any logged mood keeps an alert an alert |
| TraumaQuiz.KeyIndex | UMatter/static/js/scripts.js:32-36 | a value is recognised iff it is one of the five keys, and it gets that key's position |
| TraumaQuiz.LeaderUnique | UMatter/static/js/scripts.js:38-46 | there is only one winner: the maximal count with all earlier counts strictly lower |
| TraumaQuiz.VerdictFor | UMatter/static/js/scripts.js:51-71 | the verdict names the winning key |
| TraumaQuiz.CalculateTrauma | UMatter/static/js/scripts.js:12-71 | the alert iff fewer than 4 answers are checked; otherwise the verdict of the key whose tally is maximal and strictly above every earlier key's |
| TraumaQuiz.CountStep | UMatter/static/js/scripts.js:32-36 | each value adds one to its own key's tally and nothing to the others |
| TraumaQuiz.TalliesAddUp | UMatter/static/js/scripts.js:13-36 | the five tallies add up to the number of recognised values |
| TraumaQuiz.NothingRecognisedGivesFamily | UMatter/static/js/scripts.js:39-46 | with no recognised value the winner is `family` |
| TraumaQuiz.VerdictColors | UMatter/static/js/scripts.js:51-71 | the colour of each key's verdict |
| TraumaQuiz.VerdictsDiffer | UMatter/static/js/scripts.js:51-71 | the five keys give five different colours |
| TraumaQuiz.OthersAsNone | UMatter/static/js/scripts.js:68-70 | every value other than the four trauma keys takes the `none` verdict |
| Chatbot.Lower | UMatter/static/js/chatbot.js:175 | lower-casing keeps the length and maps every character |
| Chatbot.LowerIdempotent | UMatter/static/js/chatbot.js:175 | lower-casing twice is lower-casing once |
| Chatbot.ContainsIff | UMatter/static/js/chatbot.js:285 | `includes` holds iff the keyword occurs at some position |
| Chatbot.TrimStartShape | UMatter/static/js/chatbot.js:111 | trimming the start drops exactly the leading whitespace |
| Chatbot.TrimEndShape | UMatter/static/js/chatbot.js:111 | trimming the end drops exactly the trailing whitespace |
| Chatbot.TrimShape | UMatter/static/js/chatbot.js:111 | the trimmed text is a slice of the input that neither starts nor ends in whitespace |
| Chatbot.TrimEmpty | UMatter/static/js/chatbot.js:111-112 | the trimmed text is empty iff the input is all whitespace |
| Chatbot.MatchesIntentIff | UMatter/static/js/chatbot.js:284-286 | true iff some keyword is a substring of the message |
| Chatbot.DetectCrisisIff | UMatter/static/js/chatbot.js:288-291 | true iff one of the five crisis phrases is a substring of the message |
| Chatbot.DetectCurrentPage | UMatter/static/js/chatbot.js:293-299 | the first of questions, progress, selfcare found in the path gives the page; otherwise `home` |
| Chatbot.NavigationTests | UMatter/static/js/chatbot.js:178-267 | each navigation rule fires iff the message has one of its topic words and one of its verbs, and the career rule iff it has `career` or `work` |
| Chatbot.FirstMatchWins | UMatter/static/js/chatbot.js:174-282 | the reply is that of the first rule, in fixed order, that fires on the lower-cased message |
| Chatbot.RouteIsFirstFiring | UMatter/static/js/chatbot.js:177-281 | the if-chain of tests selects the first rule, in the fixed order, that applies to the message |
| Chatbot.CaseInsensitive | UMatter/static/js/chatbot.js:175 | the reply does not depend on letter case |
| Chatbot.OnlyNavigationNavigates | UMatter/static/js/chatbot.js:181-281 | a reply carries a navigation target iff it comes from a navigation rule |
| Chatbot.OpensAssessmentIff | UMatter/static/js/chatbot.js:178-185 | the reply navigates to `/questions/` iff the message has assessment/test/quiz and take/start/open/"go to" |
| Chatbot.CrisisAfterNavigation | UMatter/static/js/chatbot.js:177-214 | the crisis reply is given iff a crisis phrase occurs and no navigation rule fired |
| Chatbot.FallbackOffersTwoLinks | UMatter/static/js/chatbot.js:275-281 | the default reply does not navigate and offers exactly the links `/questions/` and `/selfcare/` |
| Chatbot.ActionMessage | UMatter/static/js/chatbot.js:157-162 | a canned message exists exactly for the four mapped actions |
| Chatbot.Chat.constructor | UMatter/static/js/chatbot.js:8-11 | a new chat is closed, has no messages, and knows its page |
| Chatbot.Chat.ToggleChat | UMatter/static/js/chatbot.js:94-95 | negates `isOpen` and leaves the messages alone |
| Chatbot.Chat.AddMessage | UMatter/static/js/chatbot.js:132-147 | appends exactly one entry to the messages |
| Chatbot.Chat.SendMessage | UMatter/static/js/chatbot.js:109-130 | whitespace-only input changes nothing; otherwise the trimmed user message and then the bot reply are appended, and the reply's target is returned |
| Chatbot.Chat.HandleQuickAction | UMatter/static/js/chatbot.js:155-168 | an unmapped action changes nothing; a mapped one is sent as its canned message |
| Chatbot.Chat.ClickQuickAction | UMatter/static/js/chatbot.js:81-91 | an action starting with `/` navigates there and adds no message; any other is handled as a quick action: unmapped ones change nothing, mapped ones send their canned message; the chat stays open or closed as it was |
| Chatbot.Chat.SendWelcomeMessage | UMatter/static/js/chatbot.js:301-319 | adds the page's welcome text only to an empty conversation |
| Accounts.Get | UMatter/accounts/views.py:41-44 | `get(key)` is present iff the key was sent, and it is the sent value |
| Accounts.GetOr | UMatter/accounts/views.py:45-52 | `get(key, default)` is the sent value, or the default when the key was not sent |
| Accounts.LoginView | UMatter/accounts/views.py:9-31 | an authenticated user goes home; a successful login goes to `next` or `home`; anything else shows the form, flagged when a login failed |
| Accounts.LoginRedirectDefault | UMatter/accounts/views.py:26-27 | after a successful login the target is `next` when sent and `home` otherwise |
| Accounts.ValidateSignup | UMatter/accounts/views.py:41-70 | TypeError iff `password1` was not sent. Otherwise the list is `Errors`: each of the five errors is listed iff its condition holds, in check order and once each |
| Accounts.ErrorsMembers | UMatter/accounts/views.py:57-70 | an error is in the error list exactly when its check fails |
| Accounts.ErrorsOrdered | UMatter/accounts/views.py:57-70 | the error list is in check order, each error at most once |
| Accounts.ErrorsCharacterised | UMatter/accounts/views.py:57-70 | the error list holds exactly the failing checks, in check order |
| Accounts.Messages | UMatter/accounts/views.py:72-75 | one message per error, in the order of the errors |
| Accounts.ProperFormPasses | UMatter/accounts/views.py:57-70 | a fully filled form with matching passwords of at least 8 characters and a fresh name and address passes every check |
| Accounts.EmptyPasswordTwoErrors | UMatter/accounts/views.py:57-64 | an empty password gives both the required error and the length error |
| Accounts.Optional | UMatter/accounts/views.py:90-92 | a missing or empty optional field is None; otherwise it is the sent value |
| Accounts.NewProfile | UMatter/accounts/views.py:49-94 | the created profile has the optional fields as sent or None, the sent language or `English`, and no phone |
| Accounts.NewProfileDefaults | UMatter/accounts/views.py:49-94 | an empty age group is stored as None; the language is `English` when none is sent, and the sent value otherwise |
| Accounts.SignupView | UMatter/accounts/views.py:34-106 | an authenticated user goes home and a GET shows the form. A missing `password1` is a server error, and a form with errors is shown again with exactly the messages of the ordered error list. The user and the profile are created iff the view is posted and no check fails |
| Accounts.Posted | UMatter/accounts/views.py:129-133 | a field takes the sent value when its key was sent and keeps its value otherwise |
| Accounts.UserProfile.constructor | UMatter/accounts/views.py:125 | a profile created on first visit has no details and the language `en` |
| Accounts.UserProfile.Update | UMatter/accounts/views.py:129-134 | each profile field takes the sent value when its key was sent and keeps its old value otherwise |
| Accounts.UserAccount.Update | UMatter/accounts/views.py:137-140 | the names and the address follow the same rule |
| Accounts.ProfileUpdate | UMatter/accounts/views.py:127-140 | the POST branch updates all eight fields by that rule |
| Accounts.PostedIdempotent | UMatter/accounts/views.py:129-139 | posting the same form twice leaves a field as posting it once |
| Accounts.UnsentFieldKept | UMatter/accounts/views.py:129-139 | a field whose key is not sent keeps its value |

## Left out

- Loading `questions_ui.json` and `questions_ml.json` at import time is file I/O. The parsed sections and the question list are parameters.
- `predict_trauma` calls a scikit-learn model loaded from a pickle. Its output is an input function from features to (label, probability) items.
- Django ORM queries, `update_or_create`, JSON responses and HTTP status codes, CSRF handling, `timezone.now()` and the seven-day window are left out. Tables are maps and sequences. The mood logs of the past week are a given newest-first sequence.
- Ordering the recovery steps by day is done by the database. The steps arrive already ordered.
- `Sampler.SamplePositions`: models only the pool algorithm of CPython's `random.sample`, not its set-based branch for large populations. Both draw distinct positions, and that is what the properties use.
- `Sampler.GetRandomQuestion`: the index `random.choice` draws comes from the oracle. Uniformity is not modelled.
- The floating-point rounding of the means, the mood average and the percentage is not modelled. They are computed over the reals.
- `Chatbot.Lower`: lower-cases ASCII letters only. JavaScript's full Unicode case mapping is not modelled.
- The DOM, CSS classes, `setTimeout` delays, the typing indicator and focus handling in `chatbot.js` and `scripts.js` are left out. The welcome message and the bot reply are appended at once, with their times as parameters.
- `saveConversationHistory` and `loadConversationHistory` in `chatbot.js` use `localStorage`, which is persistent browser storage. They are not part of this model.
- `logout_view`, the flash messages and `login` itself only touch the session and the UI.
- `Chatbot.ActionMessage`: keys inherited from `Object.prototype`, such as `constructor` or `toString`, make `actionMap[action]` truthy in the source, which then sends the function's source text. The model treats them as unmapped. No button in `chatbot.js` carries such a value.
- `Accounts.SignupView`: whether `create_user` or the profile insert raises is a parameter. The text of the exception is not modelled.
- Password hashing and `authenticate` are left out. Whether the credentials are valid is a parameter.
- `UMatter/ScoringScoring/utils/predictor.py`, `core/models.py`, `core/admin.py`, the seed commands, the URL files, `ScoringScoring/views.py`, `animations.js` and `main.js` are not part of this model. They hold the classifier, the schema, the admin UI, fixtures, routing and display effects.
