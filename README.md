# CareerCompass decision logic in Dafny

CareerCompass is a client-side React app that guides Indian school students
towards a stream (science, commerce or arts) and a college. A student fills
in a profile, takes a ten-question aptitude quiz, signs in, browses colleges
and chats with a keyword-driven assistant. All state lives in one reducer
held by a context provider. A `currentPage` field in that state chooses
which page is rendered; there is no router.

This project models the decision logic behind those pages and proves what
it promises. Each source file becomes one module:

- `QuizUtils` (src/utils/quizUtils.js) covers quiz scoring and its tie-break order, the
  tie report, the recommendation banner, career-path lookup, the stream
  filter over the static college list, and the progress and badge rules.
  `CalculateQuizResults` is the scoring loop, proved against `QuizResultOf`.
- `AppContext` (src/context/AppContext.jsx) holds the initial state and
  `appReducer` as the pure function `Reduce`. The provider is the class
  `AppStore`, whose action creators replace its `state` field.
- `App` (src/App.jsx) is the page-id switch.
- `QuizPage` (src/pages/Quiz.jsx) is the quiz run as the class `QuizRun`. Its
  invariant keeps the answers in step with the question index.
- `CollegeDataService` (src/services/collegeDataService.js) is the
  in-memory directory as the class `CollegeDirectory`. It covers criteria
  search with a stable sort, top-ten recommendations, lookup by id, sorted
  distinct states and streams, and fee statistics.
- `CsvCollegeService` (src/services/csvCollegeService.js) covers the
  quote-toggling CSV line splitter, the row parser, the `₹` fee extractor,
  the keyword-priority course matcher and per-stream fee statistics. The
  class `CsvCatalogue` models the loading and caching.
- `FormRules`, `ProfileForm`, `ProfilePage` and `ProfileEditPage`
  (src/pages/Profile.jsx, src/pages/ProfileEdit.jsx) cover the profile form.
  This includes the class → board/stream, board → stream/interests and
  stream → interests resets, interest toggling, field-by-field validation,
  the prefill of the edit page, and the submit, cancel and logout handlers.
- `AuthPage` (src/pages/Auth.jsx) covers the sign-in and sign-up form: its
  validation, the user record it stores, forgot-password, social login and
  the mode toggle.
- `CollegeRecommendations` (src/components/CollegeRecommendations.jsx)
  covers preference updates and toggles, and the match percentage shown on a
  recommended college.
- `ChatInterface` and `QuickActions` (src/components/Chatbot/) cover the
  first-match keyword classifier and its replies, message numbering, the send
  guard, and the quick-action buttons offered for a profile.
- `Common` and `Sorting` are shared helpers: records with JavaScript
  truthiness, trimming, ASCII lower-casing, substring search, filtering,
  toggling, splitting and joining, rounded quotients, and a stable insertion
  sort that stands for `Array.prototype.sort`.

Some behaviours of the code are modelled as written:

- `getMatchPercentage` always counts the budget criterion, so its fallback
  of 85 is never returned.
- The quiz's retake payload has no `tiedStreams` key. The shallow merge of
  `SET_QUIZ_RESULTS` therefore keeps a tie report from the previous attempt.
- The pages `auth` and `profileEdit` are set by several handlers but have no
  case in the switch, so they render Welcome.
- `getCollegeById` returns the first match. The second copies of ids 22 to 27
  in the directory's table can never be found.
- The chat renders its quick actions without a user profile, so the four
  default buttons are always offered (`ChatOffersDefaults`).
- Navigation events carry no `text`. A navigate button therefore sends
  whatever is in the input box instead of navigating.
- The CSV splitter drops every `"` and toggles quoting. It does not implement
  the doubled-quote escape of rule 7 in section 2 of RFC 4180.

## Model

| member | source | states |
|---|---|---|
| QuizUtils.MaxScore | src/utils/quizUtils.js:17 | the maximum is at least each of the three scores and equals one of them |
| QuizUtils.Recommend | src/utils/quizUtils.js:17-28 | no recommendation iff the maximum is not positive; otherwise the recommended stream has the maximum score and every stream earlier in science, commerce, arts order scores strictly less |
| QuizUtils.TopCategories | src/utils/quizUtils.js:31-33 | exactly the streams whose score equals a positive maximum, in science, commerce, arts order |
| QuizUtils.Ties | src/utils/quizUtils.js:31-38 | a tie report exists iff two distinct streams share a positive maximum; it then lists exactly the streams at the maximum, in fixed order |
| QuizUtils.CalculateQuizResults | src/utils/quizUtils.js:2-41 | each score is the sum of the weights of that category's answers whose response is exactly "yes"; the recommendation and ties follow `Recommend` and `Ties`; `completed` is true |
| QuizUtils.TallyConcat | src/utils/quizUtils.js:10-14 | the score of two answer lists joined is the sum of their scores |
| QuizUtils.TallyPermutation | src/utils/quizUtils.js:10-14 | answer lists with the same multiset of answers have the same scores |
| QuizUtils.ResultIgnoresOrder | src/utils/quizUtils.js:2-41 | permuting the answers gives the same quiz result |
| QuizUtils.NoYesTalliesZero | src/utils/quizUtils.js:10-14 | without a "yes" answer every score is 0 |
| QuizUtils.NoSignalNoRecommendation | src/utils/quizUtils.js:17-39 | without a "yes" answer (including no answers) there is no recommendation and no tie report, and the result is completed |
| QuizUtils.ThreeWayTie | src/utils/quizUtils.js:20-38 | three equal positive scores recommend science and report all three streams |
| QuizUtils.RecommendationAmongTies | src/utils/quizUtils.js:20-38 | when ties are reported, the recommended stream is among them |
| QuizUtils.WorkedExample | src/utils/quizUtils.js:2-41 | a concrete five-answer run scores science 3, commerce 2, arts 0 and recommends science without ties |
| QuizUtils.ScoresSnoc | src/utils/quizUtils.js:10-14 | appending one answer adds its contribution to its own category only |
| QuizUtils.GetStreamRecommendation | src/utils/quizUtils.js:44-68 | the "take the quiz" banner is returned exactly when there is no stream |
| QuizUtils.StreamRecommendationInjective | src/utils/quizUtils.js:44-68 | different streams get different banners |
| QuizUtils.GetCareerPaths | src/utils/quizUtils.js:78-80 | an entry exactly when the stream is set and keyed in the career data, and then that entry |
| QuizUtils.FilterCollegesByStream | src/utils/quizUtils.js:71-75 | exactly the colleges offering the stream or "all", as an order-preserving subsequence |
| QuizUtils.GetUserProgress | src/utils/quizUtils.js:93-106 | 30 for a name and class, plus 50 for a completed quiz, plus 20 for a recommendation; between 0 and 100 |
| QuizUtils.GetUserBadge | src/utils/quizUtils.js:109-115 | top badge iff progress ≥ 100, lowest iff < 20, tier ≥ 3 iff ≥ 70, tier ≥ 2 iff ≥ 40 |
| QuizUtils.BadgeMonotone | src/utils/quizUtils.js:109-115 | more progress never gives a lower badge tier |
| QuizUtils.TopBadgeNeedsEverything | src/utils/quizUtils.js:93-115 | the top badge requires a name, a class, a completed quiz and a recommendation |
| AppContext.MergeQuiz | src/context/AppContext.jsx:51-58 | each result field present in the payload replaces the stored one, each absent field is kept |
| AppContext.MergeUser | src/context/AppContext.jsx:41-49 | the keys are the old keys, the payload's and `isLoggedIn`; payload fields win, other fields are kept, `isLoggedIn` is true |
| AppContext.Reduce | src/context/AppContext.jsx:39-72 | per action: user merge only, result merge only, page set only, reset to a logged-out zero state on "welcome", unrecognised actions change nothing |
| AppContext.SetUserInfoLogsIn | src/context/AppContext.jsx:41-49 | setting the user logs in, even when the payload says `isLoggedIn: false` |
| AppContext.FullPatchReplaces | src/context/AppContext.jsx:51-58 | a payload with every result field replaces the stored result outright |
| AppContext.RetakeKeepsStaleTies | src/pages/ResultsPage.jsx:38-44 | the retake payload zeroes the scores, clears the recommendation and completion, and keeps the previous tie report |
| AppContext.ReduceIdempotent | src/context/AppContext.jsx:60-67 | setting the same page twice, or resetting twice, equals doing it once |
| AppContext.ResetForgets | src/context/AppContext.jsx:66-67 | a reset yields the initial state from any state |
| AppContext.AppStore.constructor | src/context/AppContext.jsx:78-79 | the provider starts from the initial state |
| AppContext.AppStore.Dispatch | src/context/AppContext.jsx:79 | the new state is the reducer applied to the old state |
| AppContext.AppStore.SetUserInfo | src/context/AppContext.jsx:82-87 | dispatches the user action; the user is logged in afterwards |
| AppContext.AppStore.SetQuizResults | src/context/AppContext.jsx:89-94 | dispatches the result merge |
| AppContext.AppStore.SetCurrentPage | src/context/AppContext.jsx:96-101 | dispatches the page change |
| AppContext.AppStore.ResetState | src/context/AppContext.jsx:103-107 | the state becomes the initial state |
| AppContext.UseApp | src/context/AppContext.jsx:128-134 | succeeds with the provided store exactly when there is a provider, otherwise fails with the provider error message |
| App.RenderCurrentPage | src/App.jsx:13-28 | the rendered page has the current id, or it is Welcome and the id is none of the five known ones |
| App.RenderPageId | src/App.jsx:14-24 | each known page id renders its own page |
| App.UnroutedIdsRenderWelcome | src/App.jsx:25-26 | the ids "auth" and "profileEdit" render Welcome |
| App.RenderDependsOnlyOnPage | src/App.jsx:11-28 | two states with the same page id render the same page |
| QuizPage.ProgressPercent | src/pages/Quiz.jsx:17 | at most 100, and the nearest integer to 100·(i+1)/n with halves rounded up |
| QuizPage.ProgressMonotone | src/pages/Quiz.jsx:17 | progress never decreases as the question index grows |
| QuizPage.ProgressLast | src/pages/Quiz.jsx:16-17 | progress shows 100 exactly on the last question |
| QuizPage.RecordedExtend | src/pages/Quiz.jsx:23-33 | appending the answer to the next question keeps the answers in lock-step with the questions |
| QuizPage.RecordedIds | src/pages/Quiz.jsx:23-35 | once every question is answered, answer i carries question i's id |
| QuizPage.QuizRun.constructor | src/pages/Quiz.jsx:11-13 | a run starts at question 0 with no answers and no selection |
| QuizPage.QuizRun.IsLastQuestion | src/pages/Quiz.jsx:16 | true exactly on the last question |
| QuizPage.QuizRun.Progress | src/pages/Quiz.jsx:17 | at most 100, and 100 on the last question |
| QuizPage.QuizRun.HandleAnswerSelect | src/pages/Quiz.jsx:19-21 | only the selection changes |
| QuizPage.QuizRun.HandleNext | src/pages/Quiz.jsx:23-51 | appends the answer to the current question; on the last question stores the scored result and goes to "results" when logged in, "auth" otherwise; else advances by one and clears the selection, leaving the store alone |
| QuizPage.QuizRun.HandlePrevious | src/pages/Quiz.jsx:53-60 | a no-op on the first question; otherwise steps back, drops the last answer and clears the selection |
| QuizPage.SubmitResults | src/pages/Quiz.jsx:35-45 | the store holds the scored result and the page chosen by the login state |
| QuizPage.RunQuiz | src/pages/Quiz.jsx:9-60 | answering all ten questions records one answer per question in order and stores their score |
| CollegeDataService.FirstIndexOf | src/services/collegeDataService.js:832-834 | the first position holding the id, or none when no college has it |
| CollegeDataService.ShadowedEntry | src/services/collegeDataService.js:832-834 | a college whose id occurs earlier is never the one found |
| CollegeDataService.TableDuplicatesShadowed | src/services/collegeDataService.js:25-716 | the table's 36 entries repeat ids 22 to 27 at positions 27 to 32 |
| CollegeDataService.FilterStep | src/services/collegeDataService.js:729-762 | an optional filter applied after earlier ones equals one filter by their conjunction |
| CollegeDataService.SearchSteps | src/services/collegeDataService.js:729-762 | each optional filter of the search in turn equals one filter by the criteria passed so far |
| CollegeDataService.SortByKeyOrdered | src/services/collegeDataService.js:765-780 | the sorted list is ordered by the comparator's key |
| CollegeDataService.KeyOrderMeaning | src/services/collegeDataService.js:766-779 | key order means ascending fee or ranking, descending seats or year |
| CollegeDataService.SortByKeyStable | src/services/collegeDataService.js:765-780 | colleges with equal keys keep their relative order |
| CollegeDataService.SortByUnknownKey | src/services/collegeDataService.js:776-777 | an unknown sort key leaves the order unchanged |
| CollegeDataService.SortResults | src/services/collegeDataService.js:764-780 | a permutation, ascending by fee or ranking, descending by seats or year, stable, unchanged for unknown keys |
| CollegeDataService.SelectedMembers | src/services/collegeDataService.js:726-762 | a permutation of the filtered list holds exactly the colleges passing every active criterion |
| CollegeDataService.PreferenceSteps | src/services/collegeDataService.js:801-825 | each optional preference filter in turn equals one filter by the preferences passed so far |
| CollegeDataService.NarrowedSearch | src/services/collegeDataService.js:795-825 | the preference filters over the search result keep exactly the eligible colleges |
| CollegeDataService.OrderedPrefix | src/services/collegeDataService.js:828 | a prefix of a ranking-ordered list is ordered and ranks no worse than anything cut off |
| CollegeDataService.TopTen | src/services/collegeDataService.js:786-829 | the recommendations are the min(10, eligible) best-ranked eligible colleges, in ranking order |
| CollegeDataService.CollegeDirectory.constructor | src/services/collegeDataService.js:3-6 | empty and not initialised |
| CollegeDataService.CollegeDirectory.Initialize | src/services/collegeDataService.js:9-21 | loads the table on the first call only; later calls change nothing |
| CollegeDataService.CollegeDirectory.SearchColleges | src/services/collegeDataService.js:725-783 | exactly the colleges passing every active filter, in the order the sort key asks for, stable; with no criteria, the whole directory in order |
| CollegeDataService.CollegeDirectory.GetRecommendations | src/services/collegeDataService.js:786-829 | at most ten eligible colleges, ranking-ordered, none ranked worse than an eligible college left out |
| CollegeDataService.CollegeDirectory.GetCollegeById | src/services/collegeDataService.js:832-834 | found iff some college has the id; then the first such college |
| CollegeDataService.CollegeDirectory.GetStates | src/services/collegeDataService.js:837-839 | sorted, duplicate-free, exactly the states present |
| CollegeDataService.CollegeDirectory.GetStreams | src/services/collegeDataService.js:842-844 | sorted, duplicate-free, exactly the categories present |
| CollegeDataService.CollegeDirectory.PositiveFees | src/services/collegeDataService.js:848 | exactly the positive fees of the directory |
| CollegeDataService.CollegeDirectory.GetFeeStatistics | src/services/collegeDataService.js:847-854 | no statistics iff no positive fee; else the least and greatest positive fee, both attained, and an average that is the nearest integer to the sum of the positive fees over their count, halves rounded up, lying between them |
| CsvCollegeService.ParseCSVLine | src/services/csvCollegeService.js:126-146 | the character loop computes the fields of the line |
| CsvCollegeService.RunCounts | src/services/csvCollegeService.js:131-142 | inside quotes iff an odd number of quotes were read; one field per comma outside quotes; no field holds a quote |
| CsvCollegeService.FieldCount | src/services/csvCollegeService.js:126-146 | one more field than commas outside quotes, never none |
| CsvCollegeService.NoQuoteInFields | src/services/csvCollegeService.js:134-141 | no field contains `"` |
| CsvCollegeService.JoinFields | src/services/csvCollegeService.js:131-145 | for a line without quotes, joining the fields with commas gives the line back |
| CsvCollegeService.SplitJoined | src/services/csvCollegeService.js:126-146 | plain fields joined with commas split back into the same fields |
| CsvCollegeService.QuoteOpens | src/services/csvCollegeService.js:134-135 | an opening quote switches to quoted mode and is dropped |
| CsvCollegeService.QuotedComma | src/services/csvCollegeService.js:126-146 | a comma inside quotes stays in its field |
| CsvCollegeService.LeadingDigits | src/services/csvCollegeService.js:150 | the longest all-digit prefix |
| CsvCollegeService.FindAmount | src/services/csvCollegeService.js:150 | the first position of a `₹` followed by a digit, or none |
| CsvCollegeService.ExtractFeeAmount | src/services/csvCollegeService.js:149-152 | 0 without a `₹` followed by a digit; else the value of the digits after the first such `₹` |
| CsvCollegeService.FeeRoundTrip | src/services/csvCollegeService.js:149-152 | a fee written as `₹<n>/year` reads back as n |
| CsvCollegeService.TrimAll | src/services/csvCollegeService.js:110 | each value trimmed, same length |
| CsvCollegeService.TrimAllTrimmed | src/services/csvCollegeService.js:110 | every trimmed value starts and ends with a non-space |
| CsvCollegeService.AssignShape | src/services/csvCollegeService.js:109-111 | the row's keys are exactly the headers, each value one of the row's values |
| CsvCollegeService.AssignAt | src/services/csvCollegeService.js:109-111 | a header's last occurrence decides its value |
| CsvCollegeService.RowValuesShape | src/services/csvCollegeService.js:108-111 | keys are the trimmed headers, values are trimmed, a header's last column gives its value |
| CsvCollegeService.KeptLines | src/services/csvCollegeService.js:105-107 | the increasing indices ≥ 1 of exactly the lines with as many fields as headers |
| CsvCollegeService.KeptRows | src/services/csvCollegeService.js:105-120 | one row per kept line |
| CsvCollegeService.KeptRowsStep | src/services/csvCollegeService.js:105-119 | each loop step appends the row of a kept line and nothing for a skipped one |
| CsvCollegeService.KeptRowsFacts | src/services/csvCollegeService.js:105-119 | ids strictly increase, each row is its kept line, every kept line has a row |
| CsvCollegeService.ParsedRows | src/services/csvCollegeService.js:100-115 | every parsed row has the header keys, trimmed values and the fee amount of its Fee column |
| CsvCollegeService.ParseCSV | src/services/csvCollegeService.js:100-123 | the row loop computes the parse of the data |
| CsvCollegeService.FirstSelectedRuleDecides | src/services/csvCollegeService.js:166-187 | the first keyword rule that applies chooses the course fragments |
| CsvCollegeService.NoRuleSelected | src/services/csvCollegeService.js:186 | with no rule applying, the query itself is the fragment |
| CsvCollegeService.SelectsStreamRules | src/services/csvCollegeService.js:170-183 | each rule applies exactly when the query names one of its keywords |
| CsvCollegeService.ChosenFragments | src/services/csvCollegeService.js:170-186 | the fragments for each case of the priority chain |
| CsvCollegeService.StreamMatchesFollowsTable | src/services/csvCollegeService.js:164-187 | a college matches iff its lower-cased course holds a fragment the rule table chooses |
| CsvCollegeService.EarlierRuleWins | src/services/csvCollegeService.js:170-175 | "Medical Technology" selects engineering courses, not MBBS |
| CsvCollegeService.SortedFees | src/services/csvCollegeService.js:210 | the sorted fees are ascending and a permutation of the fees |
| CsvCollegeService.SortedEnds | src/services/csvCollegeService.js:210-216 | first is the least, last the greatest, the middle one a fee between them |
| CsvCollegeService.BelowRank | src/services/csvCollegeService.js:216 | at most k values lie below the k-th of a sorted list |
| CsvCollegeService.AboveRank | src/services/csvCollegeService.js:216 | at most n−k−1 values lie above the k-th of a sorted list |
| CsvCollegeService.SortedMean | src/services/csvCollegeService.js:210-215 | the rounded mean taken over the sorted copy is the rounded mean of the fees themselves |
| CsvCollegeService.FeeStatisticsOf | src/services/csvCollegeService.js:206-218 | none iff no fees; else least, greatest, an average that is the nearest integer to the sum of the fees over their count, halves rounded up, and a median from the fees with at most half below and half above |
| CsvCollegeService.StreamNames | src/services/csvCollegeService.js:193 | each row's Stream column, in order |
| CsvCollegeService.StreamNamesMembers | src/services/csvCollegeService.js:193 | exactly the Stream values present |
| CsvCollegeService.FeesOf | src/services/csvCollegeService.js:210 | each row's fee amount, none negative |
| CsvCollegeService.StateQueryIgnoresCase | src/services/csvCollegeService.js:200-202 | state queries equal up to case select the same rows |
| CsvCollegeService.CsvCatalogue.constructor | src/services/csvCollegeService.js:2-5 | empty and not loaded |
| CsvCollegeService.CsvCatalogue.LoadCollegesFromCSV | src/services/csvCollegeService.js:8-97 | returns the catalogue of the data; loaded iff the parse succeeds; once loaded the rows never change |
| CsvCollegeService.CsvCatalogue.GetCollegesByStream | src/services/csvCollegeService.js:160-188 | the catalogue's rows matching the course rule, as an order-preserving subsequence |
| CsvCollegeService.CsvCatalogue.GetAvailableStreams | src/services/csvCollegeService.js:191-195 | sorted, duplicate-free, exactly the Stream values present |
| CsvCollegeService.CsvCatalogue.GetCollegesByState | src/services/csvCollegeService.js:198-203 | exactly the rows whose State equals the query ignoring case |
| CsvCollegeService.CsvCatalogue.GetFeeStatistics | src/services/csvCollegeService.js:206-218 | the fee statistics of the stream's rows, none iff no row matches |
| FormRules.EmailLikeNotBlank | src/pages/Profile.jsx:257-261 | an address of the shape `\S+@\S+\.\S+` is never blank |
| FormRules.EmailExamples | src/pages/Profile.jsx:259 | "a@b.c" has the shape; "a@b", "a@.c" and "a @b.c" do not |
| FormRules.EmailRule | src/pages/Profile.jsx:257-261 | "required" iff blank, no error iff the address has the shape |
| FormRules.Digits | src/pages/Profile.jsx:265 | exactly the digit characters of the input, none added |
| FormRules.TenDigitPhoneNotBlank | src/pages/Profile.jsx:263-267 | a phone with ten digits is not blank |
| FormRules.PhoneRule | src/pages/Profile.jsx:263-267 | "required" iff blank, no error iff exactly ten digits remain once non-digits are removed |
| FormRules.DigitsIgnoreSeparator | src/pages/Profile.jsx:265 | separators do not change the digits |
| FormRules.ClearError | src/pages/Profile.jsx:215-221 | only the field's own error is emptied, and only if it was recorded |
| FormRules.CheckRule | src/pages/Profile.jsx:233-280 | one validation step adds the field's error when it has one and nothing otherwise |
| FormRules.FoundMeaning | src/pages/Profile.jsx:233-280 | after the steps, errors are recorded for exactly the checked fields that have one |
| FormRules.ClearErrorIdempotent | src/pages/Profile.jsx:215-221 | clearing twice is clearing once |
| ProfileForm.Write | src/pages/Profile.jsx:181-184 | the named field takes the value, the others keep theirs |
| ProfileForm.Cascade | src/pages/Profile.jsx:179-213 | the field takes the value; class clears board and stream; board clears stream and interests; stream clears interests; nothing else changes |
| ProfileForm.CascadeIdempotent | src/pages/Profile.jsx:179-213 | the same change twice equals once |
| ProfileForm.OfferedStreamsHaveInterests | src/pages/Profile.jsx:296-305 | any board offers streams, and every offered stream has six interests |
| ProfileForm.OtherBoardsShareDefault | src/pages/Profile.jsx:296-299 | a board other than CBSE and ICSE gets the default science, commerce, arts list |
| ProfileForm.ProfileErrors | src/pages/Profile.jsx:233-280 | an error for exactly the fields with a problem, with that problem's message |
| ProfileForm.FoundAll | src/pages/Profile.jsx:233-280 | the field-by-field checks in source order give the error map |
| ProfileForm.CheckName | src/pages/Profile.jsx:236-238 | adds the name rule's outcome |
| ProfileForm.CheckDateOfBirth | src/pages/Profile.jsx:240-242 | adds the date-of-birth rule's outcome |
| ProfileForm.CheckSchoolClass | src/pages/Profile.jsx:244-246 | adds the class rule's outcome |
| ProfileForm.CheckBoard | src/pages/Profile.jsx:249-251 | adds the board rule's outcome |
| ProfileForm.CheckStream | src/pages/Profile.jsx:253-255 | adds the stream rule's outcome |
| ProfileForm.CheckEmail | src/pages/Profile.jsx:257-261 | adds the email rule's outcome |
| ProfileForm.CheckPhone | src/pages/Profile.jsx:263-267 | adds the phone rule's outcome |
| ProfileForm.CheckLocation | src/pages/Profile.jsx:269-271 | adds the location rule's outcome |
| ProfileForm.CheckInterests | src/pages/Profile.jsx:274-276 | adds the interests rule's outcome |
| ProfileForm.NoErrorsIffAcceptable | src/pages/Profile.jsx:233-280 | the form is valid iff it meets every requirement |
| ProfileForm.NewStreamNeedsInterests | src/pages/Profile.jsx:274-276 | for 11th or 12th, choosing a stream leaves the form invalid until an interest is picked |
| ProfileForm.NewClassKeepsInterests | src/pages/Profile.jsx:187-194 | a class change clears the stream but keeps the interests |
| ProfileForm.FormRecord | src/pages/Profile.jsx:286 | the record stored on submit holds every form field under its key |
| ProfileForm.Prefill | src/pages/ProfileEdit.jsx:10-20 | each field comes from the user or is empty; the phone falls back to `mobile` |
| ProfileForm.PrefillReadsBack | src/pages/ProfileEdit.jsx:10-20 | a user holding a form's record is prefilled with that form |
| ProfileForm.Form.constructor | src/pages/Profile.jsx:8-20 | an empty form and no errors |
| ProfileForm.Form.Prefilled | src/pages/ProfileEdit.jsx:10-21 | the prefilled form and no errors |
| ProfileForm.Form.HandleInputChange | src/pages/Profile.jsx:179-222 | the form cascades the change and the field's error is cleared |
| ProfileForm.Form.HandleInterestToggle | src/pages/Profile.jsx:224-231 | only the interests change, by toggling the interest |
| ProfileForm.Form.ValidateForm | src/pages/Profile.jsx:233-280 | errors are the form's errors; valid iff acceptable; the form is unchanged |
| ProfilePage.HandleSubmit | src/pages/Profile.jsx:282-289 | when valid, stores the form as the user and goes to "quiz"; when invalid the store is unchanged |
| ProfilePage.HandleBack | src/pages/Profile.jsx:291-293 | the page becomes "welcome" |
| ProfilePage.SubmitStoresProfile | src/pages/Profile.jsx:285-288 | after a submit the user is logged in, holds every form field, and the quiz results are untouched |
| ProfilePage.SubmittedProfileReopens | src/pages/ProfileEdit.jsx:10-20 | a valid submitted profile prefills the edit page with the same form |
| ProfileEditPage.SavedUser | src/pages/ProfileEdit.jsx:262-265 | the old user overwritten by every form field, other fields kept |
| ProfileEditPage.HandleSubmit | src/pages/ProfileEdit.jsx:250-273 | when valid, saves the merged user and goes to "dashboard"; when invalid the store is unchanged |
| ProfileEditPage.HandleCancel | src/pages/ProfileEdit.jsx:275-277 | only the page changes, to "dashboard" |
| ProfileEditPage.HandleLogout | src/pages/ProfileEdit.jsx:279-284 | when confirmed, resets and goes to "welcome"; otherwise nothing changes |
| ProfileEditPage.LogoutIsInitial | src/pages/ProfileEdit.jsx:279-284 | a confirmed logout leaves exactly the initial state |
| ProfileEditPage.SaveKeepsOtherFields | src/pages/ProfileEdit.jsx:262-267 | the saved user is logged in, holds the form, and keeps every field the form lacks |
| ProfileEditPage.SavedFormReopens | src/pages/ProfileEdit.jsx:10-20 | reopening the edit page after a save shows the saved form |
| AuthPage.WriteField | src/pages/Auth.jsx:21-24 | the named field takes the value, the others keep theirs |
| AuthPage.ErrorsOf | src/pages/Auth.jsx:34-59 | an error for exactly the fields with a problem in the current mode |
| AuthPage.NoErrorsIffAcceptable | src/pages/Auth.jsx:57-58 | no errors iff the credentials are acceptable |
| AuthPage.FoundAll | src/pages/Auth.jsx:34-59 | the email, password and confirmation checks in order give the error map |
| AuthPage.CheckEmail | src/pages/Auth.jsx:37-41 | adds the email rule's outcome |
| AuthPage.CheckPassword | src/pages/Auth.jsx:43-47 | adds the password rule's outcome (required, at least 6 characters) |
| AuthPage.CheckConfirmation | src/pages/Auth.jsx:49-55 | adds the confirmation rule's outcome, checked only when signing up |
| AuthPage.SignUpIsStricter | src/pages/Auth.jsx:49-55 | sign-in ignores the confirmation, and any credentials accepted for sign-up are accepted for sign-in |
| AuthPage.SignedInUser | src/pages/Auth.jsx:69-74 | the old user with email replaced, login method "email" and logged in |
| AuthPage.SocialUser | src/pages/Auth.jsx:98-104 | the old user with the provider's name, e-mail and login method, logged in |
| AuthPage.SocialEmailAccepted | src/pages/Auth.jsx:101 | the made-up social address passes the email rule for any provider name without spaces |
| AuthPage.Auth.constructor | src/pages/Auth.jsx:9-17 | sign-in mode, forgot-password hidden, empty credentials and no errors |
| AuthPage.Auth.HandleInputChange | src/pages/Auth.jsx:19-32 | updates only the named field and clears only its error |
| AuthPage.Auth.ValidateForm | src/pages/Auth.jsx:34-59 | errors are the credentials' errors; valid iff acceptable; nothing else changes |
| AuthPage.Auth.HandleSubmit | src/pages/Auth.jsx:61-79 | when valid, stores the signed-in user and goes to "profile"; when invalid the store is unchanged |
| AuthPage.Auth.SetShowForgotPassword | src/pages/Auth.jsx:227 | only the forgot-password flag changes |
| AuthPage.Auth.HandleForgotPassword | src/pages/Auth.jsx:81-91 | a blank email sets only the email error; otherwise the view closes and errors stay |
| AuthPage.Auth.HandleSocialLogin | src/pages/Auth.jsx:93-111 | stores the social user and goes to "profile" |
| AuthPage.Auth.ToggleAuthMode | src/pages/Auth.jsx:113-117 | flips the mode, clears all errors, hides forgot-password |
| AuthPage.SignInKeepsUser | src/pages/Auth.jsx:69-78 | after sign-in the user is logged in with the email, other fields and quiz results kept, page "profile" |
| CollegeRecommendations.Update | src/components/CollegeRecommendations.jsx:43-48 | only the named preference changes |
| CollegeRecommendations.UpdateOverwrites | src/components/CollegeRecommendations.jsx:43-48 | an update repeated is applied once; the later of two updates to one key wins |
| CollegeRecommendations.Outcomes | src/components/CollegeRecommendations.jsx:78-106 | between one and four criteria are counted |
| CollegeRecommendations.Matches | src/components/CollegeRecommendations.jsx:75-106 | never more matches than criteria |
| CollegeRecommendations.MatchesAll | src/components/CollegeRecommendations.jsx:74-108 | all criteria match iff the match count equals the criteria count |
| CollegeRecommendations.MatchPercentage | src/components/CollegeRecommendations.jsx:74-108 | at most 100, and 100 iff every counted criterion matches |
| CollegeRecommendations.PercentOfCounts | src/components/CollegeRecommendations.jsx:108 | the criteria count is positive, so the 85 fallback is never taken |
| CollegeRecommendations.CountCriteria | src/components/CollegeRecommendations.jsx:75-106 | the counters equal the matches and the number of counted criteria |
| CollegeRecommendations.MoreMatchesScoreHigher | src/components/CollegeRecommendations.jsx:74-108 | with the same criteria, more matches never give a lower percentage |
| CollegeRecommendations.DefaultsJudgeBudgetOnly | src/components/CollegeRecommendations.jsx:9-15 | with the default preferences a college scores 100 within ten lakh and 0 above it |
| CollegeRecommendations.Panel.constructor | src/components/CollegeRecommendations.jsx:9-15 | the panel starts with the default preferences |
| CollegeRecommendations.Panel.UpdatePreferences | src/components/CollegeRecommendations.jsx:43-48 | the preferences take the update |
| CollegeRecommendations.Panel.HandleStateToggle | src/components/CollegeRecommendations.jsx:50-57 | only the preferred states change, and the state's membership flips |
| CollegeRecommendations.Panel.HandleStreamToggle | src/components/CollegeRecommendations.jsx:59-66 | only the preferred streams change, and the stream's membership flips |
| CollegeRecommendations.Panel.GetMatchPercentage | src/components/CollegeRecommendations.jsx:74-109 | the match percentage, between 0 and 100 |
| ChatInterface.ClassifyIsFirstMatch | src/components/Chatbot/ChatInterface.jsx:28-86 | the if-chain picks the first keyword group the lower-cased message mentions |
| ChatInterface.FirstMentionedPicks | src/components/Chatbot/ChatInterface.jsx:31-85 | the first mentioned group decides |
| ChatInterface.FirstMentionedFallsThrough | src/components/Chatbot/ChatInterface.jsx:76-85 | the default topic iff no group is mentioned |
| ChatInterface.FirstGroupWins | src/components/Chatbot/ChatInterface.jsx:31-85 | a message mentioning group i and no earlier group gets group i's topic |
| ChatInterface.DefaultIffNoKeyword | src/components/Chatbot/ChatInterface.jsx:76-84 | the default reply iff the message mentions no keyword |
| ChatInterface.ClassifyIgnoresCase | src/components/Chatbot/ChatInterface.jsx:29 | messages equal up to case get the same topic |
| ChatInterface.ReplyActions | src/components/Chatbot/ChatInterface.jsx:31-85 | 2 actions for quiz, 4 for help, 3 otherwise, with distinct action tags |
| ChatInterface.NumberedIdsDistinct | src/components/Chatbot/ChatInterface.jsx:91-116 | message ids never repeat |
| ChatInterface.NumberedExtend | src/components/Chatbot/ChatInterface.jsx:91-116 | appending messages numbered length+1 and length+2 keeps the numbering |
| ChatInterface.TrimsToEmpty | src/components/Chatbot/ChatInterface.jsx:89 | the send guard fires iff the text is blank |
| ChatInterface.EventText | src/components/Chatbot/ChatInterface.jsx:131-133 | a quick-action event has no text iff it is a navigation |
| ChatInterface.ChatSession.constructor | src/components/Chatbot/ChatInterface.jsx:6-15 | the greeting alone, an empty input, not typing |
| ChatInterface.ChatSession.SetInputText | src/components/Chatbot/ChatInterface.jsx:184 | only the input text changes |
| ChatInterface.ChatSession.SendMessage | src/components/Chatbot/ChatInterface.jsx:88-129 | blank text changes nothing; otherwise the user message (id length+1) and the bot reply (id length+2) are appended and the input is cleared |
| ChatInterface.ChatSession.HandleQuickAction | src/components/Chatbot/ChatInterface.jsx:131-133 | exactly `SendMessage` of the event's text, or of the input box when it has none: nothing changes for blank text; otherwise the history is kept, the user message and the bot's reply to it are appended with the next two ids, and the input is cleared |
| ChatInterface.ChatOffersDefaults | src/components/Chatbot/ChatInterface.jsx:178 | the chat passes no profile, so it always offers the four default buttons, the quiz link first, with distinct ids |
| QuickActions.StreamActions | src/components/Chatbot/QuickActions.jsx:32-84 | three buttons; any stream other than Commerce and Arts gets Science's |
| QuickActions.GetQuickActions | src/components/Chatbot/QuickActions.jsx:4-103 | no stream: four buttons, the first going to the quiz; with a stream: the two base buttons then the stream's three, all questions |
| QuickActions.DefaultIdsDistinct | src/components/Chatbot/QuickActions.jsx:5-29 | the default buttons have distinct ids |
| QuickActions.StreamIdsDistinct | src/components/Chatbot/QuickActions.jsx:32-97 | base and stream buttons have distinct ids |
| QuickActions.QuickActionIdsDistinct | src/components/Chatbot/QuickActions.jsx:5-102 | ids never repeat in an offered list |
| QuickActions.UnknownStreamGetsScience | src/components/Chatbot/QuickActions.jsx:101 | an unknown stream is offered Science's buttons after its own recommendation button |
| QuickActions.RecommendationNamesStream | src/components/Chatbot/QuickActions.jsx:88-91 | the first button asks a question naming the stream |
| QuickActions.HandleActionClick | src/components/Chatbot/QuickActions.jsx:105-117 | with a handler, a navigate button emits its target and a non-empty question emits itself; otherwise nothing |
| QuickActions.EveryButtonEmits | src/components/Chatbot/QuickActions.jsx:105-117 | every offered button emits with a handler and nothing without; only the no-stream quiz button navigates |
| Common.RoundedQuotient | src/services/csvCollegeService.js:215 | `Math.round(a / b)`: the nearest integer, halves rounded up |
| Common.RoundedPercent | src/components/CollegeRecommendations.jsx:108 | `Math.round(a / b * 100)`: the nearest integer to 100a/b, halves rounded up |
| Common.RoundedPercentBounds | src/components/CollegeRecommendations.jsx:108 | at most 100 for a ≤ b, and 100 when a = b |
| Common.RoundedPercentMonotone | src/components/CollegeRecommendations.jsx:108 | a larger numerator never gives a lower percentage |
| Common.RoundedPercentBelowWhole | src/components/CollegeRecommendations.jsx:108 | below 100 when a < b < 200 |
| Common.SeqMin | src/services/collegeDataService.js:850 | `Math.min(...fees)`: a member not above any other |
| Common.SeqMax | src/services/collegeDataService.js:851 | `Math.max(...fees)`: a member not below any other |
| Common.MeanBetween | src/services/collegeDataService.js:852 | the rounded mean of non-negative values lies between their least and greatest |
| Common.RoundedMean | src/services/collegeDataService.js:852 | `Math.round(sum / n)` of a non-negative sum is the nearest integer to the mean, halves rounded up |
| Common.SumPermutation | src/services/csvCollegeService.js:210-215 | lists with the same multiset of terms have the same sum, so summing the sorted copy gives the sum of the fees |
| Common.Lower | src/components/Chatbot/ChatInterface.jsx:29 | lower-casing keeps the length |
| Common.LowerIdempotent | src/components/Chatbot/ChatInterface.jsx:29 | lower-casing twice is lower-casing once |
| Common.TrimEmptyIffBlank | src/pages/Auth.jsx:37 | `s.trim()` is empty iff s is all white space |
| Common.TrimIsTrimmed | src/services/csvCollegeService.js:110 | a trimmed string neither starts nor ends with white space |
| Common.Filter | src/utils/quizUtils.js:72-74 | `Array.prototype.filter`: exactly the elements passing the test |
| Common.FilterIsSubsequence | src/utils/quizUtils.js:72-74 | the filtered list keeps the original order |
| Common.ToggleFlips | src/components/CollegeRecommendations.jsx:53-55 | toggling flips the item's membership and leaves every other item's alone |
| Common.ToggleTwice | src/pages/Profile.jsx:227-229 | toggling an absent item twice restores the list |
| Common.Split | src/services/csvCollegeService.js:101-102 | `String.prototype.split` never returns an empty list |
| Common.SplitRunJoin | src/services/csvCollegeService.js:101-102 | joining the pieces with the separator gives the string back; no piece holds it |
| Sorting.SortPermutes | src/services/collegeDataService.js:766-779 | sorting permutes the list |
| Sorting.SortSorted | src/services/collegeDataService.js:766-779 | with a total preorder, the result is sorted |
| Sorting.SortStable | src/services/collegeDataService.js:766-779 | elements the order cannot tell apart keep their relative order |
| Sorting.SortTrivial | src/services/collegeDataService.js:776-777 | a comparator that never separates leaves the order unchanged |
| Sorting.StrOrderIsTotalPreorder | src/services/collegeDataService.js:838 | the code-point string order that stands for the default order of `sort()` is a total preorder |
| Sorting.Dedup | src/services/collegeDataService.js:838 | `[...new Set(xs)]`: the distinct members, none repeated |
| Sorting.UniqueSorted | src/services/collegeDataService.js:837-839 | sorted, duplicate-free, exactly the members of the input |
| Sorting.IntOrderIsTotalPreorder | src/services/csvCollegeService.js:210 | the numeric comparator `a - b` orders as a total preorder |

## Left out

- JSX rendering, CSS, scrolling and the chat's open/closed flag are not modelled; only the state the handlers change is.
- Timers and promises are not modelled: the chat's typing delay, the edit page's save delay and the social-login delay are taken as immediate. So the chat is never typing between sends, and concurrent sends are not modelled. Such sends would number their messages from a stale `messages.length`.
- The chat's error path (lines 117-125) is not modelled because `getBotResponse` cannot throw. Message timestamps are not modelled either.
- `window.confirm` becomes the `confirmed` parameter of `HandleLogout`. The `alert` of forgot-password, `console` output and `scrollIntoView` are not modelled.
- `generateRating` uses `Math.random` and is not modelled, so CSV rows carry no rating.
- `formatFee` (`toFixed`/`toLocaleString`) and `formatCurrency` (`Intl.NumberFormat`) are not modelled, because they are locale formatting.
- Floating-point arithmetic is replaced by exact rationals for `Math.round(x / n * 100)` and `Math.round(sum / n)`. The two agree for the denominators that occur (ten questions, at most four criteria), but floating-point rounding of other quotients is not modelled.
- `loadRecommendations` in CollegeRecommendations.jsx is not modelled because it is async and reads fields that the user record never holds. The directory's `getRecommendations`, which it calls, is modelled.
- `getAllColleges` only returns the `colleges` field, which the model reads directly.
- The directory's 36-entry table and the CSV literal are not modelled as data. They become the `table` parameter of `Initialize` and the `csvData` parameter of the `CsvCatalogue` constructor. Only the table's ids (`TableIds`) and the ten quiz questions' ids, categories and weights are kept as constants.
- Option labels, the tenth-class roadmap, the interest labels of the profile pages and the `description` text of each quiz recommendation banner are not modelled; only the lists' values and the banners' titles and colours are.
- Lower-casing is ASCII only; Unicode case folding is not modelled.
- Strings count characters, not UTF-16 code units. This affects the password length and the emoji button labels.
- String sorting compares code points (`StrLeq`), while `sort()` without a comparator compares UTF-16 code units. The two orders differ when a character above U+FFFF (an emoji, encoded as surrogates D800-DFFF) meets one in U+E000-U+FFFF. `GetStates` and `CsvCatalogue.GetAvailableStreams` can therefore order such names differently from the app.
- A missing `Stream` or `State` CSV column reads as "" (JavaScript would throw on `undefined.toLowerCase()`).
- `parseInt` on a digit run too long for a double is read exactly here; JavaScript loses precision there.
- Non-string values in the user record (a number where a name is expected, say) read as "" in the edit page's prefill.
- Search criteria are typed, so a falsy criterion is "" or 0 or absent. A non-numeric `maxFee` (NaN) is not modelled.
- Keys inherited from `Object.prototype` (a stream called "constructor") are not modelled. They would make `streamOptions[...]`, `interestOptionsByStream[...]` and `streamActions[...]` return a function.
- An input name outside the form's fields in `handleInputChange` is not modelled, because the form only renders its own fields.
- QuizPage.QuizRun.HandleAnswerSelect: requires the answer to be "yes" or "no", because the page offers only those two buttons (src/pages/Quiz.jsx:123, 141).
- QuizPage.QuizRun.HandleNext: requires a selection and an unfinished run. The Next button is disabled without a selection, and after the last question the page changes (src/pages/Quiz.jsx:181).
- QuizPage.QuizRun.HandlePrevious: requires an unfinished run, for the same reason.
- CollegeRecommendations.Panel.GetMatchPercentage: exact rational rounding, for the reason given above.
