# Nabaha tutoring platform — a verified model of its core

Nabaha is an Arabic-language tutoring web application. A signed-in student
buys one of three plans (emergency, basic, premium). Each plan credits a
number of tutoring sessions and runs for a fixed number of days. The
student opens chat sessions with an AI tutor, uploads course files for
analysis, takes generated assessments whose answers are scored and analysed
for weak areas, asks for summaries and translations, and files support
tickets. A dashboard shows the student's mastery per subject. A
subscription page shows days left and session usage.

This project models that core in Dafny:

- **Schema** (`schema.dfy`): the tables, enumerations and column defaults; the plan catalogue; the integer-column range.
- **Storage** (`storage.dfy`): the data-access layer, as a class `Store` whose six tables are `seq` fields.
  - Every query and update is a method.
  - Each method states the whole new state of the tables (`Db()`).
  - Each method keeps the store invariant: ids numbered 1, 2, 3, ... in the order of successful inserts, unique user ids, unique emails, foreign keys.
- **Gateway** (`gateway.dfy`): the AI gateway's result shaping.
  - The defaults filled in when the model's answer lacks fields.
  - The answer score.
  - The prompt inputs.
  - The rethrown error messages.
  - The model itself is a parameter: a function from the request to its result.
- **Routes** (`routes.dfy`): the HTTP handlers.
  - Each handler is a method over the store that returns the reply it sends: a body with status 200, or an error status with its message.
  - The payment provider, the language model and the file system are function-valued parameters.
- **Params** (`params.dfy`): JavaScript truthiness of body fields, `parseInt` on path and body ids, and `trim`.
- **Account, Mastery, HomePage, SubscribePage** (`account.dfy`, `mastery.dfy`, `home.dfy`, `subscribe.dfy`): the client-side rules.
  - The subscription-active test.
  - The mastery badge's levels, trend and advice.
  - The dashboard's overall mastery and per-subject breakdown; the breakdown is a loop over an accumulator, proved against its definition.
  - The new-session gate, as a class holding the page's UI state.
  - The subscription page's days remaining, session usage and plan buttons.

Time is integer milliseconds since the epoch. Scores are exact reals.

The model follows the code in these places, where a reader might expect otherwise:

- Posting a chat message does not refresh the session's `updatedAt`.
- A reply from the model that is not JSON makes question generation fail with 500; it does not fall back to an empty list.
- An unsupported or oversize upload is rejected by the upload middleware. The framework's default error handler turns that into 500, not 400.
- A request body the insert schema refuses gives 500, not 400. Examples are a session without a title and a ticket without an email.
- The server's session gate checks only the balance, not the expiry (`HomePage.ServerIgnoresExpiry`). Only the client also checks the expiry.
- When the AI reply to a chat message fails, the student's message stays stored and the reply is a 500. There is no success-with-caveat reply.
- When the provider creates a customer but refuses the subscription, the customer id and an empty subscription id are written to the user row (`Routes.CreateSubscription`). Plan, expiry and credits stay unchanged.

## Model

| member | source | states |
|---|---|---|
| Schema.ParsePlanKey | shared/schema.ts:210-252 | exactly the keys "emergency", "basic" and "premium" name a plan, and each names its own |
| Schema.PlanOf | shared/schema.ts:210-250 | the special plan is the emergency plan; every plan has a positive price, duration and session count |
| Schema.PlanKeyRoundTrip | shared/schema.ts:210-252 | a plan's key parses back to that plan, and no other key does |
| Schema.PlanCatalogue | shared/schema.ts:211-249 | emergency 20 SAR / 30 days / 2 sessions, basic 35 / 90 / 4, premium 60 / 180 / 6 |
| Schema.PlanMonotone | shared/schema.ts:210-250 | a higher plan costs more, lasts longer and credits more sessions |
| Schema.NewUser | shared/schema.ts:29-42 | a first login has no plan, no billing ids, no expiry and a balance of 0 |
| Schema.NewChatSession | shared/schema.ts:45-53 | a new session is active unless the insert says otherwise, and takes the insert's flag when it gives one |
| Schema.NewChatMessage | shared/schema.ts:56-63 | a stored message carries the insert's session, role, content and metadata |
| Schema.NewUploadedFile | shared/schema.ts:66-76 | a new file row is not yet processed |
| Schema.NewPerformanceAnalytics | shared/schema.ts:79-91 | the stored row carries the insert's user, subject, score and weak areas |
| Schema.NewSupportTicket | shared/schema.ts:94-106 | a new ticket is open unless the insert says otherwise, and takes the insert's status when it gives one |
| Storage.UserIndex | server/storage.ts:61-64 | finds a position exactly when some row carries the id, and that row carries it |
| Storage.EmailHolder | shared/schema.ts:31 | finds a row of another id holding the non-null email exactly when there is one, and an absent email is never held |
| Storage.Store.constructor | server/storage.ts:59-60 | the store starts with six empty tables |
| Storage.Store.GetUser | server/storage.ts:61-64 | returns the row with that id, or none when there is none |
| Storage.Store.UpsertUser | server/storage.ts:66-79 | an email that a row of another id already holds fails the unique email column, and nothing is written; otherwise a new id appends a fresh row and a known id overwrites only the profile fields and `updatedAt`; ids and emails stay unique |
| Storage.Store.UpdateUserStripeInfo | server/storage.ts:81-92 | writes both billing ids into that one row; an unknown id changes nothing |
| Storage.Store.UpdateUserSubscription | server/storage.ts:94-106 | writes plan, expiry and balance into that one row; an unknown id changes nothing |
| Storage.Store.CreateChatSession | server/storage.ts:109-115 | appends a session with the next serial id when the owner exists; otherwise changes nothing |
| Storage.Store.GetChatSession | server/storage.ts:117-123 | returns the session with that id exactly when the id is in range |
| Storage.Store.GetUserChatSessions | server/storage.ts:125-131 | exactly the user's sessions, most recently updated first |
| Storage.Store.UpdateChatSession | server/storage.ts:133-140 | applies the given fields to that one session and refreshes its `updatedAt` |
| Storage.Store.CreateChatMessage | server/storage.ts:143-149 | appends a message when its session exists; otherwise changes nothing |
| Storage.Store.GetSessionMessages | server/storage.ts:151-157 | exactly that session's messages, oldest first |
| Storage.Store.CreateUploadedFile | server/storage.ts:160-166 | appends a file row when its owner (and session, if given) exists |
| Storage.Store.GetUploadedFile | server/storage.ts:168-174 | returns the file with that id when there is one |
| Storage.Store.GetUserFiles | server/storage.ts:176-182 | exactly the user's files, newest first |
| Storage.Store.UpdateFileProcessStatus | server/storage.ts:184-191 | changes only the processed flag of that one file |
| Storage.Store.CreatePerformanceAnalytics | server/storage.ts:194-200 | appends an analytics row when its owner (and session, if given) exists |
| Storage.Store.GetUserPerformanceAnalytics | server/storage.ts:202-208 | exactly the user's analytics rows, newest first |
| Storage.Store.GetSubjectPerformanceAnalytics | server/storage.ts:210-219 | the user's rows on that subject, newest first, the same as narrowing the user's rows |
| Storage.Store.CreateSupportTicket | server/storage.ts:222-228 | appends a ticket when its user, if any, exists |
| Storage.Store.GetSupportTicket | server/storage.ts:230-236 | returns the ticket with that id when there is one |
| Storage.Store.GetUserSupportTickets | server/storage.ts:238-244 | exactly the user's tickets, newest first |
| Storage.Store.UpdateSupportTicketStatus | server/storage.ts:246-253 | writes the status and refreshes `updatedAt` of that one ticket |
| Storage.QueryMembers | server/storage.ts:125-131 | filtering then sorting keeps exactly the rows that match |
| Rows.SortDescPermutes | server/storage.ts:125-131 | ordering rows is a permutation |
| Rows.SortDescSorted | server/storage.ts:125-131 | ordering rows leaves them in descending key order |
| Rows.SelectSortDesc | server/storage.ts:210-219 | filtering commutes with ordering |
| Gateway.Rethrow | server/openai.ts:77-79 | the error message is the task's Arabic prefix followed by the cause |
| Gateway.RethrowInjective | server/openai.ts:77-79 | from a rethrown message one can tell which task failed and why |
| Gateway.GenerateChatResponse | server/openai.ts:40-80 | the reply is the model's text or "", with model "gpt-4o", the time and the subject as metadata |
| Gateway.QuestionRequestOf | server/openai.ts:83-87 | difficulty defaults to "medium" and the count to 5 |
| Gateway.GenerateAssessmentQuestions | server/openai.ts:83-126 | the parsed questions, or none when the answer has no list |
| Gateway.CorrectAnswers | server/openai.ts:135 | the number of correct answers is never more than the number of answers |
| Gateway.CorrectAnswersExtremes | server/openai.ts:135 | all answers count as correct exactly when every answer matches, and none does exactly when no answer matches |
| Gateway.CorrectPlusWrong | server/openai.ts:135-136 | every answer is either correct or wrong |
| Gateway.Score | server/openai.ts:135-137 | the score is between 0 and 100; it is 100 exactly when all answers are correct and 0 exactly when none is |
| Gateway.AnalysisRequestOf | server/openai.ts:129-160 | the request marks each answer correct or not and counts them |
| Gateway.AnalyzePerformance | server/openai.ts:129-182 | the analysis carries the computed score and counts; missing weak areas and recommendations become empty lists |
| Gateway.TemplateFor | server/openai.ts:189-200 | three named summary kinds; anything else is a general summary |
| Gateway.JoinLength | server/openai.ts:202-204 | the joined focus areas are as long as their parts plus the separators |
| Gateway.SummaryPromptOf | server/openai.ts:185-205 | the focus line is present exactly when focus areas are given |
| Gateway.GenerateSummary | server/openai.ts:185-218 | the summary text, or a fixed apology; never empty |
| Gateway.PdfExcerpt | server/openai.ts:233 | the model sees at most the first 2000 characters of the file |
| Gateway.AnalyzePdfContent | server/openai.ts:221-258 | missing subject and summary get their fixed defaults, so neither is empty |
| Gateway.LanguageName | server/openai.ts:266-271 | "ar" is Arabic and "en" English; a name inherited by every plain object finds that member's text; any other code finds nothing |
| Gateway.InheritedCodeIsNamed | server/openai.ts:266-271 | the code "constructor" gives the model the source text of `Object` as the target language, while "fr" gives nothing |
| Gateway.TranslationRequestOf | server/openai.ts:261-273 | the model gets the text unchanged and whatever the language map finds for the code |
| Gateway.TranslateContent | server/openai.ts:261-286 | the translation, or a fixed failure text |
| Params.ParseIntLeading | server/routes.ts:196 | `parseInt` of blank text is NaN; a leading decimal digit that does not start `0x` always gives a number, never a negative one; a negative number needs a minus sign |
| Params.ParseIntString | server/routes.ts:196 | parsing the decimal numeral of an integer gives that integer back |
| Params.ParseIntIgnoresTail | server/routes.ts:214 | whatever follows the digits of an id does not change it |
| Params.OptionalId | server/routes.ts:360 | a falsy field is null; a nonzero JSON number reads as `parseInt` of its printed form; text that does not parse is NaN; `true` and an object are NaN |
| Params.ParseIntNoNumeral | server/routes.ts:360 | text starting with neither whitespace, a sign nor a digit, such as "true" or "[object Object]", parses to NaN |
| Params.NumberId | server/routes.ts:360 | a number printed plainly reads as its value rounded toward zero; one printed with an exponent reads as its first significant digit; the sign is kept |
| Params.NumberIdWhole | server/routes.ts:360 | an integral number below 10^21 in magnitude reads as itself, as its numeral does |
| Params.HugeNumberReadsLeadingDigit | server/routes.ts:360 | a digit times 10^21 or more reads as that digit alone, with its sign |
| Params.TinyNumberReadsLeadingDigit | server/routes.ts:360 | a digit times 10^-7 or less reads as that digit alone |
| Params.Trim | server/routes.ts:113 | the trimmed name is a slice of the input, everything dropped before and after it is whitespace, and it neither starts nor ends with whitespace |
| Routes.CurrentUser | server/routes.ts:55-74 | 401 without an identity, 404 without a row, otherwise the caller's own row |
| Routes.PlanFromRequest | server/routes.ts:80-84 | exactly the three catalogue keys are accepted (corrected guard) |
| Routes.InheritedNamePassesPlanGuard | server/routes.ts:80-84 | the guard as written accepts "constructor" and "toString" |
| Routes.PlanGuardsAgree | server/routes.ts:80-84 | apart from inherited names, the guard as written and the corrected one agree |
| Routes.ChargeFor | server/routes.ts:120-131 | the plan's price is charged monthly in SAR, in halalas |
| Routes.Subscribed | server/routes.ts:133-139 | after a purchase the plan is set, the expiry lies `duration` days ahead and the balance is the plan's sessions |
| Routes.CreateSubscription | server/routes.ts:77-149 | 400 for a bad plan and 404 for a missing user; 500 when the stored subscription cannot be retrieved; the stored subscription itself when it is still active; 400 without an email; all of these write nothing; otherwise the purchase's outcome |
| Routes.Purchase | server/routes.ts:108-144 | a failed customer lookup is a 500 that writes nothing; a refused subscription is a 500 that leaves only a newly created customer recorded; an accepted one is the reply, and the row becomes `Subscribed` |
| Routes.CustomerWritten | server/routes.ts:108-117 | a stored customer leaves the tables as they were; a new one is recorded in that user's row |
| Routes.SessionCreditConserved | server/routes.ts:152-181 | opening a session moves one credit from the balance to the session list |
| Routes.HasCredit | server/routes.ts:157 | the server's session gate lets a user through exactly when the balance the pages show is positive |
| Routes.StartChatSession | server/routes.ts:152-181 | 403 without credit, with nothing written; otherwise the session is appended, the balance drops by exactly 1 and stays at least 0 |
| Routes.PathId | server/routes.ts:196 | an id reaches the database exactly when it parses to an integer-column value |
| Routes.ViewChatSession | server/routes.ts:194-209 | 404 unless the caller owns the session; otherwise the session and exactly its messages |
| Routes.ChatRequestFor | server/routes.ts:231-235 | the subject is passed to the model only when the session has one |
| Routes.PostChatMessage | server/routes.ts:212-250 | 404 unless owned; the student's message is stored before the model is asked; on success both messages are appended |
| Routes.ExchangeEndsHistory | server/routes.ts:224-245 | with a clock that does not run backwards, a chat turn adds exactly the question and the answer to the end of that session's history, and no other history changes |
| Routes.Accepted | server/routes.ts:35-48 | the upload middleware passes exactly a PDF or Word file of at most 10 485 760 bytes |
| Routes.IdColumn | server/routes.ts:262-269 | an optional id is stored exactly when it is null or a valid integer-column value |
| Routes.PdfAnalysisOf | server/routes.ts:272-276 | only a PDF that was read is analysed |
| Routes.UploadFile | server/routes.ts:253-299 | the type filter and size limit come first, then the missing file; any error writes nothing; otherwise one file row is appended, flagged processed exactly when the analysis succeeded |
| Routes.Translate | server/routes.ts:313-327 | 400 without content; the target language defaults to Arabic; the reply is never empty |
| Routes.TranslateDefaultsToArabic | server/routes.ts:315 | without a target language the text goes to Arabic |
| Routes.GenerateQuestions | server/routes.ts:330-344 | 400 without a subject; otherwise the generated questions, or 500 |
| Routes.EmptyAnswersPassGuard | server/routes.ts:351-353 | the guard as written accepts an empty answer list, which scores NaN |
| Routes.AnswersGuardsAgree | server/routes.ts:351-353 | apart from the empty list, the guard as written and the corrected one agree |
| Routes.AnalyzeAnswers | server/routes.ts:346-375 | 400 without a subject or answers; otherwise the analysis, with a score in 0..100, is stored as one new row of the caller's |
| Routes.Summarize | server/routes.ts:378-397 | 400 without content; the kind defaults to "general"; the reply is never empty |
| Routes.PerformanceReport | server/routes.ts:400-417 | the caller's rows, narrowed to the subject when one is given, newest first |
| Routes.SubmitSupportTicket | server/routes.ts:420-432 | an incomplete form is a 500 with nothing written; otherwise one open ticket is appended |
| Account.IsSubscriptionActive | client/src/pages/home.tsx:43-45 | active exactly when the user has an expiry and it lies after now; no user or no expiry is inactive |
| Account.SessionsRemainingShown | client/src/pages/home.tsx:47 | no user and no balance both show 0 |
| Account.FirstLoginShowsNothing | client/src/pages/home.tsx:43-47 | a student who has only logged in shows no running subscription and a balance of 0 |
| Mastery.RoundHalfUp | client/src/components/MasteryIndicator.tsx:67 | the rounded value lies within a half of the value |
| Mastery.MasteryLevel | client/src/components/MasteryIndicator.tsx:27-31 | high from 80, medium from 60 below 80, low below 60, with no gap and no overlap; the simplified badge at line 152 tests the same thresholds in the same order |
| Mastery.MasteryMonotone | client/src/components/MasteryIndicator.tsx:27-31 | a higher percentage never shows a lower level |
| Mastery.GetTrend | client/src/components/MasteryIndicator.tsx:33-42 | no trend unless asked for with a previous value; then up, down or flat exactly as the values compare |
| Mastery.TrendSwapped | client/src/components/MasteryIndicator.tsx:36-41 | swapping the two values swaps up and down |
| Mastery.TooltipAdvice | client/src/components/MasteryIndicator.tsx:139-141 | exactly one advice line shows, the one for the badge's level |
| HomePage.CalculateOverallMastery | client/src/pages/home.tsx:50-54 | 0 without rows; otherwise the nearest integer to the mean score |
| HomePage.OverallMasteryBounds | client/src/pages/home.tsx:50-54 | with percentage scores the overall mastery is between 0 and 100 |
| HomePage.AverageConstant | client/src/pages/home.tsx:53 | rows that all score c average to c |
| HomePage.Dedup | client/src/pages/home.tsx:74 | every weak area appears once, and nothing else appears |
| HomePage.DedupFirstOccurrenceOrder | client/src/pages/home.tsx:74 | weak areas keep the order of their first occurrence |
| HomePage.DedupIdempotent | client/src/pages/home.tsx:74 | de-duplicating twice changes nothing |
| HomePage.GroupBySubject | client/src/pages/home.tsx:61-70 | one accumulator entry per subject, in order of first appearance, holding exactly that subject's scores and weak areas |
| HomePage.GroupRowsGrouped | client/src/pages/home.tsx:61-70 | folding the rows one at a time into the accumulator gives exactly the per-subject grouping, keyed in order of first appearance |
| HomePage.GetSubjectBreakdown | client/src/pages/home.tsx:59-76 | no rows gives an empty breakdown; otherwise the breakdown by definition |
| HomePage.BreakdownSubjects | client/src/pages/home.tsx:59-76 | every subject with a row is listed, only those, each once |
| HomePage.EveryRowGroupedOnce | client/src/pages/home.tsx:61-70 | the groups' sizes add up to the number of rows |
| HomePage.BreakdownAverageBounds | client/src/pages/home.tsx:73 | with percentage scores each subject's average is between 0 and 100 |
| HomePage.FocusAndStrengthsDisjoint | client/src/pages/home.tsx:339-357 | no subject both needs focus and is a strength; their badges show low and high |
| HomePage.ShownSessions | client/src/pages/home.tsx:203 | at most five sessions are listed, the first ones |
| HomePage.ViewAllIffSessionsHidden | client/src/pages/home.tsx:234 | the "view all" link shows exactly when some session is left off |
| HomePage.HomeView.constructor | client/src/pages/home.tsx:30 | the dialog starts closed |
| HomePage.HomeView.HandleCreateSession | client/src/pages/home.tsx:80-103 | an expired subscription is reported first and an empty balance second; both open the dialog; otherwise the page goes to the chat |
| HomePage.GateImpliesServerCredit | client/src/pages/home.tsx:80-103 | whoever the client lets through also passes the server's check |
| HomePage.PurchaseOpensGate | client/src/pages/home.tsx:80-103 | right after a purchase the gate is open |
| HomePage.ServerIgnoresExpiry | server/routes.ts:157-159 | an expired account with credits is refused by the client but accepted by the server |
| SubscribePage.CeilDiv | client/src/pages/subscribe.tsx:67 | the quotient rounded up |
| SubscribePage.CalculateDaysRemaining | client/src/pages/subscribe.tsx:62-69 | 0 without an expiry; never negative; positive exactly when the subscription is active; the days cover the time left |
| SubscribePage.DaysRemainingAfterPurchase | client/src/pages/subscribe.tsx:62-69 | right after a purchase the plan's full duration shows |
| SubscribePage.DaysRemainingMonotone | client/src/pages/subscribe.tsx:62-69 | waiting never adds days |
| SubscribePage.SessionsUsed | client/src/pages/subscribe.tsx:146-155 | used plus remaining is the plan's session count; nothing shows without a plan |
| SubscribePage.UsagePercent | client/src/pages/subscribe.tsx:155 | a bar shows exactly when a plan does; it is empty exactly when no session is used, and between 0 and 100 while the used count is within the plan |
| SubscribePage.UsageAfterPurchase | client/src/pages/subscribe.tsx:146-155 | right after a purchase no session is used and the bar is empty |
| SubscribePage.UsageAfterSessionOpened | client/src/pages/subscribe.tsx:146-155 | each session the server opens shows as one more used |
| SubscribePage.PlanButtonFor | client/src/pages/subscribe.tsx:269-272 | disabled exactly for the running current plan; "renew" for the expired current plan; "choose" otherwise |
| SubscribePage.AtMostOneDisabled | client/src/pages/subscribe.tsx:185-272 | at most one plan button is disabled |
| SubscribePage.ButtonsAfterPurchase | client/src/pages/subscribe.tsx:185-272 | right after a purchase the bought plan is disabled and the others can be chosen |

## Left out

- Authentication and the identity middleware: the caller's id is a parameter, and a missing identity is modelled only where the handler itself checks it.
- The payment provider, the language model and the file system are function parameters. What they answer for a given request is fixed in advance; network failures are their `Failure` results.
- The prompts' wording and the model's own behaviour are not modelled; only what is sent and how the answer is shaped.
- Concurrency: handlers run one at a time, so interleavings of two requests are not modelled.
- Floating point: scores and averages are exact reals. The `decimal(5,2)` rounding of the score column is not modelled.
- Logging, the framework's error handler beyond its 500 status, and response serialisation are left out.
- The list routes for sessions, files and tickets only call a store query. They are covered by `Storage.Store.GetUserChatSessions`, `Storage.Store.GetUserFiles` and `Storage.Store.GetUserSupportTickets`.
- Params.ParseInt: only ASCII whitespace is skipped before the number; the Unicode spaces JavaScript also skips are not modelled.
- Params.OptionalId: a JSON number is taken as the exact decimal value the body writes. Its rounding to the nearest double is not modelled, so a number beyond 2^53 or with more than 17 significant digits may read differently.
- Params.OptionalId: a JSON array is not modelled. `String` joins an array's elements with commas, so `[5]` reads as 5 and `[]` as NaN.
- Routes.StartChatSession: an explicit JSON `null` for `isActive` is not modelled. The column may be null, so the insert schema accepts it and the row stores NULL. In the model the flag is a boolean that the insert either gives or leaves to its default, true.
- Params.ParseIntString: stated for the model's decimal numeral of any integer. JavaScript's `String` writes that numeral only for magnitudes below 10^21 (`Params.NumberIdWhole`). Ids are 32-bit columns, far inside that range.
- Params.Trim: only ASCII whitespace is trimmed; the Unicode spaces JavaScript's `trim` also drops (U+00A0, U+FEFF, U+2028 and others) are kept.
- Storage.Store.CreateChatSession: the model draws a serial id only for an insert that succeeds. The database draws it before its checks, so an insert refused by a foreign key or NOT NULL check uses up an id. After such a refusal the source's next id is higher than the model's position plus one.
- Storage.Store.CreateChatMessage: the same serial-id gap. A chat message posted without `content` is refused by its NOT NULL check after its id is drawn.
- Storage.Store.CreateUploadedFile: the same serial-id gap. An upload whose session id names no session is refused after its id is drawn.
- Storage.Store.CreatePerformanceAnalytics: the same serial-id gap. An analysis whose session id names no session is refused after its id is drawn.
- Storage.Store.CreateSupportTicket: the same serial-id gap. A ticket whose user id names no user is refused after its id is drawn.
- Gateway.PdfExcerpt: the excerpt counts Unicode scalar values. JavaScript's `substring` counts UTF-16 code units, so text with characters outside the Basic Multilingual Plane gets a shorter excerpt there, which may end in half a surrogate pair.
- Routes.Subscribed: the server clock is taken as UTC, so the expiry lies exactly `duration` times 24 hours ahead. `setDate` adds calendar days in the server's local time zone, so across a daylight-saving change the span is an hour shorter or longer. SubscribePage.DaysRemainingAfterPurchase holds only for the UTC clock.
- Routes.Translate: a request field is either absent or a value. A JSON `null` target language is not modelled: it skips the destructuring default, and the map then finds nothing.
- Gateway.QuestionRequestOf: a JSON `null` difficulty or count is not modelled; the destructuring defaults apply only to absent fields.
- HomePage.GetSubjectBreakdown:
  - Subject names that are property names inherited by a plain object are not modelled; "constructor" is one.
  - Subject names that look like array indices are not modelled either; the object lists them before all others.
- HomePage.HomeView.HandleCreateSession: the toast is recorded, and its display and timing are left out. Navigation is recorded as the new location.
- Presentation: icons, colours, sizes and CSS classes of the client pages are not modelled.
- Routes.ExchangeEndsHistory: `ORDER BY` leaves rows with equal keys in an unspecified order, and the model sorts them stably in table order. A chat turn stamps the question and the answer with one clock reading, so the database may return the answer before the question. The lemma holds for the model's order, and for the database's only when the stamps differ.
- Storage.Store.GetSubjectPerformanceAnalytics: its results equal the filtered user query only up to the order of analyses with equal `createdAt`, for the same reason. So do the other newest-first queries.
- Storage.Store.UpdateChatSession: no handler in the core calls it; it is modelled for completeness and not used by the routes.

## Findings

| source | as written | input that shows it | evidently intended | confidence | as-written member | corrected member |
|---|---|---|---|---|---|---|
| server/routes.ts:80-84 | the plan guard looks the raw id up in the plan catalogue object, and that lookup also finds inherited members | `planId = "constructor"` passes the guard, and the next catalogue read has no price, duration or session count | only "emergency", "basic" and "premium" are plans; anything else is 400 | high, not executed | Routes.InheritedNamePassesPlanGuard | Routes.PlanFromRequest |
| server/routes.ts:351-353 | the answers guard tests only that the list is present, and the score divides by the list's length | `answers = []` passes the guard and scores 0 / 0, which is NaN, and that is stored | an empty answer list is refused with 400 | high, not executed | Routes.EmptyAnswersPassGuard | Routes.AnalyzeAnswers |
