# A verified model of an accessible learning portal

The repository is a learning portal built for readers who need accessible
content. It has four front-ends that overlap in what they do, plus a small
command-line tool:

- `src/` is the main React portal. It has a local back-end over browser storage, zustand stores for auth, progress, accessibility and notes, a Gemini adapter with an offline fallback, and text services for readability, simplification, custom-language translation and lesson generation.
- `Hackathon/` has a key-prefixed local store, a simulated job queue, resumable uploads, and the lesson, sign-in and sign-up pages.
- `Hacks/` has a second local back-end with jobs, retries and backoff, plus its own stores, route guards and error sanitiser.
- `HACKNO/` is a plain-JavaScript portal with points, levels, badges, a scoreboard and a word-list language helper.
- `lesson_generator.py` asks a language model for a lesson on each topic typed in, until `quit`.

This project models the behaviour of that code in Dafny and proves what it
does:

- Browser storage becomes in-memory maps and sequences.
- Generated ids, the clock, randomness and the answers of remote services become parameters.
- Code that updates an object in place becomes a class whose methods state the whole new state.
- Pure helpers become functions with lemmas about them.
- JavaScript's string and array primitives (`trim`, `split`, `\b`/`\w` regular expressions, `slice`, `filter`, stable sort, `Set` de-duplication) are written out once, with their edge cases, in `Strings` and `Seqs`.

## Model

| member | source | states |
|---|---|---|
| ErrorHandler.StripAngles | Hacks/src/lib/utils/errorHandler.ts:3 | the stripped message is no longer than the original and holds no `<` or `>` |
| ErrorHandler.StripAnglesKeepsOthers | Hacks/src/lib/utils/errorHandler.ts:3 | stripping deletes exactly the angle brackets and keeps every other character in order |
| ErrorHandler.StripAnglesNoop | Hacks/src/lib/utils/errorHandler.ts:3 | a message without angle brackets is returned unchanged |
| ErrorHandler.SanitizeErrorMessage | Hacks/src/lib/utils/errorHandler.ts:1-6 | an `Error` gives its message without angle brackets; anything else gives the fixed unknown-error text; the result never holds `<` or `>` |
| ErrorHandler.SanitizeIdempotent | Hacks/src/lib/utils/errorHandler.ts:1-6 | sanitizing an already sanitized message changes nothing |
| ErrorHandler.LogMessage | Hacks/src/lib/utils/errorHandler.ts:8-10 | a non-empty context prefixes `[context] ` to the sanitized message; no context or an empty one logs the sanitized message alone |
| RoleGuard.Decide | Hacks/src/components/Auth/RoleGuard.tsx:16-35 | the children show exactly when a user is signed in with a listed role; otherwise the fallback when one is given, else the access-denied panel |
| RoleGuard.EmptyRolesDenyAll | Hacks/src/components/Auth/RoleGuard.tsx:18 | an empty role list lets nobody through |
| RoleGuard.NoAdminOverride | Hacks/src/components/Auth/RoleGuard.tsx:18 | an administrator is refused when Admin is not listed: there is no administrator bypass |
| ProtectedRoute.Decide | Hacks/src/components/Auth/ProtectedRoute.tsx:15-43 | loading shows the spinner; no user redirects to login; a user whose role is not in a given role list sees access denied; otherwise the children |
| RegisterPage.Validate | Hackathon/src/features/auth/RegisterPage.tsx:12-21 | no errors exactly when the name has two characters, the address is an e-mail, the password has six, the role is student or teacher and the passwords match; a mismatch with a valid role is reported on `confirmPassword` |
| RegisterPage.Submit | Hackathon/src/features/auth/RegisterPage.tsx:45-74 | an invalid form or a taken address leaves the store and the session alone; a valid form with a new address always registers, storing the new user under its id and signing it in |
| LoginPage.Validate | Hackathon/src/features/auth/LoginPage.tsx:12-15 | no errors exactly when the address is an e-mail and the password has six characters |
| LoginPage.Submit | Hackathon/src/features/auth/LoginPage.tsx:35-93 | a known address signs in its stored account; an unknown one seeds the three demo accounts and signs in exactly when it is one of theirs, else reports the invalid-credentials error on the email field; nothing else changes the session |
| LoginPage.PasswordNeverCompared | Hackathon/src/features/auth/LoginPage.tsx:39-87 | consequence of the submit logic: the password is never compared with anything, so two valid forms with the same address validate alike whatever their passwords |
| HacksApp.FontSizeValue | Hacks/src/App.tsx:147-155 | a listed size gives its table value, any other name the medium 16px; the result is always one of the table's values |
| HacksApp.FontFamilyValue | Hacks/src/App.tsx:157-163 | the dyslexia-friendly family gives the OpenDyslexic, Comic Sans MS, cursive, sans-serif stack; every other name gives the default system stack |
| AuthGuard.FallbackOr | src/components/auth/AuthGuard.tsx:15 | a missing fallback path means `/login`; a given one is used as it is |
| AuthGuard.Decide | src/components/auth/AuthGuard.tsx:12-47 | before initialisation exactly the loading text; no user exactly a redirect to the fallback that remembers the path; a user lacking the required role who is not an administrator exactly a redirect to the dashboard; otherwise exactly the children |
| AuthGuard.AdminPassesAll | src/components/auth/AuthGuard.tsx:37 | an administrator sees every initialised page whatever role it requires |
| AuthGuard.LoadingIgnoresUser | src/components/auth/AuthGuard.tsx:21-23 | before initialisation the screen is the same for every user, role, fallback and path |
| LessonGenerator.BulletsContain | lesson_generator.py:12-16 | each label of the bulleted list appears in it |
| LessonGenerator.PromptMentions | lesson_generator.py:10-18 | the prompt starts with the request line and the topic, and holds the topic and all four section labels |
| LessonGenerator.GenerateLesson | lesson_generator.py:9-21 | the provider's answer to a prompt that opens with the request line and the topic and lists all four section labels |
| LessonGenerator.Topics | lesson_generator.py:31-34 | the topics handled are exactly the inputs before the first quit word, all of them when none comes; none of them is a quit word |
| LessonGenerator.Rounds | lesson_generator.py:32-38 | the loop writes three texts per topic |
| LessonGenerator.Prompts | lesson_generator.py:37 | one prompt is sent per topic |
| LessonGenerator.Run | lesson_generator.py:23-38 | without a key only the key message and no call; with one the rounds for the topics before the first quit, then the prompt that read the quit or found no more input; it ends by quitting exactly when a quit word was typed |
| LessonGenerator.ReadLoop | lesson_generator.py:31-38 | the loop writes the rounds of the topics before the first quit and a final prompt, calls the provider once per such topic in order, and reports whether it stopped at a quit word |
| LessonGenerator.CallsBeforeQuit | lesson_generator.py:31-37 | when the q-th input is the first quit word the provider is called exactly q times, the k-th time with the k-th input's prompt, and never for the quit word |
| LessonGenerator.PromptsAt | lesson_generator.py:37 | the k-th prompt sent is the k-th topic's |
| LessonGenerator.GeneratingBeforeLesson | lesson_generator.py:32-38 | in every round the input prompt comes first, then the progress line, then the lesson text for that round's topic |
| LessonGenerator.QuitSpellings | lesson_generator.py:33 | any capitalisation of `quit` stops the loop; surrounding spaces do not, since nothing is trimmed |
| HacknoLocalAdapter.Authenticate | HACKNO/js/localAdapter.js:72-77 | no user is found exactly when none has the name and the encoded password; a found user is one of the stored ones and matches both |
| HacknoLocalAdapter.CreatedUserAuthenticates | HACKNO/js/localAdapter.js:46-77 | a newly created user signs in with the password given at creation |
| HacknoLocalAdapter.OnlyTheRightPassword | HACKNO/js/localAdapter.js:72-77 | with an injective encoding and a name held by one user, signing in succeeds exactly with that user's password |
| HacknoLocalAdapter.PointsForAction | HACKNO/js/localAdapter.js:123-131 | a highlight is worth 10 points, a note 15, a completion 25, a quiz 20, and any other action 5 |
| HacknoLocalAdapter.LevelFor | HACKNO/js/localAdapter.js:116 | level n covers exactly the points from 100(n-1) up to 100n |
| HacknoLocalAdapter.AwardedLevels | HACKNO/js/localAdapter.js:110-121 | only the user's first level record changes: it gains the points and takes the level they give; without a record nothing changes |
| HacknoLocalAdapter.AwardKeepsLevelsConsistent | HACKNO/js/localAdapter.js:110-121 | consistency check: awarding points keeps every record's level equal to the level its points give |
| HacknoLocalAdapter.StandingOf | HACKNO/js/localAdapter.js:133-136 | the user's first level record, or level 1 with no points when there is none |
| HacknoLocalAdapter.NewUserStartsAtLevelOne | HACKNO/js/localAdapter.js:46-70 | a new user whose id has no level record yet stands at level 1 with no points |
| HacknoLocalAdapter.AwardRaisesStanding | HACKNO/js/localAdapter.js:110-136 | after an award the user's points grow by the award and the level follows the new total |
| HacknoLocalAdapter.UserProgress | HACKNO/js/localAdapter.js:104-107 | the user's items and all of them, each a stored item |
| HacknoLocalAdapter.AppendedToUserProgress | HACKNO/js/localAdapter.js:80-107 | a new item is appended to its user's progress and leaves every other user's progress as it was |
| HacknoLocalAdapter.UserBadges | HACKNO/js/localAdapter.js:178-181 | the user's badge records and all of them, each a stored record |
| HacknoLocalAdapter.Names | HACKNO/js/localAdapter.js:144-163 | the badge rules' names, in rule order |
| HacknoLocalAdapter.EarnedShape | HACKNO/js/localAdapter.js:139-176 | every badge added belongs to the user, was not already held, and is named by one of the rules checked |
| HacknoLocalAdapter.NameNotEarlier | HACKNO/js/localAdapter.js:144-163 | with distinct rule names, no rule's name occurs among the rules before it |
| HacknoLocalAdapter.EarnedDistinct | HACKNO/js/localAdapter.js:139-176 | with distinctly named rules, one check never adds two badges of the same name |
| HacknoLocalAdapter.EarnedIff | HACKNO/js/localAdapter.js:164-172 | a rule's badge is added exactly when it is not yet held and the rule's condition holds |
| HacknoLocalAdapter.BadgeThresholds | HACKNO/js/localAdapter.js:144-172 | First Highlight needs one highlight, Note Taker five notes, Dedicated Learner ten items of any kind, each awarded only when not yet held |
| HacknoLocalAdapter.AwardKeepsBadgesDistinct | HACKNO/js/localAdapter.js:139-176 | if no user holds a badge name twice before a check, none does after it |
| HacknoLocalAdapter.UserSettings | HACKNO/js/localAdapter.js:190-193 | the user's saved settings, and no settings for a user who never saved any |
| HacknoLocalAdapter.SettingsOverlay | HACKNO/js/localAdapter.js:184-193 | a saved key reads back its new value, any other key keeps its old one, and other users' settings do not change |
| HacknoLocalAdapter.UsernameFor | HACKNO/js/localAdapter.js:200-203 | the first user with the id gives the name, and an unknown id gives `Unknown` |
| HacknoLocalAdapter.Entries | HACKNO/js/localAdapter.js:198-206 | one scoreboard entry per level record, in record order |
| HacknoLocalAdapter.Scoreboard | HACKNO/js/localAdapter.js:196-209 | the entries sorted by points, most first, as a permutation of the level records' entries |
| HacknoLocalAdapter.EveryRecordListed | HACKNO/js/localAdapter.js:196-209 | every level record appears on the scoreboard under its user's name or `Unknown` |
| HacknoLocalAdapter.AsWrittenKeepsStanding | HACKNO/js/localAdapter.js:80-102 | as written, recording an action never changes the user's points or level |
| HacknoLocalAdapter.RecordedAwardsPoints | HACKNO/js/localAdapter.js:80-102 | as intended, recording an action adds its points, at least five, to a user who has a level record |
| HacknoLocalAdapter.RecordedFirstHighlight | HACKNO/js/localAdapter.js:80-102 | as intended, a user's first highlight earns the First Highlight badge |
| HacknoLocalAdapter.FirstHighlightLost | HACKNO/js/localAdapter.js:80-102 | for a new user's first highlight the code as written keeps level 1 with 0 points and no badge, where the intended effect gives 10 points and First Highlight |
| HacknoLocalAdapter.LocalAdapter.constructor | HACKNO/js/localAdapter.js:3-21 | the stored data when there is some, else the empty default |
| HacknoLocalAdapter.LocalAdapter.CreateUser | HACKNO/js/localAdapter.js:46-70 | the new user `user_<now>` with the encoded password, an administrator exactly when named `admin`, is appended with a level-1 record and no points |
| HacknoLocalAdapter.LocalAdapter.AwardPoints | HACKNO/js/localAdapter.js:110-121 | the stored levels become the awarded levels and nothing else changes |
| HacknoLocalAdapter.LocalAdapter.CheckAndAwardBadges | HACKNO/js/localAdapter.js:139-176 | the badges earned by the rules, in rule order, are appended and nothing else changes |
| HacknoLocalAdapter.LocalAdapter.AddProgress | HACKNO/js/localAdapter.js:80-102 | as written: the stored data gains only the item, because the snapshot saved last overwrites the points and badges |
| HacknoLocalAdapter.LocalAdapter.AddProgressCorrected | HACKNO/js/localAdapter.js:80-102 | as intended: the item, then its points, then the badges it earns |
| HacknoLocalAdapter.LocalAdapter.SaveUserSettings | HACKNO/js/localAdapter.js:184-188 | the user's settings become the old ones overlaid with the new keys; nothing else changes |
| HacknoLocalAdapter.AppendUnheld | HACKNO/js/localAdapter.js:139-176 | appending distinct badge names that the user does not hold keeps every user's badge names distinct |
| HacknoAiAdapter.Scores | HACKNO/js/aiAdapter.js:51-57 | the two scores are the numbers of pieces each word list contains |
| HacknoAiAdapter.NoSpanishIsEnglish | HACKNO/js/aiAdapter.js:46-60 | a text without Spanish marker words is detected as English |
| HacknoAiAdapter.SpanishOnlyIsSpanish | HACKNO/js/aiAdapter.js:46-60 | a text with a Spanish marker word and no English one is detected as Spanish |
| HacknoAiAdapter.Band | HACKNO/js/aiAdapter.js:77-81 | high exactly above 20 words per sentence, medium exactly above 15 up to 20, low exactly up to 15, on exact division |
| HacknoAiAdapter.WordCount | HACKNO/js/aiAdapter.js:66 | splitting at whitespace runs always yields at least one piece |
| HacknoAiAdapter.ReadingTime | HACKNO/js/aiAdapter.js:67 | the least number of 200-word minutes that covers the words |
| HacknoAiAdapter.BumpKeys | HACKNO/js/aiAdapter.js:92 | counting a word keeps every entry's word in place and leaves the word with an entry |
| HacknoAiAdapter.BumpCovers | HACKNO/js/aiAdapter.js:90-94 | after an admitted word is counted, every admitted word seen so far has an entry |
| HacknoAiAdapter.BumpKnownCounted | HACKNO/js/aiAdapter.js:92 | counting a word that has an entry raises that entry's count by one and keeps every other count and the distinct words |
| HacknoAiAdapter.Unseen | HACKNO/js/aiAdapter.js:92 | an admitted word without an entry has not occurred before |
| HacknoAiAdapter.BumpNewCounted | HACKNO/js/aiAdapter.js:92 | a word without an entry gets one with count one, which is its number of occurrences |
| HacknoAiAdapter.BumpNewDistinct | HACKNO/js/aiAdapter.js:92 | the new entry's word differs from every listed one |
| HacknoAiAdapter.SkipIneligible | HACKNO/js/aiAdapter.js:91 | a stop word or a short word changes no count |
| HacknoAiAdapter.FreqsTally | HACKNO/js/aiAdapter.js:88-94 | the frequency table lists each admitted word once, with its number of occurrences, and lists every admitted word |
| HacknoAiAdapter.Keys | HACKNO/js/aiAdapter.js:99 | the entries' words, in entry order |
| HacknoAiAdapter.ReorderedEntry | HACKNO/js/aiAdapter.js:96-97 | any reordering of the table keeps every entry an admitted, occurring word with its count |
| HacknoAiAdapter.SortedEntry | HACKNO/js/aiAdapter.js:96-97 | every entry of the sorted table is an admitted word of the text with its number of occurrences |
| HacknoAiAdapter.Keywords | HACKNO/js/aiAdapter.js:85-100 | at most five distinct keywords, each an admitted token of the lower-cased text, the more frequent first; an admitted token is left out only when five are listed, each occurring at least as often as it |
| HacknoAiAdapter.TopComplete | HACKNO/js/aiAdapter.js:85-100 | the top-n list is a true top n: an admitted word left out means the list holds n words, none rarer than it |
| Seqs.SortDescStable | HACKNO/js/aiAdapter.js:96-98 | the descending sort by count is stable: the entries with any one count keep their order in the table, which is first-seen order |
| HacknoAiAdapter.TopBounded | HACKNO/js/aiAdapter.js:96-99 | at most the requested number of keywords, each admitted and occurring in the text |
| HacknoAiAdapter.TopOrdered | HACKNO/js/aiAdapter.js:96-99 | keywords come in non-increasing order of occurrences |
| HacknoAiAdapter.TopDistinct | HACKNO/js/aiAdapter.js:96-99 | no keyword is listed twice |
| HacknoAiAdapter.CountWords | HACKNO/js/aiAdapter.js:88-94 | the counting loop builds the frequency table of the admitted words |
| HacknoAiAdapter.TranslateIn | HACKNO/js/aiAdapter.js:104 | a non-empty table text for the language and key is shown; an unknown language or key shows the key itself |
| HacknoAiAdapter.UnsupportedShowsKeys | HACKNO/js/aiAdapter.js:103-105 | a language without a table shows every key as it is |
| HacknoAiAdapter.SameKeys | HACKNO/js/aiAdapter.js:9-41 | the English and Spanish tables cover the same keys |
| HacknoAiAdapter.ScoreSum | HACKNO/js/aiAdapter.js:182-185 | the summed scores lie between one and three per highlight |
| HacknoAiAdapter.AverageLevel | HACKNO/js/aiAdapter.js:187 | high exactly when the average score is above 2.5, medium exactly above 1.5 up to 2.5, low otherwise, on exact rationals |
| HacknoAiAdapter.Summary | HACKNO/js/aiAdapter.js:178-190 | the no-highlights text exactly when there are no highlights |
| HacknoAiAdapter.UniformScore | HACKNO/js/aiAdapter.js:182-185 | highlights of one complexity sum to their number times its score |
| HacknoAiAdapter.UniformLevel | HACKNO/js/aiAdapter.js:182-187 | when every highlight has the same complexity, the average reports that complexity |
| HacknoAiAdapter.Suggestions | HACKNO/js/aiAdapter.js:195-206 | two suggestions for high complexity plus one more for over 500 words, and the subheadings one exactly for over 500 words |
| HacknoAiAdapter.Advice | HACKNO/js/aiAdapter.js:195-206 | the pushes build exactly the suggestions for the complexity and word count |
| HacknoAiAdapter.AIAdapter.constructor | HACKNO/js/aiAdapter.js:3-8 | the adapter starts in English |
| HacknoAiAdapter.AIAdapter.Translate | HACKNO/js/aiAdapter.js:103-105 | without a language the current one is used; with one, that one |
| HacknoAiAdapter.AIAdapter.SetLanguage | HACKNO/js/aiAdapter.js:108-113 | only a supported code replaces the current language, so the current language stays supported |
| HacknoAiAdapter.AIAdapter.DetectLanguage | HACKNO/js/aiAdapter.js:46-60 | Spanish exactly when more pieces are Spanish marker words than English ones |
| HacknoAiAdapter.AIAdapter.ExtractKeywords | HACKNO/js/aiAdapter.js:85-100 | the counting loop, stable sort and slice give exactly the keywords: no two alike, none a stop word or shorter than four characters, and fewer than five only when every admitted token is listed |
| HacknoAiAdapter.AIAdapter.ProcessText | HACKNO/js/aiAdapter.js:63-71 | the detected language, the piece count, its reading time, the complexity and the keywords |
| HacknoAiAdapter.AIAdapter.GetReadabilitySuggestions | HACKNO/js/aiAdapter.js:193-207 | the suggestions for the text's complexity and word count |
| LessonService.Capitalise | src/lib/lessonService.ts:45 | same length; the first character upper-cased and the rest unchanged |
| LessonService.Title | src/lib/lessonService.ts:45 | the topic, a dash and the capitalised difficulty: `Beginner`, `Intermediate` or `Advanced` |
| LessonService.EstimateDuration | src/lib/lessonService.ts:92-95 | 30 minutes exactly for beginner, 45 exactly for intermediate, 60 exactly for advanced |
| LessonService.DurationGrows | src/lib/lessonService.ts:92-95 | a harder difficulty is estimated to take strictly longer |
| LessonService.CreatePrompt | src/lib/lessonService.ts:55-79 | the prompt opens by asking for a lesson of that difficulty about the topic, names both verbatim, and carries the lesson's title as a heading and the Learning Objectives heading the objectives are later read from |
| LessonService.FirstTerminator | src/lib/lessonService.ts:82 | the first place at or after the start where a blank line or a newline and a letter begins, and no earlier one; none when there is none |
| LessonService.CaptureStart | src/lib/lessonService.ts:82 | the capture begins after the heading, within the text |
| LessonService.ObjectiveBlock | src/lib/lessonService.ts:82-83 | no match when the text lacks the heading in any capitalisation |
| LessonService.BlockSpan | src/lib/lessonService.ts:82 | the block ends where a terminator starts, and no terminator starts inside it |
| LessonService.NoTerminatorInside | src/lib/lessonService.ts:82 | a slice with no terminator starting in it holds none on its own |
| LessonService.BlockIsShortest | src/lib/lessonService.ts:82 | the captured block holds no terminator: the lazy match is as short as it can be |
| LessonService.StripAsWritten | src/lib/lessonService.ts:88 | the stripped line has no whitespace at either end |
| LessonService.StripMarker | src/lib/lessonService.ts:88 | the intended strip leaves no whitespace at either end |
| LessonService.ListLines | src/lib/lessonService.ts:86-87 | only lines of the block that start, once trimmed, with `-` or a number and a dot |
| LessonService.ObjectivesWith | src/lib/lessonService.ts:86-89 | each objective is non-empty and is the stripped form of a list line; the objectives are the non-empty stripped list lines, in order, all of them |
| LessonService.StripAll | src/lib/lessonService.ts:88 | the strip applied to every line, in order |
| LessonService.ExtractObjectives | src/lib/lessonService.ts:81-90 | no heading gives no objectives; otherwise the objectives are exactly the list lines of the block, stripped as the code strips them, that are not empty: in block order, none missing, each non-empty and trimmed |
| LessonService.ExtractObjectivesCorrected | src/lib/lessonService.ts:81-90 | the same completeness and order, stripping each line's whole marker |
| LessonService.RunLengthAfter | src/lib/lessonService.ts:88 | a prefix of matching characters adds its length to the leading run |
| LessonService.TrimTrimmed | src/lib/lessonService.ts:88 | a text without whitespace at either end is its own trim |
| LessonService.TrimAfterGap | src/lib/lessonService.ts:88 | trimming drops the whitespace before a trimmed text |
| LessonService.DashItemAsWritten | src/lib/lessonService.ts:88 | as written, a dash item gives its text without the dash |
| LessonService.DashItemCorrected | src/lib/lessonService.ts:88 | the corrected strip gives a dash item's text too |
| LessonService.NumberedItemCorrected | src/lib/lessonService.ts:87-88 | a numbered item is a list line, and the corrected strip gives its text |
| LessonService.NumberedItemAsWritten | src/lib/lessonService.ts:88 | as written, only the first digit goes: the rest of the number and the dot remain in front of the text |
| LessonService.AsWrittenKeepsDot | src/lib/lessonService.ts:88 | `1. Read maps` gives `. Read maps` as written and `Read maps` corrected |
| LessonService.AsWrittenKeepsIndentedDash | src/lib/lessonService.ts:87-88 | an indented dash line passes the trimmed test but keeps its dash, since the marker is looked for only at the very start |
| LessonService.OneLineBlock | src/lib/lessonService.ts:85-89 | a one-line block yields that line's objective, or nothing for a line that is not a list line or strips to nothing |
| LessonService.ContentOf | src/lib/lessonService.ts:41 | the generated text when it is present and non-empty, otherwise the failure note; never empty |
| LessonService.LessonsStep | src/lib/lessonService.ts:26-49 | one more difficulty either fails the run with its status or appends its lesson |
| LessonService.ErrStays | src/lib/lessonService.ts:39 | once a call has failed the later calls change nothing |
| LessonService.AnswerIsFetch | src/lib/lessonService.ts:27-37 | the k-th response is the one `fetch` gives for the k-th difficulty's prompt |
| LessonService.FetchStep | src/lib/lessonService.ts:27-50 | after the k-th call a failed response is the run's final outcome, and an ok one adds the lesson built from that response |
| LessonService.GenerateLessons | src/lib/lessonService.ts:20-53 | the loop yields the lessons for all three difficulties, or the first failed call's error |
| LessonService.LessonsInOrder | src/lib/lessonService.ts:26-52 | success means every call answered ok, and the k-th lesson is built from the k-th response |
| LessonService.RunInOrder | src/lib/lessonService.ts:26-52 | a run that ends in success means every call answered ok, and the k-th item kept is the one the k-th call offered |
| LessonService.FirstFailureWins | src/lib/lessonService.ts:39 | the first call that fails ends the run with its status, whatever the later calls would give |
| LessonService.OkBeforeFailure | src/lib/lessonService.ts:26-52 | while every call answers ok the run goes on |
| LessonService.ThreeLessons | src/lib/lessonService.ts:20-53 | three ok answers give three lessons, beginner, intermediate and advanced, of 30, 45 and 60 minutes |
| LessonService.NumberedLine | src/lib/lessonService.ts:87-88 | a numbered item is already trimmed, its digit run ends right before the dot, and the gap and text follow the marker |
| NlpService.Divisor | src/lib/nlpService.ts:42 | `Math.max(sentences, 1)`: at least one, and the sentence count itself when there are sentences |
| NlpService.RoundedLevelNearest | src/lib/nlpService.ts:42 | the rounded level is the integer nearest to words/(2m) + 3, halves going up |
| NlpService.RoundedLevelAtLeastThree | src/lib/nlpService.ts:42 | the rounded level is never below 3, since the quotient is never negative |
| NlpService.ReadingLevel | src/lib/nlpService.ts:42 | the level lies between 3 and 12: the rounded level whenever that is at most 12, and 12 above it |
| NlpService.ComplexityOf | src/lib/nlpService.ts:43 | hard exactly above 100 words, medium exactly above 50 up to 100, easy exactly up to 50 |
| NlpService.BasicAnalysis | src/lib/nlpService.ts:35-47 | the word and non-blank sentence counts, a level from 3 to 12, the complexity for the word count, no keywords and a neutral sentiment |
| NlpService.DivisorIsSentenceCount | src/lib/nlpService.ts:37-42 | a text with words has a non-blank sentence, so the divisor is the sentence count |
| NlpService.NoWordsLevelThree | src/lib/nlpService.ts:42-43 | a text without words reads at level 3 and is easy |
| NlpService.NoWordsRoundsToThree | src/lib/nlpService.ts:42 | without words the level rounds to 3 whatever the sentence count |
| NlpService.NumberOr | src/lib/nlpService.ts:23-25 | `x \|\| d` on a number: a missing field or a zero gives the default |
| NlpService.FromReply | src/lib/nlpService.ts:22-29 | the reply's fields, with the defaults 8 for the level, medium, no keywords and neutral |
| NlpService.AnalyzeTextWith | src/lib/nlpService.ts:15-33 | the reply is used exactly when the adapter has `generateContent` and the call and the parse succeed; otherwise the basic analysis |
| NlpService.AnalyzeText | src/lib/nlpService.ts:13-19 | the Gemini adapter has no `generateContent`, so as written every text gets the basic analysis whatever the model would answer |
| NlpService.AsWrittenIgnoresReply | src/lib/nlpService.ts:19-23 | a reply of 42 words for the empty text gives 0 as written and 42 corrected |
| NlpService.CorrectedUsesReply | src/lib/nlpService.ts:15-33 | corrected, a parsed reply decides the analysis and only a failure falls back |
| CustomLanguageProcessor.TranslateUsedUnchanged | src/lib/customLanguageProcessor.ts:30-39 | when no vocabulary word occurs in the original, the text comes out as it went in |
| CustomLanguageProcessor.TranslateUsedSingle | src/lib/customLanguageProcessor.ts:30-39 | when exactly one entry's word occurs, the pass is that entry's replacement alone |
| CustomLanguageProcessor.UsedVocabulary | src/lib/customLanguageProcessor.ts:31-39 | its keys are exactly the vocabulary words found in the text, each with the English word of its entry |
| CustomLanguageProcessor.KeySentences | src/lib/customLanguageProcessor.ts:42-48 | only sentences of the text that contain a key phrase, in text order |
| CustomLanguageProcessor.KeyPointList | src/lib/customLanguageProcessor.ts:49-56 | one key point per sentence, in order |
| CustomLanguageProcessor.KeyPoints | src/lib/customLanguageProcessor.ts:43-57 | the key points of the first five key sentences, exactly five when there are that many |
| CustomLanguageProcessor.ShareAbove | src/lib/customLanguageProcessor.ts:61-62 | for a positive total, the share test `known/total > p/q` is `q*known > p*total` |
| CustomLanguageProcessor.ComplexityIsShare | src/lib/customLanguageProcessor.ts:60-62 | easy exactly above a 0.8 share of known words, medium above 0.5 up to 0.8, hard otherwise; a text without words is hard |
| CustomLanguageProcessor.KnownCount | src/lib/customLanguageProcessor.ts:60 | no more known words than words |
| CustomLanguageProcessor.Translate | src/lib/customLanguageProcessor.ts:29-39 | the loop gives the translation pass and the used vocabulary |
| CustomLanguageProcessor.TranslateSentences | src/lib/customLanguageProcessor.ts:49-56 | each key sentence translated along the vocabulary and trimmed, in order |
| CustomLanguageProcessor.CollectKeyPoints | src/lib/customLanguageProcessor.ts:42-57 | the key points of the text |
| CustomLanguageProcessor.ProcessText | src/lib/customLanguageProcessor.ts:20-71 | the original text, its translation, its key points, the vocabulary used and the complexity |
| CustomLanguageProcessor.ProcessedShape | src/lib/customLanguageProcessor.ts:64-70 | the original text is returned untouched; the used vocabulary is a sub-map of the configured one; a text with no vocabulary word is its own translation with nothing used |
| CustomLanguageProcessor.NoUpperLower | src/lib/customLanguageProcessor.ts:27 | lower-casing a text without ASCII capitals leaves it as it is |
| CustomLanguageProcessor.ConfigsOutsideAscii | src/lib/customLanguageProcessor.ts:75-171 | the three shipped vocabularies are written entirely outside ASCII |
| CustomLanguageProcessor.TamilScriptTable | src/lib/customLanguageProcessor.ts:75-106 | table check: the Tamil vocabulary is written outside ASCII |
| CustomLanguageProcessor.MalayalamScriptTable | src/lib/customLanguageProcessor.ts:109-139 | table check: the Malayalam vocabulary is written outside ASCII |
| CustomLanguageProcessor.KannadaScriptTable | src/lib/customLanguageProcessor.ts:142-171 | table check: the Kannada vocabulary is written outside ASCII |
| CustomLanguageProcessor.AsWrittenNeverKnown | src/lib/customLanguageProcessor.ts:27-62 | as written, with ASCII `\w` tokens, no vocabulary word starting outside ASCII is ever known, so every text rates hard |
| CustomLanguageProcessor.AsWrittenAlwaysHard | src/lib/customLanguageProcessor.ts:60-62 | as written, none of the shipped configurations ever rates a text easier than hard |
| CustomLanguageProcessor.AsWrittenScriptTextUntouched | src/lib/customLanguageProcessor.ts:33-39 | as written, a text with no `\w` character has no word boundary, so it is returned untranslated with nothing used, and rates hard |
| CustomLanguageProcessor.AsWrittenTamilWord | src/lib/customLanguageProcessor.ts:78 | the Tamil word for "learn" is left untranslated as written |
| CustomLanguageProcessor.LoneEntryOccurs | src/lib/customLanguageProcessor.ts:34-35 | in a text that is one entry's word alone, with script-letter boundaries only that entry is found |
| CustomLanguageProcessor.LoneEntryTranslated | src/lib/customLanguageProcessor.ts:33-39 | that lone word is translated to its English and recorded as the only word used |
| CustomLanguageProcessor.LoneEntryKnown | src/lib/customLanguageProcessor.ts:27-60 | that lone word is the text's only token, and a known one |
| CustomLanguageProcessor.ScriptLoneWord | src/lib/customLanguageProcessor.ts:20-71 | corrected, a text that is exactly one vocabulary word becomes that word's English, records it as used, and rates easy |
| CustomLanguageProcessor.TamilFirstEntryLone | src/lib/customLanguageProcessor.ts:78 | the first Tamil entry is a lone entry |
| CustomLanguageProcessor.ScriptTamilWord | src/lib/customLanguageProcessor.ts:78 | corrected, the Tamil word becomes "learn", is recorded as used, and rates easy |
| CustomLanguageNlp.ParseText | src/lib/customLanguageNLP.ts:27-43 | the non-blank sentences, the lower-cased words, and a dictionary whose keys are exactly the words the vocabulary knows, each with its translation |
| CustomLanguageNlp.TranslateToEnglish | src/lib/customLanguageNLP.ts:46-55 | every vocabulary entry in turn replaces its custom word as a whole word, ignoring case; a text with no vocabulary word comes back unchanged; with `TranslateWordInContext`, a custom word between non-word characters becomes its English word inside any text |
| CustomLanguageNlp.TranslateWordInContext | src/lib/customLanguageNLP.ts:46-55 | inside any text, a word between non-word characters is decided by the first entry whose custom word equals it up to case (later entries then apply to the English word, which stays when no English word is a later custom word); the text on each side is translated on its own |
| CustomLanguageNlp.ApplyRulesAppend | src/lib/customLanguageNLP.ts:61-63 | rules run in list order: a split list is its first part, then its second |
| CustomLanguageNlp.ApplyGrammarRules | src/lib/customLanguageNLP.ts:58-66 | the language's rules applied in order, each to the previous one's output |
| CustomLanguageNlp.Percentage | src/lib/customLanguageNLP.ts:77 | a share times 100 lies between 0 and 100, and is 100 exactly when the part is the whole |
| CustomLanguageNlp.GrammarScore | src/lib/customLanguageNLP.ts:77 | known/total times 100 for a non-empty text, in 0..100 and 100 exactly when every word is known; missing (NaN) for none |
| CustomLanguageNlp.UnknownSplit | src/lib/customLanguageNLP.ts:75-76 | the unknown words are exactly the words the vocabulary lacks, in text order, and with the known count they make up all the words |
| CustomLanguageNlp.Tally | src/lib/customLanguageNLP.ts:74-79 | the known count is the number of known words, the unknown words are the others in order, none missing, and the score is their grammar score |
| CustomLanguageNlp.AnalyzeComplexity | src/lib/customLanguageNLP.ts:69-80 | known words are counted, unknown ones are exactly the words the vocabulary lacks, in text order and none missing; the two add up to the words; the score is known/total times 100, missing (NaN) exactly for a text without words, in 0..100 and 100 exactly when every word is known |
| CustomLanguageNlp.MatchLi | src/lib/customLanguageNLP.ts:108 | a match of the example rule is a non-empty prefix of the text |
| CustomLanguageNlp.AfterSubject | src/lib/customLanguageNLP.ts:108 | the match continues past the subject word |
| CustomLanguageNlp.AfterParticle | src/lib/customLanguageNLP.ts:108 | the match continues past the particle |
| CustomLanguageNlp.MatchLiHasParticle | src/lib/customLanguageNLP.ts:108 | every match of the example rule contains `li` |
| CustomLanguageNlp.ReplaceLi | src/lib/customLanguageNLP.ts:108-109 | a text without `li` passes through the example rule unchanged |
| CustomLanguageNlp.RunLengthIs | src/lib/customLanguageNLP.ts:108 | a run of exactly k matching characters has length k |
| CustomLanguageNlp.SubjectRead | src/lib/customLanguageNLP.ts:108 | the subject capture takes the whole first word |
| CustomLanguageNlp.ParticleRead | src/lib/customLanguageNLP.ts:108 | after the subject, a space, `li` and a space are consumed |
| CustomLanguageNlp.ComplementRead | src/lib/customLanguageNLP.ts:108 | the second capture takes the whole next word |
| CustomLanguageNlp.Regroup | src/lib/customLanguageNLP.ts:108 | support: `X li Y` and what follows regrouped as the subject, then the particle and the rest, the order in which the rule reads them |
| CustomLanguageNlp.MatchLiReads | src/lib/customLanguageNLP.ts:108 | on `X li Y` followed by a non-word character or nothing, the rule captures X and Y |
| CustomLanguageNlp.ReplaceLiSentence | src/lib/customLanguageNLP.ts:106-112 | the example rule rewrites `X li Y` as `X is Y` |
| CustomLanguageNlp.ExampleLanguageShape | src/lib/customLanguageNLP.ts:84-113 | the example language has only non-empty custom words, and its rules are the `li` rule alone |
| AccessibilityNlp.ComplexWords | src/lib/accessibilityNLP.ts:17-20 | exactly the words longer than seven characters, in text order, none missing |
| AccessibilityNlp.LongSentences | src/lib/accessibilityNLP.ts:16-23 | exactly the sentences with more than fifteen space-separated pieces, in text order, none missing |
| AccessibilityNlp.AverageAboveIsQuotient | src/lib/accessibilityNLP.ts:26-29 | with at least one sentence the integer test agrees with the quotient test |
| AccessibilityNlp.ReadabilityLevel | src/lib/accessibilityNLP.ts:26-29 | hard exactly above 20 words per sentence, medium above 15, easy above 10, very easy otherwise |
| AccessibilityNlp.ReadabilityMonotone | src/lib/accessibilityNLP.ts:26-29 | more words over the same sentences never reads easier |
| AccessibilityNlp.Suggestions | src/lib/accessibilityNLP.ts:156-188 | each piece of advice appears exactly when its count passes its bound, at most once, in the order complex, long, average |
| AccessibilityNlp.GetSuggestions | src/lib/accessibilityNLP.ts:180-187 | the three conditional pushes build exactly that advice |
| AccessibilityNlp.TranslationTable | src/lib/accessibilityNLP.ts:81-146 | only English has no table |
| AccessibilityNlp.TablesKeyed | src/lib/accessibilityNLP.ts:58-142 | table check: the simplification table and every translation table have only non-empty words as keys, as the word patterns need |
| AccessibilityNlp.SimplifyKeyed | src/lib/accessibilityNLP.ts:58-69 | table check: the simplification table's words are non-empty |
| AccessibilityNlp.TamilKeyed | src/lib/accessibilityNLP.ts:82-101 | table check: the Tamil table's words are non-empty |
| AccessibilityNlp.MalayalamKeyed | src/lib/accessibilityNLP.ts:102-121 | table check: the Malayalam table's words are non-empty |
| AccessibilityNlp.KannadaKeyed | src/lib/accessibilityNLP.ts:122-141 | table check: the Kannada table's words are non-empty |
| AccessibilityNlp.SimplifyText | src/lib/accessibilityNLP.ts:57-78 | the ten formal words are replaced by plain ones, as whole words ignoring case, in table order (`Simplified`); text without them is returned as it is; with `SimplifiedInContext`, a formal word between non-word characters becomes its plain form inside any text |
| AccessibilityNlp.TranslateText | src/lib/accessibilityNLP.ts:80-154 | the language's eighteen study words are replaced by the local word, as whole words ignoring case, in table order; English text, or text without them, is returned as it is; with `TranslatedInContext`, a study word between non-word characters becomes the local word inside any text |
| AccessibilityNlp.SimplifiedInContext | src/lib/accessibilityNLP.ts:57-78 | inside any text, a word between non-word characters becomes the plain value of the first formal word equal to it up to case, or stays; the text on each side is simplified on its own |
| AccessibilityNlp.TranslatedInContext | src/lib/accessibilityNLP.ts:80-154 | inside any text, a word between non-word characters becomes the local value of the first study word equal to it up to case, or stays; the text on each side is translated on its own |
| AccessibilityNlp.SimplifyTableWords | src/lib/accessibilityNLP.ts:58-69 | table check: the formal words are `\w` words, and no plain value is a later formal word, so a replaced word is not replaced again |
| AccessibilityNlp.TranslationTableWords | src/lib/accessibilityNLP.ts:81-142 | table check: the study words are `\w` words, and the Indic-script values hold no `\w` character, so a translated word is not replaced again |
| AccessibilityNlp.FirstClause | src/lib/accessibilityNLP.ts:41 | the paragraph's opening up to its first full stop, which it does not contain |
| AccessibilityNlp.KeyPoints | src/lib/accessibilityNLP.ts:41-52 | the first five non-blank first clauses of the paragraphs (all of them when fewer), in paragraph order, each without a full stop and opening its paragraph; a non-blank first clause is missing only when five were found |
| AccessibilityNlp.KeyPointsKept | src/lib/accessibilityNLP.ts:41-52 | the key points are the first min(5, n) of the n kept clauses, each non-blank, without a full stop and opening a paragraph |
| AccessibilityNlp.KeyPointsInOrder | src/lib/accessibilityNLP.ts:41-52 | the key points keep paragraph order and miss a non-blank first clause only when there are five |
| AccessibilityNlp.ReportedComplexWords | src/lib/accessibilityNLP.ts:20-48 | the first ten distinct words longer than seven characters (all when fewer), in order of first appearance; a long word of the text is missing only when ten were found |
| AccessibilityNlp.ReportedLongSentences | src/lib/accessibilityNLP.ts:23-49 | the first three sentences with more than fifteen space-separated pieces (all when fewer), in text order; a long sentence is missing only when three were found |
| AccessibilityNlp.Translation | src/lib/accessibilityNLP.ts:44 | no translation exactly for English; a text without study words translates to itself |
| AccessibilityNlp.AnalyzeForAccessibility | src/lib/accessibilityNLP.ts:15-55 | the readability, complex words, long sentences, advice, simplified text, key points and translation of the text |
| AccessibilityNlp.Gated | src/lib/accessibilityNLP.ts:180-187 | three gated pieces of distinct advice give each exactly when its gate is open, once, in order, and nothing else |
| TextHighlighter.SortByStart | src/components/learning/TextHighlighter.tsx:95 | the highlights in ascending start order, as a permutation of the given ones, stable: highlights with the same start keep their order |
| TextHighlighter.Pieces | src/components/learning/TextHighlighter.tsx:99-105 | a gap before each highlight, its mark, and the rest of the text at the end |
| TextHighlighter.PiecesMarks | src/components/learning/TextHighlighter.tsx:101 | the i-th mark carries the i-th highlight's stored colour and stored text, not the text it covers |
| TextHighlighter.PiecesGaps | src/components/learning/TextHighlighter.tsx:100-105 | the text before the i-th mark is the lesson between the previous highlight's end and this one's start, and after the last mark comes the rest of the lesson |
| TextHighlighter.DisjointTail | src/components/learning/TextHighlighter.tsx:99-103 | the highlights after the first stay ordered and disjoint from the first one's end on |
| TextHighlighter.TextsMatchTail | src/components/learning/TextHighlighter.tsx:99-103 | the later highlights' stored texts still match what they cover |
| TextHighlighter.PlainRecoversContent | src/components/learning/TextHighlighter.tsx:95-105 | for in-bounds, ordered, non-overlapping highlights whose stored text is what they cover, removing the mark tags gives back the lesson text |
| TextHighlighter.JoinThree | src/components/learning/TextHighlighter.tsx:100-105 | three adjacent stretches of a text joined give the text from the first one's start on |
| TextHighlighter.PlainStep | src/components/learning/TextHighlighter.tsx:100-102 | without tags, the pieces from the next highlight on are its gap, its stored text, then the rest |
| TextHighlighter.RenderStep | src/components/learning/TextHighlighter.tsx:100-102 | rendered, the pieces from the next highlight on are its gap, its mark, then the rest |
| TextHighlighter.SpliceStep | src/components/learning/TextHighlighter.tsx:99-103 | one turn of the loop moves a gap and a mark from what is left to render into the result |
| TextHighlighter.RenderTail | src/components/learning/TextHighlighter.tsx:105 | after the last highlight only the rest of the text is rendered |
| TextHighlighter.Splice | src/components/learning/TextHighlighter.tsx:96-105 | the splice loop renders the gaps and marks of the sorted highlights, then the rest of the text |
| TextHighlighter.RenderContentWithHighlights | src/components/learning/TextHighlighter.tsx:84-114 | with no highlights the text is only formatted; otherwise the highlights are spliced in ascending start order and the result is formatted |
| TextHighlighter.Highlighter.constructor | src/components/learning/TextHighlighter.tsx:26-28 | no selection, the note editor closed and an empty note |
| TextHighlighter.Highlighter.HandleTextSelection | src/components/learning/TextHighlighter.tsx:31-44 | a selection is kept exactly when its text is not blank; the note editor is untouched |
| TextHighlighter.Highlighter.CreateHighlight | src/components/learning/TextHighlighter.tsx:46-62 | without a selection nothing is emitted; otherwise the selection becomes a highlight in the colour, with the component's lesson and user, and is cleared |
| TextHighlighter.Highlighter.OpenNoteInput | src/components/learning/TextHighlighter.tsx:139 | the note editor opens and nothing else changes |
| TextHighlighter.Highlighter.SetNoteContent | src/components/learning/TextHighlighter.tsx:154 | the typed text becomes the note and nothing else changes |
| TextHighlighter.Highlighter.CancelNote | src/components/learning/TextHighlighter.tsx:166 | the editor closes and the typed text is kept |
| TextHighlighter.Highlighter.AddNote | src/components/learning/TextHighlighter.tsx:64-82 | a blank note changes nothing; otherwise a note at the selection's start, or 0, with no highlight attached is emitted and the editor and selection reset |
| TextStats.Sentences | src/lib/nlpService.ts:37 | the pieces between runs of `.`, `!` and `?` that are not blank |
| TextStats.TextWords | src/lib/nlpService.ts:36 | the words of the lower-cased text, none empty |
| TextStats.WordCharNotBlank | src/lib/nlpService.ts:37 | a piece holding a word character is not blank |
| TextStats.WordsNeedSentences | src/lib/nlpService.ts:36-42 | a text with a word has a non-blank sentence, so words per sentence is never 0/0 then |
| WordTables.ReplaceEachAppend | src/lib/customLanguageNLP.ts:49-52 | replacing along a table split in two is the first part, then the second |
| WordTables.ReplaceEachUnchanged | src/lib/customLanguageNLP.ts:49-52 | a text in which no key occurs as a whole word comes out unchanged |
| WordTables.FirstEntry | src/lib/customLanguageNLP.ts:49-52 | the index of the first entry whose key equals the word up to case, none exactly when no key does |
| WordTables.ReplaceEachWord | src/lib/customLanguageNLP.ts:49-52 | a one-word text is decided by the first entry whose key equals it up to case, later entries then applying to its value; with values that stay, the result is that value, or the word when no key matches |
| WordTables.ReplaceEachSplit | src/lib/customLanguageNLP.ts:49-52 | a table walk over a text cut where no word straddles the cut is the walk over each part |
| WordTables.ReplaceEachAround | src/lib/customLanguageNLP.ts:49-52 | a piece between non-word characters is rewritten by the table apart from its neighbours |
| WordTables.ReplaceEachInContext | src/lib/customLanguageNLP.ts:49-52 | inside any text, a word between non-word characters is rewritten as a one-word text would be, and the text on each side on its own |
| WordTables.ReplaceAlong | src/lib/customLanguageNLP.ts:47-54 | the loop performs one whole-word replacement per entry, in table order; a text without keys is returned as it is |
| WordTables.Lookup | src/lib/customLanguageNLP.ts:37-38 | nothing exactly when no entry has the key; otherwise the value of an entry with that key |
| TextStats.SentenceAround | src/lib/nlpService.ts:36-37 | a text with a word character has a non-blank sentence |
| HackathonFallback.GenerateText | Hackathon/src/adapters/fallbackAdapter.ts:4-17 | a prompt mentioning summary or summarize gets the summary notice; otherwise exactly a prompt mentioning translate gets the translation notice; every other prompt exactly the generic notice |
| HackathonFallback.GenerateSummary | Hackathon/src/adapters/fallbackAdapter.ts:19-24 | with no sentence longer than ten characters, the fixed notice |
| HackathonFallback.JoinStartsWithFirst | Hackathon/src/adapters/fallbackAdapter.ts:22 | a joined list begins with its first part |
| HackathonFallback.SummaryFromSentences | Hackathon/src/adapters/fallbackAdapter.ts:21-23 | with a long sentence, the summary is the first three long sentences joined by `. ` and trimmed, and is not empty |
| HackathonFallback.FileName | Hackathon/src/adapters/fallbackAdapter.ts:27-28 | the name is the part of the URL after its last `/`, or the whole URL when it has no `/`, and `image` when that part is empty |
| HackathonFallback.GenerateAltText | Hackathon/src/adapters/fallbackAdapter.ts:26-30 | the alt text describes the part of the URL after its last `/` (the whole URL when it has none), and `image` for a URL ending in `/` or an empty one |
| HackathonFallback.TranscribeAudio | Hackathon/src/adapters/fallbackAdapter.ts:32-38 | the manual-activation notice exactly when speech recognition is available |
| HackathonFallback.TranslateText | Hackathon/src/adapters/fallbackAdapter.ts:40-43 | the notice names the target language and ends with the original text |
| HackathonHeader.ThemeIndex | Hackathon/src/components/Header.tsx:33-34 | every theme has its place in the list |
| HackathonHeader.NextTheme | Hackathon/src/components/Header.tsx:32-37 | the next theme always differs from the current one |
| HackathonHeader.ThemeCycle | Hackathon/src/components/Header.tsx:32-37 | three presses come back to the starting theme, and two do not |
| HackathonHeader.NextLanguage | Hackathon/src/components/Header.tsx:40 | Hindi exactly from English, English from every other language |
| HackathonHeader.LanguageToggleTwice | Hackathon/src/components/Header.tsx:39-43 | from English or Hindi, two presses come back |
| HackathonHeader.ThemeIcon | Hackathon/src/components/Header.tsx:54-64 | the monitor icon exactly for the system theme |
| HackathonHeader.ThemeIconInjective | Hackathon/src/components/Header.tsx:54-64 | different themes show different icons |
| HackathonHeader.HandleThemeChange | Hackathon/src/components/Header.tsx:32-37 | the theme moves to the next one and the rest of the interface state is unchanged |
| HackathonHeader.HandleLanguageChange | Hackathon/src/components/Header.tsx:39-43 | the language toggles and the rest of the interface state is unchanged |
| HackathonHeader.HandleTTSToggle | Hackathon/src/components/Header.tsx:45-52 | speech output flips; speech is stopped exactly when it was on; nothing else changes |
| HackathonHeader.ContrastFlipsOne | Hackathon/src/components/Header.tsx:132 | the high-contrast update flips that one preference and nothing else |
| HackathonHeader.HandleContrastToggle | Hackathon/src/components/Header.tsx:132 | the stored preferences differ only in high contrast, which is flipped |
| HackathonSidebar.VisibleItems | Hackathon/src/components/Sidebar.tsx:61-63 | exactly the navigation links whose roles include the signed-in user's, in order |
| HackathonSidebar.VisibleByRole | Hackathon/src/components/Sidebar.tsx:22-63 | nobody signed in sees no links; an administrator sees all six |
| HackathonSidebar.NonAdminsSeeFive | Hackathon/src/components/Sidebar.tsx:22-63 | students and teachers see the five shared links and never the admin one |
| HackathonSidebar.DashboardExact | Hackathon/src/components/Sidebar.tsx:86-87 | the dashboard link is highlighted only on `/dashboard` itself |
| HackathonSidebar.ActiveBelow | Hackathon/src/components/Sidebar.tsx:86-87 | any other link stays highlighted on the pages below it |
| HackathonStorage.DifferentPrefix | Hackathon/src/adapters/localStorageAdapter.ts:14-119 | a key built on one prefix never starts with a prefix of a different first letter |
| HackathonStorage.KeyKind | Hackathon/src/adapters/localStorageAdapter.ts:28 | a key built on one of the six prefixes starts with `user:`, `lesson:` or `job:` exactly when it was built on that prefix, so the listings never mix kinds |
| HackathonStorage.KeyInjective | Hackathon/src/adapters/localStorageAdapter.ts:13-82 | two ids under one prefix name the same key only when they are equal |
| HackathonStorage.FindByEmail | Hackathon/src/adapters/localStorageAdapter.ts:21-24 | a found user is in the list and has the address; none is found exactly when no user has it |
| HackathonStorage.KeyValueStore.constructor | Hackathon/src/adapters/localStorageAdapter.ts:5-9 | the store starts empty |
| HackathonStorage.KeyValueStore.Put | Hackathon/src/adapters/localStorageAdapter.ts:17-19 | one key is written, everything else is kept, and every key still holds a record of its prefix's kind |
| HackathonStorage.KeyValueStore.GetUser | Hackathon/src/adapters/localStorageAdapter.ts:13-15 | a found user is the record under `user:` and the id; in a well-typed store, nothing is found exactly when that key is absent |
| HackathonStorage.KeyValueStore.GetProfile | Hackathon/src/adapters/localStorageAdapter.ts:36-38 | a found profile is the record under `profile:` and the user id; nothing is found exactly when no profile is stored there |
| HackathonStorage.KeyValueStore.GetLesson | Hackathon/src/adapters/localStorageAdapter.ts:45-47 | a found lesson is the record under `lesson:` and the id; in a well-typed store, nothing is found exactly when that key is absent |
| HackathonStorage.KeyValueStore.GetAttachment | Hackathon/src/adapters/localStorageAdapter.ts:67-69 | a found attachment is the record under `attachment:` and the id; nothing is found exactly when no attachment is stored there |
| HackathonStorage.KeyValueStore.GetJob | Hackathon/src/adapters/localStorageAdapter.ts:76-78 | a found job is the record under `job:` and the id; in a well-typed store, nothing is found exactly when that key is absent |
| HackathonStorage.KeyValueStore.GetFile | Hackathon/src/adapters/localStorageAdapter.ts:113-115 | a found file is the record under the file id itself; nothing is found exactly when no file is stored there |
| HackathonStorage.KeyValueStore.SetUser | Hackathon/src/adapters/localStorageAdapter.ts:17-19 | the user is read back under its id, every other user is unchanged |
| HackathonStorage.KeyValueStore.SetProfile | Hackathon/src/adapters/localStorageAdapter.ts:40-42 | the profile is read back under its user id |
| HackathonStorage.KeyValueStore.SetLesson | Hackathon/src/adapters/localStorageAdapter.ts:49-51 | the lesson is read back under its id |
| HackathonStorage.KeyValueStore.DeleteLesson | Hackathon/src/adapters/localStorageAdapter.ts:62-64 | the lesson key is removed and nothing else; reading it gives nothing |
| HackathonStorage.KeyValueStore.SetAttachment | Hackathon/src/adapters/localStorageAdapter.ts:71-73 | the attachment is read back under its id |
| HackathonStorage.KeyValueStore.SetJob | Hackathon/src/adapters/localStorageAdapter.ts:80-82 | the job is read back under its id, every other job is unchanged |
| HackathonStorage.KeyValueStore.StoreFile | Hackathon/src/adapters/localStorageAdapter.ts:94-111 | the file is stored under a fresh `file:` id, returned, and read back by it |
| HackathonStorage.KeyValueStore.ClearAll | Hackathon/src/adapters/localStorageAdapter.ts:118-120 | nothing is left stored |
| HackathonStorage.KeyValueStore.ValuesUnder | Hackathon/src/adapters/localStorageAdapter.ts:27-32 | one record per key with the prefix, every such key's record among them and nothing else |
| HackathonStorage.KeyValueStore.GetAllUsers | Hackathon/src/adapters/localStorageAdapter.ts:26-33 | exactly the users under `user:` keys, one per key |
| HackathonStorage.KeyValueStore.GetAllLessons | Hackathon/src/adapters/localStorageAdapter.ts:53-60 | exactly the lessons under `lesson:` keys, one per key |
| HackathonStorage.KeyValueStore.GetAllJobs | Hackathon/src/adapters/localStorageAdapter.ts:84-91 | exactly the jobs under `job:` keys, one per key |
| HackathonStorage.KeyValueStore.GetUserByEmail | Hackathon/src/adapters/localStorageAdapter.ts:21-24 | a stored user with the address when one exists; none only when no stored user has it |
| HackathonStorage.MockResult | Hackathon/src/adapters/localStorageAdapter.ts:212-227 | the generic payload exactly for the job kind without its own case |
| HackathonStorage.ProcessingAdapter.constructor | Hackathon/src/adapters/localStorageAdapter.ts:124-125 | the adapter works on the given store |
| HackathonStorage.ProcessingAdapter.Enqueue | Hackathon/src/adapters/localStorageAdapter.ts:127-146 | a new queued job with no attempts used and three allowed is stored under its id; jobs stay well formed |
| HackathonStorage.ProcessingAdapter.Status | Hackathon/src/adapters/localStorageAdapter.ts:148-154 | the stored job, or the not-found error |
| HackathonStorage.ProcessingAdapter.Cancel | Hackathon/src/adapters/localStorageAdapter.ts:156-164 | only a queued job changes, to failed with the cancellation message; otherwise the store is untouched |
| HackathonStorage.ProcessingAdapter.Retry | Hackathon/src/adapters/localStorageAdapter.ts:166-184 | a missing job or one out of attempts is an error that changes nothing; otherwise the job is re-queued with one more attempt, never beyond the allowed number |
| HackathonStorage.ProcessingAdapter.BeginProcessing | Hackathon/src/adapters/localStorageAdapter.ts:186-192 | a queued job is marked processing and returned; any other job is left alone |
| HackathonStorage.ProcessingAdapter.FinishProcessing | Hackathon/src/adapters/localStorageAdapter.ts:197-209 | the job is written back completed with its mock payload, or failed with the simulated error |
| HackathonStorage.ProcessingAdapter.ProcessJob | Hackathon/src/adapters/localStorageAdapter.ts:186-210 | a queued job ends completed or failed with its attempts unchanged; any other job is left alone |
| HackathonStorage.Filled | Hackathon/src/adapters/localStorageAdapter.ts:256 | the count of stored chunk slots never exceeds the slots |
| HackathonStorage.UploadAdapter.constructor | Hackathon/src/adapters/localStorageAdapter.ts:231-233 | no upload is in progress |
| HackathonStorage.UploadAdapter.InitResumableUpload | Hackathon/src/adapters/localStorageAdapter.ts:235-245 | an empty upload is registered under a fresh id and 1 MiB chunks are announced |
| HackathonStorage.UploadAdapter.UploadChunk | Hackathon/src/adapters/localStorageAdapter.ts:247-260 | an unknown upload is an error; otherwise the chunk is stored at its index and the progress is filled slots over expected chunks, times 100 |
| HackathonStorage.UploadAdapter.Combine | Hackathon/src/adapters/localStorageAdapter.ts:268-277 | the present chunks laid end to end, zero-filled to the file size, and a range error exactly when they do not fit |
| HackathonStorage.UploadAdapter.CompleteUpload | Hackathon/src/adapters/localStorageAdapter.ts:262-300 | an unknown upload or chunks that overflow change nothing; otherwise the combined file and an attachment pointing at it are stored and the upload is forgotten |
| HackathonStorage.JoinedGrows | Hackathon/src/adapters/localStorageAdapter.ts:272-277 | laying out more chunks never shortens the combined bytes |
| HackathonStorage.ValuesAt | Hackathon/src/adapters/localStorageAdapter.ts:27-32 | one value per key, each the record of one of the keys, and every key's record among them |
| HackathonStore.MergePreferences | Hackathon/src/lib/store.ts:71-74 | each of the twelve fields the update carries replaces the stored one, and every field it lacks is kept |
| HackathonStore.MergeNothing | Hackathon/src/lib/store.ts:71-74 | an empty preferences update changes nothing |
| HackathonStore.MergeIdempotent | Hackathon/src/lib/store.ts:71-74 | applying the same preferences update twice is applying it once |
| HackathonStore.MergeThen | Hackathon/src/lib/store.ts:71-74 | two updates in a row equal one update in which the later one's fields win |
| HackathonStore.MergeEverything | Hackathon/src/lib/store.ts:71-74 | an update naming every field replaces the preferences with exactly those values |
| HackathonStore.AuthStore.constructor | Hackathon/src/lib/store.ts:52-53 | nobody is signed in at first |
| HackathonStore.AuthStore.Login | Hackathon/src/lib/store.ts:54 | the user is signed in and authenticated |
| HackathonStore.AuthStore.Logout | Hackathon/src/lib/store.ts:55 | nobody is signed in and the store is not authenticated |
| HackathonStore.AuthStore.UpdateUser | Hackathon/src/lib/store.ts:56-59 | the signed-in user gets the updated fields; with nobody signed in nothing changes; the authenticated flag is kept |
| HackathonStore.AccessibilityStore.constructor | Hackathon/src/lib/store.ts:34-47 | the preferences start at the defaults |
| HackathonStore.AccessibilityStore.UpdatePreferences | Hackathon/src/lib/store.ts:71-74 | the given fields replace the stored ones, every other field is kept |
| HackathonStore.AccessibilityStore.ResetPreferences | Hackathon/src/lib/store.ts:75-76 | the preferences return to the defaults |
| HackathonStore.UIStore.constructor | Hackathon/src/lib/store.ts:87-92 | system theme, English, sidebar open, ruler and speech off |
| HackathonStore.UIStore.SetTheme | Hackathon/src/lib/store.ts:93 | only the theme changes |
| HackathonStore.UIStore.SetLanguage | Hackathon/src/lib/store.ts:94 | only the language changes |
| HackathonStore.UIStore.ToggleSidebar | Hackathon/src/lib/store.ts:95 | only the sidebar flag flips |
| HackathonStore.UIStore.ToggleReadingRuler | Hackathon/src/lib/store.ts:96 | only the reading-ruler flag flips |
| HackathonStore.UIStore.SetTTSActive | Hackathon/src/lib/store.ts:97 | only the speech-output flag changes |
| HackathonStore.UIStore.SetSTTActive | Hackathon/src/lib/store.ts:98 | only the speech-input flag changes |
| HackathonStore.ToggleTwice | Hackathon/src/lib/store.ts:95-96 | either toggle applied twice leaves the interface state as it was |
| HackathonUtils.FileExtension | Hackathon/src/lib/utils.ts:95-97 | the extension is the lower-cased text after the last dot: empty for a name ending in a dot, and the whole name lower-cased when it has no dot |
| HackathonUtils.AtMostOneKind | Hackathon/src/lib/utils.ts:99-117 | table check on the extension lists: no extension is on two of them, so a file is at most one of image, video, audio and document |
| HackathonUtils.ValidEmailHasShape | Hackathon/src/lib/utils.ts:75-78 | an address the pattern accepts has no blank, one `@` after a non-empty local part, and an inner dot after it |
| HackathonUtils.ShapeIsValidEmail | Hackathon/src/lib/utils.ts:75-78 | every address of that shape is accepted |
| HackathonUtils.EmailCharacterised | Hackathon/src/lib/utils.ts:75-78 | the pattern accepts exactly the addresses of that shape |
| HackathonUtils.MatchFrom | Hackathon/src/lib/utils.ts:90 | a capture tried at one position is non-empty and holds no `&`, `?`, `#` or line break |
| HackathonUtils.MatchAt | Hackathon/src/lib/utils.ts:90 | a capture is found only within the text and has the same character bounds |
| HackathonUtils.LeftmostIsFirst | Hackathon/src/lib/utils.ts:91 | the leftmost search finds nothing exactly when no position matches, and otherwise the first match |
| HackathonUtils.ExtractYouTubeId | Hackathon/src/lib/utils.ts:89-93 | nothing exactly when the pattern matches nowhere; otherwise the capture at the leftmost matching position |
| HackathonUtils.ExtractedIdChars | Hackathon/src/lib/utils.ts:90-92 | an extracted id is non-empty and holds none of `&`, `?`, `#` or a line break |
| HackathonUtils.CaptureAfter | Hackathon/src/lib/utils.ts:90 | after a prefix, the capture of an id followed by the end or a delimiter is that id |
| HackathonUtils.NotBoth | Hackathon/src/lib/utils.ts:90 | a text starting with one link prefix does not start with another that differs at some place |
| HackathonUtils.LinkRoundTrip | Hackathon/src/lib/utils.ts:89-93 | each of the three link forms followed by an id and the end or a delimiter yields that id |
| HackathonUtils.ContrastRatio | Hackathon/src/lib/utils.ts:119-123 | every colour pair gets the fixed ratio 4.5, the AA threshold |
| HackathonUtils.FormatFileSize | Hackathon/src/lib/utils.ts:20-28 | `0 Bytes` exactly for zero bytes |
| CreateLessonPage.Validate | Hackathon/src/features/lessons/CreateLessonPage.tsx:11-19 | no field errors exactly when every field is acceptable (required texts non-empty, title at most 200 and description at most 500 characters, a listed difficulty); every error names a schema field |
| CreateLessonPage.UpdateWhere | Hackathon/src/features/lessons/CreateLessonPage.tsx:67-72 | the list keeps its length and only the entries with the id are stepped |
| CreateLessonPage.Ticks | Hackathon/src/features/lessons/CreateLessonPage.tsx:66-74 | n progress ticks reach the smaller of progress + 10n and 100, keeping the id and status |
| CreateLessonPage.UploadList.constructor | Hackathon/src/features/lessons/CreateLessonPage.tsx:34 | no files are listed at first |
| CreateLessonPage.UploadList.Add | Hackathon/src/features/lessons/CreateLessonPage.tsx:55-63 | a picked file is appended at 0% while uploading; progress stays a percentage |
| CreateLessonPage.UploadList.TickFile | Hackathon/src/features/lessons/CreateLessonPage.tsx:66-74 | only the entries with the id advance ten percent, capped at a hundred |
| CreateLessonPage.UploadList.CompleteFile | Hackathon/src/features/lessons/CreateLessonPage.tsx:77-86 | only the entries with the id become completed at a hundred percent |
| CreateLessonPage.UploadList.Remove | Hackathon/src/features/lessons/CreateLessonPage.tsx:90-92 | exactly the entries with the id are dropped, the rest kept in order |
| CreateLessonPage.Attachments | Hackathon/src/features/lessons/CreateLessonPage.tsx:122-129 | one attachment per completed file, the k-th built from the k-th file with the k-th fresh id and the k-th object URL, made for that file's contents |
| CreateLessonPage.SubmittedLesson | Hackathon/src/features/lessons/CreateLessonPage.tsx:108-132 | a draft, unverified lesson with a fresh id, the form, the signed-in teacher's id and name, and both timestamps now; the k-th attachment is built from the k-th completed upload in order (its name, type, size, and the object URL made for it by its own `createObjectURL` call), one per completed upload |
| LessonsPage.FilteredLessons | Hackathon/src/features/lessons/LessonsPage.tsx:71-78 | exactly the lessons whose title or description contains the query ignoring case and that match the chosen subject and difficulty, an empty choice admitting all |
| LessonsPage.FilteredInOrder | Hackathon/src/features/lessons/LessonsPage.tsx:71 | the listing is an order-preserving part of the catalogue |
| LessonsPage.NoFiltersShowsAll | Hackathon/src/features/lessons/LessonsPage.tsx:71-78 | with nothing typed or selected every lesson is listed |
| LessonsPage.EmptyStateIff | Hackathon/src/features/lessons/LessonsPage.tsx:298 | the no-lessons panel shows exactly when no lesson passes the filters |
| LessonsPage.StatusColor | Hackathon/src/features/lessons/LessonsPage.tsx:80-89 | the grey style exactly for statuses other than published and draft |
| LessonsPage.DifficultyColor | Hackathon/src/features/lessons/LessonsPage.tsx:91-102 | the grey style exactly for difficulties other than the three levels |
| AccessibilityToolbar.IndexOf | src/components/accessibility/AccessibilityToolbar.tsx:44 | -1 exactly for an unlisted size, otherwise its first position |
| AccessibilityToolbar.IncreaseFontSize | src/components/accessibility/AccessibilityToolbar.tsx:42-48 | the next larger listed size; 24 stays; an unlisted size becomes 14 |
| AccessibilityToolbar.DecreaseFontSize | src/components/accessibility/AccessibilityToolbar.tsx:50-56 | the next smaller listed size; 14 and unlisted sizes stay |
| AccessibilityToolbar.StepsUndo | src/components/accessibility/AccessibilityToolbar.tsx:42-56 | increase then decrease from a listed size below 24 gives it back, and decrease then increase from one above 14 |
| AccessibilityToolbar.Steps | src/components/accessibility/AccessibilityToolbar.tsx:42-56 | any run of presses from a listed size stays in the list |
| AccessibilityToolbar.ToggleThemeHandler | src/components/accessibility/AccessibilityToolbar.tsx:37-40 | dark exactly from light, light from everything else |
| AccessibilityToolbar.ThemeButtonMatchesStore | src/components/accessibility/AccessibilityToolbar.tsx:37-40 | consistency check between two files: the toolbar's theme button does what the store's own theme toggle does |
| HacksAccessibilityStore.Merge | Hacks/src/store/accessibilityStore.ts:37-42 | every supplied preference replaces the stored one and every other preference is kept |
| HacksAccessibilityStore.MergeNoChanges | Hacks/src/store/accessibilityStore.ts:36-43 | an empty update changes nothing |
| HacksAccessibilityStore.MergeIdempotent | Hacks/src/store/accessibilityStore.ts:36-43 | applying the same update twice is applying it once |
| HacksAccessibilityStore.UpdatePreferences | Hacks/src/store/accessibilityStore.ts:36-43 | only the preferences change, as the merge says; reading mode and position stay |
| HacksAccessibilityStore.ToggleReadingMode | Hacks/src/store/accessibilityStore.ts:45-49 | reading mode flips and nothing else changes |
| HacksAccessibilityStore.ToggleTwice | Hacks/src/store/accessibilityStore.ts:45-49 | toggling reading mode twice changes nothing |
| HacksAccessibilityStore.SetReadingPosition | Hacks/src/store/accessibilityStore.ts:51-53 | the position is set and nothing else changes |
| HacksAccessibilityStore.ResetPreferences | Hacks/src/store/accessibilityStore.ts:55-57 | the default preferences return; reading mode and position stay |
| HacksAccessibilityStore.ResetUndoesUpdate | Hacks/src/store/accessibilityStore.ts:17-57 | a reset after any update gives the same state as a reset without it |
| HacksAuthStore.AuthStore.constructor | Hacks/src/store/authStore.ts:21-104 | not loading and no error; the user is the persisted one (the user is the only field kept under `auth-storage`), none when nothing was persisted |
| HacksAuthStore.AuthStore.SignIn | Hacks/src/store/authStore.ts:27-40 | success exactly when a stored user has the address; then that user is signed in and the error cleared; otherwise the adapter's message is kept and thrown on and the user stays; the stored users never change |
| HacksAuthStore.AuthStore.SignUp | Hacks/src/store/authStore.ts:42-55 | the new user is stored under its id, signed in and shown, and the error is cleared |
| HacksAuthStore.AuthStore.SignOut | Hacks/src/store/authStore.ts:57-69 | no user and no error, here and in the adapter; the stored users stay |
| HacksAuthStore.AuthStore.ResetPassword | Hacks/src/store/authStore.ts:71-84 | the request cannot fail, so the store ends with no error and the same user |
| HacksAuthStore.AuthStore.ClearError | Hacks/src/store/authStore.ts:86-88 | the error goes and nothing else changes |
| HacksAuthStore.AuthStore.CheckAuth | Hacks/src/store/authStore.ts:90-99 | the store shows the adapter's current user; the error is untouched |
| HacksLocalAdapter.LocalAuth.constructor | Hacks/src/lib/adapters/localAdapter.ts:15-24 | no stored users and nobody signed in |
| HacksLocalAdapter.LocalAuth.SignUp | Hacks/src/lib/adapters/localAdapter.ts:28-41 | the new user gets the id, address, given role or student, given non-empty name or `User`; it is stored under its id and signed in |
| HacksLocalAdapter.LocalAuth.SignIn | Hacks/src/lib/adapters/localAdapter.ts:43-54 | an error exactly when no stored user has the address, leaving the signed-in user; otherwise a stored user with that address is signed in; the table never changes |
| HacksLocalAdapter.LocalAuth.SignOut | Hacks/src/lib/adapters/localAdapter.ts:56-58 | nobody is signed in and the table is kept |
| HacksLocalAdapter.LocalAuth.GetCurrentUser | Hacks/src/lib/adapters/localAdapter.ts:60-62 | the user signed in last, if not signed out |
| HacksLocalAdapter.FileId | Hacks/src/lib/adapters/localAdapter.ts:89 | a path starting with `local://` gives the rest of the path; a path without `local://` is its own id |
| HacksLocalAdapter.PathRoundTrip | Hacks/src/lib/adapters/localAdapter.ts:85-94 | the path returned for an id leads back to that id |
| HacksLocalAdapter.Lookup | Hacks/src/lib/adapters/localAdapter.ts:93-102 | the not-found error exactly when no record is stored under the path's id; data exactly for a file record |
| HacksLocalAdapter.StoredFileFound | Hacks/src/lib/adapters/localAdapter.ts:84-101 | the path returned for a stored file reads back its data |
| HacksLocalAdapter.DeletedFileGone | Hacks/src/lib/adapters/localAdapter.ts:88-99 | after deleting a path, reading it fails |
| HacksLocalAdapter.JoinChunks | Hacks/src/lib/adapters/localAdapter.ts:148 | a run of holes joins to the empty text, and every stored chunk appears in the joined text |
| HacksLocalAdapter.JoinChunksAppend | Hacks/src/lib/adapters/localAdapter.ts:148 | joining two runs of chunks is joining each and concatenating |
| HacksLocalAdapter.HolesJoinEmpty | Hacks/src/lib/adapters/localAdapter.ts:148 | a run of holes joins to the empty text |
| HacksLocalAdapter.ChunkPastEnd | Hacks/src/lib/adapters/localAdapter.ts:129-148 | a chunk stored past the end lands after the earlier chunks, the holes before it adding nothing |
| HacksLocalAdapter.TotalChunks | Hacks/src/lib/adapters/localAdapter.ts:134 | the smallest number of 5 MiB chunks that covers the size |
| HacksLocalAdapter.ProgressReachesHundred | Hacks/src/lib/adapters/localAdapter.ts:133-135 | once every expected chunk holds text, the completed count equals the expected count |
| HacksLocalAdapter.LocalStorage.constructor | Hacks/src/lib/adapters/localAdapter.ts:21 | no files are stored |
| HacksLocalAdapter.LocalStorage.UploadFile | Hacks/src/lib/adapters/localAdapter.ts:72-86 | the data is stored under the fresh id and the returned `local://` path reads it back |
| HacksLocalAdapter.LocalStorage.DeleteFile | Hacks/src/lib/adapters/localAdapter.ts:88-91 | only the record the path names is removed; reading the path afterwards fails |
| HacksLocalAdapter.LocalStorage.GetFileUrl | Hacks/src/lib/adapters/localAdapter.ts:93-102 | the stored data, or the not-found error |
| HacksLocalAdapter.LocalStorage.InitResumableUpload | Hacks/src/lib/adapters/localAdapter.ts:104-119 | an empty upload record under `upload_` and the id, with 5 MiB chunks announced |
| HacksLocalAdapter.LocalStorage.UploadChunk | Hacks/src/lib/adapters/localAdapter.ts:121-138 | an unknown upload is an error that changes nothing; otherwise the chunk fills its slot and progress is non-empty chunks over expected chunks, times 100 |
| HacksLocalAdapter.LocalStorage.CompleteUpload | Hacks/src/lib/adapters/localAdapter.ts:140-174 | an unknown upload is an error; otherwise the joined chunks become a new file, the upload record goes, and the queued attachment's url reads back the joined text |
| HacksLocalAdapter.MockProcessing | Hacks/src/lib/adapters/localAdapter.ts:276-293 | an error naming the type exactly for a type outside the six known ones |
| HacksLocalAdapter.ResultMatchesType | Hacks/src/lib/adapters/localAdapter.ts:277-289 | each known type gets the result shape of its own kind |
| HacksLocalAdapter.Started | Hacks/src/lib/adapters/localAdapter.ts:240-242 | the job is processing with one more attempt, nothing else changed but the time |
| HacksLocalAdapter.Settled | Hacks/src/lib/adapters/localAdapter.ts:248-266 | completed with its mock result exactly for a known type; otherwise failed once attempts reach the limit and retrying before, with the error kept |
| HacksLocalAdapter.Backoff | Hacks/src/lib/adapters/localAdapter.ts:267-271 | a retrying job waits two to the power of its attempts seconds; any other job is not run again |
| HacksLocalAdapter.UnknownTypeGivesUp | Hacks/src/lib/adapters/localAdapter.ts:235-274 | a job of unknown type is retried until its attempts reach the limit, retrying after each run before the last and failed after the last |
| HacksLocalAdapter.KnownTypeCompletes | Hacks/src/lib/adapters/localAdapter.ts:235-256 | a job of known type completes on its first run with a result |
| HacksLocalAdapter.LocalProcessing.constructor | Hacks/src/lib/adapters/localAdapter.ts:18 | no jobs are stored |
| HacksLocalAdapter.LocalProcessing.Enqueue | Hacks/src/lib/adapters/localAdapter.ts:179-197 | a queued job with no attempts is stored under the fresh id and first runs 2 s later |
| HacksLocalAdapter.LocalProcessing.GetJobStatus | Hacks/src/lib/adapters/localAdapter.ts:199-207 | the stored job, or the not-found error |
| HacksLocalAdapter.LocalProcessing.CancelJob | Hacks/src/lib/adapters/localAdapter.ts:209-211 | the record is deleted whatever its status |
| HacksLocalAdapter.LocalProcessing.RetryJob | Hacks/src/lib/adapters/localAdapter.ts:213-233 | a missing job is an error; otherwise it is queued again with attempts reset and error cleared, and runs 1 s later |
| HacksLocalAdapter.LocalProcessing.ProcessJob | Hacks/src/lib/adapters/localAdapter.ts:235-244 | a missing job is ignored; otherwise it is stored as started and that copy is returned |
| HacksLocalAdapter.LocalProcessing.SettleJob | Hacks/src/lib/adapters/localAdapter.ts:247-273 | the in-flight copy is written back settled, and a retrying job is rescheduled after its backoff |
| HacksLocalAdapter.LocalProcessing.CancelDuringRun | Hacks/src/lib/adapters/localAdapter.ts:209-273 | cancelling while a run is in flight does not stop it: the job reappears settled with one more attempt |
| HacksFallback.LongestFrom | Hacks/src/lib/adapters/fallbackAdapter.ts:20-23 | the result is at least as long as the start value and every entry, and is the start value or a longer entry; with no longer entry it is the start value |
| HacksFallback.LongestFromIsFirst | Hacks/src/lib/adapters/fallbackAdapter.ts:21-22 | on a tie the earliest longest entry wins |
| HacksFallback.SummarizeText | Hacks/src/lib/adapters/fallbackAdapter.ts:10-14 | three or fewer non-blank sentences give the trimmed text back |
| HacksFallback.SummaryHasThreeParts | Hacks/src/lib/adapters/fallbackAdapter.ts:16-29 | with four or more sentences the summary is the trimmed first, the longest middle and the last sentence, joined by `. ` and closed with `.` |
| HacksFallback.ThreeParts | Hacks/src/lib/adapters/fallbackAdapter.ts:17-27 | none of the three parts is empty, so all three are kept |
| HacksFallback.JoinNonEmpty | Hacks/src/lib/adapters/fallbackAdapter.ts:25-27 | three non-empty parts survive the filter and are joined in order |
| HacksFallback.MiddleNonBlank | Hacks/src/lib/adapters/fallbackAdapter.ts:20-23 | the longest middle sentence is one of the middle sentences and not blank |
| HacksFallback.TranslateText | Hacks/src/lib/adapters/fallbackAdapter.ts:193-198 | the text comes back unchanged exactly for English in any case; otherwise followed by the note naming the language |
| HacksHighlightStore.AddHighlight | Hacks/src/store/highlightStore.ts:21-32 | one highlight appended with the generated id and both timestamps set; the earlier ones kept |
| HacksHighlightStore.ApplyPatch | Hacks/src/store/highlightStore.ts:38 | supplied fields replace the old ones and the update time is refreshed |
| HacksHighlightStore.EmptyPatch | Hacks/src/store/highlightStore.ts:38 | an empty update only refreshes the update time |
| HacksHighlightStore.UpdateHighlight | Hacks/src/store/highlightStore.ts:34-42 | every highlight with the id is patched in place, the others are untouched |
| HacksHighlightStore.UpdateMissing | Hacks/src/store/highlightStore.ts:34-42 | updating an id no highlight has changes nothing |
| HacksHighlightStore.DeleteHighlight | Hacks/src/store/highlightStore.ts:44-48 | no highlight with the id remains, every other is kept, in order |
| HacksHighlightStore.AddThenDelete | Hacks/src/store/highlightStore.ts:21-48 | adding a highlight under an unused id and deleting it gives the list back |
| HacksHighlightStore.ForLesson | Hacks/src/store/highlightStore.ts:50-52 | exactly the lesson's highlights, in store order |
| HacksHighlightStore.AddShowsInLesson | Hacks/src/store/highlightStore.ts:21-52 | a new highlight appears at the end of its own lesson's list and in no other |
| HacksHighlightStore.ClearHighlights | Hacks/src/store/highlightStore.ts:54-56 | no highlight remains |
| HacksProgressStore.CalculateLevel | Hacks/src/store/progressStore.ts:67-69 | the level whose thousand-point band holds the experience, starting at level 1 |
| HacksProgressStore.LevelMonotone | Hacks/src/store/progressStore.ts:67-69 | more experience never gives a lower level |
| HacksProgressStore.TimeXP | Hacks/src/store/progressStore.ts:35 | ten points per whole minute: never negative for a non-negative time, at most a sixth of the seconds, always a multiple of ten |
| HacksProgressStore.Award | Hacks/src/store/progressStore.ts:51-65 | the badge is held afterwards, nothing held before is lost, at most one badge is added and only when its id was not held, so ids stay distinct |
| HacksProgressStore.AwardIdempotent | Hacks/src/store/progressStore.ts:51-65 | awarding the same badge twice is awarding it once |
| HacksProgressStore.ProgressStore.constructor | Hacks/src/store/progressStore.ts:27-29 | the store starts with the restored metrics, if any |
| HacksProgressStore.ProgressStore.UpdateProgress | Hacks/src/store/progressStore.ts:31-49 | with no metrics nothing changes; otherwise one more lesson, the time added, ten XP per whole minute, and the level recomputed, so it matches the XP and never drops for a non-negative time |
| HacksProgressStore.ProgressStore.AwardBadge | Hacks/src/store/progressStore.ts:51-65 | with no metrics nothing changes; otherwise the badge list becomes the award |
| HacksProgressStore.ProgressStore.AddXP | Hacks/src/store/progressStore.ts:71-86 | with no metrics nothing changes; otherwise the amount is added and the level recomputed, never dropping for a non-negative amount |
| SrcAccessibilityStore.ToggleTheme | src/stores/accessibilityStore.ts:98-102 | dark exactly from light, light from dark or system; nothing else changes |
| SrcAccessibilityStore.ToggleThemeTwice | src/stores/accessibilityStore.ts:98-102 | two toggles from light or dark give the settings back; from system they end at dark |
| SrcAccessibilityStore.ToggleHighContrast | src/stores/accessibilityStore.ts:104-106 | high contrast flips and nothing else changes |
| SrcAccessibilityStore.ToggleDyslexicFont | src/stores/accessibilityStore.ts:108-114 | the dyslexia font flips and nothing else changes |
| SrcAccessibilityStore.ToggleReducedMotion | src/stores/accessibilityStore.ts:124-126 | reduced motion flips and nothing else changes |
| SrcAccessibilityStore.ToggleReadingRuler | src/stores/accessibilityStore.ts:128-130 | the reading ruler flips and nothing else changes |
| SrcAccessibilityStore.TogglesTwice | src/stores/accessibilityStore.ts:104-130 | every toggle undoes itself |
| SrcAccessibilityStore.SetTTSSettings | src/stores/accessibilityStore.ts:136-142 | each of speed, pitch and voice is replaced only when supplied; nothing else changes |
| SrcAccessibilityStore.SetTTSNothing | src/stores/accessibilityStore.ts:136-142 | supplying nothing changes nothing |
| SrcAccessibilityStore.DefaultVoice | src/stores/accessibilityStore.ts:82 | one of the voices: the first default one when there is one, otherwise the first voice |
| SrcAccessibilityStore.Initialize | src/stores/accessibilityStore.ts:62-86 | reduced motion ends on when it was on or the system prefers it; the voice changes only when speech is available, a voice exists and none was set, and then becomes the default voice; nothing else changes |
| SrcAccessibilityStore.AccessibilityStore.constructor | src/stores/accessibilityStore.ts:46-60 | the persisted settings, or the initial ones |
| SrcAccessibilityStore.AccessibilityStore.InitializeFromSystem | src/stores/accessibilityStore.ts:62-86 | the settings become their initialization for what the system reports |
| SrcAccessibilityStore.AccessibilityStore.SetTheme | src/stores/accessibilityStore.ts:88-96 | only the theme changes |
| SrcAccessibilityStore.AccessibilityStore.ToggleThemeAction | src/stores/accessibilityStore.ts:98-102 | the settings become their theme toggle |
| SrcAccessibilityStore.AccessibilityStore.ToggleHighContrastAction | src/stores/accessibilityStore.ts:104-106 | the settings become their high-contrast toggle |
| SrcAccessibilityStore.AccessibilityStore.ToggleDyslexicFontAction | src/stores/accessibilityStore.ts:108-114 | the settings become their dyslexia-font toggle |
| SrcAccessibilityStore.AccessibilityStore.SetFontSize | src/stores/accessibilityStore.ts:116-118 | only the font size changes |
| SrcAccessibilityStore.AccessibilityStore.SetTextSpacing | src/stores/accessibilityStore.ts:120-122 | only the spacing changes |
| SrcAccessibilityStore.AccessibilityStore.ToggleReducedMotionAction | src/stores/accessibilityStore.ts:124-126 | the settings become their reduced-motion toggle |
| SrcAccessibilityStore.AccessibilityStore.ToggleReadingRulerAction | src/stores/accessibilityStore.ts:128-130 | the settings become their reading-ruler toggle |
| SrcAccessibilityStore.AccessibilityStore.SetReadingRulerPosition | src/stores/accessibilityStore.ts:132-134 | only the ruler position changes |
| SrcAccessibilityStore.AccessibilityStore.SetTTSSettingsAction | src/stores/accessibilityStore.ts:136-142 | the settings become their speech-settings update |
| SrcAuthStore.AuthStore.constructor | src/stores/authStore.ts:18-22 | the persisted user, not loading, not initialised |
| SrcAuthStore.AuthStore.Initialize | src/stores/authStore.ts:24-39 | a second call changes nothing; the first seeds the demo users and sample lessons into an empty store, takes the adapter's current user and ends initialised and not loading, with nothing else in the adapter changed |
| SrcAuthStore.AuthStore.Login | src/stores/authStore.ts:41-53 | success exactly when a stored user matches the address and password, and then that user is shown; otherwise `Invalid credentials` is thrown on and the user stays; loading ends off |
| SrcAuthStore.AuthStore.Register | src/stores/authStore.ts:55-66 | an address already taken throws `User already exists` and changes nothing; otherwise the new user is appended to the stored users and shown; loading ends off |
| SrcAuthStore.AuthStore.Logout | src/stores/authStore.ts:68-76 | nobody is signed in, here or in the adapter, and nothing else changes |
| SrcAuthStore.AuthStore.UpdateProfile | src/stores/authStore.ts:78-92 | without a user `No user to update` is thrown and nothing changes; otherwise `User not found` exactly when no stored user has the id, and on success the stored user merged with the updates is shown |
| SrcFallbackAdapter.LongSentences | src/lib/adapters/fallbackAdapter.ts:7 | every piece kept is a sentence piece whose trimmed length exceeds the bound |
| SrcFallbackAdapter.SummaryLength | src/lib/adapters/fallbackAdapter.ts:8 | at most three and at most the count, at least one for a non-empty count, exactly three from seven on |
| SrcFallbackAdapter.SummarySentences | src/lib/adapters/fallbackAdapter.ts:7-8 | a prefix of the long sentences of the computed length; empty exactly when no sentence is long |
| SrcFallbackAdapter.GenerateSummary | src/lib/adapters/fallbackAdapter.ts:5-10 | the summary is the chosen long sentences joined by `. ` with a closing `.`; it is only `.` exactly when no sentence is longer than ten characters |
| SrcFallbackAdapter.SimplifyText | src/lib/adapters/fallbackAdapter.ts:12-19 | a one-word text that is a listed word in any capitalisation becomes `use`, `also` or `about`, the first list it is on deciding, and any other word stays; text with none of the listed words and no whitespace after a sentence end comes back unchanged; with `SimplifyInContext`, a word between non-word characters is treated so inside any text |
| SrcFallbackAdapter.SimplifyOneWord | src/lib/adapters/fallbackAdapter.ts:15-18 | the three list passes and the sentence breaks replace a one-word text as a whole or keep it |
| SrcFallbackAdapter.ThreePasses | src/lib/adapters/fallbackAdapter.ts:15-17 | over a one-word text, the first list the word is on decides its replacement when no replacement is on a later list |
| SrcFallbackAdapter.OneWordPass | src/lib/adapters/fallbackAdapter.ts:15-17 | one list pass replaces a one-word text exactly when it is a listed word up to case |
| SrcFallbackAdapter.ReplacementsUnlisted | src/lib/adapters/fallbackAdapter.ts:15-17 | no replacement word is on a list applied after it |
| Strings.ReplaceWordsSplit | src/lib/adapters/fallbackAdapter.ts:15-17 | a `\b…\b` case-blind replacement over a text cut where no word straddles the cut is the replacement of each part |
| Strings.ReplaceKeepsEdges | src/lib/adapters/fallbackAdapter.ts:15-17 | a replacement keeps a text that ends (starts) with a non-word character ending (starting) so |
| Strings.ReplaceAround | src/lib/adapters/fallbackAdapter.ts:15-17 | a piece between non-word characters is replaced apart from its neighbours |
| Strings.ReplaceWordInContext | src/lib/adapters/fallbackAdapter.ts:15-17 | a word between non-word characters becomes the replacement exactly when it is a listed word up to case and stays otherwise, and the text on each side is replaced on its own |
| SrcFallbackAdapter.BreakAfterSentences | src/lib/adapters/fallbackAdapter.ts:18 | the sentence-break rewrite leaves a text with no whitespace after a sentence end as it is; with `BreakAtSentenceEnd`, a sentence end followed by whitespace gets exactly two newlines in place of that whitespace |
| SrcFallbackAdapter.BreakSplit | src/lib/adapters/fallbackAdapter.ts:18 | cut a text where no whitespace run after a sentence end is split, and the rewrite of the whole is the rewrite of each part |
| SrcFallbackAdapter.BreakAtSentenceEnd | src/lib/adapters/fallbackAdapter.ts:18 | a sentence end and the whole whitespace run after it become the sentence end and two newlines; the text before and after is rewritten on its own |
| SrcFallbackAdapter.BreakAroundWord | src/lib/adapters/fallbackAdapter.ts:18 | a word of `\w` characters is kept by the sentence breaks, and so is its place between the rewritten text before and after it |
| SrcFallbackAdapter.ListPassesInContext | src/lib/adapters/fallbackAdapter.ts:15-17 | the three list passes over a word between non-word characters rewrite the word on its own, still a word, and the text on each side as if the word were not there |
| SrcFallbackAdapter.SimplifyInContext | src/lib/adapters/fallbackAdapter.ts:12-19 | inside any text, a word between non-word characters is simplified as a one-word text would be, and the text before and after it is simplified on its own |
| SrcFallbackAdapter.QuestionAbout | src/lib/adapters/fallbackAdapter.ts:26-31 | each question has four options and the manual-review answer |
| SrcFallbackAdapter.GenerateQuestions | src/lib/adapters/fallbackAdapter.ts:20-35 | one question per long sentence, in order, for the first `count` of them (none for a negative count) |
| SrcFallbackAdapter.QuestionsFor | src/lib/adapters/fallbackAdapter.ts:25-32 | the loop builds exactly the i-th question from the i-th sentence |
| SrcFallbackAdapter.DetectLanguage | src/lib/adapters/fallbackAdapter.ts:38-49 | each of the four codes is answered exactly when its script is the first one present in the priority order |
| SrcFallbackAdapter.SentimentFrom | src/lib/adapters/fallbackAdapter.ts:65-71 | neutral at 0.5 exactly when no word counts; otherwise positive iff positives outnumber negatives, with the larger share as confidence, always between 0.5 and 1 |
| SrcFallbackAdapter.AnalyzeSentiment | src/lib/adapters/fallbackAdapter.ts:51-72 | the verdict is the one for the number of tokens mentioning a positive and a negative word |
| SrcFallbackAdapter.CountBoth | src/lib/adapters/fallbackAdapter.ts:60-63 | the single pass counts both tests exactly |
| SrcFallbackAdapter.Translation | src/lib/adapters/fallbackAdapter.ts:203-224 | any request other than English to Hindi, or a text with no glossary word, gets the notice; otherwise the first glossary word present is replaced case-insensitively |
| SrcFallbackAdapter.TranslateText | src/lib/adapters/fallbackAdapter.ts:216-220 | the glossary walk with its early return gives that translation |
| SrcFallbackAdapter.DetectedCodeNotSupported | src/lib/adapters/fallbackAdapter.ts:226-238 | detection can answer `ar` or `zh`, which the supported-language list lacks |
| SrcGeminiAdapter.GenerateContent | src/lib/adapters/geminiAdapter.ts:30-35 | a failed response is an error carrying its status and status text; otherwise the first candidate's text, or `''` when it is missing |
| SrcGeminiAdapter.QuestionMarkerAt | src/lib/adapters/geminiAdapter.ts:96 | a marker match starts with `Q`, ends with `:` and fits in the text |
| SrcGeminiAdapter.NextMarker | src/lib/adapters/geminiAdapter.ts:96 | the position found holds a marker match; when none is found no later position holds one |
| SrcGeminiAdapter.SplitAtMarkers | src/lib/adapters/geminiAdapter.ts:96 | splitting gives at least one piece, the whole text when there is no marker |
| SrcGeminiAdapter.BlockLines | src/lib/adapters/geminiAdapter.ts:99 | every line kept is non-blank |
| SrcGeminiAdapter.OptionTexts | src/lib/adapters/geminiAdapter.ts:108 | one option text per line, position by position |
| SrcGeminiAdapter.OptionsCount | src/lib/adapters/geminiAdapter.ts:105-108 | one option per option line |
| SrcGeminiAdapter.LastMappedIsLast | src/lib/adapters/geminiAdapter.ts:109-110 | the default when nothing matches, otherwise the value of the last match |
| SrcGeminiAdapter.AnswerFrom | src/lib/adapters/geminiAdapter.ts:103-111 | the answer is `''` without a `CORRECT:` line and otherwise the text after the last one that is not an option line |
| SrcGeminiAdapter.QuestionOf | src/lib/adapters/geminiAdapter.ts:99-117 | a block yields a question exactly when it has five or more non-blank lines with exactly four option lines after the first; the question is the non-empty first line, with its options and answer |
| SrcGeminiAdapter.OptionsSnoc | src/lib/adapters/geminiAdapter.ts:107-108 | one more line adds its option text exactly when it is an option line |
| SrcGeminiAdapter.AnswerSnoc | src/lib/adapters/geminiAdapter.ts:109-110 | one more line replaces the answer exactly when it is a `CORRECT:` line that is not an option line |
| SrcGeminiAdapter.ScanLines | src/lib/adapters/geminiAdapter.ts:105-112 | the inner loop gathers exactly the options and the answer of the lines |
| SrcGeminiAdapter.ParseBlock | src/lib/adapters/geminiAdapter.ts:99-117 | one block gives exactly the question its lines define |
| SrcGeminiAdapter.AllQuestions | src/lib/adapters/geminiAdapter.ts:98-118 | at most one question per block, each with four options and a non-empty question |
| SrcGeminiAdapter.AllQuestionsStep | src/lib/adapters/geminiAdapter.ts:114-116 | one more block appends its question when it yields one |
| SrcGeminiAdapter.CollectQuestions | src/lib/adapters/geminiAdapter.ts:98-118 | the block loop collects every block's question, in order |
| SrcGeminiAdapter.GenerateQuestions | src/lib/adapters/geminiAdapter.ts:92-120 | the result is the slice of the parsed questions, at most `count` of them for a non-negative count, each well-formed |
| SrcGeminiAdapter.DetectLanguage | src/lib/adapters/geminiAdapter.ts:133 | the first two characters of the trimmed lowered reply, lower-case, or all of it when it is shorter |
| SrcGeminiAdapter.FirstMatch | src/lib/adapters/geminiAdapter.ts:150-151 | the regex search: a found match is the one at the leftmost matching position; none is found only when no position matches |
| SrcGeminiAdapter.ConfidenceAt | src/lib/adapters/geminiAdapter.ts:151 | a captured confidence is a non-empty run of digits and dots |
| SrcGeminiAdapter.AnalyzeSentiment | src/lib/adapters/geminiAdapter.ts:150-156 | the label at the leftmost position holding a sentiment match, or neutral when no position does; the parsed numeral at the leftmost position holding a confidence match, or 0.5 when no position does |
| SrcGeminiAdapter.FirstMatchIsLeftmost | src/lib/adapters/geminiAdapter.ts:150-151 | searching from the start finds nothing when no position matches, and otherwise exactly what the leftmost matching position gives |
| SrcGeminiAdapter.FirstMatchNone | src/lib/adapters/geminiAdapter.ts:150-151 | from any start, no match at or after it means none is found |
| SrcGeminiAdapter.WellFormedReply | src/lib/adapters/geminiAdapter.ts:138-153 | worked example: a reply in the requested format is read back as the sentiment it names |
| SrcGeminiAdapter.TtsIsSupported | src/lib/adapters/geminiAdapter.ts:164-168 | speech is never supported |
| SrcGeminiAdapter.TtsGetVoices | src/lib/adapters/geminiAdapter.ts:186-188 | no voices |
| SrcGeminiAdapter.TtsSpeak | src/lib/adapters/geminiAdapter.ts:170-172 | speaking always fails with the not-implemented message |
| SrcLocalAdapter.DefaultUsers | src/lib/adapters/localAdapter.ts:26-66 | one demo student, teacher and administrator, each with the demo password |
| SrcLocalAdapter.SampleLessons | src/lib/adapters/localAdapter.ts:85-227 | the three sample lessons `lesson-1` to `lesson-3`, all by `teacher-1` and published |
| SrcLocalAdapter.Authenticate | src/lib/adapters/localAdapter.ts:251 | nothing is found exactly when no user matches both email and password; a found user is a stored one that matches |
| SrcLocalAdapter.DefaultUsersUnique | src/lib/adapters/localAdapter.ts:26-66 | the demo accounts have different emails |
| SrcLocalAdapter.AuthenticateUnique | src/lib/adapters/localAdapter.ts:251 | with distinct emails the user found is the only one with that email |
| SrcLocalAdapter.BadgeName | src/lib/adapters/localAdapter.ts:525-535 | the table's name, and `Unknown Badge` exactly for ids not in the table |
| SrcLocalAdapter.BadgeDescription | src/lib/adapters/localAdapter.ts:537-547 | the table's description, and the generic one exactly for ids not in the table |
| SrcLocalAdapter.BadgeIcon | src/lib/adapters/localAdapter.ts:549-559 | the table's icon, and the medal icon exactly for ids not in the table |
| SrcLocalAdapter.AchievementName | src/lib/adapters/localAdapter.ts:561-569 | the table's name, and `Achievement` exactly for ids not in the table |
| SrcLocalAdapter.AchievementDescription | src/lib/adapters/localAdapter.ts:571-579 | the table's description, and the generic one exactly for ids not in the table |
| SrcLocalAdapter.AchievementReward | src/lib/adapters/localAdapter.ts:581-589 | at least 100; the table's reward, and 100 exactly for ids not in the table |
| SrcLocalAdapter.HighlightIndex | src/lib/adapters/localAdapter.ts:492 | the index of the first highlight with the id, none exactly when no highlight has it |
| SrcLocalAdapter.WithoutHighlight | src/lib/adapters/localAdapter.ts:513 | no highlight with the id is left, the others stay in order, and the list shrinks exactly when one had the id |
| SrcLocalAdapter.FirstLessonWith | src/lib/adapters/localAdapter.ts:490-499 | the first lesson, in lesson order, whose list for the user holds the id; none exactly when no list holds it |
| SrcLocalAdapter.FirstLessonWithIs | src/lib/adapters/localAdapter.ts:490-499 | a lesson holding the id with none before it holding it is the one found |
| SrcLocalAdapter.LocalAdapter.constructor | src/lib/adapters/localAdapter.ts:9-24 | the adapter starts over empty storage |
| SrcLocalAdapter.LocalAdapter.InitializeDefaultUsers | src/lib/adapters/localAdapter.ts:70-232 | an empty user table gets the demo users and an empty lesson table the samples; other tables stay; both end up non-empty |
| SrcLocalAdapter.LocalAdapter.GetCurrentUser | src/lib/adapters/localAdapter.ts:235-237 | the signed-in user |
| SrcLocalAdapter.LocalAdapter.Login | src/lib/adapters/localAdapter.ts:239-261 | after seeding, failure exactly when no user matches, with `Invalid credentials` and no sign-in; otherwise the first matching user is signed in and returned |
| SrcLocalAdapter.LocalAdapter.Register | src/lib/adapters/localAdapter.ts:263-306 | an existing email fails with `User already exists` and changes nothing; otherwise exactly one user is appended, signed in and given fresh progress; distinct emails stay distinct and the new credentials log in as the new user |
| SrcLocalAdapter.LocalAdapter.Logout | src/lib/adapters/localAdapter.ts:308-310 | nobody is signed in; every table stays |
| SrcLocalAdapter.LocalAdapter.UpdateUser | src/lib/adapters/localAdapter.ts:312-329 | an unknown id fails with `User not found` and changes nothing; otherwise only the first user with the id gets the updates, and the signed-in copy is rewritten only for an email, name or preferences update |
| SrcLocalAdapter.LocalAdapter.GetUserProgress | src/lib/adapters/localAdapter.ts:331-336 | the signed-in user's stored progress; none without a user |
| SrcLocalAdapter.LocalAdapter.UpdateProgress | src/lib/adapters/localAdapter.ts:338-341 | the record is stored under its own user and returned; nothing else changes |
| SrcLocalAdapter.LocalAdapter.GetUserBadges | src/lib/adapters/localAdapter.ts:343-348 | the signed-in user's badges, none without a user |
| SrcLocalAdapter.LocalAdapter.AwardBadge | src/lib/adapters/localAdapter.ts:350-367 | without a user it fails with `No user logged in` and changes nothing; otherwise the looked-up badge is appended to that user's badges, even when one with the id is already there |
| SrcLocalAdapter.LocalAdapter.GetUserAchievements | src/lib/adapters/localAdapter.ts:369-374 | the signed-in user's achievements, none without a user |
| SrcLocalAdapter.LocalAdapter.UnlockAchievement | src/lib/adapters/localAdapter.ts:376-393 | as awarding a badge, for the looked-up achievement |
| SrcLocalAdapter.LocalAdapter.GetLesson | src/lib/adapters/localAdapter.ts:400-403 | the first lesson with the id; none exactly when no lesson has it |
| SrcLocalAdapter.LocalAdapter.CreateLesson | src/lib/adapters/localAdapter.ts:405-418 | the input is appended as a lesson with the fresh id and both timestamps set to now; nothing else changes |
| SrcLocalAdapter.LocalAdapter.UpdateLesson | src/lib/adapters/localAdapter.ts:420-436 | an unknown id fails with `Lesson not found` and changes nothing; otherwise only the first lesson with the id is patched and stamped now |
| SrcLocalAdapter.LocalAdapter.DeleteLesson | src/lib/adapters/localAdapter.ts:438-442 | every lesson with the id goes and the rest stay in order; an absent id changes nothing |
| SrcLocalAdapter.LocalAdapter.GetLessonProgress | src/lib/adapters/localAdapter.ts:444-449 | the user's record for the lesson, none without a user |
| SrcLocalAdapter.LocalAdapter.UpdateLessonProgress | src/lib/adapters/localAdapter.ts:451-456 | without a user it fails and changes nothing; otherwise only that user's record for the lesson is stored |
| SrcLocalAdapter.LocalAdapter.GetHighlights | src/lib/adapters/localAdapter.ts:459-464 | the user's list for the lesson, empty without a user or a stored list |
| SrcLocalAdapter.LocalAdapter.CreateHighlight | src/lib/adapters/localAdapter.ts:466-481 | without a user it fails and changes nothing; otherwise the new highlight is appended to the user's list for its lesson |
| SrcLocalAdapter.LocalAdapter.UpdateHighlight | src/lib/adapters/localAdapter.ts:483-502 | it fails without a user or when no lesson's list holds the id, changing nothing; otherwise only the first matching highlight in the first lesson holding the id is patched |
| SrcLocalAdapter.LocalAdapter.DeleteHighlight | src/lib/adapters/localAdapter.ts:504-522 | failures as for updating; otherwise every highlight with the id is removed from the first lesson's list that holds it |
| SrcLocalAdapter.LocalAdapter.GetLessons | src/lib/adapters/localAdapter.ts:396-398 | the stored lessons, in order |
| SrcNotesStore.Get | src/stores/notesStore.ts:47-48 | a lesson never touched has an empty list |
| SrcNotesStore.Append | src/stores/notesStore.ts:19-31 | the lesson's list grows by the item at the end; every other lesson's list stays |
| SrcNotesStore.Remove | src/stores/notesStore.ts:33-45 | the lesson's list keeps exactly the passing entries, in order; every other lesson's list stays |
| SrcNotesStore.AppendThenRemove | src/stores/notesStore.ts:19-45 | appending an entry the filter drops and then filtering gives the filtered list |
| SrcNotesStore.AddHighlight | src/stores/notesStore.ts:19-24 | the highlight is appended to its lesson's list only; the notes stay |
| SrcNotesStore.AddNote | src/stores/notesStore.ts:26-31 | the note is appended to its lesson's list only; the highlights stay |
| SrcNotesStore.RemoveHighlight | src/stores/notesStore.ts:33-38 | no highlight with the id is left in that lesson, the others stay in order, other lessons and the notes stay |
| SrcNotesStore.RemoveNote | src/stores/notesStore.ts:40-45 | no note with the id is left in that lesson, the others stay in order, other lessons and the highlights stay |
| SrcNotesStore.GetHighlights | src/stores/notesStore.ts:47 | empty for a lesson never touched |
| SrcNotesStore.GetNotes | src/stores/notesStore.ts:48 | empty for a lesson never touched |
| SrcNotesStore.AddThenRemoveHighlight | src/stores/notesStore.ts:19-38 | adding a highlight with a fresh id and removing it restores the lesson's list |
| SrcNotesStore.AddThenRemoveNote | src/stores/notesStore.ts:26-45 | adding a note with a fresh id and removing it restores the lesson's list |
| SrcProgressStore.LevelForBounds | src/stores/progressStore.ts:71 | level n covers exactly the totals from 100(n-1) below 100n |
| SrcProgressStore.LevelMonotone | src/stores/progressStore.ts:71 | more XP never gives a lower level |
| SrcProgressStore.Advance | src/stores/progressStore.ts:70-82 | XP added and the level recomputed from the total; the streak grows by one exactly when the last activity was on another day; activity moves to now; everything else stays |
| SrcProgressStore.SameDayKeepsStreak | src/stores/progressStore.ts:72-74 | a second update on the same day leaves the streak where the first put it |
| SrcProgressStore.AdvanceLevelMonotone | src/stores/progressStore.ts:70-71 | gaining XP never lowers the level |
| SrcProgressStore.BadgeTriggers | src/stores/progressStore.ts:86-97 | `level_up` is asked for exactly when the level rose, `streak_7` and `streak_30` exactly at those streaks, and nothing else |
| SrcProgressStore.Award | src/stores/progressStore.ts:103-113 | the badges grow by at most the adapter's new badge, and stay exactly when the id is held or nobody is signed in |
| SrcProgressStore.AwardHolds | src/stores/progressStore.ts:103-113 | after a signed-in award the id is held, and ids stay distinct |
| SrcProgressStore.AwardIdempotent | src/stores/progressStore.ts:105 | asking for the same badge twice is asking once |
| SrcProgressStore.AwardAll | src/stores/progressStore.ts:86-97 | a run of awards only extends the badges |
| SrcProgressStore.AwardAllSnoc | src/stores/progressStore.ts:86-97 | one more request is one more award at the end |
| SrcProgressStore.AwardAllDistinct | src/stores/progressStore.ts:103-113 | however many awards, no badge id is held twice, and for a signed-in user each asked id is held |
| SrcProgressStore.Unlock | src/stores/progressStore.ts:115-125 | the achievements grow by at most the adapter's new one, and stay exactly when the id is held or nobody is signed in |
| SrcProgressStore.UnlockHolds | src/stores/progressStore.ts:115-125 | after a signed-in unlock the id is held, and ids stay distinct |
| SrcProgressStore.StoredCompose | src/stores/progressStore.ts:108-109 | storing two batches through the adapter is storing them together |
| SrcProgressStore.FreshProgress | src/stores/progressStore.ts:39-48 | a fresh record is level 1 with no XP, streak, lessons or achievements, and its level matches its XP |
| SrcProgressStore.MilestoneAchievement | src/stores/progressStore.ts:168-173 | `perfectionist` exactly at ten completions, `scholar` exactly at a hundred, nothing otherwise |
| SrcProgressStore.ProgressStore.constructor | src/stores/progressStore.ts:25-28 | the store starts with the given record, badges and achievements, not loading |
| SrcProgressStore.ProgressStore.Initialize | src/stores/progressStore.ts:30-63 | the adapter's record for the signed-in user, or a fresh one saved through the adapter; badges and achievements reloaded; not loading afterwards |
| SrcProgressStore.ProgressStore.AwardBadge | src/stores/progressStore.ts:103-113 | the badges become the award's result, and the adapter stores exactly the appended badge for the signed-in user |
| SrcProgressStore.ProgressStore.UnlockAchievement | src/stores/progressStore.ts:115-125 | the achievements become the unlock's result, and the adapter stores exactly the appended one |
| SrcProgressStore.ProgressStore.AwardStep | src/stores/progressStore.ts:86-97 | one award in a run keeps the store and the adapter in step with the whole run |
| SrcProgressStore.ProgressStore.AwardTriggered | src/stores/progressStore.ts:86-97 | the triggered badges are awarded in order |
| SrcProgressStore.ProgressStore.UpdateProgress | src/stores/progressStore.ts:65-101 | nothing happens without a record; otherwise the advanced record is saved and shown, then the triggered badges are awarded |
| SrcProgressStore.ProgressStore.MarkLessonComplete | src/stores/progressStore.ts:144-178 | nothing happens without a record or for a completed lesson; otherwise the id is appended, 50 XP added, and the first, tenth and hundredth completion ask for their badge or achievement; completed ids stay distinct |
| SrcProgressStore.ProgressStore.RecordCompletion | src/stores/progressStore.ts:152-167 | the id appended and saved, 50 XP added, and `first_lesson` asked for on the first completion |
| SrcProgressStore.ProgressStore.SaveMarked | src/stores/progressStore.ts:152-158 | the record with the id appended is saved through the adapter and shown |
| SrcProgressStore.ProgressStore.UnlockMilestone | src/stores/progressStore.ts:164-173 | the milestone for the count is unlocked, if there is one |
| SrcTypes.MergeUser | src/lib/adapters/localAdapter.ts:320 | each field the update carries replaces the user's, the creation time included, and every field it lacks stays |
| SrcTypes.MergeUserTwice | src/lib/adapters/localAdapter.ts:320 | applying the same update twice is applying it once |
| SrcTypes.PatchLesson | src/lib/adapters/localAdapter.ts:428-432 | each field the update carries replaces the lesson's, the others stay, and the update time is now |
| SrcTypes.PatchLessonTwice | src/lib/adapters/localAdapter.ts:428-432 | patching twice with the same update at the same time is patching once |
| SrcTypes.PatchHighlight | src/lib/adapters/localAdapter.ts:495 | each field the update carries replaces the highlight's and the others stay |
| SrcTypes.PatchHighlightTwice | src/lib/adapters/localAdapter.ts:495 | applying the same update twice is applying it once |

## Left out

- Network calls are not modelled; what they answer is a parameter. This covers Gemini requests, `fetch` and the Python model provider. The prompt texts for the Gemini summary and simplification are not modelled, since only the reply matters.
- Browser storage (localforage, localStorage, chrome storage) is not modelled; in-memory fields stand in for it. The stored-object parse failure in HACKNO `getData` (`HACKNO/js/localAdapter.js:24-32`) is not modelled, because the JSON text itself is not modelled.
- Timers are not modelled: the simulated delays, `setTimeout` scheduling in the job queues and the upload ticks. The Hacks job queue returns each delay instead of waiting for it.
- Randomness and the clock are not modelled. Generated ids, `Date.now()` values, the simulated random success of jobs and timestamps are inputs. Two `Date.now()` ids colliding is therefore not modelled. `URL.createObjectURL` is an input too: `CreateLessonPage.SubmittedLesson` takes the URL of each completed file, one per call.
- Console output is not modelled (`console.log`, `console.warn`, `console.error`). Neither is the Hacks `logError` console call; its message text is modelled.
- Speech synthesis, speech recognition, OCR and PDF stand-ins are not modelled: they call browser APIs. This covers:
  - the TTS/STT/OCR adapters in `src/lib/adapters/fallbackAdapter.ts:76-199`;
  - `generateTTS`, `transcribeAudio` and `generateImageDescription` in `Hacks/src/lib/adapters/fallbackAdapter.ts:32-191`, with the speech helpers after line 200;
  - `speak`, `startListening` and `announceToScreenReader` in `HACKNO/js/aiAdapter.js:127-175`;
  - the Gemini speech adapter's `pause`, `resume` and `stop`, which only throw.
- DOM effects are not modelled:
  - HACKNO `updatePageLanguage` (`HACKNO/js/aiAdapter.js:116-124`) and `exportData` (`HACKNO/js/localAdapter.js:212-224`);
  - the dark-mode class and theme attributes the stores and the Hackathon header set on the page;
  - `announceToScreenReader`, `focusElement` and `trapFocus` in `Hackathon/src/lib/utils.ts`.
- Cross-tab messaging is not modelled: HACKNO `broadcastUpdate`/`listenForUpdates` (`HACKNO/js/localAdapter.js:227-242`) and Hacks `broadcastJobUpdate` (`Hacks/src/lib/adapters/localAdapter.ts:295`).
- The i18n library's language switch is not modelled; the stored language is.
- These `Hackathon/src/lib/utils.ts` helpers are not modelled: `cn`, `sanitizeHtml`, `generateId`, `formatDate`, `formatDateTime`, `debounce`, `throttle` and `isValidUrl`. They wrap library or DOM calls.
- These display helpers are not modelled: `getFileIcon` and the local `formatFileSize` in `CreateLessonPage.tsx`, and `getAccessibilityIcon` in `LessonsPage.tsx`. They only pick icons and labels.
- HackathonUtils.FormatFileSize: only the zero case is stated. The logarithm and floating-point rounding of the other sizes are not modelled.
- Floating-point numbers are not modelled. Ratios, confidences and percentages are exact rationals (`real`). `NaN` from a division by zero appears only where the source can produce it and is noted at that member.
- `toLowerCase` is modelled on ASCII letters only. Python's `lower()` in the quit test is modelled the same way, so case mappings outside ASCII are not modelled.
- Regular-expression metacharacters are not escaped in the source when a word becomes a pattern. The model treats every vocabulary and glossary word as plain text, which matches the shipped tables, none of which holds a metacharacter. JavaScript `$` replacement patterns are not modelled either, since the shipped replacements have none.
- Inherited object keys such as `constructor` or `__proto__` are not modelled. A lookup table here holds exactly its literal entries, so a lookup on an inherited key is not modelled.
- HacknoAiAdapter.Keywords: a word table is walked in insertion order. `Object.entries` lists integer-like keys (a word such as `2024`) first, and that reordering is not modelled.
- CustomLanguageNlp.TranslateToEnglish: the vocabulary is walked in insertion order. `Object.entries` lists integer-like keys first (`src/lib/customLanguageNLP.ts:46-55`), and that reordering is not modelled.
- CustomLanguageProcessor.Translate: the same `Object.entries` reordering of integer-like vocabulary keys (`src/lib/customLanguageProcessor.ts:30-39`) is not modelled.
- String lengths count characters (Unicode scalar values); JavaScript counts UTF-16 code units. Text outside the Basic Multilingual Plane, such as an emoji, therefore counts differently here and in the source. This affects:
  - the length limits in RegisterPage.Validate and LoginPage.Validate (at least 2 and 6 characters) and in CreateLessonPage.Validate (at most 200 and 500);
  - the highlight offsets in TextHighlighter;
  - the two-character cut (`substring(0, 2)`) in SrcGeminiAdapter.DetectLanguage, which can split a surrogate pair in the source.
- LessonService.GenerateLessons: a response body that is not JSON makes `response.json()` throw (`src/lib/lessonService.ts:40`). That case is not modelled; the response arrives with its text already read.
- The pass-through actions `getProgressForLesson` and `updateLessonProgress` of `src/stores/progressStore.ts:127-142` are not modelled as store methods. They only forward to the adapter, whose `GetLessonProgress` and `UpdateLessonProgress` are modelled.
- The `persist` middleware itself (the write to browser storage and its timing) is not modelled. A store's constructor takes the restored fields instead: `HacksAuthStore.AuthStore.constructor` takes the persisted user, as `partialize` keeps only `user`.
- Password encoding is not modelled: HACKNO `btoa` and the Hacks base64 conversion of uploaded data are given functions or inputs.
- Concurrency between interleaved asynchronous actions is not modelled. Each action runs to completion.
- The CLI's end of input (`EOFError`) is modelled as running out of typed topics (`EndOfInput`).
- The React rendering itself is not modelled. Pages are modelled only through their schemas, filters and state changes.

## Findings

| source | as written | input that shows it | evidently intended | confidence | as-written member | corrected member |
|---|---|---|---|---|---|---|
| src/lib/customLanguageProcessor.ts:27-62 | `\b` and `\w` are ASCII-only, so vocabulary words in Tamil, Malayalam or Kannada script never match when flanked by spaces or punctuation: such a word is not translated and the difficulty is always hard | the Tamil vocabulary word for "learn" on its own | each vocabulary word that occurs is translated, and a text of known words rates easy | not executed | CustomLanguageProcessor.AsWrittenTamilWord | CustomLanguageProcessor.ScriptTamilWord |
| src/lib/nlpService.ts:13-19 | `analyzeText` calls `generateContent` on the Gemini adapter object, which has no such method, so it always falls back on the basic analysis | the empty text with a reply counting 42 words | the model's parsed reply decides the analysis; only a failed call or parse falls back | not executed | NlpService.AsWrittenIgnoresReply | NlpService.CorrectedUsesReply |
| src/lib/lessonService.ts:88 | `replace(/^[-\d.]\s*/, '')` removes one marker character, so a numbered objective keeps the rest of its number and its dot | `1. Read maps` gives `. Read maps` | the whole marker goes: `Read maps` | not executed | LessonService.AsWrittenKeepsDot | LessonService.NumberedItemCorrected |
| HACKNO/js/localAdapter.js:80-102 | `addProgress` saves the snapshot it loaded at line 81 after `awardPoints` and `checkAndAwardBadges` have saved theirs, so the points and badges are lost | a new user's first highlight | the item, its points and the badges it earns are all kept | not executed | HacknoLocalAdapter.FirstHighlightLost | HacknoLocalAdapter.RecordedAwardsPoints |
