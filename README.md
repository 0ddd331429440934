# AI mock interviewer: the interview core in Dafny

The repository runs an Excel mock interview twice: as a Flask web application (`app.py`) and as a Streamlit script (`main.py`). A candidate answers a bank of questions one by one. A language model grades each answer with a reply of the form `Score: X/10\nFeedback: <text>`. The front end parses that reply, records the score and the feedback, and at the end shows a summary: the mean score, a "basics" average, an "advanced" average, two labels and the per-question feedback. The Flask application also builds user ids for new users.

This project models that core and proves properties of it:

- `PyText` (`pytext.dfy`): the Python string operations the core relies on, stated on `seq<char>`:
  - `str.strip` with Python's full white-space set;
  - `str.find`;
  - `split(sep)[0]` and `split(sep)[1]`;
  - ASCII `lower`, `replace(" ", "")`, `str(n)` and `f"{n:02d}"`.
- `PyNumber` (`pynumber.dfy`): `int(float(s))` on decimal numerals and the words `inf`, `infinity` and `nan`. The result is a truncated value, a ValueError or an OverflowError. A numeral whose integer part reaches 2^1024 - 2^970 rounds to an infinity and overflows.
- `ReplyParsing` (`reply_parser.dfy`): the reply format and the two parsers:
  - app.py's parser turns any exception into `(0, "Evaluation failed.")`;
  - main.py's parser accepts a missing feedback marker, catches only IndexError and ValueError, and rewrites a failed reply.
  - The rest of the module is the round trip from a formatted reply back to its score and feedback.
- `Summaries` (`summary.dfy`): the summary arithmetic and labels of both front ends, with averages as exact reals.
- `FlaskInterview` (`app_session.dfy`): `evaluate_answer` as a loop over the configured keys, and the Flask session as a class. The routes `/`, `/login`, `/start`, `/interview` and `/summary` are its methods.
- `StreamlitInterview` (`main_session.dfy`): `evaluate_answer` of main.py, and `st.session_state` as a class. `Run` is one execution of the script.
- `UserIds` (`user_id.dfy`): `generate_user_id`. It is a loop over at most 100 candidates, with the random drawings and the user store as parameters.
- `QuestionBank` (`question.dfy`): the question record.

Both session classes keep the invariant that each recorded list has exactly `step` elements. Every route or run that changes state states its whole new state in its postconditions.

Two behaviours of app.py's session code are easy to miss:

- After `/`, the summary URL gets 403, not a redirect home. `summary` checks the session id before it looks at the scores, and `/` has removed the id (`FlaskInterview.SummaryAfterClear`).
- `summary` does not clear the session. `FlaskInterview.FlaskSession.Summary` has no `modifies` clause, so every key keeps its value.

## Model

| member | source | states |
|---|---|---|
| PyText.Strip | app.py:323 | `strip()` leaves a string with no white space at either end and is never longer |
| PyText.StripPadded | app.py:323 | stripping `w1 + t + w2`, with white space `w1` and `w2` and a stripped `t`, gives exactly `t` |
| PyText.StripIdempotent | app.py:327 | stripping twice is stripping once |
| PyText.FindFromFirst | app.py:327 | `find` returns an occurrence at or after the start index with none before it, and None only when there is none |
| PyText.SplitHead | app.py:327 | `split(sep)[0]` is a prefix of the text, the separator starts at no position inside it, and it ends at the first separator or at the end of the text |
| PyText.SplitSecond | app.py:327 | `split(sep)[1]` fails (IndexError) exactly when the separator does not occur |
| PyText.SplitSecondAfterFirst | app.py:329 | when the first separator ends `p`, `split(sep)[1]` of `p + rest` is `split(sep)[0]` of `rest` |
| PyText.RemoveSpaces | app.py:118 | `replace(" ", "")` leaves no space and removes nothing else: the same multiset of characters with every space gone |
| PyText.RemoveSpacesChar | app.py:118 | a single space is removed and any other single character is kept |
| PyText.RemoveSpacesAppend | app.py:118 | removing spaces from `a + b` removes them from `a` and from `b` and keeps the two in order, so the result is the non-space characters in their order |
| PyText.AsciiLower | app.py:118 | `lower()` keeps the length and lowers each ASCII capital, leaving every other character as it is |
| PyText.IntToString | app.py:124 | `str(n)` starts with `-` exactly for a negative `n`, and its digits read back as the magnitude |
| PyText.Pad2 | app.py:124 | `f"{n:02d}"` has at least two digits, reads back as `n`, and is `str(n)` from 10 on |
| PyText.Pad2BelowTen | app.py:124 | below 10, `f"{n:02d}"` is exactly two characters: `0` and the digit of `n` |
| PyNumber.NumeralValue | app.py:328 | the empty text raises ValueError |
| PyNumber.NumeralValueCases | app.py:328 | for a stripped text: a value exactly for a decimal whose integer part is below 2^1024 - 2^970, namely that integer part with the sign applied; OverflowError exactly for `inf`, `infinity` and larger decimals; ValueError exactly for `nan` and every other text |
| PyNumber.DecimalIntegerPartShape | app.py:328 | the decimals `float` accepts are the digit strings and the digit strings around one dot with at least one digit; the integer part is the value of the digits before the dot |
| PyNumber.IntOfFloat | app.py:328 | a text made only of white space raises ValueError |
| PyNumber.IntOfFloatOfString | app.py:328 | `int(float(str(n))) == n` for every integer below 2^1024 - 2^970 in magnitude, and OverflowError for every larger one |
| PyNumber.IntOfFloatTruncates | app.py:328 | `int(float(str(n) + "." + f)) == n` for every digit string `f` and every `n` in the double range: the fraction is dropped, toward zero |
| PyNumber.NegativeTruncatesTowardZero | app.py:328 | `int(float("-7.9")) == -7` |
| PyNumber.InfinityOverflows | main.py:103 | `int(float("inf"))` raises OverflowError |
| ReplyParsing.ScoreText | app.py:327 | the score text is missing (IndexError) exactly when the reply has no `Score: ` |
| ReplyParsing.FeedbackText | app.py:329 | the feedback text is missing exactly when the reply has no `Feedback: `; otherwise it is stripped |
| ReplyParsing.ParseApp | app.py:326-333 | when the score text exists and converts and the feedback text exists, the evaluation is exactly the converted score and the feedback text; in every other case, including a reply without either marker, it is the fallback `(0, "Evaluation failed.")` |
| ReplyParsing.ParseAppFeedbackStripped | app.py:329-333 | the feedback app.py records is always stripped |
| ReplyParsing.ParseMain | main.py:101-108 | no `Score: `, or a score text that raises ValueError, gives the rewritten fallback; the script crashes exactly when `int(float(...))` of the score text raises OverflowError (an infinity or a numeral beyond the double range); a score text that converts gives exactly that score, the feedback text or, without a marker, "No feedback generated.", and `eval_result` unchanged |
| ReplyParsing.ScoreTextOfScoreLine | app.py:327 | the score text of a reply that starts with `Score: <n>/10` is `str(n)` |
| ReplyParsing.FirstFeedbackMarker | app.py:329 | the first `Feedback: ` of a formatted reply is the one placed after the score line |
| ReplyParsing.FeedbackTextOfFormatted | app.py:329 | the feedback text of a formatted reply is its feedback, cut at any marker inside it and stripped |
| ReplyParsing.ParseAppFormatted | app.py:327-329 | app.py parses any formatted reply with a score in the double range to its score and its feedback, cut at a marker and stripped |
| ReplyParsing.ParseMainFormatted | main.py:102-104 | main.py parses any formatted reply with a score in the double range the same way and keeps `eval_result` |
| ReplyParsing.HugeScoreFormatted | main.py:102-105 | a formatted reply whose score is beyond the double range falls back in app.py and crashes main.py |
| ReplyParsing.FormatRoundTrip | app.py:327-329 | a score in the double range and a stripped feedback without a marker go through the format and back unchanged, in both parsers |
| ReplyParsing.ParseMainWithoutFeedback | main.py:102-104 | a score line without any `Feedback: ` keeps its score in main.py, with the placeholder feedback, and falls back in app.py |
| ReplyParsing.MainFallbackReparses | main.py:105-108 | main.py's rewritten `eval_result` parses back to the same fallback |
| ReplyParsing.SolidAnswerExample | app.py:327-329 | `"Score: 7/10\nFeedback: Solid answer."` parses to `(7, "Solid answer.")` in both parsers |
| ReplyParsing.FormatReply | app.py:169 | a canned reply is its score line `Score: <n>/10` followed by a newline, `Feedback: ` and the feedback |
| ReplyParsing.InfiniteScoreCrashesMain | main.py:103-105 | a reply scored `inf` crashes main.py, whose `except` does not name OverflowError, and falls back in app.py |
| Summaries.Zip3 | app.py:367 | `zip` has the length of the shortest list and pairs the elements by position |
| Summaries.Mean | app.py:361 | the quotient times the count is the total |
| Summaries.AppSummarize | app.py:358-359 | the summary redirects home exactly when there are no scores |
| Summaries.AppAveragesScaled | app.py:361-363 | each app.py average times its count (`len`, `min(3, len)`, `len - 6`) is the sum it covers; with six scores or fewer the advanced average is 0 |
| Summaries.MeanVersusThreshold | app.py:365-366 | a mean is above or below 7 exactly when the total is above or below 7 times the count |
| Summaries.AppLabels | app.py:365-366 | "Strong in basics" exactly when the first (up to) three scores sum above 7 per score; "Improve advanced skills" exactly when there are six scores or fewer or the later ones sum below 7 per score; otherwise the other labels |
| Summaries.AppDetailed | app.py:367 | with the lists in lock-step the detailed feedback has one entry per score and pairs the lists by position |
| Summaries.SumWithin | app.py:361 | scores within `[lo, hi]` sum to within `[lo * n, hi * n]` |
| Summaries.AppAverageWithin | app.py:361 | scores between 0 and 10 give a mean between 0 and 10 |
| Summaries.EightScoresExample | app.py:361-366 | the scores 8 9 7 6 5 4 9 8 give mean 7, basics 8, advanced 8.5, "Strong in basics", "Good advanced skills" |
| Summaries.FewScoresNeedAdvanced | app.py:363-366 | with six scores or fewer the advanced average is 0 and the label is "Improve advanced skills" |
| Summaries.MainSummarize | main.py:120-122 | main.py's mean times the count is the sum, its basics average times 3 is the sum of the first three scores (of all when there are fewer), and its advanced average times 4 is the sum from the seventh score on (0 when there are fewer than seven) |
| Summaries.MainLabels | main.py:123-124 | "Strong in basics" exactly when the first three scores sum above 21, otherwise "Room for improvement in basics"; "Improve advanced skills" exactly when the scores from the seventh on sum below 28, otherwise "Solid advanced skills" |
| Summaries.FrontEndsAgreeOnTen | main.py:120-124 | with ten scores both front ends compute the same averages and the same verdicts |
| Summaries.FrontEndsDisagreeOnTwo | main.py:121-123 | with the scores 8 8 app.py says "Strong in basics" and main.py does not |
| FlaskInterview.FirstReplied | app.py:190-207 | the first key whose call returned: absent exactly when none returned, and every earlier key did not return |
| FlaskInterview.FirstReplyText | app.py:190-210 | the key loop returns the text of the first call that returned, and nothing exactly when none did |
| FlaskInterview.KeysReply | app.py:190-212 | the all-failed reply when no call returned |
| FlaskInterview.KeysReplyFirst | app.py:190-207 | the stripped text of the first key whose call returned, every earlier one having failed or been skipped |
| FlaskInterview.EvaluatorReply | app.py:166-212 | the configuration-error reply when no key is set, otherwise the empty-answer reply for an empty answer, otherwise what the keys give |
| FlaskInterview.EvaluateAnswer | app.py:166-212 | the reply is the configuration-error reply without keys, the empty-answer reply for an empty answer, and otherwise the stripped text of the first key that replied or the all-failed reply |
| FlaskInterview.ConfigErrorReplyParses | app.py:169 | the configuration-error reply parses to `(0, "API configuration error.")` |
| FlaskInterview.EmptyAnswerReplyParses | app.py:188 | the empty-answer reply parses to `(0, "Empty answer.")` |
| FlaskInterview.AllFailedReplyParses | app.py:212 | the all-failed reply parses to `(0, "All API keys failed.")` |
| FlaskInterview.NoReplyScoresZero | app.py:166-212 | when no call returns, the answer scores 0 with one of the canned messages, and never the empty-answer one for a non-empty answer |
| FlaskInterview.FlaskSession.Home | app.py:233-236 | `/` clears every key |
| FlaskInterview.FlaskSession.Login | app.py:270-273 | a successful login sets a new session id and leaves the interview keys alone |
| FlaskInterview.FlaskSession.Start | app.py:293-303 | on an authorized URL the step is 0 and the three lists are empty; otherwise 403 and nothing changes |
| FlaskInterview.FlaskSession.Interview | app.py:306-343 | no step: to `/start`; unauthorized: 403; all answered: to the summary; a GET or a blank answer shows the current question and changes nothing; otherwise one score, one feedback and one question are appended, the step advances by one, and the page is the summary once the step reaches the bank size |
| FlaskInterview.FlaskSession.Record | app.py:334-337 | the three appends and the step increment, keeping the lists at `step` elements |
| FlaskInterview.FlaskSession.Answer | app.py:322-337 | a non-empty POST at a question appends the evaluation and the question and advances the step |
| FlaskInterview.FlaskSession.Summary | app.py:346-367 | 403 on an unauthorized URL, home without scores, otherwise the report over the session's lists |
| FlaskInterview.SummaryAfterClear | app.py:347-349 | after `/` the summary URL is refused |
| FlaskInterview.EmptyBankCompletes | app.py:315-316 | with no questions, start, interview and summary give the interview redirect, the summary redirect and home |
| FlaskInterview.PostAnswer | app.py:306-343 | a POST as the route runs it records exactly the parse of what `evaluate_answer` returns for the stripped answer and redirects to the summary or the next question; on every other path it gives the route's page and changes nothing |
| FlaskInterview.AnswerAll | app.py:334-337 | one non-empty POST per question, from step 0, records every question, score and feedback in the bank's order |
| FlaskInterview.CompleteInterview | app.py:358-367 | a full interview ends with a report with one detailed entry per question: question, feedback and score by position |
| StreamlitInterview.Evaluate | main.py:38-58 | `evaluate_answer` returns the error dict exactly for an empty answer |
| StreamlitInterview.RaisedCallScoresZero | main.py:56-58 | when the call raises, the reply parses to score 0 whatever the message, and is shown unchanged |
| StreamlitInterview.ChatSession.Reset | main.py:64-67 | the reset button removes every key |
| StreamlitInterview.ChatSession.Initialise | main.py:70-78 | the first run sets step 0, empty lists, and the greeting with question 1; on an empty bank it stops before `messages` exists |
| StreamlitInterview.ChatSession.HandleInput | main.py:88-132 | the user's message is appended; while questions remain one score and one feedback are appended, the step advances and the assistant's follow-up is posted; an overflowing score crashes after the message; past the last question nothing else changes |
| StreamlitInterview.ChatSession.Record | main.py:110-132 | the appends, the step increment, and the assistant's follow-up: the next question and its number while questions remain (`FollowUpAfter`), otherwise main.py's summary over all the scores with all the feedbacks |
| StreamlitInterview.ChatSession.Run | main.py:64-134 | one run: after a reset a rerun with every key gone; a crash on a first run with an empty bank, after `step`, `scores` and `feedbacks` are set and before `messages` exists; a crash when `step` exists without `messages`, and then nothing changes; without input, once the session is set up, it waits and changes nothing, or on a first run sets up the initial state; a submitted input is evaluated and parsed (`Evaluate`, `ParseMain`) and then recorded, crashes or is only echoed, exactly as `HandleInput` states, on a first run and later |
| StreamlitInterview.EmptyBankCrashesEveryRun | main.py:70-81 | with an empty bank the first run crashes after setting `step`, and every later run crashes because `messages` never exists |
| StreamlitInterview.ResetThenReload | main.py:64-78 | a reset and a reload give step 0, empty lists and the greeting with question 1 |
| StreamlitInterview.AnswerAll | main.py:88-132 | one parsed answer per question records every score and feedback in order and ends the transcript with the summary over all of them |
| UserIds.Base | app.py:118 | the base has at most 10 characters |
| UserIds.BaseIsPrefix | app.py:118 | the base is the squeezed, lower-cased name, cut to 10 characters when longer |
| UserIds.BaseIsSqueezedLowerCase | app.py:118 | the base holds no space and no upper-case ASCII letter |
| UserIds.IdFrom | app.py:125-127 | an id has at most 20 characters |
| UserIds.CandidateStartsWithBase | app.py:121-127 | every candidate starts with the whole base and is a prefix of base plus suffix |
| UserIds.CandidateNeverCut | app.py:121-127 | with drawings of 6 and then 4 characters the cut to 20 never applies: at most 17 characters |
| UserIds.Attempt | app.py:121-127 | one pass of the loop body computes exactly the candidate id `IdFrom` specifies |
| UserIds.Candidates | app.py:119-132 | the loop tries exactly 100 candidates |
| UserIds.FirstAvailable | app.py:128-132 | a generated id is one of the candidates from the given position on, and it is available |
| UserIds.FirstAvailableFound | app.py:128-132 | a generated id is an available candidate with every earlier candidate taken |
| UserIds.FirstAvailableExhausted | app.py:128-132 | the exception is raised exactly when all 100 candidates are taken |
| UserIds.NoDatabaseFirstCandidate | app.py:128-129 | without a database the first candidate is returned |
| UserIds.TryCandidates | app.py:119-132 | the `while` loop returns the first available of the 100 candidates built on the base, or the exhaustion error |
| UserIds.GenerateUserId | app.py:117-132 | `generate_user_id` returns the first available of the 100 candidates for the name, or the exhaustion error |

## Left out

- HTTP and UI plumbing: `redirect`, `render_template`, `abort` and the page contents are `Page` tags. The Streamlit display loop, its debug expander and `st.rerun` are left out, and each chat message is a `Message` tag, not its display text.
- The `/guidelines` route (app.py:285-290): it only repeats the guard of the other routes and renders a page.
- Gemini: the prompt text, the model configuration and the chat `history` list are not modelled, and neither is the `history` session key. Each key's call outcome is a `KeyAttempt` parameter, and main.py's call outcome is an `ApiCall` parameter.
- FlaskInterview.FlaskSession.Interview, StreamlitInterview.ChatSession.HandleInput: the parsed evaluation is a parameter; `PostAnswer` and `Run` tie it to the evaluator's reply.
- Firebase:
  - `validate_session_id` is the boolean `known`;
  - the user lookup and the persistence of users, sessions and interviews are not modelled;
  - in `GenerateUserId`, the database's availability and the ids it holds are parameters.
- FlaskInterview.FlaskSession.Login: the email regular expression, the name-length check and the `user_id`, `user_email` and `user_name` session keys are not modelled; only the new session id is.
- Loading the question bank from the Google Sheet or the Excel workbook: the bank is a parameter. Also left out: the SMTP email, and the environment and credential loading.
- Randomness: the suffix drawings of `generate_user_id` are parameters. Only `CandidateNeverCut` assumes their lengths, and nothing assumes their alphabet.
- Floating point:
  - the averages are exact reals, so float rounding and the `:.1f` formatting are not modelled;
  - `int(float(s))` on numerals with more significant digits than a float holds gives the exact integer part here, where Python rounds to the nearest double first; only the rounding to an infinity is modelled.
- PyNumber.NumeralValue: exponent notation, underscores between digits and non-ASCII digits give ValueError here, where Python accepts them.
- PyText.AsciiLower: `lower()` is modelled on ASCII letters only.
- Concurrent requests on one session are not modelled.
- `testing.py` only reads a workbook and prints its size.

