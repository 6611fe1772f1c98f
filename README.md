# Quiz Arena bot: verified model of the quiz core

This project models, in Dafny, the quiz logic of the Quiz Arena Telegram bot
(`bot.py`) with the chat transport taken away. It has three parts:

- **Quiz sessions.** A `Session` object stands for the per-user `user_data`
  entries `current_question`, `score` and `user_id`. `Start` resets them
  (`start_quiz`). `Answer` grades a pressed button against the current
  question, adds 10 points when it is right and advances by one either way
  (`handle_answer`). `NextStep` shows the next question or reports completion
  (`send_question`). The callback token `answer_<i>` is modelled in both
  directions: building it, and parsing it back with `split('_')[1]` and
  `int(...)`.
- **Result finalisation.** `ShowResults` appends one attempt record to the
  shared ledger. `Finalise` picks the rank tier (champion, professional,
  average, novice) and the correct and wrong counts.
- **Ledger queries.** A `Ledger` object stands for the process-wide
  `user_scores` dictionary. It keeps its keys in insertion order, as Python
  dictionaries do. `Leaderboard` takes each user's best score, sorts stably
  by best score descending and keeps at most ten rows. `ShowScore` reports
  the games played, the best score, the floor of the mean and the date of
  the last game.

The session invariant (`Session.Valid`) says three things. The index stays
within the bank. One answer is recorded per question passed. The score is
10 times the number of correct answers. `Start` establishes the invariant and
every `Answer` keeps it, so it holds across any sequence of answers
when each handler runs as one atomic step (see "Left out").

Modules: `Wrappers` (option type, user id), `Tokens` (callback tokens),
`Questions` (question bank and keyboard), `Sessions`, `Results`, `Ledgers`,
`Bot` (the handlers that tie a session to the ledger, plus three worked
scenarios).

The model follows what the code does, including these behaviours:

- `cancel_quiz` does not clear `user_data`. The session keeps its index and
  score; only nothing is recorded. `CancelQuiz` therefore changes nothing.
- An answer index outside the option range is not an error. It only fails to
  match `correct`, so it is graded wrong and the quiz advances.
- An answer after completion, before any start, or with a malformed token
  makes the source raise (`IndexError`, `KeyError`, `ValueError`) before its
  first update. `Answer` returns `Rejected` with the matching fault and
  changes nothing.
- With an empty question bank, `start_quiz` goes straight to the results.
  It records a score of 0 out of 0, which ranks as champion.
- Leaderboard ties follow the dictionary's insertion order. That is the order
  in which users first finished a quiz. Python's sort is stable, and
  `reverse=True` keeps ties in their original order.

## Model

| member | source | states |
|---|---|---|
| `Tokens.Split` | bot.py:108 | `split('_')` yields at least one field and no field contains the separator |
| `Tokens.SplitJoin` | bot.py:108 | joining fields that hold no separator and splitting again gives the same fields |
| `Tokens.JoinSplit` | bot.py:108 | splitting a string and joining the fields again gives the string back |
| `Tokens.NatToString` | bot.py:85 | `str(i)` for `i >= 0` is a non-empty digit string with no leading zero |
| `Tokens.NatToStringValue` | bot.py:85 | reading the decimal numeral of `n` back gives `n` |
| `Tokens.ParseInt` | bot.py:108 | `int(f)` succeeds exactly on an optionally signed, non-empty digit string |
| `Tokens.EncodeAnswer` | bot.py:85 | the token of option `i` starts with `answer_` (the dispatch pattern of bot.py:318), splits on `_` into `answer` and the numeral of `i`, and parses back to exactly `i` |
| `Tokens.ParseAnswer` | bot.py:108 | a token parses only when it has a second `_`-separated field |
| `Tokens.NoSeparatorRejected` | bot.py:108 | a token without `_` is rejected, as Python's `[1]` raises IndexError |
| `Questions.CorrectText` | bot.py:117 | the text revealed after a wrong answer is one of the question's options |
| `Questions.OptionLetter` | bot.py:85 | the first 26 options are lettered with the capitals A to Z in order; later options get code points past `Z` |
| `Questions.OptionLetterOrder` | bot.py:84-85 | letters follow option order in both directions, so no two options of a question share a letter |
| `Questions.OptionButton` | bot.py:85 | the button of option `i` is labelled with its letter, and its token parses back to `i` |
| `Questions.OptionButtons` | bot.py:84-85 | one button per option, in option order |
| `Questions.Keyboard` | bot.py:83-88 | one button per option plus a final cancel button; button `i`'s token parses to `i`; the letters rise strictly in option order |
| `Questions.CancelTokenIsNotAnAnswer` | bot.py:88 | the cancel token does not parse as an answer, so even outside the dispatcher's routing (bot.py:318, 323) it would be rejected, not graded |
| `Sessions.Grade` | bot.py:113-118 | correct exactly when the index equals `correct`; otherwise wrong, revealing the correct option's text |
| `Sessions.CorrectCountBounded` | bot.py:113-114 | there are never more correct answers than answers |
| `Sessions.CorrectCountIsPositions` | bot.py:113-114 | the running count of correct answers is the number of correctly answered positions, so it does not depend on the order of grading |
| `Sessions.Session.constructor` | bot.py:109 | a `user_data` without quiz entries: not started, no answers |
| `Sessions.Session.Start` | bot.py:60-69 | the index and score become 0 for the user, overwriting any quiz in progress; the invariant holds |
| `Sessions.Session.IsComplete` | bot.py:76 | for a started session, complete exactly when every question of the bank has been answered |
| `Sessions.Session.NextStep` | bot.py:72-93 | complete exactly when the index equals the bank length; otherwise shows question `index + 1` of `len(QUIZ_DATA)` with its keyboard |
| `Sessions.Session.Answer` | bot.py:103-123 | rejected, with nothing changed, exactly when the token does not parse, no quiz was started or the quiz is complete; otherwise graded by `Grade`, +10 points exactly when correct, index +1 either way, invariant kept |
| `Sessions.ScoreBounds` | bot.py:113-123 | for a started session: `0 <= score <= 10 * current_question <= 10 * len(QUIZ_DATA)`; the score is a multiple of 10 and equals 10 times the number of correctly answered positions |
| `Results.Rank` | bot.py:144-151 | champion exactly for a full score; novice only below half the total; professional only at 70% or more |
| `Results.RankExtremes` | bot.py:144-151 | a full score is champion; a zero score on a non-empty bank is novice |
| `Results.RankMonotone` | bot.py:144-151 | between 0 and the total, a higher score never earns a lower tier |
| `Results.Finalise` | bot.py:132-161 | the total is 10 points per question, and the correct and wrong counts add up to the bank size |
| `Results.FinaliseCounts` | bot.py:160-161 | for a score of 10 per correct answer, the counts shown are the correct and wrong answers, and champion means all correct |
| `Ledgers.MaxScore` | bot.py:186 | the best score is one of the records' scores and no record scores more |
| `Ledgers.SumScores` | bot.py:218 | the total of non-negative scores is non-negative, and the total of multiples of 10 is a multiple of 10 |
| `Ledgers.SumAtMostCountTimesMax` | bot.py:217-218 | the sum of the scores is at most the number of games times the best score |
| `Ledgers.FloorMean` | bot.py:218 | `sum // n` is the floor of the mean and does not exceed any upper bound of the mean |
| `Ledgers.StatsOf` | bot.py:214-226 | games = number of records; best is the maximum; average is the floor of the mean and at most the best; date is the last record's |
| `Ledgers.Insert` | bot.py:189 | inserting one entry lengthens the sequence by one |
| `Ledgers.InsertPermutes` | bot.py:189 | insertion adds exactly the one entry |
| `Ledgers.InsertSorted` | bot.py:189 | insertion into a sequence sorted by best score keeps it sorted |
| `Ledgers.InsertKeepsTies` | bot.py:189 | an inserted entry goes before the entries it ties with |
| `Ledgers.SortByBest` | bot.py:189 | the sort keeps the length |
| `Ledgers.SortByBestPermutes` | bot.py:189 | the sorted sequence is a permutation of the input |
| `Ledgers.SortByBestSorted` | bot.py:189 | the sorted sequence is non-increasing in best score |
| `Ledgers.SortByBestStable` | bot.py:189 | entries with equal best score keep their input order (stable sort) |
| `Ledgers.TopNOmitted` | bot.py:189 | an entry cut by `[:n]` scores no more than any entry kept |
| `Ledgers.TopNMembers` | bot.py:189 | every entry kept by `[:n]` comes from the input |
| `Ledgers.TopN` | bot.py:189 | `min(n, len)` rows, non-increasing, drawn from the input; any entry left out scores no more than every row |
| `Ledgers.BestTable` | bot.py:184-186 | one entry per ledger user, in key order |
| `Ledgers.BestTableRow` | bot.py:184-186 | each entry's best score was attained by one of that user's records, and none of them scores more |
| `Ledgers.TopRowsAreBestScores` | bot.py:184-189 | every leaderboard row is a ledger user with that user's true best score |
| `Ledgers.OmittedUsersScoreNoMore` | bot.py:184-189 | a ledger user without a row scored no more than every row |
| `Ledgers.Appended` | bot.py:135-141 | appending adds the user if new, puts the record last in that user's list, keeps the earlier records and leaves other users alone |
| `Ledgers.Ledger.constructor` | bot.py:26 | the ledger starts empty |
| `Ledgers.Ledger.Append` | bot.py:135-141 | the new ledger is `Appended(old, user, record)`; a new user goes last in key order; earlier histories stay prefixes; the invariant holds |
| `Ledgers.Ledger.Leaderboard` | bot.py:180-199 | best score per user, sorted non-increasing, at most 10 rows (so the medal index stays in range), each row a user's true best, and any user left out scored no more than every row |
| `Ledgers.Ledger.ShowScore` | bot.py:214-231 | nothing exactly when the user has no games; otherwise that user's `StatsOf` |
| `Bot.ShowResults` | bot.py:128-161 | appends exactly one record (score, date, bank size) for the user, who goes last in key order when new; returns the finalised result screen |
| `Bot.StartQuiz` | bot.py:60-80 | resets the session; a non-empty bank leaves the ledger unchanged; an empty bank completes at once and records 0 of 0, adding a new user last in key order |
| `Bot.HandleAnswer` | bot.py:103-125 | a rejected press changes nothing; otherwise grade and advance; the attempt is recorded exactly when that answer completes the quiz (a new user goes last in key order), and the result shows the numbers of correct and wrong answers |
| `Bot.CancelQuiz` | bot.py:282-294 | neither the session nor the ledger changes, so a cancelled attempt is never recorded |

## Left out

- Telegram I/O: updates, inline keyboards as library objects, `edit_message_text`, `reply_text`, the `get_chat` name lookup, polling and handler registration. These are foreign library calls.
- `asyncio.sleep(2)` between answer feedback and the next question. It is display pacing only, and the model is synchronous.
- Message texts, Markdown, the welcome and help screens and the medal emoji are presentation. Button captions keep only the option letter and text. The cancel caption is a placeholder.
- `datetime.now().strftime(...)`: the date of an attempt is a parameter.
- Loading `quiz_data.json` and the `.env` token. The bank is a given sequence of questions, each with `correct` indexing one of its options (`BankWellFormed`). A malformed bank is outside the model.
- Logging and `error_handler`. A `Rejected` outcome stands for the three exceptions `handle_answer` raises before its first update; other exceptions are not modelled.
- Failing transport calls. Each handler is modelled as one atomic step, on the assumption that every chat call succeeds. In the source, an `edit_message_text` failure at bot.py:120 (network error, flood control) leaves `score` raised (bot.py:114) but `current_question` not advanced (bot.py:123); pressing the still-visible correct button again then scores that question twice. `Session.Valid` and `ScoreBounds` do not hold for that interleaving.
- Concurrency: each handler is modelled as one sequential step.
- Rank thresholds: the source compares against the floats `total * 0.7` and `total * 0.5`. The model uses the exact comparisons `10 * score >= 7 * total` and `2 * score >= total`. For whole-number scores and totals these agree while the rounding error of the float product stays below 1.
- Tokens.ParseInt: does not model the surrounding whitespace, Unicode digits or digit-group underscores that Python's `int()` also accepts. The bot's own tokens never contain them.
- Questions.OptionLetter: defined only for banks with at most 55231 options per question. Dafny characters cannot be surrogate code points; Python's `chr` has no such bound.
- Ledgers.Ledger.Leaderboard: does not state that the listed users are distinct.
