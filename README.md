# Quiz bot: answer checking and event dispatch

A Dafny model of the core of a VK quiz chat-bot. The bot keeps each user's current question in a key-value store. It replies to three keyboard commands ("Новый вопрос", "Сдаться", "Мой счёт"). Any other text is read as an attempt to answer the current question.

- `wrappers.dfy`: `Result` and `Outcome`, the values that stand for the exceptions the Python code raises.
- `questions.dfy` (module `Questions`, pure): the question store `get_random_question` / `get_answer` as lookups in an in-memory bank, and `is_correct_answer` with the exact-answer rule it applies to a stored answer.
- `vk_bot.dfy` (module `VkBot`, imperative): class `QuizBot`. It holds the question bank, the session map that stands for the Redis `users_db`, and an append-only outbox that stands for the `messages.send` calls. It has one method per handler and `HandleEvent` for the dispatch. `Dispatch` is a function that states what one event does. `HandleEvent` is proved to do exactly that, and the lemmas beside `Dispatch` state the dispatch rules case by case.

The exact answer is modelled as the code computes it. One might read questions.py:25-28 as "strip the parenthetical, then cut at the first `.` of what is left". The code does something else:

- It tests for `.` in the ORIGINAL answer, and then cuts the original answer at its first `.` (questions.py:27-28). That overwrites the result of the `(` step.
- So `"Paris (capital.)"` normalises to `"Paris (capital"` (`PeriodInsideParenthesis`). The parenthesis-first reading would give `"Paris"` (`ParenFirstReadingDiffers`).
- `ParenFirstReadingAgrees` and `ParenFirstReadingDisagrees` together prove that the two readings differ exactly when a `(` comes before the first `.`.

"Сдаться" from a user without a session does not pose a question. `handle_give_up_request` calls `.decode` on the `None` that the store returns, and raises before it sends or stores anything (vk_bot.py:43). The model returns `Fail(NoSession)`, with nothing stored or sent.

## Model

| member | source | states |
|---|---|---|
| Questions.GetRandomQuestion | questions.py:8-12 | fails with `DataUnavailable` exactly when the bank is empty; otherwise returns the chosen question, which is a key of the bank |
| Questions.GetAnswer | questions.py:15-19 | succeeds exactly when the question is a key, with that key's stored answer; otherwise fails with `UnknownQuestion` |
| Questions.FirstIndex | questions.py:26-28 | the index of the first occurrence of the character; it is below the length exactly when the character occurs, and no earlier position holds it |
| Questions.SplitHead | questions.py:26-28 | `s.split(c)[0]`: a prefix of `s` free of `c`, followed in `s` by `c` when `s` contains `c`, and all of `s` otherwise |
| Questions.RStrip | questions.py:29 | `rstrip()`: a prefix that does not end in whitespace, and everything cut off is whitespace |
| Questions.RStripIsTheRStrip | questions.py:29 | `RStrip(s)` is the one and only string that meets the reference definition `IsRStripOf` |
| Questions.FirstIndexIsFirstAt | questions.py:26-28 | `FirstIndex` returns exactly the position that the reference predicate `FirstAt` calls the first occurrence |
| Questions.ExactAnswer | questions.py:22-29 | the exact answer is a prefix of the stored answer, contains no `.` and does not end in whitespace |
| Questions.ExactAnswerWithPeriod | questions.py:27-29 | with a `.` in the stored answer, the exact answer is the part before the first `.`, right-stripped, even when a `(` comes earlier |
| Questions.ExactAnswerWithParenOnly | questions.py:25-29 | with a `(` and no `.`, the exact answer is the part before the first `(`, right-stripped |
| Questions.ExactAnswerPlain | questions.py:24-29 | with neither `(` nor `.`, the exact answer is the stored answer right-stripped |
| Questions.ParenFirstReadingDisagrees | questions.py:25-29 | when a `(` comes before the first `.`, the code's exact answer differs from the parenthesis-first reading: it keeps that `(`, which the other cannot contain |
| Questions.ParenFirstReadingAgrees | questions.py:24-29 | unless a `(` comes before the first `.`, the code gives the same result as stripping the parenthetical first and then cutting at the period |
| Questions.PeriodInsideParenthesis | questions.py:25-29 | `"Paris (capital.)"` normalises to `"Paris (capital"`: a `.` inside the parentheses wins |
| Questions.ParenFirstReadingDiffers | questions.py:25-29 | stripping the parenthetical first would have given `"Paris"` for the same answer |
| Questions.IsCorrectAnswer | questions.py:22-30 | `user_answer == exact_answer`: case- and whitespace-sensitive equality of the user's untrimmed text with `ExactAnswer`, so an accepted text is a prefix of the stored answer with no `.` and no trailing whitespace; its closed form is `IsCorrectAnswerMeaning` |
| Questions.IsCorrectAnswerMeaning | questions.py:22-30 | the user's text is accepted exactly when it is the right-stripped part of the stored answer before its first `.`, else before its first `(`, else the whole answer |
| Questions.ExactAnswerIsCorrect | questions.py:24-30 | reflexivity: the exact answer itself is always accepted |
| Questions.UntrimmedAnswerRejected | questions.py:29-30 | the user's text is not trimmed: text that ends in whitespace, or that contains a `.`, is never accepted |
| Questions.ExactAnswerIdempotent | questions.py:24-29 | normalising twice changes nothing when the exact answer has no `(` |
| Questions.ParenthesisDropped | questions.py:24-29 | `"Paris (largest city)"` normalises to `"Paris"` |
| Questions.CaseSensitive | questions.py:30 | `"Paris"` is accepted for `"Paris (largest city)"` and `"paris"` is not |
| Questions.DecimalCut | questions.py:27-29 | `"3.14."` normalises to `"3"` |
| Questions.PlainAnswer | questions.py:24-30 | `"4"` is accepted for the stored answer `"4"` |
| VkBot.Dispatch | vk_bot.py:84-96 | only the event's own user's session may change, and only to a question of the bank; every message is addressed to the event's user; an event that is not a new message to the bot changes nothing and sends nothing |
| VkBot.NewQuestionCommand | vk_bot.py:30-38 | the new-question command, with or without a session, stores the chosen question and sends exactly that one message |
| VkBot.GiveUpCommand | vk_bot.py:41-57 | the give-up command sends the quoted answer to the current question and then the new question, in that order, and stores the new question |
| VkBot.GiveUpWithoutSession | vk_bot.py:43 | the give-up command without a session raises, with nothing stored and nothing sent |
| VkBot.ScoreCommand | vk_bot.py:75-81 | the score command sends the one fixed message and leaves the sessions as they were |
| VkBot.WelcomeOnlyForPlainText | vk_bot.py:87-94 | a user without a session gets only the welcome message, with nothing stored, exactly when the text is not a command; commands are matched before the session is looked up |
| VkBot.SolutionAttempt | vk_bot.py:60-72 | plain text from a user with a session sends one message, the congratulation exactly when `IsCorrectAnswer` holds, and leaves the sessions as they were |
| VkBot.SessionsStayInBank | vk_bot.py:84-96 | if every session holds a question of the bank, that stays so after any event, and no event fails with `UnknownQuestion` |
| VkBot.QuizBot.constructor | vk_bot.py:105-110 | the bot starts with the given bank and session store and nothing sent |
| VkBot.QuizBot.HandleNewPlayer | vk_bot.py:14-27 | appends the welcome message for the event's user; sessions unchanged |
| VkBot.QuizBot.HandleNewQuestionRequest | vk_bot.py:30-38 | stores the chosen question as the user's session and appends it to the outbox; with an empty bank, raises and changes nothing |
| VkBot.QuizBot.HandleGiveUpRequest | vk_bot.py:41-57 | needs a session; appends the quoted answer and then the new question, and stores the new question; raises and changes nothing when the current question is not in the bank |
| VkBot.QuizBot.HandleSolutionAttempt | vk_bot.py:60-72 | needs a session; appends the congratulation or the correction with the stored answer; sessions unchanged |
| VkBot.QuizBot.HandleScoreRequest | vk_bot.py:75-81 | appends the fixed score message; sessions unchanged |
| VkBot.QuizBot.HandleEvent | vk_bot.py:84-96 | the new sessions and the appended messages are exactly those `Dispatch` gives for the old sessions; it keeps every session inside the bank |

## Left out

- `start_bot` (vk_bot.py:99-113) is left out: the long-poll loop and the `VkApi` and `Redis` connections are network I/O. An exception from `handle_event` would end that loop. The model returns it as a `Fail` outcome instead.
- Keyboard layout and colours (vk_bot.py:16-20) and `get_random_id` are calls into the VK SDK. A message is modelled by its recipient and text only.
- Reading the JSON question file and `env_settings` (questions.py:10-11, 17-18) are file I/O. The bank is an immutable in-memory map. The source re-reads the file on every call, so the model does not capture an edit to the file while the bot runs.
- `random.choice` becomes the parameter `pick`. The caller must supply a key of the bank whenever the bank is not empty.
- The `.decode('utf-8')` of Redis bytes is left out: sessions are held as strings.
- `event.message` (vk_bot.py:64) and `event.text` (vk_bot.py:87) are both modelled as the single field `Event.text`.
- vk_bot.py imports a `QuizDB` class that questions.py does not define. The model uses the module-level functions of questions.py over the bank instead.
- bot_text.py is not part of this model. The three command texts are taken as "Новый вопрос", "Сдаться" and "Мой счёт".
- Failures of the Redis store and of `messages.send` are not modelled: both services are assumed to answer.
- `IsWhitespace` lists the characters for which Python's `str.isspace` is true. It stands in for the Unicode database that Python consults.
