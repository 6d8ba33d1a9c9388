# Token budgets of openai-utilities, in Dafny

This project models the token-budget core of the Python library
`openai-utilities`. That core keeps a chat thread of role-tagged messages
inside a model's limits: a thread must fit the model's context window, and
one message must fit its message token limit. The library has two
generations of this logic, and both are modelled.

- **Second generation** (`openai_utilities/`):
  - `UtilTokens`: message and thread costs with no padding, and the recursive
    binary splitter `split_content` / `_split_in_half`. It cuts an oversized
    text in two on the first delimiter of `"\n\n"`, `"\n"`, `". "`, `"? "`,
    `"! "` that splits it, and truncates a text no delimiter splits.
  - `UtilChat`: the two context-window policies `empty_context_window` and
    `slide_context_window`, and the class `ChatAgent`. Its `thread` field goes
    through init, add (split and append), pre-call cleanup, remote call,
    append of the reply, and post-call cleanup.
- **First generation** (`openai_connectors/`):
  - `ConnTokens`: costs with a padding of four tokens per message, and a
    splitter that cuts oversized content into equal runs of whitespace
    separated words.
  - `ConnChat`: the class `ChatSession`, for `OpenAIChatSession`. Once the
    thread's cost reaches the context window minus one message limit,
    `run_thread` compacts the thread with a summary obtained from the model.
- **Retry** (`retryutils.py`): `Retry` models the two retry decorators as
  loops over the outcomes of the wrapped function's successive calls.

Shared pieces:

- `Text` gives the Python string operations the code relies on, with
  Python's semantics: `strip`, `split(sep)`, `join`, `split()` and int
  formatting.
- `Messages` holds the message datatype, the errors and the tokenizer.
- `Wrappers` holds `Option` and `Result`.

The tokenizer (`tiktoken` or a Hugging Face tokenizer) is a foreign library.
It is a value `Tokenizer(count, truncate)`. The lemmas that need its
behaviour require `Sound(tk)`, which holds two facts:

- a text truncated to `n` tokens has at most `n` tokens;
- truncation leaves a text that already fits unchanged.

Neither fact is guaranteed for the real tokenizers. Decoding the first `n`
tokens and encoding the result again can give more than `n` tokens. The
Hugging Face path of `truncate_text` (openai_utilities/tokenutils.py:74)
rebuilds the text with `convert_tokens_to_string`, and the comment at
openai_utilities/tokenutils.py:85 says that for `thenlper/gte-large`, which
has a message limit, it returns the tokens joined by spaces. So the second
fact fails there even for a text that fits.

The remote completion call is a parameter of type
`Completion = seq<Message> -> Result<Reply, Error>`. Every property holds for
every such function, so it holds whatever the service answers. Exceptions
are `Error` values:

- an empty `reduce` is `EmptyReduce`;
- a model missing from a limits table is `UnknownModel`;
- `//` by a zero limit is `DivisionByZero`;
- `range` with step 0 is `ZeroRangeStep`;
- a failure of the remote call is `Remote`.

Behaviours of the code that the model keeps, and that a reader of the
comments might not expect:

- **`slide_context_window` slides by less than one message limit.** The
  message at which the running non-system cost reaches the limit is kept.
  So the non-system messages dropped cost strictly less than the limit
  (`UtilChat.SlideOverBudget`), not at least the limit.
- **`slide_context_window` can duplicate a message.** It assumes the system
  messages come first. On a thread of system messages only that is over
  budget, it returns the thread followed by its last message again
  (`UtilChat.SlideAllSystemDuplicatesLast`).
- **The first generation's running count never resets.** In
  `create_summerized_thread`, the count only grows after a summary. So once
  one summary fires, every later message fires another. A compacted thread
  is therefore exactly the instruction, one summary and the latest message
  (`ConnChat.SummarizedShape`, `ConnChat.CompactedShape`).
- **A failed call in `run_thread` keeps the compaction.** If the final
  remote call fails after compaction, the thread stays compacted
  (`ConnChat.ChatSession.RunThread`).

## Model

| member | source | states |
|---|---|---|
| `Text.Strip` | openai_utilities/tokenutils.py:87-89 | `str.strip()`: the result is a slice of the text whose parts before and after are all whitespace; it has no whitespace at either end, and is empty exactly when the text is all whitespace |
| `Text.Split` | openai_utilities/tokenutils.py:112 | `text.split(d)`: there is always at least one piece; `Text.JoinSplit` and `Text.SplitLeftmost` determine the pieces |
| `Text.SplitLeftmost` | openai_utilities/tokenutils.py:112 | the separator is matched leftmost and without overlap: the last piece holds no separator, and no separator starts inside any other piece, not even one running into the separator that follows it |
| `Text.Join` | openai_utilities/tokenutils.py:124-126 | `d.join(parts)`: the parts with `d` between neighbours; its laws are `Text.JoinSplit` and `Text.JoinAppend` |
| `Text.NonEmpty` | openai_utilities/tokenutils.py:112 | the filter `if c` of the comprehension: only non-empty pieces, never more than there were; `Text.NonEmptyOne` and `Text.NonEmptyAppend` determine it |
| `Text.NonEmptyOne` | openai_utilities/tokenutils.py:112 | a single piece is kept exactly when it is not empty |
| `Text.NonEmptyAppend` | openai_utilities/tokenutils.py:112 | the filter distributes over concatenation, so every non-empty piece is kept and the order is unchanged |
| `Text.JoinSplit` | openai_utilities/tokenutils.py:112 | joining the pieces of `text.split(d)` with `d` gives back the text |
| `Text.Words` | openai_connectors/tokenutils.py:80 | `str.split()`: every word is non-empty with no whitespace; there are no words exactly when the text is all whitespace |
| `Text.WordsConcat` | openai_connectors/tokenutils.py:80 | the words put back together are exactly the non-whitespace characters of the text, in order |
| `Text.WordsOfWord` | openai_connectors/tokenutils.py:80 | a non-empty text with no whitespace is one word |
| `Text.WordsAcrossSpace` | openai_connectors/tokenutils.py:80 | words are maximal: the words of `a`, one whitespace character and `b` are the words of `a` followed by those of `b` |
| `Messages.FieldValues` | openai_utilities/tokenutils.py:57 | `message.values()`: role and content, then the name when present; `Messages.CreateMessage` states the order |
| `Messages.MessageCost` | openai_utilities/tokenutils.py:54-58 | the padding plus the count of each field value, as both generations compute it with their own padding |
| `Messages.TotalCost` | openai_utilities/tokenutils.py:61-65 | the sum of the message costs; `Messages.TotalCostAppend` makes it additive |
| `Messages.TotalCostAppend` | openai_utilities/tokenutils.py:61-65 | the summed cost of two lists put together is the sum of their summed costs |
| `Messages.ThreadCost` | openai_utilities/tokenutils.py:61-65 | the `reduce` of the message costs: the empty-`reduce` error exactly on an empty list, else the sum |
| `Messages.CreateMessage` | openai_utilities/chat.py:19-23 | role and content are always present, in that order; the name comes third and only when one is given (the connectors copy at openai_connectors/chat_connector.py:18-22 is identical) |
| `Messages.UserMessages` | openai_utilities/chat.py:176 | one user message per chunk, in order, all with the same name |
| `Messages.ReplyMessage` | openai_utilities/chat.py:190 | the appended reply carries the reply's role and content and no name |
| `UtilTokens.MessageCost` | openai_utilities/tokenutils.py:54-58 | a message costs the padding (0) plus the count of its role, its content and its name when present |
| `UtilTokens.ThreadCost` | openai_utilities/tokenutils.py:61-65 | fails with the empty-`reduce` error exactly on an empty thread; a single message costs what it costs alone |
| `UtilTokens.ThreadCostAppend` | openai_utilities/tokenutils.py:61-65 | the cost of two non-empty threads put together is the sum of their costs |
| `UtilTokens.TruncateText` | openai_utilities/tokenutils.py:68-74 | `truncate_text`: the tokenizer's truncation to the limit; `UtilTokens.TruncateWithinLimit` states what it promises |
| `UtilTokens.TruncateWithinLimit` | openai_utilities/tokenutils.py:68-74 | a truncated text is within the limit, and a text that fits is left unchanged |
| `UtilTokens.HalfIndex` | openai_utilities/tokenutils.py:117-125 | the split index is the smallest index from 1 whose left part reaches half the text's count, or the last index when none before it does |
| `UtilTokens.SplitInHalf` | openai_utilities/tokenutils.py:110-126 | at most two non-empty pieces come back as they are; more are joined into exactly two halves cut at `HalfIndex` with half the text's count as the target; rejoined the result is the text without its empty pieces; two halves are each strictly shorter than the text |
| `UtilTokens.SplitContent` | openai_utilities/tokenutils.py:86-108 | `split_content`: strip, nothing for blank text, the wrapped text truncated when it fits, else the delimiter loop; its properties are the `SplitContent*` lemmas below |
| `UtilTokens.TryDelimiters` | openai_utilities/tokenutils.py:95-108 | the `for delimiter` loop: the first delimiter that cuts the text in two decides and both halves are split again, in order; with none left the wrapped text is truncated; see `TryDelimitersPicksFirst` and `TryDelimitersFallBack` |
| `UtilTokens.SplitContentWithinLimit` | openai_utilities/tokenutils.py:86-108 | every chunk of `split_content` has a token count within the message limit |
| `UtilTokens.SplitContentBlank` | openai_utilities/tokenutils.py:87-89 | an empty or whitespace-only text gives no chunk |
| `UtilTokens.SplitContentFits` | openai_utilities/tokenutils.py:91-94 | a stripped, wrapped text within the limit (exactly at it included) comes back as the one chunk, unchanged |
| `UtilTokens.SplitContentFirstDelimiter` | openai_utilities/tokenutils.py:95-102 | delimiters are tried in order; the first that cuts the text in two decides, and the result is the chunks of the first half followed by those of the second |
| `UtilTokens.TryDelimitersPicksFirst` | openai_utilities/tokenutils.py:95-103 | the delimiter loop skips every delimiter that does not cut the text in two |
| `UtilTokens.SplitContentTruncates` | openai_utilities/tokenutils.py:104-108 | an over-limit text that no delimiter cuts gives one chunk, the wrapped text truncated to the limit |
| `UtilTokens.TryDelimitersFallBack` | openai_utilities/tokenutils.py:95-108 | when no remaining delimiter cuts the text, the loop ends in the truncation |
| `UtilChat.EmptyContextWindow` | openai_utilities/chat.py:36-38 | every message kept is a system message, and every system message of the thread is kept |
| `UtilChat.EmptyContextAppend` | openai_utilities/chat.py:36-38 | the policy keeps the order: on two threads put together it is the policy of the first followed by the policy of the second |
| `UtilChat.EmptyContextIdempotent` | openai_utilities/chat.py:36-38 | applying the policy twice is applying it once |
| `UtilChat.EmptyContextOfSystemPrefix` | openai_utilities/chat.py:36-38 | on system messages followed by conversation, exactly the leading system messages are kept |
| `UtilChat.NonSystemCost` | openai_utilities/chat.py:53-55 | `token_count`: the summed cost of the non-system messages of a prefix of the thread |
| `UtilChat.Crosses` | openai_utilities/chat.py:54-56 | index `j` is a non-system message at which the running non-system cost reaches the limit, the `break` condition |
| `UtilChat.CutFrom` | openai_utilities/chat.py:51-57 | the cut is the first non-system index where the running non-system cost reaches the limit, or the last index |
| `UtilChat.CutUnique` | openai_utilities/chat.py:51-57 | the cut is the only index with no crossing before it and a crossing at it unless it is the last |
| `UtilChat.SlideWithin` | openai_utilities/chat.py:46-60 | the policy once the limits are known: the thread under budget, else its system messages and the thread from the cut; `SlideUnderBudget`, `SlideOverBudget` and `SlideSystemPrefix` state it |
| `UtilChat.Slide` | openai_utilities/chat.py:44-60 | `slide_context_window`: the empty-`reduce` error first, then an unknown model, then `SlideWithin` with the model's limits |
| `UtilChat.SlideContextWindow` | openai_utilities/chat.py:45-60 | the loop over the thread returns what the sliding policy prescribes, error cases included |
| `UtilChat.SlideUnderBudget` | openai_utilities/chat.py:46-47 | a thread within the context window minus the message limit is returned unchanged |
| `UtilChat.SlideOverBudget` | openai_utilities/chat.py:49-60 | over budget, the result is all system messages in order followed by the thread from the cut on; the crossing message is kept; the non-system cost dropped is below the limit |
| `UtilChat.SlideSystemPrefix` | openai_utilities/chat.py:43-60 | with the system messages first, the result is the system prefix followed by a contiguous tail of the conversation, so no message is duplicated |
| `UtilChat.SlideAllSystemDuplicatesLast` | openai_utilities/chat.py:51-60 | an over-budget thread of system messages only comes back with its last message twice |
| `UtilChat.InitialThread` | openai_utilities/chat.py:144-150 | a string gives one system message, a list one system message per element in order, anything else an empty thread |
| `UtilChat.Chunks` | openai_utilities/tokenutils.py:87-94 | the chunks for a content fail exactly when the content is not blank and the model has no message limit |
| `UtilChat.ChunksWithinLimit` | openai_utilities/chat.py:175-177 | every chunk `add_message` appends is within the model's message limit, blank content included |
| `UtilChat.CleanupResult` | openai_utilities/chat.py:184 | `run_cleanup`: the thread itself with no policy, else the policy applied to the thread and the model |
| `UtilChat.Respond` | openai_utilities/chat.py:182-195 | the outcome of `get_response` on a thread, as the result and the thread left behind; without cleanups a successful call returns the reply's content and adds exactly the reply message |
| `UtilChat.ChatAgent.constructor` | openai_utilities/chat.py:106-134 | the agent keeps its settings and starts with the thread `_init_window` makes |
| `UtilChat.ChatAgent.InitWindow` | openai_utilities/chat.py:144-150 | the thread is reset to the instructions as system messages and returned |
| `UtilChat.ChatAgent.AddMessage` | openai_utilities/chat.py:175-177 | the old thread stays as a prefix, followed by one user message per chunk, with the shared name; on error the thread is unchanged |
| `UtilChat.ChatAgent.RunCleanup` | openai_utilities/chat.py:184 | the configured policy applied to the thread, or the thread itself when none is configured |
| `UtilChat.ChatAgent.GetResponse` | openai_utilities/chat.py:182-195 | pre-call cleanup, call on the cleaned thread, one reply message appended, post-call cleanup, reply content returned; the result and new thread are `Respond` of the old thread; without cleanups the thread grows by exactly one message |
| `UtilChat.ChatAgent.Call` | openai_utilities/chat.py:136-139 | with no message the outcome is `Respond` of the old thread; with a message its chunks are added as unnamed user messages and the outcome is `Respond` of the grown thread, which without cleanups ends with the reply; a failed add ends the call with the thread unchanged |
| `ConnTokens.MessageCost` | openai_connectors/tokenutils.py:57-61 | a message costs 4 plus the count of each field value |
| `ConnTokens.ThreadCost` | openai_connectors/tokenutils.py:64-68 | fails with the empty-`reduce` error exactly on an empty thread; otherwise at least 4 per message |
| `ConnTokens.ThreadCostAppend` | openai_connectors/tokenutils.py:64-68 | the cost of two non-empty threads put together is the sum of their costs |
| `ConnTokens.SplitCount` | openai_connectors/tokenutils.py:78 | `split_count` is at least 2 for oversized content |
| `ConnTokens.SplitCountBounds` | openai_connectors/tokenutils.py:77-78 | `split_count` is the least number of limit-sized parts that holds strictly more than the padded count |
| `ConnTokens.Runs` | openai_connectors/tokenutils.py:83 | the runs of `range(0, len(words), width)` hold one to `width` words each, all but the last exactly `width` |
| `ConnTokens.RunsAt` | openai_connectors/tokenutils.py:83 | run `k` is the slice of words from `k * width` up to `(k + 1) * width` |
| `ConnTokens.RunsCount` | openai_connectors/tokenutils.py:83 | there are enough runs to hold every word, and no more |
| `ConnTokens.RunsFlatten` | openai_connectors/tokenutils.py:83 | the runs hold every word exactly once, in order |
| `ConnTokens.JoinRunsFlatten` | openai_connectors/tokenutils.py:83 | joining the space-joined runs with a space is joining all their words with a space |
| `ConnTokens.SplitWithin` | openai_connectors/tokenutils.py:71-75 | content whose padded count is under the limit comes back as the one chunk, unchanged |
| `ConnTokens.SplitContent` | openai_connectors/tokenutils.py:71-84 | an unknown model fails; otherwise the split with that model's limit |
| `ConnTokens.SplitWithinErrors` | openai_connectors/tokenutils.py:78-83 | oversized content fails on a zero limit, and fails on a zero run width exactly when there are fewer words than `split_count` |
| `ConnTokens.SplitWithinWords` | openai_connectors/tokenutils.py:77-84 | the chunks joined with spaces are the words joined with spaces; chunk `k` is the `k`-th run of `len(words) // split_count` words; there are at least `split_count` chunks |
| `ConnTokens.JoinedRunsKeepWords` | openai_connectors/tokenutils.py:80-83 | no word is lost, duplicated or reordered by cutting into runs |
| `ConnTokens.RunsAtLeast` | openai_connectors/tokenutils.py:81-83 | when `count` runs of `width` words fit in the words, there are at least `count` runs |
| `ConnTokens.JoinedRunsAt` | openai_connectors/tokenutils.py:83 | chunk `k` is the `k`-th run, joined with spaces |
| `Text.NatToString` | openai_connectors/chat_connector.py:74 | `f"{n}"` for the message limit: at least one character, all decimal digits |
| `Text.NatToStringValue` | openai_connectors/chat_connector.py:74 | the digits denote `n`, and there is no leading zero, so it is the decimal notation Python prints |
| `ConnChat.SummaryInstruction` | openai_connectors/chat_connector.py:74 | the instruction text with the message limit written in decimal; `SummaryRequest` places it |
| `ConnChat.SummaryRequest` | openai_connectors/chat_connector.py:74-76 | the summary request is the group followed by exactly one user message holding the instruction |
| `ConnChat.SummaryWith` | openai_connectors/chat_connector.py:74-77 | a failed call fails; otherwise the summary is an assistant message, with no name, holding the reply's content |
| `ConnChat.SummaryMessage` | openai_connectors/chat_connector.py:73-77 | an unknown model fails before any call; otherwise the summary is requested with that model's message limit |
| `ConnChat.Step` | openai_connectors/chat_connector.py:87-95 | one pass of the loop body; `StepUnder`, `StepOver` and `StepGrows` state its cases |
| `ConnChat.Fold` | openai_connectors/chat_connector.py:86-95 | the loop over the messages from a given group, stopping at the first failed summary; `FoldCons`, `FoldUnderBudget`, `FoldOverBudget` and `FoldSucceeds` state it |
| `ConnChat.SummarizeWithin` | openai_connectors/chat_connector.py:82-97 | the group the loop ends with, from an empty group and a zero count; `SummarizedEmpty` and `SummarizedShape` state it |
| `ConnChat.StepUnder` | openai_connectors/chat_connector.py:88-95 | a message that keeps the running count under the budget is appended and its cost added |
| `ConnChat.StepOver` | openai_connectors/chat_connector.py:88-95 | a message that brings the count to the budget replaces the group by its summary followed by the message, adding both costs; a failed summary fails the step |
| `ConnChat.StepGrows` | openai_connectors/chat_connector.py:88-95 | a step never lowers the count, adds at least the message's cost, and ends the group with the message |
| `ConnChat.FoldCons` | openai_connectors/chat_connector.py:86-95 | the loop over a non-empty list is one step followed by the loop over the rest |
| `ConnChat.FoldUnderBudget` | openai_connectors/chat_connector.py:86-95 | a loop that never reaches the budget appends every message and adds up their costs |
| `ConnChat.FoldOverBudget` | openai_connectors/chat_connector.py:84-95 | once the budget is reached, every later step summarizes again, so the loop ends with one summary and the last message |
| `ConnChat.FoldSucceeds` | openai_connectors/chat_connector.py:86-95 | the loop fails only through a failed summary call |
| `ConnChat.SummarizedThread` | openai_connectors/chat_connector.py:81-97 | an unknown model fails before the loop; otherwise the loop runs with the budget of the context window minus the message limit |
| `ConnChat.SummarizedEmpty` | openai_connectors/chat_connector.py:81-97 | an empty list of messages summarizes to an empty list |
| `ConnChat.SummarizedShape` | openai_connectors/chat_connector.py:81-97 | a thread under the budget comes back unchanged; otherwise the result is one assistant summary followed by the last input message |
| `ConnChat.ResetThread` | openai_connectors/chat_connector.py:50-56 | the instruction as a system message when there is one, followed by the external thread when there is one |
| `ConnChat.Compacted` | openai_connectors/chat_connector.py:109-113 | the thread `run_thread` sends: the cost first, then the model's limits, then the thread unchanged or the summarized thread behind the instruction; `CompactedShape` states it |
| `ConnChat.CompactedShape` | openai_connectors/chat_connector.py:109-113 | the thread sent is unchanged under budget; otherwise it is the instruction, one summary and the latest message |
| `ConnChat.ChatSession.constructor` | openai_connectors/chat_connector.py:33-45 | the session keeps its settings and starts with the thread `reset_window()` makes |
| `ConnChat.ChatSession.ResetWindow` | openai_connectors/chat_connector.py:50-56 | the thread becomes the instruction message, if any, followed by the external thread, if any |
| `ConnChat.ChatSession.CreateSummaryMessage` | openai_connectors/chat_connector.py:73-77 | the limit is looked up, failing on an unknown model, and the summary is then requested with it |
| `ConnChat.ChatSession.CreateSummarizedThread` | openai_connectors/chat_connector.py:81-84 | the limits are looked up before the loop, and the result is the summarized thread its specification gives, error cases included |
| `ConnChat.ChatSession.SummarizeLoop` | openai_connectors/chat_connector.py:82-97 | the grouping loop computes the group the step-by-step specification gives, stopping at the first failed summary |
| `ConnChat.ChatSession.AddToThread` | openai_connectors/chat_connector.py:100-102 | the old thread stays as a prefix, followed by one user message per word-split chunk, with the shared name; on error the thread is unchanged |
| `ConnChat.ChatSession.RunThread` | openai_connectors/chat_connector.py:107-118 | the thread is compacted when over budget, sent, and the reply appended as one message whose content is returned |
| `Retry.RandomDraw` | retryutils.py:19 | `randint(min_wait, max_wait)` lies in `[min_wait, max_wait]` |
| `Retry.Delay` | retryutils.py:19 | a random delay lies in `[min_wait, max_wait]` and always exists when `0 <= min_wait <= max_wait`; a function delay is `wait_time_func(err)` and exists exactly when it is not negative |
| `Retry.DelayCoversRange` | retryutils.py:19 | every whole number of seconds in the range is chosen by some random source |
| `Retry.Attempts` | retryutils.py:12-26 | the run from attempt `k` on; it never reports fewer calls than `k`, and `AttemptsCalls`, `AttemptsDelays` and `AttemptsDelayAt` state the rest |
| `Retry.AttemptsCalls` | retryutils.py:12-26 | calls are made in order and at most `retry_count` of them; every call before the last raised a listed error; the last call decides the result: a return, an unlisted error, a wait that raises, or `retry_count` listed errors |
| `Retry.AttemptsDelays` | retryutils.py:14-23 | a sleep follows every call but the last, and the last too when the retries ran out |
| `Retry.AttemptsDelayAt` | retryutils.py:17-23 | the `i`-th sleep follows a listed error of call `i` and lasts the delay the policy chose for it |
| `Retry.AttemptsAfterWait` | retryutils.py:17-23 | after a listed error and a successful wait, the run continues with the next attempt |
| `Retry.NoAttempts` | retryutils.py:13-14 | with `retry_count <= 0` the function is never called and the maximum-retry error follows |
| `Retry.FirstReturnWins` | retryutils.py:14-16 | the first call that returns decides the result, and no call follows it |
| `Retry.UnlistedPropagates` | retryutils.py:24-25 | an error not in `errors` ends the run at the call that raised it, with no retry |
| `Retry.Exhausted` | retryutils.py:13-26 | `retry_count` listed errors in a row end in the maximum-retry error, after exactly `retry_count` calls and as many sleeps |
| `Retry.RandomDelaysInRange` | retryutils.py:19 | every delay slept lies in `[min_wait, max_wait]` |
| `Retry.RetryAfterRandomWait` | retryutils.py:5-28 | the decorator's loop computes the run its specification gives: result, number of calls and delays |
| `Retry.RetryAfterFuncWait` | retryutils.py:30-46 | the same attempt contract, with `max_retries` as the bound and the delay taken from `wait_time_func(err)` |

## Left out

- Network I/O. The openai client, `chat.completions.create` and
  `resp.choices[0].message` are replaced by the `Completion` parameter.
  `temperature`, `seed`, `response_format`, `json_mode`, `schema` and the
  API key, organization and base URL only configure that call.
- The retry decorator on `get_chat_completion` in
  openai_connectors/chat_connector.py:59. The `Completion` parameter stands
  for the call with its retries, so the decorator is modelled on its own in
  `Retry` and is not composed with the session.
- Tokenizer internals. `tiktoken`, `AutoTokenizer` and the choice between
  them in `count_tokens` are foreign libraries; only `count` and `truncate`
  and the two facts of `Sound` remain.
- openai_utilities/embeddings.py, which is network I/O plus floating-point
  similarity.
- `Retry.Delay`: `wait_time_func` (retryutils.py:40-41) is modelled as a
  total function to whole numbers. A fractional delay, which `time.sleep`
  accepts, cannot be expressed, and neither can an exception raised by
  `wait_time_func` itself; only a negative delay makes the wait fail.
- `time.sleep` and `random.randint`. The random source is a parameter
  `pick`, and a sleep is recorded as the delay it would last.
- Logging through `ic` and `print`.
- The text of the "maximum retry of N reached" message. `MaxRetryReached`
  carries N instead.
- A message dictionary with no fields. It makes `reduce` fail in
  `count_tokens_for_message`, but `Message` always has a role and a content,
  so it cannot be represented. Role strings other than system, user and
  assistant are left out too.
- Aliasing. The Python methods return the `thread` list itself, and
  `append` mutates it in place. The model treats threads as values, so a
  caller's earlier reference does not see later appends.
- Reassignment of agent settings. The model name and cleanups of
  `ChatAgent`, and the model name and instruction of `OpenAIChatSession`,
  can be reassigned by callers. No modelled operation changes them, so they
  are constant fields.
- A `str.split` call with an empty delimiter, which raises `ValueError`.
  The splitter requires non-empty delimiters (`Separators`), which the
  default list satisfies.
- The commented-out summarizer in openai_utilities/chat.py:62-90, which is
  dead code. The model-name enums are left out as well.
- `UtilChat.SlideOverBudget`: the bound on the dropped cost is stated for a
  positive message limit only. With a limit of 0 and a leading system
  message nothing is dropped, and the bound degenerates; every table entry
  is positive.
- `Retry.FirstReturnWins`: requires every wait to succeed (`WaitsValid`); a
  wait that raises is covered by the `BadWait` case of `Retry.AttemptsCalls`.
- `Retry.UnlistedPropagates`: requires every wait to succeed, as above.
- `Retry.Exhausted`: requires every wait to succeed, as above.
- `UtilTokens.SplitContentWithinLimit`: holds only under the two tokenizer
  facts of `Sound`, which the real tokenizers do not guarantee (see above).
- `UtilTokens.SplitContentFits`: the "unchanged" holds only under the second
  fact of `Sound`; with `thenlper/gte-large` a text that fits comes back
  re-spaced.
- `UtilTokens.TruncateWithinLimit`: states the two facts of `Sound`, not
  what the tokenizers do.
- `UtilChat.ChunksWithinLimit`: holds only under `Sound`, as above.
