# Discord AI bot: conversation memory, token accounting and request assembly

A Dafny model of the sequential core of a Discord bot that answers questions
through OpenAI's chat completion API. Three pieces are modelled:

- **The per-user conversation store** (`ConversationCache`, src/conversation.rs):
  a map from a Discord user id to that user's most recent messages. Adding a
  message creates the user's list on first use, appends the message and drops
  the single oldest message once the list is longer than `max_length` (20 by
  default). Reading returns a copy of the list, or the empty list for a user
  the store has never seen. A poisoned mutex makes both operations fail with
  `MutexPanic` and change nothing. The model is the class
  `Conversation.ConversationCache`: the mutex-guarded map is the field
  `users`, and the mutex's poisoned state is the flag `poisoned`.
- **The token cost of a chat request** (`num_tokens_from_messages`, src/ai.rs),
  after the accounting OpenAI's cookbook gives for `gpt-3.5-turbo-0301`. Each
  message costs 4 framing tokens, plus the tokens of its text and its role
  name, plus the tokens of its author name less one when it has one. The whole
  list costs 2 more. Every other model string costs 0. The method
  `Ai.NumTokensFromMessages` keeps the source's loop and is proved equal to
  the recursive specification `Ai.Cost`. The lemmas about `Cost` cover
  appending, concatenation and the 126-token example of the unit test.
- **The message handler** (src/msg_handler.rs):
  - `extract_legal_content` strips the bot's leading mention `<@id>` and one
    separator byte from a message.
  - `build_conversation` assembles the request: the system prompt
    "You are a helpful assistant.", then the author's cached history in stored
    order, then the question.
  - The mentioned branch of the `message` event stores the author's message and
    then the bot's posted reply, in that order.

Some behaviour of the source that the model reproduces:

- The history stores the author's whole Discord message, mention included, not
  the stripped question.
- `extract_legal_content` always skips exactly one byte after the mention, so
  `<@id>hello` yields `ello`.
- Only the per-user list is capped. The map of users grows without bound:
  this revision has no eviction of whole users.

Modelling choices:

- Text is bytes (`Chat.Bytes`, a sequence of `Chat.byte`), as Rust's `len()`
  and slice indices count them.
- String literals of the source are given as `Chat.Utf8` of a Dafny string,
  which is their UTF-8 encoding.
- The `cl100k_base` tokenizer is not modelled. It is a parameter `tok` that
  gives the number of tokens of a byte string.
- Loading the tokenizer can fail. It is passed as an `Option`, and `None`
  stands for that failure.
- The completion service and Discord's send call are parameters of
  `MsgHandler.Handler.OnMention`.

## Model

| member | source | states |
|---|---|---|
| `Conversation.ConversationCache.Default` | src/conversation.rs:22-28 | The default store has no users, a cap of 20 messages per user and an unpoisoned lock. |
| `Conversation.ConversationCache.AddMessage` | src/conversation.rs:46-61 | With an unpoisoned lock: returns `Ok`, and the user's list becomes the last `max_length` elements of the old list (empty for a new user) followed by the new message. Every other user's entry is unchanged, and every list stays within the cap. With a poisoned lock: returns `MutexPanic` and changes nothing. |
| `Conversation.AppendCapped` | src/conversation.rs:53-59 | From a list within the cap, one add keeps the list within the cap. Without overflow, the new list is the old list with the message appended: the old list is a prefix and the length grows by one. On overflow, the new list is `old[1..] + [m]`. With a cap of at least 1, the new message is last, so a new user's list is `[m]`. With a cap of 0, the list stays empty. |
| `Conversation.ConversationCache.GetMessages` | src/conversation.rs:63-66 | With an unpoisoned lock: returns the stored list exactly for a known user and the empty list for an unknown one; it never returns `ChannelNotFound` and changes nothing. With a poisoned lock: returns `MutexPanic`, and only then. |
| `Conversation.ToRequestMessage` | src/conversation.rs:69-76 | Converting a cached message to a request message keeps its role and its text and gives it no author name. |
| `Conversation.AppendTwoCapped` | src/msg_handler.rs:115-119 | Two successive adds equal one capped append of both messages. With a cap of at least 2, the list ends with the first message and then the second. |
| `Ai.MessageCost` | src/ai.rs:13-18 | One message costs at least 4 framing tokens plus the tokens of its text and of its role name. |
| `Ai.SumCosts` | src/ai.rs:12-19 | The summed per-message costs of a list are at least 4 per message. |
| `Ai.Cost` | src/ai.rs:12-20 | A request costs at least 2 + 4 per message. The empty request costs exactly 2. |
| `Ai.NumTokensFromMessages` | src/ai.rs:8-24 | Fails exactly when the tokenizer cannot be loaded. Otherwise it returns 0 for every model string except `gpt-3.5-turbo-0301`, whatever the messages. For that model it returns `Cost`: 2 + Σ (4 + tok(text) + tok(role) + (tok(name) − 1 if named)). |
| `Ai.AppendCost` | src/ai.rs:12-19 | Appending one message raises the cost by exactly that message's cost, and so by at least 4. |
| `Ai.ConcatCost` | src/ai.rs:12-20 | cost(a + b) = cost(a) + cost(b) − 2: the 2 priming tokens are counted once. |
| `Ai.JargonShapeCost` | src/ai.rs:38-46 | Take a conversation shaped like the test's: five system messages, four of them named, then one user message. It costs 126 when the role names take 1 token each, the names 2 and 3 tokens, and the texts 18, 10, 8, 18, 15 and 19. |
| `AiTests.JargonCost` | src/ai.rs:31-47 | The test's six-message corporate-jargon conversation costs 126 for `gpt-3.5-turbo-0301`, under the token counts assumed for its strings. |
| `MsgHandler.Decimal` | src/msg_handler.rs:25 | `u64::to_string()` gives at least one decimal digit, has no leading zero, and contains no `>`. |
| `MsgHandler.DecimalRoundTrip` | src/msg_handler.rs:25 | Reading a user id's decimal digits back gives the id. |
| `MsgHandler.Mention` | src/msg_handler.rs:25 | The mention `<@id>` is at least 4 bytes long, ends in `>` and contains no other `>`. |
| `MsgHandler.Find` | src/msg_handler.rs:29 | `find` returns the index of the first occurrence of the byte, and nothing exactly when the byte does not occur. |
| `MsgHandler.FindMention` | src/msg_handler.rs:26-29 | In a text that starts with the mention, the first `>` is at mention length − 1, where the mention ends. |
| `MsgHandler.ExtractLegalContent` | src/msg_handler.rs:24-35 | Returns a question exactly when the text starts with `<@id>` and has at least 2 more bytes. The question is the suffix from mention length + 1, and it is not empty. The text is then the mention, one separator byte and the question. |
| `MsgHandler.Request` | src/msg_handler.rs:37-62 | A request has history length + 2 messages. The first is the system prompt. Then comes each history message, converted, in stored order. Last is the question as a user message. |
| `MsgHandler.Handler.BuildConversation` | src/msg_handler.rs:37-62 | With an unpoisoned lock, returns `Request` of the user's stored history and the question. With a poisoned lock, returns `MutexPanic`, and only then. |
| `MsgHandler.Handler.RecordExchange` | src/msg_handler.rs:115-119 | With an unpoisoned lock, the author's list becomes the capped append of the author's message as a user turn and then the reply as an assistant turn. With a cap of at least 2, the list ends with those two, in that order. With a poisoned lock, both writes fail and the store is unchanged. All lists stay within the cap. |
| `MsgHandler.Handler.OnMention` | src/msg_handler.rs:95-120 | When the bot posts a reply, the exchange is recorded as in `RecordExchange`. This needs a question in the message, an unpoisoned lock, an answer from the completion service and a successful post. In every other case the store is unchanged. All lists stay within the cap. |

## Left out

- Whole-user LRU eviction, a user limit and trimming a conversation to a token budget: this revision's code has none of them, so the model has none.
- The formula applies only to `gpt-3.5-turbo-0301` here: this revision's code tests the model string. It does not apply the overhead formula to every model.
- The `cl100k_base` byte-pair encoder: it is foreign code with a foreign vocabulary, so it stays an uninterpreted parameter `tok`.
- AiTests.JargonCost: the per-string token counts are assumed, not computed, because the vocabulary is not part of this model. Only their sum, 98 for the texts and names, is forced by the expected total.
- Ai.NumTokensFromMessages: for `gpt-3.5-turbo-0301` only, requires at least one token for every author name, because the source's `usize` subtraction `tok(name) - 1` would underflow on a name of zero tokens. Every other model string is accepted with any messages.
- `usize` overflow of the running token count: the model counts in unbounded naturals.
- Mutex and threadpool concurrency: the store is one sequential object. The lock's poisoning is the flag `poisoned`, and nothing in the model sets it, because the panic that would poison the lock is not modelled.
- `Vec::with_capacity`: the pre-allocated capacity is not observable.
- `MsgHandler.ExtractLegalContent`: Rust panics when the byte after the mention begins a multi-byte UTF-8 character, because the slice then starts inside a character. The model works on bytes and returns the suffix there. On every input where Rust does not panic, the two agree.
- The `message` event's `mentions_me` check, the `Err` and `Ok(false)` branches (logging only), and `ready`: these are Discord gateway I/O. The model covers the branch where the bot is mentioned.
- `get_ai_response`'s HTTP call: it is the parameter `complete`, which covers both a transport error and an empty `choices` list. `send_message` is the parameter `send`. Logging (`try_log!`, `trace!`, `info!`) appears only as the early returns it causes.
- The conversation-context type used by src/ai.rs (`add_system_message`, `add_user_message`) is not part of this model. `Ai.AddMessage` is a minimal stand-in that appends one message.
- src/knowledge_base.rs (Qdrant and embedding calls), src/command_handler.rs (CLI and client wiring), src/main.rs (tracing setup) and src/helper.rs (the logging macro): these are I/O and wiring with no logic of their own in scope.
