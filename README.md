# GarryTheBot chat-history store, in Dafny

GarryTheBot is a Telegram voice bot. It transcribes a voice note, asks a chat-completion model for a reply using the conversation so far, and sends the reply back as text and then as synthesized speech. This project models the part of `bot.py` that has state:

- the two-tier chat history. One tier is the module-level `chat_histories` dictionary (the cache). The other is the MongoDB `chats` collection (the durable tier), which is used only as a keyed store of `messages` arrays.
- the three operations that keep the tiers in step: `update_chat_history`, `get_chat_history` and the history part of `/reset`.
- the order in which the voice handler changes the history.

The model has three modules:

- `HistorySpec` (history_spec.dfy) describes the store as values. `Tiers` is the pair of maps from chat id to message log. `Append`, `Get` and `Reset` are the three operations as functions. `Run` applies any sequence of store calls. The lemmas prove the invariant the tiers keep and what a reader sees.
- `HistoryStore` (history_store.dfy) has the class `ChatStore`. Its fields `cache` and `durable` are updated in place. Each method's postcondition says the new state equals the matching `HistorySpec` function of the old state.
- `Bot` (bot.dfy) models the voice handler. Its remote and transport stages are parameters (`Stages`): whether transcription succeeded, whether completion succeeded, and whether sending, speaking and cleanup succeeded. `VoiceTurn` gives, for those outcomes:
  - the resulting history;
  - the history passed to the completion service;
  - the replies the bot sends.

  `HandleVoice` runs the same steps against a `ChatStore`.

Two behaviours of the code decide what a reader sees after a restart. Both are modelled as written:

- On a cache miss, `update_chat_history` does not load the durable record. It starts a fresh in-memory list holding only the new message (bot.py:35-37).
- The voice handler appends the user turn before it reads the history (bot.py:98-99).

So after a process restart, the cache holds only a tail of the durable record, and the completion service sees only the utterance just heard (`ColdStartAppendThenGet`, `ColdStartContext`). The invariant the tiers really keep is `Consistent`. Every cached chat has a durable record, and its cached log is a suffix of the durable log. It is not "the cache equals the durable record".

Four more facts about the code, which the model follows:

- **The store is not write-through.** The code appends in memory (bot.py:37) before the Mongo write (bot.py:40). Durable writes are modelled as always succeeding, so the order cannot be observed in the model.
- **An empty transcript is stored like any other.** The code appends whatever text the transcription returns, including the empty string. In the model, `Some("")` is appended like any other transcript.
- **A speech failure sends both the text and the failure notice.** The text has already been sent (bot.py:111) when speech synthesis runs. The exception then sends the failure notice as well (bot.py:133-135). `Deliveries` models this.
- **Temporary files are removed only on success.** The code deletes them at the end of the `try` block (bot.py:129-131), so a failure leaves them behind. The model does not track files. It claims nothing about cleanup on failure.

In the voice handler, `get_chat_history` is called only right after an append to the same chat (bot.py:98-99). So it always hits the cache there, and its durable branches (bot.py:53-62) never run in that handler. The history sent to completion is the chat's cached log with the user turn at its end (`VoiceTurn`).

## Model

| member | source | states |
|---|---|---|
| HistorySpec.Append | bot.py:32-44 | On a cache miss the cache entry becomes exactly `[m]`, whatever the durable record held. On a hit `m` is added to the end of the cached log. The durable log gets `m` at its end, and the record is created if it was absent (upsert). No other chat changes in either tier. |
| HistorySpec.Get | bot.py:47-62 | A cache hit returns the cached log and changes nothing. On a miss with a durable record, that record is returned and copied into the cache, and the durable tier stays the same. With neither, an empty record goes into both tiers and `[]` is returned. In every case the returned log is then the chat's cache entry, and other chats are untouched. |
| HistorySpec.Reset | bot.py:143-147 | The chat has no entry in either tier afterwards. Other chats are untouched. Resetting an absent chat changes nothing. |
| HistorySpec.ColdStart | bot.py:28-29 | A new process starts with an empty cache over the surviving collection. The tiers are consistent, and a read of any chat returns its stored log (or `[]`). |
| HistorySpec.AppendKeepsConsistent | bot.py:32-44 | An append keeps the invariant: every cached chat has a durable record whose log ends with the cached log. |
| HistorySpec.GetKeepsConsistent | bot.py:47-62 | A read keeps the same invariant. |
| HistorySpec.ResetKeepsConsistent | bot.py:143-147 | A reset keeps the same invariant. |
| HistorySpec.RunKeepsConsistent | bot.py:32-62 | Any sequence of appends, reads and resets keeps the invariant. Proved by induction over the sequence. |
| HistorySpec.GetReturnsDurableTail | bot.py:47-62 | In a consistent state, a read returns a suffix of the chat's durable log. |
| HistorySpec.DurableOnlyGrows | bot.py:40-44 | Until the chat is reset, its durable log is append-only. The log before any sequence of calls is a prefix of the log after it. |
| HistorySpec.CacheOnlyGrows | bot.py:35-37 | Once a chat is cached, its cache entry stays present and only grows until the chat is reset. |
| HistorySpec.AppendedStaysVisible | bot.py:37 | Within one process, an appended message appears in every later read of its chat until a reset, right after what the cache held before it. |
| HistorySpec.ResetThenGet | bot.py:143-147 | After a reset, a read returns `[]`. A following append leaves exactly `[m]` in both tiers, as for a new chat. |
| HistorySpec.AppendAppendGet | bot.py:35-37 | Two appends and then a read return what the cache held before them followed by the two messages, in order. For a chat that was not cached, after a restart or a reset, that is exactly the two messages, whatever the durable record holds. |
| HistorySpec.RestartThenGet | bot.py:53-57 | After a restart, a read of a chat with a durable record returns that whole record. |
| HistorySpec.ColdStartAppendThenGet | bot.py:35-37 | After a restart, an append followed by a read returns only `[m]`. The durable log still holds everything before `m`. |
| HistoryStore.ChatStore.constructor | bot.py:26-29 | The store starts with an empty cache over the given collection. |
| HistoryStore.ChatStore.UpdateChatHistory | bot.py:32-44 | The new state of both tables is `Append` of the old state. The invariant is preserved. |
| HistoryStore.ChatStore.GetChatHistory | bot.py:47-62 | The returned log and the new state are those of `Get` on the old state. The invariant is preserved. |
| HistoryStore.ChatStore.ResetChatHistory | bot.py:143-147 | The new state is `Reset` of the old state. The invariant is preserved. |
| Bot.Deliveries | bot.py:111-135 | If sending the text fails, the only reply is the failure notice. Otherwise the text comes first. A voice reply is sent exactly when the text and the speech steps succeeded. The replies end with the failure notice exactly when some step after the assistant turn raised. |
| Bot.Deliver | bot.py:111-135 | Sending the text, then the voice, then cleanup, stopping at the first step that raises, yields `Deliveries`. |
| Bot.VoiceTurn | bot.py:71-135 | If transcription fails, nothing changes and the only reply is the failure notice. Otherwise the history sent to completion is exactly the chat's cached log (empty on a cache miss) followed by the user turn just appended. The durable record is never read back. If completion fails, both tiers gain only the user turn and the only reply is the failure notice. On success, both tiers gain exactly the user turn and then the assistant turn, and the replies are `Deliveries`. No other chat changes. |
| Bot.VoiceOps | bot.py:98-110 | The store calls a voice run makes never include a reset of its chat. |
| Bot.VoiceTurnIsRun | bot.py:98-110 | A voice run is the store calls append, read, append, so it keeps the invariant and never shrinks the chat's durable log. |
| Bot.ColdStartContext | bot.py:98-104 | After a restart, the completion service is sent exactly `[user turn]`, whatever the durable record held. |
| Bot.NewChatExchange | bot.py:98-126 | A new chat hears "hello" and the completion returns "hi there". Both tiers then hold exactly those two turns, and the replies are the text then the voice of "hi there". |
| Bot.NewChatCompletionFails | bot.py:98-135 | In the same chat, if completion fails, both tiers hold only the user turn and the only reply is the failure notice. |
| Bot.SpeechFailureKeepsText | bot.py:110-135 | If speech fails after a completion, the text reply has gone out, the assistant turn is stored, and the failure notice follows. |
| Bot.HandleVoice | bot.py:71-135 | Running the handler's steps against the store leaves the state, the context and the replies given by `VoiceTurn`. The invariant is preserved. |
| Bot.HandleReset | bot.py:137-150 | Both tiers are reset for the chat, a following read returns `[]`, the invariant is preserved, and the confirmation text is the reply. |

## Left out

- Telegram transport: `bot.get_file`, the file download, `send_message` and `send_voice`. Whether each succeeded is a parameter of `Stages`. The contents of voice and text payloads are not modelled beyond the reply text.
- The `/start` and `/help` handler (bot.py:64-67) and `bot.polling` (bot.py:154). These are transport with no history effect.
- OGG to MP3 conversion with pydub, and the OpenAI transcription, chat-completion and speech calls. These are foreign and network calls. Their outcomes are the `transcript` and `completion` options and the `voiceSent` flag.
- Transcription is modelled as returning plain text. Completion is modelled as returning the first choice's content. A `None` content from the completion service is not modelled.
- Temporary files and their `os.unlink` cleanup. This is filesystem I/O. Cleanup succeeding or raising is the `cleanedUp` flag. Files left behind on the failure path are not modelled.
- Mongo connection setup, dotenv loading, environment variables and logging (bot.py:11-26). This is bootstrap code.
- Mongo write failures. Durable writes are modelled as always succeeding. In the code, a failed `update_one` after the in-memory append (bot.py:37-40) would leave the cache ahead of the durable tier. The model does not capture that divergence.
- HistoryStore.ChatStore.UpdateChatHistory: does not model a failed durable write, because Mongo writes are modelled as total. `Consistent` therefore holds in the model even though the code could break it.
- Python list aliasing. `get_chat_history` returns the cached list object itself, so the later assistant append also shows in the list that was passed to completion. This happens only after the completion call has returned, so logs are modelled as immutable sequences.
- Concurrency between handlers. Nothing in the code synchronises them. Each handler run is modelled as one atomic sequence of store calls.
- The failure notice sent by the exception handler may itself raise. That case is not modelled.
