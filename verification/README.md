# MCBot back end: streaming, chat history, case review and embedding clients

This is a Dafny model of the sequential core of the MCBot chat back end, a
FastAPI service written in Python. It models:

- **LLM streaming clients.** These are in tools/openai_chat.py,
  utils/openai_chat.py and DB_LG/tools/openai_chat.py.
  - Model names are resolved through the environment.
  - Reasoning mode is gated on `GLOBAL_R1`.
  - A system message is inserted in place at the head of the caller's
    message list.
  - The reasoning-mode "think flag" state machine (states 0/1/2/3) wraps
    reasoning text in `<think>` … `</think>`.
  - One terminal `Done` frame ends the stream.
  - The deprecated `data:`/`[DONE]` line buffer is modelled.
  - The line-to-frame reassembly of `event:`/`data:` lines is modelled.
  - The simpler accumulator skips the first chunk.
- **Chat-history caches with write-through persistence.** These are in
  services/chat_service.py and services/chat_manage.py.
  - The module-level map and the database table are the fields of a class.
  - The class's methods update those fields in place.
  - Each method is proved against a function over the old state.
- **Case-review service** (services/lg_service.py). This covers:
  - the PostgreSQL `POSITION`/`SUBSTRING`/`GREATEST`/`TRIM` split of a stored
    response into `think` and `ai_comment`;
  - the mapping of every lookup failure, the 404 included, to status 500;
  - the prompt and input construction of `chat_with_llm` and
    `generate_reply`;
  - their error mapping to status 5000.
- **Embedding clients.** These are the three copies of `get_embedding`. They
  are one counter-driven retry loop, parameterised by which response each
  copy accepts. Also modelled are the row-to-record mapping, the input guard
  and the fail-soft behaviour of the searches.
- **`filter_optional_params` and `is_cache_model`** of the model-provider
  base class.

**How the outside world is modelled.** The network, the database, the LLM,
JSON and title generation are oracles. Each one is a parameter of the
operation that uses it:

| outside dependency | modelled as |
|---|---|
| provider stream | a finite chunk list, plus an optional fault raised after it |
| embedding service | one response per attempt number |
| database calls | a success flag, or the rows a query returns |
| decoding | a function returning the decoded value or the exception it raises |

Python strings are `seq<char>`. `str.find`, `str.strip`, slicing with
negative bounds and `startswith` are written out in module `Common`.

One module per source file:

| file | module | source |
|---|---|---|
| common.dfy | `Common` | shared values and Python string operations |
| openai_chat.dfy | `OpenAiChat` | tools/openai_chat.py |
| sse_reassembly.dfy | `SseReassembly` | DB_LG/tools/openai_chat.py |
| chunk_accumulator.dfy | `ChunkAccumulator` | utils/openai_chat.py |
| chat_service.dfy | `ChatService` | services/chat_service.py |
| chat_manage.dfy | `ChatManage` | services/chat_manage.py |
| lg_service.dfy | `LgService` | services/lg_service.py |
| embedding.dfy | `Embedding` | the three embedding_service.py files |
| model_provider.dfy | `ModelProvider` | setting/models_provider/base_model_provider.py |

**Two behaviours of the code worth knowing before reading the model:**

- `get_chat_response_stream_langchain` always inserts a system message at
  the head of the list, even when the list already starts with one. Its
  content is the given prompt, even an empty one, unless the prompt is
  empty and the list does not start with a system message.
- On a cache miss, `add_message_to_chat` of services/chat_service.py does
  not load the stored history. It starts from an empty list and then
  overwrites the stored history with it.
  `ChatService.UncachedAppendOverwrites` states this.

## Model

| member | source | states |
|---|---|---|
| Common.Find | services/chat_service.py:134-135 | `str.find` returns the first index at or after `start` where the text occurs, or -1 when it occurs nowhere there |
| Common.SliceBound | services/chat_service.py:136 | a bound in `[0, n]` is kept; a negative bound counts from the end, and is clamped to 0 below `-n`; a bound past `n` is clamped to `n` |
| Common.PySlice | services/chat_service.py:136 | in-range bounds give the plain subsequence; a negative end counts from the end; a start at or past the end, an end at or before `-n`, or an end not after the start give `''`; an end past the length runs to the end |
| Common.SliceToNotFound | services/chat_service.py:134-136 | slicing to a `find` that reported -1 drops the last character |
| Common.PyStripSpec | DB_LG/tools/openai_chat.py:41-43 | `str.strip()` returns a middle part of its argument with no whitespace at either end, and everything it removed is whitespace |
| Common.StripStripped | DB_LG/tools/openai_chat.py:41-43 | stripping an already stripped string returns it unchanged |
| Common.ConcatStripped | DB_LG/tools/openai_chat.py:46-47 | concatenating two stripped strings gives a stripped string |
| OpenAiChat.ResolveModelName | tools/openai_chat.py:207 | the environment value named by the model name replaces it when that value is non-empty; otherwise the name is used unchanged |
| OpenAiChat.ReasoningEnabled | tools/openai_chat.py:209-210 | reasoning is off unless `GLOBAL_R1` is exactly "True"; then it is the caller's flag |
| OpenAiChat.WithSystemMessage | tools/openai_chat.py:235-247 | fails (IndexError) exactly when the prompt and the list are both empty; otherwise one system message is put at index 0 and all original messages follow unchanged; its content is the prompt when one is given, the generic default when the list does not start with a system message, and "" otherwise (same rule at 35-46 and 165-176) |
| OpenAiChat.WithDefaultSystemMessage | tools/openai_chat.py:113-118 | the asyoai rule: the default system message is prepended only for an empty prompt with a non-system first message; otherwise the list is unchanged; an empty prompt with an empty list fails |
| OpenAiChat.InsertionRulesCompared | tools/openai_chat.py:113-118 | the asyoai rule and the insert-always rule agree exactly when the default is inserted |
| OpenAiChat.InsertSystemMessage | tools/openai_chat.py:235-247 | the caller's list object is mutated in place into WithSystemMessage of its old contents; on the IndexError path it is left unchanged |
| OpenAiChat.InsertDefaultSystemMessage | tools/openai_chat.py:113-118 | the in-place version of the asyoai rule |
| OpenAiChat.RunStepsConcat | tools/openai_chat.py:261-290 | running a chunk machine such as the think-flag machine over `a + b` is running it over `a`, then over `b` from the state reached |
| OpenAiChat.ThinkUpdate | tools/openai_chat.py:272-288 | the four consecutive flag tests of the source, in their order, make exactly the transition of the state-machine table ThinkStep |
| OpenAiChat.ThinkStep | tools/openai_chat.py:272-288 | no contract; stated by ThinkUpdate, StepKeepsOrder, RunKeepsOrder, RunFromIdle, ThinkRunHasNoDone, OpenedOverReasoning, ThinkingIntoAnswers and ThinkingEmptyChunkPrintsNone |
| OpenAiChat.Normalise | tools/openai_chat.py:261-312 | the chunk loop that updates `flag`, `full` and `r1_think_flag` yields exactly Emit: think-machine events or one content frame per chunk, then Done, or the error |
| OpenAiChat.StreamLangchain | tools/openai_chat.py:200-312 | the request uses the resolved model name and the gated reasoning flag, and carries the list after in-place insertion; the frames are Emit of the upstream; with the insertion failing nothing is sent |
| OpenAiChat.Emit | tools/openai_chat.py:261-312 | no contract; stated by StreamLangchain, PlainModeFrames, EmptyStreamFails, ExactlyOneDone and ReasoningModeOrder |
| OpenAiChat.HttpxStep | tools/openai_chat.py:69-95 | no contract; stated by HttpxLoop, HttpxFramesNonEmpty, HttpxDoneIsFinal and HttpxIncompleteKept |
| OpenAiChat.PlainModeFrames | tools/openai_chat.py:289-290 | non-reasoning mode yields exactly one `event:update\ndata:<content>\n\n` frame per chunk, in order, empty content included, followed by Done |
| OpenAiChat.DoneRepeatsFirstChunk | tools/openai_chat.py:268-270 | the Done content is the first chunk's content twice, followed by every later content |
| OpenAiChat.EmptyStreamFails | tools/openai_chat.py:297-312 | an empty stream yields nothing and fails because `full` is unbound |
| OpenAiChat.ExactlyOneDone | tools/openai_chat.py:297-312 | a stream that does not fail ends with exactly one Done frame, the last; a failed stream has none |
| OpenAiChat.ReasoningModeOrder | tools/openai_chat.py:272-288 | in reasoning mode `<think>` is the first frame and never recurs, `</think>` only follows reasoning text, and answer text only follows `</think>` or more answer text |
| OpenAiChat.RunFromIdle | tools/openai_chat.py:273-275 | the first chunk emits `<think>` and the machine continues as in state 1 |
| OpenAiChat.ContentBeforeReasoningDropped | tools/openai_chat.py:273-288 | after `<think>`, chunks without reasoning emit nothing while no reasoning has arrived |
| OpenAiChat.OpenedOverReasoning | tools/openai_chat.py:278-285 | after `<think>`, reasoning-only chunks emit their fragments in order and the flag stays at 2 |
| OpenAiChat.ThinkingIntoAnswers | tools/openai_chat.py:278-290 | in the reasoning state, answer chunks led by non-empty content emit `</think>` and then every content in order, and the flag ends at 3 |
| OpenAiChat.PhasedReasoningEvents | tools/openai_chat.py:272-288 | reasoning chunks, then answer chunks that start with non-empty content, yield `<think>`, each reasoning fragment, `</think>`, then every answer content in order |
| OpenAiChat.ThinkingEmptyChunkPrintsNone | tools/openai_chat.py:283-285 | in the thinking state a chunk with neither content nor reasoning emits the literal data `None` |
| OpenAiChat.HttpxLine | tools/openai_chat.py:69-95 | a line that stops the loop (`[DONE]`) leaves an empty buffer and yields nothing |
| OpenAiChat.HttpxLineUpdate | tools/openai_chat.py:69-95 | the loop body, in the source's order (skip blank, append, strip `data: `, test `[DONE]`, parse), is the step HttpxLine |
| OpenAiChat.RunLinesPrefix | tools/openai_chat.py:68-80 | running one more line extends the frames by that line's data, and once a line stops the loop the run over all lines ends there |
| OpenAiChat.HttpxLoop | tools/openai_chat.py:67-96 | the buffer loop yields one update frame per datum of the left-to-right run, stopping at `[DONE]`, and returns the leftover buffer and whether `[DONE]` ended it |
| OpenAiChat.HttpxFramesNonEmpty | tools/openai_chat.py:86-88 | every frame of the httpx loop carries non-empty content |
| OpenAiChat.HttpxBlankLinesIgnored | tools/openai_chat.py:69-70 | removing blank lines does not change the run |
| OpenAiChat.HttpxDoneIsFinal | tools/openai_chat.py:78-80 | after `[DONE]`, later lines add nothing |
| OpenAiChat.HttpxIncompleteKept | tools/openai_chat.py:90-92 | text that does not parse stays in the buffer and the next line is appended to it |
| OpenAiChat.StreamHttpx | tools/openai_chat.py:23-96 | get_chat_response_stream_httpx inserts the system message in place (IndexError on an empty list without a prompt); a failed request or non-2xx status raises before any frame; otherwise it yields the frames of the buffer loop and raises exactly when reading past the delivered lines fails before `[DONE]` |
| SseReassembly.Reassemble | DB_LG/tools/openai_chat.py:34-58 | the loop over lines, with the source's tests in order, yields exactly the frames of the left fold FeedAll from the unbound start |
| SseReassembly.Feed | DB_LG/tools/openai_chat.py:40-54 | no contract; stated by ReadLine, FeedKeepsReachable, BlankLineIgnored, NamedEventDataFramedAtOnce, DataOnEmptyName, ReleasedByNextName and OtherLineChangesNothing |
| SseReassembly.ReadLine | DB_LG/tools/openai_chat.py:36-54 | the body of the loop for one line, with the source's tests in order, takes exactly the transition Feed |
| SseReassembly.FeedKeepsReachable | DB_LG/tools/openai_chat.py:40-54 | one line keeps names and buffer stripped and every frame well formed; the buffer is empty right after a frame is emitted |
| SseReassembly.FeedAllReachable | DB_LG/tools/openai_chat.py:40-53 | every frame from the start has a non-empty, stripped name and non-empty, stripped data |
| SseReassembly.FeedAllExtends | DB_LG/tools/openai_chat.py:35-55 | frames come out in line order: more lines only add frames at the end |
| SseReassembly.BlankLineIgnored | DB_LG/tools/openai_chat.py:36-37 | a blank line changes nothing |
| SseReassembly.BlankLinesIgnored | DB_LG/tools/openai_chat.py:36-37 | removing all blank lines does not change the result |
| SseReassembly.DataBeforeEventDiscarded | DB_LG/tools/openai_chat.py:52-58 | with no `event:` line, the unbound name raises, is caught, and nothing is ever yielded or kept |
| SseReassembly.NamedEventDataFramedAtOnce | DB_LG/tools/openai_chat.py:40-54 | once a non-empty name is set, each non-empty data line is framed at once and alone under that name; empty data changes nothing |
| SseReassembly.DataOnEmptyName | DB_LG/tools/openai_chat.py:45-53 | with the empty name, a data line extends the buffer and yields nothing |
| SseReassembly.EmptyNameAccumulates | DB_LG/tools/openai_chat.py:45-53 | with the empty name, data lines concatenate in the buffer without separators |
| SseReassembly.ReleasedByNextName | DB_LG/tools/openai_chat.py:40-54 | the accumulated buffer is released as one frame with the next non-empty name |
| SseReassembly.OtherLineChangesNothing | DB_LG/tools/openai_chat.py:35-55 | a line starting with neither `event:` nor `data:` changes neither name nor buffer |
| ChunkAccumulator.GetChatResponseStream | utils/openai_chat.py:9-47 | the messages are sent unchanged; the frames and the error are those of Expected: no Update for the first chunk, one per later chunk, Done with all contents |
| ChunkAccumulator.Expected | utils/openai_chat.py:9-47 | no contract; stated by GetChatResponseStream, CompletedStream, EmptyStreamRaises and FailedStreamHasNoDone |
| ChunkAccumulator.CompletedStream | utils/openai_chat.py:33-47 | the first content is never an Update; every later one is, in order, rendered as `event: Update\ndata: <c>\n\n`; exactly one Done comes last, holding every content once |
| ChunkAccumulator.EmptyStreamRaises | utils/openai_chat.py:33 | an empty stream raises at `next` before any frame |
| ChunkAccumulator.FailedStreamHasNoDone | utils/openai_chat.py:34-47 | a stream that raises yields no Done frame |
| ChatService.ChatHistoryStore.SaveToDb | services/chat_service.py:50-68 | the table becomes the upsert when the write succeeds and is unchanged when it fails; the cache is untouched |
| ChatService.ChatHistoryStore.LoadFromDb | services/chat_service.py:70-85 | returns the stored column, or `[]` for a missing row or a failed read |
| ChatService.ChatHistoryStore.GetChatHistory | services/chat_service.py:87-95 | the new cache and the result are those of GetHistory of the old state |
| ChatService.ChatHistoryStore.AddMessageToChat | services/chat_service.py:97-103 | the new state is AddMessage of the old state |
| ChatService.GetHistory | services/chat_service.py:87-96 | no contract; stated by the method GetChatHistory, CacheHit and CacheMiss |
| ChatService.AddMessage | services/chat_service.py:97-103 | no contract; stated by the method AddMessageToChat, AppendOnly and AddAll |
| ChatService.Turn | services/chat_service.py:105-142 | no contract; stated by the method ChatWithAi, SentIsHistoryPlusUser, UserTurnKeptOnFailure, NullHistoryFails, TurnRecordsBothMessages and AssistantTurnIsDoneContent |
| ChatService.Respond | services/chat_service.py:127-142 | no contract; stated by RespondAppendsContent and TurnRecordsBothMessages |
| ChatService.ChatHistoryStore.ChatWithAi | services/chat_service.py:105-142 | the new state and result are Turn of the old state and the call outcomes |
| ChatService.CacheHit | services/chat_service.py:89-90 | a cached id, even with an empty list, is answered from memory whatever the table holds |
| ChatService.CacheMiss | services/chat_service.py:91-95 | on a miss the stored value is returned, and it is cached exactly when it is a non-empty list |
| ChatService.LoadFailsSoft | services/chat_service.py:79-82 | a missing row or a failed read gives `[]`, never an exception |
| ChatService.SaveIsUpsert | services/chat_service.py:56-62 | after a save the id maps to exactly the list written and every other id is untouched |
| ChatService.AppendOnly | services/chat_service.py:99-101 | exactly one message is appended at the end; earlier entries and other ids are unchanged |
| ChatService.WriteThrough | services/chat_service.py:101-103 | after a successful append the table holds what the cache holds |
| ChatService.FailedSaveDiverges | services/chat_service.py:64-65 | a failed write is swallowed and cache and table diverge |
| ChatService.UncachedAppendOverwrites | services/chat_service.py:99-103 | an append on an uncached id does not load; the stored history becomes the one new message |
| ChatService.ColdReload | services/chat_service.py:87-103 | after a successful append, a read from an empty cache returns the same history |
| ChatService.AppendsInOrder | services/chat_service.py:97-103 | successive appends leave the prior history followed by the messages in order |
| ChatService.SentIsHistoryPlusUser | services/chat_service.py:120-124 | the list sent is the history read followed by the user message (a copy) |
| ChatService.UserTurnKeptOnFailure | services/chat_service.py:127-142 | the user message is recorded before streaming and stays when the stream fails with status 5000 |
| ChatService.NullHistoryFails | services/chat_service.py:120-123 | a NULL stored column fails the turn before anything is appended |
| ChatService.DoneFramePayload | services/chat_service.py:132-136 | the extraction between `data: ` and the next newline recovers a Done frame's payload that has no newline and no surrounding whitespace |
| ChatService.DataField | services/chat_service.py:134-136 | no contract; stated by DoneFramePayload, RespondAppendsContent and TurnRecordsBothMessages |
| ChatService.RespondAppendsContent | services/chat_service.py:132-140 | a stream whose last frame decodes appends one assistant message holding the decoded content and reports no error |
| ChatService.TurnRecordsBothMessages | services/chat_service.py:127-140 | a successful turn leaves the prior history, then the user message, then the assistant message holding the decoded content |
| ChatService.AssistantTurnIsDoneContent | services/chat_service.py:132-140 | with a codec that reads back what it wrote, the turn appends the user message, then the assistant message holding the Done content |
| ChatManage.Create | services/chat_manage.py:23-30 | a failed insert changes nothing |
| ChatManage.Save | services/chat_manage.py:42-51 | a failed upsert changes nothing |
| ChatManage.ChatIds | services/chat_manage.py:111-114 | a failed query gives `[]` |
| ChatManage.NewestFirst | services/chat_manage.py:104-111 | no contract; stated by NewestFirstMembers, NewestFirstDistinct, NewestFirstUnrelated and NewestFirstSameOwner |
| ChatManage.ChatManager.CreateChatId | services/chat_manage.py:16-34 | the generated id is returned whether or not the insert succeeded; the table becomes Create of the old one |
| ChatManage.ChatManager.SaveChatToDb | services/chat_manage.py:36-54 | the table becomes Save of the old one; the map is untouched |
| ChatManage.Load | services/chat_manage.py:56-71 | the three results stay apart: the stored record for a row with a column, `None` for a NULL column, `[]` for a missing row or a failed read |
| ChatManage.ChatManager.LoadChatFromDb | services/chat_manage.py:56-71 | `result[0] if result else []`, and `[]` on a failed read, is exactly Load |
| ChatManage.ChatManager.GetChathisById | services/chat_manage.py:134-136 | passes on the value of load_chat_from_db as it is: record, `None` or `[]` |
| ChatManage.LoadOutcomes | services/chat_manage.py:56-71 | a failed read and a missing row give `[]`, a NULL column gives `None`, a stored column gives its record; only the record is truthy |
| ChatManage.ChatManager.GetChatHistory | services/chat_manage.py:73-96 | the new map and the result are GetHistory of the old state |
| ChatManage.GetHistory | services/chat_manage.py:73-96 | no contract; stated by the method GetChatHistory, ReadCreatesEntry, CachedHistoryReturned, ColdReadOutcomes, ReadIsCached and ColdReload |
| ChatManage.AddMessage | services/chat_manage.py:119-132 | no contract; stated by the method AddMessageToChat, AppendsOneMessage, TitleSetOnce, TitleFromAppendedRecord, TitleFailureNotSaved, WriteThrough and UncachedAppendOverwrites |
| ChatManage.ChatManager.GetChatIdListFromDb | services/chat_manage.py:98-117 | walking the insertion order from the newest row back and keeping the user's ids yields ChatIds: the user's ids newest first, `[]` on failure |
| ChatManage.ChatManager.AddMessageToChat | services/chat_manage.py:119-132 | the new state and the raised error are AddMessage of the old state |
| ChatManage.ReadCreatesEntry | services/chat_manage.py:76-80 | a read creates `{history: [], title: None}` for an unknown id; other entries and the table are untouched |
| ChatManage.CachedHistoryReturned | services/chat_manage.py:83-84 | a non-empty cached history is returned with no change, whatever the table holds |
| ChatManage.ColdReadOutcomes | services/chat_manage.py:86-96 | on an empty entry: a decoded history is cached and returned; a decode error or missing key returns `[]`; no data returns the empty entry; only a non-text value raises |
| ChatManage.ReadIsCached | services/chat_manage.py:83-91 | after a read returns a non-empty history, reading again returns it without any change |
| ChatManage.AppendsOneMessage | services/chat_manage.py:121-126 | an append adds exactly one message at the end of the (possibly new) entry and touches no other entry |
| ChatManage.TitleSetOnce | services/chat_manage.py:128-130 | an existing title never changes; after an append that did not raise the entry has a title |
| ChatManage.TitleFromAppendedRecord | services/chat_manage.py:130 | the title is generated from the record that already holds the new message |
| ChatManage.TitleFailureNotSaved | services/chat_manage.py:130-132 | when title generation raises, the message stays in memory and nothing is saved |
| ChatManage.WriteThrough | services/chat_manage.py:132 | after an append and a successful save the table holds the whole record |
| ChatManage.ColdReload | services/chat_manage.py:86-91 | after such an append, a read from an empty map with a faithful decoder returns the same history |
| ChatManage.UncachedAppendOverwrites | services/chat_manage.py:121-132 | an append on an id not in memory replaces the stored history by the one new message |
| ChatManage.NewestFirstMembers | services/chat_manage.py:104-111 | the listed ids are exactly the inserted ids owned by the user |
| ChatManage.NewestFirstDistinct | services/chat_manage.py:104-111 | the list has no duplicates when the insertion order has none |
| ChatManage.ChatIdsExact | services/chat_manage.py:104-111 | on a valid table the list holds each of the user's chats exactly once |
| ChatManage.CreateListsFirst | services/chat_manage.py:16-34 | a successful create keeps the table valid and puts the new id at the head of its user's list; other users' lists are unchanged; a failed create changes nothing |
| ChatManage.SaveKeepsLists | services/chat_manage.py:42-48 | a save keeps the table valid and changes no user's list |
| LgService.Position | services/lg_service.py:104 | `POSITION` is 0 exactly when the marker does not occur; otherwise it is the 1-based index of the first occurrence |
| LgService.Greatest | services/lg_service.py:108 | `GREATEST` is the larger of its arguments |
| LgService.Substring | services/lg_service.py:105-109 | `SUBSTRING FROM start FOR count` is the existing characters at 1-based positions start … start+count-1, at most count of them, and "" past the end |
| LgService.TrimSpec | services/lg_service.py:105 | `TRIM` removes spaces, and only spaces, from both ends of a middle part of its argument |
| LgService.ThinkNull | services/lg_service.py:103-110 | `think` is NULL exactly when the response is NULL or lacks one of the markers |
| LgService.AiCommentNull | services/lg_service.py:111-118 | `ai_comment` is NULL exactly when the response is NULL or lacks `</think>` |
| LgService.MarkersApart | services/lg_service.py:103-110 | the first `</think>` starts before the first `<think>` or after its end |
| LgService.ThinkBetweenMarkers | services/lg_service.py:103-110 | with `</think>` after `<think>`, `think` is the trimmed text between the first of each |
| LgService.ThinkEmptyWhenCloseFirst | services/lg_service.py:108 | with `</think>` first, the clamp makes `think` "" rather than NULL |
| LgService.AiCommentAfterMarker | services/lg_service.py:111-118 | `ai_comment` is the trimmed text starting right after the first `</think>`, and before trimming it is at most as long as that marker's 1-based position |
| LgService.AiCommentTruncated | services/lg_service.py:116 | the length cap truncates: for `</think>abcdefghij` the comment is `a` |
| LgService.GetCaseInfoFromDb | services/lg_service.py:91-159 | the lookup returns CaseLookup: the case built from the row, or 500 |
| LgService.CaseLookupOutcomes | services/lg_service.py:138-156 | the lookup fails exactly when it cannot connect, finds no row or a required field is NULL; the failure is always 500; a found case carries `think` and `ai_comment` cut from its response |
| LgService.MissingCaseIs500 | services/lg_service.py:152-156 | the 404 for a missing case is caught and re-raised as 500 |
| LgService.FinalInput | services/lg_service.py:49-52 | the forwarded text is the input followed by ` [RAG]` when `if_kb` is set, and exactly the input otherwise |
| LgService.ChatWithLlm | services/lg_service.py:19-65 | the messages built by one append, the prompt and the streamed frames are those of CaseChat |
| LgService.Think | services/lg_service.py:103-110 | no contract; stated by ThinkNull, ThinkBetweenMarkers, ThinkSpan and ThinkEmptyWhenCloseFirst |
| LgService.AiComment | services/lg_service.py:111-118 | no contract; stated by AiCommentNull, AiCommentAfterMarker, AiCommentSpan and AiCommentTruncated |
| LgService.CaseLookup | services/lg_service.py:91-159 | no contract; stated by GetCaseInfoFromDb, CaseLookupOutcomes and MissingCaseIs500 |
| LgService.CasePrompt | services/lg_service.py:36-45 | no contract; stated by CaseChatPrompt and CasePromptDistinct |
| LgService.ChatPrompt | services/lg_service.py:36-45 | no contract; stated by CaseChatPrompt and CaseChatStatus |
| LgService.ChatStatus | services/lg_service.py:61-65 | no contract; stated by CaseChatStatus |
| LgService.CaseChat | services/lg_service.py:19-65 | no contract; stated by ChatWithLlm, CaseChatSendsOneTurn, CaseChatPrompt and CaseChatStatus |
| LgService.CaseChatSendsOneTurn | services/lg_service.py:55-58 | exactly one user message follows the system message, with no history; the fixed model is requested with reasoning on, whatever `if_r1` the request carries |
| LgService.CaseChatPrompt | services/lg_service.py:36-45 | without a case id the prompt is the fixed text; with one it is built from the case found |
| LgService.CasePromptDistinct | services/lg_service.py:43-45 | a case prompt never equals the fixed prompt |
| LgService.CaseChatStatus | services/lg_service.py:61-65 | a failed case lookup becomes 5000; a JSON decode error ends the stream quietly; every other error becomes 5000 |
| LgService.GenerateReply | services/lg_service.py:171-190 | the messages, the prompt and the streamed frames are those of Reply |
| LgService.Reply | services/lg_service.py:171-190 | no contract; stated by GenerateReply and ReplyIsPlain |
| LgService.ReplyIsPlain | services/lg_service.py:180-190 | generate_reply sends the knowledge prompt and one user message in plain mode; every error, a decode error included, becomes 5000 |
| Embedding.GetEmbedding | tools/embedding_service.py:39-67 | the counter-driven loop returns exactly Retry: attempts, pauses and outcome |
| Embedding.RetrySpec | tools/embedding_service.py:39-67 | at most `max_retries` requests, one pause fewer than requests; the value comes from the first accepted response; it raises exactly after `max_retries` rejections; with `max_retries <= 0` nothing is sent and None is returned |
| Embedding.Retry | tools/embedding_service.py:39-67 | no contract; stated by RetrySpec, the method GetEmbedding, WholeBodyFirstReply and FieldReturned |
| Embedding.RetryFromSpec | tools/embedding_service.py:56-64 | from attempt k on, the loop ends after the first accepted attempt or at the limit |
| Embedding.ToolsGetEmbedding | tools/embedding_service.py:45-52 | the copy returns the `sentence` field of the first 200 response whose body has it |
| Embedding.UtilsGetEmbedding | utils/embedding_service.py:39-67 | the copy returns the `embedding` field of the first 200 response whose body has it |
| Embedding.LgGetEmbedding | DB_LG/tools/embedding_service.py:38-61 | the copy returns the whole parsed body, whatever JSON value it is, of the first 200 response whose body parses |
| Embedding.AcceptanceCompared | DB_LG/tools/embedding_service.py:44-46 | a field copy accepts exactly the 200 responses whose body has its field; the whole-body copy accepts every 200 whose body parses (object, list or null) and returns that body; no copy accepts another status |
| Embedding.WholeBodyFirstReply | DB_LG/tools/embedding_service.py:44-46 | a first reply that is a 200 with a parsed body, such as the vector itself, is returned after one attempt and no pause |
| Embedding.FieldReturned | tools/embedding_service.py:49-50 | a field copy returns the field's value from the accepted 200 response, not the body |
| Embedding.MapRows | utils/embedding_service.py:88-98 | each row becomes, in order, a record naming its columns in column order; a row that is too short raises |
| Embedding.Limit | tools/embedding_service.py:80-84 | `LIMIT n` keeps the first n rows; a negative limit is an error |
| Embedding.SearchSimilarNames | utils/embedding_service.py:88-98 | every record of a search names its columns exactly by the given names, in order |
| Embedding.ToolsSearchSimilar | tools/embedding_service.py:69-101 | each record has the five columns `law_id`, `law_name`, `chapter`, `article_content`, `similarity`, and there are at most `top_k` records |
| Embedding.UtilsSearchSimilar | utils/embedding_service.py:69-105 | each record has the nine columns, the two referenced articles included, and there are at most `top_k` records |
| Embedding.SearchSimilarSpec | tools/embedding_service.py:69-98 | search_similar gives at most `top_k` records, naming each row's columns in order; any failure gives `[]` (also utils/embedding_service.py:69-102) |
| Embedding.SearchSimilar | tools/embedding_service.py:69-101 | no contract; stated by SearchSimilarSpec and SearchSimilarNames |
| Embedding.SearchKbSpec | tools/embedding_service.py:113-138 | an empty or non-list embedding gives `[]` with no database access; a failure or no rows gives `[]`; otherwise each row becomes `{title, content, similarity}` in order (also DB_LG/tools/embedding_service.py:74-99) |
| Embedding.SearchKb | tools/embedding_service.py:103-138 | no contract; stated by SearchKbSpec |
| ModelProvider.Assign | setting/models_provider/base_model_provider.py:19 | assigning a new key appends an entry; assigning a present key keeps the length and the key set |
| ModelProvider.IsCacheModel | setting/models_provider/base_model_provider.py:10-12 | always true |
| ModelProvider.FilterOptionalParams | setting/models_provider/base_model_provider.py:14-20 | the loop fills a new dict equal to Optional of the input: the entries with keys other than `model_id`, `use_local` and `streaming`, in order; the input is a value and is not changed |
| ModelProvider.Optional | setting/models_provider/base_model_provider.py:14-20 | no contract; stated by FilterOptionalParams, OptionalConcat, OptionalKeys, OptionalEntries and OptionalIdempotent |
| ModelProvider.OptionalKeys | setting/models_provider/base_model_provider.py:17-19 | the result's keys are exactly the input's keys minus the three reserved ones |
| ModelProvider.OptionalEntries | setting/models_provider/base_model_provider.py:17-19 | every kept entry is an input entry with its value |
| ModelProvider.OptionalConcat | setting/models_provider/base_model_provider.py:17-19 | filtering a concatenation filters each part |
| ModelProvider.OptionalIdempotent | setting/models_provider/base_model_provider.py:15-20 | filtering twice gives the same result as filtering once |

## Left out

- **Outside calls.** The network, the LLM SDKs (LangChain, AsyncOpenAI), httpx and aiohttp sessions, the database driver and SQL execution are outside calls. They are replaced by the oracle parameters described above. Connection pooling of database/connection.py is not part of this model. In particular, the `"lg"` pool does not exist there (database/connection.py:42-43), so `get_db_connection(db_type="lg")` raises a ValueError. The model keeps the lookup's "cannot connect" outcome as a parameter rather than fixing it to failure.
- **Identifiers, time and pauses.** `uuid.uuid4` becomes a given generated id. Clocks, latency strings and the one-second `asyncio.sleep` are not modelled; pauses are counted instead.
- **Logging.** Logging and `print` are left out.
- **Floats.** `float(row[k])` in the searches is not modelled: similarity cells are passed through unchanged. Its conversion failure, which would give `[]`, is not modelled. Formatting the vector as `"[...]"` text is also left out.
- **JSON.** JSON encoding and decoding are abstract: a Done-payload encoder, `Parsed`/`Parse` results of decoding, and response bodies as any parsed JSON value. The field copies read a field through a lookup oracle that finds nothing in a body that is not an object. This covers Python's `in` on a list or string body, where the subscript then raises.
- **Concurrency.** The async generator plumbing is reduced to a single sequential trace per request. Concurrent, unlocked appends to the same chat are not modelled.
- **Title generation.** `generate_title` (services/chat_utils.py) is an oracle that gives a title or raises.
- **asyoai streaming loop.** The streaming loop of `get_chat_response_stream_asyoai` (tools/openai_chat.py:130-138) is left out; only its insertion rule is modelled. The same holds for the non-streaming call of `get_chat_response`: only its insertion rule (165-176) is modelled.
- **Call-site mismatches.** These are not reconciled; each function is modelled by its own text.
  - services/chat_service.py:130 passes `system_prompt` to a function without that parameter, which would raise a TypeError. The model treats the stream of that call as an oracle.
  - routers/api_router.py passes a string to `chat_with_ai`.
- **Unused CaseInfoResponse fields.** `transcription`, `score`, `fit`, `callee` and `calltime` are not read by the prompt and are not modelled. The validation of `score` and `fit` (typed `Any`) cannot fail.
- **`if_kb`.** It is a boolean in the model. Pydantic's `Optional[bool]` `None` reads as false, as it does in the source.
- **`generate_reply` inputs.** The knowledge content is given as its printed text; Python's `str()` of a list of dicts is not modelled. `user_input` of `generate_reply` is taken to be a string.
- **Functions outside this model.** `get_case_ids_from_db` and `get_kb_from_db` of services/lg_service.py are not part of this model: they are thin query and composition code outside the core.
- **Chat listing ties.** The order of the listing is the insertion order, newest first. Ties in `created_at` are not modelled.
- **Unbounded integers.** Integers are unbounded; no source arithmetic here wraps.
- **ChatManage.Create, ChatManage.Save, ChatManage.ChatIds.** Their own contracts state only the failure path. The success path is stated by CreateListsFirst, SaveKeepsLists and ChatIdsExact.
- **OpenAiChat.HttpxLine.** Its contract states only the `[DONE]` case; the rest is stated by HttpxLineUpdate and the HttpxRun lemmas.
