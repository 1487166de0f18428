/**
 * The chat-history cache of services/chat_service.py and the turn flow of
 * chat_with_ai.
 *
 * The module-level dict `chat_history_map` maps a chat id to its message
 * list; the table `tobacco.chat_history` holds a `messages` column per chat
 * id, which may be NULL. Reads fill the cache lazily, appends write the whole
 * list through with an upsert. Whether a database call succeeds is an
 * oracle: a failed save is swallowed and a failed load reads as `[]`.
 */
module ChatService {
  import opened Common
  import ChunkAccumulator

  /** What `load_from_db` can return: a list, or `None` for a NULL column. */
  type Loaded = Option<seq<Message>>

  /** The persisted `messages` column of each chat id. */
  type Table = map<string, Loaded>

  /** The in-memory map of chat id to history. */
  type Cache = map<string, seq<Message>>

  /** Python truthiness of a loaded value: a non-empty list. */
  predicate Truthy(h: Loaded) {
    h.Some? && h.value != []
  }

  /** save_to_db: the upsert when the write succeeds; a failure leaves the table as it was. */
  function Save(table: Table, chatId: string, messages: seq<Message>, ok: bool): Table
  {
    if ok then table[chatId := Some(messages)] else table
  }

  /** load_from_db: the stored column, `[]` when no row exists or the read fails. */
  function Load(table: Table, chatId: string, ok: bool): Loaded
  {
    if ok && chatId in table then table[chatId] else Some([])
  }

  datatype State = State(cache: Cache, table: Table)

  /** get_chat_history: the new state and the history returned. */
  function GetHistory(st: State, chatId: string, loadOk: bool): (State, Loaded)
  {
    if chatId in st.cache then (st, Some(st.cache[chatId]))
    else
      var loaded := Load(st.table, chatId, loadOk);
      if Truthy(loaded) then (State(st.cache[chatId := loaded.value], st.table), loaded)
      else (st, loaded)
  }

  /** The history an append extends: the cached one, or `[]` when the id is not cached. */
  function Prior(cache: Cache, chatId: string): seq<Message>
  {
    if chatId in cache then cache[chatId] else []
  }

  /** add_message_to_chat: one message appended to the cached list, which is then saved whole. */
  function AddMessage(st: State, chatId: string, m: Message, saveOk: bool): State
  {
    var h := Prior(st.cache, chatId) + [m];
    State(st.cache[chatId := h], Save(st.table, chatId, h, saveOk))
  }

  /**
   * The module state: the cache and the table, both updated in place by the
   * operations below.
   */
  class ChatHistoryStore {
    var cache: Cache
    var table: Table

    constructor (table: Table)
      ensures cache == map[] && this.table == table
    {
      cache := map[];
      this.table := table;
    }

    function Snapshot(): State
      reads this
    {
      State(cache, table)
    }

    method SaveToDb(chatId: string, messages: seq<Message>, ok: bool)
      modifies this
      ensures table == Save(old(table), chatId, messages, ok)
      ensures cache == old(cache)
    {
      if ok {
        table := table[chatId := Some(messages)];
      }
    }

    method LoadFromDb(chatId: string, ok: bool) returns (r: Loaded)
      ensures r == Load(table, chatId, ok)
    {
      if !ok {
        return Some([]);
      }
      if chatId in table {
        r := table[chatId];
      } else {
        r := Some([]);
      }
    }

    method GetChatHistory(chatId: string, loadOk: bool) returns (h: Loaded)
      modifies this
      ensures (Snapshot(), h) == GetHistory(old(Snapshot()), chatId, loadOk)
    {
      if chatId in cache {
        return Some(cache[chatId]);
      }
      h := LoadFromDb(chatId, loadOk);
      if h.Some? && h.value != [] {
        cache := cache[chatId := h.value];
      }
    }

    method AddMessageToChat(chatId: string, role: string, content: string, saveOk: bool)
      modifies this
      ensures Snapshot() == AddMessage(old(Snapshot()), chatId, Message(role, content), saveOk)
    {
      if chatId !in cache {
        cache := cache[chatId := []];
      }
      cache := cache[chatId := cache[chatId] + [Message(role, content)]];
      SaveToDb(chatId, cache[chatId], saveOk);
    }

    /** chat_with_ai on the store, with the outcomes of its calls given by `env`. */
    method ChatWithAi(chatId: string, userInput: string, env: TurnEnv) returns (r: TurnResult)
      modifies this
      ensures (Snapshot(), r) == Turn(old(Snapshot()), chatId, userInput, env)
    {
      var history := GetChatHistory(chatId, env.loadOk);
      if history.None? {
        return TurnResult(None, [], Some(AiModuleError));
      }
      var messages := history.value + [Message(UserRole, userInput)];
      AddMessageToChat(chatId, UserRole, userInput, env.saveUserOk);
      ghost var recorded := Snapshot();
      assert Turn(old(Snapshot()), chatId, userInput, env) == Respond(recorded, chatId, messages, env);
      var frames := env.reply.frames;
      if env.reply.fails || frames == [] {
        return TurnResult(Some(messages), frames, Some(AiModuleError));
      }
      var fullResponse := frames[|frames| - 1];
      var dataStart := Find(fullResponse, "data: ", 0) + |"data: "|;
      var dataEnd := Find(fullResponse, "\n", dataStart);
      var dataStr := PyStrip(PySlice(fullResponse, dataStart, dataEnd));
      assert dataStr == DataField(fullResponse);
      var content := env.decodeContent(dataStr);
      if content.None? {
        return TurnResult(Some(messages), frames, Some(AiModuleError));
      }
      AddMessageToChat(chatId, AssistantRole, content.value, env.saveAssistantOk);
      r := TurnResult(Some(messages), frames, None);
    }
  }

  // ---------------------------------------------------------------------------
  // The turn of chat_with_ai
  // ---------------------------------------------------------------------------

  /** The frames the stream yields, and whether it raises after them. */
  datatype Reply = Reply(frames: seq<string>, fails: bool)

  /**
   * The outcomes of the calls of one turn: the load, the two saves, the
   * stream, and `json.loads(...)["content"]` (None when decoding or the
   * lookup raises).
   */
  datatype TurnEnv = TurnEnv(loadOk: bool, saveUserOk: bool, saveAssistantOk: bool,
                             reply: Reply, decodeContent: string -> Option<string>)

  /** Every exception of the turn becomes this HTTP error. */
  datatype HttpError = AiModuleError

  function StatusCode(e: HttpError): int {
    5000
  }

  /** The list sent to the model, the frames passed on, and the error raised, if any. */
  datatype TurnResult = TurnResult(sent: Option<seq<Message>>, frames: seq<string>, error: Option<HttpError>)

  /** The text between the first `data: ` and the next newline, stripped. */
  function DataField(frame: string): string
  {
    var dataStart := Find(frame, "data: ", 0) + |"data: "|;
    var dataEnd := Find(frame, "\n", dataStart);
    PyStrip(PySlice(frame, dataStart, dataEnd))
  }

  /** What follows the recorded user message: the stream, the extraction and the assistant append. */
  function Respond(st: State, chatId: string, messages: seq<Message>, env: TurnEnv): (State, TurnResult)
  {
    var frames := env.reply.frames;
    if env.reply.fails || frames == [] then (st, TurnResult(Some(messages), frames, Some(AiModuleError)))
    else
      var content := env.decodeContent(DataField(frames[|frames| - 1]));
      if content.None? then (st, TurnResult(Some(messages), frames, Some(AiModuleError)))
      else (AddMessage(st, chatId, Message(AssistantRole, content.value), env.saveAssistantOk),
            TurnResult(Some(messages), frames, None))
  }

  /** The reference behaviour of one turn. */
  function Turn(st: State, chatId: string, userInput: string, env: TurnEnv): (State, TurnResult)
  {
    var read := GetHistory(st, chatId, env.loadOk);
    if read.1.None? then (read.0, TurnResult(None, [], Some(AiModuleError)))
    else
      var messages := read.1.value + [Message(UserRole, userInput)];
      Respond(AddMessage(read.0, chatId, Message(UserRole, userInput), env.saveUserOk), chatId, messages, env)
  }

  // ---------------------------------------------------------------------------
  // Properties of the cache
  // ---------------------------------------------------------------------------

  /** A cached id is answered from memory, even an empty list; the store is not consulted. */
  lemma CacheHit(st: State, chatId: string, loadOk: bool, other: Table)
    requires chatId in st.cache
    ensures GetHistory(st, chatId, loadOk) == (st, Some(st.cache[chatId]))
    ensures GetHistory(State(st.cache, other), chatId, !loadOk).1 == Some(st.cache[chatId])
  {
  }

  /** On a miss the stored history is returned, and cached exactly when it is a non-empty list. */
  lemma CacheMiss(st: State, chatId: string, loadOk: bool)
    requires chatId !in st.cache
    ensures GetHistory(st, chatId, loadOk).1 == Load(st.table, chatId, loadOk)
    ensures GetHistory(st, chatId, loadOk).0.table == st.table
    ensures Truthy(Load(st.table, chatId, loadOk)) <==> chatId in GetHistory(st, chatId, loadOk).0.cache
    ensures Truthy(Load(st.table, chatId, loadOk)) ==>
              GetHistory(st, chatId, loadOk).0.cache[chatId] == Load(st.table, chatId, loadOk).value
    ensures forall id :: id != chatId ==>
              (id in GetHistory(st, chatId, loadOk).0.cache <==> id in st.cache)
  {
  }

  /** Loading never raises: no row or a failed read both give the empty list. */
  lemma LoadFailsSoft(table: Table, chatId: string, ok: bool)
    ensures !ok ==> Load(table, chatId, ok) == Some([])
    ensures chatId !in table ==> Load(table, chatId, ok) == Some([])
    ensures ok && chatId in table ==> Load(table, chatId, ok) == table[chatId]
  {
  }

  /** The upsert: the id maps to exactly the list written, every other id is untouched. */
  lemma SaveIsUpsert(table: Table, chatId: string, messages: seq<Message>)
    ensures Save(table, chatId, messages, true)[chatId] == Some(messages)
    ensures forall id :: id != chatId ==>
              (id in Save(table, chatId, messages, true) <==> id in table)
              && (id in table ==> Save(table, chatId, messages, true)[id] == table[id])
  {
  }

  /** Appending adds exactly one message at the end and leaves every other id alone. */
  lemma AppendOnly(st: State, chatId: string, m: Message, saveOk: bool)
    ensures var h := AddMessage(st, chatId, m, saveOk).cache[chatId];
            && |h| == |Prior(st.cache, chatId)| + 1
            && h[..|h| - 1] == Prior(st.cache, chatId)
            && h[|h| - 1] == m
    ensures forall id :: id != chatId && id in st.cache ==>
              id in AddMessage(st, chatId, m, saveOk).cache && AddMessage(st, chatId, m, saveOk).cache[id] == st.cache[id]
  {
    var h := Prior(st.cache, chatId) + [m];
    assert h[..|h| - 1] == Prior(st.cache, chatId);
  }

  /** A successful append leaves the table holding what the cache holds. */
  lemma WriteThrough(st: State, chatId: string, m: Message)
    ensures var s := AddMessage(st, chatId, m, true); s.table[chatId] == Some(s.cache[chatId])
  {
  }

  /** A failed write is swallowed: the cache moves on and the table does not. */
  lemma FailedSaveDiverges(st: State, chatId: string, m: Message)
    ensures AddMessage(st, chatId, m, false).table == st.table
    ensures chatId in st.table && st.table[chatId] == Some(Prior(st.cache, chatId)) ==>
              AddMessage(st, chatId, m, false).table[chatId] != Some(AddMessage(st, chatId, m, false).cache[chatId])
  {
    var h := Prior(st.cache, chatId) + [m];
    assert |h| != |Prior(st.cache, chatId)|;
  }

  /**
   * An append on an id that is not cached starts from the empty list and
   * writes it whole, so the stored history is replaced by one message.
   */
  lemma UncachedAppendOverwrites(st: State, chatId: string, m: Message)
    requires chatId !in st.cache
    ensures AddMessage(st, chatId, m, true).table[chatId] == Some([m])
  {
    assert Prior(st.cache, chatId) + [m] == [m];
  }

  /** After a successful append, a cold start (empty cache) reads back the same history. */
  lemma ColdReload(st: State, chatId: string, m: Message)
    ensures var s := AddMessage(st, chatId, m, true);
            GetHistory(State(map[], s.table), chatId, true).1 == Some(s.cache[chatId])
  {
  }

  /**
   * Appends in sequence: the cached history is the prior one followed by the
   * appended messages in order.
   */
  function AddAll(st: State, chatId: string, ms: seq<Message>, saveOk: bool): State
    decreases |ms|
  {
    if ms == [] then st else AddMessage(AddAll(st, chatId, ms[..|ms| - 1], saveOk), chatId, ms[|ms| - 1], saveOk)
  }

  lemma {:induction false} AppendsInOrder(st: State, chatId: string, ms: seq<Message>, saveOk: bool)
    requires ms != []
    ensures AddAll(st, chatId, ms, saveOk).cache[chatId] == Prior(st.cache, chatId) + ms
    decreases |ms|
  {
    var init := ms[..|ms| - 1];
    if init == [] {
      assert ms == [ms[0]];
    } else {
      AppendsInOrder(st, chatId, init, saveOk);
      assert Prior(st.cache, chatId) + init + [ms[|ms| - 1]] == Prior(st.cache, chatId) + ms;
    }
  }

  // ---------------------------------------------------------------------------
  // Properties of the turn
  // ---------------------------------------------------------------------------

  /**
   * The list sent to the model is the history read before the turn followed
   * by the user message; it is a copy, so the append that follows does not
   * reach it.
   */
  lemma SentIsHistoryPlusUser(st: State, chatId: string, userInput: string, env: TurnEnv)
    requires GetHistory(st, chatId, env.loadOk).1.Some?
    ensures Turn(st, chatId, userInput, env).1.sent
            == Some(GetHistory(st, chatId, env.loadOk).1.value + [Message(UserRole, userInput)])
  {
  }

  /** The user message is recorded before streaming, so it stays even when the stream fails. */
  lemma UserTurnKeptOnFailure(st: State, chatId: string, userInput: string, env: TurnEnv)
    requires GetHistory(st, chatId, env.loadOk).1.Some?
    requires env.reply.fails
    ensures var (s, r) := Turn(st, chatId, userInput, env);
            && r.error == Some(AiModuleError) && StatusCode(r.error.value) == 5000
            && s == AddMessage(GetHistory(st, chatId, env.loadOk).0, chatId, Message(UserRole, userInput), env.saveUserOk)
  {
  }

  /** A NULL history column fails the turn (`None.copy()`) before anything is appended. */
  lemma NullHistoryFails(st: State, chatId: string, userInput: string, env: TurnEnv)
    requires chatId !in st.cache && env.loadOk && chatId in st.table && st.table[chatId] == None
    ensures Turn(st, chatId, userInput, env) == (st, TurnResult(None, [], Some(AiModuleError)))
  {
  }

  /** The prefix of a Done frame of utils/openai_chat.py before its JSON payload. */
  const DonePrefix: string := "event: Done\ndata: "

  lemma DataFieldStart(j: string)
    ensures Find(DonePrefix + j + "\n\n", "data: ", 0) == 12
  {
    var s := DonePrefix + j + "\n\n";
    assert s[12..18] == "data: ";
    assert OccursAt(s, "data: ", 12);
    forall k | 0 <= k < 12
      ensures !OccursAt(s, "data: ", k)
    {
      assert s[k] == DonePrefix[k] && DonePrefix[k] != 'd';
      assert s[k..k + 6][0] == s[k];
    }
    FindFirst(s, "data: ", 0, 12);
  }

  lemma NoBreakInPayload(j: string)
    requires '\n' !in j
    ensures forall k :: 18 <= k < 18 + |j| ==> (DonePrefix + j + "\n\n")[k] != '\n'
  {
    var s := DonePrefix + j + "\n\n";
    forall k | 18 <= k < 18 + |j|
      ensures s[k] != '\n'
    {
      assert s[k] == j[k - 18];
      assert j[k - 18] in j;
    }
  }

  lemma DataFieldEnd(j: string)
    requires '\n' !in j
    ensures Find(DonePrefix + j + "\n\n", "\n", 18) == 18 + |j|
  {
    NoBreakInPayload(j);
    FindChar(DonePrefix + j + "\n\n", '\n', 18, 18 + |j|);
  }

  /**
   * The payload of a Done frame in the format of utils/openai_chat.py is
   * recovered when it has no newline and no surrounding whitespace,
   * as `json.dumps` output has.
   */
  lemma DoneFramePayload(j: string, encodeDone: string -> string, content: string)
    requires encodeDone(content) == j && '\n' !in j && IsStripped(j)
    ensures DataField(ChunkAccumulator.Render(ChunkAccumulator.Done(content), encodeDone)) == j
  {
    var s := DonePrefix + j + "\n\n";
    assert ChunkAccumulator.Render(ChunkAccumulator.Done(content), encodeDone) == s;
    DataFieldStart(j);
    DataFieldEnd(j);
    assert s[18..18 + |j|] == j;
    StripStripped(j);
  }

  /** A stream whose last frame decodes to `content` appends the assistant message and reports no error. */
  lemma RespondAppendsContent(st: State, chatId: string, messages: seq<Message>, env: TurnEnv, content: string)
    requires !env.reply.fails && env.reply.frames != []
    requires env.decodeContent(DataField(env.reply.frames[|env.reply.frames| - 1])) == Some(content)
    ensures Respond(st, chatId, messages, env)
            == (AddMessage(st, chatId, Message(AssistantRole, content), env.saveAssistantOk),
                TurnResult(Some(messages), env.reply.frames, None))
  {
  }

  /**
   * A turn whose last frame decodes to `content` records the user message
   * and then the assistant message holding `content`, and reports no error.
   */
  lemma TurnRecordsBothMessages(st: State, chatId: string, userInput: string, env: TurnEnv, content: string)
    requires GetHistory(st, chatId, env.loadOk).1.Some?
    requires !env.reply.fails && env.reply.frames != []
    requires env.decodeContent(DataField(env.reply.frames[|env.reply.frames| - 1])) == Some(content)
    ensures var (s, r) := Turn(st, chatId, userInput, env);
            var h := Prior(GetHistory(st, chatId, env.loadOk).0.cache, chatId);
            && r.error == None
            && s.cache[chatId] == h + [Message(UserRole, userInput), Message(AssistantRole, content)]
  {
    var read := GetHistory(st, chatId, env.loadOk);
    var user := Message(UserRole, userInput);
    var messages := read.1.value + [user];
    var recorded := AddMessage(read.0, chatId, user, env.saveUserOk);
    assert Turn(st, chatId, userInput, env) == Respond(recorded, chatId, messages, env);
    RespondAppendsContent(recorded, chatId, messages, env, content);
    var assistant := Message(AssistantRole, content);
    assert recorded.cache[chatId] == Prior(read.0.cache, chatId) + [user];
    assert AddMessage(recorded, chatId, assistant, env.saveAssistantOk).cache[chatId] == recorded.cache[chatId] + [assistant];
    assert Prior(read.0.cache, chatId) + [user] + [assistant] == Prior(read.0.cache, chatId) + [user, assistant];
  }

  /**
   * With a JSON codec that reads back the content it wrote, a turn whose
   * stream ends with a Done frame records the user message and then the
   * assistant message holding that frame's content.
   */
  lemma AssistantTurnIsDoneContent(st: State, chatId: string, userInput: string, env: TurnEnv,
                                   encodeDone: string -> string, content: string)
    requires GetHistory(st, chatId, env.loadOk).1.Some?
    requires !env.reply.fails && env.reply.frames != []
    requires env.reply.frames[|env.reply.frames| - 1]
             == ChunkAccumulator.Render(ChunkAccumulator.Done(content), encodeDone)
    requires '\n' !in encodeDone(content) && IsStripped(encodeDone(content))
    requires env.decodeContent(encodeDone(content)) == Some(content)
    ensures var (s, r) := Turn(st, chatId, userInput, env);
            var h := Prior(GetHistory(st, chatId, env.loadOk).0.cache, chatId);
            && r.error == None
            && s.cache[chatId] == h + [Message(UserRole, userInput), Message(AssistantRole, content)]
  {
    DoneFramePayload(encodeDone(content), encodeDone, content);
    TurnRecordsBothMessages(st, chatId, userInput, env, content);
  }
}
