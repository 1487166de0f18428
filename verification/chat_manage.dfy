/**
 * The chat records of services/chat_manage.py.
 *
 * The module-level dict `CHAT_HISTORY_MAP` maps a chat id to a record
 * `{history, title}`. The table `tobacco.chat_history` has one row per chat
 * id: the owning user (NULL for a row first written by a save) and the
 * `messages` column, which holds the whole saved record or NULL. Rows are
 * listed newest first, so the table also keeps the order in which rows were
 * inserted. Whether a database call succeeds, what decoding a stored value
 * gives and what title generation returns are oracles.
 */
module ChatManage {
  import opened Common

  /** One entry of `CHAT_HISTORY_MAP`. */
  datatype ChatRecord = ChatRecord(history: seq<Message>, title: Option<string>)

  /** The entry both functions create for an unknown chat id. */
  const EmptyRecord: ChatRecord := ChatRecord([], None)

  /** A row of `tobacco.chat_history`: `user_id` and `messages`, either of which may be NULL. */
  datatype Row = Row(userId: Option<string>, messages: Option<ChatRecord>)

  /** The table: its rows by chat id, and the chat ids in the order their rows were inserted. */
  datatype Db = Db(rows: map<string, Row>, created: seq<string>)

  /** Every row is listed once in the insertion order, and nothing else is. */
  ghost predicate Valid(db: Db) {
    && (forall id :: id in db.rows <==> id in db.created)
    && Distinct(db.created)
  }

  /** No id occurs twice. */
  predicate Distinct(ids: seq<string>) {
    forall i, j :: 0 <= i < j < |ids| ==> ids[i] != ids[j]
  }

  /** The exceptions that leave the functions of the module. */
  datatype Raised =
    | TypeErrorRaised   // `json.loads` of a value that is not text, not caught
    | TitleRaised       // raised by the title generation

  /**
   * `json.loads(messages)["history"]` of a stored value: the history, or the
   * exception it raises. The first two are caught by get_chat_history.
   */
  datatype Parse = History(history: seq<Message>) | DecodeError | KeyMissing | WrongType

  /** A decoder that reads back exactly the history that was saved. */
  ghost predicate Faithful(decode: ChatRecord -> Parse) {
    forall r :: decode(r) == History(r.history)
  }

  /** The module state: the in-memory map and the table. */
  datatype State = State(cache: map<string, ChatRecord>, db: Db)

  /** The entry of a chat id, as it is once a missing entry has been created. */
  function Entry(cache: map<string, ChatRecord>, chatId: string): ChatRecord
  {
    if chatId in cache then cache[chatId] else EmptyRecord
  }

  /**
   * create_chat_id: the insert of `(chat_id, user_id)` when it succeeds; a
   * duplicate key fails like any other database error, and nothing is written.
   */
  function Create(db: Db, chatId: string, userId: string, ok: bool): (r: Db)
    ensures !ok ==> r == db
  {
    if ok && chatId !in db.rows then Db(db.rows[chatId := Row(Some(userId), None)], db.created + [chatId])
    else db
  }

  /**
   * save_chat_to_db: the upsert of the `messages` column when the write
   * succeeds. An existing row keeps its owner; a new row has none.
   */
  function Save(db: Db, chatId: string, record: ChatRecord, ok: bool): (r: Db)
    ensures !ok ==> r == db
  {
    if !ok then db
    else if chatId in db.rows then Db(db.rows[chatId := db.rows[chatId].(messages := Some(record))], db.created)
    else Db(db.rows[chatId := Row(None, Some(record))], db.created + [chatId])
  }

  /**
   * What load_chat_from_db returns: the stored record, `None` for a row whose
   * column is NULL, or `[]` when no row exists or the read fails.
   */
  datatype Loaded = Stored(record: ChatRecord) | NullColumn | EmptyList

  /** Python truthiness of a loaded value: a stored record is a non-empty object; `None` and `[]` are falsy. */
  predicate Truthy(l: Loaded) {
    l.Stored?
  }

  /** load_chat_from_db: the `messages` column of the row, `[]` without a row or on a failed read. */
  function Load(db: Db, chatId: string, ok: bool): (r: Loaded)
    ensures r.Stored? <==> ok && chatId in db.rows && db.rows[chatId].messages.Some?
    ensures r.Stored? ==> db.rows[chatId].messages == Some(r.record)
    ensures r.NullColumn? <==> ok && chatId in db.rows && db.rows[chatId].messages.None?
    ensures r.EmptyList? <==> !ok || chatId !in db.rows
  {
    if !ok || chatId !in db.rows then EmptyList
    else if db.rows[chatId].messages.None? then NullColumn
    else Stored(db.rows[chatId].messages.value)
  }

  /** get_chat_history: the new state and what it returns or raises. */
  function GetHistory(st: State, chatId: string, loadOk: bool, decode: ChatRecord -> Parse)
    : (State, Result<seq<Message>, Raised>)
  {
    var entry := Entry(st.cache, chatId);
    var cache := st.cache[chatId := entry];
    if entry.history != [] then (State(cache, st.db), Ok(entry.history))
    else
      var loaded := Load(st.db, chatId, loadOk);
      if !Truthy(loaded) then (State(cache, st.db), Ok(entry.history))
      else
        match decode(loaded.record)
        case History(h) => (State(cache[chatId := entry.(history := h)], st.db), Ok(h))
        case DecodeError => (State(cache, st.db), Ok([]))
        case KeyMissing => (State(cache, st.db), Ok([]))
        case WrongType => (State(cache, st.db), Err(TypeErrorRaised))
  }

  /**
   * add_message_to_chat: the message is appended to the (possibly new)
   * entry; a missing title is generated from the record after the append
   * (None: the generation raised, and the record is not saved); then the
   * whole record is saved.
   */
  function AddMessage(st: State, chatId: string, m: Message, generateTitle: ChatRecord -> Option<string>,
                      saveOk: bool): (State, Option<Raised>)
  {
    var entry := Entry(st.cache, chatId);
    var appended := entry.(history := entry.history + [m]);
    if appended.title.Some? then
      (State(st.cache[chatId := appended], Save(st.db, chatId, appended, saveOk)), None)
    else
      var title := generateTitle(appended);
      if title.None? then (State(st.cache[chatId := appended], st.db), Some(TitleRaised))
      else
        var titled := appended.(title := title);
        (State(st.cache[chatId := titled], Save(st.db, chatId, titled, saveOk)), None)
  }

  /** Is the row of `id` owned by `userId`? */
  predicate OwnedBy(rows: map<string, Row>, userId: string, id: string) {
    id in rows && rows[id].userId == Some(userId)
  }

  /** The ids of `ids` owned by `userId`, the last inserted first. */
  function NewestFirst(rows: map<string, Row>, userId: string, ids: seq<string>): seq<string>
    decreases |ids|
  {
    if ids == [] then []
    else
      var last := ids[|ids| - 1];
      var rest := NewestFirst(rows, userId, ids[..|ids| - 1]);
      if OwnedBy(rows, userId, last) then [last] + rest else rest
  }

  /**
   * get_chat_id_list_from_db: the user's chat ids ordered by `created_at`
   * descending; `[]` when there are none or the query fails.
   */
  function ChatIds(db: Db, userId: string, ok: bool): (r: seq<string>)
    ensures !ok ==> r == []
  {
    if ok then NewestFirst(db.rows, userId, db.created) else []
  }

  /** The module state, updated in place by the functions of the module. */
  class ChatManager {
    var cache: map<string, ChatRecord>
    var db: Db

    constructor (db: Db)
      ensures cache == map[] && this.db == db
    {
      cache := map[];
      this.db := db;
    }

    function Snapshot(): State
      reads this
    {
      State(cache, db)
    }

    /** create_chat_id, with the generated uuid given: it is returned whether or not the insert succeeded. */
    method CreateChatId(userId: string, generated: string, ok: bool) returns (chatId: string)
      modifies this
      ensures chatId == generated
      ensures db == Create(old(db), generated, userId, ok) && cache == old(cache)
    {
      if ok && generated !in db.rows {
        db := Db(db.rows[generated := Row(Some(userId), None)], db.created + [generated]);
      }
      chatId := generated;
    }

    method SaveChatToDb(chatId: string, record: ChatRecord, ok: bool)
      modifies this
      ensures db == Save(old(db), chatId, record, ok) && cache == old(cache)
    {
      if !ok {
        return;
      }
      if chatId in db.rows {
        db := Db(db.rows[chatId := db.rows[chatId].(messages := Some(record))], db.created);
      } else {
        db := Db(db.rows[chatId := Row(None, Some(record))], db.created + [chatId]);
      }
    }

    /** load_chat_from_db: `result[0] if result else []`, and `[]` when the read raises. */
    method LoadChatFromDb(chatId: string, ok: bool) returns (r: Loaded)
      ensures r == Load(db, chatId, ok)
    {
      if !ok {
        return EmptyList;
      }
      if chatId !in db.rows {
        return EmptyList;
      }
      var column := db.rows[chatId].messages;
      r := if column.Some? then Stored(column.value) else NullColumn;
    }

    /** get_chathis_by_id: the value load_chat_from_db returns, passed on as it is. */
    method GetChathisById(chatId: string, ok: bool) returns (r: Loaded)
      ensures r == Load(db, chatId, ok)
    {
      r := LoadChatFromDb(chatId, ok);
    }

    method GetChatHistory(chatId: string, loadOk: bool, decode: ChatRecord -> Parse)
      returns (r: Result<seq<Message>, Raised>)
      modifies this
      ensures (Snapshot(), r) == GetHistory(old(Snapshot()), chatId, loadOk, decode)
    {
      if chatId !in cache {
        cache := cache[chatId := ChatRecord([], None)];
      }
      assert cache == old(cache)[chatId := Entry(old(cache), chatId)];
      if cache[chatId].history != [] {
        return Ok(cache[chatId].history);
      }
      var messages := LoadChatFromDb(chatId, loadOk);
      if Truthy(messages) {
        match decode(messages.record)
        case History(h) =>
          cache := cache[chatId := cache[chatId].(history := h)];
          return Ok(cache[chatId].history);
        case DecodeError =>
          return Ok([]);
        case KeyMissing =>
          return Ok([]);
        case WrongType =>
          return Err(TypeErrorRaised);
      }
      r := Ok(cache[chatId].history);
    }

    /**
     * get_chat_id_list_from_db: the query selects the user's rows and orders
     * them by `created_at` descending; the loop walks the insertion order from
     * the newest row back and keeps the ids the user owns.
     */
    method GetChatIdListFromDb(userId: string, ok: bool) returns (ids: seq<string>)
      ensures ids == ChatIds(db, userId, ok)
    {
      if !ok {
        return [];
      }
      ids := [];
      var j := |db.created|;
      assert db.created[..j] == db.created;
      while j > 0
        invariant 0 <= j <= |db.created|
        invariant NewestFirst(db.rows, userId, db.created) == ids + NewestFirst(db.rows, userId, db.created[..j])
      {
        var id := db.created[j - 1];
        assert db.created[..j][..j - 1] == db.created[..j - 1];
        if id in db.rows && db.rows[id].userId == Some(userId) {
          assert ids + NewestFirst(db.rows, userId, db.created[..j])
                 == (ids + [id]) + NewestFirst(db.rows, userId, db.created[..j - 1]);
          ids := ids + [id];
        }
        j := j - 1;
      }
      assert ids + [] == ids;
    }

    method AddMessageToChat(chatId: string, role: string, content: string,
                            generateTitle: ChatRecord -> Option<string>, saveOk: bool)
      returns (error: Option<Raised>)
      modifies this
      ensures (Snapshot(), error) == AddMessage(old(Snapshot()), chatId, Message(role, content), generateTitle, saveOk)
    {
      if chatId !in cache {
        cache := cache[chatId := ChatRecord([], None)];
      }
      ghost var entry := Entry(old(cache), chatId);
      assert cache[chatId] == entry;
      cache := cache[chatId := cache[chatId].(history := cache[chatId].history + [Message(role, content)])];
      ghost var appended := entry.(history := entry.history + [Message(role, content)]);
      assert cache == old(cache)[chatId := appended];
      var hasTitle := cache[chatId].title.Some?;
      if !hasTitle {
        var title := generateTitle(cache[chatId]);
        if title.None? {
          assert db == old(db);
          return Some(TitleRaised);
        }
        cache := cache[chatId := cache[chatId].(title := title)];
      }
      ghost var saved := cache[chatId];
      assert cache == old(cache)[chatId := saved];
      SaveChatToDb(chatId, cache[chatId], saveOk);
      assert db == Save(old(db), chatId, saved, saveOk);
      error := None;
    }
  }

  // ---------------------------------------------------------------------------
  // Reading a history
  // ---------------------------------------------------------------------------

  /**
   * A read creates the entry `{history: [], title: None}` for an unknown id,
   * whatever else happens; other entries and the table are untouched.
   */
  lemma ReadCreatesEntry(st: State, chatId: string, loadOk: bool, decode: ChatRecord -> Parse)
    ensures var after := GetHistory(st, chatId, loadOk, decode).0;
            && chatId in after.cache
            && (chatId !in st.cache ==> after.cache[chatId].title == None)
            && (chatId in st.cache ==> after.cache[chatId].title == st.cache[chatId].title)
            && (forall id :: id != chatId ==> (id in after.cache <==> id in st.cache))
            && (forall id :: id != chatId && id in st.cache ==> after.cache[id] == st.cache[id])
            && after.db == st.db
  {
  }

  /** A non-empty cached history is returned as it is, whatever the table holds. */
  lemma CachedHistoryReturned(st: State, chatId: string, loadOk: bool, decode: ChatRecord -> Parse)
    requires chatId in st.cache && st.cache[chatId].history != []
    ensures GetHistory(st, chatId, loadOk, decode) == (st, Ok(st.cache[chatId].history))
  {
    assert st.cache[chatId := st.cache[chatId]] == st.cache;
  }

  /**
   * The three results of load_chat_from_db stay apart for a caller of
   * get_chathis_by_id: a NULL column is `None`, a missing row or a failed
   * read is `[]`; only a stored record is truthy.
   */
  lemma LoadOutcomes(db: Db, chatId: string, record: ChatRecord, owner: Option<string>)
    ensures Load(db, chatId, false) == EmptyList
    ensures chatId !in db.rows ==> Load(db, chatId, true) == EmptyList
    ensures Load(Db(db.rows[chatId := Row(owner, None)], db.created), chatId, true) == NullColumn
    ensures Load(Db(db.rows[chatId := Row(owner, Some(record))], db.created), chatId, true) == Stored(record)
    ensures Truthy(Load(db, chatId, true)) <==> chatId in db.rows && db.rows[chatId].messages.Some?
  {
  }

  /**
   * On an empty entry: a decoded stored history is cached and returned; a
   * decode error or a missing key returns `[]` and leaves the entry empty; a
   * value that is not text raises; no stored data returns the empty entry.
   */
  lemma ColdReadOutcomes(st: State, chatId: string, loadOk: bool, decode: ChatRecord -> Parse)
    requires Entry(st.cache, chatId).history == []
    ensures var (after, r) := GetHistory(st, chatId, loadOk, decode);
            var loaded := Load(st.db, chatId, loadOk);
            && (!loaded.Stored? ==> r == Ok([]) && after.cache[chatId].history == [])
            && (loaded.Stored? && decode(loaded.record).History? ==>
                  r == Ok(decode(loaded.record).history) && after.cache[chatId].history == decode(loaded.record).history)
            && (loaded.Stored? && (decode(loaded.record).DecodeError? || decode(loaded.record).KeyMissing?) ==>
                  r == Ok([]) && after.cache[chatId].history == [])
            && (r.Err? <==> loaded.Stored? && decode(loaded.record).WrongType?)
  {
  }

  /** Once a read has returned a non-empty history, reading again returns it without touching anything. */
  lemma ReadIsCached(st: State, chatId: string, loadOk: bool, decode: ChatRecord -> Parse,
                     loadOk2: bool, decode2: ChatRecord -> Parse)
    requires var r := GetHistory(st, chatId, loadOk, decode).1; r.Ok? && r.value != []
    ensures var (after, r) := GetHistory(st, chatId, loadOk, decode);
            GetHistory(after, chatId, loadOk2, decode2) == (after, r)
  {
    var (after, r) := GetHistory(st, chatId, loadOk, decode);
    assert after.cache[chatId].history == r.value;
    CachedHistoryReturned(after, chatId, loadOk2, decode2);
  }

  // ---------------------------------------------------------------------------
  // Appending a message
  // ---------------------------------------------------------------------------

  /**
   * An append adds exactly one message at the end of the entry (a new one
   * if the id was unknown, without loading), and touches no other entry.
   */
  lemma AppendsOneMessage(st: State, chatId: string, m: Message, generateTitle: ChatRecord -> Option<string>,
                          saveOk: bool)
    ensures var after := AddMessage(st, chatId, m, generateTitle, saveOk).0;
            && chatId in after.cache
            && after.cache[chatId].history == Entry(st.cache, chatId).history + [m]
            && (forall id :: id != chatId ==> (id in after.cache <==> id in st.cache))
            && (forall id :: id != chatId && id in st.cache ==> after.cache[id] == st.cache[id])
  {
  }

  /** A title, once set, never changes; after an append that did not raise, the entry has one. */
  lemma TitleSetOnce(st: State, chatId: string, m: Message, generateTitle: ChatRecord -> Option<string>,
                     saveOk: bool)
    ensures var (after, error) := AddMessage(st, chatId, m, generateTitle, saveOk);
            && (Entry(st.cache, chatId).title.Some? ==> after.cache[chatId].title == Entry(st.cache, chatId).title)
            && (error == None <==> after.cache[chatId].title.Some?)
  {
  }

  /** The title is generated from the record that already holds the new message. */
  lemma TitleFromAppendedRecord(st: State, chatId: string, m: Message, generateTitle: ChatRecord -> Option<string>,
                                saveOk: bool)
    requires Entry(st.cache, chatId).title.None?
    requires generateTitle(ChatRecord(Entry(st.cache, chatId).history + [m], None)).Some?
    ensures var after := AddMessage(st, chatId, m, generateTitle, saveOk).0;
            after.cache[chatId].title == generateTitle(ChatRecord(Entry(st.cache, chatId).history + [m], None))
  {
  }

  /** When the title generation raises, the message stays appended in memory but nothing is saved. */
  lemma TitleFailureNotSaved(st: State, chatId: string, m: Message, generateTitle: ChatRecord -> Option<string>,
                             saveOk: bool)
    requires var (after, error) := AddMessage(st, chatId, m, generateTitle, saveOk); error.Some?
    ensures var after := AddMessage(st, chatId, m, generateTitle, saveOk).0;
            after.db == st.db && after.cache[chatId].history == Entry(st.cache, chatId).history + [m]
  {
  }

  /** After an append that did not raise and a save that succeeded, the table holds the whole record. */
  lemma WriteThrough(st: State, chatId: string, m: Message, generateTitle: ChatRecord -> Option<string>)
    requires AddMessage(st, chatId, m, generateTitle, true).1 == None
    ensures var after := AddMessage(st, chatId, m, generateTitle, true).0;
            Load(after.db, chatId, true) == Stored(after.cache[chatId])
  {
  }

  /**
   * After such an append, a process that starts with an empty map and reads
   * the chat back with a faithful decoder gets the same history.
   */
  lemma ColdReload(st: State, chatId: string, m: Message, generateTitle: ChatRecord -> Option<string>,
                   decode: ChatRecord -> Parse)
    requires AddMessage(st, chatId, m, generateTitle, true).1 == None
    requires Faithful(decode)
    ensures var after := AddMessage(st, chatId, m, generateTitle, true).0;
            GetHistory(State(map[], after.db), chatId, true, decode).1 == Ok(after.cache[chatId].history)
  {
    var after := AddMessage(st, chatId, m, generateTitle, true).0;
    WriteThrough(st, chatId, m, generateTitle);
    assert decode(after.cache[chatId]) == History(after.cache[chatId].history);
  }

  /**
   * An append to an id that is not in memory does not load it first: a
   * successful save replaces the stored record by one holding only the new
   * message.
   */
  lemma UncachedAppendOverwrites(st: State, chatId: string, m: Message, generateTitle: ChatRecord -> Option<string>)
    requires chatId !in st.cache
    requires AddMessage(st, chatId, m, generateTitle, true).1 == None
    ensures var after := AddMessage(st, chatId, m, generateTitle, true).0;
            Load(after.db, chatId, true).Stored? && Load(after.db, chatId, true).record.history == [m]
  {
    assert EmptyRecord.history + [m] == [m];
  }

  // ---------------------------------------------------------------------------
  // Creating and listing chats
  // ---------------------------------------------------------------------------

  lemma {:induction false} NewestFirstMembers(rows: map<string, Row>, userId: string, ids: seq<string>)
    ensures forall id :: id in NewestFirst(rows, userId, ids) <==> id in ids && OwnedBy(rows, userId, id)
    decreases |ids|
  {
    if ids != [] {
      var init := ids[..|ids| - 1];
      NewestFirstMembers(rows, userId, init);
      assert ids == init + [ids[|ids| - 1]];
    }
  }

  lemma {:induction false} NewestFirstDistinct(rows: map<string, Row>, userId: string, ids: seq<string>)
    requires Distinct(ids)
    ensures Distinct(NewestFirst(rows, userId, ids))
    decreases |ids|
  {
    if ids != [] {
      var init := ids[..|ids| - 1];
      var last := ids[|ids| - 1];
      NewestFirstDistinct(rows, userId, init);
      NewestFirstMembers(rows, userId, init);
      var rest := NewestFirst(rows, userId, init);
      if OwnedBy(rows, userId, last) {
        assert last !in init by {
          forall k | 0 <= k < |init|
            ensures init[k] != last
          {
            assert init[k] == ids[k];
          }
        }
        var r := [last] + rest;
        assert NewestFirst(rows, userId, ids) == r;
        assert last !in rest;
        forall i, j | 0 <= i < j < |r|
          ensures r[i] != r[j]
        {
          assert r[j] == rest[j - 1];
          if i > 0 {
            assert r[i] == rest[i - 1];
          } else {
            assert rest[j - 1] in rest;
          }
        }
      }
    }
  }

  /** The list holds exactly the ids of the user's rows, each once. */
  lemma ChatIdsExact(db: Db, userId: string)
    requires Valid(db)
    ensures forall id :: id in ChatIds(db, userId, true) <==> OwnedBy(db.rows, userId, id)
    ensures Distinct(ChatIds(db, userId, true))
  {
    NewestFirstMembers(db.rows, userId, db.created);
    NewestFirstDistinct(db.rows, userId, db.created);
  }

  lemma {:induction false} NewestFirstUnrelated(rows: map<string, Row>, userId: string, ids: seq<string>,
                                                id: string, row: Row)
    requires id !in ids
    ensures NewestFirst(rows[id := row], userId, ids) == NewestFirst(rows, userId, ids)
    decreases |ids|
  {
    if ids != [] {
      NewestFirstUnrelated(rows, userId, ids[..|ids| - 1], id, row);
    }
  }

  lemma {:induction false} NewestFirstSameOwner(rows: map<string, Row>, userId: string, ids: seq<string>,
                                                id: string, row: Row)
    requires id in rows && rows[id].userId == row.userId
    ensures NewestFirst(rows[id := row], userId, ids) == NewestFirst(rows, userId, ids)
    decreases |ids|
  {
    if ids != [] {
      NewestFirstSameOwner(rows, userId, ids[..|ids| - 1], id, row);
    }
  }

  /**
   * create_chat_id returns the generated id in every case; a successful
   * insert puts it at the head of its user's list and leaves every other
   * user's list as it was; a failed one changes nothing.
   */
  lemma CreateListsFirst(db: Db, chatId: string, userId: string, other: string, ok: bool)
    requires Valid(db) && chatId !in db.rows && other != userId
    ensures var after := Create(db, chatId, userId, ok);
            && Valid(after)
            && (ok ==> ChatIds(after, userId, true) == [chatId] + ChatIds(db, userId, true))
            && (!ok ==> after == db)
            && ChatIds(after, other, true) == ChatIds(db, other, true)
  {
    if ok {
      var after := Create(db, chatId, userId, ok);
      assert chatId !in db.created;
      assert after.created[..|after.created| - 1] == db.created;
      NewestFirstUnrelated(db.rows, userId, db.created, chatId, Row(Some(userId), None));
      NewestFirstUnrelated(db.rows, other, db.created, chatId, Row(Some(userId), None));
    }
  }

  /** Saving keeps the table valid and never changes any user's list: a saved row keeps its owner. */
  lemma SaveKeepsLists(db: Db, chatId: string, record: ChatRecord, ok: bool, userId: string)
    requires Valid(db)
    ensures Valid(Save(db, chatId, record, ok))
    ensures ChatIds(Save(db, chatId, record, ok), userId, true) == ChatIds(db, userId, true)
  {
    var after := Save(db, chatId, record, ok);
    if ok && chatId in db.rows {
      NewestFirstSameOwner(db.rows, userId, db.created, chatId, db.rows[chatId].(messages := Some(record)));
    } else if ok {
      assert chatId !in db.created;
      assert after.created[..|after.created| - 1] == db.created;
      NewestFirstUnrelated(db.rows, userId, db.created, chatId, Row(None, Some(record)));
    }
  }
}
