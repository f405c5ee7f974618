/**
 * The persistence layer of the application (lib/db.ts) over an in-memory
 * store. Each table is a map from primary key to record, except the
 * chat-to-knowledge-base link table, which has no key of its own in the
 * operations modelled here and is kept as a sequence of rows.
 *
 * Identifiers the database or `uuidv4()` would generate are parameters
 * (`newId`); a create whose id is already taken fails, as the primary-key
 * constraint would make it.
 */
module Store {
  import opened Wrappers

  /** The role of a stored message. The Prisma enum `Role` itself is not part
      of this model; the chat route stores "user" and "assistant" messages. */
  datatype Role = UserRole | AssistantRole

  datatype User = User(id: string, email: string, password: string)
  datatype Chat = Chat(id: string, userId: string, title: string)
  datatype KnowledgeBase = KnowledgeBase(id: string, userId: string, name: string, title: string)
  datatype KnowledgeFile = KnowledgeFile(
    id: string, fileName: string, filePath: string, fileSize: nat, mimeType: string,
    knowledgeBaseId: string)
  datatype ChatKnowledgeBase = ChatKnowledgeBase(chatId: string, knowledgeBaseId: string)
  datatype Message = Message(id: string, chatId: string, role: Role, content: string)
  datatype Chunk = Chunk(id: string, knowledgeBaseId: string, content: string, embedding: seq<real>)

  datatype Db = Db(
    users: map<string, User>,
    chats: map<string, Chat>,
    knowledgeBases: map<string, KnowledgeBase>,
    files: map<string, KnowledgeFile>,
    chatKnowledgeBases: seq<ChatKnowledgeBase>,
    messages: map<string, Message>,
    chunks: map<string, Chunk>)

  datatype DbError =
    | UserMissing(userId: string)          // createChat: "User with id … does not exist."
    | ChatMissing(chatId: string)          // createMessage: "Chat with id … not found"
    | ChatNotFoundOrForbidden              // deleteChat
    | KnowledgeBaseNotFoundOrForbidden     // deleteKnowledgeBase
    | FileNotFoundOrForbidden              // deleteFileRecord
    | WriteRejected                        // Prisma create failed: id taken or nested connect to a missing row
    | ChunkInsertFailed                    // createChunkRecordRaw's single generic error
    | EmptyIdList                          // Prisma.join([]) in searchRelevantChunks

  /** The store after an operation, and what the operation returned or threw. */
  datatype Step<+T> = Step(db: Db, result: Result<T, DbError>)

  /** The width of the `vector(1536)` column chunks are cast into. */
  const EmbeddingDimension: nat := 1536

  /** Every record is stored under its own id, and every stored embedding has
      the column's width. */
  ghost predicate WellKeyed(db: Db) {
    && (forall k :: k in db.users ==> db.users[k].id == k)
    && (forall k :: k in db.chats ==> db.chats[k].id == k)
    && (forall k :: k in db.knowledgeBases ==> db.knowledgeBases[k].id == k)
    && (forall k :: k in db.files ==> db.files[k].id == k)
    && (forall k :: k in db.messages ==> db.messages[k].id == k)
    && (forall k :: k in db.chunks ==> db.chunks[k].id == k && |db.chunks[k].embedding| == EmbeddingDimension)
  }

  /** WellKeyed, and every foreign key points at an existing row. */
  ghost predicate Valid(db: Db) {
    WellKeyed(db) && OwnersExist(db) && LinksResolve(db) && ContentsAttached(db)
  }

  /** Chats and knowledge bases belong to existing users. */
  ghost predicate OwnersExist(db: Db) {
    && (forall k :: k in db.chats ==> db.chats[k].userId in db.users)
    && (forall k :: k in db.knowledgeBases ==> db.knowledgeBases[k].userId in db.users)
  }

  /** Every chat-to-knowledge-base link names an existing chat and knowledge base. */
  ghost predicate LinksResolve(db: Db) {
    forall i :: 0 <= i < |db.chatKnowledgeBases| ==>
      db.chatKnowledgeBases[i].chatId in db.chats && db.chatKnowledgeBases[i].knowledgeBaseId in db.knowledgeBases
  }

  /** Files and chunks sit in existing knowledge bases, messages in existing chats. */
  ghost predicate ContentsAttached(db: Db) {
    && (forall k :: k in db.files ==> db.files[k].knowledgeBaseId in db.knowledgeBases)
    && (forall k :: k in db.messages ==> db.messages[k].chatId in db.chats)
    && (forall k :: k in db.chunks ==> db.chunks[k].knowledgeBaseId in db.knowledgeBases)
  }

  /** The link rows `createChat` adds: one per requested id, in order. */
  function LinksFor(chatId: string, kbIds: seq<string>): (links: seq<ChatKnowledgeBase>)
    ensures |links| == |kbIds|
    ensures forall i :: 0 <= i < |kbIds| ==> links[i] == ChatKnowledgeBase(chatId, kbIds[i])
  {
    if |kbIds| == 0 then [] else [ChatKnowledgeBase(chatId, kbIds[0])] + LinksFor(chatId, kbIds[1..])
  }

  /** Every id the chat should be connected to names an existing knowledge base. */
  predicate AllKnowledgeBasesExist(db: Db, kbIds: seq<string>) {
    forall i :: 0 <= i < |kbIds| ==> kbIds[i] in db.knowledgeBases
  }

  /** `createChat(userId, title, knowledgeBaseIds)`. */
  function CreateChat(db: Db, newId: string, userId: string, title: string, kbIds: seq<string>)
    : (r: Step<(Chat, seq<ChatKnowledgeBase>)>)
    ensures userId !in db.users ==> r == Step(db, Failure(UserMissing(userId)))
    ensures r.result.Failure? ==> r.db == db
    ensures r.result.Success? <==>
      userId in db.users && newId !in db.chats && forall i :: 0 <= i < |kbIds| ==> kbIds[i] in db.knowledgeBases
    ensures r.result.Success? ==>
      var (chat, links) := r.result.value;
      && chat == Chat(newId, userId, title)
      && |links| == |kbIds|
      && (forall i :: 0 <= i < |kbIds| ==> links[i].chatId == newId && links[i].knowledgeBaseId == kbIds[i])
      && r.db == db.(chats := db.chats[newId := chat], chatKnowledgeBases := db.chatKnowledgeBases + links)
  {
    if userId !in db.users then Step(db, Failure(UserMissing(userId)))
    else if newId in db.chats || !AllKnowledgeBasesExist(db, kbIds) then
      Step(db, Failure(WriteRejected))
    else
      var chat := Chat(newId, userId, title);
      var links := LinksFor(newId, kbIds);
      Step(db.(chats := db.chats[newId := chat], chatKnowledgeBases := db.chatKnowledgeBases + links),
           Success((chat, links)))
  }

  /** Creating a chat keeps every foreign key pointing at an existing row:
      the owner exists, and each new link names the new chat and an existing
      knowledge base. */
  lemma CreateChatKeepsValid(db: Db, newId: string, userId: string, title: string, kbIds: seq<string>)
    requires Valid(db)
    ensures Valid(CreateChat(db, newId, userId, title, kbIds).db)
  {
    var r := CreateChat(db, newId, userId, title, kbIds);
    if r.result.Success? {
      AddChatKeepsValid(db, Chat(newId, userId, title), LinksFor(newId, kbIds));
    }
  }

  lemma AddChatKeepsValid(db: Db, chat: Chat, links: seq<ChatKnowledgeBase>)
    requires Valid(db) && chat.userId in db.users
    requires forall i :: 0 <= i < |links| ==> links[i].chatId == chat.id && links[i].knowledgeBaseId in db.knowledgeBases
    ensures Valid(db.(chats := db.chats[chat.id := chat], chatKnowledgeBases := db.chatKnowledgeBases + links))
  {
    var db' := db.(chats := db.chats[chat.id := chat], chatKnowledgeBases := db.chatKnowledgeBases + links);
    assert WellKeyed(db');
    assert OwnersExist(db');
    assert ContentsAttached(db');
    var all := db'.chatKnowledgeBases;
    forall i | 0 <= i < |all|
      ensures all[i].chatId in db'.chats && all[i].knowledgeBaseId in db'.knowledgeBases
    {
      if i >= |db.chatKnowledgeBases| {
        assert all[i] == links[i - |db.chatKnowledgeBases|];
      } else {
        assert all[i] == db.chatKnowledgeBases[i];
      }
    }
  }

  /** `deleteChat(chatId, userId)`: only the owner may delete. */
  function DeleteChat(db: Db, chatId: string, userId: string): (r: Step<Chat>)
    ensures r.result.Success? <==> chatId in db.chats && db.chats[chatId].userId == userId
    ensures r.result.Failure? ==> r == Step(db, Failure(ChatNotFoundOrForbidden))
    ensures r.result.Success? ==>
      && r.result.value == db.chats[chatId]
      && r.db.chats.Keys == db.chats.Keys - {chatId}
      && (forall k :: k in r.db.chats ==> r.db.chats[k] == db.chats[k])
      && r.db == db.(chats := r.db.chats)
    ensures WellKeyed(db) ==> WellKeyed(r.db)
  {
    if chatId !in db.chats || db.chats[chatId].userId != userId then
      Step(db, Failure(ChatNotFoundOrForbidden))
    else
      Step(db.(chats := db.chats - {chatId}), Success(db.chats[chatId]))
  }

  /** `getKnowledgeBasesByChatId(chatId)`: the link rows of one chat, in table order. */
  function KnowledgeBasesOfChat(links: seq<ChatKnowledgeBase>, chatId: string): (r: seq<ChatKnowledgeBase>)
    ensures forall l :: l in r <==> l in links && l.chatId == chatId
    ensures forall l :: multiset(r)[l] == if l.chatId == chatId then multiset(links)[l] else 0
  {
    if |links| == 0 then []
    else
      var rest := KnowledgeBasesOfChat(links[1..], chatId);
      assert links == [links[0]] + links[1..];
      if links[0].chatId == chatId then [links[0]] + rest else rest
  }

  /** `getKnowledgeBasesByChatId` on the whole store. */
  function GetKnowledgeBasesByChatId(db: Db, chatId: string): (r: seq<ChatKnowledgeBase>)
    ensures forall l :: l in r <==> l in db.chatKnowledgeBases && l.chatId == chatId
  {
    KnowledgeBasesOfChat(db.chatKnowledgeBases, chatId)
  }

  /** `createMessage(chatId, role, content)`. */
  function CreateMessage(db: Db, newId: string, chatId: string, role: Role, content: string)
    : (r: Step<Message>)
    ensures chatId !in db.chats ==> r == Step(db, Failure(ChatMissing(chatId)))
    ensures r.result.Failure? ==> r.db == db
    ensures r.result.Success? <==> chatId in db.chats && newId !in db.messages
    ensures r.result.Success? ==>
      && r.result.value == Message(newId, chatId, role, content)
      && r.db == db.(messages := db.messages[newId := r.result.value])
    ensures Valid(db) ==> Valid(r.db)
  {
    if chatId !in db.chats then Step(db, Failure(ChatMissing(chatId)))
    else if newId in db.messages then Step(db, Failure(WriteRejected))
    else
      var m := Message(newId, chatId, role, content);
      Step(db.(messages := db.messages[newId := m]), Success(m))
  }

  /** `createKnowledgeBase(userId, name)`: the title is the name. */
  function CreateKnowledgeBase(db: Db, newId: string, userId: string, name: string)
    : (r: Step<KnowledgeBase>)
    ensures r.result.Failure? ==> r == Step(db, Failure(WriteRejected))
    ensures r.result.Success? <==> userId in db.users && newId !in db.knowledgeBases
    ensures r.result.Success? ==>
      var kb := r.result.value;
      && kb.id == newId && kb.userId == userId && kb.name == name && kb.title == name
      && r.db == db.(knowledgeBases := db.knowledgeBases[newId := kb])
    ensures Valid(db) ==> Valid(r.db)
  {
    if userId !in db.users || newId in db.knowledgeBases then Step(db, Failure(WriteRejected))
    else
      var kb := KnowledgeBase(newId, userId, name, name);
      Step(db.(knowledgeBases := db.knowledgeBases[newId := kb]), Success(kb))
  }

  /** `deleteKnowledgeBase(knowledgeBaseId, userId)`: only the owner may delete. */
  function DeleteKnowledgeBase(db: Db, kbId: string, userId: string): (r: Step<KnowledgeBase>)
    ensures r.result.Success? <==> kbId in db.knowledgeBases && db.knowledgeBases[kbId].userId == userId
    ensures r.result.Failure? ==> r == Step(db, Failure(KnowledgeBaseNotFoundOrForbidden))
    ensures r.result.Success? ==>
      && r.result.value == db.knowledgeBases[kbId]
      && r.db.knowledgeBases.Keys == db.knowledgeBases.Keys - {kbId}
      && (forall k :: k in r.db.knowledgeBases ==> r.db.knowledgeBases[k] == db.knowledgeBases[k])
      && r.db == db.(knowledgeBases := r.db.knowledgeBases)
    ensures WellKeyed(db) ==> WellKeyed(r.db)
  {
    if kbId !in db.knowledgeBases || db.knowledgeBases[kbId].userId != userId then
      Step(db, Failure(KnowledgeBaseNotFoundOrForbidden))
    else
      Step(db.(knowledgeBases := db.knowledgeBases - {kbId}), Success(db.knowledgeBases[kbId]))
  }

  /** `createFileRecord(fileData)`: the file is connected to its knowledge base. */
  function CreateFileRecord(db: Db, newId: string, fileName: string, filePath: string,
                            fileSize: nat, mimeType: string, kbId: string): (r: Step<KnowledgeFile>)
    ensures r.result.Failure? ==> r == Step(db, Failure(WriteRejected))
    ensures r.result.Success? <==> kbId in db.knowledgeBases && newId !in db.files
    ensures r.result.Success? ==>
      && r.result.value == KnowledgeFile(newId, fileName, filePath, fileSize, mimeType, kbId)
      && r.db == db.(files := db.files[newId := r.result.value])
    ensures Valid(db) ==> Valid(r.db)
  {
    if kbId !in db.knowledgeBases || newId in db.files then Step(db, Failure(WriteRejected))
    else
      var f := KnowledgeFile(newId, fileName, filePath, fileSize, mimeType, kbId);
      Step(db.(files := db.files[newId := f]), Success(f))
  }

  /** The owner of a file is the owner of its parent knowledge base. */
  predicate OwnsFile(db: Db, fileId: string, userId: string) {
    && fileId in db.files
    && db.files[fileId].knowledgeBaseId in db.knowledgeBases
    && db.knowledgeBases[db.files[fileId].knowledgeBaseId].userId == userId
  }

  /** `deleteFileRecord(fileId, userId)`: authorised against the parent knowledge base's owner. */
  function DeleteFileRecord(db: Db, fileId: string, userId: string): (r: Step<KnowledgeFile>)
    ensures r.result.Success? <==> OwnsFile(db, fileId, userId)
    ensures r.result.Failure? ==> r == Step(db, Failure(FileNotFoundOrForbidden))
    ensures r.result.Success? ==>
      && r.result.value == db.files[fileId]
      && r.db.files.Keys == db.files.Keys - {fileId}
      && (forall k :: k in r.db.files ==> r.db.files[k] == db.files[k])
      && r.db == db.(files := r.db.files)
    ensures WellKeyed(db) ==> WellKeyed(r.db)
  {
    if fileId !in db.files then Step(db, Failure(FileNotFoundOrForbidden))
    else
      var f := db.files[fileId];
      if f.knowledgeBaseId !in db.knowledgeBases || db.knowledgeBases[f.knowledgeBaseId].userId != userId then
        Step(db, Failure(FileNotFoundOrForbidden))
      else
        Step(db.(files := db.files - {fileId}), Success(f))
  }

  /** `createChunkRecordRaw(data)`: one row with a fresh id; every failure of
      the insert (wrong vector width, missing knowledge base, id taken, or the
      database itself failing) surfaces as the same error. */
  function CreateChunkRecordRaw(db: Db, newId: string, kbId: string, content: string,
                                embedding: seq<real>, storageFails: bool): (r: Step<Chunk>)
    ensures r.result.Failure? ==> r == Step(db, Failure(ChunkInsertFailed))
    ensures r.result.Success? <==>
      !storageFails && |embedding| == EmbeddingDimension && kbId in db.knowledgeBases && newId !in db.chunks
    ensures r.result.Success? ==>
      && r.result.value == Chunk(newId, kbId, content, embedding)
      && r.db == db.(chunks := db.chunks[newId := r.result.value])
    ensures Valid(db) ==> Valid(r.db)
  {
    if storageFails || |embedding| != EmbeddingDimension || kbId !in db.knowledgeBases || newId in db.chunks then
      Step(db, Failure(ChunkInsertFailed))
    else
      var c := Chunk(newId, kbId, content, embedding);
      Step(db.(chunks := db.chunks[newId := c]), Success(c))
  }
}
