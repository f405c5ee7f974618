# ai-chat: retrieval middleware, store and form logic in Dafny

This project models the deterministic core of a retrieval-augmented chat application. Users own chats and knowledge bases. A knowledge base holds uploaded files, and those files are cut into embedded text chunks. When a user asks a question in a chat, a middleware rewrites the outgoing language-model request. It appends the chunks of the chat's knowledge bases that lie nearest to an embedded hypothetical answer.

Modules:

- `RagMiddleware` (rag_middleware.dfy) models `ragMiddleware.transformParams` as a pure function. The session flag and the request parameters are inputs. The classifier, the knowledge-base lookup, the answer generator, the embedder and the similarity search are given as an `Oracles` record of total functions, where `None` means the call threw. The result also records the external calls made, with their arguments, so "what was classified, what was searched" can be stated.
- `Store` (store.dfy) models the create and delete operations of lib/db.ts over an in-memory store of maps. It also states the invariants they keep: records are stored under their own ids, and foreign keys resolve.
- `ChunkSearch` (chunk_search.dfy) models `searchRelevantChunks`. The specification is a predicate: closest first, cut at the limit, and nothing left out strictly closer. A method computes one of the results the predicate admits.
- `Markdown` (markdown.dfy) models the `code` renderer's `/language-(\w+)/` match, the block or inline decision, and the `React.memo` comparator.
- `NewChatPage` and `NewKnowledgePage` (new_chat_page.dfy, new_knowledge_page.dfy) model the selection toggle, the submit guards, the file list edits, the upload response handling and the progress-polling rule.
- `JsText` (js_text.dfy) models JavaScript's `trim` and `join`, and `split` as the inverse of `join`. `Wrappers` (wrappers.dfy) defines `Option` and `Result`.

Notes on the code:

- On the non-user and non-question paths, `transformParams` pushes the last message onto `params.prompt` and returns `params`. The returned prompt therefore ends with that message twice. See Findings.
- `searchRelevantChunks` with an empty id list throws, because `Prisma.join([])` rejects an empty list. The middleware never calls it that way, because it returns early when the chat has no knowledge bases.
- The search orders rows only by distance. Rows at equal distance come back in an unspecified order.

## Model

| member | source | states |
|---|---|---|
| `RagMiddleware.TransformParams` | ai/ragMiddleware.ts:35-127 | Without a session, without `{files:{id}}` metadata, or with an empty prompt, the request comes back unchanged and nothing is called. A last message not from the user comes back appended once more, and nothing is called. |
| `RagMiddleware.TransformParamsIntended` | ai/ragMiddleware.ts:70-74 | In the corrected middleware, a call that throws yields the original request. The request changes only by the rewrite, after exactly five calls that all returned, and the result is the rewrite with the searched chunks. |
| `RagMiddleware.NonUserDuplicatesLast` | ai/ragMiddleware.ts:50-57 | If the last message's role is not `user`, the returned prompt is the input followed by one extra copy of that message, and no call is made. |
| `RagMiddleware.NonQuestionDuplicatesLast` | ai/ragMiddleware.ts:63-74 | A verdict other than `question` makes the prompt the input plus the last message again. Only the classification call is made. |
| `RagMiddleware.NoKnowledgeBasesPassThrough` | ai/ragMiddleware.ts:76-79 | A question in a chat with no linked knowledge bases returns the request unchanged. Only the classification and the lookup are called: no generation, embedding or search. |
| `RagMiddleware.CallArguments` | ai/ragMiddleware.ts:58-98 | The classifier and the generator receive the newline-join of the last message's text parts. The lookup receives the chat id. The embedder receives the generated answer, not the question. The search receives exactly the chat's knowledge-base ids, the answer's embedding, and limit 5. |
| `RagMiddleware.FailureFallsBack` | ai/ragMiddleware.ts:47-126 | If any call made threw, the original request comes back. Otherwise the request changes only in two ways. It comes back with its last message pushed again, when that message is not from the user or the verdict is not `question`. Or it is rewritten, after five calls that all returned. |
| `RagMiddleware.RetrieveOnSuccess` | ai/ragMiddleware.ts:76-122 | When the chat has knowledge bases and the generation, embedding and search all return, retrieval makes four calls and yields the rewrite of the request with the searched chunks. |
| `RagMiddleware.RewriteOnSuccess` | ai/ragMiddleware.ts:93-122 | When every call returns and the chat has knowledge bases, the result is the rewrite of the request with the search's chunks, after five calls. |
| `RagMiddleware.RewriteShape` | ai/ragMiddleware.ts:100-116 | The rewrite keeps every earlier message in place. The last message becomes a `user` message holding its original parts, the fixed "Here is some relevant information…" line, and one text part per chunk in search order. |
| `RagMiddleware.Rewrite` | ai/ragMiddleware.ts:100-122 | The rewritten prompt is as long as the input. The input format becomes `messages`, and the metadata is kept. |
| `RagMiddleware.Echo` | ai/ragMiddleware.ts:52-56 | With the push, the prompt keeps every message in place and gains one more copy of its last message. Without it, the request is unchanged. Input format and metadata are kept either way. |
| `RagMiddleware.Retrieve` | ai/ragMiddleware.ts:76-122 | From the lookup on, each call gets the arguments the code gives it. A chat without knowledge bases stops after the lookup. The request changes only after four calls that all returned, and then it is the rewrite with the searched chunks. |
| `RagMiddleware.IntendedDiffersOnlyByDuplicate` | ai/ragMiddleware.ts:52-74 | The as-written and the corrected middleware make the same calls. Their results differ only where the as-written one returns the prompt with its last message appended again. |
| `RagMiddleware.DuplicateCounterexample` | ai/ragMiddleware.ts:52-56 | For a one-message prompt whose message is from the assistant, the code returns a two-message prompt. The corrected version returns the request unchanged. |
| `RagMiddleware.ChatIdRoundTrip` | ai/ragMiddleware.ts:26-45 | Metadata `{files:{id}}`, with any other keys beside it, yields the id. Absent metadata, a missing `files` key, or a non-object `files` yields none. |
| `RagMiddleware.ChatIdOf` | ai/ragMiddleware.ts:26-45 | A chat id is found only when the metadata is an object whose `files` entry is an object holding the id as a string. |
| `RagMiddleware.TextsOf` | ai/ragMiddleware.ts:58-60 | A string is among the texts taken from a message exactly when the message has a text part with that string. |
| `RagMiddleware.TextsOfAppend` | ai/ragMiddleware.ts:58-60 | The filter-then-map keeps order and multiplicity. The texts of a concatenation are the texts of each side, in order. A text part contributes its text, and any other part contributes nothing. |
| `RagMiddleware.QueryTextSplits` | ai/ragMiddleware.ts:58-61 | When no text part holds a newline, splitting the joined text on newlines gives back the message's texts in order. A message without text parts gives "", which splits to one empty string. |
| `RagMiddleware.QueryTextRecoversParts` | ai/ragMiddleware.ts:58-61 | For a message of text parts without newlines, splitting the classifier's input on newlines gives back exactly those texts. |
| `RagMiddleware.ChunkParts` | ai/ragMiddleware.ts:110-113 | There is one text part per retrieved chunk, carrying its content, in order. |
| `RagMiddleware.KnowledgeBaseIds` | ai/ragMiddleware.ts:78 | The ids are the linked knowledge-base ids, one per link, in order. |
| `JsText.SplitJoinRoundTrip` | ai/ragMiddleware.ts:58-61 | Joining parts with a separator character and splitting on it gives the parts back, when no part contains that character. |
| `JsText.Join` | ai/ragMiddleware.ts:61 | Joining no parts gives "". Otherwise the result starts with the first part and ends with the last. `SplitJoinRoundTrip` is its inverse. |
| `JsText.Trim` | app/home/chat/new/page.tsx:58 | The trimmed title is empty exactly when every character is JavaScript whitespace, and a non-empty result neither starts nor ends with whitespace. |
| `JsText.TrimIsInfix` | app/home/chat/new/page.tsx:58 | Cutting whitespace off the front and then off the back leaves the infix of the title at the first cut, with only whitespace on either side of it. |
| `Store.CreateChat` | lib/db.ts:73-105 | An unknown user fails with "does not exist" and the store is unchanged. Otherwise the call succeeds iff the id is free and every id in the list names a knowledge base. On success it adds one chat and exactly one link per listed id, in order (none for an empty list). |
| `Store.CreateChatKeepsValid` | lib/db.ts:73-105 | Creating a chat keeps every foreign key of the store resolving. |
| `Store.LinksFor` | lib/db.ts:88-94 | The link rows pair the new chat with each requested knowledge base, one per id, in order. |
| `Store.DeleteChat` | lib/db.ts:109-121 | The call succeeds iff the chat exists and belongs to the caller. Otherwise it fails with "not found or forbidden" and the store is unchanged. On success exactly that chat is removed, and nothing else changes. |
| `Store.KnowledgeBasesOfChat` | lib/db.ts:124-131 | The result holds exactly the links whose chat id matches, each as often as it is stored, and no others. |
| `Store.GetKnowledgeBasesByChatId` | lib/db.ts:124-131 | A link is returned iff it is stored with the given chat id. |
| `Store.CreateMessage` | lib/db.ts:134-152 | An unknown chat fails with "not found" and the store is unchanged. Otherwise the call adds one message with the given chat id, role and content, and keeps foreign keys resolving. |
| `Store.CreateKnowledgeBase` | lib/db.ts:187-195 | On success it adds one knowledge base owned by the user, whose title equals its name. It fails, with no change, if the user is unknown or the id is taken. |
| `Store.DeleteKnowledgeBase` | lib/db.ts:198-214 | The call succeeds iff the knowledge base exists and belongs to the caller. Otherwise it fails and the store is unchanged. On success exactly that knowledge base is removed. |
| `Store.CreateFileRecord` | lib/db.ts:217-235 | On success it adds one file connected to the given knowledge base. It fails, with no change, when that knowledge base is missing or the id is taken. |
| `Store.DeleteFileRecord` | lib/db.ts:238-255 | Authorisation goes against the owner of the file's parent knowledge base. An absent file or a different owner fails with no change. Otherwise exactly that file is removed. |
| `Store.CreateChunkRecordRaw` | lib/db.ts:269-286 | Success requires an embedding of exactly 1536 values, an existing knowledge base, a free id, and a working database. Every failure is the one generic error with the store unchanged. On success one chunk with the new id is added. |
| `ChunkSearch.SearchRelevantChunks` | lib/db.ts:288-304 | An empty id list throws. Otherwise the rows come only from the given knowledge bases, are at most `limit` and exactly min(limit, candidates) in number, have no repeats, and are sorted by distance ascending. No candidate left out is strictly closer than a row returned. |
| `ChunkSearch.TakeNearest` | lib/db.ts:298-302 | `ORDER BY … ASC LIMIT` over a candidate set yields a result satisfying the nearest-first specification. |
| `ChunkSearch.Closest` | lib/db.ts:301 | The chosen row is in the pool and no row of the pool is closer. |
| `ChunkSearch.Candidates` | lib/db.ts:298-300 | Every candidate row comes from a stored chunk and belongs to a listed knowledge base. Every stored chunk of a listed knowledge base is a candidate. |
| `ChunkSearch.NearestFirstTakesAll` | lib/db.ts:301-302 | With a limit at least the number of candidates, the nearest-first result returns every candidate. |
| `Markdown.LanguageOf` | components/markdown.tsx:20 | A language is found iff the class name (absent counts as "") contains `language-` followed by a word character. The captured language starts at the leftmost such occurrence, is non-empty, consists of word characters, and is not followed by one. |
| `Markdown.FirstMatch` | components/markdown.tsx:20 | The match found is the leftmost position where the pattern matches. If none is found, the pattern matches nowhere. |
| `Markdown.WordRunLength` | components/markdown.tsx:20 | The greedy `\w+` consumes word characters only and stops at the end or at a non-word character. |
| `Markdown.LanguageOfPrefixed` | components/markdown.tsx:20 | The class name `language-<lang>`, followed by nothing or by a non-word character, captures exactly `<lang>`. |
| `Markdown.RenderCode` | components/markdown.tsx:14-39 | A `<pre>` block is rendered iff the element is not inline and a language was found. The inner code class is the captured language. The element keeps its own class name, printed as "undefined" when absent. A block gets the block classes and inline code the inline classes, in the dark set iff the mode is `dark`, so an absent mode renders light. |
| `Markdown.ClassText` | components/markdown.tsx:24-26 | The class attribute is the element's own class name, a space, then the classes of its styling. |
| `Markdown.ClassTextInjective` | components/markdown.tsx:24-34 | The four class sets (block or inline, light or dark) give different class text for the same element. |
| `Markdown.SamePropsIsEquivalence` | components/markdown.tsx:108-113 | The memo comparator is reflexive, symmetric and transitive, and holds iff `children` and `mode` are both equal. |
| `Markdown.SameProps` | components/markdown.tsx:110-112 | The comparator holds exactly when the two props are equal. |
| `Markdown.SamePropsSound` | components/markdown.tsx:9-14 | Props the comparator calls equal render code alike. An absent mode and an explicit `light` render alike but compare unequal. |
| `NewChatPage.ToggleKbSelection` | app/home/chat/new/page.tsx:47-51 | Membership of the toggled id flips, and membership of every other id is unchanged. Selecting appends the id at the end. Deselecting removes every occurrence of it and keeps every other element with its multiplicity. |
| `NewChatPage.RemoveAll` | app/home/chat/new/page.tsx:49 | The filter removes every occurrence of the id and keeps every other element with its multiplicity. |
| `NewChatPage.RemoveAllKeepsOrder` | app/home/chat/new/page.tsx:49 | The filtered selection is a subsequence of the original. |
| `NewChatPage.ToggleKeepsOrder` | app/home/chat/new/page.tsx:47-51 | Deselecting keeps the remaining ids in their original order. |
| `NewChatPage.ToggleKeepsDistinct` | app/home/chat/new/page.tsx:47-51 | A duplicate-free selection stays duplicate-free, whether the id is added or removed. |
| `NewChatPage.ToggleTwiceRestores` | app/home/chat/new/page.tsx:49 | Toggling an id twice, starting from a selection without it, gives back the original selection exactly. |
| `NewChatPage.HandleSubmit` | app/home/chat/new/page.tsx:53-73 | The request is sent iff a non-empty user id is present and the title has a non-whitespace character. The title is sent as typed, and the selection as is, even when empty. |
| `NewKnowledgePage.HandleFileChange` | app/home/knowledge/new/page.tsx:28-33 | A new file choice replaces the whole list and clears the error. An event without files changes nothing. |
| `NewKnowledgePage.RemoveFileAt` | app/home/knowledge/new/page.tsx:182-186 | Removing index i of a list drops exactly element i and keeps the rest in order, one shorter. An index past the end changes nothing. |
| `NewKnowledgePage.HandleSubmit` | app/home/knowledge/new/page.tsx:35-58 | A missing user id or a blank title gives the "not logged in or empty title" error, whatever the files. Otherwise an empty file list gives the "select at least one file" error. The upload of the title and the files goes out iff both checks pass. |
| `NewKnowledgePage.AfterUpload` | app/home/knowledge/new/page.tsx:58-74 | Polling starts iff the upload was accepted, with its task id. A refused upload's text, or a thrown error's message or the generic message, becomes the error. Loading ends either way. |
| `NewKnowledgePage.Poll` | app/home/knowledge/new/page.tsx:79-102 | A poll reschedules iff the snapshot's percentage is below 100. At 100 or more, loading stops, and navigation to the list happens iff the error list is empty. A non-ok or failed request stops polling and changes nothing. |
| `NewKnowledgePage.Requests` | app/home/knowledge/new/page.tsx:78-104 | Given the server's successive answers, every request before the last was answered below 100 percent. Polling stops at the first other answer. |

## Findings

| source | as written | input that shows it | evidently intended | confidence | as-written member | corrected member |
|---|---|---|---|---|---|---|
| ai/ragMiddleware.ts:52-74 | `messages.push(recentMessage)` runs on the non-user and non-question paths. `messages` is `params.prompt`, so the returned prompt ends with its last message twice. | session present, metadata `{files:{id:"c1"}}`, prompt `[assistant "hi"]`: the returned prompt has two messages | forward the request unchanged, as the comment at line 70 says | medium, not executed | `RagMiddleware.TransformParams` (exhibited by `RagMiddleware.DuplicateCounterexample`) | `RagMiddleware.TransformParamsIntended` |

## Left out

- The session check: `auth()` becomes a boolean input. An exception thrown by `auth()` (line 37, outside the try block) is not modelled.
- The language-model and embedding calls (`generateObject`, `generateText`, `embed`) and the database reads behind the middleware are oracle parameters. Their content is not modelled, only whether they threw.
- Request fields other than `prompt`, `providerMetadata` and `inputFormat` are spread through unchanged by the code. The model's `Params` omits them.
- Logging (`console.error`, `console.log`) has no observable effect here and is left out.
- Cascading deletes of messages, links, files and chunks are attributed to the database schema, which is not part of this model. The deletes remove only the named row. Referential integrity (`Valid`) is therefore proved for the create operations only. `WellKeyed` is proved for every operation.
- Prisma's own failures (a taken id, or a nested `connect` to a missing row) collapse into one `WriteRejected` error, and the order in which Prisma checks them is not modelled. A unique constraint on chat–knowledge-base pairs would belong to the schema and is not modelled. Transport failures are modelled only for `createChunkRecordRaw`, whose code wraps them.
- The foreign key from a chunk to its knowledge base is assumed in `Store.CreateChunkRecordRaw`, since the schema is not part of this model.
- Timestamps (`createdAt`, `NOW()`) and the `orderBy createdAt` of the list queries depend on the clock and are left out.
- The read-only queries `getUserChats`, `getChatById`, `getUserKnowledgeBases`, `getKnowledgeBaseById` and `getFilesByKnowledgeBaseId`, and the user operations `createUser`, `getUserFromDb` and `findUserById`, are outside the modelled core.
- pgvector's cosine distance on floating-point vectors is replaced by an abstract integer distance function. Ties are left unordered.
- ChunkSearch.SearchRelevantChunks: counts result rows as distinct hits (id, content, knowledge base, distance). Two stored chunks could collapse into one hit only by sharing an id, which the primary key rules out, and which `WellKeyed` rules out in the model.
- The ingestion pipeline (app/(chat)/api/knowledge/route.ts: parsing, chunking, batch embedding, progress tasks) is not part of this model.
- React rendering, routing, `fetch` and `setTimeout` plumbing are left out. So are the Markdown list, emphasis, link and paragraph renderers, which only pick colours by `isDark`.
- File sizes formatted with `toFixed` (floating point) are left out.
- NewKnowledgePage.Poll: takes the snapshot's fields as well-typed. In the code, a missing `percentage` compares as not below 100, so polling ends; loading stops and navigation depends on `errors`. A missing `errors` there makes `.length` throw inside the try block. Neither case is modelled.
