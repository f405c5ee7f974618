/**
 * `ragMiddleware.transformParams` (ai/ragMiddleware.ts): rewrites the last
 * user message of an outgoing language-model request by appending text
 * retrieved from the chat's knowledge bases.
 *
 * The session check, the three model calls (classification, hypothetical
 * answer, embedding) and the two database reads are inputs: `session` is
 * whether `auth()` returned a session, and `Oracles` gives each external
 * call's answer, `None` standing for a call that threw. The result records,
 * besides the new request, the external calls made, in order.
 */
module RagMiddleware {
  import opened Wrappers
  import opened JsText
  import Store

  datatype Role = System | User | Assistant | Tool

  /** A content part of a prompt message; only text parts reach retrieval. */
  datatype Part = TextPart(text: string) | OtherPart(kind: string)

  datatype Message = Message(role: Role, content: seq<Part>)

  /** A JSON value, enough to describe `providerMetadata`. */
  datatype Json =
    | JNull
    | JBool(b: bool)
    | JNum(n: int)
    | JStr(s: string)
    | JArr(items: seq<Json>)
    | JObj(fields: map<string, Json>)

  datatype InputFormat = PromptFormat | MessagesFormat

  /** The fields of the call parameters the middleware reads or writes. */
  datatype Params = Params(inputFormat: InputFormat, prompt: seq<Message>, providerMetadata: Option<Json>)

  /** The classifier's enum output. */
  datatype Verdict = Question | Statement | Other

  /** A row returned by the similarity search (the `KnowledgeChunk` interface). */
  datatype KnowledgeChunk = KnowledgeChunk(id: string, content: string, knowledgeBaseId: string, similarity: int)

  /** What each external call answers; `None` means the call threw. */
  datatype Oracles = Oracles(
    classify: string -> Option<Verdict>,
    knowledgeBasesOf: string -> Option<seq<Store.ChatKnowledgeBase>>,
    generate: string -> Option<string>,
    embed: string -> Option<seq<real>>,
    search: (seq<string>, seq<real>, nat) -> Option<seq<KnowledgeChunk>>)

  /** An external call, with the arguments it was made with. */
  datatype Call =
    | Classify(text: string)
    | LookupKnowledgeBases(chatId: string)
    | Generate(prompt: string)
    | Embed(value: string)
    | Search(kbIds: seq<string>, query: seq<real>, limit: nat)

  datatype Transformed = Transformed(params: Params, calls: seq<Call>)

  const RelevantInfoLine := "Here is some relevant information that you can use to answer the question:"
  const SearchLimit: nat := 5

  /** `idSchema.safeParse(providerMetadata)`: `{ files: { id: string } }`,
      extra keys allowed; the chat id on success. */
  function ChatIdOf(meta: Option<Json>): (r: Option<string>)
    ensures r.Some? ==>
      && meta.Some? && meta.value.JObj? && "files" in meta.value.fields
      && meta.value.fields["files"].JObj? && "id" in meta.value.fields["files"].fields
      && meta.value.fields["files"].fields["id"] == JStr(r.value)
  {
    match meta
    case Some(JObj(fields)) =>
      if "files" in fields && fields["files"].JObj? && "id" in fields["files"].fields
         && fields["files"].fields["id"].JStr?
      then Some(fields["files"].fields["id"].s)
      else None
    case _ => None
  }

  /** The texts of the text parts, in order. */
  function TextsOf(content: seq<Part>): (texts: seq<string>)
    ensures |texts| <= |content|
    ensures forall t :: t in texts <==> TextPart(t) in content
  {
    if |content| == 0 then []
    else
      var rest := TextsOf(content[1..]);
      assert content == [content[0]] + content[1..];
      if content[0].TextPart? then [content[0].text] + rest else rest
  }

  /** `filter` then `map` distribute over concatenation: the texts of a
      concatenation are the texts of each side, in order; a text part
      contributes its text and any other part nothing. */
  lemma {:induction false} TextsOfAppend(a: seq<Part>, b: seq<Part>)
    ensures TextsOf(a + b) == TextsOf(a) + TextsOf(b)
    ensures forall t :: TextsOf([TextPart(t)]) == [t]
    ensures forall k :: TextsOf([OtherPart(k)]) == []
    decreases |a|
  {
    if |a| == 0 {
      assert a + b == b;
    } else {
      assert (a + b)[0] == a[0];
      assert (a + b)[1..] == a[1..] + b;
      TextsOfAppend(a[1..], b);
    }
  }

  /** The classifier's and generator's input: the text parts joined by newlines. */
  function QueryText(m: Message): string {
    Join(TextsOf(m.content), "\n")
  }

  /** When no text part holds a newline, splitting the joined text on newlines
      gives back the texts in order; a message without text parts gives "",
      which splits to [""]. */
  lemma QueryTextSplits(m: Message)
    requires forall k :: 0 <= k < |TextsOf(m.content)| ==> '\n' !in TextsOf(m.content)[k]
    ensures Split(QueryText(m), '\n') == (if TextsOf(m.content) == [] then [""] else TextsOf(m.content))
  {
    if TextsOf(m.content) != [] {
      SplitJoinRoundTrip(TextsOf(m.content), '\n');
    }
  }

  /** One text part per retrieved chunk, in search order. */
  function ChunkParts(chunks: seq<KnowledgeChunk>): (parts: seq<Part>)
    ensures |parts| == |chunks|
    ensures forall i :: 0 <= i < |chunks| ==> parts[i] == TextPart(chunks[i].content)
  {
    if |chunks| == 0 then [] else [TextPart(chunks[0].content)] + ChunkParts(chunks[1..])
  }

  /** The request whose last message is replaced by the augmented user message. */
  function Rewrite(params: Params, chunks: seq<KnowledgeChunk>): (r: Params)
    requires |params.prompt| > 0
    ensures |r.prompt| == |params.prompt|
    ensures r.inputFormat == MessagesFormat && r.providerMetadata == params.providerMetadata
  {
    var n := |params.prompt|;
    var recent := params.prompt[n - 1];
    params.(prompt := params.prompt[..n - 1]
                      + [Message(User, recent.content + [TextPart(RelevantInfoLine)] + ChunkParts(chunks))],
            inputFormat := MessagesFormat)
  }

  /** The rewrite keeps every message before the last in place; the last
      becomes a user message holding its old parts, the fixed line, and one
      text part per chunk in search order. */
  lemma RewriteShape(params: Params, chunks: seq<KnowledgeChunk>)
    requires |params.prompt| > 0
    ensures var r := Rewrite(params, chunks);
      var n := |params.prompt|;
      var before := params.prompt[n - 1].content;
      var after := r.prompt[n - 1];
      && (forall i :: 0 <= i < n - 1 ==> r.prompt[i] == params.prompt[i])
      && after.role == User
      && after.content == before + [TextPart(RelevantInfoLine)] + ChunkParts(chunks)
      && |after.content| == |before| + 1 + |chunks|
      && (forall i :: 0 <= i < |chunks| ==> after.content[|before| + 1 + i] == TextPart(chunks[i].content))
  {
    var r := Rewrite(params, chunks);
    var n := |params.prompt|;
    assert forall i :: 0 <= i < n - 1 ==> r.prompt[i] == r.prompt[..n - 1][i];
  }

  /** The request returned on the paths that `push` the last message onto
      `params.prompt` before returning `params` (lines 54 and 72); with
      `duplicate` false, the request returned unchanged. */
  function Echo(params: Params, duplicate: bool): (r: Params)
    requires |params.prompt| > 0
    ensures r.inputFormat == params.inputFormat && r.providerMetadata == params.providerMetadata
    ensures !duplicate ==> r == params
    ensures duplicate ==>
      && |r.prompt| == |params.prompt| + 1
      && r.prompt[..|params.prompt|] == params.prompt
      && r.prompt[|params.prompt|] == params.prompt[|params.prompt| - 1]
  {
    if duplicate then params.(prompt := params.prompt + [params.prompt[|params.prompt| - 1]]) else params
  }

  /** The middleware, with `duplicate` choosing whether the `push` of the last
      message on the non-user and non-question paths takes effect. */
  function Transform(session: bool, params: Params, o: Oracles, duplicate: bool): Transformed
  {
    if !session then Transformed(params, [])
    else match ChatIdOf(params.providerMetadata)
      case None => Transformed(params, [])
      case Some(chatId) =>
        if |params.prompt| == 0 then Transformed(params, [])
        else
          var recent := params.prompt[|params.prompt| - 1];
          if recent.role != User then Transformed(Echo(params, duplicate), [])
          else
            var text := QueryText(recent);
            match o.classify(text)
            case None => Transformed(params, [Classify(text)])
            case Some(verdict) =>
              if verdict != Question then Transformed(Echo(params, duplicate), [Classify(text)])
              else
                var rest := Retrieve(params, o, chatId, text);
                Transformed(rest.params, [Classify(text)] + rest.calls)
  }

  /** Steps 2-4 of the middleware, for a question: look up the chat's
      knowledge bases, embed a generated answer, search, and rewrite. */
  function Retrieve(params: Params, o: Oracles, chatId: string, text: string): (r: Transformed)
    requires |params.prompt| > 0
    ensures 1 <= |r.calls| <= 4 && r.calls[0] == LookupKnowledgeBases(chatId)
    ensures forall k :: 0 <= k < |r.calls| ==> Expected(o, chatId, text, k + 1, r.calls[k])
    ensures o.knowledgeBasesOf(chatId) == Some([]) ==> r == Transformed(params, [LookupKnowledgeBases(chatId)])
    ensures r.params == params
            || (&& |r.calls| == 4
                && (forall k :: 0 <= k < 4 ==> Answered(o, r.calls[k]))
                && r.calls[3].Search?
                && r.params == Rewrite(params, o.search(r.calls[3].kbIds, r.calls[3].query, r.calls[3].limit).value))
  {
    var c1 := [LookupKnowledgeBases(chatId)];
    match o.knowledgeBasesOf(chatId)
    case None => Transformed(params, c1)
    case Some(links) =>
      var kbIds := KnowledgeBaseIds(links);
      if |kbIds| == 0 then Transformed(params, c1)
      else
        var c2 := c1 + [Generate(text)];
        match o.generate(text)
        case None => Transformed(params, c2)
        case Some(answer) =>
          var c3 := c2 + [Embed(answer)];
          match o.embed(answer)
          case None => Transformed(params, c3)
          case Some(vector) =>
            var c4 := c3 + [Search(kbIds, vector, SearchLimit)];
            match o.search(kbIds, vector, SearchLimit)
            case None => Transformed(params, c4)
            case Some(chunks) => Transformed(Rewrite(params, chunks), c4)
  }

  /** `knowledgeBases.map((kb) => kb.knowledgeBase.id)`. */
  function KnowledgeBaseIds(links: seq<Store.ChatKnowledgeBase>): (ids: seq<string>)
    ensures |ids| == |links|
    ensures forall i :: 0 <= i < |links| ==> ids[i] == links[i].knowledgeBaseId
  {
    if |links| == 0 then [] else [links[0].knowledgeBaseId] + KnowledgeBaseIds(links[1..])
  }

  /** The request reaches the classification step's guards: a session, chat
      metadata of the right shape, and a non-empty prompt. */
  predicate Engaged(session: bool, params: Params) {
    session && ChatIdOf(params.providerMetadata).Some? && |params.prompt| > 0
  }

  function Last(params: Params): Message
    requires |params.prompt| > 0
  {
    params.prompt[|params.prompt| - 1]
  }

  /** The external call returned (did not throw) when made. */
  predicate Answered(o: Oracles, c: Call) {
    match c
    case Classify(t) => o.classify(t).Some?
    case LookupKnowledgeBases(id) => o.knowledgeBasesOf(id).Some?
    case Generate(t) => o.generate(t).Some?
    case Embed(t) => o.embed(t).Some?
    case Search(ids, v, n) => o.search(ids, v, n).Some?
  }

  /** The call at position k of the trace has the arguments the code gives
      it: the joined text to the classifier and the generator, the chat id to
      the lookup, the generated answer to the embedder, and the chat's
      knowledge base ids, the answer's embedding and limit 5 to the search. */
  predicate Expected(o: Oracles, chatId: string, text: string, k: nat, c: Call) {
    match c
    case Classify(t) => k == 0 && t == text
    case LookupKnowledgeBases(id) => k == 1 && id == chatId
    case Generate(t) => k == 2 && t == text
    case Embed(a) => k == 3 && o.generate(text) == Some(a)
    case Search(ids, v, n) =>
      && k == 4
      && o.knowledgeBasesOf(chatId).Some? && ids == KnowledgeBaseIds(o.knowledgeBasesOf(chatId).value)
      && o.generate(text).Some? && o.embed(o.generate(text).value) == Some(v)
      && n == SearchLimit
  }

  /** `ragMiddleware.transformParams` as written: without a session, chat
      metadata or a prompt the request is returned untouched; a last message
      not from the user comes back twice and nothing is called. */
  function TransformParams(session: bool, params: Params, o: Oracles): (r: Transformed)
    ensures !Engaged(session, params) ==> r == Transformed(params, [])
    ensures Engaged(session, params) && Last(params).role != User ==>
      r == Transformed(params.(prompt := params.prompt + [Last(params)]), [])
  {
    Transform(session, params, o, true)
  }

  /** The middleware as its comment at line 70 describes it: every path other
      than the rewrite forwards the request unchanged. */
  function TransformParamsIntended(session: bool, params: Params, o: Oracles): (r: Transformed)
    ensures (exists k :: 0 <= k < |r.calls| && !Answered(o, r.calls[k])) ==> r.params == params
    ensures r.params != params ==>
      && |params.prompt| > 0
      && |r.calls| == 5
      && (forall k :: 0 <= k < 5 ==> Answered(o, r.calls[k]))
      && r.calls[4].Search?
      && r.params == Rewrite(params, o.search(r.calls[4].kbIds, r.calls[4].query, r.calls[4].limit).value)
  {
    Transform(session, params, o, false)
  }

  /** A last message not written by the user is pushed once more onto the
      prompt and nothing is classified (lines 52-56). */
  lemma NonUserDuplicatesLast(session: bool, params: Params, o: Oracles)
    requires Engaged(session, params) && Last(params).role != User
    ensures var r := TransformParams(session, params, o);
      && r.calls == []
      && |r.params.prompt| == |params.prompt| + 1
      && r.params.prompt[..|params.prompt|] == params.prompt
      && r.params.prompt[|params.prompt|] == Last(params)
  {
  }

  /** A message not classified as a question is pushed once more onto the
      prompt, and no knowledge base lookup, generation or search happens
      (lines 71-74). */
  lemma NonQuestionDuplicatesLast(session: bool, params: Params, o: Oracles)
    requires Engaged(session, params) && Last(params).role == User
    requires o.classify(QueryText(Last(params))).Some?
    requires o.classify(QueryText(Last(params))).value != Question
    ensures var r := TransformParams(session, params, o);
      && r.calls == [Classify(QueryText(Last(params)))]
      && r.params == params.(prompt := params.prompt + [Last(params)])
  {
  }

  /** A question in a chat without knowledge bases is forwarded unchanged and
      nothing is generated or searched (lines 77-79). */
  lemma NoKnowledgeBasesPassThrough(session: bool, params: Params, o: Oracles)
    requires Engaged(session, params) && Last(params).role == User
    requires o.classify(QueryText(Last(params))) == Some(Question)
    requires o.knowledgeBasesOf(ChatIdOf(params.providerMetadata).value) == Some([])
    ensures var r := TransformParams(session, params, o);
      && r.params == params
      && r.calls == [Classify(QueryText(Last(params))), LookupKnowledgeBases(ChatIdOf(params.providerMetadata).value)]
  {
  }

  /** Every external call receives what the code passes it: the joined text
      parts of the last message (classifier, generator), the chat id (lookup),
      the generated answer rather than the question (embedder), and the
      chat's knowledge base ids with the answer's embedding and limit 5
      (search). */
  lemma CallArguments(session: bool, params: Params, o: Oracles)
    requires Engaged(session, params)
    ensures var r := TransformParams(session, params, o);
      forall k :: 0 <= k < |r.calls| ==>
        Expected(o, ChatIdOf(params.providerMetadata).value, QueryText(Last(params)), k, r.calls[k])
  {
  }

  /** A call that throws always yields the original request (lines 123-126).
      Otherwise the request changes only on the paths that push the last
      message again (a last message not from the user, or a verdict other than
      question), or by the rewrite after five calls that all returned. */
  lemma FailureFallsBack(session: bool, params: Params, o: Oracles)
    ensures var r := TransformParams(session, params, o);
      (exists k :: 0 <= k < |r.calls| && !Answered(o, r.calls[k])) ==> r.params == params
    ensures var r := TransformParams(session, params, o);
      r.params != params ==>
        || (&& Engaged(session, params)
            && (|| Last(params).role != User
                || (o.classify(QueryText(Last(params))).Some? && o.classify(QueryText(Last(params))).value != Question))
            && r.params == params.(prompt := params.prompt + [Last(params)]))
        || (&& |r.calls| == 5
            && (forall k :: 0 <= k < 5 ==> Answered(o, r.calls[k]))
            && r.params.inputFormat == MessagesFormat)
  {
    var r := TransformParams(session, params, o);
    if Engaged(session, params) && Last(params).role == User {
      var text := QueryText(Last(params));
      if o.classify(text) == Some(Question) {
        var rest := Retrieve(params, o, ChatIdOf(params.providerMetadata).value, text);
        assert r == Transformed(rest.params, [Classify(text)] + rest.calls);
        assert forall k :: 0 <= k < |rest.calls| ==> r.calls[k + 1] == rest.calls[k];
      }
    }
  }

  /** When every call returns and the chat has knowledge bases, the last
      message is replaced by a user message holding its own parts, the fixed
      line and the retrieved texts in search order; earlier messages are kept
      (lines 100-122). */
  lemma RewriteOnSuccess(session: bool, params: Params, o: Oracles, links: seq<Store.ChatKnowledgeBase>,
                         answer: string, vector: seq<real>, chunks: seq<KnowledgeChunk>)
    requires Engaged(session, params) && Last(params).role == User
    requires o.classify(QueryText(Last(params))) == Some(Question)
    requires o.knowledgeBasesOf(ChatIdOf(params.providerMetadata).value) == Some(links) && |links| > 0
    requires o.generate(QueryText(Last(params))) == Some(answer)
    requires o.embed(answer) == Some(vector)
    requires o.search(KnowledgeBaseIds(links), vector, SearchLimit) == Some(chunks)
    ensures TransformParams(session, params, o).params == Rewrite(params, chunks)
    ensures |TransformParams(session, params, o).calls| == 5
  {
    var text := QueryText(Last(params));
    var chatId := ChatIdOf(params.providerMetadata).value;
    RetrieveOnSuccess(params, o, chatId, text, links, answer, vector, chunks);
    var rest := Retrieve(params, o, chatId, text);
    assert TransformParams(session, params, o) == Transformed(rest.params, [Classify(text)] + rest.calls);
  }

  /** Steps 2-4 with every call answering: four calls, then the rewrite. */
  lemma RetrieveOnSuccess(params: Params, o: Oracles, chatId: string, text: string,
                          links: seq<Store.ChatKnowledgeBase>, answer: string, vector: seq<real>,
                          chunks: seq<KnowledgeChunk>)
    requires |params.prompt| > 0
    requires o.knowledgeBasesOf(chatId) == Some(links) && |links| > 0
    requires o.generate(text) == Some(answer)
    requires o.embed(answer) == Some(vector)
    requires o.search(KnowledgeBaseIds(links), vector, SearchLimit) == Some(chunks)
    ensures Retrieve(params, o, chatId, text).params == Rewrite(params, chunks)
    ensures |Retrieve(params, o, chatId, text).calls| == 4
  {
    assert |KnowledgeBaseIds(links)| > 0;
  }

  /** The two versions make the same calls and differ only where the as-written
      one pushes the last message a second time. */
  lemma IntendedDiffersOnlyByDuplicate(session: bool, params: Params, o: Oracles)
    ensures var w := TransformParams(session, params, o);
      var i := TransformParamsIntended(session, params, o);
      && w.calls == i.calls
      && (w.params == i.params
          || (|params.prompt| > 0 && i.params == params && w.params == params.(prompt := params.prompt + [Last(params)])))
  {
  }

  /** A concrete request on which the code and its comment disagree: an
      assistant message last in the prompt comes back twice. */
  lemma DuplicateCounterexample(o: Oracles)
    ensures var params := Params(PromptFormat, [Message(Assistant, [TextPart("hi")])],
                                 Some(JObj(map["files" := JObj(map["id" := JStr("c1")])])));
      && |TransformParams(true, params, o).params.prompt| == 2
      && TransformParamsIntended(true, params, o).params == params
  {
  }

  /** Metadata of the shape `{ files: { id } }`, with any other keys beside,
      yields the id; metadata without it yields none. */
  lemma ChatIdRoundTrip(id: string, outer: map<string, Json>, inner: map<string, Json>)
    ensures ChatIdOf(Some(JObj(outer["files" := JObj(inner["id" := JStr(id)])]))) == Some(id)
    ensures ChatIdOf(None) == None
    ensures "files" !in outer ==> ChatIdOf(Some(JObj(outer))) == None
    ensures ChatIdOf(Some(JObj(outer["files" := JStr(id)]))) == None
  {
  }

  /** A message of plain text parts sends exactly those texts, recoverable by
      splitting on newlines when none of them holds one. */
  lemma QueryTextRecoversParts(m: Message, texts: seq<string>)
    requires |m.content| == |texts| > 0
    requires forall i :: 0 <= i < |texts| ==> m.content[i] == TextPart(texts[i]) && '\n' !in texts[i]
    ensures Split(QueryText(m), '\n') == texts
  {
    TextsOfAllText(m.content, texts);
    SplitJoinRoundTrip(texts, '\n');
  }

  lemma {:induction false} TextsOfAllText(content: seq<Part>, texts: seq<string>)
    requires |content| == |texts|
    requires forall i :: 0 <= i < |texts| ==> content[i] == TextPart(texts[i])
    ensures TextsOf(content) == texts
    decreases |content|
  {
    if |content| > 0 {
      TextsOfAllText(content[1..], texts[1..]);
      assert texts == [texts[0]] + texts[1..];
    }
  }
}
