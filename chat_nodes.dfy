/** `agents/chat/nodes.py`: the two nodes of the retrieval-augmented chat
    graph. `retrieve_context` asks the video's vector collection for the
    five passages nearest the latest message and falls back to no context
    on every failure; `generate_response` puts a system prompt holding that
    context before the conversation and asks the chat model for one reply. */
module ChatNodes {
  import opened Models
  import opened Text

  /** A conversation message, by role. */
  datatype ChatMessage = HumanMsg(content: string) | AiMsg(content: string) | SystemMsg(content: string)

  /** `collection.query(query_embeddings=[embed_query(text)], n_results=n)`
      on collection `collection`; the embedding is a function of the text. */
  datatype QueryRequest = QueryRequest(collection: string, queryText: string, nResults: nat)

  /** The result of a query: it raises, or returns a result whose
      `documents` entry may be missing (`None`), one list per query
      embedding. */
  datatype QueryOutcome = QueryFailed | QueryResult(documents: Option<seq<seq<string>>>)

  /** The vector database as the node sees it: the names of its collections
      and its answer to each query. */
  datatype VectorDb = VectorDb(collections: set<string>, query: QueryRequest -> QueryOutcome)

  const RetrievalCount: nat := 5

  function CollectionName(videoId: string): string
  {
    "video_" + videoId
  }

  /** `retrieve_context`: `videoId` is the `video_id` entry of the run's
      configurable settings, if any. */
  function RetrieveContext(messages: seq<ChatMessage>, videoId: Option<string>, db: VectorDb): seq<string>
  {
    if |messages| == 0 then []
    else if videoId.None? || videoId.value == "" then []
    else if CollectionName(videoId.value) !in db.collections then []
    else match db.query(QueryRequest(CollectionName(videoId.value), messages[|messages| - 1].content, RetrievalCount))
      case QueryFailed => []
      case QueryResult(documents) =>
        if documents.Some? && |documents.value| > 0 then documents.value[0] else []
  }

  /** Context is found only for a non-empty conversation of a named video
      whose collection exists, and then it is the first document list of
      the one query made: the latest message's text, five results, on
      `video_<id>`. Earlier messages play no part. */
  lemma RetrieveContextRule(messages: seq<ChatMessage>, videoId: Option<string>, db: VectorDb)
    ensures RetrieveContext(messages, videoId, db) != [] ==>
      && |messages| > 0 && videoId.Some? && videoId.value != ""
      && CollectionName(videoId.value) in db.collections
      && var q := db.query(QueryRequest(CollectionName(videoId.value), messages[|messages| - 1].content, 5));
         q.QueryResult? && q.documents.Some? && |q.documents.value| > 0
         && RetrieveContext(messages, videoId, db) == q.documents.value[0]
    ensures forall earlier: seq<ChatMessage> :: |messages| > 0 ==>
      RetrieveContext(earlier + messages, videoId, db) == RetrieveContext(messages, videoId, db)
  {
    forall earlier: seq<ChatMessage> | |messages| > 0
      ensures RetrieveContext(earlier + messages, videoId, db) == RetrieveContext(messages, videoId, db)
    {
      assert (earlier + messages)[|earlier + messages| - 1] == messages[|messages| - 1];
    }
  }

  const PromptHead := "You are a helpful educational assistant. \n"
    + "    Answer the user's question based on the following context derived from a video transcript.\n"
    + "    If the answer is not in the context, say you don't know based on the video.\n"
    + "    \n"
    + "    Context:\n"
    + "    "
  const PromptTail := "\n    "

  /** The system prompt around the joined context. */
  function SystemPrompt(contextText: string): string
  {
    PromptHead + contextText + PromptTail
  }

  /** The context text inside a system prompt. */
  function PromptContext(prompt: string): Option<string>
  {
    if |prompt| >= |PromptHead| + |PromptTail| && prompt[..|PromptHead|] == PromptHead
       && prompt[|prompt| - |PromptTail|..] == PromptTail
    then Some(prompt[|PromptHead|..|prompt| - |PromptTail|])
    else None
  }

  /** The prompt carries the passages intact: they are read back as the
      "\n\n"-joined context, in retrieval order. */
  lemma SystemPromptRoundTrip(context: seq<string>)
    ensures PromptContext(SystemPrompt(Join(context, "\n\n"))) == Some(Join(context, "\n\n"))
  {
    var c := Join(context, "\n\n");
    var p := SystemPrompt(c);
    assert p[..|PromptHead|] == PromptHead;
    assert p[|p| - |PromptTail|..] == PromptTail;
    assert p[|PromptHead|..|p| - |PromptTail|] == c;
  }

  /** The messages the chat model is given. */
  function PromptMessages(messages: seq<ChatMessage>, context: seq<string>): seq<ChatMessage>
  {
    [SystemMsg(SystemPrompt(Join(context, "\n\n")))] + messages
  }

  /** `generate_response`: the chat model's reply to the prompt messages,
      returned as the one new message of the step. */
  function GenerateResponse(messages: seq<ChatMessage>, context: seq<string>, llm: seq<ChatMessage> -> string): (r: seq<ChatMessage>)
    ensures |r| == 1 && r[0].AiMsg?
  {
    [AiMsg(llm(PromptMessages(messages, context)))]
  }

  /** The model sees the system prompt first and then the whole
      conversation, unchanged and in order. */
  lemma PromptMessagesRule(messages: seq<ChatMessage>, context: seq<string>)
    ensures |PromptMessages(messages, context)| == |messages| + 1
    ensures PromptMessages(messages, context)[0].SystemMsg?
    ensures PromptContext(PromptMessages(messages, context)[0].content) == Some(Join(context, "\n\n"))
    ensures PromptMessages(messages, context)[1..] == messages
  {
    SystemPromptRoundTrip(context);
  }

  /** The graph state: the conversation (appended to by each node's
      `messages` output) and the retrieved context. */
  datatype RagState = RagState(messages: seq<ChatMessage>, context: seq<string>)

  /** One run of the graph on a new input message: the input is appended to
      the checkpointed conversation, `retrieve_context` sets the context and
      `generate_response` appends its reply. */
  function RunTurn(state: RagState, input: ChatMessage, videoId: Option<string>, db: VectorDb,
                   llm: seq<ChatMessage> -> string): RagState
  {
    var messages := state.messages + [input];
    var context := RetrieveContext(messages, videoId, db);
    RagState(messages + GenerateResponse(messages, context, llm), context)
  }

  /** A turn keeps the conversation so far, appends the input and one AI
      reply, and retrieves with the input's text alone. */
  lemma RunTurnRule(state: RagState, input: ChatMessage, videoId: Option<string>, db: VectorDb,
                    llm: seq<ChatMessage> -> string)
    ensures var after := RunTurn(state, input, videoId, db, llm);
      && |after.messages| == |state.messages| + 2
      && after.messages[..|state.messages|] == state.messages
      && after.messages[|state.messages|] == input
      && after.messages[|state.messages| + 1].AiMsg?
      && after.context == RetrieveContext([input], videoId, db)
  {
    RetrieveContextRule([input], videoId, db);
  }
}
