/** `api/chat.py`: the `/threads` endpoints. Creating a thread ingests its
    video first; sending a message stores the human message, streams the
    agent's reply as server-sent events and, once the stream is over, stores
    the accumulated reply as an AI message; the history lists the human and
    AI messages of a thread; deleting a thread removes it with its
    messages. */
module ChatApi {
  import opened Models
  import opened Text
  import opened Store
  import opened YouTubeTools
  import opened YouTubeService

  const ThreadNotFound := "Thread not found"
  const VideoNotFound := "video not found"
  /** The 404 `send_message` answers when the thread's video is missing. */
  const MissingVideo := HttpError(404, VideoNotFound)
  const InternalError := "Internal server error"
  const GenerationError := "An error occurred during message generation."

  // ---------------------------------------------------------------------
  // Streaming a reply

  /** What the agent's message stream yields: a chunk of the AI reply, or
      any other message. */
  datatype StreamEvent = AiChunk(content: string) | OtherMessage

  /** The agent's stream for one turn: the events it yields, and whether it
      then raises instead of finishing. */
  datatype AgentStream = AgentStream(events: seq<StreamEvent>, fails: bool)

  /** One server-sent event: `{"type": "token", "content": ...}`,
      `{"type": "end"}` or `{"type": "error", "error": ...}`. */
  datatype Frame = TokenFrame(content: string) | EndFrame | ErrorFrame(error: string)

  /** The text of the AI chunks, in stream order. */
  function ReplyText(events: seq<StreamEvent>): string
  {
    if |events| == 0 then ""
    else
      var last := events[|events| - 1];
      ReplyText(events[..|events| - 1]) + (if last.AiChunk? then last.content else "")
  }

  /** A token frame for each non-empty AI chunk. */
  function TokenFrames(events: seq<StreamEvent>): seq<Frame>
  {
    if |events| == 0 then []
    else
      var last := events[|events| - 1];
      TokenFrames(events[..|events| - 1]) + (if last.AiChunk? && last.content != "" then [TokenFrame(last.content)] else [])
  }

  /** The frames `event_generator` yields for a stream. */
  function StreamFrames(stream: AgentStream): seq<Frame>
  {
    TokenFrames(stream.events) + [if stream.fails then ErrorFrame(GenerationError) else EndFrame]
  }

  /** The text a client rebuilds from the token frames it receives. */
  function Received(frames: seq<Frame>): string
  {
    if |frames| == 0 then ""
    else
      var last := frames[|frames| - 1];
      Received(frames[..|frames| - 1]) + (if last.TokenFrame? then last.content else "")
  }

  lemma {:induction false} ReceivedAppend(a: seq<Frame>, b: seq<Frame>)
    ensures Received(a + b) == Received(a) + Received(b)
    decreases |b|
  {
    if |b| > 0 {
      assert (a + b)[..|a + b| - 1] == a + b[..|b| - 1];
      assert (a + b)[|a + b| - 1] == b[|b| - 1];
      ReceivedAppend(a, b[..|b| - 1]);
    } else {
      assert a + b == a;
    }
  }

  lemma {:induction false} TokenFramesShape(events: seq<StreamEvent>)
    ensures forall i :: 0 <= i < |TokenFrames(events)| ==>
              TokenFrames(events)[i].TokenFrame? && TokenFrames(events)[i].content != ""
    ensures Received(TokenFrames(events)) == ReplyText(events)
  {
    if |events| > 0 {
      var init := events[..|events| - 1];
      var last := events[|events| - 1];
      TokenFramesShape(init);
      var tail: seq<Frame> := if last.AiChunk? && last.content != "" then [TokenFrame(last.content)] else [];
      ReceivedAppend(TokenFrames(init), tail);
      assert Received(tail) == (if last.AiChunk? then last.content else "") by {
        if |tail| == 1 {
          assert tail[..0] == [];
        }
      }
    }
  }

  /** Every stream ends with exactly one terminal frame, "end" when the
      agent finished and the generic error when it raised; the frames
      before it are non-empty tokens, and together they spell the reply
      text that is later saved. */
  lemma StreamFramesRule(stream: AgentStream)
    ensures var frames := StreamFrames(stream);
      && |frames| >= 1
      && (frames[|frames| - 1] == EndFrame <==> !stream.fails)
      && (frames[|frames| - 1] == ErrorFrame(GenerationError) <==> stream.fails)
      && (forall i :: 0 <= i < |frames| - 1 ==> frames[i].TokenFrame? && frames[i].content != "")
      && Received(frames) == ReplyText(stream.events)
  {
    var frames := StreamFrames(stream);
    var tokens := TokenFrames(stream.events);
    TokenFramesShape(stream.events);
    ReceivedAppend(tokens, [frames[|frames| - 1]]);
    assert frames[..|frames| - 1] == tokens;
    assert [frames[|frames| - 1]][..0] == [];
  }

  /** The partial reply of a stream that breaks is still the text of the
      chunks before the break. */
  lemma PartialStreamExample()
    ensures var s := AgentStream([AiChunk("The "), OtherMessage, AiChunk(""), AiChunk("video ")], true);
      && StreamFrames(s) == [TokenFrame("The "), TokenFrame("video "), ErrorFrame(GenerationError)]
      && ReplyText(s.events) == "The video "
  {
    var e1 := [AiChunk("The ")];
    var e2 := e1 + [OtherMessage];
    var e3 := e2 + [AiChunk("")];
    var e4 := e3 + [AiChunk("video ")];
    assert e1[..0] == [];
    assert TokenFrames(e1) == [TokenFrame("The ")] && ReplyText(e1) == "The ";
    assert e2[..1] == e1;
    assert TokenFrames(e2) == [TokenFrame("The ")] && ReplyText(e2) == "The ";
    assert e3[..2] == e2;
    assert TokenFrames(e3) == [TokenFrame("The ")] && ReplyText(e3) == "The ";
    assert e4[..3] == e3;
    assert TokenFrames(e4) == [TokenFrame("The "), TokenFrame("video ")];
    assert e4 == [AiChunk("The "), OtherMessage, AiChunk(""), AiChunk("video ")];
  }

  /** The `response_context` dictionary the generator fills. */
  class ResponseContext {
    var content: string

    constructor ()
      ensures content == ""
    {
      content := "";
    }
  }

  /** `event_generator`: appends each AI chunk to the response context and
      yields a token frame for each non-empty one, then the end frame; an
      exception from the agent yields the error frame instead. */
  method EventGenerator(stream: AgentStream, ctx: ResponseContext) returns (frames: seq<Frame>)
    modifies ctx
    ensures frames == StreamFrames(stream)
    ensures ctx.content == old(ctx.content) + ReplyText(stream.events)
  {
    frames := [];
    var i := 0;
    while i < |stream.events|
      invariant 0 <= i <= |stream.events|
      invariant frames == TokenFrames(stream.events[..i])
      invariant ctx.content == old(ctx.content) + ReplyText(stream.events[..i])
    {
      var msg := stream.events[i];
      assert stream.events[..i + 1][..i] == stream.events[..i];
      if msg.AiChunk? {
        var content := msg.content;
        ctx.content := ctx.content + content;
        if content != "" {
          frames := frames + [TokenFrame(content)];
        }
      }
      i := i + 1;
    }
    assert stream.events[..i] == stream.events;
    if stream.fails {
      frames := frames + [ErrorFrame(GenerationError)];
    } else {
      frames := frames + [EndFrame];
    }
  }

  /** `save_streamed_message`: stores a non-empty reply as an AI message
      (key `messageId`); a failure is logged and swallowed. */
  method SaveStreamedMessage(threadId: string, messageId: string, reply: string, db: Database)
    requires db.Valid()
    modifies db
    ensures db.Valid()
    ensures db.videos == old(db.videos) && db.threads == old(db.threads)
    ensures reply != "" && messageId !in MessageIds(old(db.messages)) && threadId in ThreadIds(old(db.threads))
            ==> db.messages == old(db.messages) + [Message(messageId, threadId, Ai, reply, None)]
                && db.commits == old(db.commits) + 1
    ensures !(reply != "" && messageId !in MessageIds(old(db.messages)) && threadId in ThreadIds(old(db.threads)))
            ==> db.messages == old(db.messages) && db.commits == old(db.commits)
  {
    if reply != "" {
      var saved := db.CreateMessage(Message(messageId, threadId, Ai, reply, None));
    }
  }

  /** A thread's video is always stored: the foreign key guarantees it. */
  lemma ThreadVideoStored(db: Database, threadId: string)
    requires db.Valid() && db.GetThreadById(threadId).Some?
    ensures db.GetVideoById(db.GetThreadById(threadId).value.videoId).Some?
  {
  }

  /** The messages `send_message` stores: the human message, then the reply
      when it is non-empty and its key is free. */
  function StoredBySend(threadId: string, content: string, humanId: string, aiId: string, reply: string,
                        before: seq<Message>): seq<Message>
  {
    [Message(humanId, threadId, Human, content, None)]
      + (if reply != "" && aiId != humanId && aiId !in MessageIds(before)
         then [Message(aiId, threadId, Ai, reply, None)] else [])
  }

  /** `send_message`, its stream consumed to the end and its background
      task run. `content` already passed the request schema (1 to 5000
      characters); `humanId` and `aiId` are the keys the two messages get. */
  method SendMessage(threadId: string, content: string, humanId: string, aiId: string, stream: AgentStream,
                     db: Database)
    returns (r: Result<seq<Frame>, HttpError>)
    requires db.Valid()
    requires 1 <= |content| <= 5000
    modifies db
    ensures db.Valid()
    ensures db.videos == old(db.videos) && db.threads == old(db.threads)
    ensures threadId !in ThreadIds(old(db.threads)) ==>
              r == Err(HttpError(404, ThreadNotFound)) && db.messages == old(db.messages) && db.commits == old(db.commits)
    ensures threadId in ThreadIds(old(db.threads)) && humanId in MessageIds(old(db.messages)) ==>
              r == Err(HttpError(500, InternalError)) && db.messages == old(db.messages) && db.commits == old(db.commits)
    ensures threadId in ThreadIds(old(db.threads)) && humanId !in MessageIds(old(db.messages))
            ==> && r == Ok(StreamFrames(stream))
                && db.messages == old(db.messages)
                     + StoredBySend(threadId, content, humanId, aiId, ReplyText(stream.events), old(db.messages))
  {
    var thread := db.GetThreadById(threadId);
    if thread.None? {
      return Err(HttpError(404, ThreadNotFound));
    }
    var video := db.GetVideoById(thread.value.videoId);
    if video.None? {
      ThreadVideoStored(db, threadId);
      assert false;
      return Err(MissingVideo);
    }
    var userMessage := Message(humanId, threadId, Human, content, None);
    var created := db.CreateMessage(userMessage);
    if created.Err? {
      return Err(HttpError(500, InternalError));
    }
    ghost var afterHuman := db.messages;
    assert afterHuman == old(db.messages) + [userMessage];
    assert MessageIds(afterHuman) == MessageIds(old(db.messages)) + {humanId};
    var responseContext := new ResponseContext();
    var frames := EventGenerator(stream, responseContext);
    SaveStreamedMessage(threadId, aiId, responseContext.content, db);
    ghost var reply := ReplyText(stream.events);
    assert responseContext.content == reply;
    assert threadId in ThreadIds(db.threads);
    assert aiId in MessageIds(afterHuman) <==> aiId == humanId || aiId in MessageIds(old(db.messages));
    if reply != "" && aiId != humanId && aiId !in MessageIds(old(db.messages)) {
      assert db.messages == afterHuman + [Message(aiId, threadId, Ai, reply, None)];
    } else {
      assert db.messages == afterHuman;
    }
    r := Ok(frames);
  }

  // ---------------------------------------------------------------------
  // History

  /** One entry of `get_messages`. */
  datatype MessageResponse = MessageResponse(messageId: string, role: string, content: string, metadata: Option<string>)

  predicate Listed(m: Message)
  {
    m.sender == Human || m.sender == Ai
  }

  /** The entry of a stored message: role "human" for a human message and
      "ai" otherwise; metadata only when the stored text is non-empty. */
  function ResponseOf(m: Message): MessageResponse
  {
    MessageResponse(m.messageId, if m.sender == Human then Human else Ai, m.content,
                    if m.metadataJson.Some? && m.metadataJson.value != "" then m.metadataJson else None)
  }

  /** The entries for the human and AI messages among `ms`, in order. */
  function History(ms: seq<Message>): seq<MessageResponse>
  {
    if |ms| == 0 then []
    else History(ms[..|ms| - 1]) + (if Listed(ms[|ms| - 1]) then [ResponseOf(ms[|ms| - 1])] else [])
  }

  lemma {:induction false} HistoryAppend(a: seq<Message>, b: seq<Message>)
    ensures History(a + b) == History(a) + History(b)
    decreases |b|
  {
    if |b| > 0 {
      assert (a + b)[..|a + b| - 1] == a + b[..|b| - 1];
      assert (a + b)[|a + b| - 1] == b[|b| - 1];
      HistoryAppend(a, b[..|b| - 1]);
    } else {
      assert a + b == a;
    }
  }

  /** The history holds an entry for a stored message exactly when its
      sender is "human" or "ai", and its role is "human" exactly when the
      sender is. */
  lemma {:induction false} HistoryRule(ms: seq<Message>)
    ensures forall m :: m in ms && Listed(m) ==> ResponseOf(m) in History(ms)
    ensures forall e :: e in History(ms) ==> exists m :: m in ms && Listed(m) && e == ResponseOf(m)
    ensures forall e :: e in History(ms) ==> (e.role == Human <==> exists m :: m in ms && e == ResponseOf(m) && m.sender == Human)
  {
    if |ms| > 0 {
      var init := ms[..|ms| - 1];
      HistoryRule(init);
      forall m | m in ms && Listed(m) ensures ResponseOf(m) in History(ms) {
        if m in init {
        } else {
          assert m == ms[|ms| - 1];
        }
      }
      forall e | e in History(ms) ensures exists m :: m in ms && Listed(m) && e == ResponseOf(m) {
        if e in History(init) {
          var m :| m in init && Listed(m) && e == ResponseOf(m);
          assert m in ms;
        } else {
          assert e == ResponseOf(ms[|ms| - 1]);
        }
      }
    }
  }

  /** After a message is sent, the thread's history is the old history
      followed by the entries of the stored messages (`HistoryOfStored`). */
  lemma HistoryAfterSend(before: seq<Message>, threadId: string, content: string, humanId: string, aiId: string,
                         reply: string)
    ensures var added := StoredBySend(threadId, content, humanId, aiId, reply, before);
      History(MessagesOf(before + added, threadId)) == History(MessagesOf(before, threadId)) + History(added)
  {
    var added := StoredBySend(threadId, content, humanId, aiId, reply, before);
    MessagesOfAppend(before, added, threadId);
    MessagesOfAll(added, threadId);
    HistoryAppend(MessagesOf(before, threadId), added);
  }

  /** The entries of the stored messages: the human message, then the AI
      reply when one was stored. */
  lemma HistoryOfStored(threadId: string, content: string, humanId: string, aiId: string, reply: string,
                        before: seq<Message>)
    ensures History(StoredBySend(threadId, content, humanId, aiId, reply, before))
            == [MessageResponse(humanId, Human, content, None)]
               + (if reply != "" && aiId != humanId && aiId !in MessageIds(before)
                  then [MessageResponse(aiId, Ai, reply, None)] else [])
  {
    var human := Message(humanId, threadId, Human, content, None);
    assert History([human]) == [ResponseOf(human)] by {
      assert [human][..0] == [];
    }
    if reply != "" && aiId != humanId && aiId !in MessageIds(before) {
      var ai := Message(aiId, threadId, Ai, reply, None);
      assert [human, ai][..1] == [human];
    } else {
      assert [human] + [] == [human];
    }
  }

  lemma {:induction false} MessagesOfAppend(a: seq<Message>, b: seq<Message>, threadId: string)
    ensures MessagesOf(a + b, threadId) == MessagesOf(a, threadId) + MessagesOf(b, threadId)
  {
    if |a| > 0 {
      assert (a + b)[1..] == a[1..] + b;
      MessagesOfAppend(a[1..], b, threadId);
    } else {
      assert a + b == b;
    }
  }

  lemma {:induction false} MessagesOfAll(ms: seq<Message>, threadId: string)
    requires forall m :: m in ms ==> m.threadId == threadId
    ensures MessagesOf(ms, threadId) == ms
  {
    if |ms| > 0 {
      MessagesOfAll(ms[1..], threadId);
      assert [ms[0]] + ms[1..] == ms;
    }
  }

  /** `get_messages`. */
  function GetMessages(threadId: string, db: Database): (r: Result<seq<MessageResponse>, HttpError>)
    reads db
    ensures r.Err? <==> threadId !in ThreadIds(db.threads)
    ensures r.Err? ==> r.error == HttpError(404, ThreadNotFound)
    ensures r.Ok? ==> forall e :: e in r.value <==>
              exists m :: m in db.messages && m.threadId == threadId && Listed(m) && e == ResponseOf(m)
  {
    if db.GetThreadById(threadId).None? then Err(HttpError(404, ThreadNotFound))
    else
      var ms := db.GetAllMessagesByThread(threadId);
      HistoryRule(ms);
      Ok(History(ms))
  }

  // ---------------------------------------------------------------------
  // Threads

  datatype ThreadListItem = ThreadListItem(threadId: string, title: Option<string>, videoId: string)

  /** `list_threads`: one item per stored thread. */
  function ListThreads(db: Database): (r: seq<ThreadListItem>)
    reads db
    ensures |r| == |db.threads|
    ensures forall t :: t in db.threads <==> ThreadListItem(t.threadId, t.title, t.videoId) in r
  {
    var ts := db.GetAllThreads();
    var r := seq(|ts|, i requires 0 <= i < |ts| => ThreadListItem(ts[i].threadId, ts[i].title, ts[i].videoId));
    assert forall t: Thread :: ThreadListItem(t.threadId, t.title, t.videoId) in r ==> t in ts by {
      forall t: Thread | ThreadListItem(t.threadId, t.title, t.videoId) in r ensures t in ts {
        var i :| 0 <= i < |r| && r[i] == ThreadListItem(t.threadId, t.title, t.videoId);
        assert ts[i] == t;
      }
    }
    assert forall t: Thread :: t in ts ==> ThreadListItem(t.threadId, t.title, t.videoId) in r by {
      forall t: Thread | t in ts ensures ThreadListItem(t.threadId, t.title, t.videoId) in r {
        var i :| 0 <= i < |ts| && ts[i] == t;
        assert r[i] == ThreadListItem(t.threadId, t.title, t.videoId);
      }
    }
    r
  }

  datatype DeleteThreadResponse = DeleteThreadResponse(success: bool, threadId: string)

  /** `delete_thread`: 404 when there is no such thread. */
  method DeleteThread(threadId: string, db: Database) returns (r: Result<DeleteThreadResponse, HttpError>)
    requires db.Valid()
    modifies db
    ensures db.Valid()
    ensures r.Err? <==> threadId !in ThreadIds(old(db.threads))
    ensures r.Err? ==> && r.error == HttpError(404, ThreadNotFound)
                       && db.threads == old(db.threads) && db.messages == old(db.messages) && db.commits == old(db.commits)
    ensures r.Ok? ==> && r.value == DeleteThreadResponse(true, threadId)
                      && db.threads == ThreadsExcept(old(db.threads), threadId)
                      && db.messages == MessagesNotOf(old(db.messages), threadId)
    ensures db.videos == old(db.videos)
  {
    var success := db.DeleteThreadWithMessages(threadId);
    if !success {
      return Err(HttpError(404, ThreadNotFound));
    }
    r := Ok(DeleteThreadResponse(true, threadId));
  }

  datatype CreateThreadResponse = CreateThreadResponse(
    threadId: string, videoId: string, duration: Option<nat>, title: string, summary: string)

  /** `create_thread`: ingests the video, then opens a thread on it under
      key `threadId`. An exception that is not an HTTP error becomes a 500
      whose detail is its text, `errorText`. */
  method CreateThread(url: Url, page: Option<string>, info: Option<VideoInfo>, api: TranscriptApi, sv: Services,
                      threadId: string, errorText: string, db: Database, index: VectorIndex)
    returns (r: Result<CreateThreadResponse, HttpError>)
    requires db.Valid()
    modifies db, index
    ensures db.Valid()
    ensures var d := IngestionOf(url, page, info, api, sv, old(db.videos));
      && (d.Rejected? && d.failure.Http? ==> r == Err(d.failure.error) && unchanged(db))
      && (d.Rejected? && d.failure.Raised? ==> r == Err(HttpError(500, errorText)) && unchanged(db))
      && (d.Indexed? && d.row.None? ==> r == Err(HttpError(500, errorText)) && unchanged(db))
      && ((d.AlreadyStored? || (d.Indexed? && d.row.Some?)) ==>
            var v := if d.AlreadyStored? then d.video else d.row.value;
            && db.videos == old(db.videos) + (if d.AlreadyStored? then [] else [v])
            && db.messages == old(db.messages)
            && (threadId in ThreadIds(old(db.threads)) ==> r == Err(HttpError(500, errorText)) && db.threads == old(db.threads))
            && (threadId !in ThreadIds(old(db.threads)) ==>
                  && r == Ok(CreateThreadResponse(threadId, v.videoId, v.duration, v.title, v.summary))
                  && db.threads == old(db.threads) + [Thread(threadId, v.videoId, Some(v.title))]))
  {
    var video := IngestYouTubeVideo(url, page, info, api, sv, db, index);
    if video.Err? {
      if video.error.Http? {
        return Err(video.error.error);
      }
      return Err(HttpError(500, errorText));
    }
    var v := video.value;
    var thread := db.CreateThread(threadId, v.videoId, Some(v.title));
    if thread.Err? {
      return Err(HttpError(500, errorText));
    }
    r := Ok(CreateThreadResponse(thread.value.threadId, v.videoId, v.duration, v.title, v.summary));
  }
}
