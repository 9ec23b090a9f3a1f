# ask_youtube backend — a Dafny model

ask_youtube lets a user paste a YouTube link, ingests the video into a vector
index, and then chats with an LLM agent about the video. This project models
the backend's core in Dafny and proves properties of the model:

- **YouTube tools** (`YouTubeTools`): video-id extraction from the three URL
  forms, the URL error paths (400 "No URL provided" / "Error getting video ID
  from URL"), transcript language fallback, caption joining, `M:SS` timestamp
  formatting, the `lengthSeconds` scrape behind the duration, and the
  transcript-language listing.
- **Ingestion** (`YouTubeService`): `ingest_youtube_video` — the invalid-URL
  400, returning an already stored video unchanged, the 413 above 1200
  seconds, the 404 for an empty transcript, the parent/child chunk plan with
  `{video}_P{p}_C{c}` ids and per-chunk metadata, the global-summary prompt,
  the vector upsert, and the video row insert plus commit.
- **Persistence** (`Store`): the `crud` helpers over a database with
  primary-key and foreign-key constraints (videos, threads, messages), as a
  class whose tables are sequences.
- **Chat API** (`ChatApi`): creating, listing and deleting threads, sending a
  message (the Server-Sent-Events token stream and the saved AI reply), and
  reading a thread's history.
- **Agent** (`ChatNodes`, `ChatGraph`, `ChatAgent`): the retrieve and generate
  nodes, the two-node LangGraph workflow, and the agent's retrieval tool.
- **Configuration** (`Config`): environment detection and the settings object,
  including the per-environment presets that never override an explicitly
  set variable.

Shared string rules (decimal text, join/split, ASCII case) live in `Text`;
the table rows and error types in `Models`.

External services are parameters: the YouTube page and oEmbed response, the
transcript API's listing and fetch results, the text splitters, the LLM, the
embedding model, the vector database query, and fresh UUIDs.
A parsed URL is given as its parts (host, path, query pairs in order), with
"no parts" standing for `urlparse` raising.

## Model

| member | source | states |
|---|---|---|
| Text.NatToString | backend/src/services/youtube_service.py:82 | `str(n)` of a natural is a non-empty run of digits with no leading zero |
| Text.NatToStringRoundTrip | backend/src/services/youtube_tools.py:259 | reading back the decimal text of `n` gives `n` |
| Text.NatToStringInjective | backend/src/services/youtube_service.py:82 | two numbers with the same decimal text are equal |
| Text.Pad2 | backend/src/services/youtube_tools.py:259 | `{s:02d}` below 100 is exactly two digits whose value is `s` |
| Text.JoinAppend | backend/src/services/youtube_tools.py:266 | joining a concatenation puts one separator between the two joins |
| Text.JoinFirst | backend/src/agents/chat_agent.py:26-29 | a join of a non-empty list starts with its first item |
| Text.SplitHead | backend/src/services/youtube_tools.py:52 | the first piece of a split is the text before the first separator |
| Text.TakeUntil | backend/src/services/youtube_tools.py:52 | the result is a separator-free prefix followed by a separator or the end |
| Text.Lower | backend/src/core/config.py:36 | `.lower()` keeps the length and lowers each ASCII capital |
| Text.LowerIdempotent | backend/src/core/config.py:36 | lowering twice equals lowering once |
| Text.LowerFixed | backend/src/core/config.py:70 | text without capitals is unchanged by `.lower()` |
| Text.Upper | backend/src/core/config.py:144 | `.upper()` keeps the length and raises each ASCII small letter |
| Text.UpperFixed | backend/src/core/config.py:144 | text without small letters is unchanged by `.upper()` |
| Text.MarkerCut | backend/src/services/youtube_service.py:82 | the texts before and after a marker that neither prefix contains are determined uniquely, which keeps `{video}_P{p}_C{c}` ids apart |
| YouTubeTools.FirstValue | backend/src/services/youtube_tools.py:47-48 | `parse_qs(...)["v"][0]`: the value of the first pair named `v`, none exactly when no pair has that name |
| YouTubeTools.GetYouTubeVideoId | backend/src/services/youtube_tools.py:33-61 | an id is found only on youtu.be or a YouTube host; none exactly when the host is neither, or on YouTube a `/watch` URL has no `v` or another path starts with neither `/embed/` nor `/v/` |
| YouTubeTools.VideoIdForms | backend/src/services/youtube_tools.py:41-58 | the id is the path after `/` on youtu.be, the first `v` on `/watch`, the segment after `/embed/` or `/v/` |
| YouTubeTools.SameVideoAllForms | backend/src/services/youtube_tools.py:41-54 | short, watch and embed links to the same id all yield that id |
| YouTubeTools.ExtractVideoId | backend/src/services/youtube_tools.py:68-80 | succeeds exactly for a non-empty URL with a non-empty id; otherwise 400 with "No URL provided" exactly when the URL is empty |
| YouTubeTools.InvalidUrlRejected | backend/src/services/youtube_tools.py:68-80 | captions, timestamps and video data all reject an unparseable or id-less URL with the same 400 |
| YouTubeTools.FirstAvailableIsFirst | backend/src/services/youtube_tools.py:163-166 | the chosen preference is the earliest available one; none exactly when no preference is available |
| YouTubeTools.LanguageChoiceRule | backend/src/services/youtube_tools.py:161-177 | preferences first, then the first listed language; without preferences "en", then the first listed; none exactly when nothing is listed |
| YouTubeTools.ChooseLanguage | backend/src/services/youtube_tools.py:161-177 | the loop picks the language the fallback rule names |
| YouTubeTools.GetTranscriptWithFallback | backend/src/services/youtube_tools.py:152-177 | fetches the transcript of the language the fallback rule names |
| YouTubeTools.CaptionTextRule | backend/src/services/youtube_tools.py:208-219 | no snippets give "No captions found for video"; otherwise the texts joined by single spaces |
| YouTubeTools.GetVideoCaptions | backend/src/services/youtube_tools.py:180-222 | 400 for a bad URL, 500 when fetching fails, else the caption text |
| YouTubeTools.TimestampEntryRoundTrip | backend/src/services/youtube_tools.py:256-265 | each `M:SS - text` entry gives back the snippet's whole start second and its text |
| YouTubeTools.FormatTimestamps | backend/src/services/youtube_tools.py:255-266 | the loop yields the entries of all snippets joined by ", " |
| YouTubeTools.GetVideoTimestamps | backend/src/services/youtube_tools.py:225-270 | 400 for a bad URL, 500 when fetching fails, else the timestamp text |
| YouTubeTools.GetVideoTranscriptLanguages | backend/src/services/youtube_tools.py:273-317 | the URL's 400, a 500 when listing fails, else the listed transcripts in order |
| YouTubeTools.GetVideoData | backend/src/services/youtube_tools.py:64-111 | 400 exactly when the URL is rejected; the oEmbed fields exactly when the URL is good and oEmbed answers |
| YouTubeTools.DigitRun | backend/src/services/youtube_tools.py:133 | `\d+` takes the longest digit prefix |
| YouTubeTools.LengthSecondsFrom | backend/src/services/youtube_tools.py:133-137 | `re.search`: none exactly when the pattern occurs nowhere, else the value at the leftmost match |
| YouTubeTools.GetVideoDuration | backend/src/services/youtube_tools.py:114-143 | a duration comes only from a valid URL's page, at a `"lengthSeconds":"N"` match |
| YouTubeService.DocIdInjective | backend/src/services/youtube_service.py:82 | two chunks of one video share an id only if their parent and child indexes match |
| YouTubeService.SectionChunks | backend/src/services/youtube_service.py:79-90 | one chunk per child, with id, text, and metadata naming the video, child index, parent index and chapter summary |
| YouTubeService.ChapterSummaries | backend/src/services/youtube_service.py:69-77 | one LLM summary per parent section, in order |
| YouTubeService.PlanChunksShape | backend/src/services/youtube_service.py:64-90 | the plan holds one chunk per child of every parent, each built from its own parent's summary |
| YouTubeService.PlanChunksOrdered | backend/src/services/youtube_service.py:69-90 | chunks appear ordered by parent index, then child index |
| YouTubeService.PlanIdsDistinct | backend/src/services/youtube_service.py:81-83 | all chunk ids of one ingestion differ |
| YouTubeService.AddSectionChunks | backend/src/services/youtube_service.py:81-90 | the inner loop appends one section's chunks to the three parallel lists |
| YouTubeService.BuildChunks | backend/src/services/youtube_service.py:64-90 | the loops produce exactly the planned ids, texts and metadata, and the chapter summaries |
| YouTubeService.Bullets | backend/src/services/youtube_service.py:92-95 | each summary becomes a `- ` bullet |
| YouTubeService.OutlineBullets | backend/src/services/youtube_service.py:92-95 | `"- " + "\n- ".join(s)` is the list of bullets joined by newlines |
| YouTubeService.UpsertedContents | backend/src/services/youtube_service.py:102-107 | after an upsert with distinct ids each id holds its record and every other key is as before |
| YouTubeService.IndexedUpsert | backend/src/services/youtube_service.py:101-107 | after an indexed ingestion's upsert, every planned chunk's id holds its text, that text's embedding and its metadata, and every other id keeps its old record |
| YouTubeService.VectorIndex.AddTexts | backend/src/services/youtube_service.py:102-107 | the index becomes the old index upserted with the given records |
| YouTubeService.PassGates | backend/src/services/youtube_service.py:35-57 | duration, video data, transcript and timestamp steps reject or admit as the gate rule says |
| YouTubeService.IndexAndSave | backend/src/services/youtube_service.py:59-124 | vectors are upserted first; then the row is inserted and committed, or a missing title raises with the database unchanged |
| YouTubeService.IngestNewVideo | backend/src/services/youtube_service.py:35-124 | a rejection changes nothing; an admitted video is indexed and stored |
| YouTubeService.IngestYouTubeVideo | backend/src/services/youtube_service.py:16-124 | the whole ingestion: 400, return of the stored row, rejection with nothing changed, or upsert then insert and commit |
| YouTubeService.IngestIdempotent | backend/src/services/youtube_service.py:29-33 | once a video is stored, ingesting its URL again returns that row, whatever the services answer |
| YouTubeService.NewVideoRowKey | backend/src/services/youtube_service.py:110-111 | the inserted row's key is the extracted id |
| YouTubeService.DurationGate | backend/src/services/youtube_service.py:35-46 | a known duration above 1200 s gives the 413 with its message; no other case gives a 413 |
| YouTubeService.TimestampTextShape | backend/src/services/youtube_tools.py:255-266 | the timestamp text is empty exactly when there are no snippets, and otherwise starts with a digit |
| YouTubeService.TranscriptGate | backend/src/services/youtube_service.py:53-57 | past the earlier gates, the 404 "No transcript available" happens exactly when the transcript has no snippets |
| Store.FirstWhere | backend/src/crud/thread.py:8-9 | `.first()`: some row exactly when a row matches, and then a matching row |
| Store.MessagesOf | backend/src/crud/message.py:14-15 | exactly the messages of the thread |
| Store.MessagesNotOf | backend/src/crud/thread.py:30-35 | exactly the messages of other threads |
| Store.ThreadsExcept | backend/src/crud/thread.py:37 | exactly the other threads |
| Store.MessagesExceptGrow | backend/src/crud/thread.py:34-35 | deleting messages one at a time equals deleting the set at once |
| Store.MessagesExceptNothing | backend/src/crud/thread.py:34-35 | deleting nothing leaves the table as it was |
| Store.MessagesExceptThread | backend/src/crud/thread.py:30-35 | deleting every message selected for the thread leaves the messages of other threads |
| Store.MessagesNotOfUnique | backend/src/crud/thread.py:30-35 | deleting messages keeps message ids distinct |
| Store.ThreadsExceptUnique | backend/src/crud/thread.py:37 | deleting a thread keeps thread ids distinct |
| Store.DeletionKeepsKeys | backend/src/crud/thread.py:24-39 | after a thread and its messages go, keys stay distinct and every foreign key still points at a row |
| Store.FindVideo | backend/src/crud/video.py:6-9 | the row with that id, none exactly when no row has it |
| Store.FindVideoAfterAdd | backend/src/crud/video.py:6-9 | a freshly added video is what a lookup of its id returns |
| Store.Database.GetVideoById | backend/src/crud/video.py:6-9 | the stored video with that key, or none exactly when no row has it |
| Store.Database.GetVideoByUrl | backend/src/crud/video.py:11-14 | a video with that URL, or none exactly when no row has it |
| Store.Database.GetThreadById | backend/src/crud/thread.py:6-9 | the stored thread with that key, or none exactly when no row has it |
| Store.Database.GetAllThreads | backend/src/crud/thread.py:11-14 | every thread, each once |
| Store.Database.GetAllMessagesByThread | backend/src/crud/message.py:13-15 | exactly the thread's messages |
| Store.Database.CreateThread | backend/src/crud/thread.py:16-22 | the insert succeeds exactly when the key is new and the video exists; it then appends the thread and commits, and otherwise changes nothing |
| Store.Database.CreateMessage | backend/src/crud/message.py:7-11 | the insert succeeds exactly when the key is new and the thread exists; it then appends and commits, and otherwise changes nothing |
| Store.Database.AddVideo | backend/src/services/youtube_service.py:120-121 | the insert succeeds exactly when the key is new; it then appends and commits |
| Store.Database.DeleteMessagesOf | backend/src/crud/thread.py:30-35 | the loop removes exactly the thread's messages |
| Store.Database.DeleteThreadWithMessages | backend/src/crud/thread.py:24-39 | false with nothing changed for an unknown thread; otherwise the thread and its messages are gone and one commit is made |
| ChatApi.ReceivedAppend | backend/src/api/chat.py:172-188 | the text a client receives from two frame runs is the concatenation of both |
| ChatApi.TokenFramesShape | backend/src/api/chat.py:172-183 | only non-empty AI chunks become token frames, and their contents spell the accumulated reply |
| ChatApi.StreamFramesRule | backend/src/api/chat.py:153-188 | a stream is token frames then one end frame, or the error frame exactly when generation fails; the received text is the reply |
| ChatApi.PartialStreamExample | backend/src/api/chat.py:172-188 | a failing stream still delivers the tokens sent before the error |
| ChatApi.EventGenerator | backend/src/api/chat.py:153-188 | the generator yields the stream's frames and accumulates the reply text |
| ChatApi.SaveStreamedMessage | backend/src/api/chat.py:190-201 | a non-empty reply is stored as an AI message and committed; otherwise nothing is stored |
| ChatApi.ThreadVideoStored | backend/src/api/chat.py:136-138 | a stored thread's video always exists, so the "video not found" 404 cannot occur |
| ChatApi.SendMessage | backend/src/api/chat.py:120-211 | 404 for an unknown thread, 500 when the human message cannot be saved, else the streamed frames with the human and AI messages stored |
| ChatApi.HistoryAppend | backend/src/api/chat.py:235-245 | the history of concatenated messages is the concatenation of their histories |
| ChatApi.HistoryRule | backend/src/api/chat.py:235-245 | every listable message appears, nothing else does, and the role is "human" exactly for human messages |
| ChatApi.HistoryAfterSend | backend/src/api/chat.py:229-245 | after sending, a thread's history is the old history followed by the new messages |
| ChatApi.HistoryOfStored | backend/src/api/chat.py:140-201 | a send adds the human message, then the AI reply when it is non-empty and could be stored |
| ChatApi.MessagesOfAppend | backend/src/crud/message.py:13-15 | selecting a thread's messages distributes over concatenation |
| ChatApi.MessagesOfAll | backend/src/crud/message.py:13-15 | selecting from messages that all belong to the thread keeps them all |
| ChatApi.GetMessages | backend/src/api/chat.py:223-247 | 404 "Thread not found" exactly when the thread is unknown; otherwise exactly the responses of the thread's human and AI messages |
| ChatApi.ListThreads | backend/src/api/chat.py:80-91 | one item per thread, carrying its id, title and video id |
| ChatApi.DeleteThread | backend/src/api/chat.py:103-112 | 404 with nothing changed for an unknown thread; otherwise success with the thread and its messages removed |
| ChatApi.CreateThread | backend/src/api/chat.py:43-72 | ingestion errors pass through, other failures become 500; otherwise the video is stored and a thread titled with the video title is created |
| ChatNodes.RetrieveContextRule | backend/src/agents/chat/nodes.py:6-43 | context is non-empty only for a known video's collection and a successful query on the last message, and then it is that query's first result list; earlier messages do not matter |
| ChatNodes.SystemPromptRoundTrip | backend/src/agents/chat/nodes.py:50-58 | the joined context can be read back out of the system prompt |
| ChatNodes.GenerateResponse | backend/src/agents/chat/nodes.py:45-65 | the node answers with exactly one AI message |
| ChatNodes.PromptMessagesRule | backend/src/agents/chat/nodes.py:50-61 | the LLM sees the system prompt holding the context, followed by the conversation unchanged |
| ChatNodes.RunTurnRule | backend/src/agents/chat/graph.py:10-12 | a turn appends the input and one AI message and keeps the context retrieved for the input |
| ChatGraph.StateGraph.AddNode | backend/src/agents/chat/graph.py:7-8 | a node is added exactly when its name is new and not reserved |
| ChatGraph.StateGraph.AddEdge | backend/src/agents/chat/graph.py:10-12 | an edge is added exactly when it neither leaves the end nor enters the start |
| ChatGraph.BuildWorkflow | backend/src/agents/chat/graph.py:5-12 | the graph has the two nodes and the three edges |
| ChatGraph.WorkflowOrder | backend/src/agents/chat/graph.py:10-12 | execution goes start, retrieve, generate, end, with no other branch |
| ChatAgent.Blocks | backend/src/agents/chat_agent.py:26-29 | one `Source:`/`Content:` block per document, in order |
| ChatAgent.RetrieveContextTool | backend/src/agents/chat_agent.py:13-30 | searches with k = 5 and a filter on the user's video ids, and returns the serialised documents with the documents |
| ChatAgent.SerializeRule | backend/src/agents/chat_agent.py:26-29 | no documents give empty text; otherwise the text starts with "Source: " and blocks are separated by a blank line |
| Config.GetEnvironmentNames | backend/src/core/config.py:30-44 | each environment's own name selects it; an unset variable means development |
| Config.GetEnvironmentSpelling | backend/src/core/config.py:36-42 | the name's case does not matter, and "prod"/"stage" are aliases |
| Config.IsTruthyRule | backend/src/core/config.py:70 | DEBUG's truth test ignores case, accepts "TRUE", "Yes", "1" and rejects "false", "" and "0" |
| Config.TrimStart | backend/src/core/config.py:83 | `int()` skips leading whitespace: a suffix not starting with a space |
| Config.TrimEnd | backend/src/core/config.py:83 | `int()` skips trailing whitespace: a prefix not ending with a space |
| Config.StripAround | backend/src/core/config.py:83 | whitespace around a token is stripped away |
| Config.ParseIntDigits | backend/src/core/config.py:83 | digits with surrounding whitespace parse to their value |
| Config.ParseIntNegative | backend/src/core/config.py:83 | a minus sign before digits parses to the negative value |
| Config.ParseIntRoundTrip | backend/src/core/config.py:83 | any integer written in decimal, with whitespace around it, parses back to itself |
| Config.ParseIntNeedsDigit | backend/src/core/config.py:83 | text without a digit raises `ValueError` |
| Config.AppliedAt | backend/src/core/config.py:143-147 | a preset replaces a setting exactly when the environment does not name its upper-cased key; others stay |
| Config.Settings.ApplyEnvironmentSettings | backend/src/core/config.py:112-147 | the settings become the old ones with the environment's presets applied |
| Config.LoadSettings | backend/src/core/config.py:53-110 | loading fails exactly when the expiry days do not parse; otherwise the object holds the detected environment and the configured values |
| Config.PresetNamesUpper | backend/src/core/config.py:144 | every preset key is its own upper-case name |
| Config.PresetKeys | backend/src/core/config.py:114-137 | presets only cover DEBUG, LOG_LEVEL, LOG_FORMAT and RATE_LIMIT_DEFAULT |
| Config.ExplicitSettingKept | backend/src/core/config.py:143-147 | a variable set in the environment is never overridden by a preset |
| Config.DebugPreset | backend/src/core/config.py:114-137 | DEBUG preset is true in development and test only |
| Config.LogLevelPreset | backend/src/core/config.py:114-137 | LOG_LEVEL preset per environment: DEBUG, INFO, WARNING, DEBUG |
| Config.LogFormatPreset | backend/src/core/config.py:114-137 | LOG_FORMAT preset "console" in development and test, none otherwise |
| Config.RateLimitPreset | backend/src/core/config.py:114-137 | the rate-limit pair for each environment |
| Config.FinalAt | backend/src/core/config.py:53-147 | a final setting is its preset when one exists and the variable is unset, otherwise the constructor's value |
| Config.DebugSetting | backend/src/core/config.py:70 | DEBUG is the variable's truth value when set, else true in development and test |
| Config.LogLevelSetting | backend/src/core/config.py:87 | LOG_LEVEL is the variable when set, else the environment's preset |
| Config.LogFormatSetting | backend/src/core/config.py:88 | LOG_FORMAT is the variable when set, else "console" in development and test and "json" otherwise |
| Config.RateLimitSetting | backend/src/core/config.py:119 | the rate limit exists exactly when RATE_LIMIT_DEFAULT is unset, and is then the environment's pair |
| Config.NoExpiryPreset | backend/src/core/config.py:114-137 | no environment presets the token expiry |
| Config.ExpireDaysSetting | backend/src/core/config.py:83 | loading succeeds exactly when the expiry text parses; unset, it is 30 days |

## Left out

- Network and I/O: the YouTube page fetch, the oEmbed request, the transcript API, the LLM, the embedding model and the vector database are parameters whose answers are given; timeouts, retries and their exception texts are not modelled.
- The text splitters, the LLM and the embedding model are total functions; their own failures (an exception mid-ingestion) are not modelled.
- `urlparse` and pydantic `HttpUrl` normalisation: a URL arrives as its parsed parts; a parse failure is "no parts".
- oEmbed fields other than title, author and thumbnail are dropped.
- Case mapping and digits are ASCII; Python's Unicode `.lower()`, `.upper()`, `\d` and `int()` (which also accepts underscores and Unicode digits) are wider. Whitespace is the full set `str.isspace()` accepts.
- A snippet's start is a whole number of seconds; the float start and its truncation are not modelled.
- `created_at` timestamps, logging, `load_dotenv` and `.env` files are not modelled.
- SQL row order: tables are sequences in insertion order; the database promises no order.
- Concurrency: the background save after streaming, client disconnects and the async session are modelled as sequential steps.
- The LangGraph checkpoint saver, `create_agent` wiring and message content that is not a string are not modelled.
- `OUTPUT_DIMENSIONALITY` and `LOG_DIR` are kept as text; `default_endpoints` is never stored by the source and is omitted.
- The Server-Sent-Events wire text (`data: ` + JSON + blank line) and the JSON encoding of frames are not modelled; frames are values.
- ChatGraph.Walk is bounded by a fuel count; paths longer than the fuel are not followed.
- YouTubeTools.GetVideoDuration: states only where a returned duration comes from, not that every valid page with a match yields one.
- YouTubeTools.GetVideoData: the 500 for a failed oEmbed request carries a fixed detail rather than `Error getting video data: ` and the exception text.
- ChatApi.CreateThread: the 500 detail `str(e)` is a parameter.

## Notes on the source

- Ingestion's `startswith("No captions")` test can never succeed: the timestamp text is empty exactly when there are no snippets and otherwise starts with a digit, so only the emptiness test decides the 404 (YouTubeService.TimestampTextShape, YouTubeService.TranscriptGate).
- A video whose oEmbed data lacks a title is upserted into the vector index before its row insert fails, leaving vectors without a stored video (YouTubeService.IndexAndSave).
- `RATE_LIMIT_DEFAULT` is never read by the constructor, so setting that variable leaves the attribute missing altogether (Config.RateLimitSetting).
- The chat endpoint streams from the `create_agent` agent of `agents/chat_agent.py`, which `main.py` stores as `app.state.agent`; the two-node `StateGraph` of `agents/chat/graph.py` is compiled only in `api/main.py` as `app.state.graph`, which nothing reads, so the graph's retrieve node never serves a chat. `api/chat.py` imports `YTAgentState` and `YoutubeVideo`, which `agents/chat_agent.py` does not define, and the agent's tool reads `runtime.context.video_ids` while `astream` is called without a context. ChatNodes and ChatGraph model the node functions and the graph as written, on their own.
