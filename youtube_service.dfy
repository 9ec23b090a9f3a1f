/** `services/youtube_service.py`: ingesting a video. The video row is
    stored once; a new video is gated on its length (413) and on having a
    transcript (404); its timestamped transcript is cut into sections and
    each section into chunks, each section summarised, the chunks upserted
    into the vector index under ids `<video>_P<section>_C<chunk>`, and the
    video saved with a global summary built from the section summaries. */
module YouTubeService {
  import opened Models
  import opened Text
  import opened Store
  import opened YouTubeTools

  type Embedding = seq<real>

  /** The text splitters, the chat model and the embedding model, as total
      functions of their input. */
  datatype Services = Services(
    parentSplit: string -> seq<string>,
    childSplit: string -> seq<string>,
    llm: string -> string,
    embed: string -> Embedding)

  /** The metadata stored with each chunk. */
  datatype ChunkMetadata = ChunkMetadata(videoId: string, chunkIndex: nat, parentId: nat, chapterSummary: string)

  datatype Chunk = Chunk(id: string, text: string, metadata: ChunkMetadata)

  /** What the vector index keeps under one id. */
  datatype VectorRecord = VectorRecord(text: string, embedding: Embedding, metadata: ChunkMetadata)

  /** How an ingestion fails: an `HTTPException`, or another exception
      (`urlparse` raising, the database refusing a row). */
  datatype Failure = Http(error: HttpError) | Raised

  const MaxDuration: nat := 1200
  const NoTranscriptDetail := "No transcript available for this video"
  const TooLongOpening := "Video is too long ("
  const TooLongClosing := "s). Maximum allowed duration is 1200 seconds (20 minutes)."
  const OutlineHeader := "Here is an outline of a video based on its chapter summaries:\n\n"
  const GlobalTask := "Task: Write a concise 5 Sentence Global Summary of the entire video based on this outline."

  function TooLongDetail(duration: nat): string
  {
    TooLongOpening + NatToString(duration) + TooLongClosing
  }

  function ChapterPrompt(section: string): string
  {
    "Summarize this specific video section in 2 sentences:\n\n" + section
  }

  /** `f"{video_id}_P{p_index}_C{c_index}"`. */
  function DocId(videoId: string, parent: nat, child: nat): string
  {
    videoId + "_P" + NatToString(parent) + "_C" + NatToString(child)
  }

  lemma NoUnderscoreInDigits(s: string)
    requires AllDigits(s)
    ensures '_' !in s
  {
    forall i | 0 <= i < |s| ensures s[i] != '_' {
      assert IsDigit(s[i]);
    }
  }

  /** Within one video, a chunk id names exactly one section and chunk. */
  lemma DocIdInjective(videoId: string, p: nat, c: nat, p': nat, c': nat)
    requires DocId(videoId, p, c) == DocId(videoId, p', c')
    ensures p == p' && c == c'
  {
    var a, b := NatToString(p), NatToString(c);
    var a', b' := NatToString(p'), NatToString(c');
    var head := videoId + "_P";
    assert DocId(videoId, p, c) == head + (a + ['_'] + ("C" + b));
    assert DocId(videoId, p', c') == head + (a' + ['_'] + ("C" + b'));
    assert a + ['_'] + ("C" + b) == DocId(videoId, p, c)[|head|..];
    assert a' + ['_'] + ("C" + b') == DocId(videoId, p', c')[|head|..];
    NoUnderscoreInDigits(a);
    NoUnderscoreInDigits(a');
    MarkerCut(a, a', '_', "C" + b, "C" + b');
    assert b == ("C" + b)[1..] && b' == ("C" + b')[1..];
    NatToStringInjective(p, p');
    NatToStringInjective(c, c');
  }

  /** The chunks of section `parent`, in order. */
  function SectionChunks(videoId: string, parent: nat, summary: string, children: seq<string>): (r: seq<Chunk>)
    ensures |r| == |children|
    ensures forall c :: 0 <= c < |children| ==>
              r[c] == Chunk(DocId(videoId, parent, c), children[c], ChunkMetadata(videoId, c, parent, summary))
  {
    seq(|children|, c requires 0 <= c < |children| =>
      Chunk(DocId(videoId, parent, c), children[c], ChunkMetadata(videoId, c, parent, summary)))
  }

  function SectionSummary(section: string, sv: Services): string
  {
    sv.llm(ChapterPrompt(section))
  }

  function ChapterSummaries(parents: seq<string>, sv: Services): (r: seq<string>)
    ensures |r| == |parents| && forall p :: 0 <= p < |parents| ==> r[p] == SectionSummary(parents[p], sv)
  {
    seq(|parents|, p requires 0 <= p < |parents| => SectionSummary(parents[p], sv))
  }

  /** Every chunk of every section, section by section. */
  function PlanChunks(videoId: string, parents: seq<string>, sv: Services): seq<Chunk>
    decreases |parents|
  {
    if |parents| == 0 then []
    else
      var p := |parents| - 1;
      PlanChunks(videoId, parents[..p], sv)
        + SectionChunks(videoId, p, SectionSummary(parents[p], sv), sv.childSplit(parents[p]))
  }

  function TotalChildren(parents: seq<string>, sv: Services): nat
    decreases |parents|
  {
    if |parents| == 0 then 0
    else TotalChildren(parents[..|parents| - 1], sv) + |sv.childSplit(parents[|parents| - 1])|
  }

  /** `ch` is chunk `chunkIndex` of section `parentId`: its text, its id and
      its section's summary. */
  predicate ChunkOf(videoId: string, parents: seq<string>, sv: Services, ch: Chunk)
  {
    var m := ch.metadata;
    && m.videoId == videoId
    && m.parentId < |parents|
    && m.chunkIndex < |sv.childSplit(parents[m.parentId])|
    && ch.text == sv.childSplit(parents[m.parentId])[m.chunkIndex]
    && m.chapterSummary == SectionSummary(parents[m.parentId], sv)
    && ch.id == DocId(videoId, m.parentId, m.chunkIndex)
  }

  /** Section order, then chunk order within a section. */
  predicate Before(a: ChunkMetadata, b: ChunkMetadata)
  {
    a.parentId < b.parentId || (a.parentId == b.parentId && a.chunkIndex < b.chunkIndex)
  }

  /** The nested loop yields one chunk per child of each section, each one
      carrying its own text, id and section summary. */
  lemma {:induction false} PlanChunksShape(videoId: string, parents: seq<string>, sv: Services)
    ensures |PlanChunks(videoId, parents, sv)| == TotalChildren(parents, sv)
    ensures forall k :: 0 <= k < |PlanChunks(videoId, parents, sv)| ==>
              ChunkOf(videoId, parents, sv, PlanChunks(videoId, parents, sv)[k])
    decreases |parents|
  {
    if |parents| > 0 {
      var n := |parents| - 1;
      var init := parents[..n];
      PlanChunksShape(videoId, init, sv);
      var prev := PlanChunks(videoId, init, sv);
      var sec := SectionChunks(videoId, n, SectionSummary(parents[n], sv), sv.childSplit(parents[n]));
      var plan := prev + sec;
      assert PlanChunks(videoId, parents, sv) == plan;
      forall k | 0 <= k < |plan| ensures ChunkOf(videoId, parents, sv, plan[k]) {
        if k < |prev| {
          assert plan[k] == prev[k];
          assert ChunkOf(videoId, init, sv, prev[k]);
          assert init[prev[k].metadata.parentId] == parents[prev[k].metadata.parentId];
        } else {
          assert plan[k] == sec[k - |prev|];
        }
      }
    }
  }

  /** The chunks come in transcript order: section by section, and chunk by
      chunk within a section. */
  lemma {:induction false} PlanChunksOrdered(videoId: string, parents: seq<string>, sv: Services)
    ensures forall i, j :: 0 <= i < j < |PlanChunks(videoId, parents, sv)| ==>
              Before(PlanChunks(videoId, parents, sv)[i].metadata, PlanChunks(videoId, parents, sv)[j].metadata)
    decreases |parents|
  {
    if |parents| > 0 {
      var n := |parents| - 1;
      var init := parents[..n];
      PlanChunksOrdered(videoId, init, sv);
      PlanChunksShape(videoId, init, sv);
      var prev := PlanChunks(videoId, init, sv);
      var sec := SectionChunks(videoId, n, SectionSummary(parents[n], sv), sv.childSplit(parents[n]));
      var plan := prev + sec;
      assert PlanChunks(videoId, parents, sv) == plan;
      forall i, j | 0 <= i < j < |plan| ensures Before(plan[i].metadata, plan[j].metadata) {
        if j < |prev| {
          assert plan[i] == prev[i] && plan[j] == prev[j];
        } else if i < |prev| {
          assert plan[i] == prev[i] && plan[j] == sec[j - |prev|];
          assert ChunkOf(videoId, init, sv, prev[i]);
        } else {
          assert plan[i] == sec[i - |prev|] && plan[j] == sec[j - |prev|];
        }
      }
    }
  }

  /** No two chunks of one ingestion share an id, so none overwrites
      another in the vector index. */
  lemma PlanIdsDistinct(videoId: string, parents: seq<string>, sv: Services)
    ensures var plan := PlanChunks(videoId, parents, sv);
            forall i, j :: 0 <= i < j < |plan| ==> plan[i].id != plan[j].id
  {
    var plan := PlanChunks(videoId, parents, sv);
    PlanChunksShape(videoId, parents, sv);
    PlanChunksOrdered(videoId, parents, sv);
    forall i, j | 0 <= i < j < |plan| ensures plan[i].id != plan[j].id {
      var a, b := plan[i].metadata, plan[j].metadata;
      assert ChunkOf(videoId, parents, sv, plan[i]) && ChunkOf(videoId, parents, sv, plan[j]);
      assert Before(a, b);
      if plan[i].id == plan[j].id {
        DocIdInjective(videoId, a.parentId, a.chunkIndex, b.parentId, b.chunkIndex);
      }
    }
  }

  /** `ids`, `texts` and `metadatas` are the columns of `chunks`. */
  predicate Columns(ids: seq<string>, texts: seq<string>, metadatas: seq<ChunkMetadata>, chunks: seq<Chunk>)
  {
    && |ids| == |chunks| && |texts| == |chunks| && |metadatas| == |chunks|
    && forall k :: 0 <= k < |chunks| ==> chunks[k] == Chunk(ids[k], texts[k], metadatas[k])
  }

  /** The nested loop of `ingest_youtube_video`: one summary per section and
      one id, text and metadata entry per chunk. */
  method BuildChunks(videoId: string, parents: seq<string>, sv: Services)
    returns (ids: seq<string>, texts: seq<string>, metadatas: seq<ChunkMetadata>, summaries: seq<string>)
    ensures Columns(ids, texts, metadatas, PlanChunks(videoId, parents, sv))
    ensures summaries == ChapterSummaries(parents, sv)
  {
    ids, texts, metadatas, summaries := [], [], [], [];
    var p := 0;
    while p < |parents|
      invariant 0 <= p <= |parents|
      invariant Columns(ids, texts, metadatas, PlanChunks(videoId, parents[..p], sv))
      invariant summaries == ChapterSummaries(parents[..p], sv)
    {
      var chapterContext := sv.llm(ChapterPrompt(parents[p]));
      summaries := summaries + [chapterContext];
      var childChunks := sv.childSplit(parents[p]);
      ghost var done := PlanChunks(videoId, parents[..p], sv);
      ids, texts, metadatas := AddSectionChunks(videoId, p, chapterContext, childChunks, ids, texts, metadatas, done);
      assert parents[..p + 1][..p] == parents[..p];
      assert PlanChunks(videoId, parents[..p + 1], sv)
             == done + SectionChunks(videoId, p, chapterContext, childChunks);
      p := p + 1;
    }
    assert parents[..p] == parents;
  }

  /** The inner loop of `ingest_youtube_video`: the columns of one section's
      chunks are appended to those of the sections before it. */
  method AddSectionChunks(videoId: string, p: nat, summary: string, children: seq<string>,
                          ids: seq<string>, texts: seq<string>, metadatas: seq<ChunkMetadata>,
                          ghost done: seq<Chunk>)
    returns (ids': seq<string>, texts': seq<string>, metadatas': seq<ChunkMetadata>)
    requires Columns(ids, texts, metadatas, done)
    ensures Columns(ids', texts', metadatas', done + SectionChunks(videoId, p, summary, children))
  {
    ids', texts', metadatas' := ids, texts, metadatas;
    ghost var section := SectionChunks(videoId, p, summary, children);
    var c := 0;
    while c < |children|
      invariant 0 <= c <= |children|
      invariant Columns(ids', texts', metadatas', done + section[..c])
    {
      ids' := ids' + [DocId(videoId, p, c)];
      texts' := texts' + [children[c]];
      metadatas' := metadatas' + [ChunkMetadata(videoId, c, p, summary)];
      assert done + section[..c + 1] == (done + section[..c]) + [section[c]];
      c := c + 1;
    }
    assert section[..c] == section;
  }

  function Bullets(items: seq<string>): (r: seq<string>)
    ensures |r| == |items| && forall i :: 0 <= i < |items| ==> r[i] == "- " + items[i]
  {
    seq(|items|, i requires 0 <= i < |items| => "- " + items[i])
  }

  /** The prompt asking for the video's global summary. */
  function GlobalSummaryPrompt(summaries: seq<string>): string
  {
    OutlineHeader + "- " + Join(summaries, "\n- ") + "\n\n" + GlobalTask
  }

  /** The outline in the global prompt is a bulleted list: one "- " line per
      section summary, in section order. */
  lemma {:induction false} OutlineBullets(summaries: seq<string>)
    requires |summaries| > 0
    ensures "- " + Join(summaries, "\n- ") == Join(Bullets(summaries), "\n")
  {
    if |summaries| > 1 {
      var rest := summaries[1..];
      OutlineBullets(rest);
      assert Bullets(summaries)[1..] == Bullets(rest);
      calc {
        "- " + Join(summaries, "\n- ");
        "- " + (summaries[0] + "\n- " + Join(rest, "\n- "));
        ("- " + summaries[0]) + "\n" + ("- " + Join(rest, "\n- "));
        ("- " + summaries[0]) + "\n" + Join(Bullets(rest), "\n");
        Join(Bullets(summaries), "\n");
      }
    }
  }

  /** `embed_documents`: one embedding per text. */
  function EmbedDocuments(texts: seq<string>, sv: Services): (r: seq<Embedding>)
    ensures |r| == |texts| && forall i :: 0 <= i < |texts| ==> r[i] == sv.embed(texts[i])
  {
    seq(|texts|, i requires 0 <= i < |texts| => sv.embed(texts[i]))
  }

  function VectorRecords(texts: seq<string>, embeddings: seq<Embedding>, metadatas: seq<ChunkMetadata>): (r: seq<VectorRecord>)
    requires |embeddings| == |texts| && |metadatas| == |texts|
    ensures |r| == |texts|
    ensures forall i :: 0 <= i < |texts| ==> r[i] == VectorRecord(texts[i], embeddings[i], metadatas[i])
  {
    seq(|texts|, i requires 0 <= i < |texts| => VectorRecord(texts[i], embeddings[i], metadatas[i]))
  }

  function ChunkIds(chunks: seq<Chunk>): (r: seq<string>)
    ensures |r| == |chunks| && forall k :: 0 <= k < |chunks| ==> r[k] == chunks[k].id
  {
    seq(|chunks|, k requires 0 <= k < |chunks| => chunks[k].id)
  }

  /** The record each chunk is stored as. */
  function ChunkRecords(chunks: seq<Chunk>, sv: Services): (r: seq<VectorRecord>)
    ensures |r| == |chunks|
    ensures forall k :: 0 <= k < |chunks| ==>
              r[k] == VectorRecord(chunks[k].text, sv.embed(chunks[k].text), chunks[k].metadata)
  {
    seq(|chunks|, k requires 0 <= k < |chunks| =>
      VectorRecord(chunks[k].text, sv.embed(chunks[k].text), chunks[k].metadata))
  }

  /** The index after writing `records[k]` under `ids[k]` in list order: a
      later write to an id replaces an earlier one. */
  function Upserted(m: map<string, VectorRecord>, ids: seq<string>, records: seq<VectorRecord>): map<string, VectorRecord>
    requires |records| == |ids|
    decreases |ids|
  {
    if |ids| == 0 then m
    else
      var n := |ids| - 1;
      Upserted(m, ids[..n], records[..n])[ids[n] := records[n]]
  }

  /** With distinct ids, every record is stored under its id, and every
      other id keeps what it had. */
  lemma {:induction false} UpsertedContents(m: map<string, VectorRecord>, ids: seq<string>, records: seq<VectorRecord>)
    requires |records| == |ids|
    requires forall i, j :: 0 <= i < j < |ids| ==> ids[i] != ids[j]
    ensures forall k :: 0 <= k < |ids| ==> ids[k] in Upserted(m, ids, records) && Upserted(m, ids, records)[ids[k]] == records[k]
    ensures forall key :: key !in ids ==> (key in Upserted(m, ids, records) <==> key in m)
    ensures forall key :: key !in ids && key in m ==> Upserted(m, ids, records)[key] == m[key]
    decreases |ids|
  {
    if |ids| > 0 {
      var n := |ids| - 1;
      UpsertedContents(m, ids[..n], records[..n]);
      forall key | key !in ids
        ensures key !in ids[..n]
      {
      }
      forall k | 0 <= k < n
        ensures ids[k] == ids[..n][k] && records[k] == records[..n][k] && ids[k] != ids[n]
      {
      }
    }
  }

  /** The vector index: records by id. */
  class VectorIndex {
    var records: map<string, VectorRecord>

    constructor ()
      ensures records == map[]
    {
      records := map[];
    }

    /** `add_texts(ids=..., texts=..., embeddings=..., metadatas=...)`. */
    method AddTexts(ids: seq<string>, texts: seq<string>, embeddings: seq<Embedding>, metadatas: seq<ChunkMetadata>)
      requires |texts| == |ids| && |embeddings| == |ids| && |metadatas| == |ids|
      modifies this
      ensures records == Upserted(old(records), ids, VectorRecords(texts, embeddings, metadatas))
    {
      ghost var all := VectorRecords(texts, embeddings, metadatas);
      var i := 0;
      while i < |ids|
        invariant 0 <= i <= |ids|
        invariant records == Upserted(old(records), ids[..i], all[..i])
      {
        records := records[ids[i] := VectorRecord(texts[i], embeddings[i], metadatas[i])];
        assert ids[..i + 1][..i] == ids[..i] && all[..i + 1][..i] == all[..i];
        i := i + 1;
      }
      assert ids[..i] == ids && all[..i] == all;
    }
  }

  /** What one call of `ingest_youtube_video` does. */
  datatype Ingestion =
    | Rejected(failure: Failure)               // nothing written
    | AlreadyStored(video: Video)              // nothing written
    | Indexed(chunks: seq<Chunk>, row: Option<Video>)
      // chunks upserted; `row` is saved, or with no oEmbed title the insert raises

  /** The decision of `ingest_youtube_video` given what the services
      answer: `page` the watch page, `info` the oEmbed data, `api` the
      transcript service, and `stored` the saved videos. */
  function IngestionOf(url: Url, page: Option<string>, info: Option<VideoInfo>, api: TranscriptApi,
                       sv: Services, stored: seq<Video>): Ingestion
  {
    if url.parts.None? then Rejected(Raised)
    else
      var vid := GetYouTubeVideoId(url.parts.value);
      if vid.None? || vid.value == "" then Rejected(Http(HttpError(400, InvalidUrlDetail)))
      else match FindVideo(stored, vid.value)
        case Some(v) => AlreadyStored(v)
        case None => NewVideoIngestion(url, vid.value, page, info, api, sv)
  }

  /** What passes the gates of a new video: its oEmbed data, its
      timestamped transcript and its length, if known. */
  datatype Admitted = Admitted(data: VideoInfo, transcript: string, duration: Option<nat>)

  /** The gates of a video that is not stored yet: the length gate, the
      oEmbed data, the timestamped transcript and the transcript gate. */
  function Gates(url: Url, page: Option<string>, info: Option<VideoInfo>, api: TranscriptApi): Result<Admitted, Failure>
  {
    var duration := GetVideoDuration(url, page);
    if duration.Some? && duration.value > MaxDuration then
      Err(Http(HttpError(413, TooLongDetail(duration.value))))
    else match GetVideoData(url, info)
      case Err(e) => Err(Http(e))
      case Ok(data) =>
        match TimestampsOutcome(url, None, api)
        case Err(e) => Err(Http(e))
        case Ok(transcript) =>
          if NoTranscript(transcript) then Err(Http(HttpError(404, NoTranscriptDetail)))
          else Ok(Admitted(data, transcript, duration))
  }

  /** The decision for a video that is not stored yet. */
  function NewVideoIngestion(url: Url, videoId: string, page: Option<string>, info: Option<VideoInfo>,
                             api: TranscriptApi, sv: Services): Ingestion
  {
    match Gates(url, page, info, api)
    case Err(f) => Rejected(f)
    case Ok(a) => Indexing(url, videoId, a.data, a.transcript, a.duration, sv)
  }

  /** `not transcript or transcript.startswith("No captions")`. */
  predicate NoTranscript(transcript: string)
  {
    transcript == "" || StartsWith(transcript, "No captions")
  }

  /** The chunks to index and the row to save for a transcript that passed
      the gates. */
  function Indexing(url: Url, videoId: string, data: VideoInfo, transcript: string, duration: Option<nat>,
                    sv: Services): Ingestion
  {
    var parents := sv.parentSplit(transcript);
    var summary := sv.llm(GlobalSummaryPrompt(ChapterSummaries(parents, sv)));
    Indexed(PlanChunks(videoId, parents, sv),
            if data.title.None? then None
            else Some(Video(videoId, url.text, data.title.value, data.authorName,
                            data.thumbnailUrl, transcript, duration, summary)))
  }

  /** `ingest_youtube_video`. */
  method IngestYouTubeVideo(url: Url, page: Option<string>, info: Option<VideoInfo>, api: TranscriptApi,
                            sv: Services, db: Database, index: VectorIndex)
    returns (r: Result<Video, Failure>)
    requires db.Valid()
    modifies db, index
    ensures db.Valid()
    ensures var d := IngestionOf(url, page, info, api, sv, old(db.videos));
      && (!d.Indexed? ==> unchanged(db) && unchanged(index))
      && (d.Rejected? ==> r == Err(d.failure))
      && (d.AlreadyStored? ==> r == Ok(d.video))
      && (d.Indexed? ==> index.records == Upserted(old(index.records), ChunkIds(d.chunks), ChunkRecords(d.chunks, sv)))
      && (d.Indexed? && d.row.None? ==> r == Err(Raised) && unchanged(db))
      && (d.Indexed? && d.row.Some? ==>
            && r == Ok(d.row.value)
            && db.videos == old(db.videos) + [d.row.value]
            && db.threads == old(db.threads) && db.messages == old(db.messages)
            && db.commits == old(db.commits) + 1)
  {
    if url.parts.None? {
      return Err(Raised);
    }
    var vid := GetYouTubeVideoId(url.parts.value);
    if vid.None? || vid.value == "" {
      return Err(Http(HttpError(400, InvalidUrlDetail)));
    }
    var existing := db.GetVideoById(vid.value);
    if existing.Some? {
      return Ok(existing.value);
    }
    r := IngestNewVideo(url, vid.value, page, info, api, sv, db, index);
  }

  /** Ingestion past the lookup of the stored row. */
  method IngestNewVideo(url: Url, videoId: string, page: Option<string>, info: Option<VideoInfo>,
                        api: TranscriptApi, sv: Services, db: Database, index: VectorIndex)
    returns (r: Result<Video, Failure>)
    requires db.Valid() && videoId !in VideoIds(db.videos)
    modifies db, index
    ensures db.Valid()
    ensures var d := NewVideoIngestion(url, videoId, page, info, api, sv);
      && (!d.Indexed? ==> unchanged(db) && unchanged(index))
      && (d.Rejected? ==> r == Err(d.failure))
      && (d.Indexed? ==> index.records == Upserted(old(index.records), ChunkIds(d.chunks), ChunkRecords(d.chunks, sv)))
      && (d.Indexed? && d.row.None? ==> r == Err(Raised) && unchanged(db))
      && (d.Indexed? && d.row.Some? ==>
            && r == Ok(d.row.value)
            && db.videos == old(db.videos) + [d.row.value]
            && db.threads == old(db.threads) && db.messages == old(db.messages)
            && db.commits == old(db.commits) + 1)
  {
    var admitted := PassGates(url, page, info, api);
    if admitted.Err? {
      return Err(admitted.error);
    }
    var a := admitted.value;
    assert NewVideoIngestion(url, videoId, page, info, api, sv)
           == Indexing(url, videoId, a.data, a.transcript, a.duration, sv);
    r := IndexAndSave(url, videoId, a.data, a.transcript, a.duration, sv, db, index);
  }

  /** The checks `ingest_youtube_video` makes before it indexes anything. */
  method PassGates(url: Url, page: Option<string>, info: Option<VideoInfo>, api: TranscriptApi)
    returns (r: Result<Admitted, Failure>)
    ensures r == Gates(url, page, info, api)
  {
    var duration := GetVideoDuration(url, page);
    if duration.Some? && duration.value > MaxDuration {
      return Err(Http(HttpError(413, TooLongDetail(duration.value))));
    }
    var videoInfo := GetVideoData(url, info);
    if videoInfo.Err? {
      return Err(Http(videoInfo.error));
    }
    var transcript := GetVideoTimestamps(url, None, api);
    if transcript.Err? {
      return Err(Http(transcript.error));
    }
    if NoTranscript(transcript.value) {
      return Err(Http(HttpError(404, NoTranscriptDetail)));
    }
    r := Ok(Admitted(videoInfo.value, transcript.value, duration));
  }

  /** Chunking, summarising, the vector upsert, then the insert and commit. */
  method IndexAndSave(url: Url, videoId: string, data: VideoInfo, transcript: string, duration: Option<nat>,
                      sv: Services, db: Database, index: VectorIndex)
    returns (r: Result<Video, Failure>)
    requires db.Valid() && videoId !in VideoIds(db.videos)
    modifies db, index
    ensures db.Valid()
    ensures var d := Indexing(url, videoId, data, transcript, duration, sv);
      && index.records == Upserted(old(index.records), ChunkIds(d.chunks), ChunkRecords(d.chunks, sv))
      && (d.row.None? ==> r == Err(Raised) && unchanged(db))
      && (d.row.Some? ==>
            && r == Ok(d.row.value)
            && db.videos == old(db.videos) + [d.row.value]
            && db.threads == old(db.threads) && db.messages == old(db.messages)
            && db.commits == old(db.commits) + 1)
  {
    var parents := sv.parentSplit(transcript);
    var ids, texts, metadatas, summaries := BuildChunks(videoId, parents, sv);
    var globalSummary := sv.llm(GlobalSummaryPrompt(summaries));
    var embeddings := EmbedDocuments(texts, sv);
    ghost var plan := PlanChunks(videoId, parents, sv);
    assert ids == ChunkIds(plan);
    assert VectorRecords(texts, embeddings, metadatas) == ChunkRecords(plan, sv);
    index.AddTexts(ids, texts, embeddings, metadatas);
    if data.title.None? {
      return Err(Raised);
    }
    var video := Video(videoId, url.text, data.title.value, data.authorName, data.thumbnailUrl,
                       transcript, duration, globalSummary);
    var added := db.AddVideo(video);
    r := Ok(added.value);
  }

  /** The vector write of an indexed ingestion: every planned chunk is
      stored under its own id as its text, that text's embedding and its
      metadata, and every other id of the index keeps what it had. */
  lemma IndexedUpsert(url: Url, page: Option<string>, info: Option<VideoInfo>, api: TranscriptApi, sv: Services,
                      stored: seq<Video>, m: map<string, VectorRecord>)
    requires IngestionOf(url, page, info, api, sv, stored).Indexed?
    ensures var chunks := IngestionOf(url, page, info, api, sv, stored).chunks;
      var after := Upserted(m, ChunkIds(chunks), ChunkRecords(chunks, sv));
      && (forall k :: 0 <= k < |chunks| ==>
            chunks[k].id in after
            && after[chunks[k].id] == VectorRecord(chunks[k].text, sv.embed(chunks[k].text), chunks[k].metadata))
      && (forall key :: key !in ChunkIds(chunks) ==> (key in after <==> key in m))
      && (forall key :: key !in ChunkIds(chunks) && key in m ==> after[key] == m[key])
  {
    var vid := GetYouTubeVideoId(url.parts.value).value;
    var a := Gates(url, page, info, api).value;
    var parents := sv.parentSplit(a.transcript);
    var chunks := IngestionOf(url, page, info, api, sv, stored).chunks;
    assert chunks == PlanChunks(vid, parents, sv);
    PlanIdsDistinct(vid, parents, sv);
    UpsertedContents(m, ChunkIds(chunks), ChunkRecords(chunks, sv));
  }

  /** Ingesting a URL again after it was saved returns the saved row and
      writes nothing, whatever the services answer the second time. */
  lemma IngestIdempotent(url: Url, page: Option<string>, info: Option<VideoInfo>, api: TranscriptApi, sv: Services,
                         stored: seq<Video>,
                         page': Option<string>, info': Option<VideoInfo>, api': TranscriptApi, sv': Services)
    requires IngestionOf(url, page, info, api, sv, stored).Indexed?
    requires IngestionOf(url, page, info, api, sv, stored).row.Some?
    ensures var v := IngestionOf(url, page, info, api, sv, stored).row.value;
            IngestionOf(url, page', info', api', sv', stored + [v]) == AlreadyStored(v)
  {
    var d := IngestionOf(url, page, info, api, sv, stored);
    var vid := GetYouTubeVideoId(url.parts.value).value;
    assert FindVideo(stored, vid).None? && d == NewVideoIngestion(url, vid, page, info, api, sv);
    NewVideoRowKey(url, vid, page, info, api, sv);
    FindVideoAfterAdd(stored, d.row.value);
  }

  lemma NewVideoRowKey(url: Url, videoId: string, page: Option<string>, info: Option<VideoInfo>,
                       api: TranscriptApi, sv: Services)
    ensures var d := NewVideoIngestion(url, videoId, page, info, api, sv);
            d.Indexed? && d.row.Some? ==> d.row.value.videoId == videoId
  {
    var d := NewVideoIngestion(url, videoId, page, info, api, sv);
    if d.Indexed? {
      var a := Gates(url, page, info, api).value;
      assert d == Indexing(url, videoId, a.data, a.transcript, a.duration, sv);
    }
  }

  /** A video over 1200 seconds is refused with 413 before anything is
      fetched or written; 1200 seconds, or an unknown length, is not. */
  lemma DurationGate(url: Url, page: Option<string>, info: Option<VideoInfo>, api: TranscriptApi, sv: Services,
                     stored: seq<Video>)
    requires url.parts.Some?
    requires GetYouTubeVideoId(url.parts.value).Some? && GetYouTubeVideoId(url.parts.value).value != ""
    requires GetYouTubeVideoId(url.parts.value).value !in VideoIds(stored)
    ensures var d := GetVideoDuration(url, page);
            var i := IngestionOf(url, page, info, api, sv, stored);
            && (d.Some? && d.value > 1200 ==> i == Rejected(Http(HttpError(413, TooLongDetail(d.value)))))
            && (d.None? || d.value <= 1200 ==> !(i.Rejected? && i.failure.Http? && i.failure.error.status == 413))
  {
    var d := GetVideoDuration(url, page);
    if d.None? || d.value <= 1200 {
      var e := ExtractVideoId(url);
      if e.Ok? && info.Some? {
        var t := TimestampsOutcome(url, None, api);
        assert t.Err? ==> t.error.status in {400, 500};
      }
    }
  }

  /** A timestamp text is empty exactly when the transcript has no
      snippets, and otherwise opens with a digit. */
  lemma TimestampTextShape(snippets: seq<Snippet>)
    ensures TimestampText(snippets) == "" <==> |snippets| == 0
    ensures |snippets| > 0 ==> IsDigit(TimestampText(snippets)[0])
  {
    if |snippets| > 0 {
      var entries := TimestampEntries(snippets);
      var first := NatToString(snippets[0].start / 60);
      assert entries[0] == first + (":" + Pad2(snippets[0].start % 60) + " - " + snippets[0].text);
      assert entries[0][0] == first[0];
      JoinFirst(entries, ", ");
    }
  }

  /** The transcript gate refuses a video with 404 exactly when its
      transcript has no snippets: a timestamp text opens with a digit, so
      the "No captions" test never fires. */
  lemma TranscriptGate(url: Url, page: Option<string>, info: Option<VideoInfo>, api: TranscriptApi, sv: Services,
                       stored: seq<Video>, snippets: seq<Snippet>)
    requires ExtractVideoId(url).Ok? && ExtractVideoId(url).value !in VideoIds(stored)
    requires GetVideoDuration(url, page).None? || GetVideoDuration(url, page).value <= 1200
    requires info.Some? && TranscriptWithFallback(api, None) == Some(snippets)
    ensures IngestionOf(url, page, info, api, sv, stored) == Rejected(Http(HttpError(404, NoTranscriptDetail)))
            <==> |snippets| == 0
  {
    TimestampTextShape(snippets);
    var t := TimestampText(snippets);
    if |snippets| > 0 {
      assert !IsDigit('N');
      assert t[0] != "No captions"[0];
    }
  }
}
