/** `agents/chat_agent.py`: the `retrieve_context` tool of the agent. It
    runs one similarity search for the query, five results restricted to the
    videos of the run, and answers with the serialised passages (for the
    model) and the documents themselves (the artifact). */
module ChatAgent {
  import opened Text

  /** The metadata filter `{"video_id": {"$in": video_ids}}`. */
  datatype MetadataFilter = VideoIdIn(videoIds: seq<string>)

  datatype SearchRequest = SearchRequest(query: string, k: nat, filter: MetadataFilter)

  /** A retrieved document; `metadataText` is how Python prints its metadata
      dictionary. */
  datatype Document = Document(metadataText: string, pageContent: string)

  const SearchSize: nat := 5

  /** One serialised passage. */
  function Block(d: Document): string
  {
    "Source: " + d.metadataText + "\nContent: " + d.pageContent
  }

  function Blocks(docs: seq<Document>): (r: seq<string>)
    ensures |r| == |docs| && forall i :: 0 <= i < |docs| ==> r[i] == Block(docs[i])
  {
    seq(|docs|, i requires 0 <= i < |docs| => Block(docs[i]))
  }

  function Serialize(docs: seq<Document>): string
  {
    Join(Blocks(docs), "\n\n")
  }

  /** The tool: `search` is the vector store's similarity search. */
  function RetrieveContextTool(query: string, videoIds: seq<string>, search: SearchRequest -> seq<Document>)
    : (r: (string, seq<Document>))
    ensures r.1 == search(SearchRequest(query, 5, VideoIdIn(videoIds)))
    ensures r.0 == Serialize(r.1)
  {
    var docs := search(SearchRequest(query, SearchSize, VideoIdIn(videoIds)));
    (Serialize(docs), docs)
  }

  /** No documents serialise to the empty text; otherwise the text opens
      with the first source, and two runs of documents serialise to their
      texts separated by one blank line, so passages keep search order. */
  lemma SerializeRule(a: seq<Document>, b: seq<Document>)
    ensures Serialize([]) == ""
    ensures |a| > 0 ==> |Serialize(a)| > 0 && StartsWith(Serialize(a), "Source: ")
    ensures |a| > 0 && |b| > 0 ==> Serialize(a + b) == Serialize(a) + "\n\n" + Serialize(b)
  {
    if |a| > 0 {
      JoinFirst(Blocks(a), "\n\n");
      assert Blocks(a)[0] == "Source: " + (a[0].metadataText + "\nContent: " + a[0].pageContent);
    }
    if |a| > 0 && |b| > 0 {
      assert Blocks(a + b) == Blocks(a) + Blocks(b);
      JoinAppend(Blocks(a), Blocks(b), "\n\n");
    }
  }
}
