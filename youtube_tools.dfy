/** `services/youtube_tools.py`: the video id of a YouTube URL, the transcript
    language fallback, the caption and timestamp texts built from a
    transcript, and the `lengthSeconds` scrape. The transcript service, the
    oEmbed endpoint and the watch page are inputs: what they answer (or that
    they fail) is given, never fetched. */
module YouTubeTools {
  import opened Models
  import opened Text

  /** One `name=value` pair of a query string, as `parse_qs` keeps it (blank
      values dropped), in query order. */
  datatype QueryPair = QueryPair(name: string, value: string)

  /** What `urlparse` makes of a URL: `hostname` (already lower-cased by
      `urlparse`, absent when there is no network location), `path` and the
      query pairs. */
  datatype UrlParts = UrlParts(hostname: Option<string>, path: string, query: seq<QueryPair>)

  /** A URL as the caller gave it, with its parse; `parts` is `None` when
      `urlparse` raises. */
  datatype Url = Url(text: string, parts: Option<UrlParts>)

  /** One caption line; `start` is `int(snippet.start)`, whole seconds. */
  datatype Snippet = Snippet(text: string, start: nat)

  /** One entry of the transcript list of a video. */
  datatype TranscriptInfo = TranscriptInfo(language: string, languageCode: string, isGenerated: bool, isTranslatable: bool)

  /** What the transcript service answers for one video: the transcript list
      (`None` when listing raises) and the snippets it returns when asked for
      a language code (a code outside `tracks` makes `fetch` raise). */
  datatype TranscriptApi = TranscriptApi(listing: Option<seq<TranscriptInfo>>, tracks: map<string, seq<Snippet>>)

  /** The oEmbed fields ingestion keeps. */
  datatype VideoInfo = VideoInfo(title: Option<string>, authorName: Option<string>, thumbnailUrl: Option<string>)

  const NoUrlDetail := "No URL provided"
  const InvalidUrlDetail := "Invalid YouTube URL"
  const BadUrlDetail := "Error getting video ID from URL"
  const NoCaptionsText := "No captions found for video"
  /** Prefixes of the 500 details; the exception text that follows them is
      not modelled. */
  const VideoDataFailure := "Error getting video data: "
  const CaptionsFailure := "Error getting captions for video: "
  const TimestampsFailure := "Error generating timestamps: "
  const LanguagesFailure := "Error listing transcript languages: "

  predicate IsYouTubeHost(host: Option<string>) {
    host == Some("www.youtube.com") || host == Some("youtube.com")
  }

  /** `parse_qs(query).get(name, [None])[0]`: the first value given for
      `name`. */
  function FirstValue(query: seq<QueryPair>, name: string): (r: Option<string>)
    ensures r.None? <==> forall i :: 0 <= i < |query| ==> query[i].name != name
    ensures r.Some? ==> exists i :: && 0 <= i < |query| && query[i].name == name && query[i].value == r.value
                                   && forall j :: 0 <= j < i ==> query[j].name != name
  {
    if |query| == 0 then None
    else if query[0].name == name then Some(query[0].value)
    else
      var r := FirstValue(query[1..], name);
      assert r.Some? ==> exists i :: && 0 <= i < |query[1..]| && query[1..][i].name == name
                                     && query[1..][i].value == r.value
                                     && (forall j :: 0 <= j < i ==> query[1..][j].name != name)
                                     && query[i + 1] == query[1..][i];
      r
  }

  lemma {:induction false} SlashSegments(path: string, word: string)
    requires '/' !in word
    requires StartsWith(path, "/" + word + "/")
    ensures Split(path, '/') == ["", word] + Split(path[|word| + 2..], '/')
  {
    var rest := path[|word| + 2..];
    assert path == "" + ['/'] + (word + ['/'] + rest);
    SplitPrepend("", '/', word + ['/'] + rest);
    SplitPrepend(word, '/', rest);
  }

  /** `get_youtube_video_id`: `youtu.be/<id>`, `youtube.com/watch?v=<id>`,
      `youtube.com/embed/<id>` and `youtube.com/v/<id>`; anything else has
      no id. The id may be empty (`https://youtu.be/`). */
  function GetYouTubeVideoId(u: UrlParts): (r: Option<string>)
    ensures r.Some? ==> u.hostname == Some("youtu.be") || IsYouTubeHost(u.hostname)
    ensures r.None? <==>
      && u.hostname != Some("youtu.be")
      && (IsYouTubeHost(u.hostname) ==>
            && (u.path == "/watch" ==> forall i :: 0 <= i < |u.query| ==> u.query[i].name != "v")
            && (u.path != "/watch" ==> !StartsWith(u.path, "/embed/") && !StartsWith(u.path, "/v/")))
  {
    if u.hostname == Some("youtu.be") then
      Some(if |u.path| == 0 then "" else u.path[1..])
    else if IsYouTubeHost(u.hostname) then
      if u.path == "/watch" then
        FirstValue(u.query, "v")
      else if StartsWith(u.path, "/embed/") then
        SlashSegments(u.path, "embed");
        Some(Split(u.path, '/')[2])
      else if StartsWith(u.path, "/v/") then
        SlashSegments(u.path, "v");
        Some(Split(u.path, '/')[2])
      else None
    else None
  }

  /** The id of every recognised form: the path after the leading slash on
      `youtu.be`, the first `v` value on `/watch`, and the third
      `/`-separated segment (the text up to the next slash) on `/embed/` and
      `/v/`. */
  lemma VideoIdForms(u: UrlParts)
    ensures u.hostname == Some("youtu.be") && |u.path| > 0 ==> GetYouTubeVideoId(u) == Some(u.path[1..])
    ensures IsYouTubeHost(u.hostname) && u.path == "/watch" ==> GetYouTubeVideoId(u) == FirstValue(u.query, "v")
    ensures IsYouTubeHost(u.hostname) && StartsWith(u.path, "/embed/")
            ==> GetYouTubeVideoId(u) == Some(TakeUntil(u.path[7..], '/'))
    ensures IsYouTubeHost(u.hostname) && StartsWith(u.path, "/v/")
            ==> GetYouTubeVideoId(u) == Some(TakeUntil(u.path[3..], '/'))
  {
    if IsYouTubeHost(u.hostname) && StartsWith(u.path, "/embed/") {
      SlashSegments(u.path, "embed");
      SplitHead(u.path[7..], '/');
    }
    if IsYouTubeHost(u.hostname) && StartsWith(u.path, "/v/") {
      SlashSegments(u.path, "v");
      SplitHead(u.path[3..], '/');
    }
  }

  lemma {:induction false} TakeUntilWhole(s: string, c: char)
    requires c !in s
    ensures TakeUntil(s, c) == s
  {
    if |s| > 0 {
      TakeUntilWhole(s[1..], c);
      assert [s[0]] + s[1..] == s;
    }
  }

  /** The short, watch and embed links of one video agree on its id. */
  lemma SameVideoAllForms(id: string)
    requires '/' !in id
    ensures GetYouTubeVideoId(UrlParts(Some("youtu.be"), "/" + id, [])) == Some(id)
    ensures GetYouTubeVideoId(UrlParts(Some("www.youtube.com"), "/watch", [QueryPair("v", id)])) == Some(id)
    ensures GetYouTubeVideoId(UrlParts(Some("www.youtube.com"), "/embed/" + id, [])) == Some(id)
  {
    var embed := UrlParts(Some("www.youtube.com"), "/embed/" + id, []);
    VideoIdForms(embed);
    assert embed.path[7..] == id;
    TakeUntilWhole(id, '/');
    assert ("/" + id)[1..] == id;
  }

  /** The validation every public helper opens with: an empty URL is "No URL
      provided"; a URL without a usable id raises "Invalid YouTube URL" inside
      a `try` whose `except Exception` turns it, like any parse error, into
      "Error getting video ID from URL". Both are 400. */
  function ExtractVideoId(url: Url): (r: Result<string, HttpError>)
    ensures r.Err? ==> r.error.status == 400 && r.error.detail != InvalidUrlDetail
    ensures r.Err? ==> (r.error.detail == NoUrlDetail <==> url.text == "")
    ensures r.Ok? <==> url.text != "" && url.parts.Some? && GetYouTubeVideoId(url.parts.value).Some?
                       && GetYouTubeVideoId(url.parts.value).value != ""
    ensures r.Ok? ==> GetYouTubeVideoId(url.parts.value) == Some(r.value)
  {
    if url.text == "" then Err(HttpError(400, NoUrlDetail))
    else if url.parts.None? then Err(HttpError(400, BadUrlDetail))
    else match GetYouTubeVideoId(url.parts.value)
      case None => Err(HttpError(400, BadUrlDetail))
      case Some(id) => if id == "" then Err(HttpError(400, BadUrlDetail)) else Ok(id)
  }

  // ---------------------------------------------------------------------
  // Transcript language fallback

  function LanguageCodes(listing: seq<TranscriptInfo>): (r: seq<string>)
    ensures |r| == |listing| && forall i :: 0 <= i < |listing| ==> r[i] == listing[i].languageCode
  {
    seq(|listing|, i requires 0 <= i < |listing| => listing[i].languageCode)
  }

  /** The first preference that is available. */
  function FirstAvailable(preferences: seq<string>, available: seq<string>): Option<string>
  {
    if |preferences| == 0 then None
    else if preferences[0] in available then Some(preferences[0])
    else FirstAvailable(preferences[1..], available)
  }

  /** The language `_get_transcript_with_fallback` fetches; `None` where the
      source indexes an empty list and raises. */
  function LanguageChoice(languages: Option<seq<string>>, available: seq<string>): Option<string>
  {
    if languages.Some? && |languages.value| > 0 then
      match FirstAvailable(languages.value, available)
      case Some(lang) => Some(lang)
      case None => if |available| > 0 then Some(available[0]) else None
    else if "en" in available then Some("en")
    else if |available| > 0 then Some(available[0])
    else None
  }

  lemma {:induction false} FirstAvailableIsFirst(preferences: seq<string>, available: seq<string>)
    ensures FirstAvailable(preferences, available).None? <==> forall i :: 0 <= i < |preferences| ==> preferences[i] !in available
    ensures FirstAvailable(preferences, available).Some? ==>
      exists k :: && 0 <= k < |preferences| && preferences[k] in available
                  && FirstAvailable(preferences, available) == Some(preferences[k])
                  && forall j :: 0 <= j < k ==> preferences[j] !in available
  {
    if |preferences| > 0 && preferences[0] !in available {
      FirstAvailableIsFirst(preferences[1..], available);
      var r := FirstAvailable(preferences[1..], available);
      if r.Some? {
        var k :| && 0 <= k < |preferences[1..]| && preferences[1..][k] in available
                 && r == Some(preferences[1..][k])
                 && forall j :: 0 <= j < k ==> preferences[1..][j] !in available;
        assert forall j :: 0 <= j < k + 1 ==> preferences[j] !in available by {
          forall j | 0 <= j < k + 1 ensures preferences[j] !in available {
            if j > 0 { assert preferences[j] == preferences[1..][j - 1]; }
          }
        }
        assert preferences[k + 1] == preferences[1..][k];
      } else {
        assert forall i :: 0 <= i < |preferences| ==> preferences[i] !in available by {
          forall i | 0 <= i < |preferences| ensures preferences[i] !in available {
            if i > 0 { assert preferences[i] == preferences[1..][i - 1]; }
          }
        }
      }
    }
  }

  /** The fallback rule: with a non-empty preference list, the first
      preferred language that is available, else the first available one;
      otherwise `en` when available, else the first available one. A choice
      is always available, and there is none only when nothing is. */
  lemma LanguageChoiceRule(languages: Option<seq<string>>, available: seq<string>)
    ensures LanguageChoice(languages, available).None? <==> |available| == 0
    ensures LanguageChoice(languages, available).Some? ==> LanguageChoice(languages, available).value in available
    ensures languages.Some? && |languages.value| > 0 ==>
      forall k :: 0 <= k < |languages.value| && languages.value[k] in available
                  && (forall j :: 0 <= j < k ==> languages.value[j] !in available)
                  ==> LanguageChoice(languages, available) == Some(languages.value[k])
    ensures languages.Some? && |languages.value| > 0
            && (forall i :: 0 <= i < |languages.value| ==> languages.value[i] !in available) && |available| > 0
            ==> LanguageChoice(languages, available) == Some(available[0])
    ensures (languages.None? || |languages.value| == 0) ==>
      LanguageChoice(languages, available) == if "en" in available then Some("en")
                                              else if |available| > 0 then Some(available[0]) else None
  {
    if languages.Some? && |languages.value| > 0 {
      var prefs := languages.value;
      FirstAvailableIsFirst(prefs, available);
      forall k | 0 <= k < |prefs| && prefs[k] in available && (forall j :: 0 <= j < k ==> prefs[j] !in available)
        ensures LanguageChoice(languages, available) == Some(prefs[k])
      {
        var r := FirstAvailable(prefs, available);
        assert r.Some?;
        var k' :| && 0 <= k' < |prefs| && prefs[k'] in available && r == Some(prefs[k'])
                  && forall j :: 0 <= j < k' ==> prefs[j] !in available;
        assert k' == k;
      }
      if FirstAvailable(prefs, available).Some? {
        var k :| 0 <= k < |prefs| && prefs[k] in available && FirstAvailable(prefs, available) == Some(prefs[k]);
      }
    }
  }

  /** The preference loop of `_get_transcript_with_fallback`, with its early
      return. */
  method ChooseLanguage(languages: Option<seq<string>>, available: seq<string>) returns (r: Option<string>)
    ensures r == LanguageChoice(languages, available)
  {
    if languages.Some? && |languages.value| > 0 {
      var prefs := languages.value;
      var i := 0;
      while i < |prefs|
        invariant 0 <= i <= |prefs|
        invariant FirstAvailable(prefs[i..], available) == FirstAvailable(prefs, available)
      {
        if prefs[i] in available {
          return Some(prefs[i]);
        }
        assert prefs[i..][1..] == prefs[i + 1..];
        i := i + 1;
      }
      if |available| == 0 {
        return None;
      }
      return Some(available[0]);
    } else {
      if "en" in available {
        return Some("en");
      }
      if |available| == 0 {
        return None;
      }
      return Some(available[0]);
    }
  }

  /** The snippets `_get_transcript_with_fallback` returns; `None` when any
      step raises (listing, an empty language list, fetching). */
  function TranscriptWithFallback(api: TranscriptApi, languages: Option<seq<string>>): Option<seq<Snippet>>
  {
    if api.listing.None? then None
    else match LanguageChoice(languages, LanguageCodes(api.listing.value))
      case None => None
      case Some(lang) => if lang in api.tracks then Some(api.tracks[lang]) else None
  }

  method GetTranscriptWithFallback(api: TranscriptApi, languages: Option<seq<string>>) returns (r: Option<seq<Snippet>>)
    ensures r == TranscriptWithFallback(api, languages)
  {
    if api.listing.None? {
      return None;
    }
    var available := LanguageCodes(api.listing.value);
    var lang := ChooseLanguage(languages, available);
    if lang.None? || lang.value !in api.tracks {
      return None;
    }
    return Some(api.tracks[lang.value]);
  }

  // ---------------------------------------------------------------------
  // Captions

  function SnippetTexts(snippets: seq<Snippet>): (r: seq<string>)
    ensures |r| == |snippets| && forall i :: 0 <= i < |snippets| ==> r[i] == snippets[i].text
  {
    seq(|snippets|, i requires 0 <= i < |snippets| => snippets[i].text)
  }

  /** The text `get_video_captions` returns for a fetched transcript. */
  function CaptionText(snippets: seq<Snippet>): string
  {
    if |snippets| == 0 then NoCaptionsText else Join(SnippetTexts(snippets), " ")
  }

  /** An empty transcript reads "No captions found for video"; otherwise the
      snippet texts are joined by single spaces, in order, so captions of
      consecutive parts are the parts' captions separated by one space. */
  lemma CaptionTextRule(a: seq<Snippet>, b: seq<Snippet>)
    ensures CaptionText([]) == NoCaptionsText
    ensures |a| == 1 ==> CaptionText(a) == a[0].text
    ensures |a| > 0 && |b| > 0 ==> CaptionText(a + b) == CaptionText(a) + " " + CaptionText(b)
  {
    if |a| > 0 && |b| > 0 {
      assert SnippetTexts(a + b) == SnippetTexts(a) + SnippetTexts(b);
      JoinAppend(SnippetTexts(a), SnippetTexts(b), " ");
    }
  }

  /** `get_video_captions`. */
  function CaptionsOutcome(url: Url, languages: Option<seq<string>>, api: TranscriptApi): Result<string, HttpError>
  {
    match ExtractVideoId(url)
    case Err(e) => Err(e)
    case Ok(_) =>
      match TranscriptWithFallback(api, languages)
      case None => Err(HttpError(500, CaptionsFailure))
      case Some(snippets) => Ok(CaptionText(snippets))
  }

  method GetVideoCaptions(url: Url, languages: Option<seq<string>>, api: TranscriptApi) returns (r: Result<string, HttpError>)
    ensures r == CaptionsOutcome(url, languages, api)
  {
    var id := ExtractVideoId(url);
    if id.Err? {
      return Err(id.error);
    }
    var fetched := GetTranscriptWithFallback(api, languages);
    if fetched.None? {
      return Err(HttpError(500, CaptionsFailure));
    }
    if |fetched.value| > 0 {
      var texts := SnippetTexts(fetched.value);
      return Ok(Join(texts, " "));
    }
    return Ok(NoCaptionsText);
  }

  // ---------------------------------------------------------------------
  // Timestamps

  /** `f"{minutes}:{seconds:02d} - {text}"` with `divmod(start, 60)`. */
  function TimestampEntry(s: Snippet): string
  {
    NatToString(s.start / 60) + ":" + Pad2(s.start % 60) + " - " + s.text
  }

  function TimestampEntries(snippets: seq<Snippet>): (r: seq<string>)
    ensures |r| == |snippets| && forall i :: 0 <= i < |snippets| ==> r[i] == TimestampEntry(snippets[i])
  {
    seq(|snippets|, i requires 0 <= i < |snippets| => TimestampEntry(snippets[i]))
  }

  /** The text `get_video_timestamps` returns: one entry per snippet, in
      order, joined by ", ". */
  function TimestampText(snippets: seq<Snippet>): string
  {
    Join(TimestampEntries(snippets), ", ")
  }

  /** Reads an entry back: minutes before the first colon, two digits of
      seconds, " - ", then the caption text. */
  function ParseTimestampEntry(e: string): Option<(nat, string)>
  {
    var minutes := TakeUntil(e, ':');
    if |minutes| == 0 || |minutes| == |e| || !AllDigits(minutes) then None
    else
      var rest := e[|minutes| + 1..];
      if |rest| < 5 || !AllDigits(rest[..2]) || rest[2..5] != " - " then None
      else Some((DigitsValue(minutes) * 60 + DigitsValue(rest[..2]), rest[5..]))
  }

  lemma {:induction false} TakeUntilCut(w: string, c: char, t: string)
    requires c !in w
    ensures TakeUntil(w + [c] + t, c) == w
  {
    if |w| > 0 {
      assert (w + [c] + t)[1..] == w[1..] + [c] + t;
      TakeUntilCut(w[1..], c, t);
    }
  }

  /** Each entry carries its snippet's start second and text exactly:
      minutes are `start div 60` unpadded, seconds `start mod 60` on two
      digits. */
  lemma TimestampEntryRoundTrip(s: Snippet)
    ensures ParseTimestampEntry(TimestampEntry(s)) == Some((s.start, s.text))
  {
    var m := NatToString(s.start / 60);
    var sec := Pad2(s.start % 60);
    var e := TimestampEntry(s);
    assert ':' !in m by {
      forall i | 0 <= i < |m| ensures m[i] != ':' { assert IsDigit(m[i]); }
    }
    assert e == m + [':'] + (sec + " - " + s.text);
    TakeUntilCut(m, ':', sec + " - " + s.text);
    var rest := e[|m| + 1..];
    assert rest == sec + " - " + s.text;
    assert rest[..2] == sec && rest[2..5] == " - " && rest[5..] == s.text;
    NatToStringRoundTrip(s.start / 60);
  }

  /** The loop of `get_video_timestamps` that appends one entry per snippet,
      then the join. */
  method FormatTimestamps(snippets: seq<Snippet>) returns (r: string)
    ensures r == TimestampText(snippets)
  {
    var timestamps: seq<string> := [];
    var i := 0;
    while i < |snippets|
      invariant 0 <= i <= |snippets|
      invariant timestamps == TimestampEntries(snippets[..i])
    {
      var start := snippets[i].start;
      var minutes, seconds := start / 60, start % 60;
      timestamps := timestamps + [NatToString(minutes) + ":" + Pad2(seconds) + " - " + snippets[i].text];
      i := i + 1;
    }
    assert snippets[..i] == snippets;
    r := Join(timestamps, ", ");
  }

  /** `get_video_timestamps`. */
  function TimestampsOutcome(url: Url, languages: Option<seq<string>>, api: TranscriptApi): Result<string, HttpError>
  {
    match ExtractVideoId(url)
    case Err(e) => Err(e)
    case Ok(_) =>
      match TranscriptWithFallback(api, languages)
      case None => Err(HttpError(500, TimestampsFailure))
      case Some(snippets) => Ok(TimestampText(snippets))
  }

  method GetVideoTimestamps(url: Url, languages: Option<seq<string>>, api: TranscriptApi) returns (r: Result<string, HttpError>)
    ensures r == TimestampsOutcome(url, languages, api)
  {
    var id := ExtractVideoId(url);
    if id.Err? {
      return Err(id.error);
    }
    var fetched := GetTranscriptWithFallback(api, languages);
    if fetched.None? {
      return Err(HttpError(500, TimestampsFailure));
    }
    var text := FormatTimestamps(fetched.value);
    return Ok(text);
  }

  /** `get_video_transcript_languages`: one record per listed transcript, in
      list order, copying its four fields. */
  method GetVideoTranscriptLanguages(url: Url, api: TranscriptApi) returns (r: Result<seq<TranscriptInfo>, HttpError>)
    ensures ExtractVideoId(url).Err? ==> r == Err(ExtractVideoId(url).error)
    ensures ExtractVideoId(url).Ok? && api.listing.None? ==> r == Err(HttpError(500, LanguagesFailure))
    ensures ExtractVideoId(url).Ok? && api.listing.Some? ==> r == Ok(api.listing.value)
  {
    var id := ExtractVideoId(url);
    if id.Err? {
      return Err(id.error);
    }
    if api.listing.None? {
      return Err(HttpError(500, LanguagesFailure));
    }
    var transcripts := api.listing.value;
    var languagesInfo: seq<TranscriptInfo> := [];
    var i := 0;
    while i < |transcripts|
      invariant 0 <= i <= |transcripts|
      invariant languagesInfo == transcripts[..i]
    {
      var t := transcripts[i];
      languagesInfo := languagesInfo + [TranscriptInfo(t.language, t.languageCode, t.isGenerated, t.isTranslatable)];
      i := i + 1;
    }
    assert transcripts[..i] == transcripts;
    return Ok(languagesInfo);
  }

  /** An unusable URL fails every helper the same way, before any service is
      asked: 400 "No URL provided" when empty, else 400 "Error getting video
      ID from URL". */
  lemma InvalidUrlRejected(url: Url, languages: Option<seq<string>>, api: TranscriptApi, info: Option<VideoInfo>)
    requires url.parts.None? || GetYouTubeVideoId(url.parts.value) in {None, Some("")}
    ensures var e := HttpError(400, if url.text == "" then NoUrlDetail else BadUrlDetail);
            && CaptionsOutcome(url, languages, api) == Err(e)
            && TimestampsOutcome(url, languages, api) == Err(e)
            && GetVideoData(url, info) == Err(e)
  {
  }

  // ---------------------------------------------------------------------
  // oEmbed and duration

  /** `get_video_data`: `info` is the oEmbed answer, `None` when the request
      or its JSON fails. */
  function GetVideoData(url: Url, info: Option<VideoInfo>): (r: Result<VideoInfo, HttpError>)
    ensures r.Err? && r.error.status == 400 <==> ExtractVideoId(url).Err?
    ensures r.Ok? <==> ExtractVideoId(url).Ok? && info.Some?
    ensures r.Ok? ==> r.value == info.value
  {
    match ExtractVideoId(url)
    case Err(e) => Err(e)
    case Ok(_) => if info.None? then Err(HttpError(500, VideoDataFailure)) else Ok(info.value)
  }

  const LengthKey := "\"lengthSeconds\":\""

  /** The longest run of digits at the front of `s`. */
  function DigitRun(s: string): (r: string)
    ensures r <= s && AllDigits(r)
    ensures |r| < |s| ==> !IsDigit(s[|r|])
  {
    if |s| == 0 || !IsDigit(s[0]) then "" else [s[0]] + DigitRun(s[1..])
  }

  /** Where `"lengthSeconds":"(\d+)"` matches: the key, one or more digits
      and a closing quote. `\d+` is greedy and the quote is not a digit, so
      the digits of a match are the whole run after the key. */
  predicate MatchAt(html: string, i: nat)
  {
    && i + |LengthKey| <= |html|
    && html[i..i + |LengthKey|] == LengthKey
    && var d := DigitRun(html[i + |LengthKey|..]);
       && |d| > 0
       && i + |LengthKey| + |d| < |html|
       && html[i + |LengthKey| + |d|] == '"'
  }

  function MatchValue(html: string, i: nat): nat
    requires i + |LengthKey| <= |html|
  {
    DigitsValue(DigitRun(html[i + |LengthKey|..]))
  }

  /** `re.search` from position `from`: the value of the leftmost match. */
  function LengthSecondsFrom(html: string, from: nat): (r: Option<nat>)
    decreases |html| - from
    ensures r.None? <==> forall i: nat :: from <= i ==> !MatchAt(html, i)
    ensures r.Some? ==> exists i: nat :: && from <= i && MatchAt(html, i) && r.value == MatchValue(html, i)
                                          && forall j: nat :: from <= j < i ==> !MatchAt(html, j)
  {
    if |html| <= from then None
    else if MatchAt(html, from) then Some(MatchValue(html, from))
    else LengthSecondsFrom(html, from + 1)
  }

  /** `get_video_duration`: `page` is the watch page, `None` when fetching
      it raises (the source catches that and returns `None`). */
  function GetVideoDuration(url: Url, page: Option<string>): (r: Option<nat>)
    ensures r.Some? ==> && url.parts.Some? && GetYouTubeVideoId(url.parts.value).Some?
                        && GetYouTubeVideoId(url.parts.value).value != "" && page.Some?
                        && exists i: nat :: MatchAt(page.value, i) && r.value == MatchValue(page.value, i)
  {
    if url.parts.None? then None
    else match GetYouTubeVideoId(url.parts.value)
      case None => None
      case Some(id) =>
        if id == "" || page.None? then None else LengthSecondsFrom(page.value, 0)
  }
}
