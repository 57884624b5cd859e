/**
 * supabase/functions/process-video/index.ts: the edge function the browser
 * triggers after inserting a video. It marks the video processing, checks
 * its URL, asks the chat API for a blog post, tweets, carousel slides and
 * captions about a fixed sample transcript, inserts one content row, marks
 * the video completed and asks the database to decrement the owner's
 * credits; the database records, in order, the writes it took: a rejected
 * content insert leaves no entry. Every failure becomes a 500 reply with
 * the error's message; the video is never marked failed.
 *
 * The chat API (reached with `fetch`) and `JSON.parse` are oracles. The
 * request body is given as what `req.json()` yields for `videoId`; the
 * answer the database gives to the content insert is a parameter, and the
 * body of the `decrement_credits` procedure is not part of this model: its
 * calls are recorded among the writes.
 */
module EdgeFunction {
  import opened Wrappers
  import opened Text
  import opened JsonValue
  import opened ClientTypes
  import YouTube
  import Store
  import ContentGenerator

  // ---- extractYoutubeVideoId ----

  /** The edge function's own copy of the URL prefixes. */
  const EdgeUrlPrefixes: seq<string> := ["youtube.com/watch?v=", "youtu.be/", "youtube.com/embed/", "youtube.com/v/"]

  /** The two patterns, tried in order: a prefix and the run after it, or a whole bare id. */
  datatype IdPattern = AfterPrefix(prefixes: seq<string>) | WholeBareId

  const IdPatterns: seq<IdPattern> := [AfterPrefix(EdgeUrlPrefixes), WholeBareId]

  predicate WellFormed(p: IdPattern) {
    p.AfterPrefix? ==> YouTube.NonEmptyAlternatives(p.prefixes)
  }

  /** `url.match(pattern)?.[1]`. */
  function PatternMatch(p: IdPattern, url: string): (r: Option<string>)
    requires WellFormed(p)
    ensures r.Some? ==> r.value != [] && YouTube.NoStopChar(r.value)
  {
    match p
    case AfterPrefix(prefixes) => YouTube.FirstCapture(prefixes, url)
    case WholeBareId =>
      if YouTube.IsBareId(url) then
        assert YouTube.NoStopChar(url) by {
          forall k | 0 <= k < |url|
            ensures !YouTube.IsStopChar(url[k])
          {
            assert YouTube.IsIdChar(url[k]);
          }
        }
        Some(url)
      else None
  }

  /** The `for ... of` loop with early return: the first pattern that matches gives the id. */
  function FirstPatternMatch(patterns: seq<IdPattern>, url: string): (r: Option<string>)
    requires forall i :: 0 <= i < |patterns| ==> WellFormed(patterns[i])
    ensures r.Some? ==> exists i :: 0 <= i < |patterns| && PatternMatch(patterns[i], url) == r
    ensures r.None? ==> forall i :: 0 <= i < |patterns| ==> PatternMatch(patterns[i], url).None?
  {
    if patterns == [] then None
    else match PatternMatch(patterns[0], url)
      case Some(id) => Some(id)
      case None =>
        var rest := FirstPatternMatch(patterns[1..], url);
        assert forall i :: 1 <= i < |patterns| ==> patterns[i] == patterns[1..][i - 1];
        rest
  }

  /** `extractYoutubeVideoId`. */
  function ExtractYoutubeVideoId(url: string): Option<string> {
    assert YouTube.NonEmptyAlternatives(EdgeUrlPrefixes);
    FirstPatternMatch(IdPatterns, url)
  }

  /** The edge function and the backend accept the same URLs and extract the same id from each. */
  lemma SameExtractionAsBackend(url: string)
    ensures ExtractYoutubeVideoId(url) == YouTube.ExtractVideoId(url)
  {
    assert EdgeUrlPrefixes == YouTube.UrlPrefixes;
    assert YouTube.NonEmptyAlternatives(EdgeUrlPrefixes);
    assert IdPatterns[1..] == [WholeBareId];
    assert [WholeBareId][1..] == [];
    var first := PatternMatch(IdPatterns[0], url);
    assert first == YouTube.FirstCapture(YouTube.UrlPrefixes, url);
    if first.None? {
      assert FirstPatternMatch(IdPatterns, url) == FirstPatternMatch([WholeBareId], url);
      assert FirstPatternMatch([WholeBareId], url) == PatternMatch(WholeBareId, url);
    }
  }

  // ---- the reply readers ----

  /** `content || fallback`. */
  function ReplyOr(reply: Option<string>, fallback: string): (r: string)
    ensures reply.Some? && reply.value != "" ==> r == reply.value
    ensures reply.None? || reply.value == "" ==> r == fallback
  {
    if reply.Some? && reply.value != "" then reply.value else fallback
  }

  /** `generateBlogPost` after the call: the reply, or a fixed notice when it is empty. */
  function BlogPostOf(reply: Option<string>): (r: string)
    ensures r != ""
    ensures reply.Some? && reply.value != "" ==> r == reply.value
    ensures reply.None? || reply.value == "" ==> r == "Failed to generate blog post"
  {
    ReplyOr(reply, "Failed to generate blog post")
  }

  /**
   * `generateTweets` and `generateInstagramCaptions` after the call: the
   * parsed span from the first `[` to the last `]`; without a span, or when
   * it does not parse, the one-element list of the reply text.
   */
  function ListOf(reply: Option<string>, parse: Parser): (r: Json)
    ensures var content := ReplyOr(reply, "[]");
      var span := ContentGenerator.Span(content, '[', ']');
      (span.None? ==> r == JArr([JStr(content)]))
      && (span.Some? && parse(span.value).None? ==> r == JArr([JStr(content)]))
      && (span.Some? && parse(span.value).Some? ==> r == parse(span.value).value)
  {
    var content := ReplyOr(reply, "[]");
    match ContentGenerator.Span(content, '[', ']')
    case None => JArr([JStr(content)])
    case Some(s) =>
      match parse(s)
      case None => JArr([JStr(content)])
      case Some(v) => v
  }

  const NoSlides: Json := JObj([("slides", JArr([]))])

  /** `generateCarousel` after the call: the parsed span from the first `{` to the last `}`, else `{ slides: [] }`. */
  function CarouselOf(reply: Option<string>, parse: Parser): (r: Json)
    ensures var content := ReplyOr(reply, "{\"slides\": []}");
      var span := ContentGenerator.Span(content, '{', '}');
      (span.None? ==> r == NoSlides)
      && (span.Some? && parse(span.value).None? ==> r == NoSlides)
      && (span.Some? && parse(span.value).Some? ==> r == parse(span.value).value)
  {
    var content := ReplyOr(reply, "{\"slides\": []}");
    match ContentGenerator.Span(content, '{', '}')
    case None => NoSlides
    case Some(s) =>
      match parse(s)
      case None => NoSlides
      case Some(v) => v
  }

  /** An empty reply makes the list readers parse the text `[]`: its span is the whole text. */
  lemma EmptyListReplyParsesBrackets(parse: Parser)
    ensures ListOf(None, parse) == if parse("[]").Some? then parse("[]").value else JArr([JStr("[]")])
  {
    var s := "[]";
    assert s[0..1] == "[";
    assert IndexOf(s, "[") == Some(0);
    assert LastIndexOfChar(s, ']') == Some(1);
    assert s[0..2] == s;
  }

  /**
   * The list readers look only for a bracket span, so they hand the whole of
   * `[{"a":1}]` to the parser, where the backend's reader hands it the inner
   * object.
   */
  lemma ListReaderKeepsOuterArray()
    ensures ContentGenerator.Span("[{\"a\":1}]", '[', ']') == Some("[{\"a\":1}]")
    ensures ContentGenerator.ParseInput("[{\"a\":1}]") == "{\"a\":1}"
  {
    var s := "[{\"a\":1}]";
    assert s[0..1] == "[";
    assert IndexOf(s, "[") == Some(0);
    assert s[8] == ']';
    assert LastIndexOfChar(s, ']') == Some(8);
    assert s[0..9] == s;
    ContentGenerator.ArrayOfObjectPicksObject();
  }

  // ---- the handler ----

  /** What the function asks the chat API for; the transcript is always the fixed sample. */
  datatype EdgeTask = BlogTask(title: string) | TweetsTask | CarouselTask | CaptionsTask

  /** The chat API: `choices[0].message.content` (None when absent), or the message of what `fetch` or `response.json()` threw. */
  type EdgeChat = EdgeTask -> Result<Option<string>, string>

  /** The four pieces, generated in order. */
  datatype Generated = Generated(blogPost: string, tweets: Json, carousel: Json, instagramCaptions: Json)

  /** The four calls in their order; the first one that throws ends the function with its message. */
  function GenerateAll(chat: EdgeChat, parse: Parser, title: Option<string>): (r: Result<Generated, string>)
    ensures var blog := chat(BlogTask(if TextTruthy(title) then title.value else "Video Content"));
      (blog.Err? ==> r == Err(blog.error))
      && (blog.Ok? && chat(TweetsTask).Err? ==> r == Err(chat(TweetsTask).error))
      && (blog.Ok? && chat(TweetsTask).Ok? && chat(CarouselTask).Err? ==> r == Err(chat(CarouselTask).error))
      && (blog.Ok? && chat(TweetsTask).Ok? && chat(CarouselTask).Ok? && chat(CaptionsTask).Err? ==>
            r == Err(chat(CaptionsTask).error))
      && (r.Ok? <==> blog.Ok? && chat(TweetsTask).Ok? && chat(CarouselTask).Ok? && chat(CaptionsTask).Ok?)
      && (r.Ok? ==> r.value == Generated(BlogPostOf(blog.value), ListOf(chat(TweetsTask).value, parse),
                                          CarouselOf(chat(CarouselTask).value, parse),
                                          ListOf(chat(CaptionsTask).value, parse)))
  {
    var blog := chat(BlogTask(if TextTruthy(title) then title.value else "Video Content"));
    if blog.Err? then Err(blog.error)
    else
      var tweets := chat(TweetsTask);
      if tweets.Err? then Err(tweets.error)
      else
        var carousel := chat(CarouselTask);
        if carousel.Err? then Err(carousel.error)
        else
          var captions := chat(CaptionsTask);
          if captions.Err? then Err(captions.error)
          else Ok(Generated(BlogPostOf(blog.value), ListOf(tweets.value, parse),
                            CarouselOf(carousel.value, parse), ListOf(captions.value, parse)))
  }

  /** The inserted content row (its id and timestamp are the database's). */
  datatype ContentInsert = ContentInsert(
    videoId: string, blogPost: string, tweets: Json, carousel: Json, instagramCaptions: Json,
    thumbnailUrls: seq<string>)

  function InsertOf(videoId: string, g: Generated): (c: ContentInsert)
    ensures c.videoId == videoId && c.thumbnailUrls == []
    ensures c.blogPost == g.blogPost && c.tweets == g.tweets && c.carousel == g.carousel
    ensures c.instagramCaptions == g.instagramCaptions
  {
    ContentInsert(videoId, g.blogPost, g.tweets, g.carousel, g.instagramCaptions, [])
  }

  /** The title written with the completed status: the stored one, else `Video <id>`. */
  function CompletedTitle(title: Option<string>, youtubeVideoId: string): (r: string)
    ensures TextTruthy(title) ==> r == title.value
    ensures !TextTruthy(title) ==> r == "Video " + youtubeVideoId
  {
    if TextTruthy(title) then title.value else "Video " + youtubeVideoId
  }

  datatype Request =
    | Preflight                                  // method OPTIONS
    | Invoke(videoId: Result<Option<string>, string>)
      // the body's `videoId` when it is a non-empty text (None otherwise), or the message of the parse error

  datatype Response =
    | CorsOnly                                   // an empty body with the CORS headers
    | Processed(videoId: string)                 // 200 { success: true, message: 'Video processed successfully', videoId }
    | ServerError(message: string)               // 500 { error: message }

  /** A write the function made, in the order it made them. */
  datatype EdgeWrite =
    | StatusSet(videoId: string, status: VideoStatus)
    | ContentInserted(videoId: string)
    | CreditsDecremented(userId: string)

  /** The hosted `videos` and `content` tables, as the function (service role) and the browser reach them. */
  class HostedTables {
    const online: bool
    var videos: map<string, ClientVideo>
    /** The content rows inserted, oldest first. */
    var content: seq<ContentInsert>
    /**
     * The writes sent, oldest first: every status update (whether or not a
     * row matched) and every `decrement_credits` call, with its
     * `user_id_param`, but only the content inserts that succeeded; a
     * rejected insert leaves no entry.
     */
    var writes: seq<EdgeWrite>

    constructor (online: bool, videos: map<string, ClientVideo>)
      ensures this.online == online && this.videos == videos && content == [] && writes == []
    {
      this.online := online;
      this.videos := videos;
      content := [];
      writes := [];
    }

    /** The error message of the `.single()` video lookup; None when the row is found. */
    function LookupError(videoId: string): (r: Option<string>)
      reads this`videos
      ensures r.None? <==> online && videoId in videos
      ensures !online ==> r == Some(Store.Unreachable.Message())
      ensures online && videoId !in videos ==> r == Some(Store.NoRows.Message())
    {
      if !online then Some(Store.Unreachable.Message())
      else if videoId !in videos then Some(Store.NoRows.Message())
      else None
    }

    /** `update({ status })` on the row; the reply is not read. */
    method SetStatus(videoId: string, status: VideoStatus, title: Option<string>)
      modifies this
      ensures online && videoId in old(videos) ==>
        videos == old(videos)[videoId := old(videos)[videoId].(status := status,
                                         title := if title.Some? then title else old(videos)[videoId].title)]
      ensures !(online && videoId in old(videos)) ==> videos == old(videos)
      ensures content == old(content) && writes == old(writes) + [StatusSet(videoId, status)]
    {
      writes := writes + [StatusSet(videoId, status)];
      if online && videoId in videos {
        videos := videos[videoId := videos[videoId].(status := status,
                                      title := if title.Some? then title else videos[videoId].title)];
      }
    }

    /** The outcome once the video row is found: the reply, and whether the last steps ran. */
    method Complete(chat: EdgeChat, parse: Parser, insertError: Option<string>, videoId: string)
      returns (response: Response)
      requires online && videoId in videos && videos[videoId].status == Processing
      modifies this
      ensures var v := old(videos)[videoId];
        var id := ExtractYoutubeVideoId(v.youtubeUrl);
        var g := GenerateAll(chat, parse, v.title);
        (id.None? ==> response == ServerError("Invalid YouTube URL"))
        && (id.Some? && g.Err? ==> response == ServerError(g.error))
        && (id.Some? && g.Ok? && insertError.Some? ==> response == ServerError("Failed to save content: " + insertError.value))
        && (id.Some? && g.Ok? && insertError.None? ==>
              response == Processed(videoId)
              && content == old(content) + [InsertOf(videoId, g.value)]
              && videos == old(videos)[videoId := v.(status := Completed, title := Some(CompletedTitle(v.title, id.value)))]
              && writes == old(writes) + [ContentInserted(videoId), StatusSet(videoId, Completed), CreditsDecremented(v.userId)])
        && (!(id.Some? && g.Ok? && insertError.None?) ==>
              content == old(content) && videos == old(videos) && writes == old(writes))
    {
      var video := videos[videoId];
      var youtubeVideoId := ExtractYoutubeVideoId(video.youtubeUrl);
      if youtubeVideoId.None? {
        return ServerError("Invalid YouTube URL");
      }
      var generated := GenerateAll(chat, parse, video.title);
      if generated.Err? {
        return ServerError(generated.error);
      }
      if insertError.Some? {
        return ServerError("Failed to save content: " + insertError.value);
      }
      ghost var w0 := writes;
      content := content + [InsertOf(videoId, generated.value)];
      writes := writes + [ContentInserted(videoId)];
      SetStatus(videoId, Completed, Some(CompletedTitle(video.title, youtubeVideoId.value)));
      // The procedure's error is only logged.
      writes := writes + [CreditsDecremented(video.userId)];
      Store.AppendThree(w0, ContentInserted(videoId), StatusSet(videoId, Completed), CreditsDecremented(video.userId));
      return Processed(videoId);
    }

    /** A found video: marked processing first, then the rest of the run. */
    method ProcessFound(chat: EdgeChat, parse: Parser, insertError: Option<string>, videoId: string)
      returns (response: Response)
      requires online && videoId in videos
      modifies this
      ensures var v := old(videos)[videoId];
        response.Processed? <==>
          ExtractYoutubeVideoId(v.youtubeUrl).Some? && GenerateAll(chat, parse, v.title).Ok? && insertError.None?
      ensures !response.Processed? ==>
        videos == old(videos)[videoId := old(videos)[videoId].(status := Processing)]
        && content == old(content) && writes == old(writes) + [StatusSet(videoId, Processing)]
      ensures response.Processed? ==>
        var v := old(videos)[videoId];
        var g := GenerateAll(chat, parse, v.title);
        content == old(content) + [InsertOf(videoId, g.value)]
        && writes == old(writes) + [StatusSet(videoId, Processing), ContentInserted(videoId), StatusSet(videoId, Completed),
                                    CreditsDecremented(v.userId)]
        && videos == old(videos)[videoId := v.(status := Completed,
                                               title := Some(CompletedTitle(v.title, ExtractYoutubeVideoId(v.youtubeUrl).value)))]
    {
      ghost var v := videos[videoId];
      SetStatus(videoId, Processing, None);
      assert videos[videoId] == v.(status := Processing);
      response := Complete(chat, parse, insertError, videoId);
      if response.Processed? {
        var title := Some(CompletedTitle(v.title, ExtractYoutubeVideoId(v.youtubeUrl).value));
        Store.Overwrite(old(videos), videoId, v.(status := Processing), v.(status := Completed, title := title));
      }
    }

    /**
     * The request handler. A preflight changes nothing; a request that fails
     * before the lookup, or whose video is not found, changes nothing; once
     * the video is found it is marked processing, and only a run that
     * reaches the end marks it completed and decrements credits.
     */
    method Handle(chat: EdgeChat, parse: Parser, apiKeySet: bool, insertError: Option<string>, request: Request)
      returns (response: Response)
      modifies this
      ensures request.Preflight? ==> response == CorsOnly
      ensures request.Invoke? && request.videoId.Err? ==> response == ServerError(request.videoId.error)
      ensures request.Invoke? && request.videoId.Ok? && request.videoId.value.None? ==>
        response == ServerError("Video ID is required")
      ensures request.Invoke? && request.videoId.Ok? && request.videoId.value.Some? && !apiKeySet ==>
        response == ServerError("OpenAI API key is not configured")
      ensures request.Invoke? && request.videoId.Ok? && request.videoId.value.Some? && apiKeySet
              && old(LookupError(request.videoId.value.value)).Some? ==>
        response == ServerError("Video not found: " + old(LookupError(request.videoId.value.value)).value)
      ensures response.Processed? <==>
        request.Invoke? && request.videoId.Ok? && request.videoId.value.Some? && apiKeySet
        && old(LookupError(request.videoId.value.value)).None?
        && var v := old(videos)[request.videoId.value.value];
           ExtractYoutubeVideoId(v.youtubeUrl).Some? && GenerateAll(chat, parse, v.title).Ok? && insertError.None?
      ensures !(request.Invoke? && request.videoId.Ok? && request.videoId.value.Some? && apiKeySet
                && old(LookupError(request.videoId.value.value)).None?) ==>
        videos == old(videos) && content == old(content) && writes == old(writes)
      ensures request.Invoke? && request.videoId.Ok? && request.videoId.value.Some? && apiKeySet
              && old(LookupError(request.videoId.value.value)).None? && !response.Processed? ==>
        var id := request.videoId.value.value;
        videos == old(videos)[id := old(videos)[id].(status := Processing)]
        && content == old(content) && writes == old(writes) + [StatusSet(id, Processing)]
      ensures response.Processed? ==>
        var id := request.videoId.value.value;
        var v := old(videos)[id];
        var g := GenerateAll(chat, parse, v.title);
        content == old(content) + [InsertOf(id, g.value)]
        && writes == old(writes) + [StatusSet(id, Processing), ContentInserted(id), StatusSet(id, Completed),
                                    CreditsDecremented(v.userId)]
        && videos == old(videos)[id := v.(status := Completed,
                                          title := Some(CompletedTitle(v.title, ExtractYoutubeVideoId(v.youtubeUrl).value)))]
    {
      if request.Preflight? {
        return CorsOnly;
      }
      if request.videoId.Err? {
        return ServerError(request.videoId.error);
      }
      if request.videoId.value.None? {
        return ServerError("Video ID is required");
      }
      var videoId := request.videoId.value.value;
      if !apiKeySet {
        return ServerError("OpenAI API key is not configured");
      }
      var lookupError := LookupError(videoId);
      if lookupError.Some? {
        return ServerError("Video not found: " + lookupError.value);
      }
      response := ProcessFound(chat, parse, insertError, videoId);
    }
  }
}
