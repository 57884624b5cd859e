/**
 * backend/src/services/contentGenerator.service.ts: one chat request per
 * content type, and `parseJSON`, which pulls a JSON text out of the reply and
 * falls back to a fixed default when it cannot be parsed.
 *
 * The chat API is an oracle of type `Chat`. A request keeps what the prompt
 * is made of: the content type it asks for, the title it quotes (if any),
 * the transcript excerpt it embeds and the token limit; the fixed
 * instruction wording around them is not reproduced.
 */
module ContentGenerator {
  import opened Wrappers
  import opened Text
  import opened JsonValue
  import opened AppErrors
  import opened Store

  datatype ChatRequest = ChatRequest(task: ContentType, title: Option<string>, excerpt: string, maxTokens: nat)

  /**
   * The chat completion API: the reply's `choices[0].message.content` (None
   * when it is missing or null), or the error the client threw.
   */
  type Chat = ChatRequest -> Result<Option<string>, Error>

  /** `generateWithGPT`: the reply text, '' when there is none; a thrown error becomes a ContentGenerationError. */
  function GenerateWithGpt(chat: Chat, request: ChatRequest): (r: Result<string, Error>)
    ensures chat(request).Err? ==> r == Err(ContentGenerationError(chat(request).error.Message()))
    ensures chat(request).Ok? && chat(request).value.None? ==> r == Ok("")
    ensures chat(request).Ok? && chat(request).value.Some? ==> r == Ok(chat(request).value.value)
  {
    match chat(request)
    case Err(e) => Err(ContentGenerationError(e.Message()))
    case Ok(content) => Ok(content.GetOr(""))
  }

  // ---- locating the JSON text in a reply ----

  /** A fence closes at `p`: "```" or "\n```" starts there. */
  predicate ClosesFence(s: string, p: nat) {
    OccursAt(s, "```", p) || OccursAt(s, "\n```", p)
  }

  /** The first position at or after `from` where a fence closes. */
  function FenceCloseFrom(s: string, from: nat): (r: Option<nat>)
    decreases |s| - from
    ensures r.Some? ==> from <= r.value <= |s| && ClosesFence(s, r.value)
    ensures r.Some? ==> forall q :: from <= q < r.value ==> !ClosesFence(s, q)
    ensures r.None? ==> forall q :: from <= q ==> !ClosesFence(s, q)
  {
    if from >= |s| then None
    else if ClosesFence(s, from) then Some(from)
    else FenceCloseFrom(s, from + 1)
  }

  /** Where the body of the first "```json" fence starts: after the marker and one optional newline. */
  function FenceBodyStart(s: string, k: nat): (start: nat)
    requires OccursAt(s, "```json", k)
    ensures k + 7 <= start <= |s|
  {
    if k + 7 < |s| && s[k + 7] == '\n' then k + 8 else k + 7
  }

  /**
   * The capture of /```json\n?([\s\S]*?)\n?```/: the shortest text after the
   * first "```json" (and one optional newline) that is followed by "```" or
   * "\n```".
   */
  function FenceBody(s: string): (r: Option<string>)
  {
    match IndexOf(s, "```json")
    case None => None
    case Some(k) =>
      var start := FenceBodyStart(s, k);
      match FenceCloseFrom(s, start)
      case None => None
      case Some(p) => Some(s[start..p])
  }

  /** The lazy capture never contains a closing fence. */
  lemma FenceBodyHasNoFence(s: string)
    requires FenceBody(s).Some?
    ensures !Contains(FenceBody(s).value, "```")
  {
    var k := IndexOf(s, "```json").value;
    var start := FenceBodyStart(s, k);
    var p := FenceCloseFrom(s, start).value;
    var b := s[start..p];
    forall j: nat
      ensures !OccursAt(b, "```", j)
    {
      if j + 3 <= |b| {
        assert !ClosesFence(s, start + j);
        SliceOfSlice(s, start, p, j, j + 3);
      }
    }
    ContainsIff(b, "```");
  }

  /**
   * The capture of /(\{[\s\S]*\})/ and /(\[[\s\S]*\])/: the leftmost match
   * starts at the first `open`, and the greedy `[\s\S]*` runs to the last
   * `close`. There is none exactly when no `close` follows an `open`.
   */
  function Span(s: string, open: char, close: char): (r: Option<string>)
    ensures r.Some? ==> |r.value| >= 2 && r.value[0] == open && r.value[|r.value| - 1] == close
    ensures r.Some? ==> exists i: nat ::
      OccursAt(s, r.value, i)
      && (forall k :: 0 <= k < i ==> s[k] != open)
      && (forall k :: i + |r.value| <= k < |s| ==> s[k] != close)
    ensures r.None? <==> forall a, b :: 0 <= a < b < |s| && s[a] == open ==> s[b] != close
  {
    var i := IndexOf(s, [open]);
    var j := LastIndexOfChar(s, close);
    IndexOfChar(s, open);
    if i.Some? && j.Some? && i.value < j.value then
      assert s[i.value..i.value + 1] == [open];
      var r := s[i.value..j.value + 1];
      assert OccursAt(s, r, i.value);
      assert s[i.value] == open && s[j.value] == close;
      Some(r)
    else None
  }

  /** The text `parseJSON` hands to the parser: the first pattern that matches, else the whole reply. */
  function ParseInput(content: string): (r: string)
    ensures FenceBody(content).Some? ==> r == FenceBody(content).value
    ensures FenceBody(content).None? && Span(content, '{', '}').Some? ==> r == Span(content, '{', '}').value
    ensures FenceBody(content).None? && Span(content, '{', '}').None? && Span(content, '[', ']').Some? ==>
      r == Span(content, '[', ']').value
    ensures FenceBody(content).None? && Span(content, '{', '}').None? && Span(content, '[', ']').None? ==>
      r == content
  {
    if FenceBody(content).Some? then FenceBody(content).value
    else if Span(content, '{', '}').Some? then Span(content, '{', '}').value
    else if Span(content, '[', ']').Some? then Span(content, '[', ']').value
    else content
  }

  /** `parseJSON(content, fallback)`: never fails; an unparsable text gives the fallback. */
  function ParseJson(content: string, fallback: Json, parse: Parser): (r: Json)
    ensures r == fallback || parse(ParseInput(content)) == Some(r)
    ensures parse(ParseInput(content)).None? ==> r == fallback
    ensures parse(ParseInput(content)).Some? ==> r == parse(ParseInput(content)).value
  {
    match parse(ParseInput(content))
    case Some(v) => v
    case None => fallback
  }

  /** Only the first candidate is tried: when it does not parse, the rest of the reply is not looked at. */
  lemma NoFallThrough(content: string, fallback: Json, parse: Parser)
    requires FenceBody(content).Some? && parse(FenceBody(content).value).None?
    ensures ParseJson(content, fallback, parse) == fallback
  {
  }

  /** Inside a fence or not, an object span is preferred to an array span: `[{"a":1}]` yields the inner object. */
  lemma ArrayOfObjectPicksObject()
    ensures ParseInput("[{\"a\":1}]") == "{\"a\":1}"
  {
    var s := "[{\"a\":1}]";
    AbsentFirstChar(s, "```json");
    assert s[0..1][0] == '[' && s[1..2] == "{";
    assert IndexOf(s, "{") == Some(1);
    assert s[8] != '}' && s[7] == '}';
    assert LastIndexOfChar(s, '}') == Some(7);
  }

  /** A parser that rejects the empty text makes an empty reply give the fallback. */
  lemma EmptyReplyGivesFallback(fallback: Json, parse: Parser)
    requires parse("").None?
    ensures ParseJson("", fallback, parse) == fallback
  {
    assert IndexOf("", "```json").None?;
    assert ParseInput("") == "";
  }

  // ---- the five generators ----

  /** A chat call whose reply is parsed with a fallback: only a failed call is an error. */
  function GenerateParsed(chat: Chat, parse: Parser, request: ChatRequest, fallback: Json): (r: Result<Json, Error>)
    ensures r.Err? <==> chat(request).Err?
    ensures r.Err? ==> r.error == ContentGenerationError(chat(request).error.Message())
    ensures r.Ok? ==> r.value == ParseJson(chat(request).value.GetOr(""), fallback, parse)
  {
    match GenerateWithGpt(chat, request)
    case Err(e) => Err(e)
    case Ok(reply) => Ok(ParseJson(reply, fallback, parse))
  }

  /** The transcript excerpt a prompt embeds: its first `limit` characters. */
  function Excerpt(transcript: string, limit: nat): (r: string)
    ensures r <= transcript
    ensures |r| == if |transcript| < limit then |transcript| else limit
  {
    Prefix(transcript, limit)
  }

  function ShortsRequest(transcript: string, title: string): (q: ChatRequest)
    ensures q.task == Shorts && q.title == Some(title) && q.maxTokens == 2500
    ensures q.excerpt <= transcript && |q.excerpt| <= 8000
    ensures |transcript| <= 8000 ==> q.excerpt == transcript
  {
    ChatRequest(Shorts, Some(title), Excerpt(transcript, 8000), 2500)
  }

  function BlogRequest(transcript: string, title: string): (q: ChatRequest)
    ensures q.task == Blog && q.title == Some(title) && q.maxTokens == 4000
    ensures q.excerpt <= transcript && |q.excerpt| <= 10000
    ensures |transcript| <= 10000 ==> q.excerpt == transcript
  {
    ChatRequest(Blog, Some(title), Excerpt(transcript, 10000), 4000)
  }

  /** The Twitter prompt does not quote the title. */
  function TwitterRequest(transcript: string): (q: ChatRequest)
    ensures q.task == Twitter && q.title.None? && q.maxTokens == 1500
    ensures q.excerpt <= transcript && |q.excerpt| <= 6000
    ensures |transcript| <= 6000 ==> q.excerpt == transcript
  {
    ChatRequest(Twitter, None, Excerpt(transcript, 6000), 1500)
  }

  function LinkedInRequest(transcript: string, title: string): (q: ChatRequest)
    ensures q.task == LinkedIn && q.title == Some(title) && q.maxTokens == 2500
    ensures q.excerpt <= transcript && |q.excerpt| <= 8000
    ensures |transcript| <= 8000 ==> q.excerpt == transcript
  {
    ChatRequest(LinkedIn, Some(title), Excerpt(transcript, 8000), 2500)
  }

  /** The Instagram prompt does not quote the title. */
  function InstagramRequest(transcript: string): (q: ChatRequest)
    ensures q.task == Instagram && q.title.None? && q.maxTokens == 1500
    ensures q.excerpt <= transcript && |q.excerpt| <= 4000
    ensures |transcript| <= 4000 ==> q.excerpt == transcript
  {
    ChatRequest(Instagram, None, Excerpt(transcript, 4000), 1500)
  }

  const ShortsFallback: Json := JObj([("shorts", JArr([]))])

  function BlogFallback(title: string): Json {
    JObj([("title", JStr(title)), ("meta_description", JStr("")), ("content", JStr("")),
          ("seo_keywords", JArr([])), ("estimated_read_time", JNum(5))])
  }

  /** The blog fallback keeps the title and has no content, no keywords and a five-minute read time. */
  lemma {:induction false} BlogFallbackFields(title: string)
    ensures Field(BlogFallback(title), "title") == Some(JStr(title))
    ensures Field(BlogFallback(title), "content") == Some(JStr(""))
    ensures Field(BlogFallback(title), "seo_keywords") == Some(JArr([]))
    ensures Field(BlogFallback(title), "estimated_read_time") == Some(JNum(5))
  {
    var fs := BlogFallback(title).fields;
    assert FieldIn(fs[4..], "estimated_read_time") == Some(JNum(5));
    assert FieldIn(fs[3..], "seo_keywords") == Some(JArr([]));
    assert FieldIn(fs[3..], "estimated_read_time") == FieldIn(fs[4..], "estimated_read_time");
    assert FieldIn(fs[2..], "content") == Some(JStr(""));
    assert FieldIn(fs[2..], "seo_keywords") == FieldIn(fs[3..], "seo_keywords");
    assert FieldIn(fs[2..], "estimated_read_time") == FieldIn(fs[3..], "estimated_read_time");
    assert FieldIn(fs[1..], "content") == FieldIn(fs[2..], "content");
    assert FieldIn(fs[1..], "seo_keywords") == FieldIn(fs[2..], "seo_keywords");
    assert FieldIn(fs[1..], "estimated_read_time") == FieldIn(fs[2..], "estimated_read_time");
  }

  const TwitterFallback: Json := JObj([("tweets", JArr([])), ("total_tweets", JNum(0)), ("hashtags", JArr([]))])

  const LinkedInFallback: Json := JObj([("slides", JArr([])), ("total_slides", JNum(0))])

  const InstagramFallback: Json := JObj([("captions", JArr([]))])

  function GenerateShorts(chat: Chat, parse: Parser, transcript: string, title: string): Result<Json, Error>
  {
    GenerateParsed(chat, parse, ShortsRequest(transcript, title), ShortsFallback)
  }

  function GenerateBlogPost(chat: Chat, parse: Parser, transcript: string, title: string): Result<Json, Error>
  {
    GenerateParsed(chat, parse, BlogRequest(transcript, title), BlogFallback(title))
  }

  function GenerateTwitterThread(chat: Chat, parse: Parser, transcript: string, title: string): Result<Json, Error>
  {
    GenerateParsed(chat, parse, TwitterRequest(transcript), TwitterFallback)
  }

  function GenerateLinkedInCarousel(chat: Chat, parse: Parser, transcript: string, title: string): Result<Json, Error>
  {
    GenerateParsed(chat, parse, LinkedInRequest(transcript, title), LinkedInFallback)
  }

  function GenerateInstagramCaptions(chat: Chat, parse: Parser, transcript: string, title: string): Result<Json, Error>
  {
    GenerateParsed(chat, parse, InstagramRequest(transcript), InstagramFallback)
  }

  /** The generator a text content type uses (thumbnails have their own service). */
  function GenerateFor(t: ContentType, chat: Chat, parse: Parser, transcript: string, title: string):
    (r: Result<Json, Error>)
    requires t != Thumbnail
  {
    match t
    case Shorts => GenerateShorts(chat, parse, transcript, title)
    case Blog => GenerateBlogPost(chat, parse, transcript, title)
    case Twitter => GenerateTwitterThread(chat, parse, transcript, title)
    case LinkedIn => GenerateLinkedInCarousel(chat, parse, transcript, title)
    case Instagram => GenerateInstagramCaptions(chat, parse, transcript, title)
  }

  /** The fallback each text content type degrades to. */
  function FallbackFor(t: ContentType, title: string): Json
    requires t != Thumbnail
  {
    match t
    case Shorts => ShortsFallback
    case Blog => BlogFallback(title)
    case Twitter => TwitterFallback
    case LinkedIn => LinkedInFallback
    case Instagram => InstagramFallback
  }

  /** The request each text content type sends. */
  function RequestFor(t: ContentType, transcript: string, title: string): (q: ChatRequest)
    requires t != Thumbnail
    ensures q.task == t && q.excerpt <= transcript
  {
    match t
    case Shorts => ShortsRequest(transcript, title)
    case Blog => BlogRequest(transcript, title)
    case Twitter => TwitterRequest(transcript)
    case LinkedIn => LinkedInRequest(transcript, title)
    case Instagram => InstagramRequest(transcript)
  }

  /**
   * A text generator fails exactly when its chat call fails, and then with a
   * ContentGenerationError; a reply that does not parse yields the type's
   * fallback instead.
   */
  lemma GeneratorOutcomes(t: ContentType, chat: Chat, parse: Parser, transcript: string, title: string)
    requires t != Thumbnail
    ensures var q := RequestFor(t, transcript, title);
      var r := GenerateFor(t, chat, parse, transcript, title);
      (r.Err? <==> chat(q).Err?)
      && (r.Err? ==> r.error == ContentGenerationError(chat(q).error.Message()) && r.error.app.statusCode == 500)
      && (chat(q).Ok? && parse(ParseInput(chat(q).value.GetOr(""))).None? ==> r == Ok(FallbackFor(t, title)))
      && (chat(q).Ok? && parse(ParseInput(chat(q).value.GetOr(""))).Some? ==>
            r == Ok(parse(ParseInput(chat(q).value.GetOr(""))).value))
  {
  }
}
