/**
 * backend/src/services/thumbnailGenerator.service.ts: one chat call for the
 * video's main topic, then one image per style, each stored in the
 * `thumbnails` bucket when possible. A style that fails is skipped.
 *
 * The image API, the image download plus upload, and `Date.now()` are
 * oracles: `ImageGen`, `Storage` and `clock` (the time read in the n-th
 * iteration). An image prompt is kept as its two variable parts, the topic
 * and the style; `PromptText` spells out the text that is sent and stored.
 */
module ThumbnailGenerator {
  import opened Wrappers
  import opened Text
  import opened JsonValue
  import opened AppErrors
  import opened Store
  import opened ContentGenerator

  datatype StyleSpec = Professional | Bold | Minimal {
    function Name(): string {
      match this
      case Professional => "professional"
      case Bold => "bold"
      case Minimal => "minimal"
    }

    function Description(): string {
      match this
      case Professional => "clean, corporate, blue tones"
      case Bold => "high contrast, yellow/black, attention-grabbing"
      case Minimal => "simple, white background, elegant typography"
    }

    /** The position of the style in `Styles`. */
    function Rank(): nat {
      match this
      case Professional => 0
      case Bold => 1
      case Minimal => 2
    }
  }

  /** The styles, in the order they are tried. */
  const Styles: seq<StyleSpec> := [Professional, Bold, Minimal]

  /** Each style sits at its rank, so the three styles are distinct. */
  lemma StylesRanked(i: nat)
    requires i < |Styles|
    ensures Styles[i].Rank() == i
  {
  }

  datatype ImagePrompt = ImagePrompt(topic: string, style: StyleSpec)

  /** The prompt text of the image request. */
  function PromptText(p: ImagePrompt): string {
    "Professional YouTube thumbnail for video about: " + p.topic + ". \nStyle: " + p.style.Description()
    + ". \nModern, eye-catching, 16:9 aspect ratio.\nNo text overlays, abstract/conceptual design.\nHigh quality, vibrant colors."
  }

  datatype ThumbnailEntry = ThumbnailEntry(url: string, prompt: ImagePrompt, style: StyleSpec)

  /** The image API: `response.data[0].url` (None when absent), or the error it threw. */
  type ImageGen = ImagePrompt -> Result<Option<string>, Error>

  /** Fetching `imageUrl` and uploading it under a file name: the public URL, or the error on the way. */
  type Storage = (string, string) -> Result<string, Error>

  /** The topic request: the title and the first 2000 transcript characters, 50 tokens. */
  function TopicRequest(transcript: string, videoTitle: string): (q: ChatRequest)
    ensures q.title == Some(videoTitle) && q.maxTokens == 50
    ensures q.excerpt <= transcript && |q.excerpt| <= 2000
    ensures |transcript| <= 2000 ==> q.excerpt == transcript
  {
    ChatRequest(Thumbnail, Some(videoTitle), Excerpt(transcript, 2000), 50)
  }

  /** The main topic: the reply when it is a non-empty text, else the video title. */
  function MainTopic(reply: Option<string>, videoTitle: string): (topic: string)
    ensures reply.Some? && reply.value != "" ==> topic == reply.value
    ensures reply.None? || reply.value == "" ==> topic == videoTitle
  {
    if reply.Some? && reply.value != "" then reply.value else videoTitle
  }

  /** The storage key `${videoId}/${style}-${timestamp}.png`. */
  function FileName(videoId: string, style: string, now: nat): string {
    videoId + "/" + style + "-" + NatToString(now) + ".png"
  }

  /** `uploadThumbnail`: never fails; the stored URL, or None on any error. */
  function UploadThumbnail(storage: Storage, imageUrl: string, videoId: string, style: string, now: nat):
    (r: Option<string>)
    ensures r.Some? <==> storage(imageUrl, FileName(videoId, style, now)).Ok?
    ensures r.Some? ==> r.value == storage(imageUrl, FileName(videoId, style, now)).value
  {
    match storage(imageUrl, FileName(videoId, style, now))
    case Ok(url) => Some(url)
    case Err(_) => None
  }

  /** The URL an image API call returned, when it is a non-empty text. */
  predicate ImageReturned(image: ImageGen, prompt: ImagePrompt) {
    image(prompt).Ok? && image(prompt).value.Some? && image(prompt).value.value != ""
  }

  /** One iteration of the style loop, for `style` at time `now`: the entry it pushes, if any. */
  function StyleAttempt(image: ImageGen, storage: Storage, now: nat, topic: string, videoId: string, style: StyleSpec):
    (r: Option<ThumbnailEntry>)
    ensures r.Some? <==> ImageReturned(image, ImagePrompt(topic, style))
    ensures r.Some? ==> r.value.style == style && r.value.prompt == ImagePrompt(topic, style)
    ensures r.Some? ==>
      var imageUrl := image(ImagePrompt(topic, style)).value.value;
      var stored := UploadThumbnail(storage, imageUrl, videoId, style.Name(), now);
      r.value.url == if stored.Some? && stored.value != "" then stored.value else imageUrl
  {
    var prompt := ImagePrompt(topic, style);
    match image(prompt)
    case Err(_) => None
    case Ok(None) => None
    case Ok(Some(imageUrl)) =>
      if imageUrl == "" then None
      else
        var stored := UploadThumbnail(storage, imageUrl, videoId, style.Name(), now);
        Some(ThumbnailEntry(if stored.Some? && stored.value != "" then stored.value else imageUrl, prompt, style))
  }

  function Pushed(a: Option<ThumbnailEntry>): (r: seq<ThumbnailEntry>)
    ensures a.None? ==> r == []
    ensures a.Some? ==> r == [a.value]
  {
    if a.Some? then [a.value] else []
  }

  /** The entries pushed by the first `n` iterations. */
  function Collected(image: ImageGen, storage: Storage, clock: nat -> nat, topic: string, videoId: string, n: nat):
    seq<ThumbnailEntry>
    requires n <= |Styles|
  {
    if n == 0 then []
    else Collected(image, storage, clock, topic, videoId, n - 1)
         + Pushed(StyleAttempt(image, storage, clock(n - 1), topic, videoId, Styles[n - 1]))
  }

  /**
   * The entries keep the order of `Styles`, each style at most once, so
   * there are at most as many entries as iterations.
   */
  lemma {:induction false} CollectedInStyleOrder(image: ImageGen, storage: Storage, clock: nat -> nat,
                                                 topic: string, videoId: string, n: nat)
    requires n <= |Styles|
    ensures var c := Collected(image, storage, clock, topic, videoId, n);
      |c| <= n
      && (forall k :: 0 <= k < |c| ==> c[k].style.Rank() < n)
      && (forall j, k :: 0 <= j < k < |c| ==> c[j].style.Rank() < c[k].style.Rank())
  {
    if n > 0 {
      var prev := Collected(image, storage, clock, topic, videoId, n - 1);
      var a := StyleAttempt(image, storage, clock(n - 1), topic, videoId, Styles[n - 1]);
      var c := prev + Pushed(a);
      assert Collected(image, storage, clock, topic, videoId, n) == c;
      CollectedInStyleOrder(image, storage, clock, topic, videoId, n - 1);
      StylesRanked(n - 1);
      forall k | |prev| <= k < |c|
        ensures c[k].style.Rank() == n - 1
      {
        assert c[k] == a.value;
      }
      forall k | 0 <= k < |prev|
        ensures c[k] == prev[k]
      {
      }
    }
  }

  /** Some entry of `c` is of style `style`. */
  predicate HasStyle(c: seq<ThumbnailEntry>, style: StyleSpec) {
    exists k :: 0 <= k < |c| && c[k].style == style
  }

  lemma HasStyleAppend(prev: seq<ThumbnailEntry>, extra: seq<ThumbnailEntry>, style: StyleSpec)
    ensures HasStyle(prev + extra, style) <==> HasStyle(prev, style) || HasStyle(extra, style)
  {
    var c := prev + extra;
    if HasStyle(prev, style) {
      var k :| 0 <= k < |prev| && prev[k].style == style;
      assert c[k] == prev[k];
    }
    if HasStyle(c, style) {
      var k :| 0 <= k < |c| && c[k].style == style;
      if k >= |prev| { assert extra[k - |prev|] == c[k]; }
    }
    if HasStyle(extra, style) {
      var k :| 0 <= k < |extra| && extra[k].style == style;
      assert c[|prev| + k] == extra[k];
    }
  }

  /** A style appears in the result exactly when its image call returned a URL. */
  lemma {:induction false} StyleKeptIff(image: ImageGen, storage: Storage, clock: nat -> nat,
                                        topic: string, videoId: string, n: nat, i: nat)
    requires i < n <= |Styles|
    ensures HasStyle(Collected(image, storage, clock, topic, videoId, n), Styles[i])
      <==> ImageReturned(image, ImagePrompt(topic, Styles[i]))
  {
    var prev := Collected(image, storage, clock, topic, videoId, n - 1);
    var a := StyleAttempt(image, storage, clock(n - 1), topic, videoId, Styles[n - 1]);
    assert Collected(image, storage, clock, topic, videoId, n) == prev + Pushed(a);
    HasStyleAppend(prev, Pushed(a), Styles[i]);
    StylesRanked(i);
    StylesRanked(n - 1);
    PushedHasStyle(a, Styles[i]);
    if i < n - 1 {
      StyleKeptIff(image, storage, clock, topic, videoId, n - 1, i);
    } else {
      CollectedRanksBelow(image, storage, clock, topic, videoId, n - 1);
      assert !HasStyle(prev, Styles[i]);
    }
  }

  /** The first `n` iterations only push styles ranked below `n`. */
  lemma {:induction false} CollectedRanksBelow(image: ImageGen, storage: Storage, clock: nat -> nat,
                                               topic: string, videoId: string, n: nat)
    requires n <= |Styles|
    ensures forall e :: e in Collected(image, storage, clock, topic, videoId, n) ==> e.style.Rank() < n
  {
    if n > 0 {
      CollectedRanksBelow(image, storage, clock, topic, videoId, n - 1);
      StylesRanked(n - 1);
    }
  }

  lemma PushedHasStyle(a: Option<ThumbnailEntry>, style: StyleSpec)
    ensures HasStyle(Pushed(a), style) <==> a.Some? && a.value.style == style
  {
    if a.Some? { assert Pushed(a)[0] == a.value; }
  }

  /**
   * What `generateThumbnails` returns: a failed topic call fails the whole
   * function with its own error; otherwise the entries of the successful
   * styles, in style order, or ContentGenerationError when there are none.
   */
  function ThumbnailsOf(chat: Chat, image: ImageGen, storage: Storage, clock: nat -> nat,
                        transcript: string, videoTitle: string, videoId: string): Result<seq<ThumbnailEntry>, Error>
  {
    match chat(TopicRequest(transcript, videoTitle))
    case Err(e) => Err(e)
    case Ok(reply) =>
      var c := Collected(image, storage, clock, MainTopic(reply, videoTitle), videoId, |Styles|);
      if c == [] then Err(ContentGenerationError("Failed to generate any thumbnails")) else Ok(c)
  }

  /** `generateThumbnails`: the topic call, then the loop over the styles. */
  method GenerateThumbnails(chat: Chat, image: ImageGen, storage: Storage, clock: nat -> nat,
                            transcript: string, videoTitle: string, videoId: string)
    returns (r: Result<seq<ThumbnailEntry>, Error>)
    ensures r == ThumbnailsOf(chat, image, storage, clock, transcript, videoTitle, videoId)
    ensures chat(TopicRequest(transcript, videoTitle)).Err? ==> r == Err(chat(TopicRequest(transcript, videoTitle)).error)
    ensures chat(TopicRequest(transcript, videoTitle)).Ok? ==>
      var topic := MainTopic(chat(TopicRequest(transcript, videoTitle)).value, videoTitle);
      var c := Collected(image, storage, clock, topic, videoId, |Styles|);
      (c == [] ==> r == Err(ContentGenerationError("Failed to generate any thumbnails")))
      && (c != [] ==> r == Ok(c))
  {
    var reply := chat(TopicRequest(transcript, videoTitle));
    if reply.Err? {
      return Err(reply.error);
    }
    var topic := MainTopic(reply.value, videoTitle);
    var thumbnails: seq<ThumbnailEntry> := [];
    for i := 0 to |Styles|
      invariant thumbnails == Collected(image, storage, clock, topic, videoId, i)
    {
      var attempt := StyleAttempt(image, storage, clock(i), topic, videoId, Styles[i]);
      if attempt.Some? {
        thumbnails := thumbnails + [attempt.value];
      }
    }
    if |thumbnails| == 0 {
      return Err(ContentGenerationError("Failed to generate any thumbnails"));
    }
    return Ok(thumbnails);
  }

  /** One stored entry, `{ url, prompt, style }`, with the prompt's text and the style's name. */
  function ThumbnailItem(t: ThumbnailEntry): (item: Json)
    ensures Field(item, "url") == Some(JStr(t.url))
    ensures Field(item, "prompt") == Some(JStr(PromptText(t.prompt)))
    ensures Field(item, "style") == Some(JStr(t.style.Name()))
  {
    var url, prompt, style := JStr(t.url), JStr(PromptText(t.prompt)), JStr(t.style.Name());
    FieldOfThree("url", url, "prompt", prompt, "style", style);
    JObj([("url", url), ("prompt", prompt), ("style", style)])
  }

  /** `{ thumbnails: [{url, prompt, style}] }`, the payload stored in the content row. */
  function ThumbnailsJson(ts: seq<ThumbnailEntry>): (r: Json)
    ensures Field(r, "thumbnails").Some? && Field(r, "thumbnails").value.JArr?
    ensures |Field(r, "thumbnails").value.items| == |ts|
    ensures forall k :: 0 <= k < |ts| ==>
      var item := Field(r, "thumbnails").value.items[k];
      Field(item, "url") == Some(JStr(ts[k].url))
      && Field(item, "prompt") == Some(JStr(PromptText(ts[k].prompt)))
      && Field(item, "style") == Some(JStr(ts[k].style.Name()))
  {
    JObj([("thumbnails", JArr(seq(|ts|, i requires 0 <= i < |ts| => ThumbnailItem(ts[i]))))])
  }
}
