/**
 * backend/src/services/youtube.service.ts: the video id in a YouTube link,
 * the yt-dlp metadata line, and the audio file in the temporary directory.
 *
 * The two regular expressions of `extractVideoId` are written out as
 * searches. yt-dlp is an oracle: `InfoCommand` gives the printed line or the
 * message of the error `exec` threw, `DownloadCommand` whether the output
 * file exists afterwards and the error message, if any. The temporary
 * directory is a `Disk` object mapping each file path to its size.
 */
module YouTube {
  import opened Wrappers
  import opened Text
  import opened AppErrors
  import opened NodePath

  // ---- extractVideoId ----

  /** The four alternatives of the first pattern, in the order they are tried at one position. */
  const UrlPrefixes: seq<string> := ["youtube.com/watch?v=", "youtu.be/", "youtube.com/embed/", "youtube.com/v/"]

  /** The characters that end the captured id: `[^&\n?#]`. */
  predicate IsStopChar(c: char) {
    c == '&' || c == '\n' || c == '?' || c == '#'
  }

  /** The characters of a bare id: `[a-zA-Z0-9_-]`. */
  predicate IsIdChar(c: char) {
    'a' <= c <= 'z' || 'A' <= c <= 'Z' || '0' <= c <= '9' || c == '_' || c == '-'
  }

  /** The whole text is exactly eleven id characters: /^([a-zA-Z0-9_-]{11})$/. */
  predicate IsBareId(s: string) {
    |s| == 11 && forall k :: 0 <= k < |s| ==> IsIdChar(s[k])
  }

  predicate NoStopChar(s: string) {
    forall k :: 0 <= k < |s| ==> !IsStopChar(s[k])
  }

  /** The greedy run `[^&\n?#]+` at the start of `s` (possibly empty). */
  function IdRun(s: string): (r: string)
    ensures r <= s && NoStopChar(r)
    ensures |r| < |s| ==> IsStopChar(s[|r|])
  {
    if s != [] && !IsStopChar(s[0]) then [s[0]] + IdRun(s[1..]) else []
  }

  /** The capture when alternative `prefix` matches at position `p`: the prefix, then a non-empty run. */
  function CaptureAfter(url: string, p: nat, prefix: string): (r: Option<string>)
    ensures r.Some? ==> OccursAt(url, prefix, p) && r.value != [] && r.value == IdRun(url[p + |prefix|..])
    ensures r.None? ==> !OccursAt(url, prefix, p) || IdRun(url[p + |prefix|..]) == []
  {
    if OccursAt(url, prefix, p) && IdRun(url[p + |prefix|..]) != [] then Some(IdRun(url[p + |prefix|..])) else None
  }

  /** None of the alternatives is empty. */
  predicate NonEmptyAlternatives(alts: seq<string>) {
    forall i :: 0 <= i < |alts| ==> alts[i] != []
  }

  /** The first alternative, from the `i`-th on, that matches at position `p`. */
  function CaptureFrom(alts: seq<string>, url: string, p: nat, i: nat): (r: Option<string>)
    requires i <= |alts|
    decreases |alts| - i
  {
    if i == |alts| then None
    else if CaptureAfter(url, p, alts[i]).Some? then CaptureAfter(url, p, alts[i])
    else CaptureFrom(alts, url, p, i + 1)
  }

  /** The capture of `(?:alt1|alt2|...)([^&\n?#]+)` when a match starts at `p`. */
  function MatchAt(alts: seq<string>, url: string, p: nat): Option<string> {
    CaptureFrom(alts, url, p, 0)
  }

  /** The leftmost position, at or after `from`, where the pattern matches. */
  function FirstMatchFrom(alts: seq<string>, url: string, from: nat): (r: Option<nat>)
    requires NonEmptyAlternatives(alts)
    decreases |url| - from
    ensures r.Some? ==> from <= r.value && MatchAt(alts, url, r.value).Some?
    ensures r.Some? ==> forall q :: from <= q < r.value ==> MatchAt(alts, url, q).None?
    ensures r.None? ==> forall q :: from <= q ==> MatchAt(alts, url, q).None?
  {
    if from >= |url| then
      assert forall q :: from <= q ==> MatchAt(alts, url, q).None? by {
        forall q | from <= q
          ensures MatchAt(alts, url, q).None?
        {
          MatchNeedsRoom(alts, url, q, 0);
        }
      }
      None
    else if MatchAt(alts, url, from).Some? then Some(from)
    else FirstMatchFrom(alts, url, from + 1)
  }

  lemma {:induction false} MatchNeedsRoom(alts: seq<string>, url: string, q: nat, i: nat)
    requires NonEmptyAlternatives(alts)
    requires i <= |alts| && q >= |url|
    ensures CaptureFrom(alts, url, q, i).None?
    decreases |alts| - i
  {
    if i < |alts| {
      MatchNeedsRoom(alts, url, q, i + 1);
    }
  }

  /** The capture at the leftmost match: a non-empty run of the text without stop characters. */
  function FirstCapture(alts: seq<string>, url: string): (r: Option<string>)
    requires NonEmptyAlternatives(alts)
    ensures FirstMatchFrom(alts, url, 0).None? ==> r.None?
    ensures FirstMatchFrom(alts, url, 0).Some? ==> r == MatchAt(alts, url, FirstMatchFrom(alts, url, 0).value)
    ensures r.Some? ==> r.value != [] && NoStopChar(r.value) && exists k: nat :: OccursAt(url, r.value, k)
  {
    match FirstMatchFrom(alts, url, 0)
    case None => None
    case Some(p) =>
      CaptureFromShape(alts, url, p, 0);
      MatchAt(alts, url, p)
  }

  /** A capture is a non-empty run of the text without stop characters. */
  lemma {:induction false} CaptureFromShape(alts: seq<string>, url: string, p: nat, i: nat)
    requires i <= |alts|
    ensures CaptureFrom(alts, url, p, i).Some? ==>
      var c := CaptureFrom(alts, url, p, i).value;
      c != [] && NoStopChar(c) && exists k: nat :: OccursAt(url, c, k)
    decreases |alts| - i
  {
    if i < |alts| {
      var prefix := alts[i];
      var c := CaptureAfter(url, p, prefix);
      if c.Some? {
        var start := p + |prefix|;
        var rest := url[start..];
        assert c.value == rest[..|c.value|];
        assert url[start..start + |c.value|] == c.value;
        assert OccursAt(url, c.value, start);
      } else {
        CaptureFromShape(alts, url, p, i + 1);
      }
    }
  }

  /** The alternatives of `extractVideoId` are not empty. */
  lemma UrlPrefixesNonEmpty()
    ensures NonEmptyAlternatives(UrlPrefixes)
  {
  }

  /**
   * `extractVideoId`: the capture of the first pattern at its leftmost match,
   * else the whole text when it is a bare id, else None.
   */
  function ExtractVideoId(url: string): (r: Option<string>)
    ensures FirstCapture(UrlPrefixes, url).Some? ==> r == FirstCapture(UrlPrefixes, url)
    ensures FirstCapture(UrlPrefixes, url).None? ==> (r.Some? <==> IsBareId(url))
    ensures r.Some? ==> r.value != [] && NoStopChar(r.value)
    ensures r.Some? ==> exists k: nat :: OccursAt(url, r.value, k)
  {
    match FirstCapture(UrlPrefixes, url)
    case Some(id) => Some(id)
    case None =>
      if IsBareId(url) then
        assert OccursAt(url, url, 0);
        assert NoStopChar(url) by {
          forall k | 0 <= k < |url|
            ensures !IsStopChar(url[k])
          {
            assert IsIdChar(url[k]);
          }
        }
        Some(url)
      else None
  }

  /** Every alternative of the first pattern contains a '.', which no bare id does. */
  lemma PrefixDot(i: nat) returns (d: nat)
    requires i < |UrlPrefixes|
    ensures d < |UrlPrefixes[i]| && UrlPrefixes[i][d] == '.'
  {
    d := if i == 1 then 5 else 7;
  }

  lemma {:induction false} NoCaptureInIdText(url: string, p: nat, i: nat)
    requires i <= |UrlPrefixes|
    requires forall k :: 0 <= k < |url| ==> IsIdChar(url[k])
    ensures CaptureFrom(UrlPrefixes, url, p, i).None?
    decreases |UrlPrefixes| - i
  {
    if i < |UrlPrefixes| {
      var d := PrefixDot(i);
      if p + |UrlPrefixes[i]| <= |url| {
        assert url[p..p + |UrlPrefixes[i]|][d] == url[p + d];
        assert IsIdChar(url[p + d]);
      }
      NoCaptureInIdText(url, p, i + 1);
    }
  }

  /** A bare eleven-character id is returned unchanged. */
  lemma BareIdUnchanged(url: string)
    requires IsBareId(url)
    ensures ExtractVideoId(url) == Some(url)
  {
    forall q: nat
      ensures MatchAt(UrlPrefixes, url, q).None?
    {
      NoCaptureInIdText(url, q, 0);
    }
  }

  /** The first characters of the alternatives: every one starts with 'y'. */
  lemma PrefixStart(i: nat)
    requires i < |UrlPrefixes|
    ensures UrlPrefixes[i] != [] && UrlPrefixes[i][0] == 'y'
  {
  }

  /** No alternative is found where the text has no 'y'. */
  lemma {:induction false} NoCaptureWithoutY(url: string, p: nat, i: nat)
    requires i <= |UrlPrefixes|
    requires p < |url| ==> url[p] != 'y'
    ensures CaptureFrom(UrlPrefixes, url, p, i).None?
    decreases |UrlPrefixes| - i
  {
    if i < |UrlPrefixes| {
      PrefixStart(i);
      if p + |UrlPrefixes[i]| <= |url| {
        assert url[p..p + |UrlPrefixes[i]|][0] == url[p];
      }
      NoCaptureWithoutY(url, p, i + 1);
    }
  }

  /** Two different alternatives differ at some position inside both. */
  lemma PrefixesDiffer(i: nat, j: nat) returns (d: nat)
    requires i < j < |UrlPrefixes|
    ensures d < |UrlPrefixes[i]| && d < |UrlPrefixes[j]| && UrlPrefixes[i][d] != UrlPrefixes[j][d]
  {
    d := if i == 1 || j == 1 then 5 else 12;
  }

  lemma {:induction false} EarlierAlternativesFail(url: string, p: nat, i: nat, j: nat)
    requires j <= i < |UrlPrefixes|
    requires OccursAt(url, UrlPrefixes[i], p) && IdRun(url[p + |UrlPrefixes[i]|..]) != []
    ensures CaptureFrom(UrlPrefixes, url, p, j) == CaptureAfter(url, p, UrlPrefixes[i])
    decreases i - j
  {
    if j < i {
      var d := PrefixesDiffer(j, i);
      assert url[p..p + |UrlPrefixes[i]|][d] == url[p + d];
      if p + |UrlPrefixes[j]| <= |url| {
        assert url[p..p + |UrlPrefixes[j]|][d] == url[p + d];
      }
      EarlierAlternativesFail(url, p, i, j + 1);
    }
  }

  lemma {:induction false} RunOfId(id: string, rest: string)
    requires NoStopChar(id)
    requires rest == [] || IsStopChar(rest[0])
    ensures IdRun(id + rest) == id
  {
    if id != [] {
      assert (id + rest)[1..] == id[1..] + rest;
      RunOfId(id[1..], rest);
    }
  }

  /**
   * The usual link forms: any lead-in without a 'y' (such as "https://www."),
   * one of the four prefixes, the id, then nothing or a stop character.
   */
  lemma LinkGivesId(lead: string, i: nat, id: string, rest: string)
    requires i < |UrlPrefixes|
    requires forall k :: 0 <= k < |lead| ==> lead[k] != 'y'
    requires id != [] && NoStopChar(id)
    requires rest == [] || IsStopChar(rest[0])
    ensures ExtractVideoId(lead + UrlPrefixes[i] + id + rest) == Some(id)
  {
    var prefix := UrlPrefixes[i];
    var url := lead + prefix + id + rest;
    var p := |lead|;
    forall q: nat | q < p
      ensures MatchAt(UrlPrefixes, url, q).None?
    {
      assert url[q] == lead[q];
      NoCaptureWithoutY(url, q, 0);
    }
    CaptureAtLink(lead, i, id, rest);
    FirstMatchIs(UrlPrefixes, url, 0, p);
  }

  lemma CaptureAtLink(lead: string, i: nat, id: string, rest: string)
    requires i < |UrlPrefixes|
    requires id != [] && NoStopChar(id)
    requires rest == [] || IsStopChar(rest[0])
    ensures MatchAt(UrlPrefixes, lead + UrlPrefixes[i] + id + rest, |lead|) == Some(id)
  {
    var prefix := UrlPrefixes[i];
    var url := lead + prefix + id + rest;
    var p := |lead|;
    assert url[p..p + |prefix|] == prefix;
    assert url[p + |prefix|..] == id + rest;
    RunOfId(id, rest);
    EarlierAlternativesFail(url, p, i, 0);
  }

  /** The leftmost match is at `p` when the pattern matches there and nowhere before. */
  lemma {:induction false} FirstMatchIs(alts: seq<string>, url: string, from: nat, p: nat)
    requires NonEmptyAlternatives(alts)
    requires from <= p && MatchAt(alts, url, p).Some?
    requires forall q :: from <= q < p ==> MatchAt(alts, url, q).None?
    ensures FirstMatchFrom(alts, url, from) == Some(p)
    decreases p - from
  {
    if from < p {
      FirstMatchIs(alts, url, from + 1, p);
    } else if from >= |url| {
      MatchNeedsRoom(alts, url, from, 0);
    }
  }

  // ---- getVideoInfo ----

  /** yt-dlp printing `%(title)s|||%(duration)s|||%(id)s` for a URL: its stdout, or the message of the error. */
  type InfoCommand = string -> Result<string, string>

  /** The three fields; `videoId` is None when the line has fewer than three parts (`undefined`). */
  datatype VideoInfo = VideoInfo(title: string, duration: int, videoId: Option<string>)

  /** `parseInt(text, 10) || 0`: NaN and 0 become 0; a missing part (`undefined`) is NaN. */
  function DurationOf(text: Option<string>): (d: int)
    ensures text.None? ==> d == 0
    ensures text.Some? && ParseIntJs(text.value).None? ==> d == 0
    ensures text.Some? && ParseIntJs(text.value).Some? ==> d == ParseIntJs(text.value).value
  {
    if text.None? then 0
    else match ParseIntJs(text.value)
      case None => 0
      case Some(n) => n
  }

  /** The fields read from the printed line. */
  function InfoOf(stdout: string): (r: VideoInfo)
    ensures var parts := Split(Trim(stdout), "|||");
      r.title == parts[0]
      && r.duration == DurationOf(if |parts| > 1 then Some(parts[1]) else None)
      && r.videoId == (if |parts| > 2 then Some(parts[2]) else None)
  {
    var parts := Split(Trim(stdout), "|||");
    VideoInfo(parts[0], DurationOf(if |parts| > 1 then Some(parts[1]) else None),
              if |parts| > 2 then Some(parts[2]) else None)
  }

  /** The YouTubeError message for a failed metadata call, by priority of the phrase found. */
  function InfoFailure(message: string): (m: string)
    ensures Contains(message, "Video unavailable") ==> m == "Video is unavailable or private"
    ensures !Contains(message, "Video unavailable") && Contains(message, "age-restricted") ==>
      m == "Video is age-restricted"
    ensures !Contains(message, "Video unavailable") && !Contains(message, "age-restricted") ==>
      (Contains(message, "copyright") ==> m == "Video has copyright restrictions")
    ensures !Contains(message, "Video unavailable") && !Contains(message, "age-restricted") ==>
      (!Contains(message, "copyright") ==> m == "Failed to fetch video information")
  {
    if Contains(message, "Video unavailable") then "Video is unavailable or private"
    else if Contains(message, "age-restricted") then "Video is age-restricted"
    else if Contains(message, "copyright") then "Video has copyright restrictions"
    else "Failed to fetch video information"
  }

  /** `getVideoInfo`: the parsed line, or a YouTubeError (status 400) when yt-dlp failed. */
  function GetVideoInfo(info: InfoCommand, youtubeUrl: string): (r: Result<VideoInfo, Error>)
    ensures r.Ok? <==> info(youtubeUrl).Ok?
    ensures r.Ok? ==> r.value == InfoOf(info(youtubeUrl).value)
    ensures r.Err? ==> r.error == YouTubeError(InfoFailure(info(youtubeUrl).error)) && r.error.app.statusCode == 400
  {
    match info(youtubeUrl)
    case Ok(stdout) => Ok(InfoOf(stdout))
    case Err(message) => Err(YouTubeError(InfoFailure(message)))
  }

  predicate NoBar(s: string) {
    forall k :: 0 <= k < |s| ==> s[k] != '|'
  }

  /** Splitting `a + "|||" + b` when `a` has no '|' cuts right after `a`. */
  lemma SplitAfterBarFree(a: string, b: string)
    requires NoBar(a)
    ensures Split(a + "|||" + b, "|||") == [a] + Split(b, "|||")
  {
    var s := a + "|||" + b;
    forall k | 0 <= k < |a|
      ensures !OccursAt(s, "|||", k)
    {
      if k + 3 <= |s| {
        assert s[k..k + 3][0] == s[k] == a[k];
      }
    }
    assert OccursAt(s, "|||", |a|);
    assert IndexOf(s, "|||") == Some(|a|);
    assert s[..|a|] == a;
    assert s[|a| + 3..] == b;
  }

  /** A text without '|' is one piece. */
  lemma SplitBarFree(s: string)
    requires NoBar(s)
    ensures Split(s, "|||") == [s]
  {
    forall k: nat
      ensures !OccursAt(s, "|||", k)
    {
      if k + 3 <= |s| {
        assert s[k..k + 3][0] == s[k];
      }
    }
  }

  lemma DigitsBarFree(n: nat)
    ensures NoBar(NatToString(n))
  {
    var digits := NatToString(n);
    forall k | 0 <= k < |digits|
      ensures digits[k] != '|'
    {
      assert IsDigit(digits[k]);
    }
  }

  /** Trimming leaves a text alone when it neither starts nor ends with white space. */
  lemma TrimUnchanged(s: string)
    requires s != [] && !IsJsSpace(s[0]) && !IsJsSpace(s[|s| - 1])
    ensures Trim(s) == s
  {
    assert TrimStart(s) == s;
  }

  /** Reading back a line printed for a title, a duration and an id recovers all three. */
  lemma InfoRoundTrip(title: string, duration: nat, id: string)
    requires NoBar(title) && NoBar(id)
    requires title != [] && !IsJsSpace(title[0])
    requires id != [] && !IsJsSpace(id[|id| - 1])
    ensures InfoOf(title + "|||" + NatToString(duration) + "|||" + id) == VideoInfo(title, duration, Some(id))
  {
    var digits := NatToString(duration);
    var rest := digits + "|||" + id;
    var line := title + "|||" + rest;
    assert line == title + "|||" + NatToString(duration) + "|||" + id;
    DigitsBarFree(duration);
    SplitAfterBarFree(digits, id);
    SplitBarFree(id);
    SplitAfterBarFree(title, rest);
    assert line[0] == title[0] && line[|line| - 1] == id[|id| - 1];
    TrimUnchanged(line);
    ThreeParts(line, title, digits, id);
    ParseIntOfNatText(duration);
  }

  /** A line whose trimmed text splits into three parts yields them as its fields. */
  lemma ThreeParts(stdout: string, a: string, b: string, c: string)
    requires Split(Trim(stdout), "|||") == [a, b, c]
    ensures InfoOf(stdout) == VideoInfo(a, DurationOf(Some(b)), Some(c))
  {
  }

  /** A line without the separator is all title: duration 0 and no id. */
  lemma LineWithoutSeparator(stdout: string)
    requires !Contains(Trim(stdout), "|||")
    ensures InfoOf(stdout) == VideoInfo(Trim(stdout), 0, None)
  {
  }

  // ---- the temporary directory ----

  const TempDir: string := "/tmp"

  /** `downloadAudio`'s output path, `path.join(TempDir, `${videoId}.mp3`)`. */
  function AudioPath(videoId: string): string {
    JoinAbsolute(TempDir, videoId + ".mp3")
  }

  /** A file name ending in ".mp3" with no '/' is one plain segment. */
  lemma Mp3NamePlain(rest: string)
    requires forall k :: 0 <= k < |rest| ==> rest[k] != '/'
    ensures PlainSegment(rest + ".mp3")
  {
    var name := rest + ".mp3";
    assert |name| >= 4;
    forall k | 0 <= k < |name|
      ensures name[k] != '/'
    {
      if k >= |rest| { assert name[k] == ".mp3"[k - |rest|]; }
    }
  }

  /**
   * The audio file always lies in a directory reached from the root through
   * plain segments only: no '.', '..' or empty segment survives the join.
   */
  lemma AudioPathNormalised(videoId: string)
    ensures exists segments: seq<string> ::
      AudioPath(videoId) == "/" + Join(segments, "/")
      && forall k :: 0 <= k < |segments| ==> PlainSegment(segments[k])
  {
    var joined := TempDir + "/" + (videoId + ".mp3");
    assert joined[|joined| - 1] == '3';
    NormalizedIsPlain(joined);
  }

  /** An id without '/' gives the file `/tmp/<id>.mp3`. */
  lemma PlainIdInTempDir(videoId: string)
    requires forall k :: 0 <= k < |videoId| ==> videoId[k] != '/'
    ensures AudioPath(videoId) == "/tmp/" + videoId + ".mp3"
  {
    Mp3NamePlain(videoId);
    assert TempDir == "/" + "tmp";
    JoinPlain("tmp", videoId + ".mp3");
  }

  /** A segment followed by '..' in the id cancels out: `d/../rest` is stored where `rest` is. */
  lemma ClimbCancels(d: string, rest: string)
    requires PlainSegment(d)
    ensures AudioPath(d + "/../" + rest) == AudioPath(rest)
  {
    assert (d + "/../" + rest) + ".mp3" == d + "/../" + (rest + ".mp3");
    assert TempDir == "/" + "tmp";
    JoinClimb("tmp", d, rest + ".mp3");
  }

  /** A '..' at the start of the id climbs out of the directory: an id without '/' lands at the root. */
  lemma LeadingClimbLeavesTempDir(rest: string)
    requires forall k :: 0 <= k < |rest| ==> rest[k] != '/'
    ensures AudioPath("../" + rest) == "/" + rest + ".mp3"
  {
    Mp3NamePlain(rest);
    assert "../" + rest + ".mp3" == "../" + (rest + ".mp3");
    assert TempDir == "/" + "tmp";
    JoinLeadingClimb("tmp", rest + ".mp3");
  }

  /** An id climbing out with '..' leaves the directory: the file lands at the root. */
  lemma DotDotLeavesTempDir()
    ensures AudioPath("dQw4w9WgXcQ/../../x") == "/x.mp3"
  {
    assert "dQw4w9WgXcQ" + "/../" + "../x" == "dQw4w9WgXcQ/../../x";
    assert "../" + "x" == "../x" && "/" + "x" + ".mp3" == "/x.mp3";
    ClimbCancels("dQw4w9WgXcQ", "../x");
    LeadingClimbLeavesTempDir("x");
  }

  /**
   * yt-dlp extracting the audio of a URL into a path: whether the file exists
   * afterwards, with its size, and the message of the error `exec` threw, if any.
   */
  type DownloadCommand = (string, string) -> (Option<nat>, Option<string>)

  /** The YouTubeError message of a failed download. */
  function DownloadFailure(message: string): (m: string)
    ensures Contains(message, "Video unavailable") ==> m == "Video is unavailable or private"
    ensures !Contains(message, "Video unavailable") ==> m == "Failed to download audio from YouTube"
  {
    if Contains(message, "Video unavailable") then "Video is unavailable or private"
    else "Failed to download audio from YouTube"
  }

  class Disk {
    /** The files of the temporary directory and their sizes in bytes. */
    var files: map<string, nat>

    constructor (files: map<string, nat>)
      ensures this.files == files
    {
      this.files := files;
    }

    /** `cleanupFile`: removes the file when it exists; never fails. */
    method CleanupFile(path: string)
      modifies this
      ensures files == old(files) - {path}
    {
      if path in files {
        files := files - {path};
      }
    }

    /**
     * `downloadAudio`: the path of the new file; on any failure, including a
     * command that succeeded without creating the file, that path is removed
     * and a YouTubeError is returned.
     */
    method DownloadAudio(download: DownloadCommand, youtubeUrl: string, videoId: string) returns (r: Result<string, Error>)
      modifies this
      ensures var (created, thrown) := download(youtubeUrl, AudioPath(videoId));
        r.Ok? <==> thrown.None? && created.Some?
      ensures r.Ok? ==> r.value == AudioPath(videoId)
      ensures r.Ok? ==> files == old(files)[AudioPath(videoId) := download(youtubeUrl, AudioPath(videoId)).0.value]
      ensures r.Err? ==> files == old(files) - {AudioPath(videoId)}
      ensures r.Err? ==>
        var thrown := download(youtubeUrl, AudioPath(videoId)).1;
        r.error == YouTubeError(DownloadFailure(if thrown.Some? then thrown.value else "Audio file was not created"))
    {
      var outputPath := AudioPath(videoId);
      var (created, thrown) := download(youtubeUrl, outputPath);
      if created.Some? {
        files := files[outputPath := created.value];
      } else {
        files := files - {outputPath};
      }
      var message: string;
      if thrown.Some? {
        message := thrown.value;
      } else if created.None? {
        message := "Audio file was not created";
      } else {
        return Ok(outputPath);
      }
      CleanupFile(outputPath);
      return Err(YouTubeError(DownloadFailure(message)));
    }
  }
}
