/**
 * The three tables behind backend/src/services/supabase.service.ts (videos,
 * content, profiles), held in memory by one object, and the service's
 * operations on them. A single `online` flag stands for "the hosted database
 * answers"; when it does not, every call fails with `Unreachable` and changes
 * nothing. Timestamps (`updated_at`) are left out; `created_at` and the row
 * identifier that the database assigns on insert are passed in.
 *
 * supabase-js drops a field whose value is `undefined` from the request body,
 * so an update or upsert called without an error message leaves the stored
 * `error_message` as it was.
 */
module Store {
  import opened Wrappers
  import opened JsonValue
  import opened AppErrors

  datatype Status = Pending | Processing | Completed | Failed

  datatype ContentType = Shorts | Blog | Twitter | LinkedIn | Instagram | Thumbnail

  /** The `content_type` column value of each type. */
  function TypeName(t: ContentType): string {
    match t
    case Shorts => "shorts"
    case Blog => "blog"
    case Twitter => "twitter"
    case LinkedIn => "linkedin"
    case Instagram => "instagram"
    case Thumbnail => "thumbnail"
  }

  /** The type a `content_type` string names, None for any other string. */
  function TypeNamed(name: string): (r: Option<ContentType>)
    ensures r.Some? ==> TypeName(r.value) == name
    ensures r.None? ==> forall t: ContentType :: TypeName(t) != name
  {
    if name == "shorts" then Some(Shorts)
    else if name == "blog" then Some(Blog)
    else if name == "twitter" then Some(Twitter)
    else if name == "linkedin" then Some(LinkedIn)
    else if name == "instagram" then Some(Instagram)
    else if name == "thumbnail" then Some(Thumbnail)
    else None
  }

  lemma TypeNamesDistinct(s: ContentType, t: ContentType)
    ensures TypeName(s) == TypeName(t) ==> s == t
    ensures TypeNamed(TypeName(t)) == Some(t)
  {
  }

  /** A row of `videos`; `videoId` is the extracted YouTube id, `id` the row's own key. */
  datatype Video = Video(
    id: string,
    userId: string,
    youtubeUrl: string,
    videoId: string,
    title: string,
    duration: int,
    transcript: Option<string>,
    status: Status,
    errorMessage: Option<string>,
    createdAt: nat)

  /** A row of `content`. */
  datatype ContentRow = ContentRow(
    videoId: string,
    contentType: ContentType,
    data: Json,
    status: Status,
    errorMessage: Option<string>)

  /** A row of `profiles`: only the balance is modelled; null is None. */
  datatype Profile = Profile(credits: Option<int>)

  /** The client error when the database cannot be reached. */
  const Unreachable: Error := Plain("TypeError", "fetch failed")

  /** The PostgREST error of `.single()` when no row matches. */
  const NoRows: Error := Plain("PostgrestError", "JSON object requested, multiple (or no) rows returned")

  /** The PostgREST error of an insert whose primary key is taken. */
  const DuplicateKey: Error := Plain("PostgrestError", "duplicate key value violates unique constraint \"videos_pkey\"")

  predicate NewestFirst(vs: seq<Video>) {
    forall i, j :: 0 <= i < j < |vs| ==> vs[i].createdAt >= vs[j].createdAt
  }

  /** `v` is a stored row of `videos` owned by `userId`. */
  predicate OwnedRow(videos: map<string, Video>, userId: string, v: Video) {
    v.id in videos && videos[v.id] == v && v.userId == userId
  }

  /** Inserts `v` in front of the first row that is not newer than it. */
  function InsertNewestFirst(vs: seq<Video>, v: Video): (r: seq<Video>)
    requires NewestFirst(vs)
    ensures NewestFirst(r)
    ensures multiset(r) == multiset(vs) + multiset{v}
  {
    if vs == [] || vs[0].createdAt <= v.createdAt then
      ConsNewestFirst(v, vs);
      [v] + vs
    else
      var rest := InsertNewestFirst(vs[1..], v);
      assert vs == [vs[0]] + vs[1..];
      TailNotNewer(vs);
      NoNewerAfterInsert(vs[1..], v, rest, vs[0].createdAt);
      ConsNewestFirst(vs[0], rest);
      [vs[0]] + rest
  }

  /** A row no older than the head of a newest-first list can go in front of it. */
  lemma ConsNewestFirst(v: Video, vs: seq<Video>)
    requires NewestFirst(vs) && (vs == [] || vs[0].createdAt <= v.createdAt)
    ensures NewestFirst([v] + vs)
  {
    var r := [v] + vs;
    forall i, j | 0 <= i < j < |r|
      ensures r[i].createdAt >= r[j].createdAt
    {
      if i == 0 {
        assert r[j] == vs[j - 1];
        if j > 1 { assert vs[0].createdAt >= vs[j - 1].createdAt; }
      } else {
        assert r[i] == vs[i - 1] && r[j] == vs[j - 1];
      }
    }
  }

  /** In a newest-first list nothing after the head is newer than it. */
  lemma TailNotNewer(vs: seq<Video>)
    requires NewestFirst(vs) && vs != []
    ensures forall x :: x in vs[1..] ==> x.createdAt <= vs[0].createdAt
  {
    forall x | x in vs[1..]
      ensures x.createdAt <= vs[0].createdAt
    {
      var i :| 0 <= i < |vs[1..]| && vs[1..][i] == x;
      assert vs[i + 1] == x;
    }
  }

  /** A bound on every row's age survives adding one more row within it. */
  lemma NoNewerAfterInsert(vs: seq<Video>, v: Video, rest: seq<Video>, bound: int)
    requires forall x :: x in vs ==> x.createdAt <= bound
    requires v.createdAt <= bound && multiset(rest) == multiset(vs) + multiset{v}
    ensures forall k :: 0 <= k < |rest| ==> rest[k].createdAt <= bound
  {
    forall k | 0 <= k < |rest|
      ensures rest[k].createdAt <= bound
    {
      assert rest[k] in multiset(rest);
      assert rest[k] == v || rest[k] in vs;
    }
  }

  /** The row after `update({transcript, transcript_status, error_message})`. */
  function WithTranscript(v: Video, transcript: string, status: Status, errorMessage: Option<string>): (r: Video)
    ensures r.transcript == Some(transcript) && r.status == status
    ensures r.errorMessage == if errorMessage.Some? then errorMessage else v.errorMessage
    ensures r.id == v.id && r.userId == v.userId && r.youtubeUrl == v.youtubeUrl && r.videoId == v.videoId
    ensures r.title == v.title && r.duration == v.duration && r.createdAt == v.createdAt
  {
    v.(transcript := Some(transcript), status := status,
       errorMessage := if errorMessage.Some? then errorMessage else v.errorMessage)
  }

  /** The row after `update({transcript_status, error_message})`: the transcript is kept. */
  function WithStatus(v: Video, status: Status, errorMessage: Option<string>): (r: Video)
    ensures r.transcript == v.transcript && r.status == status
    ensures r.errorMessage == if errorMessage.Some? then errorMessage else v.errorMessage
    ensures r.id == v.id && r.userId == v.userId && r.youtubeUrl == v.youtubeUrl && r.videoId == v.videoId
    ensures r.title == v.title && r.duration == v.duration && r.createdAt == v.createdAt
  {
    v.(status := status, errorMessage := if errorMessage.Some? then errorMessage else v.errorMessage)
  }

  /** The row the upsert on (video_id, content_type) leaves, given the row already there. */
  function MergedRow(existing: Option<ContentRow>, videoId: string, t: ContentType, data: Json,
                     status: Status, errorMessage: Option<string>): (r: ContentRow)
    ensures r.videoId == videoId && r.contentType == t && r.data == data && r.status == status
    ensures errorMessage.Some? ==> r.errorMessage == errorMessage
    ensures errorMessage.None? && existing.Some? ==> r.errorMessage == existing.value.errorMessage
    ensures errorMessage.None? && existing.None? ==> r.errorMessage.None?
  {
    var kept := if errorMessage.Some? then errorMessage
                else if existing.Some? then existing.value.errorMessage
                else None;
    ContentRow(videoId, t, data, status, kept)
  }

  /** Applying the same upsert twice leaves the row the first one left. */
  lemma MergedRowIdempotent(existing: Option<ContentRow>, videoId: string, t: ContentType, data: Json,
                            status: Status, errorMessage: Option<string>)
    ensures var once := MergedRow(existing, videoId, t, data, status, errorMessage);
      MergedRow(Some(once), videoId, t, data, status, errorMessage) == once
  {
  }

  /** The content table without the rows of `videoId`. */
  function WithoutVideo(content: map<(string, ContentType), ContentRow>, videoId: string):
    (r: map<(string, ContentType), ContentRow>)
    ensures forall k :: k in r <==> k in content && k.0 != videoId
    ensures forall k :: k in r ==> r[k] == content[k]
  {
    map k | k in content && k.0 != videoId :: content[k]
  }

  /** A second update of a key replaces the first. */
  lemma Overwrite<K, V>(m: map<K, V>, k: K, a: V, b: V)
    ensures m[k := a][k := b] == m[k := b]
  {
  }

  /** Three appends in a row are one append of the three. */
  lemma AppendThree<T>(s: seq<T>, a: T, b: T, c: T)
    ensures s + [a] + [b] + [c] == s + [a, b, c]
  {
  }

  /** Every content row is stored under its own (video_id, content_type) key. */
  predicate ContentKeyed(content: map<(string, ContentType), ContentRow>) {
    forall k :: k in content ==> content[k].videoId == k.0 && content[k].contentType == k.1
  }

  /** Storing a row under its own key keeps the table keyed. */
  lemma StoreKeyedRow(content: map<(string, ContentType), ContentRow>, row: ContentRow)
    requires ContentKeyed(content)
    ensures ContentKeyed(content[(row.videoId, row.contentType) := row])
  {
  }

  class Database {
    const online: bool
    var videos: map<string, Video>
    var content: map<(string, ContentType), ContentRow>
    var profiles: map<string, Profile>
    /** Every content row written, in order: the table itself keeps only the last. */
    ghost var contentLog: seq<ContentRow>

    /** Every row is stored under its own key: one row per video id, one per (video_id, content_type). */
    ghost predicate Valid()
      reads this
    {
      (forall id :: id in videos ==> videos[id].id == id) && ContentKeyed(content)
    }

    constructor (online: bool, profiles: map<string, Profile>)
      ensures Valid()
      ensures this.online == online && this.profiles == profiles
      ensures videos == map[] && content == map[] && contentLog == []
    {
      this.online := online;
      this.videos := map[];
      this.content := map[];
      this.profiles := profiles;
      this.contentLog := [];
    }

    /** `createVideo`: insert a row with status pending; `id` and `now` are what the database assigns. */
    method CreateVideo(id: string, now: nat, userId: string, youtubeUrl: string, videoId: string,
                       title: string, duration: int) returns (r: Result<Video, Error>)
      requires Valid()
      modifies this
      ensures Valid()
      ensures !online ==> r == Err(Unreachable) && videos == old(videos)
      ensures online && id in old(videos) ==> r == Err(DuplicateKey) && videos == old(videos)
      ensures online && id !in old(videos) ==>
        r == Ok(Video(id, userId, youtubeUrl, videoId, title, duration, None, Pending, None, now))
        && videos == old(videos)[id := r.value]
      ensures content == old(content) && profiles == old(profiles) && contentLog == old(contentLog)
    {
      if !online {
        return Err(Unreachable);
      }
      if id in videos {
        return Err(DuplicateKey);
      }
      var v := Video(id, userId, youtubeUrl, videoId, title, duration, None, Pending, None, now);
      videos := videos[id := v];
      return Ok(v);
    }

    /** `getVideoById`: the row with this id and this owner, else NotFoundError('Video not found'). */
    function GetVideoById(id: string, userId: string): (r: Result<Video, Error>)
      reads this`videos
      ensures r.Ok? <==> online && id in videos && videos[id].userId == userId
      ensures r.Ok? ==> r.value == videos[id]
      ensures r.Err? ==> r.error == NotFoundError(Some("Video not found"))
    {
      if online && id in videos && videos[id].userId == userId then Ok(videos[id])
      else Err(NotFoundError(Some("Video not found")))
    }

    /** `getUserVideos`: each of the caller's rows exactly once, newest `created_at` first. */
    method GetUserVideos(userId: string) returns (r: Result<seq<Video>, Error>)
      requires Valid()
      ensures !online ==> r == Err(Unreachable)
      ensures online ==> r.Ok? && NewestFirst(r.value)
      ensures online ==> forall v :: multiset(r.value)[v] == if OwnedRow(videos, userId, v) then 1 else 0
    {
      if !online {
        return Err(Unreachable);
      }
      var pending := videos.Keys;
      var acc: seq<Video> := [];
      while pending != {}
        invariant pending <= videos.Keys
        invariant NewestFirst(acc)
        invariant forall v ::
          multiset(acc)[v] == if OwnedRow(videos, userId, v) && v.id !in pending then 1 else 0
        decreases pending
      {
        var id :| id in pending;
        pending := pending - {id};
        assert videos[id].id == id;
        if videos[id].userId == userId {
          acc := InsertNewestFirst(acc, videos[id]);
        }
      }
      return Ok(acc);
    }

    /** `updateVideoTranscript`: sets transcript, status and (when given) the error message. */
    method UpdateVideoTranscript(id: string, transcript: string, status: Status, errorMessage: Option<string>)
      returns (r: Result<(), Error>)
      requires Valid()
      requires status == Completed || status == Failed
      modifies this
      ensures Valid()
      ensures !online ==> r == Err(Unreachable) && videos == old(videos)
      ensures online ==> r.Ok?
      ensures online && id in old(videos) ==>
        videos == old(videos)[id := WithTranscript(old(videos)[id], transcript, status, errorMessage)]
      ensures online && id !in old(videos) ==> videos == old(videos)
      ensures content == old(content) && profiles == old(profiles) && contentLog == old(contentLog)
    {
      if !online {
        return Err(Unreachable);
      }
      if id in videos {
        videos := videos[id := WithTranscript(videos[id], transcript, status, errorMessage)];
      }
      return Ok(());
    }

    /** `updateVideoStatus`: sets status and (when given) the error message, never the transcript. */
    method UpdateVideoStatus(id: string, status: Status, errorMessage: Option<string>) returns (r: Result<(), Error>)
      requires Valid()
      modifies this
      ensures Valid()
      ensures !online ==> r == Err(Unreachable) && videos == old(videos)
      ensures online ==> r.Ok?
      ensures online && id in old(videos) ==>
        videos == old(videos)[id := WithStatus(old(videos)[id], status, errorMessage)]
      ensures online && id !in old(videos) ==> videos == old(videos)
      ensures content == old(content) && profiles == old(profiles) && contentLog == old(contentLog)
    {
      if !online {
        return Err(Unreachable);
      }
      if id in videos {
        videos := videos[id := WithStatus(videos[id], status, errorMessage)];
      }
      return Ok(());
    }

    /**
     * `deleteVideo`: first every content row of the id goes, whoever owns the
     * video (that delete's own error is ignored), then the video row if the
     * caller owns it.
     */
    method DeleteVideo(id: string, userId: string) returns (r: Result<(), Error>)
      requires Valid()
      modifies this
      ensures Valid()
      ensures !online ==> r == Err(Unreachable) && videos == old(videos) && content == old(content)
      ensures online ==> r.Ok? && content == WithoutVideo(old(content), id)
      ensures online && id in old(videos) && old(videos)[id].userId == userId ==> videos == old(videos) - {id}
      ensures !(id in old(videos) && old(videos)[id].userId == userId) ==> videos == old(videos)
      ensures profiles == old(profiles) && contentLog == old(contentLog)
    {
      if !online {
        return Err(Unreachable);
      }
      content := WithoutVideo(content, id);
      if id in videos && videos[id].userId == userId {
        videos := videos - {id};
      }
      return Ok(());
    }

    /** `getContent`: the row for (video, type), None when there is none; absence is not an error. */
    function GetContent(videoId: string, t: ContentType): (r: Result<Option<ContentRow>, Error>)
      reads this`content
      ensures !online ==> r == Err(Unreachable)
      ensures online ==> r.Ok? && (r.value.Some? <==> (videoId, t) in content)
      ensures online && r.value.Some? ==> r.value.value == content[(videoId, t)]
    {
      if !online then Err(Unreachable)
      else if (videoId, t) in content then Ok(Some(content[(videoId, t)]))
      else Ok(None)
    }

    /** `upsertContent` on conflict (video_id, content_type): the pair's single row is replaced. */
    method UpsertContent(videoId: string, t: ContentType, data: Json, status: Status, errorMessage: Option<string>)
      returns (r: Result<ContentRow, Error>)
      requires Valid()
      modifies this
      ensures Valid()
      ensures !online ==> r == Err(Unreachable) && content == old(content) && contentLog == old(contentLog)
      ensures online ==>
        var existing := if (videoId, t) in old(content) then Some(old(content)[(videoId, t)]) else None;
        r == Ok(MergedRow(existing, videoId, t, data, status, errorMessage))
        && content == old(content)[(videoId, t) := r.value]
        && contentLog == old(contentLog) + [r.value]
      ensures videos == old(videos) && profiles == old(profiles)
    {
      if !online {
        return Err(Unreachable);
      }
      var existing := if (videoId, t) in content then Some(content[(videoId, t)]) else None;
      var row := MergedRow(existing, videoId, t, data, status, errorMessage);
      StoreKeyedRow(content, row);
      content := content[(videoId, t) := row];
      contentLog := contentLog + [row];
      return Ok(row);
    }

    /** `deleteContent`: removes the pair's row, if any. */
    method DeleteContent(videoId: string, t: ContentType) returns (r: Result<(), Error>)
      requires Valid()
      modifies this
      ensures Valid()
      ensures !online ==> r == Err(Unreachable) && content == old(content)
      ensures online ==> r.Ok? && content == old(content) - {(videoId, t)}
      ensures videos == old(videos) && profiles == old(profiles) && contentLog == old(contentLog)
    {
      if !online {
        return Err(Unreachable);
      }
      content := content - {(videoId, t)};
      return Ok(());
    }

    /** `checkUserCredits`: the stored balance, with null and 0 both read as 0; no profile is an error. */
    function CheckUserCredits(userId: string): (r: Result<int, Error>)
      reads this`profiles
      ensures !online ==> r == Err(Unreachable)
      ensures online && userId !in profiles ==> r == Err(NoRows)
      ensures online && userId in profiles ==> r.Ok?
      ensures r.Ok? && profiles[userId].credits.None? ==> r.value == 0
      ensures r.Ok? && profiles[userId].credits.Some? ==> r.value == profiles[userId].credits.value
    {
      if !online then Err(Unreachable)
      else if userId !in profiles then Err(NoRows)
      else match profiles[userId].credits
        case None => Ok(0)
        case Some(c) => Ok(if c != 0 then c else 0)
    }

    /** The balance `deductCredit` would store, or the error it would throw. */
    function ChargeResult(userId: string): (r: Result<int, Error>)
      reads this`profiles
      ensures CheckUserCredits(userId).Err? ==> r == Err(CheckUserCredits(userId).error)
      ensures CheckUserCredits(userId).Ok? && CheckUserCredits(userId).value < 1 ==> r == Err(InsufficientCreditsError())
      ensures CheckUserCredits(userId).Ok? && CheckUserCredits(userId).value >= 1 ==>
        r == Ok(CheckUserCredits(userId).value - 1)
    {
      match CheckUserCredits(userId)
      case Err(e) => Err(e)
      case Ok(c) => if c < 1 then Err(InsufficientCreditsError()) else Ok(c - 1)
    }

    /** `deductCredit`: read the balance, refuse below 1, else store exactly one less. */
    method DeductCredit(userId: string) returns (r: Result<(), Error>)
      requires Valid()
      modifies this
      ensures Valid()
      ensures r.Ok? <==> old(ChargeResult(userId)).Ok?
      ensures r.Err? ==> r.error == old(ChargeResult(userId)).error && profiles == old(profiles)
      ensures r.Ok? ==> profiles == old(profiles)[userId := Profile(Some(old(ChargeResult(userId)).value))]
      ensures videos == old(videos) && content == old(content) && contentLog == old(contentLog)
    {
      var credits := CheckUserCredits(userId);
      if credits.Err? {
        return Err(credits.error);
      }
      if credits.value < 1 {
        return Err(InsufficientCreditsError());
      }
      profiles := profiles[userId := Profile(Some(credits.value - 1))];
      return Ok(());
    }

    /** A successful charge takes exactly one credit from a balance of at least one. */
    lemma ChargeTakesOne(userId: string)
      ensures ChargeResult(userId).Ok? ==>
        userId in profiles && profiles[userId].credits.Some?
        && ChargeResult(userId).value == profiles[userId].credits.value - 1
        && ChargeResult(userId).value >= 0
      ensures CheckUserCredits(userId).Ok? && CheckUserCredits(userId).value < 1 ==> ChargeResult(userId).Err?
    {
    }
  }
}
