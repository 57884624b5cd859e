/**
 * backend/src/routes/videos.ts: create a video and queue its transcription,
 * list the caller's videos, read one, delete one. The request body has
 * already passed the schema check of the validation middleware, which is
 * not part of this model; the row id and creation time the database assigns
 * are parameters.
 */
module VideoRoutes {
  import opened Wrappers
  import opened Text
  import opened AppErrors
  import opened Store
  import opened Queues
  import opened YouTube
  import opened ErrorMiddleware

  /** The JSON bodies the routes send. */
  datatype Body =
    | CreatedBody(videoId: string)     // { success: true, video_id, status: 'pending', message: 'Video queued for processing' }
    | CreditsBody                      // { success: false, error: 'Insufficient credits' }
    | VideosBody(videos: seq<Video>)   // { success: true, videos }
    | VideoBody(video: Video)          // { success: true, video }
    | DeletedBody                      // { success: true, message: 'Video deleted' }

  type Reply = Response<Body>

  /** Where the checks before the insert end. */
  datatype Admission =
    | Rejected(error: Error)
    | NoCredits
    | Admitted(ytVideoId: string, info: VideoInfo)

  /** The checks of the create route, in order: the balance, the video id, the metadata call. */
  function Admit(credits: Result<int, Error>, info: InfoCommand, youtubeUrl: string): (a: Admission)
    ensures credits.Err? ==> a == Rejected(credits.error)
    ensures credits.Ok? && credits.value < 1 ==> a == NoCredits
    ensures credits.Ok? && credits.value >= 1 && ExtractVideoId(youtubeUrl).None? ==>
      a == Rejected(ValidationError("Invalid YouTube URL"))
    ensures credits.Ok? && credits.value >= 1 && ExtractVideoId(youtubeUrl).Some? && info(youtubeUrl).Err? ==>
      a == Rejected(YouTubeError(InfoFailure(info(youtubeUrl).error)))
    ensures a.Admitted? <==>
      credits.Ok? && credits.value >= 1 && ExtractVideoId(youtubeUrl).Some? && info(youtubeUrl).Ok?
    ensures a.Admitted? ==>
      a.ytVideoId == ExtractVideoId(youtubeUrl).value && a.info == InfoOf(info(youtubeUrl).value)
  {
    match credits
    case Err(e) => Rejected(e)
    case Ok(c) =>
      if c < 1 then NoCredits
      else match ExtractVideoId(youtubeUrl)
        case None => Rejected(ValidationError("Invalid YouTube URL"))
        case Some(id) =>
          match GetVideoInfo(info, youtubeUrl)
          case Err(e) => Rejected(e)
          case Ok(videoInfo) => Admitted(id, videoInfo)
  }

  /**
   * The balance is checked before the URL: without credits the reply is the
   * same whatever URL and metadata come with the request.
   */
  lemma CreditsCheckedFirst(credits: Result<int, Error>, i1: InfoCommand, u1: string, i2: InfoCommand, u2: string)
    requires credits.Ok? && credits.value < 1
    ensures Admit(credits, i1, u1) == Admit(credits, i2, u2) == NoCredits
  {
  }

  /** An admitted request carries a usable id: non-empty, found in the URL, without `&`, `?`, `#` or newline. */
  lemma AdmittedIdShape(credits: Result<int, Error>, info: InfoCommand, youtubeUrl: string)
    requires Admit(credits, info, youtubeUrl).Admitted?
    ensures var id := Admit(credits, info, youtubeUrl).ytVideoId;
      id != [] && NoStopChar(id) && exists k: nat :: OccursAt(youtubeUrl, id, k)
  {
  }

  /** The new row's value: pending, no transcript, no error, the metadata's title and duration. */
  function NewVideo(id: string, now: nat, userId: string, youtubeUrl: string, ytVideoId: string, info: VideoInfo):
    (v: Video)
    ensures v.id == id && v.userId == userId && v.status == Pending
    ensures v.transcript.None? && v.errorMessage.None?
    ensures v.videoId == ytVideoId && v.title == info.title && v.duration == info.duration && v.createdAt == now
    ensures v.youtubeUrl == youtubeUrl
  {
    Video(id, userId, youtubeUrl, ytVideoId, info.title, info.duration, None, Pending, None, now)
  }

  /**
   * `POST /`: an admitted request inserts one pending row and queues exactly
   * one transcription job for it, and replies 201; any earlier stop inserts
   * and queues nothing. No credit is taken here.
   */
  method CreateVideoRoute(db: Database, queues: Queues, info: InfoCommand, userId: string, youtubeUrl: string,
                          id: string, now: nat, production: bool)
    returns (reply: Reply)
    requires db.Valid()
    modifies db, queues.transcription
    ensures db.Valid()
    ensures var a := Admit(old(db.CheckUserCredits(userId)), info, youtubeUrl);
      a.Admitted? && id !in old(db.videos) ==>
        reply == Sent(201, CreatedBody(id))
        && db.videos == old(db.videos)[id := NewVideo(id, now, userId, youtubeUrl, a.ytVideoId, a.info)]
        && queues.transcription.jobs == old(queues.transcription.jobs) + [TranscriptionJob(id, youtubeUrl, userId)]
    ensures var a := Admit(old(db.CheckUserCredits(userId)), info, youtubeUrl);
      !(a.Admitted? && id !in old(db.videos)) ==>
        db.videos == old(db.videos) && queues.transcription.jobs == old(queues.transcription.jobs)
    ensures var a := Admit(old(db.CheckUserCredits(userId)), info, youtubeUrl);
      a.Admitted? && id in old(db.videos) ==> reply == Errored(HandleError(DuplicateKey, production))
    ensures var a := Admit(old(db.CheckUserCredits(userId)), info, youtubeUrl);
      a.NoCredits? ==> reply == Sent(402, CreditsBody)
    ensures var a := Admit(old(db.CheckUserCredits(userId)), info, youtubeUrl);
      a.Rejected? ==> reply == Errored(HandleError(a.error, production))
    ensures db.profiles == old(db.profiles) && db.content == old(db.content) && db.contentLog == old(db.contentLog)
  {
    var credits := db.CheckUserCredits(userId);
    if credits.Err? {
      return Errored(HandleError(credits.error, production));
    }
    if credits.value < 1 {
      return Sent(402, CreditsBody);
    }
    var ytVideoId := ExtractVideoId(youtubeUrl);
    if ytVideoId.None? {
      return Errored(HandleError(ValidationError("Invalid YouTube URL"), production));
    }
    var videoInfo := GetVideoInfo(info, youtubeUrl);
    if videoInfo.Err? {
      return Errored(HandleError(videoInfo.error, production));
    }
    var video := db.CreateVideo(id, now, userId, youtubeUrl, ytVideoId.value, videoInfo.value.title,
                                videoInfo.value.duration);
    if video.Err? {
      return Errored(HandleError(video.error, production));
    }
    queues.transcription.Add(TranscriptionJob(video.value.id, youtubeUrl, userId));
    return Sent(201, CreatedBody(video.value.id));
  }

  /** `GET /`: the caller's videos, each once, newest first. */
  method ListVideos(db: Database, userId: string, production: bool) returns (reply: Reply)
    requires db.Valid()
    ensures !db.online ==> reply == Errored(HandleError(Unreachable, production))
    ensures db.online ==> reply.Sent? && reply.status == 200 && reply.body.VideosBody?
    ensures db.online ==> NewestFirst(reply.body.videos)
    ensures db.online ==>
      forall v :: multiset(reply.body.videos)[v] == if OwnedRow(db.videos, userId, v) then 1 else 0
  {
    var videos := db.GetUserVideos(userId);
    if videos.Err? {
      return Errored(HandleError(videos.error, production));
    }
    return Sent(200, VideosBody(videos.value));
  }

  /** `GET /:id`: the row when the caller owns it, else 404 'Video not found'. */
  function GetVideoRoute(db: Database, id: string, userId: string, production: bool): (r: Reply)
    reads db`videos
    ensures db.online && id in db.videos && db.videos[id].userId == userId ==> r == Sent(200, VideoBody(db.videos[id]))
    ensures !(db.online && id in db.videos && db.videos[id].userId == userId) ==>
      r == Errored(ErrorReply(404, ErrorBody(false, "Video not found")))
  {
    match db.GetVideoById(id, userId)
    case Ok(video) => Sent(200, VideoBody(video))
    case Err(e) => Errored(HandleError(e, production))
  }

  /**
   * `DELETE /:id`, with the authenticated user as owner: the row goes only
   * when the caller owns it; the content rows of the id go in every case.
   */
  method DeleteVideoRoute(db: Database, id: string, userId: string, production: bool) returns (reply: Reply)
    requires db.Valid()
    modifies db
    ensures db.Valid()
    ensures !db.online ==>
      reply == Errored(HandleError(Unreachable, production)) && db.videos == old(db.videos) && db.content == old(db.content)
    ensures db.online ==> reply == Sent(200, DeletedBody) && db.content == WithoutVideo(old(db.content), id)
    ensures db.online && id in old(db.videos) && old(db.videos)[id].userId == userId ==> db.videos == old(db.videos) - {id}
    ensures !(id in old(db.videos) && old(db.videos)[id].userId == userId) ==> db.videos == old(db.videos)
    ensures db.profiles == old(db.profiles) && db.contentLog == old(db.contentLog)
  {
    var deleted := db.DeleteVideo(id, userId);
    if deleted.Err? {
      return Errored(HandleError(deleted.error, production));
    }
    return Sent(200, DeletedBody);
  }
}
