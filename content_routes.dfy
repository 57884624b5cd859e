/**
 * backend/src/routes/content.ts: the six POST routes that queue a content
 * job and the GET route that reads a content row. The caller is the user
 * the authentication middleware attached; `regenerate` is the truthiness of
 * the request body's field; `production` selects the error handler's
 * production behaviour. The rate limiter in front of the POST routes is
 * not modelled.
 */
module ContentRoutes {
  import opened Wrappers
  import opened AppErrors
  import opened Store
  import opened Queues
  import opened ErrorMiddleware

  /** The JSON bodies the routes send. */
  datatype Body =
    | CachedBody(content: ContentRow)      // { success: true, content, cached: true }
    | CreditsBody                          // { success: false, error: 'Insufficient credits' }
    | StartedBody(message: string)         // { success: true, status: 'processing', message }
    | ContentBody(content: ContentRow)     // { success: true, content }

  type Reply = Response<Body>

  /** Where the guard chain of `generateContent` ends. */
  datatype Verdict =
    | Refused(error: Error)
    | ReturnCached(row: ContentRow)
    | NoCredits
    | Enqueue(job: ContentJob)

  /** The transcript can be used: status completed and a non-empty text. */
  predicate TranscriptReady(v: Video) {
    v.status == Completed && v.transcript.Some? && v.transcript.value != ""
  }

  /** `video.title || 'Video'`. */
  function TitleOrDefault(title: string): (r: string)
    ensures r != ""
    ensures title != "" ==> r == title
  {
    if title != "" then title else "Video"
  }

  /** The caller owns a stored video with this id (on a reachable database). */
  predicate Owns(db: Database, userId: string, videoId: string)
    reads db`videos
  {
    db.online && videoId in db.videos && db.videos[videoId].userId == userId
  }

  /** A completed row exists for the pair and regeneration was not asked for. */
  predicate CacheHit(db: Database, videoId: string, t: ContentType, regenerate: bool)
    reads db`content
  {
    (videoId, t) in db.content && db.content[(videoId, t)].status == Completed && !regenerate
  }

  /**
   * The guard chain: ownership, then the transcript, then the cache, then
   * the balance; only a request that passes all four queues a job.
   * `getVideoById` succeeds exactly when `Owns` holds, and on the reachable
   * database that ownership implies `getContent` does not fail, so the
   * guards are written with those predicates.
   */
  function Decide(db: Database, userId: string, videoId: string, t: ContentType, regenerate: bool): (d: Verdict)
    reads db`videos, db`content, db`profiles
    ensures !Owns(db, userId, videoId) ==> d == Refused(NotFoundError(Some("Video not found")))
    ensures Owns(db, userId, videoId) && !TranscriptReady(db.videos[videoId]) ==>
      d == Refused(ValidationError("Video transcript not ready"))
    ensures d.ReturnCached? <==>
      Owns(db, userId, videoId) && TranscriptReady(db.videos[videoId]) && CacheHit(db, videoId, t, regenerate)
    ensures d.ReturnCached? ==> d.row == db.content[(videoId, t)]
    ensures d.NoCredits? <==>
      Owns(db, userId, videoId) && TranscriptReady(db.videos[videoId]) && !CacheHit(db, videoId, t, regenerate)
      && db.CheckUserCredits(userId).Ok? && db.CheckUserCredits(userId).value < 1
    ensures d.Enqueue? <==>
      Owns(db, userId, videoId) && TranscriptReady(db.videos[videoId]) && !CacheHit(db, videoId, t, regenerate)
      && db.CheckUserCredits(userId).Ok? && db.CheckUserCredits(userId).value >= 1
    ensures d.Enqueue? ==>
      var v := db.videos[videoId];
      d.job == ContentJob(videoId, userId, v.transcript.value, TitleOrDefault(v.title))
  {
    if !Owns(db, userId, videoId) then Refused(NotFoundError(Some("Video not found")))
    else
      var video := db.videos[videoId];
      if !TranscriptReady(video) then Refused(ValidationError("Video transcript not ready"))
      else if CacheHit(db, videoId, t, regenerate) then ReturnCached(db.content[(videoId, t)])
      else match db.CheckUserCredits(userId)
        case Err(e) => Refused(e)
        case Ok(credits) =>
          if credits < 1 then NoCredits
          else Enqueue(ContentJob(videoId, userId, video.transcript.value, TitleOrDefault(video.title)))
  }

  /** The reply the route sends for a verdict. */
  function VerdictReply(d: Verdict, t: ContentType, production: bool): (r: Reply)
    ensures d.Refused? ==> r == Errored(HandleError(d.error, production))
    ensures d.ReturnCached? ==> r == Sent(200, CachedBody(d.row))
    ensures d.NoCredits? ==> r == Sent(402, CreditsBody)
    ensures d.Enqueue? ==> r == Sent(200, StartedBody(TypeName(t) + " generation started"))
  {
    match d
    case Refused(e) => Errored(HandleError(e, production))
    case ReturnCached(row) => Sent(200, CachedBody(row))
    case NoCredits => Sent(402, CreditsBody)
    case Enqueue(_) => Sent(200, StartedBody(TypeName(t) + " generation started"))
  }

  /**
   * `generateContent` for type `t`: runs the checks in the route's order and
   * appends the job to the type's own queue when all pass; nothing else
   * changes, and no other queue receives a job.
   */
  method GenerateContent(db: Database, queues: Queues, t: ContentType, userId: string, videoId: string,
                         regenerate: bool, production: bool)
    returns (reply: Reply)
    requires queues.Valid()
    modifies queues.ContentQueue(t)
    ensures reply == VerdictReply(Decide(db, userId, videoId, t, regenerate), t, production)
    ensures Decide(db, userId, videoId, t, regenerate).Enqueue? ==>
      queues.ContentQueue(t).jobs == old(queues.ContentQueue(t).jobs) + [Decide(db, userId, videoId, t, regenerate).job]
    ensures !Decide(db, userId, videoId, t, regenerate).Enqueue? ==>
      queues.ContentQueue(t).jobs == old(queues.ContentQueue(t).jobs)
    ensures forall s: ContentType :: s != t ==> queues.ContentQueue(s).jobs == old(queues.ContentQueue(s).jobs)
    ensures queues.transcription.jobs == old(queues.transcription.jobs)
  {
    forall s: ContentType
      ensures s != t ==> queues.ContentQueue(s) != queues.ContentQueue(t)
    {
      queues.ContentQueuesDistinct(s, t);
    }
    var d := CheckRequest(db, t, userId, videoId, regenerate);
    if d.Enqueue? {
      queues.ContentQueue(t).Add(d.job);
    }
    reply := VerdictReply(d, t, production);
  }

  /** The route's reads and checks before the queue: ownership, transcript, cache, then credits. */
  method CheckRequest(db: Database, t: ContentType, userId: string, videoId: string, regenerate: bool)
    returns (d: Verdict)
    ensures d == Decide(db, userId, videoId, t, regenerate)
  {
    var found := db.GetVideoById(videoId, userId);
    if found.Err? {
      return Refused(found.error);
    }
    var video := found.value;
    if video.status != Completed || video.transcript.None? || video.transcript.value == "" {
      return Refused(ValidationError("Video transcript not ready"));
    }
    // The video read succeeded, so the database is reachable and this read cannot fail.
    var existing := db.GetContent(videoId, t);
    if existing.value.Some? && existing.value.value.status == Completed && !regenerate {
      return ReturnCached(existing.value.value);
    }
    var credits := db.CheckUserCredits(userId);
    if credits.Err? {
      return Refused(credits.error);
    }
    if credits.value < 1 {
      return NoCredits;
    }
    return Enqueue(ContentJob(videoId, userId, video.transcript.value, TitleOrDefault(video.title)));
  }

  /** Each refusal carries the status of its check: 404 for ownership, 400 for the transcript, 402 for credits. */
  lemma RefusalStatuses(db: Database, userId: string, videoId: string, t: ContentType, regenerate: bool,
                        production: bool)
    ensures var r := VerdictReply(Decide(db, userId, videoId, t, regenerate), t, production);
      !Owns(db, userId, videoId) ==>
        r == Errored(ErrorReply(404, ErrorBody(false, "Video not found")))
    ensures var r := VerdictReply(Decide(db, userId, videoId, t, regenerate), t, production);
      Owns(db, userId, videoId) && !TranscriptReady(db.videos[videoId]) ==>
        r == Errored(ErrorReply(400, ErrorBody(false, "Video transcript not ready")))
    ensures Decide(db, userId, videoId, t, regenerate).NoCredits? ==>
      VerdictReply(Decide(db, userId, videoId, t, regenerate), t, production).Status() == 402
  {
  }

  /** A row still processing, or one that failed, never stops a new job: only a completed row is served. */
  lemma UnfinishedRowRequeues(db: Database, userId: string, videoId: string, t: ContentType, regenerate: bool)
    requires Owns(db, userId, videoId) && TranscriptReady(db.videos[videoId])
    requires (videoId, t) in db.content && db.content[(videoId, t)].status != Completed
    requires db.CheckUserCredits(userId).Ok? && db.CheckUserCredits(userId).value >= 1
    ensures Decide(db, userId, videoId, t, regenerate).Enqueue?
  {
  }

  /** With `regenerate` a completed row is not served, whatever it holds. */
  lemma RegenerateBypassesCache(db: Database, userId: string, videoId: string, t: ContentType)
    ensures !Decide(db, userId, videoId, t, true).ReturnCached?
  {
  }

  /**
   * The GET route: ownership first, then the row for (video, type); an
   * unknown type name matches no row. Every failure goes to the error handler.
   */
  function GetContentRoute(db: Database, userId: string, videoId: string, contentType: string, production: bool):
    (r: Reply)
    reads db`videos, db`content
    ensures !Owns(db, userId, videoId) ==> r == Errored(ErrorReply(404, ErrorBody(false, "Video not found")))
    ensures Owns(db, userId, videoId) && (TypeNamed(contentType).None? || (videoId, TypeNamed(contentType).value) !in db.content) ==>
      r == Errored(ErrorReply(404, ErrorBody(false, "Content not found")))
    ensures Owns(db, userId, videoId) && TypeNamed(contentType).Some? && (videoId, TypeNamed(contentType).value) in db.content ==>
      r == Sent(200, ContentBody(db.content[(videoId, TypeNamed(contentType).value)]))
  {
    var found := db.GetVideoById(videoId, userId);
    if found.Err? then Errored(HandleError(found.error, production))
    else
      match TypeNamed(contentType)
      case None => Errored(HandleError(NotFoundError(Some("Content not found")), production))
      case Some(t) =>
        // The video read succeeded, so the database is reachable and this read cannot fail.
        var row := db.GetContent(videoId, t).value;
        if row.None? then Errored(HandleError(NotFoundError(Some("Content not found")), production))
        else Sent(200, ContentBody(row.value))
  }
}
