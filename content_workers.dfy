/**
 * The six content workers, backend/src/workers/{shorts,blog,twitter,
 * linkedin,instagram,thumbnail}.worker.ts. Each job body runs the same
 * sequence on the content row of its own type:
 *
 *   upsert (video, type) as processing with {}; generate;
 *   upsert it as completed with the payload; deduct one credit;
 *   on any error: upsert it as failed with {} and the error's message,
 *   then rethrow.
 *
 * `ContentJobOutcome` is that sequence on values, for a reachable database:
 * the rows written in order, the new balance if a credit was taken, and what
 * the job returns. `RunContentJob` performs it on a `Database`. The workers
 * differ only in the content type and the generator; the generator does not
 * touch the database, so its outcome is an argument. Bull's concurrency
 * setting (1 for thumbnails, 2 otherwise) is kept as a constant.
 */
module ContentWorkers {
  import opened Wrappers
  import opened JsonValue
  import opened AppErrors
  import opened Store
  import opened Queues
  import opened ContentGenerator
  import opened ThumbnailGenerator

  datatype ContentJobOutcome = ContentJobOutcome(
    rows: seq<ContentRow>,
    charged: Option<int>,
    result: Result<JobReturn, Error>)

  /** The number of jobs a worker of this type runs at once. */
  function Concurrency(t: ContentType): (n: nat)
    ensures n == if t == Thumbnail then 1 else 2
  {
    if t == Thumbnail then 1 else 2
  }

  /**
   * The job's writes for type `t`, given the row already stored for the pair,
   * the generator's outcome and what `deductCredit` would do.
   */
  function JobOutcome(t: ContentType, job: ContentJob, existing: Option<ContentRow>,
                      generated: Result<Json, Error>, charge: Result<int, Error>): ContentJobOutcome
  {
    var started := MergedRow(existing, job.videoId, t, EmptyObject, Processing, None);
    match generated
    case Err(e) =>
      ContentJobOutcome([started, MergedRow(Some(started), job.videoId, t, EmptyObject, Failed, Some(e.Message()))],
                        None, Err(e))
    case Ok(data) =>
      var done := MergedRow(Some(started), job.videoId, t, data, Completed, None);
      match charge
      case Ok(balance) => ContentJobOutcome([started, done], Some(balance), Ok(JobReturn(true, job.videoId)))
      case Err(e) =>
        ContentJobOutcome([started, done, MergedRow(Some(done), job.videoId, t, EmptyObject, Failed, Some(e.Message()))],
                          None, Err(e))
  }

  /** The first write marks the row processing with an empty object, before the generator's outcome matters. */
  lemma ProcessingFirst(t: ContentType, job: ContentJob, existing: Option<ContentRow>,
                        generated: Result<Json, Error>, charge: Result<int, Error>)
    ensures var out := JobOutcome(t, job, existing, generated, charge);
      |out.rows| >= 2 && out.rows[0].status == Processing && out.rows[0].data == EmptyObject
    ensures forall g: Result<Json, Error>, c: Result<int, Error> ::
      JobOutcome(t, job, existing, g, c).rows[0] == JobOutcome(t, job, existing, generated, charge).rows[0]
  {
  }

  /** Every write is to the job's own (video, type) row. */
  lemma OnlyOwnRow(t: ContentType, job: ContentJob, existing: Option<ContentRow>,
                   generated: Result<Json, Error>, charge: Result<int, Error>)
    ensures var out := JobOutcome(t, job, existing, generated, charge);
      forall k :: 0 <= k < |out.rows| ==> out.rows[k].videoId == job.videoId && out.rows[k].contentType == t
  {
  }

  /**
   * The job ends consistently: it succeeds exactly when a credit was taken and
   * exactly when the row is left completed; otherwise the row is left failed
   * with an empty object and the message of the error the job rethrows.
   */
  lemma OutcomeConsistent(t: ContentType, job: ContentJob, existing: Option<ContentRow>,
                          generated: Result<Json, Error>, charge: Result<int, Error>)
    ensures var out := JobOutcome(t, job, existing, generated, charge);
      var last := out.rows[|out.rows| - 1];
      (out.result.Ok? <==> out.charged.Some?)
      && (out.result.Ok? <==> last.status == Completed)
      && (out.result.Err? ==>
            last.status == Failed && last.data == EmptyObject && last.errorMessage == Some(out.result.error.Message()))
  {
  }

  /** On success the row holds the generator's payload, one charge is made and `{success: true, videoId}` returned. */
  lemma SuccessCharges(t: ContentType, job: ContentJob, existing: Option<ContentRow>,
                       data: Json, charge: Result<int, Error>)
    requires charge.Ok?
    ensures var out := JobOutcome(t, job, existing, Ok(data), charge);
      out.result == Ok(JobReturn(true, job.videoId)) && out.charged == Some(charge.value)
      && |out.rows| == 2 && out.rows[1].status == Completed && out.rows[1].data == data
  {
  }

  /** A generator failure is rethrown unchanged and nothing is charged, whatever the balance. */
  lemma GeneratorFailureFree(t: ContentType, job: ContentJob, existing: Option<ContentRow>,
                             e: Error, charge: Result<int, Error>)
    ensures var out := JobOutcome(t, job, existing, Err(e), charge);
      out.result == Err(e) && out.charged.None? && |out.rows| == 2
      && out.rows[1] == ContentRow(job.videoId, t, EmptyObject, Failed, Some(e.Message()))
  {
  }

  /** A failed charge after a completed row rewrites that row to failed, and the balance is not touched. */
  lemma ChargeFailureRewrites(t: ContentType, job: ContentJob, existing: Option<ContentRow>,
                              data: Json, e: Error)
    ensures var out := JobOutcome(t, job, existing, Ok(data), Err(e));
      |out.rows| == 3 && out.rows[1].status == Completed && out.rows[1].data == data
      && out.rows[2] == ContentRow(job.videoId, t, EmptyObject, Failed, Some(e.Message()))
      && out.charged.None? && out.result == Err(e)
  {
  }

  /** The row stored under (video, type), if any. */
  function StoredRow(db: Database, videoId: string, t: ContentType): Option<ContentRow>
    reads db`content
  {
    if (videoId, t) in db.content then Some(db.content[(videoId, t)]) else None
  }

  /** The catch block: mark the row failed with {} and the message, then rethrow (or throw the upsert's own error). */
  method RecordFailure(db: Database, t: ContentType, videoId: string, failure: Error) returns (r: Result<JobReturn, Error>)
    requires db.Valid()
    modifies db
    ensures db.Valid()
    ensures !db.online ==> r == Err(Unreachable) && db.content == old(db.content) && db.contentLog == old(db.contentLog)
    ensures db.online ==>
      var row := MergedRow(old(StoredRow(db, videoId, t)), videoId, t, EmptyObject, Failed, Some(failure.Message()));
      r == Err(failure) && db.content == old(db.content)[(videoId, t) := row] && db.contentLog == old(db.contentLog) + [row]
    ensures db.videos == old(db.videos) && db.profiles == old(db.profiles)
  {
    var failed := db.UpsertContent(videoId, t, EmptyObject, Failed, Some(failure.Message()));
    if failed.Err? {
      return Err(failed.error);
    }
    return Err(failure);
  }

  /**
   * What one job of type `t` did to the tables, given its generator's
   * outcome. With the database reachable: it returned `JobOutcome`'s result,
   * the content log gained `JobOutcome`'s writes, the row holds the last of
   * them and the profile holds the charged balance, if any. When it is not
   * reachable, the first upsert fails, the catch's upsert fails too, its
   * error is what the job throws and nothing changes. Videos are never
   * touched.
   */
  twostate predicate JobDone(db: Database, t: ContentType, job: ContentJob, generated: Result<Json, Error>,
                             new r: Result<JobReturn, Error>)
    reads db
  {
    && db.videos == old(db.videos)
    && (!db.online ==>
          r == Err(Unreachable) && db.content == old(db.content) && db.profiles == old(db.profiles)
          && db.contentLog == old(db.contentLog))
    && (db.online ==>
          var out := JobOutcome(t, job, old(StoredRow(db, job.videoId, t)), generated, old(db.ChargeResult(job.userId)));
          r == out.result
          && db.contentLog == old(db.contentLog) + out.rows
          && db.content == old(db.content)[(job.videoId, t) := out.rows[|out.rows| - 1]]
          && db.profiles == (if out.charged.Some? then old(db.profiles)[job.userId := Profile(out.charged)]
                             else old(db.profiles)))
  }

  /** One job of type `t`: the upserts, the generator's outcome and the charge, as `JobDone` states. */
  method RunContentJob(db: Database, t: ContentType, job: ContentJob, generated: Result<Json, Error>)
    returns (r: Result<JobReturn, Error>)
    requires db.Valid()
    modifies db
    ensures db.Valid()
    ensures JobDone(db, t, job, generated, r)
  {
    ghost var log0 := db.contentLog;
    ghost var c0 := db.content;
    ghost var k := (job.videoId, t);
    ghost var out := JobOutcome(t, job, StoredRow(db, job.videoId, t), generated, db.ChargeResult(job.userId));
    var started := db.UpsertContent(job.videoId, t, EmptyObject, Processing, None);
    if started.Err? {
      r := RecordFailure(db, t, job.videoId, started.error);
      return;
    }
    assert started.value == out.rows[0];
    assert StoredRow(db, job.videoId, t) == Some(out.rows[0]);
    if generated.Err? {
      r := RecordFailure(db, t, job.videoId, generated.error);
      assert db.contentLog == log0 + out.rows;
      Overwrite(c0, k, out.rows[0], out.rows[1]);
      return;
    }
    assert db.ChargeResult(job.userId) == old(db.ChargeResult(job.userId));
    r := CompleteAndCharge(db, t, job, generated.value);
    Overwrite(c0, k, out.rows[0], out.rows[|out.rows| - 1]);
  }

  /** The rest of the try block after a successful generator: store the payload, then charge. */
  method CompleteAndCharge(db: Database, t: ContentType, job: ContentJob, data: Json) returns (r: Result<JobReturn, Error>)
    requires db.Valid() && db.online
    modifies db
    ensures db.Valid()
    ensures var done := MergedRow(old(StoredRow(db, job.videoId, t)), job.videoId, t, data, Completed, None);
      var charge := old(db.ChargeResult(job.userId));
      (charge.Ok? ==>
         r == Ok(JobReturn(true, job.videoId))
         && db.contentLog == old(db.contentLog) + [done]
         && db.content == old(db.content)[(job.videoId, t) := done]
         && db.profiles == old(db.profiles)[job.userId := Profile(Some(charge.value))])
      && (charge.Err? ==>
         var failed := MergedRow(Some(done), job.videoId, t, EmptyObject, Failed, Some(charge.error.Message()));
         r == Err(charge.error)
         && db.contentLog == old(db.contentLog) + [done, failed]
         && db.content == old(db.content)[(job.videoId, t) := failed]
         && db.profiles == old(db.profiles))
    ensures db.videos == old(db.videos)
  {
    ghost var charge := db.ChargeResult(job.userId);
    ghost var c0 := db.content;
    var done := db.UpsertContent(job.videoId, t, data, Completed, None);
    assert db.ChargeResult(job.userId) == charge;
    var charged := db.DeductCredit(job.userId);
    if charged.Ok? {
      return Ok(JobReturn(true, job.videoId));
    }
    assert StoredRow(db, job.videoId, t) == Some(done.value);
    r := RecordFailure(db, t, job.videoId, charged.error);
    Overwrite(c0, (job.videoId, t), done.value, db.content[(job.videoId, t)]);
  }

  /** shorts.worker.ts */
  method ShortsJob(db: Database, chat: Chat, parse: Parser, job: ContentJob) returns (r: Result<JobReturn, Error>)
    requires db.Valid()
    modifies db
    ensures db.Valid()
    ensures JobDone(db, Shorts, job, GenerateShorts(chat, parse, job.transcript, job.videoTitle), r)
  {
    r := RunContentJob(db, Shorts, job, GenerateShorts(chat, parse, job.transcript, job.videoTitle));
  }

  /** blog.worker.ts */
  method BlogJob(db: Database, chat: Chat, parse: Parser, job: ContentJob) returns (r: Result<JobReturn, Error>)
    requires db.Valid()
    modifies db
    ensures db.Valid()
    ensures JobDone(db, Blog, job, GenerateBlogPost(chat, parse, job.transcript, job.videoTitle), r)
  {
    r := RunContentJob(db, Blog, job, GenerateBlogPost(chat, parse, job.transcript, job.videoTitle));
  }

  /** twitter.worker.ts */
  method TwitterJob(db: Database, chat: Chat, parse: Parser, job: ContentJob) returns (r: Result<JobReturn, Error>)
    requires db.Valid()
    modifies db
    ensures db.Valid()
    ensures JobDone(db, Twitter, job, GenerateTwitterThread(chat, parse, job.transcript, job.videoTitle), r)
  {
    r := RunContentJob(db, Twitter, job, GenerateTwitterThread(chat, parse, job.transcript, job.videoTitle));
  }

  /** linkedin.worker.ts */
  method LinkedInJob(db: Database, chat: Chat, parse: Parser, job: ContentJob) returns (r: Result<JobReturn, Error>)
    requires db.Valid()
    modifies db
    ensures db.Valid()
    ensures JobDone(db, LinkedIn, job, GenerateLinkedInCarousel(chat, parse, job.transcript, job.videoTitle), r)
  {
    r := RunContentJob(db, LinkedIn, job, GenerateLinkedInCarousel(chat, parse, job.transcript, job.videoTitle));
  }

  /** instagram.worker.ts */
  method InstagramJob(db: Database, chat: Chat, parse: Parser, job: ContentJob) returns (r: Result<JobReturn, Error>)
    requires db.Valid()
    modifies db
    ensures db.Valid()
    ensures JobDone(db, Instagram, job, GenerateInstagramCaptions(chat, parse, job.transcript, job.videoTitle), r)
  {
    r := RunContentJob(db, Instagram, job, GenerateInstagramCaptions(chat, parse, job.transcript, job.videoTitle));
  }

  /** The payload a thumbnail run stores, or the error it failed with. */
  function ThumbnailPayload(generated: Result<seq<ThumbnailEntry>, Error>): (r: Result<Json, Error>)
    ensures r.Err? <==> generated.Err?
    ensures r.Err? ==> r.error == generated.error
    ensures r.Ok? ==> r.value == ThumbnailsJson(generated.value)
  {
    match generated
    case Ok(ts) => Ok(ThumbnailsJson(ts))
    case Err(e) => Err(e)
  }

  /**
   * thumbnail.worker.ts: the generator receives the video id. A completed
   * row always holds between one and three thumbnails.
   */
  method ThumbnailJob(db: Database, chat: Chat, image: ImageGen, storage: Storage, clock: nat -> nat, job: ContentJob)
    returns (r: Result<JobReturn, Error>)
    requires db.Valid()
    modifies db
    ensures db.Valid()
    ensures JobDone(db, Thumbnail, job,
                    ThumbnailPayload(ThumbnailsOf(chat, image, storage, clock, job.transcript, job.videoTitle, job.videoId)), r)
    ensures db.online && r.Ok? ==> (job.videoId, Thumbnail) in db.content
    ensures db.online && r.Ok? && (job.videoId, Thumbnail) in db.content ==>
      var stored := db.content[(job.videoId, Thumbnail)];
      stored.status == Completed
      && Field(stored.data, "thumbnails").Some? && Field(stored.data, "thumbnails").value.JArr?
      && 1 <= |Field(stored.data, "thumbnails").value.items| <= 3
  {
    var generated := GenerateThumbnails(chat, image, storage, clock, job.transcript, job.videoTitle, job.videoId);
    ghost var count := if generated.Ok? then |generated.value| else 0;
    if generated.Ok? {
      ghost var reply := chat(TopicRequest(job.transcript, job.videoTitle));
      ghost var topic := MainTopic(reply.value, job.videoTitle);
      CollectedInStyleOrder(image, storage, clock, topic, job.videoId, |Styles|);
      assert 1 <= count <= 3;
    }
    r := RunContentJob(db, Thumbnail, job, ThumbnailPayload(generated));
    if db.online && r.Ok? {
      OutcomeConsistent(Thumbnail, job, old(StoredRow(db, job.videoId, Thumbnail)), ThumbnailPayload(generated),
                        old(db.ChargeResult(job.userId)));
    }
  }
}
