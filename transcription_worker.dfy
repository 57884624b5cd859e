/**
 * backend/src/workers/transcription.worker.ts: one transcription job marks
 * the video processing, downloads its audio into the temporary directory,
 * transcribes it and stores the transcript; any failure is written to the
 * video row and rethrown, and the audio file is removed in every case once
 * it was downloaded. The job runs with concurrency 2; Bull's retries and the
 * logger are not modelled.
 */
module TranscriptionWorker {
  import opened Wrappers
  import opened AppErrors
  import opened Store
  import opened Queues
  import opened YouTube
  import opened Transcription

  /** The number of transcription jobs one worker runs at a time. */
  const Concurrency: nat := 2

  /** The pattern that names the audio file: `(?:v=|youtu\.be\/)([^&\n?#]+)`. */
  const FileIdPrefixes: seq<string> := ["v=", "youtu.be/"]

  /** The id that names the audio file: the pattern's capture, else the video row's id. */
  function FileId(youtubeUrl: string, videoId: string): (r: string)
    ensures FirstCapture(FileIdPrefixes, youtubeUrl).Some? ==>
      r == FirstCapture(FileIdPrefixes, youtubeUrl).value && r != [] && NoStopChar(r)
    ensures FirstCapture(FileIdPrefixes, youtubeUrl).None? ==> r == videoId
  {
    assert NonEmptyAlternatives(FileIdPrefixes);
    match FirstCapture(FileIdPrefixes, youtubeUrl)
    case Some(id) => id
    case None => videoId
  }

  /**
   * The outcome of the steps after the status update: the download into
   * `AudioPath(fileId)`, then the transcription of the downloaded file; the
   * transcript, or the first error thrown.
   */
  function Attempt(download: DownloadCommand, whisper: Whisper, files: map<string, nat>,
                   youtubeUrl: string, fileId: string): Result<string, Error>
  {
    var path := AudioPath(fileId);
    var (created, thrown) := download(youtubeUrl, path);
    if thrown.Some? || created.None? then
      Err(YouTubeError(DownloadFailure(if thrown.Some? then thrown.value else "Audio file was not created")))
    else TranscribeAudio(files[path := created.value], whisper, path)
  }

  /**
   * A failed attempt is a YouTubeError (400) when the download failed, else a
   * TranscriptionError (500); a successful one is the speech-to-text reply
   * for the downloaded file, which the size check let through.
   */
  lemma AttemptErrors(download: DownloadCommand, whisper: Whisper, files: map<string, nat>,
                      youtubeUrl: string, fileId: string)
    ensures var a := Attempt(download, whisper, files, youtubeUrl, fileId);
      a.Err? ==> a.error.App? && (a.error.app.kind == YouTube || a.error.app.kind == Transcription)
    ensures var a := Attempt(download, whisper, files, youtubeUrl, fileId);
      var (created, thrown) := download(youtubeUrl, AudioPath(fileId));
      a.Err? && a.error.app.kind == YouTube <==> thrown.Some? || created.None?
    ensures var a := Attempt(download, whisper, files, youtubeUrl, fileId);
      var created := download(youtubeUrl, AudioPath(fileId)).0;
      a.Ok? ==>
        created.Some? && created.value <= MaxFileSize && whisper(AudioPath(fileId)) == Ok(a.value)
  {
    var path := AudioPath(fileId);
    var (created, thrown) := download(youtubeUrl, path);
    if !(thrown.Some? || created.None?) {
      FailuresAreTranscriptionErrors(files[path := created.value], whisper, path);
    }
  }

  /** The video row at the end of the job, given the row before it and the attempt's outcome. */
  function Transcribed(v: Video, a: Result<string, Error>): (r: Video)
    ensures r.status == (if a.Ok? then Completed else Failed)
    ensures r.transcript == Some(if a.Ok? then a.value else "")
    ensures a.Err? ==> r.errorMessage == Some(a.error.Message())
    ensures r.id == v.id && r.userId == v.userId && r.youtubeUrl == v.youtubeUrl && r.videoId == v.videoId
    ensures r.title == v.title && r.duration == v.duration && r.createdAt == v.createdAt
  {
    var started := WithStatus(v, Processing, None);
    match a
    case Ok(text) => WithTranscript(started, text, Completed, None)
    case Err(e) => WithTranscript(started, "", Failed, Some(e.Message()))
  }

  /** A job never leaves its video processing: it ends completed exactly when the attempt succeeded. */
  lemma NeverLeftProcessing(v: Video, a: Result<string, Error>)
    ensures Transcribed(v, a).status != Processing && Transcribed(v, a).status != Pending
    ensures Transcribed(v, a).status == Completed <==> a.Ok?
  {
  }

  /**
   * A successful retry does not clear the message of an earlier failure: no
   * error message is sent with the completed status, so the stored one stays.
   */
  lemma SuccessKeepsEarlierError(v: Video, text: string)
    ensures Transcribed(v, Ok(text)).status == Completed
    ensures Transcribed(v, Ok(text)).errorMessage == v.errorMessage
  {
  }

  /** The catch block: store the failure on the video row, then rethrow it; a failed write throws its own error. */
  method RecordFailure(db: Database, videoId: string, failure: Error) returns (r: Result<JobReturn, Error>)
    requires db.Valid()
    modifies db
    ensures db.Valid()
    ensures !db.online ==> r == Err(Unreachable) && db.videos == old(db.videos)
    ensures db.online ==> r == Err(failure)
    ensures db.online && videoId in old(db.videos) ==>
      db.videos == old(db.videos)[videoId := WithTranscript(old(db.videos)[videoId], "", Failed, Some(failure.Message()))]
    ensures db.online && videoId !in old(db.videos) ==> db.videos == old(db.videos)
    ensures db.content == old(db.content) && db.profiles == old(db.profiles) && db.contentLog == old(db.contentLog)
  {
    var written := db.UpdateVideoTranscript(videoId, "", Failed, Some(failure.Message()));
    if written.Err? {
      return Err(written.error);
    }
    return Err(failure);
  }

  /**
   * The steps after the status update, on a reachable database: download,
   * transcribe, store, and remove the audio file once it was downloaded.
   */
  method TranscribeAndStore(db: Database, disk: Disk, download: DownloadCommand, whisper: Whisper,
                            job: TranscriptionJob, ghost before: Video)
    returns (r: Result<JobReturn, Error>)
    requires db.Valid() && db.online
    requires job.videoId in db.videos ==> db.videos[job.videoId] == WithStatus(before, Processing, None)
    modifies db, disk
    ensures db.Valid()
    ensures var a := Attempt(download, whisper, old(disk.files), job.youtubeUrl, FileId(job.youtubeUrl, job.videoId));
      (r.Ok? <==> a.Ok?) && (r.Ok? ==> r.value == JobReturn(true, job.videoId)) && (r.Err? ==> r.error == a.error)
      && (job.videoId in old(db.videos) ==> db.videos == old(db.videos)[job.videoId := Transcribed(before, a)])
    ensures job.videoId !in old(db.videos) ==> db.videos == old(db.videos)
    ensures disk.files == old(disk.files) - {AudioPath(FileId(job.youtubeUrl, job.videoId))}
    ensures db.content == old(db.content) && db.profiles == old(db.profiles) && db.contentLog == old(db.contentLog)
  {
    var fileId := FileId(job.youtubeUrl, job.videoId);
    ghost var a := Attempt(download, whisper, disk.files, job.youtubeUrl, fileId);
    var downloaded := disk.DownloadAudio(download, job.youtubeUrl, fileId);
    if downloaded.Err? {
      assert a == Err(downloaded.error);
      r := RecordFailure(db, job.videoId, downloaded.error);
      return;
    }
    var transcript := TranscribeAudio(disk.files, whisper, downloaded.value);
    assert a == transcript;
    if transcript.Err? {
      r := RecordFailure(db, job.videoId, transcript.error);
    } else {
      // A reachable database accepts the write, so it cannot throw here.
      var _ := db.UpdateVideoTranscript(job.videoId, transcript.value, Completed, None);
      r := Ok(JobReturn(true, job.videoId));
    }
    disk.CleanupFile(downloaded.value);
  }

  /**
   * The job body. On an unreachable database the status update throws, the
   * catch block's write throws too, and nothing changes. Otherwise the audio
   * file is gone at the end, the video row holds the transcript or the
   * failure, and the return value or error is the attempt's.
   */
  method RunTranscriptionJob(db: Database, disk: Disk, download: DownloadCommand, whisper: Whisper,
                             job: TranscriptionJob)
    returns (r: Result<JobReturn, Error>)
    requires db.Valid()
    modifies db, disk
    ensures db.Valid()
    ensures !db.online ==> r == Err(Unreachable) && db.videos == old(db.videos) && disk.files == old(disk.files)
    ensures db.online ==>
      var a := Attempt(download, whisper, old(disk.files), job.youtubeUrl, FileId(job.youtubeUrl, job.videoId));
      (r.Ok? <==> a.Ok?) && (r.Ok? ==> r.value == JobReturn(true, job.videoId)) && (r.Err? ==> r.error == a.error)
      && disk.files == old(disk.files) - {AudioPath(FileId(job.youtubeUrl, job.videoId))}
    ensures db.online && job.videoId in old(db.videos) ==>
      var a := Attempt(download, whisper, old(disk.files), job.youtubeUrl, FileId(job.youtubeUrl, job.videoId));
      db.videos == old(db.videos)[job.videoId := Transcribed(old(db.videos)[job.videoId], a)]
    ensures job.videoId !in old(db.videos) ==> db.videos == old(db.videos)
    ensures db.content == old(db.content) && db.profiles == old(db.profiles) && db.contentLog == old(db.contentLog)
  {
    ghost var before := if job.videoId in db.videos then db.videos[job.videoId]
                        else Video(job.videoId, job.userId, job.youtubeUrl, "", "", 0, None, Pending, None, 0);
    var started := db.UpdateVideoStatus(job.videoId, Processing, None);
    if started.Err? {
      r := RecordFailure(db, job.videoId, started.error);
      return;
    }
    r := TranscribeAndStore(db, disk, download, whisper, job, before);
  }
}
