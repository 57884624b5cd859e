# recontent, modelled in Dafny

recontent turns a YouTube video into social-media content.

**Backend (Express).** The backend processes the video in stages.
- A user submits a video URL.
- The backend extracts and checks the video id.
- It stores a `videos` row and queues a transcription job.
- The transcription worker downloads the audio with yt-dlp and transcribes it with Whisper.
- On request, the content routes check ownership, the transcript and the user's credits.
- They then queue one of six content jobs: shorts, blog, Twitter thread, LinkedIn carousel, Instagram captions or thumbnails.
- Each content worker calls the OpenAI chat or image API.
- It parses the reply, upserts the `content` row and charges one credit.

**Supabase edge function.** `process-video` does the same generation in one request, against the tables the browser uses.

**React front end.** Video cards, the submit form, the polling hook, the four content tabs and a small UI store.

The model keeps every decision the code makes and replaces each external service by a parameter:
- the chat model, the image model, Whisper, yt-dlp, storage, Supabase auth and `JSON.parse` become function-typed parameters, or values the caller passes in;
- the Supabase tables are a class over maps;
- the disk is a class over a set of paths;
- the Bull queues are a class over sequences of jobs.

Each module models one source file; the exceptions are:
- `Wrappers`, `Text` and `JsonValue`, which are shared helpers (Option and Result, JavaScript string operations, JSON values);
- `NodePath`, which models Node's POSIX `path.join` for the audio file's path;
- `ContentWorkers`, which holds the six content workers, as their bodies differ only in the generator they call;
- `ContentTabs`, which holds the rules the four tabs share.

Operations that change state are methods, and their `ensures` give the whole new state. Pure code is functions with lemmas about them.

Every `.dfy` file is part of one program; verify them together:

    dafny verify *.dfy


## Model

| member | source | states |
|---|---|---|
| AppErrors.NewAppError | backend/src/utils/errors.ts:1-11 | an AppError keeps its message, is operational, and has status 500 unless a status is given |
| AppErrors.ValidationError | backend/src/utils/errors.ts:13-17 | a validation error has status 400 and the given message |
| AppErrors.UnauthorizedError | backend/src/utils/errors.ts:19-23 | status 401; the message defaults to 'Unauthorized' |
| AppErrors.ForbiddenError | backend/src/utils/errors.ts:25-29 | status 403; the message defaults to 'Forbidden' |
| AppErrors.NotFoundError | backend/src/utils/errors.ts:31-35 | status 404; the message defaults to 'Resource not found' |
| AppErrors.InsufficientCreditsError | backend/src/utils/errors.ts:37-41 | status 402, with the fixed upgrade message |
| AppErrors.YouTubeError | backend/src/utils/errors.ts:43-47 | status 400; the message is prefixed 'YouTube Error: ' |
| AppErrors.TranscriptionError | backend/src/utils/errors.ts:49-53 | status 500; the message is prefixed 'Transcription Error: ' |
| AppErrors.ContentGenerationError | backend/src/utils/errors.ts:55-59 | status 500; the message is prefixed 'Content Generation Error: ' |
| AppErrors.SubclassStatuses | backend/src/utils/errors.ts:13-59 | the status code of every subclass: 400, 400, 401, 402, 403, 404, 500, 500 |
| ErrorMiddleware.HandleError | backend/src/middleware/error.middleware.ts:19-43 | the body always says failure. An AppError sends its own status and message. A non-AppError named 'ValidationError' sends 400 and its message. Anything else sends 500, with the message outside production and 'Internal server error' in production |
| ErrorMiddleware.DevelopmentShowsMessage | backend/src/middleware/error.middleware.ts:38-43 | outside production every reply carries the error's own message |
| ErrorMiddleware.ProductionHidesUnknownErrors | backend/src/middleware/error.middleware.ts:37-43 | in production an unknown error's reply is exactly 500 with 'Internal server error' |
| ErrorMiddleware.SubclassReplies | backend/src/middleware/error.middleware.ts:20-26 | the status a client sees is each subclass's own code, whichever the mode is |
| Store.TypeNamed | backend/src/types/content.types.ts:1-7 | the content type named by a string is the type whose column value is that string; no type is named by any other string |
| Store.TypeNamesDistinct | backend/src/types/content.types.ts:1-7 | the six column values are pairwise different, and reading one back gives its type |
| Store.InsertNewestFirst | backend/src/services/supabase.service.ts:55 | inserting a row into a list ordered newest `created_at` first keeps it ordered, and adds exactly that row |
| Store.WithTranscript | backend/src/services/supabase.service.ts:73-79 | the transcript and status are set. The error message is replaced only when one is given, since an undefined field is left out of the update. Every other column is kept |
| Store.WithStatus | backend/src/services/supabase.service.ts:94-99 | the status is set and the transcript is kept. The error message is replaced only when one is given. Every other column is kept |
| Store.MergedRow | backend/src/services/supabase.service.ts:151-163 | after an upsert on (video_id, content_type), the pair's row holds the new data and status. It holds the new error message when one is given, else the old row's message, or none for a new row |
| Store.MergedRowIdempotent | backend/src/services/supabase.service.ts:151-163 | repeating an upsert leaves the row the first one left |
| Store.WithoutVideo | backend/src/services/supabase.service.ts:109 | deleting by `video_id` removes every content row of that video and keeps every other row unchanged |
| Store.Database.constructor | backend/src/services/supabase.service.ts:1 | empty video and content tables, the given profiles, and a flag for whether the database can be reached |
| Store.Database.CreateVideo | backend/src/services/supabase.service.ts:7-33 | an unreachable database or a taken id returns the client's error and leaves the table unchanged. Otherwise the new row has status pending, no transcript and no error, and is inserted under its id. Nothing else changes |
| Store.Database.GetVideoById | backend/src/services/supabase.service.ts:35-48 | the row is returned exactly when it exists with both this id and this owner. Every other outcome, including an unreachable database, is NotFoundError('Video not found') |
| Store.Database.GetUserVideos | backend/src/services/supabase.service.ts:50-63 | returns each of the caller's rows exactly once and no other row, newest first. An unreachable database returns the error |
| Store.Database.UpdateVideoTranscript | backend/src/services/supabase.service.ts:65-85 | the row becomes WithTranscript of itself. An update matching no row is not an error and changes nothing. No other table changes |
| Store.Database.UpdateVideoStatus | backend/src/services/supabase.service.ts:87-105 | the row becomes WithStatus of itself; the transcript is never touched. An update matching no row is not an error |
| Store.Database.DeleteVideo | backend/src/services/supabase.service.ts:107-122 | the video's content rows are removed with no owner check. The video row is removed only when it is the caller's. A wrong owner is not an error |
| Store.Database.GetContent | backend/src/services/supabase.service.ts:125-142 | returns the pair's row, or None when it is absent; absence is not an error |
| Store.Database.UpsertContent | backend/src/services/supabase.service.ts:144-173 | the pair holds exactly one row, MergedRow of the old one, and it is returned. Videos and profiles are unchanged |
| Store.Database.DeleteContent | backend/src/services/supabase.service.ts:175-189 | the pair's row, if any, is removed and nothing else |
| Store.Database.CheckUserCredits | backend/src/services/supabase.service.ts:192-205 | the stored balance, with null read as 0. A missing profile (`.single()` finding no row) and an unreachable database are errors |
| Store.Database.ChargeResult | backend/src/services/supabase.service.ts:207-212 | the balance a charge will store: the read's error passes through, a balance below 1 gives InsufficientCreditsError, and otherwise it is the balance minus one |
| Store.Database.DeductCredit | backend/src/services/supabase.service.ts:207-228 | succeeds exactly when ChargeResult does, and then stores that balance. On failure the profiles are unchanged and the error is ChargeResult's. Videos and content are never touched |
| Store.Database.ChargeTakesOne | backend/src/services/supabase.service.ts:208-217 | a successful charge stores exactly old minus one, which is never negative. A balance below 1 is never charged |
| Queues.OptionsValues | backend/src/services/queue.service.ts:12-21 | the default options: 2 attempts, exponential backoff from 5000 ms, 100 completed and 50 failed jobs kept, and a 5-minute timeout. The thumbnail queue's options are the same with a 10-minute timeout (also lines 54-60) |
| Queues.JobQueue.constructor | backend/src/services/queue.service.ts:24-27 | a new queue has its name and options, no jobs, and is open |
| Queues.JobQueue.Add | backend/src/services/queue.service.ts:24-60 | adding a job appends exactly that job |
| Queues.JobQueue.Close | backend/src/services/queue.service.ts:88 | closing keeps the jobs and marks the queue closed |
| Queues.QueueNamesDistinct | backend/src/services/queue.service.ts:63-71 | the list has seven pairwise different names, and every content type names one of the six content queues |
| Queues.Queues.constructor | backend/src/services/queue.service.ts:23-60 | the seven queues are fresh and empty. Each content queue is named after its content type. Only the thumbnail queue has the longer timeout |
| Queues.Queues.ContentQueue | backend/src/services/queue.service.ts:29-60 | the queue of a content type is one of the seven |
| Queues.Queues.ContentQueuesDistinct | backend/src/services/queue.service.ts:29-60 | different content types post to different queues |
| Queues.Queues.CloseAll | backend/src/services/queue.service.ts:87-90 | every queue of the list is closed and keeps its jobs |
| Auth.BearerToken | backend/src/middleware/auth.middleware.ts:21-27 | there is a token exactly when the header is present and starts with 'Bearer '; the token is the header with its first 'Bearer ' removed |
| Auth.TokenFollowsScheme | backend/src/middleware/auth.middleware.ts:23-27 | the header is 'Bearer ' followed by the token (section 2.1 of RFC 6750) |
| Auth.TokenRoundTrip | backend/src/middleware/auth.middleware.ts:27 | the token read from 'Bearer ' + t is t, for every t, including one that itself contains 'Bearer ' |
| Auth.Request.constructor | backend/src/middleware/auth.middleware.ts:15-21 | a request carries its Authorization header and has no user or token attached yet |
| Auth.Request.Authenticate | backend/src/middleware/auth.middleware.ts:15-56 | with no Bearer header, next gets UnauthorizedError('No token provided'). If verification errors or finds no user, next gets 'Invalid token'. Otherwise the user (id, and email or '') and the token are attached, and next gets no error. A failure attaches nothing |
| ContentGenerator.GenerateWithGpt | backend/src/services/contentGenerator.service.ts:12-33 | a failed call becomes ContentGenerationError with the call's message. A reply with no content is ''. Otherwise it is the reply text |
| ContentGenerator.FenceCloseFrom | backend/src/services/contentGenerator.service.ts:38 | the lazy `[\s\S]*?` stops at the first position where an optional newline and "```" follow. It is None when the fence never closes |
| ContentGenerator.FenceBodyStart | backend/src/services/contentGenerator.service.ts:38 | the fence body starts after the "```json" marker and its optional newline |
| ContentGenerator.FenceBodyHasNoFence | backend/src/services/contentGenerator.service.ts:38 | the lazy capture never contains "```" |
| ContentGenerator.Span | backend/src/services/contentGenerator.service.ts:39-40 | the greedy bracket capture runs from the first opening bracket of the reply to its last closing bracket: it occurs in the reply, no opening bracket comes before it and no closing bracket after it. There is none exactly when no closing bracket follows an opening one |
| ContentGenerator.ParseInput | backend/src/services/contentGenerator.service.ts:38-45 | the text parsed is the first candidate that matches: the fence body, else the object span, else the array span, else the whole reply |
| ContentGenerator.ParseJson | backend/src/services/contentGenerator.service.ts:35-50 | never fails: the parsed candidate, or else the fallback |
| ContentGenerator.NoFallThrough | backend/src/services/contentGenerator.service.ts:42-49 | when the fence body does not parse, the result is the fallback even if a later pattern would parse |
| ContentGenerator.ArrayOfObjectPicksObject | backend/src/services/contentGenerator.service.ts:39-40 | `[{"a":1}]` hands the inner object `{"a":1}` to the parser |
| ContentGenerator.EmptyReplyGivesFallback | backend/src/services/contentGenerator.service.ts:28-49 | an empty reply gives the fallback |
| ContentGenerator.GenerateParsed | backend/src/services/contentGenerator.service.ts:84-85 | a generator fails exactly when the chat call fails, with a ContentGenerationError; otherwise it is the parse of the reply, with the fallback (the same step is at lines 118-119, 154-155, 196-197 and 232-233) |
| ContentGenerator.Excerpt | backend/src/services/contentGenerator.service.ts:62 | `substring(0, limit)` is a prefix of the transcript, of length min(length, limit) |
| ContentGenerator.ShortsRequest | backend/src/services/contentGenerator.service.ts:52-84 | the shorts prompt quotes the title and at most 8000 transcript characters, and asks for 2500 tokens. A shorter transcript is quoted whole |
| ContentGenerator.BlogRequest | backend/src/services/contentGenerator.service.ts:88-118 | the blog prompt quotes the title and at most 10000 characters, with 4000 tokens |
| ContentGenerator.TwitterRequest | backend/src/services/contentGenerator.service.ts:128-154 | the thread prompt quotes no title and at most 6000 characters, with 1500 tokens |
| ContentGenerator.LinkedInRequest | backend/src/services/contentGenerator.service.ts:162-196 | the carousel prompt quotes the title and at most 8000 characters, with 2500 tokens |
| ContentGenerator.InstagramRequest | backend/src/services/contentGenerator.service.ts:203-232 | the captions prompt quotes no title and at most 4000 characters, with 1500 tokens |
| ContentGenerator.BlogFallbackFields | backend/src/services/contentGenerator.service.ts:119-125 | the blog fallback keeps the title and has empty content, no keywords and a read time of 5 |
| ContentGenerator.RequestFor | backend/src/services/contentGenerator.service.ts:52-233 | each text type sends a request for its own task, quoting a prefix of the transcript |
| ContentGenerator.GeneratorOutcomes | backend/src/services/contentGenerator.service.ts:52-237 | for every text type, the generator errs exactly when the call does, with status 500. A reply that does not parse gives the type's fallback (empty lists and zero counts, or the blog fallback). Otherwise it gives the parsed value |
| ThumbnailGenerator.StylesRanked | backend/src/services/thumbnailGenerator.service.ts:35-45 | the styles are tried in the order professional, bold, minimal; each sits at its own rank |
| ThumbnailGenerator.TopicRequest | backend/src/services/thumbnailGenerator.service.ts:15-31 | the topic prompt quotes the title and at most the first 2000 transcript characters, with 50 tokens |
| ThumbnailGenerator.MainTopic | backend/src/services/thumbnailGenerator.service.ts:33 | the topic is the reply when it is non-empty, else the video title |
| ThumbnailGenerator.UploadThumbnail | backend/src/services/thumbnailGenerator.service.ts:92-128 | never fails. It gives the public URL exactly when the fetch and the upload under `${videoId}/${style}-${now}.png` succeed, else None |
| ThumbnailGenerator.StyleAttempt | backend/src/services/thumbnailGenerator.service.ts:49-82 | a style adds an entry exactly when its image call returned a URL. The entry's url is the stored URL when there is one, else the image URL. A thrown error adds nothing |
| ThumbnailGenerator.Pushed | backend/src/services/thumbnailGenerator.service.ts:73-77 | pushing an optional entry adds it or nothing |
| ThumbnailGenerator.CollectedInStyleOrder | backend/src/services/thumbnailGenerator.service.ts:47-83 | there are at most as many entries as styles tried, in strictly increasing style order |
| ThumbnailGenerator.CollectedRanksBelow | backend/src/services/thumbnailGenerator.service.ts:47-83 | the first n iterations push only entries whose style comes among the first n styles |
| ThumbnailGenerator.StyleKeptIff | backend/src/services/thumbnailGenerator.service.ts:49-82 | a style's entry is in the result exactly when its image call returned a URL; a failed style does not stop the loop |
| ThumbnailGenerator.GenerateThumbnails | backend/src/services/thumbnailGenerator.service.ts:7-90 | the loop returns `ThumbnailsOf`: a failed topic call propagates its error, because it sits outside the per-style try. Otherwise the result is the entries collected over the three styles, and ContentGenerationError('Failed to generate any thumbnails') exactly when there are none |
| ThumbnailGenerator.ThumbnailItem | backend/src/services/thumbnailGenerator.service.ts:73-77 | a stored entry's `url` is the entry's URL, its `prompt` the full prompt text and its `style` the style's name |
| ThumbnailGenerator.ThumbnailsJson | backend/src/services/thumbnailGenerator.service.ts:89 | the returned payload's `thumbnails` array has one item per entry, in order, and item k holds entry k's url, prompt text and style name |
| YouTube.IdRun | backend/src/services/youtube.service.ts:15 | the greedy `[^&\n?#]+` run is a prefix without stop characters, and it ends only at a stop character or at the end of the text |
| YouTube.CaptureAfter | backend/src/services/youtube.service.ts:15 | an alternative matches at a position exactly when its prefix occurs there and is followed by a non-empty run; the capture is that run |
| YouTube.FirstMatchFrom | backend/src/services/youtube.service.ts:15-20 | `match` finds the leftmost position where the pattern matches; it is None only when no position matches |
| YouTube.MatchNeedsRoom | backend/src/services/youtube.service.ts:15 | no alternative matches at or past the end of the text |
| YouTube.FirstCapture | backend/src/services/youtube.service.ts:15-21 | the first pattern's capture is the one at the leftmost match: a non-empty run without stop characters that occurs in the URL |
| YouTube.CaptureFromShape | backend/src/services/youtube.service.ts:15 | every capture is a non-empty run, without stop characters, that occurs in the URL |
| YouTube.UrlPrefixesNonEmpty | backend/src/services/youtube.service.ts:15 | none of the four alternatives is empty |
| YouTube.ExtractVideoId | backend/src/services/youtube.service.ts:13-24 | the capture of the first pattern when it matches. Otherwise the URL itself exactly when it is eleven `[A-Za-z0-9_-]` characters, else null. A result is non-empty, has none of `&`, `?`, `#` or newline, and occurs in the URL |
| YouTube.PrefixDot | backend/src/services/youtube.service.ts:15 | every alternative contains a '.' |
| YouTube.NoCaptureInIdText | backend/src/services/youtube.service.ts:15-16 | in a text made of id characters only, no alternative matches anywhere |
| YouTube.BareIdUnchanged | backend/src/services/youtube.service.ts:16 | a bare eleven-character id is returned unchanged |
| YouTube.PrefixStart | backend/src/services/youtube.service.ts:15 | every alternative starts with 'y' |
| YouTube.NoCaptureWithoutY | backend/src/services/youtube.service.ts:15 | no alternative matches at a character other than 'y' |
| YouTube.PrefixesDiffer | backend/src/services/youtube.service.ts:15 | two different alternatives differ at a position inside both, so at most one occurs at a position |
| YouTube.EarlierAlternativesFail | backend/src/services/youtube.service.ts:15 | when an alternative matches at a position, trying the alternatives in order there gives its capture |
| YouTube.RunOfId | backend/src/services/youtube.service.ts:15 | the run of an id followed by a stop character or the end is that id |
| YouTube.LinkGivesId | backend/src/services/youtube.service.ts:13-24 | a link made of any text without 'y', one of the four prefixes, an id without stop characters, and then a stop character or the end, gives that id |
| YouTube.CaptureAtLink | backend/src/services/youtube.service.ts:15 | the pattern matches right after the lead text and captures the id |
| YouTube.FirstMatchIs | backend/src/services/youtube.service.ts:20 | the leftmost match is at a position where the pattern matches and matches nowhere before |
| YouTube.DurationOf | backend/src/services/youtube.service.ts:38 | `parseInt(text, 10) \|\| 0`: a missing part or non-numeric text gives 0, else the parsed value |
| YouTube.InfoOf | backend/src/services/youtube.service.ts:37-40 | the trimmed stdout is split on '\|\|\|': the title is the first part, the duration is read from the second, and the id is the third part or undefined |
| YouTube.InfoFailure | backend/src/services/youtube.service.ts:44-54 | the message in priority order: unavailable, then age-restricted, then copyright, then the generic message |
| YouTube.GetVideoInfo | backend/src/services/youtube.service.ts:26-56 | succeeds exactly when yt-dlp does, with the parsed line. Otherwise it is a YouTubeError (400) with InfoFailure's message |
| YouTube.SplitAfterBarFree | backend/src/services/youtube.service.ts:37 | splitting `a + '\|\|\|' + b`, where `a` has no '\|', cuts right after `a` |
| YouTube.SplitBarFree | backend/src/services/youtube.service.ts:37 | a text without '\|' is one piece |
| YouTube.DigitsBarFree | backend/src/services/youtube.service.ts:33 | a printed number has no '\|' |
| YouTube.TrimUnchanged | backend/src/services/youtube.service.ts:37 | trim leaves alone a text that neither starts nor ends with white space |
| YouTube.InfoRoundTrip | backend/src/services/youtube.service.ts:33-40 | reading back the line printed for a title, a duration and an id (without '\|' and not starting or ending with white space) recovers all three |
| YouTube.LineWithoutSeparator | backend/src/services/youtube.service.ts:37-38 | a line without '\|\|\|' is all title, with duration 0 and no id |
| YouTube.DownloadFailure | backend/src/services/youtube.service.ts:82-86 | only 'Video unavailable' gets its own message; everything else is the generic download message |
| YouTube.Disk.constructor | backend/src/services/youtube.service.ts:11 | the temporary directory holds the given files |
| YouTube.Disk.CleanupFile | backend/src/services/youtube.service.ts:90-99 | the file is removed when it exists, and nothing happens otherwise; it never fails |
| YouTube.AudioPathNormalised | backend/src/services/youtube.service.ts:59 | the output path is absolute and made of plain segments only: no '.', '..' or empty segment survives `path.join` |
| NodePath.ResolveKeepsPlain | backend/src/services/youtube.service.ts:59 | normalisation keeps only plain segments |
| YouTube.PlainIdInTempDir | backend/src/services/youtube.service.ts:59 | an id without '/' is stored as /tmp/<id>.mp3 |
| YouTube.ClimbCancels | backend/src/services/youtube.service.ts:59 | a segment followed by '..' in the id cancels out: `d/../rest` is stored where `rest` is |
| YouTube.LeadingClimbLeavesTempDir | backend/src/services/youtube.service.ts:59 | a leading '..' climbs out of /tmp: `../x` is stored at /x.mp3 |
| NodePath.ResolveClimb | backend/src/services/youtube.service.ts:59 | normalising `/dir/d/..` followed by more segments is normalising `/dir` followed by them |
| YouTube.DotDotLeavesTempDir | backend/src/services/youtube.service.ts:59 | an id that the `[^&\n?#]+` capture allows, `dQw4w9WgXcQ/../../x`, gives the file /x.mp3, outside the temporary directory |
| YouTube.Disk.DownloadAudio | backend/src/services/youtube.service.ts:58-88 | succeeds with `AudioPath(id)`, the normalised `path.join('/tmp', id + '.mp3')`, exactly when yt-dlp did not throw and created the file. On any failure that path is cleaned and a YouTubeError is returned, with 'Audio file was not created' as the message of a missing file |
| Transcription.FailureText | backend/src/services/transcription.service.ts:32-39 | 'Invalid file format' maps to 'Invalid audio format', then 'rate limit' to the rate-limit text. Any other message is kept, and an empty one becomes 'Failed to transcribe audio' |
| Transcription.TranscribeAudio | backend/src/services/transcription.service.ts:9-41 | a missing file fails with stat's message, classified. A file over 25 MiB fails before the API is called, with the size error wrapped again. Otherwise the API's text, or its error classified, as a TranscriptionError |
| Transcription.FailuresAreTranscriptionErrors | backend/src/services/transcription.service.ts:29-40 | every failure is a TranscriptionError with status 500 and the 'Transcription Error: ' prefix. A success is the API text unchanged |
| Transcription.ExactLimitAccepted | backend/src/services/transcription.service.ts:7-13 | a file of exactly 25·1024·1024 bytes reaches the API |
| Transcription.OversizeSkipsApi | backend/src/services/transcription.service.ts:12-19 | an oversized file fails identically whatever the API would do, so the API is never consulted |
| Transcription.OversizeMessageWrappedTwice | backend/src/services/transcription.service.ts:14-39 | the size error's message carries 'Transcription Error: ' twice (also backend/src/utils/errors.ts line 51) |
| Transcription.FailureTextKeeps | backend/src/services/transcription.service.ts:39 | a non-empty message without either phrase is kept as it is |
| TranscriptionWorker.FileId | backend/src/workers/transcription.worker.ts:20 | the audio file is named by the capture of `(?:v=\|youtu\.be\/)([^&\n?#]+)`, a non-empty run without stop characters, or else by the video row's id |
| TranscriptionWorker.AttemptErrors | backend/src/workers/transcription.worker.ts:22-26 | the download-and-transcribe step fails only with YouTube or transcription errors. It fails with a YouTube error exactly when yt-dlp threw or made no file. Success means the file was within the limit and the text is Whisper's |
| TranscriptionWorker.Transcribed | backend/src/workers/transcription.worker.ts:29-37 | the row ends completed with the transcript, or failed with '' and the error's message. Every other column is kept |
| TranscriptionWorker.NeverLeftProcessing | backend/src/workers/transcription.worker.ts:13-45 | a job never leaves its video pending or processing; it ends completed exactly when the attempt succeeded |
| TranscriptionWorker.SuccessKeepsEarlierError | backend/src/workers/transcription.worker.ts:29 | a success does not clear an earlier error message, because an undefined field is not written |
| TranscriptionWorker.RecordFailure | backend/src/workers/transcription.worker.ts:34-39 | the catch block stores failed, '' and the message, then rethrows. When the database is unreachable, the write's own error is thrown instead |
| TranscriptionWorker.TranscribeAndStore | backend/src/workers/transcription.worker.ts:19-45 | the job succeeds exactly when the attempt does, returning `{success: true, videoId}`. The row becomes Transcribed of the row before. The audio file is removed in every case. No other table changes |
| TranscriptionWorker.RunTranscriptionJob | backend/src/workers/transcription.worker.ts:8-46 | the whole job: processing first, then TranscribeAndStore. A database that cannot be reached fails the first write and changes nothing |
| ContentWorkers.Concurrency | backend/src/workers/shorts.worker.ts:8 | every text worker runs two jobs at once; the thumbnail worker runs one (also backend/src/workers/thumbnail.worker.ts line 8) |
| ContentWorkers.ProcessingFirst | backend/src/workers/shorts.worker.ts:14-15 | the first write marks the row processing with `{}`, whatever the generator and the charge will do |
| ContentWorkers.OnlyOwnRow | backend/src/workers/shorts.worker.ts:15-32 | every write goes to the job's own (video, type) row |
| ContentWorkers.OutcomeConsistent | backend/src/workers/shorts.worker.ts:11-35 | the job succeeds exactly when a charge is made, and exactly when its last write is completed. A failed job's last write is failed, with `{}` and the error's message |
| ContentWorkers.SuccessCharges | backend/src/workers/shorts.worker.ts:18-28 | on success the row holds the generator's payload, one charge is made, and `{success: true, videoId}` is returned |
| ContentWorkers.GeneratorFailureFree | backend/src/workers/shorts.worker.ts:18-34 | a generator failure is rethrown unchanged, after two writes (processing, failed), and nothing is charged |
| ContentWorkers.ChargeFailureRewrites | backend/src/workers/shorts.worker.ts:21-34 | a failed charge after the completed write rewrites the row to failed with an empty payload. The balance is untouched and the charge's error is rethrown |
| ContentWorkers.RecordFailure | backend/src/workers/shorts.worker.ts:29-34 | the catch block upserts failed, `{}` and the message, then rethrows. The upsert's own error is thrown when it fails |
| ContentWorkers.RunContentJob | backend/src/workers/shorts.worker.ts:8-36 | the tables after a job: the writes of JobOutcome are appended to the log, the row holds the last of them, and the profile holds the charged balance when there was a charge. A database that cannot be reached changes nothing |
| ContentWorkers.CompleteAndCharge | backend/src/workers/shorts.worker.ts:20-28 | after a good payload the row is completed, then the charge runs. A failed charge leaves a failed row and the profiles unchanged |
| ContentWorkers.ShortsJob | backend/src/workers/shorts.worker.ts:7-39 | `JobDone` with generateShorts's outcome: with the database reachable the job returns JobOutcome's result, the log gains JobOutcome's writes, the shorts row holds the last of them and the profile holds the charged balance after a success. Unreachable: Unreachable is thrown and nothing changes. Videos are never touched |
| ContentWorkers.BlogJob | backend/src/workers/blog.worker.ts:7-35 | `JobDone` with generateBlogPost's outcome: with the database reachable the job returns JobOutcome's result, the log gains JobOutcome's writes, the blog row holds the last of them and the profile holds the charged balance after a success. Unreachable: Unreachable is thrown and nothing changes. Videos are never touched |
| ContentWorkers.TwitterJob | backend/src/workers/twitter.worker.ts:7-35 | `JobDone` with generateTwitterThread's outcome: with the database reachable the job returns JobOutcome's result, the log gains JobOutcome's writes, the twitter row holds the last of them and the profile holds the charged balance after a success. Unreachable: Unreachable is thrown and nothing changes. Videos are never touched |
| ContentWorkers.LinkedInJob | backend/src/workers/linkedin.worker.ts:7-35 | `JobDone` with generateLinkedInCarousel's outcome: with the database reachable the job returns JobOutcome's result, the log gains JobOutcome's writes, the linkedin row holds the last of them and the profile holds the charged balance after a success. Unreachable: Unreachable is thrown and nothing changes. Videos are never touched |
| ContentWorkers.InstagramJob | backend/src/workers/instagram.worker.ts:7-35 | `JobDone` with generateInstagramCaptions's outcome: with the database reachable the job returns JobOutcome's result, the log gains JobOutcome's writes, the instagram row holds the last of them and the profile holds the charged balance after a success. Unreachable: Unreachable is thrown and nothing changes. Videos are never touched |
| ContentWorkers.ThumbnailPayload | backend/src/workers/thumbnail.worker.ts:16-18 | the payload stored is `{thumbnails}` of the generated entries, or the generator's error |
| ContentWorkers.ThumbnailJob | backend/src/workers/thumbnail.worker.ts:7-35 | `JobDone` with the thumbnail payload of generateThumbnails(transcript, title, videoId): processing first; then the `{thumbnails}` payload as completed and one charge, returning `{success, videoId}`; on a generator or charge failure the row is left failed with `{}` and the error's message and the error is rethrown. A successful job leaves a completed row holding one to three thumbnails |
| ContentRoutes.TitleOrDefault | backend/src/routes/content.ts:36 | `video.title \|\| 'Video'`: never empty, and the title itself when it has text |
| ContentRoutes.Decide | backend/src/routes/content.ts:11-42 | the checks run in order. First ownership: a missing or foreign video is NotFoundError. Then the transcript: not completed or empty is ValidationError. Then the cache: a completed row with no regenerate is returned. Then credits: from one credit up, exactly one job is queued with the transcript and the title or 'Video'; below one, the reply is 'Insufficient credits' |
| ContentRoutes.VerdictReply | backend/src/routes/content.ts:26-40 | a refusal goes to the error handler; a cached row is 200 with `cached: true`; no credits is 402; a queued job is 200 with '<type> generation started' |
| ContentRoutes.CheckRequest | backend/src/routes/content.ts:13-36 | the route's reads and checks, in their order, reach exactly the verdict `Decide` describes: the ownership, transcript, cache and credit outcomes and the job built from the row |
| ContentRoutes.GenerateContent | backend/src/routes/content.ts:11-49 | the reply is VerdictReply of Decide. The type's own queue gains exactly the decided job, and only when one is decided. Every other queue is unchanged |
| ContentRoutes.RefusalStatuses | backend/src/routes/content.ts:18-33 | each refusal has the status of its check: 404 for ownership, 400 for the transcript, 402 for credits |
| ContentRoutes.UnfinishedRowRequeues | backend/src/routes/content.ts:24-27 | a row that is processing or failed never stops a new job; only a completed row is served |
| ContentRoutes.RegenerateBypassesCache | backend/src/routes/content.ts:25 | with regenerate, a cached row is never returned |
| ContentRoutes.GetContentRoute | backend/src/routes/content.ts:52-65 | ownership is checked first (404 'Video not found'). A missing row, or an unknown type name, is 404 'Content not found'. Otherwise the row is sent with 200 |
| VideoRoutes.Admit | backend/src/routes/videos.ts:19-32 | the checks run in order. A failed credit read is passed on, and a balance below one refuses with 402. A URL without an id is ValidationError('Invalid YouTube URL'). A failed metadata call is its YouTubeError. Admission happens exactly when all four pass, with the extracted id and the parsed metadata |
| VideoRoutes.CreditsCheckedFirst | backend/src/routes/videos.ts:19-23 | without credits the outcome is the same whatever the URL and yt-dlp would give, so neither is consulted |
| VideoRoutes.AdmittedIdShape | backend/src/routes/videos.ts:26-29 | an admitted id is non-empty, occurs in the URL, and has no `&`, `?`, `#` or newline |
| VideoRoutes.NewVideo | backend/src/services/supabase.service.ts:16-23 | the inserted row: pending, no transcript and no error, with the metadata's title and duration, the owner's id and the extracted id (also backend/src/routes/videos.ts line 35) |
| VideoRoutes.CreateVideoRoute | backend/src/routes/videos.ts:14-46 | on admission with a free id, the reply is 201, the row is stored, and exactly one transcription job for it is queued. A taken id sends the insert's error. Every refusal leaves the videos and the queue unchanged. Profiles and content are never touched |
| VideoRoutes.ListVideos | backend/src/routes/videos.ts:49-57 | the reply lists each of the caller's videos exactly once, newest first; a database that cannot be reached sends its error |
| VideoRoutes.GetVideoRoute | backend/src/routes/videos.ts:60-68 | the row when the caller owns it; otherwise 404 'Video not found' |
| VideoRoutes.DeleteVideoRoute | backend/src/routes/videos.ts:71-79 | always 'Video deleted' on a reachable database. The content rows of the id are removed whoever asks; the video row is removed only for its owner |
| EdgeFunction.PatternMatch | supabase/functions/process-video/index.ts:142-149 | a match of either pattern captures a non-empty run with no `&`, `?`, `#` or newline |
| EdgeFunction.FirstPatternMatch | supabase/functions/process-video/index.ts:147-151 | the result is the match of some pattern in the list; None exactly when no pattern matches |
| EdgeFunction.SameExtractionAsBackend | supabase/functions/process-video/index.ts:141-152 | the edge function's extractor gives the backend extractor's result on every URL: same patterns, same order |
| EdgeFunction.ReplyOr | supabase/functions/process-video/index.ts:205 | a non-empty reply is kept; a missing or empty reply becomes the fallback |
| EdgeFunction.BlogPostOf | supabase/functions/process-video/index.ts:177-178 | the blog post is never empty: the reply, or 'Failed to generate blog post' |
| EdgeFunction.ListOf | supabase/functions/process-video/index.ts:204-216 | the span from the first `[` to the last `]` is parsed when it exists and parses. No span, or a parse failure, gives the one-item list of the reply text |
| EdgeFunction.CarouselOf | supabase/functions/process-video/index.ts:242-253 | the span from the first `{` to the last `}` is parsed when it exists and parses. Otherwise the result is `{ slides: [] }` |
| EdgeFunction.EmptyListReplyParsesBrackets | supabase/functions/process-video/index.ts:205-211 | a missing reply makes the list readers parse the text `[]` |
| EdgeFunction.ListReaderKeepsOuterArray | supabase/functions/process-video/index.ts:209 | on a reply holding an array of objects, the edge function keeps the outer array, while the backend's reader takes the first object (also backend/src/services/contentGenerator.service.ts lines 36-48) |
| EdgeFunction.GenerateAll | supabase/functions/process-video/index.ts:70-80 | the four calls run in order, and the first one that throws ends the run with its message. Otherwise the result is the four readers' values, and the blog title defaults to 'Video Content' |
| EdgeFunction.InsertOf | supabase/functions/process-video/index.ts:83-92 | the inserted row carries the four generated pieces of this video and no thumbnails |
| EdgeFunction.CompletedTitle | supabase/functions/process-video/index.ts:103 | the stored title when it is truthy, else `Video <youtube id>` |
| EdgeFunction.HostedTables.constructor | supabase/functions/process-video/index.ts:29-32 | the tables start with the given videos, no content rows and no writes |
| EdgeFunction.HostedTables.LookupError | supabase/functions/process-video/index.ts:37-45 | the `.single()` lookup fails exactly when the row is absent or the database is unreachable, with that message |
| EdgeFunction.HostedTables.SetStatus | supabase/functions/process-video/index.ts:48-51 | the status, and any title given, are written to that row only. It is one more write in the log, and nothing else changes (also lines 99-105) |
| EdgeFunction.HostedTables.Complete | supabase/functions/process-video/index.ts:55-125 | an invalid URL, a failed call or a failed insert gives 500 with its message and writes nothing further, so the row stays 'processing'. Otherwise the steps run in order: content insert, status 'completed' with its title, then the credit call. The reply is success |
| EdgeFunction.HostedTables.ProcessFound | supabase/functions/process-video/index.ts:47-125 | a found row is set to 'processing' first. The run succeeds exactly when the URL yields an id, all four generations succeed and the insert succeeds. On failure only the 'processing' write happened. On success the four writes happen in order, the content row is stored and the row becomes 'completed' with its new title |
| EdgeFunction.HostedTables.Handle | supabase/functions/process-video/index.ts:12-139 | OPTIONS gets the CORS-only reply. A bad body, a missing id, a missing API key or a failed lookup gives 500 with its message and changes nothing. After the lookup the row is set to 'processing' first. Success is exactly the case where every step passes, with the four writes in order |
| VideoCard.IdAtFromCaptures | src/components/dashboard/VideoCard.tsx:58 | a capture at a position exists exactly when one of the four prefixes is there followed by eleven word characters or `-`. The capture is those eleven characters |
| VideoCard.PrefixCaptures | src/components/dashboard/VideoCard.tsx:58 | an alternative followed by eleven id characters is the capture at its position, whichever alternatives come before it |
| VideoCard.CaptureIsBareId | src/components/dashboard/VideoCard.tsx:58 | the capture at a position is an eleven-character id that occurs in the URL |
| VideoCard.MatchFrom | src/components/dashboard/VideoCard.tsx:58 | the leftmost match from a position on; None exactly when the pattern matches nowhere from there |
| VideoCard.GetYoutubeThumbnail | src/components/dashboard/VideoCard.tsx:57-61 | '' exactly when the pattern matches nowhere in the URL. Otherwise the result is the `mqdefault.jpg` address of the eleven-character id captured |
| VideoCard.MatchIsBareId | src/components/dashboard/VideoCard.tsx:58 | every capture is an eleven-character id that occurs in the URL |
| VideoCard.SkipUnmatched | src/components/dashboard/VideoCard.tsx:58 | positions where no alternative matches do not move the leftmost match |
| VideoCard.NoMatchBeforeY | src/components/dashboard/VideoCard.tsx:58 | with no `y` before a position, the leftmost match is the first one from that position on |
| VideoCard.OnlyAlternativeAt | src/components/dashboard/VideoCard.tsx:58 | at most one of the four alternatives occurs at a position |
| VideoCard.MatchStartsWithY | src/components/dashboard/VideoCard.tsx:58 | a match can only start at a `y` |
| VideoCard.LeadThenPrefix | src/components/dashboard/VideoCard.tsx:57-61 | text without a `y`, then a prefix, an id and anything else gives the thumbnail of that id |
| VideoCard.JsRem | src/components/dashboard/VideoCard.tsx:104 | JavaScript's `%`: the remainder has the sign of the dividend, and equals Euclid's remainder on non-negative numbers |
| VideoCard.DurationText | src/components/dashboard/VideoCard.tsx:103-105 | nothing is shown exactly when the duration is null. A zero duration shows the bare number '0', because `0 && ...` is 0 and React renders it; any other duration shows the `m:ss` span |
| VideoCard.DurationReadsBack | src/components/dashboard/VideoCard.tsx:104 | for d > 0 the span is shown and its text is `m:ss`, with two-digit seconds below 60, and m·60 + ss = d |
| VideoCard.SecondsText | src/components/dashboard/VideoCard.tsx:104 | seconds below 60, padded with `padStart(2, '0')`, are two digits that read back as that number |
| VideoCard.StatusStyleOf | src/components/dashboard/VideoCard.tsx:25-50 | only 'processing' spins. Queued and processing share the spinner icon. The label is the status name with a capital |
| VideoCard.CardOf | src/components/dashboard/VideoCard.tsx:52-157 | the title falls back to 'Untitled Video'. Content badges show exactly for 'completed'. The error text shows exactly for 'failed' with a message. 'View Content' shows exactly for 'completed' with a handler |
| VideoCard.ContentAndErrorExclusive | src/components/dashboard/VideoCard.tsx:108-130 | a card never shows content badges and an error together, and 'View Content' only beside the badges |
| UseVideos.ListKey | src/hooks/useVideos.ts:9 | `['videos', 'list', userId]` |
| UseVideos.DetailKey | src/hooks/useVideos.ts:10 | `['videos', 'detail', videoId]` |
| UseVideos.ContentKey | src/hooks/useVideos.ts:11 | `['videos', 'content', videoId]` |
| UseVideos.KeysDistinct | src/hooks/useVideos.ts:7-12 | each key function is one-to-one, and keys of different kinds never collide |
| UseVideos.ListQueryKey | src/hooks/useVideos.ts:21 | the list key of the user's id, or of '' without a user |
| UseVideos.SomeUnfinished | src/hooks/useVideos.ts:39 | true exactly when some video is queued or processing |
| UseVideos.RefetchInterval | src/hooks/useVideos.ts:37-41 | 5000 exactly when data is loaded and some video is unfinished; otherwise `false`, also before data arrives |
| UseVideos.PollingStopsWhenSettled | src/hooks/useVideos.ts:37-41 | polling stops exactly when every listed video is completed or failed |
| UseVideos.ListQuery | src/hooks/useVideos.ts:22-33 | without a user id the list is [] and nothing is asked. A select error is thrown. Null data is [] |
| UseVideos.Invocations.constructor | src/hooks/useVideos.ts:128 | no edge function call has been sent yet |
| UseVideos.Invocations.CreateVideo | src/hooks/useVideos.ts:111-135 | no user gives 'User not authenticated'. An insert failure is thrown and nothing is sent. On success a queued row is inserted, and exactly one edge function call with its id is sent. The mutation succeeds whatever that call does |
| UseVideos.NewRowPolls | src/hooks/useVideos.ts:37-41 | adding a created (queued) row to a list makes it poll (also line 120) |
| ProcessVideoForm.ValidateYoutubeUrl | src/components/dashboard/ProcessVideoForm.tsx:22-25 | true exactly when the URL starts with an optional scheme, an optional `www.`, one of the four prefixes and eleven id characters. Trailing text is allowed |
| ProcessVideoForm.GreedyPartsMatch | src/components/dashboard/ProcessVideoForm.tsx:23 | the greedy optional groups take a scheme and a subdomain of the pattern. A prefix and an id after them give a match |
| ProcessVideoForm.GreedyPartsAreTheOnlyOnes | src/components/dashboard/ProcessVideoForm.tsx:23 | every match uses exactly the greedy scheme and subdomain, so those alone decide the test |
| ProcessVideoForm.SchemeIsGreedy | src/components/dashboard/ProcessVideoForm.tsx:23 | a scheme followed by a subdomain and a `y` is the one the greedy `(https?:\/\/)?` takes |
| ProcessVideoForm.SubdomainIsGreedy | src/components/dashboard/ProcessVideoForm.tsx:23 | a subdomain followed by a `y` is the one the greedy `(www\.)?` takes |
| ProcessVideoForm.AcceptedHasThumbnail | src/components/dashboard/ProcessVideoForm.tsx:23 | every URL the form accepts gets a card thumbnail (also src/components/dashboard/VideoCard.tsx line 58) |
| ProcessVideoForm.SubmitOutcome | src/components/dashboard/ProcessVideoForm.tsx:27-66 | the checks run in order. A blank input gives 'Please enter a YouTube URL'. A pattern failure gives 'Please enter a valid YouTube URL'. A loaded profile with no credits gets the no-credits toast, and an unloaded profile is let through. Then the mutation gives the queued toast, or the failure toast with its message or 'Please try again later.' |
| ProcessVideoForm.MutationOnlyForValidUrls | src/components/dashboard/ProcessVideoForm.tsx:31-52 | the mutation is reached only for a non-blank URL that passes the pattern, and never for a loaded profile without credits |
| ProcessVideoForm.Form.constructor | src/components/dashboard/ProcessVideoForm.tsx:19-20 | empty input, no message |
| ProcessVideoForm.Form.Change | src/components/dashboard/ProcessVideoForm.tsx:90-93 | the input takes the new text and the message is cleared |
| ProcessVideoForm.Form.Submit | src/components/dashboard/ProcessVideoForm.tsx:27-66 | the outcome is SubmitOutcome of the input. A refusal sets its message and keeps the input. Otherwise the message is cleared. The input is cleared exactly on the queued outcome |
| ProcessVideoForm.BlankNeverSubmitted | src/components/dashboard/ProcessVideoForm.tsx:31-34 | a blank input disables the button, and its submission is refused either way (also line 105) |
| ContentTabs.CreditsShown | src/components/dashboard/content-tabs/TwitterTab.tsx:81 | the loaded balance, or 0 before the profile arrives |
| ContentTabs.GenerateNeedsLoadedCredit | src/components/dashboard/content-tabs/TwitterTab.tsx:85-102 | generate is enabled exactly when no mutation runs and a loaded balance is at least one. The 'Insufficient credits' notice only shows beside a disabled button (the same guard is at lines 104 and 120-121 of LinkedInTab.tsx and lines 91 and 107-108 of ShortsTab.tsx and InstagramTab.tsx) |
| ContentTabs.FailureDescription | src/components/dashboard/content-tabs/TwitterTab.tsx:32 | the failure toast's text is never empty: the error's message, else 'Please try again.' |
| ContentTabs.Terminated | src/components/dashboard/content-tabs/ShortsTab.tsx:47-48 | each block followed by the terminator, the count unchanged |
| ContentTabs.JoinTerminated | src/components/dashboard/content-tabs/LinkedInTab.tsx:60-62 | joining terminated blocks is joining the blocks with terminator plus separator, then one final terminator |
| TwitterTab.NumberedFrom | src/components/dashboard/content-tabs/TwitterTab.tsx:47 | the i-th block is `i+1/n`, a blank line, then the i-th tweet |
| TwitterTab.CopyEntireThread | src/components/dashboard/content-tabs/TwitterTab.tsx:45-48 | nothing is copied exactly when the data or its tweets field is missing. Otherwise the copy is the numbered blocks joined by the rule |
| TwitterTab.ThreadLength | src/components/dashboard/content-tabs/TwitterTab.tsx:47 | a thread of n tweets is its n blocks plus n − 1 separators long |
| TwitterTab.ThreadStartsWithFirstTweet | src/components/dashboard/content-tabs/TwitterTab.tsx:47 | the copied thread begins `1/n`, a blank line, the first tweet |
| TwitterTab.EmptyThreadCopiesEmptyText | src/components/dashboard/content-tabs/TwitterTab.tsx:46 | an empty tweet list is truthy, so the button copies '' |
| TwitterTab.CardsFrom | src/components/dashboard/content-tabs/TwitterTab.tsx:189-193 | card i shows `Tweet i+1/total`, its tweet and `Characters: length/280` (also line 142) |
| TwitterTab.ResultOf | src/components/dashboard/content-tabs/TwitterTab.tsx:110-133 | one card per tweet of `tweets \|\| []`, headed 'Twitter Thread (n tweets)'. The hashtag row shows exactly for a non-empty list |
| TwitterTab.CardBadges | src/components/dashboard/content-tabs/TwitterTab.tsx:189 | badges count from one to the number of tweets shown |
| LinkedInTab.BlockIsCapitalisedCopy | src/components/dashboard/content-tabs/LinkedInTab.tsx:40-50 | the bulk block of a slide is its single copy with `Slide` written `SLIDE` |
| LinkedInTab.Blocks | src/components/dashboard/content-tabs/LinkedInTab.tsx:49-50 | one block per slide, in order |
| LinkedInTab.CopyAllSlides | src/components/dashboard/content-tabs/LinkedInTab.tsx:47-52 | nothing exactly when the slides field is missing. Otherwise the copy is the blocks joined by the rule |
| LinkedInTab.DownloadAll | src/components/dashboard/content-tabs/LinkedInTab.tsx:58-62 | nothing exactly when the slides field is missing. Otherwise each block is closed by `---` and the blocks are joined by a blank line |
| LinkedInTab.DownloadIsCopyAllWithRule | src/components/dashboard/content-tabs/LinkedInTab.tsx:47-62 | for a non-empty list, the file is the copy-all text with one more closing rule |
| LinkedInTab.SlideBadge | src/components/dashboard/content-tabs/LinkedInTab.tsx:206-207 | `Slide n/total`, plus ' (CTA)' exactly when the slide's number is the total |
| LinkedInTab.OnlyLastSlideMarked | src/components/dashboard/content-tabs/LinkedInTab.tsx:207 | in slides numbered 1..n in order, exactly the last badge is marked (also line 165) |
| ShortsTab.BodiesFrom | src/components/dashboard/content-tabs/ShortsTab.tsx:47-48 | block i is numbered `SHORT #i+1` and holds the i-th short |
| ShortsTab.DownloadAll | src/components/dashboard/content-tabs/ShortsTab.tsx:45-49 | nothing exactly when the shorts field is missing. Otherwise each numbered block is closed by `---` and the blocks are joined by a blank line |
| ShortsTab.DownloadClosesEveryBlock | src/components/dashboard/content-tabs/ShortsTab.tsx:47-49 | the file is the blocks separated by rules, with one final rule |
| ShortsTab.EmptyListDownloadsEmptyFile | src/components/dashboard/content-tabs/ShortsTab.tsx:46 | an empty list is truthy, so an empty file is written |
| ShortsTab.CopyJoinsTheSections | src/components/dashboard/content-tabs/ShortsTab.tsx:149-152 | the copy is hook, script and call to action, a blank line apart |
| ShortsTab.LabelsFrom | src/components/dashboard/content-tabs/ShortsTab.tsx:172 | card i is labelled `Short #i+1` |
| ShortsTab.ViewOf | src/components/dashboard/content-tabs/ShortsTab.tsx:116-123 | the list shown is `shorts \|\| []`, one label per short, headed 'YouTube Shorts (n scripts)' |
| ShortsTab.CardNumbersFollowTheFile | src/components/dashboard/content-tabs/ShortsTab.tsx:48 | card i and file block i carry the same number, i + 1 (also line 172) |
| InstagramTab.ReelsOf | src/components/dashboard/content-tabs/InstagramTab.tsx:46 | None exactly when `reels` is absent or not an array. Otherwise the result is each item cast to a reel, in order (also line 116) |
| InstagramTab.CastAll | src/components/dashboard/content-tabs/InstagramTab.tsx:116 | item i cast, the count unchanged |
| InstagramTab.BodiesFrom | src/components/dashboard/content-tabs/InstagramTab.tsx:47-48 | block i is numbered `REEL #i+1` and holds the i-th reel, hashtags joined by spaces |
| InstagramTab.DownloadAll | src/components/dashboard/content-tabs/InstagramTab.tsx:45-49 | nothing exactly when there is no reels array. Otherwise each numbered block is closed by `---` and the blocks are joined by a blank line |
| InstagramTab.DownloadClosesEveryBlock | src/components/dashboard/content-tabs/InstagramTab.tsx:47-49 | the file is the blocks separated by rules, with one final rule |
| InstagramTab.LabelsFrom | src/components/dashboard/content-tabs/InstagramTab.tsx:178 | card i is labelled `Reel #i+1` |
| InstagramTab.ViewOf | src/components/dashboard/content-tabs/InstagramTab.tsx:116-123 | the list shown is `reels \|\| []`, one label per reel, headed 'Instagram Reels (n scripts)' |
| InstagramTab.CaptionsPayloadShowsNoReels | src/components/dashboard/content-tabs/InstagramTab.tsx:116 | data whose only field is `captions`, the shape the backend writes, shows no reels and downloads nothing (also backend/src/types/content.types.ts lines 54-60) |
| InstagramTab.FallbackShowsNoReels | src/components/dashboard/content-tabs/InstagramTab.tsx:116-123 | the generator's fallback payload shows '0 scripts' and downloads nothing |
| InstagramTab.CaptionCopyEndsLikeTheFile | src/components/dashboard/content-tabs/InstagramTab.tsx:48 | the caption copy and the file block both end with the space-joined hashtags (also line 154) |
| UiStore.DifferentPartsCommute | src/stores/uiStore.ts:28-44 | setters of different parts of the state can be applied in either order |
| UiStore.ToggleFlips | src/stores/uiStore.ts:29-40 | a toggle negates its own flag and changes nothing else |
| UiStore.ToggleTwiceRestores | src/stores/uiStore.ts:29-40 | toggling twice is the identity |
| UiStore.SettersIdempotent | src/stores/uiStore.ts:28-44 | a setter applied twice is that setter applied once |
| UiStore.OpenThenCloseKeepsMode | src/stores/uiStore.ts:34-35 | opening and then closing the modal leaves it closed with the mode just chosen |
| UiStore.Store.constructor | src/stores/uiStore.ts:27-43 | menu closed, modal closed in 'login' mode, sidebar open, not loading |
| UiStore.Store.SetMobileMenuOpen | src/stores/uiStore.ts:28 | the new state is the old one with the menu flag set |
| UiStore.Store.ToggleMobileMenu | src/stores/uiStore.ts:29 | the new state is the old one with the menu flag negated |
| UiStore.Store.OpenAuthModal | src/stores/uiStore.ts:34 | the modal becomes open in the given mode, and nothing else changes |
| UiStore.Store.CloseAuthModal | src/stores/uiStore.ts:35 | the modal becomes closed, and its mode is kept |
| UiStore.Store.SetSidebarOpen | src/stores/uiStore.ts:39 | the new state is the old one with the sidebar flag set |
| UiStore.Store.ToggleSidebar | src/stores/uiStore.ts:40 | the new state is the old one with the sidebar flag negated |
| UiStore.Store.SetGlobalLoading | src/stores/uiStore.ts:44 | the new state is the old one with the loading flag set |

## Left out

- NodePath.JoinAbsolute: models `path.join` only for an absolute first part, the only use in the code. Relative results, Windows separators and `path.join`'s handling of more than two parts are not modelled.
- External services: the OpenAI chat, image and Whisper APIs, the Supabase SDK, auth token verification, storage uploads, the yt-dlp subprocess, `fetch` and `JSON.parse`. Each is a parameter returning a value or a failure; what those services do is not modelled.
- Bull internals: delivery, retries, backoff timing, stalled jobs and worker concurrency. The queues are append-only job lists with their options records. The queues' event handlers only log, and are not modelled. A failing `queue.add` is not modelled.
- Concurrency: every request and job is modelled running alone. `deductCredit` reads the balance and then writes it; the model makes no claim about two workers charging at once. The body of the `decrement_credits` SQL procedure is not part of this model: the edge function's call to it is recorded as a write.
- Timestamps are values the caller passes in, and ids are chosen by the caller. Logging is left out, including the size line formatted with `toFixed`.
- Prompt wording is left out: each request records its task, its inputs and the truncation of the transcript, not the prompt text. The edge function's sample transcript is a constant that the model does not spell out.
- The rate limiter, the other Joi schemas, the server and worker start-up, and process signal handling are framework configuration.
- The server's `youtube_url` schema (backend/src/middleware/validation.middleware.ts:21-22) is not modelled. Its pattern is the form's, but it applies `Joi.string().uri()` first, which also demands an absolute URI with a scheme. So `youtube.com/watch?v=dQw4w9WgXcQ` passes the form's `ProcessVideoForm.ValidateYoutubeUrl` and is refused by the server with a 400 ValidationError. `VideoRoutes.CreateVideoRoute` starts from a body that passed the schema.
- Regular expressions are written as explicit string predicates and extractors, one per pattern. No general regex engine is modelled.
- Supabase reachability is a single `online` flag per database, which every call reads.
- The front end: markup, styling and colours, icons, clipboard writes, Blob downloads, toasts, `setTimeout` resets, the tabs' "copied" flags and the `onSuccess` callbacks. The query library's cache, `staleTime`, `enabled` and invalidation after a mutation are also left out. The tabs model only their texts and their view and enable rules.
- `useVideoWithContent` and `useDeleteVideo` in src/hooks/useVideos.ts are query and mutation bodies that only pass rows through. Of that file the model keeps the keys, the polling rule, the list query's guard and the create sequence.
- The fetch and session wrappers (src/lib/api.ts, src/hooks/useContent.ts, src/hooks/useAuthQuery.ts, src/hooks/useProfile.ts) are not part of this model.
- The Shorts and Instagram script-copy texts (`ShortsTab.ShortCopy`, `InstagramTab.ScriptCopy`, `InstagramTab.CaptionCopy`) are plain concatenations. They carry no ensures; the lemmas beside them state what they are.
- Lengths are counted in Unicode characters, where JavaScript counts UTF-16 code units. This matters only for the tweet card's character counter and for emoji beyond the basic plane. Floating point is not modelled: a video's duration is a whole number of seconds, and shorts and reels keep `duration` as text.
- In the edge function, a truthy `videoId` that is not a string is not modelled: the request carries an optional text. In the tabs, a truthy field that is not an array is not modelled either: a tab field is absent, or it is a list.
- `ContentGenerator.GenerateShorts` and the other four generators carry no ensures of their own. `ContentGenerator.GeneratorOutcomes` states each one's reply, fallback and failure.
- Transcription.OversizeMessageWrappedTwice: takes as a hypothesis that the failure text keeps the size message, and does not prove it.

Notes on where the code and its documentation differ. The model follows the code in each case:
- An empty tweet, slide, short or reel list is truthy in JavaScript, so copy-all and download still write a text, '' or an empty file, where the documentation calls them no-ops.
- The Instagram tab reads `data.reels`, while the backend's generator writes `data.captions`. A generated Instagram row therefore shows no scripts.
- The edge function never marks a video failed. A failure after the 'processing' write leaves the row 'processing'.
- The three section markers in ShortsTab.tsx are not emoji but UTF-8 emoji bytes read as Mac Roman text. The model keeps those code points as written.
- The form's pattern, and the server's, are anchored only at the start, so text after the id is accepted.
- `updateVideoStatus` without an error message leaves `error_message` unchanged: `JSON.stringify` drops the `undefined` field from the request.
