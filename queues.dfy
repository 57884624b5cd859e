/**
 * The seven Bull queues of backend/src/services/queue.service.ts. A queue is
 * kept as its name, its default job options and the list of jobs added to
 * it; delivery to workers, retries, backoff timing and Redis itself are not
 * modelled.
 */
module Queues {
  import opened Store

  datatype Backoff = Backoff(kind: string, delay: nat)

  /** The Bull job options the queues are created with (times in milliseconds). */
  datatype JobOptions = JobOptions(
    attempts: nat,
    backoff: Backoff,
    removeOnComplete: nat,
    removeOnFail: nat,
    timeout: nat)

  const DefaultJobOptions: JobOptions :=
    JobOptions(2, Backoff("exponential", 5000), 100, 50, 5 * 60 * 1000)

  /** The thumbnail queue's options: the defaults with a ten-minute timeout. */
  const ThumbnailJobOptions: JobOptions := DefaultJobOptions.(timeout := 10 * 60 * 1000)

  /** The payload of a transcription job. */
  datatype TranscriptionJob = TranscriptionJob(videoId: string, youtubeUrl: string, userId: string)

  /** The payload of a content job (every content queue, the thumbnail queue included). */
  datatype ContentJob = ContentJob(videoId: string, userId: string, transcript: string, videoTitle: string)

  /** What a job body returns on success: `{ success: true, videoId }`. */
  datatype JobReturn = JobReturn(success: bool, videoId: string)

  lemma OptionsValues()
    ensures DefaultJobOptions.attempts == 2 && DefaultJobOptions.backoff == Backoff("exponential", 5000)
    ensures DefaultJobOptions.removeOnComplete == 100 && DefaultJobOptions.removeOnFail == 50
    ensures DefaultJobOptions.timeout == 300000 && ThumbnailJobOptions.timeout == 600000
    ensures ThumbnailJobOptions == DefaultJobOptions.(timeout := 600000)
  {
  }

  class JobQueue<T> {
    const name: string
    const options: JobOptions
    /** The jobs added so far, oldest first. */
    var jobs: seq<T>
    var closed: bool

    constructor (name: string, options: JobOptions)
      ensures this.name == name && this.options == options
      ensures jobs == [] && !closed
    {
      this.name := name;
      this.options := options;
      jobs := [];
      closed := false;
    }

    /** `queue.add(data)`: appends one job. */
    method Add(job: T)
      modifies this
      ensures jobs == old(jobs) + [job] && closed == old(closed)
    {
      jobs := jobs + [job];
    }

    /** `queue.close()`. */
    method Close()
      modifies this
      ensures closed && jobs == old(jobs)
    {
      closed := true;
    }
  }

  /** The names of the seven queues, in the order of the `queues` list. */
  const QueueNames: seq<string> :=
    ["transcription", "shorts", "blog", "twitter", "linkedin", "instagram", "thumbnail"]

  lemma QueueNamesDistinct()
    ensures |QueueNames| == 7
    ensures forall i, j :: 0 <= i < j < |QueueNames| ==> QueueNames[i] != QueueNames[j]
    ensures forall t: ContentType :: TypeName(t) in QueueNames[1..]
  {
  }

  class Queues {
    const transcription: JobQueue<TranscriptionJob>
    const shorts: JobQueue<ContentJob>
    const blog: JobQueue<ContentJob>
    const twitter: JobQueue<ContentJob>
    const linkedin: JobQueue<ContentJob>
    const instagram: JobQueue<ContentJob>
    const thumbnail: JobQueue<ContentJob>

    /** The six content queues are six distinct objects. */
    ghost predicate Valid()
      reads this
    {
      shorts != blog && shorts != twitter && shorts != linkedin && shorts != instagram && shorts != thumbnail
      && blog != twitter && blog != linkedin && blog != instagram && blog != thumbnail
      && twitter != linkedin && twitter != instagram && twitter != thumbnail
      && linkedin != instagram && linkedin != thumbnail
      && instagram != thumbnail
    }

    ghost function Repr(): set<object>
      reads this
    {
      {transcription as object, shorts as object, blog, twitter, linkedin, instagram, thumbnail}
    }

    /** Creates the seven queues, each with no jobs. */
    constructor ()
      ensures Valid() && fresh(Repr())
      ensures transcription.name == "transcription" && transcription.options == DefaultJobOptions
      ensures forall t: ContentType :: ContentQueue(t).name == TypeName(t)
      ensures forall t: ContentType ::
        ContentQueue(t).options == if t == Thumbnail then ThumbnailJobOptions else DefaultJobOptions
      ensures transcription.jobs == [] && forall t: ContentType :: ContentQueue(t).jobs == []
    {
      transcription := new JobQueue("transcription", DefaultJobOptions);
      shorts := new JobQueue("shorts", DefaultJobOptions);
      blog := new JobQueue("blog", DefaultJobOptions);
      twitter := new JobQueue("twitter", DefaultJobOptions);
      linkedin := new JobQueue("linkedin", DefaultJobOptions);
      instagram := new JobQueue("instagram", DefaultJobOptions);
      thumbnail := new JobQueue("thumbnail", ThumbnailJobOptions);
    }

    /** The queue a content route posts to. */
    function ContentQueue(t: ContentType): (q: JobQueue<ContentJob>)
      reads this
      ensures q in Repr()
    {
      match t
      case Shorts => shorts
      case Blog => blog
      case Twitter => twitter
      case LinkedIn => linkedin
      case Instagram => instagram
      case Thumbnail => thumbnail
    }

    /** Each content type posts to a queue of its own. */
    lemma ContentQueuesDistinct(s: ContentType, t: ContentType)
      requires Valid()
      ensures s != t ==> ContentQueue(s) != ContentQueue(t)
    {
    }

    /** `closeQueues`: every queue of the list is closed and keeps its jobs. */
    method CloseAll()
      requires Valid()
      modifies Repr()
      ensures transcription.closed && transcription.jobs == old(transcription.jobs)
      ensures forall t: ContentType :: ContentQueue(t).closed && ContentQueue(t).jobs == old(ContentQueue(t).jobs)
    {
      transcription.Close();
      shorts.Close();
      blog.Close();
      twitter.Close();
      linkedin.Close();
      instagram.Close();
      thumbnail.Close();
    }
  }
}
