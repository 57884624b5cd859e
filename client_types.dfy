/**
 * The front end's view of a `videos` row, from src/types/index.ts. Its
 * status set differs from the backend's: a row the browser creates starts
 * `queued`. Nullable columns are options; timestamps are opaque numbers.
 */
module ClientTypes {
  import opened Wrappers

  datatype VideoStatus = Queued | Processing | Completed | Failed

  /** The column value of each status. */
  function StatusName(s: VideoStatus): string {
    match s
    case Queued => "queued"
    case Processing => "processing"
    case Completed => "completed"
    case Failed => "failed"
  }

  datatype ClientVideo = ClientVideo(
    id: string,
    userId: string,
    youtubeUrl: string,
    title: Option<string>,
    duration: Option<int>,
    status: VideoStatus,
    errorMessage: Option<string>,
    createdAt: nat)

  /** JavaScript truthiness of a nullable text: present and non-empty. */
  predicate TextTruthy(s: Option<string>) {
    s.Some? && s.value != ""
  }
}
