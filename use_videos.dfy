/**
 * src/hooks/useVideos.ts: the query keys of the video cache, the polling
 * rule of the list query, the list query's guard and the create mutation,
 * which inserts a queued row and then starts the edge function without
 * waiting for it. The query library and its cache are not modelled; the
 * hosted table is the one the edge function reaches.
 */
module UseVideos {
  import opened Wrappers
  import opened ClientTypes
  import Store
  import EdgeFunction

  // ---- videoKeys ----

  type QueryKey = seq<string>

  const AllKey: QueryKey := ["videos"]

  function ListKey(userId: string): (k: QueryKey)
    ensures |k| == 3 && k[..1] == AllKey && k[1] == "list" && k[2] == userId
  {
    AllKey + ["list", userId]
  }

  function DetailKey(videoId: string): (k: QueryKey)
    ensures |k| == 3 && k[..1] == AllKey && k[1] == "detail" && k[2] == videoId
  {
    AllKey + ["detail", videoId]
  }

  function ContentKey(videoId: string): (k: QueryKey)
    ensures |k| == 3 && k[..1] == AllKey && k[1] == "content" && k[2] == videoId
  {
    AllKey + ["content", videoId]
  }

  /**
   * Every key lies under `['videos']`, so invalidating that prefix reaches
   * them all, and different keys never collide: the kind and the id are
   * both read back from a key.
   */
  lemma KeysDistinct(a: string, b: string)
    ensures ListKey(a) == ListKey(b) ==> a == b
    ensures DetailKey(a) == DetailKey(b) ==> a == b
    ensures ContentKey(a) == ContentKey(b) ==> a == b
    ensures ListKey(a) != DetailKey(b) && ListKey(a) != ContentKey(b) && DetailKey(a) != ContentKey(b)
  {
    assert ListKey(a)[1] != DetailKey(b)[1];
    assert ListKey(a)[1] != ContentKey(b)[1];
    assert DetailKey(a)[1] != ContentKey(b)[1];
  }

  /** The list query's key: the signed-in user's id, or '' without one. */
  function ListQueryKey(userId: Option<string>): (k: QueryKey)
    ensures userId.Some? ==> k == ListKey(userId.value)
    ensures userId.None? ==> k == ListKey("")
  {
    ListKey(userId.GetOr(""))
  }

  // ---- the list query ----

  /** A status that will still change: queued or processing. */
  predicate Unfinished(s: VideoStatus) {
    s == Queued || s == Processing
  }

  /** `videos.some(v => v.status === 'queued' || v.status === 'processing')`. */
  function SomeUnfinished(videos: seq<ClientVideo>): (r: bool)
    ensures r <==> exists i :: 0 <= i < |videos| && Unfinished(videos[i].status)
  {
    if videos == [] then false
    else if Unfinished(videos[0].status) then true
    else
      var rest := SomeUnfinished(videos[1..]);
      assert forall i :: 1 <= i < |videos| ==> videos[i] == videos[1..][i - 1];
      rest
  }

  /** `refetchInterval`: 5000 milliseconds while some video is unfinished, else `false` (None), also before data arrives. */
  function RefetchInterval(data: Option<seq<ClientVideo>>): (r: Option<nat>)
    ensures r.Some? <==> data.Some? && exists i :: 0 <= i < |data.value| && Unfinished(data.value[i].status)
    ensures r.Some? ==> r.value == 5000
  {
    if data.Some? && SomeUnfinished(data.value) then Some(5000) else None
  }

  /** Polling stops exactly when every listed video is completed or failed. */
  lemma PollingStopsWhenSettled(videos: seq<ClientVideo>)
    ensures RefetchInterval(Some(videos)).None? <==>
      forall i :: 0 <= i < |videos| ==> videos[i].status == Completed || videos[i].status == Failed
  {
    if RefetchInterval(Some(videos)).Some? {
      var i :| 0 <= i < |videos| && Unfinished(videos[i].status);
      assert !(videos[i].status == Completed || videos[i].status == Failed);
    }
  }

  /** `queryFn` of the list: no query without a user id; otherwise the rows the table returns, [] for null data. */
  function ListQuery(userId: Option<string>, select: string -> Result<Option<seq<ClientVideo>>, string>):
    (r: Result<seq<ClientVideo>, string>)
    ensures userId.None? || userId.value == "" ==> r == Ok([])
    ensures userId.Some? && userId.value != "" ==>
      (select(userId.value).Err? ==> r == Err(select(userId.value).error))
      && (select(userId.value).Ok? ==> r == Ok(select(userId.value).value.GetOr([])))
  {
    if userId.None? || userId.value == "" then Ok([])
    else match select(userId.value)
      case Err(e) => Err(e)
      case Ok(rows) => Ok(rows.GetOr([]))
  }

  // ---- useCreateVideo ----

  /** What the browser has asked of the edge function, in order. */
  class Invocations {
    var sent: seq<EdgeFunction.Request>

    constructor ()
      ensures sent == []
    {
      sent := [];
    }

    /**
     * `mutationFn`: without a user id it fails before any write; otherwise it
     * inserts a queued row (the id and time are the database's) and, once the
     * insert succeeds, sends the edge function that row's id. The send is not
     * awaited and its failure is only logged, so it never fails the mutation.
     */
    method CreateVideo(db: EdgeFunction.HostedTables, userId: Option<string>, youtubeUrl: string,
                       id: string, now: nat, insertError: Option<string>)
      returns (r: Result<ClientVideo, string>)
      modifies db`videos, this
      ensures userId.None? || userId.value == "" ==>
        r == Err("User not authenticated") && db.videos == old(db.videos) && sent == old(sent)
      ensures userId.Some? && userId.value != "" && !db.online ==>
        r == Err(Store.Unreachable.Message()) && db.videos == old(db.videos) && sent == old(sent)
      ensures userId.Some? && userId.value != "" && db.online && id in old(db.videos) ==>
        r == Err(Store.DuplicateKey.Message()) && db.videos == old(db.videos) && sent == old(sent)
      ensures userId.Some? && userId.value != "" && db.online && id !in old(db.videos) && insertError.Some? ==>
        r == Err(insertError.value) && db.videos == old(db.videos) && sent == old(sent)
      ensures r.Ok? <==> userId.Some? && userId.value != "" && db.online && id !in old(db.videos) && insertError.None?
      ensures r.Ok? ==>
        r.value == ClientVideo(id, userId.value, youtubeUrl, None, None, Queued, None, now)
        && db.videos == old(db.videos)[id := r.value]
        && sent == old(sent) + [EdgeFunction.Invoke(Ok(Some(id)))]
    {
      if userId.None? || userId.value == "" {
        return Err("User not authenticated");
      }
      if !db.online {
        return Err(Store.Unreachable.Message());
      }
      if id in db.videos {
        return Err(Store.DuplicateKey.Message());
      }
      if insertError.Some? {
        return Err(insertError.value);
      }
      var row := ClientVideo(id, userId.value, youtubeUrl, None, None, Queued, None, now);
      db.videos := db.videos[id := row];
      sent := sent + [EdgeFunction.Invoke(Ok(Some(id)))];
      return Ok(row);
    }
  }

  /** A created row starts the polling of the list that holds it. */
  lemma NewRowPolls(videos: seq<ClientVideo>, row: ClientVideo)
    requires row.status == Queued
    ensures RefetchInterval(Some(videos + [row])) == Some(5000)
  {
    assert (videos + [row])[|videos|] == row;
  }
}
