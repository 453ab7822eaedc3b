/** The two routes of the video-metadata service: `GET /search` checks that
    there is a query, defaults `max` to 10 and answers with the search
    results; `GET /video/:id` hands the id to the service unchecked. Any
    error the service throws becomes a 500 carrying its message. */
module YouTubeController {
  import opened Wrappers
  import opened Strings
  import opened Http
  import opened YouTubeService

  const MsgQueryRequired := "Search query required"

  /** The JSON bodies the routes send. */
  datatype Body = ResultsBody(results: seq<SearchResult>) | DetailsBody(details: VideoDetails) | ErrorBody(error: string)

  /** `max || 10`: a missing or empty `max` becomes the number 10, anything
      else is passed on as the text it is. */
  function MaxOrDefault(max: Option<string>): (m: MaxResults)
    ensures Truthy(max) ==> m == Text(max.value)
    ensures !Truthy(max) ==> m == Count(DefaultMaxResults)
  {
    if Truthy(max) then Text(max.value) else Count(DefaultMaxResults)
  }

  /** `GET /search?q=...&max=...` */
  method SearchRoute(q: Option<string>, max: Option<string>, redis: RedisCache,
                     fetch: (string, MaxResults) -> Result<seq<SearchItem>, string>, toIso: string -> string,
                     res: Response<Body>)
    requires CacheValid(redis.entries)
    modifies redis, res
    ensures res.cookies == old(res.cookies)
    ensures !Truthy(q) ==>
      res.status == 400 && res.body == Some(ErrorBody(MsgQueryRequired)) && redis.entries == old(redis.entries)
    ensures Truthy(q) ==>
      var s := Search(old(redis.entries), q.value, Some(MaxOrDefault(max)), fetch, toIso);
      && redis.entries == s.cache
      && match s.result
         case Success(rs) => res.status == old(res.status) && res.body == Some(ResultsBody(rs))
         case Failure(m) => res.status == 500 && res.body == Some(ErrorBody(m))
  {
    if !Truthy(q) {
      res.Status(400);
      res.Json(ErrorBody(MsgQueryRequired));
      return;
    }
    var results := SearchVideos(redis, q.value, Some(MaxOrDefault(max)), fetch, toIso);
    match results
    case Success(rs) =>
      res.Json(ResultsBody(rs));
    case Failure(m) =>
      res.Status(500);
      res.Json(ErrorBody(m));
  }

  /** `GET /video/:id`: the id goes to the service as it came, without
      `validateYouTubeId`. */
  method VideoRoute(id: string, redis: RedisCache, fetch: string -> Result<seq<VideoItem>, string>,
                    res: Response<Body>)
    requires CacheValid(redis.entries)
    modifies redis, res
    ensures res.cookies == old(res.cookies)
    ensures var s := Details(old(redis.entries), id, fetch);
      && redis.entries == s.cache
      && match s.result
         case Success(d) => res.status == old(res.status) && res.body == Some(DetailsBody(d))
         case Failure(m) => res.status == 500 && res.body == Some(ErrorBody(m))
  {
    var details := GetVideoDetails(redis, id, fetch);
    match details
    case Success(d) =>
      res.Json(DetailsBody(d));
    case Failure(m) =>
      res.Status(500);
      res.Json(ErrorBody(m));
  }
}
