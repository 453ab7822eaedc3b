/** The video-metadata service: `searchVideos` and `getVideoDetails`, two
    read-through caches in front of the YouTube Data API. A cache hit is
    returned as stored; a miss fetches, reshapes the response, stores it for
    an hour under its key and returns it; any failure is rethrown with a
    prefix naming the operation. */
module YouTubeService {
  import opened Wrappers
  import opened Strings

  const SearchKeyPrefix := "youtube:search:"
  const VideoKeyPrefix := "youtube:video:"
  /** `CACHE_EXPIRATION`, in seconds. */
  const CacheExpiration: nat := 3600
  const DefaultMaxResults: int := 10
  const SearchErrorPrefix := "YouTube API Error: "
  const DetailsErrorPrefix := "Video details error: "
  /** What reading `contentDetails` of `items[0]` throws when `items` is empty. */
  const NoItemMessage := "Cannot read properties of undefined (reading 'contentDetails')"

  /** The `maxResults` value handed to the API: a number, or the raw
      query-string text the route passes on. */
  datatype MaxResults = Count(n: int) | Text(s: string)

  /** The fields of one `search` response item that are read. */
  datatype SearchItem = SearchItem(
    videoId: string,
    title: string,
    channelTitle: string,
    mediumThumbnail: Option<string>,
    publishedAt: string,
    description: string)

  datatype SearchResult = SearchResult(
    videoId: string,
    title: string,
    channel: string,
    thumbnail: Option<string>,
    publishedAt: string,
    description: string)

  /** The fields of one `videos` response item that are read. */
  datatype VideoItem = VideoItem(
    duration: string,
    viewCount: Option<string>,
    likeCount: Option<string>,
    commentCount: Option<string>,
    tags: Option<seq<string>>)

  datatype VideoDetails = VideoDetails(
    duration: string,
    views: Option<string>,
    likes: Option<string>,
    comments: Option<string>,
    tags: seq<string>)

  /** What is stored under a key, and for how long. */
  datatype Payload = SearchPayload(results: seq<SearchResult>) | DetailsPayload(details: VideoDetails)
  datatype Entry = Entry(payload: Payload, ttl: nat)

  function SearchKey(query: string): (k: string)
    ensures StartsWith(k, SearchKeyPrefix) && k[|SearchKeyPrefix|..] == query
  {
    SearchKeyPrefix + query
  }

  function VideoKey(videoId: string): (k: string)
    ensures StartsWith(k, VideoKeyPrefix) && k[|VideoKeyPrefix|..] == videoId
  {
    VideoKeyPrefix + videoId
  }

  /** No key of one family starts with the other family's prefix: the two
      prefixes part at their ninth character. */
  lemma PrefixesExclude(k: string)
    ensures !(StartsWith(k, SearchKeyPrefix) && StartsWith(k, VideoKeyPrefix))
  {
    if StartsWith(k, SearchKeyPrefix) {
      assert k[8] == SearchKeyPrefix[8] == 's';
      assert VideoKeyPrefix[8] == 'v';
    }
  }

  /** Search keys and video keys never collide. */
  lemma KeyFamiliesDisjoint(query: string, videoId: string)
    ensures SearchKey(query) != VideoKey(videoId)
  {
    PrefixesExclude(SearchKey(query));
  }

  /** Every key of a family holds that family's payload. */
  predicate CacheValid(cache: map<string, Entry>) {
    forall k :: k in cache ==>
      (StartsWith(k, SearchKeyPrefix) ==> cache[k].payload.SearchPayload?) &&
      (StartsWith(k, VideoKeyPrefix) ==> cache[k].payload.DetailsPayload?)
  }

  /** One element of `items.map(...)`; `toIso` is
      `new Date(publishedAt).toISOString()`. */
  function ToResult(item: SearchItem, toIso: string -> string): SearchResult {
    SearchResult(item.videoId, item.title, item.channelTitle, item.mediumThumbnail, toIso(item.publishedAt), item.description)
  }

  /** `items.map(...)`: the same items in the same order, each field copied
      from its own item. */
  function Transform(items: seq<SearchItem>, toIso: string -> string): (r: seq<SearchResult>)
    ensures |r| == |items|
    ensures forall i :: 0 <= i < |items| ==>
      && r[i].videoId == items[i].videoId
      && r[i].title == items[i].title
      && r[i].channel == items[i].channelTitle
      && r[i].thumbnail == items[i].mediumThumbnail
      && r[i].publishedAt == toIso(items[i].publishedAt)
      && r[i].description == items[i].description
  {
    if items == [] then [] else [ToResult(items[0], toIso)] + Transform(items[1..], toIso)
  }

  /** The `details` record built from the first item; `tags` falls back to
      the empty list. */
  function ToDetails(v: VideoItem): (d: VideoDetails)
    ensures d.duration == v.duration && d.views == v.viewCount && d.likes == v.likeCount
    ensures d.comments == v.commentCount
    ensures d.tags == if v.tags.Some? then v.tags.value else []
  {
    VideoDetails(v.duration, v.viewCount, v.likeCount, v.commentCount, v.tags.GetOr([]))
  }

  /** A result and the cache after the call. */
  datatype Step<T> = Step(result: Result<T, string>, cache: map<string, Entry>)

  /** `searchVideos(query, maxResults)`; `fetch` is the API call (the items,
      or the message of what it throws). */
  function Search(cache: map<string, Entry>, query: string, maxResults: Option<MaxResults>,
                  fetch: (string, MaxResults) -> Result<seq<SearchItem>, string>, toIso: string -> string)
    : (s: Step<seq<SearchResult>>)
    requires CacheValid(cache)
    ensures CacheValid(s.cache)
    ensures SearchKey(query) in cache ==> s == Step(Success(cache[SearchKey(query)].payload.results), cache)
    ensures s.result.Failure? ==> s.cache == cache
    ensures s.result.Success? ==>
      SearchKey(query) in s.cache && s.cache[SearchKey(query)].payload == SearchPayload(s.result.value)
    ensures forall k :: k != SearchKey(query) ==> (k in s.cache <==> k in cache)
    ensures forall k :: k != SearchKey(query) && k in cache ==> s.cache[k] == cache[k]
    ensures var f := fetch(query, maxResults.GetOr(Count(DefaultMaxResults)));
      SearchKey(query) !in cache && f.Failure? ==> s.result == Failure(SearchErrorPrefix + f.error)
    ensures var f := fetch(query, maxResults.GetOr(Count(DefaultMaxResults)));
      SearchKey(query) !in cache && f.Success? ==>
      var results := Transform(f.value, toIso);
      s == Step(Success(results), cache[SearchKey(query) := Entry(SearchPayload(results), CacheExpiration)])
  {
    var key := SearchKey(query);
    if key in cache then Step(Success(cache[key].payload.results), cache)
    else match fetch(query, maxResults.GetOr(Count(DefaultMaxResults)))
      case Failure(m) => Step(Failure(SearchErrorPrefix + m), cache)
      case Success(items) =>
        var results := Transform(items, toIso);
        PrefixesExclude(key);
        Step(Success(results), cache[key := Entry(SearchPayload(results), CacheExpiration)])
  }

  /** `getVideoDetails(videoId)`; `fetch` is the API call. */
  function Details(cache: map<string, Entry>, videoId: string,
                   fetch: string -> Result<seq<VideoItem>, string>): (s: Step<VideoDetails>)
    requires CacheValid(cache)
    ensures CacheValid(s.cache)
    ensures VideoKey(videoId) in cache ==> s == Step(Success(cache[VideoKey(videoId)].payload.details), cache)
    ensures s.result.Failure? ==> s.cache == cache
    ensures s.result.Success? ==>
      VideoKey(videoId) in s.cache && s.cache[VideoKey(videoId)].payload == DetailsPayload(s.result.value)
    ensures forall k :: k != VideoKey(videoId) ==> (k in s.cache <==> k in cache)
    ensures forall k :: k != VideoKey(videoId) && k in cache ==> s.cache[k] == cache[k]
    ensures VideoKey(videoId) !in cache && fetch(videoId).Failure? ==>
      s.result == Failure(DetailsErrorPrefix + fetch(videoId).error)
    ensures VideoKey(videoId) !in cache && fetch(videoId) == Success([]) ==>
      s.result == Failure(DetailsErrorPrefix + NoItemMessage)
    ensures VideoKey(videoId) !in cache && fetch(videoId).Success? && fetch(videoId).value != [] ==>
      var details := ToDetails(fetch(videoId).value[0]);
      s == Step(Success(details), cache[VideoKey(videoId) := Entry(DetailsPayload(details), CacheExpiration)])
  {
    var key := VideoKey(videoId);
    if key in cache then Step(Success(cache[key].payload.details), cache)
    else match fetch(videoId)
      case Failure(m) => Step(Failure(DetailsErrorPrefix + m), cache)
      case Success(items) =>
        if items == [] then Step(Failure(DetailsErrorPrefix + NoItemMessage), cache)
        else
          var details := ToDetails(items[0]);
          PrefixesExclude(key);
          Step(Success(details), cache[key := Entry(DetailsPayload(details), CacheExpiration)])
  }

  /** A miss that succeeds writes the reshaped response with the one-hour
      expiry, and a repeated search, whatever its `maxResults`, is then
      answered from the cache with the same value and no change. */
  lemma SearchIsReadThrough(cache: map<string, Entry>, query: string,
                            m1: Option<MaxResults>, m2: Option<MaxResults>,
                            f1: (string, MaxResults) -> Result<seq<SearchItem>, string>,
                            f2: (string, MaxResults) -> Result<seq<SearchItem>, string>,
                            iso1: string -> string, iso2: string -> string)
    requires CacheValid(cache)
    requires SearchKey(query) !in cache
    requires Search(cache, query, m1, f1, iso1).result.Success?
    ensures var s1 := Search(cache, query, m1, f1, iso1);
      && f1(query, m1.GetOr(Count(DefaultMaxResults))).Success?
      && s1.result.value == Transform(f1(query, m1.GetOr(Count(DefaultMaxResults))).value, iso1)
      && s1.cache == cache[SearchKey(query) := Entry(SearchPayload(s1.result.value), CacheExpiration)]
      && Search(s1.cache, query, m2, f2, iso2) == s1
  {
  }

  /** The same for video details. */
  lemma DetailsIsReadThrough(cache: map<string, Entry>, videoId: string,
                             f1: string -> Result<seq<VideoItem>, string>,
                             f2: string -> Result<seq<VideoItem>, string>)
    requires CacheValid(cache)
    requires VideoKey(videoId) !in cache
    requires Details(cache, videoId, f1).result.Success?
    ensures var s1 := Details(cache, videoId, f1);
      && f1(videoId).Success? && f1(videoId).value != []
      && s1.result.value == ToDetails(f1(videoId).value[0])
      && s1.cache == cache[VideoKey(videoId) := Entry(DetailsPayload(s1.result.value), CacheExpiration)]
      && Details(s1.cache, videoId, f2) == s1
  {
  }

  /** The Redis client, modelled as the key-value map it holds. Expiry over
      time is not modelled; each entry records the TTL it was written with. */
  class RedisCache {
    var entries: map<string, Entry>

    constructor (entries: map<string, Entry>)
      ensures this.entries == entries
    {
      this.entries := entries;
    }

    /** `redis.get(key)` */
    function Get(key: string): (r: Option<Payload>)
      reads this
      ensures r.Some? <==> key in entries
      ensures r.Some? ==> r.value == entries[key].payload
    {
      if key in entries then Some(entries[key].payload) else None
    }

    /** `redis.setex(key, ttl, value)` */
    method SetEx(key: string, ttl: nat, value: Payload)
      modifies this
      ensures entries == old(entries)[key := Entry(value, ttl)]
    {
      entries := entries[key := Entry(value, ttl)];
    }
  }

  /** `searchVideos(query, maxResults = 10)` against the client. */
  method SearchVideos(redis: RedisCache, query: string, maxResults: Option<MaxResults>,
                      fetch: (string, MaxResults) -> Result<seq<SearchItem>, string>, toIso: string -> string)
    returns (r: Result<seq<SearchResult>, string>)
    requires CacheValid(redis.entries)
    modifies redis
    ensures var s := Search(old(redis.entries), query, maxResults, fetch, toIso);
      r == s.result && redis.entries == s.cache
  {
    var cacheKey := SearchKey(query);
    var cached := redis.Get(cacheKey);
    if cached.Some? {
      return Success(cached.value.results);
    }
    var response := fetch(query, maxResults.GetOr(Count(DefaultMaxResults)));
    if response.Failure? {
      return Failure(SearchErrorPrefix + response.error);
    }
    var results := Transform(response.value, toIso);
    redis.SetEx(cacheKey, CacheExpiration, SearchPayload(results));
    return Success(results);
  }

  /** `getVideoDetails(videoId)` against the client. */
  method GetVideoDetails(redis: RedisCache, videoId: string, fetch: string -> Result<seq<VideoItem>, string>)
    returns (r: Result<VideoDetails, string>)
    requires CacheValid(redis.entries)
    modifies redis
    ensures var s := Details(old(redis.entries), videoId, fetch);
      r == s.result && redis.entries == s.cache
  {
    var cacheKey := VideoKey(videoId);
    var cached := redis.Get(cacheKey);
    if cached.Some? {
      return Success(cached.value.details);
    }
    var response := fetch(videoId);
    if response.Failure? {
      return Failure(DetailsErrorPrefix + response.error);
    }
    if response.value == [] {
      return Failure(DetailsErrorPrefix + NoItemMessage);
    }
    var details := ToDetails(response.value[0]);
    redis.SetEx(cacheKey, CacheExpiration, DetailsPayload(details));
    return Success(details);
  }
}
