/** The Last.fm request layer: `makeRequest`'s mapping of an upstream outcome
    to a result or an error, and the validation and limit clamps of
    `searchTracks` and `getSimilarTracks`. The HTTP call, the signed query
    string and the API key are an oracle: a function from the request
    parameters to the raw outcome. */
module LastfmRequests {
  import opened Common

  /** A Last.fm response body: data, or an error payload (`response.data.error` set). */
  datatype Body<+T> = Data(data: T) | ErrorBody

  /** The first element of `results.trackmatches.track`. */
  datatype SearchHit = SearchHit(name: string, artist: string)

  /** One element of `similartracks.track`. A field is `None` when it is absent
      or falsy; `matchScore` is the parsed value of a truthy match field. */
  datatype SimilarTrack = SimilarTrack(
    name: Option<string>, artist: Option<string>, url: Option<string>,
    matchScore: Option<real>, mbid: Option<string>)

  /** Query parameters of `track.search` and `track.getSimilar`. */
  datatype SearchParams = SearchParams(track: string, limit: nat, page: nat)
  datatype SimilarParams = SimilarParams(artist: string, track: string, limit: nat)

  datatype LastfmApi = LastfmApi(
    trackSearch: SearchParams -> Raw<Body<seq<SearchHit>>>,
    trackGetSimilar: SimilarParams -> Raw<Body<seq<SimilarTrack>>>)

  /** `makeRequest`'s outcome exactly as its code runs. The BadRequestException
      thrown for an error payload is caught by the same `try`; a NestJS
      HttpException keeps its body in the `response` property, so the
      status branch runs with an undefined status and rethrows it as a plain
      Error without a status. */
  function ClassifyAsWritten<T>(raw: Raw<Body<T>>): (r: Result<T, Error>)
    ensures r.Success? <==> raw.Payload? && raw.data.Data?
    ensures r.Success? ==> r.value == raw.data.data
    ensures raw == Payload(ErrorBody) ==> r == Failure(UpstreamFailure(None))
    ensures raw.HttpStatus? ==>
      (raw.status in {400, 401, 403} ==> r == Failure(Rejected(raw.status))) &&
      (raw.status !in {400, 401, 403} ==> r == Failure(UpstreamFailure(Some(raw.status))))
    ensures raw.NoResponse? ==> r == Failure(Unreachable)
    ensures raw.NotSent? ==> r == Failure(SetupFailed)
  {
    match raw
    case Payload(Data(d)) => Success(d)
    case Payload(ErrorBody) => Failure(UpstreamFailure(None))
    case HttpStatus(s) =>
      if s == 400 || s == 401 || s == 403 then Failure(Rejected(s))
      else Failure(UpstreamFailure(Some(s)))
    case NoResponse => Failure(Unreachable)
    case NotSent => Failure(SetupFailed)
  }

  /** `makeRequest`'s outcome as its code intends it: an error payload is a
      bad request; 400, 401 and 403 are bad requests; any other status is an
      error carrying that status; no response and a failed setup are errors
      of their own. */
  function Classify<T>(raw: Raw<Body<T>>): (r: Result<T, Error>)
    ensures r.Success? <==> raw.Payload? && raw.data.Data?
    ensures r.Success? ==> r.value == raw.data.data
    ensures raw == Payload(ErrorBody) ==> r == Failure(ApiErrorPayload)
    ensures raw.HttpStatus? ==>
      (raw.status in {400, 401, 403} ==> r == Failure(Rejected(raw.status))) &&
      (raw.status !in {400, 401, 403} ==> r == Failure(UpstreamFailure(Some(raw.status))))
    ensures raw.NoResponse? ==> r == Failure(Unreachable)
    ensures raw.NotSent? ==> r == Failure(SetupFailed)
  {
    match raw
    case Payload(Data(d)) => Success(d)
    case Payload(ErrorBody) => Failure(ApiErrorPayload)
    case HttpStatus(s) =>
      if s == 400 || s == 401 || s == 403 then Failure(Rejected(s))
      else Failure(UpstreamFailure(Some(s)))
    case NoResponse => Failure(Unreachable)
    case NotSent => Failure(SetupFailed)
  }

  /** The code as written turns an error payload into a statusless server
      error instead of a bad request; on every other outcome it agrees with
      the intended mapping. */
  lemma ErrorPayloadLosesBadRequest<T>(raw: Raw<Body<T>>)
    ensures raw == Payload(ErrorBody) ==>
      ClassifyAsWritten(raw) == Failure(UpstreamFailure(None)) &&
      Classify(raw) == Failure(ApiErrorPayload)
    ensures raw != Payload(ErrorBody) ==> ClassifyAsWritten(raw) == Classify(raw)
  {
  }

  // ---------------------------------------------------------------------------
  // searchTracks and getSimilarTracks

  /** The parameters `searchTracks` sends: none for a blank query; otherwise the
      query, the page (default 1) and the limit (default 30) clamped to 30. */
  function SearchRequest(query: string, limit: Option<nat>, page: Option<nat>): (p: Option<SearchParams>)
    ensures p.None? <==> IsBlank(query)
    ensures p.Some? ==> p.value.track == query && p.value.page == page.GetOr(1)
    ensures p.Some? ==> p.value.limit <= 30
    ensures p.Some? && limit.Some? && limit.value <= 30 ==> p.value.limit == limit.value
    ensures p.Some? && limit.Some? && limit.value > 30 ==> p.value.limit == 30
    ensures p.Some? && limit.None? ==> p.value.limit == 30
  {
    if IsBlank(query) then None
    else Some(SearchParams(query, Min(limit.GetOr(30), 30), page.GetOr(1)))
  }

  function SearchTracks(api: LastfmApi, query: string, limit: Option<nat>, page: Option<nat>)
    : (r: Result<seq<SearchHit>, Error>)
    ensures IsBlank(query) ==> r == Failure(BadRequest(EmptyQuery))
    ensures !IsBlank(query) ==> r == ClassifyAsWritten(api.trackSearch(SearchRequest(query, limit, page).value))
  {
    match SearchRequest(query, limit, page)
    case None => Failure(BadRequest(EmptyQuery))
    case Some(p) => ClassifyAsWritten(api.trackSearch(p))
  }

  /** The parameters `getSimilarTracks` sends: none unless both the artist and
      the track are non-empty; otherwise the limit (default 50) clamped to 1000. */
  function SimilarRequest(artist: string, track: string, limit: Option<nat>): (p: Option<SimilarParams>)
    ensures p.None? <==> artist == "" || track == ""
    ensures p.Some? ==> p.value.artist == artist && p.value.track == track
    ensures p.Some? ==> p.value.limit <= 1000
    ensures p.Some? && limit.Some? && limit.value <= 1000 ==> p.value.limit == limit.value
    ensures p.Some? && limit.Some? && limit.value > 1000 ==> p.value.limit == 1000
    ensures p.Some? && limit.None? ==> p.value.limit == 50
  {
    if artist == "" || track == "" then None
    else Some(SimilarParams(artist, track, Min(limit.GetOr(50), 1000)))
  }

  function GetSimilarTracks(api: LastfmApi, artist: string, track: string, limit: Option<nat>)
    : (r: Result<seq<SimilarTrack>, Error>)
    ensures artist == "" || track == "" ==> r == Failure(BadRequest(MissingArtistOrTrack))
    ensures artist != "" && track != "" ==>
      r == ClassifyAsWritten(api.trackGetSimilar(SimilarRequest(artist, track, limit).value))
  {
    match SimilarRequest(artist, track, limit)
    case None => Failure(BadRequest(MissingArtistOrTrack))
    case Some(p) => ClassifyAsWritten(api.trackGetSimilar(p))
  }
}
