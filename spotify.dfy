/** `SpotifyService`: the status classification of `searchTracks` and
    `getRecommendations`, the query `getRecommendations` assembles, the seed
    collection loop of `spiceUpPlaylist` and the per-mode seed table of
    `getDiversityParams`. The access token and the two HTTP calls are an
    oracle from the outgoing query to the raw outcome. */
module Spotify {
  import opened Common
  import opened Sequences

  datatype Artist = Artist(name: string, id: string)

  /** The fields of a track the service relies on. */
  datatype Track = Track(id: string, name: string, artists: seq<Artist>)

  datatype Seed = Seed(id: string, kind: string, initialPoolSize: int)

  datatype Recommendations = Recommendations(seeds: seq<Seed>, tracks: seq<Track>)

  /** The query string of `GET /search` (`type=track` is implied). */
  datatype SearchQuery = SearchQuery(q: string, limit: nat)

  /** A value of the recommendation query parameters. */
  datatype ParamValue = Text(text: string) | Number(number: real)

  type Params = map<string, ParamValue>

  datatype SpotifyApi = SpotifyApi(
    search: SearchQuery -> Raw<seq<Track>>,
    recommendations: Params -> Raw<Recommendations>)

  // ---------------------------------------------------------------------------
  // Status classification

  /** Statuses `searchTracks` turns into a bad request. */
  const SearchRejects: set<int> := {400, 401, 403, 429}

  /** Statuses `getRecommendations` turns into a bad request: 404 as well. */
  const RecommendationRejects: set<int> := {400, 401, 403, 404, 429}

  /** The catch block: a status in `rejects` is a bad request, any other
      status an error carrying it; no response and a failed setup are errors
      of their own. */
  function ClassifyWith<T>(raw: Raw<T>, rejects: set<int>): (r: Result<T, Error>)
    ensures r.Success? <==> raw.Payload?
    ensures raw.Payload? ==> r.value == raw.data
    ensures raw.HttpStatus? && raw.status in rejects ==> r == Failure(Rejected(raw.status))
    ensures raw.HttpStatus? && raw.status !in rejects ==> r == Failure(UpstreamFailure(Some(raw.status)))
    ensures raw.NoResponse? ==> r == Failure(Unreachable)
    ensures raw.NotSent? ==> r == Failure(SetupFailed)
  {
    match raw
    case Payload(d) => Success(d)
    case HttpStatus(s) => if s in rejects then Failure(Rejected(s)) else Failure(UpstreamFailure(Some(s)))
    case NoResponse => Failure(Unreachable)
    case NotSent => Failure(SetupFailed)
  }

  /** The two endpoints classify every outcome alike except a 404, which only
      the recommendation endpoint reports as a bad request. */
  lemma ClassificationsDifferOnlyAt404<T>(raw: Raw<T>)
    ensures ClassifyWith(raw, SearchRejects) != ClassifyWith(raw, RecommendationRejects) <==> raw == HttpStatus(404)
    ensures raw == HttpStatus(404) ==>
      ClassifyWith(raw, SearchRejects) == Failure(UpstreamFailure(Some(404))) &&
      ClassifyWith(raw, RecommendationRejects) == Failure(Rejected(404))
  {
    if raw.HttpStatus? && raw.status != 404 {
      assert raw.status in SearchRejects <==> raw.status in RecommendationRejects;
    }
  }

  // ---------------------------------------------------------------------------
  // searchTracks

  /** `searchTracks`: a blank query is rejected before any call; otherwise the
      limit defaults to 10 (also for 0) and the call's outcome is classified. */
  function SearchTracks(api: SpotifyApi, query: string, limit: Option<nat>): (r: Result<seq<Track>, Error>)
    ensures IsBlank(query) ==> r == Failure(BadRequest(EmptyQuery))
    ensures !IsBlank(query) ==>
      r == ClassifyWith(api.search(SearchQuery(query, if limit.None? || limit == Some(0) then 10 else limit.value)), SearchRejects)
  {
    if IsBlank(query) then Failure(BadRequest(EmptyQuery))
    else
      var n := if limit.Some? && limit.value != 0 then limit.value else 10;
      ClassifyWith(api.search(SearchQuery(query, n)), SearchRejects)
  }

  // ---------------------------------------------------------------------------
  // getRecommendations

  /** A recommendation query. `extra` lists the query's other keys in order,
      each with its numeric value or `None` for undefined or null. */
  datatype RecommendationQuery = RecommendationQuery(
    seedTracks: Option<string>, seedArtists: Option<string>, seedGenres: Option<string>,
    limit: Option<nat>, market: Option<string>,
    targetDanceability: Option<real>, targetPopularity: Option<real>,
    extra: seq<(string, Option<real>)>)

  /** The keys the `forEach` over the query never copies. */
  const Reserved: set<string> :=
    {"seed_tracks", "seed_artists", "seed_genres", "limit", "market", "target_danceability", "target_popularity"}

  /** At least one seed list is present and not blank. */
  predicate HasSeeds(query: RecommendationQuery) {
    || (query.seedTracks.Some? && !IsBlank(query.seedTracks.value))
    || (query.seedArtists.Some? && !IsBlank(query.seedArtists.value))
    || (query.seedGenres.Some? && !IsBlank(query.seedGenres.value))
  }

  /** The value of the last entry of `extra` with key `k` and a defined value. */
  function LastDefined(extra: seq<(string, Option<real>)>, k: string): (v: Option<real>)
    ensures v.Some? <==> exists i | 0 <= i < |extra| :: extra[i].0 == k && extra[i].1.Some?
    ensures v.Some? ==>
      exists i | 0 <= i < |extra| ::
        extra[i] == (k, v) && forall j | i < j < |extra| :: !(extra[j].0 == k && extra[j].1.Some?)
    decreases |extra|
  {
    if extra == [] then None
    else
      var last := extra[|extra| - 1];
      var init := extra[..|extra| - 1];
      assert forall i | 0 <= i < |init| :: init[i] == extra[i];
      if last.0 == k && last.1.Some? then last.1 else LastDefined(init, k)
  }

  /** `Object.keys(query).forEach(...)` over the extra keys, starting from `params`. */
  function CopyExtras(params: Params, extra: seq<(string, Option<real>)>): (r: Params)
    ensures params.Keys <= r.Keys
    ensures forall k | k in r && k !in params :: k !in Reserved
    ensures forall k | k in Reserved && k in params :: r[k] == params[k]
    decreases |extra|
  {
    if extra == [] then params
    else
      var p := CopyExtras(params, extra[..|extra| - 1]);
      var (k, v) := extra[|extra| - 1];
      if k !in Reserved && v.Some? then p[k := Number(v.value)] else p
  }

  /** The copy leaves the reserved keys alone and sets every other key to its
      last defined value. */
  lemma CopyExtrasFacts(params: Params, extra: seq<(string, Option<real>)>)
    ensures forall k | k in Reserved ::
      (k in CopyExtras(params, extra) <==> k in params) &&
      (k in params ==> CopyExtras(params, extra)[k] == params[k])
    ensures forall k | k !in Reserved && LastDefined(extra, k).Some? ::
      k in CopyExtras(params, extra) && CopyExtras(params, extra)[k] == Number(LastDefined(extra, k).value)
    ensures forall k | k !in Reserved && LastDefined(extra, k).None? ::
      (k in CopyExtras(params, extra) <==> k in params) &&
      (k in params ==> CopyExtras(params, extra)[k] == params[k])
  {
    forall k {
      CopyExtrasAt(params, extra, k);
    }
  }

  /** What the copy does to one key. */
  lemma {:induction false} CopyExtrasAt(params: Params, extra: seq<(string, Option<real>)>, k: string)
    ensures k in Reserved || LastDefined(extra, k).None? ==>
      (k in CopyExtras(params, extra) <==> k in params) &&
      (k in params ==> CopyExtras(params, extra)[k] == params[k])
    ensures k !in Reserved && LastDefined(extra, k).Some? ==>
      k in CopyExtras(params, extra) && CopyExtras(params, extra)[k] == Number(LastDefined(extra, k).value)
    decreases |extra|
  {
    if extra != [] {
      CopyExtrasAt(params, extra[..|extra| - 1], k);
    }
  }

  /** The reserved keys are seven different keys. */
  lemma ReservedKeysDistinct()
    ensures |Reserved| == 7
    ensures "limit" != "seed_tracks" && "limit" != "seed_artists" && "limit" != "seed_genres"
    ensures "limit" != "market" && "limit" != "target_danceability" && "limit" != "target_popularity"
    ensures "seed_tracks" != "seed_artists" && "seed_tracks" != "seed_genres" && "seed_tracks" != "market"
    ensures "seed_tracks" != "target_danceability" && "seed_tracks" != "target_popularity"
    ensures "seed_artists" != "seed_genres" && "seed_artists" != "market"
    ensures "seed_artists" != "target_danceability" && "seed_artists" != "target_popularity"
    ensures "seed_genres" != "market" && "seed_genres" != "target_danceability" && "seed_genres" != "target_popularity"
    ensures "market" != "target_danceability" && "market" != "target_popularity"
    ensures "target_danceability" != "target_popularity"
  {
    assert "limit"[0] == 'l' && "market"[0] == 'm';
    assert "seed_tracks"[5] == 't' && "seed_artists"[5] == 'a' && "seed_genres"[5] == 'g';
    assert "target_danceability"[7] == 'd' && "target_popularity"[7] == 'p';
  }

  /** The limit, the seed lists and the market, the first params assigned. */
  function SeedParams(query: RecommendationQuery): (p: Params)
    ensures p.Keys <= {"limit", "seed_tracks", "seed_artists", "seed_genres", "market"}
    ensures "limit" in p && p["limit"] == Number(EffectiveLimit(query.limit) as real)
    ensures ("seed_tracks" in p <==> Present(query.seedTracks)) &&
      ("seed_tracks" in p ==> p["seed_tracks"] == Text(query.seedTracks.value))
    ensures ("seed_artists" in p <==> Present(query.seedArtists)) &&
      ("seed_artists" in p ==> p["seed_artists"] == Text(query.seedArtists.value))
    ensures ("seed_genres" in p <==> Present(query.seedGenres)) &&
      ("seed_genres" in p ==> p["seed_genres"] == Text(query.seedGenres.value))
    ensures ("market" in p <==> Present(query.market)) &&
      ("market" in p ==> p["market"] == Text(query.market.value))
  {
    ReservedKeysDistinct();
    var p := map["limit" := Number(EffectiveLimit(query.limit) as real)];
    var p := if Present(query.seedTracks) then p["seed_tracks" := Text(query.seedTracks.value)] else p;
    var p := if Present(query.seedArtists) then p["seed_artists" := Text(query.seedArtists.value)] else p;
    var p := if Present(query.seedGenres) then p["seed_genres" := Text(query.seedGenres.value)] else p;
    if Present(query.market) then p["market" := Text(query.market.value)] else p
  }

  /** The params before the extra keys are copied: only reserved keys. */
  function NamedParams(query: RecommendationQuery): (p: Params)
    ensures p.Keys <= Reserved
    ensures "limit" in p && p["limit"] == Number(EffectiveLimit(query.limit) as real)
    ensures ("seed_tracks" in p <==> Present(query.seedTracks)) &&
      ("seed_tracks" in p ==> p["seed_tracks"] == Text(query.seedTracks.value))
    ensures ("seed_artists" in p <==> Present(query.seedArtists)) &&
      ("seed_artists" in p ==> p["seed_artists"] == Text(query.seedArtists.value))
    ensures ("seed_genres" in p <==> Present(query.seedGenres)) &&
      ("seed_genres" in p ==> p["seed_genres"] == Text(query.seedGenres.value))
    ensures ("market" in p <==> Present(query.market)) &&
      ("market" in p ==> p["market"] == Text(query.market.value))
    ensures ("target_danceability" in p <==> query.targetDanceability.Some?) &&
      ("target_danceability" in p ==> p["target_danceability"] == Number(query.targetDanceability.value))
    ensures ("target_popularity" in p <==> query.targetPopularity.Some?) &&
      ("target_popularity" in p ==> p["target_popularity"] == Number(query.targetPopularity.value))
  {
    ReservedKeysDistinct();
    var p := SeedParams(query);
    var p := if query.targetDanceability.Some? then p["target_danceability" := Number(query.targetDanceability.value)] else p;
    if query.targetPopularity.Some? then p["target_popularity" := Number(query.targetPopularity.value)] else p
  }

  /** The params with the extra keys copied: the reserved keys as named, every
      other key with its last defined value. */
  function WithExtras(query: RecommendationQuery): (p: Params)
    ensures forall k | k in Reserved ::
      (k in p <==> k in NamedParams(query)) && (k in p ==> p[k] == NamedParams(query)[k])
    ensures forall k | k !in Reserved ::
      (k in p <==> LastDefined(query.extra, k).Some?) &&
      (k in p ==> p[k] == Number(LastDefined(query.extra, k).value))
  {
    CopyExtrasFacts(NamedParams(query), query.extra);
    CopyExtras(NamedParams(query), query.extra)
  }

  /** The params `getRecommendations` sends: the clamped limit; the seed lists
      and the market only when non-empty; the two targets, defaulting to 0.5
      and 50; and every other key of the query that has a value. */
  function RecommendationParams(query: RecommendationQuery): (p: Params)
    ensures "limit" in p && p["limit"] == Number(EffectiveLimit(query.limit) as real)
    ensures ("seed_tracks" in p <==> Present(query.seedTracks)) &&
      ("seed_tracks" in p ==> p["seed_tracks"] == Text(query.seedTracks.value))
    ensures ("seed_artists" in p <==> Present(query.seedArtists)) &&
      ("seed_artists" in p ==> p["seed_artists"] == Text(query.seedArtists.value))
    ensures ("seed_genres" in p <==> Present(query.seedGenres)) &&
      ("seed_genres" in p ==> p["seed_genres"] == Text(query.seedGenres.value))
    ensures ("market" in p <==> Present(query.market)) &&
      ("market" in p ==> p["market"] == Text(query.market.value))
    ensures "target_danceability" in p && p["target_danceability"] == Number(query.targetDanceability.GetOr(0.5))
    ensures "target_popularity" in p && p["target_popularity"] == Number(query.targetPopularity.GetOr(50.0))
    ensures forall k | k !in Reserved ::
      (k in p <==> LastDefined(query.extra, k).Some?) &&
      (k in p ==> p[k] == Number(LastDefined(query.extra, k).value))
  {
    var p := WithExtras(query);
    assert "limit" in Reserved && "seed_tracks" in Reserved && "seed_artists" in Reserved;
    assert "seed_genres" in Reserved && "market" in Reserved;
    assert "target_danceability" in Reserved && "target_popularity" in Reserved;
    var p := if "target_danceability" in p then p else p["target_danceability" := Number(0.5)];
    if "target_popularity" in p then p else p["target_popularity" := Number(50.0)]
  }

  /** The assignments of `getRecommendations`' named params, field by field. */
  method AssignNamedParams(query: RecommendationQuery) returns (params: Params)
    ensures params == NamedParams(query)
  {
    ReservedKeysDistinct();
    params := map["limit" := Number(EffectiveLimit(query.limit) as real)];
    if Present(query.seedTracks) {
      params := params["seed_tracks" := Text(query.seedTracks.value)];
    }
    if Present(query.seedArtists) {
      params := params["seed_artists" := Text(query.seedArtists.value)];
    }
    if Present(query.seedGenres) {
      params := params["seed_genres" := Text(query.seedGenres.value)];
    }
    if Present(query.market) {
      params := params["market" := Text(query.market.value)];
    }
    assert params == SeedParams(query);
    if query.targetDanceability.Some? {
      params := params["target_danceability" := Number(query.targetDanceability.value)];
    }
    if query.targetPopularity.Some? {
      params := params["target_popularity" := Number(query.targetPopularity.value)];
    }
  }

  /** The `forEach` over the query's other keys, copying each defined value
      whose key is not reserved. */
  method CopyExtraKeys(params: Params, extra: seq<(string, Option<real>)>) returns (params': Params)
    ensures params' == CopyExtras(params, extra)
  {
    params' := params;
    assert extra[..0] == [];
    for i := 0 to |extra|
      invariant params' == CopyExtras(params, extra[..i])
    {
      assert extra[..i + 1][..i] == extra[..i];
      var (key, value) := extra[i];
      if key !in Reserved && value.Some? {
        params' := params'[key := Number(value.value)];
      }
    }
    assert extra[..|extra|] == extra;
  }

  /** `getRecommendations`' params: the named ones, the copied keys, then the
      two target defaults. */
  method BuildParams(query: RecommendationQuery) returns (params: Params)
    ensures params == RecommendationParams(query)
  {
    params := AssignNamedParams(query);
    params := CopyExtraKeys(params, query.extra);
    assert params == WithExtras(query);
    if "target_danceability" !in params {
      params := params["target_danceability" := Number(0.5)];
    }
    if "target_popularity" !in params {
      params := params["target_popularity" := Number(50.0)];
    }
  }

  /** What `getRecommendations` resolves to: a query without a non-blank seed
      is rejected before any call; otherwise the call's outcome is classified. */
  function RecommendationsOutcome(api: SpotifyApi, query: RecommendationQuery): (r: Result<Recommendations, Error>)
    ensures !HasSeeds(query) ==> r == Failure(BadRequest(NoSeeds))
    ensures HasSeeds(query) ==> r == ClassifyWith(api.recommendations(RecommendationParams(query)), RecommendationRejects)
  {
    if !HasSeeds(query) then Failure(BadRequest(NoSeeds))
    else ClassifyWith(api.recommendations(RecommendationParams(query)), RecommendationRejects)
  }

  method GetRecommendations(api: SpotifyApi, query: RecommendationQuery) returns (r: Result<Recommendations, Error>)
    ensures r == RecommendationsOutcome(api, query)
  {
    if !HasSeeds(query) {
      return Failure(BadRequest(NoSeeds));
    }
    var params := BuildParams(query);
    r := ClassifyWith(api.recommendations(params), RecommendationRejects);
  }

  // ---------------------------------------------------------------------------
  // getDiversityParams

  /** How many collected track ids a mode sends: 2, 3 or 5. */
  function TrackQuota(mode: Mode): nat {
    match mode
    case Strict => 2
    case Normal => 3
    case Diverse => 5
  }

  /** How many collected artist ids a mode sends as written: 1, 2 or 3. */
  function ArtistQuota(mode: Mode): nat {
    match mode
    case Strict => 1
    case Normal => 2
    case Diverse => 3
  }

  /** The most seeds of all kinds one recommendation request may carry. */
  const MaxSeeds: nat := 5

  /** The range params a mode adds. */
  function Ranges(mode: Mode): seq<(string, real)> {
    match mode
    case Strict => [("min_danceability", 0.4), ("max_danceability", 0.6), ("min_popularity", 40.0),
      ("max_popularity", 60.0), ("min_energy", 0.4), ("max_energy", 0.6)]
    case Normal => [("min_danceability", 0.3), ("max_danceability", 0.7), ("min_popularity", 30.0),
      ("max_popularity", 70.0), ("min_energy", 0.3), ("max_energy", 0.7)]
    case Diverse => [("min_danceability", 0.2), ("max_danceability", 0.8), ("min_popularity", 20.0),
      ("max_popularity", 80.0), ("min_energy", 0.2), ("max_energy", 0.8), ("min_valence", 0.2),
      ("max_valence", 0.8)]
  }

  datatype DiversityParams = DiversityParams(
    seedTracks: string, seedArtists: Option<string>,
    targetDanceability: real, targetPopularity: real, additional: seq<(string, real)>)

  /** The track ids a mode sends: the first `TrackQuota(mode)` collected. */
  function SeedTrackList(mode: Mode, trackIds: seq<string>): (s: seq<string>)
    ensures |s| == Min(TrackQuota(mode), |trackIds|) && s == trackIds[..|s|]
  {
    Take(trackIds, TrackQuota(mode))
  }

  /** `getDiversityParams` as written: up to 2, 3 or 5 track ids and, when any
      artist was collected, up to 1, 2 or 3 artist ids. */
  function DiversityParamsAsWritten(mode: Mode, trackIds: seq<string>, artistIds: seq<string>): (d: DiversityParams)
    ensures d.seedTracks == Join(",", trackIds[..Min(TrackQuota(mode), |trackIds|)])
    ensures d.seedArtists.Some? <==> |artistIds| > 0
    ensures d.seedArtists.Some? ==> d.seedArtists.value == Join(",", artistIds[..Min(ArtistQuota(mode), |artistIds|)])
    ensures d.targetDanceability == 0.5 && d.targetPopularity == 50.0 && d.additional == Ranges(mode)
  {
    DiversityParams(
      Join(",", SeedTrackList(mode, trackIds)),
      if |artistIds| > 0 then Some(Join(",", Take(artistIds, ArtistQuota(mode)))) else None,
      0.5, 50.0, Ranges(mode))
  }

  /** The diverse mode as written can ask for more seeds than a request may
      carry: five track ids and any artist id make six or more. */
  lemma DiverseAsWrittenExceedsSeedCap(trackIds: seq<string>, artistIds: seq<string>)
    requires |trackIds| >= 5 && |artistIds| >= 1
    ensures DiversityParamsAsWritten(Diverse, trackIds, artistIds).seedTracks == Join(",", trackIds[..5])
    ensures DiversityParamsAsWritten(Diverse, trackIds, artistIds).seedArtists ==
      Some(Join(",", Take(artistIds, 3)))
    ensures 5 + |Take(artistIds, 3)| > MaxSeeds
  {
  }

  /** The artist ids a mode sends once the track ids are counted against the
      seed cap: at most the mode's artist quota and at most the free slots. */
  function SeedArtistList(mode: Mode, trackIds: seq<string>, artistIds: seq<string>): (s: seq<string>)
    ensures |s| <= ArtistQuota(mode) && |s| <= |artistIds| && s == artistIds[..|s|]
    ensures |SeedTrackList(mode, trackIds)| + |s| <= MaxSeeds
    ensures |s| == Min(Min(ArtistQuota(mode), MaxSeeds - |SeedTrackList(mode, trackIds)|), |artistIds|)
  {
    Take(artistIds, Min(ArtistQuota(mode), MaxSeeds - |SeedTrackList(mode, trackIds)|))
  }

  /** `getDiversityParams` with the artist ids limited to the free seed slots;
      the seed artists are set only when at least one is sent. */
  function GetDiversityParams(mode: Mode, trackIds: seq<string>, artistIds: seq<string>): (d: DiversityParams)
    ensures d.seedTracks == Join(",", SeedTrackList(mode, trackIds))
    ensures d.seedArtists.Some? <==> SeedArtistList(mode, trackIds, artistIds) != []
    ensures d.seedArtists.Some? ==> d.seedArtists.value == Join(",", SeedArtistList(mode, trackIds, artistIds))
    ensures d.targetDanceability == 0.5 && d.targetPopularity == 50.0 && d.additional == Ranges(mode)
  {
    var artists := SeedArtistList(mode, trackIds, artistIds);
    DiversityParams(
      Join(",", SeedTrackList(mode, trackIds)),
      if artists != [] then Some(Join(",", artists)) else None,
      0.5, 50.0, Ranges(mode))
  }

  /** The strict and normal modes already fit the cap, so there the corrected
      table sends exactly what the code as written sends. */
  lemma StrictAndNormalUnchanged(mode: Mode, trackIds: seq<string>, artistIds: seq<string>)
    requires mode != Diverse
    ensures GetDiversityParams(mode, trackIds, artistIds) == DiversityParamsAsWritten(mode, trackIds, artistIds)
  {
  }

  // ---------------------------------------------------------------------------
  // spiceUpPlaylist

  datatype SpiceUpRequest = SpiceUpRequest(songs: Option<seq<Song>>, limit: Option<nat>, mode: Option<Mode>)

  datatype SpiceUpResponse = SpiceUpResponse(
    mode: Mode, inputSongs: nat, recommendations: seq<Track>, seeds: seq<Seed>)

  /** The first hit of a song's search, if it has search terms, the search
      succeeds and it finds something. */
  function SeedHit(api: SpotifyApi, song: Song): (h: Option<Track>)
    ensures SearchTerms(song) == [] ==> h.None?
    ensures var s := SearchTracks(api, SearchPhrase(song), Some(1));
      && (h.Some? <==> SearchTerms(song) != [] && s.Success? && s.value != [])
      && (h.Some? ==> h.value == s.value[0])
  {
    if SearchTerms(song) == [] then None
    else
      match SearchTracks(api, SearchPhrase(song), Some(1))
      case Failure(_) => None
      case Success(hits) => if hits == [] then None else Some(hits[0])
  }

  /** The first hit of every song that has one, in input order. */
  function Hits(api: SpotifyApi, songs: seq<Song>): (hs: seq<Track>)
    ensures |hs| <= |songs|
    decreases |songs|
  {
    if songs == [] then []
    else
      var h := SeedHit(api, songs[|songs| - 1]);
      Hits(api, songs[..|songs| - 1]) + (if h.Some? then [h.value] else [])
  }

  function TrackIds(api: SpotifyApi, songs: seq<Song>): (ids: seq<string>)
    ensures |ids| == |Hits(api, songs)|
    ensures forall i | 0 <= i < |ids| :: ids[i] == Hits(api, songs)[i].id
  {
    var hs := Hits(api, songs);
    seq(|hs|, i requires 0 <= i < |hs| => hs[i].id)
  }

  function ArtistIdsOf(artists: seq<Artist>): (ids: seq<string>)
    ensures |ids| == |artists|
    ensures forall i | 0 <= i < |artists| :: ids[i] == artists[i].id
  {
    seq(|artists|, i requires 0 <= i < |artists| => artists[i].id)
  }

  /** Every artist id of every hit, in the order the loop adds them. */
  function ArtistStream(api: SpotifyApi, songs: seq<Song>): seq<string>
    decreases |songs|
  {
    if songs == [] then []
    else
      var h := SeedHit(api, songs[|songs| - 1]);
      ArtistStream(api, songs[..|songs| - 1]) + (if h.Some? then ArtistIdsOf(h.value.artists) else [])
  }

  function Identity(id: string): string { id }

  /** `Array.from(artistIds)`: each artist id once, in first-insertion order. */
  function ArtistIds(api: SpotifyApi, songs: seq<Song>): (r: seq<string>)
    ensures forall x :: x in r <==> x in ArtistStream(api, songs)
  {
    var s := ArtistStream(api, songs);
    assert forall x :: x in DedupBy(s, Identity) <==> x in s by {
      forall x ensures x in DedupBy(s, Identity) <==> x in s {
        DedupByKeys(s, Identity);
        KeysOfIdentity(DedupBy(s, Identity), x);
        KeysOfIdentity(s, x);
      }
    }
    DedupBy(s, Identity)
  }

  /** The query `spiceUpPlaylist` passes to `getRecommendations`. */
  function SpiceUpQuery(d: DiversityParams, limit: nat): (q: RecommendationQuery)
    ensures q.seedTracks == Some(d.seedTracks) && q.seedArtists == d.seedArtists && q.seedGenres.None?
    ensures q.limit == Some(limit) && q.market.None?
    ensures q.targetDanceability == Some(d.targetDanceability) && q.targetPopularity == Some(d.targetPopularity)
    ensures |q.extra| == |d.additional|
    ensures forall i | 0 <= i < |q.extra| :: q.extra[i].0 == d.additional[i].0 && q.extra[i].1 == Some(d.additional[i].1)
  {
    RecommendationQuery(
      Some(d.seedTracks), d.seedArtists, None, Some(limit), None,
      Some(d.targetDanceability), Some(d.targetPopularity),
      seq(|d.additional|, i requires 0 <= i < |d.additional| => (d.additional[i].0, Some(d.additional[i].1))))
  }

  /** What `spiceUpPlaylist` resolves to: an empty song list and a list that
      yields no seed are rejected before any recommendation call; otherwise
      the recommendation call's outcome, failures included, decides. */
  function SpiceUp(api: SpotifyApi, request: SpiceUpRequest): (r: Result<SpiceUpResponse, Error>)
    ensures request.songs.None? || request.songs == Some([]) ==> r == Failure(BadRequest(EmptySongs))
    ensures request.songs.Some? && request.songs.value != [] && TrackIds(api, request.songs.value) == [] ==>
      r == Failure(BadRequest(NoMatchingSeeds))
    ensures r.Success? ==>
      r.value.mode == ModeOrDefault(request.mode) && r.value.inputSongs == |request.songs.value|
    ensures request.songs.Some? && TrackIds(api, request.songs.value) != [] ==>
      var query := SpiceUpQuery(
        GetDiversityParams(ModeOrDefault(request.mode), TrackIds(api, request.songs.value), ArtistIds(api, request.songs.value)),
        EffectiveLimit(request.limit));
      match RecommendationsOutcome(api, query)
      case Failure(e) => r == Failure(e)
      case Success(recs) => r.Success? && r.value.recommendations == recs.tracks && r.value.seeds == recs.seeds
  {
    if request.songs.None? || request.songs.value == [] then
      Failure(BadRequest(EmptySongs))
    else
      var songs := request.songs.value;
      var mode := ModeOrDefault(request.mode);
      var limit := EffectiveLimit(request.limit);
      var trackIds := TrackIds(api, songs);
      var artistIds := ArtistIds(api, songs);
      ArtistsOnlyWithTracks(api, songs);
      if trackIds == [] && artistIds == [] then
        Failure(BadRequest(NoMatchingSeeds))
      else
        var query := SpiceUpQuery(GetDiversityParams(mode, trackIds, artistIds), limit);
        match RecommendationsOutcome(api, query)
        case Failure(e) => Failure(e)
        case Success(recs) => Success(SpiceUpResponse(mode, |songs|, recs.tracks, recs.seeds))
  }

  /** Artist ids are only ever collected from a found track, so none can be
      collected while no track id is. */
  lemma {:induction false} ArtistsOnlyWithTracks(api: SpotifyApi, songs: seq<Song>)
    ensures TrackIds(api, songs) == [] ==> ArtistStream(api, songs) == [] && ArtistIds(api, songs) == []
    decreases |songs|
  {
    if songs != [] {
      ArtistsOnlyWithTracks(api, songs[..|songs| - 1]);
    }
  }

  lemma StepFacts(api: SpotifyApi, songs: seq<Song>, i: nat)
    requires i < |songs|
    ensures Hits(api, songs[..i + 1]) ==
      Hits(api, songs[..i]) + (if SeedHit(api, songs[i]).Some? then [SeedHit(api, songs[i]).value] else [])
    ensures ArtistStream(api, songs[..i + 1]) ==
      ArtistStream(api, songs[..i]) + (if SeedHit(api, songs[i]).Some? then ArtistIdsOf(SeedHit(api, songs[i]).value.artists) else [])
  {
    assert songs[..i + 1][..i] == songs[..i];
  }

  lemma KeysOfIdentity(s: seq<string>, x: string)
    ensures x in KeysOf(s, Identity) <==> x in s
  {
    if x in s {
      var i :| 0 <= i < |s| && s[i] == x;
      assert Identity(s[i]) == x;
    }
  }

  /** `track.artists.forEach(artist => artistIds.add(artist.id))` */
  method AddArtists(artistIds: seq<string>, artists: seq<Artist>, ghost before: seq<string>)
    returns (artistIds': seq<string>)
    requires artistIds == DedupBy(before, Identity)
    ensures artistIds' == DedupBy(before + ArtistIdsOf(artists), Identity)
  {
    artistIds' := artistIds;
    assert before + ArtistIdsOf(artists)[..0] == before;
    for j := 0 to |artists|
      invariant artistIds' == DedupBy(before + ArtistIdsOf(artists)[..j], Identity)
    {
      var id := artists[j].id;
      assert before + ArtistIdsOf(artists)[..j + 1] == (before + ArtistIdsOf(artists)[..j]) + [id];
      DedupByAppend(before + ArtistIdsOf(artists)[..j], id, Identity);
      KeysOfIdentity(artistIds', id);
      if id !in artistIds' {
        artistIds' := artistIds' + [id];
      }
    }
    assert ArtistIdsOf(artists)[..|artists|] == ArtistIdsOf(artists);
  }

  /** The `for` loop of `spiceUpPlaylist`: pushes the first hit's id of every
      song into `trackIds` and adds its artists' ids to the `artistIds` set. */
  method CollectSeeds(api: SpotifyApi, songs: seq<Song>) returns (trackIds: seq<string>, artistIds: seq<string>)
    ensures trackIds == TrackIds(api, songs)
    ensures artistIds == ArtistIds(api, songs)
  {
    trackIds, artistIds := [], [];
    for i := 0 to |songs|
      invariant trackIds == TrackIds(api, songs[..i])
      invariant artistIds == ArtistIds(api, songs[..i])
    {
      StepFacts(api, songs, i);
      ghost var hitsBefore := Hits(api, songs[..i]);
      ghost var before := ArtistStream(api, songs[..i]);
      var song := songs[i];
      var terms := SearchTerms(song);
      if terms == [] {
        assert hitsBefore + [] == hitsBefore && before + [] == before;
        continue;
      }
      var searchResults := SearchTracks(api, Join(" ", terms), Some(1));
      if searchResults.Failure? || searchResults.value == [] {
        assert SeedHit(api, song).None?;
        assert hitsBefore + [] == hitsBefore && before + [] == before;
        continue;
      }
      var track := searchResults.value[0];
      assert SeedHit(api, song) == Some(track);
      trackIds := trackIds + [track.id];
      artistIds := AddArtists(artistIds, track.artists, before);
    }
    assert songs[..|songs|] == songs;
  }

  /** `spiceUpPlaylist`: the seed collection, the empty-seed check, the
      per-mode params and the recommendation call. */
  method SpiceUpPlaylist(api: SpotifyApi, request: SpiceUpRequest) returns (r: Result<SpiceUpResponse, Error>)
    ensures r == SpiceUp(api, request)
  {
    if request.songs.None? || request.songs.value == [] {
      return Failure(BadRequest(EmptySongs));
    }
    var songs := request.songs.value;
    var mode := ModeOrDefault(request.mode);
    var limit := EffectiveLimit(request.limit);

    var trackIds, artistIds := CollectSeeds(api, songs);
    if |trackIds| == 0 && |artistIds| == 0 {
      return Failure(BadRequest(NoMatchingSeeds));
    }
    var diversityParams := GetDiversityParams(mode, trackIds, artistIds);
    var recQuery := SpiceUpQuery(diversityParams, limit);
    var recommendations := GetRecommendations(api, recQuery);
    if recommendations.Failure? {
      return Failure(recommendations.error);
    }
    return Success(SpiceUpResponse(mode, |songs|, recommendations.value.tracks, recommendations.value.seeds));
  }

  // ---------------------------------------------------------------------------
  // Properties of the seed collection

  /** The hit a song contributes, and the artist ids it contributes. */
  function HitOf(api: SpotifyApi): Song -> seq<Track> {
    (song: Song) => if SeedHit(api, song).Some? then [SeedHit(api, song).value] else []
  }

  function ArtistsOf(api: SpotifyApi): Song -> seq<string> {
    (song: Song) => if SeedHit(api, song).Some? then ArtistIdsOf(SeedHit(api, song).value.artists) else []
  }

  lemma {:induction false} HitsIsFlatMap(api: SpotifyApi, songs: seq<Song>)
    ensures Hits(api, songs) == FlatMap(songs, HitOf(api))
    ensures ArtistStream(api, songs) == FlatMap(songs, ArtistsOf(api))
    decreases |songs|
  {
    if songs != [] {
      HitsIsFlatMap(api, songs[..|songs| - 1]);
    }
  }

  /** Seeds are collected song by song: those of a list are those of its first
      part followed by those of its second. */
  lemma HitsAppend(api: SpotifyApi, a: seq<Song>, b: seq<Song>)
    ensures Hits(api, a + b) == Hits(api, a) + Hits(api, b)
    ensures ArtistStream(api, a + b) == ArtistStream(api, a) + ArtistStream(api, b)
  {
    HitsIsFlatMap(api, a + b);
    HitsIsFlatMap(api, a);
    HitsIsFlatMap(api, b);
    FlatMapAppend(a, b, HitOf(api));
    FlatMapAppend(a, b, ArtistsOf(api));
  }

  /** A song without a seed hit (no search terms, a failed search or an
      empty one) contributes no seed, wherever it stands. */
  lemma SongWithoutHitIsSkipped(api: SpotifyApi, a: seq<Song>, song: Song, b: seq<Song>)
    requires SeedHit(api, song).None?
    ensures TrackIds(api, a + [song] + b) == TrackIds(api, a + b)
    ensures ArtistIds(api, a + [song] + b) == ArtistIds(api, a + b)
  {
    HitsAppend(api, a + [song], b);
    HitsAppend(api, a, [song]);
    HitsAppend(api, a, b);
    assert [song][..0] == [];
    assert Hits(api, [song]) == [] && ArtistStream(api, [song]) == [];
    assert Hits(api, a + [song]) == Hits(api, a);
    assert ArtistStream(api, a + [song]) == ArtistStream(api, a);
  }

  /** The collected artist ids are distinct and come in the order in which
      each first appears among the artists of the found tracks. */
  lemma ArtistIdsFacts(api: SpotifyApi, songs: seq<Song>)
    ensures forall i, j | 0 <= i < j < |ArtistIds(api, songs)| :: ArtistIds(api, songs)[i] != ArtistIds(api, songs)[j]
    ensures forall i | 0 <= i < |ArtistIds(api, songs)| :: ArtistIds(api, songs)[i] in KeysOf(ArtistStream(api, songs), Identity)
    ensures forall i, j | 0 <= i < j < |ArtistIds(api, songs)| ::
      FirstIndex(ArtistStream(api, songs), Identity, ArtistIds(api, songs)[i]) <
      FirstIndex(ArtistStream(api, songs), Identity, ArtistIds(api, songs)[j])
    ensures IsSubseq(ArtistIds(api, songs), ArtistStream(api, songs))
  {
    var s := ArtistStream(api, songs);
    DedupByKeys(s, Identity);
    DedupByFirstAppearanceOrder(s, Identity);
    DedupByIsSubseq(s, Identity);
  }

  /** The recommendation request of a spice-up never carries more seeds than
      a request may, and its seeds are prefixes of the collected ids. */
  lemma SpiceUpSeedsWithinCap(mode: Mode, trackIds: seq<string>, artistIds: seq<string>)
    ensures |SeedTrackList(mode, trackIds)| + |SeedArtistList(mode, trackIds, artistIds)| <= MaxSeeds
    ensures IsSubseq(SeedTrackList(mode, trackIds), trackIds)
    ensures IsSubseq(SeedArtistList(mode, trackIds, artistIds), artistIds)
  {
    TakeIsSubseq(trackIds, TrackQuota(mode));
    TakeIsSubseq(artistIds, Min(ArtistQuota(mode), MaxSeeds - |SeedTrackList(mode, trackIds)|));
  }

  /** Once a track was found whose id is not blank, the spice-up query has a
      seed, so `getRecommendations` does not reject it for lack of seeds. */
  lemma SpiceUpQueryHasSeeds(mode: Mode, trackIds: seq<string>, artistIds: seq<string>, limit: nat)
    requires trackIds != [] && !IsBlank(trackIds[0])
    ensures HasSeeds(SpiceUpQuery(GetDiversityParams(mode, trackIds, artistIds), limit))
  {
    var parts := SeedTrackList(mode, trackIds);
    assert parts[0] == trackIds[0];
    JoinStartsWithFirst(",", parts);
    var joined := Join(",", parts);
    var k :| 0 <= k < |trackIds[0]| && !IsWhitespace(trackIds[0][k]);
    assert joined[k] == trackIds[0][k];
  }

  /** A spice-up whose first found track has a non-blank id never fails for
      lack of seeds: its failures are the two validation errors of its own
      and the classified errors of the recommendation call. */
  lemma SpiceUpNeverLacksSeeds(api: SpotifyApi, request: SpiceUpRequest)
    requires request.songs.Some? && request.songs.value != []
    requires TrackIds(api, request.songs.value) != [] && !IsBlank(TrackIds(api, request.songs.value)[0])
    ensures SpiceUp(api, request) != Failure(BadRequest(NoSeeds))
    ensures SpiceUp(api, request) != Failure(BadRequest(NoMatchingSeeds))
  {
    SpiceUpQueryHasSeeds(ModeOrDefault(request.mode), TrackIds(api, request.songs.value),
      ArtistIds(api, request.songs.value), EffectiveLimit(request.limit));
  }
}
