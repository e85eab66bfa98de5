/** `LastfmService.spiceUpPlaylist` and `spiceUpPlaylistWithDeezer`: each
    input song is searched, its first hit becomes a seed, the seed's similar
    tracks are folded into a map keyed by artist and title where the first
    entry wins, and the map's values are sorted, filtered per mode and cut to
    the limit. The Deezer variant then attaches Deezer ids and a tally. */
module LastfmSpiceUp {
  import opened Common
  import opened Sequences
  import opened LastfmRequests
  import opened LastfmRanking
  import opened Deezer

  datatype SpiceUpRequest = SpiceUpRequest(songs: Option<seq<Song>>, limit: Option<nat>, mode: Option<Mode>)

  datatype SpiceUpResponse = SpiceUpResponse(
    mode: Mode, inputSongs: nat, recommendations: seq<Recommendation>, foundSongs: nat)

  /** What one input song leads to: no search at all (no field to search by),
      no seed (the search failed or found nothing), or a seed together with the
      similar tracks fetched for it (none when that fetch failed). */
  datatype SongOutcome = NoTerms | NotFound | Found(similar: seq<SimilarTrack>)

  /** The search of one song (at most five hits, first page) and, when it
      finds something, the similar-track fetch for its first hit with the
      mode's breadth. */
  function ResolveSong(api: LastfmApi, song: Song, mode: Mode): (o: SongOutcome)
    ensures o == NoTerms <==> SearchTerms(song) == []
    ensures o.Found? <==>
      SearchTerms(song) != [] &&
      SearchTracks(api, SearchPhrase(song), Some(5), Some(1)).Success? &&
      SearchTracks(api, SearchPhrase(song), Some(5), Some(1)).value != []
    ensures o.Found? ==>
      var seed := SearchTracks(api, SearchPhrase(song), Some(5), Some(1)).value[0];
      var similar := GetSimilarTracks(api, seed.artist, seed.name, Some(SimilarTracksLimit(mode)));
      (similar.Failure? ==> o.similar == []) && (similar.Success? ==> o.similar == similar.value)
  {
    if SearchTerms(song) == [] then NoTerms
    else
      match SearchTracks(api, SearchPhrase(song), Some(5), Some(1))
      case Failure(_) => NotFound
      case Success(hits) =>
        if hits == [] then NotFound
        else
          match GetSimilarTracks(api, hits[0].artist, hits[0].name, Some(SimilarTracksLimit(mode)))
          case Failure(_) => Found([])
          case Success(tracks) => Found(tracks)
  }

  /** The entries one song offers to the map, in the order they are offered. */
  function Offered(o: SongOutcome): seq<Recommendation> {
    if o.Found? then LiftAll(o.similar) else []
  }

  /** Every entry offered by the songs, song after song. */
  function Stream(api: LastfmApi, songs: seq<Song>, mode: Mode): seq<Recommendation>
    decreases |songs|
  {
    if songs == [] then []
    else Stream(api, songs[..|songs| - 1], mode) + Offered(ResolveSong(api, songs[|songs| - 1], mode))
  }

  /** The number of songs whose search found a seed. */
  function FoundCount(api: LastfmApi, songs: seq<Song>, mode: Mode): (n: nat)
    ensures n <= |songs|
    decreases |songs|
  {
    if songs == [] then 0
    else
      FoundCount(api, songs[..|songs| - 1], mode)
      + (if ResolveSong(api, songs[|songs| - 1], mode).Found? then 1 else 0)
  }

  /** The values of `allSimilarTracks`, in insertion order: one entry per key
      offered, and nothing else. */
  function Pool(api: LastfmApi, songs: seq<Song>, mode: Mode): (r: seq<Recommendation>)
    ensures forall i, j | 0 <= i < j < |r| :: Key(r[i]) != Key(r[j])
    ensures KeysOf(r, Key) == KeysOf(Stream(api, songs, mode), Key)
    ensures forall x | x in r :: x in Stream(api, songs, mode)
  {
    var stream := Stream(api, songs, mode);
    DedupByKeys(stream, Key);
    DedupByIsSubseq(stream, Key);
    SubseqMembers(DedupBy(stream, Key), stream);
    DedupBy(stream, Key)
  }

  /** What `spiceUpPlaylist` resolves to. A failure is one of the two
      validation errors and never an upstream error: every search or
      similar-track failure is absorbed song by song. A response echoes the
      mode and the song count, counts at most one found seed per song, and
      recommends at most `limit` entries of the sorted pool, in pool order. */
  function SpiceUp(api: LastfmApi, request: SpiceUpRequest): (r: Result<SpiceUpResponse, Error>)
    ensures request.songs.None? || request.songs == Some([]) ==> r == Failure(BadRequest(EmptySongs))
    ensures r.Failure? ==> r.error == BadRequest(EmptySongs) || r.error == BadRequest(NoSimilarTracks)
    ensures r == Failure(BadRequest(NoSimilarTracks)) <==>
      request.songs.Some? && request.songs.value != [] &&
      Pool(api, request.songs.value, ModeOrDefault(request.mode)) == []
    ensures r.Success? ==>
      && r.value.mode == ModeOrDefault(request.mode)
      && r.value.inputSongs == |request.songs.value|
      && r.value.foundSongs <= r.value.inputSongs
      && |r.value.recommendations| <= EffectiveLimit(request.limit)
      && IsSubseq(r.value.recommendations, SortByScore(Pool(api, request.songs.value, r.value.mode)))
      && SortedDesc(r.value.recommendations)
  {
    if request.songs.None? || request.songs.value == [] then
      Failure(BadRequest(EmptySongs))
    else
      var songs := request.songs.value;
      var mode := ModeOrDefault(request.mode);
      var limit := EffectiveLimit(request.limit);
      var pool := Pool(api, songs, mode);
      if pool == [] then
        Failure(BadRequest(NoSimilarTracks))
      else
        var sorted := SortByScore(pool);
        var selected := ApplyDiversityFilter(sorted, mode, limit);
        SelectionOnSorted(sorted, mode, limit);
        TakeIsSubseq(selected, limit);
        SubseqTrans(Take(selected, limit), selected, sorted);
        SubseqSorted(Take(selected, limit), sorted);
        Success(SpiceUpResponse(mode, |songs|, Take(selected, limit), FoundCount(api, songs, mode)))
  }

  // ---------------------------------------------------------------------------
  // The loop

  /** The map (`entries` with its insertion `order`) holds exactly the
      entries of `pool`, in that order. */
  ghost predicate Mirrors(entries: map<string, Recommendation>, order: seq<string>, pool: seq<Recommendation>) {
    && |order| == |pool|
    && entries.Keys == KeysOf(pool, Key)
    && forall k | 0 <= k < |order| :: order[k] == Key(pool[k]) && order[k] in entries && entries[order[k]] == pool[k]
  }

  lemma StreamStep(api: LastfmApi, songs: seq<Song>, i: nat, mode: Mode)
    requires i < |songs|
    ensures Stream(api, songs[..i + 1], mode) == Stream(api, songs[..i], mode) + Offered(ResolveSong(api, songs[i], mode))
    ensures FoundCount(api, songs[..i + 1], mode) ==
      FoundCount(api, songs[..i], mode) + (if ResolveSong(api, songs[i], mode).Found? then 1 else 0)
  {
    assert songs[..i + 1][..i] == songs[..i];
  }

  /** `set` on a key the map does not hold yet appends the entry to the pool. */
  lemma MirrorsSet(entries: map<string, Recommendation>, order: seq<string>, pool: seq<Recommendation>, x: Recommendation)
    requires Mirrors(entries, order, pool)
    requires Key(x) !in entries
    ensures Mirrors(entries[Key(x) := x], order + [Key(x)], pool + [x])
  {
    KeysOfAppend(pool, x, Key);
    var e, o, p := entries[Key(x) := x], order + [Key(x)], pool + [x];
    forall k | 0 <= k < |o| ensures o[k] == Key(p[k]) && o[k] in e && e[o[k]] == p[k] {
      if k < |order| {
        assert o[k] == order[k] && p[k] == pool[k];
      }
    }
  }

  /** Offering an entry: `has` decides whether the first-wins pool grows. */
  lemma MirrorsOffer(entries: map<string, Recommendation>, order: seq<string>, offered: seq<Recommendation>, x: Recommendation)
    requires Mirrors(entries, order, DedupBy(offered, Key))
    ensures Key(x) in entries ==> Mirrors(entries, order, DedupBy(offered + [x], Key))
    ensures Key(x) !in entries ==> Mirrors(entries[Key(x) := x], order + [Key(x)], DedupBy(offered + [x], Key))
  {
    DedupByAppend(offered, x, Key);
    if Key(x) !in entries {
      MirrorsSet(entries, order, DedupBy(offered, Key), x);
    }
  }

  /** `tracks.forEach(...)`: offers one seed's similar tracks to the map. */
  method AddSimilarTracks(
    entries: map<string, Recommendation>, order: seq<string>, tracks: seq<SimilarTrack>,
    ghost before: seq<Recommendation>)
    returns (entries': map<string, Recommendation>, order': seq<string>)
    requires Mirrors(entries, order, DedupBy(before, Key))
    ensures Mirrors(entries', order', DedupBy(before + LiftAll(tracks), Key))
  {
    entries', order' := entries, order;
    assert before + LiftAll(tracks)[..0] == before;
    for index := 0 to |tracks|
      invariant Mirrors(entries', order', DedupBy(before + LiftAll(tracks)[..index], Key))
    {
      var entry := Lift(tracks[index], index);
      var key := Key(entry);
      ghost var lifted := LiftAll(tracks);
      assert lifted[..index + 1] == lifted[..index] + [entry];
      assert before + lifted[..index + 1] == (before + lifted[..index]) + [entry];
      MirrorsOffer(entries', order', before + LiftAll(tracks)[..index], entry);
      if key !in entries' {
        entries' := entries'[key := entry];
        order' := order' + [key];
      }
    }
    assert LiftAll(tracks)[..|tracks|] == LiftAll(tracks);
  }

  /** One pass of the loop over the songs: search the song, and when a first
      hit comes back, count it and offer its similar tracks to the map. */
  method AddSong(
    api: LastfmApi, song: Song, mode: Mode, entries: map<string, Recommendation>, order: seq<string>,
    ghost before: seq<Recommendation>)
    returns (found: bool, entries': map<string, Recommendation>, order': seq<string>)
    requires Mirrors(entries, order, DedupBy(before, Key))
    ensures found == ResolveSong(api, song, mode).Found?
    ensures Mirrors(entries', order', DedupBy(before + Offered(ResolveSong(api, song, mode)), Key))
  {
    entries', order' := entries, order;
    var terms := SearchTerms(song);
    if terms == [] {
      assert before + [] == before;
      return false, entries', order';
    }
    var searchResults := SearchTracks(api, Join(" ", terms), Some(5), Some(1));
    if searchResults.Failure? || searchResults.value == [] {
      assert ResolveSong(api, song, mode) == NotFound;
      assert before + [] == before;
      return false, entries', order';
    }
    var foundTrack := searchResults.value[0];
    var similarTracks := GetSimilarTracks(api, foundTrack.artist, foundTrack.name, Some(SimilarTracksLimit(mode)));
    if similarTracks.Success? {
      assert ResolveSong(api, song, mode) == Found(similarTracks.value);
      entries', order' := AddSimilarTracks(entries, order, similarTracks.value, before);
    } else {
      assert ResolveSong(api, song, mode) == Found([]);
      assert before + LiftAll([]) == before;
    }
    return true, entries', order';
  }

  /** `Array.from(allSimilarTracks.values())` */
  lemma MirroredValues(entries: map<string, Recommendation>, order: seq<string>, pool: seq<Recommendation>)
    requires Mirrors(entries, order, pool)
    ensures forall k | 0 <= k < |order| :: order[k] in entries
    ensures seq(|order|, k requires 0 <= k < |order| && order[k] in entries => entries[order[k]]) == pool
  {
  }

  /** The `for` loop of `spiceUpPlaylist` over the songs: fills the map (with
      its insertion order) and counts the songs found. */
  method CollectSimilarTracks(api: LastfmApi, songs: seq<Song>, mode: Mode)
    returns (entries: map<string, Recommendation>, order: seq<string>, foundSongs: nat)
    ensures foundSongs == FoundCount(api, songs, mode)
    ensures Mirrors(entries, order, Pool(api, songs, mode))
  {
    entries, order, foundSongs := map[], [], 0;
    for i := 0 to |songs|
      invariant foundSongs == FoundCount(api, songs[..i], mode)
      invariant Mirrors(entries, order, Pool(api, songs[..i], mode))
    {
      StreamStep(api, songs, i, mode);
      var found;
      found, entries, order := AddSong(api, songs[i], mode, entries, order, Stream(api, songs[..i], mode));
      if found {
        foundSongs := foundSongs + 1;
      }
    }
    assert songs[..|songs|] == songs;
  }

  /** `spiceUpPlaylist`: the validation, the loop over the songs, the
      empty-map check, then sorting, selection and truncation. */
  method SpiceUpPlaylist(api: LastfmApi, request: SpiceUpRequest) returns (r: Result<SpiceUpResponse, Error>)
    ensures r == SpiceUp(api, request)
  {
    if request.songs.None? || request.songs.value == [] {
      return Failure(BadRequest(EmptySongs));
    }
    var songs := request.songs.value;
    var mode := ModeOrDefault(request.mode);
    var limit := EffectiveLimit(request.limit);

    var entries, order, foundSongs := CollectSimilarTracks(api, songs, mode);
    if |order| == 0 {
      return Failure(BadRequest(NoSimilarTracks));
    }
    MirroredValues(entries, order, Pool(api, songs, mode));
    var values := seq(|order|, k requires 0 <= k < |order| && order[k] in entries => entries[order[k]]);

    var recommendations := SortByScore(values);
    recommendations := ApplyDiversityFilter(recommendations, mode, limit);
    return Success(SpiceUpResponse(mode, |songs|, Take(recommendations, limit), foundSongs));
  }

  // ---------------------------------------------------------------------------
  // Properties of the aggregation

  /** What one song offers, as a function of the song. */
  function Offers(api: LastfmApi, mode: Mode): Song -> seq<Recommendation> {
    (song: Song) => Offered(ResolveSong(api, song, mode))
  }

  lemma {:induction false} StreamIsFlatMap(api: LastfmApi, songs: seq<Song>, mode: Mode)
    ensures Stream(api, songs, mode) == FlatMap(songs, Offers(api, mode))
    decreases |songs|
  {
    if songs != [] {
      StreamIsFlatMap(api, songs[..|songs| - 1], mode);
    }
  }

  /** Nothing reaches the map exactly when no song offers an entry. */
  lemma StreamEmptyIffNothingOffered(api: LastfmApi, songs: seq<Song>, mode: Mode)
    ensures Stream(api, songs, mode) == [] <==>
      forall i | 0 <= i < |songs| :: Offered(ResolveSong(api, songs[i], mode)) == []
  {
    StreamIsFlatMap(api, songs, mode);
    FlatMapEmpty(songs, Offers(api, mode));
  }

  /** The songs are processed independently and in order: the entries offered
      by a list are those of its first part followed by those of its second. */
  lemma StreamAppend(api: LastfmApi, a: seq<Song>, b: seq<Song>, mode: Mode)
    ensures Stream(api, a + b, mode) == Stream(api, a, mode) + Stream(api, b, mode)
  {
    StreamIsFlatMap(api, a + b, mode);
    StreamIsFlatMap(api, a, mode);
    StreamIsFlatMap(api, b, mode);
    FlatMapAppend(a, b, Offers(api, mode));
  }

  /** Likewise, the seeds found in a list are those of its two parts. */
  lemma {:induction false} FoundCountAppend(api: LastfmApi, a: seq<Song>, b: seq<Song>, mode: Mode)
    ensures FoundCount(api, a + b, mode) == FoundCount(api, a, mode) + FoundCount(api, b, mode)
    decreases |b|
  {
    if b == [] {
      assert a + b == a;
    } else {
      var b' := b[..|b| - 1];
      FoundCountAppend(api, a, b', mode);
      assert (a + b)[..|a + b| - 1] == a + b';
      assert (a + b)[|a + b| - 1] == b[|b| - 1];
    }
  }

  /** A song with no name, artist or album makes no search and changes neither
      the pool nor `foundSongs`, wherever it stands in the list. */
  lemma SongWithoutTermsIsSkipped(api: LastfmApi, a: seq<Song>, song: Song, b: seq<Song>, mode: Mode)
    requires SearchTerms(song) == []
    ensures Pool(api, a + [song] + b, mode) == Pool(api, a + b, mode)
    ensures FoundCount(api, a + [song] + b, mode) == FoundCount(api, a + b, mode)
  {
    SongAbsorbed(api, a, song, mode);
    StreamAppend(api, a + [song], b, mode);
    StreamAppend(api, a, b, mode);
    FoundCountAppend(api, a + [song], b, mode);
    FoundCountAppend(api, a, b, mode);
  }

  /** A song whose similar-track fetch fails still counts as found, and the
      pool is what the other songs make of it: the failure costs only that
      song's own entries. */
  lemma SimilarFailureIsContained(api: LastfmApi, a: seq<Song>, song: Song, b: seq<Song>, mode: Mode)
    requires ResolveSong(api, song, mode) == Found([])
    ensures Pool(api, a + [song] + b, mode) == Pool(api, a + b, mode)
    ensures FoundCount(api, a + [song] + b, mode) == FoundCount(api, a + b, mode) + 1
  {
    SongAbsorbed(api, a, song, mode);
    StreamAppend(api, a + [song], b, mode);
    StreamAppend(api, a, b, mode);
    FoundCountAppend(api, a + [song], b, mode);
    FoundCountAppend(api, a, b, mode);
  }

  /** A list holding only a song with no fields is not rejected for its
      content, yet it yields no similar track at all. */
  lemma OnlyEmptySongYieldsNoSimilarTracks(api: LastfmApi, limit: Option<nat>, mode: Option<Mode>)
    ensures SpiceUp(api, SpiceUpRequest(Some([Song(None, None, None)]), limit, mode)) ==
      Failure(BadRequest(NoSimilarTracks))
  {
    var songs := [Song(None, None, None)];
    assert songs[..0] == [];
    assert Stream(api, songs, ModeOrDefault(mode)) == [];
  }

  /** The effect of appending one song whose outcome offers no entry. */
  lemma SongAbsorbed(api: LastfmApi, songs: seq<Song>, song: Song, mode: Mode)
    requires !ResolveSong(api, song, mode).Found? || ResolveSong(api, song, mode).similar == []
    ensures Stream(api, songs + [song], mode) == Stream(api, songs, mode)
    ensures FoundCount(api, songs + [song], mode) ==
      FoundCount(api, songs, mode) + (if ResolveSong(api, song, mode).Found? then 1 else 0)
  {
    assert (songs + [song])[..|songs|] == songs;
    assert Offered(ResolveSong(api, song, mode)) == [];
    assert Stream(api, songs + [song], mode) == Stream(api, songs, mode) + [];
  }

  /** A song whose search fails or finds nothing adds nothing to the pool;
      one whose seed's similar tracks cannot be fetched still counts as found. */
  lemma FailedSongsAreAbsorbed(api: LastfmApi, songs: seq<Song>, song: Song, mode: Mode)
    ensures ResolveSong(api, song, mode).NotFound? ==>
      Pool(api, songs + [song], mode) == Pool(api, songs, mode) &&
      FoundCount(api, songs + [song], mode) == FoundCount(api, songs, mode)
    ensures ResolveSong(api, song, mode) == Found([]) ==>
      Pool(api, songs + [song], mode) == Pool(api, songs, mode) &&
      FoundCount(api, songs + [song], mode) == FoundCount(api, songs, mode) + 1
  {
    if ResolveSong(api, song, mode).NotFound? || ResolveSong(api, song, mode) == Found([]) {
      SongAbsorbed(api, songs, song, mode);
    }
  }

  /** The pool holds one entry per key, keys in order of first appearance; the
      entry kept for a key is the first one offered with it, so a later
      duplicate is dropped even when it scores higher. */
  lemma PoolFirstWins(api: LastfmApi, songs: seq<Song>, mode: Mode)
    ensures forall i, j | 0 <= i < j < |Pool(api, songs, mode)| ::
      Key(Pool(api, songs, mode)[i]) != Key(Pool(api, songs, mode)[j])
    ensures KeysOf(Pool(api, songs, mode), Key) == KeysOf(Stream(api, songs, mode), Key)
    ensures forall i | 0 <= i < |Pool(api, songs, mode)| ::
      Key(Pool(api, songs, mode)[i]) in KeysOf(Stream(api, songs, mode), Key) &&
      Pool(api, songs, mode)[i] ==
        Stream(api, songs, mode)[FirstIndex(Stream(api, songs, mode), Key, Key(Pool(api, songs, mode)[i]))]
    ensures forall i, j | 0 <= i < j < |Pool(api, songs, mode)| ::
      FirstIndex(Stream(api, songs, mode), Key, Key(Pool(api, songs, mode)[i])) <
      FirstIndex(Stream(api, songs, mode), Key, Key(Pool(api, songs, mode)[j]))
    ensures IsSubseq(Pool(api, songs, mode), Stream(api, songs, mode))
  {
    DedupByKeys(Stream(api, songs, mode), Key);
    DedupByFirstWins(Stream(api, songs, mode), Key);
    DedupByFirstAppearanceOrder(Stream(api, songs, mode), Key);
    DedupByIsSubseq(Stream(api, songs, mode), Key);
  }

  /** The pool is empty exactly when no song offered any similar track. */
  lemma PoolEmptyIffNothingOffered(api: LastfmApi, songs: seq<Song>, mode: Mode)
    ensures Pool(api, songs, mode) == [] <==> Stream(api, songs, mode) == []
  {
    DedupByKeys(Stream(api, songs, mode), Key);
    var s := Stream(api, songs, mode);
    if s != [] {
      assert Key(s[0]) in KeysOf(s, Key);
    }
  }

  // ---------------------------------------------------------------------------
  // spiceUpPlaylistWithDeezer

  /** A `deezerId` field: left undefined, set to null, or set to an id. */
  datatype DeezerIdField = Undefined | Null | Id(id: int)

  datatype DeezerRecommendation = DeezerRecommendation(rec: Recommendation, deezerId: DeezerIdField)

  datatype WithDeezerResponse = WithDeezerResponse(
    mode: Mode, inputSongs: nat, foundSongs: nat,
    recommendations: seq<DeezerRecommendation>, deezerConversion: Option<Tally>)

  /** `deezerResults[index]?.deezerId || null`: a missing result, a null id and
      the id 0 all become null. */
  function MergedId(results: seq<ConvertedTrack>, index: nat): (f: DeezerIdField)
    ensures f != Undefined
    ensures f.Id? <==> index < |results| && results[index].deezerId.Some? && results[index].deezerId.value != 0
    ensures f.Id? ==> f.id == results[index].deezerId.value
  {
    if index < |results| && results[index].deezerId.Some? && results[index].deezerId.value != 0 then
      Id(results[index].deezerId.value)
    else Null
  }

  predicate HasDeezerId(r: DeezerRecommendation) {
    r.deezerId.Id?
  }

  /** The tracks sent for conversion: each recommendation's name and artist. */
  function TracksToConvert(recs: seq<Recommendation>): (t: seq<TrackToConvert>)
    ensures |t| == |recs|
    ensures forall i | 0 <= i < |recs| :: t[i].name == recs[i].name && t[i].artist == Some(recs[i].artist)
  {
    seq(|recs|, i requires 0 <= i < |recs| => TrackToConvert(recs[i].name, Some(recs[i].artist)))
  }

  /** The recommendations with every `deezerId` set by `id(i)`. */
  function Decorate(recs: seq<Recommendation>, id: nat -> DeezerIdField): (d: seq<DeezerRecommendation>)
    ensures |d| == |recs|
    ensures forall i | 0 <= i < |recs| :: d[i].rec == recs[i] && d[i].deezerId == id(i)
  {
    seq(|recs|, i requires 0 <= i < |recs| => DeezerRecommendation(recs[i], id(i)))
  }

  /** What `spiceUpPlaylistWithDeezer` answers for a base response: the base
      recommendations in the same order, each with an undefined id and no
      tally, unless a conversion was requested, a service is there and it
      answered; then each recommendation gets its merged id and the tally
      counts the service's answers. */
  function WithDeezer(base: SpiceUpResponse, deezer: Option<DeezerService>, convertToDeezer: bool)
    : (w: WithDeezerResponse)
    ensures w.mode == base.mode && w.inputSongs == base.inputSongs && w.foundSongs == base.foundSongs
    ensures |w.recommendations| == |base.recommendations|
    ensures forall i | 0 <= i < |base.recommendations| :: w.recommendations[i].rec == base.recommendations[i]
    ensures w.deezerConversion.Some? <==>
      convertToDeezer && deezer.Some? && deezer.value.convertTracks(TracksToConvert(base.recommendations)).Success?
    ensures w.deezerConversion.Some? ==>
      var results := deezer.value.convertTracks(TracksToConvert(base.recommendations)).value;
      && w.deezerConversion.value == TallyOf(results)
      && forall i | 0 <= i < |base.recommendations| :: w.recommendations[i].deezerId == MergedId(results, i)
    ensures w.deezerConversion.None? ==>
      forall i | 0 <= i < |base.recommendations| :: w.recommendations[i].deezerId == Undefined
  {
    var recs := base.recommendations;
    if convertToDeezer && deezer.Some? && deezer.value.convertTracks(TracksToConvert(recs)).Success? then
      var results := deezer.value.convertTracks(TracksToConvert(recs)).value;
      WithDeezerResponse(base.mode, base.inputSongs, base.foundSongs,
        Decorate(recs, (i: nat) => MergedId(results, i)), Some(TallyOf(results)))
    else
      WithDeezerResponse(base.mode, base.inputSongs, base.foundSongs, Decorate(recs, (i: nat) => Undefined), None)
  }

  /** `spiceUpPlaylistWithDeezer`: builds the base response with undefined
      ids, then reassigns its recommendations and its tally when a requested
      conversion succeeds; a failed conversion leaves the base response. */
  method SpiceUpPlaylistWithDeezer(
    api: LastfmApi, request: SpiceUpRequest, deezer: Option<DeezerService>, convertToDeezer: bool)
    returns (r: Result<WithDeezerResponse, Error>)
    ensures SpiceUp(api, request).Failure? ==> r == Failure(SpiceUp(api, request).error)
    ensures SpiceUp(api, request).Success? ==> r == Success(WithDeezer(SpiceUp(api, request).value, deezer, convertToDeezer))
  {
    var lastfmResponse := SpiceUpPlaylist(api, request);
    if lastfmResponse.Failure? {
      return Failure(lastfmResponse.error);
    }
    var recs := lastfmResponse.value.recommendations;
    var response := WithDeezerResponse(
      lastfmResponse.value.mode, lastfmResponse.value.inputSongs, lastfmResponse.value.foundSongs,
      Decorate(recs, (i: nat) => Undefined), None);

    if convertToDeezer && deezer.Some? {
      var tracksToConvert := TracksToConvert(recs);
      var deezerResults := deezer.value.convertTracks(tracksToConvert);
      if deezerResults.Success? {
        var results := deezerResults.value;
        response := response.(recommendations := Decorate(recs, (i: nat) => MergedId(results, i)));
        response := response.(deezerConversion := Some(TallyOf(results)));
      }
    }
    return Success(response);
  }

  lemma {:induction false} FilterLengthPointwise<A, B>(a: seq<A>, p: A -> bool, b: seq<B>, q: B -> bool)
    requires |a| == |b|
    requires forall i | 0 <= i < |a| :: p(a[i]) <==> q(b[i])
    ensures |Filter(a, p)| == |Filter(b, q)|
    decreases |a|
  {
    if a != [] {
      assert forall i | 0 <= i < |a| - 1 :: a[1..][i] == a[i + 1] && b[1..][i] == b[i + 1];
      FilterLengthPointwise(a[1..], p, b[1..], q);
    }
  }

  /** When the service answers every track and never with the id 0, the tally
      counts exactly the recommendations that received an id. */
  lemma TallyCountsAttachedIds(recs: seq<Recommendation>, results: seq<ConvertedTrack>)
    requires |results| == |recs|
    requires forall i | 0 <= i < |results| :: results[i].deezerId != Some(0)
    ensures TallyOf(results).converted == |Filter(Decorate(recs, (i: nat) => MergedId(results, i)), HasDeezerId)|
    ensures TallyOf(results).total == |recs|
  {
    FilterLengthPointwise(results, HasId, Decorate(recs, (i: nat) => MergedId(results, i)), HasDeezerId);
  }

  /** Without that proviso the tally and the ids disagree: an id of 0 is
      counted as converted but attached as null. */
  lemma ZeroIdCountedButNotAttached(rec: Recommendation)
    ensures TallyOf([ConvertedTrack(rec.name, Some(rec.artist), Some(0))]).converted == 1
    ensures MergedId([ConvertedTrack(rec.name, Some(rec.artist), Some(0))], 0) == Null
  {
    var results := [ConvertedTrack(rec.name, Some(rec.artist), Some(0))];
    assert results == [results[0]] + [];
    assert Filter(results, HasId) == [results[0]] + Filter([], HasId);
  }
}
