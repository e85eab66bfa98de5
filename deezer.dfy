/** The Deezer controller: batch conversion of tracks to Deezer ids with a
    `{converted, total}` tally, and the single-track id lookup. The Deezer
    service itself is an oracle: it answers each track with an id or null. */
module Deezer {
  import opened Common
  import opened Sequences

  datatype TrackToConvert = TrackToConvert(name: string, artist: Option<string>)

  /** One conversion result; `deezerId == None` is the service's `null`. */
  datatype ConvertedTrack = ConvertedTrack(name: string, artist: Option<string>, deezerId: Option<int>)

  datatype Tally = Tally(converted: nat, total: nat)

  datatype ConvertResponse = ConvertResponse(converted: nat, total: nat, tracks: seq<ConvertedTrack>)

  datatype FindTrackIdResponse = FindTrackIdResponse(name: string, artist: Option<string>, deezerId: Option<int>)

  /** The two calls the controller makes on the Deezer service. */
  datatype DeezerService = DeezerService(
    convertTracks: seq<TrackToConvert> -> Result<seq<ConvertedTrack>, Error>,
    findTrackId: (string, Option<string>) -> Result<Option<int>, Error>)

  /** `r.deezerId !== null` */
  predicate HasId(r: ConvertedTrack) {
    r.deezerId.Some?
  }

  lemma {:induction false} FilterFull<T>(s: seq<T>, p: T -> bool)
    requires |Filter(s, p)| == |s|
    ensures forall i | 0 <= i < |s| :: p(s[i])
    decreases |s|
  {
    if s != [] {
      assert |Filter(s[1..], p)| <= |s| - 1;
      FilterFull(s[1..], p);
      forall i | 0 <= i < |s| ensures p(s[i]) {
        if i > 0 {
          assert s[i] == s[1..][i - 1];
        }
      }
    }
  }

  /** `{converted: results.filter(r => r.deezerId !== null).length, total: results.length}` */
  function TallyOf(results: seq<ConvertedTrack>): (t: Tally)
    ensures t.total == |results|
    ensures t.converted == |Filter(results, HasId)|
  {
    Tally(|Filter(results, HasId)|, |results|)
  }

  /** The tally never reports more conversions than results; it reports all of
      them exactly when every result has an id, and none exactly when none has. */
  lemma TallyFacts(results: seq<ConvertedTrack>)
    ensures TallyOf(results).converted <= TallyOf(results).total
    ensures TallyOf(results).converted == TallyOf(results).total <==>
      forall i | 0 <= i < |results| :: HasId(results[i])
    ensures TallyOf(results).converted == 0 <==>
      forall i | 0 <= i < |results| :: !HasId(results[i])
  {
    FilterAllOrNone(results, HasId);
    FilterMembers(results, HasId);
    if TallyOf(results).converted == TallyOf(results).total {
      FilterFull(results, HasId);
    }
    if TallyOf(results).converted == 0 {
      forall i | 0 <= i < |results| ensures !HasId(results[i]) {
        assert results[i] in results;
      }
    }
  }

  /** Appending one result adds one to the total, and one to the conversions
      exactly when that result has an id. */
  lemma TallyAppend(results: seq<ConvertedTrack>, r: ConvertedTrack)
    ensures TallyOf(results + [r]).total == TallyOf(results).total + 1
    ensures TallyOf(results + [r]).converted ==
      TallyOf(results).converted + (if HasId(r) then 1 else 0)
  {
    FilterAppend(results, [r], HasId);
    assert Filter([r], HasId) == (if HasId(r) then [r] else []) + Filter([], HasId);
  }

  /** POST tracks/convert: rejects a missing or empty list without calling the
      service; otherwise returns the service's results unchanged with their tally. */
  function ConvertTracksToDeezerIds(service: DeezerService, tracks: Option<seq<TrackToConvert>>)
    : (r: Result<ConvertResponse, Error>)
    ensures tracks.None? || tracks == Some([]) ==> r == Failure(MissingTracks)
    ensures tracks.Some? && tracks.value != [] ==>
      match service.convertTracks(tracks.value)
      case Failure(e) => r == Failure(e)
      case Success(results) =>
        && r.Success?
        && r.value.tracks == results
        && r.value.total == |results|
        && r.value.converted == |Filter(results, HasId)|
        && r.value.converted <= r.value.total
  {
    if tracks.None? || tracks.value == [] then
      Failure(MissingTracks)
    else
      match service.convertTracks(tracks.value)
      case Failure(e) => Failure(e)
      case Success(results) =>
        TallyFacts(results);
        var t := TallyOf(results);
        Success(ConvertResponse(t.converted, t.total, results))
  }

  /** GET track/find-id: echoes the name and artist asked for, with the id the
      service found or null. */
  function FindTrackId(service: DeezerService, name: string, artist: Option<string>)
    : (r: Result<FindTrackIdResponse, Error>)
    ensures service.findTrackId(name, artist).Failure? ==>
      r == Failure(service.findTrackId(name, artist).error)
    ensures service.findTrackId(name, artist).Success? ==>
      r.Success? && r.value.name == name && r.value.artist == artist &&
      r.value.deezerId == service.findTrackId(name, artist).value
  {
    match service.findTrackId(name, artist)
    case Failure(e) => Failure(e)
    case Success(id) => Success(FindTrackIdResponse(name, artist, id))
  }
}
