/** Shared vocabulary of the three services: optional values, results, the
    closed set of errors the services raise, the raw outcome of an HTTP call,
    diversity modes, song descriptors and the two request defaults that the
    Last.fm and Spotify services compute in the same way. */
module Common {

  datatype Option<+T> = None | Some(value: T) {
    function GetOr(default: T): T {
      match this
      case Some(v) => v
      case None => default
    }
  }

  datatype Result<+T, +E> = Success(value: T) | Failure(error: E)

  /** Why a request was refused by the service's own validation. */
  datatype Invalid =
    | EmptySongs            // "At least one song is required"
    | EmptyQuery            // "Search query cannot be empty"
    | MissingArtistOrTrack  // "Artist and track are required"
    | NoSimilarTracks       // "Could not find any similar tracks..."
    | NoSeeds               // "At least one seed (tracks, artists, or genres) is required"
    | NoMatchingSeeds       // "Could not find any matching tracks or artists..."

  /** The errors the services throw, without their message text. */
  datatype Error =
    | BadRequest(why: Invalid)           // BadRequestException from input validation
    | Rejected(code: int)                // BadRequestException built from an upstream status
    | ApiErrorPayload                    // BadRequestException for a Last.fm error payload
    | UpstreamFailure(status: Option<int>) // plain Error carrying the status (None: undefined)
    | Unreachable                        // plain Error: the request got no response
    | SetupFailed                        // plain Error: the request could not be made
    | MissingTracks                      // plain Error: "At least one track is required"

  /** What an awaited HTTP call (token included) ends with. */
  datatype Raw<+T> =
    | Payload(data: T)        // a 2xx response body
    | HttpStatus(status: int) // an error with a response
    | NoResponse              // an error with a request but no response
    | NotSent                 // an error raised before the request went out

  datatype Mode = Strict | Normal | Diverse

  /** `request.mode || 'normal'` */
  function ModeOrDefault(mode: Option<Mode>): (m: Mode)
    ensures mode.Some? ==> m == mode.value
    ensures mode.None? ==> m == Normal
  {
    mode.GetOr(Normal)
  }

  function Min(a: int, b: int): int {
    if a <= b then a else b
  }

  /** `Math.min(limit || 20, 100)`: an absent or zero limit means 20. */
  function EffectiveLimit(limit: Option<nat>): (l: nat)
    ensures 1 <= l <= 100
    ensures limit.Some? && 1 <= limit.value <= 100 ==> l == limit.value
    ensures limit.Some? && limit.value > 100 ==> l == 100
    ensures limit.None? || limit == Some(0) ==> l == 20
  {
    var given := if limit.Some? && limit.value != 0 then limit.value else 20;
    Min(given, 100)
  }

  /** Applying the default twice changes nothing, so the Spotify recommendation
      call, which re-applies it to an already clamped limit, sends the same value. */
  lemma EffectiveLimitIdempotent(limit: Option<nat>)
    ensures EffectiveLimit(Some(EffectiveLimit(limit))) == EffectiveLimit(limit)
  {
  }

  // ---------------------------------------------------------------------------
  // Strings

  /** A JavaScript string is truthy when it is present and not empty. */
  predicate Present(field: Option<string>) {
    field.Some? && field.value != ""
  }

  predicate IsWhitespace(c: char) {
    c == ' ' || c == '\t' || c == '\n' || c == '\r' || c == '\U{000B}' || c == '\U{000C}'
  }

  /** `!s || s.trim().length === 0` */
  predicate IsBlank(s: string) {
    forall i | 0 <= i < |s| :: IsWhitespace(s[i])
  }

  function LowerChar(c: char): char {
    if 'A' <= c <= 'Z' then (c as int - 'A' as int + 'a' as int) as char else c
  }

  /** `s.toLowerCase()` on ASCII letters. */
  function Lower(s: string): (r: string)
    ensures |r| == |s|
    ensures forall i | 0 <= i < |s| :: r[i] == LowerChar(s[i])
  {
    seq(|s|, i requires 0 <= i < |s| => LowerChar(s[i]))
  }

  /** `parts.join(sep)` */
  function Join(sep: string, parts: seq<string>): (r: string)
  {
    if |parts| == 0 then ""
    else if |parts| == 1 then parts[0]
    else parts[0] + sep + Join(sep, parts[1..])
  }

  /** `parts.join(sep)` begins with the first part. */
  lemma JoinStartsWithFirst(sep: string, parts: seq<string>)
    requires parts != []
    ensures |parts[0]| <= |Join(sep, parts)| && Join(sep, parts)[..|parts[0]|] == parts[0]
  {
  }

  lemma {:induction false} JoinBlank(sep: string, parts: seq<string>)
    requires IsBlank(sep)
    ensures IsBlank(Join(sep, parts)) <==> forall i | 0 <= i < |parts| :: IsBlank(parts[i])
  {
    if |parts| > 1 {
      JoinBlank(sep, parts[1..]);
      var rest := Join(sep, parts[1..]);
      var whole := parts[0] + sep + rest;
      assert whole[..|parts[0]|] == parts[0];
      assert whole[|parts[0]|..|parts[0]| + |sep|] == sep;
      assert whole[|parts[0]| + |sep|..] == rest;
      if IsBlank(whole) {
        forall i | 0 <= i < |parts| ensures IsBlank(parts[i]) {
          if i == 0 {
            forall j | 0 <= j < |parts[0]| ensures IsWhitespace(parts[0][j]) {
              assert whole[j] == parts[0][j];
            }
          } else {
            forall j | 0 <= j < |rest| ensures IsWhitespace(rest[j]) {
              assert whole[|parts[0]| + |sep| + j] == rest[j];
            }
            assert parts[1..][i - 1] == parts[i];
          }
        }
      }
    }
  }

  // ---------------------------------------------------------------------------
  // Song descriptors

  /** A song the caller describes by any of its name, artist and album. */
  datatype Song = Song(name: Option<string>, artist: Option<string>, album: Option<string>)

  /** The search terms of a song: its present fields, in the order name, artist, album. */
  function SearchTerms(song: Song): (terms: seq<string>)
    ensures |terms| ==
      (if Present(song.name) then 1 else 0) + (if Present(song.artist) then 1 else 0) +
      (if Present(song.album) then 1 else 0)
    ensures terms == [] <==> !Present(song.name) && !Present(song.artist) && !Present(song.album)
    ensures forall i | 0 <= i < |terms| :: terms[i] != ""
    ensures Present(song.name) ==> terms[0] == song.name.value
    ensures Present(song.artist) ==> terms[if Present(song.name) then 1 else 0] == song.artist.value
    ensures Present(song.album) ==> terms[|terms| - 1] == song.album.value
  {
    (if Present(song.name) then [song.name.value] else [])
    + (if Present(song.artist) then [song.artist.value] else [])
    + (if Present(song.album) then [song.album.value] else [])
  }

  /** The search phrase: the terms joined by single spaces. */
  function SearchPhrase(song: Song): (phrase: string)
    ensures phrase == "" <==> SearchTerms(song) == []
    ensures SearchTerms(song) != [] ==>
      |SearchTerms(song)[0]| <= |phrase| && phrase[..|SearchTerms(song)[0]|] == SearchTerms(song)[0]
  {
    var terms := SearchTerms(song);
    if terms == [] then ""
    else
      JoinStartsWithFirst(" ", terms);
      Join(" ", terms)
  }

  /** A song whose fields all hold only whitespace yields a blank phrase, which
      the search endpoints reject; every other usable song yields a non-blank one. */
  lemma SearchPhraseBlank(song: Song)
    ensures IsBlank(SearchPhrase(song)) <==>
      forall i | 0 <= i < |SearchTerms(song)| :: IsBlank(SearchTerms(song)[i])
  {
    JoinBlank(" ", SearchTerms(song));
  }

  /** The phrase of a song with all three fields is "name artist album". */
  lemma SearchPhraseAllFields(name: string, artist: string, album: string)
    requires name != "" && artist != "" && album != ""
    ensures SearchPhrase(Song(Some(name), Some(artist), Some(album))) == name + " " + artist + " " + album
  {
    var terms := SearchTerms(Song(Some(name), Some(artist), Some(album)));
    assert terms == [name, artist, album];
    assert terms[1..] == [artist, album];
    assert terms[1..][1..] == [album];
    assert Join(" ", [artist, album]) == artist + " " + album;
    assert Join(" ", terms) == name + " " + (artist + " " + album);
  }
}
