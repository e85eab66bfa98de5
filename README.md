# Songbird recommendation core, modelled in Dafny

Songbird is a NestJS HTTP API that builds playlist recommendations. This
project models its recommendation core, which has three parts.

- **Last.fm "spice up".** Each input song is searched on Last.fm. The similar
  tracks of the first hit are pooled, and an entry is keyed by its
  lower-cased artist and name; the first entry with a key wins. The pool is
  sorted by match score and narrowed by the mode's diversity filter:
  `strict`, `normal` or `diverse`. The result can also be decorated with
  Deezer track ids.
- **Spotify "spice up".** Each song is searched on Spotify. The first hit's
  track id and artist ids become seeds, with artist ids kept once each. The
  mode picks how many seeds are sent and which target ranges go with them.
  The recommendation parameters are then built and validated.
- **Deezer controller.** It converts tracks to Deezer ids and tallies the
  conversion. It also looks up a single track id.

Upstream services are pure functions held in the fields of an API value.
`LastfmApi` and `SpotifyApi` map the request parameters to the raw outcome
of the call: a payload, an HTTP status, no response, or a request that was
never sent. `DeezerService` maps a request to success or an error, since the
controller only passes the service's outcome on. The services' request handling
then follows the code: validation, limit clamps, defaults, the classification
of upstream failures, loops, and de-duplication.

- The Last.fm `spiceUpPlaylist` loop is a method. It keeps the `Map` as a
  key-to-entry `map` plus the key insertion order. It is proved equal to the
  specification function `LastfmSpiceUp.SpiceUp`, which is stated through a
  first-wins de-duplication (`Sequences.DedupBy`) of the stream of offered
  entries.
- The Spotify seed loop is a method proved against `Spotify.TrackIds` and
  `Spotify.ArtistIds`.
- The recommendation-parameter builder is a method proved against
  `Spotify.RecommendationParams`.

Modules:

- `Common`: options, results, errors, modes, limits, song search phrases.
- `Sequences`: prefixes, filters, subsequences, first-wins de-duplication.
- `Deezer`: the Deezer controller.
- `LastfmRequests`: Last.fm `makeRequest`, `searchTracks`, `getSimilarTracks`.
- `LastfmRanking`: entries, keys, sort, diversity settings and filter.
- `LastfmSpiceUp`: the spice-up loop and the Deezer merge.
- `Spotify`: the Spotify search, recommendations and spice-up.

Two facts about the Last.fm selection modes follow from the code.

- The `normal` mode takes up to `Math.floor(limit * 0.7)` high matches and
  up to `Math.ceil(limit * 0.3)` medium matches
  (`src/lastfm/lastfm.service.ts:359-360`). `LastfmRanking.HighQuota` and
  `LastfmRanking.MediumQuota` read these in exact arithmetic; the one limit
  where floating point gives a different count is listed under Left out.
- Because of that quota, `normal` can select fewer entries than `strict`
  (`LastfmRanking.NormalCanSelectFewerThanStrict`). On a sorted pool,
  `diverse` never selects fewer than either (`LastfmRanking.DiverseSelectsMost`).

## Model

| member | source | states |
|---|---|---|
| Common.ModeOrDefault | src/lastfm/lastfm.service.ts:221 | an absent mode is `normal`; a given mode is kept |
| Common.EffectiveLimit | src/lastfm/lastfm.service.ts:222 | an absent or zero limit is 20, a limit over 100 is 100, and every other limit is kept, so for a whole, non-negative limit the result lies in 1..100 |
| Common.EffectiveLimitIdempotent | src/spotify/spotify.service.ts:244 | clamping an already clamped limit again changes nothing: spice-up clamps it, and `getRecommendations` clamps it again at line 119 |
| Common.SearchTerms | src/lastfm/lastfm.service.ts:243-251 | the search terms are the non-empty name, artist and album, in that order: one term per present field, a present name first, a present artist right after it, a present album last; there are none exactly when all three are missing or empty |
| Common.SearchPhrase | src/lastfm/lastfm.service.ts:254 | the phrase is empty exactly when there are no terms, and otherwise begins with the first term |
| Common.SearchPhraseBlank | src/lastfm/lastfm.service.ts:243-255 | the joined search phrase is blank exactly when every term is blank |
| Common.SearchPhraseAllFields | src/lastfm/lastfm.service.ts:243-255 | a song with all three fields searches for "name artist album" |
| Common.JoinBlank | src/spotify/spotify.service.ts:265-269 | joining blank parts with a blank separator is blank, and only then |
| LastfmRequests.ClassifyAsWritten | src/lastfm/lastfm.service.ts:47-79 | the classification as the code runs: data succeeds; an error payload ends as an error without a status; 400, 401 and 403 are bad requests; any other status is an error carrying it; no response and a failed setup are their own errors |
| LastfmRequests.Classify | src/lastfm/lastfm.service.ts:47-79 | the intended classification of a call's outcome: data succeeds; an error payload, 400, 401 and 403 are bad requests; any other status is an error carrying it; no response and a failed setup are their own errors |
| LastfmRequests.ErrorPayloadLosesBadRequest | src/lastfm/lastfm.service.ts:47-58 | as written, an error payload ends as a statusless plain error instead of a bad request; every other outcome is classified as intended |
| LastfmRequests.SearchRequest | src/lastfm/lastfm.service.ts:134-143 | a blank query sends nothing; otherwise the query and page (default 1) are sent, with the limit (default 30) clamped to 30: a limit of at most 30 is sent as given, a larger one as 30 |
| LastfmRequests.SearchTracks | src/lastfm/lastfm.service.ts:134-147 | a blank query is rejected without a call; otherwise the result is the outcome of the search call, classified as `makeRequest` does as written |
| LastfmRequests.SimilarRequest | src/lastfm/lastfm.service.ts:197-206 | nothing is sent unless artist and track are both non-empty; the limit (default 50) is clamped to 1000: a limit of at most 1000 is sent as given, a larger one as 1000 |
| LastfmRequests.GetSimilarTracks | src/lastfm/lastfm.service.ts:197-210 | a missing artist or track is rejected without a call; otherwise the result is the outcome of the similar-tracks call, classified as `makeRequest` does as written |
| LastfmRanking.Lift | src/lastfm/lastfm.service.ts:277-288 | an entry copies name, artist and url, with missing ones as "", and the mbid; its score is the match value, or 100 minus its position when there is none |
| LastfmRanking.LiftAll | src/lastfm/lastfm.service.ts:277-288 | every similar track becomes one entry, in order, scored by its own position |
| LastfmRanking.Key | src/lastfm/lastfm.service.ts:278 | a key is the lower-cased artist, then "_", then the lower-cased name, character by character |
| LastfmRanking.KeyOfLift | src/lastfm/lastfm.service.ts:278 | an entry's key is its lower-cased artist, "_", then its lower-cased name, whatever its position |
| LastfmRanking.KeysCanCollide | src/lastfm/lastfm.service.ts:278 | two different artist/name pairs can share a key, because "_" can occur in names |
| LastfmRanking.SimilarTracksLimit | src/lastfm/lastfm.service.ts:329-343 | the similar-track breadth is 10 for strict, 20 for normal, 50 for diverse |
| LastfmRanking.BreadthOrderedAndUnclamped | src/lastfm/lastfm.service.ts:265-269 | breadth grows from strict to diverse, and no breadth is cut by the 1000 clamp |
| LastfmRanking.InsertByScore | src/lastfm/lastfm.service.ts:311-313 | inserting keeps every element: the result is the input plus the new entry, as a multiset |
| LastfmRanking.InsertByScoreSorted | src/lastfm/lastfm.service.ts:311-313 | inserting into a list sorted by descending score keeps it sorted |
| LastfmRanking.SortByScore | src/lastfm/lastfm.service.ts:311-313 | the sort is a permutation of its input, ordered by descending score |
| LastfmRanking.InsertByScoreStable | src/lastfm/lastfm.service.ts:311-313 | among entries with one score, inserting puts the new entry first and keeps the relative order of the rest |
| LastfmRanking.SortByScoreStable | src/lastfm/lastfm.service.ts:311-313 | the sort is stable: entries with equal scores keep their pool order |
| LastfmRanking.HighQuota | src/lastfm/lastfm.service.ts:359 | the high quota is the largest count at most seven tenths of the limit, in exact arithmetic |
| LastfmRanking.MediumQuota | src/lastfm/lastfm.service.ts:360 | the medium quota is the smallest count at least three tenths of the limit, in exact arithmetic |
| LastfmRanking.QuotasSplitLimit | src/lastfm/lastfm.service.ts:359-361 | in exact arithmetic the two quotas add up to exactly the limit, so the final `slice(0, limit)` of the normal branch cuts nothing |
| LastfmRanking.ApplyDiversityFilter | src/lastfm/lastfm.service.ts:348-366 | at most `limit` entries are selected; strict keeps only scores of at least 0.5, normal only scores of at least 0.1 |
| LastfmRanking.SubseqSorted | src/lastfm/lastfm.service.ts:348-366 | any subsequence of a sorted list is sorted |
| LastfmRanking.SplitAt | src/lastfm/lastfm.service.ts:356-361 | a sorted list splits at a threshold into a prefix at or above it and a suffix below it |
| LastfmRanking.NormalIsQuotaSplitOfSorted | src/lastfm/lastfm.service.ts:358-361 | on a sorted list, normal selects the first `HighQuota(limit)` entries scoring at least 0.3 followed by the first `MediumQuota(limit)` entries scoring from 0.1 up to 0.3 |
| LastfmRanking.NormalOfSplit | src/lastfm/lastfm.service.ts:358-361 | on any list whose scores fall into the three bands in order, normal selects those two quota prefixes |
| LastfmRanking.NormalOnSortedIsSubseq | src/lastfm/lastfm.service.ts:359-361 | on a sorted list, the normal selection (high matches, then medium matches) is a subsequence of it |
| LastfmRanking.SelectionOnSorted | src/lastfm/lastfm.service.ts:348-366 | on a sorted list, every mode selects a sorted subsequence of at most `limit` entries |
| LastfmRanking.StrictIsTopOfSorted | src/lastfm/lastfm.service.ts:356 | on a sorted list, strict selects a prefix; when it selects fewer than `limit`, nothing after that prefix scores 0.5 or more |
| LastfmRanking.DiverseSelectsMost | src/lastfm/lastfm.service.ts:364 | diverse selects the first `limit` sorted entries, so it selects at least as many as strict and as normal |
| LastfmRanking.NormalCanSelectFewerThanStrict | src/lastfm/lastfm.service.ts:356-361 | with ten copies of an entry scoring 0.5 or more and limit 10, strict selects 10 but normal selects 7 |
| LastfmSpiceUp.ResolveSong | src/lastfm/lastfm.service.ts:243-295 | a song with no terms is skipped; it is found exactly when its search succeeds with a hit; the similar tracks are those fetched for the first hit, and none when that fetch fails |
| LastfmSpiceUp.StreamEmptyIffNothingOffered | src/lastfm/lastfm.service.ts:240-302 | the stream of offered entries is empty exactly when no song offers an entry |
| LastfmSpiceUp.Pool | src/lastfm/lastfm.service.ts:277-311 | the map's values hold one entry per key, the same keys as the offered entries, and only offered entries |
| LastfmSpiceUp.FoundCount | src/lastfm/lastfm.service.ts:261 | at most one found song is counted per input song |
| LastfmSpiceUp.SpiceUp | src/lastfm/lastfm.service.ts:216-324 | failures are only the two validation errors, never an upstream error; "no similar tracks" happens exactly when the pool is empty; a response echoes mode and song count, and recommends a sorted subsequence of the sorted pool of at most `limit` entries |
| LastfmSpiceUp.StreamStep | src/lastfm/lastfm.service.ts:240-302 | one loop step appends exactly what that song offers, and counts it when found |
| LastfmSpiceUp.MirrorsSet | src/lastfm/lastfm.service.ts:280-286 | setting a new key in the map and the order keeps them in step with the pool, extended by that entry |
| LastfmSpiceUp.MirrorsOffer | src/lastfm/lastfm.service.ts:277-288 | offering an entry leaves the map alone when its key is present, and sets it otherwise; either way the map follows the first-wins pool |
| LastfmSpiceUp.CollectSimilarTracks | src/lastfm/lastfm.service.ts:240-302 | the loop over the songs counts exactly the found songs and leaves the map equal to the first-wins pool of every entry offered |
| LastfmSpiceUp.AddSong | src/lastfm/lastfm.service.ts:241-301 | one pass of the loop reports whether the song was found and leaves the map equal to the first-wins pool of everything offered so far, this song included |
| LastfmSpiceUp.AddSimilarTracks | src/lastfm/lastfm.service.ts:277-288 | the `forEach` over one seed's similar tracks leaves the map equal to the first-wins pool of everything offered so far |
| LastfmSpiceUp.MirroredValues | src/lastfm/lastfm.service.ts:311 | the map's values, read in key insertion order, are the pool |
| LastfmSpiceUp.SpiceUpPlaylist | src/lastfm/lastfm.service.ts:216-324 | the validation, the loop, the empty-map check, the sort, the filter and the final slice compute exactly `SpiceUp` |
| LastfmSpiceUp.StreamAppend | src/lastfm/lastfm.service.ts:240-302 | songs are processed independently and in order: a list offers what its two halves offer, in order |
| LastfmSpiceUp.FoundCountAppend | src/lastfm/lastfm.service.ts:261 | the found count of a list is the sum over its two halves |
| LastfmSpiceUp.SongWithoutTermsIsSkipped | src/lastfm/lastfm.service.ts:247-251 | a song without terms changes neither the pool nor the found count, wherever it stands |
| LastfmSpiceUp.SimilarFailureIsContained | src/lastfm/lastfm.service.ts:290-295 | a song whose similar-tracks call fails adds nothing to the pool but is still counted as found |
| LastfmSpiceUp.OnlyEmptySongYieldsNoSimilarTracks | src/lastfm/lastfm.service.ts:304-308 | a single song without fields is rejected with "no similar tracks" for every limit and mode |
| LastfmSpiceUp.SongAbsorbed | src/lastfm/lastfm.service.ts:290-295 | a song that offers nothing leaves the offered stream unchanged |
| LastfmSpiceUp.FailedSongsAreAbsorbed | src/lastfm/lastfm.service.ts:255-295 | a song that is not found leaves pool and count unchanged; a found song whose similar call fails adds one to the count only |
| LastfmSpiceUp.PoolFirstWins | src/lastfm/lastfm.service.ts:277-288 | the pool's keys are distinct and are exactly the stream's; each pool entry is the first stream entry with its key; pool entries come in the order their keys first appear in the stream; the pool is a subsequence of the stream |
| LastfmSpiceUp.PoolEmptyIffNothingOffered | src/lastfm/lastfm.service.ts:304-308 | the pool is empty exactly when no song offered any entry |
| LastfmSpiceUp.MergedId | src/lastfm/lastfm.service.ts:401-404 | a recommendation gets the id at its own index when there is one and it is not 0; otherwise it gets null, never undefined |
| LastfmSpiceUp.TracksToConvert | src/lastfm/lastfm.service.ts:391-395 | one track per recommendation is sent, with its name and artist, in order |
| LastfmSpiceUp.Decorate | src/lastfm/lastfm.service.ts:401-404 | each recommendation is kept, in order, with the id chosen for its index |
| LastfmSpiceUp.WithDeezer | src/lastfm/lastfm.service.ts:372-417 | the base response is kept; there is a conversion tally exactly when conversion was asked for, a Deezer service exists and its call succeeds; the tally then counts the results, and every recommendation carries its merged id; otherwise no id is set |
| LastfmSpiceUp.SpiceUpPlaylistWithDeezer | src/lastfm/lastfm.service.ts:372-417 | a spice-up failure is passed on; otherwise the response is the base response with the Deezer merge |
| LastfmSpiceUp.TallyCountsAttachedIds | src/lastfm/lastfm.service.ts:401-409 | when no result has id 0, the tally's converted count equals the number of recommendations that carry an id |
| LastfmSpiceUp.ZeroIdCountedButNotAttached | src/lastfm/lastfm.service.ts:401-409 | a result with id 0 is counted as converted, but its recommendation gets null |
| Deezer.TallyOf | src/deezer/deezer.controller.ts:72-77 | the total is the number of results, and the converted count is the number with an id |
| Deezer.TallyFacts | src/deezer/deezer.controller.ts:72-77 | converted never exceeds total; it equals total exactly when every result has an id, and is 0 exactly when none has |
| Deezer.TallyAppend | src/deezer/deezer.controller.ts:72-77 | one more result adds one to the total, and one to converted exactly when it has an id |
| Deezer.ConvertTracksToDeezerIds | src/deezer/deezer.controller.ts:61-79 | a missing or empty track list is an error without a call; otherwise a service failure is passed on, and a success returns the results with their tally |
| Deezer.FindTrackId | src/deezer/deezer.controller.ts:45-55 | the response echoes the name and artist with the service's id; a service failure is passed on |
| Spotify.ClassifyWith | src/spotify/spotify.service.ts:64-98 | a payload succeeds; a rejected status becomes a bad request with that status; any other status is an error carrying it; no response and a failed setup are their own errors |
| Spotify.ClassificationsDifferOnlyAt404 | src/spotify/spotify.service.ts:187-230 | the search and recommendation classifications differ exactly on status 404, which only the recommendation call treats as a bad request |
| Spotify.SearchTracks | src/spotify/spotify.service.ts:26-99 | a blank query is rejected without a call; otherwise the limit defaults to 10 (also for 0), and the outcome is classified with 400, 401, 403 and 429 as bad requests |
| Spotify.LastDefined | src/spotify/spotify.service.ts:132-141 | an extra key has a value exactly when some entry with that key is defined, and the value is the last such |
| Spotify.CopyExtras | src/spotify/spotify.service.ts:132-141 | copying extras keeps every key already present, adds no reserved key, and leaves the reserved values alone |
| Spotify.CopyExtrasFacts | src/spotify/spotify.service.ts:132-141 | copying extras never touches a reserved key, and sets every other key to its last defined value |
| Spotify.SeedParams | src/spotify/spotify.service.ts:118-125 | the clamped limit is always sent, and each seed list and the market only when non-empty; no other key |
| Spotify.NamedParams | src/spotify/spotify.service.ts:118-129 | the clamped limit is always sent; each seed and the market only when non-empty; each target only when given; no other key |
| Spotify.WithExtras | src/spotify/spotify.service.ts:118-141 | reserved keys come from the named params only, and every other key from the extras only |
| Spotify.RecommendationParams | src/spotify/spotify.service.ts:118-147 | the full params: clamped limit, non-empty seeds and market, both targets with defaults 0.5 and 50, and every extra key with its last defined value |
| Spotify.AssignNamedParams | src/spotify/spotify.service.ts:118-129 | the field-by-field assignments compute exactly `NamedParams` |
| Spotify.CopyExtraKeys | src/spotify/spotify.service.ts:132-141 | the loop over the query's other keys computes exactly the copy whose properties `CopyExtrasFacts` states |
| Spotify.BuildParams | src/spotify/spotify.service.ts:118-147 | the field-by-field assignments and the loop over the extra keys build exactly `RecommendationParams` |
| Spotify.RecommendationsOutcome | src/spotify/spotify.service.ts:102-232 | a query without a non-blank seed is rejected without a call; otherwise the outcome is classified with 400, 401, 403, 404 and 429 as bad requests |
| Spotify.GetRecommendations | src/spotify/spotify.service.ts:102-232 | the method computes exactly `RecommendationsOutcome` |
| Spotify.SeedTrackList | src/spotify/spotify.service.ts:340-397 | a mode sends the first 2, 3 or 5 collected track ids |
| Spotify.DiversityParamsAsWritten | src/spotify/spotify.service.ts:318-401 | as written: the first 2, 3 or 5 track ids; the first 1, 2 or 3 artist ids exactly when any was collected; targets 0.5 and 50; the mode's ranges |
| Spotify.DiverseAsWrittenExceedsSeedCap | src/spotify/spotify.service.ts:378-383 | as written, diverse with five track ids and any artist id asks for more than five seeds |
| Spotify.SeedArtistList | src/spotify/spotify.service.ts:340-397 | corrected: the artist ids sent are a prefix of the collected ones, within the mode's quota and the free seed slots |
| Spotify.GetDiversityParams | src/spotify/spotify.service.ts:318-401 | corrected: the mode's track seeds, its artist seeds (set only when there is one), targets 0.5 and 50, and the mode's ranges |
| Spotify.StrictAndNormalUnchanged | src/spotify/spotify.service.ts:340-376 | the seed cap changes nothing for strict and normal: they agree with the code as written |
| Spotify.SeedHit | src/spotify/spotify.service.ts:255-283 | a song yields a seed track exactly when it has search terms and the search for its phrase with limit 1 succeeds with at least one hit; the seed is then the first hit, and a failed search is skipped without an error |
| Spotify.Hits | src/spotify/spotify.service.ts:252-284 | at most one track is found per song |
| Spotify.TrackIds | src/spotify/spotify.service.ts:273 | the track ids are those of the found tracks, in order |
| Spotify.ArtistIdsOf | src/spotify/spotify.service.ts:275-277 | the artist ids of a track, in order |
| Spotify.SpiceUp | src/spotify/spotify.service.ts:238-313 | an empty song list and a list without seeds are rejected before any recommendation call; otherwise the recommendation outcome decides, and a success echoes mode and song count with the returned tracks and seeds |
| Spotify.ArtistIds | src/spotify/spotify.service.ts:248-293 | `Array.from(artistIds)` holds exactly the artist ids seen |
| Spotify.SpiceUpQuery | src/spotify/spotify.service.ts:296-303 | the query carries the diversity seeds and targets, the clamped limit, no genres or market, and every range param with its value, in order |
| Spotify.ArtistsOnlyWithTracks | src/spotify/spotify.service.ts:286-290 | artist ids are only collected from found tracks, so there are none without a track id |
| Spotify.StepFacts | src/spotify/spotify.service.ts:252-284 | one loop step adds that song's hit and its artist ids, if it has a hit |
| Spotify.AddArtists | src/spotify/spotify.service.ts:275-277 | adding a track's artists keeps the list equal to the first-insertion de-duplication of every artist id seen |
| Spotify.CollectSeeds | src/spotify/spotify.service.ts:252-284 | the loop collects exactly `TrackIds` and `ArtistIds` |
| Spotify.SpiceUpPlaylist | src/spotify/spotify.service.ts:238-313 | the method computes exactly `SpiceUp` |
| Spotify.HitsAppend | src/spotify/spotify.service.ts:252-284 | seeds are collected song by song: a list's seeds are those of its two halves, in order |
| Spotify.SongWithoutHitIsSkipped | src/spotify/spotify.service.ts:255-283 | a song without a seed hit (no search terms, a failed search or no result) changes neither the track ids nor the artist ids, wherever it stands |
| Spotify.ArtistIdsFacts | src/spotify/spotify.service.ts:248-277 | the artist ids are distinct and come in the order each first appears among the found tracks' artists |
| Spotify.SpiceUpSeedsWithinCap | src/spotify/spotify.service.ts:318-401 | with the corrected seed table, the spice-up request never carries more than five seeds, and its seeds are prefixes of the collected ids |
| Spotify.SpiceUpQueryHasSeeds | src/spotify/spotify.service.ts:293-303 | once a track with a non-blank id was found, the spice-up query has a seed |
| Spotify.SpiceUpNeverLacksSeeds | src/spotify/spotify.service.ts:238-313 | a spice-up whose first found track has a non-blank id fails neither for lack of seeds nor for lack of matching seeds |

## Left out

- The credential layer is out: the Last.fm API key, request signing and the query string, and the Spotify client-credentials token (a token failure is one of the call's raw outcomes).
- HTTP, JSON and DTO reshaping are out: the `results.trackmatches` and `similartracks` wrappers, normalising a single track to a list, and mapping Spotify tracks to response DTOs. Upstream bodies are modelled as the data already extracted.
- Message texts and logging are out. Errors are a closed set of variants.
- The controllers, routing and DTO validation decorators are out, apart from the Deezer controller. For example, `convertToDeezer` defaulting to true is set at `src/lastfm/lastfm.controller.ts:131`; here it is a parameter.
- The other Last.fm operations (track info, artist info, artist search, artist top tracks) are out. They only forward requests.
- Common.EffectiveLimit: limits are taken as whole, non-negative numbers, because the request type allows any number and nothing validates it. A negative limit is out: line 222 of src/lastfm/lastfm.service.ts keeps it, and the later `slice(0, limit)` calls then cut entries off the end. A fractional limit, which `slice` truncates, is out as well.
- Number coercion is out. `parseFloat` on a match value is modelled as an optional real, with NaN and unparsable text left out. `Number(...)` on Spotify params is taken on already numeric values, and `null` targets are not modelled.
- Blankness and lower-casing cover ASCII whitespace and letters only. Unicode trimming and case mapping are out.
- The internals of the Deezer service (matching, HTTP) are out; it is an oracle. Results that are not lists, and results whose `deezerId` is undefined, are out: an id is present or null.
- `LastfmRanking.Lift`: the similar track's artist field is taken as a string. The nested `artist.name` object shape is not modelled.
- The Spotify track fields other than id and artist ids (album, duration, preview URL, popularity) are out.
- Concurrency is out. Requests are independent, and the loops await each call in turn, as the code does.
- `Spotify.SpiceUp` and `Spotify.SpiceUpPlaylist`: the seed artists follow the corrected `Spotify.GetDiversityParams` (see Findings) rather than the code as written. For strict and normal the two agree (`Spotify.StrictAndNormalUnchanged`).
- `LastfmRanking.HighQuota`: the quota is read as exact ⌊7·limit/10⌋, but `Math.floor(limit * 0.7)` runs on IEEE doubles. At limit 90, `90 * 0.7` is 62.99999999999999, so the code takes at most 62 high matches, not 63, and the normal mode selects at most 89 entries. Between 1 and 100 no other limit differs, and `Math.ceil(limit * 0.3)` agrees with `LastfmRanking.MediumQuota` throughout. `LastfmRanking.QuotasSplitLimit` therefore holds in exact arithmetic only.
- `LastfmRanking.SortByScore`: the code uses `Array.prototype.sort`, which is stable. The model uses a stable insertion sort with the same ordering, not the engine's algorithm.

## Findings

| source | as written | input that shows it | evidently intended | confidence | as-written member | corrected member |
|---|---|---|---|---|---|---|
| src/lastfm/lastfm.service.ts:47-58 | the `BadRequestException` thrown for a Last.fm error payload is caught by the same `try`; its `response` property is the exception body, whose `status` is undefined, so it is rethrown as a plain `Error` ("Last.fm API error: undefined - …") | any 2xx response whose body has `error` set | the caller gets a bad request describing the Last.fm error | high (not executed) | LastfmRequests.ClassifyAsWritten, LastfmRequests.ErrorPayloadLosesBadRequest | LastfmRequests.Classify |
| src/spotify/spotify.service.ts:378-383 | the diverse mode sends up to five track ids and up to three artist ids, which is up to eight seeds, while a recommendation request may carry at most five (`src/spotify/dtos/recommendation.dto.ts:19`, `:25`, `:31`) | five or more found tracks and at least one artist id in diverse mode | the artist ids fill only the seed slots left by the track ids | medium (not executed) | Spotify.DiverseAsWrittenExceedsSeedCap | Spotify.GetDiversityParams |

The Last.fm request functions follow `makeRequest` as written. The spice-up
only tells a successful call from a failed one, and there the two
classifications agree (`LastfmRequests.ErrorPayloadLosesBadRequest`), so the
spice-up behaves the same under the corrected one.
