# Top-track playlist sync, modelled in Dafny

This project models the track-sync pipeline of TopPlaylists. The service
copies a user's most-played tracks from a scrobbling service into three
playlists on a streaming service: weekly (`7day`), monthly (`1month`) and
all-time (`overall`). The model has four parts.

- **Track matching** (`findSong`). The song name and artist are normalised
  into a search query. The query is sent at most twice: the second time
  only after a 429. The returned items are then scanned for the first one
  whose name and first artist match the original strings, ignoring case.
- **Playlist replacement** (`updatePlaylist`). This is the PUT request,
  with its `uris`, `range_start` and `range_length` parameters. A 429 gets
  one retry; other response errors are rethrown; an error with no
  response is swallowed.
- **Token state** (`access_token`, `refresh_token`, `defaultHeaders`).
  This is a class whose methods are `refreshToken`, `authorized` and the
  state check and token population of `authCallback`.
- **The sync pass** (`getAndUpdateTopTrackPlaylists`). The token is
  refreshed first. Then each period, in key order, goes through these
  steps: fetch its top tracks, call `findSong` once per track, keep the
  resolved uris, cut them to the period's limit (20, 25 or 50), and
  replace the playlist.

There is no network in the model. Every HTTP call becomes an oracle reply
that the caller passes in. A reply is `Ok(data)` or `Err(status)`, where
`status` is `None` when there was no response at all. `FindSong` and
`UpdatePlaylist` take two replies: the one for the first request and the
one for the retry. The pass takes a `Provider` value that scripts three
things: the top-track list for each period, the search replies for each
rank, and the PUT replies for each period.

Files and modules:

- `replies.dfy`, module `Replies`: `Option` and the `Reply` oracle type.
- `text.dfy`, module `Text`: the string operations. These are ASCII
  `toLowerCase`, quote removal, first-occurrence `replace`, and comma
  `join`/`split`, with their lemmas.
- `spotify.dfy`, module `Spotify`: normalisation, the query, the scan,
  `FindSong`, `UpdatePlaylist` and the `TokenStore` class.
- `topplaylists.dfy`, module `TopPlaylists`: the pass. It has a
  functional specification (`PeriodRun`, `RunPeriods`, `Pass`), the
  methods `UpdatePeriod`, `UpdatePeriods` and `GetAndUpdateTopTrackPlaylists` proved
  against it, and lemmas about it.

## Behaviour as written

The model follows the code. In several places the code does not do what
the system's design describes.

- **Search failures.** The design says a search failure that is not a 429
  leaves the track unresolved. In the code, `findSong` throws. The same
  happens when the retry after a 429 fails. In both cases the `finally`
  block reads `data.tracks` while `data` is undefined (spotify.js:181-198).
  The model returns `Failed`. In the pass, a `Failed` result ends the
  whole pass.
- **Name and artist matching.** The design says ("Don't Stop", "Journey")
  and ("dont stop", "journey") must reach the same decision. They do send
  the same query. But the match compares against the original strings,
  so quote characters can change the decision. `QuotesChangeDecision`
  exhibits such a reply. Case alone never changes the decision
  (`FindSongCaseInsensitive`).
- **Missing top tracks.** The design says a failed top-track fetch gives
  an empty list and the pass moves on. `getTopTracks` actually returns
  `undefined`, and `for…of` over it throws, so the pass ends
  (topPlaylists.js:24-26).
- **Failed playlist update.** The design says a failed update aborts only
  that window. In the code it ends the whole pass, and "Success!" is not
  logged.
- **Empty uris.** `if (track_uri)` drops an empty-string uri as well as an
  undefined one (`Resolves`).
- **Missing first artist.** An item whose name matches but that has no
  artists makes `artists[0].name` throw, so `findSong` fails
  (`Stops`, `ScanIsFirstStop`).
- **Empty state parameter.** `req.query.state || null` treats an empty
  `state` like a missing one, so the callback answers 400 (`StateParam`).
- **Empty uri list.** `[].join()` is `""`, and `"".split(',')` is `[""]`.
  So the `uris` parameter splits back into the list sent only when that
  list is non-empty (`Text.SplitJoin`).
- **Determinism.** `findSong` is deterministic: it is the function
  `FindSongResult` of its inputs and the two replies. Repeating a call
  with the same replies therefore gives the same result.

## Model

| member | source | states |
|---|---|---|
| `Text.StripQuotes` | spotify.js:158-160 | Removing every `'` and `"` leaves no quote. The length drops by exactly the number of quotes. A string without quotes is returned unchanged. |
| `Text.ReplaceFirst` | spotify.js:161 | Only the first occurrence of the pattern character is replaced. Every other position, including later hyphens, is kept. |
| `Text.StripQuotesAppend` | spotify.js:158-160 | Removing quotes from a concatenation is removing them from each part and concatenating. |
| `Text.StripQuotesLower` | spotify.js:158-166 | Removing quotes and lower-casing give the same result in either order. |
| `Text.LowerReplaceFirstHyphen` | spotify.js:159-162 | Lower-casing commutes with replacing the first hyphen by a space. |
| `Text.Split` | spotify.js:132 | The `split(',')` partner of `join()`: it never returns an empty list, and no piece contains a comma. |
| `Text.SplitJoin` | spotify.js:132 | Splitting the join of comma-free uris gives them back. The exception is the empty list, which comes back as `[""]`. |
| `Text.JoinSplit` | spotify.js:132 | Joining the comma split of any string gives the string back. |
| `Spotify.Normalize` | spotify.js:158-166 | The normalised query field has no quote. Its length is the input's length minus the number of quotes. The first hyphen becomes a space, and every other character is kept, lower-cased. |
| `Spotify.Query` | spotify.js:168 | The query is exactly `track:"<name>" artist:"<artist>"` over the normalised fields. The second `toLowerCase` changes nothing. |
| `Spotify.NormalizeByKey` | spotify.js:158-166 | A normalised field depends only on the input with quotes removed and lower-cased. |
| `Spotify.QuerySameForSameKeys` | spotify.js:158-168 | Inputs that differ only in quotes and ASCII case give the same query. |
| `Spotify.DontStopSameQuery` | spotify.js:158-168 | ("Don't Stop", "Journey") and ("dont stop", "journey") give the same query. |
| `Spotify.FirstStop` | spotify.js:204-211 | Gives the index of the first item that stops the scan (a match, or a name match with no artists), or the list length if there is none. |
| `Spotify.ScanIsFirstStop` | spotify.js:198-215 | The scan's result is decided by the first item it stops at. No such item gives undefined. A stopping item with no artists throws. Otherwise `findSong` returns that item's uri. |
| `Spotify.ScanFirstMatch` | spotify.js:198-215 | A returned uri comes from a matching item, and no earlier item matches. The result is undefined exactly when no item stops the scan, which includes the empty list. If every item has an artist, the scan never throws. |
| `Spotify.ScanIgnoresLaterArtists` | spotify.js:204-211 | Artists after `artists[0]` never affect the result. |
| `Spotify.ScanCaseInsensitive` | spotify.js:205-207 | The scan depends on the song name and artist only through their lower case. |
| `Spotify.FindSongCaseInsensitive` | spotify.js:157-216 | Names and artists that differ only in ASCII case give the same query, and the same outcome for the same replies. |
| `Spotify.QuotesChangeDecision` | spotify.js:158-211 | The match uses the original strings, not the normalised ones. So two inputs with the same query can reach different decisions on the same reply. |
| `Spotify.FindSong` | spotify.js:157-216 | It sends one search, plus a second only after a 429, and both carry the normalised query with type `track` and limit 50. A first reply that is Ok is scanned. After a 429, an Ok retry is scanned and a failed retry throws. A non-429 first failure throws. The outcome equals `FindSongResult`. |
| `Spotify.PutRequestUris` | spotify.js:131-135 | The request has `range_start` 0 and `range_length` equal to the list's length. Its `uris` splits back into the non-empty, comma-free list that was sent. |
| `Spotify.UpdatePlaylist` | spotify.js:126-155 | It sends one PUT, plus a second identical one only after a 429. After a 429, the call returns exactly when the retry succeeds. Any other response error throws. An error with no response is swallowed. |
| `Spotify.TokenStore.constructor` | spotify.js:8-9 | At module load there are no tokens, the only header is the content type, and `authorized()` is false. |
| `Spotify.TokenStore.Authorized` | spotify.js:47-49 | `authorized()` holds exactly when an access token is set, which is exactly when requests carry an `Authorization` header. |
| `Spotify.TokenStore.RefreshToken` | spotify.js:21-46 | The request sends the stored refresh token. On success only `access_token` and `Authorization: Bearer <token>` change. On failure nothing changes. `refresh_token` always stays the same. |
| `Spotify.TokenStore.AuthCallback` | spotify.js:74-124 | A null or mismatched state answers 400, with no exchange and no change. A failed exchange answers 400 with no change. A successful exchange sets both tokens and `Bearer <access>`, and answers 200. |
| `TopPlaylists.ResolvedRanksSpec` | topPlaylists.js:25-34 | `track_uris` is exactly the results that are defined and non-empty, in rank order. Each uri is matched with its rank, the ranks strictly increase, every such result appears, and duplicates are kept. |
| `TopPlaylists.FirstFailure` | topPlaylists.js:26-34 | Gives the rank of the first throwing `findSong` call; every earlier call returned. |
| `TopPlaylists.Take` | topPlaylists.js:38 | `slice(0, n)` gives the prefix of length `min(|s|, n)`. |
| `TopPlaylists.SongUrisPrefix` | topPlaylists.js:36-39 | The list sent is a prefix of `track_uris`, of length `min(|track_uris|, limit)` and at most 50. Its uris come from strictly increasing ranks. |
| `TopPlaylists.NoneResolved` | topPlaylists.js:31-33 | If no result resolves, `track_uris` is empty. |
| `TopPlaylists.AllUnresolvedSendsEmpty` | topPlaylists.js:25-39 | If every top track is unresolved, the playlist is still replaced, with `[]`. |
| `TopPlaylists.ScenarioLimitOne` | topPlaylists.js:31-38 | Two resolved tracks `a`, `b` with limit 1 send `[a]`. |
| `TopPlaylists.PeriodCalls` | topPlaylists.js:22-39 | A period that completes does four things in order: fetch its tracks, call `findSong` once per track in rank order, and finally replace its own playlist with `SongUris`. |
| `TopPlaylists.PassUpdatesBounded` | topPlaylists.js:3-39 | Every `updatePlaylist` call of a pass targets the playlist of its period. It sends at most that period's limit (20, 25 or 50). |
| `TopPlaylists.RunPeriodsStops` | topPlaylists.js:22-40 | Once a period fails, the later periods add no calls. |
| `TopPlaylists.PassOrder` | topPlaylists.js:19-43 | A failed refresh ends the pass before any fetch or update. Otherwise the periods run as 7day, 1month, overall. The first period that fails ends the pass without "Success!". |
| `TopPlaylists.UpdatePeriod` | topPlaylists.js:22-39 | One iteration of the period loop makes exactly the calls and reaches the verdict that `PeriodRun` specifies. |
| `TopPlaylists.UpdatePeriods` | topPlaylists.js:22-40 | The loop over 7day, 1month and overall makes exactly the calls and reaches the verdict that `RunPeriods` specifies: it stops after the first period that fails. |
| `TopPlaylists.GetAndUpdateTopTrackPlaylists` | topPlaylists.js:19-43 | It refreshes the token first, changing the token state as `RefreshToken` says. Its calls and verdict are those of `Pass`. |

## Left out

- A real network: every axios call is an oracle reply passed in by the caller.
- Reply contents that are malformed are not modelled: a reply without
  `tracks.items`, an item without `name` or `uri`, a top-track entry
  without `artist`, or a non-array top-track value. An item with no
  artists is modelled.
- The sleeps before a retry, and the reading of the `Retry-After` header.
  Only the fact that one retry happens is modelled. A 429 error without
  response headers would throw while reading `headers['Retry-After']`;
  the model does not capture that.
- Express `req`/`res` objects, writing and clearing the cookie, `authorize`
  and its redirect URL. `AuthCallback` keeps only the state comparison,
  the status it answers and the token transition. The `code` it forwards
  to the exchange is part of the oracle.
- `generateRandomString` (crypto randomness) and the Basic-auth base64
  encoding: these are foreign library calls.
- app.js is not part of this model: the wait-until-authorised loop,
  `setInterval` scheduling and server start-up are timer and process
  plumbing.
- lastfm.js is not part of this model. Its one relevant behaviour is
  returning undefined on error, which enters as `None` from
  `Provider.topTracks`.
- Logging, the timestamp prefix, and environment/configuration loading.
  The playlist ids are a `PlaylistIds` parameter.
- Playlist descriptions and play-count totals: the code shown has no such
  step.
- Unicode case mapping: `toLowerCase` is modelled as ASCII lower case only.
- The unhandled rejection when a pass throws: the model reports the pass
  as not ok and stops there.
