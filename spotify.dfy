/** The streaming-provider client: track search and matching (`findSong`),
    playlist replacement (`updatePlaylist`) and the token state that both
    send with every request (`refreshToken`, `authorized`, `authCallback`).
    Every HTTP call is an oracle reply handed in by the caller. */
module Spotify {
  import opened Replies
  import opened Text

  // ---------------------------------------------------------------------
  // Request headers

  type Headers = map<string, string>

  const ContentTypeKey := "content-type"
  const FormEncoded := "application/x-www-form-urlencoded"
  const AuthorizationKey := "Authorization"

  /** `defaultHeaders` as it stands for a given access token: the form
      content type, and `Bearer <token>` once a token is known. */
  function HeadersFor(accessToken: Option<string>): Headers {
    match accessToken
    case None => map[ContentTypeKey := FormEncoded]
    case Some(t) => map[ContentTypeKey := FormEncoded, AuthorizationKey := "Bearer " + t]
  }

  // ---------------------------------------------------------------------
  // Track search

  /** One element of `tracks.items` in a search reply; `artists` holds the
      artists' names in the provider's order. */
  datatype Track = Track(name: string, artists: seq<string>, uri: string)

  /** The GET /v1/search request: `q`, `type`, `limit` and the headers. */
  datatype SearchRequest = SearchRequest(q: string, kind: string, limit: nat, headers: Headers)

  const SearchKind := "track"
  const SearchLimit := 50

  /** What `findSong` does: resolves to a uri, resolves to undefined, or throws. */
  datatype FindOutcome = Found(uri: string) | NotFound | Failed

  /** A query field: quotes removed, the first hyphen made a space, lower-cased.
      The result has no quote, is as long as the input less its quotes, has a
      space where the first hyphen was, and keeps every other character (lower-cased). */
  function Normalize(s: string): (r: string)
    ensures forall i :: 0 <= i < |r| ==> !IsQuote(r[i])
    ensures |r| == |s| - CountQuotes(s)
    ensures var t := StripQuotes(s);
            var h := IndexOf(t, '-');
            (h < |t| ==> r[h] == ' ') &&
            forall j :: 0 <= j < |t| && j != h ==> r[j] == LowerChar(t[j])
  {
    Lower(ReplaceFirst(StripQuotes(s), '-', ' '))
  }

  /** The search query; the second lower-casing of the song name changes nothing. */
  function Query(songName: string, artist: string): (q: string)
    ensures q == "track:\"" + Normalize(songName) + "\" artist:\"" + Normalize(artist) + "\""
  {
    LowerTwice(ReplaceFirst(StripQuotes(songName), '-', ' '));
    "track:\"" + Lower(Normalize(songName)) + "\" artist:\"" + Normalize(artist) + "\""
  }

  /** What a query field depends on: the input without quotes and lower-cased. */
  function QueryKey(s: string): string {
    Lower(StripQuotes(s))
  }

  lemma NormalizeByKey(s: string)
    ensures Normalize(s) == ReplaceFirst(QueryKey(s), '-', ' ')
  {
    LowerReplaceFirstHyphen(StripQuotes(s));
  }

  /** Inputs that differ only in quote characters and ASCII case give the same query. */
  lemma QuerySameForSameKeys(songName: string, artist: string, songName': string, artist': string)
    requires QueryKey(songName) == QueryKey(songName')
    requires QueryKey(artist) == QueryKey(artist')
    ensures Query(songName, artist) == Query(songName', artist')
  {
    NormalizeByKey(songName);
    NormalizeByKey(songName');
    NormalizeByKey(artist);
    NormalizeByKey(artist');
  }

  /** The name test of the scan: `track.name` and the song name lower-cased are equal. */
  predicate NameMatches(t: Track, songName: string) {
    Lower(t.name) == Lower(songName)
  }

  /** The full match test: the name test, and the first artist's name lower-cased
      equals the artist lower-cased. No other artist is consulted. */
  predicate Matches(t: Track, songName: string, artist: string) {
    NameMatches(t, songName) && |t.artists| > 0 && Lower(t.artists[0]) == Lower(artist)
  }

  /** The scan stops at `t`: either `t` matches, or its name matches and it has no
      first artist, so that reading `artists[0].name` throws. */
  predicate Stops(t: Track, songName: string, artist: string) {
    NameMatches(t, songName) && (|t.artists| == 0 || Lower(t.artists[0]) == Lower(artist))
  }

  /** The `for…of` scan of the items with its early return, written as a recursion. */
  function Scan(items: seq<Track>, songName: string, artist: string): FindOutcome {
    if items == [] then NotFound
    else if !NameMatches(items[0], songName) then Scan(items[1..], songName, artist)
    else if |items[0].artists| == 0 then Failed
    else if Lower(items[0].artists[0]) == Lower(artist) then Found(items[0].uri)
    else Scan(items[1..], songName, artist)
  }

  /** The index of the first item the scan stops at, or `|items|`. */
  function FirstStop(items: seq<Track>, songName: string, artist: string): (k: nat)
    ensures k <= |items|
    ensures k < |items| ==> Stops(items[k], songName, artist)
    ensures forall j :: 0 <= j < k ==> !Stops(items[j], songName, artist)
  {
    if items == [] then 0
    else if Stops(items[0], songName, artist) then 0
    else 1 + FirstStop(items[1..], songName, artist)
  }

  /** The scan's result is decided by the first item it stops at. */
  lemma {:induction false} ScanIsFirstStop(items: seq<Track>, songName: string, artist: string)
    ensures var k := FirstStop(items, songName, artist);
            Scan(items, songName, artist) ==
              if k == |items| then NotFound
              else if |items[k].artists| == 0 then Failed
              else Found(items[k].uri)
  {
    if items != [] && !Stops(items[0], songName, artist) {
      ScanIsFirstStop(items[1..], songName, artist);
    }
  }

  /** First-match rule: a uri comes from a matching item with no matching item
      before it; no uri (undefined) exactly when no item stops the scan, in
      particular for an empty item list. */
  lemma ScanFirstMatch(items: seq<Track>, songName: string, artist: string)
    ensures Scan(items, songName, artist).Found? ==>
              exists k :: 0 <= k < |items| && Matches(items[k], songName, artist) &&
                          items[k].uri == Scan(items, songName, artist).uri &&
                          forall j :: 0 <= j < k ==> !Matches(items[j], songName, artist)
    ensures Scan(items, songName, artist) == NotFound <==>
              forall j :: 0 <= j < |items| ==> !Stops(items[j], songName, artist)
    ensures (forall j :: 0 <= j < |items| ==> |items[j].artists| > 0) ==>
              Scan(items, songName, artist) != Failed
  {
    ScanIsFirstStop(items, songName, artist);
    var k := FirstStop(items, songName, artist);
    if k < |items| {
      assert Stops(items[k], songName, artist);
    }
  }

  /** Two item lists that agree on everything but the artists after the first. */
  predicate SameUpToLaterArtists(items: seq<Track>, items': seq<Track>) {
    |items| == |items'| &&
    forall j :: 0 <= j < |items| ==>
      items[j].name == items'[j].name && items[j].uri == items'[j].uri &&
      (|items[j].artists| > 0) == (|items'[j].artists| > 0) &&
      (|items[j].artists| > 0 ==> items[j].artists[0] == items'[j].artists[0])
  }

  /** Artists other than `artists[0]` never affect the scan. */
  lemma {:induction false} ScanIgnoresLaterArtists(items: seq<Track>, items': seq<Track>, songName: string, artist: string)
    requires SameUpToLaterArtists(items, items')
    ensures Scan(items, songName, artist) == Scan(items', songName, artist)
  {
    if items != [] {
      assert SameUpToLaterArtists(items[1..], items'[1..]);
      ScanIgnoresLaterArtists(items[1..], items'[1..], songName, artist);
    }
  }

  /** The scan depends on the song name and artist only through their lower case. */
  lemma {:induction false} ScanCaseInsensitive(items: seq<Track>, songName: string, artist: string, songName': string, artist': string)
    requires Lower(songName) == Lower(songName') && Lower(artist) == Lower(artist')
    ensures Scan(items, songName, artist) == Scan(items, songName', artist')
  {
    if items != [] {
      ScanCaseInsensitive(items[1..], songName, artist, songName', artist');
    }
  }

  /** `findSong` as a function of the two search replies it may read: the
      first request's, and the retry's (read only after a 429). A failure that
      is not a 429, or any failure of the retry, leaves `data` undefined, and
      the `finally` block throws when it reads `data.tracks`. */
  function FindSongResult(songName: string, artist: string, first: Reply<seq<Track>>, retry: Reply<seq<Track>>): FindOutcome {
    match first
    case Ok(items) => Scan(items, songName, artist)
    case Err(_) =>
      if first.RateLimited() && retry.Ok? then Scan(retry.data, songName, artist) else Failed
  }

  /** How many search requests `findSong` sends. */
  function SearchAttempts(first: Reply<seq<Track>>): nat {
    if first.RateLimited() then 2 else 1
  }

  /** Case-insensitivity: song names and artists equal up to ASCII case give the same
      query and the same outcome on the same replies. */
  lemma FindSongCaseInsensitive(songName: string, artist: string, songName': string, artist': string,
                                first: Reply<seq<Track>>, retry: Reply<seq<Track>>)
    requires Lower(songName) == Lower(songName') && Lower(artist) == Lower(artist')
    ensures Query(songName, artist) == Query(songName', artist')
    ensures FindSongResult(songName, artist, first, retry) == FindSongResult(songName', artist', first, retry)
  {
    StripQuotesLower(songName);
    StripQuotesLower(songName');
    StripQuotesLower(artist);
    StripQuotesLower(artist');
    QuerySameForSameKeys(songName, artist, songName', artist');
    if first.Ok? {
      ScanCaseInsensitive(first.data, songName, artist, songName', artist');
    }
    if retry.Ok? {
      ScanCaseInsensitive(retry.data, songName, artist, songName', artist');
    }
  }

  /** One quote between two quote-free strings is dropped and the strings are joined. */
  lemma StripOneQuote(a: string, b: string)
    requires CountQuotes(a) == 0 && CountQuotes(b) == 0
    ensures StripQuotes(a + "'" + b) == a + b
  {
    StripQuotesAppend(a + "'", b);
    StripQuotesAppend(a, "'");
  }

  lemma DontStopParts()
    ensures "Don't Stop" == "Don" + "'" + "t Stop"
    ensures "Don" + "t Stop" == "Dont Stop"
  {
  }

  lemma CountDon()
    ensures CountQuotes("Don") == 0
  {
  }

  lemma CountTStop()
    ensures CountQuotes("t Stop") == 0
  {
  }

  lemma StripDontStop()
    ensures StripQuotes("Don't Stop") == "Dont Stop"
  {
    DontStopParts();
    CountDon();
    CountTStop();
    StripOneQuote("Don", "t Stop");
  }

  lemma LowerDontStop()
    ensures Lower("Dont Stop") == "dont stop"
  {
  }

  lemma KeyDontStop()
    ensures QueryKey("Don't Stop") == "dont stop"
  {
    StripDontStop();
    LowerDontStop();
  }

  lemma StripLowerDontStop()
    ensures StripQuotes("dont stop") == "dont stop"
  {
    assert CountQuotes("dont stop") == 0;
  }

  lemma LowerLowerDontStop()
    ensures Lower("dont stop") == "dont stop"
  {
  }

  lemma KeyLowerDontStop()
    ensures QueryKey("dont stop") == "dont stop"
  {
    StripLowerDontStop();
    LowerLowerDontStop();
  }

  lemma StripJourney()
    ensures StripQuotes("Journey") == "Journey"
    ensures StripQuotes("journey") == "journey"
  {
    assert CountQuotes("Journey") == 0;
    assert CountQuotes("journey") == 0;
  }

  lemma LowerJourney()
    ensures Lower("Journey") == "journey" == Lower("journey")
  {
  }

  lemma KeyJourney()
    ensures QueryKey("Journey") == QueryKey("journey")
  {
    StripJourney();
    LowerJourney();
  }

  /** ("Don't Stop", "Journey") and ("dont stop", "journey") send the same query. */
  lemma DontStopSameQuery()
    ensures Query("Don't Stop", "Journey") == Query("dont stop", "journey")
  {
    KeyDontStop();
    KeyLowerDontStop();
    KeyJourney();
    QuerySameForSameKeys("Don't Stop", "Journey", "dont stop", "journey");
  }

  lemma DontStopResolves(uri: string)
    ensures FindSongResult("Don't Stop", "Journey", Ok([Track("Don't Stop", ["Journey"], uri)]), Err(None)) == Found(uri)
  {
  }

  lemma DontStopUnresolvedWithoutQuote(uri: string)
    ensures FindSongResult("dont stop", "journey", Ok([Track("Don't Stop", ["Journey"], uri)]), Err(None)) == NotFound
  {
    var items := [Track("Don't Stop", ["Journey"], uri)];
    assert Lower("Don't Stop") != Lower("dont stop") by {
      assert Lower("Don't Stop")[3] == '\'';
      assert Lower("dont stop")[3] == 't';
    }
    assert items[1..] == [];
    assert Scan(items, "dont stop", "journey") == Scan(items[1..], "dont stop", "journey");
  }

  /** Quote characters, unlike case, can change the decision: ("Don't Stop", "Journey")
      and ("dont stop", "journey") send the same query, but a reply holding the track
      "Don't Stop" by "Journey" resolves the first and not the second, because the
      match compares against the original strings. */
  lemma QuotesChangeDecision(uri: string)
    ensures Query("Don't Stop", "Journey") == Query("dont stop", "journey")
    ensures var items := [Track("Don't Stop", ["Journey"], uri)];
            FindSongResult("Don't Stop", "Journey", Ok(items), Err(None)) == Found(uri) &&
            FindSongResult("dont stop", "journey", Ok(items), Err(None)) == NotFound
  {
    DontStopSameQuery();
    DontStopResolves(uri);
    DontStopUnresolvedWithoutQuote(uri);
  }

  /** `findSong(songName, artist)` against the replies of its first request and of
      the retry. Returns the outcome and the requests sent. At most two requests are
      sent, the second only after a 429, and both carry the same normalised query. */
  method FindSong(songName: string, artist: string, headers: Headers,
                  first: Reply<seq<Track>>, retry: Reply<seq<Track>>)
    returns (outcome: FindOutcome, sent: seq<SearchRequest>)
    ensures outcome == FindSongResult(songName, artist, first, retry)
    ensures |sent| == SearchAttempts(first) <= 2
    ensures forall k :: 0 <= k < |sent| ==>
              sent[k] == SearchRequest(Query(songName, artist), SearchKind, SearchLimit, headers)
    ensures first.Ok? ==> outcome == Scan(first.data, songName, artist)
    ensures first.Err? && !first.RateLimited() ==> outcome == Failed
    ensures first.RateLimited() && retry.Ok? ==> outcome == Scan(retry.data, songName, artist)
    ensures first.RateLimited() && retry.Err? ==> outcome == Failed
  {
    var querySongName := Lower(ReplaceFirst(StripQuotes(songName), '-', ' '));
    var queryArtistName := Lower(ReplaceFirst(StripQuotes(artist), '-', ' '));
    var queryString := "track:\"" + Lower(querySongName) + "\" artist:\"" + queryArtistName + "\"";
    var request := SearchRequest(queryString, SearchKind, SearchLimit, headers);

    var data: Option<seq<Track>> := None;
    sent := [request];
    match first {
      case Ok(items) =>
        data := Some(items);
      case Err(status) =>
        if status == Some(429) {
          sent := sent + [request];
          if retry.Ok? {
            data := Some(retry.data);
          }
        }
    }

    // finally: `data.tracks` of undefined throws
    if data.None? {
      outcome := Failed;
      return;
    }
    var items := data.value;
    assert items[0..] == items;
    var i := 0;
    while i < |items|
      invariant 0 <= i <= |items|
      invariant Scan(items[i..], songName, artist) == FindSongResult(songName, artist, first, retry)
    {
      var track := items[i];
      assert items[i..][1..] == items[i + 1..];
      if Lower(track.name) == Lower(songName) {
        if |track.artists| == 0 {
          outcome := Failed;   // reading `artists[0].name` throws
          return;
        }
        if Lower(track.artists[0]) == Lower(artist) {
          outcome := Found(track.uri);
          return;
        }
      }
      i := i + 1;
    }
    outcome := NotFound;
  }

  // ---------------------------------------------------------------------
  // Playlist replacement

  /** The PUT /v1/playlists/<id>/tracks request: the playlist, the `uris`,
      `range_start` and `range_length` parameters, and the headers. */
  datatype PutRequest = PutRequest(playlistId: string, uris: string, rangeStart: int, rangeLength: int, headers: Headers)

  /** What `updatePlaylist` does: returns normally, or throws. */
  datatype UpdateOutcome = Returned | Threw

  /** `updatePlaylist` as a function of its two PUT replies. */
  function UpdateResult(first: Reply<()>, retry: Reply<()>): UpdateOutcome {
    match first
    case Ok(_) => Returned
    case Err(status) =>
      if status.None? then Returned
      else if first.RateLimited() then (if retry.Ok? then Returned else Threw)
      else Threw
  }

  /** The request `updatePlaylist` sends for a list of uris. */
  function PutRequestFor(playlistId: string, songUris: seq<string>, headers: Headers): PutRequest {
    PutRequest(playlistId, Join(songUris), 0, |songUris|, headers)
  }

  /** The `uris` parameter splits back into the list sent, when that list is non-empty
      and its uris hold no comma; it is never empty. */
  lemma PutRequestUris(playlistId: string, songUris: seq<string>, headers: Headers)
    requires songUris != []
    requires forall k :: 0 <= k < |songUris| ==> ',' !in songUris[k]
    ensures var req := PutRequestFor(playlistId, songUris, headers);
            Split(req.uris) == songUris && req.rangeStart == 0 && req.rangeLength == |Split(req.uris)|
  {
    SplitJoin(songUris);
  }

  /** `updatePlaylist(playlistId, songUris)` against the replies of its PUT and of the
      retry. At most two PUTs, the second only after a 429, both the same request. A 429
      followed by a failed retry throws; any other response error throws; an error with
      no response is swallowed. */
  method UpdatePlaylist(playlistId: string, songUris: seq<string>, headers: Headers,
                        first: Reply<()>, retry: Reply<()>)
    returns (outcome: UpdateOutcome, sent: seq<PutRequest>)
    ensures outcome == UpdateResult(first, retry)
    ensures |sent| == (if first.RateLimited() then 2 else 1)
    ensures forall k :: 0 <= k < |sent| ==> sent[k] == PutRequestFor(playlistId, songUris, headers)
    ensures first.Ok? ==> outcome == Returned
    ensures first == Err(None) ==> outcome == Returned
    ensures first.RateLimited() ==> (outcome == Returned <==> retry.Ok?)
    ensures first.Err? && first.status.Some? && !first.RateLimited() ==> outcome == Threw
  {
    var config := PutRequest(playlistId, Join(songUris), 0, |songUris|, headers);
    sent := [config];
    outcome := Returned;
    match first {
      case Ok(_) =>
      case Err(status) =>
        if status.Some? {
          if status.value == 429 {
            sent := sent + [config];
            if retry.Err? {
              outcome := Threw;
            }
          } else {
            outcome := Threw;
          }
        }
    }
  }

  // ---------------------------------------------------------------------
  // Token state

  /** The token pair a successful authorization-code exchange returns. */
  datatype TokenPair = TokenPair(access: string, refresh: string)

  /** `req.query.state || null`: a missing or empty state is null. */
  function StateParam(state: Option<string>): Option<string> {
    if state == Some("") then None else state
  }

  /** The callback's state check: a non-null state equal to the stored cookie. */
  predicate StateAccepted(state: Option<string>, storedState: Option<string>) {
    StateParam(state).Some? && StateParam(state) == storedState
  }

  /** The module-level `access_token`, `refresh_token` and `defaultHeaders`. */
  class TokenStore {
    var accessToken: Option<string>
    var refreshToken: Option<string>
    var headers: Headers

    /** `defaultHeaders` always mirrors the access token. */
    ghost predicate Valid()
      reads this
    {
      headers == HeadersFor(accessToken)
    }

    /** The state at module load: no tokens, only the content-type header. */
    constructor ()
      ensures Valid()
      ensures accessToken == None && refreshToken == None
      ensures !Authorized()
    {
      accessToken := None;
      refreshToken := None;
      headers := map[ContentTypeKey := FormEncoded];
    }

    /** `authorized()`: an access token has been set; then, and only then, the
        requests carry an `Authorization` header. */
    predicate Authorized()
      reads this
      ensures Valid() ==> (Authorized() <==> AuthorizationKey in headers)
    {
      accessToken.Some?
    }

    /** `refreshToken()` against the token endpoint's reply. It sends the stored refresh
        token. On success only `access_token` and the `Authorization` header change; on
        failure nothing changes and the error propagates (`ok` is false). */
    method RefreshToken(reply: Reply<string>) returns (ok: bool, sentRefreshToken: Option<string>)
      requires Valid()
      modifies this
      ensures Valid()
      ensures ok == reply.Ok?
      ensures sentRefreshToken == old(refreshToken)
      ensures refreshToken == old(refreshToken)
      ensures ok ==> accessToken == Some(reply.data) &&
                     headers == old(headers)[AuthorizationKey := "Bearer " + reply.data]
      ensures !ok ==> accessToken == old(accessToken) && headers == old(headers)
    {
      sentRefreshToken := refreshToken;
      match reply {
        case Err(_) =>
          ok := false;
        case Ok(token) =>
          accessToken := Some(token);
          headers := headers[AuthorizationKey := "Bearer " + token];
          ok := true;
      }
    }

    /** The state check and token population of `authCallback`, against the reply of
        the code exchange. A rejected state answers 400 without an exchange; a failed
        exchange answers 400; in both cases nothing changes. A successful exchange sets
        both tokens and `Bearer <access>`, and answers 200. */
    method AuthCallback(state: Option<string>, storedState: Option<string>, exchange: Reply<TokenPair>)
      returns (status: int, exchanged: bool)
      requires Valid()
      modifies this
      ensures Valid()
      ensures exchanged <==> StateAccepted(state, storedState)
      ensures !(exchanged && exchange.Ok?) ==> status == 400 && unchanged(this)
      ensures exchanged && exchange.Ok? ==>
                status == 200 && Authorized() &&
                accessToken == Some(exchange.data.access) &&
                refreshToken == Some(exchange.data.refresh) &&
                headers == map[ContentTypeKey := FormEncoded,
                               AuthorizationKey := "Bearer " + exchange.data.access]
    {
      var stateQ := StateParam(state);
      if stateQ.None? || stateQ != storedState {
        status, exchanged := 400, false;   // state mismatch
        return;
      }
      exchanged := true;
      match exchange {
        case Ok(pair) =>
          accessToken := Some(pair.access);
          refreshToken := Some(pair.refresh);
          headers := map[ContentTypeKey := FormEncoded, AuthorizationKey := "Bearer " + pair.access];
          status := 200;
        case Err(_) =>
          status := 400;   // invalid token
      }
    }
  }
}
