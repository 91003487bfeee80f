/** One synchronisation pass (`getAndUpdateTopTrackPlaylists`): refresh the
    token, then for each period fetch the top tracks, resolve each with
    `findSong`, and replace the period's playlist with the first resolved
    uris. The scrobbling service and the streaming provider are scripted by
    a `Provider` value. */
module TopPlaylists {
  import opened Replies
  import opened Text
  import opened Spotify

  /** The keys of `playlists` and `numTracks`: '7day', '1month' and 'overall'. */
  datatype Period = Week | Month | Overall

  /** The order in which `for (period in playlists)` visits the keys. */
  const Periods: seq<Period> := [Week, Month, Overall]

  /** `numTracks[period]`. */
  function NumTracks(p: Period): nat {
    match p
    case Week => 20
    case Month => 25
    case Overall => 50
  }

  /** The three configured playlist ids (`WEEKLY_PLAYLIST_ID` and the others). */
  datatype PlaylistIds = PlaylistIds(weekly: string, monthly: string, overall: string)

  /** `playlists[period]`. */
  function PlaylistId(ids: PlaylistIds, p: Period): string {
    match p
    case Week => ids.weekly
    case Month => ids.monthly
    case Overall => ids.overall
  }

  /** One top track as the scrobbling service lists it: `name` and `artist.name`. */
  datatype Scrobble = Scrobble(name: string, artist: string)

  /** The replies a `findSong` call may read: its first search and the retry. */
  datatype SearchReplies = SearchReplies(first: Reply<seq<Track>>, retry: Reply<seq<Track>>)

  /** The replies an `updatePlaylist` call may read: its first PUT and the retry. */
  datatype PutReplies = PutReplies(first: Reply<()>, retry: Reply<()>)

  /** The scripted services: the top-track list per period (`None` when
      `getTopTracks` returns undefined after an error), the search replies for
      the track of a given rank in a period, and the PUT replies per period. */
  datatype Provider = Provider(topTracks: Period -> Option<seq<Scrobble>>,
                               search: (Period, nat) -> SearchReplies,
                               put: Period -> PutReplies)

  /** The calls a pass makes, in the order it makes them. */
  datatype Step =
    | Refresh
    | FetchTop(period: Period)
    | Find(songName: string, artist: string)
    | Update(period: Period, playlistId: string, songUris: seq<string>)

  /** The calls made, and whether the pass (or a period) ran to the end. */
  datatype Run = Run(trace: seq<Step>, ok: bool)

  // ---------------------------------------------------------------------
  // Specification

  /** The outcome of `findSong` for the track of rank `i` in period `p`. */
  function Outcome(p: Period, t: Scrobble, i: nat, env: Provider): FindOutcome {
    FindSongResult(t.name, t.artist, env.search(p, i).first, env.search(p, i).retry)
  }

  function Outcomes(p: Period, tracks: seq<Scrobble>, env: Provider): (outs: seq<FindOutcome>)
    ensures |outs| == |tracks|
  {
    seq(|tracks|, i requires 0 <= i < |tracks| => Outcome(p, tracks[i], i, env))
  }

  /** `if (track_uri)`: a uri is kept when it is defined and not the empty string. */
  predicate Resolves(o: FindOutcome) {
    o.Found? && o.uri != ""
  }

  /** `track_uris` after the inner loop: the kept uris, in rank order. */
  function Resolved(outs: seq<FindOutcome>): seq<string> {
    if outs == [] then []
    else Resolved(outs[..|outs| - 1]) + (if Resolves(outs[|outs| - 1]) then [outs[|outs| - 1].uri] else [])
  }

  /** The rank of every outcome that keeps its uri, in rank order. */
  function ResolvedRanks(outs: seq<FindOutcome>): seq<nat> {
    if outs == [] then []
    else
      var n := |outs| - 1;
      ResolvedRanks(outs[..n]) + (if Resolves(outs[n]) then [n] else [])
  }

  /** The ranks the kept uris come from: strictly increasing, one per resolving
      outcome (duplicates included), and each kept uri is the one found at its rank. */
  lemma {:induction false} ResolvedRanksSpec(outs: seq<FindOutcome>)
    ensures var ranks := ResolvedRanks(outs);
            |ranks| == |Resolved(outs)| &&
            (forall k :: 0 <= k < |ranks| ==>
               ranks[k] < |outs| && Resolves(outs[ranks[k]]) && Resolved(outs)[k] == outs[ranks[k]].uri) &&
            (forall k, l :: 0 <= k < l < |ranks| ==> ranks[k] < ranks[l]) &&
            (forall i :: 0 <= i < |outs| && Resolves(outs[i]) ==> i in ranks)
  {
    if outs != [] {
      var n := |outs| - 1;
      var pre := outs[..n];
      ResolvedRanksSpec(pre);
      assert forall i :: 0 <= i < n ==> pre[i] == outs[i];
      var init := ResolvedRanks(pre);
      var uris := Resolved(pre);
      assert ResolvedRanks(outs) == init + (if Resolves(outs[n]) then [n] else []);
      assert Resolved(outs) == uris + (if Resolves(outs[n]) then [outs[n].uri] else []);
    }
  }

  /** The rank of the first `findSong` call that throws, or the number of tracks. */
  function FirstFailure(outs: seq<FindOutcome>): (i: nat)
    ensures i <= |outs|
    ensures i < |outs| ==> outs[i].Failed?
    ensures forall j :: 0 <= j < i ==> !outs[j].Failed?
  {
    if outs == [] then 0 else if outs[0].Failed? then 0 else 1 + FirstFailure(outs[1..])
  }

  /** `s.slice(0, n)`: the prefix of `s` of length `min(|s|, n)`. */
  function Take(s: seq<string>, n: nat): (r: seq<string>)
    ensures |r| == if |s| <= n then |s| else n
    ensures r == s[..|r|]
  {
    if |s| <= n then s else s[..n]
  }

  /** The `findSong` calls for a list of tracks, in order. */
  function Finds(tracks: seq<Scrobble>): (steps: seq<Step>)
    ensures |steps| == |tracks|
  {
    seq(|tracks|, i requires 0 <= i < |tracks| => Find(tracks[i].name, tracks[i].artist))
  }

  /** The list `updatePlaylist` receives for period `p` when no `findSong` call throws. */
  function SongUris(p: Period, tracks: seq<Scrobble>, env: Provider): seq<string> {
    Take(Resolved(Outcomes(p, tracks, env)), NumTracks(p))
  }

  /** One iteration of the period loop. Iterating over an undefined top-track list
      throws; a throwing `findSong` ends the period after its call; otherwise the
      playlist is replaced, and the period ends normally when `updatePlaylist` does. */
  function PeriodRun(p: Period, ids: PlaylistIds, env: Provider): Run {
    match env.topTracks(p)
    case None => Run([FetchTop(p)], false)
    case Some(tracks) =>
      var n := FirstFailure(Outcomes(p, tracks, env));
      if n < |tracks| then Run([FetchTop(p)] + Finds(tracks[..n + 1]), false)
      else Run([FetchTop(p)] + Finds(tracks) + [Update(p, PlaylistId(ids, p), SongUris(p, tracks, env))],
               UpdateResult(env.put(p).first, env.put(p).retry) == Returned)
  }

  /** The period loop over `ps`; the first period that does not end normally ends it. */
  function RunPeriods(ps: seq<Period>, ids: PlaylistIds, env: Provider): Run {
    if ps == [] then Run([], true)
    else
      var before := RunPeriods(ps[..|ps| - 1], ids, env);
      if !before.ok then before
      else
        var last := PeriodRun(ps[|ps| - 1], ids, env);
        Run(before.trace + last.trace, last.ok)
  }

  /** The whole pass: the token refresh, then the periods in key order. `ok` is
      whether "Success!" is reached. */
  function Pass(refreshed: bool, ids: PlaylistIds, env: Provider): Run {
    if !refreshed then Run([Refresh], false)
    else
      var periods := RunPeriods(Periods, ids, env);
      Run([Refresh] + periods.trace, periods.ok)
  }

  // ---------------------------------------------------------------------
  // Properties

  /** The list sent for a period is a prefix of `track_uris`, as long as
      `min(|track_uris|, limit)`, and its uris come from strictly increasing ranks. */
  lemma SongUrisPrefix(p: Period, tracks: seq<Scrobble>, env: Provider)
    ensures var uris := Resolved(Outcomes(p, tracks, env));
            var sent := SongUris(p, tracks, env);
            |sent| == (if |uris| <= NumTracks(p) then |uris| else NumTracks(p)) &&
            sent == uris[..|sent|] && |sent| <= NumTracks(p) <= 50
    ensures var outs := Outcomes(p, tracks, env);
            var sent := SongUris(p, tracks, env);
            var ranks := ResolvedRanks(outs);
            |sent| <= |ranks| &&
            (forall k :: 0 <= k < |sent| ==>
               ranks[k] < |tracks| && Resolves(outs[ranks[k]]) && sent[k] == outs[ranks[k]].uri) &&
            (forall k, l :: 0 <= k < l < |sent| ==> ranks[k] < ranks[l])
  {
    var outs := Outcomes(p, tracks, env);
    var ranks := ResolvedRanks(outs);
    ResolvedRanksSpec(outs);
    assert |SongUris(p, tracks, env)| <= |ranks|;
  }

  /** No outcome resolves: `track_uris` is empty. */
  lemma {:induction false} NoneResolved(outs: seq<FindOutcome>)
    requires forall i :: 0 <= i < |outs| ==> !Resolves(outs[i])
    ensures Resolved(outs) == []
  {
    if outs != [] {
      NoneResolved(outs[..|outs| - 1]);
    }
  }

  /** When every top track is unresolved, the playlist is still replaced, with []. */
  lemma AllUnresolvedSendsEmpty(p: Period, ids: PlaylistIds, env: Provider)
    requires env.topTracks(p).Some?
    requires forall i :: 0 <= i < |env.topTracks(p).value| ==>
               Outcome(p, env.topTracks(p).value[i], i, env) == NotFound
    ensures var run := PeriodRun(p, ids, env);
            |run.trace| > 0 && run.trace[|run.trace| - 1] == Update(p, PlaylistId(ids, p), [])
  {
    var tracks := env.topTracks(p).value;
    var outs := Outcomes(p, tracks, env);
    assert forall i :: 0 <= i < |outs| ==> outs[i] == NotFound;
    NoneResolved(outs);
  }

  /** Two resolved tracks and a limit of one: only the first uri is sent. */
  lemma ScenarioLimitOne(a: string, b: string)
    requires a != "" && b != ""
    ensures Take(Resolved([Found(a), Found(b)]), 1) == [a]
  {
    assert [Found(a), Found(b)][..1] == [Found(a)];
    assert [Found(a)][..0] == [];
    assert Resolved([Found(a)]) == [a];
    assert Resolved([Found(a), Found(b)]) == [a, b];
  }

  /** A period that ends normally calls `findSong` once per top track, in rank order,
      and replaces its own playlist with `SongUris` as its last call. */
  lemma PeriodCalls(p: Period, ids: PlaylistIds, env: Provider)
    requires PeriodRun(p, ids, env).ok
    ensures env.topTracks(p).Some?
    ensures var tracks := env.topTracks(p).value;
            var trace := PeriodRun(p, ids, env).trace;
            |trace| == |tracks| + 2 && trace[0] == FetchTop(p) &&
            (forall i :: 0 <= i < |tracks| ==> trace[i + 1] == Find(tracks[i].name, tracks[i].artist)) &&
            trace[|tracks| + 1] == Update(p, PlaylistId(ids, p), SongUris(p, tracks, env))
  {
  }

  /** Every `updatePlaylist` call in `trace` goes to the playlist of its period and
      sends at most that period's limit of uris. */
  ghost predicate UpdatesBounded(trace: seq<Step>, ids: PlaylistIds) {
    forall k :: 0 <= k < |trace| && trace[k].Update? ==>
      trace[k].playlistId == PlaylistId(ids, trace[k].period) &&
      |trace[k].songUris| <= NumTracks(trace[k].period)
  }

  lemma UpdatesBoundedAppend(a: seq<Step>, b: seq<Step>, ids: PlaylistIds)
    requires UpdatesBounded(a, ids) && UpdatesBounded(b, ids)
    ensures UpdatesBounded(a + b, ids)
  {
    forall k | 0 <= k < |a + b|
      ensures (a + b)[k] == if k < |a| then a[k] else b[k - |a|]
    {
    }
  }

  lemma PeriodUpdatesBounded(p: Period, ids: PlaylistIds, env: Provider)
    ensures UpdatesBounded(PeriodRun(p, ids, env).trace, ids)
  {
    match env.topTracks(p)
    case None =>
    case Some(tracks) =>
      SongUrisPrefix(p, tracks, env);
      var n := FirstFailure(Outcomes(p, tracks, env));
      var fs := if n < |tracks| then Finds(tracks[..n + 1]) else Finds(tracks);
      assert forall k :: 0 <= k < |fs| ==> !fs[k].Update?;
      UpdatesBoundedAppend([FetchTop(p)], fs, ids);
      if n == |tracks| {
        UpdatesBoundedAppend([FetchTop(p)] + fs, [Update(p, PlaylistId(ids, p), SongUris(p, tracks, env))], ids);
      }
  }

  lemma {:induction false} RunPeriodsUpdatesBounded(ps: seq<Period>, ids: PlaylistIds, env: Provider)
    ensures UpdatesBounded(RunPeriods(ps, ids, env).trace, ids)
  {
    if ps != [] {
      RunPeriodsUpdatesBounded(ps[..|ps| - 1], ids, env);
      var before := RunPeriods(ps[..|ps| - 1], ids, env);
      if before.ok {
        PeriodUpdatesBounded(ps[|ps| - 1], ids, env);
        UpdatesBoundedAppend(before.trace, PeriodRun(ps[|ps| - 1], ids, env).trace, ids);
      }
    }
  }

  /** Every `updatePlaylist` call of a pass goes to the playlist of its period and
      sends at most that period's limit of uris, so never more than 50. */
  lemma PassUpdatesBounded(refreshed: bool, ids: PlaylistIds, env: Provider)
    ensures var trace := Pass(refreshed, ids, env).trace;
            forall k :: 0 <= k < |trace| && trace[k].Update? ==>
              trace[k].playlistId == PlaylistId(ids, trace[k].period) &&
              |trace[k].songUris| <= NumTracks(trace[k].period) <= 50
  {
    RunPeriodsUpdatesBounded(Periods, ids, env);
    if refreshed {
      UpdatesBoundedAppend([Refresh], RunPeriods(Periods, ids, env).trace, ids);
    }
  }

  /** Once a period has not ended normally, the periods after it change nothing. */
  lemma {:induction false} RunPeriodsStops(ps: seq<Period>, j: nat, ids: PlaylistIds, env: Provider)
    requires j <= |ps|
    requires !RunPeriods(ps[..j], ids, env).ok
    ensures RunPeriods(ps, ids, env) == RunPeriods(ps[..j], ids, env)
  {
    if j < |ps| {
      var init := ps[..|ps| - 1];
      assert init[..j] == ps[..j];
      RunPeriodsStops(init, j, ids, env);
    } else {
      assert ps[..j] == ps;
    }
  }

  /** The pass in full: a failed refresh stops it before any period; otherwise the
      periods run in the order 7day, 1month, overall, and the first that does not end
      normally ends the pass, so that later periods are neither fetched nor updated
      and "Success!" is not reached. */
  lemma PassOrder(refreshed: bool, ids: PlaylistIds, env: Provider)
    ensures !refreshed ==> Pass(refreshed, ids, env) == Run([Refresh], false)
    ensures refreshed ==>
              var w := PeriodRun(Week, ids, env);
              var m := PeriodRun(Month, ids, env);
              var o := PeriodRun(Overall, ids, env);
              Pass(refreshed, ids, env) ==
                if !w.ok then Run([Refresh] + w.trace, false)
                else if !m.ok then Run([Refresh] + w.trace + m.trace, false)
                else Run([Refresh] + w.trace + m.trace + o.trace, o.ok)
  {
    var w := PeriodRun(Week, ids, env);
    var m := PeriodRun(Month, ids, env);
    var o := PeriodRun(Overall, ids, env);
    assert [Week][..0] == [];
    assert RunPeriods([Week], ids, env) == Run([] + w.trace, w.ok);
    assert [] + w.trace == w.trace;
    assert [Week, Month][..1] == [Week];
    assert RunPeriods([Week, Month], ids, env) ==
      if !w.ok then w else Run(w.trace + m.trace, m.ok);
    assert Periods[..2] == [Week, Month];
    assert RunPeriods(Periods, ids, env) ==
      if !w.ok then w else if !m.ok then Run(w.trace + m.trace, false)
      else Run(w.trace + m.trace + o.trace, o.ok);
    assert [Refresh] + (w.trace + m.trace) == [Refresh] + w.trace + m.trace;
    assert [Refresh] + (w.trace + m.trace + o.trace) == [Refresh] + w.trace + m.trace + o.trace;
  }

  lemma RunPeriodsStep(k: nat, ids: PlaylistIds, env: Provider)
    requires k < |Periods|
    requires RunPeriods(Periods[..k], ids, env).ok
    ensures RunPeriods(Periods[..k + 1], ids, env) ==
              Run(RunPeriods(Periods[..k], ids, env).trace + PeriodRun(Periods[k], ids, env).trace,
                  PeriodRun(Periods[k], ids, env).ok)
  {
    assert Periods[..k + 1][..k] == Periods[..k];
  }

  lemma FindsSnoc(tracks: seq<Scrobble>, i: nat)
    requires i < |tracks|
    ensures Finds(tracks[..i + 1]) == Finds(tracks[..i]) + [Find(tracks[i].name, tracks[i].artist)]
  {
  }

  lemma ResolvedSnoc(outs: seq<FindOutcome>, i: nat)
    requires i < |outs|
    ensures Resolved(outs[..i + 1]) ==
              Resolved(outs[..i]) + (if Resolves(outs[i]) then [outs[i].uri] else [])
  {
    assert outs[..i + 1][..i] == outs[..i];
  }

  lemma PeriodRunFails(p: Period, ids: PlaylistIds, env: Provider, tracks: seq<Scrobble>, i: nat)
    requires env.topTracks(p) == Some(tracks)
    requires i < |tracks|
    requires Outcomes(p, tracks, env)[i].Failed?
    requires forall j :: 0 <= j < i ==> !Outcomes(p, tracks, env)[j].Failed?
    ensures PeriodRun(p, ids, env) == Run([FetchTop(p)] + Finds(tracks[..i + 1]), false)
  {
    assert FirstFailure(Outcomes(p, tracks, env)) == i;
  }

  lemma PeriodRunCompletes(p: Period, ids: PlaylistIds, env: Provider, tracks: seq<Scrobble>)
    requires env.topTracks(p) == Some(tracks)
    requires forall j :: 0 <= j < |tracks| ==> !Outcomes(p, tracks, env)[j].Failed?
    ensures PeriodRun(p, ids, env) ==
              Run([FetchTop(p)] + Finds(tracks) + [Update(p, PlaylistId(ids, p), SongUris(p, tracks, env))],
                  UpdateResult(env.put(p).first, env.put(p).retry) == Returned)
  {
    assert FirstFailure(Outcomes(p, tracks, env)) == |tracks|;
  }

  // ---------------------------------------------------------------------
  // The pass, step by step

  /** One iteration of `for (period in playlists)`, with the headers the requests carry. */
  method UpdatePeriod(p: Period, ids: PlaylistIds, headers: Headers, env: Provider) returns (run: Run)
    ensures run == PeriodRun(p, ids, env)
  {
    var trace := [FetchTop(p)];
    var topTracks := env.topTracks(p);
    if topTracks.None? {
      return Run(trace, false);   // `for…of` over undefined throws
    }
    var tracks := topTracks.value;
    ghost var outs := Outcomes(p, tracks, env);
    var trackUris: seq<string> := [];
    for i := 0 to |tracks|
      invariant trace == [FetchTop(p)] + Finds(tracks[..i])
      invariant forall j :: 0 <= j < i ==> !outs[j].Failed?
      invariant trackUris == Resolved(outs[..i])
    {
      FindsSnoc(tracks, i);
      ResolvedSnoc(outs, i);
      trace := trace + [Find(tracks[i].name, tracks[i].artist)];
      var replies := env.search(p, i);
      var trackUri, _ := FindSong(tracks[i].name, tracks[i].artist, headers, replies.first, replies.retry);
      if trackUri.Failed? {
        PeriodRunFails(p, ids, env, tracks, i);
        return Run(trace, false);
      }
      if trackUri.Found? && trackUri.uri != "" {
        trackUris := trackUris + [trackUri.uri];
      }
    }
    assert outs[..|tracks|] == outs;
    assert tracks[..|tracks|] == tracks;
    PeriodRunCompletes(p, ids, env, tracks);
    var songUris := Take(trackUris, NumTracks(p));
    trace := trace + [Update(p, PlaylistId(ids, p), songUris)];
    var updated, _ := UpdatePlaylist(PlaylistId(ids, p), songUris, headers, env.put(p).first, env.put(p).retry);
    run := Run(trace, updated == Returned);
  }

  /** The loop `for (period in playlists)`, with the headers set by the refresh. */
  method UpdatePeriods(ids: PlaylistIds, headers: Headers, env: Provider) returns (run: Run)
    ensures run == RunPeriods(Periods, ids, env)
  {
    var trace := [];
    for k := 0 to |Periods|
      invariant RunPeriods(Periods[..k], ids, env) == Run(trace, true)
    {
      RunPeriodsStep(k, ids, env);
      var periodRun := UpdatePeriod(Periods[k], ids, headers, env);
      trace := trace + periodRun.trace;
      if !periodRun.ok {
        RunPeriodsStops(Periods, k + 1, ids, env);
        return Run(trace, false);
      }
    }
    assert Periods[..|Periods|] == Periods;
    run := Run(trace, true);
  }

  /** `getAndUpdateTopTrackPlaylists()` against the reply of the token refresh and the
      scripted services. The refresh comes first and changes the token state as
      `RefreshToken` says; the calls and the verdict are those of `Pass`. */
  method GetAndUpdateTopTrackPlaylists(store: TokenStore, ids: PlaylistIds, refreshReply: Reply<string>, env: Provider)
    returns (run: Run)
    requires store.Valid()
    modifies store
    ensures store.Valid()
    ensures run == Pass(refreshReply.Ok?, ids, env)
    ensures store.refreshToken == old(store.refreshToken)
    ensures refreshReply.Ok? ==> store.accessToken == Some(refreshReply.data)
    ensures refreshReply.Err? ==> store.accessToken == old(store.accessToken) && store.headers == old(store.headers)
  {
    var refreshed, _ := store.RefreshToken(refreshReply);
    if !refreshed {
      return Run([Refresh], false);
    }
    var periods := UpdatePeriods(ids, store.headers, env);
    run := Run([Refresh] + periods.trace, periods.ok);   // "Success!" when periods.ok
  }
}
