/** The puller's process-wide state: the accumulated output records and the
    player-name cache, with the per-game pipeline and the CSV export. */
module DataPuller {
  import opened Base
  import opened Runs
  import opened Csv
  import opened Assembly
  import opened Pagination
  import opened Statistics

  // ---------------------------------------------------------------------------
  // Player names
  // ---------------------------------------------------------------------------

  /** What the user lookup returns: the request or its parse failed, the
      user has no international name, or the international name. */
  datatype LookupResult =
    | LookupFailed
    | NoInternationalName
    | InternationalName(name: string)

  /** An id that cannot be a user id (no `x`, no `j`, shorter than 8 UTF-16
      code units) is taken to be a guest's name and is never looked up. */
  predicate LooksLikeGuest(playerId: string)
  {
    'x' !in playerId && 'j' !in playerId && Utf16Length(playerId) < 8
  }

  /** Short ids without `x` or `j` are guests. The length is counted in UTF-16
      units, so four characters outside the Basic Multilingual Plane already
      make an id too long to be a guest's. */
  lemma GuestExamples()
    ensures LooksLikeGuest("abc") && LooksLikeGuest("Runner7")
    ensures !LooksLikeGuest("Runner77") && !LooksLikeGuest("xy") && !LooksLikeGuest("jo")
    ensures !LooksLikeGuest("\U{1F3AE}\U{1F3AE}\U{1F3AE}\U{1F3AE}")
  {
    var e := "\U{1F3AE}";
    Utf16LengthExample();
    assert (e + e)[..1] == e;
    assert Utf16Length(e + e) == 4;
    assert (e + e + e)[..2] == e + e;
    assert Utf16Length(e + e + e) == 6;
    assert (e + e + e + e)[..3] == e + e + e;
    assert Utf16Length(e + e + e + e) == 8;
    assert "\U{1F3AE}\U{1F3AE}\U{1F3AE}\U{1F3AE}" == e + e + e + e;
  }

  /** The name `GetPlayerName` settles on for an id it has not cached. */
  function ResolvedName(playerId: string, lookupUser: string -> LookupResult): (name: string)
    ensures LooksLikeGuest(playerId) ==> name == playerId
    ensures lookupUser(playerId) !in {NoInternationalName, LookupFailed} || name == playerId
    ensures name != playerId ==> !LooksLikeGuest(playerId) && lookupUser(playerId) == InternationalName(name)
    ensures !LooksLikeGuest(playerId) && lookupUser(playerId).InternationalName? ==>
      name == lookupUser(playerId).name
  {
    if LooksLikeGuest(playerId) then playerId
    else
      match lookupUser(playerId)
      case InternationalName(n) => n
      case _ => playerId
  }

  /** The cache after resolving `ids` in order, starting from `cache`. */
  function ResolveAll(cache: map<string, string>, ids: seq<string>, lookupUser: string -> LookupResult)
    : (m: map<string, string>)
    ensures m.Keys == cache.Keys + (set id | id in ids)
    ensures forall id :: id in cache ==> m[id] == cache[id]
    ensures forall id :: id in m && id !in cache ==> m[id] == ResolvedName(id, lookupUser)
  {
    if ids == [] then cache
    else
      var c := ResolveAll(cache, ids[..|ids| - 1], lookupUser);
      var id := ids[|ids| - 1];
      assert ids == ids[..|ids| - 1] + [id];
      if id in c then c else c[id := ResolvedName(id, lookupUser)]
  }

  /** Resolving ids that are all cached already changes nothing: the cache
      memoises every answer. */
  lemma {:induction false} ResolveCached(cache: map<string, string>, ids: seq<string>, lookupUser: string -> LookupResult)
    requires forall id :: id in ids ==> id in cache
    ensures ResolveAll(cache, ids, lookupUser) == cache
  {
    if ids != [] {
      var prev := ids[..|ids| - 1];
      assert forall id :: id in prev ==> id in ids;
      ResolveCached(cache, prev, lookupUser);
    }
  }

  /** A second pass over the same ids changes nothing. */
  lemma ResolveIdempotent(cache: map<string, string>, ids: seq<string>, lookupUser: string -> LookupResult)
    ensures ResolveAll(ResolveAll(cache, ids, lookupUser), ids, lookupUser) == ResolveAll(cache, ids, lookupUser)
  {
    ResolveCached(ResolveAll(cache, ids, lookupUser), ids, lookupUser);
  }

  /** After the names of a game's players are resolved, each run carries the
      cached name of its player: the old cache entry when there was one, the
      freshly resolved name otherwise. */
  lemma NamesResolved(runs: seq<RunData>, cache: map<string, string>, lookupUser: string -> LookupResult)
    ensures
      var named := PlayerNamed(runs, ResolveAll(cache, Distinct(runs, PlayerOf), lookupUser));
      forall i :: 0 <= i < |runs| ==>
        named[i] == runs[i].(player_name :=
          if runs[i].player_id in cache then cache[runs[i].player_id]
          else ResolvedName(runs[i].player_id, lookupUser))
  {
    var ids := Distinct(runs, PlayerOf);
    forall i | 0 <= i < |runs|
      ensures runs[i].player_id in ids
    {
      assert runs[i] in runs;
      assert PlayerOf(runs[i]) in Image(runs, PlayerOf);
    }
  }

  // ---------------------------------------------------------------------------
  // The puller
  // ---------------------------------------------------------------------------

  class Puller {
    /** The records of every processed game, in processing order. */
    var allRuns: seq<RunRecord>
    /** Player id to display name; an entry is never changed once made. */
    var playerNameCache: map<string, string>
    /** The ids sent to the user lookup, in order. */
    ghost var remoteLookups: seq<string>

    /** Every remote lookup is of a non-guest id whose answer is cached, and
        no id is looked up twice. */
    ghost predicate Valid()
      reads this
    {
      && (forall i :: 0 <= i < |remoteLookups| ==>
            remoteLookups[i] in playerNameCache && !LooksLikeGuest(remoteLookups[i]))
      && (forall i, j :: 0 <= i < j < |remoteLookups| ==> remoteLookups[i] != remoteLookups[j])
    }

    constructor ()
      ensures Valid()
      ensures allRuns == [] && playerNameCache == map[] && remoteLookups == []
    {
      allRuns := [];
      playerNameCache := map[];
      remoteLookups := [];
    }

    /** The memoising name resolver: a cached id answers from the cache;
        otherwise a guest-looking id names itself, and any other id is
        looked up once, falling back to the id when the lookup fails or has
        no international name; the answer is cached. */
    method GetPlayerName(playerId: string, lookupUser: string -> LookupResult) returns (name: string)
      requires Valid()
      modifies this
      ensures Valid()
      ensures allRuns == old(allRuns)
      ensures playerId in playerNameCache && playerNameCache[playerId] == name
      ensures playerId in old(playerNameCache) ==>
        && name == old(playerNameCache)[playerId]
        && playerNameCache == old(playerNameCache)
        && remoteLookups == old(remoteLookups)
      ensures playerId !in old(playerNameCache) ==>
        && name == ResolvedName(playerId, lookupUser)
        && playerNameCache == old(playerNameCache)[playerId := name]
        && remoteLookups == old(remoteLookups) + (if LooksLikeGuest(playerId) then [] else [playerId])
    {
      if playerId in playerNameCache {
        return playerNameCache[playerId];
      }
      if LooksLikeGuest(playerId) {
        playerNameCache := playerNameCache[playerId := playerId];
        return playerId;
      }
      remoteLookups := remoteLookups + [playerId];
      var response := lookupUser(playerId);
      match response {
        case InternationalName(n) => name := n;
        case NoInternationalName => name := playerId;
        case LookupFailed => name := playerId;
      }
      playerNameCache := playerNameCache[playerId := name];
    }

    /** The loop over a game's distinct player ids that resolves every id
        not yet cached. */
    method ResolvePlayerNames(uniquePlayerIds: seq<string>, lookupUser: string -> LookupResult)
      requires Valid()
      modifies this
      ensures Valid()
      ensures allRuns == old(allRuns)
      ensures playerNameCache == ResolveAll(old(playerNameCache), uniquePlayerIds, lookupUser)
      ensures |remoteLookups| >= |old(remoteLookups)|
      ensures remoteLookups[..|old(remoteLookups)|] == old(remoteLookups)
      ensures forall k :: |old(remoteLookups)| <= k < |remoteLookups| ==>
        remoteLookups[k] in uniquePlayerIds && remoteLookups[k] !in old(playerNameCache)
    {
      for i := 0 to |uniquePlayerIds|
        invariant Valid()
        invariant allRuns == old(allRuns)
        invariant playerNameCache == ResolveAll(old(playerNameCache), uniquePlayerIds[..i], lookupUser)
        invariant |remoteLookups| >= |old(remoteLookups)|
        invariant remoteLookups[..|old(remoteLookups)|] == old(remoteLookups)
        invariant forall k :: |old(remoteLookups)| <= k < |remoteLookups| ==>
          remoteLookups[k] in uniquePlayerIds[..i] && remoteLookups[k] !in old(playerNameCache)
      {
        var playerId := uniquePlayerIds[i];
        ghost var before := remoteLookups;
        var ids := uniquePlayerIds[..i + 1];
        assert ids[..i] == uniquePlayerIds[..i] && ids[i] == playerId;
        if playerId !in playerNameCache {
          var _ := GetPlayerName(playerId, lookupUser);
        }
        assert remoteLookups == before || remoteLookups == before + [playerId];
        assert remoteLookups[..|old(remoteLookups)|] == before[..|old(remoteLookups)|];
        forall k | |old(remoteLookups)| <= k < |remoteLookups|
          ensures remoteLookups[k] in ids && remoteLookups[k] !in old(playerNameCache)
        {
          if k < |before| {
            assert remoteLookups[k] == before[k];
          }
        }
      }
      assert uniquePlayerIds[..|uniquePlayerIds|] == uniquePlayerIds;
    }

    /** The loop that turns each run into a record and appends it, finding
        the rank by a linear search. */
    method AppendRecords(gameId: string, info: GameInfo, leaderboardData: map<string, seq<LeaderboardEntry>>,
                         worldRecords: map<string, string>, playerStats: map<string, PlayerStats>,
                         runs: seq<RunData>)
      modifies this
      ensures allRuns == old(allRuns) + Records(gameId, info, leaderboardData, worldRecords, playerStats, runs)
      ensures playerNameCache == old(playerNameCache) && remoteLookups == old(remoteLookups)
    {
      for i := 0 to |runs|
        invariant allRuns == old(allRuns) + Records(gameId, info, leaderboardData, worldRecords, playerStats, runs[..i])
        invariant playerNameCache == old(playerNameCache) && remoteLookups == old(remoteLookups)
      {
        var rec := AssembleRecord(gameId, info, leaderboardData, worldRecords, playerStats, runs[i]);
        RecordsStep(gameId, info, leaderboardData, worldRecords, playerStats, runs, i);
        AppendAssoc(old(allRuns), Records(gameId, info, leaderboardData, worldRecords, playerStats, runs[..i]), [rec]);
        allRuns := allRuns + [rec];
      }
      assert runs[..|runs|] == runs;
    }

    /** One game: leaderboards and world records per category, the paged
        runs, category and player names, player statistics, and one record
        per run appended to `allRuns`. The game is skipped, leaving the state
        as it was, when its categories cannot be fetched or two categories
        share an id. `info` is the game's name and release year as fetched
        (with its fallback already applied), `categories` the category list
        or None when fetching it failed. */
    method ProcessGameForStata(gameId: string, info: GameInfo, categories: Option<seq<Category>>,
                               boardFor: string -> Option<seq<LeaderboardEntry>>,
                               fetchPage: nat -> PageResult, lookupUser: string -> LookupResult,
                               key: SubmittedKey, daySpan: (Option<string>, Option<string>) -> Option<int>)
      requires Valid()
      modifies this
      ensures Valid()
      ensures categories.None? || !DistinctIds(categories.value) ==>
        allRuns == old(allRuns) && playerNameCache == old(playerNameCache)
      ensures categories.Some? && DistinctIds(categories.value) ==>
        var cats := categories.value;
        var runs := CategoryNamed(Crawl(fetchPage, 0, []).runs, CategoryLookup(cats));
        && playerNameCache == ResolveAll(old(playerNameCache), Distinct(runs, PlayerOf), lookupUser)
        && var named := PlayerNamed(runs, playerNameCache);
           allRuns == old(allRuns) + Records(gameId, info, LeaderboardData(cats, boardFor), WorldRecords(cats, boardFor),
                                             PlayerStatistics(named, key, daySpan), named)
    {
      if categories.None? {
        return;
      }
      var cats := categories.value;
      if !DistinctIds(cats) {
        return;
      }
      var categoryLookup := CategoryLookup(cats);
      var leaderboardData, worldRecords := BuildLeaderboards(cats, boardFor);
      var runs := GetAllRunsForGame(fetchPage);
      runs := EnrichCategoryNames(runs, categoryLookup);
      var uniquePlayerIds := Distinct(runs, PlayerOf);
      ResolvePlayerNames(uniquePlayerIds, lookupUser);
      runs := EnrichPlayerNames(runs, playerNameCache);
      var playerStats := CalculatePlayerStatistics(runs, key, daySpan);
      AppendRecords(gameId, info, leaderboardData, worldRecords, playerStats, runs);
    }

    /** The lines written to the CSV file: the header, then one line per
        record in order. */
    method ExportToCsv(showReal: real -> string) returns (lines: seq<string>)
      ensures lines == [HeaderLine()] + RowLines(allRuns, showReal)
    {
      lines := [HeaderLine()];
      for i := 0 to |allRuns|
        invariant lines == [HeaderLine()] + RowLines(allRuns[..i], showReal)
      {
        assert allRuns[..i + 1][..i] == allRuns[..i];
        lines := lines + [RowLine(allRuns[i], showReal)];
      }
      assert allRuns[..|allRuns|] == allRuns;
    }
  }
}
