/** Turning a game's runs into output records: category and player name
    back-fill, leaderboard rank, world-record flag and the per-run flags. */
module Assembly {
  import opened Base
  import opened Runs

  // ---------------------------------------------------------------------------
  // Category lookups and leaderboards
  // ---------------------------------------------------------------------------

  predicate DistinctIds(cats: seq<Category>)
  {
    forall i, j :: 0 <= i < j < |cats| ==> cats[i].id != cats[j].id
  }

  function CategoryIds(cats: seq<Category>): set<string>
  {
    set c | c in cats :: c.id
  }

  /** `categories.ToDictionary(c => c.id, c => c.name)`; only defined by the
      source when the ids are distinct (it throws otherwise). */
  function CategoryLookup(cats: seq<Category>): (m: map<string, string>)
    requires DistinctIds(cats)
    ensures m.Keys == CategoryIds(cats)
    ensures forall i :: 0 <= i < |cats| ==> m[cats[i].id] == cats[i].name
  {
    if cats == [] then map[]
    else
      var last := cats[|cats| - 1];
      var prev := cats[..|cats| - 1];
      assert forall i :: 0 <= i < |prev| ==> prev[i] == cats[i];
      assert cats == prev + [last];
      CategoryLookup(prev)[last.id := last.name]
  }

  /** `GetLeaderboard`'s result: the fetched list, or the empty list when the
      request or its decoding failed. */
  function BoardOrEmpty(fetched: Option<seq<LeaderboardEntry>>): seq<LeaderboardEntry>
  {
    if fetched.Some? then fetched.value else []
  }

  /** `leaderboardData` after the loop over `cats`: every category maps to its
      (possibly empty) leaderboard. */
  function LeaderboardData(cats: seq<Category>, boardFor: string -> Option<seq<LeaderboardEntry>>)
    : (m: map<string, seq<LeaderboardEntry>>)
    ensures m.Keys == CategoryIds(cats)
    ensures forall cid :: cid in m ==> m[cid] == BoardOrEmpty(boardFor(cid))
  {
    if cats == [] then map[]
    else
      var last := cats[|cats| - 1];
      var prev := cats[..|cats| - 1];
      assert cats == prev + [last];
      LeaderboardData(prev, boardFor)[last.id := BoardOrEmpty(boardFor(last.id))]
  }

  /** `worldRecords` after the loop over `cats`: a category with a non-empty
      leaderboard maps to the run id of its first entry; no other key appears. */
  function WorldRecords(cats: seq<Category>, boardFor: string -> Option<seq<LeaderboardEntry>>)
    : (m: map<string, string>)
    ensures forall cid :: cid in m <==> cid in CategoryIds(cats) && |BoardOrEmpty(boardFor(cid))| > 0
    ensures forall cid :: cid in m ==> m[cid] == BoardOrEmpty(boardFor(cid))[0].run_id
  {
    if cats == [] then map[]
    else
      var last := cats[|cats| - 1];
      var prev := cats[..|cats| - 1];
      assert cats == prev + [last];
      var lb := BoardOrEmpty(boardFor(last.id));
      if |lb| > 0 then WorldRecords(prev, boardFor)[last.id := lb[0].run_id]
      else WorldRecords(prev, boardFor)
  }

  /** The loop that fetches each category's leaderboard and records its first
      entry as the world record. */
  method BuildLeaderboards(cats: seq<Category>, boardFor: string -> Option<seq<LeaderboardEntry>>)
    returns (leaderboardData: map<string, seq<LeaderboardEntry>>, worldRecords: map<string, string>)
    ensures leaderboardData == LeaderboardData(cats, boardFor)
    ensures worldRecords == WorldRecords(cats, boardFor)
  {
    leaderboardData, worldRecords := map[], map[];
    for i := 0 to |cats|
      invariant leaderboardData == LeaderboardData(cats[..i], boardFor)
      invariant worldRecords == WorldRecords(cats[..i], boardFor)
    {
      assert cats[..i + 1][..i] == cats[..i];
      var category := cats[i];
      var leaderboard := BoardOrEmpty(boardFor(category.id));
      leaderboardData := leaderboardData[category.id := leaderboard];
      if |leaderboard| > 0 {
        worldRecords := worldRecords[category.id := leaderboard[0].run_id];
      }
    }
    assert cats[..|cats|] == cats;
  }

  // ---------------------------------------------------------------------------
  // Rank and world record
  // ---------------------------------------------------------------------------

  /** 1-based position of the first leaderboard entry for `runId`; 0 when no
      entry has that id. */
  function Rank(lb: seq<LeaderboardEntry>, runId: string): (r: nat)
    ensures r <= |lb|
    ensures r == 0 <==> forall i :: 0 <= i < |lb| ==> lb[i].run_id != runId
    ensures r > 0 ==> lb[r - 1].run_id == runId
    ensures forall i :: 0 <= i < r - 1 ==> lb[i].run_id != runId
  {
    if lb == [] then 0
    else if lb[0].run_id == runId then 1
    else
      var k := Rank(lb[1..], runId);
      assert forall i :: 1 <= i < |lb| ==> lb[i] == lb[1..][i - 1];
      if k == 0 then 0 else k + 1
  }

  /** The `for` loop with `break` that looks for the run in its leaderboard. */
  method FindRank(lb: seq<LeaderboardEntry>, runId: string) returns (rank: int)
    ensures rank == Rank(lb, runId)
  {
    rank := 0;
    var i := 0;
    while i < |lb|
      invariant 0 <= i <= |lb|
      invariant rank == 0
      invariant forall j :: 0 <= j < i ==> lb[j].run_id != runId
    {
      if lb[i].run_id == runId {
        rank := i + 1;
        break;
      }
      i := i + 1;
    }
  }

  /** `worldRecords.ContainsKey(run.category_id) && worldRecords[run.category_id] == run.id`. */
  predicate IsWr(worldRecords: map<string, string>, run: RunData)
  {
    run.category_id in worldRecords && worldRecords[run.category_id] == run.id
  }

  // ---------------------------------------------------------------------------
  // Records
  // ---------------------------------------------------------------------------

  /** `IsNullOrEmpty(s) ? 0 : 1`. */
  function PresenceFlag(s: Option<string>): (flag: int)
    ensures flag == 0 || flag == 1
    ensures flag == 1 <==> !IsNullOrEmpty(s)
  {
    if IsNullOrEmpty(s) then 0 else 1
  }

  /** `comment?.Length ?? 0`, counted in UTF-16 code units. */
  function CommentLength(comment: Option<string>): (n: int)
    ensures n == Utf16Length(OrEmpty(comment))
    ensures n == 0 <==> IsNullOrEmpty(comment)
    ensures |OrEmpty(comment)| <= n <= 2 * |OrEmpty(comment)|
  {
    if comment.Some? then Utf16Length(comment.value) else 0
  }

  /** The output record of one run, from the values computed for it. */
  function MakeRecord(gameId: string, info: GameInfo, run: RunData, isWr: bool, rank: int,
                      totalInCategory: int, pStats: PlayerStats): (rec: RunRecord)
    ensures rec.run_id == run.id && rec.game_id == gameId
    ensures rec.game_name == info.name && rec.game_release_year == info.release_year
    ensures rec.category_id == run.category_id && rec.category_name == run.category_name
    ensures rec.time_seconds == run.primary_t && rec.date_submitted == run.submitted
    ensures rec.player_id == run.player_id && rec.player_name == run.player_name
    ensures rec.is_wr == 0 || rec.is_wr == 1
    ensures rec.is_wr == 1 <==> isWr
    ensures rec.rank == rank && rec.total_runners_in_category == totalInCategory
    ensures rec.video_link == run.video_link
    ensures rec.has_video == 1 <==> !IsNullOrEmpty(run.video_link)
    ensures rec.has_video == PresenceFlag(run.video_link)
    ensures rec.platform == run.platform && rec.emulated == run.emulated
    ensures rec.player_total_runs == pStats.total_runs && rec.player_total_games == pStats.unique_games
    ensures rec.player_total_categories == pStats.unique_categories
    ensures rec.player_avg_time_improvement == pStats.avg_time_improvement
    ensures rec.player_days_active == pStats.days_active
    ensures rec.run_comment_length == Utf16Length(OrEmpty(run.comment))
    ensures rec.has_comment == 1 <==> rec.run_comment_length > 0
    ensures rec.has_comment == PresenceFlag(run.comment)
  {
    RunRecord(
      run.id, gameId, info.name, info.release_year, run.category_id, run.category_name,
      run.primary_t, run.submitted, run.player_id, run.player_name,
      if isWr then 1 else 0, rank, totalInCategory,
      run.video_link, PresenceFlag(run.video_link), run.platform, run.emulated,
      pStats.total_runs, pStats.unique_games, pStats.unique_categories,
      pStats.avg_time_improvement, pStats.days_active,
      CommentLength(run.comment), PresenceFlag(run.comment))
  }

  /** The record a run gets, given the game's leaderboards, world records and
      player statistics. */
  function RecordFor(gameId: string, info: GameInfo, leaderboardData: map<string, seq<LeaderboardEntry>>,
                     worldRecords: map<string, string>, playerStats: map<string, PlayerStats>,
                     run: RunData): (rec: RunRecord)
    ensures rec.is_wr == 1 <==> IsWr(worldRecords, run)
    ensures rec.total_runners_in_category ==
      if run.category_id in leaderboardData then |leaderboardData[run.category_id]| else 0
    ensures rec.rank == if run.category_id in leaderboardData then Rank(leaderboardData[run.category_id], run.id) else 0
    ensures 0 <= rec.rank <= rec.total_runners_in_category
    ensures rec.rank > 0 ==> leaderboardData[run.category_id][rec.rank - 1].run_id == run.id
    ensures run.player_id !in playerStats ==> rec.player_total_runs == 0 && rec.player_days_active == 0
  {
    var onBoard := run.category_id in leaderboardData;
    MakeRecord(gameId, info, run, IsWr(worldRecords, run),
      if onBoard then Rank(leaderboardData[run.category_id], run.id) else 0,
      if onBoard then |leaderboardData[run.category_id]| else 0,
      if run.player_id in playerStats then playerStats[run.player_id] else NoStats)
  }

  /** The body of the record loop for one run: the world-record test, the
      rank search when the category has a leaderboard, and the player's
      statistics or the all-zero default. */
  method AssembleRecord(gameId: string, info: GameInfo, leaderboardData: map<string, seq<LeaderboardEntry>>,
                        worldRecords: map<string, string>, playerStats: map<string, PlayerStats>,
                        run: RunData) returns (rec: RunRecord)
    ensures rec == RecordFor(gameId, info, leaderboardData, worldRecords, playerStats, run)
  {
    var isWr := IsWr(worldRecords, run);
    var rank := 0;
    var totalInCategory := 0;
    if run.category_id in leaderboardData {
      var lb := leaderboardData[run.category_id];
      totalInCategory := |lb|;
      rank := FindRank(lb, run.id);
    }
    var pStats := if run.player_id in playerStats then playerStats[run.player_id] else NoStats;
    rec := MakeRecord(gameId, info, run, isWr, rank, totalInCategory, pStats);
  }

  /** The records of `runs`, one per run, in run order. */
  function Records(gameId: string, info: GameInfo, leaderboardData: map<string, seq<LeaderboardEntry>>,
                   worldRecords: map<string, string>, playerStats: map<string, PlayerStats>,
                   runs: seq<RunData>): (records: seq<RunRecord>)
    ensures |records| == |runs|
  {
    if runs == [] then []
    else
      Records(gameId, info, leaderboardData, worldRecords, playerStats, runs[..|runs| - 1])
      + [RecordFor(gameId, info, leaderboardData, worldRecords, playerStats, runs[|runs| - 1])]
  }

  /** Record `i` is the record of run `i`: one record per run, in run order. */
  lemma {:induction false} RecordsAt(gameId: string, info: GameInfo, leaderboardData: map<string, seq<LeaderboardEntry>>,
                                     worldRecords: map<string, string>, playerStats: map<string, PlayerStats>,
                                     runs: seq<RunData>)
    ensures forall i :: 0 <= i < |runs| ==>
      Records(gameId, info, leaderboardData, worldRecords, playerStats, runs)[i]
      == RecordFor(gameId, info, leaderboardData, worldRecords, playerStats, runs[i])
  {
    if runs != [] {
      var prev := runs[..|runs| - 1];
      RecordsAt(gameId, info, leaderboardData, worldRecords, playerStats, prev);
      assert forall i :: 0 <= i < |prev| ==> prev[i] == runs[i];
    }
  }

  /** Extending the runs by one adds that run's record at the end. */
  lemma RecordsStep(gameId: string, info: GameInfo, leaderboardData: map<string, seq<LeaderboardEntry>>,
                    worldRecords: map<string, string>, playerStats: map<string, PlayerStats>,
                    runs: seq<RunData>, i: nat)
    requires i < |runs|
    ensures Records(gameId, info, leaderboardData, worldRecords, playerStats, runs[..i + 1])
      == Records(gameId, info, leaderboardData, worldRecords, playerStats, runs[..i])
      + [RecordFor(gameId, info, leaderboardData, worldRecords, playerStats, runs[i])]
  {
    assert runs[..i + 1][..i] == runs[..i];
  }

  /** What a record says about its run, when the leaderboards and world
      records come from the same categories: the flags follow the optional
      strings, `rank` is the 1-based position of the run's first leaderboard
      entry (0 when absent, never above the leaderboard's length), and `is_wr`
      is 1 exactly when the run heads a non-empty leaderboard, hence with rank 1. */
  lemma RecordFacts(gameId: string, info: GameInfo, cats: seq<Category>,
                    boardFor: string -> Option<seq<LeaderboardEntry>>,
                    playerStats: map<string, PlayerStats>, run: RunData)
    ensures
      var rec := RecordFor(gameId, info, LeaderboardData(cats, boardFor), WorldRecords(cats, boardFor), playerStats, run);
      var listed := run.category_id in CategoryIds(cats);
      var lb := BoardOrEmpty(boardFor(run.category_id));
      && rec.run_id == run.id && rec.game_id == gameId && rec.category_id == run.category_id
      && rec.player_id == run.player_id && rec.player_name == run.player_name
      && rec.category_name == run.category_name
      && rec.game_name == info.name && rec.game_release_year == info.release_year
      && rec.time_seconds == run.primary_t && rec.date_submitted == run.submitted
      && rec.video_link == run.video_link && rec.platform == run.platform && rec.emulated == run.emulated
      && (rec.is_wr == 0 || rec.is_wr == 1)
      && (rec.is_wr == 1 <==> listed && |lb| > 0 && lb[0].run_id == run.id)
      && (rec.is_wr == 1 ==> rec.rank == 1)
      && rec.total_runners_in_category == (if listed then |lb| else 0)
      && 0 <= rec.rank <= rec.total_runners_in_category
      && (rec.rank == 0 <==> !listed || forall i :: 0 <= i < |lb| ==> lb[i].run_id != run.id)
      && (rec.rank > 0 ==> lb[rec.rank - 1].run_id == run.id)
      && (forall i :: 0 <= i < rec.rank - 1 ==> lb[i].run_id != run.id)
      && (rec.has_video == 1 <==> !IsNullOrEmpty(run.video_link))
      && (rec.has_video == 0 || rec.has_video == 1)
      && (rec.has_comment == 1 <==> !IsNullOrEmpty(run.comment))
      && (rec.has_comment == 0 || rec.has_comment == 1)
      && rec.run_comment_length == Utf16Length(OrEmpty(run.comment))
      && (rec.has_comment == 1 <==> rec.run_comment_length > 0)
      && (run.player_id in playerStats ==>
            var st := playerStats[run.player_id];
            && rec.player_total_runs == st.total_runs && rec.player_total_games == st.unique_games
            && rec.player_total_categories == st.unique_categories
            && rec.player_avg_time_improvement == st.avg_time_improvement
            && rec.player_days_active == st.days_active)
      && (run.player_id !in playerStats ==>
            && rec.player_total_runs == 0 && rec.player_total_games == 0
            && rec.player_total_categories == 0 && rec.player_avg_time_improvement == 0.0
            && rec.player_days_active == 0)
  {
  }

  // ---------------------------------------------------------------------------
  // Name back-fill
  // ---------------------------------------------------------------------------

  /** A run after the category-name back-fill. */
  function WithCategoryName(run: RunData, categoryLookup: map<string, string>): RunData
  {
    if run.category_id in categoryLookup then run.(category_name := categoryLookup[run.category_id]) else run
  }

  /** A run after the player-name back-fill from the name cache. */
  function WithPlayerName(run: RunData, nameCache: map<string, string>): RunData
  {
    if run.player_id in nameCache then run.(player_name := nameCache[run.player_id]) else run
  }

  /** The runs after the category-name back-fill. */
  function CategoryNamed(runs: seq<RunData>, categoryLookup: map<string, string>): (r: seq<RunData>)
    ensures |r| == |runs|
  {
    seq(|runs|, i requires 0 <= i < |runs| => WithCategoryName(runs[i], categoryLookup))
  }

  /** The runs after the player-name back-fill. */
  function PlayerNamed(runs: seq<RunData>, nameCache: map<string, string>): (r: seq<RunData>)
    ensures |r| == |runs|
  {
    seq(|runs|, i requires 0 <= i < |runs| => WithPlayerName(runs[i], nameCache))
  }

  /** The loop that overwrites each run's category name from the lookup; the
      list of runs is updated element by element. */
  method EnrichCategoryNames(runs: seq<RunData>, categoryLookup: map<string, string>)
    returns (enriched: seq<RunData>)
    ensures |enriched| == |runs|
    ensures enriched == CategoryNamed(runs, categoryLookup)
    ensures forall i :: 0 <= i < |runs| ==>
      enriched[i] == runs[i].(category_name := enriched[i].category_name)
    ensures forall i :: 0 <= i < |runs| ==>
      enriched[i].category_name ==
        if runs[i].category_id in categoryLookup then categoryLookup[runs[i].category_id] else runs[i].category_name
  {
    enriched := runs;
    for i := 0 to |enriched|
      invariant |enriched| == |runs|
      invariant forall j :: 0 <= j < i ==> enriched[j] == WithCategoryName(runs[j], categoryLookup)
      invariant forall j :: i <= j < |runs| ==> enriched[j] == runs[j]
    {
      var run := enriched[i];
      if run.category_id in categoryLookup {
        enriched := enriched[i := run.(category_name := categoryLookup[run.category_id])];
      }
    }
  }

  /** The loop that overwrites each run's player name from the name cache. */
  method EnrichPlayerNames(runs: seq<RunData>, nameCache: map<string, string>)
    returns (enriched: seq<RunData>)
    ensures |enriched| == |runs|
    ensures enriched == PlayerNamed(runs, nameCache)
    ensures forall i :: 0 <= i < |runs| ==>
      enriched[i] == runs[i].(player_name := enriched[i].player_name)
    ensures forall i :: 0 <= i < |runs| ==>
      enriched[i].player_name ==
        if runs[i].player_id in nameCache then nameCache[runs[i].player_id] else runs[i].player_name
  {
    enriched := runs;
    for i := 0 to |enriched|
      invariant |enriched| == |runs|
      invariant forall j :: 0 <= j < i ==> enriched[j] == WithPlayerName(runs[j], nameCache)
      invariant forall j :: i <= j < |runs| ==> enriched[j] == runs[j]
    {
      var run := enriched[i];
      if run.player_id in nameCache {
        enriched := enriched[i := run.(player_name := nameCache[run.player_id])];
      }
    }
  }
}
