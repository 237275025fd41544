/** The records the puller reads from the API and the flat record it writes per run. */
module Runs {
  import opened Base

  /** Game metadata; `release_year` is 0 when unknown. */
  datatype GameInfo = GameInfo(name: string, release_year: int)

  datatype Category = Category(id: string, name: string)

  /** One leaderboard row; the position of the row in its list is its rank. */
  datatype LeaderboardEntry = LeaderboardEntry(run_id: string, time: real)

  /** One run as parsed from a page of the runs listing. `category_name` and
      `player_name` start as placeholders and are back-filled later.
      `primary_t` is the run time in seconds (a double in the source). */
  datatype RunData = RunData(
    id: string,
    category_id: string,
    category_name: string,
    player_id: string,
    player_name: string,
    submitted: Option<string>,
    platform: string,
    emulated: int,
    video_link: Option<string>,
    comment: Option<string>,
    primary_t: real)

  /** Per-player aggregate over one game's runs. */
  datatype PlayerStats = PlayerStats(
    total_runs: int,
    unique_games: int,
    unique_categories: int,
    avg_time_improvement: real,
    days_active: int)

  /** The statistics a run gets when its player has no entry: all zero. */
  const NoStats := PlayerStats(0, 0, 0, 0.0, 0)

  /** One output row, field for field in the order of the CSV columns. */
  datatype RunRecord = RunRecord(
    run_id: string,
    game_id: string,
    game_name: string,
    game_release_year: int,
    category_id: string,
    category_name: string,
    time_seconds: real,
    date_submitted: Option<string>,
    player_id: string,
    player_name: string,
    is_wr: int,
    rank: int,
    total_runners_in_category: int,
    video_link: Option<string>,
    has_video: int,
    platform: string,
    emulated: int,
    player_total_runs: int,
    player_total_games: int,
    player_total_categories: int,
    player_avg_time_improvement: real,
    player_days_active: int,
    run_comment_length: int,
    has_comment: int)
}
