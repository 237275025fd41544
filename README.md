# Speedrun data puller — a Dafny model

The speedrun data puller (`SpeedDataMining/Program.cs`) pulls a fixed list of
games from the speedrun.com REST API. It fetches each game's categories, the
top-100 leaderboard of every category, and all of the game's runs, 200 per
page. It resolves every player id to a display name through a process-wide
cache and computes per-player statistics. It then turns every run into one
flat 24-column record. At the end it writes all records to a CSV file for
analysis in Stata.

This project models that core in Dafny:

* `base.dfy` — `Option` (a C# string that may be `null`), `IsNullOrEmpty`, and
  `Utf16Length`, the C# `Length` of a string in UTF-16 code units.
* `runs.dfy` — the value types: `GameInfo`, `Category`, `LeaderboardEntry`,
  `RunData`, `PlayerStats` (with its all-zero default) and the 24-field `RunRecord`.
* `csv.dfy` — `EscapeCsv`, the fixed header, the data line of a record, and
  an independent reader of comma-separated text. The reader is used to state
  what a consumer of the exported file reads back. It treats quoted fields as
  section 2 of RFC 4180 does, but it ends each record at a line feed (not
  CRLF), expects a line feed after the last record, and accepts a quote or a
  carriage return inside an unquoted field. Strict RFC 4180 allows neither
  in an unquoted field.
* `assembly.dfy` — the category lookup, the leaderboard and world-record
  dictionaries, the rank search, record assembly, and the category-name and
  player-name back-fill loops.
* `pagination.dfy` — `GetAllRunsForGame`. It requests pages at offsets 0,
  200, 400, ... until a page is not full (not exactly 200 runs, or a size
  field other than 200), fails, or 100000 runs are held.
* `statistics.dfy` — `CalculatePlayerStatistics`. It groups runs by player,
  orders them by submission date, counts distinct run ids and categories,
  averages the positive per-category improvements, and computes days active.
* `puller.dfy` — the class `Puller`. It holds the process-wide state
  (`allRuns`, `playerNameCache`) and the methods that change it:
  `GetPlayerName`, the per-game pipeline `ProcessGameForStata`, and
  `ExportToCsv`.

Network responses are parameters of the model:

* `fetchPage(offset)` gives a page of runs;
* `boardFor(categoryId)` gives a leaderboard, or `None` when the request throws;
* `lookupUser(id)` gives the user lookup's answer;
* `categories` is the category list, or `None` when fetching it throws;
* `info` is the game's name and release year.

The date parser (`daySpan`), the order `OrderBy` puts dates in (`key`) and
the invariant-culture formatting of doubles (`showReal`) are parameters too.

## Model

| member | source | states |
|---|---|---|
| Base.Utf16Length | SpeedDataMining/Program.cs:258 | `Length` of a C# string counts UTF-16 code units: between one and two per character, and exactly one per character iff every character lies in the Basic Multilingual Plane. |
| Base.Utf16LengthAppend | SpeedDataMining/Program.cs:258 | The UTF-16 length of a concatenation is the sum of the lengths of its parts. |
| Base.Utf16LengthExample | SpeedDataMining/Program.cs:258 | A character outside the Basic Multilingual Plane counts 2, so `"x"` followed by one such character has length 3. |
| Csv.EscapeCsv | SpeedDataMining/Program.cs:597-607 | The result is empty exactly when the value is null or empty. A value without a comma, quote or line feed is returned unchanged. Any other value is wrapped in quotes, and the text between the quotes is the value with every quote doubled. |
| Csv.QuotedRoundTrip | SpeedDataMining/Program.cs:604 | Reading the body of a quoted field gives back the value whose quotes were doubled. Reading stops at the closing quote and leaves the rest of the text. |
| Csv.PlainRoundTrip | SpeedDataMining/Program.cs:606 | A value without a comma or line feed, written unquoted, reads back unchanged up to the separator that follows it. |
| Csv.EscapeCsvRoundTrip | SpeedDataMining/Program.cs:597-607 | Whatever `EscapeCsv` writes reads back as one field holding the original value (null reads back as the empty field), whether a comma, a line feed or the end of the text follows. |
| Csv.NatText | SpeedDataMining/Program.cs:572 | The decimal text of a natural number is non-empty, holds only digits, and has no leading zero. |
| Csv.IntText | SpeedDataMining/Program.cs:579-591 | An interpolated `int` column is non-empty and holds no comma, quote or line feed. |
| Csv.NatTextValue | SpeedDataMining/Program.cs:572 | The digits written for a natural number denote exactly that number. |
| Csv.IntTextValue | SpeedDataMining/Program.cs:579-591 | An `int` column starts with a minus sign exactly when the number is negative, and the digits after it denote the number's magnitude. |
| Csv.RowCells | SpeedDataMining/Program.cs:569-592 | A data line has exactly as many cells as the header has columns (24). |
| Csv.ColumnsArePlain | SpeedDataMining/Program.cs:559-564 | No column name needs quoting. |
| Csv.HeaderCellsWellFormed | SpeedDataMining/Program.cs:559-564 | The header line is made of unquoted, well-formed cells and reads back as exactly the 24 column names. |
| Csv.RowCellsWellFormed | SpeedDataMining/Program.cs:569-592 | Every cell of a data line reads back as written, provided the double formatting never produces a comma, quote or line feed. |
| Csv.LineRoundTrip | SpeedDataMining/Program.cs:569-592 | A line joined by commas from well-formed cells and ended by a line feed reads back as one record: the cells' values, in order. |
| Csv.Document | SpeedDataMining/Program.cs:566-593 | The written text is empty exactly when there are no lines, and otherwise ends with the line feed of the last `WriteLine`. |
| Csv.DocumentRoundTrip | SpeedDataMining/Program.cs:566-593 | A file of such lines reads back line by line as the rows of cell values. |
| Csv.CellsLinesAt | SpeedDataMining/Program.cs:567-593 | Data line `i` is the joined cells of record `i`. |
| Csv.LinesShape | SpeedDataMining/Program.cs:558-593 | After the header, line `i + 1` of the file is the line of record `i`. |
| Csv.TableRoundTrip | SpeedDataMining/Program.cs:556-595 | A header line followed by one line per record reads back as the header's fields, then each record's fields, one row per record. |
| Csv.ExportReadBack | SpeedDataMining/Program.cs:554-607 | The exported file reads back as exactly one more row than there are records. Row 0 is the 24 column names. Row `i + 1` is record `i`'s 24 fields: strings as stored (null as empty) and numbers as their text. |
| Assembly.CategoryLookup | SpeedDataMining/Program.cs:142 | When category ids are distinct, the lookup's keys are exactly the category ids and each id maps to its category's name. |
| Assembly.LeaderboardData | SpeedDataMining/Program.cs:145-162 | Every category, and no other key, maps to its fetched leaderboard. A failed fetch gives the empty list. |
| Assembly.WorldRecords | SpeedDataMining/Program.cs:155-158 | A category has a world record exactly when its leaderboard is non-empty, and the world record is the id of the leaderboard's first run. |
| Assembly.BuildLeaderboards | SpeedDataMining/Program.cs:144-162 | The loop over the categories builds exactly those two dictionaries. |
| Assembly.Rank | SpeedDataMining/Program.cs:212-227 | The rank is at most the leaderboard length. It is 0 exactly when the run is not on the leaderboard. Otherwise entry `rank - 1` is the run and no earlier entry is. |
| Assembly.FindRank | SpeedDataMining/Program.cs:219-226 | The linear search that stops at the first match computes that rank. |
| Assembly.PresenceFlag | SpeedDataMining/Program.cs:249-259 | The flag is 0 or 1, and it is 1 exactly when the string is neither null nor empty. |
| Assembly.CommentLength | SpeedDataMining/Program.cs:258 | The comment length is exactly the comment's UTF-16 length (`run.comment?.Length ?? 0`), 0 for a null comment. It is 0 exactly when the comment is null or empty, and lies between the character count and twice that. |
| Assembly.MakeRecord | SpeedDataMining/Program.cs:233-260 | Every column is fixed. Ids, names, release year, time, submission date, video link, platform and emulated flag are copied from the run and the game. `rank` and `total_runners_in_category` are the given values. `is_wr` is 0 or 1, and 1 exactly when the run is the world record. `has_video` is the presence flag of the video link: 1 when present, 0 otherwise. The five player columns are the player's statistics, field by field. `run_comment_length` is the comment's UTF-16 length, and `has_comment` is the presence flag of the comment: 1 when the length is positive, 0 otherwise. |
| Assembly.RecordFor | SpeedDataMining/Program.cs:209-260 | `is_wr` is 1 exactly when the world-record dictionary names this run for its category. `rank` is the 1-based position of the first leaderboard entry for this run (`Rank`), or 0 without a leaderboard. `total_runners_in_category` is the leaderboard's length, or 0 without one, and it bounds `rank`. A positive rank points at this run's entry. A player without statistics gets zero runs and zero days. |
| Assembly.AssembleRecord | SpeedDataMining/Program.cs:209-260 | The loop body for one run (world-record test, rank search, statistics lookup) builds exactly that record. |
| Assembly.Records | SpeedDataMining/Program.cs:207-261 | There is one record per run. |
| Assembly.RecordsAt | SpeedDataMining/Program.cs:207-261 | Record `i` is the record of run `i`: the records follow the runs' order. |
| Assembly.RecordFacts | SpeedDataMining/Program.cs:207-260 | Summary of a record's fields. All columns copied from the run and the game equal their sources. `is_wr` is 1 exactly when the run heads its non-empty leaderboard, and then `rank` is 1. `total_runners_in_category` is the leaderboard length (0 for an unknown category) and bounds `rank`. `rank` is 0 exactly when the run is not on the leaderboard; otherwise it points at the run's first entry, and no earlier entry is the run. `has_video` and `has_comment` are 1 exactly when the string is non-empty, and `run_comment_length` is the comment's UTF-16 length. The five player columns are the player's statistics, or all zero (0 runs, 0 games, 0 categories, 0.0 improvement, 0 days) for a player without statistics. |
| Assembly.EnrichCategoryNames | SpeedDataMining/Program.cs:168-175 | Every run keeps all its fields except the category name. The category name is replaced by the lookup's name when the lookup knows the category, and is unchanged otherwise. |
| Assembly.EnrichPlayerNames | SpeedDataMining/Program.cs:194-201 | Every run keeps all its fields except the player name. The player name is replaced by the cached name when the cache holds the player, and is unchanged otherwise. |
| Statistics.InsertBySubmitted | SpeedDataMining/Program.cs:505 | Insertion adds exactly the one run: the result is a permutation of the list plus the run. |
| Statistics.InsertKeepsSorted | SpeedDataMining/Program.cs:505 | Inserting into a list ordered by submission date keeps it ordered. |
| Statistics.SortBySubmitted | SpeedDataMining/Program.cs:505 | The ordered runs are a permutation of the player's runs, sorted by the date key. |
| Statistics.InsertWhere | SpeedDataMining/Program.cs:505 | Inserting a run into a sorted list places it after every run with the same key. |
| Statistics.SortStable | SpeedDataMining/Program.cs:505 | The sort is stable: for every key, the runs with that key appear in the output in the same order, and as often, as in the input. |
| Statistics.Where | SpeedDataMining/Program.cs:501 | A group is never longer than the runs it is drawn from. |
| Statistics.WhereCount | SpeedDataMining/Program.cs:501 | A run is in a group (a player's runs, or a category's runs) exactly when it has the group's key, and then it occurs as often as in the input. |
| Statistics.WhereAppend | SpeedDataMining/Program.cs:515 | Grouping distributes over concatenation, so each group keeps the input order. |
| Statistics.Distinct | SpeedDataMining/Program.cs:179 | `Select(..).Distinct()` gives pairwise different values, and exactly the values that occur. |
| Statistics.FirstIndex | SpeedDataMining/Program.cs:179 | The position of a value's first appearance: no earlier run has it, and the run there has it unless there is none. |
| Statistics.DistinctFirstSeen | SpeedDataMining/Program.cs:179 | `Distinct` lists the values in the order of their first appearance. |
| Statistics.PositiveDeltas | SpeedDataMining/Program.cs:521-528 | Every recorded improvement is strictly positive, and there are fewer of them than runs. |
| Statistics.Positives | SpeedDataMining/Program.cs:524-527 | The kept numbers are exactly the positive ones, each as often as it occurs. |
| Statistics.DeltasArePositiveSteps | SpeedDataMining/Program.cs:521-528 | The improvements of a category are exactly the positive differences between consecutive times, in order: every element is such a difference and every positive difference is kept. |
| Statistics.ImprovementsUpTo | SpeedDataMining/Program.cs:514-529 | Every improvement collected over the category groups is strictly positive. |
| Statistics.ImprovementsByCategory | SpeedDataMining/Program.cs:515-529 | The improvements are those of each category of the player, each category once, in order of first appearance, each category's runs in submission order. |
| Statistics.SumOfPositives | SpeedDataMining/Program.cs:531 | A sum of strictly positive improvements is 0 when there are none and positive otherwise. |
| Statistics.Average | SpeedDataMining/Program.cs:531 | The average is 0 without improvements. Otherwise it times the count is the sum. |
| Statistics.AverageOfImprovements | SpeedDataMining/Program.cs:531 | The average improvement is never negative, and it is positive exactly when some improvement was recorded. |
| Statistics.ImprovementExample | SpeedDataMining/Program.cs:518-531 | Times 120, 110, 115, 100 in submission order give the improvements 10 and 15 (the regression is dropped), and their average is 12.5. |
| Statistics.ImageBound | SpeedDataMining/Program.cs:510-511 | A distinct count is at most the number of runs, and at least 1 for a non-empty group. |
| Statistics.DaysActive | SpeedDataMining/Program.cs:533-546 | One run or none gives 0 days. More runs give the span between the first and last submission, or 0 when the dates cannot be parsed. |
| Statistics.PlayerStatsOf | SpeedDataMining/Program.cs:505-546 | `total_runs` is the group's size. The distinct run ids and categories are at most that, and at least 1 for a non-empty group. The average improvement is not negative, and a single run has 0 days active. |
| Statistics.ByPlayer | SpeedDataMining/Program.cs:498-549 | The dictionary has exactly one key per player id that occurs in the runs. |
| Statistics.PlayerStatistics | SpeedDataMining/Program.cs:496-552 | `CalculatePlayerStatistics` returns a dictionary whose keys are exactly the player ids of the runs. |
| Statistics.StatsOfPlayer | SpeedDataMining/Program.cs:507-546 | For each player: `total_runs` is the size of the player's group (at least 1). The distinct run ids and the distinct categories each number between 1 and `total_runs`. The average improvement is non-negative. A single run gives 0 days active. |
| Statistics.CollectImprovements | SpeedDataMining/Program.cs:521-528 | The loop over one category's ordered runs appends exactly the positive differences between consecutive times. |
| Statistics.CollectCategoryImprovements | SpeedDataMining/Program.cs:515-529 | The loop over the category groups, taken in order of first appearance, collects exactly the specified improvements. |
| Statistics.ComputePlayerStats | SpeedDataMining/Program.cs:505-546 | One player's statistics are the specified counts, average and days active. |
| Statistics.ByPlayerUpToEntries | SpeedDataMining/Program.cs:503-549 | After the groups of the first `n` runs' players are visited, the dictionary holds exactly those players, each with its own statistics. |
| Statistics.ByPlayerComplete | SpeedDataMining/Program.cs:501-551 | Visiting every group gives the full dictionary. |
| Statistics.AddPlayerIfNew | SpeedDataMining/Program.cs:503-548 | One grouping step adds the statistics of a player met for the first time and leaves the dictionary unchanged otherwise. |
| Statistics.CalculatePlayerStatistics | SpeedDataMining/Program.cs:496-552 | The method returns exactly the specified dictionary. |
| Pagination.Crawl | SpeedDataMining/Program.cs:348-491 | The loop only ever extends the runs it holds, and it never goes back on its request count. |
| Pagination.GetAllRunsForGame | SpeedDataMining/Program.cs:341-494 | The paging loop returns exactly the runs of the specified crawl. |
| Pagination.GatheredPrefix | SpeedDataMining/Program.cs:348-482 | The runs held after `n` pages are a prefix of those held after any later page. |
| Pagination.GatheredFull | SpeedDataMining/Program.cs:479-482 | After `n` full pages exactly `200 * n` runs are held. |
| Pagination.CrawlShape | SpeedDataMining/Program.cs:348-491 | From any state reached by full pages, the result is the pages' runs in offset order. Every page but the last was full. The last page was requested while fewer than 100000 runs were held, and it was short, failed or reached the limit. |
| Pagination.CrawlFacts | SpeedDataMining/Program.cs:341-494 | There is at least one request and at most 500. The result is the runs of the pages at offsets 0, 200, ... concatenated in order. Every page before the last was a successful full page. The last page was not full, or the limit was reached. |
| Pagination.CrawlBound | SpeedDataMining/Program.cs:345-348 | When no response holds more than 200 runs, at most 100000 runs are returned. |
| DataPuller.GuestExamples | SpeedDataMining/Program.cs:93 | Short ids without `x` or `j` are guests. Ids with `x` or `j`, or of 8 or more UTF-16 units, are not; four characters outside the Basic Multilingual Plane already count 8. |
| DataPuller.ResolvedName | SpeedDataMining/Program.cs:90-126 | A guest-looking id (no `x`, no `j`, shorter than 8 UTF-16 units) names itself, and so does an id whose lookup fails or has no international name. A non-guest id whose lookup yields an international name resolves to that name. |
| DataPuller.ResolveAll | SpeedDataMining/Program.cs:181-192 | Resolving a list of ids keeps every old cache entry and adds exactly the new ids, each with its resolved name. |
| DataPuller.ResolveCached | SpeedDataMining/Program.cs:85-88 | Ids that are all cached leave the cache unchanged. |
| DataPuller.ResolveIdempotent | SpeedDataMining/Program.cs:181-192 | A second pass over the same ids changes nothing. |
| DataPuller.NamesResolved | SpeedDataMining/Program.cs:177-201 | After resolution and back-fill, every run carries its player's old cached name if there was one, and the freshly resolved name otherwise. Nothing else in the run changes. |
| DataPuller.Puller.constructor | SpeedDataMining/Program.cs:17-18 | The puller starts with no records and an empty name cache. |
| DataPuller.Puller.GetPlayerName | SpeedDataMining/Program.cs:82-127 | A cached id returns its cached name and changes nothing. Otherwise the resolved name is returned and cached. Only a non-guest id is looked up, once. |
| DataPuller.Puller.ResolvePlayerNames | SpeedDataMining/Program.cs:181-192 | The cache becomes exactly the old cache with the game's new ids resolved. The only new lookups are ids of this game that were not cached before. |
| DataPuller.Puller.AppendRecords | SpeedDataMining/Program.cs:207-261 | `allRuns` grows by exactly the game's records, in run order, and the cache is untouched. |
| DataPuller.Puller.ProcessGameForStata | SpeedDataMining/Program.cs:129-267 | A game whose categories cannot be fetched, or whose categories share an id, changes nothing. Otherwise the cache gains the game's players, and `allRuns` grows by one record per paged run. Each record is built with its category name and player name filled in, from the game's leaderboards, world records and player statistics. No id is ever looked up twice. |
| DataPuller.Puller.ExportToCsv | SpeedDataMining/Program.cs:554-595 | The file's lines are the header followed by one line per record, in order. |

## Left out

- HTTP, JSON parsing, `Task.Delay`, `async`/`await` and console output are not modelled. Every response is a parameter, as listed above.
- `GetGameInfo` (its parsing and its "Unknown"/0 fallback), `GetCategories` and `GetLeaderboard` are not modelled. Their results enter as `info`, `categories` and `boardFor`. A failed `GetLeaderboard` is `None`, read as the empty list.
- The field extraction inside the page loop (player id or guest name, category id, platform, emulated flag, video link, comment, date) is not modelled. A page is a list of already-extracted runs. A page that throws part-way keeps the runs added before the throw.
- JSON `null` ids and names are not modelled. Only the date, video link and comment are nullable.
- Doubles are exact reals. `improvements.Average()` is exact, with no rounding. `ToString(CultureInfo.InvariantCulture)` is the parameter `showReal`.
- `DateTime.Parse`, `DateTime.Now` and `TimeSpan.Days` are the parameter `daySpan`; `None` means the parse threw.
- `OrderBy(r => r.submitted)` is a stable sort on an integer key (`key`) that stands for the string comparer's order, nulls included.
- `StreamWriter`, the UTF-8 encoding and the file name are not modelled. The export is the list of lines written, as text, and the file is those lines, each ended by a line feed.
- Csv.ExportReadBack: on Windows `WriteLine` ends each line with CRLF. The reader here reads LF-ended records only, so the round trip is stated for LF line ends.
- Csv.ExportReadBack: `Encoding.UTF8` writes a byte-order mark before the header. The mark is not part of the modelled text, so the header read back carries no mark.
- Csv.EscapeCsv: a value holding a carriage return but no comma, quote or line feed is written unquoted, as the code does. This reader accepts it. A strict RFC 4180 reader would not.
- Csv.IntText: the int columns use the current culture's `ToString()`. In a culture whose negative sign is U+2212 a negative number is written with that sign. `IntText` always writes `-`, so it models the invariant culture only.
- `Main` is not modelled: the hard-coded game list, the loop over it, its 1.5-second delay and the progress counters.
- Statistics.StatsOfPlayer: `unique_games` counts distinct run ids, as the code does, so it always equals `total_runs` when run ids are unique. The model keeps this as written.
- DataPuller.Puller.ProcessGameForStata: the duplicate-id throw of `ToDictionary` is modelled as the early return; any other exception thrown after the categories are fetched is not modelled. The remaining steps either catch their own errors or cannot throw on the modelled inputs.
