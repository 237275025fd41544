/** Per-player statistics over one game's runs. */
module Statistics {
  import opened Base
  import opened Runs

  // ---------------------------------------------------------------------------
  // Ordering by submission date
  // ---------------------------------------------------------------------------

  /** The position of a submission date (possibly null) in the order that
      `OrderBy(r => r.submitted)` sorts by; equal keys keep their input order. */
  type SubmittedKey = Option<string> -> int

  predicate SortedBySubmitted(rs: seq<RunData>, key: SubmittedKey)
  {
    forall i, j :: 0 <= i < j < |rs| ==> key(rs[i].submitted) <= key(rs[j].submitted)
  }

  /** Inserts `x` after every element whose key is not larger than its own. */
  function InsertBySubmitted(sorted: seq<RunData>, x: RunData, key: SubmittedKey): (r: seq<RunData>)
    ensures multiset(r) == multiset(sorted) + multiset{x}
    ensures |r| == |sorted| + 1
  {
    if sorted == [] || key(x.submitted) < key(sorted[0].submitted) then [x] + sorted
    else
      assert sorted == [sorted[0]] + sorted[1..];
      [sorted[0]] + InsertBySubmitted(sorted[1..], x, key)
  }

  lemma {:induction false} InsertKeepsSorted(sorted: seq<RunData>, x: RunData, key: SubmittedKey)
    requires SortedBySubmitted(sorted, key)
    ensures SortedBySubmitted(InsertBySubmitted(sorted, x, key), key)
  {
    if sorted != [] && key(sorted[0].submitted) <= key(x.submitted) {
      var tail := sorted[1..];
      InsertKeepsSorted(tail, x, key);
      var r' := InsertBySubmitted(tail, x, key);
      forall k | 0 <= k < |r'|
        ensures key(sorted[0].submitted) <= key(r'[k].submitted)
      {
        var y := r'[k];
        assert y in multiset(r');
        if y != x {
          assert y in multiset(tail);
          var m :| 0 <= m < |tail| && tail[m] == y;
          assert y == sorted[m + 1];
        }
      }
    }
  }

  /** A stable sort of runs by submission date: each run is inserted after
      the runs before it whose key is not larger. */
  function SortBySubmitted(rs: seq<RunData>, key: SubmittedKey): (r: seq<RunData>)
    ensures multiset(r) == multiset(rs)
    ensures |r| == |rs|
    ensures SortedBySubmitted(r, key)
  {
    if rs == [] then []
    else
      var prev := rs[..|rs| - 1];
      assert rs == prev + [rs[|rs| - 1]];
      var sortedPrev := SortBySubmitted(prev, key);
      InsertKeepsSorted(sortedPrev, rs[|rs| - 1], key);
      InsertBySubmitted(sortedPrev, rs[|rs| - 1], key)
  }

  // ---------------------------------------------------------------------------
  // Grouping and counting
  // ---------------------------------------------------------------------------

  function Image(rs: seq<RunData>, f: RunData -> string): set<string>
  {
    set r | r in rs :: f(r)
  }

  function PlayerOf(r: RunData): string { r.player_id }
  function RunIdOf(r: RunData): string { r.id }
  function CategoryOf(r: RunData): string { r.category_id }

  function PlayerIds(runs: seq<RunData>): set<string>
  {
    Image(runs, PlayerOf)
  }

  /** Extending a prefix by one element adds that element's value. */
  lemma ImageStep(rs: seq<RunData>, j: nat, f: RunData -> string)
    requires j < |rs|
    ensures Image(rs[..j + 1], f) == Image(rs[..j], f) + {f(rs[j])}
  {
    assert rs[..j + 1] == rs[..j] + [rs[j]];
    assert forall y :: y in rs[..j + 1] <==> y in rs[..j] || y == rs[j];
  }

  /** The runs whose `f` is `v`, in input order (`rs.Where(r => f(r) == v)`):
      each such run as often as in `rs`, no other run. */
  function Where<T(==)>(rs: seq<RunData>, f: RunData -> T, v: T): (r: seq<RunData>)
    ensures |r| <= |rs|
  {
    if rs == [] then []
    else
      assert rs == [rs[0]] + rs[1..];
      (if f(rs[0]) == v then [rs[0]] else []) + Where(rs[1..], f, v)
  }

  /** A run is kept exactly when `f` gives `v` for it, and then as often as
      it occurs in the input. */
  lemma {:induction false} WhereCount<T>(rs: seq<RunData>, f: RunData -> T, v: T, x: RunData)
    ensures x in Where(rs, f, v) <==> x in rs && f(x) == v
    ensures multiset(Where(rs, f, v))[x] == if f(x) == v then multiset(rs)[x] else 0
  {
    if rs != [] {
      WhereCount(rs[1..], f, v, x);
      assert rs == [rs[0]] + rs[1..];
      WhereCons(rs[0], rs[1..], f, v);
      var head := if f(rs[0]) == v then [rs[0]] else [];
      assert multiset(Where(rs, f, v)) == multiset(head) + multiset(Where(rs[1..], f, v));
      assert multiset(rs) == multiset([rs[0]]) + multiset(rs[1..]);
    }
  }

  /** Filtering distributes over concatenation, so the kept runs stay in
      their input order. */
  lemma {:induction false} WhereAppend<T>(a: seq<RunData>, b: seq<RunData>, f: RunData -> T, v: T)
    ensures Where(a + b, f, v) == Where(a, f, v) + Where(b, f, v)
  {
    if a == [] {
      assert a + b == b;
    } else {
      WhereAppend(a[1..], b, f, v);
      assert a + b == [a[0]] + (a[1..] + b);
      WhereCons(a[0], a[1..] + b, f, v);
      assert a == [a[0]] + a[1..];
      WhereCons(a[0], a[1..], f, v);
      var head := if f(a[0]) == v then [a[0]] else [];
      AppendAssoc(head, Where(a[1..], f, v), Where(b, f, v));
    }
  }

  /** The runs of one player, in input order (one group of `GroupBy(r => r.player_id)`). */
  function RunsOf(runs: seq<RunData>, playerId: string): seq<RunData>
  {
    Where(runs, PlayerOf, playerId)
  }

  /** The runs of one category, in input order (`Where(r => r.category_id == category)`). */
  function CategoryRuns(runs: seq<RunData>, categoryId: string): seq<RunData>
  {
    Where(runs, CategoryOf, categoryId)
  }

  /** `rs.Select(f).Distinct()`: each value once, in order of first appearance. */
  function Distinct(rs: seq<RunData>, f: RunData -> string): (vs: seq<string>)
    ensures forall i, j :: 0 <= i < j < |vs| ==> vs[i] != vs[j]
    ensures forall v :: v in vs <==> v in Image(rs, f)
  {
    if rs == [] then []
    else
      var prev := rs[..|rs| - 1];
      var last := rs[|rs| - 1];
      assert rs == prev + [last];
      var vs := Distinct(prev, f);
      if f(last) in vs then vs else vs + [f(last)]
  }

  /** The index of the first run whose `f` is `v`, or `|rs|` when there is none. */
  function FirstIndex(rs: seq<RunData>, f: RunData -> string, v: string): (k: nat)
    ensures k <= |rs|
    ensures k < |rs| ==> f(rs[k]) == v
    ensures forall b :: 0 <= b < k ==> f(rs[b]) != v
  {
    if rs == [] then 0
    else if f(rs[0]) == v then 0
    else 1 + FirstIndex(rs[1..], f, v)
  }

  /** Appending a run moves no first appearance of a value already present,
      and a value seen for the first time first appears at the new run. */
  lemma FirstIndexSnoc(prev: seq<RunData>, x: RunData, f: RunData -> string, v: string)
    ensures v in Image(prev, f) ==> FirstIndex(prev + [x], f, v) == FirstIndex(prev, f, v) < |prev|
    ensures v !in Image(prev, f) && f(x) == v ==> FirstIndex(prev + [x], f, v) == |prev|
  {
    var rs := prev + [x];
    var k := FirstIndex(prev, f, v);
    var k' := FirstIndex(rs, f, v);
    if v in Image(prev, f) {
      var a :| 0 <= a < |prev| && f(prev[a]) == v;
      assert k <= a;
      assert rs[k] == prev[k];
      assert k' <= k;
      assert k' < |prev| ==> rs[k'] == prev[k'];
    } else if f(x) == v {
      assert rs[|prev|] == x;
    }
  }

  /** `Distinct` lists the values in the order of their first appearance. */
  lemma {:induction false} DistinctFirstSeen(rs: seq<RunData>, f: RunData -> string)
    ensures forall i, j :: 0 <= i < j < |Distinct(rs, f)| ==>
      FirstIndex(rs, f, Distinct(rs, f)[i]) < FirstIndex(rs, f, Distinct(rs, f)[j])
  {
    if rs != [] {
      var prev := rs[..|rs| - 1];
      var last := rs[|rs| - 1];
      assert rs == prev + [last];
      DistinctFirstSeen(prev, f);
      var pvs := Distinct(prev, f);
      forall v | v in pvs
        ensures FirstIndex(rs, f, v) == FirstIndex(prev, f, v) < |prev|
      {
        FirstIndexSnoc(prev, last, f, v);
      }
      if f(last) !in pvs {
        FirstIndexSnoc(prev, last, f, f(last));
        var vs := pvs + [f(last)];
        assert Distinct(rs, f) == vs;
        forall i, j | 0 <= i < j < |vs|
          ensures FirstIndex(rs, f, vs[i]) < FirstIndex(rs, f, vs[j])
        {
          assert vs[i] == pvs[i] && pvs[i] in pvs;
          if j < |pvs| {
            assert vs[j] == pvs[j] && pvs[j] in pvs;
            assert FirstIndex(prev, f, pvs[i]) < FirstIndex(prev, f, pvs[j]);
          } else {
            assert vs[j] == f(last);
          }
        }
      }
    }
  }

  /** The sort key of a run. */
  function KeyOf(key: SubmittedKey): RunData -> int
  {
    (r: RunData) => key(r.submitted)
  }

  /** Inserting into a sorted list puts the new run after every run with the
      same key. */
  lemma {:induction false} InsertWhere(sorted: seq<RunData>, x: RunData, key: SubmittedKey, k: int)
    requires SortedBySubmitted(sorted, key)
    ensures Where(InsertBySubmitted(sorted, x, key), KeyOf(key), k)
      == Where(sorted, KeyOf(key), k) + (if key(x.submitted) == k then [x] else [])
  {
    var f := KeyOf(key);
    var ins := InsertBySubmitted(sorted, x, key);
    var mine := if key(x.submitted) == k then [x] else [];
    if sorted == [] || key(x.submitted) < key(sorted[0].submitted) {
      assert ins == [x] + sorted;
      WhereCons(x, sorted, f, k);
      if key(x.submitted) == k {
        NoneBelowFirst(sorted, key, k);
        assert Where(ins, f, k) == [x] == Where(sorted, f, k) + [x];
      } else {
        assert Where(ins, f, k) == Where(sorted, f, k) + [];
      }
    } else {
      var tail := sorted[1..];
      SortedTail(sorted, key);
      InsertWhere(tail, x, key, k);
      var head := if key(sorted[0].submitted) == k then [sorted[0]] else [];
      assert ins == [sorted[0]] + InsertBySubmitted(tail, x, key);
      WhereCons(sorted[0], InsertBySubmitted(tail, x, key), f, k);
      assert sorted == [sorted[0]] + tail;
      WhereCons(sorted[0], tail, f, k);
      assert Where(ins, f, k) == head + (Where(tail, f, k) + mine);
      AppendAssoc(head, Where(tail, f, k), mine);
    }
  }

  /** Filtering a list that starts with `x`. */
  lemma WhereCons<T>(x: RunData, rs: seq<RunData>, f: RunData -> T, v: T)
    ensures Where([x] + rs, f, v) == (if f(x) == v then [x] else []) + Where(rs, f, v)
  {
    assert ([x] + rs)[0] == x && ([x] + rs)[1..] == rs;
  }

  /** The tail of a sorted list is sorted. */
  lemma SortedTail(sorted: seq<RunData>, key: SubmittedKey)
    requires sorted != [] && SortedBySubmitted(sorted, key)
    ensures SortedBySubmitted(sorted[1..], key)
  {
    var tail := sorted[1..];
    forall i, j | 0 <= i < j < |tail|
      ensures key(tail[i].submitted) <= key(tail[j].submitted)
    {
      assert tail[i] == sorted[i + 1] && tail[j] == sorted[j + 1];
    }
  }

  /** No run of a sorted list has a key below that of its first run. */
  lemma NoneBelowFirst(sorted: seq<RunData>, key: SubmittedKey, k: int)
    requires SortedBySubmitted(sorted, key)
    requires sorted == [] || k < key(sorted[0].submitted)
    ensures Where(sorted, KeyOf(key), k) == []
  {
    var w := Where(sorted, KeyOf(key), k);
    if w != [] {
      WhereCount(sorted, KeyOf(key), k, w[0]);
      assert false;
    }
  }

  /** The sort is stable: the runs sharing a key appear in the sorted list in
      the order they had in the input. */
  lemma {:induction false} SortStable(rs: seq<RunData>, key: SubmittedKey, k: int)
    ensures Where(SortBySubmitted(rs, key), KeyOf(key), k) == Where(rs, KeyOf(key), k)
  {
    if rs != [] {
      var prev := rs[..|rs| - 1];
      var last := rs[|rs| - 1];
      assert rs == prev + [last];
      var f := KeyOf(key);
      var mine := if key(last.submitted) == k then [last] else [];
      assert SortBySubmitted(rs, key) == InsertBySubmitted(SortBySubmitted(prev, key), last, key);
      SortStable(prev, key, k);
      InsertWhere(SortBySubmitted(prev, key), last, key, k);
      assert Where(SortBySubmitted(rs, key), f, k) == Where(prev, f, k) + mine;
      WhereAppend(prev, [last], f, k);
      assert [last] == [last] + [];
      WhereCons(last, [], f, k);
      assert Where([last], f, k) == mine;
    }
  }

  // ---------------------------------------------------------------------------
  // Improvements
  // ---------------------------------------------------------------------------

  /** The strictly positive differences `rs[i-1].primary_t - rs[i].primary_t`,
      in order: the times by which a run beat the one before it. */
  function PositiveDeltas(rs: seq<RunData>): (d: seq<real>)
    ensures forall k :: 0 <= k < |d| ==> d[k] > 0.0
    ensures |d| < |rs| || rs == []
  {
    if |rs| < 2 then []
    else
      var n := |rs|;
      var step := rs[n - 2].primary_t - rs[n - 1].primary_t;
      PositiveDeltas(rs[..n - 1]) + (if step > 0.0 then [step] else [])
  }

  /** Every difference between a run's time and the next one's, in order. */
  function Steps(rs: seq<RunData>): (d: seq<real>)
    ensures |d| == if rs == [] then 0 else |rs| - 1
  {
    if rs == [] then [] else seq(|rs| - 1, i requires 0 <= i < |rs| - 1 => rs[i].primary_t - rs[i + 1].primary_t)
  }

  /** The strictly positive numbers of `xs`, in order. */
  function Positives(xs: seq<real>): (r: seq<real>)
    ensures forall x :: x in r <==> x in xs && x > 0.0
    ensures forall x :: multiset(r)[x] == if x > 0.0 then multiset(xs)[x] else 0
  {
    if xs == [] then []
    else
      var prev := xs[..|xs| - 1];
      assert xs == prev + [xs[|xs| - 1]];
      Positives(prev) + (if xs[|xs| - 1] > 0.0 then [xs[|xs| - 1]] else [])
  }

  /** The improvements of a list of runs are exactly its positive steps, each
      as often as it occurs and in the order of the runs. */
  lemma {:induction false} DeltasArePositiveSteps(rs: seq<RunData>)
    ensures PositiveDeltas(rs) == Positives(Steps(rs))
  {
    if |rs| >= 2 {
      var prev := rs[..|rs| - 1];
      DeltasArePositiveSteps(prev);
      var st, sp := Steps(rs), Steps(prev);
      assert forall k :: 0 <= k < |sp| ==> st[k] == sp[k];
      assert st[..|st| - 1] == sp;
      assert st[|st| - 1] == rs[|rs| - 2].primary_t - rs[|rs| - 1].primary_t;
    }
  }

  /** The improvements collected over the category groups first met among
      `o[..n]`, each group taken in submission order. */
  function ImprovementsUpTo(o: seq<RunData>, n: nat, key: SubmittedKey): (d: seq<real>)
    requires n <= |o|
    ensures forall k :: 0 <= k < |d| ==> d[k] > 0.0
  {
    if n == 0 then []
    else
      var c := o[n - 1].category_id;
      ImprovementsUpTo(o, n - 1, key)
      + (if c in Image(o[..n - 1], CategoryOf) then []
         else PositiveDeltas(SortBySubmitted(CategoryRuns(o, c), key)))
  }

  /** The improvements of the categories `cats`, one after the other. */
  function CategoryDeltas(o: seq<RunData>, cats: seq<string>, key: SubmittedKey): seq<real>
  {
    if cats == [] then []
    else
      CategoryDeltas(o, cats[..|cats| - 1], key)
      + PositiveDeltas(SortBySubmitted(CategoryRuns(o, cats[|cats| - 1]), key))
  }

  /** The values of a longer prefix: those of the shorter one, then the new
      run's value if it was not met before. */
  lemma DistinctStep(rs: seq<RunData>, n: nat, f: RunData -> string)
    requires 0 < n <= |rs|
    ensures Distinct(rs[..n], f) == Distinct(rs[..n - 1], f)
      + (if f(rs[n - 1]) in Image(rs[..n - 1], f) then [] else [f(rs[n - 1])])
  {
    var cur := rs[..n];
    assert cur[..|cur| - 1] == rs[..n - 1];
    assert cur[|cur| - 1] == rs[n - 1];
  }

  /** Adding a category adds its improvements at the end. */
  lemma CategoryDeltasStep(o: seq<RunData>, cs: seq<string>, c: string, key: SubmittedKey)
    ensures CategoryDeltas(o, cs + [c], key)
      == CategoryDeltas(o, cs, key) + PositiveDeltas(SortBySubmitted(CategoryRuns(o, c), key))
  {
    assert (cs + [c])[..|cs|] == cs;
  }

  /** The improvements of a player's ordered runs are those of each of the
      player's categories, taken once each in order of first appearance. */
  lemma {:induction false} ImprovementsByCategory(o: seq<RunData>, n: nat, key: SubmittedKey)
    requires n <= |o|
    ensures ImprovementsUpTo(o, n, key) == CategoryDeltas(o, Distinct(o[..n], CategoryOf), key)
  {
    if n == 0 {
      assert o[..0] == [];
    } else {
      ImprovementsByCategory(o, n - 1, key);
      DistinctStep(o, n, CategoryOf);
      if o[n - 1].category_id in Image(o[..n - 1], CategoryOf) {
        SeenCategoryStep(o, n, key);
      } else {
        NewCategoryStep(o, n, key);
      }
    }
  }

  /** A run of a category met before adds no improvements and no category. */
  lemma SeenCategoryStep(o: seq<RunData>, n: nat, key: SubmittedKey)
    requires 0 < n <= |o|
    requires o[n - 1].category_id in Image(o[..n - 1], CategoryOf)
    requires Distinct(o[..n], CategoryOf) == Distinct(o[..n - 1], CategoryOf) + []
    requires ImprovementsUpTo(o, n - 1, key) == CategoryDeltas(o, Distinct(o[..n - 1], CategoryOf), key)
    ensures ImprovementsUpTo(o, n, key) == CategoryDeltas(o, Distinct(o[..n], CategoryOf), key)
  {
    var cs := Distinct(o[..n - 1], CategoryOf);
    assert cs + [] == cs;
    assert ImprovementsUpTo(o, n, key) == ImprovementsUpTo(o, n - 1, key) + [];
    assert ImprovementsUpTo(o, n - 1, key) + [] == ImprovementsUpTo(o, n - 1, key);
  }

  /** The first run of a category adds that category and its improvements. */
  lemma NewCategoryStep(o: seq<RunData>, n: nat, key: SubmittedKey)
    requires 0 < n <= |o|
    requires o[n - 1].category_id !in Image(o[..n - 1], CategoryOf)
    requires Distinct(o[..n], CategoryOf) == Distinct(o[..n - 1], CategoryOf) + [CategoryOf(o[n - 1])]
    requires ImprovementsUpTo(o, n - 1, key) == CategoryDeltas(o, Distinct(o[..n - 1], CategoryOf), key)
    ensures ImprovementsUpTo(o, n, key) == CategoryDeltas(o, Distinct(o[..n], CategoryOf), key)
  {
    var cs := Distinct(o[..n - 1], CategoryOf);
    var c := o[n - 1].category_id;
    assert CategoryOf(o[n - 1]) == c;
    CategoryDeltasStep(o, cs, c, key);
  }

  function Sum(xs: seq<real>): real
  {
    if xs == [] then 0.0 else Sum(xs[..|xs| - 1]) + xs[|xs| - 1]
  }

  /** The mean of the improvements, 0 when there are none. */
  function Average(xs: seq<real>): (avg: real)
    ensures xs == [] ==> avg == 0.0
    ensures xs != [] ==> avg * (|xs| as real) == Sum(xs)
  {
    if xs == [] then 0.0 else Sum(xs) / (|xs| as real)
  }

  /** The sum of strictly positive numbers is positive unless there are none. */
  lemma {:induction false} SumOfPositives(xs: seq<real>)
    requires forall k :: 0 <= k < |xs| ==> xs[k] > 0.0
    ensures xs == [] ==> Sum(xs) == 0.0
    ensures xs != [] ==> Sum(xs) > 0.0
  {
    if xs != [] {
      SumOfPositives(xs[..|xs| - 1]);
    }
  }

  /** An average of improvements is never negative, and is positive exactly
      when there is at least one improvement. */
  lemma AverageOfImprovements(xs: seq<real>)
    requires forall k :: 0 <= k < |xs| ==> xs[k] > 0.0
    ensures Average(xs) >= 0.0
    ensures Average(xs) > 0.0 <==> xs != []
  {
    SumOfPositives(xs);
    if xs != [] {
      var n := |xs| as real;
      assert n > 0.0;
      assert Average(xs) * n == Sum(xs);
    }
  }

  // ---------------------------------------------------------------------------
  // Per-player statistics
  // ---------------------------------------------------------------------------

  /** Days between the first and last submission, from the date parser; the
      parser yields None when it fails. Fewer than two runs give 0. */
  function DaysActive(o: seq<RunData>, daySpan: (Option<string>, Option<string>) -> Option<int>): (days: int)
    ensures |o| <= 1 ==> days == 0
    ensures |o| > 1 ==> days == OrZero(daySpan(o[0].submitted, o[|o| - 1].submitted))
  {
    if |o| > 1 then
      match daySpan(o[0].submitted, o[|o| - 1].submitted)
      case Some(days) => days
      case None => 0
    else 0
  }

  /** The parsed span, or 0 when parsing failed. */
  function OrZero(span: Option<int>): int
  {
    if span.Some? then span.value else 0
  }

  /** The statistics of one player's group of runs: `total_runs` counts the
      runs, the distinct run ids and categories are between one and that
      count (none for no runs), the average improvement is not negative, and
      a single run is active for 0 days. */
  function PlayerStatsOf(playerRuns: seq<RunData>, key: SubmittedKey,
                         daySpan: (Option<string>, Option<string>) -> Option<int>): (st: PlayerStats)
    ensures st.total_runs == |playerRuns|
    ensures 0 <= st.unique_games <= st.total_runs && 0 <= st.unique_categories <= st.total_runs
    ensures playerRuns != [] ==> st.unique_games >= 1 && st.unique_categories >= 1
    ensures st.avg_time_improvement >= 0.0
    ensures |playerRuns| <= 1 ==> st.days_active == 0
  {
    var o := SortBySubmitted(playerRuns, key);
    ImageBound(o, RunIdOf);
    ImageBound(o, CategoryOf);
    AverageOfImprovements(ImprovementsUpTo(o, |o|, key));
    PlayerStats(
      |o|,
      |Image(o, RunIdOf)|,
      |Image(o, CategoryOf)|,
      Average(ImprovementsUpTo(o, |o|, key)),
      DaysActive(o, daySpan))
  }

  /** The computation applied to each player's group of `runs`. */
  function StatsOf(runs: seq<RunData>, key: SubmittedKey, daySpan: (Option<string>, Option<string>) -> Option<int>)
    : string -> PlayerStats
  {
    playerId => PlayerStatsOf(RunsOf(runs, playerId), key, daySpan)
  }

  /** One entry per player id that occurs in `runs`, and no other, holding
      `statsFor` of that player. */
  function ByPlayer(runs: seq<RunData>, statsFor: string -> PlayerStats): (m: map<string, PlayerStats>)
    ensures m.Keys == PlayerIds(runs)
  {
    map p | p in PlayerIds(runs) :: statsFor(p)
  }

  /** The dictionary `CalculatePlayerStatistics` returns. */
  function PlayerStatistics(runs: seq<RunData>, key: SubmittedKey,
                            daySpan: (Option<string>, Option<string>) -> Option<int>)
    : (m: map<string, PlayerStats>)
    ensures m.Keys == PlayerIds(runs)
  {
    ByPlayer(runs, StatsOf(runs, key, daySpan))
  }

  /** A set of values drawn from a list has at most one value per element,
      and at least one when the list is not empty. */
  lemma {:induction false} ImageBound(rs: seq<RunData>, f: RunData -> string)
    ensures |Image(rs, f)| <= |rs|
    ensures rs != [] ==> |Image(rs, f)| >= 1
  {
    if rs != [] {
      var prev := rs[..|rs| - 1];
      ImageBound(prev, f);
      assert rs == prev + [rs[|rs| - 1]];
      assert Image(rs, f) == Image(prev, f) + {f(rs[|rs| - 1])};
    }
  }

  /** What a player's entry says: `total_runs` is the number of the player's
      runs (at least one), the distinct run ids and distinct categories are
      between one and that number, the average improvement is not negative,
      and `days_active` stays 0 for a player with a single run. */
  lemma StatsOfPlayer(runs: seq<RunData>, playerId: string, key: SubmittedKey,
                      daySpan: (Option<string>, Option<string>) -> Option<int>)
    requires playerId in PlayerIds(runs)
    ensures
      var s := PlayerStatistics(runs, key, daySpan)[playerId];
      && s.total_runs == |RunsOf(runs, playerId)| >= 1
      && 1 <= s.unique_games <= s.total_runs
      && 1 <= s.unique_categories <= s.total_runs
      && s.avg_time_improvement >= 0.0
      && (s.total_runs <= 1 ==> s.days_active == 0)
  {
    var r :| r in runs && r.player_id == playerId;
    WhereCount(runs, PlayerOf, playerId, r);
  }

  /** The example of improvements: times 120, 110, 115, 100 in submission order
      give the improvements 10 and 15 (the regression 110 to 115 is dropped),
      whose average is 12.5. */
  lemma ImprovementExample(a: RunData, b: RunData, c: RunData, d: RunData)
    requires a.primary_t == 120.0 && b.primary_t == 110.0 && c.primary_t == 115.0 && d.primary_t == 100.0
    ensures PositiveDeltas([a, b, c, d]) == [10.0, 15.0]
    ensures Average(PositiveDeltas([a, b, c, d])) == 12.5
  {
    DeltasOfThree(a, b, c);
    assert [a, b, c, d][..3] == [a, b, c];
    AverageExample();
  }

  lemma DeltasOfThree(a: RunData, b: RunData, c: RunData)
    requires a.primary_t == 120.0 && b.primary_t == 110.0 && c.primary_t == 115.0
    ensures PositiveDeltas([a, b, c]) == [10.0]
  {
    assert [a, b][..1] == [a];
    assert PositiveDeltas([a, b]) == [10.0];
    assert [a, b, c][..2] == [a, b];
  }

  lemma AverageExample()
    ensures Average([10.0, 15.0]) == 12.5
  {
    assert [10.0, 15.0][..1] == [10.0];
    assert [10.0][..0] == [];
    assert Sum([10.0, 15.0]) == 25.0;
  }

  // ---------------------------------------------------------------------------
  // The computation, loop by loop
  // ---------------------------------------------------------------------------

  /** The loop over one category's runs that appends each strictly positive
      consecutive difference to `improvements`. */
  method CollectImprovements(improvements: seq<real>, catRuns: seq<RunData>) returns (out: seq<real>)
    ensures out == improvements + PositiveDeltas(catRuns)
  {
    out := improvements;
    if |catRuns| == 0 {
      return;
    }
    var i := 1;
    while i < |catRuns|
      invariant 1 <= i <= |catRuns|
      invariant out == improvements + PositiveDeltas(catRuns[..i])
    {
      var improvement := catRuns[i - 1].primary_t - catRuns[i].primary_t;
      DeltasStep(catRuns, i);
      if improvement > 0.0 {
        out := out + [improvement];
      }
      i := i + 1;
    }
    assert catRuns[..|catRuns|] == catRuns;
  }

  /** Extending the prefix by one run adds at most the difference to its predecessor. */
  lemma DeltasStep(rs: seq<RunData>, i: nat)
    requires 1 <= i < |rs|
    ensures PositiveDeltas(rs[..i + 1]) == PositiveDeltas(rs[..i])
      + (if rs[i - 1].primary_t - rs[i].primary_t > 0.0 then [rs[i - 1].primary_t - rs[i].primary_t] else [])
  {
    assert rs[..i + 1][..i] == rs[..i];
  }

  /** The loop over a player's runs in submission order that, at the first
      run of each category, collects that category's improvements. */
  method CollectCategoryImprovements(orderedRuns: seq<RunData>, key: SubmittedKey)
    returns (improvements: seq<real>)
    ensures improvements == ImprovementsUpTo(orderedRuns, |orderedRuns|, key)
  {
    improvements := [];
    var seen: set<string> := {};
    for j := 0 to |orderedRuns|
      invariant seen == Image(orderedRuns[..j], CategoryOf)
      invariant improvements == ImprovementsUpTo(orderedRuns, j, key)
    {
      var c := orderedRuns[j].category_id;
      ImageStep(orderedRuns, j, CategoryOf);
      if c !in seen {
        var catRuns := SortBySubmitted(CategoryRuns(orderedRuns, c), key);
        improvements := CollectImprovements(improvements, catRuns);
        seen := seen + {c};
      }
    }
  }

  /** The statistics of one player's runs: counts, improvements per category
      and days active. */
  method ComputePlayerStats(playerRuns: seq<RunData>, key: SubmittedKey,
                            daySpan: (Option<string>, Option<string>) -> Option<int>)
    returns (stats: PlayerStats)
    ensures stats == PlayerStatsOf(playerRuns, key, daySpan)
  {
    var orderedRuns := SortBySubmitted(playerRuns, key);
    var improvements := CollectCategoryImprovements(orderedRuns, key);
    var daysActive := 0;
    if |orderedRuns| > 1 {
      match daySpan(orderedRuns[0].submitted, orderedRuns[|orderedRuns| - 1].submitted)
      case Some(days) => daysActive := days;
      case None => daysActive := 0;
    }
    stats := PlayerStats(
      |orderedRuns|,
      |Image(orderedRuns, RunIdOf)|,
      |Image(orderedRuns, CategoryOf)|,
      Average(improvements),
      daysActive);
  }

  /** The dictionary after visiting the groups of the players first met among
      `runs[..n]`, in order of first appearance. */
  function ByPlayerUpTo(runs: seq<RunData>, n: nat, statsFor: string -> PlayerStats)
    : map<string, PlayerStats>
    requires n <= |runs|
  {
    if n == 0 then map[]
    else
      var m := ByPlayerUpTo(runs, n - 1, statsFor);
      var playerId := runs[n - 1].player_id;
      if playerId in m then m else m[playerId := statsFor(playerId)]
  }

  /** Visiting the groups one by one gives one entry per player of `runs[..n]`,
      each the statistics of that player. */
  lemma {:induction false} ByPlayerUpToEntries(runs: seq<RunData>, n: nat, statsFor: string -> PlayerStats)
    requires n <= |runs|
    ensures ByPlayerUpTo(runs, n, statsFor).Keys == PlayerIds(runs[..n])
    ensures forall p :: p in ByPlayerUpTo(runs, n, statsFor) ==> ByPlayerUpTo(runs, n, statsFor)[p] == statsFor(p)
  {
    if n > 0 {
      ByPlayerUpToEntries(runs, n - 1, statsFor);
      ImageStep(runs, n - 1, PlayerOf);
    }
  }

  /** Once every run has been visited, the dictionary has every player. */
  lemma ByPlayerComplete(runs: seq<RunData>, statsFor: string -> PlayerStats)
    ensures ByPlayerUpTo(runs, |runs|, statsFor) == ByPlayer(runs, statsFor)
  {
    ByPlayerUpToEntries(runs, |runs|, statsFor);
    assert runs[..|runs|] == runs;
    var m := ByPlayerUpTo(runs, |runs|, statsFor);
    var n := ByPlayer(runs, statsFor);
    forall p | p in m
      ensures m[p] == n[p]
    {
    }
    assert m.Keys == n.Keys;
  }

  /** One step of the grouping loop: the first run of a player adds that
      player's statistics; later runs of the same player change nothing. */
  method AddPlayerIfNew(playerStats: map<string, PlayerStats>, runs: seq<RunData>, i: nat, key: SubmittedKey,
                  daySpan: (Option<string>, Option<string>) -> Option<int>)
    returns (next: map<string, PlayerStats>)
    requires i < |runs|
    requires playerStats == ByPlayerUpTo(runs, i, StatsOf(runs, key, daySpan))
    ensures next == ByPlayerUpTo(runs, i + 1, StatsOf(runs, key, daySpan))
  {
    var playerId := runs[i].player_id;
    next := playerStats;
    if playerId !in playerStats {
      var stats := ComputePlayerStats(RunsOf(runs, playerId), key, daySpan);
      next := playerStats[playerId := stats];
    }
  }

  /** Groups the runs by player and computes each player's statistics. */
  method CalculatePlayerStatistics(runs: seq<RunData>, key: SubmittedKey,
                                   daySpan: (Option<string>, Option<string>) -> Option<int>)
    returns (playerStats: map<string, PlayerStats>)
    ensures playerStats == PlayerStatistics(runs, key, daySpan)
  {
    playerStats := map[];
    for i := 0 to |runs|
      invariant playerStats == ByPlayerUpTo(runs, i, StatsOf(runs, key, daySpan))
    {
      playerStats := AddPlayerIfNew(playerStats, runs, i, key, daySpan);
    }
    ByPlayerComplete(runs, StatsOf(runs, key, daySpan));
  }
}
