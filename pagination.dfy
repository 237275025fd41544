/** Paging through a game's runs, 200 at a time, as `GetAllRunsForGame` does. */
module Pagination {
  import opened Base
  import opened Runs

  /** The page size requested with `max=200`, and the step of `offset`. */
  const PageSize: nat := 200
  /** No further page is requested once this many runs are held. */
  const MaxRuns: nat := 100000

  /** What one request at some offset yields. `Page` is a response that was
      read to the end: its runs, and the `pagination.size` field (None when
      the field is absent). `FetchFailed` is a request or parse that threw;
      it carries the runs already added before the throw (none when the
      request itself failed). */
  datatype PageResult =
    | FetchFailed(parsed: seq<RunData>)
    | Page(items: seq<RunData>, sizeField: Option<int>)

  /** Another page is requested only after a page that held exactly 200 runs
      and reported a size of 200. */
  predicate IsFullPage(page: PageResult)
  {
    page.Page? && |page.items| == PageSize && page.sizeField == Some(PageSize)
  }

  /** The runs a request adds to the result, whether or not it succeeded. */
  function PageItems(page: PageResult): seq<RunData>
  {
    match page
    case FetchFailed(parsed) => parsed
    case Page(items, _) => items
  }

  /** The result of the loop: the runs and how many requests were made. */
  datatype Crawled = Crawled(runs: seq<RunData>, fetches: nat)

  /** The runs of the first `n` requests, at offsets 0, 200, 400, ... */
  function Gathered(fetchPage: nat -> PageResult, n: nat): seq<RunData>
  {
    if n == 0 then [] else Gathered(fetchPage, n - 1) + PageItems(fetchPage(PageSize * (n - 1)))
  }

  /** The loop from the state after `fetches` requests holding `acc`: it
      requests the page at `offset = 200 * fetches` while fewer than
      `MaxRuns` runs are held, and stops after the first page that is not full. */
  function Crawl(fetchPage: nat -> PageResult, fetches: nat, acc: seq<RunData>): (c: Crawled)
    decreases MaxRuns - |acc|
    ensures c.fetches >= fetches
    ensures |c.runs| >= |acc| && c.runs[..|acc|] == acc
  {
    if |acc| >= MaxRuns then Crawled(acc, fetches)
    else
      var page := fetchPage(PageSize * fetches);
      var next := acc + PageItems(page);
      if IsFullPage(page) then Crawl(fetchPage, fetches + 1, next)
      else Crawled(next, fetches + 1)
  }

  /** Requests pages until one is short, fails, or the limit is reached, and
      returns every run received. */
  method GetAllRunsForGame(fetchPage: nat -> PageResult) returns (allRunsData: seq<RunData>)
    ensures allRunsData == Crawl(fetchPage, 0, []).runs
  {
    allRunsData := [];
    var offset := 0;
    var hasMore := true;
    ghost var pages := 0;
    while hasMore && |allRunsData| < MaxRuns
      invariant offset == PageSize * pages
      invariant hasMore ==> Crawl(fetchPage, pages, allRunsData) == Crawl(fetchPage, 0, [])
      invariant !hasMore ==> allRunsData == Crawl(fetchPage, 0, []).runs
      decreases (if hasMore then 1 else 0), MaxRuns - |allRunsData|
    {
      var page := fetchPage(offset);
      match page {
        case FetchFailed(parsed) =>
          allRunsData := allRunsData + parsed;
          hasMore := false;
        case Page(items, sizeField) =>
          allRunsData := allRunsData + items;
          hasMore := |items| == PageSize && sizeField == Some(PageSize);
          offset := offset + PageSize;
          pages := pages + 1;
      }
    }
  }

  /** Results of earlier requests stay a prefix of the result. */
  lemma {:induction false} GatheredPrefix(fetchPage: nat -> PageResult, n: nat, m: nat)
    requires n <= m
    ensures |Gathered(fetchPage, n)| <= |Gathered(fetchPage, m)|
    ensures Gathered(fetchPage, m)[..|Gathered(fetchPage, n)|] == Gathered(fetchPage, n)
  {
    if n < m {
      GatheredPrefix(fetchPage, n, m - 1);
      var g := Gathered(fetchPage, m - 1);
      var k := |Gathered(fetchPage, n)|;
      assert (g + PageItems(fetchPage(PageSize * (m - 1))))[..k] == g[..k];
    }
  }

  /** After `n` full pages exactly `200 * n` runs are held. */
  lemma {:induction false} GatheredFull(fetchPage: nat -> PageResult, n: nat)
    requires forall i :: 0 <= i < n ==> IsFullPage(fetchPage(PageSize * i))
    ensures |Gathered(fetchPage, n)| == PageSize * n
  {
    if n > 0 {
      GatheredFull(fetchPage, n - 1);
      assert IsFullPage(fetchPage(PageSize * (n - 1)));
    }
  }

  /** The shape of the loop's run from any state reached by full pages. */
  lemma {:induction false} CrawlShape(fetchPage: nat -> PageResult, k: nat, acc: seq<RunData>)
    requires acc == Gathered(fetchPage, k)
    requires forall i :: 0 <= i < k ==> IsFullPage(fetchPage(PageSize * i))
    decreases MaxRuns - |acc|
    ensures var c := Crawl(fetchPage, k, acc);
      && c.runs == Gathered(fetchPage, c.fetches)
      && (forall i :: 0 <= i < c.fetches - 1 ==> IsFullPage(fetchPage(PageSize * i)))
      && (c.fetches > k ==> |Gathered(fetchPage, c.fetches - 1)| < MaxRuns)
      && (c.fetches == k ==> |acc| >= MaxRuns)
      && (c.fetches > 0 ==> !IsFullPage(fetchPage(PageSize * (c.fetches - 1))) || |c.runs| >= MaxRuns)
  {
    if |acc| < MaxRuns {
      var page := fetchPage(PageSize * k);
      var next := acc + PageItems(page);
      assert next == Gathered(fetchPage, k + 1);
      if IsFullPage(page) {
        CrawlShape(fetchPage, k + 1, next);
      }
    } else if k > 0 {
      assert forall i :: 0 <= i < k - 1 ==> IsFullPage(fetchPage(PageSize * i));
    }
  }

  /** What `GetAllRunsForGame` fetches: at least one page; the pages at
      offsets 0, 200, 400, ... in order, each one's runs appended after the
      previous ones; every page but the last was full, so a failed or short
      page ends the loop; the last page was requested while fewer than
      `MaxRuns` runs were held, so at most 500 pages are requested. */
  lemma CrawlFacts(fetchPage: nat -> PageResult)
    ensures var c := Crawl(fetchPage, 0, []);
      && 1 <= c.fetches <= MaxRuns / PageSize
      && c.runs == Gathered(fetchPage, c.fetches)
      && (forall i :: 0 <= i < c.fetches - 1 ==> IsFullPage(fetchPage(PageSize * i)))
      && (forall i :: 0 <= i < c.fetches - 1 ==> !fetchPage(PageSize * i).FetchFailed?)
      && (!IsFullPage(fetchPage(PageSize * (c.fetches - 1))) || |c.runs| >= MaxRuns)
      && |Gathered(fetchPage, c.fetches - 1)| == PageSize * (c.fetches - 1)
  {
    CrawlShape(fetchPage, 0, []);
    var c := Crawl(fetchPage, 0, []);
    GatheredFull(fetchPage, c.fetches - 1);
  }

  /** When no response holds more than 200 runs, the result holds at most
      `MaxRuns` runs. */
  lemma CrawlBound(fetchPage: nat -> PageResult)
    requires forall offset :: |PageItems(fetchPage(offset))| <= PageSize
    ensures |Crawl(fetchPage, 0, []).runs| <= MaxRuns
  {
    CrawlFacts(fetchPage);
    var c := Crawl(fetchPage, 0, []);
    assert c.runs == Gathered(fetchPage, c.fetches - 1) + PageItems(fetchPage(PageSize * (c.fetches - 1)));
  }
}
