/**
 Serving a page of tasks: from the cached pages when they cover the request, from the table
 otherwise; the caller cannot tell which.
 */
module TaskQueries {
  import opened Options
  import opened Base64Url
  import opened ContinuationToken
  import opened TaskCache

  datatype Served = Served(tasks: seq<Task>, next: string)

  /******* fetchTasksFromCache *******/

  // The position of a page token, first match first
  function FindToken(tokens: seq<string>, token: string): (r: Option<nat>)
    ensures r.Some? ==> r.value < |tokens| && tokens[r.value] == token
    ensures r.None? ==> token !in tokens
  {
    if tokens == [] then None
    else
      var r := FindToken(tokens[..|tokens| - 1], token);
      if r.Some? then r else if tokens[|tokens| - 1] == token then Some(|tokens| - 1) else None
  }

  function PageIndex(p: Payload, token: string): Option<nat> {
    if token == "" then Some(0)
    else
      var r := FindToken(p.pageTokens, token);
      if r.None? then None else Some(r.value + 1)
  }

  function CachedPages(p: Payload, pageSize: nat): nat
    requires pageSize > 0
  {
    if p.cachedPages == 0 then Pages(|p.tasks|, pageSize) else p.cachedPages
  }

  // Page i of the cached tasks, starting at the given offset
  function ServePage(p: Payload, i: nat, start: nat, pageSize: nat): Option<Served> {
    if start >= |p.tasks| then None
    else
      var next := if i < |p.pageTokens| then p.pageTokens[i] else p.nextPageToken;
      Some(Served(p.tasks[start..Min(start + pageSize, |p.tasks|)], next))
  }

  function Lookup(p: Payload, token: string, pageSize: nat): Option<Served>
    requires pageSize > 0
  {
    var i := PageIndex(p, token);
    if p.tasks == [] || i.None? || i.value >= CachedPages(p, pageSize) then None
    else ServePage(p, i.value, i.value * pageSize, pageSize)
  }

  lemma {:induction false} FirstMatch(tokens: seq<string>, token: string, i: nat)
    requires i < |tokens| && tokens[i] == token && forall k | 0 <= k < i :: tokens[k] != token
    ensures FindToken(tokens, token) == Some(i)
  {
    if i < |tokens| - 1 {
      FirstMatch(tokens[..|tokens| - 1], token, i);
    }
  }

  method FetchFromCache(cached: Payload, token: string, pageSize: nat) returns (r: Option<Served>)
    requires pageSize > 0
    ensures r == Lookup(cached, token, pageSize)
  {
    var tasks := cached.tasks;
    if |tasks| == 0 {
      return None;
    }
    var cachedPages := cached.cachedPages;
    if cachedPages <= 0 {
      PagesIsQuotient(|tasks|, pageSize);
      cachedPages := (|tasks| + pageSize - 1) / pageSize;
    }
    var pageIndex := SearchToken(cached, token);
    if pageIndex < 0 || pageIndex >= cachedPages {
      return None;
    }
    var start := pageIndex * pageSize;
    if start >= |tasks| {
      return None;
    }
    var end := start + pageSize;
    if end > |tasks| {
      end := |tasks|;
    }
    var next := cached.nextPageToken;
    if pageIndex < |cached.pageTokens| {
      next := cached.pageTokens[pageIndex];
    }
    r := Some(Served(tasks[start..end], next));
  }

  // The search loop; -1 when the token is not a cached one
  method SearchToken(cached: Payload, token: string) returns (pageIndex: int)
    ensures PageIndex(cached, token) == if pageIndex < 0 then None else Some(pageIndex)
  {
    pageIndex := -1;
    if token == "" {
      return 0;
    }
    for i := 0 to |cached.pageTokens|
      invariant pageIndex == -1 && forall k | 0 <= k < i :: cached.pageTokens[k] != token
    {
      if cached.pageTokens[i] == token {
        FirstMatch(cached.pageTokens, token, i);
        return i + 1;
      }
    }
  }

  /******* The table path *******/

  datatype Reply = Page200(served: Served) | InvalidToken

  function FromTable(q: Pager, token: string, json: Bytes -> Option<Keys>): (r: Reply)
    ensures r.InvalidToken? <==> DecodeToken(token, json).Invalid?
    ensures token == "" ==> r == Page200(Served(TasksOf(q.first.rows), NextToken(q.first)))
  {
    match DecodeToken(token, json)
    case Invalid => InvalidToken
    case NoToken => Page200(Served(TasksOf(q.Read(None).rows), NextToken(q.Read(None))))
    case Decoded(k) => Page200(Served(TasksOf(q.Read(Some(k)).rows), NextToken(q.Read(Some(k)))))
  }

  /******* Agreement *******/

  lemma {:induction false} RowsPrefix(pages: seq<Page>, i: nat)
    requires i <= |pages|
    ensures AllRows(pages[..i]) <= AllRows(pages)
  {
    if i < |pages| {
      RowsPrefix(pages[..|pages| - 1], i);
      assert pages[..|pages| - 1][..i] == pages[..i];
    } else {
      assert pages[..i] == pages;
    }
  }

  ghost predicate FullUpTo(pages: seq<Page>, pageSize: nat, n: nat) {
    n <= |pages| && forall i | 0 <= i < n :: |pages[i].rows| == pageSize
  }

  lemma {:induction false} FullLength(pages: seq<Page>, pageSize: nat, i: nat)
    requires FullUpTo(pages, pageSize, i)
    ensures |AllRows(pages[..i])| == i * pageSize
  {
    if i == 0 {
    } else {
      FullLength(pages, pageSize, i - 1);
      assert pages[..i][..i - 1] == pages[..i - 1];
      assert i * pageSize == (i - 1) * pageSize + pageSize;
    }
  }

  // The rows of page i are where the cache looks for them.
  lemma PageSlice(pages: seq<Page>, pageSize: nat, i: nat, start: nat)
    requires i < |pages| && start == i * pageSize
    requires FullUpTo(pages, pageSize, |pages| - 1) && |pages[|pages| - 1].rows| <= pageSize
    ensures var rows := AllRows(pages);
      && start + |pages[i].rows| <= |rows|
      && rows[start..start + |pages[i].rows|] == pages[i].rows
      && Min(start + pageSize, |rows|) == start + |pages[i].rows|
  {
    FullLength(pages, pageSize, i);
    RowsPrefix(pages, i + 1);
    assert pages[..i + 1][..i] == pages[..i];
    if i == |pages| - 1 {
      assert pages[..i + 1] == pages;
    }
  }

  lemma TasksOfSlice(rows: seq<TaskRow>, a: nat, b: nat)
    requires a <= b <= |rows|
    ensures TasksOf(rows)[a..b] == TasksOf(rows[a..b])
  {
  }

  // A token of a cached page leads the table to the page that follows it.
  lemma TokenLeadsOn(q: Pager, pageSize: nat, pages: seq<Page>, c: Option<Keys>, j: nat, json: Bytes -> Option<Keys>)
    requires IsChain(q, pageSize, pages, c) && j + 1 < |pages|
    requires GoodKey(pages[j].nextPk) && GoodKey(pages[j].nextRk)
    ensures FromTable(q, NextToken(pages[j]), json) ==
      Page200(Served(TasksOf(pages[j + 1].rows), NextToken(pages[j + 1])))
  {
    assert LinkAt(q, pageSize, pages, j);
    TokenRoundTrip(pages[j].nextPk.value, pages[j].nextRk.value, json);
  }

  lemma {:induction false} ChainIsGood(q: Pager, pageSize: nat, pages: seq<Page>, c: Option<Keys>, i: nat)
    requires IsChain(q, pageSize, pages, c) && WellBehaved(q, pageSize) && i < |pages|
    ensures GoodPage(pages[i], pageSize) && (i + 1 < |pages| ==> |pages[i].rows| == pageSize)
  {
    if i == 0 {
    } else {
      assert LinkAt(q, pageSize, pages, i - 1);
    }
    if i + 1 < |pages| {
      assert LinkAt(q, pageSize, pages, i);
    }
  }

  // The payload holds the rows and the tokens of these pages.
  ghost predicate Carries(p: Payload, pages: seq<Page>) {
    && pages != []
    && p.tasks == TasksOf(AllRows(pages))
    && p.pageTokens == Tokens(pages[..|pages| - 1])
    && p.nextPageToken == NextToken(pages[|pages| - 1])
  }

  lemma AssembleCarries(pages: seq<Page>, pageSize: nat, limit: nat, lastUpdated: int)
    requires pages != [] && pageSize > 0
    ensures Carries(Assemble(pages, pageSize, limit, lastUpdated), pages)
  {
  }

  // The rows of page i among the cached tasks
  lemma CachedRows(p: Payload, pages: seq<Page>, pageSize: nat, i: nat, start: nat)
    requires Carries(p, pages) && i < |pages| && start == i * pageSize
    requires FullUpTo(pages, pageSize, |pages| - 1) && |pages[|pages| - 1].rows| <= pageSize
    ensures var end := start + |pages[i].rows|;
      && end <= |p.tasks| && p.tasks[start..end] == TasksOf(pages[i].rows)
      && Min(start + pageSize, |p.tasks|) == end
  {
    PageSlice(pages, pageSize, i, start);
    TasksOfSlice(AllRows(pages), start, start + |pages[i].rows|);
  }

  // The token after page i
  lemma CachedToken(p: Payload, pages: seq<Page>, i: nat)
    requires Carries(p, pages) && i < |pages|
    ensures (if i < |p.pageTokens| then p.pageTokens[i] else p.nextPageToken) == NextToken(pages[i])
  {
  }

  lemma ServesSlice(p: Payload, i: nat, start: nat, pageSize: nat, tasks: seq<Task>, next: string)
    requires pageSize > 0 && start + |tasks| <= |p.tasks| && p.tasks[start..start + |tasks|] == tasks
    requires Min(start + pageSize, |p.tasks|) == start + |tasks|
    requires next == if i < |p.pageTokens| then p.pageTokens[i] else p.nextPageToken
    ensures ServePage(p, i, start, pageSize) == if tasks == [] then None else Some(Served(tasks, next))
  {
  }

  // What the cache answers for its page i is what the table answers for it.
  lemma ServesPage(p: Payload, pages: seq<Page>, pageSize: nat, i: nat, start: nat)
    requires Carries(p, pages) && i < |pages| && start == i * pageSize && pageSize > 0
    requires FullUpTo(pages, pageSize, |pages| - 1) && |pages[|pages| - 1].rows| <= pageSize
    ensures ServePage(p, i, start, pageSize) ==
      if pages[i].rows == [] then None else Some(Served(TasksOf(pages[i].rows), NextToken(pages[i])))
  {
    CachedRows(p, pages, pageSize, i, start);
    CachedToken(p, pages, i);
    ServesSlice(p, i, start, pageSize, TasksOf(pages[i].rows), NextToken(pages[i]));
  }

  lemma ChainIsFull(q: Pager, pageSize: nat, pages: seq<Page>)
    requires IsChain(q, pageSize, pages, None) && WellBehaved(q, pageSize) && pages != []
    ensures FullUpTo(pages, pageSize, |pages| - 1) && |pages[|pages| - 1].rows| <= pageSize
  {
    forall i: nat | i < |pages|
      ensures GoodPage(pages[i], pageSize) && (i + 1 < |pages| ==> |pages[i].rows| == pageSize)
    {
      ChainIsGood(q, pageSize, pages, None, i);
    }
  }

  // A hit is the page at the token's position.
  lemma HitServes(p: Payload, token: string, pageSize: nat) returns (i: nat, start: nat)
    requires pageSize > 0 && Lookup(p, token, pageSize).Some?
    ensures PageIndex(p, token) == Some(i) && start == i * pageSize
    ensures Lookup(p, token, pageSize) == ServePage(p, i, start, pageSize)
  {
    i := PageIndex(p, token).value;
    start := i * pageSize;
  }

  // The token that leads to page i
  function TokenOf(pages: seq<Page>, i: nat): string
    requires i < |pages|
  {
    if i == 0 then "" else NextToken(pages[i - 1])
  }

  predicate LeadsTo(pages: seq<Page>, token: string, i: nat) {
    i < |pages| && token == TokenOf(pages, i)
  }

  // The cached tokens lead to the pages after the first, in order.
  ghost predicate TokensLead(tokens: seq<string>, pages: seq<Page>) {
    |tokens| < |pages| && forall j | 0 <= j < |tokens| :: LeadsTo(pages, tokens[j], j + 1)
  }

  lemma CarriedTokensLead(p: Payload, pages: seq<Page>)
    requires Carries(p, pages)
    ensures TokensLead(p.pageTokens, pages)
  {
    forall j | 0 <= j < |p.pageTokens| ensures LeadsTo(pages, p.pageTokens[j], j + 1) {
    }
  }

  lemma IndexLeadsTo(p: Payload, pages: seq<Page>, token: string)
    requires TokensLead(p.pageTokens, pages) && PageIndex(p, token).Some?
    ensures LeadsTo(pages, token, PageIndex(p, token).value)
  {
    if token != "" {
      var j := FindToken(p.pageTokens, token).value;
      assert LeadsTo(pages, p.pageTokens[j], j + 1);
    }
  }

  // The table answers that token with page i.
  lemma TableServes(q: Pager, pageSize: nat, pages: seq<Page>, token: string, i: nat, json: Bytes -> Option<Keys>)
    requires IsChain(q, pageSize, pages, None) && WellBehaved(q, pageSize) && LeadsTo(pages, token, i)
    ensures FromTable(q, token, json) == Page200(Served(TasksOf(pages[i].rows), NextToken(pages[i])))
  {
    if i > 0 {
      ChainIsGood(q, pageSize, pages, None, i - 1);
      TokenLeadsOn(q, pageSize, pages, None, i - 1, json);
    }
  }

  lemma ChainHits(q: Pager, pageSize: nat, pages: seq<Page>, p: Payload, token: string, json: Bytes -> Option<Keys>)
    requires pageSize > 0 && IsChain(q, pageSize, pages, None) && WellBehaved(q, pageSize)
    requires Carries(p, pages) && Lookup(p, token, pageSize).Some?
    ensures FromTable(q, token, json) == Page200(Lookup(p, token, pageSize).value)
  {
    var i, start := HitServes(p, token, pageSize);
    CarriedTokensLead(p, pages);
    IndexLeadsTo(p, pages, token);
    ChainIsFull(q, pageSize, pages);
    TableServes(q, pageSize, pages, token, i, json);
    ServesPage(p, pages, pageSize, i, start);
  }

  /** While the table is unchanged, a cache hit for any token is what the table path would have
      answered: the same tasks and the same next token. */
  lemma CacheAgreesWithTable(q: Pager, pageSize: nat, limit: nat, lastUpdated: int, token: string,
                             json: Bytes -> Option<Keys>)
    requires pageSize > 0 && limit > 0 && WellBehaved(q, pageSize)
    ensures Visited(q, pageSize, limit, None) != []
    ensures var hit := Lookup(Assemble(Visited(q, pageSize, limit, None), pageSize, limit, lastUpdated), token,
                              pageSize);
      hit.Some? ==> FromTable(q, token, json) == Page200(hit.value)
  {
    var pages := Visited(q, pageSize, limit, None);
    VisitedIsChain(q, pageSize, limit, None);
    var p := Assemble(pages, pageSize, limit, lastUpdated);
    AssembleCarries(pages, pageSize, limit, lastUpdated);
    if Lookup(p, token, pageSize).Some? {
      ChainHits(q, pageSize, pages, p, token, json);
    }
  }

  lemma {:induction false} FirstBefore(tokens: seq<string>, token: string, i: nat)
    requires i < |tokens| && tokens[i] == token
    ensures FindToken(tokens, token).Some? && FindToken(tokens, token).value <= i
  {
    if i < |tokens| - 1 {
      FirstBefore(tokens[..|tokens| - 1], token, i);
    }
  }

  lemma EarlierOffset(k: nat, i: nat, pageSize: nat)
    requires k <= i
    ensures k * pageSize <= i * pageSize
  {
  }

  // A page that starts inside the cached tasks is among the counted ones.
  lemma WithinCachedPages(pages: seq<Page>, pageSize: nat, limit: nat, lastUpdated: int, k: nat, start: nat)
    requires pageSize > 0 && pages != [] && |pages| <= limit && k < |pages|
    requires start == k * pageSize && start < |AllRows(pages)|
    ensures k < CachedPages(Assemble(pages, pageSize, limit, lastUpdated), pageSize)
  {
    PagesReach(|AllRows(pages)|, pageSize, k);
  }

  // A token that stands before page i is found there or earlier.
  lemma FoundBefore(p: Payload, token: string, i: nat) returns (k: nat)
    requires token != "" ==> 0 < i <= |p.pageTokens| && p.pageTokens[i - 1] == token
    ensures PageIndex(p, token) == Some(k) && k <= i
  {
    if token != "" {
      FirstBefore(p.pageTokens, token, i - 1);
    }
    k := PageIndex(p, token).value;
  }

  // Page k, no later than a page i that has rows, starts inside the cached tasks.
  lemma StartsInside(pages: seq<Page>, pageSize: nat, i: nat, k: nat) returns (start: nat)
    requires pageSize > 0 && k <= i < |pages| && pages[i].rows != []
    requires FullUpTo(pages, pageSize, |pages| - 1) && |pages[|pages| - 1].rows| <= pageSize
    ensures start == k * pageSize && start < |AllRows(pages)|
  {
    start := k * pageSize;
    EarlierOffset(k, i, pageSize);
    PageSlice(pages, pageSize, i, i * pageSize);
  }

  lemma LookupHits(p: Payload, token: string, pageSize: nat, k: nat, start: nat)
    requires pageSize > 0 && PageIndex(p, token) == Some(k) && k < CachedPages(p, pageSize)
    requires start == k * pageSize && start < |p.tasks|
    ensures Lookup(p, token, pageSize).Some?
  {
  }

  /** Every non-empty page that was visited is served from the cache. */
  lemma VisitedPagesHit(q: Pager, pageSize: nat, limit: nat, lastUpdated: int, i: nat)
    requires pageSize > 0 && limit > 0 && WellBehaved(q, pageSize)
    requires i < |Visited(q, pageSize, limit, None)| && Visited(q, pageSize, limit, None)[i].rows != []
    ensures var pages := Visited(q, pageSize, limit, None);
      Lookup(Assemble(pages, pageSize, limit, lastUpdated), TokenOf(pages, i), pageSize).Some?
  {
    var pages := Visited(q, pageSize, limit, None);
    VisitedIsChain(q, pageSize, limit, None);
    ChainIsFull(q, pageSize, pages);
    var p := Assemble(pages, pageSize, limit, lastUpdated);
    AssembleCarries(pages, pageSize, limit, lastUpdated);
    var k := FoundBefore(p, TokenOf(pages, i), i);
    var start := StartsInside(pages, pageSize, i, k);
    WithinCachedPages(pages, pageSize, limit, lastUpdated, k, start);
    LookupHits(p, TokenOf(pages, i), pageSize, k, start);
  }

  /******* FetchTasks *******/

  const MAX_PAGE_SIZE := 1000

  function ResolvePageSize(requested: int, defaultSize: int): (r: nat)
    ensures 1 <= r <= 1000
    ensures 1 <= requested <= 1000 ==> r == requested
    ensures requested > 1000 ==> r == 1000
    ensures requested <= 0 && 1 <= defaultSize <= 1000 ==> r == defaultSize
    ensures requested <= 0 && defaultSize > 1000 ==> r == 1000
    ensures requested <= 0 && defaultSize <= 0 ==> r == 1
  {
    var d := if defaultSize <= 0 then 1 else if defaultSize > MAX_PAGE_SIZE then MAX_PAGE_SIZE else defaultSize;
    if requested <= 0 then d
    else if requested > MAX_PAGE_SIZE then MAX_PAGE_SIZE
    else requested
  }

  // The payload is what a refresh stored from a table that answered as source.
  ghost predicate StoredFrom(p: Payload, source: Pager) {
    exists limit: nat, lastUpdated: int :: limit > 0 && StoredAs(p, source, limit, lastUpdated)
  }

  ghost predicate StoredAs(p: Payload, source: Pager, limit: nat, lastUpdated: int) {
    var pages := Visited(source, p.pageSize, limit, None);
    p.pageSize > 0 && pages != [] && p == Assemble(pages, p.pageSize, limit, lastUpdated)
  }

  /** FetchTasks: the answer is the table's, read now as q, or as it was read for the cached pages of the
      same size; so with an unchanged table that pages as it did then, it does not depend on the cache. */
  method FetchTasks(q: Pager, cached: Option<Payload>, ghost source: Pager, taskPageSize: nat, token: string,
                    limit: int, json: Bytes -> Option<Keys>)
    returns (r: Reply)
    requires 1 <= taskPageSize <= MAX_PAGE_SIZE
    requires cached.Some? ==> StoredFrom(cached.value, source) && WellBehaved(source, cached.value.pageSize)
    ensures r == FromTable(q, token, json)
         || (cached.Some? && cached.value.pageSize == ResolvePageSize(limit, taskPageSize) == taskPageSize
             && r == FromTable(source, token, json))
    ensures source == q ==> r == FromTable(q, token, json)
    // a bad token is refused, never answered with some page
    ensures r.InvalidToken? <==> DecodeToken(token, json).Invalid?
  {
    var pageSize := ResolvePageSize(limit, taskPageSize);
    if pageSize == taskPageSize && cached.Some?
       && !(cached.value.pageSize > 0 && cached.value.pageSize != taskPageSize)
    {
      var hit := FetchFromCache(cached.value, token, pageSize);
      if hit.Some? {
        ghost var pages: nat, lastUpdated: int :| pages > 0 && StoredAs(cached.value, source, pages, lastUpdated);
        CacheAgreesWithTable(source, pageSize, pages, lastUpdated, token, json);
        return Page200(hit.value);
      }
    }
    r := FromTable(q, token, json);
  }
}
