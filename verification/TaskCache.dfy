/**
 The cached pages of a user's tasks: built by the read-model updater (RefreshTasks), served by the
 API (fetchTasksFromCache), and required to agree with the table pager they stand in for.
 */
module TaskCache {
  import opened Options
  import opened Base64Url
  import opened ContinuationToken

  datatype Task = Task(id: string, title: string, notes: string, category: string, order: int, done: bool)

  // A table row as ListTasksPage returns it
  datatype TaskRow = TaskRow(task: Task, ts: int)

  // One page of the user's rows, with the continuation headers the service sent.
  datatype Page = Page(rows: seq<TaskRow>, nextPk: Option<Bytes>, nextRk: Option<Bytes>)

  // The table's answers to the page query of one user with one page size, while it is unchanged: the
  // answer to the query without a continuation, and to those with one.
  datatype Pager = Pager(first: Page, after: map<Keys, Page>) {
    function Read(c: Option<Keys>): Page {
      if c.None? then first else if c.value in after then after[c.value] else Page([], None, None)
    }
  }

  // No page is longer than asked for; a continuation header that is present is not empty.
  ghost predicate WellBehaved(q: Pager, pageSize: nat) {
    GoodPage(q.first, pageSize) && forall k | k in q.after :: GoodPage(q.after[k], pageSize)
  }

  predicate GoodPage(p: Page, pageSize: nat) {
    |p.rows| <= pageSize && GoodKey(p.nextPk) && GoodKey(p.nextRk)
  }

  predicate GoodKey(k: Option<Bytes>) {
    k.Some? ==> 0 < |k.value| < WORD
  }

  function NextToken(p: Page): string {
    Token(p.nextPk, p.nextRk)
  }

  function TasksOf(rows: seq<TaskRow>): (ts: seq<Task>)
    ensures |ts| == |rows| && forall i | 0 <= i < |rows| :: ts[i] == rows[i].task
  {
    if rows == [] then [] else TasksOf(rows[..|rows| - 1]) + [rows[|rows| - 1].task]
  }

  datatype Payload = Payload(pageSize: nat, cachedPages: nat, pageTokens: seq<string>, nextPageToken: string,
                             tasks: seq<Task>, lastUpdatedAt: int)

  /******* RefreshTasks *******/

  // The page after which the refresh stops.
  predicate LastPage(p: Page, pageSize: nat) {
    |p.rows| < pageSize || p.nextPk.None? || p.nextRk.None?
  }

  // The pages a refresh reads from position c, at most n of them.
  function Visited(q: Pager, pageSize: nat, n: nat, c: Option<Keys>): seq<Page> {
    if n == 0 then []
    else if LastPage(q.Read(c), pageSize) then [q.Read(c)]
    else [q.Read(c)] + Visited(q, pageSize, n - 1, Some(Keys(q.Read(c).nextPk.value, q.Read(c).nextRk.value)))
  }

  function AllRows(pages: seq<Page>): seq<TaskRow> {
    if pages == [] then [] else AllRows(pages[..|pages| - 1]) + pages[|pages| - 1].rows
  }

  // Every page but the last is full and continues where the next one starts.
  ghost predicate IsChain(q: Pager, pageSize: nat, pages: seq<Page>, c: Option<Keys>) {
    && (pages != [] ==> pages[0] == q.Read(c))
    && (forall i | 0 <= i < |pages| - 1 :: LinkAt(q, pageSize, pages, i))
  }

  ghost predicate LinkAt(q: Pager, pageSize: nat, pages: seq<Page>, i: nat)
    requires i + 1 < |pages|
  {
    !LastPage(pages[i], pageSize) && pages[i + 1] == q.Read(Some(Keys(pages[i].nextPk.value, pages[i].nextRk.value)))
  }

  lemma {:induction false} VisitedIsChain(q: Pager, pageSize: nat, n: nat, c: Option<Keys>)
    requires n > 0
    ensures var pages := Visited(q, pageSize, n, c);
      && 0 < |pages| <= n && IsChain(q, pageSize, pages, c)
      && (forall i | 0 <= i < |pages| - 1 ::
            |pages[i].rows| >= pageSize && pages[i].nextPk.Some? && pages[i].nextRk.Some?)
      && var last := pages[|pages| - 1];
         |pages| == n || |last.rows| < pageSize || last.nextPk.None? || last.nextRk.None?
  {
    var pages := Visited(q, pageSize, n, c);
    if !LastPage(q.Read(c), pageSize) && n > 1 {
      var c' := Some(Keys(q.Read(c).nextPk.value, q.Read(c).nextRk.value));
      var rest := Visited(q, pageSize, n - 1, c');
      VisitedIsChain(q, pageSize, n - 1, c');
      forall i | 0 <= i < |pages| - 1 ensures LinkAt(q, pageSize, pages, i) {
        if i > 0 {
          assert LinkAt(q, pageSize, rest, i - 1);
        }
      }
    }
  }

  function Max(x: int, y: int): int { if x < y then y else x }

  function Newest(rows: seq<TaskRow>, ts: int): int {
    if rows == [] then ts else Max(Newest(rows[..|rows| - 1], ts), rows[|rows| - 1].ts)
  }

  /** No row is newer than the newest, nor is the time the refresh was called with; and it is one of them. */
  lemma {:induction false} NewestIsNewest(rows: seq<TaskRow>, ts: int)
    ensures ts <= Newest(rows, ts) && forall i | 0 <= i < |rows| :: rows[i].ts <= Newest(rows, ts)
    ensures Newest(rows, ts) == ts || exists i | 0 <= i < |rows| :: rows[i].ts == Newest(rows, ts)
  {
    if rows == [] {
    } else {
      var n := |rows| - 1;
      NewestIsNewest(rows[..n], ts);
      if Newest(rows, ts) != rows[n].ts && Newest(rows, ts) != ts {
        var i :| 0 <= i < n && rows[..n][i].ts == Newest(rows[..n], ts);
        assert rows[i].ts == Newest(rows, ts);
      }
      forall i | 0 <= i < |rows| ensures rows[i].ts <= Newest(rows, ts) {
        if i < n {
          assert rows[..n][i] == rows[i];
        }
      }
    }
  }

  function Min(x: nat, y: nat): nat { if x < y then x else y }

  // How many pages the rows fill
  function Pages(rows: nat, pageSize: nat): nat
    requires pageSize > 0
  {
    if rows == 0 then 0 else if rows <= pageSize then 1 else 1 + Pages(rows - pageSize, pageSize)
  }

  lemma SmallQuotient(a: nat, b: nat)
    requires a < b
    ensures a / b == 0
  {
  }

  lemma {:induction false} Distribute(a: int, b: int, d: nat)
    requires a < b
    ensures a * d + d <= b * d
    decreases b - a
  {
    assert b * d == (b - 1) * d + d;
    if a < b - 1 {
      Distribute(a, b - 1, d);
    }
  }

  // A quotient is determined by its remainder being in range.
  lemma QuotientUnique(q: nat, q': nat, d: nat, r: nat, r': nat)
    requires q * d + r == q' * d + r' && r < d && r' < d
    ensures q == q'
  {
    if q < q' {
      Distribute(q, q', d);
    } else if q' < q {
      Distribute(q', q, d);
    }
  }

  lemma OneMore(y: nat, d: nat)
    requires d > 0
    ensures (y + d) / d == y / d + 1
  {
    QuotientUnique((y + d) / d, y / d + 1, d, (y + d) % d, y % d);
  }

  lemma {:induction false} PagesIsQuotient(rows: nat, pageSize: nat)
    requires pageSize > 0
    ensures (rows + pageSize - 1) / pageSize == Pages(rows, pageSize)
  {
    if rows == 0 {
      SmallQuotient(pageSize - 1, pageSize);
    } else if rows <= pageSize {
      OneMore(rows - 1, pageSize);
      SmallQuotient(rows - 1, pageSize);
    } else {
      PagesIsQuotient(rows - pageSize, pageSize);
      OneMore(rows - 1, pageSize);
    }
  }

  lemma {:induction false} PagesReach(rows: nat, pageSize: nat, i: nat)
    requires pageSize > 0
    ensures i < Pages(rows, pageSize) <==> i * pageSize < rows
  {
    if i == 0 {
    } else {
      assert i * pageSize == (i - 1) * pageSize + pageSize;
      if rows > pageSize {
        PagesReach(rows - pageSize, pageSize, i - 1);
      }
    }
  }

  function Tokens(pages: seq<Page>): (ts: seq<string>)
    ensures |ts| == |pages| && forall i | 0 <= i < |pages| :: ts[i] == NextToken(pages[i])
  {
    if pages == [] then [] else Tokens(pages[..|pages| - 1]) + [NextToken(pages[|pages| - 1])]
  }

  // What is stored for a chain of pages.
  function Assemble(pages: seq<Page>, pageSize: nat, limit: nat, lastUpdated: int): Payload
    requires pages != [] && pageSize > 0
  {
    var rows, last := AllRows(pages), |pages| - 1;
    Payload(pageSize, Min(Pages(|rows|, pageSize), limit), Tokens(pages[..last]), NextToken(pages[last]),
            TasksOf(rows), Newest(rows, lastUpdated))
  }

  datatype Refresh = Stored(payload: Payload) | Purged | Untouched

  predicate Holds(rows: seq<TaskRow>, id: string) {
    exists i | 0 <= i < |rows| :: rows[i].task.id == id
  }

  lemma HoldsOneMore(rows: seq<TaskRow>, row: TaskRow, id: string)
    ensures Holds(rows + [row], id) <==> Holds(rows, id) || row.task.id == id
  {
    var rows' := rows + [row];
    assert rows'[|rows|] == row;
    if Holds(rows, id) {
      var k :| 0 <= k < |rows| && rows[k].task.id == id;
      assert rows'[k] == rows[k];
    }
  }

  lemma NewestOfOneMore(rows: seq<TaskRow>, row: TaskRow, ts: int)
    ensures Newest(rows + [row], ts) == Max(Newest(rows, ts), row.ts)
  {
    assert (rows + [row])[..|rows|] == rows;
  }

  // The inner loop over one page
  method AppendRows(entries: seq<TaskRow>, rows: seq<TaskRow>, lastUpdated: int, maxTs: int, entityId: string,
                    found: bool)
    returns (entries': seq<TaskRow>, maxTs': int, found': bool)
    requires maxTs == Newest(entries, lastUpdated) && (found <==> entityId == "" || Holds(entries, entityId))
    ensures entries' == entries + rows && maxTs' == Newest(entries', lastUpdated)
    ensures found' <==> entityId == "" || Holds(entries', entityId)
  {
    entries', maxTs', found' := entries, maxTs, found;
    for i := 0 to |rows|
      invariant entries' == entries + rows[..i] && maxTs' == Newest(entries', lastUpdated)
      invariant found' <==> entityId == "" || Holds(entries', entityId)
    {
      HoldsOneMore(entries', rows[i], entityId);
      NewestOfOneMore(entries', rows[i], lastUpdated);
      entries' := entries' + [rows[i]];
      if rows[i].ts > maxTs' {
        maxTs' := rows[i].ts;
      }
      if !found' && rows[i].task.id == entityId {
        found' := true;
      }
    }
  }

  // The variables that the refresh loop updates.
  datatype Gathered = Gathered(entries: seq<TaskRow>, pageTokens: seq<string>, nextToken: string, maxTs: int,
                               found: bool)

  // They hold the content of the pages read so far; the token of a page is kept once it is known to be followed.
  ghost predicate Gathers(g: Gathered, pages: seq<Page>, kept: nat, entityId: string, lastUpdated: int) {
    && g.entries == AllRows(pages) && g.maxTs == Newest(g.entries, lastUpdated)
    && (g.found <==> entityId == "" || Holds(g.entries, entityId))
    && kept <= |pages| && g.pageTokens == Tokens(pages[..kept])
    && (pages != [] ==> g.nextToken == NextToken(pages[|pages| - 1]))
  }

  // The body of the refresh loop for the page just read; more: whether the loop goes on.
  method AddPage(g: Gathered, ghost pages: seq<Page>, answer: Page, pageSize: nat, notLast: bool, entityId: string,
                 lastUpdated: int)
    returns (g': Gathered, more: bool, ghost kept: nat)
    requires pageSize > 0 && |answer.rows| <= pageSize && GoodKey(answer.nextPk) && GoodKey(answer.nextRk)
    requires Gathers(g, pages, |pages|, entityId, lastUpdated)
    ensures more <==> !LastPage(answer, pageSize)
    ensures kept == if more && notLast then |pages| + 1 else |pages|
    ensures Gathers(g', pages + [answer], kept, entityId, lastUpdated)
  {
    ghost var pages' := pages + [answer];
    assert pages'[..|pages|] == pages == pages[..|pages|] && pages'[..|pages'|] == pages';
    kept := |pages|;
    var token := EncodeToken(answer.nextPk, answer.nextRk);
    if |answer.rows| == 0 {
      assert g.entries + answer.rows == g.entries;
      return g.(nextToken := token), false, kept;
    }
    var entries, maxTs, found := AppendRows(g.entries, answer.rows, lastUpdated, g.maxTs, entityId, g.found);
    var pageTokens := g.pageTokens;
    if answer.nextPk.Some? && answer.nextRk.Some? {
      TokenRoundTrip(answer.nextPk.value, answer.nextRk.value, (_: Bytes) => None);
    }
    if notLast && token != "" && |answer.rows| == pageSize {
      pageTokens := pageTokens + [token];
      assert pageTokens == Tokens(pages');
    }
    g' := Gathered(entries, pageTokens, token, maxTs, found);
    more := !(|answer.rows| < pageSize || answer.nextPk.None? || answer.nextRk.None?);
    kept := |pageTokens|;
  }

  // One more page of the refresh.
  lemma VisitedStep(q: Pager, pageSize: nat, n: nat, c: Option<Keys>, all: seq<Page>, pages: seq<Page>)
    requires n > 0 && all == pages + Visited(q, pageSize, n, c)
    ensures |pages| < |all| && all[|pages|] == q.Read(c)
    ensures LastPage(q.Read(c), pageSize) ==> all == pages + [q.Read(c)]
    ensures !LastPage(q.Read(c), pageSize) ==>
      all == pages + [q.Read(c)]
        + Visited(q, pageSize, n - 1, Some(Keys(q.Read(c).nextPk.value, q.Read(c).nextRk.value)))
  {
  }

  // Where the refresh loop stands among the pages it visits: next says where to read on, if at all.
  ghost predicate ReadSoFar(q: Pager, pageSize: nat, limit: nat, pages: seq<Page>, more: bool, next: Option<Keys>) {
    var all := Visited(q, pageSize, limit, None);
    && |pages| <= limit
    && all == if more then pages + Visited(q, pageSize, limit - |pages|, next) else pages
  }

  lemma ReadNext(q: Pager, pageSize: nat, limit: nat, pages: seq<Page>, next: Option<Keys>)
    requires ReadSoFar(q, pageSize, limit, pages, true, next) && |pages| < limit
    ensures |pages| < |Visited(q, pageSize, limit, None)|
    ensures var p := q.Read(next);
      if LastPage(p, pageSize) then ReadSoFar(q, pageSize, limit, pages + [p], false, next)
      else ReadSoFar(q, pageSize, limit, pages + [p], true, Some(Keys(p.nextPk.value, p.nextRk.value)))
  {
    VisitedStep(q, pageSize, limit - |pages|, next, Visited(q, pageSize, limit, None), pages);
  }

  lemma ReadAll(q: Pager, pageSize: nat, limit: nat, pages: seq<Page>, more: bool, next: Option<Keys>)
    requires ReadSoFar(q, pageSize, limit, pages, more, next) && (more ==> |pages| == limit)
    ensures pages == Visited(q, pageSize, limit, None)
  {
  }

  // The refresh loop has read pages and goes on at next if more.
  ghost predicate LoopInvariant(q: Pager, pageSize: nat, limit: nat, pages: seq<Page>, g: Gathered, more: bool,
                                next: Option<Keys>, entityId: string, lastUpdated: int)
  {
    && ReadSoFar(q, pageSize, limit, pages, more, next) && (more || pages != [])
    && var kept := if pages == [] || (more && |pages| < limit) then |pages| else |pages| - 1;
       Gathers(g, pages, kept, entityId, lastUpdated)
  }

  lemma LoopStarts(q: Pager, pageSize: nat, limit: nat, entityId: string, lastUpdated: int)
    ensures LoopInvariant(q, pageSize, limit, [], Gathered([], [], "", lastUpdated, entityId == ""), true, None,
                          entityId, lastUpdated)
  {
  }

  lemma MoreToRead(q: Pager, pageSize: nat, limit: nat, pages: seq<Page>, g: Gathered, next: Option<Keys>,
                   entityId: string, lastUpdated: int)
    requires LoopInvariant(q, pageSize, limit, pages, g, true, next, entityId, lastUpdated) && |pages| < limit
    ensures |pages| < |Visited(q, pageSize, limit, None)|
  {
    ReadNext(q, pageSize, limit, pages, next);
  }

  lemma LoopEnds(q: Pager, pageSize: nat, limit: nat, pages: seq<Page>, g: Gathered, more: bool, next: Option<Keys>,
                 entityId: string, lastUpdated: int)
    requires LoopInvariant(q, pageSize, limit, pages, g, more, next, entityId, lastUpdated)
    requires limit > 0 && (more ==> |pages| == limit)
    ensures pages == Visited(q, pageSize, limit, None) && pages != []
    ensures Gathers(g, pages, |pages| - 1, entityId, lastUpdated)
  {
    ReadAll(q, pageSize, limit, pages, more, next);
  }

  // One turn of the loop
  method ReadPage(q: Pager, pageSize: nat, limit: nat, ghost pages: seq<Page>, g: Gathered, page: nat,
                  next: Option<Keys>, entityId: string, lastUpdated: int)
    returns (ghost pages': seq<Page>, g': Gathered, more: bool, next': Option<Keys>)
    requires pageSize > 0 && WellBehaved(q, pageSize) && page == |pages| < limit
    requires LoopInvariant(q, pageSize, limit, pages, g, true, next, entityId, lastUpdated)
    ensures |pages'| == page + 1
    ensures LoopInvariant(q, pageSize, limit, pages', g', more, next', entityId, lastUpdated)
  {
    ReadNext(q, pageSize, limit, pages, next);
    var answer := q.Read(next);
    ghost var kept;
    g', more, kept := AddPage(g, pages, answer, pageSize, page < limit - 1, entityId, lastUpdated);
    pages', next' := pages + [answer], next;
    if more {
      next' := Some(Keys(answer.nextPk.value, answer.nextRk.value));
    }
  }

  // The loop of RefreshTasks; failAt is the page read that fails, if any
  method ReadPages(q: Pager, failAt: Option<nat>, pageSize: nat, limit: nat, entityId: string, lastUpdated: int)
    returns (failed: bool, g: Gathered)
    requires pageSize > 0 && limit > 0 && WellBehaved(q, pageSize)
    ensures failed <==> failAt.Some? && failAt.value < |Visited(q, pageSize, limit, None)|
    ensures var pages := Visited(q, pageSize, limit, None);
      !failed ==> pages != [] && Gathers(g, pages, |pages| - 1, entityId, lastUpdated)
  {
    ghost var pages: seq<Page> := [];
    LoopStarts(q, pageSize, limit, entityId, lastUpdated);
    g := Gathered([], [], "", lastUpdated, entityId == "");
    var next: Option<Keys>, page, more := None, 0, true;
    while more && page < limit
      invariant page == |pages| && (failAt.Some? ==> page <= failAt.value)
      invariant LoopInvariant(q, pageSize, limit, pages, g, more, next, entityId, lastUpdated)
      decreases limit - page
    {
      if failAt.Some? && failAt.value == page {
        MoreToRead(q, pageSize, limit, pages, g, next, entityId, lastUpdated);
        return true, g;
      }
      pages, g, more, next := ReadPage(q, pageSize, limit, pages, g, page, next, entityId, lastUpdated);
      page := page + 1;
    }
    LoopEnds(q, pageSize, limit, pages, g, more, next, entityId, lastUpdated);
    failed := false;
  }

  method CountPages(rows: nat, pageSize: nat, limit: nat) returns (cachedPages: nat)
    requires pageSize > 0
    ensures cachedPages == Min(Pages(rows, pageSize), limit)
  {
    PagesIsQuotient(rows, pageSize);
    cachedPages := 0;
    if rows > 0 {
      cachedPages := (rows + pageSize - 1) / pageSize;
      if cachedPages > limit {
        cachedPages := limit;
      }
    }
  }

  // The payload after the loop
  method Pack(g: Gathered, ghost pages: seq<Page>, pageSize: nat, limit: nat, entityId: string, lastUpdated: int)
    returns (p: Payload)
    requires pageSize > 0 && pages != [] && Gathers(g, pages, |pages| - 1, entityId, lastUpdated)
    ensures p == Assemble(pages, pageSize, limit, lastUpdated)
  {
    var cachedPages := CountPages(|g.entries|, pageSize, limit);
    p := Payload(pageSize, cachedPages, g.pageTokens, g.nextToken, TasksOf(g.entries), g.maxTs);
  }

  /** RefreshTasks: what it stores is the assembly of the pages it visits; it purges the entry when
      the entity it was called for is not on them, and leaves it alone when a page read fails or when
      the Redis call fails without effect. */
  method RefreshTasks(q: Pager, failAt: Option<nat>, redisFails: bool, pageSize: nat, limit: nat, entityId: string,
                      lastUpdated: int)
    returns (r: Refresh)
    requires pageSize > 0 && limit > 0 && WellBehaved(q, pageSize)
    ensures r.Untouched? <==>
      redisFails || (failAt.Some? && failAt.value < |Visited(q, pageSize, limit, None)|)
    ensures var pages := Visited(q, pageSize, limit, None);
      match r
      case Untouched => true
      case Purged => entityId != "" && forall row | row in AllRows(pages) :: row.task.id != entityId
      case Stored(p) =>
        && pages != [] && p == Assemble(pages, pageSize, limit, lastUpdated)
        && (entityId == "" || exists row | row in AllRows(pages) :: row.task.id == entityId)
        // no row is newer than the payload says
        && lastUpdated <= p.lastUpdatedAt && forall row | row in AllRows(pages) :: row.ts <= p.lastUpdatedAt
  {
    var failed, g := ReadPages(q, failAt, pageSize, limit, entityId, lastUpdated);
    if failed {
      return Untouched;
    }
    if !g.found {
      return if redisFails then Untouched else Purged;
    }
    var p := Pack(g, Visited(q, pageSize, limit, None), pageSize, limit, entityId, lastUpdated);
    NewestIsNewest(g.entries, lastUpdated);
    r := if redisFails then Untouched else Stored(p);
  }
}
