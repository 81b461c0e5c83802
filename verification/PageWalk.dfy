/**
 Walking a user's tasks page by page, as the front end does: the table is scanned in key order, a
 page may be short or empty, and each request may be answered from the cache or from the table.
 */
module PageWalk {
  import opened Options
  import opened Sorting
  import opened Base64Url
  import opened ContinuationToken
  import opened TaskCache
  import opened TaskQueries

  // A row of the tasks table, of any user
  datatype Entity = Entity(keys: Keys, row: TaskRow)

  predicate KeyLess(a: Keys, b: Keys) {
    CompareOrdinal(a.pk, b.pk) < 0 || (a.pk == b.pk && CompareOrdinal(a.rk, b.rk) < 0)
  }

  // Rows are stored in key order; user ids and task ids are never empty.
  ghost predicate IsTable(table: seq<Entity>) {
    && (forall i | 0 <= i < |table| :: 0 < |table[i].keys.pk| < WORD && 0 < |table[i].keys.rk| < WORD)
    && (forall i, j | 0 <= i < j < |table| :: KeyLess(table[i].keys, table[j].keys))
  }

  // The user's rows, in key order
  function UserRows(table: seq<Entity>, user: Bytes): seq<TaskRow> {
    if table == [] then []
    else
      var e := table[|table| - 1];
      UserRows(table[..|table| - 1], user) + if e.keys.pk == user then [e.row] else []
  }

  // The positions of the user's rows, and no others, in rising order
  ghost predicate IsSelection(table: seq<Entity>, user: Bytes, at: seq<nat>) {
    && (forall j, k | 0 <= j < k < |at| :: at[j] < at[k])
    && (forall i: nat :: i in at <==> i < |table| && table[i].keys.pk == user)
  }

  // tasks are those of the user's rows: each row once, nobody else's, in key order.
  ghost predicate ListsUser(table: seq<Entity>, user: Bytes, tasks: seq<Task>) {
    exists at :: IsSelection(table, user, at) && Picks(table, at, tasks)
  }

  ghost predicate Picks(table: seq<Entity>, at: seq<nat>, tasks: seq<Task>) {
    |at| == |tasks| && forall k | 0 <= k < |at| :: at[k] < |table| && tasks[k] == table[at[k]].row.task
  }

  lemma SelectionGrows(table: seq<Entity>, user: Bytes, at: seq<nat>)
    requires table != [] && IsSelection(table[..|table| - 1], user, at)
    ensures var n := |table| - 1;
      IsSelection(table, user, if table[n].keys.pk == user then at + [n] else at)
  {
    var n := |table| - 1;
    forall k | 0 <= k < |at| ensures at[k] < n {
      assert at[k] in at;
    }
    assert forall i: nat | i < n :: table[..n][i] == table[i];
  }

  ghost predicate PicksRows(table: seq<Entity>, at: seq<nat>, rows: seq<TaskRow>) {
    |at| == |rows| && forall k | 0 <= k < |at| :: at[k] < |table| && rows[k] == table[at[k]].row
  }

  // One more row, picked or not
  lemma PicksGrow(table: seq<Entity>, at: seq<nat>, rows: seq<TaskRow>)
    requires table != [] && PicksRows(table[..|table| - 1], at, rows)
    ensures PicksRows(table, at, rows)
    ensures PicksRows(table, at + [|table| - 1], rows + [table[|table| - 1].row])
  {
    forall k | 0 <= k < |at| ensures at[k] < |table| && rows[k] == table[at[k]].row {
      assert rows[k] == table[..|table| - 1][at[k]].row;
    }
  }

  lemma {:induction false} UserRowsSelect(table: seq<Entity>, user: Bytes) returns (at: seq<nat>)
    ensures IsSelection(table, user, at) && PicksRows(table, at, UserRows(table, user))
    decreases |table|
  {
    if table == [] {
      at := [];
    } else {
      var n := |table| - 1;
      at := UserRowsSelect(table[..n], user);
      SelectionGrows(table, user, at);
      PicksGrow(table, at, UserRows(table[..n], user));
      if table[n].keys.pk == user {
        at := at + [n];
      } else {
        assert UserRows(table, user) == UserRows(table[..n], user);
      }
    }
  }

  /** What the filter lets through is the user's rows and no others. */
  lemma UserRowsListUser(table: seq<Entity>, user: Bytes)
    ensures ListsUser(table, user, TasksOf(UserRows(table, user)))
  {
    var at := UserRowsSelect(table, user);
    assert Picks(table, at, TasksOf(UserRows(table, user)));
  }

  // The server's choices: a query that starts at position p scans up to cut[p], and may leave out the
  // continuation when it knows that nothing of the user's is left.
  datatype Scan = Scan(cut: seq<nat>, finished: seq<bool>)

  ghost predicate IsScan(table: seq<Entity>, user: Bytes, pageSize: nat, scan: Scan) {
    |scan.cut| == |table| == |scan.finished| && forall p: nat | p < |table| :: ScansAt(table, user, pageSize, scan, p)
  }

  ghost predicate ScansAt(table: seq<Entity>, user: Bytes, pageSize: nat, scan: Scan, p: nat)
    requires |scan.cut| == |table| == |scan.finished| && p < |table|
  {
    && p < scan.cut[p] <= |table|
    && |UserRows(table[p..scan.cut[p]], user)| <= pageSize
    && (if scan.finished[p] then UserRows(table[scan.cut[p]..], user) == [] else scan.cut[p] < |table|)
  }

  function PageAt(table: seq<Entity>, user: Bytes, scan: Scan, p: nat): Page {
    if p >= |table| || p >= |scan.cut| || p >= |scan.finished| || !(p < scan.cut[p] <= |table|)
    then Page([], None, None)
    else
      var rows := UserRows(table[p..scan.cut[p]], user);
      if scan.finished[p] || scan.cut[p] == |table| then Page(rows, None, None)
      else Page(rows, Some(table[scan.cut[p]].keys.pk), Some(table[scan.cut[p]].keys.rk))
  }

  lemma KeysDistinct(table: seq<Entity>, i: nat, j: nat)
    requires IsTable(table) && i < j < |table|
    ensures table[i].keys != table[j].keys
  {
    OrdinalLaws(table[i].keys.pk, table[i].keys.pk, []);
    OrdinalLaws(table[i].keys.rk, table[i].keys.rk, []);
    assert KeyLess(table[i].keys, table[j].keys);
  }

  // The position of a key, searched from the end
  function Position(table: seq<Entity>, k: Keys): nat {
    if table == [] then 0
    else if table[|table| - 1].keys == k then |table| - 1
    else Position(table[..|table| - 1], k)
  }

  lemma {:induction false} PositionOfKey(table: seq<Entity>, p: nat)
    requires IsTable(table) && p < |table|
    ensures Position(table, table[p].keys) == p
  {
    if p < |table| - 1 {
      KeysDistinct(table, p, |table| - 1);
      PositionOfKey(table[..|table| - 1], p);
    }
  }

  function KeysOf(table: seq<Entity>): set<Keys> {
    set i | 0 <= i < |table| :: table[i].keys
  }

  // The answers of this table, as long as it is unchanged
  function PagerOf(table: seq<Entity>, user: Bytes, scan: Scan): Pager {
    Pager(PageAt(table, user, scan, 0), map k | k in KeysOf(table) :: PageAt(table, user, scan, Position(table, k)))
  }

  lemma PageIsGood(table: seq<Entity>, user: Bytes, pageSize: nat, scan: Scan, p: nat)
    requires IsTable(table) && IsScan(table, user, pageSize, scan)
    ensures GoodPage(PageAt(table, user, scan, p), pageSize)
  {
    if p < |table| {
      assert ScansAt(table, user, pageSize, scan, p);
    }
  }

  lemma PagerIsWellBehaved(table: seq<Entity>, user: Bytes, pageSize: nat, scan: Scan)
    requires IsTable(table) && IsScan(table, user, pageSize, scan)
    ensures WellBehaved(PagerOf(table, user, scan), pageSize)
  {
    var q := PagerOf(table, user, scan);
    PageIsGood(table, user, pageSize, scan, 0);
    forall k | k in q.after ensures GoodPage(q.after[k], pageSize) {
      PageIsGood(table, user, pageSize, scan, Position(table, k));
    }
  }

  // The token that leads to position p
  function TokenTo(table: seq<Entity>, p: nat): string {
    if p == 0 || p >= |table| then "" else Token(Some(table[p].keys.pk), Some(table[p].keys.rk))
  }

  lemma TokenReads(table: seq<Entity>, user: Bytes, scan: Scan, p: nat, json: Bytes -> Option<Keys>)
    requires IsTable(table) && (p == 0 || p < |table|)
    ensures var page := PageAt(table, user, scan, p);
      FromTable(PagerOf(table, user, scan), TokenTo(table, p), json) ==
        Page200(Served(TasksOf(page.rows), NextToken(page)))
  {
    if p > 0 {
      var k := table[p].keys;
      TokenRoundTrip(k.pk, k.rk, json);
      PositionOfKey(table, p);
      assert k in KeysOf(table);
      assert Keys(k.pk, k.rk) == k;
    }
  }

  lemma TokensDiffer(table: seq<Entity>, i: nat, j: nat)
    requires IsTable(table) && 0 < i < j < |table|
    ensures TokenTo(table, i) != TokenTo(table, j)
  {
    KeysDistinct(table, i, j);
    if TokenTo(table, i) == TokenTo(table, j) {
      TokenInjective(table[i].keys.pk, table[i].keys.rk, table[j].keys.pk, table[j].keys.rk);
    }
  }

  lemma {:induction false} UserRowsSplit(table: seq<Entity>, user: Bytes, p: nat)
    requires p <= |table|
    ensures UserRows(table, user) == UserRows(table[..p], user) + UserRows(table[p..], user)
  {
    if p == |table| {
      assert table[..p] == table && table[p..] == [];
    } else {
      var n := |table| - 1;
      UserRowsSplit(table[..n], user, p);
      assert table[..n][..p] == table[..p] && table[..n][p..] == table[p..][..n - p];
      assert table[p..][n - p] == table[n];
    }
  }

  lemma {:induction false} TasksOfConcat(a: seq<TaskRow>, b: seq<TaskRow>)
    ensures TasksOf(a + b) == TasksOf(a) + TasksOf(b)
  {
  }

  // What the user sees after the rows before position p
  function TasksBefore(table: seq<Entity>, user: Bytes, p: nat): seq<Task>
    requires p <= |table|
  {
    TasksOf(UserRows(table[..p], user))
  }

  // One page adds exactly the rows between its start and its cut.
  lemma PageAdvances(table: seq<Entity>, user: Bytes, pageSize: nat, scan: Scan, p: nat)
    requires IsTable(table) && IsScan(table, user, pageSize, scan) && p < |table|
    ensures var page, cut := PageAt(table, user, scan, p), scan.cut[p];
      && p < cut <= |table|
      && TasksBefore(table, user, cut) == TasksBefore(table, user, p) + TasksOf(page.rows)
      && (NextToken(page) == "" ==> TasksBefore(table, user, cut) == TasksOf(UserRows(table, user)))
      && (NextToken(page) != "" ==> cut < |table| && NextToken(page) == TokenTo(table, cut))
  {
    assert ScansAt(table, user, pageSize, scan, p);
    var cut := scan.cut[p];
    UserRowsSplit(table[..cut], user, p);
    assert table[..cut][..p] == table[..p] && table[..cut][p..] == table[p..cut];
    TasksOfConcat(UserRows(table[..p], user), UserRows(table[p..cut], user));
    UserRowsSplit(table, user, cut);
    if cut == |table| {
      assert table[..cut] == table;
    } else if scan.finished[p] {
      assert UserRows(table[..cut], user) + [] == UserRows(table[..cut], user);
    } else {
      TokenRoundTrip(table[cut].keys.pk, table[cut].keys.rk, (_: Bytes) => None);
    }
  }

  /** A page holds the user's rows between its start and its cut, each once, and nobody else's. */
  lemma PageListsUser(table: seq<Entity>, user: Bytes, pageSize: nat, scan: Scan, p: nat)
    requires IsTable(table) && IsScan(table, user, pageSize, scan) && p < |table|
    ensures p < scan.cut[p] <= |table|
    ensures ListsUser(table[p..scan.cut[p]], user, TasksOf(PageAt(table, user, scan, p).rows))
  {
    assert ScansAt(table, user, pageSize, scan, p);
    UserRowsListUser(table[p..scan.cut[p]], user);
  }

  /******* The loop of fetchRemote *******/

  predicate IsSpace(c: char) {
    c in {' ', '\t', '\n', '\r', '\U{000B}', '\U{000C}', '\U{00A0}', '\U{FEFF}'}
  }

  function TrimStart(s: string): string {
    if s != "" && IsSpace(s[0]) then TrimStart(s[1..]) else s
  }

  function TrimEnd(s: string): string {
    if s != "" && IsSpace(s[|s| - 1]) then TrimEnd(s[..|s| - 1]) else s
  }

  function Trim(s: string): string {
    TrimEnd(TrimStart(s))
  }

  lemma TokenNeedsNoTrim(pk: Option<Bytes>, rk: Option<Bytes>)
    ensures Trim(Token(pk, rk)) == Token(pk, rk)
  {
    var t := Token(pk, rk);
    if t != "" {
      EncodeInAlphabet(TokenBytes(pk.value, rk.value));
      assert Value(t[0]).Some? && Value(t[|t| - 1]).Some?;
    }
  }

  // What request i meets: how the server cuts pages for it, the cache entry it finds, and how the
  // server cut pages when that entry was stored.  Each may differ from request to request.
  datatype Visit = Visit(scan: Scan, cached: Option<Payload>, cachedScan: Scan)

  ghost predicate GoodVisit(table: seq<Entity>, user: Bytes, pageSize: nat, v: Visit) {
    && IsScan(table, user, pageSize, v.scan)
    && (v.cached.Some? ==>
          && StoredFrom(v.cached.value, PagerOf(table, user, v.cachedScan))
          && IsScan(table, user, v.cached.value.pageSize, v.cachedScan))
  }

  ghost predicate SeenUpTo(seen: set<string>, table: seq<Entity>, p: nat) {
    forall t | t in seen :: exists i: nat :: 0 < i <= p && i < |table| && t == TokenTo(table, i)
  }

  lemma NextIsNew(seen: set<string>, table: seq<Entity>, p: nat, cut: nat)
    requires IsTable(table) && SeenUpTo(seen, table, p) && p < cut < |table|
    ensures TokenTo(table, cut) !in seen
    ensures SeenUpTo(seen + {TokenTo(table, cut)}, table, cut)
  {
    forall t | t in seen ensures t != TokenTo(table, cut) {
      var i: nat :| 0 < i <= p && i < |table| && t == TokenTo(table, i);
      TokensDiffer(table, i, cut);
    }
  }

  // One request of the walk, at position p, answered from the table or the cache
  method FetchPage(table: seq<Entity>, user: Bytes, pageSize: nat, v: Visit, ghost p: nat, pageToken: string,
                   json: Bytes -> Option<Keys>)
    returns (reply: Reply, ghost scan: Scan)
    requires 1 <= pageSize <= MAX_PAGE_SIZE && IsTable(table) && GoodVisit(table, user, pageSize, v)
    requires (p == 0 || p < |table|) && pageToken == TokenTo(table, p)
    ensures IsScan(table, user, pageSize, scan)
    ensures var page := PageAt(table, user, scan, p);
      reply == Page200(Served(TasksOf(page.rows), NextToken(page)))
  {
    var q := PagerOf(table, user, v.scan);
    ghost var source := PagerOf(table, user, v.cachedScan);
    if v.cached.Some? {
      PagerIsWellBehaved(table, user, v.cached.value.pageSize, v.cachedScan);
    }
    reply := FetchTasks(q, v.cached, source, pageSize, pageToken, 0, json);
    scan := if reply == FromTable(q, pageToken, json) then v.scan else v.cachedScan;
    TokenReads(table, user, scan, p, json);
  }

  /** The walk returns exactly the user's tasks in key order, whichever requests the cache answers and
      wherever the server cuts each page; it ends after at most one request more than the table has
      rows, and the guard against repeated tokens never fires. */
  method FetchRemote(table: seq<Entity>, user: Bytes, pageSize: nat, visits: seq<Visit>, json: Bytes -> Option<Keys>)
    returns (aggregated: seq<Task>, repeated: bool)
    requires 1 <= pageSize <= MAX_PAGE_SIZE && IsTable(table) && |visits| == |table| + 1
    requires forall i | 0 <= i < |visits| :: GoodVisit(table, user, pageSize, visits[i])
    ensures aggregated == TasksOf(UserRows(table, user)) && !repeated
    ensures ListsUser(table, user, aggregated)
  {
    UserRowsListUser(table, user);
    aggregated, repeated := [], false;
    var pageToken, seen: set<string>, requests := "", {}, 0;
    ghost var p := 0;
    while true
      invariant requests <= p <= |table| && (p == 0 || p < |table|) && pageToken == TokenTo(table, p) && !repeated
      invariant aggregated == TasksBefore(table, user, p) && SeenUpTo(seen, table, p)
      decreases |table| - p
    {
      var reply;
      ghost var scan;
      reply, scan := FetchPage(table, user, pageSize, visits[requests], p, pageToken, json);
      requests := requests + 1;
      if reply.InvalidToken? {
        return;
      }
      aggregated := aggregated + reply.served.tasks;
      ghost var page := PageAt(table, user, scan, p);
      TokenNeedsNoTrim(page.nextPk, page.nextRk);
      var nextToken := Trim(reply.served.next);
      if p < |table| {
        PageAdvances(table, user, pageSize, scan, p);
      } else {
        assert table[..p] == table;
      }
      if nextToken == "" {
        return;
      }
      ghost var cut := scan.cut[p];
      NextIsNew(seen, table, p, cut);
      if nextToken in seen {
        repeated := true;
        return;
      }
      seen, pageToken, p := seen + {nextToken}, nextToken, cut;
    }
  }
}
