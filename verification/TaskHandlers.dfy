/**
 The task command handlers over the event log of one task: each handler sorts what the table
 returns, rebuilds the task and decides whether to append an event.
 */
module TaskHandlers {
  import opened Options
  import opened TaskEvents
  import opened Sorting

  /******* Get: the log in timestamp order *******/

  function InsertByTs(sorted: seq<Event>, ev: Event): (r: seq<Event>)
    ensures multiset(r) == multiset(sorted) + multiset{ev}
  {
    if sorted == [] || sorted[|sorted| - 1].ts <= ev.ts then sorted + [ev]
    else
      var last := |sorted| - 1;
      assert sorted == sorted[..last] + [sorted[last]];
      InsertByTs(sorted[..last], ev) + [sorted[last]]
  }

  // OrderBy(e => e.Timestamp), which is stable
  function SortByTs(events: seq<Event>): (r: seq<Event>)
    ensures multiset(r) == multiset(events)
  {
    if events == [] then []
    else
      assert events == events[..|events| - 1] + [events[|events| - 1]];
      InsertByTs(SortByTs(events[..|events| - 1]), events[|events| - 1])
  }

  predicate Ascending(s: seq<Event>) {
    forall i, j | 0 <= i < j < |s| :: s[i].ts <= s[j].ts
  }

  lemma {:induction false} InsertAscends(sorted: seq<Event>, ev: Event)
    requires Ascending(sorted)
    ensures Ascending(InsertByTs(sorted, ev))
  {
    if sorted != [] && sorted[|sorted| - 1].ts > ev.ts {
      var last := |sorted| - 1;
      var r := InsertByTs(sorted[..last], ev);
      InsertAscends(sorted[..last], ev);
      forall i | 0 <= i < |r| ensures r[i].ts <= sorted[last].ts {
        assert r[i] in multiset(r);
        if r[i] != ev {
          assert r[i] in sorted[..last];
        }
      }
    }
  }

  lemma {:induction false} SortAscends(events: seq<Event>)
    ensures Ascending(SortByTs(events))
  {
    if events == [] {
    } else {
      SortAscends(events[..|events| - 1]);
      InsertAscends(SortByTs(events[..|events| - 1]), events[|events| - 1]);
    }
  }

  function Only(ev: Event, ts: int): seq<Event> {
    if ev.ts == ts then [ev] else []
  }

  // The events of one timestamp, in order
  function At(s: seq<Event>, ts: int): seq<Event> {
    if s == [] then [] else At(s[..|s| - 1], ts) + Only(s[|s| - 1], ts)
  }

  lemma EmptyMoves(a: seq<Event>, e: seq<Event>, l: seq<Event>)
    requires e == [] || l == []
    ensures a + e + l == a + l + e
  {
  }

  lemma AtOneMore(s: seq<Event>, ev: Event, ts: int)
    ensures At(s + [ev], ts) == At(s, ts) + Only(ev, ts)
  {
    assert (s + [ev])[..|s|] == s;
  }

  lemma {:induction false} InsertIsStable(sorted: seq<Event>, ev: Event, ts: int)
    ensures At(InsertByTs(sorted, ev), ts) == At(sorted, ts) + Only(ev, ts)
    decreases |sorted|
  {
    if sorted == [] || sorted[|sorted| - 1].ts <= ev.ts {
      AtOneMore(sorted, ev, ts);
    } else {
      var last := |sorted| - 1;
      var e, l := Only(ev, ts), Only(sorted[last], ts);
      InsertIsStable(sorted[..last], ev, ts);
      AtOneMore(InsertByTs(sorted[..last], ev), sorted[last], ts);
      EmptyMoves(At(sorted[..last], ts), e, l);
    }
  }

  /** The sort is stable: events of one timestamp keep the order the table returned them in. */
  lemma {:induction false} SortIsStable(events: seq<Event>, ts: int)
    ensures Ascending(SortByTs(events)) && At(SortByTs(events), ts) == At(events, ts)
  {
    SortAscends(events);
    if events == [] {
    } else {
      var n := |events| - 1;
      SortIsStable(events[..n], ts);
      InsertIsStable(SortByTs(events[..n]), events[n], ts);
    }
  }

  // No two events share a timestamp.
  ghost predicate DistinctTs(m: multiset<Event>) {
    (forall x | x in m :: m[x] == 1) && (forall x, y | x in m && y in m && x.ts == y.ts :: x == y)
  }

  predicate Earlier(x: Event, y: Event) { x.ts < y.ts }

  lemma SortStrictly(events: seq<Event>)
    requires DistinctTs(multiset(events))
    ensures StrictlySorted(Earlier, SortByTs(events))
  {
    SortAscends(events);
    var r := SortByTs(events);
    forall i, j | 0 <= i < j < |r| ensures Earlier(r[i], r[j]) {
      assert r[i] in multiset(r) && r[j] in multiset(r);
      OnceOnly(r, i, j);
    }
  }

  /** With distinct timestamps the sorted log does not depend on how the table enumerates its rows. */
  lemma SortIgnoresEnumeration(a: seq<Event>, b: seq<Event>)
    requires multiset(a) == multiset(b) && DistinctTs(multiset(a))
    ensures SortByTs(a) == SortByTs(b)
  {
    SortStrictly(a);
    SortStrictly(b);
    SortedIsUnique(Earlier, SortByTs(a), SortByTs(b));
  }

  lemma NewestIsDistinct(m: multiset<Event>, ev: Event)
    requires DistinctTs(m) && forall e | e in m :: e.ts < ev.ts
    ensures DistinctTs(m + multiset{ev})
  {
    assert ev !in m;
    forall x | x in m + multiset{ev} ensures x == ev || x in m {
    }
  }

  lemma NewestSortsLast(log: seq<Event>, ev: Event)
    requires DistinctTs(multiset(log)) && forall e | e in multiset(log) :: e.ts < ev.ts
    ensures StrictlySorted(Earlier, SortByTs(log) + [ev])
  {
    SortStrictly(log);
    var r := SortByTs(log);
    forall i | 0 <= i < |r| ensures r[i].ts < ev.ts {
      assert r[i] in multiset(r);
    }
  }

  // One Apply step of a task that may have become unreadable
  function NextState(s: Option<State>, ev: Event): Option<State> {
    if s.None? || !Readable(ev) then None else Some(ApplyState(s.value, ev))
  }

  /** Sorting and folding a log with a newest event added is one Apply step. */
  lemma NewestIsOneStep(log: seq<Event>, ev: Event, rows: seq<Event>)
    requires DistinctTs(multiset(log)) && (forall e | e in multiset(log) :: e.ts < ev.ts)
    requires multiset(rows) == multiset(log) + multiset{ev}
    ensures DistinctTs(multiset(rows))
    ensures SortByTs(rows) == SortByTs(log) + [ev]
    ensures From(SortByTs(rows)) == NextState(From(SortByTs(log)), ev)
  {
    NewestIsDistinct(multiset(log), ev);
    NewestSortsLast(log, ev);
    SortStrictly(rows);
    var s := SortByTs(log) + [ev];
    SortedIsUnique(Earlier, SortByTs(rows), s);
    assert s[..|s| - 1] == SortByTs(log);
  }

  /******* The decisions *******/

  // UpdateTaskCommand's data without its "id" property, which the handler removes.
  datatype Command =
    | CreateTask(data: Option<CreatedData>)
    | UpdateTask(change: Option<UpdatedData>)
    | CompleteTask
    | ReopenTask

  function Lower(c: char): char {
    if 'A' <= c <= 'Z' then c + 32 as char else c
  }

  // string.Equals(category, "done", OrdinalIgnoreCase)
  predicate IsDoneCategory(category: string) {
    |category| == 4 && Lower(category[0]) == 'd' && Lower(category[1]) == 'o' && Lower(category[2]) == 'n'
      && Lower(category[3]) == 'e'
  }

  function NonEmpty(d: UpdatedData): Option<UpdatedData> {
    if d == UpdatedData(None, None, None, None, None, false) then None else Some(d)
  }

  // UpdateTask: naming another category than "done" reopens a done task
  function UpdatePayload(done: bool, d: UpdatedData): Option<UpdatedData> {
    NonEmpty(if done && d.category.Some? && !IsDoneCategory(d.category.value) then d.(done := Some(false)) else d)
  }

  function Decide(s: State, cmd: Command): Option<Payload> {
    match cmd
    case CreateTask(data) => Some(Created(data))
    case UpdateTask(change) =>
      if s.title.None? then None
      else Some(Updated(if change.None? then None else UpdatePayload(s.done, change.value)))
    case CompleteTask => if s.title.None? || s.done then None else Some(Completed)
    case ReopenTask => if s.title.None? || !s.done then None else Some(Reopened)
  }

  datatype Request = Request(id: nat, ts: int, cmd: Command)

  datatype Outcome = Emits(ev: Event) | Skips | Throws

  // The task as a handler rebuilds it from the rows
  function TaskOf(rows: seq<Event>): Option<State> {
    From(SortByTs(rows))
  }

  // One handler run on the log, whatever order rows the table returns it in.
  function Handle(rows: seq<Event>, r: Request): Outcome {
    HandleTask(TaskOf(rows), r)
  }

  // Creation does not look at the task; the others throw when it cannot be rebuilt.
  function HandleTask(s: Option<State>, r: Request): Outcome {
    if r.cmd.CreateTask? then Emits(Event(r.id, r.ts, Created(r.cmd.data)))
    else
      if s.None? then Throws
      else
        var p := Decide(s.value, r.cmd);
        if p.None? then Skips else Emits(Event(r.id, r.ts, p.value))
  }

  function After(rows: seq<Event>, o: Outcome): seq<Event> {
    if o.Emits? then rows + [o.ev] else rows
  }

  predicate HasTitle(rows: seq<Event>) {
    TaskOf(rows).Some? && TaskOf(rows).value.title.Some?
  }

  /** The event table of one task, and what the handlers do to it once their key is reserved. */
  class TaskLog {
    var rows: seq<Event>

    constructor ()
      ensures rows == []
    {
      rows := [];
    }

    method Add(ev: Event)
      modifies this
      ensures rows == old(rows) + [ev]
    {
      rows := rows + [ev];
    }

    /** A creation is always stored.  The others fail when the task cannot be rebuilt and store nothing
        for a task without a title; else a completion is stored for an open task, a reopening for a done one
        and an update always, each once and with the id and timestamp of the request. */
    method Serve(r: Request) returns (ok: bool)
      modifies this
      ensures rows == After(old(rows), Handle(old(rows), r)) && ok == !Handle(old(rows), r).Throws?
      ensures ok <==> r.cmd.CreateTask? || TaskOf(old(rows)).Some?
      ensures r.cmd.CreateTask? ==> rows == old(rows) + [Event(r.id, r.ts, Created(r.cmd.data))]
      ensures r.cmd.CompleteTask? && HasTitle(old(rows)) && !TaskOf(old(rows)).value.done ==>
        rows == old(rows) + [Event(r.id, r.ts, Completed)]
      ensures r.cmd.ReopenTask? && HasTitle(old(rows)) && TaskOf(old(rows)).value.done ==>
        rows == old(rows) + [Event(r.id, r.ts, Reopened)]
      ensures r.cmd.UpdateTask? && HasTitle(old(rows)) ==>
        exists data :: rows == old(rows) + [Event(r.id, r.ts, Updated(data))]
      ensures !r.cmd.CreateTask? && !HasTitle(old(rows)) ==> rows == old(rows)
      ensures r.cmd.CompleteTask? && HasTitle(old(rows)) && TaskOf(old(rows)).value.done ==> rows == old(rows)
      ensures r.cmd.ReopenTask? && HasTitle(old(rows)) && !TaskOf(old(rows)).value.done ==> rows == old(rows)
    {
      match r.cmd {
        case CreateTask(data) =>
          Add(Event(r.id, r.ts, Created(data)));
          ok := true;
        case UpdateTask(change) => ok := ServeUpdate(r, change);
        case CompleteTask => ok := ServeStatus(r, true);
        case ReopenTask => ok := ServeStatus(r, false);
      }
    }

    // CompleteTask and ReopenTask
    method ServeStatus(r: Request, done: bool) returns (ok: bool)
      requires r.cmd == if done then CompleteTask else ReopenTask
      modifies this
      ensures rows == After(old(rows), Handle(old(rows), r)) && ok == !Handle(old(rows), r).Throws?
    {
      var state;
      ok, state := Rebuild(SortByTs(rows));
      if !ok {
        return;
      }
      if state.title.None? || state.done == done {
        return;
      }
      Add(Event(r.id, r.ts, if done then Completed else Reopened));
    }

    method ServeUpdate(r: Request, change: Option<UpdatedData>) returns (ok: bool)
      requires r.cmd == UpdateTask(change)
      modifies this
      ensures rows == After(old(rows), Handle(old(rows), r)) && ok == !Handle(old(rows), r).Throws?
    {
      var state;
      ok, state := Rebuild(SortByTs(rows));
      if !ok {
        return;
      }
      if state.title.None? {
        return;
      }
      var data: Option<UpdatedData> := None;
      if change.Some? {
        var obj := change.value;
        if state.done && obj.category.Some? && !IsDoneCategory(obj.category.value) {
          obj := obj.(done := Some(false));
        }
        if obj != UpdatedData(None, None, None, None, None, false) {
          data := Some(obj);
        }
      }
      Add(Event(r.id, r.ts, Updated(data)));
    }
  }

  /******* Serial runs *******/

  // logs[i] is the table before request i; it is enumerated anew, in any order, for every request.
  ghost predicate SerialRun(logs: seq<seq<Event>>, rs: seq<Request>) {
    && |logs| == |rs| + 1 && logs[0] == []
    && (forall i, j | 0 <= i < j < |rs| :: rs[i].ts < rs[j].ts)
    && (forall i: nat | i < |rs| :: HandledAt(logs, rs, i))
  }

  ghost predicate HandledAt(logs: seq<seq<Event>>, rs: seq<Request>, i: nat)
    requires |logs| == |rs| + 1 && i < |rs|
  {
    Appended(multiset(logs[i]), multiset(logs[i + 1]), Handle(logs[i], rs[i]))
  }

  ghost predicate Appended(log: multiset<Event>, log': multiset<Event>, o: Outcome) {
    log' == if o.Emits? then log + multiset{o.ev} else log
  }

  // All events of the log are older than request j and those after it.
  ghost predicate OlderThan(log: multiset<Event>, rs: seq<Request>, n: nat) {
    forall e, j | e in log && n <= j < |rs| :: e.ts < rs[j].ts
  }

  lemma OlderAfterRequest(log: multiset<Event>, rs: seq<Request>, n: nat, ev: Event)
    requires n < |rs| && (forall i, j | 0 <= i < j < |rs| :: rs[i].ts < rs[j].ts)
    requires OlderThan(log, rs, n) && ev.ts == rs[n].ts
    ensures OlderThan(log, rs, n + 1) && OlderThan(log + multiset{ev}, rs, n + 1)
    ensures forall e | e in log :: e.ts < ev.ts
  {
    assert forall e | e in log :: e.ts < rs[n].ts;
    forall e | e in log + multiset{ev} ensures e in log || e == ev {
    }
  }

  lemma RequestKeepsOrder(log: multiset<Event>, log': multiset<Event>, rs: seq<Request>, n: nat, o: Outcome)
    requires n < |rs| && (forall i, j | 0 <= i < j < |rs| :: rs[i].ts < rs[j].ts)
    requires DistinctTs(log) && OlderThan(log, rs, n) && Appended(log, log', o)
    requires o.Emits? ==> o.ev.ts == rs[n].ts
    ensures DistinctTs(log') && OlderThan(log', rs, n + 1)
  {
    OlderAfterRequest(log, rs, n, if o.Emits? then o.ev else Event(0, rs[n].ts, Unknown));
    if o.Emits? {
      NewestIsDistinct(log, o.ev);
    }
  }

  lemma {:induction false} LogStaysOrdered(logs: seq<seq<Event>>, rs: seq<Request>, n: nat)
    requires SerialRun(logs, rs) && n < |logs|
    ensures DistinctTs(multiset(logs[n])) && OlderThan(multiset(logs[n]), rs, n)
  {
    if n == 0 {
      assert multiset(logs[0]) == multiset{};
    } else {
      LogStaysOrdered(logs, rs, n - 1);
      assert HandledAt(logs, rs, n - 1);
      RequestKeepsOrder(multiset(logs[n - 1]), multiset(logs[n]), rs, n - 1, Handle(logs[n - 1], rs[n - 1]));
    }
  }

  function TaskAfter(s: Option<State>, r: Request): Option<State> {
    var o := HandleTask(s, r);
    if o.Emits? then NextState(s, o.ev) else s
  }

  lemma OutcomeIsOneStep(rows: seq<Event>, rows': seq<Event>, r: Request)
    requires DistinctTs(multiset(rows)) && (forall e | e in multiset(rows) :: e.ts < r.ts)
    requires Appended(multiset(rows), multiset(rows'), Handle(rows, r))
    ensures TaskOf(rows') == TaskAfter(TaskOf(rows), r)
  {
    var o := Handle(rows, r);
    if o.Emits? {
      NewestIsOneStep(rows, o.ev, rows');
    } else {
      SortIgnoresEnumeration(rows, rows');
    }
  }

  lemma RequestIsOneStep(logs: seq<seq<Event>>, rs: seq<Request>, i: nat)
    requires SerialRun(logs, rs) && i < |rs|
    ensures TaskOf(logs[i + 1]) == TaskAfter(TaskOf(logs[i]), rs[i])
  {
    LogStaysOrdered(logs, rs, i);
    assert HandledAt(logs, rs, i);
    forall e | e in multiset(logs[i]) ensures e.ts < rs[i].ts {
    }
    OutcomeIsOneStep(logs[i], logs[i + 1], rs[i]);
  }

  // The rebuilt task before each request, and after the last
  ghost predicate TaskRun(ts: seq<Option<State>>, rs: seq<Request>) {
    && |ts| == |rs| + 1 && ts[0] == Some(NEW_STATE)
    && (forall i: nat | i < |rs| :: TaskAt(ts, rs, i))
  }

  ghost predicate TaskAt(ts: seq<Option<State>>, rs: seq<Request>, i: nat)
    requires |ts| == |rs| + 1 && i < |rs|
  {
    ts[i + 1] == TaskAfter(ts[i], rs[i])
  }

  lemma NoRows()
    ensures TaskOf([]) == Some(NEW_STATE)
  {
    assert SortByTs([]) == [];
  }

  function TasksOf(logs: seq<seq<Event>>): (ts: seq<Option<State>>)
    ensures |ts| == |logs| && forall i | 0 <= i < |logs| :: ts[i] == TaskOf(logs[i])
  {
    seq(|logs|, i requires 0 <= i < |logs| => TaskOf(logs[i]))
  }

  // The tasks that the handlers of a serial run rebuild go from one to the next.
  lemma SerialTasks(logs: seq<seq<Event>>, rs: seq<Request>)
    requires SerialRun(logs, rs)
    ensures TaskRun(TasksOf(logs), rs)
  {
    var ts := TasksOf(logs);
    NoRows();
    forall i: nat | i < |rs| ensures TaskAt(ts, rs, i) {
      RequestIsOneStep(logs, rs, i);
    }
  }

  // "done" in any mixture of cases
  predicate SpellsDone(c: string) {
    |c| == 4 && c[0] in "dD" && c[1] in "oO" && c[2] in "nN" && c[3] in "eE"
  }

  lemma DoneCategorySpelled(c: string)
    ensures IsDoneCategory(c) <==> SpellsDone(c)
  {
  }

  predicate NamesOtherCategory(cmd: Command) {
    && cmd.UpdateTask? && cmd.change.Some? && cmd.change.value.category.Some?
    && !SpellsDone(cmd.change.value.category.value)
  }

  // What a decision does to the rebuilt task, one step on.
  lemma DecisionFlips(s: State, r: Request, p: Payload)
    requires Decide(s, r.cmd) == Some(p) && !r.cmd.CreateTask?
    ensures var after := ApplyState(s, Event(r.id, r.ts, p));
      && (p.Completed? ==> !s.done && after.done)
      && (p.Reopened? ==> s.done && !after.done)
      && (NamesOtherCategory(r.cmd) && s.done ==> !after.done)
      && s.title.Some? && after.title.Some?
  {
    if NamesOtherCategory(r.cmd) {
      DoneCategorySpelled(r.cmd.change.value.category.value);
    }
  }

  // A done task has a title.
  predicate Titled(s: Option<State>) {
    s.Some? && s.value.done ==> s.value.title.Some?
  }

  lemma StaysTitled(s: Option<State>, r: Request)
    requires Titled(s)
    ensures Titled(TaskAfter(s, r))
  {
    if !r.cmd.CreateTask? && s.Some? && Decide(s.value, r.cmd).Some? {
      DecisionFlips(s.value, r, Decide(s.value, r.cmd).value);
    }
  }

  lemma {:induction false} DoneIsTitled(ts: seq<Option<State>>, rs: seq<Request>, n: nat)
    requires TaskRun(ts, rs) && n < |ts|
    ensures Titled(ts[n])
  {
    if n == 0 {
    } else {
      DoneIsTitled(ts, rs, n - 1);
      assert TaskAt(ts, rs, n - 1);
      StaysTitled(ts[n - 1], rs[n - 1]);
    }
  }

  lemma TaskFlips(s: Option<State>, r: Request)
    requires Titled(s)
    ensures var s', o := TaskAfter(s, r), HandleTask(s, r);
      && (o.Emits? && o.ev.payload.Completed? ==> s.Some? && !s.value.done && s'.Some? && s'.value.done)
      && (o.Emits? && o.ev.payload.Reopened? ==> s.Some? && s.value.done && s'.Some? && !s'.value.done)
      && (NamesOtherCategory(r.cmd) && s.Some? && s.value.done ==> s'.Some? && !s'.value.done)
      && (!o.Emits? ==> s' == s)
  {
    if !r.cmd.CreateTask? && s.Some? && Decide(s.value, r.cmd).Some? {
      DecisionFlips(s.value, r, Decide(s.value, r.cmd).value);
    }
  }

  /** In a serial run every task-completed event turns the rebuilt Done from false to true, every
      task-reopened event turns it back, an update that names another category than "done" on a done
      task leaves Done false, and a request that emits nothing changes nothing. */
  lemma DoneFlips(logs: seq<seq<Event>>, rs: seq<Request>, i: nat)
    requires SerialRun(logs, rs) && i < |rs|
    ensures var before, after, o := TaskOf(logs[i]), TaskOf(logs[i + 1]), Handle(logs[i], rs[i]);
      && (o.Emits? && o.ev.payload.Completed? ==>
            before.Some? && !before.value.done && after.Some? && after.value.done)
      && (o.Emits? && o.ev.payload.Reopened? ==>
            before.Some? && before.value.done && after.Some? && !after.value.done)
      && (NamesOtherCategory(rs[i].cmd) && before.Some? && before.value.done ==> after.Some? && !after.value.done)
      && (!o.Emits? ==> after == before)
  {
    SerialTasks(logs, rs);
    var ts := TasksOf(logs);
    DoneIsTitled(ts, rs, i);
    assert TaskAt(ts, rs, i);
    TaskFlips(ts[i], rs[i]);
  }

  /******* What each request does to the task *******/

  // Each field of s' is the one sent, or the one of s when none was sent; a done task that is sent a
  // category other than "done" is done no more, whatever else was sent.
  predicate Updates(s: State, d: UpdatedData, s': State) {
    && (s'.title == if d.title.Some? then d.title else s.title)
    && (s'.notes == if d.notes.Some? then d.notes else s.notes)
    && (s'.category == if d.category.Some? then d.category else s.category)
    && (s'.order == if d.order.Some? then d.order.value else s.order)
    && (s'.done == if s.done && d.category.Some? && !SpellsDone(d.category.value) then false
                   else if d.done.Some? then d.done.value else s.done)
  }

  // A creation sets the title, and the other fields that it carries.
  predicate Creates(s: State, d: CreatedData, s': State) {
    && s'.title == d.title && s'.done == s.done
    && (s'.notes == if d.notes.Some? then d.notes else s.notes)
    && (s'.category == if d.category.Some? then d.category else s.category)
    && (s'.order == if d.order.Some? then d.order.value else s.order)
  }

  lemma UpdateUpdates(s: State, r: Request)
    requires r.cmd.UpdateTask? && s.title.Some?
    ensures var o, s' := HandleTask(Some(s), r), TaskAfter(Some(s), r);
      && o.Emits? && o.ev.id == r.id && o.ev.ts == r.ts && o.ev.payload.Updated? && s'.Some?
      && (r.cmd.change.None? ==> s'.value == s)
      && (r.cmd.change.Some? ==> Updates(s, r.cmd.change.value, s'.value))
  {
    if r.cmd.change.Some? && r.cmd.change.value.category.Some? {
      DoneCategorySpelled(r.cmd.change.value.category.value);
    }
  }

  lemma StatusFlips(s: Option<State>, r: Request)
    requires r.cmd.CompleteTask? || r.cmd.ReopenTask?
    ensures var wanted := r.cmd.CompleteTask?;
      if s.Some? && s.value.title.Some? && s.value.done != wanted then
        && HandleTask(s, r) == Emits(Event(r.id, r.ts, if wanted then Completed else Reopened))
        && TaskAfter(s, r) == Some(s.value.(done := wanted))
      else !HandleTask(s, r).Emits?
  {
  }

  // before and after a request: one event with its id and timestamp was stored.
  ghost predicate StoresOne(before: multiset<Event>, after: multiset<Event>, r: Request, p: Payload) {
    after == before + multiset{Event(r.id, r.ts, p)}
  }

  /** In a serial run a titled open task that is asked to complete is stored one completion and is done
      afterwards, with nothing else changed; a titled done task that is asked to reopen likewise; asked
      otherwise, nothing is stored. */
  lemma StatusIsServed(logs: seq<seq<Event>>, rs: seq<Request>, i: nat)
    requires SerialRun(logs, rs) && i < |rs| && (rs[i].cmd.CompleteTask? || rs[i].cmd.ReopenTask?)
    ensures var s, s', r := TaskOf(logs[i]), TaskOf(logs[i + 1]), rs[i];
      var wanted := r.cmd.CompleteTask?;
      if s.Some? && s.value.title.Some? && s.value.done != wanted then
        && StoresOne(multiset(logs[i]), multiset(logs[i + 1]), r, if wanted then Completed else Reopened)
        && s' == Some(s.value.(done := wanted))
      else multiset(logs[i + 1]) == multiset(logs[i])
  {
    var s, r := TaskOf(logs[i]), rs[i];
    StatusFlips(s, r);
    assert HandledAt(logs, rs, i);
    assert Handle(logs[i], r) == HandleTask(s, r);
    if HandleTask(s, r).Emits? {
      RequestIsOneStep(logs, rs, i);
    }
  }

  /** In a serial run an update of a titled task stores one event, and each field of the task is then the
      one sent, or the old one when none was sent; a task without a title is left alone. */
  lemma UpdateIsServed(logs: seq<seq<Event>>, rs: seq<Request>, i: nat)
    requires SerialRun(logs, rs) && i < |rs| && rs[i].cmd.UpdateTask?
    ensures var s, s', r := TaskOf(logs[i]), TaskOf(logs[i + 1]), rs[i];
      if s.Some? && s.value.title.Some? then
        && (exists data :: StoresOne(multiset(logs[i]), multiset(logs[i + 1]), r, Updated(data)))
        && s'.Some?
        && (if r.cmd.change.None? then s' == s else Updates(s.value, r.cmd.change.value, s'.value))
      else multiset(logs[i + 1]) == multiset(logs[i])
  {
    RequestIsOneStep(logs, rs, i);
    assert HandledAt(logs, rs, i);
    var s, r := TaskOf(logs[i]), rs[i];
    if s.Some? && s.value.title.Some? {
      UpdateUpdates(s.value, r);
      var ev := HandleTask(s, r).ev;
      assert StoresOne(multiset(logs[i]), multiset(logs[i + 1]), r, Updated(ev.payload.updated));
    }
  }

  /** In a serial run a creation is stored, and the task has the title and the other fields it carries. */
  lemma CreationIsServed(logs: seq<seq<Event>>, rs: seq<Request>, i: nat)
    requires SerialRun(logs, rs) && i < |rs| && rs[i].cmd.CreateTask?
    ensures var s, s', r := TaskOf(logs[i]), TaskOf(logs[i + 1]), rs[i];
      && StoresOne(multiset(logs[i]), multiset(logs[i + 1]), r, Created(r.cmd.data))
      && (s.Some? && r.cmd.data.None? ==> s' == s)
      && (s.Some? && r.cmd.data.Some? && r.cmd.data.value.title.Some? ==>
            s'.Some? && Creates(s.value, r.cmd.data.value, s'.value))
  {
    RequestIsOneStep(logs, rs, i);
    assert HandledAt(logs, rs, i);
  }

  predicate Untitled(cmd: Command) {
    cmd.CreateTask? && cmd.data.Some? && cmd.data.value.title.None?
  }

  lemma LostByUntitled(s: Option<State>, r: Request)
    ensures TaskAfter(s, r).None? <==> s.None? || Untitled(r.cmd)
  {
  }

  lemma {:induction false} LostIffUntitled(ts: seq<Option<State>>, rs: seq<Request>, n: nat)
    requires TaskRun(ts, rs) && n < |ts|
    ensures ts[n].None? <==> exists j | 0 <= j < n :: Untitled(rs[j].cmd)
  {
    if n == 0 {
    } else {
      LostIffUntitled(ts, rs, n - 1);
      assert TaskAt(ts, rs, n - 1);
      LostByUntitled(ts[n - 1], rs[n - 1]);
    }
  }

  /** A task is lost to its handlers if and only if some creation was sent data without a title: from
      then on every update, completion and reopening throws. */
  lemma ThrowsIffUntitled(logs: seq<seq<Event>>, rs: seq<Request>, n: nat)
    requires SerialRun(logs, rs) && n < |rs|
    ensures Handle(logs[n], rs[n]).Throws? <==>
      !rs[n].cmd.CreateTask? && exists j | 0 <= j < n :: Untitled(rs[j].cmd)
  {
    SerialTasks(logs, rs);
    LostIffUntitled(TasksOf(logs), rs, n);
  }
}
