/**
 Task events and their two meanings: the fold that the domain service uses to rebuild a task
 (TaskStateBuilder) and the row that the read-model updater keeps (TaskService).
 */
module TaskEvents {
  import opened Options

  // "order" is read with TryGetInt32
  type Int32 = x: int | -0x8000_0000 <= x < 0x8000_0000

  datatype CreatedData = CreatedData(
    title: Option<string>, notes: Option<string>, category: Option<string>, order: Option<Int32>)

  // others: the object has further properties, which neither reader looks at
  datatype UpdatedData = UpdatedData(
    title: Option<string>, notes: Option<string>, category: Option<string>,
    order: Option<Int32>, done: Option<bool>, others: bool)

  datatype Payload =
    | Created(created: Option<CreatedData>)
    | Updated(updated: Option<UpdatedData>)
    | Completed
    | Reopened
    | Unknown

  datatype Event = Event(id: nat, ts: int, payload: Payload)

  /******* The domain service *******/

  datatype State = State(
    title: Option<string>, notes: Option<string>, category: Option<string>, order: Int32, done: bool)

  const NEW_STATE := State(None, None, None, 0, false)

  function Or<T>(update: Option<T>, current: T): T {
    if update.Some? then update.value else current
  }

  function OrSome<T>(update: Option<T>, current: Option<T>): Option<T> {
    if update.Some? then update else current
  }

  // GetProperty("title") throws on creation data without a title, which nobody validates.
  predicate Readable(ev: Event) {
    ev.payload.Created? && ev.payload.created.Some? ==> ev.payload.created.value.title.Some?
  }

  function ApplyState(s: State, ev: Event): State
    requires Readable(ev)
  {
    match ev.payload
    case Created(Some(d)) =>
      State(d.title, OrSome(d.notes, s.notes), OrSome(d.category, s.category), Or(d.order, s.order), s.done)
    case Updated(Some(d)) =>
      State(OrSome(d.title, s.title), OrSome(d.notes, s.notes), OrSome(d.category, s.category),
            Or(d.order, s.order), Or(d.done, s.done))
    case Completed => s.(done := true)
    case Reopened => s.(done := false)
    case _ => s
  }

  // TaskStateBuilder.From as a left fold; None: it throws
  function From(events: seq<Event>): Option<State> {
    if events == [] then Some(NEW_STATE)
    else
      var s, ev := From(events[..|events| - 1]), events[|events| - 1];
      if s.None? || !Readable(ev) then None else Some(ApplyState(s.value, ev))
  }

  /** A task can be rebuilt if and only if every creation that carries data carries a title. */
  lemma {:induction false} FromDefinedIff(events: seq<Event>)
    ensures From(events).Some? <==> forall i | 0 <= i < |events| :: Readable(events[i])
  {
    if events == [] {
    } else {
      var n := |events| - 1;
      FromDefinedIff(events[..n]);
      assert forall i | 0 <= i < n :: events[..n][i] == events[i];
    }
  }

  /** The mutable TaskState and the loop that fills it. */
  class TaskState {
    var title: Option<string>
    var notes: Option<string>
    var category: Option<string>
    var order: Int32
    var done: bool

    ghost function Value(): State
      reads this
    {
      State(title, notes, category, order, done)
    }

    constructor ()
      ensures Value() == NEW_STATE
    {
      title, notes, category, order, done := None, None, None, 0, false;
    }

    /** ok is false when the call throws, which it does before it changes anything. */
    method Apply(ev: Event) returns (ok: bool)
      modifies this
      ensures ok == Readable(ev)
      ensures Value() == if ok then ApplyState(old(Value()), ev) else old(Value())
    {
      ok := true;
      match ev.payload {
        case Created(data) =>
          if data.Some? {
            if data.value.title.None? {
              return false;
            }
            title := data.value.title;
            if data.value.notes.Some? { notes := data.value.notes; }
            if data.value.category.Some? { category := data.value.category; }
            if data.value.order.Some? { order := data.value.order.value; }
          }
        case Updated(data) =>
          if data.Some? {
            if data.value.title.Some? { title := data.value.title; }
            if data.value.notes.Some? { notes := data.value.notes; }
            if data.value.category.Some? { category := data.value.category; }
            if data.value.order.Some? { order := data.value.order.value; }
            if data.value.done.Some? { done := data.value.done.value; }
          }
        case Completed => done := true;
        case Reopened => done := false;
        case Unknown =>
      }
    }
  }

  method Rebuild(events: seq<Event>) returns (ok: bool, state: TaskState)
    ensures fresh(state) && From(events) == if ok then Some(state.Value()) else None
  {
    state := new TaskState();
    ok := true;
    for i := 0 to |events|
      invariant From(events[..i]) == Some(state.Value())
    {
      ok := state.Apply(events[i]);
      assert events[..i + 1][..i] == events[..i];
      if !ok {
        Undefined(events, i + 1);
        return;
      }
    }
    assert events[..|events|] == events;
    ok := true;
  }

  // Once the fold has thrown there is no result.
  lemma {:induction false} Undefined(events: seq<Event>, n: nat)
    requires n <= |events| && From(events[..n]).None?
    ensures From(events).None?
    decreases |events|
  {
    if n == |events| {
      assert events[..n] == events;
    } else {
      assert events[..|events| - 1][..n] == events[..n];
      Undefined(events[..|events| - 1], n);
    }
  }

  /******* The read model *******/

  datatype Row = Row(title: string, notes: string, category: string, order: Int32, done: bool, ts: int)

  function CreateRow(data: Option<CreatedData>, ts: int): Row {
    if data.None? then Row("", "", "", 0, false, ts)
    else
      Row(data.value.title.GetOr(""), data.value.notes.GetOr(""), data.value.category.GetOr(""),
          data.value.order.GetOr(0), false, ts)
  }

  /** A created row shows each field its data carries and the zero value for the others; it is not done. */
  lemma CreatedRowShows(d: CreatedData, ts: int)
    ensures var row := CreateRow(Some(d), ts);
      && (row.title == if d.title.Some? then d.title.value else "")
      && (row.notes == if d.notes.Some? then d.notes.value else "")
      && (row.category == if d.category.Some? then d.category.value else "")
      && (row.order == if d.order.Some? then d.order.value else 0)
      && !row.done && row.ts == ts
  {
  }

  /** A merge writes each field the event carries and the timestamp, and keeps the others. */
  lemma MergedRowShows(r: Row, d: UpdatedData, ts: int)
    ensures var row := Merge(r, ChangeOf(Updated(Some(d))), ts);
      && (row.title == if d.title.Some? then d.title.value else r.title)
      && (row.notes == if d.notes.Some? then d.notes.value else r.notes)
      && (row.category == if d.category.Some? then d.category.value else r.category)
      && (row.order == if d.order.Some? then d.order.value else r.order)
      && (row.done == if d.done.Some? then d.done.value else r.done)
      && row.ts == ts
    ensures Merge(r, ChangeOf(Completed), ts) == r.(done := true, ts := ts)
    ensures Merge(r, ChangeOf(Reopened), ts) == r.(done := false, ts := ts)
  {
  }

  // TaskUpdate: the fields a merge overwrites
  datatype Change = Change(
    title: Option<string>, notes: Option<string>, category: Option<string>, order: Option<Int32>, done: Option<bool>)

  const NO_CHANGE := Change(None, None, None, None, None)

  function ChangeOf(p: Payload): Change {
    match p
    case Updated(Some(d)) => Change(d.title, d.notes, d.category, d.order, d.done)
    case Completed => NO_CHANGE.(done := Some(true))
    case Reopened => NO_CHANGE.(done := Some(false))
    case _ => NO_CHANGE
  }

  function Merge(r: Row, c: Change, ts: int): Row {
    Row(c.title.GetOr(r.title), c.notes.GetOr(r.notes), c.category.GetOr(r.category), c.order.GetOr(r.order),
        c.done.GetOr(r.done), ts)
  }

  // The events that can change an existing row.
  predicate Changes(ev: Event) {
    !ev.payload.Created? && ChangeOf(ev.payload) != NO_CHANGE
  }

  // The row after the accepted events: the creation first, then changes.
  function RowOf(accepted: seq<Event>): Option<Row> {
    if accepted == [] then None
    else
      var ev, before := accepted[|accepted| - 1], RowOf(accepted[..|accepted| - 1]);
      match ev.payload
      case Created(data) => Some(CreateRow(data, ev.ts))
      case _ => if before.None? then None else Some(Merge(before.value, ChangeOf(ev.payload), ev.ts))
  }

  // The row shows the rebuilt task, reading null as the empty string.
  predicate Shows(r: Row, s: State) {
    && r.title == s.title.GetOr("") && r.notes == s.notes.GetOr("") && r.category == s.category.GetOr("")
    && r.order == s.order && r.done == s.done
  }

  // One creation, first; then changes only, with strictly rising timestamps.
  ghost predicate IsHistory(accepted: seq<Event>) {
    && (accepted != [] ==> accepted[0].payload.Created?)
    && (forall i | 0 < i < |accepted| :: Changes(accepted[i]))
    && (forall i, j | 0 <= i < j < |accepted| :: accepted[i].ts < accepted[j].ts)
  }

  /** The two readings agree on every history whose creation the domain service can read, and it can
      read the history exactly then. */
  lemma {:induction false} RowShowsState(accepted: seq<Event>)
    requires IsHistory(accepted) && accepted != []
    ensures RowOf(accepted).Some?
    ensures From(accepted).Some? <==> Readable(accepted[0])
    ensures From(accepted).Some? ==> Shows(RowOf(accepted).value, From(accepted).value)
    ensures RowOf(accepted).value.ts == accepted[|accepted| - 1].ts
  {
    if |accepted| == 1 {
      assert accepted[..0] == [];
      assert From(accepted[..0]) == Some(NEW_STATE);
    } else {
      RowShowsState(accepted[..|accepted| - 1]);
    }
  }

  lemma HistoryGrows(accepted: seq<Event>, ev: Event)
    requires IsHistory(accepted)
    requires if accepted == [] then ev.payload.Created? else Changes(ev) && accepted[|accepted| - 1].ts < ev.ts
    ensures IsHistory(accepted + [ev])
  {
  }

  lemma MergeIsRow(accepted: seq<Event>, row: Row, ev: Event)
    requires RowOf(accepted) == Some(row) && !ev.payload.Created?
    ensures RowOf(accepted + [ev]) == Some(Merge(row, ChangeOf(ev.payload), ev.ts))
  {
    assert (accepted + [ev])[..|accepted|] == accepted;
  }
}
