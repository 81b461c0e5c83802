/**
 TaskService.Apply as it is written: read the row with its ETag, check, write conditionally, and on a
 conflict read again.  Between any two storage calls other Apply runs may get writes in, and every call
 may fail, before or after it took effect.  The code is proved to move only as the step system of
 concurrent runs allows.
 */
module TaskService {
  import opened Options
  import opened StorageFaults
  import opened TaskEvents
  import opened Delivery
  import opened Projection

  datatype Moment = Moment(action: Action, after: Table)

  // The table before step i of a path that began in start.
  function Before(start: Table, past: seq<Moment>, i: nat): Table
    requires i <= |past|
  {
    if i == 0 then start else past[i - 1].after
  }

  ghost predicate MovesAt(start: Table, past: seq<Moment>, i: nat)
    requires i < |past|
  {
    Step(Before(start, past, i), past[i].action, past[i].after)
  }

  ghost predicate IsPath(start: Table, past: seq<Moment>) {
    forall i: nat | i < |past| :: MovesAt(start, past, i)
  }

  lemma PathGrows(start: Table, past: seq<Moment>, m: Moment)
    requires IsPath(start, past) && Step(Before(start, past, |past|), m.action, m.after)
    ensures IsPath(start, past + [m])
  {
    forall i: nat | i < |past| + 1 ensures MovesAt(start, past + [m], i) {
      if i < |past| {
        assert MovesAt(start, past, i);
      }
    }
  }

  // No step takes a version or an accepted event away.
  ghost predicate Grew(t: Table, t': Table) {
    t.versions <= t'.versions && t.accepted <= t'.accepted
  }

  /** Along a path the invariant stays, and versions and accepted events are only added. */
  lemma {:induction false} PathKeeps(start: Table, past: seq<Moment>, m: nat, n: nat)
    requires IsPath(start, past) && m <= n <= |past| && Projection.Inv(Before(start, past, m))
    ensures Projection.Inv(Before(start, past, n)) && Grew(Before(start, past, m), Before(start, past, n))
    decreases n
  {
    if m == n {
    } else {
      PathKeeps(start, past, m, n - 1);
      assert MovesAt(start, past, n - 1);
      StepKeeps(Before(start, past, n - 1), past[n - 1].action, past[n - 1].after);
      StepAppends(Before(start, past, n - 1), past[n - 1].action, past[n - 1].after);
    }
  }

  // The current row.
  function Current(t: Table): Option<Row> {
    if t.versions == [] then None else Some(t.versions[|t.versions| - 1])
  }

  // Where a run stands after reading version tag of the row, or no row.
  function AfterRead(ev: Event, ent: Option<Row>, tag: nat): Pc {
    if ev.payload.Created? then if ent.None? then Inserting else Rejected
    else if ent.None? || !Changes(ev) then Rejected
    else Writing(tag)
  }

  // ev is among the writes that after has beyond before.
  ghost predicate Added(before: seq<Event>, after: seq<Event>, ev: Event) {
    exists i :: |before| <= i < |after| && after[i] == ev
  }

  // How a conditional write ends.
  datatype Reply = Written | Conflict | Failed

  class TaskTable {
    var t: Table
    ghost const start: Table
    ghost var past: seq<Moment>

    ghost predicate Valid()
      reads this
    {
      IsPath(start, past) && t == Before(start, past, |past|) && Projection.Inv(t)
    }

    constructor ()
      ensures Valid() && t == Table([], [], map[]) && past == []
    {
      t := Table([], [], map[]);
      start, past := Table([], [], map[]), [];
    }

    // Run r applies ev and stands at pc.
    ghost predicate At(r: nat, ev: Event, pc: Pc)
      reads this
    {
      r in t.runs && t.runs[r].ev == ev && t.runs[r].pc == pc
    }

    // Other runs; run r learns only that its own position is untouched.
    method Interleave(r: nat, alone: bool)
      requires Valid() && r in t.runs
      modifies this
      ensures Valid() && old(past) <= past
      ensures r in t.runs && t.runs[r] == old(t.runs[r])
      ensures alone ==> t == old(t)
    {
    }

    // What others do is lawful, so versions are only added.
    method Others(r: nat, alone: bool)
      requires Valid() && r in t.runs
      modifies this
      ensures Valid() && old(past) <= past && Grew(old(t), t)
      ensures r in t.runs && t.runs[r] == old(t.runs[r])
      ensures alone ==> t == old(t)
    {
      ghost var before := past;
      Interleave(r, alone);
      PathKeeps(start, past, |before|, |past|);
    }

    // How the outside world decides the next call; with nobody around nothing fails.
    method Outside(alone: bool) returns (f: Fault)
      ensures alone ==> f.Ok?
    {
      f := Ok;
    }

    method Take(a: Action, t': Table)
      requires Valid() && Step(t, a, t')
      modifies this
      ensures Valid() && old(past) <= past && t == t' && Grew(old(t), t)
    {
      PathGrows(start, past, Moment(a, t'));
      StepKeeps(t, a, t');
      StepAppends(t, a, t');
      past := past + [Moment(a, t')];
      t := t';
    }

    // ------------------------------------------------------------------
    // Storage calls

    method Begin(r: nat, ev: Event)
      requires Valid() && r !in t.runs
      modifies this
      ensures Valid() && old(past) <= past && At(r, ev, Reading(None))
      ensures t.versions == old(t.versions) && t.accepted == old(t.accepted)
    {
      Take(Start(r, ev), t.(runs := t.runs[r := Run(ev, Reading(None), 0, None)]));
    }

    method GetTask(r: nat, ghost ev: Event, ghost lost: Option<nat>, alone: bool)
      returns (ok: bool, ent: Option<Row>, tag: nat)
      requires Valid() && At(r, ev, Reading(lost))
      modifies this
      ensures Valid() && old(past) <= past && Grew(old(t), t)
      ensures ok ==> ent == Current(t) && (ent.Some? ==> tag == |t.versions| - 1)
      ensures At(r, ev, if ok then AfterRead(ev, ent, tag) else Rejected)
      ensures alone ==> ok && t.versions == old(t.versions) && t.accepted == old(t.accepted)
    {
      Others(r, alone);
      var f := Outside(alone);
      var run := t.runs[r];
      ok, ent, tag := f.Ok?, Current(t), if t.versions == [] then 0 else |t.versions| - 1;
      if !ok {
        Take(Act(r, ThrewBefore), Goto(t, r, run, Rejected));
      } else {
        var pc := AfterRead(run.ev, ent, tag);
        if pc.Writing? {
          run := run.(firstTs := if run.firstTs.None? then Some(t.versions[tag].ts) else run.firstTs);
        }
        Take(Act(r, Ok), Goto(t, r, run, pc));
      }
    }

    // InsertTask: fails when the row exists by now
    method InsertTask(r: nat, ev: Event, alone: bool) returns (ok: bool)
      requires Valid() && At(r, ev, Inserting) && ev.payload.Created?
      modifies this
      ensures Valid() && old(past) <= past && Grew(old(t), t)
      ensures At(r, ev, if ok then Accepted else Rejected)
      ensures ok ==> t.accepted == [ev]
      ensures alone && old(t.versions) == [] ==> ok && Current(t) == Some(CreateRow(ev.payload.created, ev.ts))
    {
      Others(r, alone);
      var f := Outside(alone);
      var run := t.runs[r];
      if f.ThrewBefore? || t.versions != [] {
        ok := false;
        Take(Act(r, f), Goto(t, r, run, Rejected));
      } else {
        ok := f.Ok?;
        assert t.accepted == [] && t.accepted + [ev] == [ev];
        var written := Write(t, CreateRow(ev.payload.created, ev.ts), ev);
        Take(Act(r, f), Goto(written, r, run, if ok then Accepted else Rejected));
      }
    }

    // The row read is not older than the event: the run gives up before it writes.
    method GiveUp(r: nat, ev: Event, tag: nat)
      requires Valid() && At(r, ev, Writing(tag)) && tag < |t.versions| && ev.ts <= t.versions[tag].ts
      modifies this
      ensures Valid() && old(past) <= past && Grew(old(t), t) && At(r, ev, Rejected)
      ensures t.versions == old(t.versions) && t.accepted == old(t.accepted)
    {
      Take(Act(r, Ok), Goto(t, r, t.runs[r], Rejected));
    }

    // UpdateTask: goes through exactly when nothing was written since version tag was read
    method UpdateTask(r: nat, ev: Event, tag: nat, alone: bool) returns (reply: Reply)
      requires Valid() && At(r, ev, Writing(tag)) && tag < |t.versions| && t.versions[tag].ts < ev.ts
      modifies this
      ensures Valid() && old(past) <= past && Grew(old(t), t)
      ensures reply.Written? ==>
        && At(r, ev, Accepted) && |t.versions| == tag + 2
        && t.versions[tag + 1] == Merge(old(t.versions[tag]), ChangeOf(ev.payload), ev.ts)
        && t.accepted != [] && t.accepted[|t.accepted| - 1] == ev && |old(t.accepted)| < |t.accepted|
      ensures reply.Conflict? ==> At(r, ev, Reading(Some(tag))) && tag + 1 < |t.versions|
      ensures reply.Failed? ==> At(r, ev, Rejected)
      ensures alone && tag == |old(t.versions)| - 1 ==> reply.Written?
    {
      Others(r, alone);
      var f := Outside(alone);
      var run := t.runs[r];
      var lost := run.(conflicts := run.conflicts + 1);
      if f.ThrewBefore? {
        reply := Failed;
        Take(Act(r, f), Goto(t, r, run, Rejected));
      } else if tag != |t.versions| - 1 {
        reply := Conflict;
        Take(Act(r, Ok), Goto(t, r, lost, Reading(Some(tag))));
      } else {
        var written := Write(t, Merge(t.versions[tag], ChangeOf(ev.payload), ev.ts), ev);
        if f.Ok? {
          reply := Written;
          Take(Act(r, f), Goto(written, r, run, Accepted));
        } else if f.Retried? {
          reply := Conflict;
          Take(Act(r, f), Goto(written, r, lost, Reading(Some(tag))));
        } else {
          reply := Failed;
          Take(Act(r, f), Goto(written, r, run, Rejected));
        }
      }
    }

    // ------------------------------------------------------------------
    // Apply

    // The task-created case
    method ApplyCreation(r: nat, ev: Event, alone: bool) returns (ok: bool)
      requires Valid() && At(r, ev, Reading(None)) && ev.payload.Created?
      modifies this
      ensures Valid() && old(past) <= past && Grew(old(t), t)
      ensures At(r, ev, if ok then Accepted else Rejected)
      ensures ok ==> Added(old(t.accepted), t.accepted, ev)
      ensures alone ==> ok == Accepts(old(Current(t)), ev) && Current(t) == Deliver(old(Current(t)), ev)
    {
      var ent, tag;
      ok, ent, tag := GetTask(r, ev, None, alone);
      if !ok {
        return;
      }
      if ent.Some? {
        return false;
      }
      assert t.accepted == [];
      ok := InsertTask(r, ev, alone);
      if ok {
        assert t.accepted[0] == ev;
      }
    }

    // The task-updated, task-completed and task-reopened cases; every conflict brings a newer row.
    method ApplyChange(r: nat, ev: Event, alone: bool) returns (ok: bool)
      requires Valid() && At(r, ev, Reading(None)) && !ev.payload.Created?
      modifies this
      ensures Valid() && old(past) <= past && Grew(old(t), t)
      ensures At(r, ev, if ok then Accepted else Rejected)
      ensures ok ==> Added(old(t.accepted), t.accepted, ev)
      ensures alone ==> ok == Accepts(old(Current(t)), ev) && Current(t) == Deliver(old(Current(t)), ev)
    {
      var ent, tag;
      ok, ent, tag := GetTask(r, ev, None, alone);
      if !ok {
        return;
      }
      if ent.None? || ChangeOf(ev.payload) == NO_CHANGE {
        return false;
      }
      ok := RetryLoop(r, ev, ent, tag, alone);
    }

    // The loop that writes over version tag, or over a newer one after each conflict
    method RetryLoop(r: nat, ev: Event, first: Option<Row>, firstTag: nat, alone: bool) returns (ok: bool)
      requires Valid() && Holding(r, ev, first, firstTag)
      modifies this
      ensures Valid() && old(past) <= past && Grew(old(t), t)
      ensures At(r, ev, if ok then Accepted else Rejected)
      ensures ok ==> Added(old(t.accepted), t.accepted, ev)
      ensures alone && firstTag == |old(t.versions)| - 1 ==>
        ok == Accepts(first, ev) && Current(t) == Deliver(first, ev)
    {
      var more, ent, tag := true, first, firstTag;
      ok := false;
      while more
        invariant Valid() && old(past) <= past && Grew(old(t), t)
        invariant if more then Holding(r, ev, ent, tag) else At(r, ev, if ok then Accepted else Rejected)
        invariant !more && ok ==> Added(old(t.accepted), t.accepted, ev)
        invariant alone && firstTag == |old(t.versions)| - 1 ==>
          if more then t.versions == old(t.versions) && ent == first && tag == firstTag
          else ok == Accepts(first, ev) && Current(t) == Deliver(first, ev)
        decreases more, if more then ev.ts - ent.value.ts else 0
      {
        more, ok, ent, tag := Attempt(r, ev, ent, tag, alone);
      }
    }

    // One turn of the loop
    method Attempt(r: nat, ev: Event, ent: Option<Row>, tag: nat, alone: bool)
      returns (more: bool, ok: bool, ent': Option<Row>, tag': nat)
      requires Valid() && Holding(r, ev, ent, tag)
      modifies this
      ensures Valid() && old(past) <= past && Grew(old(t), t)
      ensures more ==> Holding(r, ev, ent', tag') && ent.value.ts < ev.ts && ent.value.ts < ent'.value.ts
      ensures !more ==> At(r, ev, if ok then Accepted else Rejected)
      ensures !more && ok ==> Added(old(t.accepted), t.accepted, ev)
      ensures alone && tag == |old(t.versions)| - 1 ==>
        !more && ok == Accepts(ent, ev) && Current(t) == Deliver(ent, ev)
    {
      more, ent', tag' := false, ent, tag;
      if ev.ts <= ent.value.ts {
        GiveUp(r, ev, tag);
        ok := false;
        return;
      }
      var reply := UpdateTask(r, ev, tag, alone);
      if reply.Conflict? {
        ok, ent', tag' := GetNewer(r, ev, tag, alone);
        more := ok;
      } else {
        ok := reply.Written?;
      }
    }

    // Run r has read version tag of the row and may write over it.
    ghost predicate Holding(r: nat, ev: Event, ent: Option<Row>, tag: nat)
      reads this
    {
      && At(r, ev, Writing(tag)) && Changes(ev)
      && tag < |t.versions| && ent == Some(t.versions[tag])
    }

    // The read after a conflict on version lost; the row it finds is newer
    method GetNewer(r: nat, ev: Event, lost: nat, alone: bool) returns (ok: bool, ent: Option<Row>, tag: nat)
      requires Valid() && At(r, ev, Reading(Some(lost))) && lost + 1 < |t.versions| && Changes(ev)
      modifies this
      ensures Valid() && old(past) <= past && Grew(old(t), t)
      ensures ok ==> Holding(r, ev, ent, tag) && old(t.versions[lost]).ts < ent.value.ts
      ensures !ok ==> At(r, ev, Rejected)
    {
      ok, ent, tag := GetTask(r, ev, Some(lost), alone);
      if ok {
        LaterIsNewer(t, lost, tag);
      }
    }

    /** However many other runs write in between and however the calls end, the call ends too; a nil
        result means that its event was written, and without other runs and faults it is exactly one
        Deliver step. */
    method Apply(r: nat, ev: Event, alone: bool) returns (ok: bool)
      requires Valid() && r !in t.runs
      modifies this
      ensures Valid() && old(past) <= past && Grew(old(t), t)
      ensures At(r, ev, if ok then Accepted else Rejected)
      ensures ok ==> Added(old(t.accepted), t.accepted, ev)
      ensures alone ==> ok == Accepts(old(Current(t)), ev) && Current(t) == Deliver(old(Current(t)), ev)
    {
      Begin(r, ev);
      if ev.payload.Created? {
        ok := ApplyCreation(r, ev, alone);
      } else if ev.payload.Unknown? {
        ok := false;
        Take(Act(r, ThrewBefore), Goto(t, r, t.runs[r], Rejected));
      } else {
        ok := ApplyChange(r, ev, alone);
      }
    }
  }
}
