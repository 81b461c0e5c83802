/**
 The handlers CreateTask and LoginUser as they are written, proved to move only as the step system
 allows: whatever other runs, the cleaner and the clock do between two storage calls, and however the
 calls end, the history of the key stays a path of KeyStep.
 */
module CommandHandlers {
  import opened Options
  import opened StorageFaults
  import opened IdempotencyProtocol
  import opened LeaseInvariant
  import DomainService

  // One step of a key's history: when, what, and the state it left.
  datatype Moment = Moment(now: int, action: Action, after: KeyState)

  // The state before step i of a history that began in start.
  function Before(start: KeyState, past: seq<Moment>, i: nat): KeyState
    requires i <= |past|
  {
    if i == 0 then start else past[i - 1].after
  }

  ghost predicate StepAt(cmd: Command, start: KeyState, past: seq<Moment>, i: nat)
    requires i < |past|
  {
    && (i > 0 ==> past[i - 1].now <= past[i].now)
    && KeyStep(cmd, past[i].now, Before(start, past, i), past[i].action, past[i].after)
  }

  ghost predicate IsHistory(cmd: Command, start: KeyState, past: seq<Moment>) {
    forall i: nat | i < |past| :: StepAt(cmd, start, past, i)
  }

  lemma HistoryGrows(cmd: Command, start: KeyState, past: seq<Moment>, m: Moment)
    requires IsHistory(cmd, start, past)
    requires past != [] ==> past[|past| - 1].now <= m.now
    requires KeyStep(cmd, m.now, Before(start, past, |past|), m.action, m.after)
    ensures IsHistory(cmd, start, past + [m])
  {
    forall i: nat | i < |past| + 1 ensures StepAt(cmd, start, past + [m], i) {
      if i < |past| {
        assert StepAt(cmd, start, past, i);
      }
    }
  }

  /** Along a history stored events stay, and so do their flags. */
  lemma {:induction false} HistoryKeeps(cmd: Command, start: KeyState, past: seq<Moment>, m: nat, n: nat)
    requires IsHistory(cmd, start, past) && m <= n <= |past|
    ensures Kept(Before(start, past, m).events, Before(start, past, n).events)
    decreases n
  {
    if m == n {
    } else {
      HistoryKeeps(cmd, start, past, m, n - 1);
      assert StepAt(cmd, start, past, n - 1);
      var before, step := Before(start, past, n - 1), past[n - 1];
      DomainService.KeyStepExtends(cmd, step.now, before, step.action, step.after);
      KeptThrough(Before(start, past, m).events, before.events, step.after.events);
    }
  }

  lemma KeptThrough(a: seq<StoredEvent>, b: seq<StoredEvent>, c: seq<StoredEvent>)
    requires Kept(a, b) && Kept(b, c)
    ensures Kept(a, c)
  {
  }

  ghost predicate AnyFlagged(events: seq<StoredEvent>) {
    exists i :: 0 <= i < |events| && events[i].dispatched
  }

  // Of the first n events, those not in rest are flagged.
  ghost predicate FlaggedBut(events: seq<StoredEvent>, n: nat, rest: seq<nat>) {
    && n <= |events|
    && (forall i: nat | i < n :: events[i].dispatched || i in rest)
    && (forall k | 0 <= k < |rest| :: rest[k] < |events|)
  }

  lemma StillFlagged(before: seq<StoredEvent>, after: seq<StoredEvent>, n: nat)
    requires Kept(before, after) && n <= |before|
    ensures AllFlagged(before, n) ==> AllFlagged(after, n)
    ensures AnyFlagged(before) ==> AnyFlagged(after)
  {
    if AnyFlagged(before) {
      var i :| 0 <= i < |before| && before[i].dispatched;
      assert after[i].dispatched;
    }
  }

  lemma StillFlaggedBut(before: seq<StoredEvent>, after: seq<StoredEvent>, n: nat, rest: seq<nat>)
    requires Kept(before, after) && FlaggedBut(before, n, rest)
    ensures FlaggedBut(after, n, rest)
  {
  }

  lemma PendingLeavesFlagged(events: seq<StoredEvent>, rest: seq<nat>)
    requires Pending(rest, events)
    ensures FlaggedBut(events, |events|, rest)
  {
    forall k | 0 <= k < |rest| ensures rest[k] < |events| {
      assert rest[k] in rest;
    }
  }

  lemma FlagsHead(before: seq<StoredEvent>, after: seq<StoredEvent>, n: nat, rest: seq<nat>)
    requires rest != [] && Kept(before, after) && FlaggedBut(before, n, rest)
    requires rest[0] < |after| && after[rest[0]].dispatched
    ensures FlaggedBut(after, n, rest[1..])
  {
    forall i: nat | i < n ensures after[i].dispatched || i in rest[1..] {
      if i != rest[0] && i in rest {
        var k :| 0 <= k < |rest| && rest[k] == i;
        assert rest[1..][k - 1] == i;
      }
    }
  }

  // What TryStartProcessing reports; Thrown also stands for a run the host gave up on.
  datatype Start = Started | AlreadyProcessed | InProgress | Thrown

  // How an insert ends.
  datatype Reply = Done | Conflict | Throws

  datatype Replayed = Nothing | All | Broken

  class KeyStore {
    const cmd: Command
    ghost const start: KeyState
    var s: KeyState
    var now: int
    ghost var past: seq<Moment>

    constructor (cmd: Command, s: KeyState, now: int)
      ensures this.cmd == cmd && this.start == this.s == s && this.now == now
      ensures Valid() && past == []
    {
      this.cmd, this.start, this.s, this.now, this.past := cmd, s, s, now, [];
    }

    ghost predicate Valid()
      reads this
    {
      && IsHistory(cmd, start, past)
      && s == Before(start, past, |past|)
      && (past != [] ==> past[|past| - 1].now <= now)
    }

    // Run w stands at pc, inside the try block iff held.
    ghost predicate At(w: nat, held: bool, pc: Pc)
      reads this
    {
      w in s.workers && s.workers[w].pc == pc && s.workers[w].hold.Some? == held
    }

    // The first n events are there and flagged.
    ghost predicate AllFlaggedOf(n: nat)
      reads this
    {
      n <= |s.events| && AllFlagged(s.events, n)
    }

    // The row is the version that run w wrote, replacing version consumed.
    ghost predicate Owns(w: nat, consumed: Option<nat>)
      reads this
    {
      && w in s.workers && s.workers[w].hold.Some?
      && var h := s.workers[w].hold.value;
         s.record == Processing(Some(h.stamp), h.etag) && h.etag in s.claims && s.claims[h.etag] == Claim(w, consumed)
    }

    // Record and events are those of t.
    ghost predicate Unchanged(t: KeyState)
      reads this
    {
      s.events == t.events && s.record == t.record
    }

    // Run w has rest still to replay.
    ghost predicate Replaying(w: nat, held: bool, rest: seq<nat>)
      reads this
    {
      At(w, held, if rest != [] then Replay(rest) else if held then Succeed else Returned)
    }

    // Other runs, the cleaner and the clock: w learns only that its own position is untouched.  When it
    // is alone only the clock moves.
    method Interleave(w: nat, alone: bool)
      requires Valid() && w in s.workers
      modifies this
      ensures Valid() && old(past) <= past && old(now) <= now
      ensures w in s.workers && s.workers[w] == old(s.workers[w])
      ensures alone ==> s == old(s)
    {
    }

    // What others do is lawful, so stored events and their flags stay.
    method Others(w: nat, alone: bool)
      requires Valid() && w in s.workers
      modifies this
      ensures Valid() && old(past) <= past && old(now) <= now
      ensures w in s.workers && s.workers[w] == old(s.workers[w])
      ensures Kept(old(s.events), s.events)
      ensures alone ==> s == old(s)
    {
      ghost var before := past;
      Interleave(w, alone);
      HistoryKeeps(cmd, start, past, |before|, |past|);
    }

    // How the outside world decides the next call; no call of a run that is alone fails.
    method Outside(alone: bool) returns (c: Choice)
      ensures alone ==> Smooth(c)
    {
      c := Choice(Ok, [], [], Refuses, false, Accepts);
    }

    // Run w takes one step.
    method Take(w: nat, c: Choice, t: KeyState)
      requires Valid() && WorkerStep(cmd, now, s, w, c, t)
      modifies this
      ensures Valid() && s == t && now == old(now)
      ensures past == old(past) + [Moment(now, Run(w, c), t)]
    {
      HistoryGrows(cmd, start, past, Moment(now, Run(w, c), t));
      past := past + [Moment(now, Run(w, c), t)];
      s := t;
    }

    // ------------------------------------------------------------------
    // Storage calls

    method Receive(w: nat) returns (stamp: int)
      requires Valid() && w !in s.workers
      modifies this
      ensures Valid() && old(past) <= past && At(w, false, Insert(stamp))
      ensures Unchanged(old(s)) && now == old(now)
    {
      stamp := now;
      var t := Goto(s, w, None, Insert(now));
      HistoryGrows(cmd, start, past, Moment(now, Deliver(w), t));
      past := past + [Moment(now, Deliver(w), t)];
      s := t;
    }

    // The host stops waiting for the run.
    method GiveUp(w: nat)
      requires Valid() && w in s.workers
      modifies this
      ensures Valid() && old(past) <= past && now == old(now) && At(w, false, Threw)
    {
      var t := Exit(s, w, Threw);
      HistoryGrows(cmd, start, past, Moment(now, Crash(w), t));
      past := past + [Moment(now, Crash(w), t)];
      s := t;
    }

    method AddReservation(w: nat, stamp: int, alone: bool) returns (r: Reply)
      requires Valid() && At(w, false, Insert(stamp))
      modifies this
      ensures Valid() && old(past) <= past
      ensures r.Done? ==> At(w, true, Find) && Owns(w, None)
      ensures r.Conflict? ==> At(w, false, Lookup(stamp))
      ensures r.Throws? ==> At(w, false, Threw)
      ensures old(now) <= now
      ensures alone ==> s.events == old(s.events)
      ensures alone ==> if old(s.record).Absent? then r.Done? else r.Conflict? && s.record == old(s.record)
    {
      Others(w, alone);
      var c := Outside(alone);
      if c.f.ThrewBefore? {
        r := Throws;
        Take(w, c, Exit(s, w, Threw));
      } else if !s.record.Absent? {
        r := Conflict;
        Take(w, c.(f := Ok), Goto(s, w, None, Lookup(stamp)));
      } else {
        var t := WriteProcessing(s, w, stamp, None);
        if c.f.Ok? {
          r := Done;
          Take(w, c, Goto(t, w, Some(Hold(stamp, s.nextEtag)), Find));
        } else if c.f.Retried? {
          r := Conflict;
          Take(w, c, Goto(t, w, None, Lookup(stamp)));
        } else {
          r := Throws;
          Take(w, c, Exit(t, w, Threw));
        }
      }
    }

    method GetIdempotencyRecord(w: nat, stamp: int, alone: bool) returns (ok: bool, record: Record)
      requires Valid() && At(w, false, Lookup(stamp))
      modifies this
      ensures Valid() && old(past) <= past
      ensures !ok ==> At(w, false, Threw)
      ensures ok ==>
        match record
        case Absent => At(w, false, Insert(stamp))
        case Completed(_, _) => At(w, false, Find)
        case Processing(u, e) => At(w, false, Judge(u, e))
      ensures old(now) <= now
      ensures alone ==> ok && record == old(s.record) && Unchanged(old(s))
    {
      Others(w, alone);
      var c := Outside(alone);
      ok, record := c.f.Ok?, s.record;
      if ok {
        var pc := match s.record
                  case Absent => Insert(stamp)
                  case Completed(_, _) => Find
                  case Processing(u, e) => Judge(u, e);
        Take(w, c, Goto(s, w, None, pc));
      } else {
        Take(w, c.(f := ThrewBefore), Exit(s, w, Threw));
      }
    }

    method IsProcessingStale(w: nat, seen: Option<int>, etag: nat, alone: bool) returns (stale: bool)
      requires Valid() && At(w, false, Judge(seen, etag))
      modifies this
      ensures Valid() && old(past) <= past
      ensures At(w, false, if stale then TakeOver(etag) else Returned)
      ensures old(now) <= now
      ensures alone ==> Unchanged(old(s)) && (Stale(seen, old(now)) ==> stale) && (stale ==> Stale(seen, now))
    {
      Others(w, alone);
      var c := Outside(alone);
      stale := seen.None? || now - seen.value >= LEASE;
      Take(w, c, if stale then Goto(s, w, None, TakeOver(etag)) else Exit(s, w, Returned));
    }

    method TryReclaimProcessing(w: nat, etag: nat, alone: bool) returns (r: Start)
      requires Valid() && At(w, false, TakeOver(etag))
      modifies this
      ensures Valid() && old(past) <= past && !r.AlreadyProcessed?
      ensures r.Started? ==> At(w, true, Find) && Owns(w, Some(etag))
      ensures r.InProgress? ==> At(w, false, Returned)
      ensures r.Thrown? ==> At(w, false, Threw)
      ensures old(now) <= now
      ensures alone ==> s.events == old(s.events)
      ensures alone && !old(s.record).Absent? && old(s.record).etag == etag ==> r.Started?
    {
      Others(w, alone);
      var stamp := now;
      var c := Outside(alone);
      Take(w, c, Goto(s, w, None, Reclaim(stamp, etag)));
      r := ReplaceReservation(w, stamp, etag, alone);
    }

    method ReplaceReservation(w: nat, stamp: int, etag: nat, alone: bool) returns (r: Start)
      requires Valid() && At(w, false, Reclaim(stamp, etag))
      modifies this
      ensures Valid() && old(past) <= past && !r.AlreadyProcessed?
      ensures r.Started? ==> At(w, true, Find) && Owns(w, Some(etag))
      ensures r.InProgress? ==> At(w, false, Returned)
      ensures r.Thrown? ==> At(w, false, Threw)
      ensures old(now) <= now
      ensures alone ==> s.events == old(s.events)
      ensures alone && !old(s.record).Absent? && old(s.record).etag == etag ==> r.Started?
    {
      Others(w, alone);
      var c := Outside(alone);
      if c.f.ThrewBefore? {
        r := Thrown;
        Take(w, c, Exit(s, w, Threw));
      } else if s.record.Absent? || s.record.etag != etag {
        r := InProgress;
        Take(w, c.(f := Ok), Exit(s, w, Returned));
      } else {
        var t := WriteProcessing(s, w, stamp, Some(etag));
        if c.f.Ok? {
          r := Started;
          Take(w, c, Goto(t, w, Some(Hold(stamp, s.nextEtag)), Find));
        } else if c.f.Retried? {
          r := InProgress;
          Take(w, c, Exit(t, w, Returned));
        } else {
          r := Thrown;
          Take(w, c, Exit(t, w, Threw));
        }
      }
    }

    // The positions of the stored events that are not flagged yet.
    method PendingEvents() returns (rest: seq<nat>)
      ensures Pending(rest, s.events)
    {
      rest := [];
      for i := 0 to |s.events|
        invariant forall j: nat :: j in rest <==> j < i && !s.events[j].dispatched
      {
        if !s.events[i].dispatched {
          rest := rest + [i];
        }
      }
    }

    method FindByIdempotencyKey(w: nat, held: bool, alone: bool) returns (r: Replayed, rest: seq<nat>)
      requires Valid() && At(w, held, Find)
      modifies this
      ensures Valid() && old(past) <= past && old(now) <= now
      ensures r.Nothing? ==> At(w, held, if held then Decide else Returned) && old(s.events) == []
      ensures r.Broken? ==> At(w, held, if held then Fail else Threw)
      ensures r.All? ==> Replaying(w, held, rest) && s.events != [] && FlaggedBut(s.events, |s.events|, rest)
      ensures Kept(old(s.events), s.events)
      ensures alone ==> !r.Broken? && Unchanged(old(s)) && (r.Nothing? <==> s.events == [])
    {
      Others(w, alone);
      var c := Outside(alone);
      rest := [];
      if !c.f.Ok? {
        r := Broken;
        Take(w, c.(f := ThrewBefore), Unwind(s, w, s.workers[w].hold));
      } else if s.events == [] {
        r := Nothing;
        Take(w, c, Goto(s, w, s.workers[w].hold, if held then Decide else Returned));
      } else {
        r := All;
        rest := PendingEvents();
        PendingLeavesFlagged(s.events, rest);
        Take(w, c.(rest := rest), ReplayOn(s, w, s.workers[w].hold, rest));
      }
    }

    // ResilientEventDispatcher.Dispatch of event id during a replay
    method DispatchStored(w: nat, held: bool, rest: seq<nat>, alone: bool) returns (ok: bool)
      requires Valid() && At(w, held, Replay(rest)) && rest != []
      modifies this
      ensures Valid() && old(past) <= past && old(now) <= now && Kept(old(s.events), s.events)
      ensures At(w, held, if ok then ReplayFlag(rest) else if held then Fail else Threw)
      ensures alone ==> ok && Unchanged(old(s))
    {
      Others(w, alone);
      var c := Outside(alone);
      var d := DispatchEvent(c.queue, c.cancelled, c.fallback);
      ok := d.returned;
      var hold := s.workers[w].hold;
      var t := s.(accepted := s.accepted + Copies(rest[0], d.Takers()));
      Take(w, c, if ok then Goto(t, w, hold, ReplayFlag(rest)) else Unwind(t, w, hold));
    }

    method DispatchNew(w: nat, plan: seq<EventKind>, i: nat, id: nat, alone: bool) returns (ok: bool)
      requires Valid() && At(w, true, Dispatch(plan, i, id))
      modifies this
      ensures Valid() && old(past) <= past && old(now) <= now && Kept(old(s.events), s.events)
      ensures At(w, true, if ok then Flag(plan, i, id) else Fail)
      ensures alone ==> ok && Unchanged(old(s))
    {
      Others(w, alone);
      var c := Outside(alone);
      var d := DispatchEvent(c.queue, c.cancelled, c.fallback);
      ok := d.returned;
      var hold := s.workers[w].hold;
      var t := s.(accepted := s.accepted + Copies(id, d.Takers()));
      Take(w, c, if ok then Goto(t, w, hold, Flag(plan, i, id)) else Unwind(t, w, hold));
    }

    method MarkStoredAsDispatched(w: nat, held: bool, rest: seq<nat>, alone: bool) returns (ok: bool)
      requires Valid() && At(w, held, ReplayFlag(rest)) && rest != [] && rest[0] < |s.events|
      modifies this
      ensures Valid() && old(past) <= past && old(now) <= now && Kept(old(s.events), s.events)
      ensures ok ==> Replaying(w, held, rest[1..]) && s.events[rest[0]].dispatched
      ensures !ok ==> At(w, held, if held then Fail else Threw)
      ensures alone ==> ok && |s.events| == |old(s.events)| && s.record == old(s.record)
    {
      Others(w, alone);
      var c := Outside(alone);
      var hold := s.workers[w].hold;
      ok := c.f.Ok? || c.f.Retried?;
      var t := if c.f.ThrewBefore? then s else SetFlag(s, rest[0]);
      Take(w, c, if ok then Goto(t, w, hold, AfterReplayFlag(hold, rest[1..])) else Unwind(t, w, hold));
    }

    method MarkNewAsDispatched(w: nat, plan: seq<EventKind>, i: nat, id: nat, alone: bool) returns (ok: bool)
      requires Valid() && At(w, true, Flag(plan, i, id)) && id < |s.events|
      modifies this
      ensures Valid() && old(past) <= past && old(now) <= now && Kept(old(s.events), s.events)
      ensures ok ==> AnyFlagged(s.events)
      ensures At(w, true, if ok then AfterFlag(plan, i) else Fail)
      ensures alone ==> ok && s.events == old(s.events)[id := old(s.events)[id].(dispatched := true)]
    {
      Others(w, alone);
      var c := Outside(alone);
      var hold := s.workers[w].hold;
      ok := c.f.Ok? || c.f.Retried?;
      var t := if c.f.ThrewBefore? then s else SetFlag(s, id);
      if ok {
        assert t.events[id].dispatched;
      }
      Take(w, c, if ok then Goto(t, w, hold, AfterFlag(plan, i)) else Unwind(t, w, hold));
    }

    // The handler settles what to emit; for LoginUser that is the Exists query, which may throw.
    method Settle(w: nat, plan: seq<EventKind>, throws: bool, alone: bool)
      requires Valid() && At(w, true, Decide) && Chooses(cmd, plan)
      modifies this
      ensures Valid() && old(past) <= past && old(now) <= now && Kept(old(s.events), s.events)
      ensures At(w, true, if throws then Fail else Add(plan, 0))
      ensures alone ==> Unchanged(old(s))
    {
      Others(w, alone);
      var c := Outside(alone);
      var hold := s.workers[w].hold;
      if throws {
        Take(w, c.(f := ThrewBefore), Unwind(s, w, hold));
      } else {
        Take(w, c.(f := Ok, plan := plan), Goto(s, w, hold, Add(plan, 0)));
      }
    }

    method AddEvent(w: nat, plan: seq<EventKind>, i: nat, alone: bool) returns (ok: bool, id: nat)
      requires Valid() && At(w, true, Add(plan, i)) && i < |plan|
      modifies this
      ensures Valid() && old(past) <= past && old(now) <= now && Kept(old(s.events), s.events)
      ensures ok ==> id < |s.events| && s.events[id] == StoredEvent(plan[i], false)
      ensures At(w, true, if ok then Dispatch(plan, i, id) else Fail)
      ensures alone ==> ok && id == |old(s.events)| && s.events == old(s.events) + [StoredEvent(plan[i], false)]
    {
      Others(w, alone);
      var c := Outside(alone);
      var hold := s.workers[w].hold;
      ok, id := c.f.Ok?, |s.events|;
      if ok {
        Take(w, c, Goto(AppendEvent(s, plan, i), w, hold, Dispatch(plan, i, id)));
      } else {
        Take(w, c, Unwind(if c.f.ThrewBefore? then s else AppendEvent(s, plan, i), w, hold));
      }
    }

    method MarkProcessingSucceeded(w: nat, alone: bool) returns (ok: bool)
      requires Valid() && At(w, true, Succeed)
      modifies this
      ensures Valid() && old(past) <= past && old(now) <= now && Kept(old(s.events), s.events)
      ensures ok ==> s.record.Completed? && At(w, false, Returned)
      ensures !ok ==> At(w, true, Fail)
      ensures alone ==> ok && s.events == old(s.events)
    {
      Others(w, alone);
      var c := Outside(alone);
      var hold := s.workers[w].hold;
      ok := c.f.Ok? || c.f.Retried?;
      if ok {
        Take(w, c, Exit(WriteCompleted(s, now), w, Returned));
      } else {
        Take(w, c, Unwind(if c.f.ThrewBefore? then s else WriteCompleted(s, now), w, hold));
      }
    }

    method MarkProcessingFailed(w: nat, alone: bool)
      requires Valid() && At(w, true, Fail)
      modifies this
      ensures Valid() && old(past) < past && old(now) <= now && At(w, false, Threw) && JustCaught(w)
      ensures alone ==> s.record.Absent? && s.events == old(s.events)
    {
      Others(w, alone);
      var c := Outside(alone);
      Take(w, c, Exit(if c.f.ThrewBefore? then s else s.(record := Absent), w, Threw));
    }

    // ------------------------------------------------------------------
    // The code above the storage calls

    // Run w stands where the handler takes up the answer r.
    ghost predicate Answered(w: nat, r: Start)
      reads this
    {
      match r
      case Started => At(w, true, Find) && exists consumed :: Owns(w, consumed)
      case AlreadyProcessed => At(w, false, Find)
      case InProgress => At(w, false, Returned)
      case Thrown => At(w, false, Threw)
    }

    // A run that is alone and comes at the right time is let in; t is the state it found.
    ghost predicate Admitted(r: Start, t: KeyState)
      reads this
    {
      && s.events == t.events
      && if t.record.Completed? then r.AlreadyProcessed? && s.record == t.record else r.Started?
    }

    // The conflict case of the loop; None: the competing record was gone, try again
    method Contend(w: nat, stamp: int, alone: bool) returns (r: Option<Start>)
      requires Valid() && At(w, false, Lookup(stamp))
      modifies this
      ensures Valid() && old(past) <= past
      ensures r.None? ==> At(w, false, Insert(stamp))
      ensures r.Some? ==> Answered(w, r.value)
      ensures alone && !old(s.record).Absent? ==> r.Some?
      ensures alone && r.Some? && Ready(old(now), old(s.record)) ==> Admitted(r.value, old(s))
      ensures old(now) <= now
      ensures alone && !Ready(now, old(s.record)) ==> r == Some(InProgress) && Unchanged(old(s))
    {
      var ok, record := GetIdempotencyRecord(w, stamp, alone);
      if !ok {
        return Some(Thrown);
      }
      if record.Absent? {
        return None;
      }
      if record.Completed? {
        return Some(AlreadyProcessed);
      }
      var stale := IsProcessingStale(w, record.updatedAt, record.etag, alone);
      if !stale {
        return Some(InProgress);
      }
      var answer := TryReclaimProcessing(w, record.etag, alone);
      r := Some(answer);
    }

    // patience: how many rounds of the loop the host allows before it stops the run.
    method TryStartProcessing(w: nat, stamp: int, patience: nat, alone: bool) returns (r: Start)
      requires Valid() && At(w, false, Insert(stamp))
      modifies this
      ensures Valid() && old(past) <= past && Answered(w, r)
      ensures old(now) <= now
      ensures alone && patience > 0 && Ready(old(now), old(s.record)) ==> Admitted(r, old(s))
      ensures alone && patience > 0 && !Ready(now, old(s.record)) ==> r == InProgress && Unchanged(old(s))
    {
      var rounds := patience;
      while rounds > 0
        invariant Valid() && old(past) <= past && At(w, false, Insert(stamp))
        invariant old(now) <= now
        invariant alone && patience > 0 ==> rounds == patience && Unchanged(old(s))
      {
        rounds := rounds - 1;
        var reply := AddReservation(w, stamp, alone);
        if reply.Done? {
          return Started;
        }
        if reply.Throws? {
          return Thrown;
        }
        var answer := Contend(w, stamp, alone);
        if answer.Some? {
          return answer.value;
        }
      }
      GiveUp(w);
      r := Thrown;
    }

    // One turn of the replay loop
    method ReplayOne(w: nat, held: bool, rest: seq<nat>, ghost n: nat, alone: bool) returns (ok: bool)
      requires Valid() && Replaying(w, held, rest) && rest != [] && FlaggedBut(s.events, n, rest)
      modifies this
      ensures Valid() && old(past) <= past && old(now) <= now && Kept(old(s.events), s.events)
      ensures ok ==> Replaying(w, held, rest[1..]) && FlaggedBut(s.events, n, rest[1..])
      ensures !ok ==> At(w, held, if held then Fail else Threw)
      ensures alone ==> ok && |s.events| == |old(s.events)| && s.record == old(s.record)
    {
      ghost var before := s.events;
      ok := DispatchStored(w, held, rest, alone);
      if !ok {
        return;
      }
      StillFlaggedBut(before, s.events, n, rest);
      ghost var dispatched := s.events;
      ok := MarkStoredAsDispatched(w, held, rest, alone);
      KeptThrough(before, dispatched, s.events);
      if ok {
        FlagsHead(dispatched, s.events, n, rest);
      }
    }

    method ReplayStoredEvents(w: nat, held: bool, alone: bool) returns (r: Replayed)
      requires Valid() && At(w, held, Find)
      modifies this
      ensures Valid() && old(past) <= past && old(now) <= now && Kept(old(s.events), s.events)
      ensures r.Nothing? ==> At(w, held, if held then Decide else Returned) && old(s.events) == []
      ensures r.Broken? ==> At(w, held, if held then Fail else Threw)
      ensures r.All? ==> At(w, held, if held then Succeed else Returned)
      ensures r.All? ==> AnyFlagged(s.events) && AllFlaggedOf(|old(s.events)|)
      ensures alone ==> !r.Broken? && |s.events| == |old(s.events)| && s.record == old(s.record)
      ensures alone ==> (r.Nothing? <==> old(s.events) == [])
    {
      var rest: seq<nat>;
      r, rest := FindByIdempotencyKey(w, held, alone);
      if !r.All? {
        return;
      }
      ghost var n := |s.events|;
      while rest != []
        invariant Valid() && old(past) <= past && old(now) <= now && Kept(old(s.events), s.events)
        invariant alone ==> |s.events| == |old(s.events)| && s.record == old(s.record)
        invariant Replaying(w, held, rest) && 0 < n && |old(s.events)| <= n && FlaggedBut(s.events, n, rest)
        decreases |rest|
      {
        ghost var before := s.events;
        var ok := ReplayOne(w, held, rest, n, alone);
        KeptThrough(old(s.events), before, s.events);
        if !ok {
          return Broken;
        }
        rest := rest[1..];
      }
      assert s.events[0].dispatched;
    }

    // Add, Dispatch and MarkAsDispatched of the i-th event
    method Emit(w: nat, plan: seq<EventKind>, i: nat, alone: bool) returns (ok: bool)
      requires Valid() && At(w, true, Add(plan, i)) && i < |plan|
      modifies this
      ensures Valid() && old(past) <= past && old(now) <= now && Kept(old(s.events), s.events)
      ensures ok ==> AnyFlagged(s.events)
      ensures At(w, true, if ok then AfterFlag(plan, i) else Fail)
      ensures alone ==> ok && s.events == old(s.events) + [StoredEvent(plan[i], true)]
    {
      var id;
      ghost var before := s.events;
      ok, id := AddEvent(w, plan, i, alone);
      if !ok {
        return;
      }
      ghost var added := s.events;
      ok := DispatchNew(w, plan, i, id, alone);
      KeptThrough(before, added, s.events);
      if !ok {
        return;
      }
      ghost var dispatched := s.events;
      ok := MarkNewAsDispatched(w, plan, i, id, alone);
      KeptThrough(before, dispatched, s.events);
    }

    // Everything stored is flagged: what was there before, or when there was nothing what the command
    // emits, for a user that is known or new.
    ghost predicate Emitted(before: seq<StoredEvent>, known: bool)
      reads this
    {
      if before != [] then |s.events| == |before| && AllFlaggedOf(|before|) && Kept(before, s.events)
      else match cmd
        case CreateTask => s.events == [StoredEvent(TaskCreated, true)]
        case LoginUser =>
          if known then s.events == [StoredEvent(UserLoggedIn, true)]
          else s.events == [StoredEvent(UserCreated, true), StoredEvent(SettingsCreated, true)]
    }

    // The last call of both try blocks
    method Finish(w: nat, ghost n: nat, alone: bool) returns (ok: bool)
      requires Valid() && At(w, true, Succeed) && AnyFlagged(s.events) && AllFlaggedOf(n)
      modifies this
      ensures Valid() && old(past) <= past && old(now) <= now
      ensures ok ==> s.record.Completed? && At(w, false, Returned) && AnyFlagged(s.events) && AllFlaggedOf(n)
      ensures !ok ==> At(w, true, Fail)
      ensures alone ==> ok && s.events == old(s.events)
    {
      ghost var before := s.events;
      ok := MarkProcessingSucceeded(w, alone);
      StillFlagged(before, s.events, n);
    }

    // Emits the task-created event
    method EmitCreation(w: nat, alone: bool) returns (ok: bool)
      requires Valid() && At(w, true, Decide) && cmd == CreateTask
      modifies this
      ensures Valid() && old(past) <= past && old(now) <= now
      ensures ok ==> AnyFlagged(s.events)
      ensures At(w, true, if ok then Succeed else Fail)
      ensures alone ==> ok && s.events == old(s.events) + [StoredEvent(TaskCreated, true)]
    {
      Settle(w, [TaskCreated], false, alone);
      ok := Emit(w, [TaskCreated], 0, alone);
    }

    // The try block of CreateTask
    method CreateTaskBody(w: nat, alone: bool) returns (ok: bool)
      requires Valid() && At(w, true, Find) && cmd == CreateTask
      modifies this
      ensures Valid() && old(past) <= past && old(now) <= now
      ensures ok ==> s.record.Completed? && At(w, false, Returned)
      ensures ok ==> AnyFlagged(s.events) && AllFlaggedOf(|old(s.events)|)
      ensures !ok ==> At(w, true, Fail)
      ensures alone ==> ok && Emitted(old(s.events), true)
    {
      var replayed := ReplayStoredEvents(w, true, alone);
      if replayed.Broken? {
        return false;
      }
      if replayed.Nothing? {
        ok := EmitCreation(w, alone);
        if !ok {
          return;
        }
      }
      ok := Finish(w, |old(s.events)|, alone);
    }

    // What LoginUser emits, after it asked whether the user is known
    method EmitLogin(w: nat, known: bool, queryFails: bool, alone: bool) returns (ok: bool)
      requires Valid() && At(w, true, Decide) && cmd == LoginUser
      modifies this
      ensures Valid() && old(past) <= past && old(now) <= now
      ensures ok ==> AnyFlagged(s.events)
      ensures At(w, true, if ok then Succeed else Fail)
      ensures alone && queryFails ==> !ok && s.events == old(s.events)
      ensures alone && !queryFails && known ==> ok && s.events == old(s.events) + [StoredEvent(UserLoggedIn, true)]
      ensures alone && !queryFails && !known ==>
        && ok
        && s.events == old(s.events) + [StoredEvent(UserCreated, true), StoredEvent(SettingsCreated, true)]
    {
      var plan := if known then [UserLoggedIn] else [UserCreated, SettingsCreated];
      Settle(w, plan, queryFails, alone);
      if queryFails {
        return false;
      }
      if known {
        ok := Emit(w, plan, 0, alone);
      } else {
        ok := EmitNewUser(w, plan, alone);
      }
    }

    // The two events of a user that logs in for the first time
    method EmitNewUser(w: nat, plan: seq<EventKind>, alone: bool) returns (ok: bool)
      requires Valid() && At(w, true, Add(plan, 0)) && plan == [UserCreated, SettingsCreated]
      modifies this
      ensures Valid() && old(past) <= past && old(now) <= now
      ensures ok ==> AnyFlagged(s.events)
      ensures At(w, true, if ok then Succeed else Fail)
      ensures alone ==>
        && ok
        && s.events == old(s.events) + [StoredEvent(UserCreated, true), StoredEvent(SettingsCreated, true)]
    {
      ok := Emit(w, plan, 0, alone);
      if !ok {
        return;
      }
      ok := Emit(w, plan, 1, alone);
    }

    // The try block of LoginUser; known and queryFails are what the Exists query answers
    method LoginUserBody(w: nat, known: bool, queryFails: bool, alone: bool) returns (ok: bool)
      requires Valid() && At(w, true, Find) && cmd == LoginUser
      modifies this
      ensures Valid() && old(past) <= past && old(now) <= now
      ensures ok ==> s.record.Completed? && At(w, false, Returned)
      ensures ok ==> AnyFlagged(s.events) && AllFlaggedOf(|old(s.events)|)
      ensures !ok ==> At(w, true, Fail)
      ensures alone && !(queryFails && old(s.events) == []) ==> ok && Emitted(old(s.events), known)
      ensures alone && queryFails && old(s.events) == [] ==> !ok && s.events == []
    {
      var replayed := ReplayStoredEvents(w, true, alone);
      if replayed.Broken? {
        return false;
      }
      if replayed.Nothing? {
        ok := EmitLogin(w, known, queryFails, alone);
        if !ok {
          return;
        }
      }
      ok := Finish(w, |old(s.events)|, alone);
    }

    // The try block and its catch
    method Process(w: nat, known: bool, queryFails: bool, alone: bool) returns (ok: bool)
      requires Valid() && At(w, true, Find)
      modifies this
      ensures Valid() && old(past) <= past && old(now) <= now
      ensures At(w, false, if ok then Returned else Threw)
      ensures ok ==> s.record.Completed? && AnyFlagged(s.events) && AllFlaggedOf(|old(s.events)|)
      ensures !ok ==> old(past) < past && JustCaught(w)
      ensures alone && !Thwarted(queryFails, old(s.events)) ==> ok && Emitted(old(s.events), known)
      ensures alone && Thwarted(queryFails, old(s.events)) ==> !ok && s.record.Absent? && s.events == []
    {
      if cmd == CreateTask {
        ok := CreateTaskBody(w, alone);
      } else {
        ok := LoginUserBody(w, known, queryFails, alone);
      }
      if !ok {
        MarkProcessingFailed(w, alone);
      }
    }

    // The one call that may fail a run that is alone: LoginUser asks for the user, and the query throws.
    ghost predicate Thwarted(queryFails: bool, events: seq<StoredEvent>)
      reads this
    {
      cmd == LoginUser && queryFails && events == []
    }

    // The last step of the history was the catch block of run w; its delete took the record away, unless
    // it threw before it took effect.
    ghost predicate JustCaught(w: nat)
      reads this
    {
      && past != []
      && var last := past[|past| - 1];
         && last.action.Run? && last.action.w == w
         && var before := Before(start, past, |past| - 1);
            && w in before.workers && before.workers[w].pc == Fail
            && (last.action.c.f.ThrewBefore? || last.after.record.Absent?)
    }

    /** One delivery of the command, from receipt to return or exception.  Alone, with no call failing
        and a record that is absent, stale or Completed with its events, it returns, the record is Completed
        and everything is flagged; on a key with nothing stored it stores exactly what the command emits. */
    method Handle(w: nat, patience: nat, known: bool, queryFails: bool, alone: bool) returns (ok: bool)
      requires Valid() && w !in s.workers
      modifies this
      ensures Valid() && old(past) <= past
      ensures At(w, false, if ok then Returned else Threw)
      ensures alone && patience > 0 && Ready(old(now), old(s.record)) && !Thwarted(queryFails, old(s.events))
              && (old(s.record).Completed? ==> old(s.events) != []) ==>
                ok && s.record.Completed? && Emitted(old(s.events), known)
      ensures alone && patience > 0 && Ready(old(now), old(s.record)) && Thwarted(queryFails, old(s.events))
              && !old(s.record).Completed? ==>
                !ok && s.record.Absent? && s.events == []
      // a row that somebody else still holds sends it away, with nothing touched
      ensures alone && patience > 0 && !Ready(now, old(s.record)) ==> ok && Unchanged(old(s))
    {
      var stamp := Receive(w);
      var answer := TryStartProcessing(w, stamp, patience, alone);
      if answer.Thrown? {
        return false;
      }
      if answer.AlreadyProcessed? {
        var replayed := ReplayStoredEvents(w, false, alone);
        return !replayed.Broken?;
      }
      if answer.InProgress? {
        return true;
      }
      ok := Process(w, known, queryFails, alone);
    }
  }

  ghost predicate LeaseAt(start: KeyState, past: seq<Moment>, i: nat)
    requires i < |past|
  {
    WithinLease(past[i].now, Before(start, past, i), past[i].action)
  }

  /** A history that starts with nothing stored and keeps the lease satisfies the whole invariant
      at each of its steps, however many runs of the handlers above it holds. */
  lemma {:induction false} HistoryInv(cmd: Command, start: KeyState, past: seq<Moment>, n: nat)
    requires IsHistory(cmd, start, past) && InitKey(start) && n < |past|
    requires forall i: nat | i < |past| :: LeaseAt(start, past, i)
    ensures KeyInv(cmd, past[n].now, past[n].after)
  {
    var now, s := past[n].now, Before(start, past, n);
    assert StepAt(cmd, start, past, n) && LeaseAt(start, past, n);
    if n == 0 {
      InitInv(cmd, now, s);
    } else {
      HistoryInv(cmd, start, past, n - 1);
      TickInv(cmd, past[n - 1].now, now, s);
    }
    StepInv(cmd, now, s, past[n].action, past[n].after);
  }
}
