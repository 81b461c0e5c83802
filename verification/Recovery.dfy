/**
 Recovery: whatever crashes and failures a key has been through, one more delivery that nobody
 disturbs and no call of which fails brings the key to its end, provided it comes when the record is
 absent, Completed or stale, and takes less than the lease.  Other keys may do anything meanwhile.
 */
module Recovery {
  import opened Options
  import opened StorageFaults
  import opened IdempotencyProtocol
  import opened IdempotencyInvariant
  import opened LeaseInvariant
  import opened DomainService

  // What the key has come to in the end.
  ghost predicate Finished(s: KeyState) {
    s.record.Completed? && s.events != [] && AllFlagged(s.events, |s.events|)
  }

  ghost predicate ReplaysAll(s: KeyState, hold: Option<Hold>, rest: seq<nat>) {
    && rest != [] && AllBelow(rest, |s.events|) && s.events != [] && Covers(rest, s.events)
    && (hold.None? ==> s.record.Completed?)
  }

  // Where an undisturbed delivery that began at time began can stand, and what it finds there.
  ghost predicate OnTheWay(cmd: Command, now: int, began: int, s: KeyState, hold: Option<Hold>, pc: Pc) {
    && (hold.Some? ==> began <= hold.value.stamp)
    && match pc
       case Insert(stamp) => hold.None? && stamp == began && Ready(now, s.record)
       case Lookup(_) => hold.None? && !s.record.Absent? && Ready(now, s.record)
       case Judge(seen, e) => hold.None? && s.record == Processing(seen, e) && Stale(seen, now)
       case TakeOver(e) => hold.None? && s.record.Processing? && s.record.etag == e
       case Reclaim(stamp, e) => hold.None? && s.record.Processing? && s.record.etag == e && began <= stamp
       case Find => hold.None? ==> s.record.Completed? && s.events != []
       case Replay(rest) => ReplaysAll(s, hold, rest)
       case ReplayFlag(rest) => ReplaysAll(s, hold, rest)
       case Decide => hold.Some?
       case Add(plan, i) => hold.Some? && Chooses(cmd, plan) && i < |plan|
       case Dispatch(plan, i, id) => hold.Some? && Chooses(cmd, plan) && i < |plan| && id < |s.events|
       case Flag(plan, i, id) => hold.Some? && Chooses(cmd, plan) && i < |plan| && id < |s.events|
       case Succeed => hold.Some?
       case Returned => Finished(s)
       case Fail => false
       case Threw => false
  }

  ghost predicate Recovering(cmd: Command, now: int, began: int, s: KeyState, w: nat) {
    && KeyInv(cmd, now, s) && began <= now
    && w in s.workers && OnTheWay(cmd, now, began, s, s.workers[w].hold, s.workers[w].pc)
  }

  lemma DeliveryStarts(cmd: Command, now: int, s: KeyState, w: nat, s': KeyState)
    requires KeyInv(cmd, now, s) && Ready(now, s.record) && KeyStep(cmd, now, s, Deliver(w), s')
    ensures Recovering(cmd, now, now, s', w)
  {
    StepInv(cmd, now, s, Deliver(w), s');
  }

  lemma TickRecovers(cmd: Command, now: int, later: int, began: int, s: KeyState, w: nat)
    requires Recovering(cmd, now, began, s, w) && now <= later
    ensures Recovering(cmd, later, began, s, w)
  {
    TickInv(cmd, now, later, s);
  }

  /******* Every smooth step leads on *******/

  lemma ReservationLeadsOn(cmd: Command, now: int, began: int, s: KeyState, w: nat, c: Choice, s': KeyState)
    requires Recovering(cmd, now, began, s, w) && WorkerStep(cmd, now, s, w, c, s') && Smooth(c)
    requires var pc := s.workers[w].pc; pc.Insert? || pc.Lookup? || pc.Judge? || pc.TakeOver? || pc.Reclaim?
    ensures w in s'.workers && OnTheWay(cmd, now, began, s', s'.workers[w].hold, s'.workers[w].pc)
  {
    assert KeyLeased(cmd, s);
    match s.workers[w].pc
    case Insert(stamp) => assert InsertStep(s, w, stamp, Ok, s');
    case Lookup(stamp) => assert LookupStep(s, w, stamp, Ok, s');
    case Judge(seen, e) =>
    case TakeOver(e) =>
    case Reclaim(stamp, e) => assert ReclaimStep(s, w, stamp, e, Ok, s');
  }

  lemma CoversTail(rest: seq<nat>, s: KeyState)
    requires rest != [] && rest[0] < |s.events| && Covers(rest, s.events)
    ensures Covers(rest[1..], SetFlag(s, rest[0]).events)
  {
    var events := SetFlag(s, rest[0]).events;
    forall i: nat | i < |events| && !events[i].dispatched ensures i in rest[1..] {
      assert i != rest[0] && i in rest;
      var k :| 0 <= k < |rest| && rest[k] == i;
      assert rest[1..][k - 1] == i;
    }
  }

  lemma FindLeadsOn(cmd: Command, now: int, began: int, s: KeyState, w: nat, c: Choice, s': KeyState)
    requires Recovering(cmd, now, began, s, w) && s.workers[w].pc.Find? && Smooth(c)
    requires FindStep(s, w, s.workers[w].hold, c.rest, Ok, s')
    ensures w in s'.workers && OnTheWay(cmd, now, began, s', s'.workers[w].hold, s'.workers[w].pc)
  {
    if s.events != [] {
      assert AllBelow(c.rest, |s.events|) by {
        forall k | 0 <= k < |c.rest| ensures c.rest[k] < |s.events| {
          assert c.rest[k] in c.rest;
        }
      }
      assert Covers(c.rest, s.events);
    }
  }

  lemma ReplayLeadsOn(cmd: Command, now: int, began: int, s: KeyState, w: nat, c: Choice, s': KeyState)
    requires Recovering(cmd, now, began, s, w) && WorkerStep(cmd, now, s, w, c, s') && Smooth(c)
    requires s.workers[w].pc.Replay? || s.workers[w].pc.ReplayFlag?
    ensures w in s'.workers && OnTheWay(cmd, now, began, s', s'.workers[w].hold, s'.workers[w].pc)
  {
    var hold := s.workers[w].hold;
    match s.workers[w].pc
    case Replay(rest) => assert DispatchStep(s, w, hold, rest[0], ReplayFlag(rest), c, s');
    case ReplayFlag(rest) =>
      assert FlagStep(s, w, hold, rest[0], AfterReplayFlag(hold, rest[1..]), Ok, s');
      CoversTail(rest, s);
  }

  lemma EmissionLeadsOn(cmd: Command, now: int, began: int, s: KeyState, w: nat, c: Choice, s': KeyState)
    requires Recovering(cmd, now, began, s, w) && WorkerStep(cmd, now, s, w, c, s') && Smooth(c)
    requires var pc := s.workers[w].pc; pc.Decide? || pc.Add? || pc.Dispatch? || pc.Flag?
    ensures w in s'.workers && OnTheWay(cmd, now, began, s', s'.workers[w].hold, s'.workers[w].pc)
  {
    var hold := s.workers[w].hold;
    match s.workers[w].pc
    case Decide =>
    case Add(plan, i) => assert AddStep(s, w, hold, plan, i, Ok, s');
    case Dispatch(plan, i, id) => assert DispatchStep(s, w, hold, id, Flag(plan, i, id), c, s');
    case Flag(plan, i, id) => assert FlagStep(s, w, hold, id, AfterFlag(plan, i), Ok, s');
  }

  lemma SmoothStepLeadsOn(cmd: Command, now: int, began: int, s: KeyState, w: nat, c: Choice, s': KeyState)
    requires Recovering(cmd, now, began, s, w) && WorkerStep(cmd, now, s, w, c, s') && Smooth(c)
    requires WithinLease(now, s, Run(w, c))
    ensures Recovering(cmd, now, began, s', w)
  {
    StepInv(cmd, now, s, Run(w, c), s');
    var pc := s.workers[w].pc;
    if pc.Insert? || pc.Lookup? || pc.Judge? || pc.TakeOver? || pc.Reclaim? {
      ReservationLeadsOn(cmd, now, began, s, w, c, s');
    } else if pc.Find? {
      FindLeadsOn(cmd, now, began, s, w, c, s');
    } else if pc.Replay? || pc.ReplayFlag? {
      ReplayLeadsOn(cmd, now, began, s, w, c, s');
    } else if pc.Succeed? {
      assert SucceedStep(s, now, w, s.workers[w].hold, Ok, s');
      KeyReturnCompletes(cmd, now, s, w, c, s');
    } else {
      EmissionLeadsOn(cmd, now, began, s, w, c, s');
    }
  }

  /******* There is a step, and it brings the end nearer *******/

  function Stage(pc: Pc): nat {
    match pc
    case Insert(_) => 12
    case Lookup(_) => 11
    case Judge(_, _) => 10
    case TakeOver(_) => 9
    case Reclaim(_, _) => 8
    case Find => 7
    case Decide => 6
    case Add(_, _) => 5
    case Dispatch(_, _, _) => 5
    case Flag(_, _, _) => 5
    case Replay(_) => 4
    case ReplayFlag(_) => 4
    case Succeed => 3
    case Fail => 2
    case Returned => 0
    case Threw => 0
  }

  function Left(pc: Pc): int {
    match pc
    case Add(plan, i) => 3 * (|plan| - i)
    case Dispatch(plan, i, _) => 3 * (|plan| - i) - 1
    case Flag(plan, i, _) => 3 * (|plan| - i) - 2
    case Replay(rest) => 2 * |rest|
    case ReplayFlag(rest) => 2 * |rest| - 1
    case _ => 0
  }

  // pc' is nearer to the end of the handler than pc.
  predicate Nearer(pc': Pc, pc: Pc) {
    Stage(pc') < Stage(pc) || (Stage(pc') == Stage(pc) && 0 <= Left(pc') < Left(pc))
  }

  function PendingOf(events: seq<StoredEvent>): (rest: seq<nat>)
    ensures Pending(rest, events)
  {
    if events == [] then []
    else
      var n := |events| - 1;
      var before := PendingOf(events[..n]);
      assert forall i: nat :: i in before <==> i < n && !events[..n][i].dispatched;
      if events[n].dispatched then before else before + [n]
  }

  // An outside world in which no call fails and the handler chooses a plan of its command.
  predicate Kind(cmd: Command, o: Choice) {
    Smooth(o) && Chooses(cmd, o.plan)
  }

  function Best(cmd: Command, s: KeyState, o: Choice): (c: Choice)
    requires Kind(cmd, o)
    ensures Smooth(c)
  {
    o.(rest := PendingOf(s.events))
  }

  lemma ReservationGoesOn(cmd: Command, now: int, began: int, s: KeyState, w: nat, o: Choice) returns (s': KeyState)
    requires Kind(cmd, o)
    requires w in s.workers && OnTheWay(cmd, now, began, s, s.workers[w].hold, s.workers[w].pc)
    requires var pc := s.workers[w].pc; pc.Insert? || pc.Lookup? || pc.Judge? || pc.TakeOver? || pc.Reclaim?
    ensures WorkerStep(cmd, now, s, w, Best(cmd, s, o), s')
    ensures w in s'.workers && Nearer(s'.workers[w].pc, s.workers[w].pc)
  {
    match s.workers[w].pc
    case Insert(stamp) =>
      s' := if !s.record.Absent? then Goto(s, w, None, Lookup(stamp))
            else Goto(WriteProcessing(s, w, stamp, None), w, Some(Hold(stamp, s.nextEtag)), Find);
      assert InsertStep(s, w, stamp, Ok, s');
    case Lookup(stamp) =>
      s' := Goto(s, w, None, if s.record.Completed? then Find else Judge(s.record.updatedAt, s.record.etag));
      assert LookupStep(s, w, stamp, Ok, s');
    case Judge(_, e) => s' := Goto(s, w, None, TakeOver(e));
    case TakeOver(e) => s' := Goto(s, w, None, Reclaim(now, e));
    case Reclaim(stamp, e) =>
      s' := Goto(WriteProcessing(s, w, stamp, Some(e)), w, Some(Hold(stamp, s.nextEtag)), Find);
      assert ReclaimStep(s, w, stamp, e, Ok, s');
  }

  lemma ReplayGoesOn(cmd: Command, now: int, began: int, s: KeyState, w: nat, o: Choice) returns (s': KeyState)
    requires Kind(cmd, o)
    requires w in s.workers && OnTheWay(cmd, now, began, s, s.workers[w].hold, s.workers[w].pc)
    requires var pc := s.workers[w].pc; pc.Find? || pc.Replay? || pc.ReplayFlag?
    ensures WorkerStep(cmd, now, s, w, Best(cmd, s, o), s')
    ensures w in s'.workers && Nearer(s'.workers[w].pc, s.workers[w].pc)
  {
    var hold, c := s.workers[w].hold, Best(cmd, s, o);
    match s.workers[w].pc
    case Find =>
      s' := if s.events == [] then Goto(s, w, hold, Decide) else ReplayOn(s, w, hold, c.rest);
      assert FindStep(s, w, hold, c.rest, Ok, s');
    case Replay(rest) =>
      var n := DispatchEvent(o.queue, o.cancelled, o.fallback).Takers();
      s' := Goto(s.(accepted := s.accepted + Copies(rest[0], n)), w, hold, ReplayFlag(rest));
      assert DispatchStep(s, w, hold, rest[0], ReplayFlag(rest), c, s');
    case ReplayFlag(rest) =>
      s' := Goto(SetFlag(s, rest[0]), w, hold, AfterReplayFlag(hold, rest[1..]));
      assert FlagStep(s, w, hold, rest[0], AfterReplayFlag(hold, rest[1..]), Ok, s');
  }

  lemma EmissionGoesOn(cmd: Command, now: int, began: int, s: KeyState, w: nat, o: Choice) returns (s': KeyState)
    requires Kind(cmd, o)
    requires w in s.workers && OnTheWay(cmd, now, began, s, s.workers[w].hold, s.workers[w].pc)
    requires var pc := s.workers[w].pc; pc.Add? || pc.Dispatch? || pc.Flag?
    ensures WorkerStep(cmd, now, s, w, Best(cmd, s, o), s')
    ensures w in s'.workers && Nearer(s'.workers[w].pc, s.workers[w].pc)
  {
    var hold, c := s.workers[w].hold, Best(cmd, s, o);
    match s.workers[w].pc
    case Add(plan, i) =>
      s' := Goto(AppendEvent(s, plan, i), w, hold, Dispatch(plan, i, |s.events|));
      assert AddStep(s, w, hold, plan, i, Ok, s');
    case Dispatch(plan, i, id) =>
      var n := DispatchEvent(o.queue, o.cancelled, o.fallback).Takers();
      s' := Goto(s.(accepted := s.accepted + Copies(id, n)), w, hold, Flag(plan, i, id));
      assert DispatchStep(s, w, hold, id, Flag(plan, i, id), c, s');
    case Flag(plan, i, id) =>
      s' := Goto(SetFlag(s, id), w, hold, AfterFlag(plan, i));
      assert FlagStep(s, w, hold, id, AfterFlag(plan, i), Ok, s');
  }

  lemma GoesOn(cmd: Command, now: int, began: int, s: KeyState, w: nat, o: Choice) returns (s': KeyState)
    requires Kind(cmd, o)
    requires w in s.workers && OnTheWay(cmd, now, began, s, s.workers[w].hold, s.workers[w].pc)
    requires s.workers[w].pc != Returned
    ensures WorkerStep(cmd, now, s, w, Best(cmd, s, o), s')
    ensures w in s'.workers && Nearer(s'.workers[w].pc, s.workers[w].pc)
  {
    var pc := s.workers[w].pc;
    if pc.Insert? || pc.Lookup? || pc.Judge? || pc.TakeOver? || pc.Reclaim? {
      s' := ReservationGoesOn(cmd, now, began, s, w, o);
    } else if pc.Find? || pc.Replay? || pc.ReplayFlag? {
      s' := ReplayGoesOn(cmd, now, began, s, w, o);
    } else if pc.Add? || pc.Dispatch? || pc.Flag? {
      s' := EmissionGoesOn(cmd, now, began, s, w, o);
    } else if pc.Decide? {
      s' := Goto(s, w, s.workers[w].hold, Add(o.plan, 0));
    } else {
      s' := Exit(WriteCompleted(s, now), w, Returned);
    }
  }

  /******* Whole runs *******/

  // On key k only run w acts, and nothing it calls fails.
  ghost predicate Undisturbed(e: Event, k: Key, w: nat) {
    e.Act? && e.k == k ==> e.a.Run? && e.a.w == w && Smooth(e.a.c)
  }

  lemma {:induction false} RunRecovers(states: seq<System>, events: seq<Event>, m: nat, n: nat, k: Key, w: nat)
    requires IsRunInLease(states, events) && m < n < |states| && k in states[m].keys
    requires events[m] == Act(k, Deliver(w)) && Ready(states[m].now, states[m].keys[k].rows.record)
    requires forall i | m < i < n :: Undisturbed(events[i], k, w)
    ensures k in states[n].keys
    ensures Recovering(states[n].keys[k].cmd, states[n].now, states[m].now, states[n].keys[k].rows, w)
    decreases n
  {
    assert LeaseAt(states, events, n - 1);
    var s, e, s' := states[n - 1], events[n - 1], states[n];
    if n == m + 1 {
      RunInv(states, events, m);
      DeliveryStarts(s.keys[k].cmd, s.now, s.keys[k].rows, w, s'.keys[k].rows);
    } else {
      RunRecovers(states, events, m, n - 1, k, w);
      assert Undisturbed(e, k, w);
      match e
      case Tick(later) => TickRecovers(s.keys[k].cmd, s.now, later, states[m].now, s.keys[k].rows, w);
      case Act(k', a) =>
        if k' == k {
          SmoothStepLeadsOn(s.keys[k].cmd, s.now, states[m].now, s.keys[k].rows, w, a.c, s'.keys[k].rows);
        }
    }
  }

  /** From whatever state a run within the lease has reached, an undisturbed delivery that finds the
      record absent, Completed or stale never throws, and when it returns the record is Completed,
      something is stored and all that is stored is flagged. */
  lemma DeliveryRecovers(states: seq<System>, events: seq<Event>, m: nat, n: nat, k: Key, w: nat)
    requires IsRunInLease(states, events) && m < n < |states| && k in states[m].keys
    requires events[m] == Act(k, Deliver(w)) && Ready(states[m].now, states[m].keys[k].rows.record)
    requires forall i | m < i < n :: Undisturbed(events[i], k, w)
    ensures k in states[n].keys && w in states[n].keys[k].rows.workers
    ensures var s := states[n].keys[k].rows;
      && !s.workers[w].pc.Threw? && !s.workers[w].pc.Fail?
      && (s.workers[w].pc.Returned? ==> Finished(s))
  {
    RunRecovers(states, events, m, n, k, w);
  }

  lemma Extended(states: seq<System>, events: seq<Event>, e: Event, s': System)
    requires IsRunInLease(states, events) && StepInLease(states[|events|], e, s')
    ensures IsRunInLease(states + [s'], events + [e])
  {
    var states', events' := states + [s'], events + [e];
    forall i: nat | i < |events'| ensures LeaseAt(states', events', i) {
      if i < |events| {
        assert LeaseAt(states, events, i);
      }
    }
  }

  ghost predicate KeyRecovers(s: System, began: int, k: Key, w: nat) {
    k in s.keys && Recovering(s.keys[k].cmd, s.now, began, s.keys[k].rows, w)
  }

  function PcOf(s: System, k: Key, w: nat): Pc
    requires k in s.keys && w in s.keys[k].rows.workers
  {
    s.keys[k].rows.workers[w].pc
  }

  // The recovering run takes its next step.
  lemma OneMore(s: System, began: int, k: Key, w: nat, o: Choice) returns (e: Event, s': System)
    requires KeyRecovers(s, began, k, w) && Kind(s.keys[k].cmd, o)
    requires s.now < began + LEASE && PcOf(s, k, w) != Returned
    ensures StepInLease(s, e, s') && Undisturbed(e, k, w)
    ensures s'.now == s.now && KeyRecovers(s', began, k, w) && s'.keys[k].cmd == s.keys[k].cmd
    ensures Nearer(PcOf(s', k, w), PcOf(s, k, w))
  {
    var Entry(cmd, rows) := s.keys[k];
    var rows' := GoesOn(cmd, s.now, began, rows, w, o);
    e := Act(k, Run(w, Best(cmd, rows, o)));
    s' := s.(keys := s.keys[k := Entry(cmd, rows')]);
    SmoothStepLeadsOn(cmd, s.now, began, rows, w, Best(cmd, rows, o), rows');
  }

  // The second run goes on from the first without disturbing run w on key k.
  ghost predicate Continues(states: seq<System>, events: seq<Event>, states': seq<System>, events': seq<Event>,
                            k: Key, w: nat)
  {
    && states <= states' && events <= events'
    && (forall i | |events| <= i < |events'| :: Undisturbed(events'[i], k, w))
  }

  lemma ContinuesByOne(states: seq<System>, events: seq<Event>, e: Event, s: System,
                       states': seq<System>, events': seq<Event>, k: Key, w: nat)
    requires Undisturbed(e, k, w) && Continues(states + [s], events + [e], states', events', k, w)
    ensures Continues(states, events, states', events', k, w)
  {
    assert events'[|events|] == (events + [e])[|events|];
  }

  /** While the lease lasts such a delivery can always go on, whether the queue takes its events or
      refuses them and the fallback does, and reaches its return after finitely many steps. */
  lemma {:induction false} RecoveryCompletes(states: seq<System>, events: seq<Event>, began: int, k: Key, w: nat,
                                             o: Choice)
    returns (states': seq<System>, events': seq<Event>)
    requires IsRunInLease(states, events) && KeyRecovers(states[|events|], began, k, w)
    requires states[|events|].now < began + LEASE && Kind(states[|events|].keys[k].cmd, o)
    ensures IsRunInLease(states', events') && Continues(states, events, states', events', k, w)
    ensures var s := states'[|events'|];
      && s.now == states[|events|].now && KeyRecovers(s, began, k, w)
      && PcOf(s, k, w) == Returned && Finished(s.keys[k].rows)
    decreases Stage(PcOf(states[|events|], k, w)), Left(PcOf(states[|events|], k, w))
  {
    if PcOf(states[|events|], k, w) == Returned {
      states', events' := states, events;
    } else {
      var e, s' := OneMore(states[|events|], began, k, w, o);
      Extended(states, events, e, s');
      states', events' := RecoveryCompletes(states + [s'], events + [e], began, k, w, o);
      ContinuesByOne(states, events, e, s', states', events', k, w);
    }
  }

  /** A key is never lost: every run within the lease that has come to a ready record can be continued,
      by one delivery alone, to a Completed record with all its events flagged. */
  lemma AlwaysRecoverable(states: seq<System>, events: seq<Event>, k: Key, w: nat, o: Choice)
    returns (states': seq<System>, events': seq<Event>)
    requires IsRunInLease(states, events) && k in states[|events|].keys
    requires Kind(states[|events|].keys[k].cmd, o)
    requires var s := states[|events|]; w !in s.keys[k].rows.workers && Ready(s.now, s.keys[k].rows.record)
    ensures IsRunInLease(states', events') && states <= states' && events + [Act(k, Deliver(w))] <= events'
    ensures forall i | |events| < i < |events'| :: Undisturbed(events'[i], k, w)
    ensures var s := states'[|events'|]; k in s.keys && Finished(s.keys[k].rows)
  {
    var s := states[|events|];
    var Entry(cmd, rows) := s.keys[k];
    var e := Act(k, Deliver(w));
    var rows' := Goto(rows, w, None, Insert(s.now));
    var s' := s.(keys := s.keys[k := Entry(cmd, rows')]);
    RunInv(states, events, |events|);
    DeliveryStarts(cmd, s.now, rows, w, rows');
    Extended(states, events, e, s');
    states', events' := RecoveryCompletes(states + [s'], events + [e], s.now, k, w, o);
  }

  /******* After a failed run *******/

  /** The catch block frees the key: with no timing assumption, when its delete takes effect the record
      is gone, the run has thrown, and what was stored is still there. */
  lemma CatchFreesKey(states: seq<System>, events: seq<Event>, n: nat, k: Key, w: nat, c: Choice)
    requires IsRun(states, events) && n < |events| && k in states[n].keys && events[n] == Act(k, Run(w, c))
    requires w in states[n].keys[k].rows.workers && states[n].keys[k].rows.workers[w].pc == Fail
    requires !c.f.ThrewBefore?
    ensures k in states[n + 1].keys && w in states[n + 1].keys[k].rows.workers
    ensures var s := states[n + 1].keys[k].rows;
      s.record.Absent? && s.workers[w].pc == Threw && s.events == states[n].keys[k].rows.events
  {
    assert StepAt(states, events, n);
    assert FailStep(states[n].keys[k].rows, w, c.f, states[n + 1].keys[k].rows);
  }

  // Nothing happens on key k in between.
  lemma {:induction false} NobodyActs(states: seq<System>, events: seq<Event>, m: nat, n: nat, k: Key)
    requires IsRunInLease(states, events) && m <= n < |states| && k in states[m].keys
    requires forall i | m <= i < n :: events[i].Act? ==> events[i].k != k
    ensures k in states[n].keys && states[n].keys[k] == states[m].keys[k]
    decreases n
  {
    if m == n {
    } else {
      NobodyActs(states, events, m, n - 1, k);
      assert LeaseAt(states, events, n - 1);
    }
  }

  /** A failed run need not wait for its lease: a delivery that comes after its catch block, at once or
      later, with nobody acting on the key in between, runs to the end like any undisturbed delivery. */
  lemma RetryRecovers(states: seq<System>, events: seq<Event>, f: nat, m: nat, n: nat, k: Key,
                      w: nat, c: Choice, v: nat)
    requires IsRunInLease(states, events) && f < m < n < |states| && k in states[f].keys
    requires events[f] == Act(k, Run(w, c)) && !c.f.ThrewBefore?
    requires w in states[f].keys[k].rows.workers && states[f].keys[k].rows.workers[w].pc == Fail
    requires forall i | f < i < m :: events[i].Act? ==> events[i].k != k
    requires events[m] == Act(k, Deliver(v)) && forall i | m < i < n :: Undisturbed(events[i], k, v)
    ensures k in states[n].keys && v in states[n].keys[k].rows.workers
    ensures var s := states[n].keys[k].rows;
      && !s.workers[v].pc.Threw? && !s.workers[v].pc.Fail?
      && (s.workers[v].pc.Returned? ==> s.record.Completed? && s.events != [] && AllFlagged(s.events, |s.events|))
  {
    LeaseRunIsRun(states, events);
    CatchFreesKey(states, events, f, k, w, c);
    NobodyActs(states, events, f + 1, m, k);
    DeliveryRecovers(states, events, m, n, k, v);
  }

  /** And such a delivery can be made and completed right after the catch block. */
  lemma RetryCompletes(states: seq<System>, events: seq<Event>, k: Key, w: nat, c: Choice, v: nat, o: Choice)
    returns (states': seq<System>, events': seq<Event>)
    requires IsRunInLease(states, events) && events != [] && k in states[|events| - 1].keys
    requires events[|events| - 1] == Act(k, Run(w, c)) && !c.f.ThrewBefore?
    requires var s := states[|events| - 1].keys[k].rows; w in s.workers && s.workers[w].pc == Fail && v !in s.workers
    requires Kind(states[|events| - 1].keys[k].cmd, o)
    ensures IsRunInLease(states', events') && states <= states' && events + [Act(k, Deliver(v))] <= events'
    ensures var s := states'[|events'|];
      && k in s.keys
      && var rows := s.keys[k].rows;
         rows.record.Completed? && rows.events != [] && AllFlagged(rows.events, |rows.events|)
  {
    LeaseRunIsRun(states, events);
    CatchFreesKey(states, events, |events| - 1, k, w, c);
    assert StepAt(states, events, |events| - 1);
    states', events' := AlwaysRecoverable(states, events, k, v, o);
  }
}
