/**
 The lease is exactly as long as it may be: with a run told Started acting only within b of the
 UpdatedAt it wrote, a create-task key has at most one event in every run if and only if b is at
 most the lease.
 */
module LeaseNecessity {
  import opened Options
  import opened StorageFaults
  import opened IdempotencyProtocol
  import opened DomainService

  // The lease assumption with another bound.
  ghost predicate ActsWithin(b: int, now: int, s: KeyState, a: Action) {
    a.Run? && a.w in s.workers && s.workers[a.w].hold.Some? ==> now < s.workers[a.w].hold.value.stamp + b
  }

  ghost predicate WithinAt(b: int, states: seq<System>, events: seq<Event>, i: nat)
    requires |states| == |events| + 1 && i < |events|
  {
    && Step(states[i], events[i], states[i + 1])
    && (events[i].Act? ==> ActsWithin(b, states[i].now, states[i].keys[events[i].k].rows, events[i].a))
  }

  ghost predicate IsRunWithin(b: int, states: seq<System>, events: seq<Event>) {
    && |states| == |events| + 1 && Init(states[0])
    && (forall i: nat | i < |events| :: WithinAt(b, states, events, i))
  }

  ghost predicate OneAt(s: System, k: Key) {
    k in s.keys && s.keys[k].cmd == CreateTask ==> |s.keys[k].rows.events| <= 1
  }

  // In every state of every run within b, every create-task key has at most one event.
  ghost predicate AlwaysOne(b: int) {
    forall states: seq<System>, events, n: nat, k | IsRunWithin(b, states, events) && n < |states| ::
      OneAt(states[n], k)
  }

  lemma ShorterIsLeased(b: int, states: seq<System>, events: seq<Event>)
    requires b <= LEASE && IsRunWithin(b, states, events)
    ensures IsRunInLease(states, events)
  {
    forall i: nat | i < |events| ensures LeaseAt(states, events, i) {
      assert WithinAt(b, states, events, i);
    }
  }

  lemma ShorterIsSafe(b: int)
    requires b <= LEASE
    ensures AlwaysOne(b)
  {
    forall states: seq<System>, events, n: nat, k | IsRunWithin(b, states, events) && n < |states|
      ensures OneAt(states[n], k)
    {
      if k in states[n].keys && states[n].keys[k].cmd == CreateTask {
        ShorterIsLeased(b, states, events);
        AtMostOneEvent(states, events, n, k);
      }
    }
  }

  /******* A run that acts at the very end of its lease *******/

  const CALM := Choice(Ok, [], [TaskCreated], Accepts, false, Accepts)

  const FRESH := KeyState(Absent, 0, [], multiset{}, map[], 0, false, None, map[])

  function Sys(now: int, s: KeyState): System {
    System(now, map["k" := Entry(CreateTask, s)])
  }

  lemma Continue(b: int, states: seq<System>, events: seq<Event>, e: Event, s': System)
    returns (states': seq<System>, events': seq<Event>)
    requires IsRunWithin(b, states, events) && Step(states[|events|], e, s')
    requires e.Act? ==> ActsWithin(b, states[|events|].now, states[|events|].keys[e.k].rows, e.a)
    ensures IsRunWithin(b, states', events') && states'[|events'|] == s'
  {
    states', events' := states + [s'], events + [e];
    forall i: nat | i < |events'| ensures WithinAt(b, states', events', i) {
      if i < |events| {
        assert WithinAt(b, states, events, i);
      }
    }
  }

  // One step on the rows of key "k" at time now.
  lemma Acts(now: int, s: KeyState, a: Action, s': KeyState)
    requires KeyStep(CreateTask, now, s, a, s')
    ensures Step(Sys(now, s), Act("k", a), Sys(now, s'))
  {
  }

  lemma ActMore(b: int, states: seq<System>, events: seq<Event>, now: int, s: KeyState, a: Action, s': KeyState)
    returns (states': seq<System>, events': seq<Event>)
    requires IsRunWithin(b, states, events) && states[|events|] == Sys(now, s)
    requires KeyStep(CreateTask, now, s, a, s') && ActsWithin(b, now, s, a)
    ensures IsRunWithin(b, states', events') && states'[|events'|] == Sys(now, s')
  {
    Acts(now, s, a, s');
    states', events' := Continue(b, states, events, Act("k", a), Sys(now, s'));
  }

  // Run 0 reserves the key, finds nothing stored and is about to add its event.
  function Sleeper(): KeyState {
    Goto(WriteProcessing(FRESH, 0, 0, None), 0, Some(Hold(0, 0)), Add([TaskCreated], 0))
  }

  lemma SleeperRun(b: int) returns (states: seq<System>, events: seq<Event>)
    requires b > LEASE
    ensures IsRunWithin(b, states, events) && states[|events|] == Sys(0, Sleeper())
  {
    states, events := [Sys(0, FRESH)], [];
    var s1 := Goto(FRESH, 0, None, Insert(0));
    states, events := ActMore(b, states, events, 0, FRESH, Deliver(0), s1);
    var s2 := Goto(WriteProcessing(FRESH, 0, 0, None), 0, Some(Hold(0, 0)), Find);
    assert InsertStep(s1, 0, 0, Ok, s2);
    states, events := ActMore(b, states, events, 0, s1, Run(0, CALM), s2);
    var s3 := Goto(s2, 0, Some(Hold(0, 0)), Decide);
    states, events := ActMore(b, states, events, 0, s2, Run(0, CALM), s3);
    states, events := ActMore(b, states, events, 0, s3, Run(0, CALM), Sleeper());
  }

  // Run 1 has found the stale row and is about to replace it.
  function Arrived(): KeyState {
    Goto(Sleeper(), 1, None, Reclaim(LEASE, 0))
  }

  lemma ArrivalRun(b: int) returns (states: seq<System>, events: seq<Event>)
    requires b > LEASE
    ensures IsRunWithin(b, states, events) && states[|events|] == Sys(LEASE, Arrived())
  {
    states, events := SleeperRun(b);
    var s0 := Sleeper();
    states, events := Continue(b, states, events, Tick(LEASE), Sys(LEASE, s0));
    var s1 := Goto(s0, 1, None, Insert(LEASE));
    states, events := ActMore(b, states, events, LEASE, s0, Deliver(1), s1);
    var s2 := Goto(s1, 1, None, Lookup(LEASE));
    states, events := ActMore(b, states, events, LEASE, s1, Run(1, CALM), s2);
    var s3 := Goto(s2, 1, None, Judge(Some(0), 0));
    states, events := ActMore(b, states, events, LEASE, s2, Run(1, CALM), s3);
    var s4 := Goto(s3, 1, None, TakeOver(0));
    states, events := ActMore(b, states, events, LEASE, s3, Run(1, CALM), s4);
    states, events := ActMore(b, states, events, LEASE, s4, Run(1, CALM), Arrived());
  }

  // Run 1 took the row over and stored its event.
  function TakenOver(): KeyState {
    Goto(AppendEvent(WriteProcessing(Sleeper(), 1, LEASE, Some(0)), [TaskCreated], 0),
         1, Some(Hold(LEASE, 1)), Dispatch([TaskCreated], 0, 0))
  }

  lemma TakeOverRun(b: int) returns (states: seq<System>, events: seq<Event>)
    requires b > LEASE
    ensures IsRunWithin(b, states, events) && states[|events|] == Sys(LEASE, TakenOver())
  {
    states, events := ArrivalRun(b);
    var s5 := Arrived();
    var s6 := Goto(WriteProcessing(s5, 1, LEASE, Some(0)), 1, Some(Hold(LEASE, 1)), Find);
    states, events := ActMore(b, states, events, LEASE, s5, Run(1, CALM), s6);
    var s7 := Goto(s6, 1, Some(Hold(LEASE, 1)), Decide);
    states, events := ActMore(b, states, events, LEASE, s6, Run(1, CALM), s7);
    var s8 := Goto(s7, 1, Some(Hold(LEASE, 1)), Add([TaskCreated], 0));
    states, events := ActMore(b, states, events, LEASE, s7, Run(1, CALM), s8);
    assert TakenOver() ==
      Goto(AppendEvent(s8, [TaskCreated], 0), 1, Some(Hold(LEASE, 1)), Dispatch([TaskCreated], 0, 0));
    states, events := ActMore(b, states, events, LEASE, s8, Run(1, CALM), TakenOver());
  }

  lemma LongerIsUnsafe(b: int)
    requires b > LEASE
    ensures !AlwaysOne(b)
  {
    var states, events := TakeOverRun(b);
    var s := TakenOver();
    var s' := Goto(AppendEvent(s, [TaskCreated], 0), 0, Some(Hold(0, 0)), Dispatch([TaskCreated], 0, 1));
    states, events := ActMore(b, states, events, LEASE, s, Run(0, CALM), s');
    assert !OneAt(states[|events|], "k");
  }

  /** At most one event per create-task key, in every run, exactly when the bound is at most the lease. */
  lemma AtMostOneIffLease(b: int)
    ensures AlwaysOne(b) <==> b <= 30_000 // milliseconds
  {
    if b <= LEASE {
      ShorterIsSafe(b);
    } else {
      LongerIsUnsafe(b);
    }
  }
}
