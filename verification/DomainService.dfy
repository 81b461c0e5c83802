/**
 The domain service over all idempotency keys: one clock, and for each key its command and rows.
 Every claim is about every reachable state of every run.
 */
module DomainService {
  import opened Options
  import opened IdempotencyProtocol
  import opened IdempotencyInvariant
  import opened LeaseInvariant

  type Key = string

  datatype Entry = Entry(cmd: Command, rows: KeyState)

  datatype System = System(now: int, keys: map<Key, Entry>)

  datatype Event = Tick(later: int) | Act(k: Key, a: Action)

  ghost predicate Init(s: System) {
    forall k | k in s.keys :: InitKey(s.keys[k].rows)
  }

  ghost predicate Step(s: System, e: Event, s': System) {
    match e
    case Tick(later) => s.now <= later && s' == s.(now := later)
    case Act(k, a) =>
      && k in s.keys && k in s'.keys
      && KeyStep(s.keys[k].cmd, s.now, s.keys[k].rows, a, s'.keys[k].rows)
      && s' == s.(keys := s.keys[k := s.keys[k].(rows := s'.keys[k].rows)])
  }

  ghost predicate StepInLease(s: System, e: Event, s': System) {
    && Step(s, e, s')
    && (e.Act? ==> WithinLease(s.now, s.keys[e.k].rows, e.a))
  }

  // A run: states[i] goes to states[i + 1] by events[i].
  ghost predicate StepAt(states: seq<System>, events: seq<Event>, i: nat)
    requires |states| == |events| + 1 && i < |events|
  {
    Step(states[i], events[i], states[i + 1])
  }

  ghost predicate LeaseAt(states: seq<System>, events: seq<Event>, i: nat)
    requires |states| == |events| + 1 && i < |events|
  {
    StepInLease(states[i], events[i], states[i + 1])
  }

  ghost predicate IsRun(states: seq<System>, events: seq<Event>) {
    && |states| == |events| + 1 && Init(states[0])
    && (forall i: nat | i < |events| :: StepAt(states, events, i))
  }

  ghost predicate IsRunInLease(states: seq<System>, events: seq<Event>) {
    && |states| == |events| + 1 && Init(states[0])
    && (forall i: nat | i < |events| :: LeaseAt(states, events, i))
  }

  lemma LeaseRunIsRun(states: seq<System>, events: seq<Event>)
    requires IsRunInLease(states, events)
    ensures IsRun(states, events)
  {
    forall i: nat | i < |events| ensures StepAt(states, events, i) {
      assert LeaseAt(states, events, i);
    }
  }

  ghost predicate AllSound(s: System) {
    forall k | k in s.keys :: Sound(s.now, s.keys[k].rows)
  }

  ghost predicate Inv(s: System) {
    forall k | k in s.keys :: KeyInv(s.keys[k].cmd, s.now, s.keys[k].rows)
  }

  lemma StepKeepsSound(s: System, e: Event, s': System)
    requires AllSound(s) && Step(s, e, s')
    ensures AllSound(s')
  {
    forall k | k in s'.keys ensures Sound(s'.now, s'.keys[k].rows) {
      match e
      case Tick(later) => TickSound(s.now, later, s.keys[k].rows);
      case Act(k', a) =>
        if k == k' {
          StepSound(s.keys[k].cmd, s.now, s.keys[k].rows, a, s'.keys[k].rows);
        }
    }
  }

  lemma StepKeepsInv(s: System, e: Event, s': System)
    requires Inv(s) && StepInLease(s, e, s')
    ensures Inv(s')
  {
    forall k | k in s'.keys ensures KeyInv(s'.keys[k].cmd, s'.now, s'.keys[k].rows) {
      match e
      case Tick(later) => TickInv(s.keys[k].cmd, s.now, later, s.keys[k].rows);
      case Act(k', a) =>
        if k == k' {
          StepInv(s.keys[k].cmd, s.now, s.keys[k].rows, a, s'.keys[k].rows);
        }
    }
  }

  lemma {:induction false} RunSound(states: seq<System>, events: seq<Event>, n: nat)
    requires IsRun(states, events) && n < |states|
    ensures AllSound(states[n])
  {
    if n == 0 {
    } else {
      RunSound(states, events, n - 1);
      assert StepAt(states, events, n - 1);
      StepKeepsSound(states[n - 1], events[n - 1], states[n]);
    }
  }

  lemma {:induction false} RunInv(states: seq<System>, events: seq<Event>, n: nat)
    requires IsRunInLease(states, events) && n < |states|
    ensures Inv(states[n])
  {
    if n == 0 {
      forall k | k in states[0].keys ensures KeyInv(states[0].keys[k].cmd, states[0].now, states[0].keys[k].rows) {
        InitInv(states[0].keys[k].cmd, states[0].now, states[0].keys[k].rows);
      }
    } else {
      RunInv(states, events, n - 1);
      assert LeaseAt(states, events, n - 1);
      StepKeepsInv(states[n - 1], events[n - 1], states[n]);
    }
  }

  /** In every state of every run within the lease, a create-task key has at most one stored event. */
  lemma AtMostOneEvent(states: seq<System>, events: seq<Event>, n: nat, k: Key)
    requires IsRunInLease(states, events) && n < |states|
    requires k in states[n].keys && states[n].keys[k].cmd == CreateTask
    ensures |states[n].keys[k].rows.events| <= 1
    ensures forall i | 0 <= i < |states[n].keys[k].rows.events| :: states[n].keys[k].rows.events[i].kind == TaskCreated
  {
    RunInv(states, events, n);
    assert KeyInv(CreateTask, states[n].now, states[n].keys[k].rows);
  }

  // What is stored only grows, and the first stored event fixes the plan.
  ghost predicate Extends(s: KeyState, s': KeyState) {
    && Kept(s.events, s'.events)
    && (s.firstPlan.Some? ==> s'.firstPlan == s.firstPlan)
  }

  ghost predicate Writes(s: KeyState, a: Action) {
    a.Run? && a.w in s.workers &&
    var pc := s.workers[a.w].pc;
    pc.Add? || pc.Flag? || pc.ReplayFlag?
  }

  lemma ReservationLeavesEvents(cmd: Command, now: int, s: KeyState, w: nat, c: Choice, s': KeyState)
    requires WorkerStep(cmd, now, s, w, c, s')
    requires var pc := s.workers[w].pc; pc.Insert? || pc.Lookup? || pc.Judge? || pc.TakeOver? || pc.Reclaim?
    ensures s'.events == s.events && s'.firstPlan == s.firstPlan
  {
  }

  lemma RestLeavesEvents(cmd: Command, now: int, s: KeyState, w: nat, c: Choice, s': KeyState)
    requires WorkerStep(cmd, now, s, w, c, s')
    requires var pc := s.workers[w].pc; pc.Find? || pc.Replay? || pc.Decide? || pc.Dispatch? || pc.Succeed? || pc.Fail?
    ensures s'.events == s.events && s'.firstPlan == s.firstPlan
  {
  }

  lemma OthersLeaveEvents(cmd: Command, now: int, s: KeyState, a: Action, s': KeyState)
    requires KeyStep(cmd, now, s, a, s') && !Writes(s, a)
    ensures s'.events == s.events && s'.firstPlan == s.firstPlan
  {
    if a.Run? {
      var pc := s.workers[a.w].pc;
      if pc.Insert? || pc.Lookup? || pc.Judge? || pc.TakeOver? || pc.Reclaim? {
        ReservationLeavesEvents(cmd, now, s, a.w, a.c, s');
      } else {
        RestLeavesEvents(cmd, now, s, a.w, a.c, s');
      }
    }
  }

  lemma KeyStepExtends(cmd: Command, now: int, s: KeyState, a: Action, s': KeyState)
    requires KeyStep(cmd, now, s, a, s')
    ensures Extends(s, s')
  {
    if !Writes(s, a) {
      OthersLeaveEvents(cmd, now, s, a, s');
    } else {
      match s.workers[a.w].pc
      case Add(plan, i) => assert AddStep(s, a.w, s.workers[a.w].hold, plan, i, a.c.f, s');
      case Flag(plan, i, id) => assert FlagStep(s, a.w, s.workers[a.w].hold, id, AfterFlag(plan, i), a.c.f, s');
      case ReplayFlag(rest) =>
        assert FlagStep(s, a.w, s.workers[a.w].hold, rest[0], AfterReplayFlag(s.workers[a.w].hold, rest[1..]), a.c.f,
                        s');
    }
  }

  lemma {:induction false} RunExtends(states: seq<System>, events: seq<Event>, m: nat, n: nat, k: Key)
    requires IsRun(states, events) && m <= n < |states| && k in states[m].keys
    ensures k in states[n].keys && states[n].keys[k].cmd == states[m].keys[k].cmd
    ensures Extends(states[m].keys[k].rows, states[n].keys[k].rows)
  {
    if m == n {
    } else {
      RunExtends(states, events, m, n - 1, k);
      var s, e, s' := states[n - 1], events[n - 1], states[n];
      assert StepAt(states, events, n - 1);
      if e.Act? && e.k == k {
        KeyStepExtends(s.keys[k].cmd, s.now, s.keys[k].rows, e.a, s'.keys[k].rows);
      }
    }
  }

  /** The stored kinds of a key are at all times a prefix of one sequence that a single run of its
      handler chose: a run cut between its two adds leaves only the first event, and no later
      delivery adds the second or starts another sequence. */
  lemma StoredIsPrefixOfFirstPlan(states: seq<System>, events: seq<Event>, m: nat, n: nat, k: Key)
    requires IsRunInLease(states, events) && m <= n < |states| && k in states[m].keys
    requires states[m].keys[k].rows.events != []
    ensures k in states[n].keys
    ensures var plan := states[m].keys[k].rows.firstPlan;
            && plan.Some? && Chooses(states[m].keys[k].cmd, plan.value)
            && FollowsPlan(states[m].keys[k].rows.events, plan.value)
            && FollowsPlan(states[n].keys[k].rows.events, plan.value)
  {
    RunInv(states, events, m);
    RunInv(states, events, n);
    LeaseRunIsRun(states, events);
    RunExtends(states, events, m, n, k);
    assert KeyInv(states[m].keys[k].cmd, states[m].now, states[m].keys[k].rows);
    assert KeyInv(states[n].keys[k].cmd, states[n].now, states[n].keys[k].rows);
  }

  // Something is stored and no run that may still act is in the middle of emitting.
  ghost predicate Settled(now: int, s: KeyState) {
    s.events != [] && forall w | LiveHolder(now, s, w) :: !Emitting(s.workers[w].pc)
  }

  predicate Emitting(pc: Pc) {
    pc.Add? || pc.Dispatch? || pc.Flag?
  }

  lemma ReservationDoesNotEmit(cmd: Command, now: int, s: KeyState, w: nat, c: Choice, s': KeyState)
    requires WorkerStep(cmd, now, s, w, c, s') && w in s'.workers
    requires var pc := s.workers[w].pc; pc.Insert? || pc.Lookup? || pc.Judge? || pc.TakeOver? || pc.Reclaim?
    ensures !Emitting(s'.workers[w].pc)
  {
  }

  lemma ReplayDoesNotEmit(cmd: Command, now: int, s: KeyState, w: nat, c: Choice, s': KeyState)
    requires WorkerStep(cmd, now, s, w, c, s') && w in s'.workers
    requires var pc := s.workers[w].pc; pc.Find? || pc.Replay? || pc.ReplayFlag?
    ensures !Emitting(s'.workers[w].pc)
  {
    var hold := s.workers[w].hold;
    match s.workers[w].pc
    case Find => assert FindStep(s, w, hold, c.rest, c.f, s');
    case Replay(rest) => assert DispatchStep(s, w, hold, rest[0], ReplayFlag(rest), c, s');
    case ReplayFlag(rest) => assert FlagStep(s, w, hold, rest[0], AfterReplayFlag(hold, rest[1..]), c.f, s');
  }

  lemma EndingDoesNotEmit(cmd: Command, now: int, s: KeyState, w: nat, c: Choice, s': KeyState)
    requires WorkerStep(cmd, now, s, w, c, s') && w in s'.workers
    requires s.workers[w].pc.Succeed? || s.workers[w].pc.Fail?
    ensures !Emitting(s'.workers[w].pc)
  {
  }

  // Emission starts from Decide, which a live run reaches only while nothing is stored.
  lemma StartsEmitting(cmd: Command, now: int, s: KeyState, w: nat, c: Choice, s': KeyState)
    requires WorkerStep(cmd, now, s, w, c, s') && w in s'.workers && Emitting(s'.workers[w].pc)
    ensures s.workers[w].pc.Decide? || Emitting(s.workers[w].pc)
  {
    var pc := s.workers[w].pc;
    if pc.Insert? || pc.Lookup? || pc.Judge? || pc.TakeOver? || pc.Reclaim? {
      ReservationDoesNotEmit(cmd, now, s, w, c, s');
    } else if pc.Find? || pc.Replay? || pc.ReplayFlag? {
      ReplayDoesNotEmit(cmd, now, s, w, c, s');
    } else if pc.Succeed? || pc.Fail? {
      EndingDoesNotEmit(cmd, now, s, w, c, s');
    }
  }

  lemma SettledAddsNothing(cmd: Command, now: int, s: KeyState, a: Action, s': KeyState)
    requires Leased(cmd, now, s) && KeyStep(cmd, now, s, a, s') && WithinLease(now, s, a)
    requires Settled(now, s)
    ensures |s'.events| == |s.events|
  {
    if Writes(s, a) {
      assert WorkerLeased(cmd, now, s, a.w);
      assert !s.workers[a.w].pc.Add?;
    } else {
      OthersLeaveEvents(cmd, now, s, a, s');
    }
  }

  // A live run of a settled key does not turn to emitting.
  lemma SettledRunReplays(cmd: Command, now: int, s: KeyState, w: nat, c: Choice, s': KeyState)
    requires Leased(cmd, now, s) && WorkerStep(cmd, now, s, w, c, s') && w in s'.workers
    requires Settled(now, s) && WithinLease(now, s, Run(w, c))
    ensures !Emitting(s'.workers[w].pc)
  {
    assert WorkerLeased(cmd, now, s, w);
    if Emitting(s'.workers[w].pc) {
      StartsEmitting(cmd, now, s, w, c, s');
    }
  }

  // The other runs of a settled key stand where they stood.
  lemma OthersStay(cmd: Command, now: int, s: KeyState, a: Action, s': KeyState, w: nat)
    requires KeyStep(cmd, now, s, a, s') && !(a.Run? && a.w == w) && w in s'.workers
    ensures (w in s.workers && s'.workers[w] == s.workers[w]) || s'.workers[w].hold.None?
  {
    if a.Run? {
      WorkerMovesItself(cmd, now, s, a.w, a.c, s', w);
    }
  }

  ghost predicate StandsStill(s: KeyState, s': KeyState, w: nat) {
    w in s'.workers ==> w in s.workers && s'.workers[w] == s.workers[w]
  }

  lemma ReservationMovesItself(cmd: Command, now: int, s: KeyState, v: nat, c: Choice, s': KeyState, w: nat)
    requires WorkerStep(cmd, now, s, v, c, s') && v != w
    requires var pc := s.workers[v].pc; pc.Insert? || pc.Lookup? || pc.Judge? || pc.TakeOver? || pc.Reclaim?
    ensures StandsStill(s, s', w)
  {
  }

  lemma ReplayMovesItself(cmd: Command, now: int, s: KeyState, v: nat, c: Choice, s': KeyState, w: nat)
    requires WorkerStep(cmd, now, s, v, c, s') && v != w
    requires var pc := s.workers[v].pc; pc.Find? || pc.Replay? || pc.ReplayFlag? || pc.Succeed? || pc.Fail?
    ensures StandsStill(s, s', w)
  {
  }

  lemma EmissionMovesItself(cmd: Command, now: int, s: KeyState, v: nat, c: Choice, s': KeyState, w: nat)
    requires WorkerStep(cmd, now, s, v, c, s') && v != w
    requires var pc := s.workers[v].pc; pc.Decide? || pc.Add? || pc.Dispatch? || pc.Flag?
    ensures StandsStill(s, s', w)
  {
  }

  lemma WorkerMovesItself(cmd: Command, now: int, s: KeyState, v: nat, c: Choice, s': KeyState, w: nat)
    requires WorkerStep(cmd, now, s, v, c, s') && v != w
    ensures StandsStill(s, s', w)
  {
    var pc := s.workers[v].pc;
    if pc.Insert? || pc.Lookup? || pc.Judge? || pc.TakeOver? || pc.Reclaim? {
      ReservationMovesItself(cmd, now, s, v, c, s', w);
    } else if pc.Decide? || pc.Add? || pc.Dispatch? || pc.Flag? {
      EmissionMovesItself(cmd, now, s, v, c, s', w);
    } else {
      ReplayMovesItself(cmd, now, s, v, c, s', w);
    }
  }

  lemma SettledStays(cmd: Command, now: int, s: KeyState, a: Action, s': KeyState)
    requires Leased(cmd, now, s) && KeyStep(cmd, now, s, a, s') && WithinLease(now, s, a)
    requires Settled(now, s)
    ensures Settled(now, s') && |s'.events| == |s.events|
  {
    SettledAddsNothing(cmd, now, s, a, s');
    forall w | LiveHolder(now, s', w) ensures !Emitting(s'.workers[w].pc) {
      if a.Run? && a.w == w {
        SettledRunReplays(cmd, now, s, w, a.c, s');
      } else {
        OthersStay(cmd, now, s, a, s', w);
        assert LiveHolder(now, s, w);
      }
    }
  }

  lemma SettledStep(s: System, e: Event, s': System, k: Key)
    requires Inv(s) && StepInLease(s, e, s') && k in s.keys && Settled(s.now, s.keys[k].rows)
    ensures k in s'.keys && Settled(s'.now, s'.keys[k].rows)
    ensures |s'.keys[k].rows.events| == |s.keys[k].rows.events|
  {
    if e.Act? && e.k == k {
      assert KeyInv(s.keys[k].cmd, s.now, s.keys[k].rows);
      SettledStays(s.keys[k].cmd, s.now, s.keys[k].rows, e.a, s'.keys[k].rows);
    } else {
      assert s'.keys[k].rows == s.keys[k].rows;
    }
  }

  /** Once a key has an event and its emitting run is cut off or done, nothing more is ever stored:
      every later delivery replays what is there. */
  lemma {:induction false} SettledIsFinal(states: seq<System>, events: seq<Event>, m: nat, n: nat, k: Key)
    requires IsRunInLease(states, events) && m <= n < |states| && k in states[m].keys
    requires Settled(states[m].now, states[m].keys[k].rows)
    ensures k in states[n].keys && Settled(states[n].now, states[n].keys[k].rows)
    ensures |states[n].keys[k].rows.events| == |states[m].keys[k].rows.events|
  {
    if m == n {
    } else {
      SettledIsFinal(states, events, m, n - 1, k);
      RunInv(states, events, n - 1);
      assert LeaseAt(states, events, n - 1);
      SettledStep(states[n - 1], events[n - 1], states[n], k);
    }
  }

  /** Row versions have single owners, with no timing assumption: two runs told Started never hold
      the same version, and no version is replaced by two claims. */
  lemma VersionsHaveSingleOwners(states: seq<System>, events: seq<Event>, n: nat, k: Key)
    requires IsRun(states, events) && n < |states| && k in states[n].keys
    ensures var s := states[n].keys[k].rows;
      && (forall v, w | v in s.workers && w in s.workers && s.workers[v].hold.Some? && s.workers[w].hold.Some?
            && s.workers[v].hold.value.etag == s.workers[w].hold.value.etag :: v == w)
      && (forall e, e' | e in s.claims && e' in s.claims && s.claims[e].consumed.Some?
            && s.claims[e].consumed == s.claims[e'].consumed :: e == e')
  {
    RunSound(states, events, n);
    var s := states[n].keys[k].rows;
    forall v, w | v in s.workers && w in s.workers && s.workers[v].hold.Some? && s.workers[w].hold.Some?
      && s.workers[v].hold.value.etag == s.workers[w].hold.value.etag
      ensures v == w
    {
      assert WorkerSound(states[n].now, s, v) && WorkerSound(states[n].now, s, w);
    }
  }

  /** Within the lease, no two runs that may still act are both past Started while nothing is stored. */
  lemma OneEmitterAtATime(states: seq<System>, events: seq<Event>, n: nat, k: Key, v: nat, w: nat)
    requires IsRunInLease(states, events) && n < |states| && k in states[n].keys
    requires states[n].keys[k].rows.events == []
    requires LiveHolder(states[n].now, states[n].keys[k].rows, v)
      && LiveHolder(states[n].now, states[n].keys[k].rows, w)
    ensures v == w
  {
    RunInv(states, events, n);
    assert KeyInv(states[n].keys[k].cmd, states[n].now, states[n].keys[k].rows);
    LiveHolderAlone(states[n].keys[k].cmd, states[n].now, states[n].keys[k].rows, v, w);
  }

  /** A Dispatched flag is never wrong, with no timing assumption: some receiver took the event. */
  lemma FlaggedWasAccepted(states: seq<System>, events: seq<Event>, n: nat, k: Key, i: nat)
    requires IsRun(states, events) && n < |states| && k in states[n].keys
    requires i < |states[n].keys[k].rows.events| && states[n].keys[k].rows.events[i].dispatched
    ensures i in states[n].keys[k].rows.accepted
  {
    RunSound(states, events, n);
  }

  /** The cleaner frees a completed key: its delete takes the record away and nothing else. */
  lemma CleanerFreesKey(states: seq<System>, events: seq<Event>, n: nat, k: Key)
    requires IsRun(states, events) && n < |events| && k in states[n].keys
    requires events[n] == Act(k, CleanerDelete(true))
    ensures k in states[n + 1].keys && states[n + 1].keys[k].rows.record.Absent?
    ensures states[n + 1].keys[k].rows.events == states[n].keys[k].rows.events
    ensures states[n + 1].keys[k].rows.workers == states[n].keys[k].rows.workers
  {
    assert StepAt(states, events, n);
  }

  // Only the success path of a Started run returns.
  lemma ReturnsFromSucceed(cmd: Command, now: int, s: KeyState, w: nat, c: Choice, s': KeyState)
    requires WorkerStep(cmd, now, s, w, c, s') && s.workers[w].hold.Some?
    requires PcPlaced(cmd, s, s.workers[w])
    requires w in s'.workers && s'.workers[w].pc == Returned
    ensures s.workers[w].pc.Succeed?
  {
  }

  lemma KeyReturnCompletes(cmd: Command, now: int, s: KeyState, w: nat, c: Choice, s': KeyState)
    requires KeyInv(cmd, now, s) && WorkerStep(cmd, now, s, w, c, s') && LiveHolder(now, s, w)
    requires w in s'.workers && s'.workers[w].pc == Returned
    ensures s'.record.Completed? && s'.events != [] && AllFlagged(s'.events, |s'.events|)
  {
    assert WorkerLeased(cmd, now, s, w);
    ReturnsFromSucceed(cmd, now, s, w, c, s');
    assert SucceedStep(s, now, w, s.workers[w].hold, c.f, s');
  }

  /** A Started run that returns normally leaves the record Completed, at least one event stored,
      and every stored event of the key flagged. */
  lemma ReturningRunCompletes(states: seq<System>, events: seq<Event>, n: nat, k: Key, w: nat, c: Choice)
    requires IsRunInLease(states, events) && n < |events|
    requires events[n] == Act(k, Run(w, c)) && k in states[n].keys && k in states[n + 1].keys
    requires w in states[n].keys[k].rows.workers && states[n].keys[k].rows.workers[w].hold.Some?
    requires w in states[n + 1].keys[k].rows.workers && states[n + 1].keys[k].rows.workers[w].pc == Returned
    ensures var s' := states[n + 1].keys[k].rows;
      s'.record.Completed? && s'.events != [] && AllFlagged(s'.events, |s'.events|)
  {
    RunInv(states, events, n);
    assert LeaseAt(states, events, n);
    KeyReturnCompletes(states[n].keys[k].cmd, states[n].now, states[n].keys[k].rows, w, c, states[n + 1].keys[k].rows);
  }
}
