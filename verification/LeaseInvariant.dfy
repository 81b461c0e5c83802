/**
 What the protocol keeps when runs respect their lease: until the key is completed for the first
 time a live holder is alone and the row is its own, so only one run ever emits events, in the
 order it planned, and whoever reports success has seen every stored event dispatched.
 */
module LeaseInvariant {
  import opened Options
  import opened StorageFaults
  import opened IdempotencyProtocol
  import opened IdempotencyInvariant

  ghost predicate AllFlagged(events: seq<StoredEvent>, n: nat) {
    forall i | 0 <= i < n && i < |events| :: events[i].dispatched
  }

  ghost predicate Covers(rest: seq<nat>, events: seq<StoredEvent>) {
    forall i: nat | i < |events| && !events[i].dispatched :: i in rest
  }

  // The stored kinds are what the first emitting run planned, from the beginning.
  predicate FollowsPlan(events: seq<StoredEvent>, plan: seq<EventKind>) {
    |events| <= |plan| && forall i | 0 <= i < |events| :: events[i].kind == plan[i]
  }

  // Facts about a run that need no clock.
  ghost predicate PcPlaced(cmd: Command, s: KeyState, r: Worker) {
    match r.pc
    case Insert(_) => r.hold.None?
    case Lookup(_) => r.hold.None?
    case Judge(_, _) => r.hold.None?
    case TakeOver(_) => r.hold.None?
    case Reclaim(_, _) => r.hold.None?
    case Fail => r.hold.Some?
    case Replay(_) => s.events != []
    case ReplayFlag(_) => s.events != []
    case Decide => r.hold.Some?
    case Add(plan, i) => r.hold.Some? && Chooses(cmd, plan) && i < |plan|
    case Dispatch(plan, i, _) => r.hold.Some? && Chooses(cmd, plan) && i < |plan| && s.events != []
    case Flag(plan, i, _) => r.hold.Some? && Chooses(cmd, plan) && i < |plan| && s.events != []
    case Succeed => r.hold.Some? && s.events != []
    case _ => true
  }

  // What a live holder can count on at its program point.
  ghost predicate Progress(s: KeyState, pc: Pc) {
    match pc
    case Replay(rest) => Covers(rest, s.events)
    case ReplayFlag(rest) => Covers(rest, s.events)
    case Decide => s.events == []
    case Add(plan, i) =>
      !s.completedOnce && |s.events| == i && AllFlagged(s.events, i) && (i > 0 ==> s.firstPlan == Some(plan))
    case Dispatch(plan, i, id) =>
      !s.completedOnce && |s.events| == i + 1 && id == i && AllFlagged(s.events, i) && s.firstPlan == Some(plan)
    case Flag(plan, i, id) =>
      !s.completedOnce && |s.events| == i + 1 && id == i && AllFlagged(s.events, i) && s.firstPlan == Some(plan)
    case Succeed => AllFlagged(s.events, |s.events|)
    case _ => true
  }

  ghost predicate LiveHolder(now: int, s: KeyState, w: nat) {
    w in s.workers && s.workers[w].hold.Some? && Live(s.workers[w].hold.value, now)
  }

  ghost predicate OwnsRow(s: KeyState, h: Hold) {
    !s.completedOnce ==> s.record == Processing(Some(h.stamp), h.etag)
  }

  ghost predicate WorkerLeased(cmd: Command, now: int, s: KeyState, w: nat)
    requires w in s.workers
  {
    && PcPlaced(cmd, s, s.workers[w])
    && (LiveHolder(now, s, w) ==> OwnsRow(s, s.workers[w].hold.value) && Progress(s, s.workers[w].pc))
  }

  ghost predicate KeyLeased(cmd: Command, s: KeyState) {
    && (s.completedOnce ==> s.events != [])
    && (s.record.Completed? || s.pendingDeletes > 0 ==> s.completedOnce)
    && (if s.events == [] then s.firstPlan.None?
        else s.firstPlan.Some? && Chooses(cmd, s.firstPlan.value) && FollowsPlan(s.events, s.firstPlan.value))
  }

  ghost predicate Leased(cmd: Command, now: int, s: KeyState) {
    && KeyLeased(cmd, s)
    && (forall w | w in s.workers :: WorkerLeased(cmd, now, s, w))
  }

  lemma TickLeased(cmd: Command, now: int, now': int, s: KeyState)
    requires Leased(cmd, now, s) && now <= now'
    ensures Leased(cmd, now', s)
  {
    forall w | w in s.workers ensures WorkerLeased(cmd, now', s, w) {
      assert WorkerLeased(cmd, now, s, w);
    }
  }

  /** Until the key is completed, two live holders are the same run. */
  lemma LiveHolderAlone(cmd: Command, now: int, s: KeyState, v: nat, w: nat)
    requires Sound(now, s) && Leased(cmd, now, s) && !s.completedOnce
    requires LiveHolder(now, s, v) && LiveHolder(now, s, w)
    ensures v == w
  {
    assert WorkerLeased(cmd, now, s, v) && WorkerLeased(cmd, now, s, w);
    assert WorkerSound(now, s, v) && WorkerSound(now, s, w);
  }

  // A step that takes nothing away from the other runs.
  ghost predicate Calm(s: KeyState, s': KeyState) {
    && s'.completedOnce == s.completedOnce && s'.firstPlan == s.firstPlan
    && |s'.events| == |s.events|
    && (forall i | 0 <= i < |s.events| && s.events[i].dispatched :: s'.events[i].dispatched)
    && (s.completedOnce || s'.record == s.record)
  }

  ghost predicate OthersExpired(now: int, s: KeyState, w: nat) {
    forall v | LiveHolder(now, s, v) :: v == w
  }

  lemma OthersKeep(cmd: Command, now: int, s: KeyState, s': KeyState, w: nat, v: nat)
    requires v in s.workers && v != w && v in s'.workers && s'.workers[v] == s.workers[v]
    requires WorkerLeased(cmd, now, s, v) && (s.events != [] ==> s'.events != [])
    requires Calm(s, s') || OthersExpired(now, s, w)
    ensures WorkerLeased(cmd, now, s', v)
  {
    if LiveHolder(now, s', v) {
      assert LiveHolder(now, s, v);
      assert Calm(s, s');
      assert Progress(s', s'.workers[v].pc);
    }
  }

  lemma MoveLeased(cmd: Command, now: int, s: KeyState, s': KeyState, w: nat)
    requires Leased(cmd, now, s) && KeyLeased(cmd, s')
    requires Calm(s, s') || OthersExpired(now, s, w)
    requires s.events != [] ==> s'.events != []
    requires w in s'.workers && s'.workers == s.workers[w := s'.workers[w]]
    requires WorkerLeased(cmd, now, s', w)
    ensures Leased(cmd, now, s')
  {
    forall v | v in s'.workers ensures WorkerLeased(cmd, now, s', v) {
      if v != w {
        OthersKeep(cmd, now, s, s', w, v);
      }
    }
  }

  // Before the first completion, a live holder that acts leaves no other live holder behind.
  lemma ActorAlone(cmd: Command, now: int, s: KeyState, w: nat)
    requires Sound(now, s) && Leased(cmd, now, s) && LiveHolder(now, s, w)
    ensures s.completedOnce || OthersExpired(now, s, w)
  {
    if !s.completedOnce {
      forall v | LiveHolder(now, s, v) ensures v == w {
        LiveHolderAlone(cmd, now, s, v, w);
      }
    }
  }

  lemma QuietLeased(cmd: Command, now: int, s: KeyState, w: nat, hold: Option<Hold>, pc: Pc)
    requires Leased(cmd, now, s)
    requires hold.Some? ==> w in s.workers && hold == s.workers[w].hold
    requires PcPlaced(cmd, s, Worker(hold, pc))
    requires hold.Some? && Live(hold.value, now) ==> Progress(s, pc)
    ensures Leased(cmd, now, Goto(s, w, hold, pc))
  {
    var s' := Goto(s, w, hold, pc);
    if hold.Some? {
      assert WorkerLeased(cmd, now, s, w);
    }
    assert Progress(s, pc) ==> Progress(s', pc);
    MoveLeased(cmd, now, s, s', w);
  }

  // A new Processing version is only written when nobody live holds the old one.
  lemma WriteLeased(cmd: Command, now: int, s: KeyState, w: nat, stamp: int, consumed: Option<nat>,
                    hold: Option<Hold>, pc: Pc)
    requires Leased(cmd, now, s) && w in s.workers && s.workers[w].hold.None?
    requires s.record.Absent? || s.record.Completed? || Stale(s.record.updatedAt, now)
    requires hold.Some? ==> hold.value == Hold(stamp, s.nextEtag)
    requires pc.Find? || pc.Lookup? || pc.Threw? || pc.Returned?
    requires pc.Lookup? ==> hold.None?
    ensures Leased(cmd, now, Goto(WriteProcessing(s, w, stamp, consumed), w, hold, pc))
  {
    var s' := Goto(WriteProcessing(s, w, stamp, consumed), w, hold, pc);
    if !s.completedOnce {
      forall v | v in s.workers ensures !LiveHolder(now, s, v) {
        assert WorkerLeased(cmd, now, s, v);
      }
      assert OthersExpired(now, s, w);
    }
    MoveLeased(cmd, now, s, s', w);
  }

  lemma InsertLeased(cmd: Command, now: int, s: KeyState, w: nat, stamp: int, f: Fault, s': KeyState)
    requires Leased(cmd, now, s) && w in s.workers && s.workers[w].hold.None? && InsertStep(s, w, stamp, f, s')
    ensures Leased(cmd, now, s')
  {
    var Worker(hold, pc) := s'.workers[w];
    if f.ThrewBefore? || !s.record.Absent? {
      QuietLeased(cmd, now, s, w, hold, pc);
    } else {
      WriteLeased(cmd, now, s, w, stamp, None, hold, pc);
    }
  }

  lemma ReclaimLeased(cmd: Command, now: int, s: KeyState, w: nat, stamp: int, etag: nat, f: Fault, s': KeyState)
    requires Leased(cmd, now, s) && w in s.workers && s.workers[w].hold.None?
    requires StaleVersion(now, s.record, etag) && ReclaimStep(s, w, stamp, etag, f, s')
    ensures Leased(cmd, now, s')
  {
    var Worker(hold, pc) := s'.workers[w];
    if f.ThrewBefore? || s.record.Absent? || s.record.etag != etag {
      QuietLeased(cmd, now, s, w, hold, pc);
    } else {
      WriteLeased(cmd, now, s, w, stamp, Some(etag), hold, pc);
    }
  }

  lemma FindLeased(cmd: Command, now: int, s: KeyState, w: nat, rest: seq<nat>, f: Fault, s': KeyState)
    requires Leased(cmd, now, s) && w in s.workers && FindStep(s, w, s.workers[w].hold, rest, f, s')
    ensures Leased(cmd, now, s')
  {
    var Worker(hold, pc) := s'.workers[w];
    if f.Ok? && s.events != [] {
      assert Covers(rest, s.events);
    }
    QuietLeased(cmd, now, s, w, hold, pc);
  }

  // More deliveries, or one more flag, disturb nobody.
  lemma FlagsGrow(cmd: Command, now: int, s: KeyState, s': KeyState)
    requires Leased(cmd, now, s) && KeyLeased(cmd, s')
    requires Calm(s, s') && s'.workers == s.workers
    ensures Leased(cmd, now, s')
  {
    forall v | v in s'.workers ensures WorkerLeased(cmd, now, s', v) {
      OthersKeep(cmd, now, s, s', v + 1, v);
    }
  }

  lemma DispatchLeased(cmd: Command, now: int, s: KeyState, w: nat, id: nat, next: Pc, c: Choice, s': KeyState)
    requires Leased(cmd, now, s) && w in s.workers && DispatchStep(s, w, s.workers[w].hold, id, next, c, s')
    requires PcPlaced(cmd, s, Worker(s.workers[w].hold, next))
    requires LiveHolder(now, s, w) ==> Progress(s, next)
    ensures Leased(cmd, now, s')
  {
    var t := s.(accepted := s'.accepted);
    FlagsGrow(cmd, now, s, t);
    QuietLeased(cmd, now, t, w, s.workers[w].hold, s'.workers[w].pc);
  }

  lemma FlagLeased(cmd: Command, now: int, s: KeyState, w: nat, id: nat, next: Pc, f: Fault, s': KeyState)
    requires Leased(cmd, now, s) && w in s.workers && FlagStep(s, w, s.workers[w].hold, id, next, f, s')
    requires PcPlaced(cmd, s, Worker(s.workers[w].hold, next))
    requires LiveHolder(now, s, w) ==> Progress(SetFlag(s, id), next)
    ensures Leased(cmd, now, s')
  {
    var t := if f.ThrewBefore? then s else SetFlag(s, id);
    FlagsGrow(cmd, now, s, t);
    QuietLeased(cmd, now, t, w, s.workers[w].hold, s'.workers[w].pc);
  }

  lemma AddLeased(cmd: Command, now: int, s: KeyState, w: nat, plan: seq<EventKind>, i: nat, f: Fault, s': KeyState)
    requires Sound(now, s) && Leased(cmd, now, s) && LiveHolder(now, s, w)
    requires s.workers[w].pc == Add(plan, i) && AddStep(s, w, s.workers[w].hold, plan, i, f, s')
    ensures Leased(cmd, now, s')
  {
    assert WorkerLeased(cmd, now, s, w);
    if f.ThrewBefore? {
      QuietLeased(cmd, now, s, w, s.workers[w].hold, Fail);
    } else {
      ActorAlone(cmd, now, s, w);
      MoveLeased(cmd, now, s, s', w);
    }
  }

  lemma SucceedLeased(cmd: Command, now: int, s: KeyState, w: nat, f: Fault, s': KeyState)
    requires Sound(now, s) && Leased(cmd, now, s) && LiveHolder(now, s, w)
    requires s.workers[w].pc.Succeed? && SucceedStep(s, now, w, s.workers[w].hold, f, s')
    ensures Leased(cmd, now, s')
  {
    assert WorkerLeased(cmd, now, s, w);
    if f.ThrewBefore? {
      QuietLeased(cmd, now, s, w, s.workers[w].hold, Fail);
    } else {
      ActorAlone(cmd, now, s, w);
      MoveLeased(cmd, now, s, s', w);
    }
  }

  lemma FailLeased(cmd: Command, now: int, s: KeyState, w: nat, f: Fault, s': KeyState)
    requires Sound(now, s) && Leased(cmd, now, s) && LiveHolder(now, s, w)
    requires FailStep(s, w, f, s')
    ensures Leased(cmd, now, s')
  {
    ActorAlone(cmd, now, s, w);
    MoveLeased(cmd, now, s, s', w);
  }

  lemma ReservationLeased(cmd: Command, now: int, s: KeyState, w: nat, c: Choice, s': KeyState)
    requires Sound(now, s) && Leased(cmd, now, s) && WorkerStep(cmd, now, s, w, c, s')
    requires s.workers[w].hold.None?
    requires var pc := s.workers[w].pc; pc.Insert? || pc.Lookup? || pc.Judge? || pc.TakeOver? || pc.Reclaim?
    ensures Leased(cmd, now, s')
  {
    assert WorkerSound(now, s, w);
    match s.workers[w].pc
    case Insert(stamp) => InsertLeased(cmd, now, s, w, stamp, c.f, s');
    case Reclaim(stamp, etag) => ReclaimLeased(cmd, now, s, w, stamp, etag, c.f, s');
    case Lookup(_) => QuietLeased(cmd, now, s, w, None, s'.workers[w].pc);
    case Judge(_, _) => QuietLeased(cmd, now, s, w, None, s'.workers[w].pc);
    case TakeOver(_) => QuietLeased(cmd, now, s, w, None, s'.workers[w].pc);
  }

  lemma ReplayFlagLeased(cmd: Command, now: int, s: KeyState, w: nat, rest: seq<nat>, c: Choice, s': KeyState)
    requires Leased(cmd, now, s) && WorkerStep(cmd, now, s, w, c, s')
    requires s.workers[w].pc == ReplayFlag(rest)
    ensures Leased(cmd, now, s')
  {
    assert WorkerLeased(cmd, now, s, w);
    assert rest == [rest[0]] + rest[1..];
    FlagLeased(cmd, now, s, w, rest[0], AfterReplayFlag(s.workers[w].hold, rest[1..]), c.f, s');
  }

  lemma ReplayLeased(cmd: Command, now: int, s: KeyState, w: nat, c: Choice, s': KeyState)
    requires Sound(now, s) && Leased(cmd, now, s) && WorkerStep(cmd, now, s, w, c, s')
    requires var pc := s.workers[w].pc; pc.Find? || pc.Replay? || pc.ReplayFlag?
    ensures Leased(cmd, now, s')
  {
    assert WorkerLeased(cmd, now, s, w);
    assert WorkerSound(now, s, w);
    match s.workers[w].pc
    case Find => FindLeased(cmd, now, s, w, c.rest, c.f, s');
    case Replay(rest) => DispatchLeased(cmd, now, s, w, rest[0], ReplayFlag(rest), c, s');
    case ReplayFlag(rest) => ReplayFlagLeased(cmd, now, s, w, rest, c, s');
  }

  lemma DeliveryLeased(cmd: Command, now: int, s: KeyState, w: nat, c: Choice, s': KeyState)
    requires Leased(cmd, now, s) && WorkerStep(cmd, now, s, w, c, s') && LiveHolder(now, s, w)
    requires s.workers[w].pc.Dispatch? || s.workers[w].pc.Flag?
    ensures Leased(cmd, now, s')
  {
    assert WorkerLeased(cmd, now, s, w);
    match s.workers[w].pc
    case Dispatch(plan, i, id) => DispatchLeased(cmd, now, s, w, id, Flag(plan, i, id), c, s');
    case Flag(plan, i, id) => FlagLeased(cmd, now, s, w, id, AfterFlag(plan, i), c.f, s');
  }

  lemma EmissionLeased(cmd: Command, now: int, s: KeyState, w: nat, c: Choice, s': KeyState)
    requires Sound(now, s) && Leased(cmd, now, s) && WorkerStep(cmd, now, s, w, c, s') && LiveHolder(now, s, w)
    requires var pc := s.workers[w].pc; pc.Decide? || pc.Add? || pc.Dispatch? || pc.Flag? || pc.Succeed? || pc.Fail?
    ensures Leased(cmd, now, s')
  {
    match s.workers[w].pc
    case Decide =>
      assert WorkerLeased(cmd, now, s, w);
      QuietLeased(cmd, now, s, w, s.workers[w].hold, s'.workers[w].pc);
    case Add(plan, i) => AddLeased(cmd, now, s, w, plan, i, c.f, s');
    case Succeed => SucceedLeased(cmd, now, s, w, c.f, s');
    case Fail => FailLeased(cmd, now, s, w, c.f, s');
    case Dispatch(_, _, _) => DeliveryLeased(cmd, now, s, w, c, s');
    case Flag(_, _, _) => DeliveryLeased(cmd, now, s, w, c, s');
  }

  /** The invariant of one key under the lease assumption. */
  ghost predicate KeyInv(cmd: Command, now: int, s: KeyState) {
    Sound(now, s) && Leased(cmd, now, s)
  }

  lemma InitInv(cmd: Command, now: int, s: KeyState)
    requires InitKey(s)
    ensures KeyInv(cmd, now, s)
  {
  }

  lemma TickInv(cmd: Command, now: int, now': int, s: KeyState)
    requires KeyInv(cmd, now, s) && now <= now'
    ensures KeyInv(cmd, now', s)
  {
    TickSound(now, now', s);
    TickLeased(cmd, now, now', s);
  }

  lemma StepLeased(cmd: Command, now: int, s: KeyState, a: Action, s': KeyState)
    requires KeyInv(cmd, now, s) && KeyStep(cmd, now, s, a, s') && WithinLease(now, s, a)
    ensures Leased(cmd, now, s')
  {
    match a
    case Run(w, c) =>
      var pc := s.workers[w].pc;
      assert WorkerLeased(cmd, now, s, w);
      if pc.Insert? || pc.Lookup? || pc.Judge? || pc.TakeOver? || pc.Reclaim? {
        ReservationLeased(cmd, now, s, w, c, s');
      } else if pc.Find? || pc.Replay? || pc.ReplayFlag? {
        ReplayLeased(cmd, now, s, w, c, s');
      } else {
        EmissionLeased(cmd, now, s, w, c, s');
      }
    case Deliver(w) => QuietLeased(cmd, now, s, w, None, Insert(now));
    case Crash(w) => QuietLeased(cmd, now, s, w, None, Threw);
    case _ =>
      forall v | v in s'.workers ensures WorkerLeased(cmd, now, s', v) {
        assert WorkerLeased(cmd, now, s, v);
      }
  }

  /** Every step within the lease keeps the invariant. */
  lemma StepInv(cmd: Command, now: int, s: KeyState, a: Action, s': KeyState)
    requires KeyInv(cmd, now, s) && KeyStep(cmd, now, s, a, s') && WithinLease(now, s, a)
    ensures KeyInv(cmd, now, s')
  {
    StepSound(cmd, now, s, a, s');
    StepLeased(cmd, now, s, a, s');
  }
}
