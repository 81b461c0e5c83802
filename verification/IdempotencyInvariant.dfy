/**
 What every step of the protocol keeps, with no timing assumption: row versions have single
 owners, a version is replaced at most once, and a Dispatched flag tells the truth.
 */
module IdempotencyInvariant {
  import opened Options
  import opened StorageFaults
  import opened IdempotencyProtocol

  // What run w may rely on.
  ghost predicate WorkerSound(now: int, s: KeyState, w: nat)
    requires w in s.workers
  {
    var Worker(hold, pc) := s.workers[w];
    // the version a run holds was written by that run
    && (hold.Some? ==> hold.value.etag in s.claims && s.claims[hold.value.etag].worker == w)
    && PcSound(now, s, pc)
  }

  ghost predicate PcSound(now: int, s: KeyState, pc: Pc) {
    match pc
    case Judge(seen, e) =>
      e < s.nextEtag && (s.record.Processing? && s.record.etag == e ==> s.record.updatedAt == seen)
    case TakeOver(e) => e < s.nextEtag && StaleVersion(now, s.record, e)
    case Reclaim(_, e) => e < s.nextEtag && StaleVersion(now, s.record, e)
    case Replay(rest) => rest != [] && AllBelow(rest, |s.events|)
    case ReplayFlag(rest) => rest != [] && rest[0] in s.accepted && AllBelow(rest, |s.events|)
    case Dispatch(_, _, id) => id < |s.events|
    case Flag(_, _, id) => id < |s.events| && id in s.accepted
    case _ => true
  }

  predicate StaleVersion(now: int, r: Record, etag: nat) {
    r.Processing? && r.etag == etag ==> Stale(r.updatedAt, now)
  }

  predicate AllBelow(ids: seq<nat>, n: nat) {
    forall k | 0 <= k < |ids| :: ids[k] < n
  }

  // Each version was written once and is replaced at most once; a replaced version is gone for good.
  ghost predicate VersionsSound(s: KeyState) {
    && (forall e | e in s.claims :: e < s.nextEtag && (s.claims[e].consumed.Some? ==> s.claims[e].consumed.value < e))
    && (forall e, e' | e in s.claims && e' in s.claims && s.claims[e].consumed.Some?
        && s.claims[e].consumed == s.claims[e'].consumed :: e == e')
    && (!s.record.Absent? ==>
          s.record.etag < s.nextEtag && forall e | e in s.claims :: s.claims[e].consumed != Some(s.record.etag))
  }

  ghost predicate FlagsSound(s: KeyState) {
    && (forall i | 0 <= i < |s.events| && s.events[i].dispatched :: i in s.accepted)
    && (forall i | i in s.accepted :: i < |s.events|)
  }

  ghost predicate Sound(now: int, s: KeyState) {
    && VersionsSound(s) && FlagsSound(s)
    && (forall w | w in s.workers :: WorkerSound(now, s, w))
  }

  lemma TickSound(now: int, now': int, s: KeyState)
    requires Sound(now, s) && now <= now'
    ensures Sound(now', s)
  {
    forall w | w in s.workers ensures WorkerSound(now', s, w) {
      assert WorkerSound(now, s, w);
    }
  }

  /** How a step changes the shared rows; everything a run knows survives it. */
  ghost predicate RowsGrow(s: KeyState, s': KeyState) {
    && s.nextEtag <= s'.nextEtag
    && (forall e | e in s.claims :: e in s'.claims && s'.claims[e] == s.claims[e])
    // the row keeps its version and contents, disappears, or gets a new version
    && (s'.record == s.record || s'.record.Absent? || s'.record.etag >= s.nextEtag)
    && |s.events| <= |s'.events|
    && (forall i | i in s.accepted :: i in s'.accepted)
  }

  lemma KnowledgeSurvives(now: int, s: KeyState, s': KeyState, v: nat)
    requires v in s.workers && v in s'.workers && s'.workers[v] == s.workers[v]
    requires WorkerSound(now, s, v) && RowsGrow(s, s')
    ensures WorkerSound(now, s', v)
  {
  }

  // A step that leaves the shared rows alone or changes them as RowsGrow says, and moves run w.
  lemma MoveSound(now: int, s: KeyState, s': KeyState, w: nat)
    requires Sound(now, s) && RowsGrow(s, s') && VersionsSound(s') && FlagsSound(s')
    requires w in s'.workers && s'.workers == s.workers[w := s'.workers[w]]
    requires WorkerSound(now, s', w)
    ensures Sound(now, s')
  {
    forall v | v in s'.workers ensures WorkerSound(now, s', v) {
      if v != w {
        KnowledgeSurvives(now, s, s', v);
      }
    }
  }

  lemma WriteVersions(s: KeyState, w: nat, stamp: int, consumed: Option<nat>)
    requires VersionsSound(s)
    requires consumed.Some? ==> !s.record.Absent? && s.record.etag == consumed.value
    ensures VersionsSound(WriteProcessing(s, w, stamp, consumed))
    ensures RowsGrow(s, WriteProcessing(s, w, stamp, consumed))
  {
  }

  // The run that wrote a new version, told Started or not.
  lemma WriteSound(now: int, s: KeyState, w: nat, stamp: int, consumed: Option<nat>, hold: Option<Hold>, pc: Pc)
    requires Sound(now, s)
    requires consumed.Some? ==> !s.record.Absent? && s.record.etag == consumed.value
    requires hold.Some? ==> hold.value.etag == s.nextEtag
    requires pc.Find? || pc.Lookup? || pc.Threw? || pc.Returned?
    ensures Sound(now, Goto(WriteProcessing(s, w, stamp, consumed), w, hold, pc))
  {
    WriteVersions(s, w, stamp, consumed);
    MoveSound(now, s, Goto(WriteProcessing(s, w, stamp, consumed), w, hold, pc), w);
  }

  lemma AcceptRows(s: KeyState, id: nat, n: nat)
    requires FlagsSound(s) && id < |s.events|
    ensures var s' := s.(accepted := s.accepted + Copies(id, n));
      FlagsSound(s') && RowsGrow(s, s') && (n > 0 ==> id in s'.accepted)
  {
    var s' := s.(accepted := s.accepted + Copies(id, n));
    assert forall i :: i in s'.accepted <==> i in s.accepted || (i == id && n > 0);
  }

  lemma InsertSound(now: int, s: KeyState, w: nat, stamp: int, f: Fault, s': KeyState)
    requires Sound(now, s) && InsertStep(s, w, stamp, f, s')
    ensures Sound(now, s')
  {
    var Worker(hold, pc) := s'.workers[w];
    if f.ThrewBefore? || !s.record.Absent? {
      QuietSound(now, s, w, hold, pc);
    } else {
      WriteSound(now, s, w, stamp, None, hold, pc);
    }
  }

  lemma LookupSound(now: int, s: KeyState, w: nat, stamp: int, f: Fault, s': KeyState)
    requires Sound(now, s) && LookupStep(s, w, stamp, f, s')
    ensures Sound(now, s')
  {
    MoveSound(now, s, s', w);
  }

  lemma ReclaimSound(now: int, s: KeyState, w: nat, stamp: int, etag: nat, f: Fault, s': KeyState)
    requires Sound(now, s) && ReclaimStep(s, w, stamp, etag, f, s')
    ensures Sound(now, s')
  {
    var Worker(hold, pc) := s'.workers[w];
    if f.ThrewBefore? || s.record.Absent? || s.record.etag != etag {
      QuietSound(now, s, w, hold, pc);
    } else {
      WriteSound(now, s, w, stamp, Some(etag), hold, pc);
    }
  }

  lemma FindSound(now: int, s: KeyState, w: nat, rest: seq<nat>, f: Fault, s': KeyState)
    requires Sound(now, s) && w in s.workers && FindStep(s, w, s.workers[w].hold, rest, f, s')
    ensures Sound(now, s')
  {
    assert WorkerSound(now, s, w);
    if s'.workers[w].pc == Replay(rest) {
      forall k | 0 <= k < |rest| ensures rest[k] < |s.events| {
        assert rest[k] in rest;
      }
    }
    MoveSound(now, s, s', w);
  }

  lemma DispatchSound(now: int, s: KeyState, w: nat, id: nat, next: Pc, c: Choice, s': KeyState)
    requires Sound(now, s) && w in s.workers && DispatchStep(s, w, s.workers[w].hold, id, next, c, s')
    requires id < |s.events| && PcSound(now, s.(accepted := s.accepted + multiset{id}), next)
    ensures Sound(now, s')
  {
    assert WorkerSound(now, s, w);
    AcceptRows(s, id, DispatchEvent(c.queue, c.cancelled, c.fallback).Takers());
    assert PcSound(now, s', s'.workers[w].pc);
    MoveSound(now, s, s', w);
  }

  lemma FlagSound(now: int, s: KeyState, w: nat, id: nat, next: Pc, f: Fault, s': KeyState)
    requires Sound(now, s) && w in s.workers && FlagStep(s, w, s.workers[w].hold, id, next, f, s')
    requires id in s.accepted && PcSound(now, s, next)
    ensures Sound(now, s')
  {
    assert WorkerSound(now, s, w);
    assert FlagsSound(s');
    assert PcSound(now, s', s'.workers[w].pc);
    MoveSound(now, s, s', w);
  }

  lemma AddSound(now: int, s: KeyState, w: nat, plan: seq<EventKind>, i: nat, f: Fault, s': KeyState)
    requires Sound(now, s) && w in s.workers && AddStep(s, w, s.workers[w].hold, plan, i, f, s')
    ensures Sound(now, s')
  {
    assert WorkerSound(now, s, w);
    MoveSound(now, s, s', w);
  }

  lemma SucceedSound(now: int, s: KeyState, w: nat, f: Fault, s': KeyState)
    requires Sound(now, s) && w in s.workers && SucceedStep(s, now, w, s.workers[w].hold, f, s')
    ensures Sound(now, s')
  {
    assert WorkerSound(now, s, w);
    MoveSound(now, s, s', w);
  }

  lemma FailSound(now: int, s: KeyState, w: nat, f: Fault, s': KeyState)
    requires Sound(now, s) && FailStep(s, w, f, s')
    ensures Sound(now, s')
  {
    MoveSound(now, s, s', w);
  }

  // The steps that change no shared row.
  lemma QuietSound(now: int, s: KeyState, w: nat, hold: Option<Hold>, pc: Pc)
    requires Sound(now, s) && PcSound(now, s, pc)
    requires hold.Some? ==> w in s.workers && hold == s.workers[w].hold
    ensures Sound(now, Goto(s, w, hold, pc))
  {
    if hold.Some? {
      assert WorkerSound(now, s, w);
    }
    MoveSound(now, s, Goto(s, w, hold, pc), w);
  }

  lemma ReservationSound(cmd: Command, now: int, s: KeyState, w: nat, c: Choice, s': KeyState)
    requires Sound(now, s) && WorkerStep(cmd, now, s, w, c, s')
    requires var pc := s.workers[w].pc; pc.Insert? || pc.Lookup? || pc.Judge? || pc.TakeOver? || pc.Reclaim?
    ensures Sound(now, s')
  {
    assert WorkerSound(now, s, w);
    match s.workers[w].pc
    case Insert(stamp) => InsertSound(now, s, w, stamp, c.f, s');
    case Lookup(stamp) => LookupSound(now, s, w, stamp, c.f, s');
    case Reclaim(stamp, etag) => ReclaimSound(now, s, w, stamp, etag, c.f, s');
    case Judge(_, _) => QuietSound(now, s, w, None, s'.workers[w].pc);
    case TakeOver(_) => QuietSound(now, s, w, None, s'.workers[w].pc);
  }

  lemma ReplaySound(cmd: Command, now: int, s: KeyState, w: nat, c: Choice, s': KeyState)
    requires Sound(now, s) && WorkerStep(cmd, now, s, w, c, s')
    requires var pc := s.workers[w].pc; pc.Find? || pc.Replay? || pc.ReplayFlag?
    ensures Sound(now, s')
  {
    assert WorkerSound(now, s, w);
    match s.workers[w].pc
    case Find => FindSound(now, s, w, c.rest, c.f, s');
    case Replay(rest) => DispatchSound(now, s, w, rest[0], ReplayFlag(rest), c, s');
    case ReplayFlag(rest) => FlagSound(now, s, w, rest[0], AfterReplayFlag(s.workers[w].hold, rest[1..]), c.f, s');
  }

  lemma EmissionSound(cmd: Command, now: int, s: KeyState, w: nat, c: Choice, s': KeyState)
    requires Sound(now, s) && WorkerStep(cmd, now, s, w, c, s')
    requires var pc := s.workers[w].pc; pc.Decide? || pc.Add? || pc.Dispatch? || pc.Flag? || pc.Succeed? || pc.Fail?
    ensures Sound(now, s')
  {
    assert WorkerSound(now, s, w);
    match s.workers[w].pc
    case Decide => QuietSound(now, s, w, s.workers[w].hold, s'.workers[w].pc);
    case Add(plan, i) => AddSound(now, s, w, plan, i, c.f, s');
    case Dispatch(plan, i, id) => DispatchSound(now, s, w, id, Flag(plan, i, id), c, s');
    case Flag(plan, i, id) => FlagSound(now, s, w, id, AfterFlag(plan, i), c.f, s');
    case Succeed => SucceedSound(now, s, w, c.f, s');
    case Fail => FailSound(now, s, w, c.f, s');
  }

  lemma WorkerStepSound(cmd: Command, now: int, s: KeyState, w: nat, c: Choice, s': KeyState)
    requires Sound(now, s) && WorkerStep(cmd, now, s, w, c, s')
    ensures Sound(now, s')
  {
    var pc := s.workers[w].pc;
    if pc.Insert? || pc.Lookup? || pc.Judge? || pc.TakeOver? || pc.Reclaim? {
      ReservationSound(cmd, now, s, w, c, s');
    } else if pc.Find? || pc.Replay? || pc.ReplayFlag? {
      ReplaySound(cmd, now, s, w, c, s');
    } else {
      EmissionSound(cmd, now, s, w, c, s');
    }
  }

  /** Every step keeps the row versions and flags sound, whatever the clock and the faults do. */
  lemma StepSound(cmd: Command, now: int, s: KeyState, a: Action, s': KeyState)
    requires Sound(now, s) && KeyStep(cmd, now, s, a, s')
    ensures Sound(now, s')
  {
    match a
    case Run(w, c) => WorkerStepSound(cmd, now, s, w, c, s');
    case Deliver(w) => QuietSound(now, s, w, None, Insert(now));
    case Crash(w) => QuietSound(now, s, w, None, Threw);
    case _ =>
      assert RowsGrow(s, s');
      forall v | v in s'.workers ensures WorkerSound(now, s', v) {
        KnowledgeSurvives(now, s, s', v);
      }
  }
}
