/**
 EnqueueCommands: a producer feeds payloads through a bounded channel to a
 pool of workers, and the first failing send cancels everybody.

 Payloads are named by their position in the batch, so that two commands
 with the same text stay two payloads.  A send may fail after the queue took
 the message.  Cancelling the caller's context and the derived context
 noticing it are two steps.
 */
module EnqueuePool {
  import opened Options

  datatype Worker =
    | Choosing             // in the select
    | Sending(payload: nat) // inside EnqueueMessage
    | Left                 // returned; counted down in the wait group

  datatype Outcome = AllSent | SendError(payload: nat) | ContextError

  datatype Pool = Pool(
    total: nat,                // payloads in the batch
    capacity: nat,             // of the channel
    next: nat,                 // payloads the producer has handed over
    channel: seq<nat>,
    closed: bool,
    workers: seq<Worker>,
    parentDone: bool,          // the caller's context
    done: bool,                // the derived context
    firstErr: Option<nat>,
    outcome: Option<Outcome>,
    attempts: seq<nat>,        // calls of EnqueueMessage, in order
    succeeded: multiset<nat>,  // calls that returned without error
    failures: seq<nat>,        // calls that returned an error, in the order they did
    queued: multiset<nat>      // messages the queue holds
  )

  datatype Action =
    | Offer
    | BreakOff
    | CloseAfterAll
    | Leave(w: nat)
    | Take(w: nat)
    | Drained(w: nat)
    | Succeed(w: nat)
    | Fail(w: nat, took: bool)
    | CancelParent
    | NoticeParent
    | Return

  ghost predicate Init(s: Pool, total: nat, concurrency: nat) {
    && total > 0
    && concurrency > 1
    && s.workers == Idle(if concurrency > total then total else concurrency)
    && s == Pool(total, |s.workers|, 0, [], false, s.workers, false, false, None, None,
                 [], multiset{}, [], multiset{})
  }

  function Idle(n: nat): (ws: seq<Worker>)
    ensures |ws| == n
    ensures forall w :: 0 <= w < n ==> ws[w] == Choosing
  {
    if n == 0 then [] else Idle(n - 1) + [Choosing]
  }

  predicate At(s: Pool, w: nat, pc: Worker) {
    w < |s.workers| && s.workers[w] == pc
  }

  predicate Busy(s: Pool, w: nat) {
    w < |s.workers| && s.workers[w].Sending?
  }

  ghost predicate AllLeft(s: Pool) {
    forall w :: 0 <= w < |s.workers| ==> s.workers[w] == Left
  }

  /** Whether the action can happen now. */
  ghost predicate Enabled(s: Pool, a: Action) {
    && s.outcome.None?
    && match a
       case Offer => !s.closed && s.next < s.total && |s.channel| < s.capacity
       case BreakOff => !s.closed && s.next < s.total && s.done
       case CloseAfterAll => !s.closed && s.next == s.total
       case Leave(w) => At(s, w, Choosing) && s.done
       case Take(w) => At(s, w, Choosing) && s.channel != []
       case Drained(w) => At(s, w, Choosing) && s.closed && s.channel == []
       case Succeed(w) => Busy(s, w)
       case Fail(w, took) => Busy(s, w)
       case CancelParent => !s.parentDone
       case NoticeParent => s.parentDone && !s.done
       case Return => s.closed && AllLeft(s)
  }

  ghost function Apply(s: Pool, a: Action): (t: Pool)
    requires Enabled(s, a)
  {
    match a
    case Offer => s.(next := s.next + 1, channel := s.channel + [s.next])
    case BreakOff => s.(closed := true)
    case CloseAfterAll => s.(closed := true)
    case Leave(w) => s.(workers := s.workers[w := Left])
    case Take(w) =>
      s.(workers := s.workers[w := Sending(s.channel[0])],
         channel := s.channel[1..],
         attempts := s.attempts + [s.channel[0]])
    case Drained(w) => s.(workers := s.workers[w := Left])
    case Succeed(w) =>
      var sent := multiset{s.workers[w].payload};
      s.(workers := s.workers[w := Choosing], succeeded := s.succeeded + sent, queued := s.queued + sent)
    case Fail(w, took) =>
      var sent := multiset{s.workers[w].payload};
      s.(workers := s.workers[w := Left],
         failures := s.failures + [s.workers[w].payload],
         queued := if took then s.queued + sent else s.queued,
         firstErr := if s.firstErr.None? then Some(s.workers[w].payload) else s.firstErr,
         done := true)
    case CancelParent => s.(parentDone := true)
    case NoticeParent => s.(done := true)
    case Return =>
      s.(outcome := Some(
           if s.firstErr.Some? then SendError(s.firstErr.value)
           else if s.parentDone then ContextError
           else AllSent))
  }

  ghost predicate StepAt(states: seq<Pool>, actions: seq<Action>, i: nat)
    requires i + 1 < |states| && i < |actions|
  {
    Enabled(states[i], actions[i]) && states[i + 1] == Apply(states[i], actions[i])
  }

  /** A schedule of the pool, from the start of the call. */
  ghost predicate IsRun(states: seq<Pool>, actions: seq<Action>, total: nat, concurrency: nat) {
    && |states| == |actions| + 1
    && Init(states[0], total, concurrency)
    && forall i :: 0 <= i < |actions| ==> StepAt(states, actions, i)
  }

  // ---------------------------------------------------------------------
  // What the workers are sending

  function Own(w: Worker, p: nat): nat {
    if w == Sending(p) then 1 else 0
  }

  /** How many workers are sending payload p. */
  function Flying(ws: seq<Worker>, p: nat): nat {
    if ws == [] then 0 else Flying(ws[..|ws| - 1], p) + Own(ws[|ws| - 1], p)
  }

  lemma {:induction false} FlyingMoves(ws: seq<Worker>, w: nat, pc: Worker, p: nat)
    requires w < |ws|
    ensures Flying(ws[w := pc], p) + Own(ws[w], p) == Flying(ws, p) + Own(pc, p)
    decreases |ws|
  {
    var last := |ws| - 1;
    var ws' := ws[w := pc];
    if w == last {
      assert ws'[..last] == ws[..last];
    } else {
      assert ws'[..last] == ws[..last][w := pc];
      FlyingMoves(ws[..last], w, pc, p);
    }
  }

  lemma {:induction false} NothingFlies(ws: seq<Worker>, p: nat)
    requires forall w :: 0 <= w < |ws| ==> !ws[w].Sending?
    ensures Flying(ws, p) == 0
    decreases |ws|
  {
    if ws == [] {
    } else {
      NothingFlies(ws[..|ws| - 1], p);
    }
  }

  // ---------------------------------------------------------------------
  // The invariant

  /** The payloads handed over so far were tried, in order, or wait in the channel. */
  ghost predicate InOrder(s: Pool) {
    && |s.attempts| + |s.channel| == s.next <= s.total
    && (forall k :: 0 <= k < |s.attempts| ==> s.attempts[k] == k)
    && (forall k :: 0 <= k < |s.channel| ==> s.channel[k] == |s.attempts| + k)
  }

  /** Every attempt of p is accounted for once. */
  ghost predicate BalancedFor(s: Pool, p: nat) {
    && multiset(s.attempts)[p] == s.succeeded[p] + multiset(s.failures)[p] + Flying(s.workers, p)
    && s.succeeded[p] <= s.queued[p] <= s.succeeded[p] + multiset(s.failures)[p]
  }

  ghost predicate Balanced(s: Pool) {
    forall p: nat :: BalancedFor(s, p)
  }

  ghost predicate AnyLeft(s: Pool) {
    exists w :: 0 <= w < |s.workers| && s.workers[w] == Left
  }

  /** Leaving early and closing early both need a cancelled context. */
  ghost predicate Causes(s: Pool) {
    && (s.done ==> s.parentDone || s.firstErr.Some?)
    && (s.firstErr.Some? ==> s.done)
    && s.firstErr == (if s.failures == [] then None else Some(s.failures[0]))
    && (s.closed ==> s.done || s.next == s.total)
    && (AnyLeft(s) ==> s.done || (s.closed && s.channel == []))
  }

  ghost predicate Returned(s: Pool) {
    s.outcome.Some? ==>
      && s.closed
      && AllLeft(s)
      && (s.outcome == Some(AllSent) ==> s.firstErr.None? && !s.parentDone)
      && (s.outcome.value.SendError? ==> s.firstErr == Some(s.outcome.value.payload))
      && (s.outcome == Some(ContextError) ==> s.firstErr.None? && s.parentDone)
  }

  ghost predicate Inv(s: Pool) {
    && |s.workers| == s.capacity > 0 && |s.channel| <= s.capacity
    && InOrder(s)
    && Balanced(s)
    && Causes(s)
    && Returned(s)
  }

  lemma InitInv(s: Pool, total: nat, concurrency: nat)
    requires Init(s, total, concurrency)
    ensures Inv(s)
  {
    forall p: nat ensures BalancedFor(s, p) {
      NothingFlies(s.workers, p);
    }
  }

  lemma StepInOrder(s: Pool, a: Action)
    requires InOrder(s) && Enabled(s, a)
    ensures InOrder(Apply(s, a))
  {
  }

  lemma SendBalanced(s: Pool, a: Action, p: nat)
    requires BalancedFor(s, p) && Enabled(s, a) && (a.Take? || a.Succeed? || a.Fail?)
    ensures BalancedFor(Apply(s, a), p)
  {
    match a
    case Take(w) => FlyingMoves(s.workers, w, Sending(s.channel[0]), p);
    case Succeed(w) => FlyingMoves(s.workers, w, Choosing, p);
    case Fail(w, took) => FlyingMoves(s.workers, w, Left, p);
  }

  lemma StepBalanced(s: Pool, a: Action, p: nat)
    requires BalancedFor(s, p) && Enabled(s, a)
    ensures BalancedFor(Apply(s, a), p)
  {
    match a
    case Offer | BreakOff | CloseAfterAll | CancelParent | NoticeParent | Return =>
    case Leave(w) => FlyingMoves(s.workers, w, Left, p);
    case Drained(w) => FlyingMoves(s.workers, w, Left, p);
    case Take(_) | Succeed(_) | Fail(_, _) => SendBalanced(s, a, p);
  }

  lemma StepCauses(s: Pool, a: Action)
    requires Inv(s) && Enabled(s, a)
    ensures Causes(Apply(s, a))
  {
    var t := Apply(s, a);
    if AnyLeft(t) && !AnyLeft(s) {
      assert a.Leave? || a.Drained? || a.Fail?;
    }
  }

  lemma StepInv(s: Pool, a: Action)
    requires Inv(s) && Enabled(s, a)
    ensures Inv(Apply(s, a))
  {
    StepInOrder(s, a);
    forall p: nat ensures BalancedFor(Apply(s, a), p) {
      assert BalancedFor(s, p);
      StepBalanced(s, a, p);
    }
    StepCauses(s, a);
  }

  lemma {:induction false} RunInv(states: seq<Pool>, actions: seq<Action>, total: nat, concurrency: nat, i: nat)
    requires IsRun(states, actions, total, concurrency) && i <= |actions|
    ensures Inv(states[i]) && states[i].total == total
  {
    if i == 0 {
      InitInv(states[0], total, concurrency);
    } else {
      RunInv(states, actions, total, concurrency, i - 1);
      assert StepAt(states, actions, i - 1);
      StepInv(states[i - 1], actions[i - 1]);
    }
  }

  // ---------------------------------------------------------------------
  // Conservation

  lemma {:induction false} CountingUp(s: seq<nat>, i: nat)
    requires forall k :: 0 <= k < |s| ==> s[k] == k
    ensures multiset(s)[i] == if i < |s| then 1 else 0
    decreases |s|
  {
    if s == [] {
    } else {
      var last := |s| - 1;
      assert s == s[..last] + [s[last]];
      CountingUp(s[..last], i);
    }
  }

  /** In every schedule a payload is tried, and reaches the queue, at most once; no stranger is sent. */
  lemma AttemptedAtMostOnce(states: seq<Pool>, actions: seq<Action>, total: nat, concurrency: nat, i: nat, p: nat)
    requires IsRun(states, actions, total, concurrency) && i <= |actions|
    ensures multiset(states[i].attempts)[p] <= if p < total then 1 else 0
    ensures states[i].queued[p] <= multiset(states[i].attempts)[p]
  {
    RunInv(states, actions, total, concurrency, i);
    assert BalancedFor(states[i], p);
    CountingUp(states[i].attempts, p);
  }

  /** A nil result means that every payload was sent, successfully and exactly once. */
  lemma NilMeansAllSent(states: seq<Pool>, actions: seq<Action>, total: nat, concurrency: nat, i: nat, p: nat)
    requires IsRun(states, actions, total, concurrency) && i <= |actions|
    requires states[i].outcome == Some(AllSent)
    ensures states[i].failures == []
    ensures states[i].succeeded[p] == states[i].queued[p] == if p < total then 1 else 0
  {
    RunInv(states, actions, total, concurrency, i);
    var s := states[i];
    assert s.workers[0] == Left;
    NothingFlies(s.workers, p);
    assert BalancedFor(s, p);
    assert s.channel == [] && s.next == s.total;
    CountingUp(s.attempts, p);
  }

  /** An error result is that of the first send that failed; a context error means that the caller had
      cancelled and no send had failed. */
  lemma ErrorIsReal(states: seq<Pool>, actions: seq<Action>, total: nat, concurrency: nat, i: nat)
    requires IsRun(states, actions, total, concurrency) && i <= |actions|
    requires states[i].outcome.Some?
    ensures states[i].outcome.value.SendError? ==>
      states[i].failures != [] && states[i].outcome.value.payload == states[i].failures[0]
    ensures states[i].outcome.value.ContextError? ==> states[i].parentDone && states[i].failures == []
  {
    RunInv(states, actions, total, concurrency, i);
  }

  /** The pool is bounded: never more workers than asked for or than payloads, and no more payloads waiting
      in the channel than there are workers. */
  lemma PoolIsBounded(states: seq<Pool>, actions: seq<Action>, total: nat, concurrency: nat, i: nat)
    requires IsRun(states, actions, total, concurrency) && i <= |actions|
    ensures |states[i].workers| == if concurrency < total then concurrency else total
    ensures |states[i].channel| <= |states[i].workers|
  {
    RunInv(states, actions, total, concurrency, i);
    SameWorkers(states, actions, total, concurrency, i);
  }

  lemma {:induction false} SameWorkers(states: seq<Pool>, actions: seq<Action>, total: nat, concurrency: nat, i: nat)
    requires IsRun(states, actions, total, concurrency) && i <= |actions|
    ensures |states[i].workers| == |states[0].workers|
  {
    if i == 0 {
    } else {
      SameWorkers(states, actions, total, concurrency, i - 1);
      assert StepAt(states, actions, i - 1);
    }
  }

  // ---------------------------------------------------------------------
  // Liveness: never stuck, and every schedule is short

  /** Some step other than a cancellation by the caller is possible until the call returns. */
  lemma NeverStuck(s: Pool) returns (a: Action)
    requires Inv(s) && s.outcome.None?
    ensures Enabled(s, a) && a != CancelParent
  {
    if w :| 0 <= w < |s.workers| && s.workers[w].Sending? {
      return Succeed(w);
    }
    if AllLeft(s) {
      assert s.workers[0] == Left;
      if s.closed {
        return Return;
      }
      return if s.next < s.total then BreakOff else CloseAfterAll;
    }
    var w :| 0 <= w < |s.workers| && s.workers[w] != Left;
    if s.channel != [] {
      return Take(w);
    }
    if s.closed {
      return Drained(w);
    }
    return if s.next < s.total then Offer else CloseAfterAll;
  }

  function Weight(w: Worker): nat {
    match w
    case Choosing => 1
    case Sending(_) => 3
    case Left => 0
  }

  function Weights(ws: seq<Worker>): nat {
    if ws == [] then 0 else Weights(ws[..|ws| - 1]) + Weight(ws[|ws| - 1])
  }

  lemma {:induction false} WeightsMove(ws: seq<Worker>, w: nat, pc: Worker)
    requires w < |ws|
    ensures Weights(ws[w := pc]) + Weight(ws[w]) == Weights(ws) + Weight(pc)
    decreases |ws|
  {
    var last := |ws| - 1;
    if w == last {
      assert ws[w := pc][..last] == ws[..last];
    } else {
      assert ws[w := pc][..last] == ws[..last][w := pc];
      WeightsMove(ws[..last], w, pc);
    }
  }

  lemma {:induction false} IdleWeights(n: nat)
    ensures Weights(Idle(n)) == n
  {
    if n == 0 {
    } else {
      IdleWeights(n - 1);
      assert Idle(n)[..n - 1] == Idle(n - 1);
    }
  }

  function Once(b: bool): nat {
    if b then 0 else 1
  }

  ghost function Measure(s: Pool): int {
    4 * (s.total - s.next) + 3 * |s.channel| + Weights(s.workers)
    + Once(s.closed) + Once(s.parentDone) + Once(s.done) + Once(s.outcome.Some?)
  }

  lemma WorkerShrinks(s: Pool, a: Action, w: nat, pc: Worker)
    requires InOrder(s) && Enabled(s, a) && w < |s.workers|
    requires Apply(s, a).workers == s.workers[w := pc]
    requires a.Take? || Weight(pc) < Weight(s.workers[w])
    requires a == Leave(w) || a == Take(w) || a == Drained(w) || a == Succeed(w) || (a.Fail? && a.w == w)
    ensures Measure(Apply(s, a)) < Measure(s)
  {
    WeightsMove(s.workers, w, pc);
  }

  lemma StepShrinks(s: Pool, a: Action)
    requires InOrder(s) && Enabled(s, a)
    ensures 0 <= Measure(Apply(s, a)) < Measure(s)
  {
    StepInOrder(s, a);
    match a
    case Offer | BreakOff | CloseAfterAll | CancelParent | NoticeParent | Return =>
    case Leave(w) => WorkerShrinks(s, a, w, Left);
    case Drained(w) => WorkerShrinks(s, a, w, Left);
    case Take(w) => WorkerShrinks(s, a, w, Sending(s.channel[0]));
    case Succeed(w) => WorkerShrinks(s, a, w, Choosing);
    case Fail(w, took) => WorkerShrinks(s, a, w, Left);
  }

  lemma {:induction false} RunShrinks(states: seq<Pool>, actions: seq<Action>, total: nat, concurrency: nat, i: nat)
    requires IsRun(states, actions, total, concurrency) && i <= |actions|
    ensures 0 <= Measure(states[i]) <= Measure(states[0]) - i
  {
    if i == 0 {
      RunInv(states, actions, total, concurrency, 0);
    } else {
      RunShrinks(states, actions, total, concurrency, i - 1);
      RunInv(states, actions, total, concurrency, i - 1);
      assert StepAt(states, actions, i - 1);
      StepShrinks(states[i - 1], actions[i - 1]);
    }
  }

  /** No schedule is longer than this, so a pool that keeps taking steps returns. */
  lemma SchedulesAreBounded(states: seq<Pool>, actions: seq<Action>, total: nat, concurrency: nat)
    requires IsRun(states, actions, total, concurrency)
    ensures |actions| <= 5 * total + 4
  {
    RunShrinks(states, actions, total, concurrency, |actions|);
    IdleWeights(|states[0].workers|);
  }

  /** A schedule that cannot be continued has returned. */
  lemma MaximalRunReturns(states: seq<Pool>, actions: seq<Action>, total: nat, concurrency: nat)
    requires IsRun(states, actions, total, concurrency)
    requires forall a: Action :: a != CancelParent ==> !Enabled(states[|actions|], a)
    ensures states[|actions|].outcome.Some?
  {
    RunInv(states, actions, total, concurrency, |actions|);
    if states[|actions|].outcome.None? {
      var a := NeverStuck(states[|actions|]);
    }
  }

  // ---------------------------------------------------------------------
  // One worker: the plain loop

  /** What one EnqueueMessage call does to the queue and to its caller. */
  datatype Reply = Accepted | Refused(took: bool)

  /** With a concurrency of one or less the successful sends are a prefix of the batch. */
  method EnqueueSequentially(payloads: seq<string>, replies: seq<Reply>)
    returns (sent: nat, ok: bool, queue: seq<string>)
    requires |replies| == |payloads|
    ensures sent <= |payloads|
    ensures forall k :: 0 <= k < sent ==> replies[k] == Accepted
    ensures ok <==> forall k :: 0 <= k < |replies| ==> replies[k] == Accepted
    ensures ok ==> sent == |payloads| && queue == payloads
    ensures !ok ==> sent < |payloads| && replies[sent].Refused?
    ensures !ok ==> queue == if replies[sent].took then payloads[..sent + 1] else payloads[..sent]
  {
    sent, queue := 0, [];
    while sent < |payloads|
      invariant sent <= |payloads|
      invariant forall k :: 0 <= k < sent ==> replies[k] == Accepted
      invariant queue == payloads[..sent]
    {
      if replies[sent].Refused? {
        if replies[sent].took {
          queue := queue + [payloads[sent]];
        }
        return sent, false, queue;
      }
      queue := queue + [payloads[sent]];
      sent := sent + 1;
    }
    ok := true;
  }
}
