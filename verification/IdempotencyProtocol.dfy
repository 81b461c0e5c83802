/**
 The reservation, lease, replay and clean-up protocol that guards one idempotency key.

 The storage rows a key owns (its idempotency record and the events that carry the key) are shared
 by any number of handler runs.  Each storage call is one atomic step; a call may also throw,
 before or after it took effect, and the client library may retry a call that already took effect.
 */
module IdempotencyProtocol {
  import opened Options
  import opened StorageFaults

  // ProcessingLeaseDuration, in milliseconds.
  const LEASE := 30_000

  datatype EventKind = TaskCreated | UserCreated | UserLoggedIn | SettingsCreated

  datatype Command = CreateTask | LoginUser

  // The event sequences a run of the handler may decide to emit.
  predicate Chooses(cmd: Command, plan: seq<EventKind>) {
    match cmd
    case CreateTask => plan == [TaskCreated]
    case LoginUser => plan == [UserLoggedIn] || plan == [UserCreated, SettingsCreated]
  }

  // The row under the "__idempotency__" partition.  Every write gives the row a new ETag.
  datatype Record =
    | Absent
    | Processing(updatedAt: Option<int>, etag: nat)
    | Completed(updatedAt: Option<int>, etag: nat)

  // An event row; its position in the store stands for its GUID.
  datatype StoredEvent = StoredEvent(kind: EventKind, dispatched: bool)

  // Stored events stay, and so do their flags.
  ghost predicate Kept(before: seq<StoredEvent>, after: seq<StoredEvent>) {
    && |before| <= |after|
    && (forall i | 0 <= i < |before| ::
          after[i].kind == before[i].kind && (before[i].dispatched ==> after[i].dispatched))
  }

  // What a run that was told Started remembers of the row version it wrote.
  datatype Hold = Hold(stamp: int, etag: nat)

  // Where a handler run stands.
  datatype Pc =
    | Insert(stamp: int)                             // about to add the Processing row
    | Lookup(stamp: int)                             // the insert conflicted; about to read the row
    | Judge(seen: Option<int>, etag: nat)            // about to test a Processing row for staleness
    | TakeOver(etag: nat)                            // the row was stale; about to build the takeover row
    | Reclaim(stamp: int, etag: nat)                 // about to replace the row version etag
    | Find                                           // about to query the stored events
    | Replay(rest: seq<nat>)                         // about to dispatch rest[0]
    | ReplayFlag(rest: seq<nat>)                     // rest[0] dispatched; about to flag it
    | Decide                                         // nothing stored; about to choose what to emit
    | Add(plan: seq<EventKind>, i: nat)              // about to store plan[i]
    | Dispatch(plan: seq<EventKind>, i: nat, id: nat)
    | Flag(plan: seq<EventKind>, i: nat, id: nat)
    | Succeed                                        // about to upsert Completed
    | Fail                                           // in the catch block; about to delete the row
    | Returned
    | Threw

  // A handler run; hold is set from the moment it is told Started until it ends.
  datatype Worker = Worker(hold: Option<Hold>, pc: Pc)

  // History: who wrote a Processing row version, and which version it replaced.
  datatype Claim = Claim(worker: nat, consumed: Option<nat>)

  // The rows of one key, the runs working on it, and the history the properties speak about.
  datatype KeyState = KeyState(
    record: Record,
    nextEtag: nat,
    events: seq<StoredEvent>,
    accepted: multiset<nat>,          // deliveries taken by the queue or the HTTP fallback, by event position
    workers: map<nat, Worker>,
    pendingDeletes: nat,              // cleaner runs that saw the row Completed and have not deleted it yet
    completedOnce: bool,              // history: Completed was written at least once
    firstPlan: Option<seq<EventKind>>,// history: what the first run to store an event had chosen
    claims: map<nat, Claim>)          // history: by the ETag of the version written

  // IsProcessingStale
  predicate Stale(updatedAt: Option<int>, now: int) {
    updatedAt.None? || now - updatedAt.value >= LEASE
  }

  // A delivery now is not turned away.
  predicate Ready(now: int, record: Record) {
    record.Absent? || record.Completed? || Stale(record.updatedAt, now)
  }

  // How one receiver answers.
  datatype Sending = Accepts | Refuses | AcceptsThenThrows

  // How a dispatch ends, and who has the event then.
  datatype Dispatched = Dispatched(returned: bool, byQueue: bool, byFallback: bool) {
    function Takers(): nat {
      (if byQueue then 1 else 0) + (if byFallback then 1 else 0)
    }
  }

  /** ResilientEventDispatcher: the queue first, then the HTTP fallback unless the call was cancelled. */
  function DispatchEvent(queue: Sending, cancelled: bool, fallback: Sending): (r: Dispatched)
    ensures r.returned <==> queue.Accepts? || (!cancelled && fallback.Accepts?)
    // an exception does not mean that nobody has it
    ensures r.byQueue <==> !queue.Refuses?
    // the fallback is tried only when the queue call threw and nobody cancelled
    ensures r.byFallback <==> !queue.Accepts? && !cancelled && !fallback.Refuses?
    ensures r.returned ==> r.Takers() >= 1
  {
    match queue
    case Accepts => Dispatched(true, true, false)
    case Refuses => SendToFallback(false, cancelled, fallback)
    case AcceptsThenThrows => SendToFallback(true, cancelled, fallback)
  }

  // After the queue call threw
  function SendToFallback(byQueue: bool, cancelled: bool, fallback: Sending): Dispatched {
    if cancelled then Dispatched(false, byQueue, false)
    else match fallback
      case Accepts => Dispatched(true, byQueue, true)
      case Refuses => Dispatched(false, byQueue, false)
      case AcceptsThenThrows => Dispatched(false, byQueue, true)
  }

  function Copies(id: nat, n: nat): multiset<nat> {
    multiset{}[id := n]
  }

  // rest lists exactly the stored events that are not flagged, in some order
  ghost predicate Pending(rest: seq<nat>, events: seq<StoredEvent>) {
    forall i: nat :: i in rest <==> i < |events| && !events[i].dispatched
  }

  function Goto(s: KeyState, w: nat, hold: Option<Hold>, pc: Pc): KeyState {
    s.(workers := s.workers[w := Worker(hold, pc)])
  }

  // A write of a Processing row by run w, replacing version consumed (None: a plain insert).
  function WriteProcessing(s: KeyState, w: nat, stamp: int, consumed: Option<nat>): KeyState {
    s.(record := Processing(Some(stamp), s.nextEtag), nextEtag := s.nextEtag + 1,
       claims := s.claims[s.nextEtag := Claim(w, consumed)])
  }

  function WriteCompleted(s: KeyState, now: int): KeyState {
    s.(record := Completed(Some(now), s.nextEtag), nextEtag := s.nextEtag + 1, completedOnce := true)
  }

  function AppendEvent(s: KeyState, plan: seq<EventKind>, i: nat): KeyState
    requires i < |plan|
  {
    s.(events := s.events + [StoredEvent(plan[i], false)],
       firstPlan := if s.firstPlan.None? then Some(plan) else s.firstPlan)
  }

  function SetFlag(s: KeyState, id: nat): KeyState
    requires id < |s.events|
  {
    s.(events := s.events[id := s.events[id].(dispatched := true)])
  }

  // The run ends.
  function Exit(s: KeyState, w: nat, pc: Pc): KeyState {
    Goto(s, w, None, pc)
  }

  // After an exception: inside the try block the run goes to the catch block, outside it just throws.
  function Unwind(s: KeyState, w: nat, hold: Option<Hold>): KeyState {
    Goto(s, w, hold, if hold.Some? then Fail else Threw)
  }

  // The replay loop with rest still to send; when it is done the run marks success if it was Started.
  function ReplayOn(s: KeyState, w: nat, hold: Option<Hold>, rest: seq<nat>): KeyState {
    Goto(s, w, hold, AfterReplayFlag(hold, rest))
  }

  // TryStartProcessing: AddEntityAsync
  ghost predicate InsertStep(s: KeyState, w: nat, stamp: int, f: Fault, s': KeyState) {
    if f.ThrewBefore? then s' == Exit(s, w, Threw)
    else if !s.record.Absent? then f.Ok? && s' == Goto(s, w, None, Lookup(stamp))
    else
      var t := WriteProcessing(s, w, stamp, None);
      s' == match f
            case Ok => Goto(t, w, Some(Hold(stamp, s.nextEtag)), Find)
            case Retried => Goto(t, w, None, Lookup(stamp))
            case _ => Exit(t, w, Threw)
  }

  // TryStartProcessing: GetIdempotencyRecord and the Completed test
  ghost predicate LookupStep(s: KeyState, w: nat, stamp: int, f: Fault, s': KeyState) {
    if !f.Ok? then f.ThrewBefore? && s' == Exit(s, w, Threw)
    else
      s' == Goto(s, w, None,
        match s.record
        case Absent => Insert(stamp)
        case Completed(_, _) => Find
        case Processing(u, e) => Judge(u, e))
  }

  // TryReclaimProcessing: UpdateEntityAsync with the ETag that was read
  ghost predicate ReclaimStep(s: KeyState, w: nat, stamp: int, etag: nat, f: Fault, s': KeyState) {
    if f.ThrewBefore? then s' == Exit(s, w, Threw)
    else if s.record.Absent? || s.record.etag != etag then f.Ok? && s' == Exit(s, w, Returned)
    else
      var t := WriteProcessing(s, w, stamp, Some(etag));
      s' == match f
            case Ok => Goto(t, w, Some(Hold(stamp, s.nextEtag)), Find)
            case Retried => Exit(t, w, Returned)
            case _ => Exit(t, w, Threw)
  }

  // ReplayStoredEvents: FindByIdempotencyKey
  ghost predicate FindStep(s: KeyState, w: nat, hold: Option<Hold>, rest: seq<nat>, f: Fault, s': KeyState) {
    if !f.Ok? then f.ThrewBefore? && s' == Unwind(s, w, hold)
    else if s.events == [] then s' == Goto(s, w, hold, if hold.Some? then Decide else Returned)
    else Pending(rest, s.events) && s' == ReplayOn(s, w, hold, rest)
  }

  // IEventDispatcher.Dispatch of the stored event id
  ghost predicate DispatchStep(s: KeyState, w: nat, hold: Option<Hold>, id: nat, next: Pc, c: Choice, s': KeyState) {
    var d := DispatchEvent(c.queue, c.cancelled, c.fallback);
    var t := s.(accepted := s.accepted + Copies(id, d.Takers()));
    s' == if d.returned then Goto(t, w, hold, next) else Unwind(t, w, hold)
  }

  // MarkAsDispatched
  ghost predicate FlagStep(s: KeyState, w: nat, hold: Option<Hold>, id: nat, next: Pc, f: Fault, s': KeyState) {
    id < |s.events| &&
    match f
    case ThrewBefore => s' == Unwind(s, w, hold)
    case ThrewAfter => s' == Unwind(SetFlag(s, id), w, hold)
    case _ => s' == Goto(SetFlag(s, id), w, hold, next)
  }

  // Add
  ghost predicate AddStep(s: KeyState, w: nat, hold: Option<Hold>, plan: seq<EventKind>, i: nat, f: Fault,
                          s': KeyState)
  {
    i < |plan| &&
    match f
    case Ok => s' == Goto(AppendEvent(s, plan, i), w, hold, Dispatch(plan, i, |s.events|))
    case ThrewBefore => s' == Unwind(s, w, hold)
    // a retried insert reports a conflict, which is an exception here
    case _ => s' == Unwind(AppendEvent(s, plan, i), w, hold)
  }

  // MarkProcessingSucceeded
  ghost predicate SucceedStep(s: KeyState, now: int, w: nat, hold: Option<Hold>, f: Fault, s': KeyState) {
    match f
    case ThrewBefore => s' == Unwind(s, w, hold)
    case ThrewAfter => s' == Unwind(WriteCompleted(s, now), w, hold)
    case _ => s' == Exit(WriteCompleted(s, now), w, Returned)
  }

  // MarkProcessingFailed, after which the handler rethrows
  ghost predicate FailStep(s: KeyState, w: nat, f: Fault, s': KeyState) {
    s' == Exit(if f.ThrewBefore? then s else s.(record := Absent), w, Threw)
  }

  function AfterReplayFlag(hold: Option<Hold>, rest: seq<nat>): Pc {
    if rest != [] then Replay(rest) else if hold.Some? then Succeed else Returned
  }

  function AfterFlag(plan: seq<EventKind>, i: nat): Pc {
    if i + 1 < |plan| then Add(plan, i + 1) else Succeed
  }

  // The outside choices of one step.
  datatype Choice = Choice(f: Fault, rest: seq<nat>, plan: seq<EventKind>,
                           queue: Sending, cancelled: bool, fallback: Sending)

  // A step in which no call fails: a refusal by the queue is made good by the fallback.
  predicate Smooth(c: Choice) {
    c.f.Ok? && (c.queue.Accepts? || (!c.cancelled && c.fallback.Accepts?))
  }

  /** One step of run w, following the handler from its program point. */
  ghost predicate WorkerStep(cmd: Command, now: int, s: KeyState, w: nat, c: Choice, s': KeyState) {
    w in s.workers &&
    var Worker(hold, pc) := s.workers[w];
    match pc
    case Insert(stamp) => InsertStep(s, w, stamp, c.f, s')
    case Lookup(stamp) => LookupStep(s, w, stamp, c.f, s')
    case Judge(seen, etag) =>
      s' == if Stale(seen, now) then Goto(s, w, None, TakeOver(etag)) else Exit(s, w, Returned)
    case TakeOver(etag) => s' == Goto(s, w, None, Reclaim(now, etag))
    case Reclaim(stamp, etag) => ReclaimStep(s, w, stamp, etag, c.f, s')
    case Find => FindStep(s, w, hold, c.rest, c.f, s')
    case Replay(rest) => rest != [] && DispatchStep(s, w, hold, rest[0], ReplayFlag(rest), c, s')
    case ReplayFlag(rest) =>
      rest != [] && FlagStep(s, w, hold, rest[0], AfterReplayFlag(hold, rest[1..]), c.f, s')
    case Decide =>
      if c.f.Ok? then Chooses(cmd, c.plan) && s' == Goto(s, w, hold, Add(c.plan, 0))
      else s' == Unwind(s, w, hold)
    case Add(plan, i) => AddStep(s, w, hold, plan, i, c.f, s')
    case Dispatch(plan, i, id) => DispatchStep(s, w, hold, id, Flag(plan, i, id), c, s')
    case Flag(plan, i, id) => FlagStep(s, w, hold, id, AfterFlag(plan, i), c.f, s')
    case Succeed => SucceedStep(s, now, w, hold, c.f, s')
    case Fail => FailStep(s, w, c.f, s')
    case Returned => false
    case Threw => false
  }

  datatype Action =
    | Deliver(w: nat)                 // the queue hands the command to a new run
    | Run(w: nat, c: Choice)
    | Crash(w: nat)
    | CleanerQuery
    | CleanerDelete(applied: bool)

  ghost predicate KeyStep(cmd: Command, now: int, s: KeyState, a: Action, s': KeyState) {
    match a
    case Deliver(w) => w !in s.workers && s' == Goto(s, w, None, Insert(now))
    case Run(w, c) => WorkerStep(cmd, now, s, w, c, s')
    case Crash(w) => w in s.workers && s' == Exit(s, w, Threw)
    case CleanerQuery => s.record.Completed? && s' == s.(pendingDeletes := s.pendingDeletes + 1)
    case CleanerDelete(applied) =>
      s.pendingDeletes > 0 &&
      s' == s.(pendingDeletes := s.pendingDeletes - 1, record := if applied then Absent else s.record)
  }

  predicate Live(h: Hold, now: int) {
    now < h.stamp + LEASE
  }

  /** The lease assumption: a run that was told Started acts only while less than the lease
      has passed since the UpdatedAt it wrote. */
  ghost predicate WithinLease(now: int, s: KeyState, a: Action) {
    a.Run? && a.w in s.workers && s.workers[a.w].hold.Some? ==> Live(s.workers[a.w].hold.value, now)
  }

  // Nothing is stored for the key yet; a dead run may have left a Processing row behind.
  ghost predicate InitKey(s: KeyState) {
    && !s.record.Completed?
    && (s.record.Processing? ==> s.record.etag < s.nextEtag)
    && s.events == [] && s.accepted == multiset{} && s.workers == map[]
    && s.pendingDeletes == 0 && !s.completedOnce && s.firstPlan == None && s.claims == map[]
  }
}
