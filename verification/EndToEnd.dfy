/**
 The domain service and the tasks table together: dispatched events reach the read model any number
 of times, in any order, through any number of concurrent Apply runs.
 */
module EndToEnd {
  import Protocol = IdempotencyProtocol
  import Invariant = IdempotencyInvariant
  import Lease = LeaseInvariant
  import Domain = DomainService
  import TaskEvents
  import Projection

  // The GUID that a create-task run gave its task: the event at position i of key k carries it, and
  // a replay sends the stored event, hence the same GUID.
  datatype TaskId = TaskId(k: Domain.Key, i: nat)

  datatype World = World(sys: Domain.System, tasks: map<TaskId, Projection.Table>)

  const NO_ROW := Projection.Table([], [], map[])

  function TaskOf(w: World, id: TaskId): Projection.Table {
    if id in w.tasks then w.tasks[id] else NO_ROW
  }

  // Some receiver was given the task-created event that carries this id.
  ghost predicate Dispatched(s: Domain.System, id: TaskId) {
    id.k in s.keys && id.i in s.keys[id.k].rows.accepted
  }

  datatype Action = Serve(e: Domain.Event) | Project(id: TaskId, a: Projection.Action)

  ghost predicate Init(w: World) {
    Domain.Init(w.sys) && w.tasks == map[]
  }

  ghost predicate Step(w: World, a: Action, w': World) {
    match a
    case Serve(e) => Domain.StepInLease(w.sys, e, w'.sys) && w'.tasks == w.tasks
    case Project(id, p) =>
      && w'.sys == w.sys
      && id in w'.tasks && w'.tasks == w.tasks[id := w'.tasks[id]]
      && Projection.Step(TaskOf(w, id), p, w'.tasks[id])
      // a creation is only delivered if it was dispatched, possibly many times
      && (p.Start? && p.ev.payload.Created? ==> Dispatched(w.sys, id))
  }

  // A row, or a run that could insert one, stems from a dispatched event.
  ghost predicate Stems(s: Domain.System, id: TaskId, t: Projection.Table) {
    && (t.versions != [] ==> Dispatched(s, id))
    && (forall r | r in t.runs && t.runs[r].ev.payload.Created? :: Dispatched(s, id))
  }

  ghost predicate Inv(w: World) {
    && Domain.Inv(w.sys)
    && (forall id | id in w.tasks :: Projection.Inv(w.tasks[id]) && Stems(w.sys, id, w.tasks[id]))
  }

  ghost predicate Sends(s: Protocol.KeyState, a: Protocol.Action) {
    a.Run? && a.w in s.workers && (s.workers[a.w].pc.Replay? || s.workers[a.w].pc.Dispatch?)
  }

  lemma OthersLeaveAccepted(cmd: Protocol.Command, now: int, s: Protocol.KeyState, a: Protocol.Action,
                            s': Protocol.KeyState)
    requires Protocol.KeyStep(cmd, now, s, a, s') && !Sends(s, a)
    ensures s'.accepted == s.accepted
  {
  }

  lemma AcceptedStays(cmd: Protocol.Command, now: int, s: Protocol.KeyState, a: Protocol.Action, s': Protocol.KeyState)
    requires Protocol.KeyStep(cmd, now, s, a, s')
    ensures forall i | i in s.accepted :: i in s'.accepted
  {
    if !Sends(s, a) {
      OthersLeaveAccepted(cmd, now, s, a, s');
    } else {
      var hold := s.workers[a.w].hold;
      match s.workers[a.w].pc
      case Replay(rest) => assert Protocol.DispatchStep(s, a.w, hold, rest[0], Protocol.ReplayFlag(rest), a.c, s');
      case Dispatch(plan, i, id) => assert Protocol.DispatchStep(s, a.w, hold, id, Protocol.Flag(plan, i, id), a.c, s');
    }
  }

  lemma DispatchedStays(s: Domain.System, e: Domain.Event, s': Domain.System, id: TaskId)
    requires Domain.Step(s, e, s') && Dispatched(s, id)
    ensures Dispatched(s', id)
  {
    if e.Act? && e.k == id.k {
      AcceptedStays(s.keys[e.k].cmd, s.now, s.keys[e.k].rows, e.a, s'.keys[e.k].rows);
    }
  }

  lemma ServeKeeps(w: World, e: Domain.Event, w': World)
    requires Inv(w) && Step(w, Serve(e), w')
    ensures Inv(w')
  {
    Domain.StepKeepsInv(w.sys, e, w'.sys);
    forall id | id in w'.tasks ensures Projection.Inv(w'.tasks[id]) && Stems(w'.sys, id, w'.tasks[id]) {
      assert Stems(w.sys, id, w.tasks[id]);
      if Dispatched(w.sys, id) {
        DispatchedStays(w.sys, e, w'.sys, id);
      }
    }
  }

  lemma StillStems(s: Domain.System, id: TaskId, t: Projection.Table, p: Projection.Action, t': Projection.Table)
    requires Stems(s, id, t) && Projection.Step(t, p, t')
    requires p.Start? && p.ev.payload.Created? ==> Dispatched(s, id)
    ensures Stems(s, id, t')
  {
  }

  lemma ProjectKeeps(w: World, id: TaskId, p: Projection.Action, w': World)
    requires Inv(w) && Step(w, Project(id, p), w')
    ensures Inv(w')
  {
    var t, t' := TaskOf(w, id), w'.tasks[id];
    assert Projection.Inv(t) && Stems(w.sys, id, t);
    Projection.StepKeeps(t, p, t');
    StillStems(w.sys, id, t, p, t');
  }

  lemma StepKeeps(w: World, a: Action, w': World)
    requires Inv(w) && Step(w, a, w')
    ensures Inv(w')
  {
    match a
    case Serve(e) => ServeKeeps(w, e, w');
    case Project(id, p) => ProjectKeeps(w, id, p, w');
  }

  ghost predicate StepAt(worlds: seq<World>, actions: seq<Action>, i: nat)
    requires |worlds| == |actions| + 1 && i < |actions|
  {
    Step(worlds[i], actions[i], worlds[i + 1])
  }

  ghost predicate IsRun(worlds: seq<World>, actions: seq<Action>) {
    |worlds| == |actions| + 1 && Init(worlds[0]) && forall i: nat | i < |actions| :: StepAt(worlds, actions, i)
  }

  lemma {:induction false} RunInv(worlds: seq<World>, actions: seq<Action>, n: nat)
    requires IsRun(worlds, actions) && n < |worlds|
    ensures Inv(worlds[n])
  {
    if n == 0 {
      var s := worlds[0].sys;
      forall k | k in s.keys ensures Lease.KeyInv(s.keys[k].cmd, s.now, s.keys[k].rows) {
        Lease.InitInv(s.keys[k].cmd, s.now, s.keys[k].rows);
      }
    } else {
      RunInv(worlds, actions, n - 1);
      assert StepAt(worlds, actions, n - 1);
      StepKeeps(worlds[n - 1], actions[n - 1], worlds[n]);
    }
  }

  /** However often a create-task command is redelivered, its handler crashes and its event is
      replayed or delivered again, the tasks table has at most one row that stems from its key, and
      that row was inserted once. */
  lemma AtMostOneRow(worlds: seq<World>, actions: seq<Action>, n: nat, id1: TaskId, id2: TaskId)
    requires IsRun(worlds, actions) && n < |worlds|
    requires id1.k == id2.k && id1.k in worlds[n].sys.keys && worlds[n].sys.keys[id1.k].cmd == Protocol.CreateTask
    requires TaskOf(worlds[n], id1).versions != [] && TaskOf(worlds[n], id2).versions != []
    ensures id1 == id2
    ensures TaskEvents.IsHistory(TaskOf(worlds[n], id1).accepted)
  {
    RunInv(worlds, actions, n);
    var s := worlds[n].sys;
    assert Dispatched(s, id1) && Dispatched(s, id2);
    assert Lease.KeyInv(Protocol.CreateTask, s.now, s.keys[id1.k].rows);
    assert Invariant.FlagsSound(s.keys[id1.k].rows);
  }
}
