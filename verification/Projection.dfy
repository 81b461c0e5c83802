/**
 Any number of concurrent TaskService.Apply runs on the row of one task.

 The row's past is kept as its sequence of versions: the ETag of a version is its position, and a
 conditional write goes through exactly when the ETag it carries is that of the last version.
 */
module Projection {
  import opened Options
  import opened StorageFaults
  import opened TaskEvents

  datatype Pc =
    | Reading(lost: Option<nat>)       // about to GetTask; lost: the version whose write conflicted
    | Inserting                        // a creation that saw no row
    | Writing(etag: nat)               // read version etag; about to check it and to write
    | Accepted                         // returned nil
    | Rejected                         // returned an error

  // conflicts and firstTs are history: lost writes so far, and the row's timestamp when first read
  datatype Run = Run(ev: Event, pc: Pc, conflicts: nat, firstTs: Option<int>)

  datatype Table = Table(versions: seq<Row>, accepted: seq<Event>, runs: map<nat, Run>)

  datatype Action = Start(r: nat, ev: Event) | Act(r: nat, f: Fault)

  predicate Init(t: Table) {
    t.versions == [] && t.accepted == [] && t.runs == map[]
  }

  function Goto(t: Table, r: nat, run: Run, pc: Pc): Table {
    t.(runs := t.runs[r := run.(pc := pc)])
  }

  function Write(t: Table, row: Row, ev: Event): Table {
    t.(versions := t.versions + [row], accepted := t.accepted + [ev])
  }

  // GetTask, and what each event kind does with the answer
  ghost predicate ReadStep(t: Table, r: nat, run: Run, f: Fault, t': Table) {
    if !f.Ok? then f.ThrewBefore? && t' == Goto(t, r, run, Rejected)
    else if run.ev.payload.Created? then
      t' == Goto(t, r, run, if t.versions == [] then Inserting else Rejected)
    else if t.versions == [] || !Changes(run.ev) then t' == Goto(t, r, run, Rejected)
    else
      var last := |t.versions| - 1;
      t' == Goto(t, r, run.(firstTs := if run.firstTs.None? then Some(t.versions[last].ts) else run.firstTs),
                 Writing(last))
  }

  // InsertTask
  ghost predicate InsertStep(t: Table, r: nat, run: Run, f: Fault, t': Table) {
    run.ev.payload.Created? &&
    if f.ThrewBefore? || t.versions != [] then t' == Goto(t, r, run, Rejected)
    else
      var written := Write(t, CreateRow(run.ev.payload.created, run.ev.ts), run.ev);
      t' == Goto(written, r, run, if f.Ok? then Accepted else Rejected)
  }

  // The timestamp check, then UpdateTask with the ETag read
  ghost predicate WriteStep(t: Table, r: nat, run: Run, etag: nat, f: Fault, t': Table) {
    etag < |t.versions| &&
    if run.ev.ts <= t.versions[etag].ts || f.ThrewBefore? then t' == Goto(t, r, run, Rejected)
    else
      var lost := run.(conflicts := run.conflicts + 1);
      if etag != |t.versions| - 1 then f.Ok? && t' == Goto(t, r, lost, Reading(Some(etag)))
      else
        var written := Write(t, Merge(t.versions[etag], ChangeOf(run.ev.payload), run.ev.ts), run.ev);
        match f
        case Ok => t' == Goto(written, r, run, Accepted)
        case Retried => t' == Goto(written, r, lost, Reading(Some(etag)))
        case _ => t' == Goto(written, r, run, Rejected)
  }

  ghost predicate Step(t: Table, a: Action, t': Table) {
    match a
    case Start(r, ev) => r !in t.runs && t' == t.(runs := t.runs[r := Run(ev, Reading(None), 0, None)])
    case Act(r, f) =>
      r in t.runs &&
      match t.runs[r].pc
      case Reading(_) => ReadStep(t, r, t.runs[r], f, t')
      case Inserting => InsertStep(t, r, t.runs[r], f, t')
      case Writing(etag) => WriteStep(t, r, t.runs[r], etag, f, t')
      case _ => false
  }

  // Version i is what the first i + 1 accepted events make of the row.
  ghost predicate VersionAt(versions: seq<Row>, accepted: seq<Event>, i: nat)
    requires i < |versions| == |accepted|
  {
    RowOf(accepted[..i + 1]) == Some(versions[i]) && versions[i].ts == accepted[i].ts
  }

  ghost predicate VersionsFollow(versions: seq<Row>, accepted: seq<Event>) {
    |versions| == |accepted| && forall i: nat | i < |versions| :: VersionAt(versions, accepted, i)
  }

  // Each lost write was lost to a newer version.
  ghost predicate RunBounded(t: Table, run: Run) {
    && (run.conflicts > 0 ==> run.firstTs.Some? && run.firstTs.value + run.conflicts <= run.ev.ts)
    && match run.pc
       case Reading(None) => run.conflicts == 0 && run.firstTs.None?
       case Reading(Some(e)) =>
         e + 1 < |t.versions| && run.firstTs.Some? && run.firstTs.value + run.conflicts <= t.versions[e].ts + 1
       case Inserting => run.ev.payload.Created?
       case Writing(e) =>
         e < |t.versions| && run.firstTs.Some? && run.firstTs.value + run.conflicts <= t.versions[e].ts
           && Changes(run.ev)
       case Accepted => run.ev in t.accepted
       case Rejected => true
  }

  ghost predicate Inv(t: Table) {
    && IsHistory(t.accepted) && VersionsFollow(t.versions, t.accepted)
    && (forall r | r in t.runs :: RunBounded(t, t.runs[r]))
  }

  lemma LaterIsNewer(t: Table, i: nat, j: nat)
    requires IsHistory(t.accepted) && VersionsFollow(t.versions, t.accepted) && i < j < |t.versions|
    ensures t.versions[i].ts < t.versions[j].ts
  {
    assert VersionAt(t.versions, t.accepted, i) && VersionAt(t.versions, t.accepted, j);
  }

  lemma VersionsGrow(t: Table, row: Row, ev: Event)
    requires VersionsFollow(t.versions, t.accepted) && RowOf(t.accepted + [ev]) == Some(row) && row.ts == ev.ts
    ensures VersionsFollow(t.versions + [row], t.accepted + [ev])
  {
    var t' := Write(t, row, ev);
    forall i: nat | i < |t'.versions| ensures VersionAt(t'.versions, t'.accepted, i) {
      if i < |t.versions| {
        assert VersionAt(t.versions, t.accepted, i);
        assert t'.accepted[..i + 1] == t.accepted[..i + 1];
      } else {
        assert t'.accepted[..i + 1] == t'.accepted;
      }
    }
  }

  // Runs other than r keep what they know when the row gets newer versions.
  lemma OthersKeep(t: Table, t': Table, r: nat)
    requires Inv(t) && IsHistory(t'.accepted) && VersionsFollow(t'.versions, t'.accepted)
    requires t.versions <= t'.versions && t.accepted <= t'.accepted
    requires r in t'.runs && t'.runs == t.runs[r := t'.runs[r]] && RunBounded(t', t'.runs[r])
    ensures Inv(t')
  {
    forall v | v in t'.runs ensures RunBounded(t', t'.runs[v]) {
      if v != r {
        assert RunBounded(t, t.runs[v]);
      }
    }
  }

  lemma CreateKeeps(t: Table, ev: Event)
    requires IsHistory(t.accepted) && VersionsFollow(t.versions, t.accepted) && t.versions == []
    requires ev.payload.Created?
    ensures var t' := Write(t, CreateRow(ev.payload.created, ev.ts), ev);
      IsHistory(t'.accepted) && VersionsFollow(t'.versions, t'.accepted)
  {
    assert t.accepted + [ev] == [ev];
    HistoryGrows(t.accepted, ev);
    VersionsGrow(t, CreateRow(ev.payload.created, ev.ts), ev);
  }

  lemma InsertKeeps(t: Table, r: nat, f: Fault, t': Table)
    requires Inv(t) && r in t.runs && InsertStep(t, r, t.runs[r], f, t')
    ensures Inv(t')
  {
    var ev := t.runs[r].ev;
    if !f.ThrewBefore? && t.versions == [] {
      CreateKeeps(t, ev);
    }
    OthersKeep(t, t', r);
  }

  lemma UpdateKeeps(t: Table, ev: Event)
    requires IsHistory(t.accepted) && VersionsFollow(t.versions, t.accepted) && t.versions != [] && Changes(ev)
    requires t.versions[|t.versions| - 1].ts < ev.ts
    ensures var t' := Write(t, Merge(t.versions[|t.versions| - 1], ChangeOf(ev.payload), ev.ts), ev);
      IsHistory(t'.accepted) && VersionsFollow(t'.versions, t'.accepted)
  {
    var last := |t.versions| - 1;
    assert VersionAt(t.versions, t.accepted, last);
    assert t.accepted[..last + 1] == t.accepted;
    MergeIsRow(t.accepted, t.versions[last], ev);
    HistoryGrows(t.accepted, ev);
    VersionsGrow(t, Merge(t.versions[last], ChangeOf(ev.payload), ev.ts), ev);
  }

  lemma WriteStepKeeps(t: Table, r: nat, etag: nat, f: Fault, t': Table)
    requires Inv(t) && r in t.runs && t.runs[r].pc == Writing(etag) && WriteStep(t, r, t.runs[r], etag, f, t')
    ensures Inv(t')
  {
    assert RunBounded(t, t.runs[r]);
    if t.versions[etag].ts < t.runs[r].ev.ts && !f.ThrewBefore? && etag == |t.versions| - 1 {
      UpdateKeeps(t, t.runs[r].ev);
    }
    OthersKeep(t, t', r);
  }

  lemma ReadKeeps(t: Table, r: nat, f: Fault, t': Table)
    requires Inv(t) && r in t.runs && t.runs[r].pc.Reading? && ReadStep(t, r, t.runs[r], f, t')
    ensures Inv(t')
  {
    assert RunBounded(t, t.runs[r]);
    var lost := t.runs[r].pc.lost;
    if lost.Some? {
      LaterIsNewer(t, lost.value, |t.versions| - 1);
    }
    OthersKeep(t, t', r);
  }

  lemma StepKeeps(t: Table, a: Action, t': Table)
    requires Inv(t) && Step(t, a, t')
    ensures Inv(t')
  {
    match a
    case Start(r, ev) => OthersKeep(t, t', r);
    case Act(r, f) =>
      match t.runs[r].pc
      case Reading(_) => ReadKeeps(t, r, f, t');
      case Inserting => InsertKeeps(t, r, f, t');
      case Writing(etag) => WriteStepKeeps(t, r, etag, f, t');
  }

  /******* Whole runs *******/

  ghost predicate StepAt(tables: seq<Table>, actions: seq<Action>, i: nat)
    requires |tables| == |actions| + 1 && i < |actions|
  {
    Step(tables[i], actions[i], tables[i + 1])
  }

  ghost predicate IsRun(tables: seq<Table>, actions: seq<Action>) {
    |tables| == |actions| + 1 && Init(tables[0]) && forall i: nat | i < |actions| :: StepAt(tables, actions, i)
  }

  lemma {:induction false} RunInv(tables: seq<Table>, actions: seq<Action>, n: nat)
    requires IsRun(tables, actions) && n < |tables|
    ensures Inv(tables[n])
  {
    if n == 0 {
    } else {
      RunInv(tables, actions, n - 1);
      assert StepAt(tables, actions, n - 1);
      StepKeeps(tables[n - 1], actions[n - 1], tables[n]);
    }
  }

  /** Whatever the interleaving: there is one insertion, every accepted write has a newer timestamp
      than all before it, and the stored row is both the projection and the domain service's
      rebuilding of exactly the accepted events, which are in timestamp order. */
  lemma RowIsFoldOfAccepted(tables: seq<Table>, actions: seq<Action>, n: nat)
    requires IsRun(tables, actions) && n < |tables|
    ensures IsHistory(tables[n].accepted) && |tables[n].versions| == |tables[n].accepted|
    ensures tables[n].versions != [] ==>
      var row := tables[n].versions[|tables[n].versions| - 1];
      && Some(row) == RowOf(tables[n].accepted)
      && (From(tables[n].accepted).Some? <==> Readable(tables[n].accepted[0]))
      && (From(tables[n].accepted).Some? ==> Shows(row, From(tables[n].accepted).value))
  {
    RunInv(tables, actions, n);
    var t := tables[n];
    if t.versions != [] {
      var last := |t.versions| - 1;
      assert VersionAt(t.versions, t.accepted, last);
      assert t.accepted[..last + 1] == t.accepted;
      RowShowsState(t.accepted);
    }
  }

  // A step appends at most one accepted write, and only ever the actor's own event.
  lemma StepAppends(t: Table, a: Action, t': Table)
    requires Step(t, a, t')
    ensures t'.accepted == t.accepted || (a.Act? && a.r in t.runs && t'.accepted == t.accepted + [t.runs[a.r].ev])
    ensures t.versions <= t'.versions && |t'.versions| - |t.versions| == |t'.accepted| - |t.accepted|
  {
  }

  /** The retry loop of a run ends: it loses at most as many writes as its event is newer than the
      row it first read, and a run that returned nil had its event accepted. */
  lemma ConflictsAreBounded(tables: seq<Table>, actions: seq<Action>, n: nat, r: nat)
    requires IsRun(tables, actions) && n < |tables| && r in tables[n].runs
    ensures var run := tables[n].runs[r];
      && (run.conflicts > 0 ==> run.firstTs.Some? && run.conflicts <= run.ev.ts - run.firstTs.value)
      && (run.pc.Accepted? ==> run.ev in tables[n].accepted)
  {
    RunInv(tables, actions, n);
    assert RunBounded(tables[n], tables[n].runs[r]);
  }
}
