/**
 The read model under an arbitrary sequence of deliveries for one task: which events take effect,
 and when the row is what the domain service would rebuild from its sorted log.
 */
module Delivery {
  import opened Options
  import opened TaskEvents

  // TaskService.Apply when no other run interferes: is the event written?
  predicate Accepts(row: Option<Row>, ev: Event) {
    if ev.payload.Created? then row.None?
    else row.Some? && Changes(ev) && row.value.ts < ev.ts
  }

  function Deliver(row: Option<Row>, ev: Event): Option<Row> {
    if !Accepts(row, ev) then row
    else if ev.payload.Created? then Some(CreateRow(ev.payload.created, ev.ts))
    else Some(Merge(row.value, ChangeOf(ev.payload), ev.ts))
  }

  function DeliverAll(ds: seq<Event>): Option<Row> {
    if ds == [] then None else Deliver(DeliverAll(ds[..|ds| - 1]), ds[|ds| - 1])
  }

  // The deliveries that were written, in order.
  function AcceptedOf(ds: seq<Event>): seq<Event> {
    if ds == [] then []
    else
      var before := ds[..|ds| - 1];
      AcceptedOf(before) + if Accepts(DeliverAll(before), ds[|ds| - 1]) then [ds[|ds| - 1]] else []
  }

  // An accepted event extends the history and its row.
  lemma {:induction false} AcceptExtends(acc: seq<Event>, row: Option<Row>, ev: Event)
    requires IsHistory(acc) && row == RowOf(acc) && Accepts(row, ev)
    ensures IsHistory(acc + [ev]) && Deliver(row, ev) == RowOf(acc + [ev])
  {
    if acc != [] {
      RowShowsState(acc);
    }
    HistoryGrows(acc, ev);
    if ev.payload.Created? {
      assert acc + [ev] == [ev];
    } else {
      MergeIsRow(acc, row.value, ev);
    }
  }

  /** The row is the fold of the accepted deliveries, which form a history. */
  lemma {:induction false} RowIsAccepted(ds: seq<Event>)
    ensures IsHistory(AcceptedOf(ds)) && DeliverAll(ds) == RowOf(AcceptedOf(ds))
  {
    if ds == [] {
    } else {
      var before, ev := ds[..|ds| - 1], ds[|ds| - 1];
      RowIsAccepted(before);
      if Accepts(DeliverAll(before), ev) {
        AcceptExtends(AcceptedOf(before), DeliverAll(before), ev);
      } else {
        assert AcceptedOf(ds) == AcceptedOf(before);
      }
    }
  }

  /******* Which deliveries are accepted *******/

  ghost predicate FirstCreation(ds: seq<Event>, j: nat) {
    j < |ds| && ds[j].payload.Created? && forall k | 0 <= k < j :: !ds[k].payload.Created?
  }

  // ds[i] is newer than the creation at j and than every change since.
  ghost predicate NewerThanAll(ds: seq<Event>, j: nat, i: nat)
    requires j < i < |ds|
  {
    ds[j].ts < ds[i].ts && forall k | j < k < i && Changes(ds[k]) :: ds[k].ts < ds[i].ts
  }

  // Delivery i is the first creation, or a change newer than the creation and than every change since.
  ghost predicate RunningMaximum(ds: seq<Event>, i: nat)
    requires i < |ds|
  {
    if ds[i].payload.Created? then FirstCreation(ds, i)
    else Changes(ds[i]) && exists j: nat | j < i :: FirstCreation(ds, j) && NewerThanAll(ds, j, i)
  }

  // ts is the largest timestamp among the creation at j and the changes after it.
  ghost predicate IsMaximum(ds: seq<Event>, j: nat, ts: int)
    requires j < |ds|
  {
    && ds[j].ts <= ts
    && (forall k | j < k < |ds| && Changes(ds[k]) :: ds[k].ts <= ts)
    && (ts == ds[j].ts || exists k | j < k < |ds| :: Changes(ds[k]) && ds[k].ts == ts)
  }

  lemma MaximumGrows(ds: seq<Event>, j: nat, ts: int, ev: Event)
    requires j < |ds| && IsMaximum(ds, j, ts)
    ensures IsMaximum(ds + [ev], j, if Changes(ev) && ts < ev.ts then ev.ts else ts)
  {
    var ds' := ds + [ev];
    if Changes(ev) && ts < ev.ts {
      assert ds'[|ds|] == ev;
    } else if ts != ds[j].ts {
      var k :| j < k < |ds| && Changes(ds[k]) && ds[k].ts == ts;
      assert ds'[k] == ds[k];
    }
  }

  // The row exists once a creation arrived, and its timestamp is the largest since then.
  lemma {:induction false} TimestampIsMaximum(ds: seq<Event>)
    ensures DeliverAll(ds).None? <==> forall k | 0 <= k < |ds| :: !ds[k].payload.Created?
    ensures forall j: nat | FirstCreation(ds, j) :: DeliverAll(ds).Some? && IsMaximum(ds, j, DeliverAll(ds).value.ts)
  {
    if ds == [] {
    } else {
      var n := |ds| - 1;
      var before, ev := ds[..n], ds[n];
      TimestampIsMaximum(before);
      assert ds == before + [ev];
      forall j: nat | FirstCreation(ds, j)
        ensures DeliverAll(ds).Some? && IsMaximum(ds, j, DeliverAll(ds).value.ts)
      {
        if j < n {
          assert FirstCreation(before, j);
          MaximumGrows(before, j, DeliverAll(before).value.ts, ev);
        }
      }
    }
  }

  // A sequence with a creation has a first one.
  lemma FindFirstCreation(ds: seq<Event>, k: nat) returns (j: nat)
    requires k < |ds| && ds[k].payload.Created?
    ensures j <= k && FirstCreation(ds, j)
  {
    j := 0;
    while !ds[j].payload.Created?
      invariant j <= k && forall i | 0 <= i < j :: !ds[i].payload.Created?
      decreases k - j
    {
      j := j + 1;
    }
  }

  lemma NewerThanRow(ds: seq<Event>, j: nat, i: nat)
    requires j < i < |ds| && FirstCreation(ds, j)
    ensures DeliverAll(ds[..i]).Some?
    ensures DeliverAll(ds[..i]).value.ts < ds[i].ts <==> NewerThanAll(ds, j, i)
  {
    var before := ds[..i];
    TimestampIsMaximum(before);
    assert FirstCreation(before, j);
    var ts := DeliverAll(before).value.ts;
    if ts < ds[i].ts {
      forall k | j < k < i && Changes(ds[k]) ensures ds[k].ts < ds[i].ts {
        assert Changes(before[k]);
      }
    }
    if NewerThanAll(ds, j, i) && ts != ds[j].ts {
      var k :| j < k < i && Changes(before[k]) && before[k].ts == ts;
      assert Changes(ds[k]);
    }
  }

  /** The accepted deliveries are exactly the first creation and, after it, the changes that are
      strict running maxima of the timestamp. */
  lemma AcceptedAreRunningMaxima(ds: seq<Event>, i: nat)
    requires i < |ds|
    ensures Accepts(DeliverAll(ds[..i]), ds[i]) <==> RunningMaximum(ds, i)
  {
    var before, ev := ds[..i], ds[i];
    TimestampIsMaximum(before);
    if ev.payload.Created? {
      assert forall k | 0 <= k < i :: before[k] == ds[k];
    } else if DeliverAll(before).Some? {
      var k :| 0 <= k < |before| && before[k].payload.Created?;
      var j := FindFirstCreation(ds, k);
      NewerThanRow(ds, j, i);
      forall j': nat | FirstCreation(ds, j') ensures j' == j {
      }
    } else {
      assert forall j: nat | j < i :: !before[j].payload.Created?;
      forall j: nat | j < i ensures !FirstCreation(ds, j) {
        assert ds[j] == before[j];
      }
    }
  }

  /******* When nothing is lost *******/

  // Each effective event once, where it first arrives.
  function FirstOccurrences(ds: seq<Event>): seq<Event> {
    if ds == [] then []
    else
      var before, ev := FirstOccurrences(ds[..|ds| - 1]), ds[|ds| - 1];
      if (ev.payload.Created? || Changes(ev)) && ev !in before then before + [ev] else before
  }

  lemma PrefixIsHistory(a: seq<Event>, b: seq<Event>)
    requires IsHistory(b) && a <= b
    ensures IsHistory(a)
  {
    forall i | 0 < i < |a| ensures Changes(a[i]) {
      assert a[i] == b[i];
    }
  }

  lemma {:induction false} InOrderLosesNothing(ds: seq<Event>)
    requires IsHistory(FirstOccurrences(ds))
    ensures AcceptedOf(ds) == FirstOccurrences(ds)
  {
    if ds == [] {
    } else {
      var before, ev := ds[..|ds| - 1], ds[|ds| - 1];
      var acc := FirstOccurrences(before);
      PrefixIsHistory(acc, FirstOccurrences(ds));
      InOrderLosesNothing(before);
      RowIsAccepted(before);
      if acc != [] {
        RowShowsState(acc);
      }
      if ev in acc && Changes(ev) {
        var k :| 0 <= k < |acc| && acc[k] == ev;
        assert ev.ts <= acc[|acc| - 1].ts;
      } else if FirstOccurrences(ds) == acc + [ev] {
        assert FirstOccurrences(ds)[|acc|] == ev;
      }
    }
  }

  /** Every event takes effect exactly once if and only if the first arrivals are a creation followed
      by changes in rising timestamp order; repeated deliveries may come at any time. */
  lemma NothingLostIffInOrder(ds: seq<Event>)
    ensures AcceptedOf(ds) == FirstOccurrences(ds) <==> IsHistory(FirstOccurrences(ds))
  {
    RowIsAccepted(ds);
    if IsHistory(FirstOccurrences(ds)) {
      InOrderLosesNothing(ds);
    }
  }

  // The events of a log that do something.
  function Effective(log: seq<Event>): seq<Event> {
    if log == [] then []
    else
      var ev := log[|log| - 1];
      Effective(log[..|log| - 1]) + if ev.payload.Created? || Changes(ev) then [ev] else []
  }

  lemma {:induction false} IneffectiveIsIgnored(log: seq<Event>)
    ensures From(log) == From(Effective(log))
  {
    if log == [] {
    } else {
      var before, ev := log[..|log| - 1], log[|log| - 1];
      IneffectiveIsIgnored(before);
      var e := Effective(before);
      assert (e + [ev])[..|e|] == e;
      assert e + [] == e;
    }
  }

  /** When the effective events of the log arrive for the first time in log order, the row shows the
      task that TaskStateBuilder.From rebuilds from the whole log, and it can rebuild it exactly when
      the creation has no data or has a title. */
  lemma RowShowsLog(log: seq<Event>, ds: seq<Event>)
    requires FirstOccurrences(ds) == Effective(log) && IsHistory(Effective(log)) && Effective(log) != []
    ensures DeliverAll(ds).Some?
    ensures From(log).Some? <==> Readable(Effective(log)[0])
    ensures From(log).Some? ==> Shows(DeliverAll(ds).value, From(log).value)
  {
    InOrderLosesNothing(ds);
    RowIsAccepted(ds);
    RowShowsState(Effective(log));
    IneffectiveIsIgnored(log);
  }

  /** Out of order the row can miss a change that the log holds. */
  lemma OutOfOrderLosesChange()
    ensures exists create: Event, rename: Event, complete: Event ::
      && IsHistory([create, rename, complete])
      && DeliverAll([create, complete, rename]).Some?
      && From([create, rename, complete]).Some?
      && !Shows(DeliverAll([create, complete, rename]).value, From([create, rename, complete]).value)
  {
    var create := Event(0, 1, Created(Some(CreatedData(Some("a"), None, None, None))));
    var rename := Event(1, 2, Updated(Some(UpdatedData(Some("b"), None, None, None, None, false))));
    var complete := Event(2, 3, Completed);
    var ds, log := [create, complete, rename], [create, rename, complete];
    assert ds[..2] == [create, complete] && ds[..2][..1] == [create] && [create][..0] == [];
    assert [create, complete][..1] == [create];
    assert log[..2] == [create, rename] && [create, rename][..1] == [create];
    assert From([create][..0]) == Some(NEW_STATE);
    assert From([create]) == Some(ApplyState(NEW_STATE, create));
    assert From([create, rename]) == Some(ApplyState(From([create]).value, rename));
    assert From(log).value.title == Some("b");
    assert DeliverAll([create]) == Deliver(None, create);
    assert DeliverAll([create, complete]) == Deliver(DeliverAll([create]), complete);
    assert DeliverAll(ds).value.title == "a";
  }
}
