/**
 The order in which FindByIdempotencyKey returns the stored events of a key: by event timestamp,
 then insertion time when both rows have one, then the table's own timestamp, then the id.
 */
module ReplayOrder {
  import opened Options
  import opened Sorting

  datatype StoredRow = StoredRow(ts: int, insertedAt: Option<int>, tableTs: Option<int>, id: seq<int>)

  function CompareInsertion(x: Option<int>, y: Option<int>): int {
    if x.Some? && y.Some? then Sign(x.value, y.value) else 0
  }

  // Nullable.Compare: null comes first
  function NullableCompare(x: Option<int>, y: Option<int>): int {
    if x.None? && y.None? then 0 else if x.None? then -1 else if y.None? then 1 else Sign(x.value, y.value)
  }

  // The comparison delegate passed to Sort
  function Compare(x: StoredRow, y: StoredRow): int {
    if x.ts != y.ts then Sign(x.ts, y.ts)
    else if CompareInsertion(x.insertedAt, y.insertedAt) != 0 then CompareInsertion(x.insertedAt, y.insertedAt)
    else if NullableCompare(x.tableTs, y.tableTs) != 0 then NullableCompare(x.tableTs, y.tableTs)
    else CompareOrdinal(x.id, y.id)
  }

  predicate Before(x: StoredRow, y: StoredRow) { Compare(x, y) < 0 }

  /** The comparator is always antisymmetric, and says "equal" only for rows with the same id. */
  lemma Antisymmetric(x: StoredRow, y: StoredRow)
    ensures Compare(x, y) == -Compare(y, x)
    ensures Compare(x, y) == 0 ==> x.id == y.id
  {
    OrdinalLaws(x.id, y.id, []);
  }

  /** What is replayed first: the earlier event; of events with one timestamp the one inserted earlier, if
      both say when; then the one the table stamped earlier, unstamped rows first; then the smaller id. */
  lemma ReplayedFirst(x: StoredRow, y: StoredRow)
    ensures x.ts < y.ts ==> Before(x, y)
    ensures x.ts == y.ts && x.insertedAt.Some? && y.insertedAt.Some? && x.insertedAt.value < y.insertedAt.value ==>
      Before(x, y)
    ensures x.ts == y.ts && (x.insertedAt.None? || y.insertedAt.None? || x.insertedAt == y.insertedAt) ==>
      && (x.tableTs.None? && y.tableTs.Some? ==> Before(x, y))
      && (x.tableTs.Some? && y.tableTs.Some? && x.tableTs.value < y.tableTs.value ==> Before(x, y))
      && (x.tableTs == y.tableTs ==> (Before(x, y) <==> CompareOrdinal(x.id, y.id) < 0))
  {
  }

  // Among rows with the same timestamp either all have an insertion time, or at most one does.
  ghost predicate Comparable(rows: seq<StoredRow>) {
    forall i, j, k | 0 <= i < |rows| && 0 <= j < |rows| && 0 <= k < |rows|
      && rows[i].ts == rows[j].ts == rows[k].ts && i != j
      && rows[i].insertedAt.Some? && rows[j].insertedAt.Some? :: rows[k].insertedAt.Some?
  }

  ghost predicate DistinctIds(rows: seq<StoredRow>) {
    forall i, j | 0 <= i < j < |rows| :: rows[i].id != rows[j].id
  }

  ghost predicate TransitiveOn(rows: seq<StoredRow>) {
    forall x, y, z | x in rows && y in rows && z in rows :: Before(x, y) && Before(y, z) ==> Before(x, z)
  }

  lemma TransitiveTriple(rows: seq<StoredRow>, i: nat, j: nat, k: nat)
    requires i < |rows| && j < |rows| && k < |rows| && Comparable(rows)
    requires Before(rows[i], rows[j]) && Before(rows[j], rows[k])
    ensures Before(rows[i], rows[k])
  {
    var x, y, z := rows[i], rows[j], rows[k];
    OrdinalLaws(x.id, y.id, z.id);
    OrdinalLaws(x.id, x.id, x.id);
    OrdinalLaws(y.id, x.id, y.id);
  }

  /** Then it is transitive, so on rows with distinct ids it is a strict total order. */
  lemma TransitiveWhenComparable(rows: seq<StoredRow>)
    requires Comparable(rows) && DistinctIds(rows)
    ensures TransitiveOn(rows)
    ensures forall i, j | 0 <= i < |rows| && 0 <= j < |rows| && i != j ::
      Before(rows[i], rows[j]) <==> !Before(rows[j], rows[i])
  {
    forall x, y, z | x in rows && y in rows && z in rows && Before(x, y) && Before(y, z) ensures Before(x, z) {
      var i, j, k :| 0 <= i < |rows| && rows[i] == x && 0 <= j < |rows| && rows[j] == y && 0 <= k < |rows|
        && rows[k] == z;
      TransitiveTriple(rows, i, j, k);
    }
    forall i, j | 0 <= i < |rows| && 0 <= j < |rows| && i != j
      ensures Before(rows[i], rows[j]) <==> !Before(rows[j], rows[i])
    {
      Antisymmetric(rows[i], rows[j]);
    }
  }

  // What a comparison sort guarantees: neighbours are in order.
  ghost predicate NeighboursSorted(s: seq<StoredRow>) {
    forall i | 0 < i < |s| :: Before(s[i - 1], s[i])
  }

  lemma {:induction false} ReachesFurther(rows: seq<StoredRow>, s: seq<StoredRow>, i: nat, j: nat)
    requires TransitiveOn(rows) && (forall x | x in s :: x in rows)
    requires NeighboursSorted(s) && i < j < |s|
    ensures Before(s[i], s[j])
  {
    if i + 1 < j {
      ReachesFurther(rows, s, i, j - 1);
      assert Before(s[j - 1], s[j]);
      assert s[i] in rows && s[j - 1] in rows && s[j] in rows;
    }
  }

  lemma SortedThroughout(rows: seq<StoredRow>, s: seq<StoredRow>)
    requires TransitiveOn(rows) && multiset(s) == multiset(rows) && NeighboursSorted(s)
    ensures StrictlySorted(Before, s)
  {
    forall x | x in s ensures x in rows {
      assert x in multiset(rows);
    }
    forall i, j | 0 <= i < j < |s| ensures Before(s[i], s[j]) {
      ReachesFurther(rows, s, i, j);
    }
  }

  // However the table enumerates the rows, sorting can end in one order only.
  ghost predicate OneOrder(rows: seq<StoredRow>) {
    forall a, b | multiset(a) == multiset(rows) == multiset(b) && NeighboursSorted(a) && NeighboursSorted(b) :: a == b
  }

  lemma TransitiveIsUnique(rows: seq<StoredRow>, a: seq<StoredRow>, b: seq<StoredRow>)
    requires TransitiveOn(rows)
    requires multiset(a) == multiset(rows) == multiset(b) && NeighboursSorted(a) && NeighboursSorted(b)
    ensures a == b
  {
    SortedThroughout(rows, a);
    SortedThroughout(rows, b);
    forall x, y ensures !(Before(x, y) && Before(y, x)) {
      Antisymmetric(x, y);
    }
    SortedIsUnique(Before, a, b);
  }

  /******* A circle gives two orders *******/

  // Of two rows with different ids one comes before the other.
  lemma EitherWay(x: StoredRow, y: StoredRow)
    requires x.id != y.id
    ensures Before(x, y) <==> !Before(y, x)
  {
    Antisymmetric(x, y);
  }

  ghost predicate Precedes(s: seq<StoredRow>, x: StoredRow, y: StoredRow) {
    exists i, j :: 0 <= i < j < |s| && s[i] == x && s[j] == y
  }

  lemma StillPrecedes(s: seq<StoredRow>, p: nat, r: StoredRow, x: StoredRow, y: StoredRow)
    requires p <= |s| && Precedes(s, x, y)
    ensures Precedes(s[..p] + [r] + s[p..], x, y)
  {
    var i, j :| 0 <= i < j < |s| && s[i] == x && s[j] == y;
    var s' := s[..p] + [r] + s[p..];
    var i', j' := if i < p then i else i + 1, if j < p then j else j + 1;
    assert s'[i'] == x && s'[j'] == y;
  }

  lemma InsertedContents(s: seq<StoredRow>, p: nat, r: StoredRow)
    requires p <= |s|
    ensures multiset(s[..p] + [r] + s[p..]) == multiset(s) + multiset{r}
  {
    assert s == s[..p] + s[p..];
  }

  // A new row always finds a place.
  lemma Place(s: seq<StoredRow>, r: StoredRow) returns (p: nat)
    requires NeighboursSorted(s) && forall k | 0 <= k < |s| :: s[k].id != r.id
    ensures p <= |s| && NeighboursSorted(s[..p] + [r] + s[p..])
  {
    p := 0;
    while p < |s| && !Before(r, s[p])
      invariant p <= |s| && forall k | 0 <= k < p :: !Before(r, s[k])
    {
      p := p + 1;
    }
    if p > 0 {
      EitherWay(s[p - 1], r);
    }
    var s' := s[..p] + [r] + s[p..];
    forall i | 0 < i < |s'| ensures Before(s'[i - 1], s'[i]) {
      if i < p {
        assert Before(s[i - 1], s[i]);
      } else if i > p + 1 {
        assert Before(s[i - 2], s[i - 1]);
      }
    }
  }

  // Rows with ids of their own can all be placed around a sorted sequence, keeping its order.
  lemma {:induction false} PlaceAll(s: seq<StoredRow>, others: seq<StoredRow>, x: StoredRow, y: StoredRow)
    returns (r: seq<StoredRow>)
    requires NeighboursSorted(s) && Precedes(s, x, y) && DistinctIds(s + others)
    ensures NeighboursSorted(r) && Precedes(r, x, y) && multiset(r) == multiset(s) + multiset(others)
    decreases |others|
  {
    if others == [] {
      r := s;
    } else {
      var n := |others| - 1;
      var o := others[n];
      assert others == others[..n] + [o];
      assert DistinctIds(s + others[..n]) by {
        forall i, j | 0 <= i < j < |s + others[..n]| ensures (s + others[..n])[i].id != (s + others[..n])[j].id {
          assert (s + others)[i] == (s + others[..n])[i] && (s + others)[j] == (s + others[..n])[j];
        }
      }
      var t := PlaceAll(s, others[..n], x, y);
      NewId(s, others, t);
      var p := Place(t, o);
      StillPrecedes(t, p, o, x, y);
      InsertedContents(t, p, o);
      r := t[..p] + [o] + t[p..];
    }
  }

  // The last row's id is not among those placed so far.
  lemma NewId(s: seq<StoredRow>, others: seq<StoredRow>, t: seq<StoredRow>)
    requires others != [] && DistinctIds(s + others)
    requires multiset(t) == multiset(s) + multiset(others[..|others| - 1])
    ensures forall k | 0 <= k < |t| :: t[k].id != others[|others| - 1].id
  {
    var n := |others| - 1;
    assert (s + others)[|s| + n] == others[n];
    forall k | 0 <= k < |t| ensures t[k].id != others[n].id {
      assert t[k] in multiset(t);
      if t[k] in s {
        var i :| 0 <= i < |s| && s[i] == t[k];
        assert (s + others)[i] == t[k];
      } else {
        assert t[k] in others[..n];
        var i :| 0 <= i < n && others[i] == t[k];
        assert (s + others)[|s| + i] == t[k];
      }
    }
  }

  lemma Remove(rows: seq<StoredRow>, x: StoredRow) returns (r: seq<StoredRow>)
    requires x in multiset(rows)
    ensures multiset(r) + multiset{x} == multiset(rows)
  {
    var i :| 0 <= i < |rows| && rows[i] == x;
    r := rows[..i] + rows[i + 1..];
    assert rows == rows[..i] + [x] + rows[i + 1..];
  }

  // The rows other than these three
  lemma RemoveThree(rows: seq<StoredRow>, x: StoredRow, y: StoredRow, z: StoredRow) returns (r: seq<StoredRow>)
    requires x in rows && y in rows && z in rows && x != y && y != z && x != z
    ensures multiset(r) + multiset{x, y, z} == multiset(rows)
  {
    assert x in multiset(rows) && y in multiset(rows) && z in multiset(rows);
    r := Remove(rows, x);
    r := Remove(r, y);
    r := Remove(r, z);
  }

  // Distinct ids are a matter of the contents, not of their order.
  lemma DistinctIdsMove(a: seq<StoredRow>, b: seq<StoredRow>)
    requires DistinctIds(a) && multiset(a) == multiset(b)
    ensures DistinctIds(b)
  {
    forall p, q | 0 <= p < q < |b| ensures b[p].id != b[q].id {
      assert b[p] in multiset(b) && b[q] in multiset(b);
      var i :| 0 <= i < |a| && a[i] == b[p];
      var j :| 0 <= j < |a| && a[j] == b[q];
      if i == j {
        OccursOnce(a, b[p]);
        OnceOnly(b, p, q);
      }
    }
  }

  lemma {:induction false} OccursOnce(rows: seq<StoredRow>, x: StoredRow)
    requires DistinctIds(rows)
    ensures multiset(rows)[x] == if x in rows then 1 else 0
    decreases |rows|
  {
    if rows == [] {
    } else {
      var n := |rows| - 1;
      assert rows == rows[..n] + [rows[n]];
      OccursOnce(rows[..n], x);
      assert x in rows <==> x in rows[..n] || x == rows[n];
      if x in rows[..n] {
        var i :| 0 <= i < n && rows[..n][i] == x;
        assert rows[i] == x;
      }
    }
  }

  lemma NotBothWays(s: seq<StoredRow>, x: StoredRow, y: StoredRow)
    requires DistinctIds(s) && Precedes(s, x, y)
    ensures !Precedes(s, y, x)
  {
  }

  // The circle opened before row i, with all other rows placed around it.
  lemma OpenCircle(rows: seq<StoredRow>, i: nat, j: nat, k: nat, u: StoredRow, v: StoredRow)
    returns (r: seq<StoredRow>)
    requires DistinctIds(rows) && i < |rows| && j < |rows| && k < |rows| && i != j && j != k && i != k
    requires Before(rows[i], rows[j]) && Before(rows[j], rows[k])
    requires Precedes([rows[i], rows[j], rows[k]], u, v)
    ensures multiset(r) == multiset(rows) && NeighboursSorted(r) && Precedes(r, u, v)
  {
    var s := [rows[i], rows[j], rows[k]];
    var others := RemoveThree(rows, rows[i], rows[j], rows[k]);
    assert multiset(s) == multiset{rows[i], rows[j], rows[k]};
    DistinctIdsMove(rows, s + others);
    r := PlaceAll(s, others, u, v);
  }

  // A row before a second that is before a third, but not before the third itself: a circle.
  lemma FindCircle(rows: seq<StoredRow>) returns (i: nat, j: nat, k: nat)
    requires DistinctIds(rows) && !TransitiveOn(rows)
    ensures i < |rows| && j < |rows| && k < |rows| && i != j && j != k && i != k
    ensures Before(rows[i], rows[j]) && Before(rows[j], rows[k]) && Before(rows[k], rows[i])
  {
    var x, y, z :| x in rows && y in rows && z in rows && Before(x, y) && Before(y, z) && !Before(x, z);
    i :| 0 <= i < |rows| && rows[i] == x;
    j :| 0 <= j < |rows| && rows[j] == y;
    k :| 0 <= k < |rows| && rows[k] == z;
    Antisymmetric(x, y);
    Antisymmetric(y, z);
    EitherWay(x, z);
  }

  lemma CircleGivesTwoOrders(rows: seq<StoredRow>)
    requires DistinctIds(rows) && !TransitiveOn(rows)
    ensures !OneOrder(rows)
  {
    var i, j, k := FindCircle(rows);
    var x, y, z := rows[i], rows[j], rows[k];
    assert [x, y, z][0] == x && [x, y, z][2] == z;
    var a := OpenCircle(rows, i, j, k, x, z);
    assert [y, z, x][1] == z && [y, z, x][2] == x;
    var b := OpenCircle(rows, j, k, i, z, x);
    DistinctIdsMove(rows, a);
    NotBothWays(a, x, z);
    assert a != b;
  }

  /** The order in which the events of a key are replayed is independent of how the table enumerates
      their rows if and only if the comparator is transitive on them. */
  lemma OneOrderIffTransitive(rows: seq<StoredRow>)
    requires DistinctIds(rows)
    ensures OneOrder(rows) <==> TransitiveOn(rows)
  {
    if TransitiveOn(rows) {
      forall a, b | multiset(a) == multiset(rows) == multiset(b) && NeighboursSorted(a) && NeighboursSorted(b)
        ensures a == b
      {
        TransitiveIsUnique(rows, a, b);
      }
    } else {
      CircleGivesTwoOrders(rows);
    }
  }

  /******* The condition is exact *******/

  // What can be known of the rows beforehand: their timestamps, and which of them have an insertion time.
  datatype Shape = Shape(ts: int, hasInsertedAt: bool)

  ghost predicate Fits(rows: seq<StoredRow>, shapes: seq<Shape>) {
    |rows| == |shapes| && forall i | 0 <= i < |rows| :: shapes[i] == Shape(rows[i].ts, rows[i].insertedAt.Some?)
  }

  ghost predicate ComparableShapes(shapes: seq<Shape>) {
    forall i, j, k | 0 <= i < |shapes| && 0 <= j < |shapes| && 0 <= k < |shapes|
      && shapes[i].ts == shapes[j].ts == shapes[k].ts && i != j
      && shapes[i].hasInsertedAt && shapes[j].hasInsertedAt :: shapes[k].hasInsertedAt
  }

  ghost predicate AlwaysTransitive(shapes: seq<Shape>) {
    forall rows | Fits(rows, shapes) && DistinctIds(rows) :: TransitiveOn(rows)
  }

  // Rows of these shapes in which i was inserted before all others, but the table stamped i last and j first.
  function Tangled(shapes: seq<Shape>, i: nat, j: nat): (rows: seq<StoredRow>)
    ensures |rows| == |shapes|
    ensures forall m | 0 <= m < |rows| ::
      rows[m] == StoredRow(shapes[m].ts, if shapes[m].hasInsertedAt then Some(if m == i then 0 else 1) else None,
                           Some(if m == i then 2 else if m == j then 0 else 1), [m])
  {
    if shapes == [] then []
    else
      var m := |shapes| - 1;
      Tangled(shapes[..m], i, j) +
      [StoredRow(shapes[m].ts, if shapes[m].hasInsertedAt then Some(if m == i then 0 else 1) else None,
                 Some(if m == i then 2 else if m == j then 0 else 1), [m])]
  }

  // Two rows with an insertion time and one without can run in a circle.
  lemma Circle(shapes: seq<Shape>, i: nat, j: nat, k: nat)
    requires i < |shapes| && j < |shapes| && k < |shapes| && i != j
    requires shapes[i].ts == shapes[j].ts == shapes[k].ts
    requires shapes[i].hasInsertedAt && shapes[j].hasInsertedAt && !shapes[k].hasInsertedAt
    ensures var rows := Tangled(shapes, i, j);
      && Fits(rows, shapes) && DistinctIds(rows) && rows[i] in rows && rows[j] in rows && rows[k] in rows
      && Before(rows[i], rows[j]) && Before(rows[j], rows[k]) && Before(rows[k], rows[i]) && !Before(rows[i], rows[k])
  {
  }

  lemma CircleIsNotTransitive(rows: seq<StoredRow>, x: StoredRow, y: StoredRow, z: StoredRow)
    requires x in rows && y in rows && z in rows && Before(x, y) && Before(y, z) && !Before(x, z)
    ensures !TransitiveOn(rows)
  {
  }

  lemma FitsComparable(rows: seq<StoredRow>, shapes: seq<Shape>)
    requires Fits(rows, shapes) && ComparableShapes(shapes)
    ensures Comparable(rows)
  {
  }

  // The shapes that break the condition do so at three places.
  lemma MixedShapes(shapes: seq<Shape>) returns (i: nat, j: nat, k: nat)
    requires !ComparableShapes(shapes)
    ensures i < |shapes| && j < |shapes| && k < |shapes| && i != j
    ensures shapes[i].ts == shapes[j].ts == shapes[k].ts
    ensures shapes[i].hasInsertedAt && shapes[j].hasInsertedAt && !shapes[k].hasInsertedAt
  {
    i, j, k :| 0 <= i < |shapes| && 0 <= j < |shapes| && 0 <= k < |shapes|
      && shapes[i].ts == shapes[j].ts == shapes[k].ts && i != j
      && shapes[i].hasInsertedAt && shapes[j].hasInsertedAt && !shapes[k].hasInsertedAt;
  }

  /** The comparator is transitive on all rows of given shapes if and only if, per timestamp, all of
      them have an insertion time or at most one does. */
  lemma TransitiveIffComparable(shapes: seq<Shape>)
    ensures AlwaysTransitive(shapes) <==> ComparableShapes(shapes)
  {
    if ComparableShapes(shapes) {
      forall rows | Fits(rows, shapes) && DistinctIds(rows) ensures TransitiveOn(rows) {
        FitsComparable(rows, shapes);
        TransitiveWhenComparable(rows);
      }
    } else {
      var i, j, k := MixedShapes(shapes);
      Circle(shapes, i, j, k);
      var rows := Tangled(shapes, i, j);
      CircleIsNotTransitive(rows, rows[i], rows[j], rows[k]);
    }
  }

  ghost predicate AlwaysOneOrder(shapes: seq<Shape>) {
    forall rows | Fits(rows, shapes) && DistinctIds(rows) :: OneOrder(rows)
  }

  /** Hence the same condition decides whether the replay order is fixed whatever the other columns hold. */
  lemma OneOrderIffComparable(shapes: seq<Shape>)
    ensures AlwaysOneOrder(shapes) <==> ComparableShapes(shapes)
  {
    TransitiveIffComparable(shapes);
    forall rows | Fits(rows, shapes) && DistinctIds(rows) ensures OneOrder(rows) <==> TransitiveOn(rows) {
      OneOrderIffTransitive(rows);
    }
  }
}
