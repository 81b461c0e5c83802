/**
 Timestamp ranges reserved by concurrent requests with one compare-and-swap,
 and the idempotency keys made from them.
 */
module Timestamps {
  const MIN64: int := -0x8000_0000_0000_0000
  const MAX64: int := 0x7fff_ffff_ffff_ffff

  predicate Int64(x: int) {
    MIN64 <= x <= MAX64
  }

  /** Two's complement wrap-around of a sum of two 64-bit values. */
  function Wrap(x: int): int {
    if x > MAX64 then x - 0x1_0000_0000_0000_0000 else x
  }

  /** The first timestamp of a range, from a clock reading and the last one handed out. */
  function Start(now: int, last: int): int {
    if now <= last then Wrap(last + 1) else now
  }

  function End(now: int, last: int, n: int): int {
    Wrap(Start(now, last) + (n - 1))
  }

  /** The additions of one reservation stay within 64 bits. */
  predicate Fits(now: int, last: int, n: int) {
    last + n <= MAX64 && now + (n - 1) <= MAX64
  }

  lemma Limits()
    ensures MAX64 == 9_223_372_036_854_775_807 && MIN64 == -MAX64 - 1
  {
  }

  /** A reservation raises the last timestamp exactly when its additions fit. */
  lemma RaisesIffFits(now: int, last: int, n: int)
    requires Int64(now) && 0 <= last <= MAX64 && 0 < n <= MAX64
    ensures last < End(now, last, n) <==>
            (if now <= last then last + n <= MAX64 else now + (n - 1) <= MAX64)
    ensures Fits(now, last, n) ==> last < Start(now, last) && End(now, last, n) == Start(now, last) + n - 1
  {
  }

  // ---------------------------------------------------------------------
  // Any number of concurrent callers

  datatype Call =
    | Called(n: int)
    | Clocked(n: int, now: int)
    | Loaded(n: int, now: int, last: int, seen: nat) // seen: reservations made when last was loaded
    | Reserved(index: nat)                           // returned the start of this reservation
    | Nothing                                        // n <= 0: returned 0

  datatype Reservation = Reservation(caller: nat, start: int, n: int)

  datatype Shared = Shared(last: int, log: seq<Reservation>, calls: map<nat, Call>)

  datatype Action =
    | Enter(c: nat, n: int)
    | ReadClock(c: nat, now: int)
    | Load(c: nat)
    | Swap(c: nat)

  predicate Init(s: Shared) {
    s == Shared(0, [], map[])
  }

  function Become(s: Shared, c: nat, call: Call): Shared {
    s.(calls := s.calls[c := call])
  }

  ghost predicate Step(s: Shared, a: Action, t: Shared) {
    match a
    case Enter(c, n) =>
      c !in s.calls && n <= MAX64 && t == Become(s, c, if n <= 0 then Nothing else Called(n))
    case ReadClock(c, now) =>
      c in s.calls && s.calls[c].Called? && Int64(now) && t == Become(s, c, Clocked(s.calls[c].n, now))
    case Load(c) =>
      && c in s.calls && s.calls[c].Clocked?
      && t == Become(s, c, Loaded(s.calls[c].n, s.calls[c].now, s.last, |s.log|))
    case Swap(c) =>
      c in s.calls && s.calls[c].Loaded? && SwapStep(s, c, s.calls[c], t)
  }

  /** The compare-and-swap; a lost one goes back to reading the clock. */
  ghost predicate SwapStep(s: Shared, c: nat, call: Call, t: Shared)
    requires call.Loaded?
  {
    if s.last == call.last then
      t == Become(s, c, Reserved(|s.log|)).(
             last := End(call.now, call.last, call.n),
             log := s.log + [Reservation(c, Start(call.now, call.last), call.n)])
    else
      t == Become(s, c, Called(call.n))
  }

  ghost predicate NoOverflow(s: Shared) {
    forall c :: c in s.calls && s.calls[c].Loaded? ==> Fits(s.calls[c].now, s.calls[c].last, s.calls[c].n)
  }

  ghost predicate StepAt(states: seq<Shared>, actions: seq<Action>, i: nat)
    requires i + 1 < |states| && i < |actions|
  {
    NoOverflow(states[i]) && Step(states[i], actions[i], states[i + 1])
  }

  ghost predicate IsRun(states: seq<Shared>, actions: seq<Action>) {
    && |states| == |actions| + 1
    && Init(states[0])
    && forall i :: 0 <= i < |actions| ==> StepAt(states, actions, i)
  }

  /** The last timestamp after the first k reservations. */
  function LastAfter(log: seq<Reservation>, k: nat): int
    requires k <= |log|
  {
    if k == 0 then 0 else log[k - 1].start + log[k - 1].n - 1
  }

  ghost predicate Increasing(log: seq<Reservation>) {
    && (forall k :: 0 <= k < |log| ==> log[k].n > 0)
    && (forall k :: 0 <= k < |log| ==> LastAfter(log, k) < log[k].start)
  }

  ghost predicate CallSound(s: Shared, c: nat, call: Call) {
    match call
    case Called(n) => 0 < n <= MAX64
    case Clocked(n, now) => 0 < n <= MAX64 && Int64(now)
    case Loaded(n, now, last, seen) =>
      0 < n <= MAX64 && Int64(now) && seen <= |s.log| && last == LastAfter(s.log, seen)
    case Reserved(index) => index < |s.log| && s.log[index].caller == c
    case Nothing => true
  }

  ghost predicate Inv(s: Shared) {
    && Increasing(s.log)
    && s.last == LastAfter(s.log, |s.log|) <= MAX64
    && (forall c :: c in s.calls ==> CallSound(s, c, s.calls[c]))
  }

  lemma {:induction false} LastIncreases(log: seq<Reservation>, i: nat, j: nat)
    requires Increasing(log) && i <= j <= |log|
    ensures LastAfter(log, i) <= LastAfter(log, j)
    ensures i < j ==> LastAfter(log, i) < LastAfter(log, j)
    decreases j
  {
    if i == j {
    } else {
      LastIncreases(log, i, j - 1);
    }
  }

  /** Reservations made later disturb no call. */
  lemma CallStays(s: Shared, c: nat, call: Call, t: Shared)
    requires CallSound(s, c, call)
    requires |s.log| <= |t.log| && t.log[..|s.log|] == s.log
    ensures CallSound(t, c, call)
  {
    assert forall k :: 0 <= k < |s.log| ==> t.log[..|s.log|][k] == t.log[k];
  }

  lemma LogIncreases(log: seq<Reservation>, r: Reservation)
    requires Increasing(log) && r.n > 0 && LastAfter(log, |log|) < r.start
    ensures Increasing(log + [r]) && LastAfter(log + [r], |log| + 1) == r.start + r.n - 1
  {
    var log' := log + [r];
    forall k | 0 <= k < |log'| ensures LastAfter(log', k) < log'[k].start {
      assert k < |log| ==> log'[k] == log[k] && LastAfter(log', k) == LastAfter(log, k);
    }
  }

  lemma SwapInv(s: Shared, c: nat, t: Shared)
    requires Inv(s) && NoOverflow(s) && c in s.calls && s.calls[c].Loaded?
    requires SwapStep(s, c, s.calls[c], t)
    ensures Inv(t)
  {
    var call := s.calls[c];
    assert CallSound(s, c, call);
    if s.last == call.last {
      LastIncreases(s.log, 0, |s.log|);
      RaisesIffFits(call.now, call.last, call.n);
      LogIncreases(s.log, Reservation(c, Start(call.now, call.last), call.n));
      forall d | d in t.calls && d != c ensures CallSound(t, d, t.calls[d]) {
        CallStays(s, d, s.calls[d], t);
      }
    }
  }

  lemma StepInv(s: Shared, a: Action, t: Shared)
    requires Inv(s) && NoOverflow(s) && Step(s, a, t)
    ensures Inv(t)
  {
    if a.Swap? {
      SwapInv(s, a.c, t);
    }
  }

  lemma {:induction false} RunInv(states: seq<Shared>, actions: seq<Action>, i: nat)
    requires IsRun(states, actions) && i <= |actions|
    ensures Inv(states[i])
  {
    if i == 0 {
    } else {
      RunInv(states, actions, i - 1);
      assert StepAt(states, actions, i - 1);
      StepInv(states[i - 1], actions[i - 1], states[i]);
    }
  }

  /** In swap order every range lies wholly above the ones before it, whatever the clock read. */
  lemma RangesIncrease(states: seq<Shared>, actions: seq<Action>, i: nat, j: nat, k: nat)
    requires IsRun(states, actions) && i <= |actions|
    requires j < k < |states[i].log|
    ensures states[i].log[j].start + states[i].log[j].n <= states[i].log[k].start
  {
    RunInv(states, actions, i);
    LastIncreases(states[i].log, j + 1, k);
  }

  /** A swap that succeeds does so on the very value that was loaded, not on one that came back. */
  lemma NoAba(states: seq<Shared>, actions: seq<Action>, i: nat, c: nat)
    requires IsRun(states, actions) && i <= |actions|
    requires c in states[i].calls && states[i].calls[c].Loaded?
    ensures states[i].last == states[i].calls[c].last <==> states[i].calls[c].seen == |states[i].log|
  {
    RunInv(states, actions, i);
    var s := states[i];
    assert CallSound(s, c, s.calls[c]);
    LastIncreases(s.log, s.calls[c].seen, |s.log|);
  }

  /** A swap that meets the counter as it was loaded reserves the range: it starts at the clock reading if
      that is ahead of the counter, else right above it, and the counter is left at its end. */
  lemma SwapReserves(states: seq<Shared>, actions: seq<Action>, i: nat, c: nat)
    requires IsRun(states, actions) && i < |actions| && actions[i] == Swap(c)
    ensures c in states[i].calls && states[i].calls[c].Loaded? && c in states[i + 1].calls
    ensures states[i].calls[c].seen == |states[i].log| ==>
      var Loaded(n, now, last, seen) := states[i].calls[c];
      var start := if now > last then now else last + 1;
      && states[i + 1].log == states[i].log + [Reservation(c, start, n)]
      && states[i + 1].last == start + n - 1
      && states[i + 1].calls[c] == Reserved(|states[i].log|)
  {
    assert StepAt(states, actions, i);
    NoAba(states, actions, i, c);
    RunInv(states, actions, i);
    var s := states[i];
    assert CallSound(s, c, s.calls[c]);
    LastIncreases(s.log, 0, |s.log|);
    if s.calls[c].seen == |s.log| {
      RaisesIffFits(s.calls[c].now, s.calls[c].last, s.calls[c].n);
    }
  }

  ghost predicate Holds(s: Shared, c: nat, ts: int) {
    && c in s.calls
    && s.calls[c].Reserved?
    && s.calls[c].index < |s.log|
    && var r := s.log[s.calls[c].index]; r.start <= ts < r.start + r.n
  }

  /** Two callers never hold the same timestamp. */
  lemma RangesAreDisjoint(states: seq<Shared>, actions: seq<Action>, i: nat, c: nat, d: nat, ts: int)
    requires IsRun(states, actions) && i <= |actions|
    requires Holds(states[i], c, ts) && Holds(states[i], d, ts)
    ensures c == d
  {
    RunInv(states, actions, i);
    var s := states[i];
    var j, k := s.calls[c].index, s.calls[d].index;
    assert CallSound(s, c, s.calls[c]) && CallSound(s, d, s.calls[d]);
    if j < k {
      RangesIncrease(states, actions, i, j, k);
    } else if k < j {
      RangesIncrease(states, actions, i, k, j);
    }
  }

  // ---------------------------------------------------------------------
  // The loop as one caller runs it

  class Counter {
    var lastTimestamp: int

    constructor ()
      ensures lastTimestamp == 0
    {
      lastTimestamp := 0;
    }

    /** clock is what time.Now yields on each round; others holds what the counter was changed to by
        other callers before each swap but the last.  The result is the wrapped sum that the last round
        computes; when nothing overflows it lies above everything handed out before. */
    method NextTimestampRange(n: int, clock: seq<int>, others: seq<int>) returns (start: int)
      requires |clock| == |others| + 1 && Changed(lastTimestamp, others)
      modifies this
      ensures n <= 0 ==> start == 0 && lastTimestamp == old(lastTimestamp)
      ensures n > 0 ==> start == RangeStart(old(lastTimestamp), clock, others)
      ensures n > 0 ==> lastTimestamp == Wrap(start + (n - 1))
      // the clock when it is ahead of the counter, else the next value
      ensures var last := Held(old(lastTimestamp), others, |others|);
        && (n > 0 && clock[|others|] > last ==> start == clock[|others|])
        && (n > 0 && clock[|others|] <= last < MAX64 ==> start == last + 1)
    {
      if n <= 0 {
        return 0;
      }
      ghost var first := lastTimestamp;
      var round := 0;
      while true
        invariant round <= |others|
        invariant lastTimestamp == Held(first, others, round)
        decreases |others| - round
      {
        var now, last := clock[round], lastTimestamp;
        start := now;
        if now <= last {
          start := Wrap(last + 1);
        }
        var end := Wrap(start + (n - 1));
        if round < |others| {
          assert Held(first, others, round) != others[round];
          lastTimestamp := others[round];
        }
        if lastTimestamp == last {
          lastTimestamp := end;
          return;
        }
        round := round + 1;
      }
    }
  }

  // The counter after k reservations by others
  function Held(first: int, others: seq<int>, k: nat): int
    requires k <= |others|
  {
    if k == 0 then first else others[k - 1]
  }

  // Each swap but the last found the counter changed.
  ghost predicate Changed(first: int, others: seq<int>) {
    forall k: nat | k < |others| :: Held(first, others, k) != others[k]
  }

  // What the last round makes of its clock reading and of the counter it loaded
  function RangeStart(first: int, clock: seq<int>, others: seq<int>): int
    requires |clock| == |others| + 1
  {
    Start(clock[|others|], Held(first, others, |others|))
  }

  /** While the counter only rises, the range lies above every value it ever held, if and only if the
      additions of the last round fit 64 bits. */
  lemma RangeIsNew(first: int, clock: seq<int>, others: seq<int>, n: int)
    requires |clock| == |others| + 1 && 0 <= first && Raised(first, others) && 0 < n <= MAX64
    requires Int64(clock[|others|]) && Held(first, others, |others|) <= MAX64
    ensures var start, last := RangeStart(first, clock, others), Held(first, others, |others|);
      (forall k: nat | k <= |others| :: Held(first, others, k) < Wrap(start + (n - 1))) <==>
      (if clock[|others|] <= last then last + n <= MAX64 else clock[|others|] + (n - 1) <= MAX64)
  {
    var m := |others|;
    HeldRises(first, others, 0, m);
    RaisesIffFits(clock[m], Held(first, others, m), n);
    forall k: nat | k <= m ensures Held(first, others, k) <= Held(first, others, m) {
      HeldRises(first, others, k, m);
    }
  }

  ghost predicate Raised(first: int, others: seq<int>) {
    forall k: nat | k < |others| :: Held(first, others, k) < others[k]
  }

  lemma {:induction false} HeldRises(first: int, others: seq<int>, i: nat, j: nat)
    requires Raised(first, others) && i <= j <= |others|
    ensures Held(first, others, i) <= Held(first, others, j)
    ensures i < j ==> Held(first, others, i) < Held(first, others, j)
    decreases j
  {
    if i == j {
    } else {
      HeldRises(first, others, i, j - 1);
      assert Held(first, others, j - 1) < others[j - 1];
    }
  }

  // ---------------------------------------------------------------------
  // Base-36 keys

  function Digit(d: nat): char
    requires d < 36
  {
    if d < 10 then '0' + d as char else 'a' + (d - 10) as char
  }

  function Digits(n: nat): string {
    if n < 36 then [Digit(n)] else Digits(n / 36) + [Digit(n % 36)]
  }

  /** strconv.FormatInt(ts, 36). */
  function FormatBase36(ts: int): string {
    if ts < 0 then "-" + Digits(-ts) else Digits(ts)
  }

  function DigitValue(c: char): int {
    if c <= '9' then c as int - '0' as int else c as int - 'a' as int + 10
  }

  function Value(s: string): int {
    if s == "" then 0 else 36 * Value(s[..|s| - 1]) + DigitValue(s[|s| - 1])
  }

  lemma ValueOfDigit(d: nat)
    requires d < 36
    ensures DigitValue(Digit(d)) == d && Digit(d) != '-'
  {
  }

  lemma ValueAppends(s: string, c: char)
    ensures Value(s + [c]) == 36 * Value(s) + DigitValue(c)
  {
    assert (s + [c])[..|s|] == s;
  }

  lemma {:induction false} ValueOfDigits(n: nat)
    ensures Value(Digits(n)) == n
    ensures Digits(n)[0] != '-'
  {
    ValueOfDigit(n % 36);
    if n < 36 {
      ValueAppends("", Digit(n));
    } else {
      ValueOfDigits(n / 36);
      ValueAppends(Digits(n / 36), Digit(n % 36));
    }
  }

  /** Digits are lower case, most significant first, and a negative number has its sign in front. */
  lemma FormatsAs(d: nat)
    requires d < 36
    ensures Digit(d) == "0123456789abcdefghijklmnopqrstuvwxyz"[d]
    ensures FormatBase36(0) == "0" && FormatBase36(35) == "z" && FormatBase36(36) == "10" && FormatBase36(-71) == "-1z"
  {
    assert Digits(36) == Digits(1) + [Digit(0)] && Digits(71) == Digits(1) + [Digit(35)];
  }

  lemma FormatIsInjective(a: int, b: int)
    ensures FormatBase36(a) == FormatBase36(b) <==> a == b
  {
    ValueOfDigits(if a < 0 then -a else a);
    ValueOfDigits(if b < 0 then -b else b);
    if a < 0 {
      assert FormatBase36(a)[1..] == Digits(-a);
    }
    if b < 0 {
      assert FormatBase36(b)[1..] == Digits(-b);
    }
  }

  // ---------------------------------------------------------------------
  // finalizeCommands

  datatype Command = Command(idempotencyKey: string, id: string, timestamp: int, body: string)

  predicate Finalized(before: Command, after: Command, ts: int) {
    && after.body == before.body
    && after.timestamp == ts
    && after.id == after.idempotencyKey
    && after.idempotencyKey == if before.idempotencyKey == "" then FormatBase36(ts) else before.idempotencyKey
  }

  method ApplyCommandMetadata(cmds: array<Command>, i: nat, ts: int) returns (key: string)
    requires i < cmds.Length
    modifies cmds
    ensures Finalized(old(cmds[i]), cmds[i], ts) && key == cmds[i].idempotencyKey
    ensures forall k :: 0 <= k < cmds.Length && k != i ==> cmds[k] == old(cmds[k])
  {
    if cmds[i].idempotencyKey == "" {
      cmds[i] := cmds[i].(idempotencyKey := FormatBase36(ts));
    }
    cmds[i] := cmds[i].(id := cmds[i].idempotencyKey);
    cmds[i] := cmds[i].(timestamp := ts);
    key := cmds[i].idempotencyKey;
  }

  /** A batch takes its timestamps from the counter in one reservation; an empty one takes none. */
  method FinalizeCommands(counter: Counter, cmds: array<Command>, clock: seq<int>, others: seq<int>)
    returns (keys: array<string>)
    requires |clock| == |others| + 1 && Changed(counter.lastTimestamp, others)
    modifies counter, cmds
    ensures fresh(keys) && keys.Length == cmds.Length
    ensures cmds.Length == 0 ==> counter.lastTimestamp == old(counter.lastTimestamp)
    ensures cmds.Length > 0 ==>
      counter.lastTimestamp == Wrap(RangeStart(old(counter.lastTimestamp), clock, others) + (cmds.Length - 1))
    ensures forall k :: 0 <= k < cmds.Length ==>
      && Finalized(old(cmds[k]), cmds[k], Wrap(RangeStart(old(counter.lastTimestamp), clock, others) + k))
      && keys[k] == cmds[k].idempotencyKey
  {
    keys := new string[cmds.Length];
    if cmds.Length == 0 {
      return;
    }
    var start := counter.NextTimestampRange(cmds.Length, clock, others);
    for i := 0 to cmds.Length
      invariant counter.lastTimestamp == Wrap(start + (cmds.Length - 1))
      invariant forall k :: 0 <= k < i ==>
        Finalized(old(cmds[k]), cmds[k], Wrap(start + k)) && keys[k] == cmds[k].idempotencyKey
      invariant forall k :: i <= k < cmds.Length ==> cmds[k] == old(cmds[k])
    {
      keys[i] := ApplyCommandMetadata(cmds, i, Wrap(start + i));
    }
  }

  /** Within one process two generated keys are equal only when they are the same command's. */
  lemma GeneratedKeysAreDistinct(states: seq<Shared>, actions: seq<Action>, i: nat,
                                 c: nat, ts: int, d: nat, us: int,
                                 cmd: Command, cmd': Command, other: Command, other': Command)
    requires IsRun(states, actions) && i <= |actions|
    requires Holds(states[i], c, ts) && Holds(states[i], d, us)
    requires Finalized(cmd, cmd', ts) && cmd.idempotencyKey == ""
    requires Finalized(other, other', us) && other.idempotencyKey == ""
    ensures cmd'.idempotencyKey == other'.idempotencyKey <==> ts == us
    ensures cmd'.idempotencyKey == other'.idempotencyKey ==> c == d
  {
    FormatIsInjective(ts, us);
    if ts == us {
      RangesAreDisjoint(states, actions, i, c, d, ts);
    }
  }
}
