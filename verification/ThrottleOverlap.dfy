// The two throttle stores when sign-ins overlap, so that failures and clearances are
// recorded whatever the pair's standing is by then: exactly which runs tell them apart.
module ThrottleOverlap {
  import opened Prelude
  import opened LoginThrottle

  datatype Call =
    | Record(pair: Pair)
    | Clear(pair: Pair)
    | Pass(elapsed: nat)
    | Retain(gone: set<Pair>, age: nat)

  function CallMemory(m: Memory, call: Call): Memory {
    match call
    case Record(pair) =>
      var key := Joined(pair);
      m.(values := m.values[key := MemoryFailure(Find(m.values, key), m.now)])
    case Clear(pair) => m.(values := m.values - {Joined(pair)})
    case Pass(elapsed) => m.(now := m.now + elapsed)
    case Retain(_, _) => m
  }

  function CallTable(t: Table, call: Call): Table {
    match call
    case Record(pair) => t.(rows := t.rows[pair := TableFailure(Find(t.rows, pair), t.now)])
    case Clear(pair) => t.(rows := t.rows - {pair})
    case Pass(elapsed) => t.(now := t.now + elapsed)
    case Retain(gone, age) => NextTable(t, Sweep(gone, age))
  }

  function CallsMemory(calls: seq<Call>): Memory
    decreases |calls|
  {
    if |calls| == 0 then Memory(map[], 1) else CallMemory(CallsMemory(calls[..|calls| - 1]), calls[|calls| - 1])
  }

  function CallsTable(calls: seq<Call>): Table
    decreases |calls|
  {
    if |calls| == 0 then Table(map[], 1) else CallTable(CallsTable(calls[..|calls| - 1]), calls[|calls| - 1])
  }

  predicate AllowedCall(call: Call) {
    (call.Record? || call.Clear? ==> Plain(call.pair)) && (call.Retain? ==> call.age >= BLOCK)
  }

  // The stores give the same answer for the pair.
  predicate Alike(m: Memory, t: Table, pair: Pair) {
    Blocks(Find(m.values, Joined(pair)), m.now) <==> Blocks(Find(t.rows, pair), t.now)
  }

  // The call records a failure for a pair that is blocked and whose window is over.
  predicate Trips(m: Memory, call: Call) {
    && call.Record?
    && var entry := Find(m.values, Joined(call.pair));
       Blocks(entry, m.now) && m.now >= entry.value.started + WINDOW
  }

  // ---- What cannot be told apart ----

  predicate Open(entry: Option<Entry>, now: nat) {
    entry.Some? && now < entry.value.started + WINDOW
  }

  // The end of the block that is in force.
  function BlockedUntil(entry: Option<Entry>, now: nat): Option<nat> {
    if Blocks(entry, now) then entry.value.blockedUntil else None
  }

  // Blocked until the same time, windows open together, and open ones with the same
  // start and count.
  predicate Matches(a: Option<Entry>, b: Option<Entry>, now: nat) {
    && BlockedUntil(a, now) == BlockedUntil(b, now)
    && (Open(a, now) <==> Open(b, now))
    && (Open(a, now) ==> a.value.started == b.value.started && a.value.failures == b.value.failures)
  }

  // What every entry satisfies, however calls overlap.
  predicate Dated(entry: Option<Entry>, now: nat) {
    entry.Some? ==>
      var e := entry.value;
      && 1 <= e.started <= e.updated <= now
      && (e.blockedUntil.Some? ==> e.blockedUntil.value <= e.updated + BLOCK)
  }

  predicate Together(a: Option<Entry>, b: Option<Entry>, now: nat) {
    now >= 1 && Dated(a, now) && Dated(b, now) && Matches(a, b, now)
  }

  // A failure keeps the entries together, unless it trips.
  lemma FailureKeepsTogether(a: Option<Entry>, b: Option<Entry>, now: nat)
    requires Together(a, b, now) && !(Blocks(a, now) && !Open(a, now))
    ensures Together(Some(MemoryFailure(a, now)), Some(TableFailure(b, now)), now)
  {
  }

  lemma TimeKeepsTogether(a: Option<Entry>, b: Option<Entry>, now: nat, later: nat)
    requires Together(a, b, now) && now <= later
    ensures Together(a, b, later)
  {
  }

  lemma OldRowsMatchNothing(a: Option<Entry>, b: Option<Entry>, now: nat, age: nat)
    requires Together(a, b, now) && age >= BLOCK && b.Some? && b.value.updated + age <= now
    ensures Together(a, None, now)
  {
  }

  // A failure that trips lifts the block in memory and not in the table, whatever the
  // entries are.
  lemma TrippingTellsThemApart(a: Option<Entry>, b: Option<Entry>, now: nat)
    requires Blocks(a, now) && Blocks(b, now) && now >= a.value.started + WINDOW
    ensures !Blocks(Some(MemoryFailure(a, now)), now) && Blocks(Some(TableFailure(b, now)), now)
  {
  }

  // ---- Whole runs ----

  predicate PairTogether(m: Memory, t: Table, pair: Pair) {
    m.now == t.now && Together(Find(m.values, Joined(pair)), Find(t.rows, pair), m.now)
  }

  lemma CallKeepsTogether(m: Memory, t: Table, call: Call, pair: Pair)
    requires AllowedCall(call) && Plain(pair) && PairTogether(m, t, pair) && !Trips(m, call)
    ensures PairTogether(CallMemory(m, call), CallTable(t, call), pair)
  {
    var a, b := Find(m.values, Joined(pair)), Find(t.rows, pair);
    if call.Record? || call.Clear? {
      if call.pair == pair {
        if call.Record? { FailureKeepsTogether(a, b, m.now); }
      } else if Joined(call.pair) == Joined(pair) {
        JoinIsInjective(call.pair, pair);
      }
    } else if call.Pass? {
      TimeKeepsTogether(a, b, m.now, m.now + call.elapsed);
    } else if b.Some? && b.value.updated + call.age <= t.now {
      OldRowsMatchNothing(a, b, m.now, call.age);
    }
  }

  ghost predicate TripsAt(calls: seq<Call>, i: nat)
    requires i < |calls|
  {
    Trips(CallsMemory(calls[..i]), calls[i])
  }

  // After i calls every pair gets the same answer from both stores.
  ghost predicate AlikeAt(calls: seq<Call>, i: nat)
    requires i <= |calls|
  {
    forall pair :: Plain(pair) ==> Alike(CallsMemory(calls[..i]), CallsTable(calls[..i]), pair)
  }

  lemma CallsGrow(calls: seq<Call>, i: nat)
    requires i < |calls|
    ensures CallsMemory(calls[..i + 1]) == CallMemory(CallsMemory(calls[..i]), calls[i])
    ensures CallsTable(calls[..i + 1]) == CallTable(CallsTable(calls[..i]), calls[i])
  {
    assert calls[..i + 1][..i] == calls[..i];
  }

  lemma {:induction false} TogetherUntilTripped(calls: seq<Call>, n: nat, pair: Pair)
    requires n <= |calls| && Plain(pair) && forall call :: call in calls ==> AllowedCall(call)
    requires forall i :: 0 <= i < n ==> !TripsAt(calls, i)
    ensures PairTogether(CallsMemory(calls[..n]), CallsTable(calls[..n]), pair)
    decreases n
  {
    if n == 0 {
      assert calls[..0] == [];
    } else {
      TogetherUntilTripped(calls, n - 1, pair);
      CallsGrow(calls, n - 1);
      assert calls[n - 1] in calls && !TripsAt(calls, n - 1);
      CallKeepsTogether(CallsMemory(calls[..n - 1]), CallsTable(calls[..n - 1]), calls[n - 1], pair);
    }
  }

  lemma {:induction false} ClocksAgree(calls: seq<Call>)
    ensures CallsMemory(calls).now == CallsTable(calls).now
    decreases |calls|
  {
    if |calls| > 0 { ClocksAgree(calls[..|calls| - 1]); }
  }

  // However calls overlap, and with retention at any time, memory and table give every
  // pair the same answer at every point of the run if and only if no failure is recorded
  // for a pair that is blocked and whose window is over.
  lemma AlikeExactly(calls: seq<Call>)
    requires forall call :: call in calls ==> AllowedCall(call)
    ensures (forall i :: 0 <= i <= |calls| ==> AlikeAt(calls, i))
            <==> (forall i :: 0 <= i < |calls| ==> !TripsAt(calls, i))
  {
    if forall i :: 0 <= i < |calls| ==> !TripsAt(calls, i) {
      forall n, pair | 0 <= n <= |calls| && Plain(pair)
        ensures Alike(CallsMemory(calls[..n]), CallsTable(calls[..n]), pair)
      {
        TogetherUntilTripped(calls, n, pair);
      }
    }
    if forall i :: 0 <= i <= |calls| ==> AlikeAt(calls, i) {
      forall i | 0 <= i < |calls| ensures !TripsAt(calls, i) {
        assert AlikeAt(calls, i) && AlikeAt(calls, i + 1);
        if TripsAt(calls, i) { TrippingShows(calls, i); }
      }
    }
  }

  lemma TrippingShows(calls: seq<Call>, i: nat)
    requires i < |calls| && AlikeAt(calls, i) && TripsAt(calls, i) && AllowedCall(calls[i])
    ensures !AlikeAt(calls, i + 1)
  {
    var m, t, pair := CallsMemory(calls[..i]), CallsTable(calls[..i]), calls[i].pair;
    ClocksAgree(calls[..i]);
    CallsGrow(calls, i);
    assert Alike(m, t, pair);
    TrippingTellsThemApart(Find(m.values, Joined(pair)), Find(t.rows, pair), m.now);
    assert !Alike(CallsMemory(calls[..i + 1]), CallsTable(calls[..i + 1]), pair);
  }

  // ---- Such runs happen ----

  // A failure, four just before its window is over, and the failure of a sign-in that had
  // passed the check before them.
  ghost function Overlap(pair: Pair): seq<Call> {
    var r := Record(pair);
    [r] + [Pass(WINDOW - 1)] + [r] + [r] + [r] + [r] + [Pass(1)] + [r]
  }

  // After the calls the memory store has this entry for the pair.
  ghost predicate Has(calls: seq<Call>, pair: Pair, entry: Option<Entry>, now: nat) {
    Find(CallsMemory(calls).values, Joined(pair)) == entry && CallsMemory(calls).now == now
  }

  lemma HasAfterRecord(calls: seq<Call>, pair: Pair, entry: Option<Entry>, now: nat)
    requires Has(calls, pair, entry, now)
    ensures Has(calls + [Record(pair)], pair, Some(MemoryFailure(entry, now)), now)
  {
    assert (calls + [Record(pair)])[..|calls|] == calls;
  }

  lemma HasAfterPass(calls: seq<Call>, pair: Pair, entry: Option<Entry>, now: nat, elapsed: nat)
    requires Has(calls, pair, entry, now)
    ensures Has(calls + [Pass(elapsed)], pair, entry, now + elapsed)
  {
    assert (calls + [Pass(elapsed)])[..|calls|] == calls;
  }

  lemma OverlapHappens(pair: Pair)
    requires Plain(pair)
    ensures TripsAt(Overlap(pair), 7) && exists i :: 0 <= i <= 8 && !AlikeAt(Overlap(pair), i)
  {
    var r, w := Record(pair), WINDOW;
    var calls := [] + [r] + [Pass(w - 1)];
    HasAfterRecord([], pair, None, 1);
    HasAfterPass([] + [r], pair, Some(Entry(1, 1, None, 1)), 1, w - 1);
    HasAfterRecord(calls, pair, Some(Entry(1, 1, None, 1)), w);
    HasAfterRecord(calls + [r], pair, Some(Entry(1, 2, None, w)), w);
    HasAfterRecord(calls + [r] + [r], pair, Some(Entry(1, 3, None, w)), w);
    HasAfterRecord(calls + [r] + [r] + [r], pair, Some(Entry(1, 4, None, w)), w);
    HasAfterPass(calls + [r] + [r] + [r] + [r], pair, Some(Entry(1, 5, Some(w + BLOCK), w)), w, 1);
    assert Overlap(pair)[..7] == calls + [r] + [r] + [r] + [r] + [Pass(1)];
    if AlikeAt(Overlap(pair), 7) { TrippingShows(Overlap(pair), 7); }
  }
}
