// The login throttle: an in-memory map and a database table that keep different
// records, and one small reference machine that neither can be told apart from.
module LoginThrottle {
  import opened Prelude

  const WINDOW: nat := 10 * MINUTE
  const BLOCK: nat := 15 * MINUTE
  const LIMIT: nat := 5

  datatype Entry = Entry(started: nat, failures: nat, blockedUntil: Option<nat>, updated: nat)

  datatype Pair = Pair(username: string, source: string)

  // ---- The two implementations of a recorded failure ----

  // memoryThrottleStore.RecordFailure. A missing entry is the zero value, whose start
  // is the zero time.
  function MemoryFailure(entry: Option<Entry>, now: nat): Entry {
    var value := if entry.Some? then entry.value else Entry(0, 0, None, 0);
    var current := if value.started == 0 || now - value.started >= WINDOW then Entry(now, 0, None, 0) else value;
    var n := current.failures + 1;
    var until := if n >= LIMIT then Some(now + BLOCK) else current.blockedUntil;
    current.(failures := n, updated := now, blockedUntil := until)
  }

  // The UPSERT of AuthStore.RecordFailure.
  function TableFailure(entry: Option<Entry>, now: nat): Entry {
    match entry
    case None => Entry(now, 1, None, now)
    case Some(row) =>
      var over := row.started <= now - WINDOW;
      var n := if over then 1 else row.failures + 1;
      Entry(if over then now else row.started, n, if n >= LIMIT then Some(now + BLOCK) else row.blockedUntil, now)
  }

  predicate Blocks(entry: Option<Entry>, now: nat) {
    entry.Some? && entry.value.blockedUntil.Some? && entry.value.blockedUntil.value > now
  }

  // ---- The reference machine ----

  // All that a sign-in can learn about a pair, now or later.
  datatype Standing = Clean | Counting(since: nat, failures: nat) | Blocked(until: nat)

  function Aged(o: Standing, now: nat): Standing {
    match o
    case Clean => Clean
    case Counting(since, _) => if now >= since + WINDOW then Clean else o
    case Blocked(until) => if now >= until then Clean else o
  }

  function Failed(o: Standing, now: nat): Standing {
    match o
    case Clean => Counting(now, 1)
    case Counting(since, failures) =>
      if failures + 1 >= LIMIT then Blocked(now + BLOCK) else Counting(since, failures + 1)
    case Blocked(_) => o
  }

  function StandingOf(entry: Option<Entry>, now: nat): Standing {
    match entry
    case None => Clean
    case Some(e) =>
      if Blocks(entry, now) then Blocked(e.blockedUntil.value)
      else if now >= e.started + WINDOW then Clean
      else Counting(e.started, e.failures)
  }

  // What an entry written by sign-ins satisfies.
  predicate Sane(entry: Option<Entry>, now: nat) {
    entry.Some? ==>
      var e := entry.value;
      && 1 <= e.started <= e.updated <= now
      && 1 <= e.failures <= LIMIT
      && (if e.failures == LIMIT then e.blockedUntil == Some(e.updated + BLOCK) && e.updated < e.started + WINDOW
          else e.blockedUntil.Some? ==> e.blockedUntil.value <= e.started)
  }

  // ---- Each implementation refines it ----

  lemma MemoryRefines(entry: Option<Entry>, now: nat)
    requires now >= 1 && Sane(entry, now) && !Blocks(entry, now)
    ensures Sane(Some(MemoryFailure(entry, now)), now)
    ensures StandingOf(Some(MemoryFailure(entry, now)), now) == Failed(StandingOf(entry, now), now)
  {
  }

  lemma TableRefines(entry: Option<Entry>, now: nat)
    requires now >= 1 && Sane(entry, now) && !Blocks(entry, now)
    ensures Sane(Some(TableFailure(entry, now)), now)
    ensures StandingOf(Some(TableFailure(entry, now)), now) == Failed(StandingOf(entry, now), now)
  {
  }

  lemma TimeRefines(entry: Option<Entry>, now: nat, later: nat)
    requires now <= later && Sane(entry, now)
    ensures Sane(entry, later) && StandingOf(entry, later) == Aged(StandingOf(entry, now), later)
  {
  }

  // A row untouched for a block duration stands for nothing.
  lemma OldRowsAreClean(entry: Option<Entry>, now: nat, age: nat)
    requires Sane(entry, now) && entry.Some? && age >= BLOCK && entry.value.updated + age <= now
    ensures StandingOf(entry, now) == Clean
  {
  }

  // ---- Runs of sign-ins, one after the other ----

  // good: the password verifies and the name is the administrator's.
  datatype Event =
    | Try(pair: Pair, good: bool)
    | Wait(elapsed: nat)
    | Sweep(gone: set<Pair>, age: nat)  // one batch of the retention pass

  datatype Memory = Memory(values: map<string, Entry>, now: nat)
  datatype Table = Table(rows: map<Pair, Entry>, now: nat)

  const NUL: char := '\0'

  function Joined(pair: Pair): string {
    pair.username + [NUL] + pair.source
  }

  function Find<K>(entries: map<K, Entry>, key: K): Option<Entry> {
    if key in entries then Some(entries[key]) else None
  }

  // SignIn against each store: a blocked pair is refused before anything is verified.
  function Recorded<K>(entries: map<K, Entry>, key: K, now: nat, good: bool, entry: Entry): map<K, Entry> {
    if Blocks(Find(entries, key), now) then entries
    else if good then entries - {key}
    else entries[key := entry]
  }

  function NextMemory(m: Memory, e: Event): Memory {
    match e
    case Try(pair, good) =>
      var key := Joined(pair);
      m.(values := Recorded(m.values, key, m.now, good, MemoryFailure(Find(m.values, key), m.now)))
    case Wait(elapsed) => m.(now := m.now + elapsed)
    case Sweep(_, _) => m
  }

  function NextTable(t: Table, e: Event): Table {
    match e
    case Try(pair, good) => t.(rows := Recorded(t.rows, pair, t.now, good, TableFailure(Find(t.rows, pair), t.now)))
    case Wait(elapsed) => t.(now := t.now + elapsed)
    case Sweep(gone, age) =>
      t.(rows := map p | p in t.rows && !(p in gone && t.rows[p].updated + age <= t.now) :: t.rows[p])
  }

  function NextStanding(o: Standing, now: nat, pair: Pair, e: Event): Standing {
    match e
    case Try(p, good) => if p != pair || o.Blocked? then o else if good then Clean else Failed(o, now)
    case Wait(elapsed) => Aged(o, now + elapsed)
    case Sweep(_, _) => o
  }

  function MemoryRun(events: seq<Event>): Memory
    decreases |events|
  {
    if |events| == 0 then Memory(map[], 1) else NextMemory(MemoryRun(events[..|events| - 1]), events[|events| - 1])
  }

  function TableRun(events: seq<Event>): Table
    decreases |events|
  {
    if |events| == 0 then Table(map[], 1) else NextTable(TableRun(events[..|events| - 1]), events[|events| - 1])
  }

  function Clock(events: seq<Event>): (now: nat)
    ensures now >= 1
    decreases |events|
  {
    if |events| == 0 then 1
    else Clock(events[..|events| - 1]) + match events[|events| - 1] { case Wait(elapsed) => elapsed case _ => 0 }
  }

  function StandingRun(events: seq<Event>, pair: Pair): Standing
    decreases |events|
  {
    if |events| == 0 then Clean
    else
      var init := events[..|events| - 1];
      NextStanding(StandingRun(init, pair), Clock(init), pair, events[|events| - 1])
  }

  // Source addresses contain no NUL, so the joined key determines the pair.
  predicate Plain(pair: Pair) {
    NUL !in pair.source
  }

  lemma ShorterNameNeedsNul(a: Pair, b: Pair)
    requires Joined(a) == Joined(b) && |a.username| < |b.username|
    ensures !Plain(a)
  {
    assert Joined(b)[|b.username|] == NUL;
    assert Joined(a)[|b.username|] == a.source[|b.username| - |a.username| - 1];
  }

  lemma JoinIsInjective(a: Pair, b: Pair)
    requires Plain(a) && Plain(b) && Joined(a) == Joined(b)
    ensures a == b
  {
    if |a.username| == |b.username| {
      assert Joined(a)[..|a.username|] == a.username && Joined(b)[..|b.username|] == b.username;
      assert Joined(a)[|a.username| + 1..] == a.source && Joined(b)[|b.username| + 1..] == b.source;
    } else if |a.username| < |b.username| {
      ShorterNameNeedsNul(a, b);
    } else {
      ShorterNameNeedsNul(b, a);
    }
  }

  ghost predicate AllowedEvent(e: Event) {
    (e.Try? ==> Plain(e.pair)) && (e.Sweep? ==> e.age >= BLOCK)
  }

  ghost predicate Stands(entry: Option<Entry>, now: nat, o: Standing) {
    Sane(entry, now) && StandingOf(entry, now) == o
  }

  lemma MemoryStep(m: Memory, e: Event, pair: Pair, o: Standing)
    requires m.now >= 1 && Plain(pair) && AllowedEvent(e) && Stands(Find(m.values, Joined(pair)), m.now, o)
    ensures var n := NextMemory(m, e); Stands(Find(n.values, Joined(pair)), n.now, NextStanding(o, m.now, pair, e))
  {
    var entry := Find(m.values, Joined(pair));
    match e
    case Try(p, good) =>
      if p == pair {
        if !Blocks(entry, m.now) { MemoryRefines(entry, m.now); }
      } else if Joined(p) == Joined(pair) {
        JoinIsInjective(p, pair);
      }
    case Wait(elapsed) => TimeRefines(entry, m.now, m.now + elapsed);
    case Sweep(_, _) =>
  }

  lemma TableStep(t: Table, e: Event, pair: Pair, o: Standing)
    requires t.now >= 1 && AllowedEvent(e) && Stands(Find(t.rows, pair), t.now, o)
    ensures var u := NextTable(t, e); Stands(Find(u.rows, pair), u.now, NextStanding(o, t.now, pair, e))
  {
    var entry := Find(t.rows, pair);
    match e
    case Try(p, good) => if p == pair && !Blocks(entry, t.now) { TableRefines(entry, t.now); }
    case Wait(elapsed) => TimeRefines(entry, t.now, t.now + elapsed);
    case Sweep(gone, age) =>
      if entry.Some? && entry.value.updated + age <= t.now { OldRowsAreClean(entry, t.now, age); }
  }

  lemma {:induction false} MemoryFollows(events: seq<Event>, pair: Pair)
    requires Plain(pair) && forall e :: e in events ==> AllowedEvent(e)
    ensures var m := MemoryRun(events);
            m.now == Clock(events) && Stands(Find(m.values, Joined(pair)), m.now, StandingRun(events, pair))
    decreases |events|
  {
    if |events| > 0 {
      var init, last := events[..|events| - 1], events[|events| - 1];
      MemoryFollows(init, pair);
      MemoryStep(MemoryRun(init), last, pair, StandingRun(init, pair));
    }
  }

  lemma {:induction false} TableFollows(events: seq<Event>, pair: Pair)
    requires forall e :: e in events ==> AllowedEvent(e)
    ensures var t := TableRun(events);
            t.now == Clock(events) && Stands(Find(t.rows, pair), t.now, StandingRun(events, pair))
    decreases |events|
  {
    if |events| > 0 {
      var init, last := events[..|events| - 1], events[|events| - 1];
      TableFollows(init, pair);
      TableStep(TableRun(init), last, pair, StandingRun(init, pair));
    }
  }

  // At every point of every run the memory store, and the table under any retention that
  // keeps rows for a block duration, give the same answer for every pair: that of the
  // reference machine. Failure counts stay between one and five.
  lemma StoresAreIndistinguishable(events: seq<Event>, pair: Pair)
    requires Plain(pair) && forall e :: e in events ==> AllowedEvent(e)
    ensures var m, t, now := MemoryRun(events), TableRun(events), Clock(events);
            && m.now == now && t.now == now
            && Sane(Find(m.values, Joined(pair)), now) && Sane(Find(t.rows, pair), now)
            && (Blocks(Find(m.values, Joined(pair)), now) <==> StandingRun(events, pair).Blocked?)
            && (Blocks(Find(t.rows, pair), now) <==> StandingRun(events, pair).Blocked?)
  {
    MemoryFollows(events, pair);
    TableFollows(events, pair);
  }

  // ---- Retention ----

  lemma StandingGrows(events: seq<Event>, e: Event, pair: Pair)
    ensures StandingRun(events + [e], pair) == NextStanding(StandingRun(events, pair), Clock(events), pair, e)
    ensures Clock(events + [e]) == Clock(events) + if e.Wait? then e.elapsed else 0
  {
    assert (events + [e])[..|events|] == events;
  }

  lemma LastOut(a: seq<Event>, b: seq<Event>)
    requires |b| > 0
    ensures a + b == a + b[..|b| - 1] + [b[|b| - 1]]
  {
  }

  lemma {:induction false} StandingIgnoresSweeps(events: seq<Event>, sweep: Event, more: seq<Event>, pair: Pair)
    requires sweep.Sweep?
    ensures StandingRun(events + [sweep] + more, pair) == StandingRun(events + more, pair)
    ensures Clock(events + [sweep] + more) == Clock(events + more)
    decreases |more|
  {
    if |more| == 0 {
      StandingGrows(events, sweep, pair);
      assert events + [sweep] + more == events + [sweep] && events + more == events;
    } else {
      var init, last := more[..|more| - 1], more[|more| - 1];
      StandingIgnoresSweeps(events, sweep, init, pair);
      LastOut(events + [sweep], more);
      LastOut(events, more);
      StandingGrows(events + [sweep] + init, last, pair);
      StandingGrows(events + init, last, pair);
    }
  }

  // A sweep that keeps rows for a block duration changes no answer, then or at any later
  // point of the run.
  lemma SweepIsUnnoticed(events: seq<Event>, sweep: Event, more: seq<Event>, pair: Pair)
    requires sweep.Sweep? && forall e :: e in events + [sweep] + more ==> AllowedEvent(e)
    ensures var t, u := TableRun(events + [sweep] + more), TableRun(events + more);
            Blocks(Find(t.rows, pair), t.now) <==> Blocks(Find(u.rows, pair), u.now)
  {
    StandingIgnoresSweeps(events, sweep, more, pair);
    TableFollows(events + [sweep] + more, pair);
    assert forall e :: e in events + more ==> e in events + [sweep] + more;
    TableFollows(events + more, pair);
  }

  function Failures(pair: Pair, n: nat): seq<Event> {
    seq(n, _ => Try(pair, false))
  }

  function FailedTimes(n: nat): Entry
    requires n >= 1
  {
    TableFailure(if n == 1 then None else Some(FailedTimes(n - 1)), 1)
  }

  lemma {:induction false} FailuresAdd(pair: Pair, n: nat)
    requires 1 <= n <= LIMIT
    ensures TableRun(Failures(pair, n)) == Table(map[pair := FailedTimes(n)], 1)
    ensures FailedTimes(n) == Entry(1, n, if n == LIMIT then Some(1 + BLOCK) else None, 1)
  {
    assert Failures(pair, n)[..n - 1] == Failures(pair, n - 1);
    if n > 1 {
      FailuresAdd(pair, n - 1);
    } else {
      assert Failures(pair, 0) == [];
    }
  }

  lemma {:induction false} FailuresCount(pair: Pair, n: nat)
    requires n < LIMIT
    ensures StandingRun(Failures(pair, n), pair) == (if n == 0 then Clean else Counting(1, n))
    ensures Clock(Failures(pair, n)) == 1
    decreases n
  {
    if n > 0 {
      FailuresCount(pair, n - 1);
      StandingGrows(Failures(pair, n - 1), Try(pair, false), pair);
      assert Failures(pair, n) == Failures(pair, n - 1) + [Try(pair, false)];
    } else {
      assert Failures(pair, n) == [];
    }
  }

  // Four failures do not block. A fifth does, if it comes less than ten minutes after
  // they began, and for fifteen minutes.
  lemma FifthFailureBlocks(pair: Pair, delay: nat, later: nat)
    ensures !StandingRun(Failures(pair, 4), pair).Blocked?
    ensures StandingRun(Failures(pair, 4) + [Wait(delay)] + [Try(pair, false)] + [Wait(later)], pair).Blocked?
            <==> delay < 600_000_000 && later < 900_000_000
  {
    var four := Failures(pair, 4);
    FailuresCount(pair, 4);
    StandingGrows(four, Wait(delay), pair);
    StandingGrows(four + [Wait(delay)], Try(pair, false), pair);
    StandingGrows(four + [Wait(delay)] + [Try(pair, false)], Wait(later), pair);
  }

  // The sweep of one pair changes the answer that it gets.
  ghost predicate Unblocks(events: seq<Event>, pair: Pair, age: nat) {
    var t := TableRun(events);
    var u := NextTable(t, Sweep({pair}, age));
    Blocks(Find(t.rows, pair), t.now) != Blocks(Find(u.rows, pair), u.now)
  }

  // Retention can lift a block if and only if it keeps rows for less than its duration.
  lemma SweepShowsExactly(pair: Pair, age: nat)
    requires Plain(pair)
    ensures (exists events :: (forall e :: e in events ==> AllowedEvent(e)) && Unblocks(events, pair, age))
            <==> age < BLOCK
  {
    if age < BLOCK {
      var five := Failures(pair, LIMIT);
      var events := five + [Wait(age)];
      FailuresAdd(pair, LIMIT);
      assert events[..|five|] == five;
      assert TableRun(events) == Table(map[pair := FailedTimes(LIMIT)], 1 + age);
      assert Unblocks(events, pair, age);
    } else {
      forall events | forall e :: e in events ==> AllowedEvent(e) ensures !Unblocks(events, pair, age) {
        var more := events + [Sweep({pair}, age)];
        assert more[..|events|] == events;
        TableFollows(events, pair);
        TableFollows(more, pair);
      }
    }
  }
}
