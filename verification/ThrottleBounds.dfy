// How many passwords can be tried: exact bounds on failed verifications per pair.
module ThrottleBounds {
  import opened LoginThrottle

  // The times at which a password was verified for the pair and failed, since the last success.
  function Misses(events: seq<Event>, pair: Pair): seq<nat>
    decreases |events|
  {
    if |events| == 0 then []
    else
      var init, last := events[..|events| - 1], events[|events| - 1];
      if last.Try? && last.pair == pair && !StandingRun(init, pair).Blocked? then
        if last.good then [] else Misses(init, pair) + [Clock(init)]
      else Misses(init, pair)
  }

  function Since(times: seq<nat>, a: nat): nat {
    if |times| == 0 then 0 else Since(times[..|times| - 1], a) + if times[|times| - 1] >= a then 1 else 0
  }

  // Those in the half-open window of ten minutes from a.
  function Within(times: seq<nat>, a: nat): nat {
    if |times| == 0 then 0
    else Within(times[..|times| - 1], a) + if a <= times[|times| - 1] < a + WINDOW then 1 else 0
  }

  lemma SinceOfAppend(times: seq<nat>, t: nat, a: nat)
    ensures Since(times + [t], a) == Since(times, a) + if t >= a then 1 else 0
    ensures Within(times + [t], a) == Within(times, a) + if a <= t < a + WINDOW then 1 else 0
  {
    assert (times + [t])[..|times|] == times;
  }

  lemma {:induction false} WithinIsSince(times: seq<nat>, a: nat)
    ensures Within(times, a) <= Since(times, a) <= |times|
    decreases |times|
  {
    if |times| > 0 { WithinIsSince(times[..|times| - 1], a); }
  }

  // ---- At most eight in any ten minutes ----

  // What the current standing says about the misses from a on.
  predicate RecentOk(o: Standing, times: seq<nat>, now: nat, a: nat) {
    match o
    case Clean => now < a + WINDOW ==> Since(times, a) <= 3
    case Counting(since, failures) =>
      && 1 <= failures < LIMIT && since <= now < since + WINDOW
      && (a > since ==> Since(times, a) <= failures - 1)
      && (a <= since < a + WINDOW ==> Since(times, a) <= 3 + failures)
    case Blocked(until) => until > now && until >= BLOCK && (a + BLOCK > until ==> Since(times, a) == 0)
  }

  predicate WindowOk(o: Standing, times: seq<nat>, now: nat, a: nat) {
    && RecentOk(o, times, now, a)
    && Within(times, a) <= 8
    && (a > now ==> Since(times, a) == 0)
  }

  lemma AppendKeepsWindow(o: Standing, times: seq<nat>, now: nat, a: nat)
    requires WindowOk(o, times, now, a) && !o.Blocked?
    ensures WindowOk(Failed(o, now), times + [now], now, a)
  {
    SinceOfAppend(times, now, a);
    WithinIsSince(times, a);
  }

  lemma {:induction false} MissesPerWindow(events: seq<Event>, pair: Pair, a: nat)
    ensures WindowOk(StandingRun(events, pair), Misses(events, pair), Clock(events), a)
    decreases |events|
  {
    if |events| > 0 {
      var init, last := events[..|events| - 1], events[|events| - 1];
      MissesPerWindow(init, pair, a);
      if last.Try? && last.pair == pair && !StandingRun(init, pair).Blocked? && !last.good {
        AppendKeepsWindow(StandingRun(init, pair), Misses(init, pair), Clock(init), a);
      }
    }
  }

  // Any half-open ten minutes hold at most eight failed verifications of one pair.
  lemma AtMostEightInTenMinutes(events: seq<Event>, pair: Pair, a: nat)
    ensures Within(Misses(events, pair), a) <= 8
  {
    MissesPerWindow(events, pair, a);
  }

  // ---- None while a block lasts ----

  predicate Outside(times: seq<nat>, until: nat) {
    forall i :: 0 <= i < |times| ==> times[i] + BLOCK <= until || times[i] >= until
  }

  lemma MissesAreOld(events: seq<Event>, pair: Pair)
    ensures StandingRun(events, pair).Blocked? ==> Outside(Misses(events, pair), StandingRun(events, pair).until)
    ensures forall i :: 0 <= i < |Misses(events, pair)| ==> Misses(events, pair)[i] <= Clock(events)
    decreases |events|
  {
    if |events| > 0 { MissesAreOld(events[..|events| - 1], pair); }
  }

  // After the fifth failure nothing is verified for fifteen minutes, whatever is tried.
  lemma {:induction false} BlocksHold(events: seq<Event>, more: seq<Event>, pair: Pair)
    requires StandingRun(events, pair).Blocked?
    ensures var until := StandingRun(events, pair).until;
            && Outside(Misses(events + more, pair), until)
            && (StandingRun(events + more, pair) == StandingRun(events, pair) || Clock(events + more) >= until)
    decreases |more|
  {
    if |more| == 0 {
      assert events + more == events;
      MissesAreOld(events, pair);
    } else {
      var init := more[..|more| - 1];
      BlocksHold(events, init, pair);
      assert (events + more)[..|events + more| - 1] == events + init;
    }
  }

  // ---- The most that fit into any stretch of time ----

  // How many more than five, between the first and the last.
  function Gain(x: nat): nat {
    if x < WINDOW then 0
    else if x < BLOCK then LIMIT - 1
    else (LIMIT - 1) * (x / WINDOW) + if x % WINDOW >= BLOCK - WINDOW then 1 else 0
  }

  lemma GainGrows(x: nat, y: nat)
    requires x <= y
    ensures Gain(x) <= Gain(y)
    ensures y >= x + WINDOW ==> Gain(x) + LIMIT - 1 <= Gain(y)
    ensures y >= x + BLOCK ==> Gain(x) + LIMIT <= Gain(y)
  {
  }

  predicate TotalOk(o: Standing, times: seq<nat>, now: nat) {
    if |times| == 0 then o == Clean
    else
      var first, last := times[0], times[|times| - 1];
      && first <= last <= now
      && |times| <= LIMIT + Gain(last - first)
      && match o
         case Clean => |times| <= Gain(now - first)
         case Counting(since, failures) =>
           && failures < LIMIT && first <= since <= last && now < since + WINDOW
           && |times| <= Gain(since - first) + failures
         case Blocked(until) => until == last + BLOCK
  }

  lemma AgingKeepsTotal(o: Standing, times: seq<nat>, now: nat, later: nat)
    requires TotalOk(o, times, now) && now <= later
    ensures TotalOk(Aged(o, later), times, later)
  {
    if |times| > 0 {
      var first, last := times[0], times[|times| - 1];
      match o
      case Clean => GainGrows(now - first, later - first);
      case Counting(since, _) => GainGrows(since - first, later - first);
      case Blocked(until) => GainGrows(last - first, later - first);
    }
  }

  lemma AppendKeepsTotal(o: Standing, times: seq<nat>, now: nat)
    requires TotalOk(o, times, now) && !o.Blocked?
    ensures TotalOk(Failed(o, now), times + [now], now)
  {
    if |times| > 0 && o.Counting? { GainGrows(o.since - times[0], now - times[0]); }
  }

  lemma {:induction false} TotalHolds(events: seq<Event>, pair: Pair)
    ensures TotalOk(StandingRun(events, pair), Misses(events, pair), Clock(events))
    decreases |events|
  {
    if |events| > 0 {
      var init, last := events[..|events| - 1], events[|events| - 1];
      TotalHolds(init, pair);
      match last
      case Try(p, good) =>
        if p == pair && !StandingRun(init, pair).Blocked? && !good {
          AppendKeepsTotal(StandingRun(init, pair), Misses(init, pair), Clock(init));
        }
      case Wait(elapsed) => AgingKeepsTotal(StandingRun(init, pair), Misses(init, pair), Clock(init), Clock(events));
      case Sweep(_, _) =>
    }
  }

  predicate FitsIn(times: seq<nat>, span: nat) {
    |times| > 0 ==> 0 <= times[|times| - 1] - times[0] <= span
  }

  // Failed verifications without a success between them, over a stretch of span
  // microseconds: at most 5 + Gain(span), so at most five for each ten minutes begun.
  lemma AtMostThatMany(events: seq<Event>, pair: Pair, span: nat)
    requires FitsIn(Misses(events, pair), span)
    ensures |Misses(events, pair)| <= LIMIT + Gain(span) <= LIMIT * (span / WINDOW + 1)
  {
    TotalHolds(events, pair);
    var times := Misses(events, pair);
    if |times| > 0 { GainGrows(times[|times| - 1] - times[0], span); }
  }

  // ---- And exactly that many are possible ----

  lemma AfterTry(events: seq<Event>, pair: Pair)
    requires !StandingRun(events, pair).Blocked?
    ensures var more := events + [Try(pair, false)];
            && StandingRun(more, pair) == Failed(StandingRun(events, pair), Clock(events))
            && Misses(more, pair) == Misses(events, pair) + [Clock(events)]
            && Clock(more) == Clock(events)
  {
    assert (events + [Try(pair, false)])[..|events|] == events;
  }

  lemma AfterWait(events: seq<Event>, pair: Pair, elapsed: nat)
    ensures var more := events + [Wait(elapsed)];
            && StandingRun(more, pair) == Aged(StandingRun(events, pair), Clock(events) + elapsed)
            && Misses(more, pair) == Misses(events, pair)
            && Clock(more) == Clock(events) + elapsed
  {
    assert (events + [Wait(elapsed)])[..|events|] == events;
  }

  // n failures at once from a clean standing.
  lemma {:induction false} Burst(base: seq<Event>, pair: Pair, n: nat) returns (events: seq<Event>)
    requires StandingRun(base, pair) == Clean && 1 <= n <= LIMIT
    ensures var now := Clock(base);
            && Clock(events) == now
            && Misses(events, pair) == Misses(base, pair) + seq(n, _ => now)
            && StandingRun(events, pair) == if n < LIMIT then Counting(now, n) else Blocked(now + BLOCK)
  {
    if n == 1 {
      events := base + [Try(pair, false)];
      AfterTry(base, pair);
    } else {
      var shorter := Burst(base, pair, n - 1);
      events := shorter + [Try(pair, false)];
      AfterTry(shorter, pair);
    }
  }

  // A burst, and a wait until its window or block is over.
  lemma Round(base: seq<Event>, pair: Pair, n: nat, wait: nat) returns (events: seq<Event>)
    requires StandingRun(base, pair) == Clean && 1 <= n <= LIMIT
    requires wait >= if n < LIMIT then WINDOW else BLOCK
    ensures var now := Clock(base);
            && StandingRun(events, pair) == Clean && Clock(events) == now + wait
            && Misses(events, pair) == Misses(base, pair) + seq(n, _ => now)
  {
    var burst := Burst(base, pair, n);
    events := burst + [Wait(wait)];
    AfterWait(burst, pair, wait);
  }

  // k windows of four failures each.
  lemma {:induction false} Rounds(base: seq<Event>, pair: Pair, k: nat) returns (events: seq<Event>)
    requires StandingRun(base, pair) == Clean
    ensures StandingRun(events, pair) == Clean && Clock(events) == Clock(base) + k * WINDOW
    ensures var (before, after) := (Misses(base, pair), Misses(events, pair));
            && |after| == |before| + (LIMIT - 1) * k
            && (|after| > 0 ==> after[0] == if |before| > 0 then before[0] else Clock(base))
  {
    if k == 0 {
      events := base;
    } else {
      var fewer := Rounds(base, pair, k - 1);
      events := Round(fewer, pair, LIMIT - 1, WINDOW);
    }
  }

  ghost predicate Reaches(pair: Pair, span: nat, n: nat) {
    exists events :: FitsIn(Misses(events, pair), span) && |Misses(events, pair)| == n
  }

  // How the bound is reached: k windows of four and one burst of five, after a first
  // block when the stretch leaves room for it.
  lemma GainIsReached(span: nat)
    ensures var k := span / WINDOW;
            if span >= BLOCK && span % WINDOW >= BLOCK - WINDOW
            then k >= 1 && BLOCK + (k - 1) * WINDOW <= span
                && LIMIT + Gain(span) == LIMIT + (LIMIT - 1) * (k - 1) + LIMIT
            else k * WINDOW <= span && LIMIT + Gain(span) == (LIMIT - 1) * k + LIMIT
  {
  }

  lemma BoundIsReached(pair: Pair, span: nat)
    ensures Reaches(pair, span, LIMIT + Gain(span))
  {
    var k := span / WINDOW;
    GainIsReached(span);
    if span >= BLOCK && span % WINDOW >= BLOCK - WINDOW {
      var base := Round([], pair, LIMIT, BLOCK);
      RoundsReach(base, pair, k - 1, span);
    } else {
      RoundsReach([], pair, k, span);
    }
  }

  lemma RoundsReach(base: seq<Event>, pair: Pair, k: nat, span: nat)
    requires StandingRun(base, pair) == Clean
    requires var misses := Misses(base, pair);
             var first := if |misses| > 0 then misses[0] else Clock(base);
             first <= Clock(base) && Clock(base) + k * WINDOW - first <= span
    ensures Reaches(pair, span, |Misses(base, pair)| + (LIMIT - 1) * k + LIMIT)
  {
    var events := Rounds(base, pair, k);
    var all := Burst(events, pair, LIMIT);
    assert FitsIn(Misses(all, pair), span) && |Misses(all, pair)| == |Misses(base, pair)| + (LIMIT - 1) * k + LIMIT;
  }

  lemma ThreeMore(base: seq<Event>, pair: Pair) returns (events: seq<Event>)
    requires StandingRun(base, pair).Counting? && StandingRun(base, pair).failures == 1
    ensures var now := Clock(base);
            && Clock(events) == now && Misses(events, pair) == Misses(base, pair) + [now, now, now]
            && StandingRun(events, pair) == Counting(StandingRun(base, pair).since, 4)
  {
    AfterTry(base, pair);
    var two := base + [Try(pair, false)];
    AfterTry(two, pair);
    var three := two + [Try(pair, false)];
    AfterTry(three, pair);
    events := three + [Try(pair, false)];
  }

  // One failure, three more just before its window is over, and then n at its end.
  lemma LateBurst(pair: Pair, n: nat) returns (events: seq<Event>)
    requires 1 <= n <= LIMIT
    ensures Misses(events, pair) == [1] + seq(3, _ => WINDOW) + seq(n, _ => WINDOW + 1)
    ensures StandingRun(events, pair) == if n < LIMIT then Counting(WINDOW + 1, n) else Blocked(WINDOW + 1 + BLOCK)
    ensures Clock(events) == WINDOW + 1
  {
    var one := Burst([], pair, 1);
    assert [] + seq(1, _ => 1) == [1];
    AfterWait(one, pair, WINDOW - 1);
    var four := ThreeMore(one + [Wait(WINDOW - 1)], pair);
    assert seq(3, _ => WINDOW) == [WINDOW, WINDOW, WINDOW];
    AfterWait(four, pair, 1);
    events := Burst(four + [Wait(1)], pair, n);
  }

  lemma CountLate(n: nat)
    ensures Within([1] + seq(3, _ => WINDOW) + seq(n, _ => WINDOW + 1), 2) == 3 + n
  {
    SinceOfAppend([], 1, 2);
    assert [] + [1] == [1];
    CountMore([1], WINDOW, 3);
    CountMore([1] + seq(3, _ => WINDOW), WINDOW + 1, n);
  }

  // Eight in ten minutes do happen.
  lemma EightIsReached(pair: Pair)
    ensures exists events :: Within(Misses(events, pair), 2) == 8
  {
    var events := LateBurst(pair, 5);
    CountLate(5);
  }

  // ---- When a failure blocks ----

  // Seven failures within ten minutes, almost at the same time, need not block.
  lemma SevenNeedNotBlock(pair: Pair)
    ensures exists events :: !StandingRun(events, pair).Blocked? && Within(Misses(events, pair), 2) == 7
  {
    var events := LateBurst(pair, 4);
    CountLate(4);
  }

  lemma {:induction false} SinceFalls(times: seq<nat>, a: nat, b: nat)
    requires a <= b
    ensures Since(times, b) <= Since(times, a)
    decreases |times|
  {
    if |times| > 0 { SinceFalls(times[..|times| - 1], a, b); }
  }

  predicate CountOk(o: Standing, times: seq<nat>, now: nat) {
    match o
    case Clean => Since(times, now) == 0
    case Counting(since, failures) =>
      Since(times, since) == failures && Since(times, since + WINDOW) == 0 && since <= now < since + WINDOW
    case Blocked(until) => Since(times, until) == 0
  }

  lemma AgingKeepsCount(o: Standing, times: seq<nat>, now: nat, later: nat)
    requires CountOk(o, times, now) && now <= later
    ensures CountOk(Aged(o, later), times, later)
  {
    match o
    case Clean => SinceFalls(times, now, later);
    case Counting(since, _) => if later >= since + WINDOW { SinceFalls(times, since + WINDOW, later); }
    case Blocked(until) => if later >= until { SinceFalls(times, until, later); }
  }

  lemma {:induction false} CountHolds(events: seq<Event>, pair: Pair)
    ensures CountOk(StandingRun(events, pair), Misses(events, pair), Clock(events))
    ensures Since(Misses(events, pair), Clock(events) + 1) == 0
    decreases |events|
  {
    if |events| > 0 {
      var init, last := events[..|events| - 1], events[|events| - 1];
      var o, times, now := StandingRun(init, pair), Misses(init, pair), Clock(init);
      CountHolds(init, pair);
      match last
      case Try(p, good) =>
        if p == pair && !o.Blocked? && !good {
          MissKeepsCount(o, times, now);
          SinceOfAppend(times, now, now + 1);
        }
      case Wait(elapsed) =>
        AgingKeepsCount(o, times, now, now + elapsed);
        SinceFalls(times, now + 1, now + elapsed + 1);
      case Sweep(_, _) =>
    }
  }

  lemma MissKeepsCount(o: Standing, times: seq<nat>, now: nat)
    requires CountOk(o, times, now) && !o.Blocked? && Since(times, now + 1) == 0
    ensures CountOk(Failed(o, now), times + [now], now)
  {
    SinceOfAppend(times, now, now);
    SinceOfAppend(times, now, now + WINDOW);
    SinceOfAppend(times, now, now + BLOCK);
    SinceFalls(times, now + 1, now + WINDOW);
    SinceFalls(times, now + 1, now + BLOCK);
    if o.Counting? {
      SinceOfAppend(times, now, o.since);
      SinceOfAppend(times, now, o.since + WINDOW);
    }
  }

  // A failed verification blocks the pair exactly if it is the fifth since its window
  // was opened, not if it is the fifth within the last ten minutes.
  lemma BlockedExactly(events: seq<Event>, pair: Pair)
    requires !StandingRun(events, pair).Blocked?
    ensures var o, more := StandingRun(events, pair), events + [Try(pair, false)];
            var start := if o.Counting? then o.since else Clock(events);
            StandingRun(more, pair).Blocked? <==> Since(Misses(more, pair), start) >= LIMIT
  {
    AfterTry(events, pair);
    CountHolds(events, pair);
    var o := StandingRun(events, pair);
    SinceOfAppend(Misses(events, pair), Clock(events), if o.Counting? then o.since else Clock(events));
    MissesPerWindow(events, pair, 0);
  }

  lemma {:induction false} CountMore(times: seq<nat>, t: nat, n: nat)
    requires 2 <= t < 2 + WINDOW
    ensures Within(times + seq(n, _ => t), 2) == Within(times, 2) + n
    decreases n
  {
    if n == 0 {
      assert times + seq(n, _ => t) == times;
    } else {
      CountMore(times, t, n - 1);
      SinceOfAppend(times + seq(n - 1, _ => t), t, 2);
      assert times + seq(n - 1, _ => t) + [t] == times + seq(n, _ => t);
    }
  }
}
