// Any number of cleanup passes over one queue, with any claim, removal or completion
// failing: who holds a record, how often and how soon its file is tried again.
module CleanupWorkers {
  import opened Prelude
  import opened CleanupQueue

  // History: tries holds, for each record, the start times of the passes that called Remove
  // for it, and gone the records for which Remove worked.
  datatype Desk = Desk(table: seq<Record>, workers: seq<Worker>, tries: seq<seq<nat>>, gone: set<nat>, now: nat)

  datatype Event =
    | Enqueue(key: Key, nextAt: nat)
    | Start(limit: nat)
    | Pull(pid: nat, pick: seq<nat>, fail: bool)
    | Remove(pid: nat, removed: bool)
    | Complete(pid: nat, fail: bool)
    | Wait(elapsed: nat)

  predicate Stands(d: Desk, e: Event) {
    match e
    case Pull(pid, _, _) => pid < |d.workers| && d.workers[pid].Claiming?
    case Remove(pid, _) => pid < |d.workers| && d.workers[pid].Removing? && |d.workers[pid].batch| > 0
    case Complete(pid, _) => pid < |d.workers| && d.workers[pid].Completing?
    case _ => true
  }

  function Next(d: Desk, e: Event, maximum: int): Desk {
    if !Stands(d, e) then d
    else
      match e
      case Enqueue(key, nextAt) => d.(table := d.table + [NewRecord(key, nextAt)], tries := d.tries + [[]])
      case Start(limit) => d.(workers := d.workers + [Claiming(limit)])
      case Pull(pid, pick, fail) =>
        var (table, w) := ClaimStep(d.table, d.workers[pid].limit, pick, d.now, fail);
        d.(table := table, workers := d.workers[pid := w])
      case Remove(pid, removed) =>
        var w := d.workers[pid];
        var id := w.batch[0].id;
        d.(workers := d.workers[pid := RemoveStep(w.batch, w.at, removed, maximum)],
           tries := if id < |d.tries| then d.tries[id := d.tries[id] + [w.at]] else d.tries,
           gone := if removed then d.gone + {id} else d.gone)
      case Complete(pid, fail) =>
        var w := d.workers[pid];
        var (table, v) := CompleteStep(d.table, w.done, w.rest, w.at, fail);
        d.(table := table, workers := d.workers[pid := v])
      case Wait(elapsed) => d.(now := d.now + elapsed)
  }

  function Run(events: seq<Event>, maximum: int): Desk
    decreases |events|
  {
    if |events| == 0 then Desk([], [], [], {}, 0)
    else Next(Run(events[..|events| - 1], maximum), events[|events| - 1], maximum)
  }

  // The number of times a file may be tried: the first failure of a maximum below one abandons it.
  function Budget(maximum: int): (n: nat)
    ensures n >= 1 && n >= maximum
  {
    if maximum <= 1 then 1 else maximum
  }

  // ---- The invariant ----

  // Two numbers stand for a claim: its worker and its place in the worker's hand.
  ghost predicate Holds(d: Desk, pid: nat, i: nat, id: nat) {
    pid < |d.workers| && i < |InHand(d.workers[pid])| && InHand(d.workers[pid])[i].id == id
  }

  ghost predicate Held(d: Desk, id: nat) {
    exists pid, i :: Holds(d, pid, i, id)
  }

  // Successive passes over a record lie at least one, two, three, ... minutes apart.
  ghost predicate Spaced(tries: seq<nat>) {
    forall k :: 1 <= k < |tries| ==> tries[k] >= tries[k - 1] + k * MINUTE
  }

  // Time at does not come too early for the next try.
  ghost predicate Late(tries: seq<nat>, at: nat) {
    |tries| > 0 ==> at >= tries[|tries| - 1] + |tries| * MINUTE
  }

  // Time at is when the next try falls due.
  ghost predicate Exact(tries: seq<nat>, at: nat) {
    |tries| > 0 ==> at == tries[|tries| - 1] + |tries| * MINUTE
  }

  ghost predicate RecordOk(r: Record, tries: seq<nat>, gone: bool, maximum: int) {
    && Spaced(tries)
    && |tries| <= Budget(maximum)
    && match r.state
       case Pending => |tries| == r.attempts && r.attempts < Budget(maximum) && Exact(tries, r.nextAt) && !gone
       case Running => r.attempts < Budget(maximum) && r.attempts <= |tries| <= r.attempts + 1
       case Succeeded => gone && |tries| == r.attempts + 1
       case Abandoned => |tries| == r.attempts == Budget(maximum) && !gone
  }

  // A claim waiting in a batch: the copy is that of the record when it was pending.
  ghost predicate WaitingOk(d: Desk, c: Claim, at: nat) {
    && c.id < |d.table| && c.id < |d.tries|
    && d.table[c.id] == c.record.(state := Running) && c.record.state == Pending
    && |d.tries[c.id]| == c.record.attempts && c.id !in d.gone
    && Late(d.tries[c.id], at)
  }

  // A claim about to be completed: its Remove call has been made.
  ghost predicate TriedOk(d: Desk, c: Claim, at: nat, maximum: int) {
    && c.id < |d.table| && c.id < |d.tries|
    && d.table[c.id].state == Running
    && |d.tries[c.id]| == d.table[c.id].attempts + 1
    && d.tries[c.id][|d.tries[c.id]| - 1] == at
    && c.record == Attempted(d.table[c.id].(state := Pending), c.id in d.gone, at, maximum)
  }

  ghost predicate WorkerOk(d: Desk, w: Worker, maximum: int) {
    match w
    case Removing(batch, at) => forall i :: 0 <= i < |batch| ==> WaitingOk(d, batch[i], at)
    case Completing(done, rest, at) =>
      TriedOk(d, done, at, maximum) && forall i :: 0 <= i < |rest| ==> WaitingOk(d, rest[i], at)
    case _ => true
  }

  ghost predicate OneHolder(d: Desk) {
    forall p, i, q, j, id :: Holds(d, p, i, id) && Holds(d, q, j, id) ==> p == q && i == j
  }

  ghost predicate Inv(d: Desk, maximum: int) {
    && |d.table| == |d.tries| && (forall id :: id in d.gone ==> id < |d.table|)
    && (forall id :: 0 <= id < |d.table| ==> RecordOk(d.table[id], d.tries[id], id in d.gone, maximum))
    && (forall pid :: 0 <= pid < |d.workers| ==> WorkerOk(d, d.workers[pid], maximum))
    && OneHolder(d)
  }

  // ---- Every event keeps it ----

  // Nothing changes for the records that this worker holds.
  ghost predicate SameFor(d: Desk, e: Desk, w: Worker) {
    && |d.table| == |d.tries| && |e.table| == |e.tries| && |d.table| <= |e.table|
    && forall i :: 0 <= i < |InHand(w)| ==>
         var id := InHand(w)[i].id;
         id < |d.table| ==> e.table[id] == d.table[id] && e.tries[id] == d.tries[id] && (id in e.gone <==> id in d.gone)
  }

  lemma WorkerUnaffected(d: Desk, e: Desk, w: Worker, maximum: int)
    requires WorkerOk(d, w, maximum) && SameFor(d, e, w)
    ensures WorkerOk(e, w, maximum)
  {
    match w
    case Removing(batch, at) =>
      forall i | 0 <= i < |batch| ensures WaitingOk(e, batch[i], at) {
        assert WaitingOk(d, batch[i], at) && InHand(w)[i] == batch[i];
      }
    case Completing(done, rest, at) =>
      assert InHand(w)[0] == done;
      forall i | 0 <= i < |rest| ensures WaitingOk(e, rest[i], at) {
        assert WaitingOk(d, rest[i], at) && InHand(w)[i + 1] == rest[i];
      }
    case _ =>
  }

  lemma HeldIsRunning(d: Desk, pid: nat, i: nat, maximum: int)
    requires pid < |d.workers| && WorkerOk(d, d.workers[pid], maximum) && i < |InHand(d.workers[pid])|
    ensures var id := InHand(d.workers[pid])[i].id; id < |d.table| && d.table[id].state == Running
  {
    match d.workers[pid]
    case Removing(batch, at) => assert WaitingOk(d, batch[i], at);
    case Completing(done, rest, at) => assert i > 0 ==> WaitingOk(d, rest[i - 1], at);
    case _ =>
  }

  lemma PullOk(d: Desk, pid: nat, pick: seq<nat>, fail: bool, maximum: int)
    requires Inv(d, maximum) && Stands(d, Pull(pid, pick, fail))
    ensures Inv(Next(d, Pull(pid, pick, fail), maximum), maximum)
  {
    var e := Next(d, Pull(pid, pick, fail), maximum);
    forall q | 0 <= q < |d.workers| && q != pid ensures WorkerOk(e, e.workers[q], maximum) {
      forall i | 0 <= i < |InHand(d.workers[q])|
        ensures var id := InHand(d.workers[q])[i].id; e.table[id] == d.table[id]
      {
        HeldIsRunning(d, q, i, maximum);
      }
      WorkerUnaffected(d, e, d.workers[q], maximum);
    }
    assert WorkerOk(e, e.workers[pid], maximum);
    PullHolds(d, pid, pick, fail, maximum);
  }

  // A worker changes its hand to records that no other worker holds.
  lemma HandsStayApart(d: Desk, e: Desk, pid: nat)
    requires OneHolder(d) && pid < |d.workers| && |e.workers| == |d.workers|
    requires forall q, j, id :: q != pid && Holds(e, q, j, id) ==> Holds(d, q, j, id)
    requires forall i, j, id :: Holds(e, pid, i, id) && Holds(e, pid, j, id) ==> i == j
    requires forall i, q, j, id :: q != pid && Holds(e, pid, i, id) ==> !Holds(d, q, j, id)
    ensures OneHolder(e)
  {
  }

  lemma PullHolds(d: Desk, pid: nat, pick: seq<nat>, fail: bool, maximum: int)
    requires Inv(d, maximum) && Stands(d, Pull(pid, pick, fail))
    ensures OneHolder(Next(d, Pull(pid, pick, fail), maximum))
  {
    var e := Next(d, Pull(pid, pick, fail), maximum);
    forall i: nat, q: nat, j: nat, id: nat | q != pid && Holds(e, pid, i, id) ensures !Holds(d, q, j, id) {
      assert Due(d.table[id], d.now);
      if Holds(d, q, j, id) { HeldIsRunning(d, q, j, maximum); }
    }
    HandsStayApart(d, e, pid);
  }

  lemma RemoveHolds(d: Desk, pid: nat, removed: bool, maximum: int)
    requires OneHolder(d) && Stands(d, Remove(pid, removed))
    ensures OneHolder(Next(d, Remove(pid, removed), maximum))
  {
    var e := Next(d, Remove(pid, removed), maximum);
    forall i: nat, id: nat | Holds(e, pid, i, id) ensures Holds(d, pid, i, id) {
      assert i > 0 ==> InHand(e.workers[pid])[i] == d.workers[pid].batch[i];
    }
    HandsStayApart(d, e, pid);
  }

  lemma CompleteHolds(d: Desk, pid: nat, fail: bool, maximum: int)
    requires OneHolder(d) && Stands(d, Complete(pid, fail))
    ensures OneHolder(Next(d, Complete(pid, fail), maximum))
    ensures forall i: nat, id: nat :: Holds(Next(d, Complete(pid, fail), maximum), pid, i, id) ==>
            Holds(d, pid, i + 1, id)
  {
    var e := Next(d, Complete(pid, fail), maximum);
    forall i: nat, id: nat | Holds(e, pid, i, id) ensures Holds(d, pid, i + 1, id) {
      assert InHand(e.workers[pid])[i] == InHand(d.workers[pid])[i + 1];
    }
    HandsStayApart(d, e, pid);
  }

  // Another worker's records are not those of this one.
  lemma OthersUnaffected(d: Desk, e: Desk, pid: nat, id: nat, q: nat, maximum: int)
    requires Inv(d, maximum) && q != pid && q < |d.workers| && Holds(d, pid, 0, id)
    requires |e.table| == |e.tries| == |d.table|
    requires forall x :: 0 <= x < |d.table| && x != id ==>
               e.table[x] == d.table[x] && e.tries[x] == d.tries[x] && (x in e.gone <==> x in d.gone)
    ensures WorkerOk(e, d.workers[q], maximum)
  {
    forall i | 0 <= i < |InHand(d.workers[q])| ensures InHand(d.workers[q])[i].id != id {
      assert Holds(d, q, i, InHand(d.workers[q])[i].id);
    }
    WorkerUnaffected(d, e, d.workers[q], maximum);
  }

  lemma RemoveOk(d: Desk, pid: nat, removed: bool, maximum: int)
    requires Inv(d, maximum) && Stands(d, Remove(pid, removed))
    ensures Inv(Next(d, Remove(pid, removed), maximum), maximum)
  {
    var e := Next(d, Remove(pid, removed), maximum);
    var w := d.workers[pid];
    var id := w.batch[0].id;
    assert WaitingOk(d, w.batch[0], w.at);
    assert Holds(d, pid, 0, id);
    forall q | 0 <= q < |d.workers| && q != pid ensures WorkerOk(e, e.workers[q], maximum) {
      OthersUnaffected(d, e, pid, id, q, maximum);
    }
    forall i | 1 <= i < |w.batch| ensures WaitingOk(e, w.batch[i], w.at) {
      assert WaitingOk(d, w.batch[i], w.at) && Holds(d, pid, i, w.batch[i].id);
    }
    assert e.table[id].(state := RecordState.Pending) == w.batch[0].record;
    assert TriedOk(e, e.workers[pid].done, w.at, maximum);
    assert RecordOk(e.table[id], e.tries[id], id in e.gone, maximum);
    RemoveHolds(d, pid, removed, maximum);
  }

  lemma CompleteOk(d: Desk, pid: nat, fail: bool, maximum: int)
    requires Inv(d, maximum) && Stands(d, Complete(pid, fail))
    ensures Inv(Next(d, Complete(pid, fail), maximum), maximum)
  {
    var e := Next(d, Complete(pid, fail), maximum);
    var w := d.workers[pid];
    var id := w.done.id;
    assert TriedOk(d, w.done, w.at, maximum);
    assert Holds(d, pid, 0, id);
    forall q | 0 <= q < |d.workers| && q != pid ensures WorkerOk(e, e.workers[q], maximum) {
      OthersUnaffected(d, e, pid, id, q, maximum);
    }
    forall i | 0 <= i < |w.rest| ensures w.rest[i].id != id && WaitingOk(d, w.rest[i], w.at) {
      assert Holds(d, pid, i + 1, w.rest[i].id);
    }
    assert RecordOk(e.table[id], e.tries[id], id in e.gone, maximum);
    CompleteHolds(d, pid, fail, maximum);
  }

  lemma OtherOk(d: Desk, event: Event, maximum: int)
    requires Inv(d, maximum) && (event.Enqueue? || event.Start? || event.Wait?)
    ensures Inv(Next(d, event, maximum), maximum)
  {
    var e := Next(d, event, maximum);
    forall q | 0 <= q < |d.workers| ensures WorkerOk(e, d.workers[q], maximum) {
      WorkerUnaffected(d, e, d.workers[q], maximum);
    }
    forall p, i, id | Holds(e, p, i, id) ensures Holds(d, p, i, id) {}
  }

  lemma NextOk(d: Desk, event: Event, maximum: int)
    requires Inv(d, maximum)
    ensures Inv(Next(d, event, maximum), maximum)
  {
    if Stands(d, event) {
      match event
      case Pull(pid, pick, fail) => PullOk(d, pid, pick, fail, maximum);
      case Remove(pid, removed) => RemoveOk(d, pid, removed, maximum);
      case Complete(pid, fail) => CompleteOk(d, pid, fail, maximum);
      case _ => OtherOk(d, event, maximum);
    }
  }

  lemma {:induction false} RunOk(events: seq<Event>, maximum: int)
    ensures Inv(Run(events, maximum), maximum)
    decreases |events|
  {
    if |events| > 0 {
      RunOk(events[..|events| - 1], maximum);
      NextOk(Run(events[..|events| - 1], maximum), events[|events| - 1], maximum);
    }
  }

  // ---- Who holds a record ----

  // Each running record is in the hands of at most one worker, once, and only running
  // records are in anyone's hands.
  lemma RunningRecordsHaveOneHolder(events: seq<Event>, maximum: int, p: nat, i: nat, q: nat, j: nat, id: nat)
    requires Holds(Run(events, maximum), p, i, id)
    ensures id < |Run(events, maximum).table| && Run(events, maximum).table[id].state == RecordState.Running
    ensures Holds(Run(events, maximum), q, j, id) ==> p == q && i == j
  {
    RunOk(events, maximum);
    HeldIsRunning(Run(events, maximum), p, i, maximum);
  }

  // ---- How often and how soon ----

  // 1 + 2 + ... + k.
  function Triangle(k: nat): nat {
    if k == 0 then 0 else Triangle(k - 1) + k
  }

  lemma {:induction false} TriangleIsHalf(k: nat)
    ensures 2 * Triangle(k) == k * (k + 1)
    decreases k
  {
    if k > 0 { TriangleIsHalf(k - 1); }
  }

  lemma {:induction false} SpacedGrows(tries: seq<nat>, k: nat)
    requires Spaced(tries) && k < |tries|
    ensures tries[k] >= tries[0] + Triangle(k) * MINUTE
    decreases k
  {
    if k > 0 {
      SpacedGrows(tries, k - 1);
      assert Triangle(k) == Triangle(k - 1) + k;
    }
  }

  // A file is tried at most Budget times; the pass that makes its k-th try (counting
  // from 0) starts at least 1 + 2 + ... + k minutes after the one that made the first;
  // a pending record has tries left, an abandoned one has used them all.
  lemma TriesAreBounded(events: seq<Event>, maximum: int, id: nat, k: nat)
    requires id < |Run(events, maximum).table|
    ensures var d := Run(events, maximum);
            && id < |d.tries| && |d.tries[id]| <= Budget(maximum)
            && (k < |d.tries[id]| ==> d.tries[id][k] >= d.tries[id][0] + Triangle(k) * MINUTE)
            && (d.table[id].state.Pending? ==> d.table[id].attempts == |d.tries[id]| < Budget(maximum))
            && (d.table[id].state.Abandoned? ==> |d.tries[id]| == Budget(maximum))
  {
    RunOk(events, maximum);
    var d := Run(events, maximum);
    assert RecordOk(d.table[id], d.tries[id], id in d.gone, maximum);
    if k < |d.tries[id]| { SpacedGrows(d.tries[id], k); }
  }

  // ---- When a file is tried again ----

  // A record's state and times are told by its tries: a pending one has failed each of
  // them and falls due as many minutes after the last as there were, a succeeded one was
  // removed by the last, an abandoned one has failed as often as is allowed.
  lemma RecordsTellTheirTries(events: seq<Event>, maximum: int, id: nat)
    requires id < |Run(events, maximum).table|
    ensures var d := Run(events, maximum);
            && id < |d.tries|
            && var r, tries := d.table[id], d.tries[id];
               var n := |tries|;
               match r.state
               case Pending => id !in d.gone && r.attempts == n && (n == 0 || n < maximum)
                               && (n > 0 ==> r.nextAt == tries[n - 1] + n * 60_000_000)
               case Running => r.attempts <= n <= r.attempts + 1
               case Succeeded => id in d.gone && r.attempts + 1 == n
               case Abandoned => id !in d.gone && r.attempts == n && n >= maximum && (n == 1 || n == maximum)
  {
    RunOk(events, maximum);
  }

  // A claim by a pass for some of the pending records whose time has come takes exactly
  // these, and stamps the pass with the present time.
  lemma PulledExactly(d: Desk, pid: nat, pick: seq<nat>, maximum: int)
    requires pid < |d.workers| && d.workers[pid].Claiming? && 0 < |pick| <= d.workers[pid].limit
    requires forall i :: 0 <= i < |pick| ==> pick[i] < |d.table|
    requires forall i :: 0 <= i < |pick| ==> d.table[pick[i]].state == Pending && d.table[pick[i]].nextAt <= d.now
    requires forall i, j :: 0 <= i < j < |pick| ==> pick[i] != pick[j]
    ensures var e := Next(d, Pull(pid, pick, false), maximum);
            && |e.table| == |d.table|
            && (forall id :: 0 <= id < |d.table| ==>
                  e.table[id] == if id in pick then d.table[id].(state := Running) else d.table[id])
            && e.workers[pid].Removing? && e.workers[pid].at == d.now && |e.workers[pid].batch| == |pick|
            && forall i :: 0 <= i < |pick| ==> e.workers[pid].batch[i] == Claim(pick[i], d.table[pick[i]])
  {
    assert ValidPick(d.table, pick, d.now, d.workers[pid].limit);
  }

  predicate Takes(d: Desk, pid: nat, pick: seq<nat>, id: nat, maximum: int) {
    var e := Next(d, Pull(pid, pick, false), maximum);
    id < |e.table| && e.table[id].state.Running?
  }

  // A claim can take a record that failed before exactly from the time on that lies as
  // many minutes after its last try as it has had tries.
  lemma TakenExactly(events: seq<Event>, maximum: int, pid: nat, id: nat)
    requires var d := Run(events, maximum);
             && id < |d.table| && d.table[id].state.Pending? && id < |d.tries| && |d.tries[id]| > 0
             && pid < |d.workers| && d.workers[pid].Claiming? && d.workers[pid].limit > 0
    ensures var d := Run(events, maximum);
            var n := |d.tries[id]|;
            (exists pick :: Takes(d, pid, pick, id, maximum)) <==> d.now >= d.tries[id][n - 1] + n * 60_000_000
  {
    var d := Run(events, maximum);
    RecordsTellTheirTries(events, maximum, id);
    if d.now >= d.table[id].nextAt {
      PulledExactly(d, pid, [id], maximum);
      assert id in [id];
      assert Takes(d, pid, [id], id, maximum);
    }
  }

  // A completion stores what the try has brought.
  lemma CompletedExactly(d: Desk, maximum: int, pid: nat)
    requires Inv(d, maximum) && Stands(d, Complete(pid, false))
    ensures var id := d.workers[pid].done.id;
            && id < |d.table| && id < |d.tries| && |d.tries[id]| > 0
            && var r, n := d.table[id], |d.tries[id]|;
               Next(d, Complete(pid, false), maximum).table
               == d.table[id := if id in d.gone then r.(state := Succeeded)
                                else if n >= maximum then r.(state := Abandoned, attempts := n)
                                else r.(state := RecordState.Pending, attempts := n,
                                        nextAt := d.tries[id][n - 1] + n * 60_000_000)]
  {
    assert TriedOk(d, d.workers[pid].done, d.workers[pid].at, maximum);
  }

  // ---- The bound is reached ----

  // Pass number n fails to remove the only file, and then the time of the next one comes.
  function Passes(key: Key, n: nat): seq<Event> {
    if n == 0 then [Enqueue(key, 0)]
    else Passes(key, n - 1) + [Start(1), Pull(n - 1, [0], false), Remove(n - 1, false), Complete(n - 1, false),
                               Wait(n * 60_000_000)]
  }

  lemma RunOfMore(events: seq<Event>, e: Event, maximum: int)
    ensures Run(events + [e], maximum) == Next(Run(events, maximum), e, maximum)
  {
    assert (events + [e])[..|events|] == events;
  }

  lemma RunOfThree(events: seq<Event>, a: Event, b: Event, c: Event, maximum: int)
    ensures Run(events + [a, b, c], maximum)
            == Next(Next(Next(Run(events, maximum), a, maximum), b, maximum), c, maximum)
  {
    RunOfMore(events, a, maximum);
    RunOfMore(events + [a], b, maximum);
    RunOfMore(events + [a] + [b], c, maximum);
    assert events + [a, b, c] == events + [a] + [b] + [c];
  }

  lemma RunOfFive(events: seq<Event>, a: Event, b: Event, c: Event, e: Event, f: Event, maximum: int)
    ensures Run(events + [a, b, c, e, f], maximum)
            == Next(Next(Next(Next(Next(Run(events, maximum), a, maximum), b, maximum), c, maximum), e, maximum),
                    f, maximum)
  {
    RunOfThree(events, a, b, c, maximum);
    RunOfMore(events + [a, b, c], e, maximum);
    RunOfMore(events + [a, b, c] + [e], f, maximum);
    assert events + [a, b, c, e, f] == events + [a, b, c] + [e] + [f];
  }

  // The desk after n failed passes, each as early as it may be.
  ghost predicate Patient(d: Desk, key: Key, n: nat) {
    && d.table == [Record(key, RecordState.Pending, n, Triangle(n) * 60_000_000)]
    && |d.workers| == n && d.now == Triangle(n) * 60_000_000
    && |d.tries| == 1 && |d.tries[0]| == n && d.gone == {}
    && forall k :: 0 <= k < n ==> d.tries[0][k] == Triangle(k) * 60_000_000
  }

  // A pass that claims the file and fails to remove it.
  ghost predicate Tried(d: Desk, key: Key, n: nat) {
    && d.table == [Record(key, Running, n, Triangle(n) * 60_000_000)]
    && |d.workers| == n + 1 && d.now == Triangle(n) * 60_000_000
    && d.workers[n].Completing? && d.workers[n].done.id == 0
    && |d.tries| == 1 && |d.tries[0]| == n + 1 && d.gone == {}
    && forall k :: 0 <= k <= n ==> d.tries[0][k] == Triangle(k) * 60_000_000
  }

  lemma TriedAgain(d: Desk, key: Key, n: nat, maximum: int)
    requires Patient(d, key, n)
    ensures var e := Next(Next(d, Start(1), maximum), Pull(n, [0], false), maximum);
            Tried(Next(e, Remove(n, false), maximum), key, n)
  {
    var started := Next(d, Start(1), maximum);
    PulledExactly(started, n, [0], maximum);
    var e := Next(started, Pull(n, [0], false), maximum);
    assert 0 in [0];
    assert e.workers[n].batch[0].id == 0;
  }

  lemma StoredAgain(d: Desk, key: Key, n: nat, maximum: int)
    requires Inv(d, maximum) && Tried(d, key, n) && n + 1 < maximum
    ensures Patient(Next(Next(d, Complete(n, false), maximum), Wait((n + 1) * 60_000_000), maximum), key, n + 1)
  {
    CompletedExactly(d, maximum, n);
  }

  lemma {:induction false} PassesFail(key: Key, n: nat, maximum: int)
    requires n == 0 || n < maximum
    ensures Patient(Run(Passes(key, n), maximum), key, n) && Inv(Run(Passes(key, n), maximum), maximum)
  {
    RunOk(Passes(key, n), maximum);
    if n == 0 {
      RunOfMore([], Enqueue(key, 0), maximum);
      assert [] + [Enqueue(key, 0)] == [Enqueue(key, 0)];
    } else {
      var m := n - 1;
      PassesFail(key, m, maximum);
      TriedOnce(Run(Passes(key, m), maximum), key, m, maximum);
      RunOfFive(Passes(key, m), Start(1), Pull(m, [0], false), Remove(m, false), Complete(m, false),
                Wait(n * 60_000_000), maximum);
    }
  }

  lemma TriedOnce(d: Desk, key: Key, n: nat, maximum: int)
    requires Inv(d, maximum) && Patient(d, key, n) && n + 1 < maximum
    ensures var e := Next(Next(Next(d, Start(1), maximum), Pull(n, [0], false), maximum), Remove(n, false), maximum);
            Patient(Next(Next(e, Complete(n, false), maximum), Wait((n + 1) * 60_000_000), maximum), key, n + 1)
  {
    var started := Next(d, Start(1), maximum);
    var pulled := Next(started, Pull(n, [0], false), maximum);
    NextOk(d, Start(1), maximum);
    NextOk(started, Pull(n, [0], false), maximum);
    NextOk(pulled, Remove(n, false), maximum);
    TriedAgain(d, key, n, maximum);
    StoredAgain(Next(pulled, Remove(n, false), maximum), key, n, maximum);
  }

  ghost predicate Attains(d: Desk, k: nat) {
    |d.tries| == 1 && |d.tries[0]| == k + 1 && d.tries[0][k] == d.tries[0][0] + Triangle(k) * 60_000_000
  }

  lemma TriedAttains(d: Desk, key: Key, k: nat)
    requires Tried(d, key, k)
    ensures Attains(d, k)
  {
  }

  // The least time to the k-th try is attained, up to the last try that is allowed.
  lemma TriangleIsReached(maximum: int, k: nat)
    requires k == 0 || k < maximum
    ensures exists events :: Attains(Run(events, maximum), k)
  {
    var key := Key(Quarantine, 0);
    PassesFail(key, k, maximum);
    var passes := Passes(key, k);
    RunOfThree(passes, Start(1), Pull(k, [0], false), Remove(k, false), maximum);
    TriedAgain(Run(passes, maximum), key, k, maximum);
    TriedAttains(Run(passes + [Start(1), Pull(k, [0], false), Remove(k, false)], maximum), key, k);
  }

  // ---- The queue drains ----

  function Unspent(r: Record, maximum: int): nat {
    if (r.state.Pending? || r.state.Running?) && r.attempts < Budget(maximum) then Budget(maximum) - r.attempts else 0
  }

  function Remaining(table: seq<Record>, maximum: int): nat {
    if |table| == 0 then 0 else Remaining(table[..|table| - 1], maximum) + Unspent(table[|table| - 1], maximum)
  }

  lemma {:induction false} RemainingOfUpdate(table: seq<Record>, id: nat, r: Record, maximum: int)
    requires id < |table|
    ensures Remaining(table[id := r], maximum) + Unspent(table[id], maximum)
            == Remaining(table, maximum) + Unspent(r, maximum)
    decreases |table|
  {
    var last := |table| - 1;
    if id == last {
      assert table[id := r][..last] == table[..last];
    } else {
      assert table[id := r][..last] == table[..last][id := r];
      RemainingOfUpdate(table[..last], id, r, maximum);
    }
  }

  lemma {:induction false} RemainingOfPull(table: seq<Record>, pick: seq<nat>, maximum: int)
    requires forall id :: 0 <= id < |table| && id in pick ==> table[id].state.Pending?
    ensures Remaining(MarkRunning(table, pick), maximum) == Remaining(table, maximum)
    decreases |table|
  {
    if |table| > 0 {
      var last := |table| - 1;
      assert MarkRunning(table, pick)[..last] == MarkRunning(table[..last], pick);
      RemainingOfPull(table[..last], pick, maximum);
    }
  }

  predicate Completes(d: Desk, e: Event) {
    e.Complete? && !e.fail && Stands(d, e)
  }

  // Only completions use up the remaining tries, and each uses at least one.
  lemma RemainingFalls(d: Desk, e: Event, maximum: int)
    requires Inv(d, maximum) && !e.Enqueue?
    ensures var t := Next(d, e, maximum);
            if Completes(d, e) then Remaining(t.table, maximum) < Remaining(d.table, maximum)
            else Remaining(t.table, maximum) == Remaining(d.table, maximum)
  {
    if Completes(d, e) {
      var w := d.workers[e.pid];
      assert TriedOk(d, w.done, w.at, maximum)
          && RecordOk(d.table[w.done.id], d.tries[w.done.id], w.done.id in d.gone, maximum);
      var r := w.done.record;
      var stored := d.table[w.done.id].(state := r.state, attempts := r.attempts, nextAt := r.nextAt);
      RemainingOfUpdate(d.table, w.done.id, stored, maximum);
    } else if e.Pull? && Stands(d, e) && !e.fail {
      var limit := d.workers[e.pid].limit;
      RemainingOfPull(d.table, if ValidPick(d.table, e.pick, d.now, limit) then e.pick else [], maximum);
    }
  }

  function Completions(events: seq<Event>, maximum: int): nat
    decreases |events|
  {
    if |events| == 0 then 0
    else
      var init, last := events[..|events| - 1], events[|events| - 1];
      Completions(init, maximum) + if Completes(Run(init, maximum), last) then 1 else 0
  }

  lemma EnqueueAdds(table: seq<Record>, key: Key, at: nat, maximum: int)
    ensures var longer := table + [NewRecord(key, at)];
            && Remaining(longer, maximum) == Remaining(table, maximum) + Budget(maximum)
            && Budget(maximum) * |longer| == Budget(maximum) * |table| + Budget(maximum)
  {
    assert (table + [NewRecord(key, at)])[..|table|] == table;
  }

  // However the passes interleave, no more than Budget completions happen for each
  // record ever queued.
  lemma {:induction false} CompletionsAreBounded(events: seq<Event>, maximum: int)
    ensures var d := Run(events, maximum);
            Completions(events, maximum) + Remaining(d.table, maximum) <= Budget(maximum) * |d.table|
    decreases |events|
  {
    if |events| > 0 {
      var init, last := events[..|events| - 1], events[|events| - 1];
      CompletionsAreBounded(init, maximum);
      RunOk(init, maximum);
      var d := Run(init, maximum);
      if last.Enqueue? {
        EnqueueAdds(d.table, last.key, last.nextAt, maximum);
      } else {
        RemainingFalls(d, last, maximum);
      }
    }
  }

  // ---- Records nobody will finish ----

  ghost predicate Stuck(d: Desk, id: nat) {
    id < |d.table| && d.table[id].state.Running? && !Held(d, id)
  }

  // A running record that no worker holds stays so for good: its file is never tried again.
  lemma StuckStays(d: Desk, e: Event, maximum: int, id: nat)
    requires Inv(d, maximum) && Stuck(d, id)
    ensures var t := Next(d, e, maximum);
            Stuck(t, id) && t.table[id] == d.table[id] && t.tries[id] == d.tries[id]
  {
    var t := Next(d, e, maximum);
    if Stands(d, e) {
      assert e.Remove? ==> Holds(d, e.pid, 0, d.workers[e.pid].batch[0].id);
      assert e.Complete? ==> Holds(d, e.pid, 0, d.workers[e.pid].done.id);
    }
    forall pid: nat, i: nat ensures !Holds(t, pid, i, id) {
      if Holds(t, pid, i, id) { HandComesFrom(d, e, maximum, pid, i, id); }
    }
  }

  // And so through any later run.
  lemma {:induction false} StuckForGood(events: seq<Event>, more: seq<Event>, maximum: int, id: nat)
    requires Stuck(Run(events, maximum), id)
    ensures var d, t := Run(events, maximum), Run(events + more, maximum);
            && Stuck(t, id) && id < |d.table| && id < |d.tries| && id < |t.tries|
            && t.table[id] == d.table[id] && t.tries[id] == d.tries[id]
    decreases |more|
  {
    RunOk(events, maximum);
    if |more| == 0 {
      assert events + more == events;
    } else {
      var init, last := more[..|more| - 1], more[|more| - 1];
      StuckForGood(events, init, maximum, id);
      assert (events + more)[..|events + more| - 1] == events + init;
      RunOk(events + init, maximum);
      StuckStays(Run(events + init, maximum), last, maximum, id);
    }
  }

  // What a worker holds it held before, unless it has just claimed it.
  lemma HandComesFrom(d: Desk, e: Event, maximum: int, pid: nat, i: nat, id: nat)
    requires Holds(Next(d, e, maximum), pid, i, id)
    ensures Held(d, id) || (id < |d.table| && d.table[id].state.Pending?)
  {
    if Stands(d, e) && (e.Remove? || e.Complete?) && pid == e.pid {
      var w := d.workers[pid];
      if e.Remove? {
        assert i > 0 ==> InHand(Next(d, e, maximum).workers[pid])[i] == w.batch[i];
        assert Holds(d, pid, i, id);
      } else {
        assert InHand(Next(d, e, maximum).workers[pid])[i] == InHand(w)[i + 1];
        assert Holds(d, pid, i + 1, id);
      }
    } else if Stands(d, e) && e.Pull? && pid == e.pid {
      assert Due(d.table[id], d.now);
    } else {
      assert Holds(d, pid, i, id);
    }
  }

  // A held record stays with its worker until its completion.
  lemma StaysHeld(d: Desk, e: Event, maximum: int, p: nat, i: nat, id: nat)
    requires Inv(d, maximum) && Holds(d, p, i, id) && id < |d.table|
    requires !(e.Complete? && e.fail && e.pid == p && Stands(d, e))
    ensures var t := Next(d, e, maximum); Held(t, id) || !t.table[id].state.Running?
  {
    var t := Next(d, e, maximum);
    if !Stands(d, e) || !(e.Pull? || e.Remove? || e.Complete?) || e.pid != p {
      assert Holds(t, p, i, id);
    } else if e.Remove? {
      assert InHand(t.workers[p])[i].id == id;
      assert Holds(t, p, i, id);
    } else if i > 0 {
      assert InHand(t.workers[p])[i - 1] == InHand(d.workers[p])[i];
      assert Holds(t, p, i - 1, id);
    } else {
      assert TriedOk(d, d.workers[p].done, d.workers[p].at, maximum);
    }
  }

  lemma PulledIsHeld(d: Desk, e: Event, maximum: int, id: nat)
    requires Inv(d, maximum) && id < |d.table| && !d.table[id].state.Running?
    ensures var t := Next(d, e, maximum); t.table[id].state.Running? ==> Held(t, id)
  {
    var t := Next(d, e, maximum);
    if Stands(d, e) && e.Complete? {
      assert Holds(d, e.pid, 0, d.workers[e.pid].done.id);
      HeldIsRunning(d, e.pid, 0, maximum);
    } else if t.table[id].state.Running? {
      var i :| 0 <= i < |e.pick| && e.pick[i] == id;
      assert Holds(t, e.pid, i, id);
    }
  }

  // Records get stuck exactly when a completion fails: the one it was for and all the
  // pass had still to do.
  lemma StuckExactly(d: Desk, e: Event, maximum: int, id: nat)
    requires Inv(d, maximum) && id < |d.table| && !Stuck(d, id)
    ensures Stuck(Next(d, e, maximum), id) <==>
            e.Complete? && e.fail && Stands(d, e) && exists i :: Holds(d, e.pid, i, id)
  {
    var t := Next(d, e, maximum);
    if e.Complete? && e.fail && Stands(d, e) && exists i :: Holds(d, e.pid, i, id) {
      var i :| Holds(d, e.pid, i, id);
      HeldIsRunning(d, e.pid, i, maximum);
      forall p: nat, j: nat ensures !Holds(t, p, j, id) {
        assert p != e.pid ==> (Holds(t, p, j, id) ==> Holds(d, p, j, id));
      }
    } else if !d.table[id].state.Running? {
      PulledIsHeld(d, e, maximum, id);
    } else {
      var p, i :| Holds(d, p, i, id);
      StaysHeld(d, e, maximum, p, i, id);
    }
  }
}
