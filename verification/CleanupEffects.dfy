// What a whole cleanup pass makes of the queue and the files, whichever of its calls fail.
module CleanupEffects {
  import opened Prelude
  import opened CleanupQueue
  import opened ScreenshotModel
  import opened SagaSerial
  import opened ScreenshotUseCases
  import opened OperationEffects

  // Removing the file of record number i of a pass, and storing what came of it.
  predicate RemovalWorks(script: seq<Choice>, i: nat) { Works(script, 2 * i) }

  predicate StoringWorks(script: seq<Choice>, i: nat) { Works(script, 2 * i + 1) }

  lemma {:induction false} CallsOfPass(script: seq<Choice>)
    ensures RemovalWorks(script, 0) == !Head(script).fail && StoringWorks(script, 0) == !Head(Tail(script)).fail
    ensures forall i: nat :: RemovalWorks(Tail(Tail(script)), i) == RemovalWorks(script, i + 1)
    ensures forall i: nat :: StoringWorks(Tail(Tail(script)), i) == StoringWorks(script, i + 1)
  {
  }

  // A record whose file is gone is done with; one whose removal failed for the n-th time
  // is given up, or due again n minutes after the pass began.
  function Outcome(r: Record, gone: bool, at: nat, maximum: int): Record {
    var n := r.attempts + 1;
    if gone then Record(r.key, Succeeded, r.attempts, r.nextAt)
    else if n >= maximum then Record(r.key, Abandoned, n, r.nextAt)
    else Record(r.key, RecordState.Pending, n, at + n * 60_000_000)
  }

  function Pass(batch: seq<Claim>, at: nat, maximum: int): Proc {
    if |batch| == 0 then Done(true) else Cleaning(Removing(batch, at), maximum)
  }

  // The records of a batch are different and running, and handed out as they were before.
  predicate Claims(table: seq<Record>, batch: seq<Claim>) {
    && (forall i :: 0 <= i < |batch| ==>
          batch[i].id < |table| && batch[i].record == table[batch[i].id].(state := RecordState.Pending))
    && forall i, j :: 0 <= i < j < |batch| ==> batch[i].id != batch[j].id
  }

  // The files of the records whose removal works.
  function RemovedKeys(batch: seq<Claim>, script: seq<Choice>): set<Key> {
    set i | 0 <= i < |batch| && RemovalWorks(script, i) :: batch[i].record.key
  }

  function AfterOne(st: Stores, c: Claim, at: nat, maximum: int, gone: bool): Stores
    requires c.id < |st.cleanups|
  {
    st.(files := if gone then st.files - {c.record.key} else st.files,
    cleanups := st.cleanups[c.id := Outcome(c.record, gone, at, maximum)])
  }

  lemma {:induction false} Tries(st: Stores, batch: seq<Claim>, at: nat, maximum: int, script: seq<Choice>)
    requires |batch| > 0
    ensures var c, gone := batch[0], RemovalWorks(script, 0);
            Solo(st, Pass(batch, at, maximum), script)
            == Solo(if gone then st.(files := st.files - {c.record.key}) else st,
                    Cleaning(Completing(c.(record := Outcome(c.record, gone, at, maximum)), batch[1..], at), maximum),
                    Tail(script))
  {
    CallsOfPass(script);
    var p := Cleaning(Removing(batch, at), maximum);
    var (t, q) := Step(st, p, Head(script));
    Calling(st, p, script, t, q);
  }

  lemma {:induction false} Puts(st: Stores, c: Claim, rest: seq<Claim>, r: Record, at: nat, maximum: int,
                                script: seq<Choice>)
    requires c.id < |st.cleanups| && r.key == st.cleanups[c.id].key
    ensures var p := Cleaning(Completing(c.(record := r), rest, at), maximum);
            Solo(st, p, script)
            == if Head(script).fail then (st, Done(false))
               else Solo(st.(cleanups := st.cleanups[c.id := r]), Pass(rest, at, maximum), Tail(script))
  {
    var p := Cleaning(Completing(c.(record := r), rest, at), maximum);
    var (t, q) := Step(st, p, Head(script));
    Calling(st, p, script, t, q);
  }

  lemma {:induction false} PassesOne(st: Stores, batch: seq<Claim>, at: nat, maximum: int, script: seq<Choice>)
    requires |batch| > 0 && Claims(st.cleanups, batch)
    ensures !StoringWorks(script, 0) ==> Solo(st, Pass(batch, at, maximum), script).1 == Done(false)
    ensures StoringWorks(script, 0) ==>
              Solo(st, Pass(batch, at, maximum), script)
              == Solo(AfterOne(st, batch[0], at, maximum, RemovalWorks(script, 0)), Pass(batch[1..], at, maximum),
                      Tail(Tail(script)))
  {
    CallsOfPass(script);
    Tries(st, batch, at, maximum, script);
    var c, gone := batch[0], RemovalWorks(script, 0);
    var st1 := if gone then st.(files := st.files - {c.record.key}) else st;
    Puts(st1, c, batch[1..], Outcome(c.record, gone, at, maximum), at, maximum, Tail(script));
  }

  // What a pass makes of the stores: each claimed record has its outcome, the files that
  // could be removed are gone, and everything else is as before.
  predicate PassEffect(st: Stores, batch: seq<Claim>, at: nat, maximum: int, script: seq<Choice>, t: Stores) {
    && t == st.(files := st.files - RemovedKeys(batch, script), cleanups := t.cleanups)
    && |t.cleanups| == |st.cleanups|
    && (forall i :: 0 <= i < |batch| && batch[i].id < |t.cleanups| ==>
          t.cleanups[batch[i].id] == Outcome(batch[i].record, RemovalWorks(script, i), at, maximum))
    && forall id :: 0 <= id < |st.cleanups| && (forall i :: 0 <= i < |batch| ==> batch[i].id != id) ==>
         t.cleanups[id] == st.cleanups[id]
  }

  lemma {:induction false} PassExactly(st: Stores, batch: seq<Claim>, at: nat, maximum: int, script: seq<Choice>)
    requires Claims(st.cleanups, batch)
    ensures var (t, p) := Solo(st, Pass(batch, at, maximum), script);
            && p == Done(forall i :: 0 <= i < |batch| ==> StoringWorks(script, i))
            && (p == Done(true) ==> PassEffect(st, batch, at, maximum, script, t))
    decreases |batch|
  {
    if |batch| == 0 {
      assert RemovedKeys(batch, script) == {};
    } else {
      PassesOne(st, batch, at, maximum, script);
      if StoringWorks(script, 0) {
        var gone := RemovalWorks(script, 0);
        var st1 := AfterOne(st, batch[0], at, maximum, gone);
        PassExactly(st1, batch[1..], at, maximum, Tail(Tail(script)));
        CallsOfPass(script);
        var (t, p) := Solo(st, Pass(batch, at, maximum), script);
        assert p == Done(forall i :: 0 <= i < |batch| ==> StoringWorks(script, i)) by { StoringShifts(batch, script); }
        if p == Done(true) { OneMore(st, batch, at, maximum, script, t); }
      }
    }
  }

  lemma {:induction false} StoringShifts(batch: seq<Claim>, script: seq<Choice>)
    requires |batch| > 0 && StoringWorks(script, 0)
    ensures (forall i :: 0 <= i < |batch| ==> StoringWorks(script, i))
            <==> (forall i :: 0 <= i < |batch[1..]| ==> StoringWorks(Tail(Tail(script)), i))
  {
    CallsOfPass(script);
    if forall i :: 0 <= i < |batch[1..]| ==> StoringWorks(Tail(Tail(script)), i) {
      forall i | 0 <= i < |batch| ensures StoringWorks(script, i) {
        if i > 0 { assert StoringWorks(Tail(Tail(script)), i - 1); }
      }
    }
  }

  lemma {:induction false} RemovedShifts(batch: seq<Claim>, script: seq<Choice>)
    requires |batch| > 0
    ensures RemovedKeys(batch, script)
            == (if RemovalWorks(script, 0) then {batch[0].record.key} else {})
               + RemovedKeys(batch[1..], Tail(Tail(script)))
  {
    CallsOfPass(script);
    var rest := batch[1..];
    forall key | key in RemovedKeys(batch, script)
      ensures key in (if RemovalWorks(script, 0) then {batch[0].record.key} else {})
                     + RemovedKeys(rest, Tail(Tail(script)))
    {
      var i :| 0 <= i < |batch| && RemovalWorks(script, i) && batch[i].record.key == key;
      if i > 0 { assert rest[i - 1].record.key == key && RemovalWorks(Tail(Tail(script)), i - 1); }
    }
    forall key | key in RemovedKeys(rest, Tail(Tail(script))) ensures key in RemovedKeys(batch, script) {
      var i :| 0 <= i < |rest| && RemovalWorks(Tail(Tail(script)), i) && rest[i].record.key == key;
      assert batch[i + 1].record.key == key && RemovalWorks(script, i + 1);
    }
  }

  lemma {:induction false} OneMore(st: Stores, batch: seq<Claim>, at: nat, maximum: int, script: seq<Choice>, t: Stores)
    requires |batch| > 0 && Claims(st.cleanups, batch)
    requires PassEffect(AfterOne(st, batch[0], at, maximum, RemovalWorks(script, 0)), batch[1..], at, maximum,
                        Tail(Tail(script)), t)
    ensures PassEffect(st, batch, at, maximum, script, t)
  {
    CallsOfPass(script);
    RemovedShifts(batch, script);
    var rest := batch[1..];
    forall i | 0 <= i < |batch|
      ensures t.cleanups[batch[i].id] == Outcome(batch[i].record, RemovalWorks(script, i), at, maximum)
    {
      if i > 0 { assert rest[i - 1] == batch[i]; }
    }
  }

  // The records that a claim may take: different, pending and due, not more than asked for.
  predicate MayClaim(table: seq<Record>, pick: seq<nat>, now: nat, limit: nat) {
    && |pick| <= limit
    && (forall i :: 0 <= i < |pick| ==>
          pick[i] < |table| && table[pick[i]].state == RecordState.Pending && table[pick[i]].nextAt <= now)
    && forall i, j :: 0 <= i < j < |pick| ==> pick[i] != pick[j]
  }

  function Taken(table: seq<Record>, pick: seq<nat>): seq<Claim>
    requires forall i :: 0 <= i < |pick| ==> pick[i] < |table|
  {
    seq(|pick|, i requires 0 <= i < |pick| => Claim(pick[i], table[pick[i]]))
  }

  function Marked(st: Stores, pick: seq<nat>): Stores {
    st.(cleanups := MarkRunning(st.cleanups, pick))
  }

  // What the claim takes of what the database offers.
  function Granted(st: Stores, limit: nat, script: seq<Choice>): seq<nat> {
    var pick := Head(script).pick;
    if MayClaim(st.cleanups, pick, st.now, limit) then pick else []
  }

  lemma {:induction false} ClaimsThem(st: Stores, limit: nat, maximum: int, script: seq<Choice>)
    requires Works(script, 0)
    ensures var pick := Granted(st, limit, script);
            Solo(st, Cleaning(Claiming(limit), maximum), script)
            == Solo(Marked(st, pick), Pass(Taken(st.cleanups, pick), st.now, maximum), Tail(script))
  {
    CallsOf(script);
    var p := Cleaning(Claiming(limit), maximum);
    var (t, q) := Step(st, p, Head(script));
    Calling(st, p, script, t, q);
  }

  lemma {:induction false} MarkingIsOverwritten(st: Stores, pick: seq<nat>, maximum: int, script: seq<Choice>,
      t: Stores)
    requires MayClaim(st.cleanups, pick, st.now, |pick|)
    requires PassEffect(Marked(st, pick), Taken(st.cleanups, pick), st.now, maximum, script, t)
    ensures PassEffect(st, Taken(st.cleanups, pick), st.now, maximum, script, t)
  {
    var batch := Taken(st.cleanups, pick);
    assert forall i :: 0 <= i < |pick| ==> batch[i].id == pick[i];
  }

  // A pass succeeds exactly if the claim and the storing of each outcome work. It then has
  // seen to all the records that the claim could take, and to no other.
  lemma {:induction false} CleanupExactly(st: Stores, limit: nat, maximum: int, script: seq<Choice>)
    ensures var (t, p) := Solo(st, Begin(Cleanup(limit, maximum)), script);
            var pick := Granted(st, limit, script);
            && p == Done(Works(script, 0) && forall i :: 0 <= i < |pick| ==> StoringWorks(Tail(script), i))
            && (p == Done(true) ==> PassEffect(st, Taken(st.cleanups, pick), st.now, maximum, Tail(script), t))
            && (!Works(script, 0) ==> t == st)
  {
    CallsOf(script);
    var p := Cleaning(Claiming(limit), maximum);
    if Works(script, 0) { ClaimedPass(st, limit, maximum, script, p); }
    else { Calling(st, p, script, st, Done(false)); }
  }

  lemma {:induction false} ClaimedPass(st: Stores, limit: nat, maximum: int, script: seq<Choice>, start: Proc)
    requires Works(script, 0) && start == Cleaning(Claiming(limit), maximum)
    ensures var (t, p) := Solo(st, start, script);
            var pick := Granted(st, limit, script);
            && p == Done(forall i :: 0 <= i < |pick| ==> StoringWorks(Tail(script), i))
            && (p == Done(true) ==> PassEffect(st, Taken(st.cleanups, pick), st.now, maximum, Tail(script), t))
  {
    var pick := Granted(st, limit, script);
    ClaimsThem(st, limit, maximum, script);
    PassExactly(Marked(st, pick), Taken(st.cleanups, pick), st.now, maximum, Tail(script));
    var (t, p) := Solo(st, start, script);
    if p == Done(true) { MarkingIsOverwritten(st, pick, maximum, Tail(script), t); }
  }

  // Whatever fails, a pass touches neither bookmarks nor drafts.
  lemma {:induction false} CleaningKeeps(st: Stores, p: Proc, script: seq<Choice>)
    requires p.Cleaning? || p.Done?
    ensures var t := Solo(st, p, script).0; t.rows == st.rows && t.drafts == st.drafts && t.now == st.now
    decreases ScreenshotModel.Calls(p)
  {
    if !p.Done? {
      StepsAreFew(st, p, Head(script));
      var (t, q) := Step(st, p, Head(script));
      Calling(st, p, script, t, q);
      CleaningKeeps(t, q, Tail(script));
    }
  }
}
