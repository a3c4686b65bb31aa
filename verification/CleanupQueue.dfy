// The cleanup queue: records of screenshot files whose removal failed, and the
// workers that claim and retry them (bookmarker/usecase/cleanup.go and the claim
// and completion statements of adapters/postgres).
module CleanupQueue {
  import opened Prelude

  datatype RecordState = Pending | Running | Succeeded | Abandoned

  datatype Record = Record(key: Key, state: RecordState, attempts: nat, nextAt: nat)

  // A record as its worker carries it: the primary key and a private copy.
  datatype Claim = Claim(id: nat, record: Record)

  // One run of CleanupProcessor.Process, stopped in front of its next port call.
  datatype Worker =
    | Claiming(limit: nat)
    | Removing(batch: seq<Claim>, at: nat)
    | Completing(done: Claim, rest: seq<Claim>, at: nat)
    | Finished(ok: bool)

  function NewRecord(key: Key, nextAt: nat): Record {
    Record(key, Pending, 0, nextAt)
  }

  predicate Due(r: Record, now: nat) {
    r.state == Pending && r.nextAt <= now
  }

  // What the claim statement may return: distinct due records, at most limit of
  // them. Which ones is left open, since rows locked by others are skipped.
  predicate ValidPick(table: seq<Record>, pick: seq<nat>, now: nat, limit: nat) {
    && |pick| <= limit
    && (forall i :: 0 <= i < |pick| ==> pick[i] < |table| && Due(table[pick[i]], now))
    && (forall i, j :: 0 <= i < j < |pick| ==> pick[i] != pick[j])
  }

  function MarkRunning(table: seq<Record>, pick: seq<nat>): (r: seq<Record>)
    ensures |r| == |table|
  {
    seq(|table|, i requires 0 <= i < |table| => if i in pick then table[i].(state := Running) else table[i])
  }

  function Batch(table: seq<Record>, pick: seq<nat>): (r: seq<Claim>)
    requires forall i :: 0 <= i < |pick| ==> pick[i] < |table|
    ensures |r| == |pick|
  {
    seq(|pick|, i requires 0 <= i < |pick| => Claim(pick[i], table[pick[i]]))
  }

  // The record after one removal attempt of a pass that started at time `at`.
  function Attempted(r: Record, removed: bool, at: nat, maximum: int): Record {
    if removed then
      r.(state := Succeeded)
    else
      var n := r.attempts + 1;
      if n >= maximum then
        r.(attempts := n, state := Abandoned)
      else
        r.(attempts := n, state := Pending, nextAt := at + n * MINUTE)
  }

  function NextInBatch(batch: seq<Claim>, at: nat): Worker {
    if |batch| == 0 then Finished(true) else Removing(batch, at)
  }

  // ClaimDueScreenshotCleanup.
  function ClaimStep(table: seq<Record>, limit: nat, pick: seq<nat>, now: nat, fail: bool): (r: (seq<Record>, Worker))
    ensures |r.0| == |table|
  {
    if fail then
      (table, Finished(false))
    else
      var chosen := if ValidPick(table, pick, now, limit) then pick else [];
      (MarkRunning(table, chosen), NextInBatch(Batch(table, chosen), now))
  }

  // The answer of Files.Remove for the first record of the batch.
  function RemoveStep(batch: seq<Claim>, at: nat, removed: bool, maximum: int): Worker
    requires |batch| > 0
  {
    var c := batch[0];
    Completing(c.(record := Attempted(c.record, removed, at, maximum)), batch[1..], at)
  }

  // CompleteScreenshotCleanup: an error ends the whole pass.
  function CompleteStep(table: seq<Record>, done: Claim, rest: seq<Claim>, at: nat, fail: bool)
    : (r: (seq<Record>, Worker))
    ensures |r.0| == |table|
  {
    if fail then
      (table, Finished(false))
    else
      var r := done.record;
      var t := if done.id < |table|
               then table[done.id := table[done.id].(state := r.state, attempts := r.attempts, nextAt := r.nextAt)]
               else table;
      (t, NextInBatch(rest, at))
  }

  // The records a worker still has to complete.
  function InHand(worker: Worker): seq<Claim> {
    match worker
    case Removing(batch, _) => batch
    case Completing(done, rest, _) => [done] + rest
    case _ => []
  }

  predicate SameKeys(a: seq<Record>, b: seq<Record>) {
    |a| == |b| && forall i :: 0 <= i < |a| ==> a[i].key == b[i].key
  }

  // A worker's private copies name the same files as the table.
  predicate Copies(table: seq<Record>, claims: seq<Claim>) {
    forall i :: 0 <= i < |claims| ==> claims[i].id < |table| && table[claims[i].id].key == claims[i].record.key
  }

  lemma ClaimCopies(table: seq<Record>, limit: nat, pick: seq<nat>, now: nat, fail: bool)
    ensures var (t, w) := ClaimStep(table, limit, pick, now, fail); SameKeys(table, t) && Copies(t, InHand(w))
  {
  }

  lemma CompleteCopies(table: seq<Record>, done: Claim, rest: seq<Claim>, at: nat, fail: bool)
    requires Copies(table, [done] + rest)
    ensures var (t, w) := CompleteStep(table, done, rest, at, fail); SameKeys(table, t) && Copies(t, InHand(w))
  {
    var (t, w) := CompleteStep(table, done, rest, at, fail);
    forall i | 0 <= i < |InHand(w)| ensures InHand(w)[i].id < |t| && t[InHand(w)[i].id].key == InHand(w)[i].record.key {
      assert ([done] + rest)[i + 1] == rest[i];
    }
  }
}
