// What holds of the screenshot stores after any run of any interleaving.
module SagaTheorems {
  import opened Prelude
  import opened CleanupQueue
  import opened ScreenshotModel
  import opened SagaSystem
  import opened SagaLedger
  import opened SagaSafety

  // ---- The invariant holds in every reachable state ----

  lemma SpawnKeeps(v: View, l: Ledger, w: View)
    requires Inv(v, l) && w == v.(ks := v.ks + [NOTHING])
    ensures Inv(w, l)
  {
    forall k | k in l ensures Placed(w, l, k) { assert Placed(v, l, k); }
    forall k, pid | k in l && 0 <= pid < |w.ks| ensures Answers(w.ks[pid], pid, k, l[k]) {
      assert Placed(v, l, k);
      if pid < |v.ks| { assert Answers(v.ks[pid], pid, k, l[k]); }
    }
    forall pid | 0 <= pid < |w.ks| ensures Relies(w.st, l, pid, w.ks[pid]) {
      if pid < |v.ks| { assert Relies(v.st, l, pid, v.ks[pid]); }
    }
  }

  lemma BeginKnowsNothing(op: Op)
    ensures Know(Begin(op)) == NOTHING
  {
  }

  // Time passing, drafts expiring and drafts deleted with their session.
  lemma OutsideKeeps(v: View, l: Ledger, w: View)
    requires Inv(v, l) && w == v.(st := w.st) && w.st == v.st.(drafts := w.st.drafts, now := w.st.now)
    requires forall d :: d in w.st.drafts ==> d in v.st.drafts && DraftOk(w.st, w.st.drafts[d])
    requires forall d :: d in w.st.drafts ==> w.st.drafts[d].target == v.st.drafts[d].target
    ensures Inv(w, l)
  {
    assert forall b :: b in v.st.rows ==> RowOk(v.st, l, b);
    forall k | k in l ensures Placed(w, l, k) { assert Placed(v, l, k); }
    forall pid | 0 <= pid < |w.ks| ensures Relies(w.st, l, pid, w.ks[pid]) {
      assert Relies(v.st, l, pid, v.ks[pid]);
    }
  }

  lemma NextKeeps(s: Sys, l: Ledger, a: Action) returns (m: Ledger)
    requires Inv(ViewOf(s), l)
    ensures Inv(ViewOf(Next(s, a)), m)
  {
    m := l;
    match a
    case Spawn(op) =>
      BeginKnowsNothing(op);
      assert ViewOf(Next(s, a)).ks == ViewOf(s).ks + [NOTHING];
      SpawnKeeps(ViewOf(s), l, ViewOf(Next(s, a)));
    case Advance(pid, c) =>
      if pid < |s.procs| { m := StepKeeps(s, l, pid, c); }
    case Tick(_) => OutsideKeeps(ViewOf(s), l, ViewOf(Next(s, a)));
    case ExpireDrafts(_) => OutsideKeeps(ViewOf(s), l, ViewOf(Next(s, a)));
    case DropDrafts(_) => OutsideKeeps(ViewOf(s), l, ViewOf(Next(s, a)));
  }

  lemma {:induction false} Reachable(actions: seq<Action>) returns (l: Ledger)
    ensures Inv(ViewOf(Run(START, actions)), l)
    decreases |actions|
  {
    if |actions| == 0 {
      l := map[];
    } else {
      var l0 := Reachable(actions[..|actions| - 1]);
      l := NextKeeps(Run(START, actions[..|actions| - 1]), l0, actions[|actions| - 1]);
    }
  }

  // ---- Every row's screenshot exists and shows what the row says ----

  // The bookmark's own deletion stands between Quarantine and its DeleteBookmark or Restore.
  predicate DeletionPending(p: Proc, b: nat, parking: Parking) {
    p == DeleteWrite(b, Some(parking)) || p == DeleteRestore(b, parking)
  }

  ghost predicate SafeAside(s: Sys, b: nat, shot: Shot) {
    exists pid, q ::
      && 0 <= pid < |s.procs| && DeletionPending(s.procs[pid], b, Parking(q, shot.key))
      && q in s.st.files && s.st.files[q].final == shot.captured
  }

  lemma WindowIsPending(p: Proc, b: nat, parking: Parking)
    requires Know(p).window == Some((b, parking))
    ensures DeletionPending(p, b, parking)
  {
  }

  lemma EveryScreenshotHasItsFile(actions: seq<Action>, b: nat)
    requires var s := Run(START, actions); b in s.st.rows && s.st.rows[b].shot.Some?
    ensures var s := Run(START, actions);
            var shot := s.st.rows[b].shot.value;
            || (shot.key in s.st.files && s.st.files[shot.key].final == shot.captured)
            || SafeAside(s, b, shot)
            || shot.key in s.stranded
    ensures var s := Run(START, actions);
            var shot := s.st.rows[b].shot.value;
            shot.key in s.stranded <==> shot.key !in s.st.files && !SafeAside(s, b, shot)
  {
    var s := Run(START, actions);
    var l := Reachable(actions);
    var k := s.st.rows[b].shot.value.key;
    assert RowOk(s.st, l, b);
    assert Placed(ViewOf(s), l, k);
    if l[k].place.Away? {
      var pid, q := l[k].place.pid, l[k].place.q;
      assert Answers(ViewOf(s).ks[pid], pid, k, l[k]);
      WindowIsPending(s.procs[pid], b, Parking(q, k));
      assert k in s.stranded ==> StrandedIn(l, k);
    } else if k in s.stranded {
      assert StrandedIn(l, k);
      forall pid, q | 0 <= pid < |s.procs| && DeletionPending(s.procs[pid], b, Parking(q, k)) ensures false {
        Unpack(s, l, pid);
      }
    }
  }

  // No two bookmarks share a storage key, however many saves race on one draft.
  lemma StorageKeysAreUnique(actions: seq<Action>, a: nat, b: nat)
    requires var s := Run(START, actions);
             a in s.st.rows && b in s.st.rows && ShotKey(s.st.rows[a]).Some?
                 && ShotKey(s.st.rows[a]) == ShotKey(s.st.rows[b])
    ensures a == b
  {
    var s := Run(START, actions);
    var l := Reachable(actions);
    assert RowOk(s.st, l, a) && RowOk(s.st, l, b);
  }

  // ---- Removing never hits a live screenshot ----

  ghost predicate Referenced(st: Stores, k: Key) {
    exists b :: RowHas(st, b, k)
  }

  lemma CleanupNeverNamesALiveFile(actions: seq<Action>, i: nat)
    requires i < |Run(START, actions).st.cleanups|
    ensures var s := Run(START, actions); !Referenced(s.st, s.st.cleanups[i].key)
  {
    var s := Run(START, actions);
    var l := Reachable(actions);
    assert DeadIn(l, s.st.cleanups[i].key);
    forall b ensures !RowHas(s.st, b, s.st.cleanups[i].key) {
      if b in s.st.rows { assert RowOk(s.st, l, b); }
    }
  }

  // No port call but the Quarantine of a deletion takes a referenced file from its key.
  lemma LiveFilesStay(actions: seq<Action>, pid: nat, c: Choice, k: Key)
    requires var s := Run(START, actions); pid < |s.procs| && !s.procs[pid].DeleteQuarantine?
    requires var s := Run(START, actions); Referenced(s.st, k) && k in s.st.files
    ensures k in Next(Run(START, actions), Advance(pid, c)).st.files
  {
    var s := Run(START, actions);
    var l := Reachable(actions);
    var b :| RowHas(s.st, b, k);
    assert RowOk(s.st, l, b);
    Unpack(s, l, pid);
    assert forall i :: 0 <= i < |s.st.cleanups| ==> DeadIn(l, s.st.cleanups[i].key);
    RemovesNothingLive(s, l, pid, c, b, k);
  }

  lemma RemovesNothingLive(s: Sys, l: Ledger, pid: nat, c: Choice, b: nat, k: Key)
    requires pid < |s.procs| && !s.procs[pid].DeleteQuarantine?
    requires Relies(s.st, l, pid, Know(s.procs[pid])) && k in s.st.files && LiveIn(l, b, k) && k.area == Promoted
    requires forall i :: 0 <= i < |s.st.cleanups| ==> DeadIn(l, s.st.cleanups[i].key)
    ensures k in Step(s.st, s.procs[pid], c).0.files
  {
    if IsCreate(s.procs[pid]) || IsUpdate(s.procs[pid]) {
      SavingRemovesNothingLive(s, l, pid, c, b, k);
    } else if IsDelete(s.procs[pid]) {
      DeletionRemovesNothingLive(s, l, pid, c, b, k);
    } else if s.procs[pid].Cleaning? && s.procs[pid].worker.Removing? && |s.procs[pid].worker.batch| > 0 {
      assert Know(s.procs[pid]).claims[0] == s.procs[pid].worker.batch[0];
    }
  }

  lemma SavingRemovesNothingLive(s: Sys, l: Ledger, pid: nat, c: Choice, b: nat, k: Key)
    requires pid < |s.procs| && (IsCreate(s.procs[pid]) || IsUpdate(s.procs[pid]))
    requires Relies(s.st, l, pid, Know(s.procs[pid])) && k in s.st.files && LiveIn(l, b, k) && k.area == Promoted
    ensures k in Step(s.st, s.procs[pid], c).0.files
  {
  }

  lemma DeletionRemovesNothingLive(s: Sys, l: Ledger, pid: nat, c: Choice, b: nat, k: Key)
    requires pid < |s.procs| && IsDelete(s.procs[pid]) && !s.procs[pid].DeleteQuarantine?
    requires Relies(s.st, l, pid, Know(s.procs[pid])) && k in s.st.files && LiveIn(l, b, k)
    ensures k in Step(s.st, s.procs[pid], c).0.files
  {
  }

  // ---- A succeeded cleanup record has done its work ----

  ghost predicate GoneOrLeft(s: Sys, k: Key) {
    k in s.st.files ==> k in s.left
  }

  // A pass that is about to store a success.
  predicate Succeeding(p: Proc, k: Key) {
    p.Cleaning? && p.worker.Completing? && p.worker.done.record.state.Succeeded? && p.worker.done.record.key == k
  }

  ghost predicate SuccessesAreGone(s: Sys) {
    && (forall i :: 0 <= i < |s.st.cleanups| && s.st.cleanups[i].state.Succeeded? ==>
         GoneOrLeft(s, s.st.cleanups[i].key))
    && (forall pid, k :: 0 <= pid < |s.procs| && Succeeding(s.procs[pid], k) ==> GoneOrLeft(s, k))
  }

  // Only a Restore behind another operation's back brings a dead key's file back, and
  // leaves it to nobody.
  lemma DeadFilesStayGone(s: Sys, l: Ledger, pid: nat, c: Choice, k: Key)
    requires pid < |s.procs| && DeadIn(l, k) && k.id < s.st.next && GoneOrLeft(s, k)
    requires forall b :: b in s.st.rows ==> RowOk(s.st, l, b)
    ensures GoneOrLeft(Next(s, Advance(pid, c)), k)
  {
    assert forall b :: !RowHas(s.st, b, k);
    if k !in s.st.files { FilesAppear(s.st, s.procs[pid], c, k); }
  }

  lemma FilesAppear(st: Stores, p: Proc, c: Choice, k: Key)
    requires k !in st.files && k.id < st.next && forall b :: !RowHas(st, b, k)
    ensures k in Step(st, p, c).0.files ==> k in Left(st, p, c)
  {
  }

  lemma DoneIsDead(s: Sys, l: Ledger, pid: nat, k: Key)
    requires Inv(ViewOf(s), l) && pid < |s.procs| && Succeeding(s.procs[pid], k)
    ensures DeadIn(l, k) && k.id < s.st.next
  {
    Unpack(s, l, pid);
    var done := s.procs[pid].worker.done;
    assert Know(s.procs[pid]).claims[0] == done;
    assert DeadIn(l, s.st.cleanups[done.id].key);
  }

  // Where a success in the table or about to be stored there comes from.
  ghost predicate SuccessesExplained(st: Stores, p: Proc, t: Stores, q: Proc) {
    && (forall i :: 0 <= i < |t.cleanups| && t.cleanups[i].state.Succeeded? ==>
          Succeeding(p, t.cleanups[i].key)
          || (i < |st.cleanups| && st.cleanups[i].state.Succeeded? && st.cleanups[i].key == t.cleanups[i].key))
    && (forall k :: Succeeding(q, k) ==> k !in t.files)
  }

  lemma SavingSucceedsNothing(st: Stores, p: Proc, c: Choice)
    requires IsCreate(p) || IsUpdate(p)
    ensures SuccessesExplained(st, p, Step(st, p, c).0, Step(st, p, c).1)
  {
  }

  lemma DeletingSucceedsNothing(st: Stores, p: Proc, c: Choice)
    requires IsDelete(p) || IsCapture(p)
    ensures SuccessesExplained(st, p, Step(st, p, c).0, Step(st, p, c).1)
  {
  }

  lemma PassSucceeds(st: Stores, p: Proc, c: Choice)
    requires Copies(st.cleanups, Know(p).claims) && p.Cleaning?
    ensures SuccessesExplained(st, p, Step(st, p, c).0, Step(st, p, c).1)
  {
    if p.worker.Completing? { assert Know(p).claims[0] == p.worker.done; }
  }

  lemma SuccessesComeFrom(st: Stores, p: Proc, c: Choice)
    requires Copies(st.cleanups, Know(p).claims)
    ensures SuccessesExplained(st, p, Step(st, p, c).0, Step(st, p, c).1)
  {
    if p.Cleaning? { PassSucceeds(st, p, c); }
    else if IsCreate(p) || IsUpdate(p) { SavingSucceedsNothing(st, p, c); }
    else if IsDelete(p) || IsCapture(p) { DeletingSucceedsNothing(st, p, c); }
  }

  lemma StepSucceeds(s: Sys, l: Ledger, pid: nat, c: Choice)
    requires Inv(ViewOf(s), l) && SuccessesAreGone(s) && pid < |s.procs|
    ensures SuccessesAreGone(Next(s, Advance(pid, c)))
  {
    var t := Next(s, Advance(pid, c));
    Unpack(s, l, pid);
    SuccessesComeFrom(s.st, s.procs[pid], c);
    forall k | DeadIn(l, k) && k.id < s.st.next && GoneOrLeft(s, k) ensures GoneOrLeft(t, k) {
      DeadFilesStayGone(s, l, pid, c, k);
    }
    forall i | 0 <= i < |t.st.cleanups| && t.st.cleanups[i].state.Succeeded?
      ensures GoneOrLeft(t, t.st.cleanups[i].key)
    {
      if Succeeding(s.procs[pid], t.st.cleanups[i].key) { DoneIsDead(s, l, pid, t.st.cleanups[i].key); }
    }
    forall q, k | 0 <= q < |t.procs| && Succeeding(t.procs[q], k) ensures GoneOrLeft(t, k) {
      if q != pid { DoneIsDead(s, l, q, k); }
    }
  }

  lemma OutsideSucceedsNothing(s: Sys, a: Action)
    requires SuccessesAreGone(s) && !a.Advance?
    ensures SuccessesAreGone(Next(s, a))
  {
    var t := Next(s, a);
    assert t.st.files == s.st.files && t.left == s.left;
    forall pid, k | 0 <= pid < |t.procs| && Succeeding(t.procs[pid], k) ensures GoneOrLeft(t, k) {
      if pid < |s.procs| { assert t.procs[pid] == s.procs[pid] && GoneOrLeft(s, k); }
    }
  }

  lemma NextSucceeds(s: Sys, l: Ledger, a: Action)
    requires Inv(ViewOf(s), l) && SuccessesAreGone(s)
    ensures SuccessesAreGone(Next(s, a))
  {
    if !a.Advance? { OutsideSucceedsNothing(s, a); }
    else if a.pid < |s.procs| { StepSucceeds(s, l, a.pid, a.choice); }
  }

  // In every interleaving the file of a succeeded record is gone, unless a Restore that
  // came too late has brought it back and left it.
  lemma {:induction false} SucceededFilesAreGone(actions: seq<Action>)
    ensures SuccessesAreGone(Run(START, actions))
    decreases |actions|
  {
    if |actions| > 0 {
      var init, last := actions[..|actions| - 1], actions[|actions| - 1];
      SucceededFilesAreGone(init);
      var l := Reachable(init);
      NextSucceeds(Run(START, init), l, last);
    }
  }

  // ---- Where untracked files come from ----

  ghost predicate Recorded(st: Stores, k: Key) {
    exists i :: 0 <= i < |st.cleanups| && st.cleanups[i].key == k
  }

  // A record that has not succeeded names the key.
  ghost predicate Named(st: Stores, k: Key) {
    exists i :: 0 <= i < |st.cleanups| && st.cleanups[i].key == k && !st.cleanups[i].state.Succeeded?
  }

  // An unfinished operation still has the key in hand.
  predicate InHandOf(p: Proc, k: Key) {
    var kn := Know(p);
    || (kn.minted.Some? && kn.minted.value.key == k) || kn.undoing == Some(k) || kn.doomed == Some(k)
    || (kn.window.Some? && kn.window.value.1.q == k) || kn.unlinking == Some(k)
  }

  ghost predicate Untracked(s: Sys, k: Key) {
    && k in s.st.files && k.area != Staging
    && !Referenced(s.st, k) && !Named(s.st, k)
    && forall pid :: 0 <= pid < |s.procs| ==> !InHandOf(s.procs[pid], k)
  }

  // In every interleaving the files that nobody tracks are exactly those left behind by
  // a recorded step and not since taken up by a cleanup record or in an operation's hands.
  lemma UntrackedFilesHaveACause(actions: seq<Action>, k: Key)
    ensures var s := Run(START, actions);
            Untracked(s, k) <==>
            && k in s.left && k in s.st.files && !Named(s.st, k)
            && forall pid :: 0 <= pid < |s.procs| ==> !InHandOf(s.procs[pid], k)
  {
    var s := Run(START, actions);
    var l := Reachable(actions);
    SucceededFilesAreGone(actions);
    if Untracked(s, k) { KeptUnlessLeft(s, l, k); }
    if k in s.left { LeftFilesStayUnreferenced(actions, k); assert DeadIn(l, k); }
  }

  lemma KeptUnlessLeft(s: Sys, l: Ledger, k: Key)
    requires Inv(ViewOf(s), l) && SuccessesAreGone(s) && k in s.st.files && k.area != Staging
    ensures k in s.left || Referenced(s.st, k) || Named(s.st, k)
            || exists pid :: 0 <= pid < |s.procs| && InHandOf(s.procs[pid], k)
  {
    assert Placed(ViewOf(s), l, k);
    var role := l[k];
    if role.Live? {
      assert RowHas(s.st, role.b, k);
    } else if role.New? || role.Parked? || role.keeper.Process? {
      var pid := if role.New? || role.Parked? then role.pid else role.keeper.pid;
      assert Answers(ViewOf(s).ks[pid], pid, k, role);
      assert InHandOf(s.procs[pid], k);
    }
  }

  // What was left behind is never shown again.
  lemma LeftFilesStayUnreferenced(actions: seq<Action>, k: Key)
    requires k in Run(START, actions).left
    ensures !Referenced(Run(START, actions).st, k)
  {
    var s := Run(START, actions);
    var l := Reachable(actions);
    assert DeadIn(l, k);
    forall b ensures !RowHas(s.st, b, k) {
      if b in s.st.rows { assert RowOk(s.st, l, b); }
    }
  }

  // ---- A staged file is promoted at most once ----

  lemma StepMakesFreshFiles(st: Stores, p: Proc, c: Choice, k: Key)
    requires k !in st.files && k.area == Staging && k.id < st.next
    requires !p.DeleteRestore? || p.parking.home != k
    ensures var t := Step(st, p, c).0; k !in t.files && st.next <= t.next
  {
  }

  lemma {:induction false} GoneStaysGone(before: seq<Action>, after: seq<Action>, k: Key)
    requires k.area == Staging && k.id < Run(START, before).st.next && k !in Run(START, before).st.files
    ensures var s := Run(START, before + after); k !in s.st.files && k.id < s.st.next
    decreases |after|
  {
    if |after| == 0 {
      assert before + after == before;
    } else {
      var init, a := after[..|after| - 1], after[|after| - 1];
      GoneStaysGone(before, init, k);
      assert (before + after)[..|before + after| - 1] == before + init;
      var s := Run(START, before + init);
      var l := Reachable(before + init);
      if a.Advance? && a.pid < |s.procs| {
        Unpack(s, l, a.pid);
        StepMakesFreshFiles(s.st, s.procs[a.pid], a.choice, k);
      }
    }
  }

  // This action renames the staged file k into the promoted directory.
  predicate Promotes(s: Sys, a: Action, k: Key) {
    && a.Advance? && a.pid < |s.procs|
    && (s.procs[a.pid].CreatePromote? || s.procs[a.pid].UpdatePromote?)
    && s.procs[a.pid].use.draft.staged == Some(k)
    && !Step(s.st, s.procs[a.pid], a.choice).1.Done?
  }

  lemma StagedFilesArePromotedOnce(before: seq<Action>, a: Action, after: seq<Action>, again: Action, k: Key)
    requires Promotes(Run(START, before), a, k)
    ensures !Promotes(Run(START, before + [a] + after), again, k)
  {
    var s := Run(START, before);
    var l := Reachable(before);
    Unpack(s, l, a.pid);
    assert (before + [a])[..|before + [a]| - 1] == before;
    GoneStaysGone(before + [a], after, k);
  }
}
