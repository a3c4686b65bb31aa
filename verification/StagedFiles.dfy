// The staged file of a draft, in every interleaving: it is there exactly until a save
// promotes it or a discard removes it.
module StagedFiles {
  import opened Prelude
  import opened ScreenshotModel
  import opened SagaSystem
  import opened SagaLedger
  import opened SagaSafety
  import opened SagaTheorems
  import opened ReadyDrafts
  import DraftOwners
  import DraftLifecycle

  // The staged files that a step promotes or removes.
  function Takes(st: Stores, p: Proc, c: Choice): set<Key> {
    match p
    case CreatePromote(_, use) => if !c.fail then Present(st, use.draft.staged) else {}
    case UpdatePromote(_, _, _, use) => if !c.fail then Present(st, use.draft.staged) else {}
    case DiscardFile(_, key) => if !c.fail then {key} else {}
    case _ => {}
  }

  function Present(st: Stores, staged: Option<Key>): set<Key> {
    if staged.Some? && staged.value in st.files then {staged.value} else {}
  }

  function TakenBy(actions: seq<Action>): set<Key>
    decreases |actions|
  {
    if |actions| == 0 then {}
    else
      var init, last := actions[..|actions| - 1], actions[|actions| - 1];
      var s := Run(START, init);
      TakenBy(init)
      + if last.Advance? && last.pid < |s.procs| then Takes(s.st, s.procs[last.pid], last.choice) else {}
  }

  // ---- The invariant ----

  // A key that was handed out in the staging directory.
  predicate Known(st: Stores, taken: set<Key>, k: Key) {
    k.area == Staging && k.id < st.next && (k in st.files <==> k !in taken)
  }

  predicate KnownStaged(st: Stores, taken: set<Key>, draft: Draft) {
    draft.staged.Some? ==> Known(st, taken, draft.staged.value)
  }

  // The process has heard of the staged file.
  predicate Mentions(p: Proc, k: Key) {
    || (DraftOwners.UseOf(p).Some? && DraftOwners.UseOf(p).value.draft.staged == Some(k))
    || (p.CaptureValidate? && p.key == k)
    || (p.DiscardFile? && p.key == k)
  }

  ghost predicate AllKnown(s: Sys, taken: set<Key>) {
    && (forall k :: k in taken ==> Known(s.st, taken, k))
    && (forall d :: d in s.st.drafts ==> KnownStaged(s.st, taken, s.st.drafts[d]))
    && (forall pid, k :: 0 <= pid < |s.procs| && Mentions(s.procs[pid], k) ==> Known(s.st, taken, k))
  }

  // ---- Every step keeps it ----

  lemma Spares(s: Sys, l: Ledger, pid: nat)
    requires Inv(ViewOf(s), l) && pid < |s.procs|
    ensures SparesStaging(s.procs[pid])
  {
    Unpack(s, l, pid);
    var kn := Know(s.procs[pid]);
    forall i | 0 <= i < |kn.claims| ensures kn.claims[i].record.key.area != Staging {
      assert DeadIn(l, s.st.cleanups[kn.claims[i].id].key);
    }
  }

  lemma SavingKeepsKnown(st: Stores, p: Proc, c: Choice, taken: set<Key>, k: Key)
    requires SparesStaging(p) && Known(st, taken, k) && (IsCreate(p) || IsUpdate(p))
    ensures Known(Step(st, p, c).0, taken + Takes(st, p, c), k)
  {
  }

  lemma OtherKeepsKnown(st: Stores, p: Proc, c: Choice, taken: set<Key>, k: Key)
    requires SparesStaging(p) && Known(st, taken, k) && !IsCreate(p) && !IsUpdate(p)
    ensures Known(Step(st, p, c).0, taken + Takes(st, p, c), k)
  {
    if p.Cleaning? && p.worker.Removing? && |p.worker.batch| > 0 {
      assert Know(p).claims[0] == p.worker.batch[0];
    }
  }

  lemma KeepsKnown(st: Stores, p: Proc, c: Choice, taken: set<Key>, k: Key)
    requires SparesStaging(p) && Known(st, taken, k)
    ensures Known(Step(st, p, c).0, taken + Takes(st, p, c), k)
  {
    if IsCreate(p) || IsUpdate(p) { SavingKeepsKnown(st, p, c, taken, k); }
    else { OtherKeepsKnown(st, p, c, taken, k); }
  }

  // Where the staged keys in drafts and in private copies come from.
  ghost predicate From(st: Stores, p: Proc, k: Key) {
    Mentions(p, k) || exists d :: d in st.drafts && st.drafts[d].staged == Some(k)
  }

  predicate Shot(st: Stores, p: Proc, c: Choice, k: Key) {
    p.CaptureShoot? && !c.fail && k == FreshKey(st, Staging)
  }

  lemma SavedDraftsFrom(st: Stores, p: Proc, c: Choice, d: nat, k: Key)
    requires IsCreate(p) || IsUpdate(p)
    requires var t := Step(st, p, c).0; d in t.drafts && t.drafts[d].staged == Some(k)
    ensures From(st, p, k)
  {
  }

  lemma CapturedDraftsFrom(st: Stores, p: Proc, c: Choice, d: nat, k: Key)
    requires IsCapture(p)
    requires var t := Step(st, p, c).0; d in t.drafts && t.drafts[d].staged == Some(k)
    ensures From(st, p, k)
  {
  }

  lemma DraftsFrom(st: Stores, p: Proc, c: Choice, d: nat, k: Key)
    requires var t := Step(st, p, c).0; d in t.drafts && t.drafts[d].staged == Some(k)
    ensures From(st, p, k)
  {
    if IsCreate(p) || IsUpdate(p) { SavedDraftsFrom(st, p, c, d, k); }
    else if IsCapture(p) { CapturedDraftsFrom(st, p, c, d, k); }
    else { assert d in st.drafts && st.drafts[d].staged == Some(k); }
  }

  lemma SavesMention(st: Stores, p: Proc, c: Choice, k: Key)
    requires Mentions(Step(st, p, c).1, k) && !IsCapture(p)
    ensures From(st, p, k)
  {
  }

  lemma CapturesMention(st: Stores, p: Proc, c: Choice, k: Key)
    requires Mentions(Step(st, p, c).1, k) && IsCapture(p)
    ensures From(st, p, k) || Shot(st, p, c, k)
  {
  }

  lemma ShotIsKnown(st: Stores, p: Proc, c: Choice, taken: set<Key>, k: Key)
    requires Shot(st, p, c, k) && forall x :: x in taken ==> Known(st, taken, x)
    ensures Known(Step(st, p, c).0, taken + Takes(st, p, c), k)
  {
  }

  lemma TakesMentioned(st: Stores, p: Proc, c: Choice, k: Key)
    requires k in Takes(st, p, c)
    ensures Mentions(p, k)
  {
  }

  lemma AdvanceKnows(s: Sys, l: Ledger, pid: nat, c: Choice, taken: set<Key>)
    requires Inv(ViewOf(s), l) && pid < |s.procs| && AllKnown(s, taken)
    ensures AllKnown(Next(s, Advance(pid, c)), taken + Takes(s.st, s.procs[pid], c))
  {
    Spares(s, l, pid);
    StepKnows(s, pid, c, taken);
  }

  lemma StepKnows(s: Sys, pid: nat, c: Choice, taken: set<Key>)
    requires pid < |s.procs| && SparesStaging(s.procs[pid]) && AllKnown(s, taken)
    ensures AllKnown(Next(s, Advance(pid, c)), taken + Takes(s.st, s.procs[pid], c))
  {
    var p, t, more := s.procs[pid], Next(s, Advance(pid, c)), taken + Takes(s.st, s.procs[pid], c);
    forall k | Known(s.st, taken, k) ensures Known(t.st, more, k) { KeepsKnown(s.st, p, c, taken, k); }
    forall k | k in more ensures Known(t.st, more, k) {
      if k !in taken { TakesMentioned(s.st, p, c, k); }
    }
    forall d | d in t.st.drafts ensures KnownStaged(t.st, more, t.st.drafts[d]) {
      if t.st.drafts[d].staged.Some? { DraftsFrom(s.st, p, c, d, t.st.drafts[d].staged.value); }
    }
    forall x, k | 0 <= x < |t.procs| && Mentions(t.procs[x], k) ensures Known(t.st, more, k) {
      if x == pid && IsCapture(p) {
        CapturesMention(s.st, p, c, k);
        if Shot(s.st, p, c, k) { ShotIsKnown(s.st, p, c, taken, k); }
      } else if x == pid {
        SavesMention(s.st, p, c, k);
      }
    }
  }

  lemma OutsideKnows(s: Sys, a: Action, taken: set<Key>)
    requires AllKnown(s, taken) && !a.Advance?
    ensures AllKnown(Next(s, a), taken)
  {
    var t := Next(s, a);
    forall x, k | 0 <= x < |t.procs| && Mentions(t.procs[x], k) ensures Known(t.st, taken, k) {
      if x < |s.procs| {
        assert Mentions(s.procs[x], k) && Known(s.st, taken, k);
        assert t.st.files == s.st.files && t.st.next == s.st.next;
      } else {
        BeginMentionsNothing(a.op, k);
      }
    }
    forall d | d in t.st.drafts ensures KnownStaged(t.st, taken, t.st.drafts[d]) {
      assert KnownStaged(s.st, taken, s.st.drafts[d]);
    }
  }

  lemma BeginMentionsNothing(op: Op, k: Key)
    ensures !Mentions(Begin(op), k)
  {
  }

  lemma {:induction false} AlwaysKnown(actions: seq<Action>)
    ensures AllKnown(Run(START, actions), TakenBy(actions))
    decreases |actions|
  {
    if |actions| > 0 {
      var init, last := actions[..|actions| - 1], actions[|actions| - 1];
      var s := Run(START, init);
      AlwaysKnown(init);
      var l := Reachable(init);
      if last.Advance? && last.pid < |s.procs| {
        AdvanceKnows(s, l, last.pid, last.choice, TakenBy(init));
      } else {
        assert TakenBy(init) + {} == TakenBy(init);
        if !last.Advance? { OutsideKnows(s, last, TakenBy(init)); }
      }
    }
  }

  // In every interleaving a draft's staged file is there if and only if no save has
  // promoted it and no discard has removed it; a ready draft has such a file.
  lemma StagedFileExactly(actions: seq<Action>, d: nat)
    requires d in Run(START, actions).st.drafts
    ensures var st := Run(START, actions).st;
            && (st.drafts[d].state == Ready ==> st.drafts[d].staged.Some?)
            && (st.drafts[d].staged.Some? ==>
                  (st.drafts[d].staged.value in st.files <==> st.drafts[d].staged.value !in TakenBy(actions)))
  {
    AlwaysKnown(actions);
    DraftLifecycle.DraftsAreWellFormed(actions);
    var st := Run(START, actions).st;
    assert DraftLifecycle.WellFormed(st.drafts[d]) && KnownStaged(st, TakenBy(actions), st.drafts[d]);
  }
}
