// What holds of every capture draft in every interleaving: what its state says about its
// file and failure code, and what never changes.
module DraftLifecycle {
  import opened Prelude
  import opened ScreenshotModel
  import opened SagaSystem

  // ---- What never changes, in any interleaving ----

  predicate SameIdentity(a: Draft, b: Draft) {
    && a.owner == b.owner && a.target == b.target && a.expires == b.expires
    && (b.bookmark == a.bookmark || b.bookmark == None)
  }

  // A failed draft has a failure code and no file, a ready one has a file key.
  predicate WellFormed(draft: Draft) {
    && (draft.state == Failed ==> draft.staged == None && draft.failure != NoFailure)
    && (draft.state == Ready ==> draft.staged.Some?)
    && (draft.state == Capturing ==> draft.staged == None)
  }

  ghost predicate AllWellFormed(s: Sys) {
    && Formed(s.st.drafts)
    && (forall pid :: 0 <= pid < |s.procs| ==> CarriesWellFormed(s.procs[pid]))
  }

  predicate CarriesWellFormed(p: Proc) {
    match p
    case CreatePromote(_, use) => WellFormed(use.draft)
    case CreateConsume(_, use, _) => WellFormed(use.draft)
    case UpdatePromote(_, _, _, use) => WellFormed(use.draft)
    case UpdateWrite(_, _, _, _, _, consume) => consume.Some? ==> WellFormed(consume.value.draft)
    case UpdateConsume(use, _, _) => WellFormed(use.draft)
    case CaptureShoot(use) => use.draft.state == Capturing && use.draft.staged == None
    case CaptureValidate(use, _, _) => use.draft.state == Capturing && use.draft.staged == None
    case CaptureWrite(use) => WellFormed(use.draft)
    case RetryWrite(use) => use.draft.state == Capturing && use.draft.staged == None
    case DiscardFile(use, _) => WellFormed(use.draft)
    case DiscardWrite(use) => WellFormed(use.draft)
    case _ => true
  }

  ghost predicate Formed(drafts: map<nat, Draft>) {
    forall d :: d in drafts ==> WellFormed(drafts[d])
  }

  lemma SavingIsWellFormed(st: Stores, p: Proc, c: Choice)
    requires IsCreate(p) || IsUpdate(p)
    requires CarriesWellFormed(p) && Formed(st.drafts)
    ensures var (t, q) := Step(st, p, c); CarriesWellFormed(q) && Formed(t.drafts)
  {
  }

  lemma CapturingIsWellFormed(st: Stores, p: Proc, c: Choice)
    requires IsCapture(p)
    requires CarriesWellFormed(p) && Formed(st.drafts)
    ensures var (t, q) := Step(st, p, c); CarriesWellFormed(q) && Formed(t.drafts)
  {
  }

  lemma StepIsWellFormed(st: Stores, p: Proc, c: Choice)
    requires CarriesWellFormed(p) && Formed(st.drafts)
    ensures var (t, q) := Step(st, p, c); CarriesWellFormed(q) && Formed(t.drafts)
  {
    if IsCapture(p) { CapturingIsWellFormed(st, p, c); }
    else if IsCreate(p) || IsUpdate(p) { SavingIsWellFormed(st, p, c); }
  }

  lemma {:induction false} DraftsAreWellFormed(actions: seq<Action>)
    ensures AllWellFormed(Run(START, actions))
    decreases |actions|
  {
    if |actions| > 0 {
      var s := Run(START, actions[..|actions| - 1]);
      DraftsAreWellFormed(actions[..|actions| - 1]);
      match actions[|actions| - 1]
      case Advance(pid, c) =>
        if pid < |s.procs| {
          assert CarriesWellFormed(s.procs[pid]);
          StepIsWellFormed(s.st, s.procs[pid], c);
        }
      case Spawn(op) => assert CarriesWellFormed(Begin(op));
      case _ =>
    }
  }

  // Owner, address and expiry are fixed; the bookmark can only be unbound.
  lemma IdentityStays(s: Sys, a: Action, d: nat)
    requires d in s.st.drafts && d < s.st.next && d in Next(s, a).st.drafts
    ensures SameIdentity(s.st.drafts[d], Next(s, a).st.drafts[d])
  {
    if a.Advance? && a.pid < |s.procs| { StepKeepsIdentity(s.st, s.procs[a.pid], a.choice, d); }
  }

  lemma SavingKeepsIdentity(st: Stores, p: Proc, c: Choice, d: nat)
    requires d in st.drafts && d in Step(st, p, c).0.drafts && (IsCreate(p) || IsUpdate(p))
    ensures SameIdentity(st.drafts[d], Step(st, p, c).0.drafts[d])
  {
  }

  lemma CapturingKeepsIdentity(st: Stores, p: Proc, c: Choice, d: nat)
    requires d in st.drafts && d < st.next && d in Step(st, p, c).0.drafts && IsCapture(p)
    ensures SameIdentity(st.drafts[d], Step(st, p, c).0.drafts[d])
  {
  }

  lemma StepKeepsIdentity(st: Stores, p: Proc, c: Choice, d: nat)
    requires d in st.drafts && d < st.next && d in Step(st, p, c).0.drafts
    ensures SameIdentity(st.drafts[d], Step(st, p, c).0.drafts[d])
  {
    if IsCapture(p) { CapturingKeepsIdentity(st, p, c, d); }
    else if IsCreate(p) || IsUpdate(p) { SavingKeepsIdentity(st, p, c, d); }
  }
}
