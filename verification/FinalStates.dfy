// When consumed, discarded and expired are final: in every interleaving, exactly as long
// as no operation writes its private copy of a draft over such a state.
module FinalStates {
  import opened Prelude
  import opened ScreenshotModel
  import opened SagaSystem
  import DraftOwners

  // The state that the process is about to write into a draft.
  function Writing(p: Proc): Option<(nat, DraftState)> {
    match p
    case CreateConsume(_, use, _) => Some((use.id, Consumed))
    case UpdateConsume(use, _, _) => Some((use.id, Consumed))
    case CaptureWrite(use) => Some((use.id, use.draft.state))
    case RetryWrite(use) => Some((use.id, use.draft.state))
    case DiscardWrite(use) => Some((use.id, Discarded))
    case _ => None
  }

  // A draft write that goes through and replaces a terminal state by another state.
  predicate Overwrites(st: Stores, p: Proc, c: Choice) {
    && !c.fail && Writing(p).Some?
    && var (d, state) := Writing(p).value;
       d in st.drafts && IsTerminal(st.drafts[d]) && st.drafts[d].state != state
  }

  predicate OverwritesIn(s: Sys, a: Action) {
    a.Advance? && a.pid < |s.procs| && Overwrites(s.st, s.procs[a.pid], a.choice)
  }

  // Ids are not used again, and drafts that are still there keep a terminal state.
  ghost predicate KeepsFinal(st: Stores, t: Stores) {
    && st.next <= t.next
    && (forall d :: d in t.drafts && d < st.next ==> d in st.drafts)
    && (forall d :: d in st.drafts && d in t.drafts && IsTerminal(st.drafts[d]) ==>
          t.drafts[d].state == st.drafts[d].state)
  }

  ghost predicate OldIds(st: Stores) {
    forall d :: d in st.drafts ==> d < st.next
  }

  // ---- One step ----

  lemma SavingKeepsFinal(st: Stores, p: Proc, c: Choice)
    requires OldIds(st) && (IsCreate(p) || IsUpdate(p))
    ensures KeepsFinal(st, Step(st, p, c).0) <==> !Overwrites(st, p, c)
  {
  }

  lemma CapturingKeepsFinal(st: Stores, p: Proc, c: Choice)
    requires OldIds(st) && IsCapture(p)
    ensures KeepsFinal(st, Step(st, p, c).0) <==> !Overwrites(st, p, c)
  {
  }

  lemma OtherKeepsFinal(st: Stores, p: Proc, c: Choice)
    requires OldIds(st) && !IsCreate(p) && !IsUpdate(p) && !IsCapture(p)
    ensures KeepsFinal(st, Step(st, p, c).0) && !Overwrites(st, p, c)
  {
  }

  lemma StepKeepsFinal(st: Stores, p: Proc, c: Choice)
    requires OldIds(st)
    ensures KeepsFinal(st, Step(st, p, c).0) <==> !Overwrites(st, p, c)
  {
    if IsCreate(p) || IsUpdate(p) { SavingKeepsFinal(st, p, c); }
    else if IsCapture(p) { CapturingKeepsFinal(st, p, c); }
    else { OtherKeepsFinal(st, p, c); }
  }

  lemma NextKeepsFinal(s: Sys, a: Action)
    requires OldIds(s.st)
    ensures KeepsFinal(s.st, Next(s, a).st) <==> !OverwritesIn(s, a)
  {
    if a.Advance? && a.pid < |s.procs| { StepKeepsFinal(s.st, s.procs[a.pid], a.choice); }
  }

  // ---- Whole runs ----

  function At(actions: seq<Action>, i: nat): Sys
    requires i <= |actions|
  {
    Run(START, actions[..i])
  }

  lemma AtGrows(actions: seq<Action>, i: nat)
    requires i < |actions|
    ensures At(actions, i + 1) == Next(At(actions, i), actions[i]) && OldIds(At(actions, i).st)
  {
    assert actions[..i + 1][..i] == actions[..i];
    DraftOwners.Reachable(actions[..i]);
  }

  // A state that is terminal at some point of the run is the draft's state at every later
  // point at which the draft is there.
  ghost predicate Final(actions: seq<Action>) {
    forall i, j :: 0 <= i <= j <= |actions| ==> KeepsFinal(At(actions, i).st, At(actions, j).st)
  }

  ghost predicate NeverOverwrites(actions: seq<Action>) {
    forall i :: 0 <= i < |actions| ==> !OverwritesIn(At(actions, i), actions[i])
  }

  lemma FinalTwice(st: Stores, t: Stores, u: Stores)
    requires OldIds(st) && KeepsFinal(st, t) && KeepsFinal(t, u)
    ensures KeepsFinal(st, u)
  {
  }

  lemma KeptOnce(actions: seq<Action>, i: nat)
    requires i < |actions| && NeverOverwrites(actions)
    ensures KeepsFinal(At(actions, i).st, At(actions, i + 1).st) && OldIds(At(actions, i).st)
  {
    AtGrows(actions, i);
    NextKeepsFinal(At(actions, i), actions[i]);
  }

  // What each of n steps keeps is kept from any of them to any later one.
  lemma {:induction false} KeptBetween(stores: nat -> Stores, n: nat, i: nat, j: nat)
    requires i <= j <= n
    requires forall k :: 0 <= k < n ==> OldIds(stores(k)) && KeepsFinal(stores(k), stores(k + 1))
    ensures KeepsFinal(stores(i), stores(j))
    decreases j
  {
    if i < j {
      KeptBetween(stores, n, i, j - 1);
      FinalTwice(stores(i), stores(j - 1), stores(j));
    }
  }

  lemma NeverIsFinal(actions: seq<Action>, i: nat, j: nat)
    requires i <= j <= |actions| && NeverOverwrites(actions)
    ensures KeepsFinal(At(actions, i).st, At(actions, j).st)
  {
    var stores := (k: nat) => if k <= |actions| then At(actions, k).st else EMPTY;
    forall k | 0 <= k < |actions| ensures OldIds(stores(k)) && KeepsFinal(stores(k), stores(k + 1)) {
      KeptOnce(actions, k);
    }
    KeptBetween(stores, |actions|, i, j);
  }

  // In every interleaving, terminal states are final throughout the run if and only if no
  // action of it overwrites one.
  lemma FinalExactly(actions: seq<Action>)
    ensures Final(actions) <==> NeverOverwrites(actions)
  {
    if NeverOverwrites(actions) {
      forall i, j | 0 <= i <= j <= |actions| ensures KeepsFinal(At(actions, i).st, At(actions, j).st) {
        NeverIsFinal(actions, i, j);
      }
    }
    if Final(actions) {
      forall i | 0 <= i < |actions| ensures !OverwritesIn(At(actions, i), actions[i]) {
        assert KeepsFinal(At(actions, i).st, At(actions, i + 1).st);
        AtGrows(actions, i);
        NextKeepsFinal(At(actions, i), actions[i]);
      }
    }
  }

  // ---- In terms of those who hold copies ----

  predicate Holds(p: Proc, d: nat) {
    var use := DraftOwners.UseOf(p);
    use.Some? && use.value.id == d
  }

  ghost predicate HeldByNone(s: Sys, d: nat) {
    forall pid :: 0 <= pid < |s.procs| ==> !Holds(s.procs[pid], d)
  }

  predicate Finishes(st: Stores, t: Stores, d: nat) {
    d in t.drafts && IsTerminal(t.drafts[d]) && (d in st.drafts ==> !IsTerminal(st.drafts[d]))
  }

  // No draft that becomes terminal in this step is in the hands of an operation that may
  // still write its copy back.
  ghost predicate FinishesAlone(s: Sys, t: Sys) {
    forall d :: Finishes(s.st, t.st, d) ==> HeldByNone(t, d)
  }

  // An operation takes a copy of a draft only in a state that is not terminal.
  lemma CopiesAreFresh(st: Stores, p: Proc, c: Choice, d: nat)
    requires d < st.next && Holds(Step(st, p, c).1, d) && !Holds(p, d)
    ensures d in st.drafts && !IsTerminal(st.drafts[d]) && Step(st, p, c).0.drafts == st.drafts
  {
    if IsCreate(p) || IsUpdate(p) { SavesCopyFresh(st, p, c, d); } else { OthersCopyFresh(st, p, c, d); }
  }

  lemma SavesCopyFresh(st: Stores, p: Proc, c: Choice, d: nat)
    requires Holds(Step(st, p, c).1, d) && !Holds(p, d) && (IsCreate(p) || IsUpdate(p))
    ensures d in st.drafts && !IsTerminal(st.drafts[d]) && Step(st, p, c).0.drafts == st.drafts
  {
  }

  lemma OthersCopyFresh(st: Stores, p: Proc, c: Choice, d: nat)
    requires d < st.next && Holds(Step(st, p, c).1, d) && !Holds(p, d) && !IsCreate(p) && !IsUpdate(p)
    ensures d in st.drafts && !IsTerminal(st.drafts[d]) && Step(st, p, c).0.drafts == st.drafts
  {
  }

  ghost predicate FinishedAreFree(s: Sys) {
    forall d :: d in s.st.drafts && IsTerminal(s.st.drafts[d]) ==> HeldByNone(s, d)
  }

  lemma FreeIsNotOverwritten(s: Sys, a: Action)
    requires FinishedAreFree(s)
    ensures !OverwritesIn(s, a)
  {
    if OverwritesIn(s, a) {
      var p := s.procs[a.pid];
      assert Holds(p, Writing(p).value.0);
    }
  }

  lemma NextIsFree(s: Sys, a: Action)
    requires OldIds(s.st) && FinishedAreFree(s) && FinishesAlone(s, Next(s, a))
    ensures FinishedAreFree(Next(s, a))
  {
    var t := Next(s, a);
    forall d | d in t.st.drafts && IsTerminal(t.st.drafts[d]) ensures HeldByNone(t, d) {
      if !Finishes(s.st, t.st, d) {
        forall x | 0 <= x < |t.procs| ensures !Holds(t.procs[x], d) { StaysUnheld(s, a, d, x); }
      }
    }
  }

  lemma StaysUnheld(s: Sys, a: Action, d: nat, x: nat)
    requires OldIds(s.st) && d in s.st.drafts && IsTerminal(s.st.drafts[d]) && HeldByNone(s, d)
    requires x < |Next(s, a).procs|
    ensures !Holds(Next(s, a).procs[x], d)
  {
    if x >= |s.procs| {
      BeginHoldsNothing(a.op, d);
    } else if a.Advance? && a.pid == x && Holds(Next(s, a).procs[x], d) {
      CopiesAreFresh(s.st, s.procs[x], a.choice, d);
    }
  }

  lemma BeginHoldsNothing(op: Op, d: nat)
    ensures !Holds(Begin(op), d)
  {
  }

  lemma {:induction false} FreeUpTo(actions: seq<Action>, n: nat)
    requires n <= |actions|
    requires forall i :: 0 <= i < |actions| ==> FinishesAlone(At(actions, i), At(actions, i + 1))
    ensures FinishedAreFree(At(actions, n))
    decreases n
  {
    if n == 0 {
      assert actions[..0] == [];
    } else {
      FreeUpTo(actions, n - 1);
      AtGrows(actions, n - 1);
      NextIsFree(At(actions, n - 1), actions[n - 1]);
    }
  }

  // Terminal states are final in every run in which drafts become terminal only while no
  // unfinished operation has a copy that it may still write back.
  lemma FinalWhenAlone(actions: seq<Action>)
    requires forall i :: 0 <= i < |actions| ==> FinishesAlone(At(actions, i), At(actions, i + 1))
    ensures Final(actions)
  {
    forall i | 0 <= i < |actions| ensures !OverwritesIn(At(actions, i), actions[i]) {
      FreeUpTo(actions, i);
      FreeIsNotOverwritten(At(actions, i), actions[i]);
    }
    FinalExactly(actions);
  }
}
