// Who can use a draft: in every interleaving only its owner's operations change it, and
// only a save of the address it was taken for can consume it.
module DraftOwners {
  import opened Prelude
  import opened ScreenshotModel
  import opened SagaSystem

  // The operation that each process was started for.
  function Ops(actions: seq<Action>): seq<Op>
    decreases |actions|
  {
    if |actions| == 0 then []
    else
      var last := actions[|actions| - 1];
      Ops(actions[..|actions| - 1]) + if last.Spawn? then [last.op] else []
  }

  function SessionOf(op: Op): Option<nat> {
    match op
    case Create(input) => Some(input.session)
    case Update(_, input) => Some(input.session)
    case StartCapture(session, _, _, _) => Some(session)
    case RetryCapture(session, _) => Some(session)
    case DiscardCapture(session, _) => Some(session)
    case _ => None
  }

  predicate Owns(op: Op, use: Consumption) {
    SessionOf(op) == Some(use.draft.owner)
  }

  // The operation asked for this draft, to save the address the draft was taken for.
  predicate AsksFor(op: Op, use: Consumption) {
    && (op.Create? || op.Update?) && Owns(op, use)
    && op.input.capture == Some(use.id) && op.input.url == Some(use.draft.target)
    && (op.Update? ==> use.draft.bookmark == Some(op.bookmark))
  }

  predicate Fits(op: Op, p: Proc) {
    match p
    case CreateFind(input, url, id) => op == Op.Create(input) && input.url == Some(url) && input.capture == Some(id)
    case CreatePromote(url, use) => AsksFor(op, use)
    case CreateConsume(url, use, _) => AsksFor(op, use)
    case UpdateFind(b, input) => op == Op.Update(b, input)
    case UpdateFindDraft(b, session, url, _, id) =>
      op.Update? && op.bookmark == b && op.input.session == session && op.input.url == Some(url)
          && op.input.capture == Some(id)
    case UpdatePromote(b, url, _, use) => AsksFor(op, use)
    case UpdateWrite(b, url, _, _, _, consume) => consume.Some? ==> AsksFor(op, consume.value)
    case UpdateConsume(use, _, _) => AsksFor(op, use)
    case CaptureCreate(session, _, _, _) => SessionOf(op) == Some(session)
    case RetryFind(session, _) => SessionOf(op) == Some(session)
    case DiscardFind(session, _) => SessionOf(op) == Some(session)
    case CaptureShoot(use) => Owns(op, use) && use.draft.state != Consumed
    case CaptureValidate(use, _, _) => Owns(op, use) && use.draft.state != Consumed
    case CaptureWrite(use) => Owns(op, use) && use.draft.state != Consumed
    case RetryWrite(use) => Owns(op, use) && use.draft.state != Consumed
    case DiscardFile(use, _) => Owns(op, use)
    case DiscardWrite(use) => Owns(op, use)
    case _ => true
  }

  function UseOf(p: Proc): Option<Consumption> {
    match p
    case CreatePromote(_, use) => Some(use)
    case CreateConsume(_, use, _) => Some(use)
    case UpdatePromote(_, _, _, use) => Some(use)
    case UpdateWrite(_, _, _, _, _, consume) => consume
    case UpdateConsume(use, _, _) => Some(use)
    case CaptureShoot(use) => Some(use)
    case CaptureValidate(use, _, _) => Some(use)
    case CaptureWrite(use) => Some(use)
    case RetryWrite(use) => Some(use)
    case DiscardFile(use, _) => Some(use)
    case DiscardWrite(use) => Some(use)
    case _ => None
  }

  // The later draft has the same owner and address, and the same bookmark if any.
  predicate SameSource(a: Draft, b: Draft) {
    b.owner == a.owner && b.target == a.target && (b.bookmark == a.bookmark || b.bookmark == None)
  }

  // A private copy of a draft has the source of the stored draft.
  predicate Faithful(st: Stores, p: Proc) {
    UseOf(p).Some? ==>
      var use := UseOf(p).value;
      use.id < st.next
      && (use.id in st.drafts ==> SameSource(use.draft, st.drafts[use.id]))
  }

  ghost predicate Inv(s: Sys, ops: seq<Op>) {
    && |ops| == |s.procs|
    && (forall d :: d in s.st.drafts ==> d < s.st.next)
    && (forall pid :: 0 <= pid < |ops| ==> Fits(ops[pid], s.procs[pid]) && Faithful(s.st, s.procs[pid]))
  }

  ghost predicate OldIds(st: Stores) {
    forall d :: d in st.drafts ==> d < st.next
  }

  lemma SavingFits(st: Stores, op: Op, p: Proc, c: Choice)
    requires OldIds(st) && Fits(op, p) && Faithful(st, p) && (IsCreate(p) || IsUpdate(p))
    ensures var (t, q) := Step(st, p, c); Fits(op, q) && Faithful(t, q)
  {
  }

  lemma CapturingFits(st: Stores, op: Op, p: Proc, c: Choice)
    requires OldIds(st) && Fits(op, p) && Faithful(st, p)
            && (p.CaptureCreate? || p.CaptureShoot? || p.CaptureValidate? || p.CaptureWrite?)
    ensures var (t, q) := Step(st, p, c); Fits(op, q) && Faithful(t, q)
  {
  }

  lemma RetryingFits(st: Stores, op: Op, p: Proc, c: Choice)
    requires OldIds(st) && Fits(op, p) && Faithful(st, p) && (p.RetryFind? || p.RetryWrite?)
    ensures var (t, q) := Step(st, p, c); Fits(op, q) && Faithful(t, q)
  {
  }

  lemma DiscardingFits(st: Stores, op: Op, p: Proc, c: Choice)
    requires OldIds(st) && Fits(op, p) && Faithful(st, p) && (p.DiscardFind? || p.DiscardFile? || p.DiscardWrite?)
    ensures var (t, q) := Step(st, p, c); Fits(op, q) && Faithful(t, q)
  {
  }

  lemma OtherFits(st: Stores, op: Op, p: Proc, c: Choice)
    requires OldIds(st) && Fits(op, p) && Faithful(st, p) && !IsCreate(p) && !IsUpdate(p) && !IsCapture(p)
    ensures var (t, q) := Step(st, p, c); Fits(op, q) && Faithful(t, q)
  {
  }

  lemma StepFits(st: Stores, op: Op, p: Proc, c: Choice)
    requires OldIds(st) && Fits(op, p) && Faithful(st, p)
    ensures var (t, q) := Step(st, p, c); Fits(op, q) && Faithful(t, q)
  {
    if p.CaptureCreate? || p.CaptureShoot? || p.CaptureValidate? || p.CaptureWrite? { CapturingFits(st, op, p, c); }
    else if p.RetryFind? || p.RetryWrite? { RetryingFits(st, op, p, c); }
    else if IsCapture(p) { DiscardingFits(st, op, p, c); }
    else if IsCreate(p) || IsUpdate(p) { SavingFits(st, op, p, c); }
    else { OtherFits(st, op, p, c); }
  }

  // What a step may do to drafts: the old ones keep owner and address, new ones are new.
  ghost predicate Keeps(st: Stores, t: Stores) {
    && st.next <= t.next && OldIds(t)
    && forall d :: d in t.drafts && d < st.next ==>
         d in st.drafts && SameSource(st.drafts[d], t.drafts[d])
  }

  lemma SavingKeeps(st: Stores, p: Proc, c: Choice)
    requires OldIds(st) && (IsCreate(p) || IsUpdate(p))
    ensures Keeps(st, Step(st, p, c).0)
  {
  }

  lemma CapturingKeeps(st: Stores, p: Proc, c: Choice)
    requires OldIds(st) && IsCapture(p)
    ensures Keeps(st, Step(st, p, c).0)
  {
  }

  lemma StepKeeps(st: Stores, p: Proc, c: Choice)
    requires OldIds(st)
    ensures Keeps(st, Step(st, p, c).0)
  {
    if IsCapture(p) { CapturingKeeps(st, p, c); }
    else if IsCreate(p) || IsUpdate(p) { SavingKeeps(st, p, c); }
  }

  lemma OthersFaithful(st: Stores, t: Stores, p: Proc)
    requires Keeps(st, t) && Faithful(st, p)
    ensures Faithful(t, p)
  {
  }

  lemma AdvanceKeeps(s: Sys, ops: seq<Op>, pid: nat, c: Choice)
    requires Inv(s, ops) && pid < |s.procs|
    ensures Inv(Next(s, Advance(pid, c)), ops)
  {
    var t := Next(s, Advance(pid, c));
    StepKeeps(s.st, s.procs[pid], c);
    StepFits(s.st, ops[pid], s.procs[pid], c);
    forall q | 0 <= q < |ops| && q != pid ensures Fits(ops[q], t.procs[q]) && Faithful(t.st, t.procs[q]) {
      OthersFaithful(s.st, t.st, s.procs[q]);
    }
  }

  lemma SpawnFits(st: Stores, op: Op)
    ensures Fits(op, Begin(op)) && Faithful(st, Begin(op))
  {
  }

  lemma {:induction false} Reachable(actions: seq<Action>)
    ensures Inv(Run(START, actions), Ops(actions))
    decreases |actions|
  {
    if |actions| > 0 {
      var init, last := actions[..|actions| - 1], actions[|actions| - 1];
      var s := Run(START, init);
      Reachable(init);
      match last
      case Advance(pid, c) => if pid < |s.procs| { AdvanceKeeps(s, Ops(init), pid, c); }
      case Spawn(op) => SpawnFits(s.st, op);
      case _ =>
        forall pid | 0 <= pid < |s.procs| ensures Faithful(Next(s, last).st, s.procs[pid]) {
          OthersFaithful(s.st, Next(s, last).st, s.procs[pid]);
        }
    }
  }

  // Some field that only a use of the draft changes.
  predicate Touched(a: Draft, b: Draft) {
    a.state != b.state || a.staged != b.staged || a.final != b.final || a.failure != b.failure
  }

  // A save named this draft and its address, and an update the bookmark it is bound to,
  // if that is still there.
  predicate Names(op: Op, d: nat, draft: Draft) {
    && (op.Create? || op.Update?)
    && op.input.capture == Some(d) && op.input.url == Some(draft.target)
    && (op.Update? ==> draft.bookmark == Some(op.bookmark) || draft.bookmark == None)
  }

  lemma CreatingTouches(st: Stores, op: Op, p: Proc, c: Choice, d: nat)
    requires Fits(op, p) && Faithful(st, p) && IsCreate(p)
    requires d in st.drafts && d in Step(st, p, c).0.drafts && Touched(st.drafts[d], Step(st, p, c).0.drafts[d])
    ensures SessionOf(op) == Some(st.drafts[d].owner)
    ensures Names(op, d, st.drafts[d])
  {
  }

  lemma UpdatingTouches(st: Stores, op: Op, p: Proc, c: Choice, d: nat)
    requires Fits(op, p) && Faithful(st, p) && IsUpdate(p)
    requires d in st.drafts && d in Step(st, p, c).0.drafts && Touched(st.drafts[d], Step(st, p, c).0.drafts[d])
    ensures SessionOf(op) == Some(st.drafts[d].owner)
    ensures Names(op, d, st.drafts[d])
  {
  }

  lemma CapturingTouches(st: Stores, op: Op, p: Proc, c: Choice, d: nat)
    requires Fits(op, p) && Faithful(st, p) && IsCapture(p) && d < st.next
    requires d in st.drafts && d in Step(st, p, c).0.drafts && Touched(st.drafts[d], Step(st, p, c).0.drafts[d])
    ensures SessionOf(op) == Some(st.drafts[d].owner)
  {
  }

  lemma CapturingConsumesNothing(st: Stores, op: Op, p: Proc, c: Choice, d: nat)
    requires Fits(op, p) && IsCapture(p) && d < st.next
    requires d in st.drafts && d in Step(st, p, c).0.drafts && st.drafts[d].state != Consumed
    ensures Step(st, p, c).0.drafts[d].state != Consumed
  {
  }

  // This step of process pid makes draft d read as b.
  ghost predicate Changes(s: Sys, pid: nat, c: Choice, d: nat, b: Draft) {
    && pid < |s.procs| && d in s.st.drafts && d in Next(s, Advance(pid, c)).st.drafts
    && Next(s, Advance(pid, c)).st.drafts[d] == b && Touched(s.st.drafts[d], b)
  }

  // In every interleaving a draft changes only through an operation of the session that
  // owns it, and is consumed only by a save that named it, its address and its bookmark.
  lemma OnlyTheOwnerTouches(actions: seq<Action>, pid: nat, c: Choice, d: nat, b: Draft)
    requires Changes(Run(START, actions), pid, c, d, b)
    ensures pid < |Ops(actions)|
    ensures var a, op := Run(START, actions).st.drafts[d], Ops(actions)[pid];
            && SessionOf(op) == Some(a.owner)
            && (b.state == Consumed && a.state != Consumed ==> Names(op, d, a))
  {
    Reachable(actions);
    var s := Run(START, actions);
    var op, p := Ops(actions)[pid], s.procs[pid];
    assert Fits(op, p) && Faithful(s.st, p);
    if IsCapture(p) {
      CapturingTouches(s.st, op, p, c, d);
      if s.st.drafts[d].state != Consumed { CapturingConsumesNothing(s.st, op, p, c, d); }
    } else if IsCreate(p) { CreatingTouches(s.st, op, p, c, d); }
    else if IsUpdate(p) { UpdatingTouches(s.st, op, p, c, d); }
  }
}
