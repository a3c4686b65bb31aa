// Who can notice that the retention pass has marked a draft expired: exactly which steps
// answer differently, and that a run without such a step is the run without the marks.
module DraftExpiry {
  import opened Prelude
  import opened ScreenshotModel
  import opened SagaSystem

  // ---- Stores with and without marks ----

  // b is a, except that some drafts whose time has come are marked expired.
  ghost predicate Veiled(a: Stores, b: Stores) {
    && a.files == b.files && a.rows == b.rows && a.cleanups == b.cleanups && a.next == b.next && a.now == b.now
    && VeiledDrafts(a.drafts, b.drafts, a.now)
  }

  ghost predicate VeiledDrafts(a: map<nat, Draft>, b: map<nat, Draft>, now: nat) {
    && (forall d :: d in a <==> d in b)
    && (forall d :: d in a ==> Veil(a[d], b[d], now))
  }

  lemma PutSeesNoVeil(a: Stores, b: Stores, d: nat, draft: Draft)
    requires Veiled(a, b) && d in a.drafts
    ensures Veiled(PutDraft(a, d, draft), PutDraft(b, d, draft))
  {
  }

  predicate Veil(a: Draft, b: Draft, now: nat) {
    a == b || (a.expires <= now && b == a.(state := Expired))
  }

  lemma DropSeesNoVeil(a: Stores, b: Stores, id: nat)
    requires Veiled(a, b)
    ensures Veiled(DropRow(a, id), DropRow(b, id))
  {
  }

  lemma CreatingSeesNoVeil(a: Stores, b: Stores, p: Proc, c: Choice)
    requires Veiled(a, b) && (p.CreatePromote? || p.CreateWrite? || p.CreateUndo?)
    ensures Step(a, p, c).1 == Step(b, p, c).1 && Veiled(Step(a, p, c).0, Step(b, p, c).0)
  {
  }

  lemma ConsumingSeesNoVeil(a: Stores, b: Stores, p: Proc, c: Choice)
    requires Veiled(a, b) && (p.CreateConsume? || p.UpdateConsume?)
    ensures Step(a, p, c).1 == Step(b, p, c).1 && Veiled(Step(a, p, c).0, Step(b, p, c).0)
  {
    if p.use.id in a.drafts { PutSeesNoVeil(a, b, p.use.id, p.use.draft.(state := Consumed)); }
  }

  lemma FindingSeesNoVeil(a: Stores, b: Stores, p: Proc, c: Choice)
    requires Veiled(a, b) && p.UpdateFind?
    ensures Step(a, p, c).1 == Step(b, p, c).1 && Veiled(Step(a, p, c).0, Step(b, p, c).0)
  {
  }

  lemma UpdatingSeesNoVeil(a: Stores, b: Stores, p: Proc, c: Choice)
    requires Veiled(a, b) && (p.UpdatePromote? || p.UpdateUndo? || p.UpdateRetire? || p.UpdateQueue?)
    ensures Step(a, p, c).1 == Step(b, p, c).1 && Veiled(Step(a, p, c).0, Step(b, p, c).0)
  {
  }

  lemma SwappingSeesNoVeil(a: Stores, b: Stores, p: Proc, c: Choice)
    requires Veiled(a, b) && p.UpdateWrite?
    ensures Step(a, p, c).1 == Step(b, p, c).1 && Veiled(Step(a, p, c).0, Step(b, p, c).0)
  {
  }

  lemma DroppingSeesNoVeil(a: Stores, b: Stores, p: Proc, c: Choice)
    requires Veiled(a, b) && p.DeleteWrite?
    ensures Step(a, p, c).1 == Step(b, p, c).1 && Veiled(Step(a, p, c).0, Step(b, p, c).0)
  {
    DropSeesNoVeil(a, b, p.b);
  }

  lemma UndeletingSeesNoVeil(a: Stores, b: Stores, p: Proc, c: Choice)
    requires Veiled(a, b) && (p.DeleteRestore? || p.DeleteUnlink? || p.DeleteQueue?)
    ensures Step(a, p, c).1 == Step(b, p, c).1 && Veiled(Step(a, p, c).0, Step(b, p, c).0)
  {
  }

  lemma DeletingSeesNoVeil(a: Stores, b: Stores, p: Proc, c: Choice)
    requires Veiled(a, b) && (p.DeleteFind? || p.DeleteQuarantine?)
    ensures Step(a, p, c).1 == Step(b, p, c).1 && Veiled(Step(a, p, c).0, Step(b, p, c).0)
  {
  }

  lemma StartingSeesNoVeil(a: Stores, b: Stores, p: Proc, c: Choice)
    requires Veiled(a, b) && p.CaptureCreate?
    ensures Step(a, p, c).1 == Step(b, p, c).1 && Veiled(Step(a, p, c).0, Step(b, p, c).0)
  {
  }

  lemma CapturingSeesNoVeil(a: Stores, b: Stores, p: Proc, c: Choice)
    requires Veiled(a, b) && (p.CaptureShoot? || p.CaptureValidate?)
    ensures Step(a, p, c).1 == Step(b, p, c).1 && Veiled(Step(a, p, c).0, Step(b, p, c).0)
  {
  }

  lemma WritingSeesNoVeil(a: Stores, b: Stores, p: Proc, c: Choice)
    requires Veiled(a, b) && p.CaptureWrite?
    ensures Step(a, p, c).1 == Step(b, p, c).1 && Veiled(Step(a, p, c).0, Step(b, p, c).0)
  {
    if p.use.id in a.drafts { PutSeesNoVeil(a, b, p.use.id, p.use.draft); }
  }

  lemma RetryingSeesNoVeil(a: Stores, b: Stores, p: Proc, c: Choice)
    requires Veiled(a, b) && p.RetryWrite?
    ensures Step(a, p, c).1 == Step(b, p, c).1 && Veiled(Step(a, p, c).0, Step(b, p, c).0)
  {
    if p.use.id in a.drafts { PutSeesNoVeil(a, b, p.use.id, p.use.draft); }
  }

  lemma DiscardingSeesNoVeil(a: Stores, b: Stores, p: Proc, c: Choice)
    requires Veiled(a, b) && (p.DiscardFile? || p.DiscardWrite?)
    ensures Step(a, p, c).1 == Step(b, p, c).1 && Veiled(Step(a, p, c).0, Step(b, p, c).0)
  {
    if p.DiscardWrite? && p.use.id in a.drafts { PutSeesNoVeil(a, b, p.use.id, p.use.draft.(state := Discarded)); }
  }

  // ---- The steps that notice a mark ----

  // The draft that a step looks up before it decides.
  function ReadBy(p: Proc): Option<nat> {
    match p
    case CreateFind(_, _, id) => Some(id)
    case UpdateFindDraft(_, _, _, _, id) => Some(id)
    case RetryFind(_, id) => Some(id)
    case DiscardFind(_, id) => Some(id)
    case _ => None
  }

  // The step would go on with the unmarked draft: a save within its lifetime, to the very
  // instant of expiry, likewise a retry, and a discard at any time.
  predicate GoesOnWith(draft: Draft, p: Proc, c: Choice, now: nat) {
    !c.fail &&
    match p
    case CreateFind(input, url, _) => UsableBy(draft, input.session, url, now) && draft.state == Ready
    case UpdateFindDraft(b, session, url, _, _) =>
      UsableBy(draft, session, url, now) && draft.bookmark == Some(b) && draft.state == Ready
    case RetryFind(session, _) => draft.owner == session && draft.state == Failed && !IsExpired(draft, now)
    case DiscardFind(session, _) => draft.owner == session && CanDiscard(draft)
    case _ => false
  }

  // The step reads a draft that is marked in b only, and would go on without the mark.
  predicate Notices(a: Stores, b: Stores, p: Proc, c: Choice) {
    && ReadBy(p).Some?
    && var d := ReadBy(p).value;
       d in a.drafts && d in b.drafts && a.drafts[d] != b.drafts[d] && GoesOnWith(a.drafts[d], p, c, a.now)
  }

  lemma LookupNotices(a: Stores, b: Stores, input: SaveInput, url: string, id: nat, c: Choice)
    requires Veiled(a, b)
    ensures AfterCreateFind(a, input, url, id, c.fail) == AfterCreateFind(b, input, url, id, c.fail)
            <==> !Notices(a, b, CreateFind(input, url, id), c)
  {
  }

  lemma CreatingNotices(a: Stores, b: Stores, p: Proc, c: Choice)
    requires Veiled(a, b) && p.CreateFind?
    ensures Step(a, p, c).1 == Step(b, p, c).1 <==> !Notices(a, b, p, c)
    ensures Step(a, p, c).0 == a && Step(b, p, c).0 == b
  {
    LookupNotices(a, b, p.input, p.url, p.id, c);
  }

  lemma UpdatingNotices(a: Stores, b: Stores, p: Proc, c: Choice)
    requires Veiled(a, b) && p.UpdateFindDraft?
    ensures Step(a, p, c).1 == Step(b, p, c).1 <==> !Notices(a, b, p, c)
    ensures Step(a, p, c).0 == a && Step(b, p, c).0 == b
  {
  }

  lemma RetryingNotices(a: Stores, b: Stores, p: Proc, c: Choice)
    requires Veiled(a, b) && p.RetryFind?
    ensures Step(a, p, c).1 == Step(b, p, c).1 <==> !Notices(a, b, p, c)
    ensures Step(a, p, c).0 == a && Step(b, p, c).0 == b
  {
  }

  lemma DiscardingNotices(a: Stores, b: Stores, p: Proc, c: Choice)
    requires Veiled(a, b) && p.DiscardFind?
    ensures Step(a, p, c).1 == Step(b, p, c).1 <==> !Notices(a, b, p, c)
    ensures Step(a, p, c).0 == a && Step(b, p, c).0 == b
  {
  }

  lemma StepNotices(a: Stores, b: Stores, p: Proc, c: Choice)
    requires Veiled(a, b)
    ensures Step(a, p, c).1 == Step(b, p, c).1 <==> !Notices(a, b, p, c)
    ensures Veiled(Step(a, p, c).0, Step(b, p, c).0)
  {
    if p.CreateFind? { CreatingNotices(a, b, p, c); }
    else if p.UpdateFindDraft? { UpdatingNotices(a, b, p, c); }
    else if p.RetryFind? { RetryingNotices(a, b, p, c); }
    else if p.DiscardFind? { DiscardingNotices(a, b, p, c); }
    else { BlindStep(a, b, p, c); }
  }

  lemma BlindStep(a: Stores, b: Stores, p: Proc, c: Choice)
    requires Veiled(a, b) && ReadBy(p).None?
    ensures Step(a, p, c).1 == Step(b, p, c).1 && Veiled(Step(a, p, c).0, Step(b, p, c).0)
  {
    if p.CreateConsume? || p.UpdateConsume? { ConsumingSeesNoVeil(a, b, p, c); }
    else if p.UpdateFind? { FindingSeesNoVeil(a, b, p, c); }
    else if IsCreate(p) { CreatingSeesNoVeil(a, b, p, c); }
    else if p.UpdateWrite? { SwappingSeesNoVeil(a, b, p, c); }
    else if IsUpdate(p) { UpdatingSeesNoVeil(a, b, p, c); }
    else { OtherSeesNoVeil(a, b, p, c); }
  }

  lemma OtherSeesNoVeil(a: Stores, b: Stores, p: Proc, c: Choice)
    requires Veiled(a, b) && !IsCreate(p) && !IsUpdate(p) && ReadBy(p).None?
    ensures Step(a, p, c).1 == Step(b, p, c).1 && Veiled(Step(a, p, c).0, Step(b, p, c).0)
  {
    if p.DeleteWrite? { DroppingSeesNoVeil(a, b, p, c); }
    else if p.DeleteRestore? || p.DeleteUnlink? || p.DeleteQueue? { UndeletingSeesNoVeil(a, b, p, c); }
    else if IsDelete(p) { DeletingSeesNoVeil(a, b, p, c); }
    else if p.CaptureCreate? { StartingSeesNoVeil(a, b, p, c); }
    else if p.CaptureWrite? { WritingSeesNoVeil(a, b, p, c); }
    else if p.RetryWrite? { RetryingSeesNoVeil(a, b, p, c); }
    else if p.DiscardFile? || p.DiscardWrite? { DiscardingSeesNoVeil(a, b, p, c); }
    else if IsCapture(p) { CapturingSeesNoVeil(a, b, p, c); }
  }

  // Marking a draft whose time has come changes what a step does if and only if the step
  // looks that draft up and would go on with it unmarked.
  lemma MarkShowsExactly(st: Stores, d: nat, p: Proc, c: Choice)
    requires d in st.drafts && st.drafts[d].expires <= st.now && !IsTerminal(st.drafts[d])
    ensures Step(ExpireSome(st, {d}), p, c).1 != Step(st, p, c).1
            <==> ReadBy(p) == Some(d) && GoesOnWith(st.drafts[d], p, c, st.now)
  {
    StepNotices(st, ExpireSome(st, {d}), p, c);
  }

  // Past the lifetime of the draft only a discard can tell; a save or retry can at the
  // very instant of expiry, when retention already marks and the draft is still usable.
  lemma SavesNoticeAtTheInstant(a: Stores, b: Stores, p: Proc, c: Choice)
    requires Veiled(a, b) && Notices(a, b, p, c) && !p.DiscardFind?
    ensures var draft := a.drafts[ReadBy(p).value];
            !IsExpired(draft, a.now) && (draft.expires == a.now || draft.expires == 0)
  {
  }

  // ---- Whole runs ----

  // The same run without a retention pass over drafts.
  function Unswept(actions: seq<Action>): seq<Action> {
    if |actions| == 0 then []
    else
      var init, last := Unswept(actions[..|actions| - 1]), actions[|actions| - 1];
      if last.ExpireDrafts? then init else init + [last]
  }

  ghost predicate SameBut(a: Sys, b: Sys) {
    Veiled(a.st, b.st) && a.procs == b.procs && a.left == b.left && a.stranded == b.stranded
  }

  // The runs with and without retention agree, but for the marks, after i actions.
  ghost predicate SameAt(actions: seq<Action>, i: nat)
    requires i <= |actions|
  {
    SameBut(Run(START, Unswept(actions[..i])), Run(START, actions[..i]))
  }

  // And so they do at every point.
  ghost predicate Unnoticed(actions: seq<Action>) {
    forall i :: 0 <= i <= |actions| ==> SameAt(actions, i)
  }

  // Action i of the run is a step that notices a mark.
  ghost predicate NoticesAt(actions: seq<Action>, i: nat)
    requires i < |actions|
  {
    var a, b := Run(START, Unswept(actions[..i])), Run(START, actions[..i]);
    && actions[i].Advance? && actions[i].pid < |a.procs|
    && Notices(a.st, b.st, a.procs[actions[i].pid], actions[i].choice)
  }

  lemma LeavesTheSame(a: Stores, b: Stores, p: Proc, c: Choice)
    requires Veiled(a, b)
    ensures Left(a, p, c) == Left(b, p, c) && Strands(a, p, c) == Strands(b, p, c)
  {
  }

  lemma AdvanceNotices(a: Sys, b: Sys, pid: nat, c: Choice)
    requires SameBut(a, b) && pid < |a.procs|
    ensures SameBut(Next(a, Advance(pid, c)), Next(b, Advance(pid, c))) <==> !Notices(a.st, b.st, a.procs[pid], c)
  {
    var p := a.procs[pid];
    StepNotices(a.st, b.st, p, c);
    LeavesTheSame(a.st, b.st, p, c);
    assert Next(a, Advance(pid, c)).procs[pid] == Step(a.st, p, c).1;
    assert Next(b, Advance(pid, c)).procs[pid] == Step(b.st, p, c).1;
  }

  lemma MarkingIsSame(a: Sys, b: Sys, due: set<nat>)
    requires SameBut(a, b)
    ensures SameBut(a, Next(b, ExpireDrafts(due)))
  {
  }

  lemma OutsideIsSame(a: Sys, b: Sys, action: Action)
    requires SameBut(a, b) && (action.Spawn? || action.Tick? || action.DropDrafts?)
    ensures SameBut(Next(a, action), Next(b, action))
  {
  }

  lemma NextNotices(a: Sys, b: Sys, action: Action)
    requires SameBut(a, b)
    ensures SameBut(if action.ExpireDrafts? then a else Next(a, action), Next(b, action))
            <==> !(action.Advance? && action.pid < |a.procs|
                   && Notices(a.st, b.st, a.procs[action.pid], action.choice))
  {
    match action
    case Advance(pid, c) => if pid < |a.procs| { AdvanceNotices(a, b, pid, c); }
    case ExpireDrafts(due) => MarkingIsSame(a, b, due);
    case _ => OutsideIsSame(a, b, action);
  }

  lemma RunsGrow(actions: seq<Action>, i: nat)
    requires i < |actions|
    ensures Run(START, actions[..i + 1]) == Next(Run(START, actions[..i]), actions[i])
    ensures var a := Run(START, Unswept(actions[..i]));
            Run(START, Unswept(actions[..i + 1])) == if actions[i].ExpireDrafts? then a else Next(a, actions[i])
  {
    var longer, shorter := actions[..i + 1], Unswept(actions[..i]);
    assert longer[..|longer| - 1] == actions[..i];
    assert (shorter + [actions[i]])[..|shorter|] == shorter;
  }

  lemma SameAfter(actions: seq<Action>, i: nat)
    requires i < |actions| && SameAt(actions, i)
    ensures SameAt(actions, i + 1) <==> !NoticesAt(actions, i)
  {
    RunsGrow(actions, i);
    NextNotices(Run(START, Unswept(actions[..i])), Run(START, actions[..i]), actions[i]);
  }

  lemma {:induction false} SameUpTo(actions: seq<Action>, n: nat)
    requires n <= |actions| && forall i :: 0 <= i < n ==> !NoticesAt(actions, i)
    ensures SameAt(actions, n)
    decreases n
  {
    if n == 0 {
      assert actions[..0] == [];
    } else {
      SameUpTo(actions, n - 1);
      SameAfter(actions, n - 1);
    }
  }

  // Retention changes nothing but the marks, in any interleaving of saves, deletions,
  // captures, retries and discards, if and only if no step of the run notices one.
  lemma UnnoticedExactly(actions: seq<Action>)
    ensures Unnoticed(actions) <==> forall i :: 0 <= i < |actions| ==> !NoticesAt(actions, i)
  {
    if Unnoticed(actions) {
      forall i | 0 <= i < |actions| ensures !NoticesAt(actions, i) {
        assert SameAt(actions, i) && SameAt(actions, i + 1);
        SameAfter(actions, i);
      }
    } else {
      var n :| 0 <= n <= |actions| && !SameAt(actions, n);
      if forall i :: 0 <= i < n ==> !NoticesAt(actions, i) { SameUpTo(actions, n); }
    }
  }

  // Action i looks up a draft at the very instant of its expiry, or would discard one
  // whose lifetime is over.
  ghost predicate TouchesExpiry(actions: seq<Action>, i: nat)
    requires i < |actions|
  {
    var a := Run(START, Unswept(actions[..i]));
    && actions[i].Advance? && actions[i].pid < |a.procs|
    && var p := a.procs[actions[i].pid];
       && ReadBy(p).Some? && ReadBy(p).value in a.st.drafts
       && var draft := a.st.drafts[ReadBy(p).value];
          if p.DiscardFind? then draft.expires <= a.st.now && CanDiscard(draft)
          else draft.expires <= a.st.now && !IsExpired(draft, a.st.now)
  }

  lemma NoticingTouches(actions: seq<Action>, i: nat)
    requires i < |actions| && SameAt(actions, i) && NoticesAt(actions, i)
    ensures TouchesExpiry(actions, i)
  {
    var a, b := Run(START, Unswept(actions[..i])), Run(START, actions[..i]);
    var p := a.procs[actions[i].pid];
    if !p.DiscardFind? { SavesNoticeAtTheInstant(a.st, b.st, p, actions[i].choice); }
  }

  lemma {:induction false} UntouchedUpTo(actions: seq<Action>, n: nat)
    requires n <= |actions| && forall i :: 0 <= i < n ==> !TouchesExpiry(actions, i)
    ensures SameAt(actions, n)
    decreases n
  {
    if n == 0 {
      assert actions[..0] == [];
    } else {
      UntouchedUpTo(actions, n - 1);
      SameAfter(actions, n - 1);
      if NoticesAt(actions, n - 1) { NoticingTouches(actions, n - 1); }
    }
  }

  // So apart from looking drafts up at that instant, and discards from then on, nothing
  // that anyone does can tell whether retention has run.
  lemma ExpiryIsUnnoticed(actions: seq<Action>)
    requires forall i :: 0 <= i < |actions| ==> !TouchesExpiry(actions, i)
    ensures Unnoticed(actions)
  {
    forall n | 0 <= n <= |actions| ensures SameAt(actions, n) { UntouchedUpTo(actions, n); }
  }
}
