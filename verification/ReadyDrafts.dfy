// Drafts when operations run one at a time: ready drafts and their files, and the
// draft states that are final.
module ReadyDrafts {
  import opened Prelude
  import opened ScreenshotModel
  import opened SagaSystem
  import opened SagaLedger
  import opened SagaSerial
  import opened DraftLifecycle

  // ---- History: drafts that stay ready although their file was taken ----

  // The step ends an operation that took the draft's staged file but did not
  // record it: the new state was not written, or the bookmark was not.
  function Loses(st: Stores, p: Proc, c: Choice): set<nat> {
    match p
    case CreateConsume(_, use, _) => if c.fail then {use.id} else {}
    case UpdateWrite(b, _, _, _, _, consume) =>
      if (c.fail || b !in st.rows) && consume.Some? then {consume.value.id} else {}
    case UpdateConsume(use, _, _) => if c.fail then {use.id} else {}
    case DiscardWrite(use) =>
      if c.fail && use.draft.staged.Some? && use.draft.staged.value !in st.files then {use.id} else {}
    case _ => {}
  }

  function LostBy(s: Sys, pid: nat, script: seq<Choice>): set<nat>
    requires pid < |s.procs|
    decreases Calls(s.procs[pid])
  {
    if s.procs[pid].Done? then {}
    else
      StepsAreFew(s.st, s.procs[pid], Head(script));
      Loses(s.st, s.procs[pid], Head(script)) + LostBy(Next(s, Advance(pid, Head(script))), pid, Tail(script))
  }

  function LostIn(s: Sys, job: Job): set<nat> {
    if job.Perform? then LostBy(Next(s, Spawn(job.op)), |s.procs|, job.script) else {}
  }

  function Lost(jobs: seq<Job>): set<nat>
    decreases |jobs|
  {
    if |jobs| == 0 then {}
    else
      var init, job := jobs[..|jobs| - 1], jobs[|jobs| - 1];
      var s := DoAll(START, init);
      Lost(init) + LostIn(s, job)
  }

  // ---- The invariant ----

  // The draft whose file the running operation has taken.
  function Taken(p: Proc): Option<nat> {
    match p
    case CreateConsume(_, use, _) => Some(use.id)
    case UpdateWrite(_, _, _, _, _, consume) => if consume.Some? then Some(consume.value.id) else None
    case UpdateConsume(use, _, _) => Some(use.id)
    case DiscardWrite(use) => Some(use.id)
    case _ => None
  }

  ghost predicate Stored(st: Stores, use: Consumption) {
    use.id in st.drafts && st.drafts[use.id] == use.draft
  }

  ghost predicate Unclaimed(st: Stores, key: Key) {
    forall d :: d in st.drafts ==> st.drafts[d].staged != Some(key)
  }

  ghost predicate TakenFrom(st: Stores, use: Consumption) {
    && Stored(st, use) && use.draft.state == Ready
    && use.draft.staged.Some? && use.draft.staged.value !in st.files
  }

  // The running operation's copy of a draft is the stored one.
  ghost predicate UpToDate(st: Stores, p: Proc) {
    match p
    case CreatePromote(_, use) => Stored(st, use) && use.draft.state == Ready
    case CreateConsume(_, use, _) => TakenFrom(st, use)
    case UpdatePromote(_, _, _, use) => Stored(st, use) && use.draft.state == Ready
    case UpdateWrite(_, _, _, _, _, consume) => consume.Some? ==> TakenFrom(st, consume.value)
    case UpdateConsume(use, _, _) => TakenFrom(st, use)
    case CaptureShoot(use) => Stored(st, use) && use.draft.state == Capturing
    case CaptureValidate(use, key, _) =>
      Stored(st, use) && use.draft.state == Capturing && key in st.files && Unclaimed(st, key)
    case CaptureWrite(use) =>
      && use.id in st.drafts && st.drafts[use.id].state == Capturing
      && (use.draft.state == Ready || use.draft.state == Failed)
      && (use.draft.staged.Some? ==> use.draft.staged.value in st.files && Unclaimed(st, use.draft.staged.value))
    case RetryWrite(use) =>
      && use.id in st.drafts && st.drafts[use.id].state == Failed
      && use.draft == st.drafts[use.id].(state := Capturing, failure := NoFailure)
    case DiscardFile(use, key) => Stored(st, use) && CanDiscard(use.draft) && use.draft.staged == Some(key)
    case DiscardWrite(use) => Stored(st, use) && CanDiscard(use.draft)
    case _ => true
  }

  ghost predicate HasFile(st: Stores, d: nat)
    requires d in st.drafts
  {
    st.drafts[d].staged.Some? && st.drafts[d].staged.value in st.files
  }

  ghost predicate FileKept(st: Stores, p: Proc, d: nat, lost: set<nat>)
    requires d in st.drafts
  {
    st.drafts[d].state == Ready ==> if HasFile(st, d) then d !in lost else d in lost || Taken(p) == Some(d)
  }

  ghost predicate NoTwoShare(drafts: map<nat, Draft>) {
    forall d, e :: d in drafts && e in drafts && d != e && drafts[d].staged.Some? ==>
        drafts[d].staged != drafts[e].staged
  }

  ghost predicate Tidy(st: Stores, p: Proc, lost: set<nat>) {
    && UpToDate(st, p)
    && NoTwoShare(st.drafts)
    && (forall d :: d in st.drafts ==> FileKept(st, p, d, lost))
    && (forall d :: d in lost ==>
         d < st.next && (d in st.drafts ==> st.drafts[d].state == Ready || IsTerminal(st.drafts[d])))
  }

  // What else a step needs to know of the stores.
  ghost predicate Surroundings(st: Stores, p: Proc) {
    && CarriesWellFormed(p) && Formed(st.drafts)
    && (forall d :: d in st.drafts ==> d < st.next && DraftOk(st, st.drafts[d]))
    && (forall k :: k in st.files ==> k.id < st.next)
    && SparesStaging(p)
  }

  // The keys that the operation renames or removes outside a draft's business.
  predicate SparesStaging(p: Proc) {
    var kn := Know(p);
    && (kn.undoing.Some? ==> kn.undoing.value.area != Staging)
    && (kn.doomed.Some? ==> kn.doomed.value.area != Staging)
    && (kn.unlinking.Some? ==> kn.unlinking.value.area != Staging)
    && (kn.window.Some? ==> kn.window.value.1.q.area != Staging && kn.window.value.1.home.area != Staging)
    && (kn.recalled.Some? ==> kn.recalled.value.1.area != Staging)
    && (forall i :: 0 <= i < |kn.claims| ==> kn.claims[i].record.key.area != Staging)
  }

  lemma InSurroundings(s: Sys, l: Ledger, pid: nat)
    requires Context(s, l, pid) && AllWellFormed(s)
    ensures Surroundings(s.st, s.procs[pid])
  {
    var kn := Know(s.procs[pid]);
    forall i | 0 <= i < |kn.claims| ensures kn.claims[i].record.key.area != Staging {
      assert DeadIn(l, s.st.cleanups[kn.claims[i].id].key);
    }
  }

  // ---- Every step keeps it ----

  // Drafts may only be unbound, and no staged file comes or goes.
  ghost predicate LeavesDrafts(st: Stores, t: Stores) {
    && st.next <= t.next
    && (forall d :: d in st.drafts <==> d in t.drafts)
    && (forall d :: d in st.drafts ==>
         t.drafts[d].state == st.drafts[d].state && t.drafts[d].staged == st.drafts[d].staged)
    && (forall k: Key :: k.area == Staging ==> (k in st.files <==> k in t.files))
  }

  lemma LeavesTidy(st: Stores, p: Proc, t: Stores, q: Proc, lost: set<nat>)
    requires Tidy(st, p, lost) && Taken(p) == None && Taken(q) == None
    requires LeavesDrafts(st, t) && UpToDate(t, q)
    requires forall d :: d in st.drafts ==> DraftOk(st, st.drafts[d])
    ensures Tidy(t, q, lost)
  {
    forall d | d in t.drafts ensures FileKept(t, q, d, lost) {
      assert FileKept(st, p, d, lost) && DraftOk(st, st.drafts[d]);
    }
  }

  lemma DeleteIsTidy(st: Stores, p: Proc, c: Choice, lost: set<nat>)
    requires Surroundings(st, p) && Tidy(st, p, lost) && IsDelete(p)
    ensures Tidy(Step(st, p, c).0, Step(st, p, c).1, lost)
  {
    DeleteLeavesDrafts(st, p, c);
    LeavesTidy(st, p, Step(st, p, c).0, Step(st, p, c).1, lost);
  }

  lemma DeleteLeavesDrafts(st: Stores, p: Proc, c: Choice)
    requires IsDelete(p) && SparesStaging(p)
    ensures LeavesDrafts(st, Step(st, p, c).0)
  {
  }

  lemma CleaningIsTidy(st: Stores, p: Proc, c: Choice, lost: set<nat>)
    requires Surroundings(st, p) && Tidy(st, p, lost) && p.Cleaning?
    ensures Tidy(Step(st, p, c).0, Step(st, p, c).1, lost)
  {
    var (t, q) := Step(st, p, c);
    if p.worker.Removing? && |p.worker.batch| > 0 {
      assert Know(p).claims[0] == p.worker.batch[0];
    }
    assert LeavesDrafts(st, t);
    LeavesTidy(st, p, t, q, lost);
  }

  lemma FindIsTidy(st: Stores, p: Proc, c: Choice, lost: set<nat>)
    requires Surroundings(st, p) && Tidy(st, p, lost) && (p.CreateFind? || p.UpdateFind? || p.UpdateFindDraft?)
    ensures Tidy(Step(st, p, c).0, Step(st, p, c).1, lost + Loses(st, p, c))
  {
  }

  lemma RetryFindIsTidy(st: Stores, p: Proc, c: Choice, lost: set<nat>)
    requires Surroundings(st, p) && Tidy(st, p, lost) && p.RetryFind?
    ensures Tidy(Step(st, p, c).0, Step(st, p, c).1, lost + Loses(st, p, c))
  {
  }

  lemma DiscardFindIsTidy(st: Stores, p: Proc, c: Choice, lost: set<nat>)
    requires Surroundings(st, p) && Tidy(st, p, lost) && p.DiscardFind?
    ensures Tidy(Step(st, p, c).0, Step(st, p, c).1, lost + Loses(st, p, c))
  {
  }

  lemma PromoteIsTidy(st: Stores, p: Proc, c: Choice, lost: set<nat>)
    requires Surroundings(st, p) && Tidy(st, p, lost) && (p.CreatePromote? || p.UpdatePromote?)
    ensures Tidy(Step(st, p, c).0, Step(st, p, c).1, lost + Loses(st, p, c))
  {
  }

  lemma ConsumeIsTidy(st: Stores, p: Proc, c: Choice, lost: set<nat>)
    requires Surroundings(st, p) && Tidy(st, p, lost) && (p.CreateConsume? || p.UpdateConsume?)
    ensures Tidy(Step(st, p, c).0, Step(st, p, c).1, lost + Loses(st, p, c))
  {
  }

  lemma CreateEndIsTidy(st: Stores, p: Proc, c: Choice, lost: set<nat>)
    requires Surroundings(st, p) && Tidy(st, p, lost) && (p.CreateWrite? || p.CreateUndo?)
    ensures Tidy(Step(st, p, c).0, Step(st, p, c).1, lost + Loses(st, p, c))
  {
  }

  lemma UpdateWriteIsTidy(st: Stores, p: Proc, c: Choice, lost: set<nat>)
    requires Surroundings(st, p) && Tidy(st, p, lost) && (p.UpdateWrite?)
    ensures Tidy(Step(st, p, c).0, Step(st, p, c).1, lost + Loses(st, p, c))
  {
  }

  lemma UpdateEndIsTidy(st: Stores, p: Proc, c: Choice, lost: set<nat>)
    requires Surroundings(st, p) && Tidy(st, p, lost) && (p.UpdateUndo? || p.UpdateRetire? || p.UpdateQueue?)
    ensures Tidy(Step(st, p, c).0, Step(st, p, c).1, lost + Loses(st, p, c))
  {
  }

  lemma StartIsTidy(st: Stores, p: Proc, c: Choice, lost: set<nat>)
    requires Surroundings(st, p) && Tidy(st, p, lost) && p.CaptureCreate?
    ensures Tidy(Step(st, p, c).0, Step(st, p, c).1, lost + Loses(st, p, c))
  {
  }

  lemma ShootIsTidy(st: Stores, p: Proc, c: Choice, lost: set<nat>)
    requires Surroundings(st, p) && Tidy(st, p, lost) && p.CaptureShoot?
    ensures Tidy(Step(st, p, c).0, Step(st, p, c).1, lost + Loses(st, p, c))
  {
  }

  lemma StageIsTidy(st: Stores, p: Proc, c: Choice, lost: set<nat>)
    requires Surroundings(st, p) && Tidy(st, p, lost) && (p.CaptureValidate? || p.CaptureWrite?)
    ensures Tidy(Step(st, p, c).0, Step(st, p, c).1, lost + Loses(st, p, c))
  {
  }

  lemma RetryIsTidy(st: Stores, p: Proc, c: Choice, lost: set<nat>)
    requires Surroundings(st, p) && Tidy(st, p, lost) && (p.RetryWrite?)
    ensures Tidy(Step(st, p, c).0, Step(st, p, c).1, lost + Loses(st, p, c))
  {
  }

  lemma DiscardFileIsTidy(st: Stores, p: Proc, c: Choice, lost: set<nat>)
    requires Surroundings(st, p) && Tidy(st, p, lost) && p.DiscardFile?
    ensures Tidy(Step(st, p, c).0, Step(st, p, c).1, lost + Loses(st, p, c))
  {
  }

  lemma DiscardWriteIsTidy(st: Stores, p: Proc, c: Choice, lost: set<nat>)
    requires Surroundings(st, p) && Tidy(st, p, lost) && p.DiscardWrite?
    ensures Tidy(Step(st, p, c).0, Step(st, p, c).1, lost + Loses(st, p, c))
  {
  }


  lemma StepIsTidy(st: Stores, p: Proc, c: Choice, lost: set<nat>)
    requires Surroundings(st, p) && Tidy(st, p, lost)
    ensures Tidy(Step(st, p, c).0, Step(st, p, c).1, lost + Loses(st, p, c))
  {
    if p.CreatePromote? || p.UpdatePromote? { PromoteIsTidy(st, p, c, lost); }
    else if p.CreateConsume? || p.UpdateConsume? { ConsumeIsTidy(st, p, c, lost); }
    else if p.CreateFind? || p.UpdateFind? || p.UpdateFindDraft? { FindIsTidy(st, p, c, lost); }
    else if p.UpdateWrite? { UpdateWriteIsTidy(st, p, c, lost); }
    else if IsCreate(p) { CreateEndIsTidy(st, p, c, lost); }
    else if IsUpdate(p) { UpdateEndIsTidy(st, p, c, lost); }
    else { OtherIsTidy(st, p, c, lost); }
  }

  lemma OtherIsTidy(st: Stores, p: Proc, c: Choice, lost: set<nat>)
    requires Surroundings(st, p) && Tidy(st, p, lost) && !IsCreate(p) && !IsUpdate(p)
    ensures Tidy(Step(st, p, c).0, Step(st, p, c).1, lost + Loses(st, p, c))
  {
    if p.CaptureCreate? { StartIsTidy(st, p, c, lost); }
    else if p.CaptureShoot? { ShootIsTidy(st, p, c, lost); }
    else if p.CaptureValidate? || p.CaptureWrite? { StageIsTidy(st, p, c, lost); }
    else if p.RetryWrite? { RetryIsTidy(st, p, c, lost); }
    else if p.DiscardFile? { DiscardFileIsTidy(st, p, c, lost); }
    else if p.DiscardWrite? { DiscardWriteIsTidy(st, p, c, lost); }
    else if p.RetryFind? { RetryFindIsTidy(st, p, c, lost); }
    else if p.DiscardFind? { DiscardFindIsTidy(st, p, c, lost); }
    else {
      assert lost + {} == lost;
      if IsDelete(p) { DeleteIsTidy(st, p, c, lost); } else if p.Cleaning? { CleaningIsTidy(st, p, c, lost); }
    }
  }

  // ---- Final states ----

  // The moves a draft can make.
  predicate Moves(a: DraftState, b: DraftState) {
    || a == b
    || (a == Capturing && (b == Ready || b == Failed || b == Expired))
    || (a == Failed && (b == Capturing || b == Discarded || b == Expired))
    || (a == Ready && (b == Consumed || b == Discarded || b == Expired))
  }

  lemma SavingMoves(st: Stores, p: Proc, c: Choice, d: nat)
    requires IsCreate(p) || IsUpdate(p)
    requires UpToDate(st, p) && d in st.drafts && d in Step(st, p, c).0.drafts
    ensures Moves(st.drafts[d].state, Step(st, p, c).0.drafts[d].state)
  {
  }

  lemma CapturingMoves(st: Stores, p: Proc, c: Choice, d: nat)
    requires IsCapture(p)
    requires UpToDate(st, p) && d in st.drafts && d < st.next && d in Step(st, p, c).0.drafts
    ensures Moves(st.drafts[d].state, Step(st, p, c).0.drafts[d].state)
  {
  }

  lemma StepMoves(st: Stores, p: Proc, c: Choice, d: nat)
    requires UpToDate(st, p) && d in st.drafts && d < st.next && d in Step(st, p, c).0.drafts
    ensures Moves(st.drafts[d].state, Step(st, p, c).0.drafts[d].state)
  {
    if IsCapture(p) { CapturingMoves(st, p, c, d); }
    else if IsCreate(p) || IsUpdate(p) { SavingMoves(st, p, c, d); }
  }

  // Ids are not used again, and a final state is final.
  ghost predicate Settled(st: Stores, t: Stores, d: nat) {
    && d < st.next <= t.next
    && (d in t.drafts ==> d in st.drafts && (IsTerminal(st.drafts[d]) ==> t.drafts[d].state == st.drafts[d].state))
  }

  lemma StepSettles(st: Stores, p: Proc, c: Choice, d: nat)
    requires UpToDate(st, p) && d < st.next
    ensures Settled(st, Step(st, p, c).0, d)
  {
    DraftIdsAreFresh(st, p, c, d);
    if d in st.drafts && d in Step(st, p, c).0.drafts { StepMoves(st, p, c, d); }
  }

  lemma DraftIdsAreFresh(st: Stores, p: Proc, c: Choice, d: nat)
    requires d < st.next
    ensures var t := Step(st, p, c).0; st.next <= t.next && (d in t.drafts ==> d in st.drafts)
  {
  }

  // ---- Whole runs ----

  lemma AdvanceIsTidy(s: Sys, l: Ledger, c: Choice, lost: set<nat>)
    requires Sound(s, l) && |s.procs| > 0 && AllWellFormed(s) && Tidy(s.st, s.procs[|s.procs| - 1], lost)
    ensures var pid := |s.procs| - 1;
            var t := Next(s, Advance(pid, c));
            AllWellFormed(t) && Tidy(t.st, t.procs[pid], lost + Loses(s.st, s.procs[pid], c))
  {
    var pid := |s.procs| - 1;
    InContext(s, l, pid);
    InSurroundings(s, l, pid);
    StepIsTidy(s.st, s.procs[pid], c, lost);
    AdvanceIsWellFormed(s, pid, c);
  }

  lemma AdvanceIsWellFormed(s: Sys, pid: nat, c: Choice)
    requires AllWellFormed(s) && pid < |s.procs|
    ensures AllWellFormed(Next(s, Advance(pid, c)))
  {
    assert CarriesWellFormed(s.procs[pid]);
    StepIsWellFormed(s.st, s.procs[pid], c);
  }

  lemma FinishIsTidy(s: Sys, l: Ledger, script: seq<Choice>, lost: set<nat>)
    requires Sound(s, l) && |s.procs| > 0 && AllWellFormed(s) && Tidy(s.st, s.procs[|s.procs| - 1], lost)
    ensures var pid := |s.procs| - 1;
            var t := Finish(s, pid, script);
            AllWellFormed(t) && Tidy(t.st, t.procs[pid], lost + LostBy(s, pid, script))
    decreases Calls(s.procs[|s.procs| - 1])
  {
    var pid, c := |s.procs| - 1, Head(script);
    if s.procs[pid].Done? {
      assert lost + {} == lost;
    } else {
      AdvanceIsTidy(s, l, c, lost);
      var m := SerialStep(s, l, c);
      StepsAreFew(s.st, s.procs[pid], c);
      var t := Next(s, Advance(pid, c));
      FinishIsTidy(t, m, Tail(script), lost + Loses(s.st, s.procs[pid], c));
      assert lost + Loses(s.st, s.procs[pid], c) + LostBy(t, pid, Tail(script)) == lost + LostBy(s, pid, script);
    }
  }

  lemma FinishSettles(s: Sys, l: Ledger, script: seq<Choice>, lost: set<nat>, d: nat)
    requires Sound(s, l) && |s.procs| > 0 && AllWellFormed(s) && Tidy(s.st, s.procs[|s.procs| - 1], lost)
    requires d < s.st.next
    ensures Settled(s.st, Finish(s, |s.procs| - 1, script).st, d)
    decreases Calls(s.procs[|s.procs| - 1])
  {
    var pid, c := |s.procs| - 1, Head(script);
    if !s.procs[pid].Done? {
      AdvanceIsTidy(s, l, c, lost);
      StepSettles(s.st, s.procs[pid], c, d);
      var m := SerialStep(s, l, c);
      StepsAreFew(s.st, s.procs[pid], c);
      var t := Next(s, Advance(pid, c));
      FinishSettles(t, m, Tail(script), lost + Loses(s.st, s.procs[pid], c), d);
      SettledTwice(s.st, t.st, Finish(s, pid, script).st, d);
    }
  }

  lemma SettledTwice(st: Stores, t: Stores, u: Stores, d: nat)
    requires Settled(st, t, d) && Settled(t, u, d)
    ensures Settled(st, u, d)
  {
  }

  // Between operations.
  ghost predicate Rested(s: Sys, l: Ledger, lost: set<nat>) {
    Sound(s, l) && Quiescent(s) && AllWellFormed(s) && Tidy(s.st, Done(true), lost)
  }

  lemma SpawnIsTidy(s: Sys, l: Ledger, op: Op, lost: set<nat>) returns (m: Ledger)
    requires Rested(s, l, lost)
    ensures var t := Next(s, Spawn(op)); Sound(t, m) && AllWellFormed(t) && Tidy(t.st, Begin(op), lost)
  {
    m := SpawnSerial(s, l, op);
    assert CarriesWellFormed(Begin(op)) && UpToDate(s.st, Begin(op)) && Taken(Begin(op)) == None;
  }

  lemma PauseIsTidy(s: Sys, l: Ledger, a: Action, lost: set<nat>)
    requires Rested(s, l, lost) && (a.Tick? || a.ExpireDrafts? || a.DropDrafts?)
    ensures var t := Next(s, a);
            && AllWellFormed(t) && Tidy(t.st, Done(true), lost)
            && forall d: nat :: d < s.st.next ==> Settled(s.st, t.st, d)
  {
  }

  lemma DoIsTidy(s: Sys, l: Ledger, job: Job, lost: set<nat>) returns (m: Ledger)
    requires Rested(s, l, lost)
    ensures Rested(Do(s, job), m, lost + LostIn(s, job))
  {
    m := DoSerial(s, l, job);
    assert lost + {} == lost;
    match job
    case Perform(op, script) =>
      var n := SpawnIsTidy(s, l, op, lost);
      FinishIsTidy(Next(s, Spawn(op)), n, script, lost);
    case Wait(elapsed) => PauseIsTidy(s, l, Tick(elapsed), lost);
    case Expire(due) => PauseIsTidy(s, l, ExpireDrafts(due), lost);
    case Drop(gone) => PauseIsTidy(s, l, DropDrafts(gone), lost);
  }

  lemma DoSettles(s: Sys, l: Ledger, job: Job, lost: set<nat>, d: nat)
    requires Rested(s, l, lost) && d < s.st.next
    ensures Settled(s.st, Do(s, job).st, d)
  {
    match job
    case Perform(op, script) =>
      var n := SpawnIsTidy(s, l, op, lost);
      FinishSettles(Next(s, Spawn(op)), n, script, lost, d);
    case Wait(elapsed) => PauseIsTidy(s, l, Tick(elapsed), lost);
    case Expire(due) => PauseIsTidy(s, l, ExpireDrafts(due), lost);
    case Drop(gone) => PauseIsTidy(s, l, DropDrafts(gone), lost);
  }

  lemma {:induction false} AllRested(jobs: seq<Job>) returns (l: Ledger)
    ensures Rested(DoAll(START, jobs), l, Lost(jobs))
    decreases |jobs|
  {
    if |jobs| == 0 {
      l := map[];
    } else {
      var l0 := AllRested(jobs[..|jobs| - 1]);
      l := DoIsTidy(DoAll(START, jobs[..|jobs| - 1]), l0, jobs[|jobs| - 1], Lost(jobs[..|jobs| - 1]));
    }
  }

  // A ready draft has its staged file, unless an operation took it and could then not
  // record that, and no other draft names the same file.
  lemma ReadyDraftsHaveFiles(jobs: seq<Job>, d: nat)
    requires var st := DoAll(START, jobs).st; d in st.drafts && st.drafts[d].state == Ready
    ensures var st := DoAll(START, jobs).st;
            var staged := st.drafts[d].staged;
            && staged.Some?
            && (staged.value in st.files <==> d !in Lost(jobs))
            && (forall e :: e in st.drafts && e != d ==> st.drafts[e].staged != staged)
            && (staged.value in st.files ==> st.files[staged.value] == Image(st.drafts[d].target, st.drafts[d].final))
  {
    var l := AllRested(jobs);
    var st := DoAll(START, jobs).st;
    assert FileKept(st, Done(true), d, Lost(jobs)) && WellFormed(st.drafts[d]) && DraftOk(st, st.drafts[d]);
  }

  // A consumed, discarded or expired draft keeps that state for as long as it exists.
  lemma {:induction false} FinalStatesStay(before: seq<Job>, after: seq<Job>, d: nat)
    requires d < DoAll(START, before).st.next
    ensures Settled(DoAll(START, before).st, DoAll(START, before + after).st, d)
    decreases |after|
  {
    if |after| == 0 {
      assert before + after == before;
    } else {
      var init, job := after[..|after| - 1], after[|after| - 1];
      FinalStatesStay(before, init, d);
      assert (before + after)[..|before + after| - 1] == before + init;
      var l := AllRested(before + init);
      DoSettles(DoAll(START, before + init), l, job, Lost(before + init), d);
    }
  }

  // ---- Without a failed call no ready draft loses its file ----

  lemma FinishLosesNothing(s: Sys, l: Ledger, script: seq<Choice>)
    requires Sound(s, l) && |s.procs| > 0 && Faults(script) == 0
    ensures LostBy(s, |s.procs| - 1, script) == {}
    decreases Calls(s.procs[|s.procs| - 1])
  {
    var pid, c := |s.procs| - 1, Head(script);
    if !s.procs[pid].Done? {
      assert Agrees(s.st, s.left, s.procs[pid]);
      var m := SerialStep(s, l, c);
      StepsAreFew(s.st, s.procs[pid], c);
      FinishLosesNothing(Next(s, Advance(pid, c)), m, Tail(script));
    }
  }

  lemma {:induction false} FaultlessRunsLoseNothing(jobs: seq<Job>)
    requires forall i :: 0 <= i < |jobs| && jobs[i].Perform? ==> Faults(jobs[i].script) == 0
    ensures Lost(jobs) == {}
    decreases |jobs|
  {
    if |jobs| > 0 {
      var init, job := jobs[..|jobs| - 1], jobs[|jobs| - 1];
      FaultlessRunsLoseNothing(init);
      var l := AllSerial(init);
      if job.Perform? {
        assert Faults(jobs[|jobs| - 1].script) == 0;
        var m := SpawnSerial(DoAll(START, init), l, job.op);
        FinishLosesNothing(Next(DoAll(START, init), Spawn(job.op)), m, job.script);
      }
    }
  }
}
