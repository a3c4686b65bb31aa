// Safety of the screenshot operations in every interleaving of their port calls.
module SagaSafety {
  import opened Prelude
  import opened CleanupQueue
  import opened ScreenshotModel
  import opened SagaSystem
  import opened SagaLedger

  // ---- Steps that only read, or only write a draft ----

  function After(s: Sys, pid: nat, c: Choice): View {
    ViewOf(Next(s, Advance(pid, c)))
  }

  lemma ViewOfStep(s: Sys, pid: nat, c: Choice)
    requires pid < |s.procs|
    ensures var (st, p) := Step(s.st, s.procs[pid], c);
            After(s, pid, c) ==
            View(st, ViewOf(s).ks[pid := Know(p)], s.left + Left(s.st, s.procs[pid], c),
                s.stranded + Strands(s.st, s.procs[pid], c))
  {
  }

  // The process answers for the same files as before.
  predicate SameHolds(a: Knowledge, b: Knowledge) {
    && b.doomed == a.doomed && b.window == a.window && b.unlinking == a.unlinking
    && ((b.minted == a.minted && b.undoing == a.undoing)
        || (b.minted == None && a.minted.Some? && a.undoing == None && b.undoing == Some(a.minted.value.key)))
  }

  ghost predicate DraftsOk(st: Stores) {
    forall d :: d in st.drafts ==> d < st.next && DraftOk(st, st.drafts[d])
  }

  // What the invariant says to the process whose step is looked at.
  lemma Unpack(s: Sys, l: Ledger, pid: nat)
    requires Inv(ViewOf(s), l) && pid < |s.procs|
    ensures Relies(s.st, l, pid, Know(s.procs[pid])) && DraftsOk(s.st)
    ensures forall b :: b in s.st.rows ==> RowOk(s.st, l, b)
  {
    assert Relies(ViewOf(s).st, l, pid, ViewOf(s).ks[pid]);
  }

  ghost predicate Reads(s: Sys, l: Ledger, pid: nat, c: Choice)
    requires pid < |s.procs|
  {
    var p := s.procs[pid];
    && Step(s.st, p, c).0 == s.st && Left(s.st, p, c) == map[] && Strands(s.st, p, c) == {}
    && SameHolds(Know(p), Know(Step(s.st, p, c).1))
    && Relies(s.st, l, pid, Know(Step(s.st, p, c).1))
  }

  lemma ReadKeeps(s: Sys, l: Ledger, pid: nat, c: Choice)
    requires Inv(ViewOf(s), l) && pid < |s.procs| && Reads(s, l, pid, c)
    ensures Inv(After(s, pid, c), l)
  {
    ViewOfStep(s, pid, c);
    assert s.left + map[] == s.left;
    QuietKeeps(ViewOf(s), l, After(s, pid, c), pid);
  }

  // The process learns or forgets something; the stores stay.
  lemma LearnKeeps(v: View, l: Ledger, w: View, pid: nat, kn: Knowledge)
    requires Inv(v, l) && pid < |v.ks| && w == v.(ks := v.ks[pid := kn])
    requires Relies(v.st, l, pid, kn)
    requires forall k :: k in l && Answers(v.ks[pid], pid, k, l[k]) ==> Answers(kn, pid, k, l[k])
    ensures Inv(w, l)
  {
    assert forall b :: b in v.st.rows ==> RowOk(v.st, l, b);
    QuietKeeps(v, l, w, pid);
  }

  // Draft writes and a new draft: the old drafts keep their target.
  ghost predicate Drafts(s: Sys, l: Ledger, pid: nat, c: Choice)
    requires pid < |s.procs|
  {
    var p := s.procs[pid];
    var st := Step(s.st, p, c).0;
    && st.(drafts := s.st.drafts, next := s.st.next) == s.st && s.st.next <= st.next && DraftsOk(st)
    && (forall d :: d in st.drafts && d < s.st.next ==>
         d in s.st.drafts && st.drafts[d].target == s.st.drafts[d].target)
    && Left(s.st, p, c) == map[] && Strands(s.st, p, c) == {}
    && SameHolds(Know(p), Know(Step(s.st, p, c).1))
    && Relies(st, l, pid, Know(Step(s.st, p, c).1))
  }

  lemma DraftsAreQuiet(s: Sys, l: Ledger, pid: nat, c: Choice)
    requires StoresOk(ViewOf(s), l) && pid < |s.procs| && Drafts(s, l, pid, c)
    ensures Quiet(ViewOf(s), l, After(s, pid, c), pid)
  {
    ViewOfStep(s, pid, c);
    assert s.left + map[] == s.left;
    assert forall b :: b in s.st.rows ==> RowOk(s.st, l, b);
  }

  lemma DraftKeeps(s: Sys, l: Ledger, pid: nat, c: Choice)
    requires Inv(ViewOf(s), l) && pid < |s.procs| && Drafts(s, l, pid, c)
    ensures Inv(After(s, pid, c), l)
  {
    DraftsAreQuiet(s, l, pid, c);
    QuietKeeps(ViewOf(s), l, After(s, pid, c), pid);
  }

  lemma CreateReads(s: Sys, l: Ledger, pid: nat, c: Choice)
    requires pid < |s.procs| && DraftsOk(s.st) && Relies(s.st, l, pid, Know(s.procs[pid]))
    requires s.procs[pid].CreateFind? || (s.procs[pid].CreateWrite? && c.fail)
             || (s.procs[pid].CreatePromote? && Step(s.st, s.procs[pid], c).1.Done?)
    ensures Reads(s, l, pid, c)
  {
  }

  lemma UpdateReads(s: Sys, l: Ledger, pid: nat, c: Choice)
    requires pid < |s.procs| && DraftsOk(s.st) && Relies(s.st, l, pid, Know(s.procs[pid]))
    requires s.procs[pid].UpdateFindDraft? || (s.procs[pid].UpdateRetire? && c.fail)
             || (s.procs[pid].UpdatePromote? && Step(s.st, s.procs[pid], c).1.Done?)
    ensures Reads(s, l, pid, c)
  {
  }

  lemma UpdateWriteReads(s: Sys, l: Ledger, pid: nat, c: Choice)
    requires pid < |s.procs| && Relies(s.st, l, pid, Know(s.procs[pid]))
    requires s.procs[pid].UpdateWrite? && (c.fail || s.procs[pid].b !in s.st.rows)
    ensures Reads(s, l, pid, c)
  {
  }

  lemma UpdateFindReads(s: Sys, l: Ledger, pid: nat, c: Choice)
    requires pid < |s.procs| && s.procs[pid].UpdateFind?
    requires s.procs[pid].b in s.st.rows ==> RowOk(s.st, l, s.procs[pid].b)
    ensures Reads(s, l, pid, c)
  {
  }

  lemma DeleteFindReads(s: Sys, l: Ledger, pid: nat, c: Choice)
    requires pid < |s.procs| && s.procs[pid].DeleteFind?
    requires s.procs[pid].b in s.st.rows ==> RowOk(s.st, l, s.procs[pid].b)
    ensures Reads(s, l, pid, c)
  {
  }

  lemma DeleteReads(s: Sys, l: Ledger, pid: nat, c: Choice)
    requires pid < |s.procs| && Relies(s.st, l, pid, Know(s.procs[pid]))
    requires var p := s.procs[pid];
             || (p.DeleteQuarantine? && Step(s.st, p, c).1.Done?)
             || (p.DeleteWrite? && (c.fail || p.b !in s.st.rows))
             || (p.DeleteUnlink? && c.fail)
    ensures Reads(s, l, pid, c)
  {
  }

  lemma CaptureReads(s: Sys, l: Ledger, pid: nat, c: Choice)
    requires pid < |s.procs| && Relies(s.st, l, pid, Know(s.procs[pid]))
    requires var p := s.procs[pid]; p.CaptureValidate? || (p.CaptureShoot? && c.fail) || (p.DiscardFile? && c.fail)
    ensures Reads(s, l, pid, c)
  {
  }

  lemma RetryFindReads(s: Sys, l: Ledger, pid: nat, c: Choice)
    requires pid < |s.procs| && DraftsOk(s.st)
    requires s.procs[pid].RetryFind?
    ensures Reads(s, l, pid, c)
  {
  }

  lemma DiscardFindReads(s: Sys, l: Ledger, pid: nat, c: Choice)
    requires pid < |s.procs| && DraftsOk(s.st)
    requires s.procs[pid].DiscardFind?
    ensures Reads(s, l, pid, c)
  {
  }

  lemma CreateConsumeDrafts(s: Sys, l: Ledger, pid: nat, c: Choice)
    requires pid < |s.procs| && DraftsOk(s.st) && Relies(s.st, l, pid, Know(s.procs[pid]))
    requires s.procs[pid].CreateConsume?
    ensures Drafts(s, l, pid, c)
  {
  }

  lemma UpdateConsumeDrafts(s: Sys, l: Ledger, pid: nat, c: Choice)
    requires pid < |s.procs| && DraftsOk(s.st) && Relies(s.st, l, pid, Know(s.procs[pid]))
    requires s.procs[pid].UpdateConsume?
    ensures Drafts(s, l, pid, c)
  {
  }

  lemma CaptureDrafts(s: Sys, l: Ledger, pid: nat, c: Choice)
    requires pid < |s.procs| && DraftsOk(s.st) && Relies(s.st, l, pid, Know(s.procs[pid]))
    requires s.procs[pid].CaptureCreate? || s.procs[pid].CaptureWrite?
    ensures Drafts(s, l, pid, c)
  {
  }

  lemma PutIsOk(st: Stores, d: nat, draft: Draft)
    requires DraftsOk(st) && d in st.drafts && DraftOk(st, draft) && draft.target == st.drafts[d].target
    ensures var t := PutDraft(st, d, draft);
            && DraftsOk(t) && t.(drafts := st.drafts) == st
            && forall e :: e in t.drafts ==> e in st.drafts && t.drafts[e].target == st.drafts[e].target
  {
  }

  lemma RetryWriteRelies(s: Sys, l: Ledger, pid: nat, c: Choice)
    requires pid < |s.procs| && Relies(s.st, l, pid, Know(s.procs[pid]))
    requires s.procs[pid].RetryWrite? && !c.fail && s.procs[pid].use.id in s.st.drafts
    ensures Relies(Step(s.st, s.procs[pid], c).0, l, pid, Know(Step(s.st, s.procs[pid], c).1))
  {
  }

  lemma RetryWriteStores(s: Sys, l: Ledger, pid: nat, c: Choice)
    requires pid < |s.procs| && DraftsOk(s.st) && Relies(s.st, l, pid, Know(s.procs[pid]))
    requires s.procs[pid].RetryWrite? && !c.fail && s.procs[pid].use.id in s.st.drafts
    ensures Drafts(s, l, pid, c)
  {
    RetryWriteRelies(s, l, pid, c);
    PutIsOk(s.st, s.procs[pid].use.id, s.procs[pid].use.draft);
  }

  lemma RetryWriteDrafts(s: Sys, l: Ledger, pid: nat, c: Choice)
    requires pid < |s.procs| && DraftsOk(s.st) && Relies(s.st, l, pid, Know(s.procs[pid]))
    requires s.procs[pid].RetryWrite?
    ensures Drafts(s, l, pid, c)
  {
    if !c.fail && s.procs[pid].use.id in s.st.drafts { RetryWriteStores(s, l, pid, c); }
  }

  lemma DiscardWriteDrafts(s: Sys, l: Ledger, pid: nat, c: Choice)
    requires pid < |s.procs| && DraftsOk(s.st) && Relies(s.st, l, pid, Know(s.procs[pid]))
    requires s.procs[pid].DiscardWrite?
    ensures Drafts(s, l, pid, c)
  {
  }

  // ---- Steps that move files or rows ----

  // A promotion takes the staged file away and adds the promoted one.
  lemma PromoteForm(s: Sys, l: Ledger, pid: nat, c: Choice)
    requires pid < |s.procs| && Relies(s.st, l, pid, Know(s.procs[pid]))
    requires s.procs[pid].CreatePromote? || s.procs[pid].UpdatePromote?
    requires !Step(s.st, s.procs[pid], c).1.Done?
    ensures Know(s.procs[pid]).use.Some? && Know(s.procs[pid]).use.value.draft.staged.Some?
    ensures var from := Know(s.procs[pid]).use.value.draft.staged.value;
            && from in s.st.files && from.area == Staging && from.id < s.st.next
            && var x := ViewOf(s).(st := Unlink(s.st, from));
            && Sweeps(ViewOf(s), l, x, pid, from)
            && Mints(x, l, After(s, pid, c), l[FreshKey(s.st, Promoted) := New(pid)], pid, Promoted, s.st.files[from])
  {
    ViewOfStep(s, pid, c);
    var v := ViewOf(s);
    var from := Know(s.procs[pid]).use.value.draft.staged.value;
    var x := v.(st := Unlink(s.st, from));
    assert x == v.(st := Unlink(v.st, from), ks := v.ks[pid := x.ks[pid]]);
    assert s.left + map[] == s.left;
  }

  lemma PromoteKeeps(s: Sys, l: Ledger, pid: nat, c: Choice) returns (m: Ledger)
    requires Inv(ViewOf(s), l) && pid < |s.procs|
    requires s.procs[pid].CreatePromote? || s.procs[pid].UpdatePromote?
    requires !Step(s.st, s.procs[pid], c).1.Done?
    ensures Inv(After(s, pid, c), m)
  {
    Unpack(s, l, pid);
    PromoteForm(s, l, pid, c);
    var from := Know(s.procs[pid]).use.value.draft.staged.value;
    var x := ViewOf(s).(st := Unlink(s.st, from));
    m := l[FreshKey(s.st, Promoted) := New(pid)];
    SweepKeeps(ViewOf(s), l, x, pid, from);
    MintKeeps(x, l, After(s, pid, c), m, pid, Promoted, s.st.files[from]);
  }

  // A new bookmark is a row without screenshot that then takes the promoted file.
  lemma CreateWriteForm(s: Sys, l: Ledger, pid: nat, c: Choice, x: View)
    requires pid < |s.procs| && Relies(s.st, l, pid, Know(s.procs[pid])) && DraftsOk(s.st)
    requires forall b :: b in s.st.rows ==> b < s.st.next
    requires s.procs[pid].CreateWrite? && !c.fail
    requires x == ViewOf(s).(st := InsertRow(s.st, s.procs[pid].url, None))
    ensures Quiet(ViewOf(s), l, x, pid)
    ensures var shot := s.procs[pid].shot;
            if shot.None? then After(s, pid, c) == x
            else
              Attaches(x, l, After(s, pid, c), l[shot.value.key := Live(s.st.next, Home)], pid, s.st.next, shot.value)
  {
    ViewOfStep(s, pid, c);
    assert s.left + map[] == s.left;
    assert x == ViewOf(s).(st := x.st, ks := ViewOf(s).ks[pid := x.ks[pid]]);
    var shot := s.procs[pid].shot;
    if shot.Some? {
      assert After(s, pid, c).st.rows == x.st.rows[s.st.next := Row(s.procs[pid].url, shot)];
    }
  }

  lemma CreateWriteKeeps(s: Sys, l: Ledger, pid: nat, c: Choice) returns (m: Ledger)
    requires Inv(ViewOf(s), l) && pid < |s.procs| && s.procs[pid].CreateWrite? && !c.fail
    ensures Inv(After(s, pid, c), m)
  {
    var x := ViewOf(s).(st := InsertRow(s.st, s.procs[pid].url, None));
    Unpack(s, l, pid);
    CreateWriteForm(s, l, pid, c, x);
    QuietKeeps(ViewOf(s), l, x, pid);
    m := l;
    if s.procs[pid].shot.Some? {
      var shot := s.procs[pid].shot.value;
      m := l[shot.key := Live(s.st.next, Home)];
      AttachKeeps(x, l, After(s, pid, c), m, pid, s.st.next, shot);
    }
  }

  // Giving up a promoted, replaced or quarantined file.
  lemma ReleaseForm(s: Sys, l: Ledger, pid: nat, c: Choice, m: Ledger)
    requires pid < |s.procs| && Relies(s.st, l, pid, Know(s.procs[pid]))
    requires var p := s.procs[pid];
             || p.CreateUndo? || p.UpdateUndo? || p.UpdateQueue? || p.DeleteQueue?
             || (p.UpdateRetire? && !c.fail) || (p.DeleteUnlink? && !c.fail)
    requires var p := s.procs[pid];
             Hands(l, m, pid, p.key,
                   if (p.UpdateQueue? || p.DeleteQueue?) && !c.fail then Queue(|s.st.cleanups|) else Nobody)
    ensures exists cause :: Releases(ViewOf(s), l, After(s, pid, c), m, pid, s.procs[pid].key, cause)
  {
    ViewOfStep(s, pid, c);
    var p := s.procs[pid];
    var cause := if p.UpdateQueue? || p.DeleteQueue? then QueueFailed else UndoFailed;
    assert After(s, pid, c).left == if c.fail then s.left[p.key := cause] else s.left;
    assert Releases(ViewOf(s), l, After(s, pid, c), m, pid, p.key, cause);
  }

  lemma ReleasingKeeps(s: Sys, l: Ledger, pid: nat, c: Choice) returns (m: Ledger)
    requires Inv(ViewOf(s), l) && pid < |s.procs|
    requires var p := s.procs[pid];
             || p.CreateUndo? || p.UpdateUndo? || p.UpdateQueue? || p.DeleteQueue?
             || (p.UpdateRetire? && !c.fail) || (p.DeleteUnlink? && !c.fail)
    ensures Inv(After(s, pid, c), m)
  {
    var p := s.procs[pid];
    var to := if (p.UpdateQueue? || p.DeleteQueue?) && !c.fail then Queue(|s.st.cleanups|) else Nobody;
    m := if p.key in l && (l[p.key] == New(pid) || l[p.key] == Parked(pid) || l[p.key] == Dead(Process(pid)))
         then l[p.key := Dead(to)] else l;
    Unpack(s, l, pid);
    ReleaseForm(s, l, pid, c, m);
    var cause :| Releases(ViewOf(s), l, After(s, pid, c), m, pid, p.key, cause);
    ReleaseKeeps(ViewOf(s), l, After(s, pid, c), m, pid, p.key, cause);
  }

  // The row of an update without its screenshot, before it takes the new one.
  function Bare(s: Sys, pid: nat): View
    requires pid < |s.procs| && s.procs[pid].UpdateWrite? && s.procs[pid].b in s.st.rows
  {
    var p := s.procs[pid];
    View(UpdateRow(s.st, p.b, s.st.rows[p.b].url, true, None),
         ViewOf(s).ks[pid := NOTHING.(minted := p.shot, doomed := p.prior, use := p.consume)],
         s.left + Left(s.st, p, Choice(false, [], "")), s.stranded)
  }

  // A replacement lets go of the row's screenshot ...
  lemma SwapOutForm(s: Sys, l: Ledger, pid: nat, m: Ledger)
    requires pid < |s.procs| && s.procs[pid].UpdateWrite? && s.procs[pid].replace && s.procs[pid].b in s.st.rows
    requires Relies(s.st, l, pid, Know(s.procs[pid]))
    requires var p := s.procs[pid];
             && s.st.rows[p.b].shot.Some?
             && var was := s.st.rows[p.b].shot.value.key;
             m == l[was := Dead(if p.prior == Some(was) then Process(pid) else Nobody)]
    ensures Detaches(ViewOf(s), l, Bare(s, pid), m, pid, s.procs[pid].b,
                     NOTHING.(minted := s.procs[pid].shot, doomed := s.procs[pid].prior, use := s.procs[pid].consume),
                     LostSwap)
  {
    assert s.left + map[] == s.left;
  }

  lemma SwapOutKeeps(s: Sys, l: Ledger, pid: nat) returns (m: Ledger)
    requires Inv(ViewOf(s), l)
    requires pid < |s.procs| && s.procs[pid].UpdateWrite? && s.procs[pid].replace && s.procs[pid].b in s.st.rows
    ensures Inv(Bare(s, pid), m)
  {
    var p := s.procs[pid];
    var kn := NOTHING.(minted := p.shot, doomed := p.prior, use := p.consume);
    Unpack(s, l, pid);
    if s.st.rows[p.b].shot.None? {
      m := l;
      if p.prior.Some? { assert Placed(ViewOf(s), l, p.prior.value); }
      SwapNothing(s, l, pid, kn);
      LearnKeeps(ViewOf(s), l, Bare(s, pid), pid, kn);
    } else {
      var was := s.st.rows[p.b].shot.value.key;
      m := l[was := Dead(if p.prior == Some(was) then Process(pid) else Nobody)];
      SwapOutForm(s, l, pid, m);
      DetachKeeps(ViewOf(s), l, Bare(s, pid), m, pid, p.b, kn, LostSwap);
    }
  }

  lemma SwapNothing(s: Sys, l: Ledger, pid: nat, kn: Knowledge)
    requires pid < |s.procs| && s.procs[pid].UpdateWrite? && s.procs[pid].replace && s.procs[pid].b in s.st.rows
    requires s.st.rows[s.procs[pid].b].shot.None? && Relies(s.st, l, pid, Know(s.procs[pid]))
    requires s.procs[pid].prior.Some? ==>
            s.procs[pid].prior.value in l && Placed(ViewOf(s), l, s.procs[pid].prior.value)
    requires kn == NOTHING.(minted := s.procs[pid].shot, doomed := s.procs[pid].prior, use := s.procs[pid].consume)
    ensures Bare(s, pid) == ViewOf(s).(ks := ViewOf(s).ks[pid := kn])
    ensures Relies(s.st, l, pid, kn)
    ensures forall k :: k in l && Answers(Know(s.procs[pid]), pid, k, l[k]) ==> Answers(kn, pid, k, l[k])
  {
    assert s.left + map[] == s.left;
    var p := s.procs[pid];
    assert s.st.rows[p.b := Row(s.st.rows[p.b].url, None)] == s.st.rows;
  }

  // ... and takes the promoted file; the new address changes nothing else.
  lemma SwapInForm(s: Sys, l: Ledger, pid: nat, c: Choice, y: View)
    requires pid < |s.procs| && s.procs[pid].UpdateWrite? && s.procs[pid].replace && s.procs[pid].b in s.st.rows
            && !c.fail
    requires var p := s.procs[pid];
             y == Bare(s, pid).(st := UpdateRow(s.st, p.b, s.st.rows[p.b].url, true, p.shot),
                                ks := ViewOf(s).ks[pid := NOTHING.(doomed := p.prior, use := p.consume)])
    ensures var p := s.procs[pid];
            p.shot.Some? ==>
              Attaches(Bare(s, pid), l, y, l[p.shot.value.key := Live(p.b, Home)], pid, p.b, p.shot.value)
    ensures s.procs[pid].shot.None? ==> y == Bare(s, pid)
    ensures After(s, pid, c).st == UpdateRow(y.st, s.procs[pid].b, s.procs[pid].url, false, None)
    ensures After(s, pid, c).ks == y.ks && After(s, pid, c).left == y.left && After(s, pid, c).stranded == y.stranded
  {
    ViewOfStep(s, pid, c);
  }

  lemma UpdateWriteKeeps(s: Sys, l: Ledger, pid: nat, c: Choice) returns (m: Ledger)
    requires Inv(ViewOf(s), l)
    requires pid < |s.procs| && s.procs[pid].UpdateWrite? && s.procs[pid].replace && s.procs[pid].b in s.st.rows
            && !c.fail
    ensures Inv(After(s, pid, c), m)
  {
    var p := s.procs[pid];
    var m1 := SwapOutKeeps(s, l, pid);
    var y := Bare(s, pid).(st := UpdateRow(s.st, p.b, s.st.rows[p.b].url, true, p.shot),
                           ks := ViewOf(s).ks[pid := NOTHING.(doomed := p.prior, use := p.consume)]);
    SwapInForm(s, m1, pid, c, y);
    m := m1;
    if p.shot.Some? {
      m := m1[p.shot.value.key := Live(p.b, Home)];
      AttachKeeps(Bare(s, pid), m1, y, m, pid, p.b, p.shot.value);
    }
    RenameKeeps(y, m, After(s, pid, c), pid, p.b, p.url);
  }

  lemma RenameKeeps(v: View, l: Ledger, w: View, pid: nat, b: nat, url: string)
    requires Inv(v, l) && pid < |v.ks| && b in v.st.rows
    requires w == v.(st := UpdateRow(v.st, b, url, false, None))
    ensures Inv(w, l)
  {
    assert Relies(v.st, l, pid, v.ks[pid]);
    assert forall x :: x in v.st.rows ==> RowOk(v.st, l, x);
    QuietKeeps(v, l, w, pid);
  }

  // An update that keeps the screenshot changes the row's address only.
  lemma PlainUpdateForm(s: Sys, l: Ledger, pid: nat, c: Choice, kn: Knowledge)
    requires pid < |s.procs| && Relies(s.st, l, pid, Know(s.procs[pid]))
    requires s.procs[pid].UpdateWrite? && !s.procs[pid].replace && s.procs[pid].b in s.st.rows && !c.fail
    requires kn == NOTHING.(use := s.procs[pid].consume)
    ensures After(s, pid, c) == ViewOf(s).(st := UpdateRow(s.st, s.procs[pid].b, s.procs[pid].url, false, None),
                                           ks := ViewOf(s).ks[pid := kn])
    ensures Relies(s.st, l, pid, kn)
    ensures forall k :: k in l && Answers(Know(s.procs[pid]), pid, k, l[k]) ==> Answers(kn, pid, k, l[k])
  {
    ViewOfStep(s, pid, c);
    assert s.left + map[] == s.left;
  }

  lemma PlainUpdateKeeps(s: Sys, l: Ledger, pid: nat, c: Choice)
    requires Inv(ViewOf(s), l) && pid < |s.procs|
    requires s.procs[pid].UpdateWrite? && !s.procs[pid].replace && s.procs[pid].b in s.st.rows && !c.fail
    ensures Inv(After(s, pid, c), l)
  {
    Unpack(s, l, pid);
    var p := s.procs[pid];
    var kn := NOTHING.(use := p.consume);
    PlainUpdateForm(s, l, pid, c, kn);
    var x := ViewOf(s).(ks := ViewOf(s).ks[pid := kn]);
    LearnKeeps(ViewOf(s), l, x, pid, kn);
    RenameKeeps(x, l, After(s, pid, c), pid, p.b, p.url);
  }

  lemma QuarantineForm(s: Sys, l: Ledger, pid: nat, c: Choice, m: Ledger)
    requires pid < |s.procs| && s.procs[pid].DeleteQuarantine? && !c.fail && s.procs[pid].key in s.st.files
    requires var p := s.procs[pid];
             var q := FreshKey(s.st, Quarantine);
             m == if p.key in l && l[p.key].Live? then l[q := Parked(pid)][p.key := Live(p.b, Away(pid, q))]
                 else l[q := Parked(pid)]
    ensures Quarantines(ViewOf(s), l, After(s, pid, c), m, pid, s.procs[pid].b, s.procs[pid].key)
  {
    ViewOfStep(s, pid, c);
    assert s.left + map[] == s.left;
  }

  lemma QuarantiningKeeps(s: Sys, l: Ledger, pid: nat, c: Choice) returns (m: Ledger)
    requires Inv(ViewOf(s), l)
    requires pid < |s.procs| && s.procs[pid].DeleteQuarantine? && !c.fail && s.procs[pid].key in s.st.files
    ensures Inv(After(s, pid, c), m)
  {
    var p := s.procs[pid];
    var q := FreshKey(s.st, Quarantine);
    m := if p.key in l && l[p.key].Live? then l[q := Parked(pid)][p.key := Live(p.b, Away(pid, q))]
        else l[q := Parked(pid)];
    QuarantineForm(s, l, pid, c, m);
    QuarantineKeeps(ViewOf(s), l, After(s, pid, c), m, pid, p.b, p.key);
  }

  lemma RestoreForm(s: Sys, l: Ledger, pid: nat, c: Choice, m: Ledger, fail: bool)
    requires pid < |s.procs| && s.procs[pid].DeleteRestore?
    requires fail == (c.fail || s.procs[pid].parking.q !in s.st.files)
    requires var x := s.procs[pid].parking;
             m == if x.home in l && l[x.home].Live?
                  then l[x.q := Dead(Nobody)][x.home := Live(s.procs[pid].b, if fail then Stranded else Home)]
                  else l[x.q := Dead(Nobody)]
    ensures Restores(ViewOf(s), l, After(s, pid, c), m, pid, s.procs[pid].b, s.procs[pid].parking, fail)
  {
    ViewOfStep(s, pid, c);
    assert s.left + map[] == s.left;
  }

  lemma RestoringKeeps(s: Sys, l: Ledger, pid: nat, c: Choice) returns (m: Ledger)
    requires Inv(ViewOf(s), l) && pid < |s.procs| && s.procs[pid].DeleteRestore?
    ensures Inv(After(s, pid, c), m)
  {
    var x := s.procs[pid].parking;
    var fail := c.fail || x.q !in s.st.files;
    m := if x.home in l && l[x.home].Live?
         then l[x.q := Dead(Nobody)][x.home := Live(s.procs[pid].b, if fail then Stranded else Home)]
         else l[x.q := Dead(Nobody)];
    RestoreForm(s, l, pid, c, m, fail);
    RestoreKeeps(ViewOf(s), l, After(s, pid, c), m, pid, s.procs[pid].b, x, fail);
  }

  // A deletion lets go of the row's screenshot, then the bare row goes.
  function Emptied(s: Sys, pid: nat): View
    requires pid < |s.procs| && s.procs[pid].DeleteWrite? && s.procs[pid].b in s.st.rows
  {
    var p := s.procs[pid];
    View(UpdateRow(s.st, p.b, s.st.rows[p.b].url, true, None),
         ViewOf(s).ks[pid := NOTHING.(unlinking := if p.parked.Some? then Some(p.parked.value.q) else None)],
         s.left + Left(s.st, p, Choice(false, [], "")), s.stranded)
  }

  lemma EmptyForm(s: Sys, l: Ledger, pid: nat, m: Ledger)
    requires pid < |s.procs| && s.procs[pid].DeleteWrite? && s.procs[pid].b in s.st.rows
    requires s.st.rows[s.procs[pid].b].shot.Some?
    requires m == l[s.st.rows[s.procs[pid].b].shot.value.key := Dead(Nobody)]
    ensures Detaches(ViewOf(s), l, Emptied(s, pid), m, pid, s.procs[pid].b, Emptied(s, pid).ks[pid], LostDelete)
  {
    assert s.left + map[] == s.left;
  }

  lemma EmptyNothing(s: Sys, l: Ledger, pid: nat, kn: Knowledge)
    requires pid < |s.procs| && s.procs[pid].DeleteWrite? && s.procs[pid].b in s.st.rows
    requires s.st.rows[s.procs[pid].b].shot.None? && Relies(s.st, l, pid, Know(s.procs[pid]))
    requires s.procs[pid].parked.Some? ==>
               s.procs[pid].parked.value.home in l && Placed(ViewOf(s), l, s.procs[pid].parked.value.home)
    requires kn == Emptied(s, pid).ks[pid]
    ensures Emptied(s, pid) == ViewOf(s).(ks := ViewOf(s).ks[pid := kn])
    ensures Relies(s.st, l, pid, kn)
    ensures forall k :: k in l && Answers(Know(s.procs[pid]), pid, k, l[k]) ==> Answers(kn, pid, k, l[k])
  {
    assert s.left + map[] == s.left;
    var b := s.procs[pid].b;
    assert s.st.rows[b := Row(s.st.rows[b].url, None)] == s.st.rows;
  }

  lemma EmptyKeeps(s: Sys, l: Ledger, pid: nat) returns (m: Ledger)
    requires Inv(ViewOf(s), l)
    requires pid < |s.procs| && s.procs[pid].DeleteWrite? && s.procs[pid].b in s.st.rows
    ensures Inv(Emptied(s, pid), m)
  {
    var p := s.procs[pid];
    Unpack(s, l, pid);
    if s.st.rows[p.b].shot.None? {
      m := l;
      if p.parked.Some? { assert Placed(ViewOf(s), l, p.parked.value.home); }
      EmptyNothing(s, l, pid, Emptied(s, pid).ks[pid]);
      LearnKeeps(ViewOf(s), l, Emptied(s, pid), pid, Emptied(s, pid).ks[pid]);
    } else {
      m := l[s.st.rows[p.b].shot.value.key := Dead(Nobody)];
      EmptyForm(s, l, pid, m);
      DetachKeeps(ViewOf(s), l, Emptied(s, pid), m, pid, p.b, Emptied(s, pid).ks[pid], LostDelete);
    }
  }

  lemma DropForm(s: Sys, pid: nat, c: Choice)
    requires pid < |s.procs| && s.procs[pid].DeleteWrite? && s.procs[pid].b in s.st.rows && !c.fail
    ensures After(s, pid, c) == Emptied(s, pid).(st := DropRow(Emptied(s, pid).st, s.procs[pid].b))
  {
    ViewOfStep(s, pid, c);
    assert After(s, pid, c).st.rows == Emptied(s, pid).st.rows - {s.procs[pid].b};
  }

  lemma DropIsQuiet(v: View, l: Ledger, w: View, pid: nat, b: nat)
    requires StoresOk(v, l) && pid < |v.ks| && b in v.st.rows && v.st.rows[b].shot.None?
    requires Relies(v.st, l, pid, v.ks[pid])
    requires w == v.(st := DropRow(v.st, b))
    ensures Quiet(v, l, w, pid)
  {
    assert forall x :: x in v.st.rows ==> RowOk(v.st, l, x);
  }

  lemma DropKeeps(v: View, l: Ledger, w: View, pid: nat, b: nat)
    requires Inv(v, l) && pid < |v.ks| && b in v.st.rows && v.st.rows[b].shot.None?
    requires w == v.(st := DropRow(v.st, b))
    ensures Inv(w, l)
  {
    DropIsQuiet(v, l, w, pid, b);
    QuietKeeps(v, l, w, pid);
  }

  lemma DeleteWriteKeeps(s: Sys, l: Ledger, pid: nat, c: Choice) returns (m: Ledger)
    requires Inv(ViewOf(s), l)
    requires pid < |s.procs| && s.procs[pid].DeleteWrite? && s.procs[pid].b in s.st.rows && !c.fail
    ensures Inv(After(s, pid, c), m)
  {
    m := EmptyKeeps(s, l, pid);
    DropForm(s, pid, c);
    DropKeeps(Emptied(s, pid), m, After(s, pid, c), pid, s.procs[pid].b);
  }

  lemma ShootForm(s: Sys, l: Ledger, pid: nat, c: Choice)
    requires pid < |s.procs| && s.procs[pid].CaptureShoot? && !c.fail
    ensures Mints(ViewOf(s), l, After(s, pid, c), l, pid, Staging, Image(s.procs[pid].use.draft.target, c.final))
  {
    ViewOfStep(s, pid, c);
    assert s.left + map[] == s.left;
  }

  lemma DiscardForm(s: Sys, l: Ledger, pid: nat, c: Choice)
    requires pid < |s.procs| && s.procs[pid].DiscardFile? && !c.fail && Relies(s.st, l, pid, Know(s.procs[pid]))
    ensures Sweeps(ViewOf(s), l, After(s, pid, c), pid, s.procs[pid].key)
  {
    ViewOfStep(s, pid, c);
    assert s.left + map[] == s.left;
  }

  // ---- The cleanup worker ----

  // Only states and times of cleanup records change.
  lemma TableKeeps(s: Sys, l: Ledger, pid: nat, c: Choice, table: seq<Record>, claims: seq<Claim>)
    requires Inv(ViewOf(s), l) && pid < |s.procs|
    requires SameKeys(s.st.cleanups, table) && Copies(table, claims)
    requires After(s, pid, c)
            == ViewOf(s).(st := s.st.(cleanups := table), ks := ViewOf(s).ks[pid := NOTHING.(claims := claims)])
    requires Know(s.procs[pid]) == NOTHING.(claims := Know(s.procs[pid]).claims)
    ensures Inv(After(s, pid, c), l)
  {
    assert forall b :: b in s.st.rows ==> RowOk(s.st, l, b);
    QuietKeeps(ViewOf(s), l, After(s, pid, c), pid);
  }

  lemma TableForm(s: Sys, pid: nat, c: Choice, table: seq<Record>, worker: Worker)
    requires pid < |s.procs| && s.procs[pid].Cleaning? && !s.procs[pid].worker.Removing?
    requires (table, worker) == match s.procs[pid].worker
      case Claiming(limit) => ClaimStep(s.st.cleanups, limit, c.pick, s.st.now, c.fail)
      case Completing(done, rest, at) => CompleteStep(s.st.cleanups, done, rest, at, c.fail)
      case w => (s.st.cleanups, w)
    ensures After(s, pid, c)
            == ViewOf(s).(st := s.st.(cleanups := table), ks := ViewOf(s).ks[pid := NOTHING.(claims := InHand(worker))])
  {
    ViewOfStep(s, pid, c);
    assert s.left + map[] == s.left;
  }

  lemma RemovingForm(s: Sys, l: Ledger, pid: nat, c: Choice)
    requires pid < |s.procs| && s.procs[pid].Cleaning? && s.procs[pid].worker.Removing?
    requires Relies(s.st, l, pid, Know(s.procs[pid]))
    requires forall i :: 0 <= i < |s.st.cleanups| ==> DeadIn(l, s.st.cleanups[i].key)
    ensures var batch := s.procs[pid].worker.batch;
            if |batch| == 0 || c.fail then Reads(s, l, pid, c)
            else Sweeps(ViewOf(s), l, After(s, pid, c), pid, batch[0].record.key)
  {
    ViewOfStep(s, pid, c);
    assert s.left + map[] == s.left;
    var batch := s.procs[pid].worker.batch;
    if |batch| > 0 {
      var kn := Know(Step(s.st, s.procs[pid], c).1);
      assert Know(s.procs[pid]).claims == batch;
      assert forall i :: 0 < i < |batch| ==> kn.claims[i] == batch[i];
      assert kn.claims[0].id == batch[0].id && kn.claims[0].record.key == batch[0].record.key;
    }
  }

  lemma CleaningKeeps(s: Sys, l: Ledger, pid: nat, c: Choice)
    requires Inv(ViewOf(s), l) && pid < |s.procs| && s.procs[pid].Cleaning?
    ensures Inv(After(s, pid, c), l)
  {
    Unpack(s, l, pid);
    match s.procs[pid].worker
    case Removing(batch, _) =>
      RemovingForm(s, l, pid, c);
      if |batch| == 0 || c.fail { ReadKeeps(s, l, pid, c); }
      else { SweepKeeps(ViewOf(s), l, After(s, pid, c), pid, batch[0].record.key); }
    case Completing(done, rest, at) =>
      var (table, worker) := CompleteStep(s.st.cleanups, done, rest, at, c.fail);
      CompleteCopies(s.st.cleanups, done, rest, at, c.fail);
      TableForm(s, pid, c, table, worker);
      TableKeeps(s, l, pid, c, table, InHand(worker));
    case Claiming(limit) =>
      var (table, worker) := ClaimStep(s.st.cleanups, limit, c.pick, s.st.now, c.fail);
      ClaimCopies(s.st.cleanups, limit, c.pick, s.st.now, c.fail);
      TableForm(s, pid, c, table, worker);
      TableKeeps(s, l, pid, c, table, InHand(worker));
    case w =>
      TableForm(s, pid, c, s.st.cleanups, w);
      TableKeeps(s, l, pid, c, s.st.cleanups, []);
  }

  // ---- Every port call of every operation keeps the invariant ----

  lemma CreateKeeps(s: Sys, l: Ledger, pid: nat, c: Choice) returns (m: Ledger)
    requires Inv(ViewOf(s), l) && pid < |s.procs| && IsCreate(s.procs[pid])
    ensures Inv(After(s, pid, c), m)
  {
    Unpack(s, l, pid);
    var p := s.procs[pid];
    m := l;
    if p.CreateConsume? {
      CreateConsumeDrafts(s, l, pid, c);
      DraftKeeps(s, l, pid, c);
    } else if p.CreateUndo? {
      m := ReleasingKeeps(s, l, pid, c);
    } else if p.CreateWrite? && !c.fail {
      m := CreateWriteKeeps(s, l, pid, c);
    } else if p.CreatePromote? && !Step(s.st, p, c).1.Done? {
      m := PromoteKeeps(s, l, pid, c);
    } else {
      CreateReads(s, l, pid, c);
      ReadKeeps(s, l, pid, c);
    }
  }

  lemma UpdateKeeps(s: Sys, l: Ledger, pid: nat, c: Choice) returns (m: Ledger)
    requires Inv(ViewOf(s), l) && pid < |s.procs| && IsUpdate(s.procs[pid])
    ensures Inv(After(s, pid, c), m)
  {
    Unpack(s, l, pid);
    var p := s.procs[pid];
    m := l;
    if p.UpdateConsume? {
      UpdateConsumeDrafts(s, l, pid, c);
      DraftKeeps(s, l, pid, c);
    } else if p.UpdateUndo? || p.UpdateQueue? || (p.UpdateRetire? && !c.fail) {
      m := ReleasingKeeps(s, l, pid, c);
    } else if p.UpdatePromote? && !Step(s.st, p, c).1.Done? {
      m := PromoteKeeps(s, l, pid, c);
    } else if p.UpdateWrite? && !c.fail && p.b in s.st.rows {
      if p.replace {
        m := UpdateWriteKeeps(s, l, pid, c);
      } else {
        PlainUpdateKeeps(s, l, pid, c);
      }
    } else {
      if p.UpdateFind? { UpdateFindReads(s, l, pid, c); }
      else if p.UpdateWrite? { UpdateWriteReads(s, l, pid, c); }
      else { UpdateReads(s, l, pid, c); }
      ReadKeeps(s, l, pid, c);
    }
  }

  lemma DeleteKeeps(s: Sys, l: Ledger, pid: nat, c: Choice) returns (m: Ledger)
    requires Inv(ViewOf(s), l) && pid < |s.procs| && IsDelete(s.procs[pid])
    ensures Inv(After(s, pid, c), m)
  {
    Unpack(s, l, pid);
    var p := s.procs[pid];
    m := l;
    if p.DeleteRestore? {
      m := RestoringKeeps(s, l, pid, c);
    } else if p.DeleteQueue? || (p.DeleteUnlink? && !c.fail) {
      m := ReleasingKeeps(s, l, pid, c);
    } else if p.DeleteQuarantine? && !c.fail && p.key in s.st.files {
      m := QuarantiningKeeps(s, l, pid, c);
    } else if p.DeleteWrite? && !c.fail && p.b in s.st.rows {
      m := DeleteWriteKeeps(s, l, pid, c);
    } else {
      if p.DeleteFind? { DeleteFindReads(s, l, pid, c); } else { DeleteReads(s, l, pid, c); }
      ReadKeeps(s, l, pid, c);
    }
  }

  lemma CaptureKeeps(s: Sys, l: Ledger, pid: nat, c: Choice)
    requires Inv(ViewOf(s), l) && pid < |s.procs| && IsCapture(s.procs[pid])
    ensures Inv(After(s, pid, c), l)
  {
    Unpack(s, l, pid);
    var p := s.procs[pid];
    if p.CaptureShoot? && !c.fail {
      ShootForm(s, l, pid, c);
      MintKeeps(ViewOf(s), l, After(s, pid, c), l, pid, Staging, Image(p.use.draft.target, c.final));
    } else if p.DiscardFile? && !c.fail {
      DiscardForm(s, l, pid, c);
      SweepKeeps(ViewOf(s), l, After(s, pid, c), pid, p.key);
    } else if p.CaptureCreate? || p.CaptureWrite? || p.RetryWrite? || p.DiscardWrite? {
      if p.RetryWrite? { RetryWriteDrafts(s, l, pid, c); }
      else if p.DiscardWrite? { DiscardWriteDrafts(s, l, pid, c); }
      else { CaptureDrafts(s, l, pid, c); }
      DraftKeeps(s, l, pid, c);
    } else {
      if p.RetryFind? { RetryFindReads(s, l, pid, c); }
      else if p.DiscardFind? { DiscardFindReads(s, l, pid, c); }
      else { CaptureReads(s, l, pid, c); }
      ReadKeeps(s, l, pid, c);
    }
  }

  lemma StepKeeps(s: Sys, l: Ledger, pid: nat, c: Choice) returns (m: Ledger)
    requires Inv(ViewOf(s), l) && pid < |s.procs|
    ensures Inv(After(s, pid, c), m)
  {
    var p := s.procs[pid];
    if IsCreate(p) { m := CreateKeeps(s, l, pid, c); }
    else if IsUpdate(p) { m := UpdateKeeps(s, l, pid, c); }
    else if IsDelete(p) { m := DeleteKeeps(s, l, pid, c); }
    else if IsCapture(p) { CaptureKeeps(s, l, pid, c); m := l; }
    else if p.Cleaning? { CleaningKeeps(s, l, pid, c); m := l; }
    else { Unpack(s, l, pid); ReadKeeps(s, l, pid, c); m := l; }
  }
}
