// When a bookmark shows a capture of its own address: in every interleaving, exactly as
// long as no update keeps a screenshot under an address that the row no longer has.
module SagaAddresses {
  import opened ScreenshotModel
  import opened SagaSystem
  import opened SagaLedger
  import opened SagaSafety
  import opened SagaTheorems
  import opened SagaSerial

  // The file at the key of row b's screenshot is a capture of the address in the row.
  ghost predicate Right(s: Sys, b: nat) {
    b in s.st.rows && s.st.rows[b].shot.Some? ==> Shows(s.st, s.st.rows[b].shot.value.key, s.st.rows[b].url)
  }

  // So is the file that process x has set aside, deleting the bookmark.
  ghost predicate RightAside(s: Sys, b: nat, x: nat) {
    b in s.st.rows && s.st.rows[b].shot.Some? && x < |s.procs| ==>
      forall q :: DeletionPending(s.procs[x], b, Parking(q, s.st.rows[b].shot.value.key)) ==>
        Shows(s.st, q, s.st.rows[b].url)
  }

  ghost predicate SameAddress(s: Sys) {
    (forall b :: b in s.st.rows ==> Right(s, b)) && (forall b, x :: b in s.st.rows ==> RightAside(s, b, x))
  }

  // An update that keeps the screenshot, since it read the address it writes, meets a row
  // whose address is another by now, and whose screenshot no failed Restore has lost.
  predicate Mixes(s: Sys, a: Action) {
    && a.Advance? && a.pid < |s.procs| && !a.choice.fail
    && s.procs[a.pid].UpdateWrite?
    && var p := s.procs[a.pid];
       && !p.replace && p.b in s.st.rows
       && s.st.rows[p.b].url != p.url
       && s.st.rows[p.b].shot.Some? && s.st.rows[p.b].shot.value.key !in s.stranded
  }

  // What an operation is about to make public.
  ghost predicate Private(st: Stores, p: Proc) {
    match p
    case CreatePromote(url, use) => use.draft.target == url
    case CreateConsume(url, _, key) => Shows(st, key, url)
    case CreateWrite(url, shot) => shot.Some? ==> Shows(st, shot.value.key, url)
    case UpdatePromote(_, url, _, use) => use.draft.target == url
    case UpdateWrite(_, url, _, replace, shot, _) => replace && shot.Some? ==> Shows(st, shot.value.key, url)
    case _ => true
  }

  ghost predicate Matching(s: Sys) {
    SameAddress(s) && forall pid :: 0 <= pid < |s.procs| ==> Private(s.st, s.procs[pid])
  }

  // What the invariant tells the process that takes a step.
  ghost predicate Near(s: Sys, l: Ledger, pid: nat) {
    pid < |s.procs| && StoresOk(ViewOf(s), l) && Relies(s.st, l, pid, Know(s.procs[pid]))
  }

  // ---- Files keep what they show ----

  // Files of keys that the ledger knows stay as they are, but for a Restore to its home.
  ghost predicate FilesKept(st: Stores, p: Proc, t: Stores, l: Ledger) {
    forall k :: k in l && k in t.files ==>
      || (k in st.files && t.files[k] == st.files[k])
      || (p.DeleteRestore? && k == p.parking.home && p.parking.q in st.files && t.files[k] == st.files[p.parking.q])
  }

  lemma SavingKeepsFiles(s: Sys, l: Ledger, pid: nat, c: Choice)
    requires Near(s, l, pid) && (IsCreate(s.procs[pid]) || IsUpdate(s.procs[pid]))
    ensures FilesKept(s.st, s.procs[pid], Step(s.st, s.procs[pid], c).0, l)
  {
  }

  lemma OtherKeepsFiles(s: Sys, l: Ledger, pid: nat, c: Choice)
    requires Near(s, l, pid) && !IsCreate(s.procs[pid]) && !IsUpdate(s.procs[pid])
    ensures FilesKept(s.st, s.procs[pid], Step(s.st, s.procs[pid], c).0, l)
  {
  }

  lemma KeepsFiles(s: Sys, l: Ledger, pid: nat, c: Choice)
    requires Near(s, l, pid)
    ensures FilesKept(s.st, s.procs[pid], Step(s.st, s.procs[pid], c).0, l)
  {
    if IsCreate(s.procs[pid]) || IsUpdate(s.procs[pid]) { SavingKeepsFiles(s, l, pid, c); }
    else { OtherKeepsFiles(s, l, pid, c); }
  }

  // ---- Private files ----

  lemma OtherStaysPrivate(s: Sys, l: Ledger, pid: nat, c: Choice, q: nat)
    requires Near(s, l, pid) && Near(s, l, q) && q != pid && Private(s.st, s.procs[q])
    ensures Private(Step(s.st, s.procs[pid], c).0, s.procs[q])
  {
    KeepsFiles(s, l, pid, c);
  }

  lemma CreatingIsPrivate(s: Sys, l: Ledger, pid: nat, c: Choice)
    requires Near(s, l, pid) && Private(s.st, s.procs[pid]) && IsCreate(s.procs[pid])
    ensures Private(Step(s.st, s.procs[pid], c).0, Step(s.st, s.procs[pid], c).1)
  {
  }

  lemma UpdatingIsPrivate(s: Sys, l: Ledger, pid: nat, c: Choice)
    requires Near(s, l, pid) && Private(s.st, s.procs[pid]) && IsUpdate(s.procs[pid])
    ensures Private(Step(s.st, s.procs[pid], c).0, Step(s.st, s.procs[pid], c).1)
  {
  }

  lemma RestIsPrivate(st: Stores, p: Proc, c: Choice)
    requires !IsCreate(p) && !IsUpdate(p)
    ensures var q := Step(st, p, c).1; !IsCreate(q) && !IsUpdate(q)
  {
  }

  lemma OwnIsPrivate(s: Sys, l: Ledger, pid: nat, c: Choice)
    requires Near(s, l, pid) && Private(s.st, s.procs[pid])
    ensures Private(Step(s.st, s.procs[pid], c).0, Step(s.st, s.procs[pid], c).1)
  {
    if IsCreate(s.procs[pid]) { CreatingIsPrivate(s, l, pid, c); }
    else if IsUpdate(s.procs[pid]) { UpdatingIsPrivate(s, l, pid, c); }
    else { RestIsPrivate(s.st, s.procs[pid], c); }
  }

  // ---- Rows ----

  // A step leaves a row as it is, writes its own private screenshot into it, or gives it
  // another address.
  ghost predicate RowKept(st: Stores, t: Stores, p: Proc, b: nat)
    requires b in t.rows
  {
    || (b in st.rows && t.rows[b] == st.rows[b])
    || (p.CreateWrite? && t.rows[b] == Row(p.url, p.shot))
    || (p.UpdateWrite? && p.replace && t.rows[b] == Row(p.url, p.shot))
    || (p.UpdateWrite? && !p.replace && b == p.b && b in st.rows && t.rows[b] == Row(p.url, st.rows[b].shot))
  }

  lemma SavingKeepsRows(st: Stores, p: Proc, c: Choice)
    requires IsCreate(p) || IsUpdate(p)
    ensures var t := Step(st, p, c).0; forall b :: b in t.rows ==> RowKept(st, t, p, b)
  {
  }

  lemma KeepsRows(st: Stores, p: Proc, c: Choice)
    ensures var t := Step(st, p, c).0; forall b :: b in t.rows ==> RowKept(st, t, p, b)
  {
    if IsCreate(p) || IsUpdate(p) { SavingKeepsRows(st, p, c); }
  }

  // A screenshot lost to a failed Restore is nowhere.
  ghost predicate LostIsGone(s: Sys, b: nat) {
    RowHasLost(s, b) ==>
      var k := s.st.rows[b].shot.value.key;
      k !in s.st.files && forall pid, q :: 0 <= pid < |s.procs| ==> !DeletionPending(s.procs[pid], b, Parking(q, k))
  }

  predicate RowHasLost(s: Sys, b: nat) {
    b in s.st.rows && s.st.rows[b].shot.Some? && s.st.rows[b].shot.value.key in s.stranded
  }

  lemma LostStaysGone(s: Sys, l: Ledger, b: nat)
    requires Inv(ViewOf(s), l)
    ensures LostIsGone(s, b)
  {
    if RowHasLost(s, b) {
      var k := s.st.rows[b].shot.value.key;
      assert RowOk(s.st, l, b) && StrandedIn(l, k) && Placed(ViewOf(s), l, k);
      forall pid, q | 0 <= pid < |s.procs| ensures !DeletionPending(s.procs[pid], b, Parking(q, k)) {
        Unpack(s, l, pid);
      }
    }
  }

  lemma StaysRight(s: Sys, l: Ledger, pid: nat, c: Choice, b: nat)
    requires Near(s, l, pid) && Private(s.st, s.procs[pid]) && !Mixes(s, Advance(pid, c))
    requires Right(s, b) && RightAside(s, b, pid) && LostIsGone(s, b)
    requires b in Next(s, Advance(pid, c)).st.rows
    ensures Right(Next(s, Advance(pid, c)), b)
  {
    var t := Next(s, Advance(pid, c)).st;
    KeepsFiles(s, l, pid, c);
    KeepsRows(s.st, s.procs[pid], c);
    assert RowKept(s.st, t, s.procs[pid], b);
    assert b in s.st.rows ==> RowOk(s.st, l, b);
    if s.procs[pid].UpdateWrite? || s.procs[pid].CreateWrite? { assert t.files == s.st.files; }
  }

  // A file that process x has set aside stays as it is while another process steps.
  lemma AsideFileStays(s: Sys, l: Ledger, pid: nat, c: Choice, x: nat, b: nat, parking: Parking, url: string)
    requires Near(s, l, pid) && Near(s, l, x) && x != pid && DeletionPending(s.procs[x], b, parking)
    requires Shows(s.st, parking.q, url)
    ensures Shows(Next(s, Advance(pid, c)).st, parking.q, url)
  {
    KeepsFiles(s, l, pid, c);
  }

  // Only a step that mixes changes the address of a row whose file is set aside.
  lemma AsideRowStays(s: Sys, l: Ledger, pid: nat, c: Choice, x: nat, b: nat, parking: Parking)
    requires Near(s, l, pid) && Near(s, l, x) && x != pid && DeletionPending(s.procs[x], b, parking)
    requires !Mixes(s, Advance(pid, c)) && LostIsGone(s, b) && RowHas(Next(s, Advance(pid, c)).st, b, parking.home)
    ensures RowHas(s.st, b, parking.home) && Next(s, Advance(pid, c)).st.rows[b].url == s.st.rows[b].url
  {
    KeepsRows(s.st, s.procs[pid], c);
    assert RowKept(s.st, Next(s, Advance(pid, c)).st, s.procs[pid], b);
  }

  lemma AsideStaysRight(s: Sys, l: Ledger, pid: nat, c: Choice, b: nat, x: nat)
    requires Near(s, l, pid) && Near(s, l, x) && x != pid && !Mixes(s, Advance(pid, c))
    requires RightAside(s, b, x) && LostIsGone(s, b)
    requires b in Next(s, Advance(pid, c)).st.rows
    ensures RightAside(Next(s, Advance(pid, c)), b, x)
  {
    var t := Next(s, Advance(pid, c));
    if t.st.rows[b].shot.Some? {
      var k := t.st.rows[b].shot.value.key;
      forall q | DeletionPending(t.procs[x], b, Parking(q, k)) ensures Shows(t.st, q, t.st.rows[b].url) {
        AsideRowStays(s, l, pid, c, x, b, Parking(q, k));
        AsideFileStays(s, l, pid, c, x, b, Parking(q, k), s.st.rows[b].url);
      }
    }
  }

  lemma OwnAsideStaysRight(s: Sys, l: Ledger, pid: nat, c: Choice, b: nat)
    requires Near(s, l, pid) && Right(s, b) && RightAside(s, b, pid)
    requires b in Next(s, Advance(pid, c)).st.rows
    ensures RightAside(Next(s, Advance(pid, c)), b, pid)
  {
    if IsDelete(s.procs[pid]) { DeletionStaysRight(s, l, pid, c, b); }
    else { NoNewDeletion(s.st, s.procs[pid], c); }
  }

  lemma NoNewDeletion(st: Stores, p: Proc, c: Choice)
    requires !IsDelete(p)
    ensures !IsDelete(Step(st, p, c).1)
  {
  }

  lemma DeletionStaysRight(s: Sys, l: Ledger, pid: nat, c: Choice, b: nat)
    requires Near(s, l, pid) && Right(s, b) && RightAside(s, b, pid) && IsDelete(s.procs[pid])
    requires b in Next(s, Advance(pid, c)).st.rows
    ensures RightAside(Next(s, Advance(pid, c)), b, pid)
  {
  }

  // ---- Every step without mixing keeps every address right ----

  lemma Nearby(s: Sys, l: Ledger, pid: nat)
    requires Inv(ViewOf(s), l) && pid < |s.procs|
    ensures Near(s, l, pid)
  {
    Unpack(s, l, pid);
  }

  lemma StepKeepsRight(s: Sys, l: Ledger, pid: nat, c: Choice, b: nat)
    requires Inv(ViewOf(s), l) && Matching(s) && pid < |s.procs| && !Mixes(s, Advance(pid, c))
    requires b in Next(s, Advance(pid, c)).st.rows
    ensures Right(Next(s, Advance(pid, c)), b)
  {
    LostStaysGone(s, l, b);
    Nearby(s, l, pid);
    StaysRight(s, l, pid, c, b);
  }

  lemma StepKeepsAside(s: Sys, l: Ledger, pid: nat, c: Choice, b: nat, x: nat)
    requires Inv(ViewOf(s), l) && Matching(s) && pid < |s.procs| && x < |s.procs| && !Mixes(s, Advance(pid, c))
    requires b in Next(s, Advance(pid, c)).st.rows
    ensures RightAside(Next(s, Advance(pid, c)), b, x)
  {
    LostStaysGone(s, l, b);
    Nearby(s, l, pid);
    Nearby(s, l, x);
    if x == pid { OwnAsideStaysRight(s, l, pid, c, b); } else { AsideStaysRight(s, l, pid, c, b, x); }
  }

  lemma StepKeepsPrivate(s: Sys, l: Ledger, pid: nat, c: Choice, x: nat)
    requires Inv(ViewOf(s), l) && Matching(s) && pid < |s.procs| && x < |s.procs|
    ensures Private(Next(s, Advance(pid, c)).st, Next(s, Advance(pid, c)).procs[x])
  {
    Nearby(s, l, pid);
    Nearby(s, l, x);
    if x == pid { OwnIsPrivate(s, l, pid, c); } else { OtherStaysPrivate(s, l, pid, c, x); }
  }

  lemma StepKeepsMatching(s: Sys, l: Ledger, pid: nat, c: Choice)
    requires Inv(ViewOf(s), l) && Matching(s) && pid < |s.procs| && !Mixes(s, Advance(pid, c))
    ensures Matching(Next(s, Advance(pid, c)))
  {
    var t := Next(s, Advance(pid, c));
    forall b | b in t.st.rows ensures Right(t, b) { StepKeepsRight(s, l, pid, c, b); }
    forall b, x: nat | b in t.st.rows ensures RightAside(t, b, x) {
      if x < |s.procs| { StepKeepsAside(s, l, pid, c, b, x); }
    }
    forall x | 0 <= x < |t.procs| ensures Private(t.st, t.procs[x]) { StepKeepsPrivate(s, l, pid, c, x); }
  }

  lemma OutsideKeepsMatching(s: Sys, a: Action)
    requires Matching(s) && !a.Advance?
    ensures Matching(Next(s, a))
  {
    var t := Next(s, a);
    forall b, x: nat | b in t.st.rows ensures RightAside(t, b, x) {
      assert RightAside(s, b, x);
    }
    forall b | b in t.st.rows ensures Right(t, b) { assert Right(s, b); }
  }

  // An update that mixes makes its row wrong.
  lemma MixingIsWrong(s: Sys, l: Ledger, a: Action)
    requires Inv(ViewOf(s), l) && SameAddress(s) && Mixes(s, a)
    ensures !SameAddress(Next(s, a))
  {
    var b, t := s.procs[a.pid].b, Next(s, a);
    var k := s.st.rows[b].shot.value.key;
    assert RowOk(s.st, l, b) && Placed(ViewOf(s), l, k);
    assert Right(s, b);
    if l[k].place.Away? {
      var x, q := l[k].place.pid, l[k].place.q;
      assert Answers(ViewOf(s).ks[x], x, k, l[k]);
      WindowIsPending(s.procs[x], b, Parking(q, k));
      assert RightAside(s, b, x) && !RightAside(t, b, x);
    } else {
      assert !Right(t, b);
    }
  }

  // ---- Whole runs ----

  ghost predicate AlwaysSameAddress(actions: seq<Action>) {
    forall i :: 0 <= i <= |actions| ==> SameAddress(Run(START, actions[..i]))
  }

  ghost predicate NeverMixes(actions: seq<Action>) {
    forall i :: 0 <= i < |actions| ==> !Mixes(Run(START, actions[..i]), actions[i])
  }

  lemma {:induction false} NoMixingMatches(actions: seq<Action>)
    requires NeverMixes(actions)
    ensures Matching(Run(START, actions))
    decreases |actions|
  {
    if |actions| > 0 {
      var init, last := actions[..|actions| - 1], actions[|actions| - 1];
      assert forall i :: 0 <= i < |init| ==> init[..i] == actions[..i];
      NoMixingMatches(init);
      var l := Reachable(init);
      var s := Run(START, init);
      if !last.Advance? { OutsideKeepsMatching(s, last); }
      else if last.pid < |s.procs| { StepKeepsMatching(s, l, last.pid, last.choice); }
    }
  }

  // In every interleaving, every bookmark shows captures of its own address at every
  // point of the run if and only if no update of the run keeps a screenshot under an
  // address that the row no longer has.
  lemma SameAddressExactly(actions: seq<Action>)
    ensures AlwaysSameAddress(actions) <==> NeverMixes(actions)
  {
    if NeverMixes(actions) {
      forall i | 0 <= i <= |actions| ensures SameAddress(Run(START, actions[..i])) {
        assert forall j :: 0 <= j < i ==> actions[..i][..j] == actions[..j];
        NoMixingMatches(actions[..i]);
      }
    }
    if AlwaysSameAddress(actions) {
      forall i | 0 <= i < |actions| ensures !Mixes(Run(START, actions[..i]), actions[i]) {
        var l := Reachable(actions[..i]);
        var s := Run(START, actions[..i]);
        assert SameAddress(s) && SameAddress(Run(START, actions[..i + 1]));
        assert actions[..i + 1][..i] == actions[..i];
        if Mixes(s, actions[i]) { MixingIsWrong(s, l, actions[i]); }
      }
    }
  }
}
