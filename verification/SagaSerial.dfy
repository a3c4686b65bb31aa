// The same operations run one at a time, with any port calls failing: exactly
// which files are left to nobody, and why one failure alone never leaves one.
module SagaSerial {
  import opened Prelude
  import opened ScreenshotModel
  import opened SagaSystem
  import opened SagaLedger
  import opened SagaSafety
  import opened SagaTheorems

  // ---- Operations from start to end ----

  // What the environment does when the script has run out: every call succeeds.
  const SMOOTH := Choice(false, [], "")

  function Head(script: seq<Choice>): Choice {
    if |script| == 0 then SMOOTH else script[0]
  }

  function Tail(script: seq<Choice>): seq<Choice> {
    if |script| == 0 then [] else script[1..]
  }

  // Lets process pid run to its end.
  function Finish(s: Sys, pid: nat, script: seq<Choice>): (r: Sys)
    requires pid < |s.procs|
    ensures |r.procs| == |s.procs| && r.procs[pid].Done?
    decreases Calls(s.procs[pid])
  {
    if s.procs[pid].Done? then s
    else
      StepsAreFew(s.st, s.procs[pid], Head(script));
      Finish(Next(s, Advance(pid, Head(script))), pid, Tail(script))
  }

  datatype Job =
    | Perform(op: Op, script: seq<Choice>)
    | Wait(elapsed: nat)
    | Expire(due: set<nat>)
    | Drop(gone: set<nat>)

  function Do(s: Sys, job: Job): Sys {
    match job
    case Perform(op, script) => Finish(Next(s, Spawn(op)), |s.procs|, script)
    case Wait(elapsed) => Next(s, Tick(elapsed))
    case Expire(due) => Next(s, ExpireDrafts(due))
    case Drop(gone) => Next(s, DropDrafts(gone))
  }

  function DoAll(s: Sys, jobs: seq<Job>): Sys
    decreases |jobs|
  {
    if |jobs| == 0 then s else Do(DoAll(s, jobs[..|jobs| - 1]), jobs[|jobs| - 1])
  }

  // ---- A running operation's private copies agree with the stores ----

  ghost predicate Agrees(st: Stores, left: map<Key, Cause>, p: Proc) {
    match p
    case CreatePromote(url, use) => use.draft.target == url
    case CreateConsume(url, _, key) => Shows(st, key, url)
    case CreateWrite(url, shot) => shot.Some? ==> Shows(st, shot.value.key, url)
    case UpdateFindDraft(b, _, _, prior, _) => b in st.rows && prior == ShotKey(st.rows[b])
    case UpdatePromote(b, url, prior, use) => b in st.rows && prior == ShotKey(st.rows[b]) && use.draft.target == url
    case UpdateWrite(b, url, prior, replace, shot, _) =>
      && b in st.rows && prior == ShotKey(st.rows[b])
      && (if replace then shot.Some? ==> Shows(st, shot.value.key, url) else url == st.rows[b].url)
    case UpdateConsume(_, prior, _) => prior.Some? ==> Loose(st, left, prior.value)
    case UpdateRetire(key, _) => Loose(st, left, key)
    case UpdateQueue(key, _) => Loose(st, left, key)
    case DeleteQuarantine(b, key) => RowHas(st, b, key)
    case DeleteWrite(b, parked) =>
      && b in st.rows
      && if parked.None? then st.rows[b].shot.None?
         else RowHas(st, b, parked.value.home) && Shows(st, parked.value.q, st.rows[b].url)
    case DeleteRestore(b, x) => RowHas(st, b, x.home) && Shows(st, x.q, st.rows[b].url)
    case _ => true
  }

  ghost predicate Shows(st: Stores, k: Key, url: string) {
    k in st.files ==> st.files[k].target == url
  }

  ghost predicate Loose(st: Stores, left: map<Key, Cause>, k: Key) {
    k !in left && !Recorded(st, k)
  }

  // Every existing screenshot of a row is one of the row's own address.
  ghost predicate RowsMatch(st: Stores) {
    forall b :: b in st.rows && st.rows[b].shot.Some? ==> Shows(st, st.rows[b].shot.value.key, st.rows[b].url)
  }

  ghost predicate LeftForGood(st: Stores, left: map<Key, Cause>) {
    forall k :: k in left ==> IsFault(left[k]) && (k in st.files ==> !Recorded(st, k))
  }

  ghost predicate Serial(s: Sys) {
    && RowsMatch(s.st)
    && LeftForGood(s.st, s.left)
    && (forall pid :: 0 <= pid < |s.procs| ==> Agrees(s.st, s.left, s.procs[pid]))
    && (forall pid :: 0 <= pid < |s.procs| - 1 ==> s.procs[pid].Done?)
  }

  // What the invariant adds to that, for the one running process.
  ghost predicate Context(s: Sys, l: Ledger, pid: nat) {
    && pid < |s.procs|
    && StoresOk(ViewOf(s), l)
    && Relies(s.st, l, pid, Know(s.procs[pid]))
    && (forall k :: k in l && l[k].Parked? ==> k in s.st.files)
  }

  ghost predicate StepAgrees(s: Sys, pid: nat, c: Choice)
    requires pid < |s.procs|
  {
    var (st, p) := Step(s.st, s.procs[pid], c);
    var left := s.left + Left(s.st, s.procs[pid], c);
    RowsMatch(st) && LeftForGood(st, left) && Agrees(st, left, p)
  }

  lemma CreateAgrees(s: Sys, l: Ledger, pid: nat, c: Choice)
    requires Context(s, l, pid) && RowsMatch(s.st) && LeftForGood(s.st, s.left) && Agrees(s.st, s.left, s.procs[pid])
    requires IsCreate(s.procs[pid])
    ensures StepAgrees(s, pid, c)
  {
  }

  lemma UpdateReadAgrees(s: Sys, l: Ledger, pid: nat, c: Choice)
    requires Context(s, l, pid) && RowsMatch(s.st) && LeftForGood(s.st, s.left) && Agrees(s.st, s.left, s.procs[pid])
    requires var p := s.procs[pid]; p.UpdateFind? || p.UpdateFindDraft? || p.UpdatePromote?
    ensures StepAgrees(s, pid, c)
  {
  }

  lemma UpdateWriteAgrees(s: Sys, l: Ledger, pid: nat, c: Choice)
    requires Context(s, l, pid) && RowsMatch(s.st) && LeftForGood(s.st, s.left) && Agrees(s.st, s.left, s.procs[pid])
    requires s.procs[pid].UpdateWrite?
    ensures StepAgrees(s, pid, c)
  {
    assert RowOk(s.st, l, s.procs[pid].b);
  }

  lemma UpdateEndAgrees(s: Sys, l: Ledger, pid: nat, c: Choice)
    requires Context(s, l, pid) && RowsMatch(s.st) && LeftForGood(s.st, s.left) && Agrees(s.st, s.left, s.procs[pid])
    requires var p := s.procs[pid]; p.UpdateUndo? || p.UpdateConsume? || p.UpdateRetire? || p.UpdateQueue?
    ensures StepAgrees(s, pid, c)
  {
  }

  lemma DeleteBeginAgrees(s: Sys, l: Ledger, pid: nat, c: Choice)
    requires Context(s, l, pid) && RowsMatch(s.st) && LeftForGood(s.st, s.left) && Agrees(s.st, s.left, s.procs[pid])
    requires s.procs[pid].DeleteFind? || s.procs[pid].DeleteQuarantine?
    ensures StepAgrees(s, pid, c)
  {
  }

  lemma DeleteWriteAgrees(s: Sys, l: Ledger, pid: nat, c: Choice)
    requires Context(s, l, pid) && RowsMatch(s.st) && LeftForGood(s.st, s.left) && Agrees(s.st, s.left, s.procs[pid])
    requires s.procs[pid].DeleteWrite? || s.procs[pid].DeleteRestore?
    ensures StepAgrees(s, pid, c)
  {
  }

  lemma DeleteEndAgrees(s: Sys, l: Ledger, pid: nat, c: Choice)
    requires Context(s, l, pid) && RowsMatch(s.st) && LeftForGood(s.st, s.left) && Agrees(s.st, s.left, s.procs[pid])
    requires s.procs[pid].DeleteUnlink? || s.procs[pid].DeleteQueue?
    ensures StepAgrees(s, pid, c)
  {
  }

  lemma CaptureAgrees(s: Sys, l: Ledger, pid: nat, c: Choice)
    requires Context(s, l, pid) && RowsMatch(s.st) && LeftForGood(s.st, s.left)
    requires var p := s.procs[pid]; p.CaptureCreate? || p.CaptureShoot? || p.CaptureValidate? || p.CaptureWrite?
    ensures StepAgrees(s, pid, c)
  {
  }

  lemma RetryAgrees(s: Sys, l: Ledger, pid: nat, c: Choice)
    requires Context(s, l, pid) && RowsMatch(s.st) && LeftForGood(s.st, s.left)
    requires IsCapture(s.procs[pid])
            && !(var p := s.procs[pid]; p.CaptureCreate? || p.CaptureShoot? || p.CaptureValidate? || p.CaptureWrite?)
    ensures StepAgrees(s, pid, c)
  {
  }

  lemma CleaningAgrees(s: Sys, l: Ledger, pid: nat, c: Choice)
    requires Context(s, l, pid) && RowsMatch(s.st) && LeftForGood(s.st, s.left)
    requires s.procs[pid].Cleaning? && s.procs[pid].worker.Removing?
    ensures StepAgrees(s, pid, c)
  {
  }

  lemma ClaimAgrees(s: Sys, l: Ledger, pid: nat, c: Choice)
    requires Context(s, l, pid) && RowsMatch(s.st) && LeftForGood(s.st, s.left)
    requires s.procs[pid].Cleaning? && s.procs[pid].worker.Claiming?
    ensures StepAgrees(s, pid, c)
  {
  }

  lemma TableAgrees(s: Sys, l: Ledger, pid: nat, c: Choice)
    requires Context(s, l, pid) && RowsMatch(s.st) && LeftForGood(s.st, s.left)
    requires s.procs[pid].Cleaning? && !s.procs[pid].worker.Removing? && !s.procs[pid].worker.Claiming?
    ensures StepAgrees(s, pid, c)
  {
  }

  lemma StepsAgree(s: Sys, l: Ledger, pid: nat, c: Choice)
    requires Context(s, l, pid) && RowsMatch(s.st) && LeftForGood(s.st, s.left) && Agrees(s.st, s.left, s.procs[pid])
    ensures StepAgrees(s, pid, c)
  {
    var p := s.procs[pid];
    if IsCreate(p) { CreateAgrees(s, l, pid, c); }
    else if p.UpdateFind? || p.UpdateFindDraft? || p.UpdatePromote? { UpdateReadAgrees(s, l, pid, c); }
    else if p.UpdateWrite? { UpdateWriteAgrees(s, l, pid, c); }
    else if IsUpdate(p) { UpdateEndAgrees(s, l, pid, c); }
    else if p.DeleteFind? || p.DeleteQuarantine? { DeleteBeginAgrees(s, l, pid, c); }
    else if p.DeleteWrite? || p.DeleteRestore? { DeleteWriteAgrees(s, l, pid, c); }
    else if IsDelete(p) { DeleteEndAgrees(s, l, pid, c); }
    else if p.CaptureCreate? || p.CaptureShoot? || p.CaptureValidate? || p.CaptureWrite? {
      CaptureAgrees(s, l, pid, c);
    }
    else if IsCapture(p) { RetryAgrees(s, l, pid, c); }
    else if p.Cleaning? && p.worker.Removing? { CleaningAgrees(s, l, pid, c); }
    else if p.Cleaning? && p.worker.Claiming? { ClaimAgrees(s, l, pid, c); }
    else if p.Cleaning? { TableAgrees(s, l, pid, c); }
    else { assert s.left + map[] == s.left; }
  }

  lemma InContext(s: Sys, l: Ledger, pid: nat)
    requires Inv(ViewOf(s), l) && pid < |s.procs|
    ensures Context(s, l, pid)
  {
    Unpack(s, l, pid);
    assert forall k :: k in l ==> Placed(ViewOf(s), l, k);
  }

  lemma StaysSerial(s: Sys, c: Choice)
    requires Serial(s) && |s.procs| > 0 && StepAgrees(s, |s.procs| - 1, c)
    ensures Serial(Next(s, Advance(|s.procs| - 1, c)))
  {
  }

  lemma AgreedInContext(s: Sys, l: Ledger, c: Choice)
    requires |s.procs| > 0 && Context(s, l, |s.procs| - 1) && Serial(s)
    ensures StepAgrees(s, |s.procs| - 1, c)
  {
    assert Agrees(s.st, s.left, s.procs[|s.procs| - 1]);
    StepsAgree(s, l, |s.procs| - 1, c);
  }

  lemma StepIsAgreed(s: Sys, l: Ledger, c: Choice)
    requires Inv(ViewOf(s), l) && Serial(s) && |s.procs| > 0
    ensures StepAgrees(s, |s.procs| - 1, c)
  {
    InContext(s, l, |s.procs| - 1);
    AgreedInContext(s, l, c);
  }

  lemma SerialStep(s: Sys, l: Ledger, c: Choice) returns (m: Ledger)
    requires Inv(ViewOf(s), l) && Serial(s) && |s.procs| > 0
    ensures Inv(ViewOf(Next(s, Advance(|s.procs| - 1, c))), m) && Serial(Next(s, Advance(|s.procs| - 1, c)))
  {
    var pid := |s.procs| - 1;
    StepIsAgreed(s, l, c);
    StaysSerial(s, c);
    m := StepKeeps(s, l, pid, c);
  }

  ghost predicate Sound(s: Sys, l: Ledger) {
    Inv(ViewOf(s), l) && Serial(s)
  }

  lemma FinishSerial(s: Sys, l: Ledger, script: seq<Choice>) returns (m: Ledger)
    requires Sound(s, l) && |s.procs| > 0
    ensures Sound(Finish(s, |s.procs| - 1, script), m)
    decreases Calls(s.procs[|s.procs| - 1])
  {
    var pid := |s.procs| - 1;
    if s.procs[pid].Done? {
      m := l;
    } else {
      var m1 := SerialStep(s, l, Head(script));
      StepsAreFew(s.st, s.procs[pid], Head(script));
      m := FinishSerial(Next(s, Advance(pid, Head(script))), m1, Tail(script));
    }
  }

  // Between operations: nothing is running.
  ghost predicate Quiescent(s: Sys) {
    forall pid :: 0 <= pid < |s.procs| ==> s.procs[pid].Done?
  }

  lemma PauseSerial(s: Sys, l: Ledger, a: Action) returns (m: Ledger)
    requires Inv(ViewOf(s), l) && Serial(s) && Quiescent(s)
    requires a.Tick? || a.ExpireDrafts? || a.DropDrafts?
    ensures Inv(ViewOf(Next(s, a)), m) && Serial(Next(s, a)) && Quiescent(Next(s, a))
  {
    m := NextKeeps(s, l, a);
    assert RowsMatch(Next(s, a).st);
  }

  lemma SpawnSerial(s: Sys, l: Ledger, op: Op) returns (m: Ledger)
    requires Inv(ViewOf(s), l) && Serial(s) && Quiescent(s)
    ensures Inv(ViewOf(Next(s, Spawn(op))), m) && Serial(Next(s, Spawn(op)))
  {
    m := NextKeeps(s, l, Spawn(op));
    assert Agrees(s.st, s.left, Begin(op));
  }

  lemma DoSerial(s: Sys, l: Ledger, job: Job) returns (m: Ledger)
    requires Inv(ViewOf(s), l) && Serial(s) && Quiescent(s)
    ensures Inv(ViewOf(Do(s, job)), m) && Serial(Do(s, job)) && Quiescent(Do(s, job))
  {
    match job
    case Perform(op, script) =>
      m := SpawnSerial(s, l, op);
      m := FinishSerial(Next(s, Spawn(op)), m, script);
    case Wait(elapsed) => m := PauseSerial(s, l, Tick(elapsed));
    case Expire(due) => m := PauseSerial(s, l, ExpireDrafts(due));
    case Drop(gone) => m := PauseSerial(s, l, DropDrafts(gone));
  }

  lemma {:induction false} AllSerial(jobs: seq<Job>) returns (l: Ledger)
    ensures Inv(ViewOf(DoAll(START, jobs)), l) && Serial(DoAll(START, jobs)) && Quiescent(DoAll(START, jobs))
    decreases |jobs|
  {
    if |jobs| == 0 {
      l := map[];
    } else {
      var l0 := AllSerial(jobs[..|jobs| - 1]);
      l := DoSerial(DoAll(START, jobs[..|jobs| - 1]), l0, jobs[|jobs| - 1]);
    }
  }

  // ---- Operations one after the other are an interleaving like any other ----

  lemma {:induction false} RunOfConcat(s: Sys, a: seq<Action>, b: seq<Action>)
    ensures Run(s, a + b) == Run(Run(s, a), b)
    decreases |b|
  {
    if |b| == 0 {
      assert a + b == a;
    } else {
      assert (a + b)[..|a + b| - 1] == a + b[..|b| - 1];
      RunOfConcat(s, a, b[..|b| - 1]);
    }
  }

  lemma RunOfOne(s: Sys, a: Action)
    ensures Run(s, [a]) == Next(s, a)
  {
    assert [a][..0] == [] && Run(s, []) == s;
  }

  lemma FinishIsARun(s: Sys, pid: nat, script: seq<Choice>) returns (actions: seq<Action>)
    requires pid < |s.procs|
    ensures Run(s, actions) == Finish(s, pid, script)
    decreases Calls(s.procs[pid])
  {
    if s.procs[pid].Done? {
      actions := [];
    } else {
      var a := Advance(pid, Head(script));
      StepsAreFew(s.st, s.procs[pid], Head(script));
      var rest := FinishIsARun(Next(s, a), pid, Tail(script));
      RunOfOne(s, a);
      RunOfConcat(s, [a], rest);
      actions := [a] + rest;
    }
  }

  lemma DoIsARun(s: Sys, job: Job) returns (actions: seq<Action>)
    ensures Run(s, actions) == Do(s, job)
  {
    match job
    case Perform(op, script) =>
      var rest := FinishIsARun(Next(s, Spawn(op)), |s.procs|, script);
      RunOfOne(s, Spawn(op));
      RunOfConcat(s, [Spawn(op)], rest);
      actions := [Spawn(op)] + rest;
    case Wait(elapsed) => actions := [Tick(elapsed)]; RunOfOne(s, Tick(elapsed));
    case Expire(due) => actions := [ExpireDrafts(due)]; RunOfOne(s, ExpireDrafts(due));
    case Drop(gone) => actions := [DropDrafts(gone)]; RunOfOne(s, DropDrafts(gone));
  }

  lemma {:induction false} JobsAreARun(jobs: seq<Job>) returns (actions: seq<Action>)
    ensures Run(START, actions) == DoAll(START, jobs)
    decreases |jobs|
  {
    if |jobs| == 0 {
      actions := [];
    } else {
      var init := JobsAreARun(jobs[..|jobs| - 1]);
      var rest := DoIsARun(DoAll(START, jobs[..|jobs| - 1]), jobs[|jobs| - 1]);
      RunOfConcat(START, init, rest);
      actions := init + rest;
    }
  }

  // Between operations the file of a succeeded cleanup record is always gone.
  lemma RecordsInUse(jobs: seq<Job>, k: Key)
    ensures var st := DoAll(START, jobs).st; k in st.files ==> (Named(st, k) <==> Recorded(st, k))
    ensures SuccessesAreGone(DoAll(START, jobs))
  {
    var actions := JobsAreARun(jobs);
    SucceededFilesAreGone(actions);
    var l := AllSerial(jobs);
  }

  // ---- Exact conservation ----

  lemma NothingInHand(s: Sys, k: Key)
    requires Quiescent(s)
    ensures forall pid :: 0 <= pid < |s.procs| ==> !InHandOf(s.procs[pid], k)
  {
  }

  // Between operations, the untracked files are exactly those left by a failed
  // compensation, a failed Restore or a failed CreateScreenshotCleanup.
  lemma UntrackedExactly(jobs: seq<Job>, k: Key)
    ensures var s := DoAll(START, jobs);
            && (Untracked(s, k) <==> k in s.left && k in s.st.files)
            && (k in s.left ==> IsFault(s.left[k]))
  {
    var s := DoAll(START, jobs);
    var l := AllSerial(jobs);
    NothingInHand(s, k);
    RecordsInUse(jobs, k);
    if k in s.left {
      assert DeadIn(l, k);
      forall b ensures !RowHas(s.st, b, k) {
        if b in s.st.rows { assert RowOk(s.st, l, b); }
      }
    }
    if k in s.st.files && k.area != Staging { KeptUnlessLeft(s, l, k); }
  }

  // Between operations, a row lacks its file exactly when a Restore of it failed.
  lemma MissingExactly(jobs: seq<Job>, b: nat)
    requires var s := DoAll(START, jobs); b in s.st.rows && s.st.rows[b].shot.Some?
    ensures var s := DoAll(START, jobs);
            var shot := s.st.rows[b].shot.value;
            && (shot.key !in s.st.files <==> shot.key in s.stranded)
            && (shot.key in s.st.files ==> s.st.files[shot.key] == Image(s.st.rows[b].url, shot.captured))
  {
    var s := DoAll(START, jobs);
    var l := AllSerial(jobs);
    var k := s.st.rows[b].shot.value.key;
    assert RowOk(s.st, l, b);
    assert Placed(ViewOf(s), l, k);
    assert l[k].place.Away? ==> Answers(ViewOf(s).ks[l[k].place.pid], l[k].place.pid, k, l[k]);
  }

  // ---- One failure never leaves a file behind ----

  function Faults(script: seq<Choice>): nat {
    if |script| == 0 then 0 else (if script[0].fail then 1 else 0) + Faults(script[1..])
  }

  // The operation is making up for a call that failed before.
  predicate Recovering(p: Proc) {
    p.CreateUndo? || p.UpdateUndo? || p.UpdateQueue? || p.DeleteRestore? || p.DeleteQueue?
  }

  ghost predicate LeavesNothing(s: Sys, pid: nat, c: Choice)
    requires pid < |s.procs|
  {
    && Left(s.st, s.procs[pid], c) == map[] && Strands(s.st, s.procs[pid], c) == {}
    && (Recovering(Step(s.st, s.procs[pid], c).1) ==> c.fail)
  }

  lemma SavingLeavesNothing(s: Sys, l: Ledger, pid: nat, c: Choice)
    requires pid < |s.procs| && Agrees(s.st, s.left, s.procs[pid])
    requires IsCreate(s.procs[pid]) || IsUpdate(s.procs[pid])
    requires !(Recovering(s.procs[pid]) && c.fail)
    ensures LeavesNothing(s, pid, c)
  {
  }

  lemma DeletingLeavesNothing(s: Sys, l: Ledger, pid: nat, c: Choice)
    requires Context(s, l, pid) && Agrees(s.st, s.left, s.procs[pid])
    requires IsDelete(s.procs[pid])
    requires !(Recovering(s.procs[pid]) && c.fail)
    ensures LeavesNothing(s, pid, c)
  {
  }

  lemma StepLeavesNothing(s: Sys, l: Ledger, pid: nat, c: Choice)
    requires Context(s, l, pid) && Agrees(s.st, s.left, s.procs[pid])
    requires !(Recovering(s.procs[pid]) && c.fail)
    ensures LeavesNothing(s, pid, c)
  {
    if IsCreate(s.procs[pid]) || IsUpdate(s.procs[pid]) { SavingLeavesNothing(s, l, pid, c); }
    else if IsDelete(s.procs[pid]) { DeletingLeavesNothing(s, l, pid, c); }
  }

  ghost predicate ChangesNothing(s: Sys, pid: nat, c: Choice)
    requires pid < |s.procs|
  {
    var t := Next(s, Advance(pid, c));
    t.left == s.left && t.stranded == s.stranded && (Recovering(t.procs[pid]) ==> c.fail)
  }

  lemma ContextLeavesNothing(s: Sys, l: Ledger, pid: nat, c: Choice)
    requires Context(s, l, pid) && Agrees(s.st, s.left, s.procs[pid])
    requires !(Recovering(s.procs[pid]) && c.fail)
    ensures ChangesNothing(s, pid, c)
  {
    StepLeavesNothing(s, l, pid, c);
    assert s.left + map[] == s.left;
  }

  lemma NextLeavesNothing(s: Sys, l: Ledger, c: Choice)
    requires Inv(ViewOf(s), l) && Serial(s) && |s.procs| > 0
    requires !(Recovering(s.procs[|s.procs| - 1]) && c.fail)
    ensures ChangesNothing(s, |s.procs| - 1, c)
  {
    InContext(s, l, |s.procs| - 1);
    ContextLeavesNothing(s, l, |s.procs| - 1, c);
  }

  lemma FinishLeavesNothing(s: Sys, l: Ledger, script: seq<Choice>)
    requires Inv(ViewOf(s), l) && Serial(s) && |s.procs| > 0
    requires Faults(script) <= if Recovering(s.procs[|s.procs| - 1]) then 0 else 1
    ensures var t := Finish(s, |s.procs| - 1, script); t.left == s.left && t.stranded == s.stranded
    decreases Calls(s.procs[|s.procs| - 1])
  {
    var pid := |s.procs| - 1;
    if !s.procs[pid].Done? {
      NextLeavesNothing(s, l, Head(script));
      var m := SerialStep(s, l, Head(script));
      StepsAreFew(s.st, s.procs[pid], Head(script));
      FinishLeavesNothing(Next(s, Advance(pid, Head(script))), m, Tail(script));
    }
  }

  predicate OneFault(job: Job) {
    job.Perform? ==> Faults(job.script) <= 1
  }

  lemma {:induction false} SingleFaultsLeaveNothing(jobs: seq<Job>)
    requires forall i :: 0 <= i < |jobs| ==> OneFault(jobs[i])
    ensures DoAll(START, jobs).left == map[] && DoAll(START, jobs).stranded == {}
    decreases |jobs|
  {
    if |jobs| > 0 {
      var init, job := jobs[..|jobs| - 1], jobs[|jobs| - 1];
      SingleFaultsLeaveNothing(init);
      var s := DoAll(START, init);
      var l := AllSerial(init);
      if job.Perform? {
        var m := SpawnSerial(s, l, job.op);
        assert OneFault(job) && !Recovering(Begin(job.op));
        FinishLeavesNothing(Next(s, Spawn(job.op)), m, job.script);
      }
    }
  }

  // Between operations that each suffered at most one failure, every promoted or
  // quarantined file is the screenshot of one row or named by a cleanup record, never
  // both, and every row's screenshot is there.
  lemma SingleFaultConservation(jobs: seq<Job>, k: Key)
    requires forall i :: 0 <= i < |jobs| ==> OneFault(jobs[i])
    ensures var s := DoAll(START, jobs);
            && (k in s.st.files && k.area != Staging ==> (Referenced(s.st, k) <==> !Named(s.st, k)))
            && (Referenced(s.st, k) ==> k in s.st.files)
            && (forall a, b :: RowHas(s.st, a, k) && RowHas(s.st, b, k) ==> a == b)
  {
    SingleFaultsLeaveNothing(jobs);
    UntrackedExactly(jobs, k);
    ReferencedIsThere(jobs, k);
    var l := AllSerial(jobs);
    NothingInHand(DoAll(START, jobs), k);
    RecordsInUse(jobs, k);
    ReferencesAreExclusive(DoAll(START, jobs), l, k);
  }

  lemma ReferencedIsThere(jobs: seq<Job>, k: Key)
    requires DoAll(START, jobs).stranded == {}
    ensures Referenced(DoAll(START, jobs).st, k) ==> k in DoAll(START, jobs).st.files
  {
    if Referenced(DoAll(START, jobs).st, k) {
      var b :| RowHas(DoAll(START, jobs).st, b, k);
      MissingExactly(jobs, b);
    }
  }

  lemma ReferencesAreExclusive(s: Sys, l: Ledger, k: Key)
    requires StoresOk(ViewOf(s), l)
    ensures !(Referenced(s.st, k) && Recorded(s.st, k))
    ensures forall a, b :: RowHas(s.st, a, k) && RowHas(s.st, b, k) ==> a == b
  {
    forall b | RowHas(s.st, b, k) ensures LiveIn(l, b, k) {
      assert RowOk(s.st, l, b);
    }
    assert Recorded(s.st, k) ==> DeadIn(l, k);
  }
}
