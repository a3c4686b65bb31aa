// All or nothing: what the answer of an operation says about the bookmark rows, in every
// interleaving and, more closely, when operations run one after the other.
module SagaOutcome {
  import opened Prelude
  import opened ScreenshotModel
  import opened SagaSystem
  import opened SagaLedger
  import opened SagaSerial
  import DraftOwners

  predicate Put(before: map<nat, Row>, after: map<nat, Row>, b: nat, url: string, shot: Option<Shot>) {
    after == before[b := Row(url, shot)]
  }

  // Saving without a screenshot takes an explicit choice; with one, a capture.
  predicate Allowed(input: SaveInput, shot: Option<Shot>) {
    if shot.None? then input.without else input.capture.Some?
  }

  ghost predicate OldIds(st: Stores) {
    forall b :: b in st.rows ==> b < st.next
  }

  predicate Saves(op: Op) {
    op.Create? || op.Update? || op.Delete?
  }

  // The step is a row write that goes through.
  predicate Writes(st: Stores, p: Proc, c: Choice) {
    && !c.fail
    && (p.CreateWrite? || (p.UpdateWrite? && p.b in st.rows) || (p.DeleteWrite? && p.b in st.rows))
  }

  // The number of row writes that process pid has made.
  function Written(actions: seq<Action>, pid: nat): nat
    decreases |actions|
  {
    if |actions| == 0 then 0
    else
      var init, last := actions[..|actions| - 1], actions[|actions| - 1];
      var s := Run(START, init);
      Written(init, pid)
      + if last.Advance? && last.pid == pid && pid < |s.procs| && Writes(s.st, s.procs[pid], last.choice) then 1 else 0
  }

  // What a row write of the operation may do.
  ghost predicate Made(op: Op, before: map<nat, Row>, after: map<nat, Row>) {
    match op
    case Create(input) =>
      && input.url.Some? && input.described
      && exists b, shot :: Put(before, after, b, input.url.value, shot) && b !in before && Allowed(input, shot)
    case Update(b, input) =>
      && input.url.Some? && input.described && b in before
      && exists shot :: Put(before, after, b, input.url.value, shot) && Chosen(input, before[b].shot, shot)
    case Delete(b, confirm) => confirm && b in before && after == before - {b}
    case _ => false
  }

  // The captured screenshot, or the present one, or by explicit choice none.
  predicate Chosen(input: SaveInput, present: Option<Shot>, shot: Option<Shot>) {
    if input.capture.Some? then shot.Some? else shot == present || (shot.None? && input.without)
  }

  // A process that has written its row.
  predicate HasWritten(p: Proc) {
    p == Done(true) || p.UpdateConsume? || p.UpdateRetire? || p.UpdateQueue? || p.DeleteUnlink? || p.DeleteQueue?
  }

  // A process carries out its operation.
  predicate Follows(op: Op, p: Proc) {
    match op
    case Create(input) =>
      p.Done? || (IsCreate(p) && input.url.Some? && input.described && match p
        case CreateFind(i, url, _) => i == input && url == input.url.value && input.capture.Some?
        case CreatePromote(url, _) => url == input.url.value && input.capture.Some?
        case CreateConsume(url, _, _) => url == input.url.value && input.capture.Some?
        case CreateWrite(url, shot) => url == input.url.value && Allowed(input, shot)
        case _ => true)
    case Update(b, input) =>
      p.Done? || (IsUpdate(p) && match p
        case UpdateFind(x, i) => x == b && i == input
        case UpdateFindDraft(x, _, url, _, _) => x == b && Valid(input, url) && input.capture.Some?
        case UpdatePromote(x, url, _, _) => x == b && Valid(input, url) && input.capture.Some?
        case UpdateWrite(x, url, _, replace, shot, _) =>
          && x == b && Valid(input, url)
          && (if input.capture.Some? then replace && shot.Some? else replace ==> shot.None? && input.without)
        case _ => true)
    case Delete(b, confirm) =>
      p.Done? || (confirm && IsDelete(p) && match p
        case DeleteFind(x) => x == b
        case DeleteQuarantine(x, _) => x == b
        case DeleteWrite(x, _) => x == b
        case _ => true)
    case _ => p.Done? || IsCapture(p) || p.Cleaning?
  }

  predicate Valid(input: SaveInput, url: string) {
    input.url == Some(url) && input.described
  }

  lemma CreateFollows(st: Stores, op: Op, p: Proc, c: Choice)
    requires Follows(op, p) && op.Create?
    ensures Follows(op, Step(st, p, c).1) && (HasWritten(Step(st, p, c).1) <==> HasWritten(p) || Writes(st, p, c))
  {
  }

  lemma UpdateFollows(st: Stores, op: Op, p: Proc, c: Choice)
    requires Follows(op, p) && op.Update?
    ensures Follows(op, Step(st, p, c).1) && (HasWritten(Step(st, p, c).1) <==> HasWritten(p) || Writes(st, p, c))
  {
  }

  lemma DeleteFollows(st: Stores, op: Op, p: Proc, c: Choice)
    requires Follows(op, p) && op.Delete?
    ensures Follows(op, Step(st, p, c).1) && (HasWritten(Step(st, p, c).1) <==> HasWritten(p) || Writes(st, p, c))
  {
  }

  lemma OtherFollows(st: Stores, op: Op, p: Proc, c: Choice)
    requires Follows(op, p) && !Saves(op)
    ensures Follows(op, Step(st, p, c).1) && !Writes(st, p, c)
  {
  }

  // The tally of a process agrees with where it stands.
  predicate Tallied(op: Op, p: Proc, written: nat) {
    Follows(op, p) && written == if Saves(op) && HasWritten(p) then 1 else 0
  }

  lemma StepTallies(st: Stores, op: Op, p: Proc, c: Choice, written: nat)
    requires Tallied(op, p, written)
    ensures Tallied(op, Step(st, p, c).1, written + if Writes(st, p, c) then 1 else 0)
  {
    if op.Create? { CreateFollows(st, op, p, c); }
    else if op.Update? { UpdateFollows(st, op, p, c); }
    else if op.Delete? { DeleteFollows(st, op, p, c); }
    else { OtherFollows(st, op, p, c); }
  }

  lemma SpawnTallies(op: Op)
    ensures Tallied(op, Begin(op), 0)
  {
  }

  lemma {:induction false} NothingWritten(actions: seq<Action>, pid: nat)
    requires pid >= |Run(START, actions).procs|
    ensures Written(actions, pid) == 0
    decreases |actions|
  {
    if |actions| > 0 { NothingWritten(actions[..|actions| - 1], pid); }
  }

  lemma {:induction false} AllTallied(actions: seq<Action>, pid: nat)
    requires pid < |Run(START, actions).procs|
    ensures |DraftOwners.Ops(actions)| == |Run(START, actions).procs|
    ensures Tallied(DraftOwners.Ops(actions)[pid], Run(START, actions).procs[pid], Written(actions, pid))
    decreases |actions|
  {
    DraftOwners.Reachable(actions);
    var init, last := actions[..|actions| - 1], actions[|actions| - 1];
    var s := Run(START, init);
    DraftOwners.Reachable(init);
    if pid < |s.procs| {
      AllTallied(init, pid);
      if last.Advance? && last.pid == pid {
        StepTallies(s.st, DraftOwners.Ops(init)[pid], s.procs[pid], last.choice, Written(init, pid));
      }
    } else {
      NothingWritten(init, pid);
      SpawnTallies(last.op);
    }
  }

  // In every interleaving an operation writes rows at most once, and a finished save or
  // deletion reports success if and only if it has.
  lemma AnswersTellOfWrites(actions: seq<Action>, pid: nat)
    requires pid < |Run(START, actions).procs|
    ensures |DraftOwners.Ops(actions)| == |Run(START, actions).procs|
    ensures var op, p := DraftOwners.Ops(actions)[pid], Run(START, actions).procs[pid];
            && Written(actions, pid) <= 1
            && (Saves(op) && p.Done? ==> (p.ok <==> Written(actions, pid) == 1))
            && (!Saves(op) ==> Written(actions, pid) == 0)
  {
    AllTallied(actions, pid);
  }

  lemma UnwrittenStays(st: Stores, p: Proc, c: Choice)
    requires !Writes(st, p, c)
    ensures Step(st, p, c).0.rows == st.rows
  {
  }

  lemma CreateMakes(st: Stores, op: Op, p: Proc, c: Choice)
    requires Follows(op, p) && Writes(st, p, c) && op.Create? && OldIds(st)
    ensures Made(op, st.rows, Step(st, p, c).0.rows)
  {
    assert Put(st.rows, Step(st, p, c).0.rows, st.next, p.url, p.shot);
  }

  lemma UpdateMakes(st: Stores, op: Op, p: Proc, c: Choice)
    requires Follows(op, p) && Writes(st, p, c) && op.Update?
    ensures Made(op, st.rows, Step(st, p, c).0.rows)
  {
    assert Put(st.rows, Step(st, p, c).0.rows, p.b, p.url, if p.replace then p.shot else st.rows[p.b].shot);
  }

  lemma StepMakes(st: Stores, op: Op, p: Proc, c: Choice)
    requires Follows(op, p) && Writes(st, p, c) && OldIds(st)
    ensures Made(op, st.rows, Step(st, p, c).0.rows)
  {
    if op.Create? { CreateMakes(st, op, p, c); }
    else if op.Update? { UpdateMakes(st, op, p, c); }
  }

  lemma {:induction false} RowIdsAreFresh(actions: seq<Action>)
    ensures OldIds(Run(START, actions).st)
    decreases |actions|
  {
    if |actions| > 0 {
      var init, last := actions[..|actions| - 1], actions[|actions| - 1];
      var s := Run(START, init);
      RowIdsAreFresh(init);
      if last.Advance? && last.pid < |s.procs| { RowIdsStayOld(s.st, s.procs[last.pid], last.choice); }
    }
  }

  // And no step of any interleaving changes rows, but for such a write, which does what
  // its operation was asked to do.
  lemma WritesAreAsked(actions: seq<Action>, a: Action)
    ensures var s, rows := Run(START, actions), Next(Run(START, actions), a).st.rows;
            || rows == s.st.rows
            || (a.Advance? && a.pid < |s.procs| && a.pid < |DraftOwners.Ops(actions)|
                && Writes(s.st, s.procs[a.pid], a.choice) && Made(DraftOwners.Ops(actions)[a.pid], s.st.rows, rows))
  {
    var s := Run(START, actions);
    if a.Advance? && a.pid < |s.procs| {
      var p := s.procs[a.pid];
      if Writes(s.st, p, a.choice) {
        AllTallied(actions, a.pid);
        RowIdsAreFresh(actions);
        StepMakes(s.st, DraftOwners.Ops(actions)[a.pid], p, a.choice);
      } else {
        UnwrittenStays(s.st, p, a.choice);
      }
    }
  }

  // ---- One after the other ----

  // The rows a successful operation leaves.
  ghost predicate Carried(op: Op, before: map<nat, Row>, after: map<nat, Row>) {
    match op
    case Create(input) =>
      && input.url.Some? && input.described
      && exists b, shot :: Put(before, after, b, input.url.value, shot) && b !in before && Allowed(input, shot)
    case Update(b, input) =>
      && input.url.Some? && input.described && b in before
      && (exists shot :: Put(before, after, b, input.url.value, shot))
      && (input.capture.None? ==>
            Put(before, after, b, input.url.value, if input.url.value == before[b].url then before[b].shot else None))
      && (input.capture.Some? ==> after[b].shot.Some?)
      && (input.url.value != before[b].url ==> Allowed(input, after[b].shot))
    case Delete(b, confirm) => confirm && b in before && after == before - {b}
    case _ => after == before
  }

  // A process that has not written its row carries out its operation on these rows.
  ghost predicate Pursues(op: Op, rows: map<nat, Row>, p: Proc) {
    && Follows(op, p) && (Saves(op) ==> !HasWritten(p))
    && match p
       case UpdateFindDraft(b, _, _, _, _) => b in rows
       case UpdatePromote(b, _, _, _) => b in rows
       case UpdateWrite(b, url, _, replace, shot, _) =>
         b in rows && (op.Update? && op.input.capture.None? ==> shot.None? && (replace <==> url != rows[b].url))
       case _ => true
  }

  ghost predicate OnTheWay(op: Op, before: map<nat, Row>, rows: map<nat, Row>, p: Proc) {
    (rows == before && Pursues(op, before, p)) || (Carried(op, before, rows) && HasWritten(p))
  }

  lemma CommittedStays(st: Stores, p: Proc, c: Choice)
    requires HasWritten(p)
    ensures HasWritten(Step(st, p, c).1) && Step(st, p, c).0.rows == st.rows
  {
  }

  lemma CreateCommits(op: Op, st: Stores, p: Proc, c: Choice)
    requires op.Create? && OldIds(st) && Pursues(op, st.rows, p) && Writes(st, p, c)
    ensures Carried(op, st.rows, Step(st, p, c).0.rows)
  {
    assert Put(st.rows, Step(st, p, c).0.rows, st.next, p.url, p.shot);
  }

  lemma UpdateCommits(op: Op, st: Stores, p: Proc, c: Choice)
    requires op.Update? && Pursues(op, st.rows, p) && Writes(st, p, c)
    ensures Carried(op, st.rows, Step(st, p, c).0.rows)
  {
    assert Put(st.rows, Step(st, p, c).0.rows, p.b, p.url, if p.replace then p.shot else st.rows[p.b].shot);
  }

  lemma DeleteCommits(op: Op, st: Stores, p: Proc, c: Choice)
    requires op.Delete? && Pursues(op, st.rows, p) && Writes(st, p, c)
    ensures Carried(op, st.rows, Step(st, p, c).0.rows)
  {
  }

  lemma UpdatePursues(op: Op, st: Stores, p: Proc, c: Choice)
    requires op.Update? && Pursues(op, st.rows, p) && !Writes(st, p, c)
    ensures Pursues(op, st.rows, Step(st, p, c).1)
  {
  }

  lemma SavingPursues(op: Op, st: Stores, p: Proc, c: Choice)
    requires Saves(op) && Pursues(op, st.rows, p) && !Writes(st, p, c)
    ensures Pursues(op, st.rows, Step(st, p, c).1)
  {
    if op.Create? { CreateFollows(st, op, p, c); }
    else if op.Delete? { DeleteFollows(st, op, p, c); }
    else { UpdatePursues(op, st, p, c); }
  }

  lemma OtherPursues(op: Op, st: Stores, p: Proc, c: Choice)
    requires !Saves(op) && Pursues(op, st.rows, p)
    ensures Pursues(op, st.rows, Step(st, p, c).1) && !Writes(st, p, c)
  {
    OtherFollows(st, op, p, c);
  }

  lemma StepOnTheWay(op: Op, before: map<nat, Row>, st: Stores, p: Proc, c: Choice)
    requires OldIds(st) && OnTheWay(op, before, st.rows, p)
    ensures OnTheWay(op, before, Step(st, p, c).0.rows, Step(st, p, c).1)
  {
    if !(st.rows == before && Pursues(op, before, p)) {
      CommittedStays(st, p, c);
    } else if !Saves(op) {
      OtherPursues(op, st, p, c);
      UnwrittenStays(st, p, c);
    } else if Writes(st, p, c) {
      WritingCommits(op, st, p, c);
    } else {
      SavingPursues(op, st, p, c);
      UnwrittenStays(st, p, c);
    }
  }

  lemma WritingCommits(op: Op, st: Stores, p: Proc, c: Choice)
    requires Saves(op) && OldIds(st) && Pursues(op, st.rows, p) && Writes(st, p, c)
    ensures Carried(op, st.rows, Step(st, p, c).0.rows) && HasWritten(Step(st, p, c).1)
  {
    StepTallies(st, op, p, c, 0);
    if op.Create? { CreateCommits(op, st, p, c); }
    else if op.Update? { UpdateCommits(op, st, p, c); }
    else { DeleteCommits(op, st, p, c); }
  }

  // What every step of a process keeps holds at its end.
  lemma FinishKeeps(inv: (Stores, Proc) -> bool, s: Sys, pid: nat, script: seq<Choice>)
    requires pid < |s.procs| && inv(s.st, s.procs[pid])
    requires forall st, p, c :: inv(st, p) ==> inv(Step(st, p, c).0, Step(st, p, c).1)
    ensures var t := Finish(s, pid, script); inv(t.st, t.procs[pid])
    decreases Calls(s.procs[pid])
  {
    if !s.procs[pid].Done? {
      StepsAreFew(s.st, s.procs[pid], Head(script));
      FinishKeeps(inv, Next(s, Advance(pid, Head(script))), pid, Tail(script));
    }
  }

  lemma StaysOnTheWay(op: Op, before: map<nat, Row>, s: Sys, pid: nat, script: seq<Choice>)
    requires pid < |s.procs| && OldIds(s.st) && OnTheWay(op, before, s.st.rows, s.procs[pid])
    ensures var t := Finish(s, pid, script); OnTheWay(op, before, t.st.rows, t.procs[pid])
  {
    var inv := (st: Stores, p: Proc) => OldIds(st) && OnTheWay(op, before, st.rows, p);
    forall st, p, c | inv(st, p) ensures inv(Step(st, p, c).0, Step(st, p, c).1) {
      StepOnTheWay(op, before, st, p, c);
      RowIdsStayOld(st, p, c);
    }
    FinishKeeps(inv, s, pid, script);
  }

  lemma WayEnds(op: Op, before: map<nat, Row>, rows: map<nat, Row>, p: Proc)
    requires OnTheWay(op, before, rows, p) && p.Done?
    ensures if p.ok then Carried(op, before, rows) else rows == before
  {
  }

  lemma RowIdsStayOld(st: Stores, p: Proc, c: Choice)
    requires OldIds(st)
    ensures OldIds(Step(st, p, c).0)
  {
  }

  // An operation that reports an error changed no bookmark; one that reports success
  // carried out exactly what was asked, whichever of its port calls failed.
  lemma AnswersAreTruthful(jobs: seq<Job>, op: Op, script: seq<Choice>)
    ensures var s := DoAll(START, jobs);
            var t := Do(s, Perform(op, script));
            var answer := t.procs[|t.procs| - 1];
            if answer.ok then Carried(op, s.st.rows, t.st.rows) else t.st.rows == s.st.rows
  {
    var s := DoAll(START, jobs);
    RowIdsAreOld(jobs);
    PursuesFromStart(op, s.st.rows);
    StaysOnTheWay(op, s.st.rows, Next(s, Spawn(op)), |s.procs|, script);
    var t := Do(s, Perform(op, script));
    WayEnds(op, s.st.rows, t.st.rows, t.procs[|t.procs| - 1]);
  }

  lemma RowIdsAreOld(jobs: seq<Job>)
    ensures OldIds(DoAll(START, jobs).st)
  {
    var s := DoAll(START, jobs);
    var l := AllSerial(jobs);
    assert forall b :: b in s.st.rows ==> RowOk(s.st, l, b);
  }

  lemma PursuesFromStart(op: Op, rows: map<nat, Row>)
    ensures Pursues(op, rows, Begin(op))
  {
  }
}
