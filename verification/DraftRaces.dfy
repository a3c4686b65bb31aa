// Overlapping operations that change a terminal draft state: of two retries, the later one
// revives a draft that has been consumed, and it is consumed again; and a capture makes a
// draft ready that has expired meanwhile.
module DraftRaces {
  import opened Prelude
  import opened ScreenshotModel
  import opened SagaSystem
  import opened SagaSerial

  ghost predicate Leads(s: Sys, t: Sys) {
    exists actions :: Run(s, actions) == t
  }

  lemma LeadsOn(s: Sys, t: Sys, u: Sys)
    requires Leads(s, t) && Leads(t, u)
    ensures Leads(s, u)
  {
    var a :| Run(s, a) == t;
    var b :| Run(t, b) == u;
    RunOfConcat(s, a, b);
  }

  lemma LeadsByOne(s: Sys, a: Action)
    ensures Leads(s, Next(s, a))
  {
    RunOfOne(s, a);
  }

  const GO := Choice(false, [], "f")

  // A port call that succeeds and leaves nothing behind.
  lemma Goes(s: Sys, t: Sys, pid: nat, st: Stores, p: Proc)
    requires Leads(s, t) && pid < |t.procs| && Step(t.st, t.procs[pid], GO) == (st, p)
    requires Left(t.st, t.procs[pid], GO) == map[] && Strands(t.st, t.procs[pid], GO) == {}
    ensures Leads(s, t.(st := st, procs := t.procs[pid := p]))
  {
    LeadsByOne(t, Advance(pid, GO));
    assert t.left + map[] == t.left && t.stranded + {} == t.stranded;
    assert Next(t, Advance(pid, GO)) == t.(st := st, procs := t.procs[pid := p]);
    LeadsOn(s, t, Next(t, Advance(pid, GO)));
  }

  lemma Stays(s: Sys)
    ensures Leads(s, s)
  {
    assert Run(s, []) == s;
  }

  // ---- A retry that has passed its check runs to its end ----

  function Captured(st: Stores, d: nat): Stores
    requires d in st.drafts
  {
    var key := FreshKey(st, Staging);
    var ready := st.drafts[d].(state := Ready, staged := Some(key), final := "f", failure := NoFailure);
    st.(files := st.files[key := Image(st.drafts[d].target, "f")], drafts := st.drafts[d := ready], next := st.next + 1)
  }

  // The copy that a retry has in hand.
  predicate Retrying(st: Stores, p: Proc, d: nat) {
    && d in st.drafts && p.RetryWrite? && p.use.id == d
    && p.use.draft.target == st.drafts[d].target && p.use.draft.failure == NoFailure
  }

  // A capture in front of its shot goes on to its check.
  lemma Shoots(s: Sys, t: Sys, pid: nat, use: Consumption, key: Key, st: Stores)
    requires Leads(s, t) && pid < |t.procs| && t.procs[pid] == CaptureShoot(use)
    requires key == FreshKey(t.st, Staging)
    requires st == t.st.(files := t.st.files[key := Image(use.draft.target, "f")], next := t.st.next + 1)
    ensures Leads(s, t.(st := st, procs := t.procs[pid := CaptureValidate(use, key, "f")]))
  {
    Goes(s, t, pid, st, CaptureValidate(use, key, "f"));
  }

  // From the check to the draft write.
  lemma Checks(s: Sys, t: Sys, pid: nat, use: Consumption, key: Key, ready: Draft)
    requires Leads(s, t) && pid < |t.procs| && t.procs[pid] == CaptureValidate(use, key, "f") && key in t.st.files
    requires ready == use.draft.(state := Ready, staged := Some(key), final := "f")
    ensures Leads(s, t.(procs := t.procs[pid := CaptureWrite(use.(draft := ready))]))
  {
    Goes(s, t, pid, t.st, CaptureWrite(use.(draft := ready)));
    assert t.(st := t.st, procs := t.procs[pid := CaptureWrite(use.(draft := ready))])
        == t.(procs := t.procs[pid := CaptureWrite(use.(draft := ready))]);
  }

  // The draft write.
  lemma Writes(s: Sys, t: Sys, pid: nat, use: Consumption)
    requires Leads(s, t) && pid < |t.procs| && t.procs[pid] == CaptureWrite(use) && use.id in t.st.drafts
    ensures Leads(s, t.(st := PutDraft(t.st, use.id, use.draft), procs := t.procs[pid := Done(true)]))
  {
    Goes(s, t, pid, PutDraft(t.st, use.id, use.draft), Done(true));
  }

  lemma RetryRuns(s: Sys, pid: nat, d: nat)
    requires pid < |s.procs| && Retrying(s.st, s.procs[pid], d)
    ensures Leads(s, s.(st := Captured(s.st, d), procs := s.procs[pid := Done(true)]))
  {
    var use := s.procs[pid].use;
    var key := FreshKey(s.st, Staging);
    Stays(s);
    var st1 := PutDraft(s.st, d, use.draft);
    Goes(s, s, pid, st1, CaptureShoot(use));
    var s1 := s.(st := st1, procs := s.procs[pid := CaptureShoot(use)]);
    var st2 := st1.(files := st1.files[key := Image(use.draft.target, "f")], next := st1.next + 1);
    Shoots(s, s1, pid, use, key, st2);
    var s2 := s1.(st := st2, procs := s1.procs[pid := CaptureValidate(use, key, "f")]);
    RetryEnds(s, s2, pid, d, use, key);
    assert s2.procs[pid := Done(true)] == s.procs[pid := Done(true)];
    var ready := use.draft.(state := Ready, staged := Some(key), final := "f");
    assert PutDraft(st2, d, ready).drafts == Captured(s.st, d).drafts;
  }

  lemma RetryEnds(s: Sys, t: Sys, pid: nat, d: nat, use: Consumption, key: Key)
    requires Leads(s, t) && pid < |t.procs| && t.procs[pid] == CaptureValidate(use, key, "f")
    requires use.id == d && d in t.st.drafts && key in t.st.files
    ensures var ready := use.draft.(state := Ready, staged := Some(key), final := "f");
            Leads(s, t.(st := PutDraft(t.st, d, ready), procs := t.procs[pid := Done(true)]))
  {
    var ready := use.draft.(state := Ready, staged := Some(key), final := "f");
    Checks(s, t, pid, use, key, ready);
    var t1 := t.(procs := t.procs[pid := CaptureWrite(use.(draft := ready))]);
    Writes(s, t1, pid, use.(draft := ready));
    assert t1.procs[pid := Done(true)] == t.procs[pid := Done(true)];
  }

  // ---- A bookmark is saved with a ready draft ----

  predicate Savable(st: Stores, d: nat) {
    && d in st.drafts && st.drafts[d].state == Ready && !IsExpired(st.drafts[d], st.now)
    && st.drafts[d].staged.Some? && st.drafts[d].staged.value in st.files
  }

  function Taken(st: Stores, d: nat): Stores
    requires Savable(st, d)
  {
    MoveToFresh(st, st.drafts[d].staged.value, Promoted)
  }

  function SavedWith(st: Stores, d: nat): Stores
    requires Savable(st, d)
  {
    var draft, taken := st.drafts[d], Taken(st, d);
    var consumed := taken.(drafts := taken.drafts[d := draft.(state := Consumed)]);
    InsertRow(consumed, draft.target, Some(Shot(FreshKey(st, Promoted), draft.final)))
  }

  lemma SaveRuns(s: Sys, d: nat)
    requires Savable(s.st, d)
    ensures Leads(s, s.(st := SavedWith(s.st, d), procs := s.procs + [Done(true)]))
  {
    var draft, pid := s.st.drafts[d], |s.procs|;
    var url, use := draft.target, Consumption(d, draft);
    var input := SaveInput(draft.owner, Some(url), true, Some(d), false);
    LeadsByOne(s, Spawn(Create(input)));
    var s1 := s.(procs := s.procs + [CreateFind(input, url, d)]);
    Goes(s, s1, pid, s.st, CreatePromote(url, use));
    var s2 := s.(procs := s.procs + [CreatePromote(url, use)]);
    assert s1.procs[pid := CreatePromote(url, use)] == s2.procs;
    var shot := Shot(FreshKey(s.st, Promoted), draft.final);
    Goes(s, s2, pid, Taken(s.st, d), CreateConsume(url, use, shot.key));
    var s3 := s.(st := Taken(s.st, d), procs := s.procs + [CreateConsume(url, use, shot.key)]);
    assert s2.procs[pid := CreateConsume(url, use, shot.key)] == s3.procs;
    SaveEnds(s, s3, d, use, shot);
  }

  lemma SaveEnds(s: Sys, t: Sys, d: nat, use: Consumption, shot: Shot)
    requires Savable(s.st, d) && use == Consumption(d, s.st.drafts[d])
    requires shot == Shot(FreshKey(s.st, Promoted), use.draft.final)
    requires t == s.(st := Taken(s.st, d), procs := s.procs + [CreateConsume(use.draft.target, use, shot.key)])
    requires Leads(s, t)
    ensures Leads(s, s.(st := SavedWith(s.st, d), procs := s.procs + [Done(true)]))
  {
    var url, pid := use.draft.target, |s.procs|;
    var st1 := PutDraft(t.st, d, use.draft.(state := Consumed));
    Goes(s, t, pid, st1, CreateWrite(url, Some(shot)));
    var t1 := s.(st := st1, procs := s.procs + [CreateWrite(url, Some(shot))]);
    assert t.procs[pid := CreateWrite(url, Some(shot))] == t1.procs;
    Goes(s, t1, pid, InsertRow(st1, url, Some(shot)), Done(true));
    assert t1.procs[pid := Done(true)] == s.procs + [Done(true)];
  }

  // ---- A draft whose capture failed, and two retries past their check ----

  const FAILURE := Draft(7, None, "u", Failed, None, "", CaptureFailed, 16)
  const COPY := Consumption(0, FAILURE.(state := Capturing, failure := NoFailure))
  const BROKEN := Stores(map[], map[], map[0 := FAILURE], [], 1, 1)

  const CAPTURING := BROKEN.(drafts := map[0 := FAILURE.(state := Capturing, failure := NoFailure)])

  // The draft of a new capture is stored.
  lemma Creates(s: Sys, t: Sys, pid: nat, draft: Draft, lifetime: nat, st: Stores)
    requires Leads(s, t) && pid < |t.procs|
    requires t.procs[pid] == CaptureCreate(draft.owner, draft.target, draft.bookmark, lifetime)
    requires draft.state == Capturing && draft.staged == None && draft.final == "" && draft.failure == NoFailure
    requires draft.expires == t.st.now + lifetime
    requires st == t.st.(drafts := t.st.drafts[t.st.next := draft], next := t.st.next + 1)
    ensures Leads(s, t.(st := st, procs := t.procs[pid := CaptureShoot(Consumption(t.st.next, draft))]))
  {
    Goes(s, t, pid, st, CaptureShoot(Consumption(t.st.next, draft)));
  }

  lemma Asks()
    ensures Leads(START, Sys(EMPTY, [CaptureCreate(7, "u", None, 15)], map[], {}))
  {
    LeadsByOne(START, Spawn(StartCapture(7, Some("u"), None, 15)));
  }

  // A capture is started, up to its shot.
  lemma Begins()
    ensures Leads(START, Sys(CAPTURING, [CaptureShoot(COPY)], map[], {}))
  {
    Asks();
    var s := Sys(EMPTY, [CaptureCreate(7, "u", None, 15)], map[], {});
    Creates(START, s, 0, COPY.draft, 15, CAPTURING);
    assert s.procs[0 := CaptureShoot(COPY)] == [CaptureShoot(COPY)];
  }

  // The shot fails.
  lemma Misses(t: Sys, use: Consumption)
    requires Leads(START, t) && t.procs == [CaptureShoot(use)]
    ensures var failed := use.draft.(state := Failed, failure := CaptureFailed);
            Leads(START, t.(procs := [CaptureWrite(use.(draft := failed))]))
  {
    var failed := use.draft.(state := Failed, failure := CaptureFailed);
    var fail := Advance(0, Choice(true, [], ""));
    LeadsByOne(t, fail);
    var u := t.(procs := [CaptureWrite(use.(draft := failed))]);
    assert t.left + map[] == t.left && t.stranded + {} == t.stranded;
    assert Next(t, fail) == u;
    LeadsOn(START, t, u);
  }

  // The same for a capture that is the only process.
  lemma ShootsAlone(t: Sys, use: Consumption, key: Key, st: Stores)
    requires Leads(START, t) && t.procs == [CaptureShoot(use)] && key == FreshKey(t.st, Staging)
    requires st == t.st.(files := t.st.files[key := Image(use.draft.target, "f")], next := t.st.next + 1)
    ensures Leads(START, t.(st := st, procs := [CaptureValidate(use, key, "f")]))
  {
    Shoots(START, t, 0, use, key, st);
    assert t.procs[0 := CaptureValidate(use, key, "f")] == [CaptureValidate(use, key, "f")];
  }

  lemma WritesAlone(s: Sys, t: Sys, use: Consumption, st: Stores)
    requires Leads(s, t) && t.procs == [CaptureWrite(use)] && use.id in t.st.drafts
    requires st == PutDraft(t.st, use.id, use.draft)
    ensures Leads(s, t.(st := st, procs := [Done(true)]))
  {
    Writes(s, t, 0, use);
    assert t.procs[0 := Done(true)] == [Done(true)];
  }

  lemma FailureIsStored()
    ensures PutDraft(CAPTURING, 0, FAILURE) == BROKEN
  {
    assert PutDraft(CAPTURING, 0, FAILURE).drafts == BROKEN.drafts;
  }

  lemma CaptureMisses()
    ensures Leads(START, Sys(CAPTURING, [CaptureWrite(Consumption(0, FAILURE))], map[], {}))
  {
    Begins();
    Misses(Sys(CAPTURING, [CaptureShoot(COPY)], map[], {}), COPY);
  }

  lemma CaptureFails()
    ensures Leads(START, Sys(BROKEN, [Done(true)], map[], {}))
  {
    CaptureMisses();
    FailureIsStored();
    var s := Sys(CAPTURING, [CaptureWrite(Consumption(0, FAILURE))], map[], {});
    WritesAlone(START, s, Consumption(0, FAILURE), BROKEN);
  }

  // A retry is asked for and passes its check.
  lemma RetryStarts(procs: seq<Proc>)
    requires Leads(START, Sys(BROKEN, procs, map[], {}))
    ensures Leads(START, Sys(BROKEN, procs + [RetryWrite(COPY)], map[], {}))
  {
    var s := Sys(BROKEN, procs, map[], {});
    LeadsByOne(s, Spawn(RetryCapture(7, 0)));
    var s1 := s.(procs := procs + [RetryFind(7, 0)]);
    LeadsOn(START, s, s1);
    Goes(START, s1, |procs|, BROKEN, RetryWrite(COPY));
    assert s1.procs[|procs| := RetryWrite(COPY)] == procs + [RetryWrite(COPY)];
  }

  const FIRST := Sys(Captured(BROKEN, 0), [Done(true), Done(true), RetryWrite(COPY)], map[], {})
  const SECOND := Sys(SavedWith(Captured(BROKEN, 0), 0),
                      [Done(true), Done(true), RetryWrite(COPY), Done(true)], map[], {})

  // The first retry captures the page and a bookmark is saved with it.
  lemma ConsumedOnce()
    ensures Leads(START, SECOND)
  {
    CaptureFails();
    RetryStarts([Done(true)]);
    RetryStarts([Done(true)] + [RetryWrite(COPY)]);
    var both := Sys(BROKEN, [Done(true)] + [RetryWrite(COPY)] + [RetryWrite(COPY)], map[], {});
    RetryRuns(both, 1, 0);
    assert both.(st := Captured(BROKEN, 0), procs := both.procs[1 := Done(true)]) == FIRST;
    LeadsOn(START, both, FIRST);
    SaveRuns(FIRST, 0);
    assert FIRST.procs + [Done(true)] == SECOND.procs;
    LeadsOn(START, FIRST, SECOND);
  }

  const THIRD := Sys(Captured(SECOND.st, 0), [Done(true), Done(true), Done(true), Done(true)], map[], {})

  lemma Revived()
    ensures Leads(SECOND, THIRD) && Savable(THIRD.st, 0)
  {
    RetryRuns(SECOND, 2, 0);
    assert SECOND.procs[2 := Done(true)] == THIRD.procs;
  }

  ghost predicate In(s: Sys, state: DraftState) {
    0 in s.st.drafts && s.st.drafts[0].state == state
  }

  predicate AllDone(s: Sys) {
    forall pid :: 0 <= pid < |s.procs| ==> s.procs[pid] == Done(true)
  }

  lemma FirstSave()
    ensures In(SECOND, Consumed) && |SECOND.st.rows| == 1 && forall b :: b in SECOND.st.rows ==> b < SECOND.st.next
  {
    RowsOfSave(Captured(BROKEN, 0), 0);
  }

  lemma SecondSave()
    ensures exists u :: Leads(THIRD, u) && In(u, Consumed) && |u.st.rows| == 2 && AllDone(u)
  {
    Revived();
    FirstSave();
    SaveRuns(THIRD, 0);
    var u := THIRD.(st := SavedWith(THIRD.st, 0), procs := THIRD.procs + [Done(true)]);
    RowsOfSave(THIRD.st, 0);
    assert Leads(THIRD, u) && In(u, Consumed);
  }

  lemma Between()
    ensures In(THIRD, Ready)
  {
  }

  // Once a capture has failed, no further failure is needed: a draft is consumed, is ready
  // again, and is consumed a second time, for two bookmarks.
  lemma ConsumedTwice()
    ensures exists s, t, u :: Leads(START, s) && Leads(s, t) && Leads(t, u)
              && In(s, Consumed) && In(t, Ready) && In(u, Consumed)
              && |s.st.rows| == 1 && |u.st.rows| == 2 && AllDone(u)
  {
    ConsumedOnce();
    FirstSave();
    Revived();
    Between();
    SecondSave();
    var u :| Leads(THIRD, u) && In(u, Consumed) && |u.st.rows| == 2 && AllDone(u);
    Witness(SECOND, THIRD, u);
  }

  lemma Witness(s: Sys, t: Sys, u: Sys)
    requires Leads(START, s) && Leads(s, t) && Leads(t, u)
    requires In(s, Consumed) && In(t, Ready) && In(u, Consumed)
    requires |s.st.rows| == 1 && |u.st.rows| == 2 && AllDone(u)
    ensures exists s, t, u :: Leads(START, s) && Leads(s, t) && Leads(t, u)
              && In(s, Consumed) && In(t, Ready) && In(u, Consumed)
              && |s.st.rows| == 1 && |u.st.rows| == 2 && AllDone(u)
  {
  }

  lemma RowsOfSave(st: Stores, d: nat)
    requires Savable(st, d) && forall b :: b in st.rows ==> b < st.next
    ensures var t := SavedWith(st, d);
            && |t.rows| == |st.rows| + 1 && (forall b :: b in t.rows ==> b < t.next)
            && d in t.drafts && t.drafts[d].state == Consumed
  {
    assert SavedWith(st, d).rows.Keys == st.rows.Keys + {st.next + 1};
  }

  // ---- Without any failure ----

  const SHOOTING := CAPTURING.(files := CAPTURING.files[Key(Staging, 1) := Image("u", "f")], next := 2)
  const RESULT := Consumption(0, COPY.draft.(state := Ready, staged := Some(Key(Staging, 1)), final := "f"))

  lemma Photographed()
    ensures Leads(START, Sys(SHOOTING, [CaptureValidate(COPY, Key(Staging, 1), "f")], map[], {}))
  {
    Begins();
    ShootsAlone(Sys(CAPTURING, [CaptureShoot(COPY)], map[], {}), COPY, Key(Staging, 1), SHOOTING);
  }

  lemma Checked()
    ensures Leads(START, Sys(SHOOTING, [CaptureWrite(RESULT)], map[], {}))
  {
    var key := Key(Staging, 1);
    Photographed();
    var s2 := Sys(SHOOTING, [CaptureValidate(COPY, key, "f")], map[], {});
    Checks(START, s2, 0, COPY, key, RESULT.draft);
    assert s2.procs[0 := CaptureWrite(RESULT)] == [CaptureWrite(RESULT)];
  }

  const LATE := SHOOTING.(drafts := map[0 := COPY.draft.(state := Expired)], now := 16)

  lemma ExpiresMeanwhile()
    ensures Leads(START, Sys(LATE, [CaptureWrite(RESULT)], map[], {}))
  {
    Checked();
    var s := Sys(SHOOTING, [CaptureWrite(RESULT)], map[], {});
    LeadsByOne(s, Tick(15));
    var t := s.(st := SHOOTING.(now := 16));
    LeadsOn(START, s, t);
    LeadsByOne(t, ExpireDrafts({0}));
    assert ExpireSome(t.st, {0}).drafts == LATE.drafts;
    LeadsOn(START, t, Sys(LATE, [CaptureWrite(RESULT)], map[], {}));
  }

  const AGAIN := Sys(PutDraft(LATE, 0, RESULT.draft), [Done(true)], map[], {})

  lemma WritesReady()
    ensures Leads(Sys(LATE, [CaptureWrite(RESULT)], map[], {}), AGAIN)
  {
    var s := Sys(LATE, [CaptureWrite(RESULT)], map[], {});
    Stays(s);
    WritesAlone(s, s, RESULT, AGAIN.st);
  }

  lemma ReadyAgain()
    ensures In(Sys(LATE, [CaptureWrite(RESULT)], map[], {}), Expired) && In(AGAIN, Ready) && AllDone(AGAIN)
  {
  }

  // A capture that outlasts its draft makes an expired draft ready, without any failure.
  lemma ExpiredTurnsReady()
    ensures exists s, t :: Leads(START, s) && Leads(s, t) && In(s, Expired) && In(t, Ready) && AllDone(t)
  {
    ExpiresMeanwhile();
    WritesReady();
    ReadyAgain();
  }
}
