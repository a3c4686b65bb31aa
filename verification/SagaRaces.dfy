// Runs that go wrong. Without a single failed call, operations that overlap leave a promoted
// file to nobody, or a bookmark with the screenshot of another address. One failed call
// leaves a ready draft without its file, and two leave a file to nobody.
module SagaRaces {
  import opened Prelude
  import opened ScreenshotModel
  import opened SagaSystem
  import opened SagaTheorems

  ghost predicate Reaches(s: Sys) {
    exists actions :: Run(START, actions) == s
  }

  lemma ReachNext(s: Sys, a: Action)
    requires Reaches(s)
    ensures Reaches(Next(s, a))
  {
    var actions :| Run(START, actions) == s;
    assert (actions + [a])[..|actions|] == actions;
    assert Run(START, actions + [a]) == Next(s, a);
  }

  // A port call that succeeds.
  lemma ReachSmoothly(s: Sys, pid: nat, st: Stores, p: Proc)
    requires Reaches(s) && pid < |s.procs|
    requires var c := Choice(false, [], "http://b/");
             Step(s.st, s.procs[pid], c) == (st, p) && Left(s.st, s.procs[pid], c) == map[]
                 && Strands(s.st, s.procs[pid], c) == {}
    ensures Reaches(s.(st := st, procs := s.procs[pid := p]))
  {
    ReachNext(s, Advance(pid, Choice(false, [], "http://b/")));
    assert s.left + map[] == s.left;
  }

  const BARE := map[0 := Row("http://a/", None)]
  const EARLY := Draft(7, Some(0), "http://b/", Capturing, None, "", NoFailure, 16)
  const DRAFT := Draft(7, Some(0), "http://b/", Ready, Some(Key(Staging, 2)), "http://b/", NoFailure, 16)
  const IMAGE := Image("http://b/", "http://b/")

  // Bookmark 0 saved for http://a/ without a screenshot, and a capture of http://b/
  // ready for it as draft 1.
  const PREPARED := Stores(map[Key(Staging, 2) := IMAGE], BARE, map[1 := DRAFT], [], 3, 1)

  lemma Submitted()
    ensures Reaches(START.(procs := [CreateWrite("http://a/", None)]))
  {
    assert Run(START, []) == START;
    ReachNext(START, Spawn(Create(SaveInput(7, Some("http://a/"), true, None, true))));
  }

  lemma Saved()
    ensures Reaches(Sys(Stores(map[], BARE, map[], [], 1, 1), [Done(true)], map[], {}))
  {
    Submitted();
    ReachSmoothly(START.(procs := [CreateWrite("http://a/", None)]), 0, Stores(map[], BARE, map[], [], 1, 1),
        Done(true));
  }

  const STAGED := Stores(map[Key(Staging, 2) := IMAGE], BARE, map[1 := EARLY], [], 3, 1)

  lemma Photographed()
    ensures Reaches(Sys(STAGED, [Done(true), CaptureValidate(Consumption(1, EARLY), Key(Staging, 2), "http://b/")],
            map[], {}))
  {
    Saved();
    var s1 := Sys(Stores(map[], BARE, map[], [], 1, 1), [Done(true)], map[], {});
    ReachNext(s1, Spawn(StartCapture(7, Some("http://b/"), Some(0), 15)));
    var s2 := s1.(procs := [Done(true), CaptureCreate(7, "http://b/", Some(0), 15)]);
    var use := Consumption(1, EARLY);
    var st3 := Stores(map[], BARE, map[1 := EARLY], [], 2, 1);
    ReachSmoothly(s2, 1, st3, CaptureShoot(use));
    var s3 := s2.(st := st3, procs := [Done(true), CaptureShoot(use)]);
    ReachSmoothly(s3, 1, STAGED, CaptureValidate(use, Key(Staging, 2), "http://b/"));
  }

  lemma Captured()
    ensures Reaches(Sys(PREPARED, [Done(true), Done(true)], map[], {}))
  {
    Photographed();
    var use := Consumption(1, EARLY);
    var s4 := Sys(STAGED, [Done(true), CaptureValidate(use, Key(Staging, 2), "http://b/")], map[], {});
    ReachSmoothly(s4, 1, STAGED, CaptureWrite(use.(draft := DRAFT)));
    var s5 := s4.(procs := [Done(true), CaptureWrite(use.(draft := DRAFT))]);
    assert map[1 := EARLY][1 := DRAFT] == map[1 := DRAFT];
    ReachSmoothly(s5, 1, PREPARED, Done(true));
  }

  const SHOT := Shot(Key(Promoted, 3), "http://b/")
  const SHOWN := Stores(map[Key(Promoted, 3) := IMAGE], map[0 := Row("http://b/", Some(SHOT))],
                        map[1 := DRAFT.(state := Consumed)], [], 4, 1)

  const TAKING := UpdateWrite(0, "http://b/", None, true, Some(SHOT), Some(Consumption(1, DRAFT)))
  const MOVED := Stores(map[Key(Promoted, 3) := IMAGE], BARE, map[1 := DRAFT], [], 4, 1)

  // An update takes the captured file, while another operation stays stopped.
  lemma UpdatePromotes(slow: Proc)
    requires Reaches(Sys(PREPARED, [Done(true), Done(true), slow], map[], {}))
    ensures Reaches(Sys(MOVED, [Done(true), Done(true), slow, TAKING], map[], {}))
  {
    var input := SaveInput(7, Some("http://b/"), true, Some(1), false);
    var s := Sys(PREPARED, [Done(true), Done(true), slow], map[], {});
    ReachNext(s, Spawn(Update(0, input)));
    var s1 := s.(procs := [Done(true), Done(true), slow, UpdateFind(0, input)]);
    ReachSmoothly(s1, 3, PREPARED, UpdateFindDraft(0, 7, "http://b/", None, 1));
    var s2 := s1.(procs := [Done(true), Done(true), slow, UpdateFindDraft(0, 7, "http://b/", None, 1)]);
    ReachSmoothly(s2, 3, PREPARED, UpdatePromote(0, "http://b/", None, Consumption(1, DRAFT)));
    var s3 := Sys(PREPARED,
        [Done(true), Done(true), slow, UpdatePromote(0, "http://b/", None, Consumption(1, DRAFT))], map[], {});
    assert (PREPARED.files - {Key(Staging, 2)})[Key(Promoted, 3) := IMAGE] == MOVED.files;
    ReachSmoothly(s3, 3, MOVED, TAKING);
  }

  // It goes on to its end, giving the bookmark its captured screenshot.
  lemma UpdateInBetween(slow: Proc)
    requires Reaches(Sys(PREPARED, [Done(true), Done(true), slow], map[], {}))
    ensures Reaches(Sys(SHOWN, [Done(true), Done(true), slow, Done(true)], map[], {}))
  {
    UpdatePromotes(slow);
    UpdateSwaps(slow);
  }

  lemma UpdateSwaps(slow: Proc)
    requires Reaches(Sys(MOVED, [Done(true), Done(true), slow, TAKING], map[], {}))
    ensures Reaches(Sys(SHOWN, [Done(true), Done(true), slow, Done(true)], map[], {}))
  {
    var use := Consumption(1, DRAFT);
    var s4 := Sys(MOVED, [Done(true), Done(true), slow, TAKING], map[], {});
    var st5 := MOVED.(rows := map[0 := Row("http://b/", Some(SHOT))]);
    assert BARE[0 := Row("http://b/", Some(SHOT))] == st5.rows;
    ReachSmoothly(s4, 3, st5, UpdateConsume(use, None, 1));
    var s5 := s4.(st := st5, procs := [Done(true), Done(true), slow, UpdateConsume(use, None, 1)]);
    assert map[1 := DRAFT][1 := DRAFT.(state := Consumed)] == SHOWN.drafts;
    ReachSmoothly(s5, 3, SHOWN, Done(true));
  }

  // A deletion that read the bookmark before its screenshot was added takes the row
  // away and leaves the screenshot file to nobody.
  lemma OverlapLeavesAFile()
    ensures exists s :: Reaches(s)
              && (forall pid :: 0 <= pid < |s.procs| ==> s.procs[pid] == Done(true))
              && Untracked(s, Key(Promoted, 3)) && s.left == map[Key(Promoted, 3) := LostDelete]
  {
    Captured();
    var s := Sys(PREPARED, [Done(true), Done(true)], map[], {});
    ReachNext(s, Spawn(Delete(0, true)));
    var s1 := s.(procs := [Done(true), Done(true), DeleteFind(0)]);
    ReachSmoothly(s1, 2, PREPARED, DeleteWrite(0, None));
    assert s1.procs[2 := DeleteWrite(0, None)] == [Done(true), Done(true), DeleteWrite(0, None)];
    UpdateInBetween(DeleteWrite(0, None));
    DeletionStrikes();
  }

  lemma DeletionStrikes()
    requires Reaches(Sys(SHOWN, [Done(true), Done(true), DeleteWrite(0, None), Done(true)], map[], {}))
    ensures exists s :: Reaches(s)
              && (forall pid :: 0 <= pid < |s.procs| ==> s.procs[pid] == Done(true))
              && Untracked(s, Key(Promoted, 3)) && s.left == map[Key(Promoted, 3) := LostDelete]
  {
    var s2 := Sys(SHOWN, [Done(true), Done(true), DeleteWrite(0, None), Done(true)], map[], {});
    var a := Advance(2, Choice(false, [], ""));
    ReachNext(s2, a);
    var t := Next(s2, a);
    assert t.procs == [Done(true), Done(true), Done(true), Done(true)];
    assert t.left == map[Key(Promoted, 3) := LostDelete];
    assert t.st.rows == map[] && t.st.cleanups == [];
    NobodyHasIt(t, Key(Promoted, 3));
  }

  lemma NobodyHasIt(t: Sys, k: Key)
    requires k in t.st.files && k.area != Staging && (forall b :: !RowHas(t.st, b, k)) && t.st.cleanups == []
    requires forall pid :: 0 <= pid < |t.procs| ==> t.procs[pid].Done?
    ensures Untracked(t, k)
  {
  }

  // An update that keeps the address it read ends up with the other update's
  // screenshot: the bookmark is http://a/ again and shows http://b/.
  lemma OverlapShowsAnotherAddress()
    ensures exists s :: Reaches(s)
              && (forall pid :: 0 <= pid < |s.procs| ==> s.procs[pid] == Done(true))
              && s.st.rows == map[0 := Row("http://a/", Some(SHOT))]
              && s.st.files == map[SHOT.key := Image("http://b/", "http://b/")]
  {
    Captured();
    var input := SaveInput(7, Some("http://a/"), true, None, false);
    var stopped := UpdateWrite(0, "http://a/", None, false, None, None);
    var s := Sys(PREPARED, [Done(true), Done(true)], map[], {});
    ReachNext(s, Spawn(Update(0, input)));
    var s1 := s.(procs := [Done(true), Done(true), UpdateFind(0, input)]);
    ReachSmoothly(s1, 2, PREPARED, stopped);
    assert s1.procs[2 := stopped] == [Done(true), Done(true), stopped];
    UpdateInBetween(stopped);
    RenamingStrikes(stopped);
  }

  lemma RenamingStrikes(stopped: Proc)
    requires stopped == UpdateWrite(0, "http://a/", None, false, None, None)
    requires Reaches(Sys(SHOWN, [Done(true), Done(true), stopped, Done(true)], map[], {}))
    ensures exists s :: Reaches(s)
              && (forall pid :: 0 <= pid < |s.procs| ==> s.procs[pid] == Done(true))
              && s.st.rows == map[0 := Row("http://a/", Some(SHOT))]
              && s.st.files == map[SHOT.key := Image("http://b/", "http://b/")]
  {
    var s2 := Sys(SHOWN, [Done(true), Done(true), stopped, Done(true)], map[], {});
    var a := Advance(2, Choice(false, [], ""));
    ReachNext(s2, a);
    var t := Next(s2, a);
    assert t.procs == [Done(true), Done(true), Done(true), Done(true)];
    assert t.st.rows == map[0 := Row("http://a/", Some(SHOT))];
  }

  // One refused row update is enough for a ready draft without a file: saving or
  // discarding is still offered, but no save with this draft can succeed any more.
  lemma RefusedUpdateSpendsTheDraft()
    ensures exists s :: Reaches(s)
              && (forall pid :: 0 <= pid < |s.procs| ==> s.procs[pid].Done?)
              && s.left == map[] && s.st.drafts == map[1 := DRAFT] && DRAFT.staged.value !in s.st.files
  {
    Captured();
    var s := Sys(PREPARED, [Done(true), Done(true)], map[], {});
    ReachNext(s, Spawn(Delete(0, false)));
    assert s.procs + [Done(false)] == [Done(true), Done(true), Done(false)];
    UpdatePromotes(Done(false));
    RefusalSpends();
  }

  // Two failures are enough to leave a file to nobody: the row update is refused, and so
  // is the removal that makes up for it.
  lemma TwoFailuresLeaveAFile()
    ensures exists s :: Reaches(s)
              && (forall pid :: 0 <= pid < |s.procs| ==> s.procs[pid].Done?)
              && Untracked(s, SHOT.key) && s.left == map[SHOT.key := UndoFailed]
  {
    Captured();
    var s := Sys(PREPARED, [Done(true), Done(true)], map[], {});
    ReachNext(s, Spawn(Delete(0, false)));
    assert s.procs + [Done(false)] == [Done(true), Done(true), Done(false)];
    UpdatePromotes(Done(false));
    RefusalsLeave();
  }

  lemma RefusalsLeave()
    requires Reaches(Sys(MOVED, [Done(true), Done(true), Done(false), TAKING], map[], {}))
    ensures exists s :: Reaches(s)
              && (forall pid :: 0 <= pid < |s.procs| ==> s.procs[pid].Done?)
              && Untracked(s, SHOT.key) && s.left == map[SHOT.key := UndoFailed]
  {
    var fails := Advance(3, Choice(true, [], ""));
    var s1 := Sys(MOVED, [Done(true), Done(true), Done(false), TAKING], map[], {});
    ReachNext(s1, fails);
    var s2 := Sys(MOVED, [Done(true), Done(true), Done(false), UpdateUndo(SHOT.key)], map[], {});
    assert Next(s1, fails) == s2;
    ReachNext(s2, fails);
    var s3 := Sys(MOVED, [Done(true), Done(true), Done(false), Done(false)], map[SHOT.key := UndoFailed], {});
    assert Next(s2, fails) == s3;
    NobodyHasIt(s3, SHOT.key);
  }

  lemma RefusalSpends()
    requires Reaches(Sys(MOVED, [Done(true), Done(true), Done(false), TAKING], map[], {}))
    ensures exists s :: Reaches(s)
              && (forall pid :: 0 <= pid < |s.procs| ==> s.procs[pid].Done?)
              && s.left == map[] && s.st.drafts == map[1 := DRAFT] && DRAFT.staged.value !in s.st.files
  {
    var s1 := Sys(MOVED, [Done(true), Done(true), Done(false), TAKING], map[], {});
    ReachNext(s1, Advance(3, Choice(true, [], "")));
    var s2 := Sys(MOVED, [Done(true), Done(true), Done(false), UpdateUndo(SHOT.key)], map[], {});
    assert Next(s1, Advance(3, Choice(true, [], ""))) == s2;
    var s3 := Sys(MOVED.(files := map[]), [Done(true), Done(true), Done(false), Done(false)], map[], {});
    ReachSmoothly(s2, 3, MOVED.(files := map[]), Done(false));
    assert s2.(st := MOVED.(files := map[]), procs := s2.procs[3 := Done(false)]) == s3;
  }
}
