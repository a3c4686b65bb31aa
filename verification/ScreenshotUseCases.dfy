// The screenshot use cases as the program writes them, over stores that change in
// place, each proved to do what its process does when nothing else runs.
module ScreenshotUseCases {
  import opened Prelude
  import opened CleanupQueue
  import opened ScreenshotModel
  import opened SagaSystem
  import opened SagaSerial

  // ---- A process from where it stands to its end, alone ----

  function Solo(st: Stores, p: Proc, script: seq<Choice>): (Stores, Proc)
    decreases Calls(p)
  {
    if p.Done? then (st, p)
    else
      StepsAreFew(st, p, Head(script));
      var (t, q) := Step(st, p, Head(script));
      Solo(t, q, Tail(script))
  }

  // One port call brings the stores to t and the process to q.
  lemma Calling(st: Stores, p: Proc, script: seq<Choice>, t: Stores, q: Proc)
    requires !p.Done? && Step(st, p, Head(script)) == (t, q)
    ensures Solo(st, p, script) == Solo(t, q, Tail(script))
  {
  }

  lemma {:induction false} SoloFinishes(s: Sys, pid: nat, script: seq<Choice>)
    requires pid < |s.procs|
    ensures var t := Finish(s, pid, script); (t.st, t.procs[pid]) == Solo(s.st, s.procs[pid], script)
    decreases Calls(s.procs[pid])
  {
    if !s.procs[pid].Done? {
      StepsAreFew(s.st, s.procs[pid], Head(script));
      SoloFinishes(Next(s, Advance(pid, Head(script))), pid, Tail(script));
    }
  }

  // Running a use case alone is performing its operation, so all that holds of
  // operations performed one after the other holds of the use cases below.
  lemma SoloIsPerform(jobs: seq<Job>, op: Op, script: seq<Choice>)
    ensures var s := DoAll(START, jobs);
            var t := DoAll(START, jobs + [Perform(op, script)]);
            (t.st, t.procs[|s.procs|]) == Solo(s.st, Begin(op), script)
  {
    var s := DoAll(START, jobs);
    assert (jobs + [Perform(op, script)])[..|jobs|] == jobs;
    SoloFinishes(Next(s, Spawn(op)), |s.procs|, script);
  }

  // ---- What the program does not decide itself ----

  class Environment {
    var script: seq<Choice>  // which port calls will fail
    var next: nat            // the next UUID
    var now: nat

    constructor (script: seq<Choice>)
      ensures this.script == script && next == EMPTY.next && now == EMPTY.now
    {
      this.script, next, now := script, EMPTY.next, EMPTY.now;
    }

    method Decide() returns (c: Choice)
      modifies this`script
      ensures c == Head(old(script)) && script == Tail(old(script))
    {
      c := Head(script);
      script := Tail(script);
    }

    method NewId() returns (id: nat)
      modifies this`next
      ensures id == old(next) && next == old(next) + 1
    {
      id := next;
      next := next + 1;
    }
  }

  // ---- adapters/filesystem ----

  class ScreenshotStore {
    const env: Environment
    var files: map<Key, Image>

    constructor (env: Environment)
      ensures this.env == env && files == EMPTY.files
    {
      this.env, files := env, EMPTY.files;
    }

    // The capturer writes the file that it was given a path for.
    method Capture(target: string) returns (result: Option<(Key, string)>)
      modifies this`files, env`script, env`next
      ensures env.script == Tail(old(env.script))
      ensures result == if Head(old(env.script)).fail then None
              else Some((Key(Staging, old(env.next)), Head(old(env.script)).final))
      ensures result.None? ==> files == old(files) && env.next == old(env.next)
      ensures result.Some? ==>
              files == old(files)[result.value.0 := Image(target, result.value.1)] && env.next == old(env.next) + 1
    {
      var c := env.Decide();
      if c.fail { return None; }
      var id := env.NewId();
      files := files[Key(Staging, id) := Image(target, c.final)];
      return Some((Key(Staging, id), c.final));
    }

    method Validate(key: Key) returns (ok: bool)
      modifies env`script
      ensures env.script == Tail(old(env.script))
      ensures ok <==> !Head(old(env.script)).fail && key in files
    {
      var c := env.Decide();
      ok := !c.fail && key in files;
    }

    method Rename(from: Key, area: Area) returns (to: Option<Key>)
      modifies this`files, env`script, env`next
      ensures env.script == Tail(old(env.script))
      ensures to == if Head(old(env.script)).fail || from !in old(files) then None else Some(Key(area, old(env.next)))
      ensures to.None? ==> files == old(files) && env.next == old(env.next)
      ensures to.Some? ==> files == (old(files) - {from})[to.value := old(files)[from]] && env.next == old(env.next) + 1
    {
      var c := env.Decide();
      if c.fail || from !in files { return None; }
      var id := env.NewId();
      files := (files - {from})[Key(area, id) := files[from]];
      return Some(Key(area, id));
    }

    // A draft without a staged file has the empty path, which cannot be renamed.
    method Promote(staged: Option<Key>) returns (key: Option<Key>)
      modifies this`files, env`script, env`next
      ensures env.script == Tail(old(env.script))
      ensures key == if Head(old(env.script)).fail || staged.None? || staged.value !in old(files) then None
                     else Some(Key(Promoted, old(env.next)))
      ensures key.None? ==> files == old(files) && env.next == old(env.next)
      ensures key.Some? ==>
                && files == (old(files) - {staged.value})[key.value := old(files)[staged.value]]
                && env.next == old(env.next) + 1
    {
      if staged.None? {
        var c := env.Decide();
        return None;
      }
      key := Rename(staged.value, Promoted);
    }

    method Quarantine(key: Key) returns (parked: Option<Key>)
      modifies this`files, env`script, env`next
      ensures env.script == Tail(old(env.script))
      ensures parked == if Head(old(env.script)).fail || key !in old(files) then None
                        else Some(Key(Area.Quarantine, old(env.next)))
      ensures parked.None? ==> files == old(files) && env.next == old(env.next)
      ensures parked.Some? ==>
              files == (old(files) - {key})[parked.value := old(files)[key]] && env.next == old(env.next) + 1
    {
      parked := Rename(key, Area.Quarantine);
    }

    method Restore(parked: Key, home: Key) returns (ok: bool)
      modifies this`files, env`script
      ensures env.script == Tail(old(env.script))
      ensures ok <==> !Head(old(env.script)).fail && parked in old(files)
      ensures files == if ok then (old(files) - {parked})[home := old(files)[parked]] else old(files)
    {
      var c := env.Decide();
      ok := !c.fail && parked in files;
      if ok { files := (files - {parked})[home := files[parked]]; }
    }

    // Remove and Discard.
    method Remove(key: Key) returns (ok: bool)
      modifies this`files, env`script
      ensures env.script == Tail(old(env.script))
      ensures ok <==> !Head(old(env.script)).fail
      ensures files == if ok then old(files) - {key} else old(files)
    {
      var c := env.Decide();
      ok := !c.fail;
      if ok { files := files - {key}; }
    }
  }

  // ---- adapters/postgres: each statement or transaction is atomic ----

  class Database {
    const env: Environment
    var rows: map<nat, Row>
    var drafts: map<nat, Draft>
    var cleanups: seq<Record>

    constructor (env: Environment)
      ensures this.env == env && rows == EMPTY.rows && drafts == EMPTY.drafts && cleanups == EMPTY.cleanups
    {
      this.env, rows, drafts, cleanups := env, EMPTY.rows, EMPTY.drafts, EMPTY.cleanups;
    }

    method CreateBookmark(url: string, shot: Option<Shot>) returns (id: Option<nat>)
      modifies this`rows, env`script, env`next
      ensures env.script == Tail(old(env.script))
      ensures id == if Head(old(env.script)).fail then None else Some(old(env.next))
      ensures id.None? ==> rows == old(rows) && env.next == old(env.next)
      ensures id.Some? ==> rows == old(rows)[id.value := Row(url, shot)] && env.next == old(env.next) + 1
    {
      var c := env.Decide();
      if c.fail { return None; }
      var minted := env.NewId();
      rows := rows[minted := Row(url, shot)];
      return Some(minted);
    }

    method FindBookmark(b: nat) returns (row: Option<Row>)
      modifies env`script
      ensures env.script == Tail(old(env.script))
      ensures row == if Head(old(env.script)).fail || b !in rows then None else Some(rows[b])
    {
      var c := env.Decide();
      row := if c.fail || b !in rows then None else Some(rows[b]);
    }

    method UpdateBookmark(b: nat, url: string, replace: bool, shot: Option<Shot>) returns (ok: bool)
      modifies this`rows, env`script
      ensures env.script == Tail(old(env.script))
      ensures ok <==> !Head(old(env.script)).fail && b in old(rows)
      ensures rows == if ok then old(rows)[b := Row(url, if replace then shot else old(rows)[b].shot)] else old(rows)
    {
      var c := env.Decide();
      ok := !c.fail && b in rows;
      if ok { rows := rows[b := Row(url, if replace then shot else rows[b].shot)]; }
    }

    // The screenshot row goes with its bookmark, and drafts bound to it are unbound.
    method DeleteBookmark(b: nat) returns (ok: bool)
      modifies this`rows, this`drafts, env`script
      ensures env.script == Tail(old(env.script))
      ensures ok <==> !Head(old(env.script)).fail && b in old(rows)
      ensures rows == if ok then old(rows) - {b} else old(rows)
      ensures drafts == if ok then Unbound(old(drafts), b) else old(drafts)
    {
      var c := env.Decide();
      ok := !c.fail && b in rows;
      if ok {
        rows := rows - {b};
        drafts := Unbound(drafts, b);
      }
    }

    method CreateScreenshotCleanup(key: Key, at: nat) returns (ok: bool)
      modifies this`cleanups, env`script
      ensures env.script == Tail(old(env.script))
      ensures ok <==> !Head(old(env.script)).fail
      ensures cleanups == if ok then old(cleanups) + [Record(key, RecordState.Pending, 0, at)] else old(cleanups)
    {
      var c := env.Decide();
      ok := !c.fail;
      if ok { cleanups := cleanups + [Record(key, RecordState.Pending, 0, at)]; }
    }

    method ClaimDueScreenshotCleanup(now: nat, limit: nat) returns (claims: Option<seq<Claim>>)
      modifies this`cleanups, env`script
      ensures env.script == Tail(old(env.script))
      ensures var c := Head(old(env.script));
              var (table, worker) := ClaimStep(old(cleanups), limit, c.pick, now, c.fail);
              && cleanups == table
              && worker == (if claims.None? then Finished(false) else NextInBatch(claims.value, now))
      ensures claims.None? <==> Head(old(env.script)).fail
      ensures claims.None? ==> cleanups == old(cleanups)
      ensures claims.Some? ==> Claimed(old(cleanups), claims.value, now, limit, cleanups)
    {
      var c := env.Decide();
      if c.fail { return None; }
      var chosen := if ValidPick(cleanups, c.pick, now, limit) then c.pick else [];
      claims := Some(Batch(cleanups, chosen));
      BatchIsClaimed(cleanups, chosen, now, limit);
      cleanups := MarkRunning(cleanups, chosen);
    }

    method CompleteScreenshotCleanup(done: Claim) returns (ok: bool)
      modifies this`cleanups, env`script
      ensures env.script == Tail(old(env.script))
      ensures ok <==> !Head(old(env.script)).fail
      ensures cleanups == if !ok || done.id >= |old(cleanups)| then old(cleanups)
                          else old(cleanups)[done.id := done.record.(key := old(cleanups)[done.id].key)]
    {
      var c := env.Decide();
      ok := !c.fail;
      if ok && done.id < |cleanups| {
        var r := done.record;
        var stored := cleanups[done.id].(state := r.state, attempts := r.attempts, nextAt := r.nextAt);
        cleanups := cleanups[done.id := stored];
      }
    }

    method CreateDraft(draft: Draft) returns (id: Option<nat>)
      modifies this`drafts, env`script, env`next
      ensures env.script == Tail(old(env.script))
      ensures id == if Head(old(env.script)).fail then None else Some(old(env.next))
      ensures id.None? ==> drafts == old(drafts) && env.next == old(env.next)
      ensures id.Some? ==> drafts == old(drafts)[id.value := draft] && env.next == old(env.next) + 1
    {
      var c := env.Decide();
      if c.fail { return None; }
      var minted := env.NewId();
      drafts := drafts[minted := draft];
      return Some(minted);
    }

    method FindDraft(id: nat) returns (draft: Option<Draft>)
      modifies env`script
      ensures env.script == Tail(old(env.script))
      ensures draft == if Head(old(env.script)).fail || id !in drafts then None else Some(drafts[id])
    {
      var c := env.Decide();
      draft := if c.fail || id !in drafts then None else Some(drafts[id]);
    }

    method UpdateDraft(id: nat, draft: Draft) returns (ok: bool)
      modifies this`drafts, env`script
      ensures env.script == Tail(old(env.script))
      ensures ok <==> !Head(old(env.script)).fail && id in old(drafts)
      ensures drafts == if ok then old(drafts)[id := old(drafts)[id].(state := draft.state, staged := draft.staged,
                                                                       final := draft.final, failure := draft.failure)]
                        else old(drafts)
    {
      var c := env.Decide();
      ok := !c.fail && id in drafts;
      if ok {
        drafts := drafts[id := drafts[id].(state := draft.state, staged := draft.staged,
                                           final := draft.final, failure := draft.failure)];
      }
    }
  }

  // Different pending records whose time has come, limit of them at most, are running now
  // and handed out as they were; all others are as before.
  predicate Claimed(before: seq<Record>, claims: seq<Claim>, now: nat, limit: nat, after: seq<Record>) {
    && |claims| <= limit && |after| == |before|
    && (forall i :: 0 <= i < |claims| ==>
          && claims[i].id < |before| && claims[i].record == before[claims[i].id]
          && claims[i].record.state == RecordState.Pending && claims[i].record.nextAt <= now
          && after[claims[i].id] == claims[i].record.(state := Running))
    && (forall i, j :: 0 <= i < j < |claims| ==> claims[i].id != claims[j].id)
    && forall id :: 0 <= id < |before| ==>
         after[id] == before[id] || exists i :: 0 <= i < |claims| && claims[i].id == id
  }

  lemma BatchIsClaimed(table: seq<Record>, pick: seq<nat>, now: nat, limit: nat)
    requires ValidPick(table, pick, now, limit)
    ensures Claimed(table, Batch(table, pick), now, limit, MarkRunning(table, pick))
  {
    var claims := Batch(table, pick);
    forall id | 0 <= id < |table| && id in pick ensures exists i :: 0 <= i < |claims| && claims[i].id == id {
      var i :| 0 <= i < |pick| && pick[i] == id;
      assert claims[i].id == id;
    }
  }

  function Unbound(drafts: map<nat, Draft>, b: nat): map<nat, Draft> {
    map d | d in drafts :: if drafts[d].bookmark == Some(b) then drafts[d].(bookmark := None) else drafts[d]
  }

  // ---- The use cases ----

  datatype Dependencies = Dependencies(env: Environment, files: ScreenshotStore, db: Database) {
    ghost predicate Wired() { files.env == env && db.env == env }

    ghost function Now(): Stores
      reads files, db, env
    {
      Stores(files.files, db.rows, db.drafts, db.cleanups, env.next, env.now)
    }
  }

  class Creator {
    const deps: Dependencies

    constructor (deps: Dependencies)
      requires deps.Wired()
      ensures this.deps == deps
    {
      this.deps := deps;
    }

    method Create(input: SaveInput) returns (id: Option<nat>)
      requires deps.Wired()
      modifies deps.files, deps.db, deps.env
      ensures Solo(old(deps.Now()), Begin(Op.Create(input)), old(deps.env.script)) == (deps.Now(), Done(id.Some?))
    {
      if input.url.None? || !input.described { return None; }
      var url := input.url.value;
      var resolved, shot := ResolveScreenshot(input, url);
      if !resolved { return None; }
      ghost var st, script := deps.Now(), deps.env.script;
      id := deps.db.CreateBookmark(url, shot);
      if id.None? && shot.Some? {
        Calling(st, CreateWrite(url, shot), script, deps.Now(), CreateUndo(shot.value.key));
        var removed := deps.files.Remove(shot.value.key);
        Calling(st, CreateUndo(shot.value.key), Tail(script), deps.Now(), Done(false));
      }
    }

    method ResolveScreenshot(input: SaveInput, url: string) returns (ok: bool, shot: Option<Shot>)
      requires deps.Wired() && input.url == Some(url) && input.described
      modifies deps.files, deps.db, deps.env
      ensures Solo(old(deps.Now()), Begin(Op.Create(input)), old(deps.env.script))
              == Solo(deps.Now(), if ok then CreateWrite(url, shot) else Done(false), deps.env.script)
    {
      if input.capture.None? { return input.without, None; }
      var id := input.capture.value;
      ghost var st, script := deps.Now(), deps.env.script;
      var found := deps.db.FindDraft(id);
      Calling(st, CreateFind(input, url, id), script, deps.Now(),
          AfterCreateFind(st, input, url, id, Head(script).fail));
      if found.None? { return false, None; }
      var draft := found.value;
      if !UsableBy(draft, input.session, url, deps.env.now) { return false, None; }
      if draft.state != Ready { return input.without, None; }
      var key := deps.files.Promote(draft.staged);
      ghost var use := Consumption(id, draft);
      if key.None? {
        Calling(st, CreatePromote(url, use), Tail(script), deps.Now(), Done(false));
        return false, None;
      }
      ghost var st1 := deps.Now();
      Calling(st, CreatePromote(url, use), Tail(script), st1, CreateConsume(url, use, key.value));
      var stored := deps.db.UpdateDraft(id, draft.(state := Consumed));
      Calling(st1, CreateConsume(url, use, key.value), Tail(Tail(script)), deps.Now(),
          CreateWrite(url, Some(Shot(key.value, draft.final))));
      return true, Some(Shot(key.value, draft.final));
    }
  }

  class Maintainer {
    const deps: Dependencies

    constructor (deps: Dependencies)
      requires deps.Wired()
      ensures this.deps == deps
    {
      this.deps := deps;
    }

    method Update(b: nat, input: SaveInput) returns (ok: bool)
      requires deps.Wired()
      modifies deps.files, deps.db, deps.env
      ensures Solo(old(deps.Now()), Begin(Op.Update(b, input)), old(deps.env.script)) == (deps.Now(), Done(ok))
    {
      ghost var st, script := deps.Now(), deps.env.script;
      var current := deps.db.FindBookmark(b);
      Calling(st, UpdateFind(b, input), script, deps.Now(), AfterUpdateFind(st, b, input, Head(script).fail));
      if current.None? || input.url.None? || !input.described { return false; }
      var url, prior := input.url.value, ShotKey(current.value);
      var replace, shot, use := false, None, None;
      if input.capture.Some? {
        var taken, draft := TakeDraft(b, input.session, url, prior, input.capture.value);
        if taken.None? { return false; }
        replace, shot, use := true, taken, Some(Consumption(input.capture.value, draft));
      } else if url != current.value.url {
        if !input.without { return false; }
        replace := true;
      }
      ok := Write(b, url, prior, replace, shot, use);
    }

    // Finds the bound ready draft and promotes its file.
    method TakeDraft(b: nat, session: nat, url: string, prior: Option<Key>, id: nat)
      returns (shot: Option<Shot>, draft: Draft)
      requires deps.Wired()
      modifies deps.files, deps.db, deps.env
      ensures Solo(old(deps.Now()), UpdateFindDraft(b, session, url, prior, id), old(deps.env.script))
              == Solo(deps.Now(),
                      if shot.Some? then UpdateWrite(b, url, prior, true, shot, Some(Consumption(id, draft)))
                      else Done(false),
                      deps.env.script)
    {
      ghost var st, script := deps.Now(), deps.env.script;
      var found := deps.db.FindDraft(id);
      Calling(st, UpdateFindDraft(b, session, url, prior, id), script, deps.Now(),
              AfterUpdateFindDraft(st, b, session, url, prior, id, Head(script).fail));
      shot, draft := None, Draft(0, None, "", DraftState.Pending, None, "", NoFailure, 0);
      if found.None? { return; }
      draft := found.value;
      if !UsableBy(draft, session, url, deps.env.now) || draft.bookmark != Some(b) || draft.state != Ready { return; }
      var key := deps.files.Promote(draft.staged);
      if key.Some? { shot := Some(Shot(key.value, draft.final)); }
      ghost var use := Consumption(id, draft);
      Calling(st, UpdatePromote(b, url, prior, use), Tail(script), deps.Now(),
              if shot.None? then Done(false) else UpdateWrite(b, url, prior, true, shot, Some(use)));
    }

    // The transactional swap, then compensation, or consuming the draft and retiring the old file.
    method Write(b: nat, url: string, prior: Option<Key>, replace: bool, shot: Option<Shot>, use: Option<Consumption>)
      returns (ok: bool)
      requires deps.Wired()
      modifies deps.files, deps.db, deps.env
      ensures Solo(old(deps.Now()), UpdateWrite(b, url, prior, replace, shot, use), old(deps.env.script))
              == (deps.Now(), Done(ok))
    {
      ghost var st, script := deps.Now(), deps.env.script;
      ghost var p := UpdateWrite(b, url, prior, replace, shot, use);
      ok := deps.db.UpdateBookmark(b, url, replace, shot);
      ghost var st1 := deps.Now();
      if !ok {
        Calling(st, p, script, st1, if replace && shot.Some? then UpdateUndo(shot.value.key) else Done(false));
        if replace && shot.Some? {
          var removed := deps.files.Remove(shot.value.key);
          Calling(st1, UpdateUndo(shot.value.key), Tail(script), deps.Now(), Done(false));
        }
        return;
      }
      var retire := if replace then prior else None;
      ghost var at := st.now;
      Calling(st, p, script, st1, if use.Some? then UpdateConsume(use.value, retire, at) else Retiring(retire, at));
      if use.Some? {
        var stored := deps.db.UpdateDraft(use.value.id, use.value.draft.(state := Consumed));
        Calling(st1, UpdateConsume(use.value, retire, at), Tail(script), deps.Now(), Retiring(retire, at));
      }
      Retire(retire, deps.env.now);
    }

    method Retire(prior: Option<Key>, at: nat)
      requires deps.Wired()
      modifies deps.files, deps.db, deps.env
      ensures Solo(old(deps.Now()), Retiring(prior, at), old(deps.env.script)) == (deps.Now(), Done(true))
    {
      if prior.None? { return; }
      ghost var st, script := deps.Now(), deps.env.script;
      var removed := deps.files.Remove(prior.value);
      ghost var st1 := deps.Now();
      Calling(st, UpdateRetire(prior.value, at), script, st1,
              if removed then Done(true) else UpdateQueue(prior.value, at));
      if !removed {
        var queued := deps.db.CreateScreenshotCleanup(prior.value, at);
        Calling(st1, UpdateQueue(prior.value, at), Tail(script), deps.Now(), Done(true));
      }
    }

    method Delete(b: nat, confirm: bool) returns (ok: bool)
      requires deps.Wired()
      modifies deps.files, deps.db, deps.env
      ensures Solo(old(deps.Now()), Begin(Op.Delete(b, confirm)), old(deps.env.script)) == (deps.Now(), Done(ok))
    {
      if !confirm { return false; }
      ghost var st, script := deps.Now(), deps.env.script;
      var current := deps.db.FindBookmark(b);
      Calling(st, DeleteFind(b), script, deps.Now(), DeleteStep(st, DeleteFind(b), Head(script)).1);
      if current.None? { return false; }
      var parked := None;
      if current.value.shot.Some? {
        var home := current.value.shot.value.key;
        var q := deps.files.Quarantine(home);
        if q.Some? { parked := Some(Parking(q.value, home)); }
        Calling(st, DeleteQuarantine(b, home), Tail(script), deps.Now(),
                if q.None? then Done(false) else DeleteWrite(b, parked));
        if q.None? { return false; }
      }
      ok := Drop(b, parked);
    }

    // The database deletion, then restoring or unlinking the quarantined file.
    method Drop(b: nat, parked: Option<Parking>) returns (ok: bool)
      requires deps.Wired()
      modifies deps.files, deps.db, deps.env
      ensures Solo(old(deps.Now()), DeleteWrite(b, parked), old(deps.env.script)) == (deps.Now(), Done(ok))
    {
      ghost var st, script := deps.Now(), deps.env.script;
      ok := deps.db.DeleteBookmark(b);
      ghost var st1 := deps.Now();
      if !ok {
        Calling(st, DeleteWrite(b, parked), script, st1,
                if parked.None? then Done(false) else DeleteRestore(b, parked.value));
        if parked.Some? {
          var restored := deps.files.Restore(parked.value.q, parked.value.home);
          Calling(st1, DeleteRestore(b, parked.value), Tail(script), deps.Now(), Done(false));
        }
        return;
      }
      Calling(st, DeleteWrite(b, parked), script, st1,
              if parked.None? then Done(true) else DeleteUnlink(parked.value.q));
      if parked.Some? { Unlinked(parked.value.q); }
    }

    method Unlinked(q: Key)
      requires deps.Wired()
      modifies deps.files, deps.db, deps.env
      ensures Solo(old(deps.Now()), DeleteUnlink(q), old(deps.env.script)) == (deps.Now(), Done(true))
    {
      ghost var st, script := deps.Now(), deps.env.script;
      var removed := deps.files.Remove(q);
      ghost var st1 := deps.Now();
      Calling(st, DeleteUnlink(q), script, st1, if removed then Done(true) else DeleteQueue(q));
      if !removed {
        var queued := deps.db.CreateScreenshotCleanup(q, deps.env.now);
        Calling(st1, DeleteQueue(q), Tail(script), deps.Now(), Done(true));
      }
    }
  }

  class CleanupProcessor {
    const deps: Dependencies

    constructor (deps: Dependencies)
      requires deps.Wired()
      ensures this.deps == deps
    {
      this.deps := deps;
    }

    method Process(limit: nat, maximum: int) returns (ok: bool)
      requires deps.Wired()
      modifies deps.files, deps.db, deps.env
      ensures Solo(old(deps.Now()), Begin(Op.Cleanup(limit, maximum)), old(deps.env.script)) == (deps.Now(), Done(ok))
    {
      ghost var st, p, script := deps.Now(), Cleaning(Claiming(limit), maximum), deps.env.script;
      var now := deps.env.now;
      var claims := deps.db.ClaimDueScreenshotCleanup(now, limit);
      Calling(st, p, script, deps.Now(), CleaningStep(st, Claiming(limit), maximum, Head(script)).1);
      if claims.None? { return false; }
      var i := 0;
      while i < |claims.value|
        invariant 0 <= i <= |claims.value|
        invariant Solo(st, p, script) == Solo(deps.Now(), Standing(claims.value[i..], now, maximum), deps.env.script)
      {
        ok := Attempt(claims.value[i..], now, maximum);
        if !ok { return; }
        i := i + 1;
      }
      return true;
    }

    ghost function Standing(rest: seq<Claim>, at: nat, maximum: int): Proc {
      if |rest| == 0 then Done(true) else Cleaning(Removing(rest, at), maximum)
    }

    // One record: try to remove its file and store the outcome.
    method Attempt(rest: seq<Claim>, now: nat, maximum: int) returns (ok: bool)
      requires deps.Wired() && |rest| > 0
      modifies deps.files, deps.db, deps.env
      ensures Solo(old(deps.Now()), Standing(rest, now, maximum), old(deps.env.script))
              == Solo(deps.Now(), if ok then Standing(rest[1..], now, maximum) else Done(false), deps.env.script)
    {
      ghost var st, script := deps.Now(), deps.env.script;
      var record := rest[0].record;
      var removed := deps.files.Remove(record.key);
      if removed {
        record := record.(state := Succeeded);
      } else {
        record := record.(attempts := record.attempts + 1);
        if record.attempts >= maximum {
          record := record.(state := Abandoned);
        } else {
          record := record.(state := RecordState.Pending, nextAt := now + record.attempts * MINUTE);
        }
      }
      ghost var st1 := deps.Now();
      ghost var done := rest[0].(record := record);
      ghost var completing := Completing(done, rest[1..], now);
      Calling(st, Cleaning(Removing(rest, now), maximum), script, st1, Cleaning(completing, maximum));
      ok := deps.db.CompleteScreenshotCleanup(rest[0].(record := record));
      Calling(st1, Cleaning(completing, maximum), Tail(script), deps.Now(),
              if ok then Standing(rest[1..], now, maximum) else Done(false));
    }
  }

  class CaptureService {
    const deps: Dependencies

    constructor (deps: Dependencies)
      requires deps.Wired()
      ensures this.deps == deps
    {
      this.deps := deps;
    }

    method Start(session: nat, url: Option<string>, bound: Option<nat>, lifetime: nat) returns (ok: bool)
      requires deps.Wired()
      modifies deps.files, deps.db, deps.env
      ensures Solo(old(deps.Now()), Begin(StartCapture(session, url, bound, lifetime)), old(deps.env.script))
              == (deps.Now(), Done(ok))
    {
      if url.None? { return false; }
      ghost var st, script := deps.Now(), deps.env.script;
      var draft := Draft(session, bound, url.value, Capturing, None, "", NoFailure, deps.env.now + lifetime);
      var id := deps.db.CreateDraft(draft);
      Calling(st, CaptureCreate(session, url.value, bound, lifetime), script, deps.Now(),
              if id.None? then Done(false) else CaptureShoot(Consumption(id.value, draft)));
      if id.None? { return false; }
      Attempt(id.value, draft);
      return true;
    }

    // run in the program: one attempt at a capture, recorded in the draft.
    method Attempt(id: nat, attempt: Draft)
      requires deps.Wired()
      modifies deps.files, deps.db, deps.env
      ensures Solo(old(deps.Now()), CaptureShoot(Consumption(id, attempt)), old(deps.env.script))
              == (deps.Now(), Done(true))
    {
      var draft := attempt;
      ghost var st, script, use := deps.Now(), deps.env.script, Consumption(id, attempt);
      var result := deps.files.Capture(draft.target);
      ghost var st1 := deps.Now();
      if result.None? {
        draft := draft.(state := Failed, failure := CaptureFailed);
        Calling(st, CaptureShoot(use), script, st1, CaptureWrite(Consumption(id, draft)));
      } else {
        Calling(st, CaptureShoot(use), script, st1, CaptureValidate(use, result.value.0, result.value.1));
        var valid := deps.files.Validate(result.value.0);
        if !valid {
          draft := draft.(state := Failed, failure := InvalidOutput);
        } else {
          draft := draft.(state := Ready, staged := Some(result.value.0), final := result.value.1);
        }
        Calling(st1, CaptureValidate(use, result.value.0, result.value.1), Tail(script), deps.Now(),
            CaptureWrite(Consumption(id, draft)));
      }
      Save(id, draft);
    }

    method Save(id: nat, draft: Draft)
      requires deps.Wired()
      modifies deps.files, deps.db, deps.env
      ensures Solo(old(deps.Now()), CaptureWrite(Consumption(id, draft)), old(deps.env.script))
              == (deps.Now(), Done(true))
    {
      ghost var st, script := deps.Now(), deps.env.script;
      var stored := deps.db.UpdateDraft(id, draft);
      Calling(st, CaptureWrite(Consumption(id, draft)), script, deps.Now(), Done(true));
    }

    // Status in the program: only its owner may see a draft.
    method Status(session: nat, id: nat) returns (draft: Option<Draft>)
      requires deps.Wired()
      modifies deps.env`script
      ensures deps.env.script == Tail(old(deps.env.script))
      ensures var hidden := id !in deps.db.drafts || deps.db.drafts[id].owner != session;
              draft == if Head(old(deps.env.script)).fail || hidden then None else Some(deps.db.drafts[id])
    {
      draft := deps.db.FindDraft(id);
      if draft.Some? && draft.value.owner != session { draft := None; }
    }

    method Retry(session: nat, id: nat) returns (ok: bool)
      requires deps.Wired()
      modifies deps.files, deps.db, deps.env
      ensures Solo(old(deps.Now()), Begin(RetryCapture(session, id)), old(deps.env.script)) == (deps.Now(), Done(ok))
    {
      ghost var st, script := deps.Now(), deps.env.script;
      var found := Status(session, id);
      Calling(st, RetryFind(session, id), script, deps.Now(), CaptureStep(st, RetryFind(session, id), Head(script)).1);
      if found.None? || found.value.state != Failed || IsExpired(found.value, deps.env.now) { return false; }
      var draft := found.value.(state := Capturing, failure := NoFailure);
      var stored := deps.db.UpdateDraft(id, draft);
      ghost var use := Consumption(id, draft);
      Calling(st, RetryWrite(use), Tail(script), deps.Now(), if stored then CaptureShoot(use) else Done(false));
      if !stored { return false; }
      Attempt(id, draft);
      return true;
    }

    method Discard(session: nat, id: nat) returns (ok: bool)
      requires deps.Wired()
      modifies deps.files, deps.db, deps.env
      ensures Solo(old(deps.Now()), Begin(DiscardCapture(session, id)), old(deps.env.script)) == (deps.Now(), Done(ok))
    {
      ghost var st, script := deps.Now(), deps.env.script;
      var found := Status(session, id);
      Calling(st, DiscardFind(session, id), script, deps.Now(),
          CaptureStep(st, DiscardFind(session, id), Head(script)).1);
      if found.None? || !CanDiscard(found.value) { return false; }
      ghost var use := Consumption(id, found.value);
      if found.value.staged.Some? {
        var removed := deps.files.Remove(found.value.staged.value);
        Calling(st, DiscardFile(use, found.value.staged.value), Tail(script), deps.Now(), DiscardWrite(use));
      }
      ok := MarkDiscarded(id, found.value);
    }

    method MarkDiscarded(id: nat, draft: Draft) returns (ok: bool)
      requires deps.Wired()
      modifies deps.files, deps.db, deps.env
      ensures Solo(old(deps.Now()), DiscardWrite(Consumption(id, draft)), old(deps.env.script))
              == (deps.Now(), Done(ok))
    {
      ghost var st, script := deps.Now(), deps.env.script;
      ok := deps.db.UpdateDraft(id, draft.(state := Discarded));
      Calling(st, DiscardWrite(Consumption(id, draft)), script, deps.Now(), Done(ok));
    }
  }
}
