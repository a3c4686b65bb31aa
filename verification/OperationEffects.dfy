// When each operation succeeds, told from the stores, its input and the port calls that
// fail, and what it makes of the stores when none does.
module OperationEffects {
  import opened Prelude
  import opened CleanupQueue
  import opened ScreenshotModel
  import opened SagaSerial
  import opened ScreenshotUseCases

  predicate Smooth(script: seq<Choice>) {
    forall i :: 0 <= i < |script| ==> !script[i].fail
  }

  lemma {:induction false} SmoothOn(script: seq<Choice>)
    requires Smooth(script)
    ensures !Head(script).fail && Smooth(Tail(script))
  {
  }

  // Port call number i does not fail.
  predicate Works(script: seq<Choice>, i: nat) {
    i < |script| ==> !script[i].fail
  }

  // Port call number i and what the rest of the script says of later ones.
  lemma {:induction false} CallsOf(script: seq<Choice>)
    ensures Works(script, 0) == !Head(script).fail
    ensures forall i: nat :: Works(Tail(script), i) == Works(script, i + 1)
  {
  }

  // The draft is the session's own, was taken for the address, and is within its lifetime;
  // one without an expiry never ends.
  predicate Serves(draft: Draft, session: nat, url: string, now: nat) {
    draft.owner == session && draft.target == url && (draft.expires == 0 || now <= draft.expires)
  }

  predicate HasShot(st: Stores, draft: Draft) {
    draft.staged.Some? && draft.staged.value in st.files
  }

  // The files after the draft's staged one has been moved to a new promoted key.
  function Promoting(st: Stores, draft: Draft): map<Key, Image>
    requires HasShot(st, draft)
  {
    (st.files - {draft.staged.value})[Key(Promoted, st.next) := st.files[draft.staged.value]]
  }

  function Consuming(st: Stores, d: nat): map<nat, Draft>
    requires d in st.drafts
  {
    st.drafts[d := st.drafts[d].(state := Consumed)]
  }

  function Keys(shot: Option<Shot>): set<Key> {
    if shot.Some? then {shot.value.key} else {}
  }

  // ---- Create ----

  predicate CanCreate(st: Stores, input: SaveInput) {
    && input.url.Some? && input.described
    && if input.capture.None? then input.without
       else
         && input.capture.value in st.drafts
         && var draft := st.drafts[input.capture.value];
            && Serves(draft, input.session, input.url.value, st.now)
            && if draft.state == Ready then HasShot(st, draft) else input.without
  }

  lemma {:induction false} CreatesWithShot(st: Stores, input: SaveInput, script: seq<Choice>, d: nat)
    requires Smooth(script) && CanCreate(st, input) && input.capture == Some(d) && st.drafts[d].state == Ready
    ensures var shot := Shot(Key(Promoted, st.next), st.drafts[d].final);
            Solo(st, Begin(Create(input)), script)
            == (st.(files := Promoting(st, st.drafts[d]), drafts := Consuming(st, d),
                    rows := st.rows[st.next + 1 := Row(input.url.value, Some(shot))], next := st.next + 2),
                Done(true))
  {
    var draft, url := st.drafts[d], input.url.value;
    var use, shot := Consumption(d, draft), Shot(Key(Promoted, st.next), draft.final);
    SmoothOn(script);
    Calling(st, CreateFind(input, url, d), script, st, CreatePromote(url, use));
    SmoothOn(Tail(script));
    var st1 := st.(files := Promoting(st, draft), next := st.next + 1);
    Calling(st, CreatePromote(url, use), Tail(script), st1, CreateConsume(url, use, shot.key));
    var script2 := Tail(Tail(script));
    SmoothOn(script2);
    var st2 := st1.(drafts := Consuming(st, d));
    Calling(st1, CreateConsume(url, use, shot.key), script2, st2, CreateWrite(url, Some(shot)));
    CreatesRow(st2, url, Some(shot), Tail(script2));
  }

  lemma {:induction false} CreatesRow(st: Stores, url: string, shot: Option<Shot>, script: seq<Choice>)
    requires Smooth(script)
    ensures Solo(st, CreateWrite(url, shot), script)
            == (st.(rows := st.rows[st.next := Row(url, shot)], next := st.next + 1), Done(true))
  {
    SmoothOn(script);
  }

  lemma {:induction false} CreatesWithoutShot(st: Stores, input: SaveInput, script: seq<Choice>)
    requires Smooth(script) && CanCreate(st, input)
    requires input.capture.Some? ==> st.drafts[input.capture.value].state != Ready
    ensures Solo(st, Begin(Create(input)), script)
            == (st.(rows := st.rows[st.next := Row(input.url.value, None)], next := st.next + 1), Done(true))
  {
    var url := input.url.value;
    SmoothOn(script);
    if input.capture.Some? {
      Calling(st, CreateFind(input, url, input.capture.value), script, st, CreateWrite(url, None));
      CreatesRow(st, url, None, Tail(script));
    } else {
      CreatesRow(st, url, None, script);
    }
  }

  lemma {:induction false} RefusesToCreate(st: Stores, input: SaveInput, script: seq<Choice>)
    requires !CanCreate(st, input)
    ensures Solo(st, Begin(Create(input)), script) == (st, Done(false))
  {
    var p := Begin(Create(input));
    if p.CreateFind? {
      var q := AfterCreateFind(st, input, p.url, p.id, Head(script).fail);
      Calling(st, p, script, st, q);
      if !q.Done? { Calling(st, q, Tail(script), st, Done(false)); }
    }
  }

  lemma {:induction false} WriteAnswers(st: Stores, url: string, shot: Option<Shot>, script: seq<Choice>)
    ensures Solo(st, CreateWrite(url, shot), script).1 == Done(Works(script, 0))
  {
    CallsOf(script);
    var (t, q) := Step(st, CreateWrite(url, shot), Head(script));
    Calling(st, CreateWrite(url, shot), script, t, q);
    if !q.Done? { Calling(t, q, Tail(script), Step(t, q, Head(Tail(script))).0, Done(false)); }
  }

  lemma {:induction false} PromoteAnswers(st: Stores, url: string, use: Consumption, script: seq<Choice>)
    requires HasShot(st, use.draft)
    ensures Solo(st, CreatePromote(url, use), script).1 == Done(Works(script, 0) && Works(script, 2))
  {
    CallsOf(script);
    CallsOf(Tail(script));
    var (t, q) := Step(st, CreatePromote(url, use), Head(script));
    Calling(st, CreatePromote(url, use), script, t, q);
    if !q.Done? {
      var (u, r) := Step(t, q, Head(Tail(script)));
      Calling(t, q, Tail(script), u, r);
      WriteAnswers(u, r.url, r.shot, Tail(Tail(script)));
    }
  }

  // The calls that must not fail: finding the draft and moving its file, and the row
  // write. Whether marking the draft consumed fails does not matter.
  predicate CreateCallsWork(st: Stores, input: SaveInput, script: seq<Choice>)
    requires CanCreate(st, input)
  {
    if input.capture.None? then Works(script, 0)
    else if st.drafts[input.capture.value].state == Ready
    then Works(script, 0) && Works(script, 1) && Works(script, 3)
    else Works(script, 0) && Works(script, 1)
  }

  // A bookmark is created exactly if address and description are valid and either a
  // capture that serves it is ready and has its file, or saving without one was chosen
  // and no ready capture was named, and the calls work; otherwise there is an error.
  lemma {:induction false} CreateExactly(st: Stores, input: SaveInput, script: seq<Choice>)
    ensures var (t, p) := Solo(st, Begin(Create(input)), script);
            && p == Done(CanCreate(st, input) && CreateCallsWork(st, input, script))
            && (!CanCreate(st, input) ==> t == st)
  {
    if !CanCreate(st, input) { RefusesToCreate(st, input, script); }
    else if input.capture.None? { WriteAnswers(st, input.url.value, None, script); }
    else {
      CallsOf(script);
      var p := Begin(Create(input));
      var q := AfterCreateFind(st, input, p.url, p.id, Head(script).fail);
      Calling(st, p, script, st, q);
      if q.CreatePromote? { PromoteAnswers(st, q.url, q.use, Tail(script)); }
      else if q.CreateWrite? { WriteAnswers(st, q.url, q.shot, Tail(script)); }
    }
  }

  // ---- Update ----

  predicate CanUpdate(st: Stores, b: nat, input: SaveInput) {
    && b in st.rows && input.url.Some? && input.described
    && if input.capture.None? then input.url.value == st.rows[b].url || input.without
       else
         && input.capture.value in st.drafts
         && var draft := st.drafts[input.capture.value];
            && Serves(draft, input.session, input.url.value, st.now)
            && draft.bookmark == Some(b) && draft.state == Ready && HasShot(st, draft)
  }

  // Retiring the old screenshot: its file is gone and nothing is queued.
  lemma {:induction false} Retires(st: Stores, prior: Option<Key>, at: nat, script: seq<Choice>)
    requires Smooth(script)
    ensures Solo(st, Retiring(prior, at), script)
            == (st.(files := st.files - if prior.Some? then {prior.value} else {}), Done(true))
  {
    if prior.Some? {
      SmoothOn(script);
      Calling(st, UpdateRetire(prior.value, at), script, st.(files := st.files - {prior.value}), Done(true));
    } else {
      assert st.files - {} == st.files;
    }
  }

  lemma {:induction false} UpdatesWithShot(st: Stores, b: nat, input: SaveInput, script: seq<Choice>, d: nat)
    requires Smooth(script) && CanUpdate(st, b, input) && input.capture == Some(d)
    ensures var shot := Shot(Key(Promoted, st.next), st.drafts[d].final);
            Solo(st, Begin(Update(b, input)), script)
            == (st.(files := Promoting(st, st.drafts[d]) - Keys(st.rows[b].shot), drafts := Consuming(st, d),
                    rows := st.rows[b := Row(input.url.value, Some(shot))], next := st.next + 1),
                Done(true))
  {
    var draft, url, prior := st.drafts[d], input.url.value, ShotKey(st.rows[b]);
    var use, shot := Consumption(d, draft), Shot(Key(Promoted, st.next), draft.final);
    SmoothOn(script);
    Calling(st, UpdateFind(b, input), script, st, UpdateFindDraft(b, input.session, url, prior, d));
    var script1 := Tail(script);
    SmoothOn(script1);
    Calling(st, UpdateFindDraft(b, input.session, url, prior, d), script1, st, UpdatePromote(b, url, prior, use));
    var script2 := Tail(script1);
    SmoothOn(script2);
    var st1 := st.(files := Promoting(st, draft), next := st.next + 1);
    var write := UpdateWrite(b, url, prior, true, Some(shot), Some(use));
    Calling(st, UpdatePromote(b, url, prior, use), script2, st1, write);
    SwapsShot(st1, b, url, prior, shot, use, Tail(script2));
  }

  lemma {:induction false} SwapsShot(st: Stores, b: nat, url: string, prior: Option<Key>, shot: Shot,
      use: Consumption, script: seq<Choice>)
    requires Smooth(script) && b in st.rows && use.id in st.drafts && use.draft == st.drafts[use.id]
    ensures Solo(st, UpdateWrite(b, url, prior, true, Some(shot), Some(use)), script)
            == (st.(files := st.files - (if prior.Some? then {prior.value} else {}), drafts := Consuming(st, use.id),
                    rows := st.rows[b := Row(url, Some(shot))]),
                Done(true))
  {
    SmoothOn(script);
    var st1 := st.(rows := st.rows[b := Row(url, Some(shot))]);
    Calling(st, UpdateWrite(b, url, prior, true, Some(shot), Some(use)), script, st1,
        UpdateConsume(use, prior, st.now));
    SmoothOn(Tail(script));
    var st2 := st1.(drafts := Consuming(st, use.id));
    Calling(st1, UpdateConsume(use, prior, st.now), Tail(script), st2, Retiring(prior, st.now));
    Retires(st2, prior, st.now, Tail(Tail(script)));
  }

  lemma {:induction false} UpdatesInPlace(st: Stores, b: nat, input: SaveInput, script: seq<Choice>)
    requires Smooth(script) && CanUpdate(st, b, input) && input.capture.None? && input.url.value == st.rows[b].url
    ensures Solo(st, Begin(Update(b, input)), script) == (st, Done(true))
  {
    var url, prior := input.url.value, ShotKey(st.rows[b]);
    SmoothOn(script);
    Calling(st, UpdateFind(b, input), script, st, UpdateWrite(b, url, prior, false, None, None));
    SmoothOn(Tail(script));
    assert st.rows[b := Row(url, st.rows[b].shot)] == st.rows;
    Calling(st, UpdateWrite(b, url, prior, false, None, None), Tail(script), st, Done(true));
  }

  lemma {:induction false} UpdatesWithoutShot(st: Stores, b: nat, input: SaveInput, script: seq<Choice>)
    requires Smooth(script) && CanUpdate(st, b, input) && input.capture.None? && input.url.value != st.rows[b].url
    ensures Solo(st, Begin(Update(b, input)), script)
            == (st.(files := st.files - Keys(st.rows[b].shot), rows := st.rows[b := Row(input.url.value, None)]),
                Done(true))
  {
    var url, prior := input.url.value, ShotKey(st.rows[b]);
    SmoothOn(script);
    Calling(st, UpdateFind(b, input), script, st, UpdateWrite(b, url, prior, true, None, None));
    SmoothOn(Tail(script));
    var st1 := st.(rows := st.rows[b := Row(url, None)]);
    Calling(st, UpdateWrite(b, url, prior, true, None, None), Tail(script), st1, Retiring(prior, st.now));
    Retires(st1, prior, st.now, Tail(Tail(script)));
  }

  lemma {:induction false} RefusesToUpdate(st: Stores, b: nat, input: SaveInput, script: seq<Choice>)
    requires !CanUpdate(st, b, input)
    ensures Solo(st, Begin(Update(b, input)), script) == (st, Done(false))
  {
    var q := AfterUpdateFind(st, b, input, Head(script).fail);
    Calling(st, UpdateFind(b, input), script, st, q);
    if q.UpdateFindDraft? {
      var r := AfterUpdateFindDraft(st, q.b, q.session, q.url, q.prior, q.id, Head(Tail(script)).fail);
      Calling(st, q, Tail(script), st, r);
      if r.UpdatePromote? { Calling(st, r, Tail(Tail(script)), st, Done(false)); }
    }
  }

  // The queue once a file, if there is one, was to be removed: it gains a record, due at
  // once and never tried, exactly if the removal fails and the record can be stored.
  function Queued(st: Stores, key: Option<Key>, at: nat, script: seq<Choice>, i: nat): seq<Record> {
    st.cleanups
    + if key.Some? && !Works(script, i) && Works(script, i + 1)
      then [Record(key.value, RecordState.Pending, 0, at)] else []
  }

  lemma {:induction false} RetiringAnswers(st: Stores, prior: Option<Key>, at: nat, script: seq<Choice>)
    ensures var (t, p) := Solo(st, Retiring(prior, at), script);
            p == Done(true) && t.cleanups == Queued(st, prior, at, script, 0)
  {
    CallsOf(script);
    CallsOf(Tail(script));
    if prior.Some? {
      var (t, q) := Step(st, UpdateRetire(prior.value, at), Head(script));
      Calling(st, UpdateRetire(prior.value, at), script, t, q);
      if !q.Done? { Calling(t, q, Tail(script), Step(t, q, Head(Tail(script))).0, Done(true)); }
    }
  }

  lemma {:induction false} SwapAnswers(st: Stores, p: Proc, script: seq<Choice>)
    requires p.UpdateWrite? && p.b in st.rows
    ensures var (t, q) := Solo(st, p, script);
            && q == Done(Works(script, 0))
            && t.cleanups == Queued(st, if Works(script, 0) && p.replace then p.prior else None, st.now, script,
                                    if p.consume.Some? then 2 else 1)
  {
    CallsOf(script);
    CallsOf(Tail(script));
    var (t, q) := Step(st, p, Head(script));
    Calling(st, p, script, t, q);
    if Head(script).fail {
      if !q.Done? { Calling(t, q, Tail(script), Step(t, q, Head(Tail(script))).0, Done(false)); }
    } else if p.consume.Some? {
      var (u, r) := Step(t, q, Head(Tail(script)));
      Calling(t, q, Tail(script), u, r);
      RetiringAnswers(u, q.prior, q.at, Tail(Tail(script)));
    } else {
      RetiringAnswers(t, if p.replace then p.prior else None, st.now, Tail(script));
    }
  }

  // Finding the bookmark, finding the draft and moving its file, and the row write.
  predicate UpdateCallsWork(input: SaveInput, script: seq<Choice>) {
    && Works(script, 0) && Works(script, 1)
    && (input.capture.Some? ==> Works(script, 2) && Works(script, 3))
  }

  // The old file that a successful update does away with.
  function Replaced(st: Stores, b: nat, input: SaveInput): Option<Key> {
    if b in st.rows && st.rows[b].shot.Some? && (input.capture.Some? || input.url != Some(st.rows[b].url))
    then Some(st.rows[b].shot.value.key) else None
  }

  // An update succeeds exactly if the bookmark exists, address and description are
  // valid, and either the named capture serves it, is bound to the bookmark, is ready and
  // has its file, or none is named and the address is unchanged or going without a
  // screenshot was chosen, and the calls up to the row write work; no later call matters.
  // The old screenshot's file is queued exactly if the update succeeds and replaces it,
  // removing it fails, and queueing it does not.
  lemma {:induction false} UpdateExactly(st: Stores, b: nat, input: SaveInput, script: seq<Choice>)
    ensures var (t, p) := Solo(st, Begin(Update(b, input)), script);
            && p == Done(CanUpdate(st, b, input) && UpdateCallsWork(input, script))
            && (!CanUpdate(st, b, input) ==> t == st)
            && t.cleanups == Queued(st, if p.ok then Replaced(st, b, input) else None, st.now, script,
                                    if input.capture.Some? then 5 else 2)
  {
    if !CanUpdate(st, b, input) { RefusesToUpdate(st, b, input, script); }
    else {
      CallsOf(script);
      var q := AfterUpdateFind(st, b, input, Head(script).fail);
      Calling(st, UpdateFind(b, input), script, st, q);
      if q.UpdateWrite? { SwapAnswers(st, q, Tail(script)); }
      else if q.UpdateFindDraft? { DraftAnswers(st, q, Tail(script)); }
    }
  }

  lemma {:induction false} DraftAnswers(st: Stores, p: Proc, script: seq<Choice>)
    requires p.UpdateFindDraft? && p.b in st.rows && p.id in st.drafts && HasShot(st, st.drafts[p.id])
    requires Serves(st.drafts[p.id], p.session, p.url, st.now)
    requires st.drafts[p.id].bookmark == Some(p.b) && st.drafts[p.id].state == Ready
    ensures var (t, q) := Solo(st, p, script);
            && q == Done(Works(script, 0) && Works(script, 1) && Works(script, 2))
            && t.cleanups == Queued(st, if q == Done(true) then p.prior else None, st.now, script, 4)
  {
    CallsOf(script);
    CallsOf(Tail(script));
    var q := AfterUpdateFindDraft(st, p.b, p.session, p.url, p.prior, p.id, Head(script).fail);
    Calling(st, p, script, st, q);
    if !q.Done? {
      var (t, r) := Step(st, q, Head(Tail(script)));
      Calling(st, q, Tail(script), t, r);
      if !r.Done? { SwapAnswers(t, r, Tail(Tail(script))); }
    }
  }

  // ---- Delete ----

  predicate CanDelete(st: Stores, b: nat, confirm: bool) {
    confirm && b in st.rows && (st.rows[b].shot.Some? ==> st.rows[b].shot.value.key in st.files)
  }

  // The calls that must not fail: finding the bookmark, parking its file, dropping the row.
  predicate DeleteCallsWork(st: Stores, b: nat, script: seq<Choice>)
    requires b in st.rows
  {
    Works(script, 0) && Works(script, 1) && (st.rows[b].shot.Some? ==> Works(script, 2))
  }

  // Drafts bound to the bookmark lose the binding; the others stay as they are.
  predicate Unbinds(before: map<nat, Draft>, b: nat, after: map<nat, Draft>) {
    && after.Keys == before.Keys
    && forall d :: d in before ==>
         after[d] == if before[d].bookmark == Some(b) then before[d].(bookmark := None) else before[d]
  }

  // The file's key and the unused one that it passes through.
  function ParkedKeys(st: Stores, shot: Option<Shot>): set<Key> {
    if shot.Some? then {shot.value.key, Key(Quarantine, st.next)} else {}
  }

  // A bookmark is deleted exactly if that is confirmed, it exists and the file of its
  // screenshot does, and the calls up to the deletion work. With no call failing the row
  // and the file are gone, and nothing else changes but the bindings. The parked file is
  // queued exactly if it can be queued but not removed.
  lemma {:induction false} DeleteExactly(st: Stores, b: nat, confirm: bool, script: seq<Choice>)
    ensures var (t, p) := Solo(st, Begin(Delete(b, confirm)), script);
            && p == Done(CanDelete(st, b, confirm) && DeleteCallsWork(st, b, script))
            && (!CanDelete(st, b, confirm) ==> t == st)
            && (CanDelete(st, b, confirm) && Smooth(script) ==>
                  && t.rows == st.rows - {b} && Unbinds(st.drafts, b, t.drafts)
                  && t.files == st.files - ParkedKeys(st, st.rows[b].shot)
                  && t.now == st.now)
            && t.cleanups == Queued(st, if p == Done(true) && st.rows[b].shot.Some? then Some(Key(Quarantine, st.next))
                                        else None, st.now, script, 3)
  {
    if confirm {
      CallsOf(script);
      var q := Step(st, DeleteFind(b), Head(script)).1;
      Calling(st, DeleteFind(b), script, st, q);
      if q.DeleteWrite? { Drops(st, b, None, Tail(script)); }
      else if q.DeleteQuarantine? { Parks(st, b, q.key, Tail(script)); }
    }
  }

  lemma {:induction false} Parks(st: Stores, b: nat, key: Key, script: seq<Choice>)
    requires b in st.rows
    ensures var (t, p) := Solo(st, DeleteQuarantine(b, key), script);
            && p == Done(key in st.files && Works(script, 0) && Works(script, 1))
            && (key !in st.files ==> t == st)
            && (key in st.files && Smooth(script) ==>
                  && t.rows == st.rows - {b} && Unbinds(st.drafts, b, t.drafts)
                  && t.files == st.files - {key, Key(Quarantine, st.next)}
                  && t.now == st.now)
            && t.cleanups == Queued(st, if p == Done(true) then Some(Key(Quarantine, st.next)) else None,
                                    st.now, script, 2)
  {
    CallsOf(script);
    var (t, q) := Step(st, DeleteQuarantine(b, key), Head(script));
    Calling(st, DeleteQuarantine(b, key), script, t, q);
    if !q.Done? { Drops(t, b, q.parked, Tail(script)); }
  }

  lemma {:induction false} Drops(st: Stores, b: nat, parked: Option<Parking>, script: seq<Choice>)
    requires b in st.rows
    ensures var (t, p) := Solo(st, DeleteWrite(b, parked), script);
            && p == Done(Works(script, 0))
            && (Smooth(script) ==>
                  && t.rows == st.rows - {b} && Unbinds(st.drafts, b, t.drafts)
                  && t.files == st.files - (if parked.Some? then {parked.value.q} else {})
                  && t.now == st.now)
            && t.cleanups == Queued(st, if Works(script, 0) && parked.Some? then Some(parked.value.q) else None,
                                    st.now, script, 1)
  {
    CallsOf(script);
    CallsOf(Tail(script));
    var (t, q) := Step(st, DeleteWrite(b, parked), Head(script));
    Calling(st, DeleteWrite(b, parked), script, t, q);
    if q.DeleteRestore? { Calling(t, q, Tail(script), Step(t, q, Head(Tail(script))).0, Done(false)); }
    else if q.DeleteUnlink? {
      var (u, r) := Step(t, q, Head(Tail(script)));
      Calling(t, q, Tail(script), u, r);
      if !r.Done? { Calling(u, r, Tail(Tail(script)), Step(u, r, Head(Tail(Tail(script)))).0, Done(true)); }
    }
  }

  // ---- Captures ----

  // The stores after one attempt whose outcome could be stored: only a valid file makes
  // the draft ready.
  function AfterAttempt(st: Stores, id: nat, draft: Draft, script: seq<Choice>): Stores {
    if !Works(script, 0) then
      st.(drafts := st.drafts[id := draft.(state := Failed, failure := CaptureFailed)])
    else
      var key, final := Key(Staging, st.next), Head(script).final;
      st.(files := st.files[key := Image(draft.target, final)], next := st.next + 1,
      drafts := st.drafts[id := if Works(script, 1) then draft.(state := Ready, staged := Some(key), final := final)
                                else draft.(state := Failed, failure := InvalidOutput)])
  }

  // The last call stores the outcome.
  predicate Stored(script: seq<Choice>) {
    if Works(script, 0) then Works(script, 2) else Works(script, 1)
  }

  lemma {:induction false} AttemptsExactly(st: Stores, id: nat, draft: Draft, script: seq<Choice>)
    requires id in st.drafts && st.drafts[id] == draft
    ensures var (t, p) := Solo(st, CaptureShoot(Consumption(id, draft)), script);
            p == Done(true) && (Stored(script) ==> t == AfterAttempt(st, id, draft, script))
  {
    CallsOf(script);
    var use := Consumption(id, draft);
    var (t, q) := Step(st, CaptureShoot(use), Head(script));
    Calling(st, CaptureShoot(use), script, t, q);
    if q.CaptureWrite? { StoresDraft(t, q.use, Tail(script)); }
    else {
      CallsOf(Tail(script));
      var (u, r) := Step(t, q, Head(Tail(script)));
      Calling(t, q, Tail(script), u, r);
      StoresDraft(u, r.use, Tail(Tail(script)));
    }
  }

  lemma {:induction false} StoresDraft(st: Stores, use: Consumption, script: seq<Choice>)
    requires use.id in st.drafts
    requires var d := st.drafts[use.id];
             use.draft == d.(state := use.draft.state, staged := use.draft.staged,
                             final := use.draft.final, failure := use.draft.failure)
    ensures var (t, p) := Solo(st, CaptureWrite(use), script);
            p == Done(true) && (Works(script, 0) ==> t == st.(drafts := st.drafts[use.id := use.draft]))
  {
    CallsOf(script);
    var (t, q) := Step(st, CaptureWrite(use), Head(script));
    Calling(st, CaptureWrite(use), script, t, q);
  }

  // The stores with the new draft of a capture for an address.
  function Begun(st: Stores, draft: Draft): Stores {
    st.(drafts := st.drafts[st.next := draft], next := st.next + 1)
  }

  lemma {:induction false} Begins(st: Stores, p: Proc, draft: Draft, script: seq<Choice>)
    requires p.CaptureCreate?
    requires draft == Draft(p.session, p.bound, p.url, Capturing, None, "", NoFailure, st.now + p.lifetime)
    ensures var (t, q) := Solo(st, p, script);
            && q == Done(Works(script, 0))
            && (!Works(script, 0) ==> t == st)
            && (Works(script, 0) && Stored(Tail(script)) ==>
                  t == AfterAttempt(Begun(st, draft), st.next, draft, Tail(script)))
  {
    CallsOf(script);
    if Works(script, 0) {
      Calling(st, p, script, Begun(st, draft), CaptureShoot(Consumption(st.next, draft)));
      AttemptsExactly(Begun(st, draft), st.next, draft, Tail(script));
    } else {
      Calling(st, p, script, st, Done(false));
    }
  }

  // A capture is started exactly if the address is valid and its draft is stored, whatever
  // becomes of the attempt. The draft is the session's, for that address, bound as asked
  // and ends after the lifetime.
  lemma {:induction false} StartExactly(st: Stores, session: nat, url: Option<string>, bound: Option<nat>,
                                        lifetime: nat, script: seq<Choice>)
    ensures var (t, p) := Solo(st, Begin(StartCapture(session, url, bound, lifetime)), script);
            && p == Done(url.Some? && Works(script, 0))
            && (p == Done(false) ==> t == st)
            && (p == Done(true) && Stored(Tail(script)) ==>
                  var draft := Draft(session, bound, url.value, Capturing, None, "", NoFailure, st.now + lifetime);
                  t == AfterAttempt(Begun(st, draft), st.next, draft, Tail(script)))
  {
    if url.Some? {
      var draft := Draft(session, bound, url.value, Capturing, None, "", NoFailure, st.now + lifetime);
      Begins(st, CaptureCreate(session, url.value, bound, lifetime), draft, script);
    }
  }

  predicate CanRetry(st: Stores, session: nat, id: nat) {
    && id in st.drafts && st.drafts[id].owner == session && st.drafts[id].state == Failed
    && (st.drafts[id].expires == 0 || st.now <= st.drafts[id].expires)
  }

  // A capture is tried again exactly if its draft is the session's, failed and within its
  // lifetime and both the look at it and the mark are stored.
  lemma {:induction false} RetryExactly(st: Stores, session: nat, id: nat, script: seq<Choice>)
    ensures var (t, p) := Solo(st, Begin(RetryCapture(session, id)), script);
            && p == Done(CanRetry(st, session, id) && Works(script, 0) && Works(script, 1))
            && (p == Done(false) ==> t == st)
            && (p == Done(true) && Stored(Tail(Tail(script))) ==>
                  var draft := st.drafts[id].(state := Capturing, failure := NoFailure);
                  t == AfterAttempt(st.(drafts := st.drafts[id := draft]), id, draft, Tail(Tail(script))))
  {
    CallsOf(script);
    var q := Step(st, RetryFind(session, id), Head(script)).1;
    Calling(st, RetryFind(session, id), script, st, q);
    if !q.Done? {
      CallsOf(Tail(script));
      var (t, r) := Step(st, q, Head(Tail(script)));
      Calling(st, q, Tail(script), t, r);
      if !r.Done? { AttemptsExactly(t, id, q.use.draft, Tail(Tail(script))); }
    }
  }

  predicate MayDiscard(st: Stores, session: nat, id: nat) {
    && id in st.drafts && st.drafts[id].owner == session
    && (st.drafts[id].state == Ready || st.drafts[id].state == Failed)
  }

  // Finding the draft and marking it; whether its file can be removed does not matter.
  predicate DiscardCallsWork(st: Stores, id: nat, script: seq<Choice>)
    requires id in st.drafts
  {
    Works(script, 0) && if st.drafts[id].staged.Some? then Works(script, 2) else Works(script, 1)
  }

  function StagedKeys(draft: Draft): set<Key> {
    if draft.staged.Some? then {draft.staged.value} else {}
  }

  // A draft is discarded exactly if it is the session's and ready or failed, and the two
  // calls on it work. With no call failing its file is gone too.
  lemma {:induction false} DiscardExactly(st: Stores, session: nat, id: nat, script: seq<Choice>)
    ensures var (t, p) := Solo(st, Begin(DiscardCapture(session, id)), script);
            && p == Done(MayDiscard(st, session, id) && DiscardCallsWork(st, id, script))
            && (!MayDiscard(st, session, id) ==> t == st)
            && (MayDiscard(st, session, id) && Smooth(script) ==>
                  t == st.(files := st.files - StagedKeys(st.drafts[id]),
                           drafts := st.drafts[id := st.drafts[id].(state := Discarded)]))
  {
    CallsOf(script);
    var q := Step(st, DiscardFind(session, id), Head(script)).1;
    Calling(st, DiscardFind(session, id), script, st, q);
    if q.DiscardFile? {
      CallsOf(Tail(script));
      var (t, r) := Step(st, q, Head(Tail(script)));
      Calling(st, q, Tail(script), t, r);
      Discards(t, r.use, Tail(Tail(script)));
    } else if q.DiscardWrite? {
      assert st.files - {} == st.files;
      Discards(st, q.use, Tail(script));
    }
  }

  lemma {:induction false} Discards(st: Stores, use: Consumption, script: seq<Choice>)
    requires use.id in st.drafts && use.draft == st.drafts[use.id]
    ensures var (t, p) := Solo(st, DiscardWrite(use), script);
            && p == Done(Works(script, 0))
            && (Works(script, 0) ==> t == st.(drafts := st.drafts[use.id := use.draft.(state := Discarded)]))
  {
    CallsOf(script);
    var (t, q) := Step(st, DiscardWrite(use), Head(script));
    Calling(st, DiscardWrite(use), script, t, q);
  }
}
