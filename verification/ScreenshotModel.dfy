// The four stores that screenshot operations coordinate without a shared
// transaction, and each operation as a process that makes one port call per step.
module ScreenshotModel {
  import opened Prelude
  import opened CleanupQueue

  // What a screenshot file shows: the address asked for and the one reached.
  datatype Image = Image(target: string, final: string)

  datatype Shot = Shot(key: Key, captured: string)

  // A bookmark row with its screenshot row.
  datatype Row = Row(url: string, shot: Option<Shot>)

  datatype DraftState = Pending | Capturing | Ready | Failed | Consumed | Discarded | Expired

  datatype Failure = NoFailure | CaptureFailed | InvalidOutput

  datatype Draft = Draft(owner: nat, bookmark: Option<nat>, target: string, state: DraftState,
                         staged: Option<Key>, final: string, failure: Failure, expires: nat)

  // next is the source of fresh UUIDs and now the clock.
  datatype Stores = Stores(files: map<Key, Image>, rows: map<nat, Row>, drafts: map<nat, Draft>,
                           cleanups: seq<Record>, next: nat, now: nat)

  const EMPTY := Stores(map[], map[], map[], [], 0, 1)

  // ---- Draft predicates (bookmarker/model/capture.go) ----

  // Go's zero time is the instant 0.
  predicate IsExpired(draft: Draft, now: nat) {
    draft.expires != 0 && now > draft.expires
  }

  predicate UsableBy(draft: Draft, session: nat, url: string, now: nat) {
    draft.owner == session && draft.target == url && !IsExpired(draft, now)
  }

  predicate CanDiscard(draft: Draft) {
    draft.state == Ready || draft.state == Failed
  }

  predicate IsTerminal(draft: Draft) {
    draft.state == Consumed || draft.state == Discarded || draft.state == Expired
  }

  // ---- File store (adapters/filesystem/screenshots.go) ----

  function Move(st: Stores, from: Key, to: Key): Stores
    requires from in st.files
  {
    st.(files := (st.files - {from})[to := st.files[from]])
  }

  function FreshKey(st: Stores, area: Area): Key {
    Key(area, st.next)
  }

  // Promote and Quarantine: rename a file to a fresh key of another directory.
  function MoveToFresh(st: Stores, from: Key, area: Area): Stores
    requires from in st.files
  {
    Move(st, from, FreshKey(st, area)).(next := st.next + 1)
  }

  // Remove and Discard: a missing file is not an error.
  function Unlink(st: Stores, key: Key): Stores {
    st.(files := st.files - {key})
  }

  // ---- Bookmark store (adapters/postgres/bookmark_create.go, bookmark_maintain.go) ----

  function InsertRow(st: Stores, url: string, shot: Option<Shot>): Stores {
    st.(rows := st.rows[st.next := Row(url, shot)], next := st.next + 1)
  }

  function UpdateRow(st: Stores, b: nat, url: string, replace: bool, shot: Option<Shot>): Stores
    requires b in st.rows
  {
    st.(rows := st.rows[b := Row(url, if replace then shot else st.rows[b].shot)])
  }

  // Deleting a bookmark takes its screenshot row along and unbinds its drafts.
  function DropRow(st: Stores, b: nat): Stores {
    st.(rows := st.rows - {b},
    drafts := map d | d in st.drafts ::
      if st.drafts[d].bookmark == Some(b) then st.drafts[d].(bookmark := None) else st.drafts[d])
  }

  function Enqueue(st: Stores, key: Key, at: nat): Stores {
    st.(cleanups := st.cleanups + [NewRecord(key, at)])
  }

  predicate RowHas(st: Stores, b: nat, key: Key) {
    b in st.rows && st.rows[b].shot.Some? && st.rows[b].shot.value.key == key
  }

  // ---- Draft store (adapters/postgres/capture_draft_store.go) ----

  // UpdateDraft is unconditional, and writes only these four columns.
  function PutDraft(st: Stores, d: nat, draft: Draft): Stores
    requires d in st.drafts
  {
    st.(drafts := st.drafts[d := st.drafts[d].(state := draft.state, staged := draft.staged,
                                               final := draft.final, failure := draft.failure)])
  }

  function TryPutDraft(st: Stores, d: nat, draft: Draft, fail: bool): Stores {
    if fail || d !in st.drafts then st else PutDraft(st, d, draft)
  }

  // ---- Operations and their processes ----

  // url is None when ValidateBookmarkURL rejects the input.
  datatype SaveInput = SaveInput(session: nat, url: Option<string>, described: bool,
                                 capture: Option<nat>, without: bool)

  datatype Op =
    | Create(input: SaveInput)
    | Update(bookmark: nat, input: SaveInput)
    | Delete(bookmark: nat, confirm: bool)
    | Cleanup(limit: nat, maximum: int)
    | StartCapture(session: nat, url: Option<string>, bound: Option<nat>, lifetime: nat)
    | RetryCapture(session: nat, draft: nat)
    | DiscardCapture(session: nat, draft: nat)

  // A quarantined file and the key it came from.
  datatype Parking = Parking(q: Key, home: Key)

  datatype Consumption = Consumption(id: nat, draft: Draft)

  // Each constructor names the port call the process makes next.
  datatype Proc =
    | Done(ok: bool)
    | CreateFind(input: SaveInput, url: string, id: nat)
    | CreatePromote(url: string, use: Consumption)
    | CreateConsume(url: string, use: Consumption, key: Key)
    | CreateWrite(url: string, shot: Option<Shot>)
    | CreateUndo(key: Key)
    | UpdateFind(b: nat, input: SaveInput)
    | UpdateFindDraft(b: nat, session: nat, url: string, prior: Option<Key>, id: nat)
    | UpdatePromote(b: nat, url: string, prior: Option<Key>, use: Consumption)
    | UpdateWrite(b: nat, url: string, prior: Option<Key>, replace: bool,
                  shot: Option<Shot>, consume: Option<Consumption>)
    | UpdateUndo(key: Key)
    | UpdateConsume(use: Consumption, prior: Option<Key>, at: nat)
    | UpdateRetire(key: Key, at: nat)
    | UpdateQueue(key: Key, at: nat)
    | DeleteFind(b: nat)
    | DeleteQuarantine(b: nat, key: Key)
    | DeleteWrite(b: nat, parked: Option<Parking>)
    | DeleteRestore(b: nat, parking: Parking)
    | DeleteUnlink(key: Key)
    | DeleteQueue(key: Key)
    | Cleaning(worker: Worker, maximum: int)
    | CaptureCreate(session: nat, url: string, bound: Option<nat>, lifetime: nat)
    | CaptureShoot(use: Consumption)
    | CaptureValidate(use: Consumption, key: Key, final: string)
    | CaptureWrite(use: Consumption)
    | RetryFind(session: nat, id: nat)
    | RetryWrite(use: Consumption)
    | DiscardFind(session: nat, id: nat)
    | DiscardFile(use: Consumption, key: Key)
    | DiscardWrite(use: Consumption)

  // What the environment decides about one port call: whether it fails without
  // effect, which due records a claim returns, which address a capture reached.
  datatype Choice = Choice(fail: bool, pick: seq<nat>, final: string)

  function Begin(op: Op): Proc {
    match op
    case Create(input) =>
      if input.url.None? || !input.described then Done(false)
      else if input.capture.Some? then CreateFind(input, input.url.value, input.capture.value)
      else if input.without then CreateWrite(input.url.value, None)
      else Done(false)
    case Update(b, input) => UpdateFind(b, input)
    case Delete(b, confirm) => if confirm then DeleteFind(b) else Done(false)
    case Cleanup(limit, maximum) => Cleaning(Claiming(limit), maximum)
    case StartCapture(session, url, bound, lifetime) =>
      if url.None? then Done(false) else CaptureCreate(session, url.value, bound, lifetime)
    case RetryCapture(session, id) => RetryFind(session, id)
    case DiscardCapture(session, id) => DiscardFind(session, id)
  }

  function ShotKey(row: Row): Option<Key> {
    match row.shot
    case None => None
    case Some(shot) => Some(shot.key)
  }

  function Retiring(prior: Option<Key>, at: nat): Proc {
    match prior
    case None => Done(true)
    case Some(key) => UpdateRetire(key, at)
  }

  predicate IsCreate(p: Proc) {
    p.CreateFind? || p.CreatePromote? || p.CreateConsume? || p.CreateWrite? || p.CreateUndo?
  }

  predicate IsUpdate(p: Proc) {
    || p.UpdateFind? || p.UpdateFindDraft? || p.UpdatePromote? || p.UpdateWrite?
    || p.UpdateUndo? || p.UpdateConsume? || p.UpdateRetire? || p.UpdateQueue?
  }

  predicate IsDelete(p: Proc) {
    p.DeleteFind? || p.DeleteQuarantine? || p.DeleteWrite? || p.DeleteRestore? || p.DeleteUnlink? || p.DeleteQueue?
  }

  predicate IsCapture(p: Proc) {
    || p.CaptureCreate? || p.CaptureShoot? || p.CaptureValidate? || p.CaptureWrite?
    || p.RetryFind? || p.RetryWrite? || p.DiscardFind? || p.DiscardFile? || p.DiscardWrite?
  }

  // Creator.Create and resolveScreenshot (bookmarker/usecase/create.go).
  function CreateStep(st: Stores, p: Proc, c: Choice): (Stores, Proc)
    requires IsCreate(p)
  {
    match p
    case CreateFind(input, url, id) => (st, AfterCreateFind(st, input, url, id, c.fail))
    case CreatePromote(url, use) =>
      if c.fail || use.draft.staged.None? || use.draft.staged.value !in st.files then (st, Done(false))
      else (MoveToFresh(st, use.draft.staged.value, Promoted), CreateConsume(url, use, FreshKey(st, Promoted)))
    case CreateConsume(url, use, key) =>
      (TryPutDraft(st, use.id, use.draft.(state := Consumed), c.fail),
          CreateWrite(url, Some(Shot(key, use.draft.final))))
    case CreateWrite(url, shot) =>
      if !c.fail then (InsertRow(st, url, shot), Done(true))
      else (st, if shot.None? then Done(false) else CreateUndo(shot.value.key))
    case CreateUndo(key) => (if c.fail then st else Unlink(st, key), Done(false))
  }

  // Maintainer.Update (bookmarker/usecase/update.go).
  function UpdateStep(st: Stores, p: Proc, c: Choice): (Stores, Proc)
    requires IsUpdate(p)
  {
    match p
    case UpdateFind(b, input) => (st, AfterUpdateFind(st, b, input, c.fail))
    case UpdateFindDraft(b, session, url, prior, id) =>
      (st, AfterUpdateFindDraft(st, b, session, url, prior, id, c.fail))
    case UpdatePromote(b, url, prior, use) =>
      if c.fail || use.draft.staged.None? || use.draft.staged.value !in st.files then (st, Done(false))
      else (MoveToFresh(st, use.draft.staged.value, Promoted),
            UpdateWrite(b, url, prior, true, Some(Shot(FreshKey(st, Promoted), use.draft.final)), Some(use)))
    case UpdateWrite(b, url, prior, replace, shot, consume) =>
      if c.fail || b !in st.rows then (st, if replace && shot.Some? then UpdateUndo(shot.value.key) else Done(false))
      else
        var retire := if replace then prior else None;
        (UpdateRow(st, b, url, replace, shot),
         if consume.Some? then UpdateConsume(consume.value, retire, st.now) else Retiring(retire, st.now))
    case UpdateUndo(key) => (if c.fail then st else Unlink(st, key), Done(false))
    case UpdateConsume(use, prior, at) =>
      (TryPutDraft(st, use.id, use.draft.(state := Consumed), c.fail), Retiring(prior, at))
    case UpdateRetire(key, at) => if c.fail then (st, UpdateQueue(key, at)) else (Unlink(st, key), Done(true))
    case UpdateQueue(key, at) => (if c.fail then st else Enqueue(st, key, at), Done(true))
  }

  // Maintainer.Delete (bookmarker/usecase/delete.go).
  function DeleteStep(st: Stores, p: Proc, c: Choice): (Stores, Proc)
    requires IsDelete(p)
  {
    match p
    case DeleteFind(b) =>
      (st, if c.fail || b !in st.rows then Done(false)
      else if st.rows[b].shot.None? then DeleteWrite(b, None)
      else DeleteQuarantine(b, st.rows[b].shot.value.key))
    case DeleteQuarantine(b, key) =>
      if c.fail || key !in st.files then (st, Done(false))
      else (MoveToFresh(st, key, Quarantine), DeleteWrite(b, Some(Parking(FreshKey(st, Quarantine), key))))
    case DeleteWrite(b, parked) =>
      if c.fail || b !in st.rows then (st, if parked.None? then Done(false) else DeleteRestore(b, parked.value))
      else (DropRow(st, b), if parked.None? then Done(true) else DeleteUnlink(parked.value.q))
    case DeleteRestore(b, parking) =>
      (if c.fail || parking.q !in st.files then st else Move(st, parking.q, parking.home), Done(false))
    case DeleteUnlink(key) => if c.fail then (st, DeleteQueue(key)) else (Unlink(st, key), Done(true))
    case DeleteQueue(key) => (if c.fail then st else Enqueue(st, key, st.now), Done(true))
  }

  // CaptureService (bookmarker/usecase/capture.go).
  function CaptureStep(st: Stores, p: Proc, c: Choice): (Stores, Proc)
    requires IsCapture(p)
  {
    match p
    case CaptureCreate(session, url, bound, lifetime) =>
      if c.fail then (st, Done(false))
      else
        var draft := Draft(session, bound, url, Capturing, None, "", NoFailure, st.now + lifetime);
        (st.(drafts := st.drafts[st.next := draft], next := st.next + 1), CaptureShoot(Consumption(st.next, draft)))
    case CaptureShoot(use) =>
      if c.fail then (st, CaptureWrite(use.(draft := use.draft.(state := Failed, failure := CaptureFailed))))
      else
        var key := FreshKey(st, Staging);
        (st.(files := st.files[key := Image(use.draft.target, c.final)], next := st.next + 1),
            CaptureValidate(use, key, c.final))
    case CaptureValidate(use, key, final) =>
      (st, CaptureWrite(use.(draft := if c.fail || key !in st.files
                             then use.draft.(state := Failed, failure := InvalidOutput)
                             else use.draft.(state := Ready, staged := Some(key), final := final))))
    case CaptureWrite(use) => (TryPutDraft(st, use.id, use.draft, c.fail), Done(true))
    case RetryFind(session, id) =>
      (st, if c.fail || id !in st.drafts || st.drafts[id].owner != session then Done(false)
      else if st.drafts[id].state != Failed || IsExpired(st.drafts[id], st.now) then Done(false)
      else RetryWrite(Consumption(id, st.drafts[id].(state := Capturing, failure := NoFailure))))
    case RetryWrite(use) =>
      if c.fail || use.id !in st.drafts then (st, Done(false)) else (PutDraft(st, use.id, use.draft), CaptureShoot(use))
    case DiscardFind(session, id) =>
      (st, if c.fail || id !in st.drafts || st.drafts[id].owner != session then Done(false)
      else if !CanDiscard(st.drafts[id]) then Done(false)
      else if st.drafts[id].staged.Some? then DiscardFile(Consumption(id, st.drafts[id]), st.drafts[id].staged.value)
      else DiscardWrite(Consumption(id, st.drafts[id])))
    case DiscardFile(use, key) => (if c.fail then st else Unlink(st, key), DiscardWrite(use))
    case DiscardWrite(use) =>
      if c.fail || use.id !in st.drafts then (st, Done(false))
      else (PutDraft(st, use.id, use.draft.(state := Discarded)), Done(true))
  }

  // One port call: the new stores and where the process stops next.
  function Step(st: Stores, p: Proc, c: Choice): (Stores, Proc) {
    if IsCreate(p) then CreateStep(st, p, c)
    else if IsUpdate(p) then UpdateStep(st, p, c)
    else if IsDelete(p) then DeleteStep(st, p, c)
    else if IsCapture(p) then CaptureStep(st, p, c)
    else if p.Cleaning? then CleaningStep(st, p.worker, p.maximum, c)
    else (st, p)
  }

  // Creator.resolveScreenshot up to the promotion.
  function AfterCreateFind(st: Stores, input: SaveInput, url: string, id: nat, fail: bool): Proc {
    if fail || id !in st.drafts || !UsableBy(st.drafts[id], input.session, url, st.now) then Done(false)
    else if st.drafts[id].state == Ready then CreatePromote(url, Consumption(id, st.drafts[id]))
    else if input.without then CreateWrite(url, None)
    else Done(false)
  }

  // Maintainer.Update between loading the bookmark and its next port call.
  function AfterUpdateFind(st: Stores, b: nat, input: SaveInput, fail: bool): Proc {
    if fail || b !in st.rows || input.url.None? || !input.described then Done(false)
    else
      var url := input.url.value;
      var prior := ShotKey(st.rows[b]);
      if input.capture.Some? then UpdateFindDraft(b, input.session, url, prior, input.capture.value)
      else if url == st.rows[b].url then UpdateWrite(b, url, prior, false, None, None)
      else if input.without then UpdateWrite(b, url, prior, true, None, None)
      else Done(false)
  }

  function AfterUpdateFindDraft(st: Stores, b: nat, session: nat, url: string,
                                prior: Option<Key>, id: nat, fail: bool): Proc {
    if fail || id !in st.drafts || !UsableBy(st.drafts[id], session, url, st.now) then Done(false)
    else if st.drafts[id].bookmark != Some(b) || st.drafts[id].state != Ready then Done(false)
    else UpdatePromote(b, url, prior, Consumption(id, st.drafts[id]))
  }

  function Cleaned(r: (seq<Record>, Worker), st: Stores, maximum: int): (Stores, Proc) {
    (st.(cleanups := r.0), if r.1.Finished? then Done(r.1.ok) else Cleaning(r.1, maximum))
  }

  function CleaningStep(st: Stores, worker: Worker, maximum: int, c: Choice): (Stores, Proc) {
    match worker
    case Claiming(limit) => Cleaned(ClaimStep(st.cleanups, limit, c.pick, st.now, c.fail), st, maximum)
    case Removing(batch, at) =>
      if |batch| == 0 then (st, Done(true))
      else (if c.fail then st else Unlink(st, batch[0].record.key),
            Cleaning(RemoveStep(batch, at, !c.fail, maximum), maximum))
    case Completing(done, rest, at) => Cleaned(CompleteStep(st.cleanups, done, rest, at, c.fail), st, maximum)
    case Finished(ok) => (st, Done(ok))
  }

  // ---- Bookkeeping for the claims: which file a step may leave to nobody ----

  datatype Cause = UndoFailed | RestoreFailed | QueueFailed | LostSwap | LostDelete | LateRestore

  predicate IsFault(cause: Cause) {
    cause == UndoFailed || cause == RestoreFailed || cause == QueueFailed
  }

  // The key a step stops taking care of, with the reason. The first three reasons
  // are second failures, the last three are races with another operation.
  function Left(st: Stores, p: Proc, c: Choice): map<Key, Cause> {
    match p
    case CreateUndo(key) => if c.fail then map[key := UndoFailed] else map[]
    case UpdateUndo(key) => if c.fail then map[key := UndoFailed] else map[]
    case UpdateQueue(key, _) => if c.fail then map[key := QueueFailed] else map[]
    case DeleteQueue(key) => if c.fail then map[key := QueueFailed] else map[]
    case DeleteRestore(b, parking) =>
      if c.fail || parking.q !in st.files then map[parking.q := RestoreFailed]
      else if RowHas(st, b, parking.home) then map[]
      else map[parking.home := LateRestore]
    case UpdateWrite(b, _, prior, replace, _, _) =>
      if c.fail || b !in st.rows || !replace || ShotKey(st.rows[b]).None? || ShotKey(st.rows[b]) == prior then map[]
      else map[ShotKey(st.rows[b]).value := LostSwap]
    case DeleteWrite(b, parked) =>
      if c.fail || b !in st.rows || ShotKey(st.rows[b]).None? then map[]
      else if parked.Some? && ShotKey(st.rows[b]) == Some(parked.value.home) then map[]
      else map[ShotKey(st.rows[b]).value := LostDelete]
    case _ => map[]
  }

  // The key of a row whose file a failed Restore leaves in quarantine.
  function Strands(st: Stores, p: Proc, c: Choice): set<Key> {
    match p
    case DeleteRestore(_, parking) => if c.fail || parking.q !in st.files then {parking.home} else {}
    case _ => {}
  }

  // A bound on the port calls a process can still make.
  function Calls(p: Proc): nat {
    match p
    case Done(_) => 0
    case CreateFind(_, _, _) => 5
    case CreatePromote(_, _) => 4
    case CreateConsume(_, _, _) => 3
    case CreateWrite(_, _) => 2
    case CreateUndo(_) => 1
    case UpdateFind(_, _) => 8
    case UpdateFindDraft(_, _, _, _, _) => 7
    case UpdatePromote(_, _, _, _) => 6
    case UpdateWrite(_, _, _, _, _, _) => 5
    case UpdateUndo(_) => 1
    case UpdateConsume(_, _, _) => 3
    case UpdateRetire(_, _) => 2
    case UpdateQueue(_, _) => 1
    case DeleteFind(_) => 5
    case DeleteQuarantine(_, _) => 4
    case DeleteWrite(_, _) => 3
    case DeleteRestore(_, _) => 1
    case DeleteUnlink(_) => 2
    case DeleteQueue(_) => 1
    case Cleaning(worker, _) => WorkerCalls(worker)
    case CaptureCreate(_, _, _, _) => 4
    case CaptureShoot(_) => 3
    case CaptureValidate(_, _, _) => 2
    case CaptureWrite(_) => 1
    case RetryFind(_, _) => 5
    case RetryWrite(_) => 4
    case DiscardFind(_, _) => 3
    case DiscardFile(_, _) => 2
    case DiscardWrite(_) => 1
  }

  function WorkerCalls(worker: Worker): nat {
    match worker
    case Claiming(limit) => 2 * limit + 2
    case Removing(batch, _) => 2 * |batch| + 1
    case Completing(_, rest, _) => 2 * |rest| + 2
    case Finished(_) => 1
  }

  // Every operation finishes: each port call uses up part of the bound.
  lemma StepsAreFew(st: Stores, p: Proc, c: Choice)
    requires !p.Done?
    ensures Calls(Step(st, p, c).1) < Calls(p)
  {
  }
}
