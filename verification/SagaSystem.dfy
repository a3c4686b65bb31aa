// Any number of operations interleaved at port calls, every call free to fail.
module SagaSystem {
  import opened Prelude
  import opened CleanupQueue
  import opened ScreenshotModel

  // procs holds every operation ever started; left and stranded record history.
  datatype Sys = Sys(st: Stores, procs: seq<Proc>, left: map<Key, Cause>, stranded: set<Key>)

  datatype Action =
    | Spawn(op: Op)
    | Advance(pid: nat, choice: Choice)
    | Tick(elapsed: nat)
    | ExpireDrafts(due: set<nat>)  // one batch of the retention statement
    | DropDrafts(gone: set<nat>)   // drafts go with their deleted session

  function ExpireSome(st: Stores, due: set<nat>): Stores {
    st.(drafts := map d | d in st.drafts ::
      if d in due && st.drafts[d].expires <= st.now && !IsTerminal(st.drafts[d])
      then st.drafts[d].(state := Expired) else st.drafts[d])
  }

  function Next(s: Sys, a: Action): Sys {
    match a
    case Spawn(op) => s.(procs := s.procs + [Begin(op)])
    case Advance(pid, c) =>
      if pid >= |s.procs| then s
      else
        var (st, p) := Step(s.st, s.procs[pid], c);
        Sys(st, s.procs[pid := p], s.left + Left(s.st, s.procs[pid], c), s.stranded + Strands(s.st, s.procs[pid], c))
    case Tick(elapsed) => s.(st := s.st.(now := s.st.now + elapsed))
    case ExpireDrafts(due) => s.(st := ExpireSome(s.st, due))
    case DropDrafts(gone) => s.(st := s.st.(drafts := s.st.drafts - gone))
  }

  function Run(s: Sys, actions: seq<Action>): Sys
    decreases |actions|
  {
    if |actions| == 0 then s else Next(Run(s, actions[..|actions| - 1]), actions[|actions| - 1])
  }

  const START := Sys(EMPTY, [], map[], {})

  // ---- What a stopped process knows about keys ----

  datatype Knowledge = Knowledge(
    minted: Option<Shot>,              // promoted, not yet in a committed row
    undoing: Option<Key>,              // promoted, its row was refused
    doomed: Option<Key>,               // replaced by this update, still to be removed
    window: Option<(nat, Parking)>,    // quarantined, the bookmark row not yet deleted
    unlinking: Option<Key>,            // quarantined, the bookmark row deleted
    recalled: Option<(nat, Key)>,      // read from a bookmark's row some time ago
    use: Option<Consumption>,          // a private copy of a draft
    staged: Option<(Key, string)>,     // a file just captured
    discarding: Option<Key>,           // a staged file about to be discarded
    claims: seq<Claim>)                // cleanup records in this worker's hands

  const NOTHING := Knowledge(None, None, None, None, None, None, None, None, None, [])

  function Recall(b: nat, prior: Option<Key>): Option<(nat, Key)> {
    match prior
    case None => None
    case Some(key) => Some((b, key))
  }

  function KnowCreate(p: Proc): Knowledge
    requires IsCreate(p)
  {
    match p
    case CreatePromote(_, use) => NOTHING.(use := Some(use))
    case CreateConsume(_, use, key) => NOTHING.(minted := Some(Shot(key, use.draft.final)), use := Some(use))
    case CreateWrite(_, shot) => NOTHING.(minted := shot)
    case CreateUndo(key) => NOTHING.(undoing := Some(key))
    case _ => NOTHING
  }

  function KnowUpdate(p: Proc): Knowledge
    requires IsUpdate(p)
  {
    match p
    case UpdateFindDraft(b, _, _, prior, _) => NOTHING.(recalled := Recall(b, prior))
    case UpdatePromote(b, _, prior, use) => NOTHING.(recalled := Recall(b, prior), use := Some(use))
    case UpdateWrite(b, _, prior, replace, shot, consume) =>
      NOTHING.(minted := if replace then shot else None, recalled := Recall(b, prior), use := consume)
    case UpdateUndo(key) => NOTHING.(undoing := Some(key))
    case UpdateConsume(use, prior, _) => NOTHING.(doomed := prior, use := Some(use))
    case UpdateRetire(key, _) => NOTHING.(doomed := Some(key))
    case UpdateQueue(key, _) => NOTHING.(doomed := Some(key))
    case _ => NOTHING
  }

  function KnowDelete(p: Proc): Knowledge
    requires IsDelete(p)
  {
    match p
    case DeleteQuarantine(b, key) => NOTHING.(recalled := Some((b, key)))
    case DeleteWrite(b, parked) => NOTHING.(window := if parked.Some? then Some((b, parked.value)) else None)
    case DeleteRestore(b, parking) => NOTHING.(window := Some((b, parking)))
    case DeleteUnlink(key) => NOTHING.(unlinking := Some(key))
    case DeleteQueue(key) => NOTHING.(unlinking := Some(key))
    case _ => NOTHING
  }

  function KnowCapture(p: Proc): Knowledge
    requires IsCapture(p)
  {
    match p
    case CaptureShoot(use) => NOTHING.(use := Some(use))
    case CaptureValidate(use, key, final) => NOTHING.(use := Some(use), staged := Some((key, final)))
    case CaptureWrite(use) => NOTHING.(use := Some(use))
    case RetryWrite(use) => NOTHING.(use := Some(use))
    case DiscardFile(use, key) => NOTHING.(use := Some(use), discarding := Some(key))
    case DiscardWrite(use) => NOTHING.(use := Some(use))
    case _ => NOTHING
  }

  function Know(p: Proc): Knowledge {
    if IsCreate(p) then KnowCreate(p)
    else if IsUpdate(p) then KnowUpdate(p)
    else if IsDelete(p) then KnowDelete(p)
    else if IsCapture(p) then KnowCapture(p)
    else if p.Cleaning? then NOTHING.(claims := InHand(p.worker))
    else NOTHING
  }

  datatype View = View(st: Stores, ks: seq<Knowledge>, left: map<Key, Cause>, stranded: set<Key>)

  function ViewOf(s: Sys): View {
    View(s.st, seq(|s.procs|, i requires 0 <= i < |s.procs| => Know(s.procs[i])), s.left, s.stranded)
  }
}
