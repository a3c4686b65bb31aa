// Which operation answers for which screenshot file, and the effects of port calls on that.
module SagaLedger {
  import opened Prelude
  import opened CleanupQueue
  import opened ScreenshotModel
  import opened SagaSystem

  // ---- The ledger: who answers for each promoted or quarantined key ----

  datatype Place = Home | Away(pid: nat, q: Key) | Stranded

  datatype Keeper = Process(pid: nat) | Queue(id: nat) | Nobody

  datatype Role = New(pid: nat) | Live(b: nat, place: Place) | Parked(pid: nat) | Dead(keeper: Keeper)

  type Ledger = map<Key, Role>

  ghost predicate DraftOk(st: Stores, draft: Draft) {
    draft.staged.Some? ==>
      && draft.staged.value.area == Staging
      && draft.staged.value.id < st.next
      && (draft.staged.value in st.files ==> st.files[draft.staged.value] == Image(draft.target, draft.final))
  }

  ghost predicate LiveIn(l: Ledger, b: nat, k: Key) {
    k in l && l[k].Live? && l[k].b == b
  }

  ghost predicate DeadIn(l: Ledger, k: Key) {
    k in l && l[k].Dead?
  }

  ghost predicate StrandedIn(l: Ledger, k: Key) {
    k in l && (l[k].Dead? || (l[k].Live? && l[k].place.Stranded?))
  }

  // What the ledger's entry for k says about the process it names.
  ghost predicate Answers(kn: Knowledge, pid: nat, k: Key, role: Role) {
    match role
    case New(q) => q == pid ==> (kn.minted.Some? && kn.minted.value.key == k) || kn.undoing == Some(k)
    case Live(b, place) => place.Away? && place.pid == pid ==> kn.window == Some((b, Parking(place.q, k)))
    case Parked(q) => q == pid ==> (kn.window.Some? && kn.window.value.1.q == k) || kn.unlinking == Some(k)
    case Dead(keeper) => keeper == Process(pid) ==> kn.doomed == Some(k)
  }

  // What it says about the stores.
  ghost predicate Placed(v: View, l: Ledger, k: Key)
    requires k in l
  {
    match l[k]
    case New(pid) => k.area == Promoted && k in v.st.files && pid < |v.ks|
    case Live(b, place) =>
      && k.area == Promoted && RowHas(v.st, b, k)
      && (match place
          case Home => k in v.st.files && v.st.files[k].final == v.st.rows[b].shot.value.captured
          case Away(pid, q) =>
            && k !in v.st.files && pid < |v.ks|
            && q in l && l[q] == Parked(pid)
            && q in v.st.files && v.st.files[q].final == v.st.rows[b].shot.value.captured
          case Stranded => k !in v.st.files && k in v.stranded)
    case Parked(pid) => k.area == Quarantine && k in v.st.files && pid < |v.ks|
    case Dead(keeper) =>
      match keeper
      case Process(pid) => pid < |v.ks|
      case Queue(id) => id < |v.st.cleanups| && v.st.cleanups[id].key == k
      case Nobody => k in v.st.files ==> k in v.left
  }

  // What a process relies on.
  ghost predicate Relies(st: Stores, l: Ledger, pid: nat, kn: Knowledge) {
    && (kn.minted.Some? ==>
          var shot := kn.minted.value;
          shot.key in l && l[shot.key] == New(pid) && shot.key in st.files && st.files[shot.key].final == shot.captured)
    && (kn.undoing.Some? ==> kn.undoing.value in l && l[kn.undoing.value] == New(pid))
    && (kn.doomed.Some? ==> DeadIn(l, kn.doomed.value))
    && (kn.unlinking.Some? ==> kn.unlinking.value in l && l[kn.unlinking.value] == Parked(pid))
    && (kn.window.Some? ==>
          var (b, parking) := kn.window.value;
          && parking.q in l && l[parking.q] == Parked(pid)
          && parking.home in l && (l[parking.home] == Live(b, Away(pid, parking.q)) || l[parking.home].Dead?))
    && (kn.recalled.Some? ==>
          var (b, k) := kn.recalled.value;
          LiveIn(l, b, k) || DeadIn(l, k))
    && (kn.use.Some? ==>
          var use := kn.use.value;
          && DraftOk(st, use.draft) && use.id < st.next
          && (use.id in st.drafts ==> st.drafts[use.id].target == use.draft.target))
    && (kn.staged.Some? ==>
          var (key, final) := kn.staged.value;
          && kn.use.Some? && key.area == Staging && key.id < st.next
          && (key in st.files ==> st.files[key] == Image(kn.use.value.draft.target, final)))
    && (kn.discarding.Some? ==> kn.discarding.value.area == Staging && kn.discarding.value.id < st.next)
    && Copies(st.cleanups, kn.claims)
  }

  ghost predicate RowOk(st: Stores, l: Ledger, b: nat)
    requires b in st.rows
  {
    b < st.next && (st.rows[b].shot.Some? ==> LiveIn(l, b, st.rows[b].shot.value.key))
  }

  ghost predicate StoresOk(v: View, l: Ledger) {
    && (forall k :: k in v.st.files ==> k.id < v.st.next && (k.area == Staging || k in l))
    && (forall k :: k in l ==> k.id < v.st.next && k.area != Staging)
    && (forall b :: b in v.st.rows ==> RowOk(v.st, l, b))
    && (forall i :: 0 <= i < |v.st.cleanups| ==> DeadIn(l, v.st.cleanups[i].key))
    && (forall d :: d in v.st.drafts ==> d < v.st.next && DraftOk(v.st, v.st.drafts[d]))
    && (forall k :: k in v.left ==> DeadIn(l, k))
    && (forall k :: k in v.stranded ==> StrandedIn(l, k))
  }

  ghost predicate Inv(v: View, l: Ledger) {
    && StoresOk(v, l)
    && (forall k :: k in l ==> Placed(v, l, k))
    && (forall k, pid :: k in l && 0 <= pid < |v.ks| ==> Answers(v.ks[pid], pid, k, l[k]))
    && (forall pid :: 0 <= pid < |v.ks| ==> Relies(v.st, l, pid, v.ks[pid]))
  }

  // ---- Frame: a step of one process that touches only the keys in `touched` ----

  ghost predicate SameOutside(v: View, l: Ledger, w: View, m: Ledger, touched: set<Key>) {
    && (forall k :: k !in touched ==> (k in v.st.files <==> k in w.st.files))
    && (forall k :: k !in touched && k in w.st.files ==> w.st.files[k] == v.st.files[k])
    && (forall k :: k !in touched ==> (k in l <==> k in m))
    && (forall k :: k !in touched && k in m ==> m[k] == l[k])
    && (forall k, b :: k !in touched && RowHas(v.st, b, k) ==>
         RowHas(w.st, b, k) && w.st.rows[b].shot == v.st.rows[b].shot)
  }

  // A touched key keeps faith with every other process.
  ghost predicate FairChange(v: View, l: Ledger, w: View, m: Ledger, pid: nat, k: Key)
    requires pid < |w.ks|
  {
    && k.id < w.st.next
    && (k in w.st.files ==> if k.area == Staging then k.id >= v.st.next else k in m)
    && (k in m ==> k.area != Staging && Placed(w, m, k) && Answers(w.ks[pid], pid, k, m[k]))
    && (k in m && (k !in l || m[k] != l[k]) ==> Mentions(m[k], pid))
    && (k in l ==> k in m)
    && (k in l && l[k].New? ==> l[k].pid == pid)
    && (k in l && l[k].Parked? ==> l[k].pid == pid)
    && (k in l && l[k].Dead? ==> m[k].Dead?)
    && (k in l && l[k].Live? ==> m[k].Dead? || (m[k].Live? && m[k].b == l[k].b))
    && (k in l && l[k].Live? && l[k].place.Away? && l[k].place.pid != pid ==> m[k] == l[k] || m[k].Dead?)
    && (StrandedIn(l, k) ==> StrandedIn(m, k))
    && (forall b :: RowHas(w.st, b, k) ==> LiveIn(m, b, k))
  }

  // A new role names no process but pid.
  ghost predicate Mentions(role: Role, pid: nat) {
    match role
    case New(q) => q == pid
    case Live(_, place) => place.Away? ==> place.pid == pid
    case Parked(q) => q == pid
    case Dead(keeper) => keeper.Process? ==> keeper.pid == pid
  }

  ghost predicate Outside(v: View, l: Ledger, w: View, m: Ledger, pid: nat, touched: set<Key>) {
    && pid < |w.ks|
    && SameOutside(v, l, w, m, touched)
    && (forall k :: k in l && k !in touched ==>
          && Answers(w.ks[pid], pid, k, l[k])
          && !(l[k].Live? && l[k].place.Away? && l[k].place.pid == pid && l[k].place.q in touched))
  }

  ghost predicate RestEvolves(v: View, l: Ledger, w: View, m: Ledger, pid: nat) {
    && pid < |v.ks| == |w.ks|
    && w.ks == v.ks[pid := w.ks[pid]]
    && v.st.next <= w.st.next
    && (forall k :: k in v.left ==> k in w.left)
    && (forall k :: k in w.left && k !in v.left ==> DeadIn(m, k))
    && v.stranded <= w.stranded
    && (forall k :: k in w.stranded && k !in v.stranded ==> StrandedIn(m, k))
    && Relies(w.st, m, pid, w.ks[pid])
    && (forall b :: b in w.st.rows ==> (b in v.st.rows && w.st.rows[b].shot == v.st.rows[b].shot) || RowOk(w.st, m, b))
    && |v.st.cleanups| <= |w.st.cleanups|
    && (forall i :: 0 <= i < |v.st.cleanups| ==> w.st.cleanups[i].key == v.st.cleanups[i].key)
    && (forall i :: |v.st.cleanups| <= i < |w.st.cleanups| ==> DeadIn(m, w.st.cleanups[i].key))
    && (forall d :: d in w.st.drafts && d < v.st.next ==>
         d in v.st.drafts && w.st.drafts[d].target == v.st.drafts[d].target)
    && (forall d :: d in w.st.drafts ==>
         d < w.st.next && (DraftOk(v.st, w.st.drafts[d]) || DraftOk(w.st, w.st.drafts[d])))
  }

  ghost predicate Evolves(v: View, l: Ledger, w: View, m: Ledger, pid: nat, touched: set<Key>) {
    && RestEvolves(v, l, w, m, pid)
    && Outside(v, l, w, m, pid, touched)
    && (forall k :: k in touched ==> FairChange(v, l, w, m, pid, k))
  }

  lemma OtherRelies(v: View, l: Ledger, w: View, m: Ledger, pid: nat, touched: set<Key>, q: nat)
    requires StoresOk(v, l) && Evolves(v, l, w, m, pid, touched)
    requires q != pid && q < |w.ks|
    requires Relies(v.st, l, q, v.ks[q])
    ensures Relies(w.st, m, q, w.ks[q])
  {
  }

  lemma UntouchedPlaced(v: View, l: Ledger, w: View, m: Ledger, pid: nat, touched: set<Key>, k: Key)
    requires Evolves(v, l, w, m, pid, touched)
    requires k in m && k !in touched && Placed(v, l, k)
    ensures Placed(w, m, k)
  {
  }

  lemma StoresAgree(v: View, l: Ledger, w: View, m: Ledger, pid: nat, touched: set<Key>)
    requires StoresOk(v, l) && Evolves(v, l, w, m, pid, touched)
    ensures StoresOk(w, m)
  {
    forall k | k in w.st.files ensures k.id < w.st.next && (k.area == Staging || k in m) {
      if k in touched { assert FairChange(v, l, w, m, pid, k); }
    }
    forall b | b in w.st.rows ensures RowOk(w.st, m, b) {
      if b in v.st.rows && w.st.rows[b].shot == v.st.rows[b].shot && w.st.rows[b].shot.Some? {
        var k := w.st.rows[b].shot.value.key;
        assert RowOk(v.st, l, b) && RowHas(w.st, b, k);
        if k in touched { assert FairChange(v, l, w, m, pid, k); }
      }
    }
    forall i | 0 <= i < |w.st.cleanups| ensures DeadIn(m, w.st.cleanups[i].key) {
      if i < |v.st.cleanups| && v.st.cleanups[i].key in touched {
        assert FairChange(v, l, w, m, pid, v.st.cleanups[i].key);
      }
    }
    forall k | k in w.left ensures DeadIn(m, k) {
      if k in v.left && k in touched { assert FairChange(v, l, w, m, pid, k); }
    }
    forall k | k in w.stranded ensures StrandedIn(m, k) {
      if k in v.stranded && k in touched { assert FairChange(v, l, w, m, pid, k); }
    }
  }

  lemma Assemble(v: View, l: Ledger, w: View, m: Ledger, pid: nat, touched: set<Key>)
    requires Inv(v, l) && Evolves(v, l, w, m, pid, touched)
    ensures Inv(w, m)
  {
    StoresAgree(v, l, w, m, pid, touched);
    forall k | k in m ensures Placed(w, m, k) {
      if k in touched {
        assert FairChange(v, l, w, m, pid, k);
      } else {
        assert Placed(v, l, k);
        UntouchedPlaced(v, l, w, m, pid, touched, k);
      }
    }
    forall k, q | k in m && 0 <= q < |w.ks| ensures Answers(w.ks[q], q, k, m[k]) {
      if k in touched { assert FairChange(v, l, w, m, pid, k); }
      if k in l { assert Answers(v.ks[q], q, k, l[k]); }
    }
    forall q | 0 <= q < |w.ks| ensures Relies(w.st, m, q, w.ks[q]) {
      if q != pid {
        assert Relies(v.st, l, q, v.ks[q]);
        OtherRelies(v, l, w, m, pid, touched, q);
      }
    }
  }

  // ---- Each port call keeps the invariant ----

  // The part of the invariant that the step of one process looks at.
  ghost predicate Local(v: View, l: Ledger, pid: nat, touched: set<Key>) {
    && pid < |v.ks|
    && StoresOk(v, l)
    && Relies(v.st, l, pid, v.ks[pid])
    && (forall k :: k in l ==> Answers(v.ks[pid], pid, k, l[k]))
    && (forall k :: k in l && k in touched ==> Placed(v, l, k))
  }

  lemma Localize(v: View, l: Ledger, pid: nat, touched: set<Key>)
    requires Inv(v, l) && pid < |v.ks|
    ensures Local(v, l, pid, touched)
  {
  }

  // ---- The effect of each kind of step ----

  // Nothing happens to files, and no row changes its screenshot.
  ghost predicate Quiet(v: View, l: Ledger, w: View, pid: nat) {
    && pid < |v.ks| == |w.ks|
    && w.ks == v.ks[pid := w.ks[pid]]
    && w.left == v.left && w.stranded == v.stranded
    && w.st.files == v.st.files
    && (forall b :: b in v.st.rows && v.st.rows[b].shot.Some? ==> b in w.st.rows)
    && (forall b :: b in w.st.rows ==>
          b < w.st.next && w.st.rows[b].shot == if b in v.st.rows then v.st.rows[b].shot else None)
    && |w.st.cleanups| == |v.st.cleanups|
    && (forall i :: 0 <= i < |v.st.cleanups| ==> w.st.cleanups[i].key == v.st.cleanups[i].key)
    && v.st.next <= w.st.next
    && (forall d :: d in w.st.drafts && d < v.st.next ==>
         d in v.st.drafts && w.st.drafts[d].target == v.st.drafts[d].target)
    && (forall d :: d in w.st.drafts ==> d < w.st.next && DraftOk(w.st, w.st.drafts[d]))
    && Relies(w.st, l, pid, w.ks[pid])
    && (forall k :: k in l && Answers(v.ks[pid], pid, k, l[k]) ==> Answers(w.ks[pid], pid, k, l[k]))
  }

  lemma QuietEvolves(v: View, l: Ledger, w: View, pid: nat)
    requires Local(v, l, pid, {}) && Quiet(v, l, w, pid)
    ensures Evolves(v, l, w, l, pid, {})
  {
  }

  lemma QuietKeeps(v: View, l: Ledger, w: View, pid: nat)
    requires Inv(v, l) && Quiet(v, l, w, pid)
    ensures Inv(w, l)
  {
    Localize(v, l, pid, {});
    QuietEvolves(v, l, w, pid);
    Assemble(v, l, w, l, pid, {});
  }

  // Removing a staged file, or a file that the ledger has given up.
  ghost predicate Sweeps(v: View, l: Ledger, w: View, pid: nat, key: Key) {
    && pid < |v.ks| == |w.ks|
    && (DeadIn(l, key) || (key.area == Staging && key.id < v.st.next))
    && w == v.(st := Unlink(v.st, key), ks := v.ks[pid := w.ks[pid]])
    && Relies(w.st, l, pid, w.ks[pid])
    && (forall k :: k in l && Answers(v.ks[pid], pid, k, l[k]) ==> Answers(w.ks[pid], pid, k, l[k]))
  }

  lemma SweepEvolves(v: View, l: Ledger, w: View, pid: nat, key: Key)
    requires Local(v, l, pid, {key}) && Sweeps(v, l, w, pid, key)
    ensures Evolves(v, l, w, l, pid, {key})
  {
  }

  lemma SweepKeeps(v: View, l: Ledger, w: View, pid: nat, key: Key)
    requires Inv(v, l) && Sweeps(v, l, w, pid, key)
    ensures Inv(w, l)
  {
    Localize(v, l, pid, {key});
    SweepEvolves(v, l, w, pid, key);
    Assemble(v, l, w, l, pid, {key});
  }

  function Holding(kn: Knowledge, key: Key, final: string): Knowledge {
    if key.area == Promoted then kn.(minted := Some(Shot(key, final))) else kn.(staged := Some((key, final)))
  }

  // A new file under a fresh key.
  ghost predicate Mints(v: View, l: Ledger, w: View, m: Ledger, pid: nat, area: Area, image: Image) {
    var key := FreshKey(v.st, area);
    && pid < |v.ks|
    && area != Quarantine
    && w.st == v.st.(files := v.st.files[key := image], next := v.st.next + 1)
    && w.left == v.left && w.stranded == v.stranded
    && w.ks == v.ks[pid := Holding(v.ks[pid], key, image.final)]
    && m == (if area == Promoted then l[key := New(pid)] else l)
    && v.ks[pid].minted.None?
    && (area == Staging ==> v.ks[pid].use.Some? && v.ks[pid].use.value.draft.target == image.target)
  }

  lemma MintOutside(v: View, l: Ledger, w: View, m: Ledger, pid: nat, area: Area, image: Image)
    requires Local(v, l, pid, {FreshKey(v.st, area)}) && Mints(v, l, w, m, pid, area, image)
    ensures Outside(v, l, w, m, pid, {FreshKey(v.st, area)})
  {
  }

  lemma MintFair(v: View, l: Ledger, w: View, m: Ledger, pid: nat, area: Area, image: Image)
    requires Local(v, l, pid, {FreshKey(v.st, area)}) && Mints(v, l, w, m, pid, area, image)
    ensures FairChange(v, l, w, m, pid, FreshKey(v.st, area))
  {
  }

  lemma MintRest(v: View, l: Ledger, w: View, m: Ledger, pid: nat, area: Area, image: Image)
    requires Local(v, l, pid, {FreshKey(v.st, area)}) && Mints(v, l, w, m, pid, area, image)
    ensures RestEvolves(v, l, w, m, pid)
  {
  }

  lemma MintKeeps(v: View, l: Ledger, w: View, m: Ledger, pid: nat, area: Area, image: Image)
    requires Inv(v, l) && Mints(v, l, w, m, pid, area, image)
    ensures Inv(w, m)
  {
    Localize(v, l, pid, {FreshKey(v.st, area)});
    MintOutside(v, l, w, m, pid, area, image);
    MintFair(v, l, w, m, pid, area, image);
    MintRest(v, l, w, m, pid, area, image);
    Assemble(v, l, w, m, pid, {FreshKey(v.st, area)});
  }

  // A bookmark row without screenshot takes the process's promoted file.
  ghost predicate Attaches(v: View, l: Ledger, w: View, m: Ledger, pid: nat, b: nat, shot: Shot) {
    && pid < |v.ks|
    && v.ks[pid].minted == Some(shot) && v.ks[pid].undoing.None?
    && b in v.st.rows && v.st.rows[b].shot.None?
    && w == v.(st := UpdateRow(v.st, b, v.st.rows[b].url, true, Some(shot)),
               ks := v.ks[pid := v.ks[pid].(minted := None)])
    && m == l[shot.key := Live(b, Home)]
  }

  lemma AttachOutside(v: View, l: Ledger, w: View, m: Ledger, pid: nat, b: nat, shot: Shot)
    requires Local(v, l, pid, {shot.key}) && Attaches(v, l, w, m, pid, b, shot)
    ensures Outside(v, l, w, m, pid, {shot.key})
  {
  }

  lemma AttachFair(v: View, l: Ledger, w: View, m: Ledger, pid: nat, b: nat, shot: Shot)
    requires Local(v, l, pid, {shot.key}) && Attaches(v, l, w, m, pid, b, shot)
    ensures FairChange(v, l, w, m, pid, shot.key)
  {
  }

  lemma AttachRest(v: View, l: Ledger, w: View, m: Ledger, pid: nat, b: nat, shot: Shot)
    requires Local(v, l, pid, {shot.key}) && Attaches(v, l, w, m, pid, b, shot)
    ensures RestEvolves(v, l, w, m, pid)
  {
  }

  lemma AttachKeeps(v: View, l: Ledger, w: View, m: Ledger, pid: nat, b: nat, shot: Shot)
    requires Inv(v, l) && Attaches(v, l, w, m, pid, b, shot)
    ensures Inv(w, m)
  {
    Localize(v, l, pid, {shot.key});
    AttachOutside(v, l, w, m, pid, b, shot);
    AttachFair(v, l, w, m, pid, b, shot);
    AttachRest(v, l, w, m, pid, b, shot);
    Assemble(v, l, w, m, pid, {shot.key});
  }

  // A bookmark row gives its screenshot up. The process may be left with the key it
  // remembers to remove, or with the file it quarantined to unlink.
  ghost predicate Detaches(v: View, l: Ledger, w: View, m: Ledger, pid: nat, b: nat, kn: Knowledge, cause: Cause) {
    && pid < |v.ks|
    && b in v.st.rows && v.st.rows[b].shot.Some?
    && w.st == UpdateRow(v.st, b, v.st.rows[b].url, true, None)
    && w.ks == v.ks[pid := kn] && w.stranded == v.stranded
    && var was := v.st.rows[b].shot.value.key;
    && var mine := v.ks[pid].window.Some? && v.ks[pid].window.value.1.home == was;
    && w.left == (if kn.doomed == Some(was) || mine then v.left else v.left[was := cause])
    && m == l[was := Dead(if kn.doomed == Some(was) then Process(pid) else Nobody)]
    && v.ks[pid].doomed == None && v.ks[pid].unlinking == None
    && (v.ks[pid].window.Some? ==> v.ks[pid].window.value.0 == b)
    && (kn.doomed.Some? ==> v.ks[pid].recalled == Some((b, kn.doomed.value)))
    && kn == v.ks[pid].(window := None, recalled := None, doomed := kn.doomed,
                        unlinking := if v.ks[pid].window.Some? then Some(v.ks[pid].window.value.1.q) else None)
  }

  // The keys whose entries matter when row b gives its screenshot up.
  ghost function Concerned(v: View, pid: nat, b: nat): set<Key>
    requires pid < |v.ks| && b in v.st.rows && v.st.rows[b].shot.Some?
  {
    {v.st.rows[b].shot.value.key}
    + (if v.ks[pid].window.Some? then {v.ks[pid].window.value.1.home} else {})
    + (if v.ks[pid].recalled.Some? then {v.ks[pid].recalled.value.1} else {})
  }

  lemma DetachOutside(v: View, l: Ledger, w: View, m: Ledger, pid: nat, b: nat, kn: Knowledge, cause: Cause)
    requires Detaches(v, l, w, m, pid, b, kn, cause) && Local(v, l, pid, Concerned(v, pid, b))
    ensures Outside(v, l, w, m, pid, {v.st.rows[b].shot.value.key})
  {
    assert RowOk(v.st, l, b);
  }

  lemma DetachFair(v: View, l: Ledger, w: View, m: Ledger, pid: nat, b: nat, kn: Knowledge, cause: Cause)
    requires Detaches(v, l, w, m, pid, b, kn, cause) && Local(v, l, pid, Concerned(v, pid, b))
    ensures FairChange(v, l, w, m, pid, v.st.rows[b].shot.value.key)
  {
    assert RowOk(v.st, l, b);
  }

  lemma DetachRest(v: View, l: Ledger, w: View, m: Ledger, pid: nat, b: nat, kn: Knowledge, cause: Cause)
    requires Detaches(v, l, w, m, pid, b, kn, cause) && Local(v, l, pid, Concerned(v, pid, b))
    ensures RestEvolves(v, l, w, m, pid)
  {
    assert RowOk(v.st, l, b);
  }

  lemma DetachKeeps(v: View, l: Ledger, w: View, m: Ledger, pid: nat, b: nat, kn: Knowledge, cause: Cause)
    requires Inv(v, l) && Detaches(v, l, w, m, pid, b, kn, cause)
    ensures Inv(w, m)
  {
    Localize(v, l, pid, Concerned(v, pid, b));
    DetachOutside(v, l, w, m, pid, b, kn, cause);
    DetachFair(v, l, w, m, pid, b, kn, cause);
    DetachRest(v, l, w, m, pid, b, kn, cause);
    Assemble(v, l, w, m, pid, {v.st.rows[b].shot.value.key});
  }

  // Only what pid answered for changes hands.
  ghost predicate Hands(l: Ledger, m: Ledger, pid: nat, key: Key, to: Keeper) {
    m == if key in l && (l[key] == New(pid) || l[key] == Parked(pid) || l[key] == Dead(Process(pid)))
        then l[key := Dead(to)] else l
  }

  // A process stops answering for a file: it undid its promotion, removed or
  // queued the replaced or quarantined file, or failed to.
  ghost predicate Releases(v: View, l: Ledger, w: View, m: Ledger, pid: nat, key: Key, cause: Cause) {
    && pid < |v.ks|
    && w.ks == v.ks[pid := NOTHING] && w.stranded == v.stranded
    && (v.ks[pid] == NOTHING.(undoing := Some(key)) || v.ks[pid] == NOTHING.(doomed := Some(key))
        || v.ks[pid] == NOTHING.(unlinking := Some(key)))
    && ((w.st == Unlink(v.st, key) && w.left == v.left && Hands(l, m, pid, key, Nobody))
        || (w.st == v.st && w.left == v.left[key := cause] && Hands(l, m, pid, key, Nobody))
        || (exists at :: w.st == Enqueue(v.st, key, at) && w.left == v.left && v.ks[pid].undoing == None
                         && Hands(l, m, pid, key, Queue(|v.st.cleanups|))))
  }

  lemma ReleaseOutside(v: View, l: Ledger, w: View, m: Ledger, pid: nat, key: Key, cause: Cause)
    requires Releases(v, l, w, m, pid, key, cause) && Local(v, l, pid, {key})
    ensures Outside(v, l, w, m, pid, {key})
  {
  }

  lemma ReleaseFair(v: View, l: Ledger, w: View, m: Ledger, pid: nat, key: Key, cause: Cause)
    requires Releases(v, l, w, m, pid, key, cause) && Local(v, l, pid, {key})
    ensures FairChange(v, l, w, m, pid, key)
  {
  }

  lemma ReleaseRest(v: View, l: Ledger, w: View, m: Ledger, pid: nat, key: Key, cause: Cause)
    requires Releases(v, l, w, m, pid, key, cause) && Local(v, l, pid, {key})
    ensures RestEvolves(v, l, w, m, pid)
  {
  }

  lemma ReleaseKeeps(v: View, l: Ledger, w: View, m: Ledger, pid: nat, key: Key, cause: Cause)
    requires Inv(v, l) && Releases(v, l, w, m, pid, key, cause)
    ensures Inv(w, m)
  {
    Localize(v, l, pid, {key});
    ReleaseOutside(v, l, w, m, pid, key, cause);
    ReleaseFair(v, l, w, m, pid, key, cause);
    ReleaseRest(v, l, w, m, pid, key, cause);
    Assemble(v, l, w, m, pid, {key});
  }

  ghost predicate Quarantines(v: View, l: Ledger, w: View, m: Ledger, pid: nat, b: nat, key: Key) {
    var q := FreshKey(v.st, Quarantine);
    && pid < |v.ks|
    && key in v.st.files && v.ks[pid] == NOTHING.(recalled := Some((b, key)))
    && w == v.(st := MoveToFresh(v.st, key, Quarantine),
               ks := v.ks[pid := NOTHING.(window := Some((b, Parking(q, key))))])
    && m == (if key in l && l[key].Live? then l[q := Parked(pid)][key := Live(b, Away(pid, q))]
             else l[q := Parked(pid)])
  }

  lemma QuarantineOutside(v: View, l: Ledger, w: View, m: Ledger, pid: nat, b: nat, key: Key)
    requires Quarantines(v, l, w, m, pid, b, key) && Local(v, l, pid, {key, FreshKey(v.st, Quarantine)})
    ensures Outside(v, l, w, m, pid, {key, FreshKey(v.st, Quarantine)})
  {
  }

  lemma QuarantineFair(v: View, l: Ledger, w: View, m: Ledger, pid: nat, b: nat, key: Key)
    requires Quarantines(v, l, w, m, pid, b, key) && Local(v, l, pid, {key, FreshKey(v.st, Quarantine)})
    ensures FairChange(v, l, w, m, pid, key)
    ensures FairChange(v, l, w, m, pid, FreshKey(v.st, Quarantine))
  {
  }

  lemma QuarantineRest(v: View, l: Ledger, w: View, m: Ledger, pid: nat, b: nat, key: Key)
    requires Quarantines(v, l, w, m, pid, b, key) && Local(v, l, pid, {key, FreshKey(v.st, Quarantine)})
    ensures RestEvolves(v, l, w, m, pid)
  {
  }

  lemma QuarantineKeeps(v: View, l: Ledger, w: View, m: Ledger, pid: nat, b: nat, key: Key)
    requires Inv(v, l) && Quarantines(v, l, w, m, pid, b, key)
    ensures Inv(w, m)
  {
    var touched := {key, FreshKey(v.st, Quarantine)};
    Localize(v, l, pid, touched);
    QuarantineOutside(v, l, w, m, pid, b, key);
    QuarantineFair(v, l, w, m, pid, b, key);
    QuarantineRest(v, l, w, m, pid, b, key);
    Assemble(v, l, w, m, pid, touched);
  }

  // Restore succeeds and the file is home again, or it fails and stays in quarantine.
  ghost predicate Restores(v: View, l: Ledger, w: View, m: Ledger, pid: nat, b: nat, x: Parking, fail: bool) {
    && pid < |v.ks|
    && (!fail ==> x.q in v.st.files)
    && v.ks[pid] == NOTHING.(window := Some((b, x)))
    && w.ks == v.ks[pid := NOTHING]
    && w.st == (if fail then v.st else Move(v.st, x.q, x.home))
    && w.stranded == (if fail then v.stranded + {x.home} else v.stranded)
    && w.left == (if fail then v.left[x.q := RestoreFailed]
                  else if RowHas(v.st, b, x.home) then v.left else v.left[x.home := LateRestore])
    && m == (if x.home in l && l[x.home].Live?
             then l[x.q := Dead(Nobody)][x.home := Live(b, if fail then Stranded else Home)]
             else l[x.q := Dead(Nobody)])
  }

  lemma RestoreOutside(v: View, l: Ledger, w: View, m: Ledger, pid: nat, b: nat, x: Parking, fail: bool)
    requires Restores(v, l, w, m, pid, b, x, fail) && Local(v, l, pid, {x.q, x.home})
    ensures Outside(v, l, w, m, pid, {x.q, x.home})
  {
  }

  lemma RestoreFair(v: View, l: Ledger, w: View, m: Ledger, pid: nat, b: nat, x: Parking, fail: bool)
    requires Restores(v, l, w, m, pid, b, x, fail) && Local(v, l, pid, {x.q, x.home})
    ensures FairChange(v, l, w, m, pid, x.q)
    ensures FairChange(v, l, w, m, pid, x.home)
  {
  }

  lemma RestoreRest(v: View, l: Ledger, w: View, m: Ledger, pid: nat, b: nat, x: Parking, fail: bool)
    requires Restores(v, l, w, m, pid, b, x, fail) && Local(v, l, pid, {x.q, x.home})
    ensures RestEvolves(v, l, w, m, pid)
  {
  }

  lemma RestoreKeeps(v: View, l: Ledger, w: View, m: Ledger, pid: nat, b: nat, x: Parking, fail: bool)
    requires Inv(v, l) && Restores(v, l, w, m, pid, b, x, fail)
    ensures Inv(w, m)
  {
    Localize(v, l, pid, {x.q, x.home});
    RestoreOutside(v, l, w, m, pid, b, x, fail);
    RestoreFair(v, l, w, m, pid, b, x, fail);
    RestoreRest(v, l, w, m, pid, b, x, fail);
    Assemble(v, l, w, m, pid, {x.q, x.home});
  }
}
