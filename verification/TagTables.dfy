// Tags in the relational store: upserts, links and the join that reads them back,
// against a plain map from bookmarks to the tags they were last saved with.
module TagTables {
  import opened Prelude
  import opened Tags

  // The tags table by its unique column; links holds (bookmark, tag id) pairs.
  datatype TagRow = TagRow(id: nat, display: string)

  datatype Tables = Tables(bookmarks: set<nat>, tags: map<string, TagRow>, links: set<(nat, nat)>, next: nat)

  const EMPTY_TABLES := Tables({}, map[], {}, 0)

  // INSERT ... ON CONFLICT (normalized_name): an existing row keeps its id and display name.
  function Upsert(t: Tables, tag: Tag): Tables {
    if tag.name in t.tags then t.(next := t.next + 1)
    else t.(tags := t.tags[tag.name := TagRow(t.next, tag.display)], next := t.next + 1)
  }

  // One tag after the other is upserted and linked; a link that is already there
  // violates the primary key and fails the transaction.
  function LinkTags(t: Tables, b: nat, tags: seq<Tag>): Option<Tables>
    decreases |tags|
  {
    if |tags| == 0 then Some(t)
    else
      var u := Upsert(t, tags[0]);
      var link := (b, u.tags[tags[0].name].id);
      if link in u.links then None else LinkTags(u.(links := u.links + {link}), b, tags[1..])
  }

  function Unlinked(links: set<(nat, nat)>, b: nat): set<(nat, nat)> {
    set l | l in links && l.0 != b
  }

  // The writes, with their tags already normalized.
  datatype Write = Create(tags: seq<Tag>) | Update(b: nat, tags: seq<Tag>) | Delete(b: nat)

  // None is a failed transaction: nothing is written.
  function Execute(t: Tables, w: Write): Option<Tables> {
    match w
    case Create(tags) => LinkTags(t.(bookmarks := t.bookmarks + {t.next}, next := t.next + 1), t.next, tags)
    case Update(b, tags) => if b !in t.bookmarks then None else LinkTags(t.(links := Unlinked(t.links, b)), b, tags)
    case Delete(b) =>
      if b !in t.bookmarks then None else Some(t.(bookmarks := t.bookmarks - {b}, links := Unlinked(t.links, b)))
  }

  function Run(writes: seq<Write>): Tables
    decreases |writes|
  {
    if |writes| == 0 then EMPTY_TABLES
    else
      var t := Run(writes[..|writes| - 1]);
      match Execute(t, writes[|writes| - 1]) { case None => t case Some(u) => u }
  }

  // ---- The plain description ----

  // last: the tags each bookmark was last saved with; spelled: each name's first display name.
  datatype Plain = Plain(last: map<nat, seq<Tag>>, spelled: map<string, string>)

  function Learn(spelled: map<string, string>, tags: seq<Tag>): map<string, string>
    decreases |tags|
  {
    if |tags| == 0 then spelled
    else Learn(if tags[0].name in spelled then spelled else spelled[tags[0].name := tags[0].display], tags[1..])
  }

  // minted is the id of a created bookmark.
  function Described(p: Plain, w: Write, minted: nat): Plain {
    match w
    case Create(tags) => Plain(p.last[minted := tags], Learn(p.spelled, tags))
    case Update(b, tags) => if b !in p.last then p else Plain(p.last[b := tags], Learn(p.spelled, tags))
    case Delete(b) => p.(last := p.last - {b})
  }

  function Description(writes: seq<Write>): Plain
    decreases |writes|
  {
    if |writes| == 0 then Plain(map[], map[])
    else
      var init := writes[..|writes| - 1];
      Described(Description(init), writes[|writes| - 1], Run(init).next)
  }

  // ---- What links a write makes ----

  ghost predicate Linked(t: Tables, b: nat, name: string) {
    name in t.tags && (b, t.tags[name].id) in t.links
  }

  ghost predicate Wf(t: Tables) {
    && (forall n, m :: n in t.tags && m in t.tags && t.tags[n].id == t.tags[m].id ==> n == m)
    && (forall n :: n in t.tags ==> t.tags[n].id < t.next)
    && (forall l :: l in t.links ==> l.0 in t.bookmarks && l.1 < t.next)
    && (forall b :: b in t.bookmarks ==> b < t.next)
  }

  ghost predicate Distinct(tags: seq<Tag>) {
    forall i, j :: 0 <= i < j < |tags| ==> tags[i].name != tags[j].name
  }

  ghost predicate Spells(t: Tables, spelled: map<string, string>) {
    && (forall n :: n in t.tags <==> n in spelled)
    && (forall n :: n in t.tags ==> t.tags[n].display == spelled[n])
  }

  // What linking these tags to b does to the tables.
  ghost predicate Links(t: Tables, b: nat, tags: seq<Tag>, u: Tables) {
    && Wf(u) && u.bookmarks == t.bookmarks && t.next <= u.next
    && (forall n :: n in t.tags ==> n in u.tags && u.tags[n] == t.tags[n])
    && (forall c, n :: Linked(u, c, n) <==> Linked(t, c, n) || (c == b && n in Names(tags)))
  }

  lemma UpsertAlone(t: Tables, tag: Tag, spelled: map<string, string>)
    requires Wf(t) && Spells(t, spelled)
    ensures var u := Upsert(t, tag);
            && Wf(u) && tag.name in u.tags && u.links == t.links && u.bookmarks == t.bookmarks && t.next <= u.next
            && (forall n :: n in t.tags ==> n in u.tags && u.tags[n] == t.tags[n])
            && Spells(u, Learn(spelled, [tag]))
  {
    assert Learn(spelled, [tag]) == if tag.name in spelled then spelled else spelled[tag.name := tag.display];
  }

  lemma UpsertLinks(t: Tables, tag: Tag, c: nat, n: string)
    requires Wf(t)
    ensures Linked(Upsert(t, tag), c, n) <==> Linked(t, c, n)
  {
  }

  lemma AddLink(u: Tables, b: nat, name: string, c: nat, n: string)
    requires Wf(u) && name in u.tags
    ensures Linked(u.(links := u.links + {(b, u.tags[name].id)}), c, n) <==> Linked(u, c, n) || (c == b && n == name)
  {
  }

  lemma LinkOne(t: Tables, b: nat, tag: Tag, spelled: map<string, string>)
    requires Wf(t) && b in t.bookmarks && Spells(t, spelled) && !Linked(t, b, tag.name)
    ensures var u := Upsert(t, tag);
            var link := (b, u.tags[tag.name].id);
            && link !in u.links
            && Links(t, b, [tag], u.(links := u.links + {link}))
            && Spells(u, Learn(spelled, [tag]))
  {
    UpsertAlone(t, tag, spelled);
    var u := Upsert(t, tag);
    UpsertLinks(t, tag, b, tag.name);
    var v := u.(links := u.links + {(b, u.tags[tag.name].id)});
    assert Wf(v);
    assert Names([tag]) == [tag.name];
    forall c, n ensures Linked(v, c, n) <==> Linked(t, c, n) || (c == b && n in Names([tag])) {
      UpsertLinks(t, tag, c, n);
      AddLink(u, b, tag.name, c, n);
    }
  }

  // Tags of distinct names, none of them linked yet: the transaction goes through, and
  // afterwards exactly these names are linked in addition.
  lemma {:induction false} LinkAll(t: Tables, b: nat, tags: seq<Tag>, spelled: map<string, string>)
    requires Wf(t) && b in t.bookmarks && Spells(t, spelled) && Distinct(tags)
    requires forall i :: 0 <= i < |tags| ==> !Linked(t, b, tags[i].name)
    ensures var r := LinkTags(t, b, tags);
            r.Some? && Links(t, b, tags, r.value) && Spells(r.value, Learn(spelled, tags))
    decreases |tags|
  {
    if |tags| == 0 {
      assert Names(tags) == [];
    } else {
      LinkOne(t, b, tags[0], spelled);
      LearnFirst(spelled, tags);
      var u := Upsert(t, tags[0]);
      var v := u.(links := u.links + {(b, u.tags[tags[0].name].id)});
      StillUnlinked(t, b, tags, v);
      LinkAll(v, b, tags[1..], Learn(spelled, [tags[0]]));
      LinksCompose(t, b, tags, v, LinkTags(v, b, tags[1..]).value);
    }
  }

  lemma LearnFirst(spelled: map<string, string>, tags: seq<Tag>)
    requires |tags| > 0
    ensures Learn(spelled, tags) == Learn(Learn(spelled, [tags[0]]), tags[1..])
  {
    var tag := tags[0];
    assert Learn(spelled, [tag]) == if tag.name in spelled then spelled else spelled[tag.name := tag.display];
  }

  lemma StillUnlinked(t: Tables, b: nat, tags: seq<Tag>, u: Tables)
    requires |tags| > 0 && Links(t, b, [tags[0]], u) && Distinct(tags)
    requires forall i :: 0 <= i < |tags| ==> !Linked(t, b, tags[i].name)
    ensures Distinct(tags[1..]) && forall i :: 0 <= i < |tags[1..]| ==> !Linked(u, b, tags[1..][i].name)
  {
    assert Names([tags[0]]) == [tags[0].name];
  }

  lemma LinksCompose(t: Tables, b: nat, tags: seq<Tag>, u: Tables, v: Tables)
    requires |tags| > 0 && Links(t, b, [tags[0]], u) && Links(u, b, tags[1..], v)
    ensures Links(t, b, tags, v)
  {
    assert Names(tags) == Names([tags[0]]) + Names(tags[1..]);
  }

  // ---- The tables agree with the description ----

  ghost predicate WellWritten(w: Write) {
    w.Delete? || Tags.Sorted(Names(w.tags))
  }

  ghost predicate Agree(t: Tables, p: Plain) {
    && Wf(t) && Spells(t, p.spelled)
    && (forall b :: b in t.bookmarks <==> b in p.last)
    && (forall b, n :: Linked(t, b, n) <==> b in p.last && n in Names(p.last[b]))
    && (forall b :: b in p.last ==> Tags.Sorted(Names(p.last[b])))
  }

  lemma SortedIsDistinct(tags: seq<Tag>)
    requires Tags.Sorted(Names(tags))
    ensures Distinct(tags)
  {
    forall i, j | 0 <= i < j < |tags| ensures tags[i].name != tags[j].name {
      assert Less(Names(tags)[i], Names(tags)[j]);
      LessIsTotal(tags[i].name, tags[j].name);
    }
  }

  lemma UnlinkAgrees(t: Tables, b: nat, c: nat, n: string)
    ensures Linked(t.(links := Unlinked(t.links, b)), c, n) <==> Linked(t, c, n) && c != b
  {
  }

  // The tables right before the tags of bookmark b are linked.
  ghost predicate Cleared(t: Tables, p: Plain, b: nat) {
    && Wf(t) && Spells(t, p.spelled) && b in t.bookmarks
    && (forall c :: c in t.bookmarks <==> c in p.last || c == b)
    && (forall c, n :: Linked(t, c, n) <==> c != b && c in p.last && n in Names(p.last[c]))
    && (forall c :: c in p.last ==> Tags.Sorted(Names(p.last[c])))
  }

  lemma LinkAgrees(t: Tables, p: Plain, b: nat, tags: seq<Tag>)
    requires Cleared(t, p, b) && Tags.Sorted(Names(tags))
    ensures var r := LinkTags(t, b, tags);
            r.Some? && Agree(r.value, Plain(p.last[b := tags], Learn(p.spelled, tags)))
  {
    SortedIsDistinct(tags);
    LinkAll(t, b, tags, p.spelled);
  }

  lemma CreateClears(t: Tables, p: Plain)
    requires Agree(t, p)
    ensures Cleared(t.(bookmarks := t.bookmarks + {t.next}, next := t.next + 1), p, t.next)
  {
    var u := t.(bookmarks := t.bookmarks + {t.next}, next := t.next + 1);
    forall c, n ensures Linked(u, c, n) <==> Linked(t, c, n) {}
  }

  lemma UpdateClears(t: Tables, p: Plain, b: nat)
    requires Agree(t, p) && b in t.bookmarks
    ensures Cleared(t.(links := Unlinked(t.links, b)), p, b)
  {
    forall c, n ensures Linked(t.(links := Unlinked(t.links, b)), c, n) <==> Linked(t, c, n) && c != b {
      UnlinkAgrees(t, b, c, n);
    }
  }

  lemma DeleteAgrees(t: Tables, p: Plain, b: nat)
    requires Agree(t, p)
    ensures Agree(t.(bookmarks := t.bookmarks - {b}, links := Unlinked(t.links, b)), p.(last := p.last - {b}))
  {
    var u := t.(bookmarks := t.bookmarks - {b}, links := Unlinked(t.links, b));
    forall c, n ensures Linked(u, c, n) <==> Linked(t, c, n) && c != b {
      UnlinkAgrees(t, b, c, n);
    }
  }

  lemma ExecuteAgrees(t: Tables, p: Plain, w: Write)
    requires Agree(t, p) && WellWritten(w)
    ensures var r := Execute(t, w);
            && (r.Some? <==> w.Create? || w.b in t.bookmarks)
            && Agree(match r { case None => t case Some(u) => u }, Described(p, w, t.next))
  {
    match w
    case Create(tags) =>
      CreateClears(t, p);
      LinkAgrees(t.(bookmarks := t.bookmarks + {t.next}, next := t.next + 1), p, t.next, tags);
    case Update(b, tags) =>
      if b in t.bookmarks {
        UpdateClears(t, p, b);
        LinkAgrees(t.(links := Unlinked(t.links, b)), p, b, tags);
      }
    case Delete(b) =>
      if b in t.bookmarks { DeleteAgrees(t, p, b); } else { assert p.last - {b} == p.last; }
  }

  // After any writes of normalized tags the tables say what the description says, and
  // the only writes that failed named a bookmark that was not there: linking never
  // violates the primary key.
  lemma {:induction false} TablesAgree(writes: seq<Write>)
    requires forall i :: 0 <= i < |writes| ==> WellWritten(writes[i])
    ensures Agree(Run(writes), Description(writes))
    ensures |writes| > 0 ==>
              var t, w := Run(writes[..|writes| - 1]), writes[|writes| - 1];
              Execute(t, w).Some? <==> w.Create? || w.b in t.bookmarks
    decreases |writes|
  {
    if |writes| > 0 {
      var init := writes[..|writes| - 1];
      TablesAgree(init);
      ExecuteAgrees(Run(init), Description(init), writes[|writes| - 1]);
    }
  }

  // ---- Reading back ----

  // The rows of the join for one bookmark, in the order of names.
  ghost predicate IsHydration(t: Tables, b: nat, rows: seq<Tag>) {
    && Tags.Sorted(Names(rows))
    && (forall n :: n in Names(rows) <==> Linked(t, b, n))
    && (forall i :: 0 <= i < |rows| ==> rows[i].name in t.tags && rows[i].display == t.tags[rows[i].name].display)
  }

  // Reading a bookmark's tags gives those it was last saved with, in the same order,
  // each with the first display name that was ever accepted for it.
  lemma HydrationIsLastSaved(writes: seq<Write>, b: nat, rows: seq<Tag>)
    requires forall i :: 0 <= i < |writes| ==> WellWritten(writes[i])
    requires b in Run(writes).bookmarks && IsHydration(Run(writes), b, rows)
    ensures var p := Description(writes);
            && b in p.last && Names(rows) == Names(p.last[b])
            && forall i :: 0 <= i < |rows| ==> rows[i].name in p.spelled && rows[i].display == p.spelled[rows[i].name]
  {
    TablesAgree(writes);
    SortedIsDetermined(Names(rows), Names(Description(writes).last[b]));
  }

  // ---- First spellings ----

  // The tags that a write brings in.
  function Accepted(writes: seq<Write>, k: nat): seq<Tag>
    requires k < |writes|
  {
    var w := writes[k];
    if w.Create? || (w.Update? && w.b in Description(writes[..k]).last) then w.tags else []
  }

  ghost predicate Brings(writes: seq<Write>, k: nat, n: string) {
    k < |writes| && n in Names(Accepted(writes, k))
  }

  ghost predicate BringsFirst(writes: seq<Write>, k: nat, n: string) {
    Brings(writes, k, n) && forall j :: 0 <= j < k ==> !Brings(writes, j, n)
  }

  lemma {:induction false} Learned(spelled: map<string, string>, tags: seq<Tag>, n: string)
    requires Distinct(tags)
    ensures n in Learn(spelled, tags) <==> n in spelled || n in Names(tags)
    ensures n in spelled ==> Learn(spelled, tags)[n] == spelled[n]
    ensures n in Names(tags) && n !in spelled ==> Tag(Learn(spelled, tags)[n], n) in tags
    decreases |tags|
  {
    if |tags| == 0 {
      assert Names(tags) == [];
    } else {
      assert Names(tags) == [tags[0].name] + Names(tags[1..]);
      var more := if tags[0].name in spelled then spelled else spelled[tags[0].name := tags[0].display];
      Learned(more, tags[1..], n);
      assert tags == [tags[0]] + tags[1..];
    }
  }

  lemma BringsBefore(writes: seq<Write>, k: nat, n: string)
    requires |writes| > 0 && k < |writes| - 1
    ensures Accepted(writes, k) == Accepted(writes[..|writes| - 1], k)
    ensures Brings(writes, k, n) <==> Brings(writes[..|writes| - 1], k, n)
  {
    assert writes[..|writes| - 1][..k] == writes[..k];
  }

  lemma {:induction false} SpelledIfBrought(writes: seq<Write>, n: string)
    requires forall i :: 0 <= i < |writes| ==> WellWritten(writes[i])
    ensures n in Description(writes).spelled <==> exists k :: Brings(writes, k, n)
    decreases |writes|
  {
    if |writes| > 0 {
      var init, last := writes[..|writes| - 1], |writes| - 1;
      SpelledIfBrought(init, n);
      LastSpells(writes, n);
      forall k: nat | k < last ensures Brings(writes, k, n) <==> Brings(init, k, n) { BringsBefore(writes, k, n); }
      if n in Description(init).spelled {
        var k :| Brings(init, k, n);
        assert Brings(writes, k, n);
      } else if n in Description(writes).spelled {
        assert Brings(writes, last, n);
      }
    }
  }

  // The display name of a tag is the one it had in the first write that brought it in.
  lemma {:induction false} SpellingIsFirst(writes: seq<Write>, k: nat, n: string)
    requires forall i :: 0 <= i < |writes| ==> WellWritten(writes[i])
    requires BringsFirst(writes, k, n)
    ensures n in Description(writes).spelled && Tag(Description(writes).spelled[n], n) in Accepted(writes, k)
    decreases |writes|
  {
    var init, last := writes[..|writes| - 1], |writes| - 1;
    forall j: nat | j < last ensures Brings(writes, j, n) <==> Brings(init, j, n) { BringsBefore(writes, j, n); }
    LastSpells(writes, n);
    if k < last {
      SpellingIsFirst(init, k, n);
      BringsBefore(writes, k, n);
    } else {
      SpelledIfBrought(init, n);
    }
  }

  lemma LastSpells(writes: seq<Write>, n: string)
    requires |writes| > 0 && WellWritten(writes[|writes| - 1])
    ensures var before, after := Description(writes[..|writes| - 1]).spelled, Description(writes).spelled;
            var tags := Accepted(writes, |writes| - 1);
            && (n in after <==> n in before || n in Names(tags))
            && (n in before ==> after[n] == before[n])
            && (n in Names(tags) && n !in before ==> Tag(after[n], n) in tags)
  {
    var w := writes[|writes| - 1];
    assert Names([]) == [];
    if !w.Delete? {
      SortedIsDistinct(w.tags);
      Learned(Description(writes[..|writes| - 1]).spelled, w.tags, n);
    }
  }

  // ---- The tag filter ----

  // The condition of the browse and search statements.
  ghost predicate Selects(t: Tables, b: nat, name: string) {
    name == "" || Linked(t, b, name)
  }

  // Filtering by a tag selects exactly the bookmarks whose last write carried it in any
  // spelling; a blank tag selects all.
  lemma FilterSelectsCarriers(f: Folding, writes: seq<Write>, b: nat, raws: seq<string>, query: string)
    requires forall i :: 0 <= i < |writes| ==> WellWritten(writes[i])
    requires b in Run(writes).bookmarks && b in Description(writes).last ==>
            IsNormalized(f, raws, Description(writes).last[b])
    requires b in Run(writes).bookmarks
    ensures Selects(Run(writes), b, NameOf(f, query))
            <==> NameOf(f, query) == "" || exists raw :: raw in raws && NameOf(f, raw) == NameOf(f, query)
  {
    TablesAgree(writes);
    NormalizedNames(f, raws, Description(writes).last[b], NameOf(f, query));
  }

  // ---- The program ----

  // Rows of the join for many bookmarks, ordered by name; rows of different bookmarks
  // with the same name may come in any order.
  ghost predicate IsJoin(t: Tables, ids: seq<nat>, rows: seq<(nat, Tag)>) {
    && (forall i, j :: 0 <= i < j < |rows| ==>
         Less(rows[i].1.name, rows[j].1.name) || (rows[i].1.name == rows[j].1.name && rows[i].0 != rows[j].0))
    && (forall b, n :: b in ids ==>
         (Linked(t, b, n) <==> exists i :: 0 <= i < |rows| && rows[i].0 == b && rows[i].1.name == n))
    && (forall i :: 0 <= i < |rows| ==>
         rows[i].0 in ids && rows[i].1.name in t.tags && rows[i].1.display == t.tags[rows[i].1.name].display)
  }

  function Only(rows: seq<(nat, Tag)>, b: nat): seq<Tag> {
    if |rows| == 0 then []
    else Only(rows[..|rows| - 1], b) + if rows[|rows| - 1].0 == b then [rows[|rows| - 1].1] else []
  }

  // Appends each row's tag to its bookmark.
  method HydrateTags(ids: seq<nat>, rows: seq<(nat, Tag)>) returns (tags: seq<seq<Tag>>)
    requires forall i, j :: 0 <= i < j < |ids| ==> ids[i] != ids[j]
    requires forall i :: 0 <= i < |rows| ==> rows[i].0 in ids
    ensures |tags| == |ids| && forall i :: 0 <= i < |ids| ==> tags[i] == Only(rows, ids[i])
  {
    var index: map<nat, nat> := map[];
    tags := [];
    for i := 0 to |ids|
      invariant |tags| == i && forall k :: 0 <= k < i ==> tags[k] == []
      invariant forall k :: 0 <= k < i ==> ids[k] in index && index[ids[k]] == k
    {
      index := index[ids[i] := i];
      tags := tags + [[]];
    }
    for r := 0 to |rows|
      invariant |tags| == |ids| && forall k :: 0 <= k < |ids| ==> tags[k] == Only(rows[..r], ids[k])
    {
      var position := index[rows[r].0];
      tags := tags[position := tags[position] + [rows[r].1]];
      assert rows[..r + 1][..r] == rows[..r];
    }
    assert rows[..|rows|] == rows;
  }

  lemma {:induction false} OnlyElements(rows: seq<(nat, Tag)>, b: nat)
    ensures forall x :: x in Only(rows, b) <==> (b, x) in rows
    decreases |rows|
  {
    if |rows| > 0 {
      OnlyElements(rows[..|rows| - 1], b);
      assert rows == rows[..|rows| - 1] + [rows[|rows| - 1]];
    }
  }

  lemma {:induction false} OnlyIsSorted(rows: seq<(nat, Tag)>, b: nat)
    requires forall i, j :: 0 <= i < j < |rows| ==>
            Less(rows[i].1.name, rows[j].1.name) || (rows[i].1.name == rows[j].1.name && rows[i].0 != rows[j].0)
    ensures Tags.Sorted(Names(Only(rows, b)))
    decreases |rows|
  {
    if |rows| > 0 {
      var init, last := rows[..|rows| - 1], rows[|rows| - 1];
      OnlyIsSorted(init, b);
      if last.0 == b {
        var before := Only(init, b);
        forall i | 0 <= i < |before| ensures Less(before[i].name, last.1.name) {
          OnlyElements(init, b);
          assert (b, before[i]) in init;
        }
      }
    }
  }

  // What the loop gathers for each bookmark is its hydration.
  lemma JoinHydrates(t: Tables, ids: seq<nat>, rows: seq<(nat, Tag)>, b: nat)
    requires IsJoin(t, ids, rows) && b in ids
    ensures IsHydration(t, b, Only(rows, b))
  {
    var only := Only(rows, b);
    OnlyElements(rows, b);
    OnlyIsSorted(rows, b);
    forall i | 0 <= i < |only| ensures only[i].name in t.tags && only[i].display == t.tags[only[i].name].display {
      assert (b, only[i]) in rows;
    }
    forall n ensures n in Names(only) <==> Linked(t, b, n) {
      if n in Names(only) {
        var i :| 0 <= i < |only| && Names(only)[i] == n;
        assert (b, only[i]) in rows;
      }
      if Linked(t, b, n) {
        var i :| 0 <= i < |rows| && rows[i].0 == b && rows[i].1.name == n;
        assert (b, rows[i].1) in rows && rows[i].1 in only;
        var j :| 0 <= j < |only| && only[j] == rows[i].1;
        assert Names(only)[j] == n;
      }
    }
  }

  // The tag part of the create and maintain stores; each method is a transaction.
  class TagStore {
    var bookmarks: set<nat>
    var tags: map<string, TagRow>
    var links: set<(nat, nat)>
    var next: nat

    constructor ()
      ensures Now() == EMPTY_TABLES
    {
      bookmarks, tags, links, next := {}, map[], {}, 0;
    }

    function Now(): Tables
      reads this
    {
      Tables(bookmarks, tags, links, next)
    }

    method Put(t: Tables)
      modifies this
      ensures Now() == t
    {
      bookmarks, tags, links, next := t.bookmarks, t.tags, t.links, t.next;
    }

    // Returns the id of the row that the name has now.
    method UpsertTag(tag: Tag) returns (id: nat)
      modifies this
      ensures Now() == Upsert(old(Now()), tag) && id == tags[tag.name].id
    {
      if tag.name !in tags { tags := tags[tag.name := TagRow(next, tag.display)]; }
      next := next + 1;
      id := tags[tag.name].id;
    }

    method Link(b: nat, list: seq<Tag>) returns (ok: bool)
      modifies this
      ensures LinkTags(old(Now()), b, list) == if ok then Some(Now()) else None
    {
      var i := 0;
      while i < |list|
        invariant 0 <= i <= |list|
        invariant LinkTags(old(Now()), b, list) == LinkTags(Now(), b, list[i..])
      {
        var id := UpsertTag(list[i]);
        assert list[i..][1..] == list[i + 1..];
        if (b, id) in links { return false; }
        links := links + {(b, id)};
        i := i + 1;
      }
      return true;
    }

    method CreateBookmark(list: seq<Tag>) returns (b: nat, ok: bool)
      modifies this
      ensures b == old(next)
      ensures Execute(old(Now()), Create(list)) == if ok then Some(Now()) else None
      ensures !ok ==> Now() == old(Now())
    {
      var saved := Now();
      b := next;
      next := next + 1;
      bookmarks := bookmarks + {b};
      ok := Link(b, list);
      if !ok { Put(saved); }
    }

    method UpdateBookmark(b: nat, list: seq<Tag>) returns (ok: bool)
      modifies this
      ensures Execute(old(Now()), Update(b, list)) == if ok then Some(Now()) else None
      ensures !ok ==> Now() == old(Now())
    {
      if b !in bookmarks { return false; }
      var saved := Now();
      links := Unlinked(links, b);
      ok := Link(b, list);
      if !ok { Put(saved); }
    }

    method DeleteBookmark(b: nat) returns (ok: bool)
      modifies this
      ensures Execute(old(Now()), Delete(b)) == if ok then Some(Now()) else None
      ensures !ok ==> Now() == old(Now())
    {
      if b !in bookmarks { return false; }
      bookmarks := bookmarks - {b};
      links := Unlinked(links, b);
      return true;
    }
  }
}
