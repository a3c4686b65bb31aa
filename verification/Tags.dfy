// Tag normalization.
module Tags {
  import opened Prelude

  datatype Tag = Tag(display: string, name: string)

  // strings.TrimSpace and strings.ToLower, of which only this is used: trimming twice is trimming once.
  datatype Folding = Folding(trim: string -> string, lower: string -> string)

  ghost predicate Lawful(f: Folding) {
    forall s :: f.trim(f.trim(s)) == f.trim(s)
  }

  function NameOf(f: Folding, raw: string): string {
    f.lower(f.trim(raw))
  }

  function NewTag(f: Folding, raw: string): Option<Tag> {
    var trimmed := f.trim(raw);
    var name := NameOf(f, trimmed);
    if name == "" then None else Some(Tag(trimmed, name))
  }

  // ---- The order of strings ----

  predicate Less(a: string, b: string) {
    if |b| == 0 then false
    else if |a| == 0 then true
    else a[0] < b[0] || (a[0] == b[0] && Less(a[1..], b[1..]))
  }

  // The first difference decides, or else the length.
  predicate Differs(a: string, b: string, k: nat) {
    && k <= |a| && k < |b| && a[..k] == b[..k]
    && (k == |a| || a[k] < b[k])
  }

  lemma {:induction false} LessExactly(a: string, b: string)
    ensures Less(a, b) <==> exists k: nat :: Differs(a, b, k)
    decreases |a|
  {
    if |b| > 0 && |a| == 0 {
      assert Differs(a, b, 0);
    } else if |b| > 0 && a[0] == b[0] {
      LessExactly(a[1..], b[1..]);
      if Less(a, b) {
        var k: nat :| Differs(a[1..], b[1..], k);
        assert a[..k + 1] == [a[0]] + a[1..][..k] && b[..k + 1] == [b[0]] + b[1..][..k];
        assert Differs(a, b, k + 1);
      } else if k: nat :| Differs(a, b, k) {
        assert a[..k][0] == a[0];
        assert a[1..][..k - 1] == a[..k][1..] && b[1..][..k - 1] == b[..k][1..];
        assert Differs(a[1..], b[1..], k - 1);
      }
    } else if |b| > 0 {
      assert Less(a, b) ==> Differs(a, b, 0);
      if k: nat :| Differs(a, b, k) {
        assert k > 0 ==> a[..k][0] == b[..k][0];
      }
    }
  }

  lemma {:induction false} LessIsTotal(a: string, b: string)
    ensures Less(a, b) || a == b || Less(b, a)
    ensures !(Less(a, b) && Less(b, a))
    ensures Less(a, b) ==> a != b
    decreases |a|
  {
    if |a| > 0 && |b| > 0 {
      LessIsTotal(a[1..], b[1..]);
      assert a == [a[0]] + a[1..] && b == [b[0]] + b[1..];
    }
  }

  lemma {:induction false} LessIsTransitive(a: string, b: string, c: string)
    requires Less(a, b) && Less(b, c)
    ensures Less(a, c)
    decreases |a|
  {
    if |a| > 0 && a[0] == b[0] && b[0] == c[0] { LessIsTransitive(a[1..], b[1..], c[1..]); }
  }

  ghost predicate Sorted(names: seq<string>) {
    forall i, j :: 0 <= i < j < |names| ==> Less(names[i], names[j])
  }

  function Insert(name: string, names: seq<string>): seq<string> {
    if |names| == 0 || Less(name, names[0]) then [name] + names else [names[0]] + Insert(name, names[1..])
  }

  // sort.Strings.
  function Sort(names: seq<string>): seq<string> {
    if |names| == 0 then [] else Insert(names[0], Sort(names[1..]))
  }

  lemma {:induction false} InsertSorts(name: string, names: seq<string>)
    requires Sorted(names) && name !in names
    ensures Sorted(Insert(name, names)) && forall x :: x in Insert(name, names) <==> x == name || x in names
    decreases |names|
  {
    if |names| > 0 {
      if Less(name, names[0]) {
        forall j | 0 <= j < |names| ensures Less(name, names[j]) {
          if j > 0 { LessIsTransitive(name, names[0], names[j]); }
        }
      } else {
        LessIsTotal(name, names[0]);
        InsertSorts(name, names[1..]);
        assert names == [names[0]] + names[1..];
        var rest := Insert(name, names[1..]);
        forall j | 0 <= j < |rest| ensures Less(names[0], rest[j]) { assert rest[j] in rest; }
      }
    }
  }

  lemma {:induction false} SortSorts(names: seq<string>)
    requires forall i, j :: 0 <= i < j < |names| ==> names[i] != names[j]
    ensures Sorted(Sort(names)) && forall x :: x in Sort(names) <==> x in names
    decreases |names|
  {
    if |names| > 0 {
      assert names == [names[0]] + names[1..];
      SortSorts(names[1..]);
      InsertSorts(names[0], Sort(names[1..]));
    }
  }

  lemma HasElement(names: seq<string>)
    ensures names == [] || exists x :: x in names
  {
    if names != [] { assert names[0] in names; }
  }

  // A sorted list is determined by its elements.
  lemma {:induction false} SortedIsDetermined(a: seq<string>, b: seq<string>)
    requires Sorted(a) && Sorted(b) && forall x :: x in a <==> x in b
    ensures a == b
    decreases |a|
  {
    if |a| == 0 {
      HasElement(b);
    } else {
      assert a[0] in b && b[0] in a;
      assert a == [a[0]] + a[1..] && b == [b[0]] + b[1..];
      LessIsTotal(a[0], b[0]);
      assert a[0] == b[0];
      LessIsTotal(a[0], a[0]);
      assert a[0] !in a[1..] && b[0] !in b[1..];
      forall x ensures x in a[1..] <==> x in b[1..] {
        assert x in a[1..] <==> x in a && x != a[0];
        assert x in b[1..] <==> x in b && x != b[0];
      }
      SortedIsDetermined(a[1..], b[1..]);
    }
  }

  // ---- NormalizeTags ----

  function Names(tags: seq<Tag>): (names: seq<string>)
    ensures |names| == |tags| && forall i :: 0 <= i < |tags| ==> names[i] == tags[i].name
  {
    seq(|tags|, i requires 0 <= i < |tags| => tags[i].name)
  }

  // The first input that has the name.
  ghost predicate FirstWith(f: Folding, raws: seq<string>, name: string, k: nat) {
    && k < |raws| && NameOf(f, raws[k]) == name
    && forall i :: 0 <= i < k ==> NameOf(f, raws[i]) != name
  }

  // The tag has the spelling of the first of the first n inputs with its name.
  ghost predicate Spelled(f: Folding, raws: seq<string>, tag: Tag, n: nat) {
    exists k: nat :: k < n && FirstWith(f, raws, tag.name, k) && tag.display == f.trim(raws[k])
  }

  lemma SpellingsAgree(f: Folding, raws: seq<string>, a: Tag, b: Tag, n: nat)
    requires Spelled(f, raws, a, n) && Spelled(f, raws, b, n) && a.name == b.name
    ensures a == b
  {
    var j: nat :| j < n && FirstWith(f, raws, a.name, j) && a.display == f.trim(raws[j]);
    var k: nat :| k < n && FirstWith(f, raws, b.name, k) && b.display == f.trim(raws[k]);
    assert j == k;
  }

  ghost predicate IsNormalized(f: Folding, raws: seq<string>, tags: seq<Tag>) {
    && Sorted(Names(tags))
    && (forall raw :: raw in raws && NameOf(f, raw) != "" ==> NameOf(f, raw) in Names(tags))
    && (forall i :: 0 <= i < |tags| ==> tags[i].name != "" && Spelled(f, raws, tags[i], |raws|))
  }

  // Blank inputs are dropped, inputs of equal name collapse to the first spelling, and
  // the result is in the order of names.
  method NormalizeTags(f: Folding, raws: seq<string>) returns (tags: seq<Tag>)
    requires Lawful(f)
    ensures IsNormalized(f, raws, tags)
  {
    var seen: map<string, Tag> := map[];
    var order: seq<string> := [];
    for i := 0 to |raws|
      invariant Collected(f, raws, i, seen, order)
    {
      var tag := NewTag(f, raws[i]);
      assert NameOf(f, f.trim(raws[i])) == NameOf(f, raws[i]);
      if tag.Some? && tag.value.name !in seen {
        seen := seen[tag.value.name := tag.value];
        order := order + [tag.value.name];
      }
    }
    SortSorts(order);
    var names := Sort(order);
    tags := [];
    for i := 0 to |names|
      invariant |tags| == i && forall j :: 0 <= j < i ==> tags[j] == seen[names[j]] && names[j] in seen
    {
      assert names[i] in names;
      tags := tags + [seen[names[i]]];
    }
    assert Names(tags) == names;
  }

  ghost predicate Collected(f: Folding, raws: seq<string>, n: nat, seen: map<string, Tag>, order: seq<string>) {
    && n <= |raws|
    && (forall i, j :: 0 <= i < j < |order| ==> order[i] != order[j])
    && (forall name :: name in seen <==> name in order)
    && (forall k :: 0 <= k < n && NameOf(f, raws[k]) != "" ==> NameOf(f, raws[k]) in seen)
    && (forall name :: name in seen ==> name != "" && seen[name].name == name && Spelled(f, raws, seen[name], n))
  }

  // That describes one result only.
  lemma NormalizedIsDetermined(f: Folding, raws: seq<string>, a: seq<Tag>, b: seq<Tag>)
    requires IsNormalized(f, raws, a) && IsNormalized(f, raws, b)
    ensures a == b
  {
    SameNames(f, raws, a, b);
    SameNames(f, raws, b, a);
    SortedIsDetermined(Names(a), Names(b));
    forall i | 0 <= i < |a| ensures a[i] == b[i] {
      assert Names(a)[i] == Names(b)[i];
      SpellingsAgree(f, raws, a[i], b[i], |raws|);
    }
  }

  lemma SameNames(f: Folding, raws: seq<string>, a: seq<Tag>, b: seq<Tag>)
    requires IsNormalized(f, raws, a) && IsNormalized(f, raws, b)
    ensures forall x :: x in Names(a) ==> x in Names(b)
  {
    forall x | x in Names(a) ensures x in Names(b) {
      NormalizedNames(f, raws, a, x);
      NormalizedNames(f, raws, b, x);
    }
  }

  // A name is among the result exactly if it is that of an input and not blank.
  lemma NormalizedNames(f: Folding, raws: seq<string>, tags: seq<Tag>, name: string)
    requires IsNormalized(f, raws, tags)
    ensures name in Names(tags) <==> name != "" && exists raw :: raw in raws && f.lower(f.trim(raw)) == name
  {
    if name in Names(tags) {
      var i :| 0 <= i < |tags| && Names(tags)[i] == name;
      assert Spelled(f, raws, tags[i], |raws|);
      var k: nat :| k < |raws| && FirstWith(f, raws, tags[i].name, k);
      assert raws[k] in raws;
    }
  }
}
