// Capped, paged search and browsing: count, clamp, cap and offset against one sorted list.
module SearchPages {
  import opened Pagination

  datatype Bookmark = Bookmark(id: nat, created: int, description: string)

  // ORDER BY created_at DESC, id DESC.
  predicate Before(a: Bookmark, b: Bookmark) {
    a.created > b.created || (a.created == b.created && a.id > b.id)
  }

  ghost predicate DistinctIds(rows: seq<Bookmark>) {
    forall i, j :: 0 <= i < j < |rows| ==> rows[i].id != rows[j].id
  }

  ghost predicate Sorted(rows: seq<Bookmark>) {
    forall i, j :: 0 <= i < j < |rows| ==> Before(rows[i], rows[j])
  }

  // ---- The relational operators ----

  function Where(rows: seq<Bookmark>, wanted: Bookmark -> bool): (r: seq<Bookmark>)
    ensures |r| <= |rows| && forall i :: 0 <= i < |r| ==> wanted(r[i]) && r[i] in rows
  {
    if |rows| == 0 then []
    else (if wanted(rows[0]) then [rows[0]] else []) + Where(rows[1..], wanted)
  }

  function Insert(b: Bookmark, rows: seq<Bookmark>): seq<Bookmark> {
    if |rows| == 0 || !Before(rows[0], b) then [b] + rows else [rows[0]] + Insert(b, rows[1..])
  }

  function NewestFirst(rows: seq<Bookmark>): seq<Bookmark> {
    if |rows| == 0 then [] else Insert(rows[0], NewestFirst(rows[1..]))
  }

  function Limit(rows: seq<Bookmark>, n: nat): seq<Bookmark> {
    if n < |rows| then rows[..n] else rows
  }

  function Offset(rows: seq<Bookmark>, n: nat): seq<Bookmark> {
    if n < |rows| then rows[n..] else []
  }

  // ---- The store and the use cases ----

  datatype Result<T> = Ok(value: T) | Err

  // A negative LIMIT or OFFSET is an error.
  function Page(rows: seq<Bookmark>, size: int, offset: int): Result<seq<Bookmark>> {
    if size < 0 || offset < 0 then Err else Ok(Limit(Offset(rows, offset), size))
  }

  function Fetch(rows: seq<Bookmark>, total: int, page: int, size: int): Result<seq<Bookmark>> {
    Page(rows, size, (ClampPage(page, total, size) - 1) * size)
  }

  datatype Found = Found(items: seq<Bookmark>, total: nat, capped: bool)

  // BrowsePage: a count, then the page.
  function BrowsePage(table: seq<Bookmark>, wanted: Bookmark -> bool, page: int, size: int): Result<Found> {
    var total := |Where(table, wanted)|;
    match Fetch(NewestFirst(Where(table, wanted)), total, page, size)
    case Err => Err
    case Ok(items) => Ok(Found(items, total, false))
  }

  // SearchPage: the cap applies before the page, and the capped rows are sorted again.
  function SearchPage(table: seq<Bookmark>, wanted: Bookmark -> bool, page: int, size: int, maximum: int)
    : Result<Found>
  {
    var actual := |Where(table, wanted)|;
    var capped := maximum > 0 && actual > maximum;
    var total := if capped then maximum else actual;
    if maximum < 0 then Err
    else
      match Fetch(NewestFirst(Limit(NewestFirst(Where(table, wanted)), maximum)), total, page, size)
      case Err => Err
      case Ok(items) => Ok(Found(items, total, capped))
  }

  // ---- Sorting ----

  lemma {:induction false} InsertSorts(b: Bookmark, rows: seq<Bookmark>)
    requires Sorted(rows) && forall i :: 0 <= i < |rows| ==> rows[i].id != b.id
    ensures Sorted(Insert(b, rows)) && multiset(Insert(b, rows)) == multiset(rows) + multiset{b}
    decreases |rows|
  {
    if |rows| > 0 {
      assert rows == [rows[0]] + rows[1..];
      if Before(rows[0], b) {
        InsertSorts(b, rows[1..]);
        StaysBehind(rows[0], Insert(b, rows[1..]), rows[1..], b);
      }
    }
  }

  lemma StaysBehind(head: Bookmark, longer: seq<Bookmark>, rest: seq<Bookmark>, b: Bookmark)
    requires multiset(longer) == multiset(rest) + multiset{b} && Before(head, b)
    requires forall i :: 0 <= i < |rest| ==> Before(head, rest[i])
    ensures forall i :: 0 <= i < |longer| ==> Before(head, longer[i])
  {
    forall i | 0 <= i < |longer| ensures Before(head, longer[i]) {
      assert longer[i] in multiset(longer);
    }
  }

  lemma {:induction false} NewestFirstSorts(rows: seq<Bookmark>)
    requires DistinctIds(rows)
    ensures Sorted(NewestFirst(rows)) && multiset(NewestFirst(rows)) == multiset(rows) && |NewestFirst(rows)| == |rows|
    decreases |rows|
  {
    if |rows| > 0 {
      NewestFirstSorts(rows[1..]);
      var rest := NewestFirst(rows[1..]);
      forall i | 0 <= i < |rest| ensures rest[i].id != rows[0].id {
        assert rest[i] in multiset(rows[1..]);
      }
      InsertSorts(rows[0], rest);
      assert rows == [rows[0]] + rows[1..];
      assert |multiset(NewestFirst(rows))| == |NewestFirst(rows)|;
    }
  }

  // Rows already in order stay as they are.
  lemma {:induction false} SortedStays(rows: seq<Bookmark>)
    requires Sorted(rows)
    ensures NewestFirst(rows) == rows
    decreases |rows|
  {
    if |rows| > 0 {
      SortedStays(rows[1..]);
      assert |rows| > 1 ==> Before(rows[0], rows[1]);
    }
  }

  lemma {:induction false} WhereKeepsDistinct(rows: seq<Bookmark>, wanted: Bookmark -> bool)
    requires DistinctIds(rows)
    ensures DistinctIds(Where(rows, wanted))
    ensures forall b :: b in Where(rows, wanted) <==> b in rows && wanted(b)
    decreases |rows|
  {
    if |rows| > 0 {
      var rest := Where(rows[1..], wanted);
      WhereKeepsDistinct(rows[1..], wanted);
      forall i | 0 <= i < |rest| ensures rest[i].id != rows[0].id {
        assert rest[i] in rows[1..];
      }
    }
  }

  // ---- What the reader is promised ----

  // The newest matches up to the cap.
  function Promised(table: seq<Bookmark>, wanted: Bookmark -> bool, maximum: nat): seq<Bookmark> {
    Limit(NewestFirst(Where(table, wanted)), maximum)
  }

  // The p-th page of a list.
  function Slice(rows: seq<Bookmark>, size: nat, p: nat): seq<Bookmark> {
    if p == 0 then [] else Limit(Offset(rows, (p - 1) * size), size)
  }

  // Pages 1 to n, one after the other.
  function Chain(pages: nat -> seq<Bookmark>, n: nat): seq<Bookmark> {
    if n == 0 then [] else Chain(pages, n - 1) + pages(n)
  }

  lemma {:induction false} ChainsAgree(a: nat -> seq<Bookmark>, b: nat -> seq<Bookmark>, n: nat)
    requires forall k :: 1 <= k <= n ==> a(k) == b(k)
    ensures Chain(a, n) == Chain(b, n)
  {
    if n > 0 { ChainsAgree(a, b, n - 1); }
  }

  function Slices(rows: seq<Bookmark>, size: nat): nat -> seq<Bookmark> {
    (p: nat) => Slice(rows, size, p)
  }

  lemma {:induction false} SlicesAreAPrefix(rows: seq<Bookmark>, size: nat, n: nat)
    ensures Chain(Slices(rows, size), n) == Limit(rows, n * size)
    decreases n
  {
    if n > 0 {
      SlicesAreAPrefix(rows, size, n - 1);
      var start := (n - 1) * size;
      assert n * size == start + size;
      LimitExtends(rows, start, size);
    }
  }

  lemma LimitExtends(rows: seq<Bookmark>, start: nat, size: nat)
    ensures Limit(rows, start) + Limit(Offset(rows, start), size) == Limit(rows, start + size)
  {
  }

  lemma LimitKeepsOrder(rows: seq<Bookmark>, n: nat)
    requires Sorted(rows)
    ensures Sorted(Limit(rows, n))
  {
  }

  lemma FetchIsASlice(rows: seq<Bookmark>, total: nat, page: int, size: nat)
    ensures Fetch(rows, total, page, size) == Ok(Slice(rows, size, ClampPage(page, total, size)))
  {
    assert (ClampPage(page, total, size) - 1) * size >= 0;
  }

  lemma CountsAgree(table: seq<Bookmark>, wanted: Bookmark -> bool)
    requires DistinctIds(table)
    ensures |NewestFirst(Where(table, wanted))| == |Where(table, wanted)|
  {
    WhereKeepsDistinct(table, wanted);
    NewestFirstSorts(Where(table, wanted));
  }

  // Sorting the capped rows once more changes nothing.
  lemma SecondSortIsIdle(table: seq<Bookmark>, wanted: Bookmark -> bool, maximum: nat)
    requires DistinctIds(table)
    ensures NewestFirst(Promised(table, wanted, maximum)) == Promised(table, wanted, maximum)
  {
    WhereKeepsDistinct(table, wanted);
    NewestFirstSorts(Where(table, wanted));
    LimitKeepsOrder(NewestFirst(Where(table, wanted)), maximum);
    SortedStays(Promised(table, wanted, maximum));
  }

  // Each page holds the rows of the page that clamping the requested one gives, out of
  // the promised list, whose length is the total.
  lemma SearchPageIsASlice(table: seq<Bookmark>, wanted: Bookmark -> bool, page: int, size: nat, maximum: nat)
    requires DistinctIds(table) && size >= 1 && maximum >= 1
    ensures var list := Promised(table, wanted, maximum);
            SearchPage(table, wanted, page, size, maximum)
            == Ok(Found(Slice(list, size, ClampPage(page, |list|, size)), |list|, |list| < |Where(table, wanted)|))
  {
    CountsAgree(table, wanted);
    SecondSortIsIdle(table, wanted, maximum);
    FetchIsASlice(Promised(table, wanted, maximum), |Promised(table, wanted, maximum)|, page, size);
  }

  lemma BrowsePageIsASlice(table: seq<Bookmark>, wanted: Bookmark -> bool, page: int, size: nat)
    requires DistinctIds(table) && size >= 1
    ensures var list := NewestFirst(Where(table, wanted));
            BrowsePage(table, wanted, page, size)
                == Ok(Found(Slice(list, size, ClampPage(page, |list|, size)), |list|, false))
  {
    CountsAgree(table, wanted);
    FetchIsASlice(NewestFirst(Where(table, wanted)), |Where(table, wanted)|, page, size);
  }

  function Items(found: Result<Found>): seq<Bookmark> {
    if found.Ok? then found.value.items else []
  }

  function Searched(table: seq<Bookmark>, wanted: Bookmark -> bool, size: int, maximum: int): nat -> seq<Bookmark> {
    (p: nat) => Items(SearchPage(table, wanted, p, size, maximum))
  }

  lemma SearchedIsASlice(table: seq<Bookmark>, wanted: Bookmark -> bool, size: nat, maximum: nat, p: nat)
    requires DistinctIds(table) && size >= 1 && maximum >= 1
    requires 1 <= p <= LastPage(|Promised(table, wanted, maximum)|, size)
    ensures Searched(table, wanted, size, maximum)(p) == Slices(Promised(table, wanted, maximum), size)(p)
  {
    ClampInside(p, |Promised(table, wanted, maximum)|, size);
    SearchPageIsASlice(table, wanted, p, size, maximum);
  }

  // The pages from the first to the last, one after the other, are the newest matches up
  // to the cap, in order and each once; every row that matches is there unless newer ones
  // fill the cap.
  lemma PagesMakeTheList(table: seq<Bookmark>, wanted: Bookmark -> bool, size: nat, maximum: nat)
    requires DistinctIds(table) && size >= 1 && maximum >= 1
    ensures var list := Promised(table, wanted, maximum);
            && Chain(Searched(table, wanted, size, maximum), LastPage(|list|, size)) == list
            && |list| <= maximum
            && (forall i, j :: 0 <= i < j < |list| ==>
                  if list[i].created == list[j].created then list[i].id > list[j].id
                  else list[i].created > list[j].created)
            && (forall b :: b in list ==> b in table && wanted(b))
            && (forall b :: b in table && wanted(b) && b !in list ==>
                  |list| == maximum
                  && forall c :: c in list ==> if c.created == b.created then c.id > b.id else c.created > b.created)
  {
    var matches := Where(table, wanted);
    var all, list := NewestFirst(matches), Promised(table, wanted, maximum);
    WhereKeepsDistinct(table, wanted);
    NewestFirstSorts(matches);
    LimitKeepsOrder(all, maximum);
    AllPagesFit(list, size);
    forall p: nat | 1 <= p <= LastPage(|list|, size)
      ensures Searched(table, wanted, size, maximum)(p) == Slices(list, size)(p)
    {
      SearchedIsASlice(table, wanted, size, maximum, p);
    }
    ChainsAgree(Searched(table, wanted, size, maximum), Slices(list, size), LastPage(|list|, size));
    SlicesAreAPrefix(list, size, LastPage(|list|, size));
    SameElements(all, matches);
    forall b | b in table && wanted(b) && b !in list
      ensures |list| == maximum && forall c :: c in list ==> Before(c, b)
    {
      LeftOutIsOlder(all, maximum, b);
    }
  }

  lemma AllPagesFit(list: seq<Bookmark>, size: nat)
    requires size >= 1
    ensures Limit(list, LastPage(|list|, size) * size) == list
  {
    if |list| > 0 { LastPageFits(|list|, size); }
  }

  lemma SameElements(a: seq<Bookmark>, b: seq<Bookmark>)
    requires multiset(a) == multiset(b)
    ensures forall x :: x in a <==> x in b
  {
    forall x ensures x in a <==> x in b {
      assert x in a <==> x in multiset(a);
      assert x in b <==> x in multiset(b);
    }
  }

  lemma LeftOutIsOlder(all: seq<Bookmark>, maximum: nat, b: Bookmark)
    requires Sorted(all) && b in all && b !in Limit(all, maximum)
    ensures |Limit(all, maximum)| == maximum && forall c :: c in Limit(all, maximum) ==> Before(c, b)
  {
    var i :| 0 <= i < |all| && all[i] == b;
    forall j | 0 <= j < |all| && j < maximum ensures all[j] in Limit(all, maximum) {
      assert Limit(all, maximum)[j] == all[j];
    }
  }

  lemma HeadIsFirst(a: seq<Bookmark>, x: Bookmark)
    requires Sorted(a) && x in a
    ensures x == a[0] || Before(a[0], x)
  {
  }

  lemma TailElements(a: seq<Bookmark>)
    requires |a| > 0
    ensures multiset(a[1..]) == multiset(a) - multiset{a[0]}
  {
    assert a == [a[0]] + a[1..];
  }

  lemma SameHead(a: seq<Bookmark>, b: seq<Bookmark>)
    requires Sorted(a) && Sorted(b) && |a| > 0 && a[0] in b && |b| > 0 && b[0] in a
    ensures a[0] == b[0]
  {
    HeadIsFirst(a, b[0]);
    HeadIsFirst(b, a[0]);
  }

  // The order does not depend on how the table happens to be stored.
  lemma {:induction false} OrderIsDetermined(a: seq<Bookmark>, b: seq<Bookmark>)
    requires Sorted(a) && Sorted(b) && multiset(a) == multiset(b)
    ensures a == b
    decreases |a|
  {
    SameElements(a, b);
    assert |multiset(a)| == |a| && |multiset(b)| == |b|;
    if |a| > 0 {
      assert a[0] in b && b[0] in a;
      SameHead(a, b);
      TailElements(a);
      TailElements(b);
      OrderIsDetermined(a[1..], b[1..]);
      assert a == [a[0]] + a[1..] && b == [b[0]] + b[1..];
    }
  }

  // A cap of zero is told apart: the total still counts every match, but no row comes.
  lemma ZeroCapShowsNothing(table: seq<Bookmark>, wanted: Bookmark -> bool, page: int, size: nat)
    requires DistinctIds(table) && size >= 1
    ensures SearchPage(table, wanted, page, size, 0) == Ok(Found([], |Where(table, wanted)|, false))
    ensures var list := NewestFirst(Where(table, wanted));
            Slice(list, size, ClampPage(page, |list|, size)) == [] <==> list == []
  {
    var list := NewestFirst(Where(table, wanted));
    CountsAgree(table, wanted);
    FetchIsASlice([], |list|, page, size);
    if |list| > 0 { OffsetIsInside(|list|, size, ClampPage(page, |list|, size)); }
  }

  lemma OffsetIsInside(total: nat, size: nat, p: nat)
    requires total > 0 && size >= 1 && 1 <= p <= LastPage(total, size)
    ensures 0 <= (p - 1) * size < total
  {
    LastPageFits(total, size);
    var last := LastPage(total, size);
    assert (last - 1) * size == (p - 1) * size + (last - p) * size;
    assert (last - p) * size >= 0;
  }

  // ---- The search use case ----

  datatype SearchResult = SearchResult(items: seq<Bookmark>, control: Control, total: nat, capped: bool)

  // What someone is shown who asks for a page of this list: the page itself if there is
  // one, else the first or the last; its rows and no others, and the control marks it.
  ghost predicate Shows(list: seq<Bookmark>, requested: int, size: nat, items: seq<Bookmark>, control: Control) {
    var page, last := control.page, control.last;
    && last >= 1 && (|list| == 0 ==> last == 1) && (|list| > 0 ==> (last - 1) * size < |list| <= last * size)
    && page == (if requested < 1 then 1 else if requested > last then last else requested)
    && control.size == size && 1 <= page <= last && control.links == Links(page, last)
    && |items| == (if page * size <= |list| then size else |list| - (page - 1) * size)
    && forall i :: 0 <= i < |items| ==> 0 <= (page - 1) * size + i < |list| && items[i] == list[(page - 1) * size + i]
  }

  lemma SliceShows(list: seq<Bookmark>, requested: int, size: nat, control: Control)
    requires size >= 1 && control.page == ClampPage(requested, |list|, size) && control.size == size
    requires control.last == LastPage(|list|, size) && control.links == Links(control.page, control.last)
    ensures Shows(list, requested, size, Slice(list, size, control.page), control)
  {
    var page := control.page;
    assert page * size == (page - 1) * size + size;
    if |list| > 0 {
      LastPageFits(|list|, size);
      OffsetIsInside(|list|, size, page);
    }
  }

  // The rows shown are those of the requested page, and so is the separately built control;
  // the total is the number of matches, or the cap if there are more.
  method Search(table: seq<Bookmark>, criteria: bool, wanted: Bookmark -> bool, page: int, size: nat, maximum: nat)
    returns (r: Result<SearchResult>)
    requires DistinctIds(table) && size >= 1 && maximum >= 1
    ensures r.Ok? <==> criteria
    ensures r.Ok? ==>
              var list, matches := Promised(table, wanted, maximum), |Where(table, wanted)|;
              && Shows(list, page, size, r.value.items, r.value.control)
              && r.value.total == |list| == (if matches > maximum then maximum else matches)
              && (r.value.capped <==> matches > maximum)
  {
    if !criteria { return Err; }
    SearchPageIsASlice(table, wanted, page, size, maximum);
    CountsAgree(table, wanted);
    var found := SearchPage(table, wanted, page, size, maximum);
    var control := NewPagination(page, found.value.total, size);
    SliceShows(Promised(table, wanted, maximum), page, size, control);
    return Ok(SearchResult(found.value.items, control, found.value.total, found.value.capped));
  }

  // Browsing shows the requested page of all matches.
  method Browse(table: seq<Bookmark>, wanted: Bookmark -> bool, page: int, size: nat)
    returns (items: seq<Bookmark>, control: Control, total: nat)
    requires DistinctIds(table) && size >= 1
    ensures Shows(NewestFirst(Where(table, wanted)), page, size, items, control) && total == |Where(table, wanted)|
  {
    BrowsePageIsASlice(table, wanted, page, size);
    CountsAgree(table, wanted);
    var found := BrowsePage(table, wanted, page, size);
    items, total := found.value.items, found.value.total;
    control := NewPagination(page, total, size);
    SliceShows(NewestFirst(Where(table, wanted)), page, size, control);
  }
}
