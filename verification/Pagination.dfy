// Page arithmetic and the bounded row of page links.
module Pagination {

  function LastPage(total: int, size: int): (last: int)
    ensures last >= 1
  {
    if total <= 0 || size <= 0 then 1
    else
      var pages := (total + size - 1) / size;
      if pages < 1 then 1 else pages
  }

  // The last page is the first one that reaches the end.
  lemma LastPageFits(total: int, size: int)
    requires total > 0 && size > 0
    ensures (LastPage(total, size) - 1) * size < total <= LastPage(total, size) * size
  {
    var pages, rest := (total + size - 1) / size, (total + size - 1) % size;
    assert pages * size + rest == total + size - 1;
    assert (pages - 1) * size == pages * size - size;
  }

  function ClampPage(requested: int, total: int, size: int): (page: int)
    ensures 1 <= page <= LastPage(total, size)
  {
    var last := LastPage(total, size);
    if requested < 1 then 1 else if requested > last then last else requested
  }

  lemma ClampInside(requested: int, total: int, size: int)
    requires 1 <= requested <= LastPage(total, size)
    ensures ClampPage(requested, total, size) == requested
  {
  }

  // Of all pages there are, the clamped one is nearest to the one requested.
  lemma ClampIsNearest(requested: int, total: int, size: int, p: int)
    requires 1 <= p <= LastPage(total, size)
    ensures Gap(requested, ClampPage(requested, total, size)) <= Gap(requested, p)
    ensures Gap(requested, ClampPage(requested, total, size)) == Gap(requested, p)
            <==> p == ClampPage(requested, total, size)
  {
  }

  function Gap(p: int, q: int): nat {
    if p < q then q - p else p - q
  }

  datatype Link = Number(page: int, current: bool) | Ellipsis

  const SPREAD: int := 2

  datatype Control = Control(page: int, size: int, last: int, links: seq<Link>)

  // ---- The links that a reader may expect ----

  predicate Shown(r: int, page: int, last: int) {
    1 <= r <= last && (r == 1 || r == last || page - 2 <= r <= page + 2)
  }

  function Pages(first: int, final: int, page: int): (links: seq<Link>)
    requires first <= final + 1
    ensures |links| == final + 1 - first
    ensures forall i :: 0 <= i < |links| ==> links[i] == Number(first + i, first + i == page)
    decreases final + 1 - first
  {
    if first > final then [] else Pages(first, final - 1, page) + [Number(final, final == page)]
  }

  function Low(page: int): int { if page - SPREAD < 1 then 1 else page - SPREAD }
  function High(page: int, last: int): int { if page + SPREAD > last then last else page + SPREAD }

  function Front(low: int): seq<Link> {
    if low <= 1 then [] else if low > 2 then [Number(1, false), Ellipsis] else [Number(1, false)]
  }

  function Back(high: int, last: int): seq<Link> {
    if high >= last then [] else if high < last - 1 then [Ellipsis, Number(last, false)] else [Number(last, false)]
  }

  function Links(page: int, last: int): seq<Link>
    requires 1 <= page <= last
  {
    if last <= 1 then [] else Front(Low(page)) + Pages(Low(page), High(page, last), page) + Back(High(page, last), last)
  }

  // Two neighbours: consecutive numbers, or numbers with an ellipsis between them that
  // hides at least one page.
  predicate Continues(links: seq<Link>, i: nat)
    requires i + 1 < |links|
  {
    match links[i]
    case Number(p, _) => links[i + 1].Ellipsis? || links[i + 1].page == p + 1
    case Ellipsis => i > 0 && links[i - 1].Number? && links[i + 1].Number? && links[i - 1].page + 1 < links[i + 1].page
  }

  // ---- The program ----

  lemma Joins(a: seq<Link>, b: seq<Link>, c: seq<Link>)
    ensures a + b + c == a + (b + c)
  {
  }

  method NewPagination(requested: int, total: int, size: int) returns (control: Control)
    ensures control.page == ClampPage(requested, total, size) && control.size == size
            && control.last == LastPage(total, size)
    ensures control.page
            == if requested < 1 then 1 else if requested > control.last then control.last else requested
    ensures control.last >= 1 && (total <= 0 || size <= 0 ==> control.last == 1)
    ensures total > 0 && size > 0 ==> (control.last - 1) * size < total <= control.last * size
    ensures control.links == Links(control.page, control.last)
  {
    var last, page := LastPage(total, size), ClampPage(requested, total, size);
    if total > 0 && size > 0 { LastPageFits(total, size); }
    if last <= 1 { return Control(page, size, last, []); }
    var links := BuildLinks(page, last);
    return Control(page, size, last, links);
  }

  method BuildLinks(page: int, last: int) returns (links: seq<Link>)
    requires 1 <= page <= last && last > 1
    ensures links == Links(page, last)
  {
    var low := page - SPREAD;
    if low < 1 { low := 1; }
    var high := page + SPREAD;
    if high > last { high := last; }
    links := [];
    if low > 1 {
      links := links + [Number(1, false)];
      if low > 2 { links := links + [Ellipsis]; }
    }
    assert links == Front(low);
    links := AppendPages(links, low, high, page);
    links := AppendLast(links, high, last);
  }

  method AppendPages(front: seq<Link>, low: int, high: int, page: int) returns (links: seq<Link>)
    requires low <= high
    ensures links == front + Pages(low, high, page)
  {
    links := front;
    var value := low;
    while value <= high
      invariant low <= value <= high + 1
      invariant links == front + Pages(low, value - 1, page)
    {
      Joins(front, Pages(low, value - 1, page), [Number(value, value == page)]);
      links := links + [Number(value, value == page)];
      value := value + 1;
    }
  }

  method AppendLast(front: seq<Link>, high: int, last: int) returns (links: seq<Link>)
    ensures links == front + Back(high, last)
  {
    links := front;
    if high < last {
      if high < last - 1 {
        Joins(front, [Ellipsis], [Number(last, false)]);
        links := links + [Ellipsis];
      }
      links := links + [Number(last, false)];
    }
  }

  // ---- What the links are like ----

  lemma LinksAreBounded(page: int, last: int)
    requires 1 <= page <= last
    ensures |Links(page, last)| <= 9 && (Links(page, last) == [] <==> last <= 1)
  {
  }

  // From page 1 to the last page without gaps except under an ellipsis.
  lemma LinksContinue(page: int, last: int, i: nat)
    requires 1 <= page <= last && last > 1
    ensures var links := Links(page, last);
            && links[0].Number? && links[0].page == 1
            && links[|links| - 1].Number? && links[|links| - 1].page == last
            && (i + 1 < |links| ==> Continues(links, i))
  {
  }

  // Exactly the pages to be shown have a link, and the link of the page itself is the
  // only current one.
  lemma LinksShow(page: int, last: int, r: int)
    requires 1 <= page <= last && last > 1
    ensures (exists i :: 0 <= i < |Links(page, last)| && Links(page, last)[i].Number? && Links(page, last)[i].page == r)
            <==> Shown(r, page, last)
    ensures forall i :: 0 <= i < |Links(page, last)| && Links(page, last)[i].Number? ==>
              (Links(page, last)[i].current <==> Links(page, last)[i].page == page)
  {
    var links, low, high := Links(page, last), Low(page), High(page, last);
    if Shown(r, page, last) {
      var i := if r < low then 0 else if r <= high then |Front(low)| + r - low else |links| - 1;
      assert links[i].Number? && links[i].page == r;
    }
  }

  lemma LinksIncrease(page: int, last: int, i: nat, j: nat)
    requires 1 <= page <= last && i < j < |Links(page, last)|
    requires Links(page, last)[i].Number? && Links(page, last)[j].Number?
    ensures Links(page, last)[i].page < Links(page, last)[j].page
  {
  }

  // ---- Getting from page to page ----

  // q can be reached from p with at most n clicks.
  ghost predicate Reach(p: int, q: int, last: int, n: nat)
    decreases n
  {
    p == q || (n > 0 && exists r :: Shown(r, p, last) && Reach(r, q, last, n - 1))
  }

  function Half(d: nat): nat { (d + 1) / 2 }

  function Least(a: nat, b: nat): nat { if a < b then a else b }

  // Step by step, or from either end.
  function Distance(p: int, q: int, last: int): nat {
    Least(Half(Gap(p, q)), 1 + Least(Half(Gap(1, q)), Half(Gap(last, q))))
  }

  lemma ClickCoversDistance(p: int, r: int, q: int, last: int)
    requires Shown(r, p, last)
    ensures Distance(p, q, last) <= 1 + Distance(r, q, last)
  {
  }

  // Distance is exactly the number of clicks needed, so never more than half the gap.
  lemma {:induction false} ReachExactly(p: int, q: int, last: int, n: nat)
    requires 1 <= p <= last && 1 <= q <= last
    ensures Reach(p, q, last, n) <==> Distance(p, q, last) <= n
    ensures Distance(p, q, last) <= Half(Gap(p, q))
    decreases n
  {
    if p != q && n > 0 {
      forall r | Shown(r, p, last) ensures Reach(r, q, last, n - 1) <==> Distance(r, q, last) <= n - 1 {
        ReachExactly(r, q, last, n - 1);
        ClickCoversDistance(p, r, q, last);
      }
      if Reach(p, q, last, n) {
        var r :| Shown(r, p, last) && Reach(r, q, last, n - 1);
        ClickCoversDistance(p, r, q, last);
      }
      if Distance(p, q, last) <= n {
        var step := if Gap(p, q) <= SPREAD then q else if p < q then p + SPREAD else p - SPREAD;
        var r := if Half(Gap(p, q)) <= n then step else if Half(Gap(1, q)) < n then 1 else last;
        assert Shown(r, p, last) && Distance(r, q, last) <= n - 1;
      }
    }
  }
}
