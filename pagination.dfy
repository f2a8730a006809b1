/**
 * The board's pagination bar: a "previous" button, one button per page and
 * a "next" button, each reporting the page it leads to.
 */
module Pagination {

  /** A click on the bar. */
  datatype Click = Prev | Next | PageButton(k: int)

  /** The page "previous" reports: one back, but never below page 1. */
  function PrevTarget(p: int): (r: int)
    ensures r >= 1
    ensures p >= 1 ==> r <= p
    ensures p > 1 ==> r == p - 1
    ensures p <= 1 ==> r == 1
  {
    if p - 1 > 1 then p - 1 else 1
  }

  /** The page "next" reports: one ahead, but never past the last page. */
  function NextTarget(p: int, totalPages: int): (r: int)
    ensures r <= totalPages
    ensures p < totalPages ==> r == p + 1
    ensures p >= totalPages ==> r == totalPages
  {
    if totalPages < p + 1 then totalPages else p + 1
  }

  /** The page numbers on the buttons, `Array.from({ length: totalPages }, (_, i) => i + 1)`. */
  function PageNumbers(totalPages: nat): (r: seq<int>)
    ensures |r| == totalPages
    ensures forall i :: 0 <= i < |r| ==> r[i] == i + 1
    ensures forall i, j :: 0 <= i < j < |r| ==> r[i] < r[j]
    ensures forall k :: k in r <==> 1 <= k <= totalPages
  {
    var r := seq(totalPages, i requires 0 <= i < totalPages => i + 1);
    forall k | 1 <= k <= totalPages
      ensures k in r
    {
      assert r[k - 1] == k;
    }
    r
  }

  predicate PrevDisabled(p: int) {
    p == 1
  }

  predicate NextDisabled(p: int, totalPages: int) {
    p == totalPages
  }

  /** The page a click reports to the bar's owner. */
  function Target(click: Click, p: int, totalPages: int): (r: int)
    ensures click.PageButton? ==> r == click.k
    ensures click.Prev? ==> r == PrevTarget(p)
    ensures click.Next? ==> r == NextTarget(p, totalPages)
  {
    match click
    case Prev => PrevTarget(p)
    case Next => NextTarget(p, totalPages)
    case PageButton(k) => k
  }

  /** From a page in range, every click the bar offers reports a page in range. */
  lemma TargetsInRange(click: Click, p: int, totalPages: nat)
    requires 1 <= p <= totalPages
    requires click.PageButton? ==> click.k in PageNumbers(totalPages)
    ensures 1 <= Target(click, p, totalPages) <= totalPages
  {
  }

  /** "Previous" is disabled exactly where clicking it would stay on the same page. */
  lemma PrevDisabledIffStays(p: int)
    ensures PrevDisabled(p) <==> PrevTarget(p) == p
  {
  }

  /** "Next" is disabled exactly where clicking it would stay on the same page. */
  lemma NextDisabledIffStays(p: int, totalPages: int)
    ensures NextDisabled(p, totalPages) <==> NextTarget(p, totalPages) == p
  {
  }
}
