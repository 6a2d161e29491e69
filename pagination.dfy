/**
 * The pagination hook (hooks/usePagination.ts): the page count and the
 * current page's slice of the data are derived values; the current page
 * is state that `nextPage`, `prevPage` and `goToPage` set.
 */
module Pagination {

  function Min(a: int, b: int): int { if a <= b then a else b }
  function Max(a: int, b: int): int { if a >= b then a else b }

  lemma MulMonotone(a: int, b: int, k: int)
    requires a <= b && k >= 0
    ensures a * k <= b * k
  {
    assert b * k - a * k == (b - a) * k;
  }

  /** `Math.ceil(length / itemsPerPage)`. */
  function PageCount(length: nat, itemsPerPage: int): (r: nat)
    requires itemsPerPage >= 1
    ensures r * itemsPerPage >= length
    ensures r > 0 ==> (r - 1) * itemsPerPage < length
    ensures r == 0 <==> length == 0
  {
    (length + itemsPerPage - 1) / itemsPerPage
  }

  /** `data.slice(start, start + count)`, indices clipped to the data. */
  function Slice<T>(data: seq<T>, start: nat, count: nat): (r: seq<T>)
    ensures |r| <= count
    ensures r == [] || start + |r| <= |data|
    ensures forall j :: 0 <= j < |r| ==> r[j] == data[start + j]
  {
    data[Min(start, |data|)..Min(start + count, |data|)]
  }

  /** `data.slice((page - 1) * k, (page - 1) * k + k)`. */
  function Page<T>(data: seq<T>, page: int, itemsPerPage: int): (r: seq<T>)
    requires page >= 1 && itemsPerPage >= 1
    ensures |r| <= itemsPerPage
    ensures r == [] || (page - 1) * itemsPerPage + |r| <= |data|
    ensures forall j :: 0 <= j < |r| ==> r[j] == data[(page - 1) * itemsPerPage + j]
  {
    MulMonotone(0, page - 1, itemsPerPage);
    Slice(data, (page - 1) * itemsPerPage, itemsPerPage)
  }

  /** Pages 1 to `n`, one after the other. */
  function FirstPages<T>(data: seq<T>, itemsPerPage: int, n: nat): seq<T>
    requires itemsPerPage >= 1
  {
    if n == 0 then [] else FirstPages(data, itemsPerPage, n - 1) + Page(data, n, itemsPerPage)
  }

  lemma {:induction false} FirstPagesArePrefix<T>(data: seq<T>, itemsPerPage: int, n: nat)
    requires itemsPerPage >= 1
    ensures FirstPages(data, itemsPerPage, n) == data[..Min(n * itemsPerPage, |data|)]
  {
    if n > 0 {
      FirstPagesArePrefix(data, itemsPerPage, n - 1);
      MulMonotone(0, n - 1, itemsPerPage);
      assert n * itemsPerPage == (n - 1) * itemsPerPage + itemsPerPage;
      var a := Min((n - 1) * itemsPerPage, |data|);
      var b := Min(n * itemsPerPage, |data|);
      assert data[..a] + data[a..b] == data[..b];
    }
  }

  /** Reading every page in turn gives back the data. */
  lemma PagesMakeUpData<T>(data: seq<T>, itemsPerPage: int)
    requires itemsPerPage >= 1
    ensures FirstPages(data, itemsPerPage, PageCount(|data|, itemsPerPage)) == data
  {
    FirstPagesArePrefix(data, itemsPerPage, PageCount(|data|, itemsPerPage));
  }

  /** Item `q * k + r` (with `r < k`) sits on page `q + 1`, at position `r`. */
  lemma ItemAt<T>(data: seq<T>, k: int, q: nat, r: nat)
    requires k >= 1 && r < k && q * k + r < |data|
    ensures var p := Page(data, q + 1, k);
      r < |p| && p[r] == data[q * k + r] && q + 1 <= PageCount(|data|, k)
  {
    var start := q * k;
    assert (q + 1 - 1) * k == start;
    var n := PageCount(|data|, k);
    if n <= q {
      MulMonotone(n, q, k);
    }
  }

  /** Item `i` sits on page `i / k + 1`, at position `i % k`. */
  lemma ItemOnItsPage<T>(data: seq<T>, itemsPerPage: int, i: int)
    requires itemsPerPage >= 1 && 0 <= i < |data|
    ensures var p := Page(data, i / itemsPerPage + 1, itemsPerPage);
      i % itemsPerPage < |p| && p[i % itemsPerPage] == data[i]
      && i / itemsPerPage + 1 <= PageCount(|data|, itemsPerPage)
  {
    var q, r := i / itemsPerPage, i % itemsPerPage;
    assert q * itemsPerPage + r == i;
    ItemAt(data, itemsPerPage, q, r);
  }

  /** Every page before the last is full, and a page past the last is empty. */
  lemma PageSizes<T>(data: seq<T>, itemsPerPage: int, page: int)
    requires itemsPerPage >= 1 && page >= 1
    ensures page < PageCount(|data|, itemsPerPage) ==> |Page(data, page, itemsPerPage)| == itemsPerPage
    ensures page > PageCount(|data|, itemsPerPage) ==> Page(data, page, itemsPerPage) == []
  {
    var n := PageCount(|data|, itemsPerPage);
    if page < n {
      MulMonotone(page, n - 1, itemsPerPage);
      assert page * itemsPerPage == (page - 1) * itemsPerPage + itemsPerPage;
    }
    if page > n {
      MulMonotone(n, page - 1, itemsPerPage);
    }
  }

  /** The hook's state for one `data` and `itemsPerPage`. */
  class Paginator<T> {
    var data: seq<T>
    var itemsPerPage: int
    var currentPage: int

    ghost predicate Valid()
      reads this
    {
      itemsPerPage >= 1 && currentPage >= 1
    }

    /** The current page starts at 1. */
    constructor (data: seq<T>, itemsPerPage: int)
      requires itemsPerPage >= 1
      ensures Valid()
      ensures this.data == data && this.itemsPerPage == itemsPerPage && currentPage == 1
    {
      this.data := data;
      this.itemsPerPage := itemsPerPage;
      currentPage := 1;
    }

    function TotalPages(): nat
      reads this
      requires Valid()
    {
      PageCount(|data|, itemsPerPage)
    }

    function PaginatedData(): seq<T>
      reads this
      requires Valid()
    {
      Page(data, currentPage, itemsPerPage)
    }

    /** Moves forward only when a later page exists. */
    method NextPage()
      requires Valid()
      modifies this
      ensures Valid()
      ensures data == old(data) && itemsPerPage == old(itemsPerPage)
      ensures old(currentPage) < old(TotalPages()) ==> currentPage == old(currentPage) + 1
      ensures old(currentPage) >= old(TotalPages()) ==> currentPage == old(currentPage)
    {
      if currentPage < PageCount(|data|, itemsPerPage) {
        currentPage := currentPage + 1;
      }
    }

    /** Moves back only from a page after the first. */
    method PrevPage()
      requires Valid()
      modifies this
      ensures Valid()
      ensures data == old(data) && itemsPerPage == old(itemsPerPage)
      ensures old(currentPage) > 1 ==> currentPage == old(currentPage) - 1
      ensures old(currentPage) <= 1 ==> currentPage == old(currentPage)
    {
      if currentPage > 1 {
        currentPage := currentPage - 1;
      }
    }

    /** `Math.max(1, Math.min(page, totalPages))`: the nearest existing page, or 1 when there are none. */
    method GoToPage(page: int)
      requires Valid()
      modifies this
      ensures Valid()
      ensures data == old(data) && itemsPerPage == old(itemsPerPage)
      ensures currentPage == Max(1, Min(page, TotalPages()))
      ensures TotalPages() > 0 ==> 1 <= currentPage <= TotalPages()
      ensures 1 <= page <= TotalPages() ==> currentPage == page
      ensures TotalPages() == 0 ==> currentPage == 1
    {
      var pageNumber := Max(1, Min(page, PageCount(|data|, itemsPerPage)));
      currentPage := pageNumber;
    }

    /** New `data` props: the current page is kept, even past the new last page. */
    method SetData(newData: seq<T>)
      requires Valid()
      modifies this
      ensures Valid()
      ensures data == newData && itemsPerPage == old(itemsPerPage) && currentPage == old(currentPage)
    {
      data := newData;
    }
  }
}
