/** The expense list page: which ten expenses are shown, how many pages
    there are, and how the Previous and Next buttons move between them. */
module Paging {
  import opened Common
  import opened Models

  const ItemsPerPage: int := 10

  function Min(a: int, b: int): int { if a <= b then a else b }

  function Max(a: int, b: int): int { if a >= b then a else b }

  /** `Math.ceil(n / itemsPerPage)`. */
  function TotalPages(n: nat): (r: nat)
    ensures r == 0 <==> n == 0
    ensures n > 0 ==> (r - 1) * ItemsPerPage < n <= r * ItemsPerPage
  {
    (n + ItemsPerPage - 1) / ItemsPerPage
  }

  /** `Array.prototype.slice(start, end)`: a negative bound counts from the
      end, bounds are clamped to the array, and crossed bounds give []. */
  function JsSlice<T>(a: seq<T>, start: int, end: int): (r: seq<T>)
    ensures 0 <= start <= end <= |a| ==> r == a[start..end]
    ensures 0 <= end <= start ==> r == []
    ensures forall x :: x in r ==> x in a
  {
    var lo := if start < 0 then Max(|a| + start, 0) else Min(start, |a|);
    var hi := if end < 0 then Max(|a| + end, 0) else Min(end, |a|);
    if lo < hi then a[lo..hi] else []
  }

  /** `expenses.slice(indexOfFirstItem, indexOfLastItem)` for page `page`. */
  function PageItems<T>(items: seq<T>, page: int): (r: seq<T>)
    ensures page >= 1 ==> |r| <= ItemsPerPage
    ensures page >= 1 && (page - 1) * ItemsPerPage <= |items| ==>
              r == items[(page - 1) * ItemsPerPage..Min(page * ItemsPerPage, |items|)]
    ensures page >= 1 && (page - 1) * ItemsPerPage >= |items| ==> r == []
    ensures forall x :: x in r ==> x in items
  {
    JsSlice(items, page * ItemsPerPage - ItemsPerPage, page * ItemsPerPage)
  }

  /** Pages 1 to `k`, one after the other. */
  function FirstPages<T>(items: seq<T>, k: nat): seq<T> {
    if k == 0 then [] else FirstPages(items, k - 1) + PageItems(items, k)
  }

  /** The pages, read in order, give back the list: nothing is skipped or
      shown twice. */
  lemma {:induction false} PagesCoverList<T>(items: seq<T>, k: nat)
    ensures FirstPages(items, k) == items[..Min(k * ItemsPerPage, |items|)]
  {
    if k > 0 {
      PagesCoverList(items, k - 1);
      if (k - 1) * ItemsPerPage <= |items| {
        var a := Min((k - 1) * ItemsPerPage, |items|);
        assert items[..Min(k * ItemsPerPage, |items|)] == items[..a] + items[a..Min(k * ItemsPerPage, |items|)];
      }
    }
  }

  lemma AllPagesAreTheList<T>(items: seq<T>)
    ensures FirstPages(items, TotalPages(|items|)) == items
  {
    PagesCoverList(items, TotalPages(|items|));
  }

  /** "Showing `from` to `to` of `n` entries". */
  datatype RangeLabel = RangeLabel(from: int, to: int, total: nat)

  function Label(page: int, n: nat): RangeLabel {
    RangeLabel((page - 1) * ItemsPerPage + 1, Min(page * ItemsPerPage, n), n)
  }

  /** On a page that exists, the label counts exactly the expenses shown,
      and names their positions counted from 1. */
  lemma LabelMatchesPage<T>(items: seq<T>, page: int)
    requires 1 <= page <= TotalPages(|items|)
    ensures var l := Label(page, |items|);
            1 <= l.from <= l.to <= |items|
            && l.to - l.from + 1 == |PageItems(items, page)|
            && PageItems(items, page) == items[l.from - 1..l.to]
  {
  }

  /** The component's list and page number. */
  class ExpenseList {
    var expenses: seq<Expense>
    var currentPage: int

    /** The page is one of the list's pages, or page 1 of an empty list. */
    ghost predicate Valid()
      reads this
    {
      1 <= currentPage <= Max(TotalPages(|expenses|), 1)
    }

    constructor ()
      ensures Valid()
      ensures expenses == [] && currentPage == 1
    {
      expenses, currentPage := [], 1;
    }

    /** The rows shown (`currentExpenses`). */
    function CurrentExpenses(): (r: seq<Expense>)
      reads this
      ensures Valid() ==> |r| <= ItemsPerPage
      ensures Valid() && expenses != [] ==> r != [] && forall e :: e in r ==> e in expenses
    {
      PageItems(expenses, currentPage)
    }

    /** fetchExpenses: a successful fetch replaces the list and goes back to page 1. */
    method FetchExpenses(result: Option<seq<Expense>>)
      modifies this
      ensures result.Some? ==> expenses == result.value && currentPage == 1
      ensures result.None? ==> expenses == old(expenses) && currentPage == old(currentPage)
      ensures old(Valid()) ==> Valid()
    {
      if result.Some? {
        expenses := result.value;
        currentPage := 1;
      }
    }

    /** nextPage: one page on, but not past the last. */
    method NextPage()
      modifies this
      ensures currentPage == Min(old(currentPage) + 1, TotalPages(|expenses|))
      ensures expenses == old(expenses)
      ensures old(Valid()) && expenses != [] ==> Valid() && currentPage >= old(currentPage)
    {
      currentPage := Min(currentPage + 1, TotalPages(|expenses|));
    }

    /** prevPage: one page back, but not before the first. */
    method PrevPage()
      modifies this
      ensures currentPage == Max(old(currentPage) - 1, 1)
      ensures expenses == old(expenses)
      ensures old(Valid()) ==> Valid() && currentPage <= old(currentPage)
    {
      currentPage := Max(currentPage - 1, 1);
    }
  }
}
