/**
  The inventory table: every item is graded by how far its quantity exceeds
  its threshold, the list is narrowed by a name search and a grade filter,
  and the result is shown five rows per page with previous/next controls.
 */
module InventoryTable {
  import opened Seqs
  import opened Text

  datatype InventoryItem = InventoryItem(id: int, name: string, quantity: int, threshold: int)

  datatype SurplusGrade = High | Medium | Normal

  const ItemsPerPage: nat := 5

  /**
    High when the surplus exceeds half the threshold (`2 * surplus > threshold`
    is the source's `surplus > threshold * 0.5` without fractions), else
    medium when there is any surplus, else normal.
   */
  function GetSurplusStatus(quantity: int, threshold: int): SurplusGrade
  {
    var surplus := quantity - threshold;
    if 2 * surplus > threshold then High
    else if surplus > 0 then Medium
    else Normal
  }

  /** The Redistribute button of a row is enabled. */
  predicate HasSurplus(item: InventoryItem)
  {
    GetSurplusStatus(item.quantity, item.threshold) != Normal
  }

  predicate MatchesSearch(item: InventoryItem, searchTerm: string)
  {
    ContainsIgnoringCase(item.name, searchTerm)
  }

  /** The row filter: `'surplus'` and `'normal'` narrow by grade, any other value keeps every match. */
  predicate Keep(item: InventoryItem, searchTerm: string, statusFilter: string)
  {
    if statusFilter == "surplus" then MatchesSearch(item, searchTerm) && HasSurplus(item)
    else if statusFilter == "normal" then MatchesSearch(item, searchTerm) && !HasSurplus(item)
    else MatchesSearch(item, searchTerm)
  }

  function Keeper(searchTerm: string, statusFilter: string): InventoryItem -> bool
  {
    item => Keep(item, searchTerm, statusFilter)
  }

  function FilteredData(data: seq<InventoryItem>, searchTerm: string, statusFilter: string): seq<InventoryItem>
  {
    Filter(data, Keeper(searchTerm, statusFilter))
  }

  /** `Math.ceil(n / 5)`. */
  function TotalPages(n: nat): (pages: nat)
    ensures pages * ItemsPerPage >= n
    ensures pages == 0 || (pages - 1) * ItemsPerPage < n
  {
    (n + ItemsPerPage - 1) / ItemsPerPage
  }

  function StartIndex(currentPage: int): int
  {
    (currentPage - 1) * ItemsPerPage
  }

  /** A relative index of `Array.prototype.slice`: negative counts from the end, then clamped to the array. */
  function SliceIndex(k: int, n: nat): (r: nat)
    ensures r <= n
  {
    if k < 0 then (if n + k < 0 then 0 else n + k) else if k > n then n else k
  }

  /** `s.slice(start, end)`: the elements from `start` up to, not including, `end`. */
  function JsSlice<T>(s: seq<T>, start: int, end: int): seq<T>
  {
    var from := SliceIndex(start, |s|);
    var to := SliceIndex(end, |s|);
    if from < to then s[from..to] else []
  }

  function PaginatedData<T>(s: seq<T>, currentPage: int): seq<T>
  {
    JsSlice(s, StartIndex(currentPage), StartIndex(currentPage) + ItemsPerPage)
  }

  /** The Previous control: one page back, never below page 1. */
  function PreviousPage(currentPage: int): int
  {
    if currentPage - 1 > 1 then currentPage - 1 else 1
  }

  /** The Next control: one page on, never beyond the last page. */
  function NextPage(currentPage: int, totalPages: int): int
  {
    if currentPage + 1 < totalPages then currentPage + 1 else totalPages
  }

  /** The footer's "Showing `from` to `to` of `n` items". */
  function FooterFrom(currentPage: int): int
  {
    StartIndex(currentPage) + 1
  }

  function FooterTo(currentPage: int, n: nat): int
  {
    var end := StartIndex(currentPage) + ItemsPerPage;
    if end < n then end else n
  }

  // ---- the grades ----

  /**
    The integer grading agrees with the source's test on numbers:
    High iff `surplus > threshold * 0.5`, otherwise Medium iff `surplus > 0`,
    otherwise Normal.
   */
  lemma HighGrade(quantity: int, threshold: int)
    ensures GetSurplusStatus(quantity, threshold) == High <==>
              (quantity - threshold) as real > (threshold as real) * 0.5
    ensures GetSurplusStatus(quantity, threshold) == Medium <==>
              !((quantity - threshold) as real > (threshold as real) * 0.5) && quantity - threshold > 0
    ensures GetSurplusStatus(quantity, threshold) == Normal <==>
              !((quantity - threshold) as real > (threshold as real) * 0.5) && quantity - threshold <= 0
  {
  }

  /**
    For a non-negative threshold the grades are ordered by quantity: normal
    exactly up to the threshold, medium above it up to one and a half times
    it, high beyond.
   */
  lemma GradesByQuantity(quantity: int, threshold: int)
    requires threshold >= 0
    ensures GetSurplusStatus(quantity, threshold) == Normal <==> quantity <= threshold
    ensures GetSurplusStatus(quantity, threshold) == Medium <==>
              threshold < quantity && 2 * (quantity - threshold) <= threshold
    ensures HasSurplus(InventoryItem(0, "", quantity, threshold)) <==> quantity > threshold
  {
  }

  /** A negative threshold can give a high grade to a quantity below it. */
  lemma NegativeThresholdHighBelowThreshold()
    ensures GetSurplusStatus(-12, -10) == High
  {
  }

  // ---- the filter ----

  /** An item is listed iff it matches the search and the grade filter. */
  lemma FilteredDataMembers(data: seq<InventoryItem>, searchTerm: string, statusFilter: string, item: InventoryItem)
    ensures item in FilteredData(data, searchTerm, statusFilter) <==> item in data && Keep(item, searchTerm, statusFilter)
    ensures IsSubsequence(FilteredData(data, searchTerm, statusFilter), data)
  {
    FilterIsSubsequence(data, Keeper(searchTerm, statusFilter));
    if item in data && Keep(item, searchTerm, statusFilter) {
      var i :| 0 <= i < |data| && data[i] == item;
    }
    var r := FilteredData(data, searchTerm, statusFilter);
    if item in r {
      var i :| 0 <= i < |r| && r[i] == item;
    }
  }

  /**
    The `'surplus'` and `'normal'` views have no item in common and together
    are as long as the unfiltered view: every match is in exactly one of them.
   */
  lemma SurplusAndNormalPartitionAll(data: seq<InventoryItem>, searchTerm: string, statusFilter: string)
    requires statusFilter != "surplus" && statusFilter != "normal"
    ensures |FilteredData(data, searchTerm, "surplus")| + |FilteredData(data, searchTerm, "normal")| ==
            |FilteredData(data, searchTerm, statusFilter)|
    ensures forall x :: x in FilteredData(data, searchTerm, "surplus") ==> x !in FilteredData(data, searchTerm, "normal")
  {
    FilterSplit(data, Keeper(searchTerm, statusFilter), HasSurplus,
      Keeper(searchTerm, "surplus"), Keeper(searchTerm, "normal"));
    forall x | x in FilteredData(data, searchTerm, "surplus")
      ensures x !in FilteredData(data, searchTerm, "normal")
    {
      FilteredDataMembers(data, searchTerm, "surplus", x);
      FilteredDataMembers(data, searchTerm, "normal", x);
    }
  }

  /** With no search term and no grade filter, every item is listed in order. */
  lemma UnfilteredShowsAll(data: seq<InventoryItem>)
    ensures FilteredData(data, "", "all") == data
  {
    forall i | 0 <= i < |data| ensures Keeper("", "all")(data[i]) {
      EmptyIsEverywhere(data[i].name);
    }
    FilterAllPass(data, Keeper("", "all"));
  }

  // ---- pagination ----

  /** A page in range is the next run of at most five items, from its start index. */
  lemma PageIsContiguousSlice<T>(s: seq<T>, currentPage: int)
    requires 1 <= currentPage
    ensures var start := StartIndex(currentPage);
            var end := if start + ItemsPerPage < |s| then start + ItemsPerPage else |s|;
            PaginatedData(s, currentPage) == (if start < |s| then s[start..end] else [])
    ensures |PaginatedData(s, currentPage)| <= ItemsPerPage
    ensures PaginatedData(s, currentPage) != [] <==> currentPage <= TotalPages(|s|)
  {
  }

  /** The pages 1 to `k`, one after the other. */
  function PagesUpTo<T>(s: seq<T>, k: nat): seq<T>
    decreases k
  {
    if k == 0 then [] else PagesUpTo(s, k - 1) + PaginatedData(s, k)
  }

  /** Reading pages 1 to `k` in turn reads the list up to position `5k`: no item is skipped or shown twice. */
  lemma {:induction false} PagesUpToIsPrefix<T>(s: seq<T>, k: nat)
    ensures PagesUpTo(s, k) == s[..Clamp(k * ItemsPerPage, |s|)]
    decreases k
  {
    if k > 0 {
      PagesUpToIsPrefix(s, k - 1);
      var a := Clamp((k - 1) * ItemsPerPage, |s|);
      var b := Clamp(k * ItemsPerPage, |s|);
      PageBetween(s, k);
      assert PagesUpTo(s, k) == s[..a] + s[a..b];
      assert s[..a] + s[a..b] == s[..b];
    }
  }

  function Clamp(i: int, n: nat): int
  {
    if i < n then i else n
  }

  /** Page `k` is the run between the clamped ends of pages `k - 1` and `k`. */
  lemma PageBetween<T>(s: seq<T>, k: nat)
    requires k > 0
    ensures 0 <= Clamp((k - 1) * ItemsPerPage, |s|) <= Clamp(k * ItemsPerPage, |s|) <= |s|
    ensures PaginatedData(s, k) == s[Clamp((k - 1) * ItemsPerPage, |s|)..Clamp(k * ItemsPerPage, |s|)]
  {
    PageIsContiguousSlice(s, k);
  }

  /** All the pages together are the whole filtered list, in order. */
  lemma PagesCoverList<T>(s: seq<T>)
    ensures PagesUpTo(s, TotalPages(|s|)) == s
  {
    PagesUpToIsPrefix(s, TotalPages(|s|));
  }

  /** Previous never leaves page 1 behind and undoes Next; Next never passes the last page and undoes Previous. */
  lemma PageControls(currentPage: int, totalPages: int)
    ensures PreviousPage(currentPage) >= 1
    ensures NextPage(currentPage, totalPages) <= totalPages
    ensures 1 <= currentPage < totalPages ==> PreviousPage(NextPage(currentPage, totalPages)) == currentPage
    ensures 1 < currentPage <= totalPages ==> NextPage(PreviousPage(currentPage), totalPages) == currentPage
  {
  }

  /**
    The footer range is well-formed exactly when the current page is one of
    the pages: then it counts the rows on the page. A page left beyond the
    last one (the filter shrank the list) shows an inverted range.
   */
  lemma FooterCountsPage<T>(s: seq<T>, currentPage: int)
    requires 1 <= currentPage
    ensures FooterFrom(currentPage) <= FooterTo(currentPage, |s|) <==> currentPage <= TotalPages(|s|)
    ensures currentPage <= TotalPages(|s|) ==>
              FooterTo(currentPage, |s|) - FooterFrom(currentPage) + 1 == |PaginatedData(s, currentPage)|
  {
    PageIsContiguousSlice(s, currentPage);
  }

  /** The table's state: the fixed data, the two filter inputs and the current page. */
  class InventoryTableState {
    const data: seq<InventoryItem>
    var searchTerm: string
    var statusFilter: string
    var currentPage: int

    constructor (data: seq<InventoryItem>)
      ensures this.data == data
      ensures searchTerm == "" && statusFilter == "all" && currentPage == 1
      ensures Valid()
    {
      this.data := data;
      searchTerm := "";
      statusFilter := "all";
      currentPage := 1;
    }

    /** Every handler keeps the current page at 1 or above. */
    predicate Valid()
      reads this
    {
      currentPage >= 1
    }

    function Filtered(): seq<InventoryItem>
      reads this
    {
      FilteredData(data, searchTerm, statusFilter)
    }

    function Page(): seq<InventoryItem>
      reads this
    {
      PaginatedData(Filtered(), currentPage)
    }

    /** The pagination bar, with Previous, the page links and Next, is rendered only for more than one page. */
    predicate ControlsShown()
      reads this
    {
      TotalPages(|Filtered()|) > 1
    }

    /** Typing in the search box; the current page is kept, even past the new last page. */
    method SetSearchTerm(term: string)
      requires Valid()
      modifies this
      ensures Valid()
      ensures searchTerm == term
      ensures statusFilter == old(statusFilter) && currentPage == old(currentPage)
    {
      searchTerm := term;
    }

    /** Choosing a grade filter; the current page is kept. */
    method SetStatusFilter(filter: string)
      requires Valid()
      modifies this
      ensures Valid()
      ensures statusFilter == filter
      ensures searchTerm == old(searchTerm) && currentPage == old(currentPage)
    {
      statusFilter := filter;
    }

    method Previous()
      requires Valid() && ControlsShown()
      modifies this
      ensures Valid()
      ensures currentPage == PreviousPage(old(currentPage))
      ensures currentPage < old(currentPage) || currentPage == old(currentPage) == 1
      ensures searchTerm == old(searchTerm) && statusFilter == old(statusFilter)
    {
      currentPage := if currentPage - 1 > 1 then currentPage - 1 else 1;
    }

    method Next()
      requires Valid() && ControlsShown()
      modifies this
      ensures Valid()
      ensures currentPage == NextPage(old(currentPage), TotalPages(|Filtered()|))
      ensures currentPage <= TotalPages(|Filtered()|)
      ensures searchTerm == old(searchTerm) && statusFilter == old(statusFilter)
    {
      var totalPages := TotalPages(|Filtered()|);
      currentPage := if currentPage + 1 < totalPages then currentPage + 1 else totalPages;
    }

    /** Clicking one of the page links, which run over 1 to the page count. */
    method GoToPage(page: int)
      requires Valid() && ControlsShown()
      requires 1 <= page <= TotalPages(|Filtered()|)
      modifies this
      ensures Valid()
      ensures currentPage == page
      ensures Page() != []
      ensures searchTerm == old(searchTerm) && statusFilter == old(statusFilter)
    {
      currentPage := page;
      PageIsContiguousSlice(Filtered(), page);
    }
  }
}
