/**
 * The issue list's search, filter and pagination pipeline
 * (src/components/Issues/IssueList.tsx): the fetched issues are filtered by a
 * case-insensitive search on title or description and by exact status and priority
 * filters (each of which may be "All"), then cut into pages of five.
 */
module IssueList {
  import opened Types
  import opened Http

  /** The fixed page size. */
  const ItemsPerPage := 5

  /** The filter value that lets every status or priority through. */
  const AllOption := "All"

  /** The three filter inputs: the search text and the status and priority selections. */
  datatype Filters = Filters(query: string, status: string, priority: string)

  /** The filters as the view starts: no search text, every status, every priority. */
  const NoFilters := Filters("", AllOption, AllOption)

  function Min(a: int, b: int): int
  {
    if a <= b then a else b
  }

  // ----- Case-insensitive search -----

  /** Lower-casing of one character, for the ASCII letters only. */
  function LowerChar(c: char): char
  {
    if 'A' <= c <= 'Z' then (c as int + 32) as char else c
  }

  /** `toLowerCase`, character by character. */
  function Lower(s: string): (r: string)
    ensures |r| == |s|
    ensures forall i :: 0 <= i < |s| ==> r[i] == LowerChar(s[i])
  {
    seq(|s|, i requires 0 <= i < |s| => LowerChar(s[i]))
  }

  /** `needle` occurs in `hay` starting at position `i`. */
  ghost predicate OccursAt(hay: string, needle: string, i: int)
  {
    0 <= i && i + |needle| <= |hay| && hay[i..i + |needle|] == needle
  }

  /** `hay.includes(needle)`: try each starting position from the left. */
  function Includes(hay: string, needle: string): (found: bool)
    ensures found ==> |needle| <= |hay|
    ensures needle == [] ==> found
    decreases |hay|
  {
    if |needle| > |hay| then false
    else if hay[..|needle|] == needle then true
    else Includes(hay[1..], needle)
  }

  /** `Includes` holds exactly when the needle occurs somewhere in the haystack. */
  lemma {:induction false} IncludesIffOccurs(hay: string, needle: string)
    ensures Includes(hay, needle) <==> exists i :: OccursAt(hay, needle, i)
    decreases |hay|
  {
    if |needle| > |hay| {
    } else if hay[..|needle|] == needle {
      assert OccursAt(hay, needle, 0);
    } else {
      IncludesIffOccurs(hay[1..], needle);
      if i :| OccursAt(hay[1..], needle, i) {
        assert hay[i + 1..i + 1 + |needle|] == hay[1..][i..i + |needle|];
        assert OccursAt(hay, needle, i + 1);
      }
      if i :| OccursAt(hay, needle, i) {
        assert i != 0;
        assert hay[1..][i - 1..i - 1 + |needle|] == hay[i..i + |needle|];
        assert OccursAt(hay[1..], needle, i - 1);
      }
    }
  }

  /** The empty search text occurs in every string. */
  lemma IncludesEmpty(hay: string)
    ensures Includes(hay, "")
  {
    assert hay[..0] == "";
  }

  // ----- The filter -----

  predicate MatchesSearch(issue: Issue, query: string)
  {
    Includes(Lower(issue.title), Lower(query)) || Includes(Lower(issue.description), Lower(query))
  }

  predicate MatchesStatus(issue: Issue, filter: string)
  {
    filter == AllOption || StatusName(issue.status) == filter
  }

  predicate MatchesPriority(issue: Issue, filter: string)
  {
    filter == AllOption || PriorityName(issue.priority) == filter
  }

  /** An issue passes the filters when it passes all three. */
  predicate Matches(issue: Issue, f: Filters)
  {
    MatchesSearch(issue, f.query) && MatchesStatus(issue, f.status) && MatchesPriority(issue, f.priority)
  }

  /**
   * `issues.filter(...)`: every issue kept passes the filters, and every issue that
   * passes is kept.
   */
  function Filtered(issues: seq<Issue>, f: Filters): (r: seq<Issue>)
    ensures |r| <= |issues|
    ensures forall x :: x in r ==> x in issues && Matches(x, f)
    ensures forall x :: x in issues && Matches(x, f) ==> x in r
  {
    if issues == [] then []
    else (if Matches(issues[0], f) then [issues[0]] else []) + Filtered(issues[1..], f)
  }

  /** Filtering keeps the order: filtering a concatenation concatenates the filtered parts. */
  lemma {:induction false} FilteredAppend(a: seq<Issue>, b: seq<Issue>, f: Filters)
    ensures Filtered(a + b, f) == Filtered(a, f) + Filtered(b, f)
    decreases |a|
  {
    if a == [] {
      assert a + b == b;
    } else {
      assert (a + b)[0] == a[0];
      assert (a + b)[1..] == a[1..] + b;
      FilteredAppend(a[1..], b, f);
    }
  }

  /** No search text and "All" in both selections: the whole list, unchanged. */
  lemma {:induction false} NoFiltersKeepsAll(issues: seq<Issue>)
    ensures Filtered(issues, NoFilters) == issues
    decreases |issues|
  {
    if issues != [] {
      assert Lower("") == "";
      IncludesEmpty(Lower(issues[0].title));
      assert Matches(issues[0], NoFilters);
      NoFiltersKeepsAll(issues[1..]);
    }
  }

  // ----- Pagination -----

  /** `Math.ceil(n / 5)`: the least number of pages of five that hold `n` items. */
  function TotalPages(n: nat): (pages: nat)
    ensures n <= pages * ItemsPerPage < n + ItemsPerPage
  {
    (n + ItemsPerPage - 1) / ItemsPerPage
  }

  /** How `Array.prototype.slice` reads one bound: a negative bound counts from the end; then it is clamped to the length. */
  function SliceBound(i: int, len: nat): (b: nat)
    ensures b <= len
    ensures 0 <= i ==> b == Min(i, len)
  {
    if i < 0 then (if len + i < 0 then 0 else len + i)
    else if i > len then len
    else i
  }

  /** `s.slice(start, end)`. */
  function Slice<T>(s: seq<T>, start: int, end: int): (r: seq<T>)
    ensures |r| <= |s|
    ensures SliceBound(start, |s|) < SliceBound(end, |s|) ==>
      |r| == SliceBound(end, |s|) - SliceBound(start, |s|) &&
      forall i :: 0 <= i < |r| ==> r[i] == s[SliceBound(start, |s|) + i]
    ensures SliceBound(end, |s|) <= SliceBound(start, |s|) ==> r == []
  {
    var lo := SliceBound(start, |s|);
    var hi := SliceBound(end, |s|);
    if lo < hi then s[lo..hi] else []
  }

  /** Page `page` (counted from one) of a list: `slice((page - 1) * 5, page * 5)`. */
  function PageOf<T>(items: seq<T>, page: int): (r: seq<T>)
    ensures |r| <= ItemsPerPage
  {
    Slice(items, (page - 1) * ItemsPerPage, page * ItemsPerPage)
  }

  /** For a page number of one or more, the page is the items from `(page - 1) * 5` up to `page * 5` or the end. */
  lemma PageContents<T>(items: seq<T>, page: int)
    requires page >= 1
    ensures (page - 1) * ItemsPerPage >= |items| ==> PageOf(items, page) == []
    ensures (page - 1) * ItemsPerPage < |items| ==>
      PageOf(items, page) == items[(page - 1) * ItemsPerPage .. Min(page * ItemsPerPage, |items|)]
  {
  }

  /** A page number beyond the last page gives an empty page. */
  lemma PageBeyondLastIsEmpty<T>(items: seq<T>, page: int)
    ensures page > TotalPages(|items|) ==> PageOf(items, page) == []
  {
    if page > TotalPages(|items|) {
      PageContents(items, page);
    }
  }

  /** Pages 1 to k, one after the other. */
  function PagesThrough<T>(items: seq<T>, k: nat): seq<T>
  {
    if k == 0 then [] else PagesThrough(items, k - 1) + PageOf(items, k)
  }

  /** Pages 1 to k together are the first `5k` items (or all of them). */
  lemma {:induction false} PagesThroughIsPrefix<T>(items: seq<T>, k: nat)
    ensures PagesThrough(items, k) == items[..Min(k * ItemsPerPage, |items|)]
  {
    if k > 0 {
      PagesThroughIsPrefix(items, k - 1);
      PageContents(items, k);
      var lo := Min((k - 1) * ItemsPerPage, |items|);
      var hi := Min(k * ItemsPerPage, |items|);
      assert items[..lo] + items[lo..hi] == items[..hi];
    }
  }

  /** Pages 1 to `TotalPages` together give back the whole list, in order. */
  lemma PagesReassemble<T>(items: seq<T>)
    ensures PagesThrough(items, TotalPages(|items|)) == items
  {
    PagesThroughIsPrefix(items, TotalPages(|items|));
    assert items[..|items|] == items;
  }

  /** The first page holds `min(5, n)` items; the last holds `n mod 5`, or five when that is zero. */
  lemma FirstAndLastPageSizes<T>(items: seq<T>)
    ensures |PageOf(items, 1)| == Min(ItemsPerPage, |items|)
    ensures |items| > 0 ==>
      |PageOf(items, TotalPages(|items|))| == if |items| % ItemsPerPage == 0 then ItemsPerPage else |items| % ItemsPerPage
  {
    PageContents(items, 1);
    if |items| > 0 {
      var n, last := |items|, TotalPages(|items|);
      PageContents(items, last);
      assert (last - 1) * ItemsPerPage < n <= last * ItemsPerPage;
      assert |PageOf(items, last)| == n - (last - 1) * ItemsPerPage;
      var q, rem := n / ItemsPerPage, n % ItemsPerPage;
      assert n == q * ItemsPerPage + rem;
      if rem == 0 {
        assert last == q;
      } else {
        assert last == q + 1;
      }
    }
  }

  /** The first number of the "Showing x to y of n" line. */
  function ShowingFrom(page: int): int
  {
    (page - 1) * ItemsPerPage + 1
  }

  /** The second number of the "Showing x to y of n" line. */
  function ShowingTo(page: int, n: nat): int
  {
    Min(page * ItemsPerPage, n)
  }

  /** The pagination controls appear only when the filtered list has more than one page's worth. */
  predicate ShowsControls(n: nat)
  {
    n > ItemsPerPage
  }

  /** The controls appear exactly when there are two pages or more. */
  lemma ControlsIffSeveralPages(n: nat)
    ensures ShowsControls(n) <==> TotalPages(n) >= 2
  {
  }

  /** On an existing page, "Showing x to y" names exactly the items of the page, by their 1-based positions. */
  lemma ShowingRangeDescribesPage<T>(items: seq<T>, page: int)
    requires 1 <= page <= TotalPages(|items|)
    ensures 1 <= ShowingFrom(page) <= ShowingTo(page, |items|) <= |items|
    ensures PageOf(items, page) == items[ShowingFrom(page) - 1 .. ShowingTo(page, |items|)]
    ensures |PageOf(items, page)| == ShowingTo(page, |items|) - ShowingFrom(page) + 1
  {
    PageContents(items, page);
  }

  /** On a page number left beyond the last page, the line reads backwards ("Showing 11 to 7"). */
  lemma StalePageShowsInvertedRange(n: nat, page: int)
    requires page > TotalPages(n)
    ensures ShowingFrom(page) > ShowingTo(page, n)
  {
  }

  /** `handlePageChange`: move to the requested page only if it is one of the pages. */
  function PageAfterChange(current: int, requested: int, totalPages: nat): (next: int)
    ensures next == current || 1 <= next <= totalPages
    ensures next == requested <==> 1 <= requested <= totalPages || requested == current
    ensures 1 <= requested <= totalPages ==> next == requested
    ensures !(1 <= requested <= totalPages) ==> next == current
    ensures current >= 1 ==> next >= 1
  {
    if 1 <= requested <= totalPages then requested else current
  }

  /** The issues a `GET /issue` response brings: only an `issues` field holding an array. */
  function IssuesFrom(body: ListBody<Issue>): (r: Option<seq<Issue>>)
    ensures r.Some? <==> body.Keyed?
    ensures r.Some? ==> r.value == body.keyed
  {
    match body
    case Keyed(xs) => Some(xs)
    case _ => None
  }

  /** The list view's state. The page number is never reset when a filter changes. */
  class IssueListView {
    var issues: seq<Issue>
    var isLoading: bool
    var searchQuery: string
    var statusFilter: string
    var priorityFilter: string
    var currentPage: int

    /** The page number never drops below one. */
    ghost predicate Valid()
      reads this
    {
      currentPage >= 1
    }

    constructor ()
      ensures Valid()
      ensures issues == [] && isLoading && currentPage == 1
      ensures searchQuery == "" && statusFilter == AllOption && priorityFilter == AllOption
    {
      issues := [];
      isLoading := true;
      searchQuery := "";
      statusFilter := AllOption;
      priorityFilter := AllOption;
      currentPage := 1;
    }

    function CurrentFilters(): Filters
      reads this
    {
      Filters(searchQuery, statusFilter, priorityFilter)
    }

    /** `filteredIssues`. */
    function FilteredIssues(): seq<Issue>
      reads this
    {
      Filtered(issues, CurrentFilters())
    }

    /** `totalPages`. */
    function PageCount(): nat
      reads this
    {
      TotalPages(|FilteredIssues()|)
    }

    /** `paginatedIssues`: at most five issues, and none once the page number is past the last page. */
    function PaginatedIssues(): (r: seq<Issue>)
      reads this
      ensures |r| <= ItemsPerPage
      ensures currentPage > PageCount() ==> r == []
      ensures 1 <= currentPage && (currentPage - 1) * ItemsPerPage < |FilteredIssues()| ==>
        r == FilteredIssues()[(currentPage - 1) * ItemsPerPage .. Min(currentPage * ItemsPerPage, |FilteredIssues()|)]
    {
      var items := FilteredIssues();
      PageBeyondLastIsEmpty(items, currentPage);
      if currentPage >= 1 then
        PageContents(items, currentPage);
        PageOf(items, currentPage)
      else
        PageOf(items, currentPage)
    }

    /** `fetchIssues`: the list is replaced only by an `issues` array; the flag is down afterwards. */
    method FetchIssues(response: Outcome<ListBody<Issue>>)
      requires Valid()
      modifies this`issues, this`isLoading
      ensures Valid()
      ensures issues == if response.Ok? && IssuesFrom(response.body).Some?
                        then IssuesFrom(response.body).value else old(issues)
      ensures !isLoading
    {
      isLoading := true;
      if response.Ok? {
        var fetched := IssuesFrom(response.body);
        if fetched.Some? {
          issues := fetched.value;
        }
      }
      isLoading := false;
    }

    /** `handlePageChange`. */
    method HandlePageChange(newPage: int)
      requires Valid()
      modifies this`currentPage
      ensures Valid()
      ensures currentPage == PageAfterChange(old(currentPage), newPage, PageCount())
    {
      if newPage >= 1 && newPage <= PageCount() {
        currentPage := newPage;
      }
    }

    /** The search box's change handler; the page number stays where it was. */
    method SetSearchQuery(query: string)
      requires Valid()
      modifies this`searchQuery
      ensures Valid() && searchQuery == query && currentPage == old(currentPage)
    {
      searchQuery := query;
    }

    /** The status selection's change handler; the page number stays where it was. */
    method SetStatusFilter(filter: string)
      requires Valid()
      modifies this`statusFilter
      ensures Valid() && statusFilter == filter && currentPage == old(currentPage)
    {
      statusFilter := filter;
    }

    /** The priority selection's change handler; the page number stays where it was. */
    method SetPriorityFilter(filter: string)
      requires Valid()
      modifies this`priorityFilter
      ensures Valid() && priorityFilter == filter && currentPage == old(currentPage)
    {
      priorityFilter := filter;
    }
  }
}
