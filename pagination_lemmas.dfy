/** Properties of the paginator's arithmetic: which page numbers are valid,
    where each page starts and ends, how the orphans merge into the last
    page, that the pages partition the list, and how navigation and the
    1-based item indices agree with the pages. */
module PaginationLemmas {
  import opened Exceptions
  import opened Pagination

  lemma MulMonotone(a: int, b: int, k: nat)
    requires a <= b
    ensures a * k <= b * k
  {
    assert b * k - a * k == (b - a) * k;
  }

  /** A page number passes validation exactly when it lies in `1 .. num_pages`:
      the `number == 1 && allow_empty_first_page` exception never lets through
      a number outside that range, because an empty first page being allowed
      means there is at least one page. */
  lemma ValidNumbersAreOneToNumPages(count: nat, perPage: PerPage, orphans: nat, allowEmptyFirstPage: bool, k: int)
    ensures var n := NumPages(count, perPage, orphans, allowEmptyFirstPage);
            ValidateNumber(IntArg(k), n, allowEmptyFirstPage) == (if 1 <= k <= n then Ok(k) else Err(EmptyPage(if k < 1 then LessThanOneMessage else NoResultsMessage)))
  {
  }

  /** With an empty list there is one (empty) page when an empty first page is
      allowed, and none otherwise. */
  lemma {:induction false} EmptyListPages<T>(s: seq<T>, perPage: PerPage, orphans: nat, allowEmptyFirstPage: bool)
    requires s == []
    ensures var n := NumPages(|s|, perPage, orphans, allowEmptyFirstPage);
            && n == (if allowEmptyFirstPage then 1 else 0)
            && (allowEmptyFirstPage ==>
                  ValidateNumber(IntArg(1), n, true) == Ok(1) && PageItems(s, 1, perPage, orphans) == [] && StartIndex(1, 0, perPage) == 0)
            && (!allowEmptyFirstPage ==> ValidateNumber(IntArg(1), n, false) == Err(EmptyPage(NoResultsMessage)))
  {
    if allowEmptyFirstPage {
      var n := NumPages(0, perPage, orphans, true);
      if n > 1 {
        MulMonotone(1, n - 1, perPage);
      }
    }
  }

  /** The orphan clamp `top + orphans >= count` fires on the last page and on
      no other valid page. */
  lemma {:induction false} ClampOnlyOnLastPage(count: nat, perPage: PerPage, orphans: nat, allowEmptyFirstPage: bool, number: int)
    requires 1 <= number <= NumPages(count, perPage, orphans, allowEmptyFirstPage)
    ensures Bottom(number, perPage) + perPage + orphans >= count <==> number == NumPages(count, perPage, orphans, allowEmptyFirstPage)
  {
    var n := NumPages(count, perPage, orphans, allowEmptyFirstPage);
    var h := Hits(count, orphans);
    assert Bottom(number, perPage) + perPage == number * perPage;
    if number < n {
      MulMonotone(number, n - 1, perPage);
      MulMonotone(1, n - 1, perPage);
      assert h == count - orphans;
    }
  }

  /** A valid page's bounds lie inside the list; a page before the last ends
      at `number * per_page`, and the last page ends at `count`. */
  lemma {:induction false} PageBounds(count: nat, perPage: PerPage, orphans: nat, allowEmptyFirstPage: bool, number: int)
    requires 1 <= number <= NumPages(count, perPage, orphans, allowEmptyFirstPage)
    ensures 0 <= Bottom(number, perPage) <= Top(number, count, perPage, orphans) <= count
    ensures number < NumPages(count, perPage, orphans, allowEmptyFirstPage) ==>
              Top(number, count, perPage, orphans) == number * perPage == Bottom(number, perPage) + perPage
    ensures number == NumPages(count, perPage, orphans, allowEmptyFirstPage) ==>
              Top(number, count, perPage, orphans) == count
  {
    var n := NumPages(count, perPage, orphans, allowEmptyFirstPage);
    var h := Hits(count, orphans);
    ClampOnlyOnLastPage(count, perPage, orphans, allowEmptyFirstPage, number);
    MulMonotone(0, number - 1, perPage);
    MulMonotone(number - 1, n - 1, perPage);
    assert Bottom(number, perPage) + perPage == number * perPage;
  }

  /** The items of a valid page are the slice `s[bottom..top]` of the list;
      Python's clamping of slice bounds never comes into play. */
  lemma {:induction false} PageItemsSlice<T>(s: seq<T>, perPage: PerPage, orphans: nat, allowEmptyFirstPage: bool, number: int)
    requires 1 <= number <= NumPages(|s|, perPage, orphans, allowEmptyFirstPage)
    ensures 0 <= Bottom(number, perPage) <= Top(number, |s|, perPage, orphans) <= |s|
    ensures PageItems(s, number, perPage, orphans) == s[Bottom(number, perPage)..Top(number, |s|, perPage, orphans)]
  {
    PageBounds(|s|, perPage, orphans, allowEmptyFirstPage, number);
  }

  /** Every page before the last holds exactly `per_page` items. */
  lemma {:induction false} PagesBeforeLastAreFull<T>(s: seq<T>, perPage: PerPage, orphans: nat, allowEmptyFirstPage: bool, number: int)
    requires 1 <= number < NumPages(|s|, perPage, orphans, allowEmptyFirstPage)
    ensures |PageItems(s, number, perPage, orphans)| == perPage
  {
    PageBounds(|s|, perPage, orphans, allowEmptyFirstPage, number);
    PageItemsSlice(s, perPage, orphans, allowEmptyFirstPage, number);
  }

  /** The last page holds at most `per_page + orphans` items, and when there
      are at least two pages it holds more than `orphans` of them: a would-be
      page of at most `orphans` items has been merged into it. */
  lemma {:induction false} LastPageTakesOrphans<T>(s: seq<T>, perPage: PerPage, orphans: nat, allowEmptyFirstPage: bool)
    requires NumPages(|s|, perPage, orphans, allowEmptyFirstPage) >= 1
    ensures var n := NumPages(|s|, perPage, orphans, allowEmptyFirstPage);
            && |PageItems(s, n, perPage, orphans)| <= perPage + orphans
            && (n >= 2 ==> |PageItems(s, n, perPage, orphans)| > orphans)
  {
    var n := NumPages(|s|, perPage, orphans, allowEmptyFirstPage);
    var h := Hits(|s|, orphans);
    PageItemsSlice(s, perPage, orphans, allowEmptyFirstPage, n);
    assert n * perPage == (n - 1) * perPage + perPage;
    if n >= 2 {
      MulMonotone(1, n - 1, perPage);
      assert h == |s| - orphans;
    }
  }

  /** Pages `m < n` do not overlap: page `m` ends where page `m + 1` begins,
      at or before the start of page `n`. */
  lemma {:induction false} PagesDoNotOverlap(count: nat, perPage: PerPage, orphans: nat, allowEmptyFirstPage: bool, m: int, n: int)
    requires 1 <= m < n <= NumPages(count, perPage, orphans, allowEmptyFirstPage)
    ensures Top(m, count, perPage, orphans) == Bottom(m + 1, perPage) <= Bottom(n, perPage)
  {
    PageBounds(count, perPage, orphans, allowEmptyFirstPage, m);
    MulMonotone(m, n - 1, perPage);
  }

  lemma {:induction false} PagesPrefix<T>(s: seq<T>, perPage: PerPage, orphans: nat, allowEmptyFirstPage: bool, k: nat)
    requires 1 <= k <= NumPages(|s|, perPage, orphans, allowEmptyFirstPage)
    ensures Flatten(Pages(s, perPage, orphans, allowEmptyFirstPage)[..k]) == s[..Top(k, |s|, perPage, orphans)]
  {
    var pages := Pages(s, perPage, orphans, allowEmptyFirstPage);
    var bottom, top := Bottom(k, perPage), Top(k, |s|, perPage, orphans);
    PageItemsSlice(s, perPage, orphans, allowEmptyFirstPage, k);
    assert pages[..k][..k - 1] == pages[..k - 1];
    if k == 1 {
      assert pages[..0] == [];
      assert Flatten(pages[..1]) == pages[0];
    } else {
      PagesPrefix(s, perPage, orphans, allowEmptyFirstPage, k - 1);
      PagesDoNotOverlap(|s|, perPage, orphans, allowEmptyFirstPage, k - 1, k);
      assert s[..bottom] + s[bottom..top] == s[..top];
    }
  }

  /** The pages partition the list: concatenating `page(1), ..., page(num_pages)`
      gives back the whole list, in order, each item exactly once. */
  lemma {:induction false} PagesPartitionList<T>(s: seq<T>, perPage: PerPage, orphans: nat, allowEmptyFirstPage: bool)
    ensures Flatten(Pages(s, perPage, orphans, allowEmptyFirstPage)) == s
  {
    var pages := Pages(s, perPage, orphans, allowEmptyFirstPage);
    var n := |pages|;
    if n == 0 {
      assert s == [];
    } else {
      PagesPrefix(s, perPage, orphans, allowEmptyFirstPage, n);
      PageBounds(|s|, perPage, orphans, allowEmptyFirstPage, n);
      assert pages[..n] == pages;
    }
  }

  /** `page_range` lists exactly the page numbers that pass validation. */
  lemma {:induction false} PageRangeIsValidNumbers(count: nat, perPage: PerPage, orphans: nat, allowEmptyFirstPage: bool, k: int)
    ensures var n := NumPages(count, perPage, orphans, allowEmptyFirstPage);
            k in PageRange(n) <==> ValidateNumber(IntArg(k), n, allowEmptyFirstPage).Ok?
  {
    var n := NumPages(count, perPage, orphans, allowEmptyFirstPage);
    var r := PageRange(n);
    if 1 <= k <= n {
      assert r[k - 1] == k;
    }
    if k in r {
      var i :| 0 <= i < |r| && r[i] == k;
      if i > 0 { assert r[0] < r[i]; }
      if i < |r| - 1 { assert r[i] < r[|r| - 1]; }
    }
  }

  /** On a valid page, `next_page_number` yields `number + 1` exactly when
      `has_next` holds, and `EmptyPage` otherwise. */
  lemma NextPageNumberMatchesHasNext(numPages: nat, allowEmptyFirstPage: bool, number: int)
    requires 1 <= number <= numPages
    ensures ValidateNumber(IntArg(number + 1), numPages, allowEmptyFirstPage)
            == if HasNext(number, numPages) then Ok(number + 1) else Err(EmptyPage(NoResultsMessage))
  {
  }

  /** On a valid page, `previous_page_number` yields `number - 1` exactly when
      `has_previous` holds, and `EmptyPage` otherwise. */
  lemma PreviousPageNumberMatchesHasPrevious(numPages: nat, allowEmptyFirstPage: bool, number: int)
    requires 1 <= number <= numPages
    ensures ValidateNumber(IntArg(number - 1), numPages, allowEmptyFirstPage)
            == if HasPrevious(number) then Ok(number - 1) else Err(EmptyPage(LessThanOneMessage))
  {
  }

  /** `start_index` and `end_index` are the 1-based positions in the whole
      list of a valid page's first and last items, so that
      `end_index - start_index + 1` is the page's length; an empty list has
      the single empty page with both indices 0. */
  lemma {:induction false} IndicesSpanPage<T>(s: seq<T>, perPage: PerPage, orphans: nat, allowEmptyFirstPage: bool, number: int)
    requires 1 <= number <= NumPages(|s|, perPage, orphans, allowEmptyFirstPage)
    ensures var n := NumPages(|s|, perPage, orphans, allowEmptyFirstPage);
            var page := PageItems(s, number, perPage, orphans);
            var start, end := StartIndex(number, |s|, perPage), EndIndex(number, |s|, perPage, n);
            && (|s| == 0 ==> start == 0 && end == 0 && page == [])
            && (|s| > 0 ==> start == Bottom(number, perPage) + 1 && end == Top(number, |s|, perPage, orphans)
                            && end - start + 1 == |page|)
  {
    PageBounds(|s|, perPage, orphans, allowEmptyFirstPage, number);
    PageItemsSlice(s, perPage, orphans, allowEmptyFirstPage, number);
    if |s| == 0 {
      EmptyListPages(s, perPage, orphans, allowEmptyFirstPage);
    }
  }

  /** Item `j` of a valid page, indexed from the front or from the back, is
      the item at 1-based position `start_index + j` of the whole list. */
  lemma {:induction false} PageItemIsListItem<T>(s: seq<T>, perPage: PerPage, orphans: nat, allowEmptyFirstPage: bool, number: int, j: int)
    requires 1 <= number <= NumPages(|s|, perPage, orphans, allowEmptyFirstPage)
    requires 0 <= j < |PageItems(s, number, perPage, orphans)|
    ensures var page := PageItems(s, number, perPage, orphans);
            var start := StartIndex(number, |s|, perPage);
            && 1 <= start && start + j <= |s|
            && Subscript(page, IntIndex(j)) == Element(s[start - 1 + j])
            && Subscript(page, IntIndex(j - |page|)) == Element(s[start - 1 + j])
  {
    IndicesSpanPage(s, perPage, orphans, allowEmptyFirstPage, number);
    PageItemsSlice(s, perPage, orphans, allowEmptyFirstPage, number);
  }

  /** 23 items, 8 per page, 3 orphans: three pages of 8, 8 and 7 items, the
      last ending at item 23. */
  lemma OrphanExample(s: seq<int>)
    requires |s| == 23
    ensures NumPages(23, 8, 3, true) == 3
    ensures PageItems(s, 1, 8, 3) == s[0..8]
    ensures PageItems(s, 2, 8, 3) == s[8..16]
    ensures PageItems(s, 3, 8, 3) == s[16..23]
    ensures EndIndex(3, 23, 8, 3) == 23
  {
  }
}
