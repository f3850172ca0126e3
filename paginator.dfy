/** The `Paginator` and `Page` objects. A paginator memoises its item count
    and page count in fields that start empty and are filled on first use; a
    page turns its items into a list on its first indexed read. Each method
    is proved to return what the functions of module Pagination say. */
module Paginators {
  import opened Options
  import opened Exceptions
  import Pagination
  import PaginationLemmas

  class Paginator<T> {
    const objectList: seq<T>
    /** Whether `objectList` is a Python list (as opposed to, say, a query
        set); its slices are of the same kind. */
    const objectListIsList: bool
    const perPage: Pagination.PerPage
    const orphans: nat
    const allowEmptyFirstPage: bool
    /** The memoised `count`; `None` until first computed. */
    var countCache: Option<nat>
    /** The memoised `num_pages`; `None` until first computed. */
    var numPagesCache: Option<nat>

    /** The page count this paginator's configuration calls for. */
    function TotalPages(): nat
    {
      Pagination.NumPages(|objectList|, perPage, orphans, allowEmptyFirstPage)
    }

    /** A filled cache holds the value it memoises; the page count is only
        ever computed after the item count. */
    ghost predicate Valid()
      reads this
    {
      && (countCache.Some? ==> countCache.value == |objectList|)
      && (numPagesCache.Some? ==> countCache.Some? && numPagesCache.value == TotalPages())
    }

    constructor (objectList: seq<T>, objectListIsList: bool, perPage: Pagination.PerPage, orphans: nat, allowEmptyFirstPage: bool)
      ensures Valid()
      ensures this.objectList == objectList && this.objectListIsList == objectListIsList
      ensures this.perPage == perPage && this.orphans == orphans && this.allowEmptyFirstPage == allowEmptyFirstPage
      ensures countCache == None && numPagesCache == None
    {
      this.objectList := objectList;
      this.objectListIsList := objectListIsList;
      this.perPage := perPage;
      this.orphans := orphans;
      this.allowEmptyFirstPage := allowEmptyFirstPage;
      numPagesCache, countCache := None, None;
    }

    /** `count`: the number of items, computed once and then read back. */
    method Count() returns (c: nat)
      requires Valid()
      modifies this`countCache
      ensures Valid()
      ensures c == |objectList| && countCache == Some(c)
      ensures old(countCache).Some? ==> countCache == old(countCache)
    {
      if countCache.None? {
        countCache := Some(|objectList|);
      }
      c := countCache.value;
    }

    /** `num_pages`: computed once (filling the count cache on the way) and
        then read back without touching the count again. */
    method NumPages() returns (n: nat)
      requires Valid()
      modifies this`countCache, this`numPagesCache
      ensures Valid()
      ensures n == TotalPages() && numPagesCache == Some(n) && countCache == Some(|objectList|)
      ensures old(numPagesCache).Some? ==> numPagesCache == old(numPagesCache) && countCache == old(countCache)
    {
      if numPagesCache.None? {
        var count := Count();
        if count == 0 && !allowEmptyFirstPage {
          numPagesCache := Some(0);
        } else {
          var hits := Pagination.Hits(count, orphans);
          numPagesCache := Some(Pagination.CeilDiv(hits, perPage));
        }
      }
      n := numPagesCache.value;
    }

    /** `page_range`: the page numbers `1 .. num_pages`. */
    method PageRange() returns (r: seq<int>)
      requires Valid()
      modifies this`countCache, this`numPagesCache
      ensures Valid()
      ensures r == Pagination.PageRange(TotalPages())
      ensures numPagesCache == Some(TotalPages())
    {
      var n := NumPages();
      r := Pagination.PageRange(n);
    }

    /** `validate_number`. The page count is consulted (and memoised) only
        for an integer of at least 1. */
    method ValidateNumber(arg: Pagination.PageNumberArg) returns (r: Result<int>)
      requires Valid()
      modifies this`countCache, this`numPagesCache
      ensures Valid()
      ensures r == Pagination.ValidateNumber(arg, TotalPages(), allowEmptyFirstPage)
      ensures arg.IntArg? && arg.value >= 1 ==> numPagesCache == Some(TotalPages())
      ensures !(arg.IntArg? && arg.value >= 1) ==> countCache == old(countCache) && numPagesCache == old(numPagesCache)
    {
      if arg.NonIntegerArg? {
        return Err(PageNotAnInteger(NotAnIntegerMessage));
      }
      var number := arg.value;
      if number < 1 {
        return Err(EmptyPage(LessThanOneMessage));
      }
      var numPages := NumPages();
      if number > numPages {
        if !(number == 1 && allowEmptyFirstPage) {
          return Err(EmptyPage(NoResultsMessage));
        }
      }
      return Ok(number);
    }

    /** `page`: validates the number, then slices `objectList[bottom:top]`,
        where `top` runs to the end of the list once what would be left after
        the page is at most `orphans` items. */
    method GetPage(arg: Pagination.PageNumberArg) returns (r: Result<Page<T>>)
      requires Valid()
      modifies this`countCache, this`numPagesCache
      ensures Valid()
      ensures var v := Pagination.ValidateNumber(arg, TotalPages(), allowEmptyFirstPage);
              && (v.Err? ==> r == Err(v.error))
              && (v.Ok? ==>
                    && r.Ok? && fresh(r.value)
                    && r.value.number == v.value && 1 <= v.value <= TotalPages()
                    && r.value.paginator == this
                    && r.value.objectList == Pagination.PageItems(objectList, v.value, perPage, orphans)
                    && r.value.isList == objectListIsList)
      ensures arg.IntArg? && arg.value >= 1 ==> numPagesCache == Some(TotalPages())
      ensures !(arg.IntArg? && arg.value >= 1) ==> countCache == old(countCache) && numPagesCache == old(numPagesCache)
    {
      var v := ValidateNumber(arg);
      if v.Err? {
        return Err(v.error);
      }
      var number := v.value;
      PaginationLemmas.ValidNumbersAreOneToNumPages(|objectList|, perPage, orphans, allowEmptyFirstPage, number);
      PaginationLemmas.PageItemsSlice(objectList, perPage, orphans, allowEmptyFirstPage, number);
      var bottom := (number - 1) * perPage;
      var top := bottom + perPage;
      var count := Count();
      if top + orphans >= count {
        top := count;
      }
      assert bottom == Pagination.Bottom(number, perPage) && top == Pagination.Top(number, count, perPage, orphans);
      var items := Pagination.PySlice(objectList, Some(bottom), Some(top));
      assert items == Pagination.PageItems(objectList, number, perPage, orphans);
      var page := NewPage(items, number);
      return Ok(page);
    }

    /** `_get_page`: the hook that builds the page object. */
    method NewPage(items: seq<T>, number: int) returns (p: Page<T>)
      ensures fresh(p)
      ensures p.objectList == items && p.number == number && p.paginator == this
      ensures p.isList == objectListIsList
    {
      p := new Page(items, objectListIsList, number, this);
    }
  }

  class Page<T> {
    const objectList: seq<T>
    /** Whether `objectList` has been turned into a Python list. */
    var isList: bool
    const number: int
    const paginator: Paginator<T>

    constructor (objectList: seq<T>, isList: bool, number: int, paginator: Paginator<T>)
      ensures this.objectList == objectList && this.isList == isList
      ensures this.number == number && this.paginator == paginator
    {
      this.objectList := objectList;
      this.isList := isList;
      this.number := number;
      this.paginator := paginator;
    }

    /** `len(page)`: the number of items, which is also the number of
        non-negative positions at which indexing finds an item. */
    function Len(): (n: nat)
      ensures forall k :: 0 <= k ==> (k < n <==> Pagination.Subscript(objectList, Pagination.IntIndex(k)).Element?)
    {
      |objectList|
    }

    /** `page[index]`: anything but an integer or a slice is a type error,
        raised before the items are touched; otherwise the items become a list
        once, with the same contents, and are indexed as a list. */
    method GetItem(index: Pagination.Index) returns (r: Pagination.Subscripted<T>)
      modifies this`isList
      ensures r == Pagination.Subscript(objectList, index)
      ensures index.OtherIndex? ==> isList == old(isList)
      ensures !index.OtherIndex? ==> isList
    {
      if index.OtherIndex? {
        return Pagination.TypeError;
      }
      if !isList {
        isList := true;
      }
      r := Pagination.Subscript(objectList, index);
    }

    method HasNext() returns (b: bool)
      requires paginator.Valid()
      modifies paginator`countCache, paginator`numPagesCache
      ensures paginator.Valid()
      ensures b == Pagination.HasNext(number, paginator.TotalPages())
      ensures paginator.numPagesCache == Some(paginator.TotalPages())
    {
      var numPages := paginator.NumPages();
      b := number < numPages;
    }

    method HasPrevious() returns (b: bool)
      ensures b == Pagination.HasPrevious(number)
    {
      b := number > 1;
    }

    /** `has_previous() or has_next()`: the page count is only consulted when
        there is no previous page. */
    method HasOtherPages() returns (b: bool)
      requires paginator.Valid()
      modifies paginator`countCache, paginator`numPagesCache
      ensures paginator.Valid()
      ensures b == Pagination.HasOtherPages(number, paginator.TotalPages())
      ensures Pagination.HasPrevious(number) ==> unchanged(paginator)
      ensures !Pagination.HasPrevious(number) ==> paginator.numPagesCache == Some(paginator.TotalPages())
    {
      b := HasPrevious();
      if !b {
        b := HasNext();
      }
    }

    method NextPageNumber() returns (r: Result<int>)
      requires paginator.Valid()
      modifies paginator`countCache, paginator`numPagesCache
      ensures paginator.Valid()
      ensures r == Pagination.ValidateNumber(Pagination.IntArg(number + 1), paginator.TotalPages(), paginator.allowEmptyFirstPage)
      ensures number + 1 >= 1 ==> paginator.numPagesCache == Some(paginator.TotalPages())
      ensures number + 1 < 1 ==> unchanged(paginator)
    {
      r := paginator.ValidateNumber(Pagination.IntArg(number + 1));
    }

    method PreviousPageNumber() returns (r: Result<int>)
      requires paginator.Valid()
      modifies paginator`countCache, paginator`numPagesCache
      ensures paginator.Valid()
      ensures r == Pagination.ValidateNumber(Pagination.IntArg(number - 1), paginator.TotalPages(), paginator.allowEmptyFirstPage)
      ensures number - 1 >= 1 ==> paginator.numPagesCache == Some(paginator.TotalPages())
      ensures number - 1 < 1 ==> unchanged(paginator)
    {
      r := paginator.ValidateNumber(Pagination.IntArg(number - 1));
    }

    method StartIndex() returns (i: int)
      requires paginator.Valid()
      modifies paginator`countCache
      ensures paginator.Valid()
      ensures i == Pagination.StartIndex(number, |paginator.objectList|, paginator.perPage)
      ensures paginator.countCache == Some(|paginator.objectList|)
    {
      var count := paginator.Count();
      if count == 0 {
        return 0;
      }
      i := paginator.perPage * (number - 1) + 1;
    }

    method EndIndex() returns (i: int)
      requires paginator.Valid()
      modifies paginator`countCache, paginator`numPagesCache
      ensures paginator.Valid()
      ensures i == Pagination.EndIndex(number, |paginator.objectList|, paginator.perPage, paginator.TotalPages())
      ensures paginator.numPagesCache == Some(paginator.TotalPages())
    {
      var numPages := paginator.NumPages();
      if number == numPages {
        i := paginator.Count();
        return;
      }
      i := number * paginator.perPage;
    }
  }
}
