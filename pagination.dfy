/** The arithmetic of the paginator, as pure functions of the item count and
    the configuration. The classes in module Paginators compute these values
    step by step (with memoised fields); everything here is what they are
    proved to compute. */
module Pagination {
  import opened Options
  import opened Exceptions

  /** Items per page. The paginator divides by it and never checks it, so a
      value below 1 is outside its contract. */
  type PerPage = n: int | n >= 1 witness 1

  /** A page number as the caller hands it in: either something `int()`
      turns into an integer, or something it rejects. */
  datatype PageNumberArg = IntArg(value: int) | NonIntegerArg

  /** `ceil(a / b)` on integers. */
  function CeilDiv(a: nat, b: PerPage): (q: nat)
    ensures a <= q * b
    ensures q * b < a + b
  {
    var q := (a + b - 1) / b;
    assert (a + b - 1) == q * b + (a + b - 1) % b;
    q
  }

  /** `max(1, count - orphans)`: how many items need pages of their own once
      up to `orphans` trailing items may ride on the last page. */
  function Hits(count: nat, orphans: nat): (h: nat)
    ensures h >= 1 && h >= count - orphans
    ensures h == 1 || h == count - orphans
  {
    if count - orphans > 1 then count - orphans else 1
  }

  /** The number of pages: none for an empty list when an empty first page
      is not allowed, otherwise just enough pages of `perPage` for the hits. */
  function NumPages(count: nat, perPage: PerPage, orphans: nat, allowEmptyFirstPage: bool): (n: nat)
    ensures n == 0 <==> count == 0 && !allowEmptyFirstPage
    ensures n != 0 ==> (n - 1) * perPage < Hits(count, orphans) <= n * perPage
  {
    if count == 0 && !allowEmptyFirstPage then 0
    else CeilDiv(Hits(count, orphans), perPage)
  }

  /** Validation of a requested 1-based page number against `numPages`. */
  function ValidateNumber(arg: PageNumberArg, numPages: nat, allowEmptyFirstPage: bool): (r: Result<int>)
    ensures arg.NonIntegerArg? ==> r == Err(PageNotAnInteger(NotAnIntegerMessage))
    ensures arg.IntArg? ==>
              (r.Ok? <==> 1 <= arg.value && (arg.value <= numPages || (arg.value == 1 && allowEmptyFirstPage)))
    ensures r.Ok? ==> arg == IntArg(r.value)
    ensures arg.IntArg? && r.Err? ==> r.error.EmptyPage?
  {
    match arg
    case NonIntegerArg => Err(PageNotAnInteger(NotAnIntegerMessage))
    case IntArg(number) =>
      if number < 1 then Err(EmptyPage(LessThanOneMessage))
      else if number > numPages && !(number == 1 && allowEmptyFirstPage) then Err(EmptyPage(NoResultsMessage))
      else Ok(number)
  }

  /** Index of the first item of page `number` (0-based, into the whole list):
      page 1 starts at item 0, and each later page `per_page` items further on. */
  function Bottom(number: int, perPage: PerPage): (b: int)
    ensures number >= 1 ==> b >= number - 1 >= 0
    ensures b == 0 <==> number == 1
  {
    (number - 1) * perPage
  }

  /** End (exclusive) of page `number`: the nominal end of the page, or the
      end of the list when what would be left after it is at most `orphans`. */
  function Top(number: int, count: nat, perPage: PerPage, orphans: nat): (t: int)
    ensures t == count || (t == Bottom(number, perPage) + perPage && count - t > orphans)
    ensures t == count ==> count - (Bottom(number, perPage) + perPage) <= orphans
  {
    var top := Bottom(number, perPage) + perPage;
    if top + orphans >= count then count else top
  }

  /** Python's normalisation of one end of a slice with step 1 over a
      sequence of length `len`; `default` stands for an omitted bound. */
  function SliceBound(bound: Option<int>, len: nat, default: nat): (b: nat)
    requires default <= len
    ensures b <= len
    ensures bound.None? ==> b == default
    ensures bound.Some? && 0 <= bound.value <= len ==> b == bound.value
    ensures bound.Some? && bound.value < 0 <= bound.value + len ==> b == bound.value + len
    ensures bound.Some? && bound.value + len < 0 ==> b == 0
    ensures bound.Some? && bound.value > len ==> b == len
  {
    match bound
    case None => default
    case Some(i) =>
      if i < 0 then (if i + len < 0 then 0 else i + len)
      else if i > len then len
      else i
  }

  /** `xs[start:stop]` in Python: a contiguous run of `xs` that begins at the
      normalised start, clamped to the sequence, never an error. */
  function PySlice<T>(xs: seq<T>, start: Option<int>, stop: Option<int>): (r: seq<T>)
    ensures SliceBound(start, |xs|, 0) + |r| <= |xs|
    ensures |r| == if SliceBound(start, |xs|, 0) < SliceBound(stop, |xs|, |xs|)
                   then SliceBound(stop, |xs|, |xs|) - SliceBound(start, |xs|, 0) else 0
    ensures forall k :: 0 <= k < |r| ==> r[k] == xs[SliceBound(start, |xs|, 0) + k]
  {
    var lo := SliceBound(start, |xs|, 0);
    var hi := SliceBound(stop, |xs|, |xs|);
    if lo < hi then xs[lo..hi] else []
  }

  /** The items of page `number`: `object_list[bottom:top]`. */
  function PageItems<T>(s: seq<T>, number: int, perPage: PerPage, orphans: nat): (r: seq<T>)
    ensures |r| <= |s|
    ensures 0 <= Bottom(number, perPage) <= Top(number, |s|, perPage, orphans) <= |s| ==>
              r == s[Bottom(number, perPage)..Top(number, |s|, perPage, orphans)]
  {
    PySlice(s, Some(Bottom(number, perPage)), Some(Top(number, |s|, perPage, orphans)))
  }

  /** What a `Page` accepts as an index: an integer, a slice with step 1,
      or anything else. */
  datatype Index = IntIndex(i: int) | SliceIndex(start: Option<int>, stop: Option<int>) | OtherIndex

  /** What indexing a list gives: one item, a list of items, or an error. */
  datatype Subscripted<T> = Element(item: T) | Elements(items: seq<T>) | TypeError | IndexError

  /** `xs[index]` on a Python list. */
  function Subscript<T>(xs: seq<T>, index: Index): (r: Subscripted<T>)
    ensures r.TypeError? <==> index.OtherIndex?
    ensures r.IndexError? <==> index.IntIndex? && !(-|xs| <= index.i < |xs|)
    ensures index.IntIndex? && 0 <= index.i < |xs| ==> r == Element(xs[index.i])
    ensures index.IntIndex? && -|xs| <= index.i < 0 ==> r == Element(xs[|xs| + index.i])
    ensures index.SliceIndex? ==> r == Elements(PySlice(xs, index.start, index.stop))
  {
    match index
    case IntIndex(i) =>
      if 0 <= i < |xs| then Element(xs[i])
      else if -|xs| <= i < 0 then Element(xs[|xs| + i])
      else IndexError
    case SliceIndex(start, stop) => Elements(PySlice(xs, start, stop))
    case OtherIndex => TypeError
  }

  /** `page_range`: the page numbers `1 .. numPages` in order. */
  function PageRange(numPages: nat): (r: seq<int>)
    ensures |r| == numPages
    ensures forall i, j :: 0 <= i < j < |r| ==> r[i] < r[j]
    ensures |r| > 0 ==> r[0] == 1 && r[|r| - 1] == numPages
  {
    seq(numPages, i => i + 1)
  }

  /** `has_next`: for a page number of at least 1, it holds exactly when the
      next number passes validation. */
  predicate HasNext(number: int, numPages: nat)
    ensures var next := IntArg(number + 1);
            number >= 1 ==>
              forall allowEmptyFirstPage: bool ::
                HasNext(number, numPages) <==> ValidateNumber(next, numPages, allowEmptyFirstPage).Ok?
  {
    number < numPages
  }

  /** `has_previous`: it holds exactly when the previous number passes
      validation against any page count that includes it. */
  predicate HasPrevious(number: int)
    ensures var previous := IntArg(number - 1);
            forall numPages: nat, allowEmptyFirstPage: bool :: numPages >= number - 1 ==>
              (HasPrevious(number) <==> ValidateNumber(previous, numPages, allowEmptyFirstPage).Ok?)
  {
    number > 1
  }

  /** `has_other_pages`: on a valid page, it holds exactly when there are at
      least two pages. */
  predicate HasOtherPages(number: int, numPages: nat)
    ensures 1 <= number <= numPages ==> (HasOtherPages(number, numPages) <==> numPages >= 2)
  {
    HasPrevious(number) || HasNext(number, numPages)
  }

  /** 1-based index, in the whole list, of the first item of page `number`;
      0 when the list is empty. */
  function StartIndex(number: int, count: nat, perPage: PerPage): (i: int)
    ensures count == 0 ==> i == 0
    ensures count > 0 ==> i == Bottom(number, perPage) + 1
    ensures count > 0 && number >= 1 ==> i >= number
  {
    if count == 0 then 0 else perPage * (number - 1) + 1
  }

  /** 1-based index, in the whole list, of the last item of page `number`. */
  function EndIndex(number: int, count: nat, perPage: PerPage, numPages: nat): (i: int)
    ensures number == numPages ==> i == count
    ensures number != numPages ==> i == Bottom(number, perPage) + perPage
  {
    if number == numPages then count else number * perPage
  }

  /** The pages `page(1), ..., page(num_pages)` of `s`, in order. */
  function Pages<T>(s: seq<T>, perPage: PerPage, orphans: nat, allowEmptyFirstPage: bool): seq<seq<T>>
  {
    seq(NumPages(|s|, perPage, orphans, allowEmptyFirstPage), i => PageItems(s, i + 1, perPage, orphans))
  }

  /** The concatenation of a list of pages. */
  function Flatten<T>(pages: seq<seq<T>>): seq<T>
  {
    if pages == [] then [] else Flatten(pages[..|pages| - 1]) + pages[|pages| - 1]
  }
}
