# Django's classic paginator, in Dafny

This project models `django_paginator.py`: a `Paginator` over an ordered
collection of items, and the `Page` objects it hands out. The collection is a
`seq<T>`, so the item count is its length.

- `options.dfy` (module `Options`) holds `Option`, used for the caches that
  may still be empty and for slice bounds that may be omitted.
- `exceptions.dfy` (module `Exceptions`) holds the `InvalidPage` hierarchy as
  a datatype. `PageNotAnInteger` and `EmptyPage` are its constructors, and
  each carries the message the source raises. It also holds the `Result` type
  that operations return instead of raising.
- `pagination.dfy` (module `Pagination`) holds the paginator's arithmetic as
  pure functions:
  - the page count with the orphan rule folded in;
  - validation of a requested page number;
  - the `[bottom, top)` bounds of a page;
  - Python's slicing and list indexing, with step 1;
  - `page_range`;
  - the navigation predicates;
  - `start_index` and `end_index`.
- `pagination_lemmas.dfy` (module `PaginationLemmas`) proves what the
  paginator promises. The pages partition the list. Every page before the
  last is full. The last page absorbs the orphans. The clamp of `top` to the
  item count fires on the last page only. Navigation calls succeed exactly
  when the matching `has_*` predicate holds. The 1-based indices span the
  page.
- `paginator.dfy` (module `Paginators`) holds the two classes.
  - `Paginator` memoises `count` and `num_pages` in fields that start as
    `None`. Its object invariant `Valid()` says that a filled cache holds the
    value it stands for, so a cached value never changes once set.
  - `Page` keeps its items, its number and a reference to its paginator. A
    flag records the one-time conversion of its items to a Python list on
    the first indexed read; the contents stay the same. `Page.Len` is
    `len(page)`.
  - Every method is proved to return what the `Pagination` function for it
    says. Each method also states which caches it fills or leaves alone.

A page number argument is either an integer or something `int()` rejects
(`PageNumberArg`). `per_page` has the type `PerPage`, the integers of at
least 1. `orphans` is a `nat`.

In `validate_number`, the branch that lets `number == 1` through when
`allow_empty_first_page` holds never changes the outcome. When an empty first
page is allowed, `num_pages` is at least 1, so a number above `num_pages` is
never 1. The branch is modelled as written, and
`PaginationLemmas.ValidNumbersAreOneToNumPages` shows that the valid numbers
are exactly `1 .. num_pages`.

The file's class docstring (`django_paginator.py:44-55`) is indented with a
tab, while the methods use four spaces, so the file as it stands would not
even import. The model follows the evident intent, which is Django's
classic paginator with methods `__init__` to `_get_page_range`.

## Model

| member | source | states |
|---|---|---|
| `Pagination.CeilDiv` | django_paginator.py:153 | the quotient is the least `q` with `a <= q * b`, i.e. `ceil(a / b)` |
| `Pagination.Hits` | django_paginator.py:152 | the hits are `max(1, count - orphans)`: at least 1 and at least `count - orphans`, and equal to one of the two |
| `Pagination.NumPages` | django_paginator.py:139-154 | `num_pages` is 0 exactly when the list is empty and an empty first page is not allowed; otherwise it is the least `n` with `hits <= n * per_page` |
| `Pagination.ValidateNumber` | django_paginator.py:64-80 | a non-integer gives `PageNotAnInteger`; an integer is accepted, unchanged, exactly when it is at least 1 and at most `num_pages` (or is 1 with an empty first page allowed); any other integer gives `EmptyPage` |
| `Pagination.PySlice` | django_paginator.py:108 | a slice `xs[start:stop]` is the contiguous run of `xs` that starts at the normalised start and holds `stop - start` items when the normalised start is below the normalised stop, and no items otherwise |
| `Pagination.SliceBound` | django_paginator.py:108 | a slice bound is normalised as Python does: an omitted bound takes its default, a negative one counts from the end, and the result is clamped to `0 .. len` |
| `Pagination.Subscript` | django_paginator.py:190 | list indexing: a type error exactly for an index that is neither an integer nor a slice; an index error exactly for an integer outside `-len .. len-1`; a negative index counts from the end; a slice index gives the items `PySlice` names |
| `Pagination.Bottom` | django_paginator.py:98 | page 1 starts at item 0 and no other page does; page `number` starts at or after item `number - 1` |
| `Pagination.Top` | django_paginator.py:100-105 | a page ends at `count`, which leaves at most `orphans` items past its nominal end, or else one full page after `bottom` with more than `orphans` items still after it |
| `Pagination.PageItems` | django_paginator.py:108 | a page is never longer than the list, and when its bounds lie inside the list it is exactly `s[bottom..top]` |
| `Pagination.HasNext` | django_paginator.py:192-193 | for a page number of at least 1, `has_next` holds exactly when the next number passes validation |
| `Pagination.HasPrevious` | django_paginator.py:195-196 | `has_previous` holds exactly when the previous number passes validation against any page count that includes it |
| `Pagination.HasOtherPages` | django_paginator.py:198-199 | on a valid page, `has_other_pages` holds exactly when there are at least two pages |
| `Pagination.StartIndex` | django_paginator.py:207-216 | `start_index` is 0 for an empty list, and otherwise `bottom + 1`, the 1-based position of the page's first item, which is at least the page number |
| `Pagination.EndIndex` | django_paginator.py:218-227 | `end_index` is `count` on the last page, and otherwise `bottom + per_page`, the position where a full page ends |
| `Pagination.PageRange` | django_paginator.py:157-163 | `page_range` has `num_pages` entries, strictly increasing, from 1 to `num_pages` |
| `PaginationLemmas.ValidNumbersAreOneToNumPages` | django_paginator.py:73-80 | with the real page count, an integer passes validation exactly when it lies in `1 .. num_pages`; otherwise the error is `EmptyPage`, with the "less than 1" or "no results" message |
| `PaginationLemmas.EmptyListPages` | django_paginator.py:139-154 | an empty list has exactly one page, which is empty and starts at index 0, when an empty first page is allowed; otherwise it has none, and page 1 gives `EmptyPage` |
| `PaginationLemmas.ClampOnlyOnLastPage` | django_paginator.py:98-105 | on a valid page, `top + orphans >= count` holds exactly when the page is the last one |
| `PaginationLemmas.PageBounds` | django_paginator.py:98-105 | a valid page has `0 <= bottom <= top <= count`; a page before the last ends at `number * per_page`; the last page ends at `count` |
| `PaginationLemmas.PageItemsSlice` | django_paginator.py:97-108 | the items of a valid page are exactly `s[bottom..top]`, with both bounds inside the list |
| `PaginationLemmas.PagesBeforeLastAreFull` | django_paginator.py:98-105 | every page before the last holds exactly `per_page` items |
| `PaginationLemmas.LastPageTakesOrphans` | django_paginator.py:98-105 | the last page holds at most `per_page + orphans` items, and more than `orphans` items whenever there are at least two pages |
| `PaginationLemmas.PagesDoNotOverlap` | django_paginator.py:98-105 | page `m` ends where page `m + 1` begins, and no later than the start of any later page |
| `PaginationLemmas.PagesPartitionList` | django_paginator.py:82-108 | concatenating `page(1)` to `page(num_pages)` gives back the whole list, in order |
| `PaginationLemmas.PageRangeIsValidNumbers` | django_paginator.py:157-163 | a number is in `page_range` exactly when `validate_number` accepts it |
| `PaginationLemmas.NextPageNumberMatchesHasNext` | django_paginator.py:201-202 | on a valid page, `next_page_number` gives `number + 1` when `has_next` holds, and `EmptyPage("That page contains no results")` otherwise |
| `PaginationLemmas.PreviousPageNumberMatchesHasPrevious` | django_paginator.py:204-205 | on a valid page, `previous_page_number` gives `number - 1` when `has_previous` holds, and `EmptyPage("That page number is less than 1")` otherwise |
| `PaginationLemmas.IndicesSpanPage` | django_paginator.py:207-227 | for a non-empty list, `start_index` is `bottom + 1`, `end_index` is `top`, and `end_index - start_index + 1` is the page's length; for an empty list both are 0 and the page is empty |
| `PaginationLemmas.PageItemIsListItem` | django_paginator.py:183-190 | item `j` of a valid page, whether indexed from the front or from the back, is item `start_index + j` (1-based) of the whole list |
| `PaginationLemmas.OrphanExample` | django_paginator.py:87-92 | 23 items, 8 per page and 3 orphans give 3 pages: `s[0..8]`, `s[8..16]` and `s[16..23]`; the last page's `end_index` is 23 |
| `Paginators.Paginator.constructor` | django_paginator.py:57-62 | the paginator stores its configuration, and both caches start empty |
| `Paginators.Paginator.Count` | django_paginator.py:120-133 | `count` is the number of items; it fills the count cache, and a filled cache is returned unchanged |
| `Paginators.Paginator.NumPages` | django_paginator.py:135-155 | `num_pages` equals `Pagination.NumPages`; it fills both caches, and once filled they are read back unchanged |
| `Paginators.Paginator.PageRange` | django_paginator.py:157-164 | `page_range` equals `Pagination.PageRange` of the page count |
| `Paginators.Paginator.ValidateNumber` | django_paginator.py:64-80 | the result equals `Pagination.ValidateNumber` with the real page count; the caches are consulted only for an integer of at least 1 |
| `Paginators.Paginator.GetPage` | django_paginator.py:82-108 | validation errors are passed on unchanged; otherwise a fresh page with the validated number (within `1 .. num_pages`) and the items `Pagination.PageItems` names, linked back to this paginator |
| `Paginators.Paginator.NewPage` | django_paginator.py:111-118 | the hook builds a fresh page from the given items and number, linked to this paginator |
| `Paginators.Page.constructor` | django_paginator.py:172-175 | a page stores its items, number and paginator |
| `Paginators.Page.Len` | django_paginator.py:180-181 | `len(page)` is the number of non-negative positions at which indexing the page finds an item |
| `Paginators.Page.GetItem` | django_paginator.py:183-190 | indexing gives `Pagination.Subscript` of the items; an index of another kind raises a type error before the items are converted; otherwise the items become a list, with unchanged contents |
| `Paginators.Page.HasNext` | django_paginator.py:192-193 | `has_next` is `number < num_pages`; afterwards the page-count cache is filled |
| `Paginators.Page.HasPrevious` | django_paginator.py:195-196 | `has_previous` is `number > 1` |
| `Paginators.Page.HasOtherPages` | django_paginator.py:198-199 | `has_other_pages` is the disjunction of the two; when there is a previous page, the paginator is left untouched, and otherwise its page-count cache is filled |
| `Paginators.Page.NextPageNumber` | django_paginator.py:201-202 | `next_page_number` is the validation of `number + 1`; the page-count cache is filled when `number + 1 >= 1`, and the paginator is untouched otherwise |
| `Paginators.Page.PreviousPageNumber` | django_paginator.py:204-205 | `previous_page_number` is the validation of `number - 1`; the page-count cache is filled when `number - 1 >= 1`, and the paginator is untouched otherwise |
| `Paginators.Page.StartIndex` | django_paginator.py:207-216 | `start_index` equals `Pagination.StartIndex`: 0 for an empty list, else `per_page * (number - 1) + 1`; afterwards the count cache is filled |
| `Paginators.Page.EndIndex` | django_paginator.py:218-227 | `end_index` equals `Pagination.EndIndex`: `count` on the last page, else `number * per_page`; afterwards the page-count cache is filled |

## Left out

- The choice between `object_list.count()` and `len(object_list)` is not modelled. The count is the length of the sequence.
- Python's `int()` coercion of arbitrary objects is not modelled. Only its outcome is: an integer, or a failure (`PageNotAnInteger`). The source turns only `TypeError` and `ValueError` into `PageNotAnInteger`; any other failure of `int()`, such as the `OverflowError` of `int(float('inf'))`, escapes to the caller, and the model does not show that.
- The list is a constant `seq<T>`, so the model cannot show the memoised `count` and `num_pages` going stale when the caller changes the list after they were filled. `Paginator.Valid()` ties a filled cache to the list's current length, which holds only because the list cannot change here.
- `ceil(hits / float(per_page))` is modelled as integer ceiling division. The two differ only when floating point rounding sets in, which needs counts beyond 2^53.
- A `per_page` below 1 and a negative `orphans` are not modelled. The source never checks them, and a `per_page` of 0 would divide by zero.
- Slices with a step other than 1 are not modelled in `Page.__getitem__`. Neither are the messages of Python's `TypeError` and `IndexError`.
- The materialisation of a query set into a list is modelled only as a flag. The items are already a sequence, and their contents do not change.
- `__repr__` and the `QuerySetPaginator` alias are not modelled. The methods `Page` inherits from `collections.Sequence` (iteration, `in`, `index`, `count`) are not modelled either.
- Subclasses that override the `_get_page` hook are not modelled. `NewPage` always builds a `Page`.
- Concurrent access to the memoised fields is not modelled. The source is single-threaded.
- The unused imports (`time`, `uuid`, `datetime`, `heapq`, `sleep`) and the Python 2/3 compatibility glue have no logic to model.
