/**
 * A region-picker component (no page of the app mounts it): the metadata's
 * region labels, narrowed by a search box and shown ten to a page, with
 * Previous and Next buttons.
 */
module RegionListView {
  import opened Common
  import opened Dataset
  import opened Search

  const RowsPerPage: nat := 10
  const NoRegionsRow := "No regions found."

  /** `data?.metadata?.dimensions?.region?.labels ?? []` */
  function RegionLabels(data: Option<DataFile>): (labels: seq<string>)
    ensures labels != [] ==>
      && data.Some? && data.value.metadata.Some?
      && data.value.metadata.value.dimensions.Some?
      && data.value.metadata.value.dimensions.value.region.Some?
      && data.value.metadata.value.dimensions.value.region.value.labels == Some(labels)
    ensures
      && data.Some? && data.value.metadata.Some?
      && data.value.metadata.value.dimensions.Some?
      && data.value.metadata.value.dimensions.value.region.Some?
      && data.value.metadata.value.dimensions.value.region.value.labels.Some?
      ==> labels == data.value.metadata.value.dimensions.value.region.value.labels.value
  {
    match data
    case None => []
    case Some(d) =>
      match d.metadata
      case None => []
      case Some(md) =>
        match md.dimensions
        case None => []
        case Some(dims) =>
          match dims.region
          case None => []
          case Some(axis) => axis.labels.OrElse([])
  }

  /** `regions.filter(region => region.toLowerCase().includes(search.toLowerCase()))` */
  function FilterLabels(regions: seq<string>, search: string): (r: seq<string>)
    ensures |r| <= |regions|
    ensures forall i :: 0 <= i < |r| ==> r[i] in regions && Matches(r[i], search)
    ensures forall j :: 0 <= j < |regions| && Matches(regions[j], search) ==> regions[j] in r
  {
    Filter(regions, (s: string) => s, search)
  }

  /** `Math.max(1, Math.ceil(n / rowsPerPage))` */
  function TotalPages(n: nat): (pages: nat)
    ensures pages >= 1
    ensures n == 0 ==> pages == 1
    ensures n > 0 ==> (pages - 1) * RowsPerPage < n <= pages * RowsPerPage
  {
    var ceiling := (n + RowsPerPage - 1) / RowsPerPage;
    if ceiling < 1 then 1 else ceiling
  }

  /** Index normalisation of `Array.prototype.slice`: negative counts from the end, then clamp. */
  function SliceIndex(i: int, len: nat): nat {
    if i < 0 then (if len + i < 0 then 0 else len + i)
    else if i > len then len
    else i
  }

  /** `s.slice(start, end)` */
  function Slice<T>(s: seq<T>, start: int, end: int): seq<T> {
    var a := SliceIndex(start, |s|);
    var b := SliceIndex(end, |s|);
    if a < b then s[a..b] else []
  }

  /** `filteredRegions.slice((page - 1) * rowsPerPage, page * rowsPerPage)` */
  function PageOf(filtered: seq<string>, page: int): (r: seq<string>)
    ensures page >= 1 ==> |r| <= RowsPerPage
    ensures page >= 1 ==> forall k :: 0 <= k < |r| ==>
      (page - 1) * RowsPerPage + k < |filtered| && r[k] == filtered[(page - 1) * RowsPerPage + k]
    ensures page >= 1 && (page - 1) * RowsPerPage < |filtered| ==>
      |r| == if page * RowsPerPage <= |filtered| then RowsPerPage else |filtered| - (page - 1) * RowsPerPage
    ensures page >= 1 && (page - 1) * RowsPerPage >= |filtered| ==> r == []
  {
    Slice(filtered, (page - 1) * RowsPerPage, page * RowsPerPage)
  }

  /** The table body: the page's labels, or the single placeholder row when the page is empty. */
  function Rows(pageLabels: seq<string>): (rows: seq<string>)
    ensures pageLabels != [] ==> rows == pageLabels
    ensures pageLabels == [] ==> rows == [NoRegionsRow]
  {
    if |pageLabels| > 0 then pageLabels else [NoRegionsRow]
  }

  /** Pages `from` through `last`, one after the other. */
  function PagesFrom(filtered: seq<string>, from: nat, last: nat): seq<string>
    decreases last + 1 - from
  {
    if from > last then [] else PageOf(filtered, from) + PagesFrom(filtered, from + 1, last)
  }

  /** Pages `p` through the last page, read in order, are the filtered list from the first row of page `p`. */
  lemma {:induction false} PagesFromCover(filtered: seq<string>, p: nat)
    requires p >= 1 && (p - 1) * RowsPerPage <= |filtered|
    requires |filtered| > 0 ==> (p - 1) * RowsPerPage < |filtered| || p == TotalPages(|filtered|) + 1
    requires |filtered| == 0 ==> p <= 1
    ensures PagesFrom(filtered, p, TotalPages(|filtered|)) == filtered[(p - 1) * RowsPerPage..]
    decreases TotalPages(|filtered|) + 1 - p
  {
    var last := TotalPages(|filtered|);
    var start := (p - 1) * RowsPerPage;
    if p > last {
      assert start == |filtered|;
    } else {
      var page := PageOf(filtered, p);
      if start == |filtered| {
        assert page == [];
        assert |filtered| == 0;
        assert PagesFrom(filtered, p + 1, last) == [];
      } else if p * RowsPerPage < |filtered| {
        assert page == filtered[start..start + RowsPerPage];
        PagesFromCover(filtered, p + 1);
        assert filtered[start..] == page + filtered[p * RowsPerPage..];
      } else {
        assert page == filtered[start..];
        assert p == last;
        assert PagesFrom(filtered, p + 1, last) == [];
      }
    }
  }

  /** Reading pages 1 through `TotalPages` in order gives back the filtered list. */
  lemma PagesConcatenate(filtered: seq<string>)
    ensures PagesFrom(filtered, 1, TotalPages(|filtered|)) == filtered
  {
    PagesFromCover(filtered, 1);
  }

  /** A page in range is empty, and so shows the placeholder row, exactly when nothing matches. */
  lemma EmptyPageIffNoMatch(filtered: seq<string>, page: int)
    requires 1 <= page <= TotalPages(|filtered|)
    ensures PageOf(filtered, page) == [] <==> filtered == []
  {
  }

  /** The picker's state: the labels it was given, the current page and the search text. */
  class RegionList {
    const regions: seq<string>
    var page: int
    var search: string

    function Filtered(): seq<string>
      reads this
    {
      FilterLabels(regions, search)
    }

    /** The current page number is one of the pages there are. */
    ghost predicate Valid()
      reads this
    {
      1 <= page <= TotalPages(|Filtered()|)
    }

    /** `paginatedRegions` */
    function Paginated(): (r: seq<string>)
      reads this
      requires Valid()
      ensures |r| <= RowsPerPage
      ensures r == [] <==> Filtered() == []
    {
      var filtered := Filtered();
      EmptyPageIffNoMatch(filtered, page);
      PageOf(filtered, page)
    }

    /** First render: page 1, empty search. */
    constructor (data: Option<DataFile>)
      ensures Valid()
      ensures regions == RegionLabels(data) && page == 1 && search == ""
    {
      regions := RegionLabels(data);
      page := 1;
      search := "";
    }

    /**
     * Typing in the search box; the effect on `[search]` puts the page back to 1.
     * The input's `onChange` fires only when the text changes, so `text` differs from `search`.
     */
    method SetSearch(text: string)
      requires text != search
      modifies this
      ensures Valid()
      ensures search == text && page == 1
    {
      search := text;
      page := 1;
    }

    /** Previous: disabled on page 1, otherwise one page back. */
    method PressPrevious()
      requires Valid()
      modifies this
      ensures Valid()
      ensures search == old(search)
      ensures page == if old(page) == 1 then old(page) else old(page) - 1
    {
      if page != 1 {
        page := page - 1;
      }
    }

    /** Next: disabled on the last page, otherwise one page on. */
    method PressNext()
      requires Valid()
      modifies this
      ensures Valid()
      ensures search == old(search)
      ensures page == if old(page) == TotalPages(|Filtered()|) then old(page) else old(page) + 1
    {
      var totalPages := TotalPages(|Filtered()|);
      if !(page == totalPages || totalPages == 0) {
        page := page + 1;
      }
    }
  }
}
