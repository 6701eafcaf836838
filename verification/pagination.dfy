/** Page arithmetic, the pagination summary and the RFC 5988 `Link` header
    built for paginated list responses. */
module Pagination {
  import opened Wrappers
  import opened Text
  import opened OrderedDict
  import opened UrlEncoding

  /** A validated page request; pages are numbered from 1. */
  datatype PaginationParams = PaginationParams(page: int, perPage: int) {
    /** The number of records skipped before this page: never negative for
        a valid request, and one page size short of where the page ends. */
    function Offset(): (o: int)
      ensures page >= 1 && perPage >= 0 ==> o >= 0
      ensures o + perPage == page * perPage
    {
      if page >= 1 && perPage >= 0 then
        MulLeMonotone(0, page - 1, perPage);
        (page - 1) * perPage
      else (page - 1) * perPage
    }

    /** The number of records on this page: the next page starts right
        after them. */
    function Limit(): (l: int)
      ensures Offset() + l == PaginationParams(page + 1, perPage).Offset()
    {
      perPage
    }
  }

  lemma MulLeMonotone(a: int, b: int, c: int)
    requires a <= b && c >= 0
    ensures a * c <= b * c
  {
    assert b * c - a * c == (b - a) * c;
  }

  /** Pages of a valid request start at a non-negative multiple of the page
      size, and page `p + 1` starts exactly where page `p` ends, so the pages
      tile the result set without gaps or overlaps. */
  lemma PagesTile(p: PaginationParams)
    requires p.page >= 1 && p.perPage >= 1
    ensures p.Offset() >= 0 && p.Limit() == p.perPage
    ensures PaginationParams(p.page + 1, p.perPage).Offset() == p.Offset() + p.Limit()
  {
    var a, b := p.page, p.perPage;
    MulLeMonotone(0, a - 1, b);
    assert a * b == (a - 1) * b + b;
  }

  predicate OnPage(i: int, p: PaginationParams) {
    p.Offset() <= i < p.Offset() + p.Limit()
  }

  /** Record number `i` (counting from 0) lies on page `i / per_page + 1`, and
      on no other page of the same size. */
  lemma RecordPage(i: int, p: PaginationParams)
    requires i >= 0 && p.perPage >= 1 && p.page >= 1
    ensures OnPage(i, PaginationParams(i / p.perPage + 1, p.perPage))
    ensures OnPage(i, p) <==> p.page == i / p.perPage + 1
  {
    var a, b, q := p.page, p.perPage, i / p.perPage;
    assert i == q * b + i % b;
    assert (q + 1) * b == q * b + b;
    assert a * b == (a - 1) * b + b;
    if OnPage(i, p) && a < q + 1 {
      MulLeMonotone(a, q, b);
    } else if OnPage(i, p) && a > q + 1 {
      MulLeMonotone(q + 1, a - 1, b);
    }
  }

  /** Python's floor division `a // b`. */
  function FloorDiv(a: int, b: int): (q: int)
    requires b != 0
    ensures b > 0 ==> b * q <= a < b * q + b
    ensures b < 0 ==> b * q + b < a <= b * q
  {
    if b > 0 || a % b == 0 then a / b else a / b - 1
  }

  /** The pagination summary of a response; unknown parts are `None`. */
  datatype PaginationInfo = PaginationInfo(
    page: int,
    perPage: int,
    totalPages: Option<int>,
    totalItems: Option<int>,
    hasNext: Option<bool>,
    hasPrev: Option<bool>)

  /** `(total_items + per_page - 1) // per_page`: the ceiling of the quotient. */
  function TotalPages(totalItems: int, perPage: int): (n: int)
    requires perPage >= 1
    ensures (n - 1) * perPage < totalItems <= n * perPage
  {
    FloorDiv(totalItems + perPage - 1, perPage)
  }

  /** `calculate_pagination_info`. The summary records the page, the page
      size and whether neighbouring pages exist; the totals are left unset.
      With a positive page size there is a next page exactly when the records
      up to the end of this page do not exhaust the total. */
  function CalculatePaginationInfo(page: int, perPage: int, totalItems: int): (r: PaginationInfo)
    requires perPage >= 1
    ensures r.page == page && r.perPage == perPage
    ensures r.totalPages == None && r.totalItems == None
    ensures r.hasPrev == Some(page > 1)
    ensures r.hasNext == Some(page * perPage < totalItems)
  {
    var totalPages := TotalPages(totalItems, perPage);
    if page < totalPages then
      MulLeMonotone(page, totalPages - 1, perPage);
      PaginationInfo(page, perPage, None, None, Some(true), Some(page > 1))
    else
      MulLeMonotone(totalPages, page, perPage);
      PaginationInfo(page, perPage, None, None, Some(false), Some(page > 1))
  }

  /** `parse_pagination_params`: missing values take their defaults, then the
      page, the lower bound of the page size and its upper bound are checked
      in that order; a failure carries the `ValueError` message. */
  function ParsePaginationParams(page: Option<int>, perPage: Option<int>, defaultPageSize: int, maxPageSize: int)
    : (r: Result<PaginationParams, string>)
    ensures var pg := page.GetOr(1); var pp := perPage.GetOr(defaultPageSize);
      && (r.Success? <==> pg >= 1 && 1 <= pp <= maxPageSize)
      && (r.Success? ==> r.value == PaginationParams(pg, pp))
      && (pg < 1 ==> r == Failure("Page must be >= 1"))
      && (pg >= 1 && pp < 1 ==> r == Failure("per_page must be >= 1"))
      && (pg >= 1 && pp > maxPageSize && pp >= 1 ==> r == Failure("per_page cannot exceed " + IntToString(maxPageSize)))
  {
    var pg := page.GetOr(1);
    var pp := perPage.GetOr(defaultPageSize);
    if pg < 1 then Failure("Page must be >= 1")
    else if pp < 1 then Failure("per_page must be >= 1")
    else if pp > maxPageSize then Failure("per_page cannot exceed " + IntToString(maxPageSize))
    else Success(PaginationParams(pg, pp))
  }

  /** A request as far as the link header needs it: the full URL and the raw
      query pairs in the order they appear, repeated keys included. */
  datatype Request = Request(url: string, queryParams: seq<Item>)

  /** One link of the header before rendering. */
  datatype Link = Link(params: seq<Item>, rel: string)

  /** The URL with its query string cut off. */
  function BaseUrl(url: string): string {
    Split(url, '?')[0]
  }

  /** `dict(request.query_params)`: one entry per key, at the place of its
      first occurrence, holding its last value. */
  function QueryDict(request: Request): (d: seq<Item>)
    ensures UniqueKeys(d)
  {
    UpdateUnique([], request.queryParams);
    Update([], request.queryParams)
  }

  /** The parameters every link carries besides `page` and `per_page`. */
  function SharedParams(request: Request, extra: Option<seq<Item>>): seq<Item> {
    var merged := if extra.Some? && extra.value != [] then Update(QueryDict(request), extra.value) else QueryDict(request);
    Remove(merged, "page")
  }

  /** `{**query_params, 'page': page, 'per_page': per_page}` */
  function WithPage(shared: seq<Item>, page: string, perPage: int): seq<Item> {
    Set(Set(shared, "page", page), "per_page", IntToString(perPage))
  }

  /** `str(pagination.total_pages)`, which is `"None"` when it is unset. */
  function PageText(page: Option<int>): string {
    if page.Some? then IntToString(page.value) else "None"
  }

  predicate IsTrue(b: Option<bool>) {
    b == Some(true)
  }

  /** The link to `page` with the given relation. */
  function PageLink(shared: seq<Item>, page: string, perPage: int, rel: string): Link {
    Link(WithPage(shared, page, perPage), rel)
  }

  /** The optional link, present when `present` is true. */
  function OptionalLink(present: Option<bool>, shared: seq<Item>, page: int, perPage: int, rel: string): seq<Link> {
    if IsTrue(present) then [PageLink(shared, IntToString(page), perPage, rel)] else []
  }

  /** The links of a header whose links share the parameters `shared`, in
      the order they are written. */
  function LinksFor(shared: seq<Item>, pagination: PaginationInfo): seq<Link> {
    [PageLink(shared, IntToString(1), pagination.perPage, "first"),
     PageLink(shared, PageText(pagination.totalPages), pagination.perPage, "last")]
    + OptionalLink(pagination.hasPrev, shared, pagination.page - 1, pagination.perPage, "prev")
    + OptionalLink(pagination.hasNext, shared, pagination.page + 1, pagination.perPage, "next")
  }

  /** The links of `build_link_header`. */
  function LinkEntries(request: Request, pagination: PaginationInfo, extra: Option<seq<Item>>): seq<Link> {
    LinksFor(SharedParams(request, extra), pagination)
  }

  /** `<base?query>; rel="name"` */
  function RenderLink(base: string, link: Link): string {
    "<" + base + "?" + UrlEncode(link.params) + ">; rel=\"" + link.rel + "\""
  }

  function RenderLinks(base: string, links: seq<Link>): (rendered: seq<string>)
    ensures |rendered| == |links|
    ensures forall i :: 0 <= i < |links| ==> rendered[i] == RenderLink(base, links[i])
  {
    seq(|links|, i requires 0 <= i < |links| => RenderLink(base, links[i]))
  }

  lemma RenderLinksAppend(base: string, links: seq<Link>, link: Link)
    ensures RenderLinks(base, links + [link]) == RenderLinks(base, links) + [RenderLink(base, link)]
  {
  }

  /** The request's parameters updated with the extra ones, without `page`:
      what every link carries besides its own page and size. */
  method SharedParameters(request: Request, extra: Option<seq<Item>>) returns (shared: seq<Item>)
    requires extra.Some? ==> UniqueKeys(extra.value)
    ensures shared == SharedParams(request, extra)
  {
    var queryParams := new StringDict();
    queryParams.UpdateFrom(request.queryParams);
    if extra.Some? && extra.value != [] {
      queryParams.UpdateFrom(extra.value);
    }
    var removed := queryParams.Pop("page");
    shared := queryParams.items;
  }

  /** `build_link_header`: the rendered links joined by `", "`. */
  method BuildLinkHeader(request: Request, pagination: PaginationInfo, extra: Option<seq<Item>>)
    returns (header: string)
    requires extra.Some? ==> UniqueKeys(extra.value)
    ensures header == Join(RenderLinks(BaseUrl(request.url), LinkEntries(request, pagination, extra)), ", ")
  {
    var baseUrl := Split(request.url, '?')[0];
    var shared := SharedParameters(request, extra);
    var links := RenderedLinks(baseUrl, shared, pagination);
    header := Join(links, ", ");
  }

  /** The links rendered one by one: first and last, then prev and next when
      the pagination has them. */
  method RenderedLinks(baseUrl: string, shared: seq<Item>, pagination: PaginationInfo) returns (links: seq<string>)
    ensures links == RenderLinks(baseUrl, LinksFor(shared, pagination))
  {
    var pp := pagination.perPage;
    var first := PageLink(shared, IntToString(1), pp, "first");
    var last := PageLink(shared, PageText(pagination.totalPages), pp, "last");
    links := AddLink(baseUrl, [], [], first);
    links := AddLink(baseUrl, links, [first], last);
    ghost var entries := [first, last];
    links := AddOptionalLink(baseUrl, links, entries, pagination.hasPrev, shared, pagination.page - 1, pp, "prev");
    entries := entries + OptionalLink(pagination.hasPrev, shared, pagination.page - 1, pp, "prev");
    links := AddOptionalLink(baseUrl, links, entries, pagination.hasNext, shared, pagination.page + 1, pp, "next");
    entries := entries + OptionalLink(pagination.hasNext, shared, pagination.page + 1, pp, "next");
    assert entries == LinksFor(shared, pagination);
  }

  /** The link rendered and appended. */
  method AddLink(base: string, links: seq<string>, ghost entries: seq<Link>, link: Link) returns (longer: seq<string>)
    requires links == RenderLinks(base, entries)
    ensures longer == RenderLinks(base, entries + [link])
  {
    RenderLinksAppend(base, entries, link);
    longer := links + [RenderLink(base, link)];
  }

  /** One `if pagination.has_…:` step: the link is rendered and appended
      only when the flag is true. */
  method AddOptionalLink(base: string, links: seq<string>, ghost entries: seq<Link>,
                         present: Option<bool>, shared: seq<Item>, page: int, perPage: int, rel: string)
    returns (longer: seq<string>)
    requires links == RenderLinks(base, entries)
    ensures longer == RenderLinks(base, entries + OptionalLink(present, shared, page, perPage, rel))
  {
    if present == Some(true) {
      longer := AddLink(base, links, entries, PageLink(shared, IntToString(page), perPage, rel));
    } else {
      assert entries + [] == entries;
      longer := links;
    }
  }


  function Rels(links: seq<Link>): (rels: seq<string>)
    ensures |rels| == |links|
    ensures forall i :: 0 <= i < |links| ==> rels[i] == links[i].rel
  {
    seq(|links|, i requires 0 <= i < |links| => links[i].rel)
  }

  /** The page a link of the given relation points at. */
  function TargetPage(pagination: PaginationInfo, rel: string): string {
    if rel == "first" then IntToString(1)
    else if rel == "last" then PageText(pagination.totalPages)
    else if rel == "prev" then IntToString(pagination.page - 1)
    else IntToString(pagination.page + 1)
  }

  /** `first` and `last` are always present and come first; `prev` and
      `next` follow, each exactly when the summary says that page exists. */
  lemma LinkRelations(request: Request, pagination: PaginationInfo, extra: Option<seq<Item>>)
    ensures Rels(LinkEntries(request, pagination, extra))
         == ["first", "last"]
            + (if IsTrue(pagination.hasPrev) then ["prev"] else [])
            + (if IsTrue(pagination.hasNext) then ["next"] else [])
  {
  }

  /** Every link sets `page` to the page its relation names and `per_page` to
      the current page size. Every other parameter is the one the request
      carried, except that a non-empty `extra` overrides the request; the
      request's own `page` never survives. */
  lemma LinkParameters(request: Request, pagination: PaginationInfo, extra: Option<seq<Item>>, i: int, k: string)
    requires extra.Some? ==> UniqueKeys(extra.value)
    requires 0 <= i < |LinkEntries(request, pagination, extra)|
    ensures var link := LinkEntries(request, pagination, extra)[i];
      && Get(link.params, "page") == Some(TargetPage(pagination, link.rel))
      && Get(link.params, "per_page") == Some(IntToString(pagination.perPage))
      && (k != "page" && k != "per_page" ==>
            Get(link.params, k) ==
              if extra.Some? && k in Keys(extra.value) then Get(extra.value, k)
              else Get(QueryDict(request), k))
  {
    var link := LinkEntries(request, pagination, extra)[i];
    var shared := SharedParams(request, extra);
    LinkAtIndex(request, pagination, extra, i);
    WithPageGet(shared, TargetPage(pagination, link.rel), pagination.perPage, "page");
    WithPageGet(shared, TargetPage(pagination, link.rel), pagination.perPage, "per_page");
    WithPageGet(shared, TargetPage(pagination, link.rel), pagination.perPage, k);
    SharedGet(request, extra, k);
  }

  /** Each link carries the shared parameters with its own target page. */
  lemma LinkAtIndex(request: Request, pagination: PaginationInfo, extra: Option<seq<Item>>, i: int)
    requires 0 <= i < |LinkEntries(request, pagination, extra)|
    ensures var link := LinkEntries(request, pagination, extra)[i];
      link.params == WithPage(SharedParams(request, extra), TargetPage(pagination, link.rel), pagination.perPage)
  {
    var links := LinkEntries(request, pagination, extra);
    var shared := SharedParams(request, extra);
    assert |links| >= 2;
    if i >= 2 && IsTrue(pagination.hasPrev) && i == 2 {
      assert links[i] == PageLink(shared, IntToString(pagination.page - 1), pagination.perPage, "prev");
    }
  }

  /** `page` and `per_page` are overwritten; every other key keeps its value. */
  lemma WithPageGet(shared: seq<Item>, page: string, perPage: int, q: string)
    ensures Get(WithPage(shared, page, perPage), q) ==
              if q == "per_page" then Some(IntToString(perPage))
              else if q == "page" then Some(page)
              else Get(shared, q)
  {
    SetGet(Set(shared, "page", page), "per_page", IntToString(perPage), q);
    SetGet(shared, "page", page, q);
  }

  /** The shared parameters: the extra value when given, the request's
      otherwise, and never `page`. */
  lemma SharedGet(request: Request, extra: Option<seq<Item>>, k: string)
    requires extra.Some? ==> UniqueKeys(extra.value)
    ensures Get(SharedParams(request, extra), k) ==
              if k == "page" then None
              else if extra.Some? && k in Keys(extra.value) then Get(extra.value, k)
              else Get(QueryDict(request), k)
  {
    var merged := if extra.Some? && extra.value != [] then Update(QueryDict(request), extra.value) else QueryDict(request);
    RemoveGet(merged, "page", k);
    if extra.Some? && extra.value != [] {
      UpdateGet(QueryDict(request), extra.value, k);
    }
  }


  /** Each link's query string reads back, pair by pair, as its parameters. */
  lemma LinkQueryReadsBack(link: Link)
    requires |link.params| >= 1
    ensures Split(UrlEncode(link.params), '&') == EncodedPairs(link.params)
  {
    UrlEncodeSplits(link.params);
  }

  /** The `last` link of a summary made by `calculate_pagination_info` points
      at page `None`, because that summary never sets `total_pages`. */
  lemma LastLinkPointsAtNone(request: Request, page: int, perPage: int, totalItems: int, extra: Option<seq<Item>>)
    requires perPage >= 1
    requires extra.Some? ==> UniqueKeys(extra.value)
    ensures var links := LinkEntries(request, CalculatePaginationInfo(page, perPage, totalItems), extra);
      links[1].rel == "last" && Get(links[1].params, "page") == Some("None")
  {
    LinkParameters(request, CalculatePaginationInfo(page, perPage, totalItems), extra, 1, "page");
  }

  /** The links as evidently intended: `last` points at the last page, which
      is computed from the total when the summary does not carry it. */
  function IntendedLinkEntries(request: Request, pagination: PaginationInfo, extra: Option<seq<Item>>, totalItems: int)
    : seq<Link>
    requires pagination.perPage >= 1
  {
    var lastPage := if pagination.totalPages.Some? then pagination.totalPages.value
                    else TotalPages(totalItems, pagination.perPage);
    LinkEntries(request, pagination.(totalPages := Some(lastPage)), extra)
  }

  lemma IntToStringIsNotNone(n: int)
    ensures IntToString(n) != "None"
  {
    if n < 0 {
      assert IntToString(n)[0] == '-';
    } else {
      assert '0' <= NatToString(n)[0] <= '9';
    }
  }

  lemma NumberedTarget(pagination: PaginationInfo, rel: string)
    requires pagination.totalPages.Some?
    ensures TargetPage(pagination, rel) != "None"
  {
    if rel == "first" {
      IntToStringIsNotNone(1);
    } else if rel == "last" {
      IntToStringIsNotNone(pagination.totalPages.value);
    } else if rel == "prev" {
      IntToStringIsNotNone(pagination.page - 1);
    } else {
      IntToStringIsNotNone(pagination.page + 1);
    }
  }

  /** In the intended header every link points at a numbered page, `last`
      at the ceiling of the total over the page size, and the links agree
      with the written ones whenever the summary carries `total_pages`. */
  lemma IntendedLinksAreNumbered(request: Request, pagination: PaginationInfo, extra: Option<seq<Item>>, totalItems: int, i: int)
    requires pagination.perPage >= 1
    requires extra.Some? ==> UniqueKeys(extra.value)
    requires 0 <= i < |IntendedLinkEntries(request, pagination, extra, totalItems)|
    ensures Get(IntendedLinkEntries(request, pagination, extra, totalItems)[i].params, "page") != Some("None")
    ensures pagination.totalPages.None? ==>
              Get(IntendedLinkEntries(request, pagination, extra, totalItems)[1].params, "page")
                == Some(IntToString(TotalPages(totalItems, pagination.perPage)))
    ensures pagination.totalPages.Some? ==>
              IntendedLinkEntries(request, pagination, extra, totalItems) == LinkEntries(request, pagination, extra)
  {
    var lastPage := if pagination.totalPages.Some? then pagination.totalPages.value
                    else TotalPages(totalItems, pagination.perPage);
    var fixed := pagination.(totalPages := Some(lastPage));
    var links := LinkEntries(request, fixed, extra);
    assert IntendedLinkEntries(request, pagination, extra, totalItems) == links;
    LinkParameters(request, fixed, extra, i, "page");
    LinkParameters(request, fixed, extra, 1, "page");
    NumberedTarget(fixed, links[i].rel);
    if pagination.totalPages.Some? {
      assert fixed == pagination;
    }
  }
}
