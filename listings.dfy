/** The listing use cases: SearchRoutes, AdvancedSearchRoutes,
    ListCompanyRoutes and ListCompanies. Each makes one repository read,
    passes its rows and count through unchanged and adds the page metadata.
    The repository reads are database queries and are parameters here, as is
    JavaScript's `new Date(text)`. */
module Listings {
  import opened Wrappers
  import opened Entities
  import opened Pagination

  /** What `new Date(...)` yields: an instant, or an Invalid Date. */
  datatype JsDate = ValidDate(t: int) | InvalidDate

  /** The request's date: a text or a Date. */
  datatype DateArg = DateText(text: string) | DateValue(t: int)

  /** `date && typeof date === 'string' ? new Date(date) : date instanceof
      Date ? date : undefined`: an empty text counts as no date. */
  function DateObject(date: Option<DateArg>, parseDate: string -> JsDate): (d: Option<JsDate>)
    ensures date.None? || date == Some(DateText("")) ==> d.None?
    ensures date.Some? && date.value.DateText? && date.value.text != "" ==> d == Some(parseDate(date.value.text))
    ensures date.Some? && date.value.DateValue? ==> d == Some(ValidDate(date.value.t))
  {
    match date
    case None => None
    case Some(DateText(s)) => if s == "" then None else Some(parseDate(s))
    case Some(DateValue(t)) => Some(ValidDate(t))
  }

  datatype RoutePage = RoutePage(routes: seq<Route>, total: nat)

  datatype RoutesResponse = RoutesResponse(routes: seq<Route>, meta: Meta)

  datatype SearchRequest = SearchRequest(
    origin: Option<string>,
    destination: Option<string>,
    date: Option<DateArg>,
    transport: Option<string>,
    page: Option<int>,
    limit: Option<int>)

  /** The arguments of routeRepository.search. */
  datatype SearchQuery = SearchQuery(
    origin: Option<string>,
    destination: Option<string>,
    date: Option<JsDate>,
    transport: Option<string>,
    page: int,
    limit: int)

  /** SearchRoutesUseCase.execute: page defaults to 1 and limit to 10; the
      filters go to the repository as given (the date converted); the rows
      and count come back unchanged. */
  function SearchRoutes(req: SearchRequest, parseDate: string -> JsDate, search: SearchQuery -> RoutePage): (r: RoutesResponse)
    ensures var query := SearchQuery(req.origin, req.destination, DateObject(req.date, parseDate), req.transport,
                               req.page.GetOr(1), req.limit.GetOr(10));
      && r.routes == search(query).routes
      && r.meta.total == search(query).total
      && r.meta.page == req.page.GetOr(1) && r.meta.limit == req.limit.GetOr(10)
      && r.meta.totalPages == TotalPages(search(query).total, req.limit.GetOr(10))
      && (r.meta.hasMore <==> Below(req.page.GetOr(1), r.meta.totalPages))
  {
    var page, limit := req.page.GetOr(1), req.limit.GetOr(10);
    var result := search(SearchQuery(req.origin, req.destination, DateObject(req.date, parseDate), req.transport, page, limit));
    RoutesResponse(result.routes, PageMeta(result.total, page, limit))
  }

  datatype AdvancedRequest = AdvancedRequest(
    origin: string,
    destination: string,
    date: Option<DateArg>,
    transport: Option<string>,
    page: Option<int>,
    limit: Option<int>,
    minPrice: Option<int>,
    maxPrice: Option<int>,
    companies: Option<seq<string>>,
    departureTimeStart: Option<string>,
    departureTimeEnd: Option<string>,
    amenities: Option<seq<string>>)

  /** The arguments of routeRepository.advancedSearch. */
  datatype AdvancedQuery = AdvancedQuery(
    origin: string,
    destination: string,
    date: Option<JsDate>,
    transport: Option<string>,
    page: int,
    limit: int,
    minPrice: Option<int>,
    maxPrice: Option<int>,
    companies: Option<seq<string>>,
    departureTimeStart: Option<string>,
    departureTimeEnd: Option<string>,
    amenities: Option<seq<string>>)

  /** AdvancedSearchRoutesUseCase.execute: the same defaults; every filter
      (price range, companies, departure window, amenities) is forwarded
      unchanged. */
  function AdvancedSearchRoutes(req: AdvancedRequest, parseDate: string -> JsDate, search: AdvancedQuery -> RoutePage): (r: RoutesResponse)
    ensures var query := AdvancedQuery(req.origin, req.destination, DateObject(req.date, parseDate), req.transport,
                                       req.page.GetOr(1), req.limit.GetOr(10), req.minPrice, req.maxPrice,
                                       req.companies, req.departureTimeStart, req.departureTimeEnd, req.amenities);
      && r.routes == search(query).routes
      && r.meta.total == search(query).total
      && r.meta.page == req.page.GetOr(1) && r.meta.limit == req.limit.GetOr(10)
      && r.meta.totalPages == TotalPages(search(query).total, req.limit.GetOr(10))
      && (r.meta.hasMore <==> Below(req.page.GetOr(1), r.meta.totalPages))
  {
    var page, limit := req.page.GetOr(1), req.limit.GetOr(10);
    var result := search(AdvancedQuery(req.origin, req.destination, DateObject(req.date, parseDate), req.transport,
                                       page, limit, req.minPrice, req.maxPrice, req.companies,
                                       req.departureTimeStart, req.departureTimeEnd, req.amenities));
    RoutesResponse(result.routes, PageMeta(result.total, page, limit))
  }

  /** ListCompanyRoutesUseCase.execute: only the caller's company is queried. */
  function ListCompanyRoutes(companyId: string, page: Option<int>, limit: Option<int>,
                             findByCompany: (string, int, int) -> RoutePage): (r: RoutesResponse)
    ensures var result := findByCompany(companyId, page.GetOr(1), limit.GetOr(10));
      && r.routes == result.routes && r.meta.total == result.total
      && r.meta.page == page.GetOr(1) && r.meta.limit == limit.GetOr(10)
      && r.meta.totalPages == TotalPages(result.total, limit.GetOr(10))
      && (r.meta.hasMore <==> Below(page.GetOr(1), r.meta.totalPages))
  {
    var p, l := page.GetOr(1), limit.GetOr(10);
    var result := findByCompany(companyId, p, l);
    RoutesResponse(result.routes, PageMeta(result.total, p, l))
  }

  datatype CompanyPage = CompanyPage(companies: seq<Company>, total: nat)

  datatype CompaniesResponse = CompaniesResponse(companies: seq<Company>, meta: Meta)

  /** ListCompaniesUseCase.execute: page and limit reach listAll unchanged,
      with no defaults and no range test, so a zero limit is possible. */
  function ListCompanies(page: int, limit: int, listAll: (int, int) -> CompanyPage): (r: CompaniesResponse)
    ensures r.companies == listAll(page, limit).companies && r.meta.total == listAll(page, limit).total
    ensures r.meta.page == page && r.meta.limit == limit
    ensures r.meta.totalPages == TotalPages(listAll(page, limit).total, limit)
    ensures r.meta.hasMore <==> Below(page, r.meta.totalPages)
  {
    var result := listAll(page, limit);
    CompaniesResponse(result.companies, PageMeta(result.total, page, limit))
  }

  /** With a positive limit, a search's hasMore says that rows remain after
      the requested page. */
  lemma SearchHasMore(req: SearchRequest, parseDate: string -> JsDate, search: SearchQuery -> RoutePage)
    requires req.limit.GetOr(10) > 0
    ensures var r := SearchRoutes(req, parseDate, search);
      r.meta.hasMore <==> req.page.GetOr(1) * req.limit.GetOr(10) < r.meta.total
  {
    var r := SearchRoutes(req, parseDate, search);
    HasMoreMeaning(r.meta.total, req.page.GetOr(1), req.limit.GetOr(10));
  }
}
