/**
 * The HTTP handler (internal/adapters/http/product_handler.go): request validation, the
 * mapping of core errors to status codes, and the list response with its pagination block.
 *
 * gin's binding is outside the model: each handler receives what binding produced, either
 * the bound request or the binding error's text. The path parameter, the clock and the id
 * generator are parameters, and so is every store failure.
 */
module Handler {
  import opened Wrappers
  import opened Domain
  import opened Ports
  import opened Dto
  import opened RepositoryFilter
  import opened Repository
  import opened Services

  const StatusOK := 200
  const StatusCreated := 201
  const StatusNoContent := 204
  const StatusBadRequest := 400
  const StatusNotFound := 404
  const StatusInternalServerError := 500

  /** The largest page the list endpoint serves. */
  const MaxPage := 1000

  /** What a handler writes: a JSON object `{"error": ...}` (with `"details"` for a list
      binding failure), a product, a product list, or nothing. */
  datatype Body =
    | ErrorBody(error: string)
    | ErrorDetailsBody(error: string, details: string)
    | ProductBody(product: Product)
    | ListBody(list: ListProductsResponse)
    | EmptyBody

  datatype HttpResponse = HttpResponse(status: int, body: Body)

  /** The answer to every failure the handler does not expose. */
  const InternalError := HttpResponse(StatusInternalServerError, ErrorBody("internal server error"))

  /** The body of Create and Update as gin binds it. */
  datatype CreateProductRequest = CreateProductRequest(name: string, description: string, price: real)

  /** The binding tags `required` on the name and `required,gt=0` on the price. */
  predicate BindingAccepts(r: CreateProductRequest) {
    r.name != "" && r.price > 0.0
  }

  /** A request the binding accepts always passes the factory's checks, so through HTTP the
      service's ErrInvalidProduct is unreachable on Create. */
  lemma BoundRequestMakesProduct(r: CreateProductRequest, id: string, now: Timestamp)
    requires BindingAccepts(r)
    ensures NewProduct(id, r.name, r.description, r.price, now).Ok?
  {
  }

  /** Create's error mapping: ErrInvalidProduct is a 400 with its text, anything else a 500
      that hides the cause. */
  function CreateErrorResponse(e: Error): (resp: HttpResponse)
    ensures e == ErrInvalidProduct ==> resp == HttpResponse(StatusBadRequest, ErrorBody("invalid product data"))
    ensures e != ErrInvalidProduct ==> resp == InternalError
  {
    if e == ErrInvalidProduct then HttpResponse(StatusBadRequest, ErrorBody(Message(e)))
    else InternalError
  }

  /** The error mapping of Get, Update and Delete: ErrNotFound is a 404 with its text,
      anything else a 500 that hides the cause. */
  function LookupErrorResponse(e: Error): (resp: HttpResponse)
    ensures e == ErrNotFound ==> resp == HttpResponse(StatusNotFound, ErrorBody("product not found"))
    ensures e != ErrNotFound ==> resp == InternalError
  {
    if e == ErrNotFound then HttpResponse(StatusNotFound, ErrorBody(Message(e)))
    else InternalError
  }

  /** Integer ceiling of n / d. */
  function CeilDiv(n: nat, d: int): (q: nat)
    requires d >= 1
    ensures (q - 1) * d < n <= q * d
  {
    var q := (n + d - 1) / d;
    assert q * d + (n + d - 1) % d == n + d - 1;
    q
  }

  /** The pagination block of a list response: the page count is the least number of pages
      of `limit` items that hold `total` items. */
  function Pagination(page: int, limit: int, total: nat): (info: PaginationInfo)
    requires limit >= 1
    ensures info.currentPage == page && info.perPage == limit && info.totalItems == total
    ensures info.totalPages >= 0
    ensures (info.totalPages - 1) * limit < total <= info.totalPages * limit
    ensures info.hasNext <==> page * limit < total
    ensures info.hasPrev <==> page > 1
  {
    PaginationInfo(page, limit, CeilDiv(total, limit), total, page * limit < total, page > 1)
  }

  /** Multiplying by a non-negative factor keeps the order. */
  lemma MulMonotone(a: int, b: int, c: int)
    requires a <= b && c >= 0
    ensures a * c <= b * c
  {
    assert b * c - a * c == (b - a) * c;
  }

  /** has_next says exactly that the current page comes before the last one. */
  lemma HasNextIffBeforeLastPage(page: int, limit: int, total: nat)
    requires page >= 1 && limit >= 1
    ensures var info := Pagination(page, limit, total);
      info.hasNext <==> page < info.totalPages
  {
    var info := Pagination(page, limit, total);
    var n := info.totalPages;
    if page < n {
      MulMonotone(page, n - 1, limit);
    } else {
      MulMonotone(n, page, limit);
    }
  }

  /** The cases of the handler's pagination tests: 2 items at 20 per page, and 50 items at
      10 per page seen from page 2. */
  lemma PaginationExamples()
    ensures Pagination(1, 20, 2) == PaginationInfo(1, 20, 1, 2, false, false)
    ensures Pagination(2, 10, 50) == PaginationInfo(2, 10, 5, 50, true, true)
  {
  }

  /** The response record of one product. */
  function ResponseOf(p: Product): ProductResponse {
    NewProductResponse(p.id, p.name, p.description, p.price, p.createdAt, p.updatedAt)
  }

  /** `rs` is `ps` converted one by one, in order. */
  predicate ConvertsTo(ps: seq<Product>, rs: seq<ProductResponse>) {
    |rs| == |ps| && forall i :: 0 <= i < |ps| ==> rs[i] == ResponseOf(ps[i])
  }

  /** The conversion loop: a slice of the result's length filled position by position. */
  method ToResponses(products: seq<Product>) returns (rs: seq<ProductResponse>)
    ensures ConvertsTo(products, rs)
  {
    var a := new ProductResponse[|products|];
    for i := 0 to |products|
      invariant forall k :: 0 <= k < i ==> a[k] == ResponseOf(products[k])
    {
      var p := products[i];
      a[i] := NewProductResponse(p.id, p.name, p.description, p.price, p.createdAt, p.updatedAt);
    }
    rs := a[..];
  }

  /** The second validation: both bounds given and in the wrong order. */
  predicate PriceRangeInverted(q: ListQuery) {
    q.minPrice > 0.0 && q.maxPrice > 0.0 && q.minPrice > q.maxPrice
  }

  /** The filters the handler sends carry the request's fields verbatim, with the offset of
      its page. */
  predicate CarriesRequest(f: ProductFilters, q: ListQuery) {
    && f.name == q.name && f.minPrice == q.minPrice && f.maxPrice == q.maxPrice
    && f.sortBy == q.sortBy && f.sortOrder == q.sortOrder
    && f.offset == q.GetOffset() && f.limit == q.limit
  }

  /** The filter summary of a list response: the request's filters when any is present,
      otherwise the zero record. */
  function AppliedFilters(q: ListQuery): (info: FilterInfo)
    ensures q.HasFilters() ==> info == FilterInfo(q.name, q.minPrice, q.maxPrice)
    ensures !q.HasFilters() ==> info == NoFilterInfo
  {
    if q.HasFilters() then FilterInfo(q.name, q.minPrice, q.maxPrice) else NoFilterInfo
  }

  /** The handler's HasFilters and the repository's guard agree on what is a filter. */
  lemma HasFiltersIsRepositoryGuard(f: ProductFilters, q: ListQuery)
    requires CarriesRequest(f, q)
    ensures q.HasFilters() <==> FilterActive(f)
  {
  }

  /** The handler tests' requests: no parameters gives offset 0 and limit 20; page 2 at
      10 per page gives offset 10; page 3 at 5 per page gives offset 10. */
  lemma SentFiltersExamples(f: ProductFilters)
    ensures CarriesRequest(f, WithDefaults(ListQuery(0, 0, "", 0.0, 0.0, "", "", ""))) ==>
              f.offset == 0 && f.limit == 20 && f.sortBy == "created_at" && f.sortOrder == "desc"
    ensures CarriesRequest(f, WithDefaults(ListQuery(2, 10, "", 0.0, 0.0, "", "", ""))) ==>
              f.offset == 10 && f.limit == 10
    ensures CarriesRequest(f, WithDefaults(ListQuery(3, 5, "", 0.0, 0.0, "", "", ""))) ==>
              f.offset == 10 && f.limit == 5
  {
  }

  /** Because the repository caps the scan at `limit` before slicing at the offset, every
      page after the first comes back empty from a store that honours the cap, whatever the
      total says. */
  lemma {:induction false} PagesAfterFirstAreEmpty(f: ProductFilters, q: ListQuery, scan: ScanStore, count: CountStore)
    requires CarriesRequest(f, q)
    requires q.page >= 2 && q.limit >= 1
    requires ScanRespectsLimit(scan)
    ensures f.offset >= 0 && f.limit >= 0
    ensures var r := ListOutcome(f, scan, count);
      r.Ok? ==> r.value.products == []
  {
    assert f.offset - f.limit == (q.page - 2) * q.limit;
    assert (q.page - 2) * q.limit >= 0;
    LaterPagesEmpty(f, scan, count);
  }

  class ProductHandler {
    const service: ProductService

    constructor (service: ProductService)
      ensures this.service == service
    {
      this.service := service;
    }

    /** Create: a binding failure is a 400 with its text; then the service's errors are
        mapped by CreateErrorResponse; success is a 201 with the new product. */
    method Create(bound: Result<CreateProductRequest, string>, id: string, now: Timestamp, fault: Option<string>)
      returns (resp: HttpResponse)
      requires service.repo.Valid()
      modifies service.repo
      ensures service.repo.Valid()
      ensures bound.Err? ==>
                resp == HttpResponse(StatusBadRequest, ErrorBody(bound.error))
                && service.repo.items == old(service.repo.items)
      ensures bound.Ok? ==>
                var made := NewProduct(id, bound.value.name, bound.value.description, bound.value.price, now);
                && (made.Err? ==> resp == HttpResponse(StatusBadRequest, ErrorBody("invalid product data"))
                                  && service.repo.items == old(service.repo.items))
                && (made.Ok? && fault.Some? ==> resp == InternalError && service.repo.items == old(service.repo.items))
                && (made.Ok? && fault.None? ==> resp == HttpResponse(StatusCreated, ProductBody(made.value))
                                                && service.repo.items == old(service.repo.items)[id := made.value])
    {
      if bound.Err? {
        return HttpResponse(StatusBadRequest, ErrorBody(bound.error));
      }
      var req := bound.value;
      var product := service.Create(req.name, req.description, req.price, id, now, fault);
      if product.Err? {
        return CreateErrorResponse(product.error);
      }
      resp := HttpResponse(StatusCreated, ProductBody(product.value));
    }

    /** Get: an absent id is a 404, a store failure a 500, otherwise a 200 with the product. */
    method Get(id: string, fault: Option<string>) returns (resp: HttpResponse)
      ensures fault.Some? ==> resp == InternalError
      ensures fault.None? && id !in service.repo.items ==>
                resp == HttpResponse(StatusNotFound, ErrorBody("product not found"))
      ensures fault.None? && id in service.repo.items ==>
                resp == HttpResponse(StatusOK, ProductBody(service.repo.items[id]))
    {
      var product := service.Get(id, fault);
      if product.Err? {
        return LookupErrorResponse(product.error);
      }
      resp := HttpResponse(StatusOK, ProductBody(product.value));
    }

    /** List: binding failure, then the page cap, then the price range, then the query; a
        failed query is a 500; otherwise a 200 with the converted page, the pagination block
        and the filter summary. `sent` is the filters handed to the repository, if any. */
    method List(bound: Result<ListQuery, string>, scan: ScanStore, count: CountStore)
      returns (resp: HttpResponse, sent: Option<ProductFilters>)
      ensures bound.Err? ==>
                resp == HttpResponse(StatusBadRequest, ErrorDetailsBody("invalid query parameters", bound.error))
                && sent == None
      ensures bound.Ok? && WithDefaults(bound.value).page > MaxPage ==>
                resp == HttpResponse(StatusBadRequest, ErrorBody("page cannot exceed 1000")) && sent == None
      ensures bound.Ok? && WithDefaults(bound.value).page <= MaxPage && PriceRangeInverted(WithDefaults(bound.value)) ==>
                resp == HttpResponse(StatusBadRequest, ErrorBody("min_price cannot be greater than max_price"))
                && sent == None
      ensures bound.Ok? && WithDefaults(bound.value).page <= MaxPage && !PriceRangeInverted(WithDefaults(bound.value)) ==>
                sent.Some? && CarriesRequest(sent.value, WithDefaults(bound.value))
      ensures sent.Some? ==>
                && bound.Ok?
                && sent.value.offset >= 0 && sent.value.limit >= 0
                && var q := WithDefaults(bound.value);
                   var out := ListOutcome(sent.value, scan, count);
                   && (out.Err? ==> resp == InternalError)
                   && (out.Ok? ==>
                         && resp.status == StatusOK && resp.body.ListBody?
                         && ConvertsTo(out.value.products, resp.body.list.products)
                         && resp.body.list.pagination == Pagination(q.page, q.limit, out.value.totalItems)
                         && resp.body.list.filtersApplied == AppliedFilters(q))
    {
      sent := None;
      if bound.Err? {
        return HttpResponse(StatusBadRequest, ErrorDetailsBody("invalid query parameters", bound.error)), None;
      }
      var req := new ListProductsRequest(bound.value);
      req.SetDefaults();
      if req.page > MaxPage {
        return HttpResponse(StatusBadRequest, ErrorBody("page cannot exceed 1000")), None;
      }
      if req.minPrice > 0.0 && req.maxPrice > 0.0 && req.minPrice > req.maxPrice {
        return HttpResponse(StatusBadRequest, ErrorBody("min_price cannot be greater than max_price")), None;
      }
      var q := req.Value();
      var filters := ProductFilters(req.name, req.minPrice, req.maxPrice, req.sortBy, req.sortOrder, q.GetOffset(), req.limit);
      sent := Some(filters);
      var result := ListWithFilters(filters, scan, count);
      if result.Err? {
        return InternalError, sent;
      }
      var pagination := Pagination(req.page, req.limit, result.value.totalItems);
      var products := ToResponses(result.value.products);
      var applied := NoFilterInfo;
      if q.HasFilters() {
        applied := FilterInfo(req.name, req.minPrice, req.maxPrice);
      }
      resp := HttpResponse(StatusOK, ListBody(ListProductsResponse(products, pagination, applied)));
    }

    /** Update: a binding failure is a 400 with its text; then the service's errors are
        mapped by LookupErrorResponse; success is a 200 with the revised product. */
    method Update(id: string, bound: Result<CreateProductRequest, string>, now: Timestamp,
                  getFault: Option<string>, putFault: Option<string>)
      returns (resp: HttpResponse)
      requires service.repo.Valid()
      modifies service.repo
      ensures service.repo.Valid()
      ensures bound.Err? ==>
                resp == HttpResponse(StatusBadRequest, ErrorBody(bound.error))
                && service.repo.items == old(service.repo.items)
      ensures bound.Ok? && (getFault.Some? || (id in old(service.repo.items) && putFault.Some?)) ==>
                resp == InternalError && service.repo.items == old(service.repo.items)
      ensures bound.Ok? && getFault.None? && id !in old(service.repo.items) ==>
                resp == HttpResponse(StatusNotFound, ErrorBody("product not found"))
                && service.repo.items == old(service.repo.items)
      ensures bound.Ok? && getFault.None? && id in old(service.repo.items) && putFault.None? ==>
                var revised := Revise(old(service.repo.items)[id], bound.value.name, bound.value.description,
                                      bound.value.price, now);
                resp == HttpResponse(StatusOK, ProductBody(revised))
                && service.repo.items == old(service.repo.items)[id := revised]
    {
      if bound.Err? {
        return HttpResponse(StatusBadRequest, ErrorBody(bound.error));
      }
      var req := bound.value;
      var product := service.Update(id, req.name, req.description, req.price, now, getFault, putFault);
      if product.Err? {
        return LookupErrorResponse(product.error);
      }
      resp := HttpResponse(StatusOK, ProductBody(product.value));
    }

    /** Delete: a store failure is a 500; otherwise a 204 with no body, whether or not the id
        was stored. */
    method Delete(id: string, fault: Option<string>) returns (resp: HttpResponse)
      requires service.repo.Valid()
      modifies service.repo
      ensures service.repo.Valid()
      ensures fault.Some? ==> resp == InternalError && service.repo.items == old(service.repo.items)
      ensures fault.None? ==>
                resp == HttpResponse(StatusNoContent, EmptyBody)
                && service.repo.items == old(service.repo.items) - {id}
    {
      var err := service.Delete(id, fault);
      if err.Some? {
        return LookupErrorResponse(err.value);
      }
      resp := HttpResponse(StatusNoContent, EmptyBody);
    }
  }
}
