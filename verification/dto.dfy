/**
 * The list request and the response records of the HTTP layer
 * (internal/adapters/http/dto/product_dto.go).
 *
 * The Go struct ListProductsRequest plays two roles. As a value, the query parameters
 * gin binds, it is ListQuery here and carries the two pure methods GetOffset and
 * HasFilters. As the handler's variable that SetDefaults rewrites in place, it is the
 * class ListProductsRequest.
 */
module Dto {
  import opened Domain

  /** The bound query parameters; an absent parameter is Go's zero value. */
  datatype ListQuery = ListQuery(
    page: int,
    limit: int,
    name: string,
    minPrice: real,
    maxPrice: real,
    sortBy: string,
    sortOrder: string,
    fields: string)  // declared, never used
  {
    /** GetOffset: the number of items on the pages before this one. */
    function GetOffset(): (offset: int)
      ensures page >= 1 && limit >= 0 ==> offset >= 0
      ensures offset + limit == page * limit
    {
      (page - 1) * limit
    }

    /** HasFilters: a name filter or a positive price bound is present. A name alone is a
        filter; without a name, a zero or negative bound is none. */
    predicate HasFilters()
      ensures name != "" ==> HasFilters()
      ensures name == "" ==> (HasFilters() <==> minPrice > 0.0 || maxPrice > 0.0)
    {
      name != "" || minPrice > 0.0 || maxPrice > 0.0
    }
  }

  const DefaultPage := 1
  const DefaultLimit := 20
  const DefaultSortBy := "created_at"
  const DefaultSortOrder := "desc"

  /** The binding tags (product_dto.go:10-20) read as a predicate. Whether gin applies
      `min=1` to an absent page or limit is up to the validator, which is not modelled. */
  predicate TagsValid(q: ListQuery) {
    && q.page >= 1
    && 1 <= q.limit <= 100
    && q.minPrice >= 0.0
    && q.maxPrice >= 0.0
    && (q.sortBy == "" || q.sortBy in {"name", "price", "created_at", "updated_at"})
    && (q.sortOrder == "" || q.sortOrder in {"asc", "desc"})
  }

  /** What SetDefaults makes of a query. */
  function WithDefaults(q: ListQuery): (d: ListQuery)
    ensures d.page >= 1 && d.limit >= 1 && d.sortBy != "" && d.sortOrder != ""
    ensures q.page > 0 ==> d.page == q.page
    ensures q.page <= 0 ==> d.page == DefaultPage
    ensures q.limit > 0 ==> d.limit == q.limit
    ensures q.limit <= 0 ==> d.limit == DefaultLimit
    ensures q.sortBy != "" ==> d.sortBy == q.sortBy
    ensures q.sortBy == "" ==> d.sortBy == DefaultSortBy
    ensures q.sortOrder != "" ==> d.sortOrder == q.sortOrder
    ensures q.sortOrder == "" ==> d.sortOrder == DefaultSortOrder
    ensures d.name == q.name && d.minPrice == q.minPrice && d.maxPrice == q.maxPrice && d.fields == q.fields
  {
    q.(page := if q.page <= 0 then DefaultPage else q.page,
       limit := if q.limit <= 0 then DefaultLimit else q.limit,
       sortBy := if q.sortBy == "" then DefaultSortBy else q.sortBy,
       sortOrder := if q.sortOrder == "" then DefaultSortOrder else q.sortOrder)
  }

  /** Applying the defaults twice is applying them once. */
  lemma WithDefaultsIdempotent(q: ListQuery)
    ensures WithDefaults(WithDefaults(q)) == WithDefaults(q)
  {
  }

  /** The defaults leave a query that satisfies the tags unchanged in page and limit, keep it
      valid, and settle the sort to one of the four fields and one of the two directions. */
  lemma DefaultsKeepValidQuery(q: ListQuery)
    requires TagsValid(q)
    ensures var d := WithDefaults(q);
      && TagsValid(d)
      && d.page == q.page && d.limit == q.limit
      && d.sortBy in {"name", "price", "created_at", "updated_at"}
      && d.sortOrder in {"asc", "desc"}
  {
  }

  /** The cases "all empty", "partial values" and "all values set". */
  lemma DefaultsExamples()
    ensures WithDefaults(ListQuery(0, 0, "", 0.0, 0.0, "", "", ""))
         == ListQuery(1, 20, "", 0.0, 0.0, "created_at", "desc", "")
    ensures WithDefaults(ListQuery(5, 0, "", 0.0, 0.0, "", "", ""))
         == ListQuery(5, 20, "", 0.0, 0.0, "created_at", "desc", "")
    ensures WithDefaults(ListQuery(3, 50, "", 0.0, 0.0, "name", "asc", ""))
         == ListQuery(3, 50, "", 0.0, 0.0, "name", "asc", "")
  {
  }

  /** The tested cases of GetOffset and HasFilters. */
  lemma OffsetAndFilterExamples()
    ensures ListQuery(1, 20, "", 0.0, 0.0, "", "", "").GetOffset() == 0
    ensures ListQuery(2, 10, "", 0.0, 0.0, "", "", "").GetOffset() == 10
    ensures ListQuery(3, 5, "", 0.0, 0.0, "", "", "").GetOffset() == 10
    ensures !ListQuery(0, 0, "", 0.0, 0.0, "", "", "").HasFilters()
    ensures ListQuery(0, 0, "test", 0.0, 0.0, "", "", "").HasFilters()
    ensures ListQuery(0, 0, "", 10.0, 0.0, "", "", "").HasFilters()
    ensures ListQuery(0, 0, "", 0.0, 100.0, "", "", "").HasFilters()
    ensures ListQuery(0, 0, "test", 10.0, 0.0, "", "", "").HasFilters()
  {
  }

  /** The handler's request variable, which SetDefaults rewrites in place. */
  class ListProductsRequest {
    var page: int
    var limit: int
    var name: string
    var minPrice: real
    var maxPrice: real
    var sortBy: string
    var sortOrder: string
    var fields: string

    /** The request as a value. */
    function Value(): ListQuery
      reads this
    {
      ListQuery(page, limit, name, minPrice, maxPrice, sortBy, sortOrder, fields)
    }

    /** The struct gin fills from the query string. */
    constructor (q: ListQuery)
      ensures Value() == q
    {
      page, limit, name := q.page, q.limit, q.name;
      minPrice, maxPrice := q.minPrice, q.maxPrice;
      sortBy, sortOrder, fields := q.sortBy, q.sortOrder, q.fields;
    }

    /** SetDefaults: replaces a non-positive page or limit and an empty sort field or
        direction, and nothing else. */
    method SetDefaults()
      modifies this
      ensures Value() == WithDefaults(old(Value()))
    {
      if page <= 0 {
        page := DefaultPage;
      }
      if limit <= 0 {
        limit := DefaultLimit;
      }
      if sortBy == "" {
        sortBy := DefaultSortBy;
      }
      if sortOrder == "" {
        sortOrder := DefaultSortOrder;
      }
    }
  }

  /** One product as the API returns it. */
  datatype ProductResponse = ProductResponse(
    id: string,
    name: string,
    description: string,
    price: real,
    createdAt: Timestamp,
    updatedAt: Timestamp)

  /** The response record carries its six arguments unchanged. */
  function NewProductResponse(id: string, name: string, description: string, price: real,
                              createdAt: Timestamp, updatedAt: Timestamp): (r: ProductResponse)
    ensures r.id == id && r.name == name && r.description == description
    ensures r.price == price && r.createdAt == createdAt && r.updatedAt == updatedAt
  {
    ProductResponse(id, name, description, price, createdAt, updatedAt)
  }

  datatype PaginationInfo = PaginationInfo(
    currentPage: int,
    perPage: int,
    totalPages: int,
    totalItems: int,
    hasNext: bool,
    hasPrev: bool)

  datatype FilterInfo = FilterInfo(name: string, minPrice: real, maxPrice: real)

  /** The zero FilterInfo a response carries when no filter was applied. */
  const NoFilterInfo := FilterInfo("", 0.0, 0.0)

  datatype ListProductsResponse = ListProductsResponse(
    products: seq<ProductResponse>,
    pagination: PaginationInfo,
    filtersApplied: FilterInfo)
}
