/** The records exchanged between the HTTP layer and the repository (internal/core/ports/repositories.go). */
module Ports {
  import opened Domain

  /** Filtering, sorting and paging options of one list query. */
  datatype ProductFilters = ProductFilters(
    name: string,
    minPrice: real,
    maxPrice: real,
    sortBy: string,
    sortOrder: string,
    offset: int,
    limit: int)

  /** One page of products and the number of products matching the filter. */
  datatype ProductListResult = ProductListResult(products: seq<Product>, totalItems: nat)
}
