# Product CRUD service over DynamoDB: a Dafny model

This project models the core of a small Go HTTP service. The service stores products (id, name, description, price, creation and update instants) in one DynamoDB table, using a hexagonal layout:

- the domain: the `Product` record and its validating factory;
- a service that creates, reads, revises and deletes products through a repository port;
- a DynamoDB repository;
- a gin HTTP handler with its request and response records.

The model covers two pieces.

**The list query.** The handler binds the query parameters and applies defaults (page 1, 20 per page, `sort_by` "created_at", `sort_order` "desc"). It rejects a page above 1000 and an inverted price range, and it derives the offset. The repository then:

- builds one filter expression for a scan capped at the page size, and the same expression for a count;
- sorts the scanned items in memory;
- slices them at the offset.

The handler wraps the page with pagination metadata and a summary of the filters applied.

**Product creation and the CRUD operations.** This covers the factory, the four service operations over a map-backed repository, and the handler's mapping of core errors to HTTP status codes.

Modules, following the Go packages:

- `Wrappers`: `Option` and `Result`.
- `Domain` (`domain.dfy`): `Product`, the core errors and their messages, `NewProduct`, and `Revise` (the field assignments of the service's update).
- `Ports` (`ports.dfy`): `ProductFilters` and `ProductListResult`.
- `RepositorySort` (`repository_sort.dfy`): the in-memory sort, modelled as written, which is not a correct sort.
  - A functional specification: `ChainStart`, `RotateRight`, `InsertStep`, `Passes` and `SortOutcome`.
  - The array method `SortProducts`, proved to compute it.
- `RepositoryFilter` (`repository_filter.dfy`): the two filter builders as imperative methods, each proved equal to a specification function, and the meaning of the pushed-down expression.
- `Repository` (`repository.dfy`):
  - the list query `ListWithFilters`, over a store given as two functions (scan and count);
  - the slicing `Paginate`;
  - the class `MapRepository`, which holds the single-record store as a map from id to product.
- `Dto` (`dto.dfy`): the bound query `ListQuery` with `GetOffset` and `HasFilters`, the mutable request class `ListProductsRequest` with `SetDefaults`, and the response records.
- `Services` (`services.dfy`): the class `ProductService` over a `MapRepository`.
- `Handler` (`handler.dfy`): the class `ProductHandler` with `Create`, `Get`, `List`, `Update` and `Delete`, the pagination block, and the error mapping.

The model follows the code where the code departs from what its comments promise:

- The comments promise an ordered list, but the sort is not a correct sort.
- The scan is capped at the page size before the offset is applied, so every page after the first is empty.
- The service does not validate its input on update.
- The handler calls `ListWithFilters` on the service, but the service interface (internal/core/ports/services.go:8-14) has no such method. The model's list path therefore runs from the handler straight into the repository's list query.

Prices are `real`, and timestamps are integers. The caller supplies:

- the id generator and the clock;
- the store's answers, and each single-record call's failure (`fault`).

## Model

| member | source | states |
|---|---|---|
| Domain.NewProduct | internal/core/domain/product.go:25-42 | an empty name is the error "name is required", checked before the price; a negative price is "price cannot be negative" and price 0 is accepted; success happens exactly when the name is non-empty and the price non-negative; on success the fields are the arguments, created and updated instants are both `now`, and the product is well-formed |
| Domain.Message | internal/core/domain/product.go:10-30 | the four errors the core defines have the texts "invalid product data", "product not found", "name is required" and "price cannot be negative"; a store failure carries the store's own text |
| Domain.SentinelMessagesDistinct | internal/core/domain/product.go:10-30 | the four texts are pairwise different, so each identifies its error |
| Domain.Revise | internal/core/services/product_service.go:49-52 | the revision keeps id and creation instant and sets name, description, price and update instant to the arguments |
| Domain.ReviseSkipsValidation | internal/core/services/product_service.go:49-52 | revising a well-formed product can store an empty name and a negative price: no validation on update |
| Domain.ReviseCanPrecedeCreation | internal/core/services/product_service.go:52 | with a clock earlier than the creation instant, a revision breaks updatedAt >= createdAt |
| RepositorySort.LexLess | internal/adapters/repository/dynamodb.go:241-243 | Go's string `<`: never holds between equal strings, and a proper prefix is smaller |
| RepositorySort.LexLessStrictTotal | internal/adapters/repository/dynamodb.go:242-244 | the name order (Go's string `<`) is irreflexive, asymmetric and total |
| RepositorySort.LexLessTransitive | internal/adapters/repository/dynamodb.go:242-244 | the name order is transitive |
| RepositorySort.OrderingOf | internal/adapters/repository/dynamodb.go:238-262 | "name" sorts by name, "price" by price, every other value by creation instant; the direction is descending exactly for "desc" |
| RepositorySort.UpdatedAtSortsByCreatedAt | internal/adapters/repository/dynamodb.go:253-261 | sorting by "updated_at" is sorting by creation instant |
| RepositorySort.Compare | internal/adapters/repository/dynamodb.go:237-261 | the `compare` closure on the chosen field, `<` for "asc" and `>` for "desc": two products with the same key never compare |
| RepositorySort.DescendingMirrorsAscending | internal/adapters/repository/dynamodb.go:240-261 | "desc" compares a with b exactly when "asc" compares b with a, for every field |
| RepositorySort.ChainStartStops | internal/adapters/repository/dynamodb.go:267-271 | where the inner loop stops: every neighbour pair from k to i compares, and the pair just before k does not (or k is 0) |
| RepositorySort.ChainStartUnique | internal/adapters/repository/dynamodb.go:267-271 | the stopping point is the only index with that property |
| RepositorySort.RotateRightPositions | internal/adapters/repository/dynamodb.go:266-272 | one outer step moves s[i] to position k, shifts s[k..i] one place right and leaves the rest in place |
| RepositorySort.RotateRightPermutes | internal/adapters/repository/dynamodb.go:266-272 | one outer step permutes the sequence |
| RepositorySort.PassesPermutes | internal/adapters/repository/dynamodb.go:265-273 | any number of outer steps permutes the input |
| RepositorySort.SortOutcomePermutes | internal/adapters/repository/dynamodb.go:227-275 | the result has the input's length and multiset of products |
| RepositorySort.SortOutcomeMembers | internal/adapters/repository/dynamodb.go:227-275 | a product is in the result exactly when it is in the input |
| RepositorySort.PairThatComparesIsSwapped | internal/adapters/repository/dynamodb.go:265-273 | a pair [a, b] where a compares to b comes out [b, a] |
| RepositorySort.PairThatDoesNotCompareIsKept | internal/adapters/repository/dynamodb.go:265-273 | a pair where a does not compare to b is kept |
| RepositorySort.TripleRotates | internal/adapters/repository/dynamodb.go:265-273 | for three products where the first compares to both others, and the second does not compare to the first, [a, b, c] comes out [b, c, a] |
| RepositorySort.AscendingPairComesOutDescending | internal/adapters/repository/dynamodb.go:246-252 | prices [1, 2] sorted "asc" come out [2, 1] |
| RepositorySort.DescendingPairComesOutAscending | internal/adapters/repository/dynamodb.go:246-252 | prices [2, 1] sorted "desc" come out [1, 2] |
| RepositorySort.AscendingTripleComesOutRotated | internal/adapters/repository/dynamodb.go:264-273 | prices [1, 2, 3] sorted "asc" come out [2, 3, 1] |
| RepositorySort.InsertionStep | internal/adapters/repository/dynamodb.go:266-272 | the inner loop with its shifts and the final store of the key performs exactly one outer step of the specification on the array |
| RepositorySort.CopyOf | internal/adapters/repository/dynamodb.go:233-234 | the working copy is a fresh array holding the input |
| RepositorySort.SortProducts | internal/adapters/repository/dynamodb.go:227-276 | the nested loop returns the specification's outcome; an input of length 0 or 1 is returned unchanged |
| RepositoryFilter.ConditionsOf | internal/adapters/repository/dynamodb.go:103-121 | each condition appears exactly when its field is active, no other condition appears, they are in the order name, minimum price, maximum price, and there is one at all exactly when a filter is active |
| RepositoryFilter.NamesOf | internal/adapters/repository/dynamodb.go:108 | the name map holds "#name" (mapped to "name") exactly when a name filter is present, and nothing else |
| RepositoryFilter.ValuesOf | internal/adapters/repository/dynamodb.go:109-120 | each value placeholder is present exactly when its field is active, and carries that field's value |
| RepositoryFilter.BuildListFilter | internal/adapters/repository/dynamodb.go:96-128 | the step-by-step builder of the list scan produces the specified filter |
| RepositoryFilter.BuildCountFilter | internal/adapters/repository/dynamodb.go:176-216 | the step-by-step builder of the count produces the specified filter |
| RepositoryFilter.ExpressionSetIffActive | internal/adapters/repository/dynamodb.go:100 | both builders set an expression exactly when a name, a positive minimum or a positive maximum is given |
| RepositoryFilter.CountFilterAgreesWithListFilter | internal/adapters/repository/dynamodb.go:100-128 | the count carries the same expression and the same name and value keys as the scan; the two filters differ exactly for an active filter without a name, where only the scan has an (empty) name map |
| RepositoryFilter.JoinTwo | internal/adapters/repository/dynamodb.go:124 | two conditions are joined by one " AND " |
| RepositoryFilter.JoinThree | internal/adapters/repository/dynamodb.go:124 | three conditions are joined by two " AND " |
| RepositoryFilter.FullExpression | internal/adapters/repository/dynamodb.go:106-124 | with all three filters the expression is the name condition, then the minimum, then the maximum, joined by " AND " |
| RepositoryFilter.PriceRangeExpression | internal/adapters/repository/dynamodb.go:113-124 | a price range without a name gives the two price conditions joined by " AND " |
| RepositoryFilter.SingleConditionExpression | internal/adapters/repository/dynamodb.go:118-124 | a lone maximum price gives its condition alone |
| RepositoryFilter.FilterMeaning | internal/adapters/repository/dynamodb.go:105-121 | the pushed-down conditions with their attribute maps admit exactly the products whose name contains the name filter and whose price lies within the inclusive positive bounds |
| Repository.Paginate | internal/adapters/repository/dynamodb.go:152-162 | an offset at or past the end gives nothing; otherwise the products from the offset up to offset + limit or the end; never more than limit |
| Repository.ListWithFilters | internal/adapters/repository/dynamodb.go:87-168 | one scan with the page size as its cap and the list filter, then the count with the count filter, then the sort and the slice; a scan failure wins over a count failure |
| Repository.ListOutcomeFromScan | internal/adapters/repository/dynamodb.go:130-167 | the query succeeds exactly when the scan and the count do; then it returns at most limit products, all of them scanned, and the count as the total |
| Repository.LaterPagesEmpty | internal/adapters/repository/dynamodb.go:91 | with the scan capped at the limit, an offset at or past the limit gives an empty page while the total stays the count |
| Repository.MapRepository.constructor | internal/adapters/repository/dynamodb.go:21-26 | a new repository is empty |
| Repository.MapRepository.Save | internal/adapters/repository/dynamodb.go:28-39 | PutItem stores the product under its id, replacing any earlier one; a failure changes nothing |
| Repository.MapRepository.GetByID | internal/adapters/repository/dynamodb.go:41-58 | a failure is passed on, an absent id is ErrNotFound, a present one gives its product |
| Repository.MapRepository.Update | internal/adapters/repository/dynamodb.go:60-62 | update overwrites, exactly like Save |
| Repository.MapRepository.Delete | internal/adapters/repository/dynamodb.go:64-72 | the id is removed; deleting an absent id succeeds; a failure changes nothing |
| Dto.ListQuery.GetOffset | internal/adapters/http/dto/product_dto.go:77-79 | the offset plus one page is page times limit, and it is non-negative when page >= 1 and limit >= 0 |
| Dto.ListQuery.HasFilters | internal/adapters/http/dto/product_dto.go:82-84 | a name alone is a filter; without a name, only a positive price bound is one |
| Dto.WithDefaults | internal/adapters/http/dto/product_dto.go:61-74 | afterwards page >= 1, limit >= 1 and both sort fields are set; only a non-positive page or limit and an empty sort field or direction are replaced, by 1, 20, "created_at" and "desc"; name, price bounds and fields are untouched |
| Dto.WithDefaultsIdempotent | internal/adapters/http/dto/product_dto.go:61-74 | applying the defaults twice is applying them once |
| Dto.DefaultsKeepValidQuery | internal/adapters/http/dto/product_dto.go:10-20 | a query that satisfies the binding tags keeps its page and limit and stays valid, and its sort settles to one of the four fields and the two directions |
| Dto.DefaultsExamples | internal/adapters/http/product_handler_test.go:270-322 | the "all empty", "partial values" and "all values set" cases |
| Dto.OffsetAndFilterExamples | internal/adapters/http/product_handler_test.go:324-360 | the tested offsets (0, 10, 10) and the tested HasFilters answers |
| Dto.ListProductsRequest.constructor | internal/adapters/http/dto/product_dto.go:8-24 | the request holds the bound values |
| Dto.ListProductsRequest.SetDefaults | internal/adapters/http/dto/product_dto.go:61-74 | the fields become the defaulted query |
| Dto.NewProductResponse | internal/adapters/http/dto/product_dto.go:87-96 | the response record carries its six arguments unchanged |
| Handler.BoundRequestMakesProduct | internal/adapters/http/product_handler.go:26-30 | a body the binding accepts always passes the factory's checks |
| Handler.CreateErrorResponse | internal/adapters/http/product_handler.go:41-48 | on Create, ErrInvalidProduct is a 400 with "invalid product data", and any other error is a 500 with "internal server error" |
| Handler.LookupErrorResponse | internal/adapters/http/product_handler.go:57-64 | on Get, Update and Delete, ErrNotFound is a 404 with "product not found", and any other error is a 500 with "internal server error" |
| Handler.CeilDiv | internal/adapters/http/product_handler.go:120 | the least q with n <= q * d |
| Handler.Pagination | internal/adapters/http/product_handler.go:116-123 | total pages is the least number of pages of `limit` items that hold the total; has_next exactly when page * limit < total; has_prev exactly when page > 1 |
| Handler.MulMonotone | internal/adapters/http/product_handler.go:121 | multiplying by a non-negative factor keeps the order |
| Handler.HasNextIffBeforeLastPage | internal/adapters/http/product_handler.go:120-121 | has_next holds exactly when the page comes before the last page |
| Handler.PaginationExamples | internal/adapters/http/product_handler_test.go:108-113 | (page 1, 20 per page, 2 items) gives 1 page with neither next nor previous; (2, 10, 50) gives 5 pages with both |
| Handler.ToResponses | internal/adapters/http/product_handler.go:115-136 | the response list has the result's length and order, each entry carrying that product's fields |
| Handler.AppliedFilters | internal/adapters/http/product_handler.go:138-145 | the filter summary is the request's name and bounds when any filter is present, otherwise the zero record |
| Handler.HasFiltersIsRepositoryGuard | internal/adapters/http/dto/product_dto.go:82-84 | the handler's HasFilters and the repository's filter guard agree on the filters the handler sends |
| Handler.SentFiltersExamples | internal/adapters/http/product_handler_test.go:92-94 | the tested requests send offset 0 and limit 20 by default, and offset 10 for page 2 at 10 per page |
| Handler.PagesAfterFirstAreEmpty | internal/adapters/http/product_handler.go:96-106 | for page 2 or later, the filters the handler sends get an empty page from a store that honours the scan cap |
| Handler.ProductHandler.constructor | internal/adapters/http/product_handler.go:19-24 | the handler holds its service |
| Handler.ProductHandler.Create | internal/adapters/http/product_handler.go:32-52 | a binding failure is a 400 with its text and writes nothing; otherwise the result of the factory and the save, mapped to 400, 500 or 201 with the stored product |
| Handler.ProductHandler.Get | internal/adapters/http/product_handler.go:54-68 | a store failure is a 500, an absent id a 404 "product not found", a present id a 200 with its product |
| Handler.ProductHandler.List | internal/adapters/http/product_handler.go:70-148 | binding failure gives 400 "invalid query parameters" with details; after the defaults a page above 1000 gives 400 "page cannot exceed 1000" before the price check; two positive bounds in the wrong order give 400 "min_price cannot be greater than max_price"; in those cases nothing is sent to the repository; otherwise the filters carry the request verbatim with its offset; a failed query is a 500 "internal server error"; success is a 200 with the converted page, the pagination block and the filter summary |
| Handler.ProductHandler.Update | internal/adapters/http/product_handler.go:150-171 | a binding failure is a 400 with its text; an absent id is a 404; store failures are 500s that write nothing; success is a 200 with the revised product, which is what was stored |
| Handler.ProductHandler.Delete | internal/adapters/http/product_handler.go:173-186 | a store failure is a 500 that changes nothing; otherwise a 204 with no body, the id removed |
| Services.ProductService.constructor | internal/core/services/product_service.go:17-22 | the service holds its repository |
| Services.ProductService.Create | internal/core/services/product_service.go:24-37 | invalid input is ErrInvalidProduct whatever the factory's error, with the store unchanged; a failed save is passed on with the store unchanged; success stores the new product under its id and returns exactly it |
| Services.ProductService.Get | internal/core/services/product_service.go:39-41 | passes the repository's answer through |
| Services.ProductService.Update | internal/core/services/product_service.go:43-60 | an absent id is ErrNotFound and writes nothing; otherwise the fetched product is revised without validation and stored under its id, every other id untouched, and the stored record is returned |
| Services.ProductService.Delete | internal/core/services/product_service.go:62-64 | passes the repository's answer and effect through |

## Left out

- The AWS SDK calls (PutItem, GetItem, DeleteItem, Scan) and attribute marshalling are foreign library calls. The store is a map for single records, and a pair of functions (scan and count) for the list query.
- Unmarshalling errors of GetByID and of the list scan are not modelled: the store hands back products directly.
- The scan's 1 MB page limit and `ExclusiveStartKey` are not modelled; the scan returns at most its `Limit` items in one call.
- The `int32` conversion of the scan limit (dynamodb.go:91) is not modelled. The binding tags cap the limit at 100; a bound query never reaches the wrap-around.
- Prices are exact reals. The `%.2f` formatting of price bounds into DynamoDB numbers is not modelled, so a bound is compared exactly rather than rounded to cents.
- Handler.CeilDiv: integer ceiling division replaces `math.Ceil` over float64. The two agree as long as the float quotient is exact.
- `time.Now()` and `uuid.New()` are parameters (`now`, `id`).
- Logging, the request context, gin routing, JSON rendering and gin binding are left out. Binding is a parameter holding either the bound request or the error text. The binding tags are the predicates `Dto.TagsValid` and `Handler.BindingAccepts`.
- The `Fields` query parameter is carried but never used, as in the source.
- `List` on the repository and on the service (a plain scan of every product) is not modelled: no handler calls it.
- cmd/api/main.go and internal/platform/config/config.go (process wiring and environment lookup) are not part of this model.
- Services.ProductService.Create: a failed Save in Go returns the zero `Product` beside the error. The model's `Result` carries only the error.
- Repository.ListWithFilters: the Go error wraps the store's error in text ("failed to scan products: …"). The model keeps the cause in `ScanFailed` or `CountFailed`, and the handler maps either to the same 500.
- The handler tests expect a `Page` field on `ProductFilters`, which the struct does not have. The model follows the struct.
