/**
 * The repository (internal/adapters/repository/dynamodb.go) over an abstract record store.
 *
 * The list query is ListWithFilters: one scan capped at the page size, one count with the
 * same filter, the in-memory sort of RepositorySort, then the offset/limit slice. The store
 * is a pair of functions from the request the repository builds to what the store answers,
 * so the model does not fix how the store evaluates a filter.
 *
 * The single-record operations run over a map from id to product; each call takes `fault`,
 * standing for a failure of the call to the store.
 */
module Repository {
  import opened Wrappers
  import opened Domain
  import opened Ports
  import opened RepositorySort
  import opened RepositoryFilter

  /** A scan input: the `Limit` on items evaluated and the pushed-down filter. */
  datatype ScanRequest = ScanRequest(limit: int, filter: ScanFilter)

  /** The store's answer to a scan, and to a count (a scan with Select COUNT). */
  type ScanStore = ScanRequest -> Result<seq<Product>, string>
  type CountStore = ScanFilter -> Result<nat, string>

  /** The errors ListWithFilters wraps: "failed to scan products" and "failed to get total count". */
  datatype ListError = ScanFailed(cause: string) | CountFailed(cause: string)

  /** A store that, as the scan `Limit` promises, returns no more items than the limit. */
  ghost predicate ScanRespectsLimit(scan: ScanStore) {
    forall req :: scan(req).Ok? ==> |scan(req).value| <= req.limit
  }

  function Min(a: int, b: int): int {
    if a <= b then a else b
  }

  /** The offset step and then the limit step (dynamodb.go:152-162). */
  function Paginate(products: seq<Product>, offset: nat, limit: nat): (r: seq<Product>)
    ensures offset >= |products| ==> r == []
    ensures offset < |products| ==> r == products[offset .. Min(offset + limit, |products|)]
    ensures |r| <= limit
  {
    var rest := if offset < |products| then products[offset..] else [];
    if limit < |rest| then rest[..limit] else rest
  }

  /** The list query as a function of the filters and of what the store answers. The scan is
      issued first; its failure wins over a failure of the count. */
  function ListOutcome(f: ProductFilters, scan: ScanStore, count: CountStore): Result<ProductListResult, ListError>
    requires f.offset >= 0 && f.limit >= 0
  {
    var scanned := scan(ScanRequest(f.limit, ListScanFilter(f)));
    if scanned.Err? then Err(ScanFailed(scanned.error))
    else
      var total := count(CountScanFilter(f));
      if total.Err? then Err(CountFailed(total.error))
      else
        var sorted := SortOutcome(scanned.value, OrderingOf(f.sortBy, f.sortOrder));
        Ok(ProductListResult(Paginate(sorted, f.offset, f.limit), total.value))
  }

  /** ListWithFilters. A negative offset or limit makes the Go slicing panic, hence the
      precondition. */
  method ListWithFilters(f: ProductFilters, scan: ScanStore, count: CountStore)
    returns (r: Result<ProductListResult, ListError>)
    requires f.offset >= 0 && f.limit >= 0
    ensures r == ListOutcome(f, scan, count)
  {
    var filter := BuildListFilter(f);
    var scanned := scan(ScanRequest(f.limit, filter));
    if scanned.Err? {
      return Err(ScanFailed(scanned.error));
    }
    var countFilter := BuildCountFilter(f);
    var total := count(countFilter);
    if total.Err? {
      return Err(CountFailed(total.error));
    }
    var products := SortProducts(scanned.value, f.sortBy, f.sortOrder);
    products := Paginate(products, f.offset, f.limit);
    r := Ok(ProductListResult(products, total.value));
  }

  /** A successful list query returns at most `limit` products, each one scanned, and the
      count as the total. */
  lemma ListOutcomeFromScan(f: ProductFilters, scan: ScanStore, count: CountStore)
    requires f.offset >= 0 && f.limit >= 0
    ensures var r := ListOutcome(f, scan, count);
      r.Ok? <==> scan(ScanRequest(f.limit, ListScanFilter(f))).Ok? && count(CountScanFilter(f)).Ok?
    ensures var r := ListOutcome(f, scan, count);
      r.Ok? ==>
        && |r.value.products| <= f.limit
        && r.value.totalItems == count(CountScanFilter(f)).value
        && forall p :: p in r.value.products ==> p in scan(ScanRequest(f.limit, ListScanFilter(f))).value
  {
    var r := ListOutcome(f, scan, count);
    if r.Ok? {
      var scanned := scan(ScanRequest(f.limit, ListScanFilter(f))).value;
      var sorted := SortOutcome(scanned, OrderingOf(f.sortBy, f.sortOrder));
      SortOutcomePermutes(scanned, OrderingOf(f.sortBy, f.sortOrder));
      forall p | p in r.value.products ensures p in scanned {
        SortOutcomeMembers(scanned, OrderingOf(f.sortBy, f.sortOrder), p);
      }
    }
  }

  /** The scan is capped at `limit` before the slice at `offset`: once the offset reaches the
      limit (every page after the first) the page is empty, while the total is still the count. */
  lemma LaterPagesEmpty(f: ProductFilters, scan: ScanStore, count: CountStore)
    requires 0 <= f.limit <= f.offset
    requires ScanRespectsLimit(scan)
    ensures var r := ListOutcome(f, scan, count);
      r.Ok? ==> r.value.products == [] && r.value.totalItems == count(CountScanFilter(f)).value
  {
    var req := ScanRequest(f.limit, ListScanFilter(f));
    if scan(req).Ok? {
      SortOutcomePermutes(scan(req).value, OrderingOf(f.sortBy, f.sortOrder));
    }
  }

  /** The store behind the single-record operations: a map from id to product. */
  class MapRepository {
    var items: map<string, Product>

    /** Every product is stored under its own id. */
    ghost predicate Valid()
      reads this
    {
      forall id :: id in items ==> items[id].id == id
    }

    constructor ()
      ensures Valid() && items == map[]
    {
      items := map[];
    }

    /** Save: PutItem writes the product under its id, replacing any product stored there. */
    method Save(p: Product, fault: Option<string>) returns (err: Option<Error>)
      requires Valid()
      modifies this
      ensures Valid()
      ensures fault.Some? ==> err == Some(StoreFailure(fault.value)) && items == old(items)
      ensures fault.None? ==> err == None && items == old(items)[p.id := p]
    {
      if fault.Some? {
        return Some(StoreFailure(fault.value));
      }
      items := items[p.id := p];
      err := None;
    }

    /** GetByID: an absent id gives ErrNotFound. */
    method GetByID(id: string, fault: Option<string>) returns (r: Result<Product, Error>)
      ensures fault.Some? ==> r == Err(StoreFailure(fault.value))
      ensures fault.None? && id !in items ==> r == Err(ErrNotFound)
      ensures fault.None? && id in items ==> r == Ok(items[id])
    {
      if fault.Some? {
        return Err(StoreFailure(fault.value));
      }
      if id !in items {
        return Err(ErrNotFound);
      }
      r := Ok(items[id]);
    }

    /** Update is Save: PutItem overwrites. */
    method Update(p: Product, fault: Option<string>) returns (err: Option<Error>)
      requires Valid()
      modifies this
      ensures Valid()
      ensures fault.Some? ==> err == Some(StoreFailure(fault.value)) && items == old(items)
      ensures fault.None? ==> err == None && items == old(items)[p.id := p]
    {
      err := Save(p, fault);
    }

    /** Delete: DeleteItem removes the id; deleting an absent id succeeds and changes nothing. */
    method Delete(id: string, fault: Option<string>) returns (err: Option<Error>)
      requires Valid()
      modifies this
      ensures Valid()
      ensures fault.Some? ==> err == Some(StoreFailure(fault.value)) && items == old(items)
      ensures fault.None? ==> err == None && items == old(items) - {id}
    {
      if fault.Some? {
        return Some(StoreFailure(fault.value));
      }
      items := items - {id};
      err := None;
    }
  }
}
