/**
 * The product entity and its validating factory (internal/core/domain/product.go).
 * The clock and the id generator are parameters: `now` stands for time.Now().UTC()
 * and `id` for uuid.New().String().
 */
module Domain {
  import opened Wrappers

  /** An instant on the wall clock; time.Time is modelled by an integer. */
  type Timestamp = int

  datatype Product = Product(
    id: string,
    name: string,
    description: string,
    price: real,
    createdAt: Timestamp,
    updatedAt: Timestamp)

  /** The errors the core produces or passes on. */
  datatype Error =
    | ErrInvalidProduct        // sentinel: "invalid product data"
    | ErrNotFound              // sentinel: "product not found"
    | NameRequired             // errors.New("name is required")
    | NegativePrice            // errors.New("price cannot be negative")
    | StoreFailure(detail: string)  // any failure reported by the record store

  /** The text of err.Error(): the fixed text of each of the four errors the core defines,
      and the store's own text for a store failure. */
  function Message(e: Error): (m: string)
    ensures e == ErrInvalidProduct ==> m == "invalid product data"
    ensures e == ErrNotFound ==> m == "product not found"
    ensures e == NameRequired ==> m == "name is required"
    ensures e == NegativePrice ==> m == "price cannot be negative"
    ensures e.StoreFailure? ==> m == e.detail
    ensures !e.StoreFailure? ==> m != ""
  {
    match e
    case ErrInvalidProduct => "invalid product data"
    case ErrNotFound => "product not found"
    case NameRequired => "name is required"
    case NegativePrice => "price cannot be negative"
    case StoreFailure(d) => d
  }

  /** The four errors the core defines have pairwise different texts, so a caller that
      compares texts can tell them apart. */
  lemma SentinelMessagesDistinct(e1: Error, e2: Error)
    requires !e1.StoreFailure? && !e2.StoreFailure?
    requires Message(e1) == Message(e2)
    ensures e1 == e2
  {
  }

  /** The invariants a stored product is meant to keep: non-empty name, non-negative price,
      and an update instant no earlier than the creation instant. */
  predicate WellFormed(p: Product) {
    p.name != "" && p.price >= 0.0 && p.updatedAt >= p.createdAt
  }

  /** The factory: the name check comes first, then the price check; price 0 is accepted. */
  function NewProduct(id: string, name: string, description: string, price: real, now: Timestamp)
    : (r: Result<Product, Error>)
    ensures name == "" <==> r == Err(NameRequired)
    ensures name != "" && price < 0.0 <==> r == Err(NegativePrice)
    ensures r.Ok? <==> name != "" && price >= 0.0
    ensures r.Ok? ==> r.value.id == id && r.value.name == name && r.value.description == description
                      && r.value.price == price && r.value.createdAt == now && r.value.updatedAt == now
    ensures r.Ok? ==> WellFormed(r.value)
  {
    if name == "" then Err(NameRequired)
    else if price < 0.0 then Err(NegativePrice)
    else Ok(Product(id, name, description, price, now, now))
  }

  /** The field assignments the service makes to a fetched product before writing it back
      (product_service.go:49-52): no validation of the new name or price. */
  function Revise(p: Product, name: string, description: string, price: real, now: Timestamp)
    : (q: Product)
    ensures q.id == p.id && q.createdAt == p.createdAt
    ensures q.name == name && q.description == description && q.price == price && q.updatedAt == now
  {
    p.(name := name, description := description, price := price, updatedAt := now)
  }

  /** Revising a well-formed product can produce one with an empty name and a negative price. */
  lemma ReviseSkipsValidation(p: Product, now: Timestamp)
    requires WellFormed(p) && now >= p.createdAt
    ensures !WellFormed(Revise(p, "", p.description, -1.0, now))
    ensures Revise(p, "", p.description, -1.0, now).name == ""
    ensures Revise(p, "", p.description, -1.0, now).price < 0.0
  {
  }

  /** A clock that runs backwards breaks updatedAt >= createdAt after a revision. */
  lemma ReviseCanPrecedeCreation(p: Product)
    requires WellFormed(p)
    ensures !WellFormed(Revise(p, p.name, p.description, p.price, p.createdAt - 1))
  {
  }
}
