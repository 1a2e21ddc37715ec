/**
 * The product service (internal/core/services/product_service.go) over the map-backed
 * repository. The clock and the id generator are parameters; each repository call takes
 * the fault that its store call reports, if any.
 */
module Services {
  import opened Wrappers
  import opened Domain
  import opened Repository

  class ProductService {
    const repo: MapRepository

    constructor (repo: MapRepository)
      ensures this.repo == repo
    {
      this.repo := repo;
    }

    /** Create: an invalid name or price gives ErrInvalidProduct whatever the factory said,
        and nothing is written; otherwise the new product is saved under its id and returned,
        unless the save fails. */
    method Create(name: string, description: string, price: real, id: string, now: Timestamp, fault: Option<string>)
      returns (r: Result<Product, Error>)
      requires repo.Valid()
      modifies repo
      ensures repo.Valid()
      ensures NewProduct(id, name, description, price, now).Err? ==>
                r == Err(ErrInvalidProduct) && repo.items == old(repo.items)
      ensures NewProduct(id, name, description, price, now).Ok? && fault.Some? ==>
                r == Err(StoreFailure(fault.value)) && repo.items == old(repo.items)
      ensures NewProduct(id, name, description, price, now).Ok? && fault.None? ==>
                r == NewProduct(id, name, description, price, now) && repo.items == old(repo.items)[id := r.value]
    {
      var product := NewProduct(id, name, description, price, now);
      if product.Err? {
        return Err(ErrInvalidProduct);
      }
      var err := repo.Save(product.value, fault);
      if err.Some? {
        return Err(err.value);
      }
      r := Ok(product.value);
    }

    /** Get passes straight through to GetByID. */
    method Get(id: string, fault: Option<string>) returns (r: Result<Product, Error>)
      ensures fault.Some? ==> r == Err(StoreFailure(fault.value))
      ensures fault.None? && id !in repo.items ==> r == Err(ErrNotFound)
      ensures fault.None? && id in repo.items ==> r == Ok(repo.items[id])
    {
      r := repo.GetByID(id, fault);
    }

    /** Update: fetches the stored product, overwrites its name, description, price and
        update instant without validating them, and writes it back under the same id. */
    method Update(id: string, name: string, description: string, price: real, now: Timestamp,
                  getFault: Option<string>, putFault: Option<string>)
      returns (r: Result<Product, Error>)
      requires repo.Valid()
      modifies repo
      ensures repo.Valid()
      ensures getFault.Some? ==> r == Err(StoreFailure(getFault.value)) && repo.items == old(repo.items)
      ensures getFault.None? && id !in old(repo.items) ==> r == Err(ErrNotFound) && repo.items == old(repo.items)
      ensures getFault.None? && id in old(repo.items) && putFault.Some? ==>
                r == Err(StoreFailure(putFault.value)) && repo.items == old(repo.items)
      ensures getFault.None? && id in old(repo.items) && putFault.None? ==>
                && r == Ok(Revise(old(repo.items)[id], name, description, price, now))
                && repo.items == old(repo.items)[id := r.value]
    {
      var fetched := repo.GetByID(id, getFault);
      if fetched.Err? {
        return Err(fetched.error);
      }
      var existing := fetched.value;
      existing := existing.(name := name);
      existing := existing.(description := description);
      existing := existing.(price := price);
      existing := existing.(updatedAt := now);
      var err := repo.Update(existing, putFault);
      if err.Some? {
        return Err(err.value);
      }
      r := Ok(existing);
    }

    /** Delete passes straight through to the repository. */
    method Delete(id: string, fault: Option<string>) returns (err: Option<Error>)
      requires repo.Valid()
      modifies repo
      ensures repo.Valid()
      ensures fault.Some? ==> err == Some(StoreFailure(fault.value)) && repo.items == old(repo.items)
      ensures fault.None? ==> err == None && repo.items == old(repo.items) - {id}
    {
      err := repo.Delete(id, fault);
    }
  }
}
