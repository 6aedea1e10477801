/**
 * `MenuService`: product lookups and the product changes of the admin API, each failing
 * with the `ResourceNotFoundException` of a missing product or category before anything
 * is saved.
 */
module MenuService {
  import opened Wrappers
  import opened Seqs
  import opened JavaProduct

  datatype ProductRequest = ProductRequest(
    name: string, price: int, description: Option<string>, categoryId: int, available: bool)

  /** `ProductResponse`: the product with its category's name in place of the category. */
  datatype ProductResponse = ProductResponse(
    id: int, name: string, price: int, description: Option<string>, categoryName: string, available: bool)

  /** The two `ResourceNotFoundException`s, by what was not found. */
  datatype MenuError = CategoryNotFound(categoryId: int) | ProductNotFound(productId: int)

  /** `productMapper.toResponse`. */
  function ToResponse(p: Product): ProductResponse {
    ProductResponse(p.id, p.name, p.price, p.description, p.category.name, p.available)
  }

  /** `getProductById`: the product with that id, as a response, or empty. */
  function GetProductById(products: seq<Product>, id: int): (r: Option<ProductResponse>)
    ensures r.None? <==> forall i :: 0 <= i < |products| ==> products[i].id != id
    ensures r.Some? ==> exists i :: 0 <= i < |products| && products[i].id == id && r.value == ToResponse(products[i])
  {
    match FindProduct(products, id)
    case Some(p) => Some(ToResponse(p))
    case None => None
  }

  /**
   * `createProduct`: an unknown category fails and saves nothing; otherwise a product with
   * exactly the request's name, price, description, category and availability is saved
   * under the next id.
   */
  method CreateProduct(repo: ProductRepository, categories: seq<Category>, request: ProductRequest)
    returns (r: Result<ProductResponse, MenuError>)
    requires repo.Valid()
    modifies repo
    ensures repo.Valid()
    ensures FindCategory(categories, request.categoryId).None? <==> r.Failure?
    ensures r.Failure? ==> r.error == CategoryNotFound(request.categoryId)
    ensures r.Failure? ==> repo.rows == old(repo.rows) && repo.nextId == old(repo.nextId)
    ensures r.Success? ==>
      var category := FindCategory(categories, request.categoryId).value;
      var saved := Product(old(repo.nextId), request.name, request.price, request.description, category, request.available);
      && repo.rows == old(repo.rows) + [saved]
      && repo.nextId == old(repo.nextId) + 1
      && r.value == ToResponse(saved)
      && GetProductById(repo.rows, saved.id) == Some(r.value)
  {
    match FindCategory(categories, request.categoryId) {
      case None =>
        r := Failure(CategoryNotFound(request.categoryId));
      case Some(category) =>
        var saved := repo.Insert(Product(0, request.name, request.price, request.description, category, request.available));
        assert repo.rows[|repo.rows| - 1] == saved;
        assert FindIndex(repo.rows, ProductId, saved.id) == Some(|repo.rows| - 1);
        r := Success(ToResponse(saved));
    }
  }

  /**
   * `updateProduct`: an unknown product fails first, whatever the category; then an unknown
   * category fails; otherwise the five fields are overwritten and the id is kept.
   */
  method UpdateProduct(repo: ProductRepository, categories: seq<Category>, id: int, request: ProductRequest)
    returns (r: Result<ProductResponse, MenuError>)
    requires repo.Valid()
    modifies repo
    ensures repo.Valid()
    ensures repo.nextId == old(repo.nextId)
    ensures FindProduct(old(repo.rows), id).None? <==> r == Failure(ProductNotFound(id))
    ensures FindProduct(old(repo.rows), id).Some? && FindCategory(categories, request.categoryId).None?
            <==> r == Failure(CategoryNotFound(request.categoryId))
    ensures FindProduct(old(repo.rows), id).None? || FindCategory(categories, request.categoryId).None? <==> r.Failure?
    ensures r.Failure? ==> repo.rows == old(repo.rows)
    ensures r.Success? ==>
      var updated := Product(id, request.name, request.price, request.description,
                             FindCategory(categories, request.categoryId).value, request.available);
      && r.value == ToResponse(updated)
      && |repo.rows| == |old(repo.rows)|
      && forall i :: 0 <= i < |repo.rows| ==> repo.rows[i] == if old(repo.rows)[i].id == id then updated else old(repo.rows)[i]
  {
    match FindProduct(repo.rows, id) {
      case None =>
        r := Failure(ProductNotFound(id));
      case Some(existing) =>
        match FindCategory(categories, request.categoryId) {
          case None =>
            r := Failure(CategoryNotFound(request.categoryId));
          case Some(category) =>
            var updated := existing.(name := request.name, price := request.price, description := request.description,
                                     category := category, available := request.available);
            repo.Replace(updated);
            r := Success(ToResponse(updated));
        }
    }
  }

  /** `deleteProduct`: an unknown id fails; otherwise exactly that product is removed. */
  method DeleteProduct(repo: ProductRepository, id: int) returns (err: Option<MenuError>)
    requires repo.Valid()
    modifies repo
    ensures repo.Valid()
    ensures repo.nextId == old(repo.nextId)
    ensures FindProduct(old(repo.rows), id).None? <==> err.Some?
    ensures err.Some? ==> err == Some(ProductNotFound(id)) && repo.rows == old(repo.rows)
    ensures err.None? ==>
      && repo.rows == Without(old(repo.rows), ProductId, id)
      && FindProduct(repo.rows, id).None?
      && forall p :: p in old(repo.rows) && p.id != id ==> p in repo.rows
  {
    if FindProduct(repo.rows, id).None? {
      err := Some(ProductNotFound(id));
    } else {
      repo.DeleteById(id);
      err := None;
    }
  }

  /** The products with the availability of the one with id `id` flipped. */
  function Toggled(products: seq<Product>, id: int): (r: seq<Product>)
    ensures |r| == |products|
    ensures forall i :: 0 <= i < |products| ==>
      && r[i].available == (if products[i].id == id then !products[i].available else products[i].available)
      && r[i].(available := products[i].available) == products[i]
  {
    seq(|products|, i requires 0 <= i < |products| =>
      if products[i].id == id then products[i].(available := !products[i].available) else products[i])
  }

  /** Toggling twice gives back the original availability. */
  lemma ToggleTwice(products: seq<Product>, id: int)
    ensures Toggled(Toggled(products, id), id) == products
  {
    var once := Toggled(products, id);
    var twice := Toggled(once, id);
    forall i | 0 <= i < |products| ensures twice[i] == products[i] {
      assert once[i].id == products[i].id;
    }
  }

  /** `toggleAvailability`: an unknown id fails; otherwise only that product's availability flips. */
  method ToggleAvailability(repo: ProductRepository, id: int) returns (err: Option<MenuError>)
    requires repo.Valid()
    modifies repo
    ensures repo.Valid()
    ensures repo.nextId == old(repo.nextId)
    ensures FindProduct(old(repo.rows), id).None? <==> err.Some?
    ensures err.Some? ==> err == Some(ProductNotFound(id)) && repo.rows == old(repo.rows)
    ensures err.None? ==> repo.rows == Toggled(old(repo.rows), id)
  {
    match FindProduct(repo.rows, id) {
      case None =>
        err := Some(ProductNotFound(id));
      case Some(p) =>
        ghost var before := repo.rows;
        repo.Replace(p.(available := !p.available));
        assert repo.rows == Toggled(before, id);
        err := None;
    }
  }
}
