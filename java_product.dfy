/**
 * The backend's catalogue tables: categories, read by the services but never changed by
 * them, and products, each referring to its category, behind `ProductRepository`.
 */
module JavaProduct {
  import opened Wrappers
  import opened Seqs

  datatype Category = Category(id: int, name: string, displayOrder: int)

  /** A `Product` entity; `category` is the category it references. */
  datatype Product = Product(
    id: int, name: string, price: int, description: Option<string>,
    category: Category, available: bool)

  function CategoryId(c: Category): int { c.id }
  function ProductId(p: Product): int { p.id }

  /** `categoryRepository.findById`. */
  function FindCategory(categories: seq<Category>, id: int): (r: Option<Category>)
    ensures r.None? <==> forall i :: 0 <= i < |categories| ==> categories[i].id != id
    ensures r.Some? ==> r.value in categories && r.value.id == id
  {
    match FindIndex(categories, CategoryId, id)
    case Some(k) => Some(categories[k])
    case None => None
  }

  /** `productRepository.findById`. */
  function FindProduct(products: seq<Product>, id: int): (r: Option<Product>)
    ensures r.None? <==> forall i :: 0 <= i < |products| ==> products[i].id != id
    ensures r.Some? ==> r.value in products && r.value.id == id
  {
    match FindIndex(products, ProductId, id)
    case Some(k) => Some(products[k])
    case None => None
  }

  /** The `products` table: rows in insertion order and the next identity value. */
  class ProductRepository {
    var rows: seq<Product>
    var nextId: int

    ghost predicate Valid()
      reads this
    {
      Fresh(rows, ProductId, nextId)
    }

    constructor ()
      ensures Valid() && rows == [] && nextId == 1
    {
      rows := [];
      nextId := 1;
    }

    /** `save` of a new product: it takes the next identity id. */
    method Insert(draft: Product) returns (saved: Product)
      requires Valid()
      modifies this
      ensures Valid()
      ensures saved == draft.(id := old(nextId))
      ensures rows == old(rows) + [saved] && nextId == old(nextId) + 1
    {
      saved := draft.(id := nextId);
      rows := rows + [saved];
      nextId := nextId + 1;
    }

    /** `save` of a product read with `findById` and changed: the row with its id is replaced. */
    method Replace(product: Product)
      requires Valid()
      requires exists i :: 0 <= i < |rows| && rows[i].id == product.id
      modifies this
      ensures Valid()
      ensures nextId == old(nextId) && |rows| == |old(rows)|
      ensures forall i :: 0 <= i < |rows| ==> rows[i] == if old(rows)[i].id == product.id then product else old(rows)[i]
    {
      var k :| 0 <= k < |rows| && rows[k].id == product.id;
      rows := rows[k := product];
    }

    /** `deleteById`: the rows with that id are gone and every other row stays, in order. */
    method DeleteById(id: int)
      requires Valid()
      modifies this
      ensures Valid()
      ensures nextId == old(nextId) && rows == Without(old(rows), ProductId, id)
    {
      WithoutFresh(rows, ProductId, id, nextId);
      rows := Without(rows, ProductId, id);
    }
  }
}
