/**
 * Entities shared by the controllers: the catalog's products, the shipping
 * details of an order, the product repository collaborator and the MVC model
 * state that collects validation errors.
 */
module Domain {
  import opened Wrappers

  /**
   * A catalog product. The price is a whole number of the smallest currency
   * unit (cents): the source's `decimal` is exact, so nothing is lost.
   * A product's category may be absent (`null` in the source).
   */
  datatype Product = Product(
    id: int,
    name: string,
    description: string,
    category: Option<string>,
    price: int)

  /** The address an order ships to; its validation happens elsewhere. */
  datatype ShippingDetails = ShippingDetails(
    name: string,
    line1: string,
    line2: string,
    line3: string,
    city: string,
    state: string,
    zip: string,
    country: string,
    giftWrap: bool)

  /** A product is found when some product of the sequence carries that id. */
  ghost predicate HasProductId(products: seq<Product>, id: int)
  {
    exists i :: 0 <= i < |products| && products[i].id == id
  }

  /**
   * `Products.FirstOrDefault(p => p.ProductID == id)`: the first product with
   * that id, or `None` (the source's `null`) when no product has it.
   */
  function FindProduct(products: seq<Product>, id: int): (r: Option<Product>)
    ensures r.None? <==> !HasProductId(products, id)
    ensures r.Some? ==> r.value.id == id && r.value in products
    ensures r.Some? ==> exists i :: 0 <= i < |products| && products[i] == r.value &&
                          forall j :: 0 <= j < i ==> products[j].id != id
  {
    if |products| == 0 then None
    else if products[0].id == id then Some(products[0])
    else
      var r := FindProduct(products[1..], id);
      assert HasProductId(products[1..], id) ==> HasProductId(products, id) by {
        if HasProductId(products[1..], id) {
          var i :| 0 <= i < |products[1..]| && products[1..][i].id == id;
          assert products[i + 1].id == id;
        }
      }
      assert r.Some? ==> exists i :: 0 <= i < |products| && products[i] == r.value &&
                            forall j :: 0 <= j < i ==> products[j].id != id by {
        if r.Some? {
          var i :| 0 <= i < |products[1..]| && products[1..][i] == r.value &&
                   forall j :: 0 <= j < i ==> products[1..][j].id != id;
          assert products[i + 1] == r.value;
          assert forall j :: 0 <= j < i + 1 ==> products[j].id != id by {
            forall j | 0 <= j < i + 1 ensures products[j].id != id {
              if j > 0 { assert products[j] == products[1..][j - 1]; }
            }
          }
        }
      }
      r
  }

  /**
   * The product repository collaborator. Its contents are the products it
   * serves; `saved` and `deleted` log the calls of `SaveProduct` and
   * `DeleteProduct`, which is all the controllers' contracts depend on.
   */
  class ProductRepository {
    var products: seq<Product>
    ghost var saved: seq<Product>
    ghost var deleted: seq<int>

    constructor (products: seq<Product>)
      ensures this.products == products && saved == [] && deleted == []
    {
      this.products := products;
      saved, deleted := [], [];
    }

    method SaveProduct(product: Product)
      modifies this`saved
      ensures saved == old(saved) + [product]
    {
      saved := saved + [product];
    }

    method DeleteProduct(productId: int)
      modifies this`deleted
      ensures deleted == old(deleted) + [productId]
    {
      deleted := deleted + [productId];
    }
  }

  /** One validation error: the property it is about and its message. */
  datatype ModelError = ModelError(key: string, message: string)

  /** The controller's model state: valid exactly when it holds no error. */
  class ModelState {
    var errors: seq<ModelError>

    constructor ()
      ensures errors == []
    {
      errors := [];
    }

    predicate IsValid()
      reads this
    {
      errors == []
    }

    method AddModelError(key: string, message: string)
      modifies this
      ensures errors == old(errors) + [ModelError(key, message)]
      ensures !IsValid()
    {
      errors := errors + [ModelError(key, message)];
    }
  }
}
