/**
 * The administration controller: listing the repository's products, looking
 * one up for editing, saving an edited product when the model state is valid,
 * and forwarding deletions to the repository.
 */
module AdminControllers {
  import opened Wrappers
  import opened Domain

  /** The view returned by a save: its model is the product, valid or not. */
  datatype EditResult = EditView(product: Product, modelValid: bool)

  class AdminController {
    const repository: ProductRepository
    const modelState: ModelState

    constructor (repository: ProductRepository)
      ensures this.repository == repository
      ensures fresh(modelState) && modelState.errors == []
    {
      this.repository := repository;
      modelState := new ModelState();
    }

    /** The index view's model: every product, in repository order. */
    method Index() returns (model: seq<Product>)
      ensures model == repository.products
    {
      model := repository.products;
    }

    /** The edit view's model: the first product with that id, or none. */
    method Edit(productId: int) returns (model: Option<Product>)
      ensures model.Some? <==> HasProductId(repository.products, productId)
      ensures model.Some? ==> model.value in repository.products && model.value.id == productId
      ensures model == FindProduct(repository.products, productId)
    {
      model := FindProduct(repository.products, productId);
    }

    /**
     * Saving an edited product: with a valid model state the product is
     * passed to `SaveProduct`, otherwise the repository is not called; a view
     * of the product comes back either way.
     */
    method EditPost(product: Product) returns (result: EditResult)
      modifies repository`saved
      ensures result == EditView(product, modelState.IsValid())
      ensures repository.saved == old(repository.saved) + (if modelState.IsValid() then [product] else [])
    {
      if modelState.IsValid() {
        repository.SaveProduct(product);
      }
      result := EditView(product, modelState.IsValid());
    }

    /** Deleting forwards the id to `DeleteProduct`. */
    method Delete(productId: int)
      modifies repository`deleted
      ensures repository.deleted == old(repository.deleted) + [productId]
    {
      repository.DeleteProduct(productId);
    }
  }
}
