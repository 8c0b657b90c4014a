/**
 * The cart controller: adding a catalog product to the cart by id, and the
 * checkout gate that forwards an order to the order processor only when the
 * cart is non-empty and the shipping details carry no validation error.
 */
module CartControllers {
  import opened Wrappers
  import opened Domain
  import opened ShoppingCart

  /** What the order processor receives: the cart's lines and where to ship them. */
  datatype Order = Order(lines: seq<CartLine>, shipping: ShippingDetails)

  /**
   * The order processor collaborator. Sending the order is outside this
   * model; `orders` logs every `ProcessOrder` call, in call order.
   */
  class OrderProcessor {
    ghost var orders: seq<Order>

    constructor ()
      ensures orders == []
    {
      orders := [];
    }

    method ProcessOrder(cart: Cart, shippingDetails: ShippingDetails)
      modifies this
      ensures orders == old(orders) + [Order(cart.lines, shippingDetails)]
    {
      orders := orders + [Order(cart.lines, shippingDetails)];
    }
  }

  /**
   * The two kinds of action result the cart controller returns: a view (its
   * name, "" for the default view, and whether the model state was valid) or
   * a redirect to an action carrying the return URL.
   */
  datatype ActionResult =
    | ViewResult(viewName: string, modelValid: bool)
    | RedirectToRouteResult(action: string, returnUrl: Option<string>)

  /** The cart page's model: the cart itself and where to return to. */
  datatype CartIndexViewModel = CartIndexViewModel(cart: Cart, returnUrl: Option<string>)

  /**
   * The model error recorded when checking out an empty cart. CartController.cs
   * is not part of this model: its key and message stand in for whatever error
   * the controller records, since the tests observe only that the model state
   * becomes invalid.
   */
  const EmptyCartError := ModelError("", "Sorry, your cart is empty!")

  class CartController {
    const repository: ProductRepository
    const orderProcessor: OrderProcessor
    const modelState: ModelState

    constructor (repository: ProductRepository, orderProcessor: OrderProcessor)
      ensures this.repository == repository && this.orderProcessor == orderProcessor
      ensures fresh(modelState) && modelState.errors == []
    {
      this.repository := repository;
      this.orderProcessor := orderProcessor;
      modelState := new ModelState();
    }

    /** The cart page shows the very cart object passed in and the return URL. */
    method Index(cart: Cart, returnUrl: Option<string>) returns (model: CartIndexViewModel)
      ensures model.cart == cart && model.returnUrl == returnUrl
    {
      model := CartIndexViewModel(cart, returnUrl);
    }

    /**
     * Looks the product up by id and, when the repository has it, adds one
     * unit of it; either way redirects to "Index" with the return URL.
     */
    method AddToCart(cart: Cart, productId: int, returnUrl: Option<string>) returns (result: ActionResult)
      requires cart.Valid()
      modifies cart
      ensures cart.Valid()
      ensures result == RedirectToRouteResult("Index", returnUrl)
      ensures cart.lines == match FindProduct(repository.products, productId)
                            case None => old(cart.lines)
                            case Some(product) => AddedItem(old(cart.lines), product, 1)
    {
      var product := FindProduct(repository.products, productId);
      if product.Some? {
        cart.AddItem(product.value, 1);
      }
      result := RedirectToRouteResult("Index", returnUrl);
    }

    /**
     * The checkout gate. An empty cart adds a model error; then a valid model
     * state leads to exactly one `ProcessOrder` call and the "Completed" view,
     * and an invalid one to no call and the default view. The cart itself is
     * not changed.
     */
    method Checkout(cart: Cart, shippingDetails: ShippingDetails) returns (result: ActionResult)
      modifies modelState, orderProcessor
      ensures modelState.errors ==
              old(modelState.errors) + (if |cart.lines| == 0 then [EmptyCartError] else [])
      ensures modelState.IsValid() <==> |cart.lines| > 0 && old(modelState.IsValid())
      ensures result.ViewResult? && result.modelValid == modelState.IsValid()
      ensures modelState.IsValid() ==>
                result.viewName == "Completed" &&
                orderProcessor.orders == old(orderProcessor.orders) + [Order(cart.lines, shippingDetails)]
      ensures !modelState.IsValid() ==>
                result.viewName == "" && orderProcessor.orders == old(orderProcessor.orders)
    {
      if |cart.lines| == 0 {
        modelState.AddModelError(EmptyCartError.key, EmptyCartError.message);
      }
      if modelState.IsValid() {
        orderProcessor.ProcessOrder(cart, shippingDetails);
        result := ViewResult("Completed", true);
      } else {
        result := ViewResult("", false);
      }
    }
  }
}
