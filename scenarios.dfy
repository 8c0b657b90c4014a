/**
 * The unit tests' scenarios, replayed against the contracts above: each
 * method builds the tests' objects and asserts what the tests assert.
 */
module Scenarios {
  import opened Wrappers
  import opened Domain
  import opened ShoppingCart
  import opened CartControllers
  import opened AdminControllers
  import opened ProductControllers
  import opened PasswordStrength

  function P(id: int, name: string, price: int): Product
  {
    Product(id, name, "", None, price)
  }

  const NoShipping := ShippingDetails("", "", "", "", "", "", "", "", false)

  method CanAddNewLines()
  {
    var p1, p2 := P(1, "P1", 0), P(2, "P2", 0);
    var target := new Cart();
    target.AddItem(p1, 1);
    target.AddItem(p2, 2);
    var results := target.Lines();
    assert |results| == 2 && results[0].product == p1 && results[1].product == p2;
  }

  method CanAddQuantityForExistingLines()
  {
    var p1, p2 := P(1, "P1", 0), P(2, "P2", 0);
    var target := new Cart();
    target.AddItem(p1, 1);
    target.AddItem(p2, 1);
    target.AddItem(p1, 10);
    assert |target.lines| == 2;
    assert target.lines[0] == CartLine(p1, 11) && target.lines[1] == CartLine(p2, 1);
  }

  method CanRemoveLine()
  {
    var p1, p2, p3 := P(1, "P1", 0), P(2, "P2", 0), P(3, "P3", 0);
    var target := new Cart();
    target.AddItem(p1, 1);
    target.AddItem(p2, 3);
    target.AddItem(p3, 5);
    target.AddItem(p2, 1);
    assert target.lines == [CartLine(p1, 1), CartLine(p2, 4), CartLine(p3, 5)];
    RemoveLineDropsOne(target.lines, 2, 1);
    target.RemoveLine(p2);
    assert target.lines == [CartLine(p1, 1), CartLine(p3, 5)];
  }

  method CalculateCartTotal()
  {
    var p1, p2 := P(1, "P1", 100), P(2, "P2", 50);
    var target := new Cart();
    target.AddItem(p1, 1);
    target.AddItem(p2, 1);
    target.AddItem(p1, 1);
    assert target.lines == [CartLine(p1, 2), CartLine(p2, 1)];
    assert TotalValue(target.lines[1..]) == 50;
    assert target.ComputeTotalValue() == 250;
  }

  method CanClearContents()
  {
    // Two distinct products sharing id 2 merge into one line.
    var p1, p2 := P(2, "P1", 100), P(2, "P2", 50);
    var target := new Cart();
    target.AddItem(p1, 1);
    target.AddItem(p2, 1);
    assert target.lines == [CartLine(p1, 2)];
    target.Clear();
    assert |target.Lines()| == 0;
  }

  method CanAddToCart()
  {
    var repository := new ProductRepository([Product(1, "P1", "", Some("Apples"), 0)]);
    var processor := new OrderProcessor();
    var cart := new Cart();
    var target := new CartController(repository, processor);
    var _ := target.AddToCart(cart, 1, None);
    assert |cart.lines| == 1 && cart.lines[0].product.id == 1;
  }

  method AddingProductToCartGoesToCartScreen()
  {
    var repository := new ProductRepository([Product(1, "P1", "", Some("Apples"), 0)]);
    var processor := new OrderProcessor();
    var cart := new Cart();
    var target := new CartController(repository, processor);
    var result := target.AddToCart(cart, 2, Some("myUrl"));
    assert result.action == "Index" && result.returnUrl == Some("myUrl");
    assert cart.lines == [];
  }

  method CanViewCartContents()
  {
    var processor := new OrderProcessor();
    var repository := new ProductRepository([]);
    var cart := new Cart();
    var target := new CartController(repository, processor);
    var result := target.Index(cart, Some("myUrl"));
    assert result.cart == cart && result.returnUrl == Some("myUrl");
  }

  method CannotCheckoutEmptyCart()
  {
    var processor := new OrderProcessor();
    var cart := new Cart();
    var repository := new ProductRepository([]);
    var target := new CartController(repository, processor);
    var result := target.Checkout(cart, NoShipping);
    assert processor.orders == [];
    assert result.viewName == "" && !result.modelValid;
  }

  method CannotCheckoutInvalidShippingDetails()
  {
    var processor := new OrderProcessor();
    var cart := new Cart();
    cart.AddItem(P(0, "", 0), 1);
    var repository := new ProductRepository([]);
    var target := new CartController(repository, processor);
    target.modelState.AddModelError("error", "error");
    var result := target.Checkout(cart, NoShipping);
    assert processor.orders == [];
    assert result.viewName == "" && !result.modelValid;
  }

  method CanCheckoutAndSubmitOrder()
  {
    var processor := new OrderProcessor();
    var cart := new Cart();
    cart.AddItem(P(0, "", 0), 1);
    var repository := new ProductRepository([]);
    var target := new CartController(repository, processor);
    var result := target.Checkout(cart, NoShipping);
    assert |processor.orders| == 1;
    assert result.viewName == "Completed" && result.modelValid;
  }

  method IndexContainsAllProducts()
  {
    var repository := new ProductRepository([P(1, "P1", 0), P(2, "P2", 0), P(3, "P3", 0)]);
    var target := new AdminController(repository);
    var result := target.Index();
    assert |result| == 3 && result[0].name == "P1" && result[1].name == "P2" && result[2].name == "P3";
  }

  method CanEditProduct()
  {
    var repository := new ProductRepository([P(1, "P1", 0), P(2, "P2", 0), P(3, "P3", 0)]);
    var target := new AdminController(repository);
    var p1 := target.Edit(1);
    var p2 := target.Edit(2);
    var p3 := target.Edit(3);
    assert p1 == Some(P(1, "P1", 0)) && p2 == Some(P(2, "P2", 0)) && p3 == Some(P(3, "P3", 0));
  }

  method CannotEditNonexistentProduct()
  {
    var repository := new ProductRepository([P(1, "P1", 0), P(2, "P2", 0), P(3, "P3", 0)]);
    var target := new AdminController(repository);
    var result := target.Edit(4);
    assert result == None;
  }

  method CanSaveValidChanges()
  {
    var repository := new ProductRepository([]);
    var target := new AdminController(repository);
    var product := P(0, "Test", 0);
    var result := target.EditPost(product);
    assert repository.saved == [product];
    assert result.product == product;
  }

  method CannotSaveInvalidChanges()
  {
    var repository := new ProductRepository([]);
    var target := new AdminController(repository);
    var product := P(0, "Test", 0);
    target.modelState.AddModelError("error", "error");
    var result := target.EditPost(product);
    assert repository.saved == [];
    assert result.product == product;
  }

  method CanDeleteValidProducts()
  {
    var prod := P(2, "Test", 0);
    var repository := new ProductRepository([P(1, "P1", 0), prod, P(3, "P3", 0)]);
    var target := new AdminController(repository);
    target.Delete(prod.id);
    assert repository.deleted == [2];
  }

  method RatesPasswords()
  {
    var weak := PasswordStrengthScore("Ab1!xyzq");
    assert weak == Some(1);
    var none := PasswordStrengthScore("Ab1!x");
    assert none == None;
    HyphenIgnoredAsWritten();
    var strong := PasswordStrengthScore("Abcdefghij1-");
    assert strong == Some(3);
  }
}
