# SportsStore order capture, catalog paging and password meter in Dafny

This project models four small pieces of the SportsStore web shop and proves
properties of each.

- **Cart.** The shopping cart is an ordered list of lines. Each line holds a
  product and a quantity. `AddItem` merges by product id: it adds to the
  quantity of an existing line, or it appends a new line. `RemoveLine` drops
  a product's line. `Clear` empties the cart. `ComputeTotalValue` sums price
  times quantity.
- **Cart controller.** `AddToCart` looks a product up by id and adds one unit
  of it. `Checkout` is a gate. An empty cart or a model state with errors
  means no order is processed. Otherwise exactly one `ProcessOrder` call
  happens and the "Completed" view is shown.
- **Admin controller.** It lists the products, looks one up for editing,
  saves an edited product only when the model state is valid, and forwards
  deletions to the repository.
- **Product controller.** `List(category, page)` filters by an optional
  category and stable-sorts by product id. It skips the earlier pages and
  takes one page. It also reports the paging totals.
- **Password meter.** The script counts a length score and a
  character-class score and maps them to a rating from 1 to 4.

The files are:

- `wrappers.dfy`: `Option`.
- `domain.dfy`: products, shipping details, the product repository and the
  MVC model state.
- `cart.dfy`: the cart's specification functions, their lemmas and the
  `Cart` class.
- `cart_controller.dfy`: the order processor and the cart controller.
- `admin_controller.dfy`: the admin controller.
- `product_controller.dfy`: the catalog listing.
- `password_strength.dfy`: the password meter.
- `scenarios.dfy`: the unit tests' scenarios, replayed as methods whose
  assertions follow from the contracts.

`Cart`, `CartController` and `AdminController` are modelled from the
behaviour their unit tests assert. Cart.cs, CartController.cs and
AdminController.cs are not part of this model.

Points where the model had to choose:

- **Prices.** A price is a whole number of cents. The source's `decimal` is
  exact, so the integers lose nothing.
- **Merging keeps the first product.** A merged line keeps the product it was
  created with; only its quantity changes. When two different product
  objects share an id, the later units are charged at the first object's
  price. `AddItemTotal` states this.
- **Checkout leaves the cart alone.** The tests do not say whether a
  successful checkout clears the cart. In this model a successful checkout
  does not clear it; the caller calls `Clear` afterwards.
- **The page offset wraps.** `(page - 1) * PageSize` is computed in C#'s
  `int`, which is not checked for overflow by default. The model keeps the
  low 32 bits of the product, so a page far past the end can wrap back to
  an earlier page.
- **Saving returns a view.** `Edit(Product)` returns a view in both branches,
  as AdminTests.cs:139 and :160 assert.

## Model

| member | source | states |
|---|---|---|
| `Domain.FindProduct` | SportsStore.UnitTests/AdminTests.cs:79-119 | `None` exactly when no product has the id; otherwise a product of the repository with that id, and no earlier product has it |
| `Domain.ProductRepository.SaveProduct` | SportsStore.UnitTests/AdminTests.cs:136 | the call is logged with exactly the product passed |
| `Domain.ProductRepository.DeleteProduct` | SportsStore.UnitTests/AdminTests.cs:188 | the call is logged with exactly the id passed |
| `Domain.ModelState.AddModelError` | SportsStore.UnitTests/CartTest.cs:289 | the error is appended and the model state is no longer valid |
| `ShoppingCart.FindLine` | SportsStore.UnitTests/CartTest.cs:66-77 | the position of the first line with that product id, or `None` exactly when no line has that id |
| `ShoppingCart.RemovedLine` | SportsStore.UnitTests/CartTest.cs:109-111 | a line is kept exactly when it was in the cart and is for another product id |
| `ShoppingCart.AddItemMerges` | SportsStore.UnitTests/CartTest.cs:66-77 | `AddItem` adds `quantity` to the product's id and to no other id; the line count grows only for a new id; every other line stays at its position |
| `ShoppingCart.AddItemKeepsWellFormed` | SportsStore.UnitTests/CartTest.cs:101-112 | with a positive quantity, `AddItem` keeps at most one line per id and every quantity positive |
| `ShoppingCart.AddItemIds` | SportsStore.UnitTests/CartTest.cs:38-48 | after `AddItem` the ids with a line are the old ones plus the product's id |
| `ShoppingCart.AddItemTotal` | SportsStore.UnitTests/CartTest.cs:133-140 | `AddItem` raises the total by the quantity times the unit price of the product's line (the added product's own price for a new line) |
| `ShoppingCart.AddTwiceMerges` | SportsStore.UnitTests/CartTest.cs:66-77 | adding a product twice leaves one line for it, holding both quantities |
| `ShoppingCart.AddNewAppends` | SportsStore.UnitTests/CartTest.cs:38-48 | adding products with distinct new ids appends their lines in call order |
| `ShoppingCart.AddAllKeepsWellFormed` | SportsStore.UnitTests/CartTest.cs:101-112 | any sequence of `AddItem` calls with positive quantities keeps the cart's invariant |
| `ShoppingCart.AddAllIds` | SportsStore.UnitTests/CartTest.cs:101-106 | after a sequence of `AddItem` calls the ids with a line are the old ones plus every id added |
| `ShoppingCart.MergeInvariant` | SportsStore.UnitTests/CartTest.cs:101-112 | from an empty cart, any sequence of `AddItem` calls ends with exactly one line per distinct product id added |
| `ShoppingCart.LineCountIsIdCount` | SportsStore.UnitTests/CartTest.cs:112 | with unique ids, the line count equals the number of distinct ids |
| `ShoppingCart.QuantityOfLine` | SportsStore.UnitTests/CartTest.cs:72-77 | with unique ids, the total quantity for a line's id is that line's quantity |
| `ShoppingCart.QuantityOfAbsent` | SportsStore.UnitTests/CartTest.cs:111 | an id without a line has quantity zero |
| `ShoppingCart.RemoveLineAbsent` | SportsStore.UnitTests/CartTest.cs:109 | removing a product that has no line changes neither the lines nor the total |
| `ShoppingCart.RemoveLineDropsOne` | SportsStore.UnitTests/CartTest.cs:101-112 | with unique ids, `RemoveLine` deletes exactly the product's line and keeps the other lines in order |
| `ShoppingCart.RemoveLineTotal` | SportsStore.UnitTests/CartTest.cs:109-112 | with unique ids, removing a present product lowers the line count by one and the total by that line's price times quantity |
| `ShoppingCart.RemoveLineQuantity` | SportsStore.UnitTests/CartTest.cs:109-111 | after `RemoveLine` the product's quantity is zero and every other id's quantity is unchanged |
| `ShoppingCart.RemoveLineKeepsWellFormed` | SportsStore.UnitTests/CartTest.cs:109-112 | `RemoveLine` keeps the cart's invariant |
| `ShoppingCart.RemoveLineIds` | SportsStore.UnitTests/CartTest.cs:109-111 | after `RemoveLine` the ids with a line are the old ones less the product's id |
| `ShoppingCart.Cart.constructor` | SportsStore.UnitTests/CartTest.cs:38 | a new cart has no lines |
| `ShoppingCart.Cart.AddItem` | SportsStore.UnitTests/CartTest.cs:41-42 | the lines become the merge of the old lines with the product and quantity, and the invariant holds |
| `ShoppingCart.Cart.RemoveLine` | SportsStore.UnitTests/CartTest.cs:109 | the lines become the old lines without the product's id, and the invariant holds |
| `ShoppingCart.TotalValue` | SportsStore.UnitTests/CartTest.cs:133-140 | the sum of price times quantity over the lines, zero for an empty cart |
| `ShoppingCart.TotalValueNonNegative` | SportsStore.UnitTests/CartTest.cs:133-140 | the total is never negative while no price or quantity is |
| `ShoppingCart.TotalValueAppend` | SportsStore.UnitTests/CartTest.cs:133-140 | the total of two runs of lines is the sum of their totals |
| `ShoppingCart.Cart.ComputeTotalValue` | SportsStore.UnitTests/CartTest.cs:138-140 | the cart's total is `TotalValue` of its lines, zero for an empty cart |
| `ShoppingCart.Cart.Lines` | SportsStore.UnitTests/CartTest.cs:43-48 | the cart's lines in order; in a valid cart there is one line per distinct product id and every quantity is positive |
| `ShoppingCart.Cart.Clear` | SportsStore.UnitTests/CartTest.cs:160-167 | whatever the previous contents, the cart has no lines and a total of zero |
| `CartControllers.OrderProcessor.ProcessOrder` | SportsStore.UnitTests/CartTest.cs:317-318 | each call is logged once with the cart's lines and the shipping details |
| `CartControllers.CartController.Index` | SportsStore.UnitTests/CartTest.cs:228-244 | the model holds the very cart passed in and the return URL |
| `CartControllers.CartController.AddToCart` | SportsStore.UnitTests/CartTest.cs:170-226 | always redirects to "Index" carrying the return URL; adds one unit of the first repository product with that id, or leaves the cart unchanged when none has it |
| `CartControllers.CartController.Checkout` | SportsStore.UnitTests/CartTest.cs:246-321 | an empty cart adds a model error; with errors: no `ProcessOrder` call, the default view "" and an invalid model; otherwise exactly one call with the cart and details, the "Completed" view and a valid model; the cart is unchanged |
| `AdminControllers.AdminController.Index` | SportsStore.UnitTests/AdminTests.cs:19-50 | the model is every repository product, in repository order |
| `AdminControllers.AdminController.Edit` | SportsStore.UnitTests/AdminTests.cs:52-120 | the model is a repository product with that id, exactly when one exists, and `None` (null) otherwise |
| `AdminControllers.AdminController.EditPost` | SportsStore.UnitTests/AdminTests.cs:122-161 | with a valid model state `SaveProduct` is called once with exactly that product, otherwise never; a view of the product is returned either way |
| `AdminControllers.AdminController.Delete` | SportsStore.UnitTests/AdminTests.cs:163-190 | `DeleteProduct` is called with exactly that id |
| `ProductControllers.Where` | SportsStore.WebUI/Controllers/ProductController.cs:26 | a product is kept exactly when it is in the repository and there is no category or it has that category |
| `ProductControllers.NoCategoryKeepsAll` | SportsStore.WebUI/Controllers/ProductController.cs:26 | with no category nothing is filtered out |
| `ProductControllers.SortById` | SportsStore.WebUI/Controllers/ProductController.cs:26 | the result is in non-decreasing id order and is a permutation of the input |
| `ProductControllers.SortIsStable` | SportsStore.WebUI/Controllers/ProductController.cs:26 | products with equal ids keep their input order through the sort |
| `ProductControllers.WhereKeepsOrder` | SportsStore.WebUI/Controllers/ProductController.cs:26 | the filter keeps repository order: among the products with a given id it keeps those in the category, in repository order |
| `ProductControllers.ListingKeepsRepositoryOrder` | SportsStore.WebUI/Controllers/ProductController.cs:26 | filtered and sorted, the products sharing an id are the repository's products with that id in the category, in repository order |
| `ProductControllers.Skip` | SportsStore.WebUI/Controllers/ProductController.cs:26 | LINQ `Skip(n)`: the suffix of length `|s| - n`, where a negative `n` counts as 0 and an `n` past the end as the whole length |
| `ProductControllers.Take` | SportsStore.WebUI/Controllers/ProductController.cs:26 | LINQ `Take(n)`: the prefix of length `n`, where a negative `n` counts as 0 and an `n` past the end as the whole length |
| `ProductControllers.Int32` | SportsStore.WebUI/Controllers/ProductController.cs:26 | unchecked `int` arithmetic: the result lies in the `int` range, agrees with the exact value modulo 2^32, and equals it when that fits |
| `ProductControllers.Page` | SportsStore.WebUI/Controllers/ProductController.cs:26 | skip then take yields at most `count` products of the input, keeps sortedness, and for non-negative arguments is the clipped slice `[offset, offset + count)` |
| `ProductControllers.List` | SportsStore.WebUI/Controllers/ProductController.cs:22-36 | skips `(page - 1) * pageSize` wrapped to 32 bits; paging info echoes page and page size; `TotalItems` is the number of products the filter keeps; the category is echoed; every listed product is in the repository and in the category; the page is sorted by id and holds at most `pageSize` products |
| `ProductControllers.ListFirstPage` | SportsStore.WebUI/Controllers/ProductController.cs:15-22 | with the defaults (page 1, page size 4) the view lists the first four products of the category in id order |
| `ProductControllers.TotalItems` | SportsStore.WebUI/Controllers/ProductController.cs:31 | both branches, the full count with no category and the count of the category otherwise, equal the number of products the filter keeps |
| `ProductControllers.CountIsFilteredCount` | SportsStore.WebUI/Controllers/ProductController.cs:31 | counting the products of a category agrees with filtering by it |
| `ProductControllers.PageIsSlice` | SportsStore.WebUI/Controllers/ProductController.cs:26 | for page 1 or more whose offset `(page-1)*pageSize` fits in an `int`, the listed products are exactly the slice `[(page-1)*pageSize, page*pageSize)` of the filtered, sorted products, clipped to their number |
| `ProductControllers.HugePageWrapsToFirst` | SportsStore.WebUI/Controllers/ProductController.cs:26 | page 536870913 at four products a page has the offset 2^31, which wraps to the most negative `int`, so it lists the same products as page 1 |
| `ProductControllers.PositionOnPage` | SportsStore.WebUI/Controllers/ProductController.cs:26 | while the offset fits in an `int`, position `k` of page `page` is position `(page-1)*pageSize + k` of the filtered, sorted products |
| `ProductControllers.PagesCoverAll` | SportsStore.WebUI/Controllers/ProductController.cs:26 | with a positive page size every filtered product at a position up to `int.MaxValue` appears, at position `i % pageSize` of page `i / pageSize + 1` |
| `PasswordStrength.LengthScore` | SportsStore.WebUI/Scripts/script.js:11-24 | for length above 5 the score is 1 up to length 7, 2 at length 8, 3 for 9 to 12 and 4 above 12 |
| `PasswordStrength.CharScore` | SportsStore.WebUI/Scripts/script.js:26-36 | the score lies in 0..4 and is 4 exactly when all four character classes occur |
| `PasswordStrength.Rating` | SportsStore.WebUI/Scripts/script.js:38-52 | the rating lies in 1..4; it is 4 exactly for scores (4, 4), 3 exactly for (3, 4), 2 exactly for a length score of 3 or more with character score 3, and 1 for any length score up to 2 |
| `PasswordStrength.ScoreWith` | SportsStore.WebUI/Scripts/script.js:1-61 | no rating exactly for length 5 or less; otherwise 1..4; "Very Strong" exactly above 12 characters with all classes; "Strong" exactly for 9 to 12 with all classes; "Medium" exactly for 9 or more with three classes; "Weak" for 6 to 8 characters |
| `PasswordStrength.Score` | SportsStore.WebUI/Scripts/script.js:1-61 | with the class as listed: no rating exactly for at most five characters; "Very Strong" exactly above 12 characters with all four classes; "Strong" exactly for 9 to 12 with all four |
| `PasswordStrength.ScoreAsWritten` | SportsStore.WebUI/Scripts/script.js:1-61 | the same statements with the class as the pattern reads it, ',' in and '-' out |
| `PasswordStrength.ScoresAgreeWithoutCommaOrHyphen` | SportsStore.WebUI/Scripts/script.js:36 | for a password with neither ',' nor '-' the listed and the as-written class give the same rating |
| `PasswordStrength.PasswordStrengthScore` | SportsStore.WebUI/Scripts/script.js:9-52 | counting the two scores up and running the cascade yields the rating `Score` specifies |
| `PasswordStrength.HyphenIgnoredAsWritten` | SportsStore.WebUI/Scripts/script.js:36 | as written, "Abcdefghij1-" is rated 2 ("Medium"), while the listed class rates it 3 ("Strong") |
| `PasswordStrength.CommaCountsAsWritten` | SportsStore.WebUI/Scripts/script.js:36 | as written, "Abcdefghij1," is rated 3 ("Strong"), while the listed class rates it 2 ("Medium") |
| `PasswordStrength.ListedCharacterCounts` | SportsStore.WebUI/Scripts/script.js:35-36 | with the class as listed, each of `!@#$%^&*?_~-()` after a first character earns the point, and ',' does not |

## Findings

| source | as written | input that shows it | evidently intended | confidence | as-written member | corrected member |
|---|---|---|---|---|---|---|
| SportsStore.WebUI/Scripts/script.js:36 | the class `[!,@,#,$,%,^,&,*,?,_,~,-,(,)]` reads `,-,` as the range from ',' to ','. So '-' is not special and ',' is. | "Abcdefghij1-" is rated 2 instead of 3; "Abcdefghij1," is rated 3 instead of 2 | the commas separate the fourteen listed characters `!@#$%^&*?_~-()`, which are the special characters | high; not executed | `PasswordStrength.HyphenIgnoredAsWritten` | `PasswordStrength.ListedCharacterCounts` |

`PasswordStrength.Score` and `PasswordStrengthScore` use the class as listed.
`ScoreAsWritten` keeps the pattern's reading, and every property of
`ScoreWith` holds for both classes. The leading `.` of the pattern is kept
in both: a special character counts only after some other character that
is not a line terminator.

## Left out

- Moq mocks, the Entity Framework repository and the e-mail order processor
  are not modelled. The repository and the order processor are modelled as
  logs of the calls they receive.
- `Domain.ProductRepository.SaveProduct` and `DeleteProduct` only log the
  call. What a real repository stores is not part of this model.
- Sending an order can fail in a real processor. Nothing in the tests shows
  such a failure, so `Checkout` has no processing-failure outcome.
- The MVC result types are small datatypes here: a view name with the model
  state's validity, or a redirect with its action and return URL. The
  `ModelState` dictionary is a list of errors.
- Field validation of `ShippingDetails` is done by model binding before
  `Checkout` runs. It is modelled only through the model state's errors.
- `ShoppingCart.Cart.AddItem` requires a positive quantity. No test adds a
  zero or negative quantity, so that behaviour is not modelled.
- A `CartLine` is a value here. The source's line is an object, so a caller
  holding a line would see a merged quantity change; that aliasing is not
  modelled.
- `ShoppingCart.RemovedLine` drops every line with the id. This matches
  dropping the single line under the one-line-per-id invariant.
- `ProductControllers.List` takes the page size as a parameter. In the
  source it is a public field that starts at 4; the model does not keep a
  controller object for it.
- The cart's session binding (`CartModelBinder`) and its serialization are
  not modelled.
- In the password meter, writing the description and the CSS class into the
  page is not modelled (script.js:54-55 and 58-59), and neither is the
  description table (script.js:3-7). The result is the rating, or `None`
  where the page is blanked.
- `ShoppingCart.Cart.AddItem`: quantities are unbounded integers. The
  source's line quantity is an `int` that `+=` lets wrap past
  `int.MaxValue`; no test comes near that.
- `ShoppingCart.Cart.ComputeTotalValue`: the sum is exact and unbounded. The
  source's `decimal` sum throws on overflow past about 7.9 * 10^28.
- Length in JavaScript counts UTF-16 code units. Here it counts characters,
  so a character outside the Basic Multilingual Plane counts once instead of
  twice.
- Dependency injection wiring, route and filter registration, and forms
  authentication have no logic to verify. They are not part of this model.
